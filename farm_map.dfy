/**
 * The field map (src/components/FarmMap.jsx): fields drawn on a canvas by
 * press, drag and release, edited and deleted from a side panel, and the crops
 * and tasks recorded against them through two forms.
 *
 * A field's id is a number (`Date.now()`), but the crop and task forms take
 * their field from a `<select>`, whose value is the id as text. Ids are kept
 * with their JavaScript types here, so the strict comparisons of the page can
 * be stated as written.
 */
module FarmMap {
  import opened Wrappers
  import opened Strings
  import Seqs

  /** A field id as a JavaScript value: a number, or a `<select>` value, which is text. */
  datatype JsId = Num(n: int) | Text(s: string)

  /** JavaScript's `===` on two ids: a number never equals a string. */
  predicate StrictEquals(a: JsId, b: JsId) {
    a == b
  }

  datatype Field = Field(
    id: int,
    x: real,
    y: real,
    width: real,
    height: real,
    name: string,
    fieldType: string,
    area: real,
    soilType: string,
    notes: string,
    color: string)

  datatype Crop = Crop(
    id: int,
    fieldId: JsId,
    assignedFarm: string,
    cropType: string,
    variety: string,
    plantingDate: string,
    expectedHarvestDate: string,
    notes: string,
    createdAt: string)

  datatype Task = Task(
    id: int,
    fieldId: JsId,
    title: string,
    taskType: string,
    priority: string,
    dueDate: string,
    description: string,
    assignedTo: string,
    status: string,
    createdAt: string)

  /** The tool buttons. */
  datatype Tool = SelectTool | FieldTool

  datatype FieldForm = FieldForm(name: string, fieldType: string, area: real, soilType: string, notes: string)

  datatype CropForm = CropForm(
    fieldId: string,
    assignedFarm: string,
    cropType: string,
    variety: string,
    plantingDate: string,
    expectedHarvestDate: string,
    notes: string)

  datatype TaskForm = TaskForm(
    fieldId: string,
    title: string,
    taskType: string,
    priority: string,
    dueDate: string,
    description: string,
    assignedTo: string)

  const BlankFieldForm := FieldForm("", "cropland", 0.0, "", "")
  const BlankCropForm := CropForm("", "", "", "", "", "", "")
  const BlankTaskForm := TaskForm("", "", "planting", "medium", "", "", "")

  /** The field types the form offers. */
  const FieldTypes: seq<string> := ["cropland", "pasture", "orchard", "greenhouse", "storage", "equipment"]

  /** `getFieldColor`: one colour per field type, and the cropland green for any other type. */
  function FieldColor(fieldType: string): (color: string)
    ensures fieldType !in FieldTypes ==> color == "#22c55e"
  {
    if fieldType == "cropland" then "#22c55e"
    else if fieldType == "pasture" then "#84cc16"
    else if fieldType == "orchard" then "#f59e0b"
    else if fieldType == "greenhouse" then "#06b6d4"
    else if fieldType == "storage" then "#6b7280"
    else if fieldType == "equipment" then "#ef4444"
    else "#22c55e"
  }

  /** The six types have six different colours. */
  lemma FieldColorsDistinct(a: string, b: string)
    requires a in FieldTypes && b in FieldTypes && a != b
    ensures FieldColor(a) != FieldColor(b)
  {
  }

  function Abs(x: real): (r: real)
    ensures r >= 0.0 && (r == x || r == -x)
  {
    if x < 0.0 then -x else x
  }

  /** The field a press starts: zero size at the cursor, named after the count of fields, cropland. */
  function Started(id: int, px: real, py: real, count: nat): (f: Field)
    ensures f.id == id && f.x == px && f.y == py && f.width == 0.0 && f.height == 0.0
    ensures f.name == "Field " + IntToString(count + 1) && f.fieldType == "cropland"
    ensures f.color == FieldColor(f.fieldType)
  {
    Field(id, px, py, 0.0, 0.0, "Field " + IntToString(count + 1), "cropland", 0.0, "", "", FieldColor("cropland"))
  }

  /** The field being drawn stretched to the cursor: its size is signed, its area is not. */
  function Stretched(f: Field, px: real, py: real): (g: Field)
    ensures g.x == f.x && g.y == f.y && g.x + g.width == px && g.y + g.height == py
    ensures g.area == Abs(g.width * g.height / 1000.0)
    ensures g.(width := f.width, height := f.height, area := f.area) == f
  {
    var width := px - f.x;
    var height := py - f.y;
    f.(width := width, height := height, area := Abs(width * height / 1000.0))
  }

  /** Big enough to keep on release: more than 20 pixels in each direction. */
  predicate Large(f: Field) {
    Abs(f.width) > 20.0 && Abs(f.height) > 20.0
  }

  /** The colour matches the type. */
  predicate Coloured(f: Field) {
    f.color == FieldColor(f.fieldType)
  }

  /** `handleFieldClick`: the form shows the field's details. */
  function FormOf(f: Field): FieldForm {
    FieldForm(f.name, f.fieldType, f.area, f.soilType, f.notes)
  }

  /** `{ ...field, ...fieldForm, color }`: the form's details over the field's, with the colour of the new type. */
  function Edited(f: Field, form: FieldForm): (g: Field)
    ensures g.id == f.id && g.x == f.x && g.y == f.y && g.width == f.width && g.height == f.height
    ensures FormOf(g) == form && Coloured(g)
  {
    f.(name := form.name, fieldType := form.fieldType, area := form.area, soilType := form.soilType,
       notes := form.notes, color := FieldColor(form.fieldType))
  }

  /** Saving the form of a field unchanged changes nothing but a colour that did not match its type. */
  lemma EditUnchanged(f: Field)
    ensures Edited(f, FormOf(f)) == f.(color := FieldColor(f.fieldType))
    ensures Coloured(f) ==> Edited(f, FormOf(f)) == f
  {
  }

  /** The value of a field's option in the crop and task forms' `<select>`: its id as text. */
  function OptionValue(f: Field): string {
    IntToString(f.id)
  }

  /** A crop as `handleCropSave` records it: the form's field is kept as the text the `<select>` gave. */
  function NewCrop(id: int, form: CropForm, createdAt: string): (c: Crop)
    ensures c.id == id && c.fieldId == Text(form.fieldId) && c.createdAt == createdAt
    ensures c.assignedFarm == form.assignedFarm && c.cropType == form.cropType
  {
    Crop(id, Text(form.fieldId), form.assignedFarm, form.cropType, form.variety, form.plantingDate,
      form.expectedHarvestDate, form.notes, createdAt)
  }

  /** A task as `handleTaskSave` records it: pending, against the text field id of the form. */
  function NewTask(id: int, form: TaskForm, createdAt: string): (t: Task)
    ensures t.id == id && t.fieldId == Text(form.fieldId) && t.status == "pending" && t.createdAt == createdAt
    ensures t.title == form.title && t.taskType == form.taskType && t.priority == form.priority
  {
    Task(id, Text(form.fieldId), form.title, form.taskType, form.priority, form.dueDate, form.description,
      form.assignedTo, "pending", createdAt)
  }

  /** `!cropForm.fieldId || !cropForm.cropType || !cropForm.assignedFarm`, negated. */
  predicate CropComplete(form: CropForm) {
    form.fieldId != "" && form.cropType != "" && form.assignedFarm != ""
  }

  /** `!taskForm.fieldId || !taskForm.title.trim()`, negated. */
  predicate TaskComplete(form: TaskForm) {
    form.fieldId != "" && !IsBlank(form.title)
  }

  // ---- Which records belong to a field ----

  /** The page's test `crop.fieldId === fieldId` against a numeric field id. */
  predicate BelongsAsWritten(ref: JsId, fieldId: int) {
    StrictEquals(ref, Num(fieldId))
  }

  /** The intended test: the reference names the field, whether as the number or as the text of the `<select>`. */
  predicate Belongs(ref: JsId, fieldId: int) {
    match ref
    case Num(n) => n == fieldId
    case Text(s) => s == IntToString(fieldId)
  }

  /** `getFieldCrops` as written. */
  function FieldCropsAsWritten(crops: seq<Crop>, fieldId: int): seq<Crop> {
    Seqs.Filter(crops, (c: Crop) => BelongsAsWritten(c.fieldId, fieldId))
  }

  /** `getFieldTasks` as written. */
  function FieldTasksAsWritten(tasks: seq<Task>, fieldId: int): seq<Task> {
    Seqs.Filter(tasks, (t: Task) => BelongsAsWritten(t.fieldId, fieldId))
  }

  /** The crops and tasks `handleFieldDelete` keeps, as written: those failing the strict test. */
  function KeptCropsAsWritten(crops: seq<Crop>, fieldId: int): seq<Crop> {
    Seqs.Filter(crops, (c: Crop) => !BelongsAsWritten(c.fieldId, fieldId))
  }

  function KeptTasksAsWritten(tasks: seq<Task>, fieldId: int): seq<Task> {
    Seqs.Filter(tasks, (t: Task) => !BelongsAsWritten(t.fieldId, fieldId))
  }

  /** Every record saved through a form carries a text field id. */
  predicate FromForms(crops: seq<Crop>, tasks: seq<Task>) {
    (forall i :: 0 <= i < |crops| ==> crops[i].fieldId.Text?) &&
    (forall i :: 0 <= i < |tasks| ==> tasks[i].fieldId.Text?)
  }

  /**
   * As written, no crop or task saved through the forms is ever listed under
   * its field, and deleting a field leaves all of them in place.
   */
  lemma AsWrittenNeverMatches(crops: seq<Crop>, tasks: seq<Task>, fieldId: int)
    requires FromForms(crops, tasks)
    ensures FieldCropsAsWritten(crops, fieldId) == [] && FieldTasksAsWritten(tasks, fieldId) == []
    ensures KeptCropsAsWritten(crops, fieldId) == crops && KeptTasksAsWritten(tasks, fieldId) == tasks
  {
    var none, keep := (c: Crop) => BelongsAsWritten(c.fieldId, fieldId), (c: Crop) => !BelongsAsWritten(c.fieldId, fieldId);
    var noneT, keepT := (t: Task) => BelongsAsWritten(t.fieldId, fieldId), (t: Task) => !BelongsAsWritten(t.fieldId, fieldId);
    Seqs.FilterAll(crops, keep);
    Seqs.FilterAll(tasks, keepT);
    var r := FieldCropsAsWritten(crops, fieldId);
    if r != [] {
      assert r[0] in crops by { Seqs.FilterMembers(crops, none, r[0]); }
    }
    var q := FieldTasksAsWritten(tasks, fieldId);
    if q != [] {
      assert q[0] in tasks by { Seqs.FilterMembers(tasks, noneT, q[0]); }
    }
  }

  /** The crops `Belongs` to a field: `getFieldCrops` as intended. */
  function FieldCrops(crops: seq<Crop>, fieldId: int): (r: seq<Crop>)
    ensures forall c :: c in r <==> c in crops && Belongs(c.fieldId, fieldId)
  {
    var p := (c: Crop) => Belongs(c.fieldId, fieldId);
    assert forall c :: c in Seqs.Filter(crops, p) <==> c in crops && p(c) by {
      forall c { Seqs.FilterMembers(crops, p, c); }
    }
    Seqs.Filter(crops, p)
  }

  /** `getFieldTasks` as intended. */
  function FieldTasks(tasks: seq<Task>, fieldId: int): (r: seq<Task>)
    ensures forall t :: t in r <==> t in tasks && Belongs(t.fieldId, fieldId)
  {
    var p := (t: Task) => Belongs(t.fieldId, fieldId);
    assert forall t :: t in Seqs.Filter(tasks, p) <==> t in tasks && p(t) by {
      forall t { Seqs.FilterMembers(tasks, p, t); }
    }
    Seqs.Filter(tasks, p)
  }

  /** The crops a field's deletion keeps, as intended: those that do not belong to it. */
  function KeptCrops(crops: seq<Crop>, fieldId: int): (r: seq<Crop>)
    ensures forall c :: c in r <==> c in crops && !Belongs(c.fieldId, fieldId)
    ensures Seqs.IsSubsequence(r, crops)
  {
    var p := (c: Crop) => !Belongs(c.fieldId, fieldId);
    assert forall c :: c in Seqs.Filter(crops, p) <==> c in crops && p(c) by {
      forall c { Seqs.FilterMembers(crops, p, c); }
    }
    Seqs.Filter(crops, p)
  }

  function KeptTasks(tasks: seq<Task>, fieldId: int): (r: seq<Task>)
    ensures forall t :: t in r <==> t in tasks && !Belongs(t.fieldId, fieldId)
    ensures Seqs.IsSubsequence(r, tasks)
  {
    var p := (t: Task) => !Belongs(t.fieldId, fieldId);
    assert forall t :: t in Seqs.Filter(tasks, p) <==> t in tasks && p(t) by {
      forall t { Seqs.FilterMembers(tasks, p, t); }
    }
    Seqs.Filter(tasks, p)
  }

  /** A printed integer starts with a minus sign exactly when it is negative. */
  lemma SignChar(n: int)
    ensures IntToString(n)[0] == '-' <==> n < 0
  {
    if n >= 0 {
      assert '0' <= NatToString(n)[0] <= '9';
    }
  }

  lemma NatToStringInjective(a: nat, b: nat)
    requires NatToString(a) == NatToString(b)
    ensures a == b
  {
    DigitsValueOfNatToString(a);
    DigitsValueOfNatToString(b);
  }

  /** Different integers print differently, so an option value names one field id. */
  lemma IntToStringInjective(a: int, b: int)
    requires IntToString(a) == IntToString(b)
    ensures a == b
  {
    SignChar(a);
    SignChar(b);
    if a >= 0 {
      NatToStringInjective(a, b);
    } else {
      var s := IntToString(a);
      assert s == "-" + NatToString(-a) && s == "-" + NatToString(-b);
      assert NatToString(-a) == s[1..] == NatToString(-b);
      NatToStringInjective(-a, -b);
    }
  }

  /** A record chosen for a field in the `<select>` belongs to that field and to no other. */
  lemma OptionBelongs(f: Field, fieldId: int)
    ensures Belongs(Text(OptionValue(f)), fieldId) <==> f.id == fieldId
  {
    if Belongs(Text(OptionValue(f)), fieldId) {
      IntToStringInjective(f.id, fieldId);
    }
  }

  /** With the intended test, a field's deletion leaves nothing listed under it. */
  lemma DeletedFieldHasNothing(crops: seq<Crop>, tasks: seq<Task>, fieldId: int)
    ensures FieldCrops(KeptCrops(crops, fieldId), fieldId) == []
    ensures FieldTasks(KeptTasks(tasks, fieldId), fieldId) == []
  {
  }

  /** The example the strict test misses: a crop planted on field 5 through the form, and field 5 deleted. */
  lemma StrictTestMissesFormCrop()
    ensures var c := NewCrop(7, CropForm("5", "Main Farm", "corn", "", "", "", ""), "");
      && KeptCropsAsWritten([c], 5) == [c]
      && FieldCropsAsWritten([c], 5) == []
      && KeptCrops([c], 5) == []
      && FieldCrops([c], 5) == [c]
  {
    var c := NewCrop(7, CropForm("5", "Main Farm", "corn", "", "", "", ""), "");
    assert IntToString(5) == "5";
    assert Belongs(c.fieldId, 5);
    assert [c][1..] == [];
  }

  /** Every stored field is larger than 20 pixels each way and has its type's colour. */
  predicate FieldsValid(fields: seq<Field>) {
    forall i :: 0 <= i < |fields| ==> Large(fields[i]) && Coloured(fields[i])
  }

  /** Every crop came from a complete form: its field id is non-empty text. */
  predicate CropsValid(crops: seq<Crop>) {
    forall i :: 0 <= i < |crops| ==> crops[i].fieldId.Text? && crops[i].fieldId.s != ""
  }

  /** Every task came from a complete form and is still pending. */
  predicate TasksValid(tasks: seq<Task>) {
    forall i :: 0 <= i < |tasks| ==> tasks[i].fieldId.Text? && tasks[i].status == "pending" && !IsBlank(tasks[i].title)
  }

  /** Deleting a field keeps each list valid. */
  lemma DeleteKeepsValid(fields: seq<Field>, crops: seq<Crop>, tasks: seq<Task>, fieldId: int)
    requires FieldsValid(fields) && CropsValid(crops) && TasksValid(tasks)
    ensures FieldsValid(Seqs.Filter(fields, (f: Field) => f.id != fieldId))
    ensures CropsValid(KeptCrops(crops, fieldId)) && TasksValid(KeptTasks(tasks, fieldId))
  {
    var kept := Seqs.Filter(fields, (f: Field) => f.id != fieldId);
    forall i | 0 <= i < |kept|
      ensures Large(kept[i]) && Coloured(kept[i])
    {
      Seqs.FilterMembers(fields, (f: Field) => f.id != fieldId, kept[i]);
    }
    var keptCrops := KeptCrops(crops, fieldId);
    forall i | 0 <= i < |keptCrops|
      ensures keptCrops[i].fieldId.Text? && keptCrops[i].fieldId.s != ""
    {
      assert keptCrops[i] in crops;
    }
    var keptTasks := KeptTasks(tasks, fieldId);
    forall i | 0 <= i < |keptTasks|
      ensures keptTasks[i].fieldId.Text? && keptTasks[i].status == "pending" && !IsBlank(keptTasks[i].title)
    {
      assert keptTasks[i] in tasks;
    }
  }

  /** The map page's state. */
  class FarmMapPage {
    var fields: seq<Field>
    var crops: seq<Crop>
    var tasks: seq<Task>
    var isDrawing: bool
    var currentField: Option<Field>
    var tool: Tool
    var selectedField: Option<Field>
    var showFieldModal: bool
    var showCropModal: bool
    var showTaskModal: bool
    var fieldForm: FieldForm
    var cropForm: CropForm
    var taskForm: TaskForm

    /**
     * What every handler keeps: a field is being drawn exactly while the
     * cursor is down, every stored field is larger than 20 pixels each way,
     * every field has its type's colour, and every crop and task came from a
     * complete form.
     */
    predicate Valid()
      reads this
    {
      && isDrawing == currentField.Some?
      && (currentField.Some? ==> Coloured(currentField.value))
      && FieldsValid(fields)
      && CropsValid(crops)
      && TasksValid(tasks)
    }

    constructor ()
      ensures Valid()
      ensures fields == [] && crops == [] && tasks == [] && !isDrawing && currentField.None?
      ensures tool == SelectTool && selectedField.None? && !showFieldModal && !showCropModal && !showTaskModal
      ensures fieldForm == BlankFieldForm && cropForm == BlankCropForm && taskForm == BlankTaskForm
    {
      fields, crops, tasks := [], [], [];
      isDrawing, currentField := false, None;
      tool, selectedField := SelectTool, None;
      showFieldModal, showCropModal, showTaskModal := false, false, false;
      fieldForm, cropForm, taskForm := BlankFieldForm, BlankCropForm, BlankTaskForm;
    }

    /** A tool button. */
    method ChooseTool(t: Tool)
      requires Valid()
      modifies this`tool
      ensures Valid() && tool == t
    {
      tool := t;
    }

    /** `handleStageMouseDown`: with the field tool, a press at the cursor starts a new field under `id`. */
    method MouseDown(id: int, px: real, py: real)
      requires Valid()
      modifies this`currentField, this`isDrawing
      ensures Valid()
      ensures tool != FieldTool ==> currentField == old(currentField) && isDrawing == old(isDrawing)
      ensures tool == FieldTool ==> currentField == Some(Started(id, px, py, |fields|)) && isDrawing
    {
      if tool == FieldTool {
        currentField := Some(Started(id, px, py, |fields|));
        isDrawing := true;
      }
    }

    /** `handleStageMouseMove`: while drawing, the field stretches to the cursor. */
    method MouseMove(px: real, py: real)
      requires Valid()
      modifies this`currentField
      ensures Valid()
      ensures !old(isDrawing) ==> currentField == old(currentField)
      ensures old(isDrawing) ==> currentField == Some(Stretched(old(currentField).value, px, py))
    {
      if !isDrawing || currentField.None? {
        return;
      }
      currentField := Some(Stretched(currentField.value, px, py));
    }

    /**
     * `handleStageMouseUp`: releasing ends the drawing and goes back to the
     * select tool; the field is kept only when it is large enough.
     */
    method MouseUp()
      requires Valid()
      modifies this`fields, this`currentField, this`isDrawing, this`tool
      ensures Valid()
      ensures !old(isDrawing) ==> fields == old(fields) && currentField == old(currentField) && tool == old(tool) && !isDrawing
      ensures old(isDrawing) ==> currentField.None? && !isDrawing && tool == SelectTool
      ensures old(isDrawing) ==>
        fields == old(fields) + (if Large(old(currentField).value) then [old(currentField).value] else [])
    {
      if isDrawing && currentField.Some? {
        if Large(currentField.value) {
          fields := fields + [currentField.value];
        }
        currentField := None;
        isDrawing := false;
        tool := SelectTool;
      }
    }

    /** `handleFieldClick`: with the select tool, the field is selected and its details go into the form. */
    method FieldClick(f: Field)
      requires Valid()
      modifies this`selectedField, this`fieldForm
      ensures Valid()
      ensures tool == SelectTool ==> selectedField == Some(f) && fieldForm == FormOf(f)
      ensures tool != SelectTool ==> selectedField == old(selectedField) && fieldForm == old(fieldForm)
    {
      if tool == SelectTool {
        selectedField := Some(f);
        fieldForm := FormOf(f);
      }
    }

    /**
     * `handleFieldSave`: a blank name is refused and changes nothing.
     * Otherwise every field with the selected id takes the form's details and
     * its type's colour, keeping its place and size; the modal closes and the
     * selection clears. With nothing selected the page reads the id of `null`
     * and throws as soon as there is a field to compare, changing nothing.
     */
    method FieldSave() returns (saved: bool)
      requires Valid()
      modifies this`fields, this`showFieldModal, this`selectedField
      ensures Valid()
      ensures saved <==> !IsBlank(old(fieldForm).name) && (old(selectedField).Some? || old(fields) == [])
      ensures !saved ==> fields == old(fields) && showFieldModal == old(showFieldModal) && selectedField == old(selectedField)
      ensures saved ==> !showFieldModal && selectedField.None? && |fields| == |old(fields)|
      ensures saved ==> forall i :: 0 <= i < |fields| ==>
        fields[i] == if old(fields)[i].id == old(selectedField).value.id then Edited(old(fields)[i], fieldForm) else old(fields)[i]
    {
      if IsBlank(fieldForm.name) {
        return false;
      }
      if selectedField.None? && fields != [] {
        return false;
      }
      if selectedField.Some? {
        var id := selectedField.value.id;
        var form := fieldForm;
        fields := Seqs.Map(fields, (f: Field) => if f.id == id then Edited(f, form) else f);
      }
      showFieldModal := false;
      selectedField := None;
      saved := true;
    }

    /**
     * `handleFieldDelete`, with the intended test (the page's strict test is
     * `KeptCropsAsWritten`): once confirmed, the fields with that id go, and
     * so do the crops and tasks that belong to it; the selection clears.
     */
    method FieldDelete(fieldId: int, confirmed: bool)
      requires Valid()
      modifies this`fields, this`crops, this`tasks, this`selectedField
      ensures Valid()
      ensures !confirmed ==> fields == old(fields) && crops == old(crops) && tasks == old(tasks) && selectedField == old(selectedField)
      ensures confirmed ==> fields == Seqs.Filter(old(fields), (f: Field) => f.id != fieldId)
      ensures confirmed ==> crops == KeptCrops(old(crops), fieldId) && tasks == KeptTasks(old(tasks), fieldId)
      ensures confirmed ==> selectedField.None?
    {
      if confirmed {
        DeleteKeepsValid(fields, crops, tasks, fieldId);
        fields := Seqs.Filter(fields, (f: Field) => f.id != fieldId);
        crops := KeptCrops(crops, fieldId);
        tasks := KeptTasks(tasks, fieldId);
        selectedField := None;
      }
    }

    /**
     * `handleCropSave` under the new crop's `id` and creation time: an
     * incomplete form is refused and changes nothing; otherwise the crop is
     * appended, the modal closes and the form is cleared.
     */
    method CropSave(id: int, createdAt: string) returns (saved: bool)
      requires Valid()
      modifies this`crops, this`showCropModal, this`cropForm
      ensures Valid()
      ensures saved <==> CropComplete(old(cropForm))
      ensures !saved ==> crops == old(crops) && showCropModal == old(showCropModal) && cropForm == old(cropForm)
      ensures saved ==> crops == old(crops) + [NewCrop(id, old(cropForm), createdAt)]
      ensures saved ==> !showCropModal && cropForm == BlankCropForm
    {
      if !CropComplete(cropForm) {
        return false;
      }
      crops := crops + [NewCrop(id, cropForm, createdAt)];
      showCropModal := false;
      cropForm := BlankCropForm;
      saved := true;
    }

    /**
     * `handleTaskSave`: a form without a field or with a blank title is
     * refused; otherwise a pending task is appended and the form is cleared.
     */
    method TaskSave(id: int, createdAt: string) returns (saved: bool)
      requires Valid()
      modifies this`tasks, this`showTaskModal, this`taskForm
      ensures Valid()
      ensures saved <==> TaskComplete(old(taskForm))
      ensures !saved ==> tasks == old(tasks) && showTaskModal == old(showTaskModal) && taskForm == old(taskForm)
      ensures saved ==> tasks == old(tasks) + [NewTask(id, old(taskForm), createdAt)]
      ensures saved ==> !showTaskModal && taskForm == BlankTaskForm
    {
      if !TaskComplete(taskForm) {
        return false;
      }
      tasks := tasks + [NewTask(id, taskForm, createdAt)];
      showTaskModal := false;
      taskForm := BlankTaskForm;
      saved := true;
    }
  }

  /** A crop saved for a field chosen in the `<select>` is listed under that field, with the intended test. */
  lemma SavedCropListed(crops: seq<Crop>, f: Field, id: int, form: CropForm, createdAt: string)
    requires form.fieldId == OptionValue(f)
    ensures NewCrop(id, form, createdAt) in FieldCrops(crops + [NewCrop(id, form, createdAt)], f.id)
  {
    OptionBelongs(f, f.id);
  }
}
