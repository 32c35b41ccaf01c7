/**
 * The export dialog (src/components/DataExport.jsx): the export settings, the
 * per-type row formatters, the date-range filter, the CSV text, the Excel
 * sheets with their column widths and the combined sheet. Records are plain
 * JavaScript objects, so they are maps from field names to values; a
 * formatted row keeps its keys in insertion order, so it is a list of
 * (header, value) pairs.
 */
module DataExport {
  import opened Wrappers
  import opened Strings
  import Seqs

  /**
   * A field value. A number carries the text `String(n)` gives for it, which
   * is what a CSV cell or a column width sees.
   */
  datatype JsValue = Str(s: string) | Num(n: real, shown: string) | Bool(b: bool) | Undefined

  /** What a condition or `||` treats as true. */
  predicate Truthy(v: JsValue) {
    match v
    case Str(s) => s != ""
    case Num(n, _) => n != 0.0
    case Bool(b) => b
    case Undefined => false
  }

  /** `v || fallback`. */
  function Or(v: JsValue, fallback: JsValue): (r: JsValue)
    ensures Truthy(v) ==> r == v
    ensures !Truthy(v) ==> r == fallback
  {
    if Truthy(v) then v else fallback
  }

  /** `String(v)` for the values that reach a cell. */
  function Text(v: JsValue): string {
    match v
    case Str(s) => s
    case Num(_, shown) => shown
    case Bool(b) => if b then "true" else "false"
    case Undefined => "undefined"
  }

  type Record = map<string, JsValue>

  /** `item[field]`: a missing field reads as `undefined`. */
  function Get(r: Record, field: string): JsValue {
    if field in r then r[field] else Undefined
  }

  type Row = seq<(string, JsValue)>

  function HeaderOf(entry: (string, JsValue)): string {
    entry.0
  }

  /** `Object.keys(row)`. */
  function Headers(row: Row): (h: seq<string>)
    ensures |h| == |row|
    ensures forall i :: 0 <= i < |row| ==> h[i] == row[i].0
  {
    Seqs.Map(row, HeaderOf)
  }

  /** `row[header]`: the value stored under the first matching header, or `undefined`. */
  function Lookup(row: Row, header: string): (v: JsValue)
    ensures (forall i :: 0 <= i < |row| ==> row[i].0 != header) ==> v == Undefined
  {
    if row == [] then Undefined
    else if row[0].0 == header then row[0].1
    else Lookup(row[1..], header)
  }

  /** The value under the first entry with that header is what `row[header]` reads. */
  lemma {:induction false} LookupFirst(row: Row, header: string, i: int)
    requires 0 <= i < |row| && row[i].0 == header
    requires forall j :: 0 <= j < i ==> row[j].0 != header
    ensures Lookup(row, header) == row[i].1
  {
    if i > 0 {
      LookupFirst(row[1..], header, i - 1);
    }
  }

  /** `{ ...row, [header]: v }`: an existing header keeps its place and takes the new value; a new one goes last. */
  function Set(row: Row, header: string, v: JsValue): (r: Row)
    ensures Lookup(r, header) == v
  {
    if row == [] then [(header, v)]
    else if row[0].0 == header then [(header, v)] + row[1..]
    else [row[0]] + Set(row[1..], header, v)
  }

  /** Setting one header leaves what every other header reads unchanged. */
  lemma {:induction false} SetKeepsOthers(row: Row, header: string, v: JsValue, other: string)
    requires other != header
    ensures Lookup(Set(row, header, v), other) == Lookup(row, other)
  {
    if row != [] && row[0].0 != header {
      SetKeepsOthers(row[1..], header, v, other);
    }
  }

  /** Setting a header the row has keeps the headers; a new one is added last. */
  lemma {:induction false} SetHeaders(row: Row, header: string, v: JsValue)
    ensures Headers(Set(row, header, v)) == if header in Headers(row) then Headers(row) else Headers(row) + [header]
  {
    if row != [] {
      assert Headers(row) == [row[0].0] + Headers(row[1..]);
      if row[0].0 != header {
        SetHeaders(row[1..], header, v);
        assert Set(row, header, v) == [row[0]] + Set(row[1..], header, v);
        assert Headers([row[0]] + Set(row[1..], header, v)) == [row[0].0] + Headers(Set(row[1..], header, v));
      }
    }
  }

  // ----- the formatters -----

  /**
   * One column of a formatted row: the record's field as it is, the field or
   * a fallback text when it is falsy, or one of two texts by the field's
   * truthiness.
   */
  datatype Column =
    | Copied(header: string, field: string)
    | Defaulted(header: string, field: string, fallback: string)
    | Flag(header: string, field: string, yes: string, no: string)

  function ColumnHeader(col: Column): string {
    col.header
  }

  /** The value a column takes from a record. */
  function Cell(col: Column, r: Record): JsValue {
    match col
    case Copied(_, field) => Get(r, field)
    case Defaulted(_, field, fallback) => Or(Get(r, field), Str(fallback))
    case Flag(_, field, yes, no) => Str(if Truthy(Get(r, field)) then yes else no)
  }

  /** `formatCropData`'s columns. */
  const CropColumns: seq<Column> := [
    Copied("Crop Name", "name"),
    Copied("Variety", "variety"),
    Copied("Planting Date", "plantingDate"),
    Copied("Status", "status"),
    Copied("Area (acres)", "area"),
    Defaulted("Expected Harvest", "expectedHarvest", "Not set"),
    Defaulted("Harvest Date", "harvestDate", "Not harvested"),
    Defaulted("Yield (lbs)", "yield", "Not recorded")]

  /** `formatTaskData`'s columns. */
  const TaskColumns: seq<Column> := [
    Copied("Task Title", "title"),
    Copied("Due Date", "dueDate"),
    Copied("Priority", "priority"),
    Flag("Status", "completed", "Completed", "Pending"),
    Defaulted("Completion Date", "completionDate", "Not completed"),
    Defaulted("Description", "description", ""),
    Defaulted("Location", "location", "General"),
    Defaulted("Assigned To", "assignedTo", "Unassigned")]

  /** `formatExpenseData`'s columns. */
  const ExpenseColumns: seq<Column> := [
    Copied("Description", "description"),
    Copied("Amount", "amount"),
    Copied("Category", "category"),
    Copied("Date", "date"),
    Defaulted("Payment Method", "paymentMethod", "Not specified"),
    Defaulted("Vendor", "vendor", "Not specified"),
    Defaulted("Receipt Number", "receiptNumber", "Not recorded")]

  /** The object literal a formatter builds for one record. */
  function Format(columns: seq<Column>, r: Record): (row: Row)
    ensures |row| == |columns|
    ensures forall i :: 0 <= i < |columns| ==> row[i] == (columns[i].header, Cell(columns[i], r))
  {
    if columns == [] then [] else [(columns[0].header, Cell(columns[0], r))] + Format(columns[1..], r)
  }

  function FormatWith(columns: seq<Column>): Record -> Row {
    (r: Record) => Format(columns, r)
  }

  /** `data.map(record => ({ … }))`. */
  function FormatAll(columns: seq<Column>, data: seq<Record>): (rows: seq<Row>)
    ensures |rows| == |data|
    ensures forall i :: 0 <= i < |data| ==> rows[i] == Format(columns, data[i])
  {
    Seqs.Map(data, FormatWith(columns))
  }

  /** Reading a formatted row under a column's header gives that column's value when no earlier column has the header. */
  lemma LookupFormat(columns: seq<Column>, r: Record, i: int)
    requires 0 <= i < |columns|
    requires forall j :: 0 <= j < i ==> columns[j].header != columns[i].header
    ensures Lookup(Format(columns, r), columns[i].header) == Cell(columns[i], r)
  {
    LookupFirst(Format(columns, r), columns[i].header, i);
  }

  /** A task's Status cell is 'Completed' exactly when its `completed` flag is set, 'Pending' otherwise. */
  lemma TaskStatus(task: Record)
    ensures Lookup(Format(TaskColumns, task), "Status") == Str(if Truthy(Get(task, "completed")) then "Completed" else "Pending")
  {
    LookupFormat(TaskColumns, task, 3);
  }

  /** An empty or missing expected harvest shows as 'Not set', and a set one as itself. */
  lemma CropExpectedHarvest(crop: Record)
    ensures var v := Lookup(Format(CropColumns, crop), "Expected Harvest");
      (Truthy(Get(crop, "expectedHarvest")) ==> v == Get(crop, "expectedHarvest")) &&
      (!Truthy(Get(crop, "expectedHarvest")) ==> v == Str("Not set"))
  {
    LookupFormat(CropColumns, crop, 5);
  }

  /** A defaulted column with a non-empty fallback never yields a blank cell. */
  lemma {:induction false} DefaultedNeverBlank(col: Column, r: Record)
    requires col.Defaulted? && col.fallback != ""
    ensures Truthy(Cell(col, r))
  {
  }

  // ----- the export settings -----

  /** A setting: a plain value, or a group such as `dataTypes` or `dateRange`. */
  datatype Setting = Leaf(v: JsValue) | Group(fields: map<string, JsValue>)

  type Config = map<string, Setting>

  /** The settings the dialog opens with. */
  const InitialConfig: Config := map[
    "dataTypes" := Group(map["crops" := Bool(true), "tasks" := Bool(true), "expenses" := Bool(true)]),
    "format" := Leaf(Str("excel")),
    "dateRange" := Group(map["start" := Str(""), "end" := Str("")]),
    "includeHeaders" := Leaf(Bool(true)),
    "separateSheets" := Leaf(Bool(true))]

  /** `config[key]` in a condition: a group is an object, so it is truthy. */
  predicate On(config: Config, key: string) {
    key in config && (config[key].Group? || Truthy(config[key].v))
  }

  /** The fields of `config[parent]` as `...prev[parent]` spreads them: none unless it is a group. */
  function Fields(config: Config, parent: string): map<string, JsValue> {
    if parent in config && config[parent].Group? then config[parent].fields else map[]
  }

  /** `config[parent][child]`. */
  function Child(config: Config, parent: string, child: string): JsValue {
    Get(Fields(config, parent), child)
  }

  /** `config.format === 'excel'`. */
  predicate IsExcel(config: Config) {
    "format" in config && config["format"] == Leaf(Str("excel"))
  }

  /**
   * `handleConfigChange`'s update: a dotted field `parent.child` sets one
   * field of the parent group (a parent that is not a group is replaced by a
   * group holding only that field); any other field is set outright.
   * Nothing else changes.
   */
  function Changed(config: Config, field: string, value: JsValue): (r: Config)
    ensures '.' in field ==>
      var parts := SplitOn(field, '.');
      && (forall k :: k != parts[0] ==> (k in r <==> k in config) && (k in config ==> r[k] == config[k]))
      && parts[0] in r && r[parts[0]].Group?
      && Child(r, parts[0], parts[1]) == value
      && (forall k :: k != parts[1] ==> Child(r, parts[0], k) == Child(config, parts[0], k))
    ensures '.' !in field ==>
      && (forall k :: k != field ==> (k in r <==> k in config) && (k in config ==> r[k] == config[k]))
      && field in r && r[field] == Leaf(value)
  {
    if '.' in field then
      var parts := SplitOn(field, '.');
      config[parts[0] := Group(Fields(config, parts[0])[parts[1] := value])]
    else
      config[field := Leaf(value)]
  }

  /** A dotted field is the parent name, a dot, and the child name, when neither name holds a dot. */
  lemma DottedField(parent: string, child: string, config: Config, value: JsValue)
    requires '.' !in parent && '.' !in child
    ensures Child(Changed(config, parent + "." + child, value), parent, child) == value
  {
    JoinSplit([parent, child], '.');
    assert Join([parent, child], ".") == parent + "." + child;
  }

  // ----- the date-range filter -----

  /** `a < b` on two `Date`s, where an invalid date compares false. */
  predicate Before(a: Option<int>, b: Option<int>) {
    a.Some? && b.Some? && a.value < b.value
  }

  /**
   * Whether an item survives the range: a set bound drops an item dated
   * before the start or after the end; an unparsable date is never dropped.
   * `instant` is `new Date(…)` on a field value, `None` for an invalid date.
   */
  predicate InRange(item: Record, field: string, start: JsValue, end: JsValue, instant: JsValue -> Option<int>) {
    var d := instant(Get(item, field));
    && !(Truthy(start) && Before(d, instant(start)))
    && !(Truthy(end) && Before(instant(end), d))
  }

  function InRangeOf(field: string, start: JsValue, end: JsValue, instant: JsValue -> Option<int>): Record -> bool {
    (item: Record) => InRange(item, field, start, end, instant)
  }

  /** `filterDataByDateRange`: the items in range, in their order; with no bounds the list itself. */
  function FilterByDate(data: seq<Record>, field: string, start: JsValue, end: JsValue, instant: JsValue -> Option<int>): (r: seq<Record>)
    ensures !Truthy(start) && !Truthy(end) ==> r == data
    ensures Seqs.IsSubsequence(r, data)
    ensures forall x :: x in r <==> x in data && InRange(x, field, start, end, instant)
  {
    if !Truthy(start) && !Truthy(end) then
      Seqs.SubsequenceRefl(data);
      data
    else
      var kept := Seqs.Filter(data, InRangeOf(field, start, end, instant));
      assert forall x :: x in kept <==> x in data && InRange(x, field, start, end, instant) by {
        forall x
          ensures x in kept <==> x in data && InRange(x, field, start, end, instant)
        {
          Seqs.FilterMembers(data, InRangeOf(field, start, end, instant), x);
        }
      }
      kept
  }

  // ----- CSV -----

  /** `row[header] || ''` as text. */
  function CellText(row: Row, header: string): string {
    Text(Or(Lookup(row, header), Str("")))
  }

  function Quote(s: string): string {
    "\"" + s + "\""
  }

  /** Quoting adds no character but the double quote. */
  lemma QuoteAddsOnlyQuotes(s: string, c: char)
    requires c != '"' && c !in s
    ensures c !in Quote(s)
  {
    forall k | 0 <= k < |Quote(s)|
      ensures Quote(s)[k] != c
    {
      if 0 < k < |s| + 1 {
        assert Quote(s)[k] == s[k - 1];
      }
    }
  }

  function QuotedCell(row: Row): string -> string {
    (h: string) => Quote(CellText(row, h))
  }

  /** One data line: each header's cell in double quotes, joined by commas. */
  function DataLine(headers: seq<string>, row: Row): string {
    Join(Seqs.Map(headers, QuotedCell(row)), ",")
  }

  function DataLineOf(headers: seq<string>): Row -> string {
    (row: Row) => DataLine(headers, row)
  }

  function NonEmpty(s: string): bool {
    s != ""
  }

  /** The lines before `.filter(Boolean)`: the header line (or '' without headers) and one line per row. */
  function CsvLines(data: seq<Row>, includeHeaders: bool): seq<string>
    requires data != []
  {
    var headers := Headers(data[0]);
    Seqs.Filter([if includeHeaders then Join(headers, ",") else ""] + Seqs.Map(data, DataLineOf(headers)), NonEmpty)
  }

  /** `exportToCSV`'s text; `None` is the 'No data available' warning and no download. */
  function Csv(data: seq<Row>, includeHeaders: bool): (r: Option<string>)
    ensures r.None? <==> data == []
  {
    if data == [] then None else Some(Join(CsvLines(data, includeHeaders), "\n"))
  }

  /** A data line is never empty once there is a header: it starts with a quote. */
  lemma DataLineNotEmpty(headers: seq<string>, row: Row)
    requires headers != []
    ensures DataLine(headers, row) != ""
  {
    var parts := Seqs.Map(headers, QuotedCell(row));
    assert |parts[0]| >= 2;
  }

  /**
   * With at least one column, the file is the header line (when headers are
   * on and the line is not empty) followed by exactly one line per row, in
   * order: the `.filter(Boolean)` drops only the empty header placeholder.
   */
  lemma CsvLayout(data: seq<Row>, includeHeaders: bool)
    requires data != [] && Headers(data[0]) != []
    ensures var headers := Headers(data[0]);
      var headerLine := Join(headers, ",");
      CsvLines(data, includeHeaders) ==
        (if includeHeaders && headerLine != "" then [headerLine] else []) + Seqs.Map(data, DataLineOf(headers))
  {
    var headers := Headers(data[0]);
    var lines := Seqs.Map(data, DataLineOf(headers));
    forall i | 0 <= i < |lines|
      ensures NonEmpty(lines[i])
    {
      DataLineNotEmpty(headers, data[i]);
    }
    Seqs.FilterAll(lines, NonEmpty);
    Seqs.FilterCons(if includeHeaders then Join(headers, ",") else "", lines, NonEmpty);
  }

  /**
   * Splitting a data line at its commas gives back one quoted cell per
   * header, in header order, when no cell text holds a comma (no escaping is
   * done, so a comma inside a value splits it).
   */
  lemma DataLineFields(headers: seq<string>, row: Row)
    requires headers != []
    requires forall i :: 0 <= i < |headers| ==> ',' !in CellText(row, headers[i])
    ensures SplitOn(DataLine(headers, row), ',') == Seqs.Map(headers, QuotedCell(row))
  {
    var parts := Seqs.Map(headers, QuotedCell(row));
    forall i | 0 <= i < |parts|
      ensures ',' !in parts[i]
    {
      QuoteAddsOnlyQuotes(CellText(row, headers[i]), ',');
    }
    JoinSplit(parts, ',');
  }

  /** The header line splits back into the headers when none holds a comma. */
  lemma HeaderLineFields(headers: seq<string>)
    requires headers != []
    requires forall i :: 0 <= i < |headers| ==> ',' !in headers[i]
    ensures SplitOn(Join(headers, ","), ',') == headers
  {
    JoinSplit(headers, ',');
  }

  // ----- Excel -----

  function CellWidth(row: Row, key: string): nat {
    |CellText(row, key)|
  }

  /** `Math.max(key.length, ...data.map(row => String(row[key] || '').length))`. */
  function Width(key: string, data: seq<Row>): (w: nat)
    ensures w >= |key|
    ensures forall i :: 0 <= i < |data| ==> w >= CellWidth(data[i], key)
    ensures w == |key| || exists i :: 0 <= i < |data| && w == CellWidth(data[i], key)
  {
    if data == [] then |key|
    else
      var rest := Width(key, data[1..]);
      assert forall i :: 1 <= i < |data| ==> data[i] == data[1..][i - 1];
      if CellWidth(data[0], key) > rest then CellWidth(data[0], key) else rest
  }

  function WidthIn(data: seq<Row>): string -> nat {
    (key: string) => Width(key, data)
  }

  /** The `!cols` widths: one per header of the first row. */
  function ColumnWidths(data: seq<Row>): (widths: seq<nat>)
    requires data != []
    ensures |widths| == |data[0]|
    ensures forall j :: 0 <= j < |widths| ==> widths[j] == Width(data[0][j].0, data)
  {
    Seqs.Map(Headers(data[0]), WidthIn(data))
  }

  /** A sheet as `book_append_sheet` adds it: its name, its rows and its column widths. */
  datatype Sheet = Sheet(name: string, rows: seq<Row>, widths: seq<nat>)

  /** A `{ data, sheetName, filename }` entry of the selected data. */
  datatype Dataset = Dataset(data: seq<Row>, sheetName: string, filename: string)

  function HasRows(d: Dataset): bool {
    d.data != []
  }

  function SheetOf(d: Dataset): Sheet {
    Sheet(d.sheetName, d.data, if d.data == [] then [] else ColumnWidths(d.data))
  }

  /** What one press of Export produces. */
  datatype Outcome =
    | NoTypeSelected                 // 'Please select at least one data type to export'
    | NoData                         // 'No data to export': no workbook is written
    | Workbook(sheets: seq<Sheet>)
    | CsvFiles(files: seq<(string, Option<string>)>)

  /** `exportToExcel`: a sheet for each dataset with rows, in order; none at all is the 'No data' error. */
  function ExportToExcel(sets: seq<Dataset>): (out: Outcome)
    ensures out.NoData? || out.Workbook?
    ensures out.NoData? <==> forall i :: 0 <= i < |sets| ==> sets[i].data == []
    ensures out.Workbook? ==> out.sheets == Seqs.Map(Seqs.Filter(sets, HasRows), SheetOf)
    ensures out.Workbook? ==> forall i :: 0 <= i < |out.sheets| ==>
      out.sheets[i].rows != [] && |out.sheets[i].widths| == |out.sheets[i].rows[0]|
  {
    var kept := Seqs.Filter(sets, HasRows);
    Seqs.CountIsFilterLength(sets, HasRows);
    if kept == [] then
      assert forall i :: 0 <= i < |sets| ==> sets[i].data == [] by {
        forall i | 0 <= i < |sets|
          ensures sets[i].data == []
        {
          Seqs.FilterMembers(sets, HasRows, sets[i]);
        }
      }
      NoData
    else
      Workbook(Seqs.Map(kept, SheetOf))
  }

  // ----- the combined sheet -----

  /** `{ ...row, 'Data Type': name }`. */
  function Tagged(row: Row, name: string): Row {
    Set(row, "Data Type", Str(name))
  }

  /** `data.map(row => ({ ...row, 'Data Type': name }))`. */
  function TagRows(rows: seq<Row>, name: string): (r: seq<Row>)
    ensures |r| == |rows|
  {
    if rows == [] then [] else [Tagged(rows[0], name)] + TagRows(rows[1..], name)
  }

  lemma {:induction false} TagRowsAt(rows: seq<Row>, name: string, j: int)
    requires 0 <= j < |rows|
    ensures TagRows(rows, name)[j] == Tagged(rows[j], name)
  {
    if j > 0 {
      TagRowsAt(rows[1..], name, j - 1);
    }
  }

  /** `selectedData.reduce((acc, …) => acc.concat(tagged rows), [])`. */
  function Combined(sets: seq<Dataset>): seq<Row>
    decreases |sets|
  {
    if sets == [] then []
    else
      var last := sets[|sets| - 1];
      Combined(sets[..|sets| - 1]) + TagRows(last.data, last.sheetName)
  }

  /** The number of rows in all the datasets together. */
  function Rows(sets: seq<Dataset>): nat
    decreases |sets|
  {
    if sets == [] then 0 else Rows(sets[..|sets| - 1]) + |sets[|sets| - 1].data|
  }

  /** Where dataset `i`'s rows start in the combined sheet: the rows of the datasets before it. */
  function Offset(sets: seq<Dataset>, i: int): nat
    requires 0 <= i <= |sets|
  {
    Rows(sets[..i])
  }

  /** Dropping the last dataset does not move the ones before it. */
  lemma OffsetPrefix(sets: seq<Dataset>, i: int)
    requires 0 <= i < |sets|
    ensures Offset(sets, i) == Offset(sets[..|sets| - 1], i)
  {
    assert sets[..i] == sets[..|sets| - 1][..i];
  }

  /** The combined sheet has one row per selected row. */
  lemma {:induction false} CombinedSize(sets: seq<Dataset>)
    ensures |Combined(sets)| == Offset(sets, |sets|)
    decreases |sets|
  {
    assert sets[..|sets|] == sets;
    if sets != [] {
      CombinedSize(sets[..|sets| - 1]);
      assert sets[..|sets| - 1][..|sets| - 1] == sets[..|sets| - 1];
    }
  }

  /** Row `j` of dataset `i` sits at the dataset's offset plus `j`, tagged with its sheet name. */
  lemma {:induction false} CombinedAt(sets: seq<Dataset>, i: int, j: int)
    requires 0 <= i < |sets| && 0 <= j < |sets[i].data|
    ensures Offset(sets, i) + j < |Combined(sets)|
    ensures Combined(sets)[Offset(sets, i) + j] == Tagged(sets[i].data[j], sets[i].sheetName)
    decreases |sets|
  {
    var n := |sets| - 1;
    var init := sets[..n];
    CombinedSize(init);
    assert init[..n] == init;
    if i < n {
      CombinedAt(init, i, j);
      OffsetPrefix(sets, i);
    } else {
      assert sets[..n] == init;
      TagRowsAt(sets[n].data, sets[n].sheetName, j);
    }
  }

  /**
   * The combined sheet holds every selected row exactly once, dataset after
   * dataset in their order, each row tagged with its dataset's sheet name
   * under 'Data Type' and otherwise unchanged.
   */
  lemma CombinedLayout(sets: seq<Dataset>)
    ensures |Combined(sets)| == Offset(sets, |sets|)
    ensures forall i :: 0 <= i < |sets| ==>
      && Offset(sets, i) + |sets[i].data| <= |Combined(sets)|
      && Combined(sets)[Offset(sets, i)..Offset(sets, i) + |sets[i].data|] == TagRows(sets[i].data, sets[i].sheetName)
  {
    CombinedSize(sets);
    forall i | 0 <= i < |sets|
      ensures Offset(sets, i) + |sets[i].data| <= |Combined(sets)|
      ensures Combined(sets)[Offset(sets, i)..Offset(sets, i) + |sets[i].data|] == TagRows(sets[i].data, sets[i].sheetName)
    {
      CombinedSlice(sets, i);
    }
  }

  lemma CombinedSlice(sets: seq<Dataset>, i: int)
    requires 0 <= i < |sets|
    ensures Offset(sets, i) + |sets[i].data| <= |Combined(sets)|
    ensures Combined(sets)[Offset(sets, i)..Offset(sets, i) + |sets[i].data|] == TagRows(sets[i].data, sets[i].sheetName)
  {
    var d := sets[i];
    var o := Offset(sets, i);
    var c := Combined(sets);
    CombinedSliceBound(sets, i);
    var slice := c[o..o + |d.data|];
    var tagged := TagRows(d.data, d.sheetName);
    forall j | 0 <= j < |d.data|
      ensures slice[j] == tagged[j]
    {
      CombinedAt(sets, i, j);
      TagRowsAt(d.data, d.sheetName, j);
    }
  }

  lemma CombinedSliceBound(sets: seq<Dataset>, i: int)
    requires 0 <= i < |sets|
    ensures Offset(sets, i) + |sets[i].data| <= |Combined(sets)|
  {
    if sets[i].data != [] {
      CombinedAt(sets, i, |sets[i].data| - 1);
    } else {
      CombinedSize(sets);
      OffsetBound(sets, i);
    }
  }

  /** An offset never passes the total. */
  lemma {:induction false} OffsetBound(sets: seq<Dataset>, i: int)
    requires 0 <= i <= |sets|
    ensures Offset(sets, i) <= Offset(sets, |sets|)
    decreases |sets|
  {
    assert sets[..|sets|] == sets;
    if i < |sets| {
      var init := sets[..|sets| - 1];
      OffsetBound(init, i);
      assert init[..|init|] == init;
      assert init[..i] == sets[..i];
    }
  }

  /** Every row of the combined sheet carries its dataset's name under 'Data Type'. */
  lemma CombinedTags(sets: seq<Dataset>, i: int, j: int)
    requires 0 <= i < |sets| && 0 <= j < |sets[i].data|
    ensures Offset(sets, i) + j < |Combined(sets)|
    ensures Lookup(Combined(sets)[Offset(sets, i) + j], "Data Type") == Str(sets[i].sheetName)
  {
    CombinedAt(sets, i, j);
  }

  // ----- handleExport -----

  function Start(config: Config): JsValue {
    Child(config, "dateRange", "start")
  }

  function End(config: Config): JsValue {
    Child(config, "dateRange", "end")
  }

  /** Whether `config.dataTypes[kind]` is ticked. */
  predicate Ticked(config: Config, kind: string) {
    Truthy(Child(config, "dataTypes", kind))
  }

  /** The crops planted inside the date range, formatted. */
  function CropSet(config: Config, crops: seq<Record>, instant: JsValue -> Option<int>): Dataset {
    Dataset(FormatAll(CropColumns, FilterByDate(crops, "plantingDate", Start(config), End(config), instant)), "Crops", "crops")
  }

  /** The tasks due inside the date range, formatted. */
  function TaskSet(config: Config, tasks: seq<Record>, instant: JsValue -> Option<int>): Dataset {
    Dataset(FormatAll(TaskColumns, FilterByDate(tasks, "dueDate", Start(config), End(config), instant)), "Tasks", "tasks")
  }

  /** The expenses dated inside the date range, formatted. */
  function ExpenseSet(config: Config, expenses: seq<Record>, instant: JsValue -> Option<int>): Dataset {
    Dataset(FormatAll(ExpenseColumns, FilterByDate(expenses, "date", Start(config), End(config), instant)), "Expenses", "expenses")
  }

  function Pick(on: bool, d: Dataset): seq<Dataset> {
    if on then [d] else []
  }

  /** The datasets a press of Export collects, in the order crops, tasks, expenses. */
  function Selected(config: Config, crops: seq<Record>, tasks: seq<Record>, expenses: seq<Record>,
                    instant: JsValue -> Option<int>): (sel: seq<Dataset>)
    ensures sel == [] <==> !Ticked(config, "crops") && !Ticked(config, "tasks") && !Ticked(config, "expenses")
    ensures |sel| == (if Ticked(config, "crops") then 1 else 0) + (if Ticked(config, "tasks") then 1 else 0) +
      (if Ticked(config, "expenses") then 1 else 0)
  {
    Pick(Ticked(config, "crops"), CropSet(config, crops, instant)) +
    Pick(Ticked(config, "tasks"), TaskSet(config, tasks, instant)) +
    Pick(Ticked(config, "expenses"), ExpenseSet(config, expenses, instant))
  }

  /** The dialog opens with every type ticked, no date range, Excel, headers and separate sheets. */
  lemma InitialSettings()
    ensures Ticked(InitialConfig, "crops") && Ticked(InitialConfig, "tasks") && Ticked(InitialConfig, "expenses")
    ensures !Truthy(Start(InitialConfig)) && !Truthy(End(InitialConfig))
    ensures IsExcel(InitialConfig) && On(InitialConfig, "includeHeaders") && On(InitialConfig, "separateSheets")
  {
    var types := InitialConfig["dataTypes"].fields;
    assert types["crops"] == Bool(true) && types["tasks"] == Bool(true) && types["expenses"] == Bool(true);
    var range := InitialConfig["dateRange"].fields;
    assert range["start"] == Str("") && range["end"] == Str("");
  }

  /**
   * With the settings the dialog opens with, every type is exported in full:
   * three datasets, crops, tasks and expenses, each holding one formatted row
   * per record.
   */
  lemma InitialSelection(crops: seq<Record>, tasks: seq<Record>, expenses: seq<Record>, instant: JsValue -> Option<int>)
    ensures var sel := Selected(InitialConfig, crops, tasks, expenses, instant);
      && |sel| == 3
      && sel[0].sheetName == "Crops" && sel[0].data == FormatAll(CropColumns, crops)
      && sel[1].sheetName == "Tasks" && sel[1].data == FormatAll(TaskColumns, tasks)
      && sel[2].sheetName == "Expenses" && sel[2].data == FormatAll(ExpenseColumns, expenses)
  {
    InitialSettings();
    FullSelection(InitialConfig, crops, tasks, expenses, instant);
  }

  /** Every type ticked and no date bounds: every record of each type, formatted. */
  lemma FullSelection(config: Config, crops: seq<Record>, tasks: seq<Record>, expenses: seq<Record>,
                      instant: JsValue -> Option<int>)
    requires Ticked(config, "crops") && Ticked(config, "tasks") && Ticked(config, "expenses")
    requires !Truthy(Start(config)) && !Truthy(End(config))
    ensures Selected(config, crops, tasks, expenses, instant) ==
      [Dataset(FormatAll(CropColumns, crops), "Crops", "crops"), Dataset(FormatAll(TaskColumns, tasks), "Tasks", "tasks"),
       Dataset(FormatAll(ExpenseColumns, expenses), "Expenses", "expenses")]
  {
  }

  function CsvOf(includeHeaders: bool): Dataset -> (string, Option<string>) {
    (d: Dataset) => (d.filename, Csv(d.data, includeHeaders))
  }

  /**
   * What the selected datasets become: nothing selected is an error; Excel
   * writes one sheet per dataset or a single 'Farm Data' sheet of the
   * combined rows; CSV gives one file per dataset, an empty one a warning.
   */
  function Deliver(config: Config, sel: seq<Dataset>): (out: Outcome)
    ensures out.NoTypeSelected? <==> sel == []
    ensures sel != [] && !IsExcel(config) ==>
      out.CsvFiles? && |out.files| == |sel| &&
      forall i :: 0 <= i < |sel| ==>
        && out.files[i].0 == sel[i].filename
        && out.files[i].1 == Csv(sel[i].data, On(config, "includeHeaders"))
        && (out.files[i].1.None? <==> sel[i].data == [])
    ensures sel != [] && IsExcel(config) && On(config, "separateSheets") ==> out == ExportToExcel(sel)
    ensures sel != [] && IsExcel(config) && !On(config, "separateSheets") ==>
      out == ExportToExcel([Dataset(Combined(sel), "Farm Data", "")])
  {
    if sel == [] then NoTypeSelected
    else if IsExcel(config) then
      if On(config, "separateSheets") then ExportToExcel(sel)
      else ExportToExcel([Dataset(Combined(sel), "Farm Data", "")])
    else CsvFiles(Seqs.Map(sel, CsvOf(On(config, "includeHeaders"))))
  }

  /**
   * A single combined sheet exists exactly when some selected dataset has a
   * row, and it holds all of their rows.
   */
  lemma CombinedSheet(config: Config, sel: seq<Dataset>)
    requires sel != [] && IsExcel(config) && !On(config, "separateSheets")
    ensures var out := Deliver(config, sel);
      (out.NoData? <==> Offset(sel, |sel|) == 0) &&
      (out.Workbook? ==> |out.sheets| == 1 && out.sheets[0].name == "Farm Data" && |out.sheets[0].rows| == Offset(sel, |sel|))
  {
    CombinedLayout(sel);
    var d := Dataset(Combined(sel), "Farm Data", "");
    assert Seqs.Filter([d], HasRows) == (if d.data != [] then [d] else []) by {
      assert [d][1..] == [];
    }
  }

  /** The dialog's settings. */
  class ExportDialog {
    var config: Config

    constructor ()
      ensures config == InitialConfig
    {
      config := InitialConfig;
    }

    /** `handleConfigChange(field, value)`. */
    method ConfigChange(field: string, value: JsValue)
      modifies this
      ensures config == Changed(old(config), field, value)
    {
      if '.' in field {
        var parts := SplitOn(field, '.');
        var parent, child := parts[0], parts[1];
        config := config[parent := Group(Fields(config, parent)[child := value])];
      } else {
        config := config[field := Leaf(value)];
      }
    }

    /**
     * `handleExport`: collects the selected datasets (date-filtered, then
     * formatted) one type after another, then hands them to the chosen format.
     * The settings are read, not changed.
     */
    method Export(crops: seq<Record>, tasks: seq<Record>, expenses: seq<Record>, instant: JsValue -> Option<int>)
      returns (out: Outcome)
      ensures out == Deliver(config, Selected(config, crops, tasks, expenses, instant))
    {
      var selected: seq<Dataset> := [];
      if Ticked(config, "crops") {
        selected := selected + [CropSet(config, crops, instant)];
      }
      assert selected == Pick(Ticked(config, "crops"), CropSet(config, crops, instant));
      if Ticked(config, "tasks") {
        selected := selected + [TaskSet(config, tasks, instant)];
      }
      assert selected == Pick(Ticked(config, "crops"), CropSet(config, crops, instant)) +
        Pick(Ticked(config, "tasks"), TaskSet(config, tasks, instant));
      if Ticked(config, "expenses") {
        selected := selected + [ExpenseSet(config, expenses, instant)];
      }
      assert selected == Selected(config, crops, tasks, expenses, instant);
      out := Deliver(config, selected);
    }
  }
}
