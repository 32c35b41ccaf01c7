/**
 * The Kanban board (src/components/KanbanView.jsx): the filter chain, the
 * column split, the drag-and-drop status controller with its optimistic
 * write and rollback, and the submit and delete handlers around the task
 * service. The remote service's answers are parameters.
 */
module KanbanView {
  import opened Wrappers
  import opened Strings
  import opened Dates
  import Seqs

  /** A board task; an absent string field is "", an unparsable due date `None`. */
  datatype Task = Task(
    id: int,
    title: string,
    description: string,
    priority: string,
    dueDate: Option<Civil>,
    status: string,
    assignee: string,
    location: string,
    completed: bool,
    taskType: string,
    assignedCropFarm: string)

  /** A task record as the task service returns it. */
  datatype ServiceTask = ServiceTask(
    id: int,
    title: string,
    description: string,
    priority: string,
    dueDate: Option<Civil>,
    completed: bool,
    assignedTo: string,
    location: string)

  /** The four column ids, in board order. */
  const ColumnIds: seq<string> := ["todo", "inprogress", "review", "done"]

  /** The `loadTasks` transform: status from `completed`, two defaults the store does not hold. */
  function FromService(t: ServiceTask): Task {
    Task(t.id, t.title, t.description, t.priority, t.dueDate,
      if t.completed then "done" else "todo",
      t.assignedTo, t.location, t.completed, "watering", "")
  }

  /** Loaded tasks keep their order and ids, and sit in "done" exactly when completed, otherwise in "todo". */
  lemma TransformStatus(s: seq<ServiceTask>)
    ensures var r := Seqs.Map(s, FromService);
      && |r| == |s|
      && forall i :: 0 <= i < |r| ==>
        && r[i].id == s[i].id
        && r[i].completed == s[i].completed
        && (r[i].status == "done" <==> s[i].completed)
        && (r[i].status == "todo" <==> !s[i].completed)
  {
  }

  /** The defaults `applyFilters` fills in before filtering. */
  function Defaulted(t: Task): Task {
    t.(status := OrElse(t.status, "todo"), assignee := OrElse(t.assignee, ""),
      location := OrElse(t.location, "North Field"), taskType := OrElse(t.taskType, "watering"),
      assignedCropFarm := OrElse(t.assignedCropFarm, ""))
  }

  datatype Filters = Filters(priority: string, search: string, dateRange: string, assignee: string)

  const NoFilters := Filters("all", "", "all", "all")

  predicate PriorityOk(t: Task, f: Filters) {
    f.priority == "all" || t.priority == f.priority
  }

  /** Case-insensitive match on the title, or on a non-empty description. */
  predicate SearchOk(t: Task, f: Filters) {
    f.search == "" ||
    IncludesIgnoringCase(t.title, f.search) ||
    (t.description != "" && IncludesIgnoringCase(t.description, f.search))
  }

  /**
   * The due-date bucket. `now` is the instant `new Date()`, `today` its date;
   * an unparsable due date gives NaN days, which no comparison accepts.
   */
  predicate DateOk(t: Task, f: Filters, now: int, today: Civil) {
    if f.dateRange == "all" then true
    else if f.dateRange == "today" then t.dueDate == Some(today)
    else if f.dateRange == "week" then t.dueDate.Some? && 0 <= DaysUntil(t.dueDate.value, now) <= 7
    else if f.dateRange == "overdue" then t.dueDate.Some? && DaysUntil(t.dueDate.value, now) < 0
    else true
  }

  predicate AssigneeOk(t: Task, f: Filters) {
    f.assignee == "all" || t.assignee == f.assignee
  }

  /** The conjunction of all four criteria. */
  predicate Matches(t: Task, f: Filters, now: int, today: Civil) {
    PriorityOk(t, f) && SearchOk(t, f) && DateOk(t, f, now, today) && AssigneeOk(t, f)
  }

  /** `applyFilters`: defaults, then each active filter in turn over the reassigned list. */
  function ApplyFilters(tasks: seq<Task>, f: Filters, now: int, today: Civil): seq<Task> {
    var s0 := Seqs.Map(tasks, Defaulted);
    var s1 := if f.priority != "all" then Seqs.Filter(s0, (t: Task) => PriorityOk(t, f)) else s0;
    var s2 := if f.search != "" then Seqs.Filter(s1, (t: Task) => SearchOk(t, f)) else s1;
    var s3 := if f.dateRange != "all" then Seqs.Filter(s2, (t: Task) => DateOk(t, f, now, today)) else s2;
    if f.assignee != "all" then Seqs.Filter(s3, (t: Task) => AssigneeOk(t, f)) else s3
  }

  /** The chain keeps exactly what the conjunction of the criteria keeps, in order. */
  lemma ApplyFiltersIsConjunction(tasks: seq<Task>, f: Filters, now: int, today: Civil)
    ensures ApplyFilters(tasks, f, now, today) ==
      Seqs.Filter(Seqs.Map(tasks, Defaulted), (t: Task) => Matches(t, f, now, today))
  {
    var s0 := Seqs.Map(tasks, Defaulted);
    var p1 := (t: Task) => PriorityOk(t, f);
    var p2 := (t: Task) => SearchOk(t, f);
    var p3 := (t: Task) => DateOk(t, f, now, today);
    var p4 := (t: Task) => AssigneeOk(t, f);
    var q2 := (t: Task) => PriorityOk(t, f) && SearchOk(t, f);
    var q3 := (t: Task) => PriorityOk(t, f) && SearchOk(t, f) && DateOk(t, f, now, today);
    var q4 := (t: Task) => Matches(t, f, now, today);
    Seqs.FilterWhen(s0, f.priority != "all", p1);
    Seqs.FilterWhen(Seqs.Filter(s0, p1), f.search != "", p2);
    Seqs.FilterWhen(Seqs.Filter(s0, q2), f.dateRange != "all", p3);
    Seqs.FilterWhen(Seqs.Filter(s0, q3), f.assignee != "all", p4);
    Seqs.FilterFilter(s0, p1, p2, q2);
    Seqs.FilterFilter(s0, q2, p3, q3);
    Seqs.FilterFilter(s0, q3, p4, q4);
  }

  /**
   * The result is an order-preserving subsequence of the defaulted tasks, every
   * kept task meets every active criterion, and every defaulted task that meets
   * them all is kept.
   */
  lemma ApplyFiltersSound(tasks: seq<Task>, f: Filters, now: int, today: Civil)
    ensures var r := ApplyFilters(tasks, f, now, today);
      && Seqs.IsSubsequence(r, Seqs.Map(tasks, Defaulted))
      && (forall i :: 0 <= i < |r| ==> Matches(r[i], f, now, today))
      && (forall t :: t in r <==> t in Seqs.Map(tasks, Defaulted) && Matches(t, f, now, today))
  {
    ApplyFiltersIsConjunction(tasks, f, now, today);
    var p := (t: Task) => Matches(t, f, now, today);
    forall t
      ensures t in ApplyFilters(tasks, f, now, today) <==> t in Seqs.Map(tasks, Defaulted) && Matches(t, f, now, today)
    {
      Seqs.FilterMembers(Seqs.Map(tasks, Defaulted), p, t);
    }
  }

  /** With every criterion at its initial value nothing is filtered out. */
  lemma NoFiltersKeepAll(tasks: seq<Task>, now: int, today: Civil)
    ensures ApplyFilters(tasks, NoFilters, now, today) == Seqs.Map(tasks, Defaulted)
  {
  }

  /** An empty search, or 'all' for the other three, imposes no constraint. */
  lemma InactiveCriteria(t: Task, f: Filters, now: int, today: Civil)
    ensures f.priority == "all" ==> PriorityOk(t, f)
    ensures f.search == "" ==> SearchOk(t, f)
    ensures f.dateRange == "all" ==> DateOk(t, f, now, today)
    ensures f.assignee == "all" ==> AssigneeOk(t, f)
  {
  }

  /**
   * The buckets in day numbers, when `today` is the date of `now`: 'week' is the
   * due date from today up to seven days on, 'overdue' any earlier due date.
   */
  lemma DateBuckets(t: Task, f: Filters, now: int, today: Civil)
    requires DayNumber(today) == now / MsPerDay
    requires t.dueDate.Some?
    ensures f.dateRange == "week" ==>
      (DateOk(t, f, now, today) <==> 0 <= DayNumber(t.dueDate.value) - DayNumber(today) <= 7)
    ensures f.dateRange == "overdue" ==>
      (DateOk(t, f, now, today) <==> DayNumber(t.dueDate.value) < DayNumber(today))
    ensures f.dateRange == "today" ==> (DateOk(t, f, now, today) <==> t.dueDate.value == today)
  {
    DaysUntilIsDayDifference(t.dueDate.value, now);
  }

  /** `getDaysUntilDue`: `None` stands for NaN from an unparsable date. */
  function DaysUntilDue(dueDate: Option<Civil>, now: int): (r: Option<int>)
    ensures r.Some? <==> dueDate.Some?
    ensures dueDate.Some? ==> r.value == DayNumber(dueDate.value) - now / MsPerDay
  {
    match dueDate
    case None => None
    case Some(d) => DaysUntilIsDayDifference(d, now); Some(DaysUntil(d, now))
  }

  /** The column a task is shown in. */
  function ColumnOf(t: Task): string {
    OrElse(t.status, "todo")
  }

  /** `getTasksByStatus(status)`. */
  function TasksByStatus(filtered: seq<Task>, status: string): seq<Task> {
    Seqs.Filter(filtered, (t: Task) => ColumnOf(t) == status)
  }

  /**
   * The four columns partition the tasks whose status is a column id: together
   * they hold each such task exactly as often as the filtered list does.
   */
  lemma ColumnsPartition(filtered: seq<Task>)
    ensures multiset(TasksByStatus(filtered, "todo")) + multiset(TasksByStatus(filtered, "inprogress"))
      + multiset(TasksByStatus(filtered, "review")) + multiset(TasksByStatus(filtered, "done"))
      == multiset(Seqs.Filter(filtered, (t: Task) => ColumnOf(t) in ColumnIds))
  {
    var todo := (t: Task) => ColumnOf(t) == "todo";
    var inprogress := (t: Task) => ColumnOf(t) == "inprogress";
    var review := (t: Task) => ColumnOf(t) == "review";
    var done := (t: Task) => ColumnOf(t) == "done";
    var two := (t: Task) => ColumnOf(t) == "todo" || ColumnOf(t) == "inprogress";
    var three := (t: Task) => ColumnOf(t) == "todo" || ColumnOf(t) == "inprogress" || ColumnOf(t) == "review";
    Seqs.FilterUnion(filtered, todo, inprogress, two);
    Seqs.FilterUnion(filtered, two, review, three);
    Seqs.FilterUnion(filtered, three, done, (t: Task) => ColumnOf(t) in ColumnIds);
  }

  /** Each column holds only its own tasks, in list order. */
  lemma ColumnContents(filtered: seq<Task>, status: string)
    ensures Seqs.IsSubsequence(TasksByStatus(filtered, status), filtered)
    ensures forall t :: t in TasksByStatus(filtered, status) <==> t in filtered && ColumnOf(t) == status
  {
    forall t
      ensures t in TasksByStatus(filtered, status) <==> t in filtered && ColumnOf(t) == status
    {
      Seqs.FilterMembers(filtered, (t: Task) => ColumnOf(t) == status, t);
    }
  }

  /** What the cursor is over when a drag ends. */
  datatype OverId = ColumnKey(name: string) | CardKey(taskId: int)
  datatype Over = NoTarget | Target(id: OverId, dataStatus: string)

  /**
   * The target status: a column's own id, else the status of the card dropped
   * onto, else "todo". A card's numeric id never strictly equals a column id.
   */
  function FinalStatus(id: OverId, dataStatus: string): (s: string)
    ensures id.ColumnKey? && id.name in ColumnIds ==> s == id.name
    ensures !(id.ColumnKey? && id.name in ColumnIds) ==> s == OrElse(dataStatus, "todo")
  {
    if id.ColumnKey? && id.name in ColumnIds then id.name else OrElse(dataStatus, "todo")
  }

  /** `tasks.find(task => task.id === taskId)`: the first match. */
  function Find(tasks: seq<Task>, id: int): (r: Option<Task>)
    ensures r.Some? <==> exists i :: 0 <= i < |tasks| && tasks[i].id == id
    ensures r.Some? ==> r.value in tasks && r.value.id == id
    ensures r.Some? ==> exists i :: 0 <= i < |tasks| && tasks[i] == r.value && forall j :: 0 <= j < i ==> tasks[j].id != id
  {
    if tasks == [] then None
    else if tasks[0].id == id then Some(tasks[0])
    else
      var r := Find(tasks[1..], id);
      if r.Some? then
        var i :| 0 <= i < |tasks[1..]| && tasks[1..][i] == r.value && forall j :: 0 <= j < i ==> tasks[1..][j].id != id;
        assert tasks[i + 1] == r.value;
        r
      else r
  }

  /** The optimistic write: the dragged task takes the target status, and is completed iff that is "done". */
  function Moved(t: Task, status: string): Task {
    t.(status := status, completed := status == "done")
  }

  /** Only tasks with the dragged id change, and only in their status and completion. */
  function MoveTask(tasks: seq<Task>, id: int, status: string): (r: seq<Task>)
    ensures |r| == |tasks|
    ensures forall i :: 0 <= i < |r| && tasks[i].id != id ==> r[i] == tasks[i]
    ensures forall i :: 0 <= i < |r| && tasks[i].id == id ==>
      r[i].status == status && r[i].completed == (status == "done") &&
      r[i].(status := tasks[i].status, completed := tasks[i].completed) == tasks[i]
  {
    Seqs.Map(tasks, (t: Task) => if t.id == id then Moved(t, status) else t)
  }

  /** The record sent to `taskService.update` or `create`; the owner is always empty and not modelled. */
  datatype Payload = Payload(
    title: string,
    description: string,
    priority: string,
    dueDate: Option<Civil>,
    completed: bool,
    completionDate: Option<Civil>,
    location: string,
    assignedTo: string,
    tags: string)

  /** The drag payload, built from the task as it was before the drop. */
  function DragPayload(t: Task, status: string, today: Civil): (p: Payload)
    ensures p.completed == (status == "done")
    ensures p.completionDate.Some? <==> status == "done"
    ensures p.completionDate.Some? ==> p.completionDate.value == today
    ensures p.title == t.title && p.dueDate == t.dueDate && p.assignedTo == t.assignee && p.tags == ""
  {
    Payload(t.title, t.description, t.priority, t.dueDate, status == "done",
      if status == "done" then Some(today) else None, t.location, t.assignee, "")
  }

  /** A service call the form makes: `update(id, payload)` or `create(payload)`. */
  datatype Call = Update(id: int, payload: Payload) | Create(payload: Payload)

  /** How the awaited service call ends: a record, `null`, or a thrown exception. */
  datatype Outcome = Returned | ReturnedNull | Threw

  /** What the store answers to `updateRecord`, or that the call itself threw. */
  datatype StoreReply = StoreThrew | Reply(success: bool, results: Option<seq<bool>>)

  /**
   * `taskService.update`: every failure is caught and turned into `null`, so the
   * call never throws and the board's rollback never runs because of the store.
   * `Returned` stands for `successfulUpdates[0].data` and takes that record to be
   * present; a success whose `data` is missing would read as `null` to the caller.
   */
  function ServiceUpdate(reply: StoreReply): (o: Outcome)
    ensures o != Threw
    ensures o == Returned <==> reply.Reply? && reply.success && reply.results.Some? && true in reply.results.value
  {
    match reply
    case StoreThrew => ReturnedNull
    case Reply(success, results) =>
      if success && results.Some? then
        var succeeded := Seqs.Filter(results.value, (ok: bool) => ok);
        Seqs.FilterMembers(results.value, (ok: bool) => ok, true);
        assert |succeeded| > 0 <==> true in succeeded by {
          if |succeeded| > 0 {
            assert succeeded[0];
          }
        }
        if |succeeded| > 0 then Returned else ReturnedNull
      else ReturnedNull
  }

  datatype Notice = NoNotice | SuccessNotice | ErrorNotice

  /** The task form, with "" for an empty due date. */
  datatype TaskForm = TaskForm(
    title: string, description: string, priority: string, dueDate: Option<Civil>,
    status: string, assignee: string, location: string, taskType: string, assignedCropFarm: string)

  const BlankForm := TaskForm("", "", "Medium", None, "todo", "", "North Field", "watering", "")

  /** The form filled from a task for editing: the fields `Defaulted` fills keep the same defaults. */
  function FormOf(t: Task): (form: TaskForm)
    ensures form.title == t.title && form.dueDate == t.dueDate && form.priority == t.priority
    ensures var d := Defaulted(t);
      form.status == d.status && form.assignee == d.assignee && form.location == d.location &&
      form.taskType == d.taskType && form.assignedCropFarm == d.assignedCropFarm
  {
    TaskForm(t.title, OrElse(t.description, ""), t.priority, t.dueDate, OrElse(t.status, "todo"),
      OrElse(t.assignee, ""), OrElse(t.location, "North Field"), OrElse(t.taskType, "watering"),
      OrElse(t.assignedCropFarm, ""))
  }

  /** The payload `handleSubmitTask` sends. */
  function FormPayload(form: TaskForm, today: Civil): (p: Payload)
    ensures p.completed == (form.status == "done")
    ensures p.completionDate.Some? <==> form.status == "done"
    ensures p.title == form.title && p.dueDate == form.dueDate && p.tags == ""
  {
    Payload(form.title, form.description, form.priority, form.dueDate, form.status == "done",
      if form.status == "done" then Some(today) else None, form.location, form.assignee, "")
  }

  /** The board's state: the task list, the form, the task being edited and whether the last load failed. */
  class Board {
    var tasks: seq<Task>
    var form: TaskForm
    var editing: Option<int>
    var loadFailed: bool

    constructor ()
      ensures tasks == [] && form == BlankForm && editing == None && !loadFailed
    {
      tasks := [];
      form := BlankForm;
      editing := None;
      loadFailed := false;
    }

    /** `loadTasks`: `fetched` is what `getAll` resolved to, `None` when it threw (the list then stays). */
    method LoadTasks(fetched: Option<seq<ServiceTask>>)
      modifies this`tasks, this`loadFailed
      ensures fetched.Some? ==> tasks == Seqs.Map(fetched.value, FromService) && !loadFailed
      ensures fetched.None? ==> tasks == old(tasks) && loadFailed
    {
      if fetched.Some? {
        tasks := Seqs.Map(fetched.value, FromService);
        loadFailed := false;
      } else {
        loadFailed := true;
      }
    }

    /**
     * `handleDragEnd`. `outcome` is how `taskService.update` ends if it is called;
     * `today` is the date the completion date is taken from.
     * Returns the payload sent, if any, and the toast shown.
     */
    method DragEnd(activeId: int, over: Over, outcome: Outcome, today: Civil) returns (sent: Option<Payload>, notice: Notice)
      modifies this`tasks
      ensures over.NoTarget? ==> tasks == old(tasks) && sent == None && notice == NoNotice
      ensures over.Target? ==>
        var status := FinalStatus(over.id, over.dataStatus);
        var current := Find(old(tasks), activeId);
        if current.Some? && current.value.status == status then
          tasks == old(tasks) && sent == None && notice == NoNotice
        else if current.None? then
          tasks == old(tasks) && sent == None && notice == ErrorNotice
        else
          && sent == Some(DragPayload(current.value, status, today))
          && (outcome == Threw ==> tasks == old(tasks) && notice == ErrorNotice)
          && (outcome != Threw ==> tasks == MoveTask(old(tasks), activeId, status) && notice == SuccessNotice)
    {
      if over.NoTarget? {
        return None, NoNotice;
      }
      var status := FinalStatus(over.id, over.dataStatus);
      var current := Find(tasks, activeId);
      if current.Some? && current.value.status == status {
        return None, NoNotice;
      }
      var snapshot := tasks;
      tasks := MoveTask(tasks, activeId, status);
      if current.None? {
        // reading `taskToUpdate.title` throws a TypeError: the catch block restores the snapshot
        tasks := snapshot;
        return None, ErrorNotice;
      }
      sent := Some(DragPayload(current.value, status, today));
      if outcome == Threw {
        tasks := snapshot;
        notice := ErrorNotice;
      } else {
        notice := SuccessNotice;
      }
    }

    /**
     * `handleSubmitTask`: without a title or a due date nothing happens. Otherwise
     * the payload goes to `update` with the edited task's id when editing and to
     * `create` otherwise, answered by `answer`; a truthy answer reloads the list
     * from `fetched` and ends the edit. The form is reset unless the call threw.
     */
    method SubmitTask(today: Civil, answer: Outcome, fetched: Option<seq<ServiceTask>>) returns (sent: Option<Call>, notice: Notice)
      modifies this
      ensures old(form.title) == "" || old(form.dueDate).None? ==>
        tasks == old(tasks) && form == old(form) && editing == old(editing) && loadFailed == old(loadFailed) &&
        sent == None && notice == ErrorNotice
      ensures old(form.title) != "" && old(form.dueDate).Some? ==>
        && sent == Some(if old(editing).Some? then Update(old(editing).value, FormPayload(old(form), today))
                        else Create(FormPayload(old(form), today)))
        && notice == NoNotice
        && (answer == Returned && fetched.Some? ==> tasks == Seqs.Map(fetched.value, FromService) && !loadFailed)
        && (answer == Returned && fetched.None? ==> tasks == old(tasks) && loadFailed)
        && (answer != Returned ==> tasks == old(tasks) && loadFailed == old(loadFailed))
        && editing == (if answer == Returned then None else old(editing))
        && form == (if answer == Threw then old(form) else BlankForm)
    {
      if form.title == "" || form.dueDate.None? {
        return None, ErrorNotice;
      }
      var payload := FormPayload(form, today);
      if editing.Some? {
        sent := Some(Update(editing.value, payload));
      } else {
        sent := Some(Create(payload));
      }
      notice := NoNotice;
      if answer == Threw {
        return;
      }
      if answer == Returned {
        LoadTasks(fetched);
        editing := None;
      }
      form := BlankForm;
    }

    /** `handleEditTask`: the form takes the task's fields, with the board's defaults for empty ones. */
    method EditTask(t: Task)
      modifies this`editing, this`form
      ensures editing == Some(t.id)
      ensures form == FormOf(t)
    {
      editing := Some(t.id);
      form := FormOf(t);
    }

    /** `handleDeleteTask`: only a confirmed delete that the service reports done removes the task. */
    method DeleteTask(taskId: int, confirmed: bool, deleted: bool)
      modifies this`tasks
      ensures confirmed && deleted ==> tasks == Seqs.Filter(old(tasks), (t: Task) => t.id != taskId)
      ensures !(confirmed && deleted) ==> tasks == old(tasks)
    {
      if confirmed && deleted {
        tasks := Seqs.Filter(tasks, (t: Task) => t.id != taskId);
      }
    }
  }

  /** Deleting removes exactly the tasks with that id and keeps the others in order. */
  lemma DeleteKeepsOthers(tasks: seq<Task>, id: int)
    ensures var r := Seqs.Filter(tasks, (t: Task) => t.id != id);
      && Seqs.IsSubsequence(r, tasks)
      && (forall t :: t in r <==> t in tasks && t.id != id)
  {
    forall t
      ensures t in Seqs.Filter(tasks, (t: Task) => t.id != id) <==> t in tasks && t.id != id
    {
      Seqs.FilterMembers(tasks, (t: Task) => t.id != id, t);
    }
  }
}
