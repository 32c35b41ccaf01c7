/**
 * The calendar view (src/components/CalendarView.jsx): expanding a
 * recurring task into dated copies, and the create, edit, reschedule and
 * delete handlers that replace the task list.
 */
module CalendarView {
  import opened Wrappers
  import opened Strings
  import opened Dates
  import Seqs

  /** A task as the calendar holds it; an absent string field is "". */
  datatype Task = Task(
    id: int,
    title: string,
    dueDate: Civil,
    priority: string,
    location: string,
    notes: string,
    completed: bool,
    recurring: bool,
    taskType: string,
    assignedCropFarm: string)

  /** The hard cap on the number of generated copies. */
  const MaxOccurrences: nat := 52

  /** The `type` of a recurring task; any value but the three known ones leaves the date where it is. */
  datatype Frequency = Daily | Weekly | Monthly | Unchanging

  function FrequencyOf(kind: string): (f: Frequency)
    ensures f == Unchanging <==> kind != "daily" && kind != "weekly" && kind != "monthly"
  {
    if kind == "daily" then Daily
    else if kind == "weekly" then Weekly
    else if kind == "monthly" then Monthly
    else Unchanging
  }

  /** One step of the `if/else if` chain on `type`. */
  function StepDate(f: Frequency, c: Civil): Civil {
    match f
    case Daily => NextDay(c)
    case Weekly => AddWeek(c)
    case Monthly => AddMonth(c)
    case Unchanging => c
  }

  /** How many days one step moves a valid date. */
  function StepLength(f: Frequency, c: Civil): int {
    match f
    case Daily => 1
    case Weekly => 7
    case Monthly => DaysInMonth(c.year, c.month)
    case Unchanging => 0
  }

  lemma StepDateNumber(f: Frequency, c: Civil)
    requires Valid(c)
    ensures Valid(StepDate(f, c))
    ensures DayNumber(StepDate(f, c)) == DayNumber(c) + StepLength(f, c)
  {
    match f
    case Daily => NextDayNumber(c);
    case Weekly => AddWeekNumber(c);
    case Monthly => AddMonthNumber(c);
    case Unchanging =>
  }

  /** The step as a function value, so that the series below is generic in it. */
  function Stepper(f: Frequency): Civil -> Civil {
    (c: Civil) => StepDate(f, c)
  }

  /** The date after `n` applications of `step` to `start`. */
  function Iterate(step: Civil -> Civil, start: Civil, n: nat): Civil
    decreases n
  {
    if n == 0 then start else step(Iterate(step, start, n - 1))
  }

  /** The date after `n` steps of frequency `f` from `start`. */
  function OccurrenceDate(f: Frequency, start: Civil, n: nat): Civil {
    Iterate(Stepper(f), start, n)
  }

  lemma OccurrenceNext(f: Frequency, start: Civil, n: nat)
    ensures OccurrenceDate(f, start, n + 1) == StepDate(f, OccurrenceDate(f, start, n))
  {
  }

  lemma {:induction false} OccurrenceValid(f: Frequency, start: Civil, n: nat)
    requires Valid(start)
    ensures Valid(OccurrenceDate(f, start, n))
    decreases n
  {
    if n > 0 {
      OccurrenceValid(f, start, n - 1);
      OccurrenceNext(f, start, n - 1);
      StepDateNumber(f, OccurrenceDate(f, start, n - 1));
    }
  }

  /** `${title} (Week ${k})`: the suffix says "Week" for every frequency. */
  function WeekTitle(title: string, k: int): string {
    title + " (Week " + IntToString(k) + ")"
  }

  /** The k-th copy (1-based): the base task with a new id, date and title. */
  function Instance(base: Task, step: Civil -> Civil, k: nat): Task
    requires k >= 1
  {
    base.(id := base.id + k, dueDate := Iterate(step, base.dueDate, k - 1), title := WeekTitle(base.title, k))
  }

  /** The copies numbered `k` and up that the loop still emits. */
  function SeriesFrom(base: Task, step: Civil -> Civil, end: Civil, k: nat): seq<Task>
    requires k >= 1
    decreases MaxOccurrences + 1 - k
  {
    if k > MaxOccurrences || DayNumber(Iterate(step, base.dueDate, k - 1)) > DayNumber(end) then []
    else [Instance(base, step, k)] + SeriesFrom(base, step, end, k + 1)
  }

  /** What `generateRecurringTasks(base, type, end)` returns. */
  function RecurringTasks(base: Task, f: Frequency, end: Civil): seq<Task> {
    SeriesFrom(base, Stepper(f), end, 1)
  }

  /**
   * The loop of `generateRecurringTasks`, mutating its current date in place;
   * `step` is the branch of the `if/else if` chain on `type` that the loop runs.
   */
  method GenerateSeries(base: Task, step: Civil -> Civil, end: Civil) returns (tasks: seq<Task>)
    ensures tasks == SeriesFrom(base, step, end, 1)
  {
    tasks := [];
    var current := base.dueDate;
    var counter := 1;
    while DayNumber(current) <= DayNumber(end) && counter <= MaxOccurrences
      invariant 1 <= counter <= MaxOccurrences + 1
      invariant current == Iterate(step, base.dueDate, counter - 1)
      invariant tasks + SeriesFrom(base, step, end, counter) == SeriesFrom(base, step, end, 1)
      decreases MaxOccurrences + 1 - counter
    {
      var copy := base.(id := base.id + counter, dueDate := current, title := WeekTitle(base.title, counter));
      SeriesFromUnfold(base, step, end, counter);
      assert copy == Instance(base, step, counter);
      ghost var rest := SeriesFrom(base, step, end, counter + 1);
      assert tasks + [copy] + rest == tasks + ([copy] + rest);
      tasks := tasks + [copy];
      current := step(current);
      counter := counter + 1;
    }
  }

  lemma SeriesFromUnfold(base: Task, step: Civil -> Civil, end: Civil, k: nat)
    requires 1 <= k <= MaxOccurrences && DayNumber(Iterate(step, base.dueDate, k - 1)) <= DayNumber(end)
    ensures SeriesFrom(base, step, end, k) == [Instance(base, step, k)] + SeriesFrom(base, step, end, k + 1)
  {
  }

  /** `generateRecurringTasks(baseTask, type, endDate)`. */
  method GenerateRecurringTasks(base: Task, f: Frequency, end: Civil) returns (tasks: seq<Task>)
    ensures tasks == RecurringTasks(base, f, end)
  {
    tasks := GenerateSeries(base, Stepper(f), end);
  }

  lemma {:induction false} SeriesFromLength(base: Task, step: Civil -> Civil, end: Civil, k: nat)
    requires 1 <= k <= MaxOccurrences + 1
    ensures |SeriesFrom(base, step, end, k)| <= MaxOccurrences + 1 - k
    decreases MaxOccurrences + 1 - k
  {
    if k <= MaxOccurrences && DayNumber(Iterate(step, base.dueDate, k - 1)) <= DayNumber(end) {
      SeriesFromLength(base, step, end, k + 1);
    }
  }

  lemma {:induction false} SeriesFromElements(base: Task, step: Civil -> Civil, end: Civil, k: nat)
    requires k >= 1
    ensures forall i :: 0 <= i < |SeriesFrom(base, step, end, k)| ==> SeriesFrom(base, step, end, k)[i] == Instance(base, step, k + i)
    decreases MaxOccurrences + 1 - k
  {
    if k <= MaxOccurrences && DayNumber(Iterate(step, base.dueDate, k - 1)) <= DayNumber(end) {
      SeriesFromElements(base, step, end, k + 1);
    }
  }

  lemma {:induction false} SeriesFromWithin(base: Task, step: Civil -> Civil, end: Civil, k: nat)
    requires k >= 1
    ensures forall i :: 0 <= i < |SeriesFrom(base, step, end, k)| ==> DayNumber(SeriesFrom(base, step, end, k)[i].dueDate) <= DayNumber(end)
    decreases MaxOccurrences + 1 - k
  {
    if k <= MaxOccurrences && DayNumber(Iterate(step, base.dueDate, k - 1)) <= DayNumber(end) {
      SeriesFromWithin(base, step, end, k + 1);
    }
  }

  lemma {:induction false} SeriesFromMaximal(base: Task, step: Civil -> Civil, end: Civil, k: nat)
    requires 1 <= k <= MaxOccurrences + 1
    ensures var n := |SeriesFrom(base, step, end, k)|;
      k + n == MaxOccurrences + 1 || DayNumber(Iterate(step, base.dueDate, k - 1 + n)) > DayNumber(end)
    decreases MaxOccurrences + 1 - k
  {
    var s := SeriesFrom(base, step, end, k);
    if k <= MaxOccurrences && DayNumber(Iterate(step, base.dueDate, k - 1)) <= DayNumber(end) {
      var rest := SeriesFrom(base, step, end, k + 1);
      SeriesFromMaximal(base, step, end, k + 1);
      assert |s| == 1 + |rest|;
    }
  }

  /** At most 52 copies. */
  lemma RecurringTasksBound(base: Task, f: Frequency, end: Civil)
    ensures |RecurringTasks(base, f, end)| <= MaxOccurrences
  {
    SeriesFromLength(base, Stepper(f), end, 1);
  }

  /**
   * The k-th copy (1-based) is the base task with id `base.id + k` and title
   * `base.title (Week k)`, due k steps after the base date; every other field is the base task's.
   */
  lemma RecurringTasksCopies(base: Task, f: Frequency, end: Civil)
    ensures forall k :: 0 <= k < |RecurringTasks(base, f, end)| ==>
      RecurringTasks(base, f, end)[k] ==
        base.(id := base.id + k + 1, title := WeekTitle(base.title, k + 1), dueDate := OccurrenceDate(f, base.dueDate, k))
  {
    SeriesFromElements(base, Stepper(f), end, 1);
  }

  /** No copy is due after the end date. */
  lemma RecurringTasksWithinEnd(base: Task, f: Frequency, end: Civil)
    ensures forall k :: 0 <= k < |RecurringTasks(base, f, end)| ==>
      DayNumber(RecurringTasks(base, f, end)[k].dueDate) <= DayNumber(end)
  {
    SeriesFromWithin(base, Stepper(f), end, 1);
  }

  /** The series stops only at the cap or when the next date would pass the end date. */
  lemma RecurringTasksMaximal(base: Task, f: Frequency, end: Civil)
    ensures var n := |RecurringTasks(base, f, end)|;
      n == MaxOccurrences || DayNumber(OccurrenceDate(f, base.dueDate, n)) > DayNumber(end)
  {
    SeriesFromMaximal(base, Stepper(f), end, 1);
  }

  /** Copies of a task with a valid date have valid dates. */
  lemma RecurringTasksValid(base: Task, f: Frequency, end: Civil)
    requires Valid(base.dueDate)
    ensures forall k :: 0 <= k < |RecurringTasks(base, f, end)| ==> Valid(RecurringTasks(base, f, end)[k].dueDate)
  {
    RecurringTasksCopies(base, f, end);
    forall k | 0 <= k < |RecurringTasks(base, f, end)|
      ensures Valid(RecurringTasks(base, f, end)[k].dueDate)
    {
      OccurrenceValid(f, base.dueDate, k);
    }
  }

  /** The series is empty exactly when the base date is after the end date; otherwise it starts on the base date. */
  lemma RecurringTasksEmptyIffLate(base: Task, f: Frequency, end: Civil)
    ensures RecurringTasks(base, f, end) == [] <==> DayNumber(base.dueDate) > DayNumber(end)
    ensures RecurringTasks(base, f, end) != [] ==> RecurringTasks(base, f, end)[0].dueDate == base.dueDate
  {
  }

  /** Each daily, weekly or monthly step moves strictly forward. */
  lemma OccurrenceAdvances(f: Frequency, start: Civil, n: nat)
    requires Valid(start) && f != Unchanging
    ensures DayNumber(OccurrenceDate(f, start, n)) < DayNumber(OccurrenceDate(f, start, n + 1))
  {
    OccurrenceValid(f, start, n);
    OccurrenceNext(f, start, n);
    StepDateNumber(f, OccurrenceDate(f, start, n));
  }

  lemma {:induction false} OccurrenceIncreasing(f: Frequency, start: Civil, i: nat, j: nat)
    requires Valid(start) && f != Unchanging && i < j
    ensures DayNumber(OccurrenceDate(f, start, i)) < DayNumber(OccurrenceDate(f, start, j))
    decreases j
  {
    OccurrenceAdvances(f, start, j - 1);
    if i < j - 1 {
      OccurrenceIncreasing(f, start, i, j - 1);
    }
  }

  lemma {:induction false} OccurrenceUnchanging(start: Civil, n: nat)
    ensures OccurrenceDate(Unchanging, start, n) == start
    decreases n
  {
    if n > 0 {
      OccurrenceUnchanging(start, n - 1);
    }
  }

  /** Daily and weekly series are arithmetic: the n-th step is n or 7n days on. */
  lemma {:induction false} OccurrenceArithmetic(f: Frequency, start: Civil, n: nat)
    requires Valid(start) && (f == Daily || f == Weekly)
    ensures DayNumber(OccurrenceDate(f, start, n)) == DayNumber(start) + (if f == Daily then n else 7 * n)
    decreases n
  {
    if n > 0 {
      OccurrenceArithmetic(f, start, n - 1);
      OccurrenceValid(f, start, n - 1);
      OccurrenceNext(f, start, n - 1);
      StepDateNumber(f, OccurrenceDate(f, start, n - 1));
    }
  }

  /** Consecutive copies are exactly one step apart: +1 day, +7 days, or the length of the current month. */
  lemma RecurringTasksSteps(base: Task, f: Frequency, end: Civil)
    requires Valid(base.dueDate)
    ensures var r := RecurringTasks(base, f, end);
      forall k :: 0 <= k < |r| - 1 ==>
        DayNumber(r[k + 1].dueDate) == DayNumber(r[k].dueDate) + StepLength(f, r[k].dueDate)
  {
    var r := RecurringTasks(base, f, end);
    RecurringTasksCopies(base, f, end);
    forall k | 0 <= k < |r| - 1
      ensures DayNumber(r[k + 1].dueDate) == DayNumber(r[k].dueDate) + StepLength(f, r[k].dueDate)
    {
      OccurrenceValid(f, base.dueDate, k);
      OccurrenceNext(f, base.dueDate, k);
      StepDateNumber(f, OccurrenceDate(f, base.dueDate, k));
    }
  }

  /** For daily, weekly or monthly the dates strictly increase; otherwise every copy keeps the base date. */
  lemma RecurringTasksOrder(base: Task, f: Frequency, end: Civil)
    requires Valid(base.dueDate)
    ensures var r := RecurringTasks(base, f, end);
      f != Unchanging ==> forall i, j :: 0 <= i < j < |r| ==> DayNumber(r[i].dueDate) < DayNumber(r[j].dueDate)
    ensures var r := RecurringTasks(base, f, end);
      f == Unchanging ==> forall k :: 0 <= k < |r| ==> r[k].dueDate == base.dueDate
  {
    var r := RecurringTasks(base, f, end);
    RecurringTasksCopies(base, f, end);
    if f != Unchanging {
      forall i, j | 0 <= i < j < |r|
        ensures DayNumber(r[i].dueDate) < DayNumber(r[j].dueDate)
      {
        OccurrenceIncreasing(f, base.dueDate, i, j);
      }
    } else {
      forall k | 0 <= k < |r|
        ensures r[k].dueDate == base.dueDate
      {
        OccurrenceUnchanging(base.dueDate, k);
      }
    }
  }

  /** With an unknown frequency and a base date not after the end, only the cap stops the loop. */
  lemma UnknownFrequencyHitsCap(base: Task, end: Civil)
    requires DayNumber(base.dueDate) <= DayNumber(end)
    ensures |RecurringTasks(base, Unchanging, end)| == MaxOccurrences
  {
    var n := |RecurringTasks(base, Unchanging, end)|;
    RecurringTasksMaximal(base, Unchanging, end);
    OccurrenceUnchanging(base.dueDate, n);
  }

  /** The form behind the create/edit modal. */
  datatype EventForm = EventForm(
    title: string,
    start: Civil,
    priority: string,
    location: string,
    notes: string,
    recurring: bool,
    recurringType: string,
    recurringEnd: Option<Civil>,
    taskType: string,
    assignedCropFarm: string)

  /** The form after `closeModal`, with `new Date()` as `today`. */
  function BlankForm(today: Civil): EventForm {
    EventForm("", today, "Medium", "North Field", "", false, "weekly", None, "watering", "")
  }

  /** The toast a handler shows. */
  datatype Notice = NoNotice | SuccessNotice | ErrorNotice

  /** A calendar event: `start` and `end` are instants in milliseconds. */
  datatype EventResource = EventResource(
    priority: string, location: string, completed: bool, notes: string,
    recurring: bool, taskType: string, assignedCropFarm: string)
  datatype CalendarEvent = CalendarEvent(id: int, title: string, start: int, end: int, resource: EventResource)

  /** The `calendarEvents` mapping: one event per task, one hour long, starting at midnight of its due date. */
  function CalendarEvents(tasks: seq<Task>): (events: seq<CalendarEvent>)
    requires forall i :: 0 <= i < |tasks| ==> Valid(tasks[i].dueDate)
    ensures |events| == |tasks|
    ensures forall i :: 0 <= i < |tasks| ==>
      && events[i].id == tasks[i].id
      && events[i].title == tasks[i].title
      && events[i].start == Instant(tasks[i].dueDate)
      && events[i].end - events[i].start == 60 * 60 * 1000
      && events[i].resource.location == OrElse(tasks[i].location, "North Field")
      && events[i].resource.taskType == OrElse(tasks[i].taskType, "watering")
      && events[i].resource.completed == tasks[i].completed
      && events[i].resource.priority == tasks[i].priority
      && events[i].resource.notes == tasks[i].notes
      && events[i].resource.recurring == tasks[i].recurring
      && events[i].resource.assignedCropFarm == tasks[i].assignedCropFarm
  {
    if tasks == [] then []
    else
      var t := tasks[0];
      var start := Instant(t.dueDate);
      [CalendarEvent(t.id, t.title, start, start + 60 * 60 * 1000,
        EventResource(t.priority, OrElse(t.location, "North Field"), t.completed, t.notes,
          t.recurring, OrElse(t.taskType, "watering"), t.assignedCropFarm))]
      + CalendarEvents(tasks[1..])
  }

  /** The component's state: the task list it replaces through `setTasks`, the form and the selected event. */
  class Calendar {
    var tasks: seq<Task>
    var form: EventForm
    var selectedEvent: Option<int>

    ghost predicate Valid()
      reads this
    {
      && (forall i :: 0 <= i < |tasks| ==> Dates.Valid(tasks[i].dueDate))
      && Dates.Valid(form.start)
      && (form.recurringEnd.Some? ==> Dates.Valid(form.recurringEnd.value))
    }

    constructor (initial: seq<Task>, today: Civil)
      requires forall i :: 0 <= i < |initial| ==> Dates.Valid(initial[i].dueDate)
      requires Dates.Valid(today)
      ensures Valid()
      ensures tasks == initial && form == BlankForm(today) && selectedEvent == None
    {
      tasks := initial;
      form := BlankForm(today);
      selectedEvent := None;
    }

    /**
     * `handleSelectEvent`: load an existing task's event into the form for editing.
     * `start` is the date whose midnight is `event.start`; `SelectedStartIsDueDate`
     * shows there is only one, the task's due date.
     */
    method SelectEvent(event: CalendarEvent, start: Civil)
      requires Valid() && Dates.Valid(start) && Instant(start) == event.start
      modifies this
      ensures Valid()
      ensures tasks == old(tasks) && selectedEvent == Some(event.id)
      ensures form == EventForm(event.title, start, event.resource.priority, event.resource.location,
        event.resource.notes, event.resource.recurring, "weekly", None,
        OrElse(event.resource.taskType, "watering"), event.resource.assignedCropFarm)
    {
      selectedEvent := Some(event.id);
      form := EventForm(event.title, start, event.resource.priority, event.resource.location,
        event.resource.notes, event.resource.recurring, "weekly", None,
        OrElse(event.resource.taskType, "watering"), event.resource.assignedCropFarm);
    }

    /**
     * `handleSubmit`: with no title nothing changes; with a selected event its task is
     * rewritten from the form; otherwise one task, or the recurring series, is appended.
     * `now` is `Date.now()` (the new id) and `today` the date the form is reset to.
     */
    method Submit(now: int, today: Civil) returns (notice: Notice)
      requires Valid() && Dates.Valid(today)
      modifies this
      ensures Valid()
      ensures old(form.title) == "" ==>
        tasks == old(tasks) && form == old(form) && selectedEvent == old(selectedEvent) && notice == ErrorNotice
      ensures old(form.title) != "" ==> notice == SuccessNotice && form == BlankForm(today) && selectedEvent == None
      ensures old(form.title) != "" && old(selectedEvent).Some? ==>
        tasks == ApplyEdit(old(tasks), old(selectedEvent).value, old(form))
      ensures old(form.title) != "" && old(selectedEvent).None? ==>
        var base := NewTask(old(form), now);
        tasks == old(tasks) + if old(form.recurring) && old(form.recurringEnd).Some?
          then RecurringTasks(base, FrequencyOf(old(form.recurringType)), old(form.recurringEnd).value)
          else [base]
    {
      if form.title == "" {
        return ErrorNotice;
      }
      if selectedEvent.Some? {
        tasks := ApplyEdit(tasks, selectedEvent.value, form);
      } else {
        var base := NewTask(form, now);
        if form.recurring && form.recurringEnd.Some? {
          var series := GenerateRecurringTasks(base, FrequencyOf(form.recurringType), form.recurringEnd.value);
          RecurringTasksValid(base, FrequencyOf(form.recurringType), form.recurringEnd.value);
          tasks := tasks + series;
        } else {
          tasks := tasks + [base];
        }
      }
      form := BlankForm(today);
      selectedEvent := None;
      notice := SuccessNotice;
    }

    /** `handleEventDrop`: only the dropped task's due date changes. */
    method EventDrop(eventId: int, start: Civil)
      requires Valid() && Dates.Valid(start)
      modifies this`tasks
      ensures Valid()
      ensures |tasks| == |old(tasks)|
      ensures forall i :: 0 <= i < |tasks| ==>
        tasks[i] == if old(tasks)[i].id == eventId then old(tasks)[i].(dueDate := start) else old(tasks)[i]
    {
      tasks := Reschedule(tasks, eventId, start);
    }

    /** `handleDelete`: with a selected event, drop every task with its id; otherwise nothing happens. */
    method Delete(today: Civil)
      requires Valid() && Dates.Valid(today)
      modifies this
      ensures Valid()
      ensures old(selectedEvent).None? ==> tasks == old(tasks) && form == old(form) && selectedEvent == None
      ensures old(selectedEvent).Some? ==>
        var id := old(selectedEvent).value;
        tasks == Seqs.Filter(old(tasks), (t: Task) => t.id != id) &&
        form == BlankForm(today) && selectedEvent == None
    {
      if selectedEvent.Some? {
        var id := selectedEvent.value;
        tasks := Seqs.Filter(tasks, (t: Task) => t.id != id);
        form := BlankForm(today);
        selectedEvent := None;
      }
    }
  }

  /** The date loaded for an event of `CalendarEvents(tasks)` is its task's due date. */
  lemma SelectedStartIsDueDate(tasks: seq<Task>, i: int, start: Civil)
    requires forall j :: 0 <= j < |tasks| ==> Valid(tasks[j].dueDate)
    requires 0 <= i < |tasks| && Valid(start)
    requires Instant(start) == CalendarEvents(tasks)[i].start
    ensures start == tasks[i].dueDate
  {
    InstantInjective(start, tasks[i].dueDate);
  }

  /** The `baseTask` built from the form: `Date.now()` as id, not completed. */
  function NewTask(form: EventForm, now: int): (t: Task)
    ensures !t.completed && t.id == now && t.title == form.title && t.dueDate == form.start
  {
    Task(now, form.title, form.start, form.priority, form.location, form.notes, false,
      form.recurring, form.taskType, form.assignedCropFarm)
  }

  /** The fields an edit copies from the form onto the task; id and completion stay. */
  function Edited(t: Task, form: EventForm): Task {
    t.(title := form.title, dueDate := form.start, priority := form.priority,
      location := form.location, notes := form.notes, recurring := form.recurring,
      taskType := form.taskType, assignedCropFarm := form.assignedCropFarm)
  }

  /** The `tasks.map` of an edit: every task with the selected id is rewritten, the rest kept, in order. */
  function ApplyEdit(tasks: seq<Task>, id: int, form: EventForm): (r: seq<Task>)
    ensures |r| == |tasks|
    ensures forall i :: 0 <= i < |r| ==>
      && r[i].id == tasks[i].id
      && r[i].completed == tasks[i].completed
      && (tasks[i].id == id ==> r[i] == Edited(tasks[i], form))
      && (tasks[i].id != id ==> r[i] == tasks[i])
  {
    if tasks == [] then []
    else [if tasks[0].id == id then Edited(tasks[0], form) else tasks[0]] + ApplyEdit(tasks[1..], id, form)
  }

  /** The `tasks.map` of `handleEventDrop`. */
  function Reschedule(tasks: seq<Task>, id: int, start: Civil): (r: seq<Task>)
    ensures |r| == |tasks|
    ensures forall i :: 0 <= i < |r| ==>
      r[i] == if tasks[i].id == id then tasks[i].(dueDate := start) else tasks[i]
  {
    if tasks == [] then []
    else [if tasks[0].id == id then tasks[0].(dueDate := start) else tasks[0]] + Reschedule(tasks[1..], id, start)
  }

  /** Deleting keeps, in order, exactly the tasks with another id. */
  lemma DeleteKeepsOthers(tasks: seq<Task>, id: int)
    ensures var r := Seqs.Filter(tasks, (t: Task) => t.id != id);
      && Seqs.IsSubsequence(r, tasks)
      && (forall t :: t in r <==> t in tasks && t.id != id)
  {
    forall t
      ensures t in Seqs.Filter(tasks, (t: Task) => t.id != id) <==> t in tasks && t.id != id
    {
      Seqs.FilterMembers(tasks, (t: Task) => t.id != id, t);
    }
  }

  /** The example of a weekly series: 2024-03-01 to 2024-03-22 gives four copies, the last on the end date. */
  lemma WeeklyExample(base: Task)
    requires base.dueDate == Civil(2024, 3, 1)
    ensures var r := RecurringTasks(base, Weekly, Civil(2024, 3, 22));
      |r| == 4 && r[3].dueDate == Civil(2024, 3, 22) && r[3].title == base.title + " (Week 4)"
  {
    var end := Civil(2024, 3, 22);
    var r := RecurringTasks(base, Weekly, end);
    RecurringTasksMaximal(base, Weekly, end);
    RecurringTasksWithinEnd(base, Weekly, end);
    RecurringTasksCopies(base, Weekly, end);
    var n := |r|;
    OccurrenceArithmetic(Weekly, base.dueDate, n);
    if n > 0 {
      OccurrenceArithmetic(Weekly, base.dueDate, n - 1);
    }
    assert n == 4;
    assert OccurrenceDate(Weekly, base.dueDate, 3) == Civil(2024, 3, 22);
    assert IntToString(4) == "4";
  }
}
