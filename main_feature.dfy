/**
 * The dashboard's quick-entry panel (src/components/MainFeature.jsx): three
 * lists of crops, tasks and expenses, a form to add to each, a completion
 * toggle on tasks and the expense total. Amounts are whole cents. The area
 * and amount boxes are number inputs, so the form holds the number or `None`
 * while the box is empty.
 */
module MainFeature {
  import opened Wrappers
  import Seqs

  datatype Crop = Crop(id: int, name: string, variety: string, plantingDate: string, status: string, area: real)

  datatype Task = Task(id: int, title: string, dueDate: string, priority: string, completed: bool)

  datatype Expense = Expense(id: int, description: string, amount: int, category: string, date: string)

  datatype CropForm = CropForm(name: string, variety: string, plantingDate: string, area: Option<real>)

  datatype TaskForm = TaskForm(title: string, dueDate: string, priority: string)

  datatype ExpenseForm = ExpenseForm(description: string, amount: Option<int>, category: string, date: string)

  const BlankCropForm := CropForm("", "", "", None)
  const BlankTaskForm := TaskForm("", "", "Medium")
  const BlankExpenseForm := ExpenseForm("", None, "Seeds", "")

  /** The lists the panel opens with. */
  const SeedCrops: seq<Crop> := [
    Crop(1, "Tomatoes", "Cherry", "2024-03-15", "Growing", 2.5),
    Crop(2, "Corn", "Sweet", "2024-04-01", "Sprouting", 5.0)]

  const SeedTasks: seq<Task> := [
    Task(1, "Water Tomatoes", "2024-12-20", "High", false),
    Task(2, "Fertilize Corn", "2024-12-22", "Medium", false)]

  const SeedExpenses: seq<Expense> := [
    Expense(1, "Seeds - Tomato", 4599, "Seeds", "2024-03-15"),
    Expense(2, "Fertilizer", 8950, "Fertilizer", "2024-04-01")]

  /** `!name || !variety || !plantingDate || !area`, negated: every box filled; whitespace counts as filled. */
  predicate CropComplete(form: CropForm) {
    form.name != "" && form.variety != "" && form.plantingDate != "" && form.area.Some?
  }

  /** `!title || !dueDate`, negated: the priority always has a value. */
  predicate TaskComplete(form: TaskForm) {
    form.title != "" && form.dueDate != ""
  }

  predicate ExpenseComplete(form: ExpenseForm) {
    form.description != "" && form.amount.Some? && form.date != ""
  }

  /** The crop `handleAddCrop` records: the form's details, the parsed area, and the status 'Planning'. */
  function NewCrop(id: int, form: CropForm): (c: Crop)
    requires CropComplete(form)
    ensures c.id == id && c.status == "Planning" && c.area == form.area.value
    ensures c.name == form.name && c.variety == form.variety && c.plantingDate == form.plantingDate
  {
    Crop(id, form.name, form.variety, form.plantingDate, "Planning", form.area.value)
  }

  /** The task `handleAddTask` records: not yet completed. */
  function NewTask(id: int, form: TaskForm): (t: Task)
    ensures t.id == id && !t.completed
    ensures t.title == form.title && t.dueDate == form.dueDate && t.priority == form.priority
  {
    Task(id, form.title, form.dueDate, form.priority, false)
  }

  function NewExpense(id: int, form: ExpenseForm): (e: Expense)
    requires ExpenseComplete(form)
    ensures e.id == id && e.amount == form.amount.value
    ensures e.description == form.description && e.category == form.category && e.date == form.date
  {
    Expense(id, form.description, form.amount.value, form.category, form.date)
  }

  /** `{ ...task, completed: !task.completed }` for the task with the id. */
  function Flip(t: Task, taskId: int): Task {
    if t.id == taskId then t.(completed := !t.completed) else t
  }

  /** `toggleTask`'s new list: same length, the matching tasks flipped and nothing else changed. */
  function Toggled(tasks: seq<Task>, taskId: int): (r: seq<Task>)
    ensures |r| == |tasks|
    ensures forall i :: 0 <= i < |r| ==>
      r[i].(completed := tasks[i].completed) == tasks[i] &&
      (r[i].completed <==> (tasks[i].id == taskId) != tasks[i].completed)
  {
    Seqs.Map(tasks, (t: Task) => Flip(t, taskId))
  }

  /** Toggling the same task twice gives the list back. */
  lemma ToggleTwice(tasks: seq<Task>, taskId: int)
    ensures Toggled(Toggled(tasks, taskId), taskId) == tasks
  {
    var r := Toggled(Toggled(tasks, taskId), taskId);
    assert forall i :: 0 <= i < |r| ==> r[i] == tasks[i];
  }

  /** Toggling an id no task has changes nothing. */
  lemma ToggleMissing(tasks: seq<Task>, taskId: int)
    requires forall i :: 0 <= i < |tasks| ==> tasks[i].id != taskId
    ensures Toggled(tasks, taskId) == tasks
  {
    var r := Toggled(tasks, taskId);
    assert forall i :: 0 <= i < |r| ==> r[i] == tasks[i];
  }

  function AmountOf(e: Expense): int {
    e.amount
  }

  /** `expenses.reduce((sum, expense) => sum + expense.amount, 0)`. */
  function Total(expenses: seq<Expense>): int {
    Seqs.Sum(expenses, AmountOf)
  }

  /** Recording an expense raises the total by its amount. */
  lemma TotalAppend(expenses: seq<Expense>, e: Expense)
    ensures Total(expenses + [e]) == Total(expenses) + e.amount
  {
    Seqs.SumAppend(expenses, [e], AmountOf);
  }

  /** The opening total: $45.99 and $89.50. */
  lemma SeedTotal()
    ensures Total(SeedExpenses) == 13549
  {
    assert SeedExpenses[1..][1..] == [];
  }

  /** Every record in the lists has the boxes its form demands filled. */
  predicate CropsValid(crops: seq<Crop>) {
    forall i :: 0 <= i < |crops| ==> crops[i].name != "" && crops[i].variety != "" && crops[i].plantingDate != ""
  }

  predicate TasksValid(tasks: seq<Task>) {
    forall i :: 0 <= i < |tasks| ==> tasks[i].title != "" && tasks[i].dueDate != ""
  }

  predicate ExpensesValid(expenses: seq<Expense>) {
    forall i :: 0 <= i < |expenses| ==> expenses[i].description != "" && expenses[i].date != ""
  }

  /** The panel's state. */
  class Panel {
    var crops: seq<Crop>
    var tasks: seq<Task>
    var expenses: seq<Expense>
    var cropForm: CropForm
    var taskForm: TaskForm
    var expenseForm: ExpenseForm
    var showCropForm: bool
    var showTaskForm: bool
    var showExpenseForm: bool

    predicate Valid()
      reads this
    {
      CropsValid(crops) && TasksValid(tasks) && ExpensesValid(expenses)
    }

    constructor ()
      ensures Valid()
      ensures crops == SeedCrops && tasks == SeedTasks && expenses == SeedExpenses
      ensures cropForm == BlankCropForm && taskForm == BlankTaskForm && expenseForm == BlankExpenseForm
      ensures !showCropForm && !showTaskForm && !showExpenseForm
    {
      crops, tasks, expenses := SeedCrops, SeedTasks, SeedExpenses;
      cropForm, taskForm, expenseForm := BlankCropForm, BlankTaskForm, BlankExpenseForm;
      showCropForm, showTaskForm, showExpenseForm := false, false, false;
    }

    /**
     * `handleAddCrop` under the new crop's `id`: an incomplete form changes
     * nothing; otherwise the crop is appended, the form cleared and closed.
     */
    method AddCrop(id: int) returns (added: bool)
      requires Valid()
      modifies this`crops, this`cropForm, this`showCropForm
      ensures Valid()
      ensures added <==> CropComplete(old(cropForm))
      ensures !added ==> crops == old(crops) && cropForm == old(cropForm) && showCropForm == old(showCropForm)
      ensures added ==> crops == old(crops) + [NewCrop(id, old(cropForm))]
      ensures added ==> cropForm == BlankCropForm && !showCropForm
    {
      if !CropComplete(cropForm) {
        return false;
      }
      crops := crops + [NewCrop(id, cropForm)];
      cropForm := BlankCropForm;
      showCropForm := false;
      added := true;
    }

    /** `handleAddTask`: a missing title or due date changes nothing; otherwise one open task is appended. */
    method AddTask(id: int) returns (added: bool)
      requires Valid()
      modifies this`tasks, this`taskForm, this`showTaskForm
      ensures Valid()
      ensures added <==> TaskComplete(old(taskForm))
      ensures !added ==> tasks == old(tasks) && taskForm == old(taskForm) && showTaskForm == old(showTaskForm)
      ensures added ==> tasks == old(tasks) + [NewTask(id, old(taskForm))]
      ensures added ==> taskForm == BlankTaskForm && !showTaskForm
    {
      if !TaskComplete(taskForm) {
        return false;
      }
      tasks := tasks + [NewTask(id, taskForm)];
      taskForm := BlankTaskForm;
      showTaskForm := false;
      added := true;
    }

    /**
     * `handleAddExpense`: a missing description, amount or date changes
     * nothing; otherwise exactly one expense is appended, so the total grows
     * by its amount (`TotalAppend`).
     */
    method AddExpense(id: int) returns (added: bool)
      requires Valid()
      modifies this`expenses, this`expenseForm, this`showExpenseForm
      ensures Valid()
      ensures added <==> ExpenseComplete(old(expenseForm))
      ensures !added ==> expenses == old(expenses) && expenseForm == old(expenseForm) && showExpenseForm == old(showExpenseForm)
      ensures added ==> expenses == old(expenses) + [NewExpense(id, old(expenseForm))]
      ensures added ==> Total(expenses) == Total(old(expenses)) + old(expenseForm).amount.value
      ensures added ==> expenseForm == BlankExpenseForm && !showExpenseForm
    {
      if !ExpenseComplete(expenseForm) {
        return false;
      }
      var e := NewExpense(id, expenseForm);
      TotalAppend(expenses, e);
      expenses := expenses + [e];
      expenseForm := BlankExpenseForm;
      showExpenseForm := false;
      added := true;
    }

    /** `toggleTask`. */
    method ToggleTask(taskId: int)
      requires Valid()
      modifies this`tasks
      ensures Valid()
      ensures tasks == Toggled(old(tasks), taskId)
    {
      tasks := Toggled(tasks, taskId);
    }
  }
}
