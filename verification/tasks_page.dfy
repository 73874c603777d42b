/** The task manager page: a list of tasks with a category list and a
    filter over category and completion. */
module TasksPage {
  import opened Lists
  import opened Categories

  /** `dueDate` is kept as the opaque text of the chosen date. */
  datatype Task = Task(
    id: string,
    title: string,
    description: string,
    dueDate: string,
    category: string,
    assignedTo: string,
    completed: bool)

  /** The new-task form; a field the user never touched is "". */
  datatype TaskDraft = TaskDraft(
    title: string, description: string, dueDate: string, category: string, assignedTo: string)

  const EmptyTaskDraft := TaskDraft("", "", "", "", "")

  /** The task `addTask` builds from the form: the fresh id, not completed. */
  function DraftToTask(d: TaskDraft, id: string): Task {
    Task(id, d.title, d.description, d.dueDate, d.category, d.assignedTo, false)
  }

  function HasIdOf(u: Task): Task -> bool {
    (t: Task) => t.id == u.id
  }

  function Category(t: Task): string { t.category }

  /** `String(completed)`. */
  function BoolText(b: bool): string {
    if b then "true" else "false"
  }

  /** The category and completion selects; "" means no filter. */
  datatype TaskFilter = TaskFilter(category: string, completed: string)

  predicate TaskMatches(t: Task, f: TaskFilter) {
    (f.category == "" || t.category == f.category)
    && (f.completed == "" || BoolText(t.completed) == f.completed)
  }

  /** `filteredTasks`. */
  function FilteredTasks(ts: seq<Task>, f: TaskFilter): (r: seq<Task>)
    ensures forall t :: t in r <==> t in ts && TaskMatches(t, f)
    ensures IsSubsequence(r, ts)
    ensures forall t :: multiset(r)[t] == if TaskMatches(t, f) then multiset(ts)[t] else 0
  {
    FilterCounts(ts, (t: Task) => TaskMatches(t, f));
    FilterIsSubsequence(ts, (t: Task) => TaskMatches(t, f));
    Filter(ts, (t: Task) => TaskMatches(t, f))
  }

  /** The initial filter shows every task. */
  lemma InitialFilterShowsAllTasks(ts: seq<Task>)
    ensures FilteredTasks(ts, TaskFilter("", "")) == ts
  {
    FilterKeepsAll(ts, (t: Task) => TaskMatches(t, TaskFilter("", "")));
  }

  /** As written, the completion entry "all" is compared with
      `String(completed)` like any other value, so it hides every task. */
  lemma AllCompletedShowsNothing(ts: seq<Task>, category: string)
    ensures FilteredTasks(ts, TaskFilter(category, "all")) == []
  {
    FilterKeepsNone(ts, (t: Task) => TaskMatches(t, TaskFilter(category, "all")));
  }

  /** The filter the "all" entries were evidently meant to give. */
  function IntendedFilteredTasks(ts: seq<Task>, f: TaskFilter): (r: seq<Task>)
    ensures forall t :: t in r <==> t in ts && TaskMatches(t, TaskFilter(Unrestricted(f.category), Unrestricted(f.completed)))
    ensures IsSubsequence(r, ts)
    ensures forall t :: multiset(r)[t] == if TaskMatches(t, TaskFilter(Unrestricted(f.category), Unrestricted(f.completed))) then multiset(ts)[t] else 0
  {
    FilteredTasks(ts, TaskFilter(Unrestricted(f.category), Unrestricted(f.completed)))
  }

  /** With the intended reading "all" in both selects shows every task. */
  lemma IntendedAllShowsEveryTask(ts: seq<Task>)
    ensures IntendedFilteredTasks(ts, TaskFilter("all", "all")) == ts
  {
    InitialFilterShowsAllTasks(ts);
  }

  /** The checkbox of a task, whose id no other task shares, goes through
      `updateTask` with the task's `completed` flag set: only that flag of
      that task changes. */
  lemma CheckboxChangesOnlyThatTask(ts: seq<Task>, k: nat, checked: bool)
    requires k < |ts|
    requires forall j :: 0 <= j < |ts| && j != k ==> ts[j].id != ts[k].id
    ensures ReplaceWhere(ts, HasIdOf(ts[k].(completed := checked)), ts[k].(completed := checked))
            == ts[k := ts[k].(completed := checked)]
  {
  }

  /** The task manager's state. */
  class TaskManagement {
    var tasks: seq<Task>
    var newTask: TaskDraft
    var categories: seq<string>
    var newCategory: string
    var filter: TaskFilter

    constructor ()
      ensures tasks == [] && newTask == EmptyTaskDraft
      ensures categories == [] && newCategory == "" && filter == TaskFilter("", "")
    {
      tasks := [];
      newTask := EmptyTaskDraft;
      categories := [];
      newCategory := "";
      filter := TaskFilter("", "");
    }

    /** The load effect, with the fetched tasks as a parameter: the
        categories become the distinct task categories. */
    method Load(data: seq<Task>)
      modifies this`tasks, this`categories
      ensures tasks == data
      ensures categories == InitialCategories(Map(data, Category))
    {
      tasks := data;
      categories := InitialCategories(Map(data, Category));
    }

    /** `addTask`: one task, not completed, is appended from the form,
        which is then cleared; nothing is validated. */
    method AddTask(id: string)
      modifies this`tasks, this`newTask
      ensures tasks == old(tasks) + [DraftToTask(old(newTask), id)]
      ensures newTask == EmptyTaskDraft
    {
      tasks := tasks + [DraftToTask(newTask, id)];
      newTask := EmptyTaskDraft;
    }

    /** `updateTask`: every task with the edited task's id is replaced by
        it; length and order are kept. */
    method UpdateTask(updated: Task)
      modifies this`tasks
      ensures tasks == ReplaceWhere(old(tasks), HasIdOf(updated), updated)
    {
      tasks := ReplaceWhere(tasks, HasIdOf(updated), updated);
    }

    /** The completion checkbox of the task at `k`. */
    method SetCompleted(k: nat, checked: bool)
      requires k < |tasks|
      modifies this`tasks
      ensures tasks == ReplaceWhere(old(tasks), HasIdOf(old(tasks)[k].(completed := checked)),
                                    old(tasks)[k].(completed := checked))
    {
      UpdateTask(tasks[k].(completed := checked));
    }

    /** `addCategory`: the form is cleared only when the name was added. */
    method AddCategory()
      modifies this`categories, this`newCategory
      ensures categories == WithCategory(old(categories), old(newCategory))
      ensures newCategory == if categories == old(categories) then old(newCategory) else ""
    {
      if newCategory != "" && newCategory !in categories {
        categories := categories + [newCategory];
        newCategory := "";
      }
    }
  }
}
