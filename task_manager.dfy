/**
 * The state of the to-do demo: the task list and the task being edited,
 * with the handlers that add, edit, toggle and delete tasks.  Tasks are
 * kept in memory only.
 */
module TaskManager {
  import opened Wrappers
  import opened Seqs
  import opened TaskTypes
  import opened TaskList
  import opened TaskForm

  /** `tasks.map(t => t.id === task.id ? task : t)`. */
  function ReplaceById(tasks: seq<Task>, task: Task): (r: seq<Task>)
    ensures |r| == |tasks|
    ensures forall i :: 0 <= i < |tasks| && tasks[i].id == task.id ==> r[i] == task
    ensures forall i :: 0 <= i < |tasks| && tasks[i].id != task.id ==> r[i] == tasks[i]
  {
    Map((t: Task) => if t.id == task.id then task else t, tasks)
  }

  /** The task with `completed` flipped. */
  function Flip(t: Task): Task {
    t.(completed := !t.completed)
  }

  /** `tasks.map(task => task.id === id ? { ...task, completed: !task.completed } : task)`. */
  function ToggleById(tasks: seq<Task>, id: string): (r: seq<Task>)
    ensures |r| == |tasks|
    ensures forall i :: 0 <= i < |tasks| && tasks[i].id == id ==>
              r[i].completed == !tasks[i].completed && r[i].(completed := tasks[i].completed) == tasks[i]
    ensures forall i :: 0 <= i < |tasks| && tasks[i].id != id ==> r[i] == tasks[i]
  {
    Map((t: Task) => if t.id == id then Flip(t) else t, tasks)
  }

  /** `tasks.filter(task => task.id !== id)`. */
  function RemoveById(tasks: seq<Task>, id: string): (r: seq<Task>)
    ensures forall t :: t in r <==> t in tasks && t.id != id
    ensures forall t: Task :: t.id != id ==> multiset(r)[t] == multiset(tasks)[t]
  {
    Filter((t: Task) => t.id != id, tasks)
  }

  /** `tasks.find(task => task.id === id)`. */
  function FindById(tasks: seq<Task>, id: string): (r: Option<Task>)
    ensures r.None? <==> forall i :: 0 <= i < |tasks| ==> tasks[i].id != id
    ensures r.Some? ==> r.value.id == id && r.value in tasks
    ensures r.Some? ==> exists i :: IsFirst((t: Task) => t.id == id, tasks, i) && tasks[i] == r.value
  {
    Find((t: Task) => t.id == id, tasks)
  }

  /** Toggling the same id twice restores the list. */
  lemma ToggleTwice(tasks: seq<Task>, id: string)
    ensures ToggleById(ToggleById(tasks, id), id) == tasks
  {
    var once := ToggleById(tasks, id);
    var twice := ToggleById(once, id);
    forall i | 0 <= i < |tasks| ensures twice[i] == tasks[i] {
      assert once[i].id == tasks[i].id;
    }
  }

  /** Deleting an id no task has changes nothing. */
  lemma {:induction false} RemoveAbsent(tasks: seq<Task>, id: string)
    requires FindById(tasks, id).None?
    ensures RemoveById(tasks, id) == tasks
  {
    FilterKeepsAll((t: Task) => t.id != id, tasks);
  }

  /** Deletion keeps the order of the tasks it keeps: it works piece by piece. */
  lemma RemoveKeepsOrder(a: seq<Task>, b: seq<Task>, t: Task, id: string)
    ensures RemoveById(a + b, id) == RemoveById(a, id) + RemoveById(b, id)
    ensures RemoveById([t], id) == if t.id == id then [] else [t]
  {
    FilterConcat((t: Task) => t.id != id, a, b);
  }

  class Manager {
    var tasks: seq<Task>
    var editingTask: Option<Task>
    var searchQuery: string
    var filterOption: FilterOption
    var sortOption: SortOption

    /** The initial state: no tasks, nothing edited, empty search, all tasks, newest first. */
    constructor()
      ensures tasks == [] && editingTask == None
      ensures searchQuery == "" && filterOption == All && sortOption == ByDate
    {
      tasks, editingTask := [], None;
      searchQuery, filterOption, sortOption := "", All, ByDate;
    }

    /** The list the view renders. */
    function Visible(): seq<Task>
      reads this
    {
      VisibleTasks(tasks, searchQuery, filterOption, sortOption)
    }

    /** `handleAddTask`: replaces the edited task by id and stops editing, or prepends a new task. */
    method HandleAddTask(task: Task)
      modifies this
      ensures old(editingTask).Some? ==> tasks == ReplaceById(old(tasks), task) && editingTask == None
      ensures old(editingTask).None? ==> tasks == [task] + old(tasks) && editingTask == None
      ensures searchQuery == old(searchQuery) && filterOption == old(filterOption) && sortOption == old(sortOption)
    {
      if editingTask.Some? {
        tasks := ReplaceById(tasks, task);
        editingTask := None;
      } else {
        tasks := [task] + tasks;
      }
    }

    /** `handleToggleComplete`. */
    method HandleToggleComplete(id: string)
      modifies this
      ensures tasks == ToggleById(old(tasks), id)
      ensures editingTask == old(editingTask)
      ensures searchQuery == old(searchQuery) && filterOption == old(filterOption) && sortOption == old(sortOption)
    {
      tasks := ToggleById(tasks, id);
    }

    /** `handleEditTask`: only the edited task changes. */
    method HandleEditTask(task: Task)
      modifies this
      ensures editingTask == Some(task) && tasks == old(tasks)
      ensures searchQuery == old(searchQuery) && filterOption == old(filterOption) && sortOption == old(sortOption)
    {
      editingTask := Some(task);
    }

    /** The `onCancelEdit` callback. */
    method CancelEdit()
      modifies this
      ensures editingTask == None && tasks == old(tasks)
      ensures searchQuery == old(searchQuery) && filterOption == old(filterOption) && sortOption == old(sortOption)
    {
      editingTask := None;
    }

    /**
     * `handleDeleteTask`: returns the task named in the "deleted" message;
     * when no task has the id, nothing happens.
     */
    method HandleDeleteTask(id: string) returns (deleted: Option<Task>)
      modifies this
      ensures deleted == FindById(old(tasks), id)
      ensures tasks == RemoveById(old(tasks), id)
      ensures deleted.None? ==> tasks == old(tasks)
      ensures editingTask == old(editingTask)
      ensures searchQuery == old(searchQuery) && filterOption == old(filterOption) && sortOption == old(sortOption)
    {
      deleted := FindById(tasks, id);
      if deleted.None? {
        RemoveAbsent(tasks, id);
        return;
      }
      tasks := RemoveById(tasks, id);
    }
  }

  /**
   * The form wired to the manager as the manager renders it: `editingTask`
   * as its prop, `handleAddTask` as `onAddTask` and clearing the edited task
   * as `onCancelEdit`; afterwards the form receives the new prop, with
   * its fields following a changed prop.
   */
  method SubmitForm(m: Manager, f: Form, freshId: string, now: int)
    requires f.editingTask == m.editingTask && f.hasCancelEdit
    modifies m, f
    ensures f.editingTask == m.editingTask
    ensures m.searchQuery == old(m.searchQuery) && m.filterOption == old(m.filterOption)
            && m.sortOption == old(m.sortOption)
    ensures old(m.editingTask).Some? && m.editingTask.None? ==> f.Current() == InitialFields(None)
    ensures BuildTask(old(f.title), old(f.description), old(f.priority), old(m.editingTask), freshId, now).None? ==>
              m.tasks == old(m.tasks) && m.editingTask == old(m.editingTask) && f.Current() == old(f.Current())
    ensures var built := BuildTask(old(f.title), old(f.description), old(f.priority), old(m.editingTask), freshId, now);
      built.Some? && old(m.editingTask).None? ==>
        m.tasks == [built.value] + old(m.tasks) && m.editingTask == None
        && f.title == "" && f.description == "" && f.priority == Medium
    ensures var built := BuildTask(old(f.title), old(f.description), old(f.priority), old(m.editingTask), freshId, now);
      built.Some? && old(m.editingTask).Some? ==>
        built.value.id == old(m.editingTask).value.id
        && m.tasks == ReplaceById(old(m.tasks), built.value) && m.editingTask == None
  {
    var emitted, cancelEdit := f.HandleSubmit(freshId, now);
    if emitted.None? {
      f.SyncEditingTask(m.editingTask);
      return;
    }
    ghost var editing := m.editingTask;
    m.HandleAddTask(emitted.value);
    assert m.editingTask == None;
    if cancelEdit {
      m.CancelEdit();
    }
    f.SyncEditingTask(m.editingTask);
    assert editing.Some? ==> f.Current() == InitialFields(None);
  }

  /**
   * The edit button wired to the form: the manager records the task and
   * the form, receiving it as its prop, loads its fields.
   */
  method EditInForm(m: Manager, f: Form, task: Task)
    requires f.editingTask == m.editingTask
    modifies m, f
    ensures m.editingTask == Some(task) && m.tasks == old(m.tasks) && f.editingTask == m.editingTask
    ensures m.searchQuery == old(m.searchQuery) && m.filterOption == old(m.filterOption)
            && m.sortOption == old(m.sortOption)
    ensures old(m.editingTask) != Some(task) ==> f.Current() == InitialFields(Some(task))
    ensures old(m.editingTask) == Some(task) ==> f.Current() == old(f.Current())
  {
    m.HandleEditTask(task);
    f.SyncEditingTask(m.editingTask);
  }
}
