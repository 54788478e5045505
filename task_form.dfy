/**
 * The add / edit form of the to-do demo.  Its fields are initialised from
 * the task being edited when the form is created; as written, a later
 * change of the edited task does not reload them.
 */
module TaskForm {
  import opened Wrappers
  import opened Text
  import opened TaskTypes

  /**
   * The task `handleSubmit` emits, or `None` when the title is blank.  An
   * edited task keeps its id, completion and creation time; a new one gets
   * the fresh id and the current time and starts open.
   */
  function BuildTask(title: string, description: string, priority: Priority, editing: Option<Task>,
                     freshId: string, now: int): (r: Option<Task>)
    ensures r.None? <==> forall k :: 0 <= k < |title| ==> IsSpace(title[k])
    ensures r.Some? ==>
              r.value.title == Trim(title) && r.value.description == Trim(description) && r.value.priority == priority
    ensures r.Some? && editing.Some? ==>
              r.value.id == editing.value.id && r.value.completed == editing.value.completed
              && r.value.createdAt == editing.value.createdAt
    ensures r.Some? && editing.None? ==> r.value.id == freshId && !r.value.completed && r.value.createdAt == now
  {
    if Trim(title) == "" then None
    else match editing
      case Some(e) => Some(Task(e.id, Trim(title), Trim(description), e.completed, e.createdAt, priority))
      case None => Some(Task(freshId, Trim(title), Trim(description), false, now, priority))
  }

  /** A title and description with no surrounding white space. */
  predicate Normalized(t: Task) {
    Trim(t.title) == t.title && Trim(t.description) == t.description
  }

  /** Every task the form emits is normalized and has a non-empty title. */
  lemma BuiltTaskNormalized(title: string, description: string, priority: Priority, editing: Option<Task>,
                            freshId: string, now: int)
    requires BuildTask(title, description, priority, editing, freshId, now).Some?
    ensures var t := BuildTask(title, description, priority, editing, freshId, now).value;
      Normalized(t) && t.title != ""
  {
    TrimIdempotent(title);
    TrimIdempotent(description);
  }

  /** Submitting the edit form of a task without changing its fields reproduces the task. */
  lemma ResubmitUnchanged(e: Task, freshId: string, now: int)
    requires Normalized(e) && e.title != ""
    ensures BuildTask(e.title, e.description, e.priority, Some(e), freshId, now) == Some(e)
  {
  }

  /** The three inputs of the form. */
  datatype Fields = Fields(title: string, description: string, priority: Priority)

  /** The `useState` initialisers: the edited task's fields, or an empty form with medium priority. */
  function InitialFields(editing: Option<Task>): (f: Fields)
    ensures editing.None? ==> f == Fields("", "", Medium)
    ensures editing.Some? ==> f.title == editing.value.title && f.description == editing.value.description
                              && f.priority == editing.value.priority
  {
    match editing
    case Some(e) => Fields(e.title, e.description, e.priority)
    case None => Fields("", "", Medium)
  }

  /** A new `editingTask` prop as the form is written: the field state is kept. */
  function FieldsOnNewPropAsWritten(current: Fields, oldProp: Option<Task>, newProp: Option<Task>): Fields {
    current
  }

  /**
   * A new `editingTask` prop as the form evidently intends: when the prop
   * changes, the fields are loaded from it as at creation.
   */
  function FieldsOnNewProp(current: Fields, oldProp: Option<Task>, newProp: Option<Task>): Fields {
    if newProp == oldProp then current else InitialFields(newProp)
  }

  /**
   * As written, choosing to edit a task in a fresh new-task form leaves the
   * fields empty, so saving the edit without typing is refused; and after
   * an edit is saved, the new-task form still holds the edited text.
   */
  lemma StaleEditForm(t: Task, freshId: string, now: int)
    requires t.title != ""
    ensures var f := FieldsOnNewPropAsWritten(InitialFields(None), None, Some(t));
      BuildTask(f.title, f.description, f.priority, Some(t), freshId, now) == None
    ensures FieldsOnNewPropAsWritten(InitialFields(Some(t)), Some(t), None) != InitialFields(None)
  {
    assert Trim("") == "";
  }

  /**
   * With the fields following the prop, saving an unchanged edit
   * reproduces the task, and leaving edit mode empties the form.
   */
  lemma SyncedEditForm(current: Fields, oldProp: Option<Task>, t: Task, freshId: string, now: int)
    requires Normalized(t) && t.title != "" && oldProp != Some(t)
    ensures var f := FieldsOnNewProp(current, oldProp, Some(t));
      BuildTask(f.title, f.description, f.priority, Some(t), freshId, now) == Some(t)
    ensures FieldsOnNewProp(current, Some(t), None) == InitialFields(None)
  {
    ResubmitUnchanged(t, freshId, now);
  }

  class Form {
    var title: string
    var description: string
    var priority: Priority
    /** The `editingTask` prop. */
    var editingTask: Option<Task>
    /** Whether an `onCancelEdit` callback was passed. */
    const hasCancelEdit: bool

    function Current(): Fields
      reads this
    {
      Fields(title, description, priority)
    }

    /** The `useState` initialisers. */
    constructor(editingTask: Option<Task>, hasCancelEdit: bool)
      ensures this.editingTask == editingTask && this.hasCancelEdit == hasCancelEdit
      ensures Current() == InitialFields(editingTask)
    {
      this.editingTask := editingTask;
      this.hasCancelEdit := hasCancelEdit;
      var f := InitialFields(editingTask);
      title, description, priority := f.title, f.description, f.priority;
    }

    /** A re-render with a new `editingTask` prop, as written: the field state is kept. */
    method ReceiveEditingTask(t: Option<Task>)
      modifies this
      ensures editingTask == t
      ensures Current() == FieldsOnNewPropAsWritten(old(Current()), old(editingTask), t)
    {
      editingTask := t;
    }

    /** A re-render with a new `editingTask` prop, with the fields following a changed prop. */
    method SyncEditingTask(t: Option<Task>)
      modifies this
      ensures editingTask == t
      ensures Current() == FieldsOnNewProp(old(Current()), old(editingTask), t)
    {
      if t != editingTask {
        var f := InitialFields(t);
        title, description, priority := f.title, f.description, f.priority;
      }
      editingTask := t;
    }

    /**
     * `handleSubmit`: rejects a blank title and changes nothing; otherwise
     * emits the built task (the `onAddTask` call), then resets the fields
     * of a new-task form, or asks an edit form's parent to cancel editing.
     */
    method HandleSubmit(freshId: string, now: int) returns (emitted: Option<Task>, cancelEdit: bool)
      modifies this
      ensures emitted == BuildTask(old(title), old(description), old(priority), editingTask, freshId, now)
      ensures editingTask == old(editingTask)
      ensures emitted.None? ==> title == old(title) && description == old(description) && priority == old(priority) && !cancelEdit
      ensures emitted.Some? && editingTask.None? ==> title == "" && description == "" && priority == Medium && !cancelEdit
      ensures emitted.Some? && editingTask.Some? ==>
                title == old(title) && description == old(description) && priority == old(priority)
                && cancelEdit == hasCancelEdit
    {
      emitted := BuildTask(title, description, priority, editingTask, freshId, now);
      cancelEdit := false;
      if emitted.None? {
        return;
      }
      if editingTask.None? {
        title, description, priority := "", "", Medium;
      } else if hasCancelEdit {
        cancelEdit := true;
      }
    }
  }
}
