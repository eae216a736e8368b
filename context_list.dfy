/** The list component that reads its tasks from the task provider: its own
    page and filter state, the derived page it shows, and the handlers that
    build requests and forward them to the provider. */
module ContextList {
  import opened Tasks
  import opened Reconcile
  import opened TaskView
  import opened TaskContext

  /** The task a creation form submits: the form's fields, id 0 (not yet
      created) and not completed. */
  function AddRequest(form: Draft): (t: Task)
    ensures t.id == 0 && !t.completed
    ensures DraftOf(t) == form
  {
    Task(form.userId, 0, form.title, form.body, false)
  }

  /** The task a confirmed toggle sends: the original with `completed`
      negated and every other field kept. */
  function ToggleRequest(t: Task): (r: Task)
    ensures r.completed != t.completed
    ensures r.id == t.id && DraftOf(r) == DraftOf(t)
  {
    t.(completed := !t.completed)
  }

  /** Toggling twice gives back the original task. */
  lemma ToggleTwice(t: Task)
    ensures ToggleRequest(ToggleRequest(t)) == t
  {
  }

  class List {
    const store: TaskProvider
    var currentPage: int
    var filter: StatusFilter
    var selectedTask: Option<Task>
    var isModalOpen: bool
    var isAdding: bool
    var isConfirmingDelete: bool
    var taskToDelete: Option<Task>
    var isConfirmingToggle: bool
    var taskToToggle: Option<Task>

    /** The page number never drops below 1. */
    ghost predicate Valid()
      reads this
    {
      currentPage >= 1
    }

    constructor (store: TaskProvider)
      ensures this.store == store && Valid()
      ensures currentPage == 1 && filter == All
      ensures selectedTask == None && !isModalOpen && !isAdding
      ensures !isConfirmingDelete && taskToDelete == None
      ensures !isConfirmingToggle && taskToToggle == None
    {
      this.store := store;
      currentPage, filter := 1, All;
      selectedTask, isModalOpen, isAdding := None, false, false;
      isConfirmingDelete, taskToDelete := false, None;
      isConfirmingToggle, taskToToggle := false, None;
    }

    /** `totalPages` of the current filter over the provider's tasks. */
    function PageCount(): nat
      reads this, store
    {
      TotalPages(|Filtered(store.tasks, filter)|)
    }

    /** `paginatedTasks`: the rows on screen. */
    function Rows(): seq<Task>
      requires Valid()
      reads this, store
    {
      Visible(store.tasks, filter, currentPage)
    }

    /** `handlePageChange`: moves to the requested page only when it exists. */
    method HandlePageChange(page: int)
      requires Valid()
      modifies this
      ensures Valid()
      ensures currentPage == ChangePage(old(currentPage), page, old(PageCount()))
      ensures filter == old(filter) && store.tasks == old(store.tasks)
      ensures selectedTask == old(selectedTask) && isModalOpen == old(isModalOpen) && isAdding == old(isAdding)
      ensures isConfirmingDelete == old(isConfirmingDelete) && taskToDelete == old(taskToDelete)
      ensures isConfirmingToggle == old(isConfirmingToggle) && taskToToggle == old(taskToToggle)
    {
      currentPage := ChangePage(currentPage, page, PageCount());
    }

    /** A filter button: the filter changes and the page number is kept, so
        the rows shown are empty once the page is past the new last page. */
    method SetFilter(f: StatusFilter)
      requires Valid()
      modifies this
      ensures Valid()
      ensures filter == f && currentPage == old(currentPage)
      ensures currentPage > PageCount() ==> Rows() == []
      ensures selectedTask == old(selectedTask) && isModalOpen == old(isModalOpen) && isAdding == old(isAdding)
      ensures isConfirmingDelete == old(isConfirmingDelete) && taskToDelete == old(taskToDelete)
      ensures isConfirmingToggle == old(isConfirmingToggle) && taskToToggle == old(taskToToggle)
    {
      filter := f;
    }

    /** The "add" button opens the form on a blank task. */
    method OpenAdd()
      requires Valid()
      modifies this
      ensures Valid() && currentPage == old(currentPage) && filter == old(filter)
      ensures selectedTask == Some(BlankTask) && isAdding && isModalOpen
      ensures isConfirmingDelete == old(isConfirmingDelete) && taskToDelete == old(taskToDelete)
      ensures isConfirmingToggle == old(isConfirmingToggle) && taskToToggle == old(taskToToggle)
    {
      selectedTask, isAdding, isModalOpen := Some(BlankTask), true, true;
    }

    /** `handleEditTask`: opens the form on the chosen task. */
    method HandleEditTask(t: Task)
      requires Valid()
      modifies this
      ensures Valid() && currentPage == old(currentPage) && filter == old(filter)
      ensures selectedTask == Some(t) && !isAdding && isModalOpen
      ensures isConfirmingDelete == old(isConfirmingDelete) && taskToDelete == old(taskToDelete)
      ensures isConfirmingToggle == old(isConfirmingToggle) && taskToToggle == old(taskToToggle)
    {
      selectedTask, isAdding, isModalOpen := Some(t), false, true;
    }

    /** `handleAddTask`: forwards the creation request to the provider, which
        prepends the created task on success, then closes the form whatever
        the outcome (the provider only logs failures). */
    method HandleAddTask(form: Draft, result: Remote<Task>) returns (sent: Task)
      requires Valid()
      modifies this, store
      ensures Valid() && currentPage == old(currentPage) && filter == old(filter)
      ensures sent == AddRequest(form)
      ensures store.tasks == (if result.Success? then Prepend(result.value, old(store.tasks)) else old(store.tasks))
      ensures store.loading == old(store.loading) && store.error == old(store.error)
      ensures !isModalOpen && selectedTask == old(selectedTask) && isAdding == old(isAdding)
      ensures isConfirmingDelete == old(isConfirmingDelete) && taskToDelete == old(taskToDelete)
      ensures isConfirmingToggle == old(isConfirmingToggle) && taskToToggle == old(taskToToggle)
    {
      sent := AddRequest(form);
      store.AddTask(result);
      isModalOpen := false;
    }

    /** The delete button asks for confirmation. */
    method RequestDelete(t: Task)
      requires Valid()
      modifies this
      ensures Valid() && currentPage == old(currentPage) && filter == old(filter)
      ensures taskToDelete == Some(t) && isConfirmingDelete
      ensures selectedTask == old(selectedTask) && isModalOpen == old(isModalOpen) && isAdding == old(isAdding)
      ensures isConfirmingToggle == old(isConfirmingToggle) && taskToToggle == old(taskToToggle)
    {
      taskToDelete, isConfirmingDelete := Some(t), true;
    }

    /** `handleConfirmDelete`: deletes the remembered task through the
        provider and clears the confirmation; with no task remembered it does
        nothing. */
    method HandleConfirmDelete(result: Outcome)
      requires Valid()
      modifies this, store
      ensures Valid() && currentPage == old(currentPage) && filter == old(filter)
      ensures old(taskToDelete).None? ==>
                store.tasks == old(store.tasks) && isConfirmingDelete == old(isConfirmingDelete) && taskToDelete == None
      ensures old(taskToDelete).Some? ==>
                && store.tasks == (if result == Done then RemoveById(old(store.tasks), old(taskToDelete).value.id)
                                   else old(store.tasks))
                && !isConfirmingDelete && taskToDelete == None
      ensures store.loading == old(store.loading) && store.error == old(store.error)
      ensures selectedTask == old(selectedTask) && isModalOpen == old(isModalOpen) && isAdding == old(isAdding)
      ensures isConfirmingToggle == old(isConfirmingToggle) && taskToToggle == old(taskToToggle)
    {
      if taskToDelete.Some? {
        store.DeleteTask(taskToDelete.value.id, result);
        isConfirmingDelete, taskToDelete := false, None;
      }
    }

    /** The status button asks for confirmation. */
    method RequestToggle(t: Task)
      requires Valid()
      modifies this
      ensures Valid() && currentPage == old(currentPage) && filter == old(filter)
      ensures taskToToggle == Some(t) && isConfirmingToggle
      ensures selectedTask == old(selectedTask) && isModalOpen == old(isModalOpen) && isAdding == old(isAdding)
      ensures isConfirmingDelete == old(isConfirmingDelete) && taskToDelete == old(taskToDelete)
    {
      taskToToggle, isConfirmingToggle := Some(t), true;
    }

    /** `handleConfirmToggle`: sends the remembered task with its status
        flipped through the provider and clears the confirmation; with no task
        remembered it sends nothing. */
    method HandleConfirmToggle(result: Remote<Task>) returns (call: Option<UpdateCall>)
      requires Valid()
      modifies this, store
      ensures Valid() && currentPage == old(currentPage) && filter == old(filter)
      ensures old(taskToToggle).None? ==>
                call == None && store.tasks == old(store.tasks)
                && isConfirmingToggle == old(isConfirmingToggle) && taskToToggle == None
      ensures old(taskToToggle).Some? ==>
                var sent := ToggleRequest(old(taskToToggle).value);
                && call == Some(UpdateCall(sent.id, DraftOf(sent), Some(sent.completed)))
                && store.tasks == (if result.Success? then ReplaceById(old(store.tasks), result.value)
                                   else old(store.tasks))
                && !isConfirmingToggle && taskToToggle == None
      ensures store.loading == old(store.loading) && store.error == old(store.error)
      ensures selectedTask == old(selectedTask) && isModalOpen == old(isModalOpen) && isAdding == old(isAdding)
      ensures isConfirmingDelete == old(isConfirmingDelete) && taskToDelete == old(taskToDelete)
    {
      call := None;
      if taskToToggle.Some? {
        var c := store.UpdateTask(ToggleRequest(taskToToggle.value), result);
        call := Some(c);
        isConfirmingToggle, taskToToggle := false, None;
      }
    }

    /** Closing the form. */
    method CloseModal()
      requires Valid()
      modifies this
      ensures Valid() && currentPage == old(currentPage) && filter == old(filter)
      ensures !isModalOpen && selectedTask == old(selectedTask) && isAdding == old(isAdding)
      ensures isConfirmingDelete == old(isConfirmingDelete) && taskToDelete == old(taskToDelete)
      ensures isConfirmingToggle == old(isConfirmingToggle) && taskToToggle == old(taskToToggle)
    {
      isModalOpen := false;
    }
  }
}
