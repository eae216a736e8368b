/** The list component that keeps its own task collection (the one the
    application mounts): the load, the page and filter state, the form state
    and its own copies of the add, update and delete handlers. The derived
    view is the same `TaskView` computation the provider-backed list uses. */
module StandaloneList {
  import opened Tasks
  import opened Reconcile
  import opened TaskView

  /** The request an edit submits: the selected task's id in the path, the
      form's title and body, and the selected task's owner in place of
      whatever owner the form carries. */
  function EditRequest(selected: Task, form: Draft): (call: UpdateCall)
    ensures call.id == selected.id && call.fields.userId == selected.userId
    ensures call.fields.title == form.title && call.fields.body == form.body
    ensures call.completed == None
  {
    UpdateCall(selected.id, form.(userId := selected.userId), None)
  }

  class List {
    var tasks: seq<Task>
    var loading: bool
    var error: Option<string>
    var currentPage: int
    var filter: StatusFilter
    var selectedTask: Option<Task>
    var isModalOpen: bool
    var isAdding: bool

    /** The page number never drops below 1. */
    ghost predicate Valid()
      reads this
    {
      currentPage >= 1
    }

    /** A freshly mounted list: loading, no tasks, no error, page 1, all. */
    constructor ()
      ensures Valid()
      ensures tasks == [] && loading && error == None
      ensures currentPage == 1 && filter == All
      ensures selectedTask == None && !isModalOpen && !isAdding
    {
      tasks, loading, error := [], true, None;
      currentPage, filter := 1, All;
      selectedTask, isModalOpen, isAdding := None, false, false;
    }

    /** `fetchTasks`, run by the mount effect while the load is pending: a
        successful response replaces the tasks, a failed one records the load
        error; either way loading ends, and nothing starts it again. */
    method FetchTasks(response: Remote<seq<Task>>)
      requires Valid() && loading
      modifies this
      ensures Valid() && !loading
      ensures response.Success? ==> tasks == response.value && error == old(error)
      ensures response.Failure? ==> tasks == old(tasks) && error == Some(LoadError)
      ensures currentPage == old(currentPage) && filter == old(filter)
      ensures selectedTask == old(selectedTask) && isModalOpen == old(isModalOpen) && isAdding == old(isAdding)
    {
      match response {
        case Success(data) =>
          tasks := data;
          loading := false;
        case Failure =>
          error := Some(LoadError);
          loading := false;
      }
    }

    function PageCount(): nat
      reads this
    {
      TotalPages(|Filtered(tasks, filter)|)
    }

    /** `paginatedTasks`: the rows on screen. */
    function Rows(): seq<Task>
      requires Valid()
      reads this
    {
      Visible(tasks, filter, currentPage)
    }

    /** `handlePageChange`: moves to the requested page only when it exists. */
    method HandlePageChange(page: int)
      requires Valid()
      modifies this
      ensures Valid()
      ensures currentPage == ChangePage(old(currentPage), page, old(PageCount()))
      ensures tasks == old(tasks) && filter == old(filter)
      ensures selectedTask == old(selectedTask) && isModalOpen == old(isModalOpen) && isAdding == old(isAdding)
      ensures loading == old(loading) && error == old(error)
    {
      currentPage := ChangePage(currentPage, page, PageCount());
    }

    /** A filter button: the filter changes and the page number is kept, so
        the rows shown are empty once the page is past the new last page. */
    method SetFilter(f: StatusFilter)
      requires Valid()
      modifies this
      ensures Valid()
      ensures filter == f && currentPage == old(currentPage) && tasks == old(tasks)
      ensures currentPage > PageCount() ==> Rows() == []
      ensures selectedTask == old(selectedTask) && isModalOpen == old(isModalOpen) && isAdding == old(isAdding)
      ensures loading == old(loading) && error == old(error)
    {
      filter := f;
    }

    /** The "add" button opens the form on a blank task. */
    method OpenAdd()
      requires Valid()
      modifies this
      ensures Valid() && tasks == old(tasks) && currentPage == old(currentPage) && filter == old(filter)
      ensures selectedTask == Some(BlankTask) && isAdding && isModalOpen
      ensures loading == old(loading) && error == old(error)
    {
      selectedTask, isAdding, isModalOpen := Some(BlankTask), true, true;
    }

    /** `handleEditTask`: opens the form on the chosen task. */
    method HandleEditTask(t: Task)
      requires Valid()
      modifies this
      ensures Valid() && tasks == old(tasks) && currentPage == old(currentPage) && filter == old(filter)
      ensures selectedTask == Some(t) && !isAdding && isModalOpen
      ensures loading == old(loading) && error == old(error)
    {
      selectedTask, isAdding, isModalOpen := Some(t), false, true;
    }

    /** `handleAddTask`: sends the form's fields as they are; the created task
        goes to the front on success, and a failure is only logged. The form is
        left as it is. */
    method HandleAddTask(form: Draft, result: Remote<Task>) returns (sent: Draft)
      requires Valid()
      modifies this
      ensures Valid() && currentPage == old(currentPage) && filter == old(filter)
      ensures sent == form
      ensures tasks == (if result.Success? then Prepend(result.value, old(tasks)) else old(tasks))
      ensures loading == old(loading) && error == old(error)
      ensures selectedTask == old(selectedTask) && isModalOpen == old(isModalOpen) && isAdding == old(isAdding)
    {
      sent := form;
      if result.Success? {
        tasks := Prepend(result.value, tasks);
      }
    }

    /** `handleUpdateTask`: with no task selected nothing is sent and nothing
        changes. Otherwise the edit request goes out; on success every entry
        carrying the returned id becomes the returned task and the form
        closes and forgets the selection; on failure nothing changes. */
    method HandleUpdateTask(form: Draft, result: Remote<Task>) returns (call: Option<UpdateCall>)
      requires Valid()
      modifies this
      ensures Valid() && currentPage == old(currentPage) && filter == old(filter)
      ensures loading == old(loading) && error == old(error) && isAdding == old(isAdding)
      ensures old(selectedTask).None? ==>
                call == None && tasks == old(tasks) && selectedTask == None && isModalOpen == old(isModalOpen)
      ensures old(selectedTask).Some? ==> call == Some(EditRequest(old(selectedTask).value, form))
      ensures old(selectedTask).Some? && result.Success? ==>
                tasks == ReplaceById(old(tasks), result.value) && !isModalOpen && selectedTask == None
      ensures old(selectedTask).Some? && result.Failure? ==>
                tasks == old(tasks) && isModalOpen == old(isModalOpen) && selectedTask == old(selectedTask)
    {
      call := None;
      if selectedTask.Some? {
        call := Some(EditRequest(selectedTask.value, form));
        if result.Success? {
          tasks := ReplaceById(tasks, result.value);
          isModalOpen := false;
          selectedTask := None;
        }
      }
    }

    /** `handleDeleteTask`: on success every entry with the id is dropped; a
        failure is only logged. */
    method HandleDeleteTask(id: int, result: Outcome)
      requires Valid()
      modifies this
      ensures Valid() && currentPage == old(currentPage) && filter == old(filter)
      ensures tasks == (if result == Done then RemoveById(old(tasks), id) else old(tasks))
      ensures loading == old(loading) && error == old(error)
      ensures selectedTask == old(selectedTask) && isModalOpen == old(isModalOpen) && isAdding == old(isAdding)
    {
      if result == Done {
        tasks := RemoveById(tasks, id);
      }
    }

    /** Closing the form. */
    method CloseModal()
      requires Valid()
      modifies this
      ensures Valid() && tasks == old(tasks) && currentPage == old(currentPage) && filter == old(filter)
      ensures !isModalOpen && selectedTask == old(selectedTask) && isAdding == old(isAdding)
      ensures loading == old(loading) && error == old(error)
    {
      isModalOpen := false;
    }
  }

  /** Mounting the list and letting its load settle: the fetched tasks and no
      error on success, the load error and no tasks on failure; not loading
      either way, on page 1 of all tasks. */
  method InitialLoad(response: Remote<seq<Task>>) returns (tasks: seq<Task>, loading: bool, error: Option<string>, page: int)
    ensures !loading && page == 1
    ensures response.Success? ==> tasks == response.value && error == None
    ensures response.Failure? ==> tasks == [] && error == Some(LoadError)
  {
    var list := new List();
    list.FetchTasks(response);
    tasks, loading, error, page := list.tasks, list.loading, list.error, list.currentPage;
  }

  /** After a successful load, page 1 shows the first ten tasks the chosen
      filter lets through, in collection order. */
  method FirstPageAfterLoad(data: seq<Task>, f: StatusFilter) returns (rows: seq<Task>)
    ensures |rows| <= PageSize
    ensures rows == Filtered(data, f)[..if |Filtered(data, f)| < PageSize then |Filtered(data, f)| else PageSize]
  {
    var list := new List();
    list.FetchTasks(Success(data));
    list.SetFilter(f);
    rows := list.Rows();
    var s := Filtered(data, f);
    assert |rows| == (if |s| < PageSize then |s| else PageSize);
  }
}
