/** The task provider: the shared task collection with its load status, and
    the handlers that rebuild the collection after a remote call succeeds.
    Each remote call is represented by its settled outcome, given as input. */
module TaskContext {
  import opened Tasks
  import opened Reconcile

  class TaskProvider {
    var tasks: seq<Task>
    var loading: bool
    var error: Option<string>

    /** A freshly mounted provider: no tasks, loading, no error. */
    constructor ()
      ensures tasks == [] && loading && error == None
    {
      tasks, loading, error := [], true, None;
    }

    /** The continuation of the load effect. It runs while the initial load is
        pending and clears `loading`, which nothing sets again, so it runs
        once per provider. A successful response replaces the collection; a
        rejected or non-ok one records the load error. */
    method FinishLoad(response: Remote<seq<Task>>)
      requires loading
      modifies this
      ensures !loading
      ensures response.Success? ==> tasks == response.value && error == old(error)
      ensures response.Failure? ==> tasks == old(tasks) && error == Some(LoadError)
    {
      match response {
        case Success(data) =>
          tasks := data;
        case Failure =>
          error := Some(LoadError);
      }
      loading := false;
    }

    /** `handleAddTask`: the created task goes to the front on success; a
        failure is only logged. */
    method AddTask(result: Remote<Task>)
      modifies this
      ensures tasks == (if result.Success? then Prepend(result.value, old(tasks)) else old(tasks))
      ensures loading == old(loading) && error == old(error)
    {
      if result.Success? {
        tasks := Prepend(result.value, tasks);
      }
    }

    /** `handleUpdateTask`: sends the whole task under its own id; on success
        every entry carrying the id the server returned becomes the returned
        task. A failure is only logged. */
    method UpdateTask(task: Task, result: Remote<Task>) returns (call: UpdateCall)
      modifies this
      ensures call == UpdateCall(task.id, DraftOf(task), Some(task.completed))
      ensures tasks == (if result.Success? then ReplaceById(old(tasks), result.value) else old(tasks))
      ensures loading == old(loading) && error == old(error)
    {
      call := UpdateCall(task.id, DraftOf(task), Some(task.completed));
      if result.Success? {
        tasks := ReplaceById(tasks, result.value);
      }
    }

    /** `handleDeleteTask`: on success every entry with the id is dropped; a
        failure is only logged. */
    method DeleteTask(id: int, result: Outcome)
      modifies this
      ensures tasks == (if result == Done then RemoveById(old(tasks), id) else old(tasks))
      ensures loading == old(loading) && error == old(error)
    {
      if result == Done {
        tasks := RemoveById(tasks, id);
      }
    }
  }

  /** Mounting a provider and letting its load settle: the fetched tasks and no
      error on success, the load error and no tasks on failure; not loading
      either way. */
  method InitialLoad(response: Remote<seq<Task>>) returns (tasks: seq<Task>, loading: bool, error: Option<string>)
    ensures !loading
    ensures response.Success? ==> tasks == response.value && error == None
    ensures response.Failure? ==> tasks == [] && error == Some(LoadError)
  {
    var provider := new TaskProvider();
    provider.FinishLoad(response);
    tasks, loading, error := provider.tasks, provider.loading, provider.error;
  }

  /** A session: load tasks 1 and 2, create task 3, fail and then succeed in
      deleting it, and delete task 1. The created task goes first, the failed
      delete changes nothing, and only task 2 is left at the end. */
  method ReconcileScenario(a: Task, b: Task, c: Task)
      returns (afterAdd: seq<Task>, afterFailedDelete: seq<Task>, afterDelete: seq<Task>, final: seq<Task>)
    requires a.id == 1 && b.id == 2 && c.id == 3
    ensures afterAdd == [c, a, b]
    ensures afterFailedDelete == afterAdd
    ensures afterDelete == [a, b]
    ensures final == [b]
  {
    assert RemoveById([c, a, b], 3) == [a, b] by {
      assert Prepend(c, [a, b]) == [c, a, b];
      DeleteUndoesAdd(c, [a, b]);
    }
    assert RemoveById([a, b], 1) == [b] by {
      assert [a] + [b] == [a, b];
      RemoveByIdAppend([a], [b], 1);
      RemoveByIdAbsent([b], 1);
    }
    var provider := new TaskProvider();
    provider.FinishLoad(Success([a, b]));
    provider.AddTask(Success(c));
    afterAdd := provider.tasks;
    assert afterAdd == [c, a, b];
    provider.DeleteTask(3, Failed);
    afterFailedDelete := provider.tasks;
    provider.DeleteTask(3, Done);
    afterDelete := provider.tasks;
    provider.DeleteTask(1, Done);
    final := provider.tasks;
  }
}
