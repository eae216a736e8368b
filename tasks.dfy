/** The task entity and the shapes exchanged with the remote task service. */
module Tasks {

  datatype Option<T> = None | Some(value: T)

  /** The settled outcome of a remote call that yields a value. */
  datatype Remote<T> = Success(value: T) | Failure

  /** The settled outcome of a remote call whose body is ignored (delete). */
  datatype Outcome = Done | Failed

  /** A to-do item (`ListType`). An `id` of 0 marks a task not yet created. */
  datatype Task = Task(userId: int, id: int, title: string, body: string, completed: bool)

  /** The fields a form submits for a new or edited task (`NewTask`). */
  datatype Draft = Draft(userId: int, title: string, body: string)

  /** A full-replacement request: the id in the path and the fields in the body.
      `completed` is absent when the caller does not send it. */
  datatype UpdateCall = UpdateCall(id: int, fields: Draft, completed: Option<bool>)

  /** The blank task the "add" button opens the form with. */
  const BlankTask: Task := Task(1, 0, "", "", false)

  /** The message recorded when the initial load fails. */
  const LoadError: string := "Deu erro ao carregar"

  function DraftOf(t: Task): Draft {
    Draft(t.userId, t.title, t.body)
  }

  /** No two tasks of the collection share an id. */
  ghost predicate UniqueIds(s: seq<Task>) {
    forall i, j :: 0 <= i < j < |s| ==> s[i].id != s[j].id
  }

  /** Every task of the collection carries a server-assigned (non-zero) id. */
  ghost predicate AllPersisted(s: seq<Task>) {
    forall t :: t in s ==> t.id != 0
  }

  /** The number of tasks of `s` whose id is `id`. */
  function CountId(s: seq<Task>, id: int): (n: nat)
    ensures n <= |s|
    ensures n == 0 <==> forall t :: t in s ==> t.id != id
  {
    if s == [] then 0
    else (if s[0].id == id then 1 else 0) + CountId(s[1..], id)
  }
}
