# Task list reconciliation and list view, in Dafny

A model of the logic inside a small browser to-do list manager. The manager loads tasks from a
remote REST service. It shows them ten to a page behind an all / completed / pending filter. It
forwards create, update and delete requests to the service, and rebuilds its in-memory
collection only after the service has confirmed the call.

The model covers three parts of the program:

- **The task provider** (`src/contexts/taskContext.tsx`): the collection with its `loading` and
  `error` status, the one-time load, and the add, update and delete handlers. It is the class
  `TaskContext.TaskProvider`. Each handler rebuilds the collection with a pure function from
  `Reconcile`: `Prepend`, `ReplaceById` or `RemoveById`.
- **The provider-backed list** (`src/components/list/list.tsx`): page, filter, form and
  confirmation state. It is the class `ContextList.List`. It holds its provider as `store` and
  forwards requests to it.
- **The standalone list** (`src/components/list/index.tsx`): the `List` the application mounts.
  It keeps its own collection, load status and copies of the three handlers. It is the class
  `StandaloneList.List`.

Both lists compute the rows they show with the same `TaskView` functions: `Filtered`,
`TotalPages`, `PageSlice` (joined as `Visible`) and the page-change guard `ChangePage`. The
two source files contain the same expressions, so one definition models both.

Each remote call enters the model as its settled outcome, passed in as a parameter:
`Remote<T>` is `Success(value)` or `Failure`, and a delete's outcome is `Done` or `Failed`. A
non-ok HTTP status and a rejected request are the same `Failure`, as in the source, where both
reach the same `catch`.

Module layout: `Tasks` (entity, outcomes, request shapes), `Reconcile` (pure rebuilds and the
order-preserving `Filter`), `TaskView` (filter, page count, page window, guard), `TaskContext`,
`ContextList`, `StandaloneList`.

Points worth knowing about the code:

- The update and delete handlers replace and remove *every* entry whose id matches, and nothing
  in the code keeps ids unique. `ReplaceById` and `RemoveById` model exactly that. "After an
  update exactly one entry carries the returned id" and "a delete removes at most one entry"
  therefore hold only when ids are unique; they are proved under that hypothesis
  (`ReplaceByIdUnique`, `RemoveUniqueShrinksByAtMostOne`), and every rebuild is proved to keep
  it (`PrependKeepsUnique` for an add whose id is fresh, `ReplaceByIdUnique`,
  `RemoveByIdKeepsUnique`).
- Nothing in the code keeps id 0 (an unsaved task) out of the collection.
  `RebuildsKeepPersisted` shows that the three rebuilds keep it out, provided the created task
  came back with a non-zero id.
- The two list files differ in their handlers. In the standalone list, the edit request uses
  the selected task's id and owner. Its add handler leaves the form open. Its update handler
  closes the form only on success. In the provider-backed list, the add handler closes the
  form whatever the outcome, and a toggle sends the whole task with its status flipped.

## Model

| member | source | states |
|---|---|---|
| `Reconcile.Filter` | src/components/list/list.tsx:25-28 | the selection is no longer than its input and holds exactly the input's elements that satisfy the criterion |
| `Reconcile.FilterAppend` | src/components/list/list.tsx:25-28 | selection keeps order: selecting from `a + b` is selecting from `a` followed by selecting from `b` |
| `Reconcile.FilterKeepsAll` | src/components/list/list.tsx:25-30 | a selection returns its input unchanged if and only if every element satisfies the criterion |
| `Reconcile.FilterIdempotent` | src/components/list/list.tsx:25-28 | selecting twice with the same criterion gives the same sequence as selecting once |
| `Reconcile.FilterComplement` | src/components/list/list.tsx:25-28 | two complementary selections have lengths summing to the input's and together form the same multiset as the input |
| `Reconcile.Prepend` | src/contexts/taskContext.tsx:42 | after an add, the collection is one longer, starts with the created task, and its tail is the old collection |
| `Reconcile.ReplaceById` | src/contexts/taskContext.tsx:51-53 | an update keeps the length; every entry whose id equals the returned task's id becomes that task, and every other entry stays unchanged at its index |
| `Reconcile.RemoveById` | src/contexts/taskContext.tsx:62 | after a delete, the collection holds exactly the old tasks whose id differs from the deleted id |
| `Reconcile.RemoveByIdCount` | src/contexts/taskContext.tsx:62 | a delete shortens the collection by exactly the number of entries carrying the id, duplicates included |
| `Reconcile.RemoveByIdAppend` | src/contexts/taskContext.tsx:62 | the tasks that remain after a delete keep their relative order |
| `Reconcile.RemoveByIdAbsent` | src/contexts/taskContext.tsx:62 | deleting an id that no entry carries leaves the collection identical |
| `Reconcile.UniqueCountAtMostOne` | src/contexts/taskContext.tsx:62 | when ids are unique, at most one entry carries any given id |
| `Reconcile.RemoveUniqueShrinksByAtMostOne` | src/contexts/taskContext.tsx:59-62 | when ids are unique, a delete shortens the collection by at most one, and by exactly one when the id is present |
| `Reconcile.ReplaceByIdAbsent` | src/contexts/taskContext.tsx:52 | an update whose returned id matches no entry leaves the collection identical |
| `Reconcile.ReplaceByIdUnique` | src/contexts/taskContext.tsx:48-53 | an update keeps ids unique; with unique ids, a present id ends up on exactly one entry, and that entry is the returned task |
| `Reconcile.ReplaceByIdIdempotent` | src/contexts/taskContext.tsx:52 | applying the same update result twice gives the same collection as applying it once |
| `Reconcile.DeleteUndoesAdd` | src/contexts/taskContext.tsx:39-66 | creating a task with a fresh id and then deleting that id gives back the original collection |
| `Reconcile.DeleteAfterUpdate` | src/contexts/taskContext.tsx:48-66 | deleting an id after updating it gives the same collection as deleting it directly |
| `Reconcile.PrependKeepsUnique` | src/contexts/taskContext.tsx:42 | adding a task whose id no entry carries keeps ids unique |
| `Reconcile.RemoveByIdKeepsUnique` | src/contexts/taskContext.tsx:62 | a delete keeps ids unique |
| `Reconcile.RebuildsKeepPersisted` | src/contexts/taskContext.tsx:39-66 | if no task has id 0 before an add, update or delete, none has id 0 after it (for an add, provided the created task's id is non-zero) |
| `TaskView.Filtered` | src/components/list/list.tsx:23-32 | `all` returns the collection unchanged; `completed` returns exactly the tasks with `completed` set; `pending` returns exactly those without it; the result is never longer than the collection |
| `TaskView.FilteredIdempotent` | src/components/list/list.tsx:23-32 | filtering a filter's output again with the same filter gives the same sequence |
| `TaskView.FilteredPartition` | src/components/list/list.tsx:25-28 | the completed and pending views have lengths summing to the collection's, and together form the collection as a multiset |
| `TaskView.FilteredAppend` | src/components/list/list.tsx:23-32 | every filter keeps collection order: the view of `a + b` is the view of `a` followed by the view of `b` |
| `TaskView.TotalPages` | src/components/list/list.tsx:34 | the page count is the ceiling of n / 10: enough pages to hold n items, and one page fewer would not be enough |
| `TaskView.PageSlice` | src/components/list/list.tsx:36-39 | a page holds at most 10 items and is empty exactly when the page number exceeds the page count; every page before the last is full and the last holds the remainder; item k of page p is item (p-1)*10+k of the filtered sequence |
| `TaskView.PagesFromSuffix` | src/components/list/list.tsx:36-39 | joining pages p through the last gives the filtered sequence from page p's first index onwards |
| `TaskView.PagesCoverAll` | src/components/list/list.tsx:34-39 | joining pages 1 through the page count reproduces the filtered sequence |
| `TaskView.ChangePage` | src/components/list/list.tsx:41-43 | a page request in 1..totalPages is taken, any other request leaves the page unchanged, and the page stays at least 1 |
| `TaskView.ChangePageStaysInRange` | src/components/list/list.tsx:41-43 | when the current page is in range, it stays in range after any request, including the pagination buttons' current ± 1 |
| `TaskView.Visible` | src/components/list/index.tsx:37-53 | the rows shown are at most 10 tasks that the filter lets through, and there are none exactly when the page is past the filtered view's last page; row k is item (page-1)*10+k of the filtered view |
| `TaskView.FilterSwitchCanEmptyPage` | src/components/list/list.tsx:13-14 | switching filters keeps the page number, so a page that shows rows under one filter can show none under another |
| `TaskContext.TaskProvider.constructor` | src/contexts/taskContext.tsx:17-19 | a new provider has no tasks, is loading and has no error |
| `TaskContext.TaskProvider.FinishLoad` | src/contexts/taskContext.tsx:21-37 | the load runs only while loading and ends loading; success replaces the collection wholesale and leaves the error unset; failure records "Deu erro ao carregar" and leaves the collection unchanged |
| `TaskContext.TaskProvider.AddTask` | src/contexts/taskContext.tsx:39-46 | on success the created task is prepended; on failure the collection is unchanged; the load status is never touched |
| `TaskContext.TaskProvider.UpdateTask` | src/contexts/taskContext.tsx:48-57 | the request carries the task's own id and all of its fields; on success the entries are replaced by the returned id; on failure the collection is unchanged |
| `TaskContext.TaskProvider.DeleteTask` | src/contexts/taskContext.tsx:59-66 | on success every entry with the id is removed; on failure the collection is unchanged |
| `TaskContext.InitialLoad` | src/contexts/taskContext.tsx:17-37 | after mounting and loading, the provider is not loading; success yields the fetched tasks and no error; failure yields no tasks and the load error |
| `TaskContext.ReconcileScenario` | src/contexts/taskContext.tsx:39-66 | for any tasks with ids 1, 2 and 3: loading tasks 1 and 2 and then creating task 3 gives [3, 1, 2]; a failed delete of 3 leaves that collection unchanged; deleting 3 gives [1, 2]; deleting 1 then leaves only task 2 |
| `ContextList.AddRequest` | src/components/list/list.tsx:48-49 | the task an add sends carries the form's fields with id 0 and `completed` false |
| `ContextList.ToggleRequest` | src/components/list/list.tsx:67-69 | the task a toggle sends equals the original except that `completed` is negated |
| `ContextList.ToggleTwice` | src/components/list/list.tsx:69 | toggling twice gives back the original task |
| `ContextList.List.constructor` | src/components/list/list.tsx:13-21 | the list starts on page 1 with filter all, no selection, and the form and confirmations closed |
| `ContextList.List.HandlePageChange` | src/components/list/list.tsx:41-43 | the page follows `ChangePage` against the current page count and stays at least 1; nothing else changes |
| `ContextList.List.SetFilter` | src/components/list/list.tsx:93-101 | the filter changes but the page number does not, and the rows are empty when that page is past the new page count; nothing else changes |
| `ContextList.List.OpenAdd` | src/components/list/list.tsx:81-85 | the form opens in add mode on the blank task; the confirmations are unchanged |
| `ContextList.List.HandleEditTask` | src/components/list/list.tsx:53-57 | the form opens in edit mode on the chosen task; the confirmations are unchanged |
| `ContextList.List.HandleAddTask` | src/components/list/list.tsx:48-51 | sends `AddRequest(form)`; the provider prepends the created task on success; the form closes whatever the outcome; the selection, the add flag, the confirmations and the provider's load status are unchanged |
| `ContextList.List.RequestDelete` | src/components/list/list.tsx:151-154 | remembers the task and opens the delete confirmation; the form and the toggle confirmation are unchanged |
| `ContextList.List.HandleConfirmDelete` | src/components/list/list.tsx:59-65 | with a remembered task, deletes its id through the provider and clears the confirmation; otherwise nothing changes; the form, the toggle confirmation and the provider's load status are unchanged either way |
| `ContextList.List.RequestToggle` | src/components/list/list.tsx:131-135 | remembers the task and opens the toggle confirmation; the form and the delete confirmation are unchanged |
| `ContextList.List.HandleConfirmToggle` | src/components/list/list.tsx:67-73 | with a remembered task, sends it with its status flipped, the provider applies the result, and the confirmation clears; otherwise nothing is sent; the form, the delete confirmation and the provider's load status are unchanged either way |
| `ContextList.List.CloseModal` | src/components/list/list.tsx:196 | closing the form keeps the selection, the add flag and the confirmations |
| `StandaloneList.EditRequest` | src/components/list/index.tsx:80 | an edit request uses the selected task's id and owner with the form's title and body, and sends no status |
| `StandaloneList.List.constructor` | src/components/list/index.tsx:11-18 | the list starts loading, with no tasks, no error, page 1, filter all, and the form closed |
| `StandaloneList.List.FetchTasks` | src/components/list/index.tsx:20-35 | the load runs only while loading and ends loading; success replaces the tasks; failure records "Deu erro ao carregar" and keeps the tasks |
| `StandaloneList.List.HandlePageChange` | src/components/list/index.tsx:55-57 | the page follows `ChangePage` against the current page count and stays at least 1; nothing else changes |
| `StandaloneList.List.SetFilter` | src/components/list/index.tsx:119-127 | the filter changes but the page number does not, and the rows are empty when that page is past the new page count; nothing else changes |
| `StandaloneList.List.OpenAdd` | src/components/list/index.tsx:107-111 | the form opens in add mode on the blank task; the tasks and load status are unchanged |
| `StandaloneList.List.HandleEditTask` | src/components/list/index.tsx:71-75 | the form opens in edit mode on the chosen task; the tasks and load status are unchanged |
| `StandaloneList.List.HandleAddTask` | src/components/list/index.tsx:62-69 | the form's fields are sent as they are; on success the created task is prepended, on failure nothing changes; the form state is never touched |
| `StandaloneList.List.HandleUpdateTask` | src/components/list/index.tsx:77-90 | with no selection, nothing is sent and nothing changes; otherwise `EditRequest` is sent; on success the entries are replaced by the returned id, the form closes and the selection clears; on failure the tasks, form and selection stay as they were |
| `StandaloneList.List.HandleDeleteTask` | src/components/list/index.tsx:92-99 | on success every entry with the id is removed; on failure nothing changes |
| `StandaloneList.List.CloseModal` | src/components/list/index.tsx:197 | closing the form keeps the selection, the add flag, the tasks and the load status |
| `StandaloneList.InitialLoad` | src/components/list/index.tsx:11-35 | after mounting and loading, the list is not loading and is on page 1; success yields the fetched tasks and no error; failure yields no tasks and the load error |
| `StandaloneList.FirstPageAfterLoad` | src/components/list/index.tsx:37-53 | after a successful load, page 1 shows the first ten tasks the chosen filter lets through |

## Left out

- The network: `src/services/index.tsx` is not part of this model. Each call to it appears only as
  its settled outcome (the server's task, or a failure). The model leaves out the URLs, the JSON
  bodies, the error-message text that is only logged, and the casting of the fetched JSON
  (`data: ListType[]`). The server is trusted to return well-formed tasks.
- Asynchrony: overlapping requests whose responses arrive in either order, and the missing
  cancellation. The model applies each handler as one step once its call has settled. A
  request's payload and its outcome are therefore both parameters of the same method.
- The load effect's `setLoading(true)` at the start of the provider's load
  (`src/contexts/taskContext.tsx:23`) is not modelled as a separate step, because `loading` is
  already true at mount. Running the load once per mount is modelled by `requires loading` on
  `FinishLoad` / `FetchTasks`. Both clear `loading`, and no operation sets it again.
- `Math.ceil(n / 10)` is modelled as integer ceiling division on a natural number. Page numbers
  are integers. The source's `number` could in principle be fractional, but the pagination
  controls only ever request the current page ± 1.
- Rendering: the "Carregando..." and error early returns, the JSX, styling and CSS classes, the
  modal forms (`src/components/modal/*`) and the pagination controls (`src/components/pagination/*`).
  The only logic in the pagination controls is requesting current ± 1. `ChangePageStaysInRange`
  covers those requests.
- The edit form of the provider-backed list (its modal calls the provider's `updateTask`
  directly with `{...task, title, body, completed}`) is not modelled as a separate operation.
  That call is `TaskContext.TaskProvider.UpdateTask`.
- `src/App.tsx` and the tests are wiring and checks, not logic.
