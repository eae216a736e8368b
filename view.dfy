/** The derived view both list components compute from the task collection:
    the status filter, the page count, the ten-item window of the current
    page and the guard on page changes. */
module TaskView {
  import opened Tasks
  import opened Reconcile

  /** `ITEMS_PER_PAGE`. */
  const PageSize: nat := 10

  /** The three filter buttons: all, completed, pending. */
  datatype StatusFilter = All | Completed | Pending

  function IsDone(t: Task): bool { t.completed }

  function IsOpen(t: Task): bool { !t.completed }

  /** `filteredTasks`: the tasks the current filter lets through, in
      collection order. */
  function Filtered(tasks: seq<Task>, f: StatusFilter): (r: seq<Task>)
    ensures |r| <= |tasks|
    ensures f == All ==> r == tasks
    ensures f == Completed ==> forall t :: t in r <==> t in tasks && t.completed
    ensures f == Pending ==> forall t :: t in r <==> t in tasks && !t.completed
  {
    match f
    case Completed => Filter(tasks, IsDone)
    case Pending => Filter(tasks, IsOpen)
    case All => tasks
  }

  /** Filtering what a filter already let through changes nothing. */
  lemma FilteredIdempotent(tasks: seq<Task>, f: StatusFilter)
    ensures Filtered(Filtered(tasks, f), f) == Filtered(tasks, f)
  {
    match f
    case Completed => FilterIdempotent(tasks, IsDone);
    case Pending => FilterIdempotent(tasks, IsOpen);
    case All =>
  }

  /** The completed and the pending view split the collection between them. */
  lemma FilteredPartition(tasks: seq<Task>)
    ensures |Filtered(tasks, Completed)| + |Filtered(tasks, Pending)| == |tasks|
    ensures multiset(Filtered(tasks, Completed)) + multiset(Filtered(tasks, Pending)) == multiset(tasks)
  {
    FilterComplement(tasks, IsDone, IsOpen);
  }

  /** Every filter keeps the collection order: the view of a concatenation
      is the concatenation of the views. */
  lemma FilteredAppend(a: seq<Task>, b: seq<Task>, f: StatusFilter)
    ensures Filtered(a + b, f) == Filtered(a, f) + Filtered(b, f)
  {
    match f
    case Completed => FilterAppend(a, b, IsDone);
    case Pending => FilterAppend(a, b, IsOpen);
    case All =>
  }

  /** `Math.ceil(n / ITEMS_PER_PAGE)`: the fewest pages that hold `n` items. */
  function TotalPages(n: nat): (r: nat)
    ensures n <= r * PageSize
    ensures r == 0 || (r - 1) * PageSize < n
  {
    (n + PageSize - 1) / PageSize
  }

  /** The first index of page `page` (pages count from 1). */
  function PageStart(page: int): int {
    (page - 1) * PageSize
  }

  /** `paginatedTasks`: `filteredTasks.slice(start, start + ITEMS_PER_PAGE)`,
      which is empty once `start` is at or past the end. */
  function PageSlice<T>(s: seq<T>, page: int): (r: seq<T>)
    requires page >= 1
    ensures |r| <= PageSize
    ensures r == [] <==> page > TotalPages(|s|)
    ensures page < TotalPages(|s|) ==> |r| == PageSize
    ensures page <= TotalPages(|s|) ==>
              |r| == (if PageStart(page) + PageSize <= |s| then PageSize else |s| - PageStart(page))
    ensures forall k :: 0 <= k < |r| ==> PageStart(page) + k < |s| && r[k] == s[PageStart(page) + k]
  {
    var start := PageStart(page);
    if start >= |s| then []
    else if start + PageSize <= |s| then s[start..start + PageSize]
    else s[start..]
  }

  /** The pages from `page` to the last one, in order, joined together. */
  function PagesFrom<T>(s: seq<T>, page: int): seq<T>
    requires page >= 1
    decreases TotalPages(|s|) - page + 1
  {
    if page > TotalPages(|s|) then [] else PageSlice(s, page) + PagesFrom(s, page + 1)
  }

  /** Joining pages `page` .. last gives everything from that page's start. */
  lemma {:induction false} PagesFromSuffix<T>(s: seq<T>, page: int)
    requires page >= 1 && PageStart(page) <= |s|
    ensures PagesFrom(s, page) == s[PageStart(page)..]
    decreases TotalPages(|s|) - page + 1
  {
    if page <= TotalPages(|s|) {
      var start := PageStart(page);
      if start + PageSize <= |s| {
        PagesFromSuffix(s, page + 1);
        assert s[start..] == s[start..start + PageSize] + s[start + PageSize..];
      } else {
        assert TotalPages(|s|) < page + 1;
      }
    }
  }

  /** Pages 1 .. totalPages, joined, reproduce the filtered sequence. */
  lemma PagesCoverAll<T>(s: seq<T>)
    ensures PagesFrom(s, 1) == s
  {
    PagesFromSuffix(s, 1);
  }

  /** `handlePageChange`: a request outside `1 .. totalPages` is ignored. */
  function ChangePage(current: int, requested: int, total: nat): (r: int)
    requires current >= 1
    ensures r >= 1
    ensures 1 <= requested <= total ==> r == requested
    ensures !(1 <= requested <= total) ==> r == current
  {
    if requested >= 1 && requested <= total then requested else current
  }

  /** A page within range stays within range whatever is requested, so the
      pagination buttons (which request current - 1 and current + 1) can
      never leave it. */
  lemma ChangePageStaysInRange(current: int, requested: int, total: nat)
    requires 1 <= current <= total
    ensures 1 <= ChangePage(current, requested, total) <= total
  {
  }

  /** What a list shows: the current page of the filtered collection. */
  function Visible(tasks: seq<Task>, f: StatusFilter, page: int): (r: seq<Task>)
    requires page >= 1
    ensures |r| <= PageSize
    ensures forall t :: t in r ==> t in Filtered(tasks, f)
    ensures r == [] <==> page > TotalPages(|Filtered(tasks, f)|)
    ensures forall k :: 0 <= k < |r| ==>
              PageStart(page) + k < |Filtered(tasks, f)| && r[k] == Filtered(tasks, f)[PageStart(page) + k]
  {
    PageSlice(Filtered(tasks, f), page)
  }

  /** Switching filters keeps the page; when the new view has fewer pages
      than the kept page number, nothing is shown. Eleven pending tasks fill
      page 2 of the pending view, and the completed view has no page 2. */
  lemma FilterSwitchCanEmptyPage()
    ensures var tasks := seq(11, i => Task(1, i + 1, "t", "b", false));
            Visible(tasks, Pending, 2) != [] && Visible(tasks, Completed, 2) == []
  {
    var tasks := seq(11, i => Task(1, i + 1, "t", "b", false));
    FilterKeepsAll(tasks, IsOpen);
  }
}
