/** How the in-memory task collection is rebuilt once a remote call has
    succeeded: prepend the created task, replace by id, remove by id; and the
    order-preserving selection those rebuilds and the status filter rest on. */
module Reconcile {
  import opened Tasks

  /** Order-preserving selection of the elements that satisfy `keep`
      (the model of `Array.prototype.filter`). */
  function Filter<T(!new)>(s: seq<T>, keep: T -> bool): (r: seq<T>)
    ensures |r| <= |s|
    ensures forall x :: x in r <==> x in s && keep(x)
  {
    if s == [] then []
    else (if keep(s[0]) then [s[0]] else []) + Filter(s[1..], keep)
  }

  /** Selection distributes over concatenation: whatever is kept from `a`
      comes, in its own order, before whatever is kept from `b`. */
  lemma {:induction false} FilterAppend<T(!new)>(a: seq<T>, b: seq<T>, keep: T -> bool)
    ensures Filter(a + b, keep) == Filter(a, keep) + Filter(b, keep)
  {
    if a == [] {
      assert a + b == b;
    } else {
      assert (a + b)[1..] == a[1..] + b;
      FilterAppend(a[1..], b, keep);
    }
  }

  /** Selection returns its input exactly when every element is kept. */
  lemma {:induction false} FilterKeepsAll<T(!new)>(s: seq<T>, keep: T -> bool)
    ensures Filter(s, keep) == s <==> forall x :: x in s ==> keep(x)
  {
    if forall x :: x in s ==> keep(x) {
      FilterAllKept(s, keep);
    }
  }

  lemma {:induction false} FilterAllKept<T(!new)>(s: seq<T>, keep: T -> bool)
    requires forall x :: x in s ==> keep(x)
    ensures Filter(s, keep) == s
  {
    if s != [] {
      assert s[0] in s;
      assert forall x :: x in s[1..] ==> x in s;
      FilterAllKept(s[1..], keep);
      assert s == [s[0]] + s[1..];
    }
  }

  /** Selecting twice with the same criterion selects nothing more. */
  lemma FilterIdempotent<T(!new)>(s: seq<T>, keep: T -> bool)
    ensures Filter(Filter(s, keep), keep) == Filter(s, keep)
  {
    FilterKeepsAll(Filter(s, keep), keep);
  }

  /** Two complementary selections split the input: together they hold every
      element exactly as often as the input does. */
  lemma {:induction false} FilterComplement<T(!new)>(s: seq<T>, keep: T -> bool, drop: T -> bool)
    requires forall x :: drop(x) <==> !keep(x)
    ensures |Filter(s, keep)| + |Filter(s, drop)| == |s|
    ensures multiset(Filter(s, keep)) + multiset(Filter(s, drop)) == multiset(s)
  {
    if s != [] {
      FilterComplement(s[1..], keep, drop);
      assert s == [s[0]] + s[1..];
    }
  }

  /** `[newTask, ...prevTasks]`: the created task goes to the front. */
  function Prepend(t: Task, s: seq<Task>): (r: seq<Task>)
    ensures |r| == |s| + 1
    ensures r[0] == t && r[1..] == s
    ensures forall x :: x in r <==> x == t || x in s
  {
    [t] + s
  }

  /** `prevTasks.map(task => task.id === updated.id ? updated : task)`. */
  function ReplaceById(s: seq<Task>, u: Task): (r: seq<Task>)
    ensures |r| == |s|
    ensures forall i :: 0 <= i < |s| ==> r[i] == (if s[i].id == u.id then u else s[i])
  {
    if s == [] then []
    else [if s[0].id == u.id then u else s[0]] + ReplaceById(s[1..], u)
  }

  /** `prevTasks.filter(task => task.id !== id)`. */
  function RemoveById(s: seq<Task>, id: int): (r: seq<Task>)
    ensures forall t :: t in r <==> t in s && t.id != id
  {
    Filter(s, (t: Task) => t.id != id)
  }

  /** Removal drops exactly the tasks carrying the id, duplicates included. */
  lemma {:induction false} RemoveByIdCount(s: seq<Task>, id: int)
    ensures |RemoveById(s, id)| == |s| - CountId(s, id)
  {
    if s != [] {
      RemoveByIdCount(s[1..], id);
    }
  }

  /** Removal keeps the other tasks in their relative order. */
  lemma RemoveByIdAppend(a: seq<Task>, b: seq<Task>, id: int)
    ensures RemoveById(a + b, id) == RemoveById(a, id) + RemoveById(b, id)
  {
    FilterAppend(a, b, (t: Task) => t.id != id);
  }

  /** Removing an id that is absent leaves the collection identical. */
  lemma RemoveByIdAbsent(s: seq<Task>, id: int)
    requires forall t :: t in s ==> t.id != id
    ensures RemoveById(s, id) == s
  {
    FilterKeepsAll(s, (t: Task) => t.id != id);
  }

  /** With unique ids a removal shortens the collection by at most one. */
  lemma {:induction false} UniqueCountAtMostOne(s: seq<Task>, id: int)
    requires UniqueIds(s)
    ensures CountId(s, id) <= 1
  {
    if s != [] {
      UniqueCountAtMostOne(s[1..], id);
      if s[0].id == id {
        forall t | t in s[1..] ensures t.id != id {
          var j :| 0 <= j < |s[1..]| && s[1..][j] == t;
          assert s[j + 1] == t;
        }
      }
    }
  }

  /** A successful delete of a task whose id is unique removes exactly it. */
  lemma RemoveUniqueShrinksByAtMostOne(s: seq<Task>, id: int)
    requires UniqueIds(s)
    ensures |s| - 1 <= |RemoveById(s, id)| <= |s|
    ensures (exists t :: t in s && t.id == id) ==> |RemoveById(s, id)| == |s| - 1
  {
    RemoveByIdCount(s, id);
    UniqueCountAtMostOne(s, id);
  }

  /** Prepending a task whose id is fresh keeps ids unique. */
  lemma PrependKeepsUnique(t: Task, s: seq<Task>)
    requires UniqueIds(s) && forall x :: x in s ==> x.id != t.id
    ensures UniqueIds(Prepend(t, s))
  {
    var r := Prepend(t, s);
    forall i, j | 0 <= i < j < |r| ensures r[i].id != r[j].id {
      if i == 0 {
        assert r[j] == s[j - 1] && s[j - 1] in s;
      } else {
        assert r[i] == s[i - 1] && r[j] == s[j - 1];
      }
    }
  }

  /** Replacing by an id that matches no entry leaves the collection identical. */
  lemma ReplaceByIdAbsent(s: seq<Task>, u: Task)
    requires forall t :: t in s ==> t.id != u.id
    ensures ReplaceById(s, u) == s
  {
  }

  /** Replacement keeps every id at its index, so it keeps ids unique; with
      unique ids a present id ends up on exactly one entry, equal to `u`. */
  lemma ReplaceByIdUnique(s: seq<Task>, u: Task)
    requires UniqueIds(s)
    ensures UniqueIds(ReplaceById(s, u))
    ensures (exists t :: t in s && t.id == u.id) ==> u in ReplaceById(s, u)
    ensures forall i, j ::
              0 <= i < |s| && 0 <= j < |s| && ReplaceById(s, u)[i].id == u.id && ReplaceById(s, u)[j].id == u.id
              ==> i == j
  {
  }

  /** Replacing twice with the same returned task is the same as once. */
  lemma ReplaceByIdIdempotent(s: seq<Task>, u: Task)
    ensures ReplaceById(ReplaceById(s, u), u) == ReplaceById(s, u)
  {
  }

  /** A task that was created and then deleted leaves no trace. */
  lemma {:induction false} DeleteUndoesAdd(t: Task, s: seq<Task>)
    requires forall x :: x in s ==> x.id != t.id
    ensures RemoveById(Prepend(t, s), t.id) == s
  {
    assert Prepend(t, s) == [t] + s;
    RemoveByIdAppend([t], s, t.id);
    RemoveByIdAbsent(s, t.id);
  }

  /** Deleting an id after updating it is the same as deleting it outright. */
  lemma {:induction false} DeleteAfterUpdate(s: seq<Task>, u: Task)
    ensures RemoveById(ReplaceById(s, u), u.id) == RemoveById(s, u.id)
  {
    if s != [] {
      DeleteAfterUpdate(s[1..], u);
      assert ReplaceById(s, u)[1..] == ReplaceById(s[1..], u);
    }
  }

  /** Removal keeps ids unique. */
  lemma {:induction false} RemoveByIdKeepsUnique(s: seq<Task>, id: int)
    requires UniqueIds(s)
    ensures UniqueIds(RemoveById(s, id))
  {
    if s != [] {
      var rest := RemoveById(s[1..], id);
      RemoveByIdKeepsUnique(s[1..], id);
      if s[0].id != id {
        var r := [s[0]] + rest;
        forall i, j | 0 <= i < j < |r| ensures r[i].id != r[j].id {
          if i == 0 {
            assert r[j] in rest;
            var k :| 0 <= k < |s[1..]| && s[1..][k] == r[j];
            assert s[k + 1] == r[j];
          } else {
            assert r[i] == rest[i - 1] && r[j] == rest[j - 1];
          }
        }
      }
    }
  }

  /** None of the three rebuilds lets an unsaved (id 0) task into a
      collection of saved ones, provided the created task came back saved. */
  lemma RebuildsKeepPersisted(s: seq<Task>, t: Task, u: Task, id: int)
    requires AllPersisted(s)
    ensures t.id != 0 ==> AllPersisted(Prepend(t, s))
    ensures AllPersisted(ReplaceById(s, u))
    ensures AllPersisted(RemoveById(s, id))
  {
  }
}
