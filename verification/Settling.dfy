/**
 * What Settle reads: a thread's tree, twice, and whether the two readings
 * show the same one.
 */
module Settling {
  import opened Common
  import opened Threads
  import opened ThreadTree
  import opened Lifecycle
  import opened LifecycleStore

  /** The threads of `root`'s tree that the listing names, each once. */
  ghost predicate IsTree(listing: seq<Thread>, root: string, tree: seq<Thread>) {
    && UniqueIds(tree)
    && (forall t :: t in tree <==> t in listing && t.id in Tree(listing, root))
  }

  /** The threads found for the ids, in their order. */
  function Listed(byId: map<string, Thread>, ids: seq<string>): seq<Thread> {
    if ids == [] then []
    else
      var last := ids[|ids| - 1];
      Listed(byId, ids[..|ids| - 1]) + if last in byId then [byId[last]] else []
  }

  lemma {:induction false} ListedIs(byId: map<string, Thread>, ids: seq<string>)
    requires NoRepeats(ids) && forall id :: id in byId ==> byId[id].id == id
    ensures UniqueIds(Listed(byId, ids))
    ensures forall t :: t in Listed(byId, ids) <==> t.id in ids && t.id in byId && byId[t.id] == t
  {
    if ids != [] {
      var rest, last := ids[..|ids| - 1], ids[|ids| - 1];
      ListedIs(byId, rest);
      assert ids == rest + [last];
      assert last !in rest;
      var before := Listed(byId, rest);
      assert forall i :: 0 <= i < |before| ==> before[i] in before;
    }
  }

  lemma ListedByIdIs(listing: seq<Thread>, ids: seq<string>)
    requires UniqueIds(listing) && NoRepeats(ids)
    ensures UniqueIds(Listed(ById(listing), ids))
    ensures forall t :: t in Listed(ById(listing), ids) <==> t in listing && t.id in ids
  {
    ListedIs(ById(listing), ids);
    ByIdFinds(listing);
  }

  method ListedTree(listing: seq<Thread>, root: string) returns (tree: seq<Thread>)
    requires UniqueIds(listing)
    ensures IsTree(listing, root, tree)
  {
    var ids := TreeIds(listing, root);
    tree := Listed(ById(listing), ids);
    ListedByIdIs(listing, ids);
    assert forall id :: id in Elements(ids) <==> id in ids;
  }

  /** What Settle asks of each thread it reads the second time: as it was the first time, its row too. */
  predicate Unchanged(firstById: map<string, Thread>, before: Rows, rows: Rows, thread: Thread, waitedFor: bool) {
    && thread.id in firstById
    && thread.parentThreadId == firstById[thread.id].parentThreadId
    && (waitedFor || !IsPinned(thread))
    && (waitedFor || thread.latestAttentionAt <= firstById[thread.id].latestAttentionAt)
    && SameRow(Get(rows, thread.id), Get(before, thread.id))
  }

  predicate AllUnchanged(first: seq<Thread>, before: Rows, rows: Rows, current: seq<Thread>, waitedFor: bool) {
    forall t :: t in current ==> Unchanged(ById(first), before, rows, t, waitedFor)
  }

  predicate SameTree(first: seq<Thread>, tree: seq<Thread>, before: Rows, rows: Rows, current: seq<Thread>, waitedFor: bool) {
    |current| == |tree| && AllUnchanged(first, before, rows, current, waitedFor)
  }

  /** Every parent link `second` shows below the root is one `first` shows. */
  ghost predicate EdgesKept(first: seq<Thread>, second: seq<Thread>, root: string) {
    forall parent, child :: Edge(second, parent, child) && Below(second, root, child) ==> Edge(first, parent, child)
  }

  /** A parent link the second reading shows inside the tree was there the first time. */
  lemma EdgesWereThere(first: seq<Thread>, second: seq<Thread>, before: Rows, rows: Rows, root: string, current: seq<Thread>, waitedFor: bool)
    requires UniqueIds(first) && UniqueIds(second) && IsTree(second, root, current)
    requires AllUnchanged(first, before, rows, current, waitedFor)
    ensures EdgesKept(first, second, root)
  {
    forall parent, child | Edge(second, parent, child) && Below(second, root, child) ensures Edge(first, parent, child) {
      BelowIsListed(second, root, child);
      EdgeIsParent(second, parent, child);
      EdgeIsParent(first, parent, child);
      ByIdFinds(second);
      InDescendants(second, root, child);
      assert ById(second)[child] in current;
    }
  }

  lemma {:induction false} PrefixIsBelow(listing: seq<Thread>, path: seq<string>, n: nat)
    requires 1 <= n < |path| && Chain(listing, path)
    ensures Below(listing, path[0], path[n])
    decreases n
  {
    ChainEdge(listing, path, n - 1);
    if n == 1 {
      EdgeIsBelow(listing, path[0], path[1]);
    } else {
      PrefixIsBelow(listing, path, n - 1);
      BelowThenEdge(listing, path[0], path[n - 1], path[n]);
    }
  }

  /** A thread below the root the second time was below it the first time. */
  lemma {:induction false} WasBelow(first: seq<Thread>, second: seq<Thread>, path: seq<string>, n: nat)
    requires 1 <= n < |path| && Chain(second, path) && EdgesKept(first, second, path[0])
    ensures Below(first, path[0], path[n])
    decreases n
  {
    ChainEdge(second, path, n - 1);
    PrefixIsBelow(second, path, n);
    assert Edge(first, path[n - 1], path[n]);
    if n == 1 {
      EdgeIsBelow(first, path[0], path[1]);
    } else {
      WasBelow(first, second, path, n - 1);
      BelowThenEdge(first, path[0], path[n - 1], path[n]);
    }
  }

  lemma ChainEdge(listing: seq<Thread>, path: seq<string>, i: nat)
    requires Chain(listing, path) && i + 1 < |path|
    ensures Edge(listing, path[i], path[i + 1])
  {
  }

  lemma {:induction false} CountIds(threads: seq<Thread>)
    requires UniqueIds(threads)
    ensures |Ids(threads)| == |threads|
  {
    if threads == [] {
      assert Ids(threads) == {};
    } else {
      var rest, last := threads[..|threads| - 1], threads[|threads| - 1];
      CountIds(rest);
      assert threads == rest + [last];
      assert Ids(threads) == Ids(rest) + {last.id};
      assert last.id !in Ids(rest);
    }
  }

  /** Every id of the tree the second time was one of it the first time. */
  lemma CurrentWasInTree(first: seq<Thread>, second: seq<Thread>, before: Rows, rows: Rows, root: string, tree: seq<Thread>, current: seq<Thread>, waitedFor: bool)
    requires UniqueIds(first) && UniqueIds(second) && root in Ids(first)
    requires IsTree(first, root, tree) && IsTree(second, root, current)
    requires AllUnchanged(first, before, rows, current, waitedFor)
    ensures Ids(current) <= Ids(tree)
  {
    ByIdFinds(first);
    EdgesWereThere(first, second, before, rows, root, current, waitedFor);
    forall id | id in Ids(current) ensures id in Ids(tree) {
      if id != root {
        InDescendants(second, root, id);
        var path :| ChainFrom(second, path, root, id);
        WasBelow(first, second, path, |path| - 1);
        InDescendants(first, root, id);
        BelowIsListed(first, root, id);
      }
      assert ById(first)[id] in tree;
    }
  }

  lemma SameIds(first: seq<Thread>, second: seq<Thread>, before: Rows, rows: Rows, root: string, tree: seq<Thread>, current: seq<Thread>, waitedFor: bool)
    requires UniqueIds(first) && UniqueIds(second) && root in Ids(first)
    requires IsTree(first, root, tree) && IsTree(second, root, current)
    requires SameTree(first, tree, before, rows, current, waitedFor)
    ensures Ids(current) == Ids(tree)
  {
    CurrentWasInTree(first, second, before, rows, root, tree, current, waitedFor);
    CountIds(current);
    CountIds(tree);
    SubsetSize(Ids(current), Ids(tree));
  }

  lemma RootIsListed(listing: seq<Thread>, root: string, tree: seq<Thread>)
    requires IsTree(listing, root, tree) && root in Ids(tree)
    ensures root in Ids(listing)
  {
    var t :| t in tree && t.id == root;
    assert t in listing;
  }

  /**
   * When as many threads are found the second time and none changed, the two
   * readings are of the same tree, and bb still lists its root.
   */
  lemma SameTreeIsWhole(first: seq<Thread>, second: seq<Thread>, before: Rows, rows: Rows, root: string, tree: seq<Thread>, current: seq<Thread>, waitedFor: bool)
    requires UniqueIds(first) && UniqueIds(second) && root in Ids(first)
    requires IsTree(first, root, tree) && IsTree(second, root, current)
    requires SameTree(first, tree, before, rows, current, waitedFor)
    ensures Ids(current) == Tree(first, root) == Tree(second, root)
    ensures root in Ids(second)
  {
    SameIds(first, second, before, rows, root, tree, current, waitedFor);
    TreeIsListed(first, root, tree);
    assert root in Tree(first, root);
    RootIsListed(second, root, current);
    TreeIsListed(second, root, current);
  }

  lemma TreeIsListed(listing: seq<Thread>, root: string, tree: seq<Thread>)
    requires UniqueIds(listing) && root in Ids(listing) && IsTree(listing, root, tree)
    ensures Ids(tree) == Tree(listing, root)
  {
    ByIdFinds(listing);
    forall id | id in Tree(listing, root) ensures id in Ids(tree) {
      if id != root {
        InDescendants(listing, root, id);
        BelowIsListed(listing, root, id);
      }
      assert ById(listing)[id] in tree;
    }
  }
}
