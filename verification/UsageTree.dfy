/**
 * Thread trees of the usage report: the index of the edge table, the
 * depth-first tree under a thread with cycles cut and forks left out, and
 * the walk to its ancestors.
 */
module UsageTree {
  import opened Common
  import opened Threads
  import opened ThreadTree

  /** A row of the edge table; a fork has a source thread. */
  datatype EdgeRow = EdgeRow(threadId: string, parentThreadId: Option<string>, sourceThreadId: Option<string>)

  predicate IsFork(edge: EdgeRow) { edge.sourceThreadId.Some? }

  datatype EdgeIndex = EdgeIndex(byId: map<string, EdgeRow>, children: map<string, seq<string>>, forks: map<string, seq<string>>)

  function ListIn(lists: map<string, seq<string>>, key: string): seq<string> { Get(lists, key).GetOr([]) }

  /** The parent the tree follows: none above a fork. */
  function TreeParent(byId: map<string, EdgeRow>, id: string): Option<string> {
    if id in byId && !IsFork(byId[id]) then byId[id].parentThreadId else None
  }

  ghost predicate RowsById(byId: map<string, EdgeRow>) {
    forall id :: id in byId ==> byId[id].threadId == id
  }

  /** Each thread is a child of its one parent and a fork of its one source, listed once. */
  ghost predicate IndexOk(index: EdgeIndex) {
    && RowsById(index.byId)
    && (forall p, id :: id in ListIn(index.children, p) <==> TreeParent(index.byId, id) == Some(p) && p != id)
    && (forall p :: NoRepeats(ListIn(index.children, p)))
    && (forall s, id :: id in ListIn(index.forks, s) <==> id in index.byId && index.byId[id].sourceThreadId == Some(s))
    && (forall s :: NoRepeats(ListIn(index.forks, s)))
  }

  function Pushed(lists: map<string, seq<string>>, key: string, id: string): map<string, seq<string>> {
    lists[key := ListIn(lists, key) + [id]]
  }

  /** The parent each child is listed under. */
  function ChildKeys(byId: map<string, EdgeRow>): map<string, string> {
    map id | id in byId && TreeParent(byId, id).Some? && TreeParent(byId, id).value != id :: TreeParent(byId, id).value
  }

  /** The source each fork is listed under. */
  function ForkKeys(byId: map<string, EdgeRow>): map<string, string> {
    map id | id in byId && IsFork(byId[id]) :: byId[id].sourceThreadId.value
  }

  /** The lists group the ids done so far by their key, each once. */
  ghost predicate Grouped(lists: map<string, seq<string>>, done: set<string>, keys: map<string, string>) {
    && (forall k :: NoRepeats(ListIn(lists, k)))
    && (forall k, id :: id in ListIn(lists, k) <==> id in done && id in keys && keys[id] == k)
  }

  lemma GroupedOneMore(lists: map<string, seq<string>>, done: set<string>, keys: map<string, string>, id: string)
    requires Grouped(lists, done, keys) && id !in done
    ensures Grouped(if id in keys then Pushed(lists, keys[id], id) else lists, done + {id}, keys)
  {
    if id in keys {
      var more := Pushed(lists, keys[id], id);
      forall k ensures NoRepeats(ListIn(more, k)) {
        assert NoRepeats(ListIn(lists, k));
        if k == keys[id] { NoRepeatsAppend(ListIn(lists, k), id); }
      }
      forall k, x ensures x in ListIn(more, k) <==> x in done + {id} && x in keys && keys[x] == k {
        assert x in ListIn(lists, k) <==> x in done && x in keys && keys[x] == k;
        if k == keys[id] { assert ListIn(more, k) == ListIn(lists, k) + [id]; }
      }
    }
  }

  /** By id: a later row of the table replaces an earlier one. */
  ghost predicate HoldsRows(byId: map<string, EdgeRow>, edges: seq<EdgeRow>, n: int)
    requires 0 <= n <= |edges|
  {
    RowsById(byId) && FromRows(byId, edges[..n]) && LastRowsWin(byId, edges, n)
  }

  ghost predicate FromRows(byId: map<string, EdgeRow>, rows: seq<EdgeRow>) {
    && (forall id :: id in byId ==> byId[id] in rows)
    && (forall row :: row in rows ==> row.threadId in byId)
  }

  ghost predicate LastRowsWin(byId: map<string, EdgeRow>, edges: seq<EdgeRow>, n: int)
    requires 0 <= n <= |edges|
  {
    forall k :: 0 <= k < n && IsLast(edges, k, n) ==> edges[k].threadId in byId && byId[edges[k].threadId] == edges[k]
  }

  ghost predicate IsLast(edges: seq<EdgeRow>, k: int, n: int)
    requires 0 <= k < n <= |edges|
  {
    forall j :: k < j < n ==> edges[j].threadId != edges[k].threadId
  }

  method IndexEdges(edges: seq<EdgeRow>) returns (index: EdgeIndex)
    ensures IndexOk(index) && HoldsRows(index.byId, edges, |edges|)
  {
    var byId: map<string, EdgeRow> := map[];
    for i := 0 to |edges|
      invariant HoldsRows(byId, edges, i)
    {
      HoldsOneMore(byId, edges, i);
      byId := byId[edges[i].threadId := edges[i]];
    }
    var children, forks := ListAll(byId);
    index := EdgeIndex(byId, children, forks);
    GroupedIsIndex(index);
  }

  lemma HoldsOneMore(byId: map<string, EdgeRow>, edges: seq<EdgeRow>, i: nat)
    requires i < |edges| && HoldsRows(byId, edges, i)
    ensures HoldsRows(byId[edges[i].threadId := edges[i]], edges, i + 1)
  {
    assert edges[..i + 1] == edges[..i] + [edges[i]];
    FromOneMore(byId, edges[..i], edges[i]);
    LastRowsOneMore(byId, edges, i);
  }

  lemma FromOneMore(byId: map<string, EdgeRow>, rows: seq<EdgeRow>, row: EdgeRow)
    requires FromRows(byId, rows)
    ensures FromRows(byId[row.threadId := row], rows + [row])
  {
  }

  lemma LastRowsOneMore(byId: map<string, EdgeRow>, edges: seq<EdgeRow>, i: nat)
    requires i < |edges| && LastRowsWin(byId, edges, i)
    ensures LastRowsWin(byId[edges[i].threadId := edges[i]], edges, i + 1)
  {
    forall k | 0 <= k < i && IsLast(edges, k, i + 1) ensures IsLast(edges, k, i) && edges[i].threadId != edges[k].threadId {
    }
  }

  lemma GroupedIsIndex(index: EdgeIndex)
    requires RowsById(index.byId)
    requires Grouped(index.children, index.byId.Keys, ChildKeys(index.byId)) && Grouped(index.forks, index.byId.Keys, ForkKeys(index.byId))
    ensures IndexOk(index)
  {
  }

  method ListAll(byId: map<string, EdgeRow>) returns (children: map<string, seq<string>>, forks: map<string, seq<string>>)
    requires RowsById(byId)
    ensures Grouped(children, byId.Keys, ChildKeys(byId)) && Grouped(forks, byId.Keys, ForkKeys(byId))
  {
    children, forks := map[], map[];
    var left := byId.Keys;
    while left != {}
      invariant left <= byId.Keys
      invariant Grouped(children, byId.Keys - left, ChildKeys(byId)) && Grouped(forks, byId.Keys - left, ForkKeys(byId))
      decreases |left|
    {
      var id :| id in left;
      var edge := byId[id];
      GroupedOneMore(children, byId.Keys - left, ChildKeys(byId), id);
      GroupedOneMore(forks, byId.Keys - left, ForkKeys(byId), id);
      assert byId.Keys - left + {id} == byId.Keys - (left - {id});
      left := left - {id};
      if IsFork(edge) {
        forks := Pushed(forks, edge.sourceThreadId.value, id);
      } else if edge.parentThreadId.Some? && edge.parentThreadId.value != id {
        children := Pushed(children, edge.parentThreadId.value, id);
      }
    }
    assert byId.Keys - {} == byId.Keys;
  }

  // ---- the same relation as a thread listing ----

  /** A thread with only the id and the parent the tree follows. */
  function Linked(byId: map<string, EdgeRow>, id: string): Thread {
    Thread(id, TreeParent(byId, id), None, false, None, false, NothingQueued, OtherStatus(""), OtherRuntime(""), Activity(0, 0, 0, 0, 0), 0, 0, 0)
  }

  ghost function LinkedOf(byId: map<string, EdgeRow>, ids: set<string>): seq<Thread> {
    if ids == {} then []
    else
      var id :| id in ids;
      [Linked(byId, id)] + LinkedOf(byId, ids - {id})
  }

  /** The edge table as a listing whose parent links are the tree's. */
  ghost function Listing(byId: map<string, EdgeRow>): seq<Thread> { LinkedOf(byId, byId.Keys) }

  lemma UniqueWithFirst(first: Thread, rest: seq<Thread>)
    requires UniqueIds(rest) && forall t :: t in rest ==> t.id != first.id
    ensures UniqueIds([first] + rest)
  {
    var all := [first] + rest;
    forall j | 1 <= j < |all| ensures all[j] == rest[j - 1] && all[j].id != first.id {
      assert rest[j - 1] in rest;
    }
  }

  lemma {:induction false} LinkedOfIs(byId: map<string, EdgeRow>, ids: set<string>)
    ensures UniqueIds(LinkedOf(byId, ids))
    ensures forall t :: t in LinkedOf(byId, ids) <==> t.id in ids && t == Linked(byId, t.id)
  {
    if ids != {} {
      var id :| id in ids && LinkedOf(byId, ids) == [Linked(byId, id)] + LinkedOf(byId, ids - {id});
      LinkedOfIs(byId, ids - {id});
      UniqueWithFirst(Linked(byId, id), LinkedOf(byId, ids - {id}));
    }
  }

  lemma ListingIs(byId: map<string, EdgeRow>)
    ensures UniqueIds(Listing(byId)) && Ids(Listing(byId)) == byId.Keys
    ensures forall id :: ParentIn(ById(Listing(byId)), id) == TreeParent(byId, id)
    ensures forall p, c :: ThreadTree.Edge(Listing(byId), p, c) <==> TreeParent(byId, c) == Some(p)
  {
    var listing := Listing(byId);
    LinkedOfIs(byId, byId.Keys);
    ByIdFinds(listing);
    forall id ensures id in byId <==> id in Ids(listing) {
      if id in byId { assert Linked(byId, id) in listing; }
    }
    forall id ensures ParentIn(ById(listing), id) == TreeParent(byId, id) {
      if id in byId { assert ById(listing)[id] in listing; }
    }
    forall p, c ensures ThreadTree.Edge(listing, p, c) <==> TreeParent(byId, c) == Some(p) {
      if TreeParent(byId, c) == Some(p) {
        assert Linked(byId, c) in listing;
      }
    }
  }

  lemma EdgesAgree(byId: map<string, EdgeRow>, p: string, c: string)
    ensures ThreadTree.Edge(Listing(byId), p, c) <==> TreeParent(byId, c) == Some(p)
  {
    ListingIs(byId);
  }

  lemma ParentsAgree(byId: map<string, EdgeRow>, id: string)
    ensures ParentIn(ById(Listing(byId)), id) == TreeParent(byId, id)
  {
    ListingIs(byId);
  }

  // ---- the tree under a thread ----

  datatype TreeNode = TreeNode(threadId: string, children: seq<TreeNode>)

  /** Every thread of the tree, root first, depth-first. */
  function NodeIds(node: TreeNode): seq<string>
    decreases node
  {
    [node.threadId] + NodesIds(node.children)
  }

  function NodesIds(nodes: seq<TreeNode>): seq<string>
    decreases nodes
  {
    if nodes == [] then [] else NodesIds(nodes[..|nodes| - 1]) + NodeIds(nodes[|nodes| - 1])
  }

  function Unseen(ids: seq<string>, seen: set<string>): seq<string> {
    if ids == [] then []
    else Unseen(ids[..|ids| - 1], seen) + if ids[|ids| - 1] in seen then [] else [ids[|ids| - 1]]
  }

  lemma {:induction false} UnseenIs(ids: seq<string>, seen: set<string>)
    requires NoRepeats(ids)
    ensures NoRepeats(Unseen(ids, seen)) && forall id :: id in Unseen(ids, seen) <==> id in ids && id !in seen
  {
    if ids != [] {
      var rest, last := ids[..|ids| - 1], ids[|ids| - 1];
      assert ids == rest + [last] && last !in rest;
      UnseenIs(rest, seen);
      if last !in seen { NoRepeatsAppend(Unseen(rest, seen), last); }
    }
  }

  ghost predicate InTree(byId: map<string, EdgeRow>, root: string, id: string) {
    id == root || Below(Listing(byId), root, id)
  }

  /** The ids hold the children of each of theirs, but for those seen before. */
  ghost predicate ClosedBut(byId: map<string, EdgeRow>, ids: seq<string>, seen: set<string>) {
    forall c :: TreeParent(byId, c).Some? && TreeParent(byId, c).value in ids ==> c in ids || c in seen
  }

  /** A subtree walked from `id`: each thread once, none seen before, each but `id` under its parent. */
  ghost predicate Walked(byId: map<string, EdgeRow>, id: string, seen: set<string>, ids: seq<string>) {
    && NoRepeats(ids) && id in ids
    && (forall x :: x in ids ==> x !in seen && InTree(byId, id, x))
    && (forall x :: x in ids && x != id ==> TreeParent(byId, x).Some? && TreeParent(byId, x).value in ids)
    && ClosedBut(byId, ids, seen)
  }

  /** The subtrees of the kids walked so far. */
  ghost predicate WalkedKids(byId: map<string, EdgeRow>, id: string, seen: set<string>, kids: seq<string>, n: int, ids: seq<string>)
    requires 0 <= n <= |kids|
  {
    && NoRepeats(ids)
    && (forall x :: x in ids ==> x !in seen && InTree(byId, id, x))
    && (forall x :: x in ids ==> TreeParent(byId, x).Some? && (TreeParent(byId, x).value in ids || (TreeParent(byId, x).value == id && x in kids[..n])))
    && (forall i :: 0 <= i < n ==> kids[i] in ids)
    && ClosedBut(byId, ids, seen)
  }

  lemma NoRepeatsJoin(a: seq<string>, b: seq<string>)
    requires NoRepeats(a) && NoRepeats(b) && forall x :: x in b ==> x !in a
    ensures NoRepeats(a + b)
  {
    forall i, j | 0 <= i < j < |a + b| ensures (a + b)[i] != (a + b)[j] {
      if i < |a| <= j { assert b[j - |a|] in b; }
    }
  }

  lemma UnderKid(byId: map<string, EdgeRow>, id: string, kid: string, x: string)
    requires TreeParent(byId, kid) == Some(id) && InTree(byId, kid, x)
    ensures Below(Listing(byId), id, x)
  {
    ListingIs(byId);
    EdgeIsBelow(Listing(byId), id, kid);
    if x != kid { BelowTransitive(Listing(byId), id, kid, x); }
  }

  /** A kid not walked yet has not been met in the subtrees before it: its one parent is `id`. */
  lemma KidIsNew(byId: map<string, EdgeRow>, id: string, seen: set<string>, kids: seq<string>, n: nat, ids: seq<string>)
    requires NoRepeats(kids) && n < |kids| && id in seen && TreeParent(byId, kids[n]) == Some(id)
    requires WalkedKids(byId, id, seen, kids, n, ids)
    ensures kids[n] !in ids
  {
  }

  lemma OneKidMore(byId: map<string, EdgeRow>, id: string, seen: set<string>, kids: seq<string>, n: nat, ids: seq<string>, more: seq<string>)
    requires NoRepeats(kids) && n < |kids| && id in seen && TreeParent(byId, kids[n]) == Some(id)
    requires WalkedKids(byId, id, seen, kids, n, ids) && Walked(byId, kids[n], seen + Elements(ids), more)
    ensures WalkedKids(byId, id, seen, kids, n + 1, ids + more)
  {
    NoRepeatsJoin(ids, more);
    assert kids[..n + 1] == kids[..n] + [kids[n]];
    forall x | x in more ensures InTree(byId, id, x) {
      UnderKid(byId, id, kids[n], x);
    }
  }

  lemma KidsMakeTree(byId: map<string, EdgeRow>, id: string, seen: set<string>, children: seq<string>, ids: seq<string>)
    requires id !in seen && NoRepeats(children)
    requires forall c :: c in children <==> TreeParent(byId, c) == Some(id) && id != c
    requires var kids := Unseen(children, seen + {id}); WalkedKids(byId, id, seen + {id}, kids, |kids|, ids)
    ensures Walked(byId, id, seen, [id] + ids)
  {
    var kids := Unseen(children, seen + {id});
    UnseenIs(children, seen + {id});
    NoRepeatsJoin([id], ids);
    var all := [id] + ids;
    forall c | TreeParent(byId, c).Some? && TreeParent(byId, c).value in all ensures c in all || c in seen {
      if TreeParent(byId, c).value == id && c != id && c !in seen {
        assert c in kids;
        var i :| 0 <= i < |kids| && kids[i] == c;
      }
    }
  }

  /** The subtree of a thread not seen yet. A child seen already is left out, so cycles are cut. */
  method Build(index: EdgeIndex, id: string, seen: set<string>, ghost all: set<string>) returns (node: TreeNode, seenNow: set<string>)
    requires IndexOk(index) && index.byId.Keys <= all && id in all && id !in seen
    ensures node.threadId == id && Walked(index.byId, id, seen, NodeIds(node))
    ensures seenNow == seen + Elements(NodeIds(node))
    decreases |all - seen|, 0
  {
    var kids := Unseen(ListIn(index.children, id), seen + {id});
    UnseenIs(ListIn(index.children, id), seen + {id});
    assert |all - (seen + {id})| < |all - seen| by {
      assert all - seen == (all - (seen + {id})) + {id};
    }
    var nodes;
    nodes, seenNow := BuildKids(index, id, kids, seen + {id}, all);
    node := TreeNode(id, nodes);
    KidsMakeTree(index.byId, id, seen, ListIn(index.children, id), NodesIds(nodes));
  }

  method BuildKids(index: EdgeIndex, id: string, kids: seq<string>, seen: set<string>, ghost all: set<string>) returns (nodes: seq<TreeNode>, seenNow: set<string>)
    requires IndexOk(index) && index.byId.Keys <= all && id in seen
    requires NoRepeats(kids) && forall k :: k in kids ==> TreeParent(index.byId, k) == Some(id) && k !in seen
    ensures WalkedKids(index.byId, id, seen, kids, |kids|, NodesIds(nodes))
    ensures seenNow == seen + Elements(NodesIds(nodes))
    decreases |all - seen|, 1
  {
    nodes, seenNow := [], seen;
    for n := 0 to |kids|
      invariant WalkedKids(index.byId, id, seen, kids, n, NodesIds(nodes))
      invariant seenNow == seen + Elements(NodesIds(nodes))
    {
      assert kids[n] in kids;
      KidIsNew(index.byId, id, seen, kids, n, NodesIds(nodes));
      SubsetSize(all - seenNow, all - seen);
      ghost var ids := NodesIds(nodes);
      var kid;
      kid, seenNow := Build(index, kids[n], seenNow, all);
      OneKidMore(index.byId, id, seen, kids, n, ids, NodeIds(kid));
      NodesOneMore(nodes, kid);
      nodes := nodes + [kid];
    }
  }

  lemma NodesOneMore(nodes: seq<TreeNode>, last: TreeNode)
    ensures NodesIds(nodes + [last]) == NodesIds(nodes) + NodeIds(last)
  {
    assert (nodes + [last])[..|nodes|] == nodes;
  }

  /** The tree under a thread, whether or not the table lists it. */
  method TreeOf(index: EdgeIndex, rootId: string) returns (tree: TreeNode)
    requires IndexOk(index)
    ensures tree.threadId == rootId && NoRepeats(NodeIds(tree))
    ensures Elements(NodeIds(tree)) == Tree(Listing(index.byId), rootId)
  {
    var seen;
    tree, seen := Build(index, rootId, {}, index.byId.Keys + {rootId});
    WalkedIsTree(index.byId, rootId, NodeIds(tree));
  }

  lemma WalkedHoldsBelow(byId: map<string, EdgeRow>, root: string, ids: seq<string>, id: string)
    requires Walked(byId, root, {}, ids) && Below(Listing(byId), root, id)
    ensures id in ids
  {
    var listing := Listing(byId);
    var path :| ChainFrom(listing, path, root, id);
    forall p, c | p in Elements(ids) && ThreadTree.Edge(listing, p, c) ensures c in Elements(ids) {
      EdgesAgree(byId, p, c);
    }
    ClosedHoldsBelow(listing, root, Elements(ids), path);
  }

  /** A walk with nothing seen before finds exactly the threads at or below the root. */
  lemma WalkedIsTree(byId: map<string, EdgeRow>, root: string, ids: seq<string>)
    requires Walked(byId, root, {}, ids)
    ensures Elements(ids) == Tree(Listing(byId), root)
  {
    forall id ensures id in Elements(ids) <==> id in Tree(Listing(byId), root) {
      InDescendants(Listing(byId), root, id);
      if id != root && Below(Listing(byId), root, id) { WalkedHoldsBelow(byId, root, ids, id); }
    }
  }

  method TreeIds(index: EdgeIndex, rootId: string) returns (ids: seq<string>)
    requires IndexOk(index)
    ensures NoRepeats(ids) && Elements(ids) == Tree(Listing(index.byId), rootId)
  {
    var tree := TreeOf(index, rootId);
    ids := NodeIds(tree);
  }

  // ---- ancestors ----

  /** Ancestors by the parents the tree follows, nearest first; a fork's end at the fork. */
  method AncestorIds(index: EdgeIndex, threadId: string) returns (found: seq<string>)
    requires IndexOk(index)
    ensures found == Ancestors(ById(Listing(index.byId)), threadId)
  {
    ghost var byId := ById(Listing(index.byId));
    forall id ensures ParentIn(byId, id) == TreeParent(index.byId, id) {
      ParentsAgree(index.byId, id);
    }
    found := WalkParents(index, byId, threadId);
  }

  ghost predicate SameParents(byId: map<string, EdgeRow>, threads: map<string, Thread>) {
    forall id :: ParentIn(threads, id) == TreeParent(byId, id)
  }

  method WalkParents(index: EdgeIndex, ghost byId: map<string, Thread>, threadId: string) returns (found: seq<string>)
    requires SameParents(index.byId, byId)
    ensures found == Ancestors(byId, threadId)
  {
    found := [];
    var seen, at := {threadId}, threadId;
    var parent := TreeParent(index.byId, at);
    while parent.Some? && parent.value !in seen
      invariant parent == TreeParent(index.byId, at) == ParentIn(byId, at)
      invariant found + WalkUp(byId, at, seen) == Ancestors(byId, threadId)
      decreases NamedParents(byId) - seen
    {
      assert parent.value in NamedParents(byId);
      seen := seen + {parent.value};
      found := found + [parent.value];
      at := parent.value;
      parent := TreeParent(index.byId, at);
    }
  }

  /** The ancestors of a thread are exactly the other threads whose tree contains it. */
  lemma AncestorsAreItsRoots(byId: map<string, EdgeRow>, a: string, t: string)
    ensures a in [t] + Ancestors(ById(Listing(byId)), t) <==> t in Tree(Listing(byId), a)
    ensures NoRepeats([t] + Ancestors(ById(Listing(byId)), t))
  {
    ListingIs(byId);
    WalksAreDual(Listing(byId), a, t);
  }

  /** A fork is in no tree but its own. */
  lemma ForksStandAlone(byId: map<string, EdgeRow>, fork: string, root: string)
    requires fork in byId && IsFork(byId[fork]) && fork in Tree(Listing(byId), root)
    ensures fork == root
  {
    ListingIs(byId);
    if fork != root {
      InDescendants(Listing(byId), root, fork);
      var parent := LastStep(Listing(byId), root, fork);
    }
  }
}
