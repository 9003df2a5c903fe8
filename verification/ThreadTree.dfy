/** The walks down and up over threads' parents, on any parent graph, proved against one relation and each other. */
module ThreadTree {
  import opened Common
  import opened Threads

  // ---- the relation both walks are about ----

  /** Some listed thread `child` names `parent` as its parent. */
  ghost predicate Edge(threads: seq<Thread>, parent: string, child: string) {
    exists i :: 0 <= i < |threads| && threads[i].id == child && threads[i].parentThreadId == Some(parent)
  }

  ghost predicate Chain(threads: seq<Thread>, path: seq<string>) {
    forall i {:trigger path[i]} :: 0 <= i < |path| - 1 ==> Edge(threads, path[i], path[i + 1])
  }

  ghost predicate ChainFrom(threads: seq<Thread>, path: seq<string>, top: string, bottom: string) {
    && 2 <= |path|
    && path[0] == top
    && path[|path| - 1] == bottom
    && Chain(threads, path)
  }

  /** `bottom` is one or more child steps below `top`; on a cycle a thread is below itself. */
  ghost predicate Below(threads: seq<Thread>, top: string, bottom: string) {
    exists path :: ChainFrom(threads, path, top, bottom)
  }

  lemma EdgeIsBelow(threads: seq<Thread>, parent: string, child: string)
    requires Edge(threads, parent, child)
    ensures Below(threads, parent, child)
  {
    assert ChainFrom(threads, [parent, child], parent, child);
  }

  lemma BelowThenEdge(threads: seq<Thread>, top: string, parent: string, child: string)
    requires Below(threads, top, parent) && Edge(threads, parent, child)
    ensures Below(threads, top, child)
  {
    var path :| ChainFrom(threads, path, top, parent);
    assert ChainFrom(threads, path + [child], top, child);
  }

  lemma BelowTransitive(threads: seq<Thread>, a: string, b: string, c: string)
    requires Below(threads, a, b) && Below(threads, b, c)
    ensures Below(threads, a, c)
  {
    var p :| ChainFrom(threads, p, a, b);
    var q :| ChainFrom(threads, q, b, c);
    var path := p + q[1..];
    forall i | 0 <= i < |path| - 1
      ensures Edge(threads, path[i], path[i + 1])
    {
      if i < |p| - 1 {
        assert path[i] == p[i] && path[i + 1] == p[i + 1];
      } else {
        assert path[i] == q[i - |p| + 1] && path[i + 1] == q[i - |p| + 2];
      }
    }
    assert ChainFrom(threads, path, a, c);
  }

  /** Every thread below `top` is a child of `top` or of a thread below it. */
  lemma LastStep(threads: seq<Thread>, top: string, bottom: string) returns (parent: string)
    requires Below(threads, top, bottom)
    ensures Edge(threads, parent, bottom)
    ensures parent == top || Below(threads, top, parent)
  {
    var path :| ChainFrom(threads, path, top, bottom);
    parent := path[|path| - 2];
    assert Edge(threads, parent, path[|path| - 2 + 1]);
    if 2 < |path| {
      assert ChainFrom(threads, path[..|path| - 1], top, parent);
    }
  }

  /** Every thread below `top` is a child of `top` or below such a child. */
  lemma FirstStep(threads: seq<Thread>, top: string, bottom: string) returns (child: string)
    requires Below(threads, top, bottom)
    ensures Edge(threads, top, child)
    ensures child == bottom || Below(threads, child, bottom)
  {
    var path :| ChainFrom(threads, path, top, bottom);
    child := path[1];
    assert Edge(threads, path[0], path[0 + 1]);
    if 2 < |path| {
      var rest := path[1..];
      forall i | 0 <= i < |rest| - 1
        ensures Edge(threads, rest[i], rest[i + 1])
      {
        assert rest[i] == path[i + 1] && rest[i + 1] == path[i + 2];
      }
      assert ChainFrom(threads, rest, child, bottom);
    }
  }

  lemma BelowIsListed(threads: seq<Thread>, top: string, bottom: string)
    requires Below(threads, top, bottom)
    ensures bottom in Ids(threads)
  {
    var parent := LastStep(threads, top, bottom);
  }

  /** A set that holds the children of `top` and of its own members holds all that is below `top`. */
  lemma {:induction false} ClosedHoldsBelow(threads: seq<Thread>, top: string, closed: set<string>, path: seq<string>)
    requires forall child :: Edge(threads, top, child) ==> child in closed
    requires forall p, child :: p in closed && Edge(threads, p, child) ==> child in closed
    requires |path| >= 2 && path[0] == top && Chain(threads, path)
    ensures path[|path| - 1] in closed
  {
    assert Edge(threads, path[|path| - 2], path[|path| - 2 + 1]);
    if |path| > 2 {
      ClosedHoldsBelow(threads, top, closed, path[..|path| - 1]);
    }
  }

  /** The threads below `top`, itself included when a cycle leads back to it. */
  ghost function AllBelow(threads: seq<Thread>, top: string): set<string> {
    set id | id in Ids(threads) && Below(threads, top, id)
  }

  /** The threads the downward walk is to find: those below `root`, without `root`. */
  ghost function Descendants(threads: seq<Thread>, root: string): set<string> {
    AllBelow(threads, root) - {root}
  }

  lemma InDescendants(threads: seq<Thread>, root: string, id: string)
    ensures id in Descendants(threads, root) <==> id != root && Below(threads, root, id)
  {
    if Below(threads, root, id) {
      BelowIsListed(threads, root, id);
    }
  }

  // ---- the walk down ----

  /** The ids of the threads whose parent is `parent`, in list order. */
  function ChildIds(threads: seq<Thread>, parent: string): (ids: seq<string>)
    ensures forall id :: id in ids <==> Edge(threads, parent, id)
  {
    if threads == [] then []
    else
      var rest := threads[..|threads| - 1];
      var last := threads[|threads| - 1];
      assert forall i :: 0 <= i < |rest| ==> rest[i] == threads[i];
      ChildIds(rest, parent) + if last.parentThreadId == Some(parent) then [last.id] else []
  }

  predicate IsChildMap(threads: seq<Thread>, children: map<string, seq<string>>) {
    && (forall p :: p in children ==> children[p] == ChildIds(threads, p))
    && (forall i :: 0 <= i < |threads| && threads[i].parentThreadId.Some? ==> threads[i].parentThreadId.value in children)
  }

  function ChildrenIn(children: map<string, seq<string>>, id: string): seq<string> {
    if id in children then children[id] else []
  }

  method ChildMap(threads: seq<Thread>) returns (children: map<string, seq<string>>)
    ensures IsChildMap(threads, children)
    ensures forall p :: ChildrenIn(children, p) == ChildIds(threads, p)
  {
    children := map[];
    for i := 0 to |threads|
      invariant forall p :: p in children ==> children[p] == ChildIds(threads[..i], p)
      invariant forall j :: 0 <= j < i && threads[j].parentThreadId.Some? ==> threads[j].parentThreadId.value in children
      invariant forall p :: ChildrenIn(children, p) == ChildIds(threads[..i], p)
    {
      var thread := threads[i];
      assert threads[..i + 1][..i] == threads[..i];
      if thread.parentThreadId.Some? {
        var parent := thread.parentThreadId.value;
        children := children[parent := ChildrenIn(children, parent) + [thread.id]];
      }
    }
    assert threads[..|threads|] == threads;
  }

  /** The `k`th id walked to is a child of one walked to before it. */
  ghost predicate HasEarlierParent(threads: seq<Thread>, queue: seq<string>, k: int)
    requires 0 <= k < |queue|
  {
    exists j :: 0 <= j < k && Edge(threads, queue[j], queue[k])
  }

  /** A walk down from its first id: each id once, and every other id below the first and after its parent. */
  ghost predicate Walk(threads: seq<Thread>, queue: seq<string>) {
    && queue != []
    && NoRepeats(queue)
    && forall k :: 1 <= k < |queue| ==> Below(threads, queue[0], queue[k]) && HasEarlierParent(threads, queue, k)
  }

  /** The children of the first `next` ids walked are all among the ids walked. */
  ghost predicate ChildrenFound(threads: seq<Thread>, queue: seq<string>, next: int)
    requires 0 <= next <= |queue|
  {
    forall i, child :: 0 <= i < next && Edge(threads, queue[i], child) ==> child in queue
  }

  lemma WalkOneMore(threads: seq<Thread>, queue: seq<string>, at: int, child: string)
    requires Walk(threads, queue)
    requires 0 <= at < |queue| && Edge(threads, queue[at], child) && child !in queue
    ensures Walk(threads, queue + [child])
  {
    if at == 0 {
      EdgeIsBelow(threads, queue[0], child);
    } else {
      BelowThenEdge(threads, queue[0], queue[at], child);
    }
    var more := queue + [child];
    forall k | 1 <= k < |more|
      ensures Below(threads, more[0], more[k]) && HasEarlierParent(threads, more, k)
    {
      if k < |queue| {
        assert HasEarlierParent(threads, queue, k);
        var j :| 0 <= j < k && Edge(threads, queue[j], queue[k]);
        assert Edge(threads, more[j], more[k]);
      } else {
        assert Edge(threads, more[at], more[k]);
      }
    }
  }

  lemma WalkIsShort(threads: seq<Thread>, queue: seq<string>)
    requires Walk(threads, queue)
    ensures |queue| <= |Ids(threads) + {queue[0]}|
  {
    forall q | q in queue ensures q in Ids(threads) + {queue[0]} {
      if q != queue[0] { BelowIsListed(threads, queue[0], q); }
    }
    CountNoRepeats(queue);
    SubsetSize(Elements(queue), Ids(threads) + {queue[0]});
  }

  lemma WalkDone(threads: seq<Thread>, queue: seq<string>)
    requires Walk(threads, queue)
    requires ChildrenFound(threads, queue, |queue|)
    ensures Elements(queue[1..]) == Descendants(threads, queue[0])
  {
    var seen, root := Elements(queue), queue[0];
    forall p, child | p in seen && Edge(threads, p, child)
      ensures child in seen
    {
      var i :| 0 <= i < |queue| && queue[i] == p;
    }
    forall id
      ensures id in Elements(queue[1..]) <==> id in Descendants(threads, root)
    {
      InDescendants(threads, root, id);
      if id != root && Below(threads, root, id) {
        var path :| ChainFrom(threads, path, root, id);
        ClosedHoldsBelow(threads, root, seen, path);
        var k :| 0 <= k < |queue| && queue[k] == id;
        assert queue[1..][k - 1] == id;
      }
    }
  }

  /** `queue` with each of `kids` it does not hold yet pushed at its end. */
  function Pushed(queue: seq<string>, kids: seq<string>): seq<string> {
    if kids == [] then queue
    else
      var before := Pushed(queue, kids[..|kids| - 1]);
      var last := kids[|kids| - 1];
      if last in before then before else before + [last]
  }

  lemma {:induction false} PushedWalks(threads: seq<Thread>, queue: seq<string>, kids: seq<string>, at: int)
    requires Walk(threads, queue) && 0 <= at < |queue|
    requires forall k :: k in kids ==> Edge(threads, queue[at], k)
    ensures Walk(threads, Pushed(queue, kids)) && queue <= Pushed(queue, kids)
    ensures forall k :: k in kids ==> k in Pushed(queue, kids)
  {
    if kids != [] {
      var rest, last := kids[..|kids| - 1], kids[|kids| - 1];
      PushedWalks(threads, queue, rest, at);
      var before := Pushed(queue, rest);
      if last !in before {
        WalkOneMore(threads, before, at, last);
      }
    }
  }

  /** Pushes the children a walk has not been to. */
  method PushUnseen(queue: seq<string>, kids: seq<string>, seen: set<string>) returns (more: seq<string>, seenNow: set<string>)
    requires seen == Elements(queue)
    ensures more == Pushed(queue, kids) && seenNow == Elements(more)
  {
    more, seenNow := queue, seen;
    for k := 0 to |kids|
      invariant more == Pushed(queue, kids[..k]) && seenNow == Elements(more)
    {
      assert kids[..k + 1][..k] == kids[..k];
      var childId := kids[k];
      if childId !in seenNow {
        seenNow := seenNow + {childId};
        more := more + [childId];
      }
    }
    assert kids[..|kids|] == kids;
  }

  lemma AtFound(threads: seq<Thread>, queue: seq<string>, more: seq<string>, at: int)
    requires 0 <= at < |queue| && queue <= more && ChildrenFound(threads, queue, at)
    requires forall child :: child in ChildIds(threads, queue[at]) ==> child in more
    ensures ChildrenFound(threads, more, at + 1)
  {
    forall i, child | 0 <= i < at + 1 && Edge(threads, more[i], child)
      ensures child in more
    {
      assert more[i] == queue[i];
      if i == at {
        assert child in ChildIds(threads, queue[at]);
      } else {
        assert child in queue;
      }
    }
  }

  /**
   * The ids below `rootId`, breadth first, without `rootId`; a parent cycle
   * ends where it closes. `found` holds exactly the descendants, each once,
   * and no thread before its parent.
   */
  method DescendantIds(threads: seq<Thread>, rootId: string) returns (found: seq<string>)
    ensures Walk(threads, [rootId] + found)
    ensures Elements(found) == Descendants(threads, rootId)
  {
    var children := ChildMap(threads);
    var queue := [rootId];
    var seen := {rootId};
    var next := 0;
    while next < |queue|
      invariant seen == Elements(queue)
      invariant 0 <= next <= |queue| && 0 < |queue| && queue[0] == rootId
      invariant Walk(threads, queue)
      invariant ChildrenFound(threads, queue, next)
      decreases |Ids(threads) + {rootId}| - next
    {
      WalkIsShort(threads, queue);
      var kids := ChildrenIn(children, queue[next]);
      PushedWalks(threads, queue, kids, next);
      var more;
      more, seen := PushUnseen(queue, kids, seen);
      AtFound(threads, queue, more, next);
      queue := more;
      next := next + 1;
    }
    WalkDone(threads, queue);
    found := queue[1..];
    assert queue == [rootId] + found;
  }

  /** `rootId` and the ids below it. */
  method TreeIds(threads: seq<Thread>, rootId: string) returns (ids: seq<string>)
    ensures Walk(threads, ids) && ids[0] == rootId
    ensures Elements(ids) == Tree(threads, rootId)
  {
    var below := DescendantIds(threads, rootId);
    ids := [rootId] + below;
    assert Elements(ids) == {rootId} + Elements(below);
  }

  ghost function Tree(threads: seq<Thread>, rootId: string): set<string> {
    {rootId} + Descendants(threads, rootId)
  }

  // ---- the walk up ----

  function ParentIn(byId: map<string, Thread>, id: string): Option<string> {
    if id in byId then byId[id].parentThreadId else None
  }

  /** Every parent some thread of `byId` names. */
  function NamedParents(byId: map<string, Thread>): set<string> {
    set k | k in byId && byId[k].parentThreadId.Some? :: byId[k].parentThreadId.value
  }

  /** The walk up from `at` that has already been to `seen`: it stops at an unknown parent and where a cycle closes. */
  ghost function WalkUp(byId: map<string, Thread>, at: string, seen: set<string>): seq<string>
    decreases NamedParents(byId) - seen
  {
    var parent := ParentIn(byId, at);
    if parent.None? || parent.value in seen then []
    else
      assert parent.value in NamedParents(byId);
      [parent.value] + WalkUp(byId, parent.value, seen + {parent.value})
  }

  /** The ids above `threadId`, nearest first. */
  ghost function Ancestors(byId: map<string, Thread>, threadId: string): seq<string> {
    WalkUp(byId, threadId, {threadId})
  }

  method AncestorIds(byId: map<string, Thread>, threadId: string) returns (found: seq<string>)
    ensures found == Ancestors(byId, threadId)
  {
    found := [];
    var seen := {threadId};
    var parentId := ParentIn(byId, threadId);
    ghost var at := threadId;
    while parentId.Some? && parentId.value !in seen
      invariant parentId == ParentIn(byId, at)
      invariant found + WalkUp(byId, at, seen) == Ancestors(byId, threadId)
      decreases NamedParents(byId) - seen
    {
      assert parentId.value in NamedParents(byId);
      at := parentId.value;
      seen := seen + {parentId.value};
      found := found + [parentId.value];
      parentId := ParentIn(byId, parentId.value);
    }
  }

  lemma {:induction false} WalkUpMembers(byId: map<string, Thread>, at: string, seen: set<string>)
    ensures NoRepeats(WalkUp(byId, at, seen))
    ensures forall a :: a in WalkUp(byId, at, seen) ==> a !in seen
    decreases NamedParents(byId) - seen
  {
    var parent := ParentIn(byId, at);
    if parent.Some? && parent.value !in seen {
      assert parent.value in NamedParents(byId);
      WalkUpMembers(byId, parent.value, seen + {parent.value});
    }
  }

  // ---- duality ----

  /** With one thread per id, the parent map and the child relation say the same. */
  lemma EdgeIsParent(threads: seq<Thread>, parent: string, child: string)
    requires UniqueIds(threads)
    ensures Edge(threads, parent, child) <==> ParentIn(ById(threads), child) == Some(parent)
  {
    ByIdFinds(threads);
  }

  /** What the walk up names lies above where it started. */
  lemma {:induction false} WalkUpSound(threads: seq<Thread>, at: string, seen: set<string>, a: string)
    requires UniqueIds(threads)
    requires a in WalkUp(ById(threads), at, seen)
    ensures Below(threads, a, at)
    decreases NamedParents(ById(threads)) - seen
  {
    var byId := ById(threads);
    var parent := ParentIn(byId, at).value;
    assert parent in NamedParents(byId);
    EdgeIsParent(threads, parent, at);
    EdgeIsBelow(threads, parent, at);
    if a != parent {
      WalkUpSound(threads, parent, seen + {parent}, a);
      BelowTransitive(threads, a, parent, at);
    }
  }

  /**
   * The walk up misses nothing: a thread above `at` is on the walk or was
   * already seen, provided the walk arrived at `at` from a seen thread, so a
   * cycle that closes leads only to what was seen.
   */
  lemma {:induction false} WalkUpComplete(threads: seq<Thread>, at: string, seen: set<string>, path: seq<string>)
    requires UniqueIds(threads)
    requires |path| >= 2 && Chain(threads, path) && path[|path| - 1] == at
    requires at in seen
    requires forall s, p :: s in seen && s != at && ParentIn(ById(threads), s) == Some(p) ==> p in seen
    ensures path[0] in seen || path[0] in WalkUp(ById(threads), at, seen)
    decreases |path|
  {
    var byId := ById(threads);
    var parent := path[|path| - 2];
    assert Edge(threads, parent, path[|path| - 2 + 1]);
    EdgeIsParent(threads, parent, at);
    if parent in seen {
      SeenIsClosed(threads, seen, path);
    } else {
      assert parent in NamedParents(byId);
      if |path| > 2 {
        WalkUpComplete(threads, parent, seen + {parent}, path[..|path| - 1]);
      }
    }
  }

  lemma {:induction false} SeenIsClosed(threads: seq<Thread>, seen: set<string>, path: seq<string>)
    requires UniqueIds(threads)
    requires |path| >= 1 && Chain(threads, path) && path[|path| - 1] in seen
    requires forall s, p :: s in seen && ParentIn(ById(threads), s) == Some(p) ==> p in seen
    ensures path[0] in seen
    decreases |path|
  {
    if |path| > 1 {
      var parent := path[|path| - 2];
      assert Edge(threads, parent, path[|path| - 2 + 1]);
      EdgeIsParent(threads, parent, path[|path| - 1]);
      SeenIsClosed(threads, seen, path[..|path| - 1]);
    }
  }

  /**
   * The two walks are each other's converse on every parent graph, cyclic or
   * not: `a` is above `t` on the walk up exactly when the walk down from `a`
   * finds `t`; and neither walk names a thread twice.
   */
  lemma WalksAreDual(threads: seq<Thread>, a: string, t: string)
    requires UniqueIds(threads)
    ensures a in Ancestors(ById(threads), t) <==> t in Descendants(threads, a)
    ensures NoRepeats([t] + Ancestors(ById(threads), t))
  {
    var byId := ById(threads);
    WalkUpMembers(byId, t, {t});
    InDescendants(threads, a, t);
    if a in Ancestors(byId, t) {
      WalkUpSound(threads, t, {t}, a);
      assert a !in {t};
    }
    if a != t && Below(threads, a, t) {
      var path :| ChainFrom(threads, path, a, t);
      WalkUpComplete(threads, t, {t}, path);
    }
  }

  // ---- what the two walks are used for ----

  /** The ids with a picked thread below them, found by walking up from every picked thread. */
  ghost function Above(threads: seq<Thread>, pick: Thread -> bool): set<string> {
    AboveIn(threads, ById(threads), pick)
  }

  ghost function AboveIn(threads: seq<Thread>, byId: map<string, Thread>, pick: Thread -> bool): set<string> {
    set t, a | t in threads && pick(t) && a in Ancestors(byId, t.id) :: a
  }

  lemma AboveOneMore(threads: seq<Thread>, byId: map<string, Thread>, pick: Thread -> bool, i: nat)
    requires i < |threads|
    ensures AboveIn(threads[..i + 1], byId, pick)
      == AboveIn(threads[..i], byId, pick) + if pick(threads[i]) then Elements(Ancestors(byId, threads[i].id)) else {}
  {
    assert threads[..i + 1] == threads[..i] + [threads[i]];
  }

  method IdsAbove(threads: seq<Thread>, pick: Thread -> bool) returns (above: set<string>)
    ensures above == Above(threads, pick)
  {
    above := {};
    var byId := ById(threads);
    for i := 0 to |threads|
      invariant above == AboveIn(threads[..i], byId, pick)
    {
      AboveOneMore(threads, byId, pick, i);
      if pick(threads[i]) {
        var ids := AncestorIds(byId, threads[i].id);
        above := AddAll(above, ids);
      }
    }
    assert threads[..|threads|] == threads;
  }

  method AddAll(to: set<string>, ids: seq<string>) returns (all: set<string>)
    ensures all == to + Elements(ids)
  {
    all := to;
    for k := 0 to |ids|
      invariant all == to + Elements(ids[..k])
    {
      all := all + {ids[k]};
    }
    assert ids[..|ids|] == ids;
  }

  /** Walking up from every picked thread finds exactly the ids from which a walk down meets one. */
  lemma AboveIsPickedBelow(threads: seq<Thread>, pick: Thread -> bool, id: string)
    requires UniqueIds(threads)
    ensures id in Above(threads, pick) <==> exists t :: t in threads && pick(t) && t.id in Descendants(threads, id)
  {
    forall t | t in threads
      ensures id in Ancestors(ById(threads), t.id) <==> t.id in Descendants(threads, id)
    {
      WalksAreDual(threads, id, t.id);
    }
  }

  /** The first listed thread below `threadId` that a question or approval waits on. */
  method WaitingBelow(threads: seq<Thread>, threadId: string) returns (found: Option<Thread>)
    ensures found.Some? ==> found.value in threads && found.value.hasPendingInteraction && found.value.id in Descendants(threads, threadId)
    ensures found.None? ==> forall t :: t in threads && t.hasPendingInteraction ==> t.id !in Descendants(threads, threadId)
    ensures UniqueIds(threads) ==> (found.Some? <==> threadId in LiftedIds(threads))
  {
    var ids := DescendantIds(threads, threadId);
    found := None;
    var k := 0;
    while k < |threads| && found.None?
      invariant 0 <= k <= |threads|
      invariant found.None? ==> forall i :: 0 <= i < k ==> !(threads[i].hasPendingInteraction && threads[i].id in ids)
      invariant found.Some? ==> found.value in threads && found.value.hasPendingInteraction && found.value.id in ids
      decreases |threads| - k, found.None?
    {
      if threads[k].id in ids && threads[k].hasPendingInteraction {
        found := Some(threads[k]);
      }
      k := k + 1;
    }
    assert forall x :: x in ids <==> x in Elements(ids);
    if UniqueIds(threads) {
      AboveIsPickedBelow(threads, AsksUser, threadId);
    }
  }

  predicate AsksUser(thread: Thread) { thread.hasPendingInteraction }

  /** The ids a waiting question below lifts. */
  ghost function LiftedIds(threads: seq<Thread>): set<string> {
    Above(threads, AsksUser)
  }
}
