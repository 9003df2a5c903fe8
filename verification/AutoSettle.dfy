/** Auto-settle's planner: the loop that withdraws settles reaches a greatest fixpoint, and one pass is enough. */
module AutoSettle {
  import opened Common
  import opened Threads
  import opened ThreadTree
  import opened Lifecycle

  const DAY_MS := 24 * 60 * 60 * 1000

  datatype PullRequestState = Open | Draft | Closed | Merged

  /** `Unknown` is a failed lookup, `NoLookup` a lookup there is no way to make, `Absent` no pull request. */
  datatype PullRequestStatus = Unknown | NoLookup | Absent | Available(state: PullRequestState, updatedAt: Option<int>)

  datatype Settings = Settings(settleQuietThreads: bool, daysBeforeAutoSettle: int, settleMergedPullRequests: bool)

  datatype Decision = Keep | Settle | Unsettle

  datatype Input = Input(
    threads: seq<Thread>,
    rows: map<string, Row>,
    pullRequests: map<string, PullRequestStatus>,
    settings: Settings,
    heldBack: set<string>,
    now: int)

  /** On the Settled shelf by an automatic settle that attention has not made stale. */
  predicate IsAutoSettled(row: Option<Row>, thread: Thread) {
    row.Some? && row.value.settledAt.Some? && row.value.settledKind == Some(Auto) && Stale(row, thread.latestAttentionAt).None?
  }

  /** Pinned, busy, parked or snoozed. */
  predicate IsExcluded(thread: Thread, row: Option<Row>) {
    IsPinned(thread) || IsBusy(thread) || (row.Some? && (row.value.parkedAt.Some? || row.value.snoozeUntil.Some?))
  }

  function Decide(thread: Thread, row: Option<Row>, pullRequest: PullRequestStatus, settings: Settings, now: int): Decision {
    var auto := IsAutoSettled(row, thread);
    if HasManualMark(row) then Keep
    else if IsExcluded(thread, row) then (if auto then Unsettle else Keep)
    else if pullRequest.Unknown? then Keep
    else if pullRequest.NoLookup? && auto then Keep
    else
      var activityAt := LastActivityAt(thread);
      var blocked := pullRequest.Available? && (pullRequest.state.Open? || pullRequest.state.Draft?);
      var finished := pullRequest.Available? && !blocked && (pullRequest.state.Closed? || settings.settleMergedPullRequests);
      if finished && pullRequest.updatedAt.None? then Keep
      else
        var byPullRequest := finished && pullRequest.updatedAt.value > activityAt;
        var quiet := settings.settleQuietThreads && activityAt < now - settings.daysBeforeAutoSettle * DAY_MS;
        var should := byPullRequest || (!blocked && quiet);
        if should == auto then Keep else if should then Settle else Unsettle
  }

  function StatusOf(input: Input, thread: Thread): PullRequestStatus {
    if thread.environmentId.None? then Absent
    else Get(input.pullRequests, thread.environmentId.value).GetOr(Unknown)
  }

  function DecisionFor(input: Input, thread: Thread): Decision {
    Decide(thread, Get(input.rows, thread.id), StatusOf(input, thread), input.settings, input.now)
  }


  // ---- the meaning of the plan: a greatest fixpoint ----

  /**
   * What the withdrawing loop starts from: the threads each decision chose,
   * those their rows have settled, and the automatic settles among these that
   * may be returned for their tree's sake.
   */
  datatype Start = Start(
    threads: seq<Thread>, toSettle: set<string>, toUnsettle: set<string>, settledNow: set<string>, returnable: set<string>)

  /** A thread to settle is not settled yet, nothing is both to settle and to return, and what may be returned is settled. */
  predicate Apart(start: Start) {
    && start.toSettle !! start.settledNow
    && start.toSettle !! start.toUnsettle
    && start.returnable <= start.settledNow
  }

  /** The threads that count as settled or settling before any is withdrawn. */
  function Candidates(start: Start): set<string> { start.toSettle + (start.settledNow - start.toUnsettle) }

  /** The threads whose settle the planner may withdraw. */
  function Withdrawable(start: Start): set<string> { start.toSettle + (start.returnable - start.toUnsettle) }

  /** A thread does not hold up its ancestors' settle: a helper that is idle, or a visible thread among `standing`. */
  predicate Fine(threads: seq<Thread>, standing: set<string>, id: string) {
    var byId := ById(threads);
    if id in byId && byId[id].hidden then !IsBusy(byId[id]) else id in standing
  }

  ghost predicate WholeTree(threads: seq<Thread>, standing: set<string>, id: string) {
    forall d :: Below(threads, id, d) ==> Fine(threads, standing, d)
  }

  /** Every withdrawable thread that stands has its whole tree standing. */
  ghost predicate Closed(start: Start, standing: set<string>) {
    forall id :: id in standing && id in Withdrawable(start) ==> WholeTree(start.threads, standing, id)
  }

  ghost predicate InClosed(start: Start, closed: set<string>, id: string) {
    closed <= Candidates(start) && Closed(start, closed) && id in closed
  }

  /** The threads of some closed set of candidates: what stays settled or settling. */
  ghost function Standing(start: Start): set<string> {
    set id | id in Candidates(start) && exists closed :: InClosed(start, closed, id)
  }

  lemma WholeTreeMonotone(threads: seq<Thread>, small: set<string>, large: set<string>, id: string)
    requires small <= large && WholeTree(threads, small, id)
    ensures WholeTree(threads, large, id)
  {
    forall d | Below(threads, id, d) ensures Fine(threads, large, d) {
      assert Fine(threads, small, d);
    }
  }

  /** `Standing` is itself closed, and every closed set of candidates is inside it. */
  lemma StandingIsGreatest(start: Start)
    ensures Standing(start) <= Candidates(start) && Closed(start, Standing(start))
    ensures forall closed :: closed <= Candidates(start) && Closed(start, closed) ==> closed <= Standing(start)
  {
    forall id | id in Standing(start) && id in Withdrawable(start)
      ensures WholeTree(start.threads, Standing(start), id)
    {
      var closed :| InClosed(start, closed, id);
      assert forall x :: x in closed ==> InClosed(start, closed, x);
      WholeTreeMonotone(start.threads, closed, Standing(start), id);
    }
    forall closed | closed <= Candidates(start) && Closed(start, closed)
      ensures closed <= Standing(start)
    {
      assert forall x :: x in closed ==> InClosed(start, closed, x);
    }
  }

  /** A candidate whose whole tree stands stands itself. */
  lemma StandsWithTree(start: Start, id: string)
    requires id in Candidates(start) && WholeTree(start.threads, Standing(start), id)
    ensures id in Standing(start)
  {
    StandingIsGreatest(start);
    var with := Standing(start) + {id};
    forall other | other in with && other in Withdrawable(start) ensures WholeTree(start.threads, with, other) {
      WholeTreeMonotone(start.threads, Standing(start), with, other);
    }
    assert Closed(start, with);
  }

  ghost function PlanSettle(start: Start): set<string> { start.toSettle * Standing(start) }

  ghost function PlanUnsettle(start: Start): set<string> {
    start.toUnsettle + (start.returnable - Standing(start))
  }

  /** What the planner counts as settled or settling at some point of its loop. */
  function Counted(start: Start, settle: set<string>, unsettle: set<string>): set<string> {
    settle + (start.settledNow - unsettle)
  }

  /** What stands is exactly what the plan leaves counted. */
  lemma StandingIsCounted(start: Start)
    requires Apart(start)
    ensures Standing(start) == Counted(start, PlanSettle(start), PlanUnsettle(start))
  {
    StandingIsGreatest(start);
    // A settled thread that may not be returned stands whatever its tree.
    var fixed := start.settledNow - start.toUnsettle - start.returnable;
    var with := Standing(start) + fixed;
    forall id | id in with && id in Withdrawable(start) ensures WholeTree(start.threads, with, id) {
      WholeTreeMonotone(start.threads, Standing(start), with, id);
    }
    assert with <= Standing(start);
  }

  // ---- the walk that tells whether a whole tree is settled ----

  /** No parent cycle is reached from `id` on the way down. */
  ghost predicate Grounded(threads: seq<Thread>, id: string) {
    forall d :: Below(threads, id, d) ==> !Below(threads, d, d)
  }

  lemma ChildIsGrounded(threads: seq<Thread>, parent: string, child: string)
    requires Grounded(threads, parent) && Edge(threads, parent, child)
    ensures Grounded(threads, child)
  {
    EdgeIsBelow(threads, parent, child);
    forall d | Below(threads, child, d) ensures !Below(threads, d, d) {
      BelowTransitive(threads, parent, child, d);
    }
  }

  lemma ChildHasFewerBelow(threads: seq<Thread>, parent: string, child: string)
    requires Grounded(threads, parent) && Edge(threads, parent, child)
    ensures |AllBelow(threads, child)| < |AllBelow(threads, parent)|
  {
    EdgeIsBelow(threads, parent, child);
    forall id | id in AllBelow(threads, child) ensures id in AllBelow(threads, parent) {
      BelowTransitive(threads, parent, child, id);
    }
    BelowIsListed(threads, parent, child);
    assert child in AllBelow(threads, parent) && child !in AllBelow(threads, child);
    SubsetSize(AllBelow(threads, child), AllBelow(threads, parent));
  }

  lemma KidsAreSmaller(threads: seq<Thread>, parent: string)
    requires Grounded(threads, parent)
    ensures forall k :: k in ChildIds(threads, parent) ==> Grounded(threads, k) && |AllBelow(threads, k)| < |AllBelow(threads, parent)|
  {
    forall k | k in ChildIds(threads, parent)
      ensures Grounded(threads, k) && |AllBelow(threads, k)| < |AllBelow(threads, parent)|
    {
      ChildIsGrounded(threads, parent, k);
      ChildHasFewerBelow(threads, parent, k);
    }
  }

  /** How many threads a walk down from `pending` meets, counting one for each way to it. */
  ghost function WalkSize(threads: seq<Thread>, pending: seq<string>, bound: nat): nat
    requires forall id :: id in pending ==> Grounded(threads, id) && |AllBelow(threads, id)| < bound
    decreases bound, |pending|
  {
    if pending == [] then 0
    else
      var last := pending[|pending| - 1];
      var kids := ChildIds(threads, last);
      assert forall k :: k in kids ==> Grounded(threads, k) && |AllBelow(threads, k)| < |AllBelow(threads, last)| by {
        KidsAreSmaller(threads, last);
      }
      1 + WalkSize(threads, kids, |AllBelow(threads, last)|) + WalkSize(threads, pending[..|pending| - 1], bound)
  }

  lemma {:induction false} WalkSizeAnyBound(threads: seq<Thread>, pending: seq<string>, a: nat, b: nat)
    requires forall id :: id in pending ==> Grounded(threads, id) && |AllBelow(threads, id)| < a && |AllBelow(threads, id)| < b
    ensures WalkSize(threads, pending, a) == WalkSize(threads, pending, b)
    decreases |pending|
  {
    if pending != [] {
      WalkSizeAnyBound(threads, pending[..|pending| - 1], a, b);
    }
  }

  lemma {:induction false} WalkSizeConcat(threads: seq<Thread>, left: seq<string>, right: seq<string>, bound: nat)
    requires forall id :: id in left + right ==> Grounded(threads, id) && |AllBelow(threads, id)| < bound
    ensures forall id :: id in left ==> id in left + right
    ensures forall id :: id in right ==> id in left + right
    ensures WalkSize(threads, left + right, bound) == WalkSize(threads, left, bound) + WalkSize(threads, right, bound)
    decreases |right|
  {
    if right == [] {
      assert left + right == left;
    } else {
      var rest := right[..|right| - 1];
      assert (left + right)[..|left + right| - 1] == left + rest;
      WalkSizeConcat(threads, left, rest, bound);
    }
  }

  lemma FewBelow(threads: seq<Thread>, id: string)
    ensures |AllBelow(threads, id)| < |Ids(threads)| + 1
  {
    SubsetSize(AllBelow(threads, id), Ids(threads));
  }

  ghost function Remaining(threads: seq<Thread>, pending: seq<string>): nat
    requires forall id :: id in pending ==> Grounded(threads, id)
  {
    assert forall id :: id in pending ==> |AllBelow(threads, id)| < |Ids(threads)| + 1 by {
      forall id | id in pending ensures |AllBelow(threads, id)| < |Ids(threads)| + 1 { FewBelow(threads, id); }
    }
    WalkSize(threads, pending, |Ids(threads)| + 1)
  }

  function PopThenPush(threads: seq<Thread>, pending: seq<string>): (next: seq<string>)
    requires pending != []
    ensures forall id :: id in next <==> id in pending[..|pending| - 1] || Edge(threads, pending[|pending| - 1], id)
  {
    pending[..|pending| - 1] + ChildIds(threads, pending[|pending| - 1])
  }

  /** Replacing the last pending thread by its children leaves less to walk. */
  lemma StepShrinks(threads: seq<Thread>, pending: seq<string>)
    requires pending != [] && forall id :: id in pending ==> Grounded(threads, id)
    ensures var next := PopThenPush(threads, pending);
      && (forall id :: id in next ==> Grounded(threads, id))
      && Remaining(threads, next) < Remaining(threads, pending)
  {
    var id := pending[|pending| - 1];
    var rest, kids, bound := pending[..|pending| - 1], ChildIds(threads, id), |Ids(threads)| + 1;
    forall x ensures |AllBelow(threads, x)| < bound { FewBelow(threads, x); }
    KidsAreSmaller(threads, id);
    WalkSizeConcat(threads, rest, kids, bound);
    WalkSizeAnyBound(threads, kids, bound, |AllBelow(threads, id)|);
  }

  /** What is left to look at after some of a tree was found fine. */
  ghost predicate LeftToCheck(threads: seq<Thread>, standing: set<string>, root: string, pending: seq<string>) {
    && (forall id :: id in pending ==> Below(threads, root, id))
    && (forall d :: Below(threads, root, d) ==> Fine(threads, standing, d) || UnderPending(threads, pending, d))
  }

  ghost predicate UnderPending(threads: seq<Thread>, pending: seq<string>, d: string) {
    exists p :: p in pending && (p == d || Below(threads, p, d))
  }

  lemma NotWhole(threads: seq<Thread>, standing: set<string>, root: string, pending: seq<string>)
    requires pending != [] && LeftToCheck(threads, standing, root, pending)
    requires !Fine(threads, standing, pending[|pending| - 1])
    ensures !WholeTree(threads, standing, root)
  {
    assert Below(threads, root, pending[|pending| - 1]);
  }

  lemma CheckDone(threads: seq<Thread>, standing: set<string>, root: string)
    requires LeftToCheck(threads, standing, root, [])
    ensures WholeTree(threads, standing, root)
  {
    forall d | Below(threads, root, d) ensures Fine(threads, standing, d) {
      assert !UnderPending(threads, [], d);
    }
  }

  lemma StartCheck(threads: seq<Thread>, standing: set<string>, root: string)
    ensures LeftToCheck(threads, standing, root, ChildIds(threads, root))
  {
    var pending := ChildIds(threads, root);
    forall id | id in pending ensures Below(threads, root, id) { EdgeIsBelow(threads, root, id); }
    forall d | Below(threads, root, d) ensures UnderPending(threads, pending, d) {
      var child := FirstStep(threads, root, d);
      assert child in pending;
    }
  }

  lemma CheckOneMore(threads: seq<Thread>, standing: set<string>, root: string, pending: seq<string>)
    requires pending != []
    requires LeftToCheck(threads, standing, root, pending)
    requires Fine(threads, standing, pending[|pending| - 1])
    ensures LeftToCheck(threads, standing, root, PopThenPush(threads, pending))
  {
    var id := pending[|pending| - 1];
    var next := PopThenPush(threads, pending);
    forall x | x in next ensures Below(threads, root, x) {
      if x !in pending {
        BelowThenEdge(threads, root, id, x);
      }
    }
    forall d | Below(threads, root, d) && !Fine(threads, standing, d)
      ensures UnderPending(threads, next, d)
    {
      var p :| p in pending && (p == d || Below(threads, p, d));
      StillUnder(threads, pending, p, d);
    }
  }

  lemma StillUnder(threads: seq<Thread>, pending: seq<string>, p: string, d: string)
    requires p in pending && (p == d || Below(threads, p, d))
    requires p == d ==> p != pending[|pending| - 1]
    ensures UnderPending(threads, PopThenPush(threads, pending), d)
  {
    var next := PopThenPush(threads, pending);
    if p == pending[|pending| - 1] {
      var child := FirstStep(threads, p, d);
      assert child in next;
    } else {
      assert p in next;
    }
  }

  /** What a walk that looks at up to `n` more threads has found, when it is over by then. */
  function WalkFor(threads: seq<Thread>, standing: set<string>, pending: seq<string>, n: nat): Option<bool>
    decreases n
  {
    if pending == [] then Some(true)
    else if n == 0 then None
    else if !Fine(threads, standing, pending[|pending| - 1]) then Some(false)
    else WalkFor(threads, standing, PopThenPush(threads, pending), n - 1)
  }

  ghost predicate WalkEnds(threads: seq<Thread>, standing: set<string>, root: string) {
    exists n: nat :: WalkFor(threads, standing, ChildIds(threads, root), n).Some?
  }

  /**
   * Whether every thread below `root` is fine. The walk stops at the first
   * that is not, and keeps no record of where it has been: on a parent cycle
   * of fine threads it would not end.
   */
  method IsWholeTreeSettled(threads: seq<Thread>, children: map<string, seq<string>>, byId: map<string, Thread>,
                            standing: set<string>, root: string) returns (whole: bool)
    requires WalkEnds(threads, standing, root)
    requires forall p :: ChildrenIn(children, p) == ChildIds(threads, p)
    requires byId == ById(threads)
    ensures whole <==> WholeTree(threads, standing, root)
  {
    var pending := ChildrenIn(children, root);
    StartCheck(threads, standing, root);
    ghost var n: nat :| WalkFor(threads, standing, ChildIds(threads, root), n).Some?;
    while pending != []
      invariant LeftToCheck(threads, standing, root, pending) && WalkFor(threads, standing, pending, n).Some?
      decreases n
    {
      var id := pending[|pending| - 1];
      var thread := Get(byId, id);
      if thread.Some? && thread.value.hidden {
        if IsBusy(thread.value) {
          NotWhole(threads, standing, root, pending);
          return false;
        }
      } else if id !in standing {
        NotWhole(threads, standing, root, pending);
        return false;
      }
      CheckOneMore(threads, standing, root, pending);
      pending := pending[..|pending| - 1] + ChildrenIn(children, id);
      n := n - 1;
    }
    CheckDone(threads, standing, root);
    return true;
  }

  // ---- when the walk ends ----

  ghost predicate Endless(threads: seq<Thread>, standing: set<string>, pending: seq<string>) {
    forall n: nat :: WalkFor(threads, standing, pending, n).None?
  }

  lemma EndlessStep(threads: seq<Thread>, standing: set<string>, pending: seq<string>)
    requires Endless(threads, standing, pending)
    ensures pending != [] && Fine(threads, standing, pending[|pending| - 1])
    ensures Endless(threads, standing, PopThenPush(threads, pending))
  {
    assert WalkFor(threads, standing, pending, 1).None?;
    forall n: nat ensures WalkFor(threads, standing, PopThenPush(threads, pending), n).None? {
      assert WalkFor(threads, standing, pending, n + 1).None?;
    }
  }

  /** The child of `p` at `k` is looked at once all listed after it are done with, and no cycle is among or below those. */
  ghost predicate LastLooked(threads: seq<Thread>, p: string, k: int) {
    var kids := ChildIds(threads, p);
    0 <= k < |kids| && forall j :: k < j < |kids| ==> Grounded(threads, kids[j])
  }

  /** `child` is the last listed child of `p` that leads to a cycle: where a walk down from `p` goes and never comes back. */
  ghost predicate LeadsOn(threads: seq<Thread>, p: string, child: string) {
    exists k :: LastLooked(threads, p, k) && ChildIds(threads, p)[k] == child && !Grounded(threads, child)
  }

  ghost predicate Route(threads: seq<Thread>, path: seq<string>, root: string) {
    path != [] && path[0] == root && forall i {:trigger path[i]} :: 0 <= i < |path| - 1 ==> LeadsOn(threads, path[i], path[i + 1])
  }

  /** A walk down from `p` looks at `d` before, or as, it is led on. */
  ghost predicate LooksAt(threads: seq<Thread>, p: string, d: string) {
    exists k :: LastLooked(threads, p, k) && AtOrUnder(threads, ChildIds(threads, p)[k], d)
  }

  ghost predicate AtOrUnder(threads: seq<Thread>, id: string, d: string) {
    d == id || (Grounded(threads, id) && Below(threads, id, d))
  }

  /** A walk down from `root` meets `d`, unless it meets a thread that is not fine before. */
  ghost predicate Met(threads: seq<Thread>, root: string, d: string) {
    exists path :: Route(threads, path, root) && LooksAt(threads, path[|path| - 1], d)
  }

  lemma {:induction false} GroundedWalkEnds(threads: seq<Thread>, standing: set<string>, pending: seq<string>) returns (n: nat)
    requires forall id :: id in pending ==> Grounded(threads, id)
    ensures WalkFor(threads, standing, pending, n).Some?
    decreases Remaining(threads, pending)
  {
    n := 0;
    if pending != [] {
      StepShrinks(threads, pending);
      n := GroundedWalkEnds(threads, standing, PopThenPush(threads, pending));
      n := n + 1;
    }
  }

  lemma PushOnto(threads: seq<Thread>, rest: seq<string>, part: seq<string>)
    requires part != []
    ensures PopThenPush(threads, rest + part) == rest + PopThenPush(threads, part)
  {
    var all, n := rest + part, |part| - 1;
    assert all[..|all| - 1] == rest + part[..n];
    assert rest + part[..n] + ChildIds(threads, part[n]) == rest + (part[..n] + ChildIds(threads, part[n]));
  }

  /** A walk that goes on for ever has gone through the part without cycles on its top, and found it fine. */
  lemma {:induction false} GroundedIsPassed(threads: seq<Thread>, standing: set<string>, rest: seq<string>, part: seq<string>)
    requires forall id :: id in part ==> Grounded(threads, id)
    requires Endless(threads, standing, rest + part)
    ensures Endless(threads, standing, rest)
    ensures forall d :: UnderPending(threads, part, d) ==> Fine(threads, standing, d)
    decreases Remaining(threads, part)
  {
    if part == [] {
      assert rest + part == rest;
    } else {
      EndlessStep(threads, standing, rest + part);
      PushOnto(threads, rest, part);
      StepShrinks(threads, part);
      GroundedIsPassed(threads, standing, rest, PopThenPush(threads, part));
      forall d | UnderPending(threads, part, d) ensures Fine(threads, standing, d) {
        var p :| p in part && (p == d || Below(threads, p, d));
        if p != d || p != part[|part| - 1] {
          StillUnder(threads, part, p, d);
        }
      }
    }
  }

  /** An endless walk comes to look at the `k`th child of a thread it has opened. */
  lemma ComesTo(threads: seq<Thread>, standing: set<string>, rest: seq<string>, p: string, k: int)
    requires LastLooked(threads, p, k) && Endless(threads, standing, rest + ChildIds(threads, p))
    ensures Endless(threads, standing, rest + ChildIds(threads, p)[..k] + [ChildIds(threads, p)[k]])
  {
    var kids := ChildIds(threads, p);
    assert rest + kids == rest + kids[..k] + [kids[k]] + kids[k + 1..];
    GroundedIsPassed(threads, standing, rest + kids[..k] + [kids[k]], kids[k + 1..]);
  }

  lemma LookedAtIsFine(threads: seq<Thread>, standing: set<string>, rest: seq<string>, p: string, d: string)
    requires LooksAt(threads, p, d) && Endless(threads, standing, rest + ChildIds(threads, p))
    ensures Fine(threads, standing, d)
  {
    var kids := ChildIds(threads, p);
    var k :| LastLooked(threads, p, k) && AtOrUnder(threads, kids[k], d);
    ComesTo(threads, standing, rest, p, k);
    EndlessStep(threads, standing, rest + kids[..k] + [kids[k]]);
    if d != kids[k] {
      GroundedIsPassed(threads, standing, rest + kids[..k], [kids[k]]);
      assert kids[k] in [kids[k]];
      assert UnderPending(threads, [kids[k]], d);
    }
  }

  /** An endless walk opens every thread on its route. */
  lemma {:induction false} FollowsRoute(threads: seq<Thread>, standing: set<string>, root: string, path: seq<string>) returns (rest: seq<string>)
    requires Endless(threads, standing, ChildIds(threads, root)) && Route(threads, path, root)
    ensures Endless(threads, standing, rest + ChildIds(threads, path[|path| - 1]))
    decreases |path|
  {
    if |path| == 1 {
      rest := [];
      assert [] + ChildIds(threads, root) == ChildIds(threads, root);
    } else {
      var n := |path| - 2;
      var p := path[n];
      assert LeadsOn(threads, p, path[n + 1]);
      var before := FollowsRoute(threads, standing, root, path[..n + 1]);
      var k :| LastLooked(threads, p, k) && ChildIds(threads, p)[k] == path[n + 1] && !Grounded(threads, path[n + 1]);
      ComesTo(threads, standing, before, p, k);
      rest := before + ChildIds(threads, p)[..k];
      EndlessStep(threads, standing, rest + [path[n + 1]]);
      assert (rest + [path[n + 1]])[..|rest|] == rest;
    }
  }

  /** A thread with a cycle at or below one of its children leads on to one of them. */
  lemma LeadsSomewhere(threads: seq<Thread>, p: string) returns (k: int)
    requires !Grounded(threads, p)
    ensures LastLooked(threads, p, k) && !Grounded(threads, ChildIds(threads, p)[k])
  {
    var kids := ChildIds(threads, p);
    var d :| Below(threads, p, d) && Below(threads, d, d);
    var child := FirstStep(threads, p, d);
    assert child in kids && !Grounded(threads, child);
    k := |kids| - 1;
    while Grounded(threads, kids[k])
      invariant 0 <= k < |kids| && forall j :: k < j < |kids| ==> Grounded(threads, kids[j])
      decreases k
    {
      assert exists i :: 0 <= i < |kids| && kids[i] == child;
      k := k - 1;
    }
  }

  /** A walk on its route: next below the pending thread at `k` it leads on, and all above that one it meets and leaves. */
  ghost predicate UnderWay(threads: seq<Thread>, root: string, path: seq<string>, pending: seq<string>, k: int) {
    && 0 <= k < |pending|
    && Route(threads, path, root) && LeadsOn(threads, path[|path| - 1], pending[k])
    && (forall j :: k < j < |pending| ==> Grounded(threads, pending[j]))
    && (forall d :: UnderPending(threads, pending[k + 1..], d) ==> Met(threads, root, d))
  }

  lemma Opens(threads: seq<Thread>, root: string, path: seq<string>, rest: seq<string>) returns (k: int)
    requires Route(threads, path, root) && !Grounded(threads, path[|path| - 1])
    ensures UnderWay(threads, root, path, rest + ChildIds(threads, path[|path| - 1]), k)
  {
    var p := path[|path| - 1];
    var kids := ChildIds(threads, p);
    var at := LeadsSomewhere(threads, p);
    k := |rest| + at;
    var pending := rest + kids;
    assert pending[k] == kids[at];
    assert forall j :: k < j < |pending| ==> pending[j] == kids[j - |rest|];
    var top := pending[k + 1..];
    assert top == kids[at + 1..];
    forall d | UnderPending(threads, top, d) ensures Met(threads, root, d) {
      var q :| q in top && (q == d || Below(threads, q, d));
      var j :| at + 1 <= j < |kids| && kids[j] == q;
      assert LastLooked(threads, p, j) && AtOrUnder(threads, kids[j], d);
      assert LooksAt(threads, p, d);
    }
  }

  lemma Leads(threads: seq<Thread>, root: string, path: seq<string>, child: string)
    requires Route(threads, path, root) && LeadsOn(threads, path[|path| - 1], child)
    ensures Route(threads, path + [child], root) && !Grounded(threads, child) && Met(threads, root, child)
  {
    var p := path[|path| - 1];
    var k :| LastLooked(threads, p, k) && ChildIds(threads, p)[k] == child && !Grounded(threads, child);
    assert AtOrUnder(threads, ChildIds(threads, p)[k], child);
    assert LooksAt(threads, p, child);
    var longer := path + [child];
    forall i | 0 <= i < |longer| - 1 ensures LeadsOn(threads, longer[i], longer[i + 1]) {
      if i < |path| - 1 { assert longer[i] == path[i] && longer[i + 1] == path[i + 1]; }
    }
  }

  /** What lies above the thread that leads on stays without cycles, and met. */
  lemma StaysUnderWay(threads: seq<Thread>, root: string, path: seq<string>, pending: seq<string>, k: int)
    requires UnderWay(threads, root, path, pending, k) && k < |pending| - 1
    ensures Met(threads, root, pending[|pending| - 1])
    ensures UnderWay(threads, root, path, PopThenPush(threads, pending), k)
  {
    var last, top, next := pending[|pending| - 1], pending[k + 1..], PopThenPush(threads, pending);
    assert last in top;
    assert UnderPending(threads, top, last);
    forall j | k < j < |next| ensures Grounded(threads, next[j]) {
      if j >= |pending| - 1 {
        assert next[j] in ChildIds(threads, last);
        ChildIsGrounded(threads, last, next[j]);
      }
    }
    var above := next[k + 1..];
    forall d | UnderPending(threads, above, d) ensures Met(threads, root, d) {
      var q :| q in above && (q == d || Below(threads, q, d));
      if q !in top {
        assert q in ChildIds(threads, last);
        EdgeIsBelow(threads, last, q);
        if q != d { BelowTransitive(threads, last, q, d); }
        assert Below(threads, last, d);
      }
      assert UnderPending(threads, top, d);
    }
  }

  lemma NextUnderWay(threads: seq<Thread>, root: string, path: seq<string>, pending: seq<string>, k: int) returns (further: seq<string>, j: int)
    requires UnderWay(threads, root, path, pending, k)
    ensures Met(threads, root, pending[|pending| - 1])
    ensures UnderWay(threads, root, further, PopThenPush(threads, pending), j)
  {
    if k == |pending| - 1 {
      Leads(threads, root, path, pending[k]);
      further := path + [pending[k]];
      j := Opens(threads, root, further, pending[..k]);
    } else {
      StaysUnderWay(threads, root, path, pending, k);
      further, j := path, k;
    }
  }

  /** With every thread fine that the walk meets, it is led on for ever. */
  lemma {:induction false} GoesRound(threads: seq<Thread>, standing: set<string>, root: string, path: seq<string>, pending: seq<string>, k: int, n: nat)
    requires UnderWay(threads, root, path, pending, k)
    requires forall d :: Met(threads, root, d) ==> Fine(threads, standing, d)
    ensures WalkFor(threads, standing, pending, n).None?
    decreases n
  {
    if n > 0 {
      var further, j := NextUnderWay(threads, root, path, pending, k);
      GoesRound(threads, standing, root, further, PopThenPush(threads, pending), j, n - 1);
    }
  }

  /**
   * The walk ends exactly when no parent cycle lies below the root, or when
   * among the threads it meets on the way round, those on its route and those
   * below children listed after them, one is not fine.
   */
  lemma WalkEndsIff(threads: seq<Thread>, standing: set<string>, root: string)
    ensures WalkEnds(threads, standing, root)
      <==> Grounded(threads, root) || exists d :: Met(threads, root, d) && !Fine(threads, standing, d)
  {
    var kids := ChildIds(threads, root);
    if Grounded(threads, root) {
      KidsAreSmaller(threads, root);
      var n := GroundedWalkEnds(threads, standing, kids);
    } else if forall d :: Met(threads, root, d) ==> Fine(threads, standing, d) {
      var k := Opens(threads, root, [root], []);
      assert [] + kids == kids;
      forall n: nat ensures WalkFor(threads, standing, kids, n).None? {
        GoesRound(threads, standing, root, [root], kids, k, n);
      }
    } else if !WalkEnds(threads, standing, root) {
      var d :| Met(threads, root, d) && !Fine(threads, standing, d);
      var path :| Route(threads, path, root) && LooksAt(threads, path[|path| - 1], d);
      assert Endless(threads, standing, kids);
      var rest := FollowsRoute(threads, standing, root, path);
      LookedAtIsFine(threads, standing, rest, path[|path| - 1], d);
    }
  }

  /** Where each thread is listed once, a cycle lies below a thread exactly when the thread is on it. */
  lemma CycleBelowIsThrough(threads: seq<Thread>, root: string)
    requires UniqueIds(threads)
    ensures Grounded(threads, root) <==> !Below(threads, root, root)
  {
    forall d | Below(threads, root, d) && Below(threads, d, d) ensures Below(threads, root, root) {
      var path :| ChainFrom(threads, path, root, d);
      CycleClimbs(threads, path);
    }
  }

  lemma {:induction false} CycleClimbs(threads: seq<Thread>, path: seq<string>)
    requires UniqueIds(threads) && path != [] && Chain(threads, path)
    requires Below(threads, path[|path| - 1], path[|path| - 1])
    ensures Below(threads, path[0], path[0])
  {
    if |path| > 1 {
      var n := |path| - 2;
      var p, d := path[n], path[n + 1];
      assert Edge(threads, p, d);
      var parent := LastStep(threads, d, d);
      assert parent == p;
      if p != d { BelowThenEdge(threads, d, p, d); EdgeIsBelow(threads, p, d); BelowTransitive(threads, p, d, p); }
      CycleClimbs(threads, path[..n + 1]);
    }
  }

  /** With fewer threads standing a walk is over no later. */
  lemma {:induction false} FewerStandingEndsSooner(threads: seq<Thread>, small: set<string>, large: set<string>, pending: seq<string>, n: nat)
    requires small <= large && WalkFor(threads, large, pending, n).Some?
    ensures WalkFor(threads, small, pending, n).Some?
    decreases n
  {
    if pending != [] && Fine(threads, small, pending[|pending| - 1]) {
      assert Fine(threads, large, pending[|pending| - 1]);
      FewerStandingEndsSooner(threads, small, large, PopThenPush(threads, pending), n - 1);
    }
  }

  lemma WalkStillEnds(threads: seq<Thread>, small: set<string>, large: set<string>, id: string)
    requires small <= large && WalkEnds(threads, large, id)
    ensures WalkEnds(threads, small, id)
  {
    var n: nat :| WalkFor(threads, large, ChildIds(threads, id), n).Some?;
    FewerStandingEndsSooner(threads, small, large, ChildIds(threads, id), n);
  }

  /** The walk down from `id` meets a thread that is not fine: the loop withdraws its settle. */
  ghost predicate Falls(threads: seq<Thread>, standing: set<string>, id: string) {
    exists n: nat :: WalkFor(threads, standing, ChildIds(threads, id), n) == Some(false)
  }

  lemma {:induction false} FailsOnTop(threads: seq<Thread>, standing: set<string>, rest: seq<string>, part: seq<string>, n: nat)
    requires WalkFor(threads, standing, part, n) == Some(false)
    ensures WalkFor(threads, standing, rest + part, n) == Some(false)
    decreases n
  {
    if Fine(threads, standing, part[|part| - 1]) {
      PushOnto(threads, rest, part);
      FailsOnTop(threads, standing, rest, PopThenPush(threads, part), n - 1);
    }
  }

  lemma {:induction false} EndlessStays(threads: seq<Thread>, standing: set<string>, gone: string, pending: seq<string>, n: nat)
    requires Endless(threads, standing, pending) && Falls(threads, standing, gone)
    ensures WalkFor(threads, standing - {gone}, pending, n).None?
    decreases n
  {
    EndlessStep(threads, standing, pending);
    if n > 0 {
      if pending[|pending| - 1] == gone {
        var m: nat :| WalkFor(threads, standing, ChildIds(threads, gone), m) == Some(false);
        FailsOnTop(threads, standing, pending[..|pending| - 1], ChildIds(threads, gone), m);
        assert false;
      }
      EndlessStays(threads, standing, gone, PopThenPush(threads, pending), n - 1);
    }
  }

  /**
   * Whatever the loop withdraws, the walks that end are those that ended when
   * it began: a walk it would never come back from stays so, in any order.
   */
  lemma {:induction false} WithdrawingEndsNoWalk(threads: seq<Thread>, standing: set<string>, gone: seq<string>, id: string)
    requires forall i :: 0 <= i < |gone| ==> Falls(threads, standing - Elements(gone[..i]), gone[i])
    ensures WalkEnds(threads, standing - Elements(gone), id) <==> WalkEnds(threads, standing, id)
  {
    if gone == [] {
      assert standing - Elements(gone) == standing;
    } else {
      var n := |gone| - 1;
      var before := standing - Elements(gone[..n]);
      assert forall i :: 0 <= i < n ==> gone[..n][..i] == gone[..i];
      WithdrawingEndsNoWalk(threads, standing, gone[..n], id);
      assert gone == gone[..n] + [gone[n]];
      assert standing - Elements(gone) == before - {gone[n]};
      if WalkEnds(threads, before, id) {
        WalkStillEnds(threads, before - {gone[n]}, before, id);
      } else {
        assert Endless(threads, before, ChildIds(threads, id));
        forall m: nat ensures WalkFor(threads, before - {gone[n]}, ChildIds(threads, id), m).None? {
          EndlessStays(threads, before, gone[n], ChildIds(threads, id), m);
        }
      }
    }
  }

  // ---- the loop that withdraws ----

  /** The loop only withdraws, and never what the greatest closed set keeps. */
  ghost predicate Planning(start: Start, settle: set<string>, unsettle: set<string>) {
    && settle <= start.toSettle
    && start.toUnsettle <= unsettle <= start.toUnsettle + start.returnable
    && Standing(start) <= Counted(start, settle, unsettle)
  }

  /** A withdrawable thread whose tree is not whole is not in the greatest closed set. */
  lemma ShortTreeDoesNotStand(start: Start, settle: set<string>, unsettle: set<string>, id: string)
    requires Planning(start, settle, unsettle) && id in Withdrawable(start)
    requires !WholeTree(start.threads, Counted(start, settle, unsettle), id)
    ensures id !in Standing(start)
  {
    StandingIsGreatest(start);
    if id in Standing(start) {
      WholeTreeMonotone(start.threads, Standing(start), Counted(start, settle, unsettle), id);
    }
  }

  /** When nothing more is to withdraw the loop has the greatest closed set. */
  lemma PlanningEnds(start: Start, settle: set<string>, unsettle: set<string>)
    requires Apart(start)
    requires Planning(start, settle, unsettle) && Closed(start, Counted(start, settle, unsettle))
    ensures Counted(start, settle, unsettle) == Standing(start)
    ensures settle == PlanSettle(start) && unsettle == PlanUnsettle(start)
  {
    StandingIsGreatest(start);
  }

  ghost predicate Swept(start: Start, settle: set<string>, unsettle: set<string>, ids: set<string>) {
    forall id :: id in ids ==> WholeTree(start.threads, Counted(start, settle, unsettle), id)
  }

  /** Each walk ends that the first sweeps make; then every later one does, and otherwise the planner does not end. */
  ghost predicate PlanEnds(start: Start) {
    forall id :: id in Withdrawable(start) ==> WalkEnds(start.threads, Candidates(start), id)
  }

  lemma CanStillWalk(start: Start, settle: set<string>, unsettle: set<string>, id: string)
    requires PlanEnds(start) && Planning(start, settle, unsettle) && id in Withdrawable(start)
    ensures WalkEnds(start.threads, Counted(start, settle, unsettle), id)
  {
    WalkStillEnds(start.threads, Counted(start, settle, unsettle), Candidates(start), id);
  }

  ghost predicate CanWalk(start: Start, children: map<string, seq<string>>, byId: map<string, Thread>) {
    && PlanEnds(start)
    && (forall p :: ChildrenIn(children, p) == ChildIds(start.threads, p))
    && byId == ById(start.threads)
  }

  /** Whether the settle stays; one that does not is in no closed set. */
  method HasWholeTree(start: Start, children: map<string, seq<string>>, byId: map<string, Thread>,
                      settle: set<string>, unsettle: set<string>, id: string) returns (whole: bool)
    requires CanWalk(start, children, byId) && Planning(start, settle, unsettle) && id in Withdrawable(start)
    ensures whole <==> WholeTree(start.threads, Counted(start, settle, unsettle), id)
    ensures !whole ==> id !in Standing(start)
  {
    CanStillWalk(start, settle, unsettle, id);
    whole := IsWholeTreeSettled(start.threads, children, byId, Counted(start, settle, unsettle), id);
    if !whole {
      ShortTreeDoesNotStand(start, settle, unsettle, id);
    }
  }

  method SweepOneSettle(start: Start, children: map<string, seq<string>>, byId: map<string, Thread>,
                        settle: set<string>, unsettle: set<string>, id: string) returns (left: set<string>)
    requires Apart(start) && CanWalk(start, children, byId)
    requires Planning(start, settle, unsettle) && id in settle
    ensures settle - {id} <= left <= settle && Planning(start, left, unsettle)
    ensures left == settle ==> WholeTree(start.threads, Counted(start, settle, unsettle), id)
  {
    left := settle;
    var whole := HasWholeTree(start, children, byId, settle, unsettle, id);
    if !whole {
      left := settle - {id};
    }
  }

  method SweepSettle(start: Start, children: map<string, seq<string>>, byId: map<string, Thread>,
                     settle: set<string>, unsettle: set<string>) returns (left: set<string>)
    requires Apart(start) && CanWalk(start, children, byId)
    requires Planning(start, settle, unsettle)
    ensures left <= settle && Planning(start, left, unsettle)
    ensures left == settle ==> Swept(start, settle, unsettle, settle)
  {
    left := settle;
    var rest := settle;
    while rest != {}
      invariant rest <= left <= settle && Planning(start, left, unsettle)
      invariant left == settle ==> Swept(start, settle, unsettle, settle - rest)
    {
      var id :| id in rest;
      rest := rest - {id};
      left := SweepOneSettle(start, children, byId, left, unsettle, id);
    }
  }

  lemma IdsOneMore(threads: seq<Thread>, i: nat)
    requires i < |threads|
    ensures Ids(threads[..i + 1]) == Ids(threads[..i]) + {threads[i].id}
  {
    assert threads[..i + 1] == threads[..i] + [threads[i]];
  }

  method SweepOne(start: Start, children: map<string, seq<string>>, byId: map<string, Thread>,
                  settle: set<string>, unsettle: set<string>, id: string) returns (more: set<string>)
    requires Apart(start) && CanWalk(start, children, byId)
    requires Planning(start, settle, unsettle)
    ensures unsettle <= more && Planning(start, settle, more)
    ensures more == unsettle && id in start.returnable - settle - unsettle ==> WholeTree(start.threads, Counted(start, settle, unsettle), id)
  {
    more := unsettle;
    if id in start.returnable && id !in more && id !in settle {
      var whole := HasWholeTree(start, children, byId, settle, more, id);
      if !whole {
        more := more + {id};
      }
    }
  }

  method SweepReturnable(start: Start, children: map<string, seq<string>>, byId: map<string, Thread>,
                         settle: set<string>, unsettle: set<string>) returns (more: set<string>)
    requires Apart(start) && CanWalk(start, children, byId)
    requires start.returnable <= Ids(start.threads)
    requires Planning(start, settle, unsettle)
    ensures unsettle <= more && Planning(start, settle, more)
    ensures more == unsettle ==> Swept(start, settle, unsettle, start.returnable - settle - unsettle)
  {
    more := unsettle;
    for i := 0 to |start.threads|
      invariant unsettle <= more && Planning(start, settle, more)
      invariant more == unsettle ==> Swept(start, settle, unsettle, start.returnable * Ids(start.threads[..i]) - settle - unsettle)
    {
      IdsOneMore(start.threads, i);
      more := SweepOne(start, children, byId, settle, more, start.threads[i].id);
    }
    assert start.threads[..|start.threads|] == start.threads;
  }

  /** The two sweeps found every thread whole that the plan may still withdraw. */
  lemma SweptIsClosed(start: Start, settle: set<string>, unsettle: set<string>)
    requires Apart(start) && Planning(start, settle, unsettle)
    requires Swept(start, settle, unsettle, settle)
    requires Swept(start, settle, unsettle, start.returnable - settle - unsettle)
    ensures Closed(start, Counted(start, settle, unsettle))
  {
  }

  /**
   * Withdraws settles and returns automatic ones until nothing moves. What is
   * left is the greatest closed set, whatever order the sweeps take.
   */
  method Withdraw(start: Start) returns (settle: set<string>, unsettle: set<string>)
    requires Apart(start) && start.returnable <= Ids(start.threads)
    requires PlanEnds(start)
    ensures settle == PlanSettle(start) && unsettle == PlanUnsettle(start)
    ensures settle !! unsettle && Standing(start) == Counted(start, settle, unsettle)
  {
    var byId := ById(start.threads);
    var children := ChildMap(start.threads);
    settle, unsettle := start.toSettle, start.toUnsettle;
    StandingIsGreatest(start);
    var moved := true;
    while moved
      invariant Planning(start, settle, unsettle)
      invariant !moved ==> Closed(start, Counted(start, settle, unsettle))
      decreases |settle| + |start.returnable - unsettle|, moved
    {
      var left := SweepSettle(start, children, byId, settle, unsettle);
      var more := SweepReturnable(start, children, byId, left, unsettle);
      SweepsShrink(start, settle, unsettle, left, more);
      moved := left != settle || more != unsettle;
      if !moved {
        SweptIsClosed(start, settle, unsettle);
      }
      settle, unsettle := left, more;
    }
    PlanningEnds(start, settle, unsettle);
  }

  lemma SweepsShrink(start: Start, settle: set<string>, unsettle: set<string>, left: set<string>, more: set<string>)
    requires left <= settle && unsettle <= more <= start.toUnsettle + start.returnable && start.toUnsettle <= unsettle
    ensures |left| + |start.returnable - more| <= |settle| + |start.returnable - unsettle|
    ensures left != settle || more != unsettle ==> |left| + |start.returnable - more| < |settle| + |start.returnable - unsettle|
  {
    SubsetSize(left, settle);
    SubsetSize(start.returnable - more, start.returnable - unsettle);
    if more != unsettle {
      var id :| id in more && id !in unsettle;
      assert id in start.returnable - unsettle && id !in start.returnable - more;
    }
  }

  // ---- what the planner starts from ----

  predicate WantsSettle(input: Input, thread: Thread) {
    !thread.hidden && DecisionFor(input, thread) == Settle && thread.id !in input.heldBack
  }

  predicate WantsUnsettle(input: Input, thread: Thread) {
    !thread.hidden && DecisionFor(input, thread) == Unsettle
  }

  /** The row has settled the thread and attention has not made that stale. */
  predicate IsSettled(input: Input, thread: Thread) {
    var row := Get(input.rows, thread.id);
    row.Some? && row.value.settledAt.Some? && Stale(row, thread.latestAttentionAt).None?
  }

  /** An automatic settle the planner may take back for its tree's sake. */
  predicate IsReturnable(input: Input, thread: Thread) {
    var row := Get(input.rows, thread.id);
    !thread.hidden && IsAutoSettled(row, thread) && !HasManualMark(row)
  }

  ghost predicate RowsOk(rows: map<string, Row>) {
    forall id :: id in rows ==> RowOk(rows[id])
  }

  function StartOf(input: Input): Start {
    Start(input.threads,
          set t | t in input.threads && WantsSettle(input, t) :: t.id,
          set t | t in input.threads && WantsUnsettle(input, t) :: t.id,
          set t | t in input.threads && IsSettled(input, t) :: t.id,
          set t | t in input.threads && IsReturnable(input, t) :: t.id)
  }

  /** How a thread is sorted at the start, for a listing that names each thread once. */
  ghost predicate Sorted(input: Input, start: Start, t: Thread) {
    && (t.id in start.toSettle <==> WantsSettle(input, t))
    && (t.id in start.toUnsettle <==> WantsUnsettle(input, t))
    && (t.id in start.settledNow <==> IsSettled(input, t))
    && (t.id in start.returnable <==> IsReturnable(input, t))
  }

  lemma StartSorts(input: Input, t: Thread)
    requires UniqueIds(input.threads) && t in input.threads
    ensures Sorted(input, StartOf(input), t)
  {
    ByIdFinds(input.threads);
  }

  lemma OnlyListed(input: Input)
    ensures var start := StartOf(input);
      start.toSettle + start.toUnsettle + start.settledNow + start.returnable <= Ids(input.threads)
  {
  }

  lemma SettlingIsNotSettled(input: Input, t: Thread)
    requires RowsOk(input.rows)
    ensures WantsSettle(input, t) ==> !IsSettled(input, t) && !WantsUnsettle(input, t)
    ensures IsReturnable(input, t) ==> IsSettled(input, t)
  {
    if t.id in input.rows {
      assert RowOk(input.rows[t.id]);
      var kind := input.rows[t.id].settledKind;
      if kind.Some? {
        assert kind.value.Manual? || kind.value.Auto?;
      }
    }
  }

  lemma StartIsApart(input: Input)
    requires UniqueIds(input.threads) && RowsOk(input.rows)
    ensures Apart(StartOf(input))
  {
    var start := StartOf(input);
    OnlyListed(input);
    forall id | id in Ids(input.threads)
      ensures id in start.toSettle ==> id !in start.settledNow && id !in start.toUnsettle
      ensures id in start.returnable ==> id in start.settledNow
    {
      var t :| t in input.threads && t.id == id;
      StartSorts(input, t);
      SettlingIsNotSettled(input, t);
    }
  }

  /** One decision for each visible thread, then the withdrawing loop. */
  method PlanAutoSettle(input: Input) returns (settle: set<string>, unsettle: set<string>)
    requires UniqueIds(input.threads) && RowsOk(input.rows)
    requires PlanEnds(StartOf(input))
    ensures settle == PlanSettle(StartOf(input)) && unsettle == PlanUnsettle(StartOf(input))
    ensures settle !! unsettle
    ensures Standing(StartOf(input)) == Counted(StartOf(input), settle, unsettle)
  {
    settle, unsettle := {}, {};
    for i := 0 to |input.threads|
      invariant settle == set t | t in input.threads[..i] && WantsSettle(input, t) :: t.id
      invariant unsettle == set t | t in input.threads[..i] && WantsUnsettle(input, t) :: t.id
    {
      var thread := input.threads[i];
      assert input.threads[..i + 1] == input.threads[..i] + [thread];
      if !thread.hidden {
        var decision := DecisionFor(input, thread);
        if decision == Settle {
          if thread.id !in input.heldBack {
            settle := settle + {thread.id};
          }
        } else if decision == Unsettle {
          unsettle := unsettle + {thread.id};
        }
      }
    }
    assert input.threads[..|input.threads|] == input.threads;
    StartIsApart(input);
    OnlyListed(input);
    settle, unsettle := Withdraw(StartOf(input).(toSettle := settle, toUnsettle := unsettle));
  }

  // ---- planning again ----

  /** The rows after a pass wrote its plan. */
  function RowsAfter(input: Input, settle: set<string>, unsettle: set<string>): map<string, Row> {
    map id | id in input.rows.Keys + settle && id !in unsettle ::
      if id in settle then SettledRow(input.now, Auto) else input.rows[id]
  }

  lemma DecideAfterSettle(t: Thread, row: Option<Row>, status: PullRequestStatus, settings: Settings, now: int)
    requires Decide(t, row, status, settings, now) == Settle
    ensures var written := Some(SettledRow(now, Auto));
      if t.latestAttentionAt > now
      then !IsAutoSettled(written, t) && Decide(t, written, status, settings, now) == Settle
      else IsAutoSettled(written, t) && Decide(t, written, status, settings, now) == Keep
  {
  }

  /** Exclusive marks matter here: a row both parked and settled would be returned as busy and then settled as quiet. */
  lemma DecideAfterReturn(t: Thread, row: Option<Row>, status: PullRequestStatus, settings: Settings, now: int)
    requires row.Some? ==> RowOk(row.value)
    ensures Decide(t, row, status, settings, now) == Unsettle ==> Decide(t, None, status, settings, now) == Keep
    ensures Decide(t, None, status, settings, now) != Unsettle
  {
  }

  /** The threads of the plan whose attention is later than the time the pass wrote. */
  function AheadOfClock(input: Input, ids: set<string>): set<string> {
    set t | t in input.threads && t.id in ids && t.latestAttentionAt > input.now :: t.id
  }

  /** How the second start relates to the first, for one thread. */
  ghost predicate Resorted(input: Input, first: Start, second: Start, t: Thread) {
    var settle, unsettle := PlanSettle(first), PlanUnsettle(first);
    var ahead := t.latestAttentionAt > input.now;
    && t.id !in second.toUnsettle
    && (t.id in second.settledNow <==> if t.id in settle then !ahead else t.id in first.settledNow && t.id !in unsettle)
    && (t.id in second.returnable <==> if t.id in settle then !ahead else t.id in first.returnable && t.id !in unsettle)
    && (t.id in settle ==> (t.id in second.toSettle <==> ahead))
    && (t.id in second.toSettle && t.id !in settle ==> t.id in first.toSettle || t.id in unsettle - first.toUnsettle)
  }

  lemma ResortsThread(input: Input, t: Thread)
    requires UniqueIds(input.threads) && RowsOk(input.rows) && t in input.threads
    ensures var first := StartOf(input);
      var after := input.(rows := RowsAfter(input, PlanSettle(first), PlanUnsettle(first)));
      Resorted(input, first, StartOf(after), t)
  {
    var first := StartOf(input);
    var settle, unsettle := PlanSettle(first), PlanUnsettle(first);
    var after := input.(rows := RowsAfter(input, settle, unsettle));
    StartIsApart(input);
    StandingIsCounted(first);
    StartSorts(input, t);
    StartSorts(after, t);
    var row := Get(input.rows, t.id);
    if t.id in settle {
      assert Get(after.rows, t.id) == Some(SettledRow(input.now, Auto));
      DecideAfterSettle(t, row, StatusOf(input, t), input.settings, input.now);
    } else if t.id in unsettle {
      assert Get(after.rows, t.id) == None;
      if t.id in input.rows { assert RowOk(input.rows[t.id]); }
      DecideAfterReturn(t, row, StatusOf(input, t), input.settings, input.now);
    } else {
      assert Get(after.rows, t.id) == row;
    }
  }

  /** The relation for each thread, read as relations between the sets of the two starts. */
  lemma Resort(input: Input, first: Start, second: Start)
    requires UniqueIds(input.threads) && RowsOk(input.rows)
    requires first == StartOf(input)
    requires second == StartOf(input.(rows := RowsAfter(input, PlanSettle(first), PlanUnsettle(first))))
    ensures var settle, unsettle := PlanSettle(first), PlanUnsettle(first);
      var ahead := AheadOfClock(input, settle);
      && ahead <= settle
      && second.toUnsettle == {}
      && second.settledNow == (settle - ahead) + (first.settledNow - unsettle)
      && second.returnable == (settle - ahead) + (first.returnable - unsettle)
      && ahead <= second.toSettle <= ahead + (first.toSettle - settle) + (unsettle - first.toUnsettle)
  {
    var settle, unsettle := PlanSettle(first), PlanUnsettle(first);
    var ahead := AheadOfClock(input, settle);
    OnlyListed(input);
    OnlyListed(input.(rows := RowsAfter(input, settle, unsettle)));
    StartIsApart(input);
    StandingIsCounted(first);
    forall id
      ensures id in second.toUnsettle ==> false
      ensures id in second.settledNow <==> id in (settle - ahead) + (first.settledNow - unsettle)
      ensures id in second.returnable <==> id in (settle - ahead) + (first.returnable - unsettle)
      ensures id in ahead ==> id in second.toSettle
      ensures id in second.toSettle ==> id in ahead + (first.toSettle - settle) + (unsettle - first.toUnsettle)
    {
      if id in Ids(input.threads) {
        var t :| t in input.threads && t.id == id;
        ResortsThread(input, t);
        AheadHas(input, settle, t);
      }
    }
  }

  lemma AheadHas(input: Input, ids: set<string>, t: Thread)
    requires UniqueIds(input.threads) && t in input.threads
    ensures t.id in AheadOfClock(input, ids) <==> t.id in ids && t.latestAttentionAt > input.now
  {
    ByIdFinds(input.threads);
  }

  /** With the starts so related, the second keeps standing what the first did. */
  lemma SecondStands(first: Start, second: Start, ahead: set<string>)
    requires Apart(first) && first.threads == second.threads
    requires ahead <= PlanSettle(first) && second.toUnsettle == {}
    requires second.settledNow == (PlanSettle(first) - ahead) + (first.settledNow - PlanUnsettle(first))
    requires second.returnable == (PlanSettle(first) - ahead) + (first.returnable - PlanUnsettle(first))
    requires ahead <= second.toSettle <= ahead + (first.toSettle - PlanSettle(first)) + (PlanUnsettle(first) - first.toUnsettle)
    ensures Standing(second) == Standing(first)
  {
    StandingIsGreatest(first);
    StandingIsGreatest(second);
    StandingIsCounted(first);
    var stands := Standing(first);
    assert stands <= Candidates(second);
    assert Closed(second, stands);
    assert Candidates(second) <= Candidates(first);
    assert Closed(first, Standing(second));
  }

  /**
   * Planning again at the same time, after the rows of the first plan were
   * written, settles again exactly the threads whose attention lies after
   * that time and returns none.
   */
  lemma SecondPlan(input: Input)
    requires UniqueIds(input.threads) && RowsOk(input.rows)
    ensures var first := StartOf(input);
      var second := StartOf(input.(rows := RowsAfter(input, PlanSettle(first), PlanUnsettle(first))));
      && PlanSettle(second) == AheadOfClock(input, PlanSettle(first))
      && PlanUnsettle(second) == {}
  {
    var first := StartOf(input);
    var settle, unsettle := PlanSettle(first), PlanUnsettle(first);
    var after := input.(rows := RowsAfter(input, settle, unsettle));
    var second := StartOf(after);
    var ahead := AheadOfClock(input, settle);
    OnlyListed(input);
    OnlyListed(after);
    StartIsApart(input);
    Resort(input, first, second);
    SecondStands(first, second, ahead);
    StandingIsCounted(first);
  }

  /** Auto-settle converges in one pass exactly when no thread it settled has attention after the time it wrote. */
  lemma ConvergesInOnePass(input: Input)
    requires UniqueIds(input.threads) && RowsOk(input.rows)
    ensures var first := StartOf(input);
      var second := StartOf(input.(rows := RowsAfter(input, PlanSettle(first), PlanUnsettle(first))));
      (PlanSettle(second) + PlanUnsettle(second) == {}
       <==> forall t :: t in input.threads && t.id in PlanSettle(first) ==> t.latestAttentionAt <= input.now)
  {
    SecondPlan(input);
    var first := StartOf(input);
    forall t | t in input.threads && t.id in PlanSettle(first) && t.latestAttentionAt > input.now
      ensures t.id in AheadOfClock(input, PlanSettle(first))
    {
    }
  }

  const QUIET := Thread("t", None, None, false, None, false, NothingQueued, OtherStatus("idle"), OtherRuntime("idle"),
                        Activity(0, 0, 0, 0, 0), 0, 0, 0)

  /** A thread whose pull request was closed after its last attention, at a time `now` that may lie before it. */
  function ClosedRequest(attentionAt: int, now: int): Input {
    Input([QUIET.(environmentId := Some("e"), latestAttentionAt := attentionAt)], map[], map["e" := Available(PullRequestState.Closed, Some(10))],
          Settings(false, 0, false), {}, now)
  }

  /** With bb's clock ahead, a thread is settled again by every pass: the mark is stale as soon as it is written. */
  lemma ClockBehindSettlesAgain(attentionAt: int, now: int)
    requires 0 <= attentionAt < 10
    ensures var input := ClosedRequest(attentionAt, now);
      var first := StartOf(input);
      var second := StartOf(input.(rows := RowsAfter(input, PlanSettle(first), PlanUnsettle(first))));
      PlanSettle(first) == {"t"} && PlanSettle(second) == if attentionAt > now then {"t"} else {}
  {
    var input := ClosedRequest(attentionAt, now);
    ClosedRequestSettles(attentionAt, now);
    SecondPlan(input);
    AheadHas(input, {"t"}, input.threads[0]);
  }

  lemma ClosedRequestSettles(attentionAt: int, now: int)
    requires 0 <= attentionAt < 10
    ensures PlanSettle(StartOf(ClosedRequest(attentionAt, now))) == {"t"}
  {
    var input := ClosedRequest(attentionAt, now);
    var start := StartOf(input);
    StartSorts(input, input.threads[0]);
    OnlyListed(input);
    forall d ensures !Below(input.threads, "t", d) {
      if Below(input.threads, "t", d) { var child := FirstStep(input.threads, "t", d); }
    }
    StandingIsGreatest(start);
    assert Closed(start, Candidates(start));
  }

  /** Two quiet threads that are each other's parent, one of them perhaps pinned. */
  function ParentsInACycle(pinnedAt: Option<int>): Input {
    Input([QUIET.(id := "a", parentThreadId := Some("b")), QUIET.(id := "b", parentThreadId := Some("a"), pinnedAt := pinnedAt)],
          map[], map[], Settings(true, 0, false), {}, 1)
  }

  /** The planner goes round two quiet threads for ever; were one pinned, the walk would stop there. */
  lemma PlannerGoesRoundACycle(pinnedAt: Option<int>)
    ensures PlanEnds(StartOf(ParentsInACycle(pinnedAt))) <==> pinnedAt.Some?
  {
    var start := StartOf(ParentsInACycle(pinnedAt));
    StartInACycle(pinnedAt);
    ChildrenInACycle(pinnedAt);
    if pinnedAt.Some? {
      assert WalkFor(start.threads, Candidates(start), ["b"], 1).Some?;
    } else {
      forall n: nat ensures WalkFor(start.threads, Candidates(start), ["b"], n).None? {
        RoundAndRound(start.threads, Candidates(start), "a", "b", n);
      }
      assert !WalkEnds(start.threads, Candidates(start), "a");
    }
  }

  lemma StartInACycle(pinnedAt: Option<int>)
    ensures var start := StartOf(ParentsInACycle(pinnedAt));
      Candidates(start) == Withdrawable(start) == if pinnedAt.Some? then {"a"} else {"a", "b"}
  {
    var input := ParentsInACycle(pinnedAt);
    StartSorts(input, input.threads[0]);
    StartSorts(input, input.threads[1]);
    OnlyListed(input);
  }

  lemma ChildrenInACycle(pinnedAt: Option<int>)
    ensures ChildIds(ParentsInACycle(pinnedAt).threads, "a") == ["b"]
    ensures ChildIds(ParentsInACycle(pinnedAt).threads, "b") == ["a"]
  {
    var threads := ParentsInACycle(pinnedAt).threads;
    var first := threads[..1];
    assert first == [threads[0]] && first[..0] == [];
    assert ChildIds(first, "a") == [] && ChildIds(first, "b") == ["a"];
  }

  lemma {:induction false} RoundAndRound(threads: seq<Thread>, standing: set<string>, a: string, b: string, n: nat)
    requires ChildIds(threads, a) == [b] && ChildIds(threads, b) == [a]
    requires Fine(threads, standing, a) && Fine(threads, standing, b)
    ensures WalkFor(threads, standing, [b], n).None?
    decreases n
  {
    if n > 0 {
      assert PopThenPush(threads, [b]) == [a];
      RoundAndRound(threads, standing, b, a, n - 1);
    }
  }

  /** A thread the user settled, resumed or left a settle waiting on is in no plan. */
  lemma PlanLeavesManualMarks(input: Input, t: Thread)
    requires UniqueIds(input.threads) && RowsOk(input.rows)
    requires t in input.threads && HasManualMark(Get(input.rows, t.id))
    ensures t.id !in PlanSettle(StartOf(input)) && t.id !in PlanUnsettle(StartOf(input))
  {
    StartSorts(input, t);
  }

  /** Nor is a hidden helper, and no pinned, busy, parked or snoozed thread is settled. */
  lemma PlanSettlesOnlyQuietThreads(input: Input, t: Thread)
    requires UniqueIds(input.threads) && t in input.threads
    ensures t.id in PlanSettle(StartOf(input)) ==>
      !t.hidden && !IsExcluded(t, Get(input.rows, t.id)) && t.id !in input.heldBack
      && forall d :: Below(input.threads, t.id, d) ==> Fine(input.threads, Standing(StartOf(input)), d)
  {
    StartSorts(input, t);
    StandingIsGreatest(StartOf(input));
  }
}
