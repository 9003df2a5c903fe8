/** What a look at a waiting settle says and what a check writes, in the fields of bb's threads, turns and rows. */
module WaitingLaws {
  import opened Common
  import opened Threads
  import opened Lifecycle
  import opened LifecycleStore
  import opened Settling
  import opened WaitingRule
  import opened WaitingSettles

  // ---- the turns a look goes by ----

  /** A message the user sent, as bb tells it. */
  ghost predicate UserSent(turn: TurnRecord) { turn == Requested(turn.at, true) }

  /** A thread of the tree that may be sending the first message of its own spawn. */
  ghost predicate MaySpawn(tree: seq<Thread>, threadId: string, since: int) {
    exists t :: t in tree && t.id == threadId && (t.status == Pending || t.createdAt > since)
  }

  /** No event tells a turn of the tree's that could end the settle, but for what a spawn may be marked with. */
  ghost predicate EventsHarmless(tree: seq<Thread>, events: seq<WaitingEvent>, since: int) {
    forall event, turn :: event in events && event.threadId in Ids(tree) && event.turns.Some? && turn in event.turns.value ==>
      IsHarmless(turn, since) || (UserSent(turn) && MaySpawn(tree, event.threadId, since))
  }

  /** bb told of the turns of this thread, and none could end the settle, but for messages queued when it was chosen. */
  ghost predicate AnswerHarmless(answer: Option<seq<TurnRecord>>, threadId: string, queued: set<string>, since: int) {
    answer.Some? && forall turn :: turn in answer.value ==> IsHarmless(turn, since) || (UserSent(turn) && threadId in queued)
  }

  ghost predicate AnswersHarmless(ids: seq<string>, answers: TurnAnswers, queued: set<string>, since: int) {
    |answers| == |ids| && forall i :: 0 <= i < |ids| ==> AnswerHarmless(answers[i], ids[i], queued, since)
  }

  lemma SpawningIs(listing: seq<Thread>, root: string, tree: seq<Thread>, threadId: string, since: int)
    requires UniqueIds(listing) && IsTree(listing, root, tree) && threadId in Ids(tree)
    ensures IsSpawning(ById(listing), threadId, since) <==> MaySpawn(tree, threadId, since)
  {
    ByIdFinds(listing);
    var t :| t in tree && t.id == threadId;
    assert ById(listing)[threadId] == t;
  }

  /** Which turns the events report, one by one. */
  lemma {:induction false} ReportedHas(events: seq<WaitingEvent>, inTree: set<string>, byId: map<string, Thread>, since: int, turn: TurnRecord)
    ensures turn in Reported(events, inTree, byId, since) <==>
      exists event :: event in events && ReportsIt(event, inTree, byId, since, turn)
  {
    if events != [] {
      var head, rest := events[0], events[1..];
      assert events == [head] + rest;
      ReportedHas(rest, inTree, byId, since, turn);
      NotUsersIs(head.turns.GetOr([]));
      assert turn in Reported(events, inTree, byId, since) <==>
        ReportsIt(head, inTree, byId, since, turn) || turn in Reported(rest, inTree, byId, since);
    }
  }

  ghost predicate ReportsIt(event: WaitingEvent, inTree: set<string>, byId: map<string, Thread>, since: int, turn: TurnRecord) {
    event.threadId in inTree && event.turns.Some? && turn in event.turns.value && !(IsUsers(turn) && IsSpawning(byId, event.threadId, since))
  }

  lemma ReportedOrSpawned(listing: seq<Thread>, root: string, tree: seq<Thread>, since: int, events: seq<WaitingEvent>, event: WaitingEvent, turn: TurnRecord)
    requires UniqueIds(listing) && IsTree(listing, root, tree)
    requires event in events && event.threadId in Ids(tree) && event.turns.Some? && turn in event.turns.value
    ensures turn in ReportedIn(listing, tree, since, events) || (UserSent(turn) && MaySpawn(tree, event.threadId, since))
  {
    SpawningIs(listing, root, tree, event.threadId, since);
    if !(IsUsers(turn) && IsSpawning(ById(listing), event.threadId, since)) {
      assert ReportsIt(event, Ids(tree), ById(listing), since, turn);
      ReportedHas(events, Ids(tree), ById(listing), since, turn);
    }
  }

  lemma ReportedIsHarmless(listing: seq<Thread>, root: string, tree: seq<Thread>, since: int, events: seq<WaitingEvent>, turn: TurnRecord)
    requires UniqueIds(listing) && IsTree(listing, root, tree)
    requires EventsHarmless(tree, events, since) && turn in ReportedIn(listing, tree, since, events)
    ensures IsHarmless(turn, since)
  {
    ReportedHas(events, Ids(tree), ById(listing), since, turn);
    var event :| event in events && ReportsIt(event, Ids(tree), ById(listing), since, turn);
    SpawningIs(listing, root, tree, event.threadId, since);
    ReportIsHarmless(tree, events, ById(listing), since, event, turn);
  }

  lemma ReportIsHarmless(tree: seq<Thread>, events: seq<WaitingEvent>, byId: map<string, Thread>, since: int, event: WaitingEvent, turn: TurnRecord)
    requires EventsHarmless(tree, events, since) && event in events && ReportsIt(event, Ids(tree), byId, since, turn)
    requires IsSpawning(byId, event.threadId, since) <==> MaySpawn(tree, event.threadId, since)
    ensures IsHarmless(turn, since)
  {
  }

  /** Every turn of these leaves a settle waiting. */
  ghost predicate EachHarmless(turns: seq<TurnRecord>, since: int) { forall turn :: turn in turns ==> IsHarmless(turn, since) }

  lemma ReportedHarmless(listing: seq<Thread>, root: string, tree: seq<Thread>, since: int, events: seq<WaitingEvent>)
    requires UniqueIds(listing) && IsTree(listing, root, tree)
    ensures EachHarmless(ReportedIn(listing, tree, since, events), since) <==> EventsHarmless(tree, events, since)
  {
    var reported := ReportedIn(listing, tree, since, events);
    if EventsHarmless(tree, events, since) {
      forall turn | turn in reported ensures IsHarmless(turn, since) {
        ReportedIsHarmless(listing, root, tree, since, events, turn);
      }
    }
    if EachHarmless(reported, since) {
      forall event, turn | event in events && event.threadId in Ids(tree) && event.turns.Some? && turn in event.turns.value
        ensures IsHarmless(turn, since) || (UserSent(turn) && MaySpawn(tree, event.threadId, since))
      {
        ReportedOrSpawned(listing, root, tree, since, events, event, turn);
      }
    }
  }

  lemma KeptHarmless(queued: set<string>, threadId: string, answer: Option<seq<TurnRecord>>, since: int)
    requires answer.Some?
    ensures EachHarmless(Kept(queued, threadId, answer.value), since) <==> AnswerHarmless(answer, threadId, queued, since)
  {
    NotUsersIs(answer.value);
  }

  lemma AnswersOneMore(queued: set<string>, ids: seq<string>, answers: TurnAnswers, since: int)
    requires |ids| == |answers| && answers != [] && AllTold(answers)
    ensures var n := |answers| - 1;
      && AllTold(answers[..n])
      && (AnswersHarmless(ids, answers, queued, since)
          <==> AnswersHarmless(ids[..n], answers[..n], queued, since) && AnswerHarmless(answers[n], ids[n], queued, since))
  {
    var n := |answers| - 1;
    assert forall i :: 0 <= i < n ==> answers[..n][i] == answers[i] && ids[..n][i] == ids[i];
    if AnswersHarmless(ids[..n], answers[..n], queued, since) && AnswerHarmless(answers[n], ids[n], queued, since) {
      forall i | 0 <= i < |ids| ensures AnswerHarmless(answers[i], ids[i], queued, since) {
        if i < n { assert AnswerHarmless(answers[..n][i], ids[..n][i], queued, since); }
      }
    }
    if AnswersHarmless(ids, answers, queued, since) {
      forall i | 0 <= i < n ensures AnswerHarmless(answers[..n][i], ids[..n][i], queued, since) {
        assert AnswerHarmless(answers[i], ids[i], queued, since);
      }
    }
  }

  lemma {:induction false} HeardHarmless(queued: set<string>, ids: seq<string>, answers: TurnAnswers, since: int)
    requires |ids| == |answers| && AllTold(answers)
    ensures EachHarmless(TurnsHeard(queued, ids, answers), since) <==> AnswersHarmless(ids, answers, queued, since)
    decreases |ids|
  {
    if answers != [] {
      var n := |answers| - 1;
      AnswersOneMore(queued, ids, answers, since);
      HeardHarmless(queued, ids[..n], answers[..n], since);
      KeptHarmless(queued, ids[n], answers[n], since);
      var before, last := TurnsHeard(queued, ids[..n], answers[..n]), Kept(queued, ids[n], answers[n].value);
      assert TurnsHeard(queued, ids, answers) == before + last;
      HarmlessJoin(before, last, since);
    }
  }

  lemma HarmlessJoin(a: seq<TurnRecord>, b: seq<TurnRecord>, since: int)
    ensures EachHarmless(a + b, since) <==> EachHarmless(a, since) && EachHarmless(b, since)
  {
    forall turn | turn in a ensures turn in a + b {}
    forall turn | turn in b ensures turn in a + b {}
  }

  // ---- what a look says ----

  ghost predicate TreeAtRest(tree: seq<Thread>, since: int) {
    (forall t :: t in tree ==> AtRest(t)) && !SomePinnedSince(tree, since)
  }

  /**
   * A look says land exactly when every thread of the tree is at rest and was
   * not pinned since, and bb told of the turns of each: none of these, and
   * none an event told, is a message of the user's or a failure since the
   * choice, but for messages queued then and those of a spawn.
   */
  lemma LooksLandIff(listing: seq<Thread>, root: string, since: int, events: seq<WaitingEvent>, said: Said, g: Grounds)
    requires UniqueIds(listing) && root in Ids(listing) && Judged(listing, root, since, events, said, g)
    ensures said == Says(Land) <==>
      TreeAtRest(g.tree, since) && EventsHarmless(g.tree, events, since) && AnswersHarmless(IdsOf(g.tree), g.all, g.queued, since)
  {
    var reported, ids := ReportedIn(listing, g.tree, since, events), IdsOf(g.tree);
    ReportedHarmless(listing, root, g.tree, since, events);
    LandsAtRest(g.tree, since, reported);
    if |g.all| == |g.tree| && AllTold(g.all) {
      HeardHarmless(g.queued, ids, g.all, since);
      HarmlessJoin(reported, TurnsHeard(g.queued, ids, g.all), since);
      LandsAtRest(g.tree, since, reported + TurnsHeard(g.queued, ids, g.all));
    }
  }

  /** bb told of the turns of all of these, and some would end the settle. */
  ghost predicate HarmTold(ids: seq<string>, answers: TurnAnswers, queued: set<string>, since: int) {
    && answers != [] && (forall i :: 0 <= i < |answers| ==> answers[i].Some?)
    && !AnswersHarmless(ids, answers, queued, since)
  }

  ghost predicate TreeEnds(tree: seq<Thread>, since: int) {
    SomePinnedSince(tree, since) || SomeVisibleAsks(tree) || SomeFailedToSend(tree)
  }

  /** A verdict by turns ends exactly for the tree's own sake or for a turn that is not harmless. */
  lemma VerdictEnds(tree: seq<Thread>, since: int, turns: seq<TurnRecord>)
    ensures Verdict(tree, since, turns).End? <==> TreeEnds(tree, since) || !EachHarmless(turns, since)
  {
    AllHarmless(turns, since);
  }

  /**
   * A look ends the settle exactly for a pin since, a question on a visible
   * thread or a message that failed to send in its tree, for a turn an event
   * told, or for one bb told of a thread it was asked about: of the user's,
   * not queued at the choice and no spawn's, or a failure, since the choice.
   */
  lemma LooksEndIff(listing: seq<Thread>, root: string, since: int, events: seq<WaitingEvent>, said: Said, g: Grounds)
    requires UniqueIds(listing) && root in Ids(listing) && Judged(listing, root, since, events, said, g)
    ensures said.Says? && said.verdict.End? <==>
      || TreeEnds(g.tree, since) || !EventsHarmless(g.tree, events, since)
      || HarmTold(ToRead(g.tree, events), g.first, g.queued, since) || HarmTold(IdsOf(g.tree), g.all, g.queued, since)
  {
    var reported := ReportedIn(listing, g.tree, since, events);
    ReportedHarmless(listing, root, g.tree, since, events);
    VerdictEnds(g.tree, since, reported);
    WithHeard(g.tree, since, reported, g.queued, ToRead(g.tree, events), g.first);
    WithHeard(g.tree, since, reported, g.queued, IdsOf(g.tree), g.all);
  }

  lemma WithHeard(tree: seq<Thread>, since: int, reported: seq<TurnRecord>, queued: set<string>, ids: seq<string>, answers: TurnAnswers)
    ensures |ids| == |answers| && AllTold(answers) ==>
      (Verdict(tree, since, reported + TurnsHeard(queued, ids, answers)).End?
       <==> TreeEnds(tree, since) || !EachHarmless(reported, since) || HarmTold(ids, answers, queued, since))
  {
    if |ids| == |answers| && AllTold(answers) {
      var heard := TurnsHeard(queued, ids, answers);
      VerdictEnds(tree, since, reported + heard);
      HarmlessJoin(reported, heard, since);
      HeardHarmless(queued, ids, answers, since);
    }
  }

  /** A look that leaves a settle waiting saw a thread of its tree that is not at rest. */
  lemma LooksWaitOnWork(listing: seq<Thread>, root: string, since: int, events: seq<WaitingEvent>, g: Grounds)
    requires UniqueIds(listing) && root in Ids(listing) && Judged(listing, root, since, events, Says(Wait), g)
    ensures exists t :: t in g.tree && !AtRest(t)
  {
    var reported := ReportedIn(listing, g.tree, since, events);
    WaitsOnWork(g.tree, since, reported);
    WaitsOnWork(g.tree, since, reported + TurnsHeard(g.queued, ToRead(g.tree, events), g.first));
    WaitsOnWork(g.tree, since, reported + TurnsHeard(g.queued, IdsOf(g.tree), g.all));
  }

  lemma WaitsOnWork(tree: seq<Thread>, since: int, turns: seq<TurnRecord>)
    ensures Verdict(tree, since, turns) == Wait ==> exists t :: t in tree && !AtRest(t)
  {
    if Verdict(tree, since, turns) == Wait {
      var t :| t in tree && IsBusy(t);
      assert !AtRest(t);
    }
  }

  /** While the tree is busy a look asks about its threads that an event named without their turns, and those with a turn in flight. */
  lemma AsksAbout(tree: seq<Thread>, events: seq<WaitingEvent>, id: string)
    ensures id in ToRead(tree, events) <==>
      || (exists event :: event in events && event.threadId == id && event.turns.None? && id in Ids(tree))
      || (exists t :: t in tree && t.id == id && (t.status == Starting || t.status == Active || t.status == Stopping))
  {
    NamedHas(events, Ids(tree), id);
    InFlightHas(tree, id);
    DistinctIs(Named(events, Ids(tree)) + InFlight(tree));
  }

  lemma {:induction false} NamedHas(events: seq<WaitingEvent>, inTree: set<string>, id: string)
    ensures id in Named(events, inTree) <==> exists event :: event in events && event.threadId == id && event.turns.None? && id in inTree
  {
    if events != [] {
      assert events == [events[0]] + events[1..];
      NamedHas(events[1..], inTree, id);
    }
  }

  lemma {:induction false} InFlightHas(tree: seq<Thread>, id: string)
    ensures id in InFlight(tree) <==> exists t :: t in tree && t.id == id && (t.status == Starting || t.status == Active || t.status == Stopping)
  {
    if tree != [] {
      assert tree == [tree[0]] + tree[1..];
      InFlightHas(tree[1..], id);
    }
  }

  /** What a choice excuses, in bb's terms: the threads of the tree with a message waiting to be sent, or that failed to. */
  lemma QueuedAtChoice(tree: seq<Thread>, id: string)
    ensures id in QueuedIn(tree) <==> exists t :: t in tree && t.id == id && t.queuedWork != NothingQueued
  {
  }

  // ---- what a check writes ----

  /** What the landings of a check settle: trees at rest, unpinned since, whose row still waits since then. */
  lemma LandsOnlyAtRest(rows: Rows, listing: seq<Thread>, landing: seq<Waiting>, landed: seq<Landed>, l: Landed)
    requires AllLandAfresh(rows, listing, landing, landed) && l in landed
    ensures l.wait in landing && l.wait.root in rows && rows[l.wait.root].waitingSettleAt == Some(l.wait.since)
    ensures IsTree(listing, l.wait.root, l.tree) && TreeAtRest(l.tree, l.wait.since)
  {
    LandsAtRest(l.tree, l.wait.since, []);
  }

  /** A tree read again that is at rest and was not pinned since lands, if its row still waits since then. */
  lemma LandsWhenAtRest(listing: seq<Thread>, landing: seq<Waiting>, landed: seq<Landed>, i: nat, tree: seq<Thread>)
    requires NoneLeftOut(listing, landing, |landing|, landed) && i < |landing|
    requires landing[i].root in Ids(listing) && IsTree(listing, landing[i].root, tree) && TreeAtRest(tree, landing[i].since)
    ensures exists l :: l in landed && l.wait == landing[i]
  {
    LandsAtRest(tree, landing[i].since, []);
    assert StillLands(listing, landing[i]);
  }

  /**
   * The rows of a check, field by field: a thread of a landed tree is settled
   * by hand at that time and nothing else; a settle that ended leaves the
   * marks its row had, and no row when there was none.
   */
  lemma CheckWrites(before: Rows, after: Rows, ending: seq<Waiting>, landed: seq<Landed>, settledAt: int, id: string)
    requires Written(before, after, ending, landed, settledAt)
    ensures InSome(landed, id) ==> Get(after, id) == Some(Row(Some(settledAt), Some(Manual), None, None, None, false, None, None))
    ensures !InSome(landed, id) && EndsNow(before, ending, id) ==>
      var was := before[id];
      && (id in after <==> was.settledAt.Some? || was.parkedAt.Some? || was.snoozeUntil.Some? || was.snoozedAt.Some? || was.activeOverride)
      && (id in after ==> after[id] == Row(was.settledAt, was.settledKind, was.parkedAt, was.snoozeUntil, was.snoozedAt, was.activeOverride, was.heldAttentionAt, None))
    ensures !InSome(landed, id) && !EndsNow(before, ending, id) ==> Get(after, id) == Get(before, id)
  {
    assert Get(after, id) == RowWritten(before, ending, landed, settledAt, id);
  }

  // ---- what a check decides ----

  /** The thread is gone, or its wait is over. */
  ghost predicate SaysOver(said: Said) { said == Gone || exists reason :: said == Says(End(reason)) }

  lemma OverIs(said: Said)
    ensures SaidOver(said) <==> SaysOver(said)
  {
    if SaidOver(said) && said != Gone { assert said == Says(End(said.verdict.reason)); }
  }

  /** The idle time a look leaves: as it was when it said nothing, since now or earlier when it said land, else none. */
  ghost predicate LeavesIdle(said: Said, was: Option<int>, at: int, now: Option<int>) {
    if said == Nothing then now == was
    else if said == Says(Land) then now == (if was == None then Some(at) else was)
    else now == None
  }

  /**
   * Each waiting settle is looked at once by bb's listing: one that is gone
   * or over is to end, one said to land five seconds after it was first seen
   * idle is to land, and its idle time goes by what the look said.
   */
  lemma CheckDecides(report: Report, events: seq<WaitingEvent>, idleBefore: map<string, int>, idleLeft: map<string, int>, at: int, settledAt: int,
                     log: seq<Look>, after: Rows, touched: set<string>, i: nat)
    requires report in Reports(events, idleBefore, idleLeft, at, settledAt, log, after, touched) && report.listing.Some?
    requires i < |report.waiting|
    ensures |report.looks| == |report.waiting|
    ensures var look, w := report.looks[i], report.waiting[i];
      && look.root == w.root && look.since == w.since && look.at == at
      && (SaysOver(look.said) ==> w in report.ending)
      && (look.said == Says(Land) && w.root in idleBefore && idleBefore[w.root] + 5_000 <= at ==> w in report.landing)
      && (w.root !in LandedRoots(report.landed) ==> LeavesIdle(look.said, Get(idleBefore, w.root), at, Get(idleLeft, w.root)))
  {
    var look, w := report.looks[i], report.waiting[i];
    OverIs(look.said);
    assert LookAt(look, w, report.listing.value, events, at);
    assert SortedOut(look, w, Remembered(idleBefore, report.waiting), report.ending, report.landing, at);
  }

  /** A settle keeps no idle time once it waits no more. */
  lemma IdleTimesAreOfWaiting(report: Report, events: seq<WaitingEvent>, idleBefore: map<string, int>, idleLeft: map<string, int>, at: int, settledAt: int,
                              log: seq<Look>, after: Rows, touched: set<string>, root: string)
    requires report in Reports(events, idleBefore, idleLeft, at, settledAt, log, after, touched) && root in idleLeft
    ensures exists w :: w in report.waiting && w.root == root
  {
  }

  /** Only what a look of this check found gone or over is to end. */
  lemma EndsOnlyWhenOver(report: Report, events: seq<WaitingEvent>, idleBefore: map<string, int>, idleLeft: map<string, int>, at: int, settledAt: int,
                         log: seq<Look>, after: Rows, touched: set<string>, w: Waiting) returns (look: Look)
    requires report in Reports(events, idleBefore, idleLeft, at, settledAt, log, after, touched) && w in report.ending
    ensures look in log && look.root == w.root && look.since == w.since && look.at == at && SaysOver(look.said)
  {
    assert Over(log, w, at);
    look :| look in log && IsLook(look, w, at) && SaidOver(look.said);
    OverIs(look.said);
  }

  /** From this look on every look at the root said land, or nothing. */
  ghost predicate SaidIdleFrom(log: seq<Look>, i: int, root: string) {
    && 0 <= i < |log| && log[i].root == root && log[i].said == Says(Land)
    && forall j :: i <= j < |log| && log[j].root == root ==> log[j].said == Nothing || log[j].said == Says(Land)
  }

  /** Only a settle still waiting lands, that this check and one five seconds before it said to land with none between that did not. */
  lemma LandsOnlyWhenIdle(report: Report, events: seq<WaitingEvent>, idleBefore: map<string, int>, idleLeft: map<string, int>, at: int, settledAt: int,
                          log: seq<Look>, after: Rows, touched: set<string>, l: Landed) returns (i: int, look: Look)
    requires report in Reports(events, idleBefore, idleLeft, at, settledAt, log, after, touched) && l in report.landed
    ensures l.wait.root in report.atWrite && report.atWrite[l.wait.root].waitingSettleAt == Some(l.wait.since)
    ensures look in log && look.root == l.wait.root && look.since == l.wait.since && look.at == at && look.said == Says(Land)
    ensures SaidIdleFrom(log, i, l.wait.root) && log[i].at + 5_000 <= at
    ensures TreeAtRest(l.tree, l.wait.since)
  {
    assert LandsRightly(report.atWrite, log, l, at);
    look :| look in log && IsLook(look, l.wait, at) && look.said == Says(Land);
    var idleAt :| idleAt <= at - IDLE_GRACE_MS && IdleSince(log, l.wait.root, idleAt);
    i :| 0 <= i < |log| && IdleFrom(log, i, l.wait.root, idleAt);
    LandsAtRest(l.tree, l.wait.since, []);
  }
}
