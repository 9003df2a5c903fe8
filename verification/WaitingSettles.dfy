/**
 * The check of settles that wait for their tree to go idle. A check looks at
 * each by bb's listing and the turns bb tells of, ends those a turn ended and
 * settles those that have landed for the grace and land once more on a fresh
 * listing. bb's threads and the rows may change at each of its reads; what it
 * writes is stated by the very answers it was given.
 */
module WaitingSettles {
  import opened Common
  import opened Threads
  import opened ThreadTree
  import opened Lifecycle
  import opened LifecycleStore
  import opened Bb
  import opened WaitingRule
  import opened Settling

  const IDLE_GRACE_MS := 5_000

  /** What a thread event tells the waiting settles; `turns` when the event itself reports some. */
  datatype WaitingEvent = WaitingEvent(threadId: string, turns: Option<seq<TurnRecord>>)

  /** What one look at a waiting settle said; nothing when bb could not tell of the turns. */
  datatype Said = Nothing | Gone | Says(verdict: WaitingVerdict)

  // ---- the turns that bear on a settle ----

  /** The first message of a thread's spawn may be marked as the user's whoever spawned it. */
  predicate IsSpawning(byId: map<string, Thread>, threadId: string, since: int) {
    threadId !in byId || byId[threadId].status.Pending? || byId[threadId].createdAt > since
  }

  predicate IsUsers(turn: TurnRecord) { turn.Requested? && turn.byUser }

  function NotUsers(turns: seq<TurnRecord>): seq<TurnRecord> {
    if turns == [] then []
    else if IsUsers(turns[0]) then NotUsers(turns[1..])
    else [turns[0]] + NotUsers(turns[1..])
  }

  lemma {:induction false} NotUsersIs(turns: seq<TurnRecord>)
    ensures forall turn :: turn in NotUsers(turns) <==> turn in turns && !IsUsers(turn)
  {
    if turns != [] {
      NotUsersIs(turns[1..]);
      assert turns == [turns[0]] + turns[1..];
    }
  }

  /** Turns the user asked for before the settle was chosen, by messages queued then, do not end it. */
  function Kept(queued: set<string>, threadId: string, turns: seq<TurnRecord>): seq<TurnRecord> {
    if threadId in queued then NotUsers(turns) else turns
  }

  /** The turns the events themselves report of threads in the tree. */
  function Reported(events: seq<WaitingEvent>, inTree: set<string>, byId: map<string, Thread>, since: int): seq<TurnRecord> {
    if events == [] then []
    else
      var event := events[0];
      var turns := if event.threadId in inTree then event.turns.GetOr([]) else [];
      (if IsSpawning(byId, event.threadId, since) then NotUsers(turns) else turns) + Reported(events[1..], inTree, byId, since)
  }

  /** The tree's threads an event named without their turns. */
  function Named(events: seq<WaitingEvent>, inTree: set<string>): seq<string> {
    if events == [] then []
    else (if events[0].threadId in inTree && events[0].turns.None? then [events[0].threadId] else []) + Named(events[1..], inTree)
  }

  function InFlight(tree: seq<Thread>): seq<string> {
    if tree == [] then []
    else (if IsTurnInFlight(tree[0]) then [tree[0].id] else []) + InFlight(tree[1..])
  }

  function Distinct(ids: seq<string>): seq<string> {
    if ids == [] then []
    else
      var rest, last := Distinct(ids[..|ids| - 1]), ids[|ids| - 1];
      if last in rest then rest else rest + [last]
  }

  ghost predicate NoneEnds(turns: seq<TurnRecord>, since: int, excused: bool) {
    forall turn :: turn in turns ==> EndOf(turn, since).None? || (excused && IsUsers(turn))
  }

  // ---- bb's answers about turns ----

  /** What bb answered for each of some threads, None where it could not say. */
  type TurnAnswers = seq<Option<seq<TurnRecord>>>

  predicate AllTold(answers: TurnAnswers) { forall i :: 0 <= i < |answers| ==> answers[i].Some? }

  /** The turns heard of the threads, but for those excused by the messages queued at the choice. */
  function TurnsHeard(queued: set<string>, ids: seq<string>, answers: TurnAnswers): seq<TurnRecord> {
    if answers == [] || |ids| != |answers| then []
    else
      var n := |answers| - 1;
      TurnsHeard(queued, ids[..n], answers[..n]) + Kept(queued, ids[n], answers[n].GetOr([]))
  }

  lemma {:induction false} TurnsHeardHas(queued: set<string>, ids: seq<string>, answers: TurnAnswers, i: nat, turn: TurnRecord)
    requires |ids| == |answers| && i < |ids| && turn in Kept(queued, ids[i], answers[i].GetOr([]))
    ensures turn in TurnsHeard(queued, ids, answers)
    decreases |ids|
  {
    var n := |answers| - 1;
    if i < n { TurnsHeardHas(queued, ids[..n], answers[..n], i, turn); }
  }

  /** The answers as bb gave them, one for each thread asked about. */
  function AsTold(ids: seq<string>, since: int, answers: TurnAnswers): seq<Answer> {
    seq(|answers|, i requires 0 <= i < |answers| => TurnsAre(if i < |ids| then ids[i] else "", since, answers[i]))
  }

  lemma AskedOneMore(ids: seq<string>, since: int, queued: set<string>, k: nat, answers: TurnAnswers, answer: Option<seq<TurnRecord>>)
    requires k == |answers| < |ids|
    ensures AsTold(ids, since, answers + [answer]) == AsTold(ids, since, answers) + [TurnsAre(ids[k], since, answer)]
    ensures TurnsHeard(queued, ids[..k + 1], answers + [answer]) == TurnsHeard(queued, ids[..k], answers) + Kept(queued, ids[k], answer.GetOr([]))
    ensures AllTold(answers + [answer]) <==> AllTold(answers) && answer.Some?
  {
    var more := answers + [answer];
    assert ids[..k + 1][..k] == ids[..k] && more[..k] == answers && more[k] == answer;
    if AllTold(more) { assert forall i :: 0 <= i < k ==> answers[i] == more[i]; }
  }

  lemma {:induction false} DistinctIs(ids: seq<string>)
    ensures NoRepeats(Distinct(ids)) && forall id :: id in Distinct(ids) <==> id in ids
  {
    if ids != [] {
      assert ids == ids[..|ids| - 1] + [ids[|ids| - 1]];
      DistinctIs(ids[..|ids| - 1]);
    }
  }

  /**
   * What a look went by: the tree, the threads with a message queued at the
   * choice, and what bb answered of the turns of those it first asked about
   * and, before a landing, of every thread of the tree.
   */
  datatype Grounds = Grounds(tree: seq<Thread>, queued: set<string>, first: TurnAnswers, all: TurnAnswers)

  const NO_GROUNDS := Grounds([], {}, [], [])

  function ReportedIn(listing: seq<Thread>, tree: seq<Thread>, since: int, events: seq<WaitingEvent>): seq<TurnRecord> {
    Reported(events, Ids(tree), ById(listing), since)
  }

  /** The threads whose turns are read while the tree is busy: those an event named, and those with one in flight. */
  function ToRead(tree: seq<Thread>, events: seq<WaitingEvent>): seq<string> { Distinct(Named(events, Ids(tree)) + InFlight(tree)) }

  function FirstVerdict(listing: seq<Thread>, tree: seq<Thread>, since: int, events: seq<WaitingEvent>): WaitingVerdict {
    Verdict(tree, since, ReportedIn(listing, tree, since, events))
  }

  predicate AsksFirst(listing: seq<Thread>, tree: seq<Thread>, since: int, events: seq<WaitingEvent>) {
    FirstVerdict(listing, tree, since, events).Wait? && ToRead(tree, events) != []
  }

  /** The verdict after the threads first asked about; the events' own when bb could not say for one of them. */
  function NextVerdict(listing: seq<Thread>, since: int, events: seq<WaitingEvent>, g: Grounds): WaitingVerdict {
    if AsksFirst(listing, g.tree, since, events) && AllTold(g.first)
    then Verdict(g.tree, since, ReportedIn(listing, g.tree, since, events) + TurnsHeard(g.queued, ToRead(g.tree, events), g.first))
    else FirstVerdict(listing, g.tree, since, events)
  }

  function LastVerdict(listing: seq<Thread>, since: int, events: seq<WaitingEvent>, g: Grounds): WaitingVerdict {
    Verdict(g.tree, since, ReportedIn(listing, g.tree, since, events) + TurnsHeard(g.queued, IdsOf(g.tree), g.all))
  }

  /** Before it lands every turn the tree ran is read; without an answer for one of them nothing is said. */
  function SaidOf(listing: seq<Thread>, since: int, events: seq<WaitingEvent>, g: Grounds): Said {
    var next := NextVerdict(listing, since, events, g);
    if !next.Land? then Says(next) else if AllTold(g.all) then Says(LastVerdict(listing, since, events, g)) else Nothing
  }

  /** The answers cover the threads asked about: the first when the tree is busy, all of it before it lands. */
  ghost predicate AnswersFit(listing: seq<Thread>, since: int, events: seq<WaitingEvent>, g: Grounds) {
    && |g.first| == (if AsksFirst(listing, g.tree, since, events) then |ToRead(g.tree, events)| else 0)
    && |g.all| == (if NextVerdict(listing, since, events, g).Land? then |g.tree| else 0)
  }

  /** A look says gone of a thread bb does not list, else the verdict on its tree by the turns reported and answered. */
  ghost predicate Judged(listing: seq<Thread>, root: string, since: int, events: seq<WaitingEvent>, said: Said, g: Grounds) {
    if root !in Ids(listing) then said.Gone? && g == NO_GROUNDS.(queued := g.queued)
    else IsTree(listing, root, g.tree) && AnswersFit(listing, since, events, g) && said == SaidOf(listing, since, events, g)
  }

  lemma JudgedBy(listing: seq<Thread>, root: string, since: int, events: seq<WaitingEvent>, g: Grounds, verdict: WaitingVerdict, said: Said)
    requires root in Ids(listing) && IsTree(listing, root, g.tree)
    requires |g.first| == (if AsksFirst(listing, g.tree, since, events) then |ToRead(g.tree, events)| else 0)
    requires verdict == NextVerdict(listing, since, events, Grounds(g.tree, g.queued, g.first, []))
    requires |g.all| == if verdict.Land? then |g.tree| else 0
    requires said == if !verdict.Land? then Says(verdict) else if !AllTold(g.all) then Nothing
                     else Says(LastVerdict(listing, since, events, Grounds(g.tree, g.queued, [], g.all)))
    ensures Judged(listing, root, since, events, said, g)
  {
  }

  lemma AskedInTwo(since: int, events: seq<WaitingEvent>, g: Grounds, before: seq<Answer>, first: seq<Answer>, after: seq<Answer>)
    requires first == before + AsTold(ToRead(g.tree, events), since, g.first) && after == first + AsTold(IdsOf(g.tree), since, g.all)
    ensures after == before + AskedFor(since, events, g)
  {
  }

  /** What bb was asked for a look, and answered. */
  function AskedFor(since: int, events: seq<WaitingEvent>, g: Grounds): seq<Answer> {
    AsTold(ToRead(g.tree, events), since, g.first) + AsTold(IdsOf(g.tree), since, g.all)
  }

  lemma KeptEnd(queued: set<string>, threadId: string, turns: seq<TurnRecord>, since: int)
    requires forall turn :: turn in Kept(queued, threadId, turns) ==> EndOf(turn, since).None?
    ensures NoneEnds(turns, since, threadId in queued)
  {
    NotUsersIs(turns);
  }

  /**
   * A look that said land: every thread of the tree is idle with no pin
   * since, bb told of the turns of each, and none of them ends the settle but
   * for the user's own where one was queued at the choice.
   */
  lemma LandHeardAll(listing: seq<Thread>, root: string, since: int, events: seq<WaitingEvent>, g: Grounds, t: Thread)
    requires Judged(listing, root, since, events, Says(Land), g) && t in g.tree
    ensures !IsBusy(t) && !PinnedAfter(t, since)
    ensures exists i :: 0 <= i < |g.tree| == |g.all| && g.tree[i] == t && g.all[i].Some? && NoneEnds(g.all[i].value, since, t.id in g.queued)
    ensures forall turn :: turn in ReportedIn(listing, g.tree, since, events) ==> EndOf(turn, since).None?
  {
    var reported, heard := ReportedIn(listing, g.tree, since, events), TurnsHeard(g.queued, IdsOf(g.tree), g.all);
    assert Verdict(g.tree, since, reported + heard).Land?;
    LandMeans(g.tree, since, reported + heard);
    var i :| 0 <= i < |g.tree| && g.tree[i] == t;
    assert IdsOf(g.tree)[i] == t.id;
    forall turn | turn in Kept(g.queued, t.id, g.all[i].value) ensures EndOf(turn, since).None? {
      TurnsHeardHas(g.queued, IdsOf(g.tree), g.all, i, turn);
      assert turn in reported + heard;
    }
    KeptEnd(g.queued, t.id, g.all[i].value, since);
    forall turn | turn in reported ensures EndOf(turn, since).None? { assert turn in reported + heard; }
  }

  // ---- the choices noted ----

  /** A settle left waiting with its tree as Settle read it, or a check that kept only what is about settles still waiting. */
  datatype Note = Choice(root: string, tree: seq<Thread>) | StillWaitingOnly(roots: set<string>)

  function QueuedIn(tree: seq<Thread>): set<string> { set t | t in tree && HasQueuedMessage(t) :: t.id }

  /** The threads a look at `root` excuses by these notes. */
  function QueuedBy(notes: seq<Note>, root: string): set<string> {
    if notes == [] then {}
    else
      match notes[|notes| - 1]
      case Choice(r, tree) => if r == root then QueuedIn(tree) else QueuedBy(notes[..|notes| - 1], root)
      case StillWaitingOnly(roots) => if root in roots then QueuedBy(notes[..|notes| - 1], root) else {}
  }

  /**
   * A look excuses the user's turns of exactly the threads that had a message
   * queued when the settle was chosen: as long as it waits and is not chosen
   * again, whatever is chosen elsewhere.
   */
  lemma {:induction false} ChoiceExcuses(before: seq<Note>, root: string, tree: seq<Thread>, after: seq<Note>)
    requires forall i :: 0 <= i < |after| ==> if after[i].Choice? then after[i].root != root else root in after[i].roots
    ensures QueuedBy(before + [Choice(root, tree)] + after, root) == QueuedIn(tree)
  {
    var notes := before + [Choice(root, tree)] + after;
    if after == [] {
      assert notes[..|notes| - 1] == before;
    } else {
      ChoiceExcuses(before, root, tree, after[..|after| - 1]);
      assert notes[..|notes| - 1] == before + [Choice(root, tree)] + after[..|after| - 1];
    }
  }

  // ---- what the checks of a root have said ----

  /** One look of a check at one waiting settle: what it said, what it went by, and the choices noted by then. */
  datatype Look = Look(root: string, since: int, at: int, said: Said, grounds: Grounds, notes: seq<Note>)

  predicate SaidLand(said: Said) { said.Says? && said.verdict.Land? }

  predicate SaidOver(said: Said) { said.Gone? || (said.Says? && said.verdict.End?) }

  /** A look that neither ended the settle nor found its tree busy. */
  predicate KeepsIdle(said: Said) { said.Nothing? || SaidLand(said) }

  /** Some look said land at `idleAt`, and no look at that root since said it is to wait or to end. */
  ghost predicate IdleSince(log: seq<Look>, root: string, idleAt: int) {
    exists i :: 0 <= i < |log| && IdleFrom(log, i, root, idleAt)
  }

  ghost predicate IdleFrom(log: seq<Look>, i: int, root: string, idleAt: int)
    requires 0 <= i < |log|
  {
    && log[i].root == root && log[i].at == idleAt && SaidLand(log[i].said)
    && forall j :: i <= j < |log| && log[j].root == root ==> KeepsIdle(log[j].said)
  }

  lemma IdleGoesOn(log: seq<Look>, look: Look, root: string, idleAt: int)
    requires IdleSince(log, root, idleAt) && (look.root != root || KeepsIdle(look.said))
    ensures IdleSince(log + [look], root, idleAt)
  {
    var i :| 0 <= i < |log| && IdleFrom(log, i, root, idleAt);
    assert IdleFrom(log + [look], i, root, idleAt);
  }

  lemma IdleStarts(log: seq<Look>, look: Look)
    requires SaidLand(look.said)
    ensures IdleSince(log + [look], look.root, look.at)
  {
    assert IdleFrom(log + [look], |log|, look.root, look.at);
  }

  ghost predicate AllIdle(log: seq<Look>, idleSince: map<string, int>) {
    forall root :: root in idleSince ==> IdleSince(log, root, idleSince[root])
  }

  /** What a look does to the idle times: a new or kept one when it says land, none when it says wait or end. */
  function IdleAfter(idleSince: map<string, int>, look: Look): map<string, int> {
    if look.said.Nothing? then idleSince
    else if SaidLand(look.said) then idleSince[look.root := Get(idleSince, look.root).GetOr(look.at)]
    else idleSince - {look.root}
  }

  lemma IdleAfterHolds(log: seq<Look>, idleSince: map<string, int>, look: Look)
    requires AllIdle(log, idleSince)
    ensures AllIdle(log + [look], IdleAfter(idleSince, look))
  {
    var next := IdleAfter(idleSince, look);
    forall root | root in next ensures IdleSince(log + [look], root, next[root]) {
      if root in idleSince {
        IdleGoesOn(log, look, root, idleSince[root]);
      } else {
        IdleStarts(log, look);
      }
    }
  }

  /** The looks of one check: one at each waiting settle, each judged by the check's listing and events. */
  ghost predicate Looked(before: seq<Look>, log: seq<Look>, waiting: seq<Waiting>, k: int, listing: seq<Thread>, events: seq<WaitingEvent>, at: int)
    requires 0 <= k <= |waiting|
  {
    && |log| == |before| + k && before <= log
    && forall i :: 0 <= i < k ==> LookAt(log[|before| + i], waiting[i], listing, events, at)
  }

  ghost predicate LookAt(look: Look, wait: Waiting, listing: seq<Thread>, events: seq<WaitingEvent>, at: int) {
    && IsLook(look, wait, at)
    && Judged(listing, wait.root, wait.since, events, look.said, look.grounds)
    && look.grounds.queued == QueuedBy(look.notes, wait.root)
  }

  predicate IsLook(look: Look, wait: Waiting, at: int) { look.root == wait.root && look.since == wait.since && look.at == at }

  /** What bb was asked for the looks, and answered, in order. */
  function AskedForAll(events: seq<WaitingEvent>, looks: seq<Look>): seq<Answer> {
    if looks == [] then []
    else
      var look := looks[|looks| - 1];
      AskedForAll(events, looks[..|looks| - 1]) + AskedFor(look.since, events, look.grounds)
  }

  lemma AskedForOneMore(before: seq<Answer>, events: seq<WaitingEvent>, looks: seq<Look>, look: Look)
    ensures before + AskedForAll(events, looks) + AskedFor(look.since, events, look.grounds) == before + AskedForAll(events, looks + [look])
  {
    assert (looks + [look])[..|looks|] == looks;
    assert before + AskedForAll(events, looks) + AskedFor(look.since, events, look.grounds)
      == before + (AskedForAll(events, looks) + AskedFor(look.since, events, look.grounds));
  }

  /** The choices the looks went by were noted by then. */
  ghost predicate NotedBy(looks: seq<Look>, notes: seq<Note>) {
    forall i :: 0 <= i < |looks| ==> looks[i].notes <= notes
  }

  lemma NotedOneMore(looks: seq<Look>, look: Look, before: seq<Note>, notes: seq<Note>)
    requires NotedBy(looks, before) && before <= notes && look.notes <= notes
    ensures NotedBy(looks + [look], notes)
  {
  }

  /** Of the first k, each the check found over is to end, and each found to land that was idle the grace before is to land. */
  ghost predicate Complete(looks: seq<Look>, waiting: seq<Waiting>, k: int, idleBefore: map<string, int>, ending: seq<Waiting>, landing: seq<Waiting>, at: int)
    requires 0 <= k <= |waiting| && k <= |looks|
  {
    forall i :: 0 <= i < k ==> SortedOut(looks[i], waiting[i], idleBefore, ending, landing, at)
  }

  ghost predicate SortedOut(look: Look, wait: Waiting, idleBefore: map<string, int>, ending: seq<Waiting>, landing: seq<Waiting>, at: int) {
    && (SaidOver(look.said) ==> wait in ending)
    && (SaidLand(look.said) && wait.root in idleBefore && at - idleBefore[wait.root] >= IDLE_GRACE_MS ==> wait in landing)
  }

  lemma SortedOutStays(looks: seq<Look>, waiting: seq<Waiting>, k: nat, idleBefore: map<string, int>, ending: seq<Waiting>, landing: seq<Waiting>, at: int,
                       look: Look, moreEnding: seq<Waiting>, moreLanding: seq<Waiting>)
    requires k < |waiting| && k == |looks| && Complete(looks, waiting, k, idleBefore, ending, landing, at)
    requires ending <= moreEnding && landing <= moreLanding
    requires SortedOut(look, waiting[k], idleBefore, moreEnding, moreLanding, at)
    ensures Complete(looks + [look], waiting, k + 1, idleBefore, moreEnding, moreLanding, at)
  {
    forall i | 0 <= i < k ensures SortedOut((looks + [look])[i], waiting[i], idleBefore, moreEnding, moreLanding, at) {
      assert SortedOut(looks[i], waiting[i], idleBefore, ending, landing, at);
    }
  }

  ghost function RootsOf(waiting: seq<Waiting>): set<string> { set w | w in waiting :: w.root }

  /** What a look leaves of a settle's idle time. */
  ghost function IdleTime(before: Option<int>, look: Look): Option<int> {
    match look.said
    case Nothing => before
    case Gone => None
    case Says(verdict) => if verdict == Land then Some(before.GetOr(look.at)) else None
  }

  /** The settles looked at have the idle times their looks left, those from the k-th on the ones they had when the check began. */
  ghost predicate IdleKept(looks: seq<Look>, waiting: seq<Waiting>, k: int, before: map<string, int>, idleSince: map<string, int>)
    requires 0 <= k && k <= |looks| && k <= |waiting|
  {
    && (forall i :: 0 <= i < k ==> Get(idleSince, waiting[i].root) == IdleTime(Get(before, waiting[i].root), looks[i]))
    && (forall i :: k <= i < |waiting| ==> Get(idleSince, waiting[i].root) == Get(before, waiting[i].root))
    && idleSince.Keys <= before.Keys + RootsOf(waiting)
  }

  lemma IdleKeptOn(looks: seq<Look>, waiting: seq<Waiting>, k: nat, before: map<string, int>, idleSince: map<string, int>, look: Look)
    requires k < |waiting| && RootsOnce(waiting) && look.root == waiting[k].root && k == |looks| && IdleKept(looks, waiting, k, before, idleSince)
    ensures IdleKept(looks + [look], waiting, k + 1, before, IdleAfter(idleSince, look))
    ensures SaidLand(look.said) ==> IdleAfter(idleSince, look)[look.root] == Get(before, look.root).GetOr(look.at)
  {
    var after := IdleAfter(idleSince, look);
    assert waiting[k] in waiting && look.root in RootsOf(waiting) && Get(idleSince, waiting[k].root) == Get(before, waiting[k].root);
    forall root | root != look.root ensures Get(after, root) == Get(idleSince, root) {
    }
    forall i | 0 <= i < k ensures Get(after, waiting[i].root) == IdleTime(Get(before, waiting[i].root), (looks + [look])[i]) {
      assert waiting[i].root != look.root;
    }
    forall i | k + 1 <= i < |waiting| ensures Get(after, waiting[i].root) == Get(before, waiting[i].root) {
      assert waiting[i].root != look.root;
    }
  }

  lemma LookedOneMore(before: seq<Look>, looks: seq<Look>, waiting: seq<Waiting>, k: nat, listing: seq<Thread>, events: seq<WaitingEvent>, at: int, look: Look)
    requires k < |waiting| && Looked(before, before + looks, waiting, k, listing, events, at) && LookAt(look, waiting[k], listing, events, at)
    ensures before + looks + [look] == before + (looks + [look])
    ensures Looked(before, before + (looks + [look]), waiting, k + 1, listing, events, at)
  {
    var log := before + (looks + [look]);
    forall i | 0 <= i < k + 1 ensures LookAt(log[|before| + i], waiting[i], listing, events, at) {
      if i < k { assert log[|before| + i] == (before + looks)[|before| + i]; }
    }
  }

  /** A settle a look found over joins those that end; one it found idle for the grace, those that land. */
  lemma SortedWith(log: seq<Look>, look: Look, w: Waiting, ending: seq<Waiting>, landing: seq<Waiting>, at: int, idleSince: map<string, int>)
    requires Sorted(log, ending, landing, at) && look in log && IsLook(look, w, at)
    requires AllIdle(log, idleSince) && (SaidLand(look.said) ==> w.root in idleSince)
    ensures SaidOver(look.said) ==> Sorted(log, ending + [w], landing, at)
    ensures SaidLand(look.said) && at - idleSince[w.root] >= IDLE_GRACE_MS ==> Sorted(log, ending, landing + [w], at)
  {
    if SaidLand(look.said) && at - idleSince[w.root] >= IDLE_GRACE_MS {
      assert IdleSince(log, w.root, idleSince[w.root]);
      assert Ready(log, w, at);
    }
  }

  /** Where a check's looks stand. */
  datatype Progress = Progress(k: nat, looks: seq<Look>, log: seq<Look>, idleSince: map<string, int>, ending: seq<Waiting>, landing: seq<Waiting>)

  /** The looks are at the first k settles, in order, and on the log. */
  ghost function LookedSoFar(before: seq<Look>, waiting: seq<Waiting>, listing: seq<Thread>, events: seq<WaitingEvent>, at: int): iset<Progress> {
    iset p: Progress | p.k <= |waiting| && |p.looks| == p.k && p.log == before + p.looks && Looked(before, p.log, waiting, p.k, listing, events, at)
  }

  /** They are sorted out. */
  ghost function SortedSoFar(waiting: seq<Waiting>, at: int, idleBefore: map<string, int>): iset<Progress> {
    iset p: Progress | p.k <= |waiting| && |p.looks| == p.k
      && Sorted(p.log, p.ending, p.landing, at)
      && FromFirst(waiting, p.k, p.ending) && FromFirst(waiting, p.k, p.landing)
      && Complete(p.looks, waiting, p.k, idleBefore, p.ending, p.landing, at)
  }

  /** They left their idle times. */
  ghost function IdleSoFar(waiting: seq<Waiting>, idleBefore: map<string, int>): iset<Progress> {
    iset p: Progress | p.k <= |waiting| && |p.looks| == p.k && IdleKept(p.looks, waiting, p.k, idleBefore, p.idleSince)
  }

  /** How far a check's looks have come. */
  ghost function Progresses(before: seq<Look>, waiting: seq<Waiting>, listing: seq<Thread>, events: seq<WaitingEvent>, at: int, idleBefore: map<string, int>): iset<Progress> {
    LookedSoFar(before, waiting, listing, events, at) * SortedSoFar(waiting, at, idleBefore) * IdleSoFar(waiting, idleBefore)
  }

  ghost predicate OneLookMore(p: Progress, look: Look, next: Progress) {
    next.k == p.k + 1 && next.looks == p.looks + [look] && next.log == p.log + [look]
  }

  lemma LookedGoesOn(before: seq<Look>, waiting: seq<Waiting>, listing: seq<Thread>, events: seq<WaitingEvent>, at: int, p: Progress, look: Look, next: Progress)
    requires p in LookedSoFar(before, waiting, listing, events, at) && p.k < |waiting| && OneLookMore(p, look, next)
    requires LookAt(look, waiting[p.k], listing, events, at)
    ensures next in LookedSoFar(before, waiting, listing, events, at)
  {
    LookedOneMore(before, p.looks, waiting, p.k, listing, events, at, look);
  }

  lemma IdleTimesGoOn(waiting: seq<Waiting>, idleBefore: map<string, int>, p: Progress, look: Look, next: Progress)
    requires p in IdleSoFar(waiting, idleBefore) && RootsOnce(waiting) && p.k < |waiting| && OneLookMore(p, look, next)
    requires look.root == waiting[p.k].root && next.idleSince == IdleAfter(p.idleSince, look)
    ensures next in IdleSoFar(waiting, idleBefore)
    ensures SaidLand(look.said) ==> next.idleSince[look.root] == Get(idleBefore, look.root).GetOr(look.at)
  {
    IdleKeptOn(p.looks, waiting, p.k, idleBefore, p.idleSince, look);
  }

  lemma SortingGoesOn(waiting: seq<Waiting>, at: int, idleBefore: map<string, int>, p: Progress, look: Look, idleAt: int, next: Progress)
    requires p in SortedSoFar(waiting, at, idleBefore) && RootsOnce(waiting) && p.k < |waiting| && OneLookMore(p, look, next)
    requires IsLook(look, waiting[p.k], at)
    requires Sorted(next.log, p.ending, p.landing, at) && Sorted(next.log, next.ending, next.landing, at)
    requires SaidLand(look.said) ==> idleAt == Get(idleBefore, look.root).GetOr(at)
    requires next.ending == if SaidOver(look.said) then p.ending + [waiting[p.k]] else p.ending
    requires next.landing == if SaidLand(look.said) && at - idleAt >= IDLE_GRACE_MS then p.landing + [waiting[p.k]] else p.landing
    ensures next in SortedSoFar(waiting, at, idleBefore)
  {
    FromFirstGoesOn(waiting, p.k, p.ending);
    FromFirstGoesOn(waiting, p.k, p.landing);
    SortedOutStays(p.looks, waiting, p.k, idleBefore, p.ending, p.landing, at, look, next.ending, next.landing);
  }

  lemma ProgressGoesOn(before: seq<Look>, waiting: seq<Waiting>, listing: seq<Thread>, events: seq<WaitingEvent>, at: int, idleBefore: map<string, int>,
                       p: Progress, look: Look, idleAt: int, next: Progress)
    requires RootsOnce(waiting) && p.k < |waiting| && p in Progresses(before, waiting, listing, events, at, idleBefore) && OneLookMore(p, look, next)
    requires LookAt(look, waiting[p.k], listing, events, at)
    requires Sorted(next.log, p.ending, p.landing, at) && AllIdle(next.log, next.idleSince) && next.idleSince == IdleAfter(p.idleSince, look)
    requires SaidLand(look.said) ==> idleAt == next.idleSince[look.root]
    requires next.ending == if SaidOver(look.said) then p.ending + [waiting[p.k]] else p.ending
    requires next.landing == if SaidLand(look.said) && at - idleAt >= IDLE_GRACE_MS then p.landing + [waiting[p.k]] else p.landing
    ensures next in Progresses(before, waiting, listing, events, at, idleBefore)
  {
    LookedGoesOn(before, waiting, listing, events, at, p, look, next);
    IdleTimesGoOn(waiting, idleBefore, p, look, next);
    SortedWith(next.log, look, waiting[p.k], p.ending, p.landing, at, next.idleSince);
    SortingGoesOn(waiting, at, idleBefore, p, look, idleAt, next);
  }

  lemma ProgressIs(before: seq<Look>, waiting: seq<Waiting>, listing: seq<Thread>, events: seq<WaitingEvent>, at: int, idleBefore: map<string, int>, p: Progress)
    requires RootsOnce(waiting) && p.k < |waiting| && p in Progresses(before, waiting, listing, events, at, idleBefore)
    ensures Sorted(p.log, p.ending, p.landing, at) && forall w :: w in p.landing ==> w.root != waiting[p.k].root
  {
    FromFirstGoesOn(waiting, p.k, p.landing);
  }

  // ---- what a check leaves to write ----

  datatype Waiting = Waiting(root: string, since: int)

  ghost predicate RootsOnce(waiting: seq<Waiting>) {
    forall i, j :: 0 <= i < j < |waiting| ==> waiting[i].root != waiting[j].root
  }

  /** Some of the first k, each once. */
  ghost predicate FromFirst(waiting: seq<Waiting>, k: int, some: seq<Waiting>)
    requires 0 <= k <= |waiting|
  {
    RootsOnce(some) && forall w :: w in some ==> exists i :: 0 <= i < k && waiting[i] == w
  }

  lemma FromFirstGoesOn(waiting: seq<Waiting>, k: nat, some: seq<Waiting>)
    requires k < |waiting| && RootsOnce(waiting) && FromFirst(waiting, k, some)
    ensures FromFirst(waiting, k + 1, some) && FromFirst(waiting, k + 1, some + [waiting[k]])
    ensures forall w :: w in some ==> w.root != waiting[k].root
  {
    forall i | 0 <= i < |some| ensures some[i].root != waiting[k].root { assert some[i] in some; }
  }

  /** This check said land of it, and so did one at least the grace ago, with none between that said wait or end. */
  ghost predicate Ready(log: seq<Look>, wait: Waiting, at: int) {
    && (exists look :: look in log && IsLook(look, wait, at) && look.said == Says(Land))
    && exists idleAt :: idleAt <= at - IDLE_GRACE_MS && IdleSince(log, wait.root, idleAt)
  }

  ghost predicate Over(log: seq<Look>, wait: Waiting, at: int) {
    exists look :: look in log && IsLook(look, wait, at) && SaidOver(look.said)
  }

  ghost predicate Sorted(log: seq<Look>, ending: seq<Waiting>, landing: seq<Waiting>, at: int) {
    && (forall w :: w in ending ==> Over(log, w, at))
    && (forall w :: w in landing ==> Ready(log, w, at))
  }

  lemma SortedGoesOn(log: seq<Look>, look: Look, ending: seq<Waiting>, landing: seq<Waiting>, at: int)
    requires Sorted(log, ending, landing, at)
    requires forall w :: w in landing ==> w.root != look.root
    ensures Sorted(log + [look], ending, landing, at)
  {
    forall w | w in landing ensures Ready(log + [look], w, at) {
      var idleAt :| idleAt <= at - IDLE_GRACE_MS && IdleSince(log, w.root, idleAt);
      IdleGoesOn(log, look, w.root, idleAt);
      var was :| was in log && IsLook(was, w, at) && was.said == Says(Land);
      assert was in log + [look];
    }
    forall w | w in ending ensures Over(log + [look], w, at) {
      var was :| was in log && IsLook(was, w, at) && SaidOver(was.said);
      assert was in log + [look];
    }
  }

  /** The row still holds the very settle decided on. */
  predicate Still(rows: Rows, wait: Waiting) {
    wait.root in rows && rows[wait.root].waitingSettleAt == Some(wait.since)
  }

  function StillWaiting(rows: Rows, waiting: seq<Waiting>): seq<Waiting> {
    if waiting == [] then []
    else StillWaiting(rows, waiting[..|waiting| - 1]) + if Still(rows, waiting[|waiting| - 1]) then [waiting[|waiting| - 1]] else []
  }

  lemma {:induction false} StillWaitingIs(rows: Rows, waiting: seq<Waiting>)
    ensures forall w :: w in StillWaiting(rows, waiting) <==> w in waiting && Still(rows, w)
    ensures RootsOnce(waiting) ==> RootsOnce(StillWaiting(rows, waiting))
  {
    if waiting != [] {
      var rest, last := waiting[..|waiting| - 1], waiting[|waiting| - 1];
      assert waiting == rest + [last];
      StillWaitingIs(rows, rest);
      var before := StillWaiting(rows, rest);
      assert forall i :: 0 <= i < |before| ==> before[i] in before;
    }
  }

  /** One put for each ended wait that gives the row back without it. */
  function EndPuts(rows: Rows, ending: seq<Waiting>): seq<Put> {
    seq(|ending|, i requires 0 <= i < |ending| => EndPut(rows, ending[i].root))
  }

  function EndPut(rows: Rows, root: string): Put {
    Put(root, if root in rows then WithoutWaitingSettle(rows[root]) else None)
  }

  function TreePuts(tree: seq<Thread>, settledAt: int): seq<Put> {
    seq(|tree|, i requires 0 <= i < |tree| => Put(tree[i].id, Some(SettledRow(settledAt, Manual))))
  }

  function LandPuts(landed: seq<Landed>, settledAt: int): seq<Put> {
    if landed == [] then []
    else LandPuts(landed[..|landed| - 1], settledAt) + TreePuts(landed[|landed| - 1].tree, settledAt)
  }

  ghost predicate InSome(landed: seq<Landed>, id: string) { exists l :: l in landed && id in Ids(l.tree) }

  lemma {:induction false} LandPutsAre(landed: seq<Landed>, settledAt: int)
    ensures forall put :: put in LandPuts(landed, settledAt) ==> put.row == Some(SettledRow(settledAt, Manual)) && InSome(landed, put.threadId)
    ensures forall id :: InSome(landed, id) ==> Put(id, Some(SettledRow(settledAt, Manual))) in LandPuts(landed, settledAt)
  {
    if landed != [] {
      var rest, last := landed[..|landed| - 1], landed[|landed| - 1];
      assert landed == rest + [last];
      LandPutsAre(rest, settledAt);
      forall id | InSome(landed, id) ensures Put(id, Some(SettledRow(settledAt, Manual))) in LandPuts(landed, settledAt) {
        if !InSome(rest, id) {
          var t :| t in last.tree && t.id == id;
          var i :| 0 <= i < |last.tree| && last.tree[i] == t;
          assert TreePuts(last.tree, settledAt)[i] == Put(id, Some(SettledRow(settledAt, Manual)));
        }
      }
    }
  }

  ghost predicate EndsNow(rows: Rows, ending: seq<Waiting>, id: string) {
    exists w :: w in ending && w.root == id && Still(rows, w)
  }

  /** Each landed tree is settled, each other settle that ended leaves its row as it was before it, and no other row moved. */
  ghost predicate Written(before: Rows, after: Rows, ending: seq<Waiting>, landed: seq<Landed>, settledAt: int) {
    forall id :: Get(after, id) == RowWritten(before, ending, landed, settledAt, id)
  }

  ghost function RowWritten(before: Rows, ending: seq<Waiting>, landed: seq<Landed>, settledAt: int, id: string): Option<Row> {
    if InSome(landed, id) then Some(SettledRow(settledAt, Manual))
    else if EndsNow(before, ending, id) then WithoutWaitingSettle(before[id])
    else Get(before, id)
  }

  lemma EndPutsWrite(rows: Rows, ending: seq<Waiting>, id: string)
    requires RootsOnce(ending) && forall w :: w in ending ==> Still(rows, w)
    ensures Get(PutAll(rows, EndPuts(rows, ending)), id) == if EndsNow(rows, ending, id) then WithoutWaitingSettle(rows[id]) else Get(rows, id)
  {
    var puts := EndPuts(rows, ending);
    PutAllIs(rows, puts);
    if EndsNow(rows, ending, id) {
      var w :| w in ending && w.root == id;
      var i :| 0 <= i < |ending| && ending[i] == w;
      assert puts[i].threadId == id;
    } else {
      assert forall i :: 0 <= i < |puts| ==> ending[i] in ending && puts[i].threadId == ending[i].root;
    }
  }

  lemma LandPutsWrite(rows: Rows, landed: seq<Landed>, settledAt: int, id: string)
    ensures Get(PutAll(rows, LandPuts(landed, settledAt)), id) == if InSome(landed, id) then Some(SettledRow(settledAt, Manual)) else Get(rows, id)
  {
    var puts := LandPuts(landed, settledAt);
    LandPutsAre(landed, settledAt);
    assert forall i :: 0 <= i < |puts| ==> puts[i] in puts;
    PutAllIs(rows, puts);
    if InSome(landed, id) {
      var i :| 0 <= i < |puts| && puts[i] == Put(id, Some(SettledRow(settledAt, Manual)));
    }
  }

  /** Landings write over endings: a settle ended inside a landed tree is settled with it. */
  lemma PutsWrite(rows: Rows, ending: seq<Waiting>, landed: seq<Landed>, settledAt: int)
    requires RootsOnce(ending)
    ensures Written(rows, PutAll(rows, EndPuts(rows, StillWaiting(rows, ending)) + LandPuts(landed, settledAt)), ending, landed, settledAt)
  {
    StillWaitingIs(rows, ending);
    var still := StillWaiting(rows, ending);
    PutAllAppends(rows, EndPuts(rows, still), LandPuts(landed, settledAt));
    forall id
      ensures Get(PutAll(rows, EndPuts(rows, still) + LandPuts(landed, settledAt)), id) == RowWritten(rows, ending, landed, settledAt, id)
    {
      EndPutsWrite(rows, still, id);
      LandPutsWrite(PutAll(rows, EndPuts(rows, still)), landed, settledAt, id);
      assert EndsNow(rows, still, id) <==> EndsNow(rows, ending, id);
    }
  }

  /** A settle that landed: where, which, and the threads it settled. */
  datatype Landed = Landed(wait: Waiting, tree: seq<Thread>)

  ghost function LandedRoots(landed: seq<Landed>): set<string> { set l | l in landed :: l.wait.root }

  lemma OneRootMore(landed: seq<Landed>, l: Landed, idleSince: map<string, int>)
    ensures LandedRoots(landed + [l]) == LandedRoots(landed) + {l.wait.root}
    ensures idleSince - LandedRoots(landed) - {l.wait.root} == idleSince - LandedRoots(landed + [l])
  {
    var roots, more := LandedRoots(landed), LandedRoots(landed + [l]);
    forall root | root in roots + {l.wait.root} ensures root in more {
      if root in roots {
        var was :| was in landed && was.wait.root == root;
        assert was in landed + [l];
      } else {
        assert l in landed + [l];
      }
    }
    assert more == roots + {l.wait.root};
  }

  lemma PutsOfCheckOk(rows: Rows, ending: seq<Waiting>, landed: seq<Landed>, settledAt: int)
    requires AllOk(rows)
    ensures PutsOk(EndPuts(rows, StillWaiting(rows, ending)) + LandPuts(landed, settledAt))
  {
    LandPutsAre(landed, settledAt);
    var ends, lands := EndPuts(rows, StillWaiting(rows, ending)), LandPuts(landed, settledAt);
    forall i | 0 <= i < |lands| ensures lands[i].row == Some(SettledRow(settledAt, Manual)) { assert lands[i] in lands; }
  }

  ghost predicate WaitsNow(rows: Rows, waiting: seq<Waiting>) {
    && RootsOnce(waiting)
    && (forall w :: w in waiting ==> Still(rows, w))
    && (forall id :: id in rows && IsWaitingSettle(Some(rows[id])) ==> Waiting(id, rows[id].waitingSettleAt.value) in waiting)
  }

  /** A landing read again inside the change: its row still holds the settle, and its tree, read afresh, still lands. */
  ghost predicate LandsAfresh(rows: Rows, listing: seq<Thread>, landing: seq<Waiting>, l: Landed) {
    l.wait in landing && Still(rows, l.wait) && l.wait.root in Ids(listing) && IsTree(listing, l.wait.root, l.tree) && Verdict(l.tree, l.wait.since, []).Land?
  }

  ghost predicate AllLandAfresh(rows: Rows, listing: seq<Thread>, landing: seq<Waiting>, landed: seq<Landed>) {
    forall l :: l in landed ==> LandsAfresh(rows, listing, landing, l)
  }

  /** The row still holds the settle decided on, its tree read again lands, and the checks found it idle for the grace. */
  ghost predicate LandsRightly(rows: Rows, log: seq<Look>, l: Landed, at: int) {
    && Still(rows, l.wait)
    && l.wait.root in Ids(l.tree) && Verdict(l.tree, l.wait.since, []).Land?
    && Ready(log, l.wait, at)
  }

  lemma LandedRightly(rows: Rows, log: seq<Look>, listing: seq<Thread>, ending: seq<Waiting>, landing: seq<Waiting>, landed: seq<Landed>, at: int)
    requires Sorted(log, ending, landing, at) && AllLandAfresh(rows, listing, landing, landed)
    ensures forall l :: l in landed ==> LandsRightly(rows, log, l, at)
  {
    forall l | l in landed ensures LandsRightly(rows, log, l, at) {
      var t :| t in listing && t.id == l.wait.root;
      assert t in l.tree;
    }
  }

  /** A landing read again that still lands is never passed over, whichever order its tree is read in. */
  ghost predicate NoneLeftOut(listing: seq<Thread>, landing: seq<Waiting>, k: int, landed: seq<Landed>)
    requires k <= |landing|
  {
    forall i :: 0 <= i < k && StillLands(listing, landing[i]) ==> exists l :: l in landed && l.wait == landing[i]
  }

  ghost predicate StillLands(listing: seq<Thread>, w: Waiting) {
    w.root in Ids(listing) && exists tree :: IsTree(listing, w.root, tree) && Verdict(tree, w.since, []).Land?
  }

  lemma SameLanding(listing: seq<Thread>, w: Waiting, tree: seq<Thread>)
    requires w.root in Ids(listing) && IsTree(listing, w.root, tree)
    ensures StillLands(listing, w) <==> Verdict(tree, w.since, []).Land?
  {
    if StillLands(listing, w) {
      var other :| IsTree(listing, w.root, other) && Verdict(other, w.since, []).Land?;
      LandMeans(other, w.since, []);
      LandMeans(tree, w.since, []);
      assert forall t :: t in tree <==> t in other;
    }
  }

  /** Unpinned are pinned threads of the trees that landed, each of them unless bb refused it. */
  ghost predicate PinsOff(landed: seq<Landed>, unpinned: seq<string>, refused: set<string>) {
    && (forall id :: id in unpinned ==> exists l :: l in landed && PinnedIn(l.tree, id))
    && (forall l, t :: l in landed && t in l.tree && IsPinned(t) ==> t.id in unpinned || t.id in refused)
  }

  ghost predicate PinnedIn(tree: seq<Thread>, id: string) { exists t :: t in tree && t.id == id && IsPinned(t) }

  lemma PinsOffOneMore(landed: seq<Landed>, unpinned: seq<string>, refused: set<string>, l: Landed, more: seq<string>, also: set<string>)
    requires PinsOff(landed, unpinned, refused) && PinsOff([l], more, also)
    ensures PinsOff(landed + [l], unpinned + more, refused + also)
  {
    forall id | id in unpinned + more ensures exists x :: x in landed + [l] && PinnedIn(x.tree, id) {
      if id in unpinned {
        var x :| x in landed && PinnedIn(x.tree, id);
        assert x in landed + [l];
      } else {
        var x :| x in [l] && PinnedIn(x.tree, id);
        assert x in landed + [l];
      }
    }
    forall x, t | x in landed + [l] && t in x.tree && IsPinned(t) ensures t.id in unpinned + more || t.id in refused + also {
      if x !in landed { assert x in [l]; }
    }
  }

  lemma CallsJoin(before: seq<PinCall>, a: seq<string>, b: seq<string>)
    ensures before + Calls(a, false) + Calls(b, false) == before + Calls(a + b, false)
  {
    assert Calls(a + b, false) == Calls(a, false) + Calls(b, false);
  }

  ghost predicate LandedUpTo(rows: Rows, listing: seq<Thread>, landing: seq<Waiting>, k: int, landed: seq<Landed>) {
    && k <= |landing|
    && AllLandAfresh(rows, listing, landing, landed)
    && NoneLeftOut(listing, landing, k, landed)
  }

  ghost predicate ReadsToLand(listing: seq<Thread>, w: Waiting, tree: seq<Thread>) {
    w.root in Ids(listing) && IsTree(listing, w.root, tree) && Verdict(tree, w.since, []).Land?
  }

  /** How far the landings of a check have come. */
  datatype Landing = Landing(k: nat, landed: seq<Landed>, unpinned: seq<string>, refused: set<string>, idleSince: map<string, int>)

  ghost function Landings(rows: Rows, listing: seq<Thread>, landing: seq<Waiting>, idleBefore: map<string, int>): iset<Landing> {
    iset so: Landing | so in LandedSoFar(rows, listing, landing) && so in PinsSoFar() && so.idleSince == idleBefore - LandedRoots(so.landed)
  }

  ghost function LandedSoFar(rows: Rows, listing: seq<Thread>, landing: seq<Waiting>): iset<Landing> {
    iset so: Landing | LandedUpTo(rows, listing, landing, so.k, so.landed)
  }

  ghost function PinsSoFar(): iset<Landing> { iset so: Landing | PinsOff(so.landed, so.unpinned, so.refused) }

  lemma LandingGoesOn(rows: Rows, listing: seq<Thread>, landing: seq<Waiting>, idleBefore: map<string, int>,
                      so: Landing, lands: bool, tree: seq<Thread>, more: seq<string>, also: set<string>, next: Landing)
    requires so in Landings(rows, listing, landing, idleBefore) && so.k < |landing| && Still(rows, landing[so.k])
    requires lands <==> StillLands(listing, landing[so.k])
    requires lands ==> ReadsToLand(listing, landing[so.k], tree) && PinsOff([Landed(landing[so.k], tree)], more, also)
    requires next == if lands then Landing(so.k + 1, so.landed + [Landed(landing[so.k], tree)], so.unpinned + more, so.refused + also, so.idleSince - {landing[so.k].root})
      else so.(k := so.k + 1)
    ensures next in Landings(rows, listing, landing, idleBefore)
  {
    if lands {
      LandedOneMore(rows, listing, landing, so, tree, next);
      PinsOneMore(so, Landed(landing[so.k], tree), more, also, next);
      OneRootMore(so.landed, Landed(landing[so.k], tree), idleBefore);
    } else {
      LeftWaitingOn(rows, listing, landing, so);
      SamePins(so);
    }
  }

  lemma SamePins(so: Landing)
    requires so in PinsSoFar()
    ensures so.(k := so.k + 1) in PinsSoFar()
  {
  }

  lemma PinsOneMore(so: Landing, l: Landed, more: seq<string>, also: set<string>, next: Landing)
    requires so in PinsSoFar() && PinsOff([l], more, also)
    requires next.landed == so.landed + [l] && next.unpinned == so.unpinned + more && next.refused == so.refused + also
    ensures next in PinsSoFar()
  {
    PinsOffOneMore(so.landed, so.unpinned, so.refused, l, more, also);
  }

  lemma LeftWaitingOn(rows: Rows, listing: seq<Thread>, landing: seq<Waiting>, so: Landing)
    requires so in LandedSoFar(rows, listing, landing) && so.k < |landing| && !StillLands(listing, landing[so.k])
    ensures so.(k := so.k + 1) in LandedSoFar(rows, listing, landing)
  {
  }

  lemma LandedOneMore(rows: Rows, listing: seq<Thread>, landing: seq<Waiting>, so: Landing, tree: seq<Thread>, next: Landing)
    requires so in LandedSoFar(rows, listing, landing) && so.k < |landing|
    requires ReadsToLand(listing, landing[so.k], tree) && Still(rows, landing[so.k])
    requires next.k == so.k + 1 && next.landed == so.landed + [Landed(landing[so.k], tree)]
    ensures next in LandedSoFar(rows, listing, landing)
  {
    SameLanding(listing, landing[so.k], tree);
    assert Landed(landing[so.k], tree) in next.landed;
    forall i | 0 <= i < so.k && StillLands(listing, landing[i]) ensures exists x :: x in next.landed && x.wait == landing[i] {
      var x :| x in so.landed && x.wait == landing[i];
      assert x in next.landed;
    }
  }

  /**
   * What one check went by and did: the settles waiting when it began, bb's
   * threads, its looks, what it then left to end and to land, the rows at the
   * write, bb's threads at the write, what landed, and the pins it took.
   */
  datatype Report = Report(waiting: seq<Waiting>, listing: Option<seq<Thread>>, looks: seq<Look>, ending: seq<Waiting>, landing: seq<Waiting>,
                           atWrite: Rows, again: Option<seq<Thread>>, landed: seq<Landed>, unpinned: seq<string>, refused: set<string>)

  /** bb's answers to a check: its threads, the turns its looks asked for, and its threads once more when a settle is to land. */
  function CheckHeard(report: Report, events: seq<WaitingEvent>, pins: nat): seq<Answer> {
    (if report.waiting == [] then [] else [Listed(report.listing, pins)])
      + AskedForAll(events, report.looks) + HeardAgain(report.atWrite, report.landing, report.again, pins)
  }

  function HeardAgain(rows: Rows, landing: seq<Waiting>, again: Option<seq<Thread>>, pins: nat): seq<Answer> {
    if StillWaiting(rows, landing) == [] then [] else [Listed(again, pins)]
  }

  /** Every tree that landed is the one bb listed at the write, still lands by it, and its pins were taken. */
  ghost predicate Lands(report: Report) {
    && (report.landed != [] ==> report.again.Some? && AllLandAfresh(report.atWrite, report.again.value, report.landing, report.landed))
    && PinsOff(report.landed, report.unpinned, report.refused)
  }

  function Remembered(idleSince: map<string, int>, waiting: seq<Waiting>): map<string, int> {
    var roots := set w | w in waiting :: w.root;
    map id | id in idleSince && id in roots :: idleSince[id]
  }

  /** Every waiting settle is looked at and sorted out. */
  ghost predicate LooksRight(report: Report, events: seq<WaitingEvent>, idleBefore: map<string, int>, at: int) {
    match report.listing
    case None => report.looks == [] && report.ending == [] && report.landing == []
    case Some(listing) =>
      && |report.looks| == |report.waiting|
      && (forall i :: 0 <= i < |report.waiting| ==> LookAt(report.looks[i], report.waiting[i], listing, events, at))
      && Complete(report.looks, report.waiting, |report.waiting|, Remembered(idleBefore, report.waiting), report.ending, report.landing, at)
  }

  /**
   * A check's report holds of the looks it added to the log and of the rows:
   * every waiting settle was looked at and sorted out, what ended and what
   * landed did so rightly, none that should land was passed over, and the
   * rows are as at the write or as written.
   */
  ghost predicate ChecksOut(report: Report, events: seq<WaitingEvent>, idleBefore: map<string, int>, idleLeft: map<string, int>, at: int, settledAt: int,
                            log: seq<Look>, after: Rows, touched: set<string>) {
    && LooksRight(report, events, idleBefore, at) && LandsAll(report) && Lands(report) && IdleNow(report, idleBefore, idleLeft)
    && (forall id :: Get(report.atWrite, id) != Get(after, id) ==> id in touched)
    && (forall w :: w in report.ending ==> Over(log, w, at))
    && (forall l :: l in report.landed ==> LandsRightly(report.atWrite, log, l, at))
    && (after == report.atWrite || Written(report.atWrite, after, report.ending, report.landed, settledAt))
  }

  /** All the reports that check out. */
  ghost function Reports(events: seq<WaitingEvent>, idleBefore: map<string, int>, idleLeft: map<string, int>, at: int, settledAt: int,
                         log: seq<Look>, after: Rows, touched: set<string>): iset<Report> {
    iset report: Report | ChecksOut(report, events, idleBefore, idleLeft, at, settledAt, log, after, touched)
  }

  lemma CheckedOut(report: Report, events: seq<WaitingEvent>, idleBefore: map<string, int>, at: int, settledAt: int,
                   before: seq<Look>, log: seq<Look>, idleSince: map<string, int>, after: Rows, touched: set<string>, idleLeft: map<string, int>)
    requires idleLeft == idleSince - LandedRoots(report.landed)
    requires report.listing.Some? && LandsAll(report) && Lands(report)
    requires Progress(|report.waiting|, report.looks, log, idleSince, report.ending, report.landing)
      in Progresses(before, report.waiting, report.listing.value, events, at, Remembered(idleBefore, report.waiting))
    requires forall id :: Get(report.atWrite, id) != Get(after, id) ==> id in touched
    requires after == report.atWrite || Written(report.atWrite, after, report.ending, report.landed, settledAt)
    ensures report in Reports(events, idleBefore, idleLeft, at, settledAt, log, after, touched)
  {
    IdleAfterCheck(report, events, at, before, log, idleBefore, idleSince, idleLeft);
    LooksWereRight(report, events, idleBefore, at, before, log, idleSince);
    if report.landed != [] { LandedRightly(report.atWrite, log, report.again.value, report.ending, report.landing, report.landed, at); }
  }

  lemma LooksWereRight(report: Report, events: seq<WaitingEvent>, idleBefore: map<string, int>, at: int, before: seq<Look>, log: seq<Look>, idleSince: map<string, int>)
    requires report.listing.Some?
    requires Progress(|report.waiting|, report.looks, log, idleSince, report.ending, report.landing)
      in Progresses(before, report.waiting, report.listing.value, events, at, Remembered(idleBefore, report.waiting))
    ensures LooksRight(report, events, idleBefore, at) && Sorted(log, report.ending, report.landing, at)
  {
    forall i | 0 <= i < |report.waiting| ensures LookAt(report.looks[i], report.waiting[i], report.listing.value, events, at) {
      assert log[|before| + i] == report.looks[i];
    }
  }

  /**
   * The idle times after a check: a settle that landed has none, any other
   * what its look left, and no other root has one.
   */
  ghost predicate IdleNow(report: Report, idleBefore: map<string, int>, idleSince: map<string, int>) {
    && idleSince.Keys <= RootsOf(report.waiting)
    && (forall i :: 0 <= i < |report.waiting| ==>
          Get(idleSince, report.waiting[i].root) ==
            if report.waiting[i].root in LandedRoots(report.landed) then None
            else if i < |report.looks| then IdleTime(Get(idleBefore, report.waiting[i].root), report.looks[i])
            else Get(idleBefore, report.waiting[i].root))
  }

  lemma IdleAfterCheck(report: Report, events: seq<WaitingEvent>, at: int, before: seq<Look>, log: seq<Look>, idleBefore: map<string, int>,
                       looked: map<string, int>, idleSince: map<string, int>)
    requires report.listing.Some?
    requires Progress(|report.waiting|, report.looks, log, looked, report.ending, report.landing)
      in Progresses(before, report.waiting, report.listing.value, events, at, Remembered(idleBefore, report.waiting))
    requires idleSince == looked - LandedRoots(report.landed)
    ensures IdleNow(report, idleBefore, idleSince)
  {
    forall i | 0 <= i < |report.waiting| ensures Get(Remembered(idleBefore, report.waiting), report.waiting[i].root) == Get(idleBefore, report.waiting[i].root) {
      assert report.waiting[i] in report.waiting;
    }
  }

  lemma NoneLookedAt(report: Report, idleBefore: map<string, int>)
    requires report.looks == [] && report.landed == []
    ensures IdleNow(report, idleBefore, Remembered(idleBefore, report.waiting))
  {
    forall i | 0 <= i < |report.waiting| ensures Get(Remembered(idleBefore, report.waiting), report.waiting[i].root) == Get(idleBefore, report.waiting[i].root) {
      assert report.waiting[i] in report.waiting;
    }
  }

  /** Every settle to land that its row still holds, and whose tree read again still lands, lands. */
  ghost predicate LandsAll(report: Report) {
    match report.again
    case None => report.landed == []
    case Some(listing) =>
      var still := StillWaiting(report.atWrite, report.landing);
      NoneLeftOut(listing, still, |still|, report.landed)
  }

  lemma HeardInAll(before: seq<Answer>, listed: seq<Answer>, answers: seq<Answer>, report: Report, events: seq<WaitingEvent>, pins: nat)
    requires report.waiting != [] && listed == before + [Listed(report.listing, pins)]
    requires answers == listed + AskedForAll(events, report.looks) + HeardAgain(report.atWrite, report.landing, report.again, pins)
    ensures answers == before + CheckHeard(report, events, pins)
  {
  }

  lemma NothingWritten(rows: Rows, settledAt: int)
    ensures Written(rows, rows, [], [], settledAt) && StillWaiting(rows, []) == []
  {
  }

  class WaitingSettles {
    const store: LifecycleStore
    const bb: Gateway
    /** When each waiting settle's tree was first seen idle, since it last was busy. */
    var idleSince: map<string, int>
    /** The threads of each waiting settle's tree that had a message queued when it was chosen. */
    var queuedAtChoice: map<string, set<string>>
    /** Every look at a waiting settle, in order. */
    ghost var log: seq<Look>
    /** What was noted of the choices, in order. */
    ghost var notes: seq<Note>

    constructor (store: LifecycleStore, bb: Gateway)
      ensures this.store == store && this.bb == bb && log == [] && notes == [] && idleSince == map[]
      ensures store.Valid() ==> Valid()
    {
      this.store, this.bb := store, bb;
      idleSince, queuedAtChoice, log, notes := map[], map[], [], [];
    }

    ghost predicate Valid()
      reads this, store
    {
      store.Valid() && AllIdle(log, idleSince) && NotesOk()
    }

    /** The choices held are those noted last of the settles that waited since. */
    ghost predicate NotesOk()
      reads this`queuedAtChoice, this`notes
    {
      forall root :: QueuedOf(root) == QueuedBy(notes, root)
    }

    /** Notes a settle just left waiting, with its tree as Settle read it. */
    method Chosen(threadId: string, tree: seq<Thread>)
      requires NotesOk()
      modifies this`queuedAtChoice, this`notes
      ensures NotesOk() && notes == old(notes) + [Choice(threadId, tree)]
      ensures forall root :: QueuedOf(root) == if root == threadId then QueuedIn(tree) else old(QueuedOf(root))
    {
      queuedAtChoice := queuedAtChoice[threadId := set t | t in tree && HasQueuedMessage(t) :: t.id];
      assert (notes + [Choice(threadId, tree)])[..|notes|] == notes;
      assert forall root :: old(QueuedOf(root)) == QueuedBy(notes, root);
      notes := notes + [Choice(threadId, tree)];
    }

    function QueuedOf(root: string): set<string>
      reads this`queuedAtChoice
    {
      Get(queuedAtChoice, root).GetOr({})
    }

    /** The turns the threads recorded that bear on the settle, or None when bb could not say for one of them. Each is asked about. */
    method TurnsOf(root: string, ids: seq<string>, since: int) returns (turns: Option<seq<TurnRecord>>, ghost answers: TurnAnswers)
      modifies bb`threads, bb`failures, bb`answers
      ensures |answers| == |ids| && bb.answers == old(bb.answers) + AsTold(ids, since, answers)
      ensures turns == if AllTold(answers) then Some(TurnsHeard(QueuedOf(root), ids, answers)) else None
      ensures bb.failures >= old(bb.failures) && (turns.None? ==> bb.failures > old(bb.failures))
    {
      turns, answers := Some([]), [];
      for k := 0 to |ids|
        invariant |answers| == k && bb.answers == old(bb.answers) + AsTold(ids, since, answers)
        invariant turns == if AllTold(answers) then Some(TurnsHeard(QueuedOf(root), ids[..k], answers)) else None
        invariant bb.failures >= old(bb.failures) && (turns.None? ==> bb.failures > old(bb.failures))
      {
        var answer := bb.TurnsSince(ids[k], since);
        AskedOneMore(ids, since, QueuedOf(root), k, answers, answer);
        answers := answers + [answer];
        turns := if turns.Some? && answer.Some? then Some(turns.value + Kept(QueuedOf(root), ids[k], answer.value)) else None;
      }
      assert ids[..|ids|] == ids;
    }

    /** What becomes of the settle on `root`, waiting since `since`, by this listing, the events and the turns bb tells of. */
    method Decide(root: string, since: int, listing: seq<Thread>, events: seq<WaitingEvent>) returns (said: Said, ghost g: Grounds)
      requires UniqueIds(listing)
      modifies bb`threads, bb`failures, bb`answers
      ensures Judged(listing, root, since, events, said, g) && g.queued == QueuedOf(root)
      ensures bb.answers == old(bb.answers) + AskedFor(since, events, g)
      ensures bb.failures >= old(bb.failures) && (said.Nothing? ==> bb.failures > old(bb.failures))
    {
      g := NO_GROUNDS.(queued := QueuedOf(root));
      if root !in Ids(listing) {
        said := Gone;
        assert AskedFor(since, events, g) == [];
      } else {
        said, g := DecideListed(root, since, listing, events);
      }
    }

    method DecideListed(root: string, since: int, listing: seq<Thread>, events: seq<WaitingEvent>) returns (said: Said, ghost g: Grounds)
      requires UniqueIds(listing) && root in Ids(listing)
      modifies bb`threads, bb`failures, bb`answers
      ensures Judged(listing, root, since, events, said, g) && g.queued == QueuedOf(root)
      ensures bb.answers == old(bb.answers) + AskedFor(since, events, g)
      ensures bb.failures >= old(bb.failures) && (said.Nothing? ==> bb.failures > old(bb.failures))
    {
      var here := ListedTree(listing, root);
      var verdict;
      ghost var first, all;
      verdict, first := DecideBusy(root, since, listing, events, here);
      ghost var heard := bb.answers;
      said, all := DecideIdle(root, since, listing, events, here, verdict);
      g := Grounds(here, QueuedOf(root), first, all);
      AskedInTwo(since, events, g, old(bb.answers), heard, bb.answers);
      JudgedBy(listing, root, since, events, g, verdict, said);
    }

    /** The verdict by the events, and on a busy tree by the turns of the threads that may have one to tell of. */
    method DecideBusy(root: string, since: int, listing: seq<Thread>, events: seq<WaitingEvent>, here: seq<Thread>)
      returns (verdict: WaitingVerdict, ghost first: TurnAnswers)
      modifies bb`threads, bb`failures, bb`answers
      ensures |first| == if AsksFirst(listing, here, since, events) then |ToRead(here, events)| else 0
      ensures verdict == NextVerdict(listing, since, events, Grounds(here, QueuedOf(root), first, []))
      ensures bb.answers == old(bb.answers) + AsTold(ToRead(here, events), since, first)
      ensures bb.failures >= old(bb.failures)
    {
      first := [];
      verdict := FirstVerdict(listing, here, since, events);
      var toRead := ToRead(here, events);
      if verdict.Wait? && toRead != [] {
        var read;
        read, first := TurnsOf(root, toRead, since);
        if read.Some? {
          verdict := Verdict(here, since, ReportedIn(listing, here, since, events) + read.value);
        }
      }
    }

    /** Before a tree lands, every turn it ran since is read. */
    method DecideIdle(root: string, since: int, listing: seq<Thread>, events: seq<WaitingEvent>, here: seq<Thread>, verdict: WaitingVerdict)
      returns (said: Said, ghost all: TurnAnswers)
      modifies bb`threads, bb`failures, bb`answers
      ensures |all| == if verdict.Land? then |here| else 0
      ensures said == if !verdict.Land? then Says(verdict) else if !AllTold(all) then Nothing
                      else Says(LastVerdict(listing, since, events, Grounds(here, QueuedOf(root), [], all)))
      ensures bb.answers == old(bb.answers) + AsTold(IdsOf(here), since, all)
      ensures bb.failures >= old(bb.failures) && (said.Nothing? ==> bb.failures > old(bb.failures))
    {
      said, all := Says(verdict), [];
      if verdict.Land? {
        var read;
        read, all := TurnsOf(root, IdsOf(here), since);
        said := if read.None? then Nothing else Says(Verdict(here, since, ReportedIn(listing, here, since, events) + read.value));
      }
    }

    /** The waiting rows: thread and the time its settle was chosen. */
    method WaitingRows() returns (waiting: seq<Waiting>)
      ensures WaitsNow(store.rows, waiting)
    {
      waiting := [];
      var left := store.rows.Keys;
      while left != {}
        invariant left <= store.rows.Keys
        invariant RootsOnce(waiting)
        invariant forall w :: w in waiting ==> Still(store.rows, w) && w.root !in left
        invariant forall id :: id in store.rows && id !in left && IsWaitingSettle(Some(store.rows[id])) ==> Waiting(id, store.rows[id].waitingSettleAt.value) in waiting
        decreases |left|
      {
        var id :| id in left;
        left := left - {id};
        if IsWaitingSettle(store.RowOf(id)) {
          assert forall i :: 0 <= i < |waiting| ==> waiting[i] in waiting;
          waiting := waiting + [Waiting(id, store.rows[id].waitingSettleAt.value)];
        }
      }
    }

    /** Whatever the other writers did to the rows, and Settle to the choices noted, while bb was asked. */
    method OthersAct()
      requires Valid()
      modifies store, this`queuedAtChoice, this`notes
      ensures Valid() && old(store.issued) <= store.issued && old(notes) <= notes
    {
      var puts: seq<Put> := *;
      if PutsOk(puts) {
        var changed := store.PutMany(puts);
      }
      var chosen: seq<(string, seq<Thread>)> := *;
      for i := 0 to |chosen|
        invariant Valid() && old(store.issued) <= store.issued && old(notes) <= notes
      {
        Chosen(chosen[i].0, chosen[i].1);
      }
    }

    /** One look at a waiting settle, and what it does to its idle time. */
    method LookOnce(w: Waiting, listing: seq<Thread>, events: seq<WaitingEvent>, at: int, ghost ending: seq<Waiting>, ghost landing: seq<Waiting>)
      returns (said: Said, idleAt: int, ghost look: Look)
      requires Valid() && UniqueIds(listing)
      requires Sorted(log, ending, landing, at) && forall l :: l in landing ==> l.root != w.root
      modifies this, store, bb`threads, bb`failures, bb`answers
      ensures Valid() && old(store.issued) <= store.issued && old(notes) <= notes == look.notes
      ensures log == old(log) + [look] && look.said == said && LookAt(look, w, listing, events, at)
      ensures bb.answers == old(bb.answers) + AskedFor(look.since, events, look.grounds)
      ensures idleSince == IdleAfter(old(idleSince), look)
      ensures SaidLand(said) ==> idleAt == idleSince[w.root]
      ensures Sorted(log, ending, landing, at)
      ensures bb.failures >= old(bb.failures)
    {
      OthersAct();
      ghost var g;
      said, g := Decide(w.root, w.since, listing, events);
      look := Look(w.root, w.since, at, said, g, notes);
      IdleAfterHolds(log, idleSince, look);
      SortedGoesOn(log, look, ending, landing, at);
      log := log + [look];
      idleAt := at;
      if SaidLand(said) {
        idleAt := Get(idleSince, w.root).GetOr(at);
        idleSince := idleSince[w.root := idleAt];
      } else if !said.Nothing? {
        idleSince := idleSince - {w.root};
      }
    }

    /** Looks at each waiting settle and sorts out those that end and those idle long enough to land. */
    method LookAtAll(waiting: seq<Waiting>, listing: seq<Thread>, events: seq<WaitingEvent>, at: int)
      returns (ending: seq<Waiting>, landing: seq<Waiting>, ghost looks: seq<Look>)
      requires Valid() && UniqueIds(listing) && RootsOnce(waiting)
      modifies this, store, bb`threads, bb`failures, bb`answers
      ensures Valid() && old(store.issued) <= store.issued && bb.failures >= old(bb.failures)
      ensures old(notes) <= notes && NotedBy(looks, notes) && bb.answers == old(bb.answers) + AskedForAll(events, looks)
      ensures Progress(|waiting|, looks, log, idleSince, ending, landing) in Progresses(old(log), waiting, listing, events, at, old(idleSince))
    {
      ending, landing, looks := [], [], [];
      for k := 0 to |waiting|
        invariant Valid() && old(store.issued) <= store.issued && bb.failures >= old(bb.failures)
        invariant old(notes) <= notes && NotedBy(looks, notes) && bb.answers == old(bb.answers) + AskedForAll(events, looks)
        invariant Progress(k, looks, log, idleSince, ending, landing) in Progresses(old(log), waiting, listing, events, at, old(idleSince))
      {
        ghost var noted := notes;
        ghost var look;
        ending, landing, look := LookNext(waiting, k, listing, events, at, ending, landing, looks, old(log), old(idleSince));
        AskedForOneMore(old(bb.answers), events, looks, look);
        NotedOneMore(looks, look, noted, notes);
        looks := looks + [look];
      }
    }

    /** Looks at the next waiting settle and sorts it out. */
    method LookNext(waiting: seq<Waiting>, k: nat, listing: seq<Thread>, events: seq<WaitingEvent>, at: int, ends: seq<Waiting>, lands: seq<Waiting>,
                    ghost looks: seq<Look>, ghost before: seq<Look>, ghost idleBefore: map<string, int>)
      returns (ending: seq<Waiting>, landing: seq<Waiting>, ghost look: Look)
      requires Valid() && UniqueIds(listing) && RootsOnce(waiting) && k < |waiting|
      requires Progress(k, looks, log, idleSince, ends, lands) in Progresses(before, waiting, listing, events, at, idleBefore)
      modifies this, store, bb`threads, bb`failures, bb`answers
      ensures Valid() && old(store.issued) <= store.issued && bb.failures >= old(bb.failures)
      ensures old(notes) <= notes == look.notes && bb.answers == old(bb.answers) + AskedFor(look.since, events, look.grounds)
      ensures Progress(k + 1, looks + [look], log, idleSince, ending, landing) in Progresses(before, waiting, listing, events, at, idleBefore)
    {
      ghost var p := Progress(k, looks, log, idleSince, ends, lands);
      ProgressIs(before, waiting, listing, events, at, idleBefore, p);
      var said, idleAt;
      said, idleAt, look := LookOnce(waiting[k], listing, events, at, ends, lands);
      ending, landing := ends, lands;
      if SaidOver(said) {
        ending := ending + [waiting[k]];
      } else if SaidLand(said) && at - idleAt >= IDLE_GRACE_MS {
        landing := landing + [waiting[k]];
      }
      ProgressGoesOn(before, waiting, listing, events, at, idleBefore, p, look, idleAt, Progress(k + 1, looks + [look], log, idleSince, ending, landing));
    }

    /** Unpins the tree's pinned threads, each it can; one bb refuses stays pinned. */
    method UnpinAll(wait: Waiting, tree: seq<Thread>) returns (ghost unpinned: seq<string>, ghost refused: set<string>)
      modifies bb`threads, bb`taken, bb`failures
      ensures bb.taken == old(bb.taken) + Calls(unpinned, false) && PinsOff([Landed(wait, tree)], unpinned, refused)
      ensures bb.failures >= old(bb.failures) && (bb.failures == old(bb.failures) ==> refused == {})
    {
      unpinned, refused := [], {};
      for k := 0 to |tree|
        invariant bb.taken == old(bb.taken) + Calls(unpinned, false)
        invariant forall id :: id in unpinned ==> PinnedIn(tree, id)
        invariant forall i :: 0 <= i < k && IsPinned(tree[i]) ==> tree[i].id in unpinned || tree[i].id in refused
        invariant bb.failures >= old(bb.failures) && (bb.failures == old(bb.failures) ==> refused == {})
      {
        if IsPinned(tree[k]) {
          var done := bb.Unpin(tree[k].id);
          assert tree[k] in tree;
          if done {
            OneMoreCall(unpinned, tree[k].id, false);
            unpinned := unpinned + [tree[k].id];
          } else {
            refused := refused + {tree[k].id};
          }
        }
      }
      assert [Landed(wait, tree)][0] in [Landed(wait, tree)];
    }

    /** Reads each landing tree again and unpins those that still land; the others wait for the next check. */
    method LandAll(landing: seq<Waiting>, listing: seq<Thread>, settledAt: int)
      returns (puts: seq<Put>, ghost landed: seq<Landed>, ghost unpinned: seq<string>, ghost refused: set<string>)
      requires Valid() && UniqueIds(listing) && forall w :: w in landing ==> Still(store.rows, w)
      modifies this`idleSince, bb`threads, bb`taken, bb`failures
      ensures Valid() && puts == LandPuts(landed, settledAt) && idleSince == old(idleSince) - LandedRoots(landed)
      ensures LandedUpTo(store.rows, listing, landing, |landing|, landed) && PinsOff(landed, unpinned, refused)
      ensures bb.taken == old(bb.taken) + Calls(unpinned, false)
      ensures bb.failures >= old(bb.failures) && (bb.failures == old(bb.failures) ==> refused == {})
    {
      puts, landed, unpinned, refused := [], [], [], {};
      for k := 0 to |landing|
        invariant Valid() && puts == LandPuts(landed, settledAt)
        invariant Landing(k, landed, unpinned, refused, idleSince) in Landings(store.rows, listing, landing, old(idleSince))
        invariant bb.taken == old(bb.taken) + Calls(unpinned, false)
        invariant bb.failures >= old(bb.failures) && (bb.failures == old(bb.failures) ==> refused == {})
      {
        var lands, tree;
        ghost var more, also;
        ghost var so := Landing(k, landed, unpinned, refused, idleSince);
        lands, tree, more, also := LandOne(landing[k], listing);
        CallsJoin(old(bb.taken), unpinned, more);
        if lands {
          unpinned, refused := unpinned + more, refused + also;
          assert (landed + [Landed(landing[k], tree)])[..|landed|] == landed;
          landed := landed + [Landed(landing[k], tree)];
          puts := puts + TreePuts(tree, settledAt);
        }
        LandingGoesOn(store.rows, listing, landing, old(idleSince), so, lands, tree, more, also, Landing(k + 1, landed, unpinned, refused, idleSince));
      }
    }

    /** Reads one landing tree again and, if it still lands, takes its pins. */
    method LandOne(w: Waiting, listing: seq<Thread>) returns (lands: bool, tree: seq<Thread>, ghost unpinned: seq<string>, ghost refused: set<string>)
      requires Valid() && UniqueIds(listing)
      modifies this`idleSince, bb`threads, bb`taken, bb`failures
      ensures Valid() && (lands <==> StillLands(listing, w))
      ensures idleSince == if lands then old(idleSince) - {w.root} else old(idleSince)
      ensures lands ==> ReadsToLand(listing, w, tree) && PinsOff([Landed(w, tree)], unpinned, refused)
      ensures !lands ==> unpinned == []
      ensures bb.taken == old(bb.taken) + Calls(unpinned, false)
      ensures bb.failures >= old(bb.failures) && (bb.failures == old(bb.failures) ==> refused == {})
    {
      lands, tree, unpinned, refused := false, [], [], {};
      if w.root in Ids(listing) {
        tree := ListedTree(listing, w.root);
        SameLanding(listing, w, tree);
        if Verdict(tree, w.since, []).Land? {
          lands := true;
          unpinned, refused := UnpinAll(w, tree);
          idleSince := idleSince - {w.root};
        }
      }
    }

    /**
     * Writes what a check decided, in one change: the settles that ended, and
     * the trees that still land read afresh. Nothing is written when bb
     * cannot list its threads for a landing.
     */
    method WriteDecided(ending: seq<Waiting>, landing: seq<Waiting>, settledAt: int)
      returns (touched: set<string>, ghost again: Option<seq<Thread>>, ghost landed: seq<Landed>, ghost unpinned: seq<string>, ghost refused: set<string>)
      requires Valid() && RootsOnce(ending)
      modifies this`idleSince, store, bb
      ensures Valid() && old(store.issued) <= store.issued
      ensures idleSince == old(idleSince) - LandedRoots(landed)
      ensures forall id :: Get(old(store.rows), id) != Get(store.rows, id) ==> id in touched
      ensures store.rows == old(store.rows) || Written(old(store.rows), store.rows, ending, landed, settledAt)
      ensures bb.answers == old(bb.answers) + HeardAgain(old(store.rows), landing, again, |old(bb.taken)|)
      ensures landed != [] ==> again.Some? && AllLandAfresh(old(store.rows), again.value, landing, landed)
      ensures bb.taken == old(bb.taken) + Calls(unpinned, false) && PinsOff(landed, unpinned, refused)
      ensures bb.failures >= old(bb.failures)
      ensures bb.failures == old(bb.failures) ==> refused == {} && Written(old(store.rows), store.rows, ending, landed, settledAt)
      ensures again.Some? ==> NoneLeftOut(again.value, StillWaiting(old(store.rows), landing), |StillWaiting(old(store.rows), landing)|, landed)
      ensures bb.failures == old(bb.failures) && again.None? ==> StillWaiting(old(store.rows), landing) == []
    {
      ghost var rows := store.rows;
      touched, again, landed, unpinned, refused := {}, None, [], [], {};
      var lands := StillWaiting(store.rows, landing);
      StillWaitingIs(store.rows, landing);
      StillWaitingIs(store.rows, ending);
      var endPuts := EndPuts(store.rows, StillWaiting(store.rows, ending));
      var landPuts, listed := [], true;
      if lands != [] {
        var listing := bb.Snapshot();
        again := listing;
        listed := listing.Some?;
        if listed {
          landPuts, landed, unpinned, refused := LandAll(lands, listing.value, settledAt);
        }
      }
      if listed {
        PutsOfCheckOk(rows, ending, landed, settledAt);
        touched := store.PutMany(endPuts + landPuts);
        PutsWrite(rows, ending, landed, settledAt);
        assert forall id :: Get(rows, id) == old(store.RowOf(id)) && Get(store.rows, id) == store.RowOf(id);
      }
    }

    /** Keeps in memory only what is about settles that still wait. */
    method Forget(waiting: seq<Waiting>)
      requires Valid()
      modifies this`idleSince, this`queuedAtChoice, this`notes
      ensures Valid() && idleSince == Remembered(old(idleSince), waiting)
      ensures notes == old(notes) + [StillWaitingOnly(set w | w in waiting :: w.root)]
    {
      var roots := set w | w in waiting :: w.root;
      assert forall root :: QueuedOf(root) == QueuedBy(notes, root);
      assert (notes + [StillWaitingOnly(roots)])[..|notes|] == notes;
      idleSince := Remembered(idleSince, waiting);
      queuedAtChoice := map id | id in queuedAtChoice && id in roots :: queuedAtChoice[id];
      notes := notes + [StillWaitingOnly(roots)];
    }

    /**
     * One check. Whatever bb's threads and the other writers do meanwhile, a
     * tree is settled only for a settle its row still holds, when this check
     * and one at least the grace before it said land with none between that
     * said wait or end, and when its threads read once more still land; the
     * rows of no other threads move, but for settles this check ended. What
     * each look said is by bb's own answers. And while bb answers, no settle
     * that ends or lands is passed over.
     */
    method CheckNow(events: seq<WaitingEvent>, at: int, settledAt: int) returns (touched: set<string>, ghost report: Report)
      requires Valid()
      modifies this, store, bb
      ensures Valid() && old(store.issued) <= store.issued
      ensures WaitsNow(old(store.rows), report.waiting) && log == old(log) + report.looks
      ensures old(notes) <= notes && NotedBy(report.looks, notes)
      ensures report in Reports(events, old(idleSince), idleSince, at, settledAt, log, store.rows, touched)
      ensures bb.answers == old(bb.answers) + CheckHeard(report, events, |old(bb.taken)|)
      ensures bb.taken == old(bb.taken) + Calls(report.unpinned, false)
      ensures bb.failures >= old(bb.failures)
      ensures bb.failures == old(bb.failures) && report.waiting != [] ==> report.listing.Some?
      ensures bb.failures == old(bb.failures) ==> report.refused == {} && Written(report.atWrite, store.rows, report.ending, report.landed, settledAt)
      ensures bb.failures == old(bb.failures) && report.again.None? ==> StillWaiting(report.atWrite, report.landing) == []
    {
      touched := {};
      var waiting := WaitingRows();
      Forget(waiting);
      report := Report(waiting, None, [], [], [], store.rows, None, [], [], {});
      NothingWritten(store.rows, settledAt);
      NoneLookedAt(report, old(idleSince));
      if waiting != [] {
        var listing := bb.Snapshot();
        if listing.Some? {
          ghost var heard := bb.answers;
          touched, report := LookAndWrite(waiting, listing.value, events, at, settledAt, old(idleSince));
          HeardInAll(old(bb.answers), heard, bb.answers, report, events, |old(bb.taken)|);
        }
      }
    }

    /** The looks and the write of one check; other writers act in between. */
    method LookAndWrite(waiting: seq<Waiting>, listing: seq<Thread>, events: seq<WaitingEvent>, at: int, settledAt: int, ghost idleBefore: map<string, int>)
      returns (touched: set<string>, ghost report: Report)
      requires Valid() && UniqueIds(listing) && RootsOnce(waiting) && idleSince == Remembered(idleBefore, waiting)
      modifies this, store, bb
      ensures Valid() && old(store.issued) <= store.issued
      ensures report.waiting == waiting && report.listing == Some(listing) && log == old(log) + report.looks
      ensures old(notes) <= notes && NotedBy(report.looks, notes)
      ensures report in Reports(events, idleBefore, idleSince, at, settledAt, log, store.rows, touched)
      ensures bb.answers == old(bb.answers) + AskedForAll(events, report.looks) + HeardAgain(report.atWrite, report.landing, report.again, |old(bb.taken)|)
      ensures bb.taken == old(bb.taken) + Calls(report.unpinned, false)
      ensures bb.failures >= old(bb.failures)
      ensures bb.failures == old(bb.failures) ==> report.refused == {} && Written(report.atWrite, store.rows, report.ending, report.landed, settledAt)
      ensures bb.failures == old(bb.failures) && report.again.None? ==> StillWaiting(report.atWrite, report.landing) == []
    {
      touched := {};
      ghost var looks;
      var ends, lands;
      ends, lands, looks := LookAtAll(waiting, listing, events, at);
      ghost var idleAfter := idleSince;
      OthersAct();
      report := Report(waiting, Some(listing), looks, ends, lands, store.rows, None, [], [], {});
      NothingWritten(store.rows, settledAt);
      if ends != [] || lands != [] {
        ghost var again, landed, unpinned, refused;
        touched, again, landed, unpinned, refused := WriteDecided(ends, lands, settledAt);
        report := report.(again := again, landed := landed, unpinned := unpinned, refused := refused);
      }
      CheckedOut(report, events, idleBefore, at, settledAt, old(log), log, idleAfter, store.rows, touched, idleSince);
    }
  }
}
