/**
 * What one Settle does, as a function of the two listings bb answered with:
 * the pins it takes and may give back, what makes it refuse and in which
 * order, the rows it writes, the changes it reports and what it keeps for its
 * Undo. From that, what Undo gives back on any store it finds, and why the
 * Undo of one settle never touches what a later one wrote.
 */
module SettleSpec {
  import opened Common
  import opened Threads
  import opened ThreadTree
  import opened Lifecycle
  import opened LifecycleStore
  import opened Bb
  import opened Actions
  import opened Settling

  // ---- pins taken for a settle that then fails ----

  /** A thread still as it was when it was unpinned: not pinned since, under its parent, its row the same. */
  predicate CanRepin(listing: seq<Thread>, rows: Rows, rowsBefore: Rows, original: Thread) {
    var byId := ById(listing);
    && original.id in byId
    && !IsPinned(byId[original.id])
    && byId[original.id].parentThreadId == original.parentThreadId
    && SameRow(Get(rows, original.id), Get(rowsBefore, original.id))
  }

  /** What giving pins back came to: the listing it went by, the threads pinned again and those bb refused. */
  datatype PinsBack = PinsBack(listing: Option<seq<Thread>>, pinned: seq<string>, failed: set<string>)

  ghost predicate MayPinAgain(unpinned: seq<Thread>, rows: Rows, rowsBefore: Rows, listing: seq<Thread>, id: string) {
    exists u :: u in unpinned && u.id == id && CanRepin(listing, rows, rowsBefore, u)
  }

  /** Each pin is given back, or reported, where its thread is as it was; no other thread is pinned. */
  ghost predicate GivenBack(unpinned: seq<Thread>, rows: Rows, rowsBefore: Rows, back: PinsBack) {
    match back.listing
    case None => back.pinned == [] && back.failed == Ids(unpinned)
    case Some(listing) =>
      && (forall id :: id in back.pinned ==> MayPinAgain(unpinned, rows, rowsBefore, listing, id))
      && (forall u :: u in unpinned && CanRepin(listing, rows, rowsBefore, u) ==> u.id in back.pinned || u.id in back.failed)
  }

  /** Giving pins back, from the last thread unpinned down to the k-th. */
  ghost predicate TriedFrom(unpinned: seq<Thread>, k: int, rows: Rows, rowsBefore: Rows, listing: seq<Thread>, pinned: seq<string>, failed: set<string>)
    requires 0 <= k
  {
    && (forall id :: id in pinned ==> MayPinAgain(unpinned, rows, rowsBefore, listing, id))
    && (forall i :: k <= i < |unpinned| && CanRepin(listing, rows, rowsBefore, unpinned[i]) ==> unpinned[i].id in pinned || unpinned[i].id in failed)
  }

  lemma TriedOneMore(unpinned: seq<Thread>, k: nat, rows: Rows, rowsBefore: Rows, listing: seq<Thread>, pinned: seq<string>, failed: set<string>)
    requires k < |unpinned| && TriedFrom(unpinned, k + 1, rows, rowsBefore, listing, pinned, failed)
    ensures !CanRepin(listing, rows, rowsBefore, unpinned[k]) ==> TriedFrom(unpinned, k, rows, rowsBefore, listing, pinned, failed)
    ensures CanRepin(listing, rows, rowsBefore, unpinned[k]) ==> TriedFrom(unpinned, k, rows, rowsBefore, listing, pinned + [unpinned[k].id], failed)
    ensures CanRepin(listing, rows, rowsBefore, unpinned[k]) ==> TriedFrom(unpinned, k, rows, rowsBefore, listing, pinned, failed + {unpinned[k].id})
  {
  }

  /** The pinned threads, in order. */
  function PinnedOf(tree: seq<Thread>): seq<Thread> {
    if tree == [] then []
    else PinnedOf(tree[..|tree| - 1]) + if IsPinned(tree[|tree| - 1]) then [tree[|tree| - 1]] else []
  }

  lemma {:induction false} PinnedOfIs(tree: seq<Thread>)
    requires UniqueIds(tree)
    ensures PinsTaken(tree, PinnedOf(tree))
  {
    if tree != [] {
      var rest, last := tree[..|tree| - 1], tree[|tree| - 1];
      assert tree == rest + [last];
      PinnedOfIs(rest);
      var before := PinnedOf(rest);
      forall i | 0 <= i < |before| ensures before[i].id != last.id { assert before[i] in before; }
    }
  }

  lemma {:induction false} PinnedOfGrows(tree: seq<Thread>, k: nat)
    requires k <= |tree|
    ensures PinnedOf(tree[..k]) <= PinnedOf(tree)
  {
    if k < |tree| {
      PinnedOfGrows(tree[..|tree| - 1], k);
      assert tree[..|tree| - 1][..k] == tree[..k];
    } else {
      assert tree[..k] == tree;
    }
  }

  /** All the tree's pins were taken, or those before one bb refused. */
  ghost predicate Unpinning(tree: seq<Thread>, done: bool, unpinned: seq<Thread>) {
    if done then unpinned == PinnedOf(tree) else unpinned < PinnedOf(tree)
  }

  lemma UnpinningGoesOn(tree: seq<Thread>, k: nat, unpinned: seq<Thread>)
    requires k < |tree| && Unpinning(tree[..k], true, unpinned)
    ensures if IsPinned(tree[k]) then Unpinning(tree[..k + 1], true, unpinned + [tree[k]]) && Unpinning(tree[..k + 1], false, unpinned)
            else Unpinning(tree[..k + 1], true, unpinned)
  {
    assert tree[..k + 1][..k] == tree[..k];
  }

  lemma UnpinningEnds(tree: seq<Thread>, k: nat, done: bool, unpinned: seq<Thread>)
    requires k <= |tree| && Unpinning(tree[..k], done, unpinned) && (done ==> k == |tree|)
    ensures Unpinning(tree, done, unpinned)
  {
    assert tree[..|tree|] == tree;
    PinnedOfGrows(tree, k);
  }

  // ---- what a settle writes and remembers ----

  function SettledEntries(current: seq<Thread>, unpinned: seq<Thread>, at: int): seq<Entry> {
    seq(|current|, i requires 0 <= i < |current| => Entry(current[i].id, Some(SettledRow(at, Manual)), current[i].id in Ids(unpinned)))
  }

  function EntryOf(byId: map<string, Thread>, change: Change): SettleEntry {
    SettleEntry(change, ParentIn(byId, change.threadId))
  }

  function EntriesFor(byId: map<string, Thread>, changes: seq<Change>): seq<SettleEntry> {
    seq(|changes|, i requires 0 <= i < |changes| => EntryOf(byId, changes[i]))
  }

  /** The entries carry a pin to give back exactly for the threads unpinned. */
  ghost predicate RemembersPins(entries: seq<SettleEntry>, unpinned: set<string>) {
    && (forall e :: e in entries && e.change.unpinned ==> e.change.threadId in unpinned)
    && (forall id :: id in unpinned ==> exists e :: e in entries && e.change.threadId == id && e.change.unpinned)
  }

  ghost predicate RemembersParents(entries: seq<SettleEntry>, listing: seq<Thread>) {
    forall e :: e in entries ==> e.parentThreadId == ParentIn(ById(listing), e.change.threadId)
  }

  /** Every thread of the tree has the settled row, and no other row moved. */
  ghost predicate TreeSettled(before: Rows, after: Rows, tree: set<string>, at: int) {
    && (forall id :: id in tree ==> Get(after, id) == Some(SettledRow(at, Manual)))
    && (forall id :: id !in tree ==> Get(after, id) == Get(before, id))
  }

  lemma SettledEntriesAre(current: seq<Thread>, unpinned: seq<Thread>, at: int)
    requires UniqueIds(current)
    ensures EachOnce(SettledEntries(current, unpinned, at)) && EntriesOk(SettledEntries(current, unpinned, at))
    ensures forall t :: t in current ==> Entry(t.id, Some(SettledRow(at, Manual)), t.id in Ids(unpinned)) in SettledEntries(current, unpinned, at)
    ensures forall e :: e in SettledEntries(current, unpinned, at) ==> e.threadId in Ids(current)
  {
    var entries := SettledEntries(current, unpinned, at);
    forall t | t in current ensures Entry(t.id, Some(SettledRow(at, Manual)), t.id in Ids(unpinned)) in entries {
      var i :| 0 <= i < |current| && current[i] == t;
      assert entries[i] == Entry(t.id, Some(SettledRow(at, Manual)), t.id in Ids(unpinned));
    }
  }

  lemma SettledRowsAre(before: Rows, current: seq<Thread>, unpinned: seq<Thread>, at: int)
    requires UniqueIds(current)
    ensures TreeSettled(before, PutAll(before, PutsOf(SettledEntries(current, unpinned, at))), Ids(current), at)
  {
    var entries := SettledEntries(current, unpinned, at);
    SettledEntriesAre(current, unpinned, at);
    EntriesPut(before, entries);
    var after := PutAll(before, PutsOf(entries));
    forall id | id in Ids(current) ensures Get(after, id) == Some(SettledRow(at, Manual)) {
      var t :| t in current && t.id == id;
      assert Entry(t.id, Some(SettledRow(at, Manual)), t.id in Ids(unpinned)) in entries;
    }
  }

  lemma EntriesForAre(byId: map<string, Thread>, changes: seq<Change>)
    ensures forall c :: c in changes ==> EntryOf(byId, c) in EntriesFor(byId, changes)
    ensures forall e :: e in EntriesFor(byId, changes) ==> e.change in changes && e == EntryOf(byId, e.change)
  {
    var entries := EntriesFor(byId, changes);
    forall c | c in changes ensures EntryOf(byId, c) in entries {
      var i :| 0 <= i < |changes| && changes[i] == c;
      assert entries[i] == EntryOf(byId, c);
    }
  }

  /** The changes a settle reports name each moved row and each unpinned thread, with the rows before and after. */
  lemma SettledChangesAre(before: Rows, after: Rows, touched: set<string>, current: seq<Thread>, unpinned: seq<Thread>, at: int)
    requires UniqueIds(current) && Ids(unpinned) <= Ids(current)
    requires after == PutAll(before, PutsOf(SettledEntries(current, unpinned, at))) && Covers(before, after, touched)
    ensures var changes := ChangesOf(touched, before, after, SettledEntries(current, unpinned, at));
      && DistinctThreads(changes)
      && (forall c :: c in changes ==> c.threadId in Ids(current) && c.before == Get(before, c.threadId) && c.after == Get(after, c.threadId) && (c.unpinned <==> c.threadId in Ids(unpinned)))
      && (forall id :: Get(before, id) != Get(after, id) || id in Ids(unpinned) ==> exists c :: c in changes && c.threadId == id)
  {
    var entries := SettledEntries(current, unpinned, at);
    SettledEntriesAre(current, unpinned, at);
    SettledRowsAre(before, current, unpinned, at);
    ChangesAre(touched, before, after, entries);
    ChangesOnce(touched, before, after, entries);
    var changes := ChangesOf(touched, before, after, entries);
    forall id | Get(before, id) != Get(after, id) || id in Ids(unpinned)
      ensures exists c :: c in changes && c.threadId == id
    {
      assert id in Ids(current);
      var t :| t in current && t.id == id;
      var entry := Entry(t.id, Some(SettledRow(at, Manual)), t.id in Ids(unpinned));
      assert entry in entries;
      assert ChangeOf(before, after, entry) in changes;
    }
  }

  /** What a settle keeps for its Undo is all Undo needs: rows, pins and parents. */
  lemma SettleRemembers(before: Rows, after: Rows, changes: seq<Change>, second: seq<Thread>, unpinned: set<string>)
    requires DistinctThreads(changes)
    requires forall c :: c in changes ==> c.before == Get(before, c.threadId) && c.after == Get(after, c.threadId) && (c.unpinned <==> c.threadId in unpinned)
    requires forall id :: Get(before, id) != Get(after, id) || id in unpinned ==> exists c :: c in changes && c.threadId == id
    ensures var entries := EntriesFor(ById(second), changes);
      && Remembers(before, after, entries) && RemembersPins(entries, unpinned) && RemembersParents(entries, second)
  {
    var byId := ById(second);
    var entries := EntriesFor(byId, changes);
    EntriesForAre(byId, changes);
    forall id | Get(before, id) != Get(after, id)
      ensures exists i :: 0 <= i < |entries| && entries[i].change.threadId == id
    {
      var c :| c in changes && c.threadId == id;
      assert EntryOf(byId, c) in entries;
    }
    forall id | id in unpinned
      ensures exists e :: e in entries && e.change.threadId == id && e.change.unpinned
    {
      var c :| c in changes && c.threadId == id;
      assert EntryOf(byId, c) in entries;
    }
  }

  // ---- what Settle reads and when it refuses ----

  /** A question or approval waits on a visible thread below, along visible threads. */
  ghost predicate ChildAsks(listing: seq<Thread>, id: string) {
    exists t :: t in Visible(listing) && t.hasPendingInteraction && t.id in Descendants(Visible(listing), id)
  }

  /** Why the second reading refuses the settle: the tree changed, or a question came up. */
  ghost function SecondRefusal(first: seq<Thread>, tree: seq<Thread>, rows: Rows, second: seq<Thread>, current: seq<Thread>, root: string, waitedFor: bool): Option<Refusal> {
    if !SameTree(first, tree, rows, rows, current, waitedFor) then Some(TreeChanged)
    else if ChildAsks(second, root) then Some(ChildNeedsYou)
    else if root in ById(second) && ById(second)[root].hasPendingInteraction then Some(NeedsYou)
    else None
  }

  /** Why the first reading refuses the settle. */
  ghost function FirstRefusal(first: seq<Thread>, root: string): Option<Refusal> {
    if root !in ById(first) then Some(ThreadGone)
    else if ChildAsks(first, root) then Some(ChildNeedsYou)
    else if ById(first)[root].hasPendingInteraction then Some(NeedsYou)
    else None
  }

  /** How far a Settle came: where bb or the first reading refused it, a pin bb would not take off, or two readings. */
  datatype Course = Unanswered | RefusedFirst | PinRefused | UnansweredAgain | SeenTwice

  /** What one Settle read of bb and what became of the pins it took. */
  datatype Readings = Readings(
    course: Course, first: seq<Thread>, tree: seq<Thread>, waitedFor: bool,
    second: seq<Thread>, current: seq<Thread>, unpinned: seq<Thread>, back: PinsBack)

  const NO_READINGS: Readings := Readings(Unanswered, [], [], false, [], [], [], PinsBack(None, [], {}))

  /** What bb answered, in order, to a Settle that began when it had taken `pins` pins and unpins. */
  function Heard(seen: Readings, pins: nat, settled: bool): seq<Answer> {
    if settled || seen.course.Unanswered? || seen.course.RefusedFirst? then HeardOfTree(seen, pins)
    else HeardOfTree(seen, pins) + [Listed(seen.back.listing, pins + |seen.unpinned|)]
  }

  /** Its answers but for the listing the pins went back by. */
  function HeardOfTree(seen: Readings, pins: nat): seq<Answer> {
    match seen.course
    case Unanswered => [Listed(None, pins)]
    case RefusedFirst => [Listed(Some(seen.first), pins)]
    case PinRefused => [Listed(Some(seen.first), pins)]
    case UnansweredAgain => [Listed(Some(seen.first), pins), Listed(None, pins + |seen.unpinned|)]
    case SeenTwice => [Listed(Some(seen.first), pins), Listed(Some(seen.second), pins + |seen.unpinned|)]
  }

  /** The first reading lets the settle go on, and names the tree and whether it is busy. */
  ghost predicate LetOn(seen: Readings, root: string) {
    && UniqueIds(seen.first) && FirstRefusal(seen.first, root).None?
    && IsTree(seen.first, root, seen.tree) && (seen.waitedFor <==> AnyBusy(seen.tree))
  }

  /** The pins of an idle tree were all taken; a busy one keeps them. */
  ghost predicate PinsOff(seen: Readings) {
    seen.unpinned == if seen.waitedFor then [] else PinnedOf(seen.tree)
  }

  /** What refuses the settle, or nothing, by how far it came and what bb answered. */
  ghost predicate WentAs(seen: Readings, rows: Rows, root: string, refusal: Option<Refusal>) {
    match seen.course
    case Unanswered => refusal == Some(BbFailed) && seen.unpinned == []
    case RefusedFirst => UniqueIds(seen.first) && refusal.Some? && refusal == FirstRefusal(seen.first, root) && seen.unpinned == []
    case PinRefused => LetOn(seen, root) && !seen.waitedFor && seen.unpinned < PinnedOf(seen.tree) && refusal == Some(BbFailed)
    case UnansweredAgain => LetOn(seen, root) && PinsOff(seen) && refusal == Some(BbFailed)
    case SeenTwice =>
      && LetOn(seen, root) && PinsOff(seen) && UniqueIds(seen.second) && IsTree(seen.second, root, seen.current)
      && refusal == SecondRefusal(seen.first, seen.tree, rows, seen.second, seen.current, root, seen.waitedFor)
  }

  /** All the ways a settle may go that ends in this refusal, or in none. */
  ghost function Courses(rows: Rows, root: string, refusal: Option<Refusal>): iset<Readings> {
    iset seen | WentAs(seen, rows, root, refusal)
  }

  /** Both readings show one tree, with no question on or below its root. */
  ghost predicate ReadTwice(seen: Readings, rows: Rows, root: string) {
    seen.course.SeenTwice? && WentAs(seen, rows, root, None)
  }

  /** Both readings are of one tree, whose pinned threads were unpinned. */
  lemma ReadTwiceIs(seen: Readings, rows: Rows, root: string)
    requires ReadTwice(seen, rows, root)
    ensures root in Ids(seen.first) && Ids(seen.current) == Ids(seen.tree) == Tree(seen.second, root)
    ensures !seen.waitedFor ==> PinsTaken(seen.tree, seen.unpinned)
  {
    ByIdFinds(seen.first);
    SameIds(seen.first, seen.second, rows, rows, root, seen.tree, seen.current, seen.waitedFor);
    SameTreeIsWhole(seen.first, seen.second, rows, rows, root, seen.tree, seen.current, seen.waitedFor);
    PinnedOfIs(seen.tree);
  }

  /** Every pinned thread of the tree, and no other, was unpinned. */
  ghost predicate PinsTaken(tree: seq<Thread>, unpinned: seq<Thread>) {
    && UniqueIds(unpinned)
    && (forall t :: t in unpinned <==> t in tree && IsPinned(t))
  }

  /** The pins a settle took went back wherever nothing changed since; one that waited from the start took none. */
  ghost predicate PinsReturned(before: seq<PinCall>, after: seq<PinCall>, rows: Rows, seen: Readings) {
    && after == before + Calls(IdsOf(seen.unpinned), false) + Calls(seen.back.pinned, true)
    && GivenBack(seen.unpinned, rows, rows, seen.back)
    && (seen.waitedFor ==> after == before)
  }

  /** A pin bb did not take back costs a failed call. */
  ghost predicate FailuresTell(seen: Readings, failed: int) {
    seen.unpinned != [] && failed <= 0 ==> seen.back.listing.Some? && seen.back.failed == {}
  }

  /** A settle that changed nothing but one row, to wait: some thread of the tree is busy. */
  ghost predicate Waits(rows: Rows, seen: Readings, root: string) {
    ReadTwice(seen, rows, root) && (seen.waitedFor || AnyBusy(seen.current))
  }

  /** A settle of an idle tree: its threads as the second reading had them, none busy, its pins taken, all it needs to undo it kept. */
  ghost predicate Settles(before: Rows, after: Rows, seen: Readings, root: string, at: int, entries: seq<SettleEntry>) {
    && ReadTwice(seen, before, root) && !seen.waitedFor && !AnyBusy(seen.current)
    && TreeSettled(before, after, Tree(seen.second, root), at)
    && PinsTaken(seen.tree, seen.unpinned)
    && Remembers(before, after, entries)
    && RemembersPins(entries, Ids(seen.unpinned))
    && RemembersParents(entries, seen.second)
    && (forall e :: e in entries ==> e.change.threadId in Ids(seen.current))
  }

  /** Undo's listing shows the thread as the settle left it: under its parent, not pinned, idle. */
  predicate LeftAlone(listing: seq<Thread>, thread: Thread) {
    && thread.id in ById(listing)
    && ById(listing)[thread.id].parentThreadId == thread.parentThreadId
    && !IsPinned(ById(listing)[thread.id]) && !IsBusy(ById(listing)[thread.id])
  }

  lemma ParentOfCurrent(seen: Readings, rows: Rows, root: string, t: Thread)
    requires ReadTwice(seen, rows, root) && t in seen.current
    ensures ParentIn(ById(seen.second), t.id) == t.parentThreadId
  {
    ParentOfListed(seen.second, root, seen.current, t);
  }

  lemma ParentOfListed(listing: seq<Thread>, root: string, tree: seq<Thread>, t: Thread)
    requires UniqueIds(listing) && IsTree(listing, root, tree) && t in tree
    ensures ParentIn(ById(listing), t.id) == t.parentThreadId
  {
    ByIdFinds(listing);
    assert t in listing;
  }

  /** What Undo restores of a settled tree: the threads left alone whose row is the one the settle wrote. */
  lemma RestorableIff(before: Rows, after: Rows, seen: Readings, root: string, at: int, entries: seq<SettleEntry>, listing: seq<Thread>, rows: Rows, t: Thread)
    requires Settles(before, after, seen, root, at, entries) && t in seen.current
    ensures CanRestore(listing, rows, entries, t.id) ==> LeftAlone(listing, t) && Get(rows, t.id) == Get(after, t.id)
    ensures LeftAlone(listing, t) && Get(rows, t.id) == Get(after, t.id) ==> CanRestore(listing, rows, entries, t.id) || Get(before, t.id) == Get(after, t.id)
  {
    ParentOfCurrent(seen, before, root, t);
    ReadTwiceIs(seen, before, root);
    assert t.id in Ids(seen.current);
    forall i | 0 <= i < |entries| && entries[i].change.threadId == t.id
      ensures Restorable(listing, rows, entries[i]) <==> LeftAlone(listing, t) && Get(rows, t.id) == Get(after, t.id)
    {
      assert entries[i] in entries;
      assert entries[i].change.after == Some(SettledRow(at, Manual));
    }
  }

  lemma SettledTreeEntries(before: Rows, after: Rows, seen: Readings, root: string, at: int, entries: seq<SettleEntry>, listing: seq<Thread>, rows: Rows, id: string)
    requires Settles(before, after, seen, root, at, entries) && id !in Tree(seen.second, root)
    ensures !CanRestore(listing, rows, entries, id)
  {
    ReadTwiceIs(seen, before, root);
    forall i | 0 <= i < |entries| ensures entries[i].change.threadId != id { assert entries[i] in entries; }
  }

  /**
   * Settle, then Undo, from what the two actions promise. A thread of the
   * tree nothing has changed since has its row back, and so have all of them
   * when none changed; every other row stays as it is, whatever other writers
   * did to it meanwhile.
   */
  lemma SettleThenUndoRestores(outcome: SettleOutcome, seen: Readings, root: string, now: int, before: Rows, after: Rows,
                               bbBefore: BbLog, bb: BbLog, lastBefore: int, last: int,
                               listing: seq<Thread>, rows: Rows, undone: Rows, told: seq<Change>, pinned: seq<string>, refused: set<string>, id: string)
    requires NoEmptyRows(before) && outcome.SettledTree? && outcome in Outcomes(seen, root, now, before, after, bbBefore, bb, lastBefore, last)
    requires SettleUndone(listing, outcome.entries, rows, undone, told, pinned, refused)
    ensures Get(undone, id) == if NothingChanged(seen, after, listing, rows, id) then Get(before, id) else Get(rows, id)
  {
    SettleThenUndo(before, after, rows, listing, outcome.entries, id);
    if t :| t in seen.current && t.id == id {
      RestorableIff(before, after, seen, root, outcome.settledAt, outcome.entries, listing, rows, t);
      assert forall u :: u in seen.current && u.id == id ==> u == t;
    } else {
      ReadTwiceIs(seen, before, root);
      assert id !in Ids(seen.current);
      SettledTreeEntries(before, after, seen, root, outcome.settledAt, outcome.entries, listing, rows, id);
    }
  }

  /** A thread of the settled tree, still as the settle left it. */
  ghost predicate NothingChanged(seen: Readings, after: Rows, listing: seq<Thread>, rows: Rows, id: string) {
    exists t :: t in seen.current && t.id == id && LeftAlone(listing, t) && Get(rows, id) == Get(after, id)
  }

  /** When no thread of the tree changed, its rows are all as before the settle, every other row stays, and every pin goes back unless bb refuses it. */
  lemma SettleThenUndoRestoresAll(outcome: SettleOutcome, seen: Readings, root: string, now: int, before: Rows, after: Rows,
                                  bbBefore: BbLog, bb: BbLog, lastBefore: int, last: int,
                                  listing: seq<Thread>, rows: Rows, undone: Rows, told: seq<Change>, pinned: seq<string>, refused: set<string>)
    requires NoEmptyRows(before) && outcome.SettledTree? && outcome in Outcomes(seen, root, now, before, after, bbBefore, bb, lastBefore, last)
    requires forall t :: t in seen.current ==> LeftAlone(listing, t) && Get(rows, t.id) == Get(after, t.id)
    requires SettleUndone(listing, outcome.entries, rows, undone, told, pinned, refused)
    ensures forall id :: Get(undone, id) == if id in Tree(seen.second, root) then Get(before, id) else Get(rows, id)
    ensures forall t :: t in seen.tree && IsPinned(t) ==> t.id in pinned || t.id in refused
  {
    ReadTwiceIs(seen, before, root);
    forall id ensures Get(undone, id) == if id in Tree(seen.second, root) then Get(before, id) else Get(rows, id) {
      SettleThenUndoRestores(outcome, seen, root, now, before, after, bbBefore, bb, lastBefore, last, listing, rows, undone, told, pinned, refused, id);
      assert id in Ids(seen.current) <==> NothingChanged(seen, after, listing, rows, id);
    }
    forall t | t in seen.tree && IsPinned(t) ensures t.id in pinned || t.id in refused {
      PinGoesBack(before, after, seen, root, outcome.settledAt, outcome.entries, listing, rows, pinned, refused, t);
    }
  }

  lemma PinGoesBack(before: Rows, after: Rows, seen: Readings, root: string, at: int, entries: seq<SettleEntry>, listing: seq<Thread>, rows: Rows,
                    pinned: seq<string>, refused: set<string>, t: Thread)
    requires Settles(before, after, seen, root, at, entries) && t in seen.tree && IsPinned(t)
    requires forall u :: u in seen.current ==> LeftAlone(listing, u) && Get(rows, u.id) == Get(after, u.id)
    requires PinsUndone(listing, entries, rows, pinned, refused)
    ensures t.id in pinned || t.id in refused
  {
    ReadTwiceIs(seen, before, root);
    assert t.id in Ids(seen.unpinned) && t.id in Ids(seen.current);
    var u :| u in seen.current && u.id == t.id;
    var e :| e in entries && e.change.threadId == t.id && e.change.unpinned;
    ParentOfCurrent(seen, before, root, u);
    var i :| 0 <= i < |entries| && entries[i] == e;
    assert Restorable(listing, rows, e);
  }

  // ---- settles one after another ----

  /** The tree one Settle settled, and the rows after it. */
  datatype SettleStep = SettleStep(tree: set<string>, after: Rows)

  /** One action's step of the time of the last settle: it never falls, and a tree settled has a new one. */
  ghost predicate StepSays(step: Option<SettleStep>, from: int, upTo: int) {
    && from <= upTo
    && (step.Some? ==> from < upTo && forall id :: id in step.value.tree ==> Get(step.value.after, id) == Some(SettledRow(upTo, Manual)))
  }

  function StepOf(outcome: SettleOutcome, tree: set<string>, after: Rows): Option<SettleStep> {
    if outcome.SettledTree? then Some(SettleStep(tree, after)) else None
  }

  /** Every Settle takes such a step; the other actions leave the time. What a settle remembers of a thread carries its own time. */
  lemma SettleStepSays(outcome: SettleOutcome, seen: Readings, root: string, now: int, before: Rows, after: Rows, start: BbLog, bb: BbLog, lastBefore: int, last: int)
    requires outcome in Outcomes(seen, root, now, before, after, start, bb, lastBefore, last)
    ensures StepSays(StepOf(outcome, Tree(seen.second, root), after), lastBefore, last)
    ensures outcome.SettledTree? <==> StepOf(outcome, Tree(seen.second, root), after).Some?
    ensures outcome.SettledTree? ==> forall e :: e in outcome.entries ==> e.change.after == Some(SettledRow(last, Manual))
  {
    if outcome.SettledTree? {
      ReadTwiceIs(seen, before, root);
      forall e | e in outcome.entries ensures e.change.after == Some(SettledRow(last, Manual)) {
        var i :| 0 <= i < |outcome.entries| && outcome.entries[i] == e;
        assert e.change.after == Get(after, e.change.threadId) && e.change.threadId in Ids(seen.current);
      }
    }
  }

  /** A run of actions: the time of the last settle before and after each. */
  ghost predicate IsSettleRun(steps: seq<Option<SettleStep>>, times: seq<int>) {
    |times| == |steps| + 1 && forall k :: 0 <= k < |steps| ==> StepSays(steps[k], times[k], times[k + 1])
  }

  lemma {:induction false} TimesRise(steps: seq<Option<SettleStep>>, times: seq<int>, i: nat, j: nat)
    requires IsSettleRun(steps, times) && i <= j < |times|
    ensures times[i] <= times[j]
    decreases j - i
  {
    if i < j {
      TimesRise(steps, times, i, j - 1);
      assert StepSays(steps[j - 1], times[j - 1], times[j - 1 + 1]);
    }
  }

  /**
   * The Undo of one settle never touches a row a later settle wrote: over any
   * run of actions the later one has the later time.
   */
  lemma OldUndoSparesNewSettle(steps: seq<Option<SettleStep>>, times: seq<int>, i: nat, j: nat,
                               outcome: SettleOutcome, seen: Readings, root: string, now: int, before: Rows, after: Rows, start: BbLog, bb: BbLog,
                               listing: seq<Thread>, rows: Rows, id: string)
    requires IsSettleRun(steps, times) && i < j < |steps|
    requires outcome.SettledTree? && outcome in Outcomes(seen, root, now, before, after, start, bb, times[i], times[i + 1])
    requires steps[j].Some? && id in steps[j].value.tree && Get(rows, id) == Get(steps[j].value.after, id)
    ensures !CanRestore(listing, rows, outcome.entries, id)
  {
    SettleStepSays(outcome, seen, root, now, before, after, start, bb, times[i], times[i + 1]);
    LaterStepSpares(steps, times, i, j, listing, rows, outcome.entries, id);
  }

  lemma LaterStepSpares(steps: seq<Option<SettleStep>>, times: seq<int>, i: nat, j: nat, listing: seq<Thread>, rows: Rows, entries: seq<SettleEntry>, id: string)
    requires IsSettleRun(steps, times) && i < j < |steps|
    requires steps[j].Some? && id in steps[j].value.tree && Get(rows, id) == Get(steps[j].value.after, id)
    requires forall e :: e in entries ==> e.change.after == Some(SettledRow(times[i + 1], Manual))
    ensures !CanRestore(listing, rows, entries, id)
  {
    TimesRise(steps, times, i + 1, j);
    assert StepSays(steps[j], times[j], times[j + 1]);
    forall k | 0 <= k < |entries| && entries[k].change.threadId == id ensures !Restorable(listing, rows, entries[k]) {
      assert entries[k] in entries;
    }
  }

  lemma PinnedAgainWasUnpinned(unpinned: seq<Thread>, rows: Rows, back: PinsBack)
    requires GivenBack(unpinned, rows, rows, back)
    ensures back.pinned != [] ==> unpinned != []
  {
    if back.pinned != [] && back.listing.Some? {
      var id := back.pinned[0];
      assert MayPinAgain(unpinned, rows, rows, back.listing.value, id);
    }
  }

  lemma PinsWentBack(before: seq<PinCall>, after: seq<PinCall>, rows: Rows, seen: Readings)
    requires after == before + Calls(IdsOf(seen.unpinned), false) + Calls(seen.back.pinned, true)
    requires GivenBack(seen.unpinned, rows, rows, seen.back)
    requires seen.waitedFor ==> seen.unpinned == []
    ensures PinsReturned(before, after, rows, seen)
  {
    PinnedAgainWasUnpinned(seen.unpinned, rows, seen.back);
  }

  /** Giving the pins back changes nothing of how the settle went. */
  lemma WentBack(seen: Readings, back: PinsBack, rows: Rows, root: string, refusal: Option<Refusal>)
    requires seen in Courses(rows, root, refusal)
    ensures seen.(back := back) in Courses(rows, root, refusal)
  {
  }

  /** What a settle has read when its pins were taken, or not, and bb was asked again, or not. */
  function ReadingsOf(first: seq<Thread>, tree: seq<Thread>, done: bool, unpinned: seq<Thread>, second: Option<seq<Thread>>, current: seq<Thread>): Readings {
    Readings(if !done then PinRefused else if second.None? then UnansweredAgain else SeenTwice,
             first, tree, AnyBusy(tree), second.GetOr([]), current, unpinned, PinsBack(None, [], {}))
  }

  /** What comes of reading bb a second time, once the pins are taken. */
  ghost predicate ReadsAs(done: bool, first: seq<Thread>, tree: seq<Thread>, root: string, waitedFor: bool, rows: Rows,
                          second: Option<seq<Thread>>, current: seq<Thread>, refusal: Option<Refusal>) {
    if !done || second.None? then refusal == Some(BbFailed)
    else
      && UniqueIds(second.value) && IsTree(second.value, root, current) && refusal != Some(BbFailed)
      && refusal == SecondRefusal(first, tree, rows, second.value, current, root, waitedFor)
  }

  lemma ReadingsWent(first: seq<Thread>, tree: seq<Thread>, root: string, rows: Rows, done: bool, unpinned: seq<Thread>,
                     second: Option<seq<Thread>>, current: seq<Thread>, refusal: Option<Refusal>)
    requires UniqueIds(first) && FirstRefusal(first, root).None? && IsTree(first, root, tree)
    requires Unpinning(if AnyBusy(tree) then [] else tree, done, unpinned)
    requires ReadsAs(done, first, tree, root, AnyBusy(tree), rows, second, current, refusal)
    ensures WentAs(ReadingsOf(first, tree, done, unpinned, second, current), rows, root, refusal)
  {
  }

  lemma ReadingsAre(first: seq<Thread>, tree: seq<Thread>, root: string, rows: Rows, done: bool, unpinned: seq<Thread>,
                    second: Option<seq<Thread>>, current: seq<Thread>, refusal: Option<Refusal>)
    requires UniqueIds(first) && FirstRefusal(first, root).None? && IsTree(first, root, tree)
    requires Unpinning(if AnyBusy(tree) then [] else tree, done, unpinned)
    requires ReadsAs(done, first, tree, root, AnyBusy(tree), rows, second, current, refusal)
    ensures var seen := ReadingsOf(first, tree, done, unpinned, second, current);
      seen in Courses(rows, root, refusal) && (refusal.None? ==> seen.course.SeenTwice? && UniqueIds(current))
  {
    ReadingsWent(first, tree, root, rows, done, unpinned, second, current, refusal);
  }

  lemma TreeHeard(first: seq<Thread>, tree: seq<Thread>, done: bool, unpinned: seq<Thread>, second: Option<seq<Thread>>, current: seq<Thread>,
                  before: seq<Answer>, heard: seq<Answer>, answers: seq<Answer>, pins: nat, taken: nat)
    requires heard == before + [Listed(Some(first), pins)] && taken == pins + |unpinned|
    requires answers == if done then heard + [Listed(second, taken)] else heard
    ensures answers == before + Heard(ReadingsOf(first, tree, done, unpinned, second, current), pins, true)
  {
    if done {
      assert before + [Listed(Some(first), pins)] + [Listed(second, taken)] == before + [Listed(Some(first), pins), Listed(second, taken)];
    }
  }

  lemma BackHeard(seen: Readings, back: PinsBack, pins: nat, before: seq<Answer>, heard: seq<Answer>, taken: nat)
    requires !seen.course.Unanswered? && !seen.course.RefusedFirst?
    requires heard == before + Heard(seen, pins, true) && taken == pins + |seen.unpinned|
    ensures heard + [Listed(back.listing, taken)] == before + Heard(seen.(back := back), pins, false)
  {
    assert HeardOfTree(seen, pins) == HeardOfTree(seen.(back := back), pins);
    assert before + HeardOfTree(seen, pins) + [Listed(back.listing, taken)] == before + (HeardOfTree(seen, pins) + [Listed(back.listing, taken)]);
  }

  lemma NoneTaken(rows: Rows)
    ensures GivenBack([], rows, rows, PinsBack(None, [], {})) && Calls(IdsOf([]), false) == [] && Calls([], true) == []
  {
  }

  lemma PinsAreOfTheTree(tree: seq<Thread>, current: seq<Thread>, unpinned: seq<Thread>)
    requires PinsTaken(tree, unpinned) && Ids(current) == Ids(tree)
    ensures Ids(unpinned) <= Ids(current)
  {
  }

  /** What writing the settled rows of the second reading's tree comes to. */
  lemma WrittenSettles(before: Rows, after: Rows, seen: Readings, root: string, at: int, touched: set<string>)
    requires ReadTwice(seen, before, root) && !seen.waitedFor && !AnyBusy(seen.current)
    requires after == PutAll(before, PutsOf(SettledEntries(seen.current, seen.unpinned, at))) && Covers(before, after, touched)
    ensures var changes := ChangesOf(touched, before, after, SettledEntries(seen.current, seen.unpinned, at));
      Settles(before, after, seen, root, at, EntriesFor(ById(seen.second), changes)) && ThreadsOnce(EntriesFor(ById(seen.second), changes))
  {
    var current, unpinned := seen.current, seen.unpinned;
    ReadTwiceIs(seen, before, root);
    PinsAreOfTheTree(seen.tree, current, unpinned);
    SettledRowsAre(before, current, unpinned, at);
    SettledChangesAre(before, after, touched, current, unpinned, at);
    var changes := ChangesOf(touched, before, after, SettledEntries(current, unpinned, at));
    SettleRemembers(before, after, changes, seen.second, Ids(unpinned));
    EntriesForAre(ById(seen.second), changes);
  }

  lemma EntriesCarryWhatChangesDo(byId: map<string, Thread>, changes: seq<Change>, issued: set<Row>)
    requires CarriesOnly(changes, issued)
    ensures forall e :: e in EntriesFor(byId, changes) && e.change.before.Some? ==> e.change.before.value in issued
  {
    EntriesForAre(byId, changes);
  }

  /** Only the thread's own row moved: what it was, with the waiting settle added. */
  ghost predicate LeftToWait(before: Rows, after: Rows, root: string, now: int) {
    after == before[root := WaitingSettleRow(now, Get(before, root))]
  }

  lemma WaitingWrite(rows: Rows, root: string, now: int)
    ensures LeftToWait(rows, PutAll(rows, PutsOf([Entry(root, Some(WaitingSettleRow(now, Get(rows, root))), false)])), root, now)
  {
    var puts := PutsOf([Entry(root, Some(WaitingSettleRow(now, Get(rows, root))), false)]);
    assert puts == [Put(root, Some(WaitingSettleRow(now, Get(rows, root))))];
    assert puts[..0] == [];
  }

  /** The changes name every row that moved, with the row before and after. */
  ghost predicate TellsOf(before: Rows, after: Rows, changes: seq<Change>) {
    && (forall c :: c in changes ==> c.before == Get(before, c.threadId) && c.after == Get(after, c.threadId))
    && (forall id :: Get(before, id) != Get(after, id) ==> exists c :: c in changes && c.threadId == id)
  }

  /** An entry of an empty row leaves none behind, so what its change says of after is what is stored. */
  lemma PlainChangesTell(touched: set<string>, before: Rows, after: Rows, entries: seq<Entry>)
    requires Agreeing(entries) && after == PutAll(before, PutsOf(entries)) && Covers(before, after, touched)
    ensures TellsOf(before, after, ChangesOf(touched, before, after, entries))
  {
    ChangesAre(touched, before, after, entries);
    EntriesPut(before, entries);
    var changes := ChangesOf(touched, before, after, entries);
    forall c | c in changes ensures c.after == Get(after, c.threadId) {
      var i :| 0 <= i < |entries| && c == ChangeOf(before, after, entries[i]);
      assert entries[i] in entries;
    }
    forall id | Get(before, id) != Get(after, id) ensures exists c :: c in changes && c.threadId == id {
      var e :| e in entries && e.threadId == id;
      assert ChangeOf(before, after, e) in changes;
    }
  }

  ghost predicate Undone(listing: seq<Thread>, entries: seq<SettleEntry>, before: Rows, after: Rows) {
    after == AfterUndo(listing, before, entries)
  }

  /** Pinned again: only threads the settle unpinned that are as it left them, and each of those unless bb refused. */
  ghost predicate PinsUndone(listing: seq<Thread>, entries: seq<SettleEntry>, rows: Rows, pinned: seq<string>, refused: set<string>) {
    && (forall id :: id in pinned ==> exists e :: e in entries && e.change.threadId == id && e.change.unpinned && Restorable(listing, rows, e))
    && (forall e :: e in entries && e.change.unpinned && Restorable(listing, rows, e) ==> e.change.threadId in pinned || e.change.threadId in refused)
  }

  /** What Undo of a settle comes to, by bb's listing: the rows and pins of the threads still as it left them go back, and it tells which rows moved. */
  ghost predicate SettleUndone(listing: seq<Thread>, entries: seq<SettleEntry>, before: Rows, after: Rows,
                               changes: seq<Change>, pinned: seq<string>, refused: set<string>) {
    && Undone(listing, entries, before, after)
    && PinsUndone(listing, entries, before, pinned, refused)
    && TellsOf(before, after, changes) && DistinctThreads(changes)
    && forall c :: c in changes ==> Get(before, c.threadId) != Get(after, c.threadId)
  }

  function Repinning(listing: seq<Thread>, rows: Rows, entries: seq<SettleEntry>): seq<string> {
    if entries == [] then []
    else
      var last := entries[|entries| - 1];
      Repinning(listing, rows, entries[..|entries| - 1])
        + if Restorable(listing, rows, last) && last.change.unpinned then [last.change.threadId] else []
  }

  lemma {:induction false} RepinningIs(listing: seq<Thread>, rows: Rows, entries: seq<SettleEntry>)
    ensures forall id :: id in Repinning(listing, rows, entries) ==>
      exists e :: e in entries && e.change.threadId == id && e.change.unpinned && Restorable(listing, rows, e)
    ensures forall e :: e in entries && e.change.unpinned && Restorable(listing, rows, e) ==> e.change.threadId in Repinning(listing, rows, entries)
  {
    if entries != [] {
      var rest, last := entries[..|entries| - 1], entries[|entries| - 1];
      assert entries == rest + [last];
      RepinningIs(listing, rows, rest);
    }
  }

  lemma {:induction false} RestoringOk(listing: seq<Thread>, rows: Rows, entries: seq<SettleEntry>, issued: set<Row>)
    requires EntriesCarry(entries, issued) && forall row :: row in issued ==> RowOk(row)
    ensures EntriesOk(Restoring(listing, rows, entries))
  {
    if entries != [] {
      var rest, last := entries[..|entries| - 1], entries[|entries| - 1];
      assert forall i :: 0 <= i < |rest| ==> rest[i] == entries[i];
      RestoringOk(listing, rows, rest, issued);
      assert last in entries;
    }
  }

  datatype SettleOutcome =
    | NotSettled(reason: Refusal)
    | LeftWaiting(waitingChanges: seq<Change>)
    | SettledTree(settledAt: int, changes: seq<Change>, entries: seq<SettleEntry>)

  /**
   * What one Settle comes to. Refused, it changes no row. Left waiting, it
   * changes only the thread's own row. Either way the pins it took go back.
   * Done, it settles the tree both readings showed, at a time later than any
   * settle before it.
   */
  ghost predicate Outcome(outcome: SettleOutcome, seen: Readings, root: string, now: int,
                          before: Rows, after: Rows, bbBefore: BbLog, bb: BbLog, lastBefore: int, last: int) {
    match outcome
    case NotSettled(reason) =>
      var failed := bb.failures - bbBefore.failures;
      && bb.answers == bbBefore.answers + Heard(seen, |bbBefore.taken|, false)
      && after == before && last == lastBefore && PinsReturned(bbBefore.taken, bb.taken, before, seen)
      && WentAs(seen, before, root, Some(reason)) && (reason == BbFailed ==> failed > 0)
      && FailuresTell(seen, failed - if reason == BbFailed then 1 else 0)
    case LeftWaiting(changes) =>
      && bb.answers == bbBefore.answers + Heard(seen, |bbBefore.taken|, false)
      && Waits(before, seen, root) && LeftToWait(before, after, root, now) && last == lastBefore
      && PinsReturned(bbBefore.taken, bb.taken, before, seen) && TellsOf(before, after, changes)
      && FailuresTell(seen, bb.failures - bbBefore.failures)
    case SettledTree(at, changes, entries) =>
      && bb.answers == bbBefore.answers + Heard(seen, |bbBefore.taken|, true)
      && entries == EntriesFor(ById(seen.second), changes)
      && at == last == Max(now, lastBefore + 1)
      && Settles(before, after, seen, root, at, entries) && bb.taken == bbBefore.taken + Calls(IdsOf(seen.unpinned), false)
  }

  /** All that one Settle may come to. */
  ghost function Outcomes(seen: Readings, root: string, now: int, before: Rows, after: Rows, bbBefore: BbLog, bb: BbLog, lastBefore: int, last: int): iset<SettleOutcome> {
    iset outcome | Outcome(outcome, seen, root, now, before, after, bbBefore, bb, lastBefore, last)
  }

  lemma RefusedOutcome(reason: Refusal, seen: Readings, root: string, now: int, rows: Rows, start: BbLog, bb: BbLog, last: int)
    requires seen in Courses(rows, root, Some(reason)) && bb.answers == start.answers + Heard(seen, |start.taken|, false)
    requires PinsReturned(start.taken, bb.taken, rows, seen)
    requires bb.failures - start.failures >= if reason == BbFailed then 1 else 0
    requires FailuresTell(seen, bb.failures - start.failures - if reason == BbFailed then 1 else 0)
    ensures NotSettled(reason) in Outcomes(seen, root, now, rows, rows, start, bb, last, last)
  {
  }

  lemma WaitingOutcome(changes: seq<Change>, seen: Readings, root: string, now: int, before: Rows, after: Rows, start: BbLog, bb: BbLog, last: int)
    requires seen in Courses(before, root, None) && seen.course.SeenTwice? && (seen.waitedFor || AnyBusy(seen.current)) && bb.answers == start.answers + Heard(seen, |start.taken|, false)
    requires PinsReturned(start.taken, bb.taken, before, seen) && FailuresTell(seen, bb.failures - start.failures)
    requires LeftToWait(before, after, root, now) && TellsOf(before, after, changes)
    ensures LeftWaiting(changes) in Outcomes(seen, root, now, before, after, start, bb, last, last)
  {
  }

  /** Writing the settled rows of the second reading's tree is a settle. */
  lemma WrittenOutcome(outcome: SettleOutcome, touched: set<string>, seen: Readings, root: string, now: int,
                       before: Rows, after: Rows, start: BbLog, bb: BbLog, lastBefore: int, last: int)
    requires seen in Courses(before, root, None) && seen.course.SeenTwice? && !seen.waitedFor && !AnyBusy(seen.current)
    requires UniqueIds(seen.current) && last == Max(now, lastBefore + 1) && outcome.SettledTree? && outcome.settledAt == last
    requires after == PutAll(before, PutsOf(SettledEntries(seen.current, seen.unpinned, last))) && Covers(before, after, touched)
    requires outcome.changes == ChangesOf(touched, before, after, SettledEntries(seen.current, seen.unpinned, last))
    requires outcome.entries == EntriesFor(ById(seen.second), outcome.changes)
    requires bb.taken == start.taken + Calls(IdsOf(seen.unpinned), false) && bb.answers == start.answers + Heard(seen, |start.taken|, true)
    ensures outcome in Outcomes(seen, root, now, before, after, start, bb, lastBefore, last) && ThreadsOnce(outcome.entries)
  {
    WrittenSettles(before, after, seen, root, last, touched);
  }

  ghost predicate Carries(outcome: SettleOutcome, issued: set<Row>) {
    match outcome
    case NotSettled(_) => true
    case LeftWaiting(changes) => CarriesOnly(changes, issued)
    case SettledTree(_, changes, _) => CarriesOnly(changes, issued)
  }
}
