/**
 * The lifecycle actions. Each reads bb's threads, which may change between
 * any two reads, and writes rows through the store; changes run one at a
 * time, so no row moves under an action but by its own hand. What an action
 * reports is what its Undo is later given, and every contract is about the
 * very answers bb gave while the action ran.
 */
module LifecycleActions {
  import opened Common
  import opened Threads
  import opened ThreadTree
  import opened Lifecycle
  import opened LifecycleStore
  import opened Bb
  import opened Actions
  import opened Settling
  import opened SettleSpec
  import opened SettleUndos

  datatype ActionResult = Done(changes: seq<Change>) | Refused(reason: Refusal)

  const MAX_SNOOZE_MS := 365 * 24 * 60 * 60 * 1000

  predicate IsSnoozed(row: Option<Row>) { row.Some? && row.value.snoozeUntil.Some? }

  /** The changes are of the rows that moved, which are published, and carry only rows the store has held. */
  ghost predicate Told(changes: seq<Change>, touched: set<string>, before: Rows, after: Rows, issued: set<Row>) {
    TellsOf(before, after, changes) && Covers(before, after, touched) && CarriesOnly(changes, issued)
  }

  ghost predicate WaitEnded(before: Rows, after: Rows, threadId: string)
    requires IsWaitingSettle(Get(before, threadId))
  {
    after == PutOne(before, threadId, WithoutWaitingSettle(before[threadId]))
  }

  /** Why bb's answer refuses an action on a thread: it gave none, or it does not list the thread. */
  predicate NotThere(listing: Option<seq<Thread>>, threadId: string) {
    listing.Some? ==> threadId !in ById(listing.value)
  }

  function WhyNotThere(listing: Option<seq<Thread>>): Refusal { if listing.None? then BbFailed else ThreadGone }

  /** Why bb's answer refuses Snooze and Park. */
  ghost function AsideRefusal(listing: Option<seq<Thread>>, threadId: string): Option<Refusal> {
    if NotThere(listing, threadId) then Some(WhyNotThere(listing))
    else if IsBusy(ById(listing.value)[threadId]) then Some(Busy)
    else if ChildAsks(listing.value, threadId) then Some(ChildNeedsYou)
    else None
  }

  /**
   * Refused by bb's answer, or by a pin bb would not take off, nothing moved.
   * Done, the thread has the one mark and is unpinned.
   */
  ghost predicate SetsAside(result: ActionResult, touched: set<string>, listing: Option<seq<Thread>>, threadId: string, row: Row,
                            before: Rows, after: Rows, bbBefore: BbLog, bb: BbLog, issued: set<Row>) {
    var why := AsideRefusal(listing, threadId);
    && bb.answers == bbBefore.answers + [Listed(listing, |bbBefore.taken|)]
    && match result
       case Refused(reason) =>
         && after == before && bb.taken == bbBefore.taken && touched == {}
         && (if why.Some? then reason == why.value else reason == BbFailed && IsPinned(ById(listing.value)[threadId]))
         && (reason == BbFailed ==> bb.failures > bbBefore.failures)
       case Done(changes) =>
         && why.None?
         && after == before[threadId := row]
         && bb.taken == bbBefore.taken + (if IsPinned(ById(listing.value)[threadId]) then [PinCall(threadId, false)] else [])
         && Told(changes, touched, before, after, issued)
         && (IsPinned(ById(listing.value)[threadId]) ==> exists c :: c in changes && c.threadId == threadId && c.unpinned)
  }

  /** Writing one row for each thread tells exactly of the rows that moved. */
  lemma RestoringTells(before: Rows, after: Rows, touched: set<string>, entries: seq<Entry>)
    requires EachOnce(entries) && (forall e :: e in entries ==> !e.unpinned)
    requires after == PutAll(before, PutsOf(entries)) && Covers(before, after, touched)
    requires forall id :: id in touched ==> Get(before, id) != Get(after, id)
    ensures var changes := ChangesOf(touched, before, after, entries);
      TellsOf(before, after, changes) && DistinctThreads(changes) && forall c :: c in changes ==> Get(before, c.threadId) != Get(after, c.threadId)
  {
    PlainChangesTell(touched, before, after, entries);
    ChangesAre(touched, before, after, entries);
    ChangesOnce(touched, before, after, entries);
    forall c | c in ChangesOf(touched, before, after, entries) ensures Get(before, c.threadId) != Get(after, c.threadId) {
      var i :| 0 <= i < |entries| && (entries[i].threadId in touched || entries[i].unpinned) && c == ChangeOf(before, after, entries[i]);
      assert entries[i] in entries;
    }
  }

  lemma OneWrite(before: Rows, touched: set<string>, threadId: string, row: Option<Row>, unpinned: bool)
    requires Covers(before, PutOne(before, threadId, row), touched)
    ensures PutAll(before, PutsOf([Entry(threadId, row, unpinned)])) == PutOne(before, threadId, row)
    ensures TellsOf(before, PutOne(before, threadId, row), ChangesOf(touched, before, PutOne(before, threadId, row), [Entry(threadId, row, unpinned)]))
    ensures unpinned ==> exists c :: c in ChangesOf(touched, before, PutOne(before, threadId, row), [Entry(threadId, row, unpinned)]) && c.threadId == threadId && c.unpinned
  {
    var entries := [Entry(threadId, row, unpinned)];
    var after := PutOne(before, threadId, row);
    assert PutsOf(entries) == [Put(threadId, row)];
    assert PutsOf(entries)[..0] == [];
    PlainChangesTell(touched, before, after, entries);
    ChangesAre(touched, before, after, entries);
    if unpinned { assert ChangeOf(before, after, entries[0]) in ChangesOf(touched, before, after, entries); }
  }

  predicate IsSettled(row: Option<Row>) { row.Some? && row.value.settledAt.Some? }

  /** One clearing entry for each id whose row `pick` picks. */
  function Clearing(rows: Rows, ids: seq<string>, pick: Option<Row> -> bool): seq<Entry> {
    if ids == [] then []
    else
      var last := ids[|ids| - 1];
      Clearing(rows, ids[..|ids| - 1], pick) + if pick(Get(rows, last)) then [Entry(last, None, false)] else []
  }

  lemma {:induction false} ClearingIs(rows: Rows, ids: seq<string>, pick: Option<Row> -> bool)
    ensures forall e :: e in Clearing(rows, ids, pick) <==> e.threadId in ids && pick(Get(rows, e.threadId)) && e == Entry(e.threadId, None, false)
  {
    if ids != [] {
      assert ids == ids[..|ids| - 1] + [ids[|ids| - 1]];
      ClearingIs(rows, ids[..|ids| - 1], pick);
    }
  }

  /** The thread is active, settled threads below and marked threads above follow the rules again, and nothing else moved. */
  ghost predicate Unsettled(listing: seq<Thread>, threadId: string, before: Rows, after: Rows) {
    && Get(after, threadId) == Some(ActiveRow())
    && forall id :: id != threadId ==> Get(after, id) ==
                                       if Reopens(listing, threadId, before, id) then None else Get(before, id)
  }

  ghost predicate Reopens(listing: seq<Thread>, threadId: string, rows: Rows, id: string) {
    || (id in Descendants(listing, threadId) && IsSettled(Get(rows, id)))
    || (threadId in Descendants(listing, id) && HasMark(Get(rows, id)))
  }

  function UnsettleEntries(rows: Rows, threadId: string, below: seq<string>, above: seq<string>): seq<Entry> {
    [Entry(threadId, Some(ActiveRow()), false)] + Clearing(rows, below, IsSettled) + Clearing(rows, above, HasMark)
  }

  lemma UnsettleEntriesAre(rows: Rows, threadId: string, below: seq<string>, above: seq<string>)
    requires threadId !in below && threadId !in above
    ensures var entries := UnsettleEntries(rows, threadId, below, above);
      Agreeing(entries) && EntriesOk(entries)
  {
    ClearingIs(rows, below, IsSettled);
    ClearingIs(rows, above, HasMark);
    var entries := UnsettleEntries(rows, threadId, below, above);
    forall i | 1 <= i < |entries| ensures entries[i].row.None? && entries[i].threadId != threadId {
      assert entries[i] in Clearing(rows, below, IsSettled) || entries[i] in Clearing(rows, above, HasMark);
    }
  }

  lemma UnsettledByEntries(before: Rows, listing: seq<Thread>, threadId: string, below: seq<string>)
    requires UniqueIds(listing) && Elements(below) == Descendants(listing, threadId)
    ensures Unsettled(listing, threadId, before, PutAll(before, PutsOf(UnsettleEntries(before, threadId, below, Ancestors(ById(listing), threadId)))))
  {
    var above := Ancestors(ById(listing), threadId);
    var entries := UnsettleEntries(before, threadId, below, above);
    WalksAreDual(listing, threadId, threadId);
    assert threadId !in Elements(below) && forall id :: id in below <==> id in Elements(below);
    UnsettleEntriesAre(before, threadId, below, above);
    EntriesPut(before, entries);
    ClearingIs(before, below, IsSettled);
    ClearingIs(before, above, HasMark);
    var after := PutAll(before, PutsOf(entries));
    forall id | id != threadId
      ensures Get(after, id) == if Reopens(listing, threadId, before, id) then None else Get(before, id)
    {
      WalksAreDual(listing, id, threadId);
      var clear := Entry(id, None, false);
      assert Reopens(listing, threadId, before, id) <==> clear in entries;
      assert forall e :: e in entries && e.threadId == id ==> e == clear;
    }
    assert entries[0] in entries;
  }

  /** A pin clears the row, but not one with a settle that waits since after the pin. */
  predicate ShouldClearForPin(row: Option<Row>, thread: Thread) {
    IsPinned(thread) && row.Some? && (!IsWaitingSettle(row) || PinnedAfter(thread, row.value.waitingSettleAt.value))
  }

  /** The thread's Woke marker is up, by what bb lists of it. */
  predicate IsWoke(row: Option<Row>, listing: Option<seq<Thread>>, threadId: string, now: int) {
    && listing.Some? && threadId in ById(listing.value)
    && Wake(row, ById(listing.value)[threadId].latestAttentionAt, now, false).Some?
  }

  predicate PinClears(row: Option<Row>, listing: Option<seq<Thread>>, threadId: string) {
    listing.Some? && threadId in ById(listing.value) && ShouldClearForPin(row, ById(listing.value)[threadId])
  }

  // ---- undo of what an action reported ----

  datatype SkipReason = ItChangedSince | SnoozeEnded

  datatype Skipped = Skipped(threadId: string, reason: SkipReason)

  /** Why Undo leaves a change: its row is another now, or it would put back a snooze that has ended. */
  function WhySkip(rows: Rows, change: Change, now: int): Option<SkipReason> {
    if !SameRow(Get(rows, change.threadId), change.after) then Some(ItChangedSince)
    else if IsSnoozed(change.before) && change.before.value.snoozeUntil.value <= now then Some(SnoozeEnded)
    else None
  }

  function Undoing(rows: Rows, changes: seq<Change>, now: int): seq<Entry> {
    if changes == [] then []
    else
      var last := changes[|changes| - 1];
      Undoing(rows, changes[..|changes| - 1], now) + if WhySkip(rows, last, now).None? then [Entry(last.threadId, last.before, false)] else []
  }

  function SkippedOf(rows: Rows, changes: seq<Change>, now: int): seq<Skipped> {
    if changes == [] then []
    else
      var last := changes[|changes| - 1];
      SkippedOf(rows, changes[..|changes| - 1], now)
        + match WhySkip(rows, last, now) case Some(why) => [Skipped(last.threadId, why)] case None => []
  }

  function Repins(rows: Rows, changes: seq<Change>, now: int): seq<string> {
    if changes == [] then []
    else
      var last := changes[|changes| - 1];
      Repins(rows, changes[..|changes| - 1], now) + if WhySkip(rows, last, now).None? && last.unpinned then [last.threadId] else []
  }

  /** The ids bb lists as not pinned. */
  function Unpinned(listing: seq<Thread>, ids: seq<string>): seq<string> {
    if ids == [] then []
    else
      var last := ids[|ids| - 1];
      Unpinned(listing, ids[..|ids| - 1]) + if last in ById(listing) && !IsPinned(ById(listing)[last]) then [last] else []
  }

  ghost function AfterUndoOf(rows: Rows, changes: seq<Change>, now: int): Rows {
    PutAll(rows, PutsOf(Undoing(rows, changes, now)))
  }

  lemma {:induction false} UndoingIs(rows: Rows, changes: seq<Change>, now: int)
    ensures forall e :: e in Undoing(rows, changes, now) <==>
      exists i :: 0 <= i < |changes| && WhySkip(rows, changes[i], now).None? && e == Entry(changes[i].threadId, changes[i].before, false)
  {
    if changes != [] {
      UndoingIs(rows, changes[..|changes| - 1], now);
    }
  }

  lemma UndoingOk(rows: Rows, changes: seq<Change>, now: int, issued: set<Row>)
    requires CarriesOnly(changes, issued) && forall row :: row in issued ==> RowOk(row)
    ensures EntriesOk(Undoing(rows, changes, now))
  {
    UndoingIs(rows, changes, now);
    var entries := Undoing(rows, changes, now);
    forall i | 0 <= i < |entries| && entries[i].row.Some? ensures RowOk(entries[i].row.value) {
      assert entries[i] in entries;
    }
  }

  /**
   * An action, then Undo of what it reported: with no row moved since, every
   * row is as before the action but one whose snooze has ended meanwhile.
   */
  lemma UndoReversesAnAction(before: Rows, after: Rows, changes: seq<Change>, now: int, id: string)
    requires NoEmptyRows(before) && TellsOf(before, after, changes)
    ensures Get(AfterUndoOf(after, changes, now), id)
      == if IsSnoozed(Get(before, id)) && before[id].snoozeUntil.value <= now then Get(after, id) else Get(before, id)
  {
    var entries := Undoing(after, changes, now);
    UndoingIs(after, changes, now);
    forall i | 0 <= i < |entries| ensures entries[i].row == Get(before, entries[i].threadId) {
      assert entries[i] in entries;
    }
    EntriesPut(after, entries);
    if c :| c in changes && c.threadId == id {
      var entry := Entry(id, c.before, false);
      if WhySkip(after, c, now).None? { assert entry in entries; }
    }
  }

  class LifecycleActions {
    const store: LifecycleStore
    const bb: Gateway
    var settleUndos: seq<Held>
    var lastSettleAt: int

    constructor (store: LifecycleStore, bb: Gateway)
      ensures this.store == store && this.bb == bb && settleUndos == [] && lastSettleAt == 0
    {
      this.store, this.bb := store, bb;
      settleUndos, lastSettleAt := [], 0;
    }

    /** The undos held carry only rows the store has held. */
    ghost predicate Valid()
      reads this, store
    {
      && store.Valid() && TokensOnce(settleUndos)
      && forall h :: h in settleUndos ==> EntriesCarry(h.snapshot.entries, store.issued)
    }

    /** Writes the rows and reports each that moved or whose thread was unpinned, with the row before. */
    method Write(entries: seq<Entry>) returns (changes: seq<Change>, touched: set<string>)
      requires store.Valid() && EntriesOk(entries)
      modifies store
      ensures store.Valid() && old(store.issued) <= store.issued
      ensures store.rows == PutAll(old(store.rows), PutsOf(entries))
      ensures Covers(old(store.rows), store.rows, touched)
      ensures EachOnce(entries) ==> forall id :: id in touched ==> Get(old(store.rows), id) != Get(store.rows, id)
      ensures changes == ChangesOf(touched, old(store.rows), store.rows, entries)
      ensures CarriesOnly(changes, store.issued)
    {
      ghost var puts := PutsOf(entries);
      assert PutsOk(puts);
      assert EachOnce(entries) ==> Once(puts);
      var before := store.rows;
      touched := store.PutMany(PutsOf(entries));
      changes := ChangesOf(touched, before, store.rows, entries);
      ChangesCarry(touched, before, store.rows, entries, store.issued);
      assert forall id :: Get(before, id) == old(store.RowOf(id)) && Get(store.rows, id) == store.RowOf(id);
    }

    /** Unpins the tree's pinned threads in order, stopping at the first bb refuses. */
    method UnpinTree(tree: seq<Thread>) returns (done: bool, unpinned: seq<Thread>)
      modifies bb`threads, bb`taken, bb`failures
      ensures bb.taken == old(bb.taken) + Calls(IdsOf(unpinned), false) && |bb.taken| == |old(bb.taken)| + |unpinned|
      ensures bb.failures == old(bb.failures) + if done then 0 else 1
      ensures Unpinning(tree, done, unpinned)
    {
      done, unpinned := true, [];
      var k := 0;
      while k < |tree| && done
        invariant 0 <= k <= |tree|
        invariant bb.taken == old(bb.taken) + Calls(IdsOf(unpinned), false)
        invariant Unpinning(tree[..k], done, unpinned)
        invariant bb.failures == old(bb.failures) + if done then 0 else 1
      {
        UnpinningGoesOn(tree, k, unpinned);
        if IsPinned(tree[k]) {
          done := bb.Unpin(tree[k].id);
          if done {
            OneMoreCall(IdsOf(unpinned), tree[k].id, false);
            assert IdsOf(unpinned + [tree[k]]) == IdsOf(unpinned) + [tree[k].id];
            unpinned := unpinned + [tree[k]];
          }
        }
        k := k + 1;
      }
      UnpinningEnds(tree, k, done, unpinned);
    }

    /** Pins again what an unfinished settle unpinned, wherever nothing changed since. */
    method RestorePins(unpinned: seq<Thread>, rowsBefore: Rows) returns (back: PinsBack)
      modifies bb
      ensures bb.answers == old(bb.answers) + [Listed(back.listing, |old(bb.taken)|)]
      ensures bb.taken == old(bb.taken) + Calls(back.pinned, true)
      ensures GivenBack(unpinned, store.rows, rowsBefore, back)
      ensures bb.failures >= old(bb.failures)
      ensures bb.failures == old(bb.failures) ==> back.listing.Some? && back.failed == {}
    {
      var listing := bb.Snapshot();
      if listing.None? {
        back := PinsBack(None, [], Ids(unpinned));
      } else {
        var pinned: seq<string>, failed: set<string> := [], {};
        var k := |unpinned|;
        while k > 0
          invariant 0 <= k <= |unpinned|
          invariant bb.taken == old(bb.taken) + Calls(pinned, true) && bb.answers == old(bb.answers) + [Listed(listing, |old(bb.taken)|)]
          invariant TriedFrom(unpinned, k, store.rows, rowsBefore, listing.value, pinned, failed)
          invariant bb.failures >= old(bb.failures) && (bb.failures == old(bb.failures) ==> failed == {})
        {
          k := k - 1;
          TriedOneMore(unpinned, k, store.rows, rowsBefore, listing.value, pinned, failed);
          var original := unpinned[k];
          if CanRepin(listing.value, store.rows, rowsBefore, original) {
            var done := bb.Pin(original.id);
            if done {
              OneMoreCall(pinned, original.id, true);
              pinned := pinned + [original.id];
            } else {
              failed := failed + {original.id};
            }
          }
        }
        back := PinsBack(listing, pinned, failed);
      }
    }

    /** Reads bb again, when every pin was taken, and compares the tree with the first reading. */
    method ReadAgain(done: bool, first: seq<Thread>, tree: seq<Thread>, root: string, waitedFor: bool, rowsBefore: Rows)
      returns (second: Option<seq<Thread>>, current: seq<Thread>, refusal: Option<Refusal>)
      requires UniqueIds(first) && root in Ids(first) && IsTree(first, root, tree) && rowsBefore == store.rows
      modifies bb`threads, bb`failures, bb`answers
      ensures bb.answers == if done then old(bb.answers) + [Listed(second, |bb.taken|)] else old(bb.answers)
      ensures bb.failures == old(bb.failures) + if done && refusal == Some(BbFailed) then 1 else 0
      ensures ReadsAs(done, first, tree, root, waitedFor, store.rows, second, current, refusal)
    {
      second, current, refusal := None, [], Some(BbFailed);
      if done {
        second := bb.Snapshot();
        if second.Some? {
          current := ListedTree(second.value, root);
          refusal := Compare(first, tree, root, waitedFor, rowsBefore, second.value, current);
        }
      }
    }

    /** What the second reading refuses the settle for. */
    method Compare(first: seq<Thread>, tree: seq<Thread>, root: string, waitedFor: bool, rowsBefore: Rows, second: seq<Thread>, current: seq<Thread>)
      returns (refusal: Option<Refusal>)
      requires UniqueIds(first) && root in Ids(first) && IsTree(first, root, tree) && rowsBefore == store.rows
      requires UniqueIds(second) && IsTree(second, root, current)
      ensures refusal == SecondRefusal(first, tree, store.rows, second, current, root, waitedFor) && refusal != Some(BbFailed)
    {
      VisibleIs(second);
      if !SameTree(first, tree, rowsBefore, store.rows, current, waitedFor) {
        refusal := Some(TreeChanged);
      } else {
        SameTreeIsWhole(first, second, rowsBefore, store.rows, root, tree, current, waitedFor);
        ByIdFinds(second);
        var child := WaitingBelow(Visible(second), root);
        if child.Some? {
          refusal := Some(ChildNeedsYou);
        } else if ById(second)[root].hasPendingInteraction {
          refusal := Some(NeedsYou);
        } else {
          refusal := None;
        }
      }
    }

    /** Settles the tree as the second reading has it, keeping what its Undo needs. */
    method WriteSettled(root: string, now: int, ghost seen: Readings, second: seq<Thread>, current: seq<Thread>, unpinned: seq<Thread>, ghost start: BbLog)
      returns (outcome: SettleOutcome, touched: set<string>)
      requires Valid() && seen.second == second && seen.current == current && seen.unpinned == unpinned
      requires seen in Courses(store.rows, root, None) && seen.course.SeenTwice? && !seen.waitedFor && UniqueIds(current) && !AnyBusy(current)
      requires bb.taken == start.taken + Calls(IdsOf(unpinned), false)
      requires bb.answers == start.answers + Heard(seen, |start.taken|, true)
      modifies this, store
      ensures Valid() && old(store.issued) <= store.issued && settleUndos == old(settleUndos)
      ensures Covers(old(store.rows), store.rows, touched)
      ensures outcome in Outcomes(seen, root, now, old(store.rows), store.rows, start, bb.Log(), old(lastSettleAt), lastSettleAt)
      ensures outcome.SettledTree? && EntriesCarry(outcome.entries, store.issued) && CarriesOnly(outcome.changes, store.issued)
    {
      ghost var before := store.rows;
      var changes;
      changes, touched := WriteTree(now, current, unpinned);
      outcome := SettledTree(lastSettleAt, changes, EntriesFor(ById(second), changes));
      WrittenOutcome(outcome, touched, seen, root, now, before, store.rows, start, bb.Log(), old(lastSettleAt), lastSettleAt);
      EntriesCarryWhatChangesDo(ById(second), changes, store.issued);
    }

    /** Writes the settled row of each thread, at a time later than any settle before. */
    method WriteTree(now: int, current: seq<Thread>, unpinned: seq<Thread>) returns (changes: seq<Change>, touched: set<string>)
      requires Valid() && UniqueIds(current)
      modifies this`lastSettleAt, store
      ensures Valid() && old(store.issued) <= store.issued
      ensures lastSettleAt == Max(now, old(lastSettleAt) + 1)
      ensures store.rows == PutAll(old(store.rows), PutsOf(SettledEntries(current, unpinned, lastSettleAt)))
      ensures Covers(old(store.rows), store.rows, touched)
      ensures changes == ChangesOf(touched, old(store.rows), store.rows, SettledEntries(current, unpinned, lastSettleAt))
      ensures CarriesOnly(changes, store.issued)
    {
      lastSettleAt := Max(now, lastSettleAt + 1);
      SettledEntriesAre(current, unpinned, lastSettleAt);
      changes, touched := Write(SettledEntries(current, unpinned, lastSettleAt));
    }

    /** Gives the pins back and writes the waiting settle, if it waits. */
    method GiveUp(root: string, now: int, refusal: Option<Refusal>, unpinned: seq<Thread>)
      returns (outcome: SettleOutcome, touched: set<string>, back: PinsBack)
      requires Valid()
      modifies store, bb
      ensures Valid() && old(store.issued) <= store.issued
      ensures Covers(old(store.rows), store.rows, touched)
      ensures bb.answers == old(bb.answers) + [Listed(back.listing, |old(bb.taken)|)]
      ensures bb.taken == old(bb.taken) + Calls(back.pinned, true) && GivenBack(unpinned, old(store.rows), old(store.rows), back)
      ensures refusal.Some? ==> outcome == NotSettled(refusal.value) && store.rows == old(store.rows)
      ensures refusal.None? ==> outcome.LeftWaiting? && LeftToWait(old(store.rows), store.rows, root, now)
      ensures refusal.None? ==> TellsOf(old(store.rows), store.rows, outcome.waitingChanges)
      ensures bb.failures >= old(bb.failures)
      ensures bb.failures == old(bb.failures) ==> back.listing.Some? && back.failed == {}
      ensures outcome.LeftWaiting? ==> CarriesOnly(outcome.waitingChanges, store.issued)
    {
      var rowsBefore := store.rows;
      touched := {};
      back := RestorePins(unpinned, rowsBefore);
      if refusal.Some? {
        outcome := NotSettled(refusal.value);
      } else {
        var changes;
        changes, touched := Write([Entry(root, Some(WaitingSettleRow(now, store.RowOf(root))), false)]);
        outcome := LeftWaiting(changes);
        WaitingWrite(rowsBefore, root, now);
        PlainChangesTell(touched, rowsBefore, store.rows, [Entry(root, Some(WaitingSettleRow(now, Get(rowsBefore, root))), false)]);
      }
    }

    /** A settle refused or left waiting, seen from its start. */
    method NotNow(root: string, now: int, refusal: Option<Refusal>, unpinned: seq<Thread>, ghost seenSoFar: Readings, ghost start: BbLog)
      returns (outcome: SettleOutcome, touched: set<string>, ghost seen: Readings)
      requires Valid() && seenSoFar.unpinned == unpinned && !seenSoFar.course.Unanswered? && !seenSoFar.course.RefusedFirst?
      requires bb.taken == start.taken + Calls(IdsOf(unpinned), false)
      requires bb.failures == start.failures + if refusal == Some(BbFailed) then 1 else 0
      requires bb.answers == start.answers + Heard(seenSoFar, |start.taken|, true)
      requires seenSoFar in Courses(store.rows, root, refusal)
      requires refusal.None? ==> seenSoFar.course.SeenTwice? && (seenSoFar.waitedFor || AnyBusy(seenSoFar.current))
      modifies store, bb
      ensures Valid() && old(store.issued) <= store.issued
      ensures Covers(old(store.rows), store.rows, touched)
      ensures outcome in Outcomes(seen, root, now, old(store.rows), store.rows, start, bb.Log(), lastSettleAt, lastSettleAt)
      ensures !outcome.SettledTree? && Carries(outcome, store.issued)
    {
      ghost var rowsBefore, heard, taken := store.rows, bb.answers, |bb.taken|;
      var back;
      outcome, touched, back := GiveUp(root, now, refusal, unpinned);
      seen := seenSoFar.(back := back);
      WentBack(seenSoFar, back, rowsBefore, root, refusal);
      BackHeard(seenSoFar, back, |start.taken|, start.answers, heard, taken);
      PinsWentBack(start.taken, bb.taken, rowsBefore, seen);
      if refusal.Some? {
        RefusedOutcome(refusal.value, seen, root, now, store.rows, start, bb.Log(), lastSettleAt);
      } else {
        WaitingOutcome(outcome.waitingChanges, seen, root, now, rowsBefore, store.rows, start, bb.Log(), lastSettleAt);
      }
    }

    /** The settle of a listed tree nobody is asked about: refused, left waiting, or done. */
    method SettleTree(root: string, now: int, first: seq<Thread>, tree: seq<Thread>, ghost start: BbLog)
      returns (outcome: SettleOutcome, touched: set<string>, ghost seen: Readings)
      requires Valid() && UniqueIds(first) && FirstRefusal(first, root).None? && IsTree(first, root, tree)
      requires bb.Log() == start.(answers := start.answers + [Listed(Some(first), |start.taken|)])
      modifies this, store, bb
      ensures Valid() && old(store.issued) <= store.issued && settleUndos == old(settleUndos)
      ensures Covers(old(store.rows), store.rows, touched)
      ensures outcome in Outcomes(seen, root, now, old(store.rows), store.rows, start, bb.Log(), old(lastSettleAt), lastSettleAt)
      ensures outcome.SettledTree? ==> EntriesCarry(outcome.entries, store.issued)
      ensures Carries(outcome, store.issued)
    {
      var refusal, unpinned, second, current;
      refusal, unpinned, second, current, seen := TakeAndRead(root, first, tree, start);
      outcome, touched, seen := Finish(root, now, refusal, AnyBusy(tree), unpinned, second, current, seen, start);
    }

    /** Takes the pins of an idle tree and reads bb again; a busy tree keeps its pins. */
    method TakeAndRead(root: string, first: seq<Thread>, tree: seq<Thread>, ghost start: BbLog)
      returns (refusal: Option<Refusal>, unpinned: seq<Thread>, second: seq<Thread>, current: seq<Thread>, ghost seen: Readings)
      requires UniqueIds(first) && FirstRefusal(first, root).None? && IsTree(first, root, tree)
      requires bb.Log() == start.(answers := start.answers + [Listed(Some(first), |start.taken|)])
      modifies bb
      ensures bb.taken == start.taken + Calls(IdsOf(unpinned), false)
      ensures bb.failures == start.failures + if refusal == Some(BbFailed) then 1 else 0
      ensures bb.answers == start.answers + Heard(seen, |start.taken|, true)
      ensures seen in Courses(store.rows, root, refusal) && !seen.course.Unanswered? && !seen.course.RefusedFirst?
      ensures refusal.None? ==> seen.course.SeenTwice? && UniqueIds(current)
      ensures seen.unpinned == unpinned && seen.second == second && seen.current == current && seen.waitedFor == AnyBusy(tree)
    {
      ghost var heard := bb.answers;
      ByIdFinds(first);
      var done, answer;
      done, unpinned := UnpinTree(if AnyBusy(tree) then [] else tree);
      answer, current, refusal := ReadAgain(done, first, tree, root, AnyBusy(tree), store.rows);
      second := answer.GetOr([]);
      seen := ReadingsOf(first, tree, done, unpinned, answer, current);
      ReadingsAre(first, tree, root, store.rows, done, unpinned, answer, current, refusal);
      TreeHeard(first, tree, done, unpinned, answer, current, start.answers, heard, bb.answers, |start.taken|, |bb.taken|);
    }

    /** Settles the tree, or gives up on it, by what was read. */
    method Finish(root: string, now: int, refusal: Option<Refusal>, waitedFor: bool, unpinned: seq<Thread>, second: seq<Thread>, current: seq<Thread>,
                  ghost seenSoFar: Readings, ghost start: BbLog)
      returns (outcome: SettleOutcome, touched: set<string>, ghost seen: Readings)
      requires Valid() && !seenSoFar.course.Unanswered? && !seenSoFar.course.RefusedFirst?
      requires seenSoFar.unpinned == unpinned && seenSoFar.second == second && seenSoFar.current == current && seenSoFar.waitedFor == waitedFor
      requires seenSoFar in Courses(store.rows, root, refusal) && (refusal.None? ==> seenSoFar.course.SeenTwice? && UniqueIds(current))
      requires bb.taken == start.taken + Calls(IdsOf(unpinned), false)
      requires bb.failures == start.failures + if refusal == Some(BbFailed) then 1 else 0
      requires bb.answers == start.answers + Heard(seenSoFar, |start.taken|, true)
      modifies this, store, bb
      ensures Valid() && old(store.issued) <= store.issued && settleUndos == old(settleUndos)
      ensures Covers(old(store.rows), store.rows, touched)
      ensures outcome in Outcomes(seen, root, now, old(store.rows), store.rows, start, bb.Log(), old(lastSettleAt), lastSettleAt)
      ensures outcome.SettledTree? ==> EntriesCarry(outcome.entries, store.issued)
      ensures Carries(outcome, store.issued)
    {
      if refusal.Some? || waitedFor || AnyBusy(current) {
        outcome, touched, seen := NotNow(root, now, refusal, unpinned, seenSoFar, start);
      } else {
        seen := seenSoFar;
        outcome, touched := WriteSettled(root, now, seen, second, current, unpinned, start);
      }
    }

    /**
     * Keeps a settle's snapshot until its Undo can no longer be pressed, and
     * no more than a few at a time: the oldest go first.
     */
    method RememberSettle(token: string, snapshot: SettleSnapshot, now: int)
      requires Valid() && EntriesCarry(snapshot.entries, store.issued)
      modifies this`settleUndos
      ensures Valid() && |settleUndos| <= MAX_SETTLE_UNDOS
      ensures Find(settleUndos, token) == Some(snapshot)
      ensures forall h :: h in settleUndos && h.token != token ==> h in old(settleUndos) && h.snapshot.expiresAt > now
      ensures settleUndos == SetHeld(Newest(Unexpired(old(settleUndos), now), MAX_SETTLE_UNDOS - 1), token, snapshot)
    {
      ghost var kept := Unexpired(settleUndos, now);
      UnexpiredOnce(settleUndos, now);
      UnexpiredAre(settleUndos, now);
      settleUndos := Unexpired(settleUndos, now);
      while |settleUndos| >= MAX_SETTLE_UNDOS
        invariant TokensOnce(settleUndos)
        invariant forall h :: h in settleUndos ==> h in kept
        invariant Newest(settleUndos, MAX_SETTLE_UNDOS - 1) == Newest(kept, MAX_SETTLE_UNDOS - 1)
      {
        settleUndos := settleUndos[1..];
      }
      SetHeldFinds(settleUndos, token, snapshot, token);
      SetHeldIs(settleUndos, token, snapshot);
      SetHeldOnce(settleUndos, token, snapshot);
      settleUndos := SetHeld(settleUndos, token, snapshot);
    }

    /**
     * Settles the thread's tree, or leaves a waiting settle where it is busy.
     * `now` is the time inside the change, `later` the time after it, and
     * `noted` says whether the reclaim that follows left a note.
     */
    method Settle(threadId: string, token: string, now: int, later: int, noted: bool)
      returns (outcome: SettleOutcome, touched: set<string>, ghost seen: Readings)
      requires Valid()
      modifies this, store, bb
      ensures Valid() && old(store.issued) <= store.issued
      ensures Covers(old(store.rows), store.rows, touched)
      ensures outcome in Outcomes(seen, threadId, now, old(store.rows), store.rows, old(bb.Log()), bb.Log(), old(lastSettleAt), lastSettleAt)
      ensures Carries(outcome, store.issued)
      ensures !outcome.SettledTree? ==> settleUndos == old(settleUndos)
      ensures outcome.SettledTree? ==> Find(settleUndos, token) == Some(SettleSnapshot(threadId, UndoUntil(later, noted), outcome.entries))
    {
      touched := {};
      ghost var start := bb.Log();
      var first, tree, refusal := ReadFirst(threadId);
      if refusal.Some? {
        outcome := NotSettled(refusal.value);
        seen := NO_READINGS.(course := if first.None? then Unanswered else RefusedFirst, first := first.GetOr([]));
        NoneTaken(store.rows);
      } else {
        outcome, touched, seen := SettleTree(threadId, now, first.value, tree, start);
        if outcome.SettledTree? {
          RememberSettle(token, SettleSnapshot(threadId, UndoUntil(later, noted), outcome.entries), later);
        }
      }
    }

    /** Reads the thread's tree and refuses where bb has no such thread or a question waits on or below it. */
    method ReadFirst(root: string) returns (first: Option<seq<Thread>>, tree: seq<Thread>, refusal: Option<Refusal>)
      modifies bb`threads, bb`failures, bb`answers
      ensures bb.answers == old(bb.answers) + [Listed(first, |bb.taken|)]
      ensures bb.failures == old(bb.failures) + if first.None? then 1 else 0
      ensures first.None? ==> refusal == Some(BbFailed)
      ensures first.Some? ==> UniqueIds(first.value) && refusal == FirstRefusal(first.value, root)
      ensures refusal.None? ==> IsTree(first.value, root, tree)
    {
      tree := [];
      first := bb.Snapshot();
      refusal := Some(BbFailed);
      if first.Some? {
        var byId := ById(first.value);
        VisibleIs(first.value);
        if root !in byId {
          refusal := Some(ThreadGone);
        } else {
          tree := ListedTree(first.value, root);
          var child := WaitingBelow(Visible(first.value), root);
          refusal :=
            if child.Some? then Some(ChildNeedsYou)
            else if byId[root].hasPendingInteraction then Some(NeedsYou)
            else None;
        }
      }
    }

    /** Undo of a settle, once, while its token is held. */
    method UndoSettle(threadId: string, token: string, now: int)
      returns (result: ActionResult, touched: set<string>, ghost listing: Option<seq<Thread>>, ghost pinned: seq<string>, ghost refused: set<string>)
      requires Valid()
      modifies this, store, bb
      ensures Valid() && old(store.issued) <= store.issued
      ensures Covers(old(store.rows), store.rows, touched)
      ensures settleUndos == Without(old(settleUndos), token) && lastSettleAt == old(lastSettleAt)
      ensures !Pressable(old(settleUndos), token, threadId, now) ==> result == Refused(UndoGone)
      ensures bb.answers == old(bb.answers) + if Pressable(old(settleUndos), token, threadId, now) then [Listed(listing, |old(bb.taken)|)] else []
      ensures Pressable(old(settleUndos), token, threadId, now) ==> (listing.None? <==> result == Refused(BbFailed)) && (listing.Some? <==> result.Done?)
      ensures result.Refused? ==> store.rows == old(store.rows) && bb.taken == old(bb.taken)
      ensures result.Done? ==> Pressable(old(settleUndos), token, threadId, now) && listing.Some?
      ensures result.Done? ==> SettleUndone(listing.value, Find(old(settleUndos), token).value.entries, old(store.rows), store.rows, result.changes, pinned, refused)
      ensures result.Done? ==> bb.taken == old(bb.taken) + Calls(pinned, true)
      ensures result.Done? ==> CarriesOnly(result.changes, store.issued)
      ensures bb.failures == old(bb.failures) ==> result != Refused(BbFailed) && refused == {}
    {
      touched, listing, pinned, refused := {}, None, [], {};
      ghost var undos := settleUndos;
      var held := Find(settleUndos, token);
      FindIn(settleUndos, token);
      WithoutAre(settleUndos, token);
      WithoutOnce(settleUndos, token);
      settleUndos := Without(settleUndos, token);
      if held.None? || held.value.threadId != threadId || held.value.expiresAt <= now {
        result := Refused(UndoGone);
      } else {
        var answer := bb.Snapshot();
        listing := answer;
        if answer.None? {
          result := Refused(BbFailed);
        } else {
          var changes;
          changes, touched, pinned, refused := PutBack(answer.value, held.value.entries);
          result := Done(changes);
        }
      }
    }

    /** Puts back the rows of the entries still as the settle left them, then pins again those it had unpinned. */
    method PutBack(listing: seq<Thread>, entries: seq<SettleEntry>)
      returns (changes: seq<Change>, touched: set<string>, ghost pinned: seq<string>, ghost refused: set<string>)
      requires Valid() && EntriesCarry(entries, store.issued)
      modifies store, bb
      ensures Valid() && old(store.issued) <= store.issued
      ensures Covers(old(store.rows), store.rows, touched)
      ensures bb.answers == old(bb.answers) && bb.taken == old(bb.taken) + Calls(pinned, true)
      ensures SettleUndone(listing, entries, old(store.rows), store.rows, changes, pinned, refused)
      ensures CarriesOnly(changes, store.issued)
      ensures bb.failures >= old(bb.failures) && (bb.failures == old(bb.failures) ==> refused == {})
    {
      ghost var rows := store.rows;
      var restoring, repin := [], [];
      for i := 0 to |entries|
        invariant restoring == Restoring(listing, rows, entries[..i])
        invariant repin == Repinning(listing, rows, entries[..i])
        invariant store.rows == rows && Valid() && store.issued == old(store.issued) && bb.Log() == old(bb.Log())
      {
        assert entries[..i + 1][..i] == entries[..i];
        if Restorable(listing, store.rows, entries[i]) {
          restoring := restoring + [Entry(entries[i].change.threadId, entries[i].change.before, false)];
          if entries[i].change.unpinned { repin := repin + [entries[i].change.threadId]; }
        }
      }
      assert entries[..|entries|] == entries;
      RestoringOk(listing, rows, entries, store.issued);
      RestoringIs(listing, rows, entries);
      changes, touched := Write(restoring);
      RestoringTells(rows, store.rows, touched, restoring);
      pinned, refused := PinAgain(repin);
      RepinningIs(listing, rows, entries);
    }

    method PinAgain(ids: seq<string>) returns (ghost pinned: seq<string>, ghost refused: set<string>)
      modifies bb`threads, bb`taken, bb`failures
      ensures bb.taken == old(bb.taken) + Calls(pinned, true)
      ensures forall id :: id in pinned ==> id in ids
      ensures forall id :: id in ids ==> id in pinned || id in refused
      ensures bb.failures >= old(bb.failures) && (bb.failures == old(bb.failures) ==> refused == {})
    {
      pinned, refused := [], {};
      for i := 0 to |ids|
        invariant bb.taken == old(bb.taken) + Calls(pinned, true)
        invariant forall id :: id in pinned ==> id in ids
        invariant forall k :: 0 <= k < i ==> ids[k] in pinned || ids[k] in refused
        invariant bb.failures >= old(bb.failures) && (bb.failures == old(bb.failures) ==> refused == {})
      {
        var done := bb.Pin(ids[i]);
        if done {
          OneMoreCall(pinned, ids[i], true);
          pinned := pinned + [ids[i]];
        } else {
          refused := refused + {ids[i]};
        }
      }
    }

    // ---- the other actions ----

    /** Snooze until a later time, at most a year away. */
    method Snooze(threadId: string, until: int, now: int)
      returns (result: ActionResult, touched: set<string>, ghost listing: Option<seq<Thread>>)
      requires Valid()
      modifies store, bb
      ensures Valid() && old(store.issued) <= store.issued
      ensures now < until <= now + MAX_SNOOZE_MS ==>
        SetsAside(result, touched, listing, threadId, SnoozedRow(until, now), old(store.rows), store.rows, old(bb.Log()), bb.Log(), store.issued)
      ensures !(now < until <= now + MAX_SNOOZE_MS) ==>
        result == Refused(SnoozeTime) && touched == {} && store.rows == old(store.rows) && bb.Log() == old(bb.Log())
    {
      if until <= now || until - now > MAX_SNOOZE_MS {
        result, touched, listing := Refused(SnoozeTime), {}, None;
      } else {
        result, touched, listing := SetAside(threadId, SnoozedRow(until, now));
      }
    }

    method Park(threadId: string, now: int) returns (result: ActionResult, touched: set<string>, ghost listing: Option<seq<Thread>>)
      requires Valid()
      modifies store, bb
      ensures Valid() && old(store.issued) <= store.issued
      ensures SetsAside(result, touched, listing, threadId, ParkedRow(now), old(store.rows), store.rows, old(bb.Log()), bb.Log(), store.issued)
    {
      result, touched, listing := SetAside(threadId, ParkedRow(now));
    }

    /** Snooze and Park: both refuse a busy thread, unpin it and write one mark. */
    method SetAside(threadId: string, row: Row) returns (result: ActionResult, touched: set<string>, ghost listing: Option<seq<Thread>>)
      requires Valid() && RowOk(row) && !IsEmptyRow(row)
      modifies store, bb
      ensures Valid() && old(store.issued) <= store.issued
      ensures SetsAside(result, touched, listing, threadId, row, old(store.rows), store.rows, old(bb.Log()), bb.Log(), store.issued)
    {
      touched := {};
      var snapshot, refusal := AskAside(threadId);
      listing := snapshot;
      if refusal.Some? {
        result := Refused(refusal.value);
      } else {
        result, touched := TakeAside(threadId, row, IsPinned(ById(snapshot.value)[threadId]));
      }
    }

    /** Reads bb and refuses a thread that is not there, is busy or has a question below it. */
    method AskAside(threadId: string) returns (listing: Option<seq<Thread>>, refusal: Option<Refusal>)
      modifies bb`threads, bb`failures, bb`answers
      ensures bb.answers == old(bb.answers) + [Listed(listing, |bb.taken|)]
      ensures bb.failures == old(bb.failures) + if listing.None? then 1 else 0
      ensures refusal == AsideRefusal(listing, threadId)
    {
      listing := bb.Snapshot();
      if NotThere(listing, threadId) {
        refusal := Some(WhyNotThere(listing));
      } else if IsBusy(ById(listing.value)[threadId]) {
        refusal := Some(Busy);
      } else {
        VisibleIs(listing.value);
        var child := WaitingBelow(Visible(listing.value), threadId);
        refusal := if child.Some? then Some(ChildNeedsYou) else None;
      }
    }

    /** Unpins the thread, if it is pinned, and writes its mark. */
    method TakeAside(threadId: string, row: Row, wasPinned: bool) returns (result: ActionResult, touched: set<string>)
      requires Valid() && RowOk(row) && !IsEmptyRow(row)
      modifies store, bb`threads, bb`taken, bb`failures
      ensures Valid() && old(store.issued) <= store.issued
      ensures result.Refused? ==> result.reason == BbFailed && wasPinned && bb.failures > old(bb.failures)
      ensures result.Refused? ==> store.rows == old(store.rows) && touched == {} && bb.taken == old(bb.taken)
      ensures result.Done? ==> store.rows == old(store.rows)[threadId := row] && Told(result.changes, touched, old(store.rows), store.rows, store.issued)
      ensures result.Done? ==> bb.taken == old(bb.taken) + if wasPinned then [PinCall(threadId, false)] else []
      ensures result.Done? && wasPinned ==> exists c :: c in result.changes && c.threadId == threadId && c.unpinned
    {
      touched := {};
      var done := true;
      if wasPinned { done := bb.Unpin(threadId); }
      if !done {
        result := Refused(BbFailed);
      } else {
        ghost var before := store.rows;
        var changes;
        changes, touched := Write([Entry(threadId, Some(row), wasPinned)]);
        OneWrite(before, touched, threadId, Some(row), wasPinned);
        result := Done(changes);
      }
    }

    /** Ends a snooze; nothing for a thread that is not snoozed. */
    method WakeNow(threadId: string) returns (result: ActionResult, touched: set<string>)
      requires Valid()
      modifies store
      ensures Valid() && old(store.issued) <= store.issued
      ensures result.Done? && Told(result.changes, touched, old(store.rows), store.rows, store.issued)
      ensures store.rows == if IsSnoozed(Get(old(store.rows), threadId)) then old(store.rows) - {threadId} else old(store.rows)
    {
      var row := store.RowOf(threadId);
      if IsSnoozed(row) {
        result, touched := WriteOne(threadId, None);
      } else {
        result, touched := Done([]), {};
      }
    }

    method Resume(threadId: string) returns (result: ActionResult, touched: set<string>, ghost listing: Option<seq<Thread>>)
      requires Valid()
      modifies store, bb`threads, bb`failures, bb`answers
      ensures Valid() && old(store.issued) <= store.issued
      ensures bb.answers == old(bb.answers) + [Listed(listing, |bb.taken|)]
      ensures bb.failures == old(bb.failures) + if listing.None? then 1 else 0
      ensures NotThere(listing, threadId) ==> result == Refused(WhyNotThere(listing)) && store.rows == old(store.rows) && touched == {}
      ensures !NotThere(listing, threadId) ==>
        result.Done? && store.rows == old(store.rows)[threadId := ActiveRow()] && Told(result.changes, touched, old(store.rows), store.rows, store.issued)
    {
      touched := {};
      var snapshot := bb.Snapshot();
      listing := snapshot;
      if NotThere(snapshot, threadId) {
        result := Refused(WhyNotThere(snapshot));
      } else {
        result, touched := WriteOne(threadId, Some(ActiveRow()));
      }
    }

    /** Ends the thread's waiting settle, giving back the row it had before. */
    method CancelSettle(threadId: string) returns (result: ActionResult, touched: set<string>)
      requires Valid()
      modifies store
      ensures Valid() && old(store.issued) <= store.issued
      ensures result.Done? && Told(result.changes, touched, old(store.rows), store.rows, store.issued)
      ensures !IsWaitingSettle(Get(old(store.rows), threadId)) ==> store.rows == old(store.rows)
      ensures IsWaitingSettle(Get(old(store.rows), threadId)) ==> WaitEnded(old(store.rows), store.rows, threadId)
    {
      var row := store.RowOf(threadId);
      if IsWaitingSettle(row) {
        result, touched := WriteOne(threadId, WithoutWaitingSettle(row.value));
      } else {
        result, touched := Done([]), {};
      }
    }

    /** Writes one row. */
    method WriteOne(threadId: string, row: Option<Row>) returns (result: ActionResult, touched: set<string>)
      requires Valid() && (row.Some? ==> RowOk(row.value))
      modifies store
      ensures Valid() && old(store.issued) <= store.issued
      ensures store.rows == PutOne(old(store.rows), threadId, row)
      ensures result.Done? && Told(result.changes, touched, old(store.rows), store.rows, store.issued)
    {
      ghost var before := store.rows;
      var changes;
      changes, touched := Write([Entry(threadId, row, false)]);
      OneWrite(before, touched, threadId, row, false);
      result := Done(changes);
    }

    /** Makes the thread active and reopens what hides it: settled threads below it and marked ones above. */
    method Unsettle(threadId: string) returns (result: ActionResult, touched: set<string>, ghost listing: Option<seq<Thread>>)
      requires Valid()
      modifies store, bb`threads, bb`failures, bb`answers
      ensures Valid() && old(store.issued) <= store.issued
      ensures bb.answers == old(bb.answers) + [Listed(listing, |bb.taken|)]
      ensures bb.failures == old(bb.failures) + if listing.None? then 1 else 0
      ensures NotThere(listing, threadId) ==> result == Refused(WhyNotThere(listing)) && store.rows == old(store.rows) && touched == {}
      ensures !NotThere(listing, threadId) ==>
        result.Done? && Unsettled(listing.value, threadId, old(store.rows), store.rows) && Told(result.changes, touched, old(store.rows), store.rows, store.issued)
    {
      touched := {};
      var snapshot := bb.Snapshot();
      listing := snapshot;
      if NotThere(snapshot, threadId) {
        result := Refused(WhyNotThere(snapshot));
      } else {
        ghost var before := store.rows;
        var below := DescendantIds(snapshot.value, threadId);
        var above := AncestorIds(ById(snapshot.value), threadId);
        var entries := UnsettleEntries(store.rows, threadId, below, above);
        WalksAreDual(snapshot.value, threadId, threadId);
        UnsettleEntriesAre(before, threadId, below, above);
        var changes;
        changes, touched := Write(entries);
        PlainChangesTell(touched, before, store.rows, entries);
        UnsettledByEntries(before, snapshot.value, threadId, below);
        result := Done(changes);
      }
    }

    /**
     * Undo of the changes an action reported: puts each row back that is
     * still as the action left it, then pins again. The rows stay written
     * when bb then cannot list its threads.
     */
    method UndoLifecycle(changes: seq<Change>, now: int)
      returns (result: ActionResult, touched: set<string>, skipped: seq<Skipped>, ghost listing: Option<seq<Thread>>, ghost pinned: seq<string>, ghost refused: set<string>)
      requires Valid() && CarriesOnly(changes, store.issued)
      modifies store, bb
      ensures Valid() && old(store.issued) <= store.issued
      ensures Covers(old(store.rows), store.rows, touched)
      ensures store.rows == AfterUndoOf(old(store.rows), changes, now)
      ensures skipped == SkippedOf(old(store.rows), changes, now)
      ensures bb.answers == old(bb.answers) + if Repins(old(store.rows), changes, now) != [] then [Listed(listing, |old(bb.taken)|)] else []
      ensures result.Refused? <==> Repins(old(store.rows), changes, now) != [] && listing.None?
      ensures bb.taken == old(bb.taken) + Calls(pinned, true)
      ensures listing.None? ==> pinned == []
      ensures listing.Some? ==> forall id :: id in pinned ==> id in Unpinned(listing.value, Repins(old(store.rows), changes, now))
      ensures listing.Some? ==> forall id :: id in Unpinned(listing.value, Repins(old(store.rows), changes, now)) ==> id in pinned || id in refused
      ensures result.Done? ==> CarriesOnly(result.changes, store.issued)
      ensures result.Done? ==> result.changes == ChangesOf(touched, old(store.rows), store.rows, Undoing(old(store.rows), changes, now))
      ensures bb.failures == old(bb.failures) ==> result.Done? && refused == {}
      ensures listing.None? && Repins(old(store.rows), changes, now) != [] ==> bb.failures > old(bb.failures)
    {
      ghost var rows := store.rows;
      var restoring, repin := [], [];
      skipped, listing, pinned, refused := [], None, [], {};
      for i := 0 to |changes|
        invariant restoring == Undoing(rows, changes[..i], now)
        invariant repin == Repins(rows, changes[..i], now)
        invariant skipped == SkippedOf(rows, changes[..i], now)
      {
        assert changes[..i + 1][..i] == changes[..i];
        match WhySkip(store.rows, changes[i], now)
        case Some(why) =>
          skipped := skipped + [Skipped(changes[i].threadId, why)];
        case None =>
          restoring := restoring + [Entry(changes[i].threadId, changes[i].before, false)];
          if changes[i].unpinned { repin := repin + [changes[i].threadId]; }
      }
      assert changes[..|changes|] == changes;
      UndoingOk(rows, changes, now, store.issued);
      var written;
      written, touched := Write(restoring);
      result := Done(written);
      if repin != [] {
        var snapshot := bb.Snapshot();
        listing := snapshot;
        if snapshot.None? {
          result := Refused(BbFailed);
        } else {
          pinned, refused := PinAgain(Unpinned(snapshot.value, repin));
        }
      }
    }

    /** Clears the row of a thread whose Woke marker is up. */
    method DismissWoke(threadId: string, now: int) returns (result: ActionResult, touched: set<string>, ghost listing: Option<seq<Thread>>)
      requires Valid()
      modifies store, bb`threads, bb`failures, bb`answers
      ensures Valid() && old(store.issued) <= store.issued
      ensures bb.answers == old(bb.answers) + if Get(old(store.rows), threadId).Some? then [Listed(listing, |bb.taken|)] else []
      ensures Get(old(store.rows), threadId).None? ==> listing == Some([])
      ensures bb.failures == old(bb.failures) + if listing.None? then 1 else 0
      ensures listing.None? ==> result == Refused(BbFailed) && store.rows == old(store.rows) && touched == {}
      ensures listing.Some? ==> result.Done? && Told(result.changes, touched, old(store.rows), store.rows, store.issued)
      ensures store.rows == if IsWoke(Get(old(store.rows), threadId), listing, threadId, now) then old(store.rows) - {threadId} else old(store.rows)
    {
      result, touched, listing := Done([]), {}, Some([]);
      var row := store.RowOf(threadId);
      if row.Some? {
        var snapshot := bb.Snapshot();
        listing := snapshot;
        if snapshot.None? {
          result := Refused(BbFailed);
        } else if IsWoke(row, snapshot, threadId, now) {
          result, touched := WriteOne(threadId, None);
        }
      }
    }

    /** Clears the row of a pinned thread, unless it only waits and the pin is older than the wait. */
    method ClearPinned(threadId: string) returns (result: ActionResult, touched: set<string>, ghost listing: Option<seq<Thread>>)
      requires Valid()
      modifies store, bb`threads, bb`failures, bb`answers
      ensures Valid() && old(store.issued) <= store.issued
      ensures bb.answers == old(bb.answers) + if Get(old(store.rows), threadId).Some? then [Listed(listing, |bb.taken|)] else []
      ensures Get(old(store.rows), threadId).None? ==> listing == Some([])
      ensures bb.failures == old(bb.failures) + if listing.None? then 1 else 0
      ensures listing.None? ==> result == Refused(BbFailed) && store.rows == old(store.rows) && touched == {}
      ensures listing.Some? ==> result.Done? && Told(result.changes, touched, old(store.rows), store.rows, store.issued)
      ensures store.rows == if PinClears(Get(old(store.rows), threadId), listing, threadId) then old(store.rows) - {threadId} else old(store.rows)
    {
      result, touched, listing := Done([]), {}, Some([]);
      var row := store.RowOf(threadId);
      if row.Some? {
        var snapshot := bb.Snapshot();
        listing := snapshot;
        if snapshot.None? {
          result := Refused(BbFailed);
        } else if PinClears(row, snapshot, threadId) {
          result, touched := WriteOne(threadId, None);
        }
      }
    }
  }
}
