/** What the actions write, put back and refuse, and what each shelf holds, in the fields of rows and of bb's threads. */
module ActionLaws {
  import opened Common
  import opened Threads
  import opened ThreadTree
  import opened Lifecycle
  import opened LifecycleStore
  import opened Bb
  import opened Actions
  import opened Settling
  import opened SettleUndos
  import opened SettleSpec
  import opened LifecycleActions

  // ---- rows and threads, by their fields ----

  ghost predicate IsBlank(row: Row) { row == Row(None, None, None, None, None, false, None, None) }

  /** The same row, where no row and one with nothing in it are the same. */
  ghost predicate ReadsAlike(a: Option<Row>, b: Option<Row>) {
    a == b || ((a.Some? ==> IsBlank(a.value)) && (b.Some? ==> IsBlank(b.value)))
  }

  lemma AlikeIs(a: Option<Row>, b: Option<Row>)
    ensures SameRow(a, b) <==> ReadsAlike(a, b)
  {
  }

  /** bb lists the thread, and it is thus. */
  ghost predicate IsListedAs(listing: seq<Thread>, id: string, thus: Thread -> bool) { exists t :: t in listing && t.id == id && thus(t) }

  lemma ListedIs(listing: seq<Thread>, id: string, thus: Thread -> bool)
    requires UniqueIds(listing)
    ensures IsListedAs(listing, id, thus) <==> id in ById(listing) && thus(ById(listing)[id])
  {
    ByIdFinds(listing);
    if t :| t in listing && t.id == id && thus(t) {
      var i :| 0 <= i < |listing| && listing[i] == t;
    }
  }

  lemma RestIs(t: Thread)
    ensures IsBusy(t) <==> !AtRest(t)
  {
  }

  /** Attention after the mark that was not set aside. */
  ghost predicate Since(t: Thread, row: Row, at: Option<int>) {
    at.Some? && t.latestAttentionAt > at.value && (row.heldAttentionAt.Some? ==> t.latestAttentionAt > row.heldAttentionAt.value)
  }

  // ---- Settle ----

  /** The thread is as the first reading had it: under its parent, and, where the settle did not wait from the start, not pinned and with no attention since. */
  ghost predicate IsAsBefore(first: seq<Thread>, t: Thread, waitedFor: bool) {
    IsListedAs(first, t.id, (was: Thread) => was.parentThreadId == t.parentThreadId && (!waitedFor ==> t.pinnedAt == None && t.latestAttentionAt <= was.latestAttentionAt))
  }

  /** A thread counts as unchanged between two readings exactly when bb and its row say so. */
  lemma UnchangedIff(first: seq<Thread>, before: Rows, rows: Rows, t: Thread, waitedFor: bool)
    requires UniqueIds(first)
    ensures Settling.Unchanged(ById(first), before, rows, t, waitedFor)
      <==> IsAsBefore(first, t, waitedFor) && ReadsAlike(Get(rows, t.id), Get(before, t.id))
  {
    AlikeIs(Get(rows, t.id), Get(before, t.id));
    ListedIs(first, t.id, (was: Thread) => was.parentThreadId == t.parentThreadId && (!waitedFor ==> t.pinnedAt == None && t.latestAttentionAt <= was.latestAttentionAt));
  }

  /** The second reading refuses for a change exactly when the tree has another size or some thread of it is not as before. */
  lemma RefusesForAChangeIff(first: seq<Thread>, tree: seq<Thread>, rows: Rows, second: seq<Thread>, current: seq<Thread>, root: string, waitedFor: bool)
    requires UniqueIds(first)
    ensures SecondRefusal(first, tree, rows, second, current, root, waitedFor) == Some(TreeChanged)
      <==> |current| != |tree| || exists t :: t in current && !IsAsBefore(first, t, waitedFor)
  {
    forall t ensures Settling.Unchanged(ById(first), rows, rows, t, waitedFor) <==> IsAsBefore(first, t, waitedFor) {
      UnchangedIff(first, rows, rows, t, waitedFor);
    }
  }

  /** What a Settle that is done writes: each thread of the tree settled by hand and nothing else, and no other row. */
  lemma SettleWrites(outcome: SettleOutcome, seen: Readings, root: string, now: int, before: Rows, after: Rows,
                     bbBefore: BbLog, bb: BbLog, lastBefore: int, last: int, id: string)
    requires outcome in Outcomes(seen, root, now, before, after, bbBefore, bb, lastBefore, last) && outcome.SettledTree?
    ensures last == (if lastBefore < now then now else lastBefore + 1)
    ensures Get(after, id) == if id in Tree(seen.second, root) then Some(Row(Some(last), Some(Manual), None, None, None, false, None, None)) else Get(before, id)
  {
  }

  /** Every thread that a Settle settles was at rest in the second reading. */
  lemma SettledWereAtRest(outcome: SettleOutcome, seen: Readings, root: string, now: int, before: Rows, after: Rows,
                          bbBefore: BbLog, bb: BbLog, lastBefore: int, last: int, t: Thread)
    requires outcome in Outcomes(seen, root, now, before, after, bbBefore, bb, lastBefore, last) && outcome.SettledTree? && t in seen.current
    ensures AtRest(t) && IsAsBefore(seen.first, t, false)
  {
    RestIs(t);
    UnchangedIff(seen.first, before, before, t, false);
  }

  /** What a Settle left waiting writes: the time in the thread's own row, whose other fields stay. */
  lemma WaitWrites(outcome: SettleOutcome, seen: Readings, root: string, now: int, before: Rows, after: Rows,
                   bbBefore: BbLog, bb: BbLog, lastBefore: int, last: int, id: string)
    requires outcome in Outcomes(seen, root, now, before, after, bbBefore, bb, lastBefore, last) && outcome.LeftWaiting?
    ensures id != root ==> Get(after, id) == Get(before, id)
    ensures root in after
      && var was := if root in before then before[root] else Row(None, None, None, None, None, false, None, None);
         after[root] == Row(was.settledAt, was.settledKind, was.parkedAt, was.snoozeUntil, was.snoozedAt, was.activeOverride, was.heldAttentionAt, Some(now))
  {
  }

  /** A pin goes back to a thread bb lists unpinned under its old parent, with its row as it was. */
  lemma CanRepinIff(listing: seq<Thread>, rows: Rows, rowsBefore: Rows, original: Thread)
    requires UniqueIds(listing)
    ensures CanRepin(listing, rows, rowsBefore, original)
      <==> ReadsAlike(Get(rows, original.id), Get(rowsBefore, original.id))
           && IsListedAs(listing, original.id, (t: Thread) => t.pinnedAt == None && t.parentThreadId == original.parentThreadId)
  {
    AlikeIs(Get(rows, original.id), Get(rowsBefore, original.id));
    ListedIs(listing, original.id, (t: Thread) => t.pinnedAt == None && t.parentThreadId == original.parentThreadId);
  }

  // ---- Undo of a Settle ----

  /** Undo puts back the row of a thread bb lists at rest, unpinned and under its old parent, whose row is still the settle's. */
  lemma RestorableIff(listing: seq<Thread>, rows: Rows, entry: SettleEntry)
    requires UniqueIds(listing)
    ensures Restorable(listing, rows, entry)
      <==> ReadsAlike(Get(rows, entry.change.threadId), entry.change.after)
           && IsListedAs(listing, entry.change.threadId, (t: Thread) => t.parentThreadId == entry.parentThreadId && t.pinnedAt == None && AtRest(t))
  {
    AlikeIs(Get(rows, entry.change.threadId), entry.change.after);
    ListedIs(listing, entry.change.threadId, (t: Thread) => t.parentThreadId == entry.parentThreadId && t.pinnedAt == None && AtRest(t));
    if entry.change.threadId in ById(listing) { RestIs(ById(listing)[entry.change.threadId]); }
  }

  /** What it means that nothing changed since a Settle: bb lists the thread at rest, unpinned and under the same parent. */
  lemma LeftAloneIff(listing: seq<Thread>, was: Thread)
    requires UniqueIds(listing)
    ensures LeftAlone(listing, was)
      <==> IsListedAs(listing, was.id, (t: Thread) => t.parentThreadId == was.parentThreadId && t.pinnedAt == None && AtRest(t))
  {
    ListedIs(listing, was.id, (t: Thread) => t.parentThreadId == was.parentThreadId && t.pinnedAt == None && AtRest(t));
    if was.id in ById(listing) { RestIs(ById(listing)[was.id]); }
  }

  /** Undo can be pressed for four seconds, or for ten beside a note, and three more. */
  lemma UndoLasts(undos: seq<Held>, token: string, threadId: string, entries: seq<SettleEntry>, later: int, noted: bool, now: int)
    requires Find(undos, token) == Some(SettleSnapshot(threadId, UndoUntil(later, noted), entries))
    ensures Pressable(undos, token, threadId, now) <==> now < later + if noted then 13_000 else 7_000
    ensures forall other :: Pressable(undos, token, other, now) ==> other == threadId
  {
  }

  /** The snapshot found is the first one held under the token. */
  lemma {:induction false} FindsFirst(undos: seq<Held>, token: string)
    ensures Find(undos, token).None? <==> forall i :: 0 <= i < |undos| ==> undos[i].token != token
    ensures Find(undos, token).Some? ==> exists i :: IsFirstHeld(undos, token, i) && undos[i].snapshot == Find(undos, token).value
  {
    if undos != [] {
      if undos[0].token == token {
        assert IsFirstHeld(undos, token, 0);
      } else {
        var rest := undos[1..];
        FindsFirst(rest, token);
        assert forall i :: 0 <= i < |rest| ==> rest[i] == undos[i + 1];
        if Find(rest, token).Some? {
          var i :| IsFirstHeld(rest, token, i) && rest[i].snapshot == Find(rest, token).value;
          HeldLater(undos, token, i);
        }
      }
    }
  }

  ghost predicate IsFirstHeld(undos: seq<Held>, token: string, i: int) {
    0 <= i < |undos| && undos[i].token == token && forall j :: 0 <= j < i ==> undos[j].token != token
  }

  lemma HeldLater(undos: seq<Held>, token: string, i: int)
    requires undos != [] && undos[0].token != token && IsFirstHeld(undos[1..], token, i)
    ensures IsFirstHeld(undos, token, i + 1)
  {
    forall j | 0 <= j < i + 1 ensures undos[j].token != token {
      if j > 0 { assert undos[j] == undos[1..][j - 1]; }
    }
  }

  // ---- Undo of other actions ----

  /** A change is undone when its row is still the one the action left, and no snooze would come back that has ended. */
  lemma UndoneIff(rows: Rows, change: Change, now: int)
    ensures WhySkip(rows, change, now) == None
      <==> ReadsAlike(Get(rows, change.threadId), change.after)
           && !(change.before.Some? && change.before.value.snoozeUntil.Some? && change.before.value.snoozeUntil.value <= now)
    ensures WhySkip(rows, change, now) == Some(ItChangedSince) <==> !ReadsAlike(Get(rows, change.threadId), change.after)
  {
    AlikeIs(Get(rows, change.threadId), change.after);
  }

  lemma {:induction false} SkipsAre(rows: Rows, changes: seq<Change>, now: int)
    ensures forall s :: s in SkippedOf(rows, changes, now) <==> exists c :: c in changes && WhySkip(rows, c, now) == Some(s.reason) && c.threadId == s.threadId
    ensures forall id :: id in Repins(rows, changes, now) <==> exists c :: c in changes && WhySkip(rows, c, now) == None && c.unpinned && c.threadId == id
  {
    if changes != [] {
      var n := |changes| - 1;
      SkipsAre(rows, changes[..n], now);
      assert changes == changes[..n] + [changes[n]];
    }
  }

  lemma {:induction false} UnpinnedAre(listing: seq<Thread>, ids: seq<string>)
    requires UniqueIds(listing)
    ensures forall id :: id in Unpinned(listing, ids) <==> id in ids && IsListedAs(listing, id, (t: Thread) => t.pinnedAt == None)
  {
    if ids != [] {
      var n := |ids| - 1;
      UnpinnedAre(listing, ids[..n]);
      ListedIs(listing, ids[n], (t: Thread) => t.pinnedAt == None);
      assert ids == ids[..n] + [ids[n]];
    }
  }

  // ---- the other actions ----

  /** An action on a thread is refused at once exactly when bb gave no listing, which is bb's failure, or lists no such thread, which is gone. */
  lemma NotThereIff(listing: Option<seq<Thread>>, threadId: string)
    ensures NotThere(listing, threadId) <==> listing.None? || forall t :: t in listing.value ==> t.id != threadId
    ensures WhyNotThere(listing) == if listing == None then BbFailed else ThreadGone
  {
  }

  /** A visible thread strictly below, along visible ones, asks the user. */
  ghost predicate AsksBelow(listing: seq<Thread>, id: string) {
    exists t :: t in Visible(listing) && t.hasPendingInteraction && t.id != id && Below(Visible(listing), id, t.id)
  }

  lemma ChildAsksIff(listing: seq<Thread>, id: string)
    ensures ChildAsks(listing, id) <==> AsksBelow(listing, id)
  {
    forall t ensures t in Descendants(Visible(listing), id) <==> t != id && Below(Visible(listing), id, t) { InDescendants(Visible(listing), id, t); }
  }

  /** Why Snooze and Park are refused, in the order asked: bb or the thread is not there, it is not at rest, or a question waits below. */
  lemma AsideRefusedIff(listing: seq<Thread>, t: Thread)
    requires UniqueIds(listing) && t in listing
    ensures AsideRefusal(Some(listing), t.id) == if !AtRest(t) then Some(Busy) else if AsksBelow(listing, t.id) then Some(ChildNeedsYou) else None
  {
    ByIdFinds(listing);
    RestIs(t);
    ChildAsksIff(listing, t.id);
  }

  /** Snooze and Park, where they are done: that one mark, and no other row moved; and the thread was at rest with nobody asking below. */
  lemma AsideWrites(result: ActionResult, touched: set<string>, listing: Option<seq<Thread>>, threadId: string, row: Row,
                    before: Rows, after: Rows, bbBefore: BbLog, bb: BbLog, issued: set<Row>, until: int, now: int, id: string)
    requires SetsAside(result, touched, listing, threadId, row, before, after, bbBefore, bb, issued) && result.Done?
    requires listing.Some? ==> UniqueIds(listing.value)
    ensures listing.Some? && IsListedAs(listing.value, threadId, (t: Thread) => AtRest(t))
    ensures row == SnoozedRow(until, now) ==> after[threadId] == Row(None, None, None, Some(until), Some(now), false, None, None)
    ensures row == ParkedRow(now) ==> after[threadId] == Row(None, None, Some(now), None, None, false, None, None)
    ensures id != threadId ==> Get(after, id) == Get(before, id)
  {
    ListedIs(listing.value, threadId, (t: Thread) => AtRest(t));
    RestIs(ById(listing.value)[threadId]);
  }

  /** Resume leaves the thread active with nothing else in its row, and no other row moved. */
  lemma ResumeWrites(before: Rows, after: Rows, threadId: string, id: string)
    requires after == before[threadId := ActiveRow()]
    ensures Get(after, id) == if id == threadId then Some(Row(None, None, None, None, None, true, None, None)) else Get(before, id)
  {
  }

  ghost predicate HasAnyMark(row: Row) { row.parkedAt.Some? || row.snoozeUntil.Some? || row.settledAt.Some? }

  /** Unsettle leaves the thread active and gives the rules back the settled threads below and those with a mark above. */
  lemma UnsettleWrites(listing: seq<Thread>, threadId: string, before: Rows, after: Rows, id: string)
    requires Unsettled(listing, threadId, before, after) && id != threadId
    ensures threadId in after && after[threadId] == Row(None, None, None, None, None, true, None, None)
    ensures id in before && id in Descendants(listing, threadId) && before[id].settledAt.Some? ==> id !in after
    ensures id in before && threadId in Descendants(listing, id) && HasAnyMark(before[id]) ==> id !in after
    ensures id !in before ==> id !in after
    ensures id in before && !(id in Descendants(listing, threadId) && before[id].settledAt.Some?) && !(threadId in Descendants(listing, id) && HasAnyMark(before[id])) ==>
      id in after && after[id] == before[id]
  {
    assert Get(after, id) == if Reopens(listing, threadId, before, id) then None else Get(before, id);
  }

  /** Cancelling a wait leaves the rest of the row, and no row when there was no more in it. */
  lemma CancelWrites(before: Rows, after: Rows, threadId: string, id: string)
    requires threadId in before && before[threadId].waitingSettleAt.Some? && WaitEnded(before, after, threadId)
    ensures id != threadId ==> Get(after, id) == Get(before, id)
    ensures var was := before[threadId];
      if was.settledAt.Some? || was.parkedAt.Some? || was.snoozeUntil.Some? || was.snoozedAt.Some? || was.activeOverride
      then Get(after, threadId) == Some(Row(was.settledAt, was.settledKind, was.parkedAt, was.snoozeUntil, was.snoozedAt, was.activeOverride, was.heldAttentionAt, None))
      else threadId !in after
  {
  }

  /** A snooze is over by its time, by attention since, or, on the shelf, by a question below. */
  lemma WokenIff(row: Option<Row>, t: Thread, now: int, lifted: bool)
    ensures Wake(row, t.latestAttentionAt, now, lifted).Some?
      <==> row.Some? && row.value.snoozeUntil.Some? && (Since(t, row.value, row.value.snoozedAt) || row.value.snoozeUntil.value <= now || lifted)
  {
  }

  /** Dismissing clears the row of a thread whose snooze its time or attention ended. */
  lemma DismissesIff(row: Option<Row>, listing: Option<seq<Thread>>, threadId: string, now: int)
    requires listing.Some? ==> UniqueIds(listing.value)
    ensures IsWoke(row, listing, threadId, now)
      <==> listing.Some? && row.Some? && row.value.snoozeUntil.Some?
           && IsListedAs(listing.value, threadId, (t: Thread) => Since(t, row.value, row.value.snoozedAt) || row.value.snoozeUntil.value <= now)
  {
    if listing.Some? && row.Some? && row.value.snoozeUntil.Some? {
      ListedIs(listing.value, threadId, (t: Thread) => Since(t, row.value, row.value.snoozedAt) || row.value.snoozeUntil.value <= now);
      if threadId in ById(listing.value) { WokenIff(row, ById(listing.value)[threadId], now, false); }
    }
  }

  /** A pin clears a row, unless a settle has waited in it since the pin or later. */
  lemma PinClearsIff(row: Option<Row>, listing: Option<seq<Thread>>, threadId: string)
    requires listing.Some? ==> UniqueIds(listing.value)
    ensures PinClears(row, listing, threadId)
      <==> listing.Some? && row.Some?
           && IsListedAs(listing.value, threadId, (t: Thread) => t.pinnedAt.Some? && (row.value.waitingSettleAt.Some? ==> row.value.waitingSettleAt.value < t.pinnedAt.value))
  {
    if listing.Some? && row.Some? {
      ListedIs(listing.value, threadId, (t: Thread) => t.pinnedAt.Some? && (row.value.waitingSettleAt.Some? ==> row.value.waitingSettleAt.value < t.pinnedAt.value));
    }
  }

  // ---- shelves ----

  /** A mark hides its thread: no question lifts it, it is at rest, and no attention came after the mark. */
  ghost predicate Hides(row: Option<Row>, t: Thread, at: Option<int>, lifted: bool) {
    row.Some? && !lifted && AtRest(t) && at.Some? && !Since(t, row.value, at)
  }

  ghost predicate ShownAsParked(row: Option<Row>, t: Thread, lifted: bool) { row.Some? && Hides(row, t, row.value.parkedAt, lifted) }

  ghost predicate ShownAsSnoozed(row: Option<Row>, t: Thread, now: int, lifted: bool) {
    row.Some? && !lifted && AtRest(t) && row.value.snoozeUntil.Some? && now < row.value.snoozeUntil.value && !Since(t, row.value, row.value.snoozedAt)
  }

  ghost predicate ShownAsSettled(row: Option<Row>, t: Thread, lifted: bool) { row.Some? && Hides(row, t, row.value.settledAt, lifted) }

  /** A snooze that is over still keeps its thread out of the shelves for work and for rest. */
  ghost predicate HasWoken(row: Option<Row>, t: Thread, now: int, lifted: bool) {
    row.Some? && row.value.snoozeUntil.Some? && (Since(t, row.value, row.value.snoozedAt) || row.value.snoozeUntil.value <= now || lifted)
  }

  ghost predicate LongQuiet(t: Thread, before: int) { t.createdAt <= before && t.updatedAt <= before && t.latestAttentionAt <= before }

  /** Which shelf a thread is on, for every row the store can hold. */
  lemma ShelfIs(row: Option<Row>, t: Thread, o: ShelfOptions)
    requires row.Some? ==> RowOk(row.value)
    ensures ShelfOf(row, t, o) ==
      if t.pinnedAt.Some? then Pinned
      else if ShownAsParked(row, t, o.lifted) then Parked
      else if ShownAsSnoozed(row, t, o.now, o.lifted) then Snoozed
      else if ShownAsSettled(row, t, o.lifted) then Settled
      else if o.workingShelf && o.treeWorking && !o.treeNeedsYou && !o.lifted && !HasWoken(row, t, o.now, o.lifted) then Working
      else if o.inactiveShelf && !o.lifted && AtRest(t) && !HasWoken(row, t, o.now, o.lifted) && LongQuiet(t, o.now - o.inactiveAfter) then Inactive
      else ActiveShelf
  {
    RestIs(t);
  }
}
