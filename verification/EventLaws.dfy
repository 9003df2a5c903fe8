/** Which rows an event leaves and what it puts in their fields, and when a question holds a mark. */
module EventLaws {
  import opened Common
  import opened Threads
  import opened ThreadTree
  import opened Lifecycle
  import opened LifecycleStore
  import opened Bb
  import opened ThreadEvents

  // ---- one row ----

  /** Parked, snoozed or settled. */
  ghost predicate IsMarked(row: Option<Row>) {
    row.Some? && (row.value.parkedAt != None || row.value.snoozeUntil != None || row.value.settledAt != None)
  }

  /** What is left of a row without mark and override: its waiting settle, with the attention held back, or no row. */
  ghost predicate OnlyWaits(row: Option<Row>, waitingSettleAt: Option<int>, heldAttentionAt: Option<int>) {
    if waitingSettleAt == None then row == None
    else row == Some(Row(None, None, None, None, None, false, heldAttentionAt, waitingSettleAt))
  }

  /** A mark that is reopened goes, and of the row only its waiting settle stays. */
  ghost predicate IsReopened(was: Option<Row>, now: Option<Row>) {
    if IsMarked(was) then OnlyWaits(now, was.value.waitingSettleAt, None) else now == was
  }

  /** Attention came after this time and was not set aside. */
  ghost predicate CameAfter(latest: int, at: Option<int>, heldAttentionAt: Option<int>) {
    at.Some? && latest > at.value && (heldAttentionAt.Some? ==> latest > heldAttentionAt.value)
  }

  /** A parked or settled mark that attention came after. */
  ghost predicate IsOutOfDate(row: Option<Row>, latest: int) {
    row.Some? && (CameAfter(latest, row.value.parkedAt, row.value.heldAttentionAt) || CameAfter(latest, row.value.settledAt, row.value.heldAttentionAt))
  }

  ghost predicate IsCleared(was: Option<Row>, now: Option<Row>, latest: int) {
    if IsOutOfDate(was, latest) then OnlyWaits(now, was.value.waitingSettleAt, was.value.heldAttentionAt) else now == was
  }

  /** The row is as it was, but attention that came after its mark is set aside. */
  ghost predicate IsSetAside(was: Option<Row>, now: Option<Row>, latest: int) {
    && was.Some? && now.Some?
    && now.value.settledAt == was.value.settledAt && now.value.settledKind == was.value.settledKind
    && now.value.parkedAt == was.value.parkedAt && now.value.snoozeUntil == was.value.snoozeUntil
    && now.value.snoozedAt == was.value.snoozedAt && now.value.activeOverride == was.value.activeOverride
    && now.value.waitingSettleAt == was.value.waitingSettleAt
    && now.value.heldAttentionAt == if IsPassed(was.value, latest) then Some(latest) else was.value.heldAttentionAt
  }

  ghost predicate IsPassed(row: Row, latest: int) {
    || CameAfter(latest, row.parkedAt, row.heldAttentionAt)
    || CameAfter(latest, row.settledAt, row.heldAttentionAt)
    || CameAfter(latest, row.snoozedAt, row.heldAttentionAt)
  }

  ghost predicate IsOverridden(row: Option<Row>) { row.Some? && row.value.activeOverride }

  lemma ReopenedRow(row: Option<Row>)
    ensures IsReopened(row, Reopened(row))
  {
  }

  lemma ClearedRow(row: Option<Row>, latest: int)
    requires row.Some? ==> RowOk(row.value) && !IsEmptyRow(row.value)
    ensures IsCleared(row, Cleared(row, Some(latest)), latest)
  {
  }

  lemma SetAsideRow(row: Row, latest: int)
    requires RowOk(row)
    ensures IsSetAside(Some(row), Some(HoldAttention(row, latest)), latest)
  {
  }

  lemma OverrideEndedRow(row: Option<Row>)
    requires row.Some? ==> RowOk(row.value)
    ensures if IsOverridden(row) then OnlyWaits(OverrideEnded(row), row.value.waitingSettleAt, row.value.heldAttentionAt) else OverrideEnded(row) == row
  {
  }

  // ---- what a question holds ----

  /** A thread strictly below this one asks the user something. */
  ghost predicate IsAskedBelow(visible: seq<Thread>, id: string) {
    exists t :: t in visible && t.hasPendingInteraction && t.id != id && Below(visible, id, t.id)
  }

  /** The thread is among the visible ones and does not ask, and a question below it waits or did when its turn began. */
  ghost predicate IsHeldAmong(visible: seq<Thread>, turnsHeld: set<string>, id: string) {
    && (exists t :: t in visible && t.id == id && !t.hasPendingInteraction)
    && (id in turnsHeld || IsAskedBelow(visible, id))
  }

  ghost predicate IsHeldBack(listing: Option<seq<Thread>>, turnsHeld: set<string>, id: string) {
    listing.Some? && IsHeldAmong(Visible(listing.value), turnsHeld, id)
  }

  /** The attention a listed thread had, or the event says it has. */
  ghost predicate HadAttention(visible: seq<Thread>, event: EventThread, id: string, latest: int) {
    exists t :: t in visible && t.id == id && latest == WithEvent(t.latestAttentionAt, event, id)
  }

  ghost function WithEvent(latest: int, event: EventThread, id: string): int {
    if id == event.id && latest < event.latestAttentionAt then event.latestAttentionAt else latest
  }

  lemma LiftedIs(visible: seq<Thread>, id: string)
    requires UniqueIds(visible)
    ensures id in LiftedIds(visible) <==> IsAskedBelow(visible, id)
  {
    AboveIsPickedBelow(visible, AsksUser, id);
    forall t | t in visible
      ensures t.id in Descendants(visible, id) <==> t.id != id && Below(visible, id, t.id)
    {
      InDescendants(visible, id, t.id);
    }
  }

  lemma FoundIs(visible: seq<Thread>, id: string)
    requires UniqueIds(visible)
    ensures id in ById(visible) <==> exists t :: t in visible && t.id == id
    ensures forall t :: t in visible && t.id == id ==> t == ById(visible)[id]
  {
    ByIdFinds(visible);
  }

  /** Who is held, by the fields of the rows and of the visible threads. */
  lemma HeldAmongIff(rows: Rows, visible: seq<Thread>, turnsHeld: set<string>, id: string)
    requires UniqueIds(visible)
    ensures id in HeldIn(rows, visible, turnsHeld) <==> IsMarked(Get(rows, id)) && IsHeldAmong(visible, turnsHeld, id)
  {
    LiftedIs(visible, id);
    FoundIs(visible, id);
  }

  lemma SeenEdge(listing: seq<Thread>, event: EventThread, parent: string, child: string)
    ensures Edge(Seen(listing, event), parent, child) <==> Edge(Visible(listing), parent, child)
  {
    var seen, visible := Seen(listing, event), Visible(listing);
    assert forall i :: 0 <= i < |visible| ==> seen[i] == WithAttention(visible[i], event);
  }

  lemma SeenBelow(listing: seq<Thread>, event: EventThread, top: string, bottom: string)
    ensures Below(Seen(listing, event), top, bottom) <==> Below(Visible(listing), top, bottom)
  {
    var seen, visible := Seen(listing, event), Visible(listing);
    forall a, b ensures Edge(seen, a, b) <==> Edge(visible, a, b) { SeenEdge(listing, event, a, b); }
    forall path ensures ChainFrom(seen, path, top, bottom) <==> ChainFrom(visible, path, top, bottom) {
      SameChain(seen, visible, path);
      SameChain(visible, seen, path);
    }
  }

  lemma SameChain(threads: seq<Thread>, others: seq<Thread>, path: seq<string>)
    requires forall a, b :: Edge(threads, a, b) ==> Edge(others, a, b)
    ensures Chain(threads, path) ==> Chain(others, path)
  {
  }

  lemma SeenIs(listing: seq<Thread>, event: EventThread)
    requires UniqueIds(listing)
    ensures UniqueIds(Seen(listing, event))
    ensures forall t :: t in Visible(listing) ==> WithAttention(t, event) in Seen(listing, event)
    ensures forall s :: s in Seen(listing, event) ==> exists t :: t in Visible(listing) && s == WithAttention(t, event)
  {
    VisibleIs(listing);
    var seen, visible := Seen(listing, event), Visible(listing);
    assert forall i :: 0 <= i < |visible| ==> seen[i] == WithAttention(visible[i], event);
  }

  lemma SeenAsked(listing: seq<Thread>, event: EventThread, id: string)
    requires UniqueIds(listing)
    ensures IsAskedBelow(Seen(listing, event), id) <==> IsAskedBelow(Visible(listing), id)
  {
    SeenIs(listing, event);
    forall bottom ensures Below(Seen(listing, event), id, bottom) <==> Below(Visible(listing), id, bottom) {
      SeenBelow(listing, event, id, bottom);
    }
    if IsAskedBelow(Visible(listing), id) {
      var t :| t in Visible(listing) && t.hasPendingInteraction && t.id != id && Below(Visible(listing), id, t.id);
      assert WithAttention(t, event).hasPendingInteraction;
    }
  }

  lemma SeenHeld(listing: seq<Thread>, event: EventThread, turnsHeld: set<string>, id: string)
    requires UniqueIds(listing)
    ensures IsHeldAmong(Seen(listing, event), turnsHeld, id) <==> IsHeldAmong(Visible(listing), turnsHeld, id)
  {
    SeenAsked(listing, event, id);
    SeenIs(listing, event);
    if t :| t in Visible(listing) && t.id == id && !t.hasPendingInteraction {
      assert !WithAttention(t, event).hasPendingInteraction;
    }
  }

  lemma HeldIff(rows: Rows, ids: seq<string>, listing: Option<seq<Thread>>, event: EventThread, turnsHeld: set<string>, id: string)
    requires listing.Some? ==> UniqueIds(listing.value)
    ensures id in HeldBy(rows, ids, listing, event, turnsHeld).GetOr({}) <==>
      id in ids && IsMarked(Get(rows, id)) && IsHeldBack(listing, turnsHeld, id)
  {
    if listing.Some? {
      SeenIs(listing.value, event);
      HeldAmongIff(MarkedAmong(rows, ids), Seen(listing.value, event), turnsHeld, id);
      SeenHeld(listing.value, event, turnsHeld, id);
    }
  }

  /** bb is asked for its threads exactly when one of these threads is parked, snoozed or settled. */
  lemma AskedIff(rows: Rows, ids: seq<string>, listing: Option<seq<Thread>>, told: seq<Answer>, pins: nat)
    requires HoldAsked(rows, ids, listing, told, pins)
    ensures if exists id :: id in ids && IsMarked(Get(rows, id)) then told == [Listed(listing, pins)] else told == [] && listing == Some([])
  {
    if id :| id in ids && IsMarked(Get(rows, id)) {
      assert id in MarkedAmong(rows, ids);
    } else {
      assert MarkedAmong(rows, ids) == map[];
    }
  }

  lemma HeldRowIs(row: Row, listing: seq<Thread>, event: EventThread, id: string, latest: int)
    requires RowOk(row) && UniqueIds(listing) && id in ById(Seen(listing, event))
    requires HadAttention(Visible(listing), event, id, latest)
    ensures IsSetAside(Some(row), Some(HeldRow(row, Seen(listing, event), id)), latest)
  {
    var t :| t in Visible(listing) && t.id == id && latest == WithEvent(t.latestAttentionAt, event, id);
    SeenIs(listing, event);
    FoundIs(Seen(listing, event), id);
    assert WithAttention(t, event) == ById(Seen(listing, event))[id];
    SetAsideRow(row, latest);
  }

  // ---- one event ----

  ghost predicate Remains(was: Option<Row>, now: Option<Row>, listing: Option<seq<Thread>>, event: EventThread, id: string) {
    forall latest :: HadAttention(Visible(listing.GetOr([])), event, id, latest) ==> IsSetAside(was, now, latest)
  }

  /** A thread was created: a marked thread above it reopens, keeping a waiting settle, unless it is held; no other row moves. */
  lemma CreatedWrites(before: Rows, after: Rows, ancestors: seq<string>, listing: Option<seq<Thread>>, event: EventThread, id: string)
    requires AllOk(before) && (listing.Some? ==> UniqueIds(listing.value))
    requires OpenedUp(before, after, ancestors, VisibleBy(listing, event), HeldBy(before, ancestors, listing, event, {}).GetOr({}))
    ensures var was, now := Get(before, id), Get(after, id);
      if id !in ancestors then now == was
      else if IsMarked(was) && IsHeldBack(listing, {}, id) then Remains(was, now, listing, event, id)
      else IsReopened(was, now)
  {
    HeldIff(before, ancestors, listing, event, {}, id);
    ReopenedRow(Get(before, id));
    if id in HeldBy(before, ancestors, listing, event, {}).GetOr({}) {
      forall latest | HadAttention(Visible(listing.GetOr([])), event, id, latest) ensures IsSetAside(Get(before, id), Get(after, id), latest) {
        HeldRowIs(before[id], listing.value, event, id, latest);
      }
    }
  }

  /**
   * A turn started: an override of its thread ends; a held mark of it or
   * above it stays; else its own out-of-date mark goes and the marked threads
   * above it reopen, keeping a waiting settle; and no other row moves.
   */
  lemma TurnStartedWrites(before: Rows, after: Rows, ancestors: seq<string>, listing: Option<seq<Thread>>, event: EventThread, id: string)
    requires AllOk(before) && (listing.Some? ==> UniqueIds(listing.value))
    requires TakenIn(EndOverride(before, event.id), after, event, ancestors, VisibleBy(listing, event),
                     HeldBy(EndOverride(before, event.id), [event.id] + ancestors, listing, event, {}).GetOr({}))
    ensures var was, now := Get(before, id), Get(after, id);
      if id == event.id && IsOverridden(was) then OnlyWaits(now, was.value.waitingSettleAt, was.value.heldAttentionAt)
      else if (id == event.id || id in ancestors) && IsMarked(was) && IsHeldBack(listing, {}, id) then Remains(was, now, listing, event, id)
      else if id == event.id && IsOutOfDate(was, event.latestAttentionAt) then IsCleared(was, now, event.latestAttentionAt)
      else if id in ancestors then IsReopened(was, now)
      else now == was
  {
    var started := EndOverride(before, event.id);
    EndOverrideIs(before, event.id);
    OverrideEndedRow(Get(before, id));
    HeldIff(started, [event.id] + ancestors, listing, event, {}, id);
    if id in HeldBy(started, [event.id] + ancestors, listing, event, {}).GetOr({}) {
      forall latest | HadAttention(Visible(listing.GetOr([])), event, id, latest) ensures IsSetAside(Get(before, id), Get(after, id), latest) {
        HeldRowIs(started[id], listing.value, event, id, latest);
      }
    } else {
      TurnMoves(Get(started, id), event, id in ancestors, id == event.id);
    }
  }

  lemma TurnMoves(row: Option<Row>, event: EventThread, above: bool, own: bool)
    requires row.Some? ==> RowOk(row.value) && !IsEmptyRow(row.value)
    ensures var cleared := if own then Cleared(row, Some(event.latestAttentionAt)) else row;
      var now := if above then Reopened(cleared) else cleared;
      if own && IsOutOfDate(row, event.latestAttentionAt) then IsCleared(row, now, event.latestAttentionAt)
      else if above then IsReopened(row, now) else now == row
  {
  }

  /** Whether the turn that started is held to its end. */
  lemma TurnIsHeldIff(before: Rows, ancestors: seq<string>, listing: Option<seq<Thread>>, event: EventThread)
    requires AllOk(before) && (listing.Some? ==> UniqueIds(listing.value))
    ensures event.id in HeldBy(EndOverride(before, event.id), [event.id] + ancestors, listing, event, {}).GetOr({}) <==>
      IsMarked(Get(before, event.id)) && IsHeldBack(listing, {}, event.id)
  {
    var started := EndOverride(before, event.id);
    EndOverrideIs(before, event.id);
    OverrideEndedRow(Get(before, event.id));
    HeldIff(started, [event.id] + ancestors, listing, event, {}, event.id);
  }

  /** A thread finished, failed or asked: its own out-of-date mark goes unless it is held, and no other row moves. */
  lemma AttentionWrites(before: Rows, after: Rows, turnsHeld: set<string>, listing: Option<seq<Thread>>, event: EventThread, id: string)
    requires AllOk(before) && (listing.Some? ==> UniqueIds(listing.value))
    requires TakenIn(before, after, event, [], VisibleBy(listing, event), HeldBy(before, [event.id], listing, event, turnsHeld).GetOr({}))
    ensures var was, now := Get(before, id), Get(after, id);
      if id != event.id then now == was
      else if IsMarked(was) && IsHeldBack(listing, turnsHeld, id) then Remains(was, now, listing, event, id)
      else IsCleared(was, now, event.latestAttentionAt)
  {
    HeldIff(before, [event.id], listing, event, turnsHeld, id);
    if id in HeldBy(before, [event.id], listing, event, turnsHeld).GetOr({}) {
      forall latest | HadAttention(Visible(listing.GetOr([])), event, id, latest) ensures IsSetAside(Get(before, id), Get(after, id), latest) {
        HeldRowIs(before[id], listing.value, event, id, latest);
      }
    } else if id == event.id {
      ClearedRow(Get(before, id), event.latestAttentionAt);
    }
  }

  /** The reopening itself: each ancestor not held loses its mark and keeps only a waiting settle. */
  lemma ReopenWrites(before: Rows, after: Rows, ancestors: seq<string>, held: set<string>, id: string)
    requires Reopens(before, after, ancestors, held)
    ensures if id in ancestors && id !in held then IsReopened(Get(before, id), Get(after, id)) else Get(after, id) == Get(before, id)
  {
    ReopenedRow(Get(before, id));
  }

  // ---- the reconcile ----

  lemma KnownIs(listed: seq<Thread>, found: map<string, int>, id: string, latest: int)
    requires UniqueIds(listed) && found.Keys !! Ids(listed)
    ensures KnownAttention(listed, found, id, latest) <==> Get(LatestOf(listed) + found, id) == Some(latest)
  {
    FoundIs(listed, id);
  }

  lemma StaysIs(before: Rows, listed: seq<Thread>, found: map<string, int>, archivedIds: set<string>, id: string)
    ensures Get(Pruned(before, Ids(listed) + found.Keys + archivedIds), id) ==
      if IsKnown(listed, found, archivedIds, id) then Get(before, id) else None
  {
  }

  /**
   * The reconcile: a row stays only if bb listed its thread, was asked about
   * it alone or has it archived; a held mark stays with the attention its
   * thread had set aside; of the others a mark out of date goes.
   */
  lemma ReconcileWrites(before: Rows, after: Rows, listed: seq<Thread>, found: map<string, int>, archivedIds: set<string>, id: string)
    requires AllOk(before) && UniqueIds(listed) && found.Keys !! Ids(listed)
    requires var pruned := Pruned(before, Ids(listed) + found.Keys + archivedIds);
      Reconciled(pruned, after, listed, LatestOf(listed) + found, HeldIn(pruned, Visible(listed), {}))
    ensures IsBroughtInLine(Get(before, id), Get(after, id), listed, found, archivedIds, id)
  {
    var pruned := Pruned(before, Ids(listed) + found.Keys + archivedIds);
    var held := HeldIn(pruned, Visible(listed), {});
    StaysIs(before, listed, found, archivedIds, id);
    VisibleIs(listed);
    HeldAmongIff(pruned, Visible(listed), {}, id);
    if id in held {
      FoundIs(Visible(listed), id);
      SetAsideRow(pruned[id], ById(Visible(listed))[id].latestAttentionAt);
    } else {
      NotHeldWrites(Get(pruned, id), Get(after, id), listed, found, id);
    }
  }

  lemma NotHeldWrites(was: Option<Row>, now: Option<Row>, listed: seq<Thread>, found: map<string, int>, id: string)
    requires was.Some? ==> RowOk(was.value) && !IsEmptyRow(was.value)
    requires UniqueIds(listed) && found.Keys !! Ids(listed)
    requires now == Cleared(was, Get(LatestOf(listed) + found, id))
    ensures IsClearedAsKnown(was, now, listed, found, id)
  {
    var known := Get(LatestOf(listed) + found, id);
    forall at ensures KnownAttention(listed, found, id, at) <==> known == Some(at) {
      KnownIs(listed, found, id, at);
    }
    if known.Some? { ClearedRow(was, known.value); }
  }

  ghost predicate IsClearedAsKnown(was: Option<Row>, now: Option<Row>, listed: seq<Thread>, found: map<string, int>, id: string) {
    && (forall latest :: KnownAttention(listed, found, id, latest) ==> IsCleared(was, now, latest))
    && ((forall latest :: !KnownAttention(listed, found, id, latest)) ==> now == was)
  }

  ghost predicate IsBroughtInLine(was: Option<Row>, now: Option<Row>, listed: seq<Thread>, found: map<string, int>, archivedIds: set<string>, id: string) {
    if !IsKnown(listed, found, archivedIds, id) then now == None
    else if IsMarked(was) && IsHeldAmong(Visible(listed), {}, id) then
      forall t :: t in Visible(listed) && t.id == id ==> IsSetAside(was, now, t.latestAttentionAt)
    else IsClearedAsKnown(was, now, listed, found, id)
  }

  ghost predicate IsKnown(listed: seq<Thread>, found: map<string, int>, archivedIds: set<string>, id: string) {
    (exists t :: t in listed && t.id == id) || id in found || id in archivedIds
  }

  /** The latest attention of a thread bb listed, or was asked about alone. */
  ghost predicate KnownAttention(listed: seq<Thread>, found: map<string, int>, id: string, latest: int) {
    (id in found && found[id] == latest) || exists t :: t in listed && t.id == id && t.latestAttentionAt == latest
  }
}
