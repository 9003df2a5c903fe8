/**
 * What the server does when bb announces a thread event, and when it starts:
 * marks that attention made stale are cleared, but for those a waiting
 * question holds. Without bb's threads nobody knows what is held, and each
 * handler says what it then does.
 */
module ThreadEvents {
  import opened Common
  import opened Threads
  import opened ThreadTree
  import opened Lifecycle
  import opened LifecycleStore
  import opened Bb
  import opened RecordLog

  const MAX_ANCESTOR_DEPTH := 100

  // ---- marks a waiting question holds ----

  /** A marked row is held while a question waits below its thread, or did when its turn began, and none on the thread itself. */
  ghost predicate IsHeld(row: Option<Row>, visible: seq<Thread>, turnsHeld: set<string>, id: string) {
    && HasMark(row)
    && (id in LiftedIds(visible) || id in turnsHeld)
    && id in ById(visible) && !ById(visible)[id].hasPendingInteraction
  }

  ghost function HeldIn(rows: Rows, visible: seq<Thread>, turnsHeld: set<string>): set<string> {
    set id | id in rows && IsHeld(Get(rows, id), visible, turnsHeld, id)
  }

  method HeldIds(rows: Rows, visible: seq<Thread>, turnsHeld: set<string>) returns (held: set<string>)
    ensures held == HeldIn(rows, visible, turnsHeld)
  {
    var lifted := IdsAbove(visible, AsksUser);
    var byId := ById(visible);
    held := {};
    var left := rows.Keys;
    while left != {}
      invariant left <= rows.Keys
      invariant forall id :: id in held <==> id in rows && id !in left && IsHeld(Get(rows, id), visible, turnsHeld, id)
      decreases |left|
    {
      var id :| id in left;
      left := left - {id};
      if HasMark(Some(rows[id])) && (id in lifted || id in turnsHeld) && id in byId && !byId[id].hasPendingInteraction {
        held := held + {id};
      }
    }
  }

  function HeldRow(row: Row, visible: seq<Thread>, id: string): Row
    requires id in ById(visible)
  {
    HoldAttention(row, ById(visible)[id].latestAttentionAt)
  }

  /** The held rows with the attention their threads just had set aside, and the held threads. */
  method HoldRows(rows: Rows, visible: seq<Thread>, turnsHeld: set<string>) returns (updates: map<string, Option<Row>>, held: set<string>)
    ensures held == HeldIn(rows, visible, turnsHeld)
    ensures updates.Keys <= held
    ensures forall id :: id in held ==> HeldRow(rows[id], visible, id) == if id in updates then updates[id].GetOr(EMPTY_ROW) else rows[id]
    ensures forall id :: id in updates ==> updates[id].Some?
  {
    held := HeldIds(rows, visible, turnsHeld);
    var byId := ById(visible);
    updates := map[];
    var left := held;
    while left != {}
      invariant left <= held && updates.Keys <= held - left
      invariant forall id :: id in held && id !in left ==> HeldRow(rows[id], visible, id) == if id in updates then updates[id].GetOr(EMPTY_ROW) else rows[id]
      invariant forall id :: id in updates ==> updates[id].Some?
      decreases |left|
    {
      var id :| id in left;
      left := left - {id};
      var next := HoldAttention(rows[id], byId[id].latestAttentionAt);
      if next != rows[id] {
        updates := updates[id := Some(next)];
      }
    }
  }

  /** Within one mark's life the attention held only rises, the mark stays, and it is not stale afterwards. */
  lemma HoldingKeepsTheMark(row: Row, latestAttentionAt: int)
    requires RowOk(row) && HasMark(Some(row))
    ensures var next := HoldAttention(row, latestAttentionAt);
      && next.(heldAttentionAt := row.heldAttentionAt) == row
      && (next.heldAttentionAt == row.heldAttentionAt
          || (next.heldAttentionAt.Some? && (row.heldAttentionAt.Some? ==> next.heldAttentionAt.value > row.heldAttentionAt.value)))
      && (forall seen :: seen <= latestAttentionAt ==> Stale(Some(next), seen).None?)
  {
  }

  // ---- stale marks ----

  /** The row with its mark cleared when the thread's attention, if known, made it stale. */
  function Cleared(row: Option<Row>, latest: Option<int>): Option<Row> {
    if latest.Some? && Stale(row, latest.value).Some? then Stored(ClearStaleMark(row, latest.value)) else row
  }

  /** The cleared row of each thread named whose mark attention made stale. */
  method ClearStaleMarks(rows: Rows, latest: map<string, int>) returns (cleared: map<string, Option<Row>>)
    requires AllOk(rows)
    ensures ClearedUpTo(rows, latest, {}, cleared)
  {
    cleared := map[];
    var left := rows.Keys;
    while left != {}
      invariant left <= rows.Keys && ClearedUpTo(rows, latest, left, cleared)
      decreases |left|
    {
      var id :| id in left;
      left := left - {id};
      if id in latest {
        var next := ClearStaleMark(Some(rows[id]), latest[id]);
        if next.Some? {
          cleared := cleared[id := if IsEmptyRow(next.value) then None else next];
        }
      }
    }
  }

  ghost predicate ClearedUpTo(rows: Rows, latest: map<string, int>, left: set<string>, cleared: map<string, Option<Row>>) {
    && cleared.Keys <= rows.Keys - left
    && (forall id :: id in cleared && cleared[id].Some? ==> RowOk(cleared[id].value))
    && (forall id :: id in rows && id !in left ==> Cleared(Some(rows[id]), Get(latest, id)) == if id in cleared then Stored(cleared[id]) else Some(rows[id]))
  }

  /** Clears the parked or settled marks that attention made stale, among the threads named. */
  method ClearStaleRows(store: LifecycleStore, latest: map<string, int>) returns (touched: set<string>)
    requires store.Valid()
    modifies store
    ensures store.Valid() && old(store.issued) <= store.issued
    ensures forall id :: store.RowOf(id) == Cleared(old(store.RowOf(id)), Get(latest, id))
    ensures forall id :: id in touched <==> store.RowOf(id) != old(store.RowOf(id))
  {
    var cleared := ClearStaleMarks(store.rows, latest);
    touched := store.PutMap(cleared);
  }

  // ---- thread events ----

  /** The part of bb's thread payload the handlers read. */
  datatype EventThread = EventThread(id: string, parentThreadId: Option<string>, latestAttentionAt: int)

  /** The visible threads, the event's own with the attention the event carries. */
  function Seen(listing: seq<Thread>, event: EventThread): seq<Thread> {
    var visible := Visible(listing);
    seq(|visible|, i requires 0 <= i < |visible| => WithAttention(visible[i], event))
  }

  function WithAttention(thread: Thread, event: EventThread): Thread {
    if thread.id == event.id then thread.(latestAttentionAt := Max(thread.latestAttentionAt, event.latestAttentionAt)) else thread
  }

  lemma SeenAttention(listing: seq<Thread>, event: EventThread)
    ensures event.id in ById(Seen(listing, event)) ==> ById(Seen(listing, event))[event.id].latestAttentionAt >= event.latestAttentionAt
  {
    var seen := Seen(listing, event);
    if event.id in ById(seen) {
      var i :| 0 <= i < |seen| && seen[i] == ById(seen)[event.id];
      assert seen[i] == WithAttention(Visible(listing)[i], event);
    }
  }

  function MarkedAmong(rows: Rows, ids: seq<string>): Rows {
    map id | id in rows && id in ids && HasMark(Some(rows[id])) :: rows[id]
  }

  /** What holding does: the held are found by the rule, their attention is set aside, and no other row moves. */
  ghost predicate Holding(before: Rows, after: Rows, ids: seq<string>, visible: seq<Thread>, turnsHeld: set<string>, held: set<string>) {
    && held == HeldIn(MarkedAmong(before, ids), visible, turnsHeld)
    && (forall id :: id in held ==> id in before && Get(after, id) == Some(HeldRow(before[id], visible, id)))
    && (forall id :: id !in held ==> Get(after, id) == Get(before, id))
  }

  /** The row an ancestor that is reopened is left with: its waiting settle alone, or none. */
  function Reopened(row: Option<Row>): Option<Row> {
    if !HasMark(row) then row
    else if IsWaitingSettle(row) then Some(EMPTY_ROW.(waitingSettleAt := row.value.waitingSettleAt))
    else None
  }

  /** The active override lasts until its thread next starts a turn. */
  function OverrideEnded(row: Option<Row>): Option<Row> {
    if row.Some? && row.value.activeOverride then Stored(Some(row.value.(activeOverride := false))) else row
  }

  function EndOverride(rows: Rows, id: string): Rows { PutOne(rows, id, OverrideEnded(Get(rows, id))) }

  lemma EndOverrideIs(rows: Rows, id: string)
    requires AllOk(rows)
    ensures forall x :: Get(EndOverride(rows, id), x) == if x == id then OverrideEnded(Get(rows, id)) else Get(rows, x)
    ensures AllOk(EndOverride(rows, id))
  {
  }

  /** The same mark, at most with more attention held back. */
  ghost predicate SameMark(before: Option<Row>, after: Option<Row>) {
    && before.Some? && after.Some?
    && after.value.(heldAttentionAt := before.value.heldAttentionAt) == before.value
    && (after.value.heldAttentionAt == before.value.heldAttentionAt
        || (after.value.heldAttentionAt.Some? && (before.value.heldAttentionAt.Some? ==> after.value.heldAttentionAt.value > before.value.heldAttentionAt.value)))
  }

  /**
   * A row whose thread's event was taken in: held rows have the attention
   * their threads just had set aside, the thread's own stale mark goes, and
   * ancestors not held reopen.
   */
  ghost predicate TakenIn(before: Rows, after: Rows, event: EventThread, ancestors: seq<string>, visible: seq<Thread>, held: set<string>) {
    && (forall id :: id in held ==> id in before && id in ById(visible) && Get(after, id) == Some(HeldRow(before[id], visible, id)))
    && (forall id :: id !in held ==> Get(after, id) == AfterTurn(before, event, ancestors, id))
  }

  /** Held rows keep their mark, with no less attention set aside than before, and are not stale. */
  lemma TakenInKeepsMarks(before: Rows, after: Rows, event: EventThread, ancestors: seq<string>, visible: seq<Thread>, turnsHeld: set<string>, ids: seq<string>, held: set<string>, id: string)
    requires AllOk(before) && TakenIn(before, after, event, ancestors, visible, held)
    requires held == HeldIn(MarkedAmong(before, ids), visible, turnsHeld) && id in held
    ensures SameMark(Get(before, id), Get(after, id))
    ensures forall latest :: latest <= ById(visible)[id].latestAttentionAt ==> Stale(Get(after, id), latest).None?
  {
    HoldingKeepsTheMark(before[id], ById(visible)[id].latestAttentionAt);
  }

  ghost function AfterTurn(before: Rows, event: EventThread, ancestors: seq<string>, id: string): Option<Row> {
    var row := if id == event.id then Cleared(Get(before, id), Some(event.latestAttentionAt)) else Get(before, id);
    if id in ancestors then Reopened(row) else row
  }

  ghost predicate Reopens(before: Rows, after: Rows, ancestors: seq<string>, held: set<string>) {
    forall id :: Get(after, id) == if id in ancestors && id !in held then Reopened(Get(before, id)) else Get(before, id)
  }

  ghost predicate Clears(before: Rows, after: Rows, event: EventThread) {
    forall id :: Get(after, id) == Cleared(Get(before, id), if id == event.id then Some(event.latestAttentionAt) else None)
  }

  /** Holding, then clearing the event's own stale mark, then reopening: no held mark is lost on the way. */
  lemma HoldThenClearThenReopen(before: Rows, held: set<string>, rows1: Rows, rows2: Rows, after: Rows, event: EventThread, ids: seq<string>,
                                ancestors: seq<string>, visible: seq<Thread>, turnsHeld: set<string>)
    requires AllOk(before) && Holding(before, rows1, ids, visible, turnsHeld, held)
    requires event.id in held ==> event.id in ById(visible) && ById(visible)[event.id].latestAttentionAt >= event.latestAttentionAt
    requires Clears(rows1, rows2, event) && Reopens(rows2, after, ancestors, held)
    ensures TakenIn(before, after, event, ancestors, visible, held)
  {
    forall id | id in held ensures Get(after, id) == Some(HeldRow(before[id], visible, id)) {
      HoldingKeepsTheMark(before[id], ById(visible)[id].latestAttentionAt);
    }
  }

  /** Holding, then reopening. */
  lemma HoldThenReopen(before: Rows, held: set<string>, rows1: Rows, after: Rows, ids: seq<string>, ancestors: seq<string>, visible: seq<Thread>, turnsHeld: set<string>)
    requires Holding(before, rows1, ids, visible, turnsHeld, held) && Reopens(rows1, after, ancestors, held)
    ensures OpenedUp(before, after, ancestors, visible, held)
  {
  }

  /** Held rows have the attention their threads just had set aside, other ancestors reopen, and no other row moves. */
  ghost predicate OpenedUp(before: Rows, after: Rows, ancestors: seq<string>, visible: seq<Thread>, held: set<string>) {
    && (forall id :: id in held ==> id in before && id in ById(visible) && Get(after, id) == Some(HeldRow(before[id], visible, id)))
    && (forall id :: id !in held ==> Get(after, id) == if id in ancestors then Reopened(Get(before, id)) else Get(before, id))
  }

  lemma OpenedUpKeepsMarks(before: Rows, after: Rows, ancestors: seq<string>, visible: seq<Thread>, turnsHeld: set<string>, ids: seq<string>, held: set<string>, id: string)
    requires AllOk(before) && OpenedUp(before, after, ancestors, visible, held)
    requires held == HeldIn(MarkedAmong(before, ids), visible, turnsHeld) && id in held
    ensures SameMark(Get(before, id), Get(after, id))
  {
    HoldingKeepsTheMark(before[id], ById(visible)[id].latestAttentionAt);
  }

  // ---- what bb was asked ----

  /**
   * The walk up from a parent, by what bb named as each thread's parent: it
   * ends where bb names none, where it closes, and at the depth limit.
   */
  ghost predicate WalkedUp(parentId: Option<string>, found: seq<string>, told: seq<Answer>) {
    && |told| == |found| <= MAX_ANCESTOR_DEPTH && NoRepeats(found)
    && (found == [] <==> parentId.None?)
    && (found != [] ==> found[0] == parentId.value)
    && (forall i :: 0 <= i < |told| ==> told[i].ParentIs? && told[i].threadId == found[i])
    && (forall i :: 0 <= i < |told| - 1 ==> told[i].parent == Some(found[i + 1]))
    && (found != [] ==> WalkEnded(found, told[|told| - 1].parent))
  }

  /** Without a mark anywhere nobody asks who is above. */
  ghost predicate Climbed(marked: bool, parentId: Option<string>, found: seq<string>, told: seq<Answer>) {
    if marked then WalkedUp(parentId, found, told) else found == [] && told == []
  }

  ghost predicate WalkEnded(found: seq<string>, next: Option<string>) {
    next.Some? ==> next.value in found || |found| == MAX_ANCESTOR_DEPTH
  }

  ghost predicate AnyMarked(rows: Rows) { exists id :: id in rows && HasMark(Some(rows[id])) }

  ghost predicate WalkingUp(parentId: Option<string>, found: seq<string>, told: seq<Answer>, next: Option<string>) {
    && |told| == |found| <= MAX_ANCESTOR_DEPTH && NoRepeats(found)
    && (found == [] ==> next == parentId)
    && (found != [] ==> parentId == Some(found[0]) && told[|told| - 1].ParentIs? && told[|told| - 1].parent == next)
    && (forall i :: 0 <= i < |told| ==> told[i].ParentIs? && told[i].threadId == found[i])
    && (forall i :: 0 <= i < |told| - 1 ==> told[i].parent == Some(found[i + 1]))
  }

  lemma NoneMarked(rows: Rows, ids: seq<string>, event: EventThread, turnsHeld: set<string>)
    requires MarkedAmong(rows, ids) == map[]
    ensures HeldBy(rows, ids, Some([]), event, turnsHeld) == Some({})
    ensures Holding(rows, rows, ids, VisibleBy(Some([]), event), turnsHeld, {})
  {
    assert HeldIn(MarkedAmong(rows, ids), VisibleBy(Some([]), event), turnsHeld) == {};
  }

  /** bb is asked for its threads when one of these is marked, and not otherwise. */
  ghost predicate HoldAsked(rows: Rows, ids: seq<string>, listing: Option<seq<Thread>>, told: seq<Answer>, pins: nat) {
    if MarkedAmong(rows, ids) == map[] then listing == Some([]) && told == [] else told == [Listed(listing, pins)]
  }

  /** The held among these threads, by bb's listing, or None when it gave none. */
  ghost function HeldBy(rows: Rows, ids: seq<string>, listing: Option<seq<Thread>>, event: EventThread, turnsHeld: set<string>): Option<set<string>> {
    if listing.None? then None else Some(HeldIn(MarkedAmong(rows, ids), Seen(listing.value, event), turnsHeld))
  }

  /** The threads bb listed, the event's own with the attention the event carries. */
  function VisibleBy(listing: Option<seq<Thread>>, event: EventThread): seq<Thread> { Seen(listing.GetOr([]), event) }

  lemma AsClears(before: Rows, after: Rows, event: EventThread)
    requires forall id :: Get(after, id) == Cleared(Get(before, id), Get(map[event.id := event.latestAttentionAt], id))
    ensures Clears(before, after, event)
  {
  }

  lemma NothingHeld(rows: Rows, visible: seq<Thread>)
    ensures Holding(rows, rows, [], visible, {}, {})
  {
  }

  class ThreadEvents {
    const store: LifecycleStore
    const bb: Gateway
    const archive: ArchivedThreads
    /** Marked threads that began a turn while a question held their mark. */
    var heldTurns: set<string>

    constructor (store: LifecycleStore, bb: Gateway, archive: ArchivedThreads)
      ensures this.store == store && this.bb == bb && this.archive == archive && heldTurns == {}
    {
      this.store, this.bb, this.archive := store, bb, archive;
      heldTurns := {};
    }

    /** The ids above a thread with this parent, nearest first, as far as bb says. */
    method AncestorsFrom(parentId: Option<string>) returns (found: seq<string>, ghost told: seq<Answer>)
      modifies bb`threads, bb`answers
      ensures bb.answers == old(bb.answers) + told && WalkedUp(parentId, found, told)
    {
      found, told := [], [];
      var id := parentId;
      while id.Some? && id.value !in found && |found| < MAX_ANCESTOR_DEPTH
        invariant bb.answers == old(bb.answers) + told
        invariant WalkingUp(parentId, found, told, id)
        decreases MAX_ANCESTOR_DEPTH - |found|
      {
        ghost var at := id.value;
        found := found + [id.value];
        id := bb.ParentOf(id.value);
        told := told + [ParentIs(at, id)];
      }
    }

    /** Holds the marks a waiting question holds among these threads; None when bb could not list its threads. */
    method HoldWhileAsked(ids: seq<string>, event: EventThread, turnsHeld: set<string>)
      returns (held: Option<set<string>>, touched: set<string>, ghost listing: Option<seq<Thread>>, ghost told: seq<Answer>)
      requires store.Valid()
      modifies store, bb`threads, bb`failures, bb`answers
      ensures store.Valid() && old(store.issued) <= store.issued
      ensures bb.answers == old(bb.answers) + told && HoldAsked(old(store.rows), ids, listing, told, |bb.taken|)
      ensures bb.failures == old(bb.failures) + if listing.None? then 1 else 0
      ensures listing.Some? ==> UniqueIds(listing.value)
      ensures held == HeldBy(old(store.rows), ids, listing, event, turnsHeld)
      ensures listing.None? ==> store.rows == old(store.rows) && touched == {}
      ensures listing.Some? ==> Holding(old(store.rows), store.rows, ids, VisibleBy(listing, event), turnsHeld, held.value)
      ensures forall id :: store.RowOf(id) != old(store.RowOf(id)) ==> id in touched
    {
      ghost var before := store.rows;
      var marked := MarkedAmong(store.rows, ids);
      held, touched, listing, told := Some({}), {}, Some([]), [];
      if marked == map[] {
        NoneMarked(before, ids, event, turnsHeld);
      } else {
        var answer := bb.Snapshot();
        listing, told := answer, [Listed(answer, |bb.taken|)];
        if answer.None? {
          held := None;
        } else {
          var updates, found := HoldRows(marked, Seen(answer.value, event), turnsHeld);
          touched := store.PutMap(updates);
          held := Some(found);
        }
      }
    }

    /** Reopens each of the ancestors that carries a mark and is not held, keeping a waiting settle. */
    method Reopen(ancestors: seq<string>, held: set<string>) returns (touched: set<string>)
      requires store.Valid()
      modifies store
      ensures store.Valid() && old(store.issued) <= store.issued
      ensures Reopens(old(store.rows), store.rows, ancestors, held)
      ensures forall id :: store.RowOf(id) != old(store.RowOf(id)) ==> id in touched
    {
      var updates := map id | id in ancestors && id !in held && HasMark(store.RowOf(id)) :: Reopened(store.RowOf(id));
      ghost var before := store.rows;
      touched := store.PutMap(updates);
      assert forall id :: Get(before, id) == old(store.RowOf(id)) && Get(store.rows, id) == store.RowOf(id);
    }

    method AnyMark() returns (any: bool)
      ensures any <==> AnyMarked(store.rows)
    {
      any := exists id :: id in store.rows && HasMark(Some(store.rows[id]));
    }

    /**
     * A thread was created: the marked threads above it reopen, but for those
     * a waiting question holds. With no mark anywhere bb is not asked.
     */
    method Created(event: EventThread)
      returns (touched: set<string>, ghost ancestors: seq<string>, ghost listing: Option<seq<Thread>>, ghost up: seq<Answer>, ghost told: seq<Answer>)
      requires store.Valid()
      modifies store, bb`threads, bb`failures, bb`answers
      ensures store.Valid() && old(store.issued) <= store.issued
      ensures forall id :: store.RowOf(id) != old(store.RowOf(id)) ==> id in touched
      ensures bb.answers == old(bb.answers) + up + told
      ensures Climbed(AnyMarked(old(store.rows)), event.parentThreadId, ancestors, up)
      ensures HoldAsked(old(store.rows), ancestors, listing, told, |bb.taken|)
      ensures bb.failures == old(bb.failures) + if listing.None? then 1 else 0
      ensures listing.Some? ==> UniqueIds(listing.value)
      ensures OpenedUp(old(store.rows), store.rows, ancestors, VisibleBy(listing, event), HeldBy(old(store.rows), ancestors, listing, event, {}).GetOr({}))
    {
      touched, ancestors, listing, up, told := {}, [], Some([]), [], [];
      var any := AnyMark();
      ghost var before := store.rows;
      if any {
        var above, kept, touchedHolding;
        above, up := AncestorsFrom(event.parentThreadId);
        ancestors := above;
        kept, touchedHolding, listing, told := HoldWhileAsked(above, event, {});
        ghost var rows1 := store.rows;
        var touchedReopening := Reopen(above, kept.GetOr({}));
        touched := touchedHolding + touchedReopening;
        NothingHeld(before, VisibleBy(listing, event));
        HoldThenReopen(before, kept.GetOr({}), rows1, store.rows, if kept.Some? then above else [], above, VisibleBy(listing, event), {});
      } else {
        NoneMarked(before, [], event, {});
      }
    }

    /** Ends the thread's active override, if it has one. */
    method StartTurn(threadId: string) returns (touched: set<string>)
      requires store.Valid()
      modifies store
      ensures store.Valid() && old(store.issued) <= store.issued
      ensures store.rows == EndOverride(old(store.rows), threadId)
      ensures forall id :: store.RowOf(id) != old(store.RowOf(id)) ==> id in touched
    {
      touched := {};
      var row := store.RowOf(threadId);
      if row.Some? && row.value.activeOverride {
        ghost var puts := [Put(threadId, Some(row.value.(activeOverride := false)))];
        assert puts[..0] == [];
        touched := store.PutMany([Put(threadId, Some(row.value.(activeOverride := false)))]);
      }
    }

    /**
     * A thread started a turn: its override ends, its own stale mark goes and
     * the marked threads above it reopen, but no mark a waiting question
     * holds is cleared while bb can list its threads.
     */
    method TurnStarted(event: EventThread)
      returns (touched: set<string>, ghost ancestors: seq<string>, ghost listing: Option<seq<Thread>>, ghost up: seq<Answer>, ghost told: seq<Answer>)
      requires store.Valid()
      modifies this, store, bb`threads, bb`failures, bb`answers
      ensures store.Valid() && old(store.issued) <= store.issued
      ensures forall id :: store.RowOf(id) != old(store.RowOf(id)) ==> id in touched
      ensures bb.answers == old(bb.answers) + up + told
      ensures bb.failures == old(bb.failures) + if listing.None? then 1 else 0
      ensures listing.Some? ==> UniqueIds(listing.value)
      ensures var started := EndOverride(old(store.rows), event.id);
        && Climbed(AnyMarked(started), event.parentThreadId, ancestors, up)
        && HoldAsked(started, [event.id] + ancestors, listing, told, |bb.taken|)
        && var held := HeldBy(started, [event.id] + ancestors, listing, event, {}).GetOr({});
           && TakenIn(started, store.rows, event, ancestors, VisibleBy(listing, event), held)
           && heldTurns == old(heldTurns) + if event.id in held then {event.id} else {}
    {
      ghost var before := store.rows;
      EndOverrideIs(before, event.id);
      var overridden := StartTurn(event.id);
      ghost var started := store.rows;
      var any := AnyMark();
      var above: seq<string>;
      above, up := [], [];
      if any { above, up := AncestorsFrom(event.parentThreadId); }
      ancestors := above;
      var taken;
      taken, listing, told := TakeTurn(event, above);
      touched := overridden + taken;
    }

    /** Holds, clears and reopens for a turn that started, in that order. */
    method TakeTurn(event: EventThread, above: seq<string>) returns (touched: set<string>, ghost listing: Option<seq<Thread>>, ghost told: seq<Answer>)
      requires store.Valid()
      modifies this, store, bb`threads, bb`failures, bb`answers
      ensures store.Valid() && old(store.issued) <= store.issued
      ensures forall id :: store.RowOf(id) != old(store.RowOf(id)) ==> id in touched
      ensures bb.answers == old(bb.answers) + told
      ensures bb.failures == old(bb.failures) + if listing.None? then 1 else 0
      ensures listing.Some? ==> UniqueIds(listing.value)
      ensures HoldAsked(old(store.rows), [event.id] + above, listing, told, |bb.taken|)
      ensures var held := HeldBy(old(store.rows), [event.id] + above, listing, event, {}).GetOr({});
        && TakenIn(old(store.rows), store.rows, event, above, VisibleBy(listing, event), held)
        && heldTurns == old(heldTurns) + if event.id in held then {event.id} else {}
    {
      ghost var started := store.rows;
      var kept, touchedHolding;
      kept, touchedHolding, listing, told := HoldWhileAsked([event.id] + above, event, {});
      if event.id in kept.GetOr({}) { heldTurns := heldTurns + {event.id}; }
      ghost var rows1 := store.rows;
      var cleared := ClearStaleRows(store, map[event.id := event.latestAttentionAt]);
      ghost var rows2 := store.rows;
      AsClears(rows1, rows2, event);
      var reopened := Reopen(above, kept.GetOr({}));
      touched := touchedHolding + cleared + reopened;
      SeenAttention(listing.GetOr([]), event);
      NothingHeld(started, VisibleBy(listing, event));
      HoldThenClearThenReopen(started, kept.GetOr({}), rows1, rows2, store.rows, event, if kept.Some? then [event.id] + above else [], above, VisibleBy(listing, event), {});
    }

    /**
     * A thread finished, failed or asked: its own stale mark goes, unless a
     * question holds it or did when the turn that ends here began. Without
     * bb's threads the hold of such a turn stays for the next event.
     */
    method Attention(event: EventThread) returns (touched: set<string>, ghost listing: Option<seq<Thread>>, ghost told: seq<Answer>)
      requires store.Valid()
      modifies this, store, bb`threads, bb`failures, bb`answers
      ensures store.Valid() && old(store.issued) <= store.issued
      ensures forall id :: store.RowOf(id) != old(store.RowOf(id)) ==> id in touched
      ensures bb.answers == old(bb.answers) + told && HoldAsked(old(store.rows), [event.id], listing, told, |bb.taken|)
      ensures bb.failures == old(bb.failures) + if listing.None? then 1 else 0
      ensures listing.Some? ==> UniqueIds(listing.value)
      ensures listing.None? && event.id in old(heldTurns) ==> store.rows == old(store.rows) && heldTurns == old(heldTurns)
      ensures listing.Some? || event.id !in old(heldTurns) ==>
        var held := HeldBy(old(store.rows), [event.id], listing, event, old(heldTurns) * {event.id}).GetOr({});
        TakenIn(old(store.rows), store.rows, event, [], VisibleBy(listing, event), held) && heldTurns == old(heldTurns) - {event.id}
    {
      ghost var before := store.rows;
      var turnWasHeld := event.id in heldTurns;
      assert heldTurns * {event.id} == if turnWasHeld then {event.id} else {};
      var kept;
      kept, touched, listing, told := HoldWhileAsked([event.id], event, if turnWasHeld then {event.id} else {});
      if !(kept.None? && turnWasHeld) {
        heldTurns := heldTurns - {event.id};
        ghost var rows1 := store.rows;
        var cleared := ClearStaleRows(store, map[event.id := event.latestAttentionAt]);
        touched := touched + cleared;
        AsClears(rows1, store.rows, event);
        SeenAttention(listing.GetOr([]), event);
        NothingHeld(before, VisibleBy(listing, event));
        HoldThenClearThenReopen(before, kept.GetOr({}), rows1, store.rows, store.rows, event, if kept.Some? then [event.id] else [], [], VisibleBy(listing, event),
                                if kept.Some? && turnWasHeld then {event.id} else {});
      }
    }

    method Archived(event: EventThread)
      requires archive.Valid()
      modifies this, archive
      ensures archive.Valid() && archive.archived == old(archive.archived) + {event.id}
      ensures heldTurns == old(heldTurns) - {event.id}
    {
      heldTurns := heldTurns - {event.id};
      archive.Archive(event.id);
    }

    /** A thread left the archive: a full sync left its record out while it was there, so a row it has is published. */
    method Unarchived(event: EventThread) returns (touched: set<string>)
      requires archive.Valid()
      modifies archive
      ensures archive.Valid() && archive.archived == old(archive.archived) - {event.id}
      ensures forall id :: id in old(archive.archived) && id in store.rows && id !in touched ==> id in archive.archived
    {
      archive.Unarchive(event.id);
      touched := if store.RowOf(event.id).Some? then {event.id} else {};
    }

    method Deleted(event: EventThread) returns (touched: set<string>)
      requires store.Valid() && archive.Valid()
      modifies this, store, archive
      ensures store.Valid() && store.rows == old(store.rows) - {event.id}
      ensures archive.Valid() && archive.archived == old(archive.archived) - {event.id}
      ensures forall id :: store.RowOf(id) != old(store.RowOf(id)) ==> id in touched
      ensures forall id :: id in old(archive.archived) && id in store.rows && id !in touched ==> id in archive.archived
      ensures heldTurns == old(heldTurns) - {event.id}
    {
      heldTurns := heldTurns - {event.id};
      archive.Unarchive(event.id);
      touched := store.Forget({event.id});
    }
  }

  // ---- the reconcile at startup ----

  function LatestOf(listed: seq<Thread>): map<string, int> {
    map id | id in ById(listed) :: ById(listed)[id].latestAttentionAt
  }

  lemma VisibleById(listed: seq<Thread>, id: string)
    requires UniqueIds(listed) && id in ById(Visible(listed))
    ensures id in ById(listed) && ById(listed)[id] == ById(Visible(listed))[id]
  {
    VisibleIs(listed);
    ByIdFinds(listed);
  }

  function Pruned(rows: Rows, live: set<string>): Rows { map id | id in rows && id in live :: rows[id] }

  lemma ClearedIsNotStale(row: Option<Row>, latest: Option<int>)
    requires row.Some? ==> RowOk(row.value)
    ensures latest.Some? ==> Stale(Cleared(row, latest), latest.value).None?
  {
  }

  /** The held rows keep their mark, no thread named in `latest` has a stale mark, and the others are cleared only of one. */
  ghost predicate Reconciled(before: Rows, after: Rows, listed: seq<Thread>, latest: map<string, int>, held: set<string>) {
    && (forall id :: id in held ==> SameMark(Get(before, id), Get(after, id)))
    && (forall id :: id in held ==> id in ById(Visible(listed)) && Get(after, id) == Some(HeldRow(before[id], Visible(listed), id)))
    && (forall id :: id in latest ==> Stale(Get(after, id), latest[id]).None?)
    && (forall id :: id !in held ==> Get(after, id) == Cleared(Get(before, id), Get(latest, id)))
  }

  lemma HoldingThenClearing(before: Rows, raised: Rows, after: Rows, listed: seq<Thread>, latest: map<string, int>, held: set<string>)
    requires AllOk(before) && AllOk(raised) && UniqueIds(listed)
    requires held == HeldIn(before, Visible(listed), {})
    requires forall id :: Get(raised, id) == if id in held then Some(HeldRow(before[id], Visible(listed), id)) else Get(before, id)
    requires forall id :: Get(after, id) == Cleared(Get(raised, id), Get(latest, id))
    requires forall id :: id in ById(listed) ==> id in latest && latest[id] == ById(listed)[id].latestAttentionAt
    ensures Reconciled(before, after, listed, latest, held)
  {
    forall id | id in held ensures SameMark(Get(before, id), Get(after, id)) {
      VisibleById(listed, id);
      HoldingKeepsTheMark(before[id], latest[id]);
      assert Get(after, id) == Get(raised, id);
    }
    forall id | id in latest ensures Stale(Get(after, id), latest[id]).None? {
      ClearedIsNotStale(Get(raised, id), Some(latest[id]));
    }
  }

  /**
   * Brings the rows in line with bb's threads: `listed` are those bb listed,
   * `found` the attention of those it was asked about one by one, and
   * `archivedIds` the archived ones. Rows of all other threads go; no listed
   * thread is left with a stale mark; and no mark a waiting question holds is
   * cleared.
   */
  method ReconcileState(store: LifecycleStore, listed: seq<Thread>, found: map<string, int>, archivedIds: set<string>)
    returns (touched: set<string>, ghost held: set<string>)
    requires store.Valid() && UniqueIds(listed) && found.Keys !! Ids(listed)
    modifies store
    ensures store.Valid() && old(store.issued) <= store.issued
    ensures forall id :: store.RowOf(id) != old(store.RowOf(id)) ==> id in touched
    ensures held == HeldIn(Pruned(old(store.rows), Ids(listed) + found.Keys + archivedIds), Visible(listed), {})
    ensures Reconciled(Pruned(old(store.rows), Ids(listed) + found.Keys + archivedIds), store.rows, listed, LatestOf(listed) + found, held)
  {
    var gone := store.Prune(Ids(listed) + found.Keys + archivedIds);
    ghost var pruned := store.rows;
    var updates, kept := HoldRows(store.rows, Visible(listed), {});
    held := kept;
    var raised := store.PutMap(updates);
    ghost var raisedRows := store.rows;
    var latest := LatestOf(listed) + found;
    var cleared := ClearStaleRows(store, latest);
    touched := gone + raised + cleared;
    ByIdFinds(listed);
    HoldingThenClearing(pruned, raisedRows, store.rows, listed, latest, held);
  }
}
