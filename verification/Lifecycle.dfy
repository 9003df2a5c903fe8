/**
 * A thread's lifecycle row, the writers that make one, and the rules that
 * turn it, with bb's thread data, into a shelf.
 */
module Lifecycle {
  import opened Common
  import opened Threads

  datatype SettledKind = Manual | Auto

  datatype Row = Row(
    settledAt: Option<int>,
    settledKind: Option<SettledKind>,
    parkedAt: Option<int>,
    snoozeUntil: Option<int>,
    snoozedAt: Option<int>,
    activeOverride: bool,
    heldAttentionAt: Option<int>,
    waitingSettleAt: Option<int>)

  const EMPTY_ROW: Row := Row(None, None, None, None, None, false, None, None)

  /** No mark and no waiting settle; held attention alone does not count. */
  predicate IsEmptyRow(row: Row) {
    && row.settledAt.None?
    && row.parkedAt.None?
    && row.snoozeUntil.None?
    && row.snoozedAt.None?
    && !row.activeOverride
    && row.waitingSettleAt.None?
  }

  /** An absent row reads as the empty one. */
  predicate SameRow(left: Option<Row>, right: Option<Row>) {
    left.GetOr(EMPTY_ROW) == right.GetOr(EMPTY_ROW)
  }

  // ---- the rows the writers make ----

  function ParkedRow(now: int): Row { EMPTY_ROW.(parkedAt := Some(now)) }

  function SnoozedRow(until: int, now: int): Row { EMPTY_ROW.(snoozeUntil := Some(until), snoozedAt := Some(now)) }

  function SettledRow(now: int, kind: SettledKind): Row { EMPTY_ROW.(settledAt := Some(now), settledKind := Some(kind)) }

  function WaitingSettleRow(now: int, row: Option<Row>): Row { row.GetOr(EMPTY_ROW).(waitingSettleAt := Some(now)) }

  function WithoutWaitingSettle(row: Row): Option<Row> {
    var next := row.(waitingSettleAt := None);
    if IsEmptyRow(next) then None else Some(next)
  }

  function ActiveRow(): Row { EMPTY_ROW.(activeOverride := true) }

  predicate IsWaitingSettle(row: Option<Row>) { row.Some? && row.value.waitingSettleAt.Some? }

  predicate HasMark(row: Option<Row>) {
    row.Some? && (row.value.parkedAt.Some? || row.value.snoozeUntil.Some? || row.value.settledAt.Some?)
  }

  predicate HasManualMark(row: Option<Row>) {
    row.Some? && (row.value.settledKind == Some(Manual) || row.value.activeOverride || IsWaitingSettle(row))
  }

  // ---- the invariant every stored row keeps ----

  function Count(b: bool): nat { if b then 1 else 0 }

  /** At most one of parked, snoozed, settled and the active override; a kind exactly with a settle. */
  predicate RowOk(row: Row) {
    && Count(row.parkedAt.Some?) + Count(row.snoozeUntil.Some?) + Count(row.settledAt.Some?) + Count(row.activeOverride) <= 1
    && (row.settledKind.Some? <==> row.settledAt.Some?)
    && (row.snoozeUntil.Some? <==> row.snoozedAt.Some?)
  }

  // ---- attention ----

  predicate HasAttentionSinceMark(row: Row, markedAt: int, latestAttentionAt: int) {
    latestAttentionAt > Max(markedAt, row.heldAttentionAt.GetOr(markedAt))
  }

  datatype StaleMark = StaleParked | StaleSettled

  /** The parked or settled mark attention has made stale. */
  function Stale(row: Option<Row>, latestAttentionAt: int): Option<StaleMark> {
    if row.None? then None
    else if row.value.parkedAt.Some? && HasAttentionSinceMark(row.value, row.value.parkedAt.value, latestAttentionAt) then Some(StaleParked)
    else if row.value.settledAt.Some? && HasAttentionSinceMark(row.value, row.value.settledAt.value, latestAttentionAt) then Some(StaleSettled)
    else None
  }

  /** The row with its stale mark cleared, or None when nothing is stale. */
  function ClearStaleMark(row: Option<Row>, latestAttentionAt: int): Option<Row> {
    match Stale(row, latestAttentionAt)
    case None => None
    case Some(StaleParked) => Some(row.value.(parkedAt := None))
    case Some(StaleSettled) => Some(row.value.(settledAt := None, settledKind := None))
  }

  /** The row with the attention it just had set aside, or the row itself when its mark is not behind it. */
  function HoldAttention(row: Row, latestAttentionAt: int): Row {
    var markedAt := if row.parkedAt.Some? then row.parkedAt else if row.settledAt.Some? then row.settledAt else row.snoozedAt;
    if markedAt.None? || !HasAttentionSinceMark(row, markedAt.value, latestAttentionAt) then row
    else row.(heldAttentionAt := Some(latestAttentionAt))
  }

  // ---- shelves ----

  datatype WakeReason = ByTime | ByAttention | ByChild

  function Wake(row: Option<Row>, latestAttentionAt: int, now: int, lifted: bool): Option<WakeReason> {
    if row.None? || row.value.snoozeUntil.None? then None
    else if row.value.snoozedAt.Some? && HasAttentionSinceMark(row.value, row.value.snoozedAt.value, latestAttentionAt) then Some(ByAttention)
    else if row.value.snoozeUntil.value <= now then Some(ByTime)
    else if lifted then Some(ByChild)
    else None
  }

  datatype Shelf = Pinned | ActiveShelf | Working | Inactive | Snoozed | Parked | Settled

  function MarkShelf(row: Option<Row>, thread: Thread, now: int, lifted: bool): Shelf {
    if row.None? || lifted || IsBusy(thread) then ActiveShelf
    else if row.value.parkedAt.Some? && !HasAttentionSinceMark(row.value, row.value.parkedAt.value, thread.latestAttentionAt) then Parked
    else if row.value.snoozeUntil.Some? && Wake(row, thread.latestAttentionAt, now, false).None? then Snoozed
    else if row.value.settledAt.Some? && !HasAttentionSinceMark(row.value, row.value.settledAt.value, thread.latestAttentionAt) then Settled
    else ActiveShelf
  }

  /** `treeWorking` and `treeNeedsYou` are what the thread's tree says about it. */
  datatype ShelfOptions = ShelfOptions(
    now: int, workingShelf: bool, inactiveShelf: bool, inactiveAfter: int, treeWorking: bool, treeNeedsYou: bool, lifted: bool)

  function ShelfOf(row: Option<Row>, thread: Thread, options: ShelfOptions): Shelf {
    if IsPinned(thread) then Pinned
    else
      var marked := MarkShelf(row, thread, options.now, options.lifted);
      var woke := Wake(row, thread.latestAttentionAt, options.now, options.lifted).Some?;
      if marked != ActiveShelf then marked
      else if options.workingShelf && options.treeWorking && !woke && !options.treeNeedsYou && !options.lifted then Working
      else if && options.inactiveShelf && !options.lifted && !IsBusy(thread) && !woke
              && !thread.hasPendingInteraction && !HasQueuedMessage(thread)
              && options.now - LastActivityAt(thread) >= options.inactiveAfter then Inactive
      else ActiveShelf
  }

  /** Stored form: no row where there would be an empty one. */
  function Stored(row: Option<Row>): Option<Row> {
    if row.Some? && IsEmptyRow(row.value) then None else row
  }

  /**
   * Clearing a stale mark never moves a thread between shelves, whatever the
   * row, the settings and the rest of its tree: attention had taken it off
   * that shelf already. With exclusive marks nothing stale is left.
   */
  lemma ClearingKeepsTheShelf(row: Row, thread: Thread, options: ShelfOptions)
    requires ClearStaleMark(Some(row), thread.latestAttentionAt).Some?
    ensures var cleared := ClearStaleMark(Some(row), thread.latestAttentionAt).value;
      && ShelfOf(Stored(Some(cleared)), thread, options) == ShelfOf(Some(row), thread, options)
      && (RowOk(row) ==> RowOk(cleared) && Stale(Some(cleared), thread.latestAttentionAt).None?)
  {
  }

  /** Setting a waiting settle and ending it gives back the row as it was, for every row the store can hold. */
  lemma EndingAWaitRestores(row: Option<Row>, now: int)
    requires row.Some? ==> !IsEmptyRow(row.value) && row.value.waitingSettleAt.None?
    ensures WithoutWaitingSettle(WaitingSettleRow(now, row)) == row
  {
  }
}
