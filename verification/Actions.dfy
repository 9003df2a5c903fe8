/**
 * What an action reports of the rows it wrote, and what Undo of a Settle
 * makes of that report.
 */
module Actions {
  import opened Common
  import opened Threads
  import opened Lifecycle
  import opened LifecycleStore

  datatype Change = Change(threadId: string, before: Option<Row>, after: Option<Row>, unpinned: bool)

  /** What Undo of a Settle holds of one thread. */
  datatype SettleEntry = SettleEntry(change: Change, parentThreadId: Option<string>)

  datatype Refusal = ThreadGone | ChildNeedsYou | NeedsYou | Busy | TreeChanged | SnoozeTime | UndoGone | BbFailed

  datatype Entry = Entry(threadId: string, row: Option<Row>, unpinned: bool)

  function PutsOf(entries: seq<Entry>): seq<Put> {
    seq(|entries|, i requires 0 <= i < |entries| => Put(entries[i].threadId, entries[i].row))
  }

  ghost predicate EntriesOk(entries: seq<Entry>) {
    forall i :: 0 <= i < |entries| ==> entries[i].row.Some? ==> RowOk(entries[i].row.value)
  }

  /** Entries of the same thread write the same row. */
  ghost predicate Agreeing(entries: seq<Entry>) {
    forall i, j :: 0 <= i < j < |entries| && entries[i].threadId == entries[j].threadId ==> entries[i].row == entries[j].row
  }

  ghost predicate EachOnce(entries: seq<Entry>) {
    forall i, j :: 0 <= i < j < |entries| ==> entries[i].threadId != entries[j].threadId
  }

  function ChangeOf(before: Rows, after: Rows, entry: Entry): Change {
    Change(entry.threadId, Get(before, entry.threadId), if entry.row.None? then None else Get(after, entry.threadId), entry.unpinned)
  }

  /** One change for each entry whose row moved or whose thread the action unpinned, in their order. */
  function ChangesOf(touched: set<string>, before: Rows, after: Rows, entries: seq<Entry>): seq<Change> {
    if entries == [] then []
    else
      var last := entries[|entries| - 1];
      ChangesOf(touched, before, after, entries[..|entries| - 1])
        + if last.threadId in touched || last.unpinned then [ChangeOf(before, after, last)] else []
  }

  /** Every row that moved is that of a thread named in `touched`. */
  ghost predicate Covers(before: Rows, after: Rows, touched: set<string>) {
    forall id :: Get(before, id) != Get(after, id) ==> id in touched
  }

  ghost predicate DistinctThreads(changes: seq<Change>) {
    forall i, j :: 0 <= i < j < |changes| ==> changes[i].threadId != changes[j].threadId
  }

  /** Reported are exactly the entries that moved a row or unpinned a thread. */
  lemma {:induction false} ChangesAre(touched: set<string>, before: Rows, after: Rows, entries: seq<Entry>)
    ensures forall c :: c in ChangesOf(touched, before, after, entries) <==>
      exists i :: 0 <= i < |entries| && (entries[i].threadId in touched || entries[i].unpinned) && c == ChangeOf(before, after, entries[i])
  {
    if entries != [] {
      ChangesAre(touched, before, after, entries[..|entries| - 1]);
    }
  }

  lemma {:induction false} ChangesOnce(touched: set<string>, before: Rows, after: Rows, entries: seq<Entry>)
    requires EachOnce(entries)
    ensures DistinctThreads(ChangesOf(touched, before, after, entries))
  {
    if entries != [] {
      var rest, last := entries[..|entries| - 1], entries[|entries| - 1];
      ChangesOnce(touched, before, after, rest);
      ChangesAre(touched, before, after, rest);
      var earlier := ChangesOf(touched, before, after, rest);
      forall i | 0 <= i < |earlier| ensures earlier[i].threadId != last.threadId {
        assert earlier[i] in earlier;
      }
    }
  }

  /** The rows before that changes carry, as Undo may be asked to put back. */
  ghost predicate CarriesOnly(changes: seq<Change>, issued: set<Row>) {
    forall c :: c in changes && c.before.Some? ==> c.before.value in issued
  }

  lemma {:induction false} ChangesCarry(touched: set<string>, before: Rows, after: Rows, entries: seq<Entry>, issued: set<Row>)
    requires forall id :: id in before ==> before[id] in issued
    ensures CarriesOnly(ChangesOf(touched, before, after, entries), issued)
  {
    if entries != [] {
      ChangesCarry(touched, before, after, entries[..|entries| - 1], issued);
    }
  }

  // ---- undoing a settle ----

  /** A thread still as the settle left it: there, under its parent, not pinned, not busy, its row the one written. */
  predicate Restorable(listing: seq<Thread>, rows: Rows, entry: SettleEntry) {
    var byId := ById(listing);
    var id := entry.change.threadId;
    && id in byId
    && byId[id].parentThreadId == entry.parentThreadId
    && !IsPinned(byId[id])
    && !IsBusy(byId[id])
    && SameRow(Get(rows, id), entry.change.after)
  }

  function Restoring(listing: seq<Thread>, rows: Rows, entries: seq<SettleEntry>): seq<Entry> {
    if entries == [] then []
    else
      var last := entries[|entries| - 1];
      Restoring(listing, rows, entries[..|entries| - 1])
        + if Restorable(listing, rows, last) then [Entry(last.change.threadId, last.change.before, false)] else []
  }

  ghost predicate ThreadsOnce(entries: seq<SettleEntry>) {
    forall i, j :: 0 <= i < j < |entries| ==> entries[i].change.threadId != entries[j].change.threadId
  }

  /** One entry a thread, and only rows the store has held to put back. */
  ghost predicate EntriesCarry(entries: seq<SettleEntry>, issued: set<Row>) {
    && ThreadsOnce(entries)
    && (forall e :: e in entries && e.change.before.Some? ==> e.change.before.value in issued)
  }

  /** What Undo puts back: the row before for each entry still as it was, and nothing else. */
  lemma {:induction false} RestoringIs(listing: seq<Thread>, rows: Rows, entries: seq<SettleEntry>)
    requires ThreadsOnce(entries)
    ensures EachOnce(Restoring(listing, rows, entries))
    ensures forall e :: e in Restoring(listing, rows, entries) <==>
      exists i :: 0 <= i < |entries| && Restorable(listing, rows, entries[i]) && e == Entry(entries[i].change.threadId, entries[i].change.before, false)
  {
    if entries != [] {
      var rest, last := entries[..|entries| - 1], entries[|entries| - 1];
      assert forall i :: 0 <= i < |rest| ==> rest[i] == entries[i];
      RestoringIs(listing, rows, rest);
      var before := Restoring(listing, rows, rest);
      forall i | 0 <= i < |before| ensures before[i].threadId != last.change.threadId {
        assert before[i] in before;
      }
    }
  }

  ghost function AfterUndo(listing: seq<Thread>, rows: Rows, entries: seq<SettleEntry>): Rows {
    PutAll(rows, PutsOf(Restoring(listing, rows, entries)))
  }

  lemma EntriesPut(rows: Rows, entries: seq<Entry>)
    requires Agreeing(entries)
    ensures forall e :: e in entries ==> Get(PutAll(rows, PutsOf(entries)), e.threadId) == Stored(e.row)
    ensures forall id :: (forall e :: e in entries ==> e.threadId != id) ==> Get(PutAll(rows, PutsOf(entries)), id) == Get(rows, id)
  {
    var puts := PutsOf(entries);
    PutAllIs(rows, puts);
    forall e | e in entries ensures Get(PutAll(rows, puts), e.threadId) == Stored(e.row) {
      var i :| 0 <= i < |entries| && entries[i] == e;
      assert puts[i].threadId == e.threadId && puts[i].row == e.row;
    }
    forall id | forall e :: e in entries ==> e.threadId != id
      ensures Get(PutAll(rows, puts), id) == Get(rows, id)
    {
      assert forall i :: 0 <= i < |puts| ==> entries[i] in entries && puts[i].threadId == entries[i].threadId;
    }
  }

  /** A thread whose row, parent, pin or busyness changed since is left as it is. */
  lemma UndoLeavesChanged(listing: seq<Thread>, rows: Rows, entries: seq<SettleEntry>, id: string)
    requires ThreadsOnce(entries)
    requires forall i :: 0 <= i < |entries| && entries[i].change.threadId == id ==> !Restorable(listing, rows, entries[i])
    ensures Get(AfterUndo(listing, rows, entries), id) == Get(rows, id)
  {
    RestoringIs(listing, rows, entries);
    EntriesPut(rows, Restoring(listing, rows, entries));
  }

  /** A thread still as the settle left it gets the row it had before. */
  lemma UndoRestoresUnchanged(listing: seq<Thread>, rows: Rows, entries: seq<SettleEntry>, i: nat)
    requires ThreadsOnce(entries) && i < |entries| && Restorable(listing, rows, entries[i])
    ensures Get(AfterUndo(listing, rows, entries), entries[i].change.threadId) == Stored(entries[i].change.before)
  {
    RestoringIs(listing, rows, entries);
    EntriesPut(rows, Restoring(listing, rows, entries));
    assert Entry(entries[i].change.threadId, entries[i].change.before, false) in Restoring(listing, rows, entries);
  }

  /** The entries a settle remembers: of each thread whose row it changed or that it unpinned, its rows before and after. */
  ghost predicate Remembers(before: Rows, after: Rows, entries: seq<SettleEntry>) {
    && ThreadsOnce(entries)
    && (forall i :: 0 <= i < |entries| ==>
          && entries[i].change.before == Get(before, entries[i].change.threadId)
          && entries[i].change.after == Get(after, entries[i].change.threadId))
    && (forall id :: Get(before, id) != Get(after, id) ==> exists i :: 0 <= i < |entries| && entries[i].change.threadId == id)
  }

  /**
   * Settle, then Undo, thread by thread: one still as the settle left it has
   * the row it had before, and every other keeps the row it has now, whatever
   * the other writers did to the store in between.
   */
  lemma SettleThenUndo(before: Rows, after: Rows, rows: Rows, listing: seq<Thread>, entries: seq<SettleEntry>, id: string)
    requires NoEmptyRows(before) && Remembers(before, after, entries)
    ensures Get(AfterUndo(listing, rows, entries), id) == if CanRestore(listing, rows, entries, id) then Get(before, id) else Get(rows, id)
  {
    if CanRestore(listing, rows, entries, id) {
      var i :| 0 <= i < |entries| && entries[i].change.threadId == id && Restorable(listing, rows, entries[i]);
      UndoRestoresUnchanged(listing, rows, entries, i);
    } else {
      UndoLeavesChanged(listing, rows, entries, id);
    }
  }

  /** The entry of this thread, if there is one, may be put back. */
  ghost predicate CanRestore(listing: seq<Thread>, rows: Rows, entries: seq<SettleEntry>, id: string) {
    exists i :: 0 <= i < |entries| && entries[i].change.threadId == id && Restorable(listing, rows, entries[i])
  }
}
