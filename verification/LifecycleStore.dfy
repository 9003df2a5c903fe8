/**
 * The rows in memory and the table behind them, written through. Every writer
 * of rows goes through here, so what the store keeps holds over every run of
 * them: memory equals the table, no empty row is stored, and a row has at
 * most one mark. The specification of a batch is its puts in turn; where they
 * agree on a thread, their order does not matter.
 */
module LifecycleStore {
  import opened Common
  import opened Lifecycle

  type Rows = map<string, Row>

  datatype Put = Put(threadId: string, row: Option<Row>)

  /** Stores the row, or deletes the thread's row for an absent or empty one. */
  function PutOne(rows: Rows, threadId: string, row: Option<Row>): Rows {
    var next := Stored(row);
    if next.None? then rows - {threadId} else rows[threadId := next.value]
  }

  function PutAll(rows: Rows, puts: seq<Put>): Rows {
    if puts == [] then rows
    else
      var last := puts[|puts| - 1];
      PutOne(PutAll(rows, puts[..|puts| - 1]), last.threadId, last.row)
  }

  ghost predicate NoEmptyRows(rows: Rows) {
    forall id :: id in rows ==> !IsEmptyRow(rows[id])
  }

  /** The row every writer may store: marks exclusive, and not empty. */
  ghost predicate AllOk(rows: Rows) {
    forall id :: id in rows ==> RowOk(rows[id]) && !IsEmptyRow(rows[id])
  }

  predicate PutsOk(puts: seq<Put>) {
    forall i :: 0 <= i < |puts| ==> puts[i].row.Some? ==> RowOk(puts[i].row.value)
  }

  lemma {:induction false} PutAllKeepsOk(rows: Rows, puts: seq<Put>)
    requires AllOk(rows) && PutsOk(puts)
    ensures AllOk(PutAll(rows, puts))
  {
    if puts != [] {
      PutAllKeepsOk(rows, puts[..|puts| - 1]);
    }
  }

  lemma {:induction false} PutAllNoEmpty(rows: Rows, puts: seq<Put>)
    requires NoEmptyRows(rows)
    ensures NoEmptyRows(PutAll(rows, puts))
  {
    if puts != [] {
      PutAllNoEmpty(rows, puts[..|puts| - 1]);
    }
  }

  /** The puts name each thread once. */
  ghost predicate Once(puts: seq<Put>) {
    forall i, j :: 0 <= i < j < |puts| ==> puts[i].threadId != puts[j].threadId
  }

  /** Puts of the same thread put the same row. */
  ghost predicate Agree(puts: seq<Put>) {
    forall i, j :: 0 <= i < j < |puts| && puts[i].threadId == puts[j].threadId ==> puts[i].row == puts[j].row
  }

  /** Puts that agree leave each named thread as put and every other thread's row as it was. */
  lemma {:induction false} PutAllIs(rows: Rows, puts: seq<Put>)
    requires Agree(puts)
    ensures forall i :: 0 <= i < |puts| ==> Get(PutAll(rows, puts), puts[i].threadId) == Stored(puts[i].row)
    ensures forall id :: (forall i :: 0 <= i < |puts| ==> puts[i].threadId != id) ==> Get(PutAll(rows, puts), id) == Get(rows, id)
  {
    if puts != [] {
      var rest := puts[..|puts| - 1];
      PutAllIs(rows, rest);
      forall i | 0 <= i < |puts|
        ensures Get(PutAll(rows, puts), puts[i].threadId) == Stored(puts[i].row)
      {
        if i < |rest| { assert rest[i] == puts[i]; }
      }
      forall id | forall i :: 0 <= i < |puts| ==> puts[i].threadId != id
        ensures Get(PutAll(rows, puts), id) == Get(rows, id)
      {
        assert puts[|puts| - 1].threadId != id;
        assert forall i :: 0 <= i < |rest| ==> rest[i] == puts[i];
      }
    }
  }

  lemma {:induction false} PutAllAppends(rows: Rows, first: seq<Put>, second: seq<Put>)
    ensures PutAll(rows, first + second) == PutAll(PutAll(rows, first), second)
  {
    if second == [] {
      assert first + second == first;
    } else {
      var n := |second| - 1;
      assert (first + second)[..|first + second| - 1] == first + second[..n];
      PutAllAppends(rows, first, second[..n]);
    }
  }

  predicate Deletes(puts: seq<Put>) { forall i :: 0 <= i < |puts| ==> puts[i].row.None? }

  /** After the first k puts: the rows, and the threads whose row was put anew. */
  ghost predicate PutUpTo(before: Rows, rows: Rows, puts: seq<Put>, k: int, changed: set<string>)
    requires 0 <= k <= |puts|
  {
    && rows == PutAll(before, puts[..k])
    && (forall id :: Get(before, id) != Get(rows, id) ==> id in changed)
    && (forall id :: id in changed ==> exists i :: 0 <= i < k && puts[i].threadId == id)
    && (Once(puts) ==> forall id :: id in changed ==> Get(before, id) != Get(rows, id))
  }

  lemma PutOneMore(before: Rows, rows: Rows, puts: seq<Put>, k: nat, changed: set<string>)
    requires k < |puts| && PutUpTo(before, rows, puts, k, changed)
    ensures var next := PutOne(rows, puts[k].threadId, puts[k].row);
      PutUpTo(before, next, puts, k + 1, if Get(rows, puts[k].threadId) != Stored(puts[k].row) then changed + {puts[k].threadId} else changed)
  {
    assert puts[..k + 1][..k] == puts[..k];
    var id := puts[k].threadId;
    if Once(puts) && id !in changed { assert Get(before, id) == Get(rows, id); }
  }

  class LifecycleStore {
    var rows: Rows
    /** The table's rows. */
    var table: Rows
    /** Every row ever stored, so what an action returned can be told. */
    ghost var issued: set<Row>

    /** Memory equals the table, no empty row is stored, and marks are exclusive. */
    ghost predicate Valid()
      reads this
    {
      && rows == table && AllOk(rows)
      && (forall id :: id in rows ==> rows[id] in issued)
      && (forall row :: row in issued ==> RowOk(row))
    }

    constructor ()
      ensures Valid() && rows == map[] && issued == {}
    {
      rows, table, issued := map[], map[], {};
    }

    function RowOf(threadId: string): Option<Row>
      reads this
    {
      Get(rows, threadId)
    }

    /** Writes each row through in one transaction; `changed` names the threads whose row changed. */
    method PutMany(puts: seq<Put>) returns (changed: set<string>)
      requires Valid() && PutsOk(puts)
      modifies this
      ensures Valid() && old(issued) <= issued
      ensures rows == PutAll(old(rows), puts)
      ensures Deletes(puts) ==> issued == old(issued)
      ensures forall id :: old(RowOf(id)) != RowOf(id) ==> id in changed
      ensures forall id :: id in changed ==> exists i :: 0 <= i < |puts| && puts[i].threadId == id
      ensures Once(puts) ==> forall id :: id in changed ==> old(RowOf(id)) != RowOf(id)
    {
      changed := {};
      ghost var before := rows;
      for i := 0 to |puts|
        invariant Valid() && old(issued) <= issued && (Deletes(puts) ==> issued == old(issued))
        invariant PutUpTo(before, rows, puts, i, changed)
      {
        PutOneMore(before, rows, puts, i, changed);
        var moved := PutRow(puts[i].threadId, puts[i].row);
        if moved { changed := changed + {puts[i].threadId}; }
      }
      assert puts[..|puts|] == puts;
    }

    /** Stores one row, unless it is the one there is. */
    method PutRow(threadId: string, row: Option<Row>) returns (moved: bool)
      requires Valid() && (row.Some? ==> RowOk(row.value))
      modifies this
      ensures Valid() && old(issued) <= issued
      ensures rows == PutOne(old(rows), threadId, row)
      ensures row.None? ==> issued == old(issued)
      ensures moved <==> Get(old(rows), threadId) != Stored(row)
    {
      var next := Stored(row);
      moved := RowOf(threadId).GetOr(EMPTY_ROW) != next.GetOr(EMPTY_ROW);
      if moved {
        if next.None? {
          table := table - {threadId};
          rows := rows - {threadId};
        } else {
          table := table[threadId := next.value];
          rows := rows[threadId := next.value];
          issued := issued + {next.value};
        }
      } else {
        assert rows == PutOne(rows, threadId, row);
      }
    }

    /** Writes a map of rows through: each named thread as put, every other row left. */
    method PutMap(updates: map<string, Option<Row>>) returns (changed: set<string>)
      requires Valid() && forall id :: id in updates && updates[id].Some? ==> RowOk(updates[id].value)
      modifies this
      ensures Valid() && old(issued) <= issued
      ensures forall id :: RowOf(id) == if id in updates then Stored(updates[id]) else old(RowOf(id))
      ensures forall id :: id in changed <==> RowOf(id) != old(RowOf(id))
      ensures (forall id :: id in updates ==> updates[id].None?) ==> issued == old(issued)
    {
      var puts: seq<Put> := [];
      var left := updates.Keys;
      while left != {}
        invariant left <= updates.Keys && Once(puts) && PutsOk(puts)
        invariant forall i :: 0 <= i < |puts| ==> puts[i].threadId in updates && puts[i].threadId !in left && puts[i].row == updates[puts[i].threadId]
        invariant forall id :: id in updates && id !in left ==> Put(id, updates[id]) in puts
        decreases |left|
      {
        var id :| id in left;
        left := left - {id};
        puts := puts + [Put(id, updates[id])];
      }
      ghost var before := rows;
      changed := PutMany(puts);
      PutAllIs(before, puts);
      forall id ensures RowOf(id) == if id in updates then Stored(updates[id]) else Get(before, id) {
        if id in updates {
          var i :| 0 <= i < |puts| && puts[i] == Put(id, updates[id]);
        }
      }
    }

    /** Deletes the rows of the threads, each through the table. */
    method Forget(threadIds: set<string>) returns (gone: set<string>)
      requires Valid()
      modifies this
      ensures Valid() && issued == old(issued)
      ensures rows == old(rows) - threadIds && gone == old(rows).Keys * threadIds
    {
      var updates: map<string, Option<Row>> := map id | id in threadIds && id in rows :: None;
      gone := PutMap(updates);
      assert forall id :: RowOf(id) == if id in threadIds then None else old(RowOf(id));
      GoneFrom(old(rows), rows, threadIds, gone);
    }

    /** Deletes the rows of threads missing from `live`, each through the table. */
    method Prune(live: set<string>) returns (gone: set<string>)
      requires Valid()
      modifies this
      ensures Valid() && issued == old(issued)
      ensures rows == map id | id in old(rows) && id in live :: old(rows)[id]
      ensures gone == old(rows).Keys - live
    {
      var updates: map<string, Option<Row>> := map id | id in rows && id !in live :: None;
      gone := PutMap(updates);
      assert updates.Keys == old(rows).Keys - live;
      assert forall id :: RowOf(id) == if id in updates.Keys then None else old(RowOf(id));
      GoneFrom(old(rows), rows, updates.Keys, gone);
    }
  }

  lemma GoneFrom(before: Rows, after: Rows, ids: set<string>, gone: set<string>)
    requires forall id :: Get(after, id) == if id in ids then None else Get(before, id)
    requires forall id :: id in gone <==> Get(after, id) != Get(before, id)
    ensures after == before - ids && gone == before.Keys * ids
  {
    forall id ensures id in after <==> id in before - ids { assert Get(after, id) == if id in ids then None else Get(before, id); }
    forall id | id in after ensures after[id] == before[id] { assert Get(after, id) == Get(before, id); }
    forall id ensures id in gone <==> id in before.Keys * ids { assert Get(after, id) == if id in ids then None else Get(before, id); }
  }
}
