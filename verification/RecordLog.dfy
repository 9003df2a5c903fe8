/** The server's side of sync: the archived threads it heard of, and the revision log of its thread records. */
module RecordLog {
  import opened Common
  import opened Lifecycle
  import opened LifecycleStore
  import opened RecordSync

  class ArchivedThreads {
    var archived: set<string>
    /** What events said since the server started. */
    var heard: map<string, bool>
    /** Whether the startup listing has arrived. */
    ghost var listed: bool

    constructor ()
      ensures Valid() && archived == {} && !listed
    {
      archived, heard, listed := {}, map[], false;
    }

    /** Events win; before the listing, nothing else is known. */
    ghost predicate Valid()
      reads this
    {
      && (forall id :: id in heard ==> (heard[id] <==> id in archived))
      && (!listed ==> forall id :: id in archived ==> id in heard)
    }

    method Archive(threadId: string)
      requires Valid()
      modifies this
      ensures Valid() && archived == old(archived) + {threadId} && listed == old(listed)
    {
      heard := heard[threadId := true];
      archived := archived + {threadId};
    }

    method Unarchive(threadId: string)
      requires Valid()
      modifies this
      ensures Valid() && archived == old(archived) - {threadId} && listed == old(listed)
    {
      heard := heard[threadId := false];
      archived := archived - {threadId};
    }

    /**
     * Takes the startup listing. A thread archived by an event since it was
     * read is kept, and one unarchived or deleted since is left out, so the
     * first listing takes nothing out of the archive.
     */
    method Replace(threadIds: seq<string>)
      requires Valid()
      modifies this
      ensures Valid() && listed
      ensures forall id :: id in archived <==> if id in heard then heard[id] else id in threadIds
      ensures !old(listed) ==> old(archived) <= archived
      ensures heard == old(heard)
    {
      archived, listed := {}, true;
      for i := 0 to |threadIds|
        invariant heard == old(heard) && listed
        invariant forall id :: id in archived <==> id in threadIds[..i] && !(id in heard && !heard[id])
      {
        if !(threadIds[i] in heard && !heard[threadIds[i]]) {
          archived := archived + {threadIds[i]};
        }
      }
      assert threadIds[..|threadIds|] == threadIds;
      var left := heard.Keys;
      while left != {}
        invariant left <= heard.Keys && heard == old(heard) && listed
        invariant forall id :: id in archived <==> (id in threadIds && !(id in heard && !heard[id])) || (id in heard && id !in left && heard[id])
        decreases |left|
      {
        var id :| id in left;
        left := left - {id};
        if heard[id] { archived := archived + {id}; }
      }
    }
  }

  class RecordLog {
    const store: LifecycleStore
    const threads: ArchivedThreads
    const epoch: string
    var revision: nat
    /** The revision of each thread's last change in this epoch. */
    var changed: map<string, nat>
    ghost var history: History

    constructor (store: LifecycleStore, threads: ArchivedThreads, epoch: string)
      ensures this.store == store && this.threads == threads && this.epoch == epoch
      ensures Valid() && Current()
    {
      this.store, this.threads, this.epoch := store, threads, epoch;
      revision, changed := 0, map[];
      history := History([store.rows], [threads.archived], [{}]);
    }

    ghost predicate Valid()
      reads this`revision, this`changed, this`history
    {
      && HistoryOk(history) && Revision(history) == revision
      && forall id :: LastTouch(id)
    }

    /** The log holds the last revision that touched the thread, if any did. */
    ghost predicate LastTouch(id: string)
      requires HistoryOk(history) && Revision(history) == revision
      reads this`revision, this`changed, this`history
    {
      && (id in changed ==> 1 <= changed[id] <= revision && id in history.touched[changed[id]])
      && (forall t :: 1 <= t <= revision && id in history.touched[t] ==> id in changed && t <= changed[id])
    }

    /** The history ends with the rows and the archive as they are. */
    ghost predicate Current()
      reads this, store, threads
    {
      RowsNow(history) == store.rows && ArchivedNow(history) == threads.archived
    }

    function RecordOf(threadId: string): Option<Row>
      reads store
    {
      store.RowOf(threadId)
    }

    /** The threads' last revision set, and their records. */
    method Stamp(threadIds: seq<string>, at: nat) returns (after: map<string, nat>, records: Records)
      ensures after.Keys == changed.Keys + Elements(threadIds)
      ensures forall id :: id in after ==> after[id] == if id in threadIds then at else changed[id]
      ensures forall id :: id in records <==> id in threadIds
      ensures forall id :: id in records ==> records[id] == RecordOf(id)
    {
      after, records := changed, map[];
      for i := 0 to |threadIds|
        invariant forall id :: id in after <==> id in changed || id in threadIds[..i]
        invariant forall id :: id in after ==> after[id] == if id in threadIds[..i] then at else changed[id]
        invariant forall id :: id in records <==> id in threadIds[..i]
        invariant forall id :: id in records ==> records[id] == RecordOf(id)
      {
        after := after[threadIds[i] := at];
        records := records[threadIds[i] := RecordOf(threadIds[i])];
      }
      assert threadIds[..|threadIds|] == threadIds;
    }

    /** Takes a revision for the change that touched the threads, and publishes their records; nothing when it touched none. */
    method Publish(threadIds: seq<string>) returns (signal: Option<Signal>)
      requires Valid() && MayChange(history, store.rows, threads.archived, Elements(threadIds))
      modifies this`revision, this`changed, this`history
      ensures Valid() && Current()
      ensures history == Changed(old(history), store.rows, threads.archived, Elements(threadIds))
      ensures signal.Some? <==> threadIds != []
      ensures signal.Some? ==> signal.value.epoch == epoch && signal.value.revision == revision && IsSignal(history, signal.value)
    {
      signal := None;
      ChangedOk(history, store.rows, threads.archived, Elements(threadIds));
      ghost var touched := Elements(threadIds);
      if threadIds == [] {
        assert touched == {};
        history := Changed(history, store.rows, threads.archived, touched);
        SameRows(old(history), store.rows, threads.archived);
        forall id ensures LastTouch(id) { assert old(LastTouch(id)); }
      } else {
        assert threadIds[0] in touched;
        var after, records := Stamp(threadIds, revision + 1);
        assert forall id :: id in threadIds <==> id in touched;
        history := Changed(history, store.rows, threads.archived, touched);
        revision, changed := revision + 1, after;
        forall id ensures LastTouch(id) { assert old(LastTouch(id)); }
        signal := Some(Signal(epoch, revision, records));
      }
    }

    /** The records changed since, or for a window that has seen nothing of this epoch, those of every thread not archived. */
    method Since(since: Option<SyncPoint>) returns (answer: Answer)
      requires Valid() && Current()
      ensures IsAnswer(history, since, answer) && answer.epoch == epoch && answer.revision == revision
      ensures answer.full ==> forall id :: id in answer.records <==> id in store.rows && id !in threads.archived
    {
      var records: Records := map[];
      var delta := since.Some? && since.value.epoch == epoch && since.value.revision <= revision;
      if delta {
        var left := changed.Keys;
        while left != {}
          invariant left <= changed.Keys
          invariant forall id :: id in records <==> id in changed && id !in left && changed[id] > since.value.revision
          invariant forall id :: id in records ==> records[id] == RecordOf(id)
          decreases |left|
        {
          var id :| id in left;
          left := left - {id};
          if changed[id] > since.value.revision { records := records[id := RecordOf(id)]; }
        }
        forall id ensures id in records <==> Touched(history, id, since.value.revision, revision) {
          assert LastTouch(id);
        }
      } else {
        var left := store.rows.Keys;
        while left != {}
          invariant left <= store.rows.Keys
          invariant forall id :: id in records <==> id in store.rows && id !in left && id !in threads.archived
          invariant forall id :: id in records ==> records[id] == RecordOf(id)
          decreases |left|
        {
          var id :| id in left;
          left := left - {id};
          if id !in threads.archived { records := records[id := RecordOf(id)]; }
        }
      }
      answer := Answer(epoch, revision, !delta, records);
    }
  }

  lemma SameRows(h: History, rows: Rows, archived: set<string>)
    requires HistoryOk(h) && MayChange(h, rows, archived, {})
    ensures RowsNow(h) == rows
  {
    assert forall id :: Get(rows, id) == Get(RowsNow(h), id);
    assert forall id :: id in rows <==> Get(rows, id).Some?;
    assert forall id :: id in RowsNow(h) <==> Get(RowsNow(h), id).Some?;
    forall id | id in rows ensures id in RowsNow(h) && rows[id] == RowsNow(h)[id] { assert Get(rows, id) == Get(RowsNow(h), id); }
  }
}
