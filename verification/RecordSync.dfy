/**
 * The revision log behind sync, and the records a window holds from its
 * answers and signals: deltas, full answers and signals, in whatever order
 * they arrive, leave the window with the server's rows.
 */
module RecordSync {
  import opened Common
  import opened Lifecycle
  import opened LifecycleStore

  datatype SyncPoint = SyncPoint(epoch: string, revision: nat)

  /** Thread records by id; a thread without a row has a record of none. */
  type Records = map<string, Option<Row>>

  datatype Answer = Answer(epoch: string, revision: nat, full: bool, records: Records)

  datatype Signal = Signal(epoch: string, revision: nat, records: Records)

  // ---- what a window holds ----

  datatype Held = Held(lifecycle: Rows, point: Option<SyncPoint>, revisions: map<string, nat>)

  const NO_RECORDS: Held := Held(map[], None, map[])

  predicate IsSameEpoch(held: Held, epoch: string) { held.point.Some? && held.point.value.epoch == epoch }

  /** A record is taken unless a later one is already held. */
  predicate Takes(held: Held, records: Records, revision: nat, id: string) {
    id in records && !(id in held.revisions && held.revisions[id] > revision)
  }

  function RowTaken(held: Held, records: Records, revision: nat, id: string): Option<Row> {
    if Takes(held, records, revision, id) then records[id] else Get(held.lifecycle, id)
  }

  function WithRecords(held: Held, records: Records, revision: nat): Held {
    Held(
      map id | id in held.lifecycle.Keys + records.Keys && RowTaken(held, records, revision, id).Some? :: RowTaken(held, records, revision, id).value,
      held.point,
      map id | id in held.revisions.Keys + records.Keys :: if Takes(held, records, revision, id) then revision else held.revisions[id])
  }

  /** The records held at a later revision than the answer's: they came by signal after it was made. */
  function Later(held: Held, revision: nat): set<string> {
    set id | id in held.revisions && held.revisions[id] > revision
  }

  /** A full answer replaces what was held, but for what came later; a delta changes what it names. */
  function ApplySync(held: Held, answer: Answer): Held {
    var same := IsSameEpoch(held, answer.epoch);
    var point := SyncPoint(answer.epoch, Max(answer.revision, if same then held.point.value.revision else 0));
    if !answer.full then WithRecords(held, answer.records, answer.revision).(point := Some(point))
    else
      var replaced := WithRecords(NO_RECORDS, answer.records, answer.revision);
      var later := if same then Later(held, answer.revision) else {};
      Held(
        map id | id in replaced.lifecycle.Keys + held.lifecycle.Keys && (if id in later then id in held.lifecycle else id in replaced.lifecycle) ::
          if id in later then held.lifecycle[id] else replaced.lifecycle[id],
        Some(point),
        map id | id in replaced.revisions.Keys + later :: if id in later then held.revisions[id] else replaced.revisions[id])
  }

  /** A signal of another epoch is refused: only a full answer settles that. */
  function ApplySignal(held: Held, signal: Signal): Option<Held> {
    if !IsSameEpoch(held, signal.epoch) then if held.point.None? then Some(held) else None
    else
      var next := WithRecords(held, signal.records, signal.revision);
      if signal.revision > held.point.value.revision then Some(next.(point := Some(SyncPoint(signal.epoch, signal.revision)))) else Some(next)
  }

  /** What the window has of a thread after records of a revision: theirs, unless it has a later one. */
  ghost predicate HoldsAfter(was: Held, now: Held, records: Records, revision: nat, id: string) {
    if id in records && (id in was.revisions ==> was.revisions[id] <= revision)
    then Get(now.lifecycle, id) == records[id] && Get(now.revisions, id) == Some(revision)
    else Get(now.lifecycle, id) == Get(was.lifecycle, id) && Get(now.revisions, id) == Get(was.revisions, id)
  }

  /**
   * What a signal does: nothing before the first answer; one of another epoch
   * is refused, which asks for a full answer; else its records are taken and
   * the window's revision rises to the signal's, never back.
   */
  lemma SignalTaken(held: Held, signal: Signal, id: string)
    ensures held.point == None ==> ApplySignal(held, signal) == Some(held)
    ensures held.point.Some? && held.point.value.epoch != signal.epoch ==> ApplySignal(held, signal) == None
    ensures held.point.Some? && held.point.value.epoch == signal.epoch ==>
      && ApplySignal(held, signal).Some?
      && var now := ApplySignal(held, signal).value;
         && HoldsAfter(held, now, signal.records, signal.revision, id)
         && now.point == Some(SyncPoint(signal.epoch, if signal.revision < held.point.value.revision then held.point.value.revision else signal.revision))
  {
  }

  /** What a delta does: its records are taken, and the window is at the higher of its revision and the answer's, or at the answer's in a new epoch. */
  lemma DeltaTaken(held: Held, answer: Answer, id: string)
    requires !answer.full
    ensures HoldsAfter(held, ApplySync(held, answer), answer.records, answer.revision, id)
    ensures PointAfter(held, answer, ApplySync(held, answer).point)
  {
  }

  ghost predicate PointAfter(held: Held, answer: Answer, point: Option<SyncPoint>) {
    if held.point.Some? && held.point.value.epoch == answer.epoch && held.point.value.revision > answer.revision then point == held.point
    else point == Some(SyncPoint(answer.epoch, answer.revision))
  }

  /** What a full answer does: all of it, and nothing else but what came at a later revision of its epoch. */
  lemma FullTaken(held: Held, answer: Answer, id: string)
    requires answer.full
    ensures var now := ApplySync(held, answer);
      if held.point.Some? && held.point.value.epoch == answer.epoch && id in held.revisions && held.revisions[id] > answer.revision
      then Get(now.lifecycle, id) == Get(held.lifecycle, id) && Get(now.revisions, id) == Get(held.revisions, id)
      else if id in answer.records then Get(now.lifecycle, id) == answer.records[id] && Get(now.revisions, id) == Some(answer.revision)
      else id !in now.lifecycle && id !in now.revisions
    ensures PointAfter(held, answer, ApplySync(held, answer).point)
  {
  }

  // ---- the server's history ----

  /**
   * What the server went through in one epoch, revision by revision: the
   * rows, the threads archived when the revision was last the current one,
   * and the threads the change that made the revision touched.
   */
  datatype History = History(rows: seq<Rows>, archived: seq<set<string>>, touched: seq<set<string>>)

  function Revision(h: History): int { |h.rows| - 1 }

  function RowsNow(h: History): Rows { if h.rows == [] then map[] else h.rows[|h.rows| - 1] }

  function ArchivedNow(h: History): set<string> { if h.archived == [] then {} else h.archived[|h.archived| - 1] }

  ghost predicate HistoryOk(h: History) {
    && 1 <= |h.rows| == |h.archived| == |h.touched|
    && forall r, id {:trigger id in h.touched[r]} :: 1 <= r < |h.rows| && id !in h.touched[r] ==> Kept(h, r, id)
  }

  /** A thread no change touched keeps its row, and stays archived if it was with one. */
  ghost predicate Kept(h: History, r: int, id: string)
    requires 1 <= r < |h.rows| && |h.rows| == |h.archived|
  {
    && Get(h.rows[r], id) == Get(h.rows[r - 1], id)
    && (id in h.archived[r - 1] && id in h.rows[r] ==> id in h.archived[r])
  }

  /** A change that touched threads takes a revision. It reports every row it moved, and every thread with a row it unarchived. */
  ghost predicate MayChange(h: History, rows: Rows, archived: set<string>, touched: set<string>)
    requires HistoryOk(h)
  {
    forall id :: id !in touched ==>
      && Get(rows, id) == Get(h.rows[Revision(h)], id)
      && (id in h.archived[Revision(h)] && id in rows ==> id in archived)
  }

  function Changed(h: History, rows: Rows, archived: set<string>, touched: set<string>): History
    requires |h.archived| > 0
  {
    if touched == {} then h.(archived := h.archived[..|h.archived| - 1] + [archived])
    else History(h.rows + [rows], h.archived + [archived], h.touched + [touched])
  }

  lemma ChangedOk(h: History, rows: Rows, archived: set<string>, touched: set<string>)
    requires HistoryOk(h) && MayChange(h, rows, archived, touched)
    ensures HistoryOk(Changed(h, rows, archived, touched))
  {
    var next := Changed(h, rows, archived, touched);
    forall r, id | 1 <= r < |next.rows| && id !in next.touched[r] ensures Kept(next, r, id) {
      if r < |h.rows| { assert id !in h.touched[r]; assert Kept(h, r, id); }
    }
  }

  /** The history goes on: earlier revisions stay as they were, and a thread with a row leaves the archive only by a change that touches it. */
  ghost predicate GoesOn(h: History, next: History) {
    && 1 <= |h.rows| == |h.archived| == |h.touched| && |h.rows| <= |next.rows| == |next.archived| == |next.touched|
    && h.rows <= next.rows && h.touched <= next.touched
    && forall q, id :: 0 <= q < |h.rows| && id in h.archived[q] && id in h.rows[q] ==> id in next.archived[q]
  }

  lemma ChangedGoesOn(h: History, rows: Rows, archived: set<string>, touched: set<string>)
    requires HistoryOk(h) && MayChange(h, rows, archived, touched)
    ensures GoesOn(h, Changed(h, rows, archived, touched))
  {
  }

  // ---- what a record may show ----

  ghost predicate Touched(h: History, id: string, after: int, upTo: int)
    requires |h.touched| > 0
  {
    exists t :: Max(after, 0) < t <= upTo && t < |h.touched| && id in h.touched[t]
  }

  /** The row of the revision, or none for a thread archived at it. */
  ghost predicate Right(h: History, q: int, id: string, row: Option<Row>)
    requires 0 <= q < |h.rows| == |h.archived|
  {
    row == Get(h.rows[q], id) || (row.None? && id in h.archived[q])
  }

  /** A record right at a revision stays right until a change touches its thread. */
  lemma {:induction false} RightStays(h: History, id: string, row: Option<Row>, q: int, upTo: int)
    requires HistoryOk(h) && 0 <= q <= upTo < |h.rows| && Right(h, q, id, row) && !Touched(h, id, q, upTo)
    ensures Right(h, upTo, id, row)
    decreases upTo - q
  {
    if q < upTo {
      assert id !in h.touched[q + 1];
      assert Kept(h, q + 1, id);
      RightStays(h, id, row, q + 1, upTo);
    }
  }

  lemma RightGoesOn(h: History, next: History, q: int, id: string, row: Option<Row>)
    requires GoesOn(h, next) && 0 <= q < |h.rows| && Right(h, q, id, row)
    ensures Right(next, q, id, row)
  {
    assert h.rows[q] == next.rows[q];
  }

  // ---- answers and signals, as the server's history has them ----

  /** A signal carries the rows its revision touched, as it left them. */
  ghost predicate IsSignal(h: History, signal: Signal) {
    && 1 <= signal.revision < |h.rows| == |h.touched|
    && (forall id :: id in signal.records <==> id in h.touched[signal.revision])
    && (forall id :: id in signal.records ==> signal.records[id] == Get(h.rows[signal.revision], id))
  }

  /** A delta names the threads touched since, a full answer every thread with a row that is not archived; each with its row now. */
  ghost predicate IsAnswer(h: History, since: Option<SyncPoint>, answer: Answer) {
    && 0 <= answer.revision < |h.rows| == |h.archived| == |h.touched|
    && (answer.full <==> !(since.Some? && since.value.epoch == answer.epoch && since.value.revision <= answer.revision))
    && (forall id :: id in answer.records ==> answer.records[id] == Get(h.rows[answer.revision], id))
    && (!answer.full ==> forall id :: id in answer.records <==> Touched(h, id, since.value.revision, answer.revision))
    && (answer.full ==> forall id :: id !in answer.records ==> Right(h, answer.revision, id, None))
  }

  lemma TouchedGoesOn(h: History, next: History, id: string, after: int, upTo: int)
    requires GoesOn(h, next) && upTo < |h.rows|
    ensures Touched(h, id, after, upTo) <==> Touched(next, id, after, upTo)
  {
    assert forall t :: 0 <= t < |h.touched| ==> h.touched[t] == next.touched[t];
  }

  lemma AnswerGoesOn(h: History, next: History, since: Option<SyncPoint>, answer: Answer)
    requires GoesOn(h, next) && IsAnswer(h, since, answer)
    ensures IsAnswer(next, since, answer)
  {
    assert h.rows[answer.revision] == next.rows[answer.revision];
    if !answer.full {
      forall id { TouchedGoesOn(h, next, id, since.value.revision, answer.revision); }
    } else {
      forall id | id !in answer.records ensures Right(next, answer.revision, id, None) {
        RightGoesOn(h, next, answer.revision, id, None);
      }
    }
  }

  /**
   * A delta is as good as a full answer: a view right at revision r, with the
   * answer since r applied, is right at the answer's revision, for every
   * thread; so it has the store's row of every thread not archived.
   */
  lemma DeltaIsAsGoodAsFull(h: History, held: Held, since: SyncPoint, answer: Answer, id: string)
    requires HistoryOk(h) && IsAnswer(h, Some(since), answer) && !answer.full
    requires Right(h, since.revision, id, Get(held.lifecycle, id))
    requires id in held.revisions ==> held.revisions[id] <= answer.revision
    ensures Right(h, answer.revision, id, Get(ApplySync(held, answer).lifecycle, id))
    ensures id !in h.archived[answer.revision] ==> Get(ApplySync(held, answer).lifecycle, id) == Get(h.rows[answer.revision], id)
  {
    if id !in answer.records {
      RightStays(h, id, Get(held.lifecycle, id), since.revision, answer.revision);
    }
  }

  lemma FullIsRight(h: History, held: Held, since: Option<SyncPoint>, answer: Answer, id: string)
    requires HistoryOk(h) && IsAnswer(h, since, answer) && answer.full
    requires IsSameEpoch(held, answer.epoch) && id in held.revisions ==> held.revisions[id] <= answer.revision
    ensures Right(h, answer.revision, id, Get(ApplySync(held, answer).lifecycle, id))
  {
  }

  // ---- a window that follows the server ----

  /**
   * What one record of a window is worth, when its last answer was made at
   * `answered` and the signals up to `delivered` have arrived. Ahead of the
   * answer, it is right as of the last signal. Behind it, signals older than
   * the answer may still pass over a record the answer left out, until those
   * that follow have come too.
   */
  ghost predicate RecordOk(h: History, id: string, row: Option<Row>, rev: Option<nat>, answered: int, delivered: int)
    requires 0 <= answered < |h.rows| == |h.archived| == |h.touched| && 0 <= delivered < |h.rows|
  {
    && (rev.Some? ==> rev.value <= Max(answered, delivered))
    && (delivered >= answered ==> Right(h, delivered, id, row) && SignalsHeld(h, id, rev, answered, delivered))
    && (delivered < answered && rev.Some? && rev.value > delivered ==> Right(h, answered, id, row))
    && (delivered < answered && !(rev.Some? && rev.value > delivered) ==> Right(h, delivered, id, row) || Right(h, answered, id, row))
  }

  /** A record touched by a signal since the answer is held at that revision or later. */
  ghost predicate SignalsHeld(h: History, id: string, rev: Option<nat>, answered: int, delivered: int)
    requires 0 <= answered && delivered < |h.touched|
  {
    forall t :: answered < t <= delivered && id in h.touched[t] ==> rev.Some? && rev.value >= t
  }

  lemma OneSignalOn(h: History, held: Held, signal: Signal, id: string, answered: int)
    requires HistoryOk(h) && IsSignal(h, signal) && 0 <= answered < |h.rows|
    requires RecordOk(h, id, Get(held.lifecycle, id), Get(held.revisions, id), answered, signal.revision - 1)
    ensures var next := WithRecords(held, signal.records, signal.revision);
      RecordOk(h, id, Get(next.lifecycle, id), Get(next.revisions, id), answered, signal.revision)
  {
    var s, row := signal.revision, Get(held.lifecycle, id);
    if id !in h.touched[s] {
      if Right(h, s - 1, id, row) { RightStays(h, id, row, s - 1, s); }
    }
  }

  lemma OneAnswerOn(h: History, held: Held, since: Option<SyncPoint>, answer: Answer, id: string, answered: int, delivered: int)
    requires HistoryOk(h) && IsAnswer(h, since, answer) && !answer.full
    requires 0 <= answered <= since.value.revision <= Max(answered, delivered) && answered <= answer.revision && 0 <= delivered < |h.rows|
    requires RecordOk(h, id, Get(held.lifecycle, id), Get(held.revisions, id), answered, delivered)
    ensures var next := ApplySync(held, answer);
      RecordOk(h, id, Get(next.lifecycle, id), Get(next.revisions, id), answer.revision, delivered)
  {
    var r, row := answer.revision, Get(held.lifecycle, id);
    if id in answer.records {
      if delivered > r && Takes(held, answer.records, r, id) {
        assert !Touched(h, id, r, delivered);
        RightStays(h, id, answer.records[id], r, delivered);
      }
    } else if delivered >= answered {
      assert Right(h, delivered, id, row);
    } else if Right(h, answered, id, row) {
      assert !Touched(h, id, answered, r);
      RightStays(h, id, row, answered, r);
    }
  }

  /** The server and one window on an unbroken connection: its sync asked, the answer under way, and the signals that have arrived. */
  datatype System = System(epoch: string, h: History, held: Held, answered: nat, delivered: nat, asked: Option<Option<SyncPoint>>, answer: Option<Answer>)

  datatype Event =
    | ServerChanges(rows: Rows, archived: set<string>, touched: set<string>)
    | WindowAsks
    | ServerAnswers(made: Answer)
    | AnswerArrives
    | SignalArrives(signal: Signal)

  /** A window opens with nothing held for certain; the signals it will get are those after the revision it opened at. */
  ghost predicate Opens(sys: System) {
    && HistoryOk(sys.h) && sys.held.point.None? && sys.held.revisions == map[]
    && sys.delivered == Revision(sys.h) && sys.asked.None? && sys.answer.None?
  }

  /** One sync at a time; signals in order, and none taken before the first answer. */
  ghost predicate Enabled(sys: System, event: Event) {
    match event
    case ServerChanges(rows, archived, touched) => HistoryOk(sys.h) && MayChange(sys.h, rows, archived, touched)
    case WindowAsks => sys.asked.None?
    case ServerAnswers(answer) =>
      && sys.asked.Some? && sys.answer.None?
      && answer.epoch == sys.epoch && answer.revision == Revision(sys.h) && IsAnswer(sys.h, sys.asked.value, answer)
    case AnswerArrives => sys.answer.Some?
    case SignalArrives(signal) =>
      sys.held.point.Some? && signal.epoch == sys.epoch && signal.revision == sys.delivered + 1 && IsSignal(sys.h, signal)
  }

  ghost function Next(sys: System, event: Event): System
    requires Enabled(sys, event)
  {
    match event
    case ServerChanges(rows, archived, touched) => sys.(h := Changed(sys.h, rows, archived, touched))
    case WindowAsks => sys.(asked := Some(sys.held.point))
    case ServerAnswers(answer) => sys.(answer := Some(answer))
    case AnswerArrives =>
      sys.(held := ApplySync(sys.held, sys.answer.value), answered := sys.answer.value.revision, asked := None, answer := None)
    case SignalArrives(signal) =>
      sys.(held := ApplySignal(sys.held, signal).GetOr(sys.held), delivered := signal.revision)
  }

  ghost predicate AllOkAt(h: History, held: Held, answered: int, delivered: int)
    requires 0 <= answered < |h.rows| == |h.archived| == |h.touched| && 0 <= delivered < |h.rows|
  {
    forall id :: RecordOk(h, id, Get(held.lifecycle, id), Get(held.revisions, id), answered, delivered)
  }

  ghost predicate Following(sys: System) {
    && HistoryOk(sys.h) && sys.delivered < |sys.h.rows|
    && (sys.held.point.None? ==> sys.held.revisions == map[])
    && (sys.held.point.Some? ==>
          && sys.answered < |sys.h.rows|
          && sys.held.point == Some(SyncPoint(sys.epoch, Max(sys.answered, sys.delivered)))
          && AllOkAt(sys.h, sys.held, sys.answered, sys.delivered))
  }

  ghost predicate AskedOk(sys: System) {
    && (sys.answer.Some? ==> sys.asked.Some?)
    && (sys.asked.Some? ==> (sys.asked.value.Some? <==> sys.held.point.Some?))
    && (sys.asked.Some? && sys.asked.value.Some? ==>
          && sys.asked.value.value.epoch == sys.epoch
          && sys.answered <= sys.asked.value.value.revision <= Max(sys.answered, sys.delivered))
  }

  ghost predicate AnswerOk(sys: System) {
    sys.answer.Some? && sys.asked.Some? ==>
      && IsAnswer(sys.h, sys.asked.value, sys.answer.value) && sys.answer.value.epoch == sys.epoch
      && (sys.asked.value.Some? ==> sys.asked.value.value.revision <= sys.answer.value.revision)
      && (sys.held.point.None? ==> sys.delivered <= sys.answer.value.revision)
  }

  ghost predicate SystemOk(sys: System) { Following(sys) && AskedOk(sys) && AnswerOk(sys) }

  lemma RecordGoesOn(h: History, next: History, id: string, row: Option<Row>, rev: Option<nat>, answered: int, delivered: int)
    requires GoesOn(h, next) && 0 <= answered < |h.rows| && 0 <= delivered < |h.rows|
    requires RecordOk(h, id, row, rev, answered, delivered)
    ensures RecordOk(next, id, row, rev, answered, delivered)
  {
    if Right(h, delivered, id, row) { RightGoesOn(h, next, delivered, id, row); }
    if Right(h, answered, id, row) { RightGoesOn(h, next, answered, id, row); }
    assert forall t :: 0 <= t < |h.touched| ==> h.touched[t] == next.touched[t];
  }

  lemma ChangesKeepOk(sys: System, rows: Rows, archived: set<string>, touched: set<string>)
    requires SystemOk(sys) && MayChange(sys.h, rows, archived, touched)
    ensures SystemOk(sys.(h := Changed(sys.h, rows, archived, touched)))
  {
    var next := Changed(sys.h, rows, archived, touched);
    ChangedOk(sys.h, rows, archived, touched);
    ChangedGoesOn(sys.h, rows, archived, touched);
    if sys.held.point.Some? {
      forall id
        ensures RecordOk(next, id, Get(sys.held.lifecycle, id), Get(sys.held.revisions, id), sys.answered, sys.delivered)
      {
        RecordGoesOn(sys.h, next, id, Get(sys.held.lifecycle, id), Get(sys.held.revisions, id), sys.answered, sys.delivered);
      }
    }
    if sys.answer.Some? { AnswerGoesOn(sys.h, next, sys.asked.value, sys.answer.value); }
  }

  lemma DeltaKeepsOk(sys: System)
    requires SystemOk(sys) && sys.answer.Some? && sys.asked.value.Some?
    ensures SystemOk(Next(sys, AnswerArrives))
  {
    var since, answer := sys.asked.value.value, sys.answer.value;
    var next := Next(sys, AnswerArrives);
    forall id
      ensures RecordOk(sys.h, id, Get(next.held.lifecycle, id), Get(next.held.revisions, id), answer.revision, sys.delivered)
    {
      assert RecordOk(sys.h, id, Get(sys.held.lifecycle, id), Get(sys.held.revisions, id), sys.answered, sys.delivered);
      OneAnswerOn(sys.h, sys.held, Some(since), answer, id, sys.answered, sys.delivered);
    }
  }

  lemma FirstAnswerKeepsOk(sys: System)
    requires SystemOk(sys) && sys.answer.Some? && sys.asked.value.None?
    ensures SystemOk(Next(sys, AnswerArrives))
  {
    var answer := sys.answer.value;
    var next := Next(sys, AnswerArrives);
    forall id
      ensures RecordOk(sys.h, id, Get(next.held.lifecycle, id), Get(next.held.revisions, id), answer.revision, sys.delivered)
    {
      FullIsRight(sys.h, sys.held, None, answer, id);
    }
  }

  lemma SignalKeepsOk(sys: System, signal: Signal)
    requires SystemOk(sys) && Enabled(sys, SignalArrives(signal))
    ensures SystemOk(Next(sys, SignalArrives(signal)))
  {
    var next := Next(sys, SignalArrives(signal));
    forall id
      ensures RecordOk(sys.h, id, Get(next.held.lifecycle, id), Get(next.held.revisions, id), sys.answered, signal.revision)
    {
      assert RecordOk(sys.h, id, Get(sys.held.lifecycle, id), Get(sys.held.revisions, id), sys.answered, sys.delivered);
      OneSignalOn(sys.h, sys.held, signal, id, sys.answered);
    }
  }

  lemma StepKeepsOk(sys: System, event: Event)
    requires SystemOk(sys) && Enabled(sys, event)
    ensures SystemOk(Next(sys, event))
  {
    match event
    case ServerChanges(rows, archived, touched) => ChangesKeepOk(sys, rows, archived, touched);
    case WindowAsks =>
    case ServerAnswers(answer) =>
    case AnswerArrives => if sys.asked.value.Some? { DeltaKeepsOk(sys); } else { FirstAnswerKeepsOk(sys); }
    case SignalArrives(signal) => SignalKeepsOk(sys, signal);
  }

  ghost predicate IsRun(run: seq<System>, events: seq<Event>) {
    && |run| == |events| + 1 && Opens(run[0])
    && forall i :: 0 <= i < |events| ==> Enabled(run[i], events[i]) && run[i + 1] == Next(run[i], events[i])
  }

  lemma {:induction false} RunsKeepOk(run: seq<System>, events: seq<Event>)
    requires IsRun(run, events)
    ensures SystemOk(run[|events|])
  {
    if events != [] {
      var n := |events| - 1;
      assert IsRun(run[..n + 1], events[..n]);
      RunsKeepOk(run[..n + 1], events[..n]);
      StepKeepsOk(run[n], events[n]);
    }
  }

  /**
   * Over every run: whatever the changes, archives and unarchives, however
   * answers and signals interleave, a window that has its first answer and
   * every signal has the server's row of every thread not archived.
   */
  lemma WindowsAgree(run: seq<System>, events: seq<Event>, id: string)
    requires IsRun(run, events)
    requires var sys := run[|events|];
      sys.held.point.Some? && sys.delivered == Revision(sys.h) && id !in ArchivedNow(sys.h)
    ensures Get(run[|events|].held.lifecycle, id) == Get(RowsNow(run[|events|].h), id)
  {
    RunsKeepOk(run, events);
    var sys := run[|events|];
    assert RecordOk(sys.h, id, Get(sys.held.lifecycle, id), Get(sys.held.revisions, id), sys.answered, sys.delivered);
  }
}
