/** One thread's catch-ups, from a notification to the ledger, step by step: over every run none is lost. */
module CatchUpLane {
  import opened Common

  /** bb refuses event pages above this. */
  const EVENTS_PAGE := 100

  datatype Task = CatchUpTask(run: nat) | DropTask

  /** A catch-up under way: the events got so far, from the cursor through `after`. */
  datatype Reading = Reading(run: nat, hint: Option<nat>, after: nat, got: set<nat>, done: bool, latestAtStart: nat, latestAtDone: nat)

  /**
   * `seen` says the thread has a stored ledger, read through `cursor`, with
   * the events `folded`. `log` holds bb's ledger events by sequence number and
   * `latest` its highest sequence number of any event. `owed` are the
   * sequence numbers notified and not forgiven by a failure.
   */
  datatype Lane = Lane(
    chain: seq<Task>,
    active: Option<Reading>,
    queued: Option<nat>,
    hint: Option<nat>,
    soon: Option<Option<nat>>,
    readThrough: Option<nat>,
    seen: bool,
    cursor: nat,
    folded: set<nat>,
    jobQueued: bool,
    nextRun: nat,
    disposed: bool,
    log: set<nat>,
    latest: nat,
    owed: set<nat>)

  const START := Lane([], None, None, None, None, None, false, 0, {}, false, 0, false, {}, 0, {})

  function MaxHint(a: Option<nat>, b: Option<nat>): Option<nat> {
    if a.None? then b else if b.None? then a else if a.value < b.value then b else a
  }

  // ---- the steps ----

  /** bb records an event, of a kind the ledger reads or not. */
  function Append(lane: Lane, number: nat, ledgerEvent: bool): Lane
    requires number > lane.latest
  {
    lane.(latest := number, log := if ledgerEvent then lane.log + {number} else lane.log)
  }

  /** A busy thread's notification: dropped when it was read already, else gathered. */
  function NotifySoon(lane: Lane, latestSeq: Option<nat>): Lane {
    if lane.disposed then lane
    else
      var noted := lane.(owed := OwedWith(lane.owed, latestSeq));
      if latestSeq.Some? && lane.readThrough.Some? && latestSeq.value <= lane.readThrough.value then noted
      else GatherIn(noted, latestSeq)
  }

  function OwedWith(owed: set<nat>, latestSeq: Option<nat>): set<nat> {
    if latestSeq.Some? then owed + {latestSeq.value} else owed
  }

  function GatherIn(lane: Lane, latestSeq: Option<nat>): Lane {
    lane.(soon := Some(if lane.soon.Some? then MaxHint(lane.soon.value, latestSeq) else latestSeq))
  }

  /** A catch-up is asked for: what was gathered is folded into its hint. */
  function FoldIn(lane: Lane, latestSeq: Option<nat>): Lane {
    var wanted := if lane.soon.Some? then MaxHint(latestSeq, lane.soon.value) else latestSeq;
    lane.(soon := None, hint := MaxHint(lane.hint, wanted), owed := OwedWith(lane.owed, latestSeq))
  }

  /** It joins a run that has not started, or a new one waits in the chain. */
  function Join(lane: Lane): Lane {
    if lane.queued.Some? then lane
    else lane.(chain := lane.chain + [CatchUpTask(lane.nextRun)], queued := Some(lane.nextRun), nextRun := lane.nextRun + 1)
  }

  function CatchUp(lane: Lane, latestSeq: Option<nat>): Lane { Join(FoldIn(lane, latestSeq)) }

  /** The gathering time is over. */
  function TimerFires(lane: Lane): Lane
    requires lane.soon.Some?
  {
    CatchUp(lane.(soon := None), lane.soon.value)
  }

  /** A ledger drop is queued; no later catch-up joins one queued before it. */
  function QueueDrop(lane: Lane): Lane {
    lane.(queued := None, chain := lane.chain + [DropTask])
  }

  /** The first task of the chain starts: a catch-up takes the cursor and the hint as they are now, a drop is done at once. */
  function StartTask(lane: Lane): Lane
    requires lane.chain != [] && lane.active.None?
  {
    match lane.chain[0]
    case CatchUpTask(run) => StartCatchUp(lane.(chain := lane.chain[1..]), run)
    case DropTask => DropLedger(lane.(chain := lane.chain[1..]))
  }

  function StartCatchUp(lane: Lane, run: nat): Lane {
    Leave(lane, run).(hint := None, active := Some(Reading(run, lane.hint, lane.cursor, {}, false, lane.latest, 0)))
  }

  /** A run that starts is not joined any more. */
  function Leave(lane: Lane, run: nat): Lane {
    lane.(queued := if lane.queued == Some(run) then None else lane.queued)
  }

  function DropLedger(lane: Lane): Lane { Requeue(lane.(readThrough := None)).(folded := {}) }

  /** A thread with a stored ledger loses it and is read again as a job. */
  function Requeue(lane: Lane): Lane {
    lane.(seen := false, cursor := if lane.seen then 0 else lane.cursor, jobQueued := lane.jobQueued || lane.seen)
  }

  /** A page holds the next events after `after`: all of them when it is short. */
  ghost predicate IsPage(log: set<nat>, after: nat, page: seq<nat>) {
    && |page| <= EVENTS_PAGE
    && (forall i :: 0 <= i < |page| ==> page[i] in log && page[i] > after)
    && (forall i :: 0 <= i < |page| ==> page[i] <= page[|page| - 1])
    && (forall n :: n in log && n > after && (|page| < EVENTS_PAGE || n <= page[|page| - 1]) ==> n in page)
  }

  function ReadPage(lane: Lane, page: seq<nat>): Lane
    requires lane.active.Some?
  {
    var reading := lane.active.value;
    var got := reading.got + Numbers(page);
    if |page| < EVENTS_PAGE then LastPageRead(lane, got) else MorePagesRead(lane, got, page[|page| - 1])
  }

  function Numbers(page: seq<nat>): set<nat> { set n | n in page }

  function LastPageRead(lane: Lane, got: set<nat>): Lane
    requires lane.active.Some?
  {
    lane.(active := Some(lane.active.value.(got := got, done := true, latestAtDone := lane.latest)))
  }

  function MorePagesRead(lane: Lane, got: set<nat>, after: nat): Lane
    requires lane.active.Some?
  {
    lane.(active := Some(lane.active.value.(got := got, after := after)))
  }

  ghost predicate IsHighest(numbers: set<nat>, least: nat, highest: nat) {
    && least <= highest && (highest == least || highest in numbers)
    && forall n :: n in numbers ==> n <= highest
  }

  function MarkThrough(lane: Lane, latestSeq: nat): Lane {
    lane.(readThrough := Some(if lane.readThrough.Some? && lane.readThrough.value > latestSeq then lane.readThrough.value else latestSeq))
  }

  /** A thread seen before with nothing new is left as it is stored. */
  function FoldRead(lane: Lane, got: set<nat>, latestSeq: nat): Lane {
    if got == {} && lane.seen then lane else lane.(seen := true, cursor := latestSeq, folded := lane.folded + got)
  }

  /** The read is folded in: the cursor and what was read through move to `latestSeq`. */
  function FinishReading(lane: Lane, latestSeq: nat): Lane
    requires lane.active.Some?
  {
    MarkThrough(FoldRead(lane.(active := None), lane.active.value.got, latestSeq), latestSeq)
  }

  /** `latestSeq` is the highest of what the read got, its hint and the cursor. */
  ghost predicate IsLatestSeq(lane: Lane, latestSeq: nat)
    requires lane.active.Some?
  {
    var hint := lane.active.value.hint.GetOr(0);
    IsHighest(lane.active.value.got, if hint < lane.cursor then lane.cursor else hint, latestSeq)
  }

  /** The read fails: what only it was to cover is forgiven. */
  ghost function FailReading(lane: Lane): Lane
    requires lane.active.Some?
  {
    var failed := lane.(active := None);
    failed.(owed := set s | s in lane.owed && (Covered(failed, s) || Pending(failed, s)))
  }

  /** The gathering timers stop: what only they were to cover is forgiven. */
  ghost function Dispose(lane: Lane): Lane {
    var disposed := lane.(disposed := true, soon := None);
    disposed.(owed := set s | s in lane.owed && (Covered(disposed, s) || Pending(disposed, s)))
  }

  /** A new engine over the same store: the ledger, its cursor and the jobs stay, the rest goes, and what only that was to cover is forgiven. */
  ghost function Restart(lane: Lane): Lane {
    var again := Anew(lane);
    again.(owed := set s | s in lane.owed && (Covered(again, s) || Pending(again, s)))
  }

  function Anew(lane: Lane): Lane {
    lane.(chain := [], active := None, queued := None, hint := None, soon := None, readThrough := None, disposed := false)
  }

  /** The backfill queue runs the thread's job: a catch-up without a hint. */
  function RunJob(lane: Lane): Lane
    requires lane.jobQueued
  {
    CatchUp(lane.(jobQueued := false), None)
  }

  // ---- what every run keeps ----

  /** Every ledger event bb has up to `s` is in the ledger. */
  ghost predicate Covered(lane: Lane, s: nat) {
    forall n :: n in lane.log && n <= s ==> n in lane.folded
  }

  /** A catch-up that will read every event up to `s` is gathering, waiting, under way or queued as a job. */
  ghost predicate Pending(lane: Lane, s: nat) {
    || lane.soon.Some?
    || HasCatchUp(lane.chain)
    || (lane.active.Some? && s <= lane.active.value.latestAtStart)
    || lane.jobQueued
  }

  ghost predicate HasCatchUp(chain: seq<Task>) {
    exists i :: 0 <= i < |chain| && chain[i].CatchUpTask?
  }

  ghost predicate HintOk(hint: Option<nat>, latest: nat) { hint.Some? ==> hint.value <= latest }

  /** What the read under way has got so far. */
  ghost predicate ReadingOk(lane: Lane, reading: Reading) {
    && reading.latestAtStart <= lane.latest && HintOk(reading.hint, reading.latestAtStart)
    && reading.run < lane.nextRun && lane.cursor <= reading.after <= lane.latest && lane.cursor <= reading.latestAtStart
    && (forall n :: n in reading.got ==> n in lane.log && n > lane.cursor)
    && (forall n :: n in lane.log && lane.cursor < n <= reading.after ==> n in reading.got)
    && (reading.done ==>
          && reading.latestAtStart <= reading.latestAtDone <= lane.latest
          && (forall n :: n in reading.got ==> n <= reading.latestAtDone)
          && (forall n :: n in lane.log && lane.cursor < n <= reading.latestAtDone ==> n in reading.got))
  }

  /** The run a later call joins waits in the chain, with no drop behind it. */
  ghost predicate QueuedOk(lane: Lane, run: nat) {
    exists i :: 0 <= i < |lane.chain| && lane.chain[i] == CatchUpTask(run)
      && forall j :: i < j < |lane.chain| ==> !lane.chain[j].DropTask?
  }

  /** No notice still owed is forgotten. */
  ghost predicate OwedOk(lane: Lane) {
    forall s :: s in lane.owed ==> Covered(lane, s) || Pending(lane, s)
  }

  ghost predicate Inv(lane: Lane) { Base(lane) && OwedOk(lane) }

  ghost predicate Base(lane: Lane) {
    && (forall n :: n in lane.log ==> 0 < n <= lane.latest)
    && lane.folded <= lane.log && lane.cursor <= lane.latest && Covered(lane, lane.cursor)
    && (!lane.seen ==> lane.cursor == 0 && lane.folded == {})
    && (lane.readThrough.Some? ==> lane.readThrough.value <= lane.latest && Covered(lane, lane.readThrough.value))
    && HintOk(lane.hint, lane.latest)
    && (lane.soon.Some? ==> HintOk(lane.soon.value, lane.latest))
    && (lane.queued.Some? ==> QueuedOk(lane, lane.queued.value))
    && (lane.hint.Some? ==> HasCatchUp(lane.chain))
    && (lane.active.Some? ==> ReadingOk(lane, lane.active.value))
    && (forall i :: 0 <= i < |lane.chain| && lane.chain[i].CatchUpTask? ==> lane.chain[i].run < lane.nextRun)
    && (forall s :: s in lane.owed ==> s <= lane.latest)
  }

  lemma AppendKeeps(lane: Lane, number: nat, ledgerEvent: bool)
    requires Inv(lane) && number > lane.latest
    ensures Inv(Append(lane, number, ledgerEvent))
  {
    var next := Append(lane, number, ledgerEvent);
    forall s | s in lane.owed ensures Covered(next, s) || Pending(next, s) {
      assert Covered(lane, s) || Pending(lane, s);
    }
    if lane.active.Some? && lane.active.value.done {
      assert ReadingOk(lane, lane.active.value);
    }
    if lane.queued.Some? { assert QueuedOk(lane, lane.queued.value); assert QueuedOk(next, lane.queued.value); }
  }

  lemma NotifyKeeps(lane: Lane, latestSeq: Option<nat>)
    requires Inv(lane) && HintOk(latestSeq, lane.latest)
    ensures Inv(NotifySoon(lane, latestSeq))
  {
    if !lane.disposed {
      if latestSeq.Some? && lane.readThrough.Some? && latestSeq.value <= lane.readThrough.value {
        ReadNoticeKeeps(lane, latestSeq.value);
      } else {
        GatherKeeps(lane, latestSeq);
      }
    }
  }

  lemma ReadNoticeKeeps(lane: Lane, number: nat)
    requires Inv(lane) && lane.readThrough.Some? && number <= lane.readThrough.value
    ensures Inv(lane.(owed := lane.owed + {number}))
  {
    var next := lane.(owed := lane.owed + {number});
    forall s | s in next.owed ensures Covered(next, s) || Pending(next, s) {
      if s in lane.owed { assert Covered(lane, s) || Pending(lane, s); }
    }
    if lane.queued.Some? { assert QueuedOk(next, lane.queued.value); }
  }

  lemma GatherKeeps(lane: Lane, latestSeq: Option<nat>)
    requires Inv(lane) && HintOk(latestSeq, lane.latest)
    ensures Inv(GatherIn(lane.(owed := OwedWith(lane.owed, latestSeq)), latestSeq))
  {
    var next := GatherIn(lane.(owed := OwedWith(lane.owed, latestSeq)), latestSeq);
    assert forall s :: s in next.owed ==> Pending(next, s);
    if lane.queued.Some? { assert QueuedOk(next, lane.queued.value); }
  }

  /** A catch-up that waits in the chain answers everything owed. */
  lemma CatchUpAnswers(lane: Lane, latestSeq: Option<nat>)
    requires Base(lane) && HintOk(latestSeq, lane.latest)
    ensures Inv(CatchUp(lane, latestSeq))
    ensures CatchUp(lane, latestSeq).queued.Some?
  {
    var next := CatchUp(lane, latestSeq);
    if lane.queued.Some? {
      assert QueuedOk(next, next.queued.value);
    } else {
      assert next.chain[|lane.chain|] == CatchUpTask(lane.nextRun);
      assert QueuedOk(next, next.queued.value);
    }
    var i :| 0 <= i < |next.chain| && next.chain[i] == CatchUpTask(next.queued.value);
    assert HasCatchUp(next.chain);
  }

  lemma TimerKeeps(lane: Lane)
    requires Inv(lane) && lane.soon.Some?
    ensures Inv(TimerFires(lane))
  {
    // Taking the gathered hint off first comes to the same as folding it in.
    var hint := lane.soon.value;
    CatchUpAnswers(lane, hint);
    assert CatchUp(lane, hint) == TimerFires(lane);
  }

  lemma QueueDropKeeps(lane: Lane)
    requires Inv(lane)
    ensures Inv(QueueDrop(lane))
  {
    var next := QueueDrop(lane);
    if HasCatchUp(lane.chain) {
      var i :| 0 <= i < |lane.chain| && lane.chain[i].CatchUpTask?;
      assert next.chain[i].CatchUpTask?;
    }
    forall s | s in lane.owed ensures Covered(next, s) || Pending(next, s) {
      assert Covered(lane, s) || Pending(lane, s);
    }
  }

  lemma RestOfChain(lane: Lane, run: nat)
    requires lane.chain != [] && QueuedOk(lane, run) && lane.chain[0] != CatchUpTask(run)
    ensures QueuedOk(lane.(chain := lane.chain[1..]), run)
  {
    var i :| 0 <= i < |lane.chain| && lane.chain[i] == CatchUpTask(run)
      && forall j :: i < j < |lane.chain| ==> !lane.chain[j].DropTask?;
    assert lane.chain[1..][i - 1] == lane.chain[i];
  }

  lemma DropLeavesCatchUps(chain: seq<Task>)
    requires chain != [] && chain[0].DropTask?
    ensures HasCatchUp(chain) <==> HasCatchUp(chain[1..])
  {
    if HasCatchUp(chain) {
      var i :| 0 <= i < |chain| && chain[i].CatchUpTask?;
      assert chain[1..][i - 1].CatchUpTask?;
    }
  }

  lemma StartKeeps(lane: Lane)
    requires Inv(lane) && lane.chain != [] && lane.active.None?
    ensures Inv(StartTask(lane))
  {
    if lane.chain[0].DropTask? { StartDropKeeps(lane); } else { StartCatchUpKeeps(lane); }
  }

  lemma StartCatchUpKeeps(lane: Lane)
    requires Inv(lane) && lane.chain != [] && lane.active.None? && lane.chain[0].CatchUpTask?
    ensures Inv(StartTask(lane))
  {
    var next := StartTask(lane);
    if next.queued.Some? {
      RestOfChain(lane, next.queued.value);
      assert QueuedOk(next, next.queued.value);
    }
    StartKeepsOwed(lane);
    assert ReadingOk(next, next.active.value);
  }

  lemma StartDropKeeps(lane: Lane)
    requires Inv(lane) && lane.chain != [] && lane.active.None? && lane.chain[0].DropTask?
    ensures Inv(StartTask(lane))
  {
    var next := StartTask(lane);
    if next.queued.Some? {
      RestOfChain(lane, next.queued.value);
      assert QueuedOk(next, next.queued.value);
    }
    DropLeavesCatchUps(lane.chain);
    StartDropKeepsOwed(lane);
  }

  lemma StartKeepsOwed(lane: Lane)
    requires Inv(lane) && lane.chain != [] && lane.active.None? && lane.chain[0].CatchUpTask?
    ensures var next := StartTask(lane);
      forall s :: s in lane.owed ==> Pending(next, s)
  {
  }

  lemma StartDropKeepsOwed(lane: Lane)
    requires Inv(lane) && lane.chain != [] && lane.active.None? && lane.chain[0].DropTask?
    ensures var next := StartTask(lane);
      forall s :: s in lane.owed ==> Covered(next, s) || Pending(next, s)
  {
    var next := StartTask(lane);
    DropLeavesCatchUps(lane.chain);
    forall s | s in lane.owed ensures Covered(next, s) || Pending(next, s) {
      assert Covered(lane, s) || Pending(lane, s);
    }
  }

  lemma ReadPageKeeps(lane: Lane, page: seq<nat>)
    requires Inv(lane) && lane.active.Some? && !lane.active.value.done && IsPage(lane.log, lane.active.value.after, page)
    ensures Inv(ReadPage(lane, page))
  {
    PageIsGot(lane, lane.active.value, page, ReadPage(lane, page).active.value);
    ReadingOnKeeps(lane, ReadPage(lane, page).active.value);
  }

  lemma PageIsGot(lane: Lane, before: Reading, page: seq<nat>, after: Reading)
    requires Inv(lane) && ReadingOk(lane, before) && !before.done && IsPage(lane.log, before.after, page)
    requires after == ReadPage(lane.(active := Some(before)), page).active.value
    ensures ReadingOk(lane, after)
  {
    forall n | n in lane.log && lane.cursor < n && (after.done || n <= after.after) ensures n in after.got {
      if n > before.after { assert n in page; }
    }
  }

  /** The read under way comes further. */
  lemma ReadingOnKeeps(lane: Lane, reading: Reading)
    requires Inv(lane) && lane.active.Some? && ReadingOk(lane, reading)
    requires reading.latestAtStart == lane.active.value.latestAtStart
    ensures Inv(lane.(active := Some(reading)))
  {
    var next := lane.(active := Some(reading));
    forall s | s in lane.owed ensures Covered(next, s) || Pending(next, s) {
      assert Covered(lane, s) || Pending(lane, s);
    }
    if lane.queued.Some? { assert QueuedOk(next, lane.queued.value); }
  }

  lemma FinishCovers(lane: Lane, latestSeq: nat)
    requires Inv(lane) && lane.active.Some? && lane.active.value.done && IsLatestSeq(lane, latestSeq)
    ensures lane.cursor <= latestSeq <= lane.active.value.latestAtDone <= lane.latest
    ensures var next := FinishReading(lane, latestSeq);
      Covered(next, lane.active.value.latestAtDone) && lane.folded <= next.folded <= lane.log
  {
    var next := FinishReading(lane, latestSeq);
    var reading := lane.active.value;
    assert ReadingOk(lane, reading);
    forall n | n in lane.log && n <= reading.latestAtDone ensures n in next.folded {
      if n > lane.cursor { assert n in reading.got; }
    }
  }

  lemma CoveredBelow(lane: Lane, low: nat, high: nat)
    requires Covered(lane, high) && low <= high
    ensures Covered(lane, low)
  {
  }

  lemma FinishKeeps(lane: Lane, latestSeq: nat)
    requires Inv(lane) && lane.active.Some? && lane.active.value.done && IsLatestSeq(lane, latestSeq)
    ensures Inv(FinishReading(lane, latestSeq))
    ensures Covered(FinishReading(lane, latestSeq), lane.active.value.latestAtStart)
  {
    var next := FinishReading(lane, latestSeq);
    FinishCovers(lane, latestSeq);
    CoveredBelow(next, latestSeq, lane.active.value.latestAtDone);
    CoveredBelow(next, lane.cursor, lane.active.value.latestAtDone);
    CoveredBelow(next, lane.active.value.latestAtStart, lane.active.value.latestAtDone);
    if lane.readThrough.Some? {
      assert Covered(next, lane.readThrough.value) by { assert Covered(lane, lane.readThrough.value); }
    }
    FinishKeepsOwed(lane, next);
    if lane.queued.Some? { assert QueuedOk(next, lane.queued.value); }
  }

  lemma FinishKeepsOwed(lane: Lane, next: Lane)
    requires Inv(lane) && lane.active.Some?
    requires lane.folded <= next.folded && Covered(next, lane.active.value.latestAtStart)
    requires next.log == lane.log && next.chain == lane.chain && next.soon == lane.soon && next.jobQueued == lane.jobQueued
    ensures forall s :: s in lane.owed ==> s <= lane.latest && (Covered(next, s) || Pending(next, s))
  {
    forall s | s in lane.owed ensures s <= lane.latest && (Covered(next, s) || Pending(next, s)) {
      assert Covered(lane, s) || Pending(lane, s);
      if s <= lane.active.value.latestAtStart { CoveredBelow(next, s, lane.active.value.latestAtStart); }
    }
  }

  lemma FailKeeps(lane: Lane)
    requires Inv(lane) && lane.active.Some?
    ensures Inv(FailReading(lane))
  {
    var next := FailReading(lane);
    if lane.queued.Some? { assert QueuedOk(next, lane.queued.value); }
    forall s | s in next.owed ensures Covered(next, s) || Pending(next, s) {
      var failed := lane.(active := None);
      assert Covered(failed, s) || Pending(failed, s);
    }
  }

  lemma DisposeKeeps(lane: Lane)
    requires Inv(lane)
    ensures Inv(Dispose(lane))
  {
    var next := Dispose(lane);
    if lane.queued.Some? { assert QueuedOk(next, lane.queued.value); }
    forall s | s in next.owed ensures Covered(next, s) || Pending(next, s) {
      var disposed := lane.(disposed := true, soon := None);
      assert Covered(disposed, s) || Pending(disposed, s);
    }
  }

  lemma RestartKeeps(lane: Lane)
    requires Inv(lane)
    ensures Inv(Restart(lane))
  {
    var next, again := Restart(lane), Anew(lane);
    assert Covered(again, lane.cursor);
    forall s | s in next.owed ensures Covered(next, s) || Pending(next, s) {
      assert Covered(again, s) || Pending(again, s);
    }
  }

  lemma RunJobKeeps(lane: Lane)
    requires Inv(lane) && lane.jobQueued
    ensures Inv(RunJob(lane))
  {
    var free := lane.(jobQueued := false);
    if lane.queued.Some? { assert QueuedOk(free, lane.queued.value); }
    CatchUpAnswers(free, None);
  }

  // ---- over every run ----

  datatype Event =
    | Appended(number: nat, ledgerEvent: bool)
    | Notified(latestSeq: Option<nat>)
    | CaughtUp(latestSeq: Option<nat>)
    | TimerFired
    | DropQueued
    | TaskStarted
    | PageRead(page: seq<nat>)
    | ReadingDone(readThroughSeq: nat)
    | ReadingFailed
    | Disposed
    | Restarted
    | JobRun

  /** bb sends a hint after writing the event, so it names no event still to come. */
  ghost predicate Enabled(lane: Lane, event: Event) {
    match event
    case Appended(number, _) => number > lane.latest
    case Notified(latestSeq) => HintOk(latestSeq, lane.latest)
    case CaughtUp(latestSeq) => HintOk(latestSeq, lane.latest)
    case TimerFired => lane.soon.Some?
    case DropQueued => true
    case TaskStarted => lane.chain != [] && lane.active.None?
    case PageRead(page) => lane.active.Some? && !lane.active.value.done && IsPage(lane.log, lane.active.value.after, page)
    case ReadingDone(latestSeq) => lane.active.Some? && lane.active.value.done && IsLatestSeq(lane, latestSeq)
    case ReadingFailed => lane.active.Some?
    case Disposed => true
    case Restarted => true
    case JobRun => lane.jobQueued
  }

  ghost function Next(lane: Lane, event: Event): Lane
    requires Enabled(lane, event)
  {
    match event
    case Appended(number, ledgerEvent) => Append(lane, number, ledgerEvent)
    case Notified(latestSeq) => NotifySoon(lane, latestSeq)
    case CaughtUp(latestSeq) => CatchUp(lane, latestSeq)
    case TimerFired => TimerFires(lane)
    case DropQueued => QueueDrop(lane)
    case TaskStarted => StartTask(lane)
    case PageRead(page) => ReadPage(lane, page)
    case ReadingDone(latestSeq) => FinishReading(lane, latestSeq)
    case ReadingFailed => FailReading(lane)
    case Disposed => Dispose(lane)
    case Restarted => Restart(lane)
    case JobRun => RunJob(lane)
  }

  lemma NextKeeps(lane: Lane, event: Event)
    requires Inv(lane) && Enabled(lane, event)
    ensures Inv(Next(lane, event))
  {
    match event
    case Appended(number, ledgerEvent) => AppendKeeps(lane, number, ledgerEvent);
    case Notified(latestSeq) => NotifyKeeps(lane, latestSeq);
    case CaughtUp(latestSeq) => CatchUpAnswers(lane, latestSeq);
    case TimerFired => TimerKeeps(lane);
    case DropQueued => QueueDropKeeps(lane);
    case TaskStarted => StartKeeps(lane);
    case PageRead(page) => ReadPageKeeps(lane, page);
    case ReadingDone(latestSeq) => FinishKeeps(lane, latestSeq);
    case ReadingFailed => FailKeeps(lane);
    case Disposed => DisposeKeeps(lane);
    case Restarted => RestartKeeps(lane);
    case JobRun => RunJobKeeps(lane);
  }

  ghost predicate IsRun(lanes: seq<Lane>, events: seq<Event>) {
    && |lanes| == |events| + 1
    && lanes[0] == START
    && forall i :: 0 <= i < |events| ==> Enabled(lanes[i], events[i]) && lanes[i + 1] == Next(lanes[i], events[i])
  }

  lemma {:induction false} RunKeeps(lanes: seq<Lane>, events: seq<Event>, i: nat)
    requires IsRun(lanes, events) && i < |lanes|
    ensures Inv(lanes[i])
  {
    if i > 0 {
      RunKeeps(lanes, events, i - 1);
      NextKeeps(lanes[i - 1], events[i - 1]);
      assert lanes[i - 1 + 1] == Next(lanes[i - 1], events[i - 1]);
    }
  }

  /**
   * No notification is lost, in any run: what was read through is in the
   * ledger; every sequence number notified is in the ledger or a catch-up
   * that will read it is still to come; and once none is, the ledger holds
   * every event up to it.
   */
  lemma NoNotificationIsLost(lanes: seq<Lane>, events: seq<Event>, i: nat)
    requires IsRun(lanes, events) && i < |lanes|
    ensures NothingIsLost(lanes[i])
  {
    RunKeeps(lanes, events, i);
    InvLosesNothing(lanes[i]);
  }

  ghost predicate NothingIsLost(lane: Lane) {
    && (lane.readThrough.Some? ==> Covered(lane, lane.readThrough.value))
    && (forall s :: s in lane.owed ==> Covered(lane, s) || Pending(lane, s))
    && (lane.soon.None? && lane.chain == [] && lane.active.None? && !lane.jobQueued ==> forall s :: s in lane.owed ==> Covered(lane, s))
  }

  lemma InvLosesNothing(lane: Lane)
    requires Inv(lane)
    ensures NothingIsLost(lane)
  {
    forall s | s in lane.owed ensures Covered(lane, s) || Pending(lane, s) {
      assert s <= lane.latest;
    }
  }

  /** Where a run waits: its place in the chain. */
  ghost predicate WaitsAt(lane: Lane, run: nat, i: nat) {
    i < |lane.chain| && lane.chain[i] == CatchUpTask(run)
  }

  /**
   * A catch-up call is answered by a run that has not started and that every
   * drop queued before the call comes before.
   */
  lemma CallIsAnsweredLater(lane: Lane, latestSeq: Option<nat>) returns (i: nat)
    requires Inv(lane) && HintOk(latestSeq, lane.latest)
    ensures var next := CatchUp(lane, latestSeq);
      && next.queued.Some? && WaitsAt(next, next.queued.value, i)
      && (forall j :: 0 <= j < |lane.chain| && lane.chain[j].DropTask? ==> j < i)
      && (latestSeq.Some? ==> next.hint.Some? && latestSeq.value <= next.hint.value)
      && (lane.soon.Some? && lane.soon.value.Some? ==> next.hint.Some? && lane.soon.value.value <= next.hint.value)
  {
    var next := CatchUp(lane, latestSeq);
    if lane.queued.Some? {
      i :| 0 <= i < |lane.chain| && lane.chain[i] == CatchUpTask(lane.queued.value)
        && forall j :: i < j < |lane.chain| ==> !lane.chain[j].DropTask?;
    } else {
      i := |lane.chain|;
    }
  }

  /**
   * A run keeps its place but for the tasks before it being done, until it
   * starts: with a read from the cursor as it is then, of every event bb has
   * by then. So it sees what any call it answers was made for.
   */
  lemma WaitingRunStartsInOrder(lane: Lane, event: Event, run: nat, i: nat)
    requires Enabled(lane, event) && WaitsAt(lane, run, i)
    ensures var next := Next(lane, event);
      && (!event.TaskStarted? && !event.Restarted? ==> WaitsAt(next, run, i))
      && (event.TaskStarted? && i > 0 ==> WaitsAt(next, run, i - 1))
      && (event.TaskStarted? && i == 0 ==>
            && next.active.Some? && next.active.value.run == run
            && next.active.value.after == next.cursor == lane.cursor && next.active.value.latestAtStart == lane.latest)
  {
  }

  /** A read that ends well has every event bb had when it started in the ledger. */
  lemma ReadCoversItsStart(lane: Lane, latestSeq: nat)
    requires Inv(lane) && Enabled(lane, ReadingDone(latestSeq))
    ensures Covered(Next(lane, ReadingDone(latestSeq)), lane.active.value.latestAtStart)
    ensures lane.active.value.hint.Some? ==>
      var next := Next(lane, ReadingDone(latestSeq));
      next.readThrough.Some? && lane.active.value.hint.value <= next.readThrough.value
  {
    FinishKeeps(lane, latestSeq);
  }
}
