/**
 * The engine's catch-ups for every thread: the maps its methods change. Each
 * method is one step of its thread's lane and leaves every other's alone.
 */
module Engine {
  import opened Common
  import opened CatchUpLane

  /**
   * What stands outside the engine's fields: bb's events, those in the stored
   * ledger, the notices owed, and how far bb was when the read under way
   * began and when it had its last page.
   */
  datatype World = World(log: set<nat>, latest: nat, folded: set<nat>, owed: set<nat>, latestAtStart: nat, latestAtDone: nat)

  const NEW_WORLD := World({}, 0, {}, {}, 0, 0)

  /** A read under way: the events got so far, and where its next page begins. */
  datatype Fetch = Fetch(run: nat, hint: Option<nat>, after: nat, got: set<nat>, done: bool)

  class Engine {
    /** Per thread, the work that waits its turn. */
    var chains: map<string, seq<Task>>
    /** A catch-up waiting in its thread's chain that has not started: later calls join it. */
    var queued: map<string, nat>
    /** The highest sequence hint for the queued catch-up of each thread. */
    var queuedHints: map<string, nat>
    /** Catch-ups gathering a busy thread's notifications, with their hint. */
    var soon: map<string, Option<nat>>
    /** Per thread, the sequence every ledger event up to which has been read. */
    var readThrough: map<string, nat>
    var disposed: bool
    /** Per thread, the read under way. */
    var active: map<string, Fetch>
    /** Per thread, how many runs were queued. */
    var runs: map<string, nat>
    /** The store: the cursor of each thread that has a ledger, and the backfill jobs. */
    var cursors: map<string, nat>
    var jobs: set<string>
    ghost var worlds: map<string, World>

    ghost function WorldOf(threadId: string): World
      reads this
    {
      Get(worlds, threadId).GetOr(NEW_WORLD)
    }

    ghost function ReadingOf(threadId: string): Option<Reading>
      reads this
    {
      if threadId !in active then None
      else
        var fetch, world := active[threadId], WorldOf(threadId);
        Some(Reading(fetch.run, fetch.hint, fetch.after, fetch.got, fetch.done, world.latestAtStart, world.latestAtDone))
    }

    ghost function LaneOf(threadId: string): Lane
      reads this
    {
      var world := WorldOf(threadId);
      Lane(Get(chains, threadId).GetOr([]), ReadingOf(threadId), Get(queued, threadId), Get(queuedHints, threadId),
           Get(soon, threadId), Get(readThrough, threadId), threadId in cursors, Get(cursors, threadId).GetOr(0), world.folded,
           threadId in jobs, Get(runs, threadId).GetOr(0), disposed, world.log, world.latest, world.owed)
    }

    ghost predicate Valid()
      reads this
    {
      forall threadId :: Inv(LaneOf(threadId))
    }

    /** Every other thread's lane is as it was. */
    twostate predicate OthersStay(threadId: string)
      reads this
    {
      forall other :: other != threadId ==> LaneOf(other) == old(LaneOf(other))
    }

    constructor ()
      ensures Valid() && forall threadId :: LaneOf(threadId) == START
    {
      chains, queued, queuedHints, soon, readThrough := map[], map[], map[], map[], map[];
      disposed, active, runs, cursors, jobs, worlds := false, map[], map[], map[], {}, map[];
    }

    /** A new engine over the store of one before it. */
    constructor Reopened(previous: Engine)
      ensures EngineStepOk(old(previous.Lanes()), Restarts, Lanes())
      ensures old(previous.Valid()) ==> Valid()
    {
      chains, queued, queuedHints, soon, readThrough := map[], map[], map[], map[], map[];
      disposed, active, runs, cursors, jobs := false, map[], previous.runs, previous.cursors, previous.jobs;
      worlds := map threadId | threadId in previous.worlds ::
        previous.worlds[threadId].(owed := StillOwed(Anew(previous.LaneOf(threadId)), previous.worlds[threadId].owed));
      new;
      forall threadId ensures LaneOf(threadId) == Restart(old(previous.LaneOf(threadId))) {
        assert threadId !in previous.worlds ==> StillOwed(Anew(old(previous.LaneOf(threadId))), {}) == {};
      }
      forall threadId | old(previous.Valid()) ensures Inv(LaneOf(threadId)) {
        RestartKeeps(old(previous.LaneOf(threadId)));
      }
    }

    /** Every thread's lane. */
    ghost function Lanes(): Lanes
      reads this
    {
      imap threadId: string | true :: LaneOf(threadId)
    }

    /** A thread's lane took the step, which was open to it, and no other's did. */
    twostate predicate Steps(threadId: string, event: Event)
      reads this
    {
      Enabled(old(LaneOf(threadId)), event) && LaneOf(threadId) == Next(old(LaneOf(threadId)), event) && OthersStay(threadId)
    }

    ghost method Owe(threadId: string, latestSeq: Option<nat>)
      modifies this`worlds
      ensures LaneOf(threadId) == old(LaneOf(threadId)).(owed := OwedWith(old(LaneOf(threadId).owed), latestSeq)) && OthersStay(threadId)
    {
      if latestSeq.Some? {
        worlds := worlds[threadId := WorldOf(threadId).(owed := WorldOf(threadId).owed + {latestSeq.value})];
      }
    }

    /** A busy thread's event notification: dropped when read already, else gathered into one catch-up. */
    method CatchUpSoon(threadId: string, latestSeq: Option<nat>)
      requires HintOk(latestSeq, LaneOf(threadId).latest)
      modifies this`soon, this`worlds
      ensures LaneOf(threadId) == NotifySoon(old(LaneOf(threadId)), latestSeq) && OthersStay(threadId)
      ensures Steps(threadId, Notified(latestSeq))
    {
      if !disposed {
        Owe(threadId, latestSeq);
        if !(latestSeq.Some? && threadId in readThrough && latestSeq.value <= readThrough[threadId]) {
          Gather(threadId, latestSeq);
        }
      }
    }

    method Gather(threadId: string, latestSeq: Option<nat>)
      modifies this`soon
      ensures LaneOf(threadId) == GatherIn(old(LaneOf(threadId)), latestSeq) && OthersStay(threadId)
    {
      var gathered := if threadId in soon then MaxHint(soon[threadId], latestSeq) else latestSeq;
      soon := soon[threadId := gathered];
    }

    /** Folds what was gathered into the hint of the catch-up asked for. */
    method TakeGathered(threadId: string, latestSeq: Option<nat>)
      modifies this`soon, this`queuedHints, this`worlds
      ensures LaneOf(threadId) == FoldIn(old(LaneOf(threadId)), latestSeq) && OthersStay(threadId)
    {
      Owe(threadId, latestSeq);
      var hint := if threadId in soon then MaxHint(latestSeq, soon[threadId]) else latestSeq;
      soon := soon - {threadId};
      label Taken:
      assert LaneOf(threadId) == old(LaneOf(threadId)).(soon := None, owed := OwedWith(old(LaneOf(threadId).owed), latestSeq));
      RaiseHint(threadId, hint);
    }

    method RaiseHint(threadId: string, hint: Option<nat>)
      modifies this`queuedHints
      ensures LaneOf(threadId) == old(LaneOf(threadId)).(hint := MaxHint(old(LaneOf(threadId).hint), hint)) && OthersStay(threadId)
    {
      if hint.Some? {
        queuedHints := queuedHints[threadId := MaxHint(Get(queuedHints, threadId), hint).value];
      }
    }

    /** The run a catch-up waits for: one that has not started, or a new one at the end of the thread's chain. */
    method JoinRun(threadId: string) returns (run: nat)
      modifies this`queued, this`chains, this`runs
      ensures LaneOf(threadId) == Join(old(LaneOf(threadId))) && OthersStay(threadId)
      ensures threadId in queued && queued[threadId] == run
    {
      if threadId in queued {
        return queued[threadId];
      }
      run := Get(runs, threadId).GetOr(0);
      runs := runs[threadId := run + 1];
      chains := chains[threadId := Get(chains, threadId).GetOr([]) + [CatchUpTask(run)]];
      queued := queued[threadId := run];
    }

    /** Reads events after the stored cursor, now; `run` is what the call waits for. */
    method CatchUp(threadId: string, latestSeq: Option<nat>) returns (run: nat)
      modifies this`soon, this`queuedHints, this`queued, this`chains, this`runs, this`worlds
      ensures LaneOf(threadId) == CatchUpLane.CatchUp(old(LaneOf(threadId)), latestSeq) && OthersStay(threadId)
      ensures HintOk(latestSeq, old(LaneOf(threadId).latest)) ==> Steps(threadId, CaughtUp(latestSeq))
      ensures threadId in queued && queued[threadId] == run
    {
      TakeGathered(threadId, latestSeq);
      run := JoinRun(threadId);
    }

    /** The gathering time of a thread's notifications is over. */
    method GatheringEnds(threadId: string)
      requires threadId in soon && HintOk(soon[threadId], LaneOf(threadId).latest)
      modifies this`soon, this`queuedHints, this`queued, this`chains, this`runs, this`worlds
      ensures LaneOf(threadId) == TimerFires(old(LaneOf(threadId))) && OthersStay(threadId)
      ensures Steps(threadId, TimerFired)
    {
      var hint := soon[threadId];
      soon := soon - {threadId};
      label Taken:
      assert LaneOf(threadId) == old(LaneOf(threadId)).(soon := None);
      assert forall other :: other != threadId ==> LaneOf(other) == old(LaneOf(other));
      var run := CatchUp(threadId, hint);
    }

    method BeginCatchUp(threadId: string, run: nat)
      modifies this`queued, this`queuedHints, this`active, this`worlds
      ensures LaneOf(threadId) == StartCatchUp(old(LaneOf(threadId)), run) && OthersStay(threadId)
    {
      LeaveQueue(threadId, run);
      var hint := Get(queuedHints, threadId);
      queuedHints := queuedHints - {threadId};
      label Left:
      assert LaneOf(threadId) == Leave(old(LaneOf(threadId)), run).(hint := None);
      BeginReading(threadId, Fetch(run, hint, Get(cursors, threadId).GetOr(0), {}, false));
    }

    method LeaveQueue(threadId: string, run: nat)
      modifies this`queued
      ensures LaneOf(threadId) == Leave(old(LaneOf(threadId)), run) && OthersStay(threadId)
    {
      if threadId in queued && queued[threadId] == run {
        queued := queued - {threadId};
      }
    }

    method BeginReading(threadId: string, fetch: Fetch)
      requires !fetch.done
      modifies this`active, this`worlds
      ensures LaneOf(threadId) == old(LaneOf(threadId)).(active :=
        Some(Reading(fetch.run, fetch.hint, fetch.after, fetch.got, false, old(LaneOf(threadId).latest), 0)))
      ensures OthersStay(threadId)
    {
      active := active[threadId := fetch];
      worlds := worlds[threadId := WorldOf(threadId).(latestAtStart := WorldOf(threadId).latest, latestAtDone := 0)];
    }

    /** Drops a thread's ledger and queues a job to read it again. */
    method ResetLedger(threadId: string)
      modifies this`readThrough, this`cursors, this`jobs, this`worlds
      ensures LaneOf(threadId) == DropLedger(old(LaneOf(threadId))) && OthersStay(threadId)
    {
      readThrough := readThrough - {threadId};
      label Forgotten:
      assert LaneOf(threadId) == old(LaneOf(threadId)).(readThrough := None);
      QueueAgain(threadId);
      label Queued:
      assert LaneOf(threadId) == Requeue(old(LaneOf(threadId)).(readThrough := None));
      ForgetFolded(threadId);
    }

    ghost method ForgetFolded(threadId: string)
      modifies this`worlds
      ensures LaneOf(threadId) == old(LaneOf(threadId)).(folded := {}) && OthersStay(threadId)
    {
      worlds := worlds[threadId := WorldOf(threadId).(folded := {})];
    }

    method QueueAgain(threadId: string)
      modifies this`cursors, this`jobs
      ensures LaneOf(threadId) == Requeue(old(LaneOf(threadId))) && OthersStay(threadId)
    {
      if threadId in cursors {
        cursors := cursors - {threadId};
        jobs := jobs + {threadId};
      }
    }

    /** The first task of a thread's chain starts. */
    method StartNext(threadId: string)
      requires threadId in chains && chains[threadId] != [] && threadId !in active
      modifies this
      ensures LaneOf(threadId) == StartTask(old(LaneOf(threadId))) && OthersStay(threadId)
      ensures Steps(threadId, TaskStarted)
    {
      var task := chains[threadId][0];
      chains := chains[threadId := chains[threadId][1..]];
      assert LaneOf(threadId) == old(LaneOf(threadId)).(chain := old(chains[threadId])[1..]);
      match task {
        case CatchUpTask(run) => BeginCatchUp(threadId, run);
        case DropTask => ResetLedger(threadId);
      }
    }

    /** A page of bb's events arrives; a short one is the last. */
    method PageArrives(threadId: string, page: seq<nat>)
      requires threadId in active && !active[threadId].done
      requires IsPage(LaneOf(threadId).log, active[threadId].after, page)
      modifies this`active, this`worlds
      ensures LaneOf(threadId) == ReadPage(old(LaneOf(threadId)), page) && OthersStay(threadId)
      ensures Steps(threadId, PageRead(page))
    {
      var fetch := active[threadId];
      var got := fetch.got + Numbers(page);
      if |page| < EVENTS_PAGE {
        LastPage(threadId, fetch, got);
      } else {
        MorePages(threadId, fetch, got, page[|page| - 1]);
      }
    }

    method LastPage(threadId: string, fetch: Fetch, got: set<nat>)
      requires threadId in active && active[threadId] == fetch
      modifies this`active, this`worlds
      ensures LaneOf(threadId) == LastPageRead(old(LaneOf(threadId)), got) && OthersStay(threadId)
    {
      active := active[threadId := fetch.(got := got, done := true)];
      worlds := worlds[threadId := WorldOf(threadId).(latestAtDone := WorldOf(threadId).latest)];
    }

    method MorePages(threadId: string, fetch: Fetch, got: set<nat>, after: nat)
      requires threadId in active && active[threadId] == fetch
      modifies this`active
      ensures LaneOf(threadId) == MorePagesRead(old(LaneOf(threadId)), got, after) && OthersStay(threadId)
    {
      active := active[threadId := fetch.(got := got, after := after)];
    }

    /** The read under way is folded into the ledger, and what was read through moves with the cursor. */
    method FinishCatchUp(threadId: string) returns (latestSeq: nat)
      requires threadId in active && active[threadId].done
      modifies this`active, this`readThrough, this`cursors, this`worlds
      ensures IsLatestSeq(old(LaneOf(threadId)), latestSeq)
      ensures LaneOf(threadId) == FinishReading(old(LaneOf(threadId)), latestSeq) && OthersStay(threadId)
      ensures Steps(threadId, ReadingDone(latestSeq))
    {
      var fetch := active[threadId];
      var cursor := Get(cursors, threadId).GetOr(0);
      latestSeq := HighestOf(fetch.got, if fetch.hint.GetOr(0) < cursor then cursor else fetch.hint.GetOr(0));
      StoreRead(threadId, fetch, latestSeq);
    }

    method StoreRead(threadId: string, fetch: Fetch, latestSeq: nat)
      requires threadId in active && active[threadId] == fetch
      modifies this`active, this`readThrough, this`cursors, this`worlds
      ensures LaneOf(threadId) == FinishReading(old(LaneOf(threadId)), latestSeq) && OthersStay(threadId)
    {
      active := active - {threadId};
      assert LaneOf(threadId) == old(LaneOf(threadId)).(active := None);
      FoldInto(threadId, fetch.got, latestSeq);
      MarkReadThrough(threadId, latestSeq);
    }

    method FoldInto(threadId: string, got: set<nat>, latestSeq: nat)
      modifies this`cursors, this`worlds
      ensures LaneOf(threadId) == FoldRead(old(LaneOf(threadId)), got, latestSeq) && OthersStay(threadId)
    {
      if !(got == {} && threadId in cursors) {
        cursors := cursors[threadId := latestSeq];
        worlds := worlds[threadId := WorldOf(threadId).(folded := WorldOf(threadId).folded + got)];
      }
    }

    method MarkReadThrough(threadId: string, latestSeq: nat)
      modifies this`readThrough
      ensures LaneOf(threadId) == MarkThrough(old(LaneOf(threadId)), latestSeq) && OthersStay(threadId)
    {
      var readBefore := Get(readThrough, threadId);
      readThrough := readThrough[threadId := if readBefore.Some? && readBefore.value > latestSeq then readBefore.value else latestSeq];
    }

    /** bb could not be read: the call is rejected and the chain goes on. */
    method FailCatchUp(threadId: string)
      requires threadId in active
      modifies this`active, this`worlds
      ensures LaneOf(threadId) == FailReading(old(LaneOf(threadId))) && OthersStay(threadId)
      ensures Steps(threadId, ReadingFailed)
    {
      active := active - {threadId};
      ghost var failed := LaneOf(threadId);
      worlds := worlds[threadId := WorldOf(threadId).(owed := set s | s in WorldOf(threadId).owed && (Covered(failed, s) || Pending(failed, s)))];
    }

    /** Queues the drop of a thread's ledger, which a catch-up called after this runs after. */
    method RebuildLedger(threadId: string)
      modifies this`queued, this`chains
      ensures LaneOf(threadId) == QueueDrop(old(LaneOf(threadId))) && OthersStay(threadId)
      ensures Steps(threadId, DropQueued)
    {
      queued := queued - {threadId};
      chains := chains[threadId := Get(chains, threadId).GetOr([]) + [DropTask]];
    }

    /** The backfill queue runs the job to read a thread's events. */
    method RunEventsJob(threadId: string)
      requires threadId in jobs
      modifies this
      ensures LaneOf(threadId) == RunJob(old(LaneOf(threadId))) && OthersStay(threadId)
      ensures Steps(threadId, JobRun)
    {
      jobs := jobs - {threadId};
      assert LaneOf(threadId) == old(LaneOf(threadId)).(jobQueued := false);
      var run := CatchUp(threadId, None);
    }

    /** Stops the gathering of every thread. */
    method Dispose()
      modifies this`soon, this`disposed, this`worlds
      ensures forall threadId :: LaneOf(threadId) == CatchUpLane.Dispose(old(LaneOf(threadId)))
      ensures EngineStepOk(old(Lanes()), Stops, Lanes())
    {
      disposed := true;
      soon := map[];
      ghost var before := worlds;
      worlds := map threadId | threadId in worlds ::
        worlds[threadId].(owed := StillOwed(LaneOf(threadId), worlds[threadId].owed));
      forall threadId ensures LaneOf(threadId) == CatchUpLane.Dispose(old(LaneOf(threadId))) {
        assert threadId !in before ==> StillOwed(old(LaneOf(threadId)).(disposed := true, soon := None), {}) == {};
      }
    }

    /** bb records an event of a thread. */
    ghost method BbRecords(threadId: string, number: nat, ledgerEvent: bool)
      requires number > LaneOf(threadId).latest
      modifies this`worlds
      ensures LaneOf(threadId) == Append(old(LaneOf(threadId)), number, ledgerEvent) && OthersStay(threadId)
      ensures Steps(threadId, Appended(number, ledgerEvent))
    {
      var world := WorldOf(threadId);
      worlds := worlds[threadId := world.(latest := number, log := if ledgerEvent then world.log + {number} else world.log)];
    }

    /** Whatever method took a thread's lane one enabled step further, what every run keeps still holds of all of them. */
    twostate lemma StepKeepsValid(threadId: string, event: Event)
      requires old(Valid()) && Enabled(old(LaneOf(threadId)), event)
      requires LaneOf(threadId) == Next(old(LaneOf(threadId)), event) && OthersStay(threadId)
      ensures Valid()
    {
      NextKeeps(old(LaneOf(threadId)), event);
    }

    /** A method's step is a step of the engine. */
    twostate lemma StepIsOk(threadId: string, event: Event)
      requires Steps(threadId, event) && !event.Disposed? && !event.Restarted?
      ensures EngineStepOk(old(Lanes()), On(threadId, event), Lanes())
    {
    }
  }

  // ---- over every run of the engine ----

  type Lanes = imap<string, Lane>

  /** A step of one thread's lane, or one that every lane takes. */
  datatype EngineStep = On(threadId: string, event: Event) | Stops | Restarts

  ghost predicate EngineStepOk(before: Lanes, step: EngineStep, after: Lanes) {
    && (forall id: string :: id in before && id in after)
    && match step
       case On(threadId, event) =>
         && !event.Disposed? && !event.Restarted? && Enabled(before[threadId], event)
         && after[threadId] == Next(before[threadId], event) && forall other: string :: other != threadId ==> after[other] == before[other]
       case Stops => forall id: string :: after[id] == CatchUpLane.Dispose(before[id])
       case Restarts => forall id: string :: after[id] == Restart(before[id])
  }

  ghost predicate IsEngineRun(states: seq<Lanes>, steps: seq<EngineStep>) {
    && |states| == |steps| + 1
    && (forall id: string :: id in states[0] && states[0][id] == START)
    && forall i {:trigger steps[i]} :: 0 <= i < |steps| ==> EngineStepOk(states[i], steps[i], states[i + 1])
  }

  lemma {:induction false} EngineRunKeeps(states: seq<Lanes>, steps: seq<EngineStep>, i: nat, threadId: string)
    requires IsEngineRun(states, steps) && i < |states|
    ensures threadId in states[i] && Inv(states[i][threadId])
  {
    if i > 0 {
      EngineRunKeeps(states, steps, i - 1, threadId);
      var lane, step := states[i - 1][threadId], steps[i - 1];
      assert EngineStepOk(states[i - 1], step, states[i - 1 + 1]);
      match step {
        case On(id, event) => if id == threadId { NextKeeps(lane, event); }
        case Stops => DisposeKeeps(lane);
        case Restarts => RestartKeeps(lane);
      }
    }
  }

  /**
   * In every run of the engine's methods, over all threads, with stops and
   * new engines over the same store among them, no thread's notification is
   * lost.
   */
  lemma NoThreadLosesANotification(states: seq<Lanes>, steps: seq<EngineStep>, i: nat, threadId: string)
    requires IsEngineRun(states, steps) && i < |states|
    ensures threadId in states[i] && NothingIsLost(states[i][threadId])
  {
    EngineRunKeeps(states, steps, i, threadId);
    InvLosesNothing(states[i][threadId]);
  }

  ghost function StillOwed(lane: Lane, owed: set<nat>): set<nat> {
    set s | s in owed && (Covered(lane, s) || Pending(lane, s))
  }

  method HighestOf(numbers: set<nat>, least: nat) returns (highest: nat)
    ensures IsHighest(numbers, least, highest)
  {
    highest := least;
    var rest := numbers;
    while rest != {}
      invariant rest <= numbers
      invariant IsHighest(numbers - rest, least, highest)
    {
      var n :| n in rest;
      assert numbers - (rest - {n}) == numbers - rest + {n};
      rest := rest - {n};
      if n > highest { highest := n; }
    }
    assert numbers - {} == numbers;
  }
}
