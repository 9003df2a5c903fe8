/** Work that runs one piece at a time: auto-settle's passes, and the checks of waiting settles. No call is answered by work begun before it. */
module Passes {
  import opened Common
  import opened Threads
  import opened Lifecycle
  import opened LifecycleStore
  import opened AutoSettle
  import opened WaitingSettles

  // ---- auto-settle ----

  /** The passes of auto-settle: whether one runs, whether the next is asked for, and how many have begun. */
  datatype Stage = Passing(running: bool, waiting: bool, begun: nat)

  /** A call, with the pass whose outcome it is given, or the end of the pass under way. */
  datatype PassStep = Called(pass: nat) | Ended

  ghost predicate PassStepOk(before: Stage, step: PassStep, after: Stage) {
    match step
    case Called(pass) =>
      && pass == before.begun
      && after == if before.running then before.(waiting := true) else before.(running := true, begun := before.begun + 1)
    case Ended =>
      before.running && after == Passing(before.waiting, false, before.begun + if before.waiting then 1 else 0)
  }

  ghost predicate ArePasses(stages: seq<Stage>, steps: seq<PassStep>) {
    && |stages| == |steps| + 1
    && stages[0] == Passing(false, false, 0)
    && forall i {:trigger steps[i]} :: 0 <= i < |steps| ==> PassStepOk(stages[i], steps[i], stages[i + 1])
  }

  /** How many of the steps end a pass. */
  function Ends(steps: seq<PassStep>): nat {
    if steps == [] then 0 else Ends(steps[..|steps| - 1]) + if steps[|steps| - 1].Ended? then 1 else 0
  }

  /** In every run of calls and ends, passes begun and not ended are one at most, and only behind a pass under way does one wait. */
  lemma {:induction false} OnePassAtATime(stages: seq<Stage>, steps: seq<PassStep>, i: nat)
    requires ArePasses(stages, steps) && i <= |steps|
    ensures stages[i].begun == Ends(steps[..i]) + if stages[i].running then 1 else 0
    ensures stages[i].waiting ==> stages[i].running
  {
    if i > 0 {
      OnePassAtATime(stages, steps, i - 1);
      assert PassStepOk(stages[i - 1], steps[i - 1], stages[i - 1 + 1]);
      assert steps[..i][..i - 1] == steps[..i - 1];
    }
  }

  ghost predicate EndsBetween(steps: seq<PassStep>, i: int, j: int) {
    exists k :: 0 <= i < k < j && k < |steps| && steps[k].Ended?
  }

  /**
   * In every run a call is answered by a pass that had not begun before it,
   * begins with it unless another is under way, and otherwise as soon as that
   * one ends.
   */
  lemma {:induction false} AnsweredByALaterPass(stages: seq<Stage>, steps: seq<PassStep>, i: nat, j: nat)
    requires ArePasses(stages, steps) && i < j <= |steps| && steps[i].Called?
    ensures var pass := steps[i].pass;
      && stages[i].begun <= pass <= stages[j].begun
      && (pass < stages[j].begun <==> !stages[i].running || EndsBetween(steps, i, j))
      && (pass == stages[j].begun ==> stages[j].waiting)
    decreases j
  {
    var before := stages[j - 1];
    assert PassStepOk(before, steps[j - 1], stages[j - 1 + 1]);
    if i < j - 1 {
      AnsweredByALaterPass(stages, steps, i, j - 1);
      OnePassAtATime(stages, steps, j - 1);
      if EndsBetween(steps, i, j) && !EndsBetween(steps, i, j - 1) {
        assert steps[j - 1].Ended?;
      }
    }
  }

  /** Two calls are given the same pass exactly when it had not begun by the second: those made while one waits share it. */
  lemma CallsShareTheWaitingPass(stages: seq<Stage>, steps: seq<PassStep>, i: nat, j: nat)
    requires ArePasses(stages, steps) && i < j < |steps| && steps[i].Called? && steps[j].Called?
    ensures steps[i].pass == steps[j].pass <==> stages[i].running && !EndsBetween(steps, i, j)
  {
    AnsweredByALaterPass(stages, steps, i, j);
    assert PassStepOk(stages[j], steps[j], stages[j + 1]);
  }

  class AutoSettleRuns {
    const store: LifecycleStore
    var running: bool
    /** A run asked for while one is under way, and shared by all that ask. */
    var waiting: bool
    /** How many passes have begun. */
    ghost var begun: nat

    constructor (store: LifecycleStore)
      ensures this.store == store && Valid() && !running && begun == 0
    {
      this.store := store;
      running, waiting, begun := false, false, 0;
    }

    ghost predicate Valid()
      reads this
    {
      (running ==> begun > 0) && (waiting ==> running)
    }

    ghost function Stage(): Stage
      reads this
    {
      Passing(running, waiting, begun)
    }

    /** A call is answered by the pass that begins now, or by the next one: never by a pass begun before the call. */
    method Run() returns (ghost pass: nat)
      requires Valid()
      modifies this`running, this`waiting, this`begun
      ensures Valid() && running
      ensures pass == old(begun) && begun == old(begun) + if old(running) then 0 else 1
      ensures waiting == old(running)
      ensures PassStepOk(old(Stage()), Called(pass), Stage())
    {
      pass := begun;
      if running {
        waiting := true;
      } else {
        running, begun := true, begun + 1;
      }
    }

    /** When a pass ends, the waiting run begins at once, if any call asked for it. */
    method PassEnds()
      requires Valid() && running
      modifies this`running, this`waiting, this`begun
      ensures Valid() && !waiting && running == old(waiting)
      ensures begun == old(begun) + if old(waiting) then 1 else 0
      ensures PassStepOk(old(Stage()), Ended, Stage())
    {
      running := false;
      var next := waiting;
      waiting := false;
      if next { running, begun := true, begun + 1; }
    }

    /**
     * What a pass does inside the change, with bb's threads read there:
     * nothing when the settings are no longer those it started under, else
     * the rows of its plan, which a second pass would leave as they are.
     */
    method WritePlan(input: Input, settingsNow: Settings) returns (settle: set<string>, unsettle: set<string>, touched: set<string>)
      requires store.Valid() && UniqueIds(input.threads) && input.rows == store.rows
      requires PlanEnds(StartOf(input))
      modifies store
      ensures store.Valid() && old(store.issued) <= store.issued
      ensures forall id :: store.RowOf(id) != old(store.RowOf(id)) ==> id in touched
      ensures settingsNow != input.settings ==> settle == unsettle == {} && store.rows == old(store.rows)
      ensures settingsNow == input.settings ==> settle == PlanSettle(StartOf(input)) && unsettle == PlanUnsettle(StartOf(input))
      ensures settingsNow == input.settings ==> store.rows == RowsAfter(input, settle, unsettle)
    {
      settle, unsettle, touched := {}, {}, {};
      if settingsNow == input.settings {
        settle, unsettle := PlanAutoSettle(input);
        var updates: map<string, Option<Row>> := map id | id in settle + unsettle :: if id in settle then Some(SettledRow(input.now, Auto)) else None;
        touched := store.PutMap(updates);
        forall id ensures Get(store.rows, id) == Get(RowsAfter(input, settle, unsettle), id) {
          assert store.RowOf(id) == if id in updates then Stored(updates[id]) else old(store.RowOf(id));
        }
        SameRows(store.rows, RowsAfter(input, settle, unsettle));
      }
    }
  }

  lemma SameRows(a: Rows, b: Rows)
    requires forall id :: Get(a, id) == Get(b, id)
    ensures a == b
  {
    forall id ensures id in a <==> id in b { assert Get(a, id) == Get(b, id); }
    forall id | id in a ensures a[id] == b[id] { assert Get(a, id) == Get(b, id); }
  }

  // ---- the checks of waiting settles ----

  class WaitingChecks {
    /** The check that has not started yet, which a new request joins. */
    var next: Option<seq<WaitingEvent>>
    /** Whether a check is under way; the queue runs one at a time. */
    var running: bool
    /** The events of every check so far, in the order the checks start. */
    ghost var batches: seq<seq<WaitingEvent>>
    ghost var started: nat

    constructor ()
      ensures Valid() && batches == [] && started == 0
    {
      next, running, batches, started := None, false, [], 0;
    }

    /** At most one check has not started, and it is the one requests join. */
    ghost predicate Valid()
      reads this
    {
      match next
      case None => |batches| == started
      case Some(events) => |batches| == started + 1 && batches[started] == events
    }

    /** A request is served by a check that has not started, and that knows its event and all told it before. */
    method Check(event: Option<WaitingEvent>) returns (ghost served: nat)
      requires Valid()
      modifies this`next, this`batches
      ensures Valid() && started == old(started) <= served < |batches|
      ensures batches[served] == (if served < |old(batches)| then old(batches)[served] else []) + (if event.Some? then [event.value] else [])
      ensures |old(batches)| <= |batches| && forall i :: 0 <= i < |old(batches)| && i != served ==> batches[i] == old(batches)[i]
    {
      served := started;
      if next.None? {
        next := Some([]);
        batches := batches + [[]];
      }
      if event.Some? {
        next := Some(next.value + [event.value]);
        batches := batches[served := batches[served] + [event.value]];
      }
    }

    /** The queue starts the waiting check with the events it was told of; later requests make a new one. */
    method Start() returns (events: seq<WaitingEvent>)
      requires Valid() && next.Some? && !running
      modifies this`next, this`running, this`started
      ensures Valid() && running && next.None?
      ensures started == old(started) + 1 && events == batches[old(started)]
    {
      events := next.value;
      next, running, started := None, true, started + 1;
    }

    method End()
      requires Valid() && running
      modifies this`running
      ensures Valid() && !running
    {
      running := false;
    }
  }
}
