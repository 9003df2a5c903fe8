/**
 * bb as the server meets it: its threads may change between any two calls,
 * and any call may fail. What it answered, and the pins it took, are kept in
 * the order of the calls, so that a contract can say what an action went by
 * and did; the failures are counted, so that it can say what holds as long
 * as bb answers every call.
 */
module Bb {
  import opened Common
  import opened Threads
  import opened WaitingRule

  datatype PinCall = PinCall(threadId: string, pinned: bool)

  /**
   * What bb answered to one question: its threads, with how many pins and
   * unpins it had taken by then, the parent of a thread, or the turns of one.
   */
  datatype Answer =
    | Listed(listing: Option<seq<Thread>>, pins: nat)
    | ParentIs(threadId: string, parent: Option<string>)
    | TurnsAre(threadId: string, since: int, turns: Option<seq<TurnRecord>>)

  /** What bb took from this server, how many calls it failed, and what it answered. */
  datatype BbLog = BbLog(taken: seq<PinCall>, failures: nat, answers: seq<Answer>)

  ghost function Calls(ids: seq<string>, pinned: bool): seq<PinCall> {
    seq(|ids|, i requires 0 <= i < |ids| => PinCall(ids[i], pinned))
  }

  lemma OneMoreCall(ids: seq<string>, id: string, pinned: bool)
    ensures Calls(ids + [id], pinned) == Calls(ids, pinned) + [PinCall(id, pinned)]
  {
  }

  class Gateway {
    var threads: seq<Thread>
    /** The pins and unpins bb took from this server, in order. */
    ghost var taken: seq<PinCall>
    /** How many calls bb failed. */
    ghost var failures: nat
    /** What bb answered, in order. */
    ghost var answers: seq<Answer>

    constructor ()
      ensures UniqueIds(threads) && Log() == BbLog([], 0, [])
    {
      threads, taken, failures, answers := [], [], 0, [];
    }

    ghost function Log(): BbLog
      reads this`taken, this`failures, this`answers
    {
      BbLog(taken, failures, answers)
    }

    /** Whatever happened in bb since the last call. */
    method Moves()
      modifies this`threads
      ensures UniqueIds(threads)
    {
      var next: seq<Thread> := *;
      threads := if UniqueIds(next) then next else [];
    }

    /** The threads bb has now, or None when it could not say. */
    method Snapshot() returns (listing: Option<seq<Thread>>)
      modifies this`threads, this`failures, this`answers
      ensures listing.Some? ==> listing.value == threads && UniqueIds(threads)
      ensures failures == old(failures) + if listing.None? then 1 else 0
      ensures answers == old(answers) + [Listed(listing, |taken|)]
    {
      Moves();
      var answering: bool := *;
      listing := if answering then Some(threads) else None;
      if !answering { failures := failures + 1; }
      answers := answers + [Listed(listing, |taken|)];
    }

    /** The parent bb names for the thread now; None when it has none or bb could not say. */
    method ParentOf(threadId: string) returns (parent: Option<string>)
      modifies this`threads, this`answers
      ensures answers == old(answers) + [ParentIs(threadId, parent)]
    {
      Moves();
      parent := *;
      answers := answers + [ParentIs(threadId, parent)];
    }

    /** The turns the thread recorded after `since`, or None when bb could not say. */
    method TurnsSince(threadId: string, since: int) returns (turns: Option<seq<TurnRecord>>)
      modifies this`threads, this`failures, this`answers
      ensures failures == old(failures) + if turns.None? then 1 else 0
      ensures answers == old(answers) + [TurnsAre(threadId, since, turns)]
    {
      Moves();
      turns := *;
      if turns.None? { failures := failures + 1; }
      answers := answers + [TurnsAre(threadId, since, turns)];
    }

    method Pin(threadId: string) returns (done: bool)
      modifies this`threads, this`taken, this`failures
      ensures taken == old(taken) + if done then [PinCall(threadId, true)] else []
      ensures failures == old(failures) + if done then 0 else 1
    {
      Moves();
      done := *;
      if done { taken := taken + [PinCall(threadId, true)]; } else { failures := failures + 1; }
    }

    method Unpin(threadId: string) returns (done: bool)
      modifies this`threads, this`taken, this`failures
      ensures taken == old(taken) + if done then [PinCall(threadId, false)] else []
      ensures failures == old(failures) + if done then 0 else 1
    {
      Moves();
      done := *;
      if done { taken := taken + [PinCall(threadId, false)]; } else { failures := failures + 1; }
    }
  }
}
