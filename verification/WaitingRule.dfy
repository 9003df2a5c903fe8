/** The rule for a waiting settle: whether it keeps waiting, lands, or ends, and why. */
module WaitingRule {
  import opened Common
  import opened Threads

  datatype TurnOutcome = Completed | Failed | Interrupted

  /** A turn bb recorded: one asked for, by a message the user sent or not, or one that ended. */
  datatype TurnRecord = Requested(at: int, byUser: bool) | Ended(at: int, outcome: TurnOutcome)

  datatype WaitingEnd = PinnedSince | NeedsYou | Yours | FailedWork

  datatype WaitingVerdict = Wait | Land | End(reason: WaitingEnd)

  /** Why one turn ends a settle waiting since `since`. */
  function EndOf(turn: TurnRecord, since: int): Option<WaitingEnd> {
    if turn.at <= since then None
    else
      match turn
      case Requested(_, byUser) => if byUser then Some(Yours) else None
      case Ended(_, outcome) => if outcome.Completed? then None else Some(FailedWork)
  }

  /** The first of the turns that ends the settle says why. */
  function EndingTurn(turns: seq<TurnRecord>, since: int): Option<WaitingEnd> {
    if turns == [] then None
    else if EndOf(turns[0], since).Some? then EndOf(turns[0], since)
    else EndingTurn(turns[1..], since)
  }

  /** No turn ends the settle exactly when each one leaves it waiting, in whatever order they are read. */
  lemma {:induction false} NoTurnEnds(turns: seq<TurnRecord>, since: int)
    ensures EndingTurn(turns, since).None? <==> forall turn :: turn in turns ==> EndOf(turn, since).None?
  {
    if turns != [] {
      assert turns == [turns[0]] + turns[1..];
      NoTurnEnds(turns[1..], since);
    }
  }

  predicate AnyPinnedAfter(tree: seq<Thread>, since: int) { exists t :: t in tree && PinnedAfter(t, since) }

  predicate AnyVisibleAsks(tree: seq<Thread>) { exists t :: t in tree && !t.hidden && t.hasPendingInteraction }

  predicate AnyFailedToSend(tree: seq<Thread>) { exists t :: t in tree && t.queuedWork.FailedToSend? }

  function Verdict(tree: seq<Thread>, since: int, turns: seq<TurnRecord>): WaitingVerdict {
    if AnyPinnedAfter(tree, since) then End(PinnedSince)
    else if AnyVisibleAsks(tree) then End(NeedsYou)
    else if AnyFailedToSend(tree) then End(FailedWork)
    else
      match EndingTurn(turns, since)
      case Some(reason) => End(reason)
      case None => if AnyBusy(tree) then Wait else Land
  }

  /** A settle lands exactly when every thread of the tree is idle with no pin since, and no turn ended it. */
  lemma LandMeans(tree: seq<Thread>, since: int, turns: seq<TurnRecord>)
    ensures Verdict(tree, since, turns).Land? <==>
      && (forall t :: t in tree ==> !IsBusy(t) && !PinnedAfter(t, since))
      && (forall turn :: turn in turns ==> EndOf(turn, since).None?)
  {
    NoTurnEnds(turns, since);
  }

  // ---- the verdict in the fields of threads and turns ----

  /** A turn of before the choice, one an agent or bb itself asked for, or one that ended well. */
  ghost predicate IsHarmless(turn: TurnRecord, since: int) {
    turn.at <= since || turn == Requested(turn.at, false) || turn == Ended(turn.at, Completed)
  }

  ghost predicate SomePinnedSince(tree: seq<Thread>, since: int) {
    exists t :: t in tree && t.pinnedAt.Some? && t.pinnedAt.value > since
  }

  ghost predicate SomeVisibleAsks(tree: seq<Thread>) { exists t :: t in tree && !t.hidden && t.hasPendingInteraction }

  ghost predicate SomeFailedToSend(tree: seq<Thread>) { exists t :: t in tree && t.queuedWork == FailedToSend }

  /** The turn at `i` is the first that is not harmless. */
  ghost predicate FirstHarm(turns: seq<TurnRecord>, since: int, i: int) {
    0 <= i < |turns| && !IsHarmless(turns[i], since) && forall j :: 0 <= j < i ==> IsHarmless(turns[j], since)
  }

  /** What the first harmful turn tells: a message of the user's, or work that failed or was interrupted. */
  ghost predicate TellsOf(turn: TurnRecord, reason: WaitingEnd) {
    || (turn == Requested(turn.at, true) && reason == Yours)
    || ((turn == Ended(turn.at, Failed) || turn == Ended(turn.at, Interrupted)) && reason == FailedWork)
  }

  ghost predicate TurnsTell(turns: seq<TurnRecord>, since: int, reason: WaitingEnd) {
    exists i :: FirstHarm(turns, since, i) && TellsOf(turns[i], reason)
  }

  lemma FirstHarmMoves(turns: seq<TurnRecord>, since: int, i: int)
    requires turns != [] && IsHarmless(turns[0], since)
    ensures FirstHarm(turns, since, i + 1) <==> FirstHarm(turns[1..], since, i)
  {
    var rest := turns[1..];
    assert forall j :: 0 <= j < |rest| ==> rest[j] == turns[j + 1];
    if FirstHarm(turns, since, i + 1) && i >= 0 {
      forall j | 0 <= j < i ensures IsHarmless(rest[j], since) { assert IsHarmless(turns[j + 1], since); }
    }
  }

  lemma TellsMoves(turns: seq<TurnRecord>, since: int, reason: WaitingEnd)
    requires turns != [] && IsHarmless(turns[0], since)
    ensures TurnsTell(turns, since, reason) <==> TurnsTell(turns[1..], since, reason)
  {
    if i :| FirstHarm(turns[1..], since, i) && TellsOf(turns[1..][i], reason) {
      FirstHarmMoves(turns, since, i);
      assert TellsOf(turns[i + 1], reason);
    }
    if i :| FirstHarm(turns, since, i) && TellsOf(turns[i], reason) {
      FirstHarmMoves(turns, since, i - 1);
      assert TellsOf(turns[1..][i - 1], reason);
    }
  }

  lemma {:induction false} EndingTurnTells(turns: seq<TurnRecord>, since: int, reason: WaitingEnd)
    ensures EndingTurn(turns, since) == Some(reason) <==> TurnsTell(turns, since, reason)
  {
    if turns != [] {
      EndingTurnTells(turns[1..], since, reason);
      if IsHarmless(turns[0], since) {
        TellsMoves(turns, since, reason);
      } else {
        assert FirstHarm(turns, since, 0);
      }
    }
  }

  lemma AllHarmless(turns: seq<TurnRecord>, since: int)
    ensures EndingTurn(turns, since).None? <==> forall turn :: turn in turns ==> IsHarmless(turn, since)
  {
    NoTurnEnds(turns, since);
    forall turn ensures EndOf(turn, since).None? <==> IsHarmless(turn, since) {}
  }

  /** A settle lands exactly when every thread of the tree is at rest, none was pinned since, and every turn is harmless. */
  lemma LandsAtRest(tree: seq<Thread>, since: int, turns: seq<TurnRecord>)
    ensures Verdict(tree, since, turns) == Land <==>
      && (forall t :: t in tree ==> AtRest(t)) && !SomePinnedSince(tree, since)
      && (forall turn :: turn in turns ==> IsHarmless(turn, since))
  {
    AllHarmless(turns, since);
    LandMeans(tree, since, turns);
  }

  /** Why it ends, and in which order the reasons are looked for: nothing else ends it. */
  lemma EndsBecause(tree: seq<Thread>, since: int, turns: seq<TurnRecord>, reason: WaitingEnd)
    ensures Verdict(tree, since, turns) == End(reason) <==>
      if SomePinnedSince(tree, since) then reason == PinnedSince
      else if SomeVisibleAsks(tree) then reason == NeedsYou
      else if SomeFailedToSend(tree) then reason == FailedWork
      else TurnsTell(turns, since, reason)
  {
    EndingTurnTells(turns, since, reason);
  }

  /** Hearing of more turns never lets a settle land that fewer would keep from it. */
  lemma MoreTurnsLandLess(tree: seq<Thread>, since: int, turns: seq<TurnRecord>, more: seq<TurnRecord>)
    requires Verdict(tree, since, turns + more).Land?
    ensures Verdict(tree, since, turns).Land? && Verdict(tree, since, []).Land?
  {
    LandMeans(tree, since, turns + more);
    LandMeans(tree, since, turns);
    LandMeans(tree, since, []);
    forall turn | turn in turns ensures EndOf(turn, since).None? { assert turn in turns + more; }
  }
}
