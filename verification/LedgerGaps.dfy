/** When a batch finds a gap, when it may fill it and what it then writes, and what the cursor holds after it, by the events themselves. */
module LedgerGaps {
  import opened Common
  import opened Tokens
  import opened Ledger
  import opened LedgerTokens
  import opened LedgerEvents

  // ---- what the fold gathers ----

  predicate IsIdentity(e: Event) { e.body.Identity? }
  predicate TellsTotal(e: Event) { e.body.Usage? && e.body.total.Some? }

  /** A usage event that counts for this turn. */
  predicate CountsFor(e: Event, id: string) { e.turnId == Some(id) && e.body.Usage? && e.body.last.Some? }

  ghost predicate HasUsageOf(events: seq<Event>, id: string) { exists i :: 0 <= i < |events| && CountsFor(events[i], id) }

  /** The completions of turns, in order. */
  function Completions(events: seq<Event>): seq<Completion> {
    if events == [] then []
    else
      var last := events[|events| - 1];
      Completions(events[..|events| - 1])
        + if last.body.Completed? && last.turnId.Some? then [Completion(last.turnId.value, last.createdAt, last.number)] else []
  }

  /** The fold gathered which turns had usage, which completed, where harness starts were and what bb's latest total is. */
  ghost predicate Gathers(fold: Fold, events: seq<Event>) {
    && (forall id :: id in fold.usageTurns <==> HasUsageOf(events, id))
    && fold.completed == Completions(events)
    && (forall n :: n in fold.identitySeqs <==> exists i :: 0 <= i < |events| && IsIdentity(events[i]) && events[i].number == n)
    && GathersTotal(fold.latestUsage, events)
  }

  ghost predicate GathersTotal(latest: Option<Snapshot>, events: seq<Event>) {
    if NoneWhere(events, TellsTotal) then latest.None?
    else exists at :: LastWhere(events, TellsTotal, at) && latest == Some(Snapshot(events[at].number, FromBbBreakdown(events[at].body.total.value)))
  }

  lemma TotalOneMore(before: Option<Snapshot>, events: seq<Event>, e: Event)
    requires GathersTotal(before, events)
    ensures GathersTotal(if TellsTotal(e) then Some(Snapshot(e.number, FromBbBreakdown(e.body.total.value))) else before, events + [e])
  {
    LastOneMore(events, e, TellsTotal);
  }

  lemma UsageOneMore(events: seq<Event>, e: Event, id: string)
    ensures HasUsageOf(events + [e], id) <==> HasUsageOf(events, id) || CountsFor(e, id)
  {
    var more := events + [e];
    assert more[|events|] == e && forall i :: 0 <= i < |events| ==> more[i] == events[i];
  }

  lemma IdentitiesOneMore(events: seq<Event>, e: Event, n: nat)
    ensures (exists i :: 0 <= i < |events + [e]| && IsIdentity((events + [e])[i]) && (events + [e])[i].number == n)
      <==> (exists i :: 0 <= i < |events| && IsIdentity(events[i]) && events[i].number == n) || (IsIdentity(e) && e.number == n)
  {
    var more := events + [e];
    assert more[|events|] == e && forall i :: 0 <= i < |events| ==> more[i] == events[i];
  }

  lemma GathersOneMore(turns: Turns, per: bool, fold: Fold, events: seq<Event>, e: Event)
    requires Gathers(fold, events)
    ensures Gathers(Step(turns, per, fold, e), events + [e])
  {
    var next := Step(turns, per, fold, e);
    assert (events + [e])[..|events|] == events;
    TotalOneMore(fold.latestUsage, events, e);
    forall id ensures id in next.usageTurns <==> HasUsageOf(events + [e], id) { UsageOneMore(events, e, id); }
    forall n ensures n in next.identitySeqs <==> exists i :: 0 <= i < |events + [e]| && IsIdentity((events + [e])[i]) && (events + [e])[i].number == n {
      IdentitiesOneMore(events, e, n);
    }
  }

  lemma {:induction false} FoldGathers(turns: Turns, per: bool, lastSeq: nat, cursor: Cursor, events: seq<Event>)
    requires AllAbove(events, lastSeq)
    ensures Gathers(FoldEvents(turns, per, lastSeq, StartFold(cursor), events), events)
  {
    if events != [] {
      var rest, e := events[..|events| - 1], events[|events| - 1];
      FoldGathers(turns, per, lastSeq, cursor, rest);
      GathersOneMore(turns, per, FoldEvents(turns, per, lastSeq, StartFold(cursor), rest), rest, e);
      assert rest + [e] == events;
    }
  }

  lemma NewsGathered(input: IngestInput)
    ensures Gathers(FoldOf(input), News(input))
  {
    FoldOfNews(input);
    FoldGathers(input.turns, input.perRequestEvents, input.cursor.lastSeq, SeenCursor(input), News(input));
  }

  // ---- when there is a gap ----

  /** A turn without a usage event, in the batch or stored. */
  ghost predicate LacksUsage(input: IngestInput, id: string) {
    !HasUsageOf(News(input), id) && (id in input.turns ==> input.turns[id].usageEvents == 0)
  }

  /** A completion of a turn without usage, old enough and in a batch long enough for bb to have pruned it. */
  ghost predicate WasPruned(input: IngestInput, c: Completion) {
    c in Completions(News(input)) && LacksUsage(input, c.turnId) && input.latestSeq - input.cursor.lastSeq >= 250 && input.now - c.at >= 30_000
  }

  lemma {:induction false} MissingHas(input: IngestInput, fold: Fold, completed: seq<Completion>)
    ensures forall c :: c in MissingOf(input, fold, completed) <==> c in completed && IsMissing(input, fold, c)
  {
    if completed != [] {
      MissingHas(input, fold, completed[..|completed| - 1]);
      assert completed == completed[..|completed| - 1] + [completed[|completed| - 1]];
    }
  }

  lemma MissingWerePruned(input: IngestInput, c: Completion)
    ensures c in Missing(input, FoldOf(input)) <==> WasPruned(input, c)
  {
    NewsGathered(input);
    MissingHas(input, FoldOf(input), FoldOf(input).completed);
  }

  /** A batch reports a gap exactly when the thread was seen before and some completed turn was pruned. */
  lemma GapIff(input: IngestInput, result: IngestResult)
    requires IsIngest(input, result)
    ensures |result.gaps| <= 1
    ensures result.gaps != [] <==> input.cursor.firstSeenAt.Some? && exists c :: WasPruned(input, c)
    ensures result.gaps != [] ==> result.gaps[0].turnIds == TurnIdsOf(Missing(input, FoldOf(input)))
  {
    var missing := Missing(input, FoldOf(input));
    forall c ensures c in missing <==> WasPruned(input, c) { MissingWerePruned(input, c); }
    if missing != [] { assert missing[0] in missing; }
  }

  /** bb's total still measures the gap: it is known then and now, no harness start came in between, and no kind of it fell. */
  ghost predicate TotalMeasures(input: IngestInput, at: int) {
    var events := News(input);
    && LastWhere(events, TellsTotal, at) && input.cursor.lastTotal.Some?
    && (forall i :: 0 <= i < |events| && IsIdentity(events[i]) ==> events[i].number > events[at].number)
    && var was, total := input.cursor.lastTotal.value, FromBbBreakdown(events[at].body.total.value);
       was.input <= total.input && was.output <= total.output && was.cacheRead <= total.cacheRead && was.cacheWrite <= total.cacheWrite
  }

  lemma CanFillIff(input: IngestInput)
    ensures CanFill(input, FoldOf(input)) <==> exists at :: TotalMeasures(input, at)
  {
    var fold, events := FoldOf(input), News(input);
    NewsGathered(input);
    if fold.latestUsage.Some? {
      var at :| LastWhere(events, TellsTotal, at) && fold.latestUsage == Some(Snapshot(events[at].number, FromBbBreakdown(events[at].body.total.value)));
      OneLast(events, TellsTotal, at);
      RestartedIff(fold, events, at);
      assert CanFill(input, fold) <==> TotalMeasures(input, at);
    }
  }

  lemma OneLast(events: seq<Event>, fits: Event -> bool, at: int)
    requires LastWhere(events, fits, at)
    ensures !NoneWhere(events, fits) && forall other :: LastWhere(events, fits, other) ==> other == at
  {
  }

  lemma RestartedIff(fold: Fold, events: seq<Event>, at: int)
    requires Gathers(fold, events) && fold.latestUsage.Some? && 0 <= at < |events| && fold.latestUsage.value.number == events[at].number
    ensures Restarted(fold) <==> exists i :: 0 <= i < |events| && IsIdentity(events[i]) && events[i].number <= events[at].number
  {
    if i :| 0 <= i < |events| && IsIdentity(events[i]) && events[i].number <= events[at].number {
      assert events[i].number in fold.identitySeqs;
    }
    if k :| 0 <= k < |fold.identitySeqs| && fold.identitySeqs[k] <= events[at].number {
      assert fold.identitySeqs[k] in fold.identitySeqs;
    }
  }

  /** A gap is filled exactly when bb's total still measures it: never across a harness start, nor without a total to start from. */
  lemma FilledIff(input: IngestInput, result: IngestResult)
    requires IsIngest(input, result) && result.gaps != []
    ensures result.gaps[0].filled <==> exists at :: TotalMeasures(input, at)
  {
    CanFillIff(input);
  }

  // ---- what a gap writes ----

  /** Whether a turn is among the pruned ones. */
  ghost predicate IsPruned(input: IngestInput, id: string) { exists c :: WasPruned(input, c) && c.turnId == id }

  ghost predicate Names(missing: seq<Completion>, id: string) { exists i :: 0 <= i < |missing| && missing[i].turnId == id }

  lemma NamesOneMore(missing: seq<Completion>, id: string)
    requires missing != []
    ensures Names(missing, id) <==> Names(missing[..|missing| - 1], id) || missing[|missing| - 1].turnId == id
  {
    assert forall i :: 0 <= i < |missing| - 1 ==> missing[..|missing| - 1][i] == missing[i];
  }

  lemma {:induction false} MarksEach(turns: Turns, changed: Turns, missing: seq<Completion>, id: string)
    requires Names(missing, id) ==> id in changed
    ensures Get(MarkAll(turns, changed, missing), id) == if Names(missing, id) then Some(changed[id].(partial := true)) else Get(changed, id)
  {
    if missing != [] {
      NamesOneMore(missing, id);
      MarksEach(turns, changed, missing[..|missing| - 1], id);
    }
  }

  lemma {:induction false} FillsEach(turns: Turns, changed: Turns, missing: seq<Completion>, share: Tokens, id: string)
    ensures var after := FillAll(turns, changed, missing, share);
      if Names(missing, id) then id in after && after[id].filled else Get(after, id) == Get(changed, id)
  {
    if missing != [] {
      NamesOneMore(missing, id);
      FillsEach(turns, changed, missing[..|missing| - 1], share, id);
    }
  }

  /** Every turn that completed in the batch has a changed record. */
  lemma CompletedHaveRecords(input: IngestInput, id: string)
    requires IsPruned(input, id)
    ensures id in FoldOf(input).changed
  {
    var c :| WasPruned(input, c) && c.turnId == id;
    FoldOfNews(input);
    TurnsAreMade(input.turns, input.perRequestEvents, input.cursor.lastSeq, SeenCursor(input), News(input), id);
    CompletionRecords(News(input), c);
  }

  lemma {:induction false} CompletionRecords(events: seq<Event>, c: Completion)
    requires c in Completions(events)
    ensures !NoneWhere(OfTurn(events, c.turnId), Records)
  {
    var n := |events| - 1;
    var own, e := OfTurn(events[..n], c.turnId), events[n];
    if e.turnId == Some(c.turnId) {
      LastOneMore(own, e, Records);
    } else {
      assert OfTurn(events, c.turnId) == own;
    }
    if c in Completions(events[..n]) { CompletionRecords(events[..n], c); }
  }

  lemma IsAmongMissing(input: IngestInput, id: string)
    ensures Names(Missing(input, FoldOf(input)), id) <==> IsPruned(input, id)
  {
    var missing := Missing(input, FoldOf(input));
    forall c ensures c in missing <==> WasPruned(input, c) { MissingWerePruned(input, c); }
    if c :| WasPruned(input, c) && c.turnId == id { assert c in missing; }
    if i :| 0 <= i < |missing| && missing[i].turnId == id { assert missing[i] in missing; }
  }

  /**
   * A gap that is not filled adds nothing but its usage events' counts: each
   * pruned turn is marked partial and is otherwise what its own events made of
   * it, and every other turn is too.
   */
  lemma UnfilledGapMarks(input: IngestInput, result: IngestResult, id: string, kind: Kind)
    requires IsIngest(input, result) && result.gaps != [] && !result.gaps[0].filled
    ensures Total(input.turns + result.turns, kind) == Total(input.turns, kind) + Of(FoldOf(input).lastsInBatch, kind)
    ensures if IsPruned(input, id)
      then id in FoldOf(input).changed && Get(result.turns, id) == Some(FoldOf(input).changed[id].(partial := true))
      else Get(result.turns, id) == Get(FoldOf(input).changed, id)
  {
    BatchAdds(input, result, kind);
    IsAmongMissing(input, id);
    if IsPruned(input, id) { CompletedHaveRecords(input, id); }
    MarksEach(input.turns, FoldOf(input).changed, Missing(input, FoldOf(input)), id);
  }

  /** A filled gap marks exactly its pruned turns filled; what it adds is bb's total (`LedgerTokens.FilledGapMatchesTotal`). */
  lemma FilledGapMarks(input: IngestInput, result: IngestResult, id: string)
    requires IsIngest(input, result) && result.gaps != [] && result.gaps[0].filled
    ensures if IsPruned(input, id) then id in result.turns && result.turns[id].filled else Get(result.turns, id) == Get(FoldOf(input).changed, id)
  {
    IsAmongMissing(input, id);
    FillsEach(input.turns, FoldOf(input).changed, Missing(input, FoldOf(input)), ShareTokens(GapTokens(input, FoldOf(input)), |Missing(input, FoldOf(input))|), id);
  }

  /** A gap with a harness start up to the latest total is never filled: its turns are partial and the tokens are the usage events'. */
  lemma NoFillAcrossAStart(input: IngestInput, result: IngestResult, at: int, start: int, kind: Kind)
    requires IsIngest(input, result) && result.gaps != []
    requires LastWhere(News(input), TellsTotal, at) && 0 <= start < |News(input)|
    requires IsIdentity(News(input)[start]) && News(input)[start].number <= News(input)[at].number
    ensures !result.gaps[0].filled
    ensures Total(input.turns + result.turns, kind) == Total(input.turns, kind) + Of(FoldOf(input).lastsInBatch, kind)
    ensures forall id :: IsPruned(input, id) ==> id in result.turns && result.turns[id].partial
  {
    FilledIff(input, result);
    OneLast(News(input), TellsTotal, at);
    BatchAdds(input, result, kind);
    forall id | IsPruned(input, id) ensures id in result.turns && result.turns[id].partial { UnfilledGapMarks(input, result, id, kind); }
  }

  // ---- the first read ----

  /** A first read opens a balance exactly when a turn that completed lacks usage and bb told a total. */
  lemma OpensIff(input: IngestInput, result: IngestResult)
    requires IsIngest(input, result)
    ensures result.balanceOpened <==>
      && input.cursor.firstSeenAt.None? && !NoneWhere(News(input), TellsTotal)
      && exists c :: c in Completions(News(input)) && LacksUsage(input, c.turnId)
  {
    var fold := FoldOf(input);
    NewsGathered(input);
    if i :| 0 <= i < |fold.completed| && !HasUsage(input, fold, fold.completed[i]) {
      assert fold.completed[i] in Completions(News(input)) && LacksUsage(input, fold.completed[i].turnId);
    }
    if c :| c in Completions(News(input)) && LacksUsage(input, c.turnId) {
      var i :| 0 <= i < |fold.completed| && fold.completed[i] == c;
    }
  }
}
