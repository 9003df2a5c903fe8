/** The ledger's tokens against bb's running total, and each turn's requests against its tokens. */
module LedgerTokens {
  import opened Common
  import opened Tokens
  import opened Ledger

  // ---- the tokens of a whole ledger ----

  ghost function SumOver(turns: Turns, ids: set<string>, kind: Kind): nat
    requires ids <= turns.Keys
  {
    if ids == {} then 0
    else
      var id :| id in ids;
      Of(turns[id].tokens, kind) + SumOver(turns, ids - {id}, kind)
  }

  /** All tokens of one kind in the ledger. */
  ghost function Total(turns: Turns, kind: Kind): nat { SumOver(turns, turns.Keys, kind) }

  lemma {:induction false} SumTakesOut(turns: Turns, ids: set<string>, id: string, kind: Kind)
    requires ids <= turns.Keys && id in ids
    ensures SumOver(turns, ids, kind) == Of(turns[id].tokens, kind) + SumOver(turns, ids - {id}, kind)
    decreases ids
  {
    var picked :| picked in ids && SumOver(turns, ids, kind) == Of(turns[picked].tokens, kind) + SumOver(turns, ids - {picked}, kind);
    if picked != id {
      SumTakesOut(turns, ids - {picked}, id, kind);
      SumTakesOut(turns, ids - {id}, picked, kind);
      assert ids - {picked} - {id} == ids - {id} - {picked};
    }
  }

  lemma {:induction false} SumAgrees(a: Turns, b: Turns, ids: set<string>, kind: Kind)
    requires ids <= a.Keys && ids <= b.Keys
    requires forall id :: id in ids ==> a[id].tokens == b[id].tokens
    ensures SumOver(a, ids, kind) == SumOver(b, ids, kind)
    decreases ids
  {
    if ids != {} {
      var id :| id in ids;
      SumTakesOut(a, ids, id, kind);
      SumTakesOut(b, ids, id, kind);
      SumAgrees(a, b, ids - {id}, kind);
    }
  }

  function TokensIn(turns: Turns, id: string): Tokens { if id in turns then turns[id].tokens else ZERO_TOKENS }

  /** Putting a record moves the total by what its tokens changed. */
  lemma TotalAfterPut(turns: Turns, id: string, record: TurnRecord, kind: Kind)
    ensures Total(turns[id := record], kind) + Of(TokensIn(turns, id), kind) == Total(turns, kind) + Of(record.tokens, kind)
  {
    var after := turns[id := record];
    SumTakesOut(after, after.Keys, id, kind);
    SumAgrees(after, turns, turns.Keys - {id}, kind);
    assert after.Keys - {id} == turns.Keys - {id};
    if id in turns {
      SumTakesOut(turns, turns.Keys, id, kind);
    } else {
      assert turns.Keys - {id} == turns.Keys;
    }
  }

  /** Putting a record that adds `more` to its turn's tokens adds them to the total of the merged ledger. */
  lemma TotalAfterAdding(turns: Turns, changed: Turns, id: string, number: nat, record: TurnRecord, more: Tokens, kind: Kind)
    requires record.tokens == AddTokens(RecordOf(turns, changed, id, number).tokens, more)
    ensures Total(turns + changed[id := record], kind) == Total(turns + changed, kind) + Of(more, kind)
  {
    var before := RecordOf(turns, changed, id, number);
    assert turns + changed[id := record] == (turns + changed)[id := record];
    TotalAfterPut(turns + changed, id, record, kind);
    KindsOf(before.tokens, more, kind);
    assert before.tokens == TokensIn(turns + changed, id);
  }

  // ---- what a batch adds ----

  lemma TouchAdds(turns: Turns, per: bool, fold: Fold, event: Event, kind: Kind)
    ensures Total(turns + Touch(turns, fold.changed, event, fold.cursor, per), kind)
      == Total(turns + fold.changed, kind) + Of(LastOf(event), kind)
  {
    if event.turnId.Some? {
      var id := event.turnId.value;
      var record := RecordOf(turns, fold.changed, id, event.number);
      var touched := TouchedRecord(event.body, event.createdAt, fold.cursor, record, per);
      if touched.Some? {
        TouchedTokens(event.body, event.createdAt, fold.cursor, record, per);
        TotalAfterAdding(turns, fold.changed, id, event.number, touched.value, LastOf(event), kind);
      }
    }
  }

  lemma TouchedTokens(body: Body, at: int, cursor: Cursor, record: TurnRecord, per: bool)
    ensures var touched := TouchedRecord(body, at, cursor, record, per);
      touched.Some? ==>
        touched.value.tokens == AddTokens(record.tokens, if body.Usage? && body.last.Some? then FromBbBreakdown(body.last.value) else ZERO_TOKENS)
  {
  }

  lemma {:induction false} FoldAdds(turns: Turns, per: bool, lastSeq: nat, start: Fold, events: seq<Event>, kind: Kind)
    ensures var fold := FoldEvents(turns, per, lastSeq, start, events);
      Total(turns + fold.changed, kind) + Of(start.lastsInBatch, kind)
        == Total(turns + start.changed, kind) + Of(fold.lastsInBatch, kind)
  {
    if events != [] {
      var rest, event := events[..|events| - 1], events[|events| - 1];
      FoldAdds(turns, per, lastSeq, start, rest, kind);
      var before := FoldEvents(turns, per, lastSeq, start, rest);
      TouchAdds(turns, per, before, event, kind);
      KindsOf(before.lastsInBatch, LastOf(event), kind);
      KindsOf(ZERO_TOKENS, ZERO_TOKENS, kind);
    }
  }

  /** Putting a record with `more` on top adds it to the total, whatever the total was. */
  lemma OneMoreAdded(turns: Turns, before: Turns, m: Completion, record: TurnRecord, more: Tokens, kind: Kind, total: nat)
    requires record.tokens == AddTokens(RecordOf(turns, before, m.turnId, m.number).tokens, more)
    requires Total(turns + before, kind) == total
    ensures Total(turns + before[m.turnId := record], kind) == total + Of(more, kind)
  {
    TotalAfterAdding(turns, before, m.turnId, m.number, record, more, kind);
  }

  lemma OneTimeMore(n: nat, x: nat)
    ensures (n + 1) * x == n * x + x
  {
  }

  lemma {:induction false} FillAdds(turns: Turns, changed: Turns, missing: seq<Completion>, share: Tokens, kind: Kind)
    ensures Total(turns + FillAll(turns, changed, missing, share), kind) == Total(turns + changed, kind) + |missing| * Of(share, kind)
  {
    if missing != [] {
      var rest, m := missing[..|missing| - 1], missing[|missing| - 1];
      FillAdds(turns, changed, rest, share, kind);
      var before := FillAll(turns, changed, rest, share);
      var record := FilledRecord(RecordOf(turns, before, m.turnId, m.number), share);
      OneMoreAdded(turns, before, m, record, share, kind, Total(turns + changed, kind) + |rest| * Of(share, kind));
      OneTimeMore(|rest|, Of(share, kind));
    }
  }

  /** Putting a record with the tokens its turn had leaves the total as it was. */
  lemma OneMoreMarked(turns: Turns, before: Turns, m: Completion, record: TurnRecord, kind: Kind, total: nat)
    requires record.tokens == RecordOf(turns, before, m.turnId, m.number).tokens
    requires Total(turns + before, kind) == total
    ensures Total(turns + before[m.turnId := record], kind) == total
  {
    TotalAfterSame(turns + before, m.turnId, record, kind, total);
    assert turns + before[m.turnId := record] == (turns + before)[m.turnId := record];
  }

  lemma TotalAfterSame(turns: Turns, id: string, record: TurnRecord, kind: Kind, total: nat)
    requires record.tokens == TokensIn(turns, id) && Total(turns, kind) == total
    ensures Total(turns[id := record], kind) == total
  {
    TotalAfterPut(turns, id, record, kind);
  }

  lemma {:induction false} MarkAdds(turns: Turns, changed: Turns, missing: seq<Completion>, kind: Kind)
    ensures Total(turns + MarkAll(turns, changed, missing), kind) == Total(turns + changed, kind)
  {
    if missing != [] {
      var rest, m := missing[..|missing| - 1], missing[|missing| - 1];
      MarkAdds(turns, changed, rest, kind);
      var before := MarkAll(turns, changed, rest);
      OneMoreMarked(turns, before, m, RecordOf(turns, before, m.turnId, m.number).(partial := true), kind, Total(turns + changed, kind));
    }
  }

  lemma AddNothing(tokens: Tokens)
    ensures AddTokens(tokens, ZERO_TOKENS) == tokens
  {
  }

  lemma ShareOf(tokens: Tokens, parts: nat, kind: Kind)
    requires parts > 0
    ensures Of(ShareTokens(tokens, parts), kind) == Share(Of(tokens, kind), parts)
  {
  }

  /** What filling a gap adds over what the batch's usage events add. */
  ghost function FillOf(input: IngestInput, fold: Fold, kind: Kind): nat {
    if HasGap(input, fold) && CanFill(input, fold)
    then |Missing(input, fold)| * Share(Of(GapTokens(input, fold), kind), |Missing(input, fold)|)
    else 0
  }

  lemma StartTotal(turns: Turns, cursor: Cursor, kind: Kind)
    ensures Total(turns + StartFold(cursor).changed, kind) == Total(turns, kind) && Of(StartFold(cursor).lastsInBatch, kind) == 0
  {
    assert turns + map[] == turns;
    KindsOf(ZERO_TOKENS, ZERO_TOKENS, kind);
  }

  lemma FoldTotal(input: IngestInput, kind: Kind)
    ensures Total(input.turns + FoldOf(input).changed, kind) == Total(input.turns, kind) + Of(FoldOf(input).lastsInBatch, kind)
  {
    StartTotal(input.turns, SeenCursor(input), kind);
    FoldAdds(input.turns, input.perRequestEvents, input.cursor.lastSeq, StartFold(SeenCursor(input)), input.events, kind);
  }

  lemma GapAdds(input: IngestInput, fold: Fold, kind: Kind)
    requires HasGap(input, fold)
    ensures Total(input.turns + AfterGap(input, fold), kind) == Total(input.turns + fold.changed, kind) + FillOf(input, fold, kind)
  {
    var missing := Missing(input, fold);
    if CanFill(input, fold) {
      ShareOf(GapTokens(input, fold), |missing|, kind);
      FillAdds(input.turns, fold.changed, missing, ShareTokens(GapTokens(input, fold), |missing|), kind);
    } else {
      MarkAdds(input.turns, fold.changed, missing, kind);
    }
  }

  /**
   * On a thread seen before, a batch adds to the ledger the counts of its
   * usage events and what a filled gap adds, and nothing else: no token is
   * lost or counted twice.
   */
  lemma BatchAdds(input: IngestInput, result: IngestResult, kind: Kind)
    requires IsIngest(input, result) && !IsFirstRead(input)
    ensures Total(input.turns + result.turns, kind)
      == Total(input.turns, kind) + Of(FoldOf(input).lastsInBatch, kind) + FillOf(input, FoldOf(input), kind)
  {
    FoldTotal(input, kind);
    if HasGap(input, FoldOf(input)) {
      GapAdds(input, FoldOf(input), kind);
    }
  }

  /** A gap's share adds what bb's total grew by beyond the usage events, up to half a token a turn. */
  lemma FillMatches(input: IngestInput, fold: Fold, kind: Kind)
    requires HasGap(input, fold) && CanFill(input, fold)
    ensures var totalGrew := Minus(Of(fold.latestUsage.value.total, kind), Of(input.cursor.lastTotal.value, kind));
      var lasts, n := Of(fold.lastsInBatch, kind), |Missing(input, fold)|;
      if lasts <= totalGrew then -n <= 2 * (FillOf(input, fold, kind) + lasts - totalGrew) <= n else FillOf(input, fold, kind) == 0
  {
    var total, base := fold.latestUsage.value.total, input.cursor.lastTotal.value;
    var n := |Missing(input, fold)|;
    KindsOf(total, base, kind);
    KindsOf(SubtractTokens(total, base), fold.lastsInBatch, kind);
    ShareRounds(Of(GapTokens(input, fold), kind), n);
    if Of(GapTokens(input, fold), kind) == 0 {
      ShareOfNothing(n);
    }
  }

  lemma ShareOfNothing(parts: nat)
    requires parts > 0
    ensures Share(0, parts) == 0 && parts * Share(0, parts) == 0
  {
  }

  /**
   * When a gap over n turns is filled, the ledger grows as bb's total grew,
   * up to half a token for each of the n turns, in every kind whose usage
   * events did not already add more than that; in such a kind it grows by
   * the usage events alone.
   */
  lemma FilledGapMatchesTotal(input: IngestInput, result: IngestResult, kind: Kind)
    requires IsIngest(input, result)
    requires HasGap(input, FoldOf(input)) && CanFill(input, FoldOf(input))
    ensures var fold := FoldOf(input);
      var grew := Total(input.turns + result.turns, kind) - Total(input.turns, kind);
      var totalGrew := Minus(Of(fold.latestUsage.value.total, kind), Of(input.cursor.lastTotal.value, kind));
      var lasts, n := Of(fold.lastsInBatch, kind), |Missing(input, fold)|;
      if lasts <= totalGrew then -n <= 2 * (grew - totalGrew) <= n else grew == lasts
  {
    BatchAdds(input, result, kind);
    FillMatches(input, FoldOf(input), kind);
  }

  // ---- the opening balance ----

  /** The counts of the usage events of `events`. */
  function SumLasts(events: seq<Event>): Tokens {
    if events == [] then ZERO_TOKENS else AddTokens(SumLasts(events[..|events| - 1]), LastOf(events[|events| - 1]))
  }

  lemma {:induction false} SumLastsConcat(a: seq<Event>, b: seq<Event>)
    ensures SumLasts(a + b) == AddTokens(SumLasts(a), SumLasts(b))
  {
    if b == [] {
      assert a + b == a;
    } else {
      assert (a + b)[..|a + b| - 1] == a + b[..|b| - 1];
      SumLastsConcat(a, b[..|b| - 1]);
      AddAssociates(SumLasts(a), SumLasts(b[..|b| - 1]), LastOf(b[|b| - 1]));
    }
    AddNothing(SumLasts(a));
  }

  lemma AddAssociates(a: Tokens, b: Tokens, c: Tokens)
    ensures AddTokens(AddTokens(a, b), c) == AddTokens(a, AddTokens(b, c))
    ensures AddTokens(a, b) == AddTokens(b, a)
  {
  }

  /** No harness start among the events from `low` to before `high`. */
  ghost predicate NoStarts(events: seq<Event>, low: nat, high: nat)
    requires high <= |events|
  {
    forall i :: low <= i < high ==> !events[i].body.Identity?
  }

  /** No event that counts for a turn from `low` on. */
  ghost predicate NoCounts(events: seq<Event>, low: nat) {
    forall i :: low <= i < |events| ==> !Counts(events[i])
  }

  /** Where the latest harness start leaves off: `from` events, none after them a harness start. */
  ghost predicate SinceStart(events: seq<Event>, from: nat) {
    && from <= |events|
    && (from == 0 || events[from - 1].body.Identity?)
    && NoStarts(events, from, |events|)
  }

  /** The fold's count since the latest harness start is the sum over the events since. */
  lemma {:induction false} CountsSinceStart(turns: Turns, per: bool, lastSeq: nat, cursor: Cursor, events: seq<Event>, from: nat)
    requires forall i :: 0 <= i < |events| ==> events[i].number > lastSeq
    requires SinceStart(events, from)
    ensures FoldEvents(turns, per, lastSeq, StartFold(cursor), events).lastsSinceIdentity == SumLasts(events[from..])
  {
    if events != [] {
      var rest, last := events[..|events| - 1], events[|events| - 1];
      if from == |events| {
        assert last.body.Identity?;
      } else {
        assert events[from..][..|events| - from - 1] == rest[from..];
        assert events[from..][|events| - from - 1] == last;
        CountsSinceStart(turns, per, lastSeq, cursor, rest, from);
        StepSinceStart(turns, per, FoldEvents(turns, per, lastSeq, StartFold(cursor), rest), last);
      }
    }
  }

  lemma StepSinceStart(turns: Turns, per: bool, fold: Fold, event: Event)
    requires !event.body.Identity?
    ensures Step(turns, per, fold, event).lastsSinceIdentity == AddTokens(fold.lastsSinceIdentity, LastOf(event))
  {
    AddNothing(fold.lastsSinceIdentity);
  }

  /** `at` is the latest usage event that carries bb's total. */
  ghost predicate LatestTotal(events: seq<Event>, at: nat) {
    && at < |events|
    && events[at].body.Usage? && events[at].body.total.Some?
    && forall i :: at < i < |events| ==> !(events[i].body.Usage? && events[i].body.total.Some?)
  }

  lemma {:induction false} FoldsLatestTotal(turns: Turns, per: bool, lastSeq: nat, cursor: Cursor, events: seq<Event>, at: nat)
    requires forall i :: 0 <= i < |events| ==> events[i].number > lastSeq
    requires LatestTotal(events, at)
    ensures FoldEvents(turns, per, lastSeq, StartFold(cursor), events).latestUsage
      == Some(Snapshot(events[at].number, FromBbBreakdown(events[at].body.total.value)))
    decreases |events|
  {
    var rest, last := events[..|events| - 1], events[|events| - 1];
    assert FoldEvents(turns, per, lastSeq, StartFold(cursor), events)
      == Step(turns, per, FoldEvents(turns, per, lastSeq, StartFold(cursor), rest), last);
    if at < |events| - 1 {
      assert LatestTotal(rest, at) by {
        assert forall i :: 0 <= i < |rest| ==> rest[i] == events[i];
      }
      FoldsLatestTotal(turns, per, lastSeq, cursor, rest, at);
    }
  }

  lemma CountlessLast(event: Event)
    requires !Counts(event)
    ensures LastOf(event) == ZERO_TOKENS
  {
  }

  lemma {:induction false} NoneCount(events: seq<Event>)
    requires NoCounts(events, 0)
    ensures SumLasts(events) == ZERO_TOKENS
  {
    if events != [] {
      NoneCount(events[..|events| - 1]);
      CountlessLast(events[|events| - 1]);
      AddNothing(ZERO_TOKENS);
    }
  }

  lemma NoCountsAfter(events: seq<Event>, low: nat)
    requires low <= |events| && NoCounts(events, low)
    ensures SumLasts(events[low..]) == ZERO_TOKENS
  {
    NoneCount(events[low..]);
  }

  /** Where the harness run that sent the latest total began: no start lies between `from` and it. */
  ghost predicate RunOfTotal(events: seq<Event>, from: nat, at: nat) {
    && from <= at < |events|
    && (from == 0 || events[from - 1].body.Identity?)
    && NoStarts(events, from, at + 1)
  }

  ghost predicate AtMost(a: Tokens, b: Tokens) {
    forall kind :: Of(a, kind) <= Of(b, kind)
  }

  /** Without a harness start after the latest total, the counts since the latest start are those its run explains. */
  lemma RunGoesOn(events: seq<Event>, from: nat, at: nat)
    requires RunOfTotal(events, from, at) && NoStarts(events, at + 1, |events|) && NoCounts(events, at + 1)
    ensures SinceStart(events, from) && SumLasts(events[from..]) == SumLasts(events[from..at + 1])
  {
    CountsEnd(events, from, at);
  }

  lemma NothingAppended(run: seq<Event>, after: seq<Event>)
    requires SumLasts(after) == ZERO_TOKENS
    ensures SumLasts(run + after) == SumLasts(run)
  {
    SumLastsConcat(run, after);
    AddNothing(SumLasts(run));
  }

  lemma CountsEnd(events: seq<Event>, from: nat, at: nat)
    requires from <= at < |events| && NoCounts(events, at + 1)
    ensures SumLasts(events[from..]) == SumLasts(events[from..at + 1])
  {
    assert events[from..] == events[from..at + 1] + events[at + 1..];
    NoCountsAfter(events, at + 1);
    NothingAppended(events[from..at + 1], events[at + 1..]);
  }

  lemma {:induction false} LatestStart(events: seq<Event>) returns (from: nat)
    ensures SinceStart(events, from)
  {
    if events == [] || events[|events| - 1].body.Identity? {
      from := |events|;
    } else {
      var rest := events[..|events| - 1];
      from := LatestStart(rest);
      assert forall i :: 0 <= i < |rest| ==> rest[i] == events[i];
    }
  }

  /**
   * The opening balance of a first read, exactly. `explained` are the counts
   * of the harness run whose total bb sent last, `since` those after the
   * latest harness start. Opening balance and explained counts make up that
   * total exactly when, kind by kind, they are what the start left of it.
   */
  lemma OpeningBalanceIsExact(input: IngestInput, from: nat, at: nat, latest: nat, start: Option<int>)
    requires forall i :: 0 <= i < |input.events| ==> input.events[i].number > input.cursor.lastSeq
    requires OpensBalance(input, FoldOf(input))
    requires LatestTotal(input.events, at) && RunOfTotal(input.events, from, at) && SinceStart(input.events, latest)
    ensures var explained, since := SumLasts(input.events[from..at + 1]), SumLasts(input.events[latest..]);
      var total := FromBbBreakdown(input.events[at].body.total.value);
      var opening := OpeningRecord(FoldOf(input), start, input.now).tokens;
      AddTokens(opening, explained) == total <==> forall kind :: Of(explained, kind) == Min(Of(since, kind), Of(total, kind))
  {
    var events := input.events;
    var explained, since := SumLasts(events[from..at + 1]), SumLasts(events[latest..]);
    var total := FromBbBreakdown(events[at].body.total.value);
    FoldsLatestTotal(input.turns, input.perRequestEvents, input.cursor.lastSeq, SeenCursor(input), events, at);
    CountsSinceStart(input.turns, input.perRequestEvents, input.cursor.lastSeq, SeenCursor(input), events, latest);
    assert OpeningRecord(FoldOf(input), start, input.now).tokens == SubtractTokens(total, since);
    RestAndPart(total, since, explained);
  }

  /** What is left of `total` after `since`, with `part` put to it, is `total` again exactly when `part` is what was taken. */
  lemma RestAndPart(total: Tokens, since: Tokens, part: Tokens)
    ensures AddTokens(SubtractTokens(total, since), part) == total <==> forall kind :: Of(part, kind) == Min(Of(since, kind), Of(total, kind))
  {
    var sum := AddTokens(SubtractTokens(total, since), part);
    forall kind ensures Of(sum, kind) == Of(total, kind) <==> Of(part, kind) == Min(Of(since, kind), Of(total, kind)) {
      KindsOf(SubtractTokens(total, since), part, kind);
      KindsOf(total, since, kind);
    }
    if forall kind :: Of(sum, kind) == Of(total, kind) { SameKinds(sum, total); }
  }

  /**
   * Where no counts follow the total, that is when no harness start follows
   * it; when one does, the explained counts come twice, so it holds only if
   * they are zero.
   */
  lemma OpeningBalanceAfterTheLastCount(input: IngestInput, from: nat, at: nat, start: Option<int>)
    requires forall i :: 0 <= i < |input.events| ==> input.events[i].number > input.cursor.lastSeq
    requires OpensBalance(input, FoldOf(input))
    requires LatestTotal(input.events, at) && RunOfTotal(input.events, from, at) && NoCounts(input.events, at + 1)
    requires AtMost(SumLasts(input.events[from..at + 1]), FromBbBreakdown(input.events[at].body.total.value))
    ensures var explained := SumLasts(input.events[from..at + 1]);
      var total := FromBbBreakdown(input.events[at].body.total.value);
      var opening := OpeningRecord(FoldOf(input), start, input.now).tokens;
      AddTokens(opening, explained) == total <==> NoStarts(input.events, at + 1, |input.events|) || explained == ZERO_TOKENS
  {
    var explained, total := SumLasts(input.events[from..at + 1]), FromBbBreakdown(input.events[at].body.total.value);
    var latest := LatestStart(input.events);
    OpeningBalanceIsExact(input, from, at, latest, start);
    SinceLatestStart(input, from, at, latest);
    forall kind
      ensures Of(explained, kind) <= Of(total, kind) && Of(ZERO_TOKENS, kind) == 0
      ensures explained == ZERO_TOKENS ==> Of(explained, kind) == 0
    {
      KindsOf(total, explained, kind);
    }
    if forall kind :: Of(explained, kind) == 0 { SameKinds(explained, ZERO_TOKENS); }
  }

  lemma SinceLatestStart(input: IngestInput, from: nat, at: nat, latest: nat)
    requires SinceStart(input.events, latest)
    requires RunOfTotal(input.events, from, at) && NoCounts(input.events, at + 1)
    ensures SumLasts(input.events[latest..])
      == if NoStarts(input.events, at + 1, |input.events|) then SumLasts(input.events[from..at + 1]) else ZERO_TOKENS
  {
    var events := input.events;
    if NoStarts(events, at + 1, |events|) {
      RunGoesOn(events, from, at);
      assert latest == from;
    } else {
      assert latest > at + 1;
      NoCountsAfter(events, latest);
    }
  }

  /**
   * A turn bb pruned, then one whose counts brought bb's total to what it is,
   * then a harness start: the counts come twice, in their turn and again in
   * an opening balance of the whole total.
   */
  lemma AStartCountsTheRunTwice(input: IngestInput, a: Event, b: Event, c: Event, start: Option<int>)
    requires input.cursor == EMPTY_CURSOR && input.turns == map[] && input.events == [a, b, c] && !input.perRequestEvents
    requires 0 < a.number && 0 < b.number && 0 < c.number
    requires a.body.Completed? && a.turnId.Some? && Counts(b) && b.body.total.Some? && b.turnId != a.turnId && c.body.Identity?
    ensures OpensBalance(input, FoldOf(input)) && LatestTotal(input.events, 1) && RunOfTotal(input.events, 0, 1)
    ensures forall kind :: Of(SumLasts(input.events[0..2]), kind) == Of(LastOf(b), kind)
    ensures OpeningRecord(FoldOf(input), start, input.now).tokens == FromBbBreakdown(b.body.total.value)
  {
    var fold := StartFold(SeenCursor(input));
    assert input.events[0..2] == [a, b];
    ThreeEvents(a, b, c, fold);
    PrunedThenStarted(a, b, c, fold);
    OneRun(a, b, c);
    CountlessLast(a);
    forall kind ensures Of(SumLasts(input.events[0..2]), kind) == Of(LastOf(b), kind) {
      OneCount(LastOf(a), LastOf(b), kind);
    }
    PrunedTurn(input, FoldOf(input));
    SubtractNothing(FromBbBreakdown(b.body.total.value));
  }

  /** Five tokens in their turn and nine in the opening balance, where bb counted nine in all. */
  lemma FiveCountedTwice(input: IngestInput, counts: Breakdown, total: Breakdown, start: Option<int>)
    requires counts == Breakdown(5, 5, 0, None, None, 0, 0) && total == Breakdown(9, 9, 0, None, None, 0, 0)
    requires input == IngestInput(EMPTY_CURSOR, map[], [
      Event(1, 0, Some("pruned"), Completed(Done)), Event(2, 0, Some("t"), Usage(Some(counts), Some(total))), Event(3, 0, None, Identity(None))], 3, 0, false)
    ensures OpensBalance(input, FoldOf(input))
    ensures Of(SumLasts(input.events[0..2]), Input) == 5
    ensures Of(OpeningRecord(FoldOf(input), start, input.now).tokens, Input) == 9 == Of(FromBbBreakdown(total), Input)
  {
    AStartCountsTheRunTwice(input, input.events[0], input.events[1], input.events[2], start);
  }

  lemma SubtractNothing(tokens: Tokens)
    ensures SubtractTokens(tokens, ZERO_TOKENS) == tokens
  {
  }

  lemma PrunedThenStarted(a: Event, b: Event, c: Event, fold: Fold)
    requires a.body.Completed? && a.turnId.Some? && c.body.Identity?
    requires Counts(b) && b.body.total.Some? && b.turnId != a.turnId
    requires fold.completed == [] && fold.usageTurns == {}
    ensures var after := Step(map[], false, Step(map[], false, Step(map[], false, fold, a), b), c);
      && |after.completed| == 1 && after.completed[0].turnId == a.turnId.value && after.usageTurns == {b.turnId.value}
      && after.latestUsage == Some(Snapshot(b.number, FromBbBreakdown(b.body.total.value))) && after.lastsSinceIdentity == ZERO_TOKENS
  {
    var first := Step(map[], false, fold, a);
    assert |first.completed| == 1 && first.completed[0].turnId == a.turnId.value && first.usageTurns == {};
    var second := Step(map[], false, first, b);
    assert second.completed == first.completed && second.usageTurns == {b.turnId.value};
  }

  lemma PrunedTurn(input: IngestInput, fold: Fold)
    requires input.turns == map[] && |fold.completed| == 1 && fold.completed[0].turnId !in fold.usageTurns
    ensures !HistoryComplete(input, fold)
  {
    assert !HasUsage(input, fold, fold.completed[0]);
  }

  lemma OneRun(a: Event, b: Event, c: Event)
    requires a.body.Completed? && b.body.Usage? && b.body.total.Some? && c.body.Identity?
    ensures LatestTotal([a, b, c], 1) && RunOfTotal([a, b, c], 0, 1)
  {
  }

  lemma OneCount(first: Tokens, second: Tokens, kind: Kind)
    requires first == ZERO_TOKENS
    ensures Of(AddTokens(AddTokens(ZERO_TOKENS, first), second), kind) == Of(second, kind)
  {
    KindsOf(ZERO_TOKENS, first, kind);
    KindsOf(AddTokens(ZERO_TOKENS, first), second, kind);
  }

  lemma ThreeEvents(a: Event, b: Event, c: Event, fold: Fold)
    requires a.number > 0 && b.number > 0 && c.number > 0
    ensures FoldEvents(map[], false, 0, fold, [a, b, c]) == Step(map[], false, Step(map[], false, Step(map[], false, fold, a), b), c)
    ensures SumLasts([a, b]) == AddTokens(AddTokens(ZERO_TOKENS, LastOf(a)), LastOf(b))
  {
    assert [a, b, c][..2] == [a, b] && [a, b][..1] == [a] && [a][..0] == [];
    assert FoldEvents(map[], false, 0, fold, [a]) == Step(map[], false, fold, a);
    assert FoldEvents(map[], false, 0, fold, [a, b]) == Step(map[], false, Step(map[], false, fold, a), b);
    assert SumLasts([a]) == AddTokens(ZERO_TOKENS, LastOf(a));
  }
}
