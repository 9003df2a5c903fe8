/** Each turn's requests add up to its tokens, in every ledger any run of batches reaches. */
module LedgerRequests {
  import opened Common
  import opened Tokens
  import opened Ledger

  function SumRequests(requests: seq<RequestTokens>): RequestTokens {
    if requests == [] then NO_REQUEST else AddRequests(SumRequests(requests[..|requests| - 1]), requests[|requests| - 1])
  }

  /**
   * A record that keeps its requests has one for each usage event, at least
   * one, and they sum kind by kind to its tokens.
   */
  ghost predicate RecordOk(record: TurnRecord) {
    record.requests.Some? ==>
      |record.requests.value| == record.usageEvents >= 1 && SumRequests(record.requests.value) == Requests(record.tokens)
  }

  ghost predicate TurnsOk(turns: Turns) {
    forall id :: id in turns ==> RecordOk(turns[id])
  }

  lemma UsageKeepsRecord(record: TurnRecord, last: Tokens, per: bool)
    requires RecordOk(record)
    ensures RecordOk(WithUsage(record, last, per))
  {
    var next := WithUsage(record, last, per);
    if next.requests.Some? {
      assert next.requests.value[..|next.requests.value| - 1] + [Requests(last)] == next.requests.value;
      var before := next.requests.value[..|next.requests.value| - 1];
      assert SumRequests(before) == Requests(record.tokens);
    }
  }

  lemma TouchKeepsRecord(body: Body, at: int, cursor: Cursor, record: TurnRecord, per: bool)
    requires RecordOk(record)
    ensures var touched := TouchedRecord(body, at, cursor, record, per);
      touched.Some? ==> RecordOk(touched.value)
  {
    if body.Usage? && body.last.Some? {
      UsageKeepsRecord(record, FromBbBreakdown(body.last.value), per);
    }
  }

  /** Records a batch changes without a usage event of theirs keep the count they had stored. */
  ghost predicate CountsKept(turns: Turns, changed: Turns, usageTurns: set<string>) {
    forall id :: id in changed && id !in usageTurns ==> changed[id].usageEvents == StoredUsage(turns, id)
  }

  /** Only a usage event of its turn changes a record's count. */
  lemma TouchCounts(body: Body, at: int, cursor: Cursor, record: TurnRecord, per: bool)
    ensures var touched := TouchedRecord(body, at, cursor, record, per);
      touched.Some? && !(body.Usage? && body.last.Some?) ==> touched.value.usageEvents == record.usageEvents
  {
  }

  lemma PutKeepsCounts(turns: Turns, changed: Turns, usageTurns: set<string>, id: string, number: nat, record: TurnRecord)
    requires TurnsOk(changed) && CountsKept(turns, changed, usageTurns) && RecordOk(record)
    requires id in usageTurns || record.usageEvents == RecordOf(turns, changed, id, number).usageEvents
    ensures TurnsOk(changed[id := record]) && CountsKept(turns, changed[id := record], usageTurns)
  {
  }

  lemma TouchKeepsCounts(turns: Turns, per: bool, fold: Fold, event: Event)
    requires TurnsOk(turns) && TurnsOk(fold.changed) && CountsKept(turns, fold.changed, fold.usageTurns)
    ensures var next := Step(turns, per, fold, event);
      TurnsOk(next.changed) && CountsKept(turns, next.changed, next.usageTurns)
  {
    if event.turnId.Some? {
      var id := event.turnId.value;
      var record := RecordOf(turns, fold.changed, id, event.number);
      TouchKeepsRecord(event.body, event.createdAt, fold.cursor, record, per);
      TouchCounts(event.body, event.createdAt, fold.cursor, record, per);
      var touched := TouchedRecord(event.body, event.createdAt, fold.cursor, record, per);
      var counted := if Counts(event) then fold.usageTurns + {id} else fold.usageTurns;
      if touched.Some? { PutKeepsCounts(turns, fold.changed, counted, id, event.number, touched.value); }
    }
  }

  lemma {:induction false} FoldKeepsRecords(turns: Turns, per: bool, lastSeq: nat, start: Fold, events: seq<Event>)
    requires TurnsOk(turns) && TurnsOk(start.changed) && CountsKept(turns, start.changed, start.usageTurns)
    ensures var fold := FoldEvents(turns, per, lastSeq, start, events);
      TurnsOk(fold.changed) && CountsKept(turns, fold.changed, fold.usageTurns)
  {
    if events != [] {
      var rest, event := events[..|events| - 1], events[|events| - 1];
      FoldKeepsRecords(turns, per, lastSeq, start, rest);
      TouchKeepsCounts(turns, per, FoldEvents(turns, per, lastSeq, start, rest), event);
    }
  }

  /** The missing turns have no usage event, so no requests either. */
  ghost predicate WithoutUsage(turns: Turns, changed: Turns, missing: seq<Completion>) {
    forall i :: 0 <= i < |missing| ==> RecordOf(turns, changed, missing[i].turnId, missing[i].number).usageEvents == 0
  }

  ghost predicate SameCounts(turns: Turns, a: Turns, b: Turns) {
    forall id, number :: RecordOf(turns, a, id, number).usageEvents == RecordOf(turns, b, id, number).usageEvents
  }

  lemma {:induction false} FillKeepsRecords(turns: Turns, changed: Turns, missing: seq<Completion>, share: Tokens)
    requires TurnsOk(turns) && TurnsOk(changed) && WithoutUsage(turns, changed, missing)
    ensures TurnsOk(FillAll(turns, changed, missing, share))
    ensures SameCounts(turns, FillAll(turns, changed, missing, share), changed)
  {
    if missing != [] {
      var rest := missing[..|missing| - 1];
      assert WithoutUsage(turns, changed, rest) by {
        assert forall i :: 0 <= i < |rest| ==> rest[i] == missing[i];
      }
      FillKeepsRecords(turns, changed, rest, share);
      var m := missing[|missing| - 1];
      assert RecordOf(turns, changed, m.turnId, m.number).usageEvents == 0;
    }
  }

  lemma {:induction false} MarkKeepsRecords(turns: Turns, changed: Turns, missing: seq<Completion>)
    requires TurnsOk(turns) && TurnsOk(changed)
    ensures TurnsOk(MarkAll(turns, changed, missing))
  {
    if missing != [] {
      var rest, m := missing[..|missing| - 1], missing[|missing| - 1];
      MarkKeepsRecords(turns, changed, rest);
      assert RecordOk(RecordOf(turns, MarkAll(turns, changed, rest), m.turnId, m.number));
    }
  }

  lemma IngestKeepsRequests(input: IngestInput, result: IngestResult)
    requires TurnsOk(input.turns) && IsIngest(input, result)
    ensures TurnsOk(result.turns) && TurnsOk(input.turns + result.turns)
  {
    var fold := FoldOf(input);
    FoldKeepsRecords(input.turns, input.perRequestEvents, input.cursor.lastSeq, StartFold(SeenCursor(input)), input.events);
    if HasGap(input, fold) { GapKeepsRecords(input, fold); }
  }

  lemma GapKeepsRecords(input: IngestInput, fold: Fold)
    requires TurnsOk(input.turns) && TurnsOk(fold.changed) && CountsKept(input.turns, fold.changed, fold.usageTurns)
    requires HasGap(input, fold)
    ensures TurnsOk(AfterGap(input, fold))
  {
    var missing := Missing(input, fold);
    forall i | 0 <= i < |missing|
      ensures RecordOf(input.turns, fold.changed, missing[i].turnId, missing[i].number).usageEvents == 0
    {
      assert missing[i] in missing;
      assert IsMissing(input, fold, missing[i]);
    }
    if CanFill(input, fold) {
      FillKeepsRecords(input.turns, fold.changed, missing, ShareTokens(GapTokens(input, fold), |missing|));
    } else {
      MarkKeepsRecords(input.turns, fold.changed, missing);
    }
  }

  // ---- over every run ----

  datatype State = State(cursor: Cursor, turns: Turns)

  datatype Batch = Batch(events: seq<Event>, latestSeq: nat, now: int, perRequestEvents: bool)

  function InputOf(state: State, batch: Batch): IngestInput {
    IngestInput(state.cursor, state.turns, batch.events, batch.latestSeq, batch.now, batch.perRequestEvents)
  }

  ghost predicate IsStep(before: State, batch: Batch, after: State) {
    exists result :: IsIngest(InputOf(before, batch), result) && after == State(result.cursor, before.turns + result.turns)
  }

  /** A thread's ledger from its first read on: each batch ingested and its records stored. */
  ghost predicate IsRun(states: seq<State>, batches: seq<Batch>) {
    && |states| == |batches| + 1
    && states[0] == State(EMPTY_CURSOR, map[])
    && forall i :: 0 <= i < |batches| ==> IsStep(states[i], batches[i], states[i + 1])
  }

  lemma {:induction false} EveryLedgerAddsUp(states: seq<State>, batches: seq<Batch>, i: nat)
    requires IsRun(states, batches) && i < |states|
    ensures TurnsOk(states[i].turns)
  {
    if i > 0 {
      EveryLedgerAddsUp(states, batches, i - 1);
      assert IsStep(states[i - 1], batches[i - 1], states[i - 1 + 1]);
      var result :| IsIngest(InputOf(states[i - 1], batches[i - 1]), result)
        && states[i] == State(result.cursor, states[i - 1].turns + result.turns);
      IngestKeepsRequests(InputOf(states[i - 1], batches[i - 1]), result);
    }
  }
}
