/**
 * The ledger of turn records built from bb's thread events. One batch of
 * events is folded into the cursor and the records; pruned usage is filled
 * from bb's running total, and a first read makes an opening balance.
 */
module Ledger {
  import opened Common
  import opened Tokens

  const PRUNE_MIN_SEQ := 250
  const PRUNE_MIN_MS := 30000
  const DAY_MS := 86400000
  const OPENING_TURN_ID := "opening"

  datatype RateLimitKind = SubscriptionWindow | SpendControl | Credits | UnknownKind

  datatype RoutingFact = RoutingFact(name: string, source: string, value: Option<string>)

  /** What an event says, as far as the ledger reads it. */
  datatype Body =
    | Requested(requestId: Option<string>, model: Option<string>, prompt: Option<string>)
    | InputAccepted(requestId: Option<string>)
    | Started
    | Completed(status: TurnStatus)
    | ModelFallback(model: Option<string>)
    | Usage(last: Option<Breakdown>, total: Option<Breakdown>)
    | FileChanged(added: nat, removed: nat)
    | Identity(sessionId: Option<string>)
    | RateLimits(kind: Option<RateLimitKind>)
    | EnvResolved(routing: seq<RoutingFact>)

  /** `number` is the event's sequence number; `turnId` is absent on a thread-scoped event. */
  datatype Event = Event(number: nat, createdAt: int, turnId: Option<string>, body: Body)

  datatype TurnStatus = Running | Done | Failed | Interrupted

  datatype RecordKind = Turn | Opening

  datatype TurnRecord = TurnRecord(
    turnId: string,
    kind: RecordKind,
    startedAt: Option<int>,
    completedAt: Option<int>,
    status: TurnStatus,
    model: Option<string>,
    prompt: Option<string>,
    tokens: Tokens,
    requests: Option<seq<RequestTokens>>,
    usageEvents: nat,
    linesAdded: nat,
    linesRemoved: nat,
    fileChanges: nat,
    partial: bool,
    filled: bool,
    firstSeq: nat)

  datatype PendingRequest = PendingRequest(model: Option<string>, prompt: Option<string>, at: int)

  datatype Cursor = Cursor(
    lastSeq: nat,
    lastTotal: Option<Tokens>,
    firstSeenAt: Option<int>,
    pending: map<string, PendingRequest>,
    sessionIds: seq<string>,
    routing: seq<RoutingFact>,
    rateLimitKind: Option<RateLimitKind>,
    lastModel: Option<string>)

  const EMPTY_CURSOR := Cursor(0, None, None, map[], [], [], None, None)

  type Turns = map<string, TurnRecord>

  datatype Gap = Gap(turnIds: seq<string>, fromMs: int, toMs: int, filled: bool)

  datatype IngestInput = IngestInput(cursor: Cursor, turns: Turns, events: seq<Event>, latestSeq: nat, now: int, perRequestEvents: bool)

  datatype IngestResult = IngestResult(cursor: Cursor, turns: Turns, gaps: seq<Gap>, balanceOpened: bool)

  function NewTurn(turnId: string, number: nat): TurnRecord {
    TurnRecord(turnId, Turn, None, None, Running, None, None, ZERO_TOKENS, None, 0, 0, 0, 0, false, false, number)
  }

  // ---- what one event does to its turn's record ----

  /** A usage event's counts; they are kept as a request where every one so far was. */
  function WithUsage(record: TurnRecord, last: Tokens, perRequestEvents: bool): TurnRecord {
    var requests :=
      if perRequestEvents && record.usageEvents == 0 && IsZeroTokens(record.tokens) then Some([]) else record.requests;
    record.(
      requests := if requests.Some? then Some(requests.value + [Requests(last)]) else None,
      tokens := AddTokens(record.tokens, last),
      usageEvents := record.usageEvents + 1)
  }

  function WithRequest(record: TurnRecord, request: Option<PendingRequest>): TurnRecord {
    if request.None? then record
    else
      record.(model := if record.model.None? then request.value.model else record.model,
              prompt := if record.prompt.None? then request.value.prompt else record.prompt)
  }

  function WithStart(record: TurnRecord, at: int, lastModel: Option<string>): TurnRecord {
    record.(startedAt := Some(at), model := if record.model.None? then lastModel else record.model)
  }

  function WithCompletion(record: TurnRecord, at: int, status: TurnStatus): TurnRecord {
    record.(completedAt := Some(at),
            status := if status.Failed? || status.Interrupted? then status else Done,
            startedAt := if record.startedAt.None? then Some(at) else record.startedAt)
  }

  /** What an event changes in its turn's record; None when it touches none. */
  function TouchedRecord(body: Body, at: int, cursor: Cursor, record: TurnRecord, perRequestEvents: bool): Option<TurnRecord> {
    match body
    case InputAccepted(requestId) =>
      Some(WithRequest(record, if requestId.None? then None else Get(cursor.pending, requestId.value)))
    case Started => Some(WithStart(record, at, cursor.lastModel))
    case Completed(status) => Some(WithCompletion(record, at, status))
    case ModelFallback(model) => if model.None? then None else Some(record.(model := model))
    case Usage(last, total) => if last.None? then None else Some(WithUsage(record, FromBbBreakdown(last.value), perRequestEvents))
    case FileChanged(added, removed) =>
      Some(record.(fileChanges := record.fileChanges + 1,
                   linesAdded := record.linesAdded + added, linesRemoved := record.linesRemoved + removed))
    case Requested(_, _, _) => None
    case Identity(_) => None
    case RateLimits(_) => None
    case EnvResolved(_) => None
  }

  /** What an event changes in the cursor; `inTurn` says whether it is scoped to a turn. */
  function NextCursor(cursor: Cursor, event: Event): Cursor {
    match event.body
    case Requested(requestId, model, prompt) =>
      if requestId.None? then cursor
      else
        cursor.(pending := cursor.pending[requestId.value := PendingRequest(model, prompt, event.createdAt)],
                lastModel := if model.Some? then model else cursor.lastModel)
    case InputAccepted(requestId) =>
      if event.turnId.None? || requestId.None? then cursor else cursor.(pending := cursor.pending - {requestId.value})
    case Identity(sessionId) =>
      if sessionId.None? || sessionId.value in cursor.sessionIds then cursor
      else cursor.(sessionIds := cursor.sessionIds + [sessionId.value])
    case RateLimits(kind) =>
      if kind.None? || (kind.value.UnknownKind? && cursor.rateLimitKind.Some?) then cursor else cursor.(rateLimitKind := kind)
    case EnvResolved(routing) => cursor.(routing := routing)
    case Started => cursor
    case Completed(_) => cursor
    case ModelFallback(_) => cursor
    case Usage(_, _) => cursor
    case FileChanged(_, _) => cursor
  }

  // ---- the fold over a batch ----

  datatype Completion = Completion(turnId: string, at: int, number: nat)

  datatype Snapshot = Snapshot(number: nat, total: Tokens)

  /** The fold's running state: the cursor, the records it changed, and what the batch held. */
  datatype Fold = Fold(
    cursor: Cursor,
    changed: Turns,
    usageTurns: set<string>,
    completed: seq<Completion>,
    identitySeqs: seq<nat>,
    latestUsage: Option<Snapshot>,
    lastsInBatch: Tokens,
    lastsSinceIdentity: Tokens)

  function StartFold(cursor: Cursor): Fold {
    Fold(cursor, map[], {}, [], [], None, ZERO_TOKENS, ZERO_TOKENS)
  }

  /** The record of a turn as the fold has it: changed in this batch, stored, or new. */
  function RecordOf(turns: Turns, changed: Turns, turnId: string, number: nat): TurnRecord {
    if turnId in changed then changed[turnId] else if turnId in turns then turns[turnId] else NewTurn(turnId, number)
  }

  /** A usage event that counts for a turn. */
  predicate Counts(event: Event) { event.body.Usage? && event.body.last.Some? && event.turnId.Some? }

  /** The counts a usage event adds to a turn, zero for any other event. */
  function LastOf(event: Event): Tokens {
    if Counts(event) then FromBbBreakdown(event.body.last.value) else ZERO_TOKENS
  }

  function Touch(turns: Turns, changed: Turns, event: Event, cursor: Cursor, perRequestEvents: bool): Turns {
    if event.turnId.None? then changed
    else
      var record := TouchedRecord(event.body, event.createdAt, cursor, RecordOf(turns, changed, event.turnId.value, event.number), perRequestEvents);
      if record.None? then changed else changed[event.turnId.value := record.value]
  }

  function Step(turns: Turns, perRequestEvents: bool, fold: Fold, event: Event): Fold {
    var counts := Counts(event);
    Fold(
      NextCursor(fold.cursor, event),
      Touch(turns, fold.changed, event, fold.cursor, perRequestEvents),
      if counts then fold.usageTurns + {event.turnId.value} else fold.usageTurns,
      if event.body.Completed? && event.turnId.Some?
        then fold.completed + [Completion(event.turnId.value, event.createdAt, event.number)] else fold.completed,
      if event.body.Identity? then fold.identitySeqs + [event.number] else fold.identitySeqs,
      if event.body.Usage? && event.body.total.Some? then Some(Snapshot(event.number, FromBbBreakdown(event.body.total.value)))
        else fold.latestUsage,
      if counts then AddTokens(fold.lastsInBatch, LastOf(event)) else fold.lastsInBatch,
      if event.body.Identity? then ZERO_TOKENS
        else if counts then AddTokens(fold.lastsSinceIdentity, LastOf(event)) else fold.lastsSinceIdentity)
  }

  /** Events at or below the cursor were read before and are passed over. */
  function FoldEvents(turns: Turns, perRequestEvents: bool, lastSeq: nat, fold: Fold, events: seq<Event>): Fold {
    if events == [] then fold
    else
      var before := FoldEvents(turns, perRequestEvents, lastSeq, fold, events[..|events| - 1]);
      var event := events[|events| - 1];
      if event.number <= lastSeq then before else Step(turns, perRequestEvents, before, event)
  }

  // ---- the end of a batch: gaps and the opening balance ----

  function StoredUsage(turns: Turns, turnId: string): nat { if turnId in turns then turns[turnId].usageEvents else 0 }

  predicate HasUsage(input: IngestInput, fold: Fold, completion: Completion) {
    completion.turnId in fold.usageTurns || StoredUsage(input.turns, completion.turnId) > 0
  }

  predicate HistoryComplete(input: IngestInput, fold: Fold) {
    forall i :: 0 <= i < |fold.completed| ==> HasUsage(input, fold, fold.completed[i])
  }

  /** A completed turn without usage, in a batch long and old enough for bb to have pruned it. */
  predicate IsMissing(input: IngestInput, fold: Fold, completion: Completion) {
    && !HasUsage(input, fold, completion)
    && input.latestSeq - input.cursor.lastSeq >= PRUNE_MIN_SEQ
    && input.now - completion.at >= PRUNE_MIN_MS
  }

  function MissingOf(input: IngestInput, fold: Fold, completed: seq<Completion>): (missing: seq<Completion>)
    ensures forall m :: m in missing ==> m in completed && IsMissing(input, fold, m)
  {
    if completed == [] then []
    else
      var last := completed[|completed| - 1];
      MissingOf(input, fold, completed[..|completed| - 1]) + if IsMissing(input, fold, last) then [last] else []
  }

  function Missing(input: IngestInput, fold: Fold): seq<Completion> { MissingOf(input, fold, fold.completed) }

  predicate TotalsDecreased(before: Tokens, after: Tokens) {
    after.output < before.output || after.input < before.input || after.cacheRead < before.cacheRead || after.cacheWrite < before.cacheWrite
  }

  /** A harness start up to the surviving snapshot reset bb's total. */
  predicate Restarted(fold: Fold) {
    exists i :: 0 <= i < |fold.identitySeqs| && (fold.latestUsage.None? || fold.identitySeqs[i] <= fold.latestUsage.value.number)
  }

  predicate CanFill(input: IngestInput, fold: Fold) {
    && !Restarted(fold)
    && fold.latestUsage.Some?
    && input.cursor.lastTotal.Some?
    && !TotalsDecreased(input.cursor.lastTotal.value, fold.latestUsage.value.total)
  }

  /** What bb's total grew by and no usage event of the batch explains. */
  function GapTokens(input: IngestInput, fold: Fold): Tokens
    requires CanFill(input, fold)
  {
    SubtractTokens(SubtractTokens(fold.latestUsage.value.total, input.cursor.lastTotal.value), fold.lastsInBatch)
  }

  function FilledRecord(record: TurnRecord, share: Tokens): TurnRecord {
    record.(tokens := AddTokens(record.tokens, share), filled := true)
  }

  function FillAll(turns: Turns, changed: Turns, missing: seq<Completion>, share: Tokens): Turns {
    if missing == [] then changed
    else
      var before := FillAll(turns, changed, missing[..|missing| - 1], share);
      var m := missing[|missing| - 1];
      before[m.turnId := FilledRecord(RecordOf(turns, before, m.turnId, m.number), share)]
  }

  function MarkAll(turns: Turns, changed: Turns, missing: seq<Completion>): Turns {
    if missing == [] then changed
    else
      var before := MarkAll(turns, changed, missing[..|missing| - 1]);
      var m := missing[|missing| - 1];
      before[m.turnId := RecordOf(turns, before, m.turnId, m.number).(partial := true)]
  }

  function GapStart(changed: Turns, m: Completion): int {
    if m.turnId in changed then changed[m.turnId].startedAt.GetOr(m.at) else m.at
  }

  function FromMs(changed: Turns, missing: seq<Completion>): int
    requires missing != []
  {
    var last := GapStart(changed, missing[|missing| - 1]);
    if |missing| == 1 then last else Min(FromMs(changed, missing[..|missing| - 1]), last)
  }

  function ToMs(missing: seq<Completion>): int
    requires missing != []
  {
    var last := missing[|missing| - 1].at;
    if |missing| == 1 then last else Max(ToMs(missing[..|missing| - 1]), last)
  }

  function TurnIdsOf(missing: seq<Completion>): seq<string> { seq(|missing|, i requires 0 <= i < |missing| => missing[i].turnId) }

  /** The earliest start among the records. */
  ghost predicate IsFirstStart(changed: Turns, start: Option<int>) {
    match start
    case None => forall id :: id in changed ==> changed[id].startedAt.None?
    case Some(at) =>
      && (exists id :: id in changed && changed[id].startedAt == start)
      && forall id :: id in changed && changed[id].startedAt.Some? ==> at <= changed[id].startedAt.value
  }

  function OpeningRecord(fold: Fold, start: Option<int>, now: int): TurnRecord
    requires fold.latestUsage.Some?
  {
    NewTurn(OPENING_TURN_ID, 0).(
      kind := Opening, status := Done, partial := true, model := fold.cursor.lastModel, startedAt := start, completedAt := Some(now),
      tokens := SubtractTokens(fold.latestUsage.value.total, fold.lastsSinceIdentity))
  }

  function HighestNumber(events: seq<Event>, least: nat): nat {
    if events == [] then least
    else
      var before := HighestNumber(events[..|events| - 1], least);
      if before < events[|events| - 1].number then events[|events| - 1].number else before
  }

  /** Requests older than a day never matched a turn. */
  function DropOld(pending: map<string, PendingRequest>, now: int): map<string, PendingRequest> {
    map id | id in pending && now - pending[id].at <= DAY_MS :: pending[id]
  }

  function ClosedCursor(input: IngestInput, fold: Fold): Cursor {
    fold.cursor.(
      lastTotal := if fold.latestUsage.Some? then Some(fold.latestUsage.value.total) else fold.cursor.lastTotal,
      lastSeq := HighestNumber(input.events, if input.cursor.lastSeq < input.latestSeq then input.latestSeq else input.cursor.lastSeq),
      pending := DropOld(fold.cursor.pending, input.now))
  }

  function IsFirstRead(input: IngestInput): bool { input.cursor.firstSeenAt.None? }

  function SeenCursor(input: IngestInput): Cursor {
    if IsFirstRead(input) then input.cursor.(firstSeenAt := Some(input.now)) else input.cursor
  }

  function FoldOf(input: IngestInput): Fold {
    FoldEvents(input.turns, input.perRequestEvents, input.cursor.lastSeq, StartFold(SeenCursor(input)), input.events)
  }

  predicate OpensBalance(input: IngestInput, fold: Fold) {
    IsFirstRead(input) && !HistoryComplete(input, fold) && fold.latestUsage.Some?
  }

  predicate HasGap(input: IngestInput, fold: Fold) { !IsFirstRead(input) && Missing(input, fold) != [] }

  /** The records after a gap is filled from bb's total or marked partial. */
  function AfterGap(input: IngestInput, fold: Fold): Turns
    requires HasGap(input, fold)
  {
    var missing := Missing(input, fold);
    if CanFill(input, fold)
    then FillAll(input.turns, fold.changed, missing, ShareTokens(GapTokens(input, fold), |missing|))
    else MarkAll(input.turns, fold.changed, missing)
  }

  /** What a batch comes to. Only the opening record's start time is left to be the earliest one. */
  ghost predicate IsIngest(input: IngestInput, result: IngestResult) {
    var fold := FoldOf(input);
    && result.cursor == ClosedCursor(input, fold)
    && result.balanceOpened == OpensBalance(input, fold)
    && (if OpensBalance(input, fold) then
          exists start :: IsFirstStart(fold.changed, start)
            && result.turns == fold.changed[OPENING_TURN_ID := OpeningRecord(fold, start, input.now)] && result.gaps == []
        else if HasGap(input, fold) then
          var missing := Missing(input, fold);
          && result.turns == AfterGap(input, fold)
          && result.gaps == [Gap(TurnIdsOf(missing), FromMs(fold.changed, missing), ToMs(missing), CanFill(input, fold))]
        else
          result.turns == fold.changed && result.gaps == [])
  }

  // ---- the batch, step by step ----

  method FirstStart(changed: Turns) returns (start: Option<int>)
    ensures IsFirstStart(changed, start)
  {
    start := None;
    var rest := changed.Keys;
    while rest != {}
      invariant rest <= changed.Keys
      invariant start.None? ==> forall id :: id in changed.Keys - rest ==> changed[id].startedAt.None?
      invariant start.Some? ==> exists id :: id in changed && changed[id].startedAt == start
      invariant start.Some? ==> forall id :: id in changed.Keys - rest && changed[id].startedAt.Some? ==> start.value <= changed[id].startedAt.value
    {
      var id :| id in rest;
      rest := rest - {id};
      var at := changed[id].startedAt;
      if at.Some? && (start.None? || at.value < start.value) {
        start := at;
      }
    }
  }

  lemma FoldOneMore(input: IngestInput, i: nat)
    requires i < |input.events|
    ensures var start := StartFold(SeenCursor(input));
      var fold := FoldEvents(input.turns, input.perRequestEvents, input.cursor.lastSeq, start, input.events[..i]);
      FoldEvents(input.turns, input.perRequestEvents, input.cursor.lastSeq, start, input.events[..i + 1])
        == if input.events[i].number <= input.cursor.lastSeq then fold else Step(input.turns, input.perRequestEvents, fold, input.events[i])
  {
    assert input.events[..i + 1][..i] == input.events[..i];
  }

  method FoldBatch(input: IngestInput) returns (fold: Fold)
    ensures fold == FoldOf(input)
  {
    var cursor := SeenCursor(input);
    var changed: Turns := map[];
    var usageTurns: set<string> := {};
    var completed: seq<Completion> := [];
    var identitySeqs: seq<nat> := [];
    var latestUsage: Option<Snapshot> := None;
    var lastsInBatch, lastsSinceIdentity := ZERO_TOKENS, ZERO_TOKENS;
    for i := 0 to |input.events|
      invariant FoldEvents(input.turns, input.perRequestEvents, input.cursor.lastSeq, StartFold(SeenCursor(input)), input.events[..i])
        == Fold(cursor, changed, usageTurns, completed, identitySeqs, latestUsage, lastsInBatch, lastsSinceIdentity)
    {
      var event := input.events[i];
      FoldOneMore(input, i);
      if event.number > input.cursor.lastSeq {
        changed := Touch(input.turns, changed, event, cursor, input.perRequestEvents);
        cursor := NextCursor(cursor, event);
        match event.body {
          case Usage(last, total) =>
            if total.Some? {
              latestUsage := Some(Snapshot(event.number, FromBbBreakdown(total.value)));
            }
            if last.Some? && event.turnId.Some? {
              var tokens := FromBbBreakdown(last.value);
              usageTurns := usageTurns + {event.turnId.value};
              lastsInBatch := AddTokens(lastsInBatch, tokens);
              lastsSinceIdentity := AddTokens(lastsSinceIdentity, tokens);
            }
          case Completed(_) =>
            if event.turnId.Some? {
              completed := completed + [Completion(event.turnId.value, event.createdAt, event.number)];
            }
          case Identity(_) =>
            identitySeqs := identitySeqs + [event.number];
            lastsSinceIdentity := ZERO_TOKENS;
          case _ =>
        }
      }
    }
    assert input.events[..|input.events|] == input.events;
    fold := Fold(cursor, changed, usageTurns, completed, identitySeqs, latestUsage, lastsInBatch, lastsSinceIdentity);
  }

  method FillGap(turns: Turns, changed: Turns, missing: seq<Completion>, share: Tokens) returns (filled: Turns)
    ensures filled == FillAll(turns, changed, missing, share)
  {
    filled := changed;
    for i := 0 to |missing|
      invariant filled == FillAll(turns, changed, missing[..i], share)
    {
      assert missing[..i + 1][..i] == missing[..i];
      var m := missing[i];
      filled := filled[m.turnId := FilledRecord(RecordOf(turns, filled, m.turnId, m.number), share)];
    }
    assert missing[..|missing|] == missing;
  }

  method MarkGap(turns: Turns, changed: Turns, missing: seq<Completion>) returns (marked: Turns)
    ensures marked == MarkAll(turns, changed, missing)
  {
    marked := changed;
    for i := 0 to |missing|
      invariant marked == MarkAll(turns, changed, missing[..i])
    {
      assert missing[..i + 1][..i] == missing[..i];
      var m := missing[i];
      marked := marked[m.turnId := RecordOf(turns, marked, m.turnId, m.number).(partial := true)];
    }
    assert missing[..|missing|] == missing;
  }

  /** Applies a batch of events to the ledger. */
  method IngestEvents(input: IngestInput) returns (result: IngestResult)
    ensures IsIngest(input, result)
  {
    var fold := FoldBatch(input);
    var changed, gaps, balanceOpened := fold.changed, [], false;
    if IsFirstRead(input) && !HistoryComplete(input, fold) {
      if fold.latestUsage.Some? {
        var start := FirstStart(changed);
        changed := changed[OPENING_TURN_ID := OpeningRecord(fold, start, input.now)];
        balanceOpened := true;
      }
    } else if !IsFirstRead(input) {
      var missing := Missing(input, fold);
      if missing != [] {
        var fromMs, toMs, canFill := FromMs(changed, missing), ToMs(missing), CanFill(input, fold);
        if canFill {
          changed := FillGap(input.turns, changed, missing, ShareTokens(GapTokens(input, fold), |missing|));
        } else {
          changed := MarkGap(input.turns, changed, missing);
        }
        gaps := [Gap(TurnIdsOf(missing), fromMs, toMs, canFill)];
      }
    }
    result := IngestResult(ClosedCursor(input, fold), changed, gaps, balanceOpened);
  }
}
