/** What the cursor, the opening record and a gap's span hold after a batch, by the events themselves. */
module LedgerCursors {
  import opened Common
  import opened Tokens
  import opened Ledger
  import opened LedgerEvents
  import opened LedgerLaws
  import opened LedgerGaps

  // ---- the cursor ----

  predicate NamesModel(e: Event) { e.body.Requested? && e.body.requestId.Some? && e.body.model.Some? }
  predicate Resolves(e: Event) { e.body.EnvResolved? }
  predicate KnowsLimits(e: Event) { e.body.RateLimits? && e.body.kind.Some? && e.body.kind.value != UnknownKind }
  predicate TellsLimits(e: Event) { e.body.RateLimits? && e.body.kind.Some? }

  /** The latest request asked for names the model to come. */
  ghost predicate ModelBy(was: Option<string>, events: seq<Event>, now: Option<string>) {
    if NoneWhere(events, NamesModel) then now == was else exists i :: LastWhere(events, NamesModel, i) && now == events[i].body.model
  }

  ghost predicate RoutingBy(was: seq<RoutingFact>, events: seq<Event>, now: seq<RoutingFact>) {
    if NoneWhere(events, Resolves) then now == was else exists i :: LastWhere(events, Resolves, i) && now == events[i].body.routing
  }

  /** A kind of limit that is known replaces any; an unknown one only none. */
  ghost predicate LimitsBy(was: Option<RateLimitKind>, events: seq<Event>, now: Option<RateLimitKind>) {
    if !NoneWhere(events, KnowsLimits) then exists i :: LastWhere(events, KnowsLimits, i) && now == events[i].body.kind
    else if was.Some? || NoneWhere(events, TellsLimits) then now == was
    else now == Some(UnknownKind)
  }

  /** Every session named is known, each once, those known before first. */
  ghost predicate SessionsBy(was: seq<string>, events: seq<Event>, now: seq<string>) {
    && was <= now && (NoRepeats(was) ==> NoRepeats(now))
    && forall id :: id in now <==> id in was || NamesSession(events, id)
  }

  ghost predicate NamesSession(events: seq<Event>, id: string) { exists i :: 0 <= i < |events| && events[i].body == Identity(Some(id)) }

  lemma ModelOneMore(was: Option<string>, events: seq<Event>, now: Option<string>, e: Event)
    requires ModelBy(was, events, now)
    ensures ModelBy(was, events + [e], if NamesModel(e) then e.body.model else now)
  {
    LastOneMore(events, e, NamesModel);
  }

  lemma RoutingOneMore(was: seq<RoutingFact>, events: seq<Event>, now: seq<RoutingFact>, e: Event)
    requires RoutingBy(was, events, now)
    ensures RoutingBy(was, events + [e], if Resolves(e) then e.body.routing else now)
  {
    LastOneMore(events, e, Resolves);
  }

  lemma LimitsOneMore(was: Option<RateLimitKind>, events: seq<Event>, now: Option<RateLimitKind>, e: Event)
    requires LimitsBy(was, events, now)
    ensures LimitsBy(was, events + [e], if KnowsLimits(e) || (TellsLimits(e) && now.None?) then e.body.kind else now)
  {
    LastOneMore(events, e, KnowsLimits);
    LastOneMore(events, e, TellsLimits);
  }

  lemma SessionsOneMore(was: seq<string>, events: seq<Event>, now: seq<string>, e: Event)
    requires SessionsBy(was, events, now)
    ensures SessionsBy(was, events + [e],
                       if e.body.Identity? && e.body.sessionId.Some? && e.body.sessionId.value !in now then now + [e.body.sessionId.value] else now)
  {
    var more := events + [e];
    assert more[|events|] == e && forall i :: 0 <= i < |events| ==> more[i] == events[i];
    forall id ensures NamesSession(more, id) <==> NamesSession(events, id) || e.body == Identity(Some(id)) {
      if NamesSession(events, id) { var i :| 0 <= i < |events| && events[i].body == Identity(Some(id)); assert more[i].body == Identity(Some(id)); }
    }
  }

  lemma CursorSteps(cursor: Cursor, e: Event)
    ensures var next := NextCursor(cursor, e);
      && next.lastModel == (if NamesModel(e) then e.body.model else cursor.lastModel)
      && next.routing == (if Resolves(e) then e.body.routing else cursor.routing)
      && next.rateLimitKind == (if KnowsLimits(e) || (TellsLimits(e) && cursor.rateLimitKind.None?) then e.body.kind else cursor.rateLimitKind)
      && next.sessionIds == (if e.body.Identity? && e.body.sessionId.Some? && e.body.sessionId.value !in cursor.sessionIds
                             then cursor.sessionIds + [e.body.sessionId.value] else cursor.sessionIds)
  {
  }

  /** What a run of events leaves of a cursor. */
  ghost predicate CursorBy(was: Cursor, events: seq<Event>, now: Cursor) {
    && ModelBy(was.lastModel, events, now.lastModel) && RoutingBy(was.routing, events, now.routing)
    && LimitsBy(was.rateLimitKind, events, now.rateLimitKind) && SessionsBy(was.sessionIds, events, now.sessionIds)
  }

  lemma {:induction false} CursorIsBy(turns: Turns, per: bool, lastSeq: nat, cursor: Cursor, events: seq<Event>)
    requires AllAbove(events, lastSeq)
    ensures CursorBy(cursor, events, FoldEvents(turns, per, lastSeq, StartFold(cursor), events).cursor)
  {
    if events != [] {
      var rest, e := events[..|events| - 1], events[|events| - 1];
      CursorIsBy(turns, per, lastSeq, cursor, rest);
      var now := FoldEvents(turns, per, lastSeq, StartFold(cursor), rest).cursor;
      CursorOneMore(cursor, rest, now, e);
      assert rest + [e] == events;
    }
  }

  lemma CursorOneMore(was: Cursor, events: seq<Event>, now: Cursor, e: Event)
    requires CursorBy(was, events, now)
    ensures CursorBy(was, events + [e], NextCursor(now, e))
  {
    CursorSteps(now, e);
    ModelOneMore(was.lastModel, events, now.lastModel, e);
    RoutingOneMore(was.routing, events, now.routing, e);
    LimitsOneMore(was.rateLimitKind, events, now.rateLimitKind, e);
    SessionsOneMore(was.sessionIds, events, now.sessionIds, e);
  }

  // ---- requests that wait for their turn ----

  /** An event that makes a request wait, or takes it for a turn. */
  predicate IsAbout(rid: string, e: Event) {
    || (e.body.Requested? && e.body.requestId == Some(rid))
    || (e.body.InputAccepted? && e.body.requestId == Some(rid) && e.turnId.Some?)
  }

  ghost function About(rid: string): Event -> bool { (e: Event) => IsAbout(rid, e) }

  /** A request waits exactly when the latest event about it asks for it, or there is none and it waited before. */
  ghost predicate WaitsBy(was: map<string, PendingRequest>, events: seq<Event>, rid: string, now: Option<PendingRequest>) {
    if NoneWhere(events, About(rid)) then now == Get(was, rid)
    else exists i :: LastWhere(events, About(rid), i) && now == LeftBy(events[i])
  }

  /** What an event about a request leaves waiting. */
  function LeftBy(e: Event): Option<PendingRequest> {
    if e.body.Requested? then Some(PendingRequest(e.body.model, e.body.prompt, e.createdAt)) else None
  }

  lemma PendingSteps(cursor: Cursor, e: Event, rid: string)
    ensures Get(NextCursor(cursor, e).pending, rid) == if IsAbout(rid, e) then LeftBy(e) else Get(cursor.pending, rid)
  {
  }

  lemma WaitsOneMore(was: map<string, PendingRequest>, events: seq<Event>, rid: string, now: Option<PendingRequest>, e: Event)
    requires WaitsBy(was, events, rid, now)
    ensures WaitsBy(was, events + [e], rid, if IsAbout(rid, e) then LeftBy(e) else now)
  {
    LastOneMore(events, e, About(rid));
  }

  lemma {:induction false} PendingIsBy(turns: Turns, per: bool, lastSeq: nat, cursor: Cursor, events: seq<Event>, rid: string)
    requires AllAbove(events, lastSeq)
    ensures WaitsBy(cursor.pending, events, rid, Get(FoldEvents(turns, per, lastSeq, StartFold(cursor), events).cursor.pending, rid))
  {
    if events != [] {
      var rest, e := events[..|events| - 1], events[|events| - 1];
      PendingIsBy(turns, per, lastSeq, cursor, rest, rid);
      var now := FoldEvents(turns, per, lastSeq, StartFold(cursor), rest).cursor;
      WaitsOneMore(cursor.pending, rest, rid, Get(now.pending, rid), e);
      PendingSteps(now, e, rid);
      assert rest + [e] == events;
    }
  }

  /** An event that takes a waiting request for a turn gives the turn its model and prompt, where it has none. */
  lemma AcceptedNames(turns: Turns, per: bool, lastSeq: nat, cursor: Cursor, events: seq<Event>, id: string, rid: string, request: PendingRequest)
    requires events != [] && AllAbove(events, lastSeq) && events[|events| - 1].body == InputAccepted(Some(rid)) && events[|events| - 1].turnId == Some(id)
    requires WaitsBy(cursor.pending, events[..|events| - 1], rid, Some(request))
    ensures var before := FoldEvents(turns, per, lastSeq, StartFold(cursor), events[..|events| - 1]).changed;
      var after := FoldEvents(turns, per, lastSeq, StartFold(cursor), events).changed;
      var was := RecordOf(turns, before, id, events[|events| - 1].number);
      && id in after
      && after[id].model == (if was.model.Some? then was.model else request.model)
      && after[id].prompt == (if was.prompt.Some? then was.prompt else request.prompt)
  {
    var rest := events[..|events| - 1];
    PendingIsBy(turns, per, lastSeq, cursor, rest, rid);
    OneWaits(cursor.pending, rest, rid, Get(FoldEvents(turns, per, lastSeq, StartFold(cursor), rest).cursor.pending, rid), Some(request));
  }

  lemma OneWaits(was: map<string, PendingRequest>, events: seq<Event>, rid: string, a: Option<PendingRequest>, b: Option<PendingRequest>)
    requires WaitsBy(was, events, rid, a) && WaitsBy(was, events, rid, b)
    ensures a == b
  {
    if !NoneWhere(events, About(rid)) {
      var i :| LastWhere(events, About(rid), i);
      OneLast(events, About(rid), i);
    }
  }

  /** A turn that starts without a model runs on the one last asked for. */
  lemma StartNames(turns: Turns, per: bool, lastSeq: nat, cursor: Cursor, events: seq<Event>, id: string)
    requires events != [] && AllAbove(events, lastSeq) && events[|events| - 1].body == Started && events[|events| - 1].turnId == Some(id)
    ensures var rest := events[..|events| - 1];
      var before, after := FoldEvents(turns, per, lastSeq, StartFold(cursor), rest), FoldEvents(turns, per, lastSeq, StartFold(cursor), events);
      var was := RecordOf(turns, before.changed, id, events[|events| - 1].number);
      && id in after.changed && ModelBy(cursor.lastModel, rest, before.cursor.lastModel)
      && after.changed[id].model == if was.model.Some? then was.model else before.cursor.lastModel
  {
    CursorIsBy(turns, per, lastSeq, cursor, events[..|events| - 1]);
  }

  // ---- the cursor a batch closes with ----

  lemma {:induction false} HighestIs(events: seq<Event>, least: nat)
    ensures HighestNumber(events, least) >= least
    ensures forall e :: e in events ==> e.number <= HighestNumber(events, least)
    ensures HighestNumber(events, least) == least || exists e :: e in events && e.number == HighestNumber(events, least)
  {
    if events != [] {
      HighestIs(events[..|events| - 1], least);
      assert events == events[..|events| - 1] + [events[|events| - 1]];
    }
  }

  /**
   * The cursor after a batch: read through the highest number known, seen
   * since now if it was not before, with bb's latest total, and what the new
   * events say of models, routing, limits and sessions.
   */
  lemma CursorAfterBatch(input: IngestInput, result: IngestResult)
    requires IsIngest(input, result)
    ensures var was, now, events := input.cursor, result.cursor, News(input);
      && now.lastSeq >= was.lastSeq && now.lastSeq >= input.latestSeq && (forall e :: e in input.events ==> e.number <= now.lastSeq)
      && (now.lastSeq == was.lastSeq || now.lastSeq == input.latestSeq || exists e :: e in input.events && e.number == now.lastSeq)
      && now.firstSeenAt == (if was.firstSeenAt.Some? then was.firstSeenAt else Some(input.now))
      && (if NoneWhere(events, TellsTotal) then now.lastTotal == was.lastTotal
          else exists at :: LastWhere(events, TellsTotal, at) && now.lastTotal == Some(FromBbBreakdown(events[at].body.total.value)))
      && CursorBy(was, events, now)
  {
    HighestIs(input.events, if input.cursor.lastSeq < input.latestSeq then input.latestSeq else input.cursor.lastSeq);
    NewsGathered(input);
    FoldOfNews(input);
    CursorIsBy(input.turns, input.perRequestEvents, input.cursor.lastSeq, SeenCursor(input), News(input));
    FoldKeepsFirstSeen(input.turns, input.perRequestEvents, input.cursor.lastSeq, StartFold(SeenCursor(input)), News(input));
  }

  /** Of the requests that wait, those asked for no longer than a day ago are kept. */
  lemma RequestsKept(input: IngestInput, result: IngestResult, rid: string) returns (waits: Option<PendingRequest>)
    requires IsIngest(input, result)
    ensures WaitsBy(input.cursor.pending, News(input), rid, waits)
    ensures Get(result.cursor.pending, rid) == if waits.Some? && input.now - waits.value.at <= 86_400_000 then waits else None
  {
    waits := Get(FoldOf(input).cursor.pending, rid);
    FoldOfNews(input);
    PendingIsBy(input.turns, input.perRequestEvents, input.cursor.lastSeq, SeenCursor(input), News(input), rid);
  }

  // ---- the opening record, and the span of a gap ----

  /** The opening record stands for what came before: over now, partial, from the earliest start, on the model last asked for. */
  lemma OpeningIs(input: IngestInput, result: IngestResult)
    requires IsIngest(input, result) && result.balanceOpened
    ensures OPENING_TURN_ID in result.turns && FoldOf(input).latestUsage.Some?
    ensures var opening, fold := result.turns[OPENING_TURN_ID], FoldOf(input);
      && opening.turnId == OPENING_TURN_ID && opening.kind == Opening && opening.status == Done && opening.partial && !opening.filled
      && opening.completedAt == Some(input.now) && opening.model == result.cursor.lastModel && opening.prompt == None
      && opening.usageEvents == 0 && opening.requests == None && opening.firstSeq == 0
      && opening.linesAdded == 0 && opening.linesRemoved == 0 && opening.fileChanges == 0
      && opening.tokens == SubtractTokens(fold.latestUsage.value.total, fold.lastsSinceIdentity)
    ensures var opening, changed := result.turns[OPENING_TURN_ID], FoldOf(input).changed;
      && (opening.startedAt.None? ==> forall id :: id in changed ==> changed[id].startedAt.None?)
      && (opening.startedAt.Some? ==> exists id :: id in changed && changed[id].startedAt == opening.startedAt)
      && (forall id :: id in changed && changed[id].startedAt.Some? ==> opening.startedAt.Some? && opening.startedAt.value <= changed[id].startedAt.value)
      && (forall id :: id != OPENING_TURN_ID ==> Get(result.turns, id) == Get(changed, id))
  {
  }

  lemma {:induction false} SpanIs(changed: Turns, missing: seq<Completion>)
    requires missing != []
    ensures forall c :: c in missing ==> c.at <= ToMs(missing) && FromMs(changed, missing) <= BeganAt(changed, c)
    ensures exists c :: c in missing && c.at == ToMs(missing)
    ensures exists c :: c in missing && BeganAt(changed, c) == FromMs(changed, missing)
  {
    var n := |missing| - 1;
    var last := missing[n];
    assert last in missing;
    assert GapStart(changed, last) == BeganAt(changed, last);
    if n > 0 {
      SpanIs(changed, missing[..n]);
      assert missing == missing[..n] + [last];
      assert ToMs(missing) == Max(ToMs(missing[..n]), last.at) && FromMs(changed, missing) == Min(FromMs(changed, missing[..n]), BeganAt(changed, last));
    } else {
      assert forall c :: c in missing ==> c == last;
    }
  }

  /** When a turn that completed began, as its record tells, or else when it completed. */
  function BeganAt(changed: Turns, c: Completion): int {
    if c.turnId in changed && changed[c.turnId].startedAt.Some? then changed[c.turnId].startedAt.value else c.at
  }

  /** A gap spans from the earliest start of its turns to the latest end. */
  lemma GapSpans(input: IngestInput, result: IngestResult)
    requires IsIngest(input, result) && result.gaps != []
    ensures var gap, changed := result.gaps[0], FoldOf(input).changed;
      && (forall c :: WasPruned(input, c) ==> c.at <= gap.toMs && gap.fromMs <= BeganAt(changed, c))
      && (exists c :: WasPruned(input, c) && c.at == gap.toMs)
      && (exists c :: WasPruned(input, c) && BeganAt(changed, c) == gap.fromMs)
  {
    var missing := Missing(input, FoldOf(input));
    forall c ensures c in missing <==> WasPruned(input, c) { MissingWerePruned(input, c); }
    SpanIs(FoldOf(input).changed, missing);
  }
}
