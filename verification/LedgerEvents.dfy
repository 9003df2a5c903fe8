/** What a batch of events makes of turns, gaps and the cursor, in the fields of the events themselves. */
module LedgerEvents {
  import opened Common
  import opened Tokens
  import opened Ledger
  import opened LedgerLaws

  // ---- the events a batch has not read ----

  ghost function News(input: IngestInput): seq<Event> { Newer(input.events, input.cursor.lastSeq) }

  ghost predicate AllAbove(events: seq<Event>, lastSeq: nat) { forall i :: 0 <= i < |events| ==> events[i].number > lastSeq }

  lemma {:induction false} NewerAre(events: seq<Event>, lastSeq: nat)
    ensures AllAbove(Newer(events, lastSeq), lastSeq)
    ensures forall e :: e in Newer(events, lastSeq) <==> e in events && e.number > lastSeq
  {
    if events != [] {
      NewerAre(events[..|events| - 1], lastSeq);
      assert events == events[..|events| - 1] + [events[|events| - 1]];
    }
  }

  lemma FoldOfNews(input: IngestInput)
    ensures AllAbove(News(input), input.cursor.lastSeq)
    ensures FoldOf(input) == FoldEvents(input.turns, input.perRequestEvents, input.cursor.lastSeq, StartFold(SeenCursor(input)), News(input))
  {
    NewerAre(input.events, input.cursor.lastSeq);
    OnlyNewerCount(input.turns, input.perRequestEvents, input.cursor.lastSeq, StartFold(SeenCursor(input)), input.events, input.cursor.lastSeq);
  }

  // ---- the first and the last event of a kind ----

  ghost predicate LastWhere(events: seq<Event>, fits: Event -> bool, i: int) {
    0 <= i < |events| && fits(events[i]) && forall j :: i < j < |events| ==> !fits(events[j])
  }

  ghost predicate FirstWhere(events: seq<Event>, fits: Event -> bool, i: int) {
    0 <= i < |events| && fits(events[i]) && forall j :: 0 <= j < i ==> !fits(events[j])
  }

  ghost predicate NoneWhere(events: seq<Event>, fits: Event -> bool) { forall i :: 0 <= i < |events| ==> !fits(events[i]) }

  lemma LastOneMore(events: seq<Event>, last: Event, fits: Event -> bool)
    ensures fits(last) ==> LastWhere(events + [last], fits, |events|)
    ensures !fits(last) ==> forall i :: LastWhere(events, fits, i) ==> LastWhere(events + [last], fits, i) && (events + [last])[i] == events[i]
    ensures NoneWhere(events + [last], fits) <==> NoneWhere(events, fits) && !fits(last)
    ensures forall i :: FirstWhere(events, fits, i) ==> FirstWhere(events + [last], fits, i) && (events + [last])[i] == events[i]
    ensures NoneWhere(events, fits) && fits(last) ==> FirstWhere(events + [last], fits, |events|)
  {
    var more := events + [last];
    assert forall i :: 0 <= i < |events| ==> more[i] == events[i];
    assert more[|events|] == last;
  }

  /** Of any events some is the last of a kind and some the first, unless none is of it. */
  lemma {:induction false} FirstAndLast(events: seq<Event>, fits: Event -> bool) returns (first: int, last: int)
    ensures NoneWhere(events, fits) || (FirstWhere(events, fits, first) && LastWhere(events, fits, last))
  {
    first, last := 0, 0;
    if events != [] {
      var n := |events| - 1;
      first, last := FirstAndLast(events[..n], fits);
      assert events == events[..n] + [events[n]];
      LastOneMore(events[..n], events[n], fits);
      if NoneWhere(events[..n], fits) { first := n; }
      if fits(events[n]) { last := n; }
    }
  }

  // ---- a turn's record ----

  /** The events of one turn. */
  function OfTurn(events: seq<Event>, id: string): seq<Event> {
    if events == [] then []
    else OfTurn(events[..|events| - 1], id) + if events[|events| - 1].turnId == Some(id) then [events[|events| - 1]] else []
  }

  predicate IsStart(e: Event) { e.body.Started? }
  predicate IsCompletion(e: Event) { e.body.Completed? }
  predicate IsFallback(e: Event) { e.body.ModelFallback? && e.body.model.Some? }

  /** It makes a record for its turn, or changes the one there is. */
  predicate Records(e: Event) {
    e.body.InputAccepted? || IsStart(e) || IsCompletion(e) || IsFallback(e) || e.body.FileChanged? || (e.body.Usage? && e.body.last.Some?)
  }

  function SumAdded(events: seq<Event>): nat {
    if events == [] then 0 else SumAdded(events[..|events| - 1]) + if events[|events| - 1].body.FileChanged? then events[|events| - 1].body.added else 0
  }

  function SumRemoved(events: seq<Event>): nat {
    if events == [] then 0 else SumRemoved(events[..|events| - 1]) + if events[|events| - 1].body.FileChanged? then events[|events| - 1].body.removed else 0
  }

  function CountFiles(events: seq<Event>): nat {
    if events == [] then 0 else CountFiles(events[..|events| - 1]) + if events[|events| - 1].body.FileChanged? then 1 else 0
  }

  function CountUsage(events: seq<Event>): nat {
    if events == [] then 0
    else CountUsage(events[..|events| - 1]) + if events[|events| - 1].body.Usage? && events[|events| - 1].body.last.Some? then 1 else 0
  }

  function SumUsage(events: seq<Event>): Tokens {
    if events == [] then ZERO_TOKENS
    else
      var last := events[|events| - 1];
      if last.body.Usage? && last.body.last.Some? then AddTokens(SumUsage(events[..|events| - 1]), FromBbBreakdown(last.body.last.value))
      else SumUsage(events[..|events| - 1])
  }

  /** It ended with the latest completion, failed or interrupted as that says, else done. */
  ghost predicate EndsAs(was: TurnRecord, own: seq<Event>, now: TurnRecord) {
    if NoneWhere(own, IsCompletion) then now.completedAt == was.completedAt && now.status == was.status
    else exists i :: LastWhere(own, IsCompletion, i) && now.completedAt == Some(own[i].createdAt) && now.status == Outcome(own[i].body.status)
  }

  function Outcome(status: TurnStatus): TurnStatus { if status == Failed || status == Interrupted then status else Done }

  /** It began with the latest start; with none, when it was known to, or else with its first completion. */
  ghost predicate BeginsAs(was: TurnRecord, own: seq<Event>, now: TurnRecord) {
    if !NoneWhere(own, IsStart) then exists i :: LastWhere(own, IsStart, i) && now.startedAt == Some(own[i].createdAt)
    else if was.startedAt.Some? || NoneWhere(own, IsCompletion) then now.startedAt == was.startedAt
    else exists i :: FirstWhere(own, IsCompletion, i) && now.startedAt == Some(own[i].createdAt)
  }

  /** The model is what the latest fallback names; with none, one it had stays. */
  ghost predicate RunsOn(was: TurnRecord, own: seq<Event>, now: TurnRecord) {
    if !NoneWhere(own, IsFallback) then exists i :: LastWhere(own, IsFallback, i) && now.model == own[i].body.model
    else was.model.Some? ==> now.model == was.model
  }

  ghost predicate CountsAs(was: TurnRecord, own: seq<Event>, now: TurnRecord) {
    && now.linesAdded == was.linesAdded + SumAdded(own) && now.linesRemoved == was.linesRemoved + SumRemoved(own)
    && now.fileChanges == was.fileChanges + CountFiles(own)
    && now.usageEvents == was.usageEvents + CountUsage(own) && now.tokens == AddTokens(was.tokens, SumUsage(own))
  }

  /** The usage events of a turn as requests, in order. */
  ghost function Sent(events: seq<Event>): seq<RequestTokens> {
    if events == [] then []
    else
      var e := events[|events| - 1];
      Sent(events[..|events| - 1]) + if e.body.Usage? && e.body.last.Some? then [OneSent(FromBbBreakdown(e.body.last.value))] else []
  }

  ghost function OneSent(t: Tokens): RequestTokens { RequestTokens(t.input, t.output, t.cacheRead, t.cacheWrite) }

  /**
   * The requests a turn keeps: from its first usage event on, where the
   * harness tells of each request and the turn had no tokens yet; a turn that
   * keeps them keeps each, and one that does not never begins to.
   */
  ghost predicate KeepsAs(was: TurnRecord, own: seq<Event>, now: TurnRecord, per: bool) {
    if Sent(own) == [] then now.requests == was.requests
    else if per && was.usageEvents == 0 && HasNone(was.tokens) then now.requests == Some(Sent(own))
    else if was.requests.Some? then now.requests == Some(was.requests.value + Sent(own))
    else now.requests == None
  }

  ghost predicate HasNone(t: Tokens) { t.input == 0 && t.output == 0 && t.cacheRead == 0 && t.cacheWrite == 0 }

  lemma SentOneMore(own: seq<Event>, e: Event)
    ensures Sent(own + [e]) == Sent(own) + if e.body.Usage? && e.body.last.Some? then [OneSent(FromBbBreakdown(e.body.last.value))] else []
  {
    assert (own + [e])[..|own|] == own;
  }

  lemma {:induction false} SentAreUsage(own: seq<Event>)
    ensures |Sent(own)| == CountUsage(own) && (Sent(own) == [] ==> SumUsage(own) == ZERO_TOKENS)
  {
    if own != [] { SentAreUsage(own[..|own| - 1]); }
  }

  lemma KeepsOneMore(was: TurnRecord, own: seq<Event>, now: TurnRecord, e: Event, cursor: Cursor, per: bool)
    requires KeepsAs(was, own, now, per) && CountsAs(was, own, now)
    ensures KeepsAs(was, own + [e], TouchedRecord(e.body, e.createdAt, cursor, now, per).GetOr(now), per)
  {
    SentOneMore(own, e);
    SentAreUsage(own);
    AddsUp(was.tokens, ZERO_TOKENS, ZERO_TOKENS);
    var next := TouchedRecord(e.body, e.createdAt, cursor, now, per).GetOr(now);
    if e.body.Usage? && e.body.last.Some? {
      var sent := OneSent(FromBbBreakdown(e.body.last.value));
      UsageKept(now, FromBbBreakdown(e.body.last.value), per, next);
      if was.requests.Some? { Appended(was.requests.value, Sent(own), sent); }
      if Sent(own) == [] { assert Sent(own + [e]) == [sent]; }
    } else {
      assert Sent(own + [e]) == Sent(own) && next.requests == now.requests;
    }
  }

  lemma Appended(a: seq<RequestTokens>, b: seq<RequestTokens>, last: RequestTokens)
    ensures (a + b) + [last] == a + (b + [last])
  {
  }

  lemma UsageKept(now: TurnRecord, last: Tokens, per: bool, next: TurnRecord)
    requires next == WithUsage(now, last, per)
    ensures per && now.usageEvents == 0 && HasNone(now.tokens) ==> next.requests == Some([OneSent(last)])
    ensures !(per && now.usageEvents == 0 && HasNone(now.tokens)) ==>
      next.requests == if now.requests.Some? then Some(now.requests.value + [OneSent(last)]) else None
  {
    assert [] + [OneSent(last)] == [OneSent(last)];
  }

  ghost predicate StaysAs(was: TurnRecord, now: TurnRecord) {
    && now.turnId == was.turnId && now.kind == was.kind && now.firstSeq == was.firstSeq && now.partial == was.partial && now.filled == was.filled
    && (was.prompt.Some? ==> now.prompt == was.prompt)
  }

  /** The record a turn's events make of the one it had. */
  ghost predicate IsMadeOf(was: TurnRecord, own: seq<Event>, now: TurnRecord) {
    EndsAs(was, own, now) && BeginsAs(was, own, now) && RunsOn(was, own, now) && CountsAs(was, own, now) && StaysAs(was, now)
  }

  /** The records that these events make of one, by whether the harness tells of each request. */
  ghost function MadeOf(was: TurnRecord, own: seq<Event>, per: bool): iset<TurnRecord> {
    iset now: TurnRecord | IsMadeOf(was, own, now) && KeepsAs(was, own, now, per)
  }

  /** The record a turn had, or the one its first event made for it. */
  ghost predicate IsBefore(turns: Turns, own: seq<Event>, id: string, was: TurnRecord) {
    if id in turns then was == turns[id]
    else exists i :: FirstWhere(own, Records, i) && was == Blank(id, own[i].number)
  }

  ghost function Blank(id: string, firstSeq: nat): TurnRecord {
    TurnRecord(id, Turn, None, None, Running, None, None, ZERO_TOKENS, None, 0, 0, 0, 0, false, false, firstSeq)
  }

  /** What one event does to the fields that are not sums. */
  ghost predicate StepsTo(now: TurnRecord, e: Event, next: TurnRecord) {
    && (if IsCompletion(e) then next.completedAt == Some(e.createdAt) && next.status == Outcome(e.body.status)
        else next.completedAt == now.completedAt && next.status == now.status)
    && next.startedAt == (if IsStart(e) || (IsCompletion(e) && now.startedAt.None?) then Some(e.createdAt) else now.startedAt)
    && (if IsFallback(e) then next.model == e.body.model else now.model.Some? ==> next.model == now.model)
    && StaysAs(now, next)
  }

  lemma TouchSteps(now: TurnRecord, e: Event, cursor: Cursor, per: bool)
    ensures StepsTo(now, e, TouchedRecord(e.body, e.createdAt, cursor, now, per).GetOr(now))
  {
  }

  lemma TouchRecords(now: TurnRecord, e: Event, cursor: Cursor, per: bool)
    ensures TouchedRecord(e.body, e.createdAt, cursor, now, per).Some? <==> Records(e)
  {
  }

  lemma EndsOneMore(was: TurnRecord, own: seq<Event>, now: TurnRecord, e: Event, next: TurnRecord)
    requires EndsAs(was, own, now) && StepsTo(now, e, next)
    ensures EndsAs(was, own + [e], next)
  {
    LastOneMore(own, e, IsCompletion);
  }

  lemma BeginsOneMore(was: TurnRecord, own: seq<Event>, now: TurnRecord, e: Event, next: TurnRecord)
    requires BeginsAs(was, own, now) && StepsTo(now, e, next)
    ensures BeginsAs(was, own + [e], next)
  {
    LastOneMore(own, e, IsStart);
    LastOneMore(own, e, IsCompletion);
  }

  lemma RunsOneMore(was: TurnRecord, own: seq<Event>, now: TurnRecord, e: Event, next: TurnRecord)
    requires RunsOn(was, own, now) && StepsTo(now, e, next)
    ensures RunsOn(was, own + [e], next)
  {
    LastOneMore(own, e, IsFallback);
  }

  lemma SumsOneMore(own: seq<Event>, e: Event)
    ensures SumAdded(own + [e]) == SumAdded(own) + if e.body.FileChanged? then e.body.added else 0
    ensures SumRemoved(own + [e]) == SumRemoved(own) + if e.body.FileChanged? then e.body.removed else 0
    ensures CountFiles(own + [e]) == CountFiles(own) + if e.body.FileChanged? then 1 else 0
    ensures CountUsage(own + [e]) == CountUsage(own) + if e.body.Usage? && e.body.last.Some? then 1 else 0
    ensures SumUsage(own + [e]) == if e.body.Usage? && e.body.last.Some? then AddTokens(SumUsage(own), FromBbBreakdown(e.body.last.value)) else SumUsage(own)
  {
    assert (own + [e])[..|own|] == own;
  }

  lemma CountsOneMore(was: TurnRecord, own: seq<Event>, now: TurnRecord, e: Event, cursor: Cursor, per: bool)
    requires CountsAs(was, own, now)
    ensures CountsAs(was, own + [e], TouchedRecord(e.body, e.createdAt, cursor, now, per).GetOr(now))
  {
    SumsOneMore(own, e);
    if e.body.Usage? && e.body.last.Some? {
      AddsUp(was.tokens, SumUsage(own), FromBbBreakdown(e.body.last.value));
    }
  }

  lemma AddsUp(a: Tokens, b: Tokens, c: Tokens)
    ensures AddTokens(AddTokens(a, b), c) == AddTokens(a, AddTokens(b, c)) && AddTokens(a, ZERO_TOKENS) == a
  {
  }

  lemma MadeOneMore(was: TurnRecord, own: seq<Event>, now: TurnRecord, e: Event, cursor: Cursor, per: bool)
    requires now in MadeOf(was, own, per)
    ensures var touched := TouchedRecord(e.body, e.createdAt, cursor, now, per);
      touched.GetOr(now) in MadeOf(was, own + [e], per) && (touched.Some? <==> Records(e))
  {
    var next := TouchedRecord(e.body, e.createdAt, cursor, now, per).GetOr(now);
    TouchSteps(now, e, cursor, per);
    TouchRecords(now, e, cursor, per);
    CountsOneMore(was, own, now, e, cursor, per);
    KeepsOneMore(was, own, now, e, cursor, per);
    MadeByStep(was, own, now, e, next, per);
  }

  lemma MadeByStep(was: TurnRecord, own: seq<Event>, now: TurnRecord, e: Event, next: TurnRecord, per: bool)
    requires now in MadeOf(was, own, per) && StepsTo(now, e, next) && CountsAs(was, own + [e], next) && KeepsAs(was, own + [e], next, per)
    ensures next in MadeOf(was, own + [e], per)
  {
    EndsOneMore(was, own, now, e, next);
    BeginsOneMore(was, own, now, e, next);
    RunsOneMore(was, own, now, e, next);
  }

  lemma MadeOfNothing(was: TurnRecord, per: bool)
    ensures was in MadeOf(was, [], per)
  {
    AddsUp(was.tokens, ZERO_TOKENS, ZERO_TOKENS);
  }

  /** The records a turn may have after these events of its own. */
  ghost function RecordsOf(turns: Turns, own: seq<Event>, id: string, per: bool): iset<TurnRecord> {
    iset now: TurnRecord | IsRecord(turns, own, id, now, per)
  }

  ghost predicate IsRecord(turns: Turns, own: seq<Event>, id: string, now: TurnRecord, per: bool) {
    exists was :: IsBefore(turns, own, id, was) && now in MadeOf(was, own, per)
  }

  lemma KnownOneMore(turns: Turns, own: seq<Event>, id: string, now: TurnRecord, e: Event, cursor: Cursor, per: bool)
    requires now in RecordsOf(turns, own, id, per)
    ensures var touched := TouchedRecord(e.body, e.createdAt, cursor, now, per);
      touched.GetOr(now) in RecordsOf(turns, own + [e], id, per) && (touched.Some? <==> Records(e))
  {
    var was :| IsBefore(turns, own, id, was) && now in MadeOf(was, own, per);
    MadeOneMore(was, own, now, e, cursor, per);
    LastOneMore(own, e, Records);
    assert IsBefore(turns, own + [e], id, was);
  }

  lemma FirstOneMore(turns: Turns, own: seq<Event>, id: string, e: Event, cursor: Cursor, per: bool)
    requires id !in turns && NoneWhere(own, Records)
    ensures var touched := TouchedRecord(e.body, e.createdAt, cursor, Blank(id, e.number), per);
      (touched.Some? <==> Records(e)) && (touched.Some? ==> touched.value in RecordsOf(turns, own + [e], id, per))
  {
    var blank := Blank(id, e.number);
    FreshRecord(own, blank, per);
    MadeOneMore(blank, own, blank, e, cursor, per);
    LastOneMore(own, e, Records);
    if Records(e) { assert FirstWhere(own + [e], Records, |own|) && IsBefore(turns, own + [e], id, blank); }
  }

  /** One more event of the turn, on a record that was made of those before it or is to be made now. */
  lemma RecordOneMore(turns: Turns, changed: Turns, own: seq<Event>, id: string, e: Event, cursor: Cursor, per: bool)
    requires id in changed <==> !NoneWhere(own, Records)
    requires id in turns + changed ==> (turns + changed)[id] in RecordsOf(turns, own, id, per)
    requires e.turnId == Some(id)
    ensures var after := Touch(turns, changed, e, cursor, per);
      && (id in after <==> !NoneWhere(own + [e], Records))
      && (id in turns + after ==> (turns + after)[id] in RecordsOf(turns, own + [e], id, per))
  {
    LastOneMore(own, e, Records);
    if id in turns + changed {
      KnownOneMore(turns, own, id, (turns + changed)[id], e, cursor, per);
    } else {
      FirstOneMore(turns, own, id, e, cursor, per);
    }
  }

  /** Events that record nothing make nothing of a record. */
  lemma {:induction false} FreshRecord(own: seq<Event>, was: TurnRecord, per: bool)
    requires NoneWhere(own, Records)
    ensures was in MadeOf(was, own, per)
  {
    if own == [] {
      MadeOfNothing(was, per);
    } else {
      var n := |own| - 1;
      assert own == own[..n] + [own[n]];
      LastOneMore(own[..n], own[n], Records);
      FreshRecord(own[..n], was, per);
      MadeOneMore(was, own[..n], was, own[n], EMPTY_CURSOR, per);
    }
  }

  /**
   * A turn is changed exactly when an event of its own records something, and
   * its record is then made of the one it had and its own events, whatever
   * other turns do.
   */
  lemma {:induction false} TurnsAreMade(turns: Turns, per: bool, lastSeq: nat, cursor: Cursor, events: seq<Event>, id: string)
    requires AllAbove(events, lastSeq)
    ensures var own, changed := OfTurn(events, id), FoldEvents(turns, per, lastSeq, StartFold(cursor), events).changed;
      && (id in changed <==> !NoneWhere(own, Records))
      && (id in turns + changed ==> (turns + changed)[id] in RecordsOf(turns, own, id, per))
  {
    if events == [] {
      if id in turns {
        MadeOfNothing(turns[id], per);
        assert IsBefore(turns, [], id, turns[id]);
      }
    } else {
      var rest, e := events[..|events| - 1], events[|events| - 1];
      TurnsAreMade(turns, per, lastSeq, cursor, rest, id);
      var before := FoldEvents(turns, per, lastSeq, StartFold(cursor), rest);
      if e.turnId == Some(id) {
        RecordOneMore(turns, before.changed, OfTurn(rest, id), id, e, before.cursor, per);
      } else {
        assert OfTurn(events, id) == OfTurn(rest, id);
      }
    }
  }
}
