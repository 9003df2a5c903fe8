/** What the ledger promises over batches: it may be fed in pieces, its tokens add up, and its requests do. */
module LedgerLaws {
  import opened Common
  import opened Tokens
  import opened Ledger

  // ---- feeding the ledger in pieces ----

  lemma {:induction false} FoldConcat(turns: Turns, per: bool, lastSeq: nat, fold: Fold, a: seq<Event>, b: seq<Event>)
    ensures FoldEvents(turns, per, lastSeq, fold, a + b) == FoldEvents(turns, per, lastSeq, FoldEvents(turns, per, lastSeq, fold, a), b)
  {
    if b == [] {
      assert a + b == a;
    } else {
      assert (a + b)[..|a + b| - 1] == a + b[..|b| - 1];
      FoldConcat(turns, per, lastSeq, fold, a, b[..|b| - 1]);
    }
  }

  /** Two cursors agree on all but how far they have read and bb's total. */
  ghost predicate SameCursor(a: Cursor, b: Cursor) {
    a.(lastSeq := b.lastSeq, lastTotal := b.lastTotal) == b
  }

  /** The fold of the second batch alone, beside the fold that went on from the first. */
  ghost predicate Beside(turns: Turns, first: Fold, joint: Fold, second: Fold) {
    && SameCursor(joint.cursor, second.cursor)
    && joint.changed == first.changed + second.changed
    && joint.latestUsage == if second.latestUsage.Some? then second.latestUsage else first.latestUsage
  }

  lemma SameRecord(turns: Turns, first: Turns, second: Turns, id: string, number: nat)
    ensures RecordOf(turns, first + second, id, number) == RecordOf(turns + first, second, id, number)
  {
  }

  lemma SameCursorSteps(a: Cursor, b: Cursor, event: Event)
    requires SameCursor(a, b)
    ensures SameCursor(NextCursor(a, event), NextCursor(b, event))
  {
  }

  lemma SameTouched(body: Body, at: int, a: Cursor, b: Cursor, record: TurnRecord, per: bool)
    requires SameCursor(a, b)
    ensures TouchedRecord(body, at, a, record, per) == TouchedRecord(body, at, b, record, per)
  {
    assert a.pending == b.pending && a.lastModel == b.lastModel;
  }

  lemma TouchBeside(turns: Turns, per: bool, first: Turns, second: Turns, a: Cursor, b: Cursor, event: Event)
    requires SameCursor(a, b)
    ensures Touch(turns, first + second, event, a, per) == first + Touch(turns + first, second, event, b, per)
  {
    if event.turnId.Some? {
      var id := event.turnId.value;
      SameRecord(turns, first, second, id, event.number);
      var record := RecordOf(turns + first, second, id, event.number);
      SameTouched(event.body, event.createdAt, a, b, record, per);
      var touched := TouchedRecord(event.body, event.createdAt, b, record, per);
      if touched.Some? {
        assert (first + second)[id := touched.value] == first + second[id := touched.value];
      }
    }
  }

  lemma StepBeside(turns: Turns, per: bool, first: Fold, joint: Fold, second: Fold, event: Event)
    requires Beside(turns, first, joint, second)
    ensures Beside(turns, first, Step(turns, per, joint, event), Step(turns + first.changed, per, second, event))
  {
    SameCursorSteps(joint.cursor, second.cursor, event);
    TouchBeside(turns, per, first.changed, second.changed, joint.cursor, second.cursor, event);
  }

  lemma {:induction false} FoldBeside(turns: Turns, per: bool, lastSeq: nat, laterSeq: nat, first: Fold, start: Fold, events: seq<Event>)
    requires Beside(turns, first, first, start)
    requires forall i :: 0 <= i < |events| ==> events[i].number > lastSeq && events[i].number > laterSeq
    ensures Beside(turns, first, FoldEvents(turns, per, lastSeq, first, events),
                   FoldEvents(turns + first.changed, per, laterSeq, start, events))
  {
    if events != [] {
      var rest := events[..|events| - 1];
      FoldBeside(turns, per, lastSeq, laterSeq, first, start, rest);
      StepBeside(turns, per, first, FoldEvents(turns, per, lastSeq, first, rest),
                 FoldEvents(turns + first.changed, per, laterSeq, start, rest), events[|events| - 1]);
    }
  }

  lemma {:induction false} HighestOfConcat(a: seq<Event>, b: seq<Event>, least: nat)
    ensures HighestNumber(a + b, least) == HighestNumber(b, HighestNumber(a, least))
  {
    if b == [] {
      assert a + b == a;
    } else {
      assert (a + b)[..|a + b| - 1] == a + b[..|b| - 1];
      HighestOfConcat(a, b[..|b| - 1], least);
    }
  }

  lemma {:induction false} HighestIsMax(events: seq<Event>, a: nat, b: nat)
    ensures HighestNumber(events, if a < b then b else a)
      == if HighestNumber(events, a) < b then b else HighestNumber(events, a)
    ensures HighestNumber(events, a) >= a
    ensures forall i :: 0 <= i < |events| ==> events[i].number <= HighestNumber(events, a)
  {
    if events != [] {
      HighestIsMax(events[..|events| - 1], a, b);
    }
  }

  lemma {:induction false} FoldKeepsFirstSeen(turns: Turns, per: bool, lastSeq: nat, fold: Fold, events: seq<Event>)
    ensures var after := FoldEvents(turns, per, lastSeq, fold, events).cursor;
      after.firstSeenAt == fold.cursor.firstSeenAt && after.lastTotal == fold.cursor.lastTotal
  {
    if events != [] {
      FoldKeepsFirstSeen(turns, per, lastSeq, fold, events[..|events| - 1]);
    }
  }

  /** Batch `b` is read after batch `a`, and `both` reads the two at once. */
  ghost predicate SplitBatch(a: IngestInput, b: IngestInput, both: IngestInput) {
    && a.cursor.firstSeenAt.Some?
    && b.cursor == ClosedCursor(a, FoldOf(a))
    && b.turns == a.turns + FoldOf(a).changed
    && both == b.(cursor := a.cursor, turns := a.turns, events := a.events + b.events)
    && a.perRequestEvents == b.perRequestEvents && a.latestSeq <= b.latestSeq
    && forall i :: 0 <= i < |b.events| ==> b.events[i].number > b.cursor.lastSeq
  }

  lemma FoldsBeside(a: IngestInput, b: IngestInput, both: IngestInput)
    requires SplitBatch(a, b, both)
    requires DropOld(FoldOf(a).cursor.pending, a.now) == FoldOf(a).cursor.pending
    ensures Beside(a.turns, FoldOf(a), FoldOf(both), FoldOf(b))
  {
    var per := a.perRequestEvents;
    FoldConcat(a.turns, per, a.cursor.lastSeq, StartFold(a.cursor), a.events, b.events);
    FoldKeepsFirstSeen(a.turns, per, a.cursor.lastSeq, StartFold(a.cursor), a.events);
    LastSeqAgrees(a, b, both);
    FoldBeside(a.turns, per, a.cursor.lastSeq, b.cursor.lastSeq, FoldOf(a), StartFold(b.cursor), b.events);
  }

  lemma ClosedCursorsAgree(a: IngestInput, b: IngestInput, both: IngestInput)
    requires SplitBatch(a, b, both)
    requires Beside(a.turns, FoldOf(a), FoldOf(both), FoldOf(b))
    ensures ClosedCursor(both, FoldOf(both)) == ClosedCursor(b, FoldOf(b))
  {
    var per := a.perRequestEvents;
    FoldKeepsFirstSeen(a.turns, per, a.cursor.lastSeq, StartFold(a.cursor), a.events);
    FoldKeepsFirstSeen(a.turns, per, a.cursor.lastSeq, StartFold(a.cursor), both.events);
    FoldKeepsFirstSeen(b.turns, per, b.cursor.lastSeq, StartFold(b.cursor), b.events);
    LastSeqAgrees(a, b, both);
  }

  /**
   * Reading events in two batches comes to the same cursor and the same
   * records as reading them in one, on a thread seen before, when no gap was
   * found and no request aged out at the end of the first batch.
   */
  lemma IngestIsHomomorphic(a: IngestInput, b: IngestInput, both: IngestInput, first: IngestResult, second: IngestResult, joint: IngestResult)
    requires IsIngest(a, first) && IsIngest(b, second) && IsIngest(both, joint)
    requires first.gaps == second.gaps == joint.gaps == []
    requires SplitBatch(a, b, both)
    requires DropOld(FoldOf(a).cursor.pending, a.now) == FoldOf(a).cursor.pending
    ensures b.cursor == first.cursor && b.turns == a.turns + first.turns
    ensures joint.cursor == second.cursor
    ensures joint.turns == first.turns + second.turns
    ensures both.turns + joint.turns == b.turns + second.turns
  {
    KeepsSeen(a);
    WithoutGaps(a, first);
    WithoutGaps(b, second);
    WithoutGaps(both, joint);
    FoldsBeside(a, b, both);
    ClosedCursorsAgree(a, b, both);
  }

  lemma WithoutGaps(input: IngestInput, result: IngestResult)
    requires IsIngest(input, result) && input.cursor.firstSeenAt.Some? && result.gaps == []
    ensures result.cursor == ClosedCursor(input, FoldOf(input)) && result.turns == FoldOf(input).changed
  {
  }

  lemma KeepsSeen(a: IngestInput)
    requires a.cursor.firstSeenAt.Some?
    ensures ClosedCursor(a, FoldOf(a)).firstSeenAt.Some?
  {
    FoldKeepsFirstSeen(a.turns, a.perRequestEvents, a.cursor.lastSeq, StartFold(a.cursor), a.events);
  }

  lemma LastSeqAgrees(a: IngestInput, b: IngestInput, both: IngestInput)
    requires SplitBatch(a, b, both)
    ensures ClosedCursor(both, FoldOf(both)).lastSeq == ClosedCursor(b, FoldOf(b)).lastSeq
    ensures a.cursor.lastSeq <= b.cursor.lastSeq
  {
    HighestIsMax(a.events, a.cursor.lastSeq, a.latestSeq);
    HighestIsMax(a.events, a.cursor.lastSeq, b.latestSeq);
    HighestOfConcat(a.events, b.events, if a.cursor.lastSeq < b.latestSeq then b.latestSeq else a.cursor.lastSeq);
  }

  /** The events the cursor has not read: those above it, wherever they are in the batch. */
  function Newer(events: seq<Event>, lastSeq: nat): seq<Event> {
    if events == [] then []
    else
      var last := events[|events| - 1];
      Newer(events[..|events| - 1], lastSeq) + if last.number > lastSeq then [last] else []
  }

  lemma {:induction false} OnlyNewerCount(turns: Turns, per: bool, lastSeq: nat, fold: Fold, events: seq<Event>, least: nat)
    ensures FoldEvents(turns, per, lastSeq, fold, Newer(events, lastSeq)) == FoldEvents(turns, per, lastSeq, fold, events)
    ensures least >= lastSeq ==> HighestNumber(Newer(events, lastSeq), least) == HighestNumber(events, least)
  {
    if events != [] {
      var rest, last := events[..|events| - 1], events[|events| - 1];
      OnlyNewerCount(turns, per, lastSeq, fold, rest, least);
      HighestIsMax(rest, least, least);
      var newer, all := Newer(rest, lastSeq), Newer(events, lastSeq);
      if last.number > lastSeq {
        assert all == newer + [last] && all[|all| - 1] == last && all[..|all| - 1] == newer;
      } else {
        assert all == newer;
      }
    }
  }

  lemma SameNewerSameFold(a: IngestInput, b: IngestInput)
    requires a.(events := b.events) == b && Newer(a.events, a.cursor.lastSeq) == Newer(b.events, a.cursor.lastSeq)
    ensures FoldOf(a) == FoldOf(b)
    ensures forall fold :: ClosedCursor(a, fold) == ClosedCursor(b, fold)
  {
    var least := if a.cursor.lastSeq < a.latestSeq then a.latestSeq else a.cursor.lastSeq;
    OnlyNewerCount(a.turns, a.perRequestEvents, a.cursor.lastSeq, StartFold(SeenCursor(a)), a.events, least);
    OnlyNewerCount(a.turns, a.perRequestEvents, a.cursor.lastSeq, StartFold(SeenCursor(a)), b.events, least);
  }

  /**
   * Events delivered again, at or below the cursor, change nothing wherever
   * they stand among the new ones; where there is none but those, no turn
   * changes and no gap is found.
   */
  lemma RedeliveryChangesNothing(input: IngestInput, again: seq<Event>, result: IngestResult)
    requires Newer(again, input.cursor.lastSeq) == Newer(input.events, input.cursor.lastSeq)
    ensures IsIngest(input.(events := again), result) <==> IsIngest(input, result)
    ensures Newer(again, input.cursor.lastSeq) == [] && IsIngest(input, result) && input.cursor.firstSeenAt.Some? ==> result.turns == map[] && result.gaps == []
  {
    SameNewerSameFold(input.(events := again), input);
    SameMissing(input.(events := again), input, FoldOf(input), FoldOf(input).completed);
    if Newer(again, input.cursor.lastSeq) == [] {
      OnlyNewerCount(input.turns, input.perRequestEvents, input.cursor.lastSeq, StartFold(SeenCursor(input)), input.events, input.cursor.lastSeq);
    }
  }

  lemma {:induction false} SameMissing(a: IngestInput, b: IngestInput, fold: Fold, completed: seq<Completion>)
    requires a.(events := b.events) == b
    ensures MissingOf(a, fold, completed) == MissingOf(b, fold, completed)
  {
    if completed != [] { SameMissing(a, b, fold, completed[..|completed| - 1]); }
  }
}
