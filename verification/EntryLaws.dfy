/** Which use and which turn each log entry has, and how turns are ordered, in the fields of entries and turns. */
module EntryLaws {
  import opened Common
  import opened Ledger
  import opened Summary

  // ---- entries picked from a log ----

  /** What is picked stands at these places of the log, in order, and they are exactly those that meet the condition. */
  ghost predicate ArePicked(all: seq<LogEntry>, meets: LogEntry -> bool, places: seq<nat>, picked: seq<LogEntry>) {
    && |places| == |picked|
    && (forall i :: 0 <= i < |places| ==> places[i] < |all| && all[places[i]] == picked[i])
    && (forall i, j :: 0 <= i < j < |places| ==> places[i] < places[j])
    && (forall k: nat :: k < |all| ==> (k in places <==> meets(all[k])))
  }

  lemma PickNext(all: seq<LogEntry>, meets: LogEntry -> bool, before: seq<nat>, picked: seq<LogEntry>) returns (places: seq<nat>)
    requires all != [] && ArePicked(all[..|all| - 1], meets, before, picked)
    ensures ArePicked(all, meets, places, picked + if meets(all[|all| - 1]) then [all[|all| - 1]] else [])
  {
    var n := |all| - 1;
    assert forall k: nat :: k < n ==> all[..n][k] == all[k];
    if meets(all[n]) {
      places := before + [n];
    } else {
      places := before;
      assert picked + [] == picked;
    }
  }

  // ---- what an entry is for ----

  /** A fork's log holds what it copied from before it was made. */
  ghost predicate IsCopied(e: LogEntry, ctx: MergeContext) { ctx.forkCreatedAt.Some? && e.ts < ctx.forkCreatedAt.value }

  /** Before the thread was first seen, where log history stands in for that time. */
  ghost predicate IsEarly(e: LogEntry, ctx: MergeContext) { ctx.historyBackfilled && ctx.firstSeenAt.Some? && e.ts < ctx.firstSeenAt.value }

  ghost predicate IsInGap(e: LogEntry, ctx: MergeContext) {
    exists gap :: gap in ctx.partialGaps && gap.fromMs <= e.ts && e.ts <= gap.toMs
  }

  ghost predicate IsOfSubagent(e: LogEntry, ctx: MergeContext) { !IsCopied(e, ctx) && e.agentId != None }

  ghost predicate IsHistory(e: LogEntry, ctx: MergeContext) { !IsCopied(e, ctx) && e.agentId == None && IsEarly(e, ctx) }

  ghost predicate FillsGap(e: LogEntry, ctx: MergeContext) { !IsCopied(e, ctx) && e.agentId == None && !IsEarly(e, ctx) && IsInGap(e, ctx) }

  ghost predicate TellsWrites(e: LogEntry, ctx: MergeContext) {
    !IsCopied(e, ctx) && e.agentId == None && !IsEarly(e, ctx) && !IsInGap(e, ctx) && e.tokens.cacheWrite > 0
  }

  lemma UseIs(e: LogEntry, ctx: MergeContext)
    ensures UseOf(e, ctx) == Subagent <==> IsOfSubagent(e, ctx)
    ensures UseOf(e, ctx) == History <==> IsHistory(e, ctx)
    ensures UseOf(e, ctx) == GapFill <==> FillsGap(e, ctx)
    ensures UseOf(e, ctx) == CacheWrites <==> TellsWrites(e, ctx)
  {
    if i :| 0 <= i < |ctx.partialGaps| && ctx.partialGaps[i].fromMs <= e.ts <= ctx.partialGaps[i].toMs {
      assert ctx.partialGaps[i] in ctx.partialGaps;
    }
  }

  lemma {:induction false} UsedArePicked(entries: seq<LogEntry>, ctx: MergeContext, use: LogUse, meets: LogEntry -> bool) returns (places: seq<nat>)
    requires forall e :: meets(e) <==> UseOf(e, ctx) == use
    ensures ArePicked(entries, meets, places, Used(entries, ctx, use))
  {
    if entries == [] {
      places := [];
    } else {
      places := UsedArePicked(entries[..|entries| - 1], ctx, use, meets);
      places := PickNext(entries, meets, places, Used(entries[..|entries| - 1], ctx, use));
    }
  }

  /** What merging keeps of the main session's history. */
  lemma HistoryArePicked(entries: seq<LogEntry>, ctx: MergeContext) returns (places: seq<nat>)
    ensures ArePicked(entries, e => IsHistory(e, ctx), places, Used(entries, ctx, History))
  {
    forall e ensures IsHistory(e, ctx) <==> UseOf(e, ctx) == History { UseIs(e, ctx); }
    places := UsedArePicked(entries, ctx, History, e => IsHistory(e, ctx));
  }

  lemma GapFillArePicked(entries: seq<LogEntry>, ctx: MergeContext) returns (places: seq<nat>)
    ensures ArePicked(entries, e => FillsGap(e, ctx), places, Used(entries, ctx, GapFill))
  {
    forall e ensures FillsGap(e, ctx) <==> UseOf(e, ctx) == GapFill { UseIs(e, ctx); }
    places := UsedArePicked(entries, ctx, GapFill, e => FillsGap(e, ctx));
  }

  lemma SubagentsArePicked(entries: seq<LogEntry>, ctx: MergeContext) returns (places: seq<nat>)
    ensures ArePicked(entries, e => IsOfSubagent(e, ctx), places, Used(entries, ctx, Subagent))
  {
    forall e ensures IsOfSubagent(e, ctx) <==> UseOf(e, ctx) == Subagent { UseIs(e, ctx); }
    places := UsedArePicked(entries, ctx, Subagent, e => IsOfSubagent(e, ctx));
  }

  lemma WritesArePicked(entries: seq<LogEntry>, ctx: MergeContext) returns (places: seq<nat>)
    ensures ArePicked(entries, e => TellsWrites(e, ctx), places, Used(entries, ctx, CacheWrites))
  {
    forall e ensures TellsWrites(e, ctx) <==> UseOf(e, ctx) == CacheWrites { UseIs(e, ctx); }
    places := UsedArePicked(entries, ctx, CacheWrites, e => TellsWrites(e, ctx));
  }

  // ---- the turn an entry falls in ----

  /** From the turn's start to half a minute past its end, or past now while it runs. */
  ghost predicate Holds(turn: TurnRecord, ts: int, now: int) {
    && turn.startedAt.Some? && turn.startedAt.value <= ts
    && ts - 30_000 <= (if turn.completedAt.Some? then turn.completedAt.value else now)
  }

  ghost predicate CompletedBefore(turn: TurnRecord, before: Option<int>) {
    before.Some? && turn.completedAt.Some? && turn.completedAt.value < before.value
  }

  /** The last of the turns that hold the time; of those completed before, where asked. */
  ghost predicate IsLastToHold(turns: seq<TurnRecord>, ts: int, now: int, onlyEnded: bool, before: Option<int>, i: int) {
    && 0 <= i < |turns| && Holds(turns[i], ts, now) && (onlyEnded ==> CompletedBefore(turns[i], before))
    && forall j :: i < j < |turns| ==> !(Holds(turns[j], ts, now) && (onlyEnded ==> CompletedBefore(turns[j], before)))
  }

  ghost predicate NoneHolds(turns: seq<TurnRecord>, ts: int, now: int, onlyEnded: bool, before: Option<int>) {
    forall i :: 0 <= i < |turns| ==> !(Holds(turns[i], ts, now) && (onlyEnded ==> CompletedBefore(turns[i], before)))
  }

  lemma {:induction false} LastInHolds(turns: seq<TurnRecord>, ts: int, now: int, onlyEnded: bool, before: Option<int>) returns (i: int)
    ensures LastIn(turns, ts, now, onlyEnded, before).None? <==> NoneHolds(turns, ts, now, onlyEnded, before)
    ensures LastIn(turns, ts, now, onlyEnded, before).Some? ==>
      IsLastToHold(turns, ts, now, onlyEnded, before, i) && LastIn(turns, ts, now, onlyEnded, before) == Some(turns[i].turnId)
  {
    i := -1;
    if turns != [] {
      var n := |turns| - 1;
      i := LastInHolds(turns[..n], ts, now, onlyEnded, before);
      assert forall j :: 0 <= j < n ==> turns[..n][j] == turns[j];
      if Holds(turns[n], ts, now) && (onlyEnded ==> CompletedBefore(turns[n], before)) { i := n; }
    }
  }

  /** The entry falls in the last turn that holds its time, or outside when none does. */
  ghost predicate FallsIn(e: LogEntry, turns: seq<TurnRecord>, now: int, key: string) {
    || (NoneHolds(turns, e.ts, now, false, None) && key == "outside")
    || (exists i :: IsLastToHold(turns, e.ts, now, false, None, i) && turns[i].turnId == key)
  }

  ghost predicate CoversIt(e: LogEntry, turns: seq<TurnRecord>, now: int, before: Option<int>, key: string) {
    exists i :: IsLastToHold(turns, e.ts, now, true, before, i) && turns[i].turnId == key
  }

  lemma OneLast(turns: seq<TurnRecord>, ts: int, now: int, onlyEnded: bool, before: Option<int>, i: int, j: int)
    requires IsLastToHold(turns, ts, now, onlyEnded, before, i) && IsLastToHold(turns, ts, now, onlyEnded, before, j)
    ensures i == j
  {
  }

  lemma PlaceIs(e: LogEntry, turns: seq<TurnRecord>, now: int, key: string)
    ensures PlaceOf(turns, e, now) == key <==> FallsIn(e, turns, now, key)
  {
    var i := LastInHolds(turns, e.ts, now, false, None);
    if j :| IsLastToHold(turns, e.ts, now, false, None, j) && turns[j].turnId == key { OneLast(turns, e.ts, now, false, None, i, j); }
  }

  lemma CoverIs(e: LogEntry, turns: seq<TurnRecord>, now: int, before: Option<int>, key: string)
    ensures CoverOf(turns, e, now, before) == Some(key) <==> CoversIt(e, turns, now, before, key)
  {
    var i := LastInHolds(turns, e.ts, now, true, before);
    if j :| IsLastToHold(turns, e.ts, now, true, before, j) && turns[j].turnId == key { OneLast(turns, e.ts, now, true, before, i, j); }
  }

  lemma AloneIs(e: LogEntry, turns: seq<TurnRecord>, now: int, before: Option<int>)
    ensures StandsAlone(e, turns, now, before) <==> NoneHolds(turns, e.ts, now, false, None)
  {
    var i := LastInHolds(turns, e.ts, now, true, before);
  }

  lemma {:induction false} PlacedOf(entries: seq<LogEntry>, turns: seq<TurnRecord>, now: int, key: string, meets: LogEntry -> bool) returns (places: seq<nat>)
    requires forall e :: meets(e) <==> PlaceOf(turns, e, now) == key
    ensures ArePicked(entries, meets, places, Placed(entries, turns, now, key))
  {
    if entries == [] {
      places := [];
    } else {
      places := PlacedOf(entries[..|entries| - 1], turns, now, key, meets);
      places := PickNext(entries, meets, places, Placed(entries[..|entries| - 1], turns, now, key));
    }
  }

  /** Placed under a key are, in log order, exactly the entries that fall in that turn. */
  lemma PlacedArePicked(entries: seq<LogEntry>, turns: seq<TurnRecord>, now: int, key: string) returns (places: seq<nat>)
    ensures ArePicked(entries, e => FallsIn(e, turns, now, key), places, Placed(entries, turns, now, key))
  {
    forall e ensures FallsIn(e, turns, now, key) <==> PlaceOf(turns, e, now) == key { PlaceIs(e, turns, now, key); }
    places := PlacedOf(entries, turns, now, key, e => FallsIn(e, turns, now, key));
  }

  lemma {:induction false} CoveringOf(history: seq<LogEntry>, turns: seq<TurnRecord>, now: int, before: Option<int>, key: string, meets: LogEntry -> bool) returns (places: seq<nat>)
    requires forall e :: meets(e) <==> CoverOf(turns, e, now, before) == Some(key)
    ensures ArePicked(history, meets, places, Covering(history, turns, now, before, key))
  {
    if history == [] {
      places := [];
    } else {
      places := CoveringOf(history[..|history| - 1], turns, now, before, key, meets);
      places := PickNext(history, meets, places, Covering(history[..|history| - 1], turns, now, before, key));
    }
  }

  /** History that stands in for a turn is, in log order, what the last turn to hold it of those completed before first sight is given. */
  lemma CoveringArePicked(history: seq<LogEntry>, turns: seq<TurnRecord>, now: int, before: Option<int>, key: string) returns (places: seq<nat>)
    ensures ArePicked(history, e => CoversIt(e, turns, now, before, key), places, Covering(history, turns, now, before, key))
  {
    forall e ensures CoversIt(e, turns, now, before, key) <==> CoverOf(turns, e, now, before) == Some(key) { CoverIs(e, turns, now, before, key); }
    places := CoveringOf(history, turns, now, before, key, e => CoversIt(e, turns, now, before, key));
  }

  lemma {:induction false} AloneOf(history: seq<LogEntry>, turns: seq<TurnRecord>, now: int, before: Option<int>, meets: LogEntry -> bool) returns (places: seq<nat>)
    requires forall e :: meets(e) <==> StandsAlone(e, turns, now, before)
    ensures ArePicked(history, meets, places, Alone(history, turns, now, before))
  {
    if history == [] {
      places := [];
    } else {
      places := AloneOf(history[..|history| - 1], turns, now, before, meets);
      places := PickNext(history, meets, places, Alone(history[..|history| - 1], turns, now, before));
    }
  }

  /** History that stands alone is what no turn holds the time of. */
  lemma AloneArePicked(history: seq<LogEntry>, turns: seq<TurnRecord>, now: int, before: Option<int>) returns (places: seq<nat>)
    ensures ArePicked(history, (e: LogEntry) => NoneHolds(turns, e.ts, now, false, None), places, Alone(history, turns, now, before))
  {
    forall e: LogEntry ensures NoneHolds(turns, e.ts, now, false, None) <==> StandsAlone(e, turns, now, before) { AloneIs(e, turns, now, before); }
    places := AloneOf(history, turns, now, before, (e: LogEntry) => NoneHolds(turns, e.ts, now, false, None));
  }

  // ---- turns in the order they started ----

  ghost predicate StartedBy(turn: TurnRecord, at: int) { at == if turn.startedAt.Some? then turn.startedAt.value else 0 }

  ghost predicate StartsBefore(a: TurnRecord, b: TurnRecord) {
    forall x, y :: StartedBy(a, x) && StartedBy(b, y) ==> x < y
  }

  ghost predicate StartWithIt(a: TurnRecord, b: TurnRecord) {
    forall x, y :: StartedBy(a, x) && StartedBy(b, y) ==> x == y
  }

  /** These are the turns of the ledger at these places, which are exactly those of its real turns. */
  ghost predicate AreTurnsAt(turns: seq<TurnRecord>, places: seq<nat>, shown: seq<TurnRecord>) {
    StandAt(turns, places, shown) && AreAllTurns(turns, places) && NoRepeats(places)
  }

  ghost predicate StandAt(turns: seq<TurnRecord>, places: seq<nat>, shown: seq<TurnRecord>) {
    |places| == |shown| && forall i :: 0 <= i < |places| ==> places[i] < |turns| && turns[places[i]] == shown[i]
  }

  ghost predicate AreAllTurns(turns: seq<TurnRecord>, places: seq<nat>) {
    forall k: nat :: k < |turns| ==> (k in places <==> turns[k].kind == Turn)
  }

  /** By start, and those that start together as they stood. */
  ghost predicate AreInOrder(places: seq<nat>, shown: seq<TurnRecord>)
    requires |places| == |shown|
  {
    forall i, j :: 0 <= i < j < |shown| ==> StartsBefore(shown[i], shown[j]) || (StartWithIt(shown[i], shown[j]) && places[i] < places[j])
  }

  lemma StartsAre(a: TurnRecord, b: TurnRecord)
    ensures StartsBefore(a, b) <==> StartOf(a) < StartOf(b)
    ensures StartWithIt(a, b) <==> StartOf(a) == StartOf(b)
  {
    assert StartedBy(a, StartOf(a)) && StartedBy(b, StartOf(b));
  }

  ghost function Inserted<T>(s: seq<T>, p: nat, x: T): seq<T>
    requires p <= |s|
  {
    s[..p] + [x] + s[p..]
  }

  lemma InsertedHas<T>(s: seq<T>, p: nat, x: T)
    requires p <= |s|
    ensures |Inserted(s, p, x)| == |s| + 1
    ensures forall i :: 0 <= i <= |s| ==> Inserted(s, p, x)[i] == if i < p then s[i] else if i == p then x else s[i - 1]
    ensures forall y :: y in Inserted(s, p, x) <==> y in s || y == x
  {
  }

  lemma InsertedNext<T>(s: seq<T>, p: nat, x: T, last: T)
    requires p <= |s|
    ensures Inserted(s + [last], p, x) == Inserted(s, p, x) + [last]
  {
  }

  lemma {:induction false} InsertedAt(turns: seq<TurnRecord>, turn: TurnRecord) returns (p: nat)
    ensures p <= |turns| && InsertTurn(turns, turn) == Inserted(turns, p, turn)
    ensures forall i :: p <= i < |turns| ==> StartOf(turn) < StartOf(turns[i])
    ensures p > 0 ==> StartOf(turns[p - 1]) <= StartOf(turn)
  {
    if turns == [] || StartOf(turns[|turns| - 1]) <= StartOf(turn) {
      p := |turns|;
    } else {
      var n := |turns| - 1;
      p := InsertedAt(turns[..n], turn);
      assert turns == turns[..n] + [turns[n]];
      InsertedNext(turns[..n], p, turn, turns[n]);
    }
  }

  lemma InsertKeepsPlaces(turns: seq<TurnRecord>, last: TurnRecord, places: seq<nat>, shown: seq<TurnRecord>, p: nat)
    requires last.kind.Turn? && p <= |shown| && AreTurnsAt(turns, places, shown)
    ensures AreTurnsAt(turns + [last], Inserted(places, p, |turns|), Inserted(shown, p, last))
  {
    InsertedHas(places, p, |turns|);
    InsertedHas(shown, p, last);
    InsertOnce(places, p, |turns|);
  }

  lemma InsertOnce(places: seq<nat>, p: nat, n: nat)
    requires NoRepeats(places) && p <= |places| && forall i :: 0 <= i < |places| ==> places[i] < n
    ensures NoRepeats(Inserted(places, p, n))
  {
    InsertedHas(places, p, n);
  }

  lemma OtherKeepsPlaces(turns: seq<TurnRecord>, last: TurnRecord, places: seq<nat>, shown: seq<TurnRecord>)
    requires !last.kind.Turn? && AreTurnsAt(turns, places, shown)
    ensures AreTurnsAt(turns + [last], places, shown)
  {
  }

  lemma InsertKeepsItInOrder(places: seq<nat>, shown: seq<TurnRecord>, turn: TurnRecord, n: nat, p: nat)
    requires |places| == |shown| && AreInOrder(places, shown) && p <= |shown| && forall i :: 0 <= i < |places| ==> places[i] < n
    requires forall i :: p <= i < |shown| ==> StartOf(turn) < StartOf(shown[i])
    requires forall i :: 0 <= i < p ==> StartOf(shown[i]) <= StartOf(turn)
    ensures |Inserted(places, p, n)| == |Inserted(shown, p, turn)| && AreInOrder(Inserted(places, p, n), Inserted(shown, p, turn))
  {
    InsertedHas(places, p, n);
    InsertedHas(shown, p, turn);
    var at, all := Inserted(places, p, n), Inserted(shown, p, turn);
    forall i, j | 0 <= i < j < |all|
      ensures StartsBefore(all[i], all[j]) || (StartWithIt(all[i], all[j]) && at[i] < at[j])
    {
      StartsAre(all[i], all[j]);
    }
  }

  lemma BeforePlace(places: seq<nat>, shown: seq<TurnRecord>, turn: TurnRecord, p: nat)
    requires |places| == |shown| && AreInOrder(places, shown) && 0 < p <= |shown| && StartOf(shown[p - 1]) <= StartOf(turn)
    ensures forall i :: 0 <= i < p ==> StartOf(shown[i]) <= StartOf(turn)
  {
    forall i | 0 <= i < p - 1 ensures StartOf(shown[i]) <= StartOf(shown[p - 1]) { StartsAre(shown[i], shown[p - 1]); }
  }

  /** The turns that views are made for, in order: each real turn of the ledger once, by its start, and those that start together as they stood. */
  lemma {:induction false} RealTurnsInOrder(turns: seq<TurnRecord>) returns (places: seq<nat>)
    ensures AreTurnsAt(turns, places, RealTurns(turns)) && AreInOrder(places, RealTurns(turns))
  {
    if turns == [] {
      places := [];
    } else {
      var before, last := turns[..|turns| - 1], turns[|turns| - 1];
      places := RealTurnsInOrder(before);
      var shown := RealTurns(before);
      assert turns == before + [last];
      if last.kind.Turn? {
        var p := InsertedAt(shown, last);
        InsertKeepsPlaces(before, last, places, shown, p);
        if p > 0 { BeforePlace(places, shown, last, p); }
        InsertKeepsItInOrder(places, shown, last, |before|, p);
        places := Inserted(places, p, |before|);
      } else {
        OtherKeepsPlaces(before, last, places, shown);
      }
    }
  }
}
