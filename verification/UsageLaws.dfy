/** What the usage of a thread keeps: every entry counted once, no turn counted twice, and unpriced tokens told apart exactly. */
module UsageLaws {
  import opened Common
  import opened Tokens
  import opened Ledger
  import opened Figures
  import opened Summary
  import opened ThreadUsage

  // ---- subagent entries ----

  /** How often an entry is among the subagent entries of the views. */
  function SubagentsIn(views: seq<View>, entry: LogEntry): nat {
    if views == [] then 0 else SubagentsIn(views[..|views| - 1], entry) + multiset(views[|views| - 1].subagents)[entry]
  }

  lemma {:induction false} SubagentsJoin(a: seq<View>, b: seq<View>, entry: LogEntry)
    ensures SubagentsIn(a + b, entry) == SubagentsIn(a, entry) + SubagentsIn(b, entry)
  {
    if b == [] {
      assert a + b == a;
    } else {
      assert (a + b)[..|a + b| - 1] == a + b[..|b| - 1];
      SubagentsJoin(a, b[..|b| - 1], entry);
    }
  }

  lemma OneSubagentView(view: View, entry: LogEntry)
    ensures SubagentsIn([view], entry) == multiset(view.subagents)[entry]
  {
    assert [view][..0] == [];
  }

  predicate IsAmong(turns: seq<TurnRecord>, n: int, id: string)
    requires 0 <= n <= |turns|
  {
    exists i :: 0 <= i < n && turns[i].turnId == id
  }

  lemma {:induction false} SubagentsOfTurns(input: UsageInput, turns: seq<TurnRecord>, views: seq<View>, n: nat, entry: LogEntry)
    requires IdsOnce(turns) && n <= |turns| && AreViewsOf(input, turns, views, n)
    ensures SubagentsIn(views, entry) == if IsAmong(turns, n, PlaceOf(turns, entry, input.now)) then multiset(input.logs.subagent)[entry] else 0
  {
    if n > 0 {
      assert forall i :: 0 <= i < n - 1 ==> views[..n - 1][i] == views[i];
      SubagentsOfTurns(input, turns, views[..n - 1], n - 1, entry);
      PlacedOnce(input.logs.subagent, turns, input.now, turns[n - 1].turnId, entry);
      assert IsViewOf(input, turns, turns[n - 1], views[n - 1]);
    }
  }

  lemma FrontHasNoSubagents(input: UsageInput, turns: seq<TurnRecord>, front: seq<View>, entry: LogEntry)
    requires IsFront(input, turns, front)
    ensures SubagentsIn(front, entry) == 0
  {
    if front != [] {
      OneSubagentView(front[0], entry);
      assert front == [front[0]];
    }
  }

  lemma BackHasTheRest(input: UsageInput, turns: seq<TurnRecord>, back: seq<View>, entry: LogEntry)
    requires IsBack(input, turns, back)
    ensures SubagentsIn(back, entry) == if PlaceOf(turns, entry, input.now) == OUTSIDE_TURNS then multiset(input.logs.subagent)[entry] else 0
  {
    PlacedOnce(input.logs.subagent, turns, input.now, OUTSIDE_TURNS, entry);
    if back != [] {
      OneSubagentView(back[0], entry);
      assert back == [back[0]];
    }
  }

  lemma PlacedInATurnOrOutside(turns: seq<TurnRecord>, entry: LogEntry, now: int)
    ensures PlaceOf(turns, entry, now) == OUTSIDE_TURNS || IsAmong(turns, |turns|, PlaceOf(turns, entry, now))
  {
    LastInIsOne(turns, entry.ts, now, false, None);
  }

  /** A turn that goes by the name of what is outside the turns, with entries outside them. */
  predicate OutsideIsATurn(input: UsageInput, turns: seq<TurnRecord>) {
    IsAmong(turns, |turns|, OUTSIDE_TURNS) && Placed(input.logs.subagent, turns, input.now, OUTSIDE_TURNS) != []
  }

  /** An entry lands in one view, but in two where its place is both outside the turns and a turn. */
  lemma SubagentEntryLands(input: UsageInput, front: seq<View>, middle: seq<View>, back: seq<View>, entry: LogEntry)
    requires IdsOnce(input.turns) && IsUsage(input, front, middle, back)
    ensures var turns := RealTurns(input.turns);
      SubagentsIn(front + middle + back, entry) == multiset(input.logs.subagent)[entry]
        + if PlaceOf(turns, entry, input.now) == OUTSIDE_TURNS && IsAmong(turns, |turns|, OUTSIDE_TURNS) then multiset(input.logs.subagent)[entry] else 0
  {
    var turns := RealTurns(input.turns);
    RealTurnsAre(input.turns);
    SubagentsJoin(front, middle, entry);
    SubagentsJoin(front + middle, back, entry);
    FrontHasNoSubagents(input, turns, front, entry);
    BackHasTheRest(input, turns, back, entry);
    SubagentsOfTurns(input, turns, middle, |turns|, entry);
    PlacedInATurnOrOutside(turns, entry, input.now);
  }

  /**
   * Each subagent entry lands in exactly one view, unless a turn's id is the
   * name kept for what is outside the turns and there is such an entry: that
   * one is then counted in both.
   */
  lemma EachSubagentEntryOnce(input: UsageInput, front: seq<View>, middle: seq<View>, back: seq<View>)
    requires IdsOnce(input.turns) && IsUsage(input, front, middle, back)
    ensures (forall entry :: SubagentsIn(front + middle + back, entry) == multiset(input.logs.subagent)[entry])
      <==> !OutsideIsATurn(input, RealTurns(input.turns))
  {
    var turns := RealTurns(input.turns);
    var outside := Placed(input.logs.subagent, turns, input.now, OUTSIDE_TURNS);
    forall entry
      ensures SubagentsIn(front + middle + back, entry) == multiset(input.logs.subagent)[entry]
        <==> !(IsAmong(turns, |turns|, OUTSIDE_TURNS) && entry in outside)
    {
      SubagentEntryLands(input, front, middle, back, entry);
      PlacedOnce(input.logs.subagent, turns, input.now, OUTSIDE_TURNS, entry);
      assert entry in outside <==> multiset(outside)[entry] > 0;
    }
    if outside != [] { assert outside[0] in outside; }
  }

  /** Such a turn makes the figure count an entry twice. */
  lemma OutsideTurnCountsTwice(input: UsageInput, front: seq<View>, middle: seq<View>, back: seq<View>, turn: TurnRecord, entry: LogEntry)
    requires turn.turnId == OUTSIDE_TURNS && turn.kind.Turn? && input.turns == [turn] && input.logs.subagent == [entry]
    requires IsUsage(input, front, middle, back)
    ensures SubagentsIn(front + middle + back, entry) == 2
  {
    SubagentEntryLands(input, front, middle, back, entry);
    PlacedOutsideAndIn(input.turns, turn, entry, input.now);
  }

  lemma PlacedOutsideAndIn(turns: seq<TurnRecord>, turn: TurnRecord, entry: LogEntry, now: int)
    requires turn.turnId == OUTSIDE_TURNS && turn.kind.Turn? && turns == [turn]
    ensures PlaceOf(RealTurns(turns), entry, now) == OUTSIDE_TURNS && IsAmong(RealTurns(turns), |RealTurns(turns)|, OUTSIDE_TURNS)
  {
    RealTurnsAre(turns);
    LastInIsOne(RealTurns(turns), entry.ts, now, false, None);
    assert turn in RealTurns(turns);
    var i :| 0 <= i < |RealTurns(turns)| && RealTurns(turns)[i] == turn;
  }

  // ---- history entries ----

  /** How often an entry is among the history the views of the first n turns count. */
  function HistoryIn(input: UsageInput, turns: seq<TurnRecord>, views: seq<View>, n: nat, entry: LogEntry): nat
    requires n <= |turns| && n <= |views|
  {
    if n == 0 then 0
    else
      HistoryIn(input, turns, views, n - 1, entry)
      + if IsCovered(turns[n - 1], input.logs.history, input.historyBefore) then multiset(views[n - 1].logged)[entry] else 0
  }

  /** Covered turns show the history entries placed in them. */
  ghost predicate HistoryShown(input: UsageInput, turns: seq<TurnRecord>, views: seq<View>) {
    && |views| <= |turns|
    && forall i :: 0 <= i < |views| ==> ShowsHistory(input, turns, turns[i], views[i])
  }

  ghost predicate ShowsHistory(input: UsageInput, turns: seq<TurnRecord>, turn: TurnRecord, view: View) {
    IsCovered(turn, input.logs.history, input.historyBefore) ==>
      view.logged == Covering(input.logs.history, turns, input.now, input.historyBefore, turn.turnId)
  }

  lemma ViewsShowHistory(input: UsageInput, turns: seq<TurnRecord>, views: seq<View>)
    requires AreViewsOf(input, turns, views, |views|)
    ensures HistoryShown(input, turns, views)
  {
    forall i | 0 <= i < |views| ensures ShowsHistory(input, turns, turns[i], views[i]) {
      assert IsViewOf(input, turns, turns[i], views[i]);
    }
  }

  /** The turn is covered, and the last such with the entry in its window. */
  predicate Covers(input: UsageInput, turns: seq<TurnRecord>, turn: TurnRecord, entry: LogEntry) {
    IsCovered(turn, input.logs.history, input.historyBefore) && CoverOf(turns, entry, input.now, input.historyBefore) == Some(turn.turnId)
  }

  /** One of the first n turns covers the entry. */
  predicate CoveredAmong(input: UsageInput, turns: seq<TurnRecord>, n: nat, entry: LogEntry)
    requires n <= |turns|
  {
    n > 0 && (CoveredAmong(input, turns, n - 1, entry) || Covers(input, turns, turns[n - 1], entry))
  }

  lemma {:induction false} CoveredAmongIs(input: UsageInput, turns: seq<TurnRecord>, n: nat, entry: LogEntry)
    requires n <= |turns|
    ensures CoveredAmong(input, turns, n, entry) <==> exists i :: 0 <= i < n && Covers(input, turns, turns[i], entry)
  {
    if n > 0 { CoveredAmongIs(input, turns, n - 1, entry); }
  }

  lemma OnlyOneCovers(input: UsageInput, turns: seq<TurnRecord>, n: nat, entry: LogEntry)
    requires IdsOnce(turns) && n < |turns| && Covers(input, turns, turns[n], entry)
    ensures !CoveredAmong(input, turns, n, entry)
  {
    CoveredAmongIs(input, turns, n, entry);
  }

  lemma HistoryOfTurn(input: UsageInput, turns: seq<TurnRecord>, views: seq<View>, n: nat, entry: LogEntry)
    requires n < |turns| && n < |views| && ShowsHistory(input, turns, turns[n], views[n])
    ensures HistoryIn(input, turns, views, n + 1, entry) == HistoryIn(input, turns, views, n, entry)
      + if Covers(input, turns, turns[n], entry) then multiset(input.logs.history)[entry] else 0
  {
    if IsCovered(turns[n], input.logs.history, input.historyBefore) {
      CoveringOnce(input.logs.history, turns, input.now, input.historyBefore, turns[n].turnId, entry);
    }
  }

  lemma {:induction false} HistoryOfTurns(input: UsageInput, turns: seq<TurnRecord>, views: seq<View>, n: nat, entry: LogEntry)
    requires IdsOnce(turns) && n <= |views| && HistoryShown(input, turns, views)
    ensures HistoryIn(input, turns, views, n, entry) == if CoveredAmong(input, turns, n, entry) then multiset(input.logs.history)[entry] else 0
  {
    if n > 0 {
      HistoryOfTurns(input, turns, views, n - 1, entry);
      HistoryOfTurn(input, turns, views, n - 1, entry);
      if Covers(input, turns, turns[n - 1], entry) { OnlyOneCovers(input, turns, n - 1, entry); }
    }
  }

  /** How often the views count an entry of log history: those of covered turns, and the one that stands before them. */
  function HistoryCounted(input: UsageInput, turns: seq<TurnRecord>, front: seq<View>, middle: seq<View>, entry: LogEntry): nat
    requires |turns| == |middle|
  {
    HistoryIn(input, turns, middle, |turns|, entry) + if front != [] && front[0].kind.HistoryView? then multiset(front[0].logged)[entry] else 0
  }

  /**
   * Each history entry lands in at most one view: the covered turn whose
   * window holds it, the history view when it stands alone, else, inside a
   * turn the ledger counts, none.
   */
  lemma EachHistoryEntryAtMostOnce(input: UsageInput, front: seq<View>, middle: seq<View>, back: seq<View>, entry: LogEntry)
    requires IdsOnce(input.turns) && IsUsage(input, front, middle, back)
    ensures var turns := RealTurns(input.turns);
      HistoryCounted(input, turns, front, middle, entry) ==
        if CoverOf(turns, entry, input.now, input.historyBefore).Some? || StandsAlone(entry, turns, input.now, input.historyBefore)
        then multiset(input.logs.history)[entry] else 0
  {
    var turns := RealTurns(input.turns);
    RealTurnsAre(input.turns);
    ViewsShowHistory(input, turns, middle);
    HistoryOfTurns(input, turns, middle, |turns|, entry);
    AloneOnce(input.logs.history, turns, input.now, input.historyBefore, entry);
    LastInIsOne(turns, entry.ts, input.now, true, input.historyBefore);
    CoveredAmongIs(input, turns, |turns|, entry);
    if CoverOf(turns, entry, input.now, input.historyBefore).Some? && !CoveredAmong(input, turns, |turns|, entry) {
      assert input.logs.history == [];
    }
  }

  // ---- turns are not counted twice ----

  /** What a turn's view counts besides its subagents: the entries that replace its tokens, or its ledger tokens, and where history covers it neither but that. */
  function CountedOwn(input: UsageInput, turn: TurnRecord, view: View): RequestTokens {
    if view.logged != [] then SumTokens(EntryParts(view.logged, turn.model))
    else if IsCovered(turn, input.logs.history, input.historyBefore) then NO_REQUEST
    else Requests(turn.tokens)
  }

  /** A turn's ledger tokens are never counted together with the log entries that replace them. */
  lemma LedgerOrLogs(input: UsageInput, turns: seq<TurnRecord>, turn: TurnRecord, view: View)
    requires IsViewOf(input, turns, turn, view)
    ensures Requests(view.tokens) == AddRequests(CountedOwn(input, turn, view), SumTokens(SubParts(view.subagents)))
  {
    OnePart(input.prices, UsedPart(turn.model, LedgerTokensOf(input, turns, turn)));
  }

  // ---- unpriced tokens ----

  predicate ViewPriced(prices: PriceBook, view: View) { AnyPriced(prices, view.own) || AnyPriced(prices, SubParts(view.subagents)) }

  predicate SomePriced(prices: PriceBook, views: seq<View>) { exists i :: 0 <= i < |views| && ViewPriced(prices, views[i]) }

  lemma ViewUnpricedIff(prices: PriceBook, view: View)
    requires ViewOk(prices, view)
    ensures view.unpriced <= TotalOf(Requests(view.tokens))
    ensures view.unpriced == TotalOf(Requests(view.tokens)) <==> !ViewPriced(prices, view)
  {
    AllUnpricedIff(prices, view.own);
    AllUnpricedIff(prices, SubParts(view.subagents));
    TotalOfSum(SumTokens(view.own), SumTokens(SubParts(view.subagents)));
  }

  lemma TotalOfSum(a: RequestTokens, b: RequestTokens)
    ensures TotalOf(AddRequests(a, b)) == TotalOf(a) + TotalOf(b)
  {
  }

  ghost predicate AllViewsOk(prices: PriceBook, views: seq<View>) { forall i :: 0 <= i < |views| ==> ViewOk(prices, views[i]) }

  lemma SomePricedOn(prices: PriceBook, views: seq<View>, last: View)
    ensures SomePriced(prices, views + [last]) <==> SomePriced(prices, views) || ViewPriced(prices, last)
  {
    var more := views + [last];
    if SomePriced(prices, views) {
      var i :| 0 <= i < |views| && ViewPriced(prices, views[i]);
      assert more[i] == views[i];
    }
    if ViewPriced(prices, last) { assert more[|views|] == last; }
  }

  lemma SomePricedSplits(prices: PriceBook, views: seq<View>)
    requires views != []
    ensures SomePriced(prices, views) <==> SomePriced(prices, views[..|views| - 1]) || ViewPriced(prices, views[|views| - 1])
  {
    assert views == views[..|views| - 1] + [views[|views| - 1]];
    SomePricedOn(prices, views[..|views| - 1], views[|views| - 1]);
  }

  function UnpricedIn(views: seq<View>): nat {
    if views == [] then 0 else UnpricedIn(views[..|views| - 1]) + views[|views| - 1].unpriced
  }

  function TokensIn(views: seq<View>): nat {
    if views == [] then 0 else TokensIn(views[..|views| - 1]) + TotalTokens(views[|views| - 1].tokens)
  }

  lemma {:induction false} SumsOfViews(views: seq<View>)
    ensures SumViews(views).unpriced == UnpricedIn(views) && TotalOf(SumViews(views).tokens) == TokensIn(views)
  {
    if views != [] {
      var rest, last := views[..|views| - 1], views[|views| - 1];
      SumsOfViews(rest);
      TotalAdds(SumViews(rest).tokens, last.tokens);
    }
  }

  lemma UnpricedOneMore(prices: PriceBook, last: View, unpriced: nat, tokens: nat)
    requires ViewOk(prices, last) && unpriced <= tokens
    ensures unpriced + last.unpriced <= tokens + TotalTokens(last.tokens)
    ensures unpriced + last.unpriced == tokens + TotalTokens(last.tokens) <==> unpriced == tokens && !ViewPriced(prices, last)
  {
    ViewUnpricedIff(prices, last);
  }

  lemma {:induction false} UnpricedInIff(prices: PriceBook, views: seq<View>)
    requires AllViewsOk(prices, views)
    ensures UnpricedIn(views) <= TokensIn(views)
    ensures UnpricedIn(views) == TokensIn(views) <==> !SomePriced(prices, views)
  {
    if views != [] {
      var rest, last := views[..|views| - 1], views[|views| - 1];
      UnpricedInIff(prices, rest);
      SomePricedSplits(prices, views);
      UnpricedOneMore(prices, last, UnpricedIn(rest), TokensIn(rest));
    }
  }

  /** The views' unpriced tokens are all their tokens exactly when no token of theirs was priced. */
  lemma ViewsUnpricedIff(prices: PriceBook, views: seq<View>)
    requires AllViewsOk(prices, views)
    ensures SumViews(views).unpriced <= TotalOf(SumViews(views).tokens)
    ensures SumViews(views).unpriced == TotalOf(SumViews(views).tokens) <==> !SomePriced(prices, views)
  {
    SumsOfViews(views);
    UnpricedInIff(prices, views);
  }

  lemma MiddleOk(input: UsageInput, turns: seq<TurnRecord>, middle: seq<View>)
    requires AreViewsOf(input, turns, middle, |middle|)
    ensures AllViewsOk(input.prices, middle)
  {
    forall i | 0 <= i < |middle| ensures ViewOk(input.prices, middle[i]) {
      assert IsViewOf(input, turns, turns[i], middle[i]);
    }
  }

  lemma FrontOk(input: UsageInput, turns: seq<TurnRecord>, front: seq<View>)
    requires IsFront(input, turns, front)
    ensures AllViewsOk(input.prices, front)
  {
  }

  lemma BackOk(input: UsageInput, turns: seq<TurnRecord>, back: seq<View>)
    requires IsBack(input, turns, back)
    ensures AllViewsOk(input.prices, back)
  {
  }

  lemma OkJoin(prices: PriceBook, a: seq<View>, b: seq<View>)
    requires AllViewsOk(prices, a) && AllViewsOk(prices, b)
    ensures AllViewsOk(prices, a + b)
  {
    forall i | 0 <= i < |a + b| ensures ViewOk(prices, (a + b)[i]) {
      if i < |a| { assert (a + b)[i] == a[i]; } else { assert (a + b)[i] == b[i - |a|]; }
    }
  }

  /**
   * A thread's unpriced tokens never exceed its tokens, and are all of them
   * exactly when none was priced.
   */
  lemma FigureUnpricedIff(input: UsageInput, figure: Figure, front: seq<View>, middle: seq<View>, back: seq<View>)
    requires IsUsage(input, front, middle, back) && CountedTotals(figure.totals) == SumViews(front + middle + back)
    ensures figure.totals.unpriced <= TotalTokens(figure.totals.tokens)
    ensures figure.totals.unpriced == TotalTokens(figure.totals.tokens) <==> !SomePriced(input.prices, front + middle + back)
  {
    MiddleOk(input, RealTurns(input.turns), middle);
    FrontOk(input, RealTurns(input.turns), front);
    BackOk(input, RealTurns(input.turns), back);
    OkJoin(input.prices, front, middle);
    OkJoin(input.prices, front + middle, back);
    ViewsUnpricedIff(input.prices, front + middle + back);
  }
}
