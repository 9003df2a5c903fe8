/** What a view counts and costs and what a figure adds up, in the fields of turns, entries and prices. */
module ViewLaws {
  import opened Common
  import opened Tokens
  import opened Ledger
  import opened LedgerRequests
  import opened Pricing
  import opened PricingLaws
  import opened Figures
  import opened Summary
  import opened EntryLaws
  import opened ThreadUsage
  import Usage = ThreadUsage

  // ---- sums over entries and views ----

  ghost function SumOf(entries: seq<LogEntry>, of: LogEntry -> nat): nat {
    if entries == [] then 0 else SumOf(entries[..|entries| - 1], of) + of(entries[|entries| - 1])
  }

  ghost predicate HasPrice(prices: PriceBook, model: Option<string>) { model.Some? && model.value in prices }

  /** Tokens of a model without a price. */
  ghost function WithoutPrice(prices: PriceBook, model: Option<string>, t: Tokens): nat {
    if HasPrice(prices, model) then 0 else t.input + t.output + t.cacheRead + t.cacheWrite
  }

  ghost function NameOf(e: LogEntry, fallback: Option<string>): Option<string> { if e.model != None then e.model else fallback }

  lemma {:induction false} PartsSum(prices: PriceBook, entries: seq<LogEntry>, fallback: Option<string>)
    ensures SumTokens(EntryParts(entries, fallback)) == RequestTokens(
              SumOf(entries, (e: LogEntry) => e.tokens.input), SumOf(entries, (e: LogEntry) => e.tokens.output),
              SumOf(entries, (e: LogEntry) => e.tokens.cacheRead), SumOf(entries, (e: LogEntry) => e.tokens.cacheWrite))
    ensures SumUnpriced(prices, EntryParts(entries, fallback)) == SumOf(entries, (e: LogEntry) => WithoutPrice(prices, NameOf(e, fallback), e.tokens))
  {
    if entries != [] {
      var n := |entries| - 1;
      PartsSum(prices, entries[..n], fallback);
      assert EntryParts(entries, fallback)[..n] == EntryParts(entries[..n], fallback);
    }
  }

  // ---- what a turn's view counts ----

  /** There is log history, and the turn completed before the thread was first seen. */
  ghost predicate HistoryCovers(input: UsageInput, turn: TurnRecord) {
    input.logs.history != [] && CompletedBefore(turn, input.historyBefore)
  }

  /** The entries counted in the place of the turn's own tokens. */
  ghost predicate AreCountedInstead(input: UsageInput, turns: seq<TurnRecord>, turn: TurnRecord, logged: seq<LogEntry>) {
    if HistoryCovers(input, turn) then exists places :: AreCovering(input, turns, turn, places, logged)
    else if turn.partial then exists places :: FallThere(input.logs.gapFill, input, turns, turn, places, logged)
    else logged == []
  }

  ghost predicate AreCovering(input: UsageInput, turns: seq<TurnRecord>, turn: TurnRecord, places: seq<nat>, logged: seq<LogEntry>) {
    ArePicked(input.logs.history, e => CoversIt(e, turns, input.now, input.historyBefore, turn.turnId), places, logged)
  }

  /** These are the entries of the log that fall in the turn. */
  ghost predicate FallThere(log: seq<LogEntry>, input: UsageInput, turns: seq<TurnRecord>, turn: TurnRecord, places: seq<nat>, entries: seq<LogEntry>) {
    ArePicked(log, e => FallsIn(e, turns, input.now, turn.turnId), places, entries)
  }

  ghost predicate AreItsSubagents(input: UsageInput, turns: seq<TurnRecord>, turn: TurnRecord, entries: seq<LogEntry>) {
    exists places :: FallThere(input.logs.subagent, input, turns, turn, places, entries)
  }

  lemma ReplacingIs(input: UsageInput, turns: seq<TurnRecord>, turn: TurnRecord)
    ensures AreCountedInstead(input, turns, turn, Replacing(input, turns, turn))
  {
    if HistoryCovers(input, turn) {
      var places := CoveringArePicked(input.logs.history, turns, input.now, input.historyBefore, turn.turnId);
      assert AreCovering(input, turns, turn, places, Replacing(input, turns, turn));
    } else if turn.partial {
      var places := PlacedArePicked(input.logs.gapFill, turns, input.now, turn.turnId);
      assert FallThere(input.logs.gapFill, input, turns, turn, places, Replacing(input, turns, turn));
    }
  }

  lemma SubagentsAre(input: UsageInput, turns: seq<TurnRecord>, turn: TurnRecord)
    ensures AreItsSubagents(input, turns, turn, Placed(input.logs.subagent, turns, input.now, turn.turnId))
  {
    var places := PlacedArePicked(input.logs.subagent, turns, input.now, turn.turnId);
    assert FallThere(input.logs.subagent, input, turns, turn, places, Placed(input.logs.subagent, turns, input.now, turn.turnId));
  }

  /** One kind of a view's tokens: that of the entries counted instead, else nothing where history covers the turn, else the ledger's; and its subagents'. */
  ghost function CountOf(input: UsageInput, turn: TurnRecord, view: View, ledger: nat, of: LogEntry -> nat): nat {
    SumOf(view.subagents, of) + if view.logged != [] then SumOf(view.logged, of) else if HistoryCovers(input, turn) then 0 else ledger
  }

  ghost predicate CountsKinds(input: UsageInput, turn: TurnRecord, view: View) {
    && view.tokens.input == CountOf(input, turn, view, turn.tokens.input, (e: LogEntry) => e.tokens.input)
    && view.tokens.output == CountOf(input, turn, view, turn.tokens.output, (e: LogEntry) => e.tokens.output)
    && view.tokens.cacheRead == CountOf(input, turn, view, turn.tokens.cacheRead, (e: LogEntry) => e.tokens.cacheRead)
    && view.tokens.cacheWrite == CountOf(input, turn, view, turn.tokens.cacheWrite, (e: LogEntry) => e.tokens.cacheWrite)
  }

  lemma LedgerKinds(input: UsageInput, turns: seq<TurnRecord>, turn: TurnRecord)
    ensures var tokens := LedgerTokensOf(input, turns, turn);
      if HistoryCovers(input, turn) then tokens == Tokens(0, 0, 0, 0, 0, 0) else tokens == turn.tokens.(cacheWrite1h := tokens.cacheWrite1h)
  {
  }

  lemma OwnKinds(input: UsageInput, turns: seq<TurnRecord>, turn: TurnRecord, own: seq<UsedPart>)
    requires own == [UsedPart(turn.model, LedgerTokensOf(input, turns, turn))]
    ensures SumTokens(own) == (if HistoryCovers(input, turn) then RequestTokens(0, 0, 0, 0)
      else RequestTokens(turn.tokens.input, turn.tokens.output, turn.tokens.cacheRead, turn.tokens.cacheWrite))
    ensures SumUnpriced(input.prices, own) == if HistoryCovers(input, turn) then 0 else WithoutPrice(input.prices, turn.model, turn.tokens)
  {
    LedgerKinds(input, turns, turn);
    OneOwn(input.prices, turn.model, LedgerTokensOf(input, turns, turn));
    SameCounts(input.prices, turn.model, LedgerTokensOf(input, turns, turn), turn.tokens, HistoryCovers(input, turn));
  }

  lemma SameCounts(prices: PriceBook, model: Option<string>, ledger: Tokens, tokens: Tokens, covered: bool)
    requires if covered then ledger == Tokens(0, 0, 0, 0, 0, 0) else ledger == tokens.(cacheWrite1h := ledger.cacheWrite1h)
    ensures WithoutPrice(prices, model, ledger) == if covered then 0 else WithoutPrice(prices, model, tokens)
  {
  }

  lemma OneOwn(prices: PriceBook, model: Option<string>, t: Tokens)
    ensures SumTokens([UsedPart(model, t)]) == RequestTokens(t.input, t.output, t.cacheRead, t.cacheWrite)
    ensures SumUnpriced(prices, [UsedPart(model, t)]) == WithoutPrice(prices, model, t)
  {
    OnePart(prices, UsedPart(model, t));
  }

  ghost predicate CountsUnpriced(input: UsageInput, turn: TurnRecord, view: View) {
    view.unpriced == SumOf(view.subagents, (e: LogEntry) => WithoutPrice(input.prices, NameOf(e, None), e.tokens))
      + if view.logged != [] then SumOf(view.logged, (e: LogEntry) => WithoutPrice(input.prices, NameOf(e, turn.model), e.tokens))
        else if HistoryCovers(input, turn) then 0
        else WithoutPrice(input.prices, turn.model, turn.tokens)
  }

  /**
   * A turn's view counts its ledger tokens or the entries that stand in for
   * them, and the subagents' entries that fall in it; and of each it counts
   * as unpriced what has no price under its own name.
   */
  lemma TurnCounts(input: UsageInput, turns: seq<TurnRecord>, turn: TurnRecord, view: View)
    requires IsViewOf(input, turns, turn, view)
    ensures AreCountedInstead(input, turns, turn, view.logged) && AreItsSubagents(input, turns, turn, view.subagents)
    ensures CountsKinds(input, turn, view) && CountsUnpriced(input, turn, view)
  {
    ReplacingIs(input, turns, turn);
    SubagentsAre(input, turns, turn);
    if view.logged != [] {
      LoggedCounts(input, turn, view);
    } else {
      OwnKinds(input, turns, turn, view.own);
      OwnCounts(input, turn, view);
    }
  }

  lemma LoggedCounts(input: UsageInput, turn: TurnRecord, view: View)
    requires ViewOk(input.prices, view) && view.logged != [] && view.own == EntryParts(view.logged, turn.model)
    ensures CountsKinds(input, turn, view) && CountsUnpriced(input, turn, view)
  {
    PartsSum(input.prices, view.subagents, None);
    PartsSum(input.prices, view.logged, turn.model);
  }

  lemma OwnCounts(input: UsageInput, turn: TurnRecord, view: View)
    requires ViewOk(input.prices, view) && view.logged == []
    requires SumTokens(view.own) == if HistoryCovers(input, turn) then RequestTokens(0, 0, 0, 0)
      else RequestTokens(turn.tokens.input, turn.tokens.output, turn.tokens.cacheRead, turn.tokens.cacheWrite)
    requires SumUnpriced(input.prices, view.own) == if HistoryCovers(input, turn) then 0 else WithoutPrice(input.prices, turn.model, turn.tokens)
    ensures CountsKinds(input, turn, view) && CountsUnpriced(input, turn, view)
  {
    PartsSum(input.prices, view.subagents, None);
  }

  // ---- what it costs ----

  /** The dollars of one request: none without tokens or a price, else at the rates its own prompt is charged. */
  ghost predicate IsUsdOf(prices: PriceBook, model: Option<string>, t: Tokens, usd: real) {
    if t.input + t.output + t.cacheRead + t.cacheWrite == 0 || !HasPrice(prices, model) then usd == 0.0
    else exists tier :: IsTierOf(prices[model.value], t.input + t.cacheRead + t.cacheWrite, tier) && usd == UsdFor(CountsOf(t, 1.0), prices[model.value], tier)
  }

  /** The dollars of tokens of no one request: at the base rates. */
  ghost predicate IsUsdTogether(prices: PriceBook, model: Option<string>, t: Tokens, usd: real) {
    if t.input + t.output + t.cacheRead + t.cacheWrite == 0 || !HasPrice(prices, model) then usd == 0.0
    else usd == UsdFor(CountsOf(t, 1.0), prices[model.value], None)
  }

  lemma RequestUsd(prices: PriceBook, model: Option<string>, t: Tokens)
    ensures IsUsdOf(prices, model, t, EstimateOf(prices, model, t, Some(PromptTokens(t))).usd)
  {
    if HasPrice(prices, model) {
      var tier := TierFor(prices[model.value], Some(PromptTokens(t)));
      TierIsOf(prices[model.value], PromptTokens(t));
      CountsAre(t, 1.0);
      CostsAt(AmountsOf(t), prices[model.value], Some(PromptTokens(t)), tier);
    }
  }

  lemma TogetherUsd(prices: PriceBook, model: Option<string>, t: Tokens)
    ensures IsUsdTogether(prices, model, t, EstimateOf(prices, model, t, None).usd)
  {
    if HasPrice(prices, model) { SummedTokensCost(t, prices[model.value]); }
  }

  ghost function AddUp(dollars: seq<real>): real {
    if dollars == [] then 0.0 else AddUp(dollars[..|dollars| - 1]) + dollars[|dollars| - 1]
  }

  /** The dollars of log entries, each a request of its own. */
  ghost predicate AreUsdOf(prices: PriceBook, entries: seq<LogEntry>, fallback: Option<string>, dollars: seq<real>) {
    |dollars| == |entries| && forall i :: 0 <= i < |entries| ==> IsUsdOf(prices, NameOf(entries[i], fallback), entries[i].tokens, dollars[i])
  }

  lemma {:induction false} EntriesCost(prices: PriceBook, entries: seq<LogEntry>, fallback: Option<string>) returns (dollars: seq<real>)
    ensures AreUsdOf(prices, entries, fallback, dollars) && SumEntryUsd(prices, entries, fallback) == AddUp(dollars)
  {
    dollars := [];
    if entries != [] {
      var last := entries[|entries| - 1];
      var before := EntriesCost(prices, entries[..|entries| - 1], fallback);
      dollars := before + [EntryUsd(prices, last, fallback)];
      RequestUsd(prices, NameOf(last, fallback), last.tokens);
      assert dollars[..|before|] == before;
    }
  }

  /** A view costs what it counts: its own dollars, and those of its subagents' requests one by one. */
  lemma SubagentsCost(prices: PriceBook, view: View) returns (dollars: seq<real>)
    requires ViewUsd(prices, view)
    ensures AreUsdOf(prices, view.subagents, None, dollars) && view.usd == view.ownUsd + AddUp(dollars)
  {
    dollars := EntriesCost(prices, view.subagents, None);
  }

  /** Entries counted instead of a turn's own tokens cost what each does as a request, under its own name or the turn's. */
  lemma InsteadCosts(input: UsageInput, turns: seq<TurnRecord>, turn: TurnRecord, view: View) returns (dollars: seq<real>)
    requires IsCostOf(input, turns, turn, view) && view.logged != []
    ensures AreUsdOf(input.prices, view.logged, turn.model, dollars) && view.ownUsd == AddUp(dollars)
  {
    dollars := EntriesCost(input.prices, view.logged, turn.model);
  }

  /**
   * Of a turn whose requests the ledger does not know one by one, the tokens
   * go together, with the hour-long part of its cache writes that the ledger
   * or the entries logged in the turn tell.
   */
  lemma TogetherCost(input: UsageInput, turns: seq<TurnRecord>, turn: TurnRecord, view: View) returns (hour: nat)
    requires IsCostOf(input, turns, turn, view) && view.logged == [] && (turn.requests == None || turn.requests == Some([]))
    requires !HistoryCovers(input, turn)
    ensures IsHourPart(input, turns, turn, hour)
    ensures IsUsdTogether(input.prices, turn.model, turn.tokens.(cacheWrite1h := hour), view.ownUsd)
  {
    hour := HourPartIs(input, turns, turn);
    TogetherUsd(input.prices, turn.model, LedgerTokensOf(input, turns, turn));
  }

  /** One whose requests it knows costs them one by one: each at its own prompt and less the part of its writes in the line for hour-long ones. */
  lemma RequestsCost(input: UsageInput, turns: seq<TurnRecord>, turn: TurnRecord, view: View) returns (hour: nat, keep: real, dollars: seq<real>)
    requires IsCostOf(input, turns, turn, view) && view.logged == [] && turn.requests.Some? && turn.requests.value != [] && !HistoryCovers(input, turn)
    ensures IsHourPart(input, turns, turn, hour) && IsKeptPart(AsSent(turn.requests.value), hour, keep)
    ensures if CostsNothing(input.prices, turn.model, turn.requests.value) then view.ownUsd == 0.0
      else IsUsdOfRequests(input.prices[turn.model.value], AsSent(turn.requests.value), hour, keep, dollars, view.ownUsd, view.oneHour)
  {
    OwnCostsHas(input, turns, turn, view);
    hour := HourPartIs(input, turns, turn);
    keep, dollars := CostByRequests(input.prices, turn, LedgerTokensOf(input, turns, turn), view.ownUsd, view.oneHour);
  }

  lemma OwnCostsHas(input: UsageInput, turns: seq<TurnRecord>, turn: TurnRecord, view: View)
    requires IsCostOf(input, turns, turn, view) && view.logged == [] && !HistoryCovers(input, turn)
    ensures OwnUsd(view.ownUsd, view.oneHour) in OwnCosts(input.prices, turn, LedgerTokensOf(input, turns, turn))
  {
  }

  datatype OwnUsd = OwnUsd(usd: real, oneHour: Option<OneHourLine>)

  ghost function OwnCosts(prices: PriceBook, turn: TurnRecord, ledger: Tokens): iset<OwnUsd> {
    iset own: OwnUsd | OwnCost(prices, turn, [], ledger, false, own.usd, own.oneHour)
  }

  lemma CostByRequests(prices: PriceBook, turn: TurnRecord, ledger: Tokens, usd: real, oneHour: Option<OneHourLine>)
    returns (keep: real, dollars: seq<real>)
    requires OwnUsd(usd, oneHour) in OwnCosts(prices, turn, ledger) && turn.requests.Some? && turn.requests.value != []
    ensures IsKeptPart(AsSent(turn.requests.value), ledger.cacheWrite1h, keep)
    ensures if CostsNothing(prices, turn.model, turn.requests.value) then usd == 0.0
      else IsUsdOfRequests(prices[turn.model.value], AsSent(turn.requests.value), ledger.cacheWrite1h, keep, dollars, usd, oneHour)
  {
    var est :| est in RequestEstimates(prices, turn.model, AsTokens(turn.requests.value), ledger.cacheWrite1h) && est.usd == usd && est.oneHour == oneHour;
    keep, dollars := EstimateCosts(prices, turn.model, turn.requests.value, ledger.cacheWrite1h, est);
  }

  ghost predicate CostsNothing(prices: PriceBook, model: Option<string>, requests: seq<RequestTokens>) {
    !HasPrice(prices, model) || SumWrites(AsSent(requests)) + SumOthers(requests) == 0
  }

  /** The requests' own dollars, and those of the line for the hour-long writes, which is there exactly when there are such. */
  ghost predicate IsUsdOfRequests(price: ModelPrice, sent: seq<Tokens>, hour: nat, keep: real, dollars: seq<real>, usd: real, oneHour: Option<OneHourLine>) {
    var hours := if hour < SumWrites(sent) then hour else SumWrites(sent);
    && AreUsdKeeping(price, sent, keep, dollars)
    && usd == AddUp(dollars) + (if oneHour.Some? then oneHour.value.usd else 0.0)
    && (oneHour.Some? <==> hours > 0)
    && (oneHour.Some? ==> oneHour.value.tokens == hours && LineAt(oneHour.value, sent, price))
  }

  lemma EstimateCosts(prices: PriceBook, model: Option<string>, requests: seq<RequestTokens>, hour: nat, est: Estimate) returns (keep: real, dollars: seq<real>)
    requires est in RequestEstimates(prices, model, AsTokens(requests), hour)
    ensures IsKeptPart(AsSent(requests), hour, keep)
    ensures if CostsNothing(prices, model, requests) then est.usd == 0.0
      else IsUsdOfRequests(prices[model.value], AsSent(requests), hour, keep, dollars, est.usd, est.oneHour)
  {
    var sent := AsSent(requests);
    assert sent == AsTokens(requests);
    keep, dollars := KeepOf(sent, hour), [];
    KeepsPart(sent, hour);
    SumsWrites(sent);
    SumsAll(requests);
    if HasPrice(prices, model) { dollars := RequestDollars(prices[model.value], sent, hour, keep); }
  }

  /** A request as it was sent, by its four kinds; bb does not tell its hour-long writes. */
  ghost function AsSent(requests: seq<RequestTokens>): seq<Tokens> {
    seq(|requests|, i requires 0 <= i < |requests| => Tokens(requests[i].input, requests[i].output, requests[i].cacheRead, requests[i].cacheWrite, 0, 0))
  }

  /** The kinds but the writes. */
  ghost function SumOthers(requests: seq<RequestTokens>): nat {
    if requests == [] then 0
    else SumOthers(requests[..|requests| - 1]) + requests[|requests| - 1].input + requests[|requests| - 1].output + requests[|requests| - 1].cacheRead
  }

  lemma {:induction false} SumsAll(requests: seq<RequestTokens>)
    ensures TotalTokens(AllTokens(AsSent(requests))) == TotalWrites(AsSent(requests)) + SumOthers(requests)
  {
    if requests != [] {
      var n := |requests| - 1;
      SumsAll(requests[..n]);
      assert AsSent(requests)[..n] == AsSent(requests[..n]);
    }
  }

  ghost predicate AreUsdKeeping(price: ModelPrice, requests: seq<Tokens>, keep: real, dollars: seq<real>) {
    |dollars| == |requests| && forall i :: 0 <= i < |requests| ==> IsUsdKeeping(price, requests[i], keep, dollars[i])
  }

  ghost predicate IsUsdKeeping(price: ModelPrice, t: Tokens, keep: real, usd: real) {
    exists tier :: IsTierOf(price, t.input + t.cacheRead + t.cacheWrite, tier) && usd == UsdFor(CountsOf(t, keep), price, tier)
  }

  lemma RequestDollars(price: ModelPrice, requests: seq<Tokens>, hour: nat, keep: real) returns (dollars: seq<real>)
    requires keep == KeepOf(requests, hour)
    ensures AreUsdKeeping(price, requests, keep, dollars) && SumUsd(PricedRequests(requests, price, keep)) == AddUp(dollars)
  {
    var priced := PricedRequests(requests, price, keep);
    WritesAddUp(requests, hour);
    dollars := seq(|priced|, i requires 0 <= i < |priced| => priced[i].usd);
    forall i | 0 <= i < |requests| ensures IsUsdKeeping(price, requests[i], keep, priced[i].usd) {
      var tier := TierFor(price, Some(PromptTokens(requests[i])));
      TierIsOf(price, PromptTokens(requests[i]));
      EachRequestCosts(requests, price, hour, i, tier, keep);
    }
    UsdOfPriced(priced);
  }

  lemma {:induction false} UsdOfPriced(priced: seq<PricedRequest>)
    ensures SumUsd(priced) == AddUp(seq(|priced|, i requires 0 <= i < |priced| => priced[i].usd))
  {
    if priced != [] {
      var n := |priced| - 1;
      UsdOfPriced(priced[..n]);
      assert seq(|priced|, i requires 0 <= i < |priced| => priced[i].usd)[..n] == seq(n, i requires 0 <= i < n => priced[..n][i].usd);
    }
  }

  /** A turn that history covers and no entry stands in for costs nothing. */
  lemma CoveredCostsNothing(input: UsageInput, turns: seq<TurnRecord>, turn: TurnRecord, view: View)
    requires IsCostOf(input, turns, turn, view) && view.logged == [] && HistoryCovers(input, turn)
    ensures view.ownUsd == 0.0
  {
    TogetherUsd(input.prices, turn.model, ZERO_TOKENS);
  }

  /**
   * The hour-long part of a turn's cache writes: as the ledger says, or where
   * it says none, the share of the writes logged in the turn, to the nearest
   * token and a half upwards.
   */
  ghost predicate IsHourPart(input: UsageInput, turns: seq<TurnRecord>, turn: TurnRecord, hour: nat) {
    exists entries, places :: FallThere(input.logs.cacheWrites, input, turns, turn, places, entries) && IsShareOf(turn.tokens, entries, hour)
  }

  ghost predicate IsShareOf(t: Tokens, entries: seq<LogEntry>, hour: nat) {
    var writes := SumOf(entries, (e: LogEntry) => e.tokens.cacheWrite);
    var hours := SumOf(entries, (e: LogEntry) => if e.tokens.cacheWrite1h < e.tokens.cacheWrite then e.tokens.cacheWrite1h else e.tokens.cacheWrite);
    if t.cacheWrite1h > 0 || hours == 0 then hour == t.cacheWrite1h else IsRounded(hour, t.cacheWrite * hours, writes)
  }

  /** `n / d` to the nearest whole number, a half upwards. */
  ghost predicate IsRounded(whole: nat, n: nat, d: nat) { 2 * (whole * d) <= 2 * n + d < 2 * (whole * d) + 2 * d }

  lemma {:induction false} LoggedAre(entries: seq<LogEntry>)
    ensures LoggedWrites(entries).0 == SumOf(entries, (e: LogEntry) => e.tokens.cacheWrite)
    ensures LoggedWrites(entries).1
      == SumOf(entries, (e: LogEntry) => if e.tokens.cacheWrite1h < e.tokens.cacheWrite then e.tokens.cacheWrite1h else e.tokens.cacheWrite)
  {
    if entries != [] { LoggedAre(entries[..|entries| - 1]); }
  }

  lemma ShareIs(cacheWrite: nat, hours: nat, writes: nat)
    requires writes > 0
    ensures IsRounded(OneHourShare(cacheWrite, hours, writes), cacheWrite * hours, writes)
  {
    var n, hour := 2 * (cacheWrite * hours) + writes, OneHourShare(cacheWrite, hours, writes);
    assert n == 2 * writes * hour + n % (2 * writes);
    assert 2 * writes * hour == 2 * (hour * writes);
  }

  lemma HourPartIs(input: UsageInput, turns: seq<TurnRecord>, turn: TurnRecord) returns (hour: nat)
    requires !HistoryCovers(input, turn)
    ensures IsHourPart(input, turns, turn, hour) && LedgerTokensOf(input, turns, turn) == turn.tokens.(cacheWrite1h := hour)
  {
    hour := LedgerTokensOf(input, turns, turn).cacheWrite1h;
    var entries := Placed(input.logs.cacheWrites, turns, input.now, turn.turnId);
    var places := PlacedArePicked(input.logs.cacheWrites, turns, input.now, turn.turnId);
    assert FallThere(input.logs.cacheWrites, input, turns, turn, places, entries);
    LoggedAre(entries);
    if LoggedWrites(entries).1 > 0 { ShareIs(turn.tokens.cacheWrite, LoggedWrites(entries).1, LoggedWrites(entries).0); }
  }

  // ---- what it notes ----

  /** A rate is assumed for an entry exactly where its model has a price that lacks one its tokens need, by the tier of its own prompt. */
  lemma EntryAssumesWhen(prices: PriceBook, e: LogEntry, fallback: Option<string>, tier: Option<PriceTier>)
    requires HasPrice(prices, NameOf(e, fallback)) ==>
      IsTierOf(prices[NameOf(e, fallback).value], e.tokens.input + e.tokens.cacheRead + e.tokens.cacheWrite, tier)
    ensures EntryAssumes(prices, e, fallback) <==>
      && HasPrice(prices, NameOf(e, fallback))
      && Assumes(e.tokens.cacheRead as real, e.tokens.cacheWrite as real, e.tokens.cacheWrite1h as real, prices[NameOf(e, fallback).value], tier)
  {
    EntryAssumesIff(prices, e, fallback);
    if HasPrice(prices, NameOf(e, fallback)) {
      var price, prompt := prices[NameOf(e, fallback).value], PromptTokens(e.tokens);
      TierIsOf(price, prompt);
      AssumedIff(AmountsOf(e.tokens), price, Some(prompt), tier);
    }
  }

  /** What tokens of no one request tell: they are unsized where their price has tiers, and a rate is assumed where a base one they need is missing. */
  lemma TogetherNotes(prices: PriceBook, model: Option<string>, t: Tokens, est: Estimate)
    requires TogetherTells(prices, model, t, est)
    ensures var any, read, write, hour := t.input + t.output + t.cacheRead + t.cacheWrite > 0, t.cacheRead as real, t.cacheWrite as real, t.cacheWrite1h as real;
      && (est.isUnsized <==> any && HasPrice(prices, model) && prices[model.value].tiers != [])
      && (est.assumed <==> any && HasPrice(prices, model) && Assumes(read, write, hour, prices[model.value], None))
      && (est.approximate <==> est.assumed || est.isUnsized)
      && est.unpricedModel == (if any && !HasPrice(prices, model) then Some(ModelKey(model)) else None)
      && est.requests == 0
  {
    if HasPrice(prices, model) {
      SummedTokensCost(t, prices[model.value]);
      AssumedIff(AmountsOf(t), prices[model.value], None, None);
    }
  }

  /** Entries are priced together exactly when all go by the same name. */
  lemma OneModelIff(entries: seq<LogEntry>, fallback: Option<string>)
    ensures IsOneModel(entries, fallback) <==> entries != [] && forall i :: 0 <= i < |entries| ==> NameOf(entries[i], fallback) == NameOf(entries[0], fallback)
  {
  }

  /** A model is named as unpriced exactly for tokens it has no price for. */
  lemma UnpricedNameWhen(prices: PriceBook, e: LogEntry, fallback: Option<string>)
    ensures UnpricedName(prices, e, fallback)
      == if e.tokens.input + e.tokens.output + e.tokens.cacheRead + e.tokens.cacheWrite > 0 && !HasPrice(prices, NameOf(e, fallback))
         then Some(ModelKey(NameOf(e, fallback))) else None
  {
  }

  lemma {:induction false} UnpricedNamesAre(prices: PriceBook, entries: seq<LogEntry>)
    ensures forall name :: name in UnpricedNames(prices, entries) <==> exists e :: e in entries && UnpricedName(prices, e, None) == Some(name)
  {
    if entries != [] {
      var n := |entries| - 1;
      UnpricedNamesAre(prices, entries[..n]);
      assert entries == entries[..n] + [entries[n]];
    }
  }

  /** What a view notes of its subagents: that a rate was assumed for one, and every model they lack a price for. */
  lemma SubagentsNoted(input: UsageInput, turns: seq<TurnRecord>, turn: TurnRecord, view: View)
    requires IsToldOf(input, turns, turn, view)
    ensures (exists e :: e in view.subagents && EntryAssumes(input.prices, e, None)) ==> view.noted.assumed
    ensures forall e :: e in view.subagents && UnpricedName(input.prices, e, None).Some? ==> UnpricedName(input.prices, e, None).value in view.noted.unpricedModels
  {
    UnpricedNamesAre(input.prices, view.subagents);
    if e :| e in view.subagents && EntryAssumes(input.prices, e, None) {
      var i :| 0 <= i < |view.subagents| && view.subagents[i] == e;
    }
  }

  // ---- the figure ----

  ghost function SumViewsOf(views: seq<View>, of: View -> int): int {
    if views == [] then 0 else SumViewsOf(views[..|views| - 1], of) + of(views[|views| - 1])
  }

  ghost function SumUsdOf(views: seq<View>): real {
    if views == [] then 0.0 else SumUsdOf(views[..|views| - 1]) + views[|views| - 1].usd
  }

  /** How long a turn took, or has taken while it runs. */
  ghost function TimeOf(view: View, now: int): int {
    if view.kind != TurnView || view.startedAt == None then 0
    else if view.completedAt == None then now - view.startedAt.value
    else view.completedAt.value - view.startedAt.value
  }

  /** A thread's totals are the sums over its views, kind by kind; only turns count as turns and take time. */
  lemma {:induction false} TotalsAre(views: seq<View>, now: int)
    ensures var t := TotalsOf(views, now);
      && t.tokens.input == SumViewsOf(views, (v: View) => v.tokens.input) && t.tokens.output == SumViewsOf(views, (v: View) => v.tokens.output)
      && t.tokens.cacheRead == SumViewsOf(views, (v: View) => v.tokens.cacheRead) && t.tokens.cacheWrite == SumViewsOf(views, (v: View) => v.tokens.cacheWrite)
      && t.tokens.cacheWrite1h == SumViewsOf(views, (v: View) => v.tokens.cacheWrite1h) && t.tokens.reasoning == SumViewsOf(views, (v: View) => v.tokens.reasoning)
      && t.usd == SumUsdOf(views) && t.unpriced == SumViewsOf(views, (v: View) => v.unpriced)
  {
    if views != [] { TotalsAre(views[..|views| - 1], now); }
  }

  lemma {:induction false} OtherTotalsAre(views: seq<View>, now: int)
    ensures var t := TotalsOf(views, now);
      && t.linesAdded == SumViewsOf(views, (v: View) => v.linesAdded) && t.linesRemoved == SumViewsOf(views, (v: View) => v.linesRemoved)
      && t.requests == SumViewsOf(views, (v: View) => v.requests)
      && t.turns == SumViewsOf(views, (v: View) => if v.kind == TurnView then 1 else 0) && t.wallMs == SumViewsOf(views, (v: View) => TimeOf(v, now))
      && t.unsizedTurns == SumViewsOf(views, (v: View) => if v.isUnsized then 1 else 0)
  {
    if views != [] { OtherTotalsAre(views[..|views| - 1], now); }
  }

  lemma {:induction false} TotalsNote(views: seq<View>, now: int)
    ensures var t := TotalsOf(views, now);
      && (t.partial <==> exists v :: v in views && v.partial) && (t.approximate <==> exists v :: v in views && v.approximate)
      && (t.assumedRates <==> exists v :: v in views && v.noted.assumed)
      && forall name :: name in t.unpricedModels <==> exists v :: v in views && name in v.noted.unpricedModels
  {
    if views != [] {
      TotalsNote(views[..|views| - 1], now);
      assert views == views[..|views| - 1] + [views[|views| - 1]];
    }
  }

  /** A figure is approximate exactly when a view is or a rate was assumed in one, and names exactly the models a view lacked a price for. */
  lemma FigureNotes(views: seq<View>, now: int, billing: BillingMode)
    ensures var t := FigureTotals(views, now, billing);
      && (t.partial <==> exists v :: v in views && v.partial)
      && (t.assumedRates <==> exists v :: v in views && v.noted.assumed)
      && (t.approximate <==> exists v :: v in views && (v.approximate || v.noted.assumed))
      && forall name :: name in t.unpricedModels <==> exists v :: v in views && name in v.noted.unpricedModels
  {
    TotalsNote(views, now);
  }

  /** For what else a figure's totals say, they are the sums. */
  lemma FigureSums(views: seq<View>, now: int, billing: BillingMode)
    ensures var t, sum := FigureTotals(views, now, billing), TotalsOf(views, now);
      && t.tokens == sum.tokens && t.usd == sum.usd && t.unpriced == sum.unpriced && t.unsizedTurns == sum.unsizedTurns && t.wallMs == sum.wallMs
      && t.linesAdded == sum.linesAdded && t.linesRemoved == sum.linesRemoved && t.turns == sum.turns && t.requests == sum.requests
      && t.byBilling == BilledIn(billing, Billed(TotalTokens(sum.tokens), sum.usd))
  {
  }

  /** All of a thread goes to its one billing mode, and nothing to the others. */
  lemma BilledInOne(mode: BillingMode, tokens: Tokens, usd: real)
    ensures var all, none := Billed(tokens.input + tokens.output + tokens.cacheRead + tokens.cacheWrite, usd), Billed(0, 0.0);
      BilledIn(mode, Billed(TotalTokens(tokens), usd))
        == ByBilling(if mode == ApiKey then all else none, if mode == Subscription then all else none, if mode == UnknownBilling then all else none)
  {
  }

  /** The opening balance is the first record of that kind. */
  lemma {:induction false} OpeningIsFirst(turns: seq<TurnRecord>)
    ensures Usage.Opening(turns).None? <==> forall i :: 0 <= i < |turns| ==> turns[i].kind != RecordKind.Opening
    ensures Usage.Opening(turns).Some? ==> exists i :: IsFirstOpening(turns, i) && turns[i] == Usage.Opening(turns).value
  {
    if turns != [] {
      if turns[0].kind.Opening? {
        assert IsFirstOpening(turns, 0);
      } else {
        OpeningIsFirst(turns[1..]);
        if i :| IsFirstOpening(turns[1..], i) && turns[1..][i] == Usage.Opening(turns[1..]).value { LaterOpening(turns, i); }
        assert forall i :: 0 <= i < |turns| - 1 ==> turns[1..][i] == turns[i + 1];
      }
    }
  }

  ghost predicate IsFirstOpening(turns: seq<TurnRecord>, i: int) {
    0 <= i < |turns| && turns[i].kind == RecordKind.Opening && forall j :: 0 <= j < i ==> turns[j].kind != RecordKind.Opening
  }

  lemma LaterOpening(turns: seq<TurnRecord>, i: int)
    requires turns != [] && !turns[0].kind.Opening? && IsFirstOpening(turns[1..], i)
    ensures IsFirstOpening(turns, i + 1)
  {
    forall j | 0 <= j < i + 1 ensures turns[j].kind != RecordKind.Opening {
      if j > 0 { assert turns[j] == turns[1..][j - 1]; }
    }
  }
}
