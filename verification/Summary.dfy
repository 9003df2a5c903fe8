/**
 * One thread's usage: its ledger and harness-log entries merged into views,
 * each priced or unpriced, and summed into a figure.
 */
module Summary {
  import opened Common
  import opened Tokens
  import opened Ledger
  import opened LedgerRequests
  import opened Pricing
  import opened Figures

  const OUTSIDE_TURNS := "outside"
  const WINDOW_SLACK_MS := 30_000

  /** A harness-log entry: one request of the main session, or of a subagent. */
  datatype LogEntry = LogEntry(key: string, agentId: Option<string>, ts: int, model: Option<string>, tokens: Tokens)

  // ---- merging the logs ----

  datatype GapWindow = GapWindow(fromMs: int, toMs: int)

  datatype MergeContext = MergeContext(firstSeenAt: Option<int>, historyBackfilled: bool, partialGaps: seq<GapWindow>, forkCreatedAt: Option<int>)

  datatype LogUse = CopiedByFork | Subagent | History | GapFill | CacheWrites | Unused

  /** What an entry is for. */
  function UseOf(entry: LogEntry, ctx: MergeContext): LogUse {
    if ctx.forkCreatedAt.Some? && entry.ts < ctx.forkCreatedAt.value then CopiedByFork
    else if entry.agentId.Some? then Subagent
    else if ctx.historyBackfilled && ctx.firstSeenAt.Some? && entry.ts < ctx.firstSeenAt.value then History
    else if exists i :: 0 <= i < |ctx.partialGaps| && ctx.partialGaps[i].fromMs <= entry.ts <= ctx.partialGaps[i].toMs then GapFill
    else if entry.tokens.cacheWrite > 0 then CacheWrites
    else Unused
  }

  function Used(entries: seq<LogEntry>, ctx: MergeContext, use: LogUse): seq<LogEntry> {
    if entries == [] then []
    else Used(entries[..|entries| - 1], ctx, use) + if UseOf(entries[|entries| - 1], ctx) == use then [entries[|entries| - 1]] else []
  }

  datatype MergedLogs = MergedLogs(history: seq<LogEntry>, gapFill: seq<LogEntry>, subagent: seq<LogEntry>, cacheWrites: seq<LogEntry>)

  method MergeLogEntries(entries: seq<LogEntry>, ctx: MergeContext) returns (out: MergedLogs)
    ensures out.history == Used(entries, ctx, History) && out.gapFill == Used(entries, ctx, GapFill)
    ensures out.subagent == Used(entries, ctx, Subagent) && out.cacheWrites == Used(entries, ctx, CacheWrites)
  {
    out := MergedLogs([], [], [], []);
    for i := 0 to |entries|
      invariant out.history == Used(entries[..i], ctx, History) && out.gapFill == Used(entries[..i], ctx, GapFill)
      invariant out.subagent == Used(entries[..i], ctx, Subagent) && out.cacheWrites == Used(entries[..i], ctx, CacheWrites)
    {
      var entry := entries[i];
      assert entries[..i + 1][..i] == entries[..i];
      if !(ctx.forkCreatedAt.Some? && entry.ts < ctx.forkCreatedAt.value) {
        if entry.agentId.Some? {
          out := out.(subagent := out.subagent + [entry]);
        } else if ctx.historyBackfilled && ctx.firstSeenAt.Some? && entry.ts < ctx.firstSeenAt.value {
          out := out.(history := out.history + [entry]);
        } else if exists k :: 0 <= k < |ctx.partialGaps| && ctx.partialGaps[k].fromMs <= entry.ts <= ctx.partialGaps[k].toMs {
          out := out.(gapFill := out.gapFill + [entry]);
        } else if entry.tokens.cacheWrite > 0 {
          out := out.(cacheWrites := out.cacheWrites + [entry]);
        }
      }
    }
    assert entries[..|entries|] == entries;
  }

  /** Keeping or leaving out one more entry moves the count of that entry alone. */
  lemma CountOneMore(kept: seq<LogEntry>, last: LogEntry, keep: bool, entry: LogEntry)
    ensures multiset(kept + if keep then [last] else [])[entry] == multiset(kept)[entry] + if keep && last == entry then 1 else 0
  {
    assert kept + [] == kept;
  }

  /** The count of an entry in a log, by its last entry. */
  lemma CountByLast(entries: seq<LogEntry>, entry: LogEntry)
    requires entries != []
    ensures multiset(entries)[entry] == multiset(entries[..|entries| - 1])[entry] + if entries[|entries| - 1] == entry then 1 else 0
  {
    assert entries == entries[..|entries| - 1] + [entries[|entries| - 1]];
  }

  /** Each entry is put to one use, as often as it is in the log. */
  lemma {:induction false} EachEntryHasOneUse(entries: seq<LogEntry>, ctx: MergeContext, use: LogUse, entry: LogEntry)
    ensures multiset(Used(entries, ctx, use))[entry] == if UseOf(entry, ctx) == use then multiset(entries)[entry] else 0
  {
    if entries != [] {
      EachEntryHasOneUse(entries[..|entries| - 1], ctx, use, entry);
      CountByLast(entries, entry);
      CountOneMore(Used(entries[..|entries| - 1], ctx, use), entries[|entries| - 1], UseOf(entries[|entries| - 1], ctx) == use, entry);
    }
  }

  // ---- what tokens cost, or that they have no price ----

  /** Prices by the model name asked for. */
  type PriceBook = map<string, ModelPrice>

  function Lookup(prices: PriceBook, model: Option<string>): Option<ModelPrice> {
    if model.None? then None else Get(prices, model.value)
  }

  /** Tokens a view counts, under the model they are priced by. */
  datatype UsedPart = UsedPart(model: Option<string>, tokens: Tokens)

  function UnpricedOf(prices: PriceBook, part: UsedPart): nat {
    if Lookup(prices, part.model).None? then TotalTokens(part.tokens) else 0
  }

  function SumTokens(parts: seq<UsedPart>): RequestTokens {
    if parts == [] then NO_REQUEST else AddRequests(SumTokens(parts[..|parts| - 1]), Requests(parts[|parts| - 1].tokens))
  }

  function SumUnpriced(prices: PriceBook, parts: seq<UsedPart>): nat {
    if parts == [] then 0 else SumUnpriced(prices, parts[..|parts| - 1]) + UnpricedOf(prices, parts[|parts| - 1])
  }

  function TotalOf(r: RequestTokens): nat { r.input + r.output + r.cacheRead + r.cacheWrite }

  lemma TotalAdds(a: RequestTokens, tokens: Tokens)
    ensures TotalOf(AddRequests(a, Requests(tokens))) == TotalOf(a) + TotalTokens(tokens)
  {
  }

  /** A part with tokens and a price. */
  predicate IsPriced(prices: PriceBook, part: UsedPart) { TotalTokens(part.tokens) > 0 && Lookup(prices, part.model).Some? }

  predicate AnyPriced(prices: PriceBook, parts: seq<UsedPart>) { exists i :: 0 <= i < |parts| && IsPriced(prices, parts[i]) }

  function SumPartTotals(parts: seq<UsedPart>): nat {
    if parts == [] then 0 else SumPartTotals(parts[..|parts| - 1]) + TotalTokens(parts[|parts| - 1].tokens)
  }

  lemma {:induction false} TotalsOfSum(parts: seq<UsedPart>)
    ensures TotalOf(SumTokens(parts)) == SumPartTotals(parts)
  {
    if parts != [] {
      TotalsOfSum(parts[..|parts| - 1]);
      TotalAdds(SumTokens(parts[..|parts| - 1]), parts[|parts| - 1].tokens);
    }
  }

  lemma {:induction false} UnpricedWithinTotals(prices: PriceBook, parts: seq<UsedPart>)
    ensures SumUnpriced(prices, parts) <= SumPartTotals(parts)
    ensures SumUnpriced(prices, parts) == SumPartTotals(parts) <==> !AnyPriced(prices, parts)
  {
    if parts != [] {
      var rest, last := parts[..|parts| - 1], parts[|parts| - 1];
      UnpricedWithinTotals(prices, rest);
      assert AnyPriced(prices, parts) <==> AnyPriced(prices, rest) || IsPriced(prices, last) by {
        assert forall i :: 0 <= i < |rest| ==> rest[i] == parts[i];
      }
    }
  }

  /** Unpriced tokens never exceed tokens, and are all of them exactly when no part with tokens has a price. */
  lemma AllUnpricedIff(prices: PriceBook, parts: seq<UsedPart>)
    ensures SumUnpriced(prices, parts) <= TotalOf(SumTokens(parts))
    ensures SumUnpriced(prices, parts) == TotalOf(SumTokens(parts)) <==> !AnyPriced(prices, parts)
  {
    TotalsOfSum(parts);
    UnpricedWithinTotals(prices, parts);
  }

  datatype Estimate = Estimate(usd: real, unpriced: nat, approximate: bool, isUnsized: bool, assumed: bool, unpricedModel: Option<string>,
                               requests: nat, tierDetail: Option<TierDetail>, oneHour: Option<OneHourLine>)

  const NO_ESTIMATE := Estimate(0.0, 0, false, false, false, None, 0, None, None)

  function AddEstimates(a: Estimate, b: Estimate): Estimate {
    Estimate(a.usd + b.usd, a.unpriced + b.unpriced, a.approximate || b.approximate, a.isUnsized || b.isUnsized, a.assumed || b.assumed,
             if a.unpricedModel.Some? then a.unpricedModel else b.unpricedModel, a.requests + b.requests, None, None)
  }

  function UnpricedEstimate(model: Option<string>, tokens: Tokens, requests: nat): Estimate {
    NO_ESTIMATE.(unpriced := TotalTokens(tokens), unpricedModel := Some(ModelKey(model)), requests := requests)
  }

  /** One request's tokens, or tokens summed over requests of unknown size when there is no prompt. */
  function EstimateOf(prices: PriceBook, model: Option<string>, tokens: Tokens, prompt: Option<nat>): Estimate {
    if TotalTokens(tokens) == 0 then NO_ESTIMATE
    else
      match Lookup(prices, model)
      case None => UnpricedEstimate(model, tokens, if prompt.None? then 0 else 1)
      case Some(price) =>
        var cost := CostOf(AmountsOf(tokens), price, prompt);
        NO_ESTIMATE.(usd := cost.usd, approximate := cost.approximate, isUnsized := cost.isUnsized, assumed := cost.assumed,
                     requests := if prompt.None? then 0 else 1)
  }

  /** Tokens without a price are unpriced, others are not, and no tokens cost nothing. */
  ghost predicate EstimatesParts(prices: PriceBook, est: Estimate, parts: seq<UsedPart>) {
    est.unpriced == SumUnpriced(prices, parts) && (TotalOf(SumTokens(parts)) == 0 ==> est.usd == 0.0)
  }

  lemma OnePart(prices: PriceBook, part: UsedPart)
    ensures SumTokens([part]) == Requests(part.tokens) && SumUnpriced(prices, [part]) == UnpricedOf(prices, part)
  {
    assert [part][..0] == [];
  }

  lemma EstimateIsOfItsPart(prices: PriceBook, model: Option<string>, tokens: Tokens, prompt: Option<nat>)
    ensures EstimatesParts(prices, EstimateOf(prices, model, tokens, prompt), [UsedPart(model, tokens)])
  {
    OnePart(prices, UsedPart(model, tokens));
  }

  function PartsUnder(model: Option<string>, requests: seq<Tokens>): seq<UsedPart> {
    seq(|requests|, i requires 0 <= i < |requests| => UsedPart(model, requests[i]))
  }

  lemma {:induction false} PartsUnderOneModel(prices: PriceBook, model: Option<string>, requests: seq<Tokens>)
    ensures SumTokens(PartsUnder(model, requests)) == Requests(AllTokens(requests))
    ensures SumUnpriced(prices, PartsUnder(model, requests)) == UnpricedOf(prices, UsedPart(model, AllTokens(requests)))
  {
    if requests != [] {
      var rest := requests[..|requests| - 1];
      PartsUnderOneModel(prices, model, rest);
      assert PartsUnder(model, requests)[..|rest|] == PartsUnder(model, rest);
    }
  }

  /** What requests under a model cost: nothing without a price, else each its own cost, and the line of unmatched 1-hour writes. */
  ghost predicate RequestsCostUsd(prices: PriceBook, model: Option<string>, requests: seq<Tokens>, unmatchedOneHour: nat, est: Estimate) {
    if TotalTokens(AllTokens(requests)) == 0 || Lookup(prices, model).None? then est.usd == 0.0 && est.oneHour.None?
    else
      var price := Lookup(prices, model).value;
      var priced := PricedRequests(requests, price, KeepOf(requests, unmatchedOneHour));
      && (est.oneHour.Some? <==> OneHourWrites(requests, unmatchedOneHour) > 0)
      && (est.oneHour.Some? ==> est.oneHour.value.tokens == OneHourWrites(requests, unmatchedOneHour) && LineAt(est.oneHour.value, requests, price))
      && est.usd == SumUsd(priced) + (if est.oneHour.Some? then est.oneHour.value.usd else 0.0)
      && est.tierDetail == TierDetailOf(priced)
  }

  /** A rate was assumed for one of the requests, or for the line of unmatched 1-hour writes. */
  ghost predicate RequestsAssume(requests: seq<Tokens>, price: ModelPrice, unmatchedOneHour: nat) {
    || AnyAssumed(requests, price, KeepOf(requests, unmatchedOneHour), |requests|)
    || (OneHourWrites(requests, unmatchedOneHour) > 0 && (!price.claude || |InputRates(requests, price)| > 1))
  }

  /** What an estimate of requests tells besides their dollars. */
  ghost predicate RequestsTell(prices: PriceBook, model: Option<string>, requests: seq<Tokens>, unmatchedOneHour: nat, est: Estimate) {
    var any, price := TotalTokens(AllTokens(requests)) > 0, Lookup(prices, model);
    && est.approximate == est.assumed && !est.isUnsized
    && est.requests == (if any then |requests| else 0)
    && est.unpricedModel == (if any && price.None? then Some(ModelKey(model)) else None)
    && est.assumed == (any && price.Some? && RequestsAssume(requests, price.value, unmatchedOneHour))
    && est.tierDetail == if any && price.Some? then TierDetailOf(PricedRequests(requests, price.value, KeepOf(requests, unmatchedOneHour))) else None
  }

  /** The requests of one turn, each priced on its own prompt size. */
  method EstimateRequests(prices: PriceBook, model: Option<string>, requests: seq<Tokens>, unmatchedOneHour: nat) returns (est: Estimate)
    ensures EstimatesParts(prices, est, PartsUnder(model, requests))
    ensures est.unpriced == UnpricedOf(prices, UsedPart(model, AllTokens(requests)))
    ensures TotalTokens(AllTokens(requests)) == 0 ==> est.usd == 0.0
    ensures RequestsCostUsd(prices, model, requests, unmatchedOneHour, est) && RequestsTell(prices, model, requests, unmatchedOneHour, est)
  {
    PartsUnderOneModel(prices, model, requests);
    var total := AllTokens(requests);
    if TotalTokens(total) == 0 {
      est := NO_ESTIMATE;
    } else if Lookup(prices, model).None? {
      est := UnpricedEstimate(model, total, |requests|);
    } else {
      var cost := PriceRequests(requests, Lookup(prices, model).value, unmatchedOneHour);
      est := NO_ESTIMATE.(usd := cost.usd, approximate := cost.approximate, assumed := cost.assumed, requests := |requests|,
                          tierDetail := TierDetailOf(cost.requests), oneHour := cost.oneHour);
    }
  }

  function ModelOf(entry: LogEntry, fallback: Option<string>): Option<string> {
    if entry.model.Some? then entry.model else fallback
  }

  function EntryParts(entries: seq<LogEntry>, fallback: Option<string>): seq<UsedPart> {
    seq(|entries|, i requires 0 <= i < |entries| => UsedPart(ModelOf(entries[i], fallback), entries[i].tokens))
  }

  function TokensOf(entries: seq<LogEntry>): seq<Tokens> {
    seq(|entries|, i requires 0 <= i < |entries| => entries[i].tokens)
  }

  lemma EstimatesAdd(prices: PriceBook, a: Estimate, parts: seq<UsedPart>, part: UsedPart, prompt: Option<nat>)
    requires EstimatesParts(prices, a, parts)
    ensures EstimatesParts(prices, AddEstimates(a, EstimateOf(prices, part.model, part.tokens, prompt)), parts + [part])
  {
    assert (parts + [part])[..|parts|] == parts;
    TotalAdds(SumTokens(parts), part.tokens);
  }

  /** What one logged request costs on its own. */
  function EntryUsd(prices: PriceBook, entry: LogEntry, fallback: Option<string>): real {
    EstimateOf(prices, ModelOf(entry, fallback), entry.tokens, Some(PromptTokens(entry.tokens))).usd
  }

  function SumEntryUsd(prices: PriceBook, entries: seq<LogEntry>, fallback: Option<string>): real {
    if entries == [] then 0.0
    else SumEntryUsd(prices, entries[..|entries| - 1], fallback) + EntryUsd(prices, entries[|entries| - 1], fallback)
  }

  lemma NoTokensCostNothing(tokens: Tokens, price: ModelPrice, prompt: Option<nat>)
    requires TotalTokens(tokens) == 0
    ensures CostOf(AmountsOf(tokens), price, prompt).usd == 0.0
  {
    var amounts, rates := AmountsOf(tokens), RatesFor(price, prompt);
    assert amounts.input == amounts.output == amounts.cacheRead == amounts.cacheWrite == 0.0;
    assert MinReal(amounts.cacheWrite1h, amounts.cacheWrite) == 0.0;
    NothingTimes(rates.input);
    NothingTimes(rates.output);
    NothingTimes(ReadRate(rates));
    NothingTimes(WriteRate(rates));
  }

  lemma NothingTimes(rate: real)
    ensures 0.0 * rate == 0.0
  {
  }

  lemma EntryUsdIs(prices: PriceBook, entry: LogEntry, fallback: Option<string>, price: ModelPrice)
    requires Lookup(prices, ModelOf(entry, fallback)) == Some(price)
    ensures EntryUsd(prices, entry, fallback) == CostOf(AmountsOf(entry.tokens), price, Some(PromptTokens(entry.tokens))).usd
  {
    if TotalTokens(entry.tokens) == 0 { NoTokensCostNothing(entry.tokens, price, Some(PromptTokens(entry.tokens))); }
  }

  lemma KeptWhole(r: Tokens)
    ensures Kept(r, 1.0) == AmountsOf(r)
  {
  }

  /** Requests priced together under one model cost what they do one by one. */
  lemma {:induction false} TogetherOrOneByOne(prices: PriceBook, entries: seq<LogEntry>, fallback: Option<string>, model: Option<string>, price: ModelPrice)
    requires AllModels(entries, fallback, model) && Lookup(prices, model) == Some(price)
    ensures SumUsd(PricedRequests(TokensOf(entries), price, 1.0)) == SumEntryUsd(prices, entries, fallback)
  {
    if entries != [] {
      var n := |entries| - 1;
      var all := PricedRequests(TokensOf(entries), price, 1.0);
      TogetherOrOneByOne(prices, entries[..n], fallback, model, price);
      assert all[..n] == PricedRequests(TokensOf(entries[..n]), price, 1.0);
      EntryUsdIs(prices, entries[n], fallback, price);
      KeptWhole(entries[n].tokens);
    }
  }

  lemma {:induction false} UnpricedCostNothing(prices: PriceBook, entries: seq<LogEntry>, fallback: Option<string>)
    requires forall i :: 0 <= i < |entries| ==> Lookup(prices, ModelOf(entries[i], fallback)).None? || TotalTokens(entries[i].tokens) == 0
    ensures SumEntryUsd(prices, entries, fallback) == 0.0
  {
    if entries != [] { UnpricedCostNothing(prices, entries[..|entries| - 1], fallback); }
  }

  lemma {:induction false} EachWithin(requests: seq<Tokens>, i: nat)
    requires i < |requests|
    ensures TotalTokens(requests[i]) <= TotalTokens(AllTokens(requests))
  {
    if i < |requests| - 1 { EachWithin(requests[..|requests| - 1], i); }
  }

  /** So an estimate of entries under one model costs their sum. */
  lemma TogetherCosts(prices: PriceBook, entries: seq<LogEntry>, fallback: Option<string>, model: Option<string>, est: Estimate)
    requires AllModels(entries, fallback, model) && RequestsCostUsd(prices, model, TokensOf(entries), 0, est)
    ensures est.usd == SumEntryUsd(prices, entries, fallback)
  {
    if Lookup(prices, model).None? || TotalTokens(AllTokens(TokensOf(entries))) == 0 {
      forall i | 0 <= i < |entries| ensures Lookup(prices, model).None? || TotalTokens(entries[i].tokens) == 0 {
        EachWithin(TokensOf(entries), i);
      }
      UnpricedCostNothing(prices, entries, fallback);
    } else {
      assert OneHourWrites(TokensOf(entries), 0) == 0;
      TogetherOrOneByOne(prices, entries, fallback, model, Lookup(prices, model).value);
    }
  }

  predicate AllModels(entries: seq<LogEntry>, fallback: Option<string>, model: Option<string>) {
    forall i :: 0 <= i < |entries| ==> ModelOf(entries[i], fallback) == model
  }

  predicate IsOneModel(entries: seq<LogEntry>, fallback: Option<string>) {
    entries != [] && AllModels(entries, fallback, ModelOf(entries[0], fallback))
  }

  ghost predicate EntryAssumes(prices: PriceBook, entry: LogEntry, fallback: Option<string>) { EstimateEntry(prices, entry, fallback).assumed }

  ghost predicate SomeAssumes(prices: PriceBook, entries: seq<LogEntry>, fallback: Option<string>) {
    exists i :: 0 <= i < |entries| && EntryAssumes(prices, entries[i], fallback)
  }

  /** The name the tokens of an entry lack a price under. */
  ghost function UnpricedName(prices: PriceBook, entry: LogEntry, fallback: Option<string>): Option<string> {
    if TotalTokens(entry.tokens) > 0 && Lookup(prices, ModelOf(entry, fallback)).None? then Some(ModelKey(ModelOf(entry, fallback))) else None
  }

  /** The first of these names. */
  ghost function FirstUnpriced(prices: PriceBook, entries: seq<LogEntry>, fallback: Option<string>): Option<string> {
    if entries == [] then None
    else
      var before := FirstUnpriced(prices, entries[..|entries| - 1], fallback);
      if before.Some? then before else UnpricedName(prices, entries[|entries| - 1], fallback)
  }

  ghost function WithTokens(entries: seq<LogEntry>): nat {
    if entries == [] then 0 else WithTokens(entries[..|entries| - 1]) + if TotalTokens(entries[|entries| - 1].tokens) > 0 then 1 else 0
  }

  /** The requests told of: all of one model when any has tokens, else those that have. */
  ghost function RequestsTold(entries: seq<LogEntry>, fallback: Option<string>): nat {
    if !IsOneModel(entries, fallback) then WithTokens(entries)
    else if TotalTokens(AllTokens(TokensOf(entries))) > 0 then |entries| else 0
  }

  ghost function TierTold(prices: PriceBook, entries: seq<LogEntry>, fallback: Option<string>): Option<TierDetail> {
    if IsOneModel(entries, fallback) && TotalTokens(AllTokens(TokensOf(entries))) > 0 && Lookup(prices, ModelOf(entries[0], fallback)).Some?
    then TierDetailOf(PricedRequests(TokensOf(entries), Lookup(prices, ModelOf(entries[0], fallback)).value, 1.0)) else None
  }

  /** What an estimate of log entries tells besides their dollars. */
  ghost predicate EntriesTell(prices: PriceBook, entries: seq<LogEntry>, fallback: Option<string>, est: Estimate) {
    && SumTells(prices, entries, fallback, est)
    && est.requests == RequestsTold(entries, fallback) && est.tierDetail == TierTold(prices, entries, fallback)
  }

  ghost predicate SumTells(prices: PriceBook, entries: seq<LogEntry>, fallback: Option<string>, est: Estimate) {
    && est.approximate == est.assumed && !est.isUnsized && est.oneHour.None?
    && est.assumed == SomeAssumes(prices, entries, fallback)
    && est.unpricedModel == FirstUnpriced(prices, entries, fallback)
  }

  lemma AssumesOneMore(prices: PriceBook, entries: seq<LogEntry>, last: LogEntry, fallback: Option<string>)
    ensures SomeAssumes(prices, entries + [last], fallback) <==> SomeAssumes(prices, entries, fallback) || EntryAssumes(prices, last, fallback)
  {
    var more := entries + [last];
    if SomeAssumes(prices, entries, fallback) {
      var i :| 0 <= i < |entries| && EntryAssumes(prices, entries[i], fallback);
      assert more[i] == entries[i];
    }
    if EntryAssumes(prices, last, fallback) { assert more[|entries|] == last; }
  }

  lemma FirstOneMore(prices: PriceBook, entries: seq<LogEntry>, last: LogEntry, fallback: Option<string>)
    ensures FirstUnpriced(prices, entries + [last], fallback)
      == if FirstUnpriced(prices, entries, fallback).Some? then FirstUnpriced(prices, entries, fallback) else UnpricedName(prices, last, fallback)
    ensures WithTokens(entries + [last]) == WithTokens(entries) + if TotalTokens(last.tokens) > 0 then 1 else 0
  {
    assert (entries + [last])[..|entries|] == entries;
  }

  lemma EntryTells(prices: PriceBook, entry: LogEntry, fallback: Option<string>)
    ensures var est := EstimateEntry(prices, entry, fallback);
      && est.approximate == est.assumed && !est.isUnsized && est.unpricedModel == UnpricedName(prices, entry, fallback)
      && est.requests == if TotalTokens(entry.tokens) > 0 then 1 else 0
  {
  }

  /** One entry more, added to what was told of those before. */
  lemma TellsOneMore(prices: PriceBook, entries: seq<LogEntry>, last: LogEntry, fallback: Option<string>, est: Estimate)
    requires SumTells(prices, entries, fallback, est) && est.requests == WithTokens(entries) && est.tierDetail.None?
    ensures var next := AddEstimates(est, EstimateEntry(prices, last, fallback));
      SumTells(prices, entries + [last], fallback, next) && next.requests == WithTokens(entries + [last]) && next.tierDetail.None?
  {
    AssumesOneMore(prices, entries, last, fallback);
    FirstOneMore(prices, entries, last, fallback);
    EntryTells(prices, last, fallback);
  }

  lemma NoTokensAssumeNothing(tokens: Tokens, price: ModelPrice, prompt: Option<nat>)
    requires TotalTokens(tokens) == 0
    ensures !CostOf(AmountsOf(tokens), price, prompt).assumed
  {
  }

  lemma EntryAssumesIff(prices: PriceBook, entry: LogEntry, fallback: Option<string>)
    ensures EntryAssumes(prices, entry, fallback) <==>
      && Lookup(prices, ModelOf(entry, fallback)).Some?
      && CostOf(AmountsOf(entry.tokens), Lookup(prices, ModelOf(entry, fallback)).value, Some(PromptTokens(entry.tokens))).assumed
  {
    if Lookup(prices, ModelOf(entry, fallback)).Some? && TotalTokens(entry.tokens) == 0 {
      NoTokensAssumeNothing(entry.tokens, Lookup(prices, ModelOf(entry, fallback)).value, Some(PromptTokens(entry.tokens)));
    }
  }

  /** Priced together under one model they tell what they do one by one. */
  lemma TogetherAssume(prices: PriceBook, entries: seq<LogEntry>, fallback: Option<string>, model: Option<string>, price: ModelPrice)
    requires AllModels(entries, fallback, model) && Lookup(prices, model) == Some(price)
    ensures RequestsAssume(TokensOf(entries), price, 0) <==> SomeAssumes(prices, entries, fallback)
  {
    var requests := TokensOf(entries);
    assert KeepOf(requests, 0) == 1.0 && OneHourWrites(requests, 0) == 0;
    forall i | 0 <= i < |entries|
      ensures CostOf(Kept(requests[i], 1.0), price, Some(PromptTokens(requests[i]))).assumed <==> EntryAssumes(prices, entries[i], fallback)
    {
      KeptWhole(requests[i]);
      EntryAssumesIff(prices, entries[i], fallback);
    }
  }

  lemma NoneAssume(prices: PriceBook, entries: seq<LogEntry>, fallback: Option<string>)
    requires forall i :: 0 <= i < |entries| ==> Lookup(prices, ModelOf(entries[i], fallback)).None? || TotalTokens(entries[i].tokens) == 0
    ensures !SomeAssumes(prices, entries, fallback)
  {
    forall i | 0 <= i < |entries| ensures !EntryAssumes(prices, entries[i], fallback) { EntryAssumesIff(prices, entries[i], fallback); }
  }

  lemma {:induction false} FirstUnderOneModel(prices: PriceBook, entries: seq<LogEntry>, fallback: Option<string>, model: Option<string>)
    requires AllModels(entries, fallback, model)
    ensures FirstUnpriced(prices, entries, fallback)
      == if TotalTokens(AllTokens(TokensOf(entries))) > 0 && Lookup(prices, model).None? then Some(ModelKey(model)) else None
  {
    if entries != [] {
      var n := |entries| - 1;
      FirstUnderOneModel(prices, entries[..n], fallback, model);
      assert TokensOf(entries)[..n] == TokensOf(entries[..n]);
    }
  }

  lemma TogetherTell(prices: PriceBook, entries: seq<LogEntry>, fallback: Option<string>, model: Option<string>, est: Estimate)
    requires IsOneModel(entries, fallback) && model == ModelOf(entries[0], fallback)
    requires RequestsTell(prices, model, TokensOf(entries), 0, est) && est.oneHour.None?
    ensures EntriesTell(prices, entries, fallback, est)
  {
    FirstUnderOneModel(prices, entries, fallback, model);
    assert KeepOf(TokensOf(entries), 0) == 1.0;
    if Lookup(prices, model).None? || TotalTokens(AllTokens(TokensOf(entries))) == 0 {
      forall i | 0 <= i < |entries| ensures Lookup(prices, model).None? || TotalTokens(entries[i].tokens) == 0 { EachWithin(TokensOf(entries), i); }
      NoneAssume(prices, entries, fallback);
    } else {
      TogetherAssume(prices, entries, fallback, model, Lookup(prices, model).value);
    }
  }

  /** Entries are requests the log itself records: priced together under one model, or one by one under several. */
  method EstimateEntries(prices: PriceBook, fallback: Option<string>, entries: seq<LogEntry>) returns (est: Estimate)
    ensures EstimatesParts(prices, est, EntryParts(entries, fallback))
    ensures est.usd == SumEntryUsd(prices, entries, fallback) && EntriesTell(prices, entries, fallback, est)
  {
    if IsOneModel(entries, fallback) {
      est := EstimateTogether(prices, fallback, entries);
    } else {
      est := EstimateOneByOne(prices, fallback, entries);
    }
  }

  method EstimateTogether(prices: PriceBook, fallback: Option<string>, entries: seq<LogEntry>) returns (est: Estimate)
    requires IsOneModel(entries, fallback)
    ensures EstimatesParts(prices, est, EntryParts(entries, fallback))
    ensures est.usd == SumEntryUsd(prices, entries, fallback) && EntriesTell(prices, entries, fallback, est)
  {
    var model := ModelOf(entries[0], fallback);
    est := EstimateRequests(prices, model, TokensOf(entries), 0);
    assert PartsUnder(model, TokensOf(entries)) == EntryParts(entries, fallback);
    TogetherCosts(prices, entries, fallback, model, est);
    NoHourLine(prices, model, TokensOf(entries), est);
    TogetherTell(prices, entries, fallback, model, est);
  }

  lemma NoHourLine(prices: PriceBook, model: Option<string>, requests: seq<Tokens>, est: Estimate)
    requires RequestsCostUsd(prices, model, requests, 0, est)
    ensures est.oneHour.None?
  {
  }

  function EstimateEntry(prices: PriceBook, entry: LogEntry, fallback: Option<string>): Estimate {
    EstimateOf(prices, ModelOf(entry, fallback), entry.tokens, Some(PromptTokens(entry.tokens)))
  }

  /** The estimate is of these entries: their parts and what each costs. */
  ghost predicate EstimatesEntries(prices: PriceBook, fallback: Option<string>, entries: seq<LogEntry>, est: Estimate) {
    EstimatesParts(prices, est, EntryParts(entries, fallback)) && est.usd == SumEntryUsd(prices, entries, fallback)
  }

  lemma EstimatesOneMore(prices: PriceBook, fallback: Option<string>, entries: seq<LogEntry>, last: LogEntry, est: Estimate)
    requires EstimatesEntries(prices, fallback, entries, est)
    ensures EstimatesEntries(prices, fallback, entries + [last], AddEstimates(est, EstimateEntry(prices, last, fallback)))
  {
    var part := UsedPart(ModelOf(last, fallback), last.tokens);
    EstimatesAdd(prices, est, EntryParts(entries, fallback), part, Some(PromptTokens(part.tokens)));
    assert EntryParts(entries + [last], fallback) == EntryParts(entries, fallback) + [part];
    assert (entries + [last])[..|entries|] == entries;
  }

  /** The estimates of these entries priced one by one. */
  ghost function OneByOne(prices: PriceBook, fallback: Option<string>, entries: seq<LogEntry>): iset<Estimate> {
    iset est: Estimate | EstimatesEntries(prices, fallback, entries, est) && AddsUpTo(prices, fallback, entries, est)
  }

  ghost predicate AddsUpTo(prices: PriceBook, fallback: Option<string>, entries: seq<LogEntry>, est: Estimate) {
    SumTells(prices, entries, fallback, est) && est.requests == WithTokens(entries) && est.tierDetail.None?
  }

  lemma OneEntryMore(prices: PriceBook, fallback: Option<string>, entries: seq<LogEntry>, i: nat, est: Estimate)
    requires i < |entries| && est in OneByOne(prices, fallback, entries[..i])
    ensures AddEstimates(est, EstimateEntry(prices, entries[i], fallback)) in OneByOne(prices, fallback, entries[..i + 1])
  {
    TellsOneMore(prices, entries[..i], entries[i], fallback, est);
    EstimatesOneMore(prices, fallback, entries[..i], entries[i], est);
    assert entries[..i] + [entries[i]] == entries[..i + 1];
  }

  lemma NoEntries(prices: PriceBook, fallback: Option<string>)
    ensures NO_ESTIMATE in OneByOne(prices, fallback, [])
  {
    assert EntryParts([], fallback) == [];
  }

  method EstimateOneByOne(prices: PriceBook, fallback: Option<string>, entries: seq<LogEntry>) returns (est: Estimate)
    ensures est in OneByOne(prices, fallback, entries)
  {
    est := NO_ESTIMATE;
    NoEntries(prices, fallback);
    assert entries[..0] == [];
    for i := 0 to |entries|
      invariant est in OneByOne(prices, fallback, entries[..i])
    {
      OneEntryMore(prices, fallback, entries, i, est);
      est := AddEstimates(est, EstimateEntry(prices, entries[i], fallback));
    }
    assert entries[..|entries|] == entries;
  }

  // ---- the turn an entry belongs to ----

  predicate InWindow(ts: int, turn: TurnRecord, now: int) {
    turn.startedAt.Some? && turn.startedAt.value <= ts <= turn.completedAt.GetOr(now) + WINDOW_SLACK_MS
  }

  /** A turn's tokens come from log history: there is some, and the turn completed before first sight. */
  predicate IsCovered(turn: TurnRecord, history: seq<LogEntry>, historyBefore: Option<int>) {
    |history| > 0 && EndedBefore(turn, historyBefore)
  }

  predicate EndedBefore(turn: TurnRecord, historyBefore: Option<int>) {
    historyBefore.Some? && turn.completedAt.Some? && turn.completedAt.value < historyBefore.value
  }

  /** The last of the turns whose window holds the time; of those covered by history only, where asked. */
  function LastIn(turns: seq<TurnRecord>, ts: int, now: int, onlyEnded: bool, historyBefore: Option<int>): Option<string> {
    if turns == [] then None
    else
      var last := turns[|turns| - 1];
      if InWindow(ts, last, now) && (!onlyEnded || EndedBefore(last, historyBefore)) then Some(last.turnId)
      else LastIn(turns[..|turns| - 1], ts, now, onlyEnded, historyBefore)
  }

  lemma {:induction false} LastInIsOne(turns: seq<TurnRecord>, ts: int, now: int, onlyEnded: bool, historyBefore: Option<int>)
    ensures var found := LastIn(turns, ts, now, onlyEnded, historyBefore);
      && (found.Some? ==> exists i :: 0 <= i < |turns| && turns[i].turnId == found.value && InWindow(ts, turns[i], now) && (!onlyEnded || EndedBefore(turns[i], historyBefore)))
      && (found.None? ==> forall i :: 0 <= i < |turns| ==> !(InWindow(ts, turns[i], now) && (!onlyEnded || EndedBefore(turns[i], historyBefore))))
  {
    if turns != [] {
      LastInIsOne(turns[..|turns| - 1], ts, now, onlyEnded, historyBefore);
    }
  }

  /** The turn an entry is placed in, or outside them all. */
  function PlaceOf(turns: seq<TurnRecord>, entry: LogEntry, now: int): string {
    LastIn(turns, entry.ts, now, false, None).GetOr(OUTSIDE_TURNS)
  }

  function Placed(entries: seq<LogEntry>, turns: seq<TurnRecord>, now: int, key: string): seq<LogEntry> {
    if entries == [] then []
    else
      var last := entries[|entries| - 1];
      Placed(entries[..|entries| - 1], turns, now, key) + if PlaceOf(turns, last, now) == key then [last] else []
  }

  type ByTurn = map<string, seq<LogEntry>>

  function EntriesAt(byTurn: ByTurn, key: string): seq<LogEntry> { Get(byTurn, key).GetOr([]) }

  method PlaceAll(entries: seq<LogEntry>, turns: seq<TurnRecord>, now: int) returns (byTurn: ByTurn)
    ensures forall key :: EntriesAt(byTurn, key) == Placed(entries, turns, now, key)
  {
    byTurn := map[];
    for i := 0 to |entries|
      invariant forall key :: EntriesAt(byTurn, key) == Placed(entries[..i], turns, now, key)
    {
      assert entries[..i + 1][..i] == entries[..i];
      var key := PlaceOf(turns, entries[i], now);
      byTurn := byTurn[key := EntriesAt(byTurn, key) + [entries[i]]];
    }
    assert entries[..|entries|] == entries;
  }

  lemma {:induction false} PlacedOnce(entries: seq<LogEntry>, turns: seq<TurnRecord>, now: int, key: string, entry: LogEntry)
    ensures multiset(Placed(entries, turns, now, key))[entry] == if PlaceOf(turns, entry, now) == key then multiset(entries)[entry] else 0
  {
    if entries != [] {
      PlacedOnce(entries[..|entries| - 1], turns, now, key, entry);
      CountByLast(entries, entry);
      CountOneMore(Placed(entries[..|entries| - 1], turns, now, key), entries[|entries| - 1], PlaceOf(turns, entries[|entries| - 1], now) == key, entry);
    }
  }

  // ---- log history ----

  function CoverOf(turns: seq<TurnRecord>, entry: LogEntry, now: int, historyBefore: Option<int>): Option<string> {
    LastIn(turns, entry.ts, now, true, historyBefore)
  }

  /** The history entries inside the window of a turn they cover. */
  function Covering(history: seq<LogEntry>, turns: seq<TurnRecord>, now: int, historyBefore: Option<int>, key: string): seq<LogEntry> {
    if history == [] then []
    else
      var last := history[|history| - 1];
      Covering(history[..|history| - 1], turns, now, historyBefore, key) + if CoverOf(turns, last, now, historyBefore) == Some(key) then [last] else []
  }

  method PlaceHistory(history: seq<LogEntry>, turns: seq<TurnRecord>, now: int, historyBefore: Option<int>) returns (byTurn: ByTurn)
    ensures forall key :: EntriesAt(byTurn, key) == Covering(history, turns, now, historyBefore, key)
  {
    byTurn := map[];
    for i := 0 to |history|
      invariant forall key :: EntriesAt(byTurn, key) == Covering(history[..i], turns, now, historyBefore, key)
    {
      assert history[..i + 1][..i] == history[..i];
      var turn := CoverOf(turns, history[i], now, historyBefore);
      if turn.Some? {
        byTurn := byTurn[turn.value := EntriesAt(byTurn, turn.value) + [history[i]]];
      }
    }
    assert history[..|history|] == history;
  }

  /** A history entry that stands for itself: no turn is covered by it, and no turn counted by the ledger has it in its window. */
  predicate StandsAlone(entry: LogEntry, turns: seq<TurnRecord>, now: int, historyBefore: Option<int>) {
    && CoverOf(turns, entry, now, historyBefore).None?
    && !(exists i :: 0 <= i < |turns| && !EndedBefore(turns[i], historyBefore) && InWindow(entry.ts, turns[i], now))
  }

  function Alone(history: seq<LogEntry>, turns: seq<TurnRecord>, now: int, historyBefore: Option<int>): seq<LogEntry> {
    if history == [] then []
    else
      var last := history[|history| - 1];
      Alone(history[..|history| - 1], turns, now, historyBefore) + if StandsAlone(last, turns, now, historyBefore) then [last] else []
  }

  lemma {:induction false} CoveringOnce(history: seq<LogEntry>, turns: seq<TurnRecord>, now: int, historyBefore: Option<int>, key: string, entry: LogEntry)
    ensures multiset(Covering(history, turns, now, historyBefore, key))[entry] ==
      if CoverOf(turns, entry, now, historyBefore) == Some(key) then multiset(history)[entry] else 0
  {
    if history != [] {
      CoveringOnce(history[..|history| - 1], turns, now, historyBefore, key, entry);
      CountByLast(history, entry);
      CountOneMore(Covering(history[..|history| - 1], turns, now, historyBefore, key), history[|history| - 1], CoverOf(turns, history[|history| - 1], now, historyBefore) == Some(key), entry);
    }
  }

  lemma {:induction false} AloneOnce(history: seq<LogEntry>, turns: seq<TurnRecord>, now: int, historyBefore: Option<int>, entry: LogEntry)
    ensures multiset(Alone(history, turns, now, historyBefore))[entry] == if StandsAlone(entry, turns, now, historyBefore) then multiset(history)[entry] else 0
  {
    if history != [] {
      AloneOnce(history[..|history| - 1], turns, now, historyBefore, entry);
      CountByLast(history, entry);
      CountOneMore(Alone(history[..|history| - 1], turns, now, historyBefore), history[|history| - 1], StandsAlone(history[|history| - 1], turns, now, historyBefore), entry);
    }
  }

  // ---- turns in the order they started ----

  function StartOf(turn: TurnRecord): int { turn.startedAt.GetOr(0) }

  function InsertTurn(turns: seq<TurnRecord>, turn: TurnRecord): seq<TurnRecord> {
    if turns == [] || StartOf(turns[|turns| - 1]) <= StartOf(turn) then turns + [turn]
    else InsertTurn(turns[..|turns| - 1], turn) + [turns[|turns| - 1]]
  }

  /** The real turns, by start; those that start together stay in their order. */
  function RealTurns(turns: seq<TurnRecord>): seq<TurnRecord> {
    if turns == [] then []
    else
      var rest, last := RealTurns(turns[..|turns| - 1]), turns[|turns| - 1];
      if last.kind.Turn? then InsertTurn(rest, last) else rest
  }

  lemma {:induction false} InsertTurnIs(turns: seq<TurnRecord>, turn: TurnRecord)
    ensures multiset(InsertTurn(turns, turn)) == multiset(turns) + multiset{turn}
    ensures forall t :: t in InsertTurn(turns, turn) <==> t in turns || t == turn
  {
    if !(turns == [] || StartOf(turns[|turns| - 1]) <= StartOf(turn)) {
      InsertTurnIs(turns[..|turns| - 1], turn);
      assert turns == turns[..|turns| - 1] + [turns[|turns| - 1]];
    }
  }

  ghost predicate IdsOnce(turns: seq<TurnRecord>) {
    forall i, j :: 0 <= i < j < |turns| ==> turns[i].turnId != turns[j].turnId
  }

  lemma {:induction false} InsertKeepsIdsOnce(turns: seq<TurnRecord>, turn: TurnRecord)
    requires IdsOnce(turns) && forall t :: t in turns ==> t.turnId != turn.turnId
    ensures IdsOnce(InsertTurn(turns, turn))
  {
    if !(turns == [] || StartOf(turns[|turns| - 1]) <= StartOf(turn)) {
      var rest, last := turns[..|turns| - 1], turns[|turns| - 1];
      InsertKeepsIdsOnce(rest, turn);
      InsertTurnIs(rest, turn);
      var before := InsertTurn(rest, turn);
      forall i | 0 <= i < |before| ensures before[i].turnId != last.turnId {
        assert before[i] in before;
      }
    }
  }

  lemma {:induction false} RealTurnsAre(turns: seq<TurnRecord>)
    requires IdsOnce(turns)
    ensures IdsOnce(RealTurns(turns)) && forall t :: t in RealTurns(turns) <==> t in turns && t.kind.Turn?
  {
    if turns != [] {
      var rest, last := turns[..|turns| - 1], turns[|turns| - 1];
      assert turns == rest + [last];
      RealTurnsAre(rest);
      if last.kind.Turn? {
        InsertTurnIs(RealTurns(rest), last);
        forall t | t in RealTurns(rest) ensures t.turnId != last.turnId {
          var i :| 0 <= i < |rest| && rest[i] == t;
          assert turns[i].turnId != turns[|rest|].turnId;
        }
        InsertKeepsIdsOnce(RealTurns(rest), last);
      }
    }
  }

  ghost predicate ByStart(turns: seq<TurnRecord>) {
    forall i, j :: 0 <= i < j < |turns| ==> StartOf(turns[i]) <= StartOf(turns[j])
  }

  /** The turns with this start, in their order. */
  function Starting(turns: seq<TurnRecord>, at: int): seq<TurnRecord> {
    if turns == [] then []
    else
      var last := turns[|turns| - 1];
      Starting(turns[..|turns| - 1], at) + if last.kind.Turn? && StartOf(last) == at then [last] else []
  }

  lemma StartingAppends(turns: seq<TurnRecord>, last: TurnRecord, at: int)
    ensures Starting(turns + [last], at) == Starting(turns, at) + if last.kind.Turn? && StartOf(last) == at then [last] else []
  {
    assert (turns + [last])[..|turns|] == turns;
  }

  lemma {:induction false} InsertSorts(turns: seq<TurnRecord>, turn: TurnRecord)
    requires ByStart(turns)
    ensures ByStart(InsertTurn(turns, turn))
  {
    if !(turns == [] || StartOf(turns[|turns| - 1]) <= StartOf(turn)) {
      var rest := turns[..|turns| - 1];
      InsertSorts(rest, turn);
      InsertTurnIs(rest, turn);
      var before := InsertTurn(rest, turn);
      forall i | 0 <= i < |before| ensures StartOf(before[i]) <= StartOf(turns[|turns| - 1]) { assert before[i] in before; }
    }
  }

  lemma {:induction false} InsertKeepsOrder(turns: seq<TurnRecord>, turn: TurnRecord, at: int)
    requires turn.kind.Turn?
    ensures Starting(InsertTurn(turns, turn), at) == Starting(turns, at) + if StartOf(turn) == at then [turn] else []
  {
    StartingAppends(turns, turn, at);
    if !(turns == [] || StartOf(turns[|turns| - 1]) <= StartOf(turn)) {
      var rest, last := turns[..|turns| - 1], turns[|turns| - 1];
      assert turns == rest + [last];
      InsertKeepsOrder(rest, turn, at);
      StartingAppends(rest, last, at);
      StartingAppends(InsertTurn(rest, turn), last, at);
    }
  }

  /** The real turns are sorted by start, and those that start together keep the order they had. */
  lemma {:induction false} RealTurnsSorted(turns: seq<TurnRecord>, at: int)
    ensures ByStart(RealTurns(turns)) && Starting(RealTurns(turns), at) == Starting(turns, at)
  {
    if turns != [] {
      var rest, last := turns[..|turns| - 1], turns[|turns| - 1];
      RealTurnsSorted(rest, at);
      if last.kind.Turn? {
        InsertSorts(RealTurns(rest), last);
        InsertKeepsOrder(RealTurns(rest), last, at);
      }
    }
  }
}
