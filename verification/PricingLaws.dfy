/** What requests cost, in the fields of the price and the request alone. */
module PricingLaws {
  import opened Common
  import opened Tokens
  import opened Pricing

  // ---- the rates, by the price's own list ----

  /** The tier a prompt is charged at: none when it is over none, else the first of the highest it is over. */
  ghost predicate IsTierOf(price: ModelPrice, prompt: nat, tier: Option<PriceTier>) {
    match tier
    case None => forall i :: 0 <= i < |price.tiers| ==> prompt <= price.tiers[i].above
    case Some(t) => exists i :: IsHighestOver(price.tiers, prompt, i) && price.tiers[i] == t
  }

  ghost function InputAt(price: ModelPrice, tier: Option<PriceTier>): real {
    if tier.Some? && tier.value.input.Some? then tier.value.input.value else price.input
  }

  ghost function OutputAt(price: ModelPrice, tier: Option<PriceTier>): real {
    if tier.Some? && tier.value.output.Some? then tier.value.output.value else price.output
  }

  /** A kind of cached tokens goes at the tier's rate, the base one where the tier has none, and as input where neither has. */
  ghost function ReadAt(price: ModelPrice, tier: Option<PriceTier>): real {
    if tier.Some? && tier.value.cacheRead.Some? then tier.value.cacheRead.value
    else if price.cacheRead.Some? then price.cacheRead.value
    else InputAt(price, tier)
  }

  ghost function WriteAt(price: ModelPrice, tier: Option<PriceTier>): real {
    if tier.Some? && tier.value.cacheWrite.Some? then tier.value.cacheWrite.value
    else if price.cacheWrite.Some? then price.cacheWrite.value
    else InputAt(price, tier)
  }

  /** A write kept for an hour: twice the input of a Claude model, any other's as a write. */
  ghost function HourAt(price: ModelPrice, tier: Option<PriceTier>): real {
    if price.claude then 2.0 * InputAt(price, tier) else WriteAt(price, tier)
  }

  /** The dollars for so many tokens of each kind, no more of the writes at the hour's rate than there are. */
  ghost function UsdFor(a: Amounts, price: ModelPrice, tier: Option<PriceTier>): real {
    var hour := if a.cacheWrite1h < a.cacheWrite then a.cacheWrite1h else a.cacheWrite;
    a.input * InputAt(price, tier) + a.output * OutputAt(price, tier) + a.cacheRead * ReadAt(price, tier)
    + (a.cacheWrite - hour) * WriteAt(price, tier) + hour * HourAt(price, tier)
  }

  /** A request's own counts, with the part of its cache writes it keeps. */
  ghost function CountsOf(t: Tokens, keep: real): Amounts {
    Amounts(t.input as real, t.output as real, t.cacheRead as real, t.cacheWrite as real * keep, t.cacheWrite1h as real)
  }

  lemma CountsAre(t: Tokens, keep: real)
    ensures Kept(t, keep) == CountsOf(t, keep) && AmountsOf(t) == CountsOf(t, 1.0)
  {
  }

  lemma TierIsOf(price: ModelPrice, prompt: nat)
    ensures IsTierOf(price, prompt, TierFor(price, Some(prompt)))
    ensures forall tier :: IsTierOf(price, prompt, tier) ==> tier == TierFor(price, Some(prompt))
  {
    TierIsFirstHighest(price.tiers, prompt);
    forall tier | IsTierOf(price, prompt, tier) ensures tier == TierFor(price, Some(prompt)) {
      OneTier(price.tiers, prompt, tier, TierFor(price, Some(prompt)));
    }
  }

  lemma OneTier(tiers: seq<PriceTier>, prompt: nat, a: Option<PriceTier>, b: Option<PriceTier>)
    requires if a.None? then forall i :: 0 <= i < |tiers| ==> prompt <= tiers[i].above else exists i :: IsHighestOver(tiers, prompt, i) && tiers[i] == a.value
    requires if b.None? then forall i :: 0 <= i < |tiers| ==> prompt <= tiers[i].above else exists i :: IsHighestOver(tiers, prompt, i) && tiers[i] == b.value
    ensures a == b
  {
    if a.Some? && b.Some? {
      var i :| IsHighestOver(tiers, prompt, i) && tiers[i] == a.value;
      var j :| IsHighestOver(tiers, prompt, j) && tiers[j] == b.value;
      assert i == j;
    }
  }

  lemma RatesAt(price: ModelPrice, prompt: Option<nat>, tier: Option<PriceTier>)
    requires tier == TierFor(price, prompt)
    ensures KindRatesOf(RatesFor(price, prompt), price.claude)
      == KindRates(InputAt(price, tier), OutputAt(price, tier), ReadAt(price, tier), WriteAt(price, tier), HourAt(price, tier))
  {
  }

  lemma CostsAt(a: Amounts, price: ModelPrice, prompt: Option<nat>, tier: Option<PriceTier>)
    requires 0.0 <= a.cacheWrite && 0.0 <= a.cacheWrite1h && tier == TierFor(price, prompt)
    ensures CostOf(a, price, prompt).usd == UsdFor(a, price, tier)
  {
    RatesAt(price, prompt, tier);
    CostIsCharge(a, price, prompt);
  }

  // ---- what is charged ----

  /** A request whose prompt is over no tier costs the base rates, kind by kind. */
  lemma UntieredRequestCosts(t: Tokens, price: ModelPrice, prompt: nat)
    requires forall i :: 0 <= i < |price.tiers| ==> prompt <= price.tiers[i].above
    ensures var cost := CostOf(AmountsOf(t), price, Some(prompt));
      && cost.usd == UsdFor(CountsOf(t, 1.0), price, None)
      && cost.tierAbove == None && !cost.isUnsized
  {
    TierIsOf(price, prompt);
    assert IsTierOf(price, prompt, None);
    CountsAre(t, 1.0);
    CostsAt(AmountsOf(t), price, Some(prompt), None);
  }

  /** One over a tier costs that tier's rates, and the base rate of each kind the tier leaves out. */
  lemma TieredRequestCosts(t: Tokens, price: ModelPrice, prompt: nat, i: nat)
    requires IsHighestOver(price.tiers, prompt, i)
    ensures var cost := CostOf(AmountsOf(t), price, Some(prompt));
      && cost.usd == UsdFor(CountsOf(t, 1.0), price, Some(price.tiers[i]))
      && cost.tierAbove == Some(price.tiers[i].above) && !cost.isUnsized
  {
    TierIsOf(price, prompt);
    assert IsTierOf(price, prompt, Some(price.tiers[i]));
    CountsAre(t, 1.0);
    CostsAt(AmountsOf(t), price, Some(prompt), Some(price.tiers[i]));
  }

  /** Tokens of no one request cost the base rates, and are unsized exactly when the price has a tier. */
  lemma SummedTokensCost(t: Tokens, price: ModelPrice)
    ensures var cost := CostOf(AmountsOf(t), price, None);
      && cost.usd == UsdFor(CountsOf(t, 1.0), price, None)
      && cost.tierAbove == None && (cost.isUnsized <==> price.tiers != [])
  {
    CountsAre(t, 1.0);
    CostsAt(AmountsOf(t), price, None, None);
  }

  /** A rate is assumed for cached tokens the price, tier included, has no rate for, and for hour-long writes of a model other than Claude's. */
  ghost predicate Assumes(read: real, write: real, hour: real, price: ModelPrice, tier: Option<PriceTier>) {
    || (read > 0.0 && price.cacheRead.None? && (tier.Some? ==> tier.value.cacheRead.None?))
    || (write > 0.0 && price.cacheWrite.None? && (tier.Some? ==> tier.value.cacheWrite.None?))
    || (hour > 0.0 && write > 0.0 && !price.claude)
  }

  lemma AssumedIff(a: Amounts, price: ModelPrice, prompt: Option<nat>, tier: Option<PriceTier>)
    requires tier == TierFor(price, prompt)
    ensures var cost := CostOf(a, price, prompt);
      && (cost.assumed <==> Assumes(a.cacheRead, a.cacheWrite, a.cacheWrite1h, price, tier))
      && (cost.approximate <==> cost.assumed || cost.isUnsized)
  {
  }

  // ---- a turn's requests ----

  function SumWrites(requests: seq<Tokens>): nat {
    if requests == [] then 0 else requests[0].cacheWrite + SumWrites(requests[1..])
  }

  lemma {:induction false} SumsWrites(requests: seq<Tokens>)
    ensures TotalWrites(requests) == SumWrites(requests)
  {
    if requests != [] {
      WritesAppend(requests[0], requests[1..]);
      SumsWrites(requests[1..]);
      assert requests == [requests[0]] + requests[1..];
    }
  }

  lemma {:induction false} WritesAppend(head: Tokens, rest: seq<Tokens>)
    ensures TotalWrites([head] + rest) == head.cacheWrite + TotalWrites(rest)
  {
    if rest == [] {
      assert [head] + rest == [head] && [head][..0] == [];
      assert TotalWrites([head]) == TotalWrites([]) + head.cacheWrite;
    } else {
      var n := |rest| - 1;
      assert ([head] + rest)[..n + 1] == [head] + rest[..n];
      WritesAppend(head, rest[..n]);
    }
  }

  /** The part of its cache writes a request keeps: what is not in the line for the hour-long writes of the turn. */
  ghost predicate IsKeptPart(requests: seq<Tokens>, unmatchedOneHour: nat, keep: real) {
    var writes := SumWrites(requests);
    if unmatchedOneHour == 0 || writes == 0 then keep == 1.0
    else if unmatchedOneHour >= writes then keep == 0.0
    else keep * writes as real == (writes - unmatchedOneHour) as real
  }

  lemma KeepsPart(requests: seq<Tokens>, unmatchedOneHour: nat)
    ensures IsKeptPart(requests, unmatchedOneHour, KeepOf(requests, unmatchedOneHour))
  {
    SumsWrites(requests);
    var writes := SumWrites(requests);
    if unmatchedOneHour > 0 && writes > 0 {
      KeepIs(Min(unmatchedOneHour, writes), writes, KeepOf(requests, unmatchedOneHour));
    }
  }

  lemma KeepIs(oneHour: nat, writes: nat, keep: real)
    requires 0 < oneHour <= writes && keep == 1.0 - oneHour as real / writes as real
    ensures keep * writes as real == (writes - oneHour) as real && (oneHour == writes ==> keep == 0.0)
  {
    KeepTimes(oneHour as real, writes as real);
    if oneHour == writes { NoProduct(keep, writes as real); }
  }

  lemma KeepTimes(part: real, whole: real)
    requires whole > 0.0
    ensures (1.0 - part / whole) * whole == whole - part
  {
  }

  /** Each request in its order, sized by its own prompt and charged for what it keeps. */
  lemma EachRequestCosts(requests: seq<Tokens>, price: ModelPrice, unmatchedOneHour: nat, i: nat, tier: Option<PriceTier>, keep: real)
    requires i < |requests| && keep == KeepOf(requests, unmatchedOneHour)
    requires IsTierOf(price, requests[i].input + requests[i].cacheRead + requests[i].cacheWrite, tier)
    ensures var r, priced := requests[i], PricedRequests(requests, price, keep);
      && |priced| == |requests|
      && priced[i] == PricedRequest(
           i + 1, r.input + r.cacheRead + r.cacheWrite,
           UsdFor(CountsOf(r, keep), price, tier),
           if tier.None? then None else Some(tier.value.above))
  {
    WritesAddUp(requests, unmatchedOneHour);
    KeptIsSome(requests[i], keep);
    CountsAre(requests[i], keep);
    PricedCosts(CountsOf(requests[i], keep), price, PromptTokens(requests[i]), tier);
  }

  lemma PricedCosts(a: Amounts, price: ModelPrice, prompt: nat, tier: Option<PriceTier>)
    requires 0.0 <= a.cacheWrite && 0.0 <= a.cacheWrite1h && IsTierOf(price, prompt, tier)
    ensures var cost := CostOf(a, price, Some(prompt));
      cost.usd == UsdFor(a, price, tier) && cost.tierAbove == if tier.None? then None else Some(tier.value.above)
  {
    TierIsOf(price, prompt);
    CostsAt(a, price, Some(prompt), tier);
  }

  /** The line for the hour-long writes goes at the highest hour's rate any of the requests is charged at. */
  lemma LineCosts(line: OneHourLine, requests: seq<Tokens>, price: ModelPrice) returns (r: Tokens, tier: Option<PriceTier>)
    requires LineAt(line, requests, price)
    ensures r in requests && IsTierOf(price, r.input + r.cacheRead + r.cacheWrite, tier) && line.usd == line.tokens as real * HourAt(price, tier)
    ensures forall other, at :: other in requests && IsTierOf(price, other.input + other.cacheRead + other.cacheWrite, at) ==> HourAt(price, at) <= HourAt(price, tier)
  {
    var rate :| ChargedAt(line, requests, price, rate);
    r :| r in requests && rate == RateOf(r, price);
    tier := TierFor(price, Some(PromptTokens(r)));
    TierIsOf(price, PromptTokens(r));
    RateIsAt(r, price, tier);
    forall other, at | other in requests && IsTierOf(price, other.input + other.cacheRead + other.cacheWrite, at)
      ensures HourAt(price, at) <= HourAt(price, tier)
    {
      RateIsAt(other, price, at);
      assert RateOf(other, price) in LineRates(requests, price);
    }
  }

  lemma RateIsAt(r: Tokens, price: ModelPrice, tier: Option<PriceTier>)
    requires IsTierOf(price, r.input + r.cacheRead + r.cacheWrite, tier)
    ensures HourAt(price, tier) == if price.claude then 2.0 * RateOf(r, price) else RateOf(r, price)
  {
    TierIsOf(price, PromptTokens(r));
    RatesAt(price, Some(PromptTokens(r)), tier);
  }

  /** A turn of one request with no other hour-long writes costs just that request. */
  lemma OneRequestTurn(r: Tokens, price: ModelPrice, tier: Option<PriceTier>)
    requires IsTierOf(price, r.input + r.cacheRead + r.cacheWrite, tier)
    ensures RequestsUsd([r], price, 0, None)
      == UsdFor(CountsOf(r, 1.0), price, tier)
  {
    EachRequestCosts([r], price, 0, 0, tier, 1.0);
    var priced := PricedRequests([r], price, 1.0);
    assert priced[..0] == [] && SumUsd(priced) == SumUsd(priced[..0]) + priced[0].usd;
  }
}
