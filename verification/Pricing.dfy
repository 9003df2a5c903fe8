/** Rates, the cost of one request, and the cost of a turn's requests, in exact arithmetic. */
module Pricing {
  import opened Common
  import opened Tokens

  /** The rates a tier sets; a kind it omits keeps the base rate. */
  datatype PriceTier = PriceTier(above: nat, input: Option<real>, output: Option<real>, cacheRead: Option<real>, cacheWrite: Option<real>)

  datatype ModelPrice = ModelPrice(input: real, output: real, cacheRead: Option<real>, cacheWrite: Option<real>, claude: bool, tiers: seq<PriceTier>)

  datatype Rates = Rates(input: real, output: real, cacheRead: Option<real>, cacheWrite: Option<real>)

  // ---- the tier a prompt is charged at ----

  /** Puts a tier behind every tier that starts no lower. */
  function Insert(tiers: seq<PriceTier>, tier: PriceTier): seq<PriceTier> {
    if tiers == [] || tiers[0].above < tier.above then [tier] + tiers
    else [tiers[0]] + Insert(tiers[1..], tier)
  }

  /** The tiers, highest first; those that start alike stay in their order. */
  function HighestFirst(tiers: seq<PriceTier>): seq<PriceTier> {
    if tiers == [] then [] else Insert(HighestFirst(tiers[..|tiers| - 1]), tiers[|tiers| - 1])
  }

  function FirstUnder(tiers: seq<PriceTier>, prompt: nat): Option<PriceTier> {
    if tiers == [] then None
    else if prompt > tiers[0].above then Some(tiers[0])
    else FirstUnder(tiers[1..], prompt)
  }

  function TierFor(price: ModelPrice, prompt: Option<nat>): Option<PriceTier> {
    if prompt.None? then None else FirstUnder(HighestFirst(price.tiers), prompt.value)
  }

  ghost predicate Descending(tiers: seq<PriceTier>) {
    forall i, j :: 0 <= i < j < |tiers| ==> tiers[i].above >= tiers[j].above
  }

  lemma {:induction false} InsertKeepsAll(tiers: seq<PriceTier>, tier: PriceTier)
    ensures multiset(Insert(tiers, tier)) == multiset(tiers) + multiset{tier}
    ensures forall t :: t in Insert(tiers, tier) <==> t in tiers || t == tier
  {
    if tiers != [] && tiers[0].above >= tier.above {
      InsertKeepsAll(tiers[1..], tier);
      assert tiers == [tiers[0]] + tiers[1..];
    }
  }

  lemma {:induction false} InsertKeepsOrder(tiers: seq<PriceTier>, tier: PriceTier)
    requires Descending(tiers)
    ensures Descending(Insert(tiers, tier))
  {
    if tiers != [] && tiers[0].above >= tier.above {
      InsertKeepsOrder(tiers[1..], tier);
      InsertKeepsAll(tiers[1..], tier);
      var rest := Insert(tiers[1..], tier);
      forall i | 0 <= i < |rest| ensures tiers[0].above >= rest[i].above { assert rest[i] in rest; }
    }
  }

  lemma {:induction false} HighestFirstSorts(tiers: seq<PriceTier>)
    ensures Descending(HighestFirst(tiers))
    ensures multiset(HighestFirst(tiers)) == multiset(tiers)
    ensures forall t :: t in HighestFirst(tiers) <==> t in tiers
  {
    if tiers != [] {
      var rest, last := tiers[..|tiers| - 1], tiers[|tiers| - 1];
      HighestFirstSorts(rest);
      InsertKeepsOrder(HighestFirst(rest), last);
      InsertKeepsAll(HighestFirst(rest), last);
      assert tiers == rest + [last];
    }
  }

  lemma {:induction false} FirstUnderIs(tiers: seq<PriceTier>, prompt: nat)
    requires Descending(tiers)
    ensures FirstUnder(tiers, prompt).None? <==> forall t :: t in tiers ==> prompt <= t.above
    ensures FirstUnder(tiers, prompt).Some? ==>
      var tier := FirstUnder(tiers, prompt).value;
      tier in tiers && prompt > tier.above && forall t :: t in tiers && prompt > t.above ==> t.above <= tier.above
  {
    if tiers != [] {
      assert tiers == [tiers[0]] + tiers[1..];
      FirstUnderIs(tiers[1..], prompt);
    }
  }

  /** The tier is the highest one the prompt is over; with none under it, or no prompt size, the base rates. */
  lemma TierIsHighest(price: ModelPrice, prompt: nat)
    ensures TierFor(price, Some(prompt)).None? <==> forall t :: t in price.tiers ==> prompt <= t.above
    ensures TierFor(price, Some(prompt)).Some? ==>
      var tier := TierFor(price, Some(prompt)).value;
      tier in price.tiers && prompt > tier.above && forall t :: t in price.tiers && prompt > t.above ==> t.above <= tier.above
  {
    HighestFirstSorts(price.tiers);
    FirstUnderIs(HighestFirst(price.tiers), prompt);
  }

  /** The tier at `i` is the highest the prompt is over, and the first in the list of those that start alike. */
  ghost predicate IsHighestOver(tiers: seq<PriceTier>, prompt: nat, i: int) {
    && 0 <= i < |tiers| && prompt > tiers[i].above
    && forall j :: 0 <= j < |tiers| && prompt > tiers[j].above ==> tiers[j].above < tiers[i].above || (tiers[j].above == tiers[i].above && i <= j)
  }

  lemma {:induction false} InsertFinds(tiers: seq<PriceTier>, tier: PriceTier, prompt: nat)
    requires Descending(tiers)
    ensures var found := FirstUnder(tiers, prompt);
      FirstUnder(Insert(tiers, tier), prompt) == if prompt > tier.above && (found.None? || found.value.above < tier.above) then Some(tier) else found
  {
    FirstUnderIs(tiers, prompt);
    if tiers != [] && tiers[0].above >= tier.above {
      InsertFinds(tiers[1..], tier, prompt);
    }
  }

  /** Which tier of the list it is, exactly. */
  lemma {:induction false} TierIsFirstHighest(tiers: seq<PriceTier>, prompt: nat)
    ensures var found := FirstUnder(HighestFirst(tiers), prompt);
      && (found.None? <==> forall i :: 0 <= i < |tiers| ==> prompt <= tiers[i].above)
      && (found.Some? ==> exists i :: IsHighestOver(tiers, prompt, i) && tiers[i] == found.value)
  {
    if tiers != [] {
      var n := |tiers| - 1;
      var rest, last := tiers[..n], tiers[n];
      TierIsFirstHighest(rest, prompt);
      HighestFirstSorts(rest);
      InsertFinds(HighestFirst(rest), last, prompt);
      var found := FirstUnder(HighestFirst(rest), prompt);
      assert forall i :: 0 <= i < n ==> rest[i] == tiers[i];
      if found.Some? {
        var i :| IsHighestOver(rest, prompt, i) && rest[i] == found.value;
        if prompt > last.above && found.value.above < last.above {
          assert IsHighestOver(tiers, prompt, n);
        } else {
          assert IsHighestOver(tiers, prompt, i);
        }
      } else if prompt > last.above {
        assert IsHighestOver(tiers, prompt, n);
      }
    }
  }

  /** Whatever order the list gives the tiers in, the same one is chosen, when no two start at one size. */
  lemma TierOrderDoesNotMatter(price: ModelPrice, tiers: seq<PriceTier>, prompt: Option<nat>)
    requires multiset(tiers) == multiset(price.tiers)
    requires forall t, u :: t in tiers && u in tiers && t.above == u.above ==> t == u
    ensures TierFor(price.(tiers := tiers), prompt) == TierFor(price, prompt)
  {
    if prompt.Some? {
      forall t ensures t in tiers <==> t in price.tiers { assert t in tiers <==> t in multiset(tiers); }
      TierIsHighest(price, prompt.value);
      TierIsHighest(price.(tiers := tiers), prompt.value);
    }
  }

  function RatesFor(price: ModelPrice, prompt: Option<nat>): Rates {
    match TierFor(price, prompt)
    case None => Rates(price.input, price.output, price.cacheRead, price.cacheWrite)
    case Some(tier) =>
      Rates(tier.input.GetOr(price.input), tier.output.GetOr(price.output),
            if tier.cacheRead.Some? then tier.cacheRead else price.cacheRead,
            if tier.cacheWrite.Some? then tier.cacheWrite else price.cacheWrite)
  }

  // ---- the cost of tokens ----

  /** Tokens to be charged; a share of a request's cache writes need not be whole. */
  datatype Amounts = Amounts(input: real, output: real, cacheRead: real, cacheWrite: real, cacheWrite1h: real)

  function AmountsOf(t: Tokens): Amounts {
    Amounts(t.input as real, t.output as real, t.cacheRead as real, t.cacheWrite as real, t.cacheWrite1h as real)
  }

  function AddAmounts(a: Amounts, b: Amounts): Amounts {
    Amounts(a.input + b.input, a.output + b.output, a.cacheRead + b.cacheRead, a.cacheWrite + b.cacheWrite, a.cacheWrite1h + b.cacheWrite1h)
  }

  function MinReal(a: real, b: real): real { if b < a then b else a }

  function ReadRate(rates: Rates): real { rates.cacheRead.GetOr(rates.input) }

  function WriteRate(rates: Rates): real { rates.cacheWrite.GetOr(rates.input) }

  /** A Claude model's 1-hour writes cost twice its input rate; another's, its write rate. */
  function OneHourRate(rates: Rates, claude: bool): real { if claude then 2.0 * rates.input else WriteRate(rates) }

  datatype CostResult = CostResult(usd: real, approximate: bool, isUnsized: bool, assumed: bool, tierAbove: Option<nat>, rates: Rates)

  function CostOf(tokens: Amounts, price: ModelPrice, prompt: Option<nat>): CostResult {
    var rates, tier := RatesFor(price, prompt), TierFor(price, prompt);
    var isUnsized := prompt.None? && |price.tiers| > 0;
    var oneHour := MinReal(tokens.cacheWrite1h, tokens.cacheWrite);
    var fiveMinute := tokens.cacheWrite - oneHour;
    var assumed :=
      || (tokens.cacheRead > 0.0 && rates.cacheRead.None?)
      || (tokens.cacheWrite > 0.0 && rates.cacheWrite.None?)
      || (oneHour > 0.0 && !price.claude);
    var oneHourRate := if oneHour > 0.0 && price.claude then 2.0 * rates.input else WriteRate(rates);
    var usd := tokens.input * rates.input + tokens.output * rates.output + tokens.cacheRead * ReadRate(rates)
               + fiveMinute * WriteRate(rates) + oneHour * oneHourRate;
    CostResult(usd, isUnsized || assumed, isUnsized, assumed, if tier.None? then None else Some(tier.value.above), rates)
  }

  /** The rate of each kind, with the ones a price leaves out filled in. */
  datatype KindRates = KindRates(input: real, output: real, cacheRead: real, cacheWrite: real, cacheWrite1h: real)

  function KindRatesOf(rates: Rates, claude: bool): KindRates {
    KindRates(rates.input, rates.output, ReadRate(rates), WriteRate(rates), OneHourRate(rates, claude))
  }

  /** What amounts cost at fixed rates: five terms, each linear. */
  function ChargeAt(a: Amounts, r: KindRates): real {
    a.input * r.input + a.output * r.output + a.cacheRead * r.cacheRead + (a.cacheWrite - a.cacheWrite1h) * r.cacheWrite + a.cacheWrite1h * r.cacheWrite1h
  }

  /** No more 1-hour writes than writes are charged. */
  function Within(a: Amounts): Amounts { a.(cacheWrite1h := MinReal(a.cacheWrite1h, a.cacheWrite)) }

  /** Tokens cost what the rates charge for them. */
  lemma CostIsCharge(tokens: Amounts, price: ModelPrice, prompt: Option<nat>)
    requires 0.0 <= tokens.cacheWrite1h && 0.0 <= tokens.cacheWrite
    ensures CostOf(tokens, price, prompt).usd == ChargeAt(Within(tokens), KindRatesOf(RatesFor(price, prompt), price.claude))
  {
  }

  lemma Distributes(a: real, b: real, r: real)
    ensures (a + b) * r == a * r + b * r
  {
  }

  lemma ChargeAdds(a: Amounts, b: Amounts, r: KindRates)
    ensures ChargeAt(AddAmounts(a, b), r) == ChargeAt(a, r) + ChargeAt(b, r)
  {
    Distributes(a.input, b.input, r.input);
    Distributes(a.output, b.output, r.output);
    Distributes(a.cacheRead, b.cacheRead, r.cacheRead);
    Distributes(a.cacheWrite - a.cacheWrite1h, b.cacheWrite - b.cacheWrite1h, r.cacheWrite);
    Distributes(a.cacheWrite1h, b.cacheWrite1h, r.cacheWrite1h);
  }

  // ---- the cost of a turn's requests ----

  /** One priced request of a turn, numbered in the order the requests were made. */
  datatype PricedRequest = PricedRequest(number: nat, prompt: nat, usd: real, tierAbove: Option<nat>)

  /** The 1-hour cache writes no request carries, as a line of their own. */
  datatype OneHourLine = OneHourLine(tokens: nat, usd: real)

  datatype RequestsCost = RequestsCost(usd: real, approximate: bool, assumed: bool, requests: seq<PricedRequest>, oneHour: Option<OneHourLine>)

  function TotalWrites(requests: seq<Tokens>): nat {
    if requests == [] then 0 else TotalWrites(requests[..|requests| - 1]) + requests[|requests| - 1].cacheWrite
  }

  function OneHourWrites(requests: seq<Tokens>, unmatchedOneHour: nat): nat {
    Min(unmatchedOneHour, TotalWrites(requests))
  }

  /** The part of every request's cache writes that stays with it as 5-minute writes. */
  function KeepOf(requests: seq<Tokens>, unmatchedOneHour: nat): real {
    var oneHour, total := OneHourWrites(requests, unmatchedOneHour), TotalWrites(requests);
    if oneHour > 0 then 1.0 - oneHour as real / total as real else 1.0
  }

  function Kept(r: Tokens, keep: real): Amounts { AmountsOf(r).(cacheWrite := r.cacheWrite as real * keep) }

  function PricedAt(requests: seq<Tokens>, price: ModelPrice, keep: real, i: nat): PricedRequest
    requires i < |requests|
  {
    var prompt := PromptTokens(requests[i]);
    var cost := CostOf(Kept(requests[i], keep), price, Some(prompt));
    PricedRequest(i + 1, prompt, cost.usd, cost.tierAbove)
  }

  function PricedRequests(requests: seq<Tokens>, price: ModelPrice, keep: real): seq<PricedRequest> {
    seq(|requests|, i requires 0 <= i < |requests| => PricedAt(requests, price, keep, i))
  }

  function SumUsd(priced: seq<PricedRequest>): real {
    if priced == [] then 0.0 else SumUsd(priced[..|priced| - 1]) + priced[|priced| - 1].usd
  }

  predicate IsHighest(rate: real, rates: set<real>) { rate in rates && forall r :: r in rates ==> r <= rate }

  function InputRates(requests: seq<Tokens>, price: ModelPrice): set<real> {
    set r | r in requests :: RatesFor(price, Some(PromptTokens(r))).input
  }

  /** The rates of which the 1-hour line takes the highest. */
  function LineRates(requests: seq<Tokens>, price: ModelPrice): set<real> {
    if price.claude then InputRates(requests, price) else WriteRates(requests, price)
  }

  function WriteRates(requests: seq<Tokens>, price: ModelPrice): set<real> {
    set r | r in requests :: WriteRate(RatesFor(price, Some(PromptTokens(r))))
  }

  /** The line's rate is twice the highest input rate of a Claude model, the highest write rate of another. */
  ghost predicate LineAt(line: OneHourLine, requests: seq<Tokens>, price: ModelPrice) {
    exists rate :: ChargedAt(line, requests, price, rate)
  }

  predicate ChargedAt(line: OneHourLine, requests: seq<Tokens>, price: ModelPrice, rate: real) {
    && IsHighest(rate, LineRates(requests, price))
    && line.usd == line.tokens as real * (if price.claude then 2.0 * rate else rate)
  }

  method PriceRequests(requests: seq<Tokens>, price: ModelPrice, unmatchedOneHour: nat) returns (cost: RequestsCost)
    ensures cost.requests == PricedRequests(requests, price, KeepOf(requests, unmatchedOneHour))
    ensures cost.oneHour.Some? <==> OneHourWrites(requests, unmatchedOneHour) > 0
    ensures cost.oneHour.Some? ==> cost.oneHour.value.tokens == OneHourWrites(requests, unmatchedOneHour) && LineAt(cost.oneHour.value, requests, price)
    ensures cost.usd == SumUsd(cost.requests) + if cost.oneHour.Some? then cost.oneHour.value.usd else 0.0
    ensures cost.approximate == cost.assumed
    ensures cost.assumed <==>
      || AnyAssumed(requests, price, KeepOf(requests, unmatchedOneHour), |requests|)
      || (OneHourWrites(requests, unmatchedOneHour) > 0 && (!price.claude || |InputRates(requests, price)| > 1))
  {
    var oneHour := OneHourWrites(requests, unmatchedOneHour);
    var keep := KeepOf(requests, unmatchedOneHour);
    var priced, inputRates, usd, assumed := [], {}, 0.0, false;
    for i := 0 to |requests|
      invariant PricedUpTo(requests, price, keep, i, priced, usd)
      invariant assumed == AnyAssumed(requests, price, keep, i)
      invariant inputRates == InputRates(requests[..i], price)
    {
      var prompt := PromptTokens(requests[i]);
      var one := CostOf(Kept(requests[i], keep), price, Some(prompt));
      PricedOneMore(requests, price, keep, i, priced, usd);
      RatesOneMore(requests, price, i);
      priced := priced + [PricedRequest(i + 1, prompt, one.usd, one.tierAbove)];
      inputRates := inputRates + {one.rates.input};
      usd := usd + one.usd;
      assumed := assumed || one.assumed;
    }
    assert requests[..|requests|] == requests;
    var line := None;
    if oneHour > 0 {
      var one := PriceOneHour(requests, price, oneHour);
      line := Some(one);
      usd := usd + one.usd;
      assumed := assumed || !price.claude || |inputRates| > 1;
    }
    assert priced == PricedRequests(requests, price, keep);
    cost := RequestsCost(usd, assumed, assumed, priced, line);
  }

  function RateOf(r: Tokens, price: ModelPrice): real {
    var rates := RatesFor(price, Some(PromptTokens(r)));
    if price.claude then rates.input else WriteRate(rates)
  }

  /** The highest rate any request's 1-hour writes go by. */
  method Highest(requests: seq<Tokens>, price: ModelPrice) returns (rate: real)
    requires requests != []
    ensures IsHighest(rate, LineRates(requests, price))
  {
    rate := RateOf(requests[0], price);
    for i := 1 to |requests|
      invariant exists k :: 0 <= k < i && rate == RateOf(requests[k], price)
      invariant forall k :: 0 <= k < i ==> RateOf(requests[k], price) <= rate
    {
      if RateOf(requests[i], price) > rate { rate := RateOf(requests[i], price); }
    }
    RatesAre(requests, price);
  }

  lemma RatesAre(requests: seq<Tokens>, price: ModelPrice)
    ensures forall rate :: rate in LineRates(requests, price) <==>
      exists k :: 0 <= k < |requests| && rate == RateOf(requests[k], price)
  {
    forall rate | rate in LineRates(requests, price)
      ensures exists k :: 0 <= k < |requests| && rate == RateOf(requests[k], price)
    {
      var r :| r in requests && rate == RateOf(r, price);
      var k :| 0 <= k < |requests| && requests[k] == r;
    }
  }

  method PriceOneHour(requests: seq<Tokens>, price: ModelPrice, tokens: nat) returns (line: OneHourLine)
    requires TotalWrites(requests) > 0
    ensures line.tokens == tokens && LineAt(line, requests, price)
  {
    var highest := Highest(requests, price);
    line := OneHourLine(tokens, tokens as real * (if price.claude then 2.0 * highest else highest));
    assert ChargedAt(line, requests, price, highest);
  }

  /** A rate had to be assumed for one of the first k requests. */
  predicate AnyAssumed(requests: seq<Tokens>, price: ModelPrice, keep: real, k: int)
    requires 0 <= k <= |requests|
  {
    exists i :: 0 <= i < k && CostOf(Kept(requests[i], keep), price, Some(PromptTokens(requests[i]))).assumed
  }

  ghost predicate PricedUpTo(requests: seq<Tokens>, price: ModelPrice, keep: real, i: int, priced: seq<PricedRequest>, usd: real) {
    && |priced| == i <= |requests|
    && (forall k :: 0 <= k < i ==> priced[k] == PricedAt(requests, price, keep, k))
    && usd == SumUsd(priced)
  }

  lemma PricedOneMore(requests: seq<Tokens>, price: ModelPrice, keep: real, i: nat, priced: seq<PricedRequest>, usd: real)
    requires i < |requests| && PricedUpTo(requests, price, keep, i, priced, usd)
    ensures var one := PricedAt(requests, price, keep, i);
      PricedUpTo(requests, price, keep, i + 1, priced + [one], usd + one.usd)
  {
    assert (priced + [PricedAt(requests, price, keep, i)])[..i] == priced;
  }

  lemma RatesOneMore(requests: seq<Tokens>, price: ModelPrice, i: nat)
    requires i < |requests|
    ensures InputRates(requests[..i + 1], price) == InputRates(requests[..i], price) + {RatesFor(price, Some(PromptTokens(requests[i]))).input}
  {
    assert requests[..i + 1] == requests[..i] + [requests[i]];
  }

  // ---- nothing is lost between the lines ----

  function KeptWrites(requests: seq<Tokens>, keep: real): real {
    if requests == [] then 0.0
    else KeptWrites(requests[..|requests| - 1], keep) + Kept(requests[|requests| - 1], keep).cacheWrite
  }

  lemma {:induction false} KeptWritesScale(requests: seq<Tokens>, keep: real)
    ensures KeptWrites(requests, keep) == TotalWrites(requests) as real * keep
  {
    if requests != [] {
      var rest, last := requests[..|requests| - 1], requests[|requests| - 1];
      KeptWritesScale(rest, keep);
      Distributes(TotalWrites(rest) as real, last.cacheWrite as real, keep);
    }
  }

  lemma ShareOf(part: real, whole: real)
    requires 0.0 < part <= whole
    ensures 0.0 <= part / whole <= 1.0
    ensures whole * (1.0 - part / whole) == whole - part
  {
    var ratio := part / whole;
    assert ratio * whole == part;
    assert ratio <= 1.0;
    Distributes(1.0, -ratio, whole);
  }

  /** The 5-minute writes the requests keep and the 1-hour line are the requests' cache writes, no more and no fewer. */
  lemma WritesAddUp(requests: seq<Tokens>, unmatchedOneHour: nat)
    ensures KeptWrites(requests, KeepOf(requests, unmatchedOneHour)) + OneHourWrites(requests, unmatchedOneHour) as real == TotalWrites(requests) as real
    ensures 0.0 <= KeepOf(requests, unmatchedOneHour) <= 1.0
  {
    var oneHour, total, keep := OneHourWrites(requests, unmatchedOneHour) as real, TotalWrites(requests) as real, KeepOf(requests, unmatchedOneHour);
    KeptWritesScale(requests, keep);
    if oneHour > 0.0 { ShareOf(oneHour, total); }
  }

  // ---- the requests charged at a tier, and those that were not ----

  function Tiered(priced: seq<PricedRequest>): seq<PricedRequest> {
    if priced == [] then []
    else Tiered(priced[..|priced| - 1]) + if priced[|priced| - 1].tierAbove.Some? then [priced[|priced| - 1]] else []
  }

  function Untiered(priced: seq<PricedRequest>): seq<PricedRequest> {
    if priced == [] then []
    else Untiered(priced[..|priced| - 1]) + if priced[|priced| - 1].tierAbove.None? then [priced[|priced| - 1]] else []
  }

  /** What the user sees of a turn with a request charged at a tier. */
  datatype TierDetail = TierDetail(requests: nat, tiered: seq<PricedRequest>, untieredCount: nat, untieredUsd: real)

  function TierDetailOf(priced: seq<PricedRequest>): Option<TierDetail> {
    var tiered := Tiered(priced);
    if tiered == [] then None
    else Some(TierDetail(|priced|, tiered, |Untiered(priced)|, SumUsd(Untiered(priced))))
  }

  lemma {:induction false} SplitMembers(priced: seq<PricedRequest>)
    ensures forall r :: r in Tiered(priced) <==> r in priced && r.tierAbove.Some?
    ensures forall r :: r in Untiered(priced) <==> r in priced && r.tierAbove.None?
  {
    if priced != [] {
      assert priced == priced[..|priced| - 1] + [priced[|priced| - 1]];
      SplitMembers(priced[..|priced| - 1]);
    }
  }

  lemma SumOneMore(priced: seq<PricedRequest>, last: PricedRequest)
    ensures SumUsd(priced + [last]) == SumUsd(priced) + last.usd
  {
    assert (priced + [last])[..|priced|] == priced;
  }

  lemma {:induction false} TiersSplit(priced: seq<PricedRequest>)
    ensures |Tiered(priced)| + |Untiered(priced)| == |priced|
    ensures SumUsd(Tiered(priced)) + SumUsd(Untiered(priced)) == SumUsd(priced)
  {
    if priced != [] {
      var rest, last := priced[..|priced| - 1], priced[|priced| - 1];
      TiersSplit(rest);
      if last.tierAbove.Some? {
        SumOneMore(Tiered(rest), last);
        assert Untiered(priced) == Untiered(rest);
      } else {
        SumOneMore(Untiered(rest), last);
        assert Tiered(priced) == Tiered(rest);
      }
    }
  }

  /** Tiered, untiered and 1-hour dollars are the turn's dollars, and each request is on one side. */
  lemma DetailAddsUp(cost: RequestsCost)
    requires cost.usd == SumUsd(cost.requests) + if cost.oneHour.Some? then cost.oneHour.value.usd else 0.0
    ensures TierDetailOf(cost.requests).None? <==> forall r :: r in cost.requests ==> r.tierAbove.None?
    ensures TierDetailOf(cost.requests).Some? ==>
      var detail := TierDetailOf(cost.requests).value;
      && cost.usd == SumUsd(detail.tiered) + detail.untieredUsd + (if cost.oneHour.Some? then cost.oneHour.value.usd else 0.0)
      && |detail.tiered| + detail.untieredCount == detail.requests == |cost.requests|
      && (forall r :: r in detail.tiered ==> r.tierAbove.Some?)
  {
    TiersSplit(cost.requests);
    SplitMembers(cost.requests);
    if Tiered(cost.requests) != [] {
      assert Tiered(cost.requests)[0] in Tiered(cost.requests);
    }
  }

  // ---- one set of rates ----

  /** What a request is charged for: its kept writes, with no more 1-hour writes among them. */
  function Held(r: Tokens, keep: real): Amounts { Within(Kept(r, keep)) }

  function SumAmounts(requests: seq<Tokens>, keep: real): Amounts {
    if requests == [] then Amounts(0.0, 0.0, 0.0, 0.0, 0.0)
    else AddAmounts(SumAmounts(requests[..|requests| - 1], keep), Held(requests[|requests| - 1], keep))
  }

  function AllTokens(requests: seq<Tokens>): Tokens {
    if requests == [] then ZERO_TOKENS else AddTokens(AllTokens(requests[..|requests| - 1]), requests[|requests| - 1])
  }

  /** The 1-hour writes the requests hold themselves. */
  function OwnOneHour(requests: seq<Tokens>, keep: real): real {
    if requests == [] then 0.0
    else OwnOneHour(requests[..|requests| - 1], keep) + Held(requests[|requests| - 1], keep).cacheWrite1h
  }

  lemma {:induction false} AmountsSum(requests: seq<Tokens>, keep: real)
    requires keep >= 0.0
    ensures SumAmounts(requests, keep)
      == AmountsOf(AllTokens(requests)).(cacheWrite := KeptWrites(requests, keep), cacheWrite1h := OwnOneHour(requests, keep))
    ensures AllTokens(requests).cacheWrite == TotalWrites(requests)
    ensures 0.0 <= OwnOneHour(requests, keep) <= KeptWrites(requests, keep)
  {
    if requests != [] {
      AmountsSum(requests[..|requests| - 1], keep);
      KeptIsSome(requests[|requests| - 1], keep);
    }
  }

  lemma KeptIsSome(r: Tokens, keep: real)
    requires keep >= 0.0
    ensures Kept(r, keep).cacheWrite >= 0.0
  {
  }

  /** Each request is charged at these rates. */
  ghost predicate AllAt(requests: seq<Tokens>, price: ModelPrice, rates: KindRates) {
    forall r :: r in requests ==> KindRatesOf(RatesFor(price, Some(PromptTokens(r))), price.claude) == rates
  }

  lemma {:induction false} ChargesSum(requests: seq<Tokens>, price: ModelPrice, rates: KindRates, keep: real)
    requires keep >= 0.0 && AllAt(requests, price, rates)
    ensures SumUsd(PricedRequests(requests, price, keep)) == ChargeAt(SumAmounts(requests, keep), rates)
  {
    if requests != [] {
      var rest, last := requests[..|requests| - 1], requests[|requests| - 1];
      assert requests == rest + [last];
      ChargesSum(rest, price, rates, keep);
      assert PricedRequests(requests, price, keep)[..|rest|] == PricedRequests(rest, price, keep);
      assert last in requests;
      KeptIsSome(last, keep);
      CostIsCharge(Kept(last, keep), price, Some(PromptTokens(last)));
      ChargeAdds(SumAmounts(rest, keep), Held(last, keep), rates);
    }
  }

  /** The summed tokens of the requests, with the 1-hour writes they hold and the unmatched ones. */
  function Together(requests: seq<Tokens>, unmatchedOneHour: nat): Amounts {
    WithOneHour(AmountsOf(AllTokens(requests)), OwnOneHour(requests, KeepOf(requests, unmatchedOneHour)), OneHourWrites(requests, unmatchedOneHour))
  }

  function WithOneHour(all: Amounts, own: real, oneHour: nat): Amounts { all.(cacheWrite1h := own + oneHour as real) }

  lemma LineCharge(line: OneHourLine, requests: seq<Tokens>, price: ModelPrice, rates: KindRates)
    requires requests != [] && LineAt(line, requests, price)
    requires AllAt(requests, price, rates)
    ensures line.usd == line.tokens as real * rates.cacheWrite1h
  {
    var rate :| ChargedAt(line, requests, price, rate);
    assert requests[0] in requests;
  }

  lemma MovedCharge(oneHour: real, rates: KindRates)
    ensures ChargeAt(Amounts(0.0, 0.0, 0.0, oneHour, oneHour), rates) == oneHour * rates.cacheWrite1h
  {
  }

  /** The kept writes and the 1-hour line, put together, are the summed tokens. */
  lemma KeptAndMoved(sum: Amounts, all: Amounts, kept: real, own: real, oneHour: nat)
    requires sum == all.(cacheWrite := kept, cacheWrite1h := own) && kept + oneHour as real == all.cacheWrite
    ensures AddAmounts(sum, Amounts(0.0, 0.0, 0.0, oneHour as real, oneHour as real)) == WithOneHour(all, own, oneHour)
  {
  }

  lemma ChargesJoin(sum: Amounts, all: Amounts, kept: real, own: real, oneHour: nat, rates: KindRates)
    requires sum == all.(cacheWrite := kept, cacheWrite1h := own) && kept + oneHour as real == all.cacheWrite
    ensures ChargeAt(sum, rates) + oneHour as real * rates.cacheWrite1h == ChargeAt(WithOneHour(all, own, oneHour), rates)
  {
    var moved := Amounts(0.0, 0.0, 0.0, oneHour as real, oneHour as real);
    KeptAndMoved(sum, all, kept, own, oneHour);
    ChargeAdds(sum, moved, rates);
    MovedCharge(oneHour as real, rates);
  }

  lemma SumJoins(requests: seq<Tokens>, rates: KindRates, keep: real, oneHour: nat)
    requires keep >= 0.0 && KeptWrites(requests, keep) + oneHour as real == TotalWrites(requests) as real
    ensures ChargeAt(SumAmounts(requests, keep), rates) + oneHour as real * rates.cacheWrite1h
      == ChargeAt(WithOneHour(AmountsOf(AllTokens(requests)), OwnOneHour(requests, keep), oneHour), rates)
  {
    AmountsSum(requests, keep);
    ChargesJoin(SumAmounts(requests, keep), AmountsOf(AllTokens(requests)), KeptWrites(requests, keep), OwnOneHour(requests, keep), oneHour, rates);
  }

  /** What a pricing of the requests comes to, with the line for the unmatched 1-hour writes. */
  function RequestsUsd(requests: seq<Tokens>, price: ModelPrice, unmatchedOneHour: nat, line: Option<OneHourLine>): real {
    SumUsd(PricedRequests(requests, price, KeepOf(requests, unmatchedOneHour))) + LineUsd(line)
  }

  ghost predicate IsLine(requests: seq<Tokens>, price: ModelPrice, unmatchedOneHour: nat, line: Option<OneHourLine>) {
    && (line.Some? <==> OneHourWrites(requests, unmatchedOneHour) > 0)
    && (line.Some? ==> line.value.tokens == OneHourWrites(requests, unmatchedOneHour) && LineAt(line.value, requests, price))
  }

  function LineUsd(line: Option<OneHourLine>): real { if line.Some? then line.value.usd else 0.0 }

  lemma LineIsCharged(requests: seq<Tokens>, price: ModelPrice, unmatchedOneHour: nat, rates: KindRates, line: Option<OneHourLine>)
    requires AllAt(requests, price, rates) && IsLine(requests, price, unmatchedOneHour, line)
    ensures LineUsd(line) == OneHourWrites(requests, unmatchedOneHour) as real * rates.cacheWrite1h
  {
    if line.Some? {
      assert requests != [];
      LineCharge(line.value, requests, price, rates);
    } else {
      NothingCharged(OneHourWrites(requests, unmatchedOneHour) as real, rates.cacheWrite1h);
    }
  }

  lemma ChargedTogether(requests: seq<Tokens>, price: ModelPrice, rates: KindRates, keep: real, oneHour: nat, lineUsd: real)
    requires keep >= 0.0 && KeptWrites(requests, keep) + oneHour as real == TotalWrites(requests) as real
    requires AllAt(requests, price, rates) && lineUsd == oneHour as real * rates.cacheWrite1h
    ensures SumUsd(PricedRequests(requests, price, keep)) + lineUsd
      == ChargeAt(WithOneHour(AmountsOf(AllTokens(requests)), OwnOneHour(requests, keep), oneHour), rates)
  {
    ChargesSum(requests, price, rates, keep);
    SumJoins(requests, rates, keep, oneHour);
  }

  lemma NothingCharged(amount: real, rate: real)
    requires amount == 0.0
    ensures amount * rate == 0.0
  {
  }

  /**
   * When every request is charged at one set of rates, pricing them one by
   * one comes to what the rates charge for the summed tokens: the
   * proportional split of the 1-hour writes costs nothing.
   */
  lemma UniformRatesChargeTheSum(requests: seq<Tokens>, price: ModelPrice, unmatchedOneHour: nat, rates: KindRates, line: Option<OneHourLine>)
    requires AllAt(requests, price, rates) && IsLine(requests, price, unmatchedOneHour, line)
    ensures RequestsUsd(requests, price, unmatchedOneHour, line) == ChargeAt(Together(requests, unmatchedOneHour), rates)
  {
    WritesAddUp(requests, unmatchedOneHour);
    LineIsCharged(requests, price, unmatchedOneHour, rates, line);
    ChargedTogether(requests, price, rates, KeepOf(requests, unmatchedOneHour), OneHourWrites(requests, unmatchedOneHour), LineUsd(line));
  }

  lemma TogetherFits(requests: seq<Tokens>, unmatchedOneHour: nat)
    ensures var together := Together(requests, unmatchedOneHour);
      0.0 <= together.cacheWrite1h <= together.cacheWrite
  {
    WritesAddUp(requests, unmatchedOneHour);
    AmountsSum(requests, KeepOf(requests, unmatchedOneHour));
  }

  /** And so they cost what the summed tokens would as one charge of any prompt size with those rates. */
  lemma UniformRatesCostTheSum(requests: seq<Tokens>, price: ModelPrice, unmatchedOneHour: nat, prompt: Option<nat>, line: Option<OneHourLine>)
    requires AllAt(requests, price, KindRatesOf(RatesFor(price, prompt), price.claude)) && IsLine(requests, price, unmatchedOneHour, line)
    ensures RequestsUsd(requests, price, unmatchedOneHour, line) == CostOf(Together(requests, unmatchedOneHour), price, prompt).usd
  {
    TogetherFits(requests, unmatchedOneHour);
    UniformRatesChargeTheSum(requests, price, unmatchedOneHour, KindRatesOf(RatesFor(price, prompt), price.claude), line);
    CostIsCharge(Together(requests, unmatchedOneHour), price, prompt);
  }

  /** The summed tokens, with the unmatched 1-hour writes put to all the requests report. */
  function Reported(requests: seq<Tokens>, unmatchedOneHour: nat): Amounts {
    WithOneHour(AmountsOf(AllTokens(requests)), AllTokens(requests).cacheWrite1h as real, OneHourWrites(requests, unmatchedOneHour))
  }

  lemma NoProduct(a: real, b: real)
    ensures a * b == 0.0 <==> a == 0.0 || b == 0.0
  {
    if a != 0.0 { assert b == (a * b) / a; }
  }

  lemma OneHourMatters(a: Amounts, x: real, y: real, rates: KindRates)
    ensures ChargeAt(a.(cacheWrite1h := x), rates) == ChargeAt(a.(cacheWrite1h := y), rates)
      <==> x == y || rates.cacheWrite1h == rates.cacheWrite
  {
    var write, oneHour := rates.cacheWrite, rates.cacheWrite1h;
    assert (a.cacheWrite - x) * write + x * oneHour == a.cacheWrite * write + x * (oneHour - write);
    assert (a.cacheWrite - y) * write + y * oneHour == a.cacheWrite * write + y * (oneHour - write);
    assert x * (oneHour - write) - y * (oneHour - write) == (x - y) * (oneHour - write);
    NoProduct(x - y, oneHour - write);
  }

  /**
   * They cost what the tokens as reported would exactly when charging the
   * 1-hour writes within each request's own writes takes none away that
   * charging them within all writes would not, or they cost as much as any.
   */
  lemma UniformRatesCostTheReportedIff(requests: seq<Tokens>, price: ModelPrice, unmatchedOneHour: nat, prompt: Option<nat>, line: Option<OneHourLine>)
    requires AllAt(requests, price, KindRatesOf(RatesFor(price, prompt), price.claude)) && IsLine(requests, price, unmatchedOneHour, line)
    ensures var rates := KindRatesOf(RatesFor(price, prompt), price.claude);
      RequestsUsd(requests, price, unmatchedOneHour, line) == CostOf(Reported(requests, unmatchedOneHour), price, prompt).usd
      <==> (Together(requests, unmatchedOneHour).cacheWrite1h == Within(Reported(requests, unmatchedOneHour)).cacheWrite1h
            || rates.cacheWrite1h == rates.cacheWrite)
  {
    var together, reported := Together(requests, unmatchedOneHour), Reported(requests, unmatchedOneHour);
    UniformRatesChargeTheSum(requests, price, unmatchedOneHour, KindRatesOf(RatesFor(price, prompt), price.claude), line);
    CostIsCharge(reported, price, prompt);
    OneHourMatters(AmountsOf(AllTokens(requests)), together.cacheWrite1h, Within(reported).cacheWrite1h, KindRatesOf(RatesFor(price, prompt), price.claude));
  }
}
