/**
 * The usage of one thread: a view for each turn, for log history or the
 * opening balance, and for what no turn holds; and their figure. Each view is
 * stated by the ledger record and the log entries it is made of, and the
 * table of model lines grows by exactly what each view counts, so that the
 * figure's lines sum to the views however the turns and the entries lie.
 */
module ThreadUsage {
  import opened Common
  import opened Tokens
  import opened Ledger
  import opened LedgerRequests
  import opened Pricing
  import opened Figures
  import opened Summary

  datatype UsageInput = UsageInput(
    turns: seq<TurnRecord>, logs: MergedLogs, prices: PriceBook, billing: BillingMode, now: int, historyBefore: Option<int>)

  datatype ViewKind = TurnView | OpeningView | HistoryView | OutsideView

  /** What the figure notes of a view: whether a rate was assumed, and the models without a price. */
  datatype Noted = Noted(assumed: bool, unpricedModels: set<string>)

  /**
   * A view counts its own tokens, of the ledger or of the log entries
   * `logged` that replace them, at `ownUsd`, and those of its subagents'
   * entries. `model` is the turn's, and none where each entry has its own.
   */
  datatype View = View(
    turnId: string, kind: ViewKind, model: Option<string>, startedAt: Option<int>, completedAt: Option<int>, tokens: Tokens, usd: real, unpriced: nat, requests: nat, ownUsd: real,
    own: seq<UsedPart>, logged: seq<LogEntry>, subagents: seq<LogEntry>, linesAdded: nat, linesRemoved: nat,
    partial: bool, approximate: bool, isUnsized: bool, tierDetail: Option<TierDetail>, oneHour: Option<OneHourLine>, noted: Noted)

  // ---- views and the table of model lines, in step ----

  function SubParts(entries: seq<LogEntry>): seq<UsedPart> { EntryParts(entries, None) }

  /** A view's tokens and unpriced tokens are those of its parts, no more and no fewer. */
  ghost predicate ViewOk(prices: PriceBook, view: View) {
    && Requests(view.tokens) == AddRequests(SumTokens(view.own), SumTokens(SubParts(view.subagents)))
    && view.unpriced == SumUnpriced(prices, view.own) + SumUnpriced(prices, SubParts(view.subagents))
  }

  /** A view costs what its own tokens do and each subagent request on its own. */
  ghost predicate ViewUsd(prices: PriceBook, view: View) { view.usd == view.ownUsd + SumEntryUsd(prices, view.subagents, None) }

  function CountedView(view: View): Counted { Counted(Requests(view.tokens), view.usd, view.unpriced) }

  function SumViews(views: seq<View>): Counted {
    if views == [] then ZERO_COUNTED else PlusCounted(SumViews(views[..|views| - 1]), CountedView(views[|views| - 1]))
  }

  /** The table's lines sum to the views. */
  ghost predicate InStep(lines: seq<ModelLine>, views: seq<View>) {
    Sane(lines) && SumLines(lines) == SumViews(views)
  }

  /** The table after more was counted. */
  ghost predicate Grew(before: seq<ModelLine>, after: seq<ModelLine>, more: Counted) {
    Sane(after) && SumLines(after) == PlusCounted(SumLines(before), more)
  }

  lemma GrewTwice(a: seq<ModelLine>, b: seq<ModelLine>, c: seq<ModelLine>, x: Counted, y: Counted)
    requires Grew(a, b, x) && Grew(b, c, y)
    ensures Grew(a, c, PlusCounted(x, y))
  {
    CountedAddsUp(SumLines(a), x, y);
  }

  // ---- each model's line ----

  /** What is counted on the line of a key. */
  datatype Count = Count(key: string, counted: Counted)

  ghost function CountOn(count: Count, key: string): Counted { if count.key == key then count.counted else ZERO_COUNTED }

  ghost function SumCounts(counts: seq<Count>, key: string): Counted {
    if counts == [] then ZERO_COUNTED else PlusCounted(SumCounts(counts[..|counts| - 1], key), CountOn(counts[|counts| - 1], key))
  }

  /** Each line has grown by what was counted on it. */
  ghost predicate LinesGrew(before: seq<ModelLine>, after: seq<ModelLine>, counts: seq<Count>) {
    forall key :: SumNamed(after, key) == PlusCounted(SumNamed(before, key), SumCounts(counts, key))
  }

  ghost function GrownBy(before: seq<ModelLine>, counts: seq<Count>): iset<seq<ModelLine>> {
    iset after: seq<ModelLine> | LinesGrew(before, after, counts)
  }

  lemma {:induction false} SumCountsJoin(a: seq<Count>, b: seq<Count>, key: string)
    ensures SumCounts(a + b, key) == PlusCounted(SumCounts(a, key), SumCounts(b, key))
  {
    if b == [] {
      assert a + b == a;
      CountedAddsUp(SumCounts(a, key), ZERO_COUNTED, ZERO_COUNTED);
    } else {
      var rest, last := b[..|b| - 1], b[|b| - 1];
      assert (a + b)[..|a + b| - 1] == a + rest;
      SumCountsJoin(a, rest, key);
      CountedAddsUp(SumCounts(a, key), SumCounts(rest, key), CountOn(last, key));
    }
  }

  lemma GrownTwice(a: seq<ModelLine>, b: seq<ModelLine>, c: seq<ModelLine>, x: seq<Count>, y: seq<Count>)
    requires b in GrownBy(a, x) && c in GrownBy(b, y)
    ensures c in GrownBy(a, x + y)
  {
    forall key ensures SumNamed(c, key) == PlusCounted(SumNamed(a, key), SumCounts(x + y, key)) {
      SumCountsJoin(x, y, key);
      CountedAddsUp(SumNamed(a, key), SumCounts(x, key), SumCounts(y, key));
    }
  }

  lemma NotGrown(lines: seq<ModelLine>)
    ensures lines in GrownBy(lines, [])
  {
    forall key ensures SumNamed(lines, key) == PlusCounted(SumNamed(lines, key), SumCounts([], key)) {
      CountedAddsUp(SumNamed(lines, key), ZERO_COUNTED, ZERO_COUNTED);
    }
  }

  lemma OneCount(count: Count, key: string)
    ensures SumCounts([count], key) == CountOn(count, key)
  {
    assert [count][..0] == [];
    assert SumCounts([count], key) == PlusCounted(ZERO_COUNTED, CountOn(count, key));
    CountedAddsUp(CountOn(count, key), ZERO_COUNTED, ZERO_COUNTED);
  }

  lemma OneLineGrown(lines: seq<ModelLine>, key: string, line: Line)
    ensures WithPart(lines, key, line) in GrownBy(lines, [Count(key, CountedOf(line))])
  {
    var count := Count(key, CountedOf(line));
    forall named ensures SumNamed(WithPart(lines, key, line), named) == PlusCounted(SumNamed(lines, named), SumCounts([count], named)) {
      OneCount(count, named);
      OneLineOn(lines, count, line, named);
    }
  }

  lemma OneLineOn(lines: seq<ModelLine>, count: Count, line: Line, named: string)
    requires count.counted == CountedOf(line)
    ensures SumNamed(WithPart(lines, count.key, line), named) == PlusCounted(SumNamed(lines, named), CountOn(count, named))
  {
    SumWithPart(lines, count.key, line, named);
    CountedAddsUp(SumNamed(lines, named), ZERO_COUNTED, ZERO_COUNTED);
  }

  /** One log entry on its own model's line. */
  ghost function EntryCount(prices: PriceBook, entry: LogEntry): Count {
    Count(ModelKey(entry.model), Counted(Requests(entry.tokens), EntryUsd(prices, entry, None), UnpricedOf(prices, UsedPart(entry.model, entry.tokens))))
  }

  ghost function EntryCounts(prices: PriceBook, entries: seq<LogEntry>): seq<Count> {
    seq(|entries|, i requires 0 <= i < |entries| => EntryCount(prices, entries[i]))
  }

  /** A turn's own tokens on the turn's line, whatever entries stand in for them, and each other entry on its own. */
  ghost function ViewCounts(prices: PriceBook, view: View): seq<Count> {
    match view.kind
    case HistoryView => EntryCounts(prices, view.logged)
    case OutsideView => EntryCounts(prices, view.subagents)
    case _ => [Count(ModelKey(view.model), Counted(SumTokens(view.own), view.ownUsd, SumUnpriced(prices, view.own)))] + EntryCounts(prices, view.subagents)
  }

  ghost function AllCounts(prices: PriceBook, views: seq<View>): seq<Count> {
    if views == [] then [] else AllCounts(prices, views[..|views| - 1]) + ViewCounts(prices, views[|views| - 1])
  }

  lemma OneViewCounts(prices: PriceBook, views: seq<View>, view: View)
    ensures AllCounts(prices, views + [view]) == AllCounts(prices, views) + ViewCounts(prices, view)
    ensures AllCounts(prices, [view]) == ViewCounts(prices, view)
  {
    assert (views + [view])[..|views|] == views && [view][..0] == [];
  }

  /** Counts tokens on a model's line. */
  method PutOn(models: ModelTable, model: Option<string>, tokens: Tokens, est: Estimate)
    requires Sane(models.lines) && est.unpriced <= TotalTokens(tokens) && (TotalTokens(tokens) == 0 ==> est.usd == 0.0)
    modifies models
    ensures Grew(old(models.lines), models.lines, Counted(Requests(tokens), est.usd, est.unpriced))
    ensures models.lines in GrownBy(old(models.lines), [Count(ModelKey(model), Counted(Requests(tokens), est.usd, est.unpriced))])
  {
    var line := Line(tokens, est.usd, est.unpriced);
    WithPartStaysSane(models.lines, ModelKey(model), line);
    SumWithPart(models.lines, ModelKey(model), line, ModelKey(model));
    OneLineGrown(models.lines, ModelKey(model), line);
    models.Add(model, line);
  }

  // ---- subagents ----

  datatype SubagentSum = SubagentSum(usd: real, unpriced: nat, assumed: bool, unpricedModels: set<string>)

  /** The subagent entries so far are on the table, with what they cost and lack a price for. */
  ghost predicate SubagentsCounted(prices: PriceBook, before: seq<ModelLine>, after: seq<ModelLine>, entries: seq<LogEntry>, sum: SubagentSum) {
    && Sane(after)
    && Grew(before, after, Counted(SumTokens(SubParts(entries)), sum.usd, sum.unpriced))
    && sum.unpriced == SumUnpriced(prices, SubParts(entries))
  }

  ghost predicate CostsEntries(prices: PriceBook, entries: seq<LogEntry>, usd: real) { usd == SumEntryUsd(prices, entries, None) }

  lemma CostsOneMore(prices: PriceBook, entries: seq<LogEntry>, i: nat, usd: real)
    requires i < |entries| && CostsEntries(prices, entries[..i], usd)
    ensures CostsEntries(prices, entries[..i + 1], usd + EntryUsd(prices, entries[i], None))
  {
    assert entries[..i + 1][..i] == entries[..i];
  }

  function NameSet(name: Option<string>): set<string> { if name.Some? then {name.value} else {} }

  function PlusEstimate(sum: SubagentSum, est: Estimate): SubagentSum {
    SubagentSum(sum.usd + est.usd, sum.unpriced + est.unpriced, sum.assumed || est.assumed, sum.unpricedModels + NameSet(est.unpricedModel))
  }

  /** The names that tokens of these entries lack a price under. */
  ghost function UnpricedNames(prices: PriceBook, entries: seq<LogEntry>): set<string> {
    if entries == [] then {} else UnpricedNames(prices, entries[..|entries| - 1]) + NameSet(UnpricedName(prices, entries[|entries| - 1], None))
  }

  ghost predicate SubagentsTell(prices: PriceBook, entries: seq<LogEntry>, sum: SubagentSum) {
    sum.assumed == SomeAssumes(prices, entries, None) && sum.unpricedModels == UnpricedNames(prices, entries)
  }

  lemma SubagentsTellMore(prices: PriceBook, entries: seq<LogEntry>, i: nat, sum: SubagentSum)
    requires i < |entries| && SubagentsTell(prices, entries[..i], sum)
    ensures SubagentsTell(prices, entries[..i + 1], PlusEstimate(sum, EstimateEntry(prices, entries[i], None)))
  {
    assert entries[..i + 1] == entries[..i] + [entries[i]] && entries[..i + 1][..i] == entries[..i];
    AssumesOneMore(prices, entries[..i], entries[i], None);
    EntryTells(prices, entries[i], None);
  }

  lemma SubagentsOneMore(prices: PriceBook, start: seq<ModelLine>, before: seq<ModelLine>, after: seq<ModelLine>, entries: seq<LogEntry>, i: nat, sum: SubagentSum, est: Estimate)
    requires i < |entries| && SubagentsCounted(prices, start, before, entries[..i], sum)
    requires Grew(before, after, Counted(Requests(entries[i].tokens), est.usd, est.unpriced))
    requires est.unpriced == UnpricedOf(prices, UsedPart(entries[i].model, entries[i].tokens))
    ensures SubagentsCounted(prices, start, after, entries[..i + 1], PlusEstimate(sum, est))
  {
    GrewTwice(start, before, after, Counted(SumTokens(SubParts(entries[..i])), sum.usd, sum.unpriced), Counted(Requests(entries[i].tokens), est.usd, est.unpriced));
    SubPartsOneMore(prices, entries, i);
  }

  /** One logged request, priced on its own prompt size and counted on its model's line. */
  method CountEntry(prices: PriceBook, models: ModelTable, entry: LogEntry) returns (est: Estimate)
    requires Sane(models.lines)
    modifies models
    ensures est.usd == EntryUsd(prices, entry, None)
    ensures est.unpriced == UnpricedOf(prices, UsedPart(entry.model, entry.tokens))
    ensures Grew(old(models.lines), models.lines, Counted(Requests(entry.tokens), est.usd, est.unpriced))
    ensures models.lines in GrownBy(old(models.lines), [EntryCount(prices, entry)])
    ensures est == EstimateEntry(prices, entry, None)
  {
    est := EstimateOf(prices, entry.model, entry.tokens, Some(PromptTokens(entry.tokens)));
    PutOn(models, entry.model, entry.tokens, est);
  }

  const NO_SUBAGENTS := SubagentSum(0.0, 0, false, {})

  lemma NothingGrew(lines: seq<ModelLine>)
    requires Sane(lines)
    ensures Grew(lines, lines, ZERO_COUNTED)
  {
    CountedAddsUp(SumLines(lines), ZERO_COUNTED, ZERO_COUNTED);
  }

  lemma NoParts(prices: PriceBook)
    ensures SumTokens(SubParts([])) == NO_REQUEST && SumUnpriced(prices, SubParts([])) == 0
  {
    assert SubParts([]) == [];
  }

  lemma NoSubagentsCounted(prices: PriceBook, lines: seq<ModelLine>)
    requires Sane(lines)
    ensures SubagentsCounted(prices, lines, lines, [], NO_SUBAGENTS)
  {
    NothingGrew(lines);
    NoParts(prices);
  }

  /** Prices subagent entries one by one, each on its model's line. */
  method CountSubagents(prices: PriceBook, models: ModelTable, entries: seq<LogEntry>) returns (sum: SubagentSum)
    requires Sane(models.lines)
    modifies models
    ensures SubagentsCounted(prices, old(models.lines), models.lines, entries, sum) && CostsEntries(prices, entries, sum.usd)
    ensures models.lines in GrownBy(old(models.lines), EntryCounts(prices, entries)) && SubagentsTell(prices, entries, sum)
  {
    sum := NO_SUBAGENTS;
    NoSubagentsCounted(prices, models.lines);
    NotGrown(models.lines);
    assert entries[..0] == [];
    for i := 0 to |entries|
      invariant SubagentsCounted(prices, old(models.lines), models.lines, entries[..i], sum) && CostsEntries(prices, entries[..i], sum.usd)
      invariant models.lines in GrownBy(old(models.lines), EntryCounts(prices, entries[..i])) && SubagentsTell(prices, entries[..i], sum)
    {
      sum := CountNext(prices, models, entries, i, sum, old(models.lines));
    }
    assert entries[..|entries|] == entries;
  }

  method CountNext(prices: PriceBook, models: ModelTable, entries: seq<LogEntry>, i: nat, sum: SubagentSum, ghost start: seq<ModelLine>) returns (next: SubagentSum)
    requires i < |entries| && SubagentsCounted(prices, start, models.lines, entries[..i], sum) && CostsEntries(prices, entries[..i], sum.usd)
    requires models.lines in GrownBy(start, EntryCounts(prices, entries[..i])) && SubagentsTell(prices, entries[..i], sum)
    modifies models
    ensures SubagentsCounted(prices, start, models.lines, entries[..i + 1], next) && CostsEntries(prices, entries[..i + 1], next.usd)
    ensures models.lines in GrownBy(start, EntryCounts(prices, entries[..i + 1])) && SubagentsTell(prices, entries[..i + 1], next)
  {
    CostsOneMore(prices, entries, i, sum.usd);
    ghost var before := models.lines;
    var est := CountEntry(prices, models, entries[i]);
    SubagentsTellMore(prices, entries, i, sum);
    SubagentsOneMore(prices, start, before, models.lines, entries, i, sum, est);
    GrownTwice(start, before, models.lines, EntryCounts(prices, entries[..i]), [EntryCount(prices, entries[i])]);
    assert EntryCounts(prices, entries[..i + 1]) == EntryCounts(prices, entries[..i]) + [EntryCount(prices, entries[i])];
    next := PlusEstimate(sum, est);
  }

  lemma SubPartsOneMore(prices: PriceBook, entries: seq<LogEntry>, i: nat)
    requires i < |entries|
    ensures SumTokens(SubParts(entries[..i + 1])) == AddRequests(SumTokens(SubParts(entries[..i])), Requests(entries[i].tokens))
    ensures SumUnpriced(prices, SubParts(entries[..i + 1])) == SumUnpriced(prices, SubParts(entries[..i])) + UnpricedOf(prices, UsedPart(entries[i].model, entries[i].tokens))
  {
    assert SubParts(entries[..i + 1])[..i] == SubParts(entries[..i]);
  }

  lemma {:induction false} EntriesSum(entries: seq<LogEntry>, fallback: Option<string>)
    ensures Requests(AllTokens(TokensOf(entries))) == SumTokens(EntryParts(entries, fallback))
  {
    if entries != [] {
      var n := |entries| - 1;
      EntriesSum(entries[..n], fallback);
      assert TokensOf(entries)[..n] == TokensOf(entries[..n]);
      assert EntryParts(entries, fallback)[..n] == EntryParts(entries[..n], fallback);
    }
  }

  // ---- a turn's own tokens ----

  /** The 1-hour part of a turn's cache writes, as the share of its logged writes that were 1-hour ones, rounded. */
  function OneHourShare(cacheWrite: nat, oneHour: nat, all: nat): nat
    requires all > 0
  {
    (2 * (cacheWrite * oneHour) + all) / (2 * all)
  }

  /** The share is never more than the writes. */
  lemma OneHourShareFits(cacheWrite: nat, oneHour: nat, all: nat)
    requires oneHour <= all && all > 0
    ensures OneHourShare(cacheWrite, oneHour, all) <= cacheWrite
  {
    assert cacheWrite * oneHour <= cacheWrite * all;
    QuotientAtMost(2 * (cacheWrite * oneHour) + all, 2 * all, cacheWrite);
  }

  lemma QuotientAtMost(n: nat, d: nat, bound: nat)
    requires d > 0 && n < d * (bound + 1)
    ensures n / d <= bound
  {
    assert n == d * (n / d) + n % d;
  }

  function LoggedWrites(entries: seq<LogEntry>): (sums: (nat, nat))
    ensures sums.1 <= sums.0
  {
    if entries == [] then (0, 0)
    else
      var before, tokens := LoggedWrites(entries[..|entries| - 1]), entries[|entries| - 1].tokens;
      (before.0 + tokens.cacheWrite, before.1 + Min(tokens.cacheWrite1h, tokens.cacheWrite))
  }

  function WithOneHourShare(tokens: Tokens, written: (nat, nat)): Tokens
    requires written.1 <= written.0
  {
    if tokens.cacheWrite1h == 0 && written.1 > 0 then tokens.(cacheWrite1h := OneHourShare(tokens.cacheWrite, written.1, written.0)) else tokens
  }

  /** The log entries that replace a turn's own tokens. */
  function Replacing(input: UsageInput, turns: seq<TurnRecord>, turn: TurnRecord): seq<LogEntry> {
    if IsCovered(turn, input.logs.history, input.historyBefore) then Covering(input.logs.history, turns, input.now, input.historyBefore, turn.turnId)
    else if turn.partial then Placed(input.logs.gapFill, turns, input.now, turn.turnId)
    else []
  }

  /** What the ledger counts of a turn: nothing where log history covers it. */
  function LedgerTokensOf(input: UsageInput, turns: seq<TurnRecord>, turn: TurnRecord): Tokens {
    if IsCovered(turn, input.logs.history, input.historyBefore) then ZERO_TOKENS
    else WithOneHourShare(turn.tokens, LoggedWrites(Placed(input.logs.cacheWrites, turns, input.now, turn.turnId)))
  }

  /** A turn counts its ledger tokens or the entries that replace them, never both, and the subagents placed in it. */
  ghost predicate IsViewOf(input: UsageInput, turns: seq<TurnRecord>, turn: TurnRecord, view: View) {
    && view.turnId == turn.turnId && view.kind == TurnView && view.model == turn.model
    && view.logged == Replacing(input, turns, turn)
    && view.own == (if view.logged != [] then EntryParts(view.logged, turn.model) else [UsedPart(turn.model, LedgerTokensOf(input, turns, turn))])
    && view.subagents == Placed(input.logs.subagent, turns, input.now, turn.turnId)
    && view.partial == (turn.partial && view.logged == [])
    && view.linesAdded == turn.linesAdded && view.linesRemoved == turn.linesRemoved
    && view.startedAt == turn.startedAt && view.completedAt == turn.completedAt
    && ViewOk(input.prices, view)
  }

  /** What a turn's view costs. */
  ghost predicate IsCostOf(input: UsageInput, turns: seq<TurnRecord>, turn: TurnRecord, view: View) {
    && ViewUsd(input.prices, view)
    && OwnCost(input.prices, turn, view.logged, LedgerTokensOf(input, turns, turn), IsCovered(turn, input.logs.history, input.historyBefore), view.ownUsd, view.oneHour)
  }

  /** What a turn's own tokens cost: its log entries one by one, its requests one by one, or its tokens together. */
  ghost predicate OwnCost(prices: PriceBook, turn: TurnRecord, replacing: seq<LogEntry>, ledgerTokens: Tokens, covered: bool, usd: real, oneHour: Option<OneHourLine>) {
    if replacing != [] then usd == SumEntryUsd(prices, replacing, turn.model)
    else if !covered && turn.requests.Some? && turn.requests.value != [] then
      IsCostOfRequests(prices, turn.model, AsTokens(turn.requests.value), ledgerTokens.cacheWrite1h, usd, oneHour)
    else usd == EstimateOf(prices, turn.model, ledgerTokens, None).usd
  }

  /** What the estimate of a turn's own tokens tells besides its dollars. */
  ghost predicate OwnTells(prices: PriceBook, turn: TurnRecord, replacing: seq<LogEntry>, ledgerTokens: Tokens, covered: bool, est: Estimate) {
    if replacing != [] then EntriesTell(prices, replacing, turn.model, est)
    else if !covered && turn.requests.Some? && turn.requests.value != [] then
      RequestsTell(prices, turn.model, AsTokens(turn.requests.value), ledgerTokens.cacheWrite1h, est)
    else TogetherTells(prices, turn.model, ledgerTokens, est)
  }

  ghost predicate TogetherTells(prices: PriceBook, model: Option<string>, tokens: Tokens, est: Estimate) {
    var all := EstimateOf(prices, model, tokens, None);
    && est.approximate == all.approximate && est.isUnsized == all.isUnsized && est.assumed == all.assumed
    && est.unpricedModel == all.unpricedModel && est.requests == 0 && est.tierDetail.None? && est.oneHour.None?
  }

  ghost function OwnTold(prices: PriceBook, turn: TurnRecord, replacing: seq<LogEntry>, ledgerTokens: Tokens, covered: bool): iset<Estimate> {
    iset est: Estimate | OwnTells(prices, turn, replacing, ledgerTokens, covered, est)
  }

  /** The view shows what its own estimate tells, and notes that and its subagents'. */
  ghost predicate Shows(prices: PriceBook, view: View, est: Estimate) {
    && view.requests == est.requests && view.approximate == est.approximate && view.isUnsized == est.isUnsized
    && view.tierDetail == est.tierDetail && view.oneHour == est.oneHour
    && view.noted == Noted(est.assumed || SomeAssumes(prices, view.subagents, None), NameSet(est.unpricedModel) + UnpricedNames(prices, view.subagents))
  }

  ghost predicate IsToldOf(input: UsageInput, turns: seq<TurnRecord>, turn: TurnRecord, view: View) {
    exists est ::
      est in OwnTold(input.prices, turn, Replacing(input, turns, turn), LedgerTokensOf(input, turns, turn), IsCovered(turn, input.logs.history, input.historyBefore))
      && Shows(input.prices, view, est)
  }

  ghost predicate IsCostOfRequests(prices: PriceBook, model: Option<string>, requests: seq<Tokens>, unmatchedOneHour: nat, usd: real, oneHour: Option<OneHourLine>) {
    exists est :: est in RequestEstimates(prices, model, requests, unmatchedOneHour) && est.usd == usd && est.oneHour == oneHour
  }

  /** The estimates of requests priced one by one. */
  ghost function RequestEstimates(prices: PriceBook, model: Option<string>, requests: seq<Tokens>, unmatchedOneHour: nat): iset<Estimate> {
    iset est: Estimate | RequestsCostUsd(prices, model, requests, unmatchedOneHour, est)
  }

  function AsTokens(requests: seq<RequestTokens>): seq<Tokens> {
    seq(|requests|, i requires 0 <= i < |requests| => Tokens(requests[i].input, requests[i].output, requests[i].cacheRead, requests[i].cacheWrite, 0, 0))
  }

  lemma {:induction false} AsTokensSum(requests: seq<RequestTokens>)
    ensures Requests(AllTokens(AsTokens(requests))) == SumRequests(requests)
  {
    if requests != [] {
      var n := |requests| - 1;
      AsTokensSum(requests[..n]);
      assert AsTokens(requests)[..n] == AsTokens(requests[..n]);
    }
  }

  /** The estimate of a turn's own tokens is of its own parts. */
  ghost predicate EstimatesOwn(prices: PriceBook, own: seq<UsedPart>, tokens: Tokens, est: Estimate) {
    Requests(tokens) == SumTokens(own) && EstimatesParts(prices, est, own)
  }

  /** Prices a turn's own tokens: its log entries, its requests one by one, or its tokens together. */
  method PriceOwn(input: UsageInput, turn: TurnRecord, replacing: seq<LogEntry>, ledgerTokens: Tokens, covered: bool)
    returns (tokens: Tokens, est: Estimate, own: seq<UsedPart>)
    requires RecordOk(turn) && (!covered ==> Requests(ledgerTokens) == Requests(turn.tokens))
    ensures own == if replacing != [] then EntryParts(replacing, turn.model) else [UsedPart(turn.model, ledgerTokens)]
    ensures EstimatesOwn(input.prices, own, tokens, est)
    ensures OwnCost(input.prices, turn, replacing, ledgerTokens, covered, est.usd, est.oneHour)
    ensures est in OwnTold(input.prices, turn, replacing, ledgerTokens, covered)
  {
    tokens := ledgerTokens;
    if replacing != [] {
      own := EntryParts(replacing, turn.model);
      tokens := AllTokens(TokensOf(replacing));
      EntriesSum(replacing, turn.model);
      est := EstimateEntries(input.prices, turn.model, replacing);
    } else {
      own := [UsedPart(turn.model, ledgerTokens)];
      OnePart(input.prices, own[0]);
      if !covered && turn.requests.Some? && turn.requests.value != [] {
        est := EstimateRequests(input.prices, turn.model, AsTokens(turn.requests.value), ledgerTokens.cacheWrite1h);
        AsTokensSum(turn.requests.value);
      } else {
        est := EstimateOf(input.prices, turn.model, ledgerTokens, None);
        EstimateIsOfItsPart(input.prices, turn.model, ledgerTokens, None);
      }
    }
  }

  // ---- the views ----

  /** Log entries by the turn they were placed in. */
  datatype Places = Places(subagents: ByTurn, gaps: ByTurn, writes: ByTurn, history: ByTurn)

  ghost predicate PlacesOk(input: UsageInput, turns: seq<TurnRecord>, places: Places) {
    forall key ::
      && EntriesAt(places.subagents, key) == Placed(input.logs.subagent, turns, input.now, key)
      && EntriesAt(places.gaps, key) == Placed(input.logs.gapFill, turns, input.now, key)
      && EntriesAt(places.writes, key) == Placed(input.logs.cacheWrites, turns, input.now, key)
      && EntriesAt(places.history, key) == Covering(input.logs.history, turns, input.now, input.historyBefore, key)
  }

  method PlaceLogs(input: UsageInput, turns: seq<TurnRecord>) returns (places: Places)
    ensures PlacesOk(input, turns, places)
  {
    var subagents := PlaceAll(input.logs.subagent, turns, input.now);
    var gaps := PlaceAll(input.logs.gapFill, turns, input.now);
    var writes := PlaceAll(input.logs.cacheWrites, turns, input.now);
    var history := PlaceHistory(input.logs.history, turns, input.now, input.historyBefore);
    places := Places(subagents, gaps, writes, history);
  }

  function ReplacingIn(input: UsageInput, places: Places, turn: TurnRecord): seq<LogEntry> {
    if IsCovered(turn, input.logs.history, input.historyBefore) then EntriesAt(places.history, turn.turnId)
    else if turn.partial then EntriesAt(places.gaps, turn.turnId)
    else []
  }

  function LedgerTokensIn(input: UsageInput, places: Places, turn: TurnRecord): Tokens {
    if IsCovered(turn, input.logs.history, input.historyBefore) then ZERO_TOKENS
    else WithOneHourShare(turn.tokens, LoggedWrites(EntriesAt(places.writes, turn.turnId)))
  }

  lemma OwnIsSane(prices: PriceBook, own: seq<UsedPart>, tokens: Tokens, est: Estimate)
    requires EstimatesOwn(prices, own, tokens, est)
    ensures est.unpriced <= TotalTokens(tokens) && (TotalTokens(tokens) == 0 ==> est.usd == 0.0)
  {
    AllUnpricedIff(prices, own);
    assert TotalOf(Requests(tokens)) == TotalTokens(tokens);
  }

  function NotedOf(est: Estimate, sum: SubagentSum): Noted {
    Noted(est.assumed || sum.assumed, NameSet(est.unpricedModel) + sum.unpricedModels)
  }

  function MakeView(turn: TurnRecord, kind: ViewKind, tokens: Tokens, est: Estimate, own: seq<UsedPart>, logged: seq<LogEntry>, subagents: seq<LogEntry>, sum: SubagentSum, partial: bool): View {
    View(turn.turnId, kind, turn.model, turn.startedAt, turn.completedAt, AddTokens(tokens, AllTokens(TokensOf(subagents))), est.usd + sum.usd, est.unpriced + sum.unpriced,
         est.requests, est.usd, own, logged, subagents, turn.linesAdded, turn.linesRemoved, partial, est.approximate, est.isUnsized, est.tierDetail, est.oneHour, NotedOf(est, sum))
  }

  lemma RequestsAdd(a: Tokens, b: Tokens)
    ensures Requests(AddTokens(a, b)) == AddRequests(Requests(a), Requests(b))
  {
  }

  /** A view's numbers are its own estimate's and its subagents'. */
  ghost predicate MadeOf(view: View, tokens: Tokens, est: Estimate, sum: SubagentSum) {
    && view.tokens == AddTokens(tokens, AllTokens(TokensOf(view.subagents)))
    && view.usd == est.usd + sum.usd && view.unpriced == est.unpriced + sum.unpriced && view.ownUsd == est.usd
  }

  lemma MadeViewIs(view: View, tokens: Tokens, est: Estimate, sum: SubagentSum)
    requires MadeOf(view, tokens, est, sum)
    ensures Requests(view.tokens) == AddRequests(Requests(tokens), SumTokens(SubParts(view.subagents)))
    ensures CountedView(view) == PlusCounted(Counted(Requests(tokens), est.usd, est.unpriced), Counted(SumTokens(SubParts(view.subagents)), sum.usd, sum.unpriced))
  {
    EntriesSum(view.subagents, None);
    RequestsAdd(tokens, AllTokens(TokensOf(view.subagents)));
  }

  /** Such a view is what was put on the table. */
  lemma MadeViewCounts(prices: PriceBook, a: seq<ModelLine>, b: seq<ModelLine>, c: seq<ModelLine>, tokens: Tokens, est: Estimate, sum: SubagentSum, view: View)
    requires EstimatesOwn(prices, view.own, tokens, est) && MadeOf(view, tokens, est, sum)
    requires Grew(a, b, Counted(Requests(tokens), est.usd, est.unpriced))
    requires SubagentsCounted(prices, b, c, view.subagents, sum) && CostsEntries(prices, view.subagents, sum.usd)
    ensures Grew(a, c, CountedView(view)) && ViewOk(prices, view) && ViewUsd(prices, view)
  {
    MadeViewIs(view, tokens, est, sum);
    GrewTwice(a, b, c, Counted(Requests(tokens), est.usd, est.unpriced), Counted(SumTokens(SubParts(view.subagents)), sum.usd, sum.unpriced));
  }

  /** Puts a turn's own tokens and its subagents' entries on the table and makes its view. */
  method CountView(prices: PriceBook, models: ModelTable, turn: TurnRecord, kind: ViewKind, tokens: Tokens, est: Estimate, own: seq<UsedPart>,
                   logged: seq<LogEntry>, subagents: seq<LogEntry>, partial: bool)
    returns (view: View, ghost sum: SubagentSum)
    requires Sane(models.lines) && EstimatesOwn(prices, own, tokens, est) && (kind.TurnView? || kind.OpeningView?)
    modifies models
    ensures Grew(old(models.lines), models.lines, CountedView(view)) && ViewOk(prices, view) && ViewUsd(prices, view)
    ensures models.lines in GrownBy(old(models.lines), ViewCounts(prices, view))
    ensures view == MakeView(turn, kind, tokens, est, own, logged, subagents, sum, partial) && SubagentsTell(prices, subagents, sum)
  {
    OwnIsSane(prices, own, tokens, est);
    ghost var a := models.lines;
    PutOn(models, turn.model, tokens, est);
    ghost var b := models.lines;
    var subs := CountSubagents(prices, models, subagents);
    sum := subs;
    view := MakeView(turn, kind, tokens, est, own, logged, subagents, subs, partial);
    MadeViewCounts(prices, a, b, models.lines, tokens, est, sum, view);
    GrownTwice(a, b, models.lines, [Count(ModelKey(turn.model), Counted(Requests(tokens), est.usd, est.unpriced))], EntryCounts(prices, subagents));
  }

  lemma MadeForTurn(input: UsageInput, turns: seq<TurnRecord>, turn: TurnRecord, tokens: Tokens, est: Estimate, own: seq<UsedPart>, sum: SubagentSum, view: View)
    requires var logged := Replacing(input, turns, turn);
      && own == (if logged != [] then EntryParts(logged, turn.model) else [UsedPart(turn.model, LedgerTokensOf(input, turns, turn))])
      && view == MakeView(turn, TurnView, tokens, est, own, logged, Placed(input.logs.subagent, turns, input.now, turn.turnId), sum, turn.partial && logged == [])
      && OwnCost(input.prices, turn, logged, LedgerTokensOf(input, turns, turn), IsCovered(turn, input.logs.history, input.historyBefore), est.usd, est.oneHour)
    requires ViewOk(input.prices, view) && ViewUsd(input.prices, view)
    ensures IsViewOf(input, turns, turn, view) && IsCostOf(input, turns, turn, view)
  {
  }

  /** Counts one turn. */
  method CountTurn(input: UsageInput, models: ModelTable, places: Places, ghost turns: seq<TurnRecord>, turn: TurnRecord) returns (view: View)
    requires Sane(models.lines) && PlacesOk(input, turns, places) && RecordOk(turn)
    modifies models
    ensures IsViewOf(input, turns, turn, view) && IsCostOf(input, turns, turn, view) && IsToldOf(input, turns, turn, view)
    ensures Grew(old(models.lines), models.lines, CountedView(view))
    ensures models.lines in GrownBy(old(models.lines), ViewCounts(input.prices, view))
  {
    PlacesGive(input, turns, places, turn);
    var replacing := ReplacingIn(input, places, turn);
    var covered := IsCovered(turn, input.logs.history, input.historyBefore);
    var tokens, est, own := PriceOwn(input, turn, replacing, LedgerTokensIn(input, places, turn), covered);
    ghost var sum;
    view, sum := CountView(input.prices, models, turn, TurnView, tokens, est, own, replacing, EntriesAt(places.subagents, turn.turnId), turn.partial && replacing == []);
    MadeForTurn(input, turns, turn, tokens, est, own, sum, view);
    MadeShows(input.prices, turn, tokens, est, own, sum, view);
  }

  lemma MadeShows(prices: PriceBook, turn: TurnRecord, tokens: Tokens, est: Estimate, own: seq<UsedPart>, sum: SubagentSum, view: View)
    requires SubagentsTell(prices, view.subagents, sum)
    requires view == MakeView(turn, view.kind, tokens, est, own, view.logged, view.subagents, sum, view.partial)
    ensures Shows(prices, view, est)
  {
  }

  lemma PlacesGive(input: UsageInput, turns: seq<TurnRecord>, places: Places, turn: TurnRecord)
    requires PlacesOk(input, turns, places)
    ensures ReplacingIn(input, places, turn) == Replacing(input, turns, turn)
    ensures LedgerTokensIn(input, places, turn) == LedgerTokensOf(input, turns, turn)
    ensures EntriesAt(places.subagents, turn.turnId) == Placed(input.logs.subagent, turns, input.now, turn.turnId)
  {
  }

  // ---- what no turn holds ----

  function Earliest(entries: seq<LogEntry>): int
    requires entries != []
  {
    if |entries| == 1 then entries[0].ts else Min(Earliest(entries[..|entries| - 1]), entries[|entries| - 1].ts)
  }

  function Latest(entries: seq<LogEntry>): int
    requires entries != []
  {
    if |entries| == 1 then entries[0].ts else Max(Latest(entries[..|entries| - 1]), entries[|entries| - 1].ts)
  }

  /** The view of log history that stands for itself. */
  function HistoryOf(entries: seq<LogEntry>, sum: SubagentSum): View
    requires entries != []
  {
    View("history", HistoryView, None, Some(Earliest(entries)), Some(Latest(entries)), AllTokens(TokensOf(entries)), sum.usd, sum.unpriced, |entries|, sum.usd,
         SubParts(entries), entries, [], 0, 0, false, sum.assumed, false, None, None, Noted(sum.assumed, sum.unpricedModels))
  }

  /** The view of subagent requests that fall inside no turn. */
  function OutsideOf(entries: seq<LogEntry>, sum: SubagentSum): View {
    View(OUTSIDE_TURNS, OutsideView, None, None, None, AllTokens(TokensOf(entries)), sum.usd, sum.unpriced, 0, 0.0,
         [], [], entries, 0, 0, false, false, false, None, None, Noted(sum.assumed, sum.unpricedModels))
  }

  lemma LoneViewsCount(prices: PriceBook, a: seq<ModelLine>, b: seq<ModelLine>, entries: seq<LogEntry>, sum: SubagentSum)
    requires entries != [] && SubagentsCounted(prices, a, b, entries, sum) && CostsEntries(prices, entries, sum.usd)
    ensures Grew(a, b, CountedView(HistoryOf(entries, sum))) && ViewOk(prices, HistoryOf(entries, sum))
    ensures Grew(a, b, CountedView(OutsideOf(entries, sum))) && ViewOk(prices, OutsideOf(entries, sum))
  {
    EntriesSum(entries, None);
    NoParts(prices);
  }

  /** From the first of the entries to the last. */
  ghost predicate Spans(entries: seq<LogEntry>, from: Option<int>, to: Option<int>) {
    && from.Some? && to.Some?
    && (exists e :: e in entries && e.ts == from.value) && (exists e :: e in entries && e.ts == to.value)
    && forall e :: e in entries ==> from.value <= e.ts <= to.value
  }

  lemma {:induction false} EntriesSpan(entries: seq<LogEntry>)
    requires entries != []
    ensures Spans(entries, Some(Earliest(entries)), Some(Latest(entries)))
  {
    if |entries| > 1 {
      var rest, last := entries[..|entries| - 1], entries[|entries| - 1];
      EntriesSpan(rest);
      assert entries == rest + [last];
      assert last in entries;
    }
  }

  /** What the view of history alone tells: as its entries, priced one by one. */
  ghost predicate HistoryTells(prices: PriceBook, view: View) {
    && view.approximate == SomeAssumes(prices, view.logged, None) && !view.isUnsized && view.tierDetail.None? && view.oneHour.None?
    && view.noted == Noted(SomeAssumes(prices, view.logged, None), UnpricedNames(prices, view.logged))
  }

  ghost predicate OutsideTells(prices: PriceBook, view: View) {
    && !view.approximate && !view.isUnsized && view.tierDetail.None? && view.oneHour.None?
    && view.noted == Noted(SomeAssumes(prices, view.subagents, None), UnpricedNames(prices, view.subagents))
  }

  ghost predicate OpeningTells(prices: PriceBook, opening: TurnRecord, view: View) {
    exists est :: TogetherTells(prices, opening.model, opening.tokens, est) && Shows(prices, view, est)
  }

  /** Such views that cost what their entries do one by one. */
  ghost function HistoryViews(prices: PriceBook): iset<View> {
    iset view: View | ViewUsd(prices, view) && CostsEntries(prices, view.logged, view.ownUsd) && HistoryTells(prices, view)
  }

  ghost function OutsideViews(prices: PriceBook): iset<View> {
    iset view: View | ViewUsd(prices, view) && view.ownUsd == 0.0 && OutsideTells(prices, view)
  }

  ghost function OpeningViews(prices: PriceBook, opening: TurnRecord): iset<View> {
    iset view: View | ViewUsd(prices, view) && view.ownUsd == EstimateOf(prices, opening.model, opening.tokens, None).usd && OpeningTells(prices, opening, view)
  }

  ghost predicate AreToldOf(input: UsageInput, turns: seq<TurnRecord>, views: seq<View>) {
    |views| <= |turns| && forall i :: 0 <= i < |views| ==> IsToldOf(input, turns, turns[i], views[i])
  }

  ghost predicate IsHistoryView(prices: PriceBook, entries: seq<LogEntry>, view: View) {
    && view.kind == HistoryView && view.logged == entries && view.own == SubParts(entries) && view.subagents == []
    && view.requests == |entries| && view.linesAdded == view.linesRemoved == 0 && !view.partial
    && Spans(entries, view.startedAt, view.completedAt)
    && ViewOk(prices, view)
  }

  ghost predicate IsOpeningView(prices: PriceBook, opening: TurnRecord, view: View) {
    && view.kind == OpeningView && view.model == opening.model && view.logged == [] && view.own == [UsedPart(opening.model, opening.tokens)] && view.subagents == []
    && view.requests == 0 && view.linesAdded == opening.linesAdded && view.linesRemoved == opening.linesRemoved && view.partial
    && view.turnId == opening.turnId && view.startedAt == opening.startedAt && view.completedAt == opening.completedAt
    && ViewOk(prices, view)
  }

  ghost predicate IsOutsideView(prices: PriceBook, entries: seq<LogEntry>, view: View) {
    && view.kind == OutsideView && view.logged == [] && view.own == [] && view.subagents == entries
    && view.requests == 0 && view.linesAdded == view.linesRemoved == 0 && !view.partial
    && view.turnId == OUTSIDE_TURNS && view.startedAt == view.completedAt == None
    && ViewOk(prices, view)
  }

  function Opening(turns: seq<TurnRecord>): Option<TurnRecord> {
    if turns == [] then None
    else if turns[0].kind.Opening? then Some(turns[0])
    else Opening(turns[1..])
  }

  /** Log history that stands for itself replaces the opening balance, which is shown only without any. */
  ghost predicate IsFront(input: UsageInput, turns: seq<TurnRecord>, front: seq<View>) {
    var alone := Alone(input.logs.history, turns, input.now, input.historyBefore);
    var opening := Opening(input.turns);
    if alone != [] then |front| == 1 && IsHistoryView(input.prices, alone, front[0])
    else if opening.Some? && input.logs.history == [] then |front| == 1 && IsOpeningView(input.prices, opening.value, front[0])
    else front == []
  }

  ghost predicate IsBack(input: UsageInput, turns: seq<TurnRecord>, back: seq<View>) {
    var outside := Placed(input.logs.subagent, turns, input.now, OUTSIDE_TURNS);
    if outside != [] then |back| == 1 && IsOutsideView(input.prices, outside, back[0]) else back == []
  }

  ghost predicate IsFrontCost(input: UsageInput, front: seq<View>) {
    forall view :: view in front ==>
      && (view.kind.HistoryView? ==> view in HistoryViews(input.prices))
      && (view.kind.OpeningView? && Opening(input.turns).Some? ==> view in OpeningViews(input.prices, Opening(input.turns).value))
  }

  ghost predicate IsBackCost(prices: PriceBook, back: seq<View>) { forall view :: view in back ==> view in OutsideViews(prices) }

  ghost predicate AreCostsOf(input: UsageInput, turns: seq<TurnRecord>, views: seq<View>, n: int) {
    && |views| == n <= |turns|
    && forall i :: 0 <= i < n ==> IsCostOf(input, turns, turns[i], views[i])
  }

  ghost predicate AreViewsOf(input: UsageInput, turns: seq<TurnRecord>, views: seq<View>, n: int) {
    && |views| == n <= |turns|
    && forall i :: 0 <= i < n ==> IsViewOf(input, turns, turns[i], views[i])
  }

  lemma LoneCounts(prices: PriceBook, view: View)
    ensures view.kind.HistoryView? ==> AllCounts(prices, [view]) == EntryCounts(prices, view.logged)
    ensures view.kind.OutsideView? ==> AllCounts(prices, [view]) == EntryCounts(prices, view.subagents)
  {
    OneViewCounts(prices, [], view);
  }

  lemma LoneCost(prices: PriceBook, entries: seq<LogEntry>, sum: SubagentSum)
    requires entries != [] && SubagentsTell(prices, entries, sum) && CostsEntries(prices, entries, sum.usd)
    ensures HistoryOf(entries, sum) in HistoryViews(prices) && OutsideOf(entries, sum) in OutsideViews(prices)
  {
    assert SumEntryUsd(prices, [], None) == 0.0;
  }

  /** History that stands for itself, each entry on its own model's line. */
  method CountHistory(prices: PriceBook, models: ModelTable, alone: seq<LogEntry>) returns (view: View)
    requires Sane(models.lines) && alone != []
    modifies models
    ensures IsHistoryView(prices, alone, view) && view in HistoryViews(prices)
    ensures Grew(old(models.lines), models.lines, CountedView(view)) && models.lines in GrownBy(old(models.lines), EntryCounts(prices, alone))
  {
    ghost var before := models.lines;
    var sum := CountSubagents(prices, models, alone);
    LoneViewsCount(prices, before, models.lines, alone, sum);
    EntriesSpan(alone);
    LoneCost(prices, alone, sum);
    view := HistoryOf(alone, sum);
  }

  /** Subagent entries of no turn, each on its own model's line. */
  method CountOutside(prices: PriceBook, models: ModelTable, outside: seq<LogEntry>) returns (view: View)
    requires Sane(models.lines) && outside != []
    modifies models
    ensures IsOutsideView(prices, outside, view) && view in OutsideViews(prices)
    ensures Grew(old(models.lines), models.lines, CountedView(view)) && models.lines in GrownBy(old(models.lines), EntryCounts(prices, outside))
  {
    ghost var before := models.lines;
    var sum := CountSubagents(prices, models, outside);
    LoneViewsCount(prices, before, models.lines, outside, sum);
    LoneCost(prices, outside, sum);
    view := OutsideOf(outside, sum);
  }

  method CountFront(input: UsageInput, models: ModelTable, turns: seq<TurnRecord>) returns (front: seq<View>)
    requires Sane(models.lines)
    modifies models
    ensures IsFront(input, turns, front) && IsFrontCost(input, front) && Grew(old(models.lines), models.lines, SumViews(front))
    ensures models.lines in GrownBy(old(models.lines), AllCounts(input.prices, front))
  {
    var alone := Alone(input.logs.history, turns, input.now, input.historyBefore);
    var opening := Opening(input.turns);
    front := [];
    NothingGrew(models.lines);
    NotGrown(models.lines);
    if alone != [] {
      var view := CountHistory(input.prices, models, alone);
      front := [view];
      OneView(view);
      LoneCounts(input.prices, view);
    } else if opening.Some? && input.logs.history == [] {
      var view := CountOpening(input.prices, models, opening.value);
      front := [view];
      OneView(view);
      OneViewCounts(input.prices, [], view);
    }
  }

  lemma OneView(view: View)
    ensures SumViews([view]) == CountedView(view)
  {
    assert [view][..0] == [];
    CountedAddsUp(CountedView(view), ZERO_COUNTED, ZERO_COUNTED);
    CountedAddsUp(ZERO_COUNTED, CountedView(view), ZERO_COUNTED);
  }

  method CountOpening(prices: PriceBook, models: ModelTable, opening: TurnRecord) returns (view: View)
    requires Sane(models.lines)
    modifies models
    ensures IsOpeningView(prices, opening, view) && Grew(old(models.lines), models.lines, CountedView(view))
    ensures models.lines in GrownBy(old(models.lines), ViewCounts(prices, view))
    ensures view in OpeningViews(prices, opening)
  {
    var est := EstimateOf(prices, opening.model, opening.tokens, None);
    EstimateIsOfItsPart(prices, opening.model, opening.tokens, None);
    OnePart(prices, UsedPart(opening.model, opening.tokens));
    ghost var sum;
    view, sum := CountView(prices, models, opening, OpeningView, opening.tokens, est, [UsedPart(opening.model, opening.tokens)], [], [], true);
    MadeShows(prices, opening, opening.tokens, est, [UsedPart(opening.model, opening.tokens)], sum, view);
  }

  method CountBack(input: UsageInput, models: ModelTable, turns: seq<TurnRecord>, places: Places) returns (back: seq<View>)
    requires Sane(models.lines) && PlacesOk(input, turns, places)
    modifies models
    ensures IsBack(input, turns, back) && IsBackCost(input.prices, back) && Grew(old(models.lines), models.lines, SumViews(back))
    ensures models.lines in GrownBy(old(models.lines), AllCounts(input.prices, back))
  {
    var outside := EntriesAt(places.subagents, OUTSIDE_TURNS);
    back := [];
    NothingGrew(models.lines);
    NotGrown(models.lines);
    if outside != [] {
      var view := CountOutside(input.prices, models, outside);
      back := [view];
      OneView(view);
      LoneCounts(input.prices, view);
    }
  }

  ghost predicate AllRecordsOk(turns: seq<TurnRecord>) { forall t :: t in turns ==> RecordOk(t) }

  lemma OneTurnMore(input: UsageInput, turns: seq<TurnRecord>, views: seq<View>, view: View)
    requires AreViewsOf(input, turns, views, |views|) && |views| < |turns| && IsViewOf(input, turns, turns[|views|], view)
    ensures AreViewsOf(input, turns, views + [view], |views| + 1)
  {
    var more := views + [view];
    forall i | 0 <= i < |views| + 1 ensures IsViewOf(input, turns, turns[i], more[i]) {
      if i < |views| {
        assert more[i] == views[i];
      } else {
        assert more[i] == view;
      }
    }
  }

  lemma OneCostMore(input: UsageInput, turns: seq<TurnRecord>, views: seq<View>, view: View)
    requires AreCostsOf(input, turns, views, |views|) && |views| < |turns| && IsCostOf(input, turns, turns[|views|], view)
    ensures AreCostsOf(input, turns, views + [view], |views| + 1)
  {
    var more := views + [view];
    forall i | 0 <= i < |views| + 1 ensures IsCostOf(input, turns, turns[i], more[i]) {
      if i < |views| {
        assert more[i] == views[i];
      } else {
        assert more[i] == view;
      }
    }
  }

  lemma SumOneMoreView(views: seq<View>, view: View)
    ensures SumViews(views + [view]) == PlusCounted(SumViews(views), CountedView(view))
  {
    assert (views + [view])[..|views|] == views;
  }

  method CountNextTurn(input: UsageInput, models: ModelTable, turns: seq<TurnRecord>, places: Places, views: seq<View>, ghost start: seq<ModelLine>) returns (more: seq<View>)
    requires PlacesOk(input, turns, places) && AllRecordsOk(turns) && |views| < |turns|
    requires AreViewsOf(input, turns, views, |views|) && AreCostsOf(input, turns, views, |views|) && Sane(models.lines) && Grew(start, models.lines, SumViews(views))
    requires models.lines in GrownBy(start, AllCounts(input.prices, views)) && AreToldOf(input, turns, views)
    modifies models
    ensures |more| == |views| + 1 && AreViewsOf(input, turns, more, |more|) && AreCostsOf(input, turns, more, |more|) && Sane(models.lines) && Grew(start, models.lines, SumViews(more))
    ensures models.lines in GrownBy(start, AllCounts(input.prices, more)) && AreToldOf(input, turns, more)
  {
    assert turns[|views|] in turns;
    ghost var before := models.lines;
    var view := CountTurn(input, models, places, turns, turns[|views|]);
    OneTurnMore(input, turns, views, view);
    OneCostMore(input, turns, views, view);
    SumOneMoreView(views, view);
    GrewTwice(start, before, models.lines, SumViews(views), CountedView(view));
    GrownTwice(start, before, models.lines, AllCounts(input.prices, views), ViewCounts(input.prices, view));
    OneViewCounts(input.prices, views, view);
    more := views + [view];
  }

  method CountTurns(input: UsageInput, models: ModelTable, turns: seq<TurnRecord>, places: Places) returns (views: seq<View>)
    requires Sane(models.lines) && PlacesOk(input, turns, places) && AllRecordsOk(turns)
    modifies models
    ensures AreViewsOf(input, turns, views, |turns|) && AreCostsOf(input, turns, views, |turns|) && Grew(old(models.lines), models.lines, SumViews(views))
    ensures models.lines in GrownBy(old(models.lines), AllCounts(input.prices, views)) && AreToldOf(input, turns, views)
  {
    views := [];
    NothingGrew(models.lines);
    NotGrown(models.lines);
    while |views| < |turns|
      invariant AreViewsOf(input, turns, views, |views|) && AreCostsOf(input, turns, views, |views|) && Sane(models.lines) && Grew(old(models.lines), models.lines, SumViews(views))
      invariant models.lines in GrownBy(old(models.lines), AllCounts(input.prices, views)) && AreToldOf(input, turns, views)
      decreases |turns| - |views|
    {
      views := CountNextTurn(input, models, turns, places, views, old(models.lines));
    }
  }

  // ---- the figure ----

  function Milliseconds(view: View, now: int): int {
    if view.startedAt.None? then 0 else view.completedAt.GetOr(now) - view.startedAt.value
  }

  /** A view added to the totals. */
  function WithView(t: Totals, view: View, now: int): Totals {
    t.(tokens := AddTokens(t.tokens, view.tokens), usd := t.usd + view.usd, unpriced := t.unpriced + view.unpriced,
       linesAdded := t.linesAdded + view.linesAdded, linesRemoved := t.linesRemoved + view.linesRemoved, requests := t.requests + view.requests,
       partial := t.partial || view.partial, approximate := t.approximate || view.approximate,
       assumedRates := t.assumedRates || view.noted.assumed, unpricedModels := t.unpricedModels + view.noted.unpricedModels,
       unsizedTurns := t.unsizedTurns + if view.isUnsized then 1 else 0,
       turns := t.turns + if view.kind.TurnView? then 1 else 0,
       wallMs := t.wallMs + if view.kind.TurnView? then Milliseconds(view, now) else 0)
  }

  function TotalsOf(views: seq<View>, now: int): Totals {
    if views == [] then ZERO_TOTALS else WithView(TotalsOf(views[..|views| - 1], now), views[|views| - 1], now)
  }

  lemma WithViewCounts(t: Totals, view: View, now: int)
    ensures CountedTotals(WithView(t, view, now)) == PlusCounted(CountedTotals(t), CountedView(view))
  {
    RequestsAdd(t.tokens, view.tokens);
  }

  lemma {:induction false} TotalsCountViews(views: seq<View>, now: int)
    ensures CountedTotals(TotalsOf(views, now)) == SumViews(views)
  {
    if views != [] {
      TotalsCountViews(views[..|views| - 1], now);
      WithViewCounts(TotalsOf(views[..|views| - 1], now), views[|views| - 1], now);
    }
  }

  /** All of a thread is billed in its one mode. */
  function BilledIn(mode: BillingMode, billed: Billed): ByBilling {
    match mode
    case ApiKey => NOT_BILLED.(apiKey := billed)
    case Subscription => NOT_BILLED.(subscription := billed)
    case UnknownBilling => NOT_BILLED.(unknown := billed)
  }

  /** An assumed rate anywhere makes the figure approximate. */
  function FigureTotals(views: seq<View>, now: int, billing: BillingMode): Totals {
    var sum := TotalsOf(views, now);
    sum.(approximate := sum.approximate || sum.assumedRates, byBilling := BilledIn(billing, Billed(TotalTokens(sum.tokens), sum.usd)))
  }

  method AddUpViews(views: seq<View>, now: int, billing: BillingMode) returns (totals: Totals)
    ensures totals == FigureTotals(views, now, billing)
  {
    totals := ZERO_TOTALS;
    for i := 0 to |views|
      invariant totals == TotalsOf(views[..i], now)
    {
      assert views[..i + 1][..i] == views[..i];
      totals := WithView(totals, views[i], now);
    }
    assert views[..|views|] == views;
    totals := totals.(approximate := totals.approximate || totals.assumedRates,
                      byBilling := BilledIn(billing, Billed(TotalTokens(totals.tokens), totals.usd)));
  }

  lemma {:induction false} SumViewsJoin(a: seq<View>, b: seq<View>)
    ensures SumViews(a + b) == PlusCounted(SumViews(a), SumViews(b))
  {
    if b == [] {
      assert a + b == a;
      CountedAddsUp(SumViews(a), ZERO_COUNTED, ZERO_COUNTED);
    } else {
      var rest, last := b[..|b| - 1], b[|b| - 1];
      assert (a + b)[..|a + b| - 1] == a + rest;
      SumViewsJoin(a, rest);
      CountedAddsUp(SumViews(a), SumViews(rest), CountedView(last));
    }
  }

  lemma TableHoldsViews(a: seq<ModelLine>, b: seq<ModelLine>, c: seq<ModelLine>, middle: seq<View>, front: seq<View>, back: seq<View>)
    requires Grew([], a, SumViews(middle)) && Grew(a, b, SumViews(front)) && Grew(b, c, SumViews(back))
    ensures InStep(c, front + middle + back)
  {
    GrewTwice([], a, b, SumViews(middle), SumViews(front));
    GrewTwice([], b, c, PlusCounted(SumViews(middle), SumViews(front)), SumViews(back));
    SumViewsJoin(front, middle);
    SumViewsJoin(front + middle, back);
    CountedAddsUp(SumViews(front), SumViews(middle), ZERO_COUNTED);
    var all := SumViews(front + middle + back);
    CountedAddsUp(ZERO_COUNTED, all, ZERO_COUNTED);
    CountedAddsUp(all, ZERO_COUNTED, ZERO_COUNTED);
  }

  /** Each line listed is what the views count on its key. */
  ghost predicate LinesHold(lines: seq<ModelLine>, prices: PriceBook, front: seq<View>, middle: seq<View>, back: seq<View>) {
    forall key :: SumNamed(lines, key) == SumCounts(AllCounts(prices, front) + AllCounts(prices, middle) + AllCounts(prices, back), key)
  }

  lemma LinesHoldViews(prices: PriceBook, a: seq<ModelLine>, b: seq<ModelLine>, c: seq<ModelLine>, front: seq<View>, middle: seq<View>, back: seq<View>)
    requires a in GrownBy([], AllCounts(prices, middle)) && b in GrownBy(a, AllCounts(prices, front)) && c in GrownBy(b, AllCounts(prices, back))
    ensures LinesHold(c, prices, front, middle, back)
  {
    var x, y, z := AllCounts(prices, front), AllCounts(prices, middle), AllCounts(prices, back);
    GrownTwice([], a, b, y, x);
    GrownTwice([], b, c, y + x, z);
    forall key ensures SumNamed(c, key) == SumCounts(x + y + z, key) {
      GrownFromNothing(c, y + x + z, key);
      InAnyOrder(x, y, z, key);
    }
  }

  lemma InAnyOrder(x: seq<Count>, y: seq<Count>, z: seq<Count>, key: string)
    ensures SumCounts(x + y + z, key) == SumCounts(y + x + z, key)
  {
    SumCountsJoin(x + y, z, key);
    SumCountsJoin(y + x, z, key);
    Swapped(x, y, key);
  }

  lemma Swapped(x: seq<Count>, y: seq<Count>, key: string)
    ensures SumCounts(x + y, key) == SumCounts(y + x, key)
  {
    SumCountsJoin(x, y, key);
    SumCountsJoin(y, x, key);
    CountedAddsUp(SumCounts(x, key), SumCounts(y, key), ZERO_COUNTED);
  }

  lemma GrownFromNothing(lines: seq<ModelLine>, counts: seq<Count>, key: string)
    requires lines in GrownBy([], counts)
    ensures SumNamed(lines, key) == SumCounts(counts, key)
  {
    assert SumNamed([], key) == ZERO_COUNTED;
    CountedAddsUp(SumCounts(counts, key), ZERO_COUNTED, ZERO_COUNTED);
  }

  lemma ListedHold(lines: seq<ModelLine>, prices: PriceBook, front: seq<View>, middle: seq<View>, back: seq<View>)
    requires Sane(lines) && LinesHold(lines, prices, front, middle, back)
    ensures LinesHold(Listed(lines), prices, front, middle, back)
  {
    forall key ensures SumNamed(Listed(lines), key) == SumNamed(lines, key) { ListedNamesTheSame(lines, key); }
  }

  /** The views of a thread: what stands before the turns, the turns by start, and what is outside them. */
  ghost predicate IsUsage(input: UsageInput, front: seq<View>, middle: seq<View>, back: seq<View>) {
    var turns := RealTurns(input.turns);
    IsFront(input, turns, front) && AreViewsOf(input, turns, middle, |turns|) && IsBack(input, turns, back)
  }

  ghost predicate IsUsageCost(input: UsageInput, front: seq<View>, middle: seq<View>, back: seq<View>) {
    && IsFrontCost(input, front) && IsBackCost(input.prices, back)
    && AreCostsOf(input, RealTurns(input.turns), middle, |RealTurns(input.turns)|) && AreToldOf(input, RealTurns(input.turns), middle)
  }

  /**
   * One thread's usage. The By-model lines sum to the figure's tokens,
   * dollars and unpriced tokens, and both to the views'; and each line is
   * what the views count of its own model.
   */
  method ThreadUsage(input: UsageInput) returns (figure: Figure, views: seq<View>, ghost front: seq<View>, ghost middle: seq<View>, ghost back: seq<View>)
    requires IdsOnce(input.turns) && AllRecordsOk(input.turns)
    ensures views == front + middle + back && IsUsage(input, front, middle, back) && IsUsageCost(input, front, middle, back)
    ensures LinesHold(figure.byModel, input.prices, front, middle, back)
    ensures FigureOk(figure) && AllListed(figure.byModel) && CountedTotals(figure.totals) == SumViews(views)
    ensures figure.totals == FigureTotals(views, input.now, input.billing)
  {
    var models := new ModelTable();
    var turns := RealTurns(input.turns);
    RealTurnsAre(input.turns);
    var places := PlaceLogs(input, turns);
    var turnViews := CountTurns(input, models, turns, places);
    ghost var a := models.lines;
    var before := CountFront(input, models, turns);
    ghost var b := models.lines;
    var outside := CountBack(input, models, turns, places);
    views := before + turnViews + outside;
    front, middle, back := before, turnViews, outside;
    TableHoldsViews(a, b, models.lines, middle, front, back);
    LinesHoldViews(input.prices, a, b, models.lines, front, middle, back);
    var totals := AddUpViews(views, input.now, input.billing);
    TotalsCountViews(views, input.now);
    ListedStaysSane(models.lines);
    ListedSumsTheSame(models.lines);
    ListedNames(models.lines);
    ListedHold(models.lines, input.prices, front, middle, back);
    var listed := models.List();
    figure := Figure(totals, listed);
  }
}
