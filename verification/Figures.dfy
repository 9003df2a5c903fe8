/**
 * Figures and the table of model lines behind them. A figure holds totals and
 * the same amounts split by model; every part counted is put on one line, so
 * the lines sum to the totals. Adding figures up counts their lines again by
 * name, and what that keeps and what it can move is stated exactly.
 */
module Figures {
  import opened Common
  import opened Tokens

  // ---- model names ----

  /** Where a bracketed suffix that ends the name begins: the first `[` with no `]` between it and the last one. */
  function SuffixFrom(model: string, i: nat): nat
    requires i <= |model|
    ensures i <= SuffixFrom(model, i) <= |model|
    decreases |model| - i
  {
    if i >= |model| then |model|
    else if model[i] == '[' && i + 1 < |model| && ']' !in model[i + 1..|model| - 1] then i
    else SuffixFrom(model, i + 1)
  }

  function WithoutSuffix(model: string): string {
    if model != "" && model[|model| - 1] == ']' then model[..SuffixFrom(model, 0)] else model
  }

  /** The line a model's usage is counted on. */
  function ModelKey(model: Option<string>): string {
    if model.None? || model.value == "" then "unknown" else WithoutSuffix(model.value)
  }

  // ---- the table of model lines ----

  datatype Line = Line(tokens: Tokens, usd: real, unpriced: nat)

  datatype ModelLine = ModelLine(model: string, line: Line)

  function Plus(a: Line, b: Line): Line { Line(AddTokens(a.tokens, b.tokens), a.usd + b.usd, a.unpriced + b.unpriced) }

  /** Adds to the line of the key, or puts a new line last. */
  function WithPart(lines: seq<ModelLine>, key: string, line: Line): seq<ModelLine> {
    if lines == [] then [ModelLine(key, line)]
    else if lines[0].model == key then [ModelLine(key, Plus(lines[0].line, line))] + lines[1..]
    else [lines[0]] + WithPart(lines[1..], key, line)
  }

  predicate IsListed(line: Line) { TotalTokens(line.tokens) > 0 || line.usd > 0.0 }

  /** The lines with tokens or dollars. */
  function Listed(lines: seq<ModelLine>): seq<ModelLine> {
    if lines == [] then []
    else Listed(lines[..|lines| - 1]) + if IsListed(lines[|lines| - 1].line) then [lines[|lines| - 1]] else []
  }

  class ModelTable {
    var lines: seq<ModelLine>

    constructor ()
      ensures lines == []
    {
      lines := [];
    }

    method Add(model: Option<string>, line: Line)
      modifies this
      ensures lines == WithPart(old(lines), ModelKey(model), line)
    {
      lines := WithPart(lines, ModelKey(model), line);
    }

    method List() returns (listed: seq<ModelLine>)
      ensures listed == Listed(lines)
    {
      listed := Listed(lines);
    }
  }

  // ---- what lines sum to ----

  /** Tokens of the four counted kinds, dollars and unpriced tokens. */
  datatype Counted = Counted(tokens: RequestTokens, usd: real, unpriced: nat)

  const ZERO_COUNTED := Counted(NO_REQUEST, 0.0, 0)

  function CountedOf(line: Line): Counted {
    Counted(Requests(line.tokens), line.usd, line.unpriced)
  }

  function PlusCounted(a: Counted, b: Counted): Counted {
    Counted(AddRequests(a.tokens, b.tokens), a.usd + b.usd, a.unpriced + b.unpriced)
  }

  lemma CountedAddsUp(a: Counted, b: Counted, c: Counted)
    ensures PlusCounted(PlusCounted(a, b), c) == PlusCounted(a, PlusCounted(b, c))
    ensures PlusCounted(a, b) == PlusCounted(b, a) && PlusCounted(a, ZERO_COUNTED) == a
  {
  }

  lemma CountedPlus(a: Line, b: Line)
    ensures CountedOf(Plus(a, b)) == PlusCounted(CountedOf(a), CountedOf(b))
  {
  }

  function SumLines(lines: seq<ModelLine>): Counted {
    if lines == [] then ZERO_COUNTED
    else PlusCounted(CountedOf(lines[0].line), SumLines(lines[1..]))
  }

  /** What the lines named `key` sum to. */
  function SumNamed(lines: seq<ModelLine>, key: string): Counted {
    if lines == [] then ZERO_COUNTED
    else if lines[0].model == key then PlusCounted(CountedOf(lines[0].line), SumNamed(lines[1..], key))
    else SumNamed(lines[1..], key)
  }

  /** What the lines a table counts on `key` sum to: those whose model name comes to it. */
  function SumOnKey(lines: seq<ModelLine>, key: string): Counted {
    if lines == [] then ZERO_COUNTED
    else if ModelKey(Some(lines[0].model)) == key then PlusCounted(CountedOf(lines[0].line), SumOnKey(lines[1..], key))
    else SumOnKey(lines[1..], key)
  }

  /** Adding to the table adds to the sum, on the one line named. */
  lemma {:induction false} SumWithPart(lines: seq<ModelLine>, key: string, line: Line, named: string)
    ensures SumLines(WithPart(lines, key, line)) == PlusCounted(SumLines(lines), CountedOf(line))
    ensures SumNamed(WithPart(lines, key, line), named) == if named == key then PlusCounted(SumNamed(lines, named), CountedOf(line)) else SumNamed(lines, named)
  {
    if lines == [] {
      CountedAddsUp(CountedOf(line), ZERO_COUNTED, ZERO_COUNTED);
    } else if lines[0].model == key {
      CountedPlus(lines[0].line, line);
    } else {
      SumWithPart(lines[1..], key, line, named);
    }
  }

  /** No line costs anything without tokens, or has more unpriced tokens than tokens. */
  ghost predicate Sane(lines: seq<ModelLine>) {
    forall i :: 0 <= i < |lines| ==> SaneLine(lines[i].line)
  }

  predicate SaneLine(line: Line) { (TotalTokens(line.tokens) == 0 ==> line.usd == 0.0) && line.unpriced <= TotalTokens(line.tokens) }

  lemma {:induction false} WithPartStaysSane(lines: seq<ModelLine>, key: string, line: Line)
    requires Sane(lines) && SaneLine(line)
    ensures Sane(WithPart(lines, key, line))
  {
    if lines != [] && lines[0].model != key {
      WithPartStaysSane(lines[1..], key, line);
    }
  }

  /** Every line's model name is the key it would be counted on again. */
  ghost predicate NamesStable(lines: seq<ModelLine>) {
    forall i :: 0 <= i < |lines| ==> ModelKey(Some(lines[i].model)) == lines[i].model
  }

  lemma {:induction false} StableNamesKeepTheirLines(lines: seq<ModelLine>, key: string)
    requires NamesStable(lines)
    ensures SumOnKey(lines, key) == SumNamed(lines, key)
  {
    if lines != [] { StableNamesKeepTheirLines(lines[1..], key); }
  }

  /** Counted again, a line of this name stays where it is. */
  predicate IsOwnKey(name: string) { ModelKey(Some(name)) == name }

  /** The names of the lines, and the keys they come to. */
  ghost function Names(lines: seq<ModelLine>): set<string> { set l | l in lines :: l.model }

  ghost function Keys(lines: seq<ModelLine>): set<string> { set l | l in lines :: ModelKey(Some(l.model)) }

  lemma {:induction false} WithPartNames(lines: seq<ModelLine>, key: string, line: Line)
    ensures Names(WithPart(lines, key, line)) == Names(lines) + {key}
  {
    if lines == [] {
      NamesJoin(ModelLine(key, line), []);
    } else {
      var head, rest := lines[0], lines[1..];
      assert lines == [head] + rest;
      NamesJoin(head, rest);
      if head.model == key {
        NamesJoin(ModelLine(key, Plus(head.line, line)), rest);
      } else {
        WithPartNames(rest, key, line);
        NamesJoin(head, WithPart(rest, key, line));
      }
    }
  }

  lemma NamesJoin(head: ModelLine, rest: seq<ModelLine>)
    ensures Names([head] + rest) == {head.model} + Names(rest)
  {
    assert head in [head] + rest;
  }

  lemma {:induction false} ListedNames(lines: seq<ModelLine>)
    ensures Names(Listed(lines)) <= Names(lines) && AllListed(Listed(lines))
  {
    if lines != [] {
      var rest, last := lines[..|lines| - 1], lines[|lines| - 1];
      ListedNames(rest);
      assert lines == rest + [last];
      forall l | l in Listed(lines) ensures l in Listed(rest) || l == last {}
      forall l | l in Listed(rest) ensures l.model in Names(lines) { assert l.model in Names(rest); }
    }
  }

  ghost predicate AllListed(lines: seq<ModelLine>) { forall k :: 0 <= k < |lines| ==> IsListed(lines[k].line) }

  lemma UnlistedCountsNothing(line: Line)
    requires SaneLine(line) && !IsListed(line)
    ensures CountedOf(line) == ZERO_COUNTED
  {
  }

  lemma {:induction false} SumAppends(lines: seq<ModelLine>, last: ModelLine, named: string)
    ensures SumLines(lines + [last]) == PlusCounted(SumLines(lines), CountedOf(last.line))
    ensures SumNamed(lines + [last], named) == if last.model == named then PlusCounted(SumNamed(lines, named), CountedOf(last.line)) else SumNamed(lines, named)
  {
    if lines == [] {
      CountedAddsUp(CountedOf(last.line), ZERO_COUNTED, ZERO_COUNTED);
      assert [] + [last] == [last];
    } else {
      SumAppends(lines[1..], last, named);
      assert (lines + [last])[1..] == lines[1..] + [last];
    }
  }

  lemma {:induction false} ListedStaysSane(lines: seq<ModelLine>)
    requires Sane(lines)
    ensures Sane(Listed(lines))
  {
    if lines != [] { ListedStaysSane(lines[..|lines| - 1]); }
  }

  /** What is not listed counts for nothing. */
  lemma {:induction false} ListedSumsTheSame(lines: seq<ModelLine>)
    requires Sane(lines)
    ensures SumLines(Listed(lines)) == SumLines(lines)
  {
    if lines != [] {
      var rest, last := lines[..|lines| - 1], lines[|lines| - 1];
      assert lines == rest + [last];
      ListedSumsTheSame(rest);
      SumAppends(rest, last, "");
      ListedAppends(rest, last);
      ListedOneMore(Listed(rest), last, SumLines(rest));
    }
  }

  lemma ListedAppends(rest: seq<ModelLine>, last: ModelLine)
    ensures Listed(rest + [last]) == Listed(rest) + if IsListed(last.line) then [last] else []
  {
    assert (rest + [last])[..|rest|] == rest;
  }

  /** `listed` is what is listed of the lines before the last, and sums to `sum`. */
  lemma ListedOneMore(listed: seq<ModelLine>, last: ModelLine, sum: Counted)
    requires SumLines(listed) == sum && SaneLine(last.line)
    ensures SumLines(listed + if IsListed(last.line) then [last] else []) == PlusCounted(sum, CountedOf(last.line))
  {
    if IsListed(last.line) {
      SumAppends(listed, last, "");
    } else {
      assert listed + [] == listed;
      UnlistedCountsNothing(last.line);
      CountedAddsUp(sum, ZERO_COUNTED, ZERO_COUNTED);
    }
  }

  lemma {:induction false} ListedNamesTheSame(lines: seq<ModelLine>, named: string)
    requires Sane(lines)
    ensures SumNamed(Listed(lines), named) == SumNamed(lines, named)
  {
    if lines != [] {
      var rest, last := lines[..|lines| - 1], lines[|lines| - 1];
      assert lines == rest + [last];
      ListedNamesTheSame(rest, named);
      SumAppends(rest, last, named);
      if IsListed(last.line) {
        SumAppends(Listed(rest), last, named);
      } else {
        UnlistedCountsNothing(last.line);
        CountedAddsUp(SumNamed(rest, named), ZERO_COUNTED, ZERO_COUNTED);
        assert Listed(lines) == Listed(rest);
      }
    }
  }

  // ---- figures ----

  datatype BillingMode = ApiKey | Subscription | UnknownBilling

  datatype Billed = Billed(tokens: nat, usd: real)

  datatype ByBilling = ByBilling(apiKey: Billed, subscription: Billed, unknown: Billed)

  const NOT_BILLED := ByBilling(Billed(0, 0.0), Billed(0, 0.0), Billed(0, 0.0))

  function PlusBilled(a: Billed, b: Billed): Billed { Billed(a.tokens + b.tokens, a.usd + b.usd) }

  function PlusBilling(a: ByBilling, b: ByBilling): ByBilling {
    ByBilling(PlusBilled(a.apiKey, b.apiKey), PlusBilled(a.subscription, b.subscription), PlusBilled(a.unknown, b.unknown))
  }

  /** A figure but for its model lines. */
  datatype Totals = Totals(
    tokens: Tokens, usd: real, unpriced: nat, unpricedModels: set<string>, approximate: bool, assumedRates: bool, unsizedTurns: nat,
    wallMs: int, linesAdded: nat, linesRemoved: nat, turns: nat, requests: nat, partial: bool, byBilling: ByBilling)

  const ZERO_TOTALS := Totals(ZERO_TOKENS, 0.0, 0, {}, false, false, 0, 0, 0, 0, 0, 0, false, NOT_BILLED)

  function PlusTotals(a: Totals, b: Totals): Totals {
    Totals(AddTokens(a.tokens, b.tokens), a.usd + b.usd, a.unpriced + b.unpriced, a.unpricedModels + b.unpricedModels,
           a.approximate || b.approximate, a.assumedRates || b.assumedRates, a.unsizedTurns + b.unsizedTurns,
           a.wallMs + b.wallMs, a.linesAdded + b.linesAdded, a.linesRemoved + b.linesRemoved, a.turns + b.turns, a.requests + b.requests,
           a.partial || b.partial, PlusBilling(a.byBilling, b.byBilling))
  }

  lemma TotalsAddUp(a: Totals, b: Totals, c: Totals)
    ensures PlusTotals(PlusTotals(a, b), c) == PlusTotals(a, PlusTotals(b, c))
    ensures PlusTotals(a, ZERO_TOTALS) == a && PlusTotals(ZERO_TOTALS, a) == a
  {
  }

  datatype Figure = Figure(totals: Totals, byModel: seq<ModelLine>)

  function SumTotals(figures: seq<Figure>): Totals {
    if figures == [] then ZERO_TOTALS else PlusTotals(SumTotals(figures[..|figures| - 1]), figures[|figures| - 1].totals)
  }

  function SumFiguresOn(figures: seq<Figure>, key: string): Counted {
    if figures == [] then ZERO_COUNTED
    else PlusCounted(SumFiguresOn(figures[..|figures| - 1], key), SumOnKey(figures[|figures| - 1].byModel, key))
  }

  function CountedTotals(t: Totals): Counted {
    Counted(Requests(t.tokens), t.usd, t.unpriced)
  }

  /** The By-model lines sum to the figure's tokens, dollars and unpriced tokens, and no line has more unpriced tokens than tokens. */
  ghost predicate FigureOk(f: Figure) {
    Sane(f.byModel) && SumLines(f.byModel) == CountedTotals(f.totals)
  }

  function TotalCounted(c: Counted): nat { c.tokens.input + c.tokens.output + c.tokens.cacheRead + c.tokens.cacheWrite }

  predicate SaneCounted(c: Counted) { (TotalCounted(c) == 0 ==> c.usd == 0.0) && c.unpriced <= TotalCounted(c) }

  lemma {:induction false} SaneSum(lines: seq<ModelLine>)
    requires Sane(lines)
    ensures SaneCounted(SumLines(lines))
  {
    if lines != [] { SaneSum(lines[1..]); }
  }

  /** A figure's unpriced tokens never exceed its tokens. */
  lemma UnpricedWithinTokens(f: Figure)
    requires FigureOk(f)
    ensures f.totals.unpriced <= TotalTokens(f.totals.tokens)
  {
    SaneSum(f.byModel);
  }

  /**
   * The sum of figures: its totals, and on each key the lines whose model
   * names come to it. Each line is listed once.
   */
  ghost predicate IsSumOf(out: Figure, figures: seq<Figure>) {
    && out.totals == SumTotals(figures)
    && (forall key :: SumNamed(out.byModel, key) == SumFiguresOn(figures, key))
  }

  /** The table after adding the first k lines: each on the key its model name comes to. */
  ghost predicate AddedUpTo(before: seq<ModelLine>, byModel: seq<ModelLine>, lines: seq<ModelLine>) {
    && Sane(lines)
    && SumLines(lines) == PlusCounted(SumLines(before), SumLines(byModel))
    && forall key :: AddedOn(before, byModel, lines, key)
  }

  ghost predicate AddedOn(before: seq<ModelLine>, byModel: seq<ModelLine>, lines: seq<ModelLine>, key: string) {
    SumNamed(lines, key) == PlusCounted(SumNamed(before, key), SumOnKey(byModel, key))
  }

  lemma {:induction false} OnKeyAppends(lines: seq<ModelLine>, last: ModelLine, key: string)
    ensures SumOnKey(lines + [last], key) == if ModelKey(Some(last.model)) == key then PlusCounted(SumOnKey(lines, key), CountedOf(last.line)) else SumOnKey(lines, key)
  {
    if lines == [] {
      CountedAddsUp(CountedOf(last.line), ZERO_COUNTED, ZERO_COUNTED);
      assert [] + [last] == [last];
    } else {
      OnKeyAppends(lines[1..], last, key);
      assert (lines + [last])[1..] == lines[1..] + [last];
    }
  }

  lemma AddedOneMore(before: seq<ModelLine>, byModel: seq<ModelLine>, lines: seq<ModelLine>, last: ModelLine)
    requires AddedUpTo(before, byModel, lines) && SaneLine(last.line)
    ensures AddedUpTo(before, byModel + [last], WithPart(lines, ModelKey(Some(last.model)), last.line))
  {
    var on := ModelKey(Some(last.model));
    var after := WithPart(lines, on, last.line);
    WithPartStaysSane(lines, on, last.line);
    forall key ensures AddedOn(before, byModel + [last], after, key) {
      assert AddedOn(before, byModel, lines, key);
      SumWithPart(lines, on, last.line, key);
      OnKeyAppends(byModel, last, key);
      CountedAddsUp(SumNamed(before, key), SumOnKey(byModel, key), CountedOf(last.line));
    }
    SumWithPart(lines, on, last.line, on);
    SumAppends(byModel, last, on);
    CountedAddsUp(SumLines(before), SumLines(byModel), CountedOf(last.line));
  }

  lemma NoneAdded(lines: seq<ModelLine>)
    requires Sane(lines)
    ensures AddedUpTo(lines, [], lines)
  {
    forall key ensures AddedOn(lines, [], lines, key) {
      CountedAddsUp(SumNamed(lines, key), ZERO_COUNTED, ZERO_COUNTED);
    }
    CountedAddsUp(SumLines(lines), ZERO_COUNTED, ZERO_COUNTED);
  }

  method AddLine(table: ModelTable, ghost before: seq<ModelLine>, ghost done: seq<ModelLine>, last: ModelLine)
    requires SaneLine(last.line) && Adding(before, done, table.lines)
    modifies table
    ensures Adding(before, done + [last], table.lines)
  {
    AddedOneMore(before, done, table.lines, last);
    WithPartNames(table.lines, ModelKey(Some(last.model)), last.line);
    KeysOneMore(done, last);
    table.Add(Some(last.model), last.line);
  }

  lemma KeysOneMore(lines: seq<ModelLine>, last: ModelLine)
    ensures Keys(lines + [last]) == Keys(lines) + {ModelKey(Some(last.model))}
  {
  }

  /** The first lines are added, and the table's names are those before and their keys. */
  ghost predicate Adding(before: seq<ModelLine>, byModel: seq<ModelLine>, lines: seq<ModelLine>) {
    AddedUpTo(before, byModel, lines) && Names(lines) == Names(before) + Keys(byModel)
  }

  /** Adds the lines of a figure to the table. */
  method AddLines(table: ModelTable, byModel: seq<ModelLine>)
    requires Sane(table.lines) && Sane(byModel)
    modifies table
    ensures AddedUpTo(old(table.lines), byModel, table.lines)
    ensures Names(table.lines) == Names(old(table.lines)) + Keys(byModel)
  {
    NoneAdded(table.lines);
    for i := 0 to |byModel|
      invariant Adding(old(table.lines), byModel[..i], table.lines)
    {
      assert byModel[..i] + [byModel[i]] == byModel[..i + 1];
      AddLine(table, old(table.lines), byModel[..i], byModel[i]);
    }
    assert byModel[..|byModel|] == byModel;
  }

  ghost predicate AllStable(figures: seq<Figure>) { forall f :: f in figures ==> NamesStable(f.byModel) }

  ghost function KeysOf(figures: seq<Figure>): set<string> {
    if figures == [] then {} else KeysOf(figures[..|figures| - 1]) + Keys(figures[|figures| - 1].byModel)
  }

  lemma {:induction false} KeyIsOfOne(figures: seq<Figure>, key: string) returns (i: nat)
    requires key in KeysOf(figures)
    ensures i < |figures| && key in Keys(figures[i].byModel)
  {
    var last := |figures| - 1;
    if key in Keys(figures[last].byModel) { i := last; } else { i := KeyIsOfOne(figures[..last], key); }
  }

  /** The names of a sum of figures with stable names are stable. */
  lemma StableSum(figures: seq<Figure>, lines: seq<ModelLine>)
    requires AllStable(figures) && Names(lines) <= KeysOf(figures)
    ensures NamesStable(lines)
  {
    forall i | 0 <= i < |lines| ensures IsOwnKey(lines[i].model) {
      assert lines[i] in lines;
      var at := KeyIsOfOne(figures, lines[i].model);
      assert figures[at] in figures;
    }
  }

  ghost predicate AllOk(figures: seq<Figure>) { forall f :: f in figures ==> FigureOk(f) }

  /** The table holds the lines of these figures, and sums to their totals. */
  ghost predicate HoldsAll(figures: seq<Figure>, lines: seq<ModelLine>) {
    && Sane(lines)
    && SumLines(lines) == CountedTotals(SumTotals(figures))
    && forall key :: SumNamed(lines, key) == SumFiguresOn(figures, key)
  }

  lemma CountedTotalsPlus(a: Totals, b: Totals)
    ensures CountedTotals(PlusTotals(a, b)) == PlusCounted(CountedTotals(a), CountedTotals(b))
  {
  }

  lemma HoldsOneMore(figures: seq<Figure>, last: Figure, before: seq<ModelLine>, lines: seq<ModelLine>)
    requires HoldsAll(figures, before) && FigureOk(last) && AddedUpTo(before, last.byModel, lines)
    ensures HoldsAll(figures + [last], lines)
  {
    var more := figures + [last];
    assert more[..|figures|] == figures;
    forall key ensures SumNamed(lines, key) == SumFiguresOn(more, key) {
      assert AddedOn(before, last.byModel, lines, key);
    }
    CountedTotalsPlus(SumTotals(figures), last.totals);
  }

  /** Adds one more figure's lines to the table. */
  method AddFigure(table: ModelTable, last: Figure, ghost figures: seq<Figure>)
    requires HoldsAll(figures, table.lines) && FigureOk(last)
    modifies table
    ensures HoldsAll(figures + [last], table.lines)
    ensures Names(table.lines) == Names(old(table.lines)) + Keys(last.byModel)
  {
    ghost var before := table.lines;
    AddLines(table, last.byModel);
    HoldsOneMore(figures, last, before, table.lines);
  }

  lemma ListedHolds(figures: seq<Figure>, lines: seq<ModelLine>)
    requires HoldsAll(figures, lines)
    ensures var out := Figure(SumTotals(figures), Listed(lines));
      IsSumOf(out, figures) && FigureOk(out) && Names(out.byModel) <= Names(lines)
  {
    forall key ensures SumNamed(Listed(lines), key) == SumFiguresOn(figures, key) {
      ListedNamesTheSame(lines, key);
    }
    ListedStaysSane(lines);
    ListedNames(lines);
    ListedSumsTheSame(lines);
  }

  /** Adds figures up; their lines and totals stay in step, and a line's name is the key of one added up. */
  method SumFigures(figures: seq<Figure>) returns (out: Figure)
    requires AllOk(figures)
    ensures IsSumOf(out, figures) && FigureOk(out)
    ensures Names(out.byModel) <= KeysOf(figures)
    ensures AllStable(figures) ==> NamesStable(out.byModel)
  {
    var totals := ZERO_TOTALS;
    var models := new ModelTable();
    for i := 0 to |figures|
      invariant totals == SumTotals(figures[..i])
      invariant HoldsAll(figures[..i], models.lines)
      invariant Names(models.lines) == KeysOf(figures[..i])
    {
      assert figures[..i + 1][..i] == figures[..i] && figures[..i + 1] == figures[..i] + [figures[i]];
      assert figures[i] in figures;
      totals := PlusTotals(totals, figures[i].totals);
      AddFigure(models, figures[i], figures[..i]);
    }
    assert figures[..|figures|] == figures;
    ListedHolds(figures, models.lines);
    var listed := models.List();
    out := Figure(totals, listed);
    if AllStable(figures) { StableSum(figures, listed); }
  }

  // ---- sums of sums ----

  lemma {:induction false} TotalsJoin(a: seq<Figure>, b: seq<Figure>)
    ensures SumTotals(a + b) == PlusTotals(SumTotals(a), SumTotals(b))
  {
    if b == [] {
      assert a + b == a;
      TotalsAddUp(SumTotals(a), ZERO_TOTALS, ZERO_TOTALS);
    } else {
      var rest, last := b[..|b| - 1], b[|b| - 1];
      assert (a + b)[..|a + b| - 1] == a + rest;
      TotalsJoin(a, rest);
      TotalsAddUp(SumTotals(a), SumTotals(rest), last.totals);
    }
  }

  lemma {:induction false} KeysJoin(a: seq<Figure>, b: seq<Figure>, key: string)
    ensures SumFiguresOn(a + b, key) == PlusCounted(SumFiguresOn(a, key), SumFiguresOn(b, key))
  {
    if b == [] {
      assert a + b == a;
      CountedAddsUp(SumFiguresOn(a, key), ZERO_COUNTED, ZERO_COUNTED);
    } else {
      var rest, last := b[..|b| - 1], b[|b| - 1];
      assert (a + b)[..|a + b| - 1] == a + rest;
      KeysJoin(a, rest, key);
      CountedAddsUp(SumFiguresOn(a, key), SumFiguresOn(rest, key), SumOnKey(last.byModel, key));
    }
  }

  lemma BracketNames()
    ensures ModelKey(Some("[x]")) == "" && ModelKey(Some("")) == "unknown"
    ensures ModelKey(Some("m[a][b]")) == "m[a]" && ModelKey(Some("m[a]")) == "m"
  {
    assert SuffixFrom("[x]", 0) == 0;
    assert SuffixFrom("m[a]", 1) == 1;
    assert SuffixFrom("m[a]", 0) == 1;
    assert SuffixFrom("m[a][b]", 4) == 4;
    assert SuffixFrom("m[a][b]", 3) == 4;
    assert SuffixFrom("m[a][b]", 2) == 4;
    assert "m[a][b]"[3] == ']' && ']' in "m[a][b]"[2..6];
    assert SuffixFrom("m[a][b]", 1) == 4;
    assert SuffixFrom("m[a][b]", 0) == 4;
  }

  /**
   * Adding up a sum counts its lines again by their names, and a name that
   * is all suffix, or that ends in two, comes to another key the second time:
   * the line of a model called "[x]" moves to the one of unknown models.
   */
  lemma SummingASumCanMoveALine(line: Line, thread: Figure)
    requires thread.byModel == WithPart([], ModelKey(Some("[x]")), line)
    ensures SumNamed(thread.byModel, "") == CountedOf(line)
    ensures SumOnKey(thread.byModel, "") == ZERO_COUNTED && SumOnKey(thread.byModel, "unknown") == CountedOf(line)
  {
    BracketNames();
    CountedAddsUp(CountedOf(line), ZERO_COUNTED, ZERO_COUNTED);
    assert thread.byModel == [ModelLine("", line)];
    assert thread.byModel[1..] == [];
  }

  // ---- exactly when a second count keeps every line ----

  predicate IsUnstable(line: ModelLine) { ModelKey(Some(line.model)) != line.model }

  lemma {:induction false} LongestUnstable(lines: seq<ModelLine>) returns (i: nat)
    requires !NamesStable(lines)
    ensures i < |lines| && IsUnstable(lines[i])
    ensures forall j :: 0 <= j < |lines| && IsUnstable(lines[j]) ==> |lines[j].model| <= |lines[i].model|
  {
    var last := |lines| - 1;
    if NamesStable(lines[..last]) {
      i := last;
      assert forall j :: 0 <= j < last ==> lines[..last][j] == lines[j];
    } else {
      i := LongestUnstable(lines[..last]);
      assert forall j :: 0 <= j < last ==> lines[..last][j] == lines[j];
      if IsUnstable(lines[last]) && |lines[last].model| > |lines[i].model| { i := last; }
    }
  }

  lemma {:induction false} NothingOnKey(lines: seq<ModelLine>, key: string)
    requires forall i :: 0 <= i < |lines| ==> ModelKey(Some(lines[i].model)) != key
    ensures SumOnKey(lines, key) == ZERO_COUNTED
  {
    if lines != [] { NothingOnKey(lines[1..], key); }
  }

  lemma {:induction false} NamedCountsSomething(lines: seq<ModelLine>, i: nat)
    requires i < |lines| && Sane(lines) && AllListed(lines)
    ensures SumNamed(lines, lines[i].model) != ZERO_COUNTED
  {
    SaneNamed(lines[1..], lines[i].model);
    if i > 0 && lines[0].model != lines[i].model { NamedCountsSomething(lines[1..], i - 1); }
  }

  lemma {:induction false} SaneNamed(lines: seq<ModelLine>, key: string)
    requires Sane(lines)
    ensures SaneCounted(SumNamed(lines, key))
  {
    if lines != [] { SaneNamed(lines[1..], key); }
  }

  lemma KeyIsNoLonger(model: string)
    ensures model != "" ==> |ModelKey(Some(model))| <= |model| && (ModelKey(Some(model)) != model ==> |ModelKey(Some(model))| < |model|)
  {
  }

  /** Lines that come to a key count tokens on it. */
  lemma {:induction false} OnKeyCounts(lines: seq<ModelLine>, key: string)
    requires Sane(lines) && AllListed(lines)
    ensures key in Keys(lines) ==> TotalCounted(SumOnKey(lines, key)) > 0
  {
    if lines != [] {
      assert lines == [lines[0]] + lines[1..];
      OnKeyCounts(lines[1..], key);
    }
  }

  /** Counting a figure's lines again leaves each on its key exactly when its model names are all their own keys. */
  lemma LinesStayIffNamesStable(lines: seq<ModelLine>)
    requires Sane(lines) && AllListed(lines)
    ensures (forall key :: SumOnKey(lines, key) == SumNamed(lines, key)) <==> NamesStable(lines)
  {
    if NamesStable(lines) {
      forall key { StableNamesKeepTheirLines(lines, key); }
    } else {
      var i := LongestUnstable(lines);
      var name := lines[i].model;
      forall j | 0 <= j < |lines| ensures ModelKey(Some(lines[j].model)) != name {
        KeyIsNoLonger(lines[j].model);
      }
      NothingOnKey(lines, name);
      NamedCountsSomething(lines, i);
    }
  }
}
