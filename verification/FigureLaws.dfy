/** Which line a model is on, what a figure adds up and who is whose child, in the fields of lines, figures and edges. */
module FigureLaws {
  import opened Common
  import opened Threads
  import opened ThreadTree
  import opened Tokens
  import opened Figures
  import opened UsageTree
  import opened TreeFigures

  // ---- the key of a model ----

  /** From here a name ends in one bracketed part: an opening bracket, and no closing one before the last character. */
  ghost predicate OpensSuffix(name: string, i: int) {
    && 0 <= i < |name| - 1 && name[i] == '[' && name[|name| - 1] == ']'
    && forall j :: i < j < |name| - 1 ==> name[j] != ']'
  }

  lemma {:induction false} SuffixIsFirst(name: string, i: nat)
    requires i <= |name| && name != "" && name[|name| - 1] == ']'
    ensures var at := SuffixFrom(name, i);
      && (at < |name| ==> OpensSuffix(name, at))
      && forall j :: i <= j < at ==> !OpensSuffix(name, j)
    decreases |name| - i
  {
    if i < |name| {
      assert i + 1 < |name| ==> (']' in name[i + 1..|name| - 1] <==> exists j :: i < j < |name| - 1 && name[j] == ']');
      if !OpensSuffix(name, i) { SuffixIsFirst(name, i + 1); }
    }
  }

  /** A model without a name is unknown; a bracketed part that ends a name is left off, from the first bracket that opens one; any other name is its own. */
  lemma KeyIs(model: Option<string>)
    ensures model == None || model == Some("") ==> ModelKey(model) == "unknown"
    ensures model.Some? && model.value != "" && (forall i :: !OpensSuffix(model.value, i)) ==> ModelKey(model) == model.value
    ensures model.Some? ==> forall i :: OpensSuffix(model.value, i) && (forall j :: 0 <= j < i ==> !OpensSuffix(model.value, j)) ==> ModelKey(model) == model.value[..i]
  {
    if model.Some? && model.value != "" && model.value[|model.value| - 1] == ']' {
      SuffixIsFirst(model.value, 0);
      assert model.value[..|model.value|] == model.value;
    }
  }

  // ---- the table of lines ----

  /** The place of the first line named so, or past the last. */
  ghost predicate IsPlaceOf(lines: seq<ModelLine>, name: string, i: int) {
    && 0 <= i <= |lines| && (i < |lines| ==> lines[i].model == name)
    && forall j :: 0 <= j < i ==> lines[j].model != name
  }

  ghost predicate AddsUp(a: Line, b: Line, both: Line) {
    && both.usd == a.usd + b.usd && both.unpriced == a.unpriced + b.unpriced
    && both.tokens.input == a.tokens.input + b.tokens.input && both.tokens.output == a.tokens.output + b.tokens.output
    && both.tokens.cacheRead == a.tokens.cacheRead + b.tokens.cacheRead && both.tokens.cacheWrite == a.tokens.cacheWrite + b.tokens.cacheWrite
    && both.tokens.cacheWrite1h == a.tokens.cacheWrite1h + b.tokens.cacheWrite1h && both.tokens.reasoning == a.tokens.reasoning + b.tokens.reasoning
  }

  /** Adding to a table moves one line, kind by kind, or puts a new one last. */
  lemma {:induction false} TableTakes(lines: seq<ModelLine>, name: string, line: Line, i: nat)
    requires IsPlaceOf(lines, name, i)
    ensures var after := WithPart(lines, name, line);
      && |after| == (if i < |lines| then |lines| else |lines| + 1) && after[i].model == name
      && (if i < |lines| then AddsUp(lines[i].line, line, after[i].line) else after[i].line == line)
      && forall j :: 0 <= j < |lines| && j != i ==> after[j] == lines[j]
  {
    if i > 0 {
      assert forall j :: 0 <= j < |lines| - 1 ==> lines[1..][j] == lines[j + 1];
      assert lines[0].model != name;
      TableTakes(lines[1..], name, line, i - 1);
      var after := WithPart(lines[1..], name, line);
      assert WithPart(lines, name, line) == [lines[0]] + after;
    }
  }

  /** A table lists the lines with tokens of a counted kind or dollars. */
  lemma {:induction false} ListsThose(lines: seq<ModelLine>)
    ensures forall l :: l in Listed(lines) <==>
      l in lines && (l.line.tokens.input + l.line.tokens.output + l.line.tokens.cacheRead + l.line.tokens.cacheWrite > 0 || l.line.usd > 0.0)
  {
    if lines != [] {
      var n := |lines| - 1;
      ListsThose(lines[..n]);
      assert lines == lines[..n] + [lines[n]];
    }
  }

  // ---- totals of figures ----

  ghost function SumOf(figures: seq<Figure>, of: Totals -> int): int {
    if figures == [] then 0 else SumOf(figures[..|figures| - 1], of) + of(figures[|figures| - 1].totals)
  }

  ghost function SumReal(figures: seq<Figure>, of: Totals -> real): real {
    if figures == [] then 0.0 else SumReal(figures[..|figures| - 1], of) + of(figures[|figures| - 1].totals)
  }

  /** A tree's totals are the sums of its threads', kind by kind. */
  lemma {:induction false} TokensAddUp(figures: seq<Figure>)
    ensures var t := SumTotals(figures).tokens;
      && t.input == SumOf(figures, (f: Totals) => f.tokens.input) && t.output == SumOf(figures, (f: Totals) => f.tokens.output)
      && t.cacheRead == SumOf(figures, (f: Totals) => f.tokens.cacheRead) && t.cacheWrite == SumOf(figures, (f: Totals) => f.tokens.cacheWrite)
      && t.cacheWrite1h == SumOf(figures, (f: Totals) => f.tokens.cacheWrite1h) && t.reasoning == SumOf(figures, (f: Totals) => f.tokens.reasoning)
  {
    if figures != [] { TokensAddUp(figures[..|figures| - 1]); }
  }

  lemma {:induction false} DollarsAddUp(figures: seq<Figure>)
    ensures var t := SumTotals(figures);
      && t.usd == SumReal(figures, (f: Totals) => f.usd) && t.unpriced == SumOf(figures, (f: Totals) => f.unpriced)
      && t.byBilling.apiKey.usd == SumReal(figures, (f: Totals) => f.byBilling.apiKey.usd)
      && t.byBilling.subscription.usd == SumReal(figures, (f: Totals) => f.byBilling.subscription.usd)
      && t.byBilling.unknown.usd == SumReal(figures, (f: Totals) => f.byBilling.unknown.usd)
      && t.byBilling.apiKey.tokens == SumOf(figures, (f: Totals) => f.byBilling.apiKey.tokens)
      && t.byBilling.subscription.tokens == SumOf(figures, (f: Totals) => f.byBilling.subscription.tokens)
      && t.byBilling.unknown.tokens == SumOf(figures, (f: Totals) => f.byBilling.unknown.tokens)
  {
    if figures != [] { DollarsAddUp(figures[..|figures| - 1]); }
  }

  lemma {:induction false} CountsAddUp(figures: seq<Figure>)
    ensures var t := SumTotals(figures);
      && t.turns == SumOf(figures, (f: Totals) => f.turns) && t.requests == SumOf(figures, (f: Totals) => f.requests)
      && t.wallMs == SumOf(figures, (f: Totals) => f.wallMs) && t.unsizedTurns == SumOf(figures, (f: Totals) => f.unsizedTurns)
      && t.linesAdded == SumOf(figures, (f: Totals) => f.linesAdded) && t.linesRemoved == SumOf(figures, (f: Totals) => f.linesRemoved)
  {
    if figures != [] { CountsAddUp(figures[..|figures| - 1]); }
  }

  /** What holds of one thread is said of the tree, and every model without a price is named. */
  lemma {:induction false} NotesAddUp(figures: seq<Figure>)
    ensures var t := SumTotals(figures);
      && (t.partial <==> exists f :: f in figures && f.totals.partial)
      && (t.approximate <==> exists f :: f in figures && f.totals.approximate)
      && (t.assumedRates <==> exists f :: f in figures && f.totals.assumedRates)
      && forall name :: name in t.unpricedModels <==> exists f :: f in figures && name in f.totals.unpricedModels
  {
    if figures != [] {
      var n := |figures| - 1;
      NotesAddUp(figures[..n]);
      assert figures == figures[..n] + [figures[n]];
    }
  }

  /** A budget counts what is not covered by a subscription. */
  lemma BudgetLeavesOutSubscriptions(t: Totals)
    requires t.usd == t.byBilling.apiKey.usd + t.byBilling.subscription.usd + t.byBilling.unknown.usd
    ensures BilledOf(t) == t.byBilling.apiKey.usd + t.byBilling.unknown.usd
  {
  }

  // ---- whose child a thread is ----

  /** In the tree of usage a thread is its parent's child, unless it is a fork, which is no thread's. */
  lemma TreeEdgeIff(byId: map<string, EdgeRow>, parent: string, child: string)
    ensures Edge(Listing(byId), parent, child) <==>
      child in byId && byId[child].sourceThreadId == None && byId[child].parentThreadId == Some(parent)
  {
    ListingIs(byId);
  }
}
