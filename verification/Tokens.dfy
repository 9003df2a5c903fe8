/** Token counts by kind, and bb's breakdown of them. */
module Tokens {
  import opened Common

  /** `cacheWrite1h` is part of `cacheWrite`, `reasoning` of `output`. */
  datatype Tokens = Tokens(input: nat, output: nat, cacheRead: nat, cacheWrite: nat, cacheWrite1h: nat, reasoning: nat)

  datatype RequestTokens = RequestTokens(input: nat, output: nat, cacheRead: nat, cacheWrite: nat)

  const NO_REQUEST := RequestTokens(0, 0, 0, 0)

  const ZERO_TOKENS := Tokens(0, 0, 0, 0, 0, 0)

  function AddTokens(a: Tokens, b: Tokens): Tokens {
    Tokens(a.input + b.input, a.output + b.output, a.cacheRead + b.cacheRead, a.cacheWrite + b.cacheWrite,
           a.cacheWrite1h + b.cacheWrite1h, a.reasoning + b.reasoning)
  }

  /** The four counted kinds. */
  function Requests(tokens: Tokens): RequestTokens {
    RequestTokens(tokens.input, tokens.output, tokens.cacheRead, tokens.cacheWrite)
  }

  function AddRequests(a: RequestTokens, b: RequestTokens): RequestTokens {
    RequestTokens(a.input + b.input, a.output + b.output, a.cacheRead + b.cacheRead, a.cacheWrite + b.cacheWrite)
  }

  /** `a - b`, floored at zero. */
  function Minus(a: nat, b: nat): nat { if a < b then 0 else a - b }

  function SubtractTokens(a: Tokens, b: Tokens): Tokens {
    Tokens(Minus(a.input, b.input), Minus(a.output, b.output), Minus(a.cacheRead, b.cacheRead),
           Minus(a.cacheWrite, b.cacheWrite), Minus(a.cacheWrite1h, b.cacheWrite1h), Minus(a.reasoning, b.reasoning))
  }

  /** `n / parts` rounded to the nearest whole number, a half upwards. */
  function Share(n: nat, parts: nat): nat
    requires parts > 0
  {
    (2 * n + parts) / (2 * parts)
  }

  function ShareTokens(a: Tokens, parts: nat): Tokens
    requires parts > 0
  {
    Tokens(Share(a.input, parts), Share(a.output, parts), Share(a.cacheRead, parts),
           Share(a.cacheWrite, parts), Share(a.cacheWrite1h, parts), Share(a.reasoning, parts))
  }

  function TotalTokens(t: Tokens): nat { t.input + t.output + t.cacheRead + t.cacheWrite }

  predicate IsZeroTokens(t: Tokens) { TotalTokens(t) == 0 }

  function PromptTokens(t: Tokens): nat { t.input + t.cacheRead + t.cacheWrite }

  datatype Kind = Input | Output | CacheRead | CacheWrite | CacheWrite1h | Reasoning

  function Of(t: Tokens, kind: Kind): nat {
    match kind
    case Input => t.input
    case Output => t.output
    case CacheRead => t.cacheRead
    case CacheWrite => t.cacheWrite
    case CacheWrite1h => t.cacheWrite1h
    case Reasoning => t.reasoning
  }

  lemma KindsOf(a: Tokens, b: Tokens, kind: Kind)
    ensures Of(AddTokens(a, b), kind) == Of(a, kind) + Of(b, kind)
    ensures Of(SubtractTokens(a, b), kind) == Minus(Of(a, kind), Of(b, kind))
    ensures Of(ZERO_TOKENS, kind) == 0
    ensures Of(a, Output) == a.output && Of(a, CacheRead) == a.cacheRead && Of(a, CacheWrite) == a.cacheWrite && Of(a, CacheWrite1h) == a.cacheWrite1h
  {
  }

  lemma SameKinds(a: Tokens, b: Tokens)
    requires forall kind :: Of(a, kind) == Of(b, kind)
    ensures a == b
  {
    assert Of(a, Input) == Of(b, Input) && Of(a, Output) == Of(b, Output) && Of(a, CacheRead) == Of(b, CacheRead);
    assert Of(a, CacheWrite) == Of(b, CacheWrite) && Of(a, CacheWrite1h) == Of(b, CacheWrite1h) && Of(a, Reasoning) == Of(b, Reasoning);
  }

  /** Sharing out `n` among `parts` gives back `n` up to half a token a part. */
  lemma ShareRounds(n: nat, parts: nat)
    requires parts > 0
    ensures -(parts as int) <= 2 * (parts * Share(n, parts) - n) <= parts
  {
    var s := Share(n, parts);
    var rest := (2 * n + parts) % (2 * parts);
    assert 2 * n + parts == 2 * parts * s + rest;
  }

  // ---- bb's breakdown ----

  datatype Breakdown = Breakdown(
    totalTokens: int, inputTokens: int, cachedInputTokens: int, cacheReadInputTokens: Option<int>, cacheWriteInputTokens: Option<int>,
    outputTokens: int, reasoningOutputTokens: int)

  function NonNegative(n: int): nat { if n > 0 then n else 0 }

  function Distance(a: int, b: int): nat { if a < b then b - a else a - b }

  /** Whether the input count includes the cached tokens: the reading the total is nearer to. */
  predicate InputIncludesCached(b: Breakdown) {
    var cached, input, output := NonNegative(b.cachedInputTokens), NonNegative(b.inputTokens), NonNegative(b.outputTokens);
    cached > 0 && input >= cached && Distance(b.totalTokens, input + output) < Distance(b.totalTokens, input + cached + output)
  }

  function FromBbBreakdown(b: Breakdown): Tokens {
    var cached := NonNegative(b.cachedInputTokens);
    var cacheWrite := NonNegative(b.cacheWriteInputTokens.GetOr(0));
    var cacheRead := if b.cacheReadInputTokens.Some? then NonNegative(b.cacheReadInputTokens.value) else Minus(cached, cacheWrite);
    var input := NonNegative(b.inputTokens);
    Tokens(if InputIncludesCached(b) then Minus(input, cached) else input,
           NonNegative(b.outputTokens), cacheRead, cacheWrite, 0, NonNegative(b.reasoningOutputTokens))
  }

  /**
   * Both harness styles come out alike: a request of `input` uncached, `read`
   * and `write` cached and `output` tokens converts to those counts whether
   * its reported input leaves the cached tokens out or takes them in.
   */
  lemma BothStylesConvert(input: nat, read: nat, write: nat, output: nat, reasoning: nat)
    ensures FromBbBreakdown(Breakdown(input + read + write + output, input, read + write, None, Some(write), output, reasoning))
      == Tokens(input, output, read, write, 0, reasoning)
    ensures FromBbBreakdown(Breakdown(input + read + write + output, input + read + write, read + write, None, Some(write), output, reasoning))
      == Tokens(input, output, read, write, 0, reasoning)
  {
  }

  // ---- the conversion, count by count ----

  ghost predicate IsAtLeastZero(n: int, floored: nat) { if n > 0 then floored == n else floored == 0 }

  /** The total is nearer to input and output alone than with the cached tokens on top. */
  ghost predicate TotalTakesCachedIn(total: int, input: nat, cached: nat, output: nat) {
    var without, on := total - (input + output), total - (input + cached + output);
    (if without < 0 then -without else without) < (if on < 0 then -on else on)
  }

  /** Each count of bb's breakdown, a negative one read as none; cached tokens go off the input only where it takes them in. */
  lemma BreakdownReads(b: Breakdown, input: nat, cached: nat, output: nat, write: nat)
    requires IsAtLeastZero(b.inputTokens, input) && IsAtLeastZero(b.cachedInputTokens, cached) && IsAtLeastZero(b.outputTokens, output)
    requires if b.cacheWriteInputTokens.Some? then IsAtLeastZero(b.cacheWriteInputTokens.value, write) else write == 0
    ensures var t := FromBbBreakdown(b);
      && t.output == output && t.cacheWrite == write && t.cacheWrite1h == 0 && IsAtLeastZero(b.reasoningOutputTokens, t.reasoning)
      && (if b.cacheReadInputTokens.Some? then IsAtLeastZero(b.cacheReadInputTokens.value, t.cacheRead) else IsAtLeastZero(cached - write, t.cacheRead))
      && t.input == if 0 < cached <= input && TotalTakesCachedIn(b.totalTokens, input, cached, output) then input - cached else input
  {
  }
}
