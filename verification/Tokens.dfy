/** Token counts reported by an upstream: parsing and merging
    (src/domain/token.rs, src/usage/parse.rs). */
module Tokens {
  import opened Basics

  datatype Protocol = OpenAi | Anthropic

  datatype TokenUsage = TokenUsage(
    input: Option<int>,
    output: Option<int>,
    cachedInput: Option<int>,
    cacheRead: Option<int>,
    cacheWrite: Option<int>,
    total: Option<int>)
  {
    predicate HasTokens() {
      input.Some? || output.Some? || cachedInput.Some? || cacheRead.Some? || cacheWrite.Some? || total.Some?
    }
  }

  const NO_USAGE := TokenUsage(None, None, None, None, None, None)

  /** The later report wins wherever it says anything. */
  function Override(earlier: Option<int>, later: Option<int>): Option<int> {
    if later.Some? then later else earlier
  }

  function Merge(a: TokenUsage, b: TokenUsage): TokenUsage {
    TokenUsage(
      Override(a.input, b.input),
      Override(a.output, b.output),
      Override(a.cachedInput, b.cachedInput),
      Override(a.cacheRead, b.cacheRead),
      Override(a.cacheWrite, b.cacheWrite),
      Override(a.total, b.total))
  }

  /** `TokenUsage::merge_from`, assigning one field at a time. */
  method MergeFrom(self: TokenUsage, other: TokenUsage) returns (merged: TokenUsage)
    ensures merged == Merge(self, other)
  {
    merged := self;
    if other.input.Some? { merged := merged.(input := other.input); }
    if other.output.Some? { merged := merged.(output := other.output); }
    if other.cachedInput.Some? { merged := merged.(cachedInput := other.cachedInput); }
    if other.cacheRead.Some? { merged := merged.(cacheRead := other.cacheRead); }
    if other.cacheWrite.Some? { merged := merged.(cacheWrite := other.cacheWrite); }
    if other.total.Some? { merged := merged.(total := other.total); }
  }

  /** `TokenUsage::ensure_total`: a missing total becomes the sum of the additive classes. The cached
      input is a subset of the input and is not added. */
  function EnsureTotal(u: TokenUsage): (r: TokenUsage)
    ensures r.(total := u.total) == u
    ensures u.total.Some? ==> r == u
    ensures r.HasTokens() == u.HasTokens()
    ensures r.total.None? <==> !u.(cachedInput := None).HasTokens()
    ensures u.total.None? && r.total.Some? ==>
              r.total.value == u.input.GetOr(0) + u.output.GetOr(0) + u.cacheRead.GetOr(0) + u.cacheWrite.GetOr(0)
    ensures NonNegative(u) ==> NonNegative(r)
  {
    if u.total.Some? || (u.input.None? && u.output.None? && u.cacheRead.None? && u.cacheWrite.None?) then
      u
    else
      u.(total := Some(u.input.GetOr(0) + u.output.GetOr(0) + u.cacheRead.GetOr(0) + u.cacheWrite.GetOr(0)))
  }

  predicate NonNegativeCount(c: Option<int>) {
    c.Some? ==> c.value >= 0
  }

  /** No reported class is negative: what `number` guarantees. */
  predicate NonNegative(u: TokenUsage) {
    && NonNegativeCount(u.input) && NonNegativeCount(u.output) && NonNegativeCount(u.cachedInput)
    && NonNegativeCount(u.cacheRead) && NonNegativeCount(u.cacheWrite) && NonNegativeCount(u.total)
  }

  // --- parsing (JSON text itself stays abstract) ---

  datatype Json = Object(fields: map<string, Json>) | Number(n: int) | Other

  const I64_MAX := 0x7FFF_FFFF_FFFF_FFFF

  function Get(v: Json, key: string): Option<Json> {
    if v.Object? && key in v.fields then Some(v.fields[key]) else None
  }

  /** `number`: an integer that fits `i64` and is not negative. */
  function Count(v: Json, key: string): (r: Option<int>)
    ensures NonNegativeCount(r)
  {
    match Get(v, key)
    case Some(Number(n)) => if 0 <= n <= I64_MAX then Some(n) else None
    case _ => None
  }

  function IfAny(u: TokenUsage): Option<TokenUsage> {
    if u.HasTokens() then Some(u) else None
  }

  function ParseOpenAiUsage(v: Json): Option<TokenUsage> {
    var details := Get(v, "prompt_tokens_details");
    IfAny(NO_USAGE.(
      input := Count(v, "prompt_tokens"),
      output := Count(v, "completion_tokens"),
      total := Count(v, "total_tokens"),
      cachedInput := if details.Some? then Count(details.value, "cached_tokens") else None))
  }

  function ParseAnthropicUsage(v: Json): Option<TokenUsage> {
    IfAny(NO_USAGE.(
      input := Count(v, "input_tokens"),
      output := Count(v, "output_tokens"),
      cacheWrite := Count(v, "cache_creation_input_tokens"),
      cacheRead := Count(v, "cache_read_input_tokens")))
  }

  /** The usage in a whole response body (`parse_non_streaming_usage`). */
  function ParseBody(protocol: Protocol, body: Option<Json>): (r: Option<TokenUsage>)
    ensures r.Some? ==> NonNegative(r.value) && r.value.HasTokens()
  {
    if body.None? then None
    else
      match Get(body.value, "usage")
      case None => None
      case Some(usage) => if protocol.OpenAi? then ParseOpenAiUsage(usage) else ParseAnthropicUsage(usage)
  }

  /** The usage in one stream event (`UsageObserver::consume_line`): Anthropic nests the first report
      under `message`. */
  function ParseEvent(protocol: Protocol, event: Json): (r: Option<TokenUsage>)
    ensures r.Some? ==> NonNegative(r.value) && r.value.HasTokens()
  {
    match protocol
    case OpenAi =>
      (match Get(event, "usage")
       case Some(usage) => ParseOpenAiUsage(usage)
       case None => None)
    case Anthropic =>
      var nested :=
        match Get(event, "message")
        case Some(message) =>
          (match Get(message, "usage")
           case Some(usage) => ParseAnthropicUsage(usage)
           case None => None)
        case None => None;
      if nested.Some? then nested
      else
        match Get(event, "usage")
        case Some(usage) => ParseAnthropicUsage(usage)
        case None => None
  }

  // --- what the upstreams write ---

  function Field(key: string, c: Option<int>): map<string, Json> {
    if c.Some? then map[key := Number(c.value)] else map[]
  }

  predicate FitsI64(u: TokenUsage) {
    forall c: Class :: CountOf(u, c).Some? ==> 0 <= CountOf(u, c).value <= I64_MAX
  }

  function OpenAiUsage(u: TokenUsage): Json {
    Object(Field("prompt_tokens", u.input) + Field("completion_tokens", u.output) + Field("total_tokens", u.total)
           + map["prompt_tokens_details" := Object(Field("cached_tokens", u.cachedInput))])
  }

  function AnthropicUsage(u: TokenUsage): Json {
    Object(Field("input_tokens", u.input) + Field("output_tokens", u.output)
           + Field("cache_creation_input_tokens", u.cacheWrite) + Field("cache_read_input_tokens", u.cacheRead))
  }

  /** A count is an integer between zero and the largest `i64`; anything else under the key is no count. */
  lemma CountMeaning(v: Json, key: string, n: int)
    ensures Count(v, key) == Some(n) <==>
            v.Object? && key in v.fields && v.fields[key] == Number(n) && 0 <= n <= I64_MAX
  {
  }

  /** Without a `usage` field, at the top or for Anthropic events in the message, nothing is reported. */
  lemma NoUsageNoReport(protocol: Protocol, v: Json)
    requires Get(v, "usage") == None
    ensures ParseBody(protocol, Some(v)) == None && ParseBody(protocol, None) == None
    ensures protocol == OpenAi || (forall m :: Get(v, "message") == Some(m) ==> Get(m, "usage") == None) ==>
              ParseEvent(protocol, v) == None
  {
  }

  /** What OpenAI reports is read back class by class, from a body and from a stream event alike. */
  lemma OpenAiRoundTrip(u: TokenUsage)
    requires FitsI64(u) && u.cacheRead.None? && u.cacheWrite.None?
    ensures var read := if u == NO_USAGE then None else Some(u);
            && ParseBody(OpenAi, Some(Object(map["usage" := OpenAiUsage(u)]))) == read
            && ParseEvent(OpenAi, Object(map["usage" := OpenAiUsage(u)])) == read
  {
    OpenAiReadBack(u);
  }

  lemma OpenAiReadBack(u: TokenUsage)
    requires FitsI64(u) && u.cacheRead.None? && u.cacheWrite.None?
    ensures ParseOpenAiUsage(OpenAiUsage(u)) == IfAny(u)
  {
    var usage, details := OpenAiUsage(u), Object(Field("cached_tokens", u.cachedInput));
    OpenAiFields(u, details);
    assert Count(details, "cached_tokens") == u.cachedInput by { assert CountOf(u, CachedInput) == u.cachedInput; }
  }

  lemma OpenAiFields(u: TokenUsage, details: Json)
    requires FitsI64(u) && details == Object(Field("cached_tokens", u.cachedInput))
    ensures Get(OpenAiUsage(u), "prompt_tokens_details") == Some(details)
    ensures Count(OpenAiUsage(u), "prompt_tokens") == u.input
    ensures Count(OpenAiUsage(u), "completion_tokens") == u.output
    ensures Count(OpenAiUsage(u), "total_tokens") == u.total
  {
    assert CountOf(u, Input) == u.input && CountOf(u, Output) == u.output && CountOf(u, Total) == u.total;
  }

  /** So is what Anthropic reports, also nested under `message`, where it takes precedence. */
  lemma AnthropicRoundTrip(u: TokenUsage, outer: Json)
    requires FitsI64(u) && u.cachedInput.None? && u.total.None?
    ensures var read := if u == NO_USAGE then None else Some(u);
            && ParseBody(Anthropic, Some(Object(map["usage" := AnthropicUsage(u)]))) == read
            && ParseEvent(Anthropic, Object(map["usage" := AnthropicUsage(u)])) == read
    ensures u != NO_USAGE ==>
              var message := Object(map["usage" := AnthropicUsage(u)]);
              ParseEvent(Anthropic, Object(map["message" := message, "usage" := outer])) == Some(u)
  {
    AnthropicReadBack(u);
  }

  lemma AnthropicReadBack(u: TokenUsage)
    requires FitsI64(u) && u.cachedInput.None? && u.total.None?
    ensures ParseAnthropicUsage(AnthropicUsage(u)) == IfAny(u)
  {
    var usage := AnthropicUsage(u);
    assert Count(usage, "input_tokens") == u.input by { assert CountOf(u, Input) == u.input; }
    assert Count(usage, "output_tokens") == u.output by { assert CountOf(u, Output) == u.output; }
    assert Count(usage, "cache_creation_input_tokens") == u.cacheWrite by {
      assert CountOf(u, CacheWrite) == u.cacheWrite;
    }
    assert Count(usage, "cache_read_input_tokens") == u.cacheRead by { assert CountOf(u, CacheRead) == u.cacheRead; }
  }

  // --- merging is a right-biased monoid ---

  function MergeAll(acc: TokenUsage, reports: seq<TokenUsage>): TokenUsage
    decreases |reports|
  {
    if reports == [] then acc else MergeAll(Merge(acc, reports[0]), reports[1..])
  }

  lemma MergeMonoid(a: TokenUsage, b: TokenUsage, c: TokenUsage)
    ensures Merge(a, Merge(b, c)) == Merge(Merge(a, b), c)
    ensures Merge(a, NO_USAGE) == a == Merge(NO_USAGE, a)
  {
  }

  /** Folding reports into an accumulator is merging the accumulator with their own merge, so a stream
      may be cut into events anywhere. */
  lemma {:induction false} MergeAllSplits(acc: TokenUsage, a: seq<TokenUsage>, b: seq<TokenUsage>)
    ensures MergeAll(acc, a + b) == MergeAll(MergeAll(acc, a), b)
    ensures MergeAll(acc, a) == Merge(acc, MergeAll(NO_USAGE, a))
    decreases |a|
  {
    if a == [] {
      assert a + b == b;
    } else {
      assert (a + b)[1..] == a[1..] + b;
      MergeAllSplits(Merge(acc, a[0]), a[1..], b);
      MergeAllSplits(a[0], a[1..], b);
      MergeMonoid(acc, a[0], MergeAll(NO_USAGE, a[1..]));
      MergeMonoid(NO_USAGE, a[0], NO_USAGE);
    }
  }

  datatype Class = Input | Output | CachedInput | CacheRead | CacheWrite | Total

  function CountOf(u: TokenUsage, c: Class): Option<int> {
    match c
    case Input => u.input
    case Output => u.output
    case CachedInput => u.cachedInput
    case CacheRead => u.cacheRead
    case CacheWrite => u.cacheWrite
    case Total => u.total
  }

  /** The last value anybody reported for one class. */
  function LastReported(reports: seq<TokenUsage>, c: Class): Option<int> {
    if reports == [] then None
    else
      var last := CountOf(reports[|reports| - 1], c);
      if last.Some? then last else LastReported(reports[..|reports| - 1], c)
  }

  /** Merging a stream of reports leaves, class by class, the last value reported. */
  lemma {:induction false} MergeKeepsLast(reports: seq<TokenUsage>, c: Class)
    ensures CountOf(MergeAll(NO_USAGE, reports), c) == LastReported(reports, c)
  {
    if reports != [] {
      var n := |reports| - 1;
      assert reports == reports[..n] + [reports[n]];
      MergeKeepsLast(reports[..n], c);
      MergeAllSplits(NO_USAGE, reports[..n], [reports[n]]);
      assert [reports[n]][1..] == [];
    }
  }

  lemma {:induction false} MergeAllNonNegative(acc: TokenUsage, reports: seq<TokenUsage>)
    requires NonNegative(acc) && forall r :: r in reports ==> NonNegative(r)
    ensures NonNegative(MergeAll(acc, reports))
    decreases |reports|
  {
    if reports != [] {
      assert reports[0] in reports;
      MergeAllNonNegative(Merge(acc, reports[0]), reports[1..]);
    }
  }
}
