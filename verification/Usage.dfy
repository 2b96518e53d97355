/** Usage records: what `record_usage` writes down about a finished request (src/usage/record.rs,
    src/proxy/router.rs). */
module Usage {
  import opened Basics
  import opened Tokens
  import opened Pricing

  datatype UsageSource = ProviderResponse | StreamSummary | Unavailable

  /** A row of `usage_records`; the columns no rule reads (path, latency, protocol) are left out. */
  datatype UsageRecord = UsageRecord(
    requestId: nat,
    createdAt: int,
    providerId: string,
    userId: Option<Uuid>,
    apiKeyId: Option<Uuid>,
    requestedModel: Option<string>,
    upstreamModel: Option<string>,
    status: nat,
    tokens: TokenUsage,
    cost: Option<Money>,
    currency: Option<string>,
    usageSource: UsageSource,
    pricingSource: Option<string>)

  /** What is known when a response has been forwarded: which request, which rules priced it, and the usage
      the parser or the observer found. */
  datatype Completion = Completion(
    requestId: nat,
    createdAt: int,
    providerId: string,
    requestedModel: Option<string>,
    upstreamModel: Option<string>,
    status: nat,
    rules: seq<PricingConfig>,
    source: UsageSource,
    usage: Option<TokenUsage>)

  /** The snapshot's pricing was accepted, and the usage went through the parser. */
  ghost predicate Plausible(c: Completion) {
    BuildPricing(c.rules).Ok? && (c.usage.Some? ==> NonNegative(c.usage.value))
  }

  /** The rules are well formed and for different pairs, and no reported class is negative. */
  lemma PlausibleMeaning(c: Completion)
    ensures Plausible(c) <==>
            && WellFormed(c.rules) && UniquePairs(c.rules)
            && (c.usage.Some? ==>
                  var u := c.usage.value;
                  && (u.input.Some? ==> u.input.value >= 0) && (u.output.Some? ==> u.output.value >= 0)
                  && (u.cachedInput.Some? ==> u.cachedInput.value >= 0)
                  && (u.cacheRead.Some? ==> u.cacheRead.value >= 0)
                  && (u.cacheWrite.Some? ==> u.cacheWrite.value >= 0) && (u.total.Some? ==> u.total.value >= 0))
  {
    AcceptedRules(c.rules);
  }

  /** The first half of `record_usage`: total, cost and the row to be written. */
  function RecordOf(c: Completion, userId: Uuid, apiKeyId: Uuid): UsageRecord {
    var usage := EnsureTotal(c.usage.GetOr(NO_USAGE));
    var pricing := match BuildPricing(c.rules) { case Ok(m) => m case Err(_) => map[] };
    var charge := Cost(pricing, c.providerId, c.upstreamModel, usage);
    UsageRecord(
      c.requestId, c.createdAt, c.providerId, Some(userId), Some(apiKeyId), c.requestedModel, c.upstreamModel,
      c.status, usage,
      if charge.Some? then Some(charge.value.amount) else None,
      if charge.Some? then Some(charge.value.currency) else None,
      if c.usage.Some? then c.source else Unavailable,
      if charge.Some? then charge.value.source else None)
  }

  predicate CostOk(r: UsageRecord) {
    r.cost.Some? ==> r.cost.value >= 0.0
  }

  /** From parsing through merging to costing, no record ever carries a negative cost. */
  lemma RecordCostOk(c: Completion, userId: Uuid, apiKeyId: Uuid)
    requires Plausible(c)
    ensures CostOk(RecordOf(c, userId, apiKeyId))
  {
    AcceptedRatesNonNegative(c.rules);
    CostNonNegative(BuildPricing(c.rules).value, c.providerId, c.upstreamModel,
                    EnsureTotal(c.usage.GetOr(NO_USAGE)));
  }

  /** A record has no cost exactly when the upstream model is unknown, the response reported no tokens, no
      rule covers the deployment, or the rule has no rate for a cache class that was used. */
  lemma CostAbsent(c: Completion, userId: Uuid, apiKeyId: Uuid)
    requires Plausible(c)
    ensures RecordOf(c, userId, apiKeyId).cost.None? <==>
            || c.upstreamModel.None?
            || c.usage.None? || c.usage.value == NO_USAGE
            || (forall r :: r in c.rules ==> !Covers(r, c.providerId, c.upstreamModel.value))
            || (var rule, u := RuleFor(c.rules, c.providerId, c.upstreamModel.value), c.usage.value;
                && rule.Some?
                && ((rule.value.pricing.cachedInput.None? && u.cachedInput.GetOr(0) > 0)
                    || (rule.value.pricing.cacheRead.None? && u.cacheRead.GetOr(0) > 0)
                    || (rule.value.pricing.cacheWrite.None? && u.cacheWrite.GetOr(0) > 0)))
  {
    if c.upstreamModel.Some? {
      LookupAgrees(c.rules, c.providerId, c.upstreamModel.value);
      CoverageMeaning(c.rules, c.providerId, c.upstreamModel.value);
    }
  }

  /** Tokens times rate over the five classes, every cached input token taken out of the input. */
  ghost function TokensTimesRates(u: TokenUsage, p: Pricing): Money {
    Max(0, u.input.GetOr(0) - u.cachedInput.GetOr(0)) as real * p.input
    + u.output.GetOr(0) as real * p.output
    + u.cachedInput.GetOr(0) as real * p.cachedInput.GetOr(0.0)
    + u.cacheRead.GetOr(0) as real * p.cacheRead.GetOr(0.0)
    + u.cacheWrite.GetOr(0) as real * p.cacheWrite.GetOr(0.0)
  }

  lemma BillIsSum(u: TokenUsage, p: Pricing)
    requires NonNegative(u) && u.input.GetOr(0) <= I64_MAX
    ensures Bill(u, p) == TokensTimesRates(u, p)
  {
    InputBilledOnce(u);
  }

  lemma BillIgnoresTotal(u: TokenUsage, p: Pricing)
    ensures Bill(EnsureTotal(u), p) == Bill(u, p)
  {
  }

  lemma Million(amount: Money, bill: Money)
    requires amount == bill / TOKENS_PER_MILLION
    ensures amount * 1_000_000.0 == bill
  {
  }

  /** What a record costs, per million: with `u` the usage that was reported and `p` the rates of the rule for its
      deployment, tokens times rate. */
  lemma RecordAmount(c: Completion, userId: Uuid, apiKeyId: Uuid)
    requires Plausible(c) && c.usage.Some? && c.usage.value.input.GetOr(0) <= I64_MAX
    requires RecordOf(c, userId, apiKeyId).cost.Some?
    ensures c.upstreamModel.Some? && RuleFor(c.rules, c.providerId, c.upstreamModel.value).Some?
    ensures var record, p := RecordOf(c, userId, apiKeyId),
                             RuleFor(c.rules, c.providerId, c.upstreamModel.value).value.pricing;
            && record.cost.value * 1_000_000.0 == TokensTimesRates(c.usage.value, p)
            && record.currency == Some(p.currency) && record.pricingSource == p.source
  {
    var pricing, u := BuildPricing(c.rules).value, c.usage.value;
    LookupAgrees(c.rules, c.providerId, c.upstreamModel.value);
    var p := RuleFor(c.rules, c.providerId, c.upstreamModel.value).value.pricing;
    BillIgnoresTotal(u, p);
    BillIsSum(u, p);
    Million(RecordOf(c, userId, apiKeyId).cost.value, TokensTimesRates(u, p));
  }

  /** A record keeps every class that was reported, adds nothing but a total, and says for whom and by whom the request
      was served; without a cost it has no currency either, and without usage it says so. */
  lemma RecordKeeps(c: Completion, userId: Uuid, apiKeyId: Uuid)
    ensures var record, u := RecordOf(c, userId, apiKeyId), c.usage.GetOr(NO_USAGE);
            && record.tokens.input == u.input && record.tokens.output == u.output
            && record.tokens.cachedInput == u.cachedInput
            && record.tokens.cacheRead == u.cacheRead && record.tokens.cacheWrite == u.cacheWrite
            && (u.total.Some? ==> record.tokens.total == u.total)
            && record.userId == Some(userId) && record.apiKeyId == Some(apiKeyId)
            && record.requestId == c.requestId && record.createdAt == c.createdAt && record.status == c.status
            && record.providerId == c.providerId
            && record.requestedModel == c.requestedModel && record.upstreamModel == c.upstreamModel
            && (record.cost.None? ==> record.currency == None && record.pricingSource == None)
            && record.usageSource == if c.usage.None? then Unavailable else c.source
  {
  }
}
