/** Pricing rules, their lookup and the cost of a request (src/pricing/, src/catalog/mod.rs). */
module Pricing {
  import opened Basics
  import opened Tokens

  const WILDCARD := "*"

  datatype Pricing = Pricing(
    input: Money,
    output: Money,
    cachedInput: Option<Money>,
    cacheRead: Option<Money>,
    cacheWrite: Option<Money>,
    currency: string,
    source: Option<string>)

  datatype PricingConfig = PricingConfig(provider: string, model: string, pricing: Pricing)
  {
    function Pair(): (string, string) { (provider, model) }
  }

  type PricingMap = map<(string, string), Pricing>

  // --- validation and indexing ---

  datatype Problem = EmptyProvider | EmptyModel | BadCurrency | NegativeRate | Duplicate(pair: (string, string))

  predicate UppercaseCode(currency: string) {
    |currency| == 3 && forall c :: c in currency ==> 'A' <= c <= 'Z'
  }

  predicate NonNegativeOptional(rate: Option<Money>) {
    rate.Some? ==> rate.value >= 0.0
  }

  predicate NonNegativeRates(p: Pricing) {
    && p.input >= 0.0 && p.output >= 0.0
    && NonNegativeOptional(p.cachedInput) && NonNegativeOptional(p.cacheRead) && NonNegativeOptional(p.cacheWrite)
  }

  function EntryProblem(entry: PricingConfig): Option<Problem> {
    if Blank(entry.provider) then Some(EmptyProvider)
    else if Blank(entry.model) then Some(EmptyModel)
    else if Blank(entry.pricing.currency) || !UppercaseCode(entry.pricing.currency) then Some(BadCurrency)
    else if !NonNegativeRates(entry.pricing) then Some(NegativeRate)
    else None
  }

  /** The rules by pair; a later rule would replace an earlier one of the same pair. */
  function Index(entries: seq<PricingConfig>): PricingMap {
    if entries == [] then map[]
    else
      var last := entries[|entries| - 1];
      Index(entries[..|entries| - 1])[last.Pair() := last.pricing]
  }

  /** The first thing wrong with a rule list, reading it in order. */
  function RulesProblem(entries: seq<PricingConfig>): Option<Problem> {
    if entries == [] then None
    else
      var init, last := entries[..|entries| - 1], entries[|entries| - 1];
      var earlier := RulesProblem(init);
      if earlier.Some? then earlier
      else if EntryProblem(last).Some? then EntryProblem(last)
      else if last.Pair() in Index(init) then Some(Duplicate(last.Pair()))
      else None
  }

  /** `pricing_map` */
  function BuildPricing(entries: seq<PricingConfig>): Result<PricingMap, Problem> {
    var problem := RulesProblem(entries);
    if problem.Some? then Err(problem.value) else Ok(Index(entries))
  }

  method PricingMapOf(entries: seq<PricingConfig>) returns (r: Result<PricingMap, Problem>)
    ensures r == BuildPricing(entries)
  {
    var pricing: PricingMap := map[];
    for i := 0 to |entries|
      invariant RulesProblem(entries[..i]).None? && pricing == Index(entries[..i])
    {
      var entry := entries[i];
      assert entries[..i + 1][..i] == entries[..i];
      var problem := EntryProblem(entry);
      if problem.None? && entry.Pair() in pricing {
        problem := Some(Duplicate(entry.Pair()));
      }
      if problem.Some? {
        ProblemPersists(entries, i + 1);
        return Err(problem.value);
      }
      pricing := pricing[entry.Pair() := entry.pricing];
    }
    assert entries[..|entries|] == entries;
    return Ok(pricing);
  }

  lemma {:induction false} ProblemPersists(entries: seq<PricingConfig>, n: nat)
    requires n <= |entries| && RulesProblem(entries[..n]).Some?
    ensures RulesProblem(entries) == RulesProblem(entries[..n])
    decreases |entries| - n
  {
    if n == |entries| {
      assert entries[..n] == entries;
    } else {
      assert entries[..n + 1][..n] == entries[..n];
      ProblemPersists(entries, n + 1);
    }
  }

  ghost predicate UniquePairs(rules: seq<PricingConfig>) {
    forall i, j :: 0 <= i < j < |rules| ==> rules[i].Pair() != rules[j].Pair()
  }

  /** The index holds exactly the pairs of the rules, each with the pricing of a rule of that pair. */
  lemma {:induction false} IndexKeys(rules: seq<PricingConfig>)
    ensures forall r :: r in rules ==> r.Pair() in Index(rules)
    ensures forall k :: k in Index(rules) ==> exists r :: r in rules && r.Pair() == k && r.pricing == Index(rules)[k]
  {
    if rules != [] {
      var n := |rules| - 1;
      var init, last := rules[..n], rules[n];
      assert rules == init + [last];
      IndexKeys(init);
      forall k | k in Index(rules)
        ensures exists r :: r in rules && r.Pair() == k && r.pricing == Index(rules)[k]
      {
        if k == last.Pair() {
          assert last in rules;
        } else {
          assert k in Index(init);
          var r :| r in init && r.Pair() == k && r.pricing == Index(init)[k];
          assert r in rules;
        }
      }
    }
  }

  ghost predicate WellFormed(rules: seq<PricingConfig>) {
    forall r :: r in rules ==> EntryProblem(r).None?
  }

  /** An entry is well formed if it names provider and model, has a currency of three upper-case letters, and no rate
      below zero. */
  lemma WellFormedEntry(e: PricingConfig)
    ensures EntryProblem(e).None? <==>
            && !Blank(e.provider) && !Blank(e.model)
            && |e.pricing.currency| == 3 && (forall c :: c in e.pricing.currency ==> 'A' <= c <= 'Z')
            && e.pricing.input >= 0.0 && e.pricing.output >= 0.0
            && (e.pricing.cachedInput.Some? ==> e.pricing.cachedInput.value >= 0.0)
            && (e.pricing.cacheRead.Some? ==> e.pricing.cacheRead.value >= 0.0)
            && (e.pricing.cacheWrite.Some? ==> e.pricing.cacheWrite.value >= 0.0)
  {
    var currency := e.pricing.currency;
    if UppercaseCode(currency) { assert currency[0] in currency; }
  }

  /** `pricing_map` accepts exactly the lists whose entries are all well formed and whose pairs are unique. */
  lemma {:induction false} AcceptedRules(rules: seq<PricingConfig>)
    ensures BuildPricing(rules).Ok? <==> WellFormed(rules) && UniquePairs(rules)
  {
    if rules != [] {
      var n := |rules| - 1;
      var init, last := rules[..n], rules[n];
      assert rules == init + [last];
      AcceptedRules(init);
      IndexKeys(init);
      assert last in rules;
      assert WellFormed(rules) <==> WellFormed(init) && EntryProblem(last).None? by {
        assert forall r :: r in rules <==> r in init || r == last;
      }
      assert UniquePairs(rules) <==> UniquePairs(init) && last.Pair() !in Index(init) by {
        UniqueSnoc(init, last);
      }
    }
  }

  lemma UniqueSnoc(init: seq<PricingConfig>, last: PricingConfig)
    ensures UniquePairs(init + [last]) <==> UniquePairs(init) && last.Pair() !in Index(init)
  {
    var rules := init + [last];
    IndexKeys(init);
    if last.Pair() in Index(init) {
      var r :| r in init && r.Pair() == last.Pair();
      var i :| 0 <= i < |init| && init[i] == r;
      assert rules[i].Pair() == rules[|init|].Pair();
    } else {
      if UniquePairs(rules) {
        forall i, j | 0 <= i < j < |init| ensures init[i].Pair() != init[j].Pair() {
          assert rules[i].Pair() != rules[j].Pair();
        }
      }
      if UniquePairs(init) {
        forall i, j | 0 <= i < j < |rules| ensures rules[i].Pair() != rules[j].Pair() {
          assert rules[i] == init[i] && init[i] in init;
        }
      }
    }
  }

  /** Accepted rules never carry a negative rate. */
  ghost predicate NonNegativePricing(pricing: PricingMap) {
    forall k :: k in pricing ==> NonNegativeRates(pricing[k])
  }

  lemma AcceptedRatesNonNegative(rules: seq<PricingConfig>)
    requires BuildPricing(rules).Ok?
    ensures NonNegativePricing(BuildPricing(rules).value)
  {
    AcceptedRules(rules);
    IndexKeys(rules);
    forall k | k in Index(rules) ensures NonNegativeRates(Index(rules)[k]) {
      var r :| r in rules && r.Pair() == k && r.pricing == Index(rules)[k];
      assert EntryProblem(r).None?;
    }
  }

  // --- lookup: by map on the request path, by list in the listing gate ---

  function OrElse<T>(a: Option<T>, b: Option<T>): Option<T> {
    if a.Some? then a else b
  }

  function MapGet(pricing: PricingMap, provider: string, model: string): Option<Pricing> {
    if (provider, model) in pricing then Some(pricing[(provider, model)]) else None
  }

  /** `lookup_pricing`: provider+model, provider+`*`, `*`+model, `*`+`*`. */
  function LookupPricing(pricing: PricingMap, provider: string, model: string): Option<Pricing> {
    OrElse(MapGet(pricing, provider, model),
      OrElse(MapGet(pricing, provider, WILDCARD),
        OrElse(MapGet(pricing, WILDCARD, model), MapGet(pricing, WILDCARD, WILDCARD))))
  }

  function FirstRule(rules: seq<PricingConfig>, provider: string, model: string): Option<PricingConfig> {
    if rules == [] then None
    else if rules[0].Pair() == (provider, model) then Some(rules[0])
    else FirstRule(rules[1..], provider, model)
  }

  /** `pricing_rule_for` */
  function RuleFor(rules: seq<PricingConfig>, provider: string, model: string): Option<PricingConfig> {
    OrElse(FirstRule(rules, provider, model),
      OrElse(FirstRule(rules, provider, WILDCARD),
        OrElse(FirstRule(rules, WILDCARD, model), FirstRule(rules, WILDCARD, WILDCARD))))
  }

  predicate Covers(rule: PricingConfig, provider: string, model: string) {
    (rule.provider == provider || rule.provider == WILDCARD) && (rule.model == model || rule.model == WILDCARD)
  }

  lemma {:induction false} FirstRuleMeaning(rules: seq<PricingConfig>, provider: string, model: string)
    ensures FirstRule(rules, provider, model).Some? <==> exists r :: r in rules && r.Pair() == (provider, model)
    ensures FirstRule(rules, provider, model).Some? ==>
              FirstRule(rules, provider, model).value in rules
              && FirstRule(rules, provider, model).value.Pair() == (provider, model)
  {
    if rules != [] {
      assert rules == [rules[0]] + rules[1..];
      FirstRuleMeaning(rules[1..], provider, model);
    }
  }

  /** Some rule is for this provider and this model, literally. */
  ghost predicate HasRule(rules: seq<PricingConfig>, provider: string, model: string) {
    exists r :: r in rules && r.provider == provider && r.model == model
  }

  /** `found` is the first rule for this provider and this model, literally. */
  ghost predicate IsFirstRule(found: Option<PricingConfig>, rules: seq<PricingConfig>, provider: string,
                              model: string) {
    exists i :: 0 <= i < |rules| && found == Some(rules[i]) && rules[i].provider == provider && rules[i].model == model
      && forall j :: 0 <= j < i ==> !(rules[j].provider == provider && rules[j].model == model)
  }

  lemma {:induction false} FirstRuleIsFirst(rules: seq<PricingConfig>, provider: string, model: string)
    requires HasRule(rules, provider, model)
    ensures IsFirstRule(FirstRule(rules, provider, model), rules, provider, model)
  {
    if rules[0].Pair() == (provider, model) {
      assert IsFirstRule(FirstRule(rules, provider, model), rules, provider, model);
    } else {
      var rest := rules[1..];
      assert HasRule(rest, provider, model) by {
        var r :| r in rules && r.provider == provider && r.model == model;
        assert rules == [rules[0]] + rest;
      }
      FirstRuleIsFirst(rest, provider, model);
      var i :| 0 <= i < |rest| && FirstRule(rest, provider, model) == Some(rest[i])
        && rest[i].provider == provider && rest[i].model == model
        && forall j :: 0 <= j < i ==> !(rest[j].provider == provider && rest[j].model == model);
      forall j | 0 <= j < i + 1 ensures !(rules[j].provider == provider && rules[j].model == model) {
        assert j > 0 ==> rules[j] == rest[j - 1];
      }
      assert rules[i + 1] == rest[i];
    }
  }

  /** The most specific rule wins: provider and model, then the provider for any model, then the model of any
      provider, then the rule for everything; among rules of one kind, the first. */
  lemma RuleOrder(rules: seq<PricingConfig>, provider: string, model: string)
    ensures var found := RuleFor(rules, provider, model);
            if HasRule(rules, provider, model) then IsFirstRule(found, rules, provider, model)
            else if HasRule(rules, provider, "*") then IsFirstRule(found, rules, provider, "*")
            else if HasRule(rules, "*", model) then IsFirstRule(found, rules, "*", model)
            else if HasRule(rules, "*", "*") then IsFirstRule(found, rules, "*", "*")
            else found == None
  {
    FirstRuleSearch(rules, provider, model);
    FirstRuleSearch(rules, provider, "*");
    FirstRuleSearch(rules, "*", model);
    FirstRuleSearch(rules, "*", "*");
  }

  lemma FirstRuleSearch(rules: seq<PricingConfig>, provider: string, model: string)
    ensures var found := FirstRule(rules, provider, model);
            if HasRule(rules, provider, model) then IsFirstRule(found, rules, provider, model) else found == None
  {
    FirstRuleMeaning(rules, provider, model);
    if HasRule(rules, provider, model) { FirstRuleIsFirst(rules, provider, model); }
  }

  /** The same order on the request path, in the index. */
  lemma LookupOrder(pricing: PricingMap, provider: string, model: string)
    ensures LookupPricing(pricing, provider, model) ==
            if (provider, model) in pricing then Some(pricing[(provider, model)])
            else if (provider, "*") in pricing then Some(pricing[(provider, "*")])
            else if ("*", model) in pricing then Some(pricing[("*", model)])
            else if ("*", "*") in pricing then Some(pricing[("*", "*")])
            else None
  {
  }

  /** A pair is covered exactly when some rule matches it, wildcards counting: coverage does not depend on
      the order of the rules. */
  lemma CoverageMeaning(rules: seq<PricingConfig>, provider: string, model: string)
    ensures RuleFor(rules, provider, model).Some? <==> exists r :: r in rules && Covers(r, provider, model)
  {
    FirstRuleMeaning(rules, provider, model);
    FirstRuleMeaning(rules, provider, WILDCARD);
    FirstRuleMeaning(rules, WILDCARD, model);
    FirstRuleMeaning(rules, WILDCARD, WILDCARD);
    if r :| r in rules && Covers(r, provider, model) {
      assert r.Pair() == (r.provider, r.model);
    }
  }

  lemma FirstRuleIsIndexed(rules: seq<PricingConfig>, provider: string, model: string)
    requires UniquePairs(rules)
    ensures MapGet(Index(rules), provider, model) ==
            match FirstRule(rules, provider, model) { case Some(r) => Some(r.pricing) case None => None }
  {
    IndexKeys(rules);
    FirstRuleMeaning(rules, provider, model);
    var first := FirstRule(rules, provider, model);
    if first.Some? {
      var r :| r in rules && r.Pair() == (provider, model) && r.pricing == Index(rules)[(provider, model)];
      SamePairSameRule(rules, r, first.value);
    }
  }

  lemma SamePairSameRule(rules: seq<PricingConfig>, a: PricingConfig, b: PricingConfig)
    requires UniquePairs(rules) && a in rules && b in rules && a.Pair() == b.Pair()
    ensures a == b
  {
    var i :| 0 <= i < |rules| && rules[i] == a;
    var j :| 0 <= j < |rules| && rules[j] == b;
    assert !(i < j) && !(j < i);
  }

  /** The index a snapshot uses and the list the gate uses pick the same rule for every pair. */
  lemma LookupAgrees(rules: seq<PricingConfig>, provider: string, model: string)
    requires BuildPricing(rules).Ok?
    ensures LookupPricing(BuildPricing(rules).value, provider, model) ==
            match RuleFor(rules, provider, model) { case Some(r) => Some(r.pricing) case None => None }
  {
    AcceptedRules(rules);
    FirstRuleIsIndexed(rules, provider, model);
    FirstRuleIsIndexed(rules, provider, WILDCARD);
    FirstRuleIsIndexed(rules, WILDCARD, model);
    FirstRuleIsIndexed(rules, WILDCARD, WILDCARD);
  }

  // --- cost ---

  datatype Charge = Charge(amount: Money, currency: string, source: Option<string>)

  const TOKENS_PER_MILLION := 1_000_000.0
  const I64_MIN := -0x8000_0000_0000_0000

  function SaturatingSub(a: int, b: int): int {
    var d := a - b;
    if d > I64_MAX then I64_MAX else if d < I64_MIN then I64_MIN else d
  }

  function RegularInput(u: TokenUsage): int {
    Max(SaturatingSub(u.input.GetOr(0), u.cachedInput.GetOr(0)), 0)
  }

  function Times(tokens: int, rate: Money): (r: Money)
    ensures tokens >= 0 && rate >= 0.0 ==> r >= 0.0
    ensures tokens == 0 || rate == 0.0 ==> r == 0.0
  {
    tokens as real * rate
  }

  function TokenCost(tokens: int, rate: Money): Money {
    Times(tokens, rate) / TOKENS_PER_MILLION
  }

  /** A cache class was used but the rule has no rate for it. */
  predicate UnpricedCache(u: TokenUsage, p: Pricing) {
    || (u.cachedInput.GetOr(0) > 0 && p.cachedInput.None?)
    || (u.cacheRead.GetOr(0) > 0 && p.cacheRead.None?)
    || (u.cacheWrite.GetOr(0) > 0 && p.cacheWrite.None?)
  }

  /** Tokens times rate over the five disjoint classes. */
  function Bill(u: TokenUsage, p: Pricing): Money {
    Times(RegularInput(u), p.input)
    + Times(u.output.GetOr(0), p.output)
    + Times(u.cachedInput.GetOr(0), p.cachedInput.GetOr(0.0))
    + Times(u.cacheRead.GetOr(0), p.cacheRead.GetOr(0.0))
    + Times(u.cacheWrite.GetOr(0), p.cacheWrite.GetOr(0.0))
  }

  function Cost(pricing: PricingMap, provider: string, upstream: Option<string>, usage: TokenUsage): Option<Charge> {
    if upstream.None? || !usage.HasTokens() then None
    else
      match LookupPricing(pricing, provider, upstream.value)
      case None => None
      case Some(price) =>
        if UnpricedCache(usage, price) then None
        else Some(Charge(Bill(usage, price) / TOKENS_PER_MILLION, price.currency, price.source))
  }

  /** `calculate_cost`, adding up one class at a time. */
  method CalculateCost(pricing: PricingMap, provider: string, upstream: Option<string>, usage: TokenUsage)
    returns (charge: Option<Charge>)
    ensures charge == Cost(pricing, provider, upstream, usage)
  {
    if upstream.None? || !usage.HasTokens() {
      return None;
    }
    var found := LookupPricing(pricing, provider, upstream.value);
    if found.None? {
      return None;
    }
    var price := found.value;
    var cachedInput, cacheRead, cacheWrite :=
      usage.cachedInput.GetOr(0), usage.cacheRead.GetOr(0), usage.cacheWrite.GetOr(0);
    if cachedInput > 0 && price.cachedInput.None? { return None; }
    if cacheRead > 0 && price.cacheRead.None? { return None; }
    if cacheWrite > 0 && price.cacheWrite.None? { return None; }

    var cost := TokenCost(RegularInput(usage), price.input);
    cost := cost + TokenCost(usage.output.GetOr(0), price.output);
    if price.cachedInput.Some? { cost := cost + TokenCost(cachedInput, price.cachedInput.value); }
    if price.cacheRead.Some? { cost := cost + TokenCost(cacheRead, price.cacheRead.value); }
    if price.cacheWrite.Some? { cost := cost + TokenCost(cacheWrite, price.cacheWrite.value); }
    BillSplits(usage, price);
    charge := Some(Charge(cost, price.currency, price.source));
  }

  lemma BillSplits(u: TokenUsage, p: Pricing)
    ensures Bill(u, p) / TOKENS_PER_MILLION ==
            TokenCost(RegularInput(u), p.input) + TokenCost(u.output.GetOr(0), p.output)
            + TokenCost(u.cachedInput.GetOr(0), p.cachedInput.GetOr(0.0))
            + TokenCost(u.cacheRead.GetOr(0), p.cacheRead.GetOr(0.0))
            + TokenCost(u.cacheWrite.GetOr(0), p.cacheWrite.GetOr(0.0))
  {
  }

  /** A charge times 10^6 is the sum of tokens times rate over the five disjoint classes: input that was not
      cached, output, cached input, cache reads and cache writes. */
  lemma ChargeTimesMillion(pricing: PricingMap, provider: string, upstream: Option<string>, u: TokenUsage)
    requires Cost(pricing, provider, upstream, u).Some?
    ensures var p := LookupPricing(pricing, provider, upstream.value).value;
            Cost(pricing, provider, upstream, u).value.amount * 1_000_000.0 ==
            RegularInput(u) as real * p.input
            + u.output.GetOr(0) as real * p.output
            + u.cachedInput.GetOr(0) as real * p.cachedInput.GetOr(0.0)
            + u.cacheRead.GetOr(0) as real * p.cacheRead.GetOr(0.0)
            + u.cacheWrite.GetOr(0) as real * p.cacheWrite.GetOr(0.0)
  {
    var p := LookupPricing(pricing, provider, upstream.value).value;
    assert Bill(u, p) / TOKENS_PER_MILLION * TOKENS_PER_MILLION == Bill(u, p);
  }

  lemma BillNonNegative(u: TokenUsage, p: Pricing)
    requires NonNegativeRates(p) && NonNegative(u)
    ensures Bill(u, p) >= 0.0
  {
    assert RegularInput(u) >= 0;
  }

  /** What the spend counters rely on: usage that came from the parser, costed by accepted rules, is never
      negative. */
  lemma CostNonNegative(pricing: PricingMap, provider: string, upstream: Option<string>, usage: TokenUsage)
    requires NonNegativePricing(pricing) && NonNegative(usage)
    ensures Cost(pricing, provider, upstream, usage).Some? ==>
              Cost(pricing, provider, upstream, usage).value.amount >= 0.0
  {
    if Cost(pricing, provider, upstream, usage).Some? {
      var price := LookupPricing(pricing, provider, upstream.value).value;
      BillNonNegative(usage, price);
    }
  }

  /** Every regular or cached input token is billed once: the cached ones at their own rate, and never more
      regular ones than were reported. */
  lemma InputBilledOnce(u: TokenUsage)
    requires NonNegative(u) && u.input.GetOr(0) <= I64_MAX
    ensures RegularInput(u) == Max(0, u.input.GetOr(0) - u.cachedInput.GetOr(0))
    ensures u.cachedInput.GetOr(0) <= u.input.GetOr(0) ==>
              RegularInput(u) + u.cachedInput.GetOr(0) == u.input.GetOr(0)
  {
  }
}
