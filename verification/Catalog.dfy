/** Providers, pricing rules and models: the store and the invariant the admin API keeps
    (src/catalog/mod.rs, src/catalog/store.rs). */
module Catalog {
  import opened Basics
  import opened Tokens
  import opened Pricing

  datatype ProviderConfig = ProviderConfig(
    id: string,
    protocol: Protocol,
    baseUrl: string,
    apiKey: string,
    anthropicVersion: Option<string>,
    aliases: map<string, string>)

  datatype PricingRecord = PricingRecord(id: Uuid, config: PricingConfig)

  /** A hop of a failover chain: provider id and upstream model name. */
  type Hop = (string, string)

  datatype DeploymentConfig = DeploymentConfig(id: Uuid, providerId: string, upstreamModel: string)
  {
    function Hop(): Hop { (providerId, upstreamModel) }
  }

  datatype ModelConfig = ModelConfig(name: string, enabled: bool, createdAt: int, deployments: seq<DeploymentConfig>)

  datatype CatalogSnapshot = CatalogSnapshot(
    providers: seq<ProviderConfig>, pricing: seq<PricingConfig>, models: seq<ModelConfig>)

  datatype Catalog = Catalog(providers: seq<ProviderConfig>, pricing: seq<PricingRecord>, models: seq<ModelConfig>)
  {
    function Rules(): seq<PricingConfig> {
      RulesOf(pricing)
    }

    function Snapshot(): CatalogSnapshot {
      CatalogSnapshot(providers, Rules(), models)
    }
  }

  function RulesOf(records: seq<PricingRecord>): (rules: seq<PricingConfig>)
    ensures |rules| == |records|
    ensures forall i :: 0 <= i < |records| ==> rules[i] == records[i].config
  {
    seq(|records|, i requires 0 <= i < |records| => records[i].config)
  }

  lemma RulesMembers(records: seq<PricingRecord>, rule: PricingConfig)
    ensures rule in RulesOf(records) <==> exists r :: r in records && r.config == rule
  {
    if rule in RulesOf(records) {
      var i :| 0 <= i < |records| && RulesOf(records)[i] == rule;
      assert records[i] in records;
    }
    if r :| r in records && r.config == rule {
      var i :| 0 <= i < |records| && records[i] == r;
      assert RulesOf(records)[i] == rule;
    }
  }

  // --- coverage ---

  predicate Priced(rules: seq<PricingConfig>, d: DeploymentConfig) {
    RuleFor(rules, d.providerId, d.upstreamModel).Some?
  }

  /** `uncovered_deployments` */
  function Uncovered(m: ModelConfig, rules: seq<PricingConfig>): seq<DeploymentConfig> {
    Filter(m.deployments, (d: DeploymentConfig) => !Priced(rules, d))
  }

  ghost predicate FullyPriced(deployments: seq<DeploymentConfig>, rules: seq<PricingConfig>) {
    forall d :: d in deployments ==> Priced(rules, d)
  }

  lemma UncoveredMeaning(m: ModelConfig, rules: seq<PricingConfig>)
    ensures Uncovered(m, rules) == [] <==> FullyPriced(m.deployments, rules)
  {
    FilterMembers(m.deployments, (d: DeploymentConfig) => !Priced(rules, d));
    if Uncovered(m, rules) != [] {
      assert Uncovered(m, rules)[0] in Uncovered(m, rules);
    }
  }

  /** Coverage only depends on which rules there are, and more rules never cover less. */
  lemma CoverageGrows(rules: seq<PricingConfig>, more: seq<PricingConfig>, deployments: seq<DeploymentConfig>)
    requires forall r :: r in rules ==> r in more
    requires FullyPriced(deployments, rules)
    ensures FullyPriced(deployments, more)
  {
    forall d | d in deployments ensures Priced(more, d) {
      assert Priced(rules, d);
      CoverageMeaning(rules, d.providerId, d.upstreamModel);
      CoverageMeaning(more, d.providerId, d.upstreamModel);
    }
  }

  // --- the invariant ---

  ghost predicate Pairwise<T(!new)>(s: seq<T>, r: (T, T) -> bool) {
    forall i, j :: 0 <= i < j < |s| ==> r(s[i], s[j])
  }

  predicate OtherProvider(a: ProviderConfig, b: ProviderConfig) { a.id != b.id }

  predicate OtherRule(a: PricingRecord, b: PricingRecord) { a.id != b.id && a.config.Pair() != b.config.Pair() }

  predicate OtherModel(a: ModelConfig, b: ModelConfig) { a.name != b.name }

  ghost predicate Known(providers: seq<ProviderConfig>, id: string) {
    exists p :: p in providers && p.id == id
  }

  ghost predicate AllKnown(deployments: seq<DeploymentConfig>, providers: seq<ProviderConfig>) {
    forall d :: d in deployments ==> Known(providers, d.providerId)
  }

  /** The chain names existing providers, none of them twice; a model that is enabled can be served: its chain
      is not empty and every hop has a price. */
  ghost predicate ModelOk(m: ModelConfig, providers: seq<ProviderConfig>, rules: seq<PricingConfig>) {
    && AllKnown(m.deployments, providers)
    && (forall i, j :: 0 <= i < j < |m.deployments| ==> m.deployments[i].providerId != m.deployments[j].providerId)
    && (m.enabled ==> m.deployments != [] && FullyPriced(m.deployments, rules))
  }

  ghost predicate Inv(c: Catalog) {
    && Pairwise(c.providers, OtherProvider)
    && Pairwise(c.pricing, OtherRule)
    && Pairwise(c.models, OtherModel)
    && forall m :: m in c.models ==> ModelOk(m, c.providers, c.Rules())
  }

  /** A model stays in order when providers are replaced by ones of the same ids or added, and rules are added. */
  lemma ModelStaysOk(m: ModelConfig, p: seq<ProviderConfig>, q: seq<ProviderConfig>,
                     rules: seq<PricingConfig>, more: seq<PricingConfig>)
    requires ModelOk(m, p, rules)
    requires forall d :: d in m.deployments && Known(p, d.providerId) ==> Known(q, d.providerId)
    requires m.enabled && FullyPriced(m.deployments, rules) ==> FullyPriced(m.deployments, more)
    ensures ModelOk(m, q, more)
  {
  }

  // --- sequences edited in place ---

  /** `iter().position`: the first index whose element satisfies `p`. */
  function Position<T>(s: seq<T>, p: T -> bool): (at: Option<nat>)
    ensures at.Some? ==> at.value < |s| && p(s[at.value])
    ensures at.None? ==> forall x :: x in s ==> !p(x)
  {
    if s == [] then None
    else if p(s[0]) then Some(0)
    else match Position(s[1..], p) { case Some(i) => Some(i + 1) case None => None }
  }

  lemma {:induction false} FilterPairwise<T(!new)>(s: seq<T>, p: T -> bool, r: (T, T) -> bool)
    requires Pairwise(s, r)
    ensures Pairwise(Filter(s, p), r)
  {
    if s != [] {
      var rest := Filter(s[1..], p);
      FilterPairwise(s[1..], p, r);
      FilterMembers(s[1..], p);
      forall y | y in rest ensures r(s[0], y) {
        var k :| 0 <= k < |s[1..]| && s[1..][k] == y;
        assert s[k + 1] == y;
      }
    }
  }

  lemma PairwiseSnoc<T(!new)>(s: seq<T>, x: T, r: (T, T) -> bool)
    requires Pairwise(s, r) && forall y :: y in s ==> r(y, x)
    ensures Pairwise(s + [x], r)
  {
  }

  lemma PairwiseSnocIff<T(!new)>(init: seq<T>, last: T, r: (T, T) -> bool)
    ensures Pairwise(init + [last], r) <==> Pairwise(init, r) && forall y :: y in init ==> r(y, last)
  {
    var s := init + [last];
    if Pairwise(s, r) {
      forall i, j | 0 <= i < j < |init| ensures r(init[i], init[j]) {
        assert r(s[i], s[j]);
      }
      forall y | y in init ensures r(y, last) {
        var i :| 0 <= i < |init| && init[i] == y;
        assert r(s[i], s[|init|]);
      }
    }
  }

  lemma PairwiseUpdate<T(!new)>(s: seq<T>, i: nat, x: T, r: (T, T) -> bool)
    requires i < |s| && Pairwise(s, r)
    requires forall j :: 0 <= j < |s| && j != i ==> r(s[j], x) && r(x, s[j])
    ensures Pairwise(s[i := x], r)
  {
  }

  lemma UpdateMembers<T>(s: seq<T>, i: nat, x: T)
    requires i < |s|
    ensures x in s[i := x]
    ensures forall y :: y in s[i := x] ==> y == x || y in s
    ensures forall y :: y in s && y != s[i] ==> y in s[i := x]
  {
    assert s[i := x][i] == x;
    forall y | y in s && y != s[i] ensures y in s[i := x] {
      var j :| 0 <= j < |s| && s[j] == y;
      assert s[i := x][j] == y;
    }
  }
}
