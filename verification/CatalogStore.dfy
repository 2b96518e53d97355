/** The catalog store: every operation as a step on the catalog, and the class that performs it in place
    (`MemoryCatalogStore` in src/catalog/store.rs). */
module CatalogStore {
  import opened Basics
  import opened Pricing
  import opened Catalog

  // --- the steps; None is a `CatalogConflict`, and a missing target leaves the catalog unchanged ---

  function Upserted(c: Catalog, p: ProviderConfig, isNew: bool): Option<Catalog> {
    match Position(c.providers, (q: ProviderConfig) => q.id == p.id)
    case Some(i) => if isNew then None else Some(c.(providers := c.providers[i := p]))
    case None => Some(c.(providers := c.providers + [p]))
  }

  function WithoutProvider(c: Catalog, id: string): Catalog {
    c.(providers := Filter(c.providers, (p: ProviderConfig) => p.id != id))
  }

  predicate PairTaken(c: Catalog, config: PricingConfig) {
    Position(c.pricing, (r: PricingRecord) => r.config.Pair() == config.Pair()).Some?
  }

  predicate PairTakenByOther(c: Catalog, id: Uuid, config: PricingConfig) {
    Position(c.pricing, (r: PricingRecord) => r.id != id && r.config.Pair() == config.Pair()).Some?
  }

  function WithRule(c: Catalog, id: Uuid, config: PricingConfig): Option<Catalog> {
    if PairTaken(c, config) then None else Some(c.(pricing := c.pricing + [PricingRecord(id, config)]))
  }

  function RuleAt(c: Catalog, id: Uuid): Option<nat> {
    Position(c.pricing, (r: PricingRecord) => r.id == id)
  }

  function Repriced(c: Catalog, id: Uuid, config: PricingConfig): Option<Catalog> {
    if PairTakenByOther(c, id, config) then None
    else match RuleAt(c, id)
      case Some(i) => Some(c.(pricing := c.pricing[i := PricingRecord(id, config)]))
      case None => Some(c)
  }

  function WithoutRule(c: Catalog, id: Uuid): Catalog {
    c.(pricing := Filter(c.pricing, (r: PricingRecord) => r.id != id))
  }

  function ModelAt(c: Catalog, name: string): Option<nat> {
    Position(c.models, (m: ModelConfig) => m.name == name)
  }

  function WithModel(c: Catalog, name: string, now: int): Option<Catalog> {
    if ModelAt(c, name).Some? then None else Some(c.(models := c.models + [ModelConfig(name, false, now, [])]))
  }

  /** The chain under newly drawn deployment ids, counted from `firstId`. */
  function Deployments(hops: seq<Hop>, firstId: Uuid): (deployments: seq<DeploymentConfig>)
    ensures |deployments| == |hops|
    ensures forall i :: 0 <= i < |hops| ==> deployments[i].Hop() == hops[i]
  {
    seq(|hops|, i requires 0 <= i < |hops| => DeploymentConfig(firstId + i, hops[i].0, hops[i].1))
  }

  predicate Repeats(hops: seq<Hop>) {
    exists i, j :: 0 <= i < j < |hops| && hops[i].0 == hops[j].0
  }

  function WithChain(c: Catalog, name: string, hops: seq<Hop>, firstId: Uuid): Option<Catalog> {
    if Repeats(hops) then None
    else match ModelAt(c, name)
      case Some(i) => Some(c.(models := c.models[i := c.models[i].(deployments := Deployments(hops, firstId))]))
      case None => Some(c)
  }

  function WithStatus(c: Catalog, name: string, enabled: bool): Catalog {
    match ModelAt(c, name)
    case Some(i) => c.(models := c.models[i := c.models[i].(enabled := enabled)])
    case None => c
  }

  function WithoutModel(c: Catalog, name: string): Catalog {
    c.(models := Filter(c.models, (m: ModelConfig) => m.name != name))
  }

  predicate Uses(m: ModelConfig, id: string) {
    Position(m.deployments, (d: DeploymentConfig) => d.providerId == id).Some?
  }

  lemma UsesMeaning(m: ModelConfig, id: string)
    ensures Uses(m, id) <==> exists d :: d in m.deployments && d.providerId == id
  {
    var at := Position(m.deployments, (d: DeploymentConfig) => d.providerId == id);
    if at.Some? { assert m.deployments[at.value] in m.deployments; }
  }

  // --- the store ---

  class MemoryCatalogStore {
    var providers: seq<ProviderConfig>
    var pricing: seq<PricingRecord>
    var models: seq<ModelConfig>

    ghost function State(): Catalog
      reads this
    {
      Catalog(providers, pricing, models)
    }

    constructor ()
      ensures State() == Catalog([], [], [])
    {
      providers, pricing, models := [], [], [];
    }

    /** False is a conflict; the store is then unchanged. */
    method UpsertProvider(provider: ProviderConfig, isNew: bool) returns (ok: bool)
      modifies this`providers
      ensures var after := Upserted(old(State()), provider, isNew);
              ok == after.Some? && State() == after.GetOr(old(State()))
    {
      var at := Position(providers, (q: ProviderConfig) => q.id == provider.id);
      if at.Some? {
        if isNew { return false; }
        providers := providers[at.value := provider];
      } else {
        providers := providers + [provider];
      }
      ok := true;
    }

    method DeleteProvider(id: string) returns (found: bool)
      modifies this`providers
      ensures State() == WithoutProvider(old(State()), id)
      ensures found <==> Known(old(providers), id)
    {
      var before := |providers|;
      FilterDrops(providers, (p: ProviderConfig) => p.id != id);
      providers := Filter(providers, (p: ProviderConfig) => p.id != id);
      found := |providers| != before;
    }

    method CreatePricing(id: Uuid, config: PricingConfig) returns (ok: bool)
      modifies this`pricing
      ensures var after := WithRule(old(State()), id, config);
              ok == after.Some? && State() == after.GetOr(old(State()))
    {
      if Position(pricing, (r: PricingRecord) => r.config.Pair() == config.Pair()).Some? {
        return false;
      }
      pricing := pricing + [PricingRecord(id, config)];
      ok := true;
    }

    /** A missing rule is `found == false`, a taken pair is an error. */
    method UpdatePricing(id: Uuid, config: PricingConfig) returns (ok: bool, found: bool)
      modifies this`pricing
      ensures var after := Repriced(old(State()), id, config);
              ok == after.Some? && State() == after.GetOr(old(State()))
      ensures ok ==> found == RuleAt(old(State()), id).Some?
    {
      if Position(pricing, (r: PricingRecord) => r.id != id && r.config.Pair() == config.Pair()).Some? {
        return false, false;
      }
      var at := Position(pricing, (r: PricingRecord) => r.id == id);
      if at.Some? {
        pricing := pricing[at.value := PricingRecord(pricing[at.value].id, config)];
      }
      return true, at.Some?;
    }

    method DeletePricing(id: Uuid) returns (found: bool)
      modifies this`pricing
      ensures State() == WithoutRule(old(State()), id)
      ensures found <==> RuleAt(old(State()), id).Some?
    {
      var before := |pricing|;
      ghost var at := RuleAt(State(), id);
      assert at.Some? ==> pricing[at.value] in pricing;
      FilterDrops(pricing, (r: PricingRecord) => r.id != id);
      pricing := Filter(pricing, (r: PricingRecord) => r.id != id);
      found := |pricing| != before;
    }

    method CreateModel(name: string, now: int) returns (ok: bool)
      modifies this`models
      ensures var after := WithModel(old(State()), name, now);
              ok == after.Some? && State() == after.GetOr(old(State()))
    {
      if Position(models, (m: ModelConfig) => m.name == name).Some? {
        return false;
      }
      models := models + [ModelConfig(name, false, now, [])];
      ok := true;
    }

    method SetModelStatus(name: string, enabled: bool) returns (found: bool)
      modifies this`models
      ensures State() == WithStatus(old(State()), name, enabled)
      ensures found == ModelAt(old(State()), name).Some?
    {
      var at := Position(models, (m: ModelConfig) => m.name == name);
      if at.Some? {
        models := models[at.value := models[at.value].(enabled := enabled)];
      }
      found := at.Some?;
    }

    /** Checks the chain for repeated providers hop by hop, then replaces it wholesale. A missing model is
        `found == false`, a repeated provider an error. */
    method SetDeployments(name: string, hops: seq<Hop>, firstId: Uuid) returns (ok: bool, found: bool)
      modifies this`models
      ensures var after := WithChain(old(State()), name, hops, firstId);
              ok == after.Some? && State() == after.GetOr(old(State()))
      ensures ok ==> found == ModelAt(old(State()), name).Some?
    {
      var seen: set<string> := {};
      for k := 0 to |hops|
        invariant models == old(models)
        invariant !Repeats(hops[..k])
        invariant forall id :: id in seen <==> exists i :: 0 <= i < k && hops[i].0 == id
      {
        if hops[k].0 in seen {
          return false, false;
        }
        seen := seen + {hops[k].0};
      }
      assert hops[..|hops|] == hops;
      var at := Position(models, (m: ModelConfig) => m.name == name);
      if at.Some? {
        models := models[at.value := models[at.value].(deployments := Deployments(hops, firstId))];
      }
      ok, found := true, at.Some?;
    }

    method DeleteModel(name: string) returns (found: bool)
      modifies this`models
      ensures State() == WithoutModel(old(State()), name)
      ensures found <==> ModelAt(old(State()), name).Some?
    {
      var before := |models|;
      ghost var at := ModelAt(State(), name);
      assert at.Some? ==> models[at.value] in models;
      FilterDrops(models, (m: ModelConfig) => m.name != name);
      models := Filter(models, (m: ModelConfig) => m.name != name);
      found := |models| != before;
    }

    /** `provider_in_use`: the first model with a deployment on the provider. */
    method ProviderInUse(id: string) returns (user: Option<string>)
      ensures user.Some? <==> exists m, d :: m in models && d in m.deployments && d.providerId == id
      ensures user.Some? ==>
                exists m, d :: m in models && m.name == user.value && d in m.deployments && d.providerId == id
    {
      forall m: ModelConfig ensures Uses(m, id) <==> exists d :: d in m.deployments && d.providerId == id {
        UsesMeaning(m, id);
      }
      var at := Position(models, (m: ModelConfig) => Uses(m, id));
      if at.Some? {
        assert models[at.value] in models;
        return Some(models[at.value].name);
      }
      return None;
    }
  }

  lemma {:induction false} FilterDrops<T>(s: seq<T>, p: T -> bool)
    ensures |Filter(s, p)| != |s| <==> exists x :: x in s && !p(x)
  {
    if s != [] {
      FilterDrops(s[1..], p);
      FilterMembers(s[1..], p);
      assert s == [s[0]] + s[1..];
    }
  }

  // --- what each step keeps ---

  lemma RuleMemberOfUpdate(c: Catalog, d: Catalog)
    requires forall r :: r in c.pricing ==> r in d.pricing
    ensures forall r :: r in c.Rules() ==> r in d.Rules()
  {
    forall rule | rule in c.Rules() ensures rule in d.Rules() {
      RulesMembers(c.pricing, rule);
      RulesMembers(d.pricing, rule);
    }
  }

  lemma UpsertKeeps(c: Catalog, p: ProviderConfig, isNew: bool)
    requires Inv(c) && Upserted(c, p, isNew).Some?
    ensures Inv(Upserted(c, p, isNew).value)
  {
    var d := Upserted(c, p, isNew).value;
    var at := Position(c.providers, (q: ProviderConfig) => q.id == p.id);
    if at.Some? {
      PairwiseUpdate(c.providers, at.value, p, OtherProvider);
      UpdateMembers(c.providers, at.value, p);
    } else {
      PairwiseSnoc(c.providers, p, OtherProvider);
    }
    forall m | m in d.models ensures ModelOk(m, d.providers, d.Rules()) {
      assert ModelOk(m, c.providers, c.Rules());
      forall h | h in m.deployments && Known(c.providers, h.providerId) ensures Known(d.providers, h.providerId) {
        var q :| q in c.providers && q.id == h.providerId;
        assert q in d.providers || (p in d.providers && p.id == q.id);
      }
      ModelStaysOk(m, c.providers, d.providers, c.Rules(), d.Rules());
    }
  }

  lemma UnusedProviderKeeps(c: Catalog, id: string)
    requires Inv(c) && forall m :: m in c.models ==> !Uses(m, id)
    ensures Inv(WithoutProvider(c, id))
  {
    var d := WithoutProvider(c, id);
    FilterPairwise(c.providers, (p: ProviderConfig) => p.id != id, OtherProvider);
    FilterMembers(c.providers, (p: ProviderConfig) => p.id != id);
    forall m | m in d.models ensures ModelOk(m, d.providers, d.Rules()) {
      assert ModelOk(m, c.providers, c.Rules()) && !Uses(m, id);
      forall h | h in m.deployments && Known(c.providers, h.providerId) ensures Known(d.providers, h.providerId) {
        var q :| q in c.providers && q.id == h.providerId;
        assert q in d.providers;
      }
      ModelStaysOk(m, c.providers, d.providers, c.Rules(), d.Rules());
    }
  }

  /** The gate's condition: every enabled model is fully priced by the rules. */
  ghost predicate GateHolds(c: Catalog, rules: seq<PricingConfig>) {
    forall m :: m in c.models && m.enabled ==> FullyPriced(m.deployments, rules)
  }

  /** Any change to the rules keeps the invariant if ids and pairs stay unique and the gate holds for the result. */
  lemma PricingKeeps(c: Catalog, d: Catalog)
    requires Inv(c) && d == c.(pricing := d.pricing)
    requires Pairwise(d.pricing, OtherRule) && GateHolds(c, d.Rules())
    ensures Inv(d)
  {
    forall m | m in d.models ensures ModelOk(m, d.providers, d.Rules()) {
      assert ModelOk(m, c.providers, c.Rules());
      ModelStaysOk(m, c.providers, d.providers, c.Rules(), d.Rules());
    }
  }

  ghost predicate FreshRuleId(c: Catalog, id: Uuid) {
    forall r :: r in c.pricing ==> r.id != id
  }

  lemma WithRuleKeeps(c: Catalog, id: Uuid, config: PricingConfig)
    requires Inv(c) && FreshRuleId(c, id) && WithRule(c, id, config).Some?
    ensures Inv(WithRule(c, id, config).value)
  {
    var d := WithRule(c, id, config).value;
    PairwiseSnoc(c.pricing, PricingRecord(id, config), OtherRule);
    RuleMemberOfUpdate(c, d);
    forall m | m in c.models && m.enabled ensures FullyPriced(m.deployments, d.Rules()) {
      assert ModelOk(m, c.providers, c.Rules());
      CoverageGrows(c.Rules(), d.Rules(), m.deployments);
    }
    PricingKeeps(c, d);
  }

  lemma WithoutRuleKeeps(c: Catalog, id: Uuid)
    requires Inv(c) && GateHolds(c, WithoutRule(c, id).Rules())
    ensures Inv(WithoutRule(c, id))
  {
    FilterPairwise(c.pricing, (r: PricingRecord) => r.id != id, OtherRule);
    PricingKeeps(c, WithoutRule(c, id));
  }

  /** The rules the gate simulates for an update: the old rule dropped, the new one appended. */
  function Candidate(c: Catalog, id: Uuid, config: PricingConfig): seq<PricingRecord> {
    WithoutRule(c, id).pricing + [PricingRecord(id, config)]
  }

  lemma RepricedKeeps(c: Catalog, id: Uuid, config: PricingConfig)
    requires Inv(c) && Repriced(c, id, config).Some?
    requires GateHolds(c, RulesOf(Candidate(c, id, config)))
    ensures Inv(Repriced(c, id, config).value)
  {
    var at := RuleAt(c, id);
    if at.Some? {
      var i, x := at.value, PricingRecord(id, config);
      var d := c.(pricing := c.pricing[i := x]);
      forall j | 0 <= j < |c.pricing| && j != i ensures OtherRule(c.pricing[j], x) && OtherRule(x, c.pricing[j]) {
        assert c.pricing[j] in c.pricing;
        assert if j < i then OtherRule(c.pricing[j], c.pricing[i]) else OtherRule(c.pricing[i], c.pricing[j]);
      }
      PairwiseUpdate(c.pricing, i, x, OtherRule);
      GateOnUpdate(c, id, config);
      PricingKeeps(c, d);
    }
  }

  /** Appending where the store replaces in place does not matter to coverage: the rules are the same. */
  lemma CandidateIsUpdate(c: Catalog, id: Uuid, config: PricingConfig)
    requires Pairwise(c.pricing, OtherRule) && RuleAt(c, id).Some?
    ensures var d := c.(pricing := c.pricing[RuleAt(c, id).value := PricingRecord(id, config)]);
            forall r :: r in RulesOf(Candidate(c, id, config)) <==> r in d.Rules()
  {
    var i, x := RuleAt(c, id).value, PricingRecord(id, config);
    var d := c.(pricing := c.pricing[i := x]);
    FilterMembers(c.pricing, (r: PricingRecord) => r.id != id);
    UpdateMembers(c.pricing, i, x);
    forall r ensures r in Candidate(c, id, config) <==> r in d.pricing {
      if r in d.pricing && r != x {
        var j :| 0 <= j < |d.pricing| && d.pricing[j] == r;
        assert if j < i then OtherRule(c.pricing[j], c.pricing[i]) else OtherRule(c.pricing[i], c.pricing[j]);
        assert c.pricing[j] in c.pricing;
      }
    }
    forall rule ensures rule in RulesOf(Candidate(c, id, config)) <==> rule in d.Rules() {
      RulesMembers(Candidate(c, id, config), rule);
      RulesMembers(d.pricing, rule);
    }
  }

  /** So the gate's simulation decides about the rules the store will hold. */
  lemma GateOnUpdate(c: Catalog, id: Uuid, config: PricingConfig)
    requires Pairwise(c.pricing, OtherRule) && RuleAt(c, id).Some?
    ensures var d := c.(pricing := c.pricing[RuleAt(c, id).value := PricingRecord(id, config)]);
            GateHolds(c, RulesOf(Candidate(c, id, config))) <==> GateHolds(c, d.Rules())
  {
    var d := c.(pricing := c.pricing[RuleAt(c, id).value := PricingRecord(id, config)]);
    var candidate := RulesOf(Candidate(c, id, config));
    CandidateIsUpdate(c, id, config);
    forall m | m in c.models && m.enabled
      ensures FullyPriced(m.deployments, candidate) <==> FullyPriced(m.deployments, d.Rules())
    {
      if FullyPriced(m.deployments, candidate) { CoverageGrows(candidate, d.Rules(), m.deployments); }
      if FullyPriced(m.deployments, d.Rules()) { CoverageGrows(d.Rules(), candidate, m.deployments); }
    }
  }

  lemma ModelEditKeeps(c: Catalog, i: nat, m: ModelConfig)
    requires Inv(c) && i < |c.models| && m.name == c.models[i].name && ModelOk(m, c.providers, c.Rules())
    ensures Inv(c.(models := c.models[i := m]))
  {
    forall j | 0 <= j < |c.models| && j != i ensures OtherModel(c.models[j], m) && OtherModel(m, c.models[j]) {
      assert if j < i then OtherModel(c.models[j], c.models[i]) else OtherModel(c.models[i], c.models[j]);
    }
    PairwiseUpdate(c.models, i, m, OtherModel);
    UpdateMembers(c.models, i, m);
  }

  lemma WithModelKeeps(c: Catalog, name: string, now: int)
    requires Inv(c) && WithModel(c, name, now).Some?
    ensures Inv(WithModel(c, name, now).value)
    ensures ModelAt(WithModel(c, name, now).value, name) == Some(|c.models|)
  {
    PairwiseSnoc(c.models, ModelConfig(name, false, now, []), OtherModel);
    PositionSnoc(c.models, ModelConfig(name, false, now, []), (m: ModelConfig) => m.name == name);
  }

  lemma {:induction false} PositionSnoc<T>(s: seq<T>, x: T, p: T -> bool)
    requires Position(s, p).None? && p(x)
    ensures Position(s + [x], p) == Some(|s|)
  {
    if s != [] {
      assert (s + [x])[1..] == s[1..] + [x];
      PositionSnoc(s[1..], x, p);
    }
  }

  lemma WithoutModelKeeps(c: Catalog, name: string)
    requires Inv(c)
    ensures Inv(WithoutModel(c, name))
  {
    FilterPairwise(c.models, (m: ModelConfig) => m.name != name, OtherModel);
    FilterMembers(c.models, (m: ModelConfig) => m.name != name);
  }

  // --- a model configured: chain, then status ---

  /** The chain is written first, the status after it. */
  function Configured(c: Catalog, name: string, hops: seq<Hop>, enabled: bool, firstId: Uuid): Catalog {
    WithStatus(WithChain(c, name, hops, firstId).GetOr(c), name, enabled)
  }

  lemma ConfiguredIs(c: Catalog, name: string, hops: seq<Hop>, enabled: bool, firstId: Uuid)
    requires ModelAt(c, name).Some? && !Repeats(hops)
    ensures var i := ModelAt(c, name).value;
            Configured(c, name, hops, enabled, firstId)
            == c.(models := c.models[i := c.models[i].(enabled := enabled, deployments := Deployments(hops, firstId))])
  {
    var i := ModelAt(c, name).value;
    var d := WithChain(c, name, hops, firstId).value;
    PositionAfterUpdate(c.models, (m: ModelConfig) => m.name == name, d.models[i]);
    assert ModelAt(d, name) == Some(i);
  }

  lemma {:induction false} PositionAfterUpdate<T>(s: seq<T>, p: T -> bool, x: T)
    requires Position(s, p).Some? && p(x)
    ensures Position(s[Position(s, p).value := x], p) == Position(s, p)
  {
    var i := Position(s, p).value;
    if !p(s[0]) {
      assert s[i := x][1..] == s[1..][i - 1 := x];
      PositionAfterUpdate(s[1..], p, x);
    }
  }

  /** A chain of known providers without repeats, and a status it can carry, set on a model that exists. */
  lemma ConfiguredOk(c: Catalog, name: string, hops: seq<Hop>, enabled: bool, firstId: Uuid)
    requires Inv(c) && ModelAt(c, name).Some? && !Repeats(hops)
    requires forall h :: h in hops ==> Known(c.providers, h.0)
    requires enabled ==> hops != [] && FullyPriced(Deployments(hops, firstId), c.Rules())
    ensures Inv(Configured(c, name, hops, enabled, firstId))
  {
    var i := ModelAt(c, name).value;
    var m := c.models[i].(enabled := enabled, deployments := Deployments(hops, firstId));
    ConfiguredIs(c, name, hops, enabled, firstId);
    forall d | d in m.deployments ensures Known(c.providers, d.providerId) {
      var j :| 0 <= j < |m.deployments| && m.deployments[j] == d;
      assert d.Hop() == hops[j] && hops[j] in hops;
    }
    forall a, b | 0 <= a < b < |m.deployments| ensures m.deployments[a].providerId != m.deployments[b].providerId {
      assert m.deployments[a].Hop() == hops[a] && m.deployments[b].Hop() == hops[b];
    }
    ModelEditKeeps(c, i, m);
  }

  /** A new model starts disabled, so no status needs to be written for a disabled one. */
  lemma StatusKept(c: Catalog, name: string, now: int, hops: seq<Hop>, firstId: Uuid)
    requires WithModel(c, name, now).Some? && !Repeats(hops)
    ensures var d := WithModel(c, name, now).value;
            Configured(d, name, hops, false, firstId) == WithChain(d, name, hops, firstId).value
  {
    var d := WithModel(c, name, now).value;
    PositionSnoc(c.models, ModelConfig(name, false, now, []), (m: ModelConfig) => m.name == name);
    ConfiguredIs(d, name, hops, false, firstId);
  }
}
