/** What an admin mutation can break: a snapshot built from a catalog the handlers keep fails only on a base
    URL or on the config file (src/admin/catalog_api.rs, src/admin/models_api.rs, src/state.rs). */
module Servability {
  import opened Basics
  import opened Pricing
  import opened Catalog
  import opened CatalogStore
  import opened CatalogApi
  import opened Gateway
  import opened Reload

  // --- trimmed strings ---

  /** What has been trimmed is blank only if it is empty. */
  lemma TrimIdempotent(s: string)
    ensures Trim(Trim(s)) == Trim(s)
    ensures Blank(Trim(s)) <==> Trim(s) == ""
  {
    TrimEndBlank(s);
    TrimStartBlank(TrimEnd(s));
    BlankMeaning(Trim(s));
  }

  lemma UppercaseNotBlank(s: string)
    requires UppercaseCode(s)
    ensures !Blank(s)
  {
    assert s[0] in s;
  }

  // --- the invariant ---

  /** The catalog's invariant, and names, keys and rates a snapshot accepts. */
  ghost predicate Clean(c: Catalog) {
    && Inv(c) && WellFormed(c.Rules())
    && CleanProviders(c.providers) && CleanModels(c.models)
  }

  ghost predicate CleanModel(m: ModelConfig) {
    !Blank(m.name) && forall d :: d in m.deployments ==> !Blank(d.upstreamModel)
  }

  lemma CleanIsServable(c: Catalog)
    requires Inv(c)
    ensures Clean(c) <==> Servable(c.Snapshot())
  {
    assert UniquePairs(c.Rules()) by {
      forall i, j | 0 <= i < j < |c.Rules()| ensures c.Rules()[i].Pair() != c.Rules()[j].Pair() {
        assert OtherRule(c.pricing[i], c.pricing[j]);
      }
    }
    forall m, d | m in c.models && d in m.deployments ensures Known(c.providers, d.providerId) {
      assert ModelOk(m, c.providers, c.Rules());
    }
  }

  /** Whatever rule the API builds, the snapshot's own validation accepts. */
  lemma BuiltRuleIsWellFormed(decimals: Decimals, body: PricingBody)
    requires BuildRule(decimals, body).Some?
    ensures EntryProblem(BuildRule(decimals, body).value).None?
  {
    UppercaseNotBlank(Trim(body.currency));
  }

  lemma RulesStayWellFormed(before: seq<PricingRecord>, after: seq<PricingRecord>, extra: PricingRecord)
    requires WellFormed(RulesOf(before)) && EntryProblem(extra.config).None?
    requires forall r :: r in after ==> r in before || r == extra
    ensures WellFormed(RulesOf(after))
  {
    forall rule | rule in RulesOf(after) ensures EntryProblem(rule).None? {
      RulesMembers(after, rule);
      var r :| r in after && r.config == rule;
      if r in before { RulesMembers(before, rule); }
    }
  }

  lemma FewerRulesWellFormed(before: seq<PricingRecord>, after: seq<PricingRecord>)
    requires WellFormed(RulesOf(before)) && forall r :: r in after ==> r in before
    ensures WellFormed(RulesOf(after))
  {
    forall rule | rule in RulesOf(after) ensures EntryProblem(rule).None? {
      RulesMembers(after, rule);
      RulesMembers(before, rule);
    }
  }

  lemma ConfiguredStaysClean(m: ModelConfig, providers: seq<ProviderConfig>, chain: seq<Hop>)
    requires Resolved(providers, chain).Some? && !Blank(m.name)
    requires forall i :: 0 <= i < |m.deployments| ==> i < |chain| && m.deployments[i].Hop() == TrimHop(chain[i])
    ensures CleanModel(m)
  {
    ResolvedMeaning(providers, chain);
    forall d | d in m.deployments ensures !Blank(d.upstreamModel) {
      var i :| 0 <= i < |m.deployments| && m.deployments[i] == d;
      assert d.Hop() == TrimHop(chain[i]) && chain[i] in chain;
      TrimIdempotent(chain[i].1);
    }
  }

  /** Every handler keeps the catalog clean. */
  lemma HandlerKeepsClean(decimals: Decimals, c: Catalog, request: Request)
    requires Clean(c) && (request.NewRule? ==> FreshRuleId(c, request.ruleId))
    ensures Clean(Handle(decimals, c, request).0)
  {
    HandlerKeeps(decimals, c, request);
    if !Handle(decimals, c, request).1.Success() {
      RefusalChangesNothing(decimals, c, request);
    } else if request.NewProvider? || request.EditProvider? || request.DropProvider? {
      ProvidersStayClean(decimals, c, request);
    } else if request.NewRule? || request.EditRule? || request.DropRule? {
      RulesStayClean(decimals, c, request);
    } else {
      ModelsStayClean(decimals, c, request);
    }
  }

  ghost predicate CleanProviders(providers: seq<ProviderConfig>) {
    forall p :: p in providers ==> !Blank(p.id) && !Blank(p.apiKey)
  }

  lemma ProvidersStayClean(decimals: Decimals, c: Catalog, request: Request)
    requires Clean(c) && Handle(decimals, c, request).1.Success()
    requires request.NewProvider? || request.EditProvider? || request.DropProvider?
    ensures var d := Handle(decimals, c, request).0; d == c.(providers := d.providers) && CleanProviders(d.providers)
  {
    match request
    case NewProvider(id, body) =>
      NewProviderOutcome(decimals, c, id, body);
      TrimIdempotent(id);
    case EditProvider(id, body) =>
      EditStaysClean(decimals, c, id, body);
    case DropProvider(id) =>
      DropProviderOutcome(decimals, c, id);
  }

  lemma RulesStayClean(decimals: Decimals, c: Catalog, request: Request)
    requires Clean(c) && Handle(decimals, c, request).1.Success()
    requires request.NewRule? || request.EditRule? || request.DropRule?
    ensures var d := Handle(decimals, c, request).0; d == c.(pricing := d.pricing) && WellFormed(d.Rules())
  {
    var d := Handle(decimals, c, request).0;
    match request
    case NewRule(body, ruleId) =>
      BuiltRuleIsWellFormed(decimals, body);
      RulesStayWellFormed(c.pricing, d.pricing, PricingRecord(ruleId, BuildRule(decimals, body).value));
    case EditRule(ruleId, body) =>
      BuiltRuleIsWellFormed(decimals, body);
      EditRuleOutcome(decimals, c, ruleId, body);
      RulesStayWellFormed(c.pricing, d.pricing, PricingRecord(ruleId, BuildRule(decimals, body).value));
    case DropRule(ruleId) =>
      DropRuleOutcome(decimals, c, ruleId);
      FewerRulesWellFormed(c.pricing, d.pricing);
  }

  ghost predicate CleanModels(models: seq<ModelConfig>) {
    forall m :: m in models ==> CleanModel(m)
  }

  lemma ModelsStayClean(decimals: Decimals, c: Catalog, request: Request)
    requires Clean(c) && Handle(decimals, c, request).1.Success()
    requires request.NewModel? || request.EditModel? || request.DropModel?
    ensures var d := Handle(decimals, c, request).0; d == c.(models := d.models) && CleanModels(d.models)
  {
    match request
    case NewModel(name, chain, enabled, now, firstId) =>
      NewModelStaysClean(decimals, c, name, chain, enabled, now, firstId);
    case EditModel(name, chain, enabled, firstId) =>
      EditedModelStaysClean(decimals, c, name, chain, enabled, firstId);
    case DropModel(name) =>
      FilterMembers(c.models, (m: ModelConfig) => m.name != name);
  }

  lemma NewModelStaysClean(decimals: Decimals, c: Catalog, name: string, chain: seq<Hop>, enabled: bool, now: int,
                           firstId: Uuid)
    requires Clean(c) && Handle(decimals, c, NewModel(name, chain, enabled, now, firstId)).1 == Created
    ensures var d := Handle(decimals, c, NewModel(name, chain, enabled, now, firstId)).0;
            d == c.(models := d.models) && CleanModels(d.models)
  {
    var d := Handle(decimals, c, NewModel(name, chain, enabled, now, firstId)).0;
    NewModelOutcome(decimals, c, name, chain, enabled, now, firstId);
    TrimIdempotent(name);
    ConfiguredStaysClean(d.models[|c.models|], c.providers, chain);
    OneMoreCleanModel(c.models, d.models);
  }

  lemma OneMoreCleanModel(models: seq<ModelConfig>, more: seq<ModelConfig>)
    requires CleanModels(models) && models <= more && |more| == |models| + 1 && CleanModel(more[|models|])
    ensures CleanModels(more)
  {
    forall m | m in more ensures CleanModel(m) {
      var i :| 0 <= i < |more| && more[i] == m;
      assert i < |models| ==> models[i] == m && m in models;
    }
  }

  lemma EditStaysClean(decimals: Decimals, c: Catalog, id: string, body: ProviderBody)
    requires Clean(c)
    ensures var d := Handle(decimals, c, EditProvider(id, body)).0;
            d == c.(providers := d.providers) && CleanProviders(d.providers)
  {
    var at := Position(c.providers, (p: ProviderConfig) => p.id == id);
    if at.Some? {
      assert c.providers[at.value] in c.providers;
      var provider := BuildProvider(id, body, Some(c.providers[at.value].apiKey));
      if provider.Some? { UpdateMembers(c.providers, at.value, provider.value); }
    }
  }

  lemma EditedModelStaysClean(decimals: Decimals, c: Catalog, name: string, chain: seq<Hop>, enabled: bool,
                              firstId: Uuid)
    requires Clean(c) && Handle(decimals, c, EditModel(name, chain, enabled, firstId)).1 == Done
    ensures var d := Handle(decimals, c, EditModel(name, chain, enabled, firstId)).0;
            d == c.(models := d.models) && CleanModels(d.models)
  {
    var d := Handle(decimals, c, EditModel(name, chain, enabled, firstId)).0;
    EditModelOutcome(decimals, c, name, chain, enabled, firstId);
    forall m | m in d.models ensures CleanModel(m) {
      var i :| 0 <= i < |d.models| && d.models[i] == m;
      assert c.models[i] in c.models && CleanModel(c.models[i]);
      if c.models[i].name == name { ConfiguredStaysClean(m, c.providers, chain); }
    }
  }

  lemma {:induction false} RunStaysClean(decimals: Decimals, c: Catalog, requests: seq<Request>)
    requires Clean(c) && FreshIds(decimals, c, requests)
    ensures Clean(Run(decimals, c, requests))
    decreases |requests|
  {
    if requests != [] {
      HandlerKeepsClean(decimals, c, requests[0]);
      RunStaysClean(decimals, Handle(decimals, c, requests[0]).0, requests[1..]);
    }
  }

  /** After any run of admin requests on a clean catalog (an empty one, say), applying the catalog to the gateway
      succeeds exactly if the file can be read, its retry section makes sense, and every base URL is one. */
  lemma RefreshFailsOnlyOn(decimals: Decimals, boot: Boot, file: Option<RetryConfig>, c: Catalog,
                           requests: seq<Request>)
    requires Clean(c) && FreshIds(decimals, c, requests)
    ensures var d := Run(decimals, c, requests);
            boot.Builds(file, d.Snapshot()) <==> file.Some? && GoodUrls(boot.uris, d.providers) && GoodRetry(file.value)
  {
    RunStaysClean(decimals, c, requests);
    CleanBuilds(boot, file, Run(decimals, c, requests));
  }

  lemma CleanBuilds(boot: Boot, file: Option<RetryConfig>, c: Catalog)
    requires Clean(c)
    ensures boot.Builds(file, c.Snapshot()) <==> file.Some? && GoodUrls(boot.uris, c.providers) && GoodRetry(file.value)
  {
    CleanIsServable(c);
    if file.Some? { BuildAccepts(boot.uris, file.value, c.Snapshot()); }
  }
}
