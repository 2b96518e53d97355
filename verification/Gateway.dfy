/** The gateway snapshot: building it from the catalog, resolving requests and listing models (src/state.rs). */
module Gateway {
  import opened Basics
  import opened Tokens
  import opened Pricing
  import opened Catalog
  import opened Failover
  import opened Quota
  import opened Usage

  datatype Provider = Provider(
    id: string,
    protocol: Protocol,
    baseUrl: string,
    apiKey: string,
    anthropicVersion: Option<string>)

  datatype ModelEntry = ModelEntry(enabled: bool, createdAt: int, deployments: seq<Hop>)

  type ProviderMap = map<string, Provider>
  type ModelMap = map<string, ModelEntry>

  /** The `[retry]` section of the config file, the only part of it a snapshot is built from. */
  datatype RetryConfig = RetryConfig(retryableStatuses: seq<nat>, maxAttempts: nat, baseDelayMs: U64, maxDelayMs: U64)

  /** What `from_parts` computes. */
  datatype Routing = Routing(providers: ProviderMap, models: ModelMap, pricing: PricingMap, retry: RetryPolicy)

  /** Whether a base URL parses with scheme and host; URI parsing is not part of this model. */
  type Uris = string -> bool

  // --- building ---

  function TrimTrailingSlash(url: string): string {
    if url != "" && url[|url| - 1] == '/' then TrimTrailingSlash(url[..|url| - 1]) else url
  }

  /** Slashes at the end of a base URL are dropped, all of them and nothing else. */
  lemma {:induction false} SlashesTrimmed(url: string)
    ensures var r := TrimTrailingSlash(url);
            && r <= url && (r == "" || r[|r| - 1] != '/')
            && forall i :: |r| <= i < |url| ==> url[i] == '/'
  {
    if url != "" && url[|url| - 1] == '/' { SlashesTrimmed(url[..|url| - 1]); }
  }

  function RuntimeProvider(p: ProviderConfig): Provider {
    Provider(p.id, p.protocol, TrimTrailingSlash(p.baseUrl), p.apiKey, p.anthropicVersion)
  }

  predicate GoodProvider(uris: Uris, p: ProviderConfig) {
    !Blank(p.id) && uris(p.baseUrl) && !Blank(p.apiKey)
  }

  function ProviderMapOf(uris: Uris, providers: seq<ProviderConfig>): Option<ProviderMap> {
    if providers == [] then Some(map[])
    else
      var init, last := ProviderMapOf(uris, providers[..|providers| - 1]), providers[|providers| - 1];
      if init.Some? && GoodProvider(uris, last) && last.id !in init.value
      then Some(init.value[last.id := RuntimeProvider(last)])
      else None
  }

  predicate GoodHop(providers: ProviderMap, d: DeploymentConfig) {
    d.providerId in providers && !Blank(d.upstreamModel)
  }

  predicate GoodModel(providers: ProviderMap, m: ModelConfig) {
    !Blank(m.name) && forall i :: 0 <= i < |m.deployments| ==> GoodHop(providers, m.deployments[i])
  }

  function HopsOf(deployments: seq<DeploymentConfig>): (hops: seq<Hop>)
    ensures |hops| == |deployments|
    ensures forall i :: 0 <= i < |deployments| ==> hops[i] == deployments[i].Hop()
  {
    seq(|deployments|, i requires 0 <= i < |deployments| => deployments[i].Hop())
  }

  function EntryOf(m: ModelConfig): ModelEntry {
    ModelEntry(m.enabled, m.createdAt, HopsOf(m.deployments))
  }

  function ModelMapOf(providers: ProviderMap, models: seq<ModelConfig>): Option<ModelMap> {
    if models == [] then Some(map[])
    else
      var init, last := ModelMapOf(providers, models[..|models| - 1]), models[|models| - 1];
      if init.Some? && GoodModel(providers, last) && last.name !in init.value
      then Some(init.value[last.name := EntryOf(last)])
      else None
  }

  predicate GoodRetry(retry: RetryConfig) {
    && retry.maxAttempts >= 1 && retry.baseDelayMs <= retry.maxDelayMs
    && forall i :: 0 <= i < |retry.retryableStatuses| ==> 100 <= retry.retryableStatuses[i] <= 599
  }

  function PolicyOf(retry: RetryConfig): RetryPolicy {
    RetryPolicy((set s | s in retry.retryableStatuses), retry.maxAttempts, retry.baseDelayMs, retry.maxDelayMs)
  }

  /** `from_parts`: None is an error, and nothing is swapped in. */
  function Build(uris: Uris, retry: RetryConfig, catalog: CatalogSnapshot): Option<Routing> {
    var pricing := BuildPricing(catalog.pricing);
    var providers := ProviderMapOf(uris, catalog.providers);
    if pricing.Err? || providers.None? then None
    else
      var models := ModelMapOf(providers.value, catalog.models);
      if models.None? || !GoodRetry(retry) then None
      else Some(Routing(providers.value, models.value, pricing.value, PolicyOf(retry)))
  }

  lemma {:induction false} BadProviderPrefix(uris: Uris, providers: seq<ProviderConfig>, n: nat)
    requires n <= |providers| && ProviderMapOf(uris, providers[..n]).None?
    ensures ProviderMapOf(uris, providers).None?
    decreases |providers| - n
  {
    if n == |providers| {
      assert providers[..n] == providers;
    } else {
      assert providers[..n + 1][..n] == providers[..n];
      BadProviderPrefix(uris, providers, n + 1);
    }
  }

  lemma {:induction false} BadModelPrefix(providers: ProviderMap, models: seq<ModelConfig>, n: nat)
    requires n <= |models| && ModelMapOf(providers, models[..n]).None?
    ensures ModelMapOf(providers, models).None?
    decreases |models| - n
  {
    if n == |models| {
      assert models[..n] == models;
    } else {
      assert models[..n + 1][..n] == models[..n];
      BadModelPrefix(providers, models, n + 1);
    }
  }

  method BuildProviderMap(uris: Uris, providers: seq<ProviderConfig>) returns (r: Option<ProviderMap>)
    ensures r == ProviderMapOf(uris, providers)
  {
    var built: ProviderMap := map[];
    for i := 0 to |providers|
      invariant ProviderMapOf(uris, providers[..i]) == Some(built)
    {
      var provider := providers[i];
      assert providers[..i + 1][..i] == providers[..i];
      if Blank(provider.id) || provider.id in built || !uris(provider.baseUrl) || Blank(provider.apiKey) {
        BadProviderPrefix(uris, providers, i + 1);
        return None;
      }
      built := built[provider.id := RuntimeProvider(provider)];
    }
    assert providers[..|providers|] == providers;
    return Some(built);
  }

  /** `build_model_map` */
  method BuildModelMap(models: seq<ModelConfig>, providers: ProviderMap) returns (r: Option<ModelMap>)
    ensures r == ModelMapOf(providers, models)
  {
    var built: ModelMap := map[];
    for i := 0 to |models|
      invariant ModelMapOf(providers, models[..i]) == Some(built)
    {
      var model := models[i];
      assert models[..i + 1][..i] == models[..i];
      var good := !Blank(model.name);
      var deployments: seq<Hop> := [];
      if good {
        good, deployments := CheckDeployments(model.deployments, providers);
      }
      if !good || model.name in built {
        BadModelPrefix(providers, models, i + 1);
        return None;
      }
      built := built[model.name := ModelEntry(model.enabled, model.createdAt, deployments)];
    }
    assert models[..|models|] == models;
    return Some(built);
  }

  method CheckDeployments(deployments: seq<DeploymentConfig>, providers: ProviderMap) returns (ok: bool, hops: seq<Hop>)
    ensures ok <==> forall i :: 0 <= i < |deployments| ==> GoodHop(providers, deployments[i])
    ensures ok ==> hops == HopsOf(deployments)
  {
    hops := [];
    for i := 0 to |deployments|
      invariant hops == HopsOf(deployments)[..i]
      invariant forall j :: 0 <= j < i ==> GoodHop(providers, deployments[j])
    {
      var d := deployments[i];
      if d.providerId !in providers || Blank(d.upstreamModel) {
        return false, hops;
      }
      hops := hops + [(d.providerId, d.upstreamModel)];
    }
    return true, hops;
  }

  // --- what is accepted, and what the snapshot then holds ---

  lemma {:induction false} ProviderMapMeaning(uris: Uris, providers: seq<ProviderConfig>)
    ensures ProviderMapOf(uris, providers).Some? <==>
            Pairwise(providers, OtherProvider) && forall p :: p in providers ==> GoodProvider(uris, p)
    ensures ProviderMapOf(uris, providers).Some? ==>
              && (forall id :: id in ProviderMapOf(uris, providers).value <==> Known(providers, id))
              && (forall p :: p in providers ==>
                    p.id in ProviderMapOf(uris, providers).value
                    && ProviderMapOf(uris, providers).value[p.id] == RuntimeProvider(p))
  {
    if providers != [] {
      var n := |providers| - 1;
      var init, last := providers[..n], providers[n];
      assert providers == init + [last];
      ProviderMapMeaning(uris, init);
      assert last in providers;
      KnownSnoc(init, last);
      PairwiseSnocIff(init, last, OtherProvider);
    }
  }

  lemma KnownSnoc(init: seq<ProviderConfig>, last: ProviderConfig)
    ensures forall id :: Known(init + [last], id) <==> Known(init, id) || last.id == id
  {
    forall id ensures Known(init + [last], id) <==> Known(init, id) || last.id == id {
      if Known(init, id) {
        var p :| p in init && p.id == id;
        assert p in init + [last];
      }
      assert last in init + [last];
    }
  }

  lemma {:induction false} ModelMapAccepts(providers: ProviderMap, models: seq<ModelConfig>)
    ensures ModelMapOf(providers, models).Some? <==>
            Pairwise(models, OtherModel) && forall m :: m in models ==> GoodModel(providers, m)
    ensures ModelMapOf(providers, models).Some? ==>
              forall m :: m in models ==>
                m.name in ModelMapOf(providers, models).value
                && ModelMapOf(providers, models).value[m.name] == EntryOf(m)
    ensures ModelMapOf(providers, models).Some? ==>
              forall name :: name in ModelMapOf(providers, models).value ==> Named(models, name)
  {
    if models != [] {
      var n := |models| - 1;
      var init, last := models[..n], models[n];
      assert models == init + [last];
      ModelMapAccepts(providers, init);
      assert last in models;
      PairwiseSnocIff(init, last, OtherModel);
      forall name ensures Named(models, name) <==> Named(init, name) || last.name == name {
        if Named(init, name) {
          var m :| m in init && m.name == name;
          assert m in models;
        }
      }
    }
  }

  ghost predicate Named(models: seq<ModelConfig>, name: string) {
    exists m :: m in models && m.name == name
  }

  /** Everything `from_parts` checks about the catalog except base URLs. */
  ghost predicate Servable(c: CatalogSnapshot) {
    && WellFormed(c.pricing) && UniquePairs(c.pricing)
    && Pairwise(c.providers, OtherProvider) && Pairwise(c.models, OtherModel)
    && (forall p :: p in c.providers ==> !Blank(p.id) && !Blank(p.apiKey))
    && (forall m :: m in c.models ==> !Blank(m.name))
    && (forall m, d :: m in c.models && d in m.deployments ==>
          Known(c.providers, d.providerId) && !Blank(d.upstreamModel))
  }

  ghost predicate GoodUrls(uris: Uris, providers: seq<ProviderConfig>) {
    forall p :: p in providers ==> uris(p.baseUrl)
  }

  /** A snapshot is built exactly when the catalog is servable, every base URL is one, and the retry section
      makes sense. */
  lemma BuildAccepts(uris: Uris, retry: RetryConfig, c: CatalogSnapshot)
    ensures Build(uris, retry, c).Some? <==> Servable(c) && GoodUrls(uris, c.providers) && GoodRetry(retry)
  {
    AcceptedRules(c.pricing);
    ProviderMapMeaning(uris, c.providers);
    var providers := ProviderMapOf(uris, c.providers);
    if providers.Some? {
      ModelMapAccepts(providers.value, c.models);
      forall m | m in c.models
        ensures GoodModel(providers.value, m) <==>
                !Blank(m.name)
                && forall d :: d in m.deployments ==> Known(c.providers, d.providerId) && !Blank(d.upstreamModel)
      {
        forall i | 0 <= i < |m.deployments| ensures m.deployments[i] in m.deployments {}
      }
    }
  }

  /** What an accepted snapshot holds: the catalog's models by name, chains in order over existing providers,
      each provider with its protocol, and the indexed rules. */
  ghost predicate Serves(g: Routing, c: CatalogSnapshot) {
    && g.pricing == Index(c.pricing)
    && (forall p :: p in c.providers ==> p.id in g.providers && IsServed(g.providers[p.id], p))
    && (forall name :: name in g.models ==> Named(c.models, name))
    && (forall m :: m in c.models ==> m.name in g.models && IsEntry(g.models[m.name], m))
    && (forall name, h :: name in g.models && h in g.models[name].deployments ==> h.0 in g.providers)
  }

  /** The provider as configured, without slashes at the end of its URL. */
  ghost predicate IsServed(q: Provider, p: ProviderConfig) {
    && q.id == p.id && q.protocol == p.protocol && q.baseUrl == TrimTrailingSlash(p.baseUrl)
    && q.apiKey == p.apiKey && q.anthropicVersion == p.anthropicVersion
  }

  /** The model with its status and its chain in order. */
  ghost predicate IsEntry(e: ModelEntry, m: ModelConfig) {
    && e.enabled == m.enabled && e.createdAt == m.createdAt && |e.deployments| == |m.deployments|
    && forall i :: 0 <= i < |m.deployments| ==>
         e.deployments[i] == (m.deployments[i].providerId, m.deployments[i].upstreamModel)
  }

  lemma EntryMeaning(e: ModelEntry, m: ModelConfig)
    ensures IsEntry(e, m) <==> e == EntryOf(m)
  {
    if IsEntry(e, m) { assert e.deployments == HopsOf(m.deployments); }
  }

  /** The retry section makes sense: at least one attempt, a base within the cap, and statuses that are ones. */
  lemma RetryMeaning(retry: RetryConfig)
    ensures GoodRetry(retry) <==>
            && retry.maxAttempts > 0 && retry.baseDelayMs <= retry.maxDelayMs
            && forall s :: s in retry.retryableStatuses ==> 100 <= s <= 599
  {
    forall i | 0 <= i < |retry.retryableStatuses| ensures retry.retryableStatuses[i] in retry.retryableStatuses {}
  }

  lemma BuildServes(uris: Uris, retry: RetryConfig, c: CatalogSnapshot)
    requires Build(uris, retry, c).Some?
    ensures Serves(Build(uris, retry, c).value, c)
    ensures var p := Build(uris, retry, c).value.retry;
            && p.maxAttempts == retry.maxAttempts >= 1
            && p.baseDelayMs == retry.baseDelayMs <= p.maxDelayMs == retry.maxDelayMs
            && forall s :: s in p.retryable <==> s in retry.retryableStatuses
  {
    var g := Build(uris, retry, c).value;
    ProviderMapMeaning(uris, c.providers);
    ModelMapAccepts(g.providers, c.models);
    forall m | m in c.models ensures IsEntry(g.models[m.name], m) { EntryMeaning(g.models[m.name], m); }
    forall name, h | name in g.models && h in g.models[name].deployments ensures h.0 in g.providers {
      var m :| m in c.models && m.name == name;
      var i :| 0 <= i < |HopsOf(m.deployments)| && HopsOf(m.deployments)[i] == h;
      assert GoodModel(g.providers, m) && GoodHop(g.providers, m.deployments[i]);
    }
  }

  // --- resolving ---

  datatype ResolvedDeployment = ResolvedDeployment(provider: Provider, upstreamModel: string)

  datatype Resolution =
    | Chain(chain: seq<ResolvedDeployment>)
    | UnknownModel
    | Forbidden
    | WrongProtocol(available: seq<Protocol>)

  predicate OnProtocol(providers: ProviderMap, h: Hop, protocol: Protocol) {
    h.0 in providers && providers[h.0].protocol == protocol
  }

  /** The places in the chain that are on the protocol, in ascending order. */
  function PlacesOn(providers: ProviderMap, hops: seq<Hop>, protocol: Protocol): (places: seq<nat>)
    ensures forall k :: 0 <= k < |places| ==> places[k] < |hops| && OnProtocol(providers, hops[places[k]], protocol)
    ensures forall k, l :: 0 <= k < l < |places| ==> places[k] < places[l]
    ensures forall i :: 0 <= i < |hops| && OnProtocol(providers, hops[i], protocol) ==> i in places
  {
    if hops == [] then []
    else
      var n := |hops| - 1;
      var init := PlacesOn(providers, hops[..n], protocol);
      if OnProtocol(providers, hops[n], protocol) then init + [n] else init
  }

  /** The places are those of the hops whose provider speaks the protocol. */
  lemma PlacesMeaning(providers: ProviderMap, hops: seq<Hop>, protocol: Protocol, i: nat)
    ensures i in PlacesOn(providers, hops, protocol) <==>
            i < |hops| && hops[i].0 in providers && providers[hops[i].0].protocol == protocol
  {
    var places := PlacesOn(providers, hops, protocol);
    if i in places {
      var k :| 0 <= k < |places| && places[k] == i;
      assert OnProtocol(providers, hops[places[k]], protocol);
    }
  }

  /** `chain` is the deployments on the protocol: an order-preserving selection that misses none of them. */
  ghost predicate Selects(chain: seq<ResolvedDeployment>, providers: ProviderMap, hops: seq<Hop>, protocol: Protocol) {
    var places := PlacesOn(providers, hops, protocol);
    && |chain| == |places|
    && forall k :: 0 <= k < |chain| ==>
         chain[k] == ResolvedDeployment(providers[hops[places[k]].0], hops[places[k]].1)
  }

  ghost predicate Reaches(providers: ProviderMap, hops: seq<Hop>, q: Protocol) {
    exists i :: 0 <= i < |hops| && OnProtocol(providers, hops[i], q)
  }

  /** The other protocols of the chain, each once. */
  ghost predicate ListsOthers(available: seq<Protocol>, providers: ProviderMap, hops: seq<Hop>, protocol: Protocol) {
    && Distinct(available)
    && forall q :: q in available <==> q != protocol && Reaches(providers, hops, q)
  }

  /** `GatewayState::resolve` */
  method Resolve(g: Routing, protocol: Protocol, model: string, identity: KeyIdentity) returns (r: Resolution)
    ensures r.UnknownModel? <==> model !in g.models || !g.models[model].enabled
    ensures r.Forbidden? <==>
            && model in g.models && g.models[model].enabled
            && identity.allowedModels.Some? && model !in identity.allowedModels.value
    ensures r.Chain? ==> r.chain != [] && Selects(r.chain, g.providers, g.models[model].deployments, protocol)
    ensures r.WrongProtocol? ==>
              && var providers, hops := g.providers, g.models[model].deployments;
              && (forall i, j :: 0 <= i < j < |r.available| ==> r.available[i] != r.available[j])
              && (forall q :: q in r.available <==>
                    && q != protocol
                    && exists i :: 0 <= i < |hops| && hops[i].0 in providers && providers[hops[i].0].protocol == q)
              && PlacesOn(g.providers, g.models[model].deployments, protocol) == []
  {
    if model !in g.models || !g.models[model].enabled {
      return UnknownModel;
    }
    if !identity.MayCall(model) {
      return Forbidden;
    }
    var chain, available := Walk(g.providers, g.models[model].deployments, protocol);
    if chain == [] {
      return WrongProtocol(available);
    }
    return Chain(chain);
  }

  method Walk(providers: ProviderMap, hops: seq<Hop>, protocol: Protocol)
    returns (chain: seq<ResolvedDeployment>, available: seq<Protocol>)
    ensures Selects(chain, providers, hops, protocol)
    ensures ListsOthers(available, providers, hops, protocol)
  {
    chain, available := [], [];
    for i := 0 to |hops|
      invariant Selects(chain, providers, hops[..i], protocol)
      invariant ListsOthers(available, providers, hops[..i], protocol)
    {
      var hop := hops[i];
      assert hops[..i + 1] == hops[..i] + [hop];
      SelectsSnoc(chain, providers, hops[..i], hop, protocol);
      OthersSnoc(available, providers, hops[..i], hop, protocol);
      if hop.0 in providers {
        var provider := providers[hop.0];
        if provider.protocol == protocol {
          chain := chain + [ResolvedDeployment(provider, hop.1)];
        } else if provider.protocol !in available {
          available := available + [provider.protocol];
        }
      }
    }
    assert hops[..|hops|] == hops;
  }

  lemma SelectsSnoc(chain: seq<ResolvedDeployment>, providers: ProviderMap, hops: seq<Hop>, hop: Hop,
                    protocol: Protocol)
    requires Selects(chain, providers, hops, protocol)
    ensures Selects(if OnProtocol(providers, hop, protocol) then chain + [ResolvedDeployment(providers[hop.0], hop.1)]
                    else chain, providers, hops + [hop], protocol)
  {
    assert (hops + [hop])[..|hops|] == hops;
  }

  lemma OthersSnoc(available: seq<Protocol>, providers: ProviderMap, hops: seq<Hop>, hop: Hop, protocol: Protocol)
    requires ListsOthers(available, providers, hops, protocol)
    ensures var q := if hop.0 in providers then providers[hop.0].protocol else protocol;
            ListsOthers(if q == protocol || q in available then available else available + [q],
                        providers, hops + [hop], protocol)
  {
    forall p
      ensures Reaches(providers, hops + [hop], p) <==> Reaches(providers, hops, p) || OnProtocol(providers, hop, p)
    {
      ReachesSnoc(providers, hops, hop, p);
    }
  }

  lemma ReachesSnoc(providers: ProviderMap, hops: seq<Hop>, hop: Hop, q: Protocol)
    ensures Reaches(providers, hops + [hop], q) <==> Reaches(providers, hops, q) || OnProtocol(providers, hop, q)
  {
    var after := hops + [hop];
    if i :| 0 <= i < |hops| && OnProtocol(providers, hops[i], q) {
      assert after[i] == hops[i];
    }
    assert after[|hops|] == hop;
  }

  // --- listing ---

  /** `str` order. */
  predicate Below(a: string, b: string) {
    if b == "" then false
    else if a == "" then true
    else a[0] < b[0] || (a[0] == b[0] && Below(a[1..], b[1..]))
  }

  lemma {:induction false} BelowTotal(a: string, b: string)
    ensures Below(a, b) || a == b || Below(b, a)
    ensures !(Below(a, b) && Below(b, a)) && !Below(a, a)
  {
    if a != "" { BelowTotal(a[1..], a[1..]); }
    if a != "" && b != "" && a[0] == b[0] {
      BelowTotal(a[1..], b[1..]);
      assert a == [a[0]] + a[1..] && b == [b[0]] + b[1..];
    }
  }

  lemma {:induction false} BelowTransitive(a: string, b: string, c: string)
    requires Below(a, b) && Below(b, c)
    ensures Below(a, c)
  {
    if a != "" && a[0] == b[0] && b[0] == c[0] {
      BelowTransitive(a[1..], b[1..], c[1..]);
    }
  }

  /** The strings agree up to some point, and there the first one ends or has the smaller character. */
  ghost predicate Precedes(a: string, b: string, n: nat) {
    n <= |a| && n < |b| && a[..n] == b[..n] && (n == |a| || a[n] < b[n])
  }

  lemma SameStart(a: string, b: string, n: nat)
    requires 0 < n <= |a| && n <= |b| && a[..n] == b[..n]
    ensures a[0] == b[0]
  {
    assert a[..n][0] == b[..n][0];
  }

  /** The order of the listing is the lexicographic one. */
  lemma {:induction false} BelowMeaning(a: string, b: string)
    ensures Below(a, b) <==> exists n: nat :: Precedes(a, b, n)
  {
    if b == "" {
    } else if a == "" {
      assert Precedes(a, b, 0);
    } else if a[0] != b[0] {
      if a[0] < b[0] { assert Precedes(a, b, 0); }
      forall n: nat | Precedes(a, b, n) ensures n == 0 {
        if n > 0 { SameStart(a, b, n); }
      }
    } else {
      BelowMeaning(a[1..], b[1..]);
      if Below(a, b) {
        var n: nat :| Precedes(a[1..], b[1..], n);
        assert a[..n + 1] == [a[0]] + a[1..][..n] && b[..n + 1] == [b[0]] + b[1..][..n];
        assert Precedes(a, b, n + 1);
      }
      forall n: nat | Precedes(a, b, n) ensures Below(a, b) {
        assert n > 0;
        assert a[1..][..n - 1] == a[..n][1..] && b[1..][..n - 1] == b[..n][1..];
        assert Precedes(a[1..], b[1..], n - 1);
      }
    }
  }

  /** A line of the listing. */
  type Listing = (string, ModelEntry)

  ghost predicate Ascending(entries: seq<Listing>) {
    forall i, j :: 0 <= i < j < |entries| ==> Below(entries[i].0, entries[j].0)
  }

  predicate Listed(g: Routing, identity: KeyIdentity, name: string) {
    name in g.models && g.models[name].enabled && identity.MayCall(name)
  }

  method Insert(entries: seq<Listing>, entry: Listing) returns (r: seq<Listing>)
    requires Ascending(entries) && forall e :: e in entries ==> e.0 != entry.0
    ensures Ascending(r) && forall e :: e in r <==> e in entries || e == entry
  {
    var i := 0;
    while i < |entries| && Below(entries[i].0, entry.0)
      invariant i <= |entries| && forall j :: 0 <= j < i ==> Below(entries[j].0, entry.0)
    {
      i := i + 1;
    }
    r := entries[..i] + [entry] + entries[i..];
    if i < |entries| { BelowTotal(entries[i].0, entry.0); }
    forall j | i < j < |entries| ensures Below(entry.0, entries[j].0) {
      BelowTransitive(entry.0, entries[i].0, entries[j].0);
    }
    forall e ensures e in r <==> e in entries || e == entry {
      assert entries == entries[..i] + entries[i..];
    }
  }

  /** `listable_models`: the hash map is filtered in whatever order it yields its entries, then sorted by name. */
  method ListableModels(g: Routing, identity: KeyIdentity) returns (entries: seq<Listing>)
    ensures Ascending(entries)
    ensures forall e :: e in entries <==>
              && e.0 in g.models && e.1 == g.models[e.0] && e.1.enabled
              && (identity.allowedModels.Some? ==> e.0 in identity.allowedModels.value)
  {
    entries := [];
    var left := g.models.Keys;
    while left != {}
      invariant left <= g.models.Keys && Ascending(entries)
      invariant forall e :: e in entries <==> Listed(g, identity, e.0) && e.0 !in left && e.1 == g.models[e.0]
      decreases left
    {
      var name :| name in left;
      left := left - {name};
      if g.models[name].enabled && identity.MayCall(name) {
        entries := Insert(entries, (name, g.models[name]));
      }
    }
  }

  /** Sorted listings have every name once. */
  lemma AscendingDistinct(entries: seq<Listing>)
    requires Ascending(entries)
    ensures forall i, j :: 0 <= i < j < |entries| ==> entries[i].0 != entries[j].0
  {
    forall i, j | 0 <= i < j < |entries| ensures entries[i].0 != entries[j].0 {
      BelowTotal(entries[i].0, entries[j].0);
    }
  }

  /** The name resolves, for this key, on this protocol. */
  predicate Resolvable(g: Routing, identity: KeyIdentity, name: string, protocol: Protocol) {
    Listed(g, identity, name) && PlacesOn(g.providers, g.models[name].deployments, protocol) != []
  }

  /** The catalog model behind a name of the snapshot. */
  lemma ServedModel(uris: Uris, retry: RetryConfig, c: Catalog, name: string) returns (m: ModelConfig)
    requires Inv(c) && Build(uris, retry, c.Snapshot()).Some?
    requires name in Build(uris, retry, c.Snapshot()).value.models
    ensures Build(uris, retry, c.Snapshot()).value.models[name] == EntryOf(m)
    ensures IsEntry(Build(uris, retry, c.Snapshot()).value.models[name], m)
    ensures ModelOk(m, c.providers, c.Rules())
  {
    BuildServes(uris, retry, c.Snapshot());
    m :| m in c.models && m.name == name;
    EntryMeaning(Build(uris, retry, c.Snapshot()).value.models[name], m);
  }

  lemma ServedProvider(uris: Uris, retry: RetryConfig, c: Catalog, m: ModelConfig, i: nat)
    requires Inv(c) && Build(uris, retry, c.Snapshot()).Some?
    requires ModelOk(m, c.providers, c.Rules()) && i < |m.deployments|
    ensures var id := m.deployments[i].providerId;
            id in Build(uris, retry, c.Snapshot()).value.providers
            && Build(uris, retry, c.Snapshot()).value.providers[id].id == id
  {
    BuildServes(uris, retry, c.Snapshot());
    assert m.deployments[i] in m.deployments;
    var p :| p in c.providers && p.id == m.deployments[i].providerId;
  }

  /** On a snapshot of a catalog that kept its invariant, a model is listed for a key exactly when some protocol
      resolves it to a non-empty chain for that key. */
  lemma ListedIffResolvable(uris: Uris, retry: RetryConfig, c: Catalog, identity: KeyIdentity, name: string)
    requires Inv(c) && Build(uris, retry, c.Snapshot()).Some?
    ensures var g := Build(uris, retry, c.Snapshot()).value;
            Listed(g, identity, name) <==>
            Resolvable(g, identity, name, OpenAi) || Resolvable(g, identity, name, Anthropic)
  {
    var g := Build(uris, retry, c.Snapshot()).value;
    if Listed(g, identity, name) {
      var m := ServedModel(uris, retry, c, name);
      ServedProvider(uris, retry, c, m, 0);
      var hops := g.models[name].deployments;
      assert hops == HopsOf(m.deployments) && hops[0] == m.deployments[0].Hop();
      assert 0 in PlacesOn(g.providers, hops, g.providers[hops[0].0].protocol);
    }
  }

  /** Every deployment that can be resolved from such a snapshot has a price, on every protocol. */
  lemma ResolvedIsPriced(uris: Uris, retry: RetryConfig, c: Catalog, name: string, protocol: Protocol,
                         chain: seq<ResolvedDeployment>, k: nat)
    requires Inv(c) && Build(uris, retry, c.Snapshot()).Some?
    requires var g := Build(uris, retry, c.Snapshot()).value;
             && name in g.models && g.models[name].enabled
             && Selects(chain, g.providers, g.models[name].deployments, protocol)
    requires k < |chain|
    ensures var g := Build(uris, retry, c.Snapshot()).value;
            LookupPricing(g.pricing, chain[k].provider.id, chain[k].upstreamModel).Some?
  {
    var g := Build(uris, retry, c.Snapshot()).value;
    var m := ServedModel(uris, retry, c, name);
    var i := PlacesOn(g.providers, g.models[name].deployments, protocol)[k];
    var d := m.deployments[i];
    ServedProvider(uris, retry, c, m, i);
    assert g.models[name].deployments[i] == d.Hop();
    assert d in m.deployments && Priced(c.Rules(), d);
    LookupAgrees(c.Rules(), d.providerId, d.upstreamModel);
  }

  /** Nothing served goes unbilled for want of a rule: a completion on a resolved deployment has no cost only if
      no tokens were reported, or its rule has no rate for a cache class that was used. */
  lemma ServedIsBilled(uris: Uris, retry: RetryConfig, c: Catalog, name: string, protocol: Protocol,
                       chain: seq<ResolvedDeployment>, k: nat, done: Completion, userId: Uuid, apiKeyId: Uuid)
    requires Inv(c) && Build(uris, retry, c.Snapshot()).Some?
    requires var g := Build(uris, retry, c.Snapshot()).value;
             && name in g.models && g.models[name].enabled
             && Selects(chain, g.providers, g.models[name].deployments, protocol)
    requires k < |chain| && Plausible(done) && done.rules == c.Rules()
    requires done.providerId == chain[k].provider.id && done.upstreamModel == Some(chain[k].upstreamModel)
    ensures var rule := RuleFor(done.rules, done.providerId, done.upstreamModel.value);
            && rule.Some?
            && (RecordOf(done, userId, apiKeyId).cost.None? <==>
                  done.usage.None? || !done.usage.value.HasTokens()
                  || UnpricedCache(done.usage.value, rule.value.pricing))
  {
    ResolvedIsPriced(uris, retry, c, name, protocol, chain, k);
    LookupAgrees(done.rules, done.providerId, done.upstreamModel.value);
    CoverageMeaning(done.rules, done.providerId, done.upstreamModel.value);
    CostAbsent(done, userId, apiKeyId);
  }
}
