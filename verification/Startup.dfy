/** Boot and what follows it: import, migration, seeding and the first snapshot (`build_router` in
    src/proxy/router.rs), and then the admin API with a refresh after every change (`refresh_and_respond` in
    src/admin/catalog_api.rs). */
module Startup {
  import opened Basics
  import opened Tokens
  import opened Pricing
  import opened Usage
  import opened Catalog
  import opened CatalogStore
  import opened CatalogApi
  import opened CatalogImport
  import opened Gateway
  import opened Reload
  import opened Servability
  import SpendLoop

  datatype ConfigFile = ConfigFile(sections: Sections, retry: RetryConfig)

  /** What a boot takes from outside the catalog and the file: accounts, grants, past usage, and handles. */
  datatype Surroundings = Surroundings(
    uris: Uris, keys: ApiKeys, grants: Grants, usage: seq<UsageRecord>, upstream: nat, recorder: nat)

  // --- one boot ---

  /** `build_router` over a database that may hold a catalog already; None is a process that does not start. What
      was imported stays in the database either way, and a table that holds anything is never imported into again. */
  method Boot(world: Surroundings, file: ConfigFile, store: MemoryCatalogStore, now: int, firstId: Uuid)
    returns (imported: bool, shared: Option<SharedGatewayState>)
    requires Inv(store.State())
    modifies store
    ensures Inv(store.State())
    ensures old(store.providers) != [] ==> store.providers == old(store.providers)
    ensures old(store.pricing) != [] ==> store.pricing == old(store.pricing)
    ensures old(store.models) != [] ==> store.models == old(store.models)
    ensures old(store.providers) != [] && old(store.pricing) != [] ==> imported
    ensures shared.Some? <==> imported && Build(world.uris, file.retry, store.State().Snapshot()).Some?
    ensures old(store.State()) == Catalog([], [], []) ==> imported == NoRepeats(file.sections)
    ensures old(store.State()) == Catalog([], [], []) && !imported ==> Aborted(store.State(), file.sections, firstId)
    ensures old(store.providers) != [] && old(store.pricing) == [] && old(store.models) == [] ==>
              && imported == Pairwise(file.sections.pricing, OtherPair)
              && (imported ==> ImportedInto(old(store.providers), store.State(), file.sections, firstId))
    ensures old(store.State()) == Catalog([], [], []) && imported ==> Imported(store.State(), file.sections, firstId)
    ensures shared.Some? ==> fresh(shared.value) && Started(shared.value, world, file.retry, store.State())
  {
    shared := None;
    imported := ImportConfigOnce(store, file.sections, firstId);
    if !imported {
      return;
    }
    MigrateRoutesOnce(store, file.sections.routes, now, firstId);
    var catalog := CatalogSnapshot(store.providers, RulesOf(store.pricing), store.models);
    var counter := SpendLoop.Seed(world.usage);
    var built := FromParts(world.uris, file.retry, catalog, world.upstream, world.recorder);
    if built.None? {
      return;
    }
    var state := built.value.WithApiKeys(world.keys).WithGranted(world.grants).WithSpendCounter(counter);
    var live := new SharedGatewayState(world.uris, state, file.retry, catalog);
    shared := Some(live);
  }

  /** The first snapshot serves the catalog of the database, with seeded counters. */
  ghost predicate Started(shared: SharedGatewayState, world: Surroundings, retry: RetryConfig, c: Catalog)
    reads shared, shared.state.counter
  {
    && shared.Valid() && shared.history == Booted
    && shared.boot == Reload.Boot(world.uris, retry, c.Snapshot(), world.keys, world.grants)
    && shared.state.apiKeys == world.keys && shared.state.granted == world.grants
    && shared.state.upstream == world.upstream && shared.state.recorder == world.recorder
    && shared.state.counter.values == SpendLoop.Boot(world.usage).counters
  }

  // --- the first boot, by the file alone ---

  ghost predicate NoRepeats(file: Sections) {
    Pairwise(file.providers, OtherProvider) && Pairwise(file.pricing, OtherPair)
  }

  /** The database after the first import and migration. */
  ghost predicate Imported(c: Catalog, file: Sections, firstId: Uuid) {
    ImportedInto(file.providers, c, file, firstId)
  }

  /** The database after rules and models of the file have joined these providers. */
  ghost predicate ImportedInto(providers: seq<ProviderConfig>, c: Catalog, file: Sections, firstId: Uuid) {
    && c.providers == providers && c.pricing == Records(file.pricing, firstId)
    && if file.routes == [] then c.models == [] else Migrated(c, file.routes)
  }

  /** The database after an import that met a repeated id or pair: the providers before the first repeated id, or all
      providers and the rules before the first repeated pair. */
  ghost predicate Aborted(c: Catalog, file: Sections, firstId: Uuid) {
    && c.models == []
    && if Pairwise(file.providers, OtherProvider) then
         && c.providers == file.providers
         && RepeatsAfter(file.pricing, |c.pricing|, OtherPair) && c.pricing <= Records(file.pricing, firstId)
       else
         && RepeatsAfter(file.providers, |c.providers|, OtherProvider) && c.providers <= file.providers
         && c.pricing == []
  }

  /** No rule is malformed, no id or key blank, and no alias of a routed provider has a blank name or target. */
  ghost predicate CleanSections(file: Sections) {
    WellFormed(file.pricing) && CleanProviders(file.providers) && CleanAliases(file.providers, RouteIds(file.routes))
  }

  ghost predicate CleanAliases(providers: seq<ProviderConfig>, ids: seq<string>) {
    forall p, name :: p in providers && p.id in ids && name in p.aliases ==> !Blank(name) && !Blank(p.aliases[name])
  }

  /** The files with which a process over an empty database starts to serve. */
  ghost predicate Starts(uris: Uris, file: ConfigFile) {
    && NoRepeats(file.sections) && CleanSections(file.sections)
    && GoodUrls(uris, file.sections.providers) && GoodRetry(file.retry)
  }

  lemma SameNameSameModel(c: Catalog, a: ModelConfig, b: ModelConfig)
    requires Inv(c) && a in c.models && b in c.models && a.name == b.name
    ensures a == b
  {
    var i :| 0 <= i < |c.models| && c.models[i] == a;
    var j :| 0 <= j < |c.models| && c.models[j] == b;
    assert !(i < j) && !(j < i);
  }

  lemma SameIdSameProvider(providers: seq<ProviderConfig>, a: ProviderConfig, b: ProviderConfig)
    requires Pairwise(providers, OtherProvider) && a in providers && b in providers && a.id == b.id
    ensures a == b
  {
    var i :| 0 <= i < |providers| && providers[i] == a;
    var j :| 0 <= j < |providers| && providers[j] == b;
    assert !(i < j) && !(j < i);
  }

  lemma ChainIsClean(providers: seq<ProviderConfig>, ids: seq<string>, name: string)
    requires CleanAliases(providers, ids) && ChainOf(ById(providers), ids, name) != []
    ensures !Blank(name)
    ensures forall h :: h in ChainOf(ById(providers), ids, name) ==> !Blank(h.1)
  {
    var chain := ChainOf(ById(providers), ids, name);
    ChainMeaning(ById(providers), ids, name);
    forall h | h in chain ensures !Blank(h.1) && !Blank(name) { ByIdKeys(providers, h.0); }
    assert chain[0] in chain;
  }

  /** Models derived from clean aliases are clean. */
  lemma MigratedIsClean(c: Catalog, routes: seq<seq<string>>)
    requires Inv(c) && Migrated(c, routes) && CleanAliases(c.providers, RouteIds(routes))
    ensures CleanModels(c.models)
  {
    forall m | m in c.models ensures CleanModel(m) {
      var at := ModelAt(c, m.name);
      SameNameSameModel(c, m, c.models[at.value]);
      ChainIsClean(c.providers, RouteIds(routes), m.name);
      var chain := ChainOf(ById(c.providers), RouteIds(routes), m.name);
      forall d | d in m.deployments ensures !Blank(d.upstreamModel) {
        var i :| 0 <= i < |m.deployments| && m.deployments[i] == d;
        assert d.Hop() == chain[i] && chain[i] in chain;
      }
    }
  }

  /** And only from those: every alias of a routed provider becomes a deployment. */
  lemma AliasIsMigrated(c: Catalog, routes: seq<seq<string>>, p: ProviderConfig, name: string)
    requires Inv(c) && Migrated(c, routes) && CleanModels(c.models)
    requires p in c.providers && p.id in RouteIds(routes) && name in p.aliases
    ensures !Blank(name) && !Blank(p.aliases[name])
  {
    var byId, ids := ById(c.providers), RouteIds(routes);
    var chain := ChainOf(byId, ids, name);
    ByIdKeys(c.providers, p.id);
    SameIdSameProvider(c.providers, byId[p.id], p);
    assert Alias(byId, p.id, name) == Some(p.aliases[name]);
    ChainMeaning(byId, ids, name);
    ListsMeaning(chain, p.id);
    var k :| 0 <= k < |chain| && chain[k].0 == p.id;
    assert chain[k] in chain;
    var m := c.models[ModelAt(c, name).value];
    assert m in c.models && CleanModel(m);
    assert m.deployments[k] in m.deployments && m.deployments[k].Hop() == chain[k];
  }

  lemma ImportedIsClean(c: Catalog, file: Sections, firstId: Uuid)
    requires Inv(c) && Imported(c, file, firstId)
    ensures Clean(c) <==> CleanSections(file)
  {
    assert c.Rules() == file.pricing;
    if file.routes == [] {
      assert RouteIds(file.routes) == [];
    } else {
      if CleanSections(file) { MigratedIsClean(c, file.routes); }
      if Clean(c) {
        forall p, name | p in c.providers && p.id in RouteIds(file.routes) && name in p.aliases
          ensures !Blank(name) && !Blank(p.aliases[name])
        {
          AliasIsMigrated(c, file.routes, p, name);
        }
      }
    }
  }

  /** A process over an empty database starts to serve if and only if its file repeats nothing, is clean, has
      base URLs that are URLs, and a retry section that makes sense. */
  lemma FirstBootStarts(uris: Uris, file: ConfigFile, c: Catalog, firstId: Uuid)
    requires Inv(c) && NoRepeats(file.sections) && Imported(c, file.sections, firstId)
    ensures Build(uris, file.retry, c.Snapshot()).Some? <==> Starts(uris, file)
  {
    ImportedIsClean(c, file.sections, firstId);
    CleanIsServable(c);
    BuildAccepts(uris, file.retry, c.Snapshot());
  }

  /** A first file that the import takes but the snapshot does not accept is stored all the same. No later boot
      starts, with whatever file, as long as the stored rules, ids, keys or base URLs are the bad ones. If the first
      file also defined a model (`migrated`), only its URLs and the retry section of the later file are ever looked
      at again. */
  method BootTwice(world: Surroundings, first: ConfigFile, again: Surroundings, second: ConfigFile, now: int,
                   firstId: Uuid)
    returns (store: MemoryCatalogStore, started: bool, migrated: bool, restarted: bool)
    requires NoRepeats(first.sections) && first.sections.providers != [] && first.sections.pricing != []
    ensures fresh(store) && Inv(store.State())
    ensures started <==> Starts(world.uris, first)
    ensures store.providers == first.sections.providers && store.pricing == Records(first.sections.pricing, firstId)
    ensures restarted ==> WellFormed(first.sections.pricing) && CleanProviders(first.sections.providers)
                          && GoodUrls(again.uris, first.sections.providers) && GoodRetry(second.retry)
    ensures migrated ==> Imported(store.State(), first.sections, firstId)
                         && (restarted <==> Starts(again.uris, first.(retry := second.retry)))
  {
    store := new MemoryCatalogStore();
    var imported, shared := Boot(world, first, store, now, firstId);
    FirstBootStarts(world.uris, first, store.State(), firstId);
    started, migrated := shared.Some?, |store.models| > 0;
    imported, shared := Boot(again, second, store, now, firstId);
    restarted := shared.Some?;
    BuildAccepts(again.uris, second.retry, store.State().Snapshot());
    assert store.State().Rules() == first.sections.pricing;
    if migrated { FirstBootStarts(again.uris, first.(retry := second.retry), store.State(), firstId); }
  }

  /** A first file that repeats a provider leaves the providers before the repeated one behind. The next boot, over the
      corrected file, does not read its providers: it takes rules and models from it and serves them over those that
      are stored, as far as their routes and aliases go. */
  method BootAfterRepeat(world: Surroundings, first: ConfigFile, again: Surroundings, second: ConfigFile, now: int,
                         firstId: Uuid)
    returns (store: MemoryCatalogStore, started: bool, stored: nat, restarted: bool)
    requires !Pairwise(first.sections.providers, OtherProvider)
    ensures fresh(store) && Inv(store.State()) && !started
    ensures 0 < stored && RepeatsAfter(first.sections.providers, stored, OtherProvider)
    ensures store.providers == first.sections.providers[..stored]
    ensures restarted <==>
            && Pairwise(second.sections.pricing, OtherPair)
            && Build(again.uris, second.retry, store.State().Snapshot()).Some?
    ensures Pairwise(second.sections.pricing, OtherPair) ==>
              ImportedInto(first.sections.providers[..stored], store.State(), second.sections, firstId)
  {
    store := new MemoryCatalogStore();
    var imported, shared := Boot(world, first, store, now, firstId);
    started, stored := shared.Some?, |store.providers|;
    assert stored > 0;
    imported, shared := Boot(again, second, store, now, firstId);
    restarted := shared.Some?;
  }

  /** For instance, a file whose only rule has its currency in lower case. */
  lemma LowerCaseCurrencyIsMalformed(rule: PricingConfig)
    requires rule.pricing.currency == "usd"
    ensures Pairwise([rule], OtherPair) && !WellFormed([rule])
  {
    assert rule in [rule] && 'u' in rule.pricing.currency;
  }

  // --- serving ---

  /** Some catalog that kept the invariant has this snapshot. */
  ghost predicate Gated(snapshot: CatalogSnapshot) {
    exists c: Catalog :: Inv(c) && c.Snapshot() == snapshot
  }

  /** Every deployment the live snapshot resolves has a price, at any time. */
  lemma LiveIsPriced(shared: SharedGatewayState, name: string, protocol: Protocol, chain: seq<ResolvedDeployment>,
                     k: nat)
    requires shared.Valid() && Gated(shared.catalog)
    requires var g := shared.state.routing;
             && name in g.models && g.models[name].enabled
             && Selects(chain, g.providers, g.models[name].deployments, protocol)
    requires k < |chain|
    ensures LookupPricing(shared.state.routing.pricing, chain[k].provider.id, chain[k].upstreamModel).Some?
  {
    var c: Catalog :| Inv(c) && c.Snapshot() == shared.catalog;
    ResolvedIsPriced(shared.uris, shared.boot.LastFile(shared.history), c, name, protocol, chain, k);
  }

  /** A handler and the refresh after it: a change that was stored is live at once, unless the file cannot be read,
      its retry section is bad, or a base URL is; then it is stored, and the gateway keeps what it had. */
  method Administer(decimals: Decimals, store: MemoryCatalogStore, shared: SharedGatewayState, request: Request,
                    file: Option<RetryConfig>) returns (status: Status, applied: bool)
    requires Clean(store.State()) && shared.Valid() && Gated(shared.catalog)
    requires request.NewRule? ==> FreshRuleId(store.State(), request.ruleId)
    modifies store, shared
    ensures (store.State(), status) == Handle(decimals, old(store.State()), request)
    ensures Clean(store.State()) && shared.Valid() && Gated(shared.catalog)
    ensures applied <==>
            status.Success() && file.Some? && GoodUrls(shared.uris, store.providers) && GoodRetry(file.value)
    ensures applied ==> shared.catalog == store.State().Snapshot()
    ensures !applied ==> shared.state == old(shared.state) && shared.catalog == old(shared.catalog)
  {
    HandlerKeepsClean(decimals, store.State(), request);
    status := Dispatch(decimals, store, request);
    applied := false;
    if status.Success() {
      CleanBuilds(shared.boot, file, store.State());
      applied := shared.StoreCatalog(file, CatalogSnapshot(store.providers, RulesOf(store.pricing), store.models));
    }
  }

  /** An admin request, with the file as it is at the refresh after it, or something else that swaps the snapshot. */
  datatype Call = Admin(request: Request, file: Option<RetryConfig>) | Swap(event: Event)

  /** No rule id is drawn twice, nor one that is in use; catalogs are only stored by admin requests. */
  ghost predicate Proper(calls: seq<Call>, used: set<Uuid>)
    decreases |calls|
  {
    if calls == [] then true
    else
      match calls[0]
      case Swap(e) => !e.StoreCatalog? && Proper(calls[1..], used)
      case Admin(request, _) =>
        if request.NewRule? then request.ruleId !in used && Proper(calls[1..], used + {request.ruleId})
        else Proper(calls[1..], used)
  }

  ghost predicate IdsWithin(c: Catalog, used: set<Uuid>) {
    forall r :: r in c.pricing ==> r.id in used
  }

  function UsedAfter(used: set<Uuid>, call: Call): set<Uuid> {
    if call.Admin? && call.request.NewRule? then used + {call.request.ruleId} else used
  }

  /** The database and the gateway are in order. */
  ghost predicate Running(store: MemoryCatalogStore, shared: SharedGatewayState, used: set<Uuid>)
    reads store, shared
  {
    && Clean(store.State()) && IdsWithin(store.State(), used)
    && shared.Valid() && Gated(shared.catalog)
  }

  /** The gateway serves the catalog of the database. */
  ghost predicate UpToDate(store: MemoryCatalogStore, shared: SharedGatewayState)
    reads store, shared
  {
    shared.catalog == store.State().Snapshot()
  }

  method Answer(decimals: Decimals, store: MemoryCatalogStore, shared: SharedGatewayState, call: Call, stale: bool,
                ghost used: set<Uuid>) returns (nowStale: bool)
    requires Running(store, shared, used) && Proper([call], used) && (!stale ==> UpToDate(store, shared))
    modifies store, shared
    ensures Running(store, shared, UsedAfter(used, call)) && (!nowStale ==> UpToDate(store, shared))
  {
    nowStale := stale;
    match call {
      case Swap(e) => Apply(shared, e);
      case Admin(request, file) =>
        ghost var c := store.State();
        HandlerIds(decimals, c, request, used);
        var status, applied := Administer(decimals, store, shared, request, file);
        if status.Success() {
          nowStale := !applied;
        } else {
          RefusalChangesNothing(decimals, c, request);
        }
    }
  }

  lemma ProperHead(calls: seq<Call>, used: set<Uuid>)
    requires calls != [] && Proper(calls, used)
    ensures Proper([calls[0]], used) && Proper(calls[1..], UsedAfter(used, calls[0]))
  {
    assert [calls[0]][1..] == [];
  }

  /** Any calls at all on a running process. `stale` says that the refresh after the last change that was stored
      failed; otherwise the gateway serves the catalog of the database. */
  method Serve(decimals: Decimals, store: MemoryCatalogStore, shared: SharedGatewayState, calls: seq<Call>,
               ghost used: set<Uuid>) returns (stale: bool)
    requires Running(store, shared, used) && UpToDate(store, shared) && Proper(calls, used)
    modifies store, shared
    ensures Clean(store.State()) && shared.Valid() && Gated(shared.catalog)
    ensures !stale ==> UpToDate(store, shared)
  {
    stale := false;
    ghost var ids := used;
    assert calls[0..] == calls;
    for i := 0 to |calls|
      invariant Running(store, shared, ids) && Proper(calls[i..], ids)
      invariant !stale ==> UpToDate(store, shared)
    {
      ProperHead(calls[i..], ids);
      assert calls[i..][1..] == calls[i + 1..] && calls[i..][0] == calls[i];
      stale := Answer(decimals, store, shared, calls[i], stale, ids);
      ids := UsedAfter(ids, calls[i]);
    }
  }

  function Drawn(firstId: Uuid, n: nat): (ids: set<Uuid>)
    ensures forall id :: id in ids <==> firstId <= id < firstId + n
  {
    if n == 0 then {} else Drawn(firstId, n - 1) + {firstId + n - 1}
  }

  /** From the empty database: the process starts exactly with the files that `Starts` describes, and from then on,
      whatever is called, the database holds unique rules and chains over existing providers and no enabled model
      that could not be served and priced, and the gateway serves a catalog of which the same is true. */
  method Life(decimals: Decimals, world: Surroundings, file: ConfigFile, calls: seq<Call>, now: int, firstId: Uuid)
    returns (store: MemoryCatalogStore, shared: Option<SharedGatewayState>, stale: bool)
    requires Proper(calls, Drawn(firstId, |file.sections.pricing|))
    ensures fresh(store) && Inv(store.State())
    ensures shared.Some? <==> Starts(world.uris, file)
    ensures shared.None? && NoRepeats(file.sections) ==> Imported(store.State(), file.sections, firstId)
    ensures shared.Some? ==>
              && fresh(shared.value) && shared.value.Valid()
              && Clean(store.State()) && Gated(shared.value.catalog)
              && (!stale ==> shared.value.catalog == store.State().Snapshot())
  {
    store := new MemoryCatalogStore();
    stale := false;
    var imported: bool;
    imported, shared := Boot(world, file, store, now, firstId);
    if NoRepeats(file.sections) { FirstBootStarts(world.uris, file, store.State(), firstId); }
    if shared.Some? {
      ghost var used := Drawn(firstId, |file.sections.pricing|);
      ImportedIsClean(store.State(), file.sections, firstId);
      forall r | r in store.pricing ensures r.id in used {
        var i :| 0 <= i < |store.pricing| && store.pricing[i] == r;
        assert r.id == firstId + i;
      }
      stale := Serve(decimals, store, shared.value, calls, used);
    }
  }
}
