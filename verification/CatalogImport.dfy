/** What happens to the catalog at boot: the one-time import of the config file and the one-time migration of
    its routes (src/catalog/import.rs). */
module CatalogImport {
  import opened Basics
  import opened Pricing
  import opened Catalog
  import opened CatalogStore

  /** The sections of the config file the import reads; a route is its list of provider ids. */
  datatype Sections = Sections(providers: seq<ProviderConfig>, pricing: seq<PricingConfig>, routes: seq<seq<string>>)

  // --- import ---

  predicate OtherPair(a: PricingConfig, b: PricingConfig) { a.Pair() != b.Pair() }

  function Records(pricing: seq<PricingConfig>, firstId: Uuid): (records: seq<PricingRecord>)
    ensures |records| == |pricing|
    ensures forall i :: 0 <= i < |pricing| ==> records[i] == PricingRecord(firstId + i, pricing[i])
  {
    seq(|pricing|, i requires 0 <= i < |pricing| => PricingRecord(firstId + i, pricing[i]))
  }

  /** The entries before the first that repeats an earlier one are `n`. */
  ghost predicate RepeatsAfter<T(!new)>(entries: seq<T>, n: nat, other: (T, T) -> bool) {
    n < |entries| && Pairwise(entries[..n], other) && !Pairwise(entries[..n + 1], other)
  }

  /** `import_config_once`: a section is imported only into an empty table, and the first repeated id or pair aborts
      the import with the entries before it stored; when a rule repeats, all providers have been stored already. */
  method ImportConfigOnce(store: MemoryCatalogStore, file: Sections, firstId: Uuid) returns (ok: bool)
    requires Inv(store.State())
    modifies store
    ensures Inv(store.State()) && store.models == old(store.models)
    ensures old(store.providers) != [] ==> store.providers == old(store.providers)
    ensures old(store.providers) == [] && Pairwise(file.providers, OtherProvider) ==> store.providers == file.providers
    ensures old(store.providers) == [] && !Pairwise(file.providers, OtherProvider) ==>
              && !ok && store.pricing == old(store.pricing)
              && RepeatsAfter(file.providers, |store.providers|, OtherProvider) && store.providers <= file.providers
    ensures old(store.pricing) != [] ==> store.pricing == old(store.pricing)
    ensures old(store.providers) != [] || Pairwise(file.providers, OtherProvider) ==>
              && (ok <==> old(store.pricing) != [] || Pairwise(file.pricing, OtherPair))
              && (ok && old(store.pricing) == [] ==> store.pricing == Records(file.pricing, firstId))
              && (!ok ==> RepeatsAfter(file.pricing, |store.pricing|, OtherPair)
                          && store.pricing <= Records(file.pricing, firstId))
  {
    if |store.providers| == 0 && file.providers != [] {
      ok := ImportProviders(store, file.providers);
      if !ok { return; }
    }
    if |store.pricing| == 0 && file.pricing != [] {
      ok := ImportPricing(store, file.pricing, firstId);
      if !ok { return; }
    }
    ok := true;
  }

  lemma PairwisePrefix<T(!new)>(s: seq<T>, n: nat, r: (T, T) -> bool)
    requires n <= |s| && !Pairwise(s[..n], r)
    ensures !Pairwise(s, r)
  {
    var i, j :| 0 <= i < j < n && !r(s[..n][i], s[..n][j]);
    assert !r(s[i], s[j]);
  }

  method ImportProviders(store: MemoryCatalogStore, providers: seq<ProviderConfig>) returns (ok: bool)
    requires Inv(store.State()) && store.providers == []
    modifies store`providers
    ensures Inv(store.State()) && store.providers <= providers
    ensures ok <==> Pairwise(providers, OtherProvider)
    ensures if ok then store.providers == providers else RepeatsAfter(providers, |store.providers|, OtherProvider)
  {
    for i := 0 to |providers|
      invariant Inv(store.State())
      invariant store.pricing == old(store.pricing) && store.models == old(store.models)
      invariant store.providers == providers[..i]
    {
      ghost var c := store.State();
      var provider := providers[i];
      var at := Position(c.providers, (q: ProviderConfig) => q.id == provider.id);
      var stored := store.UpsertProvider(provider, true);
      if !stored {
        assert !OtherProvider(providers[..i + 1][at.value], providers[..i + 1][i]);
        PairwisePrefix(providers, i + 1, OtherProvider);
        return false;
      }
      UpsertKeeps(c, provider, true);
      assert providers[..i + 1] == providers[..i] + [provider];
    }
    assert providers[..|providers|] == providers;
    return true;
  }

  method ImportPricing(store: MemoryCatalogStore, pricing: seq<PricingConfig>, firstId: Uuid) returns (ok: bool)
    requires Inv(store.State()) && store.pricing == []
    modifies store`pricing
    ensures Inv(store.State()) && store.pricing <= Records(pricing, firstId)
    ensures ok <==> Pairwise(pricing, OtherPair)
    ensures if ok then store.pricing == Records(pricing, firstId) else RepeatsAfter(pricing, |store.pricing|, OtherPair)
  {
    var records := Records(pricing, firstId);
    for i := 0 to |pricing|
      invariant Inv(store.State())
      invariant store.providers == old(store.providers) && store.models == old(store.models)
      invariant store.pricing == records[..i]
    {
      ghost var c := store.State();
      var config := pricing[i];
      ghost var at := Position(c.pricing, (r: PricingRecord) => r.config.Pair() == config.Pair());
      var stored := store.CreatePricing(firstId + i, config);
      PairsOfRecords(pricing, firstId, i);
      if !stored {
        assert records[at.value] == PricingRecord(firstId + at.value, pricing[at.value]);
        assert !OtherPair(pricing[..i + 1][at.value], pricing[..i + 1][i]);
        PairwisePrefix(pricing, i + 1, OtherPair);
        return false;
      }
      WithRuleKeeps(c, firstId + i, config);
      assert records[..i + 1] == records[..i] + [PricingRecord(firstId + i, config)];
    }
    assert records[..|pricing|] == records && pricing[..|pricing|] == pricing;
    PairsOfRecords(pricing, firstId, |pricing|);
    return true;
  }

  lemma PairsOfRecords(pricing: seq<PricingConfig>, firstId: Uuid, n: nat)
    requires n <= |pricing| && Pairwise(Records(pricing, firstId)[..n], OtherRule)
    ensures Pairwise(pricing[..n], OtherPair)
  {
    var records := Records(pricing, firstId)[..n];
    forall i, j | 0 <= i < j < n ensures OtherPair(pricing[i], pricing[j]) {
      assert OtherRule(records[i], records[j]);
    }
  }

  // --- chains derived from routes ---

  type ProviderIndex = map<string, ProviderConfig>

  /** The providers collected into a hash map. */
  function ById(providers: seq<ProviderConfig>): ProviderIndex {
    if providers == [] then map[]
    else
      var last := providers[|providers| - 1];
      ById(providers[..|providers| - 1])[last.id := last]
  }

  lemma {:induction false} ByIdKeys(providers: seq<ProviderConfig>, id: string)
    ensures id in ById(providers) <==> Known(providers, id)
    ensures id in ById(providers) ==> ById(providers)[id] in providers && ById(providers)[id].id == id
  {
    if providers != [] {
      var init, last := providers[..|providers| - 1], providers[|providers| - 1];
      assert providers == init + [last];
      ByIdKeys(init, id);
      if Known(providers, id) && last.id != id {
        var p :| p in providers && p.id == id;
        assert p in init;
      }
      assert last in providers;
    }
  }

  /** The upstream name under which a provider serves a public model. */
  function Alias(byId: ProviderIndex, id: string, name: string): Option<string> {
    if id in byId && name in byId[id].aliases then Some(byId[id].aliases[name]) else None
  }

  /** An alias is one the configured provider of that id has. */
  lemma AliasMeaning(providers: seq<ProviderConfig>, id: string, name: string, upstream: string)
    requires Pairwise(providers, OtherProvider)
    ensures Alias(ById(providers), id, name) == Some(upstream) <==>
            exists p :: p in providers && p.id == id && name in p.aliases && p.aliases[name] == upstream
  {
    ByIdKeys(providers, id);
    if p :| p in providers && p.id == id {
      var i :| 0 <= i < |providers| && providers[i] == p;
      var j :| 0 <= j < |providers| && providers[j] == ById(providers)[id];
      assert !(i < j) && !(j < i) by {
        assert i < j ==> OtherProvider(providers[i], providers[j]);
        assert j < i ==> OtherProvider(providers[j], providers[i]);
      }
    }
  }

  predicate Lists(chain: seq<Hop>, id: string) {
    Position(chain, (h: Hop) => h.0 == id).Some?
  }

  /** The chain of a model: walking the provider ids of all routes in order, the first occurrence of each
      provider with an alias for the model. */
  function ChainOf(byId: ProviderIndex, ids: seq<string>, name: string): seq<Hop> {
    if ids == [] then []
    else
      var chain, id := ChainOf(byId, ids[..|ids| - 1], name), ids[|ids| - 1];
      var upstream := Alias(byId, id, name);
      if upstream.Some? && !Lists(chain, id) then chain + [(id, upstream.value)] else chain
  }

  lemma ChainSnoc(byId: ProviderIndex, ids: seq<string>, id: string, name: string)
    ensures var chain := ChainOf(byId, ids, name);
            var upstream := Alias(byId, id, name);
            ChainOf(byId, ids + [id], name)
            == if upstream.Some? && !Lists(chain, id) then chain + [(id, upstream.value)] else chain
  {
    assert (ids + [id])[..|ids|] == ids;
  }

  function FirstAt(ids: seq<string>, id: string): nat
    requires id in ids
  {
    if ids[0] == id then 0 else 1 + FirstAt(ids[1..], id)
  }

  lemma {:induction false} FirstAtSnoc(ids: seq<string>, last: string, id: string)
    requires id in ids
    ensures id in ids + [last] && FirstAt(ids + [last], id) == FirstAt(ids, id) < |ids|
  {
    if ids[0] != id {
      assert (ids + [last])[1..] == ids[1..] + [last];
      FirstAtSnoc(ids[1..], last, id);
    }
  }

  lemma {:induction false} FirstAtEnd(ids: seq<string>, last: string)
    requires last !in ids
    ensures FirstAt(ids + [last], last) == |ids|
  {
    if ids != [] {
      assert (ids + [last])[1..] == ids[1..] + [last];
      FirstAtEnd(ids[1..], last);
    }
  }

  /** The chain holds exactly the routed providers that alias the model, under their aliases, and in the order
      in which they first occur in the routes: in particular no provider occurs twice. */
  ghost predicate IsChain(byId: ProviderIndex, ids: seq<string>, name: string, chain: seq<Hop>) {
    OnlyAliases(byId, ids, name, chain) && AllAliases(byId, ids, name, chain) && InOrder(ids, chain)
  }

  ghost predicate OnlyAliases(byId: ProviderIndex, ids: seq<string>, name: string, chain: seq<Hop>) {
    forall h :: h in chain ==> h.0 in ids && Alias(byId, h.0, name) == Some(h.1)
  }

  ghost predicate AllAliases(byId: ProviderIndex, ids: seq<string>, name: string, chain: seq<Hop>) {
    forall id :: id in ids && Alias(byId, id, name).Some? ==> Lists(chain, id)
  }

  ghost predicate InOrder(ids: seq<string>, chain: seq<Hop>) {
    forall i, j :: 0 <= i < j < |chain| ==>
      chain[i].0 in ids && chain[j].0 in ids && FirstAt(ids, chain[i].0) < FirstAt(ids, chain[j].0)
  }

  lemma ListsSnoc(chain: seq<Hop>, h: Hop, id: string)
    ensures Lists(chain + [h], id) <==> Lists(chain, id) || h.0 == id
    ensures Lists(chain, id) <==> exists k :: 0 <= k < |chain| && chain[k].0 == id
  {
    var at := Position(chain, (g: Hop) => g.0 == id);
    if at.Some? {
      assert chain[at.value] in chain + [h];
    }
    forall k | 0 <= k < |chain| && chain[k].0 == id ensures at.Some? {
      assert chain[k] in chain;
    }
    assert h in chain + [h];
    var after := Position(chain + [h], (g: Hop) => g.0 == id);
    if after.Some? && h.0 != id {
      assert (chain + [h])[after.value] in chain;
    }
  }

  lemma {:induction false} ChainMeaning(byId: ProviderIndex, ids: seq<string>, name: string)
    ensures IsChain(byId, ids, name, ChainOf(byId, ids, name))
    ensures ChainOf(byId, ids, name) != [] <==> exists id :: id in ids && Alias(byId, id, name).Some?
  {
    var chain := ChainOf(byId, ids, name);
    if ids != [] {
      var init, last := ids[..|ids| - 1], ids[|ids| - 1];
      assert ids == init + [last];
      ChainMeaning(byId, init, name);
      ChainStep(byId, init, last, name);
    }
    if chain != [] { assert chain[0] in chain; }
  }

  lemma ChainStep(byId: ProviderIndex, ids: seq<string>, last: string, name: string)
    requires IsChain(byId, ids, name, ChainOf(byId, ids, name))
    ensures IsChain(byId, ids + [last], name, ChainOf(byId, ids + [last], name))
  {
    var chain := ChainOf(byId, ids, name);
    ChainSnoc(byId, ids, last, name);
    StillInOrder(byId, ids, last, name, chain);
    var upstream := Alias(byId, last, name);
    if upstream.Some? && !Lists(chain, last) {
      HopAppended(byId, ids, (last, upstream.value), name, chain);
    }
  }

  /** A provider id at the end of the routes leaves the order of a chain alone. */
  lemma StillInOrder(byId: ProviderIndex, ids: seq<string>, last: string, name: string, chain: seq<Hop>)
    requires IsChain(byId, ids, name, chain)
    ensures OnlyAliases(byId, ids + [last], name, chain) && InOrder(ids + [last], chain)
  {
    forall h | h in chain ensures h.0 in ids + [last] && FirstAt(ids + [last], h.0) == FirstAt(ids, h.0) {
      FirstAtSnoc(ids, last, h.0);
    }
    forall i | 0 <= i < |chain| ensures chain[i] in chain {}
  }

  lemma HopAppended(byId: ProviderIndex, ids: seq<string>, hop: Hop, name: string, chain: seq<Hop>)
    requires IsChain(byId, ids, name, chain)
    requires Alias(byId, hop.0, name) == Some(hop.1) && !Lists(chain, hop.0)
    ensures IsChain(byId, ids + [hop.0], name, chain + [hop])
  {
    var all, after := ids + [hop.0], chain + [hop];
    StillInOrder(byId, ids, hop.0, name, chain);
    FirstAtEnd(ids, hop.0);
    forall id | id in all && Alias(byId, id, name).Some? ensures Lists(after, id) { ListsSnoc(chain, hop, id); }
    forall i | 0 <= i < |chain| ensures chain[i].0 in all && FirstAt(all, chain[i].0) < FirstAt(all, hop.0) {
      assert chain[i] in chain;
      FirstAtSnoc(ids, hop.0, chain[i].0);
    }
    assert InOrder(all, after);
  }

  lemma NewHopAdded(byId: ProviderIndex, ids: seq<string>, last: string, name: string)
    requires Alias(byId, last, name).Some? && last !in ids
    ensures ChainOf(byId, ids + [last], name) == ChainOf(byId, ids, name) + [(last, Alias(byId, last, name).value)]
  {
    var chain := ChainOf(byId, ids, name);
    ChainMeaning(byId, ids, name);
    ListsMeaning(chain, last);
    forall k | 0 <= k < |chain| ensures chain[k].0 != last { assert chain[k] in chain; }
    ChainSnoc(byId, ids, last, name);
  }

  lemma NothingAdded(byId: ProviderIndex, ids: seq<string>, last: string, name: string)
    requires Alias(byId, last, name).None? || last in ids
    ensures ChainOf(byId, ids + [last], name) == ChainOf(byId, ids, name)
  {
    ChainMeaning(byId, ids, name);
    ChainSnoc(byId, ids, last, name);
  }

  /** There is only one such chain. */
  lemma {:induction false} ChainUnique(byId: ProviderIndex, ids: seq<string>, name: string, chain: seq<Hop>)
    requires IsChain(byId, ids, name, chain)
    ensures chain == ChainOf(byId, ids, name)
    decreases |ids|
  {
    if ids == [] {
      HasMember(chain);
    } else {
      var init, last := ids[..|ids| - 1], ids[|ids| - 1];
      assert ids == init + [last];
      if Alias(byId, last, name).Some? && last !in init {
        NewHopIsLast(byId, init, last, name, chain);
        ChainUnique(byId, init, name, chain[..|chain| - 1]);
        NewHopAdded(byId, init, last, name);
        assert chain[|chain| - 1] in chain;
      } else {
        OldHopsOnly(byId, init, last, name, chain);
        ChainUnique(byId, init, name, chain);
        NothingAdded(byId, init, last, name);
      }
    }
  }

  lemma ListsMeaning(chain: seq<Hop>, id: string)
    ensures Lists(chain, id) <==> exists k :: 0 <= k < |chain| && chain[k].0 == id
  {
    var at := Position(chain, (h: Hop) => h.0 == id);
    forall k | 0 <= k < |chain| && chain[k].0 == id ensures at.Some? {
      assert chain[k] in chain;
    }
  }

  /** A provider met for the first time at the end of the routes ends the chain. */
  lemma NewHopIsLast(byId: ProviderIndex, ids: seq<string>, last: string, name: string, chain: seq<Hop>)
    requires IsChain(byId, ids + [last], name, chain)
    requires Alias(byId, last, name).Some? && last !in ids
    ensures chain != [] && chain[|chain| - 1].0 == last
    ensures IsChain(byId, ids, name, chain[..|chain| - 1])
  {
    var n := |chain| - 1;
    assert last in ids + [last];
    ListsMeaning(chain, last);
    var k :| 0 <= k < |chain| && chain[k].0 == last;
    FirstAtEnd(ids, last);
    assert chain[n] in chain;
    FirstAtBelow(ids + [last], chain[n].0);
    assert k == n;
    forall j | 0 <= j < n ensures chain[j].0 in ids && FirstAt(ids, chain[j].0) == FirstAt(ids + [last], chain[j].0) {
      EarlierHop(byId, ids, last, name, chain, j);
    }
    HopsBefore(byId, ids, last, name, chain);
  }

  lemma EarlierHop(byId: ProviderIndex, ids: seq<string>, last: string, name: string, chain: seq<Hop>, j: nat)
    requires IsChain(byId, ids + [last], name, chain) && last !in ids
    requires j < |chain| - 1 && chain[|chain| - 1].0 == last
    ensures chain[j].0 in ids && FirstAt(ids, chain[j].0) == FirstAt(ids + [last], chain[j].0)
  {
    assert chain[j] in chain && FirstAt(ids + [last], chain[j].0) < FirstAt(ids + [last], last);
    FirstAtSnoc(ids, last, chain[j].0);
  }

  lemma HopsBefore(byId: ProviderIndex, ids: seq<string>, last: string, name: string, chain: seq<Hop>)
    requires IsChain(byId, ids + [last], name, chain) && last !in ids
    requires chain != [] && chain[|chain| - 1].0 == last
    requires forall j :: 0 <= j < |chain| - 1 ==>
               chain[j].0 in ids && FirstAt(ids, chain[j].0) == FirstAt(ids + [last], chain[j].0)
    ensures IsChain(byId, ids, name, chain[..|chain| - 1])
  {
    var init := chain[..|chain| - 1];
    ListedBefore(byId, ids, last, name, chain);
    forall h | h in init ensures h.0 in ids && Alias(byId, h.0, name) == Some(h.1) {
      var j :| 0 <= j < |init| && init[j] == h;
      assert chain[j] in chain;
    }
    assert InOrder(ids, init);
  }

  lemma ListedBefore(byId: ProviderIndex, ids: seq<string>, last: string, name: string, chain: seq<Hop>)
    requires AllAliases(byId, ids + [last], name, chain) && last !in ids
    requires chain != [] && chain[|chain| - 1].0 == last
    ensures AllAliases(byId, ids, name, chain[..|chain| - 1])
  {
    var init := chain[..|chain| - 1];
    forall id | id in ids && Alias(byId, id, name).Some? ensures Lists(init, id) {
      assert id in ids + [last];
      ListsMeaning(chain, id);
      ListsMeaning(init, id);
      var j :| 0 <= j < |chain| && chain[j].0 == id;
      assert j < |init| && init[j].0 == id;
    }
  }

  /** A provider met before, or one without the alias, adds nothing. */
  lemma OldHopsOnly(byId: ProviderIndex, ids: seq<string>, last: string, name: string, chain: seq<Hop>)
    requires IsChain(byId, ids + [last], name, chain)
    requires Alias(byId, last, name).None? || last in ids
    ensures IsChain(byId, ids, name, chain)
  {
    forall h | h in chain ensures h.0 in ids && FirstAt(ids + [last], h.0) == FirstAt(ids, h.0) {
      FirstAtSnoc(ids, last, h.0);
    }
    forall i | 0 <= i < |chain| ensures chain[i] in chain {}
  }

  lemma {:induction false} FirstAtBelow(ids: seq<string>, id: string)
    requires id in ids
    ensures FirstAt(ids, id) < |ids|
  {
    if ids[0] != id { FirstAtBelow(ids[1..], id); }
  }

  /** The provider ids of the first routes, one after another. */
  function RouteIds(routes: seq<seq<string>>): seq<string> {
    if routes == [] then [] else RouteIds(routes[..|routes| - 1]) + routes[|routes| - 1]
  }

  /** They are the routes one after another, each in its order. */
  lemma {:induction false} RouteIdsMeaning(routes: seq<seq<string>>)
    ensures RouteIds(routes) == Flatten(routes)
  {
    if routes != [] {
      var init, last := routes[..|routes| - 1], routes[|routes| - 1];
      assert routes == init + [last];
      RouteIdsMeaning(init);
      FlattenSnoc(init, last);
    }
  }

  // --- migration ---

  type Chains = map<string, seq<Hop>>

  /** The table has the chain under the name, unless it is empty; `order` lists the names of the table. */
  ghost predicate Holds(chains: Chains, order: seq<string>, name: string, chain: seq<Hop>) {
    && (name in order <==> name in chains)
    && (name in chains <==> chain != [])
    && (name in chains ==> chains[name] == chain)
  }

  /** The table holds the non-empty chains, and `order` lists its keys once each. */
  ghost predicate Derived(chains: Chains, order: seq<string>, byId: ProviderIndex, ids: seq<string>) {
    && Distinct(order)
    && forall name {:trigger Holds(chains, order, name, ChainOf(byId, ids, name))} ::
         Holds(chains, order, name, ChainOf(byId, ids, name))
  }

  /** Halfway through the aliases of `id`: `done` are the names already visited. */
  ghost predicate Deriving(chains: Chains, order: seq<string>, byId: ProviderIndex, ids: seq<string>, id: string,
                           done: set<string>) {
    && Distinct(order)
    && forall name {:trigger Holds(chains, order, name, Pending(byId, ids, id, done, name))} ::
         Holds(chains, order, name, Pending(byId, ids, id, done, name))
  }

  ghost function Pending(byId: ProviderIndex, ids: seq<string>, id: string, done: set<string>, name: string): seq<Hop> {
    ChainOf(byId, if name in done then ids + [id] else ids, name)
  }

  lemma NoAliasVisited(chains: Chains, order: seq<string>, byId: ProviderIndex, ids: seq<string>, id: string)
    requires Derived(chains, order, byId, ids)
    ensures Deriving(chains, order, byId, ids, id, {})
  {
    forall name ensures Holds(chains, order, name, Pending(byId, ids, id, {}, name)) {
      assert Holds(chains, order, name, ChainOf(byId, ids, name));
    }
  }

  lemma AliasStep(chains: Chains, order: seq<string>, byId: ProviderIndex, ids: seq<string>, id: string,
                  done: set<string>, public: string)
    requires Deriving(chains, order, byId, ids, id, done)
    requires id in byId && public in byId[id].aliases && public !in done
    ensures var chain := if public in chains then chains[public] else [];
            var next := if Lists(chain, id) then chain else chain + [(id, byId[id].aliases[public])];
            Deriving(chains[public := next], if public in chains then order else order + [public],
                     byId, ids, id, done + {public})
  {
    ChainSnoc(byId, ids, id, public);
    assert Holds(chains, order, public, Pending(byId, ids, id, done, public));
    var chain := if public in chains then chains[public] else [];
    var next := if Lists(chain, id) then chain else chain + [(id, byId[id].aliases[public])];
    var chains', order' := chains[public := next], if public in chains then order else order + [public];
    forall name ensures Holds(chains', order', name, Pending(byId, ids, id, done + {public}, name)) {
      assert Holds(chains, order, name, Pending(byId, ids, id, done, name));
    }
  }

  lemma AllAliasesVisited(chains: Chains, order: seq<string>, byId: ProviderIndex, ids: seq<string>, id: string,
                          done: set<string>)
    requires Deriving(chains, order, byId, ids, id, done)
    requires forall name :: Alias(byId, id, name).Some? ==> name in done
    ensures Derived(chains, order, byId, ids + [id])
  {
    forall name ensures Holds(chains, order, name, ChainOf(byId, ids + [id], name)) {
      assert Holds(chains, order, name, Pending(byId, ids, id, done, name));
      ChainSnoc(byId, ids, id, name);
    }
  }

  /** One provider of one route: its aliases are visited in whatever order the hash map yields them. */
  method AddProvider(byId: ProviderIndex, ghost ids: seq<string>, id: string, chains: Chains, order: seq<string>)
    returns (newChains: Chains, newOrder: seq<string>)
    requires Derived(chains, order, byId, ids)
    ensures Derived(newChains, newOrder, byId, ids + [id])
  {
    newChains, newOrder := chains, order;
    NoAliasVisited(chains, order, byId, ids, id);
    if id !in byId {
      AllAliasesVisited(newChains, newOrder, byId, ids, id, {});
      return;
    }
    var aliases := byId[id].aliases;
    var left := aliases.Keys;
    ghost var done: set<string> := {};
    while left != {}
      invariant left <= aliases.Keys
      invariant Deriving(newChains, newOrder, byId, ids, id, done) && done == aliases.Keys - left
      decreases |left|
    {
      var public :| public in left;
      left := left - {public};
      var chain := if public in newChains then newChains[public] else [];
      ghost var chains0, order0 := newChains, newOrder;
      if public !in newChains {
        newOrder := newOrder + [public];
      }
      if !Lists(chain, id) {
        chain := chain + [(id, aliases[public])];
      }
      newChains := newChains[public := chain];
      AliasStep(chains0, order0, byId, ids, id, done, public);
      done := done + {public};
    }
    AllAliasesVisited(newChains, newOrder, byId, ids, id, done);
  }

  method DeriveChains(byId: ProviderIndex, routes: seq<seq<string>>) returns (chains: Chains, order: seq<string>)
    ensures Derived(chains, order, byId, RouteIds(routes))
  {
    chains, order := map[], [];
    for i := 0 to |routes|
      invariant Derived(chains, order, byId, RouteIds(routes[..i]))
    {
      ghost var before := RouteIds(routes[..i]);
      var route := routes[i];
      assert before + route[..0] == before;
      for j := 0 to |route|
        invariant Derived(chains, order, byId, before + route[..j])
      {
        chains, order := AddProvider(byId, before + route[..j], route[j], chains, order);
        assert before + route[..j] + [route[j]] == before + route[..j + 1];
      }
      assert routes[..i + 1][..i] == routes[..i] && route[..|route|] == route;
    }
    assert routes[..|routes|] == routes;
  }

  ghost predicate Covered(chain: seq<Hop>, rules: seq<PricingConfig>) {
    forall h :: h in chain ==> RuleFor(rules, h.0, h.1).Some?
  }

  /** The model has the chain, and is enabled exactly when all of it is priced. */
  ghost predicate IsMigrated(m: ModelConfig, chain: seq<Hop>, rules: seq<PricingConfig>) {
    && |m.deployments| == |chain|
    && (forall i :: 0 <= i < |chain| ==> m.deployments[i].Hop() == chain[i])
    && (m.enabled <==> Covered(chain, rules))
  }

  /** The models are the ones the routes and aliases define. Nothing here depends on the order in which the
      alias hash maps are iterated. */
  ghost predicate Migrated(c: Catalog, routes: seq<seq<string>>) {
    forall name ::
      var chain := ChainOf(ById(c.providers), RouteIds(routes), name);
      match ModelAt(c, name)
      case None => chain == []
      case Some(i) => chain != [] && IsMigrated(c.models[i], chain, c.Rules())
  }

  /** `migrate_routes_once` */
  method MigrateRoutesOnce(store: MemoryCatalogStore, routes: seq<seq<string>>, now: int, firstId: Uuid)
    requires Inv(store.State())
    modifies store`models
    ensures Inv(store.State())
    ensures routes == [] || old(store.models) != [] ==> store.models == old(store.models)
    ensures routes != [] && old(store.models) == [] ==> Migrated(store.State(), routes)
  {
    if routes == [] || |store.models| > 0 {
      return;
    }
    var byId, rules := ById(store.providers), RulesOf(store.pricing);
    ghost var ids := RouteIds(routes);
    var chains, order := DeriveChains(byId, routes);
    var nextId: Uuid := firstId;
    for k := 0 to |order|
      invariant Inv(store.State())
      invariant store.providers == old(store.providers) && store.pricing == old(store.pricing)
      invariant |store.models| == k
      invariant forall i :: 0 <= i < k ==> store.models[i].name == order[i]
      invariant forall i :: 0 <= i < k ==> IsMigrated(store.models[i], ChainOf(byId, ids, order[i]), rules)
    {
      assert Holds(chains, order, order[k], ChainOf(byId, ids, order[k]));
      WriteModel(store, order[k], chains[order[k]], rules, ids, now, nextId);
      nextId := nextId + |chains[order[k]]|;
    }
    forall name { ModelsByName(store.State(), byId, ids, chains, order, name); }
  }

  lemma ModelsByName(c: Catalog, byId: ProviderIndex, ids: seq<string>, chains: Chains, order: seq<string>,
                     name: string)
    requires Derived(chains, order, byId, ids) && |c.models| == |order|
    requires forall i :: 0 <= i < |order| ==> c.models[i].name == order[i]
    ensures ModelAt(c, name).Some? <==> ChainOf(byId, ids, name) != []
    ensures ModelAt(c, name).Some? ==> order[ModelAt(c, name).value] == name
  {
    var at := ModelAt(c, name);
    assert Holds(chains, order, name, ChainOf(byId, ids, name));
    if at.Some? {
      assert order[at.value] in order;
    }
    forall i | 0 <= i < |order| && order[i] == name ensures at.Some? {
      assert c.models[i] in c.models;
    }
  }

  /** The store accepts a derived chain: its providers exist and none repeats. */
  lemma ChainFits(providers: seq<ProviderConfig>, ids: seq<string>, name: string)
    ensures var chain := ChainOf(ById(providers), ids, name);
            !Repeats(chain) && forall h :: h in chain ==> Known(providers, h.0)
  {
    var chain := ChainOf(ById(providers), ids, name);
    ChainMeaning(ById(providers), ids, name);
    forall h | h in chain ensures Known(providers, h.0) { ByIdKeys(providers, h.0); }
  }

  /** One derived model: created, given its chain, and enabled if all of it is priced. */
  method WriteModel(store: MemoryCatalogStore, name: string, chain: seq<Hop>, rules: seq<PricingConfig>,
                    ghost ids: seq<string>, now: int, firstId: Uuid)
    requires Inv(store.State()) && rules == RulesOf(store.pricing)
    requires chain == ChainOf(ById(store.providers), ids, name) && chain != []
    requires forall m :: m in store.models ==> m.name != name
    modifies store`models
    ensures Inv(store.State())
    ensures |store.models| == |old(store.models)| + 1 && old(store.models) <= store.models
    ensures var m := store.models[|old(store.models)|]; m.name == name && IsMigrated(m, chain, rules)
  {
    ghost var c := store.State();
    ChainFits(c.providers, ids, name);
    var ok := store.CreateModel(name, now);
    ghost var created := store.State();
    WithModelKeeps(c, name, now);
    var found: bool;
    ok, found := store.SetDeployments(name, chain, firstId);
    var model := ModelConfig(name, false, now, Deployments(chain, firstId));
    UncoveredMeaning(model, rules);
    CoveredMeaning(chain, firstId, rules);
    var enable := Uncovered(model, rules) == [];
    if enable {
      found := store.SetModelStatus(name, true);
    } else {
      StatusKept(c, name, now, chain, firstId);
    }
    ConfiguredOk(created, name, chain, enable, firstId);
    ConfiguredIs(created, name, chain, enable, firstId);
  }

  lemma CoveredMeaning(chain: seq<Hop>, firstId: Uuid, rules: seq<PricingConfig>)
    ensures FullyPriced(Deployments(chain, firstId), rules) <==> Covered(chain, rules)
  {
    var ds := Deployments(chain, firstId);
    if FullyPriced(ds, rules) {
      forall h | h in chain ensures RuleFor(rules, h.0, h.1).Some? {
        var i :| 0 <= i < |chain| && chain[i] == h;
        assert ds[i] in ds && ds[i].Hop() == h && Priced(rules, ds[i]);
      }
    }
    if Covered(chain, rules) {
      forall d | d in ds ensures Priced(rules, d) {
        var i :| 0 <= i < |ds| && ds[i] == d;
        assert d.Hop() == chain[i] && chain[i] in chain;
      }
    }
  }

  /** Whatever orders two migrations of the same file visited the aliases in, every model has the same chain
      and the same status in both. */
  lemma MigrationsAgree(a: Catalog, b: Catalog, routes: seq<seq<string>>, name: string)
    requires a.providers == b.providers && a.Rules() == b.Rules()
    requires Migrated(a, routes) && Migrated(b, routes)
    ensures ModelAt(a, name).Some? <==> ModelAt(b, name).Some?
    ensures ModelAt(a, name).Some? ==>
              var m, n := a.models[ModelAt(a, name).value], b.models[ModelAt(b, name).value];
              && m.enabled == n.enabled && |m.deployments| == |n.deployments| > 0
              && forall i :: 0 <= i < |m.deployments| ==> m.deployments[i].Hop() == n.deployments[i].Hop()
  {
    var chain := ChainOf(ById(a.providers), RouteIds(routes), name);
  }
}
