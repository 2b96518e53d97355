/** The live snapshot behind its swappable handle, and what file reloads, catalog refreshes and account changes
    make of it (src/reload.rs, `with_*` in src/state.rs). */
module Reload {
  import opened Basics
  import opened Catalog
  import opened Quota
  import opened Pricing
  import opened Gateway

  /** Key hash to identity. */
  type ApiKeys = map<nat, KeyIdentity>
  type Grants = map<Uuid, Money>

  /** The snapshot requests are served from. The upstream client and the recorder are handles. */
  datatype GatewayState = GatewayState(
    apiKeys: ApiKeys,
    granted: Grants,
    counter: MemoryCounter,
    upstream: nat,
    recorder: nat,
    routing: Routing)
  {
    function WithApiKeys(keys: ApiKeys): GatewayState { this.(apiKeys := keys) }

    function WithGranted(sums: Grants): GatewayState { this.(granted := sums) }

    function WithSpendCounter(spendCounter: MemoryCounter): GatewayState { this.(counter := spendCounter) }
  }

  /** `from_parts`: a fresh state knows no keys and no grants, and has a counter of its own. */
  method FromParts(uris: Uris, file: RetryConfig, catalog: CatalogSnapshot, upstream: nat, recorder: nat)
    returns (r: Option<GatewayState>)
    ensures r.Some? <==> Build(uris, file, catalog).Some?
    ensures r.Some? ==> fresh(r.value.counter)
                        && r.value == GatewayState(map[], map[], r.value.counter, upstream, recorder,
                                                   Build(uris, file, catalog).value)
  {
    var pricing := PricingMapOf(catalog.pricing);
    var providers := BuildProviderMap(uris, catalog.providers);
    if pricing.Err? || providers.None? {
      return None;
    }
    var models := BuildModelMap(catalog.models, providers.value);
    if models.None? || !GoodRetry(file) {
      return None;
    }
    var counter := new MemoryCounter();
    return Some(GatewayState(map[], map[], counter, upstream, recorder,
                             Routing(providers.value, models.value, pricing.value, PolicyOf(file))));
  }

  // --- histories ---

  /** Something that happens to the shared state. `file` is the config file's retry section as it is read at
      that moment, None if it cannot be read or parsed. */
  datatype Event =
    | StoreKeys(keys: ApiKeys)
    | StoreGrants(grants: Grants)
    | StoreCatalog(file: Option<RetryConfig>, catalog: CatalogSnapshot)
    | FileReload(file: Option<RetryConfig>)

  /** All events since boot, the latest outermost. */
  datatype History = Booted | Then(before: History, event: Event)

  /** What is live, apart from the handles that never change. */
  datatype View = View(catalog: CatalogSnapshot, routing: Routing, keys: ApiKeys, grants: Grants)

  /** What the process booted with. */
  datatype Boot = Boot(uris: Uris, file: RetryConfig, catalog: CatalogSnapshot, keys: ApiKeys, grants: Grants)
  {
    predicate Builds(f: Option<RetryConfig>, c: CatalogSnapshot) {
      f.Some? && Build(uris, f.value, c).Some?
    }

    /** The last catalog that was accepted. Whether one is accepted depends on nothing that came before. */
    function LastCatalog(h: History): CatalogSnapshot {
      match h
      case Booted => catalog
      case Then(before, StoreCatalog(f, c)) => if Builds(f, c) then c else LastCatalog(before)
      case Then(before, _) => LastCatalog(before)
    }

    /** Whether the event succeeds after the history. */
    predicate Succeeds(h: History, e: Event) {
      match e
      case StoreCatalog(f, c) => Builds(f, c)
      case FileReload(f) => Builds(f, LastCatalog(h))
      case _ => true
    }

    /** The file as read at the last successful rebuild. */
    function LastFile(h: History): RetryConfig {
      match h
      case Booted => file
      case Then(before, e) =>
        if (e.StoreCatalog? || e.FileReload?) && Succeeds(before, e) then e.file.value else LastFile(before)
    }

    function LastKeys(h: History): ApiKeys {
      match h
      case Booted => keys
      case Then(_, StoreKeys(k)) => k
      case Then(before, _) => LastKeys(before)
    }

    function LastGrants(h: History): Grants {
      match h
      case Booted => grants
      case Then(_, StoreGrants(g)) => g
      case Then(before, _) => LastGrants(before)
    }

    /** The live snapshot and the cached catalog are the ones the history leaves: the routing built from the last
        accepted catalog and the file as read at the last successful rebuild, the last stored keys and grants. */
    ghost predicate Describes(h: History, v: View) {
      && v.catalog == LastCatalog(h)
      && Build(uris, LastFile(h), LastCatalog(h)) == Some(v.routing)
      && v.keys == LastKeys(h)
      && v.grants == LastGrants(h)
    }

    /** Catalog and file may have been accepted at different times; together they always build. */
    lemma {:induction false} AlwaysLive(h: History)
      requires Build(uris, file, catalog).Some?
      ensures Build(uris, LastFile(h), LastCatalog(h)).Some?
    {
      if h.Then? { AlwaysLive(h.before); }
    }

    /** The history without the events that failed. */
    function Effective(h: History): History {
      match h
      case Booted => Booted
      case Then(before, e) => if Succeeds(before, e) then Then(Effective(before), e) else Effective(before)
    }

    /** Failures leave no trace. */
    lemma {:induction false} FailuresLeaveNoTrace(h: History)
      ensures LastCatalog(Effective(h)) == LastCatalog(h) && LastFile(Effective(h)) == LastFile(h)
      ensures LastKeys(Effective(h)) == LastKeys(h) && LastGrants(Effective(h)) == LastGrants(h)
    {
      if h.Then? { FailuresLeaveNoTrace(h.before); }
    }

    /** The history reduced to some kinds of events. */
    function Only(h: History, keep: Event -> bool): History {
      match h
      case Booted => Booted
      case Then(before, e) => if keep(e) then Then(Only(before, keep), e) else Only(before, keep)
    }

    /** Each part of what is live depends on its own events alone: keys survive every reload, catalog change and
        grant, grants survive every key change, a catalog depends on no file reload, and so on. */
    lemma {:induction false} PartsIndependent(h: History)
      ensures LastKeys(Only(h, (e: Event) => e.StoreKeys?)) == LastKeys(h)
      ensures LastGrants(Only(h, (e: Event) => e.StoreGrants?)) == LastGrants(h)
      ensures LastCatalog(Only(h, (e: Event) => e.StoreCatalog?)) == LastCatalog(h)
      ensures LastCatalog(Only(h, (e: Event) => e.StoreCatalog? || e.FileReload?)) == LastCatalog(h)
      ensures LastFile(Only(h, (e: Event) => e.StoreCatalog? || e.FileReload?)) == LastFile(h)
    {
      if h.Then? { PartsIndependent(h.before); }
    }
  }

  // --- the shared state ---

  class SharedGatewayState {
    var state: GatewayState
    var catalog: CatalogSnapshot
    const uris: Uris
    ghost const boot: Boot
    ghost const origin: GatewayState
    ghost var history: History

    ghost function Current(): View
      reads this
    {
      View(catalog, state.routing, state.apiKeys, state.granted)
    }

    /** What is live follows from the history, and the counter, the client and the recorder are those of boot. */
    ghost predicate Valid()
      reads this
    {
      && boot.uris == uris
      && boot.Describes(history, Current())
      && state.counter == origin.counter && state.upstream == origin.upstream && state.recorder == origin.recorder
    }

    constructor (uris: Uris, state: GatewayState, file: RetryConfig, catalog: CatalogSnapshot)
      requires Build(uris, file, catalog) == Some(state.routing)
      ensures Valid() && history == Booted && origin == state
      ensures boot == Boot(uris, file, catalog, state.apiKeys, state.granted)
    {
      this.uris, this.state, this.catalog := uris, state, catalog;
      boot, origin, history := Boot(uris, file, catalog, state.apiKeys, state.granted), state, Booted;
    }

    method StoreApiKeys(keys: ApiKeys)
      requires Valid()
      modifies this
      ensures Valid() && history == Then(old(history), StoreKeys(keys))
      ensures state == old(state).(apiKeys := keys) && catalog == old(catalog)
    {
      state := state.WithApiKeys(keys);
      history := Then(history, StoreKeys(keys));
    }

    method StoreGranted(grants: Grants)
      requires Valid()
      modifies this
      ensures Valid() && history == Then(old(history), StoreGrants(grants))
      ensures state == old(state).(granted := grants) && catalog == old(catalog)
    {
      state := state.WithGranted(grants);
      history := Then(history, StoreGrants(grants));
    }

    /** What both rebuilds do: a new state from the file and a catalog, carrying over everything the database and
        the process own. */
    method Rebuilt(file: Option<RetryConfig>, from: CatalogSnapshot) returns (next: Option<GatewayState>)
      ensures next.Some? <==> file.Some? && Build(uris, file.value, from).Some?
      ensures next.Some? ==> next.value == state.(routing := Build(uris, file.value, from).value)
    {
      if file.None? {
        return None;
      }
      var built := FromParts(uris, file.value, from, state.upstream, state.recorder);
      if built.None? {
        return None;
      }
      next := Some(built.value.WithApiKeys(state.apiKeys).WithGranted(state.granted).WithSpendCounter(state.counter));
    }

    /** Rebuilds from a new catalog; the previous snapshot keeps serving if that fails. */
    method StoreCatalog(file: Option<RetryConfig>, next: CatalogSnapshot) returns (ok: bool)
      requires Valid()
      modifies this
      ensures Valid() && history == Then(old(history), Event.StoreCatalog(file, next))
      ensures ok <==> file.Some? && Build(uris, file.value, next).Some?
      ensures ok == boot.Builds(file, next)
      ensures ok ==> state == old(state).(routing := Build(uris, file.value, next).value) && catalog == next
      ensures !ok ==> state == old(state) && catalog == old(catalog)
    {
      history := Then(history, Event.StoreCatalog(file, next));
      var rebuilt := Rebuilt(file, next);
      if rebuilt.None? {
        return false;
      }
      catalog := next;
      state := rebuilt.value;
      ok := true;
    }

    /** Re-reads the file; the cached catalog is laid over it. */
    method Reload(file: Option<RetryConfig>) returns (ok: bool)
      requires Valid()
      modifies this
      ensures Valid() && history == Then(old(history), FileReload(file))
      ensures ok <==> file.Some? && Build(uris, file.value, catalog).Some?
      ensures ok ==> state == old(state).(routing := Build(uris, file.value, catalog).value)
      ensures catalog == old(catalog) && (!ok ==> state == old(state))
    {
      history := Then(history, FileReload(file));
      var rebuilt := Rebuilt(file, catalog);
      if rebuilt.None? {
        return false;
      }
      state := rebuilt.value;
      ok := true;
    }
  }

  function After(h: History, run: seq<Event>): History {
    if run == [] then h else Then(After(h, run[..|run| - 1]), run[|run| - 1])
  }

  /** Any sequential run of stores and reloads, failing ones included. */
  method Replay(shared: SharedGatewayState, run: seq<Event>)
    requires shared.Valid()
    modifies shared
    ensures shared.Valid() && shared.history == After(old(shared.history), run)
  {
    for i := 0 to |run|
      invariant shared.Valid() && shared.history == After(old(shared.history), run[..i])
    {
      assert run[..i + 1][..i] == run[..i];
      Apply(shared, run[i]);
    }
    assert run[..|run|] == run;
  }

  method Apply(shared: SharedGatewayState, e: Event)
    requires shared.Valid()
    modifies shared
    ensures shared.Valid() && shared.history == Then(old(shared.history), e)
    ensures !e.StoreCatalog? ==> shared.catalog == old(shared.catalog)
  {
    var ok: bool;
    match e
    case StoreKeys(keys) => shared.StoreApiKeys(keys);
    case StoreGrants(grants) => shared.StoreGranted(grants);
    case StoreCatalog(file, catalog) => ok := shared.StoreCatalog(file, catalog);
    case FileReload(file) => ok := shared.Reload(file);
  }
}
