/** The admin handlers that change the catalog, and the invariant every run of them keeps
    (src/admin/catalog_api.rs, src/admin/models_api.rs). */
module CatalogApi {
  import opened Basics
  import opened Tokens
  import opened Pricing
  import opened Catalog
  import opened CatalogStore

  const MASK_PREFIX := "__MASKED__"

  datatype ProviderBody = ProviderBody(
    protocol: string,
    baseUrl: string,
    apiKey: string,
    anthropicVersion: Option<string>,
    aliases: map<string, string>)

  datatype PricingBody = PricingBody(
    provider: string,
    model: string,
    input: string,
    output: string,
    cachedInput: Option<string>,
    cacheRead: Option<string>,
    cacheWrite: Option<string>,
    currency: string,
    source: Option<string>)

  /** A request together with what the handler draws for it: ids and the current time. */
  datatype Request =
    | NewProvider(id: string, provider: ProviderBody)
    | EditProvider(id: string, provider: ProviderBody)
    | DropProvider(id: string)
    | NewRule(rule: PricingBody, ruleId: Uuid)
    | EditRule(ruleId: Uuid, rule: PricingBody)
    | DropRule(ruleId: Uuid)
    | NewModel(name: string, chain: seq<Hop>, enabled: bool, now: int, firstId: Uuid)
    | EditModel(name: string, chain: seq<Hop>, enabled: bool, firstId: Uuid)
    | DropModel(name: string)

  datatype Status = Created | Done | BadRequest | NotFound | Conflict
  {
    predicate Success() { Created? || Done? }
  }

  /** How `Decimal` reads a number; not part of this model. */
  type Decimals = string -> Option<Money>

  // --- building entries from bodies ---

  function ParseProtocol(value: string): Option<Protocol> {
    if value == "openai" || value == "open-ai" then Some(OpenAi)
    else if value == "anthropic" then Some(Anthropic)
    else None
  }

  /** `build_provider`: a masked key keeps the current one; None is a 400. */
  function BuildProvider(id: string, body: ProviderBody, currentKey: Option<string>): Option<ProviderConfig> {
    var protocol := ParseProtocol(body.protocol);
    var key := if MASK_PREFIX <= body.apiKey then currentKey else Some(body.apiKey);
    if protocol.None? || Blank(body.baseUrl) || key.None? || Blank(key.value) then None
    else Some(ProviderConfig(id, protocol.value, body.baseUrl, key.value, body.anthropicVersion, body.aliases))
  }

  function ParseRate(decimals: Decimals, value: string): Option<Money> {
    match decimals(value)
    case None => None
    case Some(rate) => if rate < 0.0 then None else Some(rate)
  }

  /** The outer None is a 400; a blank rate is an absent one. */
  function ParseOptionalRate(decimals: Decimals, value: Option<string>): Option<Option<Money>> {
    if value.None? || Blank(value.value) then Some(None)
    else match ParseRate(decimals, value.value) { case None => None case Some(rate) => Some(Some(rate)) }
  }

  /** `build_pricing` */
  function BuildRule(decimals: Decimals, body: PricingBody): Option<PricingConfig> {
    var currency := Trim(body.currency);
    var input, output := ParseRate(decimals, body.input), ParseRate(decimals, body.output);
    var cachedInput := ParseOptionalRate(decimals, body.cachedInput);
    var cacheRead := ParseOptionalRate(decimals, body.cacheRead);
    var cacheWrite := ParseOptionalRate(decimals, body.cacheWrite);
    if Blank(body.provider) || Blank(body.model) || !UppercaseCode(currency) then None
    else if input.None? || output.None? || cachedInput.None? || cacheRead.None? || cacheWrite.None? then None
    else Some(PricingConfig(body.provider, body.model, Pricing(
      input.value, output.value, cachedInput.value, cacheRead.value, cacheWrite.value, currency, body.source)))
  }

  /** Bytes of the UTF-8 encoding, which is what `str::len` counts. */
  function Utf8Len(s: string): nat {
    if s == "" then 0
    else
      var c := s[|s| - 1] as int;
      Utf8Len(s[..|s| - 1]) + if c < 0x80 then 1 else if c < 0x800 then 2 else if c < 0x1_0000 then 3 else 4
  }

  /** One byte for ASCII, two to U+07FF, three to U+FFFF, four beyond, for each character. */
  lemma {:induction false} Utf8LenMeaning(a: string, b: string, c: char)
    ensures Utf8Len(a + b) == Utf8Len(a) + Utf8Len(b)
    ensures Utf8Len([c]) ==
            if c as int <= 0x7F then 1 else if c as int <= 0x7FF then 2 else if c as int <= 0xFFFF then 3 else 4
  {
    assert [c][..0] == "";
    if b == "" {
      assert a + b == a;
    } else {
      assert (a + b)[..|a + b| - 1] == a + b[..|b| - 1];
      Utf8LenMeaning(a, b[..|b| - 1], c);
    }
  }

  predicate GoodName(name: string) {
    name != "" && Utf8Len(name) <= 200
  }

  function TrimHop(hop: Hop): Hop {
    (Trim(hop.0), Trim(hop.1))
  }

  /** One hop of a submitted chain is acceptable after the ones already resolved. */
  predicate HopOk(providers: seq<ProviderConfig>, resolved: seq<Hop>, hop: Hop) {
    && hop.0 != "" && hop.1 != ""
    && Position(providers, (p: ProviderConfig) => p.id == hop.0).Some?
    && Position(resolved, (h: Hop) => h.0 == hop.0).None?
  }

  /** `validate_deployments`: the trimmed chain, or None for a 400. */
  function Resolved(providers: seq<ProviderConfig>, chain: seq<Hop>): Option<seq<Hop>> {
    if chain == [] then Some([])
    else
      var init, hop := Resolved(providers, chain[..|chain| - 1]), TrimHop(chain[|chain| - 1]);
      if init.Some? && HopOk(providers, init.value, hop) then Some(init.value + [hop]) else None
  }

  /** `ensure_listable` passes */
  predicate Listable(hops: seq<Hop>, rules: seq<PricingConfig>) {
    hops != [] && Uncovered(ModelConfig("", true, 0, Deployments(hops, 0)), rules) == []
  }

  predicate GatePasses(models: seq<ModelConfig>, rules: seq<PricingConfig>) {
    forall i :: 0 <= i < |models| && models[i].enabled ==> Uncovered(models[i], rules) == []
  }

  // --- the handlers as steps ---

  function Handle(decimals: Decimals, c: Catalog, request: Request): (Catalog, Status) {
    match request
    case NewProvider(id, body) =>
      var provider := BuildProvider(Trim(id), body, None);
      if Trim(id) == "" || provider.None? then (c, BadRequest)
      else Stored(c, Upserted(c, provider.value, true), Created)
    case EditProvider(id, body) =>
      (match Position(c.providers, (p: ProviderConfig) => p.id == id)
       case None => (c, NotFound)
       case Some(at) =>
         var provider := BuildProvider(id, body, Some(c.providers[at].apiKey));
         if provider.None? then (c, BadRequest) else Stored(c, Upserted(c, provider.value, false), Done))
    case DropProvider(id) =>
      if Position(c.models, (m: ModelConfig) => Uses(m, id)).Some? then (c, Conflict)
      else if Position(c.providers, (p: ProviderConfig) => p.id == id).None? then (c, NotFound)
      else (WithoutProvider(c, id), Done)
    case NewRule(body, ruleId) =>
      var rule := BuildRule(decimals, body);
      if rule.None? then (c, BadRequest) else Stored(c, WithRule(c, ruleId, rule.value), Created)
    case EditRule(ruleId, body) =>
      var rule := BuildRule(decimals, body);
      if rule.None? then (c, BadRequest)
      else if !GatePasses(c.models, RulesOf(Candidate(c, ruleId, rule.value))) then (c, Conflict)
      else if RuleAt(c, ruleId).None? && !PairTakenByOther(c, ruleId, rule.value) then (c, NotFound)
      else Stored(c, Repriced(c, ruleId, rule.value), Done)
    case DropRule(ruleId) =>
      if !GatePasses(c.models, WithoutRule(c, ruleId).Rules()) then (c, Conflict)
      else if RuleAt(c, ruleId).None? then (c, NotFound)
      else (WithoutRule(c, ruleId), Done)
    case NewModel(name, chain, enabled, now, firstId) =>
      var hops := Resolved(c.providers, chain);
      if !GoodName(Trim(name)) || hops.None? then (c, BadRequest)
      else if enabled && !Listable(hops.value, c.Rules()) then (c, Conflict)
      else
        (match WithModel(c, Trim(name), now)
         case None => (c, Conflict)
         case Some(d) => (Configured(d, Trim(name), hops.value, enabled, firstId), Created))
    case EditModel(name, chain, enabled, firstId) =>
      var hops := Resolved(c.providers, chain);
      if ModelAt(c, name).None? then (c, NotFound)
      else if hops.None? then (c, BadRequest)
      else if enabled && !Listable(hops.value, c.Rules()) then (c, Conflict)
      else (Configured(c, name, hops.value, enabled, firstId), Done)
    case DropModel(name) =>
      if ModelAt(c, name).None? then (c, NotFound) else (WithoutModel(c, name), Done)
  }

  function Stored(c: Catalog, after: Option<Catalog>, status: Status): (Catalog, Status) {
    match after
    case None => (c, Conflict)
    case Some(d) => (d, status)
  }

  // --- what the checks mean ---

  /** Apart from white space at the ends, no name is empty, every provider exists and none is listed twice. */
  ghost predicate ValidChain(providers: seq<ProviderConfig>, chain: seq<Hop>) {
    && (forall hop :: hop in chain ==> Trim(hop.0) != "" && Trim(hop.1) != "" && Known(providers, Trim(hop.0)))
    && (forall i, j :: 0 <= i < j < |chain| ==> Trim(chain[i].0) != Trim(chain[j].0))
  }

  lemma {:induction false} ResolvedMeaning(providers: seq<ProviderConfig>, chain: seq<Hop>)
    ensures Resolved(providers, chain).Some? <==> ValidChain(providers, chain)
    ensures var r := Resolved(providers, chain);
            r.Some? ==> |r.value| == |chain| && forall i :: 0 <= i < |chain| ==> r.value[i] == TrimHop(chain[i])
  {
    if chain != [] {
      var n := |chain| - 1;
      var init, last := chain[..n], chain[n];
      assert chain == init + [last];
      ResolvedMeaning(providers, init);
      ValidSnoc(providers, init, last);
      if Resolved(providers, init).Some? {
        HopOkMeaning(providers, init, Resolved(providers, init).value, last);
      }
    }
  }

  ghost predicate ValidNext(providers: seq<ProviderConfig>, init: seq<Hop>, last: Hop) {
    && Trim(last.0) != "" && Trim(last.1) != "" && Known(providers, Trim(last.0))
    && forall i :: 0 <= i < |init| ==> Trim(init[i].0) != Trim(last.0)
  }

  lemma ValidSnoc(providers: seq<ProviderConfig>, init: seq<Hop>, last: Hop)
    ensures ValidChain(providers, init + [last]) <==> ValidChain(providers, init) && ValidNext(providers, init, last)
  {
    var chain := init + [last];
    if ValidChain(providers, chain) {
      assert chain[|init|] in chain;
      forall hop | hop in init ensures hop in chain {}
      forall i, j | 0 <= i < j < |init| ensures Trim(init[i].0) != Trim(init[j].0) {
        assert chain[i] == init[i] && chain[j] == init[j];
      }
      forall i | 0 <= i < |init| ensures Trim(init[i].0) != Trim(last.0) {
        assert chain[i] == init[i] && chain[|init|] == last;
      }
    }
  }

  lemma HopOkMeaning(providers: seq<ProviderConfig>, init: seq<Hop>, resolved: seq<Hop>, last: Hop)
    requires |resolved| == |init| && forall i :: 0 <= i < |init| ==> resolved[i] == TrimHop(init[i])
    ensures HopOk(providers, resolved, TrimHop(last)) <==> ValidNext(providers, init, last)
  {
    var at := Position(providers, (p: ProviderConfig) => p.id == Trim(last.0));
    assert at.Some? ==> providers[at.value] in providers;
    var dup := Position(resolved, (h: Hop) => h.0 == Trim(last.0));
    if dup.None? {
      forall i | 0 <= i < |init| ensures Trim(init[i].0) != Trim(last.0) {
        assert resolved[i] in resolved;
      }
    }
  }

  lemma ListableMeaning(hops: seq<Hop>, rules: seq<PricingConfig>, firstId: Uuid)
    ensures Listable(hops, rules) <==> hops != [] && FullyPriced(Deployments(hops, firstId), rules)
  {
    UncoveredMeaning(ModelConfig("", true, 0, Deployments(hops, 0)), rules);
    SameHopsSameCoverage(Deployments(hops, 0), Deployments(hops, firstId), rules);
    SameHopsSameCoverage(Deployments(hops, firstId), Deployments(hops, 0), rules);
  }

  lemma SameHopsSameCoverage(a: seq<DeploymentConfig>, b: seq<DeploymentConfig>, rules: seq<PricingConfig>)
    requires |a| == |b| && forall i :: 0 <= i < |a| ==> a[i].Hop() == b[i].Hop()
    ensures FullyPriced(a, rules) ==> FullyPriced(b, rules)
  {
    if FullyPriced(a, rules) {
      forall d | d in b ensures Priced(rules, d) {
        var i :| 0 <= i < |b| && b[i] == d;
        assert a[i] in a && a[i].Hop() == b[i].Hop();
      }
    }
  }

  lemma GateMeaning(c: Catalog, rules: seq<PricingConfig>)
    ensures GatePasses(c.models, rules) <==> GateHolds(c, rules)
  {
    forall i | 0 <= i < |c.models|
      ensures Uncovered(c.models[i], rules) == [] <==> FullyPriced(c.models[i].deployments, rules)
    {
      UncoveredMeaning(c.models[i], rules);
    }
    if GateHolds(c, rules) {
      forall i | 0 <= i < |c.models| && c.models[i].enabled ensures Uncovered(c.models[i], rules) == [] {
        assert c.models[i] in c.models;
      }
    }
  }

  // --- the invariant ---

  lemma NoRepeats(providers: seq<ProviderConfig>, chain: seq<Hop>)
    requires Resolved(providers, chain).Some?
    ensures !Repeats(Resolved(providers, chain).value)
  {
    ResolvedMeaning(providers, chain);
    var hops := Resolved(providers, chain).value;
    forall i, j | 0 <= i < j < |hops| ensures hops[i].0 != hops[j].0 {
      assert hops[i] == TrimHop(chain[i]) && hops[j] == TrimHop(chain[j]);
    }
  }

  /** A chain that passed validation, set on a model that exists, together with a status the gate agreed to. */
  lemma ConfiguredKeeps(c: Catalog, name: string, chain: seq<Hop>, enabled: bool, firstId: Uuid)
    requires Inv(c) && ModelAt(c, name).Some? && Resolved(c.providers, chain).Some?
    requires enabled ==> Listable(Resolved(c.providers, chain).value, c.Rules())
    ensures var hops := Resolved(c.providers, chain).value;
            var i := ModelAt(c, name).value;
            && Configured(c, name, hops, enabled, firstId)
               == c.(models := c.models[i :=
                    c.models[i].(enabled := enabled, deployments := Deployments(hops, firstId))])
            && Inv(Configured(c, name, hops, enabled, firstId))
  {
    var hops := Resolved(c.providers, chain).value;
    ResolvedMeaning(c.providers, chain);
    NoRepeats(c.providers, chain);
    forall h | h in hops ensures Known(c.providers, h.0) {
      var j :| 0 <= j < |hops| && hops[j] == h;
      assert h == TrimHop(chain[j]) && chain[j] in chain;
    }
    if enabled { ListableMeaning(hops, c.Rules(), firstId); }
    ConfiguredOk(c, name, hops, enabled, firstId);
    ConfiguredIs(c, name, hops, enabled, firstId);
  }

  lemma ProviderHandlerKeeps(decimals: Decimals, c: Catalog, request: Request)
    requires Inv(c) && (request.NewProvider? || request.EditProvider? || request.DropProvider?)
    ensures Inv(Handle(decimals, c, request).0)
  {
    match request
    case NewProvider(id, body) =>
      var provider := BuildProvider(Trim(id), body, None);
      if provider.Some? && Upserted(c, provider.value, true).Some? { UpsertKeeps(c, provider.value, true); }
    case EditProvider(id, body) =>
      var at := Position(c.providers, (p: ProviderConfig) => p.id == id);
      if at.Some? {
        var provider := BuildProvider(id, body, Some(c.providers[at.value].apiKey));
        if provider.Some? { UpsertKeeps(c, provider.value, false); }
      }
    case DropProvider(id) =>
      if Position(c.models, (m: ModelConfig) => Uses(m, id)).None? { UnusedProviderKeeps(c, id); }
  }

  lemma RuleHandlerKeeps(decimals: Decimals, c: Catalog, request: Request)
    requires Inv(c) && (request.NewRule? || request.EditRule? || request.DropRule?)
    requires request.NewRule? ==> FreshRuleId(c, request.ruleId)
    ensures Inv(Handle(decimals, c, request).0)
  {
    match request
    case NewRule(body, ruleId) =>
      var rule := BuildRule(decimals, body);
      if rule.Some? && WithRule(c, ruleId, rule.value).Some? { WithRuleKeeps(c, ruleId, rule.value); }
    case EditRule(ruleId, body) =>
      var rule := BuildRule(decimals, body);
      if rule.Some? {
        GateMeaning(c, RulesOf(Candidate(c, ruleId, rule.value)));
        if GatePasses(c.models, RulesOf(Candidate(c, ruleId, rule.value))) && Repriced(c, ruleId, rule.value).Some? {
          RepricedKeeps(c, ruleId, rule.value);
        }
      }
    case DropRule(ruleId) =>
      GateMeaning(c, WithoutRule(c, ruleId).Rules());
      if GatePasses(c.models, WithoutRule(c, ruleId).Rules()) { WithoutRuleKeeps(c, ruleId); }
  }

  lemma ModelHandlerKeeps(decimals: Decimals, c: Catalog, request: Request)
    requires Inv(c) && (request.NewModel? || request.EditModel? || request.DropModel?)
    ensures Inv(Handle(decimals, c, request).0)
  {
    match request
    case NewModel(name, chain, enabled, now, firstId) =>
      var d := WithModel(c, Trim(name), now);
      if Handle(decimals, c, request).1 == Created {
        WithModelKeeps(c, Trim(name), now);
        ConfiguredKeeps(d.value, Trim(name), chain, enabled, firstId);
      }
    case EditModel(name, chain, enabled, firstId) =>
      if Handle(decimals, c, request).1 == Done { ConfiguredKeeps(c, name, chain, enabled, firstId); }
    case DropModel(name) =>
      WithoutModelKeeps(c, name);
  }

  /** Every handler keeps the catalog's invariant, whatever it is sent. */
  lemma HandlerKeeps(decimals: Decimals, c: Catalog, request: Request)
    requires Inv(c) && (request.NewRule? ==> FreshRuleId(c, request.ruleId))
    ensures Inv(Handle(decimals, c, request).0)
  {
    if request.NewProvider? || request.EditProvider? || request.DropProvider? {
      ProviderHandlerKeeps(decimals, c, request);
    } else if request.NewRule? || request.EditRule? || request.DropRule? {
      RuleHandlerKeeps(decimals, c, request);
    } else {
      ModelHandlerKeeps(decimals, c, request);
    }
  }

  // --- runs ---

  /** New rules draw ids no rule has. */
  ghost predicate FreshIds(decimals: Decimals, c: Catalog, requests: seq<Request>)
    decreases |requests|
  {
    if requests == [] then true
    else
      && (requests[0].NewRule? ==> FreshRuleId(c, requests[0].ruleId))
      && FreshIds(decimals, Handle(decimals, c, requests[0]).0, requests[1..])
  }

  function Run(decimals: Decimals, c: Catalog, requests: seq<Request>): Catalog
    decreases |requests|
  {
    if requests == [] then c else Run(decimals, Handle(decimals, c, requests[0]).0, requests[1..])
  }

  lemma {:induction false} RunKeeps(decimals: Decimals, c: Catalog, requests: seq<Request>)
    requires Inv(c) && FreshIds(decimals, c, requests)
    ensures Inv(Run(decimals, c, requests))
    decreases |requests|
  {
    if requests != [] {
      HandlerKeeps(decimals, c, requests[0]);
      RunKeeps(decimals, Handle(decimals, c, requests[0]).0, requests[1..]);
    }
  }

  /** The only rule id a request brings in is the one it draws. */
  lemma HandlerIds(decimals: Decimals, c: Catalog, request: Request, used: set<Uuid>)
    requires forall r :: r in c.pricing ==> r.id in used
    ensures forall r :: r in Handle(decimals, c, request).0.pricing ==>
              r.id in used || (request.NewRule? && r.id == request.ruleId)
  {
    match request
    case EditRule(ruleId, body) =>
      var rule := BuildRule(decimals, body);
      if rule.Some? && RuleAt(c, ruleId).Some? {
        var i := RuleAt(c, ruleId).value;
        assert c.pricing[i] in c.pricing;
        UpdateMembers(c.pricing, i, PricingRecord(ruleId, rule.value));
      }
    case DropRule(ruleId) =>
      FilterMembers(c.pricing, (r: PricingRecord) => r.id != ruleId);
    case _ =>
  }

  // --- what the handlers achieve ---

  /** A refused request leaves the catalog as it was. */
  lemma RefusalChangesNothing(decimals: Decimals, c: Catalog, request: Request)
    requires !Handle(decimals, c, request).1.Success()
    ensures Handle(decimals, c, request).0 == c
  {
  }

  /** A rule is created exactly when its body is good and its pair is new; the submitted rates end up in the
      fields they were submitted for. */
  lemma NewRuleOutcome(decimals: Decimals, c: Catalog, body: PricingBody, ruleId: Uuid)
    ensures var rule := BuildRule(decimals, body);
            var (d, status) := Handle(decimals, c, NewRule(body, ruleId));
            && (rule.Some? <==> GoodRule(decimals, body))
            && (status == BadRequest <==> rule.None?)
            && (status == Created <==>
                  rule.Some? && forall r :: r in c.pricing ==> r.config.Pair() != (body.provider, body.model))
            && (status == Created ==>
                  && d == c.(pricing := c.pricing + [PricingRecord(ruleId, rule.value)])
                  && rule.value.provider == body.provider && rule.value.model == body.model
                  && Rated(decimals, body, rule.value.pricing))
            && (status.Created? || status.BadRequest? || status.Conflict?)
  {
    var rule := BuildRule(decimals, body);
    if rule.Some? {
      var at := Position(c.pricing, (r: PricingRecord) => r.config.Pair() == rule.value.Pair());
      assert at.Some? ==> c.pricing[at.value] in c.pricing;
    }
  }

  /** Provider and model are named, the currency is three upper-case letters, and every rate is a number not below
      zero; the cache rates may be missing or blank. */
  ghost predicate GoodRule(decimals: Decimals, body: PricingBody) {
    && !Blank(body.provider) && !Blank(body.model)
    && |Trim(body.currency)| == 3 && (forall c :: c in Trim(body.currency) ==> 'A' <= c <= 'Z')
    && GoodRate(decimals, body.input) && GoodRate(decimals, body.output)
    && (body.cachedInput.Some? ==> Blank(body.cachedInput.value) || GoodRate(decimals, body.cachedInput.value))
    && (body.cacheRead.Some? ==> Blank(body.cacheRead.value) || GoodRate(decimals, body.cacheRead.value))
    && (body.cacheWrite.Some? ==> Blank(body.cacheWrite.value) || GoodRate(decimals, body.cacheWrite.value))
  }

  predicate GoodRate(decimals: Decimals, text: string) {
    decimals(text).Some? && decimals(text).value >= 0.0
  }

  /** The rates are those of the body, none of them negative; a blank or missing one is absent. */
  predicate Rated(decimals: Decimals, body: PricingBody, p: Pricing) {
    && decimals(body.input) == Some(p.input) && decimals(body.output) == Some(p.output)
    && OptionallyRated(decimals, body.cachedInput, p.cachedInput)
    && OptionallyRated(decimals, body.cacheRead, p.cacheRead)
    && OptionallyRated(decimals, body.cacheWrite, p.cacheWrite)
    && p.currency == Trim(body.currency) && p.source == body.source && NonNegativeRates(p)
  }

  predicate OptionallyRated(decimals: Decimals, text: Option<string>, rate: Option<Money>) {
    if text.None? || Blank(text.value) then rate.None? else rate.Some? && decimals(text.value) == rate
  }

  /** Deleting a model removes that model and no other. */
  lemma DropModelOutcome(decimals: Decimals, c: Catalog, name: string)
    ensures var (d, status) := Handle(decimals, c, DropModel(name));
            && status == (if exists m :: m in c.models && m.name == name then Done else NotFound)
            && d == c.(models := d.models) && forall m :: m in d.models <==> m in c.models && m.name != name
  {
    FilterMembers(c.models, (m: ModelConfig) => m.name != name);
    var at := ModelAt(c, name);
    assert at.Some? ==> c.models[at.value] in c.models;
  }

  /** Every deployment of an enabled model is covered by a rule other than `id`, or by `extra`. */
  ghost predicate StaysPriced(c: Catalog, id: Uuid, extra: Option<PricingConfig>) {
    forall m, d :: m in c.models && m.enabled && d in m.deployments ==> CoveredElse(c.pricing, id, extra, d)
  }

  ghost predicate CoveredElse(rules: seq<PricingRecord>, id: Uuid, extra: Option<PricingConfig>, d: DeploymentConfig) {
    || (exists r :: r in rules && r.id != id && Covers(r.config, d.providerId, d.upstreamModel))
    || (extra.Some? && Covers(extra.value, d.providerId, d.upstreamModel))
  }

  lemma CoveredElseMeaning(rules: seq<PricingRecord>, id: Uuid, extra: Option<PricingConfig>, left: seq<PricingRecord>,
                           d: DeploymentConfig)
    requires forall r :: r in left <==>
               (r in rules && r.id != id) || (extra.Some? && r == PricingRecord(id, extra.value))
    ensures Priced(RulesOf(left), d) <==> CoveredElse(rules, id, extra, d)
  {
    CoverageMeaning(RulesOf(left), d.providerId, d.upstreamModel);
    if Priced(RulesOf(left), d) {
      var rule :| rule in RulesOf(left) && Covers(rule, d.providerId, d.upstreamModel);
      RulesMembers(left, rule);
      var r :| r in left && r.config == rule;
    }
    if r :| r in rules && r.id != id && Covers(r.config, d.providerId, d.upstreamModel) {
      RulesMembers(left, r.config);
      assert r in left;
    }
    if extra.Some? && Covers(extra.value, d.providerId, d.upstreamModel) {
      RulesMembers(left, extra.value);
      assert PricingRecord(id, extra.value) in left;
    }
  }

  lemma StaysPricedMeaning(c: Catalog, id: Uuid, extra: Option<PricingConfig>, left: seq<PricingRecord>)
    requires forall r :: r in left <==>
               (r in c.pricing && r.id != id) || (extra.Some? && r == PricingRecord(id, extra.value))
    ensures GateHolds(c, RulesOf(left)) <==> StaysPriced(c, id, extra)
  {
    forall d: DeploymentConfig ensures Priced(RulesOf(left), d) <==> CoveredElse(c.pricing, id, extra, d) {
      CoveredElseMeaning(c.pricing, id, extra, left, d);
    }
    if GateHolds(c, RulesOf(left)) {
      forall m, d | m in c.models && m.enabled && d in m.deployments ensures CoveredElse(c.pricing, id, extra, d) {
        assert FullyPriced(m.deployments, RulesOf(left));
      }
    }
  }

  /** A rule no enabled model misses because it does not exist. */
  lemma MissingRuleStaysPriced(c: Catalog, id: Uuid, extra: Option<PricingConfig>)
    requires Inv(c) && FreshRuleId(c, id)
    ensures StaysPriced(c, id, extra)
  {
    forall m, d | m in c.models && m.enabled && d in m.deployments ensures CoveredElse(c.pricing, id, extra, d) {
      assert ModelOk(m, c.providers, c.Rules()) && Priced(c.Rules(), d);
      CoveredElseMeaning(c.pricing, id, None, c.pricing, d);
    }
  }

  lemma RuleAtMeaning(c: Catalog, id: Uuid)
    ensures RuleAt(c, id).Some? <==> exists r :: r in c.pricing && r.id == id
  {
    var at := RuleAt(c, id);
    if at.Some? { assert c.pricing[at.value] in c.pricing; }
  }

  /** A rule can be deleted exactly when it exists and every enabled model stays priced without it; the other rules,
      and nothing else, remain. */
  lemma DropRuleOutcome(decimals: Decimals, c: Catalog, ruleId: Uuid)
    requires Inv(c)
    ensures var (d, status) := Handle(decimals, c, DropRule(ruleId));
            && (status == Done <==>
                  (exists r :: r in c.pricing && r.id == ruleId) && StaysPriced(c, ruleId, None))
            && (status == NotFound <==> FreshRuleId(c, ruleId))
            && (status.Done? || status.NotFound? || status.Conflict?)
            && (status == Done ==> d == c.(pricing := d.pricing)
                                   && forall r :: r in d.pricing <==> r in c.pricing && r.id != ruleId)
  {
    var left := WithoutRule(c, ruleId).pricing;
    GateMeaning(c, RulesOf(left));
    FilterMembers(c.pricing, (r: PricingRecord) => r.id != ruleId);
    StaysPricedMeaning(c, ruleId, None, left);
    RuleAtMeaning(c, ruleId);
    if FreshRuleId(c, ruleId) { MissingRuleStaysPriced(c, ruleId, None); }
  }

  /** No rule but this one is for the pair. */
  ghost predicate PairFree(c: Catalog, id: Uuid, provider: string, model: string) {
    forall r :: r in c.pricing && r.id != id ==> r.config.provider != provider || r.config.model != model
  }

  /** A rule is edited exactly when its body is good, it exists, no other rule is for its new pair, and every enabled
      model is priced by the other rules and the new one; that one rule changes. A rule that keeps its pair is never
      in its own way. */
  lemma EditRuleOutcome(decimals: Decimals, c: Catalog, ruleId: Uuid, body: PricingBody)
    requires Inv(c)
    ensures var rule := BuildRule(decimals, body);
            var (d, status) := Handle(decimals, c, EditRule(ruleId, body));
            && (status == BadRequest <==> rule.None?)
            && (status == Done <==>
                  && rule.Some? && (exists r :: r in c.pricing && r.id == ruleId)
                  && PairFree(c, ruleId, body.provider, body.model) && StaysPriced(c, ruleId, rule))
            && (status == NotFound <==>
                  rule.Some? && FreshRuleId(c, ruleId) && PairFree(c, ruleId, body.provider, body.model))
            && (status == Done ==> d == c.(pricing := d.pricing)
                                   && forall r :: r in d.pricing <==>
                                        r == PricingRecord(ruleId, rule.value) || (r in c.pricing && r.id != ruleId))
  {
    if BuildRule(decimals, body).Some? {
      EditRuleEffect(decimals, c, ruleId, body);
      EditRuleWhen(decimals, c, ruleId, body);
    }
  }

  lemma EditRuleEffect(decimals: Decimals, c: Catalog, ruleId: Uuid, body: PricingBody)
    requires Inv(c) && BuildRule(decimals, body).Some?
    ensures var (d, status) := Handle(decimals, c, EditRule(ruleId, body));
            status == Done ==>
              && d == c.(pricing := d.pricing)
              && forall r :: r in d.pricing <==>
                   r == PricingRecord(ruleId, BuildRule(decimals, body).value) || (r in c.pricing && r.id != ruleId)
  {
    var at := RuleAt(c, ruleId);
    if at.Some? { EditedMembers(c, at.value, PricingRecord(ruleId, BuildRule(decimals, body).value)); }
  }

  lemma PairFreeMeaning(c: Catalog, id: Uuid, rule: PricingConfig)
    ensures PairTakenByOther(c, id, rule) <==> !PairFree(c, id, rule.provider, rule.model)
  {
    var at := Position(c.pricing, (r: PricingRecord) => r.id != id && r.config.Pair() == rule.Pair());
    if at.Some? { assert c.pricing[at.value] in c.pricing; }
  }

  lemma CandidateMembers(c: Catalog, id: Uuid, rule: PricingConfig)
    ensures forall r :: r in Candidate(c, id, rule) <==> (r in c.pricing && r.id != id) || r == PricingRecord(id, rule)
  {
    FilterMembers(c.pricing, (r: PricingRecord) => r.id != id);
  }

  lemma EditRuleWhen(decimals: Decimals, c: Catalog, ruleId: Uuid, body: PricingBody)
    requires Inv(c) && BuildRule(decimals, body).Some?
    ensures var rule := BuildRule(decimals, body);
            var status := Handle(decimals, c, EditRule(ruleId, body)).1;
            && (status == Done <==>
                  && (exists r :: r in c.pricing && r.id == ruleId)
                  && PairFree(c, ruleId, body.provider, body.model) && StaysPriced(c, ruleId, rule))
            && (status == NotFound <==> FreshRuleId(c, ruleId) && PairFree(c, ruleId, body.provider, body.model))
            && status != BadRequest
  {
    var rule := BuildRule(decimals, body).value;
    var candidate := Candidate(c, ruleId, rule);
    GateMeaning(c, RulesOf(candidate));
    CandidateMembers(c, ruleId, rule);
    StaysPricedMeaning(c, ruleId, Some(rule), candidate);
    RuleAtMeaning(c, ruleId);
    PairFreeMeaning(c, ruleId, rule);
    if FreshRuleId(c, ruleId) { MissingRuleStaysPriced(c, ruleId, Some(rule)); }
  }

  lemma EditedMembers(c: Catalog, i: nat, x: PricingRecord)
    requires Inv(c) && i < |c.pricing| && c.pricing[i].id == x.id
    ensures forall r :: r in c.pricing[i := x] <==> r == x || (r in c.pricing && r.id != x.id)
  {
    UpdateMembers(c.pricing, i, x);
    forall r | r in c.pricing[i := x] && r != x ensures r in c.pricing && r.id != x.id {
      var j :| 0 <= j < |c.pricing| && c.pricing[i := x][j] == r;
      assert if j < i then OtherRule(c.pricing[j], c.pricing[i]) else OtherRule(c.pricing[i], c.pricing[j]);
    }
  }

  /** The names a protocol goes by. */
  lemma ProtocolNames(value: string)
    ensures ParseProtocol(value) == Some(OpenAi) <==> value == "openai" || value == "open-ai"
    ensures ParseProtocol(value) == Some(Anthropic) <==> value == "anthropic"
  {
  }

  /** A provider body that can be stored, when a masked key stands for this one. */
  predicate Storable(body: ProviderBody, storedKey: string) {
    && ParseProtocol(body.protocol).Some? && !Blank(body.baseUrl)
    && !Blank(if MASK_PREFIX <= body.apiKey then storedKey else body.apiKey)
  }

  /** The provider a body describes, under this key. */
  ghost predicate Describes(p: ProviderConfig, id: string, body: ProviderBody, key: string) {
    && p.id == id && p.baseUrl == body.baseUrl && p.aliases == body.aliases && p.apiKey == key
    && Some(p.protocol) == ParseProtocol(body.protocol) && p.anthropicVersion == body.anthropicVersion
  }

  /** A provider is created exactly when its body is good, with a key of its own, and its id, trimmed, is new. */
  lemma NewProviderOutcome(decimals: Decimals, c: Catalog, id: string, body: ProviderBody)
    ensures var (d, status) := Handle(decimals, c, NewProvider(id, body));
            && (status == BadRequest <==> Trim(id) == "" || !Storable(body, ""))
            && (status == Conflict <==> Trim(id) != "" && Storable(body, "") && Known(c.providers, Trim(id)))
            && (status.BadRequest? || status.Conflict? || status.Created?)
            && (status == Created ==>
                  && d == c.(providers := d.providers) && |d.providers| == |c.providers| + 1
                  && c.providers <= d.providers && Describes(d.providers[|c.providers|], Trim(id), body, body.apiKey))
  {
    var at := Position(c.providers, (p: ProviderConfig) => p.id == Trim(id));
    assert at.Some? ==> c.providers[at.value] in c.providers;
  }

  /** A provider can be edited exactly when it exists and the body is good with its stored key. That replaces the one
      provider of the id; a masked key means the stored one. */
  lemma EditProviderOutcome(decimals: Decimals, c: Catalog, id: string, body: ProviderBody)
    requires Inv(c)
    ensures var (d, status) := Handle(decimals, c, EditProvider(id, body));
            && (status == NotFound <==> !Known(c.providers, id))
            && (status == Done <==> exists p :: p in c.providers && p.id == id && Storable(body, p.apiKey))
            && (status.NotFound? || status.Done? || status.BadRequest?)
            && (status == Done ==>
                  && d == c.(providers := d.providers) && |d.providers| == |c.providers|
                  && forall i :: 0 <= i < |c.providers| ==>
                       var p, q := c.providers[i], d.providers[i];
                       if p.id == id then
                         Describes(q, id, body, if MASK_PREFIX <= body.apiKey then p.apiKey else body.apiKey)
                       else q == p)
  {
    var at := Position(c.providers, (p: ProviderConfig) => p.id == id);
    if at.Some? {
      assert c.providers[at.value] in c.providers;
      forall i | 0 <= i < |c.providers| && c.providers[i].id == id ensures i == at.value {
        assert i == at.value || (if i < at.value then OtherProvider(c.providers[i], c.providers[at.value])
                                 else OtherProvider(c.providers[at.value], c.providers[i]));
      }
    }
  }

  /** A provider can be deleted exactly when it exists and no chain names it. */
  lemma DropProviderOutcome(decimals: Decimals, c: Catalog, id: string)
    ensures var (d, status) := Handle(decimals, c, DropProvider(id));
            && (status == Conflict <==> exists m, h :: m in c.models && h in m.deployments && h.providerId == id)
            && (status == NotFound <==>
                  && !Known(c.providers, id)
                  && forall m, h :: m in c.models && h in m.deployments ==> h.providerId != id)
            && (status.Conflict? || status.NotFound? || status.Done?)
            && (status == Done ==> d == c.(providers := d.providers)
                                   && forall p :: p in d.providers <==> p in c.providers && p.id != id)
  {
    FilterMembers(c.providers, (p: ProviderConfig) => p.id != id);
    forall m ensures Uses(m, id) <==> exists h :: h in m.deployments && h.providerId == id { UsesMeaning(m, id); }
    var user := Position(c.models, (m: ModelConfig) => Uses(m, id));
    assert user.Some? ==> c.models[user.value] in c.models;
    var at := Position(c.providers, (p: ProviderConfig) => p.id == id);
    assert at.Some? ==> c.providers[at.value] in c.providers;
  }

  /** The model a successful request leaves behind: the trimmed chain, in order, under the requested status. */
  ghost predicate IsConfigured(m: ModelConfig, name: string, chain: seq<Hop>, enabled: bool, createdAt: int) {
    && m.name == name && m.enabled == enabled && m.createdAt == createdAt
    && |m.deployments| == |chain|
    && forall i :: 0 <= i < |chain| ==> m.deployments[i].Hop() == TrimHop(chain[i])
  }

  /** The chain could be served: it has a hop and every hop is covered by a rule, wildcards counting. */
  ghost predicate ChainPriced(chain: seq<Hop>, rules: seq<PricingConfig>) {
    chain != [] && forall hop :: hop in chain ==> RuleFor(rules, Trim(hop.0), Trim(hop.1)).Some?
  }

  lemma ChainPricedMeaning(providers: seq<ProviderConfig>, chain: seq<Hop>, rules: seq<PricingConfig>)
    requires Resolved(providers, chain).Some?
    ensures Listable(Resolved(providers, chain).value, rules) <==> ChainPriced(chain, rules)
  {
    var hops := Resolved(providers, chain).value;
    ResolvedMeaning(providers, chain);
    ListableMeaning(hops, rules, 0);
    var ds := Deployments(hops, 0);
    if FullyPriced(ds, rules) {
      forall hop | hop in chain ensures RuleFor(rules, Trim(hop.0), Trim(hop.1)).Some? {
        var i :| 0 <= i < |chain| && chain[i] == hop;
        assert ds[i] in ds && ds[i].Hop() == TrimHop(chain[i]) && Priced(rules, ds[i]);
      }
    }
    if ChainPriced(chain, rules) {
      forall d | d in ds ensures Priced(rules, d) {
        var i :| 0 <= i < |ds| && ds[i] == d;
        assert chain[i] in chain && d.Hop() == TrimHop(chain[i]);
      }
    }
  }

  lemma ModelAtMeaning(c: Catalog, name: string)
    ensures ModelAt(c, name).Some? <==> exists m :: m in c.models && m.name == name
  {
    var at := ModelAt(c, name);
    if at.Some? { assert c.models[at.value] in c.models; }
  }

  /** A model is created exactly when its name is good and free, its chain valid, and, if it is to be enabled,
      priced; it is appended to the models, disabled ones included. */
  lemma NewModelOutcome(decimals: Decimals, c: Catalog, name: string, chain: seq<Hop>, enabled: bool, now: int,
                        firstId: Uuid)
    requires Inv(c)
    ensures var (d, status) := Handle(decimals, c, NewModel(name, chain, enabled, now, firstId));
            && (status == Created <==>
                  && Trim(name) != "" && Utf8Len(Trim(name)) <= 200
                  && (forall m :: m in c.models ==> m.name != Trim(name))
                  && ValidChain(c.providers, chain) && (enabled ==> ChainPriced(chain, c.Rules())))
            && (status == BadRequest <==>
                  Trim(name) == "" || Utf8Len(Trim(name)) > 200 || !ValidChain(c.providers, chain))
            && (status.Created? || status.BadRequest? || status.Conflict?)
            && (status == Created ==>
                  && d == c.(models := d.models) && |d.models| == |c.models| + 1 && c.models <= d.models
                  && IsConfigured(d.models[|c.models|], Trim(name), chain, enabled, now))
  {
    ModelAtMeaning(c, Trim(name));
    ResolvedMeaning(c.providers, chain);
    if ValidChain(c.providers, chain) { ChainPricedMeaning(c.providers, chain, c.Rules()); }
    if Handle(decimals, c, NewModel(name, chain, enabled, now, firstId)).1 == Created {
      WithModelKeeps(c, Trim(name), now);
      ConfiguredKeeps(WithModel(c, Trim(name), now).value, Trim(name), chain, enabled, firstId);
    }
  }

  /** The same for an existing model, which is the only one that changes. */
  lemma EditModelOutcome(decimals: Decimals, c: Catalog, name: string, chain: seq<Hop>, enabled: bool, firstId: Uuid)
    requires Inv(c)
    ensures var (d, status) := Handle(decimals, c, EditModel(name, chain, enabled, firstId));
            && (status == NotFound <==> forall m :: m in c.models ==> m.name != name)
            && (status == Done <==>
                  && (exists m :: m in c.models && m.name == name)
                  && ValidChain(c.providers, chain) && (enabled ==> ChainPriced(chain, c.Rules())))
            && (status == BadRequest <==>
                  (exists m :: m in c.models && m.name == name) && !ValidChain(c.providers, chain))
            && (status == Done ==>
                  && d == c.(models := d.models) && |d.models| == |c.models|
                  && forall i :: 0 <= i < |c.models| ==>
                       if c.models[i].name == name then
                         IsConfigured(d.models[i], name, chain, enabled, c.models[i].createdAt)
                       else d.models[i] == c.models[i])
  {
    ModelAtMeaning(c, name);
    ResolvedMeaning(c.providers, chain);
    if ValidChain(c.providers, chain) { ChainPricedMeaning(c.providers, chain, c.Rules()); }
    if Handle(decimals, c, EditModel(name, chain, enabled, firstId)).1 == Done {
      ConfiguredKeeps(c, name, chain, enabled, firstId);
      var at := ModelAt(c, name).value;
      forall i | 0 <= i < |c.models| && c.models[i].name == name ensures i == at {
        assert i == at || (if i < at then OtherModel(c.models[i], c.models[at])
                           else OtherModel(c.models[at], c.models[i]));
      }
    }
  }

  // --- the handlers ---

  lemma {:induction false} BadPrefix(providers: seq<ProviderConfig>, chain: seq<Hop>, n: nat)
    requires n <= |chain| && Resolved(providers, chain[..n]).None?
    ensures Resolved(providers, chain).None?
    decreases |chain| - n
  {
    if n == |chain| {
      assert chain[..n] == chain;
    } else {
      assert chain[..n + 1][..n] == chain[..n];
      BadPrefix(providers, chain, n + 1);
    }
  }

  method ValidateDeployments(store: MemoryCatalogStore, chain: seq<Hop>) returns (r: Option<seq<Hop>>)
    ensures r == Resolved(store.providers, chain)
  {
    var providers := store.providers;
    var resolved: seq<Hop> := [];
    for i := 0 to |chain|
      invariant Resolved(providers, chain[..i]) == Some(resolved)
    {
      var providerId, upstreamModel := Trim(chain[i].0), Trim(chain[i].1);
      assert chain[..i + 1][..i] == chain[..i];
      if providerId == "" || upstreamModel == ""
         || Position(providers, (p: ProviderConfig) => p.id == providerId).None?
         || Position(resolved, (h: Hop) => h.0 == providerId).Some? {
        assert TrimHop(chain[i]) == (providerId, upstreamModel);
        BadPrefix(providers, chain, i + 1);
        return None;
      }
      resolved := resolved + [(providerId, upstreamModel)];
    }
    assert chain[..|chain|] == chain;
    return Some(resolved);
  }

  method EnsurePricingGate(store: MemoryCatalogStore, rules: seq<PricingRecord>) returns (ok: bool)
    ensures ok == GatePasses(store.models, RulesOf(rules))
  {
    var candidate := RulesOf(rules);
    var models := store.models;
    for i := 0 to |models|
      invariant forall j :: 0 <= j < i && models[j].enabled ==> Uncovered(models[j], candidate) == []
    {
      if models[i].enabled && Uncovered(models[i], candidate) != [] {
        return false;
      }
    }
    return true;
  }

  method EnsureListable(store: MemoryCatalogStore, hops: seq<Hop>, firstId: Uuid) returns (ok: bool)
    ensures ok == Listable(hops, RulesOf(store.pricing))
  {
    if hops == [] {
      return false;
    }
    var candidate := ModelConfig("", true, 0, Deployments(hops, firstId));
    ok := Uncovered(candidate, RulesOf(store.pricing)) == [];
    ListableMeaning(hops, RulesOf(store.pricing), firstId);
    UncoveredMeaning(candidate, RulesOf(store.pricing));
  }

  method CreateProvider(ghost decimals: Decimals, store: MemoryCatalogStore, id: string, body: ProviderBody)
    returns (status: Status)
    modifies store
    ensures (store.State(), status) == Handle(decimals, old(store.State()), NewProvider(id, body))
  {
    var trimmed := Trim(id);
    if trimmed == "" { return BadRequest; }
    var provider := BuildProvider(trimmed, body, None);
    if provider.None? { return BadRequest; }
    var ok := store.UpsertProvider(provider.value, true);
    status := if ok then Created else Conflict;
  }

  method UpdateProvider(ghost decimals: Decimals, store: MemoryCatalogStore, id: string, body: ProviderBody)
    returns (status: Status)
    modifies store
    ensures (store.State(), status) == Handle(decimals, old(store.State()), EditProvider(id, body))
  {
    var at := Position(store.providers, (p: ProviderConfig) => p.id == id);
    if at.None? { return NotFound; }
    var provider := BuildProvider(id, body, Some(store.providers[at.value].apiKey));
    if provider.None? { return BadRequest; }
    var ok := store.UpsertProvider(provider.value, false);
    status := Done;
  }

  method DeleteProvider(ghost decimals: Decimals, store: MemoryCatalogStore, id: string) returns (status: Status)
    modifies store
    ensures (store.State(), status) == Handle(decimals, old(store.State()), DropProvider(id))
  {
    ghost var c := store.State();
    DropProviderOutcome(decimals, c, id);
    var user := store.ProviderInUse(id);
    if user.Some? { return Conflict; }
    var found := store.DeleteProvider(id);
    if !found { NothingDropped(c, id); }
    status := if found then Done else NotFound;
  }

  lemma NothingDropped(c: Catalog, id: string)
    requires !Known(c.providers, id)
    ensures WithoutProvider(c, id) == c
  {
    FilterKeepsAll(c.providers, (p: ProviderConfig) => p.id != id);
  }

  lemma {:induction false} FilterKeepsAll<T>(s: seq<T>, p: T -> bool)
    requires forall x :: x in s ==> p(x)
    ensures Filter(s, p) == s
  {
    if s != [] { FilterKeepsAll(s[1..], p); }
  }

  method CreatePricing(decimals: Decimals, store: MemoryCatalogStore, body: PricingBody, ruleId: Uuid)
    returns (status: Status)
    modifies store
    ensures (store.State(), status) == Handle(decimals, old(store.State()), NewRule(body, ruleId))
  {
    var rule := BuildRule(decimals, body);
    if rule.None? { return BadRequest; }
    var ok := store.CreatePricing(ruleId, rule.value);
    status := if ok then Created else Conflict;
  }

  method UpdatePricing(decimals: Decimals, store: MemoryCatalogStore, ruleId: Uuid, body: PricingBody)
    returns (status: Status)
    modifies store
    ensures (store.State(), status) == Handle(decimals, old(store.State()), EditRule(ruleId, body))
  {
    var rule := BuildRule(decimals, body);
    if rule.None? { return BadRequest; }
    var rules := Filter(store.pricing, (r: PricingRecord) => r.id != ruleId);
    rules := rules + [PricingRecord(ruleId, rule.value)];
    var gate := EnsurePricingGate(store, rules);
    if !gate { return Conflict; }
    var ok, found := store.UpdatePricing(ruleId, rule.value);
    status := if !ok then Conflict else if found then Done else NotFound;
  }

  method DeletePricing(ghost decimals: Decimals, store: MemoryCatalogStore, ruleId: Uuid) returns (status: Status)
    modifies store
    ensures (store.State(), status) == Handle(decimals, old(store.State()), DropRule(ruleId))
  {
    ghost var c := store.State();
    var rules := Filter(store.pricing, (r: PricingRecord) => r.id != ruleId);
    var gate := EnsurePricingGate(store, rules);
    if !gate { return Conflict; }
    var found := store.DeletePricing(ruleId);
    if !found { FilterKeepsAll(c.pricing, (r: PricingRecord) => r.id != ruleId); }
    status := if found then Done else NotFound;
  }

  method CreateModel(ghost decimals: Decimals, store: MemoryCatalogStore, name: string, chain: seq<Hop>, enabled: bool,
                     now: int, firstId: Uuid) returns (status: Status)
    modifies store
    ensures (store.State(), status)
            == Handle(decimals, old(store.State()), NewModel(name, chain, enabled, now, firstId))
  {
    var trimmed := Trim(name);
    if trimmed == "" || Utf8Len(trimmed) > 200 { return BadRequest; }
    var hops := ValidateDeployments(store, chain);
    if hops.None? { return BadRequest; }
    if enabled {
      var listable := EnsureListable(store, hops.value, firstId);
      if !listable { return Conflict; }
    }
    var ok := store.CreateModel(trimmed, now);
    if !ok { return Conflict; }
    NoRepeats(store.providers, chain);
    var found: bool;
    ok, found := store.SetDeployments(trimmed, hops.value, firstId);
    if enabled {
      found := store.SetModelStatus(trimmed, true);
    } else {
      StatusKept(old(store.State()), trimmed, now, hops.value, firstId);
    }
    status := Created;
  }

  method UpdateModel(ghost decimals: Decimals, store: MemoryCatalogStore, name: string, chain: seq<Hop>, enabled: bool,
                     firstId: Uuid) returns (status: Status)
    modifies store
    ensures (store.State(), status) == Handle(decimals, old(store.State()), EditModel(name, chain, enabled, firstId))
  {
    if Position(store.models, (m: ModelConfig) => m.name == name).None? { return NotFound; }
    var hops := ValidateDeployments(store, chain);
    if hops.None? { return BadRequest; }
    if enabled {
      var listable := EnsureListable(store, hops.value, firstId);
      if !listable { return Conflict; }
    }
    NoRepeats(store.providers, chain);
    var ok, found := store.SetDeployments(name, hops.value, firstId);
    if !ok { return Conflict; }
    found := store.SetModelStatus(name, enabled);
    status := Done;
  }

  method DeleteModel(ghost decimals: Decimals, store: MemoryCatalogStore, name: string) returns (status: Status)
    modifies store
    ensures (store.State(), status) == Handle(decimals, old(store.State()), DropModel(name))
  {
    ghost var c := store.State();
    var found := store.DeleteModel(name);
    if !found { FilterKeepsAll(c.models, (m: ModelConfig) => m.name != name); }
    status := if found then Done else NotFound;
  }

  /** The server: handlers one after another, each running to its end. */
  method Serve(decimals: Decimals, store: MemoryCatalogStore, requests: seq<Request>)
    requires Inv(store.State()) && FreshIds(decimals, store.State(), requests)
    modifies store
    ensures store.State() == Run(decimals, old(store.State()), requests)
    ensures Inv(store.State())
  {
    ghost var start := store.State();
    for i := 0 to |requests|
      invariant Run(decimals, store.State(), requests[i..]) == Run(decimals, start, requests)
      invariant Inv(store.State()) && FreshIds(decimals, store.State(), requests[i..])
    {
      ghost var c := store.State();
      assert requests[i..][1..] == requests[i + 1..];
      HandlerKeeps(decimals, c, requests[i]);
      var status := Dispatch(decimals, store, requests[i]);
    }
  }

  method Dispatch(decimals: Decimals, store: MemoryCatalogStore, request: Request) returns (status: Status)
    modifies store
    ensures (store.State(), status) == Handle(decimals, old(store.State()), request)
  {
    match request
    case NewProvider(id, body) => status := CreateProvider(decimals, store, id, body);
    case EditProvider(id, body) => status := UpdateProvider(decimals, store, id, body);
    case DropProvider(id) => status := DeleteProvider(decimals, store, id);
    case NewRule(body, ruleId) => status := CreatePricing(decimals, store, body, ruleId);
    case EditRule(ruleId, body) => status := UpdatePricing(decimals, store, ruleId, body);
    case DropRule(ruleId) => status := DeletePricing(decimals, store, ruleId);
    case NewModel(name, chain, enabled, now, firstId) =>
      status := CreateModel(decimals, store, name, chain, enabled, now, firstId);
    case EditModel(name, chain, enabled, firstId) =>
      status := UpdateModel(decimals, store, name, chain, enabled, firstId);
    case DropModel(name) => status := DeleteModel(decimals, store, name);
  }
}
