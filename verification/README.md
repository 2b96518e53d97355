# lite-agentify, modelled in Dafny

lite-agentify is an LLM gateway: it authenticates a client, checks its prepaid quota, resolves the requested
model to a chain of upstream deployments, sends the request along that chain with retries, reads the token usage
out of the response, prices it, adds the cost to spend counters and writes a usage record. An admin console edits
the catalog (providers, pricing rules, models) the gateway serves from, and reads usage back.

This project models the parts of it that are state machines or that compute one thing in two ways, and proves what
they promise. Every module is one component:

| file | component |
|---|---|
| `Basics.dfy` | optional values, trimming, sequences |
| `Tokens.dfy`, `Observer.dfy` | token usage: parsing, merging, and the streaming observer |
| `Pricing.dfy`, `Usage.dfy` | pricing rules and their lookup, the cost of a request, usage records |
| `Catalog.dfy`, `CatalogStore.dfy`, `CatalogApi.dfy`, `CatalogImport.dfy` | the catalog: its invariant, the store, the admin handlers, import and migration at boot |
| `Gateway.dfy`, `Servability.dfy`, `Reload.dfy` | the snapshot: building it, resolving and listing, what can make building fail, swapping it |
| `Startup.dfy` | a boot from the database and the config file, and the admin API with a refresh after every change |
| `Failover.dfy` | the failover chain, the retry loop and its waiting time |
| `Recorder.dfy` | the bounded usage channel and the batch writer |
| `Quota.dfy`, `RedisCounter.dfy`, `SpendLoop.dfy`, `RedisLoop.dfy` | counters, reconciliation, the quota check, and the whole accounting loop as one protocol, with counters in memory and in Redis |
| `SqlFilter.dfy`, `Summary.dfy`, `UsageQueries.dfy` | usage queries: filter, summaries and the two together, SQL against the in-memory reference |
| `Sessions.dfy`, `LoginLimiter.dfy` | admin sessions in memory and in Redis, and the login limiter |

## How to read it

Code that works by changing things is a class or a method with loops; its `ensures` tie the new state to a function
of the old one, or to the history of calls, and the promises are proved about that function. Code that is
expressions is functions. Where the program runs several tasks at once, a state machine takes one step per await
point and the theorems are about every sequence of steps.

What the outside world decides is a parameter: the outcome of every upstream send and every jitter draw
(`Failover.Scenario`), the schedule of the writer and its producers (`Recorder.Event`), the interleaving of requests,
flushes and reconciliation (`SpendLoop.Action`), the config file at each reload (`Reload.Event`), ids and clock
readings drawn by a handler (`CatalogApi.Request`), the order in which a hash map yields its keys (`:|`), and the
functions that decode UTF-8, JSON, decimals and URIs (`Codec`, `Decimals`, `Uris`).

The main results, by component:

* **Accounting loop.** In every interleaving, no counter exceeds what was added to it, which never exceeds the true
  spend (`NeverOvercounts`); a rejection therefore stands on true spend that has reached the limit
  (`RejectionsAreJustified`). Counters start right, seeded from the database (`BootIsRight`), and how far one trails
  is given exactly, at every moment of every run (`ShortfallAlways`), and so is how soft the limit is
  (`OverdraftBound`, `OverdraftFromBoot`). With the counters in Redis, one step per command and any command failing,
  the same holds of Redis and of the shadow (`RedisNeverOvercounts`, `RedisRejectionsAreJustified`), and Redis trails
  by exactly the increments that were lost and what the last sum stored there missed (`GapStep`, `RedisExact`).
* **Catalog.** A process over an empty database starts to serve if and only if its file repeats no id and no pair,
  has no blank or malformed entries, and has base URLs and a retry section that make sense. From then on, through any
  sequence of admin requests and of reloads and key or grant changes, no enabled model lacks a chain over existing
  providers that is priced throughout, in the database and in what the gateway serves (`Startup.Life`). A stored
  change is live at once, except if and only if the file can no longer be read, its retry section is bad, or a base
  URL is (`Startup.Administer`, `RefreshFailsOnlyOn`). Every deployment that resolves has a price (`LiveIsPriced`),
  and no response goes unbilled for want of a rule (`ServedIsBilled`).
* **Failover.** The nested loops send exactly the specified sequence, wait the specified times and return the specified
  response (`Scenario.Proxy`), and the specification has the promised properties: which reply is retried
  (`RetriedExactly`), how long for (`WaitBetweenSends`), in what order (`SendsInOrder`), and what the client gets
  (`RelayedReplies`, `GatewayErrors`).
* **Money.** The rule for a deployment is the most specific one (`RuleOrder`, `LookupOrder`), and what a record costs
  and the counters are charged is tokens times its rates (`RecordAmount`, `RecordUsage`).
* **Usage.** The observer's result does not depend on how the stream is cut (`UsageObserver.Finish`,
  `ObserveStream`) and is, class by class, what the last line to report it says (`StreamUsageMeaning`); no record
  is lost between channel and sink (`NothingLost`, `ShutdownFlushesAll`); the SQL filter
  and the in-memory one keep the same rows (`FilterAgrees`), grouping in SQL and folding the groups is one pass over
  the records (`TwoStagesAgree`), and so the database and the memory recorder report the same summary
  (`SummariesAgree`).
* **Snapshot.** The live snapshot is always the one its history defines, and failures leave no trace
  (`SharedGatewayState.Reload`, `FailuresLeaveNoTrace`).
* **Sessions.** Both stores answer every read by the same rule, as long as no token is opened for one user while it is
  listed for another (`ServeBoth`, `SharedTokenDiverges`); the bounded limiter cannot be told
  from an unbounded one until it refuses a failure (`LoginLimiter.Serve`).

Places where the code and its comments differ, and what was proved instead:

* `backoff_ms` documents a ceiling of `min(max_delay, base * 2^attempt)`. The shift is clamped at 63, so with more than
  65 attempts, a base of one and a cap above 2^63 some waits have a lower ceiling, and only then
  (`CeilingsAsDocumented`, `CeilingMissesDocumentation`).
* The repository requires every reply to be forwarded that is neither retryable nor a server error. One that is not a
  stream and whose body cannot be read is answered with a 502 of the gateway's own instead, with the rest of the chain
  untouched (`GatewayErrors`, `UnreadableEndsTheChain`).
* `ensure_pricing_gate` simulates an edit by appending the new rule where the store replaces the old one in place,
  and simulates it even for an id that does not exist. Neither changes the outcome: coverage does not depend on the
  order of the rules (`CoverageMeaning`, `CandidateIsUpdate`), and a missing id changes nothing
  (`RefusalChangesNothing`).
* A comment in `reload.rs` says that a file reload re-reads routes and retry settings. The code takes only the retry
  settings from the file, and so does `Reload` (`SharedGatewayState.Reload`).
* A duplicate in the config file aborts the import midway with the entries before it already stored
  (`ImportConfigOnce`). A repeated provider leaves a table that is not empty, so the corrected file's providers are
  never read (`Startup.BootAfterRepeat`).
* The import checks less than the snapshot does. A first file with, say, a currency in lower case, a blank key or a
  base URL without a scheme is stored and migrated, and then the process does not start. A table that holds anything
  is never imported into again, so correcting the file does not help: later boots fail until the database itself is
  changed (`Startup.BootTwice`).

## Model

| member | source | states |
|---|---|---|
| `Tokens.MergeFrom` | src/domain/token.rs:41-60 | assigning field by field is the right-biased merge: a later report wins wherever it says something |
| `Tokens.EnsureTotal` | src/domain/token.rs:26-39 | a reported total is kept; otherwise it appears exactly when an additive class was reported, the cached subset alone not counting; no other field changes |
| `Tokens.ParseBody` | src/usage/parse.rs:6-48 | usage read from a response body reports at least one class and no negative count |
| `Tokens.ParseEvent` | src/usage/observer.rs:52-65 | the same for one stream event, Anthropic nested or not |
| `Tokens.CountMeaning` | src/usage/parse.rs:44-46 | a count is an integer from zero to the largest i64; anything else is no count |
| `Tokens.NoUsageNoReport` | src/usage/parse.rs:6-12 | without a usage field nothing is reported |
| `Tokens.OpenAiRoundTrip` | src/usage/parse.rs:14-30 | what OpenAI reports, class by class, is read back from a body and from a stream event |
| `Tokens.AnthropicRoundTrip` | src/usage/parse.rs:32-41 | what Anthropic reports is read back; nested under `message` it takes precedence |
| `Tokens.MergeMonoid` | src/domain/token.rs:41-60 | merging is associative with the empty usage as identity |
| `Tokens.MergeAllSplits` | src/usage/observer.rs:41-66 | folding reports may be split anywhere |
| `Tokens.MergeKeepsLast` | src/domain/token.rs:41-60 | merging a stream of reports leaves, class by class, the last value anybody reported |
| `Tokens.MergeAllNonNegative` | src/domain/token.rs:41-60 | merging keeps counts non-negative |
| `Observer.PaddingIgnored` | src/usage/observer.rs:41-51 | any white space before and after the data of a line, line ends included, makes no difference, and the end marker reports nothing |
| `Observer.OnlyDataReports` | src/usage/observer.rs:41-66 | only a line that decodes, starts with `data:` and goes on with JSON, not the end marker, reports anything, and it reports what the event says |
| `Observer.SplitLossless` | src/usage/observer.rs:25-31 | lines and tail concatenate to the stream |
| `Observer.SplitAtNewlines` | src/usage/observer.rs:25-31 | every line ends in its only newline and the tail has none: with the row above, the one way to cut at newlines |
| `Observer.SplitResumes` | src/usage/observer.rs:25-31 | splitting may stop after any chunk and resume from the newline-free tail |
| `Observer.UsageObserver.ConsumeLine` | src/usage/observer.rs:41-66 | one line merges its report, if it has one, into the usage and marks usage as seen |
| `Observer.UsageObserver.Feed` | src/usage/observer.rs:25-31 | after every chunk the buffer is the newline-free tail of all bytes fed and the usage is the merge over the complete lines |
| `Observer.UsageObserver.Finish` | src/usage/observer.rs:33-39 | the result is that of the whole stream split at newlines, a last unterminated line included, however it was cut into chunks |
| `Observer.StreamUsageMeaning` | src/usage/observer.rs:25-66 | a stream has usage exactly if some line of it, the unterminated last one included, reports some; and each class has the count of the last line that reports the class, or none |
| `Observer.PayloadMeaning` | src/proxy/router.rs:805-833 | the bytes of a stream are those of its chunks one after another |
| `Observer.ObserveStream` | src/proxy/router.rs:805-833 | chunks pass through untouched up to the first broken one; usage is recorded exactly when the stream ends unbroken, and depends only on its bytes |
| `Pricing.PricingMapOf` | src/pricing/config.rs:10-56 | the inserting loop with early failure gives the first problem in the list, or the index of all rules |
| `Pricing.AcceptedRules` | src/pricing/config.rs:10-56 | a rule list is accepted if and only if every entry is well formed and no pair occurs twice |
| `Pricing.WellFormedEntry` | src/pricing/config.rs:16-40 | an entry is well formed exactly with a provider, a model, three upper-case letters of currency and no negative rate |
| `Pricing.IndexKeys` | src/pricing/config.rs:41-53 | the index holds exactly the pairs of the rules, each with the pricing of a rule of that pair |
| `Pricing.AcceptedRatesNonNegative` | src/pricing/config.rs:30-34 | no accepted rate is negative |
| `Pricing.CoverageMeaning` | src/catalog/mod.rs:50-66 | a deployment has a rule if and only if some rule matches it with wildcards; the order of the rules does not matter |
| `Pricing.LookupAgrees` | src/pricing/calc.rs:55-68 | for every accepted list and every pair, the map lookup of the request path and the list lookup of the gate pick the same rule |
| `Pricing.RuleOrder` | src/catalog/mod.rs:50-66 | the rule found is the first for provider and model, else the first for the provider and any model, else for any provider and the model, else for everything, else there is none |
| `Pricing.LookupOrder` | src/pricing/calc.rs:55-68 | the same order on the map of the request path |
| `Pricing.CalculateCost` | src/pricing/calc.rs:9-53 | adding up class by class gives the specified charge, and none exactly where the specification has none |
| `Pricing.ChargeTimesMillion` | src/pricing/calc.rs:35-52 | the amount charged, times 10^6, is the sum of tokens times rate over the five classes, input net of cached input |
| `Pricing.CostNonNegative` | src/pricing/calc.rs:9-53 | usage from the parser costed by accepted rules is never negative |
| `Pricing.InputBilledOnce` | src/pricing/calc.rs:35-38 | regular input is max(0, input - cached), so an input token is billed once |
| `Usage.RecordCostOk` | src/proxy/router.rs:736-774 | from parsing through merging to costing, no record carries a negative cost |
| `Usage.RecordAmount` | src/proxy/router.rs:736-758 | the cost on a record, times 10^6, is tokens times rate over the five reported classes, cached input taken out of the input, at the rates of the rule found for its deployment; the currency is that of the rule |
| `Usage.RecordKeeps` | src/proxy/router.rs:776-799 | a record keeps every reported class, whose it was and which deployment served it |
| `Usage.PlausibleMeaning` | src/proxy/router.rs:736-758 | what is asked of a completion: well-formed rules for different pairs, and no negative count |
| `Usage.CostAbsent` | src/pricing/calc.rs:9-53 | a record has no cost exactly when the upstream model is unknown, no tokens were reported, no rule covers the deployment, or a used cache class has no rate |
| `Catalog.UncoveredMeaning` | src/catalog/mod.rs:70-82 | no uncovered deployment is left exactly when every deployment has a rule |
| `Catalog.CoverageGrows` | src/catalog/mod.rs:46-66 | coverage depends only on which rules there are, and more rules never cover less |
| `CatalogStore.MemoryCatalogStore.UpsertProvider` | src/catalog/store.rs:602-620 | replaces the provider of that id in place or appends it; a new one with a taken id is a conflict and changes nothing |
| `CatalogStore.MemoryCatalogStore.DeleteProvider` | src/catalog/store.rs:622-627 | drops the provider and tells whether it existed |
| `CatalogStore.MemoryCatalogStore.CreatePricing` | src/catalog/store.rs:633-648 | appends a rule unless its pair is taken |
| `CatalogStore.MemoryCatalogStore.UpdatePricing` | src/catalog/store.rs:650-669 | replaces one rule in place unless another rule has the pair; a missing id is told apart |
| `CatalogStore.MemoryCatalogStore.DeletePricing` | src/catalog/store.rs:671-676 | drops the rule and tells whether it existed |
| `CatalogStore.MemoryCatalogStore.CreateModel` | src/catalog/store.rs:695-708 | appends a disabled, empty model unless the name is taken |
| `CatalogStore.MemoryCatalogStore.SetModelStatus` | src/catalog/store.rs:710-719 | sets the status of that model and nothing else, and tells whether it existed |
| `CatalogStore.MemoryCatalogStore.SetDeployments` | src/catalog/store.rs:728-756 | the hash-set loop refuses a chain exactly when a provider repeats; otherwise the chain is replaced wholesale, in order; a missing model is told apart |
| `CatalogStore.MemoryCatalogStore.DeleteModel` | src/catalog/store.rs:721-726 | drops the model and tells whether it existed |
| `CatalogStore.MemoryCatalogStore.ProviderInUse` | src/catalog/store.rs:758-767 | finds a model with a deployment on the provider if and only if there is one |
| `CatalogStore.CandidateIsUpdate` | src/admin/catalog_api.rs:348-357 | the rules the gate simulates for an edit are, as a set, those the store holds after it |
| `CatalogStore.UpsertKeeps` | src/catalog/store.rs:602-620 | storing a provider keeps the catalog invariant |
| `CatalogStore.UnusedProviderKeeps` | src/catalog/store.rs:622-627 | deleting a provider no chain names keeps the invariant |
| `CatalogStore.RepricedKeeps` | src/catalog/store.rs:650-669 | an edit the gate agreed to keeps the invariant |
| `CatalogStore.WithoutRuleKeeps` | src/catalog/store.rs:671-676 | a deletion the gate agreed to keeps the invariant |
| `CatalogStore.ConfiguredOk` | src/admin/models_api.rs:249-257 | writing a valid chain and then a status it can carry keeps the invariant |
| `CatalogApi.ResolvedMeaning` | src/admin/models_api.rs:108-143 | a chain passes validation exactly when, trimmed, no name is empty, every provider exists and none is listed twice; what passes is the trimmed chain in order |
| `CatalogApi.ListableMeaning` | src/admin/models_api.rs:147-186 | the listing gate passes exactly for a non-empty, fully priced chain |
| `CatalogApi.GateMeaning` | src/admin/catalog_api.rs:391-420 | the pricing gate passes exactly when every enabled model stays fully priced |
| `CatalogApi.ValidateDeployments` | src/admin/models_api.rs:108-143 | the loop with early returns computes that validation |
| `CatalogApi.EnsurePricingGate` | src/admin/catalog_api.rs:391-420 | the loop over enabled models computes that gate |
| `CatalogApi.EnsureListable` | src/admin/models_api.rs:147-186 | computes the listing gate on a throw-away model |
| `CatalogApi.CreateProvider` | src/admin/catalog_api.rs:121-142 | the handler, store call by store call, takes the step its request stands for and answers with that step's status |
| `CatalogApi.UpdateProvider` | src/admin/catalog_api.rs:144-166 | the handler, store call by store call, takes the step its request stands for and answers with that step's status |
| `CatalogApi.DeleteProvider` | src/admin/catalog_api.rs:168-192 | the handler, store call by store call, takes the step its request stands for and answers with that step's status |
| `CatalogApi.CreatePricing` | src/admin/catalog_api.rs:313-330 | the handler, store call by store call, takes the step its request stands for and answers with that step's status |
| `CatalogApi.UpdatePricing` | src/admin/catalog_api.rs:332-366 | the handler, store call by store call, takes the step its request stands for and answers with that step's status |
| `CatalogApi.DeletePricing` | src/admin/catalog_api.rs:368-386 | the handler, store call by store call, takes the step its request stands for and answers with that step's status |
| `CatalogApi.CreateModel` | src/admin/models_api.rs:188-224 | the handler, store call by store call, takes the step its request stands for and answers with that step's status |
| `CatalogApi.UpdateModel` | src/admin/models_api.rs:226-259 | the handler, store call by store call, takes the step its request stands for and answers with that step's status |
| `CatalogApi.DeleteModel` | src/admin/models_api.rs:261-274 | the handler, store call by store call, takes the step its request stands for and answers with that step's status |
| `CatalogApi.HandlerKeeps` | src/admin/catalog_api.rs:121-386 | every handler keeps the invariant: unique ids and pairs, chains over existing providers without repeats, enabled models priced throughout |
| `CatalogApi.RunKeeps` | src/admin/models_api.rs:188-274 | every run of handlers keeps it |
| `CatalogApi.RefusalChangesNothing` | src/admin/catalog_api.rs:121-386 | a request that is refused leaves the catalog as it was |
| `CatalogApi.ProtocolNames` | src/admin/catalog_api.rs:77-83 | the names a protocol goes by |
| `CatalogApi.HandlerIds` | src/admin/catalog_api.rs:313-386 | no handler but the creation of a rule brings a new rule id, and that one only the id drawn for it |
| `CatalogApi.DropRuleOutcome` | src/admin/catalog_api.rs:368-386 | a rule is deleted exactly when it exists and every deployment of an enabled model is covered by another rule; an unknown id is always a 404, anything else a 409; the other rules remain |
| `CatalogApi.EditRuleOutcome` | src/admin/catalog_api.rs:332-366 | a rule is edited exactly when its body is good, it exists, no other rule is for its new pair, and every deployment of an enabled model is covered by another rule or the new one; that one rule changes; when it is a 400 and when a 404 |
| `CatalogApi.NewProviderOutcome` | src/admin/catalog_api.rs:121-142 | a provider is created, as submitted, exactly when its body is good, with a key of its own, and its trimmed id is new and not empty; otherwise 400 or 409 |
| `CatalogApi.EditProviderOutcome` | src/admin/catalog_api.rs:144-166 | a provider is edited exactly when it exists and the body is good with its stored key; otherwise 404 or 400; only that provider changes, to the submitted fields; a masked key keeps the stored one |
| `CatalogApi.NewRuleOutcome` | src/admin/catalog_api.rs:262-330 | a rule body is good exactly with provider, model, currency and rates that are numbers; a rule is created exactly when its body is good and its pair new; every rate ends up in the field it was submitted for, a blank one absent |
| `CatalogApi.DropModelOutcome` | src/admin/models_api.rs:261-274 | deleting a model removes that model and no other |
| `CatalogApi.DropProviderOutcome` | src/admin/catalog_api.rs:168-192 | a provider is deleted exactly when it exists and no deployment names it; 409 if one does, else 404 |
| `CatalogApi.NewModelOutcome` | src/admin/models_api.rs:188-224 | a model is created exactly when its name is good and free, its chain valid and, if enabled, priced; it is appended with that chain and status |
| `CatalogApi.Utf8LenMeaning` | src/admin/models_api.rs:188-200 | the length of a name is counted in UTF-8 bytes |
| `CatalogApi.EditModelOutcome` | src/admin/models_api.rs:226-259 | a model is edited exactly when it exists and the chain is valid and, if enabled, priced; no other model changes |
| `CatalogApi.Serve` | src/admin/catalog_api.rs:121-386 | the handlers run one after another keep the invariant of the store, whatever the requests |
| `CatalogImport.ImportConfigOnce` | src/catalog/import.rs:18-57 | a section is imported only into an empty table, in file order; the first repeated id or pair aborts with exactly the entries before it stored, and all providers when a rule repeats; the invariant holds either way |
| `CatalogImport.ChainMeaning` | src/catalog/import.rs:102-138 | a derived chain holds exactly the routed providers that alias the model, under their aliases, in order of first occurrence; it is empty only if there is none |
| `CatalogImport.AliasMeaning` | src/catalog/import.rs:88-124 | an alias is one that the configured provider of that id has |
| `CatalogImport.RouteIdsMeaning` | src/catalog/import.rs:104-107 | the provider ids are those of the routes one after another |
| `CatalogImport.ChainUnique` | src/catalog/import.rs:102-138 | that description fits one chain only |
| `CatalogImport.AddProvider` | src/catalog/import.rs:107-136 | one provider of one route extends every chain as described, for every order in which its alias map is iterated |
| `CatalogImport.DeriveChains` | src/catalog/import.rs:104-138 | the nested loops derive exactly the non-empty chains, each name once |
| `CatalogImport.WriteModel` | src/catalog/import.rs:150-173 | one derived model is created with its chain and enabled exactly when all of it is priced; the store never conflicts |
| `CatalogImport.MigrateRoutesOnce` | src/catalog/import.rs:74-190 | the models afterwards are those the routes and aliases define; with any model present, or no routes, nothing changes; the invariant holds |
| `CatalogImport.MigrationsAgree` | src/catalog/import.rs:125-136 | two migrations of the same file give every model the same chain and status, whatever orders the alias maps were iterated in |
| `Gateway.SlashesTrimmed` | src/model.rs:98-100 | the slashes at the end of a base URL are dropped, all of them and nothing else |
| `Gateway.BuildProviderMap` | src/state.rs:131-168 | the loop with its early failures builds the provider map of the specification |
| `Gateway.BuildModelMap` | src/state.rs:358-403 | so does the loop over models |
| `Gateway.CheckDeployments` | src/state.rs:367-387 | a chain is accepted exactly when every provider is known and no upstream name is blank, and is copied in order |
| `Gateway.BuildAccepts` | src/state.rs:103-227 | a snapshot is built if and only if rules, providers and models are unique and well formed, base URLs are URLs and the retry section makes sense |
| `Gateway.RetryMeaning` | src/state.rs:176-197 | the retry section makes sense with at least one attempt, a base within the cap, and statuses from 100 to 599 |
| `Gateway.BuildServes` | src/state.rs:130-198 | the snapshot holds the catalog: every model by name with its status and its chain in order, every provider with its fields and a trimmed URL, the indexed rules, the retry settings, and no dangling provider id |
| `Gateway.Resolve` | src/state.rs:271-310 | unknown or disabled, forbidden, the chain on the protocol, or the other protocols it is on: each exactly when it should be |
| `Gateway.PlacesOn` | src/state.rs:291-304 | the deployments on a protocol are an order-preserving selection that misses none |
| `Gateway.PlacesMeaning` | src/state.rs:291-304 | a place is selected exactly if the provider of its hop is known and speaks the protocol |
| `Gateway.Walk` | src/state.rs:289-304 | the loop selects those deployments and lists the other protocols once each |
| `Gateway.ListableModels` | src/state.rs:314-323 | the listing is sorted by name and holds exactly the enabled models the key may call, each with its entry, whatever order the map yields |
| `Gateway.AscendingDistinct` | src/state.rs:321 | a listing has every name once |
| `Gateway.BelowMeaning` | src/state.rs:321 | the order of the listing is the lexicographic one |
| `Gateway.ListedIffResolvable` | src/state.rs:271-323 | on the snapshot of a catalog that kept its invariant, a model is listed for a key if and only if some protocol resolves it to a non-empty chain for that key |
| `Gateway.ResolvedIsPriced` | src/state.rs:271-310 | every deployment that resolves from such a snapshot has a price |
| `Gateway.ServedIsBilled` | src/proxy/router.rs:736-758 | a completion on such a deployment has no cost only if no tokens were reported or its rule lacks a rate for a used cache class |
| `Servability.BuiltRuleIsWellFormed` | src/admin/catalog_api.rs:280-311 | a rule the API builds passes the snapshot's own validation |
| `Servability.TrimIdempotent` | src/admin/catalog_api.rs:129 | what has been trimmed and is not empty is not blank |
| `Servability.HandlerKeepsClean` | src/admin/catalog_api.rs:121-386 | handlers keep every name, key and rate such that a snapshot accepts it |
| `Servability.RefreshFailsOnlyOn` | src/admin/catalog_api.rs:424-451 | after any run of admin requests, applying the catalog succeeds if and only if the file can be read, its retry section makes sense, and every base URL is one |
| `Reload.FromParts` | src/state.rs:103-227 | the method builds what the specification builds, with no keys, no grants and a counter of its own |
| `Reload.SharedGatewayState.StoreApiKeys` | src/reload.rs:86-89 | replaces the keys and nothing else of what is live |
| `Reload.SharedGatewayState.StoreGranted` | src/reload.rs:93-99 | replaces the grants and nothing else of what is live |
| `Reload.SharedGatewayState.Rebuilt` | src/reload.rs:122-131 | a rebuild carries keys, grants, counter, client and recorder over |
| `Reload.SharedGatewayState.StoreCatalog` | src/reload.rs:111-136 | swaps in the snapshot of the new catalog and the file as read now, or fails and changes nothing |
| `Reload.SharedGatewayState.Reload` | src/reload.rs:141-183 | swaps in the snapshot of the cached catalog and the file as read now, or fails and changes nothing |
| `Reload.Replay` | src/reload.rs:86-183 | over any run, failures included, the live snapshot is built from the last accepted catalog and the file as read at the last successful rebuild, with the last keys and grants and the counter of boot |
| `Reload.Boot.AlwaysLive` | src/reload.rs:106-136 | last accepted catalog and last accepted file always build together, although they may have been accepted at different times |
| `Reload.Boot.FailuresLeaveNoTrace` | src/reload.rs:139-183 | removing the failed events from a history changes nothing that is live |
| `Reload.Boot.PartsIndependent` | src/reload.rs:86-183 | the routing that is live depends only on catalog and file events, the keys only on key events, the grants only on grant events, however they are interleaved |
| `Startup.Boot` | src/proxy/router.rs:40-132 | a boot imports, migrates, seeds and builds; it gives up if the import or the snapshot fails, with what was stored left in place; a table that holds anything is not imported into; the first snapshot serves the database with seeded counters |
| `Startup.ImportedIsClean` | src/catalog/import.rs:18-190 | what import and migration leave behind is acceptable to a snapshot, but for URLs, if and only if the file has no malformed rule, no blank id or key, and no blank name or target among the aliases of routed providers |
| `Startup.MigratedIsClean` | src/catalog/import.rs:125-166 | models derived from aliases without blank names have no blank names |
| `Startup.AliasIsMigrated` | src/catalog/import.rs:104-136 | every alias of a routed provider ends up in a stored model, so a blank one spoils it |
| `Startup.FirstBootStarts` | src/proxy/router.rs:57-116 | over an imported file the snapshot is built if and only if the file is clean, its base URLs are URLs and its retry section makes sense |
| `Startup.BootTwice` | src/proxy/router.rs:57-116 | a first file with providers and rules that the import takes but the snapshot refuses is stored; a later boot starts, whatever its file, only if the stored rules, ids, keys and base URLs are good; once models are stored, exactly if the first file was clean and its URLs and the later retry section are good |
| `Startup.BootAfterRepeat` | src/proxy/router.rs:57-116 | a first file that repeats a provider leaves exactly the providers before the repeat; the next boot over a corrected file takes rules and models from it but serves them over those providers |
| `Startup.LowerCaseCurrencyIsMalformed` | src/pricing/config.rs:10-56 | a file with the one rule of currency usd passes the import and not the snapshot |
| `Startup.LiveIsPriced` | src/state.rs:271-310 | whatever the live snapshot resolves has a price, whenever the live catalog is one that kept the invariant |
| `Startup.Administer` | src/admin/catalog_api.rs:424-451 | a handler and the refresh after it: a stored change is applied if and only if the file can be read, its retry section makes sense and every base URL is one; otherwise the gateway keeps what it had |
| `Startup.Serve` | src/admin/catalog_api.rs:121-451 | under any admin requests, reloads, key and grant changes, database and live catalog keep the invariant, and they are equal unless the last change failed to be applied |
| `Startup.Life` | src/proxy/router.rs:40-132 | from the empty database: the process starts exactly for the files that repeat nothing, are clean and have good URLs and a good retry section; from then on the invariant holds of the database and of the live catalog |
| `Failover.RetryAfterHonoured` | src/proxy/router.rs:946-962 | a Retry-After of n seconds waits min(1000 n, max_delay) for every n that parses, a date ahead likewise; a malformed or past one leaves the backoff in charge |
| `Failover.CeilingMonotone` | src/model.rs:79-85 | the backoff ceiling never falls as attempts go by |
| `Failover.CeilingAsDocumented` | src/model.rs:75-85 | the ceiling is min(max_delay, base * 2^attempt) if and only if the attempt is at most 63, the base is not one, or the cap is at most 2^63 |
| `Failover.CeilingsAsDocumented` | src/model.rs:75-85 | every attempt the loop can wait after has the documented ceiling if and only if there are at most 65 attempts, the base is not one, or the cap is at most 2^63 |
| `Failover.CeilingMissesDocumentation` | src/model.rs:75-85 | with 66 attempts, base one, the largest cap and a provider that answers 429 throughout, the loop waits after attempt 64 under a ceiling that is not the documented one |
| `Failover.Scenario.HandleReply` | src/proxy/router.rs:534-629 | one reply is forwarded, failed over or retried as specified |
| `Failover.Scenario.AttemptProvider` | src/proxy/router.rs:480-636 | the retry loop sends, waits and decides exactly as specified for the deployment |
| `Failover.Scenario.Proxy` | src/proxy/router.rs:349-367 | the chain loop makes exactly the specified sends and waits and returns the specified response |
| `Failover.Scenario.ReachedIsVisited` | src/proxy/router.rs:349-363 | exactly one number of deployments is visited: all that fail over, and the first that does not |
| `Failover.Scenario.StopsAt` | src/proxy/router.rs:519-629 | a deployment stops at its first reply that is not retryable, or when its attempts run out |
| `Failover.Scenario.WaitsAskedFor` | src/proxy/router.rs:608-650 | a deployment waits once between any two of its tries, and each wait is the one the reply before it asks for: its Retry-After up to the cap, or else the drawn share of the ceiling of that attempt, rounded down |
| `Failover.Scenario.WaitBetweenSends` | src/proxy/router.rs:608-650 | so does the whole request: between two sends in a row to one deployment lies the wait the reply in between asks for |
| `Failover.Scenario.SendsInOrder` | src/proxy/router.rs:480-636 | every send is in chain order and within max_attempts; a retry directly follows a retryable reply of the same deployment; a deployment is left only on a reply that is not retryable or with its attempts used up |
| `Failover.Scenario.RetriedExactly` | src/proxy/router.rs:575-621 | the next send is the next attempt at the same deployment exactly if the status of the reply is a retryable one and attempts are left |
| `Failover.Scenario.EveryDeploymentTried` | src/proxy/router.rs:349-363 | no deployment that can be sent to is left out before the request is answered |
| `Failover.Scenario.FirstForwardableWins` | src/proxy/router.rs:349-367 | the first forwardable reply is the last send and decides the answer: the client gets it, or a 502 if its body cannot be read |
| `Failover.Scenario.RelayedReplies` | src/proxy/router.rs:575-628 | the client gets an upstream reply if and only if the last one received came from the last deployment visited, is forwardable or retryable with the attempts of the end of the chain used up, and can be read; and it gets that one |
| `Failover.Scenario.GatewayErrors` | src/proxy/router.rs:349-367 | 400 exactly for a body that cannot be rewritten; 502 exactly when the whole chain has failed over or the reply meant for the client cannot be read |
| `Failover.Scenario.LastFaultTold` | src/proxy/router.rs:493-517 | once the whole chain has failed over, the 502 names the fault of the last deployment |
| `Failover.UnreadableEndsTheChain` | src/proxy/router.rs:699-706 | with a first reply of 200 that cannot be read, the answer is a 502 although a deployment is left |
| `Failover.Scenario.WaitBound` | src/proxy/router.rs:640-650 | total backoff is at most chain length * (max_attempts - 1) * max_delay_ms, for every Retry-After, jitter and outcome |
| `Recorder.StepKeeps` | src/usage/recorder.rs:158-304 | under any step of producers, scheduler or sink, handed batches, buffer and channel concatenate to the accepted records, and the bounds hold |
| `Recorder.NothingLost` | src/usage/recorder.rs:158-304 | so they do along every schedule: the buffer below 128 between steps, the channel at most 1024 |
| `Recorder.HandedIsFinal` | src/usage/recorder.rs:303 | nothing is handed over after the final flush |
| `Recorder.FlushesWhenDue` | src/usage/recorder.rs:277-289 | every tick hands over what is buffered, if anything is, and the 128th record hands over the batch |
| `Recorder.ShutdownFlushesAll` | src/usage/recorder.rs:291-303 | every record accepted before the drain ended, or all senders were gone, has been handed to the sink exactly once and in order |
| `Recorder.Channel.TrySend` | src/usage/recorder.rs:158-171 | a full or closed channel drops the record without waiting |
| `Recorder.FlushAndWait` | src/usage/recorder.rs:275-303 | a batch is handed to the sink, and the writer goes on only when the sink is done |
| `Recorder.Drain` | src/usage/recorder.rs:290-299 | after the shutdown signal the channel is received from until it is empty |
| `Recorder.RunWriter` | src/usage/recorder.rs:265-304 | the select loop, its drain and its final flush, with producers and sink interleaved by any schedule, end in the state of the step relation, and every accepted record is handed over, buffered or queued |
| `Quota.MemoryCounter.Get` | src/quota/counter.rs:50-57 | an unknown scope reads as zero |
| `Quota.MemoryCounter.Add` | src/quota/counter.rs:59-61 | adds to one scope |
| `Quota.MemoryCounter.Reset` | src/quota/counter.rs:63-65 | sets one scope |
| `Quota.ReconcileCounters` | src/quota/mod.rs:21-33 | a pass that is not interrupted sets every listed scope to its sum and no other, in whatever order |
| `Quota.SeedingIsExact` | src/quota/mod.rs:19-33 | from empty counters a pass leaves every scope, listed or not, at its database sum |
| `SpendLoop.Seed` | src/proxy/router.rs:82-92 | the pass at boot leaves the counters at the database sums of every user and key |
| `SpendLoop.BootIsRight` | src/proxy/router.rs:89-91 | before the first request every counter is what has been spent |
| `Quota.CheckQuota` | src/state.rs:329-352 | exhausted exactly when the user counter has reached the grant, else capped exactly when there is a cap and the key counter has reached it |
| `Quota.QuotaStore.AppendGrant` | src/quota/store.rs:209-226 | the ledger only grows, and one user's sum by the amount |
| `Quota.QuotaStore.GrantSums` | src/quota/store.rs:245-252 | the loop sums every user's grants |
| `RedisCounter.Counter.Get` | src/quota/counter.rs:110-131 | reads Redis and warms the shadow, or reads the shadow; never above what was spent as long as resets were honest |
| `RedisCounter.Counter.Add` | src/quota/counter.rs:133-143 | the shadow always advances, Redis if the command arrives |
| `RedisCounter.Counter.Reset` | src/quota/counter.rs:145-154 | the shadow is reset, and Redis if the command arrives |
| `RedisCounter.Serve` | src/quota/counter.rs:108-155 | under any pattern of failing commands, if no reset was above what had been spent, no read is above what had been spent by then; and as long as none has failed every read is that of a counter in process memory |
| `RedisLoop.AddIsTwoSteps` | src/quota/counter.rs:133-143 | an undisturbed add is the step of the shadow and the step of Redis |
| `RedisLoop.GetIsTwoSteps` | src/quota/counter.rs:110-131 | an undisturbed get decides by what Redis holds and leaves it in the shadow |
| `RedisLoop.ResetIsTwoSteps` | src/quota/counter.rs:145-154 | an undisturbed reset is the step of the shadow and the step of Redis |
| `RedisLoop.StepSound` | src/quota/counter.rs:108-155 | every step of gateway or Redis leaves room, in Redis and in every sum on its way there, for what Redis may still add |
| `RedisLoop.RunsGoOn` | src/quota/counter.rs:110-131 | a run may go on with any step that can happen; a request waiting for a counter may always have its read run, answered or not |
| `RedisLoop.RedisNeverOvercounts` | src/quota/counter.rs:68-71 | at every moment of every interleaving of requests, flushes, reconciliation and single commands, lost or late, neither Redis nor the shadow nor a sum being stored is above what was added, which is at most the true spend |
| `RedisLoop.RedisRejectionsAreJustified` | src/state.rs:325-352 | with counters in Redis, too, a quota rejection stands on true spend that has reached the grant or the cap |
| `RedisLoop.GapStep` | src/quota/counter.rs:133-154 | a lost increment widens the gap between Redis and what was added by exactly its amount, a stored sum sets it to what the sum lacked, and no other step changes it |
| `RedisLoop.RedisExact` | src/quota/counter.rs:68-71 | from a boot whose reset arrived, and while no increment is lost and nothing is reset, Redis holds everything added but what is under way and what earlier processes lost |
| `SpendLoop.StepSums` | src/proxy/router.rs:759-774 | no step takes the counter and the added spend apart unless it resets the scope, no sum falls, and what was added stays in the database or accounted for |
| `SpendLoop.StepInv` | src/quota/mod.rs:21-33 | every step of requests, writer, sink and reconciliation keeps the invariant |
| `SpendLoop.NeverOvercounts` | src/quota/counter.rs:30-33 | at every moment of every run a counter is at most what was added, which is at most the true spend; what is not in the database is on its way, lost, dropped or cancelled |
| `SpendLoop.RunsGoOn` | src/usage/recorder.rs:265-304 | a run may go on with any action that can happen, the steps of the writer among them |
| `SpendLoop.RejectionsAreJustified` | src/state.rs:325-352 | a quota rejection stands on true spend that has reached the grant or the cap |
| `SpendLoop.DecidedMeans` | src/state.rs:329-352 | a request taken through its checks undisturbed is rejected by the grant first, then by the cap, or admitted |
| `SpendLoop.AdmittedWasChecked` | src/state.rs:329-352 | in every run, whatever was let past the user check had the counter of the user below its grant at some moment before, and past the key check the counter of the key below the cap |
| `SpendLoop.ExactShortfall` | src/quota/mod.rs:19-33 | a counter trails by exactly what was missing from the database when the sums last applied were read, plus what was added between that read and the reset |
| `SpendLoop.PassIsComplete` | src/quota/mod.rs:21-33 | a pass reads the sum of every user and key that has a row and is over only when all of them have been applied |
| `SpendLoop.ShortfallAlways` | src/quota/mod.rs:19-33 | at every moment of every run from boot a counter is exact, if it has not been reset yet, or trails as the row above says, for a read of this very run |
| `SpendLoop.ExactUntilReset` | src/quota/mod.rs:19-33 | from boot until its first reset a counter is everything that was added to it, past usage included |
| `SpendLoop.OverdraftBound` | src/state.rs:325-328 | once a user's counter crosses a grant, and until it is reset or more is granted to a request still to be checked, nobody else passes the check and the overdraft stays strictly below the cost of the requests in flight at the crossing, plus the shortfall there was |
| `SpendLoop.OverdraftFromBoot` | src/state.rs:325-328 | in a run from boot in which the user's counter is not reset, whatever the user had spent before, the overdraft is strictly below the cost of the requests in flight at the crossing |
| `SpendLoop.RecordedMeans` | src/proxy/router.rs:736-803 | the three steps of a completed request, nothing in between, charge both counters and enqueue the record if there is room |
| `SpendLoop.RecordUsage` | src/proxy/router.rs:736-803 | undisturbed, adds the cost to both counters and tries to enqueue the record, which is what those three steps do |
| `SqlFilter.Filter.FromParams` | src/usage/recorder.rs:322-374 | pushes exactly the conditions of the parameters, each with the next free placeholder and its value |
| `SqlFilter.Filter.PushModel` | src/usage/recorder.rs:350-358 | binds the model twice and parenthesises the OR |
| `SqlFilter.Filter.PushValue` | src/usage/recorder.rs:380-384 | a clause refers to the value bound with it |
| `SqlFilter.ParsesJoin` | src/usage/recorder.rs:386-392 | joined by AND, the clauses parse back to the conjunction of the conditions: the OR stays inside its parentheses |
| `SqlFilter.ConditionsMean` | src/usage/recorder.rs:673-702 | the conditions of a parameter set are those of the in-memory filter, whatever is NULL |
| `SqlFilter.FilterAgrees` | src/usage/recorder.rs:320-393 | for every parameter combination and NULL pattern the WHERE clause is TRUE on a row, in three-valued logic, exactly when the in-memory filter accepts it, also with more values bound after its own |
| `SqlFilter.CostQueryAgrees` | src/usage/recorder.rs:548-556 | the totals' cost query, whose WHERE clause goes on with two conditions of its own, keeps the rows of the filter that have a currency and a cost |
| `SqlFilter.PlaceholdersInOrder` | src/usage/recorder.rs:441-456 | the placeholders are $1..$n in order, one per value, alone and with paging appended, where LIMIT sees the page size and OFFSET the offset |
| `Summary.BucketContains` | src/usage/recorder.rs:731-748 | a bucket is the hour or day that contains the record, and an hour lies within one day |
| `Summary.SameEntry` | src/usage/recorder.rs:772-822 | records share an entry of the series exactly within one hour or day, and of the breakdown exactly with one provider and one upstream model, known or not |
| `Summary.TotalsGrow` | src/usage/recorder.rs:772-785 | one more record adds to the totals itself, itself again if it failed, and the input, output and total tokens it reports |
| `Summary.EntriesGrow` | src/usage/recorder.rs:812-822 | one more record adds to its own entry, and no other, itself, its total tokens and its cost in its currency |
| `Summary.AddRecord` | src/usage/recorder.rs:812-822 | one record updates its entry in place |
| `Summary.OnePass` | src/usage/recorder.rs:772-822 | the in-memory summary: its totals are the counts and sums over the records, its series and breakdown the folds of the records' rows |
| `Summary.TotalCost` | src/usage/recorder.rs:777-780 | the totals' costs are that fold over one group |
| `Summary.SumReported` | src/usage/recorder.rs:783-785 | a total of input, output or all tokens is the sum of what was reported |
| `Summary.CountErrors` | src/usage/recorder.rs:776 | counts the records with a status of 400 or more |
| `Summary.FoldGroups` | src/usage/recorder.rs:584-637 | the second stage folds the group rows |
| `Summary.FoldMeans` | src/usage/recorder.rs:395-403 | a folded table has an entry exactly for the keys that occur, with their totals; a currency is listed exactly when some row of the key has a known amount in it |
| `Summary.SqlSumMeans` | src/usage/recorder.rs:572-581 | SUM skips NULL amounts and is NULL exactly for a group without any amount |
| `Summary.TwoStagesAgree` | src/usage/recorder.rs:548-639 | GROUP BY key and currency, in any order, then folded, gives the table of the one pass, NULLs included |
| `Summary.TotalCostsAgree` | src/usage/recorder.rs:548-566 | leaving NULL currencies and costs out of the totals' query loses no cost |
| `Summary.TotalsAgree` | src/usage/recorder.rs:514-546 | COUNT, the filtered COUNT and the three COALESCEd SUMs of the totals query are the counts and sums of the in-memory totals, NULL columns included |
| `Summary.OverallIsTotals` | src/usage/recorder.rs:772-785 | requests and tokens of a single group over all records are the totals |
| `Summary.PartsAddUp` | src/usage/recorder.rs:772-847 | requests, tokens and the cost in any currency, summed over series or breakdown, equal the totals that are reported |
| `UsageQueries.SelectedIsFiltered` | src/usage/recorder.rs:673-702 | the rows a statement reads are the records the in-memory filter keeps |
| `UsageQueries.SummaryRecords` | src/usage/recorder.rs:496-507 | a summary is about the records of its time and, if it is for one user, of that user |
| `UsageQueries.CostRows` | src/usage/recorder.rs:548-556 | the rows of the cost query are the filtered records whose cost is known |
| `UsageQueries.SqlSummary` | src/usage/recorder.rs:490-660 | whatever order the statements return their groups in, folding them gives the report of the filtered records |
| `UsageQueries.MemorySummary` | src/usage/recorder.rs:769-847 | the in-memory summary gives that report |
| `UsageQueries.SummariesAgree` | src/usage/recorder.rs:490-847 | the database and the memory recorder report the same summary for the same parameters and records |
| `Sessions.MemorySessionStore.Open` | src/admin/session.rs:88-102 | stores the session until the TTL has passed |
| `Sessions.MemorySessionStore.Get` | src/admin/session.rs:105-117 | answers by the rule: opened, not removed since, not expired; an expired entry is dropped unseen |
| `Sessions.MemorySessionStore.Remove` | src/admin/session.rs:119-121 | removes one session |
| `Sessions.MemorySessionStore.RemoveUser` | src/admin/session.rs:123-129 | leaves no session of the user |
| `Sessions.RedisSessionStore.Open` | src/admin/session.rs:252-278 | stores the session and lists it in the user's index, which expires no sooner; records whether another user's live index lists the token |
| `Sessions.RedisSessionStore.Get` | src/admin/session.rs:280-294 | answers by the same rule, as long as no token was shared between users |
| `Sessions.RedisSessionStore.Remove` | src/admin/session.rs:296-312 | removes the session and its index entry |
| `Sessions.RedisSessionStore.RemoveUser` | src/admin/session.rs:314-329 | through the index alone, leaves no readable session of the user and touches nobody else's |
| `Sessions.SignedOutUntilLogin` | src/admin/session.rs:43-46 | once a user has been removed, whatever is called next without opening a session for the user, no token reads as that user |
| `Sessions.AnswerMeaning` | src/admin/session.rs:24-57 | a token reads as an identity exactly when it was opened for it less than 24 hours ago and has neither been opened again nor removed since, nor has its user |
| `Sessions.FreshMeaning` | src/admin/session.rs:24-57 | a token is fresh if no call has opened it |
| `Sessions.ServeBoth` | src/admin/session.rs:24-57 | over any run in which no token is opened for one user while listed for another, fresh tokens in particular, the memory and the Redis store give the same answers |
| `Sessions.SharedTokenDiverges` | src/admin/session.rs:252-329 | whenever a token is opened for one user while listed for another, removing that other user makes the two stores answer differently |
| `LoginLimiter.CountsInARow` | src/admin/session.rs:193-199 | the unbounded limiter counts consecutive failures, always fewer than five |
| `LoginLimiter.LockedAfterFive` | src/admin/session.rs:193-199 | a username is locked exactly while less than the lockout has passed since its last fifth failure in a row |
| `LoginLimiter.Limiter.IsLocked` | src/admin/session.rs:167-179 | until a failure has been refused, the answer is that of the unbounded limiter; forgetting an expired lock changes nothing |
| `LoginLimiter.Limiter.RegisterFailure` | src/admin/session.rs:181-200 | never above 10,000 entries; a failure is refused exactly when the username is new and every entry of a full table is still needed |
| `LoginLimiter.Limiter.Evict` | src/admin/session.rs:182-188 | drops exactly the entries without failures and without a live lock, which nobody can observe |
| `LoginLimiter.Limiter.ClearFailures` | src/admin/session.rs:202-204 | forgets the username |
| `LoginLimiter.Serve` | src/admin/session.rs:167-204 | over whole timed runs, the answers before the first refused failure, wherever it comes, equal those of the unbounded limiter |

## Left out

Not modelled:

- HTTP, headers, TLS, URI parsing, authentication of callers and roles, error texts: an upstream is an arbitrary sequence of outcomes, a handler answers with a status.
- JSON, UTF-8, TOML and decimal parsing: functions that are parameters, of which only what the code checks itself is known.
- Rounding: `numeric(20,10)` storage, `INCRBYFLOAT`, `Decimal` overflow and negative zero, and `f64` jitter above 2^53. Money and jitter are exact reals.
- 64-bit overflow of token sums in `ensure_total` and in the summaries: those sums are unbounded integers here. Subtraction of cached input saturates as in the code.
- The sea-orm stores, database migrations and Redis transport: the in-memory stores give the semantics, and each Redis pipeline is one step. `remove` and `remove_user` read the session or the index and then delete, in two round trips; here they are one.
- Concurrent admin handlers and handlers whose store calls fail halfway: gates check and then act, and `update_model` writes the chain before the status, so the invariant is about handlers that run one after another to their end.
- Concurrent swaps of the snapshot: `store_api_keys` and its siblings load and then store, so they are modelled one after another.
- `SharedGatewayState::without_reload`, which only tests use.
- Usage lists: the order of equal timestamps, and `LIMIT`/`OFFSET` casts to `i64`. Summaries: average latency, the division of the error count by the requests, and the order of rows; `date_trunc` is taken in UTC.
- A client that hangs up in the middle of a stream: the observer is dropped and nothing is recorded.
- The `last_used_at` touch of the batch writer, and records sent after its shutdown drain has ended.
- The order in which `list_models` sorts, where it only picks the name in a 409 message.
- Account management, password hashing, key generation, cookies, the file watcher and its debouncing, and the user interface.

Stated with less than the code does:

- Startup.Life: starts from the empty database and one boot of it; later boots over whatever a database holds are `Startup.Boot`, and `BootTwice` for what a bad first file leaves behind.
- Startup.Boot: the database, Redis and the accounts are taken to be reachable and in order, and the counter is the one in process memory.
- Startup.Administer: the refresh follows its handler at once; another handler in between is not modelled.
- Usage.RecordAmount: asks for a reported input that fits `i64`, as everything the parser reads does (`Tokens.CountMeaning`).
- SqlFilter.FilterAgrees: about the tokens of the SQL text, with the grammar of AND, OR, parentheses and comparisons.
- Sessions.RedisSessionStore.Get: a stored payload always reads back; corrupt payloads are not modelled.
- LoginLimiter.Limiter.IsLocked: the in-memory limiter; Redis keeps failures under a rolling expiry instead of until success, which is a different limiter and is not modelled.
- RedisLoop.RedisNeverOvercounts: a command runs before the call that sent it ends, or never, unless its request was cancelled; then it may run at any time. One process writes to Redis at a time.
