# caddy-k8s: a Dafny model of the Ingress reconciler and route compiler

caddy-k8s is a Caddy module that turns Kubernetes Ingress objects into live Caddy routes. This
project models its logic and proves properties of it. `dafny verify dfyconfig.toml` checks all of it.

The system has these parts, one or two modules each:

- **Route compiler** (`Routes`, `Serving`, `Paths`, `Meaning`, `Responses`, `Guarantees`,
  `EffectiveHeaders`). `Routes` holds the builders of `routes.go` as the loops the source runs, each
  proved against a function that says what it produces. `Serving` interprets route lists: this is the
  model's assumption about Caddy. Routes are tried in order; match sets are or-ed and the matchers inside
  one are and-ed; a terminal route ends evaluation; a subroute nests; `static_response` and
  `reverse_proxy` never call the next handler; authentication, body limit, rate limit, WAF and policy
  handlers pass or reject. Host patterns, CIDR membership, non-trivial path globs and the gates are
  uninterpreted. `Meaning` proves that serving the compiled routes gives what reading the Ingress directly
  gives, for every request; `Responses` says without the builders what a request meets: address, gates,
  headers both ways, redirects.
- **Reconciler** (`LiveConfig`, `Admin`, `Store`, `SyncSpec`, `Reconciler`, `Convergence`, `Placement`,
  `Resync`, `Redirects`, `Driving`). The remote Caddy is an object whose calls are served, lost before any
  effect, or take effect and lose their reply, as an arbitrary schedule says; it refuses a POST of a live
  `@id`. Live routes are one list of (server, route); a server's routes are the entries that name it, in
  order. `UpsertRoute`, `DeleteRoute`, `HandleAdd` and `HandleDelete` are methods over that object. Their
  contracts hold under every fault schedule, speak about every intermediate state through the call trace,
  and equal the pure function `SyncSpec.Apply` when nothing fails. Caddy also keeps the failed calls and
  the waits, so the contracts can say that an upsert tries three times and that a failure excuses only its
  own id. The trace records which calls reported an error; a ghost set of leaked ids grows by exactly the
  ids the handler had to delete and whose own GET or DELETE reported one. `Driving` runs the handlers over
  event lists with restarts in between, `Placement` says on which server a route ends up, `Resync` when a
  second delivery writes nothing. Route equality stands for the equality of normalised JSON, so handlers
  hold what is marshalled and nothing else.
- **Concurrency** (`Interleaving`, `Serial`, `Progress`, `Ledger`, `Attendance`). The handlers again as a
  step machine: a program counter per handler, a lock per key, one admin call or guarded map access a
  step, any scheduler, any fault.
- **Ids** (`RouteIds`). The side conditions of the reconciler ("ids of different Ingresses differ") appear
  as a function `tag` from ids to owners. `RouteIds` shows that for clean names and hosts the ids
  themselves give such a function, and shows the collisions otherwise.
- **Side tables** (`Tls`, `AccessLog`) and **annotation encodings** (`Annotated`, `Strings`).
- **End to end** (`EndToEnd`, `Shortfalls`). Whose an id is, and what a live server then answers for the
  hosts of one or of many Ingresses; `Shortfalls` holds inputs at which documented promises fail.

Where code and documentation disagree the model follows the code:

- `README.md:716` of the repository says updates use `PUT /id/<id>`; the code deletes and re-posts, so
  an updated route moves to the end of its server. That is harmless for a request if and only if the rules
  that apply to it answer it alike (`Guarantees.AnyOrderServesIffRulesAgree`);
  `Shortfalls.UpdateGoesToTheOtherService` is an update after which another service answers.
- `app.go:513` says that Ingresses with `spec.tls` go to the HTTPS server and all others to the HTTP one. An
  update compares content only, and toggling `spec.tls` changes content only under two settings that are
  off by default (`Placement.ToggleCompilesAlikeIff`). A route is on the server its latest event targets if
  and only if that event changed its content or found it there (`Placement.OnLatestTargetIff`);
  `Placement.SecuredIngressStaysOnHTTP` is an Ingress that gains `spec.tls` and is never served on HTTPS.
- The comments at `store.go:14-18` and `app.go:319-320` promise that routes of Ingresses deleted while
  Caddy was down are cleaned up after a restart. A restored route that no event asks for is cleaned up if
  and only if some event is about its Ingress (`Convergence.LeftoverIsCleanedIffMentioned`), and the first
  listing has none for a deleted one (`Shortfalls.DeletedWhileDownStaysLive`).
- The comment at `routes.go:313-315` says that unrecognised origins fall through to a plain 204; in the
  code they fall through to the path routes, and so they do in `Meaning.DirectRule`.
- `admin.go:27-31` promises that a re-sync is a no-op. It is one if and only if rules whose hosts get the
  same id label compile to the same route and, with ssl-redirect placed, no redirect shares its id with a
  different redirect, with a compiled route, or with an id the first sync deletes (`Resync.SyncTwice` over
  the test `Resync.SettlesAtOnce`). `Resync.TwoRulesForOneHostNeverSettle` and
  `Resync.ImitatedRedirectNeverSettles` are two families that never settle.
- `README.md:283` and `annotations.go:535-544` keep credentials away from the wildcard origin by looking for
  the list `*`. Every origin is echoed with credentials if and only if credentials are asked for and `*` or
  `**` is one of several origins, or the one origin is the Origin placeholder
  (`EffectiveHeaders.EveryOriginIsTrustedIff`, and `EffectiveHeaders.EveryClientIsTrustedIff` for what
  clients see).
- An `Exact` path `/` (or the empty path) selects every request:
  `Paths.ExactMeansEqualExactlyOffRoot` is the exact condition.
- `access_log.go:28-31` treats the remembered list as what the servers hold. That fails after a partly
  effective rebuild; `AccessLog.AgreementKeptIffAllOrNothing` is the exact condition and
  `AccessLog.PartialSendIsNotRepaired` shows the consequence.

## Model

| member | source | states |
|---|---|---|
| Routes.BuildCORSResponseHeaders | routes.go:348-379 | the header map grown by assignments is the specified one for both origin forms |
| Routes.BuildIPGuardRoutes | routes.go:141-165 | whitelist guard before blocklist guard, each only when its list is non-empty |
| Routes.BuildCoreHandlers | routes.go:250-311 | the appended chain is CORS headers, early gates, rewrite, response headers, late gates, proxy |
| Routes.BuildReverseProxy | routes.go:489-574 | the transport and the merged header map, annotation over built-in names in any map order, are the specified handler |
| Routes.BuildHandlers | routes.go:196-243 | redirects replace the chain; several origins split it; otherwise it is the flat chain |
| Routes.ConvertPaths | routes.go:45-68 | path routes keep their index when paths without a service are skipped |
| Routes.ConvertRule | routes.go:70-107 | guards, preflight and paths under one terminal host route, flattened only when nothing else is there |
| Routes.ConvertIngress | routes.go:37-111 | the loop over the rules yields the specified list of host routes |
| Routes.HttpRedirectRoutes | routes.go:115-137 | one redirect route for each rule with a host |
| Paths.ElementwisePrefix | routes.go:178 | for all strings, equal to the path or extending it after a slash is the same as element-wise prefix of the split paths |
| Paths.PrefixPathMeaning | routes.go:168-179 | without a trailing slash the two matchers mean element-wise prefix, with one they mean literal prefix |
| Paths.MatchersMeanSelection | routes.go:168-179 | for every path and path type the emitted matchers accept exactly what the path selects |
| Paths.ExactMeansEqualExactlyOffRoot | routes.go:169-174 | an exact path selects only itself if and only if it is neither empty nor "/" |
| Meaning.RunCoreChain | routes.go:250-311 | the chain rejects at the first failing gate, else proxies the rewritten request with all header edits |
| Meaning.RunOriginSplit | routes.go:220-240 | the origin split runs exactly one branch, chosen by the Origin header |
| Meaning.RunHandlerChain | routes.go:196-243 | every handler chain, redirect or not, split or not, serves what the annotations say |
| Meaning.RunPathRoutes | routes.go:46-68 | the first listed path with a service that selects the request answers |
| Meaning.RunIPGuards | routes.go:141-165 | the guards let a request fall through exactly when its address is allowed, else answer 403 |
| Meaning.RunPreflights | routes.go:316-335 | OPTIONS from an allowed origin is answered 204 with CORS headers, everything else falls through |
| Meaning.FlatteningKeepsMeaning | routes.go:82-90 | the flattening shortcut serves what the wrapping subroute would |
| Meaning.RunRuleRoutes | routes.go:40-107 | one rule's route answers as the rule reads, and only requests the rule applies to |
| Meaning.CompilePreservesMeaning | routes.go:37-111 | for every Ingress, settings, annotations and request, the compiled routes answer as the direct reading |
| Responses.DialsTheSelectedService | routes.go:46-52 | a forwarded request goes to the selected service in the Ingress's own namespace: the address splits back into service, namespace and domain, and its port parses back to the service's |
| Responses.PassesExactlyTheGatesAskedFor | routes.go:257-306 | the gates a forwarded request has passed are those asked for, with their accounts, limits, zone, WAF mode and policy, and no others |
| Responses.WafReadsBack | routes.go:455-486 | whatever the extra directives say, the rule sets come first and the engine settings last, blocking exactly in mode "on" |
| Responses.SendsUpstream | routes.go:489-574 | path, every request header by name, deletions, transport options and retries of the forwarded request |
| Responses.AnswersWithHeaders | routes.go:253-289 | every header of the response to a forwarded request, by name: annotation, else security headers under spec.tls, else CORS |
| Responses.AnswersPreflight | routes.go:316-379 | a preflight request from an allowed origin and address gets 204 with every CORS header by name |
| Responses.AnswersRedirect | routes.go:198-217 | a redirecting Ingress answers with the temporary before the permanent target and the given code, else 302 or 301 |
| Guarantees.DialsOnlyBehindEveryGate | routes.go:181-310 | an upstream is dialled only after every enabled gate passed, in the documented order, in both CORS branches |
| Guarantees.AddressGuardsComeFirst | routes.go:74-90 | a disallowed address gets 403 from whichever rule applies, before preflight, redirect and paths |
| Guarantees.CorsHeadersKeepAllowOrigin | routes.go:348-379 | inside the CORS handler's own map no later key overwrites Allow-Origin; Vary is present exactly off "*" |
| Guarantees.OriginSplitDiffersInFirstHandlerOnly | routes.go:220-240 | the two branches are the same chain with and without the CORS handler in front |
| Guarantees.OnlyListedOriginsAreEchoed | routes.go:219-243 | over all answers, the CORS edit echoes listed origins as sent and other origins get no CORS edit |
| EffectiveHeaders.ProxiedHeader | routes.go:196-310 | on every upstream response, Allow-Origin and Allow-Credentials are the CORS handler's as the response-headers annotation overrides them |
| EffectiveHeaders.EchoReachesClientIff | routes.go:219-243 | a listed origin reaches the client as echoed if and only if the annotation neither deletes nor re-sets Allow-Origin; other origins get none if and only if it does not set it |
| EffectiveHeaders.StarWithCredentialsIff | annotations.go:535-544 | credentials next to a literal "*" reach a client exactly when they are enabled and the request's own Origin is an echoed "*" |
| EffectiveHeaders.StarAmongSeveralTrustsEveryOrigin | annotations.go:535-544 | "*" among several origins admits and echoes every origin, with credentials when enabled |
| EffectiveHeaders.AdmitsEveryoneIff | routes.go:219-243 | a list of non-empty origins admits every Origin header if and only if "*" or "**" is in it |
| EffectiveHeaders.EveryOriginIsTrustedIff | annotations.go:535-544 | over all annotations, every origin is echoed with credentials if and only if credentials are asked for and several origins hold "*" or "**", or the one origin is the placeholder |
| EffectiveHeaders.EveryClientIsTrustedIff | annotations.go:535-544 | the same on upstream responses, for an Ingress that serves some request with an empty Origin |
| Guarantees.AnyOrderIffAgree | admin.go:64-77 | for routes that answer when they match, all permutations answer a request alike if and only if all routes that match it do |
| Guarantees.AnyOrderServesIffRulesAgree | admin.go:64-77 | every permutation of the compiled routes answers a request as the Ingress reads if and only if the rules that apply to it answer it alike |
| Guarantees.DistinctPlainHostsAgree | routes.go:92-107 | distinct wildcard-free hosts without aliases are a case of that, for every request |
| Guarantees.OrderDoesNotMatter | admin.go:64-77 | any two arrangements of the same one-per-host routes answer every request alike |
| Guarantees.CompiledHasOnePerHost | routes.go:92-107 | distinct wildcard-free hosts without aliases compile to one terminal route per host |
| Guarantees.AnyOrderServesTheIngress | admin.go:64-77 | each permutation of the compiled routes answers as the Ingress reads, where the rules agree |
| LiveConfig.UpsertAllEstablishes | app.go:524-529 | after a fault-free pass over a coherent list every route of it is live with its content |
| LiveConfig.ResyncWritesNothingIffCoherent | admin.go:27-33 | a second pass writes nothing if and only if routes sharing an id are equal |
| Admin.Caddy.GetRoute | admin.go:88-106 | a GET changes nothing and reports the route, its absence or an error |
| Admin.Caddy.DeleteId | admin.go:186-211 | a DELETE is served, lost, or half-reported; an absent id is an error |
| Admin.Caddy.PostRoute | admin.go:74-77 | a POST appends unless lost, and is refused for a live id or an unknown server |
| Admin.AdminClient.UpsertRoute | admin.go:34-84 | under any faults: success leaves exactly one live route with the requested content, failure leaves none, the old or the new one; an up-to-date route is never written; other routes keep content and order at every step; it gives up only with the error of a third failed call or in a cancelled wait, so at a known server two faults are survived |
| Admin.AdminClient.TryThrice | admin.go:40-83 | the loop itself: how many calls fail and how many waits there are before it succeeds, is cancelled or returns the third error |
| Admin.AdminClient.Attempt | admin.go:50-81 | one pass of the retry loop keeps all of that and reports success only for the requested content |
| Admin.AdminClient.DeleteRoute | admin.go:121-127 | success leaves the id absent, an absent id is not written, other routes are untouched |
| Store.MemoryStore.LoadAll | store.go:55-65 | the copy loop returns the whole mapping |
| Store.RedisStore.Save | store.go:104-110 | sets the key's entry and no other, or reports an error |
| Store.RedisStore.Remove | store.go:112-114 | removes the key's entry and no other, or reports an error |
| Store.RedisStore.LoadAll | store.go:116-136 | stripping the prefix gives back exactly the entries whose own GET was served; only a failed KEYS is an error |
| Store.BothStoresAgree | store.go:19-28 | after the same operations both stores load the same mapping; foreign Redis keys are untouched |
| SyncSpec.UninterruptedThroughout | app.go:497-529 | in every state a sync passes through, whatever fails, unchanged and unrelated routes stay live |
| SyncSpec.AddKeepsAccounts | app.go:502-533 | after a sync every live compiled route is owned, was leaked before, or is a stale one whose own GET or DELETE reported an error in this sync |
| SyncSpec.SkipKeepsAccounts | app.go:515-520 | the same through the early return for a missing HTTP server |
| SyncSpec.DeleteKeepsAccounts | app.go:572-585 | the same after a delete, for the ids its key owned |
| Reconciler.App.UpsertEach | app.go:524-529 | the loop writes only routes that were out of date at its start and goes on after errors: a route with the last word on its id is up to date at the end unless a call about that id failed in the loop; without faults it writes something if there was something to write |
| Reconciler.App.DeleteEach | app.go:505-511 | the loop writes only ids that were live; an id is left only if its own GET or DELETE in this loop reported an error |
| Reconciler.App.ClearOld | app.go:483-511 | redirect upserts and stale deletions, with their combined footprint and fault-free effect |
| Reconciler.App.SyncLive | app.go:483-529 | all admin calls of a sync: footprint at every step, accounting, fault-free effect, early return |
| Reconciler.App.HandleAdd | app.go:397-540 | class check to store write, whatever the ids and faults: an Ingress with neither the class name nor the annotation is left alone; for any other the compiled ids are listed, each compiled route and redirect is up to date or a call about its id failed, each stale id is gone or its own deletion failed, the store entry is set unless its own call failed; footprint at every step; leaks are exactly the stale ids whose deletion reported an error; equals the specified event without faults, writing nothing only if nothing was out of date |
| Reconciler.App.HandleDelete | app.go:542-588 | the same for the ids the key owned: each is gone or its own deletion failed, the ownership entry goes, the store entry goes unless its own call failed |
| Reconciler.App.Record | app.go:531-537 | the ownership entry is set whatever the store answers; the store takes it, or reports an error |
| Reconciler.App.Erase | app.go:583-585 | the store entry goes, or the store reports an error |
| Reconciler.App.Restore | app.go:319-330 | the stored mapping is overlaid on the ownership map; an entry is left out only if its own GET failed, and nothing else changes |
| Placement.ToggleCompilesAlikeIff | routes.go:281-283 | gaining or losing spec.tls leaves compiled content equal if and only if security headers are off and no scheme header is injected, or everything redirects |
| Placement.OnTargetIffWrittenOrThere | app.go:513-529 | after a fault-free sync a route is on the event's target server if and only if it was out of date or there already |
| Placement.WrittenRoutesGoByTLS | app.go:513-522 | a route that a sync has to write lands on the HTTPS server exactly when the Ingress has spec.tls |
| Placement.RunsSettle | app.go:513-529 | after any fault-free run each compiled id has the entry read off its key's events: the content of the last, on the server of the one that brought it |
| Placement.ServerIsOfTheLastChange | admin.go:56-63 | that server is the one targeted by the last event that changed the content, or the start's |
| Placement.OnLatestTargetIff | app.go:513-529 | over runs, a route is on the server its latest event targets if and only if that event changed its content or found it there |
| Placement.SecuredIngressStaysOnHTTP | app.go:513-522 | with default settings an Ingress that gains spec.tls stays on the HTTP server, and the HTTPS server has nothing |
| Resync.ResyncTouchesNothingIffSettled | admin.go:27-33 | after a fault-free sync nothing of the event is out of date or stale if and only if placed routes and redirects sharing an id are equal and no redirect's id was stale |
| Resync.CompiledCoherentIff | routes.go:92-107 | compiled routes sharing an id are equal if and only if servable rules with the same host label compile alike |
| Resync.RedirectsCoherentIff | routes.go:115-137 | redirect routes sharing an id are equal if and only if hosts with the same label are the same |
| Resync.PlacedCoherentIff | routes.go:121-122 | both together are if and only if, further, no servable host imitates a redirect's id |
| Resync.SyncTwice | admin.go:27-33 | of two fault-free syncs of any one Ingress from any state, the second issues no DELETE or POST if and only if its rules pass those tests and no placed redirect has an id the first sync deletes |
| Resync.RedeliverySettlesByRules | admin.go:27-33 | for an Ingress that already owns its routes, the rules alone decide |
| Resync.TwoRulesForOneHostNeverSettle | routes.go:102-103 | two rules for one host with a path each fail the test under all settings |
| Resync.ImitatedRedirectNeverSettles | routes.go:121-122 | with ssl-redirect, a host and the one that imitates its redirect fail it too |
| Redirects.RunRedirects | routes.go:115-137 | the redirect routes answer 301 to the HTTPS URL for the Ingress's hosts and pass all other requests on |
| Redirects.RedirectsAreNeverRemoved | app.go:483-491 | once placed, a redirect is live to the end of every fault-free run |
| Redirects.DeletedIngressStillRedirects | app.go:572-581 | so it outlives its Ingress |
| Convergence.AddConverges | app.go:493-537 | one add keeps the converged state, whatever the run started from |
| Convergence.DeleteConverges | app.go:572-585 | one delete does too |
| Convergence.RunsConverge | app.go:359-363 | from any state a restart may find, after any fault-free run every mentioned key has its latest event's routes, ownership and store entries, all other keys have what they had, an unwanted known id is gone, an unknown one stays, and foreign routes keep content and order |
| Convergence.ListedRunsConverge | app.go:319-330 | when the start lists its routes, mentioned keys end with exactly their latest event's routes, and the end lists its routes again |
| Convergence.LeftoverIsCleanedIffMentioned | app.go:319-330 | a restored route no event asks for is removed if and only if some event is about its Ingress |
| Shortfalls.LeftBehindStaysLive | app.go:319-330 | what a clean Ingress's sync left stays live and listed through every later run that is not about it |
| Shortfalls.DeletedWhileDownStaysLive | store.go:14-18 | the compiled route of an Ingress deleted while Caddy was down is live after the first listing |
| Shortfalls.UpdateChangesTheAnswer | admin.go:64-77 | with overlapping hosts an update of the first rule makes the second answer its requests |
| Shortfalls.UpdateGoesToTheOtherService | admin.go:64-77 | an input at which the live server then dials another service than the Ingress reads |
| Driving.Drive | app.go:359-363 | over any event list, without faults the state is the specified run's, whatever the ids; with faults ownership is still the specified run's, and while ids tell their owners each route that its key's latest event asks for is up to date or a call about it failed, accounts survive, each leak has a failed deletion of its own and belongs to a key of the list; the store agrees while its calls succeed |
| Driving.ReachedNext | app.go:397-540 | one event under faults brings the routes of its own key up to date or fails on them, and leaves what other keys' latest events asked for |
| Driving.Restart | app.go:319-330 | a restart over the same Caddy and Redis restores ownership as it was, after runs with any Caddy faults |
| Driving.DriveLives | app.go:319-330 | the same through any number of restarts, which cannot be noticed when Caddy is fault-free too |
| EndToEnd.CleanRunsConverge | routes.go:576-588 | runs over clean Ingresses converge, with ownership read off the ids |
| EndToEnd.UnambiguousRunsConverge | routes.go:576-588 | runs over any names converge as long as no id of the run belongs to two owners |
| EndToEnd.LiveServerServesTheIngress | admin.go:64-77 | after any fault-free run from any start, the server where an Ingress's routes settled answers as it reads, in whatever order upserts left them, where its rules agree and no other route matches |
| EndToEnd.EachHostIsServedAsItsIngressReads | app.go:359-363 | of many Ingresses, a request that one of them takes is answered as its latest version reads, and one that none takes falls through |
| RouteIds.HostIdsInjective | routes.go:578-588 | host-level ids of clean names and hosts determine namespace, name and host through both replacements |
| RouteIds.RateZonesDiffer | routes.go:384-396 | rate-limit zones of Ingresses in dash-free namespaces tell the Ingresses apart |
| RouteIds.PathIdsDistinct | routes.go:584-587 | under one host, path ids differ for different indices and from the host-level id |
| RouteIds.PathRoutesKeepTheirPlaces | routes.go:46-66 | the path routes are those of the paths with a service, in order, each with the id of its path's own place in the rule |
| RouteIds.PathRouteIdsDiffer | routes.go:56 | so no two path routes of a rule share an id |
| RouteIds.IdsCollideOtherwise | routes.go:578-588 | dots against dashes, and a dash moved between namespace and name, make ids collide |
| RouteIds.CleanEventsAreWellTagged | routes.go:576-588 | ids of compiled and redirect routes of clean Ingresses tell every key apart |
| RouteIds.CleanRoutesAreCoherent | routes.go:102-103 | no two routes of a clean Ingress share an id |
| RouteIds.CleanRedirectsAreCoherent | routes.go:121-122 | no two redirect routes of a clean Ingress share an id |
| Interleaving.StepIsSafe | app.go:404-406 | every step of every handler, with every fault, keeps ids unique, ownership disjoint and locks exclusive |
| Interleaving.EveryScheduleIsSafe | app.go:612-615 | so does every schedule |
| Interleaving.NoDuplicateIdsAndNoPostOfLiveId | admin.go:34-84 | no reachable state has a duplicate id or a handler about to POST a live id; active handlers have different keys |
| Serial.UnmentionedKeyKeepsItsRoutes | app.go:319-330 | a key no event is about keeps its entries, its routes and its redirects, in order, through any fault-free run |
| Ledger.StepKeepsAccounts | app.go:502-533 | every step of every handler, with any fault of Caddy or the store, keeps each live compiled route owned, in a running handler's hands, or leaked |
| Ledger.LeaksHaveFaults | app.go:505-511 | an id is leaked only by a step with a fault, of a handler of its own key |
| Ledger.EveryScheduleIsAccounted | app.go:397-588 | so every state any schedule reaches is accounted for, by ownership and leaks alone once no handler runs |
| Attendance.UpStepPerseveres | admin.go:40-83 | a failed step of an upsert starts the next attempt, and ends the call only at the third; otherwise it ends only up to date or cancelled |
| Attendance.EveryScheduleAttends | app.go:397-540 | in every state any schedule reaches, with any faults, each handler that runs or was last of its key has its redirects and routes so far up to date, or failed three times on that id, or was cancelled there |
| Serial.ApplyOnItsKey | app.go:397-540 | a handler acts on its key's share of the state alone |
| Serial.UpStepHeadsFor | admin.go:50-81 | every fault-free step of an upsert keeps the result it is heading for |
| Serial.StepStaysSerial | app.go:404-406 | every fault-free step keeps the correspondence with the serial run of the finished handlers |
| Serial.CompleteSchedulesAreSerial | app.go:397-588 | every complete fault-free schedule ends with the routes by id, ownership and store of a serial order of all handlers |
| Progress.HandlerCanStep | app.go:404-406 | in every safe state a handler that runs, or waits for a free lock, has a served step that brings it nearer its end |
| Progress.EveryScheduleCanComplete | app.go:612-615 | no deadlock: after any schedule with any faults, some served steps finish every handler |
| Tls.TLSManager.LoadFromIngress | tls.go:57-143 | the loop over spec.tls tracks each reference and stores certificate, key and hosts of usable, pushed secrets |
| Tls.TLSManager.RemoveFromIngress | tls.go:146-169 | the loop drops references and, with the last one, the certificate |
| Tls.TLSManager.ReloadSecret | tls.go:227-264 | only a managed certificate is replaced, keeping its hosts |
| Tls.TLSManager.ManagedHosts | tls.go:279-295 | the hosts of managed certificates, each once |
| Tls.ReferencesAreExact | tls.go:77-83 | over all runs a key refers to a secret exactly when its latest event naming it is a load; no stored set is empty; every certificate is referenced |
| Tls.LoadedIngressKeepsItsReferences | tls.go:77-83 | an Ingress whose latest event is a load refers to every secret it names |
| Tls.UsedCertificateIsNeverDropped | tls.go:155-166 | no event drops a certificate that some Ingress still refers to |
| Tls.ManagedIsTheLatest | tls.go:57-264 | over all runs a secret is managed if and only if some Ingress has referred to it ever since an entry was accepted for it; its hosts are the latest accepted entry's, its certificate and key the latest accepted entry's or reload's |
| Tls.HostsAfter | tls.go:279-295 | after any run the managed hosts are, once each, the hosts of the latest accepted entry of each secret still in use |
| AccessLog.AccessLogManager.Collect | access_log.go:119-130 | the two loops build the de-duplicated list for the map order they met |
| AccessLog.AccessLogManager.Rebuild | access_log.go:118-164 | suppression, PATCH in server order until an error, remembering only complete sends, and an error exactly when something was to be sent and a PATCH failed; fault-free it leaves every named server with exactly the opted-out hosts |
| AccessLog.AccessLogManager.Skip | access_log.go:101-106 | records the hosts and rebuilds, passing on its error; fault-free each named server then skips exactly the opted-out hosts |
| AccessLog.AccessLogManager.Unskip | access_log.go:110-115 | forgets the hosts and rebuilds, passing on its error; fault-free each named server then skips exactly the opted-out hosts |
| AccessLog.AccessLogManager.Enable | access_log.go:46-88 | the logger, then an empty list on the HTTPS server and on the HTTP server if it has a name, until the first error, with what each failure leaves |
| AccessLog.Operate | access_log.go:46-164 | after Enable and any fault-free operations each named server's list is duplicate-free and holds exactly the hosts that some key's latest operation opts out |
| AccessLog.SkipListIsTheUnion | access_log.go:120-130 | for any iteration order the list is duplicate-free and holds exactly the opted-out hosts |
| AccessLog.ServedRebuildIsRight | access_log.go:143-163 | a fault-free rebuild leaves every list right even when it sends nothing |
| AccessLog.RunsKeepListsRight | access_log.go:101-164 | so does every fault-free run, whatever the map orders |
| AccessLog.AgreementKeptIffAllOrNothing | access_log.go:153-162 | with faults the remembered list stays true if and only if every PATCH was served or the first had no effect |
| AccessLog.OneServerAlwaysAgrees | access_log.go:153-162 | over every run, one server with all-or-nothing PATCHes holds the remembered list |
| AccessLog.PartialSendIsNotRepaired | access_log.go:143-148 | after a partly effective rebuild, returning to the remembered list is suppressed and leaves the first server wrong |
| AccessLog.IngressHosts | app.go:591-601 | the non-empty rule hosts, each once, in the order of their first rules |
| Annotated.ParseHeaderAnnotation | annotations.go:274-290 | the loop yields the specified sets, last assignment winning, and deletes in order |
| Annotated.ParsePrintParse | annotations.go:274-290 | for every raw string and entry order, parse after print after parse is parse |
| Annotated.PrintedParsesBack | annotations.go:274-290 | every clean header configuration, printed in any entry order, parses back to itself |
| Annotated.ParseBodySize | annotations.go:706-733 | trimming, unit suffix, signed decimal and 64-bit product |
| Annotated.BodySizeOfDecimal | annotations.go:706-733 | for all n and units: n times the unit when it fits, the wrapped product when only n fits, an error otherwise |
| Annotated.ConfiguredLimitIsCarried | routes.go:261-266 | a positive size in range is the one body limit of every branch that proxies |
| Annotated.ResolveCors | annotations.go:514-568 | defaults, origin list, credentials rule and max age as the specified record |
| Annotated.ResolvesWhatIsWritten | annotations.go:514-568 | a configuration written into the annotations resolves to itself |
| Annotated.DefaultCors | annotations.go:516-533 | no CORS without the enabling annotation; with it alone, the documented defaults |
| Annotated.EveryCorsHandlerEmitsTheSame | routes.go:219-255 | preflight, flat chain and origin split all emit the same header map |
| Annotated.CredentialsNeverWithStar | annotations.go:535-544 | for all annotations, Allow-Credentials is emitted exactly when asked for and the origin is not "*"; Vary exactly off "*" |

## Left out

- Kubernetes client, informers, Secret and ConfigMap lookups: resolved annotations, secrets and events are inputs.
- HTTP and JSON: an admin call is one step, `normaliseJSON` is equality of routes (integers within 2^53, complete bodies), and a stored id list is a value or does not decode.
- Nested path-level `@id`s in Caddy's index: a live route is indexed by its host-level id; path ids are part of its content.
- Case folding, percent escapes and path cleaning in Caddy's matchers: hosts and paths are compared as given.
- Caddy placeholders: only a value that is the Origin placeholder is expanded; other values stay symbolic.
- Redis glob characters in the ingress class: the KEYS pattern is taken as a literal prefix.
- ssl-redirect routes are never entered in the ownership map, so the accounting does not cover them.
- EndToEnd.LiveServerServesTheIngress: covers requests that no other route of the server matches and that the Ingress's own rules answer alike; by `Guarantees.AnyOrderServesIffRulesAgree` some order answers otherwise when they do not.
- EndToEnd.EachHostIsServedAsItsIngressReads: covers requests that no redirect on the same server matches; what a redirect answers is `Redirects.RunRedirects`.
- Convergence.RunsConverge: supposes an HTTP server for every plain-HTTP Ingress of the run; the early return without one is in the accounting and in `SyncSpec.Apply`.
- Driving.Restart: covers the Redis store while its calls succeed; the in-memory store starts empty and forgets ownership, and after a failed store call the source promises nothing.
- Serial.CompleteSchedulesAreSerial: that schedules can complete is `Progress.EveryScheduleCanComplete`; that they do, scheduling fairness, belongs to the Go runtime.
- EffectiveHeaders.ProxiedHeader: header names are compared as given and a delete removes one name; header folding, wildcard deletes and headers sent by the upstream itself are Caddy's.
- Interleaving.StepIsSafe: handleDelete's deletions may come in any order in the machine, a superset of the source's list order.
- AccessLog.AccessLogManager.Rebuild: is one atomic step; its lock is released between its parts in the source.
- Tls.TLSManager.LoadFromIngress: is one atomic step, as are the removal and the reload.
- Annotated.ParseHeaderAnnotation: works on characters; header-name canonicalisation by Caddy is not modelled.
- Server discovery, logger configuration, TLS automation policies, WAF ConfigMaps, the ConfigMap reloader and Caddyfile parsing: set-up, or single exists-then-write flows easier than the reconciler.
- parseCIDRList and server-alias splitting: the loop of `Annotated.ParseOrigins` over other annotations.
- parseTimeoutSeconds: timeouts are the strings it returns.
- Authorization handlers: compared by their normalised JSON text, and taken not to be spelled like a handler the compiler builds.
- Two module instances racing during a Caddy reload: one instance is modelled.
