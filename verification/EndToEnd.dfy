/** What a Caddy server answers after a run of the reconciler: for a host of a surviving Ingress,
    what that Ingress reads. */
module EndToEnd {
  import opened Strings
  import opened Routes
  import opened Serving
  import opened Meaning
  import opened Guarantees
  import opened LiveConfig
  import opened SyncSpec
  import opened Convergence
  import opened RouteIds
  import opened Driving
  import opened Placement

  // ---------- whose ids ----------

  /** Clean names and hosts, distinct hosts, and an HTTP server when it is needed. */
  predicate CleanInput(i: Input, names: Names) {
    i.Sync? ==> CleanIngress(i.ing) && !Skips(names, i.ing.PlainHTTP())
  }

  lemma CleanEventIsGood(i: Input, names: Names, sec: Security, ingressClass: string)
    requires CleanInput(i, names) && (i.Sync? ==> i.ann.Valid())
    ensures GoodEvent(TagOf, names, EventOf(i, sec, ingressClass))
  {
    if i.Sync? {
      CleanEventsAreWellTagged(i.ing, sec, i.ann, ingressClass);
      CleanRoutesAreCoherent(i.ing, sec, i.ann);
    }
  }

  lemma CleanEventsAreGood(inputs: seq<Input>, names: Names, sec: Security, ingressClass: string)
    requires Resolved(inputs) && forall i :: i in inputs ==> CleanInput(i, names)
    ensures forall e :: e in EventsOf(inputs, sec, ingressClass) ==> GoodEvent(TagOf, names, e)
  {
    var evs := EventsOf(inputs, sec, ingressClass);
    forall e | e in evs ensures GoodEvent(TagOf, names, e) {
      var k :| 0 <= k < |evs| && evs[k] == e;
      assert inputs[k] in inputs;
      CleanEventIsGood(inputs[k], names, sec, ingressClass);
    }
  }

  /** Runs over clean Ingresses converge, with ownership read off the ids. */
  lemma CleanRunsConverge(names: Names, start: AppState, inputs: seq<Input>, sec: Security, ingressClass: string)
    requires UniqueIds(start.live) && OwnsTagged(TagOf, start.routeIDs)
    requires Resolved(inputs) && forall i :: i in inputs ==> CleanInput(i, names)
    ensures var evs := EventsOf(inputs, sec, ingressClass);
      Converged(TagOf, start, Run(start, names, evs), evs)
  {
    CleanEventsAreGood(inputs, names, sec, ingressClass);
    RunsConverge(TagOf, names, start, EventsOf(inputs, sec, ingressClass));
  }

  /** The id belongs to t: the start lists it for a key, or an event of the run compiles to it. */
  ghost predicate Claims(owned: map<string, seq<string>>, evs: seq<Event>, id: string, t: Tag) {
    || (t.RouteOf? && id in Owned(owned, t.key))
    || exists e :: e in evs && ClaimedBy(e, id, t)
  }

  ghost predicate ClaimedBy(e: Event, id: string, t: Tag) {
    && e.Add?
    && ((t == RouteOf(e.key) && id in IdSet(e.routes)) || (t == RedirectOf(e.key) && id in IdSet(e.redirects)))
  }

  /** No id belongs to two keys, or to a route and to a redirect. */
  ghost predicate Unambiguous(owned: map<string, seq<string>>, evs: seq<Event>) {
    forall id, t, u :: Claims(owned, evs, id, t) && Claims(owned, evs, id, u) ==> t == u
  }

  /** The owner of an id, as the start and the run's own events tell. */
  ghost function OwnerOf(owned: map<string, seq<string>>, evs: seq<Event>, id: string): Tag {
    if t :| Claims(owned, evs, id, t) then t else Foreign
  }

  ghost function Owners(owned: map<string, seq<string>>, evs: seq<Event>): string -> Tag {
    id => OwnerOf(owned, evs, id)
  }

  /** Convergence whatever the names: dashes and dots do no harm as long as no id of this very run
      belongs to two owners. */
  lemma UnambiguousRunsConverge(names: Names, start: AppState, evs: seq<Event>)
    requires UniqueIds(start.live) && Unambiguous(start.routeIDs, evs)
    requires forall e :: e in evs && e.Add? ==> Coherent(e.routes) && !Skips(names, e.plain)
    ensures Converged(Owners(start.routeIDs, evs), start, Run(start, names, evs), evs)
  {
    var owned, tag := start.routeIDs, Owners(start.routeIDs, evs);
    forall k, id | k in owned && id in owned[k] ensures tag(id) == RouteOf(k) {
      assert Claims(owned, evs, id, RouteOf(k));
    }
    forall e | e in evs ensures GoodEvent(tag, names, e) {
      if e.Add? {
        forall r | r in e.routes ensures tag(r.id) == RouteOf(e.key) {
          assert ClaimedBy(e, r.id, RouteOf(e.key));
          assert Claims(owned, evs, r.id, RouteOf(e.key));
        }
        forall r | r in e.redirects ensures tag(r.id) == RedirectOf(e.key) {
          assert ClaimedBy(e, r.id, RedirectOf(e.key));
          assert Claims(owned, evs, r.id, RedirectOf(e.key));
        }
      }
    }
    RunsConverge(tag, names, start, evs);
  }

  // ---------- placement ----------

  predicate Targets(names: Names, e: Event, key: string, server: string) {
    e.Add? && e.key == key && Target(names, e) == server
  }

  /** A live route was there at the start, is a redirect of some event on the HTTP server, or is
      a compiled route on a server that some add event of its key targeted. */
  ghost predicate Placed(tag: string -> Tag, names: Names, start: seq<Live>, l: Live, evs: seq<Event>) {
    || l in start
    || (exists e :: e in evs && e.Add? && l.route in e.redirects && l.server == names.http)
    || (tag(l.route.id).RouteOf? && exists e :: e in evs && Targets(names, e, tag(l.route.id).key, l.server))
  }

  lemma {:induction false} UpsertAllMembers(c: seq<Live>, server: string, rs: seq<CaddyRoute>, l: Live)
    requires l in UpsertAll(c, server, rs)
    ensures l in c || (l.server == server && l.route in rs)
    decreases rs
  {
    if rs != [] {
      UpsertAllMembers(Upserted(c, server, rs[0]), server, rs[1..], l);
      MemberExcept(c, iset{rs[0].id}, l);
      assert rs[0] in rs;
    }
  }

  lemma {:induction false} RunsPlaceRoutes(tag: string -> Tag, names: Names, start: AppState, evs: seq<Event>, l: Live)
    requires forall e :: e in evs ==> WellTagged(tag, e)
    requires l in Run(start, names, evs).live
    ensures Placed(tag, names, start.live, l, evs)
  {
    if evs != [] {
      var before, e := evs[..|evs| - 1], evs[|evs| - 1];
      assert e in evs && forall d :: d in before ==> d in evs;
      var s := Run(start, names, before);
      if l in s.live {
        RunsPlaceRoutes(tag, names, start, before, l);
      } else if e.Add? {
        AddMembers(tag, names, s, e, l);
      } else if e.Delete? {
        MemberExcept(s.live, SeqSet(Owned(s.routeIDs, e.key)), l);
      }
    }
  }

  lemma AddMembers(tag: string -> Tag, names: Names, s: AppState, e: Event, l: Live)
    requires e.Add? && WellTagged(tag, e) && l in Apply(s, names, e).live && l !in s.live
    ensures || (l.route in e.redirects && l.server == names.http)
            || (tag(l.route.id) == RouteOf(e.key) && Targets(names, e, e.key, l.server))
  {
    var redirected := Redirected(s.live, names, e.redirects);
    var cleaned := Except(redirected, Stale(Owned(s.routeIDs, e.key), e.routes));
    if l !in cleaned { UpsertAllMembers(cleaned, Target(names, e), e.routes, l); }
    if l in cleaned {
      MemberExcept(redirected, Stale(Owned(s.routeIDs, e.key), e.routes), l);
      if names.http != "" { UpsertAllMembers(s.live, names.http, e.redirects, l); }
    }
  }

  // ---------- what the server answers ----------

  lemma {:induction false} ServerRoutesMembers(c: seq<Live>, server: string, r: CaddyRoute)
    ensures r in ServerRoutes(c, server) <==> Live(server, r) in c
  {
    if c != [] { ServerRoutesMembers(c[1..], server, r); }
  }

  /** A run over events whose ids are their own, from any state a restart may have found. */
  ghost predicate OwnRun(tag: string -> Tag, names: Names, start: AppState, evs: seq<Event>) {
    && UniqueIds(start.live) && OwnsTagged(tag, start.routeIDs)
    && forall e :: e in evs ==> GoodEvent(tag, names, e)
  }

  /** All the key's events target the server, and its routes were there before. */
  ghost predicate OnServer(tag: string -> Tag, names: Names, start: AppState, evs: seq<Event>, key: string,
                           server: string)
  {
    && (forall e :: e in evs && e.Add? && e.key == key ==> Target(names, e) == server)
    && (forall l :: l in start.live && tag(l.route.id) == RouteOf(key) ==> l.server == server)
  }

  /** The run leaves each of the key's routes on the server. */
  ghost predicate SettledOn(tag: string -> Tag, names: Names, start: AppState, evs: seq<Event>, key: string,
                            routes: seq<CaddyRoute>, server: string) {
    forall r :: r in routes ==>
      && tag(r.id) == RouteOf(key)
      && Settled(start, names, evs, key, r.id) == Some(Live(server, r))
  }

  /** No other route of the list matches the request. */
  ghost predicate OthersStandAside(w: World, here: seq<CaddyRoute>, routes: seq<CaddyRoute>, req: Request) {
    forall r :: r in here && r !in routes ==> !RouteMatches(w, r, req)
  }

  /** Events that all target one server settle the key's latest routes there. */
  lemma OneServerSettles(tag: string -> Tag, names: Names, start: AppState, evs: seq<Event>, key: string,
                         routes: seq<CaddyRoute>, server: string)
    requires OwnRun(tag, names, start, evs) && OnServer(tag, names, start, evs, key, server)
    requires Latest(evs, key) == Some(routes)
    ensures SettledOn(tag, names, start, evs, key, routes, server)
  {
    var last := LatestComesFromAnEvent(evs, key);
    assert GoodEvent(tag, names, last) && About(last, key);
    RunsConverge(tag, names, start, evs);
    forall r | r in routes
      ensures tag(r.id) == RouteOf(key) && Settled(start, names, evs, key, r.id) == Some(Live(server, r))
    {
      CoherentFind(routes, r);
      RunsSettle(tag, names, start, evs, r.id);
      assert Content(Run(start, names, evs).live, r.id) == Some(r);
      OneTargetSettles(start, names, evs, key, r.id, server);
    }
  }

  lemma SettledRoutesAreServed(tag: string -> Tag, names: Names, start: AppState, evs: seq<Event>, key: string,
                               routes: seq<CaddyRoute>, server: string)
    requires OwnRun(tag, names, start, evs) && SettledOn(tag, names, start, evs, key, routes, server)
    ensures forall r :: r in routes ==> r in ServerRoutes(Run(start, names, evs).live, server)
  {
    forall r | r in routes ensures r in ServerRoutes(Run(start, names, evs).live, server) {
      RunsSettle(tag, names, start, evs, r.id);
      ServerRoutesMembers(Run(start, names, evs).live, server, r);
    }
  }

  /** After any fault-free run, from whatever a restart found, the server on which an Ingress's
      routes settled answers as that Ingress reads, for every request that no other route of the
      server matches and that its own rules, if several apply, answer alike; in whatever order the
      upserts left the routes. */
  lemma LiveServerServesTheIngress(w: World, tag: string -> Tag, names: Names, start: AppState, evs: seq<Event>,
                                   ing: Ingress, sec: Security, ann: Annotations, server: string, st: State)
    requires OwnRun(tag, names, start, evs) && ann.Valid()
    requires SettledOn(tag, names, start, evs, ing.Key(), Compiled(ing, sec, ann), server)
    requires OthersStandAside(w, ServerRoutes(Run(start, names, evs).live, server), Compiled(ing, sec, ann), st.req)
    requires RulesAgree(w, ing, sec, ann, st)
    ensures RunRoutes(w, ServerRoutes(Run(start, names, evs).live, server), st) == Direct(w, ing, sec, ann, st)
  {
    SettledRoutesAreServed(tag, names, start, evs, ing.Key(), Compiled(ing, sec, ann), server);
    CompiledAnswers(w, ing, sec, ann, st);
    CompiledAgreeIff(w, ing, sec, ann, st);
    AgreeingRoutesAnswerAlike(w, Compiled(ing, sec, ann), ServerRoutes(Run(start, names, evs).live, server), st);
    CompilePreservesMeaning(w, ing, sec, ann, st);
  }

  // ---------- many Ingresses on one server ----------

  /** Input i is the last one about its Ingress, and keeps it. */
  predicate LastWord(inputs: seq<Input>, i: nat, sec: Security, ingressClass: string)
    requires Resolved(inputs)
  {
    && i < |inputs| && inputs[i].Sync? && IsOurs(inputs[i].ing, ingressClass)
    && forall j | i < j < |inputs| :: !About(EventOf(inputs[j], sec, ingressClass), inputs[i].ing.Key())
  }

  /** Some rule of the Ingress takes the request. */
  predicate TakesSome(w: World, ing: Ingress, ann: Annotations, req: Request) {
    exists k | 0 <= k < |ing.rules| :: Takes(w, ing, ann, k, req)
  }

  /** At most one surviving Ingress takes the request: hosts of their own, say. */
  ghost predicate OneTaker(w: World, inputs: seq<Input>, sec: Security, ingressClass: string, req: Request)
    requires Resolved(inputs)
  {
    forall i: nat, j: nat | LastWord(inputs, i, sec, ingressClass) && LastWord(inputs, j, sec, ingressClass)
      && TakesSome(w, inputs[i].ing, inputs[i].ann, req) && TakesSome(w, inputs[j].ing, inputs[j].ann, req) :: i == j
  }

  /** Nothing else can answer the request: no redirect of the run on this server matches it, and what
      the server held at the start is a listed route of an Ingress the run is about, or does not. */
  ghost predicate NothingElse(w: World, tag: string -> Tag, names: Names, start: AppState, evs: seq<Event>,
                              server: string, req: Request)
  {
    && tag("") == Foreign && Listed(tag, start) && start.store == start.routeIDs
    && (server == names.http ==>
          forall e, r :: e in evs && e.Add? && r in e.redirects ==> !RouteMatches(w, r, req))
    && (forall l :: l in start.live && l.server == server ==>
          (tag(l.route.id).RouteOf? && Mentioned(evs, tag(l.route.id).key)) || !RouteMatches(w, l.route, req))
  }

  lemma {:induction false} LatestIndex(evs: seq<Event>, key: string, n: nat) returns (i: nat)
    requires n <= |evs| && Latest(evs[..n], key).Some?
    requires forall j | n <= j < |evs| :: !About(evs[j], key)
    ensures i < n && evs[i].Add? && evs[i].key == key && evs[i].routes == Latest(evs[..n], key).value
    ensures forall j | i < j < |evs| :: !About(evs[j], key)
  {
    assert n > 0;
    PrefixOfPrefix(evs, n);
    if About(evs[n - 1], key) { i := n - 1; } else { i := LatestIndex(evs, key, n - 1); }
  }

  lemma LatestIsLastWord(inputs: seq<Input>, key: string, sec: Security, ingressClass: string) returns (i: nat)
    requires Resolved(inputs) && Latest(EventsOf(inputs, sec, ingressClass), key).Some?
    ensures LastWord(inputs, i, sec, ingressClass) && inputs[i].ing.Key() == key && inputs[i].ann.Valid()
    ensures Latest(EventsOf(inputs, sec, ingressClass), key).value == Compiled(inputs[i].ing, sec, inputs[i].ann)
  {
    var evs := EventsOf(inputs, sec, ingressClass);
    Whole(evs);
    i := LatestIndex(evs, key, |evs|);
    assert inputs[i] in inputs && evs[i] == EventOf(inputs[i], sec, ingressClass);
    assert forall j | 0 <= j < |inputs| :: inputs[j] in inputs && evs[j] == EventOf(inputs[j], sec, ingressClass);
  }

  lemma {:induction false} LastWordIsLatest(inputs: seq<Input>, i: nat, n: nat, sec: Security, ingressClass: string)
    requires Resolved(inputs) && LastWord(inputs, i, sec, ingressClass) && i < n <= |inputs|
    ensures Latest(EventsOf(inputs, sec, ingressClass)[..n], inputs[i].ing.Key())
              == Some(Compiled(inputs[i].ing, sec, inputs[i].ann))
    decreases n
  {
    var evs := EventsOf(inputs, sec, ingressClass);
    PrefixOfPrefix(evs, n);
    assert inputs[n - 1] in inputs;
    if n - 1 > i { LastWordIsLatest(inputs, i, n - 1, sec, ingressClass); }
  }

  /** A live route of a mentioned key is one its latest event asks for. */
  lemma LiveRouteIsWanted(tag: string -> Tag, names: Names, start: AppState, evs: seq<Event>, l: Live)
    requires OwnRun(tag, names, start, evs) && Listed(tag, start) && start.store == start.routeIDs && tag("") == Foreign
    requires l in Run(start, names, evs).live && tag(l.route.id).RouteOf? && Mentioned(evs, tag(l.route.id).key)
    ensures var key := tag(l.route.id).key; Latest(evs, key).Some? && l.route in Latest(evs, key).value
  {
    RunsConverge(tag, names, start, evs);
    ListedRunsConverge(tag, names, start, evs);
    MemberIsLookup(Run(start, names, evs).live, l);
    var key := tag(l.route.id).key;
    assert Content(Run(start, names, evs).live, l.route.id) == Some(l.route);
    FindRouteMeaning(Latest(evs, key).value, l.route.id);
  }

  /** A route of the server that matches a request is one of the surviving Ingress that takes it. */
  lemma OnlyTheTakerMatches(w: World, tag: string -> Tag, names: Names, start: AppState, inputs: seq<Input>,
                            sec: Security,
                            ingressClass: string, server: string, req: Request, r: CaddyRoute) returns (i: nat)
    requires Resolved(inputs) && OwnRun(tag, names, start, EventsOf(inputs, sec, ingressClass))
    requires NothingElse(w, tag, names, start, EventsOf(inputs, sec, ingressClass), server, req)
    requires r in ServerRoutes(Run(start, names, EventsOf(inputs, sec, ingressClass)).live, server) &&
             RouteMatches(w, r, req)
    ensures LastWord(inputs, i, sec, ingressClass) && TakesSome(w, inputs[i].ing, inputs[i].ann, req)
    ensures r in Compiled(inputs[i].ing, sec, inputs[i].ann)
  {
    var evs := EventsOf(inputs, sec, ingressClass);
    var l := Live(server, r);
    ServerRoutesMembers(Run(start, names, evs).live, server, r);
    RunsPlaceRoutes(tag, names, start, evs, l);
    MatchingRouteIsMentioned(w, tag, names, start, evs, l, req);
    LiveRouteIsWanted(tag, names, start, evs, l);
    i := LatestIsLastWord(inputs, tag(r.id).key, sec, ingressClass);
    var k := RouteComesFromRule(inputs[i].ing, sec, inputs[i].ann, 0, r);
    RuleRouteAnswers(w, inputs[i].ing, sec, inputs[i].ann, k, r, Start(req));
  }

  lemma MatchingRouteIsMentioned(w: World, tag: string -> Tag, names: Names, start: AppState, evs: seq<Event>,
                                 l: Live, req: Request)
    requires OwnRun(tag, names, start, evs) && Placed(tag, names, start.live, l, evs)
    requires NothingElse(w, tag, names, start, evs, l.server, req) && RouteMatches(w, l.route, req)
    ensures tag(l.route.id).RouteOf? && Mentioned(evs, tag(l.route.id).key)
  {
    if l !in start.live {
      assert !exists e :: e in evs && e.Add? && l.route in e.redirects && l.server == names.http;
      var e :| e in evs && Targets(names, e, tag(l.route.id).key, l.server);
      assert About(e, tag(l.route.id).key);
    }
  }

  lemma TheTakerIsServed(w: World, tag: string -> Tag, names: Names, start: AppState, inputs: seq<Input>, sec: Security,
                         ingressClass: string, server: string, st: State, i: nat)
    requires Resolved(inputs) && OneTaker(w, inputs, sec, ingressClass, st.req)
    requires OwnRun(tag, names, start, EventsOf(inputs, sec, ingressClass))
    requires NothingElse(w, tag, names, start, EventsOf(inputs, sec, ingressClass), server, st.req)
    requires LastWord(inputs, i, sec, ingressClass) && TakesSome(w, inputs[i].ing, inputs[i].ann, st.req)
    requires OnServer(tag, names, start, EventsOf(inputs, sec, ingressClass), inputs[i].ing.Key(), server)
    requires inputs[i].ann.Valid() && RulesAgree(w, inputs[i].ing, sec, inputs[i].ann, st)
    ensures RunRoutes(w, ServerRoutes(Run(start, names, EventsOf(inputs, sec, ingressClass)).live, server), st)
         == Direct(w, inputs[i].ing, sec, inputs[i].ann, st)
  {
    var evs, ing, ann := EventsOf(inputs, sec, ingressClass), inputs[i].ing, inputs[i].ann;
    LastWordIsLatest(inputs, i, |inputs|, sec, ingressClass);
    Whole(evs);
    OneServerSettles(tag, names, start, evs, ing.Key(), Compiled(ing, sec, ann), server);
    forall r | r in ServerRoutes(Run(start, names, evs).live, server) && RouteMatches(w, r, st.req)
      ensures r in Compiled(ing, sec, ann)
    {
      var j := OnlyTheTakerMatches(w, tag, names, start, inputs, sec, ingressClass, server, st.req, r);
      assert i == j;
    }
    LiveServerServesTheIngress(w, tag, names, start, evs, ing, sec, ann, server, st);
  }

  /** Many Ingresses, one server: after any fault-free run a request that one surviving Ingress takes
      is answered as that Ingress reads, whatever the others do; one that none takes falls. */
  lemma EachHostIsServedAsItsIngressReads(w: World, tag: string -> Tag, names: Names, start: AppState,
                                          inputs: seq<Input>,
                                          sec: Security, ingressClass: string, server: string, st: State)
    requires Resolved(inputs) && OneTaker(w, inputs, sec, ingressClass, st.req)
    requires OwnRun(tag, names, start, EventsOf(inputs, sec, ingressClass))
    requires NothingElse(w, tag, names, start, EventsOf(inputs, sec, ingressClass), server, st.req)
    ensures var here := ServerRoutes(Run(start, names, EventsOf(inputs, sec, ingressClass)).live, server);
      && (forall i: nat | LastWord(inputs, i, sec, ingressClass) &&
          TakesSome(w, inputs[i].ing, inputs[i].ann, st.req) ::
            inputs[i].ann.Valid()
            && (OnServer(tag, names, start, EventsOf(inputs, sec, ingressClass), inputs[i].ing.Key(), server)
                && RulesAgree(w, inputs[i].ing, sec, inputs[i].ann, st) ==>
                  RunRoutes(w, here, st) == Direct(w, inputs[i].ing, sec, inputs[i].ann, st)))
      && ((forall i: nat | LastWord(inputs, i, sec, ingressClass) ::
           !TakesSome(w, inputs[i].ing, inputs[i].ann, st.req)) ==>
            RunRoutes(w, here, st) == Fall(st))
  {
    var evs := EventsOf(inputs, sec, ingressClass);
    var here := ServerRoutes(Run(start, names, evs).live, server);
    forall i: nat | LastWord(inputs, i, sec, ingressClass) && TakesSome(w, inputs[i].ing, inputs[i].ann, st.req)
      ensures inputs[i].ann.Valid()
      ensures OnServer(tag, names, start, evs, inputs[i].ing.Key(), server) &&
              RulesAgree(w, inputs[i].ing, sec, inputs[i].ann, st) ==>
                RunRoutes(w, here, st) == Direct(w, inputs[i].ing, sec, inputs[i].ann, st)
    {
      assert inputs[i] in inputs;
      if OnServer(tag, names, start, evs, inputs[i].ing.Key(), server) &&
          RulesAgree(w, inputs[i].ing, sec, inputs[i].ann, st) {
        TheTakerIsServed(w, tag, names, start, inputs, sec, ingressClass, server, st, i);
      }
    }
    if forall i: nat | LastWord(inputs, i, sec, ingressClass) :: !TakesSome(w, inputs[i].ing, inputs[i].ann, st.req) {
      NoTakerFalls(w, tag, names, start, inputs, sec, ingressClass, server, st);
    }
  }

  lemma NoTakerFalls(w: World, tag: string -> Tag, names: Names, start: AppState, inputs: seq<Input>, sec: Security,
                     ingressClass: string, server: string, st: State)
    requires Resolved(inputs) && OwnRun(tag, names, start, EventsOf(inputs, sec, ingressClass))
    requires NothingElse(w, tag, names, start, EventsOf(inputs, sec, ingressClass), server, st.req)
    requires forall i: nat | LastWord(inputs, i, sec, ingressClass) ::
               !TakesSome(w, inputs[i].ing, inputs[i].ann, st.req)
    ensures RunRoutes(w, ServerRoutes(Run(start, names, EventsOf(inputs, sec, ingressClass)).live, server), st)
              == Fall(st)
  {
    var here := ServerRoutes(Run(start, names, EventsOf(inputs, sec, ingressClass)).live, server);
    forall r | r in here ensures !RouteMatches(w, r, st.req) {
      if RouteMatches(w, r, st.req) {
        var j := OnlyTheTakerMatches(w, tag, names, start, inputs, sec, ingressClass, server, st.req, r);
      }
    }
    NoMatchFalls(w, here, st);
  }
}
