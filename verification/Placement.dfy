/** On which server a route sits. An update compares content only, so a route whose content stays
    the same stays where it was first put, even when its Ingress gains or loses spec.tls. */
module Placement {
  import opened Strings
  import opened Routes
  import opened Meaning
  import opened Guarantees
  import opened LiveConfig
  import opened SyncSpec
  import opened Convergence

  // ---------- what toggling spec.tls changes ----------

  /** The same Ingress with and without spec.tls. */
  predicate Toggled(plain: Ingress, secured: Ingress) {
    plain.PlainHTTP() && !secured.PlainHTTP() && secured == plain.(tls := secured.tls)
  }

  /** Whether the real-IP headers tell plain HTTP from HTTPS: not when the annotation sets both. */
  predicate SchemeInjected(sec: Security, ann: Annotations) {
    sec.injectRealIP
    && !(FORWARDED_PROTO in ann.requestHeaders.sets && FORWARDED_PORT in ann.requestHeaders.sets)
  }

  predicate ToggleShows(sec: Security, ann: Annotations) {
    !ann.IsRedirect() && (sec.securityHeaders || SchemeInjected(sec, ann))
  }

  lemma HeaderNamesDiffer()
    ensures FORWARDED_PROTO !in {"Host", "X-Forwarded-Prefix", "X-Real-IP", "X-Forwarded-For", "X-Forwarded-Host"}
    ensures FORWARDED_PORT !in {"Host", "X-Forwarded-Prefix", "X-Real-IP", "X-Forwarded-For", "X-Forwarded-Host"}
    ensures FORWARDED_PROTO != FORWARDED_PORT
  {
    assert |FORWARDED_PROTO| == 17 && |FORWARDED_PORT| == 16 && |"X-Forwarded-Prefix"| == 18;
    assert |"X-Real-IP"| == 9 && |"X-Forwarded-For"| == 15 && |"Host"| == 4;
    assert FORWARDED_PORT[12] == 'P' && "X-Forwarded-Host"[12] == 'H';
  }

  /** What RequestHeaders has under one of the two names. */
  lemma SchemeHeader(injectRealIP: bool, proxy: Proxy, plain: bool, cfg: HeaderConfig, name: string)
    requires name == FORWARDED_PROTO || name == FORWARDED_PORT
    ensures var h := RequestHeaders(injectRealIP, proxy, plain, cfg);
      && (name in h <==> injectRealIP || name in cfg.sets)
      && (name in cfg.sets ==> h[name] == [cfg.sets[name]])
      && (injectRealIP && name !in cfg.sets ==> h[name] == RealIPHeaders(plain)[name])
  {
    HeaderNamesDiffer();
  }

  lemma RequestHeadersSameIff(proxy: Proxy, sec: Security, ann: Annotations)
    ensures (RequestHeaders(sec.injectRealIP, proxy, true, ann.requestHeaders)
             == RequestHeaders(sec.injectRealIP, proxy, false, ann.requestHeaders))
            <==> !SchemeInjected(sec, ann)
  {
    var cfg := ann.requestHeaders;
    var h, g := RequestHeaders(sec.injectRealIP, proxy, true, cfg), RequestHeaders(sec.injectRealIP, proxy, false, cfg);
    forall name | name in {FORWARDED_PROTO, FORWARDED_PORT}
      ensures sec.injectRealIP && name !in cfg.sets ==> name in h && name in g && h[name] != g[name]
      ensures name in cfg.sets ==> name in h && name in g && h[name] == g[name]
    {
      SchemeHeader(sec.injectRealIP, proxy, true, cfg, name);
      SchemeHeader(sec.injectRealIP, proxy, false, cfg, name);
      HeaderNamesDiffer();
      assert |"http"| == 4 && |"https"| == 5 && "80"[0] == '8' && "443"[0] == '4';
      assert RealIPHeaders(true)[name][0] != RealIPHeaders(false)[name][0];
    }
    if !SchemeInjected(sec, ann) {
      forall k ensures (k in h <==> k in g) && (k in h ==> h[k] == g[k]) {
        if sec.injectRealIP && k !in {FORWARDED_PROTO, FORWARDED_PORT} {
          assert k in RealIPHeaders(true) <==> k in RealIPHeaders(false);
        }
      }
    }
  }

  lemma CoreChainSameIff(upstream: string, ing: Ingress, sec: Security, ann: Annotations, withCORS: bool, dynamic: bool)
    requires ann.Valid()
    ensures (CoreChain(upstream, ing, sec, ann, true, withCORS, dynamic)
             == CoreChain(upstream, ing, sec, ann, false, withCORS, dynamic))
            <==> !sec.securityHeaders && !SchemeInjected(sec, ann)
  {
    var a, b := CoreChain(upstream, ing, sec, ann, true, withCORS, dynamic),
        CoreChain(upstream, ing, sec, ann, false, withCORS, dynamic);
    RequestHeadersSameIff(ann.proxy, sec, ann);
    LastHandler(upstream, ing, sec, ann, true, withCORS, dynamic);
    LastHandler(upstream, ing, sec, ann, false, withCORS, dynamic);
    assert |b| == |a| + if sec.securityHeaders then 1 else 0;
  }

  lemma LastHandler(upstream: string, ing: Ingress, sec: Security, ann: Annotations, plain: bool, withCORS: bool,
                    dynamic: bool)
    requires ann.Valid()
    ensures var chain := CoreChain(upstream, ing, sec, ann, plain, withCORS, dynamic);
      && |chain| > 0 && chain[|chain| - 1] == ProxyHandler(upstream, sec, ann, plain)
      && chain[..|chain| - 1] == CorsPart(ann, withCORS, dynamic) + EarlyGates(ing, ann)
                                 + If(ann.rewriteTarget != "", Rewrite(ann.rewriteTarget))
                                 + HeaderHandlers(sec, ann, plain) + LateGates(sec, ann)
  {}

  lemma HandlerChainSameIff(upstream: string, plain: Ingress, secured: Ingress, sec: Security, ann: Annotations)
    requires ann.Valid() && Toggled(plain, secured)
    ensures HandlerChain(upstream, plain, sec, ann) == HandlerChain(upstream, secured, sec, ann) <==>
              !ToggleShows(sec, ann)
  {
    CoreChainSameIff(upstream, plain, sec, ann, ann.cors.Some?, false);
    CoreChainSameIff(upstream, plain, sec, ann, true, true);
    CoreChainSameIff(upstream, plain, sec, ann, false, false);
    ChainIgnoresTLS(upstream, plain, secured, sec, ann);
    if !ann.IsRedirect() && ann.cors.Some? && |ann.cors.value.origins| > 1 {
      var a, b := CoreChain(upstream, plain, sec, ann, true, true, true),
          CoreChain(upstream, plain, sec, ann, true, false, false);
      var c, d := CoreChain(upstream, plain, sec, ann, false, true, true),
          CoreChain(upstream, plain, sec, ann, false, false, false);
      SplitSameIff(ann.cors.value, a, b, c, d);
    }
  }

  lemma SplitSameIff(cors: Cors, a: seq<Handler>, b: seq<Handler>, c: seq<Handler>, d: seq<Handler>)
    ensures [OriginSplit(cors, a, b)] == [OriginSplit(cors, c, d)] <==> a == c && b == d
  {
    if [OriginSplit(cors, a, b)] == [OriginSplit(cors, c, d)] {
      assert [OriginSplit(cors, a, b)][0] == [OriginSplit(cors, c, d)][0];
      assert OriginSplit(cors, a, b).routes[0].handle == a && OriginSplit(cors, c, d).routes[0].handle == c;
      assert OriginSplit(cors, a, b).routes[1].handle == b && OriginSplit(cors, c, d).routes[1].handle == d;
    }
  }

  /** Apart from the scheme, a chain depends on spec.tls in no way. */
  lemma ChainIgnoresTLS(upstream: string, plain: Ingress, secured: Ingress, sec: Security, ann: Annotations)
    requires ann.Valid() && Toggled(plain, secured)
    ensures forall p, c, d :: CoreChain(upstream, plain, sec, ann, p, c, d)
              == CoreChain(upstream, secured, sec, ann, p, c, d)
  {
    assert EarlyGates(plain, ann) == EarlyGates(secured, ann);
  }

  /** Two routes that differ, if at all, in what the toggle shows. */
  predicate Twins(a: CaddyRoute, b: CaddyRoute, shows: bool) {
    a.id == b.id && a.matches == b.matches && a.terminal == b.terminal && (a.handle == b.handle <==> !shows)
  }

  predicate AllTwins(a: seq<CaddyRoute>, b: seq<CaddyRoute>, shows: bool) {
    |a| == |b| && forall k | 0 <= k < |a| :: Twins(a[k], b[k], shows)
  }

  lemma TwinsCons(a: CaddyRoute, rest: seq<CaddyRoute>, b: CaddyRoute, rest': seq<CaddyRoute>, shows: bool)
    requires Twins(a, b, shows) && AllTwins(rest, rest', shows)
    ensures AllTwins([a] + rest, [b] + rest', shows)
  {}

  lemma {:induction false} PathRoutesAreTwins(plain: Ingress, secured: Ingress, sec: Security, ann: Annotations,
                                              host: string,
                                              paths: seq<HTTPPath>, i: nat)
    requires ann.Valid() && Toggled(plain, secured) && i <= |paths|
    ensures AllTwins(PathRoutes(plain, sec, ann, host, paths, i), PathRoutes(secured, sec, ann, host, paths, i),
                     ToggleShows(sec, ann))
    decreases |paths| - i
  {
    if i < |paths| {
      PathRoutesAreTwins(plain, secured, sec, ann, host, paths, i + 1);
      if paths[i].service.Some? {
        var upstream := Upstream(plain, paths[i].service.value);
        assert upstream == Upstream(secured, paths[i].service.value);
        HandlerChainSameIff(upstream, plain, secured, sec, ann);
        TwinsCons(PathRoute(plain, sec, ann, host, paths[i], i), PathRoutes(plain, sec, ann, host, paths, i + 1),
                  PathRoute(secured, sec, ann, host, paths[i], i), PathRoutes(secured, sec, ann, host, paths, i + 1),
                  ToggleShows(sec, ann));
      }
    }
  }

  /** Wrapping twin path routes in the same guards, flattened or not, gives the same handle exactly
      when nothing shows. */
  lemma HostHandleSameIff(guards: seq<CaddyRoute>, preflights: seq<CaddyRoute>, a: seq<CaddyRoute>,
                          b: seq<CaddyRoute>, shows: bool)
    requires AllTwins(a, b, shows) && a != []
    ensures (HostHandle(guards, guards + (preflights + a)) == HostHandle(guards, guards + (preflights + b))) <==> !shows
  {
    var all, all' := guards + (preflights + a), guards + (preflights + b);
    var n := |guards| + |preflights|;
    assert all[n] == a[0] && all'[n] == b[0] && Twins(a[0], b[0], shows);
    if !shows {
      assert a == b;
    } else {
      assert all[n] != all'[n];
      assert [Subroute(all)][0].routes == all && [Subroute(all')][0].routes == all';
    }
    if |all| == 1 {
      assert n == 0 && all[0].matches == all'[0].matches;
    }
  }

  lemma RuleRoutesAreTwins(plain: Ingress, secured: Ingress, sec: Security, ann: Annotations, rule: Rule)
    requires ann.Valid() && Toggled(plain, secured)
    ensures AllTwins(RuleRoutes(plain, sec, ann, rule), RuleRoutes(secured, sec, ann, rule), ToggleShows(sec, ann))
  {
    if rule.http.Some? {
      PathRoutesAreTwins(plain, secured, sec, ann, rule.host, rule.http.value, 0);
      var a := PathRoutes(plain, sec, ann, rule.host, rule.http.value, 0);
      var b := PathRoutes(secured, sec, ann, rule.host, rule.http.value, 0);
      if a != [] { HostHandleSameIff(IPGuards(ann), Preflights(ann), a, b, ToggleShows(sec, ann)); }
    }
  }

  lemma TwinsAppend(a: seq<CaddyRoute>, b: seq<CaddyRoute>, c: seq<CaddyRoute>, d: seq<CaddyRoute>, shows: bool)
    requires AllTwins(a, b, shows) && AllTwins(c, d, shows)
    ensures AllTwins(a + c, b + d, shows)
  {}

  lemma {:induction false} CompiledRulesAreTwins(plain: Ingress, secured: Ingress, sec: Security, ann: Annotations,
                                                 k: nat)
    requires ann.Valid() && Toggled(plain, secured) && k <= |plain.rules|
    ensures AllTwins(CompiledRules(plain, sec, ann, k), CompiledRules(secured, sec, ann, k), ToggleShows(sec, ann))
    decreases |plain.rules| - k
  {
    if k < |plain.rules| {
      CompiledRulesAreTwins(plain, secured, sec, ann, k + 1);
      RuleRoutesAreTwins(plain, secured, sec, ann, plain.rules[k]);
      TwinsAppend(RuleRoutes(plain, sec, ann, plain.rules[k]), RuleRoutes(secured, sec, ann, plain.rules[k]),
                  CompiledRules(plain, sec, ann, k + 1), CompiledRules(secured, sec, ann, k + 1),
                      ToggleShows(sec, ann));
    }
  }

  /** Gaining or losing spec.tls changes compiled content exactly when the security headers are on
      or the scheme is injected; with the default settings it never does. */
  lemma ToggleCompilesAlikeIff(plain: Ingress, secured: Ingress, sec: Security, ann: Annotations)
    requires ann.Valid() && Toggled(plain, secured) && Compiled(plain, sec, ann) != []
    ensures (Compiled(plain, sec, ann) == Compiled(secured, sec, ann)) <==> !ToggleShows(sec, ann)
    ensures Ids(Compiled(plain, sec, ann)) == Ids(Compiled(secured, sec, ann))
  {
    CompiledRulesAreTwins(plain, secured, sec, ann, 0);
    var a, b := Compiled(plain, sec, ann), Compiled(secured, sec, ann);
    assert Twins(a[0], b[0], ToggleShows(sec, ann));
    if !ToggleShows(sec, ann) {
      assert forall k | 0 <= k < |a| :: Twins(a[k], b[k], false) && a[k] == b[k];
    }
  }

  // ---------- where a sync puts a route ----------

  /** An upsert pass leaves an up-to-date route where it is and puts any other on the server. */
  function PutOn(c: seq<Live>, server: string, r: CaddyRoute): Live {
    if UpToDate(c, r) then Lookup(c, r.id).value else Live(server, r)
  }

  lemma UpsertedPuts(c: seq<Live>, server: string, r: CaddyRoute)
    ensures Lookup(Upserted(c, server, r), r.id) == Some(PutOn(c, server, r))
  {
    LookupExcept(c, iset{r.id}, r.id);
    LookupAppend(Removed(c, r.id), [Live(server, r)], r.id);
  }

  lemma CoherentRest(rs: seq<CaddyRoute>, r: CaddyRoute)
    requires Coherent(rs) && r in rs
    ensures Coherent(rs[1..]) && (r.id == rs[0].id ==> r == rs[0]) && (r !in rs[1..] ==> r.id !in IdSet(rs[1..]))
  {
    var i :| 0 <= i < |rs| && rs[i] == r;
    forall q | q in rs[1..] && q.id == r.id ensures q == r {
      var j :| 0 <= j < |rs| - 1 && rs[1..][j] == q;
      assert rs[j + 1] == q;
    }
  }

  lemma {:induction false} UpsertAllPuts(c: seq<Live>, server: string, rs: seq<CaddyRoute>, r: CaddyRoute)
    requires UniqueIds(c) && Coherent(rs) && r in rs
    ensures Lookup(UpsertAll(c, server, rs), r.id) == Some(PutOn(c, server, r))
    decreases rs
  {
    var d, rest := Upserted(c, server, rs[0]), rs[1..];
    UpsertedProperties(c, server, rs[0]);
    UpsertedPuts(c, server, rs[0]);
    CoherentRest(rs, r);
    if r in rest {
      UpsertAllPuts(d, server, rest, r);
    } else {
      UpsertAllProperties(d, server, rest);
      SameOutside(UpsertAll(d, server, rest), d, IdSet(rest), r.id);
    }
  }

  /** What an add does to the entry under one id that is no redirect's. */
  lemma AddSettles(tag: string -> Tag, s: AppState, names: Names, e: Event, id: string)
    requires e.Add? && GoodEvent(tag, names, e) && UniqueIds(s.live) && OwnsTagged(tag, s.routeIDs)
    requires !tag(id).RedirectOf?
    ensures Lookup(Apply(s, names, e).live, id)
         == if FindRoute(e.routes, id).Some? then Some(PutOn(s.live, Target(names, e), FindRoute(e.routes, id).value))
            else if id in Stale(Owned(s.routeIDs, e.key), e.routes) then None
            else Lookup(s.live, id)
  {
    var stale := Stale(Owned(s.routeIDs, e.key), e.routes);
    var redirected := Redirected(s.live, names, e.redirects);
    var cleaned := Except(redirected, stale);
    RedirectedProperties(s.live, names, e.redirects);
    UniqueExcept(redirected, stale);
    LookupExcept(redirected, stale, id);
    SameOutside(redirected, s.live, IdSet(e.redirects), id);
    FindRouteMeaning(e.routes, id);
    if FindRoute(e.routes, id).Some? {
      UpsertAllPuts(cleaned, Target(names, e), e.routes, FindRoute(e.routes, id).value);
    } else {
      UpsertAllProperties(cleaned, Target(names, e), e.routes);
      SameOutside(UpsertAll(cleaned, Target(names, e), e.routes), cleaned, IdSet(e.routes), id);
    }
  }

  /** After a fault-free sync each route is live on the server that the event targets if and only if
      its content was out of date or it was there already. */
  lemma OnTargetIffWrittenOrThere(tag: string -> Tag, s: AppState, names: Names, e: Event, r: CaddyRoute)
    requires e.Add? && GoodEvent(tag, names, e) && UniqueIds(s.live) && OwnsTagged(tag, s.routeIDs) && r in e.routes
    ensures Lookup(Apply(s, names, e).live, r.id) == Some(Live(Target(names, e), r))
            <==> !UpToDate(s.live, r) || Lookup(s.live, r.id).value.server == Target(names, e)
  {
    CoherentFind(e.routes, r);
    AddSettles(tag, s, names, e, r.id);
  }

  /** An Ingress of our class that has spec.tls puts each route it has to write on the HTTPS server, any
      other on the HTTP server. */
  lemma WrittenRoutesGoByTLS(tag: string -> Tag, s: AppState, names: Names, ing: Ingress, sec: Security,
                             ann: Annotations, ingressClass: string, r: CaddyRoute)
    requires ann.Valid() && (ing.className == Some(ingressClass) || ing.classAnnotation == ingressClass)
    requires ing.tls != [] || names.http != ""
    requires UniqueIds(s.live) && OwnsTagged(tag, s.routeIDs) && WellTagged(tag, AddEvent(ing, sec, ann, ingressClass))
    requires Coherent(Compiled(ing, sec, ann)) && r in Compiled(ing, sec, ann) && !UpToDate(s.live, r)
    ensures Lookup(Apply(s, names, AddEvent(ing, sec, ann, ingressClass)).live, r.id)
         == Some(Live(if ing.tls != [] then names.https else names.http, r))
  {
    OnTargetIffWrittenOrThere(tag, s, names, AddEvent(ing, sec, ann, ingressClass), r);
  }

  lemma CoherentFind(rs: seq<CaddyRoute>, r: CaddyRoute)
    requires Coherent(rs) && r in rs
    ensures FindRoute(rs, r.id) == Some(r)
  {
    FindRouteMeaning(rs, r.id);
    assert r.id in IdSet(rs);
    var i :| 0 <= i < |rs| && rs[i] == r;
    var j :| 0 <= j < |rs| && rs[j] == FindRoute(rs, r.id).value;
  }

  // ---------- where a run leaves it ----------

  /** The live entry that a run leaves under an id of the key, read off the start and the events
      about the key: an event that asks for other content puts it on its own server. */
  ghost function Settled(start: AppState, names: Names, evs: seq<Event>, key: string, id: string): Option<Live> {
    if evs == [] then Lookup(start.live, id)
    else
      var before, e := evs[..|evs| - 1], evs[|evs| - 1];
      var entry := Settled(start, names, before, key, id);
      if !About(e, key) then entry
      else if e.Add? && FindRoute(e.routes, id).Some? then
        var r := FindRoute(e.routes, id).value;
        if entry.Some? && entry.value.route == r then entry else Some(Live(Target(names, e), r))
      else if Known(start.routeIDs, before, key, id) then None
      else entry
  }

  /** Every run leaves under every compiled id the entry that Settled reads off. */
  lemma {:induction false} RunsSettle(tag: string -> Tag, names: Names, start: AppState, evs: seq<Event>, id: string)
    requires UniqueIds(start.live) && OwnsTagged(tag, start.routeIDs) && tag(id).RouteOf?
    requires forall e :: e in evs ==> GoodEvent(tag, names, e)
    ensures Lookup(Run(start, names, evs).live, id) == Settled(start, names, evs, tag(id).key, id)
  {
    if evs != [] {
      var before, e := evs[..|evs| - 1], evs[|evs| - 1];
      assert e in evs && evs == before + [e] && forall d :: d in before ==> d in evs;
      RunsSettle(tag, names, start, before, id);
      RunsConverge(tag, names, start, before);
      EventSettlesId(tag, names, start, Run(start, names, before), before, e, id);
    }
  }

  lemma EventSettlesId(tag: string -> Tag, names: Names, start: AppState, s: AppState, before: seq<Event>, e: Event,
                       id: string)
    requires tag(id).RouteOf? && GoodEvent(tag, names, e)
    requires Converged(tag, start, s, before) && OwnsTagged(tag, s.routeIDs)
    requires Lookup(s.live, id) == Settled(start, names, before, tag(id).key, id)
    ensures Lookup(Apply(s, names, e).live, id) == Settled(start, names, before + [e], tag(id).key, id)
  {
    var key := tag(id).key;
    assert (before + [e])[..|before|] == before;
    assert Entry(s.routeIDs, key) == EntryAfter(start.routeIDs, before, key);
    OwnedMeans(s.routeIDs, start.routeIDs, before, key, id);
    assert Content(s.live, id) == ContentAfter(start, before, key, id);
    match e
    case Add(_, _, _, _) =>
      AddSettles(tag, s, names, e, id);
      FindRouteMeaning(e.routes, id);
    case Delete(_) => LookupExcept(s.live, SeqSet(Owned(s.routeIDs, e.key)), id);
    case Ignored =>
  }

  /** A live route sits on the server of the last event that changed its content, or where it was
      at the start when none did. */
  lemma {:induction false} ServerIsOfTheLastChange(start: AppState, names: Names, evs: seq<Event>, key: string,
                                                   id: string, l: Live)
    returns (n: Option<nat>)
    requires Settled(start, names, evs, key, id) == Some(l)
    ensures n.None? ==> forall k | 0 <= k <= |evs| :: Settled(start, names, evs[..k], key, id) == Some(l)
    ensures n.Some? ==>
              && n.value < |evs| && About(evs[n.value], key) && evs[n.value].Add?
              && FindRoute(evs[n.value].routes, id) == Some(l.route) && l.server == Target(names, evs[n.value])
              && (forall m :: Settled(start, names, evs[..n.value], key, id) == Some(m) ==> m.route != l.route)
              && forall k | n.value < k <= |evs| :: Settled(start, names, evs[..k], key, id) == Some(l)
  {
    n := None;
    assert evs[..|evs|] == evs;
    if evs != [] {
      var before := evs[..|evs| - 1];
      if Settled(start, names, before, key, id) == Some(l) {
        n := ServerIsOfTheLastChange(start, names, before, key, id, l);
        assert forall k | 0 <= k <= |before| :: before[..k] == evs[..k];
      } else {
        n := Some(|evs| - 1);
      }
    }
  }

  lemma {:induction false} OthersSettleNothing(start: AppState, names: Names, evs: seq<Event>, n: nat, key: string,
                                               id: string)
    requires n <= |evs| && forall k | n <= k < |evs| :: !About(evs[k], key)
    ensures Settled(start, names, evs, key, id) == Settled(start, names, evs[..n], key, id)
    decreases |evs|
  {
    if n == |evs| {
      assert evs[..n] == evs;
    } else {
      OthersSettleNothing(start, names, evs[..|evs| - 1], n, key, id);
      assert evs[..|evs| - 1][..n] == evs[..n];
    }
  }

  /** The same over runs: in the end a route is on the server its latest event targets if and only
      if that event changed its content, or found it there. */
  lemma OnLatestTargetIff(tag: string -> Tag, names: Names, start: AppState, evs: seq<Event>, n: nat, r: CaddyRoute)
    requires UniqueIds(start.live) && OwnsTagged(tag, start.routeIDs)
    requires forall e :: e in evs ==> GoodEvent(tag, names, e)
    requires n < |evs| && evs[n].Add? && r in evs[n].routes
    requires forall k | n < k < |evs| :: !About(evs[k], evs[n].key)
    ensures var found, target := Settled(start, names, evs[..n], evs[n].key, r.id), Target(names, evs[n]);
      Lookup(Run(start, names, evs).live, r.id) == Some(Live(target, r))
      <==> (found.Some? && found.value.route == r ==> found.value.server == target)
  {
    assert evs[n] in evs;
    CoherentFind(evs[n].routes, r);
    RunsSettle(tag, names, start, evs, r.id);
    OthersSettleNothing(start, names, evs, n + 1, evs[n].key, r.id);
    assert evs[..n + 1][..n] == evs[..n];
  }

  /** All the key's events target one server, and its routes were there before: then so they are
      after the run. */
  lemma {:induction false} OneTargetSettles(start: AppState, names: Names, evs: seq<Event>, key: string, id: string,
                                            server: string)
    requires forall e :: e in evs && e.Add? && e.key == key ==> Target(names, e) == server
    requires Lookup(start.live, id).Some? ==> Lookup(start.live, id).value.server == server
    ensures Settled(start, names, evs, key, id).Some? ==> Settled(start, names, evs, key, id).value.server == server
  {
    if evs != [] { OneTargetSettles(start, names, evs[..|evs| - 1], key, id, server); }
  }

  // ---------- the toggle at an input ----------

  lemma UpsertOne(c: seq<Live>, server: string, r: CaddyRoute)
    ensures UpsertAll(c, server, [r]) == Upserted(c, server, r)
  {
    assert [r][1..] == [];
  }

  /** Two adds of one route, the second for the other server. */
  lemma AddedTwice(names: Names, key: string, r: CaddyRoute)
    requires names.http != "" && names.http != names.https
    ensures var evs := [Add(key, [], [r], true), Add(key, [], [r], false)];
      var live := Run(AppState([], map[], map[]), names, evs).live;
      live == [Live(names.http, r)] && ServerRoutes(live, names.https) == []
  {
    var e, f, l := Add(key, [], [r], true), Add(key, [], [r], false), Live(names.http, r);
    var s0 := AppState([], map[], map[]);
    assert [e, f][..1] == [e] && [e][..0] == [];
    assert Run(s0, names, []) == s0 && Run(s0, names, [e]) == Apply(s0, names, e);
    assert Run(s0, names, [e, f]) == Apply(Apply(s0, names, e), names, f);
    UpsertOne([], names.http, r);
    assert Removed([], r.id) + [l] == [l];
    var s1 := Apply(s0, names, e);
    assert s1 == AppState([l], map[key := Ids([r])], map[key := Ids([r])]);
    forall id ensures id !in Stale(Owned(s1.routeIDs, key), [r]) { IdIsListed([r], id); }
    ExceptNothing([l], Stale(Owned(s1.routeIDs, key), [r]));
    UpsertOne([l], names.https, r);
    assert Upserted([l], names.https, r) == [l];
    assert [l][1..] == [];
  }

  /** With the default settings an Ingress that gains spec.tls is not moved: its route stays on the
      HTTP server, and the HTTPS server has nothing for its host. */
  lemma SecuredIngressStaysOnHTTP(names: Names, ann: Annotations, p: HTTPPath, entry: TLSEntry)
    requires ann.Valid() && !ann.sslRedirect && p.service.Some? && names.http != "" && names.http != names.https
    ensures var sec := Security(false, "", false, false);
      var plain := Ingress("ns", "app", Some("caddy"), "", [Rule("h", Some([p]))], []);
      var secured := plain.(tls := [entry]);
      var evs := [AddEvent(plain, sec, ann, "caddy"), AddEvent(secured, sec, ann, "caddy")];
      var live := Run(AppState([], map[], map[]), names, evs).live;
      && evs[1].Add? && Target(names, evs[1]) == names.https
      && |live| == 1 && live[0].server == names.http && [live[0].route] == Compiled(secured, sec, ann)
      && ServerRoutes(live, names.https) == []
  {
    var sec := Security(false, "", false, false);
    var plain := Ingress("ns", "app", Some("caddy"), "", [Rule("h", Some([p]))], []);
    var secured := plain.(tls := [entry]);
    var r := OneRuleOneRoute(plain, sec, ann, p);
    ToggleCompilesAlikeIff(plain, secured, sec, ann);
    AddedTwice(names, plain.Key(), r);
    assert AddEvent(plain, sec, ann, "caddy") == Add(plain.Key(), [], [r], true);
    assert AddEvent(secured, sec, ann, "caddy") == Add(plain.Key(), [], [r], false);
  }

  lemma OneRuleOneRoute(ing: Ingress, sec: Security, ann: Annotations, p: HTTPPath) returns (r: CaddyRoute)
    requires ann.Valid() && p.service.Some? && |ing.rules| == 1 && ing.rules[0].http == Some([p])
    ensures Compiled(ing, sec, ann) == [r]
  {
    assert p in ing.rules[0].http.value;
    PathRoutesEmptyIffUnservable(ing, sec, ann, ing.rules[0].host, [p], 0);
    assert CompiledRules(ing, sec, ann, 1) == [];
    r := RuleRoutes(ing, sec, ann, ing.rules[0])[0];
  }
}
