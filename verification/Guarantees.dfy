/** What every answer of the compiled routes guarantees: address guards, gates, CORS headers,
    and independence of the order of the host routes. */
module Guarantees {
  import opened Strings
  import opened Routes
  import opened Serving
  import opened Meaning

  // ---------- gates ----------

  /** The documented order: basic auth, body size, rate limit, WAF, authorization policy. */
  function Rank(h: Handler): nat {
    match h
    case Authentication(_) => 1
    case RequestBody(_) => 2
    case RateLimit(_, _) => 3
    case Waf(_) => 4
    case Opaque(_) => 5
    case _ => 0
  }

  predicate InDocumentedOrder(gates: seq<Handler>) {
    forall i, j | 0 <= i < j < |gates| :: 0 < Rank(gates[i]) < Rank(gates[j])
  }

  /** Every gate the annotations and the global settings enable is in the list. */
  predicate HoldsEnabledGates(gates: seq<Handler>, ing: Ingress, sec: Security, ann: Annotations) {
    && (ann.basicAuth.Some? ==> Authentication(ann.basicAuth.value) in gates)
    && (ann.proxy.maxBodySize > 0 ==> RequestBody(ann.proxy.maxBodySize) in gates)
    && (ann.limitRPS > 0 ==> RateLimitHandler(ing, ann.limitRPS) in gates)
    && ((if ann.wafOverride.Some? then ann.wafOverride.value else sec.waf) ==> exists g :: g in gates && g.Waf?)
    && (ann.authPolicy.Some? ==> Opaque(ann.authPolicy.value) in gates)
  }

  lemma EarlyGatesComplete(ing: Ingress, ann: Annotations)
    ensures var gs := EarlyGates(ing, ann);
      && InDocumentedOrder(gs)
      && (forall g :: g in gs ==> 1 <= Rank(g) <= 3)
      && (ann.basicAuth.Some? ==> Authentication(ann.basicAuth.value) in gs)
      && (ann.proxy.maxBodySize > 0 ==> RequestBody(ann.proxy.maxBodySize) in gs)
      && (ann.limitRPS > 0 ==> RateLimitHandler(ing, ann.limitRPS) in gs)
  {
    var auth := if ann.basicAuth.Some? then [Authentication(ann.basicAuth.value)] else [];
    var body := If(ann.proxy.maxBodySize > 0, RequestBody(ann.proxy.maxBodySize));
    var rate := If(ann.limitRPS > 0, RateLimitHandler(ing, ann.limitRPS));
    ThreeOptionalGates(auth, body, rate);
    assert EarlyGates(ing, ann) == auth + body + rate;
  }

  predicate OptionalGate(hs: seq<Handler>, rank: nat) { |hs| <= 1 && forall h :: h in hs ==> Rank(h) == rank }

  lemma ThreeOptionalGates(a: seq<Handler>, b: seq<Handler>, c: seq<Handler>)
    requires OptionalGate(a, 1) && OptionalGate(b, 2) && OptionalGate(c, 3)
    ensures InDocumentedOrder(a + b + c)
    ensures forall h :: h in a + b + c <==> h in a || h in b || h in c
  {
    assert forall h :: h in a + b <==> h in a || h in b;
    RanksConcatenate(a, b, 1);
    RanksConcatenate(a + b, c, 2);
  }

  lemma LateGatesComplete(sec: Security, ann: Annotations)
    ensures var gs := LateGates(sec, ann);
      && InDocumentedOrder(gs)
      && (forall g :: g in gs ==> 4 <= Rank(g) <= 5)
      && (WafEnabled(sec, ann) ==> WafHandler(WafMode(sec, ann), ann.wafDirectives) in gs)
      && (ann.authPolicy.Some? ==> Opaque(ann.authPolicy.value) in gs)
  {}

  lemma RanksConcatenate(a: seq<Handler>, b: seq<Handler>, bound: nat)
    requires InDocumentedOrder(a) && InDocumentedOrder(b)
    requires (forall g :: g in a ==> 0 < Rank(g) <= bound) && (forall g :: g in b ==> bound < Rank(g))
    ensures InDocumentedOrder(a + b)
  {
    forall i, j | 0 <= i < j < |a + b| ensures 0 < Rank((a + b)[i]) < Rank((a + b)[j]) {
      if j < |a| {
        assert Rank(a[i]) < Rank(a[j]);
      } else if i < |a| {
        assert a[i] in a && b[j - |a|] in b;
      } else {
        assert Rank(b[i - |a|]) < Rank(b[j - |a|]);
      }
    }
  }

  lemma GatesComplete(ing: Ingress, sec: Security, ann: Annotations)
    ensures InDocumentedOrder(EarlyGates(ing, ann) + LateGates(sec, ann))
    ensures HoldsEnabledGates(EarlyGates(ing, ann) + LateGates(sec, ann), ing, sec, ann)
  {
    EarlyGatesComplete(ing, ann);
    LateGatesComplete(sec, ann);
    var early, late := EarlyGates(ing, ann), LateGates(sec, ann);
    RanksConcatenate(early, late, 3);
    assert forall g :: g in early + late <==> g in early || g in late;
  }

  lemma DirectProxyPassesGates(w: World, upstream: string, ing: Ingress, sec: Security, ann: Annotations,
                               corsEdits: seq<HeaderEdit>, req: Request)
    ensures var o := DirectProxy(w, upstream, ing, sec, ann, corsEdits, Start(req));
      o.Done? && (o.response.Proxied? ==>
        && o.response.state.passed == EarlyGates(ing, ann) + LateGates(sec, ann)
        && (forall g :: g in EarlyGates(ing, ann) ==> w.passes(g, req))
        && (forall g :: g in LateGates(sec, ann) ==> w.passes(g, Rewritten(ann, req))))
  {
    assert [] + EarlyGates(ing, ann) == EarlyGates(ing, ann);
  }

  /** An upstream is dialled only after every enabled gate passed, in the documented order:
      auth, body and rate gates on the request as received, WAF and policy as rewritten. */
  lemma DialsOnlyBehindEveryGate(w: World, ing: Ingress, sec: Security, ann: Annotations, req: Request)
    requires ann.Valid()
    ensures var o := RunRoutes(w, Compiled(ing, sec, ann), Start(req));
      o.Done? && o.response.Proxied? ==>
        && HoldsEnabledGates(o.response.state.passed, ing, sec, ann)
        && InDocumentedOrder(o.response.state.passed)
        && (forall g :: g in o.response.state.passed ==> w.passes(g, if Rank(g) <= 3 then req else Rewritten(ann, req)))
  {
    CompilePreservesMeaning(w, ing, sec, ann, Start(req));
    var o := Direct(w, ing, sec, ann, Start(req));
    if o.Done? && o.response.Proxied? {
      var rule := ing.rules[FirstRule(w, ing, ann.serverAliases, 0, req).value];
      var path := rule.http.value[FirstPath(w, rule.http.value, 0, req).value];
      assert o == DirectPath(w, path.service.value, ing, sec, ann, Start(req));
      DirectProxyPassesGates(w, Upstream(ing, path.service.value), ing, sec, ann, CorsEdits(ann, req), req);
      GatesComplete(ing, sec, ann);
      EarlyGatesComplete(ing, ann);
      LateGatesComplete(sec, ann);
    }
  }

  /** A client address off the whitelist or on the blocklist gets 403 from every rule, whatever
      the method, path and origin. */
  lemma AddressGuardsComeFirst(w: World, ing: Ingress, sec: Security, ann: Annotations, req: Request)
    requires ann.Valid()
    requires !IPAllowed(w, ann, req.clientIP)
    ensures var o := RunRoutes(w, Compiled(ing, sec, ann), Start(req));
      o == if FirstRule(w, ing, ann.serverAliases, 0, req).Some? then Done(Static(403, None, Start(req)))
           else Fall(Start(req))
  {
    CompilePreservesMeaning(w, ing, sec, ann, Start(req));
  }

  // ---------- CORS ----------

  lemma StarFreeValueIsLiteral(allowed: string, actual: string)
    requires '*' !in allowed
    ensures HeaderValueMatches(allowed, actual) <==> allowed == actual
  {
    if allowed != "" { assert allowed[0] in allowed && allowed[|allowed| - 1] in allowed; }
  }

  lemma CorsHeadersKeepAllowOrigin(cors: Cors, dynamic: bool)
    requires !dynamic ==> |cors.origins| > 0
    ensures var h := CorsHeaders(cors, dynamic);
      && ALLOW_ORIGIN in h && h[ALLOW_ORIGIN] == [AllowOrigin(cors, dynamic)]
      && (VARY in h <==> AllowOrigin(cors, dynamic) != "*")
      && (ALLOW_CREDENTIALS in h <==> cors.allowCreds)
  {
    KeysDiffer();
  }

  lemma KeysDiffer()
    ensures ALLOW_ORIGIN !in {VARY, ALLOW_METHODS, ALLOW_HEADERS, EXPOSE_HEADERS, ALLOW_CREDENTIALS, MAX_AGE}
    ensures VARY !in {ALLOW_METHODS, ALLOW_HEADERS, EXPOSE_HEADERS, ALLOW_CREDENTIALS, MAX_AGE}
    ensures ALLOW_CREDENTIALS !in {ALLOW_METHODS, ALLOW_HEADERS, EXPOSE_HEADERS, MAX_AGE}
  {
    assert VARY[0] == 'V' && |VARY| == 4;
    assert |ALLOW_ORIGIN| == 27 && |ALLOW_METHODS| == 28 && |ALLOW_HEADERS| == 28;
    assert |EXPOSE_HEADERS| == 29 && |ALLOW_CREDENTIALS| == 32 && |MAX_AGE| == 22;
  }

  predicate SpecificOrigins(ann: Annotations) {
    && ann.cors.Some? && |ann.cors.value.origins| > 1
    && forall o :: o in ann.cors.value.origins ==> '*' !in o
  }

  lemma AllowedIffListed(ann: Annotations, req: Request)
    requires SpecificOrigins(ann)
    ensures OriginAllowed(ann.cors.value.origins, req) <==>
              req.origin.Some? && req.origin.value in ann.cors.value.origins
  {
    if req.origin.Some? {
      forall o | o in ann.cors.value.origins
        ensures HeaderValueMatches(o, req.origin.value) <==> o == req.origin.value
      {
        StarFreeValueIsLiteral(o, req.origin.value);
      }
    }
  }

  /** The dynamic CORS edit echoes the origin of the request it is applied to. */
  lemma EchoIsTheRequestsOrigin(cors: Cors, req: Request)
    requires req.origin.Some?
    ensures var e := Edit(CorsResponseHandler(cors, true), req);
      ALLOW_ORIGIN in e.sets && e.sets[ALLOW_ORIGIN] == [req.origin.value]
  {
    CorsHeadersKeepAllowOrigin(cors, true);
    var h := CorsHeaders(cors, true);
    assert ExpandAll(h[ALLOW_ORIGIN], req) == [req.origin.value];
  }

  /** With several origins the path chain is a split into the same chain with and without the
      CORS handler in front; which branch runs depends on the Origin header alone. */
  lemma OriginSplitDiffersInFirstHandlerOnly(w: World, svc: Service, ing: Ingress, sec: Security, ann: Annotations,
                                             req: Request)
    requires ann.Valid() && SpecificOrigins(ann) && !ann.IsRedirect()
    ensures var chain := HandlerChain(Upstream(ing, svc), ing, sec, ann);
      var first := CorsResponseHandler(ann.cors.value, true);
      var rest := CoreChain(Upstream(ing, svc), ing, sec, ann, ing.PlainHTTP(), false, false);
      && chain == [OriginSplit(ann.cors.value, [first] + rest, rest)]
      && RunHandlers(w, chain, Start(req))
         == RunHandlers(w, if req.origin.Some? && req.origin.value in ann.cors.value.origins then [first] + rest
                        else rest, Start(req))
  {
    var up, plain, cors := Upstream(ing, svc), ing.PlainHTTP(), ann.cors.value;
    var first := CorsResponseHandler(cors, true);
    var rest := CoreChain(up, ing, sec, ann, plain, false, false);
    OneHandlerMore(up, ing, sec, ann);
    RunCoreChain(w, up, ing, sec, ann, true, true, Start(req));
    RunCoreChain(w, up, ing, sec, ann, false, false, Start(req));
    RunOriginSplit(w, cors, [first] + rest, rest, Start(req));
    AllowedIffListed(ann, req);
  }

  lemma OneHandlerMore(up: string, ing: Ingress, sec: Security, ann: Annotations)
    requires ann.Valid() && ann.cors.Some?
    ensures CoreChain(up, ing, sec, ann, ing.PlainHTTP(), true, true)
         == [CorsResponseHandler(ann.cors.value, true)] + CoreChain(up, ing, sec, ann, ing.PlainHTTP(), false, false)
  {
    ChainIsCorsThenTail(up, ing, sec, ann, true, true);
    ChainIsCorsThenTail(up, ing, sec, ann, false, false);
    assert CorsPart(ann, false, false) + Tail(up, ing, sec, ann) == Tail(up, ing, sec, ann);
  }

  predicate Echoes(edits: seq<HeaderEdit>, req: Request) {
    && edits != [] && req.origin.Some?
    && ALLOW_ORIGIN in edits[0].sets
    && edits[0].sets[ALLOW_ORIGIN] == [req.origin.value]
  }

  /** Whatever the compiled routes answer, the request's origin is echoed to listed origins on
      preflight, gate rejections and upstream responses, and no CORS edit reaches others. */
  lemma OnlyListedOriginsAreEchoed(w: World, ing: Ingress, sec: Security, ann: Annotations, req: Request)
    requires ann.Valid() && SpecificOrigins(ann) && !ann.IsRedirect()
    requires IPAllowed(w, ann, req.clientIP)
    ensures var o := RunRoutes(w, Compiled(ing, sec, ann), Start(req));
      var listed := req.origin.Some? && req.origin.value in ann.cors.value.origins;
      && (o.Done? && listed ==> Echoes(o.response.state.edits, req))
      && (o.Done? && !listed ==>
            || o.response.state.edits == []
            || o.response.state.edits == OtherEdits(sec, ann, ing.PlainHTTP(), Rewritten(ann, req)))
  {
    CompilePreservesMeaning(w, ing, sec, ann, Start(req));
    AllowedIffListed(ann, req);
    var cors := ann.cors.value;
    if req.origin.Some? { EchoIsTheRequestsOrigin(cors, req); }
    var o := Direct(w, ing, sec, ann, Start(req));
    if o.Done? && !IsPreflight(ann, req) {
      var rule := ing.rules[FirstRule(w, ing, ann.serverAliases, 0, req).value];
      var path := rule.http.value[FirstPath(w, rule.http.value, 0, req).value];
      assert o == DirectProxy(w, Upstream(ing, path.service.value), ing, sec, ann, CorsEdits(ann, req), Start(req));
      EditsOfProxy(w, Upstream(ing, path.service.value), ing, sec, ann, CorsEdits(ann, req), req);
    }
  }

  lemma EditsOfProxy(w: World, upstream: string, ing: Ingress, sec: Security, ann: Annotations,
                     corsEdits: seq<HeaderEdit>, req: Request)
    ensures var o := DirectProxy(w, upstream, ing, sec, ann, corsEdits, Start(req));
      o.Done? && (|| o.response.state.edits == corsEdits
                  || o.response.state.edits == corsEdits + OtherEdits(sec, ann, ing.PlainHTTP(), Rewritten(ann, req)))
  {
    assert [] + corsEdits == corsEdits;
  }

  // ---------- order of host routes ----------

  predicate PlainHost(host: string) { host != "" && '*' !in host }

  /** Caddy matches a host without wildcards literally. */
  ghost predicate PlainHostsMatchLiterally(w: World) {
    forall h, x :: PlainHost(h) ==> (w.hostMatches(h, x) <==> h == x)
  }

  predicate ForHost(r: CaddyRoute, host: string) {
    r.terminal && r.matches == [ANY_REQUEST.(host := [host])]
  }

  /** Terminal single-host routes, at most one for each host. */
  ghost predicate OnePerHost(rs: seq<CaddyRoute>) {
    && (forall r :: r in rs ==> exists h :: PlainHost(h) && ForHost(r, h))
    && (forall r, s :: r in rs && s in rs && r.matches == s.matches ==> r == s)
  }

  lemma ForHostMatches(w: World, r: CaddyRoute, host: string, req: Request)
    requires PlainHostsMatchLiterally(w) && PlainHost(host) && ForHost(r, host)
    ensures RouteMatches(w, r, req) <==> req.host == host
  {
    var m := ANY_REQUEST.(host := [host]);
    OneSetMatches(w, m, r, req);
    assert m.host[0] in m.host;
  }

  /** With at most one terminal route per host, the one that matches answers alone. */
  lemma {:induction false} TheOnlyMatchAnswers(w: World, rs: seq<CaddyRoute>, r: CaddyRoute, st: State)
    requires r in rs && RouteMatches(w, r, st.req) && r.terminal
    requires forall s :: s in rs && RouteMatches(w, s, st.req) ==> s == r
    ensures RunRoutes(w, rs, st) == RunRoute(w, r, st)
  {
    if rs[0] != r {
      assert r in rs[1..];
      assert rs[0] in rs;
      TheOnlyMatchAnswers(w, rs[1..], r, st);
    }
  }

  lemma {:induction false} NoMatchFalls(w: World, rs: seq<CaddyRoute>, st: State)
    requires forall s :: s in rs ==> !RouteMatches(w, s, st.req)
    ensures RunRoutes(w, rs, st) == Fall(st)
  {
    if rs != [] {
      assert rs[0] in rs;
      NoMatchFalls(w, rs[1..], st);
    }
  }

  /** Order independence: any arrangement of the same host routes answers alike. */
  lemma OrderDoesNotMatter(w: World, rs: seq<CaddyRoute>, ss: seq<CaddyRoute>, st: State)
    requires PlainHostsMatchLiterally(w) && OnePerHost(rs)
    requires forall r :: r in rs <==> r in ss
    ensures RunRoutes(w, rs, st) == RunRoutes(w, ss, st)
  {
    forall r, s | r in rs && s in rs && RouteMatches(w, r, st.req) && RouteMatches(w, s, st.req) ensures r == s {
      var h :| PlainHost(h) && ForHost(r, h);
      var g :| PlainHost(g) && ForHost(s, g);
      ForHostMatches(w, r, h, st.req);
      ForHostMatches(w, s, g, st.req);
    }
    if r :| r in rs && RouteMatches(w, r, st.req) {
      var h :| PlainHost(h) && ForHost(r, h);
      TheOnlyMatchAnswers(w, rs, r, st);
      TheOnlyMatchAnswers(w, ss, r, st);
    } else {
      NoMatchFalls(w, rs, st);
      NoMatchFalls(w, ss, st);
    }
  }

  predicate DistinctPlainHosts(ing: Ingress) {
    && (forall k | 0 <= k < |ing.rules| :: PlainHost(ing.rules[k].host))
    && (forall j, k | 0 <= j < k < |ing.rules| :: ing.rules[j].host != ing.rules[k].host)
  }

  /** Every compiled route comes from one rule. */
  lemma {:induction false} RouteComesFromRule(ing: Ingress, sec: Security, ann: Annotations, k: nat, r: CaddyRoute)
    returns (j: nat)
    requires ann.Valid() && k <= |ing.rules|
    requires r in CompiledRules(ing, sec, ann, k)
    ensures k <= j < |ing.rules| && RuleRoutes(ing, sec, ann, ing.rules[j]) == [r]
    decreases |ing.rules| - k
  {
    if r in RuleRoutes(ing, sec, ann, ing.rules[k]) {
      j := k;
    } else {
      j := RouteComesFromRule(ing, sec, ann, k + 1, r);
    }
  }

  lemma {:induction false} RuleRouteIsCompiled(ing: Ingress, sec: Security, ann: Annotations, k: nat, j: nat,
                                               r: CaddyRoute)
    requires ann.Valid() && k <= j < |ing.rules| && r in RuleRoutes(ing, sec, ann, ing.rules[j])
    ensures r in CompiledRules(ing, sec, ann, k)
    decreases |ing.rules| - k
  {
    var here, rest := RuleRoutes(ing, sec, ann, ing.rules[k]), CompiledRules(ing, sec, ann, k + 1);
    assert CompiledRules(ing, sec, ann, k) == here + rest;
    if k < j { RuleRouteIsCompiled(ing, sec, ann, k + 1, j, r); }
  }

  lemma ServableRuleHasOneRoute(ing: Ingress, sec: Security, ann: Annotations, rule: Rule)
    requires ann.Valid()
    ensures if Servable(rule) then
              |RuleRoutes(ing, sec, ann, rule)| == 1
              && RuleRoutes(ing, sec, ann, rule)[0].id == RouteID(ing.namespace, ing.name, rule.host, None)
            else RuleRoutes(ing, sec, ann, rule) == []
  {
    if rule.http.Some? { PathRoutesEmptyIffUnservable(ing, sec, ann, rule.host, rule.http.value, 0); }
  }

  lemma RuleRouteHost(ing: Ingress, sec: Security, ann: Annotations, rule: Rule, r: CaddyRoute)
    requires ann.Valid() && ann.serverAliases == [] && PlainHost(rule.host)
    requires RuleRoutes(ing, sec, ann, rule) == [r]
    ensures ForHost(r, rule.host)
    ensures r.id == RouteID(ing.namespace, ing.name, rule.host, None)
  {
    assert [rule.host] + ann.serverAliases == [rule.host];
  }

  lemma CompiledHasOnePerHost(ing: Ingress, sec: Security, ann: Annotations)
    requires ann.Valid() && ann.serverAliases == [] && DistinctPlainHosts(ing)
    ensures OnePerHost(Compiled(ing, sec, ann))
  {
    var rs := Compiled(ing, sec, ann);
    forall r | r in rs ensures exists h :: PlainHost(h) && ForHost(r, h) {
      var j := RouteComesFromRule(ing, sec, ann, 0, r);
      RuleRouteHost(ing, sec, ann, ing.rules[j], r);
    }
    forall r, s | r in rs && s in rs && r.matches == s.matches ensures r == s {
      var j := RouteComesFromRule(ing, sec, ann, 0, r);
      var k := RouteComesFromRule(ing, sec, ann, 0, s);
      RuleRouteHost(ing, sec, ann, ing.rules[j], r);
      RuleRouteHost(ing, sec, ann, ing.rules[k], s);
      assert r.matches[0].host[0] == ing.rules[j].host && s.matches[0].host[0] == ing.rules[k].host;
      assert j == k;
    }
  }

  // ---------- exactly when order does not matter ----------

  /** A route that matches the request does not pass it on. */
  predicate Answers(w: World, rs: seq<CaddyRoute>, st: State) {
    forall r :: r in rs && RouteMatches(w, r, st.req) ==> !RunRoute(w, r, st).Fall?
  }

  /** All routes that match the request answer it alike. */
  predicate Agree(w: World, rs: seq<CaddyRoute>, st: State) {
    forall q, r :: q in rs && r in rs && RouteMatches(w, q, st.req) && RouteMatches(w, r, st.req) ==>
      RunRoute(w, q, st) == RunRoute(w, r, st)
  }

  lemma {:induction false} FirstMatchAnswers(w: World, rs: seq<CaddyRoute>, st: State) returns (r: CaddyRoute)
    requires Answers(w, rs, st) && exists q :: q in rs && RouteMatches(w, q, st.req)
    ensures r in rs && RouteMatches(w, r, st.req) && RunRoutes(w, rs, st) == RunRoute(w, r, st)
  {
    assert rs[0] in rs;
    if RouteMatches(w, rs[0], st.req) {
      r := rs[0];
    } else {
      assert forall q :: q in rs[1..] ==> q in rs;
      r := FirstMatchAnswers(w, rs[1..], st);
    }
  }

  lemma AgreeingRoutesAnswerAlike(w: World, rs: seq<CaddyRoute>, ss: seq<CaddyRoute>, st: State)
    requires Answers(w, rs, st) && Agree(w, rs, st)
    requires forall r :: RouteMatches(w, r, st.req) ==> (r in rs <==> r in ss)
    ensures RunRoutes(w, ss, st) == RunRoutes(w, rs, st)
  {
    if r :| r in rs && RouteMatches(w, r, st.req) {
      var a := FirstMatchAnswers(w, rs, st);
      var b := FirstMatchAnswers(w, ss, st);
    } else {
      NoMatchFalls(w, rs, st);
      NoMatchFalls(w, ss, st);
    }
  }

  function PutFirst<T>(s: seq<T>, i: nat): seq<T>
    requires i < |s|
  {
    [s[i]] + s[..i] + s[i + 1..]
  }

  lemma PutFirstPermutes<T>(s: seq<T>, i: nat)
    requires i < |s|
    ensures multiset(PutFirst(s, i)) == multiset(s)
  {
    assert s == s[..i] + [s[i]] + s[i + 1..];
  }

  /** For routes that answer when they match, all permutations answer a request alike if and only
      if all routes that match it answer it alike. */
  lemma AnyOrderIffAgree(w: World, rs: seq<CaddyRoute>, st: State)
    requires Answers(w, rs, st)
    ensures (forall ss: seq<CaddyRoute> :: multiset(ss) == multiset(rs) ==>
             RunRoutes(w, ss, st) == RunRoutes(w, rs, st))
            <==> Agree(w, rs, st)
  {
    if Agree(w, rs, st) {
      forall ss: seq<CaddyRoute> | multiset(ss) == multiset(rs) ensures RunRoutes(w, ss, st) == RunRoutes(w, rs, st) {
        assert forall r :: r in rs <==> r in multiset(rs);
        assert forall r :: r in ss <==> r in multiset(ss);
        AgreeingRoutesAnswerAlike(w, rs, ss, st);
      }
    } else {
      var q, r :| q in rs && r in rs && RouteMatches(w, q, st.req) && RouteMatches(w, r, st.req)
                  && RunRoute(w, q, st) != RunRoute(w, r, st);
      var i :| 0 <= i < |rs| && rs[i] == q;
      var j :| 0 <= j < |rs| && rs[j] == r;
      PutFirstPermutes(rs, i);
      PutFirstPermutes(rs, j);
      assert RunRoutes(w, PutFirst(rs, i), st) != RunRoutes(w, PutFirst(rs, j), st);
    }
  }

  /** All rules that apply to the request and have a path to serve answer it alike. */
  ghost predicate RulesAgree(w: World, ing: Ingress, sec: Security, ann: Annotations, st: State)
    requires ann.Valid()
  {
    forall j, k | 0 <= j < |ing.rules| && 0 <= k < |ing.rules| && Takes(w, ing, ann, j, st.req) &&
        Takes(w, ing, ann, k, st.req) ::
      DirectRule(w, ing, sec, ann, ing.rules[j], st) == DirectRule(w, ing, sec, ann, ing.rules[k], st)
  }

  /** Rule k has a path to serve and applies to the request. */
  predicate Takes(w: World, ing: Ingress, ann: Annotations, k: nat, req: Request)
    requires k < |ing.rules|
  {
    Servable(ing.rules[k]) && RuleApplies(w, ing.rules[k], ann.serverAliases, req)
  }

  lemma RuleRouteAnswers(w: World, ing: Ingress, sec: Security, ann: Annotations, k: nat, r: CaddyRoute, st: State)
    requires ann.Valid() && k < |ing.rules| && RuleRoutes(ing, sec, ann, ing.rules[k]) == [r]
    ensures RouteMatches(w, r, st.req) <==> Takes(w, ing, ann, k, st.req)
    ensures Takes(w, ing, ann, k, st.req) ==>
              RunRoute(w, r, st) == DirectRule(w, ing, sec, ann, ing.rules[k], st) && !RunRoute(w, r, st).Fall?
  {
    ServableRuleHasOneRoute(ing, sec, ann, ing.rules[k]);
    HostRouteMatches(w, ing.rules[k], ann, r, st.req);
    RunSingle(w, r, st);
    RunRuleRoutes(w, ing, sec, ann, ing.rules[k], st);
  }

  lemma CompiledAnswers(w: World, ing: Ingress, sec: Security, ann: Annotations, st: State)
    requires ann.Valid()
    ensures Answers(w, Compiled(ing, sec, ann), st)
  {
    forall r | r in Compiled(ing, sec, ann) && RouteMatches(w, r, st.req) ensures !RunRoute(w, r, st).Fall? {
      var k := RouteComesFromRule(ing, sec, ann, 0, r);
      RuleRouteAnswers(w, ing, sec, ann, k, r, st);
    }
  }

  lemma CompiledAgreeIff(w: World, ing: Ingress, sec: Security, ann: Annotations, st: State)
    requires ann.Valid()
    ensures Agree(w, Compiled(ing, sec, ann), st) <==> RulesAgree(w, ing, sec, ann, st)
  {
    var rs := Compiled(ing, sec, ann);
    forall q, r | q in rs && r in rs && RouteMatches(w, q, st.req) && RouteMatches(w, r, st.req)
      ensures RulesAgree(w, ing, sec, ann, st) ==> RunRoute(w, q, st) == RunRoute(w, r, st)
    {
      var j := RouteComesFromRule(ing, sec, ann, 0, q);
      var k := RouteComesFromRule(ing, sec, ann, 0, r);
      RuleRouteAnswers(w, ing, sec, ann, j, q, st);
      RuleRouteAnswers(w, ing, sec, ann, k, r, st);
    }
    forall j, k | 0 <= j < |ing.rules| && 0 <= k < |ing.rules| && Takes(w, ing, ann, j, st.req) &&
        Takes(w, ing, ann, k, st.req)
      ensures Agree(w, rs, st) ==>
                DirectRule(w, ing, sec, ann, ing.rules[j], st) == DirectRule(w, ing, sec, ann, ing.rules[k], st)
    {
      var q := TakingRoute(w, ing, sec, ann, j, st);
      var r := TakingRoute(w, ing, sec, ann, k, st);
    }
  }

  lemma TakingRoute(w: World, ing: Ingress, sec: Security, ann: Annotations, k: nat, st: State) returns (r: CaddyRoute)
    requires ann.Valid() && k < |ing.rules| && Takes(w, ing, ann, k, st.req)
    ensures r in Compiled(ing, sec, ann) && RouteMatches(w, r, st.req)
    ensures RunRoute(w, r, st) == DirectRule(w, ing, sec, ann, ing.rules[k], st)
  {
    ServableRuleHasOneRoute(ing, sec, ann, ing.rules[k]);
    r := RuleRoutes(ing, sec, ann, ing.rules[k])[0];
    assert RuleRoutes(ing, sec, ann, ing.rules[k]) == [r];
    RuleRouteIsCompiled(ing, sec, ann, 0, k, r);
    RuleRouteAnswers(w, ing, sec, ann, k, r, st);
  }

  /** Every permutation of the compiled routes answers a request as the Ingress reads if and only if
      the rules that apply to it answer it alike. */
  lemma AnyOrderServesIffRulesAgree(w: World, ing: Ingress, sec: Security, ann: Annotations, st: State)
    requires ann.Valid()
    ensures (forall order: seq<CaddyRoute> :: multiset(order) == multiset(Compiled(ing, sec, ann)) ==>
               RunRoutes(w, order, st) == Direct(w, ing, sec, ann, st))
            <==> RulesAgree(w, ing, sec, ann, st)
  {
    CompiledAnswers(w, ing, sec, ann, st);
    AnyOrderIffAgree(w, Compiled(ing, sec, ann), st);
    CompiledAgreeIff(w, ing, sec, ann, st);
    CompilePreservesMeaning(w, ing, sec, ann, st);
  }

  lemma AnyOrderServesTheIngress(w: World, ing: Ingress, sec: Security, ann: Annotations, order: seq<CaddyRoute>,
                                 st: State)
    requires ann.Valid() && RulesAgree(w, ing, sec, ann, st)
    requires multiset(order) == multiset(Compiled(ing, sec, ann))
    ensures RunRoutes(w, order, st) == Direct(w, ing, sec, ann, st)
  {
    AnyOrderServesIffRulesAgree(w, ing, sec, ann, st);
  }

  lemma TakenByItsHost(w: World, ing: Ingress, ann: Annotations, k: nat, req: Request)
    requires ann.serverAliases == [] && PlainHostsMatchLiterally(w)
    requires k < |ing.rules| && PlainHost(ing.rules[k].host) && Takes(w, ing, ann, k, req)
    ensures ing.rules[k].host == req.host
  {}

  /** Distinct wildcard-free hosts without aliases are one case: at most one rule applies. */
  lemma DistinctPlainHostsAgree(w: World, ing: Ingress, sec: Security, ann: Annotations, st: State)
    requires ann.Valid() && ann.serverAliases == [] && DistinctPlainHosts(ing) && PlainHostsMatchLiterally(w)
    ensures RulesAgree(w, ing, sec, ann, st)
  {
    forall j, k | 0 <= j < |ing.rules| && 0 <= k < |ing.rules| && Takes(w, ing, ann, j, st.req) &&
        Takes(w, ing, ann, k, st.req)
      ensures j == k
    {
      TakenByItsHost(w, ing, ann, j, st.req);
      TakenByItsHost(w, ing, ann, k, st.req);
      SameHostSameRule(ing, j, k);
    }
  }

  lemma SameHostSameRule(ing: Ingress, j: nat, k: nat)
    requires DistinctPlainHosts(ing) && j < |ing.rules| && k < |ing.rules|
    ensures ing.rules[j].host == ing.rules[k].host <==> j == k
  {}
}
