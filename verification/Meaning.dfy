/** Serving the compiled routes gives, for every request, what reading the Ingress and its
    annotations directly gives. */
module Meaning {
  import opened Strings
  import opened Routes
  import opened Serving
  import opened Paths

  // ---------- the direct reading ----------

  predicate Servable(rule: Rule) {
    rule.http.Some? && exists p :: p in rule.http.value && p.service.Some?
  }

  predicate RuleApplies(w: World, rule: Rule, aliases: seq<string>, req: Request) {
    || (rule.host == "" && aliases == [])
    || (rule.host != "" && w.hostMatches(rule.host, req.host))
    || exists a :: a in aliases && w.hostMatches(a, req.host)
  }

  predicate OnWhitelist(w: World, ann: Annotations, ip: string) {
    ann.whitelist == [] || InRanges(w, ann.whitelist, ip)
  }

  predicate IPAllowed(w: World, ann: Annotations, ip: string) {
    OnWhitelist(w, ann, ip) && !InRanges(w, ann.blocklist, ip)
  }

  predicate IsPreflight(ann: Annotations, req: Request) {
    && ann.cors.Some?
    && req.methd == "OPTIONS"
    && (ann.cors.value.IsWildcard() || OriginAllowed(ann.cors.value.origins, req))
  }

  /** The first listed path from i on that has a service and selects the request. */
  function FirstPath(w: World, paths: seq<HTTPPath>, i: nat, req: Request): (r: Option<nat>)
    requires i <= |paths|
    ensures r.Some? ==> i <= r.value < |paths| && paths[r.value].service.Some?
    decreases |paths| - i
  {
    if i == |paths| then None
    else if paths[i].service.Some? && PathSelects(w, paths[i].path, paths[i].pathType, req.path) then Some(i)
    else FirstPath(w, paths, i + 1, req)
  }

  function FirstRule(w: World, ing: Ingress, aliases: seq<string>, k: nat, req: Request): (r: Option<nat>)
    requires k <= |ing.rules|
    ensures r.Some? ==> k <= r.value < |ing.rules| && Servable(ing.rules[r.value])
    decreases |ing.rules| - k
  {
    if k == |ing.rules| then None
    else if Servable(ing.rules[k]) && RuleApplies(w, ing.rules[k], aliases, req) then Some(k)
    else FirstRule(w, ing, aliases, k + 1, req)
  }

  /** The index of the first gate that rejects the request, |gates| when all pass. */
  function FirstRejecting(w: World, gates: seq<Handler>, req: Request): (n: nat)
    ensures n <= |gates|
    ensures forall i | 0 <= i < n :: w.passes(gates[i], req)
    ensures n < |gates| ==> !w.passes(gates[n], req)
  {
    if gates == [] then 0
    else if !w.passes(gates[0], req) then 0
    else 1 + FirstRejecting(w, gates[1..], req)
  }

  /** The CORS header edit a served request gets: the single configured origin, or the
      request's own origin when several are configured and it is among them. */
  function CorsEdits(ann: Annotations, req: Request): seq<HeaderEdit>
    requires ann.Valid()
  {
    if ann.cors.None? then []
    else if |ann.cors.value.origins| == 1 then [Edit(CorsResponseHandler(ann.cors.value, false), req)]
    else if OriginAllowed(ann.cors.value.origins, req) then [Edit(CorsResponseHandler(ann.cors.value, true), req)]
    else []
  }

  /** The security and per-Ingress header edits, in that order. */
  function OtherEdits(sec: Security, ann: Annotations, plainHTTP: bool, req: Request): seq<HeaderEdit> {
    (if sec.securityHeaders && !plainHTTP then [Edit(SECURITY_HEADERS, req)] else [])
    + (if !ann.responseHeaders.Empty() then [Edit(ResponseHeadersHandler(ann.responseHeaders), req)] else [])
  }

  function Rewritten(ann: Annotations, req: Request): Request {
    if ann.rewriteTarget != "" then req.(path := ann.rewriteTarget) else req
  }

  function DirectProxy(w: World, upstream: string, ing: Ingress, sec: Security, ann: Annotations,
                       corsEdits: seq<HeaderEdit>, st: State): Outcome
  {
    var early, late := EarlyGates(ing, ann), LateGates(sec, ann);
    var n := FirstRejecting(w, early, st.req);
    if n < |early| then
      Done(Rejected(early[n], State(st.req, st.edits + corsEdits, st.passed + early[..n])))
    else
      var req := Rewritten(ann, st.req);
      var edits := st.edits + corsEdits + OtherEdits(sec, ann, ing.PlainHTTP(), req);
      var m := FirstRejecting(w, late, req);
      if m < |late| then
        Done(Rejected(late[m], State(req, edits, st.passed + early + late[..m])))
      else
        Done(Proxied(ProxyHandler(upstream, sec, ann, ing.PlainHTTP()), State(req, edits, st.passed + early + late)))
  }

  function DirectPath(w: World, svc: Service, ing: Ingress, sec: Security, ann: Annotations, st: State): (o: Outcome)
    requires ann.Valid()
    ensures o.Done?
  {
    if ann.IsRedirect() then Done(Static(RedirectTarget(ann).1, Some(RedirectTarget(ann).0), st))
    else DirectProxy(w, Upstream(ing, svc), ing, sec, ann, CorsEdits(ann, st.req), st)
  }

  function DirectRule(w: World, ing: Ingress, sec: Security, ann: Annotations, rule: Rule, st: State): (o: Outcome)
    requires ann.Valid() && rule.http.Some?
    ensures !o.Fall?
  {
    if !IPAllowed(w, ann, st.req.clientIP) then Done(Static(403, None, st))
    else if IsPreflight(ann, st.req) then
      var cors := ann.cors.value;
      Done(Static(204, None, st.(edits := st.edits + [Edit(CorsResponseHandler(cors, |cors.origins| > 1), st.req)])))
    else
      match FirstPath(w, rule.http.value, 0, st.req)
      case None => Stop(st)
      case Some(i) => DirectPath(w, rule.http.value[i].service.value, ing, sec, ann, st)
  }

  /** First rule whose host or alias matches, then whitelist and blocklist, then preflight,
      then the first listed path that matches. */
  function Direct(w: World, ing: Ingress, sec: Security, ann: Annotations, st: State): Outcome
    requires ann.Valid()
  {
    match FirstRule(w, ing, ann.serverAliases, 0, st.req)
    case None => Fall(st)
    case Some(k) => DirectRule(w, ing, sec, ann, ing.rules[k], st)
  }

  // ---------- handler chains ----------

  predicate AllGates(hs: seq<Handler>) { forall h :: h in hs ==> IsGate(h) }

  lemma GatesAreGates(ing: Ingress, sec: Security, ann: Annotations)
    ensures AllGates(EarlyGates(ing, ann)) && AllGates(LateGates(sec, ann))
  {}

  lemma {:induction false} RunGates(w: World, gates: seq<Handler>, st: State)
    requires AllGates(gates)
    ensures RunHandlers(w, gates, st)
         == var n := FirstRejecting(w, gates, st.req);
            if n < |gates| then Done(Rejected(gates[n], st.(passed := st.passed + gates[..n])))
            else Fall(st.(passed := st.passed + gates))
  {
    if gates == [] {
      assert st.passed + gates == st.passed;
    } else {
      assert gates[0] in gates;
      assert RunHandler(w, gates[0], st) == PassGate(w, gates[0], st);
      if w.passes(gates[0], st.req) {
        var st' := st.(passed := st.passed + [gates[0]]);
        RunGates(w, gates[1..], st');
        var n := FirstRejecting(w, gates[1..], st.req);
        assert st'.passed + gates[1..][..n] == st.passed + gates[..n + 1];
        assert st'.passed + gates[1..] == st.passed + gates;
      } else {
        assert st.passed + gates[..0] == st.passed;
      }
    }
  }

  lemma RunIf(w: World, b: bool, h: Handler, st: State)
    ensures RunHandlers(w, If(b, h), st) == if b then RunHandler(w, h, st) else Fall(st)
  {
    RunOneHandler(w, h, st);
  }

  lemma RunHeaderHandlers(w: World, sec: Security, ann: Annotations, plainHTTP: bool, st: State)
    ensures RunHandlers(w, HeaderHandlers(sec, ann, plainHTTP), st)
         == Fall(st.(edits := st.edits + OtherEdits(sec, ann, plainHTTP, st.req)))
  {
    var b1, h1 := sec.securityHeaders && !plainHTTP, SECURITY_HEADERS;
    var b2, h2 := !ann.responseHeaders.Empty(), ResponseHeadersHandler(ann.responseHeaders);
    RunHandlersAppend(w, If(b1, h1), If(b2, h2), st);
    RunIf(w, b1, h1, st);
    var st1 := if b1 then st.(edits := st.edits + [Edit(h1, st.req)]) else st;
    RunIf(w, b2, h2, st1);
    var e1, e2 := if b1 then [Edit(h1, st.req)] else [], if b2 then [Edit(h2, st.req)] else [];
    assert st.edits + (e1 + e2) == (st.edits + e1) + e2;
    assert st1.edits == st.edits + e1;
    assert RunHandlers(w, HeaderHandlers(sec, ann, plainHTTP), st) == Fall(st.(edits := st1.edits + e2));
  }

  /** The chain behind the CORS handler. */
  function Tail(upstream: string, ing: Ingress, sec: Security, ann: Annotations): seq<Handler> {
    EarlyGates(ing, ann) + (If(ann.rewriteTarget != "", Rewrite(ann.rewriteTarget))
      + (HeaderHandlers(sec, ann, ing.PlainHTTP()) + (LateGates(sec, ann)
      + [ProxyHandler(upstream, sec, ann, ing.PlainHTTP())])))
  }

  lemma ChainIsCorsThenTail(upstream: string, ing: Ingress, sec: Security, ann: Annotations, withCORS: bool,
                            dynamic: bool)
    requires ann.Valid()
    ensures CoreChain(upstream, ing, sec, ann, ing.PlainHTTP(), withCORS, dynamic)
         == CorsPart(ann, withCORS, dynamic) + Tail(upstream, ing, sec, ann)
  {
    Reassociate(CorsPart(ann, withCORS, dynamic), EarlyGates(ing, ann),
                If(ann.rewriteTarget != "", Rewrite(ann.rewriteTarget)),
                HeaderHandlers(sec, ann, ing.PlainHTTP()), LateGates(sec, ann),
                [ProxyHandler(upstream, sec, ann, ing.PlainHTTP())]);
  }

  lemma Reassociate<T>(a: seq<T>, b: seq<T>, c: seq<T>, d: seq<T>, e: seq<T>, f: seq<T>)
    ensures a + b + c + d + e + f == a + (b + (c + (d + (e + f))))
  {}

  lemma RunLate(w: World, upstream: string, ing: Ingress, sec: Security, ann: Annotations, st: State)
    ensures RunHandlers(w, LateGates(sec, ann) + [ProxyHandler(upstream, sec, ann, ing.PlainHTTP())], st)
         == var late := LateGates(sec, ann);
            var m := FirstRejecting(w, late, st.req);
            if m < |late| then Done(Rejected(late[m], st.(passed := st.passed + late[..m])))
            else Done(Proxied(ProxyHandler(upstream, sec, ann, ing.PlainHTTP()), st.(passed := st.passed + late)))
  {
    var late, proxy := LateGates(sec, ann), ProxyHandler(upstream, sec, ann, ing.PlainHTTP());
    GatesAreGates(ing, sec, ann);
    RunHandlersAppend(w, late, [proxy], st);
    RunGates(w, late, st);
    RunOneHandler(w, proxy, st.(passed := st.passed + late));
  }

  /** The chain from the rewrite on. */
  function LateTail(upstream: string, ing: Ingress, sec: Security, ann: Annotations): seq<Handler> {
    If(ann.rewriteTarget != "", Rewrite(ann.rewriteTarget))
    + (HeaderHandlers(sec, ann, ing.PlainHTTP())
       + (LateGates(sec, ann) + [ProxyHandler(upstream, sec, ann, ing.PlainHTTP())]))
  }

  /** What the chain behind the rewrite gives. */
  function LateOutcome(w: World, upstream: string, ing: Ingress, sec: Security, ann: Annotations, st: State): Outcome {
    var late := LateGates(sec, ann);
    var edits, m := st.edits + OtherEdits(sec, ann, ing.PlainHTTP(), st.req), FirstRejecting(w, late, st.req);
    if m < |late| then Done(Rejected(late[m], State(st.req, edits, st.passed + late[..m])))
    else Done(Proxied(ProxyHandler(upstream, sec, ann, ing.PlainHTTP()), State(st.req, edits, st.passed + late)))
  }

  lemma RunFalls(w: World, a: seq<Handler>, b: seq<Handler>, st: State, st': State)
    requires RunHandlers(w, a, st) == Fall(st')
    ensures RunHandlers(w, a + b, st) == RunHandlers(w, b, st')
  {
    RunHandlersAppend(w, a, b, st);
  }

  lemma RunHeadersAndLate(w: World, upstream: string, ing: Ingress, sec: Security, ann: Annotations, st: State)
    ensures RunHandlers(w, HeaderHandlers(sec, ann, ing.PlainHTTP())
                           + (LateGates(sec, ann) + [ProxyHandler(upstream, sec, ann, ing.PlainHTTP())]), st)
         == LateOutcome(w, upstream, ing, sec, ann, st)
  {
    var st1 := st.(edits := st.edits + OtherEdits(sec, ann, ing.PlainHTTP(), st.req));
    RunHeaderHandlers(w, sec, ann, ing.PlainHTTP(), st);
    RunFalls(w, HeaderHandlers(sec, ann, ing.PlainHTTP()),
             LateGates(sec, ann) + [ProxyHandler(upstream, sec, ann, ing.PlainHTTP())], st, st1);
    RunLate(w, upstream, ing, sec, ann, st1);
  }

  lemma RunRewrite(w: World, ann: Annotations, st: State)
    ensures RunHandlers(w, If(ann.rewriteTarget != "", Rewrite(ann.rewriteTarget)), st)
         == Fall(st.(req := Rewritten(ann, st.req)))
  {
    RunIf(w, ann.rewriteTarget != "", Rewrite(ann.rewriteTarget), st);
  }

  lemma RunLateTail(w: World, upstream: string, ing: Ingress, sec: Security, ann: Annotations, st: State)
    ensures RunHandlers(w, LateTail(upstream, ing, sec, ann), st)
         == LateOutcome(w, upstream, ing, sec, ann, st.(req := Rewritten(ann, st.req)))
  {
    var st1 := st.(req := Rewritten(ann, st.req));
    RunRewrite(w, ann, st);
    RunFalls(w, If(ann.rewriteTarget != "", Rewrite(ann.rewriteTarget)),
             HeaderHandlers(sec, ann, ing.PlainHTTP())
             + (LateGates(sec, ann) + [ProxyHandler(upstream, sec, ann, ing.PlainHTTP())]), st, st1);
    RunHeadersAndLate(w, upstream, ing, sec, ann, st1);
  }

  lemma RunTail(w: World, upstream: string, ing: Ingress, sec: Security, ann: Annotations, st: State)
    ensures RunHandlers(w, Tail(upstream, ing, sec, ann), st) == DirectProxy(w, upstream, ing, sec, ann, [], st)
  {
    var early := EarlyGates(ing, ann);
    GatesAreGates(ing, sec, ann);
    RunHandlersAppend(w, early, LateTail(upstream, ing, sec, ann), st);
    RunGates(w, early, st);
    assert st.edits + [] == st.edits;
    RunLateTail(w, upstream, ing, sec, ann, st.(passed := st.passed + early));
  }

  /** A header edit in front of the chain is the only difference the CORS handler makes. */
  lemma EditsInFront(w: World, upstream: string, ing: Ingress, sec: Security, ann: Annotations, e: HeaderEdit,
                     st: State)
    ensures DirectProxy(w, upstream, ing, sec, ann, [], st.(edits := st.edits + [e]))
         == DirectProxy(w, upstream, ing, sec, ann, [e], st)
  {
    assert st.edits + [e] + [] == st.edits + [e];
  }

  lemma RunCoreChain(w: World, upstream: string, ing: Ingress, sec: Security, ann: Annotations,
                     withCORS: bool, dynamic: bool, st: State)
    requires ann.Valid()
    ensures RunHandlers(w, CoreChain(upstream, ing, sec, ann, ing.PlainHTTP(), withCORS, dynamic), st)
         == DirectProxy(w, upstream, ing, sec, ann,
                        if withCORS && ann.cors.Some? then [Edit(CorsResponseHandler(ann.cors.value, dynamic), st.req)]
                        else [], st)
  {
    ChainIsCorsThenTail(upstream, ing, sec, ann, withCORS, dynamic);
    RunHandlersAppend(w, CorsPart(ann, withCORS, dynamic), Tail(upstream, ing, sec, ann), st);
    if withCORS && ann.cors.Some? {
      var h := CorsResponseHandler(ann.cors.value, dynamic);
      RunOneHandler(w, h, st);
      RunTail(w, upstream, ing, sec, ann, st.(edits := st.edits + [Edit(h, st.req)]));
      EditsInFront(w, upstream, ing, sec, ann, Edit(h, st.req), st);
    } else {
      RunTail(w, upstream, ing, sec, ann, st);
    }
  }

  lemma OneSetMatches(w: World, m: MatchSet, r: CaddyRoute, req: Request)
    requires r.matches == [m]
    ensures RouteMatches(w, r, req) <==> SetMatches(w, m, req)
  {
    assert r.matches[0] in r.matches;
  }

  /** The origin split serves the first branch to allowed origins and the second to others. */
  lemma RunOriginSplit(w: World, cors: Cors, a: seq<Handler>, b: seq<Handler>, st: State)
    requires !RunHandlers(w, a, st).Fall? && !RunHandlers(w, b, st).Fall?
    ensures RunHandlers(w, [OriginSplit(cors, a, b)], st)
         == RunHandlers(w, if OriginAllowed(cors.origins, st.req) then a else b, st)
  {
    RunOneHandler(w, OriginSplit(cors, a, b), st);
    var ra := CaddyRoute("", [ANY_REQUEST.(headers := map["Origin" := cors.origins])], a, true);
    var rb := CaddyRoute("", [], b, true);
    OneSetMatches(w, ANY_REQUEST.(headers := map["Origin" := cors.origins]), ra, st.req);
    RunRoutesAppend(w, [ra], [rb], st);
    assert [ra] + [rb] == [ra, rb];
    RunSingle(w, ra, st);
    RunSingle(w, rb, st);
  }

  lemma RunHandlerChain(w: World, svc: Service, ing: Ingress, sec: Security, ann: Annotations, st: State)
    requires ann.Valid()
    ensures RunHandlers(w, HandlerChain(Upstream(ing, svc), ing, sec, ann), st) == DirectPath(w, svc, ing, sec, ann, st)
  {
    var up, plain := Upstream(ing, svc), ing.PlainHTTP();
    if ann.IsRedirect() {
      RunOneHandler(w, StaticResponse(RedirectTarget(ann).1, Some(RedirectTarget(ann).0)), st);
    } else if ann.cors.Some? && |ann.cors.value.origins| > 1 {
      RunCoreChain(w, up, ing, sec, ann, true, true, st);
      RunCoreChain(w, up, ing, sec, ann, false, false, st);
      RunOriginSplit(w, ann.cors.value, CoreChain(up, ing, sec, ann, plain, true, true),
                     CoreChain(up, ing, sec, ann, plain, false, false), st);
    } else {
      RunCoreChain(w, up, ing, sec, ann, ann.cors.Some?, false, st);
    }
  }

  // ---------- routes of one rule ----------

  lemma PathRouteMatches(w: World, p: HTTPPath, r: CaddyRoute, req: Request)
    requires r.matches == PathMatch(p)
    ensures RouteMatches(w, r, req) <==> PathSelects(w, p.path, p.pathType, req.path)
  {
    MatchersMeanSelection(w, p.path, p.pathType, req.path);
    var paths := ConvertPath(p.path, p.pathType);
    if |paths| > 0 { OneSetMatches(w, ANY_REQUEST.(path := paths), r, req); }
  }

  lemma RunPathRoute(w: World, ing: Ingress, sec: Security, ann: Annotations, host: string, p: HTTPPath, i: nat,
                     st: State)
    requires ann.Valid() && p.service.Some?
    ensures RunRoutes(w, [PathRoute(ing, sec, ann, host, p, i)], st)
         == if PathSelects(w, p.path, p.pathType, st.req.path) then DirectPath(w, p.service.value, ing, sec, ann, st)
            else Fall(st)
  {
    var r := PathRoute(ing, sec, ann, host, p, i);
    RunSingle(w, r, st);
    PathRouteMatches(w, p, r, st.req);
    RunHandlerChain(w, p.service.value, ing, sec, ann, st);
  }

  lemma {:induction false} RunPathRoutes(w: World, ing: Ingress, sec: Security, ann: Annotations, host: string,
                                         paths: seq<HTTPPath>, i: nat, st: State)
    requires ann.Valid() && i <= |paths|
    ensures RunRoutes(w, PathRoutes(ing, sec, ann, host, paths, i), st)
         == match FirstPath(w, paths, i, st.req)
            case None => Fall(st)
            case Some(j) => DirectPath(w, paths[j].service.value, ing, sec, ann, st)
    decreases |paths| - i
  {
    if i < |paths| {
      RunPathRoutes(w, ing, sec, ann, host, paths, i + 1, st);
      if paths[i].service.Some? {
        RunPathRoute(w, ing, sec, ann, host, paths[i], i, st);
        RunRoutesAppend(w, [PathRoute(ing, sec, ann, host, paths[i], i)],
                        PathRoutes(ing, sec, ann, host, paths, i + 1), st);
      }
    }
  }

  lemma {:induction false} PathRoutesEmptyIffUnservable(ing: Ingress, sec: Security, ann: Annotations, host: string,
                                                        paths: seq<HTTPPath>, i: nat)
    requires ann.Valid() && i <= |paths|
    ensures PathRoutes(ing, sec, ann, host, paths, i) == [] <==> forall j | i <= j < |paths| :: paths[j].service.None?
    decreases |paths| - i
  {
    if i < |paths| { PathRoutesEmptyIffUnservable(ing, sec, ann, host, paths, i + 1); }
  }

  /** A route that answers 403, run in front of others. */
  lemma RunDenyRoute(w: World, m: MatchSet, st: State)
    ensures RunRoutes(w, [CaddyRoute("", [m], [StaticResponse(403, None)], true)], st)
         == if SetMatches(w, m, st.req) then Done(Static(403, None, st)) else Fall(st)
  {
    var r := CaddyRoute("", [m], [StaticResponse(403, None)], true);
    RunSingle(w, r, st);
    OneSetMatches(w, m, r, st.req);
    RunOneHandler(w, StaticResponse(403, None), st);
  }

  lemma RunIPGuards(w: World, ann: Annotations, st: State)
    ensures RunRoutes(w, IPGuards(ann), st)
         == if IPAllowed(w, ann, st.req.clientIP) then Fall(st) else Done(Static(403, None, st))
  {
    RunRoutesAppend(w, WhitelistGuard(ann), BlocklistGuard(ann), st);
    var inner := MatchInner(Some(ann.whitelist));
    var white, black := ANY_REQUEST.(nots := [inner]), ANY_REQUEST.(remoteIP := Some(ann.blocklist));
    RunDenyRoute(w, white, st);
    RunDenyRoute(w, black, st);
    assert white.nots[0] in white.nots;
    assert SetMatches(w, white, st.req) <==> !InnerMatches(w, inner, st.req);
    assert SetMatches(w, black, st.req) <==> InRanges(w, ann.blocklist, st.req.clientIP);
  }

  lemma RunPreflights(w: World, ann: Annotations, st: State)
    requires ann.Valid()
    ensures RunRoutes(w, Preflights(ann), st)
         == if !IsPreflight(ann, st.req) then Fall(st)
            else var h := CorsResponseHandler(ann.cors.value, |ann.cors.value.origins| > 1);
                 Done(Static(204, None, st.(edits := st.edits + [Edit(h, st.req)])))
  {
    if ann.cors.Some? {
      var cors := ann.cors.value;
      var r := CorsPreflightRoute(cors);
      RunSingle(w, r, st);
      OneSetMatches(w, r.matches[0], r, st.req);
      assert SetMatches(w, r.matches[0], st.req) <==> IsPreflight(ann, st.req) by {
        assert ["OPTIONS"][0] in ["OPTIONS"];
      }
      var h := CorsResponseHandler(cors, |cors.origins| > 1);
      RunHandlersAppend(w, [h], [StaticResponse(204, None)], st);
      assert r.handle == [h] + [StaticResponse(204, None)];
      RunOneHandler(w, h, st);
      RunOneHandler(w, StaticResponse(204, None), st.(edits := st.edits + [Edit(h, st.req)]));
    }
  }

  lemma HostRouteMatches(w: World, rule: Rule, ann: Annotations, r: CaddyRoute, req: Request)
    requires r.matches == HostMatch(rule.host, ann.serverAliases)
    ensures RouteMatches(w, r, req) <==> RuleApplies(w, rule, ann.serverAliases, req)
  {
    var own := if rule.host != "" then [rule.host] else [];
    var hosts := own + ann.serverAliases;
    if |hosts| > 0 {
      OneSetMatches(w, ANY_REQUEST.(host := hosts), r, req);
      assert forall h :: h in hosts <==> h in own || h in ann.serverAliases;
      assert rule.host != "" ==> own[0] in own;
    }
  }

  /** The flattening shortcut serves what the wrapping subroute would. */
  lemma FlatteningKeepsMeaning(w: World, ann: Annotations, paths: seq<CaddyRoute>, r: CaddyRoute, st: State)
    requires ann.Valid() && paths != []
    requires r.terminal && r.handle == HostHandle(IPGuards(ann), IPGuards(ann) + (Preflights(ann) + paths))
    requires forall p :: p in paths ==> !p.terminal
    requires RouteMatches(w, r, st.req)
    ensures RunRoute(w, r, st)
         == match RunRoutes(w, IPGuards(ann) + (Preflights(ann) + paths), st)
            case Fall(st') => Stop(st')
            case o => o
  {
    var all := IPGuards(ann) + (Preflights(ann) + paths);
    if |all| == 1 && all[0].matches == [] && |IPGuards(ann)| == 0 {
      assert all == paths;
      assert all[0] in paths;
      assert all == [all[0]];
      RunSingle(w, all[0], st);
    } else {
      RunOneHandler(w, Subroute(all), st);
    }
  }

  lemma {:induction false} PathRoutesAreNotTerminal(ing: Ingress, sec: Security, ann: Annotations, host: string,
                                                    paths: seq<HTTPPath>, i: nat)
    requires ann.Valid() && i <= |paths|
    ensures forall r :: r in PathRoutes(ing, sec, ann, host, paths, i) ==> !r.terminal
    decreases |paths| - i
  {
    if i < |paths| { PathRoutesAreNotTerminal(ing, sec, ann, host, paths, i + 1); }
  }

  lemma RunRuleRoutes(w: World, ing: Ingress, sec: Security, ann: Annotations, rule: Rule, st: State)
    requires ann.Valid()
    ensures RunRoutes(w, RuleRoutes(ing, sec, ann, rule), st)
         == if Servable(rule) && RuleApplies(w, rule, ann.serverAliases, st.req)
            then DirectRule(w, ing, sec, ann, rule, st) else Fall(st)
  {
    if rule.http.Some? {
      var paths := PathRoutes(ing, sec, ann, rule.host, rule.http.value, 0);
      PathRoutesEmptyIffUnservable(ing, sec, ann, rule.host, rule.http.value, 0);
      assert paths == [] <==> !Servable(rule);
      if paths != [] {
        var r := RuleRoutes(ing, sec, ann, rule)[0];
        assert RuleRoutes(ing, sec, ann, rule) == [r];
        RunSingle(w, r, st);
        HostRouteMatches(w, rule, ann, r, st.req);
        if RouteMatches(w, r, st.req) {
          PathRoutesAreNotTerminal(ing, sec, ann, rule.host, rule.http.value, 0);
          FlatteningKeepsMeaning(w, ann, paths, r, st);
          RunRoutesAppend(w, IPGuards(ann), Preflights(ann) + paths, st);
          RunIPGuards(w, ann, st);
          RunRoutesAppend(w, Preflights(ann), paths, st);
          RunPreflights(w, ann, st);
          RunPathRoutes(w, ing, sec, ann, rule.host, rule.http.value, 0, st);
        }
      }
    }
  }

  lemma RuleAnswersIffItApplies(w: World, ing: Ingress, sec: Security, ann: Annotations, rule: Rule, st: State)
    requires ann.Valid()
    ensures var o := RunRoutes(w, RuleRoutes(ing, sec, ann, rule), st);
      if Servable(rule) && RuleApplies(w, rule, ann.serverAliases, st.req) then !o.Fall? else o == Fall(st)
  {
    RunRuleRoutes(w, ing, sec, ann, rule, st);
  }

  lemma RunFirstThenRest(w: World, first: seq<CaddyRoute>, rest: seq<CaddyRoute>, st: State)
    ensures !RunRoutes(w, first, st).Fall? ==> RunRoutes(w, first + rest, st) == RunRoutes(w, first, st)
    ensures RunRoutes(w, first, st) == Fall(st) ==> RunRoutes(w, first + rest, st) == RunRoutes(w, rest, st)
  {
    RunRoutesAppend(w, first, rest, st);
  }

  lemma RunOneRule(w: World, ing: Ingress, sec: Security, ann: Annotations, k: nat, st: State)
    requires ann.Valid() && k < |ing.rules|
    ensures RunRoutes(w, CompiledRules(ing, sec, ann, k), st)
         == if Servable(ing.rules[k]) && RuleApplies(w, ing.rules[k], ann.serverAliases, st.req)
            then RunRoutes(w, RuleRoutes(ing, sec, ann, ing.rules[k]), st)
            else RunRoutes(w, CompiledRules(ing, sec, ann, k + 1), st)
  {
    RuleAnswersIffItApplies(w, ing, sec, ann, ing.rules[k], st);
    RunFirstThenRest(w, RuleRoutes(ing, sec, ann, ing.rules[k]), CompiledRules(ing, sec, ann, k + 1), st);
  }

  function AnswerOf(w: World, ing: Ingress, sec: Security, ann: Annotations, first: Option<nat>, st: State): Outcome
    requires ann.Valid() && (first.Some? ==> first.value < |ing.rules|)
  {
    if first.None? then Fall(st) else RunRoutes(w, RuleRoutes(ing, sec, ann, ing.rules[first.value]), st)
  }

  /** The first rule that applies answers for all of them. */
  lemma {:induction false} RunCompiledRules(w: World, ing: Ingress, sec: Security, ann: Annotations, k: nat, st: State)
    requires ann.Valid() && k <= |ing.rules|
    ensures RunRoutes(w, CompiledRules(ing, sec, ann, k), st)
         == AnswerOf(w, ing, sec, ann, FirstRule(w, ing, ann.serverAliases, k, st.req), st)
    decreases |ing.rules| - k
  {
    if k < |ing.rules| {
      var first := FirstRule(w, ing, ann.serverAliases, k, st.req);
      RunOneRule(w, ing, sec, ann, k, st);
      if Servable(ing.rules[k]) && RuleApplies(w, ing.rules[k], ann.serverAliases, st.req) {
        assert first == Some(k);
      } else {
        assert first == FirstRule(w, ing, ann.serverAliases, k + 1, st.req);
        RunCompiledRules(w, ing, sec, ann, k + 1, st);
      }
    }
  }

  /** Meaning preservation: the compiled routes answer every request as the Ingress reads. */
  lemma CompilePreservesMeaning(w: World, ing: Ingress, sec: Security, ann: Annotations, st: State)
    requires ann.Valid()
    ensures RunRoutes(w, Compiled(ing, sec, ann), st) == Direct(w, ing, sec, ann, st)
  {
    RunCompiledRules(w, ing, sec, ann, 0, st);
    var first := FirstRule(w, ing, ann.serverAliases, 0, st.req);
    if first.Some? {
      FirstRuleApplies(w, ing, ann.serverAliases, 0, st.req);
      RunRuleRoutes(w, ing, sec, ann, ing.rules[first.value], st);
    }
  }

  lemma {:induction false} FirstRuleApplies(w: World, ing: Ingress, aliases: seq<string>, k: nat, req: Request)
    requires k <= |ing.rules| && FirstRule(w, ing, aliases, k, req).Some?
    ensures RuleApplies(w, ing.rules[FirstRule(w, ing, aliases, k, req).value], aliases, req)
    decreases |ing.rules| - k
  {
    if !(Servable(ing.rules[k]) && RuleApplies(w, ing.rules[k], aliases, req)) {
      FirstRuleApplies(w, ing, aliases, k + 1, req);
    }
  }
}
