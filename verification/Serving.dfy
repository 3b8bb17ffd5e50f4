/** How Caddy serves a request from a route list. This is the model's assumption about Caddy:
    routes are tried in order; the match sets of a route are or-ed and the matchers inside one
    set are and-ed; a terminal route ends evaluation; a subroute nests; static_response and
    reverse_proxy never call the next handler; the gate handlers either pass or reject. */
module Serving {
  import opened Strings
  import opened Routes

  datatype Request = Request(host: string, path: string, methd: string, clientIP: string, origin: Option<string>)

  /** What is left uninterpreted: host patterns, CIDR membership, path globs other than a
      trailing star, and whether a gate handler lets a request through. */
  datatype World = World(
    hostMatches: (string, string) -> bool,
    inRange: (string, string) -> bool,
    globMatches: (string, string) -> bool,
    passes: (Handler, Request) -> bool)

  // ---------- matchers ----------

  predicate GlobFree(s: string) { '*' !in s && '?' !in s && '[' !in s && '\\' !in s }

  /** Caddy's path matcher: literal, literal prefix before a trailing star, or a glob. */
  predicate PathMatches(w: World, pattern: string, path: string) {
    if GlobFree(pattern) then pattern == path
    else if GlobFree(pattern[..|pattern| - 1]) && pattern[|pattern| - 1] == '*' then
      pattern[..|pattern| - 1] <= path
    else w.globMatches(pattern, path)
  }

  /** Caddy's header matcher: "*" is any value; a leading or trailing star is a wildcard. */
  predicate HeaderValueMatches(allowed: string, actual: string) {
    if allowed == "*" then true
    else if allowed != "" && allowed[0] == '*' && allowed[|allowed| - 1] == '*' then
      Contains(actual, allowed[1..|allowed| - 1])
    else if allowed != "" && allowed[0] == '*' then EndsWith(actual, allowed[1..])
    else if allowed != "" && allowed[|allowed| - 1] == '*' then allowed[..|allowed| - 1] <= actual
    else allowed == actual
  }

  predicate OriginAllowed(origins: seq<string>, req: Request) {
    req.origin.Some? && exists o :: o in origins && HeaderValueMatches(o, req.origin.value)
  }

  /** The compiler only ever matches on the Origin header. */
  predicate HeadersMatch(headers: Headers, req: Request) {
    "Origin" in headers ==> OriginAllowed(headers["Origin"], req)
  }

  predicate InRanges(w: World, ranges: seq<string>, ip: string) {
    exists r :: r in ranges && w.inRange(r, ip)
  }

  predicate InnerMatches(w: World, m: MatchInner, req: Request) {
    m.remoteIP.Some? ==> InRanges(w, m.remoteIP.value, req.clientIP)
  }

  predicate SetMatches(w: World, m: MatchSet, req: Request) {
    && (m.host != [] ==> exists h :: h in m.host && w.hostMatches(h, req.host))
    && (m.path != [] ==> exists p :: p in m.path && PathMatches(w, p, req.path))
    && (m.methods != [] ==> req.methd in m.methods)
    && HeadersMatch(m.headers, req)
    && (m.remoteIP.Some? ==> InRanges(w, m.remoteIP.value, req.clientIP))
    && (m.nots != [] ==> forall n :: n in m.nots ==> !InnerMatches(w, n, req))
  }

  predicate RouteMatches(w: World, r: CaddyRoute, req: Request) {
    r.matches == [] || exists m :: m in r.matches && SetMatches(w, m, req)
  }

  // ---------- evaluation ----------

  /** A pending edit of the response headers. */
  datatype HeaderEdit = HeaderEdit(sets: Headers, deletes: seq<string>)

  /** The request as rewritten so far, the header edits so far, the gates passed so far. */
  datatype State = State(req: Request, edits: seq<HeaderEdit>, passed: seq<Handler>)

  datatype Response =
    | Static(status: int, location: Option<string>, state: State)
    | Rejected(gate: Handler, state: State)
    | Proxied(proxy: Handler, state: State)

  /** Fall: the next handler runs. Stop: a terminal route ended evaluation with no response. */
  datatype Outcome = Fall(state: State) | Stop(state: State) | Done(response: Response)

  function Start(req: Request): State { State(req, [], []) }

  /** The Origin placeholder stands for the request's header; other values stay symbolic. */
  function ExpandValue(v: string, req: Request): string {
    if v == ORIGIN_PLACEHOLDER then (if req.origin.Some? then req.origin.value else "") else v
  }

  function ExpandAll(vs: seq<string>, req: Request): seq<string> {
    seq(|vs|, i requires 0 <= i < |vs| => ExpandValue(vs[i], req))
  }

  function Edit(h: Handler, req: Request): HeaderEdit
    requires h.ResponseHeaders?
  {
    HeaderEdit(map k | k in h.sets :: ExpandAll(h.sets[k], req), h.deletes)
  }

  /** The response header that the edits leave, in order; within one edit sets come before
      deletes. Names are compared as given. */
  function Effective(edits: seq<HeaderEdit>, name: string): Option<seq<string>> {
    if edits == [] then None
    else
      var e := edits[|edits| - 1];
      if name in e.deletes then None
      else if name in e.sets then Some(e.sets[name])
      else Effective(edits[..|edits| - 1], name)
  }

  predicate IsGate(h: Handler) {
    h.Authentication? || h.RequestBody? || h.RateLimit? || h.Waf? || h.Opaque?
  }

  function PassGate(w: World, h: Handler, st: State): Outcome {
    if w.passes(h, st.req) then Fall(st.(passed := st.passed + [h])) else Done(Rejected(h, st))
  }

  function RunHandler(w: World, h: Handler, st: State): Outcome
    decreases h, 0
  {
    match h
    case StaticResponse(status, location) => Done(Static(status, location, st))
    case Subroute(routes) => RunRoutes(w, routes, st)
    case ResponseHeaders(_, _) => Fall(st.(edits := st.edits + [Edit(h, st.req)]))
    case Rewrite(uri) => Fall(st.(req := st.req.(path := uri)))
    case ReverseProxy(_, _, _, _, _) => Done(Proxied(h, st))
    case _ => PassGate(w, h, st)
  }

  function RunHandlers(w: World, hs: seq<Handler>, st: State): Outcome
    decreases hs, 0
  {
    if hs == [] then Fall(st)
    else
      match RunHandler(w, hs[0], st)
      case Fall(st') => RunHandlers(w, hs[1..], st')
      case o => o
  }

  function RunRoute(w: World, r: CaddyRoute, st: State): Outcome
    decreases r, 0
  {
    if !RouteMatches(w, r, st.req) then Fall(st)
    else
      match RunHandlers(w, r.handle, st)
      case Fall(st') => if r.terminal then Stop(st') else Fall(st')
      case o => o
  }

  function RunRoutes(w: World, rs: seq<CaddyRoute>, st: State): Outcome
    decreases rs, 0
  {
    if rs == [] then Fall(st)
    else
      match RunRoute(w, rs[0], st)
      case Fall(st') => RunRoutes(w, rs[1..], st')
      case o => o
  }

  // ---------- composition ----------

  lemma {:induction false} RunHandlersAppend(w: World, a: seq<Handler>, b: seq<Handler>, st: State)
    ensures RunHandlers(w, a + b, st)
         == match RunHandlers(w, a, st) { case Fall(st') => RunHandlers(w, b, st') case o => o }
  {
    if a == [] {
      assert a + b == b;
    } else {
      assert (a + b)[1..] == a[1..] + b;
      match RunHandler(w, a[0], st) {
        case Fall(st') => RunHandlersAppend(w, a[1..], b, st');
        case _ =>
      }
    }
  }

  lemma {:induction false} RunRoutesAppend(w: World, a: seq<CaddyRoute>, b: seq<CaddyRoute>, st: State)
    ensures RunRoutes(w, a + b, st)
         == match RunRoutes(w, a, st) { case Fall(st') => RunRoutes(w, b, st') case o => o }
  {
    if a == [] {
      assert a + b == b;
    } else {
      assert (a + b)[1..] == a[1..] + b;
      match RunRoute(w, a[0], st) {
        case Fall(st') => RunRoutesAppend(w, a[1..], b, st');
        case _ =>
      }
    }
  }

  lemma RunSingle(w: World, r: CaddyRoute, st: State)
    ensures RunRoutes(w, [r], st) == RunRoute(w, r, st)
  {
    assert [r][1..] == [];
  }

  lemma RunOneHandler(w: World, h: Handler, st: State)
    ensures RunHandlers(w, [h], st) == RunHandler(w, h, st)
  {
    assert [h][1..] == [];
  }
}
