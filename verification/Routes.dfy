/** The Ingress-to-Caddy-route compiler of routes.go: the route data types, a function for
    what each builder produces, and the builders themselves as the loops the source runs. */
module Routes {
  import opened Strings

  // ---------- Kubernetes side ----------

  datatype PathType = Exact | Prefix | ImplementationSpecific
  datatype Service = Service(name: string, port: nat)
  datatype HTTPPath = HTTPPath(path: string, pathType: Option<PathType>, service: Option<Service>)
  datatype Rule = Rule(host: string, http: Option<seq<HTTPPath>>)
  datatype TLSEntry = TLSEntry(hosts: seq<string>, secretName: string)

  /** classAnnotation is the value of kubernetes.io/ingress.class, "" when absent. */
  datatype Ingress = Ingress(namespace: string, name: string, className: Option<string>,
                             classAnnotation: string, rules: seq<Rule>, tls: seq<TLSEntry>)
  {
    function Key(): string { namespace + "/" + name }
    predicate PlainHTTP() { |tls| == 0 }
  }

  datatype Security = Security(waf: bool, wafMode: string, securityHeaders: bool, injectRealIP: bool)
  datatype HeaderConfig = HeaderConfig(sets: map<string, string>, deletes: seq<string>)
  {
    predicate Empty() { |sets| == 0 && |deletes| == 0 }
  }
  datatype Cors = Cors(origins: seq<string>, allowMethods: string, allowHeaders: string,
                       exposeHeaders: string, allowCreds: bool, maxAge: nat)
  {
    predicate IsWildcard() { |origins| == 1 && origins[0] == "*" }
  }
  datatype BasicAuth = BasicAuth(realm: string, accounts: seq<(string, string)>)
  datatype Proxy = Proxy(readTimeout: string, sendTimeout: string, connectTimeout: string,
                         maxBodySize: int, backendTLS: bool, backendTLSInsecure: bool,
                         httpVersion: string, upstreamVhost: string, xForwardedPrefix: string,
                         retries: int)
  /** The resolved annotations of one Ingress. */
  datatype Annotations = Annotations(
    whitelist: seq<string>, blocklist: seq<string>, sslRedirect: bool,
    permanentRedirect: string, temporalRedirect: string, redirectCode: int,
    rewriteTarget: string, serverAliases: seq<string>, limitRPS: int, cors: Option<Cors>,
    requestHeaders: HeaderConfig, responseHeaders: HeaderConfig,
    wafOverride: Option<bool>, wafModeOverride: string, wafDirectives: seq<string>,
    proxy: Proxy, basicAuth: Option<BasicAuth>, authPolicy: Option<string>)
  {
    /** resolveAnnotations never leaves an empty origin list. */
    predicate Valid() { cors.Some? ==> |cors.value.origins| > 0 }
    predicate IsRedirect() { permanentRedirect != "" || temporalRedirect != "" }
  }

  // ---------- Caddy side ----------

  datatype MatchInner = MatchInner(remoteIP: Option<seq<string>>)
  datatype MatchSet = MatchSet(host: seq<string>, path: seq<string>, methods: seq<string>,
                               headers: map<string, seq<string>>,
                               remoteIP: Option<seq<string>>, nots: seq<MatchInner>)
  const ANY_REQUEST := MatchSet([], [], [], map[], None, [])

  /** The transport of a proxy; an empty string stands for a key that is left out. */
  datatype Transport = Transport(insecureTLS: Option<bool>, version: string, readTimeout: string,
                                 sendTimeout: string, connectTimeout: string)

  /** Handlers hold what is marshalled, so that equal handlers are equal JSON and conversely. */
  datatype Handler =
    | StaticResponse(status: int, location: Option<string>)
    | Subroute(routes: seq<CaddyRoute>)
    | ResponseHeaders(sets: map<string, seq<string>>, deletes: seq<string>)
    | Authentication(auth: BasicAuth)
    | RequestBody(maxSize: int)
    | RateLimit(zone: string, rps: int)
    | Rewrite(uri: string)
    | Waf(directives: string)
    | Opaque(json: string)
    | ReverseProxy(upstream: string, transport: Option<Transport>, sets: map<string, seq<string>>,
                   deletes: seq<string>, retries: nat)

  /** match is a reserved word, so the match sets are called matches. */
  datatype CaddyRoute = CaddyRoute(id: string, matches: seq<MatchSet>, handle: seq<Handler>, terminal: bool)

  // ---------- ids ----------

  function ReplaceDots(s: string): (r: string)
    ensures |r| == |s|
  {
    if s == "" then "" else [if s[0] == '.' then '-' else s[0]] + ReplaceDots(s[1..])
  }

  const WILDCARD := "wildcard"

  function ReplaceStars(s: string): string {
    if s == "" then ""
    else (if s[0] == '*' then WILDCARD else [s[0]]) + ReplaceStars(s[1..])
  }

  function HostLabel(host: string): string {
    var h := ReplaceStars(ReplaceDots(host));
    if h == "" then "any" else h
  }

  const ID_PREFIX := "caddy-k8s-"

  /** routeID; pathIdx is None where the source passes -1. */
  function RouteID(namespace: string, name: string, host: string, pathIdx: Option<nat>): string {
    var base := ID_PREFIX + namespace + "-" + name + "-" + HostLabel(host);
    match pathIdx
    case None => base
    case Some(i) => base + "-p" + Decimal(i)
  }

  const REDIRECT_SUFFIX := "-http-redirect"

  // ---------- paths ----------

  predicate EndsWith(s: string, suffix: string) {
    |suffix| <= |s| && s[|s| - |suffix|..] == suffix
  }

  function ConvertPath(path: string, pt: Option<PathType>): seq<string> {
    if path == "" || path == "/" then []
    else if pt == Some(Exact) then [path]
    else if EndsWith(path, "/") then [path + "*"]
    else [path, path + "/*"]
  }

  // ---------- CORS ----------

  const ORIGIN_PLACEHOLDER := "{http.request.header.Origin}"
  const ALLOW_ORIGIN := "Access-Control-Allow-Origin"
  const ALLOW_CREDENTIALS := "Access-Control-Allow-Credentials"

  function AllowOrigin(cors: Cors, dynamic: bool): string
    requires !dynamic ==> |cors.origins| > 0
  {
    if dynamic then ORIGIN_PLACEHOLDER else cors.origins[0]
  }

  const VARY := "Vary"
  const ALLOW_METHODS := "Access-Control-Allow-Methods"
  const ALLOW_HEADERS := "Access-Control-Allow-Headers"
  const EXPOSE_HEADERS := "Access-Control-Expose-Headers"
  const MAX_AGE := "Access-Control-Max-Age"

  type Headers = map<string, seq<string>>

  function SetIf(h: Headers, b: bool, key: string, value: string): Headers {
    if b then h[key := [value]] else h
  }

  /** The header map buildCORSResponseHeaders returns. */
  function CorsHeaders(cors: Cors, dynamic: bool): Headers
    requires !dynamic ==> |cors.origins| > 0
  {
    var origin := AllowOrigin(cors, dynamic);
    var h := SetIf(map[ALLOW_ORIGIN := [origin]], origin != "*", VARY, "Origin");
    var h := SetIf(h, cors.allowMethods != "", ALLOW_METHODS, cors.allowMethods);
    var h := SetIf(h, cors.allowHeaders != "", ALLOW_HEADERS, cors.allowHeaders);
    var h := SetIf(h, cors.exposeHeaders != "", EXPOSE_HEADERS, cors.exposeHeaders);
    var h := SetIf(h, cors.allowCreds, ALLOW_CREDENTIALS, "true");
    SetIf(h, cors.maxAge > 0, MAX_AGE, Decimal(cors.maxAge))
  }

  method BuildCORSResponseHeaders(cors: Cors, dynamic: bool) returns (h: Headers)
    requires !dynamic ==> |cors.origins| > 0
    ensures h == CorsHeaders(cors, dynamic)
  {
    var origin := if dynamic then ORIGIN_PLACEHOLDER else cors.origins[0];
    h := map[ALLOW_ORIGIN := [origin]];
    if origin != "*" { h := h[VARY := ["Origin"]]; }
    if cors.allowMethods != "" { h := h[ALLOW_METHODS := [cors.allowMethods]]; }
    if cors.allowHeaders != "" { h := h[ALLOW_HEADERS := [cors.allowHeaders]]; }
    if cors.exposeHeaders != "" { h := h[EXPOSE_HEADERS := [cors.exposeHeaders]]; }
    if cors.allowCreds { h := h[ALLOW_CREDENTIALS := ["true"]]; }
    if cors.maxAge > 0 { h := h[MAX_AGE := [Decimal(cors.maxAge)]]; }
  }

  function CorsResponseHandler(cors: Cors, dynamic: bool): Handler
    requires !dynamic ==> |cors.origins| > 0
  {
    ResponseHeaders(CorsHeaders(cors, dynamic), [])
  }

  function CorsPreflightRoute(cors: Cors): CaddyRoute
    requires |cors.origins| > 0
  {
    var m := if cors.IsWildcard() then ANY_REQUEST.(methods := ["OPTIONS"])
             else ANY_REQUEST.(methods := ["OPTIONS"], headers := map["Origin" := cors.origins]);
    CaddyRoute("", [m], [CorsResponseHandler(cors, |cors.origins| > 1), StaticResponse(204, None)], true)
  }

  // ---------- guards ----------

  function WhitelistGuard(ann: Annotations): seq<CaddyRoute> {
    if |ann.whitelist| > 0 then
      [CaddyRoute("", [ANY_REQUEST.(nots := [MatchInner(Some(ann.whitelist))])], [StaticResponse(403, None)], true)]
    else []
  }

  function BlocklistGuard(ann: Annotations): seq<CaddyRoute> {
    if |ann.blocklist| > 0 then
      [CaddyRoute("", [ANY_REQUEST.(remoteIP := Some(ann.blocklist))], [StaticResponse(403, None)], true)]
    else []
  }

  function IPGuards(ann: Annotations): seq<CaddyRoute> {
    WhitelistGuard(ann) + BlocklistGuard(ann)
  }

  method BuildIPGuardRoutes(ann: Annotations) returns (guards: seq<CaddyRoute>)
    ensures guards == IPGuards(ann)
  {
    guards := [];
    if |ann.whitelist| > 0 {
      guards := guards + [CaddyRoute("", [ANY_REQUEST.(nots := [MatchInner(Some(ann.whitelist))])],
                                     [StaticResponse(403, None)], true)];
    }
    if |ann.blocklist| > 0 {
      guards := guards + [CaddyRoute("", [ANY_REQUEST.(remoteIP := Some(ann.blocklist))],
                                     [StaticResponse(403, None)], true)];
    }
  }

  // ---------- handler chains ----------

  const SECURITY_HEADERS := ResponseHeaders(
    map["Strict-Transport-Security" := ["max-age=31536000; includeSubDomains"],
        "X-Content-Type-Options" := ["nosniff"],
        "X-Frame-Options" := ["SAMEORIGIN"],
        "Referrer-Policy" := ["strict-origin-when-cross-origin"]],
    ["Server"])

  /** One value for each header of an annotation. */
  function Values(sets: map<string, string>): Headers { map k | k in sets :: [sets[k]] }

  function ResponseHeadersHandler(cfg: HeaderConfig): Handler {
    ResponseHeaders(Values(cfg.sets), cfg.deletes)
  }

  /** Extra directives come after the rule-set includes and before the engine setting. */
  function WafHandler(mode: string, extra: seq<string>): Handler {
    var parts := ["Include @coraza.conf-recommended", "Include @crs-setup.conf.example", "Include @owasp_crs/*.conf"]
                 + extra
                 + ["SecRuleEngine " + (if EqualFold(mode, "On") then "On" else "DetectionOnly"),
                    "SecRequestBodyAccess On", "SecResponseBodyAccess Off", "SecRequestBodyLimit 13107200"];
    Waf(Join(parts, '\n'))
  }

  function WafEnabled(sec: Security, ann: Annotations): bool {
    if ann.wafOverride.Some? then ann.wafOverride.value else sec.waf
  }

  function WafMode(sec: Security, ann: Annotations): string {
    if ann.wafOverride.Some? && ann.wafModeOverride != "" then ann.wafModeOverride else sec.wafMode
  }

  function If(b: bool, h: Handler): seq<Handler> { if b then [h] else [] }

  function RateLimitHandler(ing: Ingress, rps: int): Handler {
    RateLimit("caddy-k8s-" + ing.namespace + "-" + ing.name, rps)
  }

  /** Gates in front of the URI rewrite. */
  function EarlyGates(ing: Ingress, ann: Annotations): seq<Handler> {
    (if ann.basicAuth.Some? then [Authentication(ann.basicAuth.value)] else [])
    + If(ann.proxy.maxBodySize > 0, RequestBody(ann.proxy.maxBodySize))
    + If(ann.limitRPS > 0, RateLimitHandler(ing, ann.limitRPS))
  }

  /** Gates behind the rewrite and the response headers. */
  function LateGates(sec: Security, ann: Annotations): seq<Handler> {
    If(WafEnabled(sec, ann), WafHandler(WafMode(sec, ann), ann.wafDirectives))
    + (if ann.authPolicy.Some? then [Opaque(ann.authPolicy.value)] else [])
  }

  function HeaderHandlers(sec: Security, ann: Annotations, plainHTTP: bool): seq<Handler> {
    If(sec.securityHeaders && !plainHTTP, SECURITY_HEADERS)
    + If(!ann.responseHeaders.Empty(), ResponseHeadersHandler(ann.responseHeaders))
  }

  const NO_TRANSPORT := Transport(None, "", "", "", "")

  function ProxyTransport(p: Proxy): Option<Transport> {
    var t := Transport(if p.backendTLS then Some(p.backendTLSInsecure) else None, p.httpVersion,
                       p.readTimeout, p.sendTimeout, p.connectTimeout);
    if t == NO_TRANSPORT then None else Some(t)
  }

  const FORWARDED_PROTO := "X-Forwarded-Proto"
  const FORWARDED_PORT := "X-Forwarded-Port"

  function RealIPHeaders(plainHTTP: bool): Headers {
    map["X-Real-IP" := ["{http.vars.client_ip}"],
        "X-Forwarded-For" := ["{http.vars.client_ip}"],
        FORWARDED_PROTO := [if plainHTTP then "http" else "https"],
        "X-Forwarded-Host" := ["{http.request.host}"],
        FORWARDED_PORT := [if plainHTTP then "80" else "443"]]
  }

  /** The request headers sent upstream; the annotation overrides the others. */
  function RequestHeaders(injectRealIP: bool, proxy: Proxy, plainHTTP: bool, cfg: HeaderConfig): Headers {
    var h := if injectRealIP then RealIPHeaders(plainHTTP) else map[];
    var h := SetIf(h, proxy.upstreamVhost != "", "Host", proxy.upstreamVhost);
    SetIf(h, proxy.xForwardedPrefix != "", "X-Forwarded-Prefix", proxy.xForwardedPrefix) + Values(cfg.sets)
  }

  function ProxyHandler(upstream: string, sec: Security, ann: Annotations, plainHTTP: bool): Handler {
    ReverseProxy(upstream, ProxyTransport(ann.proxy),
                 RequestHeaders(sec.injectRealIP, ann.proxy, plainHTTP, ann.requestHeaders),
                 ann.requestHeaders.deletes, if ann.proxy.retries > 0 then ann.proxy.retries else 0)
  }

  /** reverseProxyHandler; the transport and the header map are methods of their own. */
  method BuildReverseProxy(upstream: string, sec: Security, ann: Annotations, plainHTTP: bool) returns (h: Handler)
    ensures h == ProxyHandler(upstream, sec, ann, plainHTTP)
  {
    var transport := BuildTransport(ann.proxy);
    var headers := BuildRequestHeaders(sec.injectRealIP, ann.proxy, plainHTTP, ann.requestHeaders);
    h := ReverseProxy(upstream, transport, headers, ann.requestHeaders.deletes,
                      if ann.proxy.retries > 0 then ann.proxy.retries else 0);
  }

  method BuildTransport(proxy: Proxy) returns (t: Option<Transport>)
    ensures t == ProxyTransport(proxy)
  {
    var transport, hasTransport := NO_TRANSPORT, false;
    if proxy.backendTLS {
      transport, hasTransport := transport.(insecureTLS := Some(proxy.backendTLSInsecure)), true;
    }
    if proxy.httpVersion != "" { transport, hasTransport := transport.(version := proxy.httpVersion), true; }
    if proxy.readTimeout != "" { transport, hasTransport := transport.(readTimeout := proxy.readTimeout), true; }
    if proxy.sendTimeout != "" { transport, hasTransport := transport.(sendTimeout := proxy.sendTimeout), true; }
    if proxy.connectTimeout != "" {
      transport, hasTransport := transport.(connectTimeout := proxy.connectTimeout), true;
    }
    t := if hasTransport then Some(transport) else None;
  }

  method BuildRequestHeaders(injectRealIP: bool, proxy: Proxy, plainHTTP: bool, cfg: HeaderConfig)
    returns (headers: Headers)
    ensures headers == RequestHeaders(injectRealIP, proxy, plainHTTP, cfg)
  {
    headers := map[];
    if injectRealIP { headers := RealIPHeaders(plainHTTP); }
    if proxy.upstreamVhost != "" { headers := headers["Host" := [proxy.upstreamVhost]]; }
    if proxy.xForwardedPrefix != "" { headers := headers["X-Forwarded-Prefix" := [proxy.xForwardedPrefix]]; }
    headers := MergeHeaders(headers, cfg.sets);
  }

  /** The loop over the annotation's headers, in any order of the map. */
  method MergeHeaders(builtIn: Headers, sets: map<string, string>) returns (headers: Headers)
    ensures headers == builtIn + Values(sets)
  {
    headers := builtIn;
    var todo := sets.Keys;
    while todo != {}
      invariant todo <= sets.Keys
      invariant headers.Keys == builtIn.Keys + (sets.Keys - todo)
      invariant forall k :: k in headers ==>
                  headers[k] == if k in sets && k !in todo then [sets[k]] else builtIn[k]
      decreases todo
    {
      var k :| k in todo;
      headers, todo := headers[k := [sets[k]]], todo - {k};
    }
  }

  function CorsPart(ann: Annotations, withCORS: bool, dynamic: bool): seq<Handler>
    requires ann.Valid()
  {
    if withCORS && ann.cors.Some? then [CorsResponseHandler(ann.cors.value, dynamic)] else []
  }

  /** The flat chain of buildCoreHandlers. */
  function CoreChain(upstream: string, ing: Ingress, sec: Security, ann: Annotations,
                     plainHTTP: bool, withCORS: bool, dynamic: bool): seq<Handler>
    requires ann.Valid()
  {
    CorsPart(ann, withCORS, dynamic)
    + EarlyGates(ing, ann)
    + If(ann.rewriteTarget != "", Rewrite(ann.rewriteTarget))
    + HeaderHandlers(sec, ann, plainHTTP)
    + LateGates(sec, ann)
    + [ProxyHandler(upstream, sec, ann, plainHTTP)]
  }

  /** buildCoreHandlers; its three groups of conditional appends are methods of their own. */
  method BuildCoreHandlers(upstream: string, ing: Ingress, sec: Security, ann: Annotations,
                           plainHTTP: bool, withCORS: bool, dynamic: bool)
    returns (handlers: seq<Handler>)
    requires ann.Valid()
    ensures handlers == CoreChain(upstream, ing, sec, ann, plainHTTP, withCORS, dynamic)
  {
    handlers := [];
    if withCORS && ann.cors.Some? {
      var h := BuildCORSResponseHeaders(ann.cors.value, dynamic);
      handlers := [ResponseHeaders(h, [])];
    }
    handlers := AddEarlyGates(handlers, ing, ann);
    var rewrite := [];
    if ann.rewriteTarget != "" {
      rewrite := [Rewrite(ann.rewriteTarget)];
    }
    handlers := handlers + rewrite;
    handlers := AddHeaderHandlers(handlers, sec, ann, plainHTTP);
    handlers := AddLateGates(handlers, sec, ann);
    var proxy := BuildReverseProxy(upstream, sec, ann, plainHTTP);
    handlers := handlers + [proxy];
  }

  method AddEarlyGates(hs: seq<Handler>, ing: Ingress, ann: Annotations) returns (handlers: seq<Handler>)
    ensures handlers == hs + EarlyGates(ing, ann)
  {
    handlers := hs;
    if ann.basicAuth.Some? {
      handlers := handlers + [Authentication(ann.basicAuth.value)];
    }
    if ann.proxy.maxBodySize > 0 {
      handlers := handlers + [RequestBody(ann.proxy.maxBodySize)];
    }
    if ann.limitRPS > 0 {
      handlers := handlers + [RateLimitHandler(ing, ann.limitRPS)];
    }
  }

  method AddHeaderHandlers(hs: seq<Handler>, sec: Security, ann: Annotations, plainHTTP: bool)
    returns (handlers: seq<Handler>)
    ensures handlers == hs + HeaderHandlers(sec, ann, plainHTTP)
  {
    handlers := hs;
    if sec.securityHeaders && !plainHTTP {
      handlers := handlers + [SECURITY_HEADERS];
    }
    if !ann.responseHeaders.Empty() {
      handlers := handlers + [ResponseHeadersHandler(ann.responseHeaders)];
    }
  }

  method AddLateGates(hs: seq<Handler>, sec: Security, ann: Annotations) returns (handlers: seq<Handler>)
    ensures handlers == hs + LateGates(sec, ann)
  {
    handlers := hs;
    var wafEnabled, wafMode := sec.waf, sec.wafMode;
    if ann.wafOverride.Some? {
      wafEnabled := ann.wafOverride.value;
      if ann.wafModeOverride != "" { wafMode := ann.wafModeOverride; }
    }
    if wafEnabled {
      handlers := handlers + [WafHandler(wafMode, ann.wafDirectives)];
    }
    if ann.authPolicy.Some? {
      handlers := handlers + [Opaque(ann.authPolicy.value)];
    }
  }

  function RedirectTarget(ann: Annotations): (string, int) {
    var url := if ann.temporalRedirect != "" then ann.temporalRedirect else ann.permanentRedirect;
    var code := if ann.redirectCode > 0 then ann.redirectCode
                else if ann.temporalRedirect != "" then 302 else 301;
    (url, code)
  }

  /** The two-branch subroute that splits on the Origin header. */
  function OriginSplit(cors: Cors, withCORS: seq<Handler>, withoutCORS: seq<Handler>): Handler {
    Subroute([CaddyRoute("", [ANY_REQUEST.(headers := map["Origin" := cors.origins])], withCORS, true),
              CaddyRoute("", [], withoutCORS, true)])
  }

  function HandlerChain(upstream: string, ing: Ingress, sec: Security, ann: Annotations): seq<Handler>
    requires ann.Valid()
  {
    if ann.IsRedirect() then
      [StaticResponse(RedirectTarget(ann).1, Some(RedirectTarget(ann).0))]
    else if ann.cors.Some? && |ann.cors.value.origins| > 1 then
      [OriginSplit(ann.cors.value,
                   CoreChain(upstream, ing, sec, ann, ing.PlainHTTP(), true, true),
                   CoreChain(upstream, ing, sec, ann, ing.PlainHTTP(), false, false))]
    else CoreChain(upstream, ing, sec, ann, ing.PlainHTTP(), ann.cors.Some?, false)
  }

  method BuildHandlers(upstream: string, ing: Ingress, sec: Security, ann: Annotations)
    returns (handlers: seq<Handler>)
    requires ann.Valid()
    ensures handlers == HandlerChain(upstream, ing, sec, ann)
  {
    var plainHTTP := ing.PlainHTTP();
    if ann.permanentRedirect != "" || ann.temporalRedirect != "" {
      var url, code := ann.permanentRedirect, 301;
      if ann.temporalRedirect != "" { url, code := ann.temporalRedirect, 302; }
      if ann.redirectCode > 0 { code := ann.redirectCode; }
      return [StaticResponse(code, Some(url))];
    }
    if ann.cors.Some? && |ann.cors.value.origins| > 1 {
      var withCORS := BuildCoreHandlers(upstream, ing, sec, ann, plainHTTP, true, true);
      var withoutCORS := BuildCoreHandlers(upstream, ing, sec, ann, plainHTTP, false, false);
      return [OriginSplit(ann.cors.value, withCORS, withoutCORS)];
    }
    handlers := BuildCoreHandlers(upstream, ing, sec, ann, plainHTTP, ann.cors.Some?, false);
  }

  // ---------- rules ----------

  function Upstream(ing: Ingress, svc: Service): string {
    svc.name + "." + ing.namespace + ".svc.cluster.local:" + Decimal(svc.port)
  }

  function PathMatch(p: HTTPPath): seq<MatchSet> {
    var paths := ConvertPath(p.path, p.pathType);
    if |paths| > 0 then [ANY_REQUEST.(path := paths)] else []
  }

  function PathRoute(ing: Ingress, sec: Security, ann: Annotations, host: string, p: HTTPPath, i: nat): CaddyRoute
    requires ann.Valid() && p.service.Some?
  {
    CaddyRoute(RouteID(ing.namespace, ing.name, host, Some(i)), PathMatch(p),
               HandlerChain(Upstream(ing, p.service.value), ing, sec, ann), false)
  }

  /** The routes of paths i.. of one rule; a path without a service backend is skipped but
      keeps its index. */
  function PathRoutes(ing: Ingress, sec: Security, ann: Annotations, host: string,
                      paths: seq<HTTPPath>, i: nat): seq<CaddyRoute>
    requires ann.Valid() && i <= |paths|
    decreases |paths| - i
  {
    if i == |paths| then []
    else
      var rest := PathRoutes(ing, sec, ann, host, paths, i + 1);
      if paths[i].service.None? then rest
      else [PathRoute(ing, sec, ann, host, paths[i], i)] + rest
  }

  function Preflights(ann: Annotations): seq<CaddyRoute>
    requires ann.Valid()
  {
    if ann.cors.Some? then [CorsPreflightRoute(ann.cors.value)] else []
  }

  /** A single unguarded, unmatched path route is flattened into its host route. */
  function HostHandle(guards: seq<CaddyRoute>, all: seq<CaddyRoute>): seq<Handler> {
    if |all| == 1 && all[0].matches == [] && |guards| == 0 then all[0].handle
    else [Subroute(all)]
  }

  function HostMatch(host: string, aliases: seq<string>): seq<MatchSet> {
    var hosts := (if host != "" then [host] else []) + aliases;
    if |hosts| > 0 then [ANY_REQUEST.(host := hosts)] else []
  }

  /** The host-level route of one rule: none when the rule has no servable path. */
  function RuleRoutes(ing: Ingress, sec: Security, ann: Annotations, rule: Rule): seq<CaddyRoute>
    requires ann.Valid()
  {
    if rule.http.None? then []
    else
      var paths := PathRoutes(ing, sec, ann, rule.host, rule.http.value, 0);
      if paths == [] then []
      else
        var guards := IPGuards(ann);
        [CaddyRoute(RouteID(ing.namespace, ing.name, rule.host, None),
                    HostMatch(rule.host, ann.serverAliases),
                    HostHandle(guards, guards + (Preflights(ann) + paths)), true)]
  }

  function CompiledRules(ing: Ingress, sec: Security, ann: Annotations, k: nat): seq<CaddyRoute>
    requires ann.Valid() && k <= |ing.rules|
    decreases |ing.rules| - k
  {
    if k == |ing.rules| then []
    else RuleRoutes(ing, sec, ann, ing.rules[k]) + CompiledRules(ing, sec, ann, k + 1)
  }

  /** What convertIngress returns. */
  function Compiled(ing: Ingress, sec: Security, ann: Annotations): seq<CaddyRoute>
    requires ann.Valid()
  {
    CompiledRules(ing, sec, ann, 0)
  }

  method ConvertIngress(ing: Ingress, sec: Security, ann: Annotations) returns (routes: seq<CaddyRoute>)
    requires ann.Valid()
    ensures routes == Compiled(ing, sec, ann)
  {
    routes := [];
    for k := 0 to |ing.rules|
      invariant routes + CompiledRules(ing, sec, ann, k) == Compiled(ing, sec, ann)
    {
      var forRule := ConvertRule(ing, sec, ann, ing.rules[k]);
      routes := routes + forRule;
    }
  }

  /** The body of convertIngress's loop over the rules. */
  method ConvertRule(ing: Ingress, sec: Security, ann: Annotations, rule: Rule) returns (routes: seq<CaddyRoute>)
    requires ann.Valid()
    ensures routes == RuleRoutes(ing, sec, ann, rule)
  {
    if rule.http.None? { return []; }
    var pathRoutes := ConvertPaths(ing, sec, ann, rule.host, rule.http.value);
    if |pathRoutes| == 0 { return []; }

    var guardRoutes := BuildIPGuardRoutes(ann);
    var preflightRoutes := [];
    if ann.cors.Some? { preflightRoutes := [CorsPreflightRoute(ann.cors.value)]; }
    var allRoutes := guardRoutes + (preflightRoutes + pathRoutes);

    var handle;
    if |allRoutes| == 1 && allRoutes[0].matches == [] && |guardRoutes| == 0 {
      handle := allRoutes[0].handle;
    } else {
      handle := [Subroute(allRoutes)];
    }

    var matches := [];
    if rule.host != "" || |ann.serverAliases| > 0 {
      var hosts := [];
      if rule.host != "" { hosts := [rule.host]; }
      hosts := hosts + ann.serverAliases;
      matches := [ANY_REQUEST.(host := hosts)];
    }
    routes := [CaddyRoute(RouteID(ing.namespace, ing.name, rule.host, None), matches, handle, true)];
  }

  /** The inner loop of convertIngress over the paths of one rule. */
  method ConvertPaths(ing: Ingress, sec: Security, ann: Annotations, host: string, paths: seq<HTTPPath>)
    returns (pathRoutes: seq<CaddyRoute>)
    requires ann.Valid()
    ensures pathRoutes == PathRoutes(ing, sec, ann, host, paths, 0)
  {
    pathRoutes := [];
    for i := 0 to |paths|
      invariant pathRoutes + PathRoutes(ing, sec, ann, host, paths, i)
             == PathRoutes(ing, sec, ann, host, paths, 0)
    {
      if paths[i].service.None? { continue; }
      var route := ConvertOnePath(ing, sec, ann, host, paths[i], i);
      pathRoutes := pathRoutes + [route];
    }
  }

  method ConvertOnePath(ing: Ingress, sec: Security, ann: Annotations, host: string, p: HTTPPath, i: nat)
    returns (route: CaddyRoute)
    requires ann.Valid() && p.service.Some?
    ensures route == PathRoute(ing, sec, ann, host, p, i)
  {
    var pathMatch := ANY_REQUEST.(path := ConvertPath(p.path, p.pathType));
    var handlers := BuildHandlers(Upstream(ing, p.service.value), ing, sec, ann);
    var matches := [];
    if |pathMatch.path| > 0 { matches := [pathMatch]; }
    route := CaddyRoute(RouteID(ing.namespace, ing.name, host, Some(i)), matches, handlers, false);
  }

  // ---------- ssl-redirect ----------

  const HTTPS_LOCATION := "https://{http.request.host}{http.request.uri}"

  function RedirectRoute(ing: Ingress, host: string): CaddyRoute {
    CaddyRoute(RouteID(ing.namespace, ing.name, host, None) + REDIRECT_SUFFIX,
               [ANY_REQUEST.(host := [host])], [StaticResponse(301, Some(HTTPS_LOCATION))], true)
  }

  /** The redirect routes of rules k.. */
  function RedirectRoutes(ing: Ingress, k: nat): seq<CaddyRoute>
    requires k <= |ing.rules|
    decreases |ing.rules| - k
  {
    if k == |ing.rules| then []
    else
      var rest := RedirectRoutes(ing, k + 1);
      if ing.rules[k].host == "" then rest else [RedirectRoute(ing, ing.rules[k].host)] + rest
  }

  method HttpRedirectRoutes(ing: Ingress) returns (routes: seq<CaddyRoute>)
    ensures routes == RedirectRoutes(ing, 0)
  {
    routes := [];
    for k := 0 to |ing.rules|
      invariant routes + RedirectRoutes(ing, k) == RedirectRoutes(ing, 0)
    {
      if ing.rules[k].host == "" { continue; }
      assert routes + RedirectRoutes(ing, k)
          == (routes + [RedirectRoute(ing, ing.rules[k].host)]) + RedirectRoutes(ing, k + 1);
      routes := routes + [RedirectRoute(ing, ing.rules[k].host)];
    }
  }
}
