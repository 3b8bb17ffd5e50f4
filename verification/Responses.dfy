/** What a request meets on its way through the compiled routes, in the Ingress's own terms: the
    address dialled, the gates passed, the headers sent upstream and back, and where redirects
    lead. No builder of the compiler appears in these statements. */
module Responses {
  import opened Strings
  import opened Routes
  import opened Serving
  import opened Meaning
  import opened Guarantees
  import opened EffectiveHeaders
  import Annotated

  /** The compiled routes forward the request. */
  predicate Forwards(w: World, ing: Ingress, sec: Security, ann: Annotations, req: Request)
    requires ann.Valid()
  {
    var o := RunRoutes(w, Compiled(ing, sec, ann), Start(req));
    o.Done? && o.response.Proxied?
  }

  /** The response to a request that is forwarded. */
  function Forwarded(w: World, ing: Ingress, sec: Security, ann: Annotations, req: Request): (r: Response)
    requires ann.Valid() && Forwards(w, ing, sec, ann, req)
    ensures r.Proxied?
  {
    RunRoutes(w, Compiled(ing, sec, ann), Start(req)).response
  }

  /** The service of the first path that selects the request in the first rule that applies. */
  function Selected(w: World, ing: Ingress, ann: Annotations, req: Request): Option<Service> {
    match FirstRule(w, ing, ann.serverAliases, 0, req)
    case None => None
    case Some(k) =>
      match FirstPath(w, ing.rules[k].http.value, 0, req)
      case None => None
      case Some(i) => ing.rules[k].http.value[i].service
  }

  lemma ForwardedIsDirect(w: World, ing: Ingress, sec: Security, ann: Annotations, req: Request)
    requires ann.Valid() && Forwards(w, ing, sec, ann, req)
    ensures var r, svc := Forwarded(w, ing, sec, ann, req), Selected(w, ing, ann, req);
            && svc.Some? && r.proxy == ProxyHandler(Upstream(ing, svc.value), sec, ann, ing.PlainHTTP())
            && r.state.passed == EarlyGates(ing, ann) + LateGates(sec, ann)
            && r.state.edits == CorsEdits(ann, req) + OtherEdits(sec, ann, ing.PlainHTTP(), Rewritten(ann, req))
            && r.state.req == Rewritten(ann, req)
  {
    CompilePreservesMeaning(w, ing, sec, ann, Start(req));
    var svc := Selected(w, ing, ann, req).value;
    assert Direct(w, ing, sec, ann, Start(req)) == DirectPath(w, svc, ing, sec, ann, Start(req));
    DirectProxyPassesGates(w, Upstream(ing, svc), ing, sec, ann, CorsEdits(ann, req), req);
    ProxiedEdits(w, Upstream(ing, svc), ing, sec, ann, CorsEdits(ann, req), req);
  }

  // ---------- the address ----------

  function LastPart(s: string, sep: char): string {
    var parts := Split(s, sep);
    parts[|parts| - 1]
  }

  lemma DigitsAreNot(n: nat, c: char)
    requires !IsDigit(c)
    ensures c !in Decimal(n)
  {
    DecimalRoundTrip(n);
  }

  lemma JoinFive(a: string, b: string, c: string, d: string, e: string, sep: char)
    ensures Join([a, b, c, d, e], sep) == a + [sep] + (b + [sep] + (c + [sep] + (d + [sep] + e)))
  {
    assert [a, b, c, d, e][1..] == [b, c, d, e];
    assert [b, c, d, e][1..] == [c, d, e];
    assert [c, d, e][1..] == [d, e];
    assert [d, e][1..] == [e];
    assert Join([d, e], sep) == d + [sep] + e;
    assert Join([c, d, e], sep) == c + [sep] + Join([d, e], sep);
    assert Join([b, c, d, e], sep) == b + [sep] + Join([c, d, e], sep);
  }

  const DOMAIN := ".svc.cluster.local:"

  lemma DomainParts()
    ensures DOMAIN == ['.'] + ("svc" + ['.'] + ("cluster" + ['.'] + "local:"))
    ensures DOMAIN == ".svc.cluster.local" + [':']
    ensures '.' !in "svc" && '.' !in "cluster" && '.' !in "local:"
  {}

  lemma Regroup(a: string, b: string, c: string, d: string, e: string, f: string, dot: string, domain: string)
    requires domain == dot + (c + dot + (d + dot + e))
    ensures a + dot + b + domain + f == a + dot + (b + dot + (c + dot + (d + dot + (e + f))))
  {}

  lemma AddressReadsBack(name: string, namespace: string, port: nat)
    ensures var address := name + "." + namespace + DOMAIN + Decimal(port);
            && ('.' !in name && '.' !in namespace ==>
                  Split(address, '.') == [name, namespace, "svc", "cluster", "local:" + Decimal(port)])
            && LastPart(address, ':') == Decimal(port)
  {
    var d := Decimal(port);
    var address, host := name + "." + namespace + DOMAIN + d, name + "." + namespace + ".svc.cluster.local";
    DigitsAreNot(port, '.');
    DigitsAreNot(port, ':');
    DomainParts();
    assert address == host + [':'] + d;
    SplitConcat(host, d, ':');
    SplitWhole(d, ':');
    if '.' !in name && '.' !in namespace {
      AddressParts(name, namespace, d);
    }
  }

  lemma AddressParts(name: string, namespace: string, port: string)
    requires '.' !in name && '.' !in namespace && '.' !in port
    ensures Split(name + "." + namespace + DOMAIN + port, '.')
         == [name, namespace, "svc", "cluster", "local:" + port]
  {
    DomainParts();
    var parts := [name, namespace, "svc", "cluster", "local:" + port];
    Regroup(name, namespace, "svc", "cluster", "local:", port, ['.'], DOMAIN);
    JoinFive(name, namespace, "svc", "cluster", "local:" + port, '.');
    SplitJoin(parts, '.');
  }

  /** A forwarded request goes to the cluster-local name of the selected service in the Ingress's own
      namespace, at the service's port. */
  lemma DialsTheSelectedService(w: World, ing: Ingress, sec: Security, ann: Annotations, req: Request)
    requires ann.Valid() && Forwards(w, ing, sec, ann, req)
    ensures var p, svc := Forwarded(w, ing, sec, ann, req).proxy, Selected(w, ing, ann, req);
            && svc.Some? && p.ReverseProxy?
            && ('.' !in svc.value.name && '.' !in ing.namespace ==>
                  Split(p.upstream, '.') == [svc.value.name, ing.namespace, "svc", "cluster",
                                             "local:" + LastPart(p.upstream, ':')])
            && (svc.value.port <= MAX_INT64 ==> ParseInt64(LastPart(p.upstream, ':')) == Some(svc.value.port))
  {
    ForwardedIsDirect(w, ing, sec, ann, req);
    var svc := Selected(w, ing, ann, req).value;
    AddressReadsBack(svc.name, ing.namespace, svc.port);
    Annotated.ParseDecimal(svc.port);
  }

  // ---------- the gates ----------

  const RULE_SETS := ["Include @coraza.conf-recommended", "Include @crs-setup.conf.example",
                      "Include @owasp_crs/*.conf"]

  /** The lines of a WAF configuration: the rule sets, some lines, and last the engine settings. */
  predicate WafLines(lines: seq<string>, between: seq<string>, blocking: bool) {
    lines == RULE_SETS + between + EngineSettings(blocking)
  }

  function EngineSettings(blocking: bool): seq<string> {
    [if blocking then "SecRuleEngine On" else "SecRuleEngine DetectionOnly",
     "SecRequestBodyAccess On", "SecResponseBodyAccess Off", "SecRequestBodyLimit 13107200"]
  }

  predicate NoNewlines(parts: seq<string>) { forall p :: p in parts ==> '\n' !in p }

  lemma {:induction false} JoinConcat(a: seq<string>, b: seq<string>, sep: char)
    requires a != [] && b != []
    ensures Join(a + b, sep) == Join(a, sep) + [sep] + Join(b, sep)
  {
    if |a| > 1 {
      assert (a + b)[1..] == a[1..] + b;
      JoinConcat(a[1..], b, sep);
    } else {
      assert (a + b)[1..] == b;
    }
  }

  lemma SplitJoinThree(a: seq<string>, between: seq<string>, c: seq<string>)
    requires a != [] && c != [] && NoNewlines(a) && NoNewlines(c)
    ensures Split(Join(a + between + c, '\n'), '\n')
         == a + (if between == [] then [] else Split(Join(between, '\n'), '\n')) + c
  {
    SplitJoin(a, '\n');
    SplitJoin(c, '\n');
    JoinConcat(a + between, c, '\n');
    SplitConcat(Join(a + between, '\n'), Join(c, '\n'), '\n');
    if between == [] {
      assert a + between == a;
    } else {
      JoinConcat(a, between, '\n');
      SplitConcat(Join(a, '\n'), Join(between, '\n'), '\n');
    }
  }

  lemma SettingsAreLines(blocking: bool)
    ensures NoNewlines(EngineSettings(blocking))
  {
    assert '\n' !in "SecRequestBodyAccess On" && '\n' !in "SecResponseBodyAccess Off";
    assert '\n' !in "SecRequestBodyLimit 13107200";
  }

  lemma RuleSetsAreLines()
    ensures NoNewlines(RULE_SETS)
  {}

  lemma EngineLine(mode: string)
    ensures "SecRuleEngine " + (if EqualFold(mode, "On") then "On" else "DetectionOnly")
         == if ToLower(mode) == "on" then "SecRuleEngine On" else "SecRuleEngine DetectionOnly"
  {
    assert ToLower("On") == "on";
    assert "SecRuleEngine " + "On" == "SecRuleEngine On";
    assert "SecRuleEngine " + "DetectionOnly" == "SecRuleEngine DetectionOnly";
  }

  /** The extra directives stay between the rule sets and the engine settings, whatever they say. */
  lemma WafReadsBack(mode: string, extra: seq<string>)
    ensures WafHandler(mode, extra).Waf?
    ensures WafLines(Split(WafHandler(mode, extra).directives, '\n'),
                     if extra == [] then [] else Split(Join(extra, '\n'), '\n'), ToLower(mode) == "on")
    ensures NoNewlines(extra) ==> IsWaf(WafHandler(mode, extra), extra, ToLower(mode) == "on")
  {
    var blocking := ToLower(mode) == "on";
    SettingsAreLines(blocking);
    RuleSetsAreLines();
    EngineLine(mode);
    assert WafHandler(mode, extra).directives == Join(RULE_SETS + extra + EngineSettings(blocking), '\n');
    SplitJoinThree(RULE_SETS, extra, EngineSettings(blocking));
    if extra != [] && NoNewlines(extra) { SplitJoin(extra, '\n'); }
  }

  /** A WAF gate that blocks, or only reports, with the lines between as given. */
  predicate IsWaf(h: Handler, between: seq<string>, blocking: bool) {
    h.Waf? && WafLines(Split(h.directives, '\n'), between, blocking)
  }

  /** Before the rewrite: the accounts of basic-auth, the body limit, and the rate limit in a zone
      named after the Ingress, and nothing else. */
  predicate EarlyAsAsked(passed: seq<Handler>, ing: Ingress, ann: Annotations) {
    && (forall h :: h in passed && h.Authentication? ==> ann.basicAuth == Some(h.auth))
    && (forall h :: h in passed && h.RequestBody? ==> h.maxSize == ann.proxy.maxBodySize > 0)
    && (forall h :: h in passed && h.RateLimit? ==>
          h.zone == "caddy-k8s-" + ing.namespace + "-" + ing.name && h.rps == ann.limitRPS > 0)
    && (ann.basicAuth.Some? ==> exists h :: h in passed && h.Authentication?)
    && (ann.proxy.maxBodySize > 0 ==> exists h :: h in passed && h.RequestBody?)
    && (ann.limitRPS > 0 ==> exists h :: h in passed && h.RateLimit?)
  }

  /** After it: the WAF, whose annotation decides over the global setting and which blocks exactly in
      mode "on", and the authorization policy, and nothing else. */
  predicate LateAsAsked(passed: seq<Handler>, sec: Security, ann: Annotations) {
    var enabled := match ann.wafOverride case Some(b) => b case None => sec.waf;
    var mode := if ann.wafOverride.Some? && ann.wafModeOverride != "" then ann.wafModeOverride else sec.wafMode;
    && (forall h :: h in passed && h.Waf? ==>
          enabled && (NoNewlines(ann.wafDirectives) ==> IsWaf(h, ann.wafDirectives, ToLower(mode) == "on")))
    && (forall h :: h in passed && h.Opaque? ==> ann.authPolicy == Some(h.json))
    && (enabled ==> exists h :: h in passed && h.Waf?)
    && (ann.authPolicy.Some? ==> exists h :: h in passed && h.Opaque?)
  }

  lemma EarlyGatesAsAsked(ing: Ingress, ann: Annotations)
    ensures EarlyAsAsked(EarlyGates(ing, ann), ing, ann)
    ensures forall h :: h in EarlyGates(ing, ann) ==> h.Authentication? || h.RequestBody? || h.RateLimit?
  {
    var auth := if ann.basicAuth.Some? then [Authentication(ann.basicAuth.value)] else [];
    var body := If(ann.proxy.maxBodySize > 0, RequestBody(ann.proxy.maxBodySize));
    var rate := If(ann.limitRPS > 0, RateLimitHandler(ing, ann.limitRPS));
    MembersOfThree(auth, body, rate);
    assert ann.basicAuth.Some? ==> auth[0] in auth;
    assert ann.proxy.maxBodySize > 0 ==> body[0] in body;
    assert ann.limitRPS > 0 ==> rate[0] in rate;
  }

  lemma MembersOfThree<T>(a: seq<T>, b: seq<T>, c: seq<T>)
    ensures forall x :: x in a + b + c <==> x in a || x in b || x in c
  {}

  lemma LateGatesAsAsked(sec: Security, ann: Annotations)
    ensures LateAsAsked(LateGates(sec, ann), sec, ann)
    ensures forall h :: h in LateGates(sec, ann) ==> h.Waf? || h.Opaque?
  {
    LateGatesComplete(sec, ann);
    WafReadsBack(WafMode(sec, ann), ann.wafDirectives);
  }

  lemma EarlyAndLate(early: seq<Handler>, late: seq<Handler>, ing: Ingress, sec: Security, ann: Annotations)
    requires EarlyAsAsked(early, ing, ann) && LateAsAsked(late, sec, ann)
    requires forall h :: h in early ==> h.Authentication? || h.RequestBody? || h.RateLimit?
    requires forall h :: h in late ==> h.Waf? || h.Opaque?
    ensures EarlyAsAsked(early + late, ing, ann) && LateAsAsked(early + late, sec, ann)
  {
    assert forall h :: h in early + late <==> h in early || h in late;
  }

  /** The gates a forwarded request has passed are those the annotations and settings ask for, with
      the parameters they give. */
  lemma PassesExactlyTheGatesAskedFor(w: World, ing: Ingress, sec: Security, ann: Annotations, req: Request)
    requires ann.Valid() && Forwards(w, ing, sec, ann, req)
    ensures EarlyAsAsked(Forwarded(w, ing, sec, ann, req).state.passed, ing, ann)
    ensures LateAsAsked(Forwarded(w, ing, sec, ann, req).state.passed, sec, ann)
  {
    ForwardedIsDirect(w, ing, sec, ann, req);
    EarlyGatesAsAsked(ing, ann);
    LateGatesAsAsked(sec, ann);
    EarlyAndLate(EarlyGates(ing, ann), LateGates(sec, ann), ing, sec, ann);
  }

  // ---------- what is sent upstream ----------

  /** The value the module itself gives a request header, by name. */
  function BuiltIn(injectRealIP: bool, proxy: Proxy, tls: bool, name: string): Option<string> {
    if name == "Host" && proxy.upstreamVhost != "" then Some(proxy.upstreamVhost)
    else if name == "X-Forwarded-Prefix" && proxy.xForwardedPrefix != "" then Some(proxy.xForwardedPrefix)
    else if !injectRealIP then None
    else if name == "X-Real-IP" || name == "X-Forwarded-For" then Some("{http.vars.client_ip}")
    else if name == "X-Forwarded-Host" then Some("{http.request.host}")
    else if name == "X-Forwarded-Proto" then Some(if tls then "https" else "http")
    else if name == "X-Forwarded-Port" then Some(if tls then "443" else "80")
    else None
  }

  /** A header of the request-headers annotation is sent as given, any other as the module sets it,
      and none else. */
  predicate SendsHeader(h: Headers, cfg: HeaderConfig, builtIn: Option<string>, name: string) {
    && (name in h <==> name in cfg.sets || builtIn.Some?)
    && (name in h ==> h[name] == [if name in cfg.sets then cfg.sets[name] else builtIn.value])
  }

  lemma HeadersByName(injectRealIP: bool, proxy: Proxy, plain: bool, cfg: HeaderConfig, name: string)
    ensures SendsHeader(RequestHeaders(injectRealIP, proxy, plain, cfg), cfg,
                        BuiltIn(injectRealIP, proxy, !plain, name), name)
  {
    HostAndPrefixAreOthers(plain);
  }

  lemma HostAndPrefixAreOthers(plain: bool)
    ensures "Host" !in RealIPHeaders(plain) && "X-Forwarded-Prefix" !in RealIPHeaders(plain)
    ensures "Host" != "X-Forwarded-Prefix"
  {
    assert |"Host"| == 4 && |"X-Forwarded-Prefix"| == 18;
    assert |"X-Real-IP"| == 9 && |"X-Forwarded-For"| == 15 && |"X-Forwarded-Proto"| == 17;
    assert |"X-Forwarded-Host"| == 16 && |"X-Forwarded-Port"| == 16;
  }

  /** The forwarded request itself: its path, its headers by name, the deletions, the transport options and
      the retries are the annotations'. */
  lemma SendsUpstream(w: World, ing: Ingress, sec: Security, ann: Annotations, req: Request, name: string)
    requires ann.Valid() && Forwards(w, ing, sec, ann, req)
    ensures var p, o := Forwarded(w, ing, sec, ann, req).proxy, ann.proxy;
            && p.ReverseProxy? && p.deletes == ann.requestHeaders.deletes
            && SendsHeader(p.sets, ann.requestHeaders, BuiltIn(sec.injectRealIP, o, ing.tls != [], name), name)
            && Forwarded(w, ing, sec, ann, req).state.req
               == req.(path := if ann.rewriteTarget != "" then ann.rewriteTarget else req.path)
            && p.retries == (if o.retries > 0 then o.retries else 0)
            && (p.transport.None? <==> !o.backendTLS && o.httpVersion == o.readTimeout == o.sendTimeout
                                       == o.connectTimeout == "")
            && (p.transport.Some? ==>
                  var t := p.transport.value;
                  && t.insecureTLS == (if o.backendTLS then Some(o.backendTLSInsecure) else None)
                  && t.version == o.httpVersion && t.readTimeout == o.readTimeout && t.sendTimeout == o.sendTimeout
                  && t.connectTimeout == o.connectTimeout)
  {
    ForwardedIsDirect(w, ing, sec, ann, req);
    HeadersByName(sec.injectRealIP, ann.proxy, ing.PlainHTTP(), ann.requestHeaders, name);
  }

  // ---------- what is sent back ----------

  /** The value the security headers give a response header. */
  function Secured(name: string): Option<string> {
    if name == "Strict-Transport-Security" then Some("max-age=31536000; includeSubDomains")
    else if name == "X-Content-Type-Options" then Some("nosniff")
    else if name == "X-Frame-Options" then Some("SAMEORIGIN")
    else if name == "Referrer-Policy" then Some("strict-origin-when-cross-origin")
    else None
  }

  /** What the security headers of an Ingress with spec.tls make of a response header. */
  function Hardened(on: bool, name: string, before: Option<seq<string>>): Option<seq<string>> {
    if !on then before
    else if name == "Server" then None
    else if Secured(name).Some? then Some([Secured(name).value])
    else before
  }

  /** What CORS adds to a response for an admitted request, by name: the origin is the configured
      one or, when there are several, the request's own. */
  function CorsValue(cors: Cors, dynamic: bool, req: Request, name: string): Option<string>
    requires !dynamic ==> |cors.origins| > 0
  {
    if name == "Access-Control-Allow-Origin" then
      Some(if !dynamic then ExpandValue(cors.origins[0], req) else if req.origin.Some? then req.origin.value else "")
    else if name == "Vary" then (if dynamic || cors.origins[0] != "*" then Some("Origin") else None)
    else if name == "Access-Control-Allow-Methods" then NonEmpty(cors.allowMethods, req)
    else if name == "Access-Control-Allow-Headers" then NonEmpty(cors.allowHeaders, req)
    else if name == "Access-Control-Expose-Headers" then NonEmpty(cors.exposeHeaders, req)
    else if name == "Access-Control-Allow-Credentials" then (if cors.allowCreds then Some("true") else None)
    else if name == "Access-Control-Max-Age" then (if cors.maxAge > 0 then Some(Decimal(cors.maxAge)) else None)
    else None
  }

  function NonEmpty(v: string, req: Request): Option<string> { if v != "" then Some(ExpandValue(v, req)) else None }

  function Single(v: Option<string>): Option<seq<string>> { if v.Some? then Some([v.value]) else None }

  lemma CorsNames()
    ensures VARY == "Vary" && ALLOW_METHODS == "Access-Control-Allow-Methods"
    ensures ALLOW_ORIGIN == "Access-Control-Allow-Origin" && ALLOW_HEADERS == "Access-Control-Allow-Headers"
    ensures EXPOSE_HEADERS == "Access-Control-Expose-Headers" && MAX_AGE == "Access-Control-Max-Age"
    ensures ALLOW_CREDENTIALS == "Access-Control-Allow-Credentials"
    ensures |VARY| == 4 && |ALLOW_METHODS| == 28 && ALLOW_METHODS[21] == 'M'
    ensures |ALLOW_ORIGIN| == 27 && |ALLOW_HEADERS| == 28 && ALLOW_HEADERS[21] == 'H'
    ensures |EXPOSE_HEADERS| == 29 && |MAX_AGE| == 22 && |ALLOW_CREDENTIALS| == 32
  {}

  /** The value under a name, before placeholders are expanded. */
  lemma CorsHeadersByName(cors: Cors, dynamic: bool, name: string)
    requires !dynamic ==> |cors.origins| > 0
    ensures var h := CorsHeaders(cors, dynamic);
            && (name in h <==> name == ALLOW_ORIGIN || (name == VARY && AllowOrigin(cors, dynamic) != "*")
                               || (name == ALLOW_METHODS && cors.allowMethods != "")
                               || (name == ALLOW_HEADERS && cors.allowHeaders != "")
                               || (name == EXPOSE_HEADERS && cors.exposeHeaders != "")
                               || (name == ALLOW_CREDENTIALS && cors.allowCreds)
                               || (name == MAX_AGE && cors.maxAge > 0))
            && (name in h ==>
                  h[name] == [if name == ALLOW_ORIGIN then AllowOrigin(cors, dynamic)
                              else if name == VARY then "Origin"
                              else if name == ALLOW_METHODS then cors.allowMethods
                              else if name == ALLOW_HEADERS then cors.allowHeaders
                              else if name == EXPOSE_HEADERS then cors.exposeHeaders
                              else if name == ALLOW_CREDENTIALS then "true"
                              else Decimal(cors.maxAge)])
  {
    CorsNames();
  }

  lemma NotThePlaceholder(n: nat)
    ensures "Origin" != ORIGIN_PLACEHOLDER && "true" != ORIGIN_PLACEHOLDER && Decimal(n) != ORIGIN_PLACEHOLDER
    ensures "*" != ORIGIN_PLACEHOLDER
  {
    DecimalRoundTrip(n);
    assert Decimal(n)[0] in Decimal(n);
    assert ORIGIN_PLACEHOLDER[0] == '{' && "Origin"[0] == 'O' && "true"[0] == 't' && "*"[0] == '*';
  }

  lemma CorsEditByName(cors: Cors, dynamic: bool, req: Request, name: string)
    requires !dynamic ==> |cors.origins| > 0
    ensures Effective([Edit(CorsResponseHandler(cors, dynamic), req)], name)
         == Single(CorsValue(cors, dynamic, req, name))
  {
    var h, e := CorsHeaders(cors, dynamic), Edit(CorsResponseHandler(cors, dynamic), req);
    CorsNames();
    CorsHeadersByName(cors, dynamic, name);
    NotThePlaceholder(cors.maxAge);
    assert [] + [e] == [e];
    EffectiveSnoc([], e, name);
    if name in h { assert ExpandAll(h[name], req) == [ExpandValue(h[name][0], req)]; }
  }

  /** The CORS header of a forwarded request's response: none for an origin off a list of several. */
  function CorsAnswer(ann: Annotations, req: Request, name: string): Option<seq<string>>
    requires ann.Valid()
  {
    match ann.cors
    case None => None
    case Some(cors) =>
      if |cors.origins| > 1 && !OriginAllowed(cors.origins, req) then None
      else Single(CorsValue(cors, |cors.origins| > 1, req, name))
  }

  /** Every header of the response to a forwarded request, by name: the response-headers annotation
      decides, then the security headers where the Ingress has spec.tls, then CORS. */
  lemma AnswersWithHeaders(w: World, ing: Ingress, sec: Security, ann: Annotations, req: Request, name: string)
    requires ann.Valid() && Forwards(w, ing, sec, ann, req)
    ensures Effective(Forwarded(w, ing, sec, ann, req).state.edits, name)
         == Overridden(ann.responseHeaders, name, Rewritten(ann, req),
                       Hardened(sec.securityHeaders && ing.tls != [], name, CorsAnswer(ann, req, name)))
  {
    ForwardedIsDirect(w, ing, sec, ann, req);
    CorsEditsByName(ann, req, name);
    OtherEditsByName(sec, ann, ing.PlainHTTP(), Rewritten(ann, req), CorsEdits(ann, req), name);
  }

  lemma CorsEditsByName(ann: Annotations, req: Request, name: string)
    requires ann.Valid()
    ensures Effective(CorsEdits(ann, req), name) == CorsAnswer(ann, req, name)
  {
    if ann.cors.Some? { CorsEditByName(ann.cors.value, |ann.cors.value.origins| > 1, req, name); }
  }

  lemma SecurityEditByName(req: Request, edits: seq<HeaderEdit>, name: string)
    ensures Effective(edits + [Edit(SECURITY_HEADERS, req)], name) == Hardened(true, name, Effective(edits, name))
  {
    var e := Edit(SECURITY_HEADERS, req);
    EffectiveSnoc(edits, e, name);
    SecurityHeadersByName(name);
    if name in e.sets { assert e.sets[name] == [ExpandValue(Secured(name).value, req)]; }
  }

  lemma SecurityHeadersByName(name: string)
    ensures name in SECURITY_HEADERS.deletes <==> name == "Server"
    ensures name in SECURITY_HEADERS.sets <==> Secured(name).Some?
    ensures Secured(name).Some? ==> SECURITY_HEADERS.sets[name] == [Secured(name).value]
                                    && Secured(name).value != ORIGIN_PLACEHOLDER && name != "Server"
  {
    assert ORIGIN_PLACEHOLDER[0] == '{' && |"Server"| == 6;
    assert |"Strict-Transport-Security"| == 25 && |"X-Content-Type-Options"| == 22;
    assert |"X-Frame-Options"| == 15 && |"Referrer-Policy"| == 15 && "X-Frame-Options"[0] != "Referrer-Policy"[0];
  }

  lemma OtherEditsByName(sec: Security, ann: Annotations, plain: bool, req: Request, edits: seq<HeaderEdit>,
                         name: string)
    ensures Effective(edits + OtherEdits(sec, ann, plain, req), name)
         == Overridden(ann.responseHeaders, name, req,
                       Hardened(sec.securityHeaders && !plain, name, Effective(edits, name)))
  {
    var first := if sec.securityHeaders && !plain then [Edit(SECURITY_HEADERS, req)] else [];
    var own := ResponseHeadersHandler(ann.responseHeaders);
    SecurityEditByName(req, edits, name);
    assert first == [] ==> edits + first == edits;
    if ann.responseHeaders.Empty() {
      assert edits + (first + []) == edits + first;
    } else {
      assert edits + (first + [Edit(own, req)]) == (edits + first) + [Edit(own, req)];
      EffectiveSnoc(edits + first, Edit(own, req), name);
      if name in own.sets {
        assert ExpandAll(own.sets[name], req) == [ExpandValue(ann.responseHeaders.sets[name], req)];
      }
    }
  }

  // ---------- answers without an upstream ----------

  /** A preflight request from an allowed origin and address is answered 204 with the CORS headers. */
  lemma AnswersPreflight(w: World, ing: Ingress, sec: Security, ann: Annotations, req: Request, name: string)
    requires ann.Valid() && ann.cors.Some? && req.methd == "OPTIONS" && IPAllowed(w, ann, req.clientIP)
    requires ann.cors.value.origins == ["*"] || OriginAllowed(ann.cors.value.origins, req)
    requires FirstRule(w, ing, ann.serverAliases, 0, req).Some?
    ensures var o, cors := RunRoutes(w, Compiled(ing, sec, ann), Start(req)), ann.cors.value;
            && o.Done? && o.response.Static? && o.response.status == 204 && o.response.location.None?
            && Effective(o.response.state.edits, name) == Single(CorsValue(cors, |cors.origins| > 1, req, name))
  {
    CompilePreservesMeaning(w, ing, sec, ann, Start(req));
    var dynamic := |ann.cors.value.origins| > 1;
    CorsEditByName(ann.cors.value, dynamic, req, name);
    var e := Edit(CorsResponseHandler(ann.cors.value, dynamic), req);
    assert [] + [e] == [e];
  }

  /** Where a redirecting Ingress sends a request for one of its paths: the temporary target before
      the permanent one, with the code given or else 302 or 301. */
  lemma AnswersRedirect(w: World, ing: Ingress, sec: Security, ann: Annotations, req: Request)
    requires ann.Valid() && (ann.temporalRedirect != "" || ann.permanentRedirect != "")
    requires IPAllowed(w, ann, req.clientIP) && !IsPreflight(ann, req) && Selected(w, ing, ann, req).Some?
    ensures var code := if ann.redirectCode > 0 then ann.redirectCode
                        else if ann.temporalRedirect != "" then 302 else 301;
            var url := if ann.temporalRedirect != "" then ann.temporalRedirect else ann.permanentRedirect;
            RunRoutes(w, Compiled(ing, sec, ann), Start(req)) == Done(Static(code, Some(url), Start(req)))
  {
    CompilePreservesMeaning(w, ing, sec, ann, Start(req));
  }
}
