/** The CORS headers a client sees. The CORS handler is not the last to edit the response: the
    response-headers annotation comes after it and may set or delete the same names. */
module EffectiveHeaders {
  import opened Strings
  import opened Routes
  import opened Serving
  import opened Meaning
  import opened Guarantees
  import opened Annotated

  lemma EffectiveSnoc(edits: seq<HeaderEdit>, e: HeaderEdit, name: string)
    ensures Effective(edits + [e], name)
         == if name in e.deletes then None else if name in e.sets then Some(e.sets[name]) else Effective(edits, name)
  {
    assert (edits + [e])[..|edits|] == edits;
  }

  /** What the response-headers annotation makes of a header. */
  function Overridden(cfg: HeaderConfig, name: string, req: Request, before: Option<seq<string>>): Option<seq<string>> {
    if name in cfg.deletes then None
    else if name in cfg.sets then Some([ExpandValue(cfg.sets[name], req)])
    else before
  }

  predicate LeavesAlone(cfg: HeaderConfig, name: string) { name !in cfg.deletes && name !in cfg.sets }

  /** The two headers that decide what a browser lets a foreign origin read. */
  predicate OriginHeader(name: string) { name == ALLOW_ORIGIN || name == ALLOW_CREDENTIALS }

  lemma SecurityHeadersLeaveCorsAlone(name: string)
    requires OriginHeader(name)
    ensures name !in SECURITY_HEADERS.sets && name !in SECURITY_HEADERS.deletes
  {
    assert name[0] == 'A';
    assert "Strict-Transport-Security"[0] == 'S' && "X-Content-Type-Options"[0] == 'X';
    assert "X-Frame-Options"[0] == 'X' && "Referrer-Policy"[0] == 'R' && "Server"[0] == 'S';
  }

  lemma OtherEditsOverride(sec: Security, ann: Annotations, plain: bool, req: Request, edits: seq<HeaderEdit>,
                           name: string)
    requires OriginHeader(name)
    ensures Effective(edits + OtherEdits(sec, ann, plain, req), name)
         == Overridden(ann.responseHeaders, name, req, Effective(edits, name))
  {
    SecurityHeadersLeaveCorsAlone(name);
    var first := if sec.securityHeaders && !plain then [Edit(SECURITY_HEADERS, req)] else [];
    var own := ResponseHeadersHandler(ann.responseHeaders);
    EffectiveSnoc(edits, Edit(SECURITY_HEADERS, req), name);
    assert Effective(edits + first, name) == Effective(edits, name) by { assert edits + [] == edits; }
    if ann.responseHeaders.Empty() {
      assert edits + (first + []) == edits + first;
    } else {
      assert edits + (first + [Edit(own, req)]) == (edits + first) + [Edit(own, req)];
      EffectiveSnoc(edits + first, Edit(own, req), name);
      if name in own.sets {
        assert ExpandAll(own.sets[name], req) == [ExpandValue(ann.responseHeaders.sets[name], req)];
      }
    }
  }

  /** On every upstream response the header is the CORS handler's, as the annotation overrides it. */
  lemma ProxiedHeader(w: World, ing: Ingress, sec: Security, ann: Annotations, req: Request, name: string)
    requires ann.Valid() && OriginHeader(name)
    ensures var o := RunRoutes(w, Compiled(ing, sec, ann), Start(req));
      o.Done? && o.response.Proxied? ==>
        Effective(o.response.state.edits, name)
        == Overridden(ann.responseHeaders, name, Rewritten(ann, req), Effective(CorsEdits(ann, req), name))
  {
    CompilePreservesMeaning(w, ing, sec, ann, Start(req));
    var o := Direct(w, ing, sec, ann, Start(req));
    if o.Done? && o.response.Proxied? {
      var rule := ing.rules[FirstRule(w, ing, ann.serverAliases, 0, req).value];
      var path := rule.http.value[FirstPath(w, rule.http.value, 0, req).value];
      assert o == DirectProxy(w, Upstream(ing, path.service.value), ing, sec, ann, CorsEdits(ann, req), Start(req));
      ProxiedEdits(w, Upstream(ing, path.service.value), ing, sec, ann, CorsEdits(ann, req), req);
      OtherEditsOverride(sec, ann, ing.PlainHTTP(), Rewritten(ann, req), CorsEdits(ann, req), name);
    }
  }

  lemma ProxiedEdits(w: World, upstream: string, ing: Ingress, sec: Security, ann: Annotations,
                     corsEdits: seq<HeaderEdit>, req: Request)
    ensures var o := DirectProxy(w, upstream, ing, sec, ann, corsEdits, Start(req));
      o.Done? && o.response.Proxied? ==>
        o.response.state.edits == corsEdits + OtherEdits(sec, ann, ing.PlainHTTP(), Rewritten(ann, req))
  {
    assert [] + corsEdits == corsEdits;
  }

  lemma CorsEditHeaders(cors: Cors, dynamic: bool, req: Request)
    requires !dynamic ==> |cors.origins| > 0
    ensures var e := Edit(CorsResponseHandler(cors, dynamic), req);
      && Effective([e], ALLOW_ORIGIN) == Some([ExpandValue(AllowOrigin(cors, dynamic), req)])
      && Effective([e], ALLOW_CREDENTIALS) == if cors.allowCreds then Some(["true"]) else None
  {
    CorsHeadersKeepAllowOrigin(cors, dynamic);
    var h, e := CorsHeaders(cors, dynamic), Edit(CorsResponseHandler(cors, dynamic), req);
    CredentialsValue(cors, dynamic);
    assert [] + [e] == [e];
    EffectiveSnoc([], e, ALLOW_ORIGIN);
    EffectiveSnoc([], e, ALLOW_CREDENTIALS);
    assert ExpandAll(h[ALLOW_ORIGIN], req) == [ExpandValue(AllowOrigin(cors, dynamic), req)];
    if cors.allowCreds {
      assert "true"[0] != ORIGIN_PLACEHOLDER[0];
      assert ExpandAll(h[ALLOW_CREDENTIALS], req) == ["true"];
    }
  }

  lemma CredentialsValue(cors: Cors, dynamic: bool)
    requires !dynamic ==> |cors.origins| > 0
    ensures cors.allowCreds ==>
              && ALLOW_CREDENTIALS in CorsHeaders(cors, dynamic)
              && CorsHeaders(cors, dynamic)[ALLOW_CREDENTIALS] == ["true"]
  {
    CorsHeadersKeepAllowOrigin(cors, dynamic);
    KeysDiffer();
  }

  /** With several specific origins, an upstream response carries the request's own listed origin
      if and only if the annotation neither deletes Allow-Origin nor sets it to something else;
      and it carries none for other origins if and only if the annotation does not set it. */
  lemma EchoReachesClientIff(w: World, ing: Ingress, sec: Security, ann: Annotations, req: Request)
    requires ann.Valid() && SpecificOrigins(ann)
    ensures var o := RunRoutes(w, Compiled(ing, sec, ann), Start(req));
      var cfg := ann.responseHeaders;
      var overridden := ALLOW_ORIGIN in cfg.sets && ALLOW_ORIGIN !in cfg.deletes;
      o.Done? && o.response.Proxied? ==>
        if req.origin.Some? && req.origin.value in ann.cors.value.origins then
          (Effective(o.response.state.edits, ALLOW_ORIGIN) == Some([req.origin.value])
           <==> ALLOW_ORIGIN !in cfg.deletes && (overridden ==>
                                                 ExpandValue(cfg.sets[ALLOW_ORIGIN], Rewritten(ann, req))
                                                     == req.origin.value))
        else (Effective(o.response.state.edits, ALLOW_ORIGIN) == None <==> !overridden)
  {
    ProxiedHeader(w, ing, sec, ann, req, ALLOW_ORIGIN);
    AllowedIffListed(ann, req);
    CorsEditHeaders(ann.cors.value, true, req);
  }

  lemma CredentialsAreNotForStar(a: map<string, string>)
    ensures ResolvedCors(a).Some? ==> !(ResolvedCors(a).value.allowCreds && ResolvedCors(a).value.IsWildcard())
  {
    if ResolvedCors(a).Some? && ResolvedCors(a).value.IsWildcard() {
      assert ResolvedCors(a).value.origins == ["*"];
    }
  }

  /** A request whose Origin is "*" is echoed: by a list of several that admits it, or by a single
      origin that is the placeholder itself. */
  predicate EchoesStar(cors: Cors, req: Request) {
    req.origin == Some("*") && if |cors.origins| > 1 then OriginAllowed(cors.origins, req)
        else cors.origins == [ORIGIN_PLACEHOLDER]
  }

  lemma StarWithCredentialsFromCors(ann: Annotations, req: Request)
    requires ann.Valid() && ann.cors.Some? && !(ann.cors.value.allowCreds && ann.cors.value.IsWildcard())
    ensures Effective(CorsEdits(ann, req), ALLOW_ORIGIN) == Some(["*"]) &&
            Effective(CorsEdits(ann, req), ALLOW_CREDENTIALS).Some?
            <==> ann.cors.value.allowCreds && EchoesStar(ann.cors.value, req)
  {
    var cors := ann.cors.value;
    CorsEditHeaders(cors, |cors.origins| > 1, req);
    assert ORIGIN_PLACEHOLDER[0] == '{' && ORIGIN_PLACEHOLDER != "*";
  }

  /** Credentials next to a literal "*" reach a client, when the annotation leaves both headers
      alone, exactly when the request's own Origin is "*" and gets echoed. */
  lemma StarWithCredentialsIff(w: World, ing: Ingress, sec: Security, ann: Annotations, a: map<string, string>,
                               req: Request)
    requires ann.Valid() && ann.cors.Some? && ann.cors == ResolvedCors(a)
    requires LeavesAlone(ann.responseHeaders, ALLOW_ORIGIN) && LeavesAlone(ann.responseHeaders, ALLOW_CREDENTIALS)
    ensures var o := RunRoutes(w, Compiled(ing, sec, ann), Start(req));
      o.Done? && o.response.Proxied? ==>
        var edits := o.response.state.edits;
        Effective(edits, ALLOW_ORIGIN) == Some(["*"]) && Effective(edits, ALLOW_CREDENTIALS).Some?
        <==> ann.cors.value.allowCreds && EchoesStar(ann.cors.value, req)
  {
    ProxiedHeader(w, ing, sec, ann, req, ALLOW_ORIGIN);
    ProxiedHeader(w, ing, sec, ann, req, ALLOW_CREDENTIALS);
    CredentialsAreNotForStar(a);
    StarWithCredentialsFromCors(ann, req);
  }

  /** "*" among several origins admits every origin, and with credentials: the check against "*"
      only looks for the list that holds nothing else. */
  lemma StarAmongSeveralTrustsEveryOrigin(ann: Annotations, req: Request)
    requires ann.Valid() && ann.cors.Some? && |ann.cors.value.origins| > 1 && "*" in ann.cors.value.origins
    requires req.origin.Some?
    ensures OriginAllowed(ann.cors.value.origins, req)
    ensures Effective(CorsEdits(ann, req), ALLOW_ORIGIN) == Some([req.origin.value])
    ensures Effective(CorsEdits(ann, req), ALLOW_CREDENTIALS) == if ann.cors.value.allowCreds then Some(["true"])
              else None
  {
    assert HeaderValueMatches("*", req.origin.value);
    CorsEditHeaders(ann.cors.value, true, req);
  }

  // ---------- when every origin is trusted ----------

  /** The response echoes the request's origin and allows credentials. */
  predicate Trusted(edits: seq<HeaderEdit>, req: Request) {
    && req.origin.Some?
    && Effective(edits, ALLOW_ORIGIN) == Some([req.origin.value])
    && Effective(edits, ALLOW_CREDENTIALS) == Some(["true"])
  }

  lemma TrustedIff(ann: Annotations, req: Request)
    requires ann.Valid() && ann.cors.Some? && req.origin.Some?
    ensures var cors := ann.cors.value;
      Trusted(CorsEdits(ann, req), req)
      <==> cors.allowCreds && if |cors.origins| > 1 then OriginAllowed(cors.origins, req)
                              else ExpandValue(cors.origins[0], req) == req.origin.value
  {
    CorsEditHeaders(ann.cors.value, |ann.cors.value.origins| > 1, req);
  }

  predicate NoneEmpty(os: seq<string>) { forall o :: o in os ==> o != "" }

  lemma {:induction false} PartsAreNotEmpty(parts: seq<string>)
    ensures NoneEmpty(NonEmptyTrimmed(parts))
  {
    if parts != [] { PartsAreNotEmpty(parts[1..]); }
  }

  lemma OriginsAreNotEmpty(v: string)
    ensures NoneEmpty(Origins(v))
  {
    PartsAreNotEmpty(Split(v, ','));
  }

  const EMPTY_ORIGIN := Request("", "", "", "", Some(""))

  /** An empty Origin header is admitted by the two patterns that are only stars. */
  lemma EmptyOriginMatches(allowed: string)
    requires allowed != ""
    ensures HeaderValueMatches(allowed, "") <==> allowed == "*" || allowed == "**"
  {
    if |allowed| >= 2 && allowed[0] == '*' && allowed[|allowed| - 1] == '*' {
      var inner := allowed[1..|allowed| - 1];
      assert allowed == ['*'] + inner + ['*'];
      if inner == "" { assert inner <= ""[0..]; }
    }
  }

  lemma AdmitsEveryoneIff(origins: seq<string>)
    requires NoneEmpty(origins)
    ensures (forall req: Request :: req.origin.Some? ==> OriginAllowed(origins, req)) <==>
              "*" in origins || "**" in origins
  {
    if "*" in origins || "**" in origins {
      forall req: Request | req.origin.Some? ensures OriginAllowed(origins, req) {
        StarsMatchAll(req.origin.value);
      }
    }
    if OriginAllowed(origins, EMPTY_ORIGIN) {
      var o :| o in origins && HeaderValueMatches(o, "");
      EmptyOriginMatches(o);
    }
  }

  lemma StarsMatchAll(value: string)
    ensures HeaderValueMatches("*", value) && HeaderValueMatches("**", value)
  {
    assert "**"[1..|"**"| - 1] == "" && "" <= value[0..];
  }

  /** Credentials are asked for, and a list of several holds "*" or "**", or the one origin is the
      placeholder that stands for whatever the request says. */
  predicate TrustsEveryone(a: map<string, string>) {
    var origins := Origins(Value(a, CORS_ORIGIN));
    && EqualFold(Value(a, CORS_CREDENTIALS), "true")
    && if |origins| > 1 then "*" in origins || "**" in origins else origins == [ORIGIN_PLACEHOLDER]
  }

  lemma AllowedCredentials(a: map<string, string>)
    requires ResolvedCors(a).Some?
    ensures ResolvedCors(a).value.origins == Origins(Value(a, CORS_ORIGIN))
    ensures TrustsEveryone(a) ==> ResolvedCors(a).value.allowCreds
    ensures ResolvedCors(a).value.allowCreds ==> EqualFold(Value(a, CORS_CREDENTIALS), "true")
  {
    assert ORIGIN_PLACEHOLDER[0] == '{' && "*"[0] == '*';
  }

  lemma TrustedByAll(ann: Annotations, a: map<string, string>, req: Request)
    requires ann.Valid() && ann.cors.Some? && ann.cors == ResolvedCors(a) && req.origin.Some? && TrustsEveryone(a)
    ensures Trusted(CorsEdits(ann, req), req)
  {
    AllowedCredentials(a);
    OriginsAreNotEmpty(Value(a, CORS_ORIGIN));
    AdmitsEveryoneIff(ann.cors.value.origins);
    TrustedIff(ann, req);
  }

  lemma EmptyOriginTellsAll(ann: Annotations, a: map<string, string>, req: Request)
    requires ann.Valid() && ann.cors.Some? && ann.cors == ResolvedCors(a) && req.origin == Some("")
    ensures Trusted(CorsEdits(ann, req), req) <==> TrustsEveryone(a)
  {
    var origins := ann.cors.value.origins;
    AllowedCredentials(a);
    OriginsAreNotEmpty(Value(a, CORS_ORIGIN));
    TrustedIff(ann, req);
    forall o | o in origins ensures HeaderValueMatches(o, "") <==> o == "*" || o == "**" { EmptyOriginMatches(o); }
    if |origins| == 1 { assert origins[0] in origins && origins == [origins[0]]; }
  }

  /** Over all annotation inputs: every origin is echoed with credentials if and only if the
      annotations ask for credentials and name "*" or "**" among several origins, or nothing but
      the Origin placeholder. The check against "*" sees none of these. */
  lemma EveryOriginIsTrustedIff(ann: Annotations, a: map<string, string>)
    requires ann.Valid() && ann.cors.Some? && ann.cors == ResolvedCors(a)
    ensures (forall req: Request :: req.origin.Some? ==> Trusted(CorsEdits(ann, req), req)) <==> TrustsEveryone(a)
  {
    EmptyOriginTellsAll(ann, a, EMPTY_ORIGIN);
    if TrustsEveryone(a) {
      forall req: Request | req.origin.Some? ensures Trusted(CorsEdits(ann, req), req) { TrustedByAll(ann, a, req); }
    }
  }

  /** What the compiled routes answer, when they dial an upstream for the request. */
  function Dialled(w: World, ing: Ingress, sec: Security, ann: Annotations, req: Request): Option<seq<HeaderEdit>>
    requires ann.Valid()
  {
    var o := RunRoutes(w, Compiled(ing, sec, ann), Start(req));
    if o.Done? && o.response.Proxied? then Some(o.response.state.edits) else None
  }

  lemma ClientTrustedIff(w: World, ing: Ingress, sec: Security, ann: Annotations, req: Request)
    requires ann.Valid() && Dialled(w, ing, sec, ann, req).Some?
    requires LeavesAlone(ann.responseHeaders, ALLOW_ORIGIN) && LeavesAlone(ann.responseHeaders, ALLOW_CREDENTIALS)
    ensures Trusted(Dialled(w, ing, sec, ann, req).value, req) <==> Trusted(CorsEdits(ann, req), req)
  {
    ProxiedHeader(w, ing, sec, ann, req, ALLOW_ORIGIN);
    ProxiedHeader(w, ing, sec, ann, req, ALLOW_CREDENTIALS);
  }

  /** The same as clients see it, for an Ingress that serves some request with an empty Origin and
      whose response-headers annotation leaves the two headers alone. */
  lemma EveryClientIsTrustedIff(w: World, ing: Ingress, sec: Security, ann: Annotations, a: map<string, string>,
                                served: Request)
    requires ann.Valid() && ann.cors.Some? && ann.cors == ResolvedCors(a)
    requires LeavesAlone(ann.responseHeaders, ALLOW_ORIGIN) && LeavesAlone(ann.responseHeaders, ALLOW_CREDENTIALS)
    requires served.origin == Some("") && Dialled(w, ing, sec, ann, served).Some?
    ensures (forall req: Request :: req.origin.Some? && Dialled(w, ing, sec, ann, req).Some? ==>
               Trusted(Dialled(w, ing, sec, ann, req).value, req)) <==> TrustsEveryone(a)
  {
    EmptyOriginTellsAll(ann, a, served);
    ClientTrustedIff(w, ing, sec, ann, served);
    if TrustsEveryone(a) {
      forall req: Request | req.origin.Some? && Dialled(w, ing, sec, ann, req).Some?
        ensures Trusted(Dialled(w, ing, sec, ann, req).value, req)
      {
        TrustedByAll(ann, a, req);
        ClientTrustedIff(w, ing, sec, ann, req);
      }
    }
  }
}
