/** Re-synchronising. A config reload makes the informer deliver every Ingress again, and the
    admin client's GET before each write is there so that nothing is written then. Whether that
    works is a property of the Ingress's rules. */
module Resync {
  import opened Strings
  import opened Routes
  import opened Meaning
  import opened LiveConfig
  import opened Admin
  import opened SyncSpec
  import opened Reconciler
  import opened Convergence
  import opened Guarantees
  import opened RouteIds

  // ---------- what a second sync would write ----------

  lemma UpToDateExactlyWhenCoherent(c: seq<Live>, server: string, rs: seq<CaddyRoute>)
    requires UniqueIds(c)
    ensures OutOfDateIn(UpsertAll(c, server, rs), rs) == iset{} <==> Coherent(rs)
  {
    var d := UpsertAll(c, server, rs);
    ResyncWritesNothingIffCoherent(c, server, rs);
    NoWritesIffUpToDate(d, server, rs);
    assert (forall r :: r in rs ==> UpToDate(d, r)) <==> OutOfDateIn(d, rs) == iset{} by {
      if r :| r in rs && !UpToDate(d, r) { assert r.id in OutOfDateIn(d, rs); }
    }
  }

  /** What a second sync would write of the compiled routes. */
  lemma ResyncRoutes(s: AppState, names: Names, e: Event)
    requires e.Add? && UniqueIds(s.live) && !Skips(names, e.plain)
    ensures OutOfDateIn(Apply(s, names, e).live, e.routes) == iset{} <==> Coherent(e.routes)
  {
    RedirectedProperties(s.live, names, e.redirects);
    var cleaned := Except(Redirected(s.live, names, e.redirects), Stale(Owned(s.routeIDs, e.key), e.routes));
    UniqueExcept(Redirected(s.live, names, e.redirects), Stale(Owned(s.routeIDs, e.key), e.routes));
    UpToDateExactlyWhenCoherent(cleaned, if e.plain then names.http else names.https, e.routes);
  }

  lemma ResyncStale(s: AppState, names: Names, e: Event)
    requires e.Add?
    ensures var t := Apply(s, names, e); LiveAmong(t.live, Stale(Owned(t.routeIDs, e.key), e.routes)) == iset{}
  {
    var t := Apply(s, names, e);
    var stale := Stale(Owned(t.routeIDs, e.key), e.routes);
    if Skips(names, e.plain) {
      forall id | id in stale ensures !HasId(t.live, id) {
        LookupExcept(Redirected(s.live, names, e.redirects), stale, id);
      }
    } else {
      forall id ensures id !in stale { IdIsListed(e.routes, id); }
    }
  }

  lemma CoherentMembers(rs: seq<CaddyRoute>)
    ensures Coherent(rs) <==> forall q, r :: q in rs && r in rs && q.id == r.id ==> q == r
  {
    if Coherent(rs) {
      forall q, r | q in rs && r in rs && q.id == r.id ensures q == r {
        var i :| 0 <= i < |rs| && rs[i] == q;
        var j :| 0 <= j < |rs| && rs[j] == r;
      }
    }
  }

  /** Two lists are coherent together when each is and routes sharing an id across them are equal. */
  lemma CoherentTogether(a: seq<CaddyRoute>, b: seq<CaddyRoute>)
    ensures Coherent(a + b) <==>
            Coherent(a) && Coherent(b) && forall q, r :: q in a && r in b && q.id == r.id ==> q == r
  {
    CoherentMembers(a);
    CoherentMembers(b);
    CoherentMembers(a + b);
    assert forall q :: q in a + b <==> q in a || q in b;
  }

  lemma ResyncRedirects(s: AppState, names: Names, e: Event)
    requires e.Add? && UniqueIds(s.live) && names.http != "" && Coherent(e.redirects + e.routes)
    requires IdSet(e.redirects) !! Stale(Owned(s.routeIDs, e.key), e.routes)
    ensures OutOfDateIn(Apply(s, names, e).live, e.redirects) == iset{}
  {
    var r, t := Redirected(s.live, names, e.redirects), Apply(s, names, e).live;
    var stale := Stale(Owned(s.routeIDs, e.key), e.routes);
    CoherentTogether(e.redirects, e.routes);
    RedirectedProperties(s.live, names, e.redirects);
    UpsertAllEstablishes(s.live, names.http, e.redirects);
    UniqueExcept(r, stale);
    UpsertAllProperties(Except(r, stale), Target(names, e), e.routes);
    UpsertAllEstablishes(Except(r, stale), Target(names, e), e.routes);
    forall q | q in e.redirects ensures UpToDate(t, q) {
      assert q.id in IdSet(e.redirects);
      if q.id in IdSet(e.routes) {
        assert q in e.routes;
      } else {
        SameOutside(t, Except(r, stale), IdSet(e.routes), q.id);
        LookupExcept(r, stale, q.id);
      }
    }
  }

  /** Redirects and routes that are all up to date after a sync share no id and were not stale. */
  lemma SettledMeansCoherent(s: AppState, names: Names, e: Event)
    requires e.Add? && UniqueIds(s.live) && names.http != ""
    requires OutOfDateIn(Apply(s, names, e).live, e.redirects) == iset{}
    requires OutOfDateIn(Apply(s, names, e).live, e.routes) == iset{}
    ensures Coherent(e.redirects + e.routes) && IdSet(e.redirects) !! Stale(Owned(s.routeIDs, e.key), e.routes)
  {
    var t := Apply(s, names, e).live;
    var stale := Stale(Owned(s.routeIDs, e.key), e.routes);
    forall q | q in e.redirects ensures UpToDate(t, q) { assert q.id !in OutOfDateIn(t, e.redirects); }
    forall q | q in e.routes ensures UpToDate(t, q) { assert q.id !in OutOfDateIn(t, e.routes); }
    CoherentMembers(e.redirects + e.routes);
    var r := Redirected(s.live, names, e.redirects);
    RedirectedProperties(s.live, names, e.redirects);
    UniqueExcept(r, stale);
    UpsertAllProperties(Except(r, stale), Target(names, e), e.routes);
    forall id | id in stale ensures id !in IdSet(e.redirects) {
      SameOutside(t, Except(r, stale), IdSet(e.routes), id);
      LookupExcept(r, stale, id);
      assert forall q :: q in e.redirects ==> q in e.redirects + e.routes;
    }
  }

  /** When a second sync of an event has nothing to write: placed routes that share an @id are
      equal, redirects included, and no placed redirect has an id the first sync deletes. */
  ghost predicate EventSettles(owned: map<string, seq<string>>, names: Names, e: Event)
    requires e.Add?
  {
    if names.http == "" then Skips(names, e.plain) || Coherent(e.routes)
    else Coherent(e.redirects + e.routes) && IdSet(e.redirects) !! Stale(Owned(owned, e.key), e.routes)
  }

  lemma ResyncTouchesNothingIffSettled(s: AppState, names: Names, e: Event)
    requires e.Add? && UniqueIds(s.live)
    ensures var t := Apply(s, names, e);
            Touched(t.live, t.routeIDs, names, e) == iset{} <==> EventSettles(s.routeIDs, names, e)
  {
    var t := Apply(s, names, e);
    ResyncStale(s, names, e);
    if !Skips(names, e.plain) { ResyncRoutes(s, names, e); }
    var a := if names.http != "" then OutOfDateIn(t.live, e.redirects) else iset{};
    var b := if Skips(names, e.plain) then iset{} else OutOfDateIn(t.live, e.routes);
    assert Touched(t.live, t.routeIDs, names, e) == a + iset{} + b;
    assert a <= a + iset{} + b && b <= a + iset{} + b;
    if names.http != "" {
      CoherentTogether(e.redirects, e.routes);
      if EventSettles(s.routeIDs, names, e) { ResyncRedirects(s, names, e); }
      if a == iset{} && b == iset{} { SettledMeansCoherent(s, names, e); }
    }
  }

  // ---------- as a test on the rules ----------

  /** Rules that get the same @id compile to the same route. */
  predicate SameIdSameRoute(ing: Ingress, sec: Security, ann: Annotations)
    requires ann.Valid()
  {
    forall j, k | 0 <= j < k < |ing.rules| && Servable(ing.rules[j]) && Servable(ing.rules[k]) ::
      HostLabel(ing.rules[j].host) == HostLabel(ing.rules[k].host) ==>
        RuleRoutes(ing, sec, ann, ing.rules[j]) == RuleRoutes(ing, sec, ann, ing.rules[k])
  }

  /** Hosts that get the same label are the same host. */
  predicate SameLabelSameHost(ing: Ingress) {
    forall j, k | 0 <= j < k < |ing.rules| && ing.rules[j].host != "" && ing.rules[k].host != "" ::
      HostLabel(ing.rules[j].host) == HostLabel(ing.rules[k].host) ==> ing.rules[j].host == ing.rules[k].host
  }

  /** No servable rule's host imitates the redirect id of a rule's host. */
  predicate NoHostImitatesRedirect(ing: Ingress) {
    forall j, k | 0 <= j < |ing.rules| && 0 <= k < |ing.rules| && ing.rules[j].host != "" && Servable(ing.rules[k]) ::
      HostLabel(ing.rules[k].host) != HostLabel(ing.rules[j].host) + REDIRECT_SUFFIX
  }

  lemma SameIdIffSameLabel(ns: string, name: string, h: string, g: string)
    ensures RouteID(ns, name, h, None) == RouteID(ns, name, g, None) <==> HostLabel(h) == HostLabel(g)
  {
    var base := ID_PREFIX + ns + "-" + name + "-";
    assert RouteID(ns, name, h, None)[|base|..] == HostLabel(h);
    assert RouteID(ns, name, g, None)[|base|..] == HostLabel(g);
  }

  /** Compiled routes are coherent exactly when rules with the same label compile alike. */
  lemma CompiledCoherentIff(ing: Ingress, sec: Security, ann: Annotations)
    requires ann.Valid()
    ensures Coherent(Compiled(ing, sec, ann)) <==> SameIdSameRoute(ing, sec, ann)
  {
    var rs := Compiled(ing, sec, ann);
    CoherentMembers(rs);
    if Coherent(rs) {
      forall j, k | 0 <= j < k < |ing.rules| && Servable(ing.rules[j]) && Servable(ing.rules[k])
        && HostLabel(ing.rules[j].host) == HostLabel(ing.rules[k].host)
        ensures RuleRoutes(ing, sec, ann, ing.rules[j]) == RuleRoutes(ing, sec, ann, ing.rules[k])
      {
        SameRouteWhenCoherent(ing, sec, ann, j, k);
      }
    }
    if SameIdSameRoute(ing, sec, ann) {
      forall q, r | q in rs && r in rs && q.id == r.id ensures q == r { SameIdCompilesAlike(ing, sec, ann, q, r); }
    }
  }

  lemma SameIdCompilesAlike(ing: Ingress, sec: Security, ann: Annotations, q: CaddyRoute, r: CaddyRoute)
    requires ann.Valid() && SameIdSameRoute(ing, sec, ann)
    requires q in Compiled(ing, sec, ann) && r in Compiled(ing, sec, ann) && q.id == r.id
    ensures q == r
  {
    var j := RouteComesFromRule(ing, sec, ann, 0, q);
    var k := RouteComesFromRule(ing, sec, ann, 0, r);
    ServableRuleHasOneRoute(ing, sec, ann, ing.rules[j]);
    ServableRuleHasOneRoute(ing, sec, ann, ing.rules[k]);
    SameIdIffSameLabel(ing.namespace, ing.name, ing.rules[j].host, ing.rules[k].host);
    assert [q][0] == [r][0];
  }

  lemma SameRouteWhenCoherent(ing: Ingress, sec: Security, ann: Annotations, j: nat, k: nat)
    requires ann.Valid() && Coherent(Compiled(ing, sec, ann))
    requires j < |ing.rules| && k < |ing.rules| && Servable(ing.rules[j]) && Servable(ing.rules[k])
    requires HostLabel(ing.rules[j].host) == HostLabel(ing.rules[k].host)
    ensures RuleRoutes(ing, sec, ann, ing.rules[j]) == RuleRoutes(ing, sec, ann, ing.rules[k])
  {
    CoherentMembers(Compiled(ing, sec, ann));
    var q, r := RuleRoutes(ing, sec, ann, ing.rules[j]), RuleRoutes(ing, sec, ann, ing.rules[k]);
    ServableRuleHasOneRoute(ing, sec, ann, ing.rules[j]);
    ServableRuleHasOneRoute(ing, sec, ann, ing.rules[k]);
    SameIdIffSameLabel(ing.namespace, ing.name, ing.rules[j].host, ing.rules[k].host);
    assert q == [q[0]] && r == [r[0]] && q[0] in q && r[0] in r;
    RuleRouteIsCompiled(ing, sec, ann, 0, j, q[0]);
    RuleRouteIsCompiled(ing, sec, ann, 0, k, r[0]);
  }

  lemma {:induction false} RuleRedirectIsListed(ing: Ingress, k: nat, j: nat, r: CaddyRoute)
    requires k <= j < |ing.rules| && ing.rules[j].host != "" && r == RedirectRoute(ing, ing.rules[j].host)
    ensures r in RedirectRoutes(ing, k)
    decreases |ing.rules| - k
  {
    var host, rest := ing.rules[k].host, RedirectRoutes(ing, k + 1);
    assert RedirectRoutes(ing, k) == if host == "" then rest else [RedirectRoute(ing, host)] + rest;
    if k < j { RuleRedirectIsListed(ing, k + 1, j, r); }
  }

  lemma SameRedirectIdIffSameLabel(ing: Ingress, h: string, g: string)
    ensures RedirectRoute(ing, h).id == RedirectRoute(ing, g).id <==> HostLabel(h) == HostLabel(g)
    ensures RedirectRoute(ing, h) == RedirectRoute(ing, g) <==> h == g
  {
    SameIdIffSameLabel(ing.namespace, ing.name, h, g);
    if RedirectRoute(ing, h).id == RedirectRoute(ing, g).id {
      SuffixCancels(RouteID(ing.namespace, ing.name, h, None), RouteID(ing.namespace, ing.name, g, None),
                    REDIRECT_SUFFIX);
    }
    if RedirectRoute(ing, h) == RedirectRoute(ing, g) {
      assert RedirectRoute(ing, h).matches[0].host[0] == RedirectRoute(ing, g).matches[0].host[0];
    }
  }

  /** Redirect routes are coherent exactly when hosts with the same label are the same. */
  lemma RedirectsCoherentIff(ing: Ingress)
    ensures Coherent(RedirectRoutes(ing, 0)) <==> SameLabelSameHost(ing)
  {
    var rs := RedirectRoutes(ing, 0);
    CoherentMembers(rs);
    if Coherent(rs) {
      forall j, k | 0 <= j < k < |ing.rules| && ing.rules[j].host != "" && ing.rules[k].host != ""
        && HostLabel(ing.rules[j].host) == HostLabel(ing.rules[k].host)
        ensures ing.rules[j].host == ing.rules[k].host
      {
        RuleRedirectIsListed(ing, 0, j, RedirectRoute(ing, ing.rules[j].host));
        RuleRedirectIsListed(ing, 0, k, RedirectRoute(ing, ing.rules[k].host));
        SameRedirectIdIffSameLabel(ing, ing.rules[j].host, ing.rules[k].host);
      }
    }
    if SameLabelSameHost(ing) {
      forall q, r | q in rs && r in rs && q.id == r.id ensures q == r {
        var j := RedirectComesFromRule(ing, 0, q);
        var k := RedirectComesFromRule(ing, 0, r);
        SameRedirectIdIffSameLabel(ing, ing.rules[j].host, ing.rules[k].host);
      }
    }
  }

  /** A redirect and a compiled route share an id when the rule's host imitates it, and are then
      never the same route. */
  lemma RedirectAgainstRoute(ing: Ingress, sec: Security, ann: Annotations, host: string, rule: Rule, r: CaddyRoute)
    requires ann.Valid() && host != "" && RuleRoutes(ing, sec, ann, rule) == [r]
    ensures RedirectRoute(ing, host).id == r.id <==> HostLabel(rule.host) == HostLabel(host) + REDIRECT_SUFFIX
    ensures RedirectRoute(ing, host).id == r.id ==> RedirectRoute(ing, host) != r
  {
    var base, q := ID_PREFIX + ing.namespace + "-" + ing.name + "-", RedirectRoute(ing, host);
    assert r.id == base + HostLabel(rule.host);
    assert q.id == base + (HostLabel(host) + REDIRECT_SUFFIX);
    assert r.id[|base|..] == HostLabel(rule.host) && q.id[|base|..] == HostLabel(host) + REDIRECT_SUFFIX;
    if q.id == r.id {
      ImitatorDiffers(host, rule.host);
      assert q.matches[0].host[0] == host && r.matches[0].host[0] == rule.host;
    }
  }

  lemma ImitatorDiffers(host: string, other: string)
    requires HostLabel(other) == HostLabel(host) + REDIRECT_SUFFIX
    ensures other != host && other != ""
  {
    StarFreeUnchanged("any");
    StarsEmpty(ReplaceDots(other));
    assert |HostLabel(other)| == |HostLabel(host)| + |REDIRECT_SUFFIX|;
  }

  lemma ClashIffImitated(ing: Ingress, sec: Security, ann: Annotations)
    requires ann.Valid()
    ensures (forall q, r :: q in RedirectRoutes(ing, 0) && r in Compiled(ing, sec, ann) && q.id == r.id ==> q == r)
            <==> NoHostImitatesRedirect(ing)
  {
    var qs, rs := RedirectRoutes(ing, 0), Compiled(ing, sec, ann);
    forall q, r | q in qs && r in rs ensures NoHostImitatesRedirect(ing) ==> q.id != r.id {
      var j := RedirectComesFromRule(ing, 0, q);
      var k := RouteComesFromRule(ing, sec, ann, 0, r);
      ServableRuleHasOneRoute(ing, sec, ann, ing.rules[k]);
      RedirectAgainstRoute(ing, sec, ann, ing.rules[j].host, ing.rules[k], r);
    }
    if !NoHostImitatesRedirect(ing) {
      var j, k :| 0 <= j < |ing.rules| && 0 <= k < |ing.rules| && ing.rules[j].host != "" && Servable(ing.rules[k])
                  && HostLabel(ing.rules[k].host) == HostLabel(ing.rules[j].host) + REDIRECT_SUFFIX;
      var r := ImitatingRoute(ing, sec, ann, j, k);
    }
  }

  lemma ImitatingRoute(ing: Ingress, sec: Security, ann: Annotations, j: nat, k: nat) returns (r: CaddyRoute)
    requires ann.Valid() && j < |ing.rules| && k < |ing.rules| && ing.rules[j].host != "" && Servable(ing.rules[k])
    requires HostLabel(ing.rules[k].host) == HostLabel(ing.rules[j].host) + REDIRECT_SUFFIX
    ensures r in Compiled(ing, sec, ann) && RedirectRoute(ing, ing.rules[j].host) in RedirectRoutes(ing, 0)
    ensures RedirectRoute(ing, ing.rules[j].host).id == r.id && RedirectRoute(ing, ing.rules[j].host) != r
  {
    ServableRuleHasOneRoute(ing, sec, ann, ing.rules[k]);
    r := RuleRoutes(ing, sec, ann, ing.rules[k])[0];
    assert RuleRoutes(ing, sec, ann, ing.rules[k]) == [r];
    RuleRouteIsCompiled(ing, sec, ann, 0, k, r);
    RuleRedirectIsListed(ing, 0, j, RedirectRoute(ing, ing.rules[j].host));
    RedirectAgainstRoute(ing, sec, ann, ing.rules[j].host, ing.rules[k], r);
  }

  /** Redirects and compiled routes are coherent together exactly when the rules pass all tests. */
  lemma PlacedCoherentIff(ing: Ingress, sec: Security, ann: Annotations)
    requires ann.Valid()
    ensures Coherent(RedirectRoutes(ing, 0) + Compiled(ing, sec, ann))
            <==> SameLabelSameHost(ing) && SameIdSameRoute(ing, sec, ann) && NoHostImitatesRedirect(ing)
  {
    CoherentTogether(RedirectRoutes(ing, 0), Compiled(ing, sec, ann));
    RedirectsCoherentIff(ing);
    CompiledCoherentIff(ing, sec, ann);
    ClashIffImitated(ing, sec, ann);
  }

  // ---------- the code ----------

  /** When the second of two syncs writes nothing: the Ingress is another class's, or the rules
      pass the tests for what is placed, and no placed redirect has an id that the first sync
      deletes as stale. */
  ghost predicate SettlesAtOnce(ing: Ingress, sec: Security, ann: Annotations, names: Names, ingressClass: string,
                                owned: map<string, seq<string>>)
    requires ann.Valid()
  {
    IsOurs(ing, ingressClass) ==>
      && (!Skips(names, ing.PlainHTTP()) ==> SameIdSameRoute(ing, sec, ann))
      && (ann.sslRedirect && names.http != "" ==>
            && SameLabelSameHost(ing) && NoHostImitatesRedirect(ing)
            && IdSet(RedirectRoutes(ing, 0)) !! Stale(Owned(owned, ing.Key()), Compiled(ing, sec, ann)))
  }

  lemma EventSettlesIffRulesDo(ing: Ingress, sec: Security, ann: Annotations, names: Names, ingressClass: string,
                               owned: map<string, seq<string>>)
    requires ann.Valid() && IsOurs(ing, ingressClass)
    ensures EventSettles(owned, names, AddEvent(ing, sec, ann, ingressClass))
            <==> SettlesAtOnce(ing, sec, ann, names, ingressClass, owned)
  {
    CompiledCoherentIff(ing, sec, ann);
    PlacedCoherentIff(ing, sec, ann);
    assert [] + Compiled(ing, sec, ann) == Compiled(ing, sec, ann);
  }

  /** The reload loop: of two fault-free syncs of one Ingress, whatever the first found, the second
      issues GETs only if and only if the tests pass; otherwise it DELETEs or POSTs again. */
  method SyncTwice(app: App, ing: Ingress, ann: Annotations) returns (ghost middle: nat)
    requires app.Valid() && ann.Valid() && app.FaultFree()
    modifies app, app.caddy, app.store
    ensures |old(app.caddy.trace)| <= middle <= |app.caddy.trace|
    ensures GetsOnly(app.caddy.trace, middle)
            <==> SettlesAtOnce(ing, app.security, ann, app.names, app.ingressClass, old(app.routeIDs))
  {
    ghost var s, e := app.State(), AddEvent(ing, app.security, ann, app.ingressClass);
    app.HandleAdd(ing, ann);
    middle := |app.caddy.trace|;
    if e.Add? {
      ResyncTouchesNothingIffSettled(s, app.names, e);
      EventSettlesIffRulesDo(ing, app.security, ann, app.names, app.ingressClass, s.routeIDs);
    }
    ghost var t, touched := app.State(), Touched(app.caddy.live, app.routeIDs, app.names, e);
    app.HandleAdd(ing, ann);
    if touched == iset{} { ConfinedToNothing(app.caddy.trace, middle, t.live, app.caddy.live, touched); }
  }

  /** An Ingress that already owns exactly its routes has no stale ids, so a redelivery settles by
      its rules alone. */
  lemma RedeliverySettlesByRules(ing: Ingress, sec: Security, ann: Annotations, names: Names, ingressClass: string,
                                 owned: map<string, seq<string>>)
    requires ann.Valid() && Owned(owned, ing.Key()) == Ids(Compiled(ing, sec, ann))
    ensures SettlesAtOnce(ing, sec, ann, names, ingressClass, owned) <==>
            (IsOurs(ing, ingressClass) ==>
               && (!Skips(names, ing.PlainHTTP()) ==> SameIdSameRoute(ing, sec, ann))
               && (ann.sslRedirect && names.http != "" ==> SameLabelSameHost(ing) && NoHostImitatesRedirect(ing)))
  {
    forall id ensures id !in Stale(Owned(owned, ing.Key()), Compiled(ing, sec, ann)) {
      IdIsListed(Compiled(ing, sec, ann), id);
    }
  }

  /** A second failing family: with ssl-redirect, a host next to the one that imitates its redirect. */
  lemma ImitatedRedirectNeverSettles(sec: Security, ann: Annotations, names: Names, host: string, p: HTTPPath,
                                     tls: seq<TLSEntry>, owned: map<string, seq<string>>)
    requires ann.Valid() && ann.sslRedirect && names.http != "" && p.service.Some?
    requires host != "" && '.' !in host && '*' !in host
    ensures var rules := [Rule(host, Some([p])), Rule(host + REDIRECT_SUFFIX, Some([p]))];
      !SettlesAtOnce(Ingress("ns", "app", Some("caddy"), "", rules, tls), sec, ann, names, "caddy", owned)
  {
    var rules := [Rule(host, Some([p])), Rule(host + REDIRECT_SUFFIX, Some([p]))];
    assert p in rules[1].http.value && Servable(rules[1]);
    MarkFreeLabel(host);
    MarkFreeLabel(host + REDIRECT_SUFFIX);
    ImitatedPair(Ingress("ns", "app", Some("caddy"), "", rules, tls), 0, 1);
  }

  lemma ImitatedPair(ing: Ingress, j: nat, k: nat)
    requires j < |ing.rules| && k < |ing.rules| && ing.rules[j].host != "" && Servable(ing.rules[k])
    requires HostLabel(ing.rules[k].host) == HostLabel(ing.rules[j].host) + REDIRECT_SUFFIX
    ensures !NoHostImitatesRedirect(ing)
  {}

  lemma {:induction false} MarkFreeUnchanged(s: string)
    requires '.' !in s && '*' !in s
    ensures ReplaceDots(s) == s && ReplaceStars(s) == s
  {
    if s != "" {
      MarkFreeUnchanged(s[1..]);
      assert s[0] in s && s == [s[0]] + s[1..];
    }
  }

  lemma MarkFreeLabel(s: string)
    requires s != "" && '.' !in s && '*' !in s
    ensures HostLabel(s) == s
  {
    MarkFreeUnchanged(s);
  }

  /** The failing family is not empty: two rules for one host with a path each fail the test
      under all settings and annotations, so such an Ingress is rewritten at every delivery. */
  lemma TwoRulesForOneHostNeverSettle(sec: Security, ann: Annotations, names: Names, svc: Service, tls: seq<TLSEntry>,
                                      owned: map<string, seq<string>>)
    requires ann.Valid() && names.http != ""
    ensures var rules := [Rule("h", Some([HTTPPath("/a", None, Some(svc))])),
                          Rule("h", Some([HTTPPath("/b", None, Some(svc))]))];
      !SettlesAtOnce(Ingress("ns", "app", Some("caddy"), "", rules, tls), sec, ann, names, "caddy", owned)
  {
    var a, b := HTTPPath("/a", None, Some(svc)), HTTPPath("/b", None, Some(svc));
    var rules := [Rule("h", Some([a])), Rule("h", Some([b]))];
    var ing := Ingress("ns", "app", Some("caddy"), "", rules, tls);
    assert Servable(rules[0]) && Servable(rules[1]) by { assert a in rules[0].http.value && b in rules[1].http.value; }
    assert "/a"[1] != "/b"[1];
    OneLetterPathsCompileApart(ing, sec, ann, a, b);
  }

  lemma OneLetterPathsCompileApart(ing: Ingress, sec: Security, ann: Annotations, a: HTTPPath, b: HTTPPath)
    requires ann.Valid() && a.service.Some? && b.service.Some? && a.pathType == b.pathType == None
    requires |a.path| == |b.path| == 2 && a.path[0] == b.path[0] == '/' && a.path[1] != b.path[1]
    requires a.path[1] != '/' && b.path[1] != '/'
    ensures RuleRoutes(ing, sec, ann, Rule("h", Some([a]))) != RuleRoutes(ing, sec, ann, Rule("h", Some([b])))
  {
    var ra, rb := PathRoute(ing, sec, ann, "h", a, 0), PathRoute(ing, sec, ann, "h", b, 0);
    OnePathRoute(ing, sec, ann, "h", a);
    OnePathRoute(ing, sec, ann, "h", b);
    OneLetterPath(a.path);
    OneLetterPath(b.path);
    assert ra.matches[0].path[0] == a.path && rb.matches[0].path[0] == b.path;
    LastDiffers(IPGuards(ann), Preflights(ann), ra, rb);
    NestedHandle(IPGuards(ann), Preflights(ann), ra);
    NestedHandle(IPGuards(ann), Preflights(ann), rb);
    var qa, qb := RuleRoutes(ing, sec, ann, Rule("h", Some([a])))[0],
        RuleRoutes(ing, sec, ann, Rule("h", Some([b])))[0];
    assert qa.handle[0].routes != qb.handle[0].routes;
  }

  lemma NestedHandle(guards: seq<CaddyRoute>, preflights: seq<CaddyRoute>, r: CaddyRoute)
    requires r.matches != []
    ensures HostHandle(guards, guards + (preflights + [r])) == [Subroute(guards + (preflights + [r]))]
  {
    assert (guards + (preflights + [r]))[|guards| + |preflights|] == r;
  }

  lemma OnePathRoute(ing: Ingress, sec: Security, ann: Annotations, host: string, p: HTTPPath)
    requires ann.Valid() && p.service.Some?
    ensures PathRoutes(ing, sec, ann, host, [p], 0) == [PathRoute(ing, sec, ann, host, p, 0)]
  {
    assert PathRoutes(ing, sec, ann, host, [p], 1) == [];
  }

  lemma OneLetterPath(path: string)
    requires |path| == 2 && path[0] == '/' && path[1] != '/'
    ensures ConvertPath(path, None) == [path, path + "/*"]
  {
    assert path[1..] != "/" by { assert path[1..][0] == path[1]; }
  }

  lemma LastDiffers<T>(a: seq<T>, b: seq<T>, x: T, y: T)
    requires x != y
    ensures a + (b + [x]) != a + (b + [y])
  {
    assert (a + (b + [x]))[|a| + |b|] == x && (a + (b + [y]))[|a| + |b|] == y;
  }
}
