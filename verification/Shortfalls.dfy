/** Inputs at which promises of the documentation fail, each beside its exact condition elsewhere. */
module Shortfalls {
  import opened Strings
  import opened Routes
  import opened Serving
  import opened Meaning
  import opened Guarantees
  import opened LiveConfig
  import opened SyncSpec
  import opened Convergence
  import opened RouteIds
  import opened Driving
  import opened EndToEnd
  import opened Resync
  import opened Placement

  // ---------- deleted while Caddy was down ----------

  /** What one add leaves survives every later run that is not about its key. */
  lemma LeftByOneAdd(tag: string -> Tag, names: Names, e: Event, evs: seq<Event>, r: CaddyRoute)
    requires e.Add? && GoodEvent(tag, names, e) && (forall d :: d in evs ==> GoodEvent(tag, names, d))
    requires !Mentioned(evs, e.key) && r in e.routes
    ensures var s := Run(Run(AppState([], map[], map[]), names, [e]), names, evs);
      Content(s.live, r.id) == Some(r) && r.id in Owned(s.routeIDs, e.key)
  {
    var empty := AppState([], map[], map[]);
    var start := Run(empty, names, [e]);
    var s := Run(start, names, evs);
    RunsConverge(tag, names, empty, [e]);
    RunsConverge(tag, names, start, evs);
    CoherentFind(e.routes, r);
    OneEventWants(e, r.id);
    assert tag(r.id) == RouteOf(e.key);
    assert Content(start.live, r.id) == ContentAfter(empty, [e], e.key, r.id);
    assert Entry(start.routeIDs, e.key) == EntryAfter(map[], [e], e.key);
    assert Entry(s.routeIDs, e.key) == EntryAfter(start.routeIDs, evs, e.key);
    IdIsListed(e.routes, r.id);
    assert r.id in IdSet(e.routes);
  }

  /** So the routes of a deleted Ingress, restored by a restart and listed, are never cleaned up. */
  lemma LeftBehindStaysLive(names: Names, gone: Ingress, ann: Annotations, inputs: seq<Input>, sec: Security,
                            ingressClass: string, r: CaddyRoute)
    requires ann.Valid() && CleanInput(Sync(gone, ann), names) && IsOurs(gone, ingressClass)
    requires Resolved(inputs) && forall i :: i in inputs ==> CleanInput(i, names)
    requires !Mentioned(EventsOf(inputs, sec, ingressClass), gone.Key()) && r in Compiled(gone, sec, ann)
    ensures var start := Run(AppState([], map[], map[]), names, [AddEvent(gone, sec, ann, ingressClass)]);
      var s := Run(start, names, EventsOf(inputs, sec, ingressClass));
      Content(s.live, r.id) == Some(r) && r.id in Owned(s.routeIDs, gone.Key())
  {
    CleanEventIsGood(Sync(gone, ann), names, sec, ingressClass);
    CleanEventsAreGood(inputs, names, sec, ingressClass);
    LeftByOneAdd(TagOf, names, AddEvent(gone, sec, ann, ingressClass), EventsOf(inputs, sec, ingressClass), r);
  }

  lemma OneEventWants(e: Event, id: string)
    requires e.Add?
    ensures Mentioned([e], e.key) && Latest([e], e.key) == Some(e.routes) &&
            Wanted([e], e.key, id) == FindRoute(e.routes, id)
  {
    assert e in [e] && About(e, e.key);
  }

  lemma LetterIsClean(namespace: string, name: string, host: string)
    requires '-' !in namespace && '-' !in name
    requires |host| == 1 && host[0] != '-' && host[0] != '.' && host[0] != '*'
    ensures Clean(namespace, name, host)
  {
    forall i | 0 <= i <= |host| ensures !(WILDCARD <= host[i..]) { assert |host[i..]| <= 1 < |WILDCARD|; }
    MarkFreeLabel(host);
    assert |host| < |REDIRECT_SUFFIX|;
  }

  function OneHost(name: string, host: string, p: HTTPPath): Ingress {
    Ingress("ns", name, Some("caddy"), "", [Rule(host, Some([p]))], [])
  }

  lemma OursAdds(ing: Ingress, sec: Security, ann: Annotations)
    requires ann.Valid() && ing.className == Some("caddy")
    ensures AddEvent(ing, sec, ann, "caddy")
         == Add(ing.Key(), if ann.sslRedirect then RedirectRoutes(ing, 0) else [], Compiled(ing, sec, ann),
                ing.PlainHTTP())
  {}

  lemma OneHostIsGood(names: Names, ing: Ingress, sec: Security, ann: Annotations)
    requires ann.Valid() && names.http != "" && '-' !in ing.namespace && '-' !in ing.name && |ing.rules| == 1
    requires var host := ing.rules[0].host; |host| == 1 && host[0] != '-' && host[0] != '.' && host[0] != '*'
    ensures GoodEvent(TagOf, names, AddEvent(ing, sec, ann, "caddy"))
  {
    LetterIsClean(ing.namespace, ing.name, ing.rules[0].host);
    CleanEventIsGood(Sync(ing, ann), names, sec, "caddy");
  }

  lemma OneRuleEvent(names: Names, ing: Ingress, p: HTTPPath, sec: Security, ann: Annotations) returns (r: CaddyRoute)
    requires ann.Valid() && p.service.Some? && names.http != "" && ing.className == Some("caddy")
    requires '-' !in ing.namespace && '-' !in ing.name && |ing.rules| == 1 && ing.rules[0].http == Some([p])
    requires var host := ing.rules[0].host; |host| == 1 && host[0] != '-' && host[0] != '.' && host[0] != '*'
    ensures Compiled(ing, sec, ann) == [r]
    ensures var e := AddEvent(ing, sec, ann, "caddy");
      e.Add? && e.key == ing.Key() && e.routes == [r] && GoodEvent(TagOf, names, e)
  {
    OneHostIsGood(names, ing, sec, ann);
    OursAdds(ing, sec, ann);
    r := OneRuleOneRoute(ing, sec, ann, p);
  }

  /** ns/gone was synced, deleted while Caddy was down, and the first listing holds only ns/kept. */
  lemma DeletedWhileDownStaysLive(names: Names, ann: Annotations, p: HTTPPath, sec: Security) returns (r: CaddyRoute)
    requires ann.Valid() && p.service.Some? && names.http != ""
    ensures var start := Run(AppState([], map[], map[]), names, [AddEvent(OneHost("gone", "g", p), sec, ann, "caddy")]);
      var s := Run(start, names, [AddEvent(OneHost("kept", "k", p), sec, ann, "caddy")]);
      Compiled(OneHost("gone", "g", p), sec, ann) == [r] && Content(s.live, r.id) == Some(r)
  {
    var gone, kept := OneHost("gone", "g", p), OneHost("kept", "k", p);
    assert gone.Key()[3] == 'g' && kept.Key()[3] == 'k';
    r := LeftByOneRule(names, gone, kept, p, sec, ann);
  }

  lemma LeftByOneRule(names: Names, gone: Ingress, kept: Ingress, p: HTTPPath, sec: Security, ann: Annotations)
    returns (r: CaddyRoute)
    requires ann.Valid() && p.service.Some? && names.http != "" && gone.Key() != kept.Key()
    requires forall ing :: ing in [gone, kept] ==>
               && ing.className == Some("caddy") && '-' !in ing.namespace && '-' !in ing.name
               && |ing.rules| == 1 && ing.rules[0].http == Some([p])
               && |ing.rules[0].host| == 1 && ing.rules[0].host[0] !in {'-', '.', '*'}
    ensures var start := Run(AppState([], map[], map[]), names, [AddEvent(gone, sec, ann, "caddy")]);
      var s := Run(start, names, [AddEvent(kept, sec, ann, "caddy")]);
      Compiled(gone, sec, ann) == [r] && Content(s.live, r.id) == Some(r)
  {
    assert gone in [gone, kept] && kept in [gone, kept];
    r := OneRuleEvent(names, gone, p, sec, ann);
    var other := OneRuleEvent(names, kept, p, sec, ann);
    LeftBeforeOther(TagOf, names, AddEvent(gone, sec, ann, "caddy"), AddEvent(kept, sec, ann, "caddy"), r);
  }

  lemma LeftBeforeOther(tag: string -> Tag, names: Names, e: Event, d: Event, r: CaddyRoute)
    requires e.Add? && d.Add? && GoodEvent(tag, names, e) && GoodEvent(tag, names, d)
    requires d.key != e.key && e.routes == [r]
    ensures Content(Run(Run(AppState([], map[], map[]), names, [e]), names, [d]).live, r.id) == Some(r)
  {
    LeftByOneAdd(tag, names, e, [d], r);
  }

  // ---------- an update changes the answer ----------

  /** Two routes, the first of them replaced: it moves behind the second. */
  lemma ReplacedGoesLast(names: Names, key: string, a: CaddyRoute, a': CaddyRoute, b: CaddyRoute)
    requires a.id == a'.id != b.id && a != a'
    ensures var evs := [Add(key, [], [a, b], false), Add(key, [], [a', b], false)];
      Run(AppState([], map[], map[]), names, evs).live == [Live(names.https, b), Live(names.https, a')]
  {
    var e, f, s0 := Add(key, [], [a, b], false), Add(key, [], [a', b], false), AppState([], map[], map[]);
    assert [e, f][..1] == [e] && [e][..0] == [];
    assert Run(s0, names, []) == s0 && Run(s0, names, [e]) == Apply(s0, names, e);
    assert Run(s0, names, [e, f]) == Apply(Apply(s0, names, e), names, f);
    PlacedInOrder(names, key, a, b);
    MovedBehind(names, key, a, a', b);
  }

  lemma PlacedInOrder(names: Names, key: string, a: CaddyRoute, b: CaddyRoute)
    requires a.id != b.id
    ensures Apply(AppState([], map[], map[]), names, Add(key, [], [a, b], false))
         == AppState([Live(names.https, a), Live(names.https, b)], map[key := Ids([a, b])], map[key := Ids([a, b])])
  {
    var t := names.https;
    assert Redirected([], names, []) == [];
    UpsertTwo([], t, a, b);
    assert Upserted([], t, a) == [Live(t, a)];
    RemovedFromOne(Live(t, a), b.id);
    assert Upserted([Live(t, a)], t, b) == [Live(t, a), Live(t, b)];
  }

  lemma MovedBehind(names: Names, key: string, a: CaddyRoute, a': CaddyRoute, b: CaddyRoute)
    requires a.id == a'.id != b.id && a != a'
    ensures var s := AppState([Live(names.https, a), Live(names.https, b)], map[key := Ids([a, b])],
                              map[key := Ids([a, b])]);
      Apply(s, names, Add(key, [], [a', b], false)).live == [Live(names.https, b), Live(names.https, a')]
  {
    var t, owned := names.https, map[key := Ids([a, b])];
    var c := [Live(t, a), Live(t, b)];
    assert a' in [a', b] && b in [a', b];
    forall id ensures id !in Stale(Owned(owned, key), [a', b]) { IdIsListed([a, b], id); }
    ExceptNothing(c, Stale(Owned(owned, key), [a', b]));
    assert Redirected(c, names, []) == c;
    UpsertTwo(c, t, a', b);
    assert c[1..] == [Live(t, b)];
    RemovedFromOne(Live(t, b), a'.id);
    assert Upserted(c, t, a') == [Live(t, b), Live(t, a')];
    assert Upserted([Live(t, b), Live(t, a')], t, b) == [Live(t, b), Live(t, a')];
  }

  lemma UpsertTwo(c: seq<Live>, server: string, a: CaddyRoute, b: CaddyRoute)
    ensures UpsertAll(c, server, [a, b]) == Upserted(Upserted(c, server, a), server, b)
  {
    var d := Upserted(c, server, a);
    assert [a, b][1..] == [b] && [b][1..] == [];
    assert UpsertAll(d, server, [b]) == UpsertAll(Upserted(d, server, b), server, []);
    assert UpsertAll(c, server, [a, b]) == UpsertAll(d, server, [b]);
  }

  lemma RemovedFromOne(l: Live, id: string)
    requires l.route.id != id
    ensures Removed([l], id) == [l] && Lookup([l], id) == None
  {
    assert [l][1..] == [];
  }

  // Two rules whose hosts overlap, and two states of the first rule's path.

  function Overlapping(first: Service, second: Service, entry: TLSEntry): Ingress {
    Ingress("ns", "app", Some("caddy"), "", [Rule("a.b", Some([HTTPPath("/", None, Some(first))])),
                                             Rule("*.b", Some([HTTPPath("/", None, Some(second))]))], [entry])
  }

  lemma LabelsApart()
    ensures HostLabel("a.b") != HostLabel("*.b")
  {
    assert ReplaceDots("a.b")[0] == 'a' && ReplaceDots("*.b")[0] == '*';
    assert ReplaceStars(ReplaceDots("a.b"))[0] == 'a';
    assert ReplaceStars(ReplaceDots("*.b"))[0] == 'w';
  }

  lemma TwoRulesTwoRoutes(ing: Ingress, sec: Security, ann: Annotations) returns (a: CaddyRoute, b: CaddyRoute)
    requires ann.Valid() && |ing.rules| == 2 && Servable(ing.rules[0]) && Servable(ing.rules[1])
    ensures Compiled(ing, sec, ann) == [a, b]
    ensures RuleRoutes(ing, sec, ann, ing.rules[0]) == [a] && RuleRoutes(ing, sec, ann, ing.rules[1]) == [b]
    ensures a.id == RouteID(ing.namespace, ing.name, ing.rules[0].host, None)
    ensures b.id == RouteID(ing.namespace, ing.name, ing.rules[1].host, None)
  {
    ServableRuleHasOneRoute(ing, sec, ann, ing.rules[0]);
    ServableRuleHasOneRoute(ing, sec, ann, ing.rules[1]);
    a, b := RuleRoutes(ing, sec, ann, ing.rules[0])[0], RuleRoutes(ing, sec, ann, ing.rules[1])[0];
    assert RuleRoutes(ing, sec, ann, ing.rules[0]) == [a] && RuleRoutes(ing, sec, ann, ing.rules[1]) == [b];
    assert CompiledRules(ing, sec, ann, 2) == [] && CompiledRules(ing, sec, ann, 1) == [b];
  }

  /** Caddy lists the route that answers first; two live routes in reverse order answer as the second
      rule. */
  lemma ReversedOrderAnswersAsTheOther(w: World, ing: Ingress, sec: Security, ann: Annotations, a: CaddyRoute,
                                       b: CaddyRoute,
                                       server: string, st: State)
    requires ann.Valid() && |ing.rules| == 2 && Takes(w, ing, ann, 0, st.req) && Takes(w, ing, ann, 1, st.req)
    requires RuleRoutes(ing, sec, ann, ing.rules[0]) == [a] && RuleRoutes(ing, sec, ann, ing.rules[1]) == [b]
    ensures RunRoutes(w, ServerRoutes([Live(server, b), Live(server, a)], server), st)
         == DirectRule(w, ing, sec, ann, ing.rules[1], st)
    ensures Direct(w, ing, sec, ann, st) == DirectRule(w, ing, sec, ann, ing.rules[0], st)
  {
    var live := [Live(server, b), Live(server, a)];
    assert live[1..] == [Live(server, a)] && live[1..][1..] == [];
    assert ServerRoutes(live[1..], server) == [a];
    assert ServerRoutes(live, server) == [b] + [a];
    RuleRouteAnswers(w, ing, sec, ann, 1, b, st);
    assert ([b] + [a])[0] == b;
  }

  lemma BothRulesTake(w: World, ann: Annotations, first: Service, second: Service, entry: TLSEntry, req: Request)
    requires w.hostMatches("a.b", "a.b") && w.hostMatches("*.b", "a.b") && req.host == "a.b"
    ensures forall k | 0 <= k < 2 :: Takes(w, Overlapping(first, second, entry), ann, k, req)
  {
    OverlappingIsServable(first, second, entry);
  }

  /** An Ingress with overlapping hosts changes one path's service: the run leaves the routes in the
      other order, and a request for the first host is then answered by the second rule. */
  lemma UpdateChangesTheAnswer(w: World, names: Names, sec: Security, ann: Annotations, was: Service, now: Service,
                               other: Service,
                               entry: TLSEntry, st: State)
    requires ann.Valid() && !ann.sslRedirect
    requires w.hostMatches("a.b", "a.b") && w.hostMatches("*.b", "a.b") && st.req.host == "a.b"
    requires var e := Overlapping(was, other, entry); var f := Overlapping(now, other, entry);
      Compiled(e, sec, ann) != Compiled(f, sec, ann)
    ensures var (e, f) := (Overlapping(was, other, entry), Overlapping(now, other, entry));
      var evs := [AddEvent(e, sec, ann, "caddy"), AddEvent(f, sec, ann, "caddy")];
      var live := Run(AppState([], map[], map[]), names, evs).live;
      && RunRoutes(w, ServerRoutes(live, names.https), st) == DirectRule(w, f, sec, ann, f.rules[1], st)
      && Direct(w, f, sec, ann, st) == DirectRule(w, f, sec, ann, f.rules[0], st)
  {
    var e, f := Overlapping(was, other, entry), Overlapping(now, other, entry);
    BothRulesTake(w, ann, was, other, entry, st.req);
    BothRulesTake(w, ann, now, other, entry, st.req);
    var a, a', b := OverlappingRoutes(sec, ann, was, now, other, entry);
    OverlappingAdds(was, other, entry, sec, ann);
    OverlappingAdds(now, other, entry, sec, ann);
    ReplacedGoesLast(names, "ns/app", a, a', b);
    ReversedOrderAnswersAsTheOther(w, f, sec, ann, a', b, names.https, st);
  }

  /** Two Ingresses that differ in the first of two rules. */
  lemma FirstRuleChanged(e: Ingress, f: Ingress, sec: Security, ann: Annotations)
    returns (a: CaddyRoute, a': CaddyRoute, b: CaddyRoute)
    requires ann.Valid() && |e.rules| == |f.rules| == 2 && f == e.(rules := f.rules)
    requires e.rules[1] == f.rules[1] && e.rules[0].host == f.rules[0].host
    requires Servable(e.rules[0]) && Servable(e.rules[1]) && Servable(f.rules[0])
    requires HostLabel(e.rules[0].host) != HostLabel(e.rules[1].host)
    ensures Compiled(e, sec, ann) == [a, b] && Compiled(f, sec, ann) == [a', b]
    ensures RuleRoutes(f, sec, ann, f.rules[0]) == [a'] && RuleRoutes(f, sec, ann, f.rules[1]) == [b]
    ensures a.id == a'.id != b.id
  {
    var b';
    a, b := TwoRulesTwoRoutes(e, sec, ann);
    a', b' := TwoRulesTwoRoutes(f, sec, ann);
    SameRuleSameRoute(e, f, sec, ann, e.rules[1]);
    assert [b][0] == [b'][0];
    SameIdIffSameLabel(e.namespace, e.name, e.rules[0].host, e.rules[1].host);
  }

  lemma OverlappingRoutes(sec: Security, ann: Annotations, was: Service, now: Service, other: Service, entry: TLSEntry)
    returns (a: CaddyRoute, a': CaddyRoute, b: CaddyRoute)
    requires ann.Valid() && !ann.sslRedirect
    requires Compiled(Overlapping(was, other, entry), sec, ann) != Compiled(Overlapping(now, other, entry), sec, ann)
    ensures Compiled(Overlapping(was, other, entry), sec, ann) == [a, b]
    ensures Compiled(Overlapping(now, other, entry), sec, ann) == [a', b]
    ensures var f := Overlapping(now, other, entry);
      RuleRoutes(f, sec, ann, f.rules[0]) == [a'] && RuleRoutes(f, sec, ann, f.rules[1]) == [b]
    ensures a.id == a'.id != b.id && a != a'
  {
    var e, f := Overlapping(was, other, entry), Overlapping(now, other, entry);
    OverlappingIsServable(was, other, entry);
    OverlappingIsServable(now, other, entry);
    LabelsApart();
    a, a', b := FirstRuleChanged(e, f, sec, ann);
  }

  lemma OverlappingAdds(first: Service, second: Service, entry: TLSEntry, sec: Security, ann: Annotations)
    requires ann.Valid() && !ann.sslRedirect
    ensures var ing := Overlapping(first, second, entry);
      AddEvent(ing, sec, ann, "caddy") == Add("ns/app", [], Compiled(ing, sec, ann), false)
  {
    OursAdds(Overlapping(first, second, entry), sec, ann);
    assert Overlapping(first, second, entry).Key() == "ns/app";
  }

  lemma OverlappingIsServable(first: Service, second: Service, entry: TLSEntry)
    ensures forall k | 0 <= k < 2 :: Servable(Overlapping(first, second, entry).rules[k])
  {
    var ing := Overlapping(first, second, entry);
    forall k | 0 <= k < 2 ensures Servable(ing.rules[k]) {
      assert ing.rules[k].http.value[0] in ing.rules[k].http.value;
    }
  }

  /** A rule's route depends on the Ingress's name and spec.tls only. */
  lemma SameRuleSameRoute(e: Ingress, f: Ingress, sec: Security, ann: Annotations, rule: Rule)
    requires ann.Valid() && f == e.(rules := f.rules)
    ensures RuleRoutes(e, sec, ann, rule) == RuleRoutes(f, sec, ann, rule)
  {
    if rule.http.Some? { SamePathsSameRoutes(e, f, sec, ann, rule.host, rule.http.value, 0); }
  }

  lemma SameChain(e: Ingress, f: Ingress, sec: Security, ann: Annotations, upstream: string)
    requires ann.Valid() && f == e.(rules := f.rules)
    ensures HandlerChain(upstream, e, sec, ann) == HandlerChain(upstream, f, sec, ann)
  {
    assert EarlyGates(e, ann) == EarlyGates(f, ann);
  }

  lemma {:induction false} SamePathsSameRoutes(e: Ingress, f: Ingress, sec: Security, ann: Annotations, host: string,
                                               paths: seq<HTTPPath>, i: nat)
    requires ann.Valid() && f == e.(rules := f.rules) && i <= |paths|
    ensures PathRoutes(e, sec, ann, host, paths, i) == PathRoutes(f, sec, ann, host, paths, i)
    decreases |paths| - i
  {
    if i < |paths| {
      SamePathsSameRoutes(e, f, sec, ann, host, paths, i + 1);
      if paths[i].service.Some? { SamePathSameRoute(e, f, sec, ann, host, paths[i], i); }
    }
  }

  lemma SamePathSameRoute(e: Ingress, f: Ingress, sec: Security, ann: Annotations, host: string, p: HTTPPath, i: nat)
    requires ann.Valid() && f == e.(rules := f.rules) && p.service.Some?
    ensures PathRoute(e, sec, ann, host, p, i) == PathRoute(f, sec, ann, host, p, i)
  {
    SameChain(e, f, sec, ann, Upstream(e, p.service.value));
  }

  const OFF := Security(false, "", false, false)
  const NO_HEADERS := HeaderConfig(map[], [])
  const BARE := Annotations([], [], false, "", "", 0, "", [], 0, None, NO_HEADERS, NO_HEADERS, None, "", [],
                            Proxy("", "", "", 0, false, false, "", "", "", 0), None, None)

  /** Without annotations a rule with one path "/" dials its service. */
  lemma BareRuleDials(w: World, ing: Ingress, svc: Service, rule: Rule, st: State)
    requires rule.http == Some([HTTPPath("/", None, Some(svc))])
    ensures var o := DirectRule(w, ing, OFF, BARE, rule, st);
      o.Done? && o.response.Proxied? && o.response.proxy.upstream == Upstream(ing, svc)
  {
    assert BARE.Valid() && IPAllowed(w, BARE, st.req.clientIP);
    assert FirstPath(w, rule.http.value, 0, st.req) == Some(0);
  }

  lemma UpstreamStarts(ing: Ingress, name: string, port: nat)
    requires |name| >= 2
    ensures |Upstream(ing, Service(name, port))| >= 2
    ensures Upstream(ing, Service(name, port))[0] == name[0] && Upstream(ing, Service(name, port))[1] == name[1]
  {}

  /** At an input: after the update the live server dials "three", where the Ingress reads "two". */
  lemma UpdateGoesToTheOtherService(w: World, names: Names, entry: TLSEntry, st: State)
    requires w.hostMatches("a.b", "a.b") && w.hostMatches("*.b", "a.b") && st.req.host == "a.b"
    ensures var e := Overlapping(Service("one", 80), Service("three", 80), entry);
      var f := Overlapping(Service("two", 80), Service("three", 80), entry);
      var evs := [AddEvent(e, OFF, BARE, "caddy"), AddEvent(f, OFF, BARE, "caddy")];
      RunRoutes(w, ServerRoutes(Run(AppState([], map[], map[]), names, evs).live, names.https), st)
      != Direct(w, f, OFF, BARE, st)
  {
    var one, two, three := Service("one", 80), Service("two", 80), Service("three", 80);
    var e, f := Overlapping(one, three, entry), Overlapping(two, three, entry);
    BareRuleDials(w, e, one, e.rules[0], st);
    BareRuleDials(w, f, two, f.rules[0], st);
    BareRuleDials(w, f, three, f.rules[1], st);
    UpstreamStarts(e, "one", 80);
    UpstreamStarts(f, "two", 80);
    UpstreamStarts(f, "three", 80);
    DifferentAnswersCompileApart(w, e, f, st);
    UpdateChangesTheAnswer(w, names, OFF, BARE, one, two, three, entry, st);
  }

  lemma DifferentAnswersCompileApart(w: World, e: Ingress, f: Ingress, st: State)
    requires |e.rules| == |f.rules| == 2 && Servable(e.rules[0]) && Servable(e.rules[1])
    requires Takes(w, e, BARE, 0, st.req) && Takes(w, f, BARE, 0, st.req) && Servable(f.rules[1])
    requires DirectRule(w, e, OFF, BARE, e.rules[0], st) != DirectRule(w, f, OFF, BARE, f.rules[0], st)
    ensures Compiled(e, OFF, BARE) != Compiled(f, OFF, BARE)
  {
    var a, b := TwoRulesTwoRoutes(e, OFF, BARE);
    var a', b' := TwoRulesTwoRoutes(f, OFF, BARE);
    RuleRouteAnswers(w, e, OFF, BARE, 0, a, st);
    RuleRouteAnswers(w, f, OFF, BARE, 0, a', st);
    assert [a, b][0] == a && [a', b'][0] == a';
  }
}
