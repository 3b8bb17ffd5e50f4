/** The ssl-redirect routes on the HTTP server: what they answer, and that nothing removes them. */
module Redirects {
  import opened Strings
  import opened Routes
  import opened Serving
  import opened Meaning
  import opened LiveConfig
  import opened SyncSpec
  import opened Convergence

  // ---------- what they answer ----------

  /** Some rule from k on has a host that the request's matches. */
  predicate RedirectApplies(w: World, ing: Ingress, k: nat, req: Request) {
    exists j | k <= j < |ing.rules| :: ing.rules[j].host != "" && w.hostMatches(ing.rules[j].host, req.host)
  }

  lemma RedirectRouteAnswers(w: World, ing: Ingress, host: string, st: State)
    ensures RunRoute(w, RedirectRoute(ing, host), st)
         == if w.hostMatches(host, st.req.host) then Done(Static(301, Some(HTTPS_LOCATION), st)) else Fall(st)
  {
    var r := RedirectRoute(ing, host);
    OneSetMatches(w, r.matches[0], r, st.req);
    assert r.matches[0].host[0] in r.matches[0].host;
    RunOneHandler(w, StaticResponse(301, Some(HTTPS_LOCATION)), st);
  }

  /** The redirect routes of an Ingress answer a request for one of its hosts, whatever its path and
      address, with 301 to the HTTPS form of the URL, and pass all others on. */
  lemma {:induction false} RunRedirects(w: World, ing: Ingress, k: nat, st: State)
    requires k <= |ing.rules|
    ensures RunRoutes(w, RedirectRoutes(ing, k), st)
         == if RedirectApplies(w, ing, k, st.req)
            then Done(Static(301, Some("https://{http.request.host}{http.request.uri}"), st)) else Fall(st)
    decreases |ing.rules| - k
  {
    if k < |ing.rules| {
      RunRedirects(w, ing, k + 1, st);
      var host, rest := ing.rules[k].host, RedirectRoutes(ing, k + 1);
      if host != "" {
        RedirectRouteAnswers(w, ing, host, st);
        RunSingle(w, RedirectRoute(ing, host), st);
        RunRoutesAppend(w, [RedirectRoute(ing, host)], rest, st);
      }
      assert RedirectApplies(w, ing, k, st.req)
        <==> (host != "" && w.hostMatches(host, st.req.host)) || RedirectApplies(w, ing, k + 1, st.req);
    }
  }

  // ---------- they stay ----------

  lemma {:induction false} UpsertAllKeepsIds(c: seq<Live>, server: string, rs: seq<CaddyRoute>, id: string)
    requires HasId(c, id) || id in IdSet(rs)
    ensures HasId(UpsertAll(c, server, rs), id)
    decreases rs
  {
    if rs != [] {
      var d := Upserted(c, server, rs[0]);
      LookupExcept(c, iset{rs[0].id}, id);
      LookupAppend(Removed(c, rs[0].id), [Live(server, rs[0])], id);
      assert forall r :: r in rs <==> r == rs[0] || r in rs[1..];
      UpsertAllKeepsIds(d, server, rs[1..], id);
    }
  }

  /** No event removes a redirect. */
  lemma ApplyKeepsRedirects(tag: string -> Tag, s: AppState, names: Names, e: Event, id: string)
    requires WellTagged(tag, e) && OwnsTagged(tag, s.routeIDs) && tag(id).RedirectOf?
    requires HasId(s.live, id) || (e.Add? && names.http != "" && id in IdSet(e.redirects))
    ensures HasId(Apply(s, names, e).live, id)
  {
    match e
    case Add(key, redirects, routes, plain) =>
      var stale := Stale(Owned(s.routeIDs, key), routes);
      var redirected := Redirected(s.live, names, redirects);
      if names.http != "" { UpsertAllKeepsIds(s.live, names.http, redirects, id); }
      assert id !in stale;
      LookupExcept(redirected, stale, id);
      if !Skips(names, plain) { UpsertAllKeepsIds(Except(redirected, stale), Target(names, e), routes, id); }
    case Ignored =>
    case Delete(key) => LookupExcept(s.live, SeqSet(Owned(s.routeIDs, key)), id);
  }

  /** Once placed, a redirect is live to the end of every fault-free run, also when its Ingress drops
      the host, drops the annotation, or is deleted. */
  lemma {:induction false} RedirectsAreNeverRemoved(tag: string -> Tag, names: Names, start: AppState, evs: seq<Event>,
                                                    e: Event, r: CaddyRoute)
    requires UniqueIds(start.live) && OwnsTagged(tag, start.routeIDs)
    requires forall d :: d in evs ==> GoodEvent(tag, names, d)
    requires names.http != "" && e in evs && e.Add? && r in e.redirects
    ensures HasId(Run(start, names, evs).live, r.id)
  {
    var before, last := evs[..|evs| - 1], evs[|evs| - 1];
    assert last in evs && forall d :: d in before ==> d in evs;
    assert GoodEvent(tag, names, e) && r.id in IdSet(e.redirects);
    RunsConverge(tag, names, start, before);
    if e in before { RedirectsAreNeverRemoved(tag, names, start, before, e, r); } else { assert e == last; }
    ApplyKeepsRedirects(tag, Run(start, names, before), names, last, r.id);
  }

  /** So a deleted Ingress goes on redirecting its hosts. */
  lemma DeletedIngressStillRedirects(tag: string -> Tag, names: Names, start: AppState, before: seq<Event>, e: Event,
                                     r: CaddyRoute)
    requires UniqueIds(start.live) && OwnsTagged(tag, start.routeIDs)
    requires forall d :: d in before + [e] ==> GoodEvent(tag, names, d)
    requires names.http != "" && e.Add? && r in e.redirects
    ensures HasId(Run(start, names, before + [e] + [Event.Delete(e.key)]).live, r.id)
  {
    var evs := before + [e] + [Event.Delete(e.key)];
    assert e in before + [e];
    forall d | d in evs ensures GoodEvent(tag, names, d) { if d !in before + [e] { assert d == Event.Delete(e.key); } }
    RedirectsAreNeverRemoved(tag, names, start, evs, e, r);
  }
}
