/** What one watch event does to the live routes, the ownership map and the store when no call
    fails, and how ids are accounted for when calls do fail. */
module SyncSpec {
  import opened Strings
  import opened Routes
  import opened LiveConfig
  import opened Admin

  /** Whose an @id is: a compiled route or an ssl-redirect route of one Ingress key, or neither. */
  datatype Tag = Foreign | RouteOf(key: string) | RedirectOf(key: string)

  /** A watch event after compilation. Ignored is an add or update of another ingress class. */
  datatype Event =
    | Add(key: string, redirects: seq<CaddyRoute>, routes: seq<CaddyRoute>, plain: bool)
    | Ignored
    | Delete(key: string)

  datatype Names = Names(https: string, http: string)

  datatype AppState = AppState(live: seq<Live>, routeIDs: map<string, seq<string>>, store: map<string, seq<string>>)

  /** isOurs. */
  predicate IsOurs(ing: Ingress, ingressClass: string) {
    ing.className == Some(ingressClass) || ing.classAnnotation == ingressClass
  }

  function AddEvent(ing: Ingress, sec: Security, ann: Annotations, ingressClass: string): Event
    requires ann.Valid()
  {
    if IsOurs(ing, ingressClass) then
      Add(ing.Key(), if ann.sslRedirect then RedirectRoutes(ing, 0) else [], Compiled(ing, sec, ann), ing.PlainHTTP())
    else Ignored
  }

  predicate WellTagged(tag: string -> Tag, e: Event) {
    match e
    case Add(key, redirects, routes, _) =>
      && (forall r :: r in routes ==> tag(r.id) == RouteOf(key))
      && (forall r :: r in redirects ==> tag(r.id) == RedirectOf(key))
    case _ => true
  }

  predicate OwnsTagged(tag: string -> Tag, routeIDs: map<string, seq<string>>) {
    forall k :: k in routeIDs ==> forall id :: id in routeIDs[k] ==> tag(id) == RouteOf(k)
  }

  function Owned(m: map<string, seq<string>>, key: string): seq<string> {
    if key in m then m[key] else []
  }

  ghost function SeqSet(ids: seq<string>): iset<string> { iset id | id in ids }

  /** Ids the key owned that the new routes no longer have. */
  ghost function Stale(owned: seq<string>, routes: seq<CaddyRoute>): iset<string> {
    SeqSet(owned) - IdSet(routes)
  }

  ghost function Redirected(live: seq<Live>, names: Names, redirects: seq<CaddyRoute>): seq<Live> {
    if names.http != "" then UpsertAll(live, names.http, redirects) else live
  }

  /** The early return of handleAdd: a plain-HTTP Ingress and no HTTP server. */
  predicate Skips(names: Names, plain: bool) { plain && names.http == "" }

  /** TLS Ingresses go to the HTTPS server, all others to the HTTP one. */
  function Target(names: Names, e: Event): string
    requires e.Add?
  {
    if e.plain then names.http else names.https
  }

  ghost function Apply(s: AppState, names: Names, e: Event): AppState {
    match e
    case Add(key, redirects, routes, plain) =>
      var cleaned := Except(Redirected(s.live, names, redirects), Stale(Owned(s.routeIDs, key), routes));
      if Skips(names, plain) then s.(live := cleaned)
      else AppState(UpsertAll(cleaned, if plain then names.http else names.https, routes),
                    s.routeIDs[key := Ids(routes)], s.store[key := Ids(routes)])
    case Ignored => s
    case Delete(key) =>
      AppState(Except(s.live, SeqSet(Owned(s.routeIDs, key))), s.routeIDs - {key}, s.store - {key})
  }

  // ---------- what an event may write ----------

  ghost function OutOfDateIn(c: seq<Live>, rs: seq<CaddyRoute>): iset<string> {
    iset r | r in rs && !UpToDate(c, r) :: r.id
  }

  /** The only ids an event may DELETE or POST: redirect and compiled routes that are not up to
      date, and stale ids that are live. */
  ghost function Touched(c: seq<Live>, routeIDs: map<string, seq<string>>, names: Names, e: Event): iset<string> {
    match e
    case Add(key, redirects, routes, plain) =>
      (if names.http != "" then OutOfDateIn(c, redirects) else iset{})
      + LiveAmong(c, Stale(Owned(routeIDs, key), routes))
      + (if Skips(names, plain) then iset{} else OutOfDateIn(c, routes))
    case Ignored => iset{}
    case Delete(key) => LiveAmong(c, SeqSet(Owned(routeIDs, key)))
  }

  lemma TouchedWithoutRedirects(c: seq<Live>, routeIDs: map<string, seq<string>>, names: Names, e: Event)
    requires e.Add?
    ensures ToDelete(routeIDs, e) <= SeqSet(Owned(routeIDs, e.key))
    ensures e.redirects == [] ==> Touched(c, routeIDs, names, e) <= SeqSet(Owned(routeIDs, e.key)) + IdSet(e.routes)
  {}

  /** An id the sync may write is a redirect's, a stale one, or that of an out-of-date route. */
  lemma UpToDateRouteIsNotTouched(tag: string -> Tag, c: seq<Live>, routeIDs: map<string, seq<string>>, names: Names,
                                  e: Event, r: CaddyRoute)
    requires e.Add? && WellTagged(tag, e) && r in e.routes && Coherent(e.routes) && UpToDate(c, r)
    ensures r.id !in Touched(c, routeIDs, names, e)
  {
    assert tag(r.id) == RouteOf(e.key);
    assert r.id in IdSet(e.routes);
    forall q | q in e.routes && q.id == r.id ensures q == r {
      var i :| 0 <= i < |e.routes| && e.routes[i] == q;
      var j :| 0 <= j < |e.routes| && e.routes[j] == r;
    }
  }

  /** Unchanged routes are never interrupted: through every step of a sync, whatever fails, a
      live route that the new set wants as it is, and a live route that is neither owned, new
      nor a redirect, stays live on its server. */
  lemma UninterruptedThroughout(tag: string -> Tag, trace: seq<Step>, from: nat, base: seq<Live>,
                                routeIDs: map<string, seq<string>>,
                                names: Names, e: Event, l: Live, k: nat)
    requires e.Add? && WellTagged(tag, e) && Coherent(e.routes) && UniqueIds(base) && l in base && l.route.id != ""
    requires Within(trace, from, base, Touched(base, routeIDs, names, e)) && from <= k < |trace|
    requires l.route in e.routes
      || (l.route.id !in IdSet(e.routes) && l.route.id !in IdSet(e.redirects) && l.route.id !in Owned(routeIDs, e.key))
    ensures l in trace[k].after
    ensures !trace[k].call.Get? ==> trace[k].call.Id() != l.route.id
  {
    var ids := Touched(base, routeIDs, names, e);
    MemberIsLookup(base, l);
    if l.route in e.routes { UpToDateRouteIsNotTouched(tag, base, routeIDs, names, e, l.route); }
    assert StepWithin(trace[k], base, ids);
    MemberExcept(base, ids, l);
    MemberExcept(trace[k].after, ids, l);
  }

  // ---------- what an event leaves when calls fail ----------

  /** No later route of the list has its id with other content. */
  predicate LastWord(rs: seq<CaddyRoute>, j: nat)
    requires j < |rs|
  {
    forall k | j < k < |rs| :: rs[k].id == rs[j].id ==> rs[k] == rs[j]
  }

  /** Each route that has the last word on its id is up to date, or a call about it failed; but
      for some ids nothing is said. */
  ghost predicate PlacedOrStumbled(rs: seq<CaddyRoute>, but: iset<string>, live: seq<Live>, failures: seq<Call>,
                                   from: nat)
  {
    forall j | 0 <= j < |rs| && LastWord(rs, j) && rs[j].id !in but ::
      UpToDate(live, rs[j]) || Stumbled(failures, from, rs[j].id)
  }

  /** What an event leaves, whatever calls fail: a call's failure is the only excuse, and only for
      the id of that call. */
  ghost predicate Attended(names: Names, e: Event, routeIDs: map<string, seq<string>>, live: seq<Live>,
                           trace: seq<Step>, from: nat, failures: seq<Call>, failed: nat)
  {
    && GoneOrReported(ToDelete(routeIDs, e), trace, from, live)
    && (e.Add? && !Skips(names, e.plain) ==> PlacedOrStumbled(e.routes, iset{}, live, failures, failed))
    && (e.Add? && names.http != "" ==>
          PlacedOrStumbled(e.redirects, ToDelete(routeIDs, e) + IdSet(e.routes), live, failures, failed))
  }

  lemma CoherentHasTheLastWord(rs: seq<CaddyRoute>, j: nat)
    requires Coherent(rs) && j < |rs|
    ensures LastWord(rs, j)
  {}

  /** One more upsert of a list. */
  lemma OneMorePlaced(rs: seq<CaddyRoute>, i: nat, mid: seq<Live>, now: seq<Live>, first: seq<Call>, all: seq<Call>,
                      from: nat)
    requires i < |rs| && from <= |first| && first <= all
    requires PlacedOrStumbled(rs[..i], iset{}, mid, first, from)
    requires Except(now, OutOfDate(mid, rs[i])) == Except(mid, OutOfDate(mid, rs[i]))
    requires UpToDate(now, rs[i]) || Stumbled(all, |first|, rs[i].id)
    ensures PlacedOrStumbled(rs[..i + 1], iset{}, now, all, from)
  {
    var longer := rs[..i + 1];
    forall j | 0 <= j < i && LastWord(longer, j)
      ensures UpToDate(now, rs[j]) || Stumbled(all, from, rs[j].id)
    {
      assert LastWord(rs[..i], j) by {
        assert forall k | 0 <= k < i :: rs[..i][k] == longer[k];
      }
      assert rs[..i][j] == rs[j] && longer[i] == rs[i] && longer[j] == rs[j];
      if Stumbled(first, from, rs[j].id) {
        StumbledStays(first, all, from, rs[j].id);
      } else {
        SameOutside(now, mid, OutOfDate(mid, rs[i]), rs[j].id);
      }
    }
    if Stumbled(all, |first|, rs[i].id) { assert Stumbled(all, from, rs[i].id); }
  }

  lemma StumbledStays(first: seq<Call>, all: seq<Call>, from: nat, id: string)
    requires first <= all && Stumbled(first, from, id)
    ensures Stumbled(all, from, id)
  {
    var k :| from <= k < |first| && first[k].Id() == id;
    assert all[k].Id() == id;
  }

  /** Later calls about other ids, or ids already excepted. */
  lemma PlacedThen(rs: seq<CaddyRoute>, but: iset<string>, more: iset<string>, mid: seq<Live>, now: seq<Live>,
                   first: seq<Call>, all: seq<Call>, from: nat)
    requires first <= all && PlacedOrStumbled(rs, but, mid, first, from) && but <= more
    requires Except(now, more) == Except(mid, more)
    ensures PlacedOrStumbled(rs, more, now, all, from)
  {
    forall j | 0 <= j < |rs| && LastWord(rs, j) && rs[j].id !in more
      ensures UpToDate(now, rs[j]) || Stumbled(all, from, rs[j].id)
    {
      if Stumbled(first, from, rs[j].id) {
        StumbledStays(first, all, from, rs[j].id);
      } else {
        SameOutside(now, mid, more, rs[j].id);
      }
    }
  }

  lemma PlacedSince(rs: seq<CaddyRoute>, but: iset<string>, live: seq<Live>, failures: seq<Call>, from: nat, later: nat)
    requires PlacedOrStumbled(rs, but, live, failures, later) && from <= later
    ensures PlacedOrStumbled(rs, but, live, failures, from)
  {
    forall j | 0 <= j < |rs| && LastWord(rs, j) && rs[j].id !in but
      ensures UpToDate(live, rs[j]) || Stumbled(failures, from, rs[j].id)
    {
      if Stumbled(failures, later, rs[j].id) {
        var k :| later <= k < |failures| && failures[k].Id() == rs[j].id;
      }
    }
  }

  lemma PlacedMore(rs: seq<CaddyRoute>, but: iset<string>, more: iset<string>, live: seq<Live>, failures: seq<Call>,
                   from: nat)
    requires but <= more
    ensures PlacedOrStumbled(rs, but, live, failures, from) ==> PlacedOrStumbled(rs, more, live, failures, from)
  {}

  /** Redirects and deletions first, then, unless skipped, the routes. */
  lemma AddIsAttended(names: Names, e: Event, routeIDs: map<string, seq<string>>, mid: seq<Live>, now: seq<Live>,
                      trace: seq<Step>, from: nat, first: seq<Call>, all: seq<Call>, failed: nat)
    requires e.Add? && failed <= |first| && first <= all
    requires names.http != "" ==> PlacedOrStumbled(e.redirects, ToDelete(routeIDs, e), mid, first, failed)
    requires Except(now, IdSet(e.routes)) == Except(mid, IdSet(e.routes))
    requires !Skips(names, e.plain) ==> PlacedOrStumbled(e.routes, iset{}, now, all, |first|)
    requires GoneOrReported(ToDelete(routeIDs, e), trace, from, now)
    ensures Attended(names, e, routeIDs, now, trace, from, all, failed)
  {
    if names.http != "" {
      var more := ToDelete(routeIDs, e) + IdSet(e.routes);
      AgreeOutsideMore(now, mid, IdSet(e.routes), more);
      PlacedThen(e.redirects, ToDelete(routeIDs, e), more, mid, now, first, all, failed);
    }
    if !Skips(names, e.plain) { PlacedSince(e.routes, iset{}, now, all, failed, |first|); }
  }

  // ---------- accounting ----------

  predicate OwnedBySome(routeIDs: map<string, seq<string>>, id: string) {
    exists k :: k in routeIDs && id in routeIDs[k]
  }

  /** Every live compiled route is owned by some key, or its deletion once reported an error. */
  ghost predicate Accounted(tag: string -> Tag, live: seq<Live>, routeIDs: map<string, seq<string>>,
                            leaked: iset<string>)
  {
    forall e :: e in live && tag(e.route.id).RouteOf? ==> e.route.id in leaked || OwnedBySome(routeIDs, e.route.id)
  }

  /** The ids that an event deletes. */
  ghost function ToDelete(routeIDs: map<string, seq<string>>, e: Event): iset<string> {
    match e
    case Add(key, _, routes, _) => Stale(Owned(routeIDs, key), routes)
    case Ignored => iset{}
    case Delete(key) => SeqSet(Owned(routeIDs, key))
  }

  /** Those of the ids whose GET or DELETE reported an error from index from on. */
  ghost function FailedDeletions(trace: seq<Step>, from: nat, ids: iset<string>): iset<string> {
    iset id | id in ids && Reported(trace, from, id)
  }

  ghost predicate GoneOrReported(ids: iset<string>, trace: seq<Step>, from: nat, c: seq<Live>) {
    forall id :: id in ids ==> Reported(trace, from, id) || !HasId(c, id)
  }

  /** After a sync every live compiled route is owned, was leaked before, or is a stale one whose
      deletion reported an error in this very sync. */
  lemma AddKeepsAccounts(tag: string -> Tag, before: seq<Live>, after: seq<Live>, routeIDs: map<string, seq<string>>,
                         leaked: iset<string>, key: string, routes: seq<CaddyRoute>, redirectIds: iset<string>,
                         trace: seq<Step>, from: nat)
    requires Accounted(tag, before, routeIDs, leaked)
    requires var ids := redirectIds + Stale(Owned(routeIDs, key), routes) + IdSet(routes);
             Except(after, ids) == Except(before, ids)
    requires forall id :: id in redirectIds ==> !tag(id).RouteOf?
    requires GoneOrReported(Stale(Owned(routeIDs, key), routes), trace, from, after)
    ensures Accounted(tag, after, routeIDs[key := Ids(routes)],
                      leaked + FailedDeletions(trace, from, Stale(Owned(routeIDs, key), routes)))
  {
    var stale := Stale(Owned(routeIDs, key), routes);
    var failed := FailedDeletions(trace, from, stale);
    var ids, now := redirectIds + stale + IdSet(routes), routeIDs[key := Ids(routes)];
    forall e | e in after && tag(e.route.id).RouteOf?
      ensures e.route.id in leaked + failed || OwnedBySome(now, e.route.id)
    {
      var id := e.route.id;
      if id in IdSet(routes) {
        IdIsListed(routes, id);
        assert key in now && id in now[key];
      } else if id in stale {
        var i :| 0 <= i < |after| && after[i] == e;
        assert HasId(after, id);
      } else {
        MemberExcept(after, ids, e);
        MemberExcept(before, ids, e);
        if id !in leaked {
          var k :| k in routeIDs && id in routeIDs[k];
          assert k != key;
          assert k in now && id in now[k];
        }
      }
    }
  }

  lemma IdIsListed(routes: seq<CaddyRoute>, id: string)
    ensures id in IdSet(routes) <==> id in Ids(routes)
  {
    if id in IdSet(routes) {
      var r :| r in routes && r.id == id;
      var i :| 0 <= i < |routes| && routes[i] == r;
      assert Ids(routes)[i] == id;
    }
    if id in Ids(routes) {
      var i :| 0 <= i < |routes| && Ids(routes)[i] == id;
      assert routes[i] in routes;
    }
  }

  /** The early return leaves ownership alone, and its stale ids are still owned. */
  lemma SkipKeepsAccounts(tag: string -> Tag, before: seq<Live>, after: seq<Live>, routeIDs: map<string, seq<string>>,
                          leaked: iset<string>, key: string, routes: seq<CaddyRoute>, redirectIds: iset<string>)
    requires Accounted(tag, before, routeIDs, leaked)
    requires var ids := redirectIds + Stale(Owned(routeIDs, key), routes);
             Except(after, ids) == Except(before, ids)
    requires forall id :: id in redirectIds ==> !tag(id).RouteOf?
    ensures Accounted(tag, after, routeIDs, leaked)
  {
    var ids := redirectIds + Stale(Owned(routeIDs, key), routes);
    forall e | e in after && tag(e.route.id).RouteOf?
      ensures e.route.id in leaked || OwnedBySome(routeIDs, e.route.id)
    {
      if e.route.id in ids {
        assert key in routeIDs && e.route.id in routeIDs[key];
      } else {
        MemberExcept(after, ids, e);
        MemberExcept(before, ids, e);
      }
    }
  }

  lemma DeleteKeepsAccounts(tag: string -> Tag, before: seq<Live>, after: seq<Live>, routeIDs: map<string, seq<string>>,
                            leaked: iset<string>, key: string, trace: seq<Step>, from: nat)
    requires Accounted(tag, before, routeIDs, leaked)
    requires Except(after, SeqSet(Owned(routeIDs, key))) == Except(before, SeqSet(Owned(routeIDs, key)))
    requires GoneOrReported(SeqSet(Owned(routeIDs, key)), trace, from, after)
    ensures Accounted(tag, after, routeIDs - {key}, leaked + FailedDeletions(trace, from, SeqSet(Owned(routeIDs, key))))
  {
    var ids, now := SeqSet(Owned(routeIDs, key)), routeIDs - {key};
    var failed := FailedDeletions(trace, from, ids);
    forall e | e in after && tag(e.route.id).RouteOf?
      ensures e.route.id in leaked + failed || OwnedBySome(now, e.route.id)
    {
      var id := e.route.id;
      if id in ids {
        var i :| 0 <= i < |after| && after[i] == e;
        assert HasId(after, id);
      } else {
        MemberExcept(after, ids, e);
        MemberExcept(before, ids, e);
        if id !in leaked {
          var k :| k in routeIDs && id in routeIDs[k];
          assert k in now && id in now[k];
        }
      }
    }
  }
}
