/** The reconciler of app.go: handleAdd and handleDelete drive the remote Caddy through the
    admin client, keep the ownership map and write it through to the store. Calls may fail. */
module Reconciler {
  import opened Strings
  import opened Routes
  import opened LiveConfig
  import opened Admin
  import opened Store
  import opened SyncSpec

  /** The map iteration order of Go: any order of the elements. */
  method AnyOrder(s: set<string>) returns (ids: seq<string>)
    ensures forall id :: id in ids <==> id in s
  {
    ids := [];
    var todo := s;
    while todo != {}
      invariant todo <= s
      invariant forall id :: id in ids <==> id in s && id !in todo
      decreases todo
    {
      var id :| id in todo;
      ids, todo := ids + [id], todo - {id};
    }
  }

  class App {
    const ingressClass: string
    const security: Security
    const names: Names
    const caddy: Caddy
    const adm: AdminClient
    const store: RedisStore
    var routeIDs: map<string, seq<string>>
    ghost const tag: string -> Tag
    /** Ids whose deletion once reported an error. */
    ghost var leaked: iset<string>
    /** Some store write reported an error. */
    ghost var storeFailed: bool

    constructor (ingressClass: string, security: Security, names: Names, caddy: Caddy, store: RedisStore,
                 ghost tag: string -> Tag, ghost leaked: iset<string>)
      requires caddy.Valid()
      ensures this.ingressClass == ingressClass && this.security == security && this.names == names
      ensures this.caddy == caddy && this.store == store && this.tag == tag && this.leaked == leaked
      ensures routeIDs == map[] && !storeFailed && Valid() && Tagged()
    {
      this.ingressClass, this.security, this.names := ingressClass, security, names;
      this.caddy, this.store, this.tag, this.leaked := caddy, store, tag, leaked;
      this.routeIDs, this.storeFailed := map[], false;
      this.adm := new AdminClient(caddy);
    }

    ghost predicate Valid() reads this, caddy { adm.caddy == caddy && caddy.Valid() }

    /** Every key owns ids of its own only. */
    ghost predicate Tagged() reads this { OwnsTagged(tag, routeIDs) }

    ghost function State(): AppState reads this, caddy, store {
      AppState(caddy.live, routeIDs, store.Contents())
    }

    ghost predicate AllAccounted() reads this, caddy {
      Accounted(tag, caddy.live, routeIDs, leaked)
    }

    /** While store writes succeed the store mirrors the ownership map. */
    ghost predicate StoreAgrees() reads this, store {
      storeFailed || store.Contents() == routeIDs
    }

    /** Nothing fails from now on and the configured servers exist. */
    ghost predicate FaultFree() reads this, caddy, store {
      && caddy.FaultFree() && store.FaultFree()
      && names.https in caddy.servers && (names.http == "" || names.http in caddy.servers)
    }

    /** The ownership map is what the event makes of it, whatever failed; so is the store, unless
        its own call failed. */
    ghost predicate Recorded(e: Event, before: AppState, storeClock: nat) reads this, caddy, store {
      && routeIDs == Apply(before, names, e).routeIDs
      && (store.Contents() == Apply(before, names, e).store ||
          (store.faults(storeClock) != Served && store.Contents() == before.store))
    }

    /** Upsert each route; errors are logged and the loop goes on, so a route is left out only if
        a call about it failed in this loop. */
    method UpsertEach(server: string, rs: seq<CaddyRoute>)
      requires Valid()
      modifies caddy
      ensures Valid()
      ensures old(caddy.trace) <= caddy.trace && old(caddy.failures) <= caddy.failures
      ensures PlacedOrStumbled(rs, iset{}, caddy.live, caddy.failures, |old(caddy.failures)|)
      ensures Confined(caddy.trace, |old(caddy.trace)|, old(caddy.live), caddy.live, OutOfDateIn(old(caddy.live), rs))
      ensures Concerns(caddy.trace, |old(caddy.trace)|, IdSet(rs))
      ensures old(caddy.FaultFree()) ==> caddy.FaultFree() && NoneReported(caddy.trace, |old(caddy.trace)|)
      ensures old(caddy.FaultFree()) && server in caddy.servers ==>
                && caddy.live == UpsertAll(old(caddy.live), server, rs)
                && (GetsOnly(caddy.trace, |old(caddy.trace)|) ==> OutOfDateIn(old(caddy.live), rs) == iset{})
    {
      ghost var base, from, failed, ids := caddy.live, |caddy.trace|, |caddy.failures|, OutOfDateIn(caddy.live, rs);
      ghost var known := caddy.FaultFree() && server in caddy.servers;
      for i := 0 to |rs|
        invariant Valid()
        invariant old(caddy.trace) <= caddy.trace && old(caddy.failures) <= caddy.failures
        invariant PlacedOrStumbled(rs[..i], iset{}, caddy.live, caddy.failures, failed)
        invariant Confined(caddy.trace, from, base, caddy.live, ids)
        invariant Concerns(caddy.trace, from, IdSet(rs))
        invariant old(caddy.FaultFree()) ==> caddy.FaultFree() && NoneReported(caddy.trace, from)
        invariant known ==> UpsertAll(caddy.live, server, rs[i..]) == UpsertAll(base, server, rs)
        invariant known && GetsOnly(caddy.trace, from) ==> AllUpToDate(base, rs[..i])
      {
        ghost var mid, sofar, failures := caddy.live, caddy.trace, caddy.failures;
        OutOfDateShrinks(base, mid, rs, rs[i]);
        assert rs[i..][0] == rs[i] && rs[i..][1..] == rs[i + 1..] && rs[i] in rs;
        var err := adm.UpsertRoute(server, rs[i]);
        OneMorePlaced(rs, i, mid, caddy.live, failures, caddy.failures, failed);
        ConfinedThen(sofar, caddy.trace, from, base, mid, caddy.live, ids, OutOfDate(mid, rs[i]), ids);
        ConcernsThen(sofar, caddy.trace, from, iset{rs[i].id}, IdSet(rs));
        NoneReportedThen(sofar, caddy.trace, from);
        if known && GetsOnly(caddy.trace, from) {
          SplitGets(sofar, caddy.trace, from);
          OneMoreUpToDate(base, server, rs, i);
        }
      }
      assert rs[|rs|..] == [] && rs[..|rs|] == rs;
    }

    /** Delete each id; errors are logged and the loop goes on. An id is left only if its own GET
        or DELETE in this loop reported an error. */
    method DeleteEach(ids: seq<string>)
      requires Valid()
      modifies caddy
      ensures Valid()
      ensures old(caddy.trace) <= caddy.trace && old(caddy.failures) <= caddy.failures
      ensures Confined(caddy.trace, |old(caddy.trace)|, old(caddy.live), caddy.live,
                       LiveAmong(old(caddy.live), SeqSet(ids)))
      ensures Concerns(caddy.trace, |old(caddy.trace)|, SeqSet(ids))
      ensures GoneOrReported(SeqSet(ids), caddy.trace, |old(caddy.trace)|, caddy.live)
      ensures old(caddy.FaultFree()) ==>
                && caddy.FaultFree() && caddy.live == Except(old(caddy.live), SeqSet(ids))
                && NoneReported(caddy.trace, |old(caddy.trace)|)
    {
      ghost var base, from, faultFree := caddy.live, |caddy.trace|, caddy.FaultFree();
      DeletingStarts(caddy.trace, base, ids);
      for i := 0 to |ids|
        invariant Valid()
        invariant old(caddy.trace) <= caddy.trace && old(caddy.failures) <= caddy.failures
        invariant Deleting(caddy.trace, from, base, caddy.live, ids, i)
        invariant faultFree ==> caddy.FaultFree() && AllDeleted(caddy.trace, from, base, caddy.live, ids, i)
      {
        ghost var mid, sofar := caddy.live, caddy.trace;
        var err := adm.DeleteRoute(ids[i]);
        DeletingNext(sofar, caddy.trace, from, base, mid, caddy.live, ids, i);
        if err == NoError { AllDeletedNext(sofar, caddy.trace, from, base, mid, caddy.live, ids, i); }
      }
      assert ids[..|ids|] == ids;
    }

    /** handleAdd, from class check to store write. The Kubernetes lookups, the certificate and
        the access-log steps between them touch other state. */
    method HandleAdd(ing: Ingress, ann: Annotations)
      requires Valid() && ann.Valid()
      modifies this`routeIDs, this`leaked, this`storeFailed, caddy, store
      ensures Valid()
      ensures old(caddy.trace) <= caddy.trace && old(caddy.failures) <= caddy.failures
      ensures var e := AddEvent(ing, security, ann, ingressClass);
              && Confined(caddy.trace, |old(caddy.trace)|, old(caddy.live), caddy.live,
                          Touched(old(caddy.live), old(routeIDs), names, e))
              && leaked == old(leaked) + FailedDeletions(caddy.trace, |old(caddy.trace)|, ToDelete(old(routeIDs), e))
              && (WellTagged(tag, e) && old(Tagged()) ==> Tagged())
              && (WellTagged(tag, e) && old(AllAccounted()) ==> AllAccounted())
      ensures var e := AddEvent(ing, security, ann, ingressClass);
              && Attended(names, e, old(routeIDs), caddy.live, caddy.trace, |old(caddy.trace)|, caddy.failures,
                          |old(caddy.failures)|)
              && Recorded(e, old(State()), old(store.clock))
      // isOurs: an Ingress with neither the class name nor the annotation is left alone, any other is synced
      ensures ing.className != Some(ingressClass) && ing.classAnnotation != ingressClass ==>
                caddy.trace == old(caddy.trace) && State() == old(State())
      ensures ing.className == Some(ingressClass) || ing.classAnnotation == ingressClass ==>
                Synced(ing, ann, old(routeIDs), |old(caddy.trace)|, old(caddy.live), |old(caddy.failures)|)
      ensures old(StoreAgrees()) ==> StoreAgrees()
      ensures old(caddy.FaultFree()) ==> caddy.FaultFree() && leaked == old(leaked)
      ensures old(store.FaultFree()) ==> store.FaultFree() && storeFailed == old(storeFailed)
      ensures old(FaultFree()) ==>
                var e := AddEvent(ing, security, ann, ingressClass);
                && State() == Apply(old(State()), names, e)
                && (GetsOnly(caddy.trace, |old(caddy.trace)|) ==>
                    Touched(old(caddy.live), old(routeIDs), names, e) == iset{})
    {
      if !IsOurs(ing, ingressClass) {
        NothingYet(caddy.trace, |caddy.trace|, caddy.live, iset{});
        return;
      }
      var key := ing.Key();
      var routes := ConvertIngress(ing, security, ann);
      var redirects := [];
      if ann.sslRedirect { redirects := HttpRedirectRoutes(ing); }
      ghost var base, from, failed, owned := caddy.live, |caddy.trace|, |caddy.failures|, routeIDs;
      SyncRoutes(key, redirects, routes, ing.PlainHTTP());
      SyncedByAdd(ing, ann, Add(key, redirects, routes, ing.PlainHTTP()), owned, from, base, failed);
    }

    /** The outcome of syncing an Ingress of our class, whatever calls fail: unless it is plain HTTP
        and there is no HTTP server, exactly the compiled ids are listed under its key, and each
        compiled route is placed or a call about it failed; likewise the redirects of ssl-redirect,
        without which only owned and compiled ids are written. */
    ghost predicate Synced(ing: Ingress, ann: Annotations, owned: map<string, seq<string>>, from: nat, base: seq<Live>,
                           failed: nat)
      requires ann.Valid()
      reads this, caddy
    {
      var key, routes := ing.namespace + "/" + ing.name, Compiled(ing, security, ann);
      var own := SeqSet(Owned(owned, key)) + IdSet(routes);
      && (if ing.tls == [] && names.http == "" then routeIDs == owned
          else && routeIDs == owned[key := Ids(routes)]
               && PlacedOrStumbled(routes, iset{}, caddy.live, caddy.failures, failed))
      && (ann.sslRedirect && names.http != "" ==>
            PlacedOrStumbled(RedirectRoutes(ing, 0), own, caddy.live, caddy.failures, failed))
      && (!ann.sslRedirect ==> Confined(caddy.trace, from, base, caddy.live, own))
    }

    /** The part of handleAdd that talks to Caddy and the store. */
    method SyncRoutes(key: string, redirects: seq<CaddyRoute>, routes: seq<CaddyRoute>, plain: bool)
      requires Valid()
      modifies this`routeIDs, this`leaked, this`storeFailed, caddy, store
      ensures Valid()
      ensures old(caddy.trace) <= caddy.trace && old(caddy.failures) <= caddy.failures
      ensures var e := Add(key, redirects, routes, plain);
              && Confined(caddy.trace, |old(caddy.trace)|, old(caddy.live), caddy.live,
                          Touched(old(caddy.live), old(routeIDs), names, e))
              && leaked == old(leaked) + FailedDeletions(caddy.trace, |old(caddy.trace)|, ToDelete(old(routeIDs), e))
              && (WellTagged(tag, e) && old(Tagged()) ==> Tagged())
              && (WellTagged(tag, e) && old(AllAccounted()) ==> AllAccounted())
      ensures Attended(names, Add(key, redirects, routes, plain), old(routeIDs), caddy.live, caddy.trace,
                       |old(caddy.trace)|, caddy.failures, |old(caddy.failures)|)
      ensures Recorded(Add(key, redirects, routes, plain), old(State()), old(store.clock))
      ensures old(StoreAgrees()) ==> StoreAgrees()
      ensures old(caddy.FaultFree()) ==> caddy.FaultFree() && leaked == old(leaked)
      ensures old(store.FaultFree()) ==> store.FaultFree() && storeFailed == old(storeFailed)
      ensures old(FaultFree()) ==>
                var e := Add(key, redirects, routes, plain);
                && State() == Apply(old(State()), names, e)
                && (GetsOnly(caddy.trace, |old(caddy.trace)|) ==>
                    Touched(old(caddy.live), old(routeIDs), names, e) == iset{})
    {
      var placed := SyncLive(key, redirects, routes, plain);
      if !placed { return; }
      if WellTagged(tag, Add(key, redirects, routes, plain)) { IdsAreTagged(key, routes); }
      var _ := Record(key, Ids(routes));
    }

    /** The admin calls of handleAdd; false is its early return. */
    method SyncLive(key: string, redirects: seq<CaddyRoute>, routes: seq<CaddyRoute>, plain: bool)
      returns (placed: bool)
      requires Valid()
      modifies this`leaked, caddy
      ensures Valid() && placed == !Skips(names, plain)
      ensures old(caddy.trace) <= caddy.trace && old(caddy.failures) <= caddy.failures
      ensures Attended(names, Add(key, redirects, routes, plain), routeIDs, caddy.live, caddy.trace,
                       |old(caddy.trace)|, caddy.failures, |old(caddy.failures)|)
      ensures var e := Add(key, redirects, routes, plain);
              && Confined(caddy.trace, |old(caddy.trace)|, old(caddy.live), caddy.live,
                          Touched(old(caddy.live), routeIDs, names, e))
              && leaked == old(leaked) + FailedDeletions(caddy.trace, |old(caddy.trace)|, ToDelete(routeIDs, e))
      ensures WellTagged(tag, Add(key, redirects, routes, plain)) && old(AllAccounted()) ==>
                Accounted(tag, caddy.live, if placed then routeIDs[key := Ids(routes)] else routeIDs, leaked)
      ensures old(caddy.FaultFree()) ==> caddy.FaultFree() && leaked == old(leaked)
      ensures old(FaultFree()) ==>
                var e := Add(key, redirects, routes, plain);
                var cleaned := Except(Redirected(old(caddy.live), names, redirects),
                                      Stale(Owned(routeIDs, key), routes));
                && caddy.live == (if placed then UpsertAll(cleaned, if plain then names.http else names.https, routes)
                                  else cleaned)
                && (GetsOnly(caddy.trace, |old(caddy.trace)|) ==>
                    Touched(old(caddy.live), routeIDs, names, e) == iset{})
    {
      ghost var base, from, failed := caddy.live, |caddy.trace|, |caddy.failures|;
      ghost var e := Add(key, redirects, routes, plain);
      ghost var redirectIds, staleIds := ClearOld(key, redirects, routes);
      assert WellTagged(tag, e) ==> NoRoutes(redirectIds);
      placed := PlaceUnlessSkipped(key, routes, plain, e, base, from, failed, redirectIds, staleIds);
      NothingFailed(caddy.trace, from, ToDelete(routeIDs, e));
      leaked := leaked + FailedDeletions(caddy.trace, from, ToDelete(routeIDs, e));
    }

    /** The choice of the server: TLS Ingresses go to the HTTPS one, all others to the HTTP one. */
    method PlaceUnlessSkipped(key: string, routes: seq<CaddyRoute>, plain: bool, ghost e: Event, ghost base: seq<Live>,
                              ghost from: nat, ghost failed: nat, ghost redirectIds: iset<string>,
                              ghost staleIds: iset<string>) returns (placed: bool)
      requires Valid() && from <= |caddy.trace| && failed <= |caddy.failures|
      requires e.Add? && e.key == key && e.routes == routes && e.plain == plain
      requires names.http != "" ==>
                 PlacedOrStumbled(e.redirects, Stale(Owned(routeIDs, key), routes), caddy.live, caddy.failures, failed)
      requires redirectIds == if names.http != "" then OutOfDateIn(base, e.redirects) else iset{}
      requires staleIds == LiveAmong(base, Stale(Owned(routeIDs, key), routes))
      requires Confined(caddy.trace, from, base, caddy.live, redirectIds + staleIds)
      requires GoneOrReported(Stale(Owned(routeIDs, key), routes), caddy.trace, from, caddy.live)
      modifies caddy
      ensures Valid() && placed == !Skips(names, plain)
      ensures old(caddy.trace) <= caddy.trace && old(caddy.failures) <= caddy.failures
      ensures Confined(caddy.trace, from, base, caddy.live, Touched(base, routeIDs, names, e))
      ensures Attended(names, e, routeIDs, caddy.live, caddy.trace, from, caddy.failures, failed)
      ensures NoRoutes(redirectIds) && Accounted(tag, base, routeIDs, leaked) ==>
                Accounted(tag, caddy.live, if placed then routeIDs[key := Ids(routes)] else routeIDs,
                          leaked + FailedDeletions(caddy.trace, from, Stale(Owned(routeIDs, key), routes)))
      ensures old(caddy.FaultFree()) ==> caddy.FaultFree()
      ensures old(caddy.FaultFree()) && NoneReported(old(caddy.trace), from) ==> NoneReported(caddy.trace, from)
      ensures !placed ==> caddy.live == old(caddy.live) && caddy.trace == old(caddy.trace)
      ensures placed && old(caddy.FaultFree()) && (if plain then names.http else names.https) in caddy.servers ==>
                && caddy.live == UpsertAll(old(caddy.live), if plain then names.http else names.https, routes)
                && (GetsOnly(caddy.trace, from) ==>
                    GetsOnly(old(caddy.trace), from) && OutOfDateIn(base, routes) == iset{})
    {
      ghost var mid, failures := caddy.live, caddy.failures;
      TouchedByAdd(base, e, redirectIds, staleIds);
      var targetServer := names.https;
      if plain {
        if names.http == "" {
          SkipAccounts(base, key, routes, redirectIds, staleIds);
          AddIsAttended(names, e, routeIDs, mid, mid, caddy.trace, from, failures, failures, failed);
          return false;
        }
        targetServer := names.http;
      }
      Place(targetServer, key, routes, base, from, redirectIds, staleIds);
      AddIsAttended(names, e, routeIDs, mid, caddy.live, caddy.trace, from, failures, caddy.failures, failed);
      return true;
    }

    /** The upserts at the end of handleAdd, after redirects and stale ids were dealt with. */
    method Place(server: string, key: string, routes: seq<CaddyRoute>, ghost base: seq<Live>, ghost from: nat,
                 ghost redirectIds: iset<string>, ghost staleIds: iset<string>)
      requires Valid() && from <= |caddy.trace|
      requires staleIds <= Stale(Owned(routeIDs, key), routes)
      requires Confined(caddy.trace, from, base, caddy.live, redirectIds + staleIds)
      requires GoneOrReported(Stale(Owned(routeIDs, key), routes), caddy.trace, from, caddy.live)
      modifies caddy
      ensures Valid()
      ensures old(caddy.trace) <= caddy.trace && old(caddy.failures) <= caddy.failures
      ensures Confined(caddy.trace, from, base, caddy.live, redirectIds + staleIds + OutOfDateIn(base, routes))
      ensures PlacedOrStumbled(routes, iset{}, caddy.live, caddy.failures, |old(caddy.failures)|)
      ensures Except(caddy.live, IdSet(routes)) == Except(old(caddy.live), IdSet(routes))
      ensures GoneOrReported(Stale(Owned(routeIDs, key), routes), caddy.trace, from, caddy.live)
      ensures NoRoutes(redirectIds) && Accounted(tag, base, routeIDs, leaked) ==>
                Accounted(tag, caddy.live, routeIDs[key := Ids(routes)],
                          leaked + FailedDeletions(caddy.trace, from, Stale(Owned(routeIDs, key), routes)))
      ensures old(caddy.FaultFree()) ==> caddy.FaultFree()
      ensures old(caddy.FaultFree()) && NoneReported(old(caddy.trace), from) ==> NoneReported(caddy.trace, from)
      ensures old(caddy.FaultFree()) && server in caddy.servers ==>
                && caddy.live == UpsertAll(old(caddy.live), server, routes)
                && (GetsOnly(caddy.trace, from) ==>
                    GetsOnly(old(caddy.trace), from) && OutOfDateIn(base, routes) == iset{})
    {
      ghost var cleaned, sofar := caddy.live, caddy.trace;
      ghost var stale := Stale(Owned(routeIDs, key), routes);
      UpsertEach(server, routes);
      NoneReportedThen(sofar, caddy.trace, from);
      JoinPlacing(sofar, caddy.trace, from, base, cleaned, caddy.live, redirectIds + staleIds, routes, stale);
      SyncAccounts(base, key, routes, redirectIds, staleIds, caddy.trace, from);
    }

    /** Ownership map first, then the store. */
    method Record(key: string, ids: seq<string>) returns (err: bool)
      modifies this`routeIDs, this`storeFailed, store
      ensures routeIDs == old(routeIDs)[key := ids]
      ensures storeFailed == (old(storeFailed) || err) && (err ==> store.faults(old(store.clock)) != Served)
      ensures store.Contents() == old(store.Contents())[key := ids] ||
              (err && store.Contents() == old(store.Contents()))
      ensures old(StoreAgrees()) ==> StoreAgrees()
      ensures old(store.FaultFree()) ==> store.FaultFree() && !err
    {
      routeIDs := routeIDs[key := ids];
      err := store.Save(key, ids);
      storeFailed := storeFailed || err;
    }

    /** The redirect upserts and the stale deletions. */
    method ClearOld(key: string, redirects: seq<CaddyRoute>, routes: seq<CaddyRoute>)
      returns (ghost redirectIds: iset<string>, ghost staleIds: iset<string>)
      requires Valid()
      modifies caddy
      ensures Valid()
      ensures redirectIds == if names.http != "" then OutOfDateIn(old(caddy.live), redirects) else iset{}
      ensures staleIds == LiveAmong(old(caddy.live), Stale(Owned(routeIDs, key), routes))
      ensures old(caddy.trace) <= caddy.trace && old(caddy.failures) <= caddy.failures
      ensures Confined(caddy.trace, |old(caddy.trace)|, old(caddy.live), caddy.live, redirectIds + staleIds)
      ensures GoneOrReported(Stale(Owned(routeIDs, key), routes), caddy.trace, |old(caddy.trace)|, caddy.live)
      ensures names.http != "" ==>
                PlacedOrStumbled(redirects, Stale(Owned(routeIDs, key), routes), caddy.live, caddy.failures,
                                 |old(caddy.failures)|)
      ensures old(caddy.FaultFree()) ==> caddy.FaultFree() && NoneReported(caddy.trace, |old(caddy.trace)|)
      ensures old(FaultFree()) ==>
                && caddy.live == Except(Redirected(old(caddy.live), names, redirects),
                                        Stale(Owned(routeIDs, key), routes))
                && (GetsOnly(caddy.trace, |old(caddy.trace)|) ==> redirectIds + staleIds == iset{})
    {
      ghost var base, from, start, failed := caddy.live, |caddy.trace|, caddy.trace, |caddy.failures|;
      // ssl-redirect routes are never entered in routeIDs
      redirectIds := if names.http != "" then OutOfDateIn(base, redirects) else iset{};
      NothingYet(start, from, base, redirectIds);
      if names.http != "" { UpsertEach(names.http, redirects); }
      ghost var mid, sofar, failures := caddy.live, caddy.trace, caddy.failures;

      var order := StaleInAnyOrder(key, routes);
      staleIds := LiveAmong(base, SeqSet(order));
      DeleteEach(order);
      AgreeOutsideMore(caddy.live, mid, LiveAmong(mid, SeqSet(order)), SeqSet(order));
      if names.http != "" {
        PlacedThen(redirects, iset{}, SeqSet(order), mid, caddy.live, failures, caddy.failures, failed);
      }
      JoinClearing(sofar, caddy.trace, from, base, mid, caddy.live, redirectIds, SeqSet(order));
    }

    /** The ids the key owned that the routes no longer have, in the order a map yields them. */
    method StaleInAnyOrder(key: string, routes: seq<CaddyRoute>) returns (order: seq<string>)
      ensures SeqSet(order) == Stale(Owned(routeIDs, key), routes)
    {
      var oldIDs := Owned(routeIDs, key);
      var newIDs := Ids(routes);
      order := AnyOrder((set id | id in oldIDs) - (set id | id in newIDs));
      forall id ensures id in SeqSet(order) <==> id in Stale(oldIDs, routes) { IdIsListed(routes, id); }
    }

    /** handleDelete: the entry goes first, then the routes, then the store entry. */
    method HandleDelete(key: string)
      requires Valid()
      modifies this`routeIDs, this`leaked, this`storeFailed, caddy, store
      ensures Valid()
      ensures old(caddy.trace) <= caddy.trace && old(caddy.failures) <= caddy.failures
      ensures var e := Event.Delete(key);
              && Confined(caddy.trace, |old(caddy.trace)|, old(caddy.live), caddy.live,
                          Touched(old(caddy.live), old(routeIDs), names, e))
              && leaked == old(leaked) + FailedDeletions(caddy.trace, |old(caddy.trace)|, ToDelete(old(routeIDs), e))
      ensures (old(Tagged()) ==> Tagged()) && (old(AllAccounted()) ==> AllAccounted())
      ensures Attended(names, Event.Delete(key), old(routeIDs), caddy.live, caddy.trace, |old(caddy.trace)|,
                       caddy.failures, |old(caddy.failures)|)
      ensures Recorded(Event.Delete(key), old(State()), old(store.clock))
      ensures old(StoreAgrees()) ==> StoreAgrees()
      ensures old(caddy.FaultFree()) ==> caddy.FaultFree() && leaked == old(leaked)
      ensures old(store.FaultFree()) ==> store.FaultFree() && storeFailed == old(storeFailed)
      ensures old(FaultFree()) ==>
                && State() == Apply(old(State()), names, Event.Delete(key))
                && (GetsOnly(caddy.trace, |old(caddy.trace)|) ==>
                      Touched(old(caddy.live), old(routeIDs), names, Event.Delete(key)) == iset{})
    {
      DropRoutes(key);
      var _ := Erase(key);
    }

    /** The store follows the ownership map. */
    method Erase(key: string) returns (err: bool)
      modifies this`storeFailed, store
      ensures storeFailed == (old(storeFailed) || err) && (err ==> store.faults(old(store.clock)) != Served)
      ensures store.Contents() == old(store.Contents()) - {key} || (err && store.Contents() == old(store.Contents()))
      ensures old(store.FaultFree()) ==> store.FaultFree() && !err
    {
      err := store.Remove(key);
      storeFailed := storeFailed || err;
    }

    /** The part of handleDelete that talks to Caddy. */
    method DropRoutes(key: string)
      requires Valid()
      modifies this`routeIDs, this`leaked, caddy
      ensures Valid() && routeIDs == old(routeIDs) - {key}
      ensures old(caddy.trace) <= caddy.trace && old(caddy.failures) <= caddy.failures
      ensures var e := Event.Delete(key);
              && Confined(caddy.trace, |old(caddy.trace)|, old(caddy.live), caddy.live,
                          Touched(old(caddy.live), old(routeIDs), names, e))
              && leaked == old(leaked) + FailedDeletions(caddy.trace, |old(caddy.trace)|, ToDelete(old(routeIDs), e))
      ensures GoneOrReported(ToDelete(old(routeIDs), Event.Delete(key)), caddy.trace, |old(caddy.trace)|, caddy.live)
      ensures old(AllAccounted()) ==> AllAccounted()
      ensures old(caddy.FaultFree()) ==>
                && caddy.FaultFree() && leaked == old(leaked)
                && caddy.live == Except(old(caddy.live), SeqSet(Owned(old(routeIDs), key)))
                && (GetsOnly(caddy.trace, |old(caddy.trace)|) ==>
                      Touched(old(caddy.live), old(routeIDs), names, Event.Delete(key)) == iset{})
    {
      ghost var base, owned, from := caddy.live, routeIDs, |caddy.trace|;
      ghost var e := Event.Delete(key);
      var ids := Owned(routeIDs, key);
      routeIDs := routeIDs - {key};
      DeleteEach(ids);
      assert ToDelete(owned, e) == SeqSet(ids) && Touched(base, owned, names, e) == LiveAmong(base, SeqSet(ids));
      DropAccounts(base, owned, key, caddy.trace, from);
      if caddy.live == base && caddy.live == Except(base, SeqSet(ids)) { NothingToRemove(base, SeqSet(ids)); }
      NothingFailed(caddy.trace, from, ToDelete(owned, e));
      leaked := leaked + FailedDeletions(caddy.trace, from, ToDelete(owned, e));
    }

    /** The start of run: what the store holds is overlaid on the ownership map; an entry is left
        out only if its own GET failed. at gives the number of the call that asked for each key. */
    method Restore() returns (err: bool, ghost at: map<string, nat>)
      requires Valid()
      modifies this`routeIDs, store`clock
      ensures Valid() && (old(Tagged()) && OwnsTagged(tag, store.Contents()) ==> Tagged())
      ensures caddy.live == old(caddy.live) && store.Contents() == old(store.Contents())
      ensures old(routeIDs).Keys <= routeIDs.Keys <= old(routeIDs).Keys + store.Contents().Keys
      ensures forall k :: k in routeIDs ==>
                (k in old(routeIDs) && routeIDs[k] == old(routeIDs)[k]) ||
                    (k in store.Contents() && routeIDs[k] == store.Contents()[k])
      ensures err ==> store.faults(old(store.clock)) != Served && routeIDs == old(routeIDs)
      ensures !err ==> forall k :: k in store.Contents() ==>
                && k in at && old(store.clock) < at[k] < store.clock
                && (store.faults(at[k]) == Served ==> k in routeIDs && routeIDs[k] == store.Contents()[k])
      ensures forall j, k :: j in at && k in at && at[j] == at[k] ==> j == k
      ensures old(store.FaultFree()) ==> store.FaultFree() && routeIDs == old(routeIDs) + store.Contents()
    {
      var stored;
      err, stored, at := store.LoadAll();
      if err { return; }
      routeIDs := routeIDs + stored;
    }

    // ---------- proof steps ----------

    lemma SyncedByAdd(ing: Ingress, ann: Annotations, e: Event, owned: map<string, seq<string>>, from: nat,
                      base: seq<Live>, failed: nat)
      requires ann.Valid() && e.Add? && e.key == ing.Key() && e.routes == Compiled(ing, security, ann)
      requires e.plain == ing.PlainHTTP() && e.redirects == if ann.sslRedirect then RedirectRoutes(ing, 0) else []
      requires Attended(names, e, owned, caddy.live, caddy.trace, from, caddy.failures, failed)
      requires Confined(caddy.trace, from, base, caddy.live, Touched(base, owned, names, e))
      requires routeIDs == if Skips(names, e.plain) then owned else owned[e.key := Ids(e.routes)]
      ensures Synced(ing, ann, owned, from, base, failed)
    {
      var own := SeqSet(Owned(owned, e.key)) + IdSet(e.routes);
      PlacedMore(e.redirects, ToDelete(owned, e) + IdSet(e.routes), own, caddy.live, caddy.failures, failed);
      TouchedWithoutRedirects(base, owned, names, e);
      if !ann.sslRedirect { ConfinedMore(caddy.trace, from, base, caddy.live, Touched(base, owned, names, e), own); }
    }

    ghost predicate NoRoutes(ids: iset<string>) { forall id :: id in ids ==> !tag(id).RouteOf? }

    lemma IdsAreTagged(key: string, routes: seq<CaddyRoute>)
      requires forall r :: r in routes ==> tag(r.id) == RouteOf(key)
      ensures forall id :: id in Ids(routes) ==> tag(id) == RouteOf(key)
    {
      forall id | id in Ids(routes) ensures tag(id) == RouteOf(key) { IdIsListed(routes, id); }
    }

    lemma TouchedByAdd(base: seq<Live>, e: Event, redirectIds: iset<string>, staleIds: iset<string>)
      requires e.Add?
      requires redirectIds == if names.http != "" then OutOfDateIn(base, e.redirects) else iset{}
      requires staleIds == LiveAmong(base, Stale(Owned(routeIDs, e.key), e.routes))
      ensures Touched(base, routeIDs, names, e)
           == if Skips(names, e.plain) then redirectIds + staleIds
               else redirectIds + staleIds + OutOfDateIn(base, e.routes)
    {}

    lemma SkipAccounts(base: seq<Live>, key: string, routes: seq<CaddyRoute>, redirectIds: iset<string>,
                       staleIds: iset<string>)
      requires Except(caddy.live, redirectIds + staleIds) == Except(base, redirectIds + staleIds)
      requires staleIds <= Stale(Owned(routeIDs, key), routes)
      ensures NoRoutes(redirectIds) && Accounted(tag, base, routeIDs, leaked) ==> AllAccounted()
    {
      var stale := Stale(Owned(routeIDs, key), routes);
      AgreeOutsideMore(caddy.live, base, redirectIds + staleIds, redirectIds + stale);
      if NoRoutes(redirectIds) && Accounted(tag, base, routeIDs, leaked) {
        SkipKeepsAccounts(tag, base, caddy.live, routeIDs, leaked, key, routes, redirectIds);
      }
    }

    lemma DropAccounts(base: seq<Live>, owned: map<string, seq<string>>, key: string, trace: seq<Step>, from: nat)
      requires var ids := LiveAmong(base, SeqSet(Owned(owned, key))); Except(caddy.live, ids) == Except(base, ids)
      requires GoneOrReported(SeqSet(Owned(owned, key)), trace, from, caddy.live)
      ensures Accounted(tag, base, owned, leaked) ==>
                Accounted(tag, caddy.live, owned - {key},
                          leaked + FailedDeletions(trace, from, SeqSet(Owned(owned, key))))
    {
      var ids := SeqSet(Owned(owned, key));
      AgreeOutsideMore(caddy.live, base, LiveAmong(base, ids), ids);
      if Accounted(tag, base, owned, leaked) {
        DeleteKeepsAccounts(tag, base, caddy.live, owned, leaked, key, trace, from);
      }
    }

    lemma SyncAccounts(base: seq<Live>, key: string, routes: seq<CaddyRoute>,
                       redirectIds: iset<string>, staleIds: iset<string>, trace: seq<Step>, from: nat)
      requires var ids := redirectIds + staleIds + OutOfDateIn(base, routes);
               Except(caddy.live, ids) == Except(base, ids)
      requires staleIds <= Stale(Owned(routeIDs, key), routes)
      requires GoneOrReported(Stale(Owned(routeIDs, key), routes), trace, from, caddy.live)
      ensures NoRoutes(redirectIds) && Accounted(tag, base, routeIDs, leaked) ==>
                Accounted(tag, caddy.live, routeIDs[key := Ids(routes)],
                          leaked + FailedDeletions(trace, from, Stale(Owned(routeIDs, key), routes)))
    {
      var stale := Stale(Owned(routeIDs, key), routes);
      AgreeOutsideMore(caddy.live, base, redirectIds + staleIds + OutOfDateIn(base, routes),
                       redirectIds + stale + IdSet(routes));
      if NoRoutes(redirectIds) && Accounted(tag, base, routeIDs, leaked) {
        AddKeepsAccounts(tag, base, caddy.live, routeIDs, leaked, key, routes, redirectIds, trace, from);
      }
    }
  }

  /** A route that is out of date now was out of date at the start, or shares its id with one. */
  lemma OutOfDateShrinks(base: seq<Live>, mid: seq<Live>, rs: seq<CaddyRoute>, r: CaddyRoute)
    requires r in rs && Except(mid, OutOfDateIn(base, rs)) == Except(base, OutOfDateIn(base, rs))
    ensures OutOfDate(mid, r) <= OutOfDateIn(base, rs)
  {
    if r.id !in OutOfDateIn(base, rs) { SameOutside(mid, base, OutOfDateIn(base, rs), r.id); }
  }

  predicate AllUpToDate(c: seq<Live>, rs: seq<CaddyRoute>) { forall r :: r in rs ==> UpToDate(c, r) }

  /** An upsert that wrote nothing found its route up to date. */
  lemma OneMoreUpToDate(base: seq<Live>, server: string, rs: seq<CaddyRoute>, i: nat)
    requires UniqueIds(base) && i < |rs| && AllUpToDate(base, rs[..i])
    requires Upserted(base, server, rs[i]) == base
    ensures AllUpToDate(base, rs[..i + 1])
  {
    UpsertedProperties(base, server, rs[i]);
    assert rs[..i + 1] == rs[..i] + [rs[i]];
  }

  lemma SplitGets(first: seq<Step>, all: seq<Step>, from: nat)
    requires first <= all && from <= |first| && GetsOnly(all, from)
    ensures GetsOnly(first, from) && GetsOnly(all, |first|)
  {
    assert forall k | 0 <= k < |first| :: first[k] == all[k];
  }

  lemma ConcernsThen(first: seq<Step>, all: seq<Step>, from: nat, some: iset<string>, ids: iset<string>)
    requires first <= all && Concerns(first, from, ids) && Concerns(all, |first|, some) && some <= ids
    ensures Concerns(all, from, ids)
  {
    assert forall k | 0 <= k < |first| :: first[k] == all[k];
  }

  lemma NoneReportedThen(first: seq<Step>, all: seq<Step>, from: nat)
    requires first <= all && from <= |first|
    ensures NoneReported(all, from) <==> NoneReported(first, from) && NoneReported(all, |first|)
  {
    assert forall k | 0 <= k < |first| :: first[k] == all[k];
  }

  /** Calls about one id of which none reported anything. */
  lemma StillNoneReported(first: seq<Step>, all: seq<Step>, from: nat, id: string)
    requires first <= all && from <= |first| && Concerns(all, |first|, iset{id}) && !Reported(all, |first|, id)
    ensures NoneReported(first, from) ==> NoneReported(all, from)
  {
    forall k | |first| <= k < |all| ensures all[k].err ==> all[k].call.Post? { assert !FailsOn(all[k], id); }
    NoneReportedThen(first, all, from);
  }

  lemma NothingFailed(trace: seq<Step>, from: nat, ids: iset<string>)
    ensures NoneReported(trace, from) ==> FailedDeletions(trace, from, ids) == iset{}
  {}

  lemma ReportedSplits(first: seq<Step>, all: seq<Step>, from: nat, id: string)
    requires first <= all && from <= |first|
    ensures Reported(all, from, id) <==> Reported(first, from, id) || Reported(all, |first|, id)
  {
    assert forall k | 0 <= k < |first| :: first[k] == all[k];
  }

  /** An id that is live only after calls confined to a is among a. */
  lemma LiveAmongWithin(base: seq<Live>, mid: seq<Live>, a: iset<string>, ids: iset<string>)
    requires Except(mid, a) == Except(base, a)
    ensures LiveAmong(mid, ids) <= a + LiveAmong(base, ids)
  {
    forall id | id in LiveAmong(mid, ids) && id !in a ensures HasId(base, id) { SameOutside(mid, base, a, id); }
  }

  lemma OutOfDateWithin(base: seq<Live>, mid: seq<Live>, a: iset<string>, rs: seq<CaddyRoute>)
    requires Except(mid, a) == Except(base, a)
    ensures OutOfDateIn(mid, rs) <= a + OutOfDateIn(base, rs)
  {
    forall r | r in rs && !UpToDate(mid, r) && r.id !in a ensures !UpToDate(base, r) {
      SameOutside(mid, base, a, r.id);
    }
  }

  /** Calls confined to a, then the upserts of the routes. */
  lemma JoinPlacing(first: seq<Step>, all: seq<Step>, from: nat, base: seq<Live>, mid: seq<Live>, now: seq<Live>,
                    a: iset<string>, routes: seq<CaddyRoute>, stale: iset<string>)
    requires first <= all && from <= |first|
    requires Confined(first, from, base, mid, a) && Confined(all, |first|, mid, now, OutOfDateIn(mid, routes))
    requires GoneOrReported(stale, first, from, mid) && forall id :: id in stale ==> id !in IdSet(routes)
    ensures Confined(all, from, base, now, a + OutOfDateIn(base, routes))
    ensures Except(now, IdSet(routes)) == Except(mid, IdSet(routes))
    ensures GoneOrReported(stale, all, from, now)
    ensures GetsOnly(all, from) ==> GetsOnly(first, from) && GetsOnly(all, |first|) && mid == base
  {
    OutOfDateWithin(base, mid, a, routes);
    ConfinedThen(first, all, from, base, mid, now, a, OutOfDateIn(mid, routes), a + OutOfDateIn(base, routes));
    AgreeOutsideMore(now, mid, OutOfDateIn(mid, routes), IdSet(routes));
    forall id | id in stale ensures Reported(all, from, id) || !HasId(now, id) {
      ReportedSplits(first, all, from, id);
      SameOutside(now, mid, IdSet(routes), id);
    }
    if GetsOnly(all, from) { SplitGets(first, all, from); }
  }

  /** Upserts confined to a, then deletions. */
  lemma JoinClearing(first: seq<Step>, all: seq<Step>, from: nat, base: seq<Live>, mid: seq<Live>, now: seq<Live>,
                     a: iset<string>, stale: iset<string>)
    requires first <= all && from <= |first|
    requires Confined(first, from, base, mid, a) && Confined(all, |first|, mid, now, LiveAmong(mid, stale))
    requires GoneOrReported(stale, all, |first|, now)
    ensures Confined(all, from, base, now, a + LiveAmong(base, stale)) && GoneOrReported(stale, all, from, now)
    ensures NoneReported(all, from) <==> NoneReported(first, from) && NoneReported(all, |first|)
    ensures GetsOnly(all, from) ==> GetsOnly(first, from)
    ensures GetsOnly(all, from) && now == Except(mid, stale) ==> LiveAmong(base, stale) == iset{}
  {
    LiveAmongWithin(base, mid, a, stale);
    ConfinedThen(first, all, from, base, mid, now, a, LiveAmong(mid, stale), a + LiveAmong(base, stale));
    NoneReportedThen(first, all, from);
    forall id | id in stale ensures Reported(all, |first|, id) ==> Reported(all, from, id) {
      ReportedSplits(first, all, from, id);
    }
    if GetsOnly(all, from) {
      SplitGets(first, all, from);
      if now == Except(mid, stale) { NothingToRemove(base, stale); }
    }
  }

  /** What holds once the first i of the ids were deleted, or their deletions reported an error. */
  ghost predicate Deleting(trace: seq<Step>, from: nat, base: seq<Live>, now: seq<Live>, ids: seq<string>, i: nat)
    requires i <= |ids|
  {
    && from <= |trace|
    && Confined(trace, from, base, now, LiveAmong(base, SeqSet(ids)))
    && Concerns(trace, from, SeqSet(ids))
    && GoneOrReported(SeqSet(ids[..i]), trace, from, now)
  }

  ghost predicate AllDeleted(trace: seq<Step>, from: nat, base: seq<Live>, now: seq<Live>, ids: seq<string>, i: nat)
    requires i <= |ids|
  {
    now == Except(base, SeqSet(ids[..i])) && NoneReported(trace, from)
  }

  lemma DeletingStarts(trace: seq<Step>, base: seq<Live>, ids: seq<string>)
    ensures Deleting(trace, |trace|, base, base, ids, 0) && AllDeleted(trace, |trace|, base, base, ids, 0)
  {
    ExceptNothing(base, SeqSet(ids[..0]));
  }

  lemma DeletingNext(first: seq<Step>, all: seq<Step>, from: nat, base: seq<Live>, mid: seq<Live>, now: seq<Live>,
                     ids: seq<string>, i: nat)
    requires i < |ids| && first <= all && Deleting(first, from, base, mid, ids, i)
    requires Confined(all, |first|, mid, now, LiveAmong(mid, iset{ids[i]})) && Concerns(all, |first|, iset{ids[i]})
    requires now == mid || now == Removed(mid, ids[i])
    requires Reported(all, |first|, ids[i]) || now == Removed(mid, ids[i])
    ensures Deleting(all, from, base, now, ids, i + 1)
  {
    var among := LiveAmong(base, SeqSet(ids));
    LiveAmongShrinks(base, mid, ids, ids[i]);
    ConfinedThen(first, all, from, base, mid, now, among, LiveAmong(mid, iset{ids[i]}), among);
    ConcernsThen(first, all, from, iset{ids[i]}, SeqSet(ids));
    RemovedStaysRemoved(mid, now, ids[i]);
    OneMoreGone(ids, i, first, all, from, mid, now);
  }

  lemma AllDeletedNext(first: seq<Step>, all: seq<Step>, from: nat, base: seq<Live>, mid: seq<Live>, now: seq<Live>,
                       ids: seq<string>, i: nat)
    requires i < |ids| && first <= all && from <= |first| && Concerns(all, |first|, iset{ids[i]})
    requires now == Removed(mid, ids[i]) && !Reported(all, |first|, ids[i])
    ensures AllDeleted(first, from, base, mid, ids, i) ==> AllDeleted(all, from, base, now, ids, i + 1)
  {
    ExceptOneMore(base, ids, i);
    StillNoneReported(first, all, from, ids[i]);
  }

  ghost predicate NoneAppeared(before: seq<Live>, after: seq<Live>) {
    forall id :: !HasId(before, id) ==> !HasId(after, id)
  }

  lemma OneMoreGone(ids: seq<string>, i: nat, first: seq<Step>, all: seq<Step>, from: nat, before: seq<Live>,
                    after: seq<Live>)
    requires i < |ids| && first <= all && from <= |first|
    requires GoneOrReported(SeqSet(ids[..i]), first, from, before) && NoneAppeared(before, after)
    requires Reported(all, |first|, ids[i]) || !HasId(after, ids[i])
    ensures GoneOrReported(SeqSet(ids[..i + 1]), all, from, after)
  {
    assert ids[..i + 1] == ids[..i] + [ids[i]];
    forall id | id in ids[..i + 1] ensures Reported(all, from, id) || !HasId(after, id) {
      ReportedSplits(first, all, from, id);
    }
  }

  lemma NothingToRemove(c: seq<Live>, ids: iset<string>)
    requires Except(c, ids) == c
    ensures LiveAmong(c, ids) == iset{}
  {
    forall id | id in ids ensures !HasId(c, id) { LookupExcept(c, ids, id); }
  }

  lemma ExceptOneMore(c: seq<Live>, ids: seq<string>, i: nat)
    requires i < |ids|
    ensures Removed(Except(c, SeqSet(ids[..i])), ids[i]) == Except(c, SeqSet(ids[..i + 1]))
  {
    ExceptTwice(c, SeqSet(ids[..i]), iset{ids[i]});
    assert ids[..i + 1] == ids[..i] + [ids[i]];
    assert SeqSet(ids[..i]) + iset{ids[i]} == SeqSet(ids[..i + 1]);
  }

  lemma LiveAmongShrinks(base: seq<Live>, mid: seq<Live>, ids: seq<string>, id: string)
    requires id in ids
    requires var among := LiveAmong(base, SeqSet(ids)); Except(mid, among) == Except(base, among)
    ensures LiveAmong(mid, iset{id}) <= LiveAmong(base, SeqSet(ids))
  {
    var among := LiveAmong(base, SeqSet(ids));
    if id !in among { SameOutside(mid, base, among, id); }
  }

  lemma RemovedStaysRemoved(mid: seq<Live>, now: seq<Live>, id: string)
    requires now == mid || now == Removed(mid, id)
    ensures now == Removed(mid, id) ==> !HasId(now, id)
    ensures NoneAppeared(mid, now)
  {
    forall other ensures !HasId(mid, other) ==> !HasId(now, other) { LookupExcept(mid, iset{id}, other); }
    LookupExcept(mid, iset{id}, id);
  }
}
