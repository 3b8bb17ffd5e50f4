/** Fault-free runs: whatever a restart found, after any run of events the live compiled routes
    are those of each mentioned key's latest event and, for all other keys, those of the start. */
module Convergence {
  import opened Strings
  import opened Routes
  import opened LiveConfig
  import opened Admin
  import opened SyncSpec

  lemma RedirectedProperties(c: seq<Live>, names: Names, redirects: seq<CaddyRoute>)
    requires UniqueIds(c)
    ensures UniqueIds(Redirected(c, names, redirects))
    ensures Except(Redirected(c, names, redirects), IdSet(redirects)) == Except(c, IdSet(redirects))
  {
    if names.http != "" { UpsertAllProperties(c, names.http, redirects); }
  }

  lemma ApplyKeepsUnique(s: AppState, names: Names, e: Event)
    requires UniqueIds(s.live)
    ensures UniqueIds(Apply(s, names, e).live)
  {
    match e
    case Add(key, redirects, routes, plain) =>
      RedirectedProperties(s.live, names, redirects);
      UniqueExcept(Redirected(s.live, names, redirects), Stale(Owned(s.routeIDs, key), routes));
      UpsertAllProperties(Except(Redirected(s.live, names, redirects), Stale(Owned(s.routeIDs, key), routes)),
                          if plain then names.http else names.https, routes);
    case Ignored =>
    case Delete(key) => UniqueExcept(s.live, SeqSet(Owned(s.routeIDs, key)));
  }

  // ---------- runs ----------

  ghost function Run(s: AppState, names: Names, evs: seq<Event>): AppState {
    if evs == [] then s else Apply(Run(s, names, evs[..|evs| - 1]), names, evs[|evs| - 1])
  }

  predicate About(e: Event, key: string) { !e.Ignored? && e.key == key }

  /** The routes of the key's latest event that was not ignored: none after a delete. */
  function Latest(evs: seq<Event>, key: string): Option<seq<CaddyRoute>> {
    if evs == [] then None
    else
      var e := evs[|evs| - 1];
      if !About(e, key) then Latest(evs[..|evs| - 1], key)
      else if e.Add? then Some(e.routes) else None
  }

  predicate Mentioned(evs: seq<Event>, key: string) { exists e :: e in evs && About(e, key) }

  function FindRoute(rs: seq<CaddyRoute>, id: string): Option<CaddyRoute> {
    if rs == [] then None else if rs[0].id == id then Some(rs[0]) else FindRoute(rs[1..], id)
  }

  /** The content a key's latest event asks for under an id. */
  function Wanted(evs: seq<Event>, key: string, id: string): Option<CaddyRoute> {
    match Latest(evs, key)
    case None => None
    case Some(routes) => FindRoute(routes, id)
  }

  function Content(c: seq<Live>, id: string): Option<CaddyRoute> {
    match Lookup(c, id)
    case None => None
    case Some(e) => Some(e.route)
  }

  ghost function Managed(tag: string -> Tag): iset<string> { iset id | tag(id) != Foreign }

  /** Events whose ids are their own, whose routes are coherent, and whose server is known. */
  predicate GoodEvent(tag: string -> Tag, names: Names, e: Event) {
    WellTagged(tag, e) && (e.Add? ==> Coherent(e.routes) && !Skips(names, e.plain))
  }

  // ---------- what a run leaves ----------

  function Entry(m: map<string, seq<string>>, key: string): Option<seq<string>> {
    if key in m then Some(m[key]) else None
  }

  /** A key's entry after a run: its latest event's, or the one it started with. */
  function EntryAfter(m: map<string, seq<string>>, evs: seq<Event>, key: string): Option<seq<string>> {
    if !Mentioned(evs, key) then Entry(m, key)
    else
      match Latest(evs, key)
      case None => None
      case Some(routes) => Some(Ids(routes))
  }

  ghost predicate Asks(e: Event, key: string, id: string) { e.Add? && e.key == key && id in IdSet(e.routes) }

  /** The id was listed for the key at the start, or some event of the run asked for it. */
  ghost predicate Known(m: map<string, seq<string>>, evs: seq<Event>, key: string, id: string) {
    id in Owned(m, key) || exists e :: e in evs && Asks(e, key, id)
  }

  /** The content a run leaves under an id of the key. */
  ghost function ContentAfter(start: AppState, evs: seq<Event>, key: string, id: string): Option<CaddyRoute> {
    if !Mentioned(evs, key) then Content(start.live, id)
    else if Wanted(evs, key, id).Some? then Wanted(evs, key, id)
    else if Known(start.routeIDs, evs, key, id) then None
    else Content(start.live, id)
  }

  ghost predicate Converged(tag: string -> Tag, start: AppState, s: AppState, evs: seq<Event>) {
    && UniqueIds(s.live)
    && (forall k :: Entry(s.routeIDs, k) == EntryAfter(start.routeIDs, evs, k))
    && (forall k :: Entry(s.store, k) == EntryAfter(start.store, evs, k))
    && (forall id :: tag(id).RouteOf? ==> Content(s.live, id) == ContentAfter(start, evs, tag(id).key, id))
    && Except(s.live, Managed(tag)) == Except(start.live, Managed(tag))
  }

  lemma {:induction false} FindRouteMeaning(rs: seq<CaddyRoute>, id: string)
    ensures FindRoute(rs, id).Some? <==> id in IdSet(rs)
    ensures FindRoute(rs, id).Some? ==> FindRoute(rs, id).value in rs && FindRoute(rs, id).value.id == id
  {
    if rs != [] {
      FindRouteMeaning(rs[1..], id);
      assert rs[0] in rs;
      assert forall r :: r in rs <==> r == rs[0] || r in rs[1..];
    }
  }

  lemma {:induction false} LatestComesFromAnEvent(evs: seq<Event>, key: string) returns (e: Event)
    requires Latest(evs, key).Some?
    ensures e in evs && e.Add? && e.key == key && e.routes == Latest(evs, key).value
  {
    var last := evs[|evs| - 1];
    if About(last, key) { e := last; } else { e := LatestComesFromAnEvent(evs[..|evs| - 1], key); }
  }

  lemma LatestAfter(evs: seq<Event>, e: Event, key: string)
    ensures Latest(evs + [e], key)
         == if !About(e, key) then Latest(evs, key) else if e.Add? then Some(e.routes) else None
  {
    assert (evs + [e])[..|evs|] == evs;
  }

  lemma MentionedAfter(evs: seq<Event>, e: Event, key: string)
    ensures Mentioned(evs + [e], key) <==> Mentioned(evs, key) || About(e, key)
  {
    assert e in evs + [e];
    assert forall d :: d in evs + [e] <==> d in evs || d == e;
  }

  lemma KnownAfter(m: map<string, seq<string>>, evs: seq<Event>, e: Event, key: string, id: string)
    ensures Known(m, evs + [e], key, id) <==> Known(m, evs, key, id) || Asks(e, key, id)
  {
    assert e in evs + [e];
    assert forall d :: d in evs + [e] <==> d in evs || d == e;
  }

  /** What a key owns is known; once the key was mentioned, it is what the latest event wants. */
  lemma OwnedMeans(m: map<string, seq<string>>, start: map<string, seq<string>>, evs: seq<Event>, key: string,
                   id: string)
    requires Entry(m, key) == EntryAfter(start, evs, key)
    ensures id in Owned(m, key) ==> Known(start, evs, key, id)
    ensures Wanted(evs, key, id).Some? ==> Mentioned(evs, key) && id in Owned(m, key)
    ensures Mentioned(evs, key) && id in Owned(m, key) ==> Wanted(evs, key, id).Some?
    ensures !Mentioned(evs, key) ==> (id in Owned(m, key) <==> Known(start, evs, key, id))
  {
    if Latest(evs, key).Some? {
      var e := LatestComesFromAnEvent(evs, key);
      assert About(e, key);
      IdIsListed(e.routes, id);
      FindRouteMeaning(e.routes, id);
      if id in IdSet(e.routes) { assert Asks(e, key, id); }
    }
    if !Mentioned(evs, key) {
      forall e | e in evs ensures !Asks(e, key, id) { assert !About(e, key); }
    }
  }

  lemma OwnershipIsTagged(tag: string -> Tag, names: Names, m: map<string, seq<string>>,
                          start: map<string, seq<string>>, evs: seq<Event>)
    requires OwnsTagged(tag, start) && forall k :: Entry(m, k) == EntryAfter(start, evs, k)
    requires forall e :: e in evs ==> GoodEvent(tag, names, e)
    ensures OwnsTagged(tag, m)
  {
    forall k, id | k in m && id in m[k] ensures tag(id) == RouteOf(k) {
      assert Entry(m, k) == EntryAfter(start, evs, k);
      OwnedMeans(m, start, evs, k, id);
      if e :| e in evs && Asks(e, k, id) {
        assert GoodEvent(tag, names, e);
      } else {
        assert id in Owned(start, k) && k in start;
      }
    }
  }

  /** What an add does to one id: written when it is among the routes, removed when stale,
      otherwise left alone. */
  lemma AddEffect(tag: string -> Tag, s: AppState, names: Names, e: Event, id: string)
    requires e.Add? && GoodEvent(tag, names, e) && UniqueIds(s.live) && OwnsTagged(tag, s.routeIDs)
    requires !tag(id).RedirectOf?
    ensures Content(Apply(s, names, e).live, id)
         == if id in IdSet(e.routes) then FindRoute(e.routes, id)
            else if id in Stale(Owned(s.routeIDs, e.key), e.routes) then None
            else Content(s.live, id)
  {
    var stale := Stale(Owned(s.routeIDs, e.key), e.routes);
    var redirected := Redirected(s.live, names, e.redirects);
    var cleaned := Except(redirected, stale);
    var server := if e.plain then names.http else names.https;
    RedirectedProperties(s.live, names, e.redirects);
    UniqueExcept(redirected, stale);
    UpsertAllProperties(cleaned, server, e.routes);
    if id in IdSet(e.routes) {
      UpsertAllEstablishes(cleaned, server, e.routes);
      FindRouteMeaning(e.routes, id);
    } else {
      SameOutside(UpsertAll(cleaned, server, e.routes), cleaned, IdSet(e.routes), id);
      LookupExcept(redirected, stale, id);
      SameOutside(redirected, s.live, IdSet(e.redirects), id);
    }
  }

  lemma AddKeepsForeign(tag: string -> Tag, s: AppState, names: Names, e: Event)
    requires e.Add? && GoodEvent(tag, names, e) && UniqueIds(s.live) && OwnsTagged(tag, s.routeIDs)
    ensures Except(Apply(s, names, e).live, Managed(tag)) == Except(s.live, Managed(tag))
  {
    var stale := Stale(Owned(s.routeIDs, e.key), e.routes);
    var redirected := Redirected(s.live, names, e.redirects);
    var server := if e.plain then names.http else names.https;
    RedirectedProperties(s.live, names, e.redirects);
    UniqueExcept(redirected, stale);
    UpsertAllProperties(Except(redirected, stale), server, e.routes);
    AgreeOutsideMore(redirected, s.live, IdSet(e.redirects), Managed(tag));
    ExceptTwice(redirected, stale, Managed(tag));
    assert stale + Managed(tag) == Managed(tag);
    AgreeOutsideMore(UpsertAll(Except(redirected, stale), server, e.routes), Except(redirected, stale),
                     IdSet(e.routes), Managed(tag));
  }

  lemma EntriesAfterAdd(m: map<string, seq<string>>, start: map<string, seq<string>>, evs: seq<Event>, e: Event)
    requires e.Add? && forall k :: Entry(m, k) == EntryAfter(start, evs, k)
    ensures forall k :: Entry(m[e.key := Ids(e.routes)], k) == EntryAfter(start, evs + [e], k)
  {
    forall k ensures Entry(m[e.key := Ids(e.routes)], k) == EntryAfter(start, evs + [e], k) {
      assert Entry(m, k) == EntryAfter(start, evs, k);
      LatestAfter(evs, e, k);
      MentionedAfter(evs, e, k);
    }
  }

  lemma EntriesAfterDelete(m: map<string, seq<string>>, start: map<string, seq<string>>, evs: seq<Event>, e: Event)
    requires e.Delete? && forall k :: Entry(m, k) == EntryAfter(start, evs, k)
    ensures forall k :: Entry(m - {e.key}, k) == EntryAfter(start, evs + [e], k)
  {
    forall k ensures Entry(m - {e.key}, k) == EntryAfter(start, evs + [e], k) {
      assert Entry(m, k) == EntryAfter(start, evs, k);
      LatestAfter(evs, e, k);
      MentionedAfter(evs, e, k);
    }
  }

  lemma AddConverges(tag: string -> Tag, names: Names, start: AppState, s: AppState, evs: seq<Event>, e: Event)
    requires e.Add? && GoodEvent(tag, names, e)
    requires Converged(tag, start, s, evs) && OwnsTagged(tag, s.routeIDs)
    ensures Converged(tag, start, Apply(s, names, e), evs + [e])
  {
    var t := Apply(s, names, e);
    ApplyKeepsUnique(s, names, e);
    AddKeepsForeign(tag, s, names, e);
    EntriesAfterAdd(s.routeIDs, start.routeIDs, evs, e);
    EntriesAfterAdd(s.store, start.store, evs, e);
    forall id | tag(id).RouteOf? ensures Content(t.live, id) == ContentAfter(start, evs + [e], tag(id).key, id) {
      var key := tag(id).key;
      assert Entry(s.routeIDs, key) == EntryAfter(start.routeIDs, evs, key);
      AddEffect(tag, s, names, e, id);
      LatestAfter(evs, e, key);
      MentionedAfter(evs, e, key);
      KnownAfter(start.routeIDs, evs, e, key, id);
      OwnedMeans(s.routeIDs, start.routeIDs, evs, key, id);
      FindRouteMeaning(e.routes, id);
    }
  }

  lemma DeleteConverges(tag: string -> Tag, names: Names, start: AppState, s: AppState, evs: seq<Event>, e: Event)
    requires e.Delete?
    requires Converged(tag, start, s, evs) && OwnsTagged(tag, s.routeIDs)
    ensures Converged(tag, start, Apply(s, names, e), evs + [e])
  {
    var t, ids := Apply(s, names, e), SeqSet(Owned(s.routeIDs, e.key));
    UniqueExcept(s.live, ids);
    ExceptTwice(s.live, ids, Managed(tag));
    assert ids + Managed(tag) == Managed(tag);
    EntriesAfterDelete(s.routeIDs, start.routeIDs, evs, e);
    EntriesAfterDelete(s.store, start.store, evs, e);
    forall id | tag(id).RouteOf? ensures Content(t.live, id) == ContentAfter(start, evs + [e], tag(id).key, id) {
      var key := tag(id).key;
      assert Entry(s.routeIDs, key) == EntryAfter(start.routeIDs, evs, key);
      LookupExcept(s.live, ids, id);
      LatestAfter(evs, e, key);
      MentionedAfter(evs, e, key);
      KnownAfter(start.routeIDs, evs, e, key, id);
      OwnedMeans(s.routeIDs, start.routeIDs, evs, key, id);
    }
  }

  lemma IgnoredConverges(tag: string -> Tag, start: AppState, s: AppState, evs: seq<Event>, e: Event)
    requires e.Ignored? && Converged(tag, start, s, evs)
    ensures Converged(tag, start, s, evs + [e])
  {
    forall k ensures Latest(evs + [e], k) == Latest(evs, k) && Mentioned(evs + [e], k) == Mentioned(evs, k) {
      LatestAfter(evs, e, k);
      MentionedAfter(evs, e, k);
    }
    forall k ensures EntryAfter(start.routeIDs, evs + [e], k) == EntryAfter(start.routeIDs, evs, k) {}
    forall k ensures EntryAfter(start.store, evs + [e], k) == EntryAfter(start.store, evs, k) {}
    forall id | tag(id).RouteOf?
      ensures ContentAfter(start, evs + [e], tag(id).key, id) == ContentAfter(start, evs, tag(id).key, id)
    {
      KnownAfter(start.routeIDs, evs, e, tag(id).key, id);
    }
  }

  /** Whole-run convergence, from whatever a restart found: any fault-free run of adds, updates
      and deletes ends with exactly the routes of each mentioned key's latest event live under
      their ids, all other keys as they were, ownership and store following suit, and every route
      the module did not make in its place. */
  lemma {:induction false} RunsConverge(tag: string -> Tag, names: Names, start: AppState, evs: seq<Event>)
    requires UniqueIds(start.live) && OwnsTagged(tag, start.routeIDs)
    requires forall e :: e in evs ==> GoodEvent(tag, names, e)
    ensures Converged(tag, start, Run(start, names, evs), evs)
    ensures OwnsTagged(tag, Run(start, names, evs).routeIDs)
  {
    if evs != [] {
      var before, e := evs[..|evs| - 1], evs[|evs| - 1];
      assert evs == before + [e] && e in evs;
      RunsConverge(tag, names, start, before);
      var s := Run(start, names, before);
      match e
      case Add(_, _, _, _) => AddConverges(tag, names, start, s, before, e);
      case Delete(_) => DeleteConverges(tag, names, start, s, before, e);
      case Ignored => IgnoredConverges(tag, start, s, before, e);
    }
    OwnershipIsTagged(tag, names, Run(start, names, evs).routeIDs, start.routeIDs, evs);
  }

  /** Every live compiled route is listed under its own key. */
  ghost predicate Listed(tag: string -> Tag, s: AppState) {
    forall id :: tag(id).RouteOf? && HasId(s.live, id) ==> id in Owned(s.routeIDs, tag(id).key)
  }

  /** From a state that lists its routes, a mentioned key ends with exactly what its latest event
      wants, and the state lists its routes again, ready for the next restart. */
  lemma ListedRunsConverge(tag: string -> Tag, names: Names, start: AppState, evs: seq<Event>)
    requires UniqueIds(start.live) && OwnsTagged(tag, start.routeIDs) && Listed(tag, start) &&
             start.store == start.routeIDs
    requires forall e :: e in evs ==> GoodEvent(tag, names, e)
    ensures var s := Run(start, names, evs);
      && Listed(tag, s) && s.store == s.routeIDs
      && forall id :: tag(id).RouteOf? ==>
           Content(s.live, id) == if Mentioned(evs, tag(id).key) then Wanted(evs, tag(id).key, id)
               else Content(start.live, id)
  {
    RunsConverge(tag, names, start, evs);
    var s := Run(start, names, evs);
    forall id | tag(id).RouteOf?
      ensures Content(s.live, id) == if Mentioned(evs, tag(id).key) then Wanted(evs, tag(id).key, id)
                else Content(start.live, id)
      ensures HasId(s.live, id) ==> id in Owned(s.routeIDs, tag(id).key)
    {
      var key := tag(id).key;
      assert Entry(s.routeIDs, key) == EntryAfter(start.routeIDs, evs, key);
      OwnedMeans(s.routeIDs, start.routeIDs, evs, key, id);
    }
    SameEntries(s.store, s.routeIDs);
  }

  lemma SameEntries(m: map<string, seq<string>>, n: map<string, seq<string>>)
    requires forall k :: Entry(m, k) == Entry(n, k)
    ensures m == n
  {
    assert forall k :: k in m <==> Entry(m, k).Some?;
    assert forall k :: k in n <==> Entry(n, k).Some?;
    assert forall k :: k in m ==> m[k] == Entry(m, k).value == n[k];
  }

  /** A restored route that no event asks for is cleaned up if and only if some event is about
      its Ingress: the promise that routes of Ingresses deleted while Caddy was down are removed
      holds for no other key. */
  lemma LeftoverIsCleanedIffMentioned(tag: string -> Tag, names: Names, start: AppState, evs: seq<Event>, key: string,
                                      id: string)
    requires UniqueIds(start.live) && OwnsTagged(tag, start.routeIDs)
    requires forall e :: e in evs ==> GoodEvent(tag, names, e)
    requires id in Owned(start.routeIDs, key) && HasId(start.live, id) && Wanted(evs, key, id) == None
    ensures !HasId(Run(start, names, evs).live, id) <==> Mentioned(evs, key)
    ensures !Mentioned(evs, key) ==> id in Owned(Run(start, names, evs).routeIDs, key)
  {
    RunsConverge(tag, names, start, evs);
    var s := Run(start, names, evs);
    assert tag(id) == RouteOf(key);
    assert Content(s.live, id) == ContentAfter(start, evs, key, id);
    assert Entry(s.routeIDs, key) == EntryAfter(start.routeIDs, evs, key);
  }
}
