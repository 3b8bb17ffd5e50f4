/** Every complete fault-free schedule ends in the state of a serial run: the handlers one after
    another, in the order in which they released their locks. */
module Serial {
  import opened Strings
  import opened Routes
  import opened LiveConfig
  import opened Admin
  import opened SyncSpec
  import opened Convergence
  import opened Interleaving

  // ---------- one key's share of the state ----------

  /** The key's live routes in order, and its entries in the ownership map and the store. */
  datatype View = View(live: seq<Live>, owned: Option<seq<string>>, stored: Option<seq<string>>)

  function IdsIn(entry: Option<seq<string>>): seq<string> { if entry.Some? then entry.value else [] }

  ghost function OtherIds(tag: string -> Tag, key: string): iset<string> { iset id | id !in KeyIds(tag, key) }

  ghost function Only(c: seq<Live>, tag: string -> Tag, key: string): seq<Live> { Except(c, OtherIds(tag, key)) }

  ghost function ViewOf(s: AppState, tag: string -> Tag, key: string): View {
    View(Only(s.live, tag, key), Entry(s.routeIDs, key), Entry(s.store, key))
  }

  ghost function StateOf(s: Sys): AppState { AppState(s.live, s.routeIDs, s.store) }

  lemma OnlyExcept(c: seq<Live>, tag: string -> Tag, key: string, ids: iset<string>)
    ensures Only(Except(c, ids), tag, key) == Except(Only(c, tag, key), ids)
  {
    ExceptTwice(c, ids, OtherIds(tag, key));
    ExceptTwice(c, OtherIds(tag, key), ids);
    assert ids + OtherIds(tag, key) == OtherIds(tag, key) + ids;
  }

  lemma OnlyLookup(c: seq<Live>, tag: string -> Tag, key: string, id: string)
    requires id in KeyIds(tag, key)
    ensures Lookup(Only(c, tag, key), id) == Lookup(c, id)
    ensures HasId(Only(c, tag, key), id) == HasId(c, id)
  {
    LookupExcept(c, OtherIds(tag, key), id);
  }

  lemma OnlyUpserted(c: seq<Live>, tag: string -> Tag, key: string, server: string, r: CaddyRoute)
    requires r.id in KeyIds(tag, key)
    ensures Only(Upserted(c, server, r), tag, key) == Upserted(Only(c, tag, key), server, r)
  {
    OnlyLookup(c, tag, key, r.id);
    OnlyExcept(c, tag, key, iset{r.id});
    ExceptAppend(Removed(c, r.id), [Live(server, r)], OtherIds(tag, key));
    assert Except([Live(server, r)], OtherIds(tag, key)) == [Live(server, r)];
  }

  lemma {:induction false} OnlyUpsertAll(c: seq<Live>, tag: string -> Tag, key: string, server: string,
                                         rs: seq<CaddyRoute>)
    requires forall r :: r in rs ==> r.id in KeyIds(tag, key)
    ensures Only(UpsertAll(c, server, rs), tag, key) == UpsertAll(Only(c, tag, key), server, rs)
    decreases rs
  {
    if rs != [] {
      assert rs[0] in rs;
      OnlyUpserted(c, tag, key, server, rs[0]);
      OnlyUpsertAll(Upserted(c, server, rs[0]), tag, key, server, rs[1..]);
    }
  }

  /** Changes to one key's ids leave another key's share alone. */
  lemma OtherKeysShare(c: seq<Live>, d: seq<Live>, tag: string -> Tag, key: string, other: string)
    requires Except(d, KeyIds(tag, key)) == Except(c, KeyIds(tag, key)) && key != other
    ensures Only(d, tag, other) == Only(c, tag, other)
  {
    AgreeOutsideMore(d, c, KeyIds(tag, key), OtherIds(tag, other));
  }

  // ---------- a handler on one key's share ----------

  ghost function ApplyView(v: View, names: Names, e: Event): View {
    match e
    case Add(_, redirects, routes, plain) =>
      var cleaned := Except(Redirected(v.live, names, redirects), Stale(IdsIn(v.owned), routes));
      if Skips(names, plain) then v.(live := cleaned)
      else View(UpsertAll(cleaned, Target(names, e), routes), Some(Ids(routes)), Some(Ids(routes)))
    case Ignored => v
    case Delete(_) => View(Except(v.live, SeqSet(IdsIn(v.owned))), None, None)
  }

  lemma ApplyOnItsKey(s: AppState, tag: string -> Tag, names: Names, e: Event)
    requires !e.Ignored? && WellTagged(tag, e)
    ensures ViewOf(Apply(s, names, e), tag, e.key) == ApplyView(ViewOf(s, tag, e.key), names, e)
  {
    match e
    case Add(key, redirects, routes, plain) =>
      var redirected, stale := Redirected(s.live, names, redirects), Stale(Owned(s.routeIDs, key), routes);
      OnlyUpsertAll(s.live, tag, key, names.http, redirects);
      OnlyExcept(redirected, tag, key, stale);
      OnlyUpsertAll(Except(redirected, stale), tag, key, Target(names, e), routes);
    case Delete(key) => OnlyExcept(s.live, tag, key, SeqSet(Owned(s.routeIDs, key)));
  }

  lemma {:induction false} UpsertAllOnlyIts(c: seq<Live>, server: string, rs: seq<CaddyRoute>, ids: iset<string>)
    requires forall r :: r in rs ==> r.id in ids
    ensures Except(UpsertAll(c, server, rs), ids) == Except(c, ids)
    decreases rs
  {
    if rs != [] {
      var r, d := rs[0], Upserted(c, server, rs[0]);
      assert r in rs;
      UpsertAllOnlyIts(d, server, rs[1..], ids);
      RemovalAgrees(c, c, r.id);
      AppendAgrees(Removed(c, r.id), c, Live(server, r));
      AgreeOutsideMore(d, c, iset{r.id}, ids);
    }
  }

  lemma ExceptWithin(c: seq<Live>, some: iset<string>, ids: iset<string>)
    requires some <= ids
    ensures Except(Except(c, some), ids) == Except(c, ids)
  {
    ExceptTwice(c, some, ids);
    assert some + ids == ids;
  }

  /** A handler touches only its key's ids and keeps the ownership map tagged. */
  lemma ApplyTouchesItsKey(s: AppState, tag: string -> Tag, names: Names, e: Event)
    requires !e.Ignored? && WellTagged(tag, e) && OwnsTagged(tag, s.routeIDs)
    ensures Except(Apply(s, names, e).live, KeyIds(tag, e.key)) == Except(s.live, KeyIds(tag, e.key))
    ensures OwnsTagged(tag, Apply(s, names, e).routeIDs)
  {
    var ids := KeyIds(tag, e.key);
    match e
    case Add(key, redirects, routes, plain) =>
      var redirected, stale := Redirected(s.live, names, redirects), Stale(Owned(s.routeIDs, key), routes);
      UpsertAllOnlyIts(s.live, names.http, redirects, ids);
      ExceptWithin(redirected, stale, ids);
      UpsertAllOnlyIts(Except(redirected, stale), Target(names, e), routes, ids);
      forall id | id in Ids(routes) ensures tag(id) == RouteOf(key) { IdIsListed(routes, id); }
    case Delete(key) => ExceptWithin(s.live, SeqSet(Owned(s.routeIDs, key)), ids);
  }

  lemma ApplyOffItsKey(s: AppState, tag: string -> Tag, names: Names, e: Event, other: string)
    requires !e.Ignored? && WellTagged(tag, e) && OwnsTagged(tag, s.routeIDs) && other != e.key
    ensures ViewOf(Apply(s, names, e), tag, other) == ViewOf(s, tag, other)
  {
    ApplyTouchesItsKey(s, tag, names, e);
    OtherKeysShare(s.live, Apply(s, names, e).live, tag, e.key, other);
  }

  /** A key no event is about keeps its entry and its routes through any fault-free run: what a
      restart restores for an Ingress deleted meanwhile is never cleaned up. */
  lemma {:induction false} UnmentionedKeyKeepsItsRoutes(s: AppState, tag: string -> Tag, names: Names,
                                                        evs: seq<Event>, key: string)
    requires OwnsTagged(tag, s.routeIDs)
    requires forall e :: e in evs ==> WellTagged(tag, e) && !About(e, key)
    ensures OwnsTagged(tag, Run(s, names, evs).routeIDs)
    ensures ViewOf(Run(s, names, evs), tag, key) == ViewOf(s, tag, key)
  {
    if evs != [] {
      var before, e := evs[..|evs| - 1], evs[|evs| - 1];
      assert e in evs;
      UnmentionedKeyKeepsItsRoutes(s, tag, names, before, key);
      if !e.Ignored? {
        ApplyTouchesItsKey(Run(s, names, before), tag, names, e);
        ApplyOffItsKey(Run(s, names, before), tag, names, e, key);
      }
    }
  }

  // ---------- the rest of a running handler ----------

  ghost function AsISet(ids: set<string>): iset<string> { iset id | id in ids }

  ghost function PlaceAll(c: seq<Live>, names: Names, e: Event): seq<Live> {
    if e.Add? && !Skips(names, e.plain) then UpsertAll(c, Target(names, e), e.routes) else c
  }

  ghost function RemoveAndPlace(c: seq<Live>, owned: Option<seq<string>>, names: Names, e: Event): seq<Live> {
    PlaceAll(Except(c, AsISet(ToRemove(IdsIn(owned), e))), names, e)
  }

  /** The live routes a handler at pc leaves when nothing fails any more. */
  ghost function FinishLive(v: View, names: Names, e: Event, pc: Pc): seq<Live> {
    match pc
    case Waiting => RemoveAndPlace(if e.Add? then Redirected(v.live, names, e.redirects) else v.live, v.owned, names, e)
    case Redirecting(rs, _) => RemoveAndPlace(UpsertAll(v.live, names.http, rs), v.owned, names, e)
    case ReadingOwned => RemoveAndPlace(v.live, v.owned, names, e)
    case Removing(ids) => PlaceAll(Except(v.live, AsISet(ids)), names, e)
    case RemovingFound(ids, id) => PlaceAll(Except(v.live, AsISet(ids + {id})), names, e)
    case Placing(rs, _) => if e.Add? then UpsertAll(v.live, Target(names, e), rs) else v.live
    case _ => v.live
  }

  ghost function FinishOwned(v: View, names: Names, e: Event, pc: Pc): Option<seq<string>> {
    if pc.Saving? || pc.Finished? then v.owned
    else if !e.Add? then (if pc.Removing? || pc.RemovingFound? then v.owned else None)
    else if Skips(names, e.plain) then v.owned
    else Some(Ids(e.routes))
  }

  ghost function FinishStored(v: View, names: Names, e: Event, pc: Pc): Option<seq<string>> {
    if pc.Finished? then v.stored
    else if !e.Add? then None
    else if Skips(names, e.plain) then v.stored
    else Some(Ids(e.routes))
  }

  ghost function Finish(v: View, names: Names, e: Event, pc: Pc): View {
    View(FinishLive(v, names, e, pc), FinishOwned(v, names, e, pc), FinishStored(v, names, e, pc))
  }

  lemma ToRemoveIsStale(owned: seq<string>, e: Event)
    ensures e.Add? ==> AsISet(ToRemove(owned, e)) == Stale(owned, e.routes)
    ensures e.Delete? ==> AsISet(ToRemove(owned, e)) == SeqSet(owned)
  {
    if e.Add? { forall id ensures id in SetOf(Ids(e.routes)) <==> id in IdSet(e.routes) { IdIsListed(e.routes, id); } }
  }

  lemma FinishFromTheStart(v: View, names: Names, e: Event)
    requires !e.Ignored?
    ensures Finish(v, names, e, Waiting) == ApplyView(v, names, e)
    ensures Finish(v, names, e, StartPc(names, e)) == ApplyView(v, names, e)
  {
    ToRemoveIsStale(IdsIn(v.owned), e);
  }

  /** The call is served and no wait is cancelled. */
  predicate Undisturbed(a: Act) { a.fault == Fault.Served && !a.cancelled }

  /** A served upsert step keeps what the upsert is heading for. */
  lemma UpStepHeadsFor(c: seq<Live>, servers: set<string>, server: string, r: CaddyRoute, up: Up, a: Act)
    requires UpOk(c, r, up) && Undisturbed(a) && server in servers
    ensures var (d, next) := UpStep(c, servers, server, r, up, a);
      if next.Some? then Upserted(d, server, r) == Upserted(c, server, r) else d == Upserted(c, server, r)
  {
    LookupExcept(c, iset{r.id}, r.id);
    if !HasId(c, r.id) { ExceptNothing(c, iset{r.id}); }
    ExceptWithin(c, iset{r.id}, iset{r.id});
  }

  /** The same seen on one key's share, for the head of a list. */
  lemma UpStepHeadsForAll(tag: string -> Tag, key: string, c: seq<Live>, servers: set<string>, server: string,
                          rs: seq<CaddyRoute>, up: Up, a: Act)
    requires rs != [] && rs[0].id in KeyIds(tag, key) && UpOk(c, rs[0], up) && Undisturbed(a) && server in servers
    ensures var (d, next) := UpStep(c, servers, server, rs[0], up, a);
      UpsertAll(Only(d, tag, key), server, if next.Some? then rs
                else rs[1..]) == UpsertAll(Only(c, tag, key), server, rs)
  {
    var (d, next) := UpStep(c, servers, server, rs[0], up, a);
    UpStepHeadsFor(c, servers, server, rs[0], up, a);
    OnlyUpserted(c, tag, key, server, rs[0]);
    OnlyUpserted(d, tag, key, server, rs[0]);
  }

  ghost predicate Continues(tag: string -> Tag, names: Names, s: Sys, s': Sys, t: nat, e: Event)
    requires t < |s.threads| && t < |s'.threads| && !e.Ignored?
  {
    Finish(ViewOf(StateOf(s'), tag, e.key), names, e, s'.threads[t].pc)
    == Finish(ViewOf(StateOf(s), tag, e.key), names, e, s.threads[t].pc)
  }

  predicate ServersKnown(names: Names, servers: set<string>) {
    names.https in servers && (names.http == "" || names.http in servers)
  }

  /** One view stands for another while a list of upserts goes on from rs to rest. */
  lemma ListContinues(v: View, v': View, names: Names, e: Event, server: string, rs: seq<CaddyRoute>,
                      rest: seq<CaddyRoute>,
                      up: Up, up': Up)
    requires e.Add? && v'.owned == v.owned && v'.stored == v.stored
    requires UpsertAll(v'.live, server, rest) == UpsertAll(v.live, server, rs)
    ensures server == names.http ==>
      Finish(v', names, e, if rest == [] then ReadingOwned
             else Redirecting(rest, up')) == Finish(v, names, e, Redirecting(rs, up))
    ensures server == Target(names, e) ==>
      Finish(v', names, e, if rest == [] then Recording else Placing(rest, up')) == Finish(v, names, e, Placing(rs, up))
  {}

  lemma RedirectContinues(tag: string -> Tag, names: Names, servers: set<string>, s: Sys, a: Act, e: Event,
                          rs: seq<CaddyRoute>, up: Up)
    requires Stepping(tag, names, s, a.t, e) && s.threads[a.t].pc == Redirecting(rs, up) && Undisturbed(a) &&
             ServersKnown(names, servers)
    ensures Continues(tag, names, s, RedirectStep(s, names, servers, a, rs, up), a.t, e)
  {
    assert rs[0] in rs;
    UpStepHeadsForAll(tag, e.key, s.live, servers, names.http, rs, up, a);
    var next := UpStep(s.live, servers, names.http, rs[0], up, a).1;
    var s' := RedirectStep(s, names, servers, a, rs, up);
    ListContinues(ViewOf(StateOf(s), tag, e.key), ViewOf(StateOf(s'), tag, e.key), names, e, names.http, rs,
                  if next.Some? then rs else rs[1..], up, if next.Some? then next.value else AtGet(0));
  }

  lemma PlaceContinues(tag: string -> Tag, names: Names, servers: set<string>, s: Sys, a: Act, e: Event,
                       rs: seq<CaddyRoute>, up: Up)
    requires Stepping(tag, names, s, a.t, e) && s.threads[a.t].pc == Placing(rs, up) && Undisturbed(a) &&
             ServersKnown(names, servers)
    ensures Continues(tag, names, s, PlaceStep(s, names, servers, a, e, rs, up), a.t, e)
  {
    assert rs[0] in rs;
    UpStepHeadsForAll(tag, e.key, s.live, servers, Target(names, e), rs, up, a);
    var next := UpStep(s.live, servers, Target(names, e), rs[0], up, a).1;
    var s' := PlaceStep(s, names, servers, a, e, rs, up);
    ListContinues(ViewOf(StateOf(s), tag, e.key), ViewOf(StateOf(s'), tag, e.key), names, e, Target(names, e), rs,
                  if next.Some? then rs else rs[1..], up, if next.Some? then next.value else AtGet(0));
  }

  lemma ReadContinues(tag: string -> Tag, names: Names, s: Sys, t: nat, e: Event)
    requires Stepping(tag, names, s, t, e) && s.threads[t].pc == ReadingOwned
    ensures Continues(tag, names, s, ReadStep(s, t, e), t, e)
  {}

  lemma NothingLeftToRemove(v: View, names: Names, e: Event)
    requires !e.Ignored?
    ensures Finish(v, names, e, Removing({})) == Finish(v, names, e, AfterRemoving(names, e))
  {
    ExceptNothing(v.live, AsISet({}));
  }

  lemma AlreadyGone(v: View, names: Names, e: Event, ids: set<string>, id: string)
    requires id in ids && !HasId(v.live, id)
    ensures Finish(v, names, e, Removing(ids - {id})) == Finish(v, names, e, Removing(ids))
  {
    ExceptNothing(v.live, iset{id});
    ExceptTwice(v.live, iset{id}, AsISet(ids - {id}));
    assert iset{id} + AsISet(ids - {id}) == AsISet(ids);
  }

  lemma FoundToRemove(v: View, names: Names, e: Event, ids: set<string>, id: string)
    requires id in ids
    ensures Finish(v, names, e, RemovingFound(ids - {id}, id)) == Finish(v, names, e, Removing(ids))
  {
    assert (ids - {id}) + {id} == ids;
  }

  lemma RemoveContinues(tag: string -> Tag, names: Names, s: Sys, a: Act, e: Event, ids: set<string>)
    requires Stepping(tag, names, s, a.t, e) && s.threads[a.t].pc == Removing(ids) && Undisturbed(a)
    ensures Continues(tag, names, s, RemoveStep(s, names, a, e, ids), a.t, e)
  {
    var v := ViewOf(StateOf(s), tag, e.key);
    if ids == {} {
      NothingLeftToRemove(v, names, e);
    } else if a.pick in ids {
      OnlyLookup(s.live, tag, e.key, a.pick);
      if HasId(s.live, a.pick) {
        FoundToRemove(v, names, e, ids, a.pick);
      } else {
        AlreadyGone(v, names, e, ids, a.pick);
      }
    }
  }

  lemma DropContinues(tag: string -> Tag, names: Names, s: Sys, a: Act, e: Event, ids: set<string>, id: string)
    requires Stepping(tag, names, s, a.t, e) && s.threads[a.t].pc == RemovingFound(ids, id) && Undisturbed(a)
    ensures Continues(tag, names, s, DropStep(s, a, ids, id), a.t, e)
  {
    OnlyExcept(s.live, tag, e.key, iset{id});
    ExceptTwice(Only(s.live, tag, e.key), iset{id}, AsISet(ids));
    assert iset{id} + AsISet(ids) == AsISet(ids + {id});
  }

  lemma RecordContinues(tag: string -> Tag, names: Names, s: Sys, t: nat, e: Event)
    requires Stepping(tag, names, s, t, e) && s.threads[t].pc == Recording
    ensures Continues(tag, names, s, RecordStep(s, t, e), t, e)
  {}

  lemma SaveContinues(tag: string -> Tag, names: Names, s: Sys, a: Act, e: Event)
    requires Stepping(tag, names, s, a.t, e) && s.threads[a.t].pc == Saving && Undisturbed(a)
    ensures Continues(tag, names, s, SaveStep(s, a, e), a.t, e)
  {}

  lemma NextKeepsThreads(names: Names, servers: set<string>, s: Sys, a: Act)
    requires a.t < |s.threads| && !s.threads[a.t].event.Ignored?
    ensures |Next(s, names, servers, a).threads| == |s.threads|
  {
    StepMovesLock(names, servers, s, a);
  }

  /** Steps that call Caddy. */
  lemma CallContinues(tag: string -> Tag, names: Names, servers: set<string>, s: Sys, a: Act, e: Event, s': Sys)
    requires Stepping(tag, names, s, a.t, e) && Undisturbed(a) && ServersKnown(names, servers)
    requires var pc := s.threads[a.t].pc; pc.Redirecting? || pc.Removing? || pc.RemovingFound? || pc.Placing?
    requires s' == Next(s, names, servers, a) && |s'.threads| == |s.threads|
    ensures Continues(tag, names, s, s', a.t, e)
  {
    match s.threads[a.t].pc {
      case Redirecting(rs, up) => RedirectContinues(tag, names, servers, s, a, e, rs, up);
      case Removing(ids) => RemoveContinues(tag, names, s, a, e, ids);
      case RemovingFound(ids, id) => DropContinues(tag, names, s, a, e, ids, id);
      case Placing(rs, up) => PlaceContinues(tag, names, servers, s, a, e, rs, up);
    }
  }

  /** A served step of an active handler keeps what the handler is heading for. */
  lemma StepContinues(tag: string -> Tag, names: Names, servers: set<string>, s: Sys, a: Act, e: Event, s': Sys)
    requires Stepping(tag, names, s, a.t, e) && Active(s.threads[a.t].pc) && Undisturbed(a) &&
             ServersKnown(names, servers)
    requires s' == Next(s, names, servers, a) && |s'.threads| == |s.threads|
    ensures Continues(tag, names, s, s', a.t, e)
  {
    match s.threads[a.t].pc {
      case ReadingOwned => ReadContinues(tag, names, s, a.t, e);
      case Recording => RecordContinues(tag, names, s, a.t, e);
      case Saving => SaveContinues(tag, names, s, a, e);
      case _ => CallContinues(tag, names, servers, s, a, e, s');
    }
  }

  // ---------- the serial run so far ----------

  ghost predicate DoneIsSound(s: Sys) {
    && (forall d :: d in s.done ==> d < |s.threads|)
    && (forall i, j | 0 <= i < j < |s.done| :: s.done[i] != s.done[j])
    && (forall t | 0 <= t < |s.threads| :: t in s.done <==> s.threads[t].pc.Finished?)
  }

  ghost function DoneEvents(s: Sys): seq<Event>
    requires DoneIsSound(s)
  {
    seq(|s.done|, i requires 0 <= i < |s.done| => assert s.done[i] in s.done; s.threads[s.done[i]].event)
  }

  /** A free key's share is what the serial run made it; a locked key's share becomes, once its
      handler finishes, what that handler makes of the serial run's. */
  ghost predicate KeyAgrees(tag: string -> Tag, names: Names, s: Sys, q: AppState, key: string) {
    if key in s.locks && s.locks[key] < |s.threads| then
      var th := s.threads[s.locks[key]];
      Finish(ViewOf(StateOf(s), tag, key), names, th.event, th.pc) == ApplyView(ViewOf(q, tag, key), names, th.event)
    else ViewOf(StateOf(s), tag, key) == ViewOf(q, tag, key)
  }

  ghost predicate SerialSoFar(tag: string -> Tag, names: Names, start: AppState, s: Sys, q: AppState) {
    && DoneIsSound(s) && q == Run(start, names, DoneEvents(s))
    && OwnsTagged(tag, q.routeIDs)
    && Except(s.live, Managed(tag)) == Except(start.live, Managed(tag)) == Except(q.live, Managed(tag))
    && forall key :: KeyAgrees(tag, names, s, q, key)
  }

  ghost predicate MapsAgreeOff(s: Sys, s': Sys, other: string) {
    && Entry(s'.routeIDs, other) == Entry(s.routeIDs, other)
    && Entry(s'.store, other) == Entry(s.store, other)
    && (other in s'.locks <==> other in s.locks)
    && (other in s.locks ==> s'.locks[other] == s.locks[other])
  }

  lemma SaveChangesAtTheKey(s: Sys, a: Act, e: Event, other: string)
    requires a.t < |s.threads| && s.threads[a.t].event == e && !e.Ignored? && other != e.key
    ensures MapsAgreeOff(s, SaveStep(s, a, e), other)
  {}

  lemma RemoveChangesAtTheKey(s: Sys, names: Names, a: Act, e: Event, ids: set<string>, other: string)
    requires a.t < |s.threads| && s.threads[a.t].event == e && !e.Ignored? && other != e.key
    ensures MapsAgreeOff(s, RemoveStep(s, names, a, e, ids), other)
  {}

  lemma MapsChangeAtTheKey(names: Names, servers: set<string>, s: Sys, a: Act, e: Event, other: string)
    requires a.t < |s.threads| && s.threads[a.t].event == e && !e.Ignored? && other != e.key
    ensures MapsAgreeOff(s, Next(s, names, servers, a), other)
  {
    match s.threads[a.t].pc {
      case Saving => SaveChangesAtTheKey(s, a, e, other);
      case Removing(ids) => RemoveChangesAtTheKey(s, names, a, e, ids, other);
      case _ =>
    }
  }

  /** A thread enters done exactly when it releases its lock. */
  ghost predicate DoneMove(s: Sys, s': Sys, t: nat)
    requires t < |s.threads| && !s.threads[t].event.Ignored?
  {
    && |s'.threads| == |s.threads|
    && var pc, pc' := s.threads[t].pc, s'.threads[t].pc;
       if Active(pc) && pc'.Finished? then s'.done == s.done + [t] && s'.locks == s.locks - {s.threads[t].event.key}
       else s'.done == s.done && (pc'.Finished? <==> pc.Finished?)
  }

  lemma MovedIsDoneMove(s: Sys, s': Sys, t: nat, pc: Pc)
    requires t < |s.threads| && !s.threads[t].event.Ignored? && !pc.Finished? && !s.threads[t].pc.Finished?
    requires s'.threads == Moved(s, t, pc).threads && s'.done == s.done
    ensures DoneMove(s, s', t)
  {}

  lemma ReleaseIsDoneMove(s: Sys, r: Sys, t: nat)
    requires t < |s.threads| && !s.threads[t].event.Ignored? && Active(s.threads[t].pc)
    requires r.threads == s.threads && r.locks == s.locks && r.done == s.done
    ensures DoneMove(s, Release(r, t), t)
  {}

  lemma RemoveIsDoneMove(s: Sys, names: Names, a: Act, ids: set<string>)
    requires a.t < |s.threads| && !s.threads[a.t].event.Ignored? && s.threads[a.t].pc == Removing(ids)
    ensures DoneMove(s, RemoveStep(s, names, a, s.threads[a.t].event, ids), a.t)
  {
    if ids == {} && AfterRemoving(names, s.threads[a.t].event).Finished? { ReleaseIsDoneMove(s, s, a.t); }
  }

  lemma DoneGrowsOnRelease(names: Names, servers: set<string>, s: Sys, a: Act)
    requires a.t < |s.threads| && !s.threads[a.t].event.Ignored?
    ensures DoneMove(s, Next(s, names, servers, a), a.t)
  {
    var e, s' := s.threads[a.t].event, Next(s, names, servers, a);
    match s.threads[a.t].pc {
      case Waiting => if e.key !in s.locks { MovedIsDoneMove(s, s', a.t, StartPc(names, e)); }
      case Redirecting(rs, up) =>
        if rs != [] {
          MovedIsDoneMove(s, s', a.t, RedirectPc(rs, UpStep(s.live, servers, names.http, rs[0], up, a).1));
        }
      case ReadingOwned => MovedIsDoneMove(s, s', a.t, Removing(ToRemove(Owned(s.routeIDs, e.key), e)));
      case Removing(ids) => RemoveIsDoneMove(s, names, a, ids);
      case RemovingFound(ids, id) => MovedIsDoneMove(s, s', a.t, Removing(ids));
      case Placing(rs, up) =>
        if rs != [] && e.Add? {
          MovedIsDoneMove(s, s', a.t, PlacePc(rs, UpStep(s.live, servers, Target(names, e), rs[0], up, a).1));
        }
      case Recording => if e.Add? { MovedIsDoneMove(s, s', a.t, Saving); }
      case Saving => ReleaseIsDoneMove(s, s.(store := StoreCall(s.store, e, a.fault)), a.t);
      case Finished =>
    }
  }

  /** A step of one key's handler keeps every other key's agreement. */
  lemma OtherKeyAgrees(tag: string -> Tag, names: Names, servers: set<string>, s: Sys, a: Act, e: Event,
                       q: AppState, q': AppState, other: string)
    requires Safe(tag, names, s) && a.t < |s.threads| && s.threads[a.t].event == e && other != e.key
    requires ViewOf(q', tag, other) == ViewOf(q, tag, other) && KeyAgrees(tag, names, s, q, other)
    ensures KeyAgrees(tag, names, Next(s, names, servers, a), q', other)
  {
    var s' := Next(s, names, servers, a);
    OwnStep(tag, names, servers, s, a, e);
    StepMovesLock(names, servers, s, a);
    MapsChangeAtTheKey(names, servers, s, a, e, other);
    OtherKeysShare(s.live, s'.live, tag, e.key, other);
    assert ViewOf(StateOf(s'), tag, other) == ViewOf(StateOf(s), tag, other);
  }

  /** An active handler's step keeps its key's agreement; at the end it hands over. */
  lemma ActiveKeyAgrees(tag: string -> Tag, names: Names, servers: set<string>, s: Sys, a: Act, e: Event, q: AppState,
                        s': Sys)
    requires Safe(tag, names, s) && a.t < |s.threads| && s.threads[a.t].event == e && Active(s.threads[a.t].pc)
    requires Undisturbed(a) && ServersKnown(names, servers) && KeyAgrees(tag, names, s, q, e.key)
    requires s' == Next(s, names, servers, a) && |s'.threads| == |s.threads| && LockMove(s, s', a.t)
    ensures if s'.threads[a.t].pc.Finished? then ViewOf(StateOf(s'), tag, e.key)
              == ApplyView(ViewOf(q, tag, e.key), names, e)
            else KeyAgrees(tag, names, s', q, e.key)
  {
    StepContinues(tag, names, servers, s, a, e, s');
    var v, v', vq := ViewOf(StateOf(s), tag, e.key), ViewOf(StateOf(s'), tag, e.key), ViewOf(q, tag, e.key);
    assert Finish(v, names, e, s.threads[a.t].pc) == ApplyView(vq, names, e);
    HandsOver(v', names, e, s'.threads[a.t].pc, ApplyView(vq, names, e));
    if !s'.threads[a.t].pc.Finished? { assert s'.locks == s.locks; }
  }

  lemma HandsOver(v: View, names: Names, e: Event, pc: Pc, target: View)
    requires Finish(v, names, e, pc) == target
    ensures pc.Finished? ==> v == target
  {}

  /** Waiting for the lock, or taking it. */
  lemma IdleKeyAgrees(tag: string -> Tag, names: Names, servers: set<string>, s: Sys, a: Act, e: Event, q: AppState,
                      s': Sys)
    requires Safe(tag, names, s) && a.t < |s.threads| && s.threads[a.t].event == e && !Active(s.threads[a.t].pc)
    requires KeyAgrees(tag, names, s, q, e.key) && s' == Next(s, names, servers, a)
    ensures KeyAgrees(tag, names, s', q, e.key)
  {
    if s.threads[a.t].pc.Waiting? && e.key !in s.locks {
      FinishFromTheStart(ViewOf(q, tag, e.key), names, e);
    }
  }

  lemma OwnKeyAgrees(tag: string -> Tag, names: Names, servers: set<string>, s: Sys, a: Act, e: Event, q: AppState,
                     s': Sys)
    requires Safe(tag, names, s) && a.t < |s.threads| && s.threads[a.t].event == e
    requires Undisturbed(a) && ServersKnown(names, servers) && KeyAgrees(tag, names, s, q, e.key)
    requires s' == Next(s, names, servers, a) && |s'.threads| == |s.threads| && LockMove(s, s', a.t)
    ensures if Active(s.threads[a.t].pc) && s'.threads[a.t].pc.Finished? then
              ViewOf(StateOf(s'), tag, e.key) == ApplyView(ViewOf(q, tag, e.key), names, e)
            else KeyAgrees(tag, names, s', q, e.key)
  {
    if Active(s.threads[a.t].pc) {
      ActiveKeyAgrees(tag, names, servers, s, a, e, q, s');
    } else {
      IdleKeyAgrees(tag, names, servers, s, a, e, q, s');
    }
  }

  lemma DoneStaysSound(s: Sys, s': Sys, t: nat)
    requires DoneIsSound(s) && t < |s.threads| && !s.threads[t].event.Ignored?
    requires DoneMove(s, s', t) && LockMove(s, s', t)
    ensures DoneIsSound(s')
  {
    if s'.done != s.done { assert t !in s.done; }
  }

  lemma DoneEventsAfter(names: Names, servers: set<string>, s: Sys, a: Act)
    requires Locked(s) && DoneIsSound(s) && a.t < |s.threads|
    ensures DoneIsSound(Next(s, names, servers, a))
    ensures DoneEvents(Next(s, names, servers, a))
         == if Active(s.threads[a.t].pc) && Next(s, names, servers, a).threads[a.t].pc.Finished?
            then DoneEvents(s) + [s.threads[a.t].event] else DoneEvents(s)
  {
    var s' := Next(s, names, servers, a);
    DoneGrowsOnRelease(names, servers, s, a);
    StepMovesLock(names, servers, s, a);
    DoneStaysSound(s, s', a.t);
    assert forall i | 0 <= i < |s.done| :: s.done[i] in s.done && s'.done[i] == s.done[i];
    assert forall i | 0 <= i < |s.done| :: DoneEvents(s')[i] == s'.threads[s'.done[i]].event == DoneEvents(s)[i];
  }

  lemma RunSnoc(s: AppState, names: Names, evs: seq<Event>, e: Event)
    ensures Run(s, names, evs + [e]) == Apply(Run(s, names, evs), names, e)
  {
    assert (evs + [e])[..|evs|] == evs;
  }

  lemma ManagedUntouched(c: seq<Live>, d: seq<Live>, tag: string -> Tag, key: string)
    requires Except(d, KeyIds(tag, key)) == Except(c, KeyIds(tag, key))
    ensures Except(d, Managed(tag)) == Except(c, Managed(tag))
  {
    AgreeOutsideMore(d, c, KeyIds(tag, key), Managed(tag));
  }

  ghost function SerialNext(names: Names, servers: set<string>, s: Sys, a: Act, q: AppState): AppState
    requires a.t < |s.threads| && !s.threads[a.t].event.Ignored?
  {
    NextKeepsThreads(names, servers, s, a);
    if Active(s.threads[a.t].pc) && Next(s, names, servers, a).threads[a.t].pc.Finished? then
        Apply(q, names, s.threads[a.t].event)
    else q
  }

  /** A served step keeps the correspondence with the serial run. */
  lemma StepStaysSerial(tag: string -> Tag, names: Names, servers: set<string>, start: AppState, s: Sys, a: Act,
                        q: AppState)
    requires Safe(tag, names, s) && a.t < |s.threads| && Undisturbed(a) && ServersKnown(names, servers)
    requires SerialSoFar(tag, names, start, s, q)
    ensures SerialSoFar(tag, names, start, Next(s, names, servers, a), SerialNext(names, servers, s, a, q))
  {
    var s', e := Next(s, names, servers, a), s.threads[a.t].event;
    var q' := SerialNext(names, servers, s, a, q);
    assert WellTagged(tag, e);
    DoneEventsAfter(names, servers, s, a);
    RunSnoc(start, names, DoneEvents(s), e);
    ApplyTouchesItsKey(q, tag, names, e);
    ManagedUntouched(q.live, Apply(q, names, e).live, tag, e.key);
    OwnStep(tag, names, servers, s, a, e);
    ManagedUntouched(s.live, s'.live, tag, e.key);
    forall key ensures KeyAgrees(tag, names, s', q', key) {
      if key == e.key {
        StepMovesLock(names, servers, s, a);
        OwnKeyAgrees(tag, names, servers, s, a, e, q, s');
        ApplyOnItsKey(q, tag, names, e);
        DoneGrowsOnRelease(names, servers, s, a);
      } else {
        ApplyOffItsKey(q, tag, names, e, key);
        OtherKeyAgrees(tag, names, servers, s, a, e, q, q', key);
      }
    }
  }

  lemma {:induction false} EveryServedScheduleIsSerial(tag: string -> Tag, names: Names, servers: set<string>,
                                                       start: AppState, s: Sys, acts: seq<Act>) returns (q: AppState)
    requires Safe(tag, names, s) && NoneIgnored(s) && ServersKnown(names, servers)
    requires forall a :: a in acts ==> Undisturbed(a)
    requires SerialSoFar(tag, names, start, s, start)
    ensures SerialSoFar(tag, names, start, Exec(s, names, servers, acts), q)
  {
    if acts == [] {
      q := start;
    } else {
      var rest, a := acts[..|acts| - 1], acts[|acts| - 1];
      assert a in acts;
      q := EveryServedScheduleIsSerial(tag, names, servers, start, s, rest);
      EveryScheduleIsSafe(tag, names, servers, s, rest);
      var before := Exec(s, names, servers, rest);
      if a.t < |before.threads| {
        StepStaysSerial(tag, names, servers, start, before, a, q);
        q := SerialNext(names, servers, before, a, q);
      }
    }
  }

  /** Equal shares for every key, and equal routes outside, are equal states up to the order of
      routes of different keys. */
  lemma SharesDecide(tag: string -> Tag, s: AppState, q: AppState)
    requires forall key :: ViewOf(s, tag, key) == ViewOf(q, tag, key)
    requires Except(s.live, Managed(tag)) == Except(q.live, Managed(tag))
    ensures forall id :: Lookup(s.live, id) == Lookup(q.live, id)
    ensures s.routeIDs == q.routeIDs && s.store == q.store
  {
    forall id ensures Lookup(s.live, id) == Lookup(q.live, id) {
      if tag(id) == Foreign {
        SameOutside(s.live, q.live, Managed(tag), id);
      } else {
        var key := tag(id).key;
        assert ViewOf(s, tag, key) == ViewOf(q, tag, key);
        OnlyLookup(s.live, tag, key, id);
        OnlyLookup(q.live, tag, key, id);
      }
    }
    forall key ensures Entry(s.routeIDs, key) == Entry(q.routeIDs, key) && Entry(s.store, key) == Entry(q.store, key) {
      assert ViewOf(s, tag, key) == ViewOf(q, tag, key);
    }
    assert forall key :: key in s.routeIDs <==> Entry(s.routeIDs, key).Some?;
    assert forall key :: key in q.routeIDs <==> Entry(q.routeIDs, key).Some?;
    assert forall key :: key in s.store <==> Entry(s.store, key).Some?;
    assert forall key :: key in q.store <==> Entry(q.store, key).Some?;
  }

  lemma NothingLockedWhenAllFinished(s: Sys)
    requires Locked(s) && forall t | 0 <= t < |s.threads| :: s.threads[t].pc.Finished?
    ensures forall k :: k !in s.locks
  {}

  lemma StartIsSerial(tag: string -> Tag, names: Names, live: seq<Live>, routeIDs: map<string, seq<string>>,
                      store: map<string, seq<string>>, evs: seq<Event>)
    requires GoodStart(tag, live, routeIDs, evs)
    ensures var start := AppState(live, routeIDs, store);
      SerialSoFar(tag, names, start, Initial(live, routeIDs, store, evs), start)
  {
    var s := Initial(live, routeIDs, store, evs);
    assert DoneIsSound(s);
    assert DoneEvents(s) == [];
  }

  /** Serializability: when every handler of a fault-free schedule has finished, the live routes
      by id, the ownership map and the store are those of running the handlers one by one in the
      order recorded, which lists each handler once. */
  lemma CompleteSchedulesAreSerial(tag: string -> Tag, names: Names, servers: set<string>, live: seq<Live>,
                                   routeIDs: map<string, seq<string>>, store: map<string, seq<string>>,
                                   evs: seq<Event>, acts: seq<Act>) returns (order: seq<nat>)
    requires GoodStart(tag, live, routeIDs, evs) && ServersKnown(names, servers)
    requires forall a :: a in acts ==> Undisturbed(a)
    requires NoneIgnored(Initial(live, routeIDs, store, evs))
    requires var s := Exec(Initial(live, routeIDs, store, evs), names, servers, acts);
             forall t | 0 <= t < |s.threads| :: s.threads[t].pc.Finished?
    ensures (forall i, j | 0 <= i < j < |order| :: order[i] != order[j]) && forall t: nat :: t in order <==> t < |evs|
    ensures var s := Exec(Initial(live, routeIDs, store, evs), names, servers, acts);
      var serial := seq(|order|, i requires 0 <= i < |order| => assert order[i] in order; evs[order[i]]);
      var q := Run(AppState(live, routeIDs, store), names, serial);
      && (forall id :: Lookup(s.live, id) == Lookup(q.live, id))
      && s.routeIDs == q.routeIDs && s.store == q.store
  {
    var start, s0 := AppState(live, routeIDs, store), Initial(live, routeIDs, store, evs);
    var s := Exec(s0, names, servers, acts);
    InitialIsSafe(tag, names, live, routeIDs, store, evs);
    StartIsSerial(tag, names, live, routeIDs, store, evs);
    var q := EveryServedScheduleIsSerial(tag, names, servers, start, s0, acts);
    EveryScheduleIsSafe(tag, names, servers, s0, acts);
    EventsStayTheirs(names, servers, s0, acts);
    NothingLockedWhenAllFinished(s);
    forall key ensures ViewOf(StateOf(s), tag, key) == ViewOf(q, tag, key) { assert KeyAgrees(tag, names, s, q, key); }
    SharesDecide(tag, StateOf(s), q);
    order := s.done;
    assert forall i | 0 <= i < |order| :: order[i] in order;
    assert DoneEvents(s) == seq(|order|, i requires 0 <= i < |order| => assert order[i] in order; evs[order[i]]);
  }
}
