/** Leak accounting for concurrent handlers: in every state that any schedule reaches, with any
    faults of Caddy and of the store, each live compiled route is owned, or held by the handler that
    runs for its key, or leaked by a deletion that reported an error. */
module Ledger {
  import opened Strings
  import opened Routes
  import opened LiveConfig
  import opened Admin
  import opened SyncSpec
  import opened Convergence
  import opened Interleaving

  /** Ids in a running handler's hands: those a delete still has to remove, and those an add is
      placing but has not recorded. */
  ghost predicate Holds(th: Thread, id: string) {
    match th.pc
    case Removing(ids) => th.event.Delete? && id in ids
    case RemovingFound(ids, found) => th.event.Delete? && (id in ids || id == found)
    case Placing(_, _) => th.event.Add? && id in IdSet(th.event.routes)
    case Recording => th.event.Add? && id in IdSet(th.event.routes)
    case _ => false
  }

  ghost predicate Leaked(s: Sys, before: iset<string>, id: string) { id in before || id in s.leaked }

  /** Of the ids that an add finds stale, all but the ones left are gone or leaked. */
  ghost predicate StaleCleared(s: Sys, before: iset<string>, e: Event, left: set<string>)
    requires e.Add?
  {
    forall id :: id in Stale(Owned(s.routeIDs, e.key), e.routes) ==>
      id in left || Leaked(s, before, id) || !HasId(s.live, id)
  }

  ghost predicate InHand(s: Sys, before: iset<string>, th: Thread) {
    th.event.Add? ==>
      match th.pc
      case Removing(ids) => StaleCleared(s, before, th.event, ids)
      case RemovingFound(ids, found) => StaleCleared(s, before, th.event, ids + {found})
      case Placing(rs, _) => StaleCleared(s, before, th.event, {}) && forall r :: r in rs ==> r in th.event.routes
      case Recording => StaleCleared(s, before, th.event, {})
      case _ => true
  }

  ghost predicate IdAccounted(s: Sys, before: iset<string>, key: string, id: string) {
    || Leaked(s, before, id)
    || id in Owned(s.routeIDs, key)
    || (key in s.locks && s.locks[key] < |s.threads| && Holds(s.threads[s.locks[key]], id))
  }

  ghost predicate KeyAccounted(tag: string -> Tag, s: Sys, before: iset<string>, key: string) {
    && (forall id :: tag(id) == RouteOf(key) && HasId(s.live, id) ==> IdAccounted(s, before, key, id))
    && (key in s.locks && s.locks[key] < |s.threads| ==> InHand(s, before, s.threads[s.locks[key]]))
  }

  ghost predicate AllKeysAccounted(tag: string -> Tag, s: Sys, before: iset<string>) {
    forall key :: KeyAccounted(tag, s, before, key)
  }

  // ---------- another key's step ----------

  ghost predicate SameShare(tag: string -> Tag, s: Sys, s': Sys, key: string) {
    && s.leaked <= s'.leaked
    && Owned(s'.routeIDs, key) == Owned(s.routeIDs, key)
    && (key in s'.locks <==> key in s.locks)
    && (key in s.locks && s.locks[key] < |s.threads| ==>
          s.locks[key] == s'.locks[key] < |s'.threads| && s'.threads[s'.locks[key]] == s.threads[s.locks[key]])
    && (forall id :: tag(id) == RouteOf(key) ==> (HasId(s'.live, id) <==> HasId(s.live, id)))
  }

  lemma OtherKeyStaysAccounted(tag: string -> Tag, s: Sys, s': Sys, before: iset<string>, key: string)
    requires KeyAccounted(tag, s, before, key) && SameShare(tag, s, s', key) && OwnsTagged(tag, s.routeIDs)
    requires key in s.locks ==> s.locks[key] < |s.threads| && About(s.threads[s.locks[key]].event, key)
    ensures KeyAccounted(tag, s', before, key)
  {
    forall id | tag(id) == RouteOf(key) && HasId(s'.live, id) ensures IdAccounted(s', before, key, id) {
      assert IdAccounted(s, before, key, id);
    }
    forall id | id in Owned(s.routeIDs, key) ensures tag(id) == RouteOf(key) {}
  }

  lemma LeakedGrows(names: Names, servers: set<string>, s: Sys, a: Act)
    requires a.t < |s.threads| && !s.threads[a.t].event.Ignored?
    ensures s.leaked <= Next(s, names, servers, a).leaked
  {
    var e := s.threads[a.t].event;
    match s.threads[a.t].pc {
      case Removing(ids) => RemoveLeaks(s, names, a, e, ids);
      case RemovingFound(ids, id) => DropLeaks(s, a, ids, id);
      case _ => assert Next(s, names, servers, a).leaked == s.leaked;
    }
  }

  lemma RemoveLeaks(s: Sys, names: Names, a: Act, e: Event, ids: set<string>)
    requires a.t < |s.threads| && !s.threads[a.t].event.Ignored?
    ensures s.leaked <= RemoveStep(s, names, a, e, ids).leaked
  {}

  lemma DropLeaks(s: Sys, a: Act, ids: set<string>, id: string)
    requires a.t < |s.threads|
    ensures s.leaked <= DropStep(s, a, ids, id).leaked
  {}

  lemma OtherShare(tag: string -> Tag, names: Names, servers: set<string>, s: Sys, a: Act, e: Event, key: string)
    requires Safe(tag, names, s) && a.t < |s.threads| && s.threads[a.t].event == e && key != e.key
    ensures SameShare(tag, s, Next(s, names, servers, a), key)
  {
    var s' := Next(s, names, servers, a);
    assert Stepping(tag, names, s, a.t, e);
    OwnStep(tag, names, servers, s, a, e);
    StepMovesLock(names, servers, s, a);
    LeakedGrows(names, servers, s, a);
    OwnedOffTheKey(names, servers, s, a, e, key);
    forall id | tag(id) == RouteOf(key) ensures HasId(s'.live, id) <==> HasId(s.live, id) {
      SameOutside(s'.live, s.live, KeyIds(tag, e.key), id);
    }
  }

  lemma OwnedOffTheKey(names: Names, servers: set<string>, s: Sys, a: Act, e: Event, key: string)
    requires a.t < |s.threads| && s.threads[a.t].event == e && !e.Ignored? && key != e.key
    ensures Owned(Next(s, names, servers, a).routeIDs, key) == Owned(s.routeIDs, key)
  {}

  // ---------- the key's own steps ----------

  /** The stepping handler holds its key's lock, before and after, unless it lets go. */
  ghost predicate Holding(s: Sys, t: nat, e: Event) {
    t < |s.threads| && s.threads[t].event == e && !e.Ignored? && e.key in s.locks && s.locks[e.key] == t
  }

  /** A step after which the lock is still held and the handler's new hand accounts for every id. */
  lemma HeldKeyAccounted(tag: string -> Tag, s': Sys, before: iset<string>, t: nat, e: Event)
    requires Holding(s', t, e) && InHand(s', before, s'.threads[t])
    requires forall id :: tag(id) == RouteOf(e.key) && HasId(s'.live, id) ==>
               Leaked(s', before, id) || id in Owned(s'.routeIDs, e.key) || Holds(s'.threads[t], id)
    ensures KeyAccounted(tag, s', before, e.key)
  {}

  lemma FreeKeyAccounted(tag: string -> Tag, s': Sys, before: iset<string>, key: string)
    requires key !in s'.locks
    requires forall id :: tag(id) == RouteOf(key) && HasId(s'.live, id) ==>
               Leaked(s', before, id) || id in Owned(s'.routeIDs, key)
    ensures KeyAccounted(tag, s', before, key)
  {}

  lemma AccountOf(tag: string -> Tag, s: Sys, before: iset<string>, t: nat, e: Event, id: string)
    requires Holding(s, t, e) && KeyAccounted(tag, s, before, e.key) && tag(id) == RouteOf(e.key) && HasId(s.live, id)
    ensures Leaked(s, before, id) || id in Owned(s.routeIDs, e.key) || Holds(s.threads[t], id)
  {
    assert IdAccounted(s, before, e.key, id);
  }

  lemma AcquireAccounts(tag: string -> Tag, names: Names, s: Sys, before: iset<string>, t: nat, e: Event)
    requires t < |s.threads| && s.threads[t] == Thread(e, Waiting) && !e.Ignored? && KeyAccounted(tag, s, before, e.key)
    ensures KeyAccounted(tag, Acquire(s, names, t, e), before, e.key)
  {
    var s' := Acquire(s, names, t, e);
    if e.key !in s.locks {
      forall id | tag(id) == RouteOf(e.key) && HasId(s'.live, id)
        ensures Leaked(s', before, id) || id in Owned(s'.routeIDs, e.key)
      {
        assert IdAccounted(s, before, e.key, id);
      }
      HeldKeyAccounted(tag, s', before, t, e);
    }
  }

  /** An upsert step touches one id; every other id is live as before. */
  lemma OthersLiveAsBefore(c: seq<Live>, servers: set<string>, server: string, r: CaddyRoute, up: Up, a: Act,
                           id: string)
    requires UniqueIds(c) && UpOk(c, r, up) && id != r.id
    ensures HasId(UpStep(c, servers, server, r, up, a).0, id) <==> HasId(c, id)
  {
    UpStepSafe(c, servers, server, r, up, a);
    SameOutside(UpStep(c, servers, server, r, up, a).0, c, iset{r.id}, id);
  }

  lemma RedirectAccounts(tag: string -> Tag, names: Names, servers: set<string>, s: Sys, before: iset<string>, a: Act,
                         e: Event,
                         rs: seq<CaddyRoute>, up: Up)
    requires Stepping(tag, names, s, a.t, e) && Holding(s, a.t, e) && s.threads[a.t].pc == Redirecting(rs, up)
    requires KeyAccounted(tag, s, before, e.key)
    ensures KeyAccounted(tag, RedirectStep(s, names, servers, a, rs, up), before, e.key)
  {
    var s' := RedirectStep(s, names, servers, a, rs, up);
    assert rs[0] in rs;
    forall id | tag(id) == RouteOf(e.key) && HasId(s'.live, id)
      ensures Leaked(s', before, id) || id in Owned(s'.routeIDs, e.key)
    {
      OthersLiveAsBefore(s.live, servers, names.http, rs[0], up, a, id);
      AccountOf(tag, s, before, a.t, e, id);
    }
    HeldKeyAccounted(tag, s', before, a.t, e);
  }

  lemma ReadAccounts(tag: string -> Tag, s: Sys, before: iset<string>, t: nat, e: Event)
    requires Holding(s, t, e) && s.threads[t].pc == ReadingOwned && KeyAccounted(tag, s, before, e.key)
    ensures KeyAccounted(tag, ReadStep(s, t, e), before, e.key)
  {
    var s' := ReadStep(s, t, e);
    forall id | tag(id) == RouteOf(e.key) && HasId(s'.live, id)
      ensures Leaked(s', before, id) || id in Owned(s'.routeIDs, e.key) || Holds(s'.threads[t], id)
    {
      AccountOf(tag, s, before, t, e, id);
    }
    if e.Add? {
      forall id ensures id in Ids(e.routes) <==> id in IdSet(e.routes) { IdIsListed(e.routes, id); }
    }
    HeldKeyAccounted(tag, s', before, t, e);
  }

  lemma RemoveAccounts(tag: string -> Tag, names: Names, s: Sys, before: iset<string>, a: Act, e: Event,
                       ids: set<string>)
    requires Holding(s, a.t, e) && s.threads[a.t].pc == Removing(ids) && KeyAccounted(tag, s, before, e.key)
    requires ids != {}
    ensures KeyAccounted(tag, RemoveStep(s, names, a, e, ids), before, e.key)
  {
    var s' := RemoveStep(s, names, a, e, ids);
    if a.pick in ids {
      forall id | tag(id) == RouteOf(e.key) && HasId(s'.live, id)
        ensures Leaked(s', before, id) || id in Owned(s'.routeIDs, e.key) || Holds(s'.threads[a.t], id)
      {
        AccountOf(tag, s, before, a.t, e, id);
      }
      HeldKeyAccounted(tag, s', before, a.t, e);
    }
  }

  lemma RemovedAllAccounts(tag: string -> Tag, names: Names, s: Sys, before: iset<string>, a: Act, e: Event)
    requires Holding(s, a.t, e) && s.threads[a.t].pc == Removing({}) && KeyAccounted(tag, s, before, e.key)
    ensures KeyAccounted(tag, RemoveStep(s, names, a, e, {}), before, e.key)
  {
    var s' := RemoveStep(s, names, a, e, {});
    forall id | tag(id) == RouteOf(e.key) && HasId(s'.live, id)
      ensures Leaked(s', before, id) || id in Owned(s'.routeIDs, e.key)
    {
      AccountOf(tag, s, before, a.t, e, id);
    }
    if AfterRemoving(names, e).Finished? {
      FreeKeyAccounted(tag, s', before, e.key);
    } else {
      HeldKeyAccounted(tag, s', before, a.t, e);
    }
  }

  lemma LiveAfterDelete(c: seq<Live>, found: string, fault: Fault, id: string)
    requires UniqueIds(c) && HasId(c, found)
    ensures var (d, ok) := DeleteCall(c, found, fault); HasId(d, id) ==> HasId(c, id) && (id == found ==> !ok)
  {
    DeleteCallSafe(c, found, fault);
    if id != found { SameOutside(DeleteCall(c, found, fault).0, c, iset{found}, id); }
  }

  lemma DropAccounts(tag: string -> Tag, names: Names, s: Sys, before: iset<string>, a: Act, e: Event,
                     ids: set<string>, found: string)
    requires Stepping(tag, names, s, a.t, e) && Holding(s, a.t, e) && s.threads[a.t].pc == RemovingFound(ids, found)
    requires KeyAccounted(tag, s, before, e.key)
    ensures KeyAccounted(tag, DropStep(s, a, ids, found), before, e.key)
  {
    var s' := DropStep(s, a, ids, found);
    forall id ensures HasId(s'.live, id) ==> HasId(s.live, id) && (id == found ==> found in s'.leaked) {
      LiveAfterDelete(s.live, found, a.fault, id);
    }
    forall id | tag(id) == RouteOf(e.key) && HasId(s'.live, id)
      ensures Leaked(s', before, id) || id in Owned(s'.routeIDs, e.key) || Holds(s'.threads[a.t], id)
    {
      AccountOf(tag, s, before, a.t, e, id);
    }
    HeldKeyAccounted(tag, s', before, a.t, e);
  }

  lemma PlaceAccounts(tag: string -> Tag, names: Names, servers: set<string>, s: Sys, before: iset<string>, a: Act,
                      e: Event,
                      rs: seq<CaddyRoute>, up: Up)
    requires Stepping(tag, names, s, a.t, e) && Holding(s, a.t, e) && s.threads[a.t].pc == Placing(rs, up)
    requires KeyAccounted(tag, s, before, e.key)
    ensures KeyAccounted(tag, PlaceStep(s, names, servers, a, e, rs, up), before, e.key)
  {
    var s' := PlaceStep(s, names, servers, a, e, rs, up);
    assert InHand(s, before, s.threads[a.t]) && rs[0] in rs;
    assert rs[0].id in IdSet(e.routes);
    forall id | id != rs[0].id ensures HasId(s'.live, id) <==> HasId(s.live, id) {
      OthersLiveAsBefore(s.live, servers, Target(names, e), rs[0], up, a, id);
    }
    forall id | tag(id) == RouteOf(e.key) && HasId(s'.live, id)
      ensures Leaked(s', before, id) || id in Owned(s'.routeIDs, e.key) || Holds(s'.threads[a.t], id)
    {
      if id != rs[0].id { AccountOf(tag, s, before, a.t, e, id); }
    }
    HeldKeyAccounted(tag, s', before, a.t, e);
  }

  lemma RecordAccounts(tag: string -> Tag, s: Sys, before: iset<string>, t: nat, e: Event)
    requires Holding(s, t, e) && s.threads[t].pc == Recording && KeyAccounted(tag, s, before, e.key)
    ensures KeyAccounted(tag, RecordStep(s, t, e), before, e.key)
  {
    var s' := RecordStep(s, t, e);
    if e.Add? {
      assert InHand(s, before, s.threads[t]);
      forall id | tag(id) == RouteOf(e.key) && HasId(s'.live, id)
        ensures Leaked(s', before, id) || id in Owned(s'.routeIDs, e.key)
      {
        AccountOf(tag, s, before, t, e, id);
        IdIsListed(e.routes, id);
      }
      HeldKeyAccounted(tag, s', before, t, e);
    }
  }

  lemma SaveAccounts(tag: string -> Tag, s: Sys, before: iset<string>, a: Act, e: Event)
    requires Holding(s, a.t, e) && s.threads[a.t].pc == Saving && KeyAccounted(tag, s, before, e.key)
    ensures KeyAccounted(tag, SaveStep(s, a, e), before, e.key)
  {
    var s' := SaveStep(s, a, e);
    forall id | tag(id) == RouteOf(e.key) && HasId(s'.live, id)
      ensures Leaked(s', before, id) || id in Owned(s'.routeIDs, e.key)
    {
      AccountOf(tag, s, before, a.t, e, id);
    }
    FreeKeyAccounted(tag, s', before, e.key);
  }

  lemma OwnKeyAccounts(tag: string -> Tag, names: Names, servers: set<string>, s: Sys, before: iset<string>, a: Act,
                       e: Event)
    requires Safe(tag, names, s) && a.t < |s.threads| && s.threads[a.t].event == e &&
             KeyAccounted(tag, s, before, e.key)
    ensures KeyAccounted(tag, Next(s, names, servers, a), before, e.key)
  {
    assert Stepping(tag, names, s, a.t, e);
    assert Active(s.threads[a.t].pc) ==> Holding(s, a.t, e);
    match s.threads[a.t].pc {
      case Waiting => AcquireAccounts(tag, names, s, before, a.t, e);
      case Redirecting(rs, up) => RedirectAccounts(tag, names, servers, s, before, a, e, rs, up);
      case ReadingOwned => ReadAccounts(tag, s, before, a.t, e);
      case Removing(ids) =>
        if ids == {} {
          RemovedAllAccounts(tag, names, s, before, a, e);
        } else {
          RemoveAccounts(tag, names, s, before, a, e, ids);
        }
      case RemovingFound(ids, id) => DropAccounts(tag, names, s, before, a, e, ids, id);
      case Placing(rs, up) => PlaceAccounts(tag, names, servers, s, before, a, e, rs, up);
      case Recording => RecordAccounts(tag, s, before, a.t, e);
      case Saving => SaveAccounts(tag, s, before, a, e);
      case Finished =>
    }
  }

  /** Every step of every handler, with every fault, keeps every key accounted for. */
  lemma StepKeepsAccounts(tag: string -> Tag, names: Names, servers: set<string>, s: Sys, before: iset<string>, a: Act)
    requires Safe(tag, names, s) && NoneIgnored(s) && AllKeysAccounted(tag, s, before)
    ensures AllKeysAccounted(tag, Next(s, names, servers, a), before)
  {
    if a.t < |s.threads| {
      var e := s.threads[a.t].event;
      forall key ensures KeyAccounted(tag, Next(s, names, servers, a), before, key) {
        assert KeyAccounted(tag, s, before, key);
        if key == e.key {
          OwnKeyAccounts(tag, names, servers, s, before, a, e);
        } else {
          OtherShare(tag, names, servers, s, a, e, key);
          OtherKeyStaysAccounted(tag, s, Next(s, names, servers, a), before, key);
        }
      }
    }
  }

  // ---------- whole schedules ----------

  lemma {:induction false} EveryScheduleKeepsAccounts(tag: string -> Tag, names: Names, servers: set<string>, s: Sys,
                                                      before: iset<string>, acts: seq<Act>)
    requires Safe(tag, names, s) && NoneIgnored(s) && AllKeysAccounted(tag, s, before)
    ensures AllKeysAccounted(tag, Exec(s, names, servers, acts), before)
  {
    if acts != [] {
      var rest := acts[..|acts| - 1];
      EveryScheduleKeepsAccounts(tag, names, servers, s, before, rest);
      EveryScheduleIsSafe(tag, names, servers, s, rest);
      StepKeepsAccounts(tag, names, servers, Exec(s, names, servers, rest), before, acts[|acts| - 1]);
    }
  }

  lemma StepLeak(tag: string -> Tag, names: Names, servers: set<string>, s: Sys, a: Act, id: string)
    requires Safe(tag, names, s) && NoneIgnored(s) && id in Next(s, names, servers, a).leaked && id !in s.leaked
    ensures a.fault != Fault.Served && a.t < |s.threads| && !s.threads[a.t].event.Ignored?
    ensures tag(id) == RouteOf(s.threads[a.t].event.key)
  {
    var e := s.threads[a.t].event;
    assert PcOk(tag, names, s.live, e, s.threads[a.t].pc);
    match s.threads[a.t].pc {
      case Removing(ids) => assert id == a.pick && a.pick in ids;
      case RemovingFound(ids, found) => assert id == found;
      case _ =>
    }
  }

  /** An id is leaked only by a step with a fault, of a handler of its own key. */
  lemma {:induction false} LeaksHaveFaults(tag: string -> Tag, names: Names, servers: set<string>, s: Sys,
                                           acts: seq<Act>, id: string)
    returns (k: nat)
    requires Safe(tag, names, s) && NoneIgnored(s)
    requires id in Exec(s, names, servers, acts).leaked && id !in s.leaked
    ensures k < |acts| && acts[k].fault != Fault.Served && acts[k].t < |s.threads|
    ensures !s.threads[acts[k].t].event.Ignored? && tag(id) == RouteOf(s.threads[acts[k].t].event.key)
  {
    var rest, a := acts[..|acts| - 1], acts[|acts| - 1];
    var mid := Exec(s, names, servers, rest);
    EveryScheduleIsSafe(tag, names, servers, s, rest);
    EventsStayTheirs(names, servers, s, rest);
    if id in mid.leaked {
      k := LeaksHaveFaults(tag, names, servers, s, rest, id);
    } else {
      k := |acts| - 1;
      StepLeak(tag, names, servers, mid, a, id);
    }
  }

  /** Accounting over all schedules and faults: from an accounted start every reachable state is
      accounted for, and once no handler runs, ownership and leaks alone account for it. */
  lemma EveryScheduleIsAccounted(tag: string -> Tag, names: Names, servers: set<string>, live: seq<Live>,
                                 routeIDs: map<string, seq<string>>, store: map<string, seq<string>>,
                                 evs: seq<Event>, before: iset<string>, acts: seq<Act>)
    requires GoodStart(tag, live, routeIDs, evs) && Accounted(tag, live, routeIDs, before)
    requires NoneIgnored(Initial(live, routeIDs, store, evs))
    ensures var s := Exec(Initial(live, routeIDs, store, evs), names, servers, acts);
      && AllKeysAccounted(tag, s, before)
      && ((forall t | 0 <= t < |s.threads| :: !Active(s.threads[t].pc)) ==>
            Accounted(tag, s.live, s.routeIDs, before + iset id | id in s.leaked))
  {
    var s0 := Initial(live, routeIDs, store, evs);
    InitialIsSafe(tag, names, live, routeIDs, store, evs);
    forall key ensures KeyAccounted(tag, s0, before, key) { StartIsAccounted(tag, s0, before, key); }
    EveryScheduleKeepsAccounts(tag, names, servers, s0, before, acts);
    EveryScheduleIsSafe(tag, names, servers, s0, acts);
    var s := Exec(s0, names, servers, acts);
    if forall t | 0 <= t < |s.threads| :: !Active(s.threads[t].pc) { QuietMeansAccounted(tag, s, before); }
  }

  lemma StartIsAccounted(tag: string -> Tag, s: Sys, before: iset<string>, key: string)
    requires s.locks == map[] && OwnsTagged(tag, s.routeIDs) && Accounted(tag, s.live, s.routeIDs, before)
    ensures KeyAccounted(tag, s, before, key)
  {
    forall id | tag(id) == RouteOf(key) && HasId(s.live, id)
      ensures Leaked(s, before, id) || id in Owned(s.routeIDs, key)
    {
      var l := Lookup(s.live, id).value;
      if id !in before {
        var k :| k in s.routeIDs && id in s.routeIDs[k];
        assert k == key;
      }
    }
    FreeKeyAccounted(tag, s, before, key);
  }

  lemma QuietMeansAccounted(tag: string -> Tag, s: Sys, before: iset<string>)
    requires Locked(s) && AllKeysAccounted(tag, s, before)
    requires forall t | 0 <= t < |s.threads| :: !Active(s.threads[t].pc)
    ensures Accounted(tag, s.live, s.routeIDs, before + iset id | id in s.leaked)
  {
    forall l | l in s.live && tag(l.route.id).RouteOf?
      ensures l.route.id in before + (iset id | id in s.leaked) || OwnedBySome(s.routeIDs, l.route.id)
    {
      var id, key := l.route.id, tag(l.route.id).key;
      var i :| 0 <= i < |s.live| && s.live[i] == l;
      assert HasId(s.live, id);
      assert KeyAccounted(tag, s, before, key);
      assert IdAccounted(s, before, key, id) && key !in s.locks;
      if id in Owned(s.routeIDs, key) { assert key in s.routeIDs && id in s.routeIDs[key]; }
    }
  }
}
