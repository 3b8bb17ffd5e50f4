/** Handlers of many keys running concurrently, one admin call or one guarded map access at a
    time, under a lock per key. Whatever the schedule and the faults, no two live routes share
    an @id and no POST is issued for a live id; every complete fault-free schedule ends as if
    the handlers had run one after another in the order in which they finished. */
module Interleaving {
  import opened Strings
  import opened Routes
  import opened LiveConfig
  import opened Admin
  import opened SyncSpec
  import opened Convergence

  // ---------- the machine ----------

  /** Where an upsert stands: about to GET, DELETE or POST, in which attempt. */
  datatype Up = AtGet(attempt: nat) | AtDelete(attempt: nat) | AtPost(attempt: nat)

  /** Program counter of a handler. */
  datatype Pc =
    | Waiting
    | Redirecting(rs: seq<CaddyRoute>, up: Up)
    | ReadingOwned
    | Removing(ids: set<string>)
    | RemovingFound(ids: set<string>, id: string)
    | Placing(rs: seq<CaddyRoute>, up: Up)
    | Recording
    | Saving
    | Finished

  datatype Thread = Thread(event: Event, pc: Pc)

  /** done lists the finished threads in the order in which they released their locks; leaked holds
      the ids whose deleteRoute reported an error. */
  datatype Sys = Sys(live: seq<Live>, routeIDs: map<string, seq<string>>, store: map<string, seq<string>>,
                     locks: map<string, nat>, threads: seq<Thread>, done: seq<nat>, leaked: set<string>)

  /** The scheduler's choice: a thread, the fate of its call, whether a wait is cancelled, and
      which stale id the map iteration yields. */
  datatype Act = Act(t: nat, fault: Fault, cancelled: bool, pick: string)

  function Retry(n: nat): Option<Up> { if n + 1 < 3 then Some(AtGet(n + 1)) else None }

  function DeleteCall(c: seq<Live>, id: string, fault: Fault): (seq<Live>, bool) {
    (if fault != LostRequest && HasId(c, id) then Removed(c, id) else c, fault == Served && HasId(c, id))
  }

  function PostCall(c: seq<Live>, servers: set<string>, server: string, r: CaddyRoute, fault: Fault): (seq<Live>, bool)
  {
    var accepted := server in servers && !HasId(c, r.id);
    (if fault != LostRequest && accepted then c + [Live(server, r)] else c, fault == Served && accepted)
  }

  /** One step of upsertRoute; None when the call returns, with or without an error. */
  function UpStep(c: seq<Live>, servers: set<string>, server: string, r: CaddyRoute, up: Up, a: Act)
    : (seq<Live>, Option<Up>)
  {
    match up
    case AtGet(n) =>
      if n > 0 && a.cancelled then (c, None)
      else if a.fault != Served then (c, Retry(n))
      else if Lookup(c, r.id).None? then (c, Some(AtPost(n)))
      else if UpToDate(c, r) then (c, None)
      else (c, Some(AtDelete(n)))
    case AtDelete(n) =>
      var (d, ok) := DeleteCall(c, r.id, a.fault);
      (d, if ok then Some(AtPost(n)) else Retry(n))
    case AtPost(n) =>
      var (d, ok) := PostCall(c, servers, server, r, a.fault);
      (d, if ok then None else Retry(n))
  }

  function StartPc(names: Names, e: Event): Pc {
    if e.Add? && names.http != "" && e.redirects != [] then Redirecting(e.redirects, AtGet(0)) else ReadingOwned
  }

  /** After the deletions: an add places its routes, or returns early without an HTTP server. */
  function AfterRemoving(names: Names, e: Event): Pc {
    if !e.Add? then Saving
    else if Skips(names, e.plain) then Finished
    else if e.routes == [] then Recording
    else Placing(e.routes, AtGet(0))
  }

  function Moved(s: Sys, t: nat, pc: Pc): Sys
    requires t < |s.threads|
  {
    s.(threads := s.threads[t := s.threads[t].(pc := pc)])
  }

  function Release(s: Sys, t: nat): Sys
    requires t < |s.threads| && !s.threads[t].event.Ignored?
  {
    Moved(s, t, Finished).(locks := s.locks - {s.threads[t].event.key}, done := s.done + [t])
  }

  function SetOf(ids: seq<string>): set<string> { set id | id in ids }

  /** The ids a handler deletes, read from the ownership map. */
  function ToRemove(owned: seq<string>, e: Event): set<string> {
    if e.Add? then SetOf(owned) - SetOf(Ids(e.routes)) else SetOf(owned)
  }

  function Acquire(s: Sys, names: Names, t: nat, e: Event): Sys
    requires t < |s.threads| && !e.Ignored?
  {
    if e.key in s.locks then s else Moved(s, t, StartPc(names, e)).(locks := s.locks[e.key := t])
  }

  function RedirectPc(rs: seq<CaddyRoute>, next: Option<Up>): Pc
    requires rs != []
  {
    match next
    case Some(up) => Redirecting(rs, up)
    case None => if |rs| > 1 then Redirecting(rs[1..], AtGet(0)) else ReadingOwned
  }

  function RedirectStep(s: Sys, names: Names, servers: set<string>, a: Act, rs: seq<CaddyRoute>, up: Up): Sys
    requires a.t < |s.threads|
  {
    if rs == [] then s
    else
      var (c, next) := UpStep(s.live, servers, names.http, rs[0], up, a);
      Moved(s, a.t, RedirectPc(rs, next)).(live := c)
  }

  function ReadStep(s: Sys, t: nat, e: Event): Sys
    requires t < |s.threads| && !e.Ignored?
  {
    var s' := Moved(s, t, Removing(ToRemove(Owned(s.routeIDs, e.key), e)));
    if e.Add? then s' else s'.(routeIDs := s.routeIDs - {e.key})
  }

  function RemoveStep(s: Sys, names: Names, a: Act, e: Event, ids: set<string>): Sys
    requires a.t < |s.threads| && !s.threads[a.t].event.Ignored?
  {
    if ids == {} then
      if AfterRemoving(names, e).Finished? then Release(s, a.t) else Moved(s, a.t, AfterRemoving(names, e))
    else if a.pick !in ids then s
    else if a.fault != Served then Moved(s, a.t, Removing(ids - {a.pick})).(leaked := s.leaked + {a.pick})
    else if HasId(s.live, a.pick) then Moved(s, a.t, RemovingFound(ids - {a.pick}, a.pick))
    else Moved(s, a.t, Removing(ids - {a.pick}))
  }

  function DropStep(s: Sys, a: Act, ids: set<string>, id: string): Sys
    requires a.t < |s.threads|
  {
    var (c, ok) := DeleteCall(s.live, id, a.fault);
    Moved(s, a.t, Removing(ids)).(live := c, leaked := if ok then s.leaked else s.leaked + {id})
  }

  function PlacePc(rs: seq<CaddyRoute>, next: Option<Up>): Pc
    requires rs != []
  {
    match next
    case Some(up) => Placing(rs, up)
    case None => if |rs| > 1 then Placing(rs[1..], AtGet(0)) else Recording
  }

  function PlaceStep(s: Sys, names: Names, servers: set<string>, a: Act, e: Event, rs: seq<CaddyRoute>, up: Up): Sys
    requires a.t < |s.threads|
  {
    if rs == [] || !e.Add? then s
    else
      var (c, next) := UpStep(s.live, servers, Target(names, e), rs[0], up, a);
      Moved(s, a.t, PlacePc(rs, next)).(live := c)
  }

  function RecordStep(s: Sys, t: nat, e: Event): Sys
    requires t < |s.threads|
  {
    if !e.Add? then s else Moved(s, t, Saving).(routeIDs := s.routeIDs[e.key := Ids(e.routes)])
  }

  /** The store after the call: a lost request leaves it alone. */
  function StoreCall(store: map<string, seq<string>>, e: Event, fault: Fault): map<string, seq<string>>
    requires !e.Ignored?
  {
    if fault == LostRequest then store
    else if e.Add? then store[e.key := Ids(e.routes)] else store - {e.key}
  }

  function SaveStep(s: Sys, a: Act, e: Event): Sys
    requires a.t < |s.threads| && !s.threads[a.t].event.Ignored? && !e.Ignored?
  {
    Release(s.(store := StoreCall(s.store, e, a.fault)), a.t)
  }

  function Next(s: Sys, names: Names, servers: set<string>, a: Act): Sys
    requires a.t < |s.threads| ==> !s.threads[a.t].event.Ignored?
  {
    if a.t >= |s.threads| then s
    else
      var e := s.threads[a.t].event;
      match s.threads[a.t].pc
      case Waiting => Acquire(s, names, a.t, e)
      case Redirecting(rs, up) => RedirectStep(s, names, servers, a, rs, up)
      case ReadingOwned => ReadStep(s, a.t, e)
      case Removing(ids) => RemoveStep(s, names, a, e, ids)
      case RemovingFound(ids, id) => DropStep(s, a, ids, id)
      case Placing(rs, up) => PlaceStep(s, names, servers, a, e, rs, up)
      case Recording => RecordStep(s, a.t, e)
      case Saving => SaveStep(s, a, e)
      case Finished => s
  }

  // ---------- safety under every schedule and every fault ----------

  ghost function KeyIds(tag: string -> Tag, key: string): iset<string> {
    iset id | tag(id) == RouteOf(key) || tag(id) == RedirectOf(key)
  }

  predicate UpOk(c: seq<Live>, r: CaddyRoute, up: Up) {
    match up
    case AtGet(_) => true
    case AtDelete(_) => HasId(c, r.id) && !UpToDate(c, r)
    case AtPost(_) => !HasId(c, r.id)
  }

  ghost predicate PcOk(tag: string -> Tag, names: Names, c: seq<Live>, e: Event, pc: Pc) {
    !e.Ignored? &&
    match pc
    case Redirecting(rs, up) =>
      e.Add? && rs != [] && names.http != "" && (forall r :: r in rs ==> tag(r.id) == RedirectOf(e.key)) &&
          UpOk(c, rs[0], up)
    case Placing(rs, up) =>
      e.Add? && rs != [] && !Skips(names, e.plain) && (forall r :: r in rs ==> tag(r.id) == RouteOf(e.key)) &&
          UpOk(c, rs[0], up)
    case Removing(ids) => forall id :: id in ids ==> tag(id) == RouteOf(e.key)
    case RemovingFound(ids, id) => (forall i :: i in ids ==> tag(i) == RouteOf(e.key)) && tag(id) == RouteOf(e.key) &&
        HasId(c, id)
    case Recording => e.Add? && !Skips(names, e.plain)
    case Saving => e.Add? ==> !Skips(names, e.plain)
    case _ => true
  }

  predicate Active(pc: Pc) { !pc.Waiting? && !pc.Finished? }

  /** A thread holds its key's lock exactly while it is active. */
  ghost predicate Locked(s: Sys) {
    && (forall t | 0 <= t < |s.threads| :: !s.threads[t].event.Ignored?)
    && (forall t | 0 <= t < |s.threads| ::
          Active(s.threads[t].pc) <==> s.threads[t].event.key in s.locks && s.locks[s.threads[t].event.key] == t)
    && (forall k :: k in s.locks ==> s.locks[k] < |s.threads| && s.threads[s.locks[k]].event.key == k)
  }

  ghost predicate Safe(tag: string -> Tag, names: Names, s: Sys) {
    && UniqueIds(s.live)
    && OwnsTagged(tag, s.routeIDs)
    && Locked(s)
    && (forall t | 0 <= t < |s.threads| :: WellTagged(tag, s.threads[t].event))
    && (forall t | 0 <= t < |s.threads| :: PcOk(tag, names, s.live, s.threads[t].event, s.threads[t].pc))
  }

  ghost predicate NoneIgnored(s: Sys) { forall th :: th in s.threads ==> !th.event.Ignored? }

  lemma SafeMeansNoneIgnored(tag: string -> Tag, names: Names, s: Sys)
    requires Safe(tag, names, s)
    ensures NoneIgnored(s)
  {
    forall th | th in s.threads ensures !th.event.Ignored? {
      var t :| 0 <= t < |s.threads| && s.threads[t] == th;
    }
  }

  lemma DeleteCallSafe(c: seq<Live>, id: string, fault: Fault)
    requires UniqueIds(c)
    ensures UniqueIds(DeleteCall(c, id, fault).0)
    ensures Except(DeleteCall(c, id, fault).0, iset{id}) == Except(c, iset{id})
    ensures DeleteCall(c, id, fault).1 ==> !HasId(DeleteCall(c, id, fault).0, id)
  {
    RemovalAgrees(c, c, id);
    UniqueExcept(c, iset{id});
  }

  lemma PostCallSafe(c: seq<Live>, servers: set<string>, server: string, r: CaddyRoute, fault: Fault)
    requires UniqueIds(c)
    ensures UniqueIds(PostCall(c, servers, server, r, fault).0)
    ensures Except(PostCall(c, servers, server, r, fault).0, iset{r.id}) == Except(c, iset{r.id})
  {
    AppendAgrees(c, c, Live(server, r));
    if !HasId(c, r.id) { UniqueAppend(c, Live(server, r)); }
  }

  lemma DeleteStepSafe(c: seq<Live>, servers: set<string>, server: string, r: CaddyRoute, n: nat, a: Act)
    requires UniqueIds(c) && UpOk(c, r, AtDelete(n))
    ensures var (d, next) := UpStep(c, servers, server, r, AtDelete(n), a);
      && UniqueIds(d)
      && Except(d, iset{r.id}) == Except(c, iset{r.id})
      && (next.Some? ==> UpOk(d, r, next.value))
  {
    DeleteCallSafe(c, r.id, a.fault);
  }

  lemma UpStepSafe(c: seq<Live>, servers: set<string>, server: string, r: CaddyRoute, up: Up, a: Act)
    requires UniqueIds(c) && UpOk(c, r, up)
    ensures var (d, next) := UpStep(c, servers, server, r, up, a);
      && UniqueIds(d)
      && Except(d, iset{r.id}) == Except(c, iset{r.id})
      && (next.Some? ==> UpOk(d, r, next.value))
  {
    match up
    case AtGet(_) =>
    case AtDelete(n) => DeleteStepSafe(c, servers, server, r, n, a);
    case AtPost(_) => PostCallSafe(c, servers, server, r, a.fault);
  }

  /** Another key's handler does not disturb a handler's assertions. */
  lemma PcOkStable(tag: string -> Tag, names: Names, c: seq<Live>, d: seq<Live>, e: Event, pc: Pc, key: string)
    requires PcOk(tag, names, c, e, pc) && e.key != key
    requires Except(d, KeyIds(tag, key)) == Except(c, KeyIds(tag, key))
    ensures PcOk(tag, names, d, e, pc)
  {
    match pc
    case Redirecting(rs, _) => SameOutside(c, d, KeyIds(tag, key), rs[0].id);
    case Placing(rs, _) => SameOutside(c, d, KeyIds(tag, key), rs[0].id);
    case RemovingFound(_, id) => SameOutside(c, d, KeyIds(tag, key), id);
    case _ =>
  }

  /** What a step of a handler for e may leave: only e's own ids touched, its new assertions
      established, the ownership map still tagged. */
  ghost predicate StepOk(tag: string -> Tag, names: Names, s: Sys, s': Sys, t: nat, e: Event)
    requires !e.Ignored?
  {
    && |s'.threads| == |s.threads| && t < |s.threads| && s'.threads[t].event == e
    && UniqueIds(s'.live)
    && Except(s'.live, KeyIds(tag, e.key)) == Except(s.live, KeyIds(tag, e.key))
    && PcOk(tag, names, s'.live, e, s'.threads[t].pc)
    && OwnsTagged(tag, s'.routeIDs)
  }

  ghost predicate Stepping(tag: string -> Tag, names: Names, s: Sys, t: nat, e: Event) {
    && t < |s.threads| && s.threads[t].event == e && !e.Ignored? && WellTagged(tag, e)
    && UniqueIds(s.live) && OwnsTagged(tag, s.routeIDs)
    && PcOk(tag, names, s.live, e, s.threads[t].pc)
  }

  lemma RedirectStepOk(tag: string -> Tag, names: Names, servers: set<string>, s: Sys, a: Act, e: Event,
                       rs: seq<CaddyRoute>, up: Up)
    requires Stepping(tag, names, s, a.t, e) && s.threads[a.t].pc == Redirecting(rs, up)
    ensures StepOk(tag, names, s, RedirectStep(s, names, servers, a, rs, up), a.t, e)
  {
    UpStepSafe(s.live, servers, names.http, rs[0], up, a);
    assert rs[0] in rs;
    AgreeOutsideMore(UpStep(s.live, servers, names.http, rs[0], up, a).0, s.live, iset{rs[0].id}, KeyIds(tag, e.key));
  }

  lemma PlaceStepOk(tag: string -> Tag, names: Names, servers: set<string>, s: Sys, a: Act, e: Event,
                    rs: seq<CaddyRoute>, up: Up)
    requires Stepping(tag, names, s, a.t, e) && s.threads[a.t].pc == Placing(rs, up)
    ensures StepOk(tag, names, s, PlaceStep(s, names, servers, a, e, rs, up), a.t, e)
  {
    UpStepSafe(s.live, servers, Target(names, e), rs[0], up, a);
    assert rs[0] in rs;
    AgreeOutsideMore(UpStep(s.live, servers, Target(names, e), rs[0], up, a).0, s.live, iset{rs[0].id},
                     KeyIds(tag, e.key));
  }

  lemma DropStepOk(tag: string -> Tag, names: Names, s: Sys, a: Act, e: Event, ids: set<string>, id: string)
    requires Stepping(tag, names, s, a.t, e) && s.threads[a.t].pc == RemovingFound(ids, id)
    ensures StepOk(tag, names, s, DropStep(s, a, ids, id), a.t, e)
  {
    DeleteCallSafe(s.live, id, a.fault);
    AgreeOutsideMore(DeleteCall(s.live, id, a.fault).0, s.live, iset{id}, KeyIds(tag, e.key));
  }

  lemma RecordStepOk(tag: string -> Tag, names: Names, s: Sys, t: nat, e: Event)
    requires Stepping(tag, names, s, t, e) && s.threads[t].pc == Recording
    ensures StepOk(tag, names, s, RecordStep(s, t, e), t, e)
  {
    forall id | id in Ids(e.routes) ensures tag(id) == RouteOf(e.key) { IdIsListed(e.routes, id); }
  }

  lemma AcquireOk(tag: string -> Tag, names: Names, s: Sys, t: nat, e: Event)
    requires Stepping(tag, names, s, t, e) && s.threads[t].pc == Waiting
    ensures StepOk(tag, names, s, Acquire(s, names, t, e), t, e)
  {}

  lemma ReadStepOk(tag: string -> Tag, names: Names, s: Sys, t: nat, e: Event)
    requires Stepping(tag, names, s, t, e) && s.threads[t].pc == ReadingOwned
    ensures StepOk(tag, names, s, ReadStep(s, t, e), t, e)
  {}

  lemma MovedOk(tag: string -> Tag, names: Names, s: Sys, s': Sys, t: nat, e: Event, pc: Pc)
    requires Stepping(tag, names, s, t, e) && PcOk(tag, names, s.live, e, pc)
    requires s'.threads == Moved(s, t, pc).threads && s'.live == s.live && s'.routeIDs == s.routeIDs
    ensures StepOk(tag, names, s, s', t, e)
  {}

  lemma AfterRemovingOk(tag: string -> Tag, names: Names, c: seq<Live>, e: Event)
    requires !e.Ignored? && WellTagged(tag, e)
    ensures PcOk(tag, names, c, e, AfterRemoving(names, e))
  {}

  lemma RemoveStepOk(tag: string -> Tag, names: Names, s: Sys, a: Act, e: Event, ids: set<string>)
    requires Stepping(tag, names, s, a.t, e) && s.threads[a.t].pc == Removing(ids)
    ensures StepOk(tag, names, s, RemoveStep(s, names, a, e, ids), a.t, e)
  {
    var s' := RemoveStep(s, names, a, e, ids);
    if ids == {} {
      AfterRemovingOk(tag, names, s.live, e);
      MovedOk(tag, names, s, s', a.t, e, AfterRemoving(names, e));
    } else if a.pick in ids {
      if a.fault == Served && HasId(s.live, a.pick) {
        MovedOk(tag, names, s, s', a.t, e, RemovingFound(ids - {a.pick}, a.pick));
      } else {
        MovedOk(tag, names, s, s', a.t, e, Removing(ids - {a.pick}));
      }
    }
  }

  lemma SaveStepOk(tag: string -> Tag, names: Names, s: Sys, a: Act, e: Event)
    requires Stepping(tag, names, s, a.t, e) && s.threads[a.t].pc == Saving
    ensures StepOk(tag, names, s, SaveStep(s, a, e), a.t, e)
  {}

  lemma OwnStep(tag: string -> Tag, names: Names, servers: set<string>, s: Sys, a: Act, e: Event)
    requires Stepping(tag, names, s, a.t, e)
    ensures StepOk(tag, names, s, Next(s, names, servers, a), a.t, e)
  {
    match s.threads[a.t].pc {
      case Waiting => AcquireOk(tag, names, s, a.t, e);
      case Redirecting(rs, up) => RedirectStepOk(tag, names, servers, s, a, e, rs, up);
      case ReadingOwned => ReadStepOk(tag, names, s, a.t, e);
      case Removing(ids) => RemoveStepOk(tag, names, s, a, e, ids);
      case RemovingFound(ids, id) => DropStepOk(tag, names, s, a, e, ids, id);
      case Placing(rs, up) => PlaceStepOk(tag, names, servers, s, a, e, rs, up);
      case Recording => RecordStepOk(tag, names, s, a.t, e);
      case Saving => SaveStepOk(tag, names, s, a, e);
      case Finished =>
    }
  }

  /** Only the stepping thread moves; it takes its lock, keeps it, or releases it. */
  ghost predicate LockMove(s: Sys, s': Sys, t: nat)
    requires t < |s.threads| && !s.threads[t].event.Ignored?
  {
    && |s'.threads| == |s.threads| && s'.threads[t].event == s.threads[t].event
    && (forall u | 0 <= u < |s.threads| && u != t :: s'.threads[u] == s.threads[u])
    && var key := s.threads[t].event.key;
       || (s'.locks == s.locks && Active(s'.threads[t].pc) == Active(s.threads[t].pc))
       || (key !in s.locks && s'.locks == s.locks[key := t] && Active(s'.threads[t].pc))
       || (Active(s.threads[t].pc) && s'.locks == s.locks - {key} && s'.threads[t].pc.Finished?)
  }

  lemma MovedIsLockMove(s: Sys, s': Sys, t: nat, pc: Pc)
    requires t < |s.threads| && !s.threads[t].event.Ignored?
    requires s'.threads == Moved(s, t, pc).threads && s'.locks == s.locks && Active(pc) && Active(s.threads[t].pc)
    ensures LockMove(s, s', t)
  {}

  lemma ReleaseIsLockMove(s: Sys, r: Sys, t: nat)
    requires t < |s.threads| && !s.threads[t].event.Ignored? && Active(s.threads[t].pc)
    requires r.threads == s.threads && r.locks == s.locks
    ensures LockMove(s, Release(r, t), t)
  {}

  lemma StepMovesLock(names: Names, servers: set<string>, s: Sys, a: Act)
    requires a.t < |s.threads| && !s.threads[a.t].event.Ignored?
    ensures LockMove(s, Next(s, names, servers, a), a.t)
  {
    var e, s' := s.threads[a.t].event, Next(s, names, servers, a);
    match s.threads[a.t].pc {
      case Redirecting(rs, up) =>
        if rs != [] {
          MovedIsLockMove(s, s', a.t, RedirectPc(rs, UpStep(s.live, servers, names.http, rs[0], up, a).1));
        }
      case ReadingOwned => MovedIsLockMove(s, s', a.t, Removing(ToRemove(Owned(s.routeIDs, e.key), e)));
      case Removing(ids) => RemoveMovesLock(s, names, a, ids);
      case RemovingFound(ids, id) => MovedIsLockMove(s, s', a.t, Removing(ids));
      case Placing(rs, up) =>
        if rs != [] && e.Add? {
          MovedIsLockMove(s, s', a.t, PlacePc(rs, UpStep(s.live, servers, Target(names, e), rs[0], up, a).1));
        }
      case Recording => if e.Add? { MovedIsLockMove(s, s', a.t, Saving); }
      case Saving =>
        ReleaseIsLockMove(s, s.(store := StoreCall(s.store, e, a.fault)), a.t);
      case _ =>
    }
  }

  lemma RemoveMovesLock(s: Sys, names: Names, a: Act, ids: set<string>)
    requires a.t < |s.threads| && !s.threads[a.t].event.Ignored? && s.threads[a.t].pc == Removing(ids)
    ensures LockMove(s, RemoveStep(s, names, a, s.threads[a.t].event, ids), a.t)
  {
    if ids == {} && AfterRemoving(names, s.threads[a.t].event).Finished? { ReleaseIsLockMove(s, s, a.t); }
  }

  lemma LockMoveKeepsLocked(s: Sys, s': Sys, t: nat)
    requires Locked(s) && t < |s.threads| && LockMove(s, s', t)
    ensures Locked(s')
  {}

  /** Every step of every thread, with every fault, keeps the system safe. */
  lemma StepIsSafe(tag: string -> Tag, names: Names, servers: set<string>, s: Sys, a: Act)
    requires Safe(tag, names, s) && NoneIgnored(s)
    ensures Safe(tag, names, Next(s, names, servers, a))
  {
    if a.t < |s.threads| {
      var s', e := Next(s, names, servers, a), s.threads[a.t].event;
      OwnStep(tag, names, servers, s, a, e);
      StepMovesLock(names, servers, s, a);
      LockMoveKeepsLocked(s, s', a.t);
      LiveChangesOnlyWhileActive(names, servers, s, a);
      forall t | 0 <= t < |s.threads| ensures PcOk(tag, names, s'.live, s'.threads[t].event, s'.threads[t].pc) {
        if t != a.t {
          MutualExclusionApplies(s, t, a.t);
          OtherStep(tag, names, s, s'.live, t, e.key);
        }
      }
    }
  }

  lemma LiveChangesOnlyWhileActive(names: Names, servers: set<string>, s: Sys, a: Act)
    requires a.t < |s.threads| && !s.threads[a.t].event.Ignored?
    ensures Next(s, names, servers, a).live != s.live ==> Active(s.threads[a.t].pc)
  {}

  /** Two active threads have different keys. */
  lemma MutualExclusionApplies(s: Sys, t: nat, u: nat)
    requires Locked(s) && t < |s.threads| && u < |s.threads| && t != u
    ensures Active(s.threads[t].pc) && Active(s.threads[u].pc) ==> s.threads[t].event.key != s.threads[u].event.key
  {}

  lemma OtherStep(tag: string -> Tag, names: Names, s: Sys, d: seq<Live>, t: nat, key: string)
    requires Safe(tag, names, s) && t < |s.threads|
    requires Except(d, KeyIds(tag, key)) == Except(s.live, KeyIds(tag, key))
    requires d == s.live || !Active(s.threads[t].pc) || s.threads[t].event.key != key
    ensures PcOk(tag, names, d, s.threads[t].event, s.threads[t].pc)
  {
    var th := s.threads[t];
    assert PcOk(tag, names, s.live, th.event, th.pc);
    if d != s.live && Active(th.pc) { PcOkStable(tag, names, s.live, d, th.event, th.pc, key); }
  }

  ghost function Exec(s: Sys, names: Names, servers: set<string>, acts: seq<Act>): Sys
    requires NoneIgnored(s)
  {
    if acts == [] then s
    else
      var before := Exec(s, names, servers, acts[..|acts| - 1]);
      if NoneIgnored(before) then Next(before, names, servers, acts[|acts| - 1]) else before
  }

  function Initial(live: seq<Live>, routeIDs: map<string, seq<string>>, store: map<string, seq<string>>,
                   evs: seq<Event>): Sys
  {
    Sys(live, routeIDs, store, map[], seq(|evs|, i requires 0 <= i < |evs| => Thread(evs[i], Waiting)), [], {})
  }

  ghost predicate GoodStart(tag: string -> Tag, live: seq<Live>, routeIDs: map<string, seq<string>>, evs: seq<Event>) {
    && UniqueIds(live) && OwnsTagged(tag, routeIDs)
    && forall e :: e in evs ==> !e.Ignored? && WellTagged(tag, e)
  }

  lemma InitialIsSafe(tag: string -> Tag, names: Names, live: seq<Live>, routeIDs: map<string, seq<string>>,
                      store: map<string, seq<string>>, evs: seq<Event>)
    requires GoodStart(tag, live, routeIDs, evs)
    ensures Safe(tag, names, Initial(live, routeIDs, store, evs)) && NoneIgnored(Initial(live, routeIDs, store, evs))
  {
    assert forall i | 0 <= i < |evs| :: evs[i] in evs;
    SafeMeansNoneIgnored(tag, names, Initial(live, routeIDs, store, evs));
  }

  /** Safety over whole runs: every reachable state of every schedule, faulty or not, is safe. */
  lemma {:induction false} EveryScheduleIsSafe(tag: string -> Tag, names: Names, servers: set<string>, s: Sys,
                                               acts: seq<Act>)
    requires Safe(tag, names, s) && NoneIgnored(s)
    ensures Safe(tag, names, Exec(s, names, servers, acts)) && NoneIgnored(Exec(s, names, servers, acts))
  {
    if acts != [] {
      var before := Exec(s, names, servers, acts[..|acts| - 1]);
      EveryScheduleIsSafe(tag, names, servers, s, acts[..|acts| - 1]);
      StepIsSafe(tag, names, servers, before, acts[|acts| - 1]);
      SafeMeansNoneIgnored(tag, names, Exec(s, names, servers, acts));
    }
  }

  lemma {:induction false} EventsStayTheirs(names: Names, servers: set<string>, s: Sys, acts: seq<Act>)
    requires NoneIgnored(s)
    ensures var s' := Exec(s, names, servers, acts);
      |s'.threads| == |s.threads| && forall t | 0 <= t < |s.threads| :: s'.threads[t].event == s.threads[t].event
  {
    if acts != [] {
      var rest, a := acts[..|acts| - 1], acts[|acts| - 1];
      EventsStayTheirs(names, servers, s, rest);
      var before := Exec(s, names, servers, rest);
      if NoneIgnored(before) && a.t < |before.threads| { StepMovesLock(names, servers, before, a); }
    }
  }

  /** The route a thread is about to POST. */
  function Posting(th: Thread): Option<CaddyRoute> {
    match th.pc
    case Redirecting(rs, AtPost(_)) => if rs != [] then Some(rs[0]) else None
    case Placing(rs, AtPost(_)) => if rs != [] then Some(rs[0]) else None
    case _ => None
  }

  /** In no reachable state do two live routes share an @id, and in none is a handler about to
      POST a route whose id is live. */
  lemma NoDuplicateIdsAndNoPostOfLiveId(tag: string -> Tag, names: Names, servers: set<string>, live: seq<Live>,
                                        routeIDs: map<string, seq<string>>, store: map<string, seq<string>>,
                                        evs: seq<Event>, acts: seq<Act>)
    requires GoodStart(tag, live, routeIDs, evs)
    ensures NoneIgnored(Initial(live, routeIDs, store, evs))
    ensures var s := Exec(Initial(live, routeIDs, store, evs), names, servers, acts);
      && UniqueIds(s.live) && Locked(s)
      && (forall t | 0 <= t < |s.threads| :: Posting(s.threads[t]).Some? ==>
          !HasId(s.live, Posting(s.threads[t]).value.id))
      && (forall t, u | 0 <= t < u < |s.threads| && Active(s.threads[t].pc) && Active(s.threads[u].pc) ::
            s.threads[t].event.key != s.threads[u].event.key)
  {
    InitialIsSafe(tag, names, live, routeIDs, store, evs);
    EveryScheduleIsSafe(tag, names, servers, Initial(live, routeIDs, store, evs), acts);
    var s := Exec(Initial(live, routeIDs, store, evs), names, servers, acts);
    forall t | 0 <= t < |s.threads| && Posting(s.threads[t]).Some?
      ensures !HasId(s.live, Posting(s.threads[t]).value.id)
    {
      assert PcOk(tag, names, s.live, s.threads[t].event, s.threads[t].pc);
    }
  }
}
