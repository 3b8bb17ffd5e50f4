/** Concurrent handlers under faults: whatever the schedule and the faults, a handler gives up an
    upsert only after three failed steps of its own or a cancelled wait, and goes on with the next
    route. So once it has placed its routes, each of them is up to date or was given up like that. */
module Attendance {
  import opened Strings
  import opened Routes
  import opened LiveConfig
  import opened Admin
  import opened SyncSpec
  import opened Convergence
  import opened Interleaving

  /** The upsert's next step is a wait that is cancelled. */
  predicate Cancels(up: Up, a: Act) { up.AtGet? && up.attempt > 0 && a.cancelled }

  /** The upsert's next step reports an error. */
  predicate Fails(c: seq<Live>, servers: set<string>, server: string, r: CaddyRoute, up: Up, a: Act) {
    !Cancels(up, a) &&
    match up
    case AtGet(_) => a.fault != Served
    case AtDelete(_) => a.fault != Served || !HasId(c, r.id)
    case AtPost(_) => a.fault != Served || server !in servers || HasId(c, r.id)
  }

  /** One step of an upsert: a failed step starts the next attempt, and the third one ends the call;
      a step that does not fail ends it only with the route up to date, or cancelled. */
  lemma UpStepPerseveres(c: seq<Live>, servers: set<string>, server: string, r: CaddyRoute, up: Up, a: Act)
    requires UniqueIds(c) && UpOk(c, r, up)
    ensures var (d, next) := UpStep(c, servers, server, r, up, a);
            && (Fails(c, servers, server, r, up, a) ==>
                  next == if up.attempt < 2 then Some(AtGet(up.attempt + 1)) else None)
            && (!Fails(c, servers, server, r, up, a) && next.Some? ==>
                  !Cancels(up, a) && next.value.attempt == up.attempt)
            && (!Fails(c, servers, server, r, up, a) && next.None? ==> Cancels(up, a) || UpToDate(d, r))
            && (UpToDate(c, r) ==> d == c)
  {
    if up.AtPost? { LookupAppend(c, [Live(server, r)], r.id); }
  }

  // ---------- histories ----------

  /** An upsert in progress. */
  datatype Upsert = Upsert(server: string, r: CaddyRoute, up: Up)

  function Upserting(names: Names, th: Thread): Option<Upsert> {
    match th.pc
    case Redirecting(rs, up) => if rs != [] then Some(Upsert(names.http, rs[0], up)) else None
    case Placing(rs, up) =>
      if rs != [] && th.event.Add? then Some(Upsert(Target(names, th.event), rs[0], up)) else None
    case _ => None
  }

  /** The action is a failed step of thread t in an upsert of a route with the id. */
  predicate FailedStep(s: Sys, names: Names, servers: set<string>, a: Act, t: nat, id: string) {
    a.t == t < |s.threads| &&
    match Upserting(names, s.threads[t])
    case None => false
    case Some(u) => u.r.id == id && Fails(s.live, servers, u.server, u.r, u.up, a)
  }

  predicate CancelledStep(s: Sys, names: Names, a: Act, t: nat, id: string) {
    a.t == t < |s.threads| &&
    match Upserting(names, s.threads[t])
    case None => false
    case Some(u) => u.r.id == id && Cancels(u.up, a)
  }

  /** How many steps of thread t failed in upserts of routes with the id. */
  ghost function FailedSteps(s: Sys, names: Names, servers: set<string>, acts: seq<Act>, t: nat, id: string): nat
    requires NoneIgnored(s)
  {
    if acts == [] then 0
    else
      var front, a := acts[..|acts| - 1], acts[|acts| - 1];
      FailedSteps(s, names, servers, front, t, id)
      + if FailedStep(Exec(s, names, servers, front), names, servers, a, t, id) then 1 else 0
  }

  ghost predicate WasCancelled(s: Sys, names: Names, servers: set<string>, acts: seq<Act>, t: nat, id: string)
    requires NoneIgnored(s)
  {
    acts != [] &&
    var front, a := acts[..|acts| - 1], acts[|acts| - 1];
    || WasCancelled(s, names, servers, front, t, id)
    || CancelledStep(Exec(s, names, servers, front), names, a, t, id)
  }

  /** The ids that thread t had reason to give up: three failed steps, or a cancelled wait. */
  ghost function GivenUp(s: Sys, names: Names, servers: set<string>, acts: seq<Act>, t: nat): iset<string>
    requires NoneIgnored(s)
  {
    iset id | FailedSteps(s, names, servers, acts, t, id) >= 3 || WasCancelled(s, names, servers, acts, t, id)
  }

  // ---------- what a handler has seen to ----------

  /** Of the first n routes each that has the last word on its id is up to date or given up. */
  ghost predicate SeenTo(rs: seq<CaddyRoute>, n: nat, live: seq<Live>, gone: iset<string>)
    requires n <= |rs|
  {
    forall j | 0 <= j < n && LastWord(rs, j) :: UpToDate(live, rs[j]) || rs[j].id in gone
  }

  /** The upsert of the head of rest, a tail of the list, is under way, and those before are seen to. */
  ghost predicate InTurn(all: seq<CaddyRoute>, rest: seq<CaddyRoute>, up: Up, live: seq<Live>, gone: iset<string>,
                         failed: nat)
  {
    && 0 < |rest| <= |all| && rest == all[|all| - |rest|..]
    && up.attempt <= failed && up.attempt <= 2
    && SeenTo(all, |all| - |rest|, live, gone)
  }

  ghost predicate AllSeenTo(rs: seq<CaddyRoute>, live: seq<Live>, gone: iset<string>) { SeenTo(rs, |rs|, live, gone) }

  /** One step of an upsert in turn. */
  lemma StepInTurn(all: seq<CaddyRoute>, rest: seq<CaddyRoute>, servers: set<string>, server: string, up: Up, a: Act,
                   c: seq<Live>, gone: iset<string>, failed: nat, gone': iset<string>, failed': nat)
    requires UniqueIds(c) && InTurn(all, rest, up, c, gone, failed) && UpOk(c, rest[0], up)
    requires gone <= gone' && failed' == failed + if Fails(c, servers, server, rest[0], up, a) then 1 else 0
    requires failed' >= 3 || Cancels(up, a) ==> rest[0].id in gone'
    ensures var (d, next) := UpStep(c, servers, server, rest[0], up, a);
            && (next.Some? ==> InTurn(all, rest, next.value, d, gone', failed'))
            && (next.None? && |rest| == 1 ==> AllSeenTo(all, d, gone'))
            && (next.None? && |rest| > 1 ==> forall n :: InTurn(all, rest[1..], AtGet(0), d, gone', n))
  {
    var (d, next) := UpStep(c, servers, server, rest[0], up, a);
    var k := |all| - |rest|;
    assert rest[0] == all[k];
    UpStepPerseveres(c, servers, server, rest[0], up, a);
    UpStepSafe(c, servers, server, rest[0], up, a);
    forall j | 0 <= j < k && LastWord(all, j) ensures UpToDate(d, all[j]) || all[j].id in gone' {
      if all[j].id != rest[0].id { SameOutside(d, c, iset{rest[0].id}, all[j].id); }
    }
    assert SeenTo(all, k, d, gone');
    if next.None? {
      assert SeenTo(all, k + 1, d, gone');
      if |rest| > 1 { assert rest[1..] == all[k + 1..]; }
    }
  }

  /** Steps about other ids, or more reasons to give up, change nothing. */
  lemma StillSeenTo(rs: seq<CaddyRoute>, n: nat, c: seq<Live>, d: seq<Live>, ids: iset<string>, gone: iset<string>,
                    gone': iset<string>)
    requires n <= |rs| && SeenTo(rs, n, c, gone) && gone <= gone'
    requires Except(d, ids) == Except(c, ids) && forall r :: r in rs ==> r.id !in ids
    ensures SeenTo(rs, n, d, gone')
  {
    forall j | 0 <= j < n && LastWord(rs, j) ensures UpToDate(d, rs[j]) || rs[j].id in gone' {
      assert rs[j] in rs;
      SameOutside(d, c, ids, rs[j].id);
    }
  }

  ghost predicate RedirectsSeenTo(names: Names, e: Event, live: seq<Live>, gone: iset<string>)
    requires e.Add?
  {
    names.http != "" ==> AllSeenTo(e.redirects, live, gone)
  }

  /** What an add has seen to, by its program counter; failed counts its failed steps by id. */
  ghost predicate Attends(names: Names, e: Event, pc: Pc, live: seq<Live>, gone: iset<string>, failed: string -> nat) {
    e.Add? ==>
      match pc
      case Waiting => true
      case Redirecting(rs, up) => rs != [] && InTurn(e.redirects, rs, up, live, gone, failed(rs[0].id))
      case Placing(rs, up) =>
        RedirectsSeenTo(names, e, live, gone) && rs != [] && InTurn(e.routes, rs, up, live, gone, failed(rs[0].id))
      case Recording => RedirectsSeenTo(names, e, live, gone) && AllSeenTo(e.routes, live, gone)
      case Saving => RedirectsSeenTo(names, e, live, gone) && AllSeenTo(e.routes, live, gone)
      case Finished =>
        && RedirectsSeenTo(names, e, live, gone)
        && (!Skips(names, e.plain) ==> AllSeenTo(e.routes, live, gone))
      case _ => RedirectsSeenTo(names, e, live, gone)
  }

  /** One action more: thread t's failed steps are counted, and three of them, or a cancelled wait,
      are a reason to give an id up. */
  ghost predicate Counted(s: Sys, names: Names, servers: set<string>, a: Act, t: nat, gone: iset<string>,
                          failed: string -> nat, gone': iset<string>, failed': string -> nat)
  {
    && gone <= gone'
    && (forall id :: failed'(id) == failed(id) + if FailedStep(s, names, servers, a, t, id) then 1 else 0)
    && (forall id :: failed'(id) >= 3 || CancelledStep(s, names, a, t, id) ==> id in gone')
  }

  lemma RedirectStepAttends(tag: string -> Tag, names: Names, servers: set<string>, s: Sys, a: Act, e: Event,
                            rs: seq<CaddyRoute>, up: Up, gone: iset<string>, failed: string -> nat,
                            gone': iset<string>, failed': string -> nat)
    requires Stepping(tag, names, s, a.t, e) && e.Add? && s.threads[a.t].pc == Redirecting(rs, up)
    requires Attends(names, e, Redirecting(rs, up), s.live, gone, failed)
    requires Counted(s, names, servers, a, a.t, gone, failed, gone', failed')
    ensures var s' := RedirectStep(s, names, servers, a, rs, up);
            Attends(names, e, s'.threads[a.t].pc, s'.live, gone', failed')
  {
    var id := rs[0].id;
    assert Upserting(names, s.threads[a.t]) == Some(Upsert(names.http, rs[0], up));
    assert FailedStep(s, names, servers, a, a.t, id) <==> Fails(s.live, servers, names.http, rs[0], up, a);
    assert CancelledStep(s, names, a, a.t, id) <==> Cancels(up, a);
    StepInTurn(e.redirects, rs, servers, names.http, up, a, s.live, gone, failed(id), gone', failed'(id));
  }

  lemma PlaceStepAttends(tag: string -> Tag, names: Names, servers: set<string>, s: Sys, a: Act, e: Event,
                         rs: seq<CaddyRoute>, up: Up, gone: iset<string>, failed: string -> nat, gone': iset<string>,
                         failed': string -> nat)
    requires Stepping(tag, names, s, a.t, e) && e.Add? && s.threads[a.t].pc == Placing(rs, up)
    requires Attends(names, e, Placing(rs, up), s.live, gone, failed)
    requires Counted(s, names, servers, a, a.t, gone, failed, gone', failed')
    ensures var s' := PlaceStep(s, names, servers, a, e, rs, up);
            Attends(names, e, s'.threads[a.t].pc, s'.live, gone', failed')
  {
    var id := rs[0].id;
    assert Upserting(names, s.threads[a.t]) == Some(Upsert(Target(names, e), rs[0], up));
    assert FailedStep(s, names, servers, a, a.t, id) <==> Fails(s.live, servers, Target(names, e), rs[0], up, a);
    assert CancelledStep(s, names, a, a.t, id) <==> Cancels(up, a);
    StepInTurn(e.routes, rs, servers, Target(names, e), up, a, s.live, gone, failed(id), gone', failed'(id));
    UpStepSafe(s.live, servers, Target(names, e), rs[0], up, a);
    RedirectsStay(tag, names, e, s.live, UpStep(s.live, servers, Target(names, e), rs[0], up, a).0, id, gone, gone');
  }

  /** Writes to an id of a compiled route leave the redirects alone. */
  lemma RedirectsStay(tag: string -> Tag, names: Names, e: Event, c: seq<Live>, d: seq<Live>, id: string,
                      gone: iset<string>, gone': iset<string>)
    requires e.Add? && WellTagged(tag, e) && tag(id).RouteOf? && gone <= gone'
    requires RedirectsSeenTo(names, e, c, gone) && Except(d, iset{id}) == Except(c, iset{id})
    ensures RedirectsSeenTo(names, e, d, gone')
  {
    if names.http != "" { StillSeenTo(e.redirects, |e.redirects|, c, d, iset{id}, gone, gone'); }
  }

  lemma MoreReasons(names: Names, e: Event, c: seq<Live>, gone: iset<string>, gone': iset<string>)
    requires e.Add? && gone <= gone'
    ensures RedirectsSeenTo(names, e, c, gone) ==> RedirectsSeenTo(names, e, c, gone')
    ensures AllSeenTo(e.routes, c, gone) ==> AllSeenTo(e.routes, c, gone')
  {}

  lemma StartAttends(names: Names, e: Event, c: seq<Live>, gone: iset<string>, failed: string -> nat)
    requires e.Add?
    ensures Attends(names, e, StartPc(names, e), c, gone, failed)
  {
    if e.redirects != [] { assert e.redirects == e.redirects[|e.redirects| - |e.redirects|..]; }
  }

  lemma AfterRemovingAttends(names: Names, e: Event, c: seq<Live>, gone: iset<string>, failed: string -> nat)
    requires e.Add? && RedirectsSeenTo(names, e, c, gone)
    ensures Attends(names, e, AfterRemoving(names, e), c, gone, failed)
  {
    if e.routes != [] { assert e.routes == e.routes[|e.routes| - |e.routes|..]; }
  }

  /** A handler's own step keeps what it has seen to. */
  lemma OwnStepAttends(tag: string -> Tag, names: Names, servers: set<string>, s: Sys, a: Act, e: Event,
                       gone: iset<string>, failed: string -> nat, gone': iset<string>, failed': string -> nat)
    requires Stepping(tag, names, s, a.t, e) && Attends(names, e, s.threads[a.t].pc, s.live, gone, failed)
    requires Counted(s, names, servers, a, a.t, gone, failed, gone', failed')
    ensures var s' := Next(s, names, servers, a);
            s'.threads[a.t].event == e && Attends(names, e, s'.threads[a.t].pc, s'.live, gone', failed')
  {
    OwnStep(tag, names, servers, s, a, e);
    if e.Add? {
      MoreReasons(names, e, s.live, gone, gone');
      match s.threads[a.t].pc {
        case Waiting => StartAttends(names, e, s.live, gone', failed');
        case Redirecting(rs, up) =>
          RedirectStepAttends(tag, names, servers, s, a, e, rs, up, gone, failed, gone', failed');
        case Placing(rs, up) => PlaceStepAttends(tag, names, servers, s, a, e, rs, up, gone, failed, gone', failed');
        case Removing(ids) => RemoveStepAttends(names, s, a, e, ids, gone', failed');
        case RemovingFound(ids, id) =>
          DeleteCallSafe(s.live, id, a.fault);
          RedirectsStay(tag, names, e, s.live, DeleteCall(s.live, id, a.fault).0, id, gone, gone');
        case _ =>
      }
    }
  }

  lemma RemoveStepAttends(names: Names, s: Sys, a: Act, e: Event, ids: set<string>, gone: iset<string>,
                          failed: string -> nat)
    requires a.t < |s.threads| && s.threads[a.t] == Thread(e, Removing(ids)) && e.Add?
    requires RedirectsSeenTo(names, e, s.live, gone)
    ensures var s' := RemoveStep(s, names, a, e, ids);
            Attends(names, e, s'.threads[a.t].pc, s'.live, gone, failed)
  {
    AfterRemovingAttends(names, e, s.live, gone, failed);
  }

  /** So does the step of another key's handler. */
  lemma OtherStepAttends(tag: string -> Tag, names: Names, e: Event, pc: Pc, c: seq<Live>, d: seq<Live>, key: string,
                         gone: iset<string>, failed: string -> nat, gone': iset<string>, failed': string -> nat)
    requires !e.Ignored? && WellTagged(tag, e) && key != e.key && gone <= gone'
    requires forall id :: failed(id) <= failed'(id)
    requires Except(d, KeyIds(tag, key)) == Except(c, KeyIds(tag, key))
    requires Attends(names, e, pc, c, gone, failed)
    ensures Attends(names, e, pc, d, gone', failed')
  {
    if e.Add? {
      var ids := KeyIds(tag, key);
      forall n: nat | n <= |e.redirects| && SeenTo(e.redirects, n, c, gone) ensures SeenTo(e.redirects, n, d, gone') {
        StillSeenTo(e.redirects, n, c, d, ids, gone, gone');
      }
      forall n: nat | n <= |e.routes| && SeenTo(e.routes, n, c, gone) ensures SeenTo(e.routes, n, d, gone') {
        StillSeenTo(e.routes, n, c, d, ids, gone, gone');
      }
    }
  }

  // ---------- every schedule ----------

  /** Thread t was the last of its key to finish, and no other of that key runs. */
  ghost predicate LatestOfItsKey(s: Sys, t: nat)
    requires t < |s.threads| && NoneIgnored(s)
  {
    var key := s.threads[t].event.key;
    && key !in s.locks
    && exists i :: 0 <= i < |s.done| && s.done[i] == t
         && forall j | i < j < |s.done| :: s.done[j] < |s.threads| ==> s.threads[s.done[j]].event.key != key
  }

  /** A thread is entered in the list of the finished ones when it releases its lock. */
  lemma DoneMoves(names: Names, servers: set<string>, s: Sys, a: Act)
    requires Locked(s) && a.t < |s.threads|
    ensures var s' := Next(s, names, servers, a);
            && (s'.done == s.done || s'.done == s.done + [a.t])
            && (Active(s.threads[a.t].pc) && !Active(s'.threads[a.t].pc) ==> s'.done == s.done + [a.t])
  {
    var e := s.threads[a.t].event;
    match s.threads[a.t].pc {
      case Removing(ids) => RemoveMovesDone(s, names, a, ids);
      case _ =>
    }
  }

  lemma RemoveMovesDone(s: Sys, names: Names, a: Act, ids: set<string>)
    requires a.t < |s.threads| && !s.threads[a.t].event.Ignored? && s.threads[a.t].pc == Removing(ids)
    ensures var s' := RemoveStep(s, names, a, s.threads[a.t].event, ids);
            && (s'.done == s.done || s'.done == s.done + [a.t])
            && (!Active(s'.threads[a.t].pc) ==> s'.done == s.done + [a.t])
  {}

  lemma LaterOneFinished(s: Sys, t: nat, before: seq<nat>, u: nat)
    requires NoneIgnored(s) && t < |s.threads| && u < |s.threads| && u != t && s.done == before + [u]
    requires s.threads[u].event.key == s.threads[t].event.key
    ensures !LatestOfItsKey(s, t)
  {
    forall i | 0 <= i < |s.done| && s.done[i] == t
      ensures exists j :: i < j < |s.done| && s.done[j] < |s.threads|
                && s.threads[s.done[j]].event.key == s.threads[t].event.key
    {
      assert i < |before| && s.done[|before|] == u;
    }
  }

  /** The latest of a key was its latest before a step of another handler, which is of another key or
      does nothing. */
  lemma LatestBefore(names: Names, servers: set<string>, s: Sys, a: Act, t: nat)
    requires Locked(s) && NoneIgnored(s) && t < |s.threads| && a.t < |s.threads| && a.t != t
    requires s.threads[t].pc.Finished?
    requires var s' := Next(s, names, servers, a); Locked(s') && NoneIgnored(s') && LockMove(s, s', a.t)
    requires LatestOfItsKey(Next(s, names, servers, a), t)
    ensures LatestOfItsKey(s, t)
    ensures s.threads[a.t].event.key != s.threads[t].event.key || Next(s, names, servers, a) == s
  {
    var s', key := Next(s, names, servers, a), s.threads[t].event.key;
    DoneMoves(names, servers, s, a);
    if s.threads[a.t].event.key == key && s'.done == s.done + [a.t] { LaterOneFinished(s', t, s.done, a.t); }
    var i :| 0 <= i < |s'.done| && s'.done[i] == t
             && forall j | i < j < |s'.done| :: s'.done[j] < |s'.threads| ==> s'.threads[s'.done[j]].event.key != key;
    assert i < |s.done| && s.done[i] == t;
    forall j | i < j < |s.done| && s.done[j] < |s.threads| ensures s.threads[s.done[j]].event.key != key {
      assert s'.done[j] == s.done[j];
    }
  }

  /** One action of any handler keeps what thread t has seen to. */
  lemma StepAttends(tag: string -> Tag, names: Names, servers: set<string>, s: Sys, a: Act, t: nat, gone: iset<string>,
                    failed: string -> nat, gone': iset<string>, failed': string -> nat)
    requires Safe(tag, names, s) && NoneIgnored(s) && t < |s.threads|
    requires (s.threads[t].pc.Finished? ==> LatestOfItsKey(s, t)) ==>
               Attends(names, s.threads[t].event, s.threads[t].pc, s.live, gone, failed)
    requires Counted(s, names, servers, a, t, gone, failed, gone', failed')
    ensures var s' := Next(s, names, servers, a);
            && NoneIgnored(s') && t < |s'.threads|
            && ((s'.threads[t].pc.Finished? ==> LatestOfItsKey(s', t)) ==>
                  Attends(names, s'.threads[t].event, s'.threads[t].pc, s'.live, gone', failed'))
  {
    var s' := Next(s, names, servers, a);
    StepIsSafe(tag, names, servers, s, a);
    SafeMeansNoneIgnored(tag, names, s');
    var th := s.threads[t];
    if a.t < |s.threads| {
      var key := s.threads[a.t].event.key;
      assert Stepping(tag, names, s, a.t, s.threads[a.t].event);
      OwnStep(tag, names, servers, s, a, s.threads[a.t].event);
      StepMovesLock(names, servers, s, a);
      if a.t == t {
        if th.pc.Finished? ==> LatestOfItsKey(s, t) {
          OwnStepAttends(tag, names, servers, s, a, th.event, gone, failed, gone', failed');
        }
      } else if s'.threads[t].pc.Finished? ==> LatestOfItsKey(s', t) {
        if th.pc.Finished? { LatestBefore(names, servers, s, a, t); }
        if th.event.key != key {
          OtherStepAttends(tag, names, th.event, th.pc, s.live, s'.live, key, gone, failed, gone', failed');
        } else {
          SameKeyWaits(names, servers, s, a, t);
          OtherStepAttends(tag, names, th.event, th.pc, s.live, s.live, key + "/", gone, failed, gone', failed');
        }
      }
    } else if th.pc.Finished? ==> LatestOfItsKey(s, t) {
      OtherStepAttends(tag, names, th.event, th.pc, s.live, s.live, th.event.key + "/", gone, failed, gone', failed');
    }
  }

  /** While a handler runs, the others of its key leave the live routes alone. */
  lemma SameKeyWaits(names: Names, servers: set<string>, s: Sys, a: Act, t: nat)
    requires Locked(s) && NoneIgnored(s) && t < |s.threads| && a.t < |s.threads| && a.t != t
    requires s.threads[a.t].event.key == s.threads[t].event.key
    ensures Active(s.threads[t].pc) || s.threads[t].pc.Waiting? || Next(s, names, servers, a) == s ==>
              s.threads[t].pc.Waiting? || Next(s, names, servers, a).live == s.live
  {
    MutualExclusionApplies(s, t, a.t);
  }

  /** What a thread has seen to in the state that some actions lead to. */
  ghost predicate ThreadAttends(start: Sys, names: Names, servers: set<string>, acts: seq<Act>, t: nat)
    requires NoneIgnored(start) && NoneIgnored(Exec(start, names, servers, acts))
    requires t < |Exec(start, names, servers, acts).threads|
  {
    var s := Exec(start, names, servers, acts);
    (s.threads[t].pc.Finished? ==> LatestOfItsKey(s, t)) ==>
      Attends(names, s.threads[t].event, s.threads[t].pc, s.live, GivenUp(start, names, servers, acts, t),
              (id: string) => FailedSteps(start, names, servers, acts, t, id))
  }

  /** Perseverance over whole runs: in every state that any schedule reaches with any faults, each
      handler that runs, or was the last of its key to finish, has seen to its routes in turn: each is
      up to date, unless the handler failed three times on its id or a wait was cancelled there. */
  lemma {:induction false} EveryScheduleAttends(tag: string -> Tag, names: Names, servers: set<string>, live: seq<Live>,
                                                routeIDs: map<string, seq<string>>, store: map<string, seq<string>>,
                                                evs: seq<Event>, acts: seq<Act>, t: nat)
    requires GoodStart(tag, live, routeIDs, evs) && t < |evs|
    ensures var start := Initial(live, routeIDs, store, evs);
            && NoneIgnored(start)
            && Safe(tag, names, Exec(start, names, servers, acts)) && NoneIgnored(Exec(start, names, servers, acts))
            && t < |Exec(start, names, servers, acts).threads|
            && ThreadAttends(start, names, servers, acts, t)
  {
    var start := Initial(live, routeIDs, store, evs);
    InitialIsSafe(tag, names, live, routeIDs, store, evs);
    if acts != [] {
      var front, a := acts[..|acts| - 1], acts[|acts| - 1];
      EveryScheduleAttends(tag, names, servers, live, routeIDs, store, evs, front, t);
      var s := Exec(start, names, servers, front);
      StepIsSafe(tag, names, servers, s, a);
      StepAttends(tag, names, servers, s, a, t, GivenUp(start, names, servers, front, t),
                  (id: string) => FailedSteps(start, names, servers, front, t, id),
                  GivenUp(start, names, servers, acts, t),
                  (id: string) => FailedSteps(start, names, servers, acts, t, id));
    }
  }
}
