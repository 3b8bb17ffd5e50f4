/** No deadlock: from every safe state, however many faults led there, fault-free steps finish
    every handler. Complete schedules, the ones that are serializable, always exist. */
module Progress {
  import opened Strings
  import opened Routes
  import opened LiveConfig
  import opened Admin
  import opened SyncSpec
  import opened Convergence
  import opened Interleaving
  import opened Serial

  // ---------- how far a handler has to go ----------

  function Phase(pc: Pc): nat {
    match pc
    case Waiting => 7
    case Redirecting(_, _) => 6
    case ReadingOwned => 5
    case Removing(_) => 4
    case RemovingFound(_, _) => 4
    case Placing(_, _) => 3
    case Recording => 2
    case Saving => 1
    case Finished => 0
  }

  function Size(pc: Pc): nat {
    match pc
    case Redirecting(rs, _) => |rs|
    case Placing(rs, _) => |rs|
    case Removing(ids) => 2 * |ids|
    case RemovingFound(ids, _) => 2 * |ids| + 1
    case _ => 0
  }

  function UpRank(up: Up): nat {
    match up
    case AtGet(_) => 2
    case AtDelete(_) => 1
    case AtPost(_) => 0
  }

  function CallRank(pc: Pc): nat {
    match pc
    case Redirecting(_, up) => UpRank(up)
    case Placing(_, up) => UpRank(up)
    case _ => 0
  }

  /** Nearer the end: a later phase, less left in it, or further into a call. */
  predicate Nearer(p: Pc, q: Pc) {
    || Phase(p) < Phase(q)
    || (Phase(p) == Phase(q) && Size(p) < Size(q))
    || (Phase(p) == Phase(q) && Size(p) == Size(q) && CallRank(p) < CallRank(q))
  }

  // ---------- a step ----------

  /** A served step of an upsert returns or gets further into the attempt. */
  lemma UpStepAdvances(c: seq<Live>, servers: set<string>, server: string, r: CaddyRoute, up: Up, a: Act)
    requires UpOk(c, r, up) && Undisturbed(a) && server in servers
    ensures var (d, next) := UpStep(c, servers, server, r, up, a);
      next.Some? ==> UpRank(next.value) < UpRank(up)
  {}

  lemma RedirectAdvances(tag: string -> Tag, names: Names, servers: set<string>, s: Sys, a: Act, e: Event,
                         rs: seq<CaddyRoute>, up: Up)
    requires Stepping(tag, names, s, a.t, e) && s.threads[a.t].pc == Redirecting(rs, up)
    requires Undisturbed(a) && ServersKnown(names, servers)
    ensures Nearer(RedirectStep(s, names, servers, a, rs, up).threads[a.t].pc, s.threads[a.t].pc)
  {
    UpStepAdvances(s.live, servers, names.http, rs[0], up, a);
  }

  lemma PlaceAdvances(tag: string -> Tag, names: Names, servers: set<string>, s: Sys, a: Act, e: Event,
                      rs: seq<CaddyRoute>, up: Up)
    requires Stepping(tag, names, s, a.t, e) && s.threads[a.t].pc == Placing(rs, up)
    requires Undisturbed(a) && ServersKnown(names, servers)
    ensures Nearer(PlaceStep(s, names, servers, a, e, rs, up).threads[a.t].pc, s.threads[a.t].pc)
  {
    UpStepAdvances(s.live, servers, Target(names, e), rs[0], up, a);
  }

  lemma RemoveAdvances(s: Sys, names: Names, a: Act, e: Event, ids: set<string>)
    requires a.t < |s.threads| && s.threads[a.t].event == e && !e.Ignored? && s.threads[a.t].pc == Removing(ids)
    requires ids != {} ==> a.pick in ids
    ensures Nearer(RemoveStep(s, names, a, e, ids).threads[a.t].pc, s.threads[a.t].pc)
  {
    if ids != {} { assert |ids - {a.pick}| == |ids| - 1; }
  }

  /** A handler that is running, or waits for a free lock, has a served step that brings it
      nearer its end. */
  lemma HandlerCanStep(tag: string -> Tag, names: Names, servers: set<string>, s: Sys, t: nat) returns (a: Act)
    requires Safe(tag, names, s) && t < |s.threads| && ServersKnown(names, servers)
    requires Active(s.threads[t].pc) || (s.threads[t].pc.Waiting? && s.threads[t].event.key !in s.locks)
    ensures a.t == t && Undisturbed(a)
    ensures t < |Next(s, names, servers, a).threads| &&
            Nearer(Next(s, names, servers, a).threads[t].pc, s.threads[t].pc)
  {
    var e := s.threads[t].event;
    a := Act(t, Fault.Served, false, "");
    assert Stepping(tag, names, s, t, e);
    match s.threads[t].pc {
      case Redirecting(rs, up) => RedirectAdvances(tag, names, servers, s, a, e, rs, up);
      case Removing(ids) =>
        if ids != {} {
          var id :| id in ids;
          a := a.(pick := id);
        }
        RemoveAdvances(s, names, a, e, ids);
      case Placing(rs, up) => PlaceAdvances(tag, names, servers, s, a, e, rs, up);
      case _ =>
    }
    StepMovesLock(names, servers, s, a);
  }

  /** Whoever waits for a taken lock waits for a running handler. */
  lemma SomeoneCanStep(s: Sys, t: nat) returns (u: nat)
    requires Locked(s) && t < |s.threads| && !s.threads[t].pc.Finished?
    ensures u < |s.threads| && !s.threads[u].pc.Finished?
    ensures Active(s.threads[u].pc) || (s.threads[u].pc.Waiting? && s.threads[u].event.key !in s.locks)
  {
    u := if s.threads[t].pc.Waiting? && s.threads[t].event.key in s.locks then s.locks[s.threads[t].event.key] else t;
  }

  // ---------- to the end ----------

  lemma {:induction false} ExecThen(s: Sys, names: Names, servers: set<string>, a: seq<Act>, b: seq<Act>)
    requires NoneIgnored(s) && NoneIgnored(Exec(s, names, servers, a))
    ensures Exec(s, names, servers, a + b) == Exec(Exec(s, names, servers, a), names, servers, b)
    decreases |b|
  {
    if b == [] {
      assert a + b == a;
    } else {
      assert (a + b)[..|a + b| - 1] == a + b[..|b| - 1];
      ExecThen(s, names, servers, a, b[..|b| - 1]);
    }
  }

  lemma ExecFirst(s: Sys, names: Names, servers: set<string>, a: Act, rest: seq<Act>)
    requires NoneIgnored(s) && NoneIgnored(Next(s, names, servers, a))
    ensures Exec(s, names, servers, [a] + rest) == Exec(Next(s, names, servers, a), names, servers, rest)
  {
    assert [a][..0] == [] && Exec(s, names, servers, []) == s;
    assert Exec(s, names, servers, [a]) == Next(s, names, servers, a);
    ExecThen(s, names, servers, [a], rest);
  }

  /** One handler run to its end; the others stay where they are. */
  lemma {:induction false} HandlerCanFinish(tag: string -> Tag, names: Names, servers: set<string>, s: Sys, t: nat)
    returns (acts: seq<Act>)
    requires Safe(tag, names, s) && NoneIgnored(s) && t < |s.threads| && ServersKnown(names, servers)
    requires Active(s.threads[t].pc) || (s.threads[t].pc.Waiting? && s.threads[t].event.key !in s.locks)
    ensures forall a :: a in acts ==> Undisturbed(a)
    ensures var s' := Exec(s, names, servers, acts);
      && |s'.threads| == |s.threads| && s'.threads[t].pc.Finished?
      && forall u | 0 <= u < |s.threads| && u != t :: s'.threads[u] == s.threads[u]
    decreases Phase(s.threads[t].pc), Size(s.threads[t].pc), CallRank(s.threads[t].pc)
  {
    var a := HandlerCanStep(tag, names, servers, s, t);
    var s1 := Next(s, names, servers, a);
    StepIsSafe(tag, names, servers, s, a);
    SafeMeansNoneIgnored(tag, names, s1);
    StepMovesLock(names, servers, s, a);
    var rest := [];
    if !s1.threads[t].pc.Finished? { rest := HandlerCanFinish(tag, names, servers, s1, t); }
    acts := [a] + rest;
    ExecFirst(s, names, servers, a, rest);
  }

  function Unfinished(s: Sys): set<nat> { set t: nat | t < |s.threads| && !s.threads[t].pc.Finished? }

  lemma UnfinishedShrinks(s: Sys, s': Sys, u: nat)
    requires u < |s.threads| && !s.threads[u].pc.Finished? && |s'.threads| == |s.threads| && s'.threads[u].pc.Finished?
    requires forall v | 0 <= v < |s.threads| && v != u :: s'.threads[v] == s.threads[v]
    ensures |Unfinished(s')| < |Unfinished(s)|
  {
    assert Unfinished(s') == Unfinished(s) - {u};
  }

  /** From every safe state fault-free steps finish every handler. */
  lemma {:induction false} EveryHandlerCanFinish(tag: string -> Tag, names: Names, servers: set<string>, s: Sys)
    returns (acts: seq<Act>)
    requires Safe(tag, names, s) && NoneIgnored(s) && ServersKnown(names, servers)
    ensures forall a :: a in acts ==> Undisturbed(a)
    ensures var s' := Exec(s, names, servers, acts);
      |s'.threads| == |s.threads| && forall t | 0 <= t < |s'.threads| :: s'.threads[t].pc.Finished?
    decreases |Unfinished(s)|
  {
    if t :| t in Unfinished(s) {
      var u := SomeoneCanStep(s, t);
      var first := HandlerCanFinish(tag, names, servers, s, u);
      var s1 := Exec(s, names, servers, first);
      EveryScheduleIsSafe(tag, names, servers, s, first);
      UnfinishedShrinks(s, s1, u);
      var rest := EveryHandlerCanFinish(tag, names, servers, s1);
      acts := first + rest;
      ExecThen(s, names, servers, first, rest);
    } else {
      acts := [];
      forall t | 0 <= t < |s.threads| ensures s.threads[t].pc.Finished? { assert t !in Unfinished(s); }
    }
  }

  /** Whatever schedule and faults came before, the handlers of every good start can all finish. */
  lemma EveryScheduleCanComplete(tag: string -> Tag, names: Names, servers: set<string>, live: seq<Live>,
                                 routeIDs: map<string, seq<string>>, store: map<string, seq<string>>,
                                 evs: seq<Event>, sofar: seq<Act>) returns (rest: seq<Act>)
    requires GoodStart(tag, live, routeIDs, evs) && ServersKnown(names, servers)
    requires NoneIgnored(Initial(live, routeIDs, store, evs))
    ensures forall a :: a in rest ==> Undisturbed(a)
    ensures var s := Exec(Initial(live, routeIDs, store, evs), names, servers, sofar + rest);
      |s.threads| == |evs| && forall t | 0 <= t < |s.threads| :: s.threads[t].pc.Finished?
  {
    var s0 := Initial(live, routeIDs, store, evs);
    InitialIsSafe(tag, names, live, routeIDs, store, evs);
    EveryScheduleIsSafe(tag, names, servers, s0, sofar);
    EventsStayTheirs(names, servers, s0, sofar);
    rest := EveryHandlerCanFinish(tag, names, servers, Exec(s0, names, servers, sofar));
    ExecThen(s0, names, servers, sofar, rest);
  }
}
