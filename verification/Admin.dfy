/** The admin API client of admin.go against a remote Caddy whose answers may be lost. Every
    call is served, or lost before it has any effect, or takes effect and loses its reply. */
module Admin {
  import opened Strings
  import opened Routes
  import opened LiveConfig

  datatype Fault = Served | LostRequest | LostReply

  datatype Call = Get(id: string) | Delete(id: string) | Post(server: string, route: CaddyRoute) {
    function Id(): string { if Post? then route.id else id }
  }

  /** One admin call, whether it reported an error, and the live routes before and after it. */
  datatype Step = Step(call: Call, err: bool, before: seq<Live>, after: seq<Live>)

  /** A step that leaves everything outside ids alone, writes only ids, and never posts a
      route whose id is live. */
  ghost predicate StepWithin(s: Step, base: seq<Live>, ids: iset<string>) {
    && Except(s.after, ids) == Except(base, ids)
    && (!s.call.Get? ==> s.call.Id() in ids)
    && (s.call.Post? ==> !HasId(s.before, s.call.Id()))
  }

  /** All steps from index from on. */
  ghost predicate Within(trace: seq<Step>, from: nat, base: seq<Live>, ids: iset<string>) {
    forall k | from <= k < |trace| :: StepWithin(trace[k], base, ids)
  }

  /** Nothing was written from index from on. */
  predicate GetsOnly(trace: seq<Step>, from: nat) {
    forall k | from <= k < |trace| :: trace[k].call.Get?
  }

  /** Every call from index from on is about one of the ids. */
  ghost predicate Concerns(trace: seq<Step>, from: nat, ids: iset<string>) {
    forall k | from <= k < |trace| :: trace[k].call.Id() in ids
  }

  /** A GET or DELETE of the id that reported an error. */
  predicate FailsOn(s: Step, id: string) { s.err && !s.call.Post? && s.call.Id() == id }

  /** Some GET or DELETE of the id from index from on reported an error. */
  predicate Reported(trace: seq<Step>, from: nat, id: string) {
    exists k | from <= k < |trace| :: FailsOn(trace[k], id)
  }

  /** No GET or DELETE from index from on reported an error. */
  predicate NoneReported(trace: seq<Step>, from: nat) {
    forall k | from <= k < |trace| :: trace[k].err ==> trace[k].call.Post?
  }

  /** Some call about the id is among the failed ones from index from on. */
  predicate Stumbled(failures: seq<Call>, from: nat, id: string) {
    exists k | from <= k < |failures| :: failures[k].Id() == id
  }

  /** How many of the calls numbered from a up to b are not served. */
  function FaultsIn(faults: nat -> Fault, a: nat, b: nat): nat {
    if b <= a then 0 else FaultsIn(faults, a, b - 1) + (if faults(b - 1) != Served then 1 else 0)
  }

  /** What a series of calls from index from on left: at every step and in the end the routes
      outside ids are in place, and nothing changed unless something was written. */
  ghost predicate Confined(trace: seq<Step>, from: nat, base: seq<Live>, now: seq<Live>, ids: iset<string>) {
    && Within(trace, from, base, ids)
    && Except(now, ids) == Except(base, ids)
    && (GetsOnly(trace, from) ==> now == base)
  }

  lemma ConfinedToNothing(trace: seq<Step>, from: nat, base: seq<Live>, now: seq<Live>, ids: iset<string>)
    requires Confined(trace, from, base, now, ids) && ids == iset{}
    ensures GetsOnly(trace, from)
  {
    forall k | from <= k < |trace| ensures trace[k].call.Get? { assert StepWithin(trace[k], base, ids); }
  }

  lemma NothingYet(trace: seq<Step>, from: nat, base: seq<Live>, ids: iset<string>)
    requires from == |trace|
    ensures Confined(trace, from, base, base, ids)
  {}

  lemma ConfinedMore(trace: seq<Step>, from: nat, base: seq<Live>, now: seq<Live>, ids: iset<string>,
                     more: iset<string>)
    requires Confined(trace, from, base, now, ids) && ids <= more
    ensures Confined(trace, from, base, now, more)
  {
    WithinMore(trace, from, base, ids, more);
    AgreeOutsideMore(now, base, ids, more);
  }

  /** Two series of calls one after the other. */
  lemma ConfinedThen(first: seq<Step>, all: seq<Step>, from: nat, base: seq<Live>, mid: seq<Live>, now: seq<Live>,
                     a: iset<string>, b: iset<string>, ids: iset<string>)
    requires Confined(first, from, base, mid, a) && first <= all && from <= |first|
    requires Confined(all, |first|, mid, now, b) && a <= ids && b <= ids
    ensures Confined(all, from, base, now, ids)
  {
    ConfinedMore(first, from, base, mid, a, ids);
    ConfinedMore(all, |first|, mid, now, b, ids);
    WithinThen(first, all, from, base, mid, ids);
    if GetsOnly(all, from) {
      assert forall k | from <= k < |first| :: first[k] == all[k];
      assert GetsOnly(first, from);
    }
  }

  lemma WithinMore(trace: seq<Step>, from: nat, base: seq<Live>, ids: iset<string>, more: iset<string>)
    requires Within(trace, from, base, ids) && ids <= more
    ensures Within(trace, from, base, more)
  {
    forall k | from <= k < |trace| ensures StepWithin(trace[k], base, more) {
      assert StepWithin(trace[k], base, ids);
      AgreeOutsideMore(trace[k].after, base, ids, more);
    }
  }

  lemma WithinThen(first: seq<Step>, all: seq<Step>, from: nat, base: seq<Live>, mid: seq<Live>, ids: iset<string>)
    requires Within(first, from, base, ids) && first <= all
    requires Within(all, |first|, mid, ids) && Except(mid, ids) == Except(base, ids)
    ensures Within(all, from, base, ids)
  {
    forall k | from <= k < |all| ensures StepWithin(all[k], base, ids) {
      if k < |first| {
        assert all[k] == first[k];
      } else {
        assert StepWithin(all[k], mid, ids);
      }
    }
  }

  lemma WithinNext(trace: seq<Step>, from: nat, base: seq<Live>, ids: iset<string>, s: Step)
    requires Within(trace, from, base, ids) && StepWithin(s, base, ids)
    ensures Within(trace + [s], from, base, ids)
  {
    forall k | from <= k < |trace + [s]| ensures StepWithin((trace + [s])[k], base, ids) {
      if k < |trace| { assert StepWithin(trace[k], base, ids); }
    }
  }

  lemma GetsOnlyNext(trace: seq<Step>, from: nat, s: Step)
    requires from <= |trace|
    ensures GetsOnly(trace + [s], from) <==> GetsOnly(trace, from) && s.call.Get?
  {
    assert forall k | 0 <= k < |trace| :: (trace + [s])[k] == trace[k];
    assert (trace + [s])[|trace|] == s;
  }

  lemma ReportedNext(trace: seq<Step>, from: nat, s: Step, id: string)
    requires from <= |trace|
    ensures Reported(trace + [s], from, id) <==> Reported(trace, from, id) || FailsOn(s, id)
  {
    assert forall k | 0 <= k < |trace| :: (trace + [s])[k] == trace[k];
    assert (trace + [s])[|trace|] == s;
  }

  /** One more call about one of the ids. */
  lemma ConfinedNext(trace: seq<Step>, from: nat, base: seq<Live>, now: seq<Live>, ids: iset<string>, s: Step)
    requires Confined(trace, from, base, now, ids) && from <= |trace| && StepWithin(s, base, ids)
    requires s.call.Get? ==> s.after == now
    ensures Confined(trace + [s], from, base, s.after, ids)
  {
    WithinNext(trace, from, base, ids, s);
    GetsOnlyNext(trace, from, s);
  }

  /** The remote Caddy. */
  class Caddy {
    var live: seq<Live>
    const servers: set<string>
    const faults: nat -> Fault
    const cancels: nat -> bool
    /** Calls and waits so far. */
    var clock: nat
    ghost var trace: seq<Step>
    /** The calls of the trace that reported an error, in order. */
    ghost var failures: seq<Call>
    /** The waits so far: whether each was cancelled. */
    ghost var waits: seq<bool>

    constructor (live: seq<Live>, servers: set<string>, faults: nat -> Fault, cancels: nat -> bool)
      requires UniqueIds(live)
      ensures this.live == live && this.servers == servers && this.faults == faults && this.cancels == cancels
      ensures Valid() && trace == [] && failures == [] && waits == []
    {
      this.live, this.servers, this.faults, this.cancels := live, servers, faults, cancels;
      this.clock, this.trace, this.failures, this.waits := 0, [], [], [];
    }

    ghost predicate Valid() reads this { UniqueIds(live) }

    /** No call from now on fails and no wait is cancelled. */
    ghost predicate FaultFree() reads this {
      forall n :: clock <= n ==> faults(n) == Served && !cancels(n)
    }

    /** GET /id/<id>: an error, or the route, or nothing. */
    method GetRoute(id: string) returns (err: bool, found: Option<CaddyRoute>)
      modifies `clock, `trace, `failures
      ensures clock == old(clock) + 1 && (err <==> faults(old(clock)) != Served)
      ensures live == old(live) && trace == old(trace) + [Step(Get(id), err, live, live)]
      ensures failures == old(failures) + if err then [Get(id)] else []
      ensures !err ==> found == if Lookup(live, id).Some? then Some(Lookup(live, id).value.route) else None
      ensures old(FaultFree()) ==> !err && FaultFree()
    {
      err := faults(clock) != Served;
      clock := clock + 1;
      var entry := Lookup(live, id);
      found := if entry.Some? then Some(entry.value.route) else None;
      trace := trace + [Step(Get(id), err, live, live)];
      failures := failures + if err then [Get(id)] else [];
    }

    /** DELETE /id/<id>: an id that is not live is an error. */
    method DeleteId(id: string) returns (err: bool)
      requires Valid()
      modifies `live, `clock, `trace, `failures
      ensures Valid() && clock == old(clock) + 1
      ensures err <==> faults(old(clock)) != Served || !old(HasId(live, id))
      ensures live == old(live) || (old(HasId(live, id)) && live == Removed(old(live), id))
      ensures trace == old(trace) + [Step(Delete(id), err, old(live), live)]
      ensures failures == old(failures) + if err then [Delete(id)] else []
      ensures !err ==> live == Removed(old(live), id)
      ensures old(FaultFree()) ==> FaultFree()
      ensures old(FaultFree()) && old(HasId(live, id)) ==> !err
    {
      var fault := faults(clock);
      clock := clock + 1;
      var known := Lookup(live, id).Some?;
      err := fault != Served || !known;
      ghost var before := live;
      if fault != LostRequest && known {
        UniqueExcept(live, iset{id});
        live := Removed(live, id);
      }
      trace := trace + [Step(Delete(id), err, before, live)];
      failures := failures + if err then [Delete(id)] else [];
    }

    /** POST to a server's routes: an unknown server or a duplicate @id is refused. */
    method PostRoute(server: string, r: CaddyRoute) returns (err: bool)
      requires Valid()
      modifies `live, `clock, `trace, `failures
      ensures Valid() && clock == old(clock) + 1
      ensures err <==> faults(old(clock)) != Served || server !in servers || old(HasId(live, r.id))
      ensures live == old(live) || (!old(HasId(live, r.id)) && live == old(live) + [Live(server, r)])
      ensures trace == old(trace) + [Step(Post(server, r), err, old(live), live)]
      ensures failures == old(failures) + if err then [Post(server, r)] else []
      ensures !err ==> !old(HasId(live, r.id)) && live == old(live) + [Live(server, r)]
      ensures old(FaultFree()) ==> FaultFree()
      ensures old(FaultFree()) && server in servers && !old(HasId(live, r.id)) ==> !err
    {
      var fault := faults(clock);
      clock := clock + 1;
      var accepted := server in servers && Lookup(live, r.id).None?;
      err := fault != Served || !accepted;
      ghost var before := live;
      if fault != LostRequest && accepted {
        UniqueAppend(live, Live(server, r));
        live := live + [Live(server, r)];
      }
      trace := trace + [Step(Post(server, r), err, before, live)];
      failures := failures + if err then [Post(server, r)] else [];
    }

    /** The wait between attempts; true when the context was cancelled meanwhile. */
    method Backoff() returns (cancelled: bool)
      modifies `clock, `waits
      ensures clock == old(clock) + 1 && cancelled == cancels(old(clock)) && waits == old(waits) + [cancelled]
      ensures old(FaultFree()) ==> !cancelled && FaultFree()
    {
      cancelled := cancels(clock);
      clock, waits := clock + 1, waits + [cancelled];
    }
  }

  datatype Error = NoError | GetFailed | DeleteFailed | PostFailed | Cancelled

  /** What a route's entry may be after an upsert that was cut short. */
  predicate CutShort(before: seq<Live>, after: seq<Live>, server: string, r: CaddyRoute) {
    var now := Lookup(after, r.id);
    now == None || now == Lookup(before, r.id) || now == Some(Live(server, r))
  }

  /** The id an upsert of r may write: none when r is up to date. */
  ghost function OutOfDate(c: seq<Live>, r: CaddyRoute): iset<string> {
    if UpToDate(c, r) then iset{} else iset{r.id}
  }

  /** What holds throughout an upsert of r that began with live routes base. */
  ghost predicate Underway(trace: seq<Step>, from: nat, live: seq<Live>, base: seq<Live>, server: string, r: CaddyRoute)
  {
    && from <= |trace|
    && Within(trace, from, base, OutOfDate(base, r))
    && Concerns(trace, from, iset{r.id})
    && (GetsOnly(trace, from) ==> live == base)
    && Except(live, iset{r.id}) == Except(base, iset{r.id})
    && CutShort(base, live, server, r)
    && (UpToDate(base, r) ==> live == base)
  }

  /** A GET, or a write of r's id that leaves nothing, the same or the new route, keeps it. */
  lemma UnderwayStep(trace: seq<Step>, from: nat, live: seq<Live>, base: seq<Live>, server: string, r: CaddyRoute,
                     s: Step)
    requires Underway(trace, from, live, base, server, r)
    requires s.before == live && s.call.Id() == r.id
    requires s.call.Get? ==> s.after == live
    requires !s.call.Get? ==> !UpToDate(live, r)
    requires s.call.Post? ==> !HasId(live, r.id)
    requires Except(s.after, iset{r.id}) == Except(live, iset{r.id})
    requires Lookup(s.after, r.id) in {None, Lookup(live, r.id), Some(Live(server, r))}
    ensures Underway(trace + [s], from, s.after, base, server, r)
    ensures NoneReported(trace, from) && (s.err ==> s.call.Post?) ==> NoneReported(trace + [s], from)
  {
    if UpToDate(base, r) { assert s.after == base; }
    WithinNext(trace, from, base, OutOfDate(base, r), s);
    GetsOnlyNext(trace, from, s);
  }

  function FailureOf(c: Call): Error {
    match c
    case Get(_) => GetFailed
    case Delete(_) => DeleteFailed
    case Post(_, _) => PostFailed
  }

  /** No more failed calls, or one, about the id and with this error. */
  predicate OneMore(before: seq<Call>, after: seq<Call>, id: string, err: Error) {
    && before <= after && err != Cancelled
    && (if err == NoError then after == before
        else |after| == |before| + 1 && after[|before|].Id() == id && FailureOf(after[|before|]) == err)
  }

  /** How often upsertRoute tries, by its failed calls and its waits: it gives up only with the
      error of a third failed call, or when a wait is cancelled; each failure but a third one is
      followed by one wait. */
  ghost predicate Persevered(err: Error, failures: seq<Call>, failed: nat, id: string, waits: seq<bool>, waited: nat) {
    && failed <= |failures| && waited <= |waits|
    && (forall k | failed <= k < |failures| :: failures[k].Id() == id)
    && (forall k | waited <= k < |waits| :: waits[k] <==> err == Cancelled && k == |waits| - 1)
    && var errors := |failures| - failed;
       if err == NoError then errors <= 2 && |waits| - waited == errors
       else if err == Cancelled then 1 <= errors <= 2 && |waits| - waited == errors
       else errors == 3 && |waits| - waited == 2 && err == FailureOf(failures[|failures| - 1])
  }

  /** After some failed attempts. */
  ghost predicate Failing(failures: seq<Call>, failed: nat, id: string, waits: seq<bool>, waited: nat, attempts: nat,
                          lastErr: Error)
  {
    && |failures| == failed + attempts && (forall k | failed <= k < |failures| :: failures[k].Id() == id)
    && (attempts > 0 ==> lastErr != NoError && lastErr != Cancelled && lastErr == FailureOf(failures[|failures| - 1]))
    && |waits| == waited + (if attempts == 0 then 0 else attempts - 1)
    && (forall k | waited <= k < |waits| :: !waits[k])
  }

  lemma FailingNext(before: seq<Call>, after: seq<Call>, failed: nat, id: string, waits: seq<bool>, waited: nat,
                    attempts: nat, lastErr: Error, err: Error)
    requires Failing(before, failed, id, waits, waited, attempts, lastErr) && attempts <= 2
    requires if err == Cancelled then attempts > 0 && after == before else OneMore(before, after, id, err)
    ensures var now := waits + if attempts == 0 then [] else [err == Cancelled];
            if err == NoError || err == Cancelled then Persevered(err, after, failed, id, now, waited)
            else Failing(after, failed, id, now, waited, attempts + 1, err)
  {}

  lemma PerseveredMeansStumbled(err: Error, failures: seq<Call>, failed: nat, id: string, waits: seq<bool>, waited: nat)
    requires Persevered(err, failures, failed, id, waits, waited) && err != NoError
    ensures Stumbled(failures, failed, id)
  {
    assert failures[|failures| - 1].Id() == id;
  }

  lemma {:induction false} FaultsGrow(faults: nat -> Fault, a: nat, b: nat, c: nat)
    requires b <= c
    ensures FaultsIn(faults, a, b) <= FaultsIn(faults, a, c)
    decreases c
  {
    if b < c { FaultsGrow(faults, a, b, c - 1); }
  }

  class AdminClient {
    const caddy: Caddy

    constructor (caddy: Caddy)
      ensures this.caddy == caddy
    {
      this.caddy := caddy;
    }

    /** upsertRoute: three attempts of GET, DELETE when stale, POST. */
    method UpsertRoute(server: string, r: CaddyRoute) returns (err: Error)
      requires caddy.Valid()
      modifies caddy
      ensures caddy.Valid()
      // every step leaves the other routes in place and writes r's id only when r is out of date
      ensures old(caddy.trace) <= caddy.trace
      ensures Confined(caddy.trace, |old(caddy.trace)|, old(caddy.live), caddy.live, OutOfDate(old(caddy.live), r))
      ensures Concerns(caddy.trace, |old(caddy.trace)|, iset{r.id})
      // success means the requested content is live; failure leaves nothing, the old or the new
      ensures err == NoError ==> UpToDate(caddy.live, r) && (r.id != "" ==> OnlyLive(caddy.live, r))
      ensures CutShort(old(caddy.live), caddy.live, server, r)
      // it tries until it succeeds, fails a third time or is cancelled
      ensures old(caddy.failures) <= caddy.failures
      ensures Persevered(err, caddy.failures, |old(caddy.failures)|, r.id, caddy.waits, |old(caddy.waits)|)
      ensures err != NoError ==> Stumbled(caddy.failures, |old(caddy.failures)|, r.id)
      ensures err == Cancelled ==> exists n | old(caddy.clock) <= n < caddy.clock :: caddy.cancels(n)
      // so at a known server two faults are survived
      ensures server in caddy.servers && FaultsIn(caddy.faults, old(caddy.clock), caddy.clock) <= 2
              && (forall n | old(caddy.clock) <= n < caddy.clock :: !caddy.cancels(n)) ==>
                err == NoError
      ensures old(caddy.FaultFree()) ==> caddy.FaultFree() && NoneReported(caddy.trace, |old(caddy.trace)|)
      ensures old(caddy.FaultFree()) && server in caddy.servers ==>
                err == NoError && caddy.live == Upserted(old(caddy.live), server, r)
    {
      ghost var from, failed, waited, start := |caddy.trace|, |caddy.failures|, |caddy.waits|, caddy.clock;
      err := TryThrice(server, r);
      if err == NoError {
        if r.id != "" { UpToDateIsTheOnlyOne(caddy.live, r); }
      } else {
        PerseveredMeansStumbled(err, caddy.failures, failed, r.id, caddy.waits, waited);
      }
    }

    /** The loop of upsertRoute. */
    method TryThrice(server: string, r: CaddyRoute) returns (lastErr: Error)
      requires caddy.Valid()
      modifies caddy
      ensures caddy.Valid()
      ensures old(caddy.trace) <= caddy.trace && old(caddy.failures) <= caddy.failures
      ensures old(caddy.clock) <= caddy.clock
      ensures Underway(caddy.trace, |old(caddy.trace)|, caddy.live, old(caddy.live), server, r)
      ensures lastErr == NoError ==> UpToDate(caddy.live, r)
      ensures Persevered(lastErr, caddy.failures, |old(caddy.failures)|, r.id, caddy.waits, |old(caddy.waits)|)
      ensures lastErr == Cancelled ==> exists n | old(caddy.clock) <= n < caddy.clock :: caddy.cancels(n)
      ensures server in caddy.servers && lastErr != NoError && lastErr != Cancelled ==>
                3 <= FaultsIn(caddy.faults, old(caddy.clock), caddy.clock)
      ensures old(caddy.FaultFree()) ==> NoneReported(caddy.trace, |old(caddy.trace)|)
      ensures old(caddy.FaultFree()) && server in caddy.servers ==>
                lastErr == NoError && caddy.live == Upserted(old(caddy.live), server, r)
    {
      ghost var base, from, start := caddy.live, |caddy.trace|, caddy.clock;
      ghost var failed, waited := |caddy.failures|, |caddy.waits|;
      ghost var known := server in caddy.servers;
      lastErr := NoError;
      for attempt := 0 to 3
        invariant caddy.Valid()
        invariant old(caddy.trace) <= caddy.trace && old(caddy.failures) <= caddy.failures
        invariant Underway(caddy.trace, from, caddy.live, base, server, r)
        invariant Failing(caddy.failures, failed, r.id, caddy.waits, waited, attempt, lastErr)
        invariant start <= caddy.clock && (known ==> attempt <= FaultsIn(caddy.faults, start, caddy.clock))
        invariant old(caddy.FaultFree()) ==> NoneReported(caddy.trace, from)
        invariant attempt > 0 ==> !(old(caddy.FaultFree()) && known)
        invariant attempt == 0 ==> caddy.live == base
      {
        ghost var failures, waits, before := caddy.failures, caddy.waits, caddy.clock;
        var err := NextAttempt(attempt, server, r, base, from);
        FailingNext(failures, caddy.failures, failed, r.id, waits, waited, attempt, lastErr, err);
        FaultsGrow(caddy.faults, start, before, caddy.clock - 1);
        lastErr := err;
        if lastErr == NoError || lastErr == Cancelled { return lastErr; }
      }
    }

    /** One pass of upsertRoute's loop: a wait, but for the first, and an attempt. */
    method NextAttempt(attempt: nat, server: string, r: CaddyRoute, ghost base: seq<Live>, ghost from: nat)
      returns (err: Error)
      requires caddy.Valid()
      requires Underway(caddy.trace, from, caddy.live, base, server, r)
      modifies caddy
      ensures caddy.Valid()
      ensures old(caddy.trace) <= caddy.trace
      ensures Underway(caddy.trace, from, caddy.live, base, server, r)
      ensures err == NoError ==> caddy.live == Upserted(old(caddy.live), server, r) && UpToDate(caddy.live, r)
      ensures caddy.waits == old(caddy.waits) + if attempt == 0 then [] else [err == Cancelled]
      ensures if err == Cancelled then attempt > 0 && caddy.failures == old(caddy.failures)
              else OneMore(old(caddy.failures), caddy.failures, r.id, err)
      ensures old(caddy.clock) < caddy.clock && (err == Cancelled ==> caddy.cancels(old(caddy.clock)))
      ensures FailureExplained(err, server)
      ensures err != GetFailed && err != DeleteFailed && NoneReported(old(caddy.trace), from) ==>
                NoneReported(caddy.trace, from)
    {
      var cancelled := WaitBefore(attempt);
      if cancelled { return Cancelled; }
      err := Attempt(server, r, base, from);
    }

    /** Every attempt but the first is preceded by a wait. */
    method WaitBefore(attempt: nat) returns (cancelled: bool)
      modifies caddy`clock, caddy`waits
      ensures caddy.waits == old(caddy.waits) + if attempt == 0 then [] else [cancelled]
      ensures old(caddy.clock) <= caddy.clock
      ensures cancelled ==> attempt > 0 && old(caddy.clock) < caddy.clock && caddy.cancels(old(caddy.clock))
    {
      cancelled := false;
      if attempt > 0 { cancelled := caddy.Backoff(); }
    }

    /** Only the POST to an unknown server fails without a fault of the latest call. */
    ghost predicate FailureExplained(err: Error, server: string) reads caddy {
      match err
      case NoError => true
      case Cancelled => true
      case PostFailed => server in caddy.servers ==> caddy.clock > 0 && caddy.faults(caddy.clock - 1) != Served
      case _ => caddy.clock > 0 && caddy.faults(caddy.clock - 1) != Served
    }

    /** One attempt. */
    method Attempt(server: string, r: CaddyRoute, ghost base: seq<Live>, ghost from: nat) returns (err: Error)
      requires caddy.Valid()
      requires Underway(caddy.trace, from, caddy.live, base, server, r)
      modifies caddy`live, caddy`clock, caddy`trace, caddy`failures
      ensures caddy.Valid()
      ensures old(caddy.trace) <= caddy.trace
      ensures Underway(caddy.trace, from, caddy.live, base, server, r)
      ensures err == NoError ==> caddy.live == Upserted(old(caddy.live), server, r) && UpToDate(caddy.live, r)
      ensures OneMore(old(caddy.failures), caddy.failures, r.id, err)
      ensures old(caddy.clock) < caddy.clock
      ensures FailureExplained(err, server)
      ensures err != GetFailed && err != DeleteFailed && NoneReported(old(caddy.trace), from) ==>
                NoneReported(caddy.trace, from)
    {
      ghost var seen, trace0 := caddy.live, caddy.trace;
      var getErr, current := caddy.GetRoute(r.id);
      UnderwayStep(trace0, from, seen, base, server, r, Step(Get(r.id), getErr, seen, seen));
      if getErr { return GetFailed; }
      if current.Some? && current.value == r { return NoError; }
      err := Replace(server, r, current.Some?, base, from);
    }

    /** The rest of an attempt, when the GET found other content or none. */
    method Replace(server: string, r: CaddyRoute, present: bool, ghost base: seq<Live>, ghost from: nat)
      returns (err: Error)
      requires caddy.Valid() && (present <==> HasId(caddy.live, r.id)) && !UpToDate(caddy.live, r)
      requires Underway(caddy.trace, from, caddy.live, base, server, r)
      modifies caddy`live, caddy`clock, caddy`trace, caddy`failures
      ensures caddy.Valid()
      ensures old(caddy.trace) <= caddy.trace
      ensures Underway(caddy.trace, from, caddy.live, base, server, r)
      ensures err == NoError ==> caddy.live == Upserted(old(caddy.live), server, r) && UpToDate(caddy.live, r)
      ensures OneMore(old(caddy.failures), caddy.failures, r.id, err)
      ensures old(caddy.clock) < caddy.clock
      ensures FailureExplained(err, server)
      ensures err != GetFailed && err != DeleteFailed && NoneReported(old(caddy.trace), from) ==>
                NoneReported(caddy.trace, from)
    {
      ghost var seen := caddy.live;
      if present {
        var deleteErr := DropStale(server, r, seen, base, from);
        if deleteErr { return DeleteFailed; }
      } else {
        ExceptNothing(seen, iset{r.id});
      }
      err := PostFresh(server, r, seen, base, from);
    }

    /** The DELETE of an attempt, when the GET found other content. */
    method DropStale(server: string, r: CaddyRoute, ghost seen: seq<Live>, ghost base: seq<Live>, ghost from: nat)
      returns (err: bool)
      requires caddy.Valid() && caddy.live == seen && HasId(seen, r.id) && !UpToDate(seen, r)
      requires Underway(caddy.trace, from, seen, base, server, r)
      modifies caddy`live, caddy`clock, caddy`trace, caddy`failures
      ensures caddy.Valid()
      ensures old(caddy.trace) <= caddy.trace
      ensures OneMore(old(caddy.failures), caddy.failures, r.id, if err then DeleteFailed else NoError)
      ensures old(caddy.clock) < caddy.clock
      ensures FailureExplained(if err then DeleteFailed else NoError, server)
      ensures Underway(caddy.trace, from, caddy.live, base, server, r)
      ensures !err ==> caddy.live == Removed(seen, r.id)
      ensures !err && NoneReported(old(caddy.trace), from) ==> NoneReported(caddy.trace, from)
    {
      ghost var trace := caddy.trace;
      RemovalAgrees(seen, seen, r.id);
      err := caddy.DeleteId(r.id);
      UnderwayStep(trace, from, seen, base, server, r, Step(Delete(r.id), err, seen, caddy.live));
    }

    /** The POST at the end of an attempt, once r's id has been cleared from the routes seen. */
    method PostFresh(server: string, r: CaddyRoute, ghost seen: seq<Live>, ghost base: seq<Live>, ghost from: nat)
      returns (err: Error)
      requires caddy.Valid() && caddy.live == Removed(seen, r.id) && !UpToDate(seen, r)
      requires Underway(caddy.trace, from, caddy.live, base, server, r)
      modifies caddy`live, caddy`clock, caddy`trace, caddy`failures
      ensures caddy.Valid()
      ensures old(caddy.trace) <= caddy.trace
      ensures OneMore(old(caddy.failures), caddy.failures, r.id, err)
      ensures old(caddy.clock) < caddy.clock && (err == NoError || err == PostFailed)
      ensures FailureExplained(err, server)
      ensures Underway(caddy.trace, from, caddy.live, base, server, r)
      ensures err == NoError ==> caddy.live == Upserted(seen, server, r) && UpToDate(caddy.live, r)
      ensures NoneReported(old(caddy.trace), from) ==> NoneReported(caddy.trace, from)
    {
      ghost var cleared, trace := caddy.live, caddy.trace;
      LookupExcept(seen, iset{r.id}, r.id);
      AppendAgrees(cleared, cleared, Live(server, r));
      LookupAppend(cleared, [Live(server, r)], r.id);
      var postErr := caddy.PostRoute(server, r);
      UnderwayStep(trace, from, cleared, base, server, r, Step(Post(server, r), postErr, cleared, caddy.live));
      return if postErr then PostFailed else NoError;
    }

    /** deleteRoute: nothing to do when the id is not live. */
    method DeleteRoute(id: string) returns (err: Error)
      requires caddy.Valid()
      modifies caddy
      ensures caddy.Valid()
      ensures old(caddy.trace) <= caddy.trace && old(caddy.failures) <= caddy.failures
      ensures Confined(caddy.trace, |old(caddy.trace)|, old(caddy.live), caddy.live,
                       LiveAmong(old(caddy.live), iset{id}))
      ensures Concerns(caddy.trace, |old(caddy.trace)|, iset{id})
      ensures Reported(caddy.trace, |old(caddy.trace)|, id) <==> err != NoError
      ensures caddy.live == old(caddy.live) || caddy.live == Removed(old(caddy.live), id)
      ensures err == NoError ==> caddy.live == Removed(old(caddy.live), id)
      ensures old(caddy.FaultFree()) ==> caddy.FaultFree() && err == NoError
    {
      ghost var base, trace0 := caddy.live, caddy.trace;
      ghost var from, ids := |trace0|, LiveAmong(base, iset{id});
      var getErr, current := caddy.GetRoute(id);
      ghost var get := Step(Get(id), getErr, base, base);
      NothingYet(trace0, from, base, ids);
      ConfinedNext(trace0, from, base, base, ids, get);
      ReportedNext(trace0, from, get, id);
      if getErr { return GetFailed; }
      LookupExcept(base, iset{id}, id);
      if current.None? {
        ExceptNothing(base, iset{id});
        return NoError;
      }
      err := DropFound(id, base, from);
    }

    /** The DELETE of deleteRoute, after its GET found the id. */
    method DropFound(id: string, ghost base: seq<Live>, ghost from: nat) returns (err: Error)
      requires caddy.Valid() && caddy.live == base && HasId(base, id) && from <= |caddy.trace|
      requires Confined(caddy.trace, from, base, base, LiveAmong(base, iset{id}))
      requires !Reported(caddy.trace, from, id) && Concerns(caddy.trace, from, iset{id})
      modifies caddy
      ensures caddy.Valid()
      ensures old(caddy.trace) <= caddy.trace && old(caddy.failures) <= caddy.failures
      ensures Confined(caddy.trace, from, base, caddy.live, LiveAmong(base, iset{id}))
      ensures Concerns(caddy.trace, from, iset{id})
      ensures Reported(caddy.trace, from, id) <==> err != NoError
      ensures caddy.live == base || caddy.live == Removed(base, id)
      ensures err == NoError ==> caddy.live == Removed(base, id)
      ensures old(caddy.FaultFree()) ==> caddy.FaultFree() && err == NoError
    {
      ghost var trace := caddy.trace;
      RemovalAgrees(base, base, id);
      assert LiveAmong(base, iset{id}) == iset{id};
      var deleteErr := caddy.DeleteId(id);
      ghost var delete := Step(Delete(id), deleteErr, base, caddy.live);
      ConfinedNext(trace, from, base, base, iset{id}, delete);
      ReportedNext(trace, from, delete, id);
      return if deleteErr then DeleteFailed else NoError;
    }
  }

  /** Those of the ids that are live. */
  ghost function LiveAmong(c: seq<Live>, ids: iset<string>): iset<string> {
    iset id | id in ids && HasId(c, id)
  }

  lemma RemovalAgrees(c: seq<Live>, base: seq<Live>, id: string)
    requires Except(c, iset{id}) == Except(base, iset{id})
    ensures Except(Removed(c, id), iset{id}) == Except(base, iset{id})
    ensures Lookup(Removed(c, id), id) == None
  {
    ExceptTwice(c, iset{id}, iset{id});
    assert iset{id} + iset{id} == iset{id};
    LookupExcept(c, iset{id}, id);
  }

  lemma AppendAgrees(c: seq<Live>, base: seq<Live>, e: Live)
    requires Except(c, iset{e.route.id}) == Except(base, iset{e.route.id})
    ensures Except(c + [e], iset{e.route.id}) == Except(base, iset{e.route.id})
  {
    ExceptAppend(c, [e], iset{e.route.id});
  }
}
