/** Driving the reconciler: the handlers over lists of deliveries, and over several lives of the
    module with a restart between any two. */
module Driving {
  import opened Strings
  import opened Routes
  import opened LiveConfig
  import opened Admin
  import opened Store
  import opened SyncSpec
  import opened Reconciler
  import opened Convergence

  // ---------- deliveries ----------

  /** What the informer delivers: an add or update with its resolved annotations, or a delete. */
  datatype Input = Sync(ing: Ingress, ann: Annotations) | Remove(key: string)

  function EventOf(i: Input, sec: Security, ingressClass: string): Event
    requires i.Sync? ==> i.ann.Valid()
  {
    match i
    case Sync(ing, ann) => AddEvent(ing, sec, ann, ingressClass)
    case Remove(key) => Event.Delete(key)
  }

  predicate Resolved(inputs: seq<Input>) { forall i :: i in inputs && i.Sync? ==> i.ann.Valid() }

  function EventsOf(inputs: seq<Input>, sec: Security, ingressClass: string): (evs: seq<Event>)
    requires Resolved(inputs)
    ensures |evs| == |inputs|
    ensures forall k | 0 <= k < |inputs| :: evs[k] == EventOf(inputs[k], sec, ingressClass)
  {
    seq(|inputs|, k requires 0 <= k < |inputs| => EventOf(inputs[k], sec, ingressClass))
  }

  /** Resolved inputs whose ids are their own. */
  predicate Deliverable(tag: string -> Tag, inputs: seq<Input>, sec: Security, ingressClass: string) {
    Resolved(inputs) && forall i :: i in inputs ==> WellTagged(tag, EventOf(i, sec, ingressClass))
  }

  /** One delivery, dispatched to its handler. */
  method Handle(app: App, i: Input)
    requires app.Valid() && (i.Sync? ==> i.ann.Valid())
    modifies app, app.caddy, app.store
    ensures app.Valid()
    ensures old(app.caddy.trace) <= app.caddy.trace && old(app.caddy.failures) <= app.caddy.failures
    ensures var e := EventOf(i, app.security, app.ingressClass);
            && Confined(app.caddy.trace, |old(app.caddy.trace)|, old(app.caddy.live), app.caddy.live,
                        Touched(old(app.caddy.live), old(app.routeIDs), app.names, e))
            && Attended(app.names, e, old(app.routeIDs), app.caddy.live, app.caddy.trace, |old(app.caddy.trace)|,
                        app.caddy.failures, |old(app.caddy.failures)|)
            && app.routeIDs == Apply(old(app.State()), app.names, e).routeIDs
    ensures var e := EventOf(i, app.security, app.ingressClass);
            && app.leaked == old(app.leaked)
                             + FailedDeletions(app.caddy.trace, |old(app.caddy.trace)|, ToDelete(old(app.routeIDs), e))
            && (WellTagged(app.tag, e) && old(app.Tagged()) ==> app.Tagged())
            && (WellTagged(app.tag, e) && old(app.AllAccounted()) ==> app.AllAccounted())
    ensures old(app.StoreAgrees()) ==> app.StoreAgrees()
    ensures old(app.caddy.FaultFree()) ==> app.caddy.FaultFree() && app.leaked == old(app.leaked)
    ensures old(app.store.FaultFree()) ==> app.store.FaultFree() && app.storeFailed == old(app.storeFailed)
    ensures old(app.FaultFree()) ==> app.State() == Apply(old(app.State()), app.names,
                                                          EventOf(i, app.security, app.ingressClass))
  {
    match i
    case Sync(ing, ann) => app.HandleAdd(ing, ann);
    case Remove(key) => app.HandleDelete(key);
  }

  /** The only ids that enter the leak set: ids of keys the inputs are about, with a GET or DELETE
      of their own that reported an error in the part of the trace from index from on. */
  ghost predicate LeaksExplained(tag: string -> Tag, before: iset<string>, after: iset<string>, trace: seq<Step>,
                                 from: nat, evs: seq<Event>)
  {
    && before <= after
    && forall id :: id in after && id !in before ==>
         Reported(trace, from, id) && tag(id).RouteOf? && Mentioned(evs, tag(id).key)
  }

  /** Whatever failed, each route that its key's latest event asks for is up to date, or a call about
      it failed since index from. */
  ghost predicate Reached(live: seq<Live>, failures: seq<Call>, from: nat, evs: seq<Event>) {
    forall key :: Latest(evs, key).Some? ==>
      PlacedOrStumbled(Latest(evs, key).value, iset{}, live, failures, from)
  }

  /** No event is about a plain-HTTP Ingress while there is no HTTP server. */
  predicate NoneSkipped(names: Names, evs: seq<Event>) {
    forall e :: e in evs && e.Add? ==> !Skips(names, e.plain)
  }

  /** The handlers run over a list of inputs. Without faults the state is the specified run's. With
      faults, while ids tell their owners, every live compiled route stays accounted for and each
      leak has its failed deletion, and every wanted route is up to date or a call about it failed;
      ownership is the specified run's, and the store mirrors it as long as its own calls succeed. */
  method Drive(app: App, inputs: seq<Input>)
    requires app.Valid() && Resolved(inputs)
    modifies app, app.caddy, app.store
    ensures app.Valid()
    ensures old(app.caddy.trace) <= app.caddy.trace && old(app.caddy.failures) <= app.caddy.failures
    ensures app.routeIDs
         == Run(old(app.State()), app.names, EventsOf(inputs, app.security, app.ingressClass)).routeIDs
    ensures old(app.Tagged()) && Deliverable(app.tag, inputs, app.security, app.ingressClass)
            && NoneSkipped(app.names, EventsOf(inputs, app.security, app.ingressClass)) ==>
              Reached(app.caddy.live, app.caddy.failures, |old(app.caddy.failures)|,
                      EventsOf(inputs, app.security, app.ingressClass))
    ensures old(app.Tagged()) && Deliverable(app.tag, inputs, app.security, app.ingressClass) ==>
              && app.Tagged()
              && LeaksExplained(app.tag, old(app.leaked), app.leaked, app.caddy.trace, |old(app.caddy.trace)|,
                                EventsOf(inputs, app.security, app.ingressClass))
              && (old(app.AllAccounted()) ==> app.AllAccounted())
    ensures old(app.StoreAgrees()) ==> app.StoreAgrees()
    ensures old(app.caddy.FaultFree()) ==> app.caddy.FaultFree() && app.leaked == old(app.leaked)
    ensures old(app.store.FaultFree()) ==> app.store.FaultFree() && app.storeFailed == old(app.storeFailed)
    ensures old(app.FaultFree()) ==>
              app.State() == Run(old(app.State()), app.names, EventsOf(inputs, app.security, app.ingressClass))
  {
    ghost var evs := EventsOf(inputs, app.security, app.ingressClass);
    ghost var own := app.Tagged() && Deliverable(app.tag, inputs, app.security, app.ingressClass);
    ghost var begin := Begin(app.State(), app.leaked, app.caddy.trace, app.caddy.failures, app.storeFailed, own,
                             own && NoneSkipped(app.names, evs), app.AllAccounted(),
                             app.StoreAgrees(), app.caddy.FaultFree(), app.store.FaultFree(), app.FaultFree());
    HandleEach(app, inputs, begin);
  }

  /** The loop over the deliveries. */
  method HandleEach(app: App, inputs: seq<Input>, ghost b: Begin)
    requires OnTrack(app, b, []) && Resolved(inputs)
    requires b.own ==> Deliverable(app.tag, inputs, app.security, app.ingressClass)
    requires b.unskipped ==> NoneSkipped(app.names, EventsOf(inputs, app.security, app.ingressClass))
    modifies app, app.caddy, app.store
    ensures OnTrack(app, b, EventsOf(inputs, app.security, app.ingressClass))
  {
    ghost var evs := EventsOf(inputs, app.security, app.ingressClass);
    for k := 0 to |inputs|
      invariant OnTrack(app, b, evs[..k])
    {
      assert inputs[k] in inputs;
      Prefixes(evs, k);
      assert evs[k] in evs;
      HandleNext(app, inputs[k], b, evs[..k]);
    }
    Whole(evs);
  }

  lemma RunNext(s: AppState, names: Names, evs: seq<Event>, e: Event)
    ensures Run(s, names, evs + [e]) == Apply(Run(s, names, evs), names, e)
  {
    assert (evs + [e])[..|evs|] == evs;
  }

  /** The ownership map after an event depends on nothing else. */
  lemma OwnershipAlone(s: AppState, t: AppState, names: Names, e: Event)
    requires s.routeIDs == t.routeIDs
    ensures Apply(s, names, e).routeIDs == Apply(t, names, e).routeIDs
  {}

  lemma Prefixes<T>(s: seq<T>, k: nat)
    requires k < |s|
    ensures s[..k + 1] == s[..k] + [s[k]]
  {}

  lemma PrefixOfPrefix<T>(s: seq<T>, n: nat)
    requires 0 < n <= |s|
    ensures s[..n][..n - 1] == s[..n - 1] && s[..n][n - 1] == s[n - 1]
  {}

  lemma Whole<T>(s: seq<T>)
    ensures s[..|s|] == s
  {}

  /** What held when the loop began: the state, and which of the promises apply. */
  datatype Begin = Begin(state: AppState, leaked: iset<string>, trace: seq<Step>, failures: seq<Call>,
                         storeFailed: bool, own: bool, unskipped: bool, accounted: bool, agrees: bool,
                         caddyServes: bool, storeServes: bool, allServe: bool)

  /** All that Drive promises, after the events so far. */
  ghost predicate OnTrack(app: App, b: Begin, evs: seq<Event>)
    reads app, app.caddy, app.store
  {
    && app.Valid() && b.trace <= app.caddy.trace && b.failures <= app.caddy.failures
    && app.routeIDs == Run(b.state, app.names, evs).routeIDs
    && (b.unskipped ==> b.own && WantedTagged(app.tag, evs)
                        && Reached(app.caddy.live, app.caddy.failures, |b.failures|, evs))
    && (b.own ==> app.Tagged() && LeaksExplained(app.tag, b.leaked, app.leaked, app.caddy.trace, |b.trace|, evs))
    && (b.own && b.accounted ==> app.AllAccounted())
    && (b.agrees ==> app.StoreAgrees())
    && (b.caddyServes ==> app.caddy.FaultFree() && app.leaked == b.leaked)
    && (b.storeServes ==> app.store.FaultFree() && app.storeFailed == b.storeFailed)
    && (b.allServe ==> b.caddyServes && b.storeServes && app.FaultFree() && app.State() == Run(b.state, app.names, evs))
  }

  method HandleNext(app: App, i: Input, ghost b: Begin, ghost evs: seq<Event>)
    requires OnTrack(app, b, evs) && (i.Sync? ==> i.ann.Valid())
    requires b.own ==> WellTagged(app.tag, EventOf(i, app.security, app.ingressClass))
    requires b.unskipped ==> NoneSkipped(app.names, [EventOf(i, app.security, app.ingressClass)])
    modifies app, app.caddy, app.store
    ensures OnTrack(app, b, evs + [EventOf(i, app.security, app.ingressClass)])
  {
    ghost var sofar, mid, owned, e := app.caddy.trace, app.leaked, app.routeIDs,
        EventOf(i, app.security, app.ingressClass);
    ghost var live, failures := app.caddy.live, app.caddy.failures;
    OwnershipAlone(app.State(), Run(b.state, app.names, evs), app.names, e);
    Handle(app, i);
    RunNext(b.state, app.names, evs, e);
    if b.unskipped {
      assert e in [e];
      ReachedNext(app.tag, app.names, evs, e, owned, live, app.caddy.live, app.caddy.trace, |sofar|, failures,
                  app.caddy.failures, |b.failures|);
    }
    if b.own { OneMoreExplained(app.tag, b.leaked, mid, app.leaked, sofar, app.caddy.trace, |b.trace|, evs, e, owned); }
  }

  /** The routes that a key's latest event asks for have the key's own ids. */
  predicate WantedTagged(tag: string -> Tag, evs: seq<Event>) { forall e :: e in evs ==> WellTagged(tag, e) }

  /** An event places the routes of its own key, and its calls leave those of other keys alone. */
  lemma ReachedNext(tag: string -> Tag, names: Names, evs: seq<Event>, e: Event, owned: map<string, seq<string>>,
                    mid: seq<Live>, now: seq<Live>, trace: seq<Step>, from: nat, first: seq<Call>, all: seq<Call>,
                    failed: nat)
    requires WantedTagged(tag, evs) && WellTagged(tag, e) && OwnsTagged(tag, owned)
    requires e.Add? ==> !Skips(names, e.plain)
    requires Reached(mid, first, failed, evs) && first <= all && failed <= |first|
    requires var ids := Touched(mid, owned, names, e); Except(now, ids) == Except(mid, ids)
    requires Attended(names, e, owned, now, trace, from, all, |first|)
    ensures Reached(now, all, failed, evs + [e]) && WantedTagged(tag, evs + [e])
  {
    forall key | Latest(evs + [e], key).Some?
      ensures PlacedOrStumbled(Latest(evs + [e], key).value, iset{}, now, all, failed)
    {
      LatestAfter(evs, e, key);
      if About(e, key) {
        PlacedSince(e.routes, iset{}, now, all, failed, |first|);
      } else {
        var d := LatestComesFromAnEvent(evs, key);
        var ids := Touched(mid, owned, names, e);
        PlacedThen(d.routes, iset{}, ids, mid, now, first, all, failed);
        forall r | r in d.routes ensures r.id !in ids { OthersAreNotTouched(tag, mid, owned, names, e, key, r.id); }
      }
    }
  }

  lemma OthersAreNotTouched(tag: string -> Tag, c: seq<Live>, owned: map<string, seq<string>>, names: Names, e: Event,
                            key: string, id: string)
    requires WellTagged(tag, e) && OwnsTagged(tag, owned) && !About(e, key) && tag(id) == RouteOf(key)
    ensures id !in Touched(c, owned, names, e)
  {}

  lemma OneMoreExplained(tag: string -> Tag, start: iset<string>, before: iset<string>, after: iset<string>,
                         first: seq<Step>, all: seq<Step>, from: nat, evs: seq<Event>, e: Event,
                             owned: map<string, seq<string>>)
    requires first <= all && from <= |first| && OwnsTagged(tag, owned)
    requires LeaksExplained(tag, start, before, first, from, evs)
    requires after == before + FailedDeletions(all, |first|, ToDelete(owned, e))
    ensures LeaksExplained(tag, start, after, all, from, evs + [e])
  {
    forall id | id in after && id !in start
      ensures Reported(all, from, id) && tag(id).RouteOf? && Mentioned(evs + [e], tag(id).key)
    {
      ReportedSplits(first, all, from, id);
      MentionedAfter(evs, e, tag(id).key);
      if id !in before { assert id in ToDelete(owned, e) && tag(id) == RouteOf(e.key); }
    }
  }

  // ---------- restarts ----------

  /** A restart of the module over the same Caddy and Redis: ownership is read back as it was, so
      every live route stays accounted for, as long as the store's calls succeed. */
  method Restart(previous: App) returns (app: App)
    requires previous.Valid() && previous.StoreAgrees() && !previous.storeFailed && previous.store.FaultFree()
    modifies previous.store
    ensures fresh(app) && app.caddy == previous.caddy && app.store == previous.store
    ensures app.tag == previous.tag && app.names == previous.names
    ensures app.security == previous.security && app.ingressClass == previous.ingressClass
    ensures app.Valid() && app.StoreAgrees() && !app.storeFailed && app.store.FaultFree()
    ensures app.leaked == previous.leaked && app.State() == old(previous.State())
    ensures old(previous.Tagged()) ==> app.Tagged()
    ensures old(previous.AllAccounted()) ==> app.AllAccounted()
  {
    app := new App(previous.ingressClass, previous.security, previous.names, previous.caddy, previous.store,
                   previous.tag, previous.leaked);
    var err;
    ghost var at;
    err, at := app.Restore();
    assert app.routeIDs == previous.routeIDs;
  }

  function Concat(lives: seq<seq<Input>>): seq<Input> {
    if lives == [] then [] else lives[0] + Concat(lives[1..])
  }

  lemma EventsConcatenate(tag: string -> Tag, a: seq<Input>, b: seq<Input>, sec: Security, ingressClass: string)
    requires Deliverable(tag, a + b, sec, ingressClass)
    ensures Deliverable(tag, a, sec, ingressClass) && Deliverable(tag, b, sec, ingressClass)
    ensures EventsOf(a + b, sec, ingressClass) == EventsOf(a, sec, ingressClass) + EventsOf(b, sec, ingressClass)
  {
    assert forall i :: i in a ==> i in a + b;
    assert forall i :: i in b ==> i in a + b;
  }

  lemma {:induction false} RunAppend(s: AppState, names: Names, a: seq<Event>, b: seq<Event>)
    ensures Run(s, names, a + b) == Run(Run(s, names, a), names, b)
    decreases |b|
  {
    if b == [] {
      assert a + b == a;
    } else {
      assert (a + b)[..|a + b| - 1] == a + b[..|b| - 1];
      RunAppend(s, names, a, b[..|b| - 1]);
    }
  }

  lemma ExplainedThen(tag: string -> Tag, start: iset<string>, mid: iset<string>, end: iset<string>, first: seq<Step>,
                      all: seq<Step>, from: nat, a: seq<Event>, b: seq<Event>)
    requires first <= all && from <= |first|
    requires LeaksExplained(tag, start, mid, first, from, a) && LeaksExplained(tag, mid, end, all, |first|, b)
    ensures LeaksExplained(tag, start, end, all, from, a + b)
  {
    forall id | id in end && id !in start
      ensures Reported(all, from, id) && tag(id).RouteOf? && Mentioned(a + b, tag(id).key)
    {
      ReportedSplits(first, all, from, id);
      var e :| (e in a || e in b) && About(e, tag(id).key);
      assert e in a + b;
    }
  }

  /** Every live compiled route is accounted for, and the store mirrors ownership. */
  ghost predicate InOrder(app: App) reads app, app.caddy, app.store {
    app.Valid() && app.Tagged() && app.AllAccounted() && app.StoreAgrees() && !app.storeFailed
  }

  /** Leak accounting over runs with faults and restarts: whatever Caddy does, through any number
      of restarts, every live compiled route is owned by some key or is a leak with a failed
      deletion of its own. When Caddy too is fault-free, restarts cannot be noticed. */
  method DriveLives(first: App, lives: seq<seq<Input>>) returns (app: App)
    requires InOrder(first) && first.store.FaultFree()
    requires Deliverable(first.tag, Concat(lives), first.security, first.ingressClass)
    modifies first, first.caddy, first.store
    ensures app.caddy == first.caddy && app.store == first.store && app.tag == first.tag && InOrder(app)
    ensures old(first.caddy.trace) <= app.caddy.trace
    ensures LeaksExplained(app.tag, old(first.leaked), app.leaked, app.caddy.trace, |old(first.caddy.trace)|,
                           EventsOf(Concat(lives), first.security, first.ingressClass))
    ensures old(first.caddy.FaultFree()) ==> app.leaked == old(first.leaked)
    ensures old(first.FaultFree()) ==>
              app.State() == Run(old(first.State()), first.names,
                                 EventsOf(Concat(lives), first.security, first.ingressClass))
    decreases lives
  {
    if lives == [] { return first; }
    ghost var start, from, leaked := first.State(), |first.caddy.trace|, first.leaked;
    ghost var a, b := EventsOf(lives[0], first.security, first.ingressClass), Concat(lives[1..]);
    EventsConcatenate(first.tag, lives[0], Concat(lives[1..]), first.security, first.ingressClass);
    Drive(first, lives[0]);
    ghost var mid, sofar := first.leaked, first.caddy.trace;
    var second := Restart(first);
    app := DriveLives(second, lives[1..]);
    ExplainedThen(app.tag, leaked, mid, app.leaked, sofar, app.caddy.trace, from, a,
                  EventsOf(b, first.security, first.ingressClass));
    RunAppend(start, first.names, a, EventsOf(b, first.security, first.ingressClass));
  }
}
