/** The skip_hosts list of access_log.go: a de-duplicated union of the opted-out hosts, sent to
    each server unless it equals the list of the last complete send. */
module AccessLog {
  import opened Strings
  import opened Admin
  import opened Routes

  /** disabled and lastSkip are the manager's fields, lists is what each Caddy server holds. */
  datatype LogState = LogState(disabled: map<string, seq<string>>, lastSkip: Option<seq<string>>,
                               lists: map<string, seq<string>>)

  // ---------- the list ----------

  predicate NoDuplicates(s: seq<string>) { forall i, j | 0 <= i < j < |s| :: s[i] != s[j] }

  /** An iteration order of a map's keys. */
  ghost predicate Enumerates(order: seq<string>, keys: set<string>) {
    NoDuplicates(order) && forall k :: k in order <==> k in keys
  }

  /** Hosts i.. of one Ingress appended unless already there. */
  function AddHosts(skip: seq<string>, hosts: seq<string>, i: nat): seq<string>
    requires i <= |hosts|
    decreases |hosts| - i
  {
    if i == |hosts| then skip
    else AddHosts(if hosts[i] in skip then skip else skip + [hosts[i]], hosts, i + 1)
  }

  function SkipFrom(skip: seq<string>, disabled: map<string, seq<string>>, order: seq<string>, i: nat): seq<string>
    requires i <= |order| && forall k :: k in order ==> k in disabled
    decreases |order| - i
  {
    if i == |order| then skip else SkipFrom(AddHosts(skip, disabled[order[i]], 0), disabled, order, i + 1)
  }

  ghost function SkipList(disabled: map<string, seq<string>>, order: seq<string>): seq<string>
    requires Enumerates(order, disabled.Keys)
  {
    SkipFrom([], disabled, order, 0)
  }

  predicate OptedOut(disabled: map<string, seq<string>>, host: string) {
    exists k :: k in disabled && host in disabled[k]
  }

  lemma {:induction false} AddHostsProperties(skip: seq<string>, hosts: seq<string>, i: nat)
    requires i <= |hosts| && NoDuplicates(skip)
    ensures NoDuplicates(AddHosts(skip, hosts, i))
    ensures forall h :: h in AddHosts(skip, hosts, i) <==> h in skip || h in hosts[i..]
    decreases |hosts| - i
  {
    if i < |hosts| {
      assert hosts[i..] == [hosts[i]] + hosts[i + 1..];
      AddHostsProperties(if hosts[i] in skip then skip else skip + [hosts[i]], hosts, i + 1);
    }
  }

  lemma {:induction false} SkipFromProperties(skip: seq<string>, disabled: map<string, seq<string>>,
                                              order: seq<string>, i: nat)
    requires i <= |order| && NoDuplicates(skip) && forall k :: k in order ==> k in disabled
    ensures NoDuplicates(SkipFrom(skip, disabled, order, i))
    ensures forall h :: h in SkipFrom(skip, disabled, order, i)
                   <==> h in skip || exists k :: k in order[i..] && h in disabled[k]
    decreases |order| - i
  {
    if i < |order| {
      var hosts := disabled[order[i]];
      AddHostsProperties(skip, hosts, 0);
      assert hosts[0..] == hosts;
      SkipFromProperties(AddHosts(skip, hosts, 0), disabled, order, i + 1);
      assert forall k :: k in order[i..] <==> k == order[i] || k in order[i + 1..];
    }
  }

  /** In any iteration order the list has no duplicates and holds exactly the opted-out hosts. */
  lemma SkipListIsTheUnion(disabled: map<string, seq<string>>, order: seq<string>)
    requires Enumerates(order, disabled.Keys)
    ensures NoDuplicates(SkipList(disabled, order))
    ensures forall h :: h in SkipList(disabled, order) <==> OptedOut(disabled, h)
  {
    SkipFromProperties([], disabled, order, 0);
    assert order[0..] == order;
  }

  // ---------- sending ----------

  /** PATCH servers i.. until one reports an error; a PATCH needs an existing list. */
  function PatchFrom(lists: map<string, seq<string>>, servers: seq<string>, skip: seq<string>, faults: nat -> Fault,
                     i: nat)
    : (r: (map<string, seq<string>>, bool))
    requires i <= |servers|
    decreases |servers| - i
  {
    if i == |servers| then (lists, true)
    else if servers[i] !in lists || faults(i) == LostRequest then (lists, false)
    else if faults(i) == LostReply then (lists[servers[i] := skip], false)
    else PatchFrom(lists[servers[i] := skip], servers, skip, faults, i + 1)
  }

  function Rebuilt(s: LogState, servers: seq<string>, skip: seq<string>, faults: nat -> Fault): LogState {
    if s.lastSkip == Some(skip) then s
    else
      var (lists, ok) := PatchFrom(s.lists, servers, skip, faults, 0);
      LogState(s.disabled, if ok then Some(skip) else s.lastSkip, lists)
  }

  /** Whether a rebuild reports success: nothing to send, or every PATCH served. */
  predicate RebuildSucceeds(s: LogState, servers: seq<string>, skip: seq<string>, faults: nat -> Fault) {
    s.lastSkip == Some(skip) || PatchFrom(s.lists, servers, skip, faults, 0).1
  }

  /** Empty lists put on servers i.. until one call reports an error; call 0 was the logger's. */
  function EnableFrom(lists: map<string, seq<string>>, servers: seq<string>, faults: nat -> Fault, i: nat)
    : (r: (map<string, seq<string>>, bool))
    requires i <= |servers|
    decreases |servers| - i
  {
    if i == |servers| then (lists, true)
    else if faults(i + 1) == LostRequest then (lists, false)
    else if faults(i + 1) == LostReply then (lists[servers[i] := []], false)
    else EnableFrom(lists[servers[i] := []], servers, faults, i + 1)
  }

  /** The remote logging configuration: the access logger and each server's list. */
  class ServerLogs {
    var accessLogger: bool
    var lists: map<string, seq<string>>

    constructor (lists: map<string, seq<string>>)
      ensures !accessLogger && this.lists == lists
    {
      this.accessLogger, this.lists := false, lists;
    }

    method RegisterLogger(fault: Fault) returns (err: bool)
      modifies `accessLogger
      ensures accessLogger == (old(accessLogger) || fault != LostRequest)
      ensures err <==> fault != Served
    {
      if fault != LostRequest { accessLogger := true; }
      err := fault != Served;
    }

    /** PUT, or PATCH when the key exists: creates or replaces. */
    method PutOrPatch(server: string, list: seq<string>, fault: Fault) returns (err: bool)
      modifies `lists
      ensures lists == if fault == LostRequest then old(lists) else old(lists)[server := list]
      ensures err <==> fault != Served
    {
      if fault != LostRequest { lists := lists[server := list]; }
      err := fault != Served;
    }

    method Patch(server: string, list: seq<string>, fault: Fault) returns (err: bool)
      modifies `lists
      ensures lists == if fault == LostRequest || server !in old(lists) then old(lists) else old(lists)[server := list]
      ensures err <==> fault != Served || server !in old(lists)
    {
      err := fault != Served || server !in lists;
      if fault != LostRequest && server in lists { lists := lists[server := list]; }
    }
  }

  class AccessLogManager {
    const serverName: string
    const httpServerName: string
    const logs: ServerLogs
    var disabled: map<string, seq<string>>
    var lastSkip: Option<seq<string>>

    constructor (serverName: string, httpServerName: string, logs: ServerLogs)
      ensures this.serverName == serverName && this.httpServerName == httpServerName && this.logs == logs
      ensures disabled == map[] && lastSkip == None
    {
      this.serverName, this.httpServerName, this.logs := serverName, httpServerName, logs;
      this.disabled, this.lastSkip := map[], None;
    }

    /** The HTTPS server, and the HTTP server unless its name is empty. */
    predicate Named(srv: string) { srv == serverName || (srv == httpServerName && srv != "") }

    /** Each of them has a list, which is the remembered one if there is one. */
    ghost predicate Ready() reads this, logs {
      forall srv :: Named(srv) ==> srv in logs.lists && (lastSkip.Some? ==> logs.lists[srv] == lastSkip.value)
    }

    /** Each of them has a duplicate-free list of exactly these hosts. */
    ghost predicate Skipping(hosts: iset<string>) reads this, logs {
      forall srv :: Named(srv) ==>
        srv in logs.lists && NoDuplicates(logs.lists[srv]) && forall h :: h in logs.lists[srv] <==> h in hosts
    }

    ghost function Current(): LogState reads this, logs { LogState(disabled, lastSkip, logs.lists) }

    function Servers(): (s: seq<string>)
      ensures NoDuplicates(s) && 0 < |s| <= 2
      ensures forall srv :: srv in s <==> Named(srv)
    {
      [serverName] + if httpServerName != "" && httpServerName != serverName then [httpServerName] else []
    }

    /** The logger first, then an empty list on each server; the first error ends it. */
    method Enable(faults: nat -> Fault) returns (err: bool)
      modifies logs
      ensures !err ==> forall srv :: srv in Servers() ==> srv in logs.lists && logs.lists[srv] == []
      ensures !err ==> Skipping(iset{}) && (lastSkip.None? || lastSkip == Some([]) ==> Ready())
      ensures !err <==> forall i | 0 <= i <= |Servers()| :: faults(i) == Served
      ensures logs.accessLogger == (old(logs.accessLogger) || faults(0) != LostRequest)
      ensures logs.lists == if faults(0) == Served then EnableFrom(old(logs.lists), Servers(), faults, 0).0
                else old(logs.lists)
    {
      var servers := Servers();
      var e := logs.RegisterLogger(faults(0));
      if e { return true; }
      for i := 0 to |servers|
        invariant logs.accessLogger
        invariant forall j | 0 <= j <= i :: faults(j) == Served
        invariant forall j | 0 <= j < i :: servers[j] in logs.lists && logs.lists[servers[j]] == []
        invariant EnableFrom(logs.lists, servers, faults, i) == EnableFrom(old(logs.lists), servers, faults, 0)
      {
        e := logs.PutOrPatch(servers[i], [], faults(i + 1));
        if e { return true; }
      }
      return false;
    }

    /** Skip and Unskip return the map order rebuild happened to use. */
    method Skip(key: string, hosts: seq<string>, faults: nat -> Fault) returns (err: bool, ghost order: seq<string>)
      modifies this, logs`lists
      ensures disabled == old(disabled)[key := hosts] && Enumerates(order, disabled.Keys)
      ensures Current() == Rebuilt(old(Current()).(disabled := disabled), Servers(), SkipList(disabled, order), faults)
      ensures !err <==> RebuildSucceeds(old(Current()), Servers(), SkipList(disabled, order), faults)
      ensures old(Ready()) && AllServed(faults, |Servers()|) ==>
                !err && Ready() && Skipping(iset h | OptedOut(disabled, h))
    {
      disabled := disabled[key := hosts];
      err, order := Rebuild(faults);
    }

    method Unskip(key: string, faults: nat -> Fault) returns (err: bool, ghost order: seq<string>)
      modifies this, logs`lists
      ensures disabled == old(disabled) - {key} && Enumerates(order, disabled.Keys)
      ensures Current() == Rebuilt(old(Current()).(disabled := disabled), Servers(), SkipList(disabled, order), faults)
      ensures !err <==> RebuildSucceeds(old(Current()), Servers(), SkipList(disabled, order), faults)
      ensures old(Ready()) && AllServed(faults, |Servers()|) ==>
                !err && Ready() && Skipping(iset h | OptedOut(disabled, h))
    {
      disabled := disabled - {key};
      err, order := Rebuild(faults);
    }

    method Rebuild(faults: nat -> Fault) returns (err: bool, ghost order: seq<string>)
      modifies this`lastSkip, logs`lists
      ensures Enumerates(order, disabled.Keys)
      ensures Current() == Rebuilt(old(Current()), Servers(), SkipList(disabled, order), faults)
      ensures !err <==> RebuildSucceeds(old(Current()), Servers(), SkipList(disabled, order), faults)
      ensures old(Ready()) && AllServed(faults, |Servers()|) ==>
                !err && Ready() && Skipping(iset h | OptedOut(disabled, h))
    {
      var skip;
      skip, order := Collect();
      ServedRebuild(skip, order, faults);
      if lastSkip == Some(skip) { return false, order; }
      var servers := Servers();
      for i := 0 to |servers|
        invariant lastSkip == old(lastSkip)
        invariant PatchFrom(logs.lists, servers, skip, faults, i)
                    == PatchFrom(old(logs.lists), servers, skip, faults, 0)
      {
        var e := logs.Patch(servers[i], skip, faults(i));
        if e { return true, order; }
      }
      lastSkip := Some(skip);
      return false, order;
    }

    /** What a fault-free rebuild from here would leave. */
    lemma ServedRebuild(skip: seq<string>, order: seq<string>, faults: nat -> Fault)
      requires Enumerates(order, disabled.Keys) && skip == SkipList(disabled, order)
      ensures Ready() && AllServed(faults, |Servers()|) ==>
                var t := Rebuilt(Current(), Servers(), skip, faults);
                && RebuildSucceeds(Current(), Servers(), skip, faults)
                && Enabled(t, Servers()) && Agrees(t, Servers()) && ListsAreRight(t, Servers())
    {
      if Ready() && AllServed(faults, |Servers()|) {
        ServedRebuildIsRight(Current(), Servers(), order, faults);
        PatchServed(logs.lists, Servers(), skip, faults, 0);
      }
    }

    /** rebuild's loops over the map and the hosts. */
    method Collect() returns (skip: seq<string>, ghost order: seq<string>)
      ensures Enumerates(order, disabled.Keys) && skip == SkipList(disabled, order)
    {
      skip, order := [], [];
      var seen: set<string> := {};
      var todo := disabled.Keys;
      while todo != {}
        invariant todo <= disabled.Keys
        invariant Enumerates(order, disabled.Keys - todo)
        invariant forall h :: h in seen <==> h in skip
        invariant skip == SkipFrom([], disabled, order, 0)
        decreases todo
      {
        var k :| k in todo;
        todo := todo - {k};
        ghost var before := skip;
        var hosts := disabled[k];
        for j := 0 to |hosts|
          invariant forall h :: h in seen <==> h in skip
          invariant AddHosts(skip, hosts, j) == AddHosts(before, hosts, 0)
        {
          if hosts[j] !in seen {
            seen, skip := seen + {hosts[j]}, skip + [hosts[j]];
          }
        }
        SkipSnoc([], disabled, order, k, 0);
        order := order + [k];
      }
    }
  }

  lemma {:induction false} SkipSnoc(skip: seq<string>, disabled: map<string, seq<string>>, order: seq<string>,
                                    k: string, i: nat)
    requires i <= |order| && k in disabled && forall q :: q in order ==> q in disabled
    ensures SkipFrom(skip, disabled, order + [k], i) == AddHosts(SkipFrom(skip, disabled, order, i), disabled[k], 0)
    decreases |order| - i
  {
    if i < |order| {
      SkipSnoc(AddHosts(skip, disabled[order[i]], 0), disabled, order, k, i + 1);
    }
  }

  // ---------- agreement ----------

  /** Every managed server has a list. */
  predicate Enabled(s: LogState, servers: seq<string>) { forall srv :: srv in servers ==> srv in s.lists }

  /** A remembered list is what every server holds. */
  predicate Agrees(s: LogState, servers: seq<string>) {
    s.lastSkip.Some? ==> forall srv :: srv in servers ==> srv in s.lists && s.lists[srv] == s.lastSkip.value
  }

  /** Each server's list is duplicate-free and holds exactly the opted-out hosts. */
  ghost predicate ListsAreRight(s: LogState, servers: seq<string>) {
    forall srv :: srv in servers ==>
      srv in s.lists && NoDuplicates(s.lists[srv]) && forall h :: h in s.lists[srv] <==> OptedOut(s.disabled, h)
  }

  lemma {:induction false} PatchServed(lists: map<string, seq<string>>, servers: seq<string>, skip: seq<string>,
                                       faults: nat -> Fault, i: nat)
    requires i <= |servers| && (forall srv :: srv in servers ==> srv in lists)
    requires forall j | i <= j < |servers| :: faults(j) == Served
    requires forall j | 0 <= j < i :: lists[servers[j]] == skip
    ensures var (after, ok) := PatchFrom(lists, servers, skip, faults, i);
      ok && forall srv :: srv in servers ==> srv in after && after[srv] == skip
    decreases |servers| - i
  {
    if i < |servers| {
      assert servers[i] in servers;
      assert forall j | 0 <= j < i :: servers[j] in servers;
      PatchServed(lists[servers[i] := skip], servers, skip, faults, i + 1);
    }
  }

  predicate AllServed(faults: nat -> Fault, n: nat) { forall j | 0 <= j < n :: faults(j) == Served }

  /** A fault-free rebuild leaves the lists right even when it suppresses the PATCH. */
  lemma ServedRebuildIsRight(s: LogState, servers: seq<string>, order: seq<string>, faults: nat -> Fault)
    requires Enabled(s, servers) && Agrees(s, servers)
    requires Enumerates(order, s.disabled.Keys) && AllServed(faults, |servers|)
    ensures var t := Rebuilt(s, servers, SkipList(s.disabled, order), faults);
      Enabled(t, servers) && Agrees(t, servers) && ListsAreRight(t, servers)
  {
    SkipListIsTheUnion(s.disabled, order);
    PatchServed(s.lists, servers, SkipList(s.disabled, order), faults, 0);
  }

  datatype Op = SkipOp(key: string, hosts: seq<string>) | UnskipOp(key: string)

  /** The hosts that a key's latest operation opts out. */
  function LatestHosts(ops: seq<Op>, key: string): seq<string> {
    if ops == [] then []
    else
      var op := ops[|ops| - 1];
      if op.key != key then LatestHosts(ops[..|ops| - 1], key)
      else if op.SkipOp? then op.hosts else []
  }

  ghost predicate OptedOutBy(ops: seq<Op>, host: string) { exists key :: host in LatestHosts(ops, key) }

  /** A whole fault-free life of the manager: after Enable and any operations, each server's list is
      duplicate-free and holds exactly the hosts that some key's latest operation opts out. */
  method Operate(manager: AccessLogManager, ops: seq<Op>, faults: nat -> Fault)
    requires manager.disabled == map[] && manager.lastSkip.None?
    requires forall n :: faults(n) == Served
    modifies manager, manager.logs
    ensures manager.Skipping(iset h | OptedOutBy(ops, h))
    ensures manager.logs.accessLogger
  {
    var err := manager.Enable(faults);
    ghost var order;
    for k := 0 to |ops|
      invariant manager.logs.accessLogger
      invariant manager.Ready() && manager.Skipping(iset h | OptedOut(manager.disabled, h))
      invariant forall key ::
                  LatestHosts(ops[..k], key) == if key in manager.disabled then manager.disabled[key] else []
    {
      assert ops[..k + 1][..k] == ops[..k];
      match ops[k] {
        case SkipOp(key, hosts) => err, order := manager.Skip(key, hosts, faults);
        case UnskipOp(key) => err, order := manager.Unskip(key, faults);
      }
    }
    assert ops[..|ops|] == ops;
    forall h ensures OptedOut(manager.disabled, h) <==> OptedOutBy(ops, h) {
      if OptedOutBy(ops, h) {
        var key :| h in LatestHosts(ops, key);
        assert key in manager.disabled;
      }
      if OptedOut(manager.disabled, h) {
        var key :| key in manager.disabled && h in manager.disabled[key];
        assert h in LatestHosts(ops, key);
      }
    }
  }

  datatype Event =
    | SkipHosts(key: string, hosts: seq<string>, order: seq<string>)
    | UnskipHosts(key: string, order: seq<string>)

  function NextDisabled(disabled: map<string, seq<string>>, e: Event): map<string, seq<string>> {
    match e
    case SkipHosts(key, hosts, _) => disabled[key := hosts]
    case UnskipHosts(key, _) => disabled - {key}
  }

  /** The orders recorded in the events are iteration orders of the map at that point. */
  ghost predicate ValidOrders(disabled: map<string, seq<string>>, evs: seq<Event>)
    decreases evs
  {
    evs != [] ==>
      var d := NextDisabled(disabled, evs[0]);
      Enumerates(evs[0].order, d.Keys) && ValidOrders(d, evs[1..])
  }

  /** A run of operations, each with the fate of its calls. */
  ghost function RunLog(s: LogState, servers: seq<string>, evs: seq<Event>, faults: seq<nat -> Fault>): LogState
    requires ValidOrders(s.disabled, evs) && |faults| == |evs|
    decreases evs
  {
    if evs == [] then s
    else
      var d := NextDisabled(s.disabled, evs[0]);
      RunLog(Rebuilt(s.(disabled := d), servers, SkipList(d, evs[0].order), faults[0]), servers, evs[1..], faults[1..])
  }

  /** Cache agreement: in every fault-free run after Enable, whatever the map orders, the lists
      are right after each operation. */
  lemma {:induction false} RunsKeepListsRight(s: LogState, servers: seq<string>, evs: seq<Event>,
                                              faults: seq<nat -> Fault>)
    requires Enabled(s, servers) && Agrees(s, servers) && ValidOrders(s.disabled, evs) && evs != []
    requires |faults| == |evs| && forall k | 0 <= k < |faults| :: AllServed(faults[k], |servers|)
    ensures ListsAreRight(RunLog(s, servers, evs, faults), servers)
    decreases evs
  {
    var d := NextDisabled(s.disabled, evs[0]);
    var t := Rebuilt(s.(disabled := d), servers, SkipList(d, evs[0].order), faults[0]);
    ServedRebuildIsRight(s.(disabled := d), servers, evs[0].order, faults[0]);
    if |evs| > 1 { RunsKeepListsRight(t, servers, evs[1..], faults[1..]); }
  }

  // ---------- faults ----------

  lemma {:induction false} PatchTouchesOnlyLater(lists: map<string, seq<string>>, servers: seq<string>,
                                                 skip: seq<string>,
                                                 faults: nat -> Fault, i: nat, srv: string)
    requires i <= |servers| && srv !in servers[i..] && srv in lists
    ensures srv in PatchFrom(lists, servers, skip, faults, i).0 &&
            PatchFrom(lists, servers, skip, faults, i).0[srv] == lists[srv]
    decreases |servers| - i
  {
    if i < |servers| {
      assert servers[i..] == [servers[i]] + servers[i + 1..];
      PatchTouchesOnlyLater(lists[servers[i] := skip], servers, skip, faults, i + 1, srv);
    }
  }

  lemma {:induction false} PatchOkMeansServed(lists: map<string, seq<string>>, servers: seq<string>,
                                              skip: seq<string>, faults: nat -> Fault, i: nat)
    requires i <= |servers|
    ensures PatchFrom(lists, servers, skip, faults, i).1 ==> forall j | i <= j < |servers| :: faults(j) == Served
    decreases |servers| - i
  {
    if i < |servers| { PatchOkMeansServed(lists[servers[i] := skip], servers, skip, faults, i + 1); }
  }

  /** Once the first PATCH takes effect, the first server holds the new list. */
  lemma FirstServerTakesIt(s: LogState, servers: seq<string>, skip: seq<string>, faults: nat -> Fault)
    requires Enabled(s, servers) && NoDuplicates(servers) && |servers| > 0
    requires s.lastSkip != Some(skip) && faults(0) != LostRequest
    ensures servers[0] in Rebuilt(s, servers, skip, faults).lists &&
            Rebuilt(s, servers, skip, faults).lists[servers[0]] == skip
  {
    assert servers[0] in servers;
    if faults(0) == Served {
      assert servers[0] !in servers[1..];
      PatchTouchesOnlyLater(s.lists[servers[0] := skip], servers, skip, faults, 1, servers[0]);
    }
  }

  /** With faults, a remembered list stays what the servers hold exactly when every PATCH was
      served or the first one had no effect. */
  lemma AgreementKeptIffAllOrNothing(s: LogState, servers: seq<string>, skip: seq<string>, faults: nat -> Fault)
    requires Enabled(s, servers) && NoDuplicates(servers) && |servers| > 0
    requires s.lastSkip.Some? && s.lastSkip != Some(skip) && Agrees(s, servers)
    ensures Agrees(Rebuilt(s, servers, skip, faults), servers) <==>
              AllServed(faults, |servers|) || faults(0) == LostRequest
  {
    PatchOkMeansServed(s.lists, servers, skip, faults, 0);
    assert servers[0] in servers;
    if AllServed(faults, |servers|) {
      PatchServed(s.lists, servers, skip, faults, 0);
    } else if faults(0) != LostRequest {
      FirstServerTakesIt(s, servers, skip, faults);
    }
  }

  lemma OneServerStepAgrees(s: LogState, server: string, skip: seq<string>, faults: nat -> Fault)
    requires Enabled(s, [server]) && Agrees(s, [server]) && faults(0) != LostReply
    ensures Enabled(Rebuilt(s, [server], skip, faults), [server]) &&
            Agrees(Rebuilt(s, [server], skip, faults), [server])
  {
    assert [server][0] in [server];
    if faults(0) == Served { PatchServed(s.lists, [server], skip, faults, 0); }
  }

  /** With one server whose PATCHes each succeed or do nothing, the remembered list is what the
      server holds throughout every run. */
  lemma {:induction false} OneServerAlwaysAgrees(s: LogState, server: string, evs: seq<Event>,
                                                 faults: seq<nat -> Fault>)
    requires Enabled(s, [server]) && Agrees(s, [server]) && ValidOrders(s.disabled, evs)
    requires |faults| == |evs| && forall k | 0 <= k < |faults| :: faults[k](0) != LostReply
    ensures Agrees(RunLog(s, [server], evs, faults), [server])
    decreases evs
  {
    if evs != [] {
      var d := NextDisabled(s.disabled, evs[0]);
      OneServerStepAgrees(s.(disabled := d), server, SkipList(d, evs[0].order), faults[0]);
      OneServerAlwaysAgrees(Rebuilt(s.(disabled := d), [server], SkipList(d, evs[0].order), faults[0]), server,
                            evs[1..], faults[1..]);
    }
  }

  /** After a partly effective rebuild, going back to the remembered list sends nothing, so the
      first server keeps the list of the failed rebuild. */
  lemma PartialSendIsNotRepaired(s: LogState, servers: seq<string>, skip: seq<string>, faults: nat -> Fault,
                                 later: nat -> Fault)
    requires Enabled(s, servers) && NoDuplicates(servers) && |servers| > 0
    requires s.lastSkip.Some? && s.lastSkip != Some(skip) && Agrees(s, servers)
    requires !AllServed(faults, |servers|) && faults(0) != LostRequest
    ensures var t := Rebuilt(s, servers, skip, faults);
      var u := Rebuilt(t, servers, s.lastSkip.value, later);
      u == t && servers[0] in u.lists && u.lists[servers[0]] == skip != s.lastSkip.value
  {
    PatchOkMeansServed(s.lists, servers, skip, faults, 0);
    FirstServerTakesIt(s, servers, skip, faults);
  }

  // ---------- the hosts of an Ingress ----------

  /** Position i is the first rule with its host. */
  predicate FirstWithHost(ing: Ingress, i: nat) {
    i < |ing.rules| && forall j | 0 <= j < i :: ing.rules[j].host != ing.rules[i].host
  }

  /** ingressHosts: the non-empty rule hosts, each once, in the order of their first rules. */
  method IngressHosts(ing: Ingress) returns (hosts: seq<string>, ghost at: seq<nat>)
    ensures NoDuplicates(hosts)
    ensures forall h :: h in hosts <==> h != "" && exists k | 0 <= k < |ing.rules| :: ing.rules[k].host == h
    ensures |at| == |hosts| && forall i | 0 <= i < |at| ::
              FirstWithHost(ing, at[i]) && ing.rules[at[i]].host == hosts[i]
    ensures forall i, j | 0 <= i < j < |at| :: at[i] < at[j]
  {
    hosts, at := [], [];
    for k := 0 to |ing.rules|
      invariant NoDuplicates(hosts)
      invariant forall h :: h in hosts <==> h != "" && exists j | 0 <= j < k :: ing.rules[j].host == h
      invariant |at| == |hosts| && forall i | 0 <= i < |at| ::
                  FirstWithHost(ing, at[i]) && at[i] < k && ing.rules[at[i]].host == hosts[i]
      invariant forall i, j | 0 <= i < j < |at| :: at[i] < at[j]
    {
      if ing.rules[k].host != "" && ing.rules[k].host !in hosts {
        hosts, at := hosts + [ing.rules[k].host], at + [k];
      }
    }
  }
}
