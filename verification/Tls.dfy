/** The certificate table of tls.go: which Ingresses reference which secret, and which
    certificates are managed. The Kubernetes lookup and the push to Caddy are answers given to
    each operation; every operation is one atomic step. */
module Tls {
  import opened Strings
  import opened Routes

  datatype Cert = Cert(hosts: seq<string>, cert: string, key: string)
  datatype Secret = Secret(isTLS: bool, cert: string, key: string)
  /** What the lookup of one spec.tls entry finds, and whether the push succeeds. */
  datatype Answer = Answer(secret: Option<Secret>, pushed: bool)

  datatype Table = Table(certs: map<string, Cert>, refs: map<string, set<string>>)

  function SecretKey(ing: Ingress, secretName: string): string { ing.namespace + "/" + secretName }

  function References(t: Table, secret: string): set<string> {
    if secret in t.refs then t.refs[secret] else {}
  }

  // ---------- single operations ----------

  predicate Usable(a: Answer) {
    a.secret.Some? && a.secret.value.isTLS && a.secret.value.cert != "" && a.secret.value.key != "" && a.pushed
  }

  function LoadEntry(t: Table, ing: Ingress, tls: TLSEntry, a: Answer): Table {
    if tls.secretName == "" then t
    else
      var secret := SecretKey(ing, tls.secretName);
      var refs := t.refs[secret := References(t, secret) + {ing.Key()}];
      Table(if Usable(a) then t.certs[secret := Cert(tls.hosts, a.secret.value.cert, a.secret.value.key)]
            else t.certs, refs)
  }

  /** Entries i.. of spec.tls. */
  function LoadFrom(t: Table, ing: Ingress, answers: nat -> Answer, i: nat): Table
    requires i <= |ing.tls|
    decreases |ing.tls| - i
  {
    if i == |ing.tls| then t else LoadFrom(LoadEntry(t, ing, ing.tls[i], answers(i)), ing, answers, i + 1)
  }

  function RemoveEntry(t: Table, ing: Ingress, tls: TLSEntry): Table {
    var secret := SecretKey(ing, tls.secretName);
    if tls.secretName == "" || secret !in t.refs then t
    else
      var left := t.refs[secret] - {ing.Key()};
      if left == {} then Table(t.certs - {secret}, t.refs - {secret})
      else t.(refs := t.refs[secret := left])
  }

  function RemoveFrom(t: Table, ing: Ingress, i: nat): Table
    requires i <= |ing.tls|
    decreases |ing.tls| - i
  {
    if i == |ing.tls| then t else RemoveFrom(RemoveEntry(t, ing, ing.tls[i]), ing, i + 1)
  }

  function Reloaded(t: Table, secret: string, cert: string, key: string, pushed: bool): Table {
    if secret in t.certs && cert != "" && key != "" && pushed then
      t.(certs := t.certs[secret := Cert(t.certs[secret].hosts, cert, key)])
    else t
  }

  class TLSManager {
    var managedCerts: map<string, Cert>
    var secretToIngress: map<string, set<string>>

    constructor ()
      ensures Current() == Table(map[], map[])
    {
      managedCerts, secretToIngress := map[], map[];
    }

    ghost function Current(): Table reads this { Table(managedCerts, secretToIngress) }

    method LoadFromIngress(ing: Ingress, answers: nat -> Answer)
      modifies this
      ensures Current() == LoadFrom(old(Current()), ing, answers, 0)
    {
      for i := 0 to |ing.tls|
        invariant LoadFrom(Current(), ing, answers, i) == LoadFrom(old(Current()), ing, answers, 0)
      {
        ghost var before := Current();
        var tls := ing.tls[i];
        if tls.secretName == "" { continue; }
        var secretKey := SecretKey(ing, tls.secretName);
        if secretKey !in secretToIngress {
          secretToIngress := secretToIngress[secretKey := {}];
        }
        secretToIngress := secretToIngress[secretKey := secretToIngress[secretKey] + {ing.Key()}];
        assert secretToIngress == before.refs[secretKey := References(before, secretKey) + {ing.Key()}];

        var answer := answers(i);
        if answer.secret.None? { continue; }
        var secret := answer.secret.value;
        if !secret.isTLS { continue; }
        if secret.cert == "" || secret.key == "" { continue; }
        if !answer.pushed { continue; }
        managedCerts := managedCerts[secretKey := Cert(tls.hosts, secret.cert, secret.key)];
      }
    }

    method RemoveFromIngress(ing: Ingress)
      modifies this
      ensures Current() == RemoveFrom(old(Current()), ing, 0)
    {
      for i := 0 to |ing.tls|
        invariant RemoveFrom(Current(), ing, i) == RemoveFrom(old(Current()), ing, 0)
      {
        ghost var before := Current();
        var tls := ing.tls[i];
        if tls.secretName == "" { continue; }
        var secretKey := SecretKey(ing, tls.secretName);
        if secretKey in secretToIngress {
          secretToIngress := secretToIngress[secretKey := secretToIngress[secretKey] - {ing.Key()}];
          if secretToIngress[secretKey] == {} {
            secretToIngress := secretToIngress - {secretKey};
            managedCerts := managedCerts - {secretKey};
            assert secretToIngress == before.refs - {secretKey};
          }
        }
      }
    }

    method ReloadSecret(secretKey: string, cert: string, key: string, pushed: bool)
      modifies this
      ensures Current() == Reloaded(old(Current()), secretKey, cert, key, pushed)
    {
      if secretKey !in managedCerts { return; }
      var existing := managedCerts[secretKey];
      if cert == "" || key == "" { return; }
      if !pushed { return; }
      managedCerts := managedCerts[secretKey := Cert(existing.hosts, cert, key)];
    }

    /** Every host of a managed certificate, once, in some order. */
    method ManagedHosts() returns (hosts: seq<string>)
      ensures forall h :: h in hosts <==> exists k :: Manages(Current(), k, h)
      ensures forall i, j | 0 <= i < j < |hosts| :: hosts[i] != hosts[j]
    {
      var hostSet: set<string> := {};
      var todo := managedCerts.Keys;
      while todo != {}
        invariant todo <= managedCerts.Keys
        invariant forall h :: h in hostSet <==> exists k :: k !in todo && Manages(Current(), k, h)
        decreases todo
      {
        var k :| k in todo;
        todo := todo - {k};
        hostSet := hostSet + set h | h in managedCerts[k].hosts;
      }
      hosts := [];
      var rest := hostSet;
      while rest != {}
        invariant rest <= hostSet
        invariant forall h :: h in hosts <==> h in hostSet && h !in rest
        invariant forall i, j | 0 <= i < j < |hosts| :: hosts[i] != hosts[j]
        decreases rest
      {
        var h :| h in rest;
        hosts, rest := hosts + [h], rest - {h};
      }
    }
  }

  // ---------- runs ----------

  datatype Event =
    | Load(ing: Ingress, answers: nat -> Answer)
    | Remove(ing: Ingress)
    | Reload(secret: string, cert: string, key: string, pushed: bool)

  function Apply(t: Table, e: Event): Table {
    match e
    case Load(ing, answers) => LoadFrom(t, ing, answers, 0)
    case Remove(ing) => RemoveFrom(t, ing, 0)
    case Reload(secret, cert, key, pushed) => Reloaded(t, secret, cert, key, pushed)
  }

  ghost function Run(evs: seq<Event>): Table {
    if evs == [] then Table(map[], map[]) else Apply(Run(evs[..|evs| - 1]), evs[|evs| - 1])
  }

  /** Some spec.tls entry from i on names the secret. */
  predicate NamesFrom(ing: Ingress, secret: string, i: nat) {
    exists j | i <= j < |ing.tls| :: ing.tls[j].secretName != "" && SecretKey(ing, ing.tls[j].secretName) == secret
  }

  predicate Concerns(e: Event, key: string, secret: string) {
    !e.Reload? && e.ing.Key() == key && NamesFrom(e.ing, secret, 0)
  }

  /** The key's latest load or remove that names the secret is a load. */
  ghost predicate Refers(evs: seq<Event>, key: string, secret: string) {
    evs != [] &&
    var e := evs[|evs| - 1];
    if Concerns(e, key, secret) then e.Load? else Refers(evs[..|evs| - 1], key, secret)
  }

  /** No stored reference set is empty, and every managed certificate is referenced. */
  predicate Tracked(t: Table) {
    && (forall s :: s in t.refs ==> t.refs[s] != {})
    && t.certs.Keys <= t.refs.Keys
  }

  lemma NamesNext(ing: Ingress, secret: string, i: nat)
    requires i < |ing.tls|
    ensures NamesFrom(ing, secret, i) <==>
      (ing.tls[i].secretName != "" && SecretKey(ing, ing.tls[i].secretName) == secret) || NamesFrom(ing, secret, i + 1)
  {}

  lemma {:induction false} LoadTracks(t: Table, ing: Ingress, answers: nat -> Answer, i: nat)
    requires Tracked(t) && i <= |ing.tls|
    ensures Tracked(LoadFrom(t, ing, answers, i))
    ensures t.certs.Keys <= LoadFrom(t, ing, answers, i).certs.Keys
    decreases |ing.tls| - i
  {
    if i < |ing.tls| {
      var u := LoadEntry(t, ing, ing.tls[i], answers(i));
      if ing.tls[i].secretName != "" {
        assert ing.Key() in u.refs[SecretKey(ing, ing.tls[i].secretName)];
      }
      LoadTracks(u, ing, answers, i + 1);
    }
  }

  lemma {:induction false} LoadReferences(t: Table, ing: Ingress, answers: nat -> Answer, i: nat, key: string,
                                          secret: string)
    requires i <= |ing.tls|
    ensures key in References(LoadFrom(t, ing, answers, i), secret)
       <==> key in References(t, secret) || (key == ing.Key() && NamesFrom(ing, secret, i))
    decreases |ing.tls| - i
  {
    if i < |ing.tls| {
      NamesNext(ing, secret, i);
      LoadReferences(LoadEntry(t, ing, ing.tls[i], answers(i)), ing, answers, i + 1, key, secret);
    }
  }

  lemma {:induction false} RemoveTracks(t: Table, ing: Ingress, i: nat)
    requires Tracked(t) && i <= |ing.tls|
    ensures Tracked(RemoveFrom(t, ing, i))
    decreases |ing.tls| - i
  {
    if i < |ing.tls| { RemoveTracks(RemoveEntry(t, ing, ing.tls[i]), ing, i + 1); }
  }

  lemma {:induction false} RemoveReferences(t: Table, ing: Ingress, i: nat, key: string, secret: string)
    requires i <= |ing.tls|
    ensures key in References(RemoveFrom(t, ing, i), secret)
       <==> key in References(t, secret) && !(key == ing.Key() && NamesFrom(ing, secret, i))
    decreases |ing.tls| - i
  {
    if i < |ing.tls| {
      NamesNext(ing, secret, i);
      RemoveReferences(RemoveEntry(t, ing, ing.tls[i]), ing, i + 1, key, secret);
    }
  }

  /** A certificate leaves the table only with its last reference. */
  lemma {:induction false} RemoveDropsUnreferenced(t: Table, ing: Ingress, i: nat, secret: string)
    requires i <= |ing.tls| && secret in t.certs
    requires References(RemoveFrom(t, ing, i), secret) != {}
    ensures secret in RemoveFrom(t, ing, i).certs
    decreases |ing.tls| - i
  {
    if i < |ing.tls| {
      var u := RemoveEntry(t, ing, ing.tls[i]);
      if secret !in u.certs {
        assert References(u, secret) == {};
        var key :| key in References(RemoveFrom(u, ing, i + 1), secret);
        RemoveReferences(u, ing, i + 1, key, secret);
      } else {
        RemoveDropsUnreferenced(u, ing, i + 1, secret);
      }
    }
  }

  /** Reference tracking over all runs: the table holds exactly the references of the keys whose
      latest event naming the secret is a load; no stored set is empty and every managed
      certificate has a referencing Ingress. */
  lemma {:induction false} ReferencesAreExact(evs: seq<Event>)
    ensures Tracked(Run(evs))
    ensures forall key, secret :: key in References(Run(evs), secret) <==> Refers(evs, key, secret)
  {
    if evs != [] {
      var before, e := evs[..|evs| - 1], evs[|evs| - 1];
      var t := Run(before);
      ReferencesAreExact(before);
      match e {
        case Load(ing, answers) => LoadTracks(t, ing, answers, 0);
        case Remove(ing) => RemoveTracks(t, ing, 0);
        case Reload(_, _, _, _) =>
      }
      forall key, secret ensures key in References(Run(evs), secret) <==> Refers(evs, key, secret) {
        match e
        case Load(ing, answers) => LoadReferences(t, ing, answers, 0, key, secret);
        case Remove(ing) => RemoveReferences(t, ing, 0, key, secret);
        case Reload(_, _, _, _) =>
      }
    }
  }

  /** The key's latest load or remove. */
  ghost function LatestFor(evs: seq<Event>, key: string): Option<Event> {
    if evs == [] then None
    else
      var e := evs[|evs| - 1];
      if !e.Reload? && e.ing.Key() == key then Some(e) else LatestFor(evs[..|evs| - 1], key)
  }

  /** An Ingress whose latest event is a load is a reference of every secret it names. */
  lemma LoadedIngressKeepsItsReferences(evs: seq<Event>, key: string, secret: string)
    requires LatestFor(evs, key).Some? && LatestFor(evs, key).value.Load?
    requires NamesFrom(LatestFor(evs, key).value.ing, secret, 0)
    ensures key in References(Run(evs), secret)
  {
    LatestLoadRefers(evs, key, secret);
    ReferencesAreExact(evs);
  }

  lemma {:induction false} LatestLoadRefers(evs: seq<Event>, key: string, secret: string)
    requires LatestFor(evs, key).Some? && LatestFor(evs, key).value.Load?
    requires NamesFrom(LatestFor(evs, key).value.ing, secret, 0)
    ensures Refers(evs, key, secret)
  {
    var e := evs[|evs| - 1];
    if e.Reload? || e.ing.Key() != key { LatestLoadRefers(evs[..|evs| - 1], key, secret); }
  }

  /** No event drops a managed certificate that some Ingress still refers to afterwards. */
  lemma UsedCertificateIsNeverDropped(evs: seq<Event>, e: Event, key: string, secret: string)
    requires secret in Run(evs).certs && Refers(evs + [e], key, secret)
    ensures secret in Run(evs + [e]).certs
  {
    assert (evs + [e])[..|evs|] == evs;
    ReferencesAreExact(evs);
    ReferencesAreExact(evs + [e]);
    assert key in References(Run(evs + [e]), secret);
    match e
    case Load(ing, answers) => LoadTracks(Run(evs), ing, answers, 0);
    case Remove(ing) => RemoveDropsUnreferenced(Run(evs), ing, 0, secret);
    case Reload(_, _, _, _) =>
  }

  // ---------- what is stored ----------

  /** Entry j of spec.tls names the secret, which exists, is of the TLS type with a certificate and
      a private key, and was pushed to Caddy. */
  predicate Accepts(ing: Ingress, answers: nat -> Answer, j: nat, secret: string)
    requires j < |ing.tls|
  {
    && ing.tls[j].secretName != "" && ing.namespace + "/" + ing.tls[j].secretName == secret
    && answers(j).pushed && answers(j).secret.Some?
    && var found := answers(j).secret.value; found.isTLS && found.cert != "" && found.key != ""
  }

  /** The last accepted one of the first n entries. */
  function LastAccepted(ing: Ingress, answers: nat -> Answer, n: nat, secret: string): (j: Option<nat>)
    requires n <= |ing.tls|
    ensures j.Some? ==> j.value < n && Accepts(ing, answers, j.value, secret)
  {
    if n == 0 then None
    else if Accepts(ing, answers, n - 1, secret) then Some(n - 1)
    else LastAccepted(ing, answers, n - 1, secret)
  }

  /** The entry an event has accepted for the secret. */
  function Accepted(e: Event, secret: string): Option<nat> {
    if e.Load? then LastAccepted(e.ing, e.answers, |e.ing.tls|, secret) else None
  }

  /** The hosts of the latest accepted entry. */
  ghost function LatestHosts(evs: seq<Event>, secret: string): Option<seq<string>> {
    if evs == [] then None
    else
      var e := evs[|evs| - 1];
      match Accepted(e, secret)
      case Some(j) => Some(e.ing.tls[j].hosts)
      case None => LatestHosts(evs[..|evs| - 1], secret)
  }

  predicate Reloads(e: Event, secret: string) {
    e.Reload? && e.secret == secret && e.cert != "" && e.key != "" && e.pushed
  }

  /** The certificate and private key of the latest accepted entry or reload. */
  ghost function LatestPem(evs: seq<Event>, secret: string): Option<(string, string)> {
    if evs == [] then None
    else
      var e := evs[|evs| - 1];
      match Accepted(e, secret)
      case Some(j) => Some((e.answers(j).secret.value.cert, e.answers(j).secret.value.key))
      case None => if Reloads(e, secret) then Some((e.cert, e.key)) else LatestPem(evs[..|evs| - 1], secret)
  }

  /** Some Ingress refers to the secret, and has done so ever since an entry was accepted for it. */
  ghost predicate Kept(evs: seq<Event>, secret: string) {
    && evs != [] && (exists key :: Refers(evs, key, secret))
    && (Accepted(evs[|evs| - 1], secret).Some? || Kept(evs[..|evs| - 1], secret))
  }

  lemma {:induction false} LoadStores(t: Table, ing: Ingress, answers: nat -> Answer, i: nat, secret: string)
    requires i <= |ing.tls|
    ensures var certs, last := LoadFrom(t, ing, answers, i).certs, LastAccepted(ing, answers, |ing.tls|, secret);
            if last.Some? && last.value >= i then
              var found := answers(last.value).secret.value;
              secret in certs && certs[secret] == Cert(ing.tls[last.value].hosts, found.cert, found.key)
            else SameContent(certs, t.certs, secret)
    decreases |ing.tls| - i
  {
    if i < |ing.tls| {
      LoadStores(LoadEntry(t, ing, ing.tls[i], answers(i)), ing, answers, i + 1, secret);
      if Accepts(ing, answers, i, secret) { LastIsNoEarlier(ing, answers, |ing.tls|, i, secret); }
    }
  }

  predicate SameContent(certs: map<string, Cert>, before: map<string, Cert>, secret: string) {
    (secret in certs <==> secret in before) && (secret in certs ==> certs[secret] == before[secret])
  }

  lemma {:induction false} LastIsNoEarlier(ing: Ingress, answers: nat -> Answer, n: nat, i: nat, secret: string)
    requires i < n <= |ing.tls| && Accepts(ing, answers, i, secret)
    ensures LastAccepted(ing, answers, n, secret).Some? && LastAccepted(ing, answers, n, secret).value >= i
  {
    if n - 1 > i { LastIsNoEarlier(ing, answers, n - 1, i, secret); }
  }

  lemma {:induction false} RemoveKeepsContent(t: Table, ing: Ingress, i: nat, secret: string)
    requires i <= |ing.tls| && secret in RemoveFrom(t, ing, i).certs
    ensures secret in t.certs && RemoveFrom(t, ing, i).certs[secret] == t.certs[secret]
    decreases |ing.tls| - i
  {
    if i < |ing.tls| { RemoveKeepsContent(RemoveEntry(t, ing, ing.tls[i]), ing, i + 1, secret); }
  }

  /** What is managed, read off the events alone: a secret is managed if and only if some Ingress
      refers to it and has done so ever since an entry was accepted for it. Its hosts are those of
      the latest accepted entry, its PEMs those of the latest accepted entry or reload. */
  lemma {:induction false} ManagedIsTheLatest(evs: seq<Event>, secret: string)
    ensures secret in Run(evs).certs <==> Kept(evs, secret)
    ensures secret in Run(evs).certs ==>
              var c := Run(evs).certs[secret];
              LatestHosts(evs, secret) == Some(c.hosts) && LatestPem(evs, secret) == Some((c.cert, c.key))
  {
    if evs != [] {
      var before, e := evs[..|evs| - 1], evs[|evs| - 1];
      ManagedIsTheLatest(before, secret);
      ReferencesAreExact(before);
      ReferencesAreExact(evs);
      if secret in Run(evs).certs {
        var key :| key in Run(evs).refs[secret];
        assert key in References(Run(evs), secret);
      }
      match e {
        case Load(ing, answers) =>
          LoadStores(Run(before), ing, answers, 0, secret);
          if Kept(before, secret) { LoadTracks(Run(before), ing, answers, 0); }
        case Remove(ing) => RemovalKeepsTheReferenced(evs, secret);
        case Reload(_, _, _, _) =>
      }
    }
  }

  lemma RemovalKeepsTheReferenced(evs: seq<Event>, secret: string)
    requires evs != [] && evs[|evs| - 1].Remove?
    ensures var before, after := Run(evs[..|evs| - 1]).certs, Run(evs).certs;
            if secret in before && (exists key :: Refers(evs, key, secret)) then SameContent(after, before, secret)
            else secret !in after
  {
    var t, ing := Run(evs[..|evs| - 1]), evs[|evs| - 1].ing;
    ReferencesAreExact(evs);
    if secret in Run(evs).certs {
      RemoveKeepsContent(t, ing, 0, secret);
      var key :| key in Run(evs).refs[secret];
      assert key in References(Run(evs), secret);
    } else if secret in t.certs && exists key :: Refers(evs, key, secret) {
      var key :| Refers(evs, key, secret);
      assert key in References(Run(evs), secret);
      RemoveDropsUnreferenced(t, ing, 0, secret);
    }
  }

  ghost predicate HostAfter(evs: seq<Event>, secret: string, host: string) {
    Kept(evs, secret) && LatestHosts(evs, secret).Some? && host in LatestHosts(evs, secret).value
  }

  /** The host of the latest accepted entry of some secret still in use. */
  ghost predicate HostManaged(evs: seq<Event>, host: string) { exists secret :: HostAfter(evs, secret, host) }

  /** ManagedHosts over runs: the hosts of the latest accepted entry of each secret still in use. */
  method HostsAfter(evs: seq<Event>) returns (hosts: seq<string>)
    ensures forall h :: h in hosts <==> HostManaged(evs, h)
    ensures forall i, j | 0 <= i < j < |hosts| :: hosts[i] != hosts[j]
  {
    var manager := new TLSManager();
    for k := 0 to |evs|
      invariant manager.Current() == Run(evs[..k])
    {
      assert evs[..k + 1][..k] == evs[..k];
      match evs[k] {
        case Load(ing, answers) => manager.LoadFromIngress(ing, answers);
        case Remove(ing) => manager.RemoveFromIngress(ing);
        case Reload(secret, cert, key, pushed) => manager.ReloadSecret(secret, cert, key, pushed);
      }
    }
    assert evs[..|evs|] == evs;
    hosts := manager.ManagedHosts();
    forall h ensures h in hosts <==> HostManaged(evs, h) { HostIsManaged(manager.Current(), evs, h); }
  }

  predicate Manages(t: Table, secret: string, h: string) { secret in t.certs && h in t.certs[secret].hosts }

  lemma HostIsManaged(t: Table, evs: seq<Event>, h: string)
    requires t == Run(evs)
    ensures (exists k :: Manages(t, k, h)) <==> HostManaged(evs, h)
  {
    forall k ensures Manages(t, k, h) <==> HostAfter(evs, k, h) { ManagedIsTheLatest(evs, k); }
  }
}
