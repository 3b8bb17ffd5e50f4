/** When a route @id determines where it came from. Names split at dashes and hosts lose their
    dots and stars, so ids determine their origin only for names and hosts free of those marks. */
module RouteIds {
  import opened Strings
  import opened Routes
  import opened LiveConfig
  import opened SyncSpec
  import opened Guarantees

  predicate CleanHost(host: string) {
    '-' !in host && !Contains(host, WILDCARD) && host != "any"
  }

  predicate CleanNames(namespace: string, name: string) { '-' !in namespace && '-' !in name }

  lemma SplitAtDash(a: string, x: string, b: string, y: string)
    requires '-' !in a && '-' !in b
    requires a + "-" + x == b + "-" + y
    ensures a == b && x == y
  {
    FirstDash(a, x);
    FirstDash(b, y);
    assert |a| == |b|;
    var l, r := a + "-" + x, b + "-" + y;
    assert l[..|a|] == a && r[..|a|] == b;
    assert l[|a| + 1..] == x && r[|a| + 1..] == y;
  }

  /** Rate-limit zones of Ingresses in namespaces without a dash tell the Ingresses apart. */
  lemma RateZonesDiffer(a: Ingress, b: Ingress, rps: int, rps': int)
    requires '-' !in a.namespace && '-' !in b.namespace
    requires RateLimitHandler(a, rps).zone == RateLimitHandler(b, rps').zone
    ensures a.Key() == b.Key() && a.namespace == b.namespace && a.name == b.name
  {
    var x, y := RateLimitHandler(a, rps).zone, RateLimitHandler(b, rps').zone;
    assert x[|"caddy-k8s-"|..] == a.namespace + "-" + a.name;
    assert y[|"caddy-k8s-"|..] == b.namespace + "-" + b.name;
    SplitAtDash(a.namespace, a.name, b.namespace, b.name);
  }

  lemma FirstDash(a: string, x: string)
    requires '-' !in a
    ensures (a + "-" + x)[|a|] == '-'
    ensures forall k | 0 <= k < |a| :: (a + "-" + x)[k] != '-'
  {
    forall k | 0 <= k < |a| ensures (a + "-" + x)[k] != '-' { assert (a + "-" + x)[k] == a[k]; }
  }

  lemma {:induction false} DotsInjective(a: string, b: string)
    requires '-' !in a && '-' !in b && ReplaceDots(a) == ReplaceDots(b)
    ensures a == b
  {
    if a != "" && b != "" {
      var ra, rb := ReplaceDots(a), ReplaceDots(b);
      assert ra[0] == rb[0] && ra[1..] == ReplaceDots(a[1..]) && rb[1..] == ReplaceDots(b[1..]);
      DotsInjective(a[1..], b[1..]);
      assert a == [a[0]] + a[1..] && b == [b[0]] + b[1..];
    }
  }

  lemma {:induction false} DotsPointwise(s: string, i: nat)
    requires i < |s|
    ensures ReplaceDots(s)[i] == if s[i] == '.' then '-' else s[i]
  {
    if i > 0 { DotsPointwise(s[1..], i - 1); }
  }

  predicate SpelledAt(s: string, i: nat, word: string) {
    i + |word| <= |s| && forall k | 0 <= k < |word| :: s[i + k] == word[k]
  }

  lemma DotsKeepWildcardFree(s: string)
    requires Contains(ReplaceDots(s), WILDCARD)
    ensures Contains(s, WILDCARD)
  {
    var r := ReplaceDots(s);
    var i :| 0 <= i <= |r| && WILDCARD <= r[i..];
    assert '-' !in WILDCARD;
    assert SpelledAt(r, i, WILDCARD);
    forall k | 0 <= k < |WILDCARD| ensures s[i + k] == WILDCARD[k] { DotsPointwise(s, i + k); }
    assert SpelledAt(s, i, WILDCARD);
    assert WILDCARD <= s[i..];
  }

  /** A star expands to a word whose later letters are not its first. */
  lemma {:induction false} Spelled(s: string, k: nat)
    requires 1 <= k <= |WILDCARD| && WILDCARD[k..] <= ReplaceStars(s)
    ensures WILDCARD[k..] <= s
    decreases |WILDCARD| - k
  {
    if k < |WILDCARD| {
      var r := ReplaceStars(s);
      assert r[0] == WILDCARD[k..][0] == WILDCARD[k] != 'w';
      assert s[0] != '*' && r == [s[0]] + ReplaceStars(s[1..]);
      assert r[1..] == ReplaceStars(s[1..]);
      assert WILDCARD[k..] == [WILDCARD[k]] + WILDCARD[k + 1..];
      Spelled(s[1..], k + 1);
      assert s == [s[0]] + s[1..];
    }
  }

  lemma StarAgainstLetters(rest: string, s: string)
    requires s != "" && s[0] != '*'
    requires WILDCARD + ReplaceStars(rest) == ReplaceStars(s)
    ensures Contains(s, WILDCARD)
  {
    var r := ReplaceStars(s);
    assert r == [s[0]] + ReplaceStars(s[1..]);
    assert r[..|WILDCARD|] == WILDCARD;
    assert r[0] == s[0] == 'w';
    assert r[1..] == ReplaceStars(s[1..]);
    assert WILDCARD[1..] <= r[1..];
    Spelled(s[1..], 1);
    assert WILDCARD == ['w'] + WILDCARD[1..] && s == ['w'] + s[1..];
    assert s[0..] == s && WILDCARD <= s[0..];
  }

  lemma WildcardFreeTail(s: string)
    requires s != "" && !Contains(s, WILDCARD)
    ensures !Contains(s[1..], WILDCARD)
  {
    forall i | 0 <= i <= |s[1..]| ensures !(WILDCARD <= s[1..][i..]) {
      assert s[1..][i..] == s[i + 1..];
    }
  }

  lemma {:induction false} StarsInjective(a: string, b: string)
    requires !Contains(a, WILDCARD) && !Contains(b, WILDCARD)
    requires ReplaceStars(a) == ReplaceStars(b)
    ensures a == b
  {
    if a == "" || b == "" {
      StarsEmpty(a);
      StarsEmpty(b);
    } else {
      var ra, rb := ReplaceStars(a), ReplaceStars(b);
      if a[0] == '*' && b[0] != '*' {
        StarAgainstLetters(a[1..], b);
      } else if a[0] != '*' && b[0] == '*' {
        StarAgainstLetters(b[1..], a);
      } else {
        var n := if a[0] == '*' then |WILDCARD| else 1;
        assert ra[n..] == ReplaceStars(a[1..]) && rb[n..] == ReplaceStars(b[1..]);
        assert a[0] != '*' ==> ra[0] == a[0] && rb[0] == b[0];
        WildcardFreeTail(a);
        WildcardFreeTail(b);
        StarsInjective(a[1..], b[1..]);
        assert a == [a[0]] + a[1..] && b == [b[0]] + b[1..];
      }
    }
  }

  lemma StarsEmpty(s: string)
    ensures ReplaceStars(s) == "" <==> s == ""
  {}

  lemma StarFreeUnchanged(s: string)
    requires s == "any"
    ensures ReplaceStars(ReplaceDots(s)) == s && !Contains(s, WILDCARD)
  {
    assert s[1..] == "ny" && s[1..][1..] == "y" && s[1..][1..][1..] == "";
    assert ReplaceDots("y") == "y" && ReplaceDots("ny") == "ny" && ReplaceDots("any") == "any";
    assert ReplaceStars("y") == "y" && ReplaceStars("ny") == "ny" && ReplaceStars("any") == "any";
  }

  lemma LabelInjective(a: string, b: string)
    requires CleanHost(a) && CleanHost(b) && HostLabel(a) == HostLabel(b)
    ensures a == b
  {
    StarFreeUnchanged("any");
    StarsEmpty(ReplaceDots(a));
    StarsEmpty(ReplaceDots(b));
    forall s | s in {a, b, "any"} ensures !Contains(ReplaceDots(s), WILDCARD) {
      if Contains(ReplaceDots(s), WILDCARD) { DotsKeepWildcardFree(s); }
    }
    var a', b' := if a == "" then "any" else a, if b == "" then "any" else b;
    StarsInjective(ReplaceDots(a'), ReplaceDots(b'));
    DotsInjective(a', b');
  }

  /** Host-level ids of clean names and hosts determine namespace, name and host. */
  lemma HostIdsInjective(ns: string, name: string, host: string, ns': string, name': string, host': string)
    requires CleanNames(ns, name) && CleanNames(ns', name') && CleanHost(host) && CleanHost(host')
    requires RouteID(ns, name, host, None) == RouteID(ns', name', host', None)
    ensures ns == ns' && name == name' && host == host'
  {
    SameBase(ns, name, HostLabel(host), ns', name', HostLabel(host'));
    LabelInjective(host, host');
  }

  lemma SameBase(ns: string, name: string, x: string, ns': string, name': string, y: string)
    requires CleanNames(ns, name) && CleanNames(ns', name')
    requires ID_PREFIX + ns + "-" + name + "-" + x == ID_PREFIX + ns' + "-" + name' + "-" + y
    ensures ns == ns' && name == name' && x == y
  {
    var a, b := ns + "-" + (name + "-" + x), ns' + "-" + (name' + "-" + y);
    assert ID_PREFIX + ns + "-" + name + "-" + x == ID_PREFIX + a;
    assert ID_PREFIX + ns' + "-" + name' + "-" + y == ID_PREFIX + b;
    assert (ID_PREFIX + a)[|ID_PREFIX|..] == a && (ID_PREFIX + b)[|ID_PREFIX|..] == b;
    SplitAtDash(ns, name + "-" + x, ns', name' + "-" + y);
    SplitAtDash(name, x, name', y);
  }

  /** Under one host, path ids differ from each other and from the host-level id. */
  lemma PathIdsDistinct(ns: string, name: string, host: string, i: nat, j: nat)
    ensures RouteID(ns, name, host, Some(i)) == RouteID(ns, name, host, Some(j)) <==> i == j
    ensures RouteID(ns, name, host, Some(i)) != RouteID(ns, name, host, None)
  {
    var base := RouteID(ns, name, host, None) + "-p";
    assert RouteID(ns, name, host, Some(i)) == base + Decimal(i);
    assert RouteID(ns, name, host, Some(j)) == base + Decimal(j);
    assert (base + Decimal(i))[|base|..] == Decimal(i) && (base + Decimal(j))[|base|..] == Decimal(j);
    if RouteID(ns, name, host, Some(i)) == RouteID(ns, name, host, Some(j)) { DecimalInjective(i, j); }
  }

  lemma LabelOfTwoLetters(s: string)
    requires s == "a.b" || s == "a-b"
    ensures HostLabel(s) == "a-b"
  {
    assert s[1..][1..] == "b" && "b"[1..] == "" && "-b"[1..] == "b" && "a-b"[1..] == "-b";
    assert ReplaceDots("b") == "b";
    assert ReplaceDots(s[1..]) == "-b";
    assert ReplaceDots(s) == "a-b";
    assert ReplaceStars("b") == "b";
    assert ReplaceStars("-b") == "-b";
    assert ReplaceStars("a-b") == "a-b";
  }

  /** Without the side conditions ids collide: a dot against a dash in the host, and a dash
      moved between namespace and name. */
  lemma IdsCollideOtherwise(ns: string, name: string, host: string)
    ensures RouteID(ns, name, "a.b", None) == RouteID(ns, name, "a-b", None) && "a.b" != "a-b"
    ensures RouteID("a", "b-c", host, None) == RouteID("a-b", "c", host, None) && "a" != "a-b"
  {
    LabelOfTwoLetters("a.b");
    LabelOfTwoLetters("a-b");
    assert "a.b"[1] != "a-b"[1];
    assert ID_PREFIX + "a" + "-" + "b-c" == ID_PREFIX + "a-b" + "-" + "c";
  }

  // ---------- ids tell Ingresses apart ----------

  /** The routes are those of the paths from i on that have a service, in order, with ids that name
      each path's own place in the rule. */
  ghost predicate InPlace(rs: seq<CaddyRoute>, ing: Ingress, host: string, paths: seq<HTTPPath>, i: nat, at: seq<nat>) {
    && |at| == |rs| && (forall j, k | 0 <= j < k < |at| :: at[j] < at[k])
    && (forall n :: n in at <==> i <= n < |paths| && paths[n].service.Some?)
    && (forall j | 0 <= j < |rs| :: rs[j].id == RouteID(ing.namespace, ing.name, host, Some(at[j])))
  }

  lemma InPlaceCons(r: CaddyRoute, rest: seq<CaddyRoute>, ing: Ingress, host: string, paths: seq<HTTPPath>, i: nat,
                    at: seq<nat>)
    requires i < |paths| && InPlace(rest, ing, host, paths, i + 1, at)
    requires r.id == RouteID(ing.namespace, ing.name, host, Some(i))
    ensures paths[i].service.Some? ==> InPlace([r] + rest, ing, host, paths, i, [i] + at)
    ensures paths[i].service.None? ==> InPlace(rest, ing, host, paths, i, at)
  {
    forall k | 0 <= k < |at| ensures i < at[k] { assert at[k] in at; }
  }

  lemma {:induction false} PathRoutesKeepTheirPlaces(ing: Ingress, sec: Security, ann: Annotations, host: string,
                                                     paths: seq<HTTPPath>, i: nat) returns (at: seq<nat>)
    requires ann.Valid() && i <= |paths|
    ensures InPlace(PathRoutes(ing, sec, ann, host, paths, i), ing, host, paths, i, at)
    decreases |paths| - i
  {
    if i == |paths| {
      at := [];
    } else {
      at := PathRoutesKeepTheirPlaces(ing, sec, ann, host, paths, i + 1);
      var r := CaddyRoute(RouteID(ing.namespace, ing.name, host, Some(i)), [], [], false);
      var rest := PathRoutes(ing, sec, ann, host, paths, i + 1);
      if paths[i].service.Some? {
        InPlaceCons(PathRoute(ing, sec, ann, host, paths[i], i), rest, ing, host, paths, i, at);
        at := [i] + at;
      } else {
        InPlaceCons(r, rest, ing, host, paths, i, at);
      }
    }
  }

  /** So no two path routes of a rule share an id. */
  lemma PathRouteIdsDiffer(ing: Ingress, sec: Security, ann: Annotations, host: string, paths: seq<HTTPPath>)
    requires ann.Valid()
    ensures var rs := PathRoutes(ing, sec, ann, host, paths, 0);
            forall j, k | 0 <= j < k < |rs| :: rs[j].id != rs[k].id
  {
    var at := PathRoutesKeepTheirPlaces(ing, sec, ann, host, paths, 0);
    var rs := PathRoutes(ing, sec, ann, host, paths, 0);
    forall j, k | 0 <= j < k < |rs| ensures rs[j].id != rs[k].id {
      PathIdsDistinct(ing.namespace, ing.name, host, at[j], at[k]);
    }
  }

  /** Clean names and hosts, no host imitating a redirect suffix. */
  predicate Clean(ns: string, name: string, host: string) {
    CleanNames(ns, name) && CleanHost(host) && !EndsWith(HostLabel(host), REDIRECT_SUFFIX)
  }

  ghost predicate IsHostId(id: string) {
    exists ns, name, host :: Clean(ns, name, host) && id == RouteID(ns, name, host, None)
  }

  ghost predicate IsRedirectId(id: string) {
    exists ns, name, host :: Clean(ns, name, host) && id == RouteID(ns, name, host, None) + REDIRECT_SUFFIX
  }

  /** The Ingress that a clean id belongs to. */
  ghost function TagOf(id: string): Tag {
    if IsHostId(id) then
      var ns, name, host :| Clean(ns, name, host) && id == RouteID(ns, name, host, None);
      RouteOf(ns + "/" + name)
    else if IsRedirectId(id) then
      var ns, name, host :| Clean(ns, name, host) && id == RouteID(ns, name, host, None) + REDIRECT_SUFFIX;
      RedirectOf(ns + "/" + name)
    else Foreign
  }

  lemma HostIdTag(ns: string, name: string, host: string)
    requires Clean(ns, name, host)
    ensures TagOf(RouteID(ns, name, host, None)) == RouteOf(ns + "/" + name)
  {
    var id := RouteID(ns, name, host, None);
    assert IsHostId(id);
    forall n, m, h | Clean(n, m, h) && id == RouteID(n, m, h, None) ensures n == ns && m == name {
      HostIdsInjective(ns, name, host, n, m, h);
    }
  }

  lemma RedirectIdIsNotHostId(ns: string, name: string, host: string)
    requires Clean(ns, name, host)
    ensures !IsHostId(RouteID(ns, name, host, None) + REDIRECT_SUFFIX)
  {
    var id := RouteID(ns, name, host, None) + REDIRECT_SUFFIX;
    var tail := HostLabel(host) + REDIRECT_SUFFIX;
    assert id == ID_PREFIX + ns + "-" + name + "-" + tail;
    assert EndsWith(tail, REDIRECT_SUFFIX);
    forall n, m, h | Clean(n, m, h) ensures id != RouteID(n, m, h, None) {
      if id == RouteID(n, m, h, None) { SameBase(ns, name, tail, n, m, HostLabel(h)); }
    }
  }

  lemma RedirectIdsInjective(ns: string, name: string, host: string, n: string, m: string, h: string)
    requires Clean(ns, name, host) && Clean(n, m, h)
    requires RouteID(ns, name, host, None) + REDIRECT_SUFFIX == RouteID(n, m, h, None) + REDIRECT_SUFFIX
    ensures ns == n && name == m && host == h
  {
    SuffixCancels(RouteID(ns, name, host, None), RouteID(n, m, h, None), REDIRECT_SUFFIX);
    HostIdsInjective(ns, name, host, n, m, h);
  }

  lemma SuffixCancels(a: string, b: string, suffix: string)
    requires a + suffix == b + suffix
    ensures a == b
  {
    assert |a| == |b| && (a + suffix)[..|a|] == a && (b + suffix)[..|b|] == b;
  }

  lemma RedirectIdTag(ns: string, name: string, host: string)
    requires Clean(ns, name, host)
    ensures TagOf(RouteID(ns, name, host, None) + REDIRECT_SUFFIX) == RedirectOf(ns + "/" + name)
  {
    var id := RouteID(ns, name, host, None) + REDIRECT_SUFFIX;
    RedirectIdIsNotHostId(ns, name, host);
    assert IsRedirectId(id);
    forall n, m, h | Clean(n, m, h) && id == RouteID(n, m, h, None) + REDIRECT_SUFFIX ensures n == ns && m == name {
      RedirectIdsInjective(ns, name, host, n, m, h);
    }
  }

  predicate CleanIngress(ing: Ingress) {
    && (forall k | 0 <= k < |ing.rules| :: Clean(ing.namespace, ing.name, ing.rules[k].host))
    && (forall j, k | 0 <= j < k < |ing.rules| :: ing.rules[j].host != ing.rules[k].host)
  }

  lemma RuleRouteId(ing: Ingress, sec: Security, ann: Annotations, rule: Rule, r: CaddyRoute)
    requires ann.Valid() && RuleRoutes(ing, sec, ann, rule) == [r]
    ensures r.id == RouteID(ing.namespace, ing.name, rule.host, None)
  {}

  lemma {:induction false} RedirectComesFromRule(ing: Ingress, k: nat, r: CaddyRoute) returns (j: nat)
    requires k <= |ing.rules| && r in RedirectRoutes(ing, k)
    ensures k <= j < |ing.rules| && ing.rules[j].host != "" && r == RedirectRoute(ing, ing.rules[j].host)
    decreases |ing.rules| - k
  {
    if ing.rules[k].host != "" && r == RedirectRoute(ing, ing.rules[k].host) {
      j := k;
    } else {
      j := RedirectComesFromRule(ing, k + 1, r);
    }
  }

  /** For clean Ingresses the ids of compiled and redirect routes tell every Ingress apart. */
  lemma CleanEventsAreWellTagged(ing: Ingress, sec: Security, ann: Annotations, ingressClass: string)
    requires ann.Valid() && CleanIngress(ing)
    ensures WellTagged(TagOf, AddEvent(ing, sec, ann, ingressClass))
  {
    forall r | r in Compiled(ing, sec, ann) ensures TagOf(r.id) == RouteOf(ing.Key()) {
      var j := RouteComesFromRule(ing, sec, ann, 0, r);
      RuleRouteId(ing, sec, ann, ing.rules[j], r);
      HostIdTag(ing.namespace, ing.name, ing.rules[j].host);
    }
    forall r | r in RedirectRoutes(ing, 0) ensures TagOf(r.id) == RedirectOf(ing.Key()) {
      var j := RedirectComesFromRule(ing, 0, r);
      RedirectIdTag(ing.namespace, ing.name, ing.rules[j].host);
    }
  }

  /** ... and no two routes of one clean Ingress share an id. */
  lemma CleanRoutesAreCoherent(ing: Ingress, sec: Security, ann: Annotations)
    requires ann.Valid() && CleanIngress(ing)
    ensures Coherent(Compiled(ing, sec, ann))
  {
    var rs := Compiled(ing, sec, ann);
    forall a, b | 0 <= a < b < |rs| && rs[a].id == rs[b].id ensures rs[a] == rs[b] {
      var i := RouteComesFromRule(ing, sec, ann, 0, rs[a]);
      var j := RouteComesFromRule(ing, sec, ann, 0, rs[b]);
      RuleRouteId(ing, sec, ann, ing.rules[i], rs[a]);
      RuleRouteId(ing, sec, ann, ing.rules[j], rs[b]);
      HostIdsInjective(ing.namespace, ing.name, ing.rules[i].host, ing.namespace, ing.name, ing.rules[j].host);
      assert i == j;
    }
  }

  /** ... and neither do its redirects, which fixes when a second sync writes nothing. */
  lemma CleanRedirectsAreCoherent(ing: Ingress)
    requires CleanIngress(ing)
    ensures Coherent(RedirectRoutes(ing, 0))
  {
    var rs := RedirectRoutes(ing, 0);
    forall a, b | 0 <= a < b < |rs| && rs[a].id == rs[b].id ensures rs[a] == rs[b] {
      var i := RedirectComesFromRule(ing, 0, rs[a]);
      var j := RedirectComesFromRule(ing, 0, rs[b]);
      RedirectIdsInjective(ing.namespace, ing.name, ing.rules[i].host, ing.namespace, ing.name, ing.rules[j].host);
    }
  }
}
