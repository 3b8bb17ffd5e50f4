/** The annotation encodings of annotations.go: header lists, body sizes and CORS settings. */
module Annotated {
  import opened Strings
  import opened Routes
  import opened Guarantees
  import Meaning

  // ---------- header lists ----------

  /** strings.Cut at the first separator. */
  function Cut(s: string, sep: char): Option<(string, string)> {
    if s == "" then None
    else if s[0] == sep then Some(("", s[1..]))
    else
      match Cut(s[1..], sep)
      case None => None
      case Some((k, v)) => Some(([s[0]] + k, v))
  }

  const NO_HEADERS := HeaderConfig(map[], [])

  /** One comma-separated part: "-Name" deletes, "Key=Value" sets, anything else is skipped. */
  function AddPart(cfg: HeaderConfig, part: string): HeaderConfig {
    var p := TrimSpace(part);
    if p == "" then cfg
    else if p[0] == '-' then
      var name := TrimSpace(p[1..]);
      if name != "" then cfg.(deletes := cfg.deletes + [name]) else cfg
    else
      match Cut(p, '=')
      case None => cfg
      case Some((k, v)) => cfg.(sets := cfg.sets[TrimSpace(k) := TrimSpace(v)])
  }

  function AddParts(cfg: HeaderConfig, parts: seq<string>): HeaderConfig
    decreases parts
  {
    if parts == [] then cfg else AddParts(AddPart(cfg, parts[0]), parts[1..])
  }

  function ParsedHeaders(raw: string): HeaderConfig { AddParts(NO_HEADERS, Split(raw, ',')) }

  method ParseHeaderAnnotation(raw: string) returns (cfg: HeaderConfig)
    ensures cfg == ParsedHeaders(raw)
  {
    var sets: map<string, string>, deletes: seq<string> := map[], [];
    var parts := Split(raw, ',');
    for i := 0 to |parts|
      invariant AddParts(HeaderConfig(sets, deletes), parts[i..]) == ParsedHeaders(raw)
    {
      assert parts[i..][0] == parts[i] && parts[i..][1..] == parts[i + 1..];
      var part := TrimSpace(parts[i]);
      if part == "" { continue; }
      if part[0] == '-' {
        var name := TrimSpace(part[1..]);
        if name != "" { deletes := deletes + [name]; }
      } else {
        var kv := Cut(part, '=');
        if kv.Some? { sets := sets[TrimSpace(kv.value.0) := TrimSpace(kv.value.1)]; }
      }
    }
    return HeaderConfig(sets, deletes);
  }

  // ---------- printing header lists ----------

  function SetPart(e: (string, string)): string { e.0 + "=" + e.1 }
  function DeletePart(name: string): string { "-" + name }

  function PartsOf(entries: seq<(string, string)>, deletes: seq<string>): seq<string> {
    seq(|entries|, i requires 0 <= i < |entries| => SetPart(entries[i]))
    + seq(|deletes|, i requires 0 <= i < |deletes| => DeletePart(deletes[i]))
  }

  /** The inverse of parsing, for any order of the entries. */
  function PrintedHeaders(entries: seq<(string, string)>, deletes: seq<string>): string {
    Join(PartsOf(entries, deletes), ',')
  }

  predicate CleanKey(k: string) { Trimmed(k) && ',' !in k && '=' !in k && (k == "" || k[0] != '-') }
  predicate CleanText(v: string) { Trimmed(v) && ',' !in v }

  predicate CleanConfig(cfg: HeaderConfig) {
    && (forall k :: k in cfg.sets ==> CleanKey(k) && CleanText(cfg.sets[k]))
    && (forall d :: d in cfg.deletes ==> d != "" && CleanText(d))
  }

  lemma {:induction false} CutProperties(s: string, sep: char)
    ensures Cut(s, sep).Some? ==>
      var (k, v) := Cut(s, sep).value; sep !in k && s == k + [sep] + v
  {
    if s != "" && s[0] != sep {
      CutProperties(s[1..], sep);
      assert s == [s[0]] + s[1..];
    } else if s != "" {
      assert s == "" + [sep] + s[1..];
    }
  }

  lemma {:induction false} CutWhole(k: string, v: string, sep: char)
    requires sep !in k
    ensures Cut(k + [sep] + v, sep) == Some((k, v))
  {
    var s := k + [sep] + v;
    if k == "" {
      assert s[1..] == v;
    } else {
      CutWhole(k[1..], v, sep);
      assert s[0] == k[0] && s[1..] == k[1..] + [sep] + v && [k[0]] + k[1..] == k;
    }
  }

  lemma {:induction false} TrimRightKeepsHead(s: string)
    requires s != "" && !IsSpace(s[0])
    ensures TrimRight(s) != "" && TrimRight(s)[0] == s[0]
  {
    if IsSpace(s[|s| - 1]) { TrimRightKeepsHead(s[..|s| - 1]); }
  }

  lemma AddPartKeepsClean(cfg: HeaderConfig, part: string)
    requires CleanConfig(cfg) && ',' !in part
    ensures CleanConfig(AddPart(cfg, part))
  {
    var p := TrimSpace(part);
    TrimSpaceTrims(part);
    if p != "" && p[0] == '-' {
      TrimSpaceTrims(p[1..]);
      assert forall c :: c in p[1..] ==> c in p;
    } else if p != "" && Cut(p, '=').Some? {
      var (k, v) := Cut(p, '=').value;
      CutProperties(p, '=');
      assert forall c :: c in k || c in v ==> c in p;
      TrimSpaceTrims(k);
      TrimSpaceTrims(v);
      if k != "" {
        assert k[0] == p[0];
        TrimRightKeepsHead(k);
      }
    }
  }

  lemma {:induction false} AddPartsKeepsClean(cfg: HeaderConfig, parts: seq<string>)
    requires CleanConfig(cfg) && forall p :: p in parts ==> ',' !in p
    ensures CleanConfig(AddParts(cfg, parts))
    decreases parts
  {
    if parts != [] {
      AddPartKeepsClean(cfg, parts[0]);
      AddPartsKeepsClean(AddPart(cfg, parts[0]), parts[1..]);
    }
  }

  lemma AddSetPart(cfg: HeaderConfig, k: string, v: string)
    requires CleanKey(k) && CleanText(v)
    ensures AddPart(cfg, SetPart((k, v))) == cfg.(sets := cfg.sets[k := v])
  {
    var p := k + "=" + v;
    assert p[0] == if k == "" then '=' else k[0];
    assert p[|p| - 1] == if v == "" then '=' else v[|v| - 1];
    TrimmedIsFixed(p);
    CutWhole(k, v, '=');
    TrimmedIsFixed(k);
    TrimmedIsFixed(v);
  }

  lemma AddDeletePart(cfg: HeaderConfig, d: string)
    requires d != "" && CleanText(d)
    ensures AddPart(cfg, DeletePart(d)) == cfg.(deletes := cfg.deletes + [d])
  {
    var p := "-" + d;
    assert p[0] == '-' && p[1..] == d && p[|p| - 1] == d[|d| - 1];
    TrimmedIsFixed(p);
    TrimmedIsFixed(d);
  }

  function Assigned(sets: map<string, string>, entries: seq<(string, string)>): map<string, string>
    decreases entries
  {
    if entries == [] then sets else Assigned(sets[entries[0].0 := entries[0].1], entries[1..])
  }

  lemma {:induction false} AddPrinted(cfg: HeaderConfig, entries: seq<(string, string)>, deletes: seq<string>)
    requires forall e :: e in entries ==> CleanKey(e.0) && CleanText(e.1)
    requires forall d :: d in deletes ==> d != "" && CleanText(d)
    ensures AddParts(cfg, PartsOf(entries, deletes)) == HeaderConfig(Assigned(cfg.sets, entries), cfg.deletes + deletes)
    decreases |entries| + |deletes|
  {
    var parts := PartsOf(entries, deletes);
    if entries != [] {
      assert entries[0] in entries;
      assert parts[0] == SetPart(entries[0]) && parts[1..] == PartsOf(entries[1..], deletes);
      assert forall e :: e in entries[1..] ==> e in entries;
      AddSetPart(cfg, entries[0].0, entries[0].1);
      AddPrinted(AddPart(cfg, parts[0]), entries[1..], deletes);
    } else if deletes != [] {
      assert deletes[0] in deletes;
      assert parts[0] == DeletePart(deletes[0]) && parts[1..] == PartsOf(entries, deletes[1..]);
      assert forall d :: d in deletes[1..] ==> d in deletes;
      AddDeletePart(cfg, deletes[0]);
      AddPrinted(AddPart(cfg, parts[0]), entries, deletes[1..]);
      assert cfg.deletes + [deletes[0]] + deletes[1..] == cfg.deletes + deletes;
    } else {
      assert parts == [] && cfg.deletes + deletes == cfg.deletes;
    }
  }

  /** A listing of a map's entries in some order. */
  predicate Lists(entries: seq<(string, string)>, sets: map<string, string>) {
    && (forall e :: e in entries ==> e.0 in sets && sets[e.0] == e.1)
    && (forall k :: k in sets ==> (k, sets[k]) in entries)
  }

  lemma {:induction false} AssignedAgrees(start: map<string, string>, sets: map<string, string>,
                                          entries: seq<(string, string)>)
    requires forall e :: e in entries ==> e.0 in sets && sets[e.0] == e.1
    requires forall k :: k in start ==> k in sets && start[k] == sets[k]
    ensures forall k :: k in Assigned(start, entries) <==> k in start || exists e :: e in entries && e.0 == k
    ensures forall k :: k in Assigned(start, entries) ==> k in sets && Assigned(start, entries)[k] == sets[k]
    decreases entries
  {
    if entries != [] {
      assert entries[0] in entries;
      AssignedAgrees(start[entries[0].0 := entries[0].1], sets, entries[1..]);
      assert forall e :: e in entries <==> e == entries[0] || e in entries[1..];
    }
  }

  lemma PartsAreCommaFree(cfg: HeaderConfig, entries: seq<(string, string)>)
    requires CleanConfig(cfg) && Lists(entries, cfg.sets)
    ensures forall p :: p in PartsOf(entries, cfg.deletes) ==> ',' !in p
  {
    var parts := PartsOf(entries, cfg.deletes);
    forall p | p in parts ensures ',' !in p {
      var i :| 0 <= i < |parts| && parts[i] == p;
      if i < |entries| { assert entries[i] in entries; }
      else { assert cfg.deletes[i - |entries|] in cfg.deletes; }
    }
  }

  lemma ListedAssignment(sets: map<string, string>, entries: seq<(string, string)>)
    requires Lists(entries, sets)
    ensures Assigned(map[], entries) == sets
  {
    AssignedAgrees(map[], sets, entries);
    assert forall k :: k in sets ==> (k, sets[k]) in entries && (k, sets[k]).0 == k;
  }

  /** Splitting what was printed gives the parts back, up to an empty part that is skipped. */
  lemma PrintedSplitsBack(parts: seq<string>)
    requires forall p :: p in parts ==> ',' !in p
    ensures AddParts(NO_HEADERS, Split(Join(parts, ','), ',')) == AddParts(NO_HEADERS, parts)
  {
    if parts == [] {
      assert Split("", ',') == [""];
      assert TrimSpace("") == "";
      assert AddParts(NO_HEADERS, [""]) == NO_HEADERS;
    } else {
      SplitJoin(parts, ',');
    }
  }

  lemma PrintedParsesBack(cfg: HeaderConfig, entries: seq<(string, string)>)
    requires CleanConfig(cfg) && Lists(entries, cfg.sets)
    ensures ParsedHeaders(PrintedHeaders(entries, cfg.deletes)) == cfg
  {
    PartsAreCommaFree(cfg, entries);
    PrintedSplitsBack(PartsOf(entries, cfg.deletes));
    AddPrinted(NO_HEADERS, entries, cfg.deletes);
    ListedAssignment(cfg.sets, entries);
    assert [] + cfg.deletes == cfg.deletes;
  }

  /** Header annotations have a stable normal form: printing a parsed annotation, in any order
      of its entries, and parsing again gives the same sets and the same deletes. */
  lemma ParsePrintParse(raw: string, entries: seq<(string, string)>)
    requires Lists(entries, ParsedHeaders(raw).sets)
    ensures ParsedHeaders(PrintedHeaders(entries, ParsedHeaders(raw).deletes)) == ParsedHeaders(raw)
  {
    SplitPartsHaveNoSep(raw, ',');
    AddPartsKeepsClean(NO_HEADERS, Split(raw, ','));
    PrintedParsesBack(ParsedHeaders(raw), entries);
  }

  // ---------- body sizes ----------

  datatype Size = Bytes(n: int) | Invalid

  function Multiplier(last: char): int {
    if last == 'k' || last == 'K' then 1024
    else if last == 'm' || last == 'M' then 1024 * 1024
    else if last == 'g' || last == 'G' then 1024 * 1024 * 1024
    else 1
  }

  predicate IsUnit(last: char) { last in {'k', 'K', 'm', 'M', 'g', 'G'} }

  /** The number before the unit times the unit, as a 64-bit product. */
  function BodySize(s: string): Size {
    var t := TrimSpace(s);
    if t == "" then Invalid
    else
      var last := t[|t| - 1];
      var digits := if IsUnit(last) then t[..|t| - 1] else t;
      match ParseInt64(TrimSpace(digits))
      case None => Invalid
      case Some(n) => Bytes(WrapInt64(n * Multiplier(last)))
  }

  method ParseBodySize(text: string) returns (r: Size)
    ensures r == BodySize(text)
  {
    var s := TrimSpace(text);
    if s == "0" {
      TrimmedIsFixed("0");
      DecimalRoundTrip(0);
      return Bytes(0);
    }
    if s == "" { return Invalid; }
    var multiplier := 1;
    var last := s[|s| - 1];
    if last == 'k' || last == 'K' {
      multiplier := 1024;
      s := s[..|s| - 1];
    } else if last == 'm' || last == 'M' {
      multiplier := 1024 * 1024;
      s := s[..|s| - 1];
    } else if last == 'g' || last == 'G' {
      multiplier := 1024 * 1024 * 1024;
      s := s[..|s| - 1];
    }
    var n := ParseInt64(TrimSpace(s));
    if n.None? { return Invalid; }
    return Bytes(WrapInt64(n.value * multiplier));
  }

  /** A unit suffix and what it multiplies by. */
  predicate Unit(suffix: string, m: nat) {
    || (suffix == "" && m == 1)
    || ((suffix == "k" || suffix == "K") && m == 1024)
    || ((suffix == "m" || suffix == "M") && m == 1048576)
    || ((suffix == "g" || suffix == "G") && m == 1073741824)
  }

  lemma ParseDecimal(n: nat)
    ensures ParseInt64(Decimal(n)) == if n > MAX_INT64 then None else Some(n)
  {
    DecimalRoundTrip(n);
    assert Decimal(n)[0] in Decimal(n);
  }

  /** A digit string followed by a unit is read as that number of units. */
  lemma BodySizeReads(d: string, suffix: string, m: nat)
    requires d != "" && AllDigits(d) && Unit(suffix, m)
    ensures BodySize(d + suffix) == match ParseInt64(d) { case None => Invalid case Some(n) => Bytes(WrapInt64(n * m)) }
  {
    var s := d + suffix;
    assert d[0] in d && d[|d| - 1] in d;
    var last := if suffix == "" then d[|d| - 1] else suffix[0];
    assert s[0] == d[0] && s[|s| - 1] == last;
    TrimmedIsFixed(d);
    TrimmedIsFixed(s);
    assert Multiplier(last) == m && (IsUnit(last) <==> suffix != "");
    assert (if IsUnit(last) then s[..|s| - 1] else s) == d;
  }

  lemma WrapFits(x: int)
    requires 0 <= x <= MAX_INT64
    ensures WrapInt64(x) == x
  {}

  lemma AtLeastOnce(n: nat, m: nat)
    requires m >= 1
    ensures n <= n * m
  {}

  /** Body-size arithmetic: n followed by a unit reads as n times the unit when that fits in 63
      bits, as the product reduced to 64 signed bits when only n fits, and is refused otherwise. */
  lemma BodySizeOfDecimal(n: nat, suffix: string, m: nat)
    requires Unit(suffix, m)
    ensures BodySize(Decimal(n) + suffix) == if n > MAX_INT64 then Invalid else Bytes(WrapInt64(n * m))
    ensures n * m <= MAX_INT64 ==> BodySize(Decimal(n) + suffix) == Bytes(n * m)
  {
    DecimalRoundTrip(n);
    ParseDecimal(n);
    BodySizeReads(Decimal(n), suffix, m);
    AtLeastOnce(n, m);
    if n * m <= MAX_INT64 { WrapFits(n * m); }
  }

  /** The limit is the only body limit in the chain. */
  predicate CarriesExactly(chain: seq<Handler>, limit: int) {
    && RequestBody(limit) in chain
    && forall h :: h in chain && h.RequestBody? ==> h.maxSize == limit
  }

  lemma CoreChainCarriesLimit(upstream: string, ing: Ingress, sec: Security, ann: Annotations,
                              plainHTTP: bool, withCORS: bool, dynamic: bool)
    requires ann.Valid() && ann.proxy.maxBodySize > 0
    ensures CarriesExactly(CoreChain(upstream, ing, sec, ann, plainHTTP, withCORS, dynamic), ann.proxy.maxBodySize)
  {
    EarlyGatesCarry(ing, ann);
    NoLimitElsewhere(upstream, sec, ann, plainHTTP, withCORS, dynamic);
    CarriedBySix(CorsPart(ann, withCORS, dynamic), EarlyGates(ing, ann),
                 If(ann.rewriteTarget != "", Rewrite(ann.rewriteTarget)),
                 HeaderHandlers(sec, ann, plainHTTP), LateGates(sec, ann),
                     [ProxyHandler(upstream, sec, ann, plainHTTP)],
                 ann.proxy.maxBodySize);
  }

  predicate NoLimit(hs: seq<Handler>) { forall h :: h in hs ==> !h.RequestBody? }

  lemma EarlyGatesCarry(ing: Ingress, ann: Annotations)
    requires ann.proxy.maxBodySize > 0
    ensures CarriesExactly(EarlyGates(ing, ann), ann.proxy.maxBodySize)
  {
    EarlyGatesComplete(ing, ann);
    OnlyLimit(ing, ann);
  }

  lemma NoLimitElsewhere(upstream: string, sec: Security, ann: Annotations, plainHTTP: bool, withCORS: bool,
                         dynamic: bool)
    requires ann.Valid()
    ensures NoLimit(CorsPart(ann, withCORS, dynamic)) &&
            NoLimit(If(ann.rewriteTarget != "", Rewrite(ann.rewriteTarget)))
    ensures NoLimit(HeaderHandlers(sec, ann, plainHTTP)) && NoLimit(LateGates(sec, ann))
    ensures NoLimit([ProxyHandler(upstream, sec, ann, plainHTTP)])
  {
    forall h | h in HeaderHandlers(sec, ann, plainHTTP) ensures h.ResponseHeaders? {}
    forall h | h in LateGates(sec, ann) ensures h.Waf? || h.Opaque? {}
  }

  lemma CarriedBySix(a: seq<Handler>, b: seq<Handler>, c: seq<Handler>, d: seq<Handler>, e: seq<Handler>,
                     f: seq<Handler>, limit: int)
    requires CarriesExactly(b, limit) && NoLimit(a) && NoLimit(c) && NoLimit(d) && NoLimit(e) && NoLimit(f)
    ensures CarriesExactly(a + b + c + d + e + f, limit)
  {
    MembersOfSix(a, b, c, d, e, f);
  }

  lemma MembersOfSix<T>(a: seq<T>, b: seq<T>, c: seq<T>, d: seq<T>, e: seq<T>, f: seq<T>)
    ensures forall x :: x in a + b + c + d + e + f <==> x in a || x in b || x in c || x in d || x in e || x in f
  {}

  /** A positive size annotation in range ends up as exactly that limit in every branch of a
      chain that proxies. */
  lemma ConfiguredLimitIsCarried(upstream: string, ing: Ingress, sec: Security, ann: Annotations, n: nat,
                                 suffix: string, m: nat)
    requires Unit(suffix, m) && n > 0 && n * m <= MAX_INT64
    requires ann.Valid() && !ann.IsRedirect() && Bytes(ann.proxy.maxBodySize) == BodySize(Decimal(n) + suffix)
    ensures var chain := HandlerChain(upstream, ing, sec, ann);
      if ann.cors.Some? && |ann.cors.value.origins| > 1 then
        |chain| == 1 && chain[0].Subroute? && |chain[0].routes| == 2
        && CarriesExactly(chain[0].routes[0].handle, n * m) && CarriesExactly(chain[0].routes[1].handle, n * m)
      else CarriesExactly(chain, n * m)
  {
    BodySizeOfDecimal(n, suffix, m);
    AtLeastOnce(n, m);
    PositiveLimitIsCarried(upstream, ing, sec, ann);
  }

  lemma PositiveLimitIsCarried(upstream: string, ing: Ingress, sec: Security, ann: Annotations)
    requires ann.Valid() && !ann.IsRedirect() && ann.proxy.maxBodySize > 0
    ensures var chain, limit := HandlerChain(upstream, ing, sec, ann), ann.proxy.maxBodySize;
      if ann.cors.Some? && |ann.cors.value.origins| > 1 then
        |chain| == 1 && chain[0].Subroute? && |chain[0].routes| == 2
        && CarriesExactly(chain[0].routes[0].handle, limit) && CarriesExactly(chain[0].routes[1].handle, limit)
      else CarriesExactly(chain, limit)
  {
    var plain := ing.PlainHTTP();
    CoreChainCarriesLimit(upstream, ing, sec, ann, plain, ann.cors.Some?, false);
    CoreChainCarriesLimit(upstream, ing, sec, ann, plain, true, true);
    CoreChainCarriesLimit(upstream, ing, sec, ann, plain, false, false);
  }

  lemma OnlyLimit(ing: Ingress, ann: Annotations)
    ensures forall h :: h in EarlyGates(ing, ann) && h.RequestBody? ==> h.maxSize == ann.proxy.maxBodySize > 0
  {}

  // ---------- CORS ----------

  const ENABLE_CORS := "caddy.ingress/enable-cors"
  const CORS_ORIGIN := "caddy.ingress/cors-allow-origin"
  const CORS_METHODS := "caddy.ingress/cors-allow-methods"
  const CORS_HEADERS := "caddy.ingress/cors-allow-headers"
  const CORS_EXPOSE := "caddy.ingress/cors-expose-headers"
  const CORS_CREDENTIALS := "caddy.ingress/cors-allow-credentials"
  const CORS_MAX_AGE := "caddy.ingress/cors-max-age"
  const DEFAULT_METHODS := "GET, PUT, POST, DELETE, PATCH, OPTIONS"
  const DEFAULT_HEADERS := "DNT,Keep-Alive,User-Agent,X-Requested-With,If-Modified-Since,Cache-Control,Content-Type,"
                           + "Range,Authorization"
  const DEFAULT_MAX_AGE := 1728000

  /** A Go map lookup of an absent key gives "". */
  function Value(a: map<string, string>, key: string): string { if key in a then a[key] else "" }

  function NonEmptyTrimmed(parts: seq<string>): seq<string> {
    if parts == [] then []
    else
      var o, rest := TrimSpace(parts[0]), NonEmptyTrimmed(parts[1..]);
      if o != "" then [o] + rest else rest
  }

  function Origins(v: string): (os: seq<string>)
    ensures |os| > 0
  {
    var os := if v != "" then NonEmptyTrimmed(Split(v, ',')) else [];
    if os == [] then ["*"] else os
  }

  function MaxAge(v: string): nat {
    if v == "" then DEFAULT_MAX_AGE
    else
      match ParseInt64(TrimSpace(v))
      case Some(n) => if n >= 0 then n else DEFAULT_MAX_AGE
      case None => DEFAULT_MAX_AGE
  }

  function OrDefault(v: string, default: string): string { if v != "" then TrimSpace(v) else default }

  /** The CORS part of resolveAnnotations. */
  function ResolvedCors(a: map<string, string>): Option<Cors> {
    if !EqualFold(Value(a, ENABLE_CORS), "true") then None
    else
      var origins := Origins(Value(a, CORS_ORIGIN));
      Some(Cors(origins,
                OrDefault(Value(a, CORS_METHODS), DEFAULT_METHODS),
                OrDefault(Value(a, CORS_HEADERS), DEFAULT_HEADERS),
                OrDefault(Value(a, CORS_EXPOSE), ""),
                EqualFold(Value(a, CORS_CREDENTIALS), "true") && origins != ["*"],
                MaxAge(Value(a, CORS_MAX_AGE))))
  }

  method ResolveCors(a: map<string, string>) returns (cors: Option<Cors>)
    ensures cors == ResolvedCors(a)
  {
    if !EqualFold(Value(a, ENABLE_CORS), "true") { return None; }
    var origins := ParseOrigins(Value(a, CORS_ORIGIN));
    if |origins| == 0 { origins := ["*"]; }
    var allowCreds := false;
    if EqualFold(Value(a, CORS_CREDENTIALS), "true") {
      if !(|origins| == 1 && origins[0] == "*") { allowCreds := true; }
    }
    var methods, headers, expose := DEFAULT_METHODS, DEFAULT_HEADERS, "";
    if Value(a, CORS_METHODS) != "" { methods := TrimSpace(Value(a, CORS_METHODS)); }
    if Value(a, CORS_HEADERS) != "" { headers := TrimSpace(Value(a, CORS_HEADERS)); }
    if Value(a, CORS_EXPOSE) != "" { expose := TrimSpace(Value(a, CORS_EXPOSE)); }
    var maxAge: nat := DEFAULT_MAX_AGE;
    if Value(a, CORS_MAX_AGE) != "" {
      var n := ParseInt64(TrimSpace(Value(a, CORS_MAX_AGE)));
      if n.Some? && n.value >= 0 { maxAge := n.value; }
    }
    return Some(Cors(origins, methods, headers, expose, allowCreds, maxAge));
  }

  method ParseOrigins(v: string) returns (origins: seq<string>)
    ensures origins == if v != "" then NonEmptyTrimmed(Split(v, ',')) else []
  {
    origins := [];
    if v == "" { return; }
    var parts := Split(v, ',');
    for i := 0 to |parts|
      invariant origins + NonEmptyTrimmed(parts[i..]) == NonEmptyTrimmed(parts)
    {
      assert parts[i..][0] == parts[i] && parts[i..][1..] == parts[i + 1..];
      var o := TrimSpace(parts[i]);
      assert o != "" ==> origins + NonEmptyTrimmed(parts[i..]) == (origins + [o]) + NonEmptyTrimmed(parts[i + 1..]);
      if o != "" { origins := origins + [o]; }
    }
  }

  predicate CleanOrigin(o: string) { o != "" && Trimmed(o) && ',' !in o }

  /** The CORS annotations as a configuration would be written down. */
  predicate Written(a: map<string, string>, cors: Cors) {
    && ToLower(Value(a, "caddy.ingress/enable-cors")) == "true"
    && cors.origins != [] && (forall o :: o in cors.origins ==> CleanOrigin(o))
    && Value(a, "caddy.ingress/cors-allow-origin") == Join(cors.origins, ',')
    && Value(a, "caddy.ingress/cors-allow-methods") == cors.allowMethods != "" && Trimmed(cors.allowMethods)
    && Value(a, "caddy.ingress/cors-allow-headers") == cors.allowHeaders != "" && Trimmed(cors.allowHeaders)
    && Value(a, "caddy.ingress/cors-expose-headers") == cors.exposeHeaders && Trimmed(cors.exposeHeaders)
    && Value(a, "caddy.ingress/cors-max-age") == Decimal(cors.maxAge) && cors.maxAge <= MAX_INT64
    && (cors.allowCreds <==> cors.origins != ["*"]
                             && ToLower(Value(a, "caddy.ingress/cors-allow-credentials")) == "true")
  }

  lemma {:induction false} CleanOriginsAreKept(os: seq<string>)
    requires forall o :: o in os ==> CleanOrigin(o)
    ensures NonEmptyTrimmed(os) == os
  {
    if os != [] {
      assert os[0] in os;
      CleanOriginsAreKept(os[1..]);
      TrimmedIsFixed(os[0]);
    }
  }

  lemma WrittenOriginsRead(os: seq<string>)
    requires os != [] && forall o :: o in os ==> CleanOrigin(o)
    ensures Origins(Join(os, ',')) == os
  {
    CleanOriginsAreKept(os);
    SplitJoin(os, ',');
    assert os[0] in os && |Join(os, ',')| >= |os[0]|;
  }

  lemma WrittenMaxAgeReads(n: nat)
    requires n <= MAX_INT64
    ensures MaxAge(Decimal(n)) == n
  {
    DecimalRoundTrip(n);
    ParseDecimal(n);
    assert Decimal(n)[0] in Decimal(n) && Decimal(n)[|Decimal(n)| - 1] in Decimal(n);
    TrimmedIsFixed(Decimal(n));
  }

  lemma WrittenTextReads(v: string, default: string)
    requires Trimmed(v) && (v != "" || default == "")
    ensures OrDefault(v, default) == v
  {
    TrimmedIsFixed(v);
  }

  /** What is written is what is resolved. */
  lemma ResolvesWhatIsWritten(a: map<string, string>, cors: Cors)
    requires Written(a, cors)
    ensures ResolvedCors(a) == Some(cors)
  {
    WrittenOriginsRead(cors.origins);
    WrittenMaxAgeReads(cors.maxAge);
    var default := DEFAULT_METHODS;
    WrittenTextReads(cors.allowMethods, default);
    default := DEFAULT_HEADERS;
    WrittenTextReads(cors.allowHeaders, default);
    WrittenTextReads(cors.exposeHeaders, "");
    EnabledByTrue(a);
  }

  lemma EnabledByTrue(a: map<string, string>)
    ensures EqualFold(Value(a, ENABLE_CORS), "true") <==> ToLower(Value(a, "caddy.ingress/enable-cors")) == "true"
    ensures EqualFold(Value(a, CORS_CREDENTIALS), "true")
       <==> ToLower(Value(a, "caddy.ingress/cors-allow-credentials")) == "true"
  {
    assert ToLower("true") == "true";
  }

  /** Without the enabling annotation there is no CORS; with it alone, the documented defaults. A list
      of no origins means any, and a max age that is no number or negative is ignored. */
  lemma DefaultCors(a: map<string, string>)
    ensures ToLower(Value(a, "caddy.ingress/enable-cors")) != "true" ==> ResolvedCors(a) == None
    ensures ToLower(Value(a, "caddy.ingress/enable-cors")) == "true" && a.Keys == {"caddy.ingress/enable-cors"} ==>
              ResolvedCors(a)
              == Some(Cors(["*"], "GET, PUT, POST, DELETE, PATCH, OPTIONS",
                           "DNT,Keep-Alive,User-Agent,X-Requested-With,If-Modified-Since,Cache-Control,Content-Type,"
                           + "Range,Authorization", "", false, 1728000))
    ensures ResolvedCors(a).Some? ==>
              var origin, age := Value(a, "caddy.ingress/cors-allow-origin"), Value(a, "caddy.ingress/cors-max-age");
              var cors, seconds := ResolvedCors(a).value, ParseInt64(TrimSpace(age));
              && (NonEmptyTrimmed(Split(origin, ',')) == [] ==> cors.origins == ["*"])
              && (age != "" && (seconds.None? || seconds.value < 0) ==> cors.maxAge == 1728000)
  {
    assert ToLower("true") == "true";
  }

  /** The header map of every CORS handler of a compiled Ingress. */
  function Emitted(cors: Cors): Headers
    requires |cors.origins| > 0
  {
    CorsHeaders(cors, |cors.origins| > 1)
  }

  lemma EveryCorsHandlerEmitsTheSame(upstream: string, ing: Ingress, sec: Security, ann: Annotations)
    requires ann.Valid() && ann.cors.Some? && !ann.IsRedirect()
    ensures CorsPreflightRoute(ann.cors.value).handle[0] == ResponseHeaders(Emitted(ann.cors.value), [])
    ensures var chain := HandlerChain(upstream, ing, sec, ann);
      var rest := CoreChain(upstream, ing, sec, ann, ing.PlainHTTP(), false, false);
      var first := ResponseHeaders(Emitted(ann.cors.value), []);
      chain == if |ann.cors.value.origins| > 1 then [OriginSplit(ann.cors.value, [first] + rest, rest)]
          else [first] + rest
  {
    Meaning.ChainIsCorsThenTail(upstream, ing, sec, ann, true, |ann.cors.value.origins| > 1);
    Meaning.ChainIsCorsThenTail(upstream, ing, sec, ann, false, false);
    assert CorsPart(ann, false, false) + Meaning.Tail(upstream, ing, sec, ann) == Meaning.Tail(upstream, ing, sec, ann);
  }

  /** For every annotation input: credentials are never allowed next to the literal origin "*",
      they are allowed whenever asked for otherwise, and Vary is sent exactly off "*". */
  lemma CredentialsNeverWithStar(a: map<string, string>)
    requires ResolvedCors(a).Some?
    ensures var h := Emitted(ResolvedCors(a).value);
      && ALLOW_ORIGIN in h
      && (ALLOW_CREDENTIALS in h <==> EqualFold(Value(a, CORS_CREDENTIALS), "true") && h[ALLOW_ORIGIN] != ["*"])
      && (VARY in h <==> h[ALLOW_ORIGIN] != ["*"])
  {
    var cors := ResolvedCors(a).value;
    CorsHeadersKeepAllowOrigin(cors, |cors.origins| > 1);
    assert ORIGIN_PLACEHOLDER[0] == '{' && ORIGIN_PLACEHOLDER != "*";
    if |cors.origins| == 1 {
      assert cors.origins == ["*"] <==> cors.origins[0] == "*";
    }
  }
}
