/** The routes live in Caddy, as values: one list in which a server's routes are the entries
    that name it, in order. At most one entry carries a given non-empty @id. */
module LiveConfig {
  import opened Strings
  import opened Routes

  datatype Live = Live(server: string, route: CaddyRoute)

  predicate HasId(c: seq<Live>, id: string) {
    exists i | 0 <= i < |c| :: c[i].route.id == id
  }

  predicate UniqueIds(c: seq<Live>) {
    forall i, j | 0 <= i < j < |c| :: c[i].route.id == c[j].route.id ==> c[i].route.id == ""
  }

  /** The first entry with the id. */
  function Lookup(c: seq<Live>, id: string): (r: Option<Live>)
    ensures r.Some? <==> HasId(c, id)
    ensures r.Some? ==> r.value in c && r.value.route.id == id
  {
    if c == [] then None
    else if c[0].route.id == id then Some(c[0])
    else
      assert HasId(c[1..], id) ==> HasId(c, id);
      Lookup(c[1..], id)
  }

  /** The routes of one server, in order. */
  function ServerRoutes(c: seq<Live>, server: string): seq<CaddyRoute> {
    if c == [] then []
    else (if c[0].server == server then [c[0].route] else []) + ServerRoutes(c[1..], server)
  }

  /** Everything but the entries with these ids, order kept. */
  ghost function Except(c: seq<Live>, ids: iset<string>): seq<Live> {
    if c == [] then []
    else (if c[0].route.id in ids then [] else [c[0]]) + Except(c[1..], ids)
  }

  /** DELETE /id/<id>. */
  function Removed(c: seq<Live>, id: string): (r: seq<Live>)
    ensures r == Except(c, iset{id})
  {
    if c == [] then []
    else (if c[0].route.id == id then [] else [c[0]]) + Removed(c[1..], id)
  }

  predicate UpToDate(c: seq<Live>, r: CaddyRoute) {
    Lookup(c, r.id).Some? && Lookup(c, r.id).value.route == r
  }

  /** What a fault-free upsertRoute leaves: an up-to-date route stays where it is, any other
      is removed and appended. */
  function Upserted(c: seq<Live>, server: string, r: CaddyRoute): seq<Live> {
    if UpToDate(c, r) then c else Removed(c, r.id) + [Live(server, r)]
  }

  function UpsertAll(c: seq<Live>, server: string, rs: seq<CaddyRoute>): seq<Live>
    decreases rs
  {
    if rs == [] then c else UpsertAll(Upserted(c, server, rs[0]), server, rs[1..])
  }

  function Ids(rs: seq<CaddyRoute>): (ids: seq<string>)
    ensures |ids| == |rs| && forall i | 0 <= i < |rs| :: ids[i] == rs[i].id
  {
    seq(|rs|, i requires 0 <= i < |rs| => rs[i].id)
  }

  /** Routes sharing an id are the same route. */
  predicate Coherent(rs: seq<CaddyRoute>) {
    forall i, j | 0 <= i < j < |rs| :: rs[i].id == rs[j].id ==> rs[i] == rs[j]
  }

  lemma HasIdCons(c: seq<Live>, id: string)
    requires c != []
    ensures HasId(c, id) <==> c[0].route.id == id || HasId(c[1..], id)
  {
    var tail := c[1..];
    assert forall i | 0 <= i < |tail| :: tail[i] == c[i + 1];
    assert forall i | 0 < i < |c| :: c[i] == tail[i - 1];
  }

  // ---------- removal ----------

  lemma {:induction false} ExceptAppend(a: seq<Live>, b: seq<Live>, ids: iset<string>)
    ensures Except(a + b, ids) == Except(a, ids) + Except(b, ids)
  {
    if a == [] {
      assert a + b == b;
    } else {
      assert (a + b)[1..] == a[1..] + b;
      ExceptAppend(a[1..], b, ids);
    }
  }

  lemma {:induction false} ExceptTwice(c: seq<Live>, a: iset<string>, b: iset<string>)
    ensures Except(Except(c, a), b) == Except(c, a + b)
  {
    if c != [] {
      ExceptTwice(c[1..], a, b);
      ExceptAppend(if c[0].route.id in a then [] else [c[0]], Except(c[1..], a), b);
    }
  }

  /** Agreement outside some ids is agreement outside more ids. */
  lemma AgreeOutsideMore(c: seq<Live>, d: seq<Live>, ids: iset<string>, more: iset<string>)
    requires Except(c, ids) == Except(d, ids) && ids <= more
    ensures Except(c, more) == Except(d, more)
  {
    ExceptTwice(c, ids, more);
    ExceptTwice(d, ids, more);
    assert ids + more == more;
  }

  lemma {:induction false} ExceptNothing(c: seq<Live>, ids: iset<string>)
    requires forall id :: id in ids ==> !HasId(c, id)
    ensures Except(c, ids) == c
  {
    if c != [] {
      forall id | id in ids ensures !HasId(c[1..], id) && c[0].route.id != id { HasIdCons(c, id); }
      ExceptNothing(c[1..], ids);
    }
  }

  lemma {:induction false} LookupExcept(c: seq<Live>, ids: iset<string>, id: string)
    ensures Lookup(Except(c, ids), id) == if id in ids then None else Lookup(c, id)
  {
    if c != [] {
      LookupExcept(c[1..], ids, id);
      LookupAppend(if c[0].route.id in ids then [] else [c[0]], Except(c[1..], ids), id);
    }
  }

  lemma {:induction false} LookupAppend(a: seq<Live>, b: seq<Live>, id: string)
    ensures Lookup(a + b, id) == if Lookup(a, id).Some? then Lookup(a, id) else Lookup(b, id)
  {
    if a == [] {
      assert a + b == b;
    } else {
      assert (a + b)[1..] == a[1..] + b;
      LookupAppend(a[1..], b, id);
    }
  }

  lemma {:induction false} MemberExcept(c: seq<Live>, ids: iset<string>, e: Live)
    ensures e in Except(c, ids) <==> e in c && e.route.id !in ids
  {
    if c != [] { MemberExcept(c[1..], ids, e); }
  }

  /** A route outside the touched ids is looked up alike. */
  lemma SameOutside(c: seq<Live>, d: seq<Live>, ids: iset<string>, id: string)
    requires Except(c, ids) == Except(d, ids) && id !in ids
    ensures Lookup(c, id) == Lookup(d, id)
  {
    LookupExcept(c, ids, id);
    LookupExcept(d, ids, id);
  }

  // ---------- uniqueness ----------

  lemma UniqueTail(c: seq<Live>)
    requires UniqueIds(c) && c != []
    ensures UniqueIds(c[1..])
    ensures c[0].route.id != "" ==> !HasId(c[1..], c[0].route.id)
  {
    var tail := c[1..];
    assert forall i | 0 <= i < |tail| :: tail[i] == c[i + 1];
  }

  lemma UniqueCons(e: Live, c: seq<Live>)
    requires UniqueIds(c) && (e.route.id == "" || !HasId(c, e.route.id))
    ensures UniqueIds([e] + c)
  {
    assert forall i | 0 < i < |[e] + c| :: ([e] + c)[i] == c[i - 1];
    assert forall i | 0 <= i < |c| :: c[i].route.id == e.route.id ==> HasId(c, e.route.id);
  }

  lemma {:induction false} UniqueExcept(c: seq<Live>, ids: iset<string>)
    requires UniqueIds(c)
    ensures UniqueIds(Except(c, ids))
  {
    if c != [] {
      UniqueTail(c);
      UniqueExcept(c[1..], ids);
      LookupExcept(c[1..], ids, c[0].route.id);
      if c[0].route.id !in ids { UniqueCons(c[0], Except(c[1..], ids)); }
    }
  }

  lemma UniqueAppend(c: seq<Live>, e: Live)
    requires UniqueIds(c) && !HasId(c, e.route.id)
    ensures UniqueIds(c + [e])
  {
    assert forall i | 0 <= i < |c| :: (c + [e])[i] == c[i];
    assert forall i | 0 <= i < |c| :: c[i].route.id != e.route.id;
  }

  /** Under unique ids membership is lookup. */
  lemma {:induction false} MemberIsLookup(c: seq<Live>, e: Live)
    requires UniqueIds(c) && e in c && e.route.id != ""
    ensures Lookup(c, e.route.id) == Some(e)
  {
    if c[0] != e {
      assert e in c[1..];
      UniqueTail(c);
      MemberIsLookup(c[1..], e);
    }
  }

  /** Exactly one live entry carries the route's id, and it carries the route. */
  predicate OnlyLive(c: seq<Live>, r: CaddyRoute) {
    exists i | 0 <= i < |c| :: c[i].route == r && forall j | 0 <= j < |c| && c[j].route.id == r.id :: j == i
  }

  lemma UpToDateIsTheOnlyOne(c: seq<Live>, r: CaddyRoute)
    requires UniqueIds(c) && r.id != "" && UpToDate(c, r)
    ensures OnlyLive(c, r)
  {
    var i :| 0 <= i < |c| && c[i] == Lookup(c, r.id).value;
    assert c[i].route == r && forall j | 0 <= j < |c| && c[j].route.id == r.id :: j == i;
  }

  // ---------- upserts ----------

  lemma UpsertedProperties(c: seq<Live>, server: string, r: CaddyRoute)
    requires UniqueIds(c)
    ensures UniqueIds(Upserted(c, server, r))
    ensures Except(Upserted(c, server, r), iset{r.id}) == Except(c, iset{r.id})
    ensures UpToDate(Upserted(c, server, r), r)
    ensures forall id :: id != r.id ==> Lookup(Upserted(c, server, r), id) == Lookup(c, id)
  {
    var d := Upserted(c, server, r);
    LookupExcept(c, iset{r.id}, r.id);
    if !UpToDate(c, r) {
      UniqueExcept(c, iset{r.id});
      UniqueAppend(Removed(c, r.id), Live(server, r));
      LookupAppend(Removed(c, r.id), [Live(server, r)], r.id);
      ExceptAppend(Removed(c, r.id), [Live(server, r)], iset{r.id});
      ExceptTwice(c, iset{r.id}, iset{r.id});
      assert iset{r.id} + iset{r.id} == iset{r.id};
    }
    forall id | id != r.id ensures Lookup(d, id) == Lookup(c, id) { SameOutside(d, c, iset{r.id}, id); }
  }

  ghost function IdSet(rs: seq<CaddyRoute>): iset<string> { iset r | r in rs :: r.id }

  lemma {:induction false} UpsertAllProperties(c: seq<Live>, server: string, rs: seq<CaddyRoute>)
    requires UniqueIds(c)
    ensures UniqueIds(UpsertAll(c, server, rs))
    ensures Except(UpsertAll(c, server, rs), IdSet(rs)) == Except(c, IdSet(rs))
    decreases rs
  {
    if rs != [] {
      var c1 := Upserted(c, server, rs[0]);
      UpsertedProperties(c, server, rs[0]);
      UpsertAllProperties(c1, server, rs[1..]);
      AgreeOutsideMore(UpsertAll(c, server, rs), c1, IdSet(rs[1..]), IdSet(rs));
      assert rs[0] in rs;
      AgreeOutsideMore(c1, c, iset{rs[0].id}, IdSet(rs));
    }
  }

  /** After upserting a coherent list every route of it is up to date. */
  lemma {:induction false} UpsertAllEstablishes(c: seq<Live>, server: string, rs: seq<CaddyRoute>)
    requires UniqueIds(c) && Coherent(rs)
    ensures forall r :: r in rs ==> UpToDate(UpsertAll(c, server, rs), r)
    decreases rs
  {
    if rs != [] {
      var c1, rest := Upserted(c, server, rs[0]), rs[1..];
      UpsertedProperties(c, server, rs[0]);
      assert Coherent(rest);
      UpsertAllEstablishes(c1, server, rest);
      UpsertAllProperties(c1, server, rest);
      if rs[0].id in IdSet(rest) {
        var r :| r in rest && r.id == rs[0].id;
        var j :| 0 <= j < |rest| && rest[j] == r;
        assert rs[j + 1] == r;
      } else {
        SameOutside(UpsertAll(c1, server, rest), c1, IdSet(rest), rs[0].id);
      }
    }
  }

  /** How many routes of the list an upsert pass has to write. */
  function Writes(c: seq<Live>, server: string, rs: seq<CaddyRoute>): nat
    decreases rs
  {
    if rs == [] then 0
    else (if UpToDate(c, rs[0]) then 0 else 1) + Writes(Upserted(c, server, rs[0]), server, rs[1..])
  }

  lemma {:induction false} NoWritesIffUpToDate(c: seq<Live>, server: string, rs: seq<CaddyRoute>)
    ensures Writes(c, server, rs) == 0 <==> forall r :: r in rs ==> UpToDate(c, r)
    ensures Writes(c, server, rs) == 0 ==> UpsertAll(c, server, rs) == c
    decreases rs
  {
    if rs != [] {
      NoWritesIffUpToDate(Upserted(c, server, rs[0]), server, rs[1..]);
      assert rs[0] in rs;
      assert forall r :: r in rs <==> r == rs[0] || r in rs[1..];
    }
  }

  /** A second pass over the same routes writes nothing exactly when no two routes of the list
      share an id with different content. */
  lemma ResyncWritesNothingIffCoherent(c: seq<Live>, server: string, rs: seq<CaddyRoute>)
    requires UniqueIds(c)
    ensures Writes(UpsertAll(c, server, rs), server, rs) == 0 <==> Coherent(rs)
  {
    var d := UpsertAll(c, server, rs);
    NoWritesIffUpToDate(d, server, rs);
    if Coherent(rs) {
      UpsertAllEstablishes(c, server, rs);
    } else {
      var i, j :| 0 <= i < j < |rs| && rs[i].id == rs[j].id && rs[i] != rs[j];
      assert rs[i] in rs && rs[j] in rs;
      assert !(UpToDate(d, rs[i]) && UpToDate(d, rs[j]));
    }
  }
}
