/** The stores of store.go behind the ownership map: the in-memory one, and the Redis one that
    keeps its entries among other keys under a prefix. Redis holds the JSON of a string list;
    anything else found under the prefix does not decode. */
module Store {
  import opened Strings
  import opened Admin

  class MemoryStore {
    var data: map<string, seq<string>>

    constructor ()
      ensures data == map[]
    {
      data := map[];
    }

    method Save(key: string, ids: seq<string>)
      modifies this
      ensures data == old(data)[key := ids]
    {
      data := data[key := ids];
    }

    method Remove(key: string)
      modifies this
      ensures data == old(data) - {key}
    {
      data := data - {key};
    }

    method LoadAll() returns (out: map<string, seq<string>>)
      ensures out == data
    {
      out := map[];
      var todo := data.Keys;
      while todo != {}
        invariant todo <= data.Keys
        invariant out.Keys == data.Keys - todo
        invariant forall k :: k in out ==> out[k] == data[k]
        decreases todo
      {
        var k :| k in todo;
        out := out[k := data[k]];
        todo := todo - {k};
      }
    }
  }

  datatype Blob = Json(ids: seq<string>) | NotJson

  /** The store keys that have an entry under the prefix. */
  ghost function StoreKeys(kv: map<string, Blob>, prefix: string): set<string> {
    set f | f in kv && prefix <= f && kv[f].Json? :: f[|prefix|..]
  }

  lemma StoreKeysMeaning(kv: map<string, Blob>, prefix: string, k: string)
    ensures k in StoreKeys(kv, prefix) <==> prefix + k in kv && kv[prefix + k].Json?
  {
    assert (prefix + k)[|prefix|..] == k;
    if k in StoreKeys(kv, prefix) {
      var f :| f in kv && prefix <= f && kv[f].Json? && f[|prefix|..] == k;
      assert f == prefix + k;
    }
  }

  /** The mapping that a Redis holds for one ingress class. */
  ghost function Entries(kv: map<string, Blob>, prefix: string): map<string, seq<string>> {
    map k | k in StoreKeys(kv, prefix) :: StoreKeysMeaning(kv, prefix, k); kv[prefix + k].ids
  }

  lemma EntriesAfterSet(kv: map<string, Blob>, prefix: string, key: string, ids: seq<string>)
    ensures Entries(kv[prefix + key := Json(ids)], prefix) == Entries(kv, prefix)[key := ids]
  {
    var kv' := kv[prefix + key := Json(ids)];
    forall k ensures k in StoreKeys(kv', prefix) <==> k == key || k in StoreKeys(kv, prefix) {
      StoreKeysMeaning(kv, prefix, k);
      StoreKeysMeaning(kv', prefix, k);
      if k != key { Distinct(prefix, k, key); }
    }
    forall k | k in StoreKeys(kv', prefix) && k != key ensures prefix + k != prefix + key { Distinct(prefix, k, key); }
  }

  lemma EntriesAfterDel(kv: map<string, Blob>, prefix: string, key: string)
    ensures Entries(kv - {prefix + key}, prefix) == Entries(kv, prefix) - {key}
  {
    var kv' := kv - {prefix + key};
    forall k ensures k in StoreKeys(kv', prefix) <==> k != key && k in StoreKeys(kv, prefix) {
      StoreKeysMeaning(kv, prefix, k);
      StoreKeysMeaning(kv', prefix, k);
      if k != key { Distinct(prefix, k, key); }
    }
    forall k | k in StoreKeys(kv', prefix) ensures Entries(kv', prefix)[k] == Entries(kv, prefix)[k] {
      StoreKeysMeaning(kv', prefix, k);
    }
  }

  lemma Distinct(prefix: string, k: string, key: string)
    requires k != key
    ensures prefix + k != prefix + key
  {
    assert (prefix + k)[|prefix|..] == k && (prefix + key)[|prefix|..] == key;
  }

  class RedisStore {
    var kv: map<string, Blob>
    const prefix: string
    const faults: nat -> Fault
    var clock: nat

    /** The key prefix is k8s_ingress:<class>: for an ingress class without glob characters. */
    constructor (ingressClass: string, kv: map<string, Blob>, faults: nat -> Fault)
      ensures this.kv == kv && this.prefix == "k8s_ingress:" + ingressClass + ":" && this.faults == faults
    {
      this.kv, this.prefix, this.faults, this.clock := kv, "k8s_ingress:" + ingressClass + ":", faults, 0;
    }

    ghost function Contents(): map<string, seq<string>> reads this { Entries(kv, prefix) }

    /** Keys outside the prefix belong to others. */
    ghost function Others(): map<string, Blob> reads this { map f | f in kv && !(prefix <= f) :: kv[f] }

    ghost predicate FaultFree() reads this { forall n :: clock <= n ==> faults(n) == Served }

    method Save(key: string, ids: seq<string>) returns (err: bool)
      modifies this
      ensures clock == old(clock) + 1 && (err <==> faults(old(clock)) != Served)
      ensures Contents() == old(Contents())[key := ids] || (err && Contents() == old(Contents()))
      ensures Others() == old(Others())
      ensures old(FaultFree()) ==> !err && FaultFree()
    {
      var fault := faults(clock);
      clock := clock + 1;
      err := fault != Served;
      if fault != LostRequest {
        EntriesAfterSet(kv, prefix, key, ids);
        kv := kv[prefix + key := Json(ids)];
      }
    }

    method Remove(key: string) returns (err: bool)
      modifies this
      ensures clock == old(clock) + 1 && (err <==> faults(old(clock)) != Served)
      ensures Contents() == old(Contents()) - {key} || (err && Contents() == old(Contents()))
      ensures Others() == old(Others())
      ensures old(FaultFree()) ==> !err && FaultFree()
    {
      var fault := faults(clock);
      clock := clock + 1;
      err := fault != Served;
      if fault != LostRequest {
        EntriesAfterDel(kv, prefix, key);
        kv := kv - {prefix + key};
      }
    }

    /** loadAll: KEYS prefix*, then one GET each; an entry whose GET fails or whose value does
        not decode is left out. at gives the number of the call that asked for each key. */
    method LoadAll() returns (err: bool, out: map<string, seq<string>>, ghost at: map<string, nat>)
      modifies `clock
      ensures out.Keys <= Contents().Keys && forall k :: k in out ==> out[k] == Contents()[k]
      ensures err <==> faults(old(clock)) != Served
      ensures err ==> out == map[]
      ensures !err ==> forall k :: k in Contents() ==>
                k in at && old(clock) < at[k] < clock && (k in out <==> faults(at[k]) == Served)
      ensures forall j, k :: j in at && k in at && at[j] == at[k] ==> j == k
      ensures old(FaultFree()) ==> !err && out == Contents() && FaultFree()
    {
      err, out, at := faults(clock) != Served, map[], map[];
      clock := clock + 1;
      if !err {
        forall k | k in Contents() ensures prefix + k in kv { StoreKeysMeaning(kv, prefix, k); }
        out, at := GetEach(set f | f in kv && prefix <= f);
        LoadedAll(kv, prefix, faults, old(clock), clock, out, at);
      }
    }

    /** The loop over the keys found, in any order. */
    method GetEach(keys: set<string>) returns (out: map<string, seq<string>>, ghost at: map<string, nat>)
      requires clock > 0 && Loading(kv, prefix, faults, clock - 1, clock, keys, map[], map[])
      modifies `clock
      ensures old(clock) <= clock && Loading(kv, prefix, faults, old(clock) - 1, clock, {}, out, at)
    {
      out, at := map[], map[];
      ghost var start := clock - 1;
      var todo := keys;
      while todo != {}
        invariant start < clock && Loading(kv, prefix, faults, start, clock, todo, out, at)
        decreases todo
      {
        var f :| f in todo;
        var k := f[|prefix|..];
        assert f == prefix + k;
        LoadingNext(kv, prefix, faults, start, clock, todo, out, at, k);
        var fault := faults(clock);
        todo, at, clock := todo - {f}, at[k := clock], clock + 1;
        if fault == Served && kv[f].Json? { out := out[k := kv[f].ids]; }
      }
    }
  }

  /** After some GETs: the keys asked for, by which call, and the entries found. */
  ghost predicate Loading(kv: map<string, Blob>, prefix: string, faults: nat -> Fault, start: nat, clock: nat,
                          todo: set<string>, out: map<string, seq<string>>, at: map<string, nat>)
  {
    && (forall f :: f in todo ==> f in kv && prefix <= f)
    && (forall k :: k in Entries(kv, prefix) ==> k in at || prefix + k in todo)
    && (forall k :: k in at ==> start < at[k] < clock && prefix + k !in todo)
    && (forall j, k :: j in at && k in at && at[j] == at[k] ==> j == k)
    && out.Keys <= at.Keys
    && (forall k :: k in at ==> (k in out <==> k in Entries(kv, prefix) && faults(at[k]) == Served))
    && (forall k :: k in out ==> k in Entries(kv, prefix) && out[k] == Entries(kv, prefix)[k])
  }

  lemma LoadedAll(kv: map<string, Blob>, prefix: string, faults: nat -> Fault, start: nat, clock: nat,
                  out: map<string, seq<string>>, at: map<string, nat>)
    requires Loading(kv, prefix, faults, start, clock, {}, out, at)
    ensures forall k :: k in Entries(kv, prefix) ==> k in at && (k in out <==> faults(at[k]) == Served)
    ensures (forall n :: start <= n ==> faults(n) == Served) ==> out == Entries(kv, prefix)
  {}

  lemma LoadingNext(kv: map<string, Blob>, prefix: string, faults: nat -> Fault, start: nat, clock: nat,
                    todo: set<string>, out: map<string, seq<string>>, at: map<string, nat>, k: string)
    requires start < clock && Loading(kv, prefix, faults, start, clock, todo, out, at) && prefix + k in todo
    ensures Loading(kv, prefix, faults, start, clock + 1, todo - {prefix + k},
                    if faults(clock) == Served && kv[prefix + k].Json? then out[k := kv[prefix + k].ids] else out,
                    at[k := clock])
  {
    StoreKeysMeaning(kv, prefix, k);
    forall j | j != k ensures prefix + j != prefix + k { Distinct(prefix, j, k); }
  }

  datatype Op = SaveOp(key: string, ids: seq<string>) | RemoveOp(key: string)

  /** While no Redis call fails, both stores load the same mapping after the same operations, and
      the Redis keys of others are left alone. */
  method BothStoresAgree(redis: RedisStore, memory: MemoryStore, ops: seq<Op>)
    returns (fromRedis: map<string, seq<string>>, fromMemory: map<string, seq<string>>)
    requires redis.FaultFree() && redis.Contents() == memory.data
    modifies redis, memory
    ensures fromRedis == fromMemory == memory.data
    ensures redis.Others() == old(redis.Others())
  {
    for i := 0 to |ops|
      invariant redis.FaultFree() && redis.Contents() == memory.data
      invariant redis.Others() == old(redis.Others())
    {
      match ops[i] {
        case SaveOp(key, ids) =>
          var _ := redis.Save(key, ids);
          memory.Save(key, ids);
        case RemoveOp(key) =>
          var _ := redis.Remove(key);
          memory.Remove(key);
      }
    }
    var err;
    ghost var at;
    err, fromRedis, at := redis.LoadAll();
    fromMemory := memory.LoadAll();
  }
}
