/**
  Piredis: a thin client that namespaces every key it is given as
  `prefix:k` and forwards the command to the store.
 */
module Prefixed {
  import opened Results
  import opened Redis

  class Piredis {
    const store: Store
    const prefix: string

    /** `Piredis.__init__` once the connection exists. */
    constructor (store: Store, prefix: string)
      ensures this.store == store && this.prefix == prefix
    {
      this.store := store;
      this.prefix := prefix;
    }

    /** `mk_key(k)`: the prefix, a ':', then `k` unchanged. */
    function MkKey(k: string): (r: string)
      ensures |r| == |prefix| + 1 + |k|
      ensures r[..|prefix|] == prefix && r[|prefix|] == ':' && r[|prefix| + 1..] == k
    {
      prefix + ":" + k
    }

    method Set(k: string, v: string) returns (ok: bool)
      modifies store
      ensures store.data == old(store.data)[MkKey(k) := Text(v)]
      ensures ok
    {
      ok := store.Set(MkKey(k), v);
    }

    method Get(k: string) returns (r: Result<Option<string>>)
      ensures r == KeyGet(store.data, MkKey(k))
    {
      r := store.Get(MkKey(k));
    }

    method RPush(list: string, v: string) returns (r: Result<nat>)
      modifies store
      ensures (store.data, r) == RightPush(old(store.data), MkKey(list), v)
    {
      r := store.RPush(MkKey(list), v);
    }

    method LPush(list: string, v: string) returns (r: Result<nat>)
      modifies store
      ensures (store.data, r) == LeftPush(old(store.data), MkKey(list), v)
    {
      r := store.LPush(MkKey(list), v);
    }

    method LIndex(list: string, i: int) returns (r: Result<Option<string>>)
      ensures r == ListIndex(store.data, MkKey(list), i)
    {
      r := store.LIndex(MkKey(list), i);
    }

    method LRange(list: string, start: int, stop: int) returns (r: Result<seq<string>>)
      ensures r == ListRange(store.data, MkKey(list), start, stop)
    {
      r := store.LRange(MkKey(list), start, stop);
    }

    method HGet(hash: string, field: string) returns (r: Result<Option<string>>)
      ensures r == HashGet(store.data, MkKey(hash), field)
    {
      r := store.HGet(MkKey(hash), field);
    }

    method HSet(hash: string, field: string, v: string) returns (r: Result<nat>)
      modifies store
      ensures (store.data, r) == HashSet(old(store.data), MkKey(hash), field, v)
    {
      r := store.HSet(MkKey(hash), field, v);
    }
  }

  /** For one prefix, distinct keys address distinct store keys. */
  lemma MkKeyInjective(p: Piredis, k1: string, k2: string)
    requires k1 != k2
    ensures p.MkKey(k1) != p.MkKey(k2)
  {
    assert p.MkKey(k1)[|p.prefix| + 1..] == k1;
  }

  /**
    A write by any of the client's writers (set, rpush, lpush, hset) under one
    key leaves the entry under every other key of the same client as it was,
    so every read there (get, lindex, lrange, hget) is unchanged.
   */
  lemma WritesStayUnderTheirKey(p: Piredis, data: Data, k1: string, k2: string, field: string, v: string,
                                field': string, i: int, start: int, stop: int)
    requires k1 != k2
    ensures SameEntry(data[p.MkKey(k1) := Text(v)], data, p.MkKey(k2))
    ensures SameEntry(RightPush(data, p.MkKey(k1), v).0, data, p.MkKey(k2))
    ensures SameEntry(LeftPush(data, p.MkKey(k1), v).0, data, p.MkKey(k2))
    ensures SameEntry(HashSet(data, p.MkKey(k1), field, v).0, data, p.MkKey(k2))
    ensures KeyGet(data[p.MkKey(k1) := Text(v)], p.MkKey(k2)) == KeyGet(data, p.MkKey(k2))
    ensures ListRange(RightPush(data, p.MkKey(k1), v).0, p.MkKey(k2), start, stop) == ListRange(data, p.MkKey(k2), start, stop)
    ensures ListIndex(LeftPush(data, p.MkKey(k1), v).0, p.MkKey(k2), i) == ListIndex(data, p.MkKey(k2), i)
    ensures HashGet(HashSet(data, p.MkKey(k1), field, v).0, p.MkKey(k2), field') == HashGet(data, p.MkKey(k2), field')
  {
    MkKeyInjective(p, k1, k2);
  }
}
