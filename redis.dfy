/**
  The Redis server the object layer talks to, reduced to the commands it
  uses. A key holds a hash, a list or a plain string; a command on a key of
  the other kind fails with WRONGTYPE; a failing command changes nothing; a
  list that becomes empty is removed from the keyspace.
 */
module Redis {
  import opened Results

  datatype Entry =
    | Hash(fields: map<string, string>)
    | List(items: seq<string>)
    | Text(s: string)

  type Data = map<string, Entry>

  /** The hash under `key`; a missing key reads as the empty hash. */
  function HashAt(data: Data, key: string): Result<map<string, string>>
  {
    if key !in data then Ok(map[])
    else match data[key]
      case Hash(h) => Ok(h)
      case _ => Err(WrongType)
  }

  /** The list under `key`; a missing key reads as the empty list. */
  function ListAt(data: Data, key: string): Result<seq<string>>
  {
    if key !in data then Ok([])
    else match data[key]
      case List(xs) => Ok(xs)
      case _ => Err(WrongType)
  }

  /** Redis never keeps an empty list: a list key that is present has elements. */
  predicate NoEmptyLists(data: Data)
  {
    forall k :: k in data && data[k].List? ==> data[k].items != []
  }

  /** Stores a list; an empty list is not kept. */
  function PutList(data: Data, key: string, xs: seq<string>): (d: Data)
    ensures ListAt(d, key) == Ok(xs)
    ensures NoEmptyLists(data) ==> NoEmptyLists(d)
    ensures forall k :: k != key ==> (k in d <==> k in data) && (k in d ==> d[k] == data[k])
  {
    if xs == [] then data - {key} else data[key := List(xs)]
  }

  /** Whether list index `i` (negative counts from the end) addresses an element. */
  predicate InRange(len: nat, i: int)
  {
    -(len as int) <= i < len
  }

  function Normalise(len: nat, i: int): int
  {
    if i < 0 then len + i else i
  }

  /** HGET key field. */
  function HashGet(data: Data, key: string, field: string): Result<Option<string>>
  {
    match HashAt(data, key)
    case Err(e) => Err(e)
    case Ok(h) => Ok(if field in h then Some(h[field]) else None)
  }

  /** HSET key field value; replies the number of fields added. */
  function HashSet(data: Data, key: string, field: string, v: string): (res: (Data, Result<nat>))
    ensures res.1.Err? ==> res.0 == data
    ensures NoEmptyLists(data) ==> NoEmptyLists(res.0)
    ensures res.1.Ok? <==> HashAt(data, key).Ok?
  {
    match HashAt(data, key)
    case Err(e) => (data, Err(e))
    case Ok(h) => (data[key := Hash(h[field := v])], Ok(if field in h then 0 else 1))
  }

  /** LINDEX key i: nil outside the list. */
  function ListIndex(data: Data, key: string, i: int): Result<Option<string>>
  {
    match ListAt(data, key)
    case Err(e) => Err(e)
    case Ok(xs) => Ok(if InRange(|xs|, i) then Some(xs[Normalise(|xs|, i)]) else None)
  }

  /** LSET key i v: fails on a missing key and outside the list. */
  function ListSet(data: Data, key: string, i: int, v: string): (res: (Data, Result<()>))
    ensures res.1.Err? ==> res.0 == data
    ensures NoEmptyLists(data) ==> NoEmptyLists(res.0)
    ensures res.1.Ok? <==> key in data && data[key].List? && InRange(|data[key].items|, i)
  {
    match ListAt(data, key)
    case Err(e) => (data, Err(e))
    case Ok(xs) =>
      if key !in data then (data, Err(NoSuchKey))
      else if !InRange(|xs|, i) then (data, Err(OutOfRange))
      else (data[key := List(xs[Normalise(|xs|, i) := v])], Ok(()))
  }

  /** LLEN key: 0 for a missing key. */
  function ListLen(data: Data, key: string): Result<nat>
  {
    match ListAt(data, key)
    case Err(e) => Err(e)
    case Ok(xs) => Ok(|xs|)
  }

  /** The list with the first occurrence of `v`, counting from the head, taken out. */
  function RemoveFirst(xs: seq<string>, v: string): (r: seq<string>)
    ensures v in xs ==> |r| == |xs| - 1
    ensures v !in xs ==> r == xs
  {
    if xs == [] then []
    else if xs[0] == v then xs[1..]
    else [xs[0]] + RemoveFirst(xs[1..], v)
  }

  /** LREM key 1 v; replies the number of elements removed. */
  function ListRemove(data: Data, key: string, v: string): (res: (Data, Result<nat>))
    ensures res.1.Err? ==> res.0 == data
    ensures NoEmptyLists(data) ==> NoEmptyLists(res.0)
    ensures res.1.Ok? <==> ListAt(data, key).Ok?
    ensures res.1.Ok? ==> res.1.value <= 1 && ListAt(res.0, key).Ok?
    ensures res.1.Ok? ==> |ListAt(res.0, key).value| + res.1.value == |ListAt(data, key).value|
  {
    match ListAt(data, key)
    case Err(e) => (data, Err(e))
    case Ok(xs) =>
      var ys := RemoveFirst(xs, v);
      (PutList(data, key, ys), Ok(|xs| - |ys|))
  }

  /** RPUSH key v; replies the new length. */
  function RightPush(data: Data, key: string, v: string): (res: (Data, Result<nat>))
    ensures res.1.Err? ==> res.0 == data
    ensures NoEmptyLists(data) ==> NoEmptyLists(res.0)
    ensures res.1.Ok? <==> ListAt(data, key).Ok?
    ensures res.1.Ok? ==> ListLen(res.0, key) == res.1 && res.1.value == |ListAt(data, key).value| + 1
  {
    match ListAt(data, key)
    case Err(e) => (data, Err(e))
    case Ok(xs) => (data[key := List(xs + [v])], Ok(|xs| + 1))
  }

  /** LPUSH key v; replies the new length. */
  function LeftPush(data: Data, key: string, v: string): (res: (Data, Result<nat>))
    ensures res.1.Err? ==> res.0 == data
    ensures NoEmptyLists(data) ==> NoEmptyLists(res.0)
    ensures res.1.Ok? <==> ListAt(data, key).Ok?
    ensures res.1.Ok? ==> ListLen(res.0, key) == res.1 && res.1.value == |ListAt(data, key).value| + 1
  {
    match ListAt(data, key)
    case Err(e) => (data, Err(e))
    case Ok(xs) => (data[key := List([v] + xs)], Ok(|xs| + 1))
  }

  /** RPOP key: nil on an empty list. */
  function RightPop(data: Data, key: string): (res: (Data, Result<Option<string>>))
    ensures res.1.Err? ==> res.0 == data
    ensures NoEmptyLists(data) ==> NoEmptyLists(res.0)
    ensures res.1.Ok? <==> ListAt(data, key).Ok?
    ensures res.1 == Ok(None) <==> ListAt(data, key) == Ok([])
    ensures res.1.Ok? && res.1.value.Some? ==> ListLen(res.0, key) == Ok(|ListAt(data, key).value| - 1)
  {
    match ListAt(data, key)
    case Err(e) => (data, Err(e))
    case Ok(xs) =>
      if xs == [] then (data, Ok(None))
      else (PutList(data, key, xs[..|xs| - 1]), Ok(Some(xs[|xs| - 1])))
  }

  /** LPOP key: nil on an empty list. */
  function LeftPop(data: Data, key: string): (res: (Data, Result<Option<string>>))
    ensures res.1.Err? ==> res.0 == data
    ensures NoEmptyLists(data) ==> NoEmptyLists(res.0)
    ensures res.1.Ok? <==> ListAt(data, key).Ok?
    ensures res.1 == Ok(None) <==> ListAt(data, key) == Ok([])
    ensures res.1.Ok? && res.1.value.Some? ==> ListLen(res.0, key) == Ok(|ListAt(data, key).value| - 1)
  {
    match ListAt(data, key)
    case Err(e) => (data, Err(e))
    case Ok(xs) =>
      if xs == [] then (data, Ok(None))
      else (PutList(data, key, xs[1..]), Ok(Some(xs[0])))
  }

  /** The elements LRANGE returns for `start`..`stop`, both inclusive, negatives from the end. */
  function Range(xs: seq<string>, start: int, stop: int): (r: seq<string>)
    ensures start == 0 && stop == -1 ==> r == xs
    ensures |r| <= |xs|
  {
    var n := |xs|;
    var s := if start < 0 then n + start else start;
    var e := if stop < 0 then n + stop else stop;
    var s' := if s < 0 then 0 else s;
    var e' := if e >= n then n - 1 else e;
    if s' > e' || s' >= n then [] else xs[s'..e' + 1]
  }

  /** LRANGE key start stop. */
  function ListRange(data: Data, key: string, start: int, stop: int): Result<seq<string>>
  {
    match ListAt(data, key)
    case Err(e) => Err(e)
    case Ok(xs) => Ok(Range(xs, start, stop))
  }

  /** Whether `key` holds the same entry, or is absent, in both stores. */
  predicate SameEntry(d1: Data, d2: Data, key: string)
  {
    (key in d1 <==> key in d2) && (key in d1 ==> d1[key] == d2[key])
  }

  /** GET key. */
  function KeyGet(data: Data, key: string): Result<Option<string>>
  {
    if key !in data then Ok(None)
    else match data[key]
      case Text(s) => Ok(Some(s))
      case _ => Err(WrongType)
  }

  /** RPUSH followed by RPOP gives back the pushed value and the keyspace as it was. */
  lemma RightPushPop(data: Data, key: string, v: string)
    requires NoEmptyLists(data) && ListAt(data, key).Ok?
    ensures RightPush(data, key, v).1.Ok?
    ensures RightPop(RightPush(data, key, v).0, key) == (data, Ok(Some(v)))
  {
    var xs := ListAt(data, key).value;
    var pushed := RightPush(data, key, v).0;
    assert ListAt(pushed, key) == Ok(xs + [v]);
    assert (xs + [v])[..|xs|] == xs;
    if xs == [] {
      assert key !in data;
      assert PutList(pushed, key, []) == data;
    } else {
      assert PutList(pushed, key, xs) == data;
    }
  }

  /** LPUSH followed by LPOP gives back the pushed value and the keyspace as it was. */
  lemma LeftPushPop(data: Data, key: string, v: string)
    requires NoEmptyLists(data) && ListAt(data, key).Ok?
    ensures LeftPush(data, key, v).1.Ok?
    ensures LeftPop(LeftPush(data, key, v).0, key) == (data, Ok(Some(v)))
  {
    var xs := ListAt(data, key).value;
    var pushed := LeftPush(data, key, v).0;
    assert ListAt(pushed, key) == Ok([v] + xs);
    assert ([v] + xs)[1..] == xs;
    if xs == [] {
      assert key !in data;
      assert PutList(pushed, key, []) == data;
    } else {
      assert PutList(pushed, key, xs) == data;
    }
  }

  /** RPUSH followed by LINDEX -1 reads the pushed value. */
  lemma RightPushThenLastIndex(data: Data, key: string, v: string)
    requires RightPush(data, key, v).1.Ok?
    ensures ListIndex(RightPush(data, key, v).0, key, -1) == Ok(Some(v))
  {
  }

  /** HSET followed by HGET on the same field reads the stored value. */
  lemma HashSetThenGet(data: Data, key: string, field: string, v: string)
    requires HashSet(data, key, field, v).1.Ok?
    ensures HashGet(HashSet(data, key, field, v).0, key, field) == Ok(Some(v))
  {
  }

  /** LSET followed by LINDEX at the same index reads the stored value. */
  lemma ListSetThenIndex(data: Data, key: string, i: int, v: string)
    requires ListSet(data, key, i, v).1.Ok?
    ensures ListIndex(ListSet(data, key, i, v).0, key, i) == Ok(Some(v))
  {
  }

  /** GET after SET of the same key returns the string stored, whatever the key held before. */
  lemma SetThenGet(data: Data, key: string, v: string)
    ensures KeyGet(data[key := Text(v)], key) == Ok(Some(v))
  {
  }

  /** Every read of a key depends on that key's entry alone. */
  lemma SameEntryReadsAlike(d1: Data, d2: Data, key: string, field: string, i: int, start: int, stop: int)
    requires SameEntry(d1, d2, key)
    ensures KeyGet(d1, key) == KeyGet(d2, key)
    ensures HashGet(d1, key, field) == HashGet(d2, key, field)
    ensures ListIndex(d1, key, i) == ListIndex(d2, key, i)
    ensures ListRange(d1, key, start, stop) == ListRange(d2, key, start, stop)
  {
  }

  /** LREM key 1 v removes exactly the first occurrence of `v`. */
  lemma {:induction false} RemoveFirstAt(xs: seq<string>, v: string, p: nat)
    requires p < |xs| && xs[p] == v
    requires forall q :: 0 <= q < p ==> xs[q] != v
    ensures RemoveFirst(xs, v) == xs[..p] + xs[p + 1..]
  {
    if p > 0 {
      RemoveFirstAt(xs[1..], v, p - 1);
      assert xs[1..][..p - 1] == xs[1..p];
      assert xs[1..][p..] == xs[p + 1..];
      assert [xs[0]] + xs[1..p] == xs[..p];
    }
  }

  /** The store: the whole keyspace of the Redis database the connection addresses. */
  class Store {
    var data: Data

    constructor (initial: Data)
      ensures data == initial
    {
      data := initial;
    }

    method Exists(key: string) returns (b: bool)
      ensures b <==> key in data
    {
      b := key in data;
    }

    /** DEL key; replies the number of keys removed. */
    method Delete(key: string) returns (n: nat)
      modifies this
      ensures data == old(data) - {key}
      ensures n == if key in old(data) then 1 else 0
    {
      n := if key in data then 1 else 0;
      data := data - {key};
    }

    method HGet(key: string, field: string) returns (r: Result<Option<string>>)
      ensures r == HashGet(data, key, field)
    {
      r := HashGet(data, key, field);
    }

    method HSet(key: string, field: string, v: string) returns (r: Result<nat>)
      modifies this
      ensures (data, r) == HashSet(old(data), key, field, v)
    {
      var res := HashSet(data, key, field, v);
      data, r := res.0, res.1;
    }

    method LIndex(key: string, i: int) returns (r: Result<Option<string>>)
      ensures r == ListIndex(data, key, i)
    {
      r := ListIndex(data, key, i);
    }

    method LSet(key: string, i: int, v: string) returns (r: Result<()>)
      modifies this
      ensures (data, r) == ListSet(old(data), key, i, v)
    {
      var res := ListSet(data, key, i, v);
      data, r := res.0, res.1;
    }

    method LLen(key: string) returns (r: Result<nat>)
      ensures r == ListLen(data, key)
    {
      r := ListLen(data, key);
    }

    /** LREM key 1 v, the only count the object layer uses. */
    method LRem1(key: string, v: string) returns (r: Result<nat>)
      modifies this
      ensures (data, r) == ListRemove(old(data), key, v)
    {
      var res := ListRemove(data, key, v);
      data, r := res.0, res.1;
    }

    method RPush(key: string, v: string) returns (r: Result<nat>)
      modifies this
      ensures (data, r) == RightPush(old(data), key, v)
    {
      var res := RightPush(data, key, v);
      data, r := res.0, res.1;
    }

    method LPush(key: string, v: string) returns (r: Result<nat>)
      modifies this
      ensures (data, r) == LeftPush(old(data), key, v)
    {
      var res := LeftPush(data, key, v);
      data, r := res.0, res.1;
    }

    method RPop(key: string) returns (r: Result<Option<string>>)
      modifies this
      ensures (data, r) == RightPop(old(data), key)
    {
      var res := RightPop(data, key);
      data, r := res.0, res.1;
    }

    method LPop(key: string) returns (r: Result<Option<string>>)
      modifies this
      ensures (data, r) == LeftPop(old(data), key)
    {
      var res := LeftPop(data, key);
      data, r := res.0, res.1;
    }

    method LRange(key: string, start: int, stop: int) returns (r: Result<seq<string>>)
      ensures r == ListRange(data, key, start, stop)
    {
      r := ListRange(data, key, start, stop);
    }

    method Get(key: string) returns (r: Result<Option<string>>)
      ensures r == KeyGet(data, key)
    {
      r := KeyGet(data, key);
    }

    /** SET key v: replaces whatever the key held. */
    method Set(key: string, v: string) returns (ok: bool)
      modifies this
      ensures data == old(data)[key := Text(v)]
      ensures ok
    {
      data := data[key := Text(v)];
      ok := true;
    }
  }
}
