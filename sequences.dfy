/**
  RedisList: a typed view over the Redis list stored under the object's id.
 */
module Sequences {
  import opened Results
  import opened Codec
  import opened Redis
  import opened Identity

  /** The value `__delitem__` writes over the doomed element before LREM takes it out. */
  const Sentinel := "__DELETED__"

  /** `l[index]` for an integer index. */
  function ListRead(data: Data, id: string, item: Decoder, index: int): Result<Value>
  {
    match ListIndex(data, id, index)
    case Err(e) => Err(e)
    case Ok(raw) => DecodeValue(item, raw, id)
  }

  /** A pop reply decoded with the item constructor. */
  function DecodePopped(raw: Result<Option<string>>, item: Decoder, id: string): Result<Value>
  {
    match raw
    case Err(e) => Err(e)
    case Ok(r) => DecodeValue(item, r, id)
  }

  /** `del l[index]` as written: LSET the sentinel, then LREM the first sentinel from the head. */
  function ListDelete(data: Data, id: string, index: int): (res: (Data, Result<()>))
    ensures res.1.Err? ==> res.0 == data
  {
    var (d, r) := ListSet(data, id, index, Sentinel);
    if r.Err? then (d, r) else (ListRemove(d, id, Sentinel).0, Ok(()))
  }

  /** The items loop of `__init__`: each value appended with RPUSH, stopping at the first error. */
  function AppendAll(data: Data, id: string, vs: seq<Value>): (Data, Result<()>)
  {
    if vs == [] then (data, Ok(()))
    else
      var (d, r) := AppendAll(data, id, vs[..|vs| - 1]);
      if r.Err? then (d, r)
      else
        var (d', n) := RightPush(d, id, EncodeValue(vs[|vs| - 1]));
        (d', Discard(n))
  }

  /** `[str(x) for x in vs]`. */
  function EncodeAll(vs: seq<Value>): (r: seq<string>)
    ensures |r| == |vs|
  {
    if vs == [] then [] else EncodeAll(vs[..|vs| - 1]) + [EncodeValue(vs[|vs| - 1])]
  }

  /** Every raw element decoded, or the error of the first that fails. */
  function DecodeAll(item: Decoder, xs: seq<string>, id: string): Result<seq<Value>>
  {
    if xs == [] then Ok([])
    else match DecodeAll(item, xs[..|xs| - 1], id)
      case Err(e) => Err(e)
      case Ok(vs) =>
        match DecodeValue(item, Some(xs[|xs| - 1]), id)
        case Err(e) => Err(e)
        case Ok(v) => Ok(vs + [v])
  }

  /** The slice read the code evidently intends: no step or step 1, elements LRANGE start stop. */
  function RangeRead(data: Data, id: string, item: Decoder, start: int, stop: int, step: Option<int>): Result<seq<Value>>
  {
    if step.Some? && step.value != 1 then Err(NotImplementedError)
    else match ListRange(data, id, start, stop)
      case Err(e) => Err(e)
      case Ok(xs) => DecodeAll(item, xs, id)
  }

  /** The length of the longest string in `xs`. */
  function MaxLen(xs: seq<string>): (n: nat)
    ensures forall i :: 0 <= i < |xs| ==> |xs[i]| <= n
  {
    if xs == [] then 0
    else
      var m := MaxLen(xs[1..]);
      assert forall i :: 1 <= i < |xs| ==> xs[i] == xs[1..][i - 1];
      if |xs[0]| > m then |xs[0]| else m
  }

  /** A marker that no element of `xs` equals: the sentinel padded past the longest element. */
  function FreshMarker(xs: seq<string>): (m: string)
    ensures m !in xs
  {
    var m := Sentinel + seq(MaxLen(xs), _ => '_');
    assert forall i :: 0 <= i < |xs| ==> |xs[i]| < |m|;
    m
  }

  /** `del l[index]` with a marker that cannot collide with stored data. */
  function ListDeleteExact(data: Data, id: string, index: int): (res: (Data, Result<()>))
    ensures res.1.Err? ==> res.0 == data
  {
    match ListAt(data, id)
    case Err(e) => (data, Err(e))
    case Ok(xs) =>
      var marker := FreshMarker(xs);
      var (d, r) := ListSet(data, id, index, marker);
      if r.Err? then (d, r) else (ListRemove(d, id, marker).0, Ok(()))
  }

  /** What `__iter__` yields: the decoded elements in order, ending early with the first decoding error. */
  ghost predicate IterOutcome(data: Data, id: string, item: Decoder, vals: seq<Value>, err: Option<Error>)
  {
    match ListAt(data, id)
    case Err(e) => vals == [] && err == Some(e)
    case Ok(xs) =>
      && |vals| <= |xs|
      && (forall j :: 0 <= j < |vals| ==> DecodeValue(item, Some(xs[j]), id) == Ok(vals[j]))
      && (err.None? <==> |vals| == |xs|)
      && (err.Some? ==> DecodeValue(item, Some(xs[|vals|]), id) == Err(err.value))
  }

  /** A child list's id is `parent.id + ':' + tag`, kept verbatim whatever the class name and token. */
  lemma ChildIdVerbatim(kind: string, parent: string, tag: string, token: string)
    ensures NormaliseId(kind, Some(ChildKey(parent, tag)), token) == ChildKey(parent, tag)
  {
    assert ChildKey(parent, tag)[|parent|] == ':';
  }

  /** An integer read outside `[-len, len)` gives the item constructor's default. */
  lemma ReadOutOfRange(data: Data, id: string, item: Decoder, index: int)
    requires ListAt(data, id).Ok? && !InRange(|ListAt(data, id).value|, index)
    ensures ListRead(data, id, item, index) == Ok(DefaultValue(item, id))
  {
  }

  /** An integer write outside the list, or on a missing key, fails and changes nothing. */
  lemma WriteOutOfRange(data: Data, id: string, index: int, v: Value)
    requires ListAt(data, id).Ok? && !InRange(|ListAt(data, id).value|, index)
    ensures ListSet(data, id, index, EncodeValue(v)).0 == data
    ensures ListSet(data, id, index, EncodeValue(v)).1 == Err(if id in data then OutOfRange else NoSuchKey)
  {
  }

  /** A valid write followed by a read at the same index decodes `str(v)`. */
  lemma WriteThenRead(data: Data, id: string, item: Decoder, index: int, v: Value)
    requires ListSet(data, id, index, EncodeValue(v)).1.Ok?
    ensures ListRead(ListSet(data, id, index, EncodeValue(v)).0, id, item, index)
      == DecodeValue(item, Some(EncodeValue(v)), id)
  {
    ListSetThenIndex(data, id, index, EncodeValue(v));
  }

  /** `rpush(v)` then `rpop()` returns `item_type(str(v))` and restores the store. */
  lemma RightPushPopDecoded(data: Data, id: string, item: Decoder, v: Value)
    requires NoEmptyLists(data) && ListAt(data, id).Ok?
    ensures var pushed := RightPush(data, id, EncodeValue(v)).0;
      && RightPop(pushed, id).0 == data
      && DecodePopped(RightPop(pushed, id).1, item, id) == DecodeValue(item, Some(EncodeValue(v)), id)
  {
    RightPushPop(data, id, EncodeValue(v));
  }

  /** `lpush(v)` then `lpop()` returns `item_type(str(v))` and restores the store. */
  lemma LeftPushPopDecoded(data: Data, id: string, item: Decoder, v: Value)
    requires NoEmptyLists(data) && ListAt(data, id).Ok?
    ensures var pushed := LeftPush(data, id, EncodeValue(v)).0;
      && LeftPop(pushed, id).0 == data
      && DecodePopped(LeftPop(pushed, id).1, item, id) == DecodeValue(item, Some(EncodeValue(v)), id)
  {
    LeftPushPop(data, id, EncodeValue(v));
  }

  /** Popping an empty list gives the item default and leaves the store as it was. */
  lemma PopEmpty(data: Data, id: string, item: Decoder)
    requires ListAt(data, id) == Ok([])
    ensures RightPop(data, id).0 == data && DecodePopped(RightPop(data, id).1, item, id) == Ok(DefaultValue(item, id))
    ensures LeftPop(data, id).0 == data && DecodePopped(LeftPop(data, id).1, item, id) == Ok(DefaultValue(item, id))
  {
  }

  /** Appending `vs` onto a list `xs` leaves `xs + [str(v) for v in vs]` under the key. */
  lemma {:induction false} AppendAllOnto(data: Data, id: string, vs: seq<Value>)
    requires ListAt(data, id).Ok?
    ensures var (d, r) := AppendAll(data, id, vs);
      && r == Ok(())
      && ListAt(d, id) == Ok(ListAt(data, id).value + EncodeAll(vs))
      && forall k :: k != id ==> (k in d <==> k in data) && (k in d ==> d[k] == data[k])
  {
    if vs != [] {
      var init := vs[..|vs| - 1];
      AppendAllOnto(data, id, init);
      var d := AppendAll(data, id, init).0;
      var ys := ListAt(data, id).value + EncodeAll(init);
      assert ListAt(RightPush(d, id, EncodeValue(vs[|vs| - 1])).0, id) == Ok(ys + [EncodeValue(vs[|vs| - 1])]);
      assert ListAt(data, id).value + EncodeAll(vs) == ys + [EncodeValue(vs[|vs| - 1])];
    } else {
      assert ListAt(data, id).value + EncodeAll(vs) == ListAt(data, id).value;
    }
  }

  /** Appending onto a missing key leaves a list of length `|vs|`. */
  lemma AppendAllLength(data: Data, id: string, vs: seq<Value>)
    requires id !in data
    ensures ListLen(AppendAll(data, id, vs).0, id) == Ok(|vs|)
  {
    AppendAllOnto(data, id, vs);
  }

  /** A delete inside the list always takes out exactly one element. */
  lemma DeleteShrinksByOne(data: Data, id: string, index: int)
    requires ListDelete(data, id, index).1.Ok?
    ensures ListAt(data, id).Ok? && ListAt(ListDelete(data, id, index).0, id).Ok?
    ensures |ListAt(ListDelete(data, id, index).0, id).value| == |ListAt(data, id).value| - 1
  {
    var xs := ListAt(data, id).value;
    var j := Normalise(|xs|, index);
    var d := ListSet(data, id, index, Sentinel).0;
    assert ListAt(d, id) == Ok(xs[j := Sentinel]);
    assert xs[j := Sentinel][j] == Sentinel;
  }

  /** With no sentinel before the target, the delete removes exactly position `index`. */
  lemma DeleteRemovesPosition(data: Data, id: string, index: int)
    requires ListAt(data, id).Ok? && id in data && InRange(|ListAt(data, id).value|, index)
    requires var xs := ListAt(data, id).value;
      forall q :: 0 <= q < Normalise(|xs|, index) ==> xs[q] != Sentinel
    ensures ListDelete(data, id, index).1 == Ok(())
    ensures var xs := ListAt(data, id).value; var j := Normalise(|xs|, index);
      ListAt(ListDelete(data, id, index).0, id) == Ok(xs[..j] + xs[j + 1..])
  {
    var xs := ListAt(data, id).value;
    var j := Normalise(|xs|, index);
    var ys := xs[j := Sentinel];
    RemoveFirstAt(ys, Sentinel, j);
    assert ys[..j] == xs[..j] && ys[j + 1..] == xs[j + 1..];
  }

  /**
    The sentinel delete reorders a list that already holds the sentinel text:
    deleting index 2 of ["__DELETED__", "a", "b"] leaves ["a", "__DELETED__"]
    instead of ["__DELETED__", "a"].
   */
  lemma SentinelDeleteReorders()
    ensures var data: Data := map["k" := List([Sentinel, "a", "b"])];
      && ListDelete(data, "k", 2).1 == Ok(())
      && ListAt(ListDelete(data, "k", 2).0, "k") == Ok(["a", Sentinel])
      && ["a", Sentinel] != [Sentinel, "a"]
  {
    var xs := [Sentinel, "a", "b"];
    var ys := xs[2 := Sentinel];
    RemoveFirstAt(ys, Sentinel, 0);
    assert ys[1..] == ["a", Sentinel];
  }

  /** The corrected delete removes exactly position `index`, whatever the list holds. */
  lemma DeleteExactRemovesPosition(data: Data, id: string, index: int)
    requires ListAt(data, id).Ok? && id in data && InRange(|ListAt(data, id).value|, index)
    ensures ListDeleteExact(data, id, index).1 == Ok(())
    ensures var xs := ListAt(data, id).value; var j := Normalise(|xs|, index);
      ListAt(ListDeleteExact(data, id, index).0, id) == Ok(xs[..j] + xs[j + 1..])
  {
    var xs := ListAt(data, id).value;
    var j := Normalise(|xs|, index);
    var m := FreshMarker(xs);
    var ys := xs[j := m];
    assert forall q :: 0 <= q < j ==> ys[q] == xs[q] && xs[q] != m;
    RemoveFirstAt(ys, m, j);
    assert ys[..j] == xs[..j] && ys[j + 1..] == xs[j + 1..];
  }

  /** Outside the list, or on a missing key, both deletes fail and change nothing. */
  lemma DeleteOutOfRange(data: Data, id: string, index: int)
    requires ListAt(data, id).Ok? && !InRange(|ListAt(data, id).value|, index)
    ensures ListDelete(data, id, index) == (data, Err(if id in data then OutOfRange else NoSuchKey))
    ensures ListDeleteExact(data, id, index) == (data, Err(if id in data then OutOfRange else NoSuchKey))
  {
  }

  /** With a `str` item type, a unit-step slice read returns exactly the stored strings LRANGE selects. */
  lemma {:induction false} DecodeAllStrings(xs: seq<string>, id: string)
    ensures DecodeAll(Str, xs, id) == Ok(seq(|xs|, i requires 0 <= i < |xs| => StrV(xs[i])))
  {
    if xs != [] {
      var init := xs[..|xs| - 1];
      DecodeAllStrings(init, id);
      var vs := seq(|init|, i requires 0 <= i < |init| => StrV(init[i]));
      assert DecodeValue(Str, Some(xs[|xs| - 1]), id) == Ok(StrV(xs[|xs| - 1]));
      assert DecodeAll(Str, xs, id) == Ok(vs + [StrV(xs[|xs| - 1])]);
      assert vs + [StrV(xs[|xs| - 1])] == seq(|xs|, i requires 0 <= i < |xs| => StrV(xs[i]));
    } else {
      assert seq(|xs|, i requires 0 <= i < |xs| => StrV(xs[i])) == [];
    }
  }

  lemma RangeReadOfStrings(data: Data, id: string, start: int, stop: int, step: Option<int>)
    requires step.None? || step.value == 1
    requires ListAt(data, id).Ok?
    ensures var ys := Range(ListAt(data, id).value, start, stop);
      RangeRead(data, id, Str, start, stop, step) == Ok(seq(|ys|, i requires 0 <= i < |ys| => StrV(ys[i])))
  {
    DecodeAllStrings(Range(ListAt(data, id).value, start, stop), id);
  }

  /** A child list's elements are read from `parent.id + ':' + tag`, whatever raw value the field holds. */
  lemma ChildFieldIgnoresRaw(tag: string, item: Decoder, owner: string, raw: Option<string>)
    ensures DecodeValue(ChildList(tag, item), raw, owner) == Ok(ListRef(ChildKey(owner, tag), item))
  {
  }

  /** RedisList: a RedisObject whose key holds a list of `item`-typed elements. */
  class RedisList {
    const base: RedisObject
    const item: Decoder

    /** `RedisList.__init__` without items. */
    constructor (store: Store, kind: string, id: Option<string>, token: string, item: Decoder)
      requires NeedsToken(id) ==> IsToken(token)
      ensures fresh(base)
      ensures base.store == store && base.id == NormaliseId(kind, id, token)
      ensures this.item == item
    {
      base := new RedisObject(store, kind, id, token);
      this.item := item;
    }

    /** `RedisList(id, item_type, items)`: the object, and the outcome of appending the items in order. */
    static method Create(store: Store, kind: string, id: Option<string>, token: string,
                         item: Decoder, items: seq<Value>)
      returns (l: RedisList, r: Result<()>)
      requires NeedsToken(id) ==> IsToken(token)
      modifies store
      ensures fresh(l) && fresh(l.base)
      ensures l.base.store == store && l.base.id == NormaliseId(kind, id, token) && l.item == item
      ensures (store.data, r) == AppendAll(old(store.data), l.base.id, items)
    {
      l := new RedisList(store, kind, id, token, item);
      r := Ok(());
      var i := 0;
      while i < |items|
        invariant 0 <= i <= |items|
        invariant (store.data, r) == AppendAll(old(store.data), l.base.id, items[..i])
        invariant r.Ok?
      {
        assert items[..i + 1][..i] == items[..i];
        r := l.Append(items[i]);
        if r.Err? {
          AppendErrorSticks(old(store.data), l.base.id, items, i + 1);
          return;
        }
        i := i + 1;
      }
      assert items[..i] == items;
    }

    /** Calling the factory `as_child(parent, tag, item_type)` returns: the key is read from `parent` now. */
    static method AsChild(parent: RedisObject, tag: string, item: Decoder) returns (l: RedisList)
      ensures fresh(l) && fresh(l.base)
      ensures l.base.store == parent.store && l.base.id == ChildKey(parent.id, tag) && l.item == item
    {
      ChildIdVerbatim("RedisList", parent.id, tag, "");
      l := new RedisList(parent.store, "RedisList", Some(ChildKey(parent.id, tag)), "", item);
    }

    /** `l[index]` for an integer index. */
    method Get(index: int) returns (r: Result<Value>)
      ensures r == ListRead(base.store.data, base.id, item, index)
    {
      var raw := base.store.LIndex(base.id, index);
      if raw.Err? {
        return Err(raw.error);
      }
      r := DecodeValue(item, raw.value, base.id);
    }

    /** `l[start:stop:step]` as written: the step test calls NotImplemented, which raises TypeError. */
    method GetSlice(start: Option<int>, stop: Option<int>, step: Option<int>) returns (r: Result<seq<Value>>)
      ensures r == Err(TypeError)
    {
      r := Err(TypeError);
    }

    /** The slice read as evidently intended: unit step only, elements `LRANGE start stop`, decoded. */
    method GetRange(start: int, stop: int, step: Option<int>) returns (r: Result<seq<Value>>)
      ensures r == RangeRead(base.store.data, base.id, item, start, stop, step)
    {
      if step.Some? && step.value != 1 {
        return Err(NotImplementedError);
      }
      var raw := base.store.LRange(base.id, start, stop);
      if raw.Err? {
        return Err(raw.error);
      }
      var xs := raw.value;
      var vals: seq<Value> := [];
      var i := 0;
      while i < |xs|
        invariant 0 <= i <= |xs|
        invariant DecodeAll(item, xs[..i], base.id) == Ok(vals)
      {
        assert xs[..i + 1][..i] == xs[..i];
        var v := DecodeValue(item, Some(xs[i]), base.id);
        if v.Err? {
          DecodeErrorSticks(item, xs, base.id, i + 1);
          return Err(v.error);
        }
        vals := vals + [v.value];
        i := i + 1;
      }
      assert xs[..i] == xs;
      r := Ok(vals);
    }

    /** `l[index] = v`. */
    method Set(index: int, v: Value) returns (r: Result<()>)
      modifies base.store
      ensures (base.store.data, r) == ListSet(old(base.store.data), base.id, index, EncodeValue(v))
    {
      r := base.store.LSet(base.id, index, EncodeValue(v));
    }

    /** `len(l)`. */
    method Len() returns (r: Result<nat>)
      ensures r == ListLen(base.store.data, base.id)
    {
      r := base.store.LLen(base.id);
    }

    /** `del l[index]` as written. */
    method DelItem(index: int) returns (r: Result<()>)
      modifies base.store
      ensures (base.store.data, r) == ListDelete(old(base.store.data), base.id, index)
    {
      r := base.store.LSet(base.id, index, Sentinel);
      if r.Ok? {
        var _ := base.store.LRem1(base.id, Sentinel);
      }
    }

    /** `del l[index]` with a marker no stored element equals. */
    method DelItemExact(index: int) returns (r: Result<()>)
      modifies base.store
      ensures (base.store.data, r) == ListDeleteExact(old(base.store.data), base.id, index)
    {
      var all := base.store.LRange(base.id, 0, -1);
      if all.Err? {
        return Err(all.error);
      }
      var marker := FreshMarker(all.value);
      r := base.store.LSet(base.id, index, marker);
      if r.Ok? {
        var _ := base.store.LRem1(base.id, marker);
      }
    }

    /** `__iter__`: LRANGE 0 -1, each element decoded in turn. */
    method Iter() returns (vals: seq<Value>, err: Option<Error>)
      ensures IterOutcome(base.store.data, base.id, item, vals, err)
    {
      vals := [];
      var raw := base.store.LRange(base.id, 0, -1);
      if raw.Err? {
        err := Some(raw.error);
        return;
      }
      var xs := raw.value;
      err := None;
      var i := 0;
      while i < |xs|
        invariant 0 <= i <= |xs| && |vals| == i
        invariant forall j :: 0 <= j < i ==> DecodeValue(item, Some(xs[j]), base.id) == Ok(vals[j])
      {
        var v := DecodeValue(item, Some(xs[i]), base.id);
        if v.Err? {
          err := Some(v.error);
          return;
        }
        vals := vals + [v.value];
        i := i + 1;
      }
    }

    /** `lpop()`: the head, decoded; the item default on an empty list. */
    method LPop() returns (r: Result<Value>)
      modifies base.store
      ensures base.store.data == LeftPop(old(base.store.data), base.id).0
      ensures r == DecodePopped(LeftPop(old(base.store.data), base.id).1, item, base.id)
    {
      var raw := base.store.LPop(base.id);
      r := DecodePopped(raw, item, base.id);
    }

    /** `rpop()`: the tail, decoded; the item default on an empty list. */
    method RPop() returns (r: Result<Value>)
      modifies base.store
      ensures base.store.data == RightPop(old(base.store.data), base.id).0
      ensures r == DecodePopped(RightPop(old(base.store.data), base.id).1, item, base.id)
    {
      var raw := base.store.RPop(base.id);
      r := DecodePopped(raw, item, base.id);
    }

    /** `lpush(v)`. */
    method LPush(v: Value) returns (r: Result<()>)
      modifies base.store
      ensures var (d, n) := LeftPush(old(base.store.data), base.id, EncodeValue(v));
        base.store.data == d && r == Discard(n)
    {
      var n := base.store.LPush(base.id, EncodeValue(v));
      r := Discard(n);
    }

    /** `rpush(v)`. */
    method RPush(v: Value) returns (r: Result<()>)
      modifies base.store
      ensures var (d, n) := RightPush(old(base.store.data), base.id, EncodeValue(v));
        base.store.data == d && r == Discard(n)
    {
      var n := base.store.RPush(base.id, EncodeValue(v));
      r := Discard(n);
    }

    /** `append(v)` is `rpush(v)`. */
    method Append(v: Value) returns (r: Result<()>)
      modifies base.store
      ensures var (d, n) := RightPush(old(base.store.data), base.id, EncodeValue(v));
        base.store.data == d && r == Discard(n)
    {
      r := RPush(v);
    }
  }

  /** Once the items loop has failed, the later items change nothing. */
  lemma {:induction false} AppendErrorSticks(data: Data, id: string, vs: seq<Value>, n: nat)
    requires n <= |vs| && AppendAll(data, id, vs[..n]).1.Err?
    ensures AppendAll(data, id, vs) == AppendAll(data, id, vs[..n])
  {
    if n < |vs| {
      assert vs[..|vs| - 1][..n] == vs[..n];
      AppendErrorSticks(data, id, vs[..|vs| - 1], n);
    } else {
      assert vs[..n] == vs;
    }
  }

  /** Once an element fails to decode, decoding the whole list fails with that error. */
  lemma {:induction false} DecodeErrorSticks(item: Decoder, xs: seq<string>, id: string, n: nat)
    requires n <= |xs| && DecodeAll(item, xs[..n], id).Err?
    ensures DecodeAll(item, xs, id) == DecodeAll(item, xs[..n], id)
  {
    if n < |xs| {
      assert xs[..|xs| - 1][..n] == xs[..n];
      DecodeErrorSticks(item, xs[..|xs| - 1], id, n);
    } else {
      assert xs[..n] == xs;
    }
  }
}
