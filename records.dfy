/**
  RedisDict: a fixed field schema over one Redis hash, keyed by the object's id.
  Reading `id` gives the id itself; every other key must be declared.
 */
module Records {
  import opened Results
  import opened Codec
  import opened Redis
  import opened Identity

  /** One entry of the `fields` mapping: a field name and its constructor. */
  datatype Field = Field(name: string, decoder: Decoder)

  predicate DistinctNames(fs: seq<Field>)
  {
    forall i, j :: 0 <= i < j < |fs| ==> fs[i].name != fs[j].name
  }

  /** The `fields` dict: names are unique and keep their insertion order. */
  type Schema = fs: seq<Field> | DistinctNames(fs) witness []

  /** `fields[key]`, or None when `key not in fields`. */
  function Lookup(fields: seq<Field>, key: string): Option<Decoder>
  {
    if fields == [] then None
    else if fields[0].name == key then Some(fields[0].decoder)
    else Lookup(fields[1..], key)
  }

  predicate Declared(fields: seq<Field>, key: string)
  {
    Lookup(fields, key).Some?
  }

  /** A declared name finds its own constructor. */
  lemma {:induction false} LookupDeclared(fields: Schema, i: nat)
    requires i < |fields|
    ensures Lookup(fields, fields[i].name) == Some(fields[i].decoder)
  {
    if i > 0 {
      var rest: Schema := fields[1..];
      LookupDeclared(rest, i - 1);
    }
  }

  /** A name that no field carries is not declared. */
  lemma {:induction false} LookupUndeclared(fields: seq<Field>, key: string)
    requires forall i :: 0 <= i < |fields| ==> fields[i].name != key
    ensures Lookup(fields, key) == None
  {
    if fields != [] {
      LookupUndeclared(fields[1..], key);
    }
  }

  /** `d[key]` against the store `data`. */
  function DictRead(data: Data, id: string, fields: Schema, key: string): Result<Value>
  {
    if key == "id" then Ok(StrV(id))
    else match Lookup(fields, key)
      case None => Err(KeyError(key))
      case Some(dec) =>
        match HashGet(data, id, key)
        case Err(e) => Err(e)
        case Ok(raw) => DecodeValue(dec, raw, id)
  }

  /** `d[key] = v` against the store `data`: the new store and the outcome. */
  function DictWrite(data: Data, id: string, fields: Schema, key: string, v: Value): (res: (Data, Result<()>))
    ensures res.1.Err? ==> res.0 == data
  {
    match Lookup(fields, key)
    case None => (data, Err(KeyError(key)))
    case Some(_) =>
      var (d, r) := HashSet(data, id, key, EncodeValue(v));
      (d, Discard(r))
  }

  /** The `defaults` loop of `__init__`: each pair written in order, stopping at the first error. */
  function WriteDefaults(data: Data, id: string, fields: Schema, ds: seq<(string, Value)>): (Data, Result<()>)
  {
    if ds == [] then (data, Ok(()))
    else
      var (d, r) := WriteDefaults(data, id, fields, ds[..|ds| - 1]);
      if r.Err? then (d, r) else DictWrite(d, id, fields, ds[|ds| - 1].0, ds[|ds| - 1].1)
  }

  /** The hash `h` after the pairs of `ds` were written in order. */
  function Written(h: map<string, string>, ds: seq<(string, Value)>): map<string, string>
  {
    if ds == [] then h
    else Written(h, ds[..|ds| - 1])[ds[|ds| - 1].0 := EncodeValue(ds[|ds| - 1].1)]
  }

  /** Reading `id` needs no store access and always gives the full id. */
  lemma ReadIdIgnoresStore(data: Data, data': Data, id: string, fields: Schema)
    ensures DictRead(data, id, fields, "id") == DictRead(data', id, fields, "id") == Ok(StrV(id))
  {
  }

  /** Reading or writing an undeclared key raises KeyError and leaves the store as it was. */
  lemma UndeclaredKey(data: Data, id: string, fields: Schema, key: string, v: Value)
    requires forall i :: 0 <= i < |fields| ==> fields[i].name != key
    ensures key != "id" ==> DictRead(data, id, fields, key) == Err(KeyError(key))
    ensures DictWrite(data, id, fields, key, v) == (data, Err(KeyError(key)))
  {
    LookupUndeclared(fields, key);
  }

  /**
    A write to a declared field changes only the sub-key `key` of the hash
    `id`, to `str(v)`; every other key of the store and every other field of
    the hash keep their values.
   */
  lemma WriteChangesOneField(data: Data, id: string, fields: Schema, i: nat, v: Value)
    requires i < |fields| && HashAt(data, id).Ok?
    ensures var (d, r) := DictWrite(data, id, fields, fields[i].name, v);
      && r == Ok(())
      && d == data[id := Hash(HashAt(data, id).value[fields[i].name := EncodeValue(v)])]
  {
    LookupDeclared(fields, i);
  }

  /** After `d[k] = v`, `d[k]` decodes `str(v)`, and reads of other keys are unaffected. */
  lemma WriteThenRead(data: Data, id: string, fields: Schema, i: nat, v: Value, key': string)
    requires i < |fields| && fields[i].name != "id" && HashAt(data, id).Ok?
    ensures var d := DictWrite(data, id, fields, fields[i].name, v).0;
      && DictRead(d, id, fields, fields[i].name) == DecodeValue(fields[i].decoder, Some(EncodeValue(v)), id)
      && (key' != fields[i].name ==> DictRead(d, id, fields, key') == DictRead(data, id, fields, key'))
  {
    LookupDeclared(fields, i);
  }

  /** A value of the field's declared type round-trips exactly. */
  lemma WriteThenReadTyped(data: Data, id: string, fields: Schema, i: nat, v: Value)
    requires i < |fields| && fields[i].name != "id" && HashAt(data, id).Ok?
    requires HasType(v, fields[i].decoder, id)
    ensures DictRead(DictWrite(data, id, fields, fields[i].name, v).0, id, fields, fields[i].name) == Ok(v)
  {
    WriteThenRead(data, id, fields, i, v, fields[i].name);
    DecodeEncode(fields[i].decoder, v, id);
  }

  /** A declared field that was never written reads as its constructor's default. */
  lemma NeverWrittenReadsDefault(data: Data, id: string, fields: Schema, i: nat)
    requires i < |fields| && fields[i].name != "id"
    requires HashAt(data, id).Ok? && fields[i].name !in HashAt(data, id).value
    ensures DictRead(data, id, fields, fields[i].name) == Ok(DefaultValue(fields[i].decoder, id))
  {
    LookupDeclared(fields, i);
  }

  /** With every default declared, all of them are written, in order, into the hash `id`. */
  lemma {:induction false} DefaultsAllWritten(data: Data, id: string, fields: Schema, ds: seq<(string, Value)>)
    requires HashAt(data, id).Ok?
    requires forall j :: 0 <= j < |ds| ==> Declared(fields, ds[j].0)
    ensures var (d, r) := WriteDefaults(data, id, fields, ds);
      && r == Ok(())
      && (ds != [] ==> d == data[id := Hash(Written(HashAt(data, id).value, ds))])
      && (ds == [] ==> d == data)
  {
    if ds != [] {
      var init := ds[..|ds| - 1];
      DefaultsAllWritten(data, id, fields, init);
      var d := WriteDefaults(data, id, fields, init).0;
      assert HashAt(d, id).Ok?;
    }
  }

  /**
    When `ds[j]` is the first undeclared default, `__init__` raises KeyError
    for it after the defaults before it have been persisted.
   */
  lemma {:induction false} DefaultsStopAtUndeclared(data: Data, id: string, fields: Schema, ds: seq<(string, Value)>, j: nat)
    requires j < |ds| && !Declared(fields, ds[j].0)
    requires forall q :: 0 <= q < j ==> Declared(fields, ds[q].0)
    requires HashAt(data, id).Ok?
    ensures WriteDefaults(data, id, fields, ds) == (WriteDefaults(data, id, fields, ds[..j]).0, Err(KeyError(ds[j].0)))
  {
    if |ds| - 1 == j {
      assert ds[..|ds| - 1] == ds[..j];
      DefaultsAllWritten(data, id, fields, ds[..j]);
      var d := WriteDefaults(data, id, fields, ds[..j]).0;
      assert HashAt(d, id).Ok?;
    } else {
      var init := ds[..|ds| - 1];
      assert init[j] == ds[j] && init[..j] == ds[..j];
      DefaultsStopAtUndeclared(data, id, fields, init, j);
    }
  }

  /** Every pair after the first is (name, d[name]) for the fields in order. */
  ghost predicate FieldPairs(data: Data, id: string, fields: Schema, pairs: seq<(string, Value)>)
  {
    forall j :: 1 <= j < |pairs| && j <= |fields| ==>
      pairs[j].0 == fields[j - 1].name && DictRead(data, id, fields, fields[j - 1].name) == Ok(pairs[j].1)
  }

  /**
    What `__iter__` yields: ('id', last segment of the id), then (name, d[name])
    for the fields in order, ending early with the error of the first read that raises.
   */
  ghost predicate ItemsOutcome(data: Data, id: string, fields: Schema, pairs: seq<(string, Value)>, err: Option<Error>)
  {
    && 1 <= |pairs| <= |fields| + 1
    && pairs[0] == ("id", StrV(LastSegment(id)))
    && FieldPairs(data, id, fields, pairs)
    && (err.None? <==> |pairs| == |fields| + 1)
    && (err.Some? ==> DictRead(data, id, fields, fields[|pairs| - 1].name) == Err(err.value))
  }

  lemma FieldPairsExtend(data: Data, id: string, fields: Schema, pairs: seq<(string, Value)>, v: Value)
    requires 1 <= |pairs| <= |fields| && FieldPairs(data, id, fields, pairs)
    requires DictRead(data, id, fields, fields[|pairs| - 1].name) == Ok(v)
    ensures FieldPairs(data, id, fields, pairs + [(fields[|pairs| - 1].name, v)])
  {
  }

  /** RedisDict: a RedisObject whose key holds a hash with the declared fields. */
  class RedisDict {
    const base: RedisObject
    const fields: Schema

    /** `RedisDict.__init__` up to, not including, the defaults loop. */
    constructor (store: Store, kind: string, id: Option<string>, token: string, fields: Schema)
      requires NeedsToken(id) ==> IsToken(token)
      ensures fresh(base)
      ensures base.store == store && base.id == NormaliseId(kind, id, token)
      ensures this.fields == fields
    {
      base := new RedisObject(store, kind, id, token);
      this.fields := fields;
    }

    /**
      `RedisDict(id, fields, defaults)`: the object, and the outcome of writing
      the defaults one by one (a KeyError or WRONGTYPE stops the loop after the
      earlier defaults were persisted).
     */
    static method Create(store: Store, kind: string, id: Option<string>, token: string,
                         fields: Schema, defaults: seq<(string, Value)>)
      returns (d: RedisDict, r: Result<()>)
      requires NeedsToken(id) ==> IsToken(token)
      modifies store
      ensures fresh(d) && fresh(d.base)
      ensures d.base.store == store && d.base.id == NormaliseId(kind, id, token) && d.fields == fields
      ensures (store.data, r) == WriteDefaults(old(store.data), d.base.id, fields, defaults)
    {
      d := new RedisDict(store, kind, id, token, fields);
      r := Ok(());
      var i := 0;
      while i < |defaults|
        invariant 0 <= i <= |defaults|
        invariant (store.data, r) == WriteDefaults(old(store.data), d.base.id, fields, defaults[..i])
        invariant r.Ok?
      {
        assert defaults[..i + 1][..i] == defaults[..i];
        r := d.Set(defaults[i].0, defaults[i].1);
        if r.Err? {
          assert (store.data, r) == WriteDefaults(old(store.data), d.base.id, fields, defaults[..i + 1]);
          assert WriteDefaults(old(store.data), d.base.id, fields, defaults[..i + 1]).1.Err?;
          DefaultsErrorSticks(old(store.data), d.base.id, fields, defaults, i + 1);
          return;
        }
        i := i + 1;
      }
      assert defaults[..i] == defaults;
    }

    /** `d[key]`. */
    method Get(key: string) returns (r: Result<Value>)
      ensures r == DictRead(base.store.data, base.id, fields, key)
    {
      if key == "id" {
        return Ok(StrV(base.id));
      }
      var dec := Lookup(fields, key);
      if dec.None? {
        return Err(KeyError(key));
      }
      var raw := base.store.HGet(base.id, key);
      if raw.Err? {
        return Err(raw.error);
      }
      r := DecodeValue(dec.value, raw.value, base.id);
    }

    /** `d[key] = v`. */
    method Set(key: string, v: Value) returns (r: Result<()>)
      modifies base.store
      ensures (base.store.data, r) == DictWrite(old(base.store.data), base.id, fields, key, v)
    {
      if !Declared(fields, key) {
        return Err(KeyError(key));
      }
      var n := base.store.HSet(base.id, key, EncodeValue(v));
      r := Discard(n);
    }

    /**
      `__iter__`: ('id', last segment of the id), then (name, d[name]) for the
      fields in order; a read that raises ends the iteration with its error.
     */
    method Items() returns (pairs: seq<(string, Value)>, err: Option<Error>)
      ensures ItemsOutcome(base.store.data, base.id, fields, pairs, err)
    {
      ghost var data := base.store.data;
      pairs := [("id", StrV(LastSegment(base.id)))];
      err := None;
      var i := 0;
      while i < |fields|
        invariant 0 <= i <= |fields|
        invariant |pairs| == i + 1
        invariant pairs[0] == ("id", StrV(LastSegment(base.id)))
        invariant FieldPairs(data, base.id, fields, pairs)
      {
        var r := Get(fields[i].name);
        if r.Err? {
          err := Some(r.error);
          return;
        }
        FieldPairsExtend(data, base.id, fields, pairs, r.value);
        pairs := pairs + [(fields[i].name, r.value)];
        i := i + 1;
      }
    }
  }

  /** Once the defaults loop has failed, the later defaults change nothing. */
  lemma {:induction false} DefaultsErrorSticks(data: Data, id: string, fields: Schema, ds: seq<(string, Value)>, n: nat)
    requires n <= |ds| && WriteDefaults(data, id, fields, ds[..n]).1.Err?
    ensures WriteDefaults(data, id, fields, ds) == WriteDefaults(data, id, fields, ds[..n])
  {
    if n < |ds| {
      assert ds[..|ds| - 1][..n] == ds[..n];
      DefaultsErrorSticks(data, id, fields, ds[..|ds| - 1], n);
    } else {
      assert ds[..n] == ds;
    }
  }

  /**
    Two RedisDicts over the same store with equal ids and the same schema
    share one hash: a write through one is what the other reads.
   */
  method SharedBacking(a: RedisDict, b: RedisDict, key: string, v: Value) returns (r: Result<Value>)
    requires a.base.Equals(b.base) && a.base.store == b.base.store && a.fields == b.fields
    requires Declared(a.fields, key) && key != "id" && HashAt(a.base.store.data, a.base.id).Ok?
    modifies a.base.store
    ensures r == DecodeValue(Lookup(a.fields, key).value, Some(EncodeValue(v)), a.base.id)
  {
    var w := a.Set(key, v);
    r := b.Get(key);
  }
}
