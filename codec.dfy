/**
  The value codec of RedisObject: `encode_value` is `str(value)` and
  `decode_value(type, raw)` is `type()` when the raw value is absent and
  `type(raw)` otherwise. The Python "constructors" passed as field and item
  types become the Decoder datatype.
 */
module Codec {
  import opened Results

  /** A field or item constructor: `str`, `int`, or `RedisList.as_child(owner, tag, item)`. */
  datatype Decoder =
    | Str
    | Int
    | ChildList(tag: string, item: Decoder)

  /** A decoded value; ListRef is the RedisList handle a child-list constructor yields. */
  datatype Value =
    | StrV(s: string)
    | IntV(i: int)
    | ListRef(id: string, item: Decoder)

  predicate IsDigit(c: char) { '0' <= c <= '9' }

  predicate AllDigits(s: string) { forall i :: 0 <= i < |s| ==> IsDigit(s[i]) }

  function DigitChar(d: nat): char
    requires d < 10
  {
    ('0' as int + d) as char
  }

  /** The value of a string of decimal digits, most significant first. */
  function DigitsValue(s: string): nat
    requires AllDigits(s)
  {
    if s == [] then 0 else 10 * DigitsValue(s[..|s| - 1]) + (s[|s| - 1] as int - '0' as int)
  }

  /** `int(s)` on a string: an optional sign followed by at least one decimal digit. */
  function ParseInt(s: string): Option<int>
  {
    if |s| > 0 && (s[0] == '-' || s[0] == '+') then
      if |s| > 1 && AllDigits(s[1..]) then
        var n: int := DigitsValue(s[1..]);
        Some(if s[0] == '-' then -n else n)
      else None
    else if |s| > 0 && AllDigits(s) then Some(DigitsValue(s))
    else None
  }

  /** `str(n)` for a natural number: decimal digits without leading zeros. */
  function NatToString(n: nat): (r: string)
    ensures |r| > 0 && AllDigits(r)
    ensures DigitsValue(r) == n
    ensures r[0] != '0' || r == "0"
  {
    if n < 10 then [DigitChar(n)]
    else
      var r := NatToString(n / 10) + [DigitChar(n % 10)];
      assert r[..|r| - 1] == NatToString(n / 10);
      assert r[0] == NatToString(n / 10)[0];
      r
  }

  /** `str(i)` for an integer. */
  function IntToString(i: int): string
  {
    if i < 0 then "-" + NatToString(-i) else NatToString(i)
  }

  /** int(str(i)) == i: the decimal rendering of an integer parses back to it. */
  lemma IntRoundTrip(i: int)
    ensures ParseInt(IntToString(i)) == Some(i)
  {
    if i < 0 {
      assert IntToString(i)[1..] == NatToString(-i);
    } else {
      assert IsDigit(NatToString(i)[0]);
    }
  }

  /** `encode_value(value)`, i.e. `str(value)`; a RedisList prints as its id. */
  function EncodeValue(v: Value): (r: string)
    ensures v.StrV? ==> r == v.s
    ensures v.IntV? ==> r == IntToString(v.i) && ParseInt(r) == Some(v.i)
    ensures v.ListRef? ==> r == v.id
  {
    match v
    case StrV(s) => s
    case IntV(i) => IntRoundTrip(i); IntToString(i)
    case ListRef(id, _) => id
  }

  /** The key of the child list `owner.id + ':' + tag`. */
  function ChildKey(owner: string, tag: string): string
  {
    owner + ":" + tag
  }

  /** `type()`: what a constructor yields when called without an argument. */
  function DefaultValue(d: Decoder, owner: string): Value
  {
    match d
    case Str => StrV("")
    case Int => IntV(0)
    case ChildList(tag, item) => ListRef(ChildKey(owner, tag), item)
  }

  /** `type(raw)`: a child-list constructor ignores its argument. */
  function Construct(d: Decoder, raw: string, owner: string): Result<Value>
  {
    match d
    case Str => Ok(StrV(raw))
    case Int => (match ParseInt(raw) case Some(i) => Ok(IntV(i)) case None => Err(ValueError(raw)))
    case ChildList(tag, item) => Ok(ListRef(ChildKey(owner, tag), item))
  }

  /** Whether `v` is a value that constructor `d` of an object keyed `owner` produces. */
  predicate HasType(v: Value, d: Decoder, owner: string)
  {
    match d
    case Str => v.StrV?
    case Int => v.IntV?
    case ChildList(tag, item) => v == ListRef(ChildKey(owner, tag), item)
  }

  /**
    `decode_value(type, raw)`. Only `int` can fail, and only on a present raw
    value that is not an integer literal; whatever it yields has the declared type.
   */
  function DecodeValue(d: Decoder, raw: Option<string>, owner: string): (r: Result<Value>)
    ensures r.Err? <==> d.Int? && raw.Some? && ParseInt(raw.value).None?
    ensures r.Err? ==> r.error == ValueError(raw.value)
    ensures r.Ok? ==> HasType(r.value, d, owner)
  {
    match raw
    case None => Ok(DefaultValue(d, owner))
    case Some(s) => Construct(d, s, owner)
  }

  /** Writing a value of the declared type and reading it back yields the same value. */
  lemma DecodeEncode(d: Decoder, v: Value, owner: string)
    requires HasType(v, d, owner)
    ensures DecodeValue(d, Some(EncodeValue(v)), owner) == Ok(v)
  {
    if d.Int? {
      IntRoundTrip(v.i);
    }
  }
}
