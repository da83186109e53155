/**
  RedisObject: identity normalisation, existence, equality and deletion.
  Every object of the layer is addressed by one key of the store, its id.
 */
module Identity {
  import opened Results
  import opened Redis

  /** A character of the URL-safe base64 alphabet. */
  predicate IsTokenChar(c: char)
  {
    ('A' <= c <= 'Z') || ('a' <= c <= 'z') || ('0' <= c <= '9') || c == '-' || c == '_'
  }

  /** What `urlsafe_b64encode(os.urandom(9))` yields: 12 URL-safe characters. */
  predicate IsToken(t: string)
  {
    |t| == 12 && forall i :: 0 <= i < |t| ==> IsTokenChar(t[i])
  }

  /** Whether a constructor call needs the random token: its id is absent or empty. */
  predicate NeedsToken(id: Option<string>)
  {
    id.None? || id.value == ""
  }

  /**
    The id a RedisObject of class `kind` gets: the explicit id when it is
    truthy, the random token otherwise, prefixed with `kind + ":"` when it
    has no ':' of its own.
   */
  function NormaliseId(kind: string, id: Option<string>, token: string): (r: string)
    ensures !NeedsToken(id) && ':' in id.value ==> r == id.value
    ensures !NeedsToken(id) && ':' !in id.value ==> r == kind + ":" + id.value
    ensures NeedsToken(id) && ':' !in token ==> r == kind + ":" + token
  {
    var raw := if NeedsToken(id) then token else id.value;
    if ':' in raw then raw else kind + ":" + raw
  }

  /** `s.rsplit(':', 1)[-1]`: the text after the last ':', or all of `s`. */
  function LastSegment(s: string): (r: string)
    ensures ':' !in r
    ensures |r| <= |s| && r == s[|s| - |r|..]
    ensures |r| < |s| ==> s[|s| - |r| - 1] == ':'
  {
    if s == [] then []
    else if s[|s| - 1] == ':' then []
    else
      var t := s[..|s| - 1];
      var q := LastSegment(t);
      var r := q + [s[|s| - 1]];
      assert t[|t| - |q|..] == q;
      assert t[|t| - |q|..] + [s[|s| - 1]] == s[|s| - |r|..];
      assert |r| < |s| ==> s[|s| - |r| - 1] == t[|t| - |q| - 1];
      r
  }

  /** The last segment of `prefix + ":" + tail` is `tail` when `tail` has no ':'. */
  lemma LastSegmentAfterSeparator(prefix: string, tail: string)
    requires ':' !in tail
    ensures LastSegment(prefix + ":" + tail) == tail
  {
    var s := prefix + ":" + tail;
    assert s[|prefix|] == ':';
    assert s[|s| - |tail|..] == tail;
  }

  /** Every normalised id contains the separator. */
  lemma IdIsNamespaced(kind: string, id: Option<string>, token: string)
    ensures ':' in NormaliseId(kind, id, token)
  {
    var r := NormaliseId(kind, id, token);
    var raw := if NeedsToken(id) then token else id.value;
    if ':' !in raw {
      assert r[|kind|] == ':';
    }
  }

  /** Re-opening an object with its own id, under any class name, gives back the same id. */
  lemma ReopenKeepsId(kind: string, id: Option<string>, token: string, kind': string, token': string)
    ensures NormaliseId(kind', Some(NormaliseId(kind, id, token)), token') == NormaliseId(kind, id, token)
  {
    IdIsNamespaced(kind, id, token);
  }

  /** The token a fresh object got is what iteration reports as its 'id'. */
  lemma GeneratedTokenIsLastSegment(kind: string, id: Option<string>, token: string)
    requires NeedsToken(id) && IsToken(token)
    ensures NormaliseId(kind, id, token) == kind + ":" + token
    ensures LastSegment(NormaliseId(kind, id, token)) == token
  {
    assert forall i :: 0 <= i < |token| ==> token[i] != ':';
    LastSegmentAfterSeparator(kind, token);
  }

  /** The part of RedisObject that RedisDict and RedisList share. */
  class RedisObject {
    const store: Store
    const id: string

    /** `RedisObject.__init__`; `kind` is the concrete class name, `token` the random source's output. */
    constructor (store: Store, kind: string, id: Option<string>, token: string)
      requires NeedsToken(id) ==> IsToken(token)
      ensures this.store == store
      ensures this.id == NormaliseId(kind, id, token)
    {
      this.store := store;
      this.id := NormaliseId(kind, id, token);
    }

    /** `__bool__`: whether the key currently exists in the store. */
    method IsTruthy() returns (b: bool)
      ensures b <==> id in store.data
    {
      b := store.Exists(id);
    }

    /**
      `__eq__`: two objects are equal when their ids are, so they address the
      same key and report the same 'id' when iterated.
     */
    predicate Equals(other: RedisObject)
      ensures Equals(other) <==> id == other.id
      ensures Equals(other) ==> LastSegment(id) == LastSegment(other.id)
    {
      id == other.id
    }

    /** `delete`: removes the key, whatever it holds, and nothing else. */
    method Delete()
      modifies store
      ensures store.data == old(store.data) - {id}
    {
      var _ := store.Delete(id);
    }
  }
}
