# baropi Redis-backed objects, modelled in Dafny

baropi keeps its run-time state in Redis through a small object layer in
`baropi/testing/piredis.py`:

- `RedisObject` names one Redis key. Its id is the caller's id, or a random
  12-character url-safe token, prefixed with the class name unless it already
  holds a `:`. The object is truthy while its key exists, equal to another
  object with the same id, and can delete its key.
- `RedisDict` is a Redis hash with a fixed schema. The schema maps each field
  name to a constructor that decodes the stored string. Reading `id` gives the
  object's id. An undeclared field raises `KeyError`. An unset field reads as
  the constructor's default. Values are written as `str(value)`.
- `RedisList` is a Redis list whose items are decoded with one item
  constructor. It supports index read and write, length, delete by index
  (write a sentinel, then remove it), iteration, pops and pushes.
  `as_child` makes a list keyed `<parent id>:<tag>`.
- `Piredis` forwards eight commands to Redis under the key `<prefix>:<key>`.

The model also covers `nearest_odd` from `baropi/readout.py`.

The Redis server is modelled as well. `Redis.Store` is a class whose one
field maps keys to entries: a hash, a list or a plain string. Each command
used is a pure function from the old map to a new map and a reply. The
`Store` methods apply these functions to the field. The functions cover the
error replies: `WRONGTYPE`, "no such key" and "index out of range". Redis
deletes a list when it becomes empty, and the model does too. Every
writing command keeps that property.

Field and item constructors are the `Decoder` datatype: `str`, `int`, or a
child list made by `as_child`. Decoded values are the `Value` datatype.
Python exceptions become `Err(...)` results.

Modules:

| file | module | models |
|---|---|---|
| `results.dfy` | `Results` | `Option`, `Result`, the error kinds |
| `codec.dfy` | `Codec` | `decode_value` / `encode_value`, `int()` and `str()` on integers |
| `redis.dfy` | `Redis` | the Redis commands used, and the `Store` class |
| `identity.dfy` | `Identity` | `RedisObject`: id choice, truthiness, equality, delete |
| `records.dfy` | `Records` | `RedisDict` |
| `sequences.dfy` | `Sequences` | `RedisList`, including `as_child` |
| `prefixed.dfy` | `Prefixed` | `Piredis.mk_key` and the forwarding wrappers |
| `readout.dfy` | `Readout` | `nearest_odd` |

The model follows the code where the documented behaviour and the code
disagree:

- Reading `d['id']` returns the full id, such as `Kind:abc`, not only the
  token. Iteration yields only the last segment (`Records.ReadIdIgnoresStore`,
  `Identity.LastSegment`).
- A slice read of a `RedisList` is described as an inclusive range read.
  As written it always raises `TypeError` (see Findings).

## Model

| member | source | states |
|---|---|---|
| Codec.NatToString | baropi/baropi/testing/piredis.py:53-55 | `str(n)` of a natural number is a non-empty string of decimal digits, with no leading zero (`"0"` for 0), whose value is `n` |
| Codec.IntRoundTrip | baropi/baropi/testing/piredis.py:44-55 | `int(str(i)) == i` for every integer |
| Codec.DecodeValue | baropi/baropi/testing/piredis.py:44-50 | decoding fails only for an `int` field whose stored text is not an integer, with `ValueError` of that text; every success has the constructor's type |
| Codec.EncodeValue | baropi/baropi/testing/piredis.py:52-55 | `encode_value` is `str(v)`: a string unchanged, an integer as `IntToString` of it (sign, then digits without leading zeros), which `int()` parses back to it, a list handle as its id |
| Codec.DecodeEncode | baropi/baropi/testing/piredis.py:44-55 | decoding the encoding of a well-typed value gives the value back (str, int and child list) |
| Redis.HashSet | baropi/baropi/testing/piredis.py:104 | HSET succeeds exactly when the key is missing or holds a hash; a failure changes nothing; HSET keeps "no empty lists" |
| Redis.ListSet | baropi/baropi/testing/piredis.py:164 | LSET succeeds exactly when the key holds a list and the index is in `[-len, len)`; a failure changes nothing |
| Redis.RemoveFirst | baropi/baropi/testing/piredis.py:173 | LREM with count 1 removes one element when the value occurs and leaves the list alone otherwise |
| Redis.RemoveFirstAt | baropi/baropi/testing/piredis.py:173 | LREM with count 1 removes exactly the first occurrence of the value |
| Redis.ListRemove | baropi/baropi/testing/piredis.py:173 | LREM with count 1 fails only on a non-list key, and then changes nothing; otherwise it replies 0 or 1 and the list shrinks by the reply; it keeps "no empty lists" |
| Redis.RightPush | baropi/baropi/testing/piredis.py:192-194 | RPUSH fails only on a non-list key, and then changes nothing; otherwise it replies with the new length, one more than the old; it keeps "no empty lists" |
| Redis.LeftPush | baropi/baropi/testing/piredis.py:188-190 | LPUSH fails only on a non-list key, and then changes nothing; otherwise it replies with the new length, one more than the old; it keeps "no empty lists" |
| Redis.RightPop | baropi/baropi/testing/piredis.py:184-186 | RPOP fails only on a non-list key, and then changes nothing; it replies nil exactly for an empty list, and otherwise shortens the list by one; it keeps "no empty lists" |
| Redis.LeftPop | baropi/baropi/testing/piredis.py:180-182 | LPOP fails only on a non-list key, and then changes nothing; it replies nil exactly for an empty list, and otherwise shortens the list by one; it keeps "no empty lists" |
| Redis.Range | baropi/baropi/testing/piredis.py:175-178 | LRANGE returns at most the whole list, and exactly the whole list for `0, -1` |
| Redis.RightPushPop | baropi/baropi/testing/piredis.py:184-194 | RPOP right after RPUSH returns the pushed value and restores the store |
| Redis.LeftPushPop | baropi/baropi/testing/piredis.py:180-190 | LPOP right after LPUSH returns the pushed value and restores the store |
| Redis.RightPushThenLastIndex | baropi/baropi/testing/piredis.py:261-274 | after a successful RPUSH, LINDEX -1 returns the pushed value |
| Redis.HashSetThenGet | baropi/baropi/testing/piredis.py:281-289 | after a successful HSET, HGET of that field returns the value |
| Redis.ListSetThenIndex | baropi/baropi/testing/piredis.py:157-164 | after a successful LSET, LINDEX at that index returns the value |
| Redis.SetThenGet | baropi/baropi/testing/piredis.py:251-259 | GET right after SET of the same key returns the stored string, whatever the key held before |
| Redis.SameEntryReadsAlike | baropi/baropi/testing/piredis.py:256-284 | GET, HGET, LINDEX and LRANGE of a key depend only on that key's entry |
| Redis.Store.constructor | baropi/baropi/testing/piredis.py:212-223 | a connection starts on the given server contents |
| Redis.Store.Exists | baropi/baropi/testing/piredis.py:28-30 | EXISTS is true exactly when the key is present |
| Redis.Store.Delete | baropi/baropi/testing/piredis.py:40-42 | DEL removes the key and replies with the number of keys removed |
| Redis.Store.HGet | baropi/baropi/testing/piredis.py:92 | HGET agrees with `HashGet` |
| Redis.Store.HSet | baropi/baropi/testing/piredis.py:104 | HSET updates the store and replies as `HashSet` says |
| Redis.Store.LIndex | baropi/baropi/testing/piredis.py:158 | LINDEX agrees with `ListIndex` |
| Redis.Store.LSet | baropi/baropi/testing/piredis.py:164 | LSET updates the store and replies as `ListSet` says |
| Redis.Store.LLen | baropi/baropi/testing/piredis.py:166-168 | LLEN agrees with `ListLen` |
| Redis.Store.LRem1 | baropi/baropi/testing/piredis.py:173 | LREM with count 1 updates the store and replies as `ListRemove` says |
| Redis.Store.RPush | baropi/baropi/testing/piredis.py:194 | RPUSH updates the store and replies as `RightPush` says |
| Redis.Store.LPush | baropi/baropi/testing/piredis.py:190 | LPUSH updates the store and replies as `LeftPush` says |
| Redis.Store.RPop | baropi/baropi/testing/piredis.py:186 | RPOP updates the store and replies as `RightPop` says |
| Redis.Store.LPop | baropi/baropi/testing/piredis.py:182 | LPOP updates the store and replies as `LeftPop` says |
| Redis.Store.LRange | baropi/baropi/testing/piredis.py:177 | LRANGE agrees with `ListRange` |
| Redis.Store.Get | baropi/baropi/testing/piredis.py:256-259 | GET agrees with `KeyGet` |
| Redis.Store.Set | baropi/baropi/testing/piredis.py:251-254 | SET stores the string under the key, replaces any earlier entry, and replies true |
| Identity.NormaliseId | baropi/baropi/testing/piredis.py:18-26 | an id holding `:` is kept; any other id gets the class name and `:` in front; a missing or empty id is replaced by the class name, `:` and the token |
| Identity.LastSegment | baropi/baropi/testing/piredis.py:109 | `rsplit(':', 1)[-1]` is the `:`-free suffix, preceded by `:` when shorter than the id |
| Identity.LastSegmentAfterSeparator | baropi/baropi/testing/piredis.py:109 | the last segment of `prefix:tail` is `tail` when `tail` has no `:` |
| Identity.IdIsNamespaced | baropi/baropi/testing/piredis.py:18-26 | every id chosen by the constructor contains `:` |
| Identity.ReopenKeepsId | baropi/baropi/testing/piredis.py:18-26 | re-opening an object by its own id, under any class, gives the same key |
| Identity.GeneratedTokenIsLastSegment | baropi/baropi/testing/piredis.py:21-26 | a generated id is `Class:token`, and iteration reports the token as its `id` |
| Identity.RedisObject.constructor | baropi/baropi/testing/piredis.py:18-26 | the object's id is the normalised id, on the given store |
| Identity.RedisObject.IsTruthy | baropi/baropi/testing/piredis.py:28-30 | an object is truthy exactly when its key exists |
| Identity.RedisObject.Equals | baropi/baropi/testing/piredis.py:32-34 | two objects are equal exactly when their ids are; equal objects report the same `id` when iterated |
| Identity.RedisObject.Delete | baropi/baropi/testing/piredis.py:40-42 | delete removes the object's key and nothing else |
| Records.LookupDeclared | baropi/baropi/testing/piredis.py:89-92 | a declared field name finds its own constructor |
| Records.LookupUndeclared | baropi/baropi/testing/piredis.py:89-90 | a name no field declares finds nothing |
| Records.DictWrite | baropi/baropi/testing/piredis.py:94-104 | a failing field write leaves the store unchanged |
| Records.ReadIdIgnoresStore | baropi/baropi/testing/piredis.py:86-87 | reading `id` gives the full id, whatever the store holds |
| Records.UndeclaredKey | baropi/baropi/testing/piredis.py:89-102 | an undeclared key raises `KeyError` on read (unless it is `id`) and on write, and a write then changes nothing |
| Records.WriteChangesOneField | baropi/baropi/testing/piredis.py:101-104 | writing a declared field sets that hash field to `str(v)` and changes nothing else |
| Records.WriteThenRead | baropi/baropi/testing/piredis.py:92-104 | after a write, the written field reads as its constructor applied to `str(v)`, and every other field reads as before |
| Records.WriteThenReadTyped | baropi/baropi/testing/piredis.py:92-104 | a field written with a value of its own type reads back as that value |
| Records.NeverWrittenReadsDefault | baropi/baropi/testing/piredis.py:89-92 | a declared field never written reads as its constructor's default |
| Records.DefaultsAllWritten | baropi/baropi/testing/piredis.py:75-77 | with only declared defaults, construction succeeds and the hash holds `str` of the last default given for each field |
| Records.DefaultsStopAtUndeclared | baropi/baropi/testing/piredis.py:75-77 | the first undeclared default raises `KeyError`, after the earlier defaults were written |
| Records.DefaultsErrorSticks | baropi/baropi/testing/piredis.py:75-77 | once writing defaults has failed, later defaults change nothing |
| Records.RedisDict.constructor | baropi/baropi/testing/piredis.py:61-73 | the dict gets the normalised id and the given schema |
| Records.RedisDict.Create | baropi/baropi/testing/piredis.py:61-77 | construction writes the defaults in order, as `WriteDefaults` says |
| Records.RedisDict.Get | baropi/baropi/testing/piredis.py:79-92 | `d[key]` agrees with `DictRead` |
| Records.RedisDict.Set | baropi/baropi/testing/piredis.py:94-104 | `d[key] = v` updates the store as `DictWrite` says |
| Records.RedisDict.Items | baropi/baropi/testing/piredis.py:106-112 | iteration yields `('id', last segment)` and then each field in schema order with its read value, stopping at the first read that fails |
| Records.SharedBacking | baropi/baropi/testing/piredis.py:32-34 | two equal dicts share their contents: a write through one is read through the other |
| Sequences.ListDelete | baropi/baropi/testing/piredis.py:170-173 | a failing `del l[i]` changes nothing |
| Sequences.FreshMarker | baropi/baropi/testing/piredis.py:170-173 | the marker used by the corrected delete occurs nowhere in the list |
| Sequences.ListDeleteExact | baropi/baropi/testing/piredis.py:170-173 | a failing corrected delete changes nothing |
| Sequences.ChildIdVerbatim | baropi/baropi/testing/piredis.py:134-141 | a child list's key `parent:tag` is used as is |
| Sequences.ReadOutOfRange | baropi/baropi/testing/piredis.py:157-158 | an index read outside `[-len, len)` gives the item constructor's default |
| Sequences.WriteOutOfRange | baropi/baropi/testing/piredis.py:160-164 | an index write outside `[-len, len)` fails and changes nothing |
| Sequences.WriteThenRead | baropi/baropi/testing/piredis.py:157-164 | after `l[i] = v`, `l[i]` is the item constructor applied to `str(v)` |
| Sequences.RightPushPopDecoded | baropi/baropi/testing/piredis.py:184-194 | `rpop` right after `rpush(v)` returns `v` decoded and restores the store |
| Sequences.LeftPushPopDecoded | baropi/baropi/testing/piredis.py:180-190 | `lpop` right after `lpush(v)` returns `v` decoded and restores the store |
| Sequences.PopEmpty | baropi/baropi/testing/piredis.py:180-186 | popping an empty list returns the item constructor's default and changes nothing |
| Sequences.AppendAllOnto | baropi/baropi/testing/piredis.py:126-132 | constructing with items appends `str` of each item, in order, to the existing list |
| Sequences.AppendAllLength | baropi/baropi/testing/piredis.py:130-132 | a new list built from `n` items has length `n` |
| Sequences.AppendErrorSticks | baropi/baropi/testing/piredis.py:130-132 | once appending the items has failed, later items change nothing |
| Sequences.DeleteShrinksByOne | baropi/baropi/testing/piredis.py:170-173 | a successful `del l[i]` shortens the list by exactly one |
| Sequences.DeleteRemovesPosition | baropi/baropi/testing/piredis.py:170-173 | when no element before position `i` is the sentinel, `del l[i]` removes exactly position `i` |
| Sequences.SentinelDeleteReorders | baropi/baropi/testing/piredis.py:170-173 | a list whose first element is the sentinel loses that element, not the one asked for |
| Sequences.DeleteExactRemovesPosition | baropi/baropi/testing/piredis.py:170-173 | the corrected delete removes exactly position `i` for every list |
| Sequences.DeleteOutOfRange | baropi/baropi/testing/piredis.py:170-173 | deleting outside `[-len, len)` fails and changes nothing, in both versions |
| Sequences.DecodeAllStrings | baropi/baropi/testing/piredis.py:153-156 | decoding raw elements with `str` gives the elements themselves |
| Sequences.DecodeErrorSticks | baropi/baropi/testing/piredis.py:153-156 | once decoding elements has failed, later elements do not change the outcome |
| Sequences.RangeReadOfStrings | baropi/baropi/testing/piredis.py:149-156 | the corrected range read of a `str` list returns the LRANGE elements |
| Sequences.ChildFieldIgnoresRaw | baropi/baropi/testing/piredis.py:138-139 | a child-list constructor ignores the stored text and yields the list keyed `owner:tag` |
| Sequences.RedisList.constructor | baropi/baropi/testing/piredis.py:118-128 | the list gets the normalised id and the item constructor |
| Sequences.RedisList.Create | baropi/baropi/testing/piredis.py:118-132 | construction appends the items as `AppendAll` says |
| Sequences.RedisList.AsChild | baropi/baropi/testing/piredis.py:134-141 | the child list is keyed `parent.id:tag` on the parent's store |
| Sequences.RedisList.Get | baropi/baropi/testing/piredis.py:157-158 | `l[i]` agrees with `ListRead` |
| Sequences.RedisList.GetSlice | baropi/baropi/testing/piredis.py:149-151 | a slice read raises `TypeError` whatever the slice |
| Sequences.RedisList.GetRange | baropi/baropi/testing/piredis.py:149-156 | the corrected range read agrees with `RangeRead` |
| Sequences.RedisList.Set | baropi/baropi/testing/piredis.py:160-164 | `l[i] = v` updates the store as `ListSet` says |
| Sequences.RedisList.Len | baropi/baropi/testing/piredis.py:166-168 | `len(l)` agrees with `ListLen` |
| Sequences.RedisList.DelItem | baropi/baropi/testing/piredis.py:170-173 | `del l[i]` updates the store as `ListDelete` says |
| Sequences.RedisList.DelItemExact | baropi/baropi/testing/piredis.py:170-173 | the corrected delete updates the store as `ListDeleteExact` says |
| Sequences.RedisList.Iter | baropi/baropi/testing/piredis.py:175-178 | iteration yields every element decoded, in order, stopping at the first failing decode |
| Sequences.RedisList.LPop | baropi/baropi/testing/piredis.py:180-182 | `lpop` updates the store as LPOP does and decodes its reply |
| Sequences.RedisList.RPop | baropi/baropi/testing/piredis.py:184-186 | `rpop` updates the store as RPOP does and decodes its reply |
| Sequences.RedisList.LPush | baropi/baropi/testing/piredis.py:188-190 | `lpush(v)` updates the store as LPUSH of `str(v)` does |
| Sequences.RedisList.RPush | baropi/baropi/testing/piredis.py:192-194 | `rpush(v)` updates the store as RPUSH of `str(v)` does |
| Sequences.RedisList.Append | baropi/baropi/testing/piredis.py:196-197 | `append(v)` is `rpush(v)` |
| Prefixed.Piredis.constructor | baropi/baropi/testing/piredis.py:226-235 | the client keeps the given connection and prefix |
| Prefixed.Piredis.MkKey | baropi/baropi/testing/piredis.py:237-240 | the key is the prefix, then `:`, then the caller's key |
| Prefixed.MkKeyInjective | baropi/baropi/testing/piredis.py:237-240 | distinct caller keys give distinct Redis keys |
| Prefixed.WritesStayUnderTheirKey | baropi/baropi/testing/piredis.py:251-289 | a write by `set`, `rpush`, `lpush` or `hset` under one caller key leaves the entry under every other caller key unchanged, so (with `Redis.SameEntryReadsAlike`) `get`, `lindex`, `lrange` and `hget` there read as before |
| Prefixed.Piredis.Set | baropi/baropi/testing/piredis.py:251-254 | `set` stores the value under the prefixed key |
| Prefixed.Piredis.Get | baropi/baropi/testing/piredis.py:256-259 | `get` reads the prefixed key |
| Prefixed.Piredis.RPush | baropi/baropi/testing/piredis.py:261-264 | `rpush` is RPUSH on the prefixed key |
| Prefixed.Piredis.LPush | baropi/baropi/testing/piredis.py:266-269 | `lpush` is LPUSH on the prefixed key |
| Prefixed.Piredis.LIndex | baropi/baropi/testing/piredis.py:271-274 | `lindex` is LINDEX on the prefixed key |
| Prefixed.Piredis.LRange | baropi/baropi/testing/piredis.py:276-279 | `lrange` is LRANGE on the prefixed key |
| Prefixed.Piredis.HGet | baropi/baropi/testing/piredis.py:281-284 | `hget` is HGET on the prefixed key |
| Prefixed.Piredis.HSet | baropi/baropi/testing/piredis.py:286-289 | `hset` is HSET on the prefixed key |
| Readout.Truncate | baropi/baropi/readout.py:65 | `int(x)` truncates toward zero: the largest integer not above a non-negative `x`, the smallest not below a negative one |
| Readout.NearestOdd | baropi/baropi/readout.py:64-65 | the result is odd, and equals `int(x)` when that is odd and `int(x) + 1` when it is even |
| Readout.NearestOddIdempotent | baropi/baropi/readout.py:64-65 | applying `nearest_odd` to its own result changes nothing |

## Left out

- Connections: `make_redis_conn` and `make_strict_redis_conn` become a `Store` passed in. Host, port, password and database are not modelled.
- `Piredis.__init__`: the `uuid4()` client id and `client_setname` are not modelled. Neither is the connection it opens when none is given.
- `Piredis.encode` / `Piredis.decode` (pickle) are not modelled: pickle is a foreign serialiser, and no wrapper calls them.
- Piredis replies: `make_redis_conn` does not decode replies, so Python receives bytes. The model uses strings.
- Random ids: `os.urandom` and base64 are not modelled. The token is a parameter that must be 12 url-safe base64 characters.
- Concurrency: each command is atomic, and no other client writes between the two commands of `del l[i]`.
- Laziness: `__iter__` on dicts and lists is a generator. `Records.RedisDict.Items` and `Sequences.RedisList.Iter` compute all values up to the first error at once, from the store as it is at the call.
- Constructors: only `str`, `int` and child lists (`as_child`) are modelled as field and item constructors. `float`, `dict` and user classes are not.
- `int()` parsing: only an optional sign followed by ASCII digits. Surrounding whitespace, `_` separators and non-ASCII digits are not modelled.
- `str()` of values: only strings, integers and list handles. A `RedisList` handle is encoded as its id, because `__str__` returns the id.
- `Codec.DecodeValue`: a child-list constructor always gets its owning object as parent. This is how the schemas built with `as_child(self, ...)` use it.
- Ids are strings. Non-string ids (such as integers) are not modelled.
- `Identity.RedisObject.IsTruthy`: models `exists` as a boolean. With redis-py 3 and later, `exists` returns the count of existing keys, so `__bool__` returns an int and `bool(obj)` raises `TypeError`. The package does not pin a client version; the model follows the boolean client.
- Exception texts: `KeyError` messages carry the key only, not the formatted text naming the object.
- `Redis.ListIndex`, `Redis.ListSet`, `Redis.Range`, `Sequences.ReadOutOfRange`: list indices are unbounded integers. Redis parses LINDEX, LSET and LRANGE indices as signed 64-bit integers and replies "value is not an integer or out of range" outside `[-2**63, 2**63)`, so there the source raises where the model reads nil (the item default) or `OutOfRange`.
- Redis: only the commands the core uses are modelled. LREM is modelled with count 1 only, and SET without options.
- `Sequences.RedisList.GetRange`: takes integer bounds. Slices with missing start or stop are not modelled.
- `nearest_odd`: the argument is an exact rational `num / den` with `den > 0`. `int(x) / 2` is float division in Python. It is exact when `|int(x)| <= 2**53`, and for every float `x`: `int(x)` is then a Python int that a double represents exactly, so halving it is exact. The call at baropi/baropi/readout.py:76 passes a float. Larger int or Fraction arguments are not modelled: for them the division rounds (for `2**54 + 2` the result is below `int(x)`), and above about `1.8e308` it raises `OverflowError`. NaN and infinities are not modelled either.
- The rest of baropi is not part of this model: `cached.py`, the charts, the config and the services that use these objects.

## Findings

| source | as written | input that shows it | evidently intended | confidence | as-written member | corrected member |
|---|---|---|---|---|---|---|
| baropi/baropi/testing/piredis.py:149-156 | the step test reads `slice.step` on the built-in `slice` type, not on `index`; that test is always true, and `raise NotImplemented(...)` calls a constant that cannot be called, so every slice read raises `TypeError` | `l[0:2]` on any list | read `lrange(id, start, stop)` and decode each element | not executed | Sequences.RedisList.GetSlice | Sequences.RedisList.GetRange |
| baropi/baropi/testing/piredis.py:170-173 | delete writes the sentinel `__DELETED__` at the index, then LREM removes the first sentinel in the list; an earlier element equal to the sentinel is removed instead | `["__DELETED__", "a", "b"]`, `del l[2]` gives `["a", "__DELETED__"]` | remove exactly the element at the index | not executed | Sequences.SentinelDeleteReorders | Sequences.DeleteExactRemovesPosition |
