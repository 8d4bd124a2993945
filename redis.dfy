/**
 * The Redis backend of the expiring cache (pkg/cache/redis.go). The server
 * side is an abstract hash: field name to value and per-field deadline
 * (`Zero` for none). Redis drops a field once its deadline has passed, so
 * every read sees only the fields that are `Live` at `now`. Each Redis call
 * or Lua script is one atomic step; network failures are not modelled.
 */
module Redis {
  import opened Wrappers
  import opened Clock
  import opened CacheOptions
  import opened Cache

  /** `redisCacheKey`. */
  const CacheKey: string := "cache"

  /** The error text of a failed field-expiry call. */
  const TtlNotSet: string := "can't set cache item ttl"

  predicate HasSuffix(s: string, suffix: string) {
    |suffix| <= |s| && s[|s| - |suffix|..] == suffix
  }

  /**
   * The hash name `NewRedis` derives from the prefix: a non-empty prefix is
   * kept and separated from "cache" by exactly one ':'; an empty prefix
   * yields "cache" alone.
   */
  function HashKey(prefix: string): (key: string)
    ensures HasSuffix(key, CacheKey)
    ensures prefix == "" ==> key == CacheKey
    ensures prefix != "" ==> |prefix| < |key| && key[..|prefix|] == prefix
    ensures prefix != "" ==> HasSuffix(key, ":" + CacheKey)
    ensures prefix != "" && HasSuffix(prefix, ":") ==> key == prefix + CacheKey
    ensures prefix != "" && !HasSuffix(prefix, ":") ==> key == prefix + ":" + CacheKey
  {
    var p := if prefix != "" && !HasSuffix(prefix, ":") then prefix + ":" else prefix;
    assert p != "" ==> p[|p| - 1] == ':';
    var key := p + CacheKey;
    assert key[|key| - |CacheKey|..] == CacheKey;
    assert p != "" ==> key[|key| - |":" + CacheKey|..] == ":" + CacheKey;
    assert prefix != "" ==> key[..|prefix|] == prefix;
    key
  }

  /** A prefix with or without its trailing ':' names the same hash. */
  lemma TrailingSeparatorIsOptional(prefix: string)
    requires prefix != "" && !HasSuffix(prefix, ":")
    ensures HashKey(prefix + ":") == HashKey(prefix)
  {
    assert HasSuffix(prefix + ":", ":");
  }

  /** One element of an `EVAL` array reply. */
  datatype ReplyItem = Str(s: string) | NonStr

  /** The reply of `EVAL`: an array, or anything else. */
  datatype Reply = Array(items: seq<ReplyItem>) | Scalar

  /** `arr[i].(string)` with the ignored `ok`: a non-string reads as "". */
  function AsString(x: ReplyItem): string {
    if x.Str? then x.s else ""
  }

  /**
   * The reply read element by element. The pointwise ensures restate the
   * comprehension; they are the reference definition `DecodeDrainReply`'s
   * loop is proved against.
   */
  function Strings(items: seq<ReplyItem>): (r: seq<string>)
    ensures |r| == |items|
    ensures forall i :: 0 <= i < |items| ==> r[i] == AsString(items[i])
  {
    seq(|items|, i requires 0 <= i < |items| => AsString(items[i]))
  }

  /** The map a flat `[f1, v1, f2, v2, ...]` list denotes; a later pair overrides an earlier one. */
  function PairsMap(flat: seq<string>): map<string, string>
    requires |flat| % 2 == 0
    decreases |flat|
  {
    if flat == [] then map[]
    else PairsMap(flat[..|flat| - 2])[flat[|flat| - 2] := flat[|flat| - 1]]
  }

  lemma PairsMapStep(flat: seq<string>, i: nat)
    requires |flat| % 2 == 0 && i % 2 == 0 && i + 2 <= |flat|
    ensures PairsMap(flat[..i + 2]) == PairsMap(flat[..i])[flat[i] := flat[i + 1]]
  {
    assert flat[..i + 2][..i] == flat[..i];
  }

  /** `HGETALL`'s reply for `m`, listing its fields in the order `order`. */
  function Flatten(order: seq<string>, m: map<string, string>): (flat: seq<string>)
    requires forall i :: 0 <= i < |order| ==> order[i] in m
    ensures |flat| == 2 * |order|
    decreases |order|
  {
    if order == [] then []
    else
      var k := order[|order| - 1];
      Flatten(order[..|order| - 1], m) + [k, m[k]]
  }

  /**
   * Decoding undoes `HGETALL`'s flattening whatever order the server lists
   * the fields in: the decoded map holds exactly the listed fields, each with
   * its value.
   */
  lemma {:induction false} DecodeInvertsFlatten(order: seq<string>, m: map<string, string>)
    requires forall i :: 0 <= i < |order| ==> order[i] in m
    ensures PairsMap(Flatten(order, m)) == map k | k in order :: m[k]
    decreases |order|
  {
    if order != [] {
      var init := order[..|order| - 1];
      var k := order[|order| - 1];
      DecodeInvertsFlatten(init, m);
      var flat := Flatten(order, m);
      assert flat[..|flat| - 2] == Flatten(init, m);
      assert forall x :: x in order <==> x in init || x == k;
    }
  }

  /** In an even-length reply, an even index below the length starts a whole pair. */
  lemma PairInRange(n: nat, i: nat)
    requires n % 2 == 0 && i % 2 == 0 && i < n
    ensures i + 1 < n
  {
  }

  /**
   * The decoding in `Drain`: a non-array or empty reply gives an empty map;
   * otherwise the pairs are read two at a time (the reply must have an even
   * length, or the Go loop indexes past its end).
   */
  method DecodeDrainReply(res: Reply) returns (out: map<string, string>)
    requires res.Array? ==> |res.items| % 2 == 0
    ensures !res.Array? ==> out == map[]
    ensures res.Array? ==> out == PairsMap(Strings(res.items))
  {
    if !res.Array? || |res.items| == 0 {
      return map[];
    }
    var arr := res.items;
    ghost var flat := Strings(arr);
    out := map[];
    var i := 0;
    while i < |arr|
      invariant 0 <= i <= |arr| && i % 2 == 0
      invariant out == PairsMap(flat[..i])
    {
      PairInRange(|arr|, i);
      PairsMapStep(flat, i);
      var f := AsString(arr[i]);
      var v := AsString(arr[i + 1]);
      assert f == flat[i] && v == flat[i + 1];
      out := out[f := v];
      i := i + 2;
    }
    assert flat[..i] == flat;
  }

  /** `redisCache`: the hash name, the instance TTL and the server-side hash. */
  class RedisCache {
    const key: string
    const ttl: Duration
    var hash: map<string, Item>

    /** `NewRedis`, over whatever the server's hash already holds. */
    constructor (prefix: string, ttl: Duration, server: map<string, Item>)
      ensures key == HashKey(prefix) && this.ttl == ttl && hash == server
    {
      key := HashKey(prefix);
      this.ttl := ttl;
      hash := server;
    }

    /** The deadline `Set` and `SetOrFail` compute: instance TTL, then options. */
    method ResolveExpiry(opts: seq<ExpiryOption>, now: Time) returns (validUntil: Time)
      ensures validUntil == ItemExpiry(ttl, opts, now)
    {
      var o := Options(Zero);
      if ttl > 0 {
        o := Options(Add(now, ttl));
      }
      o := Apply(o, opts, now);
      validUntil := o.validUntil;
    }

    /** `Cleanup`: Redis expires fields itself, so there is nothing to do. */
    method Cleanup() returns (r: Outcome<CacheError>)
      ensures r == Pass
    {
      r := Pass;
    }

    /** `Delete`: `HDEL` of the one field. */
    method Delete(field: string)
      modifies this
      ensures hash == old(hash) - {field}
    {
      hash := hash - {field};
    }

    /** `Get`: `HGET`; a missing or expired field is `KeyNotFound`, never `KeyExpired`. */
    method Get(field: string, now: Time) returns (r: Result<string, CacheError>)
      ensures r.Ok? <==> Live(hash, field, now)
      ensures r.Ok? ==> r.value == hash[field].value
      ensures r.Err? ==> r.error == KeyNotFound
    {
      if Live(hash, field, now) {
        r := Ok(hash[field].value);
      } else {
        r := Err(KeyNotFound);
      }
    }

    /** `getAndDeleteScript`: returns and removes a live field; otherwise `KeyNotFound`, hash unchanged. */
    method GetAndDelete(field: string, now: Time) returns (r: Result<string, CacheError>)
      modifies this
      ensures Live(old(hash), field, now) ==>
                r == Ok(old(hash)[field].value) && hash == old(hash) - {field}
      ensures !Live(old(hash), field, now) ==> r == Err(KeyNotFound) && hash == old(hash)
    {
      if Live(hash, field, now) {
        var value := hash[field].value;
        hash := hash - {field};
        r := Ok(value);
      } else {
        r := Err(KeyNotFound);
      }
    }

    /**
     * `HEXPIREAT key t FIELDS n f1 .. fn` at `now`: sets the deadline of each
     * named field that is still live (Redis has already dropped an expired
     * one); Redis rejects a call that names no field.
     */
    method ExpireAt(fields: seq<string>, t: Time, now: Time) returns (ok: bool)
      modifies this
      ensures ok == (|fields| > 0)
      ensures ok ==> hash == map k | k in old(hash) ::
                               if k in fields && Live(old(hash), k, now) then Entry(old(hash)[k].value, t) else old(hash)[k]
      ensures !ok ==> hash == old(hash)
    {
      ok := |fields| > 0;
      if ok {
        hash := map k | k in hash :: if k in fields && Live(hash, k, now) then Entry(hash[k].value, t) else hash[k];
      }
    }

    /**
     * `Set`: `HSET` (which clears any earlier deadline of the field), then,
     * only for a non-zero resolved deadline, `HEXPIREAT` on that field.
     */
    method Set(field: string, value: string, opts: seq<ExpiryOption>, now: Time)
      returns (r: Outcome<CacheError>)
      modifies this
      ensures r == Pass
      ensures hash == old(hash)[field := Entry(value, ItemExpiry(ttl, opts, now))]
    {
      var validUntil := ResolveExpiry(opts, now);
      hash := hash[field := Entry(value, Zero)];
      if !IsZero(validUntil) {
        var ok := ExpireAt([field], validUntil, now);
      }
      r := Pass;
    }

    /**
     * `SetOrFail` as written: `HSETNX`, then `HEXPIREAT` naming no field. A
     * live field gives `KeyExists` and is kept; otherwise the field is stored
     * WITHOUT a deadline and, when a deadline was due, the call reports the
     * rejected expiry call.
     */
    method SetOrFail(field: string, value: string, opts: seq<ExpiryOption>, now: Time)
      returns (r: Outcome<CacheError>)
      modifies this
      ensures Live(old(hash), field, now) ==> r == Fail(KeyExists) && hash == old(hash)
      ensures !Live(old(hash), field, now) ==> hash == old(hash)[field := Entry(value, Zero)]
      ensures !Live(old(hash), field, now) ==>
                r == (if IsZero(ItemExpiry(ttl, opts, now)) then Pass else Fail(BackendFailure(TtlNotSet)))
    {
      if Live(hash, field, now) {
        return Fail(KeyExists);
      }
      hash := hash[field := Entry(value, Zero)];
      var validUntil := ResolveExpiry(opts, now);
      if !IsZero(validUntil) {
        var ok := ExpireAt([], validUntil, now);
        if !ok {
          return Fail(BackendFailure(TtlNotSet));
        }
      }
      r := Pass;
    }

    /** `SetOrFail` with the field named in `HEXPIREAT`, as `Set` does it. */
    method SetOrFailWithFieldTtl(field: string, value: string, opts: seq<ExpiryOption>, now: Time)
      returns (r: Outcome<CacheError>)
      modifies this
      ensures Live(old(hash), field, now) ==> r == Fail(KeyExists) && hash == old(hash)
      ensures !Live(old(hash), field, now) ==>
                r == Pass && hash == old(hash)[field := Entry(value, ItemExpiry(ttl, opts, now))]
    {
      if Live(hash, field, now) {
        return Fail(KeyExists);
      }
      hash := hash[field := Entry(value, Zero)];
      var validUntil := ResolveExpiry(opts, now);
      if !IsZero(validUntil) {
        var ok := ExpireAt([field], validUntil, now);
      }
      r := Pass;
    }

    /** `HGETALL`: every live field and its value, flattened in an order the server chooses. */
    method HGetAll(now: Time) returns (flat: seq<string>)
      ensures |flat| % 2 == 0
      ensures PairsMap(flat) == Snapshot(hash, now)
    {
      var values := Snapshot(hash, now);
      flat := [];
      ghost var order: seq<string> := [];
      var unlisted := values.Keys;
      while unlisted != {}
        invariant unlisted <= values.Keys
        invariant forall i :: 0 <= i < |order| ==> order[i] in values
        invariant forall k :: k in values <==> k in unlisted || k in order
        invariant flat == Flatten(order, values)
        decreases unlisted
      {
        var k :| k in unlisted;
        ghost var before := order;
        flat := flat + [k, values[k]];
        order := order + [k];
        assert order[..|order| - 1] == before;
        unlisted := unlisted - {k};
      }
      DecodeInvertsFlatten(order, values);
    }

    /** The `HDEL` loop of the drain script: deletes every field the flat list names. */
    method DeleteListed(flat: seq<string>)
      requires |flat| % 2 == 0
      modifies this
      ensures hash == map k | k in old(hash) && k !in PairsMap(flat) :: old(hash)[k]
    {
      var i := 0;
      while i < |flat|
        invariant 0 <= i <= |flat| && i % 2 == 0
        invariant hash == map k | k in old(hash) && k !in PairsMap(flat[..i]) :: old(hash)[k]
      {
        PairsMapStep(flat, i);
        hash := hash - {flat[i]};
        i := i + 2;
      }
      assert flat[..i] == flat;
    }

    /**
     * `hgetallAndDeleteScript`: lists every live field with its value and
     * deletes each listed field, leaving the hash empty.
     */
    method DrainScript(now: Time) returns (flat: seq<string>)
      modifies this
      ensures |flat| % 2 == 0
      ensures PairsMap(flat) == Snapshot(old(hash), now)
      ensures hash == map[]
    {
      hash := Unexpired(hash, now);
      flat := HGetAll(now);
      assert Snapshot(hash, now) == Snapshot(old(hash), now);
      DeleteListed(flat);
    }

    /** `Drain`: runs the script and decodes its array reply. */
    method Drain(now: Time) returns (out: map<string, string>)
      modifies this
      ensures out == Snapshot(old(hash), now)
      ensures hash == map[]
    {
      var flat := DrainScript(now);
      var reply := Array(seq(|flat|, i requires 0 <= i < |flat| => Str(flat[i])));
      assert Strings(reply.items) == flat;
      out := DecodeDrainReply(reply);
    }
  }

  /**
   * `SetOrFail` as written on a cache with a one-minute TTL: the call reports
   * an error, yet the field was stored and is still readable an hour later.
   */
  method SetOrFailLosesTtl(now: Time) returns (r: Outcome<CacheError>, later: Result<string, CacheError>)
    requires now > 0
    ensures r == Fail(BackendFailure(TtlNotSet))
    ensures later == Ok("v")
  {
    var c := new RedisCache("", Minute, map[]);
    r := c.SetOrFail("k", "v", [], now);
    later := c.Get("k", now + Hour);
  }

  /** With the field named, the same call succeeds and the field is gone an hour later. */
  method SetOrFailWithFieldTtlExpires(now: Time) returns (r: Outcome<CacheError>, later: Result<string, CacheError>)
    requires now > 0
    ensures r == Pass
    ensures later == Err(KeyNotFound)
  {
    var c := new RedisCache("", Minute, map[]);
    r := c.SetOrFailWithFieldTtl("k", "v", [], now);
    later := c.Get("k", now + Hour);
  }
}
