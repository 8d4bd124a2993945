/**
 * The expiring key/value store (pkg/cache): its error kinds, the entry and
 * expiry rule shared by every backend, the specification functions that say
 * what a lookup, a cleanup and a drain observe, and the in-memory backend
 * (pkg/cache/memory.go) as a class whose `items` map is updated in place.
 * Each locked method is one atomic step.
 */
module Cache {
  import opened Wrappers
  import opened Clock
  import opened CacheOptions

  /** `ErrKeyNotFound`, `ErrKeyExpired`, `ErrKeyExists`, and a wrapped backend error. */
  datatype CacheError = KeyNotFound | KeyExpired | KeyExists | BackendFailure(message: string)

  /** A stored value and its absolute deadline; a zero deadline never expires. */
  datatype Entry<V> = Entry(value: V, validUntil: Time)

  /** `memoryItem`. */
  type Item = Entry<string>

  /** `isExpired`: a non-zero deadline that `now` is strictly after. */
  predicate IsExpired<V>(e: Entry<V>, now: Time)
    ensures IsZero(e.validUntil) ==> !IsExpired(e, now)
    ensures IsExpired(e, now) ==> now > e.validUntil
  {
    !IsZero(e.validUntil) && After(now, e.validUntil)
  }

  /** The key holds an entry that has not expired at `now`. */
  predicate Live<V>(m: map<string, Entry<V>>, k: string, now: Time) {
    k in m && !IsExpired(m[k], now)
  }

  /** `getItem` followed by `getValue`: what a read of `k` at `now` yields. */
  function Lookup<V>(m: map<string, Entry<V>>, k: string, now: Time): (r: Result<V, CacheError>)
    ensures r == Err(KeyNotFound) <==> k !in m
    ensures r == Err(KeyExpired) <==> k in m && IsExpired(m[k], now)
    ensures r.Ok? <==> Live(m, k, now)
    ensures r.Ok? ==> r.value == m[k].value
  {
    if k !in m then Err(KeyNotFound)
    else if IsExpired(m[k], now) then Err(KeyExpired)
    else Ok(m[k].value)
  }

  /** The table after `cleanup` at `now`: the entries that have not expired. */
  function Unexpired<V>(m: map<string, Entry<V>>, now: Time): (r: map<string, Entry<V>>)
    ensures forall k :: k in r <==> Live(m, k, now)
    ensures forall k :: k in r ==> k in m && r[k] == m[k]
  {
    map k | k in m && !IsExpired(m[k], now) :: m[k]
  }

  /**
   * The stored values without their deadlines. The ensures restate the
   * comprehension; they are the reference definition `Drain`'s copy is
   * stated against.
   */
  function Values<V>(m: map<string, Entry<V>>): (r: map<string, V>)
    ensures r.Keys == m.Keys
    ensures forall k :: k in r ==> r[k] == m[k].value
  {
    map k | k in m :: m[k].value
  }

  /** What `Drain` returns at `now`: every unexpired key with its value. */
  function Snapshot<V>(m: map<string, Entry<V>>, now: Time): map<string, V> {
    Values(Unexpired(m, now))
  }

  /** The deadline a new item starts from: `now + ttl` for a positive instance TTL, else none. */
  function DefaultExpiry(ttl: Duration, now: Time): Time {
    if ttl > 0 then Add(now, ttl) else Zero
  }

  /** The deadline `newItem` gives: the instance default, then the per-call options. */
  function ItemExpiry(ttl: Duration, opts: seq<ExpiryOption>, now: Time): Time {
    Resolve(Options(DefaultExpiry(ttl, now)), opts, now).validUntil
  }

  /** Without options the instance TTL decides; otherwise the last option does. */
  lemma ItemExpiryRule(ttl: Duration, opts: seq<ExpiryOption>, now: Time)
    ensures opts == [] ==> ItemExpiry(ttl, opts, now) == (if ttl > 0 then now + ttl else Zero)
    ensures opts != [] ==> ItemExpiry(ttl, opts, now) == Deadline(opts[|opts| - 1], now)
  {
    LastOptionWins(Options(DefaultExpiry(ttl, now)), opts, now);
  }

  /** Once expired, an entry stays expired: time only makes it more so. */
  lemma ExpiryIsPermanent<V>(e: Entry<V>, now: Time, later: Time)
    requires now <= later && IsExpired(e, now)
    ensures IsExpired(e, later)
  {
  }

  /** Writing `k` then reading it returns the written value while the new deadline holds. */
  lemma SetThenGet(m: map<string, Item>, k: string, v: string, ttl: Duration,
                   opts: seq<ExpiryOption>, now: Time, later: Time)
    requires !IsExpired(Entry(v, ItemExpiry(ttl, opts, now)), later)
    ensures Lookup(m[k := Entry(v, ItemExpiry(ttl, opts, now))], k, later) == Ok(v)
  {
  }

  /**
   * After a cleanup at `now`, a key that was expired reads as absent (not as
   * expired) and every other read is unchanged.
   */
  lemma CleanupKeepsLiveReads<V>(m: map<string, Entry<V>>, k: string, now: Time)
    ensures Lookup(Unexpired(m, now), k, now) ==
            (if Live(m, k, now) then Lookup(m, k, now) else Err(KeyNotFound))
  {
  }

  /** A cleanup at the same instant finds nothing more to remove. */
  lemma CleanupIsIdempotent<V>(m: map<string, Entry<V>>, now: Time)
    ensures Unexpired(Unexpired(m, now), now) == Unexpired(m, now)
  {
  }

  /** A drain returns no expired entry and never more entries than the table held. */
  lemma {:induction false} SnapshotIsBounded<V>(m: map<string, Entry<V>>, now: Time)
    ensures Snapshot(m, now).Keys <= m.Keys
    ensures |Snapshot(m, now)| <= |m|
    ensures forall k :: k in Snapshot(m, now) ==> !IsExpired(m[k], now)
  {
    var s := Snapshot(m, now).Keys;
    assert s <= m.Keys;
    SubsetIsSmaller(s, m.Keys);
    assert |Snapshot(m, now)| == |s|;
    assert |m| == |m.Keys|;
  }

  lemma {:induction false} SubsetIsSmaller<T>(a: set<T>, b: set<T>)
    requires a <= b
    ensures |a| <= |b|
    decreases b
  {
    if a != {} {
      var x :| x in a;
      SubsetIsSmaller(a - {x}, b - {x});
    }
  }

  /**
   * `WithTTL` as written: a zero or negative duration still sets the deadline
   * `now + ttl`, so the item is expired one nanosecond after insertion
   * instead of never expiring.
   */
  lemma NonPositiveTTLExpiresAtOnce(v: string, instanceTtl: Duration, ttl: Duration, now: Time)
    requires ttl <= 0 && now + ttl > 0
    ensures IsExpired(Entry(v, ItemExpiry(instanceTtl, [WithTTL(ttl)], now)), now + 1)
  {
    ItemExpiryRule(instanceTtl, [WithTTL(ttl)], now);
  }

  /** The intended `WithTTL`: a non-positive duration gives an item that never expires. */
  lemma IntendedNonPositiveTTLNeverExpires(v: string, o: Options, ttl: Duration, now: Time, later: Time)
    requires ttl <= 0
    ensures !IsExpired(Entry(v, RunIntended(WithTTL(ttl), o, now).validUntil), later)
  {
  }

  /** `memoryCache`: a table of items and the instance TTL. */
  class MemoryCache {
    var items: map<string, Item>
    const ttl: Duration

    /** `NewMemory`. */
    constructor (ttl: Duration)
      ensures this.ttl == ttl && items == map[]
    {
      this.ttl := ttl;
      items := map[];
    }

    /** `newItem`: the instance default deadline, overridden by the options in order. */
    method NewItem(value: string, opts: seq<ExpiryOption>, now: Time) returns (item: Item)
      ensures item.value == value
      ensures opts == [] ==> item.validUntil == (if ttl > 0 then now + ttl else Zero)
      ensures opts != [] ==> item.validUntil == Deadline(opts[|opts| - 1], now)
      ensures item.validUntil == ItemExpiry(ttl, opts, now)
    {
      var o := Options(Zero);
      if ttl > 0 {
        o := Options(Add(now, ttl));
      }
      o := Apply(o, opts, now);
      item := Entry(value, o.validUntil);
      ItemExpiryRule(ttl, opts, now);
    }

    /** `Set`: unconditional upsert of value and deadline; never fails. */
    method Set(key: string, value: string, opts: seq<ExpiryOption>, now: Time)
      modifies this
      ensures items == old(items)[key := Entry(value, ItemExpiry(ttl, opts, now))]
    {
      var item := NewItem(value, opts, now);
      items := items[key := item];
    }

    /**
     * `SetOrFail`: fails with `KeyExists`, changing nothing, exactly when an
     * unexpired entry holds the key; an absent or expired entry is replaced.
     */
    method SetOrFail(key: string, value: string, opts: seq<ExpiryOption>, now: Time)
      returns (r: Outcome<CacheError>)
      modifies this
      ensures Live(old(items), key, now) ==> r == Fail(KeyExists) && items == old(items)
      ensures !Live(old(items), key, now) ==>
                r == Pass && items == old(items)[key := Entry(value, ItemExpiry(ttl, opts, now))]
    {
      if key in items {
        if !IsExpired(items[key], now) {
          return Fail(KeyExists);
        }
      }
      var item := NewItem(value, opts, now);
      items := items[key := item];
      r := Pass;
    }

    /** `Get`: reads without removing; an expired entry stays in the table. */
    method Get(key: string, now: Time) returns (r: Result<string, CacheError>)
      ensures r == Err(KeyNotFound) <==> key !in items
      ensures r == Err(KeyExpired) <==> key in items && IsExpired(items[key], now)
      ensures r.Ok? <==> Live(items, key, now)
      ensures r.Ok? ==> key in items && r.value == items[key].value
      ensures r == Lookup(items, key, now)
    {
      if key !in items {
        return Err(KeyNotFound);
      }
      var item := items[key];
      if IsExpired(item, now) {
        return Err(KeyExpired);
      }
      r := Ok(item.value);
    }

    /**
     * `GetAndDelete`: removes the key whatever it held, and reports what a
     * `Get` just before would have reported.
     */
    method GetAndDelete(key: string, now: Time) returns (r: Result<string, CacheError>)
      modifies this
      ensures items == old(items) - {key}
      ensures r == Lookup(old(items), key, now)
    {
      var found := key in items;
      var item := if found then items[key] else Entry("", Zero);
      items := items - {key};
      if !found {
        return Err(KeyNotFound);
      }
      if IsExpired(item, now) {
        return Err(KeyExpired);
      }
      r := Ok(item.value);
    }

    /** `Delete`: removes only `key`; idempotent and never fails. */
    method Delete(key: string)
      modifies this
      ensures items == old(items) - {key}
    {
      items := items - {key};
    }

    /** `cleanup` (and `Cleanup`): deletes exactly the entries expired at `now`. */
    method Cleanup(now: Time)
      modifies this
      ensures items == Unexpired(old(items), now)
    {
      var pending := items.Keys;
      while pending != {}
        invariant pending <= old(items).Keys
        invariant forall k :: k in items <==> k in old(items) && (k in pending || !IsExpired(old(items)[k], now))
        invariant forall k :: k in items ==> items[k] == old(items)[k]
        decreases pending
      {
        var key :| key in pending;
        if IsExpired(items[key], now) {
          items := items - {key};
        }
        pending := pending - {key};
      }
      assert items == Unexpired(old(items), now);
    }

    /**
     * `Drain`: removes expired entries, swaps the table for an empty one and
     * copies the values out of the old table.
     */
    method Drain(now: Time) returns (out: map<string, string>)
      modifies this
      ensures out == Snapshot(old(items), now)
      ensures items == map[]
    {
      Cleanup(now);
      var cpy := items;
      items := map[];
      out := map[];
      var pending := cpy.Keys;
      while pending != {}
        invariant pending <= cpy.Keys
        invariant out == map k | k in cpy.Keys - pending :: cpy[k].value
        decreases pending
      {
        var key :| key in pending;
        out := out[key := cpy[key].value];
        pending := pending - {key};
      }
      assert cpy.Keys - pending == cpy.Keys;
    }
  }

  /**
   * Many `SetOrFail` calls on one key of a cache without TTL: only the first
   * succeeds and every later one reports `KeyExists`.
   */
  method SetOrFailSucceedsOnce(key: string, value: string, attempts: nat, now: Time)
    returns (firstOk: bool, successes: nat, conflicts: nat)
    requires attempts > 0
    ensures firstOk
    ensures successes == 1
    ensures conflicts == attempts - 1
  {
    var c := new MemoryCache(0);
    successes, conflicts := 0, 0;
    firstOk := false;
    var i := 0;
    while i < attempts
      invariant 0 <= i <= attempts
      invariant i == 0 ==> key !in c.items && successes == 0 && conflicts == 0
      invariant i > 0 ==> Live(c.items, key, now) && firstOk && successes == 1 && conflicts == i - 1
    {
      var r := c.SetOrFail(key, value, [], now);
      if r.Pass? {
        successes := successes + 1;
      } else {
        conflicts := conflicts + 1;
      }
      if i == 0 {
        firstOk := r.Pass?;
      }
      i := i + 1;
    }
  }

  /**
   * Two drains in a row: the second finds the table the first emptied, so no
   * key is returned twice.
   */
  method SecondDrainIsEmpty(c: MemoryCache, now: Time, later: Time)
    returns (first: map<string, string>, second: map<string, string>)
    modifies c
    ensures first == Snapshot(old(c.items), now)
    ensures second == map[]
    ensures first.Keys !! second.Keys
  {
    first := c.Drain(now);
    second := c.Drain(later);
  }

  /**
   * A live and an already-expired entry: `Drain` returns only the live one,
   * and a `Get` of the expired key afterwards reports it absent, not expired.
   */
  method DrainDropsExpired(now: Time) returns (drained: map<string, string>, after: Result<string, CacheError>)
    requires now > 0
    ensures drained == map["valid-key" := "valid-value"]
    ensures after == Err(KeyNotFound)
  {
    var c := new MemoryCache(0);
    c.Set("valid-key", "valid-value", [], now);
    c.Set("expired-key", "expired-value", [WithTTL(Millisecond)], now);
    drained := c.Drain(now + 10 * Millisecond);
    after := c.Get("expired-key", now + 10 * Millisecond);
  }
}
