/**
 * The online tracker (internal/sms-gateway/online/service.go): `SetOnline`
 * records a device's last-seen time in a cache as an RFC 3339 string, and
 * the periodic `persist` drains that cache, parses the strings back (falling
 * back to the current time) and hands the batch to the device store in one
 * call. The clock, RFC 3339 formatting and parsing, and the device store are
 * parameters.
 */
module Online {
  import opened Wrappers
  import opened Clock
  import opened Cache

  /** The errors `persist` returns, wrapping the drain or the store failure. */
  datatype PersistError = DrainFailed(drainError: CacheError) | StoreFailed(storeError: string)

  /** The timestamps handed to the store: every drained device, its parsed time or `now`. */
  function LastSeen(items: map<string, string>, now: Time, parse: string -> Option<Time>): (r: map<string, Time>)
    ensures r.Keys == items.Keys
    ensures forall k :: k in items && parse(items[k]).Some? ==> r[k] == parse(items[k]).value
    ensures forall k :: k in items && parse(items[k]).None? ==> r[k] == now
  {
    map k | k in items :: match parse(items[k]) case Some(t) => t case None => now
  }

  /**
   * What one `persist` does after its `Drain`: the store calls it makes (in
   * order) and the error it returns.
   */
  function PersistOutcome(drained: Result<map<string, string>, CacheError>, now: Time,
                          parse: string -> Option<Time>, store: map<string, Time> -> Outcome<string>)
    : (r: (seq<map<string, Time>>, Outcome<PersistError>))
    ensures drained.Err? ==> r.0 == [] && r.1 == Fail(DrainFailed(drained.error))
    ensures drained.Ok? && |drained.value| == 0 ==> r.0 == [] && r.1 == Pass
    ensures drained.Ok? && |drained.value| > 0 ==>
              |r.0| == 1 && r.0[0].Keys == drained.value.Keys &&
              r.0[0] == LastSeen(drained.value, now, parse) &&
              (r.1 == Pass <==> store(r.0[0]) == Pass) &&
              (store(r.0[0]).Fail? ==> r.1 == Fail(StoreFailed(store(r.0[0]).error)))
  {
    match drained
    case Err(e) => ([], Fail(DrainFailed(e)))
    case Ok(items) =>
      if |items| == 0 then ([], Pass)
      else
        var timestamps := LastSeen(items, now, parse);
        match store(timestamps)
        case Pass => ([timestamps], Pass)
        case Fail(e) => ([timestamps], Fail(StoreFailed(e)))
  }

  /** A device seen since the last flush is handed to the store exactly once, with a time. */
  lemma SeenDeviceIsPersisted(drained: map<string, string>, id: string, now: Time,
                              parse: string -> Option<Time>, store: map<string, Time> -> Outcome<string>)
    requires id in drained
    ensures |PersistOutcome(Ok(drained), now, parse, store).0| == 1
    ensures id in PersistOutcome(Ok(drained), now, parse, store).0[0]
  {
    assert |drained| > 0 by {
      assert drained.Keys != {};
    }
  }

  /** `service`, over the in-memory cache. */
  class OnlineService {
    const cache: MemoryCache

    constructor (cache: MemoryCache)
      ensures this.cache == cache
    {
      this.cache := cache;
    }

    /** `SetOnline`: overwrite the device's entry with the formatted current time; no error reaches the caller. */
    method SetOnline(deviceId: string, now: Time, format: Time -> string)
      modifies cache
      ensures cache.items == old(cache.items)[deviceId := Entry(format(now), ItemExpiry(cache.ttl, [], now))]
    {
      var dt := format(now);
      cache.Set(deviceId, dt, [], now);
    }

    /**
     * `persist`: drain the cache and hand the parsed batch to the store; the
     * drained entries are gone whether or not the store accepts them.
     */
    method Persist(now: Time, parse: string -> Option<Time>, store: map<string, Time> -> Outcome<string>)
      returns (calls: seq<map<string, Time>>, err: Outcome<PersistError>)
      modifies cache
      ensures cache.items == map[]
      ensures (calls, err) == PersistOutcome(Ok(Snapshot(old(cache.items), now)), now, parse, store)
    {
      var items := cache.Drain(now);
      calls := [];
      err := Pass;
      if |items| == 0 {
        return;
      }
      var timestamps := LastSeen(items, now, parse);
      calls := [timestamps];
      var stored := store(timestamps);
      if stored.Fail? {
        err := Fail(StoreFailed(stored.error));
      }
    }
  }

  /**
   * A device marked online whose stored string no longer parses is still
   * persisted, stamped with the flush time, and a later flush has nothing to do.
   */
  method UnparseableTimestampFallsBack(id: string, seenAt: Time, flushAt: Time)
    returns (first: seq<map<string, Time>>, second: seq<map<string, Time>>)
    ensures first == [map[id := flushAt]]
    ensures second == []
  {
    var c := new MemoryCache(0);
    var svc := new OnlineService(c);
    svc.SetOnline(id, seenAt, (t: Time) => "not a timestamp");
    assert c.items == map[id := Entry("not a timestamp", Zero)];
    assert Live(c.items, id, flushAt);
    assert Snapshot(c.items, flushAt) == map[id := "not a timestamp"];
    var parse := (s: string) => None;
    var store := (m: map<string, Time>) => Pass;
    assert LastSeen(map[id := "not a timestamp"], flushAt, parse) == map[id := flushAt];
    assert |map[id := "not a timestamp"]| == 1;
    var err;
    first, err := svc.Persist(flushAt, parse, store);
    second, err := svc.Persist(flushAt, parse, store);
  }
}
