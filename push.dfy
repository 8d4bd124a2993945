/**
 * The push dispatcher (internal/sms-gateway/modules/push/service.go):
 * debounced coalescing of one pending event per token, one batched send per
 * flush, per-token retry counting and blacklisting. The two generic
 * in-memory caches it owns are maps of `Cache.Entry` read through the same
 * expiry rule as pkg/cache. The ticker loop of `Run` is one call of
 * `SendAll`; the transport is a function from the batch to its reply.
 */
module Push {
  import opened Wrappers
  import opened Clock
  import opened Cache

  /** `types.Event`. */
  datatype PushEvent = PushEvent(eventType: string, data: map<string, string>)

  /** `eventWrapper`: a pending item for one token. */
  datatype EventWrapper = EventWrapper(token: string, event: PushEvent, retries: nat)

  /** The two durations of `Config` the dispatcher reads. */
  datatype Config = Config(debounce: Duration, timeout: Duration)

  /** The transport's answer: the tokens with a per-token error, and whether the call itself failed. */
  datatype SendReply = SendReply(failed: set<string>, transportError: bool)

  const MinDebounce: Duration := 5 * Second

  /** The floors `New` applies: a zero timeout becomes 1s, a debounce below 5s becomes 5s. */
  function WithFloors(c: Config): (r: Config)
    ensures r.debounce >= MinDebounce
    ensures c.debounce >= MinDebounce ==> r.debounce == c.debounce
    ensures c.debounce < MinDebounce ==> r.debounce == MinDebounce
    ensures r.timeout != 0
    ensures c.timeout != 0 ==> r.timeout == c.timeout
    ensures c.timeout == 0 ==> r.timeout == Second
  {
    var timeout := if c.timeout == 0 then Second else c.timeout;
    var debounce := if c.debounce < MinDebounce then MinDebounce else c.debounce;
    Config(debounce, timeout)
  }

  /** Applying the floors twice changes nothing more. */
  lemma FloorsAreIdempotent(c: Config)
    ensures WithFloors(WithFloors(c)) == WithFloors(c)
  {
  }

  /**
   * The batch handed to the transport: each drained token with its event.
   * The ensures restate the comprehension; they serve as the reference
   * definition the flush is stated against.
   */
  function Messages(targets: map<string, EventWrapper>): (m: map<string, PushEvent>)
    ensures m.Keys == targets.Keys
    ensures forall t :: t in m ==> m[t] == targets[t].event
  {
    map t | t in targets :: targets[t].event
  }

  function Bumped(w: EventWrapper): EventWrapper {
    w.(retries := w.retries + 1)
  }

  /** The failed tokens whose incremented retry count reaches `maxRetries`. */
  function Exhausted(targets: map<string, EventWrapper>, failed: set<string>, maxRetries: int): set<string>
    requires failed <= targets.Keys
  {
    set t | t in failed && Bumped(targets[t]).retries >= maxRetries
  }

  /**
   * The pending items a retry pass puts back: failed tokens still under
   * `maxRetries` whose key no newer item occupies, with the count incremented.
   */
  function Requeued(pending: map<string, Entry<EventWrapper>>, targets: map<string, EventWrapper>,
                    failed: set<string>, maxRetries: int, now: Time): map<string, Entry<EventWrapper>>
    requires failed <= targets.Keys
  {
    map t | t in failed && Bumped(targets[t]).retries < maxRetries && !Live(pending, t, now)
      :: Entry(Bumped(targets[t]), Zero)
  }

  /** Blacklist entries for the exhausted tokens, each with the blacklist's TTL. */
  function BlacklistEntries(tokens: set<string>, blacklistTimeout: Duration, now: Time): map<string, Entry<()>> {
    map t | t in tokens :: Entry((), DefaultExpiry(blacklistTimeout, now))
  }

  /** A retry pass never both blacklists and re-queues a token. */
  lemma RetryOrBlacklist(pending: map<string, Entry<EventWrapper>>, targets: map<string, EventWrapper>,
                         failed: set<string>, maxRetries: int, now: Time)
    requires failed <= targets.Keys
    ensures Requeued(pending, targets, failed, maxRetries, now).Keys !! Exhausted(targets, failed, maxRetries)
    ensures Requeued(pending, targets, failed, maxRetries, now).Keys <= failed
  {
  }

  /** Adding one failed token to a retry pass adds at most its own re-queued item. */
  lemma RequeuedStep(pending: map<string, Entry<EventWrapper>>, targets: map<string, EventWrapper>,
                     done: set<string>, t: string, maxRetries: int, now: Time)
    requires done <= targets.Keys && t in targets && t !in done
    ensures Requeued(pending, targets, done + {t}, maxRetries, now) ==
            (if Bumped(targets[t]).retries < maxRetries && !Live(pending, t, now)
             then Requeued(pending, targets, done, maxRetries, now)[t := Entry(Bumped(targets[t]), Zero)]
             else Requeued(pending, targets, done, maxRetries, now))
  {
  }

  /** Adding one failed token to a retry pass adds at most its own blacklist entry. */
  lemma BlacklistStep(targets: map<string, EventWrapper>, done: set<string>, t: string,
                      maxRetries: int, blacklistTimeout: Duration, now: Time)
    requires done <= targets.Keys && t in targets && t !in done
    ensures BlacklistEntries(Exhausted(targets, done + {t}, maxRetries), blacklistTimeout, now) ==
            (if Bumped(targets[t]).retries >= maxRetries
             then BlacklistEntries(Exhausted(targets, done, maxRetries), blacklistTimeout, now)[t := Entry((), DefaultExpiry(blacklistTimeout, now))]
             else BlacklistEntries(Exhausted(targets, done, maxRetries), blacklistTimeout, now))
  {
    if Bumped(targets[t]).retries >= maxRetries {
      assert Exhausted(targets, done + {t}, maxRetries) == Exhausted(targets, done, maxRetries) + {t};
    } else {
      assert Exhausted(targets, done + {t}, maxRetries) == Exhausted(targets, done, maxRetries);
    }
  }

  /** Every pending item sits under its own token and carries no deadline. */
  ghost predicate WellKeyed(pending: map<string, Entry<EventWrapper>>) {
    forall t :: t in pending ==> pending[t].value.token == t && IsZero(pending[t].validUntil)
  }

  /** One iteration of the retry loop, on the pending cache. */
  lemma RetryPendingStep(pending0: map<string, Entry<EventWrapper>>, pending: map<string, Entry<EventWrapper>>,
                         pending': map<string, Entry<EventWrapper>>,
                         targets: map<string, EventWrapper>, done: set<string>, t: string,
                         maxRetries: int, now: Time)
    requires done <= targets.Keys && t in targets && t !in done
    requires pending == pending0 + Requeued(pending0, targets, done, maxRetries, now)
    requires pending' ==
             (if Bumped(targets[t]).retries >= maxRetries || Live(pending, t, now) then pending
              else pending[t := Entry(Bumped(targets[t]), Zero)])
    ensures pending' == pending0 + Requeued(pending0, targets, done + {t}, maxRetries, now)
  {
    var before := Requeued(pending0, targets, done, maxRetries, now);
    RequeuedStep(pending0, targets, done, t, maxRetries, now);
    if Bumped(targets[t]).retries < maxRetries {
      assert t !in before;
      assert Live(pending, t, now) == Live(pending0, t, now);
      if !Live(pending0, t, now) {
        var e := Entry(Bumped(targets[t]), Zero);
        assert (pending0 + before)[t := e] == pending0 + before[t := e];
      }
    }
  }

  /** One iteration of the retry loop, on the blacklist. */
  lemma RetryBlacklistStep(blacklist0: map<string, Entry<()>>, blacklist: map<string, Entry<()>>,
                           blacklist': map<string, Entry<()>>,
                           targets: map<string, EventWrapper>, done: set<string>, t: string,
                           maxRetries: int, blacklistTimeout: Duration, now: Time)
    requires done <= targets.Keys && t in targets && t !in done
    requires blacklist == blacklist0 + BlacklistEntries(Exhausted(targets, done, maxRetries), blacklistTimeout, now)
    requires blacklist' ==
             (if Bumped(targets[t]).retries >= maxRetries
              then blacklist[t := Entry((), DefaultExpiry(blacklistTimeout, now))] else blacklist)
    ensures blacklist' == blacklist0 + BlacklistEntries(Exhausted(targets, done + {t}, maxRetries), blacklistTimeout, now)
  {
    BlacklistStep(targets, done, t, maxRetries, blacklistTimeout, now);
    if Bumped(targets[t]).retries >= maxRetries {
      var before := BlacklistEntries(Exhausted(targets, done, maxRetries), blacklistTimeout, now);
      var e := Entry((), DefaultExpiry(blacklistTimeout, now));
      assert (blacklist0 + before)[t := e] == blacklist0 + before[t := e];
    }
  }

  /** One iteration of the retry loop keeps every pending item under its own token. */
  lemma RetryKeepsWellKeyed(pending: map<string, Entry<EventWrapper>>, pending': map<string, Entry<EventWrapper>>,
                            targets: map<string, EventWrapper>, t: string, maxRetries: int, now: Time)
    requires t in targets && targets[t].token == t
    requires WellKeyed(pending)
    requires pending' ==
             (if Bumped(targets[t]).retries >= maxRetries || Live(pending, t, now) then pending
              else pending[t := Entry(Bumped(targets[t]), Zero)])
    ensures WellKeyed(pending')
  {
  }

  /** `Service`: configuration, retry policy, the pending cache and the blacklist. */
  class Service {
    const config: Config
    const maxRetries: int
    const blacklistTimeout: Duration
    var pending: map<string, Entry<EventWrapper>>
    var blacklist: map<string, Entry<()>>

    /** Every pending item sits under its own token and, as the pending cache has no TTL, never expires. */
    ghost predicate Valid()
      reads this
    {
      WellKeyed(pending)
    }

    /** `New`; `maxRetries` and `blacklistTimeout` are the package constants. */
    constructor (config: Config, maxRetries: int, blacklistTimeout: Duration)
      ensures Valid()
      ensures this.config == WithFloors(config)
      ensures this.maxRetries == maxRetries && this.blacklistTimeout == blacklistTimeout
      ensures pending == map[] && blacklist == map[]
    {
      this.config := WithFloors(config);
      this.maxRetries := maxRetries;
      this.blacklistTimeout := blacklistTimeout;
      pending := map[];
      blacklist := map[];
    }

    /**
     * `Enqueue`: a blacklisted token is skipped; any other token gets a fresh
     * item with no retries, replacing whatever was pending for it.
     */
    method Enqueue(token: string, event: PushEvent, now: Time)
      requires Valid()
      modifies this
      ensures Valid()
      ensures blacklist == old(blacklist)
      ensures Live(old(blacklist), token, now) ==> pending == old(pending)
      ensures !Live(old(blacklist), token, now) ==>
                pending == old(pending)[token := Entry(EventWrapper(token, event, 0), Zero)]
    {
      if Lookup(blacklist, token, now).Ok? {
        return;
      }
      var wrapper := EventWrapper(token, event, 0);
      pending := pending[token := Entry(wrapper, DefaultExpiry(0, now))];
    }

    /** The `Drain` that starts `sendAll`. */
    method TakePending(now: Time) returns (targets: map<string, EventWrapper>)
      requires Valid()
      modifies this
      ensures Valid()
      ensures targets == Snapshot(old(pending), now)
      ensures forall t :: t in targets ==> targets[t].token == t
      ensures pending == map[] && blacklist == old(blacklist)
    {
      targets := Snapshot(pending, now);
      pending := map[];
    }

    /**
     * The part of `sendAll` after the transport call. A transport error drops
     * the batch. Otherwise each failed token's retry count goes up by one; at
     * `maxRetries` the token is blacklisted, below it the item is put back
     * with `SetOrFail`, which keeps an item enqueued meanwhile. Delivered
     * tokens need nothing.
     */
    method ApplyReply(targets: map<string, EventWrapper>, reply: SendReply, now: Time)
      requires Valid()
      requires reply.failed <= targets.Keys
      requires forall t :: t in targets ==> targets[t].token == t
      modifies this
      ensures Valid()
      ensures reply.transportError ==> pending == old(pending) && blacklist == old(blacklist)
      ensures !reply.transportError ==>
                pending == old(pending) + Requeued(old(pending), targets, reply.failed, maxRetries, now)
      ensures !reply.transportError ==>
                blacklist == old(blacklist) + BlacklistEntries(Exhausted(targets, reply.failed, maxRetries), blacklistTimeout, now)
    {
      if |reply.failed| == 0 && !reply.transportError {
        return;
      }
      if reply.transportError {
        return;
      }
      RetryFailed(targets, reply.failed, now);
    }

    /** The loop over the per-token errors of `sendAll`. */
    method RetryFailed(targets: map<string, EventWrapper>, failed: set<string>, now: Time)
      requires Valid()
      requires failed <= targets.Keys
      requires forall t :: t in targets ==> targets[t].token == t
      modifies this
      ensures Valid()
      ensures pending == old(pending) + Requeued(old(pending), targets, failed, maxRetries, now)
      ensures blacklist == old(blacklist) + BlacklistEntries(Exhausted(targets, failed, maxRetries), blacklistTimeout, now)
    {
      var left := failed;
      ghost var done: set<string> := {};
      ghost var pending0 := pending;
      ghost var blacklist0 := blacklist;
      while left != {}
        invariant left <= failed && done == failed - left
        invariant Valid()
        invariant pending == pending0 + Requeued(pending0, targets, done, maxRetries, now)
        invariant blacklist == blacklist0 + BlacklistEntries(Exhausted(targets, done, maxRetries), blacklistTimeout, now)
        decreases left
      {
        var token :| token in left;
        ghost var pendingBefore, blacklistBefore := pending, blacklist;
        var wrapper := Bumped(targets[token]);
        if wrapper.retries >= maxRetries {
          blacklist := blacklist[token := Entry((), DefaultExpiry(blacklistTimeout, now))];
        } else if !Live(pending, token, now) {
          pending := pending[token := Entry(wrapper, Zero)];
        }
        RetryKeepsWellKeyed(pendingBefore, pending, targets, token, maxRetries, now);
        RetryPendingStep(pending0, pendingBefore, pending, targets, done, token, maxRetries, now);
        RetryBlacklistStep(blacklist0, blacklistBefore, blacklist, targets, done, token,
                           maxRetries, blacklistTimeout, now);
        left := left - {token};
        done := done + {token};
      }
      assert done == failed;
    }

    /**
     * `sendAll`: drains the pending cache; an empty drain ends the flush
     * without calling the transport; otherwise the whole batch goes out in
     * one call and the reply is applied. Returns the batch the transport saw.
     */
    method SendAll(now: Time, send: map<string, PushEvent> -> SendReply)
      returns (batch: Option<map<string, PushEvent>>)
      requires Valid()
      requires forall b :: send(b).failed <= b.Keys
      modifies this
      ensures Valid()
      ensures Snapshot(old(pending), now) == map[] ==>
                batch == None && pending == map[] && blacklist == old(blacklist)
      ensures Snapshot(old(pending), now) != map[] ==>
                var targets := Snapshot(old(pending), now);
                var reply := send(Messages(targets));
                && batch == Some(Messages(targets))
                && (reply.transportError ==> pending == map[] && blacklist == old(blacklist))
                && (!reply.transportError ==>
                      && pending == Requeued(map[], targets, reply.failed, maxRetries, now)
                      && blacklist == old(blacklist) + BlacklistEntries(Exhausted(targets, reply.failed, maxRetries), blacklistTimeout, now))
    {
      var targets := TakePending(now);
      if |targets| == 0 {
        return None;
      }
      var messages := Messages(targets);
      var reply := send(messages);
      batch := Some(messages);
      ApplyReply(targets, reply, now);
      assert map[] + Requeued(map[], targets, reply.failed, maxRetries, now)
          == Requeued(map[], targets, reply.failed, maxRetries, now);
    }
  }

  /** A transport that reports every token of the batch as failed. */
  function AllFail(batch: map<string, PushEvent>): SendReply {
    SendReply(batch.Keys, false)
  }

  /** A lone pending item is drained as itself and, under `AllFail`, reported as failed. */
  lemma SingleItemBatch(token: string, w: EventWrapper, now: Time)
    ensures Snapshot(map[token := Entry(w, Zero)], now) == map[token := w]
    ensures AllFail(Messages(map[token := w])) == SendReply({token}, false)
  {
    assert Messages(map[token := w]).Keys == {token};
  }

  /** A lone failed item is put back with one more retry below `maxRetries`, and dropped at it. */
  lemma SingleItemRequeued(token: string, w: EventWrapper, maxRetries: int, now: Time)
    ensures Requeued(map[], map[token := w], {token}, maxRetries, now) ==
            (if w.retries + 1 < maxRetries then map[token := Entry(Bumped(w), Zero)] else map[])
  {
    var r := Requeued(map[], map[token := w], {token}, maxRetries, now);
    if w.retries + 1 < maxRetries {
      assert token in r;
      assert r == map[token := Entry(Bumped(w), Zero)];
    } else {
      assert r == map[];
    }
  }

  /** A lone failed item is blacklisted exactly when its retry count reaches `maxRetries`. */
  lemma SingleItemBlacklisted(token: string, w: EventWrapper, maxRetries: int, blacklistTimeout: Duration, now: Time)
    ensures Exhausted(map[token := w], {token}, maxRetries) == (if w.retries + 1 < maxRetries then {} else {token})
    ensures map[] + BlacklistEntries(Exhausted(map[token := w], {token}, maxRetries), blacklistTimeout, now) ==
            (if w.retries + 1 < maxRetries then map[] else map[token := Entry((), DefaultExpiry(blacklistTimeout, now))])
  {
    var e := Exhausted(map[token := w], {token}, maxRetries);
    if w.retries + 1 < maxRetries {
      assert e == {};
      assert BlacklistEntries({}, blacklistTimeout, now) == map[];
    } else {
      assert token in e;
      assert e == {token};
      assert BlacklistEntries({token}, blacklistTimeout, now) ==
             map[token := Entry((), DefaultExpiry(blacklistTimeout, now))];
    }
  }

  /** What one failed flush does with a single pending item. */
  lemma SingleFailedFlush(token: string, w: EventWrapper, maxRetries: int, blacklistTimeout: Duration, now: Time)
    ensures Snapshot(map[token := Entry(w, Zero)], now) == map[token := w]
    ensures AllFail(Messages(map[token := w])) == SendReply({token}, false)
    ensures Requeued(map[], map[token := w], {token}, maxRetries, now) ==
            (if w.retries + 1 < maxRetries then map[token := Entry(Bumped(w), Zero)] else map[])
    ensures map[] + BlacklistEntries(Exhausted(map[token := w], {token}, maxRetries), blacklistTimeout, now) ==
            (if w.retries + 1 < maxRetries then map[] else map[token := Entry((), DefaultExpiry(blacklistTimeout, now))])
  {
    SingleItemBatch(token, w, now);
    SingleItemRequeued(token, w, maxRetries, now);
    SingleItemBlacklisted(token, w, maxRetries, blacklistTimeout, now);
  }

  /**
   * An `Enqueue` that lands while a batch is in flight survives the failed
   * send of the older item: `SetOrFail` discards the stale retry.
   */
  method NewerEnqueueSurvivesRetry(token: string, stale: PushEvent, newer: PushEvent, now: Time)
    returns (kept: EventWrapper)
    ensures kept == EventWrapper(token, newer, 0)
  {
    var s := new Service(Config(0, 0), 3, Hour);
    s.Enqueue(token, stale, now);
    var targets := s.TakePending(now);
    s.Enqueue(token, newer, now);
    s.ApplyReply(targets, SendReply({token}, false), now);
    kept := s.pending[token].value;
  }

  /** One flush of a service holding a single item whose send fails. */
  method FailedFlush(s: Service, token: string, event: PushEvent, retries: nat, now: Time)
    requires s.Valid() && retries < s.maxRetries
    requires s.pending == map[token := Entry(EventWrapper(token, event, retries), Zero)] && s.blacklist == map[]
    modifies s
    ensures s.Valid()
    ensures s.pending ==
            (if retries + 1 < s.maxRetries then map[token := Entry(EventWrapper(token, event, retries + 1), Zero)] else map[])
    ensures s.blacklist ==
            (if retries + 1 < s.maxRetries then map[] else map[token := Entry((), DefaultExpiry(s.blacklistTimeout, now))])
  {
    SingleFailedFlush(token, EventWrapper(token, event, retries), s.maxRetries, s.blacklistTimeout, now);
    var sent := s.SendAll(now, AllFail);
  }

  /**
   * A token whose sends fail on `maxRetries` flushes in a row is blacklisted:
   * a later `Enqueue` for it is accepted without error, and the next flush
   * sends nothing.
   */
  method FailingTokenIsBlacklisted(token: string, event: PushEvent, later: PushEvent,
                                   maxRetries: nat, now: Time)
    returns (blacklisted: bool, nextBatch: Option<map<string, PushEvent>>)
    requires maxRetries >= 1
    ensures blacklisted
    ensures nextBatch == None
  {
    var s := new Service(Config(0, 0), maxRetries, Hour);
    s.Enqueue(token, event, now);
    var flushes := 0;
    while flushes < maxRetries
      invariant 0 <= flushes <= maxRetries
      invariant s.Valid()
      invariant s.maxRetries == maxRetries && s.blacklistTimeout == Hour
      invariant flushes < maxRetries ==>
                  s.pending == map[token := Entry(EventWrapper(token, event, flushes), Zero)] && s.blacklist == map[]
      invariant flushes == maxRetries ==>
                  s.pending == map[] && s.blacklist == map[token := Entry((), now + Hour)]
    {
      FailedFlush(s, token, event, flushes, now);
      flushes := flushes + 1;
    }
    blacklisted := Live(s.blacklist, token, now);
    s.Enqueue(token, later, now);
    nextBatch := s.SendAll(now, AllFail);
  }
}
