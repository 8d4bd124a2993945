# SMS gateway notification pipeline, modelled in Dafny

This project models the notification core of the SMS gateway server
(makayabou/asg-server, Go). It proves properties of that model.

- **Expiring cache.** `pkg/cache` has two backends:
  - an in-memory table of `{value, validUntil}` items;
  - a Redis hash with per-field expiry, whose fields drop out once their deadline passes.
- **Expiry options.** `WithTTL` and `WithValidUntil` are functional options, applied left to right.
- **Push dispatcher.** It keeps one pending event per token and sends one batched call per flush. Each failed token's retry count goes up; at `maxRetries` the token is blacklisted, below it the item is re-queued with `SetOrFail`.
- **Server-sent-events hub.** It is a registry from device id to one connection. Each connection has an 8-slot buffer and a close signal. The hub writes `data: <json>` and `:keepalive` frames.
- **Event router.** A 128-slot FIFO is filled by a non-blocking `Notify`. The consumer routes each selected device to push (non-empty token) or to SSE.
- **Online tracker.** `SetOnline` writes last-seen times into a cache. `persist` drains that cache and hands the parsed batch to the device store in one call.
- **Message-list query.** The validation tags, the date-order check, and the conversion to a repository filter and select options.

Modelling conventions:

- Time is an `int` count of nanoseconds, and `0` stands for Go's zero `time.Time`. Every `time.Now()` is an explicit `now` parameter.
- RFC 3339 formatting and parsing are function parameters. So are the push transport, the device store, device selection and the two delivery services.
- Each locked method is one atomic step.
- Objects whose fields the code updates are classes with `modifies` frames. Go channels are sequence fields, bounded by each class's `Valid()` invariant.
- Loops are `while`/`for` loops proved against specification functions such as `Cache.Snapshot`, `Cache.Unexpired`, `Redis.PairsMap`, `Events.Attempts` and `CacheOptions.Resolve`.
- `EventStream` models the client side of the event-stream format (WHATWG HTML Living Standard, section 9.2.6, "Interpreting an event stream"). `Sse.StreamRoundTrip` proves against it that a client receives exactly the event payloads the hub writes, in order.

Points where the code differs from what its own comments or a reader might expect; the model follows the code:

- **Frames.** Each event is written as the single line `data: <json>` followed by a blank line (internal/sms-gateway/modules/sse/service.go:123); no `event:` line is written.
- **Keepalive period.** The comment on the configuration field says a period of 0 means no keepalive (internal/config/config.go:71). `Config.SetDefaults` replaces 0 with 15 s (internal/sms-gateway/modules/sse/config.go:11-15), so once `SetDefaults` has run keepalives are never off. `NewService` (internal/sms-gateway/modules/sse/service.go:31-39) stores the configuration as given, and the handler reads a field `keepAlivePeriod` (internal/sms-gateway/modules/sse/service.go:117) while `Config` declares `KeepAlivePeriod`.
- **One connection per device.** The hub keeps one connection per device id, and a new registration closes the old one (internal/sms-gateway/modules/sse/service.go:152-167). `Send` returns an error per device and a top-level error that is always nil (internal/sms-gateway/modules/sse/service.go:41-81).

## Model

| member | source | states |
|---|---|---|
| CacheOptions.Run | pkg/cache/options.go:22-38 | `WithTTL(d)` sets the deadline to `now + d` for every `d`, including `d <= 0`, because the zeroing branch is overwritten; `WithValidUntil(t)` sets exactly `t` |
| CacheOptions.LastOptionWins | pkg/cache/options.go:12-18 | applying no options leaves the incoming options unchanged; otherwise the last option alone decides the deadline |
| CacheOptions.ValidUntilIsExact | pkg/cache/options.go:34-38 | options ending in `WithValidUntil(t)` give exactly `t`, whatever came before |
| CacheOptions.Apply | pkg/cache/options.go:12-18 | the loop runs the options left to right: no options leave `o` unchanged, and otherwise the last option's deadline wins (`r == Resolve(o, opts, now)`) |
| CacheOptions.RunIntended | pkg/cache/options.go:22-29 | corrected `WithTTL`: a non-positive duration leaves the item without a deadline, and a positive one gives `now + d` |
| Cache.IsExpired | pkg/cache/memory.go:39-41 | an item without a deadline never expires; an expired item's deadline lies strictly before `now` |
| Sse.WriteToStream | internal/sms-gateway/modules/sse/service.go:145-150 | the written text is the payload followed by exactly one blank line |
| MessageParams.TagsValid | internal/sms-gateway/handlers/messages/params.go:16-21 | the validation tags: each date empty or parseable, state empty or one of the message states, device id empty or 21 characters, limit unset or 1..100, offset not negative |
| Cache.Lookup | pkg/cache/memory.go:135-147 | `KeyNotFound` iff the key is absent; `KeyExpired` iff present and expired; the value iff present and live |
| Cache.Unexpired | pkg/cache/memory.go:158-170 | keeps exactly the live entries, unchanged |
| Cache.Values | pkg/cache/memory.go:68-71 | the copy has the same keys, each mapped to its item's value |
| Cache.ItemExpiryRule | pkg/cache/memory.go:123-133 | a new item's deadline is `now + ttl` when the instance TTL is positive, else zero; any options override it, the last one winning |
| Cache.ExpiryIsPermanent | pkg/cache/memory.go:39-41 | an entry expired at `now` stays expired at every later time |
| Cache.SetThenGet | pkg/cache/memory.go:100-106 | after `Set(k, v)`, reading `k` yields `v` while the new entry is unexpired, whatever `k` held before |
| Cache.CleanupKeepsLiveReads | pkg/cache/memory.go:158-170 | after cleanup a live key reads exactly as before, and an expired or absent key reads as `KeyNotFound` |
| Cache.CleanupIsIdempotent | pkg/cache/memory.go:158-170 | a second cleanup at the same time removes nothing |
| Cache.SnapshotIsBounded | pkg/cache/memory.go:60-74 | a drain returns a subset of the stored keys, no more entries than stored, and only unexpired ones |
| Cache.NonPositiveTTLExpiresAtOnce | pkg/cache/options.go:22-29 | as written, an item set with `WithTTL(d)`, `d <= 0`, is already expired one nanosecond after insertion |
| Cache.IntendedNonPositiveTTLNeverExpires | pkg/cache/options.go:22-29 | with the corrected option, the same item never expires |
| Cache.MemoryCache.constructor | pkg/cache/memory.go:16-23 | an empty table with the given instance TTL |
| Cache.MemoryCache.NewItem | pkg/cache/memory.go:123-133 | the item has the given value; its deadline is `now + ttl` when the instance TTL is positive, else zero; the last option overrides it |
| Cache.MemoryCache.Set | pkg/cache/memory.go:100-106 | replaces both value and deadline of the key; every other key is unchanged |
| Cache.MemoryCache.SetOrFail | pkg/cache/memory.go:109-121 | fails with `KeyExists` and changes nothing iff a live entry holds the key; otherwise stores the new item |
| Cache.MemoryCache.Get | pkg/cache/memory.go:77-85 | `KeyNotFound` iff absent; `KeyExpired` iff present and expired; the value iff live; the table is untouched, so an expired entry stays in it |
| Cache.MemoryCache.GetAndDelete | pkg/cache/memory.go:88-97 | removes the key even when it is expired; returns what a read before the removal would have returned |
| Cache.MemoryCache.Delete | pkg/cache/memory.go:51-57 | removes only the given key |
| Cache.MemoryCache.Cleanup | pkg/cache/memory.go:158-170 | the loop removes exactly the entries expired at `now` and leaves all others unchanged |
| Cache.MemoryCache.Drain | pkg/cache/memory.go:60-74 | returns exactly the unexpired key-to-value pairs and leaves the table empty |
| Cache.SetOrFailSucceedsOnce | pkg/cache/memory.go:109-121 | on a cache without TTL, of any number of `SetOrFail` calls on one key, exactly the first succeeds and all others get `KeyExists` |
| Cache.SecondDrainIsEmpty | pkg/cache/memory.go:60-74 | a drain straight after a drain returns nothing, so no key is drained twice |
| Cache.DrainDropsExpired | pkg/cache/memory.go:60-74 | a drain after one item has expired returns only the live item; a later `Get` of the expired key gives `KeyNotFound`, not `KeyExpired` |
| Redis.HashKey | pkg/cache/redis.go:45-56 | the hash name ends in "cache"; an empty prefix gives "cache"; a prefix ending in ':' is followed directly by "cache"; any other non-empty prefix gets one ':' before "cache" |
| Redis.TrailingSeparatorIsOptional | pkg/cache/redis.go:46-48 | a prefix with or without its trailing ':' names the same hash |
| Redis.Strings | pkg/cache/redis.go:87-88 | each reply element read as a string, with a non-string read as "" |
| Redis.Flatten | pkg/cache/redis.go:26-34 | the flat `HGETALL` reply has two elements per listed field |
| Redis.DecodeInvertsFlatten | pkg/cache/redis.go:80-92 | decoding the flat reply gives back exactly the listed fields with their values, whatever order the server chose |
| Redis.DecodeDrainReply | pkg/cache/redis.go:80-92 | a non-array or empty reply gives an empty map; an even-length array decodes pair by pair into `f_i -> v_i` |
| Redis.RedisCache.constructor | pkg/cache/redis.go:45-57 | the hash name is `HashKey(prefix)`, over whatever the server's hash holds |
| Redis.RedisCache.ResolveExpiry | pkg/cache/redis.go:125-129 | the deadline is the instance default, overridden by the options, as in the memory backend |
| Redis.RedisCache.Cleanup | pkg/cache/redis.go:59-62 | always succeeds |
| Redis.RedisCache.Delete | pkg/cache/redis.go:65-71 | removes only the named field |
| Redis.RedisCache.Get | pkg/cache/redis.go:96-107 | the value iff the field is live; otherwise `KeyNotFound`, never `KeyExpired` |
| Redis.RedisCache.GetAndDelete | pkg/cache/redis.go:110-121 | a live field is returned and removed; otherwise `KeyNotFound` with the hash unchanged |
| Redis.RedisCache.ExpireAt | pkg/cache/redis.go:136-138 | succeeds iff it names at least one field; then it sets the deadline of exactly the named fields that are still live, and leaves every other field as it was |
| Redis.RedisCache.Set | pkg/cache/redis.go:124-142 | stores the value; the field's deadline is set only when the resolved deadline is non-zero |
| Redis.RedisCache.SetOrFail | pkg/cache/redis.go:145-168 | as written: `KeyExists` and no change when the field is live; otherwise the field is stored with no deadline, and the call fails iff a deadline was due |
| Redis.RedisCache.SetOrFailWithFieldTtl | pkg/cache/redis.go:145-168 | corrected: `KeyExists` and no change when the field is live; otherwise success, with the same value and deadline `Set` gives |
| Redis.RedisCache.HGetAll | pkg/cache/redis.go:27-27 | the flat reply decodes to exactly the live fields and their values |
| Redis.RedisCache.DeleteListed | pkg/cache/redis.go:28-32 | deletes exactly the fields the reply lists |
| Redis.RedisCache.DrainScript | pkg/cache/redis.go:26-34 | the script returns every live field with its value, and afterwards the hash holds none of them |
| Redis.RedisCache.Drain | pkg/cache/redis.go:74-93 | returns exactly the live field-to-value pairs and leaves the hash empty |
| Redis.SetOrFailLosesTtl | pkg/cache/redis.go:161-165 | on a cache with a one-minute TTL, `SetOrFail` reports a failure, yet the field is still readable an hour later |
| Redis.SetOrFailWithFieldTtlExpires | pkg/cache/redis.go:161-165 | with the field named in the expiry call, the same `SetOrFail` succeeds, and the field is gone an hour later |
| Push.WithFloors | internal/sms-gateway/modules/push/service.go:48-54 | a zero timeout becomes 1 s and a debounce below 5 s becomes 5 s; all other values are kept |
| Push.FloorsAreIdempotent | internal/sms-gateway/modules/push/service.go:48-54 | applying the floors twice gives the same result as once |
| Push.Messages | internal/sms-gateway/modules/push/service.go:116-118 | the batch has exactly the drained tokens, each with its pending event |
| Push.RetryOrBlacklist | internal/sms-gateway/modules/push/service.go:138-161 | no token is both blacklisted and re-queued; only failed tokens are re-queued |
| Push.Service.constructor | internal/sms-gateway/modules/push/service.go:48-69 | the config after the floors, with empty pending and blacklist caches |
| Push.Service.Enqueue | internal/sms-gateway/modules/push/service.go:87-107 | a blacklisted token leaves pending untouched; any other token gets `{token, event, 0}`, replacing whatever was pending for it |
| Push.Service.TakePending | internal/sms-gateway/modules/push/service.go:111-114 | the drain returns every pending item, each under its own token, and empties the pending cache |
| Push.Service.ApplyReply | internal/sms-gateway/modules/push/service.go:124-162 | a transport error drops the batch, with nothing re-queued or blacklisted; otherwise failed tokens at `maxRetries` are blacklisted, the others are re-queued unless a newer item holds the key, and delivered tokens are not re-queued |
| Push.Service.RetryFailed | internal/sms-gateway/modules/push/service.go:138-162 | the loop over per-token errors yields exactly the pending and blacklist maps that `Requeued` and `Exhausted` define |
| Push.Service.SendAll | internal/sms-gateway/modules/push/service.go:110-163 | an empty drain makes no transport call; otherwise the whole batch goes out in one call, and the reply is applied as `ApplyReply` states |
| Push.SingleFailedFlush | internal/sms-gateway/modules/push/service.go:138-161 | one failed flush of a single item re-queues it with one more retry, or blacklists it once the count reaches `maxRetries` |
| Push.RetryPendingStep | internal/sms-gateway/modules/push/service.go:144-159 | one turn of the retry loop adds at most the turn's own token to the pending cache, exactly as `Requeued` over one more token says |
| Push.RetryBlacklistStep | internal/sms-gateway/modules/push/service.go:144-155 | one turn of the retry loop keeps the blacklist equal to the starting one plus the entries `Exhausted` gives for the tokens handled so far |
| Push.BlacklistStep | internal/sms-gateway/modules/push/service.go:144-155 | one turn of the retry loop adds at most the turn's own token to the blacklist, exactly as `Exhausted` over one more token says |
| Push.FailedFlush | internal/sms-gateway/modules/push/service.go:110-163 | a flush of a lone item whose send fails leaves it pending with one more retry, or, at `maxRetries`, drops it and blacklists its token with the blacklist's TTL |
| Push.NewerEnqueueSurvivesRetry | internal/sms-gateway/modules/push/service.go:157-159 | an item enqueued while a failed batch is in flight is kept, and the stale retry is discarded |
| Push.FailingTokenIsBlacklisted | internal/sms-gateway/modules/push/service.go:144-155 | after `maxRetries` failed flushes the token is blacklisted; a later `Enqueue` for it is skipped, so the next flush sends nothing |
| Sse.KeepAliveWithDefault | internal/sms-gateway/modules/sse/config.go:11-15 | a zero keepalive period becomes 15 s; any other period is kept |
| Sse.DataLineField | internal/sms-gateway/modules/sse/service.go:123-123 | a `data: <json>` line is read as the `data` field with value `<json>` |
| Sse.EventFrameIsOneMessage | internal/sms-gateway/modules/sse/service.go:145-150 | an event frame read between messages makes the client dispatch exactly its JSON payload and leaves it between messages again |
| Sse.KeepaliveIsInvisible | internal/sms-gateway/modules/sse/service.go:145-150 | a keepalive frame read between messages is a comment: the client dispatches nothing |
| Sse.FrameIsOneMessage | internal/sms-gateway/modules/sse/service.go:145-150 | a written event frame makes the client dispatch exactly its payload; a keepalive frame dispatches nothing |
| Sse.StreamRoundTrip | internal/sms-gateway/modules/sse/service.go:110-139 | for any sequence of keepalives and events with one-line JSON, a client dispatches exactly the event payloads, in order |
| Sse.Connection.constructor | internal/sms-gateway/modules/sse/service.go:162-165 | a new connection has an empty buffer and is open |
| Sse.Service.constructor | internal/sms-gateway/modules/sse/config.go:11-15 | an empty registry whose keepalive period is the configured one after `SetDefaults`: 0 becomes 15 s |
| Sse.Service.GetConnection | internal/sms-gateway/modules/sse/service.go:180-184 | returns the connection registered under the id, or null |
| Sse.Service.RegisterConnection | internal/sms-gateway/modules/sse/service.go:152-167 | closes any existing connection of the id, then installs a fresh open, empty one; the registry invariant is kept: one connection per id, and every registered connection open with at most 8 buffered events |
| Sse.Service.RemoveConnection | internal/sms-gateway/modules/sse/service.go:169-178 | as written: closes and removes whatever connection is registered under the id, with no identity check; it is a no-op only when the id is absent |
| Sse.Service.RemoveOwnConnection | internal/sms-gateway/modules/sse/service.go:169-178 | corrected: closes and removes the caller's own connection only, and otherwise changes nothing |
| Sse.Service.Close | internal/sms-gateway/modules/sse/service.go:83-92 | closes every registered connection, leaves their buffers alone, and empties the registry |
| Sse.Service.Deliver | internal/sms-gateway/modules/sse/service.go:47-79 | one turn of `Send`'s loop: an unregistered device gets "not connected"; a connection with room gets the payload appended and no error; a full buffer is left alone and gets the cancellation error; no other buffer changes |
| Sse.Service.Send | internal/sms-gateway/modules/sse/service.go:41-81 | the buffers afterwards are `Delivered` and the errors `Refusals` of the buffers before, over all target devices; the registry invariant is kept; the top-level error is always nil |
| Sse.SendStep | internal/sms-gateway/modules/sse/service.go:46-79 | handling one more device changes only that device's buffer and error entry |
| Sse.SendOutcome | internal/sms-gateway/modules/sse/service.go:46-79 | per device: "not connected" without a connection; with room, the payload appended and no error; when full, the buffer untouched and the cancellation error; untargeted devices untouched; errors only for targeted devices |
| Sse.NoRefusals | internal/sms-gateway/modules/sse/service.go:46-79 | when every target is connected with room in its buffer, `Send` reports no error at all |
| Sse.Service.Connect | internal/sms-gateway/modules/sse/service.go:101-115 | the handler registers, finds its connection, and writes a keepalive first |
| Sse.ServeStep | internal/sms-gateway/modules/sse/service.go:120-139 | a buffered event is taken in order and written as a data frame; a tick writes a keepalive; the close signal ends the loop |
| Sse.ReconnectClosesNewStream | internal/sms-gateway/modules/sse/service.go:101-102 | as written: when a device reconnects, the old handler's deferred removal closes and unregisters the new stream |
| Sse.ReconnectKeepsNewStream | internal/sms-gateway/modules/sse/service.go:101-102 | with the identity check, the new stream stays open and registered |
| Sse.SendReachesEveryConnectedDevice | internal/sms-gateway/modules/sse/service.go:46-66 | two connected devices with free buffers both receive the payload, and no error is recorded |
| Events.Filters | internal/sms-gateway/modules/events/service.go:73-76 | a target device narrows the selection to that device; otherwise there is no filter |
| Events.Route | internal/sms-gateway/modules/events/service.go:91-105 | push with the device's token iff the token is present and non-empty; otherwise SSE to the device id |
| Events.EveryDeviceAttempted | internal/sms-gateway/modules/events/service.go:90-115 | every selected device is attempted exactly once, in order, on the channel its token selects |
| Events.OutcomeIsPerDevice | internal/sms-gateway/modules/events/service.go:96-114 | one device's outcome depends only on its own service's answer, so failures elsewhere do not affect it |
| Events.ProcessEvent | internal/sms-gateway/modules/events/service.go:71-116 | a selection error or empty selection attempts nothing; otherwise the log is one attempt per selected device |
| Events.EventService.constructor | internal/sms-gateway/modules/events/service.go:26-38 | an empty queue |
| Events.EventService.Notify | internal/sms-gateway/modules/events/service.go:40-57 | appends at the back and returns nil when fewer than 128 events are queued; otherwise returns "event queue is full" with the queue unchanged |
| Events.EventService.Next | internal/sms-gateway/modules/events/service.go:62-62 | removes and returns the oldest queued event |
| Events.EventService.RunOnce | internal/sms-gateway/modules/events/service.go:59-69 | takes the oldest event and processes it as `ProcessEvent` states |
| Events.OverflowRefusesOnlyTheExtraEvent | internal/sms-gateway/modules/events/service.go:47-54 | with no consumer, 128 notifications are accepted and the 129th is refused |
| Events.FirstInFirstOut | internal/sms-gateway/modules/events/service.go:59-69 | events are consumed in the order they were notified |
| Online.LastSeen | internal/sms-gateway/online/service.go:98-106 | every drained device keeps its key; its time is the parsed timestamp, or `now` when the string does not parse |
| Online.PersistOutcome | internal/sms-gateway/online/service.go:79-128 | a drain error is returned and nothing is stored; an empty drain stores nothing and returns nil; otherwise one store call with the drained key set, and the result is nil iff the store succeeds, else the store error |
| Online.SeenDeviceIsPersisted | internal/sms-gateway/online/service.go:98-110 | a drained device appears in the single store call |
| Online.OnlineService.constructor | internal/sms-gateway/online/service.go:28-37 | the service over the given cache |
| Online.OnlineService.SetOnline | internal/sms-gateway/online/service.go:56-77 | overwrites the device's entry with the formatted current time; no error reaches the caller |
| Online.OnlineService.Persist | internal/sms-gateway/online/service.go:79-128 | drains the cache and acts as `PersistOutcome` states; the drained entries are not put back, even when the store fails |
| Online.UnparseableTimestampFallsBack | internal/sms-gateway/online/service.go:99-103 | a device whose stored string does not parse is still persisted, stamped with the flush time; a second flush stores nothing |
| MessageParams.LexLessIrreflexive | internal/sms-gateway/handlers/messages/params.go:25-25 | Go's string order: no string sorts before itself |
| MessageParams.LexLessAsymmetric | internal/sms-gateway/handlers/messages/params.go:25-25 | Go's string order: two strings never sort before each other |
| MessageParams.LexLessTransitive | internal/sms-gateway/handlers/messages/params.go:25-25 | Go's string order is transitive |
| MessageParams.LexLessTotal | internal/sms-gateway/handlers/messages/params.go:25-25 | Go's string order: of two distinct strings, one sorts before the other |
| MessageParams.Validate | internal/sms-gateway/handlers/messages/params.go:24-30 | fails, with the date-order message, iff both dates are given and `from` sorts after `to` |
| MessageParams.DateOrderIsStrict | internal/sms-gateway/handlers/messages/params.go:24-30 | a single-instant range passes; of two distinct dates, exactly one order passes |
| MessageParams.DateBound | internal/sms-gateway/handlers/messages/params.go:35-45 | the parsed time, or zero when the string is empty or does not parse |
| MessageParams.ToFilter | internal/sms-gateway/handlers/messages/params.go:32-56 | state and device id are non-empty in the filter iff given, and copied when given; each date is parsed, or zero when empty or unparseable |
| MessageParams.ToOptions | internal/sms-gateway/handlers/messages/params.go:58-75 | recipients and states are always loaded; limit is `min(limit, 100)` when positive, else 50, so always in 1..100; offset is copied when positive, else 0 |
| MessageParams.ToOptionsIsIdempotent | internal/sms-gateway/handlers/messages/params.go:64-72 | normalising already-normalised limit and offset changes nothing |
| MessageParams.ValidQueryIsKept | internal/sms-gateway/handlers/messages/params.go:16-21 | on a query the tags accept, a given limit and the offset pass through unchanged, and every given date is parsed into the filter |
| MessageParams.RejectedQueries | test/e2e/messages_test.go:208-281 | the tags reject an unknown state, a 24-character device id, an unparseable date, a limit over 100 and a negative offset |
| MessageParams.AcceptedQueries | test/e2e/messages_test.go:80-176 | the tags accept the default query, `limit=10&offset=5` and `state=Sent`, and the options they give |

## Left out

- Redis.RedisCache.GetAndDelete: for a missing or expired field the script returns Lua `false`, which the Redis client most likely reports as its nil-reply error. `GetAndDelete` would then return the wrapped error "can't get cache item" (pkg/cache/redis.go:112-113) rather than `ErrKeyNotFound`. The model follows the evident intent of pkg/cache/redis.go:116-120 and returns `KeyNotFound`; the client library's reply conversion is not part of this model.
- Redis.RedisCache.ExpireAt: the deadline is kept exactly. The client sends `HEXPIREAT` whole Unix seconds, so Redis holds the deadline rounded down to the second and drops the field at once when that second has passed. Sub-second TTLs therefore expire earlier on a real server than in the model.
- Redis.RedisCache.Set: the ensures give the exact `ItemExpiry` deadline, not the one rounded down to the second that Redis keeps (see `ExpireAt`).
- Redis.RedisCache.SetOrFailWithFieldTtl: same second-rounding gap as `Set`.
- Sse.Service.constructor: applies `KeepAliveWithDefault`, that is, it assumes `Config.SetDefaults` (internal/sms-gateway/modules/sse/config.go:11-15) ran before `NewService`, which stores the configuration as given. The handler's read of `s.config.keepAlivePeriod` (internal/sms-gateway/modules/sse/service.go:117) names a field that `Config` does not declare; the model reads the defaulted period.
- Redis.DecodeDrainReply: requires an even-length array. On an odd-length array reply the Go loop indexes past the end and panics (pkg/cache/redis.go:86-88); the model does not represent the panic.
- Concurrency: mutexes, goroutines and the ticker loops of `Run` in push, online and events are not modelled. Each locked method is one atomic step, and each `Run` is one flush or one dequeue.
- Wall-clock time, RFC 3339 formatting and parsing, and JSON marshalling are parameters. Their content is not modelled.
- Metrics and logging are left out; they do not affect results.
- Redis.RedisCache: the network and go-redis client errors are left out, so every call succeeds except the expiry call that names no field.
- Redis.RedisCache.Set: `HSET` followed by `HEXPIREAT` is two calls, so the field briefly has no deadline. The model applies both as one step.
- Redis.RedisCache.Set: `HSET` on an existing field is assumed to clear that field's old deadline, as Redis does for hash-field expiry.
- Push.Service.SendAll: the transport's per-token error set is required to be a subset of the batch. The Firebase client only reports tokens it was given (internal/sms-gateway/modules/push/fcm/client.go).
- Push.Service: `maxRetries` and `blacklistTimeout` are constructor parameters, because their values are not in the modelled files. The generic go-helpers cache it uses is modelled as maps of `Cache.Entry` read through the same expiry rule.
- Push.Service.Enqueue: the pending cache's `Set` is assumed never to fail, so the model has no error result.
- Sse.Service.Send: the "connection closed" arm cannot fire in this model. The registry invariant keeps every registered connection open, because closing always happens together with removal under the write lock.
- Sse.Service.Send: Go's `select` picks at random between a free buffer slot and an already-cancelled context. The model always takes the free slot.
- Sse.Service.Send: a full buffer blocks until the caller's context ends; the model records the cancellation at once. The JSON marshalling error is left out.
- Sse.Service.Send: the router calls an SSE `Send` with one device and one error (internal/sms-gateway/modules/events/service.go:106), while `Service.Send` takes and returns maps. The router's delivery services are therefore parameters of `Events.ProcessEvent`.
- Sse.Service.Connect: the handler's "not connected" exit after registration needs a concurrent removal, so the model does not reach it. Stream write failures are left out.
- EventStream: the client parser models only line splitting, comments, the `data` field and dispatch. The `event`, `id` and `retry` fields and the byte-order mark are left out, because the hub never writes them.
- Events: the device store is a selection function from user id and filters to devices or an error. The GORM repository is not part of this model.
- Online.OnlineService: the service is modelled over the in-memory cache, whose `Set` and `Drain` never fail. The drain-error path is covered by `Online.PersistOutcome`.
- MessageParams: the validator library is not modelled. `TagsValid` states the rule each tag encodes, and the `datetime` tag uses the same RFC 3339 parser as `ToFilter`.
- The HTTP handlers, fx wiring, OpenAPI, the settings service, the message repository and the Firebase client are not part of this model.

## Findings

| source | as written | input that shows it | evidently intended | confidence | as-written member | corrected member |
|---|---|---|---|---|---|---|
| pkg/cache/options.go:24-28 | `WithTTL` zeroes the deadline for a non-positive duration, then overwrites it with `now + ttl` unconditionally | `Set(k, v, WithTTL(0))` at time `now`: the item is expired at `now + 1ns` | a non-positive TTL means no expiry: return after zeroing | high; not executed | Cache.NonPositiveTTLExpiresAtOnce | Cache.IntendedNonPositiveTTLNeverExpires |
| pkg/cache/redis.go:162 | `SetOrFail` calls `HExpireAt` without naming the field, a call Redis rejects | `SetOrFail("k", "v")` on a cache with a one-minute TTL returns a TTL error, yet `k` is stored without a deadline and still readable an hour later | name the field, as `Set` does at line 136 | medium; not executed | Redis.SetOrFailLosesTtl | Redis.SetOrFailWithFieldTtlExpires |
| internal/sms-gateway/modules/sse/service.go:102 | the handler's deferred `removeConnection(deviceId)` removes whatever connection is registered under the id | a device reconnects: registering the second stream closes the first; the first handler exits and its deferred removal closes and unregisters the second | remove the connection only if it is the handler's own | high; not executed | Sse.ReconnectClosesNewStream | Sse.ReconnectKeepsNewStream |
