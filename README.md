# Advertisement service: a Dafny model

This project models the core of an advertisement service that resolves an
advertisement by id. A call first looks in a process-wide cache. On a miss it
prunes the shared HTTP error queue and counts the errors of the last hour. If
there are fewer than 10, it calls the primary (NoSQL) provider in a bounded retry
loop. If that is skipped or gives nothing, it calls the backup (SQL) provider once.
Any advertisement found is cached for five minutes under `"AdvKey_" + id`.

Modules, one per source file:

- `ErrorQueues` (`error_queues.dfy`) models `ErrorQueueBase`. `TimestampQueue` is
  the mutable `Queue<DateTime>`, held by reference so that several error queues can
  share it. `ErrorQueueBase` holds that queue and the floor. `Pruned` and
  `CountAbove` are the functions that specify pruning and counting.
- `HttpErrorQueues` (`http_error_queues.dfy`) models `HttpErrorQueue`: floor 20,
  built on the one shared queue.
- `AdvertisementServices` (`advertisement_services.dfy`) models
  `AdvertisementService.GetAdvertisement`. It has the cache key, the cache as a map
  with lazy expiry, the primary retry loop (`RetryPrimary`, specified by `RunFrom`),
  the whole resolution as the function `Resolve`, and the class method
  `GetAdvertisement`, which is proved to compute exactly `Resolve`.
- `Wrappers` (`wrappers.dfy`) holds `Option`, which stands for a C# reference that
  may be null.

Timestamps are `DateTime` tick counts (100 ns each), so one hour is 36 000 000 000
ticks and five minutes is 3 000 000 000. The primary provider is an oracle:
`primary[i]` is what its i-th call does in this resolution (`Value(a)`, `Null` or
`Throws`). The backup provider is one `Option<Advertisement>`. The clock is a
single `now` per call.

A null result from the primary provider is not counted as an error. The method's
own remarks (BadProject/AdvertisementService.cs:58-60) speak only of retrying "in case
of error". The code enqueues a timestamp only in the `catch` block
(BadProject/AdvertisementService.cs:81-86). So a null result is retried without
recording anything, and the model follows the code. `PrimaryAlwaysNull` states this
outcome.

## Model

| member | source | states |
|---|---|---|
| `ErrorQueues.CountAbove` | BadProject/ErrorQueueBase.cs:81 | The number of timestamps strictly newer than the threshold is never more than the queue length. |
| `ErrorQueues.CountAboveExtremes` | BadProject/ErrorQueueBase.cs:81 | The count is 0 exactly when no entry is newer than the threshold, and equals the length exactly when every entry is. |
| `ErrorQueues.CountAboveIsPositionCount` | BadProject/ErrorQueueBase.cs:81 | The count equals the size of the set of positions whose timestamp is strictly greater than the threshold. |
| `ErrorQueues.CountAboveAppend` | BadProject/ErrorQueueBase.cs:81 | Counting a concatenation gives the sum of the counts of its parts. |
| `ErrorQueues.Pruned` | BadProject/ErrorQueueBase.cs:67-70 | Pruning removes only a prefix. It removes nothing at or below the floor and never goes below the floor. Every removed entry is older than the threshold. On exit the length is at most the floor or the head is not older than the threshold. |
| `ErrorQueues.PrunedIsUnique` | BadProject/ErrorQueueBase.cs:67-70 | Any suffix that drops only entries older than the threshold, keeps the floor and ends where the loop's condition fails is exactly what pruning leaves. |
| `ErrorQueues.PruneKeepsCount` | BadProject/ErrorQueueBase.cs:67-81 | Pruning with threshold `th` leaves the count against `th`, or against any later threshold, unchanged. |
| `ErrorQueues.PruneIdempotent` | BadProject/ErrorQueueBase.cs:67-70 | A second pruning with the same threshold removes nothing. |
| `ErrorQueues.TimestampQueue.constructor` | BadProject/HttpErrorQueue.cs:19 | The shared `Queue<DateTime>` starts empty. |
| `ErrorQueues.ErrorQueueBase.constructor` | BadProject/ErrorQueueBase.cs:39-44 | Records the floor and the given queue and leaves that queue's contents untouched. |
| `ErrorQueues.ErrorQueueBase.Enqueue` | BadProject/ErrorQueueBase.cs:54-58 | The new queue is the old one with the timestamp appended at the tail. |
| `ErrorQueues.ErrorQueueBase.ClearExcessItems` | BadProject/ErrorQueueBase.cs:64-71 | The dequeue-while loop leaves exactly `Pruned(old queue, floor, threshold)`. |
| `ErrorQueues.ErrorQueueBase.CountWithinThreshold` | BadProject/ErrorQueueBase.cs:78-82 | Reads the queue without changing it and returns the number of positions holding a timestamp strictly newer than the threshold, which is at most the length. |
| `ErrorQueues.ErrorQueueBase.ClearQueue` | BadProject/ErrorQueueBase.cs:87-91 | The queue is empty afterwards. |
| `HttpErrorQueues.HttpErrorQueue.constructor` | BadProject/HttpErrorQueue.cs:34-35 | Every instance gets floor 20 and the shared queue it is given, and building one does not reset that queue. |
| `HttpErrorQueues.SmallHttpQueueIsNotPruned` | BadProject/HttpErrorQueue.cs:14 | Pruning a queue of at most 20 entries with floor 20 removes nothing, whatever their ages. |
| `HttpErrorQueues.EnqueueIsSeenByEveryInstance` | BadProject/HttpErrorQueue.cs:19 | A timestamp enqueued through one instance that shares the queue appears in the queue of another, and that instance's count grows by one when the timestamp is newer than the threshold. |
| `HttpErrorQueues.NewInstanceKeepsSharedQueue` | BadProject/HttpErrorQueue.cs:34-35 | A new instance on the shared queue sees the same entries and the same count as the existing ones. |
| `AdvertisementServices.CacheKey` | BadProject/AdvertisementService.cs:68 | The key is `AdvKey_` followed by the id, and the id is recovered from it by stripping that prefix. |
| `AdvertisementServices.CacheKeyInjective` | BadProject/AdvertisementService.cs:68 | Two ids have the same cache key if and only if they are equal. |
| `AdvertisementServices.Lookup` | BadProject/AdvertisementService.cs:68 | A cache read returns the stored advertisement. A missing entry, or one whose expiry is at or before `now`, reads as absent. |
| `AdvertisementServices.AdvertCache.Get` | BadProject/AdvertisementService.cs:68 | The same lazy-expiry read on the cache object's current entries. |
| `AdvertisementServices.StoreThenLookup` | BadProject/AdvertisementService.cs:92 | After a store, the key reads back the stored advertisement while `now` is before its expiry and reads as absent afterwards. Every other key reads as before. |
| `AdvertisementServices.AdvertCache.constructor` | BadProject/AdvertisementService.cs:31 | The cache starts empty. |
| `AdvertisementServices.AdvertCache.Set` | BadProject/AdvertisementService.cs:92 | Stores the entry with its absolute expiry and replaces any earlier entry under that key. |
| `AdvertisementServices.CountThrows` | BadProject/AdvertisementService.cs:81-86 | The number of calls that threw is at most the number of calls. |
| `AdvertisementServices.CountThrowsExtremes` | BadProject/AdvertisementService.cs:81-86 | The number is 0 exactly when no call threw, and equals the number of calls exactly when all did. |
| `AdvertisementServices.CountThrowsAppend` | BadProject/AdvertisementService.cs:81-86 | Counting the throws of a concatenation gives the sum of the counts of its parts. |
| `AdvertisementServices.CountThrowsIsPositionCount` | BadProject/AdvertisementService.cs:81-86 | The count equals the size of the set of positions whose call threw. |
| `AdvertisementServices.RunFrom` | BadProject/AdvertisementService.cs:77-87 | The do/while loop from any loop state makes at least one more call and at most `retryCount + 1` in all. It records at most one error per call. |
| `AdvertisementServices.RunFromProperties` | BadProject/AdvertisementService.cs:77-87 | From any loop state, the loop makes at least one more call and at most `retryCount + 1` in all. Every call before the last failed. It succeeds exactly when the last call returned a value, and that value is its result. A failed loop made `retryCount + 1` calls. One error is recorded per call that threw, none for a null. |
| `AdvertisementServices.RunPrimary` | BadProject/AdvertisementService.cs:77-87 | The whole loop makes between 1 and `retryCount + 1` calls and stops at the first non-null result, which is its result. A failed loop made `retryCount + 1` calls. It records exactly one error per call that threw. |
| `AdvertisementServices.Stamps` | BadProject/AdvertisementService.cs:85 | The timestamps recorded for `n` thrown calls are `n` entries, all equal to `now`. |
| `AdvertisementServices.Fallback` | BadProject/AdvertisementService.cs:97-104 | The backup is called once and its answer is the result. The error queue is untouched. A null answer writes nothing to the cache; an advertisement is cached under the key until `now + 5 min`. |
| `AdvertisementServices.Resolve` | BadProject/AdvertisementService.cs:64-109 | One resolution never calls the primary provider more than `retryCount + 1` times. |
| `AdvertisementServices.ResolveCacheHit` | BadProject/AdvertisementService.cs:68-69 | On an unexpired cache entry under `AdvKey_` + id, the cached advertisement is returned. Neither provider is called, and the cache and error queue are unchanged. |
| `AdvertisementServices.ResolveCircuitCheck` | BadProject/AdvertisementService.cs:71-75 | The primary is called if and only if the cache missed and fewer than 10 errors are newer than `now - 1h`. Because pruning runs first and keeps that count, the decision is the same as on the unpruned queue. |
| `AdvertisementServices.ResolvePrimaryAndBackup` | BadProject/AdvertisementService.cs:77-104 | At most `retryCount + 1` primary calls, stopping at the first non-null result. A success is returned and cached until `now + 5 min`, and the backup is not called. A failed primary used every retry. The backup is called if and only if the cache missed and the primary was skipped or exhausted, and its answer is the result. |
| `AdvertisementServices.ResolveErrorBookkeeping` | BadProject/AdvertisementService.cs:72-87 | A cache hit leaves the error queue alone. Otherwise the new queue is the pruned queue plus one `now` per primary call that threw. The count of errors in the last hour grows by exactly that number. |
| `AdvertisementServices.ResolveResultAndCache` | BadProject/AdvertisementService.cs:89-108 | The result is absent if and only if the backup was called and returned nothing, and then the cache is not written. A present result is what the cache now returns under the id's key. After a cache miss, a present result, whether from the primary or the backup, is stored with expiry `now + 5 min`. No other key changes. |
| `AdvertisementServices.RepeatWithinFiveMinutesHitsCache` | BadProject/AdvertisementService.cs:68-94 | After a resolution that missed the cache and found an advertisement, a repeat before `now + 5 min` returns that advertisement from the cache. It calls no provider and changes nothing. |
| `AdvertisementServices.PrimaryNeverAnswers` | BadProject/AdvertisementService.cs:77-98 | If no call returns a value and the circuit is closed, the primary is called exactly `retryCount + 1` times and then the backup once. The queue receives one timestamp per call that threw. |
| `AdvertisementServices.PrimaryAlwaysThrows` | BadProject/AdvertisementService.cs:81-87 | If every primary call throws, `retryCount + 1` timestamps are added, including one for the final failed attempt. |
| `AdvertisementServices.PrimaryAlwaysNull` | BadProject/AdvertisementService.cs:81-87 | If every primary call returns null, the retries happen but no timestamp is added. |
| `AdvertisementServices.CircuitOpenSkipsPrimary` | BadProject/AdvertisementService.cs:75-98 | With 10 or more errors newer than `now - 1h`, a cache miss makes zero primary calls and one backup call, and it only prunes the error queue. |
| `AdvertisementServices.RetryPrimary` | BadProject/AdvertisementService.cs:77-87 | The do/while loop returns the advertisement and the number of calls given by `RunPrimary`, and appends one `now` to the shared queue per call that threw. |
| `AdvertisementServices.AdvertisementService.constructor` | BadProject/AdvertisementService.cs:36-46 | The service holds the shared cache, the retry count, and a newly allocated HTTP error queue with floor 20 on the shared error queue. |
| `AdvertisementServices.AdvertisementService.GetAdvertisement` | BadProject/AdvertisementService.cs:64-109 | The returned advertisement, the number of primary calls, whether the backup was called, the new cache and the new error queue are exactly those given by `Resolve`. |

## Left out

- Locks (`lock` in `GetAdvertisement` and in every `ErrorQueueBase` operation): each call is modelled as atomic and sequential.
- `Thread.Sleep(RetryWaitTime)` after a thrown primary call: timing only.
- The clock: `DateTime.Now` is read separately on each use. The model uses one `now` per call, so the one-hour thresholds for pruning and counting are equal, and every recorded timestamp is `now`, not `now` plus the time spent waiting. `PruneKeepsCount` also covers a counting threshold later than the pruning threshold.
- `DateTime` range errors (`AddHours(-1)` near the minimum date) and the 32-bit `int` result of `Count`: timestamps and counts are unbounded integers.
- RunFromProperties: `attempts` and `_retryCount` are unbounded here, but in C# they are 32-bit `int` and `++attempts` is unchecked. With `_retryCount` equal to 2147483647 and a primary that never returns a value, `attempts` wraps to `int.MinValue`, the guard stays true and the loop never ends. The bound of `retryCount + 1` calls, also stated by `RunPrimary`, `Resolve`, `ResolvePrimaryAndBackup` and `PrimaryNeverAnswers`, holds in C# only for `_retryCount` below 2147483647.
- CacheKeyInjective: a null id is not modelled, since a Dafny `string` cannot be null. In C#, `$"AdvKey_{advertId}"` formats a null id as the empty string, so a null id and `""` share the key `AdvKey_` and the cache entry under it.
- The retry count comes from parsing `ConfigurationManager.AppSettings["RetryCount"]`. The model makes it a constructor parameter of type `nat`.
- `MemoryCache` internals: the cache is a map with lazy expiry, so an entry is visible while `now` is before `expiresAt`. No eviction policy is modelled.
- Static fields (the shared cache, the shared error queue and the shared lock objects): Dafny has no statics. The shared objects are created once by the caller and passed to every constructor, which is what makes instances alias.
- `NoSqlAdvProvider` and `SQLAdvProvider.GetAdv` are foreign calls. They are oracles, and the advertisement id is not passed to them. An exception from the backup provider, or from building the primary provider, would propagate out of the C# method; the model assumes the backup returns a value or null.
- `GetAdvertisement`: requires `|primary| > retryCount`, so the oracle has an answer for every call the loop can make.
- The `Advertisement` payload is an opaque type.
- `ErrorQueueBase.constructor`: the floor is a `nat`. A negative `minimumErrorQueueLength`, which the C# type allows, would make `ClearExcessItems` throw only when every entry is older than the threshold. Then the loop empties the queue and calls `Peek` on it. A head at or after the threshold still leaves the loop through `break`. That case is not modelled.
- BadProject/IAdvertisementService.cs holds only the interface signature and is not part of this model.
