/**
  The advertisement service: resolves an advertisement by id through a cache, a
  primary provider retried a bounded number of times behind a circuit check on the
  HTTP error queue, and a single call to a backup provider.

  The two providers are oracles: `primary[i]` is what the primary provider does on
  its i-th call of one resolution, `backup` what the backup provider returns. The
  clock is the single tick value `now` of the call.
 */
module AdvertisementServices {
  import opened Wrappers
  import opened ErrorQueues
  import opened HttpErrorQueues

  /** The advertisement payload; its structure plays no part here. */
  type Advertisement

  /** The primary provider errors counted within the last hour must stay below this for it to be tried. */
  const AcceptableHttpErrorsWithin1Hour: nat := 10

  /** One hour and five minutes, in `DateTime` ticks. */
  const TicksPerHour: int := 36_000_000_000
  const TicksPerFiveMinutes: int := 3_000_000_000

  /** The fixed prefix of every cache key. */
  const CacheKeyPrefix: string := "AdvKey_"

  // ----- Cache keys -----

  /** The cache key under which the advertisement `advertId` is stored; the id can be read back from it. */
  function CacheKey(advertId: string): (key: string)
    ensures IdOfCacheKey(key) == Some(advertId)
  {
    assert (CacheKeyPrefix + advertId)[|CacheKeyPrefix|..] == advertId;
    CacheKeyPrefix + advertId
  }

  /** The advertisement id a cache key was made from, if it was made by `CacheKey`. */
  function IdOfCacheKey(key: string): Option<string>
  {
    if |key| >= |CacheKeyPrefix| && key[..|CacheKeyPrefix|] == CacheKeyPrefix
    then Some(key[|CacheKeyPrefix|..])
    else None
  }

  /** Different ids never share a cache key. */
  lemma CacheKeyInjective(a: string, b: string)
    ensures CacheKey(a) == CacheKey(b) <==> a == b
  {
  }

  // ----- The cache -----

  /** A cached advertisement with its absolute expiry time. */
  datatype CacheEntry = CacheEntry(advert: Advertisement, expiresAt: Timestamp)

  /** What a cache read returns at time `now`: the value under `key` if it has not expired. */
  function Lookup(entries: map<string, CacheEntry>, key: string, now: Timestamp): (r: Option<Advertisement>)
    // a missing or expired entry reads as absent
    ensures r.None? <==> key !in entries || entries[key].expiresAt <= now
    ensures r.Some? ==> r.value == entries[key].advert
  {
    if key in entries && now < entries[key].expiresAt then Some(entries[key].advert) else None
  }

  /** After a store, the key reads back the stored value until it expires, and every other key reads as before. */
  lemma StoreThenLookup(entries: map<string, CacheEntry>, key: string, advert: Advertisement,
                        expiresAt: Timestamp, other: string, now: Timestamp)
    ensures Lookup(entries[key := CacheEntry(advert, expiresAt)], other, now)
         == if other == key then (if now < expiresAt then Some(advert) else None)
            else Lookup(entries, other, now)
  {
  }

  /** The process-wide advertisement cache, with lazy expiry. */
  class AdvertCache {
    var entries: map<string, CacheEntry>

    constructor ()
      ensures entries == map[]
    {
      entries := map[];
    }

    /** Reads `key` at time `now`; an entry is visible only while `now` is before its expiry. */
    function Get(key: string, now: Timestamp): (r: Option<Advertisement>)
      reads this
      ensures r.None? <==> key !in entries || entries[key].expiresAt <= now
      ensures r.Some? ==> r.value == entries[key].advert
    {
      Lookup(entries, key, now)
    }

    /** Stores `advert` under `key` until `expiresAt`, replacing any earlier entry. */
    method Set(key: string, advert: Advertisement, expiresAt: Timestamp)
      modifies this
      ensures entries == old(entries)[key := CacheEntry(advert, expiresAt)]
    {
      entries := entries[key := CacheEntry(advert, expiresAt)];
    }
  }

  // ----- The primary provider loop -----

  /** What one call of the primary provider does: return an advertisement, return null, or throw. */
  datatype Outcome = Value(advert: Advertisement) | Null | Throws

  /** The number of calls in `s` that threw. */
  function CountThrows(s: seq<Outcome>): (n: nat)
    ensures n <= |s|
  {
    if s == [] then 0 else (if s[0].Throws? then 1 else 0) + CountThrows(s[1..])
  }

  /** No call is counted exactly when none threw, every call exactly when all threw. */
  lemma {:induction false} CountThrowsExtremes(s: seq<Outcome>)
    ensures CountThrows(s) == 0 <==> forall i :: 0 <= i < |s| ==> !s[i].Throws?
    ensures CountThrows(s) == |s| <==> forall i :: 0 <= i < |s| ==> s[i].Throws?
    decreases |s|
  {
    if s != [] {
      var tail := s[1..];
      assert forall i :: 0 <= i < |tail| ==> tail[i] == s[i + 1];
      CountThrowsExtremes(tail);
    }
  }

  /** Throws are counted additively over concatenation. */
  lemma {:induction false} CountThrowsAppend(a: seq<Outcome>, b: seq<Outcome>)
    ensures CountThrows(a + b) == CountThrows(a) + CountThrows(b)
    decreases |a|
  {
    if a == [] {
      assert a + b == b;
    } else {
      assert (a + b)[1..] == a[1..] + b;
      CountThrowsAppend(a[1..], b);
    }
  }

  /** The positions of `s` holding a call that threw. */
  ghost function PositionsThrowing(s: seq<Outcome>): set<int>
  {
    set i | 0 <= i < |s| && s[i].Throws?
  }

  /** The recursive count agrees with the number of positions holding a call that threw. */
  lemma {:induction false} CountThrowsIsPositionCount(s: seq<Outcome>)
    ensures CountThrows(s) == |PositionsThrowing(s)|
    decreases |s|
  {
    if s == [] {
      assert PositionsThrowing(s) == {};
    } else {
      var n := |s| - 1;
      var init := s[..n];
      assert s == init + [s[n]];
      CountThrowsAppend(init, [s[n]]);
      assert CountThrows([s[n]]) == if s[n].Throws? then 1 else 0 by {
        assert [s[n]][1..] == [];
      }
      CountThrowsIsPositionCount(init);
      var before := PositionsThrowing(init);
      if s[n].Throws? {
        assert PositionsThrowing(s) == before + {n};
        assert n !in before;
      } else {
        assert PositionsThrowing(s) == before;
      }
    }
  }

  /** What the retry loop did: the advertisement it got, how many calls it made, how many of them threw. */
  datatype PrimaryRun = PrimaryRun(advert: Option<Advertisement>, calls: nat, thrown: nat)

  /**
    The retry loop over the primary provider from the state where `attempts` calls
    have failed and `thrown` of them threw: call once more, stop on a non-null
    result, otherwise go round again while `attempts + 1 <= retryCount`.
   */
  function RunFrom(outcomes: seq<Outcome>, retryCount: nat, attempts: nat, thrown: nat): (r: PrimaryRun)
    requires attempts <= retryCount < |outcomes|
    // at least one more call, never more than retryCount + 1 in all
    ensures attempts + 1 <= r.calls <= retryCount + 1
    // at most one error per call
    ensures thrown <= r.thrown <= thrown + (r.calls - attempts)
    decreases retryCount - attempts
  {
    var failed := if outcomes[attempts].Throws? then 1 else 0;
    if outcomes[attempts].Value? then PrimaryRun(Some(outcomes[attempts].advert), attempts + 1, thrown)
    else if attempts == retryCount then PrimaryRun(None, attempts + 1, thrown + failed)
    else RunFrom(outcomes, retryCount, attempts + 1, thrown + failed)
  }

  /** What the retry loop does, from any state it can be in. */
  lemma {:induction false} RunFromProperties(outcomes: seq<Outcome>, retryCount: nat, attempts: nat, thrown: nat)
    requires attempts <= retryCount < |outcomes|
    ensures var r := RunFrom(outcomes, retryCount, attempts, thrown);
      // at least one more call, never more than retryCount + 1 in all
      && attempts + 1 <= r.calls <= retryCount + 1
      // every call before the last one failed
      && (forall i :: attempts <= i < r.calls - 1 ==> !outcomes[i].Value?)
      // the loop succeeded exactly when its last call returned a value, and that value is the result
      && (r.advert.Some? <==> outcomes[r.calls - 1].Value?)
      && (r.advert.Some? ==> r.advert.value == outcomes[r.calls - 1].advert)
      // a failed loop used up every retry
      && (r.advert.None? ==> r.calls == retryCount + 1)
      // one error per call that threw
      && r.thrown == thrown + CountThrows(outcomes[attempts..r.calls])
    decreases retryCount - attempts
  {
    if outcomes[attempts].Value? || attempts == retryCount {
      assert outcomes[attempts..attempts + 1] == [outcomes[attempts]];
    } else {
      var failed := if outcomes[attempts].Throws? then 1 else 0;
      RunFromProperties(outcomes, retryCount, attempts + 1, thrown + failed);
      var r := RunFrom(outcomes, retryCount, attempts + 1, thrown + failed);
      assert outcomes[attempts..r.calls][1..] == outcomes[attempts + 1..r.calls];
    }
  }

  /** The whole retry loop of one resolution: no call made yet. */
  function RunPrimary(outcomes: seq<Outcome>, retryCount: nat): (r: PrimaryRun)
    requires |outcomes| > retryCount
    ensures 1 <= r.calls <= retryCount + 1
    ensures forall i :: 0 <= i < r.calls - 1 ==> !outcomes[i].Value?
    ensures r.advert.Some? <==> outcomes[r.calls - 1].Value?
    ensures r.advert.Some? ==> r.advert.value == outcomes[r.calls - 1].advert
    ensures r.advert.None? ==> r.calls == retryCount + 1
    ensures r.thrown == CountThrows(outcomes[..r.calls])
  {
    RunFromProperties(outcomes, retryCount, 0, 0);
    var r := RunFrom(outcomes, retryCount, 0, 0);
    assert outcomes[0..r.calls] == outcomes[..r.calls];
    r
  }

  // ----- One resolution -----

  /** `n` copies of the timestamp `t`. */
  function Stamps(t: Timestamp, n: nat): (s: seq<Timestamp>)
    ensures |s| == n
    ensures forall i :: 0 <= i < n ==> s[i] == t
  {
    if n == 0 then [] else Stamps(t, n - 1) + [t]
  }

  /** The outcome of one resolution: what is returned, which providers were used, and the new shared state. */
  datatype Resolution = Resolution(
    result: Option<Advertisement>,
    primaryCalls: nat,
    backupCalled: bool,
    entries: map<string, CacheEntry>,
    errors: seq<Timestamp>)

  /** The backup step: one call, its value cached for five minutes if there is one. */
  function Fallback(entries: map<string, CacheEntry>, errors: seq<Timestamp>, key: string, now: Timestamp,
                    backup: Option<Advertisement>, primaryCalls: nat): (r: Resolution)
    // the backup is called once, its answer is the result, and the error queue is not touched
    ensures r.backupCalled && r.result == backup && r.primaryCalls == primaryCalls && r.errors == errors
    // nothing is cached for a null answer; an answer is cached for five minutes
    ensures backup.None? ==> r.entries == entries
    ensures backup.Some? ==> r.entries == entries[key := CacheEntry(backup.value, now + TicksPerFiveMinutes)]
  {
    var entries' := if backup.Some? then entries[key := CacheEntry(backup.value, now + TicksPerFiveMinutes)] else entries;
    Resolution(backup, primaryCalls, true, entries', errors)
  }

  /** One call of `GetAdvertisement` on cache `entries` and error queue `errors`. */
  function Resolve(entries: map<string, CacheEntry>, errors: seq<Timestamp>, retryCount: nat, advertId: string,
                   now: Timestamp, primary: seq<Outcome>, backup: Option<Advertisement>): (r: Resolution)
    requires |primary| > retryCount
    ensures r.primaryCalls <= retryCount + 1
  {
    var key := CacheKey(advertId);
    var cached := Lookup(entries, key, now);
    if cached.Some? then Resolution(cached, 0, false, entries, errors)
    else
      var pruned := Pruned(errors, MinimumHttpErrorQueueLength, now - TicksPerHour);
      if CountAbove(pruned, now - TicksPerHour) < AcceptableHttpErrorsWithin1Hour then
        RunFromProperties(primary, retryCount, 0, 0);
        var run := RunPrimary(primary, retryCount);
        var recorded := pruned + Stamps(now, run.thrown);
        if run.advert.Some? then
          Resolution(run.advert, run.calls, false,
                     entries[key := CacheEntry(run.advert.value, now + TicksPerFiveMinutes)], recorded)
        else
          Fallback(entries, recorded, key, now, backup, run.calls)
      else
        Fallback(entries, pruned, key, now, backup, 0)
  }

  // ----- Properties of one resolution -----

  /** On a cache hit the cached advertisement is returned; no provider is called and nothing changes. */
  lemma ResolveCacheHit(entries: map<string, CacheEntry>, errors: seq<Timestamp>, retryCount: nat, advertId: string,
                        now: Timestamp, primary: seq<Outcome>, backup: Option<Advertisement>)
    requires |primary| > retryCount
    requires CacheKey(advertId) in entries && now < entries[CacheKey(advertId)].expiresAt
    ensures Resolve(entries, errors, retryCount, advertId, now, primary, backup)
         == Resolution(Some(entries[CacheKey(advertId)].advert), 0, false, entries, errors)
  {
  }

  /**
    The primary provider is tried exactly when the cache misses and fewer than 10
    errors are newer than an hour ago. Pruning before counting does not change that
    count, so the decision is the same as counting the unpruned queue.
   */
  lemma ResolveCircuitCheck(entries: map<string, CacheEntry>, errors: seq<Timestamp>, retryCount: nat, advertId: string,
                            now: Timestamp, primary: seq<Outcome>, backup: Option<Advertisement>)
    requires |primary| > retryCount
    ensures var r := Resolve(entries, errors, retryCount, advertId, now, primary, backup);
            r.primaryCalls > 0
            <==> Lookup(entries, CacheKey(advertId), now).None?
                 && CountAbove(errors, now - TicksPerHour) < AcceptableHttpErrorsWithin1Hour
  {
    var r := Resolve(entries, errors, retryCount, advertId, now, primary, backup);
    if Lookup(entries, CacheKey(advertId), now).Some? {
      assert r.primaryCalls == 0;
    } else {
      var threshold := now - TicksPerHour;
      var pruned := Pruned(errors, MinimumHttpErrorQueueLength, threshold);
      PruneKeepsCount(errors, MinimumHttpErrorQueueLength, threshold, threshold);
      if CountAbove(pruned, threshold) < AcceptableHttpErrorsWithin1Hour {
        RunFromProperties(primary, retryCount, 0, 0);
        assert r.primaryCalls == RunPrimary(primary, retryCount).calls;
      } else {
        assert r.primaryCalls == 0;
      }
    }
  }

  /**
    The primary provider is called at most retryCount + 1 times and the calls stop at
    the first non-null result. A success is cached for five minutes and returned
    without calling the backup; the backup is called exactly when the cache missed
    and the primary was skipped or used up every retry.
   */
  lemma ResolvePrimaryAndBackup(entries: map<string, CacheEntry>, errors: seq<Timestamp>, retryCount: nat,
                                advertId: string, now: Timestamp, primary: seq<Outcome>, backup: Option<Advertisement>)
    requires |primary| > retryCount
    ensures var r := Resolve(entries, errors, retryCount, advertId, now, primary, backup);
      && r.primaryCalls <= retryCount + 1
      && (forall i :: 0 <= i < r.primaryCalls - 1 ==> !primary[i].Value?)
      && (r.primaryCalls > 0 && primary[r.primaryCalls - 1].Value? ==>
            && r.result == Some(primary[r.primaryCalls - 1].advert)
            && !r.backupCalled
            && r.entries == entries[CacheKey(advertId) := CacheEntry(primary[r.primaryCalls - 1].advert,
                                                                     now + TicksPerFiveMinutes)])
      && (r.primaryCalls > 0 && !primary[r.primaryCalls - 1].Value? ==> r.primaryCalls == retryCount + 1)
      && (r.backupCalled <==>
            Lookup(entries, CacheKey(advertId), now).None?
            && (r.primaryCalls == 0 || !primary[r.primaryCalls - 1].Value?))
      && (r.backupCalled ==> r.result == backup)
  {
    RunFromProperties(primary, retryCount, 0, 0);
  }

  /** A run of timestamps all at `t` is counted in full against any earlier threshold. */
  lemma CountAboveStamps(t: Timestamp, n: nat, threshold: Timestamp)
    requires threshold < t
    ensures CountAbove(Stamps(t, n), threshold) == n
  {
  }

  /**
    Error bookkeeping: a cache hit leaves the error queue alone; otherwise the queue
    is pruned and then receives one timestamp per primary call that threw (none for
    a call that returned null). The count of errors within the last hour grows by
    exactly the number of calls that threw.
   */
  lemma ResolveErrorBookkeeping(entries: map<string, CacheEntry>, errors: seq<Timestamp>, retryCount: nat,
                                advertId: string, now: Timestamp, primary: seq<Outcome>, backup: Option<Advertisement>)
    requires |primary| > retryCount
    ensures var r := Resolve(entries, errors, retryCount, advertId, now, primary, backup);
            Lookup(entries, CacheKey(advertId), now).Some? ==> r.errors == errors
    ensures var r := Resolve(entries, errors, retryCount, advertId, now, primary, backup);
            Lookup(entries, CacheKey(advertId), now).None? ==>
              r.errors == Pruned(errors, MinimumHttpErrorQueueLength, now - TicksPerHour)
                          + Stamps(now, CountThrows(primary[..r.primaryCalls]))
    ensures var r := Resolve(entries, errors, retryCount, advertId, now, primary, backup);
            CountAbove(r.errors, now - TicksPerHour)
            == CountAbove(errors, now - TicksPerHour) + CountThrows(primary[..r.primaryCalls])
  {
    var r := Resolve(entries, errors, retryCount, advertId, now, primary, backup);
    var threshold := now - TicksPerHour;
    if Lookup(entries, CacheKey(advertId), now).Some? {
      assert r.primaryCalls == 0 && r.errors == errors;
      assert primary[..0] == [];
    } else {
      var pruned := Pruned(errors, MinimumHttpErrorQueueLength, threshold);
      PruneKeepsCount(errors, MinimumHttpErrorQueueLength, threshold, threshold);
      var thrown: nat;
      if CountAbove(pruned, threshold) < AcceptableHttpErrorsWithin1Hour {
        RunFromProperties(primary, retryCount, 0, 0);
        var run := RunPrimary(primary, retryCount);
        assert r.primaryCalls == run.calls && r.errors == pruned + Stamps(now, run.thrown);
        assert primary[0..run.calls] == primary[..run.calls];
        thrown := run.thrown;
      } else {
        assert r.primaryCalls == 0 && r.errors == pruned;
        assert primary[..0] == [];
        assert pruned + Stamps(now, 0) == pruned;
        thrown := 0;
      }
      assert thrown == CountThrows(primary[..r.primaryCalls]);
      assert r.errors == pruned + Stamps(now, thrown);
      CountAboveAppend(pruned, Stamps(now, thrown), threshold);
      CountAboveStamps(now, thrown, threshold);
    }
  }

  /**
    The result is absent exactly when the backup was called and returned nothing;
    then the cache is not written. A result that is present is what the cache now
    holds under the id's key, and no other key changes.
   */
  lemma ResolveResultAndCache(entries: map<string, CacheEntry>, errors: seq<Timestamp>, retryCount: nat,
                              advertId: string, now: Timestamp, primary: seq<Outcome>, backup: Option<Advertisement>)
    requires |primary| > retryCount
    ensures var r := Resolve(entries, errors, retryCount, advertId, now, primary, backup);
            r.result.None? <==> r.backupCalled && backup.None?
    ensures var r := Resolve(entries, errors, retryCount, advertId, now, primary, backup);
            r.result.None? ==> r.entries == entries
    ensures var r := Resolve(entries, errors, retryCount, advertId, now, primary, backup);
            r.result.Some? ==> Lookup(r.entries, CacheKey(advertId), now) == r.result
    ensures var r := Resolve(entries, errors, retryCount, advertId, now, primary, backup);
            Lookup(entries, CacheKey(advertId), now).None? && r.result.Some? ==>
              r.entries == entries[CacheKey(advertId) := CacheEntry(r.result.value, now + TicksPerFiveMinutes)]
    ensures var r := Resolve(entries, errors, retryCount, advertId, now, primary, backup);
            r.entries - {CacheKey(advertId)} == entries - {CacheKey(advertId)}
  {
    var r := Resolve(entries, errors, retryCount, advertId, now, primary, backup);
    var key := CacheKey(advertId);
    if Lookup(entries, key, now).None? {
      var threshold := now - TicksPerHour;
      var pruned := Pruned(errors, MinimumHttpErrorQueueLength, threshold);
      var run := RunPrimary(primary, retryCount);
      if CountAbove(pruned, threshold) < AcceptableHttpErrorsWithin1Hour && run.advert.Some? {
        assert r.result == run.advert && !r.backupCalled;
        assert r.entries == entries[key := CacheEntry(run.advert.value, now + TicksPerFiveMinutes)];
      } else {
        assert r.result == backup && r.backupCalled;
        assert r.entries == if backup.Some? then entries[key := CacheEntry(backup.value, now + TicksPerFiveMinutes)]
                            else entries;
      }
    }
  }

  /**
    A resolution that missed the cache and found an advertisement is answered from
    the cache by any repeat within five minutes, with no provider call and no change
    to the error queue.
   */
  lemma RepeatWithinFiveMinutesHitsCache(entries: map<string, CacheEntry>, errors: seq<Timestamp>, retryCount: nat,
                                         advertId: string, now: Timestamp, primary: seq<Outcome>,
                                         backup: Option<Advertisement>, later: Timestamp,
                                         primary': seq<Outcome>, backup': Option<Advertisement>)
    requires |primary| > retryCount && |primary'| > retryCount
    requires Lookup(entries, CacheKey(advertId), now).None?
    requires later < now + TicksPerFiveMinutes
    ensures var r := Resolve(entries, errors, retryCount, advertId, now, primary, backup);
            r.result.Some? ==>
              Resolve(r.entries, r.errors, retryCount, advertId, later, primary', backup')
              == Resolution(r.result, 0, false, r.entries, r.errors)
  {
    RunFromProperties(primary, retryCount, 0, 0);
  }

  /**
    Retry bound: when every primary call fails, the primary is called exactly
    retryCount + 1 times and then the backup once; the error queue receives one
    timestamp per call that threw, so none when every call returned null.
   */
  lemma PrimaryNeverAnswers(entries: map<string, CacheEntry>, errors: seq<Timestamp>, retryCount: nat,
                            advertId: string, now: Timestamp, primary: seq<Outcome>, backup: Option<Advertisement>)
    requires |primary| > retryCount
    requires forall i :: 0 <= i <= retryCount ==> !primary[i].Value?
    requires Lookup(entries, CacheKey(advertId), now).None?
    requires CountAbove(errors, now - TicksPerHour) < AcceptableHttpErrorsWithin1Hour
    ensures var r := Resolve(entries, errors, retryCount, advertId, now, primary, backup);
            r.primaryCalls == retryCount + 1 && r.backupCalled && r.result == backup
    ensures var r := Resolve(entries, errors, retryCount, advertId, now, primary, backup);
            r.errors == Pruned(errors, MinimumHttpErrorQueueLength, now - TicksPerHour)
                        + Stamps(now, CountThrows(primary[..retryCount + 1]))
  {
    var r := Resolve(entries, errors, retryCount, advertId, now, primary, backup);
    PruneKeepsCount(errors, MinimumHttpErrorQueueLength, now - TicksPerHour, now - TicksPerHour);
    RunFromProperties(primary, retryCount, 0, 0);
    var run := RunPrimary(primary, retryCount);
    assert run.advert.None?;
    assert primary[0..run.calls] == primary[..retryCount + 1];
  }

  /** When every call throws, each of the retryCount + 1 calls leaves one timestamp. */
  lemma PrimaryAlwaysThrows(entries: map<string, CacheEntry>, errors: seq<Timestamp>, retryCount: nat,
                            advertId: string, now: Timestamp, primary: seq<Outcome>, backup: Option<Advertisement>)
    requires |primary| > retryCount
    requires forall i :: 0 <= i <= retryCount ==> primary[i].Throws?
    requires Lookup(entries, CacheKey(advertId), now).None?
    requires CountAbove(errors, now - TicksPerHour) < AcceptableHttpErrorsWithin1Hour
    ensures var r := Resolve(entries, errors, retryCount, advertId, now, primary, backup);
            r.primaryCalls == retryCount + 1 && r.backupCalled
            && r.errors == Pruned(errors, MinimumHttpErrorQueueLength, now - TicksPerHour) + Stamps(now, retryCount + 1)
  {
    PrimaryNeverAnswers(entries, errors, retryCount, advertId, now, primary, backup);
    var calls := primary[..retryCount + 1];
    assert forall i :: 0 <= i < |calls| ==> calls[i].Throws?;
    CountThrowsExtremes(calls);
  }

  /** When every call returns null, the retries happen but no error timestamp is recorded. */
  lemma PrimaryAlwaysNull(entries: map<string, CacheEntry>, errors: seq<Timestamp>, retryCount: nat,
                          advertId: string, now: Timestamp, primary: seq<Outcome>, backup: Option<Advertisement>)
    requires |primary| > retryCount
    requires forall i :: 0 <= i <= retryCount ==> primary[i].Null?
    requires Lookup(entries, CacheKey(advertId), now).None?
    requires CountAbove(errors, now - TicksPerHour) < AcceptableHttpErrorsWithin1Hour
    ensures var r := Resolve(entries, errors, retryCount, advertId, now, primary, backup);
            r.primaryCalls == retryCount + 1 && r.backupCalled
            && r.errors == Pruned(errors, MinimumHttpErrorQueueLength, now - TicksPerHour)
  {
    PrimaryNeverAnswers(entries, errors, retryCount, advertId, now, primary, backup);
    var calls := primary[..retryCount + 1];
    assert forall i :: 0 <= i < |calls| ==> !calls[i].Throws?;
    CountThrowsExtremes(calls);
    var pruned := Pruned(errors, MinimumHttpErrorQueueLength, now - TicksPerHour);
    assert pruned + Stamps(now, 0) == pruned;
  }

  /** Circuit open: with 10 or more errors newer than an hour ago, a cache miss goes straight to the backup. */
  lemma CircuitOpenSkipsPrimary(entries: map<string, CacheEntry>, errors: seq<Timestamp>, retryCount: nat,
                                advertId: string, now: Timestamp, primary: seq<Outcome>, backup: Option<Advertisement>)
    requires |primary| > retryCount
    requires Lookup(entries, CacheKey(advertId), now).None?
    requires CountAbove(errors, now - TicksPerHour) >= AcceptableHttpErrorsWithin1Hour
    ensures var r := Resolve(entries, errors, retryCount, advertId, now, primary, backup);
      && r.primaryCalls == 0 && r.backupCalled && r.result == backup
      && r.errors == Pruned(errors, MinimumHttpErrorQueueLength, now - TicksPerHour)
  {
    PruneKeepsCount(errors, MinimumHttpErrorQueueLength, now - TicksPerHour, now - TicksPerHour);
  }


  /**
    The do/while loop over the primary provider: call it, record one error timestamp
    when the call throws, and go round again while the result is null and
    `++attempts <= retryCount`.
   */
  method RetryPrimary(errors: ErrorQueueBase, retryCount: nat, now: Timestamp, primary: seq<Outcome>)
    returns (advert: Option<Advertisement>, calls: nat)
    requires |primary| > retryCount
    modifies errors.queue
    ensures var run := RunPrimary(primary, retryCount);
            advert == run.advert && calls == run.calls
            && errors.queue.items == old(errors.queue.items) + Stamps(now, run.thrown)
  {
    ghost var run := RunPrimary(primary, retryCount);
    ghost var thrown: nat := 0;
    advert, calls := None, 0;
    var attempts := 0;
    var retrying := true;
    while retrying
      invariant attempts <= retryCount + 1
      invariant retrying ==> advert.None? && attempts == calls && attempts <= retryCount
      invariant retrying ==> run == RunFrom(primary, retryCount, attempts, thrown)
      invariant !retrying ==> run == PrimaryRun(advert, calls, thrown)
      invariant errors.queue.items == old(errors.queue.items) + Stamps(now, thrown)
      decreases if retrying then retryCount + 2 - attempts else 0
    {
      match primary[attempts] {
        case Value(a) =>
          advert := Some(a);
        case Null =>
        case Throws =>
          errors.Enqueue(now);
          thrown := thrown + 1;
      }
      calls := calls + 1;
      if advert.None? {
        attempts := attempts + 1;
        retrying := attempts <= retryCount;
      } else {
        retrying := false;
      }
    }
  }

  /** The advertisement service: the shared cache, its own HTTP error queue on the shared queue, and the retry count. */
  class AdvertisementService {
    const retryCount: nat
    const cache: AdvertCache
    const httpErrorQueue: HttpErrorQueue

    ghost predicate Valid()
    {
      httpErrorQueue.errors.minimumLength == MinimumHttpErrorQueueLength
    }

    constructor (retryCount: nat, cache: AdvertCache, sharedErrors: TimestampQueue)
      ensures Valid()
      ensures this.retryCount == retryCount && this.cache == cache
      ensures fresh(httpErrorQueue) && httpErrorQueue.errors.queue == sharedErrors
      ensures unchanged(cache, sharedErrors)
    {
      this.retryCount := retryCount;
      this.cache := cache;
      httpErrorQueue := new HttpErrorQueue(sharedErrors);
    }

    /**
      Resolves `advertId`. Also returns how many times the primary provider was
      called and whether the backup provider was called.
     */
    method GetAdvertisement(advertId: string, now: Timestamp, primary: seq<Outcome>, backup: Option<Advertisement>)
      returns (advert: Option<Advertisement>, primaryCalls: nat, backupCalled: bool)
      requires Valid()
      requires |primary| > retryCount
      modifies cache, httpErrorQueue.errors.queue
      ensures var r := Resolve(old(cache.entries), old(httpErrorQueue.errors.queue.items), retryCount,
                               advertId, now, primary, backup);
              advert == r.result && primaryCalls == r.primaryCalls && backupCalled == r.backupCalled
              && cache.entries == r.entries && httpErrorQueue.errors.queue.items == r.errors
    {
      var key := CacheKey(advertId);
      advert := cache.Get(key, now);
      primaryCalls, backupCalled := 0, false;
      if advert.Some? {
        return;
      }

      var errors := httpErrorQueue.errors;
      errors.ClearExcessItems(now - TicksPerHour);
      if errors.CountWithinThreshold(now - TicksPerHour) < AcceptableHttpErrorsWithin1Hour {
        advert, primaryCalls := RetryPrimary(errors, retryCount, now, primary);
        if advert.Some? {
          cache.Set(key, advert.value, now + TicksPerFiveMinutes);
          return;
        }
      }

      advert := backup;
      backupCalled := true;
      if advert.Some? {
        cache.Set(key, advert.value, now + TicksPerFiveMinutes);
      }
    }
  }
}
