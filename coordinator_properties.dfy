/** What one refresh, one reconfiguration and one load promise, stated over
    the specification functions the coordinator's methods are proved to follow. */
module CoordinatorProperties {
  import opened Readings
  import opened CoordinatorSpec
  import Const

  // ---------------------------------------------------------------------------
  // Backoff and reset

  /** A failed refresh takes one backoff step and changes nothing else: the
      configured period, the cache, its time and storage stay as they were. */
  lemma FailureBacksOff(s: State, fetch: Fetch, now: Timestamp, save: SaveOutcome)
    requires !IsObject(fetch)
    ensures RefreshStep(s, fetch, now, save).0 == s.(interval := Backoff(s.interval))
    ensures 0 < s.interval < MaxInterval ==>
              RefreshStep(s, fetch, now, save).0.interval == Min(2 * s.interval, MaxInterval)
    ensures s.interval >= MaxInterval ==> RefreshStep(s, fetch, now, save).0.interval == s.interval
  {
  }

  /** A successful refresh whose save is not cut off by the timeout puts the
      period back to the configured one, whatever the backoff depth was; the
      configured one never changes. */
  lemma ResetOnSuccess(s: State, data: Reading, now: Timestamp, save: SaveOutcome)
    ensures !save.SaveTimedOut? ==> RefreshStep(s, Received(Object(data)), now, save).0.interval == s.baseInterval
    ensures RefreshStep(s, Received(Object(data)), now, save).0.baseInterval == s.baseInterval
  {
  }

  /** `n` backoff steps in a row. */
  function BackoffN(interval: nat, n: nat): nat
  {
    if n == 0 then interval else Backoff(BackoffN(interval, n - 1))
  }

  function Pow2(n: nat): (r: nat)
    ensures r >= 1
  {
    if n == 0 then 1 else 2 * Pow2(n - 1)
  }

  /** After `n` failures in a row from period `i`, the period is
      `min(i * 2^n, 300)`, or `i` itself when `i` is 0 or already at or
      above 300. */
  lemma {:induction false} BackoffClosedForm(i: nat, n: nat)
    ensures BackoffN(i, n) == if 0 < i < MaxInterval then Min(i * Pow2(n), MaxInterval) else i
  {
    if n > 0 {
      BackoffClosedForm(i, n - 1);
      assert i * Pow2(n) == 2 * (i * Pow2(n - 1));
    }
  }

  /** The backoff values the test suite asserts: 10 s, 20 s, 40 s; and
      240 s capped at 300 s rather than 480 s. */
  lemma BackoffTraces()
    ensures Backoff(10) == 20 && Backoff(20) == 40
    ensures Backoff(240) == 300
  {
  }

  /** At the cap the period stays, so from 10 s five failures reach the cap
      and any further failure leaves it there. */
  lemma BackoffStaysAtCap()
    ensures Backoff(300) == 300
    ensures BackoffN(10, 5) == 300 && BackoffN(10, 6) == 300
  {
  }

  // ---------------------------------------------------------------------------
  // Success: cache, write-through, storage failure isolation

  /** A successful refresh with a working store caches the reading with the
      time, persists exactly that pair and returns the reading. */
  lemma WriteThrough(s: State, data: Reading, now: Timestamp)
    ensures var (t, r) := RefreshStep(s, Received(Object(data)), now, Saved);
            && t.lastData == Some(data)
            && t.lastTime == Some(now)
            && t.stored == Some(StoredRecord(data, Some(now)))
            && r == Data(data)
  {
  }

  /** A save that raises is swallowed: the result, the period and the cache
      are what a working save gives; only storage keeps its old contents. */
  lemma SaveFailureIsolated(s: State, data: Reading, now: Timestamp)
    ensures var (ok, rOk) := RefreshStep(s, Received(Object(data)), now, Saved);
            var (bad, rBad) := RefreshStep(s, Received(Object(data)), now, SaveError);
            && rBad == rOk
            && bad == ok.(stored := s.stored)
  {
  }

  /** A save still pending when the 15-second budget runs out turns the
      refresh into a timeout failure after the reading was cached at `now`:
      the period backs off instead of resetting, and the caller gets, not the
      reading itself, but its same-day substitute when the cancellation at
      `at` falls on the same day, its all-zero substitute when midnight has
      passed in between, or `UpdateFailed` if it was an empty object. */
  lemma SaveTimeoutIsAFailure(s: State, data: Reading, now: Timestamp, written: bool, at: Timestamp)
    ensures var (t, r) := RefreshStep(s, Received(Object(data)), now, SaveTimedOut(written, at));
            && t.interval == Backoff(s.interval)
            && t.baseInterval == s.baseInterval
            && t.lastData == Some(data)
            && t.lastTime == Some(now)
            && t.stored == (if written then Some(StoredRecord(data, Some(now))) else s.stored)
            && (data != map[] && DayOf(at) == DayOf(now) ==> r == Data(SameDaySubstitute(data)))
            && (data != map[] && DayOf(at) != DayOf(now) ==> r == Data(AllZeroSubstitute(data)))
            && (data == map[] ==> r == UpdateFailed(Transport(Timeout)))
  {
  }

  // ---------------------------------------------------------------------------
  // Failure: non-object payloads, the three-way substitution decision

  /** A payload that is not a JSON object is handled like a transport error:
      same new state, and the same reading or an `UpdateFailed` alike. */
  lemma NonObjectLikeTransportError(s: State, v: Value, e: TransportError, now: Timestamp, save: SaveOutcome)
    ensures RefreshStep(s, Received(NonObject(v)), now, save).0 == RefreshStep(s, Failed(e), now, save).0
    ensures RefreshStep(s, Received(NonObject(v)), now, save).1.Data? ==>
              RefreshStep(s, Received(NonObject(v)), now, save).1 == RefreshStep(s, Failed(e), now, save).1
    ensures RefreshStep(s, Received(NonObject(v)), now, save).1.UpdateFailed? <==>
              RefreshStep(s, Failed(e), now, save).1.UpdateFailed?
  {
  }

  /** Same-day failure: the substitute has exactly the cache's keys; daily
      accumulators keep their cached value and every other field is 0. */
  lemma SameDayFailure(s: State, fetch: Fetch, now: Timestamp, save: SaveOutcome)
    requires !IsObject(fetch)
    requires HasCache(s.lastData) && CachedToday(s.lastTime, now)
    ensures var r := RefreshStep(s, fetch, now, save).1;
            && r.Data?
            && r.reading.Keys == s.lastData.value.Keys
            && (forall k :: k in r.reading && k in Const.DailySensors ==> r.reading[k] == s.lastData.value[k])
            && (forall k :: k in r.reading && k !in Const.DailySensors ==> r.reading[k] == Zero)
  {
  }

  /** Failure with a cache from another day, or with no cached time: the
      substitute has exactly the cache's keys, every one 0. */
  lemma StaleCacheFailure(s: State, fetch: Fetch, now: Timestamp, save: SaveOutcome)
    requires !IsObject(fetch)
    requires HasCache(s.lastData) && !CachedToday(s.lastTime, now)
    ensures var r := RefreshStep(s, fetch, now, save).1;
            && r.Data?
            && r.reading.Keys == s.lastData.value.Keys
            && (forall k :: k in r.reading ==> r.reading[k] == Zero)
  {
  }

  /** Failure with no cache (absent, or an empty object): `UpdateFailed`
      carrying the fetch's error, and no reading. */
  lemma NoCacheFailure(s: State, fetch: Fetch, now: Timestamp, save: SaveOutcome)
    requires !IsObject(fetch)
    requires !HasCache(s.lastData)
    ensures RefreshStep(s, fetch, now, save).1 == UpdateFailed(FetchErrorOf(fetch))
  {
  }

  /** The two substitutes agree on every instantaneous field, and differ only
      on daily fields whose cached value was not already 0. "Differ" is
      structural equality of values, so a cached `Float(0.0)` differs from
      `Zero` although Python's `==` calls them equal. */
  lemma SubstitutesDifferOnlyOnDailyFields(cache: Reading, k: string)
    requires k in cache
    ensures k in SameDaySubstitute(cache) && k in AllZeroSubstitute(cache)
    ensures SameDaySubstitute(cache)[k] != AllZeroSubstitute(cache)[k] <==>
              k in Const.DailySensors && cache[k] != Zero
  {
  }

  /** A second failure on the same day returns the same substitute as the
      first: a failure does not touch the cache it substitutes from. */
  lemma RepeatedSameDayFailure(s: State, f1: Fetch, f2: Fetch, t1: Timestamp, t2: Timestamp, save1: SaveOutcome, save2: SaveOutcome)
    requires !IsObject(f1) && !IsObject(f2)
    requires DayOf(t1) == DayOf(t2)
    requires HasCache(s.lastData)
    ensures RefreshStep(RefreshStep(s, f1, t1, save1).0, f2, t2, save2).1 == RefreshStep(s, f1, t1, save1).1
  {
  }

  // ---------------------------------------------------------------------------
  // Reconfiguration and loading

  /** A new configured period takes effect at once for both periods,
      overriding any backoff in progress; the cache and storage stay. When
      the options hold no period, nothing changes. */
  lemma ReconfigureOverridesBackoff(s: State, option: Option<nat>)
    ensures option.Some? ==> Reconfigured(s, option).interval == option.value
    ensures option.Some? ==> Reconfigured(s, option).baseInterval == option.value
    ensures option.Some? ==> IntervalsValid(Reconfigured(s, option))
    ensures option.None? ==> Reconfigured(s, option) == s
    ensures Reconfigured(s, option).(interval := s.interval, baseInterval := s.baseInterval) == s
  {
  }

  /** Loading copies the stored reading into the cache, and the stored time
      when there is one; an absent record or a read error changes nothing. */
  lemma LoadCopiesRecord(s: State, loadOk: bool)
    ensures loadOk && s.stored.Some? ==>
              && Loaded(s, loadOk).lastData == Some(s.stored.value.data)
              && Loaded(s, loadOk).lastTime ==
                   (if s.stored.value.timestamp.Some? then s.stored.value.timestamp else s.lastTime)
    ensures !loadOk || s.stored.None? ==> Loaded(s, loadOk) == s
    ensures Loaded(s, loadOk).(lastData := s.lastData, lastTime := s.lastTime) == s
  {
  }

  /** A record without a time seeds the cache with a reading but no time; a
      failure then falls to the all-zero substitute, never the same-day one. */
  lemma LoadedWithoutTimeZeroesEverything(base: nat, data: Reading, fetch: Fetch, now: Timestamp, save: SaveOutcome)
    requires data != map[]
    requires !IsObject(fetch)
    ensures var s := Loaded(Initial(base, Some(StoredRecord(data, None))), true);
            && s.lastData == Some(data) && s.lastTime == None
            && RefreshStep(s, fetch, now, save).1 == Data(AllZeroSubstitute(data))
  {
  }

  /** Persistence round trip: after a successful refresh with a working
      store, a new coordinator over that storage that loads it gets back the
      same reading and time. */
  lemma PersistenceRoundTrip(s: State, data: Reading, now: Timestamp, base: nat)
    ensures var saved := RefreshStep(s, Received(Object(data)), now, Saved).0;
            var reloaded := Loaded(Initial(base, saved.stored), true);
            && reloaded.lastData == Some(data)
            && reloaded.lastTime == Some(now)
  {
  }

  /** Refreshes and loads keep the poll-period invariant. */
  lemma RefreshKeepsIntervalsValid(s: State, fetch: Fetch, now: Timestamp, save: SaveOutcome)
    requires IntervalsValid(s)
    ensures IntervalsValid(RefreshStep(s, fetch, now, save).0)
  {
  }

  lemma LoadKeepsIntervalsValid(s: State, loadOk: bool)
    requires IntervalsValid(s)
    ensures IntervalsValid(Loaded(s, loadOk))
  {
  }
}
