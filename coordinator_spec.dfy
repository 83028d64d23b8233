/** The coordinator's behaviour as pure functions over an abstract state:
    one refresh (fetch outcome and clock as inputs), one reconfiguration of
    the poll period, and one load of the persisted record. The class in
    module Coordinator is proved to follow these functions step by step. */
module CoordinatorSpec {
  import opened Readings
  import Const

  /** The backoff ceiling: five minutes, in seconds. */
  const MaxInterval: nat := 300

  /** Why the HTTP exchange itself failed (timeout, connection error, a
      non-2xx status raised by `raise_for_status`, a body that is not JSON). */
  datatype TransportError = Timeout | ClientError | HttpStatus(code: int) | NotJson

  /** A decoded response body: a JSON object, or any other JSON value (a
      top-level array included). The other value only feeds the error. */
  datatype Payload = Object(fields: Reading) | NonObject(value: Value)

  /** The outcome of one bounded-time GET of the status endpoint. */
  datatype Fetch = Received(payload: Payload) | Failed(error: TransportError)

  /** The error a failed refresh carries. */
  datatype FetchError = Transport(error: TransportError) | InvalidFormat(value: Value)

  /** How the write of the persisted record ends: it completes; it raises
      (the error is swallowed); or the 15-second budget that covers the whole
      refresh runs out while the write is pending, which cancels the refresh
      with a timeout. `written` says whether the record reached storage
      before the cancellation; `at` is the clock reading the failure branch
      takes afterwards, which can fall on a later day than the reading's. */
  datatype SaveOutcome = Saved | SaveError | SaveTimedOut(written: bool, at: Timestamp)

  /** What a refresh gives its caller: a reading (fresh or substituted), or
      the `UpdateFailed` error. */
  datatype RefreshResult = Data(reading: Reading) | UpdateFailed(cause: FetchError)

  /** The persisted blob `{data, timestamp}`. */
  datatype StoredRecord = StoredRecord(data: Reading, timestamp: Option<Timestamp>)

  /** The coordinator's state: current and configured poll period (seconds),
      the cached reading and its time, and the persisted record. */
  datatype State = State(
    interval: nat,
    baseInterval: nat,
    lastData: Option<Reading>,
    lastTime: Option<Timestamp>,
    stored: Option<StoredRecord>)

  function Min(a: int, b: int): int { if a <= b then a else b }

  function Max(a: int, b: int): int { if a <= b then b else a }

  /** The poll-period invariant: the current period lies between the
      configured one and the larger of the configured one and the ceiling. */
  predicate IntervalsValid(s: State)
  {
    s.baseInterval <= s.interval <= Max(s.baseInterval, MaxInterval)
  }

  /** The poll period at start-up: the options value if there is one,
      otherwise the value given when the device was first configured. */
  function ConfiguredInterval(options: Option<nat>, data: Option<nat>): Option<nat>
  {
    if options.Some? then options else data
  }

  /** A freshly constructed coordinator over what storage already holds. */
  function Initial(scanInterval: nat, persisted: Option<StoredRecord>): State
  {
    State(scanInterval, scanInterval, None, None, persisted)
  }

  /** One step of exponential backoff: a period below the ceiling doubles,
      clamped to the ceiling; a period at or above it (or zero) stays. */
  function Backoff(interval: nat): (r: nat)
    ensures interval <= r <= Max(interval, MaxInterval)
    ensures r == interval <==> (interval == 0 || interval >= MaxInterval)
  {
    if 0 < interval < MaxInterval then Min(2 * interval, MaxInterval) else interval
  }

  /** Whether the cached reading counts as a cache: present and non-empty. */
  predicate HasCache(data: Option<Reading>)
  {
    data.Some? && data.value != map[]
  }

  /** Whether the cached time exists and falls on the same local day as `now`. */
  predicate CachedToday(lastTime: Option<Timestamp>, now: Timestamp)
  {
    lastTime.Some? && DayOf(now) == DayOf(lastTime.value)
  }

  /** The value a field takes in a same-day substitute. */
  function KeepIfDaily(key: string, v: Value): Value
  {
    if key in Const.DailySensors then v else Zero
  }

  /** Same-day substitute: the cache's daily fields, every other field 0. */
  function SameDaySubstitute(cache: Reading): Reading
  {
    map k | k in cache :: KeepIfDaily(k, cache[k])
  }

  /** Stale-cache substitute: every field of the cache set to 0. */
  function AllZeroSubstitute(cache: Reading): Reading
  {
    map k | k in cache :: Zero
  }

  /** What a failed refresh returns: a same-day substitute, an all-zero
      substitute, or `UpdateFailed` when there is no cache at all. */
  function FailureResult(lastData: Option<Reading>, lastTime: Option<Timestamp>, now: Timestamp,
                         cause: FetchError): RefreshResult
  {
    if HasCache(lastData) && CachedToday(lastTime, now) then
      Data(SameDaySubstitute(lastData.value))
    else if HasCache(lastData) then
      Data(AllZeroSubstitute(lastData.value))
    else
      UpdateFailed(cause)
  }

  /** Whether a fetch produced a usable reading (a JSON object). */
  predicate IsObject(fetch: Fetch)
  {
    fetch.Received? && fetch.payload.Object?
  }

  /** The error a fetch that did not produce a JSON object is reported with. */
  function FetchErrorOf(fetch: Fetch): FetchError
    requires !IsObject(fetch)
  {
    if fetch.Failed? then Transport(fetch.error) else InvalidFormat(fetch.payload.value)
  }

  /** Whether the persisted record ends up in storage. */
  predicate Persists(save: SaveOutcome)
  {
    save.Saved? || (save.SaveTimedOut? && save.written)
  }

  /** The failure branch of a refresh: one backoff step, then a substitute
      or `UpdateFailed`; the cache, its time and storage are untouched. */
  function FailedStep(s: State, now: Timestamp, cause: FetchError): (State, RefreshResult)
  {
    (s.(interval := Backoff(s.interval)), FailureResult(s.lastData, s.lastTime, now, cause))
  }

  /** One refresh; `now` is the clock reading of the success branch, or of
      the failure branch when the fetch fails, and `save` says how the write
      to storage ends. Returns the new state and what the caller receives. A
      save cut off by the timeout comes after the reading was cached with
      `now`, so the refresh then takes the failure branch over the new cache
      at the later reading `save.at`. */
  function RefreshStep(s: State, fetch: Fetch, now: Timestamp, save: SaveOutcome): (State, RefreshResult)
  {
    if IsObject(fetch) then
      var data := fetch.payload.fields;
      var cached := s.(lastData := Some(data),
                       lastTime := Some(now),
                       stored := if Persists(save) then Some(StoredRecord(data, Some(now))) else s.stored);
      if save.SaveTimedOut? then
        FailedStep(cached, save.at, Transport(Timeout))
      else
        (cached.(interval := s.baseInterval), Data(data))
    else
      FailedStep(s, now, FetchErrorOf(fetch))
  }

  /** A new poll period from the options replaces both periods. When the
      options hold no period the lookup raises and nothing changes. */
  function Reconfigured(s: State, option: Option<nat>): State
  {
    if option.Some? then s.(interval := option.value, baseInterval := option.value) else s
  }

  /** Seeding the cache from storage; `loadOk` is false when reading the
      store raises. The cached time is only overwritten when the record has one. */
  function Loaded(s: State, loadOk: bool): State
  {
    if loadOk && s.stored.Some? then
      var rec := s.stored.value;
      s.(lastData := Some(rec.data),
         lastTime := if rec.timestamp.Some? then rec.timestamp else s.lastTime)
    else
      s
  }
}
