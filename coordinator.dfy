/** The update coordinator as an object whose methods change its fields in
    place, each proved to take the step its specification function in
    CoordinatorSpec describes. */
module Coordinator {
  import opened Readings
  import opened CoordinatorSpec
  import Const

  /** Builds the same-day substitute field by field: daily accumulators keep
      their cached value, every other field becomes 0. */
  method BuildSameDaySubstitute(cache: Reading) returns (substitute: Reading)
    ensures substitute == SameDaySubstitute(cache)
  {
    substitute := map[];
    var pending := cache.Keys;
    while pending != {}
      invariant pending <= cache.Keys
      invariant substitute.Keys == cache.Keys - pending
      invariant forall k :: k in substitute ==> substitute[k] == KeepIfDaily(k, cache[k])
      decreases pending
    {
      var key :| key in pending;
      if key in Const.DailySensors {
        substitute := substitute[key := cache[key]];
      } else {
        substitute := substitute[key := Zero];
      }
      pending := pending - {key};
    }
  }

  class OpenInverterCoordinator {
    /** Current poll period in seconds (`update_interval`). */
    var interval: nat
    /** Configured poll period in seconds (`_base_update_interval`). */
    var baseInterval: nat
    /** Last successfully fetched reading (`_last_valid_data`). */
    var lastData: Option<Reading>
    /** When it was fetched (`_last_valid_time`). */
    var lastTime: Option<Timestamp>
    /** What the device's storage file holds. */
    var stored: Option<StoredRecord>

    /** The abstract state the specification functions speak about. */
    function Model(): State
      reads this
    {
      State(interval, baseInterval, lastData, lastTime, stored)
    }

    ghost predicate Valid()
      reads this
    {
      IntervalsValid(Model())
    }

    /** Creates the coordinator for one device over the storage contents left
        by earlier runs; the cache starts empty. */
    constructor (options: Option<nat>, data: Option<nat>, persisted: Option<StoredRecord>)
      requires ConfiguredInterval(options, data).Some?
      ensures Valid()
      ensures Model() == Initial(ConfiguredInterval(options, data).value, persisted)
    {
      var seconds := ConfiguredInterval(options, data).value;
      baseInterval := seconds;
      interval := seconds;
      lastData := None;
      lastTime := None;
      stored := persisted;
    }

    /** Seeds the cache from storage; a read error leaves everything as it was. */
    method LoadSavedData(loadOk: bool)
      requires Valid()
      modifies this
      ensures Valid()
      ensures Model() == Loaded(old(Model()), loadOk)
    {
      if loadOk && stored.Some? {
        var rec := stored.value;
        lastData := Some(rec.data);
        if rec.timestamp.Some? {
          lastTime := rec.timestamp;
        }
      }
    }

    /** Applies the poll period held in the options, at once. `applied` is
        false when the options hold none: the lookup raises and nothing changes. */
    method HandleOptionsUpdate(option: Option<nat>) returns (applied: bool)
      requires Valid()
      modifies this
      ensures Valid()
      ensures applied == option.Some?
      ensures Model() == Reconfigured(old(Model()), option)
    {
      if option.None? {
        return false;
      }
      interval := option.value;
      baseInterval := option.value;
      applied := true;
    }

    /** One refresh: caches, persists and returns a fresh reading and resets
        the period; or backs off and returns a substitute or `UpdateFailed`. */
    method UpdateData(fetch: Fetch, now: Timestamp, save: SaveOutcome) returns (result: RefreshResult)
      requires Valid()
      modifies this
      ensures Valid()
      ensures (Model(), result) == RefreshStep(old(Model()), fetch, now, save)
    {
      if IsObject(fetch) {
        var data := fetch.payload.fields;
        lastData := Some(data);
        lastTime := Some(now);
        if Persists(save) {
          stored := Some(StoredRecord(data, lastTime));
        }
        if save.SaveTimedOut? {
          result := HandleFailure(save.at, Transport(Timeout));
          return;
        }
        if interval != baseInterval {
          interval := baseInterval;
        }
        result := Data(data);
      } else {
        result := HandleFailure(now, FetchErrorOf(fetch));
      }
    }

    /** The failure branch of a refresh: one backoff step, then the same-day
        substitute, the all-zero substitute or `UpdateFailed`. */
    method HandleFailure(now: Timestamp, cause: FetchError) returns (result: RefreshResult)
      requires Valid()
      modifies this
      ensures Valid()
      ensures (Model(), result) == FailedStep(old(Model()), now, cause)
    {
      if 0 < interval < MaxInterval {
        var next := interval * 2;
        if next > MaxInterval {
          next := MaxInterval;
        }
        interval := next;
      }
      if HasCache(lastData) && lastTime.Some? && DayOf(now) == DayOf(lastTime.value) {
        var substitute := BuildSameDaySubstitute(lastData.value);
        result := Data(substitute);
      } else if HasCache(lastData) {
        result := Data(AllZeroSubstitute(lastData.value));
      } else {
        result := UpdateFailed(cause);
      }
    }
  }
}
