/** Sequences of operations on one coordinator: timer-driven refreshes,
    option changes and loads of the stored record. Properties that span
    several steps are stated here, together with the start-up sequence as
    the integration's setup performs it (construct, then refresh, without
    loading storage) and with the stored record loaded first. */
module CoordinatorTraces {
  import opened Readings
  import opened CoordinatorSpec
  import CoordinatorProperties

  /** One operation the host performs on the coordinator. */
  datatype Event =
    | Poll(fetch: Fetch, now: Timestamp, save: SaveOutcome)
    | OptionsUpdate(option: Option<nat>)
    | LoadSaved(loadOk: bool)

  function Apply(s: State, e: Event): State
  {
    match e
    case Poll(fetch, now, save) => RefreshStep(s, fetch, now, save).0
    case OptionsUpdate(option) => Reconfigured(s, option)
    case LoadSaved(loadOk) => Loaded(s, loadOk)
  }

  /** The state after the events, first to last. */
  function Run(s: State, events: seq<Event>): State
    decreases |events|
  {
    if events == [] then s else Apply(Run(s, events[..|events| - 1]), events[|events| - 1])
  }

  predicate AllFailedPolls(events: seq<Event>)
  {
    forall i :: 0 <= i < |events| ==> events[i].Poll? && !IsObject(events[i].fetch)
  }

  predicate SavesSucceed(events: seq<Event>)
  {
    forall i :: 0 <= i < |events| && events[i].Poll? ==> Persists(events[i].save)
  }

  /** Whatever the host does, the current period stays between the
      configured one and the larger of the configured one and five minutes. */
  lemma {:induction false} RunKeepsIntervalsValid(s: State, events: seq<Event>)
    requires IntervalsValid(s)
    ensures IntervalsValid(Run(s, events))
  {
    if events != [] {
      var prefix := events[..|events| - 1];
      RunKeepsIntervalsValid(s, prefix);
      var mid := Run(s, prefix);
      match events[|events| - 1]
      case Poll(fetch, now, save) => CoordinatorProperties.RefreshKeepsIntervalsValid(mid, fetch, now, save);
      case OptionsUpdate(option) => CoordinatorProperties.ReconfigureOverridesBackoff(mid, option);
      case LoadSaved(loadOk) => CoordinatorProperties.LoadKeepsIntervalsValid(mid, loadOk);
    }
  }

  /** A run of failed refreshes only backs off: after `n` of them the period
      has taken `n` backoff steps, and the configured period, the cache, its
      time and storage are exactly as before. */
  lemma {:induction false} FailedPollsOnlyBackOff(s: State, events: seq<Event>)
    requires AllFailedPolls(events)
    ensures Run(s, events) == s.(interval := CoordinatorProperties.BackoffN(s.interval, |events|))
  {
    if events != [] {
      var prefix := events[..|events| - 1];
      assert AllFailedPolls(prefix) by {
        forall i | 0 <= i < |prefix|
          ensures prefix[i].Poll? && !IsObject(prefix[i].fetch)
        {
          assert prefix[i] == events[i];
        }
      }
      FailedPollsOnlyBackOff(s, prefix);
    }
  }

  /** From the configured period, `n` failures in a row leave the period at
      `min(base * 2^n, 300)` (or at the base when it is 0 or already at or
      above 300). */
  lemma ConsecutiveFailuresFromBase(s: State, events: seq<Event>)
    requires s.interval == s.baseInterval
    requires AllFailedPolls(events)
    ensures Run(s, events).interval ==
              if 0 < s.baseInterval < MaxInterval
              then Min(s.baseInterval * CoordinatorProperties.Pow2(|events|), MaxInterval)
              else s.baseInterval
    ensures Run(s, events).baseInterval == s.baseInterval
  {
    FailedPollsOnlyBackOff(s, events);
    CoordinatorProperties.BackoffClosedForm(s.interval, |events|);
  }

  /** Storage holds the cached reading and time whenever there is a cached
      reading, and there is never a cached time without a cached reading. */
  predicate StorageCurrent(s: State)
  {
    && (s.lastData.None? ==> s.lastTime.None?)
    && (s.lastData.Some? ==> s.stored == Some(StoredRecord(s.lastData.value, s.lastTime)))
  }

  /** Write-through: as long as every save succeeds, storage is never older
      than the freshest successful fetch. */
  lemma {:induction false} StorageNeverStale(s: State, events: seq<Event>)
    requires StorageCurrent(s)
    requires SavesSucceed(events)
    ensures StorageCurrent(Run(s, events))
  {
    if events != [] {
      var prefix := events[..|events| - 1];
      assert SavesSucceed(prefix) by {
        forall i | 0 <= i < |prefix| && prefix[i].Poll?
          ensures Persists(prefix[i].save)
        {
          assert prefix[i] == events[i];
        }
      }
      StorageNeverStale(s, prefix);
    }
  }

  /** Start-up as the integration's setup performs it: construct the
      coordinator, then run the first refresh. The stored record is never
      loaded. */
  function SetupAsWritten(scanInterval: nat, persisted: Option<StoredRecord>,
                          first: Fetch, now: Timestamp, save: SaveOutcome): (State, RefreshResult)
  {
    RefreshStep(Initial(scanInterval, persisted), first, now, save)
  }

  /** Start-up with the stored record loaded before the first refresh. */
  function SetupWithLoad(scanInterval: nat, persisted: Option<StoredRecord>, loadOk: bool,
                         first: Fetch, now: Timestamp, save: SaveOutcome): (State, RefreshResult)
  {
    RefreshStep(Loaded(Initial(scanInterval, persisted), loadOk), first, now, save)
  }

  /** As written, storage is never read back: if the first refresh after a
      restart fails, it raises `UpdateFailed` even though storage holds a
      non-empty reading. */
  lemma SetupIgnoresStoredReading(scanInterval: nat, rec: StoredRecord, first: Fetch, now: Timestamp,
                                  save: SaveOutcome)
    requires rec.data != map[]
    requires !IsObject(first)
    ensures SetupAsWritten(scanInterval, Some(rec), first, now, save).1 == UpdateFailed(FetchErrorOf(first))
  {
  }

  /** With the stored record loaded first, a failed first refresh serves a
      substitute with exactly the stored reading's fields; only a failing
      load leaves the as-written behaviour. */
  lemma SetupWithLoadServesStoredReading(scanInterval: nat, rec: StoredRecord, loadOk: bool,
                                         first: Fetch, now: Timestamp, save: SaveOutcome)
    requires rec.data != map[]
    requires !IsObject(first)
    ensures var r := SetupWithLoad(scanInterval, Some(rec), loadOk, first, now, save).1;
            && (loadOk ==> r.Data? && r.reading.Keys == rec.data.Keys)
            && (!loadOk ==> r == SetupAsWritten(scanInterval, Some(rec), first, now, save).1)
  {
  }

  /** A coordinator that loads storage at start-up, after any run of the old
      one in which every save reached storage, gets back exactly the cache
      the old one held. */
  lemma RestartRestoresCache(scanInterval: nat, persisted: Option<StoredRecord>, events: seq<Event>, restart: nat)
    requires SavesSucceed(events)
    ensures var t := Run(Initial(scanInterval, persisted), events);
            t.lastData.Some? ==>
              && Loaded(Initial(restart, t.stored), true).lastData == t.lastData
              && Loaded(Initial(restart, t.stored), true).lastTime == t.lastTime
  {
    StorageNeverStale(Initial(scanInterval, persisted), events);
  }
}
