# Open Inverter Gateway update coordinator, in Dafny

This project models the polling coordinator of the Home Assistant integration
for the Open Inverter Gateway (`OpenInverterDataUpdateCoordinator`). The
coordinator polls the device's `/status` JSON object on a timer. On failure it
backs off, doubling its poll period up to five minutes. It keeps the last good
reading in memory and in a storage file. When a poll fails it serves a
substitute built from that cache:

- on the same local day, the daily energy accumulators keep their value and every other field is 0;
- on another day, or when no cached time exists, every field is 0;
- with no cache at all, the refresh raises `UpdateFailed`.

Files:

- `const.dfy` (module `Const`): the daily accumulator field names.
- `readings.dfy` (module `Readings`): JSON values, readings and local timestamps.
- `coordinator_spec.dfy` (module `CoordinatorSpec`): the coordinator state as a
  value, plus one pure function per operation (`RefreshStep`, `Reconfigured`,
  `Loaded`) with the backoff step and the two substitutes.
- `coordinator.dfy` (module `Coordinator`): the class
  `OpenInverterCoordinator`. Its fields are the current and configured period,
  the cached reading and time, and the storage contents. Each method updates
  the fields in place and is proved to take exactly the step its specification
  function describes, keeping the period invariant `Valid()`. The same-day
  substitute is built by a loop, as in the source.
- `coordinator_properties.dfy`: what one operation promises.
- `coordinator_traces.dfy`: properties of whole sequences of refreshes,
  option changes and loads, and the start-up sequence.
- `scenarios.dfy`: what the test suite asserts, stated on concrete values,
  plus two substitution examples.

The fetch outcome, the clock, and how each storage read and write ends are
parameters of the operations. Nothing in the model performs I/O.

Where the behaviour as written differs from an idealised description, the
model follows the code:

- The period invariant is `base <= interval <= max(base, 300)`, not
  `interval <= 300`. The configured period has no upper bound, and backoff only
  acts while the period is positive and below 300 s (coordinator.py:133). A
  period of 0 is accepted and never backs off.
- The 15-second timeout covers the whole successful branch, including the
  save (coordinator.py:91-113). A save still pending when it runs out is not
  swallowed. The refresh then fails after the reading was cached: the period
  backs off and the caller gets a substitute, judged by a second clock
  reading that may fall after midnight (`SaveTimeoutIsAFailure`).
- A refresh of the options when they hold no poll period raises at
  coordinator.py:80 and changes nothing (`HandleOptionsUpdate` returns false).
- A cached reading can exist without a cached time. Loading a record that has
  no timestamp sets the reading only (coordinator.py:65-67). A later failure
  then takes the all-zero branch (`LoadedWithoutTimeZeroesEverything`).
- An empty cached object counts as no cache: a failure then raises
  `UpdateFailed` (coordinator.py:147, 164 test the dict's truthiness).

## Model

| member | source | states |
|---|---|---|
| `Readings.DayOf` | custom_components/openinverter/coordinator.py:147 | the day number is the one whose 86400 local seconds contain the instant |
| `CoordinatorSpec.Backoff` | custom_components/openinverter/coordinator.py:133-144 | one backoff step never shrinks the period and never exceeds max(period, 300); it changes the period exactly when the period is positive and below 300 |
| `Coordinator.BuildSameDaySubstitute` | custom_components/openinverter/coordinator.py:154-161 | the key-by-key loop yields exactly the same-day substitute: the cache's keys, daily fields kept, all others 0 |
| `Coordinator.OpenInverterCoordinator.constructor` | custom_components/openinverter/coordinator.py:33-55 | the period is the options value, else the initial config value, for both periods; the cache and time are empty; storage is what earlier runs left |
| `Coordinator.OpenInverterCoordinator.LoadSavedData` | custom_components/openinverter/coordinator.py:60-76 | the fields become `Loaded(old state)`, and the period invariant is kept |
| `Coordinator.OpenInverterCoordinator.HandleOptionsUpdate` | custom_components/openinverter/coordinator.py:78-84 | with a period in the options, both periods become it at once; without one, the lookup fails (`applied` is false) and nothing changes |
| `Coordinator.OpenInverterCoordinator.UpdateData` | custom_components/openinverter/coordinator.py:86-180 | new fields and result are exactly `RefreshStep(old state, fetch, now, save)`, with a save timeout judged at its own later clock reading `save.at`, and the period invariant is kept |
| `Coordinator.OpenInverterCoordinator.HandleFailure` | custom_components/openinverter/coordinator.py:129-180 | new fields and result are exactly `FailedStep(old state, now, cause)`: one backoff step, then the three-way substitution decision |
| `CoordinatorProperties.FailureBacksOff` | custom_components/openinverter/coordinator.py:129-144 | a failed fetch only applies one backoff step: the period becomes min(2p, 300) when 0 < p < 300, else stays; base, cache, time and storage unchanged |
| `CoordinatorProperties.ResetOnSuccess` | custom_components/openinverter/coordinator.py:117-124 | after a success whose save is not cut off by the timeout, the period equals the configured period, whatever it was; the configured period never changes |
| `CoordinatorProperties.BackoffClosedForm` | custom_components/openinverter/coordinator.py:133-144 | n backoff steps from p give min(p * 2^n, 300) when 0 < p < 300, and p otherwise |
| `CoordinatorProperties.BackoffTraces` | tests/test_coordinator.py:63-98 | 10 s to 20 s to 40 s; 240 s capped at 300 s, not 480 s |
| `CoordinatorProperties.BackoffStaysAtCap` | custom_components/openinverter/coordinator.py:133-144 | 300 s stays 300 s; from 10 s, five failures reach 300 s and a sixth leaves it there |
| `CoordinatorProperties.WriteThrough` | custom_components/openinverter/coordinator.py:102-113 | a success with a completed save caches the reading with `now`, persists `{data, timestamp: now}` and returns the reading |
| `CoordinatorProperties.SaveFailureIsolated` | custom_components/openinverter/coordinator.py:106-127 | a save that raises gives the same result, period and cache as a working one; only storage keeps its old contents |
| `CoordinatorProperties.SaveTimeoutIsAFailure` | custom_components/openinverter/coordinator.py:91-147 | a save cut off by the 15 s timeout leaves the reading cached at the first clock reading but backs the period off; the result is its same-day substitute when the second clock reading is on the same day, its all-zero substitute when midnight passed in between, and `UpdateFailed` for an empty object |
| `CoordinatorProperties.NonObjectLikeTransportError` | custom_components/openinverter/coordinator.py:96-100 | a non-object payload leads to the same state as a transport error, and to the same substitute, or to `UpdateFailed` in both cases |
| `CoordinatorProperties.SameDayFailure` | custom_components/openinverter/coordinator.py:146-161 | with a non-empty cache timed today, a failure returns the cache's key set with daily fields kept and all others 0 |
| `CoordinatorProperties.StaleCacheFailure` | custom_components/openinverter/coordinator.py:163-172 | with a non-empty cache from another day or without a time, a failure returns the cache's key set with every value 0 |
| `CoordinatorProperties.NoCacheFailure` | custom_components/openinverter/coordinator.py:174-180 | with no cache or an empty one, a failure raises `UpdateFailed` carrying the fetch's error |
| `CoordinatorProperties.SubstitutesDifferOnlyOnDailyFields` | custom_components/openinverter/coordinator.py:146-172 | the two substitutes differ on a key exactly when it is a daily field whose cached value is not 0 |
| `CoordinatorProperties.RepeatedSameDayFailure` | custom_components/openinverter/coordinator.py:129-172 | a second failure on the same day returns what the first returned, because failures leave the cache alone |
| `CoordinatorProperties.ReconfigureOverridesBackoff` | custom_components/openinverter/coordinator.py:78-84 | a period in the options sets both periods to it and keeps the period invariant; without one nothing changes; the cache and storage never change |
| `CoordinatorProperties.LoadCopiesRecord` | custom_components/openinverter/coordinator.py:60-76 | loading copies the stored reading, and the stored time only when present; an absent record or a read error changes nothing; periods and storage never change |
| `CoordinatorProperties.LoadedWithoutTimeZeroesEverything` | custom_components/openinverter/coordinator.py:62-67 | a record without a time seeds a reading with no time; a failure then yields the all-zero substitute |
| `CoordinatorProperties.PersistenceRoundTrip` | custom_components/openinverter/coordinator.py:103-113 | after a success with a completed save, a new coordinator that loads that storage gets the same reading and time |
| `CoordinatorProperties.RefreshKeepsIntervalsValid` | custom_components/openinverter/coordinator.py:117-144 | a refresh keeps base <= period <= max(base, 300) |
| `CoordinatorProperties.LoadKeepsIntervalsValid` | custom_components/openinverter/coordinator.py:60-76 | a load keeps the period invariant |
| `CoordinatorTraces.RunKeepsIntervalsValid` | custom_components/openinverter/coordinator.py:78-144 | any sequence of refreshes, option changes and loads keeps the period invariant |
| `CoordinatorTraces.FailedPollsOnlyBackOff` | custom_components/openinverter/coordinator.py:129-180 | n failed fetches in a row take n backoff steps and leave base, cache, time and storage exactly as they were |
| `CoordinatorTraces.ConsecutiveFailuresFromBase` | custom_components/openinverter/coordinator.py:133-144 | from base b, n failures leave the period at min(b * 2^n, 300), or b when b is 0 or at least 300, with the base unchanged |
| `CoordinatorTraces.StorageNeverStale` | custom_components/openinverter/coordinator.py:102-115 | while every save reaches storage, storage holds the cached reading and time whenever a reading is cached |
| `CoordinatorTraces.SetupIgnoresStoredReading` | custom_components/openinverter/__init__.py:20-24 | as set up, a coordinator never loads storage, so a failed first refresh raises `UpdateFailed` although storage holds a non-empty reading |
| `CoordinatorTraces.SetupWithLoadServesStoredReading` | custom_components/openinverter/coordinator.py:60-76 | loading storage before the first refresh makes a failed first refresh serve a substitute with the stored reading's fields |
| `CoordinatorTraces.RestartRestoresCache` | custom_components/openinverter/coordinator.py:60-113 | after any run whose saves reached storage, a new coordinator that loads storage gets exactly the cache the old one held |
| `Scenarios.TwoTimeoutsWithoutCache` | tests/test_coordinator.py:63-82 | with no cache, two timeouts raise `UpdateFailed` and move the period 10 s, 20 s, 40 s |
| `Scenarios.BackoffCapsAtFiveMinutes` | tests/test_coordinator.py:85-98 | 4 minutes backs off to 5, not 8 |
| `Scenarios.SuccessResetsPeriod` | tests/test_coordinator.py:119-143 | after one timeout at 20 s, a success returns the reading and resets to 10 s |
| `Scenarios.LoadThenSave` | tests/test_coordinator.py:146-178 | a load seeds the stored reading and time; the next success persists the new reading with a time |
| `Scenarios.SameDayCacheKeepsEnergy` | custom_components/openinverter/coordinator.py:146-161 | example: a cache from earlier today keeps `TodayGenerateEnergy` and zeroes `InputPower` |
| `Scenarios.NewDayCacheZeroesAll` | custom_components/openinverter/coordinator.py:163-172 | example: the same cache from yesterday zeroes both fields |
| `Scenarios.SaveTimeoutAcrossMidnight` | custom_components/openinverter/coordinator.py:99-172 | example: a reading fetched at 23:59:55 whose save times out at 00:00:05 is cached with 23:59:55, the period doubles, and the caller gets the all-zero substitute |

## Left out

- HTTP fetching (the client session, the request, `raise_for_status`, JSON decoding): I/O. The outcome of one fetch is the parameter `Fetch`. A timeout during the request is one of its failures; a timeout during the save is `SaveTimedOut`.
- The host's scheduling base class: the timer, the first refresh at setup, `async_shutdown` and the options-listener registration and removal. This is host plumbing and a foreign call. The current period is kept as a field, and nothing fires on it.
- Storage file I/O: the storage contents are the field `stored`; whether a read works and how a write ends are the method parameters `loadOk` and `save`.
- ISO-8601 formatting and parsing of the timestamp: a stored time is assumed to read back unchanged. A stored time the parser does not accept is not modelled: depending on the string, the parser returns no time or raises.
- Stored records written by anything other than this coordinator are not modelled: a record lacking `data`, a non-object `data`, or extra keys.
- Time zones: `DayOf` is the local calendar date of an instant given in local seconds. Zone conversion is not modelled.
- A period of `None` (polling disabled in the host) is not modelled. Periods are whole seconds, 0 included.
- JSON objects nested inside the status object are not modelled; arrays are. Fractional numbers are exact decimals, with no binary floating point.
- The order of keys in a returned substitute is not modelled: readings are maps.
- Concurrency: overlapping refreshes are not modelled, and the source has no guard against them.
- Logging, the sensor entities (`sensor.py`), the configuration forms (`config_flow.py`) and integration setup (`__init__.py`) beyond the start-up order stated in `CoordinatorTraces.SetupAsWritten`.

## Findings

| source | as written | input that shows it | evidently intended | confidence | as-written member | corrected member |
|---|---|---|---|---|---|---|
| custom_components/openinverter/__init__.py:20-24 | setup constructs the coordinator and runs the first refresh; nothing calls `async_load_saved_data`, so the persisted reading is written but never read back | storage holds `{data: {"TodayGenerateEnergy": 5.2}, timestamp: t}` and the first refresh after a restart times out: it raises `UpdateFailed` | load the stored record before the first refresh, so a failure serves a substitute of the stored reading | medium (the loader exists and is tested on its own); not executed | `CoordinatorTraces.SetupIgnoresStoredReading` | `CoordinatorTraces.SetupWithLoadServesStoredReading` |
