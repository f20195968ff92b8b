# Sensor statistics engine — a Dafny model

This project models the statistics aggregation engine of a small sensor-reading service.
For each sensor, and for all sensors combined, the engine keeps a running `count`, `sum`,
`min` and `max` per calendar day and per week.

- **Ingest.** A reading of a sensor is folded into four places: the sensor's weekly rollup,
  the sensor's bucket for the day, the global weekly rollup and the global bucket for the day.
  Missing entries and buckets are created on first sight. A per-sensor day bucket also keeps
  every raw reading of that day, in arrival order.
- **Recompute.** A daily job resets each weekly rollup. It then rebuilds the rollup from the
  existing day buckets dated one to seven days before today. Today's bucket is never included.

## How the model is laid out

- `wrappers.dfy`: `Option`, used for the nullable `min`/`max`.
- `statistics.dfy` (module `Stats`): the `Statistics` value and `initStatistics` (`Init`) and
  `updateStatistics` (`Update`). Also the reference predicate `Summarizes(s, vs)`: "`s` is exactly
  the count, sum, least and greatest element of the readings `vs`".
- `tally.dfy` (module `Tally`): count/sum totals over the entries of a map. This is the
  independent reference that the recompute and the cross-store invariant are checked against.
- `window.dfy` (module `Window`): one step of the recompute loop (`MergeBucket`), the loop as a
  function of the day buckets (`WeekFold`, `WeekOf`), and the window properties.
- `stores.dfy` (module `Stores`): the per-sensor store (class `SensorStore`, wrapping the
  sensor map) and the all-sensors record (class `AllSensorsData`). Their methods mirror
  `updateSensorData`, `updateAllSensorsData` and the two recompute functions. Each method's
  postcondition ties the new state to a specification function of the old state
  (`IngestSensor`, `IngestDay`, `RecomputeAll`, `WeekOf`).
- `engine.dfy` (module `Engine`): both stores together, as the service wires them up. It has
  `Record`, which sends one reading to both ingest functions with the same date key, and the
  daily timer body. It also carries the invariant that each global day bucket's count and sum
  are the totals over all sensors of their buckets for that day.

Other modelling choices:

- Dates are integer day numbers. The day `i` days before `today` is `today - i`.
- The current time (`new Date()`) is the parameter `today` of the recompute. The date key of a
  reading is a parameter of the ingest.
- Readings are exact `real`s.

### Where the code and its documented behaviour differ (the code is followed)

- **Recompute min/max.** The documented merge rule for the recompute's min/max is the ingest rule:
  a smaller bucket min replaces the rollup's min. The code (src/utils.ts:121-131 and 153-164)
  does the opposite. A non-null rollup min is replaced only by a LARGER bucket min, and the max
  only by a SMALLER bucket max. The model keeps this behaviour:
  - `Window.WeekFoldExtremes` proves that over non-empty buckets the rollup's `min` is the
    greatest bucket min in the window and its `max` is the least bucket max.
  - `Window.RecomputeCanInvertMinMax` shows two well-formed buckets, `[1, 2]` and `[5, 6]`,
    that give a rollup with `min = 5 > max = 2`. This contradicts the documented promise that
    `min <= max` once count ≥ 1. That promise does hold for every day bucket
    (`Stats.UpdateWellformed`, `Stores.DaysValid`). It holds for a weekly rollup only before
    its first recompute and right after any ingest, because `Stats.Update` ensures
    `min <= v <= max` for the reading `v` just folded in.
- **Ingest max rule.** The documented ingest rule for max reads "`max > value`". The code
  (src/utils.ts:34) replaces `max` when `max < value`, so `max` is the greatest reading. The
  model follows the code.

## Model

| member | source | states |
|---|---|---|
| `Stats.Zero` | src/utils.ts:141-144 | the reset rollup (count 0, sum 0, null min/max) is the statistics of no readings |
| `Stats.Init` | src/utils.ts:18-25 | initStatistics(v) is the statistics of the single reading v: count 1, sum v, min = max = v |
| `Stats.Update` | src/utils.ts:28-37 | count grows by exactly 1 and sum by exactly v; min and max become non-null with min ≤ v ≤ max; min is the lesser of the old min and v (v when the old min was null), max likewise the greater |
| `Stats.UpdateWellformed` | src/utils.ts:31-36 | updating a well-formed value leaves it non-empty with both bounds present and min ≤ max |
| `Stats.SummarizesWellformed` | src/types.ts:6-11 | the statistics of any readings are well formed |
| `Stats.UpdateSummarizes` | src/utils.ts:28-37 | if s is the statistics of vs, then updateStatistics(s, v) is the statistics of vs + [v] |
| `Stats.FoldSummarizes` | src/utils.ts:28-37 | folding the readings vs one by one into the statistics of ws gives the statistics of ws + vs |
| `Stats.FoldFromInit` | src/utils.ts:18-37 | folding v1..vn into initStatistics(v0) gives count n+1, the sum of all readings and their least and greatest element |
| `Window.MergeBucket` | src/utils.ts:151-164 | one recompute step adds the bucket's count and sum; a null min/max takes the bucket's; otherwise min becomes the greater and max the lesser of the two, as the code's comparisons are written |
| `Window.WeekFoldTotals` | src/utils.ts:145-152 | the recomputed count and sum are the totals of exactly the existing buckets dated today−n … today−1; missing days add nothing |
| `Window.WeekFoldLocal` | src/utils.ts:145-148 | the recomputed rollup depends only on the buckets inside the window |
| `Window.OutsideWindowIgnored` | src/utils.ts:145-148 | a bucket for today or for any day before today−7 never changes the recomputed rollup |
| `Window.WeekFoldExtremes` | src/utils.ts:153-164 | over non-empty buckets, min and max stay null iff the window has no bucket; otherwise min is the greatest bucket min and max the least bucket max in the window |
| `Window.EmptyWindowWeek` | src/utils.ts:141-150 | with no bucket dated today−7 … today−1 the recompute leaves the zero/null rollup |
| `Window.SingleBucketWeek` | src/utils.ts:145-165 | a single non-empty bucket in the window is reproduced exactly by the recompute |
| `Window.RecomputeCanInvertMinMax` | src/utils.ts:153-164 | two well-formed buckets can give a recomputed rollup whose min exceeds its max |
| `Stores.FirstRecord` | src/utils.ts:68-71 | a new day bucket holds exactly the reading v and its statistics |
| `Stores.IngestSensorEffect` | src/utils.ts:64-91 | an unseen sensor gets an entry with rollup initStatistics(v) and the single bucket d = {initStatistics(v), [v]}; a known sensor has v folded into its rollup and into the d bucket (created if missing), with v appended to the bucket's raw readings; no other day and no other sensor changes |
| `Stores.IngestSensorKeepsValid` | src/utils.ts:83-90 | every per-sensor day bucket stays the exact count, sum, least and greatest of its non-empty raw readings |
| `Stores.IngestSensorWeek` | src/utils.ts:73-78 | between recomputes a sensor's weekly rollup is the statistics of every reading recorded for it |
| `Stores.IngestDayEffect` | src/utils.ts:45-53 | a missing global bucket is created as the statistics of v alone, an existing one becomes `Update` of it with v (count + 1, sum + v, min and max moved to include v); every other day is unchanged |
| `Stores.IngestDayKeepsValid` | src/utils.ts:49-53 | every global day bucket stays well formed and non-empty |
| `Stores.DaysValidNonEmpty` | src/utils.ts:153-164 | every valid global day bucket has a non-null min and max, so the recompute's min/max merge always compares against the bucket's values (the precondition of `Window.WeekFoldExtremes`) |
| `Stores.SensorsValidNonEmpty` | src/utils.ts:121-131 | the same for every day bucket of a valid sensor |
| `Stores.RecomputeAllEffect` | src/utils.ts:103-136 | the per-sensor recompute keeps the set of sensors and every day bucket, sets each rollup from that sensor's own buckets, and a second run on the same day changes nothing |
| `Stores.RecomputeAllKeepsValid` | src/utils.ts:106-135 | the per-sensor recompute keeps every day bucket valid |
| `Stores.WeekStatisticsOf` | src/utils.ts:107-134 | the inner seven-day loop for one sensor returns the recompute of that sensor's day buckets |
| `Stores.SensorStore.constructor` | src/index.ts:29 | the per-sensor store starts empty |
| `Stores.SensorStore.UpdateSensorData` | src/utils.ts:57-93 | the sensor map becomes IngestSensor of the old map, and every bucket stays valid |
| `Stores.SensorStore.UpdateWeekStatisticsForEachSensor` | src/utils.ts:103-136 | the sensor map becomes RecomputeAll of the old map for `today` |
| `Stores.AllSensorsData.constructor` | src/index.ts:31-39 | the global record starts with no day buckets and the zero/null rollup |
| `Stores.AllSensorsData.UpdateAllSensorsData` | src/utils.ts:40-54 | the global rollup is updated with v and the day map becomes IngestDay of the old map |
| `Stores.AllSensorsData.UpdateWeekStatisticsForAllSensors` | src/utils.ts:139-167 | the day map is unchanged and the rollup becomes the recompute of the buckets dated today−1 … today−7 |
| `Engine.NewEntryContribution` | src/utils.ts:66-75 | a new sensor entry contributes (1, v) to its day and nothing to any other day |
| `Engine.IngestEntryContribution` | src/utils.ts:77-91 | ingesting v on day d adds (1, v) to the entry's day-d bucket totals and leaves other days |
| `Engine.IngestContribution` | src/utils.ts:57-93 | one ingest adds exactly (1, v) to day d's count/sum totals over all sensors and nothing to any other day |
| `Engine.RecordKeepsConsistent` | src/index.ts:60-63 | after a reading is recorded into both stores, the global buckets exist for exactly the days some sensor has, and each one's count and sum are the totals over sensors of that day |
| `Engine.RecomputeKeepsConsistent` | src/index.ts:46-49 | the recompute keeps the cross-store invariant |
| `Engine.Engine.constructor` | src/index.ts:28-39 | both stores start empty, the global rollup zero/null |
| `Engine.Engine.Record` | src/index.ts:60-63 | one reading goes into both stores with the same date key; the object invariants and the cross-store invariant are kept |
| `Engine.Engine.UpdateWeekStatistics` | src/index.ts:46-49 | both rollups are recomputed for `today`; no day bucket changes |
| `Engine.ScenarioIngest` | src/index.ts:60-63 | readings tempA 10, tempA 30, tempB 5 on one day give the global rollup and bucket count 3, sum 45, min 5, max 30 |
| `Engine.ScenarioRecompute` | src/utils.ts:139-167 | that day's buckets are reproduced by a recompute seven days later and are gone (zero/null) eight days later |
| `Engine.ThreeReadingsScenario` | src/index.ts:46-63 | on the engine object: after the three readings the global rollup is count 3, sum 45, min 5, max 30; the day-7 recompute keeps it and rebuilds tempA's rollup as count 2, sum 40, min 10, max 30; the day-8 recompute leaves the zero/null rollup |

## Left out

- `getDateWithoutTime` and `getDateWithoutTimeBefore` (src/utils.ts:13-15, 96-100): they rely on the platform's `Date`, ISO formatting and local-time `setDate`, so their time-zone and daylight-saving behaviour is not modelled. Dates are integer day numbers, and "i days before" is subtraction.
- The HTTP layer of src/index.ts (routes, request and response bodies, status codes, `listen`): transport, not engine logic.
- The query side of src/index.ts: the weekly lookups, their 'no data on this sensor' answer for an unknown sensor, and the average `sum / count`. All of this is read-only transport code. The average is floating-point division and yields NaN/Infinity when count is 0.
- The 24-hour `setInterval` schedule: only the body of the timer is modelled (`Engine.Engine.UpdateWeekStatistics`). When it fires is the caller's choice of `today`.
- Repeated clock reads: the source calls `new Date()` again on every pass of each recompute loop (src/utils.ts:115, 147), and each store's recompute reads the clock separately (src/index.ts:47-48). A recompute that runs across midnight can therefore count the bucket of one day twice and skip the oldest day of the window, and two sensors, or the two stores, can see different windows. The model reads the clock once per job: one `today` serves every pass and both stores.
- Floating-point rounding, NaN and infinities: readings are exact reals with exact addition.
- Update in place and aliasing of `Statistics` objects and `Map`s: they are values written back into their owning map or field. This is exact for the source, because it never shares one `Statistics` object between two places: the global rollup starts as its own object literal (src/index.ts:33-38), and every other `Statistics` comes from a fresh `initStatistics` call.
- Iteration order of `Map.values()` in the per-sensor recompute: the model's loop takes sensors in an arbitrary order. The entries are processed independently, so the order does not affect the result.
