# Emotion record store and analytics, modelled in Dafny

This project models the logic of a venting web app. The app has a record store:
every finished session is appended to one persisted log. It also has an
analytics engine that summarises the last `days` days of that log. The summary
has three overall means (anger, resolution rate, duration) and the record count
per UTC calendar day with running means. It also lists the three busiest local
hours of the day.

Modules, by file:

- `emotion_types.dfy` (`EmotionTypes`): the session record, the record without
  its id (the draft the UI hands over), the per-day bucket and the snapshot.
  Timestamps are integer milliseconds. Days are day numbers (days since the
  epoch) instead of `YYYY-MM-DD` strings. Means are `real`s.
- `decimal.dfy` (`Decimal`): the decimal rendering of the millisecond clock
  reading that becomes a record's id, with the round trip that makes it
  injective.
- `record_stats.dfy` (`RecordStats`): the pure part of the engine.
  - The sliding window filter.
  - The UTC day (`t / 86400000`; Dafny's division rounds down for a positive
    divisor) and the local hour (`((t + tzOffset) / 3600000) % 24`).
  - The per-day reference statistics as plain means.
  - The running-mean update the engine applies, and the lemma that the two
    agree.
- `peak_hours.dfy` (`PeakHourRanking`): the hour entries in ascending hour order,
  a stable insertion sort by descending count, and the first three. JavaScript
  lists integer keys in ascending order and its sort is stable. So the ranking
  is exactly "more records first, ties to the lower hour", and that is what is
  proved.
- `analytics.dfy` (`Analytics`): the reference snapshot `AnalyticsOf` and the
  engine as imperative code. `BuildSkeleton` is the loop that creates the
  zeroed day buckets. `TallyRecords` is the pass over the kept records. It
  threads a map of buckets and a map of hour counts through the loop, one
  update per record. `Analyze`
  assembles the snapshot. `Analyze` is proved to return `AnalyticsOf`, so its
  running means are plain means.
- `analytics_properties.dfy` (`AnalyticsProperties`): what the snapshot
  promises. This covers the bucket count and dates, the bucket contents and
  bounds, and the bucket counts against `totalCount`. It also covers the
  overall figures, the peak-hour ranking, and the scenarios of an empty log,
  three records on one day, and two active hours, the last two both on
  abstract inputs and on concrete logs through the snapshot.
- `emotion_store.dfy` (`EmotionStorage`): the store as a class. Its one field is
  the persisted item: `None` while nothing is stored. Appending reads the
  whole log, appends the stamped record and writes the whole log back. The
  analytics entry point reads the log and runs `Analyze`.

Parameters stand in for what the code reads from its environment:

- the clock (`Date.now()`) is `now`, any integer millisecond reading; the id
  of a save before the epoch is its decimal rendering with a leading minus sign;
- the local time-zone offset behind `getHours()` is `tzOffset`: local time
  minus UTC, in milliseconds, which is `-getTimezoneOffset() * 60000` (the
  runtime's own offset has the opposite sign and is in minutes);
- the persisted blob is the class's `item` field.

The model follows the code in these respects:

- For `days <= 0` the code does not reject the call. `Array.from` with a
  non-positive length makes no buckets, and the window then keeps only records
  stamped more than `-days` days after `now`. The model does the same
  (`BucketCount`).
- The code does not validate records on append. Each bound on a mean is
  proved under its own hypothesis about the records it averages, stated inside
  the lemma rather than as a precondition. The anger bound holds when every
  anger level lies in 0..100 (`AngerInRange`, the cap at src/Home.tsx:86). The
  duration bound holds when every duration is non-negative
  (`DurationNonNegative`).
- Ids are unique only per millisecond: `RecordIdsDistinct` proves that two
  saves get the same id exactly when they happen at the same clock reading.
- Peak-hour ties go to the lower hour. That is what the runtime's key order and
  stable sort give.

## Model

| member | source | states |
|---|---|---|
| `EmotionTypes.WithId` | src/utils/emotionStorage.ts:7-10 | the stored record carries the given id, and dropping the id gives back exactly the draft that was passed in |
| `Decimal.DecimalString` | src/utils/emotionStorage.ts:9 | the clock reading renders as a non-empty string of decimal digits, with no leading zero unless the reading is 0 |
| `Decimal.ParseDecimalString` | src/utils/emotionStorage.ts:9 | reading the rendered digits back gives the clock reading: the rendering is a round trip |
| `EmotionStorage.RecordIdsDistinct` | src/utils/emotionStorage.ts:9 | two saves get the same id if and only if they happen at the same millisecond, readings before the epoch included |
| `EmotionStorage.RecordId` | src/utils/emotionStorage.ts:9 | the id `Date.now().toString()` of a save at clock reading `now`, with a leading minus sign for a reading before the epoch; no contract of its own: `RecordIdsDistinct` and `Decimal.ParseDecimalString` carry it |
| `EmotionStorage.EmotionStore.GetEmotionRecords` | src/utils/emotionStorage.ts:17-20 | returns the empty log when nothing is stored, and otherwise exactly the stored sequence |
| `EmotionStorage.EmotionStore.SaveEmotionRecord` | src/utils/emotionStorage.ts:5-15 | returns the draft stamped with the id of `now`; the stored log becomes the old log with exactly that record appended at the end, earlier records unchanged |
| `EmotionStorage.EmotionStore.GetEmotionAnalytics` | src/utils/emotionStorage.ts:22-24 | the snapshot is the reference snapshot of the stored log for `now`, the offset and `days` (30 by default), so it depends on those alone |
| `RecordStats.HourOf` | src/utils/emotionStorage.ts:51 | the local hour of any timestamp, negative ones included, lies in 0..23 |
| `RecordStats.DayOf` | src/utils/emotionStorage.ts:50 | the UTC day key of a timestamp (the date part of `toISOString`, as a day number); no contract of its own: `DayOfSpan`, `DayOfShift` carry it |
| `RecordStats.DayOfSpan` | src/utils/emotionStorage.ts:50 | the day of `t` is the unique day whose 86400000 milliseconds contain `t`, negative timestamps included |
| `RecordStats.DayOfShift` | src/utils/emotionStorage.ts:32-34 | the UTC day of the instant `k` whole days before `t` is the day of `t` minus `k` |
| `RecordStats.Window` | src/utils/emotionStorage.ts:25-27 | a record is kept if and only if it is in the log and `now - timestamp < days * 86400000` (future records too); nothing is added, and a log entirely inside the window is kept whole |
| `RecordStats.InWindow` | src/utils/emotionStorage.ts:26 | the filter condition `now - timestamp < days * 86400000`; no contract of its own: `Window` and `WindowMultiset` carry it |
| `RecordStats.WindowMultiset` | src/utils/emotionStorage.ts:25-27 | every occurrence of an in-window record is kept, duplicates included, and no occurrence of any other record, so `totalCount` counts exactly the in-window log entries |
| `RecordStats.WindowConcat` | src/utils/emotionStorage.ts:25-27 | the window keeps log order: filtering a log split in two stretches gives the filtered first stretch followed by the filtered second |
| `RecordStats.OnDay` | src/utils/emotionStorage.ts:50 | a record belongs to a day's records exactly when it is among the given records and its UTC day is that day |
| `RecordStats.OnDayMultiset` | src/utils/emotionStorage.ts:50 | a day's records hold every occurrence of a record of that day, duplicates included, and nothing else, so a bucket's count and means are over exactly those entries |
| `RecordStats.ResolvedCount` | src/utils/emotionStorage.ts:78 | the number of resolved sessions never exceeds the number of sessions |
| `RecordStats.AngerSum` | src/utils/emotionStorage.ts:75 | the `reduce` sum of the anger levels; no contract of its own: `AngerSumBounds` and `SummaryAppend` carry it |
| `RecordStats.DurationSum` | src/utils/emotionStorage.ts:81 | the `reduce` sum of the durations; no contract of its own: `DurationSumNonNegative` and `SummaryAppend` carry it |
| `RecordStats.Mean` | src/utils/emotionStorage.ts:74-82 | `totalCount ? total / totalCount : 0`; no contract of its own: `MeanStep`, `MeanBounds` and `FigureBounds` carry it |
| `RecordStats.EmptyBucket` | src/utils/emotionStorage.ts:35-41 | the zeroed bucket of a skeleton day; no contract of its own: `StatsEmpty` carries it |
| `RecordStats.HourCount` | src/utils/emotionStorage.ts:54 | an hour's count never exceeds the number of records |
| `RecordStats.HourCountAppend` | src/utils/emotionStorage.ts:54 | one more record adds one to its own hour's count and nothing to any other hour |
| `RecordStats.StatsEmpty` | src/utils/emotionStorage.ts:35-41 | a zeroed bucket equals the plain-mean statistics of a day without records |
| `RecordStats.MeanStep` | src/utils/emotionStorage.ts:60-62 | the update `(old * (n - 1) + v) / n` applied to the mean of `n - 1` values gives the plain mean of the `n` values |
| `RecordStats.IncrementalMean` | src/utils/emotionStorage.ts:60-62 | the running-mean update `(avg * (n - 1) + v) / n`; no contract of its own: `MeanStep` carries it |
| `RecordStats.Accumulate` | src/utils/emotionStorage.ts:59-62 | one record joining a bucket: count plus one and one running-mean step for each mean; no contract of its own: `SummaryAppend` and `AccumulateStep` carry it |
| `RecordStats.SummaryAppend` | src/utils/emotionStorage.ts:59-62 | one accumulation step turns the count and the three plain means of a day's records into those of the records plus the new one |
| `RecordStats.AccumulateStep` | src/utils/emotionStorage.ts:57-63 | updating the bucket of a record's own day gives that day's plain-mean statistics of the log extended by the record |
| `RecordStats.StatsOtherDay` | src/utils/emotionStorage.ts:57 | a record leaves the statistics of every other day unchanged |
| `RecordStats.MeanBounds` | src/utils/emotionStorage.ts:74-82 | a mean of values in [lo, hi], with lo <= 0 <= hi, lies in [lo, hi], including the 0 of an empty set |
| `RecordStats.AngerSumBounds` | src/utils/emotionStorage.ts:75 | when every anger level lies in 0..100 (the cap at src/Home.tsx:86; no hypothesis on durations), the anger total lies between 0 and 100 times the count |
| `RecordStats.DurationSumNonNegative` | src/utils/emotionStorage.ts:81 | when every duration is non-negative (no hypothesis on anger levels), the duration total is non-negative |
| `RecordStats.FigureBounds` | src/utils/emotionStorage.ts:73-82 | the three means are 0 for no records, the resolution rate lies in [0, 1], the mean anger lies in [0, 100] when every anger level does, and the mean duration is non-negative when every duration is |
| `RecordStats.CountOnDays` | src/utils/emotionStorage.ts:57 | the records falling on a set of days are at most all of them |
| `RecordStats.CountOnDaysAdd` | src/utils/emotionStorage.ts:57 | adding a new day to the set adds exactly that day's records |
| `RecordStats.CountOnDaysAll` | src/utils/emotionStorage.ts:57 | all records fall on the set of days if and only if every record's day is in it |
| `PeakHourRanking.Entries` | src/utils/emotionStorage.ts:67 | the entries are exactly the hour and count pairs of the hours present, in strictly ascending hour order |
| `PeakHourRanking.InsertRanked` | src/utils/emotionStorage.ts:68 | stable insertion of an entry with a higher hour than all ranked entries keeps the list ranked and adds exactly that entry |
| `PeakHourRanking.Insert` | src/utils/emotionStorage.ts:68 | one step of the stable sort by descending count; no contract of its own: `InsertRanked` carries it |
| `PeakHourRanking.SortRanked` | src/utils/emotionStorage.ts:68 | stably sorting hour-ascending entries by descending count ranks them (more records first, ties to the lower hour) and permutes them |
| `PeakHourRanking.SortByCount` | src/utils/emotionStorage.ts:68 | `sort(([, a], [, b]) => b - a)` as a stable insertion sort; no contract of its own: `SortRanked` and `RankedEntries` carry it |
| `PeakHourRanking.RankedEntries` | src/utils/emotionStorage.ts:67-68 | the sorted list is ranked and holds exactly the entries of the hours present |
| `PeakHourRanking.TopEntriesRanked` | src/utils/emotionStorage.ts:67-69 | the first three are ranked entries of the counts, and every entry left out ranks after the third |
| `PeakHourRanking.TopEntries` | src/utils/emotionStorage.ts:69 | `slice(0, 3)` of the sorted entries; no contract of its own: `TopEntriesRanked` carries it |
| `PeakHourRanking.PeakHoursRanking` | src/utils/emotionStorage.ts:67-70 | at most three hours, each in 0..23 and with a nonzero count; counts non-increasing with ties by ascending hour (so no repeats); every hour left out has a count no greater than the third, and none is left out when fewer than three are listed |
| `PeakHourRanking.PeakHours` | src/utils/emotionStorage.ts:67-70 | `peakHours`, the hours of the top entries; no contract of its own: `PeakHoursRanking` carries it |
| `Analytics.BucketsStep` | src/utils/emotionStorage.ts:57-63 | the bucket update for one record keeps the set of buckets and keeps every bucket equal to the plain-mean statistics of its day |
| `Analytics.HourCountsStep` | src/utils/emotionStorage.ts:54 | `hourCounts[hour] = (hourCounts[hour] \|\| 0) + 1` keeps the object equal to the hour counts of the records seen |
| `Analytics.HourCounts` | src/utils/emotionStorage.ts:46-54 | the hour-to-count object after the pass; no contract of its own: `HourCountsStep`, `AnalyticsProperties.HourCountsKeys` and `AnalyticsProperties.PeakHoursOfWindow` carry it |
| `Analytics.BucketCount` | src/utils/emotionStorage.ts:31 | the number of buckets `Array.from({ length: days })` makes; no contract of its own: `AnalyticsProperties.SkeletonDays` carries it |
| `Analytics.Skeleton` | src/utils/emotionStorage.ts:31-34 | the day keys of the buckets, oldest first; no contract of its own: `AnalyticsProperties.SkeletonDays` and `AnalyticsProperties.DailyStatsDates` carry it |
| `Analytics.AnalyticsOf` | src/utils/emotionStorage.ts:22-92 | the reference snapshot; no contract of its own: `Analyze`, `AnalyticsProperties.OverallFigures`, `DailyStatsDates`, `DailyStatsContents`, `BucketCountsVersusTotal` and `PeakHoursOfWindow` carry it |
| `Analytics.BuildSkeleton` | src/utils/emotionStorage.ts:30-43 | the day keys are the skeleton's days in order, and there is exactly one zeroed bucket per key |
| `Analytics.TallyRecords` | src/utils/emotionStorage.ts:45-64 | after the pass, the buckets are the same days as before, each holding the plain-mean statistics of the kept records of its day, and the hour counts are those of the kept records |
| `Analytics.Analyze` | src/utils/emotionStorage.ts:22-92 | the engine's step-by-step result equals the reference snapshot: plain overall means, the ranked peak hours, and one plain-mean bucket per skeleton day |
| `AnalyticsProperties.SkeletonDays` | src/utils/emotionStorage.ts:31-34 | the skeleton has `days` entries (none for a non-positive window), and entry `i` is the day of `now` minus `days - 1 - i` |
| `AnalyticsProperties.DailyStatsDates` | src/utils/emotionStorage.ts:31-43 | `dailyStats` has `days` entries (none for a non-positive window) on strictly consecutive UTC days, the last one the day of `now` |
| `AnalyticsProperties.DailyStatsContents` | src/utils/emotionStorage.ts:49-64 | each bucket counts the kept records of its day and holds their plain means; all 0 for an empty day, resolution rate in [0, 1], mean anger in [0, 100] when every anger level of that day's kept records lies in 0..100, and mean duration non-negative when every duration of them is |
| `AnalyticsProperties.CountSumPrefix` | src/utils/emotionStorage.ts:90 | the buckets of the first `i` skeleton days together count the kept records whose day is one of those days |
| `AnalyticsProperties.BucketCountsVersusTotal` | src/utils/emotionStorage.ts:57 | the bucket counts add up to at most `totalCount`, and to exactly `totalCount` if and only if every kept record's UTC day lies within the skeleton's days |
| `AnalyticsProperties.RecordOutsideSkeleton` | src/utils/emotionStorage.ts:25-43 | a record less than one day old can fall on the previous UTC day: with a one-day window it is counted in `totalCount` but in no bucket |
| `AnalyticsProperties.OverallFigures` | src/utils/emotionStorage.ts:73-82 | `totalCount` is the number of kept records; the figures are their plain means, all 0 and no peak hours when nothing is kept; the resolution rate lies in [0, 1]; mean anger lies in [0, 100] when every kept anger level does, and mean duration is non-negative when every kept duration is |
| `AnalyticsProperties.PeakHoursOfWindow` | src/utils/emotionStorage.ts:46-70 | the peak-hour ranking stated in terms of the kept records' hour counts |
| `AnalyticsProperties.HourCountPositive` | src/utils/emotionStorage.ts:54 | an hour's count is nonzero if and only if some record falls in that local hour |
| `AnalyticsProperties.HourCountsKeys` | src/utils/emotionStorage.ts:46-54 | the hour-to-count object has a key for an hour if and only if some record falls in that local hour |
| `AnalyticsProperties.TwoActiveHoursListed` | src/utils/emotionStorage.ts:67-70 | with exactly two active hours, both are listed and nothing else |
| `AnalyticsProperties.TwoActiveHours` | src/utils/emotionStorage.ts:67-70 | with exactly two active hours and one strictly busier, the peak hours are exactly the busier hour followed by the other |
| `AnalyticsProperties.EmptyLog` | src/utils/emotionStorage.ts:30-43 | an empty log gives `totalCount` 0, zero means, no peak hours and `days` zeroed buckets for the last `days` days |
| `AnalyticsProperties.ThreeRecordsOneDay` | src/utils/emotionStorage.ts:57-63 | three records on one day with anger 20, 60 and 100, one resolved, give that day count 3, mean anger 60 and resolution rate one third |
| `AnalyticsProperties.TwoActiveHoursLog` | src/utils/emotionStorage.ts:45-70 | a concrete four-session log, three at 14:xx and one at 13:00 UTC, with a zero offset and a 30-day window, gives the snapshot peak hours `[14, 13]` |
| `AnalyticsProperties.ThreeRecordsLog` | src/utils/emotionStorage.ts:22-82 | a concrete log of three sessions today, with anger 20, 60 and 100 and one resolved, gives a snapshot with `totalCount` 3, mean anger 60, resolution rate one third and mean duration 60 |
| `AnalyticsProperties.ThreeRecordsLogToday` | src/utils/emotionStorage.ts:30-64 | for that log, the snapshot has 30 buckets, and the last one, today, holds count 3, mean anger 60, resolution rate one third and mean duration 60 |

## Left out

- Serialisation: `localStorage` and `JSON.stringify`/`JSON.parse` are not
  modelled. The persisted item is an abstract optional sequence of records. A
  malformed item, which would make `JSON.parse` throw, is not modelled.
- Date formatting: `toISOString` and its `YYYY-MM-DD` key are replaced by the
  UTC day number. The `RangeError` that `toISOString` throws for timestamps
  beyond ±8.64e15 ms is not modelled.
- Time zones: `getHours()` is modelled with one fixed local offset. Daylight
  saving changes of the offset are not modelled.
- Floating point: the means are exact rationals (`real`), not IEEE doubles. The
  rounding of the running means, which can make them differ from the plain
  means in the last bit, is not captured.
- Numbers: `days` is modelled as an integer. A fractional `days` is not
  modelled.
- Stores: one store object stands for the page's single `localStorage` item.
  Concurrent writers from several tabs are not modelled.
- UI: the React UI, animations, audio, the chart page (with its hard-coded and
  random data) and routing are not part of this model. Neither are the
  typewriter sound script and the build configuration.
