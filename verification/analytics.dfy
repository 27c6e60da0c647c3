/** `getEmotionAnalytics`: the snapshot of one trailing window of the log. */
module Analytics {
  import opened EmotionTypes
  import opened RecordStats
  import opened PeakHourRanking

  /** Number of day buckets: `Array.from({ length: days })` makes none for a
      non-positive length. */
  function BucketCount(days: int): nat
  {
    if days > 0 then days else 0
  }

  /** The skeleton's day keys: bucket `i` is the day of the instant
      `days - 1 - i` whole days before `now`. */
  function Skeleton(now: int, days: int): seq<int>
  {
    seq(BucketCount(days), i => DayOf(now - (days - 1 - i) * MsPerDay))
  }

  /** The hour-to-count object: an entry for each hour that some record falls in. */
  function HourCounts(rs: seq<EmotionRecord>, tzOffset: int): map<int, nat>
  {
    map h | 0 <= h < 24 && HourCount(rs, h, tzOffset) > 0 :: HourCount(rs, h, tzOffset)
  }

  /** One record's bucket update keeps every bucket equal to the reference
      statistics of its day: the record's own day takes an accumulation step
      when it has a bucket, the other days are unaffected. */
  lemma BucketsStep(buckets: map<int, DailyEmotionStats>, rs: seq<EmotionRecord>, r: EmotionRecord)
    requires forall d :: d in buckets ==> buckets[d] == Stats(rs, d)
    ensures var date := DayOf(r.timestamp);
      var next := if date in buckets then buckets[date := Accumulate(buckets[date], r)] else buckets;
      && next.Keys == buckets.Keys
      && forall d :: d in next ==> next[d] == Stats(rs + [r], d)
  {
    var date := DayOf(r.timestamp);
    var next := if date in buckets then buckets[date := Accumulate(buckets[date], r)] else buckets;
    forall d | d in next
      ensures next[d] == Stats(rs + [r], d)
    {
      if d == date {
        AccumulateStep(rs, r, date);
      } else {
        StatsOtherDay(rs, r, d);
      }
    }
  }

  /** Counting one more record in the hour-to-count object, as `(hourCounts[hour] || 0) + 1`,
      keeps it equal to the hour counts of the records seen so far. */
  lemma HourCountsStep(counts: map<int, nat>, rs: seq<EmotionRecord>, r: EmotionRecord, tzOffset: int)
    requires counts == HourCounts(rs, tzOffset)
    ensures var hour := HourOf(r.timestamp, tzOffset);
      counts[hour := (if hour in counts then counts[hour] else 0) + 1] == HourCounts(rs + [r], tzOffset)
  {
    var hour := HourOf(r.timestamp, tzOffset);
    var next := counts[hour := (if hour in counts then counts[hour] else 0) + 1];
    var want := HourCounts(rs + [r], tzOffset);
    forall h
      ensures h in next <==> h in want
      ensures h in next ==> next[h] == want[h]
    {
      HourCountAppend(rs, r, h, tzOffset);
    }
  }

  /** Reference definition of the snapshot: plain means over the kept records,
      and each bucket the reference statistics of its day. */
  function AnalyticsOf(records: seq<EmotionRecord>, now: int, tzOffset: int, days: int): EmotionAnalytics
  {
    var kept := Window(records, now, days);
    var n := |kept|;
    var sk := Skeleton(now, days);
    EmotionAnalytics(n, Mean(AngerSum(kept), n), Mean(ResolvedCount(kept), n), Mean(DurationSum(kept), n),
                     PeakHours(HourCounts(kept, tzOffset)),
                     seq(|sk|, i requires 0 <= i < |sk| => Stats(kept, sk[i])))
  }

  /** The day skeleton: for i in 0 .. days - 1 the key of the day `days - 1 - i`
      days before `now`, oldest first, each with a zeroed bucket. */
  method BuildSkeleton(now: int, days: int)
    returns (daysArray: seq<int>, dailyStats: map<int, DailyEmotionStats>)
    ensures daysArray == Skeleton(now, days)
    ensures forall d :: d in dailyStats <==> d in daysArray
    ensures forall d :: d in dailyStats ==> dailyStats[d] == EmptyBucket(d)
  {
    ghost var sk := Skeleton(now, days);
    var len := BucketCount(days);
    dailyStats := map[];
    daysArray := [];
    var i := 0;
    while i < len
      invariant 0 <= i <= len
      invariant daysArray == sk[..i]
      invariant forall d :: d in dailyStats <==> d in daysArray
      invariant forall d :: d in dailyStats ==> dailyStats[d] == EmptyBucket(d)
    {
      var date := DayOf(now - (days - 1 - i) * MsPerDay);
      dailyStats := dailyStats[date := EmptyBucket(date)];
      daysArray := daysArray + [date];
      i := i + 1;
    }
  }

  /** The pass over the kept records: each one bumps its hour's count and, when
      its day has a bucket, takes a running-mean step in that bucket. Buckets end
      up equal to the reference statistics of their days, and the hour counts to
      those of the records. */
  method TallyRecords(kept: seq<EmotionRecord>, tzOffset: int, buckets: map<int, DailyEmotionStats>)
    returns (dailyStats: map<int, DailyEmotionStats>, hourCounts: map<int, nat>)
    requires forall d :: d in buckets ==> buckets[d] == EmptyBucket(d)
    ensures dailyStats.Keys == buckets.Keys
    ensures forall d :: d in dailyStats ==> dailyStats[d] == Stats(kept, d)
    ensures hourCounts == HourCounts(kept, tzOffset)
  {
    dailyStats := buckets;
    hourCounts := map[];
    assert HourCounts([], tzOffset) == map[];
    forall d | d in dailyStats
      ensures dailyStats[d] == Stats([], d)
    {
      StatsEmpty(d);
    }
    var k := 0;
    ghost var seen: seq<EmotionRecord> := [];
    while k < |kept|
      invariant 0 <= k <= |kept|
      invariant seen == kept[..k]
      invariant dailyStats.Keys == buckets.Keys
      invariant forall d :: d in dailyStats ==> dailyStats[d] == Stats(seen, d)
      invariant hourCounts == HourCounts(seen, tzOffset)
    {
      var r := kept[k];
      var date := DayOf(r.timestamp);
      var hour := HourOf(r.timestamp, tzOffset);
      HourCountsStep(hourCounts, seen, r, tzOffset);
      hourCounts := hourCounts[hour := (if hour in hourCounts then hourCounts[hour] else 0) + 1];
      BucketsStep(dailyStats, seen, r);
      if date in dailyStats {
        dailyStats := dailyStats[date := Accumulate(dailyStats[date], r)];
      }
      assert kept[..k + 1] == seen + [r];
      seen := seen + [r];
      k := k + 1;
    }
    assert seen == kept;
  }

  /** The engine's computation: the window filter, the day skeleton, the pass
      over the kept records, then the peak hours and the overall means. It
      yields the reference snapshot, so its incremental means are plain means. */
  method Analyze(records: seq<EmotionRecord>, now: int, tzOffset: int, days: int) returns (a: EmotionAnalytics)
    ensures a == AnalyticsOf(records, now, tzOffset, days)
  {
    var kept := Window(records, now, days);
    var daysArray, skeleton := BuildSkeleton(now, days);
    var dailyStats, hourCounts := TallyRecords(kept, tzOffset, skeleton);

    var peakHours := PeakHours(hourCounts);
    var totalCount := |kept|;
    var averageAngerLevel := Mean(AngerSum(kept), totalCount);
    var overallResolutionRate := Mean(ResolvedCount(kept), totalCount);
    var averageDuration := Mean(DurationSum(kept), totalCount);
    var buckets := seq(|daysArray|, j requires 0 <= j < |daysArray| => dailyStats[daysArray[j]]);
    assert buckets == seq(|daysArray|, j requires 0 <= j < |daysArray| => Stats(kept, daysArray[j]));
    a := EmotionAnalytics(totalCount, averageAngerLevel, overallResolutionRate, averageDuration, peakHours, buckets);
  }
}
