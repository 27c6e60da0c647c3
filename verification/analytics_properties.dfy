/** What the snapshot promises, proved of its reference definition (and so of
    what `Analyze` computes). */
module AnalyticsProperties {
  import opened EmotionTypes
  import opened RecordStats
  import opened PeakHourRanking
  import opened Analytics

  /** Bucket `i` of the skeleton is `days - 1 - i` days before the day of `now`. */
  lemma SkeletonDays(now: int, days: int)
    ensures var sk := Skeleton(now, days);
      && |sk| == BucketCount(days)
      && forall i :: 0 <= i < |sk| ==> sk[i] == DayOf(now) - (days - 1 - i)
  {
    var sk := Skeleton(now, days);
    forall i | 0 <= i < |sk|
      ensures sk[i] == DayOf(now) - (days - 1 - i)
    {
      DayOfShift(now, days - 1 - i);
    }
  }

  /** `dailyStats` has one entry per day of the window (none for a non-positive
      window), on consecutive UTC days, the last one today. */
  lemma DailyStatsDates(records: seq<EmotionRecord>, now: int, tzOffset: int, days: int)
    ensures var ds := AnalyticsOf(records, now, tzOffset, days).dailyStats;
      && |ds| == (if days > 0 then days else 0)
      && (forall i :: 0 <= i < |ds| ==> ds[i].date == DayOf(now) - (|ds| - 1 - i))
      && (forall i :: 0 <= i < |ds| - 1 ==> ds[i + 1].date == ds[i].date + 1)
      && (|ds| > 0 ==> ds[|ds| - 1].date == DayOf(now))
  {
    SkeletonDays(now, days);
  }

  /** Each bucket holds the count of the kept records of its day and their plain
      means; all three means are 0 for an empty day, the resolution rate lies in
      [0, 1], the mean anger lies in [0, 100] when every anger level of the
      day's records does, and the mean duration is non-negative when every
      duration of the day's records is. */
  lemma DailyStatsContents(records: seq<EmotionRecord>, now: int, tzOffset: int, days: int)
    ensures var kept := Window(records, now, days);
      var ds := AnalyticsOf(records, now, tzOffset, days).dailyStats;
      forall i :: 0 <= i < |ds| ==>
        var b, xs := ds[i], OnDay(kept, ds[i].date);
        && b.count == |xs|
        && b.averageAngerLevel == Mean(AngerSum(xs), |xs|)
        && b.resolutionRate == Mean(ResolvedCount(xs), |xs|)
        && b.averageDuration == Mean(DurationSum(xs), |xs|)
        && (b.count == 0 ==> b.averageAngerLevel == 0.0 && b.resolutionRate == 0.0 && b.averageDuration == 0.0)
        && 0.0 <= b.resolutionRate <= 1.0
        && ((forall r :: r in xs ==> AngerInRange(r)) ==> 0.0 <= b.averageAngerLevel <= 100.0)
        && ((forall r :: r in xs ==> DurationNonNegative(r)) ==> 0.0 <= b.averageDuration)
  {
    var kept := Window(records, now, days);
    var ds := AnalyticsOf(records, now, tzOffset, days).dailyStats;
    forall i | 0 <= i < |ds|
      ensures var b, xs := ds[i], OnDay(kept, ds[i].date);
        && b.count == |xs|
        && b.averageAngerLevel == Mean(AngerSum(xs), |xs|)
        && b.resolutionRate == Mean(ResolvedCount(xs), |xs|)
        && b.averageDuration == Mean(DurationSum(xs), |xs|)
        && (b.count == 0 ==> b.averageAngerLevel == 0.0 && b.resolutionRate == 0.0 && b.averageDuration == 0.0)
        && 0.0 <= b.resolutionRate <= 1.0
        && ((forall r :: r in xs ==> AngerInRange(r)) ==> 0.0 <= b.averageAngerLevel <= 100.0)
        && ((forall r :: r in xs ==> DurationNonNegative(r)) ==> 0.0 <= b.averageDuration)
    {
      FigureBounds(OnDay(kept, ds[i].date));
    }
  }

  /** Sum of the bucket counts. */
  function CountSum(ds: seq<DailyEmotionStats>): nat
  {
    if ds == [] then 0 else CountSum(ds[..|ds| - 1]) + ds[|ds| - 1].count
  }

  /** The elements listed in `xs`, as a set. */
  function Elements(xs: seq<int>): set<int>
  {
    set x | x in xs
  }

  /** The buckets of the first `i` skeleton days count the kept records whose
      day is one of those days. */
  lemma {:induction false} CountSumPrefix(kept: seq<EmotionRecord>, now: int, days: int, i: nat)
    requires i <= BucketCount(days)
    ensures var sk := Skeleton(now, days);
      var ds := seq(|sk|, j requires 0 <= j < |sk| => Stats(kept, sk[j]));
      CountSum(ds[..i]) == CountOnDays(kept, Elements(sk[..i]))
  {
    var sk := Skeleton(now, days);
    var ds := seq(|sk|, j requires 0 <= j < |sk| => Stats(kept, sk[j]));
    if i == 0 {
      assert Elements(sk[..0]) == {};
      CountOnDaysEmpty(kept);
    } else {
      CountSumPrefix(kept, now, days, i - 1);
      assert ds[..i][..i - 1] == ds[..i - 1];
      var before := Elements(sk[..i - 1]);
      assert sk[..i] == sk[..i - 1] + [sk[i - 1]];
      assert Elements(sk[..i]) == before + {sk[i - 1]};
      SkeletonDays(now, days);
      assert sk[i - 1] !in before;
      CountOnDaysAdd(kept, before, sk[i - 1]);
    }
  }

  lemma {:induction false} CountOnDaysEmpty(rs: seq<EmotionRecord>)
    ensures CountOnDays(rs, {}) == 0
  {
    if rs != [] {
      CountOnDaysEmpty(rs[..|rs| - 1]);
    }
  }

  /** The bucket counts add up to at most `totalCount`, and to exactly
      `totalCount` if and only if every kept record's UTC day is one of the
      skeleton's days; the others are left out of `dailyStats` only. */
  lemma BucketCountsVersusTotal(records: seq<EmotionRecord>, now: int, tzOffset: int, days: int)
    ensures var a := AnalyticsOf(records, now, tzOffset, days);
      var kept := Window(records, now, days);
      && CountSum(a.dailyStats) <= a.totalCount
      && (CountSum(a.dailyStats) == a.totalCount <==>
            forall r :: r in kept ==> DayOf(now) - days < DayOf(r.timestamp) <= DayOf(now))
  {
    var a := AnalyticsOf(records, now, tzOffset, days);
    var kept := Window(records, now, days);
    var sk := Skeleton(now, days);
    var n := BucketCount(days);
    CountSumPrefix(kept, now, days, n);
    assert a.dailyStats[..n] == a.dailyStats;
    assert sk[..n] == sk;
    var daySet := Elements(sk[..n]);
    SkeletonDays(now, days);
    forall t
      ensures DayOf(t) in daySet <==> DayOf(now) - days < DayOf(t) <= DayOf(now)
    {
      if DayOf(now) - days < DayOf(t) <= DayOf(now) {
        var j := DayOf(t) - DayOf(now) + days - 1;
        assert sk[j] == DayOf(t);
        assert sk[j] in sk[..n];
      }
    }
    CountOnDaysAll(kept, daySet);
  }

  /** A record less than a day old can still fall on yesterday, outside a
      one-day skeleton: it is counted in `totalCount` but in no bucket. */
  lemma RecordOutsideSkeleton()
    ensures var now := 10 * MsPerDay + 1;
      var r := EmotionRecord("x", 9 * MsPerDay + 2, "", 0, 0, false, 0);
      var a := AnalyticsOf([r], now, 0, 1);
      a.totalCount == 1 && |a.dailyStats| == 1 && CountSum(a.dailyStats) == 0
  {
    var now := 10 * MsPerDay + 1;
    var r := EmotionRecord("x", 9 * MsPerDay + 2, "", 0, 0, false, 0);
    assert InWindow(r, now, 1);
    assert Window([r], now, 1) == [r];
    assert DayOf(r.timestamp) == 9 && DayOf(now) == 10;
    BucketCountsVersusTotal([r], now, 0, 1);
    DailyStatsDates([r], now, 0, 1);
    var a := AnalyticsOf([r], now, 0, 1);
    assert a.totalCount == 1;
    assert CountSum(a.dailyStats) != 1;
  }

  /** `totalCount` is the number of kept records; the overall figures are their
      plain means, all 0 (and no peak hours) when nothing is kept; the overall
      resolution rate lies in [0, 1]; the mean anger lies in [0, 100] when every
      kept anger level does, and the mean duration is non-negative when every
      kept duration is. */
  lemma OverallFigures(records: seq<EmotionRecord>, now: int, tzOffset: int, days: int)
    ensures var a := AnalyticsOf(records, now, tzOffset, days);
      var kept := Window(records, now, days);
      && a.totalCount == |kept|
      && a.averageAngerLevel == Mean(AngerSum(kept), |kept|)
      && a.overallResolutionRate == Mean(ResolvedCount(kept), |kept|)
      && a.averageDuration == Mean(DurationSum(kept), |kept|)
      && (a.totalCount == 0 ==>
            a.averageAngerLevel == 0.0 && a.overallResolutionRate == 0.0 && a.averageDuration == 0.0
            && a.peakHours == [])
      && 0.0 <= a.overallResolutionRate <= 1.0
      && ((forall r :: r in kept ==> AngerInRange(r)) ==> 0.0 <= a.averageAngerLevel <= 100.0)
      && ((forall r :: r in kept ==> DurationNonNegative(r)) ==> 0.0 <= a.averageDuration)
  {
    var kept := Window(records, now, days);
    FigureBounds(kept);
    if |kept| == 0 {
      var counts := HourCounts(kept, tzOffset);
      assert counts == map[];
      PeakHoursRanking(counts);
    }
  }

  /** An hour has a nonzero count exactly when some record falls in it. */
  lemma {:induction false} HourCountPositive(rs: seq<EmotionRecord>, h: int, tzOffset: int)
    ensures HourCount(rs, h, tzOffset) > 0 <==> exists r :: r in rs && HourOf(r.timestamp, tzOffset) == h
  {
    if rs != [] {
      var init := rs[..|rs| - 1];
      assert rs == init + [rs[|rs| - 1]];
      HourCountPositive(init, h, tzOffset);
    }
  }

  /** The hour-to-count object has an entry exactly for the hours that some
      record falls in. */
  lemma HourCountsKeys(rs: seq<EmotionRecord>, tzOffset: int)
    ensures forall h :: h in HourCounts(rs, tzOffset) <==> exists r :: r in rs && HourOf(r.timestamp, tzOffset) == h
  {
    forall h
      ensures h in HourCounts(rs, tzOffset) <==> exists r :: r in rs && HourOf(r.timestamp, tzOffset) == h
    {
      HourCountPositive(rs, h, tzOffset);
    }
  }

  /** The peak hours in terms of the kept records: at most three distinct hours
      0 .. 23, each with at least one record, by descending record count with
      ties to the lower hour; an hour left out has no more records than the last
      one listed (and is the higher hour on a tie), and none is left out when
      fewer than three are listed. */
  lemma PeakHoursOfWindow(records: seq<EmotionRecord>, now: int, tzOffset: int, days: int)
    ensures var p := AnalyticsOf(records, now, tzOffset, days).peakHours;
      var kept := Window(records, now, days);
      && |p| <= 3
      && (forall i :: 0 <= i < |p| ==> 0 <= p[i] < 24 && HourCount(kept, p[i], tzOffset) > 0)
      && (forall i, j :: 0 <= i < j < |p| ==>
            HourCount(kept, p[i], tzOffset) > HourCount(kept, p[j], tzOffset)
            || (HourCount(kept, p[i], tzOffset) == HourCount(kept, p[j], tzOffset) && p[i] < p[j]))
      && (forall h :: 0 <= h < 24 && HourCount(kept, h, tzOffset) > 0 && h !in p ==>
            |p| == 3 && (HourCount(kept, h, tzOffset) < HourCount(kept, p[2], tzOffset)
                         || (HourCount(kept, h, tzOffset) == HourCount(kept, p[2], tzOffset) && p[2] < h)))
  {
    var kept := Window(records, now, days);
    var counts := HourCounts(kept, tzOffset);
    PeakHoursRanking(counts);
  }

  /** A sequence without repetitions has as many elements as its set. */
  lemma {:induction false} DistinctCard(p: seq<int>)
    requires forall i, j :: 0 <= i < j < |p| ==> p[i] != p[j]
    ensures |Elements(p)| == |p|
  {
    if p != [] {
      var rest := p[1..];
      DistinctCard(rest);
      assert Elements(p) == {p[0]} + Elements(rest);
      assert p[0] !in Elements(rest);
    }
  }

  lemma SubsetCard(small: set<int>, large: set<int>)
    requires small <= large
    ensures |small| <= |large|
  {
    var rest := large - small;
    assert large == small + rest;
    assert small * rest == {};
  }

  /** With exactly two active hours, both are listed and nothing else. */
  lemma TwoActiveHoursListed(counts: map<int, nat>, a: int, b: int)
    requires counts.Keys == {a, b} && a != b
    requires 0 <= a < 24 && 0 <= b < 24
    requires counts[a] > 0 && counts[b] > 0
    ensures var p := PeakHours(counts);
      |p| == 2 && a in p && b in p
  {
    PeakHoursRanking(counts);
    var p := PeakHours(counts);
    DistinctCard(p);
    assert Elements(p) <= {a, b};
    SubsetCard(Elements(p), {a, b});
    assert a in p && b in p;
    assert Elements(p) == {a, b};
  }

  /** Exactly two active hours, `a` with more records than `b` (hour 14 with
      five and hour 3 with two, say): the peak hours are `[a, b]`. */
  lemma TwoActiveHours(counts: map<int, nat>, a: int, b: int)
    requires counts.Keys == {a, b}
    requires 0 <= a < 24 && 0 <= b < 24
    requires counts[a] > counts[b] > 0
    ensures PeakHours(counts) == [a, b]
  {
    TwoActiveHoursListed(counts, a, b);
    PeakHoursRanking(counts);
  }

  /** An empty log gives a zero snapshot: no peak hours and `days` zeroed
      buckets for the last `days` days. */
  lemma EmptyLog(now: int, tzOffset: int, days: int)
    ensures var a := AnalyticsOf([], now, tzOffset, days);
      && a.totalCount == 0 && a.averageAngerLevel == 0.0 && a.overallResolutionRate == 0.0
      && a.averageDuration == 0.0 && a.peakHours == []
      && |a.dailyStats| == BucketCount(days)
      && forall i :: 0 <= i < |a.dailyStats| ==>
           a.dailyStats[i] == EmptyBucket(DayOf(now) - (days - 1 - i))
  {
    OverallFigures([], now, tzOffset, days);
    SkeletonDays(now, days);
  }

  /** Three records on one day, with anger 20, 60 and 100 and one of them
      resolved: that day's bucket counts 3, with mean anger 60 and resolution
      rate one third. */
  lemma ThreeRecordsOneDay(r1: EmotionRecord, r2: EmotionRecord, r3: EmotionRecord)
    requires DayOf(r1.timestamp) == DayOf(r2.timestamp) == DayOf(r3.timestamp)
    requires r1.angerLevel == 20 && r2.angerLevel == 60 && r3.angerLevel == 100
    requires !r1.resolved && !r2.resolved && r3.resolved
    ensures var s := Stats([r1, r2, r3], DayOf(r1.timestamp));
      s.count == 3 && s.averageAngerLevel == 60.0 && s.resolutionRate == 1.0 / 3.0
  {
    var d := DayOf(r1.timestamp);
    var xs := [r1, r2, r3];
    assert [r1, r2, r3][..2] == [r1, r2] && [r1, r2][..1] == [r1] && [r1][..0] == [];
    assert OnDay([r1], d) == [r1];
    assert OnDay([r1, r2], d) == [r1, r2];
    assert OnDay(xs, d) == xs;
    assert AngerSum([r1]) == 20 && AngerSum([r1, r2]) == 80 && AngerSum(xs) == 180;
    assert ResolvedCount([r1]) == 0 && ResolvedCount([r1, r2]) == 0 && ResolvedCount(xs) == 1;
  }

  /** A session stamped at `t` with the given anger level and outcome, lasting
      60 seconds; its other fields play no part in the analytics. */
  function Session(t: int, anger: int, resolved: bool): EmotionRecord
  {
    EmotionRecord("", t, "", anger, 60, resolved, 0)
  }

  /** The clock reading of the scenarios: 15:00 UTC on day 100. */
  const ScenarioNow: int := 100 * MsPerDay + 15 * MsPerHour

  /** A log of four sessions from the last two hours, three of them at 14:xx
      and one at 13:00 UTC: with a zero offset and the default 30-day window,
      the peak hours are 14 and then 13. */
  lemma TwoActiveHoursLog()
    ensures var now := ScenarioNow;
      var log := [Session(now - MsPerHour, 50, true), Session(now - MsPerHour + 1000, 50, false),
                  Session(now - 2 * MsPerHour, 50, false), Session(now - MsPerHour + 2000, 50, true)];
      AnalyticsOf(log, now, 0, 30).peakHours == [14, 13]
  {
    var now := ScenarioNow;
    var a, b, c, d := Session(now - MsPerHour, 50, true), Session(now - MsPerHour + 1000, 50, false),
                      Session(now - 2 * MsPerHour, 50, false), Session(now - MsPerHour + 2000, 50, true);
    var log := [a, b, c, d];
    assert Window(log, now, 30) == log by {
      assert forall r :: r in log ==> InWindow(r, now, 30);
    }
    assert HourOf(a.timestamp, 0) == 14 && HourOf(b.timestamp, 0) == 14;
    assert HourOf(c.timestamp, 0) == 13 && HourOf(d.timestamp, 0) == 14;
    assert [a] == [] + [a] && [a, b] == [a] + [b] && [a, b, c] == [a, b] + [c] && log == [a, b, c] + [d];
    forall h
      ensures HourCount(log, h, 0) == (if h == 14 then 3 else if h == 13 then 1 else 0)
    {
      HourCountAppend([], a, h, 0);
      HourCountAppend([a], b, h, 0);
      HourCountAppend([a, b], c, h, 0);
      HourCountAppend([a, b, c], d, h, 0);
    }
    var counts := HourCounts(log, 0);
    assert counts.Keys == {14, 13};
    TwoActiveHours(counts, 14, 13);
  }

  /** Three sessions on the day of the clock reading, from 12:00, 13:00 and
      14:00 UTC, with anger 20, 60 and 100 and only the last one resolved. */
  function ThreeSessionLog(): seq<EmotionRecord>
  {
    [Session(ScenarioNow - 3 * MsPerHour, 20, false), Session(ScenarioNow - 2 * MsPerHour, 60, false),
     Session(ScenarioNow - MsPerHour, 100, true)]
  }

  /** The whole three-session log is kept by the 30-day window, and the clock
      reading falls on day 100. */
  lemma ThreeSessionLogKept()
    ensures var log := ThreeSessionLog();
      |log| == 3 && DayOf(ScenarioNow) == 100 && Window(log, ScenarioNow, 30) == log
  {
    var log := ThreeSessionLog();
    assert forall r :: r in log ==> InWindow(r, ScenarioNow, 30);
  }

  /** All three sessions fall on day 100. */
  lemma ThreeSessionLogOneDay()
    ensures OnDay(ThreeSessionLog(), 100) == ThreeSessionLog()
  {
    var log := ThreeSessionLog();
    var a, b, c := log[0], log[1], log[2];
    assert DayOf(a.timestamp) == 100 && DayOf(b.timestamp) == 100 && DayOf(c.timestamp) == 100;
    assert log == [a, b] + [c] && [a, b] == [a] + [b] && [a] == [] + [a];
    OnDayAppend([], a, 100);
    OnDayAppend([a], b, 100);
    OnDayAppend([a, b], c, 100);
  }

  /** The anger, resolved and duration sums of the three sessions. */
  lemma ThreeSessionLogSums()
    ensures var log := ThreeSessionLog();
      AngerSum(log) == 180 && ResolvedCount(log) == 1 && DurationSum(log) == 180
  {
    var log := ThreeSessionLog();
    var a, b, c := log[0], log[1], log[2];
    assert log == [a, b] + [c] && [a, b] == [a] + [b] && [a] == [] + [a];
    SumsAppend([], a);
    SumsAppend([a], b);
    SumsAppend([a, b], c);
  }

  /** The snapshot of the three-session log, zero offset, 30-day window: it
      counts 3 sessions with mean anger 60, resolution rate one third and mean
      duration 60. */
  lemma ThreeRecordsLog()
    ensures var snap := AnalyticsOf(ThreeSessionLog(), ScenarioNow, 0, 30);
      && snap.totalCount == 3 && snap.averageAngerLevel == 60.0
      && snap.overallResolutionRate == 1.0 / 3.0 && snap.averageDuration == 60.0
  {
    ThreeSessionLogKept();
    ThreeSessionLogSums();
    OverallFigures(ThreeSessionLog(), ScenarioNow, 0, 30);
  }

  /** Today's bucket, the last of the 30, holds the same figures for the
      three-session log. */
  lemma ThreeRecordsLogToday()
    ensures var ds := AnalyticsOf(ThreeSessionLog(), ScenarioNow, 0, 30).dailyStats;
      |ds| == 30 && ds[29] == DailyEmotionStats(100, 3, 60.0, 1.0 / 3.0, 60.0)
  {
    ThreeSessionLogKept();
    ThreeSessionLogOneDay();
    ThreeSessionLogSums();
    DailyStatsDates(ThreeSessionLog(), ScenarioNow, 0, 30);
    DailyStatsContents(ThreeSessionLog(), ScenarioNow, 0, 30);
  }
}
