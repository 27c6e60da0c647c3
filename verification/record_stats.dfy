/** The pure part of the analytics engine: the sliding-window filter, the UTC
    day and local hour of a timestamp, and the per-day aggregates as plain
    arithmetic means. */
module RecordStats {
  import opened EmotionTypes

  const MsPerHour: int := 60 * 60 * 1000
  const MsPerDay: int := 24 * 60 * 60 * 1000

  /** UTC calendar day of a timestamp, as a day number. For a positive divisor
      Dafny's `/` rounds down, so negative timestamps land on the right day too. */
  function DayOf(t: int): int
  {
    t / MsPerDay
  }

  /** The day of `t` is the one whose span of milliseconds contains `t`. */
  lemma DayOfSpan(t: int)
    ensures DayOf(t) * MsPerDay <= t < DayOf(t) * MsPerDay + MsPerDay
  {
  }

  /** Local hour of day of a timestamp, for a fixed offset (in milliseconds)
      between local time and UTC. */
  function HourOf(t: int, tzOffset: int): (h: int)
    ensures 0 <= h < 24
  {
    ((t + tzOffset) / MsPerHour) % 24
  }

  /** The day `k` whole days before the day of `t`. */
  lemma DayOfShift(t: int, k: int)
    ensures DayOf(t - k * MsPerDay) == DayOf(t) - k
  {
    var q, r := t / MsPerDay, t % MsPerDay;
    assert t - k * MsPerDay == (q - k) * MsPerDay + r;
  }

  /** The sliding window: a record is kept when it is less than `days` whole
      days older than `now`; records stamped after `now` are kept too. */
  predicate InWindow(r: EmotionRecord, now: int, days: int)
  {
    now - r.timestamp < days * MsPerDay
  }

  /** The records kept by the window, in log order. */
  function Window(records: seq<EmotionRecord>, now: int, days: int): (kept: seq<EmotionRecord>)
    ensures |kept| <= |records|
    ensures forall r :: r in kept <==> r in records && InWindow(r, now, days)
    ensures (forall r :: r in records ==> InWindow(r, now, days)) ==> kept == records
  {
    if records == [] then []
    else
      var rest := Window(records[1..], now, days);
      assert records == [records[0]] + records[1..];
      if InWindow(records[0], now, days) then [records[0]] + rest else rest
  }

  /** The window keeps every occurrence of an in-window record and none of the
      others: duplicates survive as often as they are logged. */
  lemma {:induction false} WindowMultiset(records: seq<EmotionRecord>, now: int, days: int)
    ensures forall r ::
      multiset(Window(records, now, days))[r] == (if InWindow(r, now, days) then multiset(records)[r] else 0)
  {
    if records != [] {
      assert records == [records[0]] + records[1..];
      WindowMultiset(records[1..], now, days);
    }
  }

  /** The window keeps the log's order: filtering two stretches of the log one
      after the other gives the filtered stretches one after the other. */
  lemma {:induction false} WindowConcat(a: seq<EmotionRecord>, b: seq<EmotionRecord>, now: int, days: int)
    ensures Window(a + b, now, days) == Window(a, now, days) + Window(b, now, days)
  {
    if a != [] {
      var ab := a + b;
      assert ab[0] == a[0] && ab[1..] == a[1..] + b;
      WindowConcat(a[1..], b, now, days);
      var rest := Window(a[1..], now, days);
      if InWindow(a[0], now, days) {
        assert Window(ab, now, days) == [a[0]] + (rest + Window(b, now, days));
        assert Window(a, now, days) == [a[0]] + rest;
      } else {
        assert Window(ab, now, days) == rest + Window(b, now, days);
        assert Window(a, now, days) == rest;
      }
    } else {
      assert a + b == b;
    }
  }

  /** The records of `rs` whose UTC day is `d`, in order. */
  function OnDay(rs: seq<EmotionRecord>, d: int): (xs: seq<EmotionRecord>)
    ensures |xs| <= |rs|
    ensures forall r :: r in xs <==> r in rs && DayOf(r.timestamp) == d
  {
    if rs == [] then []
    else
      var last := rs[|rs| - 1];
      assert rs == rs[..|rs| - 1] + [last];
      OnDay(rs[..|rs| - 1], d) + (if DayOf(last.timestamp) == d then [last] else [])
  }

  /** A day's records keep every occurrence of a record of that day and none of
      the others. */
  lemma {:induction false} OnDayMultiset(rs: seq<EmotionRecord>, d: int)
    ensures forall r ::
      multiset(OnDay(rs, d))[r] == (if DayOf(r.timestamp) == d then multiset(rs)[r] else 0)
  {
    if rs != [] {
      var init := rs[..|rs| - 1];
      assert rs == init + [rs[|rs| - 1]];
      OnDayMultiset(init, d);
    }
  }

  /** Number of records of `rs` whose local hour is `h`. */
  function HourCount(rs: seq<EmotionRecord>, h: int, tzOffset: int): (n: nat)
    ensures n <= |rs|
  {
    if rs == [] then 0
    else HourCount(rs[..|rs| - 1], h, tzOffset) + (if HourOf(rs[|rs| - 1].timestamp, tzOffset) == h then 1 else 0)
  }

  lemma HourCountAppend(rs: seq<EmotionRecord>, r: EmotionRecord, h: int, tzOffset: int)
    ensures HourCount(rs + [r], h, tzOffset) == HourCount(rs, h, tzOffset) + (if HourOf(r.timestamp, tzOffset) == h then 1 else 0)
  {
    var ys := rs + [r];
    assert ys[..|ys| - 1] == rs;
  }

  function AngerSum(rs: seq<EmotionRecord>): int
  {
    if rs == [] then 0 else AngerSum(rs[..|rs| - 1]) + rs[|rs| - 1].angerLevel
  }

  function DurationSum(rs: seq<EmotionRecord>): int
  {
    if rs == [] then 0 else DurationSum(rs[..|rs| - 1]) + rs[|rs| - 1].duration
  }

  /** Number of resolved sessions: the sum of `resolved` read as 1 or 0. */
  function ResolvedCount(rs: seq<EmotionRecord>): (n: nat)
    ensures n <= |rs|
  {
    if rs == [] then 0 else ResolvedCount(rs[..|rs| - 1]) + (if rs[|rs| - 1].resolved then 1 else 0)
  }

  /** Arithmetic mean of `n` values summing to `total`; 0 when there are none. */
  function Mean(total: int, n: nat): real
  {
    if n == 0 then 0.0 else total as real / n as real
  }

  /** Zeroed bucket, as the day skeleton creates it. */
  function EmptyBucket(d: int): DailyEmotionStats
  {
    DailyEmotionStats(d, 0, 0.0, 0.0, 0.0)
  }

  /** Reference statistics of the records `xs`, filed under day `d`: their count
      and the plain means of their anger, resolved-as-0/1 and duration. */
  function Summary(xs: seq<EmotionRecord>, d: int): DailyEmotionStats
  {
    DailyEmotionStats(d, |xs|, Mean(AngerSum(xs), |xs|), Mean(ResolvedCount(xs), |xs|),
                      Mean(DurationSum(xs), |xs|))
  }

  /** Reference statistics of day `d` within `rs`. */
  function Stats(rs: seq<EmotionRecord>, d: int): DailyEmotionStats
  {
    Summary(OnDay(rs, d), d)
  }

  /** The reference statistics of a day without records are the zeroed bucket. */
  lemma StatsEmpty(d: int)
    ensures Stats([], d) == EmptyBucket(d)
  {
  }

  /** The running-mean rule: `avg` was the mean of `n - 1` values; with value `v`
      added it becomes (avg * (n - 1) + v) / n. */
  function IncrementalMean(avg: real, n: nat, v: real): real
    requires n >= 1
  {
    (avg * (n - 1) as real + v) / n as real
  }

  /** The update the engine applies when a record joins a bucket: the count goes
      up by one and each of the three means takes one running-mean step. */
  function Accumulate(s: DailyEmotionStats, r: EmotionRecord): DailyEmotionStats
  {
    var n := s.count + 1;
    s.(count := n,
       averageAngerLevel := IncrementalMean(s.averageAngerLevel, n, r.angerLevel as real),
       resolutionRate := IncrementalMean(s.resolutionRate, n, if r.resolved then 1.0 else 0.0),
       averageDuration := IncrementalMean(s.averageDuration, n, r.duration as real))
  }

  /** A mean times its count gives back the total. */
  lemma MeanTimesCount(total: int, n: nat)
    requires n > 0
    ensures Mean(total, n) * n as real == total as real
  {
  }

  /** One incremental step turns the mean of `n` values into the mean of `n + 1`. */
  lemma MeanStep(total: int, n: nat, v: int)
    requires n == 0 ==> total == 0
    ensures IncrementalMean(Mean(total, n), n + 1, v as real) == Mean(total + v, n + 1)
  {
    if n > 0 {
      MeanTimesCount(total, n);
    }
  }

  /** Appending a record extends the day's records by it, or not at all. */
  lemma OnDayAppend(rs: seq<EmotionRecord>, r: EmotionRecord, d: int)
    ensures OnDay(rs + [r], d) == OnDay(rs, d) + (if DayOf(r.timestamp) == d then [r] else [])
  {
    var ys := rs + [r];
    assert ys[..|ys| - 1] == rs;
  }

  /** The three sums of a sequence extended by one record. */
  lemma SumsAppend(xs: seq<EmotionRecord>, r: EmotionRecord)
    ensures AngerSum(xs + [r]) == AngerSum(xs) + r.angerLevel
    ensures ResolvedCount(xs + [r]) == ResolvedCount(xs) + (if r.resolved then 1 else 0)
    ensures DurationSum(xs + [r]) == DurationSum(xs) + r.duration
  {
    var ys := xs + [r];
    assert ys[..|ys| - 1] == xs;
  }

  /** The sums of no records are 0. */
  lemma SumsEmpty(xs: seq<EmotionRecord>)
    requires |xs| == 0
    ensures AngerSum(xs) == 0 && ResolvedCount(xs) == 0 && DurationSum(xs) == 0
  {
  }

  /** The incremental mean equals the plain mean: one accumulation step turns
      the reference statistics of `xs` into those of `xs + [r]`. */
  lemma SummaryAppend(xs: seq<EmotionRecord>, r: EmotionRecord, d: int)
    ensures Accumulate(Summary(xs, d), r) == Summary(xs + [r], d)
  {
    SumsAppend(xs, r);
    var n := |xs|;
    if n == 0 {
      SumsEmpty(xs);
    }
    var v := if r.resolved then 1 else 0;
    assert v as real == if r.resolved then 1.0 else 0.0;
    MeanStep(AngerSum(xs), n, r.angerLevel);
    MeanStep(ResolvedCount(xs), n, v);
    MeanStep(DurationSum(xs), n, r.duration);
  }

  /** Accumulating a record of day `d` into that day's reference statistics
      gives the reference statistics of the log with the record appended. */
  lemma AccumulateStep(rs: seq<EmotionRecord>, r: EmotionRecord, d: int)
    requires DayOf(r.timestamp) == d
    ensures Accumulate(Stats(rs, d), r) == Stats(rs + [r], d)
  {
    OnDayAppend(rs, r, d);
    SummaryAppend(OnDay(rs, d), r, d);
  }

  /** A record of another day leaves day `d`'s statistics as they were. */
  lemma StatsOtherDay(rs: seq<EmotionRecord>, r: EmotionRecord, d: int)
    requires DayOf(r.timestamp) != d
    ensures Stats(rs + [r], d) == Stats(rs, d)
  {
    OnDayAppend(rs, r, d);
    assert OnDay(rs + [r], d) == OnDay(rs, d);
  }

  /** A mean of values lying in [lo, hi], with lo <= 0 <= hi, lies in [lo, hi]. */
  lemma MeanBounds(total: int, n: nat, lo: int, hi: int)
    requires lo <= 0 <= hi
    requires lo * n <= total <= hi * n
    ensures lo as real <= Mean(total, n) <= hi as real
  {
    if n > 0 {
      var m, k := Mean(total, n), n as real;
      MeanTimesCount(total, n);
      assert (m - hi as real) * k == total as real - (hi * n) as real;
      assert (m - lo as real) * k == total as real - (lo * n) as real;
    }
  }

  lemma MeanNonNegative(total: int, n: nat)
    requires 0 <= total
    ensures 0.0 <= Mean(total, n)
  {
  }

  lemma {:induction false} AngerSumBounds(rs: seq<EmotionRecord>)
    requires forall r :: r in rs ==> AngerInRange(r)
    ensures 0 <= AngerSum(rs) <= 100 * |rs|
  {
    if rs != [] {
      assert forall r :: r in rs[..|rs| - 1] ==> r in rs;
      AngerSumBounds(rs[..|rs| - 1]);
      assert rs[|rs| - 1] in rs;
    }
  }

  lemma {:induction false} DurationSumNonNegative(rs: seq<EmotionRecord>)
    requires forall r :: r in rs ==> DurationNonNegative(r)
    ensures 0 <= DurationSum(rs)
  {
    if rs != [] {
      assert forall r :: r in rs[..|rs| - 1] ==> r in rs;
      DurationSumNonNegative(rs[..|rs| - 1]);
      assert rs[|rs| - 1] in rs;
    }
  }

  /** The three figures of a set of records are 0 when it is empty; the
      resolution rate lies in [0, 1]; the mean anger lies in [0, 100] when every
      anger level does, and the mean duration is non-negative when every
      duration is. */
  lemma FigureBounds(xs: seq<EmotionRecord>)
    ensures |xs| == 0 ==> Mean(AngerSum(xs), |xs|) == 0.0 && Mean(ResolvedCount(xs), |xs|) == 0.0
                          && Mean(DurationSum(xs), |xs|) == 0.0
    ensures 0.0 <= Mean(ResolvedCount(xs), |xs|) <= 1.0
    ensures (forall r :: r in xs ==> AngerInRange(r)) ==> 0.0 <= Mean(AngerSum(xs), |xs|) <= 100.0
    ensures (forall r :: r in xs ==> DurationNonNegative(r)) ==> 0.0 <= Mean(DurationSum(xs), |xs|)
  {
    MeanBounds(ResolvedCount(xs), |xs|, 0, 1);
    if forall r :: r in xs ==> AngerInRange(r) {
      AngerSumBounds(xs);
      MeanBounds(AngerSum(xs), |xs|, 0, 100);
    }
    if forall r :: r in xs ==> DurationNonNegative(r) {
      DurationSumNonNegative(xs);
      MeanNonNegative(DurationSum(xs), |xs|);
    }
  }

  /** Number of records of `rs` whose UTC day is in `days`. */
  function CountOnDays(rs: seq<EmotionRecord>, days: set<int>): (n: nat)
    ensures n <= |rs|
  {
    if rs == [] then 0
    else CountOnDays(rs[..|rs| - 1], days) + (if DayOf(rs[|rs| - 1].timestamp) in days then 1 else 0)
  }

  /** Counting over a set of days plus one more day adds that day's records. */
  lemma {:induction false} CountOnDaysAdd(rs: seq<EmotionRecord>, days: set<int>, d: int)
    requires d !in days
    ensures CountOnDays(rs, days + {d}) == CountOnDays(rs, days) + |OnDay(rs, d)|
  {
    if rs != [] {
      CountOnDaysAdd(rs[..|rs| - 1], days, d);
    }
  }

  /** All records are counted exactly when every one of them lies on one of the days. */
  lemma {:induction false} CountOnDaysAll(rs: seq<EmotionRecord>, days: set<int>)
    ensures CountOnDays(rs, days) == |rs| <==> forall r :: r in rs ==> DayOf(r.timestamp) in days
  {
    if rs != [] {
      var init := rs[..|rs| - 1];
      assert rs == init + [rs[|rs| - 1]];
      CountOnDaysAll(init, days);
    }
  }
}
