/** The records and snapshots the emotion store and the analytics engine exchange. */
module EmotionTypes {

  /** One completed venting session. `timestamp` is in milliseconds since the epoch,
      `duration` in seconds, `length` the character count of `text`. */
  datatype EmotionRecord = EmotionRecord(
    id: string,
    timestamp: int,
    text: string,
    angerLevel: int,
    duration: int,
    resolved: bool,
    length: int)

  /** A session as the UI hands it to the store: an `EmotionRecord` without its `id`. */
  datatype EmotionDraft = EmotionDraft(
    timestamp: int,
    text: string,
    angerLevel: int,
    duration: int,
    resolved: bool,
    length: int)

  /** The draft part of a record (the record with its `id` dropped). */
  function WithoutId(r: EmotionRecord): EmotionDraft
  {
    EmotionDraft(r.timestamp, r.text, r.angerLevel, r.duration, r.resolved, r.length)
  }

  /** The record stored for `d` under the identifier `id`: the draft's fields plus `id`. */
  function WithId(d: EmotionDraft, id: string): (r: EmotionRecord)
    ensures r.id == id && WithoutId(r) == d
  {
    EmotionRecord(id, d.timestamp, d.text, d.angerLevel, d.duration, d.resolved, d.length)
  }

  /** Aggregate for one UTC calendar day; `date` is the day number (days since the epoch). */
  datatype DailyEmotionStats = DailyEmotionStats(
    date: int,
    count: nat,
    averageAngerLevel: real,
    resolutionRate: real,
    averageDuration: real)

  /** The snapshot returned for one analytics window. */
  datatype EmotionAnalytics = EmotionAnalytics(
    totalCount: nat,
    averageAngerLevel: real,
    overallResolutionRate: real,
    averageDuration: real,
    peakHours: seq<int>,
    dailyStats: seq<DailyEmotionStats>)

  /** The anger level lies in 0..100, as the UI caps it. */
  predicate AngerInRange(r: EmotionRecord)
  {
    0 <= r.angerLevel <= 100
  }

  /** The session lasted a non-negative number of seconds. */
  predicate DurationNonNegative(r: EmotionRecord)
  {
    0 <= r.duration
  }
}
