/** The record store: one persisted item holding the whole log, read in full and
    written back in full on every append, and the analytics entry point over it. */
module EmotionStorage {
  import opened Wrappers
  import opened EmotionTypes
  import opened Decimal
  import opened Analytics

  /** The identifier stamped on a record saved at clock reading `now`, in
      milliseconds: the decimal rendering of the reading, with a minus sign
      for a reading before the epoch. */
  function RecordId(now: int): string
  {
    if now < 0 then "-" + DecimalString(-now) else DecimalString(now)
  }

  /** Saves at different instants get different identifiers; two saves in the
      same millisecond get the same one. */
  lemma RecordIdsDistinct(m: int, n: int)
    ensures RecordId(m) == RecordId(n) <==> m == n
  {
    if m != n {
      var a, b := RecordId(m), RecordId(n);
      if m < 0 && n < 0 {
        DecimalStringInjective(-m, -n);
        assert a[1..] == DecimalString(-m) && b[1..] == DecimalString(-n);
      } else if m < 0 {
        assert a[0] == '-' && IsDigit(b[0]);
      } else if n < 0 {
        assert b[0] == '-' && IsDigit(a[0]);
      } else {
        DecimalStringInjective(m, n);
      }
    }
  }

  class EmotionStore {
    /** The persisted `emotion_records` item; `None` while nothing is stored. */
    var item: Option<seq<EmotionRecord>>

    constructor (persisted: Option<seq<EmotionRecord>>)
      ensures item == persisted
    {
      item := persisted;
    }

    /** The log as readers see it: the stored sequence, or none. */
    function Log(): seq<EmotionRecord>
      reads this
    {
      match item
      case None => []
      case Some(records) => records
    }

    /** `getEmotionRecords`: the stored sequence, or the empty one when nothing
        is stored. */
    method GetEmotionRecords() returns (records: seq<EmotionRecord>)
      ensures item.None? ==> records == []
      ensures item.Some? ==> records == item.value
    {
      match item
      case None => records := [];
      case Some(stored) => records := stored;
    }

    /** `saveEmotionRecord`: read the log, append the draft stamped with the id
        of the clock reading `now`, write the whole log back, return the new
        record. Earlier records are kept unchanged and in order. */
    method SaveEmotionRecord(record: EmotionDraft, now: int) returns (saved: EmotionRecord)
      modifies this
      ensures saved == WithId(record, RecordId(now))
      ensures item == Some(old(Log()) + [saved])
      ensures Log() == old(Log()) + [saved]
    {
      var records := GetEmotionRecords();
      var newRecord := WithId(record, RecordId(now));
      records := records + [newRecord];
      item := Some(records);
      saved := newRecord;
    }

    /** `getEmotionAnalytics`: the snapshot of the last `days` days (30 unless
        given) of the stored log, at clock reading `now` and local offset
        `tzOffset`. It depends on the log and these parameters alone. */
    method GetEmotionAnalytics(now: int, tzOffset: int, days: int := 30) returns (a: EmotionAnalytics)
      ensures a == AnalyticsOf(Log(), now, tzOffset, days)
    {
      var records := GetEmotionRecords();
      a := Analyze(records, now, tzOffset, days);
    }
  }
}
