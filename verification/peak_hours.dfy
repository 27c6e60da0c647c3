/** Peak-hour ranking: the entries of the hour-to-count object in the order the
    JavaScript runtime lists integer keys (ascending), stably sorted by
    descending count, cut to the first three, reduced to their hours. */
module PeakHourRanking {

  /** One `[hour, count]` pair of the hour-count object. */
  datatype HourEntry = HourEntry(hour: int, count: nat)

  /** The entries for hours 0 .. n - 1 present in `counts`, in ascending hour order. */
  function Entries(counts: map<int, nat>, n: nat): (es: seq<HourEntry>)
    ensures forall e :: e in es <==> 0 <= e.hour < n && e.hour in counts && e.count == counts[e.hour]
    ensures forall i, j :: 0 <= i < j < |es| ==> es[i].hour < es[j].hour
    ensures forall i :: 0 <= i < |es| ==> es[i].hour < n
  {
    if n == 0 then []
    else
      var h := n - 1;
      Entries(counts, h) + (if h in counts then [HourEntry(h, counts[h])] else [])
  }

  /** The ranking order: more records first, then the lower hour. */
  predicate Before(a: HourEntry, b: HourEntry)
  {
    a.count > b.count || (a.count == b.count && a.hour < b.hour)
  }

  predicate Ranked(s: seq<HourEntry>)
  {
    forall i, j :: 0 <= i < j < |s| ==> Before(s[i], s[j])
  }

  /** Stable insertion: `x` goes after every entry whose count is at least its own. */
  function Insert(s: seq<HourEntry>, x: HourEntry): seq<HourEntry>
  {
    if s == [] then [x]
    else if s[0].count < x.count then [x] + s
    else [s[0]] + Insert(s[1..], x)
  }

  /** Stable sort by descending count, as `sort(([, a], [, b]) => b - a)`. */
  function SortByCount(es: seq<HourEntry>): seq<HourEntry>
  {
    if es == [] then [] else Insert(SortByCount(es[..|es| - 1]), es[|es| - 1])
  }

  lemma {:induction false} InsertRanked(s: seq<HourEntry>, x: HourEntry)
    requires Ranked(s)
    requires forall e :: e in s ==> e.hour < x.hour
    ensures Ranked(Insert(s, x))
    ensures multiset(Insert(s, x)) == multiset(s) + multiset{x}
  {
    if s != [] && s[0].count >= x.count {
      var t := s[1..];
      assert s == [s[0]] + t;
      assert Ranked(t) by {
        forall i, j | 0 <= i < j < |t|
          ensures Before(t[i], t[j])
        {
          assert t[i] == s[i + 1] && t[j] == s[j + 1];
        }
      }
      InsertRanked(t, x);
      var u := Insert(t, x);
      assert Insert(s, x) == [s[0]] + u;
      forall k | 0 <= k < |u|
        ensures Before(s[0], u[k])
      {
        var y := u[k];
        assert y in multiset(u);
        if y != x {
          assert y in multiset(t);
          var m :| 0 <= m < |t| && t[m] == y;
          assert s[m + 1] == y;
        }
      }
      RankedCons(s[0], u);
    }
  }

  /** An entry ranked before every entry of a ranked list heads a ranked list. */
  lemma RankedCons(a: HourEntry, u: seq<HourEntry>)
    requires Ranked(u)
    requires forall k :: 0 <= k < |u| ==> Before(a, u[k])
    ensures Ranked([a] + u)
  {
    var v := [a] + u;
    forall i, j | 0 <= i < j < |v|
      ensures Before(v[i], v[j])
    {
      if i == 0 {
        assert v[j] == u[j - 1];
      } else {
        assert v[i] == u[i - 1] && v[j] == u[j - 1];
      }
    }
  }

  /** Sorting entries listed in ascending hour order yields them ranked: by
      descending count, ties by ascending hour; and it is a permutation. */
  lemma {:induction false} SortRanked(es: seq<HourEntry>)
    requires forall i, j :: 0 <= i < j < |es| ==> es[i].hour < es[j].hour
    ensures Ranked(SortByCount(es))
    ensures multiset(SortByCount(es)) == multiset(es)
  {
    if es != [] {
      var init, x := es[..|es| - 1], es[|es| - 1];
      assert es == init + [x];
      SortRanked(init);
      var s := SortByCount(init);
      forall e | e in s
        ensures e.hour < x.hour
      {
        assert e in multiset(init);
      }
      InsertRanked(s, x);
    }
  }

  /** The first three ranked entries (fewer when there are fewer), as `slice(0, 3)`. */
  function TopEntries(counts: map<int, nat>): seq<HourEntry>
  {
    var ranked := SortByCount(Entries(counts, 24));
    if |ranked| <= 3 then ranked else ranked[..3]
  }

  /** `peakHours`: the hours of the top entries. */
  function PeakHours(counts: map<int, nat>): seq<int>
  {
    var top := TopEntries(counts);
    seq(|top|, i requires 0 <= i < |top| => top[i].hour)
  }

  /** The ranked entries are exactly the entries of hours 0 .. 23, best first. */
  lemma RankedEntries(counts: map<int, nat>)
    ensures var ranked := SortByCount(Entries(counts, 24));
      && Ranked(ranked)
      && (forall e :: e in ranked <==> 0 <= e.hour < 24 && e.hour in counts && e.count == counts[e.hour])
  {
    var es := Entries(counts, 24);
    SortRanked(es);
    var ranked := SortByCount(es);
    forall e
      ensures e in ranked <==> e in es
    {
      assert e in ranked <==> e in multiset(ranked);
      assert e in es <==> e in multiset(es);
    }
  }

  /** The top entries are ranked, are entries of `counts`, and every entry of
      hours 0 .. 23 left out ranks after the third one. */
  lemma TopEntriesRanked(counts: map<int, nat>)
    ensures var top := TopEntries(counts);
      && |top| <= 3
      && Ranked(top)
      && (forall i :: 0 <= i < |top| ==>
            0 <= top[i].hour < 24 && top[i].hour in counts && top[i].count == counts[top[i].hour])
      && (forall h :: 0 <= h < 24 && h in counts && HourEntry(h, counts[h]) !in top ==>
            |top| == 3 && Before(top[2], HourEntry(h, counts[h])))
  {
    RankedEntries(counts);
    var ranked := SortByCount(Entries(counts, 24));
    var top := TopEntries(counts);
    assert forall i :: 0 <= i < |top| ==> top[i] == ranked[i];
    forall h | 0 <= h < 24 && h in counts && HourEntry(h, counts[h]) !in top
      ensures |top| == 3 && Before(top[2], HourEntry(h, counts[h]))
    {
      var e := HourEntry(h, counts[h]);
      var j :| 0 <= j < |ranked| && ranked[j] == e;
      assert j >= |top|;
    }
  }

  /** For counts of hours 0 .. 23 that are all positive (as the engine builds
      them), the peak hours are at most three distinct listed hours, ordered by
      descending count with ties to the lower hour, and every hour left out has
      a count no greater than the last one listed (and a higher hour on a tie);
      when fewer than three are listed, none is left out. */
  lemma PeakHoursRanking(counts: map<int, nat>)
    requires forall h :: h in counts ==> 0 <= h < 24 && counts[h] > 0
    ensures var p := PeakHours(counts);
      && |p| <= 3
      && (forall i :: 0 <= i < |p| ==> 0 <= p[i] < 24 && p[i] in counts && counts[p[i]] > 0)
      && (forall i, j :: 0 <= i < j < |p| ==>
            counts[p[i]] > counts[p[j]] || (counts[p[i]] == counts[p[j]] && p[i] < p[j]))
      && (forall h :: h in counts && h !in p ==>
            |p| == 3 && (counts[h] < counts[p[2]] || (counts[h] == counts[p[2]] && p[2] < h)))
  {
    TopEntriesRanked(counts);
    var top := TopEntries(counts);
    var p := PeakHours(counts);
    assert |p| == |top| && forall i :: 0 <= i < |p| ==> p[i] == top[i].hour;
  }
}
