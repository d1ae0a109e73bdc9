/**
 * The usage timeline of one endpoint: its hits grouped by UTC calendar
 * day, one entry per day with the day's call and error counts, listed in
 * the order in which the days first occur.
 */
module Timeline {
  import opened Store
  import Rules

  /** One day of the timeline; `date` numbers UTC days from 1970-01-01. */
  datatype DayEntry = DayEntry(date: int, count: nat, errors: nat)

  /**
   * The UTC calendar day of a hit, the date part of its ISO-8601 form.
   * Dafny's division rounds toward negative infinity for a positive
   * divisor, so hits before 1970 fall on the day they belong to.
   */
  function DayOf(h: Hit): (d: int)
    ensures d * DAY_MS <= h.timestamp < d * DAY_MS + DAY_MS
  {
    h.timestamp / DAY_MS
  }

  function DayCount(hits: seq<Hit>, d: int): nat {
    if hits == [] then 0
    else DayCount(hits[..|hits| - 1], d) + (if DayOf(hits[|hits| - 1]) == d then 1 else 0)
  }

  /** The hits of day `d` with an error status; never more than the day's hits. */
  function DayErrors(hits: seq<Hit>, d: int): (n: nat)
    ensures n <= DayCount(hits, d)
  {
    if hits == [] then 0
    else
      var last := hits[|hits| - 1];
      DayErrors(hits[..|hits| - 1], d) + (if DayOf(last) == d && Rules.IsError(last) then 1 else 0)
  }

  /** The distinct days of `hits`, in the order of their first hit. */
  function Days(hits: seq<Hit>): seq<int> {
    if hits == [] then []
    else
      var earlier := Days(hits[..|hits| - 1]);
      var d := DayOf(hits[|hits| - 1]);
      if d in earlier then earlier else earlier + [d]
  }

  function Entries(days: seq<int>, hits: seq<Hit>): seq<DayEntry> {
    if days == [] then []
    else
      var d := days[|days| - 1];
      Entries(days[..|days| - 1], hits) + [DayEntry(d, DayCount(hits, d), DayErrors(hits, d))]
  }

  /** The timeline the grouping produces: one entry per distinct day, first-seen order. */
  function Expected(hits: seq<Hit>): seq<DayEntry> {
    Entries(Days(hits), hits)
  }

  /**
   * The reduction: one pass over the hits that keys an accumulator by day.
   * `order` lists the keys in the order they were first inserted.
   */
  method GroupByDay(hits: seq<Hit>) returns (acc: map<int, DayEntry>, order: seq<int>)
    ensures order == Days(hits)
    ensures forall d :: d in acc ==> d in order
    ensures forall j :: 0 <= j < |order| ==> order[j] in acc
    ensures forall d :: d in acc ==> acc[d] == DayEntry(d, DayCount(hits, d), DayErrors(hits, d))
  {
    acc, order := map[], [];
    for i := 0 to |hits|
      invariant order == Days(hits[..i])
      invariant forall d :: d in acc ==> d in order
      invariant forall j :: 0 <= j < |order| ==> order[j] in acc
      invariant forall d :: d in acc ==> acc[d] == DayEntry(d, DayCount(hits[..i], d), DayErrors(hits[..i], d))
    {
      var date := DayOf(hits[i]);
      assert hits[..i + 1] == hits[..i] + [hits[i]];
      if date !in acc {
        DaysSpec(hits[..i]);
        acc := acc[date := DayEntry(date, 0, 0)];
        order := order + [date];
      }
      var entry := acc[date];
      entry := entry.(count := entry.count + 1);
      if hits[i].statusCode >= 400 {
        entry := entry.(errors := entry.errors + 1);
      }
      acc := acc[date := entry];
      forall d | d in acc
        ensures acc[d] == DayEntry(d, DayCount(hits[..i + 1], d), DayErrors(hits[..i + 1], d))
      {
        CountsAfterHit(hits[..i], hits[i], d);
      }
    }
    assert hits[..|hits|] == hits;
  }

  /**
   * The usage timeline: the accumulator's values listed in the order of
   * their keys' insertion.
   */
  method UsageTimeline(hits: seq<Hit>) returns (timeline: seq<DayEntry>)
    ensures timeline == Expected(hits)
  {
    var acc, order := GroupByDay(hits);
    timeline := [];
    for k := 0 to |order|
      invariant timeline == Entries(order[..k], hits)
    {
      assert order[..k + 1][..k] == order[..k];
      timeline := timeline + [acc[order[k]]];
    }
    assert order[..|order|] == order;
  }

  /** Appending one hit adds it to its own day's counts and leaves every other day alone. */
  lemma CountsAfterHit(hits: seq<Hit>, h: Hit, d: int)
    ensures DayCount(hits + [h], d) == DayCount(hits, d) + (if DayOf(h) == d then 1 else 0)
    ensures DayErrors(hits + [h], d) == DayErrors(hits, d) + (if DayOf(h) == d && Rules.IsError(h) then 1 else 0)
  {
    assert (hits + [h])[..|hits|] == hits;
  }

  predicate DistinctDays(days: seq<int>) {
    forall i, j :: 0 <= i < j < |days| ==> days[i] != days[j]
  }

  /** Entry `k` of the timeline reports day `days[k]`, its hits and its error hits. */
  lemma {:induction false} EntriesAt(days: seq<int>, hits: seq<Hit>)
    ensures |Entries(days, hits)| == |days|
    ensures forall k :: 0 <= k < |days| ==>
      Entries(days, hits)[k] == DayEntry(days[k], DayCount(hits, days[k]), DayErrors(hits, days[k]))
  {
    if days != [] {
      EntriesAt(days[..|days| - 1], hits);
    }
  }

  /**
   * A day is listed exactly when some hit falls on it, it has at least one
   * hit then, and no day is listed twice.
   */
  lemma {:induction false} DaysSpec(hits: seq<Hit>)
    ensures DistinctDays(Days(hits))
    ensures forall d :: d in Days(hits) <==> exists j :: 0 <= j < |hits| && DayOf(hits[j]) == d
    ensures forall d :: d in Days(hits) <==> DayCount(hits, d) > 0
  {
    if hits != [] {
      var init := hits[..|hits| - 1];
      var last := hits[|hits| - 1];
      DaysSpec(init);
      forall d
        ensures d in Days(hits) <==> exists j :: 0 <= j < |hits| && DayOf(hits[j]) == d
      {
        if exists j :: 0 <= j < |hits| && DayOf(hits[j]) == d {
          var j :| 0 <= j < |hits| && DayOf(hits[j]) == d;
          if j < |init| {
            assert init[j] == hits[j];
          }
        }
        if d in Days(init) {
          var j :| 0 <= j < |init| && DayOf(init[j]) == d;
          assert hits[j] == init[j];
        }
      }
    }
  }

  /** The days of a prefix of the hits are a prefix of the days: first-seen order. */
  lemma {:induction false} DaysOfPrefix(hits: seq<Hit>, n: nat)
    requires n <= |hits|
    ensures Days(hits[..n]) <= Days(hits)
    decreases |hits|
  {
    if n < |hits| {
      var init := hits[..|hits| - 1];
      assert hits[..n] == init[..n];
      DaysOfPrefix(init, n);
    } else {
      assert hits[..n] == hits;
    }
  }

  function TotalCount(entries: seq<DayEntry>): nat {
    if entries == [] then 0 else TotalCount(entries[..|entries| - 1]) + entries[|entries| - 1].count
  }

  /** Appending a hit adds one to the total over a set of days exactly when its day is among them. */
  lemma {:induction false} TotalCountStep(days: seq<int>, hits: seq<Hit>, h: Hit)
    requires DistinctDays(days)
    ensures TotalCount(Entries(days, hits + [h])) ==
            TotalCount(Entries(days, hits)) + (if DayOf(h) in days then 1 else 0)
  {
    var extended := hits + [h];
    assert extended[..|extended| - 1] == hits;
    if days != [] {
      var init := days[..|days| - 1];
      var d := days[|days| - 1];
      assert DistinctDays(init);
      TotalCountStep(init, hits, h);
      assert d !in init by {
        forall k | 0 <= k < |init|
          ensures init[k] != d
        {
          assert init[k] == days[k];
        }
      }
      assert DayOf(h) in days <==> DayOf(h) in init || DayOf(h) == d by {
        assert days == init + [d];
      }
      var before := Entries(init, hits) + [DayEntry(d, DayCount(hits, d), DayErrors(hits, d))];
      var after := Entries(init, extended) + [DayEntry(d, DayCount(extended, d), DayErrors(extended, d))];
      assert before[..|before| - 1] == Entries(init, hits);
      assert after[..|after| - 1] == Entries(init, extended);
    }
  }

  /** The day counts of the timeline add up to the number of hits. */
  lemma {:induction false} TimelineCountsAllHits(hits: seq<Hit>)
    ensures TotalCount(Expected(hits)) == |hits|
  {
    if hits != [] {
      var init := hits[..|hits| - 1];
      var last := hits[|hits| - 1];
      assert hits == init + [last];
      TimelineCountsAllHits(init);
      DaysSpec(init);
      TotalCountStep(Days(init), init, last);
      var d := DayOf(last);
      if d !in Days(init) {
        var days := Days(init) + [d];
        assert days[..|days| - 1] == Days(init);
        var entries := Entries(Days(init), hits) + [DayEntry(d, DayCount(hits, d), DayErrors(hits, d))];
        assert entries[..|entries| - 1] == Entries(Days(init), hits);
        assert DayCount(init, d) == 0;
      }
    }
  }

  /**
   * Every entry reports a day with hits, at most as many errors as hits,
   * no two entries share a day, and the timeline is empty exactly when
   * there are no hits.
   */
  lemma TimelineEntriesWellFormed(hits: seq<Hit>)
    ensures forall k :: 0 <= k < |Expected(hits)| ==>
      0 < Expected(hits)[k].count && Expected(hits)[k].errors <= Expected(hits)[k].count
    ensures forall i, j :: 0 <= i < j < |Expected(hits)| ==> Expected(hits)[i].date != Expected(hits)[j].date
    ensures Expected(hits) == [] <==> hits == []
  {
    DaysSpec(hits);
    EntriesAt(Days(hits), hits);
    if hits != [] {
      assert DayOf(hits[0]) in Days(hits);
    }
  }

  predicate SortedByTime(hits: seq<Hit>) {
    forall i, j :: 0 <= i < j < |hits| ==> hits[i].timestamp <= hits[j].timestamp
  }

  predicate StrictlyAscending(days: seq<int>) {
    forall i, j :: 0 <= i < j < |days| ==> days[i] < days[j]
  }

  /** Hits fetched in ascending timestamp order give a timeline in ascending date order. */
  lemma {:induction false} SortedHitsGiveAscendingDates(hits: seq<Hit>)
    requires SortedByTime(hits)
    ensures StrictlyAscending(Days(hits))
  {
    if hits != [] {
      var init := hits[..|hits| - 1];
      var last := hits[|hits| - 1];
      SortedHitsGiveAscendingDates(init);
      DaysSpec(init);
      var earlier := Days(init);
      if DayOf(last) !in earlier {
        forall k | 0 <= k < |earlier|
          ensures earlier[k] < DayOf(last)
        {
          assert earlier[k] in earlier;
          var j :| 0 <= j < |init| && DayOf(init[j]) == earlier[k];
          assert init[j] == hits[j];
          DayOfMonotone(init[j], last);
        }
      }
    }
  }

  lemma DayOfMonotone(a: Hit, b: Hit)
    requires a.timestamp <= b.timestamp
    ensures DayOf(a) <= DayOf(b)
  {
    var qa, qb := a.timestamp / DAY_MS, b.timestamp / DAY_MS;
    assert qa * DAY_MS <= a.timestamp < qb * DAY_MS + DAY_MS;
  }
}
