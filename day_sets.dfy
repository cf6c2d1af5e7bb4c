/** The day sets behind the three aggregates. A range that is not ignored adds
    every day from its start to its end, both ends included, to the bucket its
    `isInclusive` flag selects; overlaps collapse because the buckets are sets.
    The included, excluded and final counts share one enumeration, parameterised
    by the bucket. */
module DaySets {
  import opened DateRanges

  /** Whether a range feeds the given bucket: it is not ignored and its polarity matches. */
  predicate Feeds(r: DateRange, inclusive: bool)
  {
    !r.ignore && r.isInclusive == inclusive
  }

  /** Whether some range of the collection that feeds the bucket covers day d. */
  ghost predicate Covered(ranges: seq<DateRange>, inclusive: bool, d: int)
  {
    exists r :: r in ranges && Feeds(r, inclusive) && r.startDate <= d <= r.endDate
  }

  /** The days of one bucket, built range by range in collection order. */
  ghost function DaySet(ranges: seq<DateRange>, inclusive: bool): (days: set<int>)
    ensures forall d :: d in days <==> Covered(ranges, inclusive, d)
  {
    if ranges == [] then {}
    else
      var last := ranges[|ranges| - 1];
      var front := ranges[..|ranges| - 1];
      assert ranges == front + [last];
      DaySet(front, inclusive) + (if Feeds(last, inclusive) then Span(last.startDate, last.endDate) else {})
  }

  /** The bucket depends only on which ranges the collection holds, not on their order. */
  lemma DaySetIgnoresOrder(ranges: seq<DateRange>, reordered: seq<DateRange>, inclusive: bool)
    requires multiset(ranges) == multiset(reordered)
    ensures DaySet(ranges, inclusive) == DaySet(reordered, inclusive)
  {
    forall d ensures d in DaySet(ranges, inclusive) <==> d in DaySet(reordered, inclusive) {
      if Covered(ranges, inclusive, d) {
        var r :| r in ranges && Feeds(r, inclusive) && r.startDate <= d <= r.endDate;
        assert r in multiset(ranges);
        assert r in reordered;
      }
      if Covered(reordered, inclusive, d) {
        var r :| r in reordered && Feeds(r, inclusive) && r.startDate <= d <= r.endDate;
        assert r in multiset(reordered);
        assert r in ranges;
      }
    }
  }

  /** A collection with one more range has its days added to the bucket it
      feeds, and to no other bucket. */
  lemma DaySetAddOne(ranges: seq<DateRange>, grown: seq<DateRange>, r: DateRange, inclusive: bool)
    requires multiset(grown) == multiset(ranges) + multiset{r}
    ensures DaySet(grown, inclusive)
         == DaySet(ranges, inclusive) + (if Feeds(r, inclusive) then Span(r.startDate, r.endDate) else {})
  {
    var added := if Feeds(r, inclusive) then Span(r.startDate, r.endDate) else {};
    forall d ensures d in DaySet(grown, inclusive) <==> d in DaySet(ranges, inclusive) + added {
      if Covered(grown, inclusive, d) {
        var q :| q in grown && Feeds(q, inclusive) && q.startDate <= d <= q.endDate;
        assert q in multiset(grown);
        if q != r {
          assert q in multiset(ranges);
          assert q in ranges;
        }
      }
      if Covered(ranges, inclusive, d) {
        var q :| q in ranges && Feeds(q, inclusive) && q.startDate <= d <= q.endDate;
        assert q in multiset(ranges);
        assert q in multiset(grown);
        assert q in grown;
      }
      if d in added {
        assert r in multiset(grown);
        assert r in grown;
      }
    }
  }

  /** Adding a range with the same dates as an inclusive range already counted
      leaves the included days unchanged. */
  lemma DuplicateInclusiveAddsNothing(ranges: seq<DateRange>, grown: seq<DateRange>, copy: DateRange, original: DateRange)
    requires original in ranges && Feeds(original, true)
    requires copy.startDate == original.startDate && copy.endDate == original.endDate
    requires multiset(grown) == multiset(ranges) + multiset{copy}
    ensures DaySet(grown, true) == DaySet(ranges, true)
  {
    DaySetAddOne(ranges, grown, copy, true);
    assert forall d :: d in Span(copy.startDate, copy.endDate) ==> Covered(ranges, true, d);
  }

  /** A range that ends before it starts adds no day to either bucket. */
  lemma DegenerateAddsNothing(ranges: seq<DateRange>, grown: seq<DateRange>, r: DateRange, inclusive: bool)
    requires r.endDate < r.startDate
    requires multiset(grown) == multiset(ranges) + multiset{r}
    ensures DaySet(grown, inclusive) == DaySet(ranges, inclusive)
  {
    DaySetAddOne(ranges, grown, r, inclusive);
    assert Span(r.startDate, r.endDate) == {};
  }

  /** An ignored range adds no day to either bucket, whatever its polarity. */
  lemma IgnoredAddsNothing(ranges: seq<DateRange>, grown: seq<DateRange>, r: DateRange, inclusive: bool)
    requires r.ignore
    requires multiset(grown) == multiset(ranges) + multiset{r}
    ensures DaySet(grown, inclusive) == DaySet(ranges, inclusive)
  {
    DaySetAddOne(ranges, grown, r, inclusive);
  }

  /** The final days are the included days that no excluded range covers. */
  lemma FinalDaysAtMostIncluded(ranges: seq<DateRange>)
    ensures |DaySet(ranges, true) - DaySet(ranges, false)| <= |DaySet(ranges, true)|
  {
    var included, excluded := DaySet(ranges, true), DaySet(ranges, false);
    assert included == (included - excluded) + (included * excluded);
    assert (included - excluded) !! (included * excluded);
  }

  /** A worked example: inclusive days 1 to 5 and an exclusive day 3. */
  const Example: seq<DateRange> := [DateRange(0, 1, 5, true, "", false), DateRange(1, 3, 3, false, "", false)]

  /** In the example, 5 days are included and 1 is excluded. */
  lemma ExampleIncludedAndExcluded()
    ensures |DaySet(Example, true)| == 5
    ensures |DaySet(Example, false)| == 1
  {
    assert Example[..1] == [Example[0]] && [Example[0]][..0] == [];
    assert DaySet(Example, true) == Span(1, 5) && DaySet(Example, false) == Span(3, 3);
    SpanSize(1, 5);
    SpanSize(3, 3);
  }

  /** In the example, 4 final days remain: the days 1, 2, 4 and 5. */
  lemma ExampleFinal()
    ensures |DaySet(Example, true) - DaySet(Example, false)| == 4
  {
    assert Example[..1] == [Example[0]] && [Example[0]][..0] == [];
    assert DaySet(Example, true) - DaySet(Example, false) == Span(1, 2) + Span(4, 5);
    SpanSize(1, 2);
    SpanSize(4, 5);
  }

  /** The inner enumeration: step a date from start through end, inserting each day. */
  method AddSpan(days: set<int>, start: int, end: int) returns (result: set<int>)
    ensures result == days + Span(start, end)
  {
    result := days;
    var date := start;
    while date <= end
      invariant start <= date && (date == start || date <= end + 1)
      invariant result == days + Span(start, date - 1)
      decreases end - date
    {
      result := result + {date};
      date := date + 1;
    }
  }

  /** The outer enumeration: every range that feeds the bucket, in collection order. */
  method CollectDays(ranges: seq<DateRange>, inclusive: bool) returns (days: set<int>)
    ensures days == DaySet(ranges, inclusive)
  {
    days := {};
    for i := 0 to |ranges|
      invariant days == DaySet(ranges[..i], inclusive)
    {
      var r := ranges[i];
      assert ranges[..i + 1][..i] == ranges[..i];
      if Feeds(r, inclusive) {
        days := AddSpan(days, r.startDate, r.endDate);
      }
    }
    assert ranges[..|ranges|] == ranges;
  }
}
