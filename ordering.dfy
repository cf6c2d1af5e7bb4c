/** Ordering of the collection by start date. The store re-sorts after every
    add and update; only the order of start dates and the permutation are
    specified, not how ties between equal start dates end up. */
module Ordering {
  import opened DateRanges

  /** Start dates never decrease along the collection. */
  ghost predicate SortedByStart(ranges: seq<DateRange>)
  {
    forall i, j :: 0 <= i < j < |ranges| ==> ranges[i].startDate <= ranges[j].startDate
  }

  /** Places r after every range that starts no later than it, keeping the order sorted. */
  method InsertByStart(ranges: seq<DateRange>, r: DateRange) returns (result: seq<DateRange>)
    requires SortedByStart(ranges)
    ensures SortedByStart(result)
    ensures multiset(result) == multiset(ranges) + multiset{r}
  {
    var j := 0;
    while j < |ranges| && ranges[j].startDate <= r.startDate
      invariant 0 <= j <= |ranges|
      invariant forall k :: 0 <= k < j ==> ranges[k].startDate <= r.startDate
    {
      j := j + 1;
    }
    if j < |ranges| {
      assert forall k :: j <= k < |ranges| ==> ranges[j].startDate <= ranges[k].startDate;
    }
    InsertionKeepsSorted(ranges, j, r);
    result := ranges[..j] + [r] + ranges[j..];
    assert ranges[..j] + ranges[j..] == ranges;
  }

  /** Putting r between the ranges that start no later and those that start
      later leaves start dates non-decreasing. */
  lemma InsertionKeepsSorted(ranges: seq<DateRange>, j: int, r: DateRange)
    requires 0 <= j <= |ranges| && SortedByStart(ranges)
    requires forall k :: 0 <= k < j ==> ranges[k].startDate <= r.startDate
    requires forall k :: j <= k < |ranges| ==> r.startDate <= ranges[k].startDate
    ensures SortedByStart(ranges[..j] + [r] + ranges[j..])
  {
    var result := ranges[..j] + [r] + ranges[j..];
    forall a, b | 0 <= a < b < |result| ensures result[a].startDate <= result[b].startDate {
      var x := if a < j then ranges[a] else if a == j then r else ranges[a - 1];
      var y := if b < j then ranges[b] else if b == j then r else ranges[b - 1];
      assert result[a] == x && result[b] == y;
    }
  }

  /** Sorts the collection by start date: an insertion sort, standing in for
      the library sort the store calls. */
  method SortByStart(ranges: seq<DateRange>) returns (result: seq<DateRange>)
    ensures SortedByStart(result)
    ensures multiset(result) == multiset(ranges)
  {
    result := [];
    for i := 0 to |ranges|
      invariant SortedByStart(result)
      invariant multiset(result) == multiset(ranges[..i])
    {
      assert ranges[..i + 1] == ranges[..i] + [ranges[i]];
      result := InsertByStart(result, ranges[i]);
    }
    assert ranges[..|ranges|] == ranges;
  }

  /** Deleting one element keeps the remaining ranges in their relative order,
      so a sorted collection stays sorted. */
  lemma RemoveKeepsSorted(ranges: seq<DateRange>, index: int)
    requires 0 <= index < |ranges|
    requires SortedByStart(ranges)
    ensures SortedByStart(ranges[..index] + ranges[index + 1..])
  {
    var rest := ranges[..index] + ranges[index + 1..];
    assert forall k :: 0 <= k < |rest| ==> rest[k] == ranges[if k < index then k else k + 1];
  }

  /** Deleting the element at index takes exactly that element out of the multiset. */
  lemma RemoveTakesOne(ranges: seq<DateRange>, index: int)
    requires 0 <= index < |ranges|
    ensures multiset(ranges) == multiset(ranges[..index] + ranges[index + 1..]) + multiset{ranges[index]}
  {
    assert ranges == ranges[..index] + [ranges[index]] + ranges[index + 1..];
  }
}
