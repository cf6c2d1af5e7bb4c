/** The store of date ranges: an ordered collection with add, remove-at-index,
    update-by-id and toggle-ignore-by-id, and the three aggregate day counts. */
module Store {
  import opened DateRanges
  import opened DaySets
  import opened Ordering

  datatype Option<T> = None | Some(value: T)

  /** The position of the first range carrying the given id, if any. */
  function FirstIndexOf(ranges: seq<DateRange>, id: nat): (found: Option<nat>)
    ensures found.Some? ==> found.value < |ranges| && ranges[found.value].id == id
    ensures found.Some? ==> forall k :: 0 <= k < found.value ==> ranges[k].id != id
    ensures found.None? <==> forall k :: 0 <= k < |ranges| ==> ranges[k].id != id
  {
    if ranges == [] then None
    else if ranges[0].id == id then Some(0)
    else
      match FirstIndexOf(ranges[1..], id)
      case None => None
      case Some(i) => Some(i + 1)
  }

  /** Two collections whose ids agree position by position find the same first index. */
  lemma SameIdsSameIndex(ranges: seq<DateRange>, other: seq<DateRange>, id: nat)
    requires |ranges| == |other|
    requires forall k :: 0 <= k < |ranges| ==> ranges[k].id == other[k].id
    ensures FirstIndexOf(ranges, id) == FirstIndexOf(other, id)
  {
    var a, b := FirstIndexOf(ranges, id), FirstIndexOf(other, id);
    if a.Some? && b.Some? {
      assert !(a.value < b.value) && !(b.value < a.value);
    }
  }

  /** The record after an update: the four edited fields take the new values;
      the id and the ignore flag are kept. */
  function Overwritten(r: DateRange, startDate: int, endDate: int, isInclusive: bool, description: string): DateRange
  {
    r.(startDate := startDate, endDate := endDate, isInclusive := isInclusive, description := description)
  }

  /** The collection with the ignore flag of the first range carrying id flipped;
      unchanged when no range carries it. */
  function Toggled(ranges: seq<DateRange>, id: nat): seq<DateRange>
  {
    match FirstIndexOf(ranges, id)
    case None => ranges
    case Some(i) => ranges[i := ranges[i].(ignore := !ranges[i].ignore)]
  }

  /** Toggling touches nothing but one ignore flag: every position keeps its
      id, dates, polarity and description, so the order is unchanged; every
      record but the first with the id is kept whole, and that one has its
      flag flipped. */
  lemma ToggleChangesOnlyIgnore(ranges: seq<DateRange>, id: nat)
    ensures |Toggled(ranges, id)| == |ranges|
    ensures forall k :: 0 <= k < |ranges| ==> Toggled(ranges, id)[k].(ignore := ranges[k].ignore) == ranges[k]
    ensures forall k :: 0 <= k < |ranges| && FirstIndexOf(ranges, id) != Some(k) ==> Toggled(ranges, id)[k] == ranges[k]
    ensures FirstIndexOf(ranges, id).Some? ==>
      var i := FirstIndexOf(ranges, id).value;
      Toggled(ranges, id)[i].ignore == !ranges[i].ignore
    ensures SortedByStart(ranges) ==> SortedByStart(Toggled(ranges, id))
  {
  }

  /** Toggling the same id twice restores the original collection. */
  lemma ToggleTwiceRestores(ranges: seq<DateRange>, id: nat)
    ensures Toggled(Toggled(ranges, id), id) == ranges
  {
    var once := Toggled(ranges, id);
    ToggleChangesOnlyIgnore(ranges, id);
    SameIdsSameIndex(ranges, once, id);
  }

  /** Toggling a counted range to ignored leaves in each bucket exactly the
      days the other ranges cover: its own days drop out unless another range
      of the same bucket covers them too. */
  lemma ToggleOffForgetsDays(ranges: seq<DateRange>, id: nat, inclusive: bool)
    requires FirstIndexOf(ranges, id).Some?
    requires !ranges[FirstIndexOf(ranges, id).value].ignore
    ensures var i := FirstIndexOf(ranges, id).value;
      DaySet(Toggled(ranges, id), inclusive) == DaySet(ranges[..i] + ranges[i + 1..], inclusive)
  {
    var i := FirstIndexOf(ranges, id).value;
    var toggled := Toggled(ranges, id);
    assert toggled[..i] + toggled[i + 1..] == ranges[..i] + ranges[i + 1..];
    RemoveTakesOne(toggled, i);
    IgnoredAddsNothing(ranges[..i] + ranges[i + 1..], toggled, toggled[i], inclusive);
  }

  /** A missing id leaves the collection as it was. */
  lemma ToggleMissingIsNoOp(ranges: seq<DateRange>, id: nat)
    requires forall r :: r in ranges ==> r.id != id
    ensures Toggled(ranges, id) == ranges
  {
  }

  class DateRangeManager {
    /** The tracked ranges, in the order the store presents them. */
    var dateRanges: seq<DateRange>

    /** A store with nothing saved starts empty. */
    constructor ()
      ensures dateRanges == []
    {
      dateRanges := [];
    }

    /** Re-sorts the collection by start date. */
    method SortDateRanges()
      modifies this
      ensures SortedByStart(dateRanges)
      ensures multiset(dateRanges) == multiset(old(dateRanges))
      ensures |dateRanges| == |old(dateRanges)|
    {
      var before := dateRanges;
      dateRanges := SortByStart(dateRanges);
      assert |multiset(dateRanges)| == |multiset(before)|;
    }

    /** Appends a new, not ignored range built from the arguments and re-sorts.
        The id stands for the freshly generated identifier. */
    method AddDateRange(id: nat, startDate: int, endDate: int, isInclusive: bool, description: string)
      modifies this
      ensures |dateRanges| == |old(dateRanges)| + 1
      ensures multiset(dateRanges)
           == multiset(old(dateRanges)) + multiset{NewDateRange(id, startDate, endDate, isInclusive, description)}
      ensures SortedByStart(dateRanges)
    {
      var newRange := NewDateRange(id, startDate, endDate, isInclusive, description);
      dateRanges := dateRanges + [newRange];
      SortDateRanges();
    }

    /** Deletes the range at the given position; the rest keep their order. */
    method RemoveDateRange(index: int)
      requires 0 <= index < |dateRanges|
      modifies this
      ensures dateRanges == old(dateRanges[..index] + dateRanges[index + 1..])
      ensures old(SortedByStart(dateRanges)) ==> SortedByStart(dateRanges)
      ensures multiset(old(dateRanges)) == multiset(dateRanges) + multiset{old(dateRanges[index])}
    {
      if SortedByStart(dateRanges) {
        RemoveKeepsSorted(dateRanges, index);
      }
      RemoveTakesOne(dateRanges, index);
      dateRanges := dateRanges[..index] + dateRanges[index + 1..];
    }

    /** Overwrites dates, polarity and description of the first range with
        the id and re-sorts; a missing id changes nothing. */
    method UpdateDateRange(id: nat, startDate: int, endDate: int, isInclusive: bool, description: string)
      modifies this
      ensures FirstIndexOf(old(dateRanges), id).None? ==> dateRanges == old(dateRanges)
      ensures FirstIndexOf(old(dateRanges), id).Some? ==>
        var i := FirstIndexOf(old(dateRanges), id).value;
        && SortedByStart(dateRanges)
        && multiset(dateRanges)
           == multiset(old(dateRanges)[i := Overwritten(old(dateRanges)[i], startDate, endDate, isInclusive, description)])
    {
      match FirstIndexOf(dateRanges, id)
      case Some(index) =>
        dateRanges := dateRanges[index := Overwritten(dateRanges[index], startDate, endDate, isInclusive, description)];
        SortDateRanges();
      case None =>
    }

    /** Flips the ignore flag of the first range with the id; a missing id changes nothing. */
    method ToggleIgnore(id: nat)
      modifies this
      ensures dateRanges == Toggled(old(dateRanges), id)
    {
      match FirstIndexOf(dateRanges, id)
      case Some(index) =>
        dateRanges := dateRanges[index := dateRanges[index].(ignore := !dateRanges[index].ignore)];
      case None =>
    }

    /** The number of distinct days covered by the ranges that are inclusive and not ignored. */
    method TotalIncludedDays() returns (count: nat)
      ensures count == |DaySet(dateRanges, true)|
    {
      var includedDays := CollectDays(dateRanges, true);
      count := |includedDays|;
    }

    /** The number of distinct days covered by the ranges that are exclusive and not ignored. */
    method TotalExcludedDays() returns (count: nat)
      ensures count == |DaySet(dateRanges, false)|
    {
      var excludedDays := CollectDays(dateRanges, false);
      count := |excludedDays|;
    }

    /** The number of included days that no excluded range covers (a set difference,
        not a difference of counts). */
    method TotalDays() returns (count: nat)
      ensures count == |DaySet(dateRanges, true) - DaySet(dateRanges, false)|
      ensures count <= |DaySet(dateRanges, true)|
    {
      var includedDays := CollectDays(dateRanges, true);
      var excludedDays := CollectDays(dateRanges, false);
      FinalDaysAtMostIncluded(dateRanges);
      count := |includedDays - excludedDays|;
    }
  }

  /** A fresh store given an inclusive range over days 1 to 5 and an exclusive
      range over day 3 reports 5 included, 1 excluded and 4 final days. */
  method ExampleScenario() returns (included: nat, excluded: nat, final: nat)
    ensures included == 5 && excluded == 1 && final == 4
  {
    var store := new DateRangeManager();
    store.AddDateRange(0, 1, 5, true, "");
    store.AddDateRange(1, 3, 3, false, "");
    assert multiset(store.dateRanges) == multiset(Example);
    DaySetIgnoresOrder(store.dateRanges, Example, true);
    DaySetIgnoresOrder(store.dateRanges, Example, false);
    ExampleIncludedAndExcluded();
    ExampleFinal();
    included := store.TotalIncludedDays();
    excluded := store.TotalExcludedDays();
    final := store.TotalDays();
  }
}
