/** One tracked interval of calendar days and its single-range day count.
    Calendar dates are day numbers: `startOfDay` normalisation makes every
    date a whole day, and stepping to the next day is `+ 1`. */
module DateRanges {

  /** A tracked interval. `isInclusive` chooses the bucket its days join
      (included or excluded); `ignore` takes it out of every aggregate. */
  datatype DateRange = DateRange(
    id: nat,
    startDate: int,
    endDate: int,
    isInclusive: bool,
    description: string,
    ignore: bool)

  /** A freshly created record: `ignore` starts out false. */
  function NewDateRange(id: nat, startDate: int, endDate: int, isInclusive: bool, description: string): (r: DateRange)
    ensures !r.ignore
    ensures r.id == id && r.startDate == startDate && r.endDate == endDate
    ensures r.isInclusive == isInclusive && r.description == description
  {
    DateRange(id, startDate, endDate, isInclusive, description, false)
  }

  /** The whole-day difference from start to end, plus one for an inclusive range.
      For a well-formed range an inclusive count is the number of days the
      aggregation enumerates for it and an exclusive count is one fewer; nothing
      stops the count from being zero or negative for a degenerate range. */
  function NumberOfDays(r: DateRange): (n: int)
    ensures r.startDate <= r.endDate ==> n == |Span(r.startDate, r.endDate)| - (if r.isInclusive then 0 else 1)
    ensures r.endDate < r.startDate ==> n <= 0
  {
    SpanSize(r.startDate, r.endDate);
    var days := r.endDate - r.startDate;
    if r.isInclusive then days + 1 else days
  }

  /** The calendar days from lo to hi, both ends included; empty when hi < lo.
      The days are added one at a time at the upper end, as the enumeration does. */
  ghost function Span(lo: int, hi: int): (days: set<int>)
    ensures forall d :: d in days <==> lo <= d <= hi
    decreases if lo <= hi then hi - lo + 1 else 0
  {
    if hi < lo then {} else Span(lo, hi - 1) + {hi}
  }

  /** A span of days holds exactly hi - lo + 1 days, and none when hi < lo. */
  lemma {:induction false} SpanSize(lo: int, hi: int)
    ensures |Span(lo, hi)| == if lo <= hi then hi - lo + 1 else 0
    decreases if lo <= hi then hi - lo + 1 else 0
  {
    if lo <= hi {
      SpanSize(lo, hi - 1);
      assert hi !in Span(lo, hi - 1);
    }
  }

  /** For the same dates, an inclusive range counts exactly one day more than an exclusive one. */
  lemma InclusiveCountsOneMore(r: DateRange)
    ensures NumberOfDays(r.(isInclusive := true)) == NumberOfDays(r.(isInclusive := false)) + 1
  {
  }
}
