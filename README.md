# DayTracker day-aggregation engine in Dafny

This project models the core of DayTracker, a personal date-range tracker.
A user records named date ranges. Each range is *inclusive* or *exclusive*, and it can be *ignored*.
The store keeps the ranges sorted by start date.
It offers four mutators: add, remove at an index, update by id, and toggle ignore by id.
It also computes three day counts:

- **included**: the distinct days of all inclusive ranges that are not ignored;
- **excluded**: the distinct days of all exclusive ranges that are not ignored;
- **final**: the included days that are not excluded. This is a set difference, not a difference of counts.

The source file `DayTracker/DateRangeModel.swift` declares two types: the `DateRange` record and the `DateRangeManager` class. The model splits them into four modules:

- `DateRanges` (`date_range.dfy`): the `DateRange` record, the source's `numberOfDays`, and `Span`, the set of days from a start date to an end date.
- `DaySets` (`day_sets.dfy`): `DaySet`, the abstract day set of one bucket, and its properties. It also holds the enumeration loops, `AddSpan` (the inner `while date <= end` loop) and `CollectDays` (the outer `for` loop), proved equal to `DaySet`. Both buckets share one loop, parameterised by the bucket; the source writes the loop out four times: twice in `totalDays`, once in `totalIncludedDays` and once in `totalExcludedDays`.
- `Ordering` (`ordering.dfy`): the sortedness predicate and an insertion sort that stands in for the library `sort`. The sort is specified only by sortedness and permutation.
- `Store` (`manager.dfy`): the class `DateRangeManager` with its `seq<DateRange>` field and its mutator and aggregate methods. It also holds the lookup by id, the toggle function and their lemmas.

Calendar dates are integer day numbers, and one day later is `+ 1`. This matches the source's enumeration loops, which normalise both dates with `startOfDay` first. `numberOfDays` and the sort comparator in the source work on the raw timestamps instead; "## Left out" says what that changes. Ids are naturals. Descriptions are strings.

## Model

| member | source | states |
|---|---|---|
| `DateRanges.NewDateRange` | DayTracker/DateRangeModel.swift:11-18 | a new record stores the given id, dates, polarity and description, and its ignore flag is false, the initialiser's default that its only call site uses |
| `DateRanges.Span` | DayTracker/DateRangeModel.swift:99-104 | a day is in the span exactly when it lies between start and end, both included; the span is empty when end is before start |
| `DateRanges.SpanSize` | DayTracker/DateRangeModel.swift:99-104 | the enumeration from start to end visits end - start + 1 days, or none when end is before start |
| `DateRanges.InclusiveCountsOneMore` | DayTracker/DateRangeModel.swift:20-25 | for the same dates, numberOfDays of an inclusive range is that of an exclusive range plus one |
| `DateRanges.NumberOfDays` | DayTracker/DateRangeModel.swift:20-25 | for start <= end, an inclusive count equals the number of days the aggregation enumerates for the range and an exclusive count is one fewer; for end before start the count is zero or negative |
| `DaySets.DaySet` | DayTracker/DateRangeModel.swift:97-105 | a day is in a bucket exactly when some range of the collection that is not ignored, has the bucket's polarity, and spans that day is present |
| `DaySets.DaySetIgnoresOrder` | DayTracker/DateRangeModel.swift:98 | a bucket depends only on the multiset of ranges, so re-sorting never changes an aggregate |
| `DaySets.DaySetAddOne` | DayTracker/DateRangeModel.swift:98-105 | a collection with one more range has that range's days added to the bucket it feeds, and no other day added |
| `DaySets.DuplicateInclusiveAddsNothing` | DayTracker/DateRangeModel.swift:97-106 | adding a range with the same dates as a counted inclusive range leaves the included days unchanged |
| `DaySets.DegenerateAddsNothing` | DayTracker/DateRangeModel.swift:101 | a range whose end is before its start adds no day to either bucket |
| `DaySets.IgnoredAddsNothing` | DayTracker/DateRangeModel.swift:74 | an ignored range adds no day to either bucket, whatever its polarity |
| `DaySets.FinalDaysAtMostIncluded` | DayTracker/DateRangeModel.swift:91-92 | the final count never exceeds the included count |
| `DaySets.ExampleIncludedAndExcluded` | DayTracker/DateRangeModel.swift:95-121 | inclusive days 1 to 5 with exclusive day 3 give 5 included and 1 excluded day |
| `DaySets.ExampleFinal` | DayTracker/DateRangeModel.swift:71-93 | the same two ranges give 4 final days |
| `DaySets.AddSpan` | DayTracker/DateRangeModel.swift:99-104 | the while loop that steps the date from start through end adds exactly the span's days to the set |
| `DaySets.CollectDays` | DayTracker/DateRangeModel.swift:97-105 | the loop over the ranges builds exactly the bucket's day set |
| `Ordering.InsertByStart` | DayTracker/DateRangeModel.swift:48 | inserting into a sorted collection keeps it sorted and adds exactly the new range to its multiset |
| `Ordering.InsertionKeepsSorted` | DayTracker/DateRangeModel.swift:48 | a range placed after all ranges starting no later and before all ranges starting later keeps start dates non-decreasing |
| `Ordering.SortByStart` | DayTracker/DateRangeModel.swift:47-49 | the result is sorted non-decreasingly by start date and is a permutation of the input |
| `Ordering.RemoveKeepsSorted` | DayTracker/DateRangeModel.swift:51-53 | deleting one element of a sorted collection leaves it sorted |
| `Ordering.RemoveTakesOne` | DayTracker/DateRangeModel.swift:51-53 | deleting the element at an index removes exactly that element from the multiset |
| `Store.FirstIndexOf` | DayTracker/DateRangeModel.swift:56 | the result is the smallest index whose range has the id, and there is no result exactly when no range has it |
| `Store.SameIdsSameIndex` | DayTracker/DateRangeModel.swift:66 | collections with the same ids at the same positions find the same first index |
| `Store.ToggleChangesOnlyIgnore` | DayTracker/DateRangeModel.swift:65-69 | toggling keeps the length, keeps every record other than the first with the id whole, flips that record's ignore flag and keeps its other fields, so the order and sortedness are unchanged |
| `Store.ToggleTwiceRestores` | DayTracker/DateRangeModel.swift:65-69 | toggling the same id twice restores the original collection |
| `Store.ToggleMissingIsNoOp` | DayTracker/DateRangeModel.swift:65-69 | toggling an id no range carries changes nothing |
| `Store.ToggleOffForgetsDays` | DayTracker/DateRangeModel.swift:65-69 | toggling a counted range to ignored leaves in each bucket exactly the days of the other ranges |
| `Store.DateRangeManager.constructor` | DayTracker/DateRangeModel.swift:29 | a store with nothing saved starts empty |
| `Store.DateRangeManager.SortDateRanges` | DayTracker/DateRangeModel.swift:47-49 | afterwards the collection is sorted by start date, is a permutation of the old one and has the same length |
| `Store.DateRangeManager.AddDateRange` | DayTracker/DateRangeModel.swift:41-45 | the collection grows by one, its multiset gains exactly the new, not ignored record with the given fields, and it is sorted |
| `Store.DateRangeManager.RemoveDateRange` | DayTracker/DateRangeModel.swift:51-53 | for an index in bounds, the result is the old collection without that element, in the same order; sortedness is kept and the multiset loses exactly that element |
| `Store.DateRangeManager.UpdateDateRange` | DayTracker/DateRangeModel.swift:55-63 | with a missing id nothing changes; otherwise the first record with the id gets the new dates, polarity and description, keeps its id and ignore flag, every other record is kept, and the collection is re-sorted |
| `Store.DateRangeManager.ToggleIgnore` | DayTracker/DateRangeModel.swift:65-69 | the new collection is the old one with the ignore flag of the first record with the id flipped; a missing id changes nothing |
| `Store.DateRangeManager.TotalIncludedDays` | DayTracker/DateRangeModel.swift:95-107 | the count is the size of the union of the days of the inclusive ranges that are not ignored |
| `Store.DateRangeManager.TotalExcludedDays` | DayTracker/DateRangeModel.swift:109-121 | the count is the size of the union of the days of the exclusive ranges that are not ignored |
| `Store.DateRangeManager.TotalDays` | DayTracker/DateRangeModel.swift:71-93 | the count is the size of the included days minus the excluded days as sets, and it is at most the included count |
| `Store.ExampleScenario` | DayTracker/DateRangeModel.swift:41-121 | a fresh store given inclusive days 1 to 5 and exclusive day 3 reports 5 included, 1 excluded and 4 final days |

## Left out

- Persistence is not modelled. This covers `saveDateRanges`, `loadDateRanges`, the storage key and the `didSet` observer that saves after every change (DayTracker/DateRangeModel.swift:29-35, 123-135). They are JSON encoding into user defaults, with errors silently dropped, and they do not affect the in-memory collection. The constructor is therefore the store as it starts when nothing was saved: empty.
- Generating a `UUID` is not modelled. `AddDateRange` takes the new id as an argument. Nothing in the model relies on ids being unique: update and toggle act on the first record with the id, as the source does.
- Calendar arithmetic (`Calendar.current`, `startOfDay`, `date(byAdding:)`) is replaced by integer day numbers, so time of day and time zones are not represented. The `?? 0` fallback when the calendar returns no day component cannot arise here.
- `DateRanges.NumberOfDays`: its link to the enumerated days holds only for day numbers. The source's `numberOfDays` counts the whole 24-hour periods between the two raw timestamps, while the enumeration first normalises them to the start of the day. For example, a range from day 1 at 15:00 to day 3 at 10:00 has an inclusive `numberOfDays` of 2 in the source, yet the enumeration visits 3 days.
- `Ordering.SortByStart` compares day numbers only. The source's comparator uses the raw start timestamps, so two ranges starting on the same day are ordered there by time of day, while the model treats them as tied.
- `DateRanges.NewDateRange` has no `ignore` parameter. The source's initialiser takes `ignore` with a default of false, and its only call site, in `addDateRange`, never passes it, so the flag is always false there.
- Swift's fixed-width `Int` is not modelled. Counts and day numbers are unbounded, so overflow is not represented.
- `Ordering.SortByStart` does not promise how ties between equal start dates are ordered. It is implemented as an insertion sort that happens to be stable, but its contract states only sortedness and permutation, because the library `sort` the source calls is not documented as stable.
- `Store.DateRangeManager.RemoveDateRange` requires an index in bounds. The source's `remove(at:)` traps on any other index, so there is no behaviour to model there.
- The SwiftUI views in DayTracker/ContentView.swift are not part of this model. This includes the check there that the end date comes after the start date: the store itself accepts any dates.
- The `ObservableObject` and `@Published` change notifications are not modelled. They have no effect on the store's state.
