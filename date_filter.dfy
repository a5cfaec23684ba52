/**
 * The user's selection and the date-range filter applied to a timeline
 * (`getFilteredTimelineData`).
 */
module DateFilter {
  import opened Wrappers
  import opened Seqs
  import opened Metrics
  import Dates

  /**
   * The dashboard's selection: the state picked (`all`, `telangana`, `karnataka`),
   * the date range (`all`, `custom`, `last7`, `last30`) and the two custom dates,
   * each `None` when the date input does not parse.
   */
  datatype Selection = Selection(selectedState: string, dateRange: string, startDate: Option<int>, endDate: Option<int>)

  /** The selection the dashboard opens with: everything, 2025-03-26 to 2025-04-24. */
  const InitialSelection: Selection := Selection("all", "all", Some(Dates.Anchor - 29), Some(Dates.Anchor))

  /** The days a date range lets through: all of them, or an inclusive interval. */
  datatype Window = Unfiltered | Between(start: Option<int>, end: Option<int>)

  /**
   * `last7` and `last30` count back from the fixed anchor 2025-04-24, not from
   * the current date; a range the code does not know lets everything through.
   */
  function WindowOf(sel: Selection): Window {
    if sel.dateRange == "all" then Unfiltered
    else if sel.dateRange == "custom" then Between(sel.startDate, sel.endDate)
    else if sel.dateRange == "last7" then Between(Some(Dates.Anchor - 7), Some(Dates.Anchor))
    else if sel.dateRange == "last30" then Between(Some(Dates.Anchor - 30), Some(Dates.Anchor))
    else Unfiltered
  }

  /** Comparing with a date that did not parse is false, so such a bound admits no day. */
  predicate Admits(w: Window, day: int) {
    match w
    case Unfiltered => true
    case Between(start, end) => start.Some? && end.Some? && start.value <= day <= end.value
  }

  function InWindow(w: Window): TimelinePoint -> bool {
    (p: TimelinePoint) => Admits(w, p.date)
  }

  /**
   * The timeline restricted to the selected dates: the points inside the window,
   * in their original order, and no others.
   */
  function FilterTimeline(sel: Selection, data: seq<TimelinePoint>): (r: seq<TimelinePoint>)
    ensures IsSubsequence(r, data)
    ensures forall p :: multiset(r)[p] == if Admits(WindowOf(sel), p.date) then multiset(data)[p] else 0
    ensures SumProjects(r) <= SumProjects(data)
  {
    match WindowOf(sel)
    case Unfiltered =>
      SubsequenceReflexive(data);
      data
    case Between(_, _) =>
      var r := Filter(InWindow(WindowOf(sel)), data);
      SubsequenceSumAtMost(r, data);
      r
  }

  /** `all`, and any range other than custom, last7 and last30, return the timeline unchanged. */
  lemma UnfilteredRangesKeepTimeline(sel: Selection, data: seq<TimelinePoint>)
    requires sel.dateRange != "custom" && sel.dateRange != "last7" && sel.dateRange != "last30"
    ensures FilterTimeline(sel, data) == data
  {
  }

  /**
   * The two properties of `FilterTimeline`'s contract fix its result: it is the
   * only order-preserving subsequence holding exactly the points in the window.
   */
  lemma FilterTimelineIsUnique(sel: Selection, data: seq<TimelinePoint>, r: seq<TimelinePoint>)
    requires IsSubsequence(r, data)
    requires forall p :: multiset(r)[p] == if Admits(WindowOf(sel), p.date) then multiset(data)[p] else 0
    ensures r == FilterTimeline(sel, data)
  {
    var keep := InWindow(WindowOf(sel));
    FilterIsUnique(keep, data, r);
    FilterIsUnique(keep, data, FilterTimeline(sel, data));
  }

  /**
   * `last7` and `last30` keep the points from 7 or 30 days before 2025-04-24 up
   * to that day, whatever the custom dates hold.
   */
  lemma RelativeRangesCountBackFromAnchor(sel: Selection, other: Selection, data: seq<TimelinePoint>)
    requires sel.dateRange == "last7" || sel.dateRange == "last30"
    requires other.dateRange == sel.dateRange
    ensures var back := if sel.dateRange == "last7" then 7 else 30;
      forall p :: p in FilterTimeline(sel, data) <==> p in data && Dates.Anchor - back <= p.date <= Dates.Anchor
    ensures FilterTimeline(other, data) == FilterTimeline(sel, data)
  {
    var r := FilterTimeline(sel, data);
    forall p ensures p in r <==> multiset(r)[p] > 0 {
    }
  }

  /** A custom range with an unparsable date, or starting after it ends, shows no points. */
  lemma InvalidCustomRangeIsEmpty(sel: Selection, data: seq<TimelinePoint>)
    requires sel.dateRange == "custom"
    requires sel.startDate.None? || sel.endDate.None? || sel.startDate.value > sel.endDate.value
    ensures FilterTimeline(sel, data) == []
  {
    var r := FilterTimeline(sel, data);
    if r != [] {
      assert false;
    }
  }

  /** Applying the same date filter twice changes nothing more. */
  lemma FilterTimelineIdempotent(sel: Selection, data: seq<TimelinePoint>)
    ensures FilterTimeline(sel, FilterTimeline(sel, data)) == FilterTimeline(sel, data)
  {
    match WindowOf(sel)
    case Unfiltered =>
    case Between(_, _) =>
      FilterIdempotent(InWindow(WindowOf(sel)), data);
  }

  /** On a timeline in date order, the filtered points form one contiguous run. */
  lemma SortedTimelineFiltersToSlice(sel: Selection, data: seq<TimelinePoint>)
    requires SortedByDate(data)
    ensures exists i, j :: 0 <= i <= j <= |data| && FilterTimeline(sel, data) == data[i..j]
  {
    var w := WindowOf(sel);
    if w.Unfiltered? {
      assert FilterTimeline(sel, data) == data[0..|data|];
    } else if w.start.None? || w.end.None? {
      InvalidWindowIsEmpty(w, data);
      assert FilterTimeline(sel, data) == data[0..0];
    } else {
      var i, j := WindowSlice(w, data);
    }
  }

  lemma {:induction false} InvalidWindowIsEmpty(w: Window, data: seq<TimelinePoint>)
    requires w.Between? && (w.start.None? || w.end.None?)
    ensures Filter(InWindow(w), data) == []
    decreases |data|
  {
    if data != [] {
      InvalidWindowIsEmpty(w, data[1..]);
    }
  }

  lemma {:induction false} WindowSlice(w: Window, data: seq<TimelinePoint>) returns (i: nat, j: nat)
    requires w.Between? && w.start.Some? && w.end.Some?
    requires SortedByDate(data)
    ensures i <= j <= |data| && Filter(InWindow(w), data) == data[i..j]
    decreases |data|
  {
    if data == [] {
      return 0, 0;
    }
    if data[0].date < w.start.value {
      SortedTail(data);
      FilterCons(InWindow(w), data);
      assert Filter(InWindow(w), data) == Filter(InWindow(w), data[1..]);
      var i', j' := WindowSlice(w, data[1..]);
      SliceOfTail(data, i', j');
      return i' + 1, j' + 1;
    }
    var j' := WindowPrefix(w, data);
    return 0, j';
  }

  /** When no point lies before the window, the points in it are a prefix. */
  lemma {:induction false} WindowPrefix(w: Window, data: seq<TimelinePoint>) returns (j: nat)
    requires w.Between? && w.start.Some? && w.end.Some?
    requires SortedByDate(data)
    requires data != [] ==> data[0].date >= w.start.value
    ensures j <= |data| && Filter(InWindow(w), data) == data[..j]
    decreases |data|
  {
    if data == [] {
      return 0;
    }
    if data[0].date > w.end.value {
      PastWindowIsEmpty(w, data);
      return 0;
    }
    SortedTail(data);
    FilterCons(InWindow(w), data);
    assert Filter(InWindow(w), data) == [data[0]] + Filter(InWindow(w), data[1..]);
    var j' := WindowPrefix(w, data[1..]);
    PrefixOfTail(data, j');
    return j' + 1;
  }

  lemma {:induction false} PastWindowIsEmpty(w: Window, data: seq<TimelinePoint>)
    requires w.Between? && w.end.Some?
    requires SortedByDate(data)
    requires data != [] ==> data[0].date > w.end.value
    ensures Filter(InWindow(w), data) == []
    decreases |data|
  {
    if data != [] {
      SortedTail(data);
      FilterCons(InWindow(w), data);
      PastWindowIsEmpty(w, data[1..]);
    }
  }
}
