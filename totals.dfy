/**
 * The headline totals (`totals`): plain sums over the selected rows, or, while a
 * date filter leaves some projects in the timeline, those sums scaled by the
 * share of the timeline's projects that the filter kept.
 */
module Totals {
  import opened Metrics
  import opened DateFilter
  import opened Views

  datatype Totals = Totals(
    projects: nat,
    processed: nat,
    ltData: nat,
    casemineData: nat,
    attachments: nat,
    avgProcessingTime: nat,    // hundredths of a second
    totalProcessingTime: nat)  // seconds

  function TotalOf(t: Totals, c: Count): nat {
    match c
    case Projects => t.projects
    case Processed => t.processed
    case LtData => t.ltData
    case CasemineData => t.casemineData
    case Attachments => t.attachments
  }

  /**
   * `Math.round(n * (f / a))` computed exactly: the integer nearest to n·f/a,
   * halves rounded up.
   */
  function RoundRatio(n: nat, f: nat, a: nat): (r: nat)
    requires a > 0
    ensures 2 * a * r <= 2 * n * f + a < 2 * a * (r + 1)
  {
    var x := 2 * n * f + a;
    var m := 2 * a;
    assert x == m * (x / m) + x % m;
    x / m
  }

  lemma MulMonotone(k: nat, x: nat, y: nat)
    requires x <= y
    ensures k * x <= k * y
  {
    assert k * y == k * x + k * (y - x);
  }

  /** From `k·x < k·y` with `k > 0`, `x < y`. */
  lemma MulCancel(k: nat, x: nat, y: nat)
    requires k > 0 && k * x < k * y
    ensures x < y
  {
    if y <= x {
      MulMonotone(k, y, x);
    }
  }

  /** Scaling by a share of at most one never rounds above the unscaled value. */
  lemma RoundRatioAtMost(n: nat, f: nat, a: nat)
    requires 0 < a && f <= a
    ensures RoundRatio(n, f, a) <= n
  {
    var r := RoundRatio(n, f, a);
    MulMonotone(n, f, a);
    assert (2 * a) * r < (2 * a) * (n + 1);
    MulCancel(2 * a, r, n + 1);
  }

  /** Scaling by the whole gives the value back. */
  lemma RoundRatioOfWhole(n: nat, a: nat)
    requires a > 0
    ensures RoundRatio(n, a, a) == n
  {
    var r := RoundRatio(n, a, a);
    assert (2 * a) * r < (2 * a) * (n + 1);
    MulCancel(2 * a, r, n + 1);
    assert (2 * a) * n < (2 * a) * (r + 1);
    MulCancel(2 * a, n, r + 1);
  }

  /** A larger share never gives a smaller rounded value. */
  lemma RoundRatioMonotone(n: nat, f: nat, g: nat, a: nat)
    requires 0 < a && f <= g
    ensures RoundRatio(n, f, a) <= RoundRatio(n, g, a)
  {
    var r, s := RoundRatio(n, f, a), RoundRatio(n, g, a);
    MulMonotone(n, f, g);
    assert (2 * a) * r < (2 * a) * (s + 1);
    MulCancel(2 * a, r, s + 1);
  }

  /** The average processing time shown for a state: 248.47 s, 287.68 s, or 261.03 s otherwise. */
  function AvgProcessingTime(selected: string): nat {
    if selected == "telangana" then 24847 else if selected == "karnataka" then 28768 else 26103
  }

  /** The cumulative processing time, in seconds, before any date scaling. */
  function TotalProcessingTime(selected: string): nat {
    if selected == "telangana" then 14660 else if selected == "karnataka" then 10644 else 26364
  }

  /** Scaling applies when a date range is chosen and the filtered timeline still has projects. */
  predicate DateScaled(d: Dataset, sel: Selection)
    requires HasAllSeries(d)
  {
    sel.dateRange != "all" && SumProjects(ChartTimeline(d, sel)) > 0
  }

  /** The totals with every count and the processing time left as they are. */
  function PlainTotals(rows: seq<StateMetrics>, selected: string): (t: Totals)
    ensures forall c :: TotalOf(t, c) == RawSum(rows, c)
    ensures t.avgProcessingTime == AvgProcessingTime(selected)
    ensures t.totalProcessingTime == TotalProcessingTime(selected)
  {
    Totals(
      RawSum(rows, Projects),
      RawSum(rows, Processed),
      RawSum(rows, LtData),
      RawSum(rows, CasemineData),
      RawSum(rows, Attachments),
      AvgProcessingTime(selected),
      TotalProcessingTime(selected))
  }

  /** The totals with every count and the processing time scaled by `f / a`. */
  function ScaledTotals(rows: seq<StateMetrics>, selected: string, f: nat, a: nat): (t: Totals)
    requires 0 < a && f <= a
    ensures forall c :: TotalOf(t, c) <= RawSum(rows, c)
    ensures t.avgProcessingTime == AvgProcessingTime(selected)
    ensures t.totalProcessingTime <= TotalProcessingTime(selected)
  {
    RoundRatioAtMost(RawSum(rows, Projects), f, a);
    RoundRatioAtMost(RawSum(rows, Processed), f, a);
    RoundRatioAtMost(RawSum(rows, LtData), f, a);
    RoundRatioAtMost(RawSum(rows, CasemineData), f, a);
    RoundRatioAtMost(RawSum(rows, Attachments), f, a);
    RoundRatioAtMost(TotalProcessingTime(selected), f, a);
    Totals(
      RoundRatio(RawSum(rows, Projects), f, a),
      RoundRatio(RawSum(rows, Processed), f, a),
      RoundRatio(RawSum(rows, LtData), f, a),
      RoundRatio(RawSum(rows, CasemineData), f, a),
      RoundRatio(RawSum(rows, Attachments), f, a),
      AvgProcessingTime(selected),
      RoundRatio(TotalProcessingTime(selected), f, a))
  }

  /**
   * `totals`: plain sums over the selected rows, or, under an active date filter,
   * those sums scaled by filtered ÷ full timeline projects.
   */
  function ComputeTotals(d: Dataset, sel: Selection): (t: Totals)
    requires HasAllSeries(d)
    ensures t.avgProcessingTime == AvgProcessingTime(sel.selectedState)
    ensures t.totalProcessingTime <= TotalProcessingTime(sel.selectedState)
    ensures forall c :: TotalOf(t, c) <= RawSum(FilteredStateData(d.stateData, sel.selectedState), c)
  {
    var rows := FilteredStateData(d.stateData, sel.selectedState);
    if sel.dateRange == "all" then
      PlainTotals(rows, sel.selectedState)
    else
      var f := SumProjects(ChartTimeline(d, sel));
      if f > 0 then
        ScaledTotals(rows, sel.selectedState, f, SumProjects(TimelineFor(d, sel.selectedState)))
      else
        PlainTotals(rows, sel.selectedState)
  }

  /** Without a date filter, or when the filtered timeline sums to 0, totals are the plain sums. */
  lemma UnscaledTotalsArePlainSums(d: Dataset, sel: Selection)
    requires HasAllSeries(d) && !DateScaled(d, sel)
    ensures var t := ComputeTotals(d, sel);
      && t == PlainTotals(FilteredStateData(d.stateData, sel.selectedState), sel.selectedState)
      && (forall c :: TotalOf(t, c) == RawSum(FilteredStateData(d.stateData, sel.selectedState), c))
      && t.totalProcessingTime == TotalProcessingTime(sel.selectedState)
  {
    var rows := FilteredStateData(d.stateData, sel.selectedState);
    assert ComputeTotals(d, sel) == PlainTotals(rows, sel.selectedState);
  }

  /**
   * Under an active date filter every count, and the total processing time, is
   * its plain value times filtered ÷ full timeline projects, rounded half up.
   */
  lemma ScaledTotalsFollowTimelineShare(d: Dataset, sel: Selection)
    requires HasAllSeries(d) && DateScaled(d, sel)
    ensures var full := TimelineFor(d, sel.selectedState);
      var f, a := SumProjects(ChartTimeline(d, sel)), SumProjects(full);
      var rows := FilteredStateData(d.stateData, sel.selectedState);
      var t := ComputeTotals(d, sel);
      && 0 < f <= a
      && t == ScaledTotals(rows, sel.selectedState, f, a)
      && (forall c :: TotalOf(t, c) == RoundRatio(RawSum(rows, c), f, a))
      && t.totalProcessingTime == RoundRatio(TotalProcessingTime(sel.selectedState), f, a)
  {
  }

  /**
   * Choosing a date range never raises a total above what "All Time" shows, and
   * leaves the average processing time as it is.
   */
  lemma DateFilterNeverRaisesTotals(d: Dataset, sel: Selection)
    requires HasAllSeries(d)
    ensures var t, u := ComputeTotals(d, sel), ComputeTotals(d, sel.(dateRange := "all"));
      && (forall c :: TotalOf(t, c) <= TotalOf(u, c))
      && t.totalProcessingTime <= u.totalProcessingTime
      && t.avgProcessingTime == u.avgProcessingTime
  {
    UnscaledTotalsArePlainSums(d, sel.(dateRange := "all"));
  }

  /**
   * A date range that keeps the whole timeline (for instance `last30` on this
   * data, or a range the code does not know) scales by one, so the totals are
   * those of "All Time".
   */
  lemma WholeTimelineLeavesTotalsUnscaled(d: Dataset, sel: Selection)
    requires HasAllSeries(d)
    requires ChartTimeline(d, sel) == TimelineFor(d, sel.selectedState)
    ensures ComputeTotals(d, sel) == ComputeTotals(d, sel.(dateRange := "all"))
  {
    var a := SumProjects(TimelineFor(d, sel.selectedState));
    if DateScaled(d, sel) {
      var rows := FilteredStateData(d.stateData, sel.selectedState);
      RoundRatioOfWhole(RawSum(rows, Projects), a);
      RoundRatioOfWhole(RawSum(rows, Processed), a);
      RoundRatioOfWhole(RawSum(rows, LtData), a);
      RoundRatioOfWhole(RawSum(rows, CasemineData), a);
      RoundRatioOfWhole(RawSum(rows, Attachments), a);
      RoundRatioOfWhole(TotalProcessingTime(sel.selectedState), a);
    }
  }

  /**
   * A date range whose points hold no projects (an inverted or unparsable
   * custom range, say) falls back to the "All Time" totals rather than to zeros.
   */
  lemma EmptyWindowFallsBackToAllTime(d: Dataset, sel: Selection)
    requires HasAllSeries(d)
    requires SumProjects(ChartTimeline(d, sel)) == 0
    ensures ComputeTotals(d, sel) == ComputeTotals(d, sel.(dateRange := "all"))
  {
  }

  /** In particular an inverted or unparsable custom range shows the "All Time" totals. */
  lemma InvalidCustomRangeShowsAllTimeTotals(d: Dataset, sel: Selection)
    requires HasAllSeries(d)
    requires sel.dateRange == "custom"
    requires sel.startDate.None? || sel.endDate.None? || sel.startDate.value > sel.endDate.value
    ensures ChartTimeline(d, sel) == []
    ensures ComputeTotals(d, sel) == ComputeTotals(d, sel.(dateRange := "all"))
  {
    InvalidCustomRangeIsEmpty(sel, TimelineFor(d, sel.selectedState));
    EmptyWindowFallsBackToAllTime(d, sel);
  }
}
