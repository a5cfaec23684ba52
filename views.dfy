/**
 * The views the dashboard derives from the selected state: the metrics rows
 * shown, the timeline and performance table looked up for it, the coverage
 * chart's series and the data-quality alerts.
 */
module Views {
  import opened Wrappers
  import opened Seqs
  import opened Metrics
  import opened DateFilter

  /** `toLowerCase` on the ASCII letters the state names are written in. */
  function LowerChar(c: char): char {
    if 'A' <= c <= 'Z' then (c as int + 32) as char else c
  }

  function ToLower(s: string): string {
    seq(|s|, i requires 0 <= i < |s| => LowerChar(s[i]))
  }

  function NameIs(selected: string): StateMetrics -> bool {
    (row: StateMetrics) => ToLower(row.state) == selected
  }

  /**
   * `filteredStateData`: every row for `all`; otherwise the rows whose
   * lower-cased name is the selection, in order.
   */
  function FilteredStateData(rows: seq<StateMetrics>, selected: string): (r: seq<StateMetrics>)
    ensures selected == "all" ==> r == rows
    ensures IsSubsequence(r, rows)
    ensures selected != "all" ==>
      forall row :: multiset(r)[row] == if ToLower(row.state) == selected then multiset(rows)[row] else 0
  {
    if selected == "all" then
      SubsequenceReflexive(rows);
      rows
    else
      Filter(NameIs(selected), rows)
  }

  predicate DistinctNames(rows: seq<StateMetrics>) {
    forall i, j :: 0 <= i < j < |rows| ==> ToLower(rows[i].state) != ToLower(rows[j].state)
  }

  /**
   * When no two rows share a lower-cased name, a single state keeps exactly the
   * row carrying its name, or none if no row does.
   */
  lemma {:induction false} SingleStateSelectsItsRow(rows: seq<StateMetrics>, selected: string)
    requires selected != "all" && DistinctNames(rows)
    ensures var r := FilteredStateData(rows, selected);
      |r| <= 1 &&
      (|r| == 1 <==> exists i :: 0 <= i < |rows| && ToLower(rows[i].state) == selected) &&
      (|r| == 1 ==> ToLower(r[0].state) == selected)
    decreases |rows|
  {
    if rows != [] {
      var tail := rows[1..];
      assert DistinctNames(tail) by {
        forall i, j | 0 <= i < j < |tail| ensures ToLower(tail[i].state) != ToLower(tail[j].state) {
          assert tail[i] == rows[i + 1] && tail[j] == rows[j + 1];
        }
      }
      SingleStateSelectsItsRow(tail, selected);
      var r := FilteredStateData(rows, selected);
      assert r == Filter(NameIs(selected), rows);
      if ToLower(rows[0].state) == selected {
        assert forall i :: 0 <= i < |tail| ==> ToLower(tail[i].state) != selected by {
          forall i | 0 <= i < |tail| ensures ToLower(tail[i].state) != selected {
            assert tail[i] == rows[i + 1];
          }
        }
      } else {
        if exists i :: 0 <= i < |rows| && ToLower(rows[i].state) == selected {
          var i :| 0 <= i < |rows| && ToLower(rows[i].state) == selected;
          assert tail[i - 1] == rows[i];
        }
      }
    }
  }

  /**
   * `allTimelineData[selectedState] || allTimelineData.all`: the state's own
   * series when the table has one, the `all` series for any other name.
   */
  function TimelineFor(d: Dataset, selected: string): (r: seq<TimelinePoint>)
    requires HasAllSeries(d)
    ensures selected in d.timelines ==> r == d.timelines[selected]
    ensures selected !in d.timelines ==> r == d.timelines["all"]
  {
    if selected in d.timelines then d.timelines[selected] else d.timelines["all"]
  }

  /**
   * `performanceDataByState[selectedState] || performanceDataByState.all`: the
   * state's own table when there is one, the `all` table for any other name.
   */
  function PerformanceFor(d: Dataset, selected: string): (r: seq<PerformanceEntry>)
    requires HasAllSeries(d)
    ensures selected in d.performance ==> r == d.performance[selected]
    ensures selected !in d.performance ==> r == d.performance["all"]
  {
    if selected in d.performance then d.performance[selected] else d.performance["all"]
  }

  /** The points the trend chart draws: the selected state's timeline, date-filtered. */
  function ChartTimeline(d: Dataset, sel: Selection): (r: seq<TimelinePoint>)
    requires HasAllSeries(d)
    ensures IsSubsequence(r, TimelineFor(d, sel.selectedState))
    ensures forall p :: multiset(r)[p] == if Admits(WindowOf(sel), p.date) then multiset(TimelineFor(d, sel.selectedState))[p] else 0
    ensures forall p :: p in r <==> p in TimelineFor(d, sel.selectedState) && Admits(WindowOf(sel), p.date)
    ensures SumProjects(r) <= SumProjects(TimelineFor(d, sel.selectedState))
  {
    var r := FilterTimeline(sel, TimelineFor(d, sel.selectedState));
    assert forall p :: p in r <==> multiset(r)[p] > 0;
    r
  }

  /** One bar group of the coverage chart; values in tenths of a percent. */
  datatype CoveragePoint =
    | Comparison(name: string, telangana: nat, karnataka: nat)
    | Single(name: string, value: nat)

  const SourceNames: seq<string> := ["LT Data", "Casemine", "Attachments", "RERA Data"]

  /**
   * `coverageData`: both states side by side for `all`, Telangana's figures for
   * `telangana`, and Karnataka's for any other state.
   */
  function CoverageView(selected: string): (r: seq<CoveragePoint>)
    ensures |r| == |SourceNames|
    ensures forall i :: 0 <= i < |r| ==> r[i].name == SourceNames[i]
    ensures forall i :: 0 <= i < |r| ==> (r[i].Comparison? <==> selected == "all")
  {
    if selected == "all" then
      [Comparison("LT Data", 873, 26), Comparison("Casemine", 302, 211),
       Comparison("Attachments", 921, 26), Comparison("RERA Data", 937, 842)]
    else if selected == "telangana" then
      [Single("LT Data", 873), Single("Casemine", 302), Single("Attachments", 921), Single("RERA Data", 937)]
    else
      [Single("LT Data", 26), Single("Casemine", 211), Single("Attachments", 26), Single("RERA Data", 842)]
  }

  /**
   * The side-by-side view carries, per data source, exactly the figures the two
   * single-state views show.
   */
  lemma ComparisonJoinsSingleViews()
    ensures forall i :: 0 <= i < |SourceNames| ==>
      CoverageView("all")[i].telangana == CoverageView("telangana")[i].value &&
      CoverageView("all")[i].karnataka == CoverageView("karnataka")[i].value
  {
  }

  /**
   * The data-quality panel. Its heading "Data Quality Issues - " is always drawn;
   * `headingState` is the state name shown after it, if any. The other fields
   * are the three warnings it may show, with the figure each one quotes.
   */
  datatype AlertPanel = AlertPanel(
    headingState: Option<string>,
    lowCoverage: Option<nat>,
    missingRera: Option<nat>,
    lowLtCoverage: bool)

  /**
   * No panel for `all`. For a single state, the heading's state name and each
   * warning read the first filtered row (`filteredStateData[0]?.…`), so for a
   * state with no row the heading shows no name and neither of the first two
   * warnings appears; the LT warning is tied to the name `karnataka`.
   */
  function Alerts(d: Dataset, selected: string): (r: Option<AlertPanel>)
    ensures r.None? <==> selected == "all"
    ensures r.Some? ==> var rows := FilteredStateData(d.stateData, selected);
      && (r.value.headingState.Some? <==> rows != [])
      && (r.value.headingState.Some? ==> r.value.headingState.value == rows[0].state)
      && (r.value.lowCoverage.Some? <==> rows != [] && rows[0].completeDataCoverage < 100)
      && (r.value.lowCoverage.Some? ==> r.value.lowCoverage.value == rows[0].completeDataCoverage)
      && (r.value.missingRera.Some? <==> rows != [] && rows[0].missingReraData > 0)
      && (r.value.missingRera.Some? ==> r.value.missingRera.value == rows[0].missingReraData)
      && (r.value.lowLtCoverage <==> selected == "karnataka")
  {
    if selected == "all" then None
    else
      var rows := FilteredStateData(d.stateData, selected);
      var first := if rows == [] then None else Some(rows[0]);
      Some(AlertPanel(
        if first.Some? then Some(first.value.state) else None,
        if first.Some? && first.value.completeDataCoverage < 100 then Some(first.value.completeDataCoverage) else None,
        if first.Some? && first.value.missingReraData > 0 then Some(first.value.missingReraData) else None,
        selected == "karnataka"))
  }
}
