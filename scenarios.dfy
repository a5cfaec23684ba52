/** What the dashboard shows for particular selections over its literal data. */
module Scenarios {
  import opened Wrappers
  import opened Seqs
  import opened Metrics
  import opened Fixtures
  import opened DateFilter
  import opened Views
  import opened Totals
  import Dates

  lemma LowerCaseNames()
    ensures ToLower("Telangana") == "telangana" && ToLower("Karnataka") == "karnataka"
  {
  }

  /** `all` keeps both rows; each state keeps its own row; any other name keeps none. */
  lemma StateRowsOfFixture(selected: string)
    ensures FilteredStateData(StateData, "all") == StateData
    ensures FilteredStateData(StateData, "telangana") == [StateData[0]]
    ensures FilteredStateData(StateData, "karnataka") == [StateData[1]]
    ensures selected != "all" && selected != "telangana" && selected != "karnataka" ==>
      FilteredStateData(StateData, selected) == []
  {
    LowerCaseNames();
    assert StateData[1..][1..] == [];
  }

  /** A state with a series of its own gets it; any other name gets the `all` series. */
  lemma LookupsFallBackToAll(selected: string)
    ensures TimelineFor(Data, "telangana") == TelanganaTimeline
    ensures TimelineFor(Data, "karnataka") == KarnatakaTimeline
    ensures PerformanceFor(Data, "telangana") == TelanganaPerformance
    ensures PerformanceFor(Data, "karnataka") == KarnatakaPerformance
    ensures selected != "telangana" && selected != "karnataka" ==>
      TimelineFor(Data, selected) == AllTimeline && PerformanceFor(Data, selected) == AllPerformance
  {
  }

  lemma RowSums(c: Count)
    ensures RawSum([StateData[0]], c) == CountOf(StateData[0], c)
    ensures RawSum([StateData[1]], c) == CountOf(StateData[1], c)
    ensures RawSum(StateData, c) == CountOf(StateData[0], c) + CountOf(StateData[1], c)
  {
    assert [StateData[0]][1..] == [] && [StateData[1]][1..] == [];
    assert StateData[1..] == [StateData[1]];
  }

  /** Telangana over all time: 63 projects, 59 processed, 55 with LT data. */
  lemma TelanganaAllTimeTotals(sel: Selection)
    requires sel.selectedState == "telangana" && sel.dateRange == "all"
    ensures ComputeTotals(Data, sel) == Totals(63, 59, 55, 19, 58, 24847, 14660)
  {
    FixtureIsWellFormed();
    var rows := FilteredStateData(Data.stateData, sel.selectedState);
    assert ComputeTotals(Data, sel) == PlainTotals(rows, "telangana");
    StateRowsOfFixture(sel.selectedState);
    assert rows == [StateData[0]];
    RowSums(Projects);
    RowSums(Processed);
    RowSums(LtData);
    RowSums(CasemineData);
    RowSums(Attachments);
  }

  /** Both states over all time: the two rows added up. */
  lemma AllStatesAllTimeTotals(sel: Selection)
    requires sel.selectedState == "all" && sel.dateRange == "all"
    ensures ComputeTotals(Data, sel) == Totals(101, 96, 56, 27, 59, 26103, 26364)
  {
    FixtureIsWellFormed();
    var rows := FilteredStateData(Data.stateData, sel.selectedState);
    assert ComputeTotals(Data, sel) == PlainTotals(rows, "all");
    assert rows == StateData;
    RowSums(Projects);
    RowSums(Processed);
    RowSums(LtData);
    RowSums(CasemineData);
    RowSums(Attachments);
  }

  /** `last7` keeps 2025-04-20 and 2025-04-24 of Telangana's timeline, 5 of its 18 projects. */
  lemma TelanganaLastSevenDays(sel: Selection)
    requires sel.selectedState == "telangana" && sel.dateRange == "last7"
    ensures ChartTimeline(Data, sel) == [TimelinePoint(Apr20, 3), TimelinePoint(Apr24, 2)]
  {
    FixtureIsWellFormed();
    assert WindowOf(sel) == LastWeek;
    assert TimelineFor(Data, sel.selectedState) == TelanganaTimeline;
    LastWeekKeepsLastTwoPoints();
  }

  const LastWeek: Window := Between(Some(Dates.Anchor - 7), Some(Dates.Anchor))

  lemma LastWeekKeepsLastTwoPoints()
    ensures Filter(InWindow(LastWeek), TelanganaTimeline) == [TimelinePoint(Apr20, 3), TimelinePoint(Apr24, 2)]
  {
    var t := TelanganaTimeline;
    var early, late := t[..5], t[5..];
    assert forall i :: 0 <= i < |early| ==> !InWindow(LastWeek)(early[i]);
    assert forall i :: 0 <= i < |late| ==> InWindow(LastWeek)(late[i]);
    assert t == early + late;
    FilterAppend(InWindow(LastWeek), early, late);
    FilterRejectsAll(InWindow(LastWeek), early);
    FilterKeepsAll(InWindow(LastWeek), late);
  }

  /** Under `last7`, Telangana's timeline keeps 5 of its 18 projects. */
  lemma TelanganaLastSevenDaysShare(sel: Selection)
    requires sel.selectedState == "telangana" && sel.dateRange == "last7"
    ensures HasAllSeries(Data)
    ensures SumProjects(ChartTimeline(Data, sel)) == 5
    ensures SumProjects(TimelineFor(Data, sel.selectedState)) == 18
  {
    TelanganaFullSum();
    TelanganaLastSevenDays(sel);
    LastTwoPointsSum();
  }

  lemma TelanganaFullSum()
    ensures HasAllSeries(Data) && SumProjects(TimelineFor(Data, "telangana")) == 18
  {
    FixtureIsWellFormed();
    TimelineTotals();
    LookupsFallBackToAll("telangana");
  }

  lemma LastTwoPointsSum()
    ensures SumProjects([TimelinePoint(Apr20, 3), TimelinePoint(Apr24, 2)]) == 5
  {
    var window := [TimelinePoint(Apr20, 3), TimelinePoint(Apr24, 2)];
    SumProjectsStep(window, 1);
    SumProjectsStep(window, 0);
  }

  /**
   * Telangana over the last seven days: each total is scaled by 5/18 and rounded
   * half up, so 63 projects become 18 (17.5 rounded up).
   */
  lemma TelanganaLastSevenDaysTotals(sel: Selection)
    requires sel.selectedState == "telangana" && sel.dateRange == "last7"
    ensures ComputeTotals(Data, sel) == Totals(18, 16, 15, 5, 16, 24847, 4072)
  {
    TelanganaLastSevenDaysShare(sel);
    ScaledTotalsFollowTimelineShare(Data, sel);
    StateRowsOfFixture(sel.selectedState);
    TelanganaScaledByFiveEighteenths();
  }

  lemma TelanganaScaledByFiveEighteenths()
    ensures ScaledTotals([StateData[0]], "telangana", 5, 18) == Totals(18, 16, 15, 5, 16, 24847, 4072)
  {
    RowSums(Projects);
    RowSums(Processed);
    RowSums(LtData);
    RowSums(CasemineData);
    RowSums(Attachments);
  }

  /** Every timeline of the data runs over the sampled days 2025-03-26 to 2025-04-24. */
  lemma TimelinesSpanSampledDays(selected: string)
    ensures HasAllSeries(Data)
    ensures var t := TimelineFor(Data, selected);
      forall i :: 0 <= i < |t| ==> Mar26 <= t[i].date <= Apr24
  {
    FixtureIsWellFormed();
    LookupsFallBackToAll(selected);
  }

  /** Any window from 2025-03-26 or earlier to 2025-04-24 or later keeps every sampled day. */
  lemma CoveringWindowKeepsTimeline(sel: Selection)
    requires WindowOf(sel).Between? && WindowOf(sel).start.Some? && WindowOf(sel).end.Some?
    requires WindowOf(sel).start.value <= Mar26 && Apr24 <= WindowOf(sel).end.value
    ensures HasAllSeries(Data)
    ensures ChartTimeline(Data, sel) == TimelineFor(Data, sel.selectedState)
  {
    TimelinesSpanSampledDays(sel.selectedState);
    var t := TimelineFor(Data, sel.selectedState);
    FilterKeepsAll(InWindow(WindowOf(sel)), t);
  }

  /**
   * `last30` reaches back to 2025-03-25, before the first sampled day, so it
   * keeps every point and every total equals its "All Time" value.
   */
  lemma LastThirtyDaysKeepEverything(sel: Selection)
    requires sel.dateRange == "last30"
    ensures HasAllSeries(Data)
    ensures ChartTimeline(Data, sel) == TimelineFor(Data, sel.selectedState)
    ensures ComputeTotals(Data, sel) == ComputeTotals(Data, sel.(dateRange := "all"))
  {
    CoveringWindowKeepsTimeline(sel);
    WholeTimelineLeavesTotalsUnscaled(Data, sel);
  }

  /** Switching to a custom range with the dates the dashboard opens with also keeps everything. */
  lemma InitialCustomRangeKeepsEverything(sel: Selection)
    requires sel.dateRange == "custom"
    requires sel.startDate == InitialSelection.startDate && sel.endDate == InitialSelection.endDate
    ensures HasAllSeries(Data)
    ensures ChartTimeline(Data, sel) == TimelineFor(Data, sel.selectedState)
    ensures ComputeTotals(Data, sel) == ComputeTotals(Data, sel.(dateRange := "all"))
  {
    CoveringWindowKeepsTimeline(sel);
    WholeTimelineLeavesTotalsUnscaled(Data, sel);
  }

  /**
   * Karnataka raises all three warnings: 0% complete coverage, 6 projects
   * without RERA data, and its LT coverage.
   */
  lemma KarnatakaRaisesAllAlerts()
    ensures Alerts(Data, "karnataka") == Some(AlertPanel(Some("Karnataka"), Some(0), Some(6), true))
  {
    StateRowsOfFixture("karnataka");
  }

  /** Telangana: 7.9% complete coverage and 4 projects without RERA data; no LT warning. */
  lemma TelanganaAlerts()
    ensures Alerts(Data, "telangana") == Some(AlertPanel(Some("Telangana"), Some(79), Some(4), false))
  {
    StateRowsOfFixture("telangana");
  }

  /**
   * A state the data does not know matches no row: its totals are zero, it is
   * shown the `all` timeline and Karnataka's coverage, and its alert panel is empty.
   */
  lemma UnknownStateView(sel: Selection)
    requires sel.selectedState !in {"all", "telangana", "karnataka"}
    requires sel.dateRange == "all"
    ensures ComputeTotals(Data, sel) == Totals(0, 0, 0, 0, 0, 26103, 26364)
    ensures ChartTimeline(Data, sel) == AllTimeline
    ensures CoverageView(sel.selectedState) == CoverageView("karnataka")
    ensures Alerts(Data, sel.selectedState) == Some(AlertPanel(None, None, None, false))
  {
    FixtureIsWellFormed();
    StateRowsOfFixture(sel.selectedState);
    LookupsFallBackToAll(sel.selectedState);
    UnscaledTotalsArePlainSums(Data, sel);
  }

  /**
   * The coverage chart's figures are the metrics rows' shares, in tenths of a
   * percent rounded half up: fetched ÷ total projects for LT, Casemine and
   * attachments, and (total − missing RERA) ÷ total for RERA, which is also the
   * row's RERA availability.
   */
  lemma CoverageAgreesWithMetrics()
    ensures forall k :: 0 <= k < 2 ==>
      var row := StateData[k];
      var view := CoverageView(ToLower(row.state));
      && view[0].value == RoundRatio(row.ltDataFetched, 1000, row.totalProjects)
      && view[1].value == RoundRatio(row.casemineDataFetched, 1000, row.totalProjects)
      && view[2].value == RoundRatio(row.attachmentsDownloaded, 1000, row.totalProjects)
      && view[3].value == RoundRatio(row.totalProjects - row.missingReraData, 1000, row.totalProjects)
      && view[3].value == row.reraDataAvailability
  {
    LowerCaseNames();
  }
}
