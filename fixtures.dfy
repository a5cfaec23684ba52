/** The literal data the dashboard is built over. */
module Fixtures {
  import opened Metrics
  import Dates

  // The seven sampled days, 2025-03-26 to 2025-04-24, as day numbers.
  const Mar26: int := 20173
  const Mar30: int := 20177
  const Apr05: int := 20183
  const Apr10: int := 20188
  const Apr15: int := 20193
  const Apr20: int := 20198
  const Apr24: int := 20202

  lemma FixtureDaysAreCalendarDays()
    ensures Mar26 == Dates.CivilDay(2025, 3, 26) && Mar30 == Dates.CivilDay(2025, 3, 30)
    ensures Apr05 == Dates.CivilDay(2025, 4, 5) && Apr10 == Dates.CivilDay(2025, 4, 10)
    ensures Apr15 == Dates.CivilDay(2025, 4, 15) && Apr20 == Dates.CivilDay(2025, 4, 20)
    ensures Apr24 == Dates.CivilDay(2025, 4, 24) && Apr24 == Dates.Anchor
  {
  }

  const StateData: seq<StateMetrics> := [
    StateMetrics("Telangana", 63, 9549, 59, 55, 19, 58, 937, 79, 4),
    StateMetrics("Karnataka", 38, 8582, 37, 1, 8, 1, 842, 0, 6)
  ]

  const TelanganaTimeline: seq<TimelinePoint> := [
    TimelinePoint(Mar26, 2), TimelinePoint(Mar30, 2), TimelinePoint(Apr05, 4), TimelinePoint(Apr10, 3),
    TimelinePoint(Apr15, 2), TimelinePoint(Apr20, 3), TimelinePoint(Apr24, 2)
  ]

  const KarnatakaTimeline: seq<TimelinePoint> := [
    TimelinePoint(Mar26, 0), TimelinePoint(Mar30, 1), TimelinePoint(Apr05, 1), TimelinePoint(Apr10, 1),
    TimelinePoint(Apr15, 1), TimelinePoint(Apr20, 1), TimelinePoint(Apr24, 1)
  ]

  const AllTimeline: seq<TimelinePoint> := [
    TimelinePoint(Mar26, 2), TimelinePoint(Mar30, 3), TimelinePoint(Apr05, 5), TimelinePoint(Apr10, 4),
    TimelinePoint(Apr15, 3), TimelinePoint(Apr20, 4), TimelinePoint(Apr24, 3)
  ]

  const TelanganaPerformance: seq<PerformanceEntry> := [
    PerformanceEntry("LT", 18500, 33636), PerformanceEntry("Casemine", 1900, 10000),
    PerformanceEntry("RERA", 2750, 4661), PerformanceEntry("Attachments", 580, 1000)
  ]

  const KarnatakaPerformance: seq<PerformanceEntry> := [
    PerformanceEntry("LT", 929, 92900), PerformanceEntry("Casemine", 804, 10050),
    PerformanceEntry("RERA", 1481, 4003), PerformanceEntry("Attachments", 10, 1000)
  ]

  const AllPerformance: seq<PerformanceEntry> := [
    PerformanceEntry("LT", 19429, 35325), PerformanceEntry("Casemine", 2704, 10015),
    PerformanceEntry("RERA", 4231, 4649), PerformanceEntry("Attachments", 590, 1000)
  ]

  const Data: Dataset := Dataset(
    StateData,
    map["telangana" := TelanganaTimeline, "karnataka" := KarnatakaTimeline, "all" := AllTimeline],
    map["telangana" := TelanganaPerformance, "karnataka" := KarnatakaPerformance, "all" := AllPerformance])

  /** Every lookup has its `all` fallback, and every timeline runs forward in time. */
  lemma FixtureIsWellFormed()
    ensures HasAllSeries(Data)
    ensures forall k :: k in Data.timelines ==> SortedByDate(Data.timelines[k])
  {
  }

  /** The `all` timeline adds the two state timelines day by day. */
  lemma AllTimelineIsPointwiseSum()
    ensures |AllTimeline| == |TelanganaTimeline| == |KarnatakaTimeline|
    ensures forall i :: 0 <= i < |AllTimeline| ==>
      AllTimeline[i].date == TelanganaTimeline[i].date == KarnatakaTimeline[i].date &&
      AllTimeline[i].projects == TelanganaTimeline[i].projects + KarnatakaTimeline[i].projects
  {
  }

  /** The `all` performance table adds the two states' cumulative times process by process. */
  lemma AllPerformanceIsPointwiseSum()
    ensures |AllPerformance| == |TelanganaPerformance| == |KarnatakaPerformance|
    ensures forall i :: 0 <= i < |AllPerformance| ==>
      AllPerformance[i].process == TelanganaPerformance[i].process == KarnatakaPerformance[i].process &&
      AllPerformance[i].time == TelanganaPerformance[i].time + KarnatakaPerformance[i].time
  {
  }

  lemma TimelineTotals()
    ensures SumProjects(TelanganaTimeline) == 18
    ensures SumProjects(KarnatakaTimeline) == 6
    ensures SumProjects(AllTimeline) == 24
  {
    UnfoldSum(TelanganaTimeline);
    UnfoldSum(KarnatakaTimeline);
    UnfoldSum(AllTimeline);
  }

  lemma UnfoldSum(s: seq<TimelinePoint>)
    requires |s| == 7
    ensures SumProjects(s) == s[0].projects + s[1].projects + s[2].projects + s[3].projects
                              + s[4].projects + s[5].projects + s[6].projects
  {
    SumProjectsStep(s, 6);
    SumProjectsStep(s, 5);
    SumProjectsStep(s, 4);
    SumProjectsStep(s, 3);
    SumProjectsStep(s, 2);
    SumProjectsStep(s, 1);
    SumProjectsStep(s, 0);
    assert s[0..] == s;
  }
}
