/**
 * The dashboard's data model: one metrics row per monitored state, a daily
 * timeline of projects per state, and a per-state breakdown of processing time.
 * Percentages are held in tenths of a percent (93.7 is 937) and times with two
 * decimals in hundredths of a second (336.36 is 33636).
 */
module Metrics {
  import opened Seqs

  datatype StateMetrics = StateMetrics(
    state: string,
    totalProjects: nat,
    reraTotal: nat,
    projectsProcessed: nat,
    ltDataFetched: nat,
    casemineDataFetched: nat,
    attachmentsDownloaded: nat,
    reraDataAvailability: nat,   // tenths of a percent
    completeDataCoverage: nat,   // tenths of a percent
    missingReraData: nat)

  /** Projects seen on one day; `date` is a day number (see module Dates). */
  datatype TimelinePoint = TimelinePoint(date: int, projects: nat)

  /** `time` in seconds, `avgTime` in hundredths of a second. */
  datatype PerformanceEntry = PerformanceEntry(process: string, time: nat, avgTime: nat)

  /**
   * The static data the dashboard shows: the metrics rows, and the timelines and
   * performance tables keyed by lower-case state name plus the key `all`.
   */
  datatype Dataset = Dataset(
    stateData: seq<StateMetrics>,
    timelines: map<string, seq<TimelinePoint>>,
    performance: map<string, seq<PerformanceEntry>>)

  /** Both keyed tables carry the `all` series that every lookup falls back to. */
  predicate HasAllSeries(d: Dataset) {
    "all" in d.timelines && "all" in d.performance
  }

  /** Total projects over a timeline (the `reduce` over `item.projects`). */
  function SumProjects(points: seq<TimelinePoint>): nat {
    if points == [] then 0 else points[0].projects + SumProjects(points[1..])
  }

  predicate SortedByDate(points: seq<TimelinePoint>) {
    forall i, j :: 0 <= i < j < |points| ==> points[i].date <= points[j].date
  }

  lemma SortedTail(points: seq<TimelinePoint>)
    requires points != [] && SortedByDate(points)
    ensures SortedByDate(points[1..])
    ensures |points| > 1 ==> points[0].date <= points[1].date
  {
  }

  /** The five per-row counts that the totals add up. */
  datatype Count = Projects | Processed | LtData | CasemineData | Attachments

  function CountOf(row: StateMetrics, c: Count): nat {
    match c
    case Projects => row.totalProjects
    case Processed => row.projectsProcessed
    case LtData => row.ltDataFetched
    case CasemineData => row.casemineDataFetched
    case Attachments => row.attachmentsDownloaded
  }

  /** The `reduce` of one count over a list of rows. */
  function RawSum(rows: seq<StateMetrics>, c: Count): nat {
    if rows == [] then 0 else CountOf(rows[0], c) + RawSum(rows[1..], c)
  }

  /** Dropping timeline points never raises the project total. */
  lemma {:induction false} SubsequenceSumAtMost(a: seq<TimelinePoint>, b: seq<TimelinePoint>)
    requires IsSubsequence(a, b)
    ensures SumProjects(a) <= SumProjects(b)
    decreases |b|
  {
    if a != [] {
      if a[0] == b[0] && IsSubsequence(a[1..], b[1..]) {
        SubsequenceSumAtMost(a[1..], b[1..]);
      } else {
        SubsequenceSumAtMost(a, b[1..]);
      }
    }
  }

  lemma SumProjectsStep(s: seq<TimelinePoint>, k: nat)
    requires k < |s|
    ensures SumProjects(s[k..]) == s[k].projects + SumProjects(s[k + 1..])
  {
    assert s[k..][1..] == s[k + 1..];
  }
}
