/**
 * The operating-system queries the CPU collector relies on. Their behaviour
 * lives outside the collector, so the model takes what each one answers
 * during a call as an input.
 */
module HostQueries {

  import opened Results
  import opened Models

  /** An error reported by the operating system or by the metrics library. */
  datatype OsError = OsError(message: string)

  /** The library's load-average record. */
  datatype AvgStat = AvgStat(load1: Float, load5: Float, load15: Float)

  /** The four queries a `Collect` call can issue. */
  datatype Query = TotalPercentQuery | PerCorePercentQuery | LoadAvgQuery | CoreCountQuery

  /** What each query answers if it is issued during one `Collect` call. */
  datatype Readings = Readings(
    totalPercent: Result<seq<Float>, OsError>,   // overall utilisation over a one-second window
    perCorePercent: Result<seq<Float>, OsError>, // utilisation per logical core, in core order
    loadAvg: Result<AvgStat, OsError>,           // 1/5/15-minute load averages
    logicalCount: Result<int, OsError>)          // number of logical cores

  /** A value together with the queries issued, in order, to obtain it. */
  datatype Probe<T> = Probe(value: T, issued: seq<Query>)
}
