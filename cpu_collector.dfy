/**
 * The CPU collector of internal/collectors/cpu.go: its configuration, the
 * four query helpers and `Collect`, which applies the two-tier error policy.
 * The total-percent query is critical; the per-core, load-average and
 * core-count queries are enrichments whose failures become sentinels.
 */
module Collectors {

  import opened Results
  import opened Models
  import opened HostQueries

  /** A `time.Duration` in nanoseconds; only passed through. */
  type Duration = int

  /** The collector's configuration, fixed at construction and only read afterwards. */
  datatype CPUCollector = CPUCollector(interval: Duration, collectPerCPU: bool, hostname: string)

  /** The hostname recorded when the lookup fails. */
  const UnknownHost := "unknown"

  /** The collector's identifier, also the `metricType` of its records. */
  const CpuName := "cpu"

  /** Why the critical total-percent query gave no value. */
  datatype TotalPercentError =
    | QueryFailed(cause: OsError)  // the query itself reported an error
    | NoData                       // the query answered an empty series

  /** The only error `Collect` returns: the critical metric is unavailable. */
  datatype CollectError = CriticalMetricUnavailable(cause: TotalPercentError)

  const CollectErrorPrefix := "failed to get CPU percent: "
  const NoDataMessage := "no CPU percentage data returned"

  /** The outcome of one `Collect` call and the queries it issued, in order. */
  datatype Sample = Sample(result: Result<CPUMetrics, CollectError>, issued: seq<Query>)

  /**
   * Builds a collector. The hostname lookup is an input; its failure is
   * absorbed into "unknown", so construction always succeeds.
   */
  function NewCPUCollector(interval: Duration, collectPerCPU: bool, hostnameLookup: Result<string, OsError>)
    : (r: Result<CPUCollector, OsError>)
    ensures r.Ok?
    ensures r.value.interval == interval && r.value.collectPerCPU == collectPerCPU
    ensures hostnameLookup.Err? ==> r.value.hostname == UnknownHost
    ensures hostnameLookup.Ok? ==> r.value.hostname == hostnameLookup.value
  {
    var hostname := if hostnameLookup.Err? then UnknownHost else hostnameLookup.value;
    Ok(CPUCollector(interval, collectPerCPU, hostname))
  }

  /** The collector identifier: a stable, non-empty, lower-case name. */
  function Name(c: CPUCollector): (r: string)
    ensures r != []
    ensures forall i :: 0 <= i < |r| ==> 'a' <= r[i] <= 'z'
  {
    CpuName
  }

  /** The sampling cadence the collector was configured with. */
  function Interval(c: CPUCollector): (d: Duration)
  {
    c.interval
  }

  /** The text of a `Collect` error, wrapping the text of its cause. */
  function CauseMessage(e: TotalPercentError): (m: string)
  {
    match e
    case QueryFailed(os) => os.message
    case NoData => NoDataMessage
  }

  function ErrorMessage(e: CollectError): (m: string)
    ensures |CollectErrorPrefix| <= |m| && m[..|CollectErrorPrefix|] == CollectErrorPrefix
    ensures e.cause.NoData? ==> m == "failed to get CPU percent: no CPU percentage data returned"
    ensures e.cause.QueryFailed? ==> m == CollectErrorPrefix + e.cause.cause.message
  {
    CollectErrorPrefix + CauseMessage(e.cause)
  }

  /**
   * The critical query: the first value of the overall-utilisation series.
   * An error or an empty series yields no value.
   */
  function GetTotalPercent(h: Readings): (p: Probe<Result<Float, TotalPercentError>>)
    ensures p.issued == [TotalPercentQuery]
    ensures p.value.Ok? <==> h.totalPercent.Ok? && h.totalPercent.value != []
    ensures p.value.Ok? ==> p.value.value == h.totalPercent.value[0]
    ensures h.totalPercent.Err? ==> p.value == Err(QueryFailed(h.totalPercent.error))
    ensures h.totalPercent == Ok([]) ==> p.value == Err(NoData)
  {
    var issued := [TotalPercentQuery];
    match h.totalPercent
    case Err(e) => Probe(Err(QueryFailed(e)), issued)
    case Ok(percentages) =>
      if |percentages| == 0 then Probe(Err(NoData), issued)
      else Probe(Ok(percentages[0]), issued)
  }

  /**
   * The per-core enrichment: issued only when enabled; disabled or failed
   * both give the empty sentinel.
   */
  function GetPerCorePercent(c: CPUCollector, h: Readings): (p: Probe<seq<Float>>)
    ensures p.issued == if c.collectPerCPU then [PerCorePercentQuery] else []
    ensures p.value != [] ==> c.collectPerCPU && h.perCorePercent == Ok(p.value)
    ensures c.collectPerCPU && h.perCorePercent.Ok? ==> p.value == h.perCorePercent.value
  {
    if !c.collectPerCPU then Probe([], [])
    else
      var issued := [PerCorePercentQuery];
      match h.perCorePercent
      case Err(_) => Probe([], issued)
      case Ok(perCore) => Probe(perCore, issued)
  }

  /** The load-average enrichment: the all-zero triple when the query fails. */
  function GetLoadAverage(h: Readings): (p: Probe<LoadTriple>)
    ensures p.issued == [LoadAvgQuery]
    ensures h.loadAvg.Err? ==> p.value == NoLoad
    ensures h.loadAvg.Ok? ==>
      p.value.0 == h.loadAvg.value.load1 &&
      p.value.1 == h.loadAvg.value.load5 &&
      p.value.2 == h.loadAvg.value.load15
  {
    var issued := [LoadAvgQuery];
    match h.loadAvg
    case Err(_) => Probe((0.0, 0.0, 0.0), issued)
    case Ok(avg) => Probe((avg.load1, avg.load5, avg.load15), issued)
  }

  /** The core-count enrichment: 0 when the query fails. */
  function GetCoreCount(h: Readings): (p: Probe<int>)
    ensures p.issued == [CoreCountQuery]
    ensures h.logicalCount.Err? ==> p.value == 0
    ensures h.logicalCount.Ok? ==> p.value == h.logicalCount.value
  {
    var issued := [CoreCountQuery];
    match h.logicalCount
    case Err(_) => Probe(0, issued)
    case Ok(count) => Probe(count, issued)
  }

  /**
   * One sample. `now` is the clock reading taken first; `h` holds what each
   * query would answer. Only the critical query can make the call fail, and
   * when it does no other query is issued.
   */
  function Collect(c: CPUCollector, now: Instant, h: Readings): (s: Sample)
    ensures s.result.Err? <==> h.totalPercent.Err? || h.totalPercent.value == []
    ensures s.result.Err? ==> s.issued == [TotalPercentQuery]
    ensures h.totalPercent.Err? ==>
      s.result == Err(CriticalMetricUnavailable(QueryFailed(h.totalPercent.error)))
    ensures h.totalPercent == Ok([]) ==> s.result == Err(CriticalMetricUnavailable(NoData))
  {
    var total := GetTotalPercent(h);
    match total.value
    case Err(e) => Sample(Err(CriticalMetricUnavailable(e)), total.issued)
    case Ok(totalPercent) =>
      var perCore := GetPerCorePercent(c, h);
      var loadAvg := GetLoadAverage(h);
      var coreCount := GetCoreCount(h);
      var metrics := CPUMetrics(
        BaseMetric(now, c.hostname, Name(c)),
        totalPercent,
        perCore.value,
        loadAvg.value,
        coreCount.value,
        map[]);
      Sample(Ok(metrics), total.issued + perCore.issued + loadAvg.issued + coreCount.issued)
  }
}
