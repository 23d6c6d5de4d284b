/**
 * What the CPU collector promises across all query outcomes: the tiered
 * error policy, the sentinel values, the record envelope, fault isolation
 * between enrichments, and an exact description of every record `Collect`
 * can produce.
 */
module CpuCollectorProperties {

  import opened Results
  import opened Models
  import opened HostQueries
  import opened Collectors

  /** The interval reported is the one given at construction. */
  lemma IntervalIsConfigured(interval: Duration, collectPerCPU: bool, hostnameLookup: Result<string, OsError>)
    ensures Interval(NewCPUCollector(interval, collectPerCPU, hostnameLookup).value) == interval
  {
  }

  /**
   * Every record a collector produces carries the hostname fixed at
   * construction: the looked-up name, or "unknown" on every call when the
   * lookup failed.
   */
  lemma HostnameFixedAtConstruction(
    interval: Duration, collectPerCPU: bool, hostnameLookup: Result<string, OsError>,
    now: Instant, h: Readings)
    requires Collect(NewCPUCollector(interval, collectPerCPU, hostnameLookup).value, now, h).result.Ok?
    ensures var rec := Collect(NewCPUCollector(interval, collectPerCPU, hostnameLookup).value, now, h).result.value;
      rec.base.hostname == if hostnameLookup.Ok? then hostnameLookup.value else "unknown"
  {
  }

  /** The envelope of every record: the clock reading, the collector's hostname, type "cpu", no extras. */
  lemma EnvelopeOfEveryRecord(c: CPUCollector, now: Instant, h: Readings)
    requires Collect(c, now, h).result.Ok?
    ensures var rec := Collect(c, now, h).result.value;
      rec.base.metricType == Name(c) == "cpu" &&
      rec.base.hostname == c.hostname &&
      rec.base.timestamp == now &&
      rec.extra == map[]
  {
  }

  /** A non-empty total series always yields a record whose total is its first value, unclamped. */
  lemma TotalPercentPassedThrough(c: CPUCollector, now: Instant, h: Readings)
    requires h.totalPercent.Ok? && h.totalPercent.value != []
    ensures Collect(c, now, h).result.Ok?
    ensures Collect(c, now, h).result.value.totalPercent == h.totalPercent.value[0]
  {
  }

  /**
   * Per-core values appear only when enabled, and then exactly as the query
   * answered; a failed or disabled query leaves them empty.
   */
  lemma PerCoreFollowsConfiguration(c: CPUCollector, now: Instant, h: Readings)
    requires Collect(c, now, h).result.Ok?
    ensures var rec := Collect(c, now, h).result.value;
      (!c.collectPerCPU ==> rec.perCore == []) &&
      (c.collectPerCPU && h.perCorePercent.Ok? ==> rec.perCore == h.perCorePercent.value) &&
      (c.collectPerCPU && h.perCorePercent.Err? ==> rec.perCore == [])
    ensures PerCorePercentQuery in Collect(c, now, h).issued <==> c.collectPerCPU
  {
  }

  /** A failed load query gives exactly (0,0,0); a successful one gives (Load1, Load5, Load15). */
  lemma LoadAverageSentinel(c: CPUCollector, now: Instant, h: Readings)
    requires Collect(c, now, h).result.Ok?
    ensures var rec := Collect(c, now, h).result.value;
      (h.loadAvg.Err? ==> rec.loadAverage == (0.0, 0.0, 0.0)) &&
      (h.loadAvg.Ok? ==>
        rec.loadAverage == (h.loadAvg.value.load1, h.loadAvg.value.load5, h.loadAvg.value.load15))
  {
  }

  /** A failed core-count query gives 0; a successful one gives the count. */
  lemma CoreCountSentinel(c: CPUCollector, now: Instant, h: Readings)
    requires Collect(c, now, h).result.Ok?
    ensures var rec := Collect(c, now, h).result.value;
      (h.logicalCount.Err? ==> rec.coreCount == 0) &&
      (h.logicalCount.Ok? ==> rec.coreCount == h.logicalCount.value)
  {
  }

  /**
   * A successful call issues the critical query first, then per-core (when
   * enabled), load average and core count, each once.
   */
  lemma QueriesIssuedInOrder(c: CPUCollector, now: Instant, h: Readings)
    requires Collect(c, now, h).result.Ok?
    ensures Collect(c, now, h).issued ==
      [TotalPercentQuery] + (if c.collectPerCPU then [PerCorePercentQuery] else []) +
      [LoadAvgQuery, CoreCountQuery]
  {
  }

  /** Whether a call succeeds depends on the critical query alone. */
  lemma SuccessDependsOnlyOnTotal(c: CPUCollector, now: Instant, h: Readings, h': Readings)
    requires h.totalPercent == h'.totalPercent
    ensures Collect(c, now, h).result.Ok? == Collect(c, now, h').result.Ok?
  {
  }

  /** Changing what the per-core query answers changes at most the per-core field. */
  lemma PerCoreOutcomeIsolated(c: CPUCollector, now: Instant, h: Readings, outcome: Result<seq<Float>, OsError>)
    ensures var s, s' := Collect(c, now, h), Collect(c, now, h.(perCorePercent := outcome));
      s.result.Ok? == s'.result.Ok? && s.issued == s'.issued &&
      (s.result.Ok? ==> s'.result.value == s.result.value.(perCore := s'.result.value.perCore))
  {
  }

  /** Changing what the load query answers changes at most the load field. */
  lemma LoadOutcomeIsolated(c: CPUCollector, now: Instant, h: Readings, outcome: Result<AvgStat, OsError>)
    ensures var s, s' := Collect(c, now, h), Collect(c, now, h.(loadAvg := outcome));
      s.result.Ok? == s'.result.Ok? && s.issued == s'.issued &&
      (s.result.Ok? ==> s'.result.value == s.result.value.(loadAverage := s'.result.value.loadAverage))
  {
  }

  /** Changing what the core-count query answers changes at most the core-count field. */
  lemma CoreCountOutcomeIsolated(c: CPUCollector, now: Instant, h: Readings, outcome: Result<int, OsError>)
    ensures var s, s' := Collect(c, now, h), Collect(c, now, h.(logicalCount := outcome));
      s.result.Ok? == s'.result.Ok? && s.issued == s'.issued &&
      (s.result.Ok? ==> s'.result.value == s.result.value.(coreCount := s'.result.value.coreCount))
  {
  }

  /**
   * A failed enrichment and one that genuinely answered the sentinel value
   * produce the same outcome: the record alone cannot tell them apart.
   */
  lemma SentinelsIndistinguishable(c: CPUCollector, now: Instant, h: Readings, e: OsError)
    ensures Collect(c, now, h.(perCorePercent := Err(e))) == Collect(c, now, h.(perCorePercent := Ok([])))
    ensures Collect(c, now, h.(loadAvg := Err(e))) == Collect(c, now, h.(loadAvg := Ok(AvgStat(0.0, 0.0, 0.0))))
    ensures Collect(c, now, h.(logicalCount := Err(e))) == Collect(c, now, h.(logicalCount := Ok(0)))
  {
  }

  /**
   * The records a collector can produce at `now`: the envelope is fixed,
   * per-core values are empty unless enabled, nothing goes into `extra`, and
   * the total, per-core values, load triple and core count are otherwise
   * unconstrained, since none is validated or clamped.
   */
  predicate Producible(c: CPUCollector, now: Instant, rec: CPUMetrics)
  {
    rec.base == BaseMetric(now, c.hostname, "cpu") &&
    (c.collectPerCPU || rec.perCore == []) &&
    rec.extra == map[]
  }

  /** `Producible` describes exactly the records `Collect` returns. */
  lemma CollectImage(c: CPUCollector, now: Instant, rec: CPUMetrics)
    ensures Producible(c, now, rec) <==> exists h :: Collect(c, now, h).result == Ok(rec)
  {
    if Producible(c, now, rec) {
      var (l1, l5, l15) := rec.loadAverage;
      var h := Readings(Ok([rec.totalPercent]), Ok(rec.perCore), Ok(AvgStat(l1, l5, l15)), Ok(rec.coreCount));
      assert Collect(c, now, h).result == Ok(rec);
    }
  }

  /** Total [42.5], per-core disabled, load (1.2, 0.9, 0.5), 8 cores. */
  lemma ScenarioPerCoreDisabled(hostname: string, now: Instant, perCore: Result<seq<Float>, OsError>)
    ensures var c := CPUCollector(5_000_000_000, false, hostname);
      var h := Readings(Ok([42.5]), perCore, Ok(AvgStat(1.2, 0.9, 0.5)), Ok(8));
      Collect(c, now, h).result ==
        Ok(CPUMetrics(BaseMetric(now, hostname, "cpu"), 42.5, [], (1.2, 0.9, 0.5), 8, map[]))
  {
  }

  /** An empty total series fails the call with no record, whatever the enrichments answer. */
  lemma ScenarioEmptyTotalSeries(c: CPUCollector, now: Instant, h: Readings)
    requires h.totalPercent == Ok([])
    ensures Collect(c, now, h) == Sample(Err(CriticalMetricUnavailable(NoData)), [TotalPercentQuery])
  {
  }

  /** All queries succeed with per-core enabled on four cores: four entries in core order. */
  lemma ScenarioFourCores(hostname: string, now: Instant, a: Float, b: Float, d: Float, e: Float)
    ensures var c := CPUCollector(5_000_000_000, true, hostname);
      var h := Readings(Ok([30.0]), Ok([a, b, d, e]), Ok(AvgStat(0.3, 0.2, 0.1)), Ok(4));
      Collect(c, now, h).result.Ok? &&
      Collect(c, now, h).result.value.perCore == [a, b, d, e] &&
      Collect(c, now, h).result.value.coreCount == 4
  {
  }
}
