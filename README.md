# CPU collector of the qubeley host-metrics agent, in Dafny

qubeley samples operating-system CPU counters and emits timestamped
`CPUMetrics` records. Its core is the CPU collector
(`internal/collectors/cpu.go`). The collector's configuration (interval,
per-core flag, hostname) is fixed at construction. `Collect` applies a
two-tier error policy:

- The total-CPU-percent query is **critical**. If it errors, or answers an
  empty series, the call fails with `CriticalMetricUnavailable` and produces
  no record. No other query is issued.
- The per-core, load-average and core-count queries are **enrichments**.
  Each failure is absorbed into a sentinel: empty per-core values,
  `(0, 0, 0)` load, or `0` cores. It never becomes an error.

The model is pure, as the source is: datatypes for the record shapes and the
configuration, and functions from (configuration, clock reading, query
answers) to a result.

Files:

- `results.dfy`: `Result`, standing for Go's `(value, error)` pairs.
- `models.dfy`: `BaseMetric` and `CPUMetrics` (`internal/models/metrics.go`).
- `host_queries.dfy`: the four OS queries. `Readings` holds what each would
  answer. `Probe` pairs a value with the queries issued to obtain it, so the
  model can say which queries a call makes and in what order.
- `cpu_collector.dfy`: `NewCPUCollector`, `Name`, `Interval`, the four query
  helpers and `Collect`.
- `cpu_collector_properties.dfy`: the lemmas. `CollectImage` describes
  exactly which records `Collect` can return.

## Model

| member | source | states |
|---|---|---|
| `Collectors.NewCPUCollector` | internal/collectors/cpu.go:24-36 | Construction never returns an error. It stores the interval and the per-core flag as given. The hostname is the looked-up name, or "unknown" when the lookup fails. |
| `Collectors.Name` | internal/collectors/cpu.go:39-41 | The identifier is non-empty and lower-case. |
| `CpuCollectorProperties.IntervalIsConfigured` | internal/collectors/cpu.go:44-46 | `Interval` returns the interval given to the constructor, unchanged. |
| `Collectors.ErrorMessage` | internal/collectors/cpu.go:53-56 | Every `Collect` error text starts with "failed to get CPU percent: ". For a failed query the prefix is followed by the OS error's own text. For an empty series the text names the missing data. |
| `Collectors.GetTotalPercent` | internal/collectors/cpu.go:79-90 | Issues only the total query. Yields a value exactly when the query succeeds with a non-empty series, and that value is the first element. An error is wrapped as the cause; an empty series gives `NoData`. |
| `Collectors.GetPerCorePercent` | internal/collectors/cpu.go:94-107 | Issues the per-core query, once, exactly when per-core collection is enabled, and no other query. A non-empty result is always the query's own successful answer. When enabled and successful, the answer is returned unchanged. |
| `Collectors.GetLoadAverage` | internal/collectors/cpu.go:111-118 | A failure gives `(0,0,0)`. A success gives `(Load1, Load5, Load15)` in that order. |
| `Collectors.GetCoreCount` | internal/collectors/cpu.go:122-129 | A failure gives 0. A success gives the count. |
| `Collectors.Collect` | internal/collectors/cpu.go:50-75 | The call fails exactly when the total query errors or answers an empty series. The error names which of the two happened. A failing call has issued only the total query. |
| `CpuCollectorProperties.TotalPercentPassedThrough` | internal/collectors/cpu.go:85-89 | A non-empty total series always yields a record. Its `TotalPercent` is the series' first value, with no clamping. |
| `CpuCollectorProperties.EnvelopeOfEveryRecord` | internal/collectors/cpu.go:62-67 | Every record has `MetricType == Name() == "cpu"`, the collector's hostname, the clock reading taken at the start of the call, and an empty `Extra`. |
| `CpuCollectorProperties.HostnameFixedAtConstruction` | internal/collectors/cpu.go:24-35 | Every record from a constructed collector carries the looked-up hostname, or "unknown" when the lookup failed. |
| `CpuCollectorProperties.PerCoreFollowsConfiguration` | internal/collectors/cpu.go:94-107 | Disabled: `PerCore` is empty whatever the query would answer, and the query is not issued. Enabled: `PerCore` is the answer unchanged on success and empty on failure. |
| `CpuCollectorProperties.LoadAverageSentinel` | internal/collectors/cpu.go:111-118 | In a record, a failed load query gives exactly `(0,0,0)`. A success gives `(Load1, Load5, Load15)`. |
| `CpuCollectorProperties.CoreCountSentinel` | internal/collectors/cpu.go:122-129 | In a record, a failed core-count query gives 0. A success gives the count. |
| `CpuCollectorProperties.QueriesIssuedInOrder` | internal/collectors/cpu.go:53-60 | A successful call issues the queries in this order: total, per-core (only when enabled), load average, core count. Each is issued once. |
| `CpuCollectorProperties.SuccessDependsOnlyOnTotal` | internal/collectors/cpu.go:53-60 | Two calls whose total queries answer the same either both succeed or both fail, whatever the enrichments answer. |
| `CpuCollectorProperties.PerCoreOutcomeIsolated` | internal/collectors/cpu.go:58-72 | Changing only the per-core answer changes neither success nor the queries issued. In the record it changes at most `PerCore`. |
| `CpuCollectorProperties.LoadOutcomeIsolated` | internal/collectors/cpu.go:58-72 | Changing only the load answer changes neither success nor the queries issued. In the record it changes at most `LoadAverage`. |
| `CpuCollectorProperties.CoreCountOutcomeIsolated` | internal/collectors/cpu.go:58-72 | Changing only the core-count answer changes neither success nor the queries issued. In the record it changes at most `CoreCount`. |
| `CpuCollectorProperties.SentinelsIndistinguishable` | internal/collectors/cpu.go:99-129 | A failed enrichment yields the same outcome as a genuine answer equal to its sentinel: empty per-core, `(0,0,0)` load, 0 cores. |
| `CpuCollectorProperties.CollectImage` | internal/collectors/cpu.go:62-72 | A record can be returned by `Collect` if and only if its envelope is (now, hostname, "cpu"), `PerCore` is empty unless enabled, and `Extra` is empty. Total, per-core values, load and core count are otherwise unconstrained. |
| `CpuCollectorProperties.ScenarioPerCoreDisabled` | internal/collectors/cpu.go:50-75 | Total `[42.5]`, per-core disabled, load `(1.2, 0.9, 0.5)` and 8 cores give exactly the record `{42.5, [], (1.2,0.9,0.5), 8}`. |
| `CpuCollectorProperties.ScenarioEmptyTotalSeries` | internal/collectors/cpu.go:79-87 | An empty total series fails with `CriticalMetricUnavailable(NoData)` and issues only the total query. |
| `CpuCollectorProperties.ScenarioFourCores` | internal/collectors/cpu.go:94-107 | With per-core enabled on four cores, `PerCore` holds the four answers in core order. |

## Left out

- The library and OS calls (`cpu.Percent`, `load.Avg`, `cpu.Counts`, `os.Hostname`, `time.Now`) are foreign code. What they answer is an input (`Readings`, the hostname lookup, `now`).
- The one-second blocking sampling window of the total query is a timing cost with no logic in it.
- The warning printed when the per-core query fails goes to a diagnostic channel, not to the record.
- `Collectors.Collect` returns the concrete `CPUMetrics` record. The Go interface (`internal/collectors/collector.go`) returns it as `interface{}`. The interface itself is not modelled as a Dafny type: `Name`, `Interval` and `Collect` are plain functions of the one implementation.
- `Collectors.GetPerCorePercent`: Go distinguishes a nil slice from an empty non-nil slice. Both are modelled as `[]`; the record's JSON encoding (`omitempty`) treats them the same.
- `float64` values are `real`. They are only passed through, so rounding, NaN and infinities play no part.
- `time.Time` and `time.Duration` are integers that are only passed through. Whether a record's timestamp is no earlier than process start depends on the wall clock and is not modelled. The model proves only that the timestamp is the clock reading taken at the start of the call.
- JSON field tags and `omitempty` serialisation belong to the encoding library.
- `cmd/qubeley/main.go` is not part of this model: it is process bootstrap and printing.
- `internal/collector/collector.go` and `internal/collector/cpu.go` are not part of this model. They are unused interface drafts that nothing implements.
