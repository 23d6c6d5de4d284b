/** The metric record shapes of internal/models/metrics.go. */
module Models {

  /** A wall-clock instant (`time.Time`); the model only passes it through. */
  type Instant = int

  /** A `float64` reading (a percentage or a load); never computed on, only passed through. */
  type Float = real

  /** The envelope every metric record carries. */
  datatype BaseMetric = BaseMetric(timestamp: Instant, hostname: string, metricType: string)

  /** A Go `[3]float64`: the 1-, 5- and 15-minute load averages, in that order. */
  type LoadTriple = (Float, Float, Float)

  /** The all-zero load triple, meaning "not available". */
  const NoLoad: LoadTriple := (0.0, 0.0, 0.0)

  /** The CPU record; `base` is the embedded `BaseMetric`. */
  datatype CPUMetrics = CPUMetrics(
    base: BaseMetric,
    totalPercent: Float,
    perCore: seq<Float>,
    loadAverage: LoadTriple,
    coreCount: int,
    extra: map<string, Float>)
}
