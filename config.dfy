/** Parameter records of the four agents with their default values (core/config.py). */
module Config {

  datatype MonitorConfig = MonitorConfig(
    windowSize: int := 30,
    zThreshold: real := 3.0,
    scoreThreshold: real := 3.5,
    minAbnormalMetrics: int := 1)

  datatype AnalystConfig = AnalystConfig(
    baseCpu: real := 0.55,
    baseMem: real := 0.55,
    baseLatency: real := 0.50,
    baseErrors: real := 0.60,
    baseUnknown: real := 0.25)
  {
    /** Every base likelihood is a probability. */
    predicate BasesInUnitInterval()
    {
      && 0.0 <= baseCpu <= 1.0
      && 0.0 <= baseMem <= 1.0
      && 0.0 <= baseLatency <= 1.0
      && 0.0 <= baseErrors <= 1.0
      && 0.0 <= baseUnknown <= 1.0
    }
  }

  datatype PlannerConfig = PlannerConfig(
    autoConfidenceThreshold: real := 0.75,
    autoRiskThreshold: real := 0.35)

  /** `rateLimitPerMinute` is carried but never read by the executor. */
  datatype ExecutorConfig = ExecutorConfig(
    cooldownSeconds: real := 10.0,
    rateLimitPerMinute: int := 6)

  /** The smallest window the rolling window accepts. */
  const MinWindowSize := 5

  /**
   * The defaults are usable as they stand: the window is large enough to
   * be constructed and every base likelihood is a probability.
   */
  lemma DefaultsAreUsable()
    ensures MonitorConfig().windowSize == 30 && MonitorConfig().windowSize >= MinWindowSize
    ensures MonitorConfig().zThreshold == 3.0 && MonitorConfig().scoreThreshold == 3.5
    ensures MonitorConfig().minAbnormalMetrics == 1
    ensures AnalystConfig().BasesInUnitInterval()
    ensures PlannerConfig().autoConfidenceThreshold == 0.75 && PlannerConfig().autoRiskThreshold == 0.35
    ensures ExecutorConfig().cooldownSeconds == 10.0
  {
  }
}
