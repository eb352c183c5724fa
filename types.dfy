/**
 * The records passed between the stages of one tick (core/types.py).
 * Dataclass defaults are datatype-constructor defaults. Free-text fields
 * (the reason, the evidence, the summary, the rationale) keep their
 * structure only: which tag, which keys, which numbers they mention.
 */
module Types {
  import Text

  // Names of the four metrics a sample carries.
  const Cpu := "cpu"
  const Mem := "mem"
  const LatMs := "lat_ms"
  const Err := "err"

  // The actions a plan can name.
  const Restart := "restart"
  const Scale := "scale"
  const Rollback := "rollback"
  const Escalate := "escalate"
  const Noop := "noop"

  // The hypotheses the analyst can raise.
  const CpuSaturation := "cpu_saturation"
  const MemoryPressure := "memory_pressure_or_leak"
  const NetworkLatency := "network_latency_or_downstream_slow"
  const ErrorBurst := "error_burst_or_bad_deploy"
  const UnknownAnomaly := "unknown_anomaly"

  /** One tick of the external metric source. */
  datatype MetricPoint = MetricPoint(
    ts: real,
    cpu: real,
    mem: real,
    latMs: real,
    err: real,
    replicas: int,
    version: string)

  /** `MetricPoint.as_dict`: the four metrics keyed by name. */
  function AsDict(p: MetricPoint): (m: map<string, real>)
    ensures m.Keys == {Cpu, Mem, LatMs, Err}
    ensures m[Cpu] == p.cpu && m[Mem] == p.mem && m[LatMs] == p.latMs && m[Err] == p.err
  {
    map[Cpu := p.cpu, Mem := p.mem, LatMs := p.latMs, Err := p.err]
  }

  /**
   * The reason tag of an anomaly report: "warming_up", "normal", or
   * "zscore_spike(<keys joined by ','>) score=<score>".
   */
  datatype Reason = WarmingUp | Normal | ZScoreSpike(keys: seq<string>, score: real)
  {
    /** The text of the tag up to the score, which is printed to two decimals. */
    function Head(): string
    {
      match this
      case WarmingUp => "warming_up"
      case Normal => "normal"
      case ZScoreSpike(keys, _) => "zscore_spike(" + Text.Join(keys, ",") + ")"
    }
  }

  /**
   * The three reason tags read apart: `warming_up` and `normal` are
   * exactly the texts of their cases, and a spike's text starts with
   * `zscore_spike(` followed by its keys joined by commas.
   */
  lemma ReasonHeads(r: Reason)
    ensures r.Head() == "warming_up" <==> r.WarmingUp?
    ensures r.Head() == "normal" <==> r.Normal?
    ensures r.ZScoreSpike? ==>
      var prefix := "zscore_spike(";
      && |prefix| <= |r.Head()|
      && r.Head()[..|prefix|] == prefix
      && r.Head()[|prefix|..] == Text.Join(r.keys, ",") + ")"
  {
    if r.ZScoreSpike? {
      var prefix := "zscore_spike(";
      var h := r.Head();
      assert h == prefix + (Text.Join(r.keys, ",") + ")");
      assert h[..|prefix|] == prefix;
      assert h[0] == 'z';
      assert h != "warming_up" && h != "normal";
    }
  }

  /** `abnormalMetrics` maps a metric name to its signed z-score. */
  datatype AnomalyReport = AnomalyReport(
    ts: real,
    isAnomaly: bool,
    anomalyScore: real,
    abnormalMetrics: map<string, real>,
    windowSize: int,
    reason: Reason := Normal)

  /** One evidence line of a hypothesis. */
  datatype Evidence =
    | ZScoreNote(metric: string, z: real)      // "<metric> z=<z>"
    | AbnormalNote(keys: set<string>)          // "abnormal=[<keys>]"
    | CoupledErrLat                            // "coupled(ERR+LAT)"

  datatype Hypothesis = Hypothesis(
    name: string,
    likelihood: real,
    evidence: seq<Evidence> := [])

  /** "Top: <name> (<likelihood>)" */
  datatype Summary = Top(name: string, likelihood: real)

  datatype AnalysisReport = AnalysisReport(
    ts: real,
    anomaly: AnomalyReport,
    hypotheses: seq<Hypothesis>,
    summary: Summary)

  /** The two rationale texts a plan can carry. */
  datatype Rationale =
    | PolicyBlocked(proposed: string, conf: real, risk: real)
    | ChosenAction(action: string, topName: string, conf: real, risk: real)

  datatype PlanDecision = PlanDecision(
    ts: real,
    action: string,
    confidence: real,
    risk: real,
    rationale: Rationale,
    metadata: map<string, string> := map[])

  /** A value reported in `ActionResult.changed`. */
  datatype Value = IntValue(i: int) | StrValue(s: string)

  datatype ActionResult = ActionResult(
    ts: real,
    action: string,
    success: bool,
    outcome: string,
    changed: map<string, Value> := map[],
    latencyMs: real := 0.0)
}
