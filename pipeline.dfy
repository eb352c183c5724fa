/**
 * One tick of the agent loop (run_agent.py): observe and detect; on an
 * anomaly, analyse, plan, execute and record the outcome in memory.
 */
module Pipeline {
  import opened Wrappers
  import opened Types
  import opened Config
  import opened RollingWindows
  import opened Monitor
  import opened Analyst
  import opened Planner
  import opened Executor
  import opened Memory

  class Agents {
    const monitor: MonitorAgent
    const analyst: AnalystAgent
    const planner: PlannerAgent
    const executor: ExecutorAgent
    const memory: MemoryStore
    const logger: ActionLogger
    const cluster: ClusterState

    ghost predicate Valid()
      reads this, monitor, monitor.window
    {
      && monitor.Valid()
      && analyst.memory == memory && planner.memory == memory
      && executor.logger == logger
    }

    constructor(monitor: MonitorAgent, analyst: AnalystAgent, planner: PlannerAgent, executor: ExecutorAgent,
                memory: MemoryStore, logger: ActionLogger, cluster: ClusterState)
      requires monitor.Valid()
      requires analyst.memory == memory && planner.memory == memory && executor.logger == logger
      ensures Valid()
      ensures this.monitor == monitor && this.analyst == analyst && this.planner == planner
      ensures this.executor == executor && this.memory == memory && this.logger == logger && this.cluster == cluster
    {
      this.monitor := monitor;
      this.analyst := analyst;
      this.planner := planner;
      this.executor := executor;
      this.memory := memory;
      this.logger := logger;
      this.cluster := cluster;
    }

    /**
     * One tick. The window is pushed and the point assessed; only an
     * anomaly sets the rest of the pipeline in motion. Then the decision is
     * the plan for the analyst's report, the executor takes one step of its
     * state machine on that decision, and the outcome is learnt under the
     * anomaly's signature; an action other than `escalate` is carried out
     * only if the plan chose it through the policy gate.
     */
    method Tick(point: MetricPoint, now: real, sqrt: real -> real, metadata: map<string, string>)
      returns (anomaly: AnomalyReport, acted: Option<(PlanDecision, ActionResult)>)
      requires Valid()
      modifies monitor.window, executor, cluster, logger, memory
      ensures Valid()
      ensures monitor.window.buf == Pushed(old(monitor.window.buf), AsDict(point), monitor.cfg.windowSize)
      ensures anomaly == Detection(monitor.cfg, monitor.window.buf, point, sqrt)
      ensures !anomaly.isAnomaly ==>
        acted.None? && unchanged(executor, cluster, logger, memory)
      ensures anomaly.isAnomaly ==> acted.Some?
      ensures acted.Some? ==>
        var (d, r) := acted.value;
        && d == old(planner.Plan(Report(analyst.cfg, memory, anomaly, now), now))
        && var (t, r') := Step(executor.cfg, State(old(executor.lastActionTime), old(cluster.Snapshot()), old(logger.entries)), d.action, now);
        && r == r'
        && executor.lastActionTime == t.lastActionTime
        && cluster.Snapshot() == t.cluster
        && logger.entries == t.log
        && (r.success ==> r.action == d.action)
        && (r.success && r.action != Escalate ==> AutoOk(planner.cfg, d.confidence, d.risk))
        && memory.file == Some(LinesOf(old(memory.file))
             + [Some(MemoryRecord(now, Signature(anomaly), r.action, r.success, r.outcome, metadata))])
    {
      monitor.Observe(point);
      anomaly := monitor.Detect(point, sqrt);
      if !anomaly.isAnomaly {
        return anomaly, None;
      }
      ghost var buf := monitor.window.buf;
      var acting := Respond(anomaly, point, now, metadata);
      acted := Some(acting);
      assert monitor.window.buf == buf;
    }

    /** Analyse, plan, execute and learn for one anomaly. */
    method Respond(anomaly: AnomalyReport, point: MetricPoint, now: real, metadata: map<string, string>)
      returns (acting: (PlanDecision, ActionResult))
      requires Valid()
      modifies executor, cluster, logger, memory
      ensures Valid()
      ensures var (d, r) := acting;
        && d == old(planner.Plan(Report(analyst.cfg, memory, anomaly, now), now))
        && var (t, r') := Step(executor.cfg, State(old(executor.lastActionTime), old(cluster.Snapshot()), old(logger.entries)), d.action, now);
        && r == r'
        && executor.lastActionTime == t.lastActionTime
        && cluster.Snapshot() == t.cluster
        && logger.entries == t.log
        && (r.success ==> r.action == d.action)
        && (r.success && r.action != Escalate ==> AutoOk(planner.cfg, d.confidence, d.risk))
        && memory.file == Some(LinesOf(old(memory.file))
             + [Some(MemoryRecord(now, Signature(anomaly), r.action, r.success, r.outcome, metadata))])
    {
      var analysis := analyst.Analyze(anomaly, AsDict(point), now);
      var decision := planner.Plan(analysis, now);
      var result := executor.Execute(decision, cluster, now);
      memory.Append(Signature(anomaly), result.action, result.success, result.outcome, Some(metadata), now);
      acting := (decision, result);
    }
  }

  /**
   * End to end with the default configuration and an empty memory: an
   * anomaly on cpu alone yields the single cpu_saturation hypothesis at
   * 0.55, and the planner proposes `scale` at confidence 0.65 and risk 0.25,
   * which the gate turns into `escalate`.
   */
  lemma CpuOnlyAnomalyEscalates(analyst: AnalystAgent, planner: PlannerAgent, anomaly: AnomalyReport, now: real)
    requires analyst.cfg == AnalystConfig() && planner.cfg == PlannerConfig()
    requires analyst.memory == planner.memory && planner.memory.file == None
    requires anomaly.abnormalMetrics.Keys == {Cpu}
    ensures var a := Report(analyst.cfg, analyst.memory, anomaly, now);
      var d := planner.Plan(a, now);
      && a.hypotheses == [Hypothesis(CpuSaturation, 0.55, [ZScoreNote(Cpu, anomaly.abnormalMetrics[Cpu])])]
      && d.confidence == 0.65 && d.risk == 0.25
      && d.action == Escalate && d.metadata["proposed_action"] == Scale
  {
    var memory := analyst.memory;
    var ab := anomaly.abnormalMetrics;
    var cfg := AnalystConfig();
    var b := MemoryBoosts(memory, Signature(anomaly));
    assert b == Boosts(0.0, 0.0, 0.0);
    var g := Generated(cfg, ab);
    assert g == [HypothesisFor(cfg, ab, Cpu)];
    var adjusted := AdjustedAll(g, ab, b);
    assert adjusted == [Hypothesis(CpuSaturation, 0.55, [ZScoreNote(Cpu, ab[Cpu])])];
    assert SortDesc(adjusted) == adjusted;
    var a := Report(cfg, memory, anomaly, now);
    assert |ab| == 1;
    CpuExampleEscalates(planner, a, now);
  }
}
