/**
 * The planner agent (agents/planner.py): it maps the top hypothesis to an
 * action, prices it by confidence and risk, and lets it through only when
 * the policy gate allows; otherwise it escalates.
 */
module Planner {
  import opened Numeric
  import opened Types
  import opened Config
  import Memory
  import Analyst

  /** The action the table proposes for a hypothesis, with its base confidence and risk. */
  datatype Proposal = Proposal(action: string, baseConf: real, baseRisk: real)

  /** The planner's lookup table from the top hypothesis. */
  function Propose(top: Hypothesis): (p: Proposal)
    ensures p.action == Scale || p.action == Restart || p.action == Rollback || p.action == Escalate
    ensures 0.0 <= top.likelihood <= 1.0 ==> 0.0 <= p.baseConf <= 1.0
    ensures 0.0 <= p.baseRisk <= 1.0
  {
    if top.name == CpuSaturation then Proposal(Scale, Min(0.95, top.likelihood + 0.10), 0.25)
    else if top.name == MemoryPressure then Proposal(Restart, Min(0.90, top.likelihood + 0.05), 0.30)
    else if top.name == ErrorBurst then Proposal(Rollback, Min(0.92, top.likelihood + 0.08), 0.32)
    else if top.name == NetworkLatency then Proposal(Escalate, top.likelihood, 0.15)
    else Proposal(Escalate, top.likelihood, 0.20)
  }

  /** The table never proposes `noop`, so the policy gate applies to every proposal. */
  lemma ProposalNeverNoop(top: Hypothesis)
    ensures Propose(top).action != Noop
  {
  }

  /** The risk of acting: the base risk plus 0.05 for each abnormal metric beyond the first, capped at 1. */
  function Risk(baseRisk: real, abnormalCount: int): (r: real)
    ensures 0.0 <= baseRisk ==> 0.0 <= r
    ensures r <= 1.0
  {
    Min(1.0, baseRisk + 0.05 * (BeyondFirst(abnormalCount) as real))
  }

  /** The risk never falls as more metrics turn abnormal. */
  lemma RiskGrowsWithAbnormalCount(baseRisk: real, c: int, d: int)
    requires c <= d
    ensures Risk(baseRisk, c) <= Risk(baseRisk, d)
    ensures c <= 1 ==> Risk(baseRisk, c) == Min(1.0, baseRisk)
  {
  }

  /** Whether the policy gate lets a proposal act on its own. */
  predicate AutoOk(cfg: PlannerConfig, conf: real, risk: real)
  {
    conf >= cfg.autoConfidenceThreshold && risk <= cfg.autoRiskThreshold
  }

  /** The decision for a proposal priced at `conf` and `risk`. */
  function Decide(cfg: PlannerConfig, now: real, top: Hypothesis, sig: string, p: Proposal, conf: real, risk: real): (d: PlanDecision)
    ensures d.ts == now && d.confidence == conf && d.risk == risk
    ensures d.metadata.Keys >= {"signature", "top_hypothesis"}
    ensures d.metadata["signature"] == sig && d.metadata["top_hypothesis"] == top.name
    ensures "proposed_action" in d.metadata <==> !AutoOk(cfg, conf, risk) && p.action != Noop
    ensures "proposed_action" in d.metadata ==> d.action == Escalate && d.metadata["proposed_action"] == p.action
    ensures "proposed_action" !in d.metadata ==> d.action == p.action
  {
    if !AutoOk(cfg, conf, risk) && p.action != Noop then
      PlanDecision(now, Escalate, conf, risk, PolicyBlocked(p.action, conf, risk),
                   map["proposed_action" := p.action, "signature" := sig, "top_hypothesis" := top.name])
    else
      PlanDecision(now, p.action, conf, risk, ChosenAction(p.action, top.name, conf, risk),
                   map["signature" := sig, "top_hypothesis" := top.name])
  }

  class PlannerAgent {
    const cfg: PlannerConfig
    const memory: Memory.MemoryStore

    constructor(cfg: PlannerConfig, memory: Memory.MemoryStore)
      ensures this.cfg == cfg && this.memory == memory
    {
      this.cfg := cfg;
      this.memory := memory;
    }

    /** The confidence of a proposal: `bias` of its base confidence with maximum boost 0.20. */
    function Confidence(sig: string, p: Proposal): real
      reads memory
    {
      memory.Bias(sig, p.action, p.baseConf, 0.20)
    }

    /**
     * `plan`: the proposed action if the gate allows it, `escalate` with the
     * proposal recorded otherwise. An action other than `escalate` is only
     * ever chosen with enough confidence and little enough risk; risk is in
     * [0,1]; for a top likelihood in [0,1], so is the confidence, which
     * memory never pushes below the table's base confidence.
     */
    function Plan(analysis: AnalysisReport, now: real): (d: PlanDecision)
      reads memory
      requires analysis.hypotheses != []
      ensures var top := analysis.hypotheses[0];
        var p := Propose(top);
        && d.ts == now
        && "signature" in d.metadata && "top_hypothesis" in d.metadata
        && d.metadata["signature"] == Analyst.Signature(analysis.anomaly)
        && d.metadata["top_hypothesis"] == top.name
        && d.confidence == Confidence(Analyst.Signature(analysis.anomaly), p)
        && d.risk == Risk(p.baseRisk, |analysis.anomaly.abnormalMetrics|)
        && (AutoOk(cfg, d.confidence, d.risk) ==> d.action == p.action && "proposed_action" !in d.metadata)
        && (!AutoOk(cfg, d.confidence, d.risk) ==> d.action == Escalate && "proposed_action" in d.metadata && d.metadata["proposed_action"] == p.action)
        && (d.action != Escalate ==> AutoOk(cfg, d.confidence, d.risk))
        && 0.0 <= d.risk <= 1.0
        && (0.0 <= top.likelihood <= 1.0 ==> p.baseConf <= d.confidence && 0.0 <= d.confidence <= 1.0)
    {
      var top := analysis.hypotheses[0];
      var sig := Analyst.Signature(analysis.anomaly);
      var p := Propose(top);
      var conf := memory.Bias(sig, p.action, p.baseConf, 0.20);
      var risk := Risk(p.baseRisk, |analysis.anomaly.abnormalMetrics|);
      ProposalNeverNoop(top);
      Decide(cfg, now, top, sig, p, conf, risk)
    }
  }

  /**
   * With the default configuration, a top cpu_saturation hypothesis at 0.55,
   * one abnormal metric and fewer than two matching records in memory, the
   * plan proposes `scale` at confidence 0.65 and risk 0.25; 0.65 is below
   * the 0.75 gate, so it escalates.
   */
  lemma CpuExampleEscalates(planner: PlannerAgent, analysis: AnalysisReport, now: real)
    requires planner.cfg == PlannerConfig()
    requires analysis.hypotheses != [] && analysis.hypotheses[0].name == CpuSaturation
    requires analysis.hypotheses[0].likelihood == 0.55
    requires |analysis.anomaly.abnormalMetrics| == 1
    requires Memory.Tally(Memory.LoadedRows(planner.memory.file, Memory.LoadLimit),
                          Analyst.Signature(analysis.anomaly), Scale).1 < 2
    ensures var d := planner.Plan(analysis, now);
      d.confidence == 0.65 && d.risk == 0.25 && d.action == Escalate && d.metadata["proposed_action"] == Scale
  {
  }
}
