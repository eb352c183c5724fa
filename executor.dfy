/**
 * The executor agent (agents/executor.py) and the action log it writes
 * to (core/logger.py): a cooldown-guarded state machine that applies the
 * planned action to the cluster state in place.
 */
module Executor {
  import opened Types
  import opened Config

  /** The fields of the cluster-state dictionary the pipeline keeps. */
  datatype Cluster = Cluster(replicas: int, version: string, health: string)

  /** The version a rollback returns to. */
  const RollbackVersion := "v0"

  /** One line of the action log: `{"ts", "event", "payload": {action, outcome, cluster_state}}`. */
  datatype LogEntry = LogEntry(ts: real, event: string, action: string, outcome: string, cluster: Cluster)

  /** `ActionLogger`: an append-only sink of log entries. */
  class ActionLogger {
    var entries: seq<LogEntry>

    constructor()
      ensures entries == []
    {
      entries := [];
    }

    method Log(entry: LogEntry)
      modifies this
      ensures entries == old(entries) + [entry]
    {
      entries := entries + [entry];
    }
  }

  /** The cluster-state dictionary, changed in place by the executor. */
  class ClusterState {
    var replicas: int
    var version: string
    var health: string

    constructor(replicas: int, version: string, health: string)
      ensures this.replicas == replicas && this.version == version && this.health == health
    {
      this.replicas := replicas;
      this.version := version;
      this.health := health;
    }

    function Snapshot(): Cluster
      reads this
    {
      Cluster(replicas, version, health)
    }
  }

  /** What carrying out `action` does: the new cluster, the reported changes and the outcome text. */
  datatype Effect = Effect(cluster: Cluster, changed: map<string, Value>, outcome: string)

  /**
   * The action dispatch. `changed` names exactly the fields the action
   * wrote, each with its new value; replicas never decrease, only `scale`
   * changes them, only `rollback` changes the version, and nothing
   * changes the health field.
   */
  function Dispatch(action: string, c: Cluster): (e: Effect)
    ensures e.cluster.health == c.health
    ensures e.cluster.replicas >= c.replicas
    ensures e.cluster.replicas != c.replicas <==> action == Scale
    ensures action != Rollback ==> e.cluster.version == c.version
    ensures "replicas" in e.changed <==> action == Scale
    ensures "version" in e.changed <==> action == Rollback
    ensures e.changed.Keys <= {"replicas", "version"}
    ensures "replicas" in e.changed ==> e.changed["replicas"] == IntValue(e.cluster.replicas)
    ensures "version" in e.changed ==> e.changed["version"] == StrValue(e.cluster.version)
  {
    if action == Scale then
      Effect(c.(replicas := c.replicas + 1), map["replicas" := IntValue(c.replicas + 1)], "scaled_up")
    else if action == Restart then
      Effect(c, map[], "service_restarted")
    else if action == Rollback then
      Effect(c.(version := RollbackVersion), map["version" := StrValue(RollbackVersion)], "rollback_complete")
    else if action == Escalate then
      Effect(c, map[], "incident_escalated")
    else
      Effect(c, map[], "noop")
  }

  /** The outcome texts, one per action. */
  lemma DispatchOutcomes(action: string, c: Cluster)
    ensures action == Scale ==> Dispatch(action, c).outcome == "scaled_up" && Dispatch(action, c).cluster.replicas == c.replicas + 1
    ensures action == Restart ==> Dispatch(action, c) == Effect(c, map[], "service_restarted")
    ensures action == Rollback ==> Dispatch(action, c).outcome == "rollback_complete" && Dispatch(action, c).cluster.version == RollbackVersion
    ensures action == Escalate ==> Dispatch(action, c) == Effect(c, map[], "incident_escalated")
    ensures action != Scale && action != Restart && action != Rollback && action != Escalate ==>
      Dispatch(action, c) == Effect(c, map[], "noop")
  {
  }

  /** The executor's state: the time of its last action, the cluster and the log. */
  datatype State = State(lastActionTime: real, cluster: Cluster, log: seq<LogEntry>)

  predicate Cooling(cfg: ExecutorConfig, lastActionTime: real, now: real)
  {
    now - lastActionTime < cfg.cooldownSeconds
  }

  /** One `execute(decision)` at time `now`: the state after it and its result. */
  function Step(cfg: ExecutorConfig, s: State, action: string, now: real): (State, ActionResult)
  {
    if Cooling(cfg, s.lastActionTime, now) then
      (s, ActionResult(now, Noop, false, "cooldown_active"))
    else
      var e := Dispatch(action, s.cluster);
      (State(now, e.cluster, s.log + [LogEntry(now, "execute", action, e.outcome, e.cluster)]),
       ActionResult(now, action, true, e.outcome, e.changed))
  }

  /**
   * A call succeeds exactly when it is not within the cooldown. A blocked
   * call reports `noop` with `cooldown_active` and changes nothing; any
   * other call acts on the cluster, records `now` as its last action time,
   * writes exactly one `execute` log entry and reports the planned action.
   */
  lemma StepSucceedsUnlessCooling(cfg: ExecutorConfig, s: State, action: string, now: real)
    ensures var (t, r) := Step(cfg, s, action, now);
      && r.ts == now
      && (r.success <==> !Cooling(cfg, s.lastActionTime, now))
      && (!r.success ==> t == s && r.action == Noop && r.outcome == "cooldown_active" && r.changed == map[])
      && (r.success ==>
            && r.action == action && t.lastActionTime == now
            && t.cluster == Dispatch(action, s.cluster).cluster
            && |t.log| == |s.log| + 1 && t.log[..|s.log|] == s.log
            && t.log[|s.log|].event == "execute" && t.log[|s.log|].cluster == t.cluster)
  {
    var (t, r) := Step(cfg, s, action, now);
    if r.success {
      assert t.log[..|s.log|] == s.log;
    }
  }

  /**
   * Of two calls less than the cooldown apart, if the first acted then the
   * second is blocked and leaves the cluster as the first left it.
   */
  lemma SecondCallWithinCooldownBlocked(cfg: ExecutorConfig, s: State, a1: string, t1: real, a2: string, t2: real)
    requires t2 - t1 < cfg.cooldownSeconds
    requires Step(cfg, s, a1, t1).1.success
    ensures var s1 := Step(cfg, s, a1, t1).0;
      var (s2, r2) := Step(cfg, s1, a2, t2);
      !r2.success && r2.action == Noop && s2 == s1 && s2.cluster == Dispatch(a1, s.cluster).cluster
  {
  }

  /** The state after a run of calls, each an action and the time it is made. */
  function Run(cfg: ExecutorConfig, s: State, calls: seq<(string, real)>): State
    decreases |calls|
  {
    if calls == [] then s
    else Run(cfg, Step(cfg, s, calls[0].0, calls[0].1).0, calls[1..])
  }

  /**
   * Over any run of calls the replica count never falls, the health field
   * never changes and the log only grows at its end.
   */
  lemma {:induction false} RunKeepsInvariants(cfg: ExecutorConfig, s: State, calls: seq<(string, real)>)
    ensures var t := Run(cfg, s, calls);
      && t.cluster.replicas >= s.cluster.replicas
      && t.cluster.health == s.cluster.health
      && |t.log| >= |s.log| && t.log[..|s.log|] == s.log
    decreases |calls|
  {
    if calls != [] {
      var s1 := Step(cfg, s, calls[0].0, calls[0].1).0;
      StepSucceedsUnlessCooling(cfg, s, calls[0].0, calls[0].1);
      RunKeepsInvariants(cfg, s1, calls[1..]);
      var t := Run(cfg, s, calls);
      assert t.log[..|s1.log|][..|s.log|] == t.log[..|s.log|];
    }
  }

  class ExecutorAgent {
    const cfg: ExecutorConfig
    const logger: ActionLogger
    var lastActionTime: real

    constructor(cfg: ExecutorConfig, logger: ActionLogger)
      ensures this.cfg == cfg && this.logger == logger && lastActionTime == 0.0
    {
      this.cfg := cfg;
      this.logger := logger;
      lastActionTime := 0.0;
    }

    /** `execute`: one step of the state machine on the live cluster and log. */
    method Execute(decision: PlanDecision, cluster: ClusterState, now: real) returns (result: ActionResult)
      modifies this, cluster, logger
      ensures var (t, r) := Step(cfg, State(old(lastActionTime), old(cluster.Snapshot()), old(logger.entries)), decision.action, now);
        && result == r
        && lastActionTime == t.lastActionTime
        && cluster.Snapshot() == t.cluster
        && logger.entries == t.log
    {
      if now - lastActionTime < cfg.cooldownSeconds {
        return ActionResult(now, Noop, false, "cooldown_active");
      }
      var action := decision.action;
      var changed := map[];
      var outcome;
      if action == Scale {
        cluster.replicas := cluster.replicas + 1;
        changed := changed["replicas" := IntValue(cluster.replicas)];
        outcome := "scaled_up";
      } else if action == Restart {
        outcome := "service_restarted";
      } else if action == Rollback {
        cluster.version := RollbackVersion;
        changed := changed["version" := StrValue(cluster.version)];
        outcome := "rollback_complete";
      } else if action == Escalate {
        outcome := "incident_escalated";
      } else {
        outcome := "noop";
      }
      lastActionTime := now;
      logger.Log(LogEntry(now, "execute", action, outcome, cluster.Snapshot()));
      result := ActionResult(now, action, true, outcome, changed);
    }
  }
}
