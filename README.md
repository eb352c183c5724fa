# AIOps decision pipeline: a Dafny model

This project models the deterministic core of an autonomous AIOps agent. On
every metric tick the agent runs detect → analyse → plan → execute → learn:

- **RollingWindow** (`rolling_window.dfy`) keeps one bounded FIFO buffer of
  samples per metric (`deque(maxlen=W)`). It answers readiness, per-metric
  mean and population standard deviation, and z-scores. The buffers are a
  `map<string, seq<real>>` field that `Push` reassigns.
- **MonitorAgent** (`monitor.dfy`) pushes each point into its window. It
  turns the z-scores into an `AnomalyReport` using:
  - the abnormal-set filter `|z| >= z_threshold`;
  - the score `max|z| + 0.25·max(0, |abnormal|-1)`;
  - the two-threshold verdict.
  
  `Replay` runs it over a whole sequence of points.
- **AnalystAgent** (`analyst.dfy`) builds the canonical signature of an
  anomaly (sorted `key:pos|key:neg` parts). It then ranks root-cause
  hypotheses in four steps:
  - hypotheses come from a fixed table;
  - the ERR+LAT coupling boost is applied;
  - the memory boosts are applied, with every likelihood capped at 1.0;
  - a stable sort puts the likelihoods in descending order.
- **PlannerAgent** (`planner.dfy`) maps the top hypothesis to an action and
  a base confidence and risk. Confidence is biased by memory and risk grows
  with the number of abnormal metrics. A fail-closed policy gate escalates
  whenever confidence is too low or risk too high, and records the
  proposed action.
- **ExecutorAgent** (`executor.dfy`) is a cooldown-guarded state machine. It
  changes the cluster in place (`replicas += 1`, or `version := "v0"`) and
  appends one entry per action to the `ActionLogger` sink.
- **MemoryStore** (`memory.dfy`) is the append-only JSONL log of outcomes,
  modelled as a sequence of lines where `None` is a line `_load` skips
  (blank, or not JSON). It provides:
  - `_load`: the first 5000 lines, with skipped ones dropped;
  - the success-rate tally;
  - the clamped `bias` formula.
- **Types** and **Config** (`types.dfy`, `config.dfy`) hold the records passed
  between stages and the configuration defaults.
- **Pipeline** (`pipeline.dfy`) wires the agents together for one tick, in
  the order the agent's main loop calls them.

Support modules:

- `wrappers.dfy`: `Option`.
- `numeric.dfy`: `Abs`/`Min`/`Max`/`Clamp01` and the square-root contract.
- `text.dfy`: Python's code-point order on strings, `sorted()` over a key
  set, and `str.join`.

Where the design and the code disagree, the model follows the code:

- the standard deviation is the population one (divide by n);
- a zero-variance buffer divides by `epsilon` instead of forcing z = 0;
- a cooldown-blocked execution reports action `noop`;
- `_load` scans only the first 5000 lines, so once the log has 5000 lines,
  appended records are never read back;
- `bias` returns `base` unclamped when fewer than two records match.

Each of these is stated as a proved property: `StatsDescribeBuffers` (with
`Variance`), `ConstantBufferDividesByEpsilon`, `StepSucceedsUnlessCooling`,
`AppendedLineLoaded` and `BiasBounds`.

`agents/monitor.py` reads `point.metrics`, which the `MetricPoint` record in
`core/types.py` does not define. The adapter in `run_agent.py` supplies the
same map as `as_dict()`, so the model pushes `AsDict(point)`.

## Model

| member | source | states |
|---|---|---|
| Types.AsDict | core/types.py:17-18 | the sample map has exactly the keys cpu, mem, lat_ms, err, each mapped to the point's field |
| Types.ReasonHeads | agents/monitor.py:26-41 | the reason text is `warming_up` or `normal` exactly for those cases, and a spike's text is `zscore_spike(` followed by its keys joined by commas and `)` |
| Config.DefaultsAreUsable | core/config.py:5-31 | defaults: window 30 (≥ the minimum 5), thresholds z 3.0 / score 3.5 / min 1, every analyst base in [0,1], gate conf ≥ 0.75 and risk ≤ 0.35, cooldown 10 s |
| RollingWindows.RollingWindow.Init | core/rolling_window.py:16-20 | a window of size ≥ 5 starts with no tracked keys |
| RollingWindows.RollingWindow.Create | core/rolling_window.py:16-20 | construction fails exactly when the size is below 5; otherwise the window is empty |
| RollingWindows.Appended | core/rolling_window.py:25-26 | `deque.append` with `maxlen`: below capacity the value is appended; at capacity exactly the oldest sample is dropped and the value goes last; the length never exceeds capacity |
| RollingWindows.PushKeepsFifoBound | core/rolling_window.py:22-26 | after a push every buffer holds 1..W samples; tracked keys are the old ones plus the pushed ones; unpushed buffers are untouched; a new key gets a one-sample buffer; FIFO eviction at capacity |
| RollingWindows.PushedStep | core/rolling_window.py:23-26 | pushing one more key of the input map updates only that key's buffer (the loop step of `push`) |
| RollingWindows.RollingWindow.Push | core/rolling_window.py:22-26 | the buffers become `Pushed(old buffers, metrics, W)` and the window invariant (every buffer within 1..W) is kept |
| RollingWindows.RollingWindow.Ready | core/rolling_window.py:28-29 | ready iff at least one key is tracked and every buffer holds exactly W samples |
| RollingWindows.RollingWindow.Stats | core/rolling_window.py:31-42 | the loop returns the statistics of exactly the non-empty buffers, without changing them |
| RollingWindows.StatsDescribeBuffers | core/rolling_window.py:33-41 | a key has statistics iff its buffer is non-empty; then n is the length, mean·n is the sum, std ≥ 0 and std² is the population variance |
| RollingWindows.Variance | core/rolling_window.py:39 | the population variance is never negative |
| RollingWindows.ConstantBufferDividesByEpsilon | core/rolling_window.py:38-51 | a constant buffer has mean c, variance 0 and std 0, and its z-score is (x − c)/epsilon: no forced zero |
| RollingWindows.RollingWindow.ZScores | core/rolling_window.py:44-52 | the loop returns `ZScoresOf(stats, current, epsilon)` without changing the buffers |
| RollingWindows.ZScoresDescribe | core/rolling_window.py:47-51 | an entry exists exactly for keys both in `current` and tracked, and it is that key's z-score |
| RollingWindows.ZScoreSign | core/rolling_window.py:50-51 | the denominator is at least epsilon (so positive); z times it is x − mean; z ≥ 0 iff x ≥ mean; x = mean gives z = 0 |
| Monitor.MonitorAgent.Init | agents/monitor.py:8-10 | the monitor owns a fresh, empty window of the configured size |
| Monitor.MonitorAgent.Create | agents/monitor.py:8-10 | construction fails exactly when the configured window is below 5 |
| Monitor.MonitorAgent.Observe | agents/monitor.py:13-15 | the window changes only by pushing the point's metric map |
| Monitor.MonitorAgent.Detect | agents/monitor.py:17-50 | the report is `Detection(cfg, buffers, point)` and the window is left unchanged |
| Monitor.MaxAbs | agents/monitor.py:31 | `max(abs(z), default=0.0)`: non-negative, bounds every \|z\|, attained when z is non-empty, 0 when empty |
| Monitor.MaxAbsUnique | agents/monitor.py:31 | any value with those three properties is the maximum |
| Monitor.LargestMagnitude | agents/monitor.py:31 | the loop computes exactly the largest \|z\| |
| Monitor.ScoreGrowsWithAbnormalCount | agents/monitor.py:32 | score ≥ max\|z\| ≥ 0, monotone in the abnormal count, and two abnormal metrics score exactly 0.25 more than one |
| Monitor.DetectionReports | agents/monitor.py:17-50 | echoes ts and window size; while not ready: no anomaly, score 0, no abnormal metrics, `warming_up`; when ready: abnormal holds exactly the signed z with \|z\| ≥ threshold, score bounds every \|z\| and is ≥ 0, verdict iff both thresholds, reason `zscore_spike` over the sorted abnormal keys on an anomaly and `normal` otherwise |
| Monitor.WarmingUpIffNotReady | agents/monitor.py:18-26 | the reason is `warming_up` exactly when the window is not ready |
| Monitor.Replay | agents/monitor.py:8-17 | replaying points fails iff the window is below 5; otherwise each report is the detection after observing that point |
| Monitor.ReplayFromCons | agents/monitor.py:13-17 | a replay is the first point's detection followed by the replay of the rest on the pushed window |
| Monitor.ReplayIgnoresTimestamps | agents/monitor.py:17-50 | determinism: two point sequences with the same metrics give the same verdicts, scores, abnormal sets and reasons, differing only in the echoed timestamps |
| Monitor.DetectionIgnoresTimestamp | agents/monitor.py:17-50 | detection depends on the point's timestamp only through the echoed `ts` |
| Monitor.WarmUpLength | agents/monitor.py:18-26 | from an empty monitor, report i is `warming_up` exactly when fewer than W points have been observed (i + 1 < W) |
| Memory.Head | core/memory.py:41-43 | only the first `limit` lines are considered, blank lines included in the count |
| Memory.Records | core/memory.py:44-50 | blank and malformed lines are dropped and every well-formed one is kept |
| Memory.MemoryStore.constructor | core/memory.py:13-15 | the store reads the existing log (or no file) |
| Memory.MemoryStore.Append | core/memory.py:17-34 | exactly one record is added at the end, with metadata defaulting to empty; earlier lines are unchanged; a missing file becomes a one-line file |
| Memory.MemoryStore.Load | core/memory.py:36-51 | the loop returns the well-formed records among the first `limit` lines; no file gives no rows; at most `limit` rows |
| Memory.AppendedLineLoaded | core/memory.py:17-51 | below 5000 lines an appended record is loaded last; from 5000 lines on, an appended line is never loaded |
| Memory.Tally | core/memory.py:53-62 | 0 ≤ succ ≤ total ≤ number of rows, and total is 0 iff no row matches both signature and action |
| Memory.MemoryStore.SuccessRate | core/memory.py:53-62 | the loop returns the tally of the loaded rows and rate = succ/total (0 when total is 0), in [0,1]; the log is untouched |
| Memory.RateInUnitInterval | core/memory.py:61 | the rate lies in [0,1], and is 1 when every match succeeded |
| Memory.BiasBounds | core/memory.py:64-70 | fewer than 2 matches returns base exactly; otherwise the result is clamped to [0,1]; for base in [0,1] it lies between base and min(1, base + max_boost) |
| Memory.MemoryStore.Bias | core/memory.py:64-70 | `bias` over the loaded log: base below 2 matches, in [0,1] otherwise, never below base nor above base + max_boost; it reads the log only |
| Memory.TallyAllSuccessful | core/memory.py:57-60 | n matching successful records tally (n, n) |
| Memory.BiasSaturates | core/memory.py:64-70 | 10 matching successful records with base 0.5 and max_boost 0.2 give exactly 0.7 |
| Analyst.SignatureParts | agents/analyst.py:18-21 | one part per abnormal key, in sorted key order, each `key:pos` or `key:neg` by the sign of its z (0 counts as pos) |
| Analyst.Signature | agents/analyst.py:16-22 | the signature is `none` exactly when no metric is abnormal |
| Analyst.SignatureDependsOnKeysAndSigns | agents/analyst.py:16-22 | two reports with the same abnormal keys and the same signs have the same signature |
| Analyst.SignatureOfTwo | agents/analyst.py:16-22 | with two abnormal keys the signature is the smaller key's part, `\|`, then the larger key's part |
| Analyst.SignatureExample | agents/analyst.py:16-22 | {cpu: +3.1, err: −4.0} has signature `cpu:pos\|err:neg` |
| Analyst.SortDesc | agents/analyst.py:81 | the sort yields a non-increasing permutation of its input |
| Analyst.SortDescStable | agents/analyst.py:81 | stability: hypotheses of equal likelihood keep their generation order |
| Analyst.Generate | agents/analyst.py:27-62 | the appending code builds exactly the table's hypothesis list |
| Analyst.NamesDistinct | agents/analyst.py:29-62 | the four metrics give four distinct hypothesis names, none of them `unknown_anomaly` |
| Analyst.GeneratedHypotheses | agents/analyst.py:29-62 | one hypothesis per abnormal metric among cpu/mem/lat_ms/err with its base likelihood and z evidence, and nothing else; `unknown_anomaly` appears iff none of the four is abnormal, and then alone, so the list is never empty |
| Analyst.ApplyCoupling | agents/analyst.py:64-68 | the loop updates every hypothesis by the coupling rule and keeps the order |
| Analyst.ApplyBoosts | agents/analyst.py:75-79 | the loop applies the three memory boosts to every hypothesis and keeps the order |
| Analyst.AdjustedByName | agents/analyst.py:64-79 | an adjusted hypothesis keeps its name; its likelihood is the capped value for its name; only the latency and error hypotheses gain `coupled(ERR+LAT)`, and only when both err and lat_ms are abnormal |
| Analyst.MemoryBoosts | agents/analyst.py:70-73 | each memory boost (base 0, max_boost 0.10) lies in [0, 0.10] |
| Analyst.RankedMembers | agents/analyst.py:64-81 | the ranking is a permutation of the adjusted generated hypotheses |
| Analyst.RankedAdjustments | agents/analyst.py:64-81 | every ranked hypothesis carries its name's final likelihood and comes from a generated one of the same name |
| Analyst.RankedTop | agents/analyst.py:81-82 | the ranking is non-empty and its head is a most likely hypothesis |
| Analyst.FinalLikelihoodInUnitInterval | agents/analyst.py:64-79 | with bases in [0,1] and boosts in [0, 0.1], every final likelihood lies in [0,1] |
| Analyst.RankedLikelihoodsInUnitInterval | agents/analyst.py:64-79 | with bases in [0,1] every ranked likelihood lies in [0,1] |
| Analyst.Report | agents/analyst.py:24-84 | the analysis at `now`: echoes the anomaly, ranks the memory-boosted hypotheses, is non-empty, and its summary names the head, which is maximal |
| Analyst.AnalystAgent.Analyze | agents/analyst.py:24-84 | the appending, updating and sorting code returns exactly `Report` for the current memory: the ranked, memory-boosted hypotheses, non-empty, the summary naming a maximal head |
| Planner.Propose | agents/planner.py:20-39 | the table never proposes anything but scale/restart/rollback/escalate; base risk is in [0,1]; base confidence is in [0,1] for a likelihood in [0,1] |
| Planner.ProposalNeverNoop | agents/planner.py:20-39 | the table never proposes `noop`, so the gate always applies |
| Planner.Risk | agents/planner.py:45 | risk is at most 1 and non-negative for a non-negative base |
| Planner.RiskGrowsWithAbnormalCount | agents/planner.py:45 | risk is monotone in the abnormal count and equals min(1, base) for at most one abnormal metric |
| Planner.Decide | agents/planner.py:47-56 | signature and top_hypothesis are always in the metadata; `proposed_action` is present iff the gate fails, and then the action is escalate and it records the proposal; otherwise the proposal is carried out |
| Planner.PlannerAgent.Plan | agents/planner.py:14-56 | the plan reports the memory-biased confidence and the risk formula; auto-OK carries the proposed action without `proposed_action`; otherwise it escalates and keeps the proposal; any non-escalate action passed the gate; risk in [0,1]; confidence never below the table's base |
| Planner.CpuExampleEscalates | agents/planner.py:20-52 | defaults, top cpu_saturation at 0.55, one abnormal metric, no memory: confidence 0.65, risk 0.25, escalate with proposed scale |
| Executor.ActionLogger.Log | core/logger.py:20-27 | the logger appends exactly one entry |
| Executor.Dispatch | agents/executor.py:28-48 | health is kept; replicas change (and only grow) iff scale; the version changes only on rollback; `changed` reports replicas iff scale and version iff rollback, with the new values |
| Executor.DispatchOutcomes | agents/executor.py:31-48 | scale → +1 replica, `scaled_up`; restart → unchanged, `service_restarted`; rollback → version v0, `rollback_complete`; escalate → unchanged, `incident_escalated`; anything else → unchanged, `noop` |
| Executor.StepSucceedsUnlessCooling | agents/executor.py:16-65 | success iff outside the cooldown; a blocked call reports `noop`/`cooldown_active` and changes nothing; otherwise the cluster is dispatched, `now` is recorded, exactly one `execute` entry is logged and the planned action is reported |
| Executor.SecondCallWithinCooldownBlocked | agents/executor.py:20-50 | of two calls less than the cooldown apart, if the first acts the second is blocked and leaves the cluster as the first left it |
| Executor.RunKeepsInvariants | agents/executor.py:16-65 | over any run of calls replicas never fall, health never changes and the log only grows at its end |
| Executor.ExecutorAgent.constructor | agents/executor.py:11-14 | a new executor has last action time 0 |
| Executor.ExecutorAgent.Execute | agents/executor.py:16-65 | the live executor, cluster and log change exactly as `Step` says |
| Pipeline.Agents.Tick | run_agent.py:137-234 | the window is pushed and the report is the detection; without an anomaly nothing else changes; with one, the decision is the plan for the analyst's report, the result and the new executor, cluster and log are one executor step on that decision, the outcome is appended to memory under the anomaly's signature, and a non-escalate action was carried out only through the gate |
| Pipeline.Agents.Respond | run_agent.py:167-234 | analyse, plan, execute and learn: the decision is `Plan` of the analyst's `Report` on the memory before the tick; the result, last action time, cluster and log are exactly what `Step` gives for that decision; memory gains the executor's outcome |
| Pipeline.CpuOnlyAnomalyEscalates | run_agent.py:167-183 | defaults and empty memory: a cpu-only anomaly's report ranks one cpu_saturation hypothesis at 0.55, and the planner's plan for it has confidence 0.65 and risk 0.25 and escalates with proposed scale |

## Left out

- File and JSON I/O: the memory log is a sequence field and the action log an append-only sequence sink. `os.makedirs`, `json.dumps` and the telemetry log are not modelled.
- The wall clock: `time.time()` is a `now` parameter of every stage.
- `math.sqrt` is a parameter `sqrt: real -> real`; properties of the standard deviation assume it returns the non-negative root. Floating-point rounding is not modelled (metrics are `real`).
- The `:.2f` text of `reason`, `evidence`, `summary` and `rationale`: these are datatypes that keep the tag, the keys and the numbers, not the formatted digits.
- JSON rows with missing or ill-typed fields: a loaded row is either a well-formed record or dropped (`None`), so `r.get(...)` on a partial row is not modelled.
- Memory.MemoryStore.Load: in the source only lines that fail to parse as JSON are skipped. A line that is valid JSON but not an object (`42`, `[]`, `null`) is kept, and the `r.get` in `success_rate` then raises on it, so `bias`, `analyze` and `plan` fail on every anomaly while such a line is among the first 5000. A line that is not valid UTF-8 aborts the scan itself. The model treats both kinds as dropped `None` lines and does not model these failures.
- Record metadata and decision metadata are `map<string, string>`; nested JSON values are not modelled.
- Cluster state is the three keys replicas, version and service_health; other keys of the dict are not modelled.
- Analyst.UnknownHypothesis: its evidence lists the abnormal keys as a set, because dictionary insertion order is not modelled.
- Analyst.AnalystAgent.Analyze: the `latest` argument is accepted and unused, as in the source.
- `ExecutorConfig.rate_limit_per_minute` is carried but never read, as in the source; `ReportingConfig` is not modelled.
- Executor.ExecutorAgent.Execute: the logged payload carries a snapshot of the cluster, not a reference to the live dict.
- The main loop of `run_agent.py` (argparse, printing, `uuid`, `sleep`, telemetry) is reduced to `Pipeline.Agents.Tick`; tools/replay.py is reduced to `Monitor.Replay`.
- The metric simulator and failure injector (random sources) and the reporter are not part of this model.
