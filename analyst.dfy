/**
 * The analyst agent (agents/analyst.py): it names the anomaly by a
 * canonical signature and ranks root-cause hypotheses for it.
 */
module Analyst {
  import opened Numeric
  import opened Types
  import opened Config
  import Text
  import Memory

  // ---------------------------------------------------------------- signature

  /** `"pos"` for z >= 0 (zero included), `"neg"` otherwise. */
  function SignTag(z: real): string
  {
    if z >= 0.0 then "pos" else "neg"
  }

  /** `"<k>:<sign>"` for every abnormal key, keys in sorted order. */
  function SignatureParts(ab: map<string, real>): (parts: seq<string>)
    ensures |parts| == |ab|
    ensures forall i | 0 <= i < |parts| ::
      var k := Text.SortedKeys(ab.Keys)[i]; k in ab && parts[i] == k + ":" + SignTag(ab[k])
  {
    var keys := Text.SortedKeys(ab.Keys);
    seq(|keys|, i requires 0 <= i < |keys| => keys[i] + ":" + SignTag(ab[keys[i]]))
  }

  /** `AnalystAgent.signature`: the parts joined by `|`, or `"none"` when nothing is abnormal. */
  function Signature(anomaly: AnomalyReport): (s: string)
    ensures s == "none" <==> anomaly.abnormalMetrics == map[]
  {
    var parts := SignatureParts(anomaly.abnormalMetrics);
    if parts != [] then
      var s := Text.Join(parts, "|");
      Text.JoinStartsWithFirst(parts, "|");
      var k := Text.SortedKeys(anomaly.abnormalMetrics.Keys)[0];
      assert parts[0] == k + ":" + SignTag(anomaly.abnormalMetrics[k]);
      assert s[..|parts[0]|] == parts[0];
      assert s != "none" by {
        if |k| == 0 {
          assert s[0] == ':';
        } else {
          assert |s| >= 5;
        }
      }
      s
    else "none"
  }

  /**
   * The signature depends only on which metrics are abnormal and on the
   * sign of each one's z-score, not on magnitudes or on anything else in
   * the report.
   */
  lemma SignatureDependsOnKeysAndSigns(a: AnomalyReport, b: AnomalyReport)
    requires a.abnormalMetrics.Keys == b.abnormalMetrics.Keys
    requires forall k | k in a.abnormalMetrics :: (a.abnormalMetrics[k] >= 0.0) == (b.abnormalMetrics[k] >= 0.0)
    ensures Signature(a) == Signature(b)
  {
    PartsDependOnKeysAndSigns(a.abnormalMetrics, b.abnormalMetrics);
  }

  lemma PartsDependOnKeysAndSigns(x: map<string, real>, y: map<string, real>)
    requires x.Keys == y.Keys
    requires forall k | k in x :: (x[k] >= 0.0) == (y[k] >= 0.0)
    ensures SignatureParts(x) == SignatureParts(y)
  {
    var px := SignatureParts(x);
    var py := SignatureParts(y);
    var keys := Text.SortedKeys(x.Keys);
    forall i | 0 <= i < |keys|
      ensures px[i] == py[i]
    {
      assert keys[i] in x;
    }
  }

  /** {cpu: +3.1, err: -4.0} has the signature "cpu:pos|err:neg". */
  lemma SignatureExample(a: AnomalyReport)
    requires a.abnormalMetrics == map[Cpu := 3.1, Err := -4.0]
    ensures Signature(a) == "cpu:pos|err:neg"
  {
    var ab := a.abnormalMetrics;
    assert ab.Keys == {Cpu, Err} && ab[Cpu] >= 0.0 && ab[Err] < 0.0;
    CpuErrSignature(a);
  }

  lemma CpuErrSignature(a: AnomalyReport)
    requires a.abnormalMetrics.Keys == {Cpu, Err}
    requires a.abnormalMetrics[Cpu] >= 0.0 && a.abnormalMetrics[Err] < 0.0
    ensures Signature(a) == "cpu:pos|err:neg"
  {
    assert Text.Less(Cpu, Err);
    SignatureOfTwo(a, Cpu, Err);
    SpellCpuErr(a.abnormalMetrics[Cpu], a.abnormalMetrics[Err]);
  }

  lemma SpellCpuErr(x: real, y: real)
    requires x >= 0.0 && y < 0.0
    ensures Cpu + ":" + SignTag(x) + "|" + Err + ":" + SignTag(y) == "cpu:pos|err:neg"
  {
  }

  /** With two abnormal keys, the signature lists the smaller one first. */
  lemma SignatureOfTwo(a: AnomalyReport, k1: string, k2: string)
    requires a.abnormalMetrics.Keys == {k1, k2} && Text.Less(k1, k2)
    ensures Signature(a) == k1 + ":" + SignTag(a.abnormalMetrics[k1]) + "|" + k2 + ":" + SignTag(a.abnormalMetrics[k2])
  {
    var ab := a.abnormalMetrics;
    SortedPair(ab.Keys, k1, k2);
    var parts := SignatureParts(ab);
    assert parts == [k1 + ":" + SignTag(ab[k1]), k2 + ":" + SignTag(ab[k2])];
    JoinTwo(parts[0], parts[1], parts);
  }

  lemma SortedPair(s: set<string>, k1: string, k2: string)
    requires s == {k1, k2} && Text.Less(k1, k2)
    ensures Text.SortedKeys(s) == [k1, k2]
  {
    Text.LessIrreflexive(k1);
    assert forall i, j | 0 <= i < j < 2 :: Text.Less([k1, k2][i], [k1, k2][j]);
    Text.SortedKeysUnique(s, [k1, k2]);
  }

  lemma JoinTwo(x: string, y: string, parts: seq<string>)
    requires parts == [x, y]
    ensures Text.Join(parts, "|") == x + "|" + y
  {
    assert parts[1..] == [y];
  }

  // ---------------------------------------------------------------- ranking

  /** Likelihoods in non-increasing order. */
  predicate SortedDesc(s: seq<Hypothesis>)
  {
    forall i, j | 0 <= i < j < |s| :: s[i].likelihood >= s[j].likelihood
  }

  /** Inserts `h` before the first element whose likelihood does not exceed its own. */
  function InsertDesc(h: Hypothesis, t: seq<Hypothesis>): (r: seq<Hypothesis>)
    ensures multiset(r) == multiset(t) + multiset{h}
    decreases |t|
  {
    if t == [] || t[0].likelihood <= h.likelihood then [h] + t
    else
      assert t == [t[0]] + t[1..];
      [t[0]] + InsertDesc(h, t[1..])
  }

  lemma {:induction false} InsertDescSorted(h: Hypothesis, t: seq<Hypothesis>)
    requires SortedDesc(t)
    ensures SortedDesc(InsertDesc(h, t))
    decreases |t|
  {
    if t != [] && t[0].likelihood > h.likelihood {
      var rest := InsertDesc(h, t[1..]);
      InsertDescSorted(h, t[1..]);
      forall x | x in rest
        ensures x.likelihood <= t[0].likelihood
      {
        assert x in multiset(rest);
        if x != h {
          assert x in t[1..];
        }
      }
      PrependSorted(t[0], rest);
    }
  }

  lemma PrependSorted(x: Hypothesis, rest: seq<Hypothesis>)
    requires SortedDesc(rest)
    requires forall y | y in rest :: y.likelihood <= x.likelihood
    ensures SortedDesc([x] + rest)
  {
    var r := [x] + rest;
    forall i, j | 0 <= i < j < |r|
      ensures r[i].likelihood >= r[j].likelihood
    {
      assert r[j] == rest[j - 1];
      if i > 0 {
        assert r[i] == rest[i - 1];
      }
    }
  }

  /** `list.sort(key=likelihood, reverse=True)` as an insertion sort. */
  function SortDesc(s: seq<Hypothesis>): (r: seq<Hypothesis>)
    ensures SortedDesc(r)
    ensures multiset(r) == multiset(s)
    decreases |s|
  {
    if s == [] then []
    else
      assert s == [s[0]] + s[1..];
      InsertDescSorted(s[0], SortDesc(s[1..]));
      InsertDesc(s[0], SortDesc(s[1..]))
  }

  /** The hypotheses of likelihood `v`, in order. */
  function WithLikelihood(s: seq<Hypothesis>, v: real): seq<Hypothesis>
    decreases |s|
  {
    if s == [] then []
    else (if s[0].likelihood == v then [s[0]] else []) + WithLikelihood(s[1..], v)
  }

  lemma {:induction false} InsertDescKeepsTies(h: Hypothesis, t: seq<Hypothesis>, v: real)
    ensures WithLikelihood(InsertDesc(h, t), v) == (if h.likelihood == v then [h] else []) + WithLikelihood(t, v)
    decreases |t|
  {
    if t == [] || t[0].likelihood <= h.likelihood {
      assert ([h] + t)[1..] == t;
    } else {
      InsertDescKeepsTies(h, t[1..], v);
      var r := [t[0]] + InsertDesc(h, t[1..]);
      assert r[1..] == InsertDesc(h, t[1..]);
    }
  }

  /**
   * The sort is stable: hypotheses of equal likelihood keep their relative
   * order.
   */
  lemma {:induction false} SortDescStable(s: seq<Hypothesis>, v: real)
    ensures WithLikelihood(SortDesc(s), v) == WithLikelihood(s, v)
    decreases |s|
  {
    if s != [] {
      SortDescStable(s[1..], v);
      InsertDescKeepsTies(s[0], SortDesc(s[1..]), v);
    }
  }

  /** Name of the hypothesis raised by each watched metric. */
  function NameFor(m: string): string
  {
    if m == Cpu then CpuSaturation
    else if m == Mem then MemoryPressure
    else if m == LatMs then NetworkLatency
    else ErrorBurst
  }

  function BaseFor(cfg: AnalystConfig, m: string): real
  {
    if m == Cpu then cfg.baseCpu
    else if m == Mem then cfg.baseMem
    else if m == LatMs then cfg.baseLatency
    else cfg.baseErrors
  }

  /** The hypothesis an abnormal watched metric `m` raises. */
  function HypothesisFor(cfg: AnalystConfig, ab: map<string, real>, m: string): Hypothesis
    requires m in ab
  {
    Hypothesis(NameFor(m), BaseFor(cfg, m), [ZScoreNote(m, ab[m])])
  }

  function Raised(cfg: AnalystConfig, ab: map<string, real>, m: string): seq<Hypothesis>
  {
    if m in ab then [HypothesisFor(cfg, ab, m)] else []
  }

  function UnknownHypothesis(cfg: AnalystConfig, ab: map<string, real>): Hypothesis
  {
    Hypothesis(UnknownAnomaly, cfg.baseUnknown, [AbnormalNote(ab.Keys)])
  }

  /** The hypotheses before any adjustment, in generation order. */
  function Generated(cfg: AnalystConfig, ab: map<string, real>): seq<Hypothesis>
  {
    var t := Raised(cfg, ab, Cpu) + Raised(cfg, ab, Mem) + Raised(cfg, ab, LatMs) + Raised(cfg, ab, Err);
    if t == [] then [UnknownHypothesis(cfg, ab)] else t
  }

  predicate Watched(m: string)
  {
    m == Cpu || m == Mem || m == LatMs || m == Err
  }

  /** No watched metric is abnormal. */
  predicate NoneWatched(ab: map<string, real>)
  {
    Cpu !in ab && Mem !in ab && LatMs !in ab && Err !in ab
  }

  /** How many watched metrics are abnormal. */
  function WatchedCount(ab: map<string, real>): int
  {
    (if Cpu in ab then 1 else 0) + (if Mem in ab then 1 else 0)
    + (if LatMs in ab then 1 else 0) + (if Err in ab then 1 else 0)
  }

  /** The four watched metrics raise hypotheses of four different names, none of them the unknown one. */
  lemma NamesDistinct(m: string, n: string)
    requires Watched(m) && Watched(n)
    ensures NameFor(m) == NameFor(n) <==> m == n
    ensures NameFor(m) != UnknownAnomaly
  {
  }

  /**
   * Generation emits, for every abnormal watched metric, one hypothesis
   * with its configured base likelihood and its z-score as sole evidence,
   * and nothing else; and the single unknown hypothesis exactly when no
   * watched metric is abnormal. The list is never empty.
   */
  lemma GeneratedHypotheses(cfg: AnalystConfig, ab: map<string, real>)
    ensures var hs := Generated(cfg, ab);
      && |hs| == (if NoneWatched(ab) then 1 else WatchedCount(ab))
      && (forall m | Watched(m) && m in ab :: HypothesisFor(cfg, ab, m) in hs)
      && (forall h | h in hs :: h == UnknownHypothesis(cfg, ab) || exists m | Watched(m) && m in ab :: h == HypothesisFor(cfg, ab, m))
      && (UnknownHypothesis(cfg, ab) in hs <==> NoneWatched(ab))
      && (NoneWatched(ab) ==> hs == [UnknownHypothesis(cfg, ab)])
  {
    var c, me, l, e := Raised(cfg, ab, Cpu), Raised(cfg, ab, Mem), Raised(cfg, ab, LatMs), Raised(cfg, ab, Err);
    var t := c + me + l + e;
    assert forall h :: h in t <==> h in c || h in me || h in l || h in e;
    assert t == [] <==> NoneWatched(ab);
    assert UnknownHypothesis(cfg, ab) !in t;
  }

  /** Whether the ERR+LAT coupling applies. */
  predicate Coupling(ab: map<string, real>)
  {
    Err in ab && LatMs in ab
  }

  function Couple(h: Hypothesis): Hypothesis
  {
    if h.name == NetworkLatency || h.name == ErrorBurst then
      h.(likelihood := Min(1.0, h.likelihood + 0.10), evidence := h.evidence + [CoupledErrLat])
    else h
  }

  /** The three memory boosts, each `bias(sig, action, base=0.0, max_boost=0.10)`. */
  datatype Boosts = Boosts(rollback: real, restart: real, scale: real)

  function Boost(h: Hypothesis, b: Boosts): Hypothesis
  {
    var h1 := if h.name == ErrorBurst then h.(likelihood := Min(1.0, h.likelihood + b.rollback + b.restart * 0.5)) else h;
    if h1.name == CpuSaturation then h1.(likelihood := Min(1.0, h1.likelihood + b.scale)) else h1
  }

  /** A generated hypothesis after the coupling and memory adjustments. */
  function Adjusted(h: Hypothesis, ab: map<string, real>, b: Boosts): Hypothesis
  {
    Boost(if Coupling(ab) then Couple(h) else h, b)
  }

  function AdjustedAll(hs: seq<Hypothesis>, ab: map<string, real>, b: Boosts): (r: seq<Hypothesis>)
    ensures |r| == |hs| && forall i | 0 <= i < |hs| :: r[i] == Adjusted(hs[i], ab, b)
  {
    seq(|hs|, i requires 0 <= i < |hs| => Adjusted(hs[i], ab, b))
  }

  /** The hypotheses `analyze` returns, given the three memory boosts. */
  function Ranked(cfg: AnalystConfig, ab: map<string, real>, b: Boosts): seq<Hypothesis>
  {
    SortDesc(AdjustedAll(Generated(cfg, ab), ab, b))
  }

  /** The boosts read from `memory` for signature `sig`. */
  function MemoryBoosts(memory: Memory.MemoryStore, sig: string): (b: Boosts)
    reads memory
    ensures 0.0 <= b.rollback <= 0.10 && 0.0 <= b.restart <= 0.10 && 0.0 <= b.scale <= 0.10
  {
    Boosts(memory.Bias(sig, Rollback, 0.0, 0.10),
           memory.Bias(sig, Restart, 0.0, 0.10),
           memory.Bias(sig, Scale, 0.0, 0.10))
  }

  /** The ranked hypotheses are the generated ones after adjustment, reordered. */
  lemma RankedMembers(cfg: AnalystConfig, ab: map<string, real>, b: Boosts)
    ensures var g := Generated(cfg, ab);
      var r := Ranked(cfg, ab, b);
      && |r| == |g|
      && multiset(r) == multiset(AdjustedAll(g, ab, b))
      && (forall h :: h in r <==> exists x | x in g :: h == Adjusted(x, ab, b))
  {
    SortedAdjustedMembers(Generated(cfg, ab), ab, b);
  }

  lemma SortedAdjustedMembers(g: seq<Hypothesis>, ab: map<string, real>, b: Boosts)
    ensures var r := SortDesc(AdjustedAll(g, ab, b));
      && |r| == |g|
      && (forall h :: h in r <==> exists x | x in g :: h == Adjusted(x, ab, b))
  {
    var a := AdjustedAll(g, ab, b);
    var r := SortDesc(a);
    assert |r| == |a| by {
      assert |multiset(r)| == |multiset(a)|;
    }
    forall h
      ensures h in r <==> exists x | x in g :: h == Adjusted(x, ab, b)
    {
      assert h in r <==> h in multiset(a);
      if h in a {
        var i :| 0 <= i < |a| && a[i] == h;
        assert g[i] in g;
      }
      if exists x | x in g :: h == Adjusted(x, ab, b) {
        var x :| x in g && h == Adjusted(x, ab, b);
        var i :| 0 <= i < |g| && g[i] == x;
        assert a[i] == h;
      }
    }
  }

  /** The ranking is never empty and starts with a most likely hypothesis. */
  lemma RankedTop(cfg: AnalystConfig, ab: map<string, real>, b: Boosts)
    ensures var r := Ranked(cfg, ab, b);
      r != [] && forall h | h in r :: h.likelihood <= r[0].likelihood
  {
    var r := Ranked(cfg, ab, b);
    RankedMembers(cfg, ab, b);
    GeneratedHypotheses(cfg, ab);
    forall h | h in r
      ensures h.likelihood <= r[0].likelihood
    {
      var i :| 0 <= i < |r| && r[i] == h;
    }
  }

  /** The likelihood each hypothesis ends with, by name. */
  function FinalLikelihood(cfg: AnalystConfig, ab: map<string, real>, b: Boosts, name: string): real
  {
    var lat := if Coupling(ab) then Min(1.0, cfg.baseLatency + 0.10) else cfg.baseLatency;
    var err := if Coupling(ab) then Min(1.0, cfg.baseErrors + 0.10) else cfg.baseErrors;
    if name == CpuSaturation then Min(1.0, cfg.baseCpu + b.scale)
    else if name == MemoryPressure then cfg.baseMem
    else if name == NetworkLatency then lat
    else if name == ErrorBurst then Min(1.0, err + b.rollback + b.restart * 0.5)
    else cfg.baseUnknown
  }

  /** Adjustment keeps the name; it sets the likelihood and evidence by name. */
  lemma AdjustedByName(cfg: AnalystConfig, ab: map<string, real>, b: Boosts, x: Hypothesis)
    requires x in Generated(cfg, ab)
    ensures var h := Adjusted(x, ab, b);
      && h.name == x.name
      && h.likelihood == FinalLikelihood(cfg, ab, b, x.name)
      && h.evidence == x.evidence + (if Coupling(ab) && (x.name == NetworkLatency || x.name == ErrorBurst) then [CoupledErrLat] else [])
  {
    GeneratedHypotheses(cfg, ab);
    if x != UnknownHypothesis(cfg, ab) {
      var m :| Watched(m) && m in ab && x == HypothesisFor(cfg, ab, m);
      NamesDistinct(m, Cpu);
      NamesDistinct(m, Mem);
      NamesDistinct(m, LatMs);
      NamesDistinct(m, Err);
    }
  }

  /**
   * Every ranked hypothesis comes from a generated one of the same name:
   * latency and error hypotheses +0.10 (capped) with the coupling note
   * appended when both err and lat_ms are abnormal; the error hypothesis
   * then raised by the rollback boost plus half the restart boost and the
   * cpu hypothesis by the scale boost (capped); every other hypothesis as
   * generated.
   */
  lemma RankedAdjustments(cfg: AnalystConfig, ab: map<string, real>, b: Boosts)
    ensures var g := Generated(cfg, ab);
      forall h | h in Ranked(cfg, ab, b) ::
        && h.likelihood == FinalLikelihood(cfg, ab, b, h.name)
        && exists x | x in g :: x.name == h.name &&
             h.evidence == x.evidence + (if Coupling(ab) && (x.name == NetworkLatency || x.name == ErrorBurst) then [CoupledErrLat] else [])
  {
    RankedMembers(cfg, ab, b);
    forall h | h in Ranked(cfg, ab, b)
      ensures h.likelihood == FinalLikelihood(cfg, ab, b, h.name)
      ensures exists x | x in Generated(cfg, ab) ::
                x.name == h.name &&
                h.evidence == x.evidence + (if Coupling(ab) && (x.name == NetworkLatency || x.name == ErrorBurst) then [CoupledErrLat] else [])
    {
      var x :| x in Generated(cfg, ab) && h == Adjusted(x, ab, b);
      AdjustedByName(cfg, ab, b, x);
    }
  }

  /** With bases in [0,1] and boosts in [0, 0.10], every final likelihood is in [0,1]. */
  lemma FinalLikelihoodInUnitInterval(cfg: AnalystConfig, ab: map<string, real>, b: Boosts, name: string)
    requires cfg.BasesInUnitInterval()
    requires 0.0 <= b.rollback <= 0.10 && 0.0 <= b.restart <= 0.10 && 0.0 <= b.scale <= 0.10
    ensures 0.0 <= FinalLikelihood(cfg, ab, b, name) <= 1.0
  {
  }

  /**
   * With base likelihoods in [0,1] and boosts in [0, 0.10], every ranked
   * likelihood is in [0,1].
   */
  lemma RankedLikelihoodsInUnitInterval(cfg: AnalystConfig, ab: map<string, real>, b: Boosts)
    requires cfg.BasesInUnitInterval()
    requires 0.0 <= b.rollback <= 0.10 && 0.0 <= b.restart <= 0.10 && 0.0 <= b.scale <= 0.10
    ensures forall h | h in Ranked(cfg, ab, b) :: 0.0 <= h.likelihood <= 1.0
  {
    RankedAdjustments(cfg, ab, b);
    forall h | h in Ranked(cfg, ab, b)
      ensures 0.0 <= h.likelihood <= 1.0
    {
      FinalLikelihoodInUnitInterval(cfg, ab, b, h.name);
    }
  }

  /**
   * The report `analyze` returns at time `now` with `memory` as it stands:
   * the ranked hypotheses, never empty, headed by a most likely one, which
   * the summary names.
   */
  function Report(cfg: AnalystConfig, memory: Memory.MemoryStore, anomaly: AnomalyReport, now: real): (r: AnalysisReport)
    reads memory
    ensures r.ts == now && r.anomaly == anomaly
    ensures r.hypotheses == Ranked(cfg, anomaly.abnormalMetrics, MemoryBoosts(memory, Signature(anomaly)))
    ensures r.hypotheses != []
    ensures r.summary == Top(r.hypotheses[0].name, r.hypotheses[0].likelihood)
    ensures forall h | h in r.hypotheses :: h.likelihood <= r.hypotheses[0].likelihood
  {
    var b := MemoryBoosts(memory, Signature(anomaly));
    var hs := Ranked(cfg, anomaly.abnormalMetrics, b);
    RankedTop(cfg, anomaly.abnormalMetrics, b);
    AnalysisReport(now, anomaly, hs, Top(hs[0].name, hs[0].likelihood))
  }

  // ---------------------------------------------------------------- agent

  class AnalystAgent {
    const cfg: AnalystConfig
    const memory: Memory.MemoryStore

    constructor(cfg: AnalystConfig, memory: Memory.MemoryStore)
      ensures this.cfg == cfg && this.memory == memory
    {
      this.cfg := cfg;
      this.memory := memory;
    }

    /**
     * `analyze`: the ranked hypotheses for the anomaly, topped by one of
     * the largest likelihood, which the summary names. `latest` is not read.
     */
    method Analyze(anomaly: AnomalyReport, latest: map<string, real>, now: real) returns (report: AnalysisReport)
      ensures report.ts == now && report.anomaly == anomaly
      ensures report.hypotheses == Ranked(cfg, anomaly.abnormalMetrics, MemoryBoosts(memory, Signature(anomaly)))
      ensures report.hypotheses != []
      ensures report.summary == Top(report.hypotheses[0].name, report.hypotheses[0].likelihood)
      ensures forall h | h in report.hypotheses :: h.likelihood <= report.hypotheses[0].likelihood
      ensures report == Report(cfg, memory, anomaly, now)
    {
      var ab := anomaly.abnormalMetrics;
      var hyps := Generate(cfg, ab);
      ghost var generated := hyps;
      if Err in ab && LatMs in ab {
        hyps := ApplyCoupling(hyps);
      }
      var sig := Signature(anomaly);
      var rollbackBoost := memory.Bias(sig, Rollback, 0.0, 0.10);
      var restartBoost := memory.Bias(sig, Restart, 0.0, 0.10);
      var scaleBoost := memory.Bias(sig, Scale, 0.0, 0.10);
      hyps := ApplyBoosts(hyps, rollbackBoost, restartBoost, scaleBoost);
      assert hyps == AdjustedAll(generated, ab, Boosts(rollbackBoost, restartBoost, scaleBoost));

      hyps := SortDesc(hyps);
      RankedTop(cfg, ab, Boosts(rollbackBoost, restartBoost, scaleBoost));
      report := AnalysisReport(now, anomaly, hyps, Top(hyps[0].name, hyps[0].likelihood));
    }
  }

  /** The list `analyze` builds before any adjustment. */
  method Generate(cfg: AnalystConfig, ab: map<string, real>) returns (hyps: seq<Hypothesis>)
    ensures hyps == Generated(cfg, ab)
  {
    hyps := [];
    if Cpu in ab {
      hyps := hyps + [Hypothesis(CpuSaturation, cfg.baseCpu, [ZScoreNote(Cpu, ab[Cpu])])];
    }
    if Mem in ab {
      hyps := hyps + [Hypothesis(MemoryPressure, cfg.baseMem, [ZScoreNote(Mem, ab[Mem])])];
    }
    if LatMs in ab {
      hyps := hyps + [Hypothesis(NetworkLatency, cfg.baseLatency, [ZScoreNote(LatMs, ab[LatMs])])];
    }
    if Err in ab {
      hyps := hyps + [Hypothesis(ErrorBurst, cfg.baseErrors, [ZScoreNote(Err, ab[Err])])];
    }
    if hyps == [] {
      hyps := hyps + [Hypothesis(UnknownAnomaly, cfg.baseUnknown, [AbnormalNote(ab.Keys)])];
    }
  }

  /** The ERR+LAT coupling loop, updating the hypotheses one by one. */
  method ApplyCoupling(hyps0: seq<Hypothesis>) returns (hyps: seq<Hypothesis>)
    ensures |hyps| == |hyps0| && forall j | 0 <= j < |hyps0| :: hyps[j] == Couple(hyps0[j])
  {
    hyps := hyps0;
    for i := 0 to |hyps|
      invariant |hyps| == |hyps0|
      invariant forall j | 0 <= j < i :: hyps[j] == Couple(hyps0[j])
      invariant forall j | i <= j < |hyps| :: hyps[j] == hyps0[j]
    {
      if hyps[i].name == NetworkLatency || hyps[i].name == ErrorBurst {
        hyps := hyps[i := hyps[i].(likelihood := Min(1.0, hyps[i].likelihood + 0.10),
                                   evidence := hyps[i].evidence + [CoupledErrLat])];
      }
    }
  }

  /** The memory-boost loop, updating the hypotheses one by one. */
  method ApplyBoosts(hyps0: seq<Hypothesis>, rollbackBoost: real, restartBoost: real, scaleBoost: real)
    returns (hyps: seq<Hypothesis>)
    ensures |hyps| == |hyps0|
    ensures forall j | 0 <= j < |hyps0| :: hyps[j] == Boost(hyps0[j], Boosts(rollbackBoost, restartBoost, scaleBoost))
  {
    hyps := hyps0;
    for i := 0 to |hyps|
      invariant |hyps| == |hyps0|
      invariant forall j | 0 <= j < i :: hyps[j] == Boost(hyps0[j], Boosts(rollbackBoost, restartBoost, scaleBoost))
      invariant forall j | i <= j < |hyps| :: hyps[j] == hyps0[j]
    {
      if hyps[i].name == ErrorBurst {
        hyps := hyps[i := hyps[i].(likelihood := Min(1.0, hyps[i].likelihood + rollbackBoost + restartBoost * 0.5))];
      }
      if hyps[i].name == CpuSaturation {
        hyps := hyps[i := hyps[i].(likelihood := Min(1.0, hyps[i].likelihood + scaleBoost))];
      }
    }
  }
}
