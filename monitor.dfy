/**
 * The monitor agent (agents/monitor.py): it feeds each metric sample into
 * its rolling window and turns the window's z-scores into an anomaly report.
 */
module Monitor {
  import opened Wrappers
  import opened Numeric
  import opened Types
  import opened Config
  import opened RollingWindows
  import Text

  /** `max((abs(v) for v in z.values()), default=0.0)`. */
  ghost function MaxAbs(z: map<string, real>): (m: real)
    ensures 0.0 <= m
    ensures forall k | k in z :: Abs(z[k]) <= m
    ensures z != map[] ==> exists k | k in z :: Abs(z[k]) == m
    ensures z == map[] ==> m == 0.0
    decreases |z|
  {
    if z == map[] then 0.0
    else
      var k :| k in z;
      var rest := z - {k};
      var m := MaxAbs(rest);
      assert forall j | j in z && j != k :: j in rest;
      Max(Abs(z[k]), m)
  }

  /** Any value that is an upper bound of the |z| and is attained (or 0 for no z) is MaxAbs. */
  lemma MaxAbsUnique(z: map<string, real>, m: real)
    requires forall k | k in z :: Abs(z[k]) <= m
    requires z != map[] ==> exists k | k in z :: Abs(z[k]) == m
    requires z == map[] ==> m == 0.0
    ensures m == MaxAbs(z)
  {
    var n := MaxAbs(z);
    if z != map[] {
      var a :| a in z && Abs(z[a]) == m;
      var b :| b in z && Abs(z[b]) == n;
      assert m <= n && n <= m;
    }
  }

  /** The entries whose |z| reaches the threshold, with their signed z. */
  function Abnormal(z: map<string, real>, threshold: real): map<string, real>
  {
    map k | k in z && Abs(z[k]) >= threshold :: z[k]
  }

  /** The anomaly score: max |z| plus 0.25 for every abnormal metric beyond the first. */
  function Score(maxAbsZ: real, abnormalCount: int): real
  {
    maxAbsZ + 0.25 * (BeyondFirst(abnormalCount) as real)
  }

  /**
   * The score is never below max |z| (so never negative), grows with the
   * number of abnormal metrics, and the second abnormal metric adds exactly 0.25.
   */
  lemma ScoreGrowsWithAbnormalCount(maxAbsZ: real, c: int, d: int)
    requires 0.0 <= maxAbsZ && c <= d
    ensures maxAbsZ <= Score(maxAbsZ, c) <= Score(maxAbsZ, d)
    ensures 0.0 <= Score(maxAbsZ, c)
    ensures Score(maxAbsZ, 2) == Score(maxAbsZ, 1) + 0.25
  {
  }

  function WarmUpReport(cfg: MonitorConfig, ts: real): AnomalyReport
  {
    AnomalyReport(ts, false, 0.0, map[], cfg.windowSize, WarmingUp)
  }

  /** The report of a ready window whose current z-scores are `z`. */
  ghost function Assess(cfg: MonitorConfig, z: map<string, real>, ts: real): AnomalyReport
  {
    var abnormal := Abnormal(z, cfg.zThreshold);
    var score := Score(MaxAbs(z), |abnormal|);
    var isAnomaly := |abnormal| >= cfg.minAbnormalMetrics && score >= cfg.scoreThreshold;
    AnomalyReport(ts, isAnomaly, score, abnormal, cfg.windowSize,
                  if isAnomaly then ZScoreSpike(Text.SortedKeys(abnormal.Keys), score) else Normal)
  }

  /** What `detect(point)` returns when the window holds the buffers `buf`. */
  ghost function Detection(cfg: MonitorConfig, buf: map<string, seq<real>>, point: MetricPoint, sqrt: real -> real): AnomalyReport
  {
    if !BuffersReady(buf, cfg.windowSize) then WarmUpReport(cfg, point.ts)
    else Assess(cfg, ZScoresOf(AllStats(buf, sqrt), AsDict(point), DefaultEpsilon), point.ts)
  }

  class MonitorAgent {
    const cfg: MonitorConfig
    const window: RollingWindow

    ghost predicate Valid()
      reads this, window
    {
      window.Valid() && window.windowSize == cfg.windowSize
    }

    constructor Init(cfg: MonitorConfig)
      requires cfg.windowSize >= MinWindowSize
      ensures Valid() && this.cfg == cfg && fresh(window) && window.buf == map[]
    {
      this.cfg := cfg;
      window := new RollingWindow.Init(cfg.windowSize);
    }

    /** `MonitorAgent(cfg)`, which fails when the window cannot be built. */
    static method Create(cfg: MonitorConfig) returns (r: Option<MonitorAgent>)
      ensures r.None? <==> cfg.windowSize < MinWindowSize
      ensures r.Some? ==> fresh(r.value) && fresh(r.value.window) && r.value.Valid()
      ensures r.Some? ==> r.value.cfg == cfg && r.value.window.buf == map[]
    {
      if cfg.windowSize < MinWindowSize {
        return None;
      }
      var m := new MonitorAgent.Init(cfg);
      return Some(m);
    }

    /** Pushes the sample's metric map, and changes nothing else. */
    method Observe(point: MetricPoint)
      requires Valid()
      modifies window
      ensures Valid()
      ensures window.buf == Pushed(old(window.buf), AsDict(point), cfg.windowSize)
    {
      window.Push(AsDict(point));
    }

    method Detect(point: MetricPoint, sqrt: real -> real) returns (r: AnomalyReport)
      requires Valid()
      ensures r == Detection(cfg, window.buf, point, sqrt)
    {
      if !window.Ready() {
        return WarmUpReport(cfg, point.ts);
      }
      var z := window.ZScores(AsDict(point), DefaultEpsilon, sqrt);
      assert z == ZScoresOf(AllStats(window.buf, sqrt), AsDict(point), DefaultEpsilon);
      var abnormal := Abnormal(z, cfg.zThreshold);
      var maxAbsZ := LargestMagnitude(z);
      var score := Score(maxAbsZ, |abnormal|);
      var isAnomaly := |abnormal| >= cfg.minAbnormalMetrics && score >= cfg.scoreThreshold;
      var reason := Normal;
      if isAnomaly {
        reason := ZScoreSpike(Text.SortedKeys(abnormal.Keys), score);
      }
      r := AnomalyReport(point.ts, isAnomaly, score, abnormal, cfg.windowSize, reason);
      assert r == Assess(cfg, z, point.ts);
    }
  }

  /** The running maximum of |z| over the map, 0.0 when it is empty. */
  method LargestMagnitude(z: map<string, real>) returns (m: real)
    ensures m == MaxAbs(z)
  {
    m := 0.0;
    var pending := z.Keys;
    while pending != {}
      invariant pending <= z.Keys
      invariant forall k | k in z && k !in pending :: Abs(z[k]) <= m
      invariant pending == z.Keys ==> m == 0.0
      invariant pending != z.Keys ==> exists k | k in z && k !in pending :: Abs(z[k]) == m
      decreases pending
    {
      var k :| k in pending;
      pending := pending - {k};
      m := Max(m, Abs(z[k]));
    }
    MaxAbsUnique(z, m);
  }

  /**
   * What a detection reports: before the window is full, a warm-up report
   * with score 0 and nothing abnormal; afterwards, exactly the metrics whose
   * |z| reaches the threshold (with their signed z), a score bounding every
   * |z|, an anomaly verdict iff there are enough abnormal metrics and the
   * score reaches its threshold, and a spike reason listing the abnormal
   * metric names in sorted order only for anomalies.
   */
  lemma DetectionReports(cfg: MonitorConfig, buf: map<string, seq<real>>, point: MetricPoint, sqrt: real -> real)
    ensures var r := Detection(cfg, buf, point, sqrt);
      && r.ts == point.ts && r.windowSize == cfg.windowSize
      && (!BuffersReady(buf, cfg.windowSize) ==>
            !r.isAnomaly && r.anomalyScore == 0.0 && r.abnormalMetrics == map[] && r.reason == WarmingUp)
      && (BuffersReady(buf, cfg.windowSize) ==>
            var z := ZScoresOf(AllStats(buf, sqrt), AsDict(point), DefaultEpsilon);
            && (forall k :: k in r.abnormalMetrics <==> k in z && Abs(z[k]) >= cfg.zThreshold)
            && (forall k | k in r.abnormalMetrics :: r.abnormalMetrics[k] == z[k])
            && (forall k | k in z :: Abs(z[k]) <= r.anomalyScore)
            && 0.0 <= r.anomalyScore
            && (r.isAnomaly <==> |r.abnormalMetrics| >= cfg.minAbnormalMetrics && r.anomalyScore >= cfg.scoreThreshold)
            && r.reason == (if r.isAnomaly then ZScoreSpike(Text.SortedKeys(r.abnormalMetrics.Keys), r.anomalyScore) else Normal))
  {
    if BuffersReady(buf, cfg.windowSize) {
      var z := ZScoresOf(AllStats(buf, sqrt), AsDict(point), DefaultEpsilon);
      var ab := Abnormal(z, cfg.zThreshold);
      ScoreGrowsWithAbnormalCount(MaxAbs(z), |ab|, |ab|);
    }
  }

  /** The reports of a fresh monitor fed `points` one by one, each observed and then detected. */
  ghost function ReplayFrom(cfg: MonitorConfig, buf: map<string, seq<real>>, points: seq<MetricPoint>, sqrt: real -> real): (rs: seq<AnomalyReport>)
    requires 1 <= cfg.windowSize
    ensures |rs| == |points|
    decreases |points|
  {
    if points == [] then []
    else
      var b := Pushed(buf, AsDict(points[0]), cfg.windowSize);
      [Detection(cfg, b, points[0], sqrt)] + ReplayFrom(cfg, b, points[1..], sqrt)
  }

  /** One step of a replay. */
  lemma ReplayFromCons(cfg: MonitorConfig, buf: map<string, seq<real>>, points: seq<MetricPoint>, sqrt: real -> real)
    requires 1 <= cfg.windowSize && points != []
    ensures var b := Pushed(buf, AsDict(points[0]), cfg.windowSize);
      ReplayFrom(cfg, buf, points, sqrt) == [Detection(cfg, b, points[0], sqrt)] + ReplayFrom(cfg, b, points[1..], sqrt)
  {
  }

  /** The loop step of `Replay`: one more observed and detected point extends the reports by one. */
  lemma ReplayAdvances(cfg: MonitorConfig, before: map<string, seq<real>>, points: seq<MetricPoint>, i: int, out: seq<AnomalyReport>, r: AnomalyReport, sqrt: real -> real)
    requires 1 <= cfg.windowSize && 0 <= i < |points|
    requires ReplayFrom(cfg, map[], points, sqrt) == out + ReplayFrom(cfg, before, points[i..], sqrt)
    requires r == Detection(cfg, Pushed(before, AsDict(points[i]), cfg.windowSize), points[i], sqrt)
    ensures ReplayFrom(cfg, map[], points, sqrt)
         == (out + [r]) + ReplayFrom(cfg, Pushed(before, AsDict(points[i]), cfg.windowSize), points[i + 1..], sqrt)
  {
    var after := Pushed(before, AsDict(points[i]), cfg.windowSize);
    assert points[i..][0] == points[i] && points[i..][1..] == points[i + 1..];
    assert ReplayFrom(cfg, before, points[i..], sqrt) == [r] + ReplayFrom(cfg, after, points[i + 1..], sqrt);
    SeqAssociative(out, [r], ReplayFrom(cfg, after, points[i + 1..], sqrt));
  }

  lemma SeqAssociative<T>(a: seq<T>, b: seq<T>, c: seq<T>)
    ensures a + (b + c) == (a + b) + c
  {
  }

  /** Prepending one report whose warm-up status follows the rule extends the rule to the whole sequence. */
  lemma WarmUpPrepend(rs: seq<AnomalyReport>, d: AnomalyReport, tail: seq<AnomalyReport>, n: int, w: int)
    requires rs == [d] + tail
    requires d.reason == WarmingUp <==> n + 1 < w
    requires forall i | 0 <= i < |tail| :: tail[i].reason == WarmingUp <==> (n + 1) + i + 1 < w
    ensures forall i | 0 <= i < |rs| :: rs[i].reason == WarmingUp <==> n + i + 1 < w
  {
    forall i | 0 <= i < |rs|
      ensures rs[i].reason == WarmingUp <==> n + i + 1 < w
    {
      if i > 0 {
        assert rs[i] == tail[i - 1];
      }
    }
  }

  /** A detection reports warm-up exactly when the window is not ready. */
  lemma WarmingUpIffNotReady(cfg: MonitorConfig, buf: map<string, seq<real>>, point: MetricPoint, sqrt: real -> real)
    ensures Detection(cfg, buf, point, sqrt).reason == WarmingUp <==> !BuffersReady(buf, cfg.windowSize)
  {
  }

  /**
   * Observing then detecting every point with a fresh monitor yields the
   * same reports every time: they are a function of the configuration and
   * the points alone.
   */
  method Replay(cfg: MonitorConfig, points: seq<MetricPoint>, sqrt: real -> real) returns (reports: Option<seq<AnomalyReport>>)
    ensures reports.None? <==> cfg.windowSize < MinWindowSize
    ensures reports.Some? ==> reports.value == ReplayFrom(cfg, map[], points, sqrt)
  {
    var agent := MonitorAgent.Create(cfg);
    if agent.None? {
      return None;
    }
    var m := agent.value;
    var out := [];
    for i := 0 to |points|
      invariant m.Valid() && m.cfg == cfg
      invariant ReplayFrom(cfg, map[], points, sqrt) == out + ReplayFrom(cfg, m.window.buf, points[i..], sqrt)
    {
      ghost var before := m.window.buf;
      m.Observe(points[i]);
      var r := m.Detect(points[i], sqrt);
      ReplayAdvances(cfg, before, points, i, out, r, sqrt);
      out := out + [r];
    }
    return Some(out);
  }

  /**
   * Timestamps play no part in detection: two runs over points with the
   * same metric values produce reports that differ in their timestamps only.
   */
  lemma {:induction false} ReplayIgnoresTimestamps(cfg: MonitorConfig, buf: map<string, seq<real>>, p: seq<MetricPoint>, q: seq<MetricPoint>, sqrt: real -> real)
    requires 1 <= cfg.windowSize
    requires |p| == |q| && forall i | 0 <= i < |p| :: SameMetrics(p[i], q[i])
    ensures var a := ReplayFrom(cfg, buf, p, sqrt);
      var b := ReplayFrom(cfg, buf, q, sqrt);
      forall i | 0 <= i < |p| :: a[i] == b[i].(ts := p[i].ts)
    decreases |p|
  {
    if p != [] {
      var b := Pushed(buf, AsDict(p[0]), cfg.windowSize);
      assert AsDict(q[0]) == AsDict(p[0]);
      ReplayIgnoresTimestamps(cfg, b, p[1..], q[1..], sqrt);
      ReplayFromCons(cfg, buf, p, sqrt);
      ReplayFromCons(cfg, buf, q, sqrt);
      DetectionIgnoresTimestamp(cfg, b, p[0], q[0], sqrt);
      UpToTimestampsPrepend(Detection(cfg, b, p[0], sqrt), Detection(cfg, b, q[0], sqrt),
                            ReplayFrom(cfg, b, p[1..], sqrt), ReplayFrom(cfg, b, q[1..], sqrt), p);
    }
  }

  /** Prepending reports that differ only in the timestamp keeps two report sequences equal up to timestamps. */
  lemma UpToTimestampsPrepend(x: AnomalyReport, y: AnomalyReport, a: seq<AnomalyReport>, c: seq<AnomalyReport>, p: seq<MetricPoint>)
    requires |p| == |a| + 1 == |c| + 1
    requires x == y.(ts := p[0].ts)
    requires forall i | 0 <= i < |a| :: a[i] == c[i].(ts := p[1..][i].ts)
    ensures forall i | 0 <= i < |p| :: ([x] + a)[i] == ([y] + c)[i].(ts := p[i].ts)
  {
    forall i | 0 <= i < |p|
      ensures ([x] + a)[i] == ([y] + c)[i].(ts := p[i].ts)
    {
      if i > 0 {
        assert p[1..][i - 1] == p[i];
      }
    }
  }

  /** Two samples carrying the same four metric values. */
  predicate SameMetrics(p: MetricPoint, q: MetricPoint)
  {
    p.cpu == q.cpu && p.mem == q.mem && p.latMs == q.latMs && p.err == q.err
  }

  /** A detection depends on the point's timestamp only through the report's `ts`. */
  lemma DetectionIgnoresTimestamp(cfg: MonitorConfig, buf: map<string, seq<real>>, p: MetricPoint, q: MetricPoint, sqrt: real -> real)
    requires SameMetrics(p, q)
    ensures Detection(cfg, buf, p, sqrt) == Detection(cfg, buf, q, sqrt).(ts := p.ts)
  {
  }

  /** Samples per buffer after `n` pushes into buffers of capacity `w`. */
  function Filled(n: int, w: int): int
  {
    if n < w then n else w
  }

  /** Pushing all four metrics into buffers holding `n` pushes' worth gives buffers holding n + 1 pushes' worth. */
  lemma FillOneMore(buf: map<string, seq<real>>, n: nat, metrics: map<string, real>, w: int)
    requires 1 <= w && metrics.Keys == {Cpu, Mem, LatMs, Err}
    requires if n == 0 then buf == map[] else buf.Keys == {Cpu, Mem, LatMs, Err} && forall k | k in buf :: |buf[k]| == Filled(n, w)
    ensures var b := Pushed(buf, metrics, w);
      b.Keys == {Cpu, Mem, LatMs, Err} && forall k | k in b :: |b[k]| == Filled(n + 1, w)
  {
    var b := Pushed(buf, metrics, w);
    forall k | k in b
      ensures |b[k]| == Filled(n + 1, w)
    {
      assert k in metrics;
      if n > 0 {
        assert k in buf;
      }
    }
  }

  /**
   * With every buffer holding `n` pushes' worth of samples, the replay warms
   * up exactly while fewer than `windowSize` samples have been seen: the
   * report at position i says `warming_up` iff n + i + 1 < windowSize. From
   * a fresh monitor (n = 0) the first windowSize - 1 reports are warm-up
   * reports and every later one is a real verdict.
   */
  lemma {:induction false} WarmUpLength(cfg: MonitorConfig, buf: map<string, seq<real>>, n: nat, points: seq<MetricPoint>, sqrt: real -> real)
    requires 1 <= cfg.windowSize
    requires if n == 0 then buf == map[] else buf.Keys == {Cpu, Mem, LatMs, Err} && forall k | k in buf :: |buf[k]| == Filled(n, cfg.windowSize)
    ensures var rs := ReplayFrom(cfg, buf, points, sqrt);
      forall i | 0 <= i < |points| :: rs[i].reason == WarmingUp <==> n + i + 1 < cfg.windowSize
    decreases |points|
  {
    if points != [] {
      var w := cfg.windowSize;
      var b := Pushed(buf, AsDict(points[0]), w);
      FillOneMore(buf, n, AsDict(points[0]), w);
      assert BuffersReady(b, w) <==> n + 1 >= w by {
        assert Cpu in b;
      }
      WarmUpLength(cfg, b, n + 1, points[1..], sqrt);
      ReplayFromCons(cfg, buf, points, sqrt);
      WarmingUpIffNotReady(cfg, b, points[0], sqrt);
      WarmUpPrepend(ReplayFrom(cfg, buf, points, sqrt), Detection(cfg, b, points[0], sqrt),
                    ReplayFrom(cfg, b, points[1..], sqrt), n, w);
    }
  }
}
