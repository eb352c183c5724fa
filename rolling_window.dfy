/**
 * Per-metric bounded FIFO sample buffers with their mean, population
 * standard deviation and z-scores (core/rolling_window.py).
 */
module RollingWindows {
  import opened Wrappers
  import opened Numeric
  import Config

  /** The default `epsilon` of `zscores`: 1e-6. */
  const DefaultEpsilon: real := 0.000001

  datatype RollingStats = RollingStats(n: int, mean: real, std: real)

  /** `sum(vals)`. */
  function Sum(s: seq<real>): real
  {
    if s == [] then 0.0 else Sum(s[..|s| - 1]) + s[|s| - 1]
  }

  function Mean(s: seq<real>): real
    requires |s| > 0
  {
    Sum(s) / (|s| as real)
  }

  lemma SquareNonNegative(d: real)
    ensures 0.0 <= d * d
  {
    if d > 0.0 {
      SquarePositive(d);
    } else if d < 0.0 {
      SquarePositive(-d);
      assert d * d == (-d) * (-d);
    }
  }

  /** `sum((x - m) ** 2 for x in s)`, which is never negative. */
  function SumSquaredDeviations(s: seq<real>, m: real): (r: real)
    ensures 0.0 <= r
  {
    if s == [] then 0.0
    else
      var d := s[|s| - 1] - m;
      SquareNonNegative(d);
      SumSquaredDeviations(s[..|s| - 1], m) + d * d
  }

  /** The population variance: squared deviations divided by n, not n - 1. */
  function Variance(s: seq<real>): (v: real)
    requires |s| > 0
    ensures 0.0 <= v
  {
    SumSquaredDeviations(s, Mean(s)) / (|s| as real)
  }

  /** The statistics of one non-empty buffer; `sqrt` stands for `math.sqrt`. */
  function StatsOf(s: seq<real>, sqrt: real -> real): RollingStats
    requires |s| > 0
  {
    RollingStats(|s|, Mean(s), sqrt(Variance(s)))
  }

  /** What `stats()` returns for buffers `buf`: one entry per non-empty buffer. */
  function AllStats(buf: map<string, seq<real>>, sqrt: real -> real): map<string, RollingStats>
  {
    map k | k in buf && |buf[k]| > 0 :: StatsOf(buf[k], sqrt)
  }

  /** One z-score: the deviation from the mean over `max(std, epsilon)`. */
  function ZScore(x: real, st: RollingStats, epsilon: real): real
    requires 0.0 < epsilon
  {
    (x - st.mean) / Max(st.std, epsilon)
  }

  /** What `zscores(current, epsilon)` returns given the statistics `st`. */
  function ZScoresOf(st: map<string, RollingStats>, current: map<string, real>, epsilon: real): map<string, real>
    requires 0.0 < epsilon
  {
    map k | k in current && k in st :: ZScore(current[k], st[k], epsilon)
  }

  /**
   * `zscores` has an entry exactly for the keys that are both in `current`
   * and in the statistics, and each entry is that key's z-score.
   */
  lemma ZScoresDescribe(st: map<string, RollingStats>, current: map<string, real>, epsilon: real, k: string)
    requires 0.0 < epsilon
    ensures k in ZScoresOf(st, current, epsilon) <==> k in current && k in st
    ensures k in ZScoresOf(st, current, epsilon) ==> ZScoresOf(st, current, epsilon)[k] == ZScore(current[k], st[k], epsilon)
  {
  }

  /** `deque.append` on a deque with `maxlen = cap`: the last `cap` items of `s + [x]`. */
  function Appended(s: seq<real>, x: real, cap: int): (r: seq<real>)
    requires 1 <= cap
    ensures |s| <= cap ==> 0 < |r| <= cap && r[|r| - 1] == x
    ensures |s| < cap ==> r == s + [x]
    ensures |s| == cap ==> r == s[1..] + [x]
  {
    var t := s + [x];
    if |t| <= cap then t else t[|t| - cap..]
  }

  /** The buffers after `push(metrics)` on buffers `buf` with capacity `cap`. */
  function Pushed(buf: map<string, seq<real>>, metrics: map<string, real>, cap: int): map<string, seq<real>>
    requires 1 <= cap
  {
    map k | k in buf.Keys + metrics.Keys ::
      if k in metrics then Appended(if k in buf then buf[k] else [], metrics[k], cap) else buf[k]
  }

  /** Every buffer holds between 1 and `cap` samples. */
  ghost predicate Bounded(buf: map<string, seq<real>>, cap: int)
  {
    forall k | k in buf :: 0 < |buf[k]| <= cap
  }

  /** `ready()` on buffers `buf` of capacity `cap`. */
  predicate BuffersReady(buf: map<string, seq<real>>, cap: int)
  {
    |buf| > 0 && forall k | k in buf :: |buf[k]| >= cap
  }

  /**
   * A push keeps every buffer within capacity, tracks exactly the old keys
   * plus the pushed ones, leaves buffers of keys not pushed untouched, and
   * appends each pushed value last, dropping exactly the oldest sample of
   * a full buffer.
   */
  lemma PushKeepsFifoBound(buf: map<string, seq<real>>, metrics: map<string, real>, cap: int)
    requires 1 <= cap && Bounded(buf, cap)
    ensures var r := Pushed(buf, metrics, cap);
      && Bounded(r, cap)
      && r.Keys == buf.Keys + metrics.Keys
      && (forall k | k in buf && k !in metrics :: r[k] == buf[k])
      && (forall k | k in metrics && k !in buf :: r[k] == [metrics[k]])
      && (forall k | k in metrics && k in buf && |buf[k]| < cap :: r[k] == buf[k] + [metrics[k]])
      && (forall k | k in metrics && k in buf && |buf[k]| == cap :: r[k] == buf[k][1..] + [metrics[k]])
  {
  }

  /**
   * `stats()` reports exactly the non-empty buffers, each with its length,
   * its mean (sum over n) and a non-negative standard deviation whose
   * square is the population variance.
   */
  lemma StatsDescribeBuffers(buf: map<string, seq<real>>, sqrt: real -> real, k: string)
    requires IsSqrt(sqrt)
    ensures k in AllStats(buf, sqrt) <==> k in buf && |buf[k]| > 0
    ensures k in AllStats(buf, sqrt) ==>
      var st := AllStats(buf, sqrt)[k];
      && st.n == |buf[k]|
      && st.mean * (st.n as real) == Sum(buf[k])
      && 0.0 <= st.std
      && st.std * st.std == Variance(buf[k])
  {
    if k in buf && |buf[k]| > 0 {
      var v := Variance(buf[k]);
      assert 0.0 <= sqrt(v) && v <= sqrt(v) * sqrt(v) <= v;
    }
  }

  lemma {:induction false} SumOfConstant(s: seq<real>, c: real)
    requires forall i | 0 <= i < |s| :: s[i] == c
    ensures Sum(s) == (|s| as real) * c
  {
    if s != [] {
      SumOfConstant(s[..|s| - 1], c);
    }
  }

  lemma {:induction false} NoDeviationFromConstant(s: seq<real>, c: real)
    requires forall i | 0 <= i < |s| :: s[i] == c
    ensures SumSquaredDeviations(s, c) == 0.0
  {
    if s != [] {
      NoDeviationFromConstant(s[..|s| - 1], c);
    }
  }

  /**
   * A buffer holding one constant value has mean that value, variance and
   * standard deviation zero, and a z-score that divides the deviation by
   * `epsilon`: nothing forces it to zero.
   */
  lemma ConstantBufferDividesByEpsilon(s: seq<real>, c: real, x: real, sqrt: real -> real, epsilon: real)
    requires IsSqrt(sqrt) && 0.0 < epsilon
    requires |s| > 0 && forall i | 0 <= i < |s| :: s[i] == c
    ensures Mean(s) == c && Variance(s) == 0.0 && StatsOf(s, sqrt).std == 0.0
    ensures ZScore(x, StatsOf(s, sqrt), epsilon) == (x - c) / epsilon
  {
    SumOfConstant(s, c);
    NoDeviationFromConstant(s, c);
    SqrtOfZero(sqrt);
  }

  /** Pushing one more key extends the pushed buffers by that key's buffer. */
  lemma PushedStep(buf: map<string, seq<real>>, done: map<string, real>, k: string, x: real, cap: int)
    requires 1 <= cap && k !in done
    ensures Pushed(buf, done[k := x], cap)
      == Pushed(buf, done, cap)[k := Appended(if k in buf then buf[k] else [], x, cap)]
  {
    var l := Pushed(buf, done[k := x], cap);
    var r := Pushed(buf, done, cap)[k := Appended(if k in buf then buf[k] else [], x, cap)];
    assert l.Keys == r.Keys by {
      assert (done[k := x]).Keys == done.Keys + {k};
    }
    forall j | j in l
      ensures l[j] == r[j]
    {
      PushedStepAt(buf, done, k, x, cap, j);
    }
  }

  lemma PushedStepAt(buf: map<string, seq<real>>, done: map<string, real>, k: string, x: real, cap: int, j: string)
    requires 1 <= cap && k !in done && j in Pushed(buf, done[k := x], cap)
    ensures var r := Pushed(buf, done, cap)[k := Appended(if k in buf then buf[k] else [], x, cap)];
      j in r && Pushed(buf, done[k := x], cap)[j] == r[j]
  {
    if j != k {
      assert j in done[k := x] <==> j in done;
    }
  }

  /** A z-score divides by at least `epsilon` and has the sign of the deviation. */
  lemma ZScoreSign(x: real, st: RollingStats, epsilon: real)
    requires 0.0 < epsilon
    ensures epsilon <= Max(st.std, epsilon)
    ensures ZScore(x, st, epsilon) * Max(st.std, epsilon) == x - st.mean
    ensures 0.0 <= ZScore(x, st, epsilon) <==> st.mean <= x
    ensures x == st.mean ==> ZScore(x, st, epsilon) == 0.0
  {
  }

  class RollingWindow {
    const windowSize: int
    var buf: map<string, seq<real>>

    ghost predicate Valid()
      reads this
    {
      windowSize >= Config.MinWindowSize && Bounded(buf, windowSize)
    }

    constructor Init(windowSize: int)
      requires windowSize >= Config.MinWindowSize
      ensures Valid() && this.windowSize == windowSize && buf == map[]
    {
      this.windowSize := windowSize;
      buf := map[];
    }

    /** `RollingWindow(window_size)`, which raises for a window below five samples. */
    static method Create(windowSize: int) returns (r: Option<RollingWindow>)
      ensures r.None? <==> windowSize < Config.MinWindowSize
      ensures r.Some? ==> fresh(r.value) && r.value.Valid()
      ensures r.Some? ==> r.value.windowSize == windowSize && r.value.buf == map[]
    {
      if windowSize < Config.MinWindowSize {
        return None;
      }
      var w := new RollingWindow.Init(windowSize);
      return Some(w);
    }

    method Push(metrics: map<string, real>)
      requires Valid()
      modifies this
      ensures Valid()
      ensures buf == Pushed(old(buf), metrics, windowSize)
    {
      var pending := metrics.Keys;
      ghost var done: map<string, real> := map[];
      while pending != {}
        invariant pending <= metrics.Keys
        invariant done.Keys == metrics.Keys - pending
        invariant forall k | k in done :: done[k] == metrics[k]
        invariant Valid()
        invariant buf == Pushed(old(buf), done, windowSize)
        decreases pending
      {
        var k :| k in pending;
        // An unseen key starts from an empty deque.
        var d := if k in buf then buf[k] else [];
        PushedStep(old(buf), done, k, metrics[k], windowSize);
        assert k in buf <==> k in old(buf);
        buf := buf[k := Appended(d, metrics[k], windowSize)];
        pending := pending - {k};
        done := done[k := metrics[k]];
      }
      assert done == metrics;
    }

    /** Ready once every tracked buffer is full; never ready with nothing tracked. */
    function Ready(): (b: bool)
      reads this
      requires Valid()
      ensures b <==> buf != map[] && forall k | k in buf :: |buf[k]| == windowSize
    {
      BuffersReady(buf, windowSize)
    }

    method Stats(sqrt: real -> real) returns (st: map<string, RollingStats>)
      ensures st == AllStats(buf, sqrt)
    {
      st := map[];
      var pending := buf.Keys;
      while pending != {}
        invariant pending <= buf.Keys
        invariant st == map k | k in buf && k !in pending && |buf[k]| > 0 :: StatsOf(buf[k], sqrt)
        decreases pending
      {
        var k :| k in pending;
        pending := pending - {k};
        var vals := buf[k];
        var n := |vals|;
        if n == 0 {
          continue;
        }
        var mean := Sum(vals) / (n as real);
        var variance := SumSquaredDeviations(vals, mean) / (n as real);
        st := st[k := RollingStats(n, mean, sqrt(variance))];
      }
    }

    method ZScores(current: map<string, real>, epsilon: real, sqrt: real -> real) returns (z: map<string, real>)
      requires 0.0 < epsilon
      ensures z == ZScoresOf(AllStats(buf, sqrt), current, epsilon)
    {
      var st := Stats(sqrt);
      z := map[];
      var pending := current.Keys;
      while pending != {}
        invariant pending <= current.Keys
        invariant z.Keys == (current.Keys - pending) * st.Keys
        invariant forall k | k in z :: z[k] == ZScore(current[k], st[k], epsilon)
        decreases pending
      {
        var k :| k in pending;
        pending := pending - {k};
        if k !in st {
          continue;
        }
        var denom := Max(st[k].std, epsilon);
        z := z[k := (current[k] - st[k].mean) / denom];
      }
      assert z == ZScoresOf(st, current, epsilon);
    }
  }
}
