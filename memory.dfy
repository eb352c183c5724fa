/**
 * The memory store (core/memory.py): an append-only log of action outcomes
 * from which the agents read success rates to bias their confidence.
 *
 * The JSONL file is modelled by its lines: `None` for a file that does not
 * exist yet, otherwise one `Line` per line, where a blank or malformed line
 * is `None` and a decoded row is `Some(record)`.
 */
module Memory {
  import opened Wrappers
  import opened Numeric

  /** `_load`'s default `limit`. */
  const LoadLimit := 5000

  datatype MemoryRecord = MemoryRecord(
    ts: real,
    signature: string,
    action: string,
    success: bool,
    outcome: string,
    metadata: map<string, string>)

  type Line = Option<MemoryRecord>

  /** The lines `_load` looks at: the first `limit` ones, blank and malformed lines included. */
  function Head(lines: seq<Line>, limit: int): (h: seq<Line>)
    ensures h <= lines
    ensures |h| == if limit <= 0 then 0 else if limit < |lines| then limit else |lines|
  {
    lines[..if limit <= 0 then 0 else if limit < |lines| then limit else |lines|]
  }

  /** The decoded rows among `lines`, in file order. */
  function Records(lines: seq<Line>): (rs: seq<MemoryRecord>)
    ensures |rs| <= |lines|
    ensures forall r :: r in rs <==> Some(r) in lines
    decreases |lines|
  {
    if lines == [] then []
    else
      var init := lines[..|lines| - 1];
      assert lines == init + [lines[|lines| - 1]];
      Records(init) + (match lines[|lines| - 1] case Some(r) => [r] case None => [])
  }

  /** What `_load(limit)` returns for the file `file`. */
  function LoadedRows(file: Option<seq<Line>>, limit: int): seq<MemoryRecord>
  {
    match file
    case None => []
    case Some(lines) => Records(Head(lines, limit))
  }

  predicate Matches(r: MemoryRecord, signature: string, action: string)
  {
    r.signature == signature && r.action == action
  }

  /** `(succ, total)` over `rows`: the matching rows, and those among them that succeeded. */
  function Tally(rows: seq<MemoryRecord>, signature: string, action: string): (t: (int, int))
    ensures 0 <= t.0 <= t.1 <= |rows|
    ensures t.1 == 0 <==> forall i | 0 <= i < |rows| :: !Matches(rows[i], signature, action)
    decreases |rows|
  {
    if rows == [] then (0, 0)
    else
      var init := rows[..|rows| - 1];
      var r := rows[|rows| - 1];
      var t := Tally(init, signature, action);
      assert forall i | 0 <= i < |init| :: rows[i] == init[i];
      if Matches(r, signature, action) then (t.0 + (if r.success then 1 else 0), t.1 + 1) else t
  }

  /** `succ / total`, or 0.0 when nothing matched. */
  function Rate(succ: int, total: int): real
  {
    if total != 0 then succ as real / total as real else 0.0
  }

  lemma RateInUnitInterval(succ: int, total: int)
    requires 0 <= succ <= total
    ensures 0.0 <= Rate(succ, total) <= 1.0
    ensures 0 < total && succ == total ==> Rate(succ, total) == 1.0
  {
    if total != 0 {
      assert succ as real <= total as real;
    }
  }

  /** The bias formula over a tally. */
  function BiasOf(succ: int, total: int, base: real, maxBoost: real): real
  {
    if total < 2 then base
    else Clamp01(base + maxBoost * Rate(succ, total) * Min(1.0, total as real / 10.0))
  }

  /**
   * `bias` returns `base` exactly when fewer than two records match, and a
   * value in [0,1] otherwise. For a base in [0,1] and a non-negative
   * maximum boost, it never lowers the base and raises it by at most
   * `maxBoost` (and never above 1).
   */
  lemma BiasBounds(succ: int, total: int, base: real, maxBoost: real)
    requires 0 <= succ <= total
    ensures total < 2 ==> BiasOf(succ, total, base, maxBoost) == base
    ensures total >= 2 ==> 0.0 <= BiasOf(succ, total, base, maxBoost) <= 1.0
    ensures 0.0 <= base <= 1.0 && 0.0 <= maxBoost ==>
      base <= BiasOf(succ, total, base, maxBoost) <= Min(1.0, base + maxBoost)
  {
    RateInUnitInterval(succ, total);
    if 0.0 <= maxBoost && total >= 2 {
      var rate := Rate(succ, total);
      var c := Min(1.0, total as real / 10.0);
      assert 0.0 <= rate * c <= 1.0 by {
        assert 0.0 <= c <= 1.0;
        assert rate * c <= 1.0 * c;
      }
      var boost := maxBoost * rate * c;
      assert boost == maxBoost * (rate * c);
      assert 0.0 <= boost <= maxBoost by {
        assert maxBoost * (rate * c) <= maxBoost * 1.0;
      }
      assert BiasOf(succ, total, base, maxBoost) == Clamp01(base + boost);
    }
  }

  /** Every row matches and succeeded: the tally counts all of them as successes. */
  lemma {:induction false} TallyAllSuccessful(rows: seq<MemoryRecord>, signature: string, action: string)
    requires forall i | 0 <= i < |rows| :: Matches(rows[i], signature, action) && rows[i].success
    ensures Tally(rows, signature, action) == (|rows|, |rows|)
    decreases |rows|
  {
    if rows != [] {
      TallyAllSuccessful(rows[..|rows| - 1], signature, action);
    }
  }

  /**
   * Saturation: ten matching records, all successful, with base 0.5 and
   * maximum boost 0.2 give exactly 0.7.
   */
  lemma BiasSaturates(rows: seq<MemoryRecord>, signature: string, action: string)
    requires |rows| == 10
    requires forall i | 0 <= i < |rows| :: Matches(rows[i], signature, action) && rows[i].success
    ensures var t := Tally(rows, signature, action); BiasOf(t.0, t.1, 0.5, 0.2) == 0.7
  {
    TallyAllSuccessful(rows, signature, action);
  }

  /**
   * A line appended while the file has fewer than `LoadLimit` lines is
   * loaded last; once the file has `LoadLimit` lines, appended lines are
   * never loaded again.
   */
  lemma AppendedLineLoaded(lines: seq<Line>, line: Line)
    ensures |lines| < LoadLimit ==>
      LoadedRows(Some(lines + [line]), LoadLimit)
        == LoadedRows(Some(lines), LoadLimit) + (match line case Some(r) => [r] case None => [])
    ensures |lines| >= LoadLimit ==>
      LoadedRows(Some(lines + [line]), LoadLimit) == LoadedRows(Some(lines), LoadLimit)
  {
    if |lines| < LoadLimit {
      var all := lines + [line];
      assert Head(all, LoadLimit) == all;
      assert Head(lines, LoadLimit) == lines;
      assert all[..|all| - 1] == lines;
      assert Records(all) == Records(lines) + (match line case Some(r) => [r] case None => []);
    } else {
      assert Head(lines + [line], LoadLimit) == Head(lines, LoadLimit);
    }
  }

  /** Existing lines, with a missing file read as no lines. */
  function LinesOf(file: Option<seq<Line>>): seq<Line>
  {
    match file
    case None => []
    case Some(lines) => lines
  }

  class MemoryStore {
    /** The log file's lines; `None` until the first append creates it. */
    var file: Option<seq<Line>>

    constructor(existing: Option<seq<Line>>)
      ensures file == existing
    {
      file := existing;
    }

    /** `append`: one new record at the end; `metadata` defaults to the empty map. */
    method Append(signature: string, action: string, success: bool, outcome: string,
                  metadata: Option<map<string, string>>, now: real)
      modifies this
      ensures file == Some(LinesOf(old(file)) + [Some(MemoryRecord(now, signature, action, success, outcome, metadata.GetOr(map[])))])
    {
      var row := MemoryRecord(now, signature, action, success, outcome, metadata.GetOr(map[]));
      file := Some(LinesOf(file) + [Some(row)]);
    }

    /** `_load(limit)`: the rows of the first `limit` lines; none for a missing file. */
    method Load(limit: int) returns (rows: seq<MemoryRecord>)
      ensures rows == LoadedRows(file, limit)
      ensures file.None? ==> rows == []
      ensures |rows| <= (if limit <= 0 then 0 else limit)
    {
      if file.None? {
        return [];
      }
      var lines := file.value;
      rows := [];
      var i := 0;
      while i < |lines|
        invariant 0 <= i <= |lines| && i <= (if limit <= 0 then 0 else limit)
        invariant rows == Records(lines[..i])
      {
        if i >= limit {
          break;
        }
        assert lines[..i + 1] == lines[..i] + [lines[i]];
        assert lines[..i + 1][..i] == lines[..i];
        if lines[i].Some? {
          rows := rows + [lines[i].value];
        }
        i := i + 1;
      }
      assert lines[..i] == Head(lines, limit);
    }

    /** `success_rate`: `(succ, total, rate)` over the loaded rows matching signature and action. */
    method SuccessRate(signature: string, action: string) returns (succ: int, total: int, rate: real)
      ensures (succ, total) == Tally(LoadedRows(file, LoadLimit), signature, action)
      ensures 0 <= succ <= total && 0.0 <= rate <= 1.0
      ensures rate == Rate(succ, total)
    {
      var rows := Load(LoadLimit);
      succ, total := 0, 0;
      for i := 0 to |rows|
        invariant (succ, total) == Tally(rows[..i], signature, action)
      {
        assert rows[..i + 1][..i] == rows[..i];
        if rows[i].signature == signature && rows[i].action == action {
          total := total + 1;
          succ := succ + if rows[i].success then 1 else 0;
        }
      }
      assert rows[..|rows|] == rows;
      rate := if total != 0 then succ as real / total as real else 0.0;
      RateInUnitInterval(succ, total);
    }

    /** `bias`: the confidence `base` adjusted by the tally of matching records. */
    function Bias(signature: string, action: string, base: real, maxBoost: real := 0.25): (b: real)
      reads this
      ensures var t := Tally(LoadedRows(file, LoadLimit), signature, action);
        && (t.1 < 2 ==> b == base)
        && (t.1 >= 2 ==> 0.0 <= b <= 1.0)
        && (0.0 <= base <= 1.0 && 0.0 <= maxBoost ==> base <= b <= Min(1.0, base + maxBoost))
    {
      var t := Tally(LoadedRows(file, LoadLimit), signature, action);
      BiasBounds(t.0, t.1, base, maxBoost);
      BiasOf(t.0, t.1, base, maxBoost)
    }
  }
}
