/** The arithmetic of a DALI channel: percent and byte levels, and the levels a fade writes.
    Python's float expressions are read as exact rationals; `round` is half-to-even. */
module FadePlan {
  import opened Common

  function Clamp(x: int, lo: int, hi: int): int {
    Max(lo, Min(hi, x))
  }

  /** round(n / d) for a positive denominator. */
  function Round(n: int, d: int): int
    requires d > 0
  {
    var q, r := n / d, n % d;
    if 2 * r < d then q else if 2 * r > d then q + 1 else if q % 2 == 0 then q else q + 1
  }

  function PctToByte(pct: int): int {
    Clamp(pct, 0, 100) * 254 / 100
  }

  function ByteToPct(b: int): int {
    Round(Clamp(b, 0, 254) * 100, 254)
  }

  /** Writing a percentage and reading the level back gives the percentage, clamped. */
  lemma PctRoundTrip(pct: int)
    ensures ByteToPct(PctToByte(pct)) == Clamp(pct, 0, 100)
    ensures 0 <= PctToByte(pct) <= 254
  {
  }

  /** The other way round the byte may move: what survives is the reading, not the byte.
      The byte survives exactly when it is one that a percentage maps to. */
  lemma ByteRoundTrip(b: int)
    requires 0 <= b <= 254
    ensures 0 <= ByteToPct(b) <= 100
    ensures ByteToPct(PctToByte(ByteToPct(b))) == ByteToPct(b)
    ensures PctToByte(ByteToPct(b)) == b <==> exists p :: 0 <= p <= 100 && PctToByte(p) == b
  {
    RoundBounds(b * 100, 254);
    PctRoundTrip(ByteToPct(b));
    if p :| 0 <= p <= 100 && PctToByte(p) == b { PctRoundTrip(p); }
  }

  // ---- Rounding ----

  /** Rounding is off by at most one half. */
  lemma RoundBounds(n: int, d: int)
    requires d > 0
    ensures 2 * n - d <= 2 * d * Round(n, d) <= 2 * n + d
  {
  }

  /** A whole multiple of d divides evenly. */
  lemma WholeDiv(q: int, d: int)
    requires d > 0
    ensures (q * d) % d == 0 && (q * d) / d == q
  {
    var p, r := (q * d) / d, (q * d) % d;
    assert d * (q - p) == r;
    MulOrder(d, 1, q - p);
    MulOrder(d, q - p, -1);
  }

  lemma RoundWhole(k: int, d: int)
    requires d > 0
    ensures Round(k * d, d) == k
  {
  }

  lemma RoundMonotone(m: int, n: int, d: int)
    requires d > 0 && m <= n
    ensures Round(m, d) <= Round(n, d)
  {
    RoundBounds(m, d);
    RoundBounds(n, d);
    var x, y := Round(m, d), Round(n, d);
    MulOrder(2 * d, y + 1, x);
    assert 2 * d * (y + 1) == 2 * d * y + 2 * d;
  }

  // ---- The plan ----

  function Steps(duration: int): int {
    Max(2, Min(16, duration / 100))
  }

  /** The level of write `i` out of `steps`. */
  function Level(start: int, target: int, steps: int, i: int): int
    requires steps > 0
  {
    Round(start * steps + (target - start) * i, steps)
  }

  /** All levels of an uninterrupted fade, in order. */
  function Plan(start: int, target: int, duration: int): (p: seq<int>)
    ensures start == target ==> p == []
    ensures start != target ==> |p| == Steps(duration)
  {
    if start == target then []
    else seq(Steps(duration), i => Level(start, target, Steps(duration), i + 1))
  }

  /** The pause between two writes, in milliseconds. */
  function Interval(duration: int): real {
    duration as real / Steps(duration) as real
  }

  /** The least whole number that is not below |d| / steps. */
  function CeilAbs(d: int, steps: int): int
    requires steps > 0
  {
    ((if d < 0 then -d else d) + steps - 1) / steps
  }

  lemma LevelEnds(start: int, target: int, steps: int)
    requires steps > 0
    ensures Level(start, target, steps, 0) == start
    ensures Level(start, target, steps, steps) == target
  {
    RoundWhole(start, steps);
    RoundWhole(target, steps);
    assert start * steps + (target - start) * steps == target * steps;
  }

  lemma LevelMonotone(start: int, target: int, steps: int, i: int, j: int)
    requires steps > 0 && i <= j
    ensures start <= target ==> Level(start, target, steps, i) <= Level(start, target, steps, j)
    ensures start >= target ==> Level(start, target, steps, i) >= Level(start, target, steps, j)
  {
    if start <= target {
      MulOrder(target - start, i, j);
      RoundMonotone(start * steps + (target - start) * i, start * steps + (target - start) * j, steps);
    }
    if start >= target {
      MulOrder(start - target, i, j);
      assert (target - start) * i == -((start - target) * i) && (target - start) * j == -((start - target) * j);
      RoundMonotone(start * steps + (target - start) * j, start * steps + (target - start) * i, steps);
    }
  }

  /** Two rounded values whose exact values are `e / d` apart differ by at most
      ceil(e / d), provided that whole distances start from whole values. */
  lemma RoundGap(n: int, e: int, d: int)
    requires d > 0 && e >= 0
    requires e % d == 0 ==> n % d == 0
    ensures Round(n + e, d) - Round(n, d) <= (e + d - 1) / d
  {
    if e % d == 0 {
      Exact(n, d);
      Exact(e, d);
      WholeGap(n / d, e / d, d);
    } else {
      RoundBounds(n, d);
      RoundBounds(n + e, d);
      CeilPart(e, d);
      GapBound(Round(n, d), Round(n + e, d), n, e, d, (e + d - 1) / d);
    }
  }

  lemma Exact(n: int, d: int)
    requires d > 0 && n % d == 0
    ensures n / d * d == n
  {
  }

  lemma Distribute(q: int, k: int, d: int)
    ensures q * d + k * d == (q + k) * d
  {
  }

  lemma WholeGap(q: int, k: int, d: int)
    requires d > 0 && k >= 0
    ensures Round(q * d + k * d, d) - Round(q * d, d) <= (k * d + d - 1) / d
  {
    Distribute(q, k, d);
    RoundWhole(q, d);
    RoundWhole(q + k, d);
    CeilWhole(k, d);
  }

  lemma GapBound(x: int, y: int, n: int, e: int, d: int, c: int)
    requires d > 0 && d * c > e
    requires 2 * n - d <= 2 * d * x && 2 * d * y <= 2 * (n + e) + d
    ensures y - x <= c
  {
    MulOrder(d, c + 1, y - x);
    assert d * (c + 1) == d * c + d;
    assert d * (y - x) == d * y - d * x;
    assert 2 * d * y == 2 * (d * y) && 2 * d * x == 2 * (d * x);
  }

  lemma CeilWhole(k: int, d: int)
    requires d > 0
    ensures (k * d + d - 1) / d == k
  {
    var q, r := (k * d + d - 1) / d, (k * d + d - 1) % d;
    assert d * (q - k) == d - 1 - r;
    MulOrder(d, 1, q - k);
    MulOrder(d, q - k, -1);
  }

  lemma CeilPart(e: int, d: int)
    requires d > 0 && e % d != 0
    ensures d * ((e + d - 1) / d) > e
  {
    var q, r := (e + d - 1) / d, (e + d - 1) % d;
    assert e + d - 1 == d * q + r;
    WholeDiv(q, d);
    assert q * d == d * q;
  }

  lemma LevelGap(start: int, target: int, steps: int, i: nat)
    requires steps > 0
    ensures Level(start, target, steps, i + 1) - Level(start, target, steps, i) <= CeilAbs(target - start, steps)
    ensures Level(start, target, steps, i) - Level(start, target, steps, i + 1) <= CeilAbs(target - start, steps)
  {
    LevelMonotone(start, target, steps, i, i + 1);
    var delta := target - start;
    var at, next := start * steps + delta * i, start * steps + delta * (i + 1);
    assert next == at + delta;
    CeilNonNegative(delta, steps);
    if delta >= 0 {
      WholeIfDivides(start, delta, steps, i);
      RoundGap(at, delta, steps);
    } else {
      WholeIfDivides(start, delta, steps, i + 1);
      NegDivides(delta, steps);
      RoundGap(next, -delta, steps);
    }
  }

  lemma CeilNonNegative(delta: int, steps: int)
    requires steps > 0
    ensures CeilAbs(delta, steps) >= 0
  {
  }

  lemma NegDivides(delta: int, d: int)
    requires d > 0
    ensures (-delta) % d == 0 ==> delta % d == 0
  {
    if (-delta) % d == 0 {
      var k := (-delta) / d;
      assert delta == (-k) * d;
      WholeDiv(-k, d);
    }
  }

  lemma WholeIfDivides(start: int, delta: int, steps: int, i: int)
    requires steps > 0
    ensures delta % steps == 0 ==> (start * steps + delta * i) % steps == 0
  {
    if delta % steps == 0 {
      var k := delta / steps;
      assert delta == k * steps;
      assert start * steps + delta * i == (start + k * i) * steps by {
        assert delta * i == (k * i) * steps by { assert k * steps * i == k * i * steps; }
      }
      WholeDiv(start + k * i, steps);
    }
  }

  /** The levels go from start towards target, in order, and never beyond. */
  ghost predicate Monotone(p: seq<int>, start: int, target: int) {
    forall i, j :: 0 <= i <= j < |p| ==>
      if start < target then start <= p[i] <= p[j] <= target else start >= p[i] >= p[j] >= target
  }

  /** No level is further than `c` from the one before it. */
  ghost predicate SmallSteps(p: seq<int>, start: int, c: int) {
    forall i :: 0 <= i < |p| ==> SmallStep(p, start, c, i)
  }

  predicate SmallStep(p: seq<int>, start: int, c: int, i: nat)
    requires i < |p|
  {
    -c <= p[i] - (if i == 0 then start else p[i - 1]) <= c
  }

  lemma PlanMonotone(start: int, target: int, duration: int)
    requires start != target
    ensures Monotone(Plan(start, target, duration), start, target)
  {
    var p := Plan(start, target, duration);
    var n := |p|;
    LevelEnds(start, target, n);
    forall i, j | 0 <= i <= j < n
      ensures if start < target then start <= p[i] <= p[j] <= target else start >= p[i] >= p[j] >= target
    {
      LevelMonotone(start, target, n, 0, i + 1);
      LevelMonotone(start, target, n, i + 1, j + 1);
      LevelMonotone(start, target, n, j + 1, n);
    }
  }

  lemma PlanStep(start: int, target: int, duration: int, i: nat)
    requires i < |Plan(start, target, duration)|
    ensures SmallStep(Plan(start, target, duration), start, CeilAbs(target - start, |Plan(start, target, duration)|), i)
  {
    var n := |Plan(start, target, duration)|;
    LevelEnds(start, target, n);
    LevelGap(start, target, n, i);
  }

  lemma PlanSteps(start: int, target: int, duration: int)
    requires start != target && Plan(start, target, duration) != []
    ensures SmallSteps(Plan(start, target, duration), start, CeilAbs(target - start, |Plan(start, target, duration)|))
  {
    var p := Plan(start, target, duration);
    var c := CeilAbs(target - start, |p|);
    forall i | 0 <= i < |p| ensures SmallStep(p, start, c, i) {
      PlanStep(start, target, duration, i);
    }
  }

  /** An uninterrupted fade makes 2 to 16 writes, in between one per tenth of a second, that go
      monotonically from the start level to the target, never overshoot, move in steps no
      larger than the ceiling of the even share, and end exactly on the target. */
  lemma PlanShape(start: int, target: int, duration: int)
    requires start != target
    ensures var p := Plan(start, target, duration);
            && 2 <= |p| <= 16 && p[|p| - 1] == target
            && |p| == (if duration < 200 then 2 else if duration >= 1600 then 16 else duration / 100)
            && Monotone(p, start, target)
            && SmallSteps(p, start, CeilAbs(target - start, |p|))
  {
    LevelEnds(start, target, |Plan(start, target, duration)|);
    PlanMonotone(start, target, duration);
    PlanSteps(start, target, duration);
  }

  /** Writes and pauses share the duration evenly; the pauses of an uninterrupted fade add up
      to less than it exactly when it is positive.  The endpoint admits no other duration of a fade (0, or 100 to
      5000, and 0 does not fade); the rest is for direct calls of fade_to. */
  lemma PlannedSleep(start: int, target: int, duration: int)
    requires start != target
    ensures var pauses := (|Plan(start, target, duration)| - 1) as real;
            && (pauses * Interval(duration) < duration as real <==> duration > 0)
            && (pauses + 1.0) * Interval(duration) == duration as real
  {
  }

  /** The loop of fade_to from a known start level.  `go[i]` is what should_continue answers
      before write `i`, `sent[i]` whether that write goes through; both are read as long as
      the loop runs.  The result is what was written: the whole plan, or the plan up to the
      first refusal, or the first level when the pause has a negative length and raises. */
  method FadeTo(start: int, target: int, duration: int, go: seq<bool>, sent: seq<bool>) returns (written: seq<int>)
    requires |go| >= 16 && |sent| >= 16
    ensures written <= Plan(start, target, duration)
    ensures forall i :: 0 <= i < |written| ==> go[i] && sent[i]
    ensures written == Plan(start, target, duration)
         || (duration < 0 && |written| == 1) || !go[|written|] || !sent[|written|]
    ensures duration < 0 ==> |written| <= 1
  {
    written := [];
    if start == target { return; }
    var steps := Steps(duration);
    var i := 1;
    while i < steps + 1
      invariant 1 <= i <= steps + 1
      invariant written == Plan(start, target, duration)[..i - 1]
      invariant forall j :: 0 <= j < |written| ==> go[j] && sent[j]
      invariant duration < 0 ==> i == 1
    {
      if !go[i - 1] { return; }
      var level := Level(start, target, steps, i);
      if !sent[i - 1] { return; }
      written := written + [level];
      if i < steps && duration < 0 { return; }
      i := i + 1;
    }
  }
}
