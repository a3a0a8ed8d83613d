/**
 * The renderers place their lines with loops over a floating-point counter
 * (`for (y = start; y < limit; y += step)`). This module gives the values
 * such a loop visits as a sequence, so that the renderers' loops can be
 * proved against it.
 */
module Stepping {
  import opened Sequences

  /** Each step of at least `unit` lowers the distance to `limit`, counted in units, by one. */
  lemma StepDecreases(limit: real, y: real, step: real, unit: real)
    requires unit > 0.0 && step >= unit
    ensures (limit - (y + step)) / unit <= (limit - y) / unit - 1.0
    ensures y < limit ==> (limit - y) / unit > 0.0
  {
    assert (limit - (y + step)) / unit == (limit - y) / unit - step / unit;
    assert step / unit >= 1.0;
  }

  /** The values of `for (v = start; v < limit; v += step)`. */
  function Progression(start: real, step: real, limit: real): seq<real>
    requires step > 0.0
    decreases (limit - start) / step
  {
    if start >= limit then
      []
    else
      StepDecreases(limit, start, step, step);
      [start] + Progression(start + step, step, limit)
  }

  /**
   * `all` starts at `start`, moves by `step`, stays below `limit` and stops at
   * the first value that reaches it: the values a counting-up loop visits.
   */
  ghost predicate Spaced(all: seq<real>, start: real, step: real, limit: real) {
    && (|all| == 0 <==> start >= limit)
    && (|all| > 0 ==> all[0] == start && all[|all| - 1] + step >= limit)
    && (forall i, j {:trigger all[i], all[j]} :: 0 <= i && j == i + 1 && j < |all| ==> all[j] == all[i] + step)
    && (forall k :: 0 <= k < |all| ==> all[k] < limit)
  }

  /** The progression is spaced by its step, and never drops below its start. */
  lemma {:induction false} ProgressionValues(start: real, step: real, limit: real)
    requires step > 0.0
    ensures var p := Progression(start, step, limit);
      && Spaced(p, start, step, limit)
      && (forall k :: 0 <= k < |p| ==> start <= p[k])
    decreases (limit - start) / step
  {
    if start < limit {
      StepDecreases(limit, start, step, step);
      ProgressionValues(start + step, step, limit);
      var p := Progression(start, step, limit);
      var q := Progression(start + step, step, limit);
      assert p == [start] + q;
      forall i, j | 0 <= i && j == i + 1 && j < |p|
        ensures p[j] == p[i] + step
      {
        if i > 0 {
          assert p[j] == q[i] && p[i] == q[i - 1];
        }
      }
    }
  }

  /** The values of `for (v = start; v >= 0; v -= step)`. */
  function Countdown(start: real, step: real): seq<real>
    requires step > 0.0
    decreases start / step
  {
    if start < 0.0 then
      []
    else
      StepDecreases(start, 0.0, step, step);
      [start] + Countdown(start - step, step)
  }

  /**
   * `all` starts at `start`, moves down by `step`, stays at or above zero and
   * stops at the first value below it: the values a counting-down loop visits.
   */
  ghost predicate SpacedDown(all: seq<real>, start: real, step: real) {
    && (|all| == 0 <==> start < 0.0)
    && (|all| > 0 ==> all[0] == start && all[|all| - 1] - step < 0.0)
    && (forall i, j {:trigger all[i], all[j]} :: 0 <= i && j == i + 1 && j < |all| ==> all[j] == all[i] - step)
    && (forall k :: 0 <= k < |all| ==> 0.0 <= all[k])
  }

  /** The countdown is spaced down by its step, and never rises above its start. */
  lemma {:induction false} CountdownValues(start: real, step: real)
    requires step > 0.0
    ensures var c := Countdown(start, step);
      && SpacedDown(c, start, step)
      && (forall k :: 0 <= k < |c| ==> c[k] <= start)
    decreases start / step
  {
    if start >= 0.0 {
      StepDecreases(start, 0.0, step, step);
      CountdownValues(start - step, step);
      var c := Countdown(start, step);
      var q := Countdown(start - step, step);
      assert c == [start] + q;
      forall i, j | 0 <= i && j == i + 1 && j < |c|
        ensures c[j] == c[i] - step
      {
        if i > 0 {
          assert c[j] == q[i] && c[i] == q[i - 1];
        }
      }
    }
  }

  /** The `k`-th value of a progression is `start + k * step`. */
  lemma {:induction false} ProgressionAt(start: real, step: real, limit: real, k: nat)
    requires step > 0.0 && k < |Progression(start, step, limit)|
    ensures Progression(start, step, limit)[k] == start + k as real * step
    decreases k
  {
    StepDecreases(limit, start, step, step);
    if k > 0 {
      ProgressionAt(start + step, step, limit, k - 1);
      assert (k - 1) as real * step + step == k as real * step;
    }
  }

  /** The `k`-th value of a countdown is `start - k * step`. */
  lemma {:induction false} CountdownAt(start: real, step: real, k: nat)
    requires step > 0.0 && k < |Countdown(start, step)|
    ensures Countdown(start, step)[k] == start - k as real * step
    decreases k
  {
    StepDecreases(start, 0.0, step, step);
    if k > 0 {
      CountdownAt(start - step, step, k - 1);
      assert (k - 1) as real * step + step == k as real * step;
    }
  }

  /**
   * A progression has exactly as many values as it takes steps to reach the
   * limit: `n` steps from `start` reach it and `n - 1` steps do not.
   */
  lemma ProgressionLength(start: real, step: real, limit: real)
    requires step > 0.0
    ensures var n := |Progression(start, step, limit)|;
      start + n as real * step >= limit && (n > 0 ==> start + (n - 1) as real * step < limit)
  {
    var p := Progression(start, step, limit);
    ProgressionValues(start, step, limit);
    if |p| > 0 {
      ProgressionAt(start, step, limit, |p| - 1);
      assert (|p| - 1) as real * step + step == |p| as real * step;
    }
  }

  /** Likewise a countdown has as many values as it takes steps to drop below zero. */
  lemma CountdownLength(start: real, step: real)
    requires step > 0.0
    ensures var n := |Countdown(start, step)|;
      start - n as real * step < 0.0 && (n > 0 ==> start - (n - 1) as real * step >= 0.0)
  {
    var c := Countdown(start, step);
    CountdownValues(start, step);
    if |c| > 0 {
      CountdownAt(start, step, |c| - 1);
      assert (|c| - 1) as real * step + step == |c| as real * step;
    }
  }

  /**
   * The account a counting loop keeps: `n` of the values `all` have been
   * visited, the loop goes on (`more`) exactly while some are left, and the
   * counter `v` holds the next one.
   */
  ghost predicate Counting(all: seq<real>, n: nat, v: real, more: bool) {
    n <= |all| && (n < |all| <==> more) && (n < |all| ==> all[n] == v)
  }

  /** Before the first pass, a counting-up loop's counter holds the first value of its progression. */
  lemma CountUpStarts(start: real, step: real, limit: real)
    requires step > 0.0
    ensures Counting(Progression(start, step, limit), 0, start, start < limit)
  {
    ProgressionValues(start, step, limit);
  }

  /** Visiting the next value and stepping the counter on keeps the account. */
  lemma CountUp(start: real, step: real, limit: real, n: nat, v: real)
    requires step > 0.0 && v < limit && Counting(Progression(start, step, limit), n, v, v < limit)
    ensures Counting(Progression(start, step, limit), n + 1, v + step, v + step < limit)
  {
    ProgressionValues(start, step, limit);
  }

  /** The same start for any sequence of spaced values. */
  lemma CountSpacedStarts(all: seq<real>, start: real, step: real, limit: real)
    requires Spaced(all, start, step, limit)
    ensures Counting(all, 0, start, start < limit)
  {
  }

  /** The same step for any sequence of spaced values. */
  lemma CountSpaced(all: seq<real>, start: real, step: real, limit: real, n: nat, v: real)
    requires Spaced(all, start, step, limit) && v < limit && Counting(all, n, v, v < limit)
    ensures Counting(all, n + 1, v + step, v + step < limit)
  {
    if n + 1 < |all| {
      assert all[n + 1] == all[n] + step;
    }
  }

  lemma CountDownStarts(start: real, step: real)
    requires step > 0.0
    ensures Counting(Countdown(start, step), 0, start, start >= 0.0)
  {
    CountdownValues(start, step);
  }

  lemma CountDown(start: real, step: real, n: nat, v: real)
    requires step > 0.0 && v >= 0.0 && Counting(Countdown(start, step), n, v, v >= 0.0)
    ensures Counting(Countdown(start, step), n + 1, v - step, v - step >= 0.0)
  {
    CountdownValues(start, step);
  }

  /** The same start for any sequence of values spaced down. */
  lemma CountSpacedDownStarts(all: seq<real>, start: real, step: real)
    requires SpacedDown(all, start, step)
    ensures Counting(all, 0, start, start >= 0.0)
  {
  }

  /** The same step down for any sequence of values spaced down. */
  lemma CountSpacedDown(all: seq<real>, start: real, step: real, n: nat, v: real)
    requires SpacedDown(all, start, step) && v >= 0.0 && Counting(all, n, v, v >= 0.0)
    ensures Counting(all, n + 1, v - step, v - step >= 0.0)
  {
    if n + 1 < |all| {
      assert all[n + 1] == all[n] - step;
    }
  }

  /** The pixel coordinate `(int)v` of every non-negative value, which truncation takes to its floor. */
  function Floors(vs: seq<real>): (r: seq<int>)
    ensures |r| == |vs|
    ensures forall k :: 0 <= k < |vs| ==> r[k] == vs[k].Floor
  {
    seq(|vs|, k requires 0 <= k < |vs| => vs[k].Floor)
  }
}
