/** The default easing of both pager versions: a quadratic ease-out over
    exact reals, `easing(t, b, c, d) = -c * (t / d) * (t / d - 2) + b`, where
    `t` is the elapsed time, `b` the start value, `c` the change and `d` the
    duration. */
module Easing {

  /** The share of the change covered once a fraction `s` of the duration has
      elapsed: `s * (2 - s)`. */
  function Progress(s: real): real
  {
    s * (2.0 - s)
  }

  function Ease(t: real, b: real, c: real, d: real): (r: real)
    requires d != 0.0
    ensures r == b + c * Progress(t / d)
    ensures t == 0.0 ==> r == b
    ensures t == d ==> r == b + c
  {
    var s := t / d;
    assert -c * s * (s - 2.0) == c * (s * (2.0 - s));
    -c * s * (s - 2.0) + b
  }

  /** A factor whose product with a positive number is non-negative is
      itself non-negative. */
  lemma SignOfFactor(x: real, d: real)
    requires d > 0.0 && x * d >= 0.0
    ensures x >= 0.0
  {
  }

  /** Dividing a time within the duration by the duration gives a fraction
      between 0 and 1. */
  lemma FractionOfDuration(t: real, d: real)
    requires 0.0 < d && 0.0 <= t <= d
    ensures 0.0 <= t / d <= 1.0
  {
    var s := t / d;
    assert s * d == t;
    SignOfFactor(s, d);
    assert (1.0 - s) * d == d - t;
    SignOfFactor(1.0 - s, d);
  }

  /** Over the fractions of a transition the progress climbs from 0 to 1 and
      never leaves that interval. */
  lemma ProgressBounds(s: real)
    requires 0.0 <= s <= 1.0
    ensures 0.0 <= Progress(s) <= 1.0
  {
    assert 1.0 - Progress(s) == (1.0 - s) * (1.0 - s);
    assert (1.0 - s) * (1.0 - s) <= 1.0 * (1.0 - s);
  }

  /** The progress never decreases while time runs forward within the
      duration, so the value never overshoots and never turns back. */
  lemma ProgressMonotone(s1: real, s2: real)
    requires 0.0 <= s1 <= s2 <= 1.0
    ensures Progress(s1) <= Progress(s2)
  {
    assert Progress(s2) - Progress(s1) == (s2 - s1) * (2.0 - s1 - s2);
  }

  /** Within the duration the eased value lies between the start `b` and the
      destination `b + c`, whatever the sign of the change. */
  lemma EaseStaysBetween(t: real, b: real, c: real, d: real)
    requires 0.0 < d && 0.0 <= t <= d
    ensures c >= 0.0 ==> b <= Ease(t, b, c, d) <= b + c
    ensures c <= 0.0 ==> b + c <= Ease(t, b, c, d) <= b
  {
    FractionOfDuration(t, d);
    var p := Progress(t / d);
    ProgressBounds(t / d);
    if c >= 0.0 {
      assert c * p <= c * 1.0;
    } else {
      assert c * 1.0 <= c * p;
    }
  }

  /** A non-negative change is approached monotonically: a later frame never
      reports a smaller value than an earlier one. */
  lemma EaseMonotone(t1: real, t2: real, b: real, c: real, d: real)
    requires 0.0 < d && 0.0 <= t1 <= t2 <= d && c >= 0.0
    ensures Ease(t1, b, c, d) <= Ease(t2, b, c, d)
  {
    ProgressOrdered(t1, t2, c, d);
  }

  /** The later of two times within the duration has covered more of a
      non-negative change. */
  lemma ProgressOrdered(t1: real, t2: real, c: real, d: real)
    requires 0.0 < d && 0.0 <= t1 <= t2 <= d && c >= 0.0
    ensures c * Progress(t1 / d) <= c * Progress(t2 / d)
  {
    FractionOfDuration(t1, d);
    FractionOfDuration(t2, d);
    DivisionMonotone(t1, t2, d);
    ProgressMonotone(t1 / d, t2 / d);
    var p1, p2 := Progress(t1 / d), Progress(t2 / d);
    assert c * p2 - c * p1 == c * (p2 - p1);
  }

  lemma DivisionMonotone(t1: real, t2: real, d: real)
    requires 0.0 < d && t1 <= t2
    ensures t1 / d <= t2 / d
  {
    assert (t2 / d - t1 / d) * d == t2 - t1;
    SignOfFactor(t2 / d - t1 / d, d);
  }
}
