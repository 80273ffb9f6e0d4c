/** Real-number models of the f32 methods the engine relies on (abs, clamp and
    signum), the assumption made of sin, and two bounds on scaled values.
    Rounding, NaN and the infinities are not represented here. */
module Numeric {

  /** A value, or None where the f32 computation yields NaN or an infinity. */
  datatype Option<T> = None | Some(value: T)

  function Abs(x: real): (r: real)
    ensures r >= 0.0
    ensures r == x || r == -x
  {
    if x < 0.0 then -x else x
  }

  function Min(x: real, y: real): (r: real)
    ensures r <= x && r <= y
    ensures r == x || r == y
  {
    if x <= y then x else y
  }

  /** f32::clamp: Rust panics when lo > hi, so the bounds must be ordered. */
  function Clamp(x: real, lo: real, hi: real): (r: real)
    requires lo <= hi
    ensures lo <= r <= hi
    ensures lo <= x <= hi ==> r == x
    ensures x <= lo ==> r == lo
    ensures hi <= x ==> r == hi
  {
    if x < lo then lo else if x > hi then hi else x
  }

  /** The clamped value is the point of [lo, hi] closest to x. */
  lemma ClampIsNearest(x: real, lo: real, hi: real, y: real)
    requires lo <= y <= hi
    ensures Abs(Clamp(x, lo, hi) - x) <= Abs(y - x)
  {
  }

  /** f32::signum: 1.0 for +0.0 and for every positive value, -1.0 for negatives.
      The model has a single zero, taken as +0.0. */
  function Signum(x: real): (r: real)
    ensures r == 1.0 || r == -1.0
    ensures r * x == Abs(x)
    ensures x == 0.0 ==> r == 1.0
  {
    if x < 0.0 then -1.0 else 1.0
  }

  /** What the models assume of sin where a bound needs it: its values lie in
      [-1, 1]. Nothing else about sin is used. */
  ghost predicate SineBounded(sin: real -> real)
  {
    forall x :: -1.0 <= sin(x) <= 1.0
  }

  /** A product of non-negative factors is non-negative. */
  lemma MulNonNeg(a: real, b: real)
    requires a >= 0.0 && b >= 0.0
    ensures a * b >= 0.0
  {
  }

  /** |s| <= 1 scales a value down in magnitude. */
  lemma ScaledBound(s: real, a: real)
    requires -1.0 <= s <= 1.0
    ensures Abs(a * s) <= Abs(a)
  {
    var m := Abs(a);
    MulNonNeg(m, 1.0 - s);
    MulNonNeg(m, 1.0 + s);
    assert a * s == m * s || a * s == -(m * s);
  }

  /** A weight in (0, 1] keeps a value within a bound a. */
  lemma WeightedBound(w: real, s: real, a: real)
    requires 0.0 < w <= 1.0 && Abs(s) <= a
    ensures Abs(w * s) <= a
  {
    var m := Abs(s);
    MulNonNeg(1.0 - w, m);
    assert w * s == w * m || w * s == -(w * m);
  }
}
