/** The circular distance metric and the reciprocal distance weighting. Both
    source files (core/src/lib.rs:42-63 and src/lib.rs:45-66) carry identical
    copies of these helpers; they are defined once here. Positions are
    angles written as fractions of a turn, nominally in [0, 1). */
module Circle {
  import opened Numeric

  predicate OnCircle(x: real)
  {
    0.0 <= x < 1.0
  }

  /** angle_diff: y - x wrapped by at most one turn. For positions on the
      circle the result is the signed shortest difference, within half a turn. */
  function AngleDiff(x: real, y: real): (r: real)
    ensures r == y - x || r == y - x - 1.0 || r == y - x + 1.0
    ensures OnCircle(x) && OnCircle(y) ==> -0.5 <= r <= 0.5
  {
    var diff := y - x;
    if diff > 0.5 then diff - 1.0
    else if diff < -0.5 then diff + 1.0
    else diff
  }

  /** min_dist: the length of the shorter arc between two positions. */
  function MinDist(x: real, y: real): (r: real)
    ensures r >= 0.0
    ensures OnCircle(x) && OnCircle(y) ==> r <= 0.5
    ensures x == y ==> r == 0.0
  {
    Abs(AngleDiff(x, y))
  }

  /** Swapping the arguments flips the sign of the difference, for all reals. */
  lemma AngleDiffAntisymmetric(x: real, y: real)
    ensures AngleDiff(y, x) == -AngleDiff(x, y)
  {
  }

  lemma MinDistSymmetric(x: real, y: real)
    ensures MinDist(x, y) == MinDist(y, x)
  {
    AngleDiffAntisymmetric(x, y);
  }

  /** Wrap-around: seen from position 0, a point past the half turn is
      reached the short way round, through 1 == 0. */
  lemma MinDistWrapsAtZero(y: real)
    requires 0.5 < y < 1.0
    ensures MinDist(0.0, y) == 1.0 - y
  {
  }

  /** The distance is the shorter of the two arcs |y - x| and 1 - |y - x|. */
  lemma MinDistIsShorterArc(x: real, y: real)
    requires OnCircle(x) && OnCircle(y)
    ensures MinDist(x, y) == Min(Abs(y - x), 1.0 - Abs(y - x))
  {
  }

  /** The wrapped difference is the shortest of all differences that name
      the same pair of angles, i.e. of y - x + k for every whole number of turns k. */
  lemma AngleDiffIsShortest(x: real, y: real, k: int)
    requires OnCircle(x) && OnCircle(y)
    ensures MinDist(x, y) <= Abs(y - x + k as real)
  {
    var r := AngleDiff(x, y);
    var m: int := if r == y - x then k else if r == y - x - 1.0 then k + 1 else k - 1;
    assert y - x + k as real == r + m as real;
    if m == 0 {
    } else if m > 0 {
      assert r + m as real >= -0.5 + 1.0;
    } else {
      assert r + m as real <= 0.5 - 1.0;
    }
  }

  /** distance_weight: reciprocal decay 1 / (1 + k * dist). In f32 a zero
      denominator yields infinity; the model leaves that case out. For a
      non-negative distance and sharpness the weight lies in (0, 1]. */
  function DistanceWeight(dist: real, k: real): (r: real)
    requires 1.0 + k * dist != 0.0
    ensures dist >= 0.0 && k >= 0.0 ==> 0.0 < r <= 1.0
    ensures dist == 0.0 ==> r == 1.0
  {
    assert dist >= 0.0 && k >= 0.0 ==> k * dist >= 0.0 by {
      if dist >= 0.0 && k >= 0.0 {
        MulNonNeg(k, dist);
      }
    }
    1.0 / (1.0 + k * dist)
  }

  /** The weight never grows with distance. */
  lemma DistanceWeightDecreasing(d1: real, d2: real, k: real)
    requires 0.0 <= d1 <= d2 && k >= 0.0
    ensures 1.0 + k * d1 > 0.0 && 1.0 + k * d2 > 0.0
    ensures DistanceWeight(d2, k) <= DistanceWeight(d1, k)
  {
    assert k * d1 <= k * d2 by {
      MulNonNeg(k, d2 - d1);
      assert k * (d2 - d1) == k * d2 - k * d1;
    }
    MulNonNeg(k, d1);
    var a, b := 1.0 + k * d1, 1.0 + k * d2;
    assert 1.0 / b <= 1.0 / a by {
      assert a * (1.0 / a) == 1.0;
      assert b * (1.0 / b) == 1.0;
      assert (1.0 / b) * a <= (1.0 / b) * b;
    }
  }

  /** Where World::new puts oscillator i of n, in both source files: the
      circle cut into n equal arcs. */
  function Position(i: nat, n: nat): (r: real)
    requires i < n
    ensures OnCircle(r)
  {
    i as real / n as real
  }

  lemma PositionsEvenlySpaced(i: nat, n: nat)
    requires i + 1 < n
    ensures Position(i + 1, n) - Position(i, n) == 1.0 / n as real
  {
  }
}
