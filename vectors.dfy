/** The part of p5.Vector (and p5's scalar helpers) that the sketch uses.
    The sketch only ever creates vectors with z = 0, so vectors are planar;
    JavaScript numbers are modelled as mathematical reals. */
module Vectors {

  datatype Vector2 = Vector2(x: real, y: real)

  const Zero: Vector2 := Vector2(0.0, 0.0)

  function Add(a: Vector2, b: Vector2): Vector2 {
    Vector2(a.x + b.x, a.y + b.y)
  }

  function Sub(a: Vector2, b: Vector2): Vector2 {
    Vector2(a.x - b.x, a.y - b.y)
  }

  /** p5.Vector.mult by a scalar. */
  function Mult(v: Vector2, k: real): Vector2 {
    Vector2(v.x * k, v.y * k)
  }

  /** p5.Vector.div by a scalar: division by zero leaves the vector unchanged. */
  function Div(v: Vector2, k: real): (r: Vector2)
    ensures k != 0.0 ==> Mult(r, k) == v
    ensures k == 0.0 ==> r == v
  {
    if k == 0.0 then v else Vector2(v.x / k, v.y / k)
  }

  function MagSq(v: Vector2): real {
    v.x * v.x + v.y * v.y
  }

  /** Math.sqrt is a call into the platform: it is passed in, and this is
      what the model assumes of it (exact, non-negative roots). */
  ghost predicate IsSqrt(sqrt: real -> real) {
    forall t :: 0.0 <= t ==> 0.0 <= sqrt(t) && sqrt(t) * sqrt(t) == t
  }

  /** p5.Vector.limit: rescale to length max when the squared length exceeds max * max. */
  function Limit(v: Vector2, max: real, sqrt: real -> real): Vector2 {
    if MagSq(v) > max * max then Mult(Div(v, sqrt(MagSq(v))), max) else v
  }

  /** p5.Vector.lerp towards t by the fraction amt. */
  function Lerp(v: Vector2, t: Vector2, amt: real): Vector2 {
    Vector2(v.x + (t.x - v.x) * amt, v.y + (t.y - v.y) * amt)
  }

  function Min(a: real, b: real): real { if a <= b then a else b }

  function Max(a: real, b: real): real { if a >= b then a else b }

  /** p5's constrain(n, low, high) = Math.max(Math.min(n, high), low). */
  function Constrain(n: real, low: real, high: real): (r: real)
    ensures low <= high ==> low <= r <= high
    ensures low <= n <= high ==> r == n
    ensures n > high ==> r == Max(high, low)
    ensures n < low ==> r == low
  {
    Max(Min(n, high), low)
  }

  lemma MagSqNonNegative(v: Vector2)
    ensures MagSq(v) >= 0.0
  {
  }

  lemma {:induction false} MagSqMult(v: Vector2, k: real)
    ensures MagSq(Mult(v, k)) == k * k * MagSq(v)
  {
    calc {
      MagSq(Mult(v, k));
      (v.x * k) * (v.x * k) + (v.y * k) * (v.y * k);
      k * k * (v.x * v.x) + k * k * (v.y * v.y);
      k * k * MagSq(v);
    }
  }

  lemma {:induction false} ScaledSquare(a: real, r: real, c: real)
    requires a * r == c
    ensures c * c == (a * a) * (r * r)
  {
    calc {
      c * c;
      (a * r) * (a * r);
      (a * a) * (r * r);
    }
  }

  lemma SquareNonNegative(a: real)
    ensures a * a >= 0.0
  {
  }

  lemma CancelPositive(s: real, m: real)
    requires m > 0.0
    requires m == s * m
    ensures s == 1.0
  {
  }

  /** Dividing by an exact root of a positive squared length gives a unit vector. */
  lemma {:induction false} DivByRootIsUnit(v: Vector2, r: real)
    requires MagSq(v) > 0.0
    requires r > 0.0 && r * r == MagSq(v)
    ensures MagSq(Div(v, r)) == 1.0
  {
    var u := Div(v, r);
    var m := MagSq(v);
    assert u.x * r == v.x && u.y * r == v.y;
    ScaledSquare(u.x, r, v.x);
    ScaledSquare(u.y, r, v.y);
    calc {
      m;
      v.x * v.x + v.y * v.y;
      (u.x * u.x) * (r * r) + (u.y * u.y) * (r * r);
      MagSq(u) * (r * r);
      MagSq(u) * m;
    }
    CancelPositive(MagSq(u), m);
  }

  /** What limit promises: never longer than max, exactly max when it had to
      shorten, direction kept, and the identity on vectors already within bounds. */
  lemma LimitBound(v: Vector2, max: real, sqrt: real -> real)
    requires IsSqrt(sqrt)
    ensures MagSq(Limit(v, max, sqrt)) <= max * max
    ensures MagSq(v) <= max * max ==> Limit(v, max, sqrt) == v
    ensures MagSq(v) > max * max ==>
      MagSq(Limit(v, max, sqrt)) == max * max &&
      Limit(v, max, sqrt) == Mult(v, max / sqrt(MagSq(v)))
  {
    var m := MagSq(v);
    if m > max * max {
      SquareNonNegative(max);
      assert m > 0.0;
      var r := sqrt(m);
      assert r >= 0.0 && r * r == m;
      assert r > 0.0;
      DivByRootIsUnit(v, r);
      MagSqMult(Div(v, r), max);
      assert (v.x / r) * max == v.x * (max / r);
      assert (v.y / r) * max == v.y * (max / r);
    }
  }
}
