// Real-number stand-ins for the JavaScript Math functions the two trainers
// call, and the JavaScript notion of an option that may be missing.

module RealMath {
  /** Math.abs */
  function Abs(x: real): (r: real)
    ensures 0.0 <= r && (r == x || r == -x)
  {
    if x < 0.0 then -x else x
  }

  /** Math.max of two numbers */
  function Max(a: real, b: real): (r: real)
    ensures a <= r && b <= r && (r == a || r == b)
  {
    if a < b then b else a
  }

  /** Math.min of two numbers */
  function Min(a: real, b: real): (r: real)
    ensures r <= a && r <= b && (r == a || r == b)
  {
    if a < b then a else b
  }

  /** Math.pow with a whole-number exponent */
  function Pow(base: real, n: nat): real
  {
    if n == 0 then 1.0 else base * Pow(base, n - 1)
  }

  lemma PowOne(d: real)
    ensures Pow(d, 1) == d
  {
    assert Pow(d, 1) == d * Pow(d, 0);
  }

  lemma PowSquare(d: real)
    ensures Pow(d, 2) == d * d
  {
    calc {
      Pow(d, 2);
      d * Pow(d, 1);
      { PowOne(d); }
      d * d;
    }
  }

  /**
   * Math.min(3, n) on integers: the fallback's count is an index count, and
   * Min above works on reals.
   */
  function MinInt(a: int, b: int): (r: int)
    ensures r <= a && r <= b && (r == a || r == b)
  {
    if a < b then a else b
  }

  /**
   * The only facts about Math.exp that the model relies on. The exponential
   * function has them; so does the constant function 1.
   */
  ghost predicate IsExp(exp: real -> real)
  {
    && exp(0.0) == 1.0
    && (forall x :: 0.0 < exp(x))
    && (forall x :: x <= 0.0 ==> exp(x) <= 1.0)
  }

  /** The only fact about Math.sqrt that the model relies on. */
  ghost predicate IsSqrt(sqrt: real -> real)
  {
    forall x :: 0.0 <= x ==> 0.0 <= sqrt(x)
  }
}

module JsValues {
  /** A JavaScript value that may be `undefined`. */
  datatype Maybe<T> = Undefined | Defined(value: T)

  /** `v || fallback` for a numeric option: `undefined` and 0 are falsy. */
  function OrReal(v: Maybe<real>, fallback: real): (r: real)
    ensures (v.Defined? && v.value != 0.0) ==> r == v.value
    ensures (v.Undefined? || v.value == 0.0) ==> r == fallback
  {
    if v.Defined? && v.value != 0.0 then v.value else fallback
  }

  /** `v || fallback` for an integer option. */
  function OrInt(v: Maybe<int>, fallback: int): (r: int)
    ensures (v.Defined? && v.value != 0) ==> r == v.value
    ensures (v.Undefined? || v.value == 0) ==> r == fallback
  {
    if v.Defined? && v.value != 0 then v.value else fallback
  }
}

module Points {
  /** A point handed to a kernel function as the array `[x, y]`. */
  datatype Vec2 = Vec2(x: real, y: real)

  /** A training point `{x, y, class}`; `class` is a reserved word, so the field is `cls`. */
  datatype LabeledPoint = LabeledPoint(x: real, y: real, cls: int)

  function Coords(p: LabeledPoint): Vec2
  {
    Vec2(p.x, p.y)
  }

  function Dot(p: Vec2, q: Vec2): real
  {
    p.x * q.x + p.y * q.y
  }
}
