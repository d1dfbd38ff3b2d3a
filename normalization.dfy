// Per-axis mean and population standard deviation of a point set, and the
// denormalisation of a separating line fitted in normalised coordinates.
// Both trainers (kernels.js and svm.js) use this algebra.

module Normalization {
  import opened Points

  /** Sum of the x coordinates of the first k points, accumulated left to right. */
  function SumX(ps: seq<LabeledPoint>, k: nat): real
    requires k <= |ps|
  {
    if k == 0 then 0.0 else SumX(ps, k - 1) + ps[k - 1].x
  }

  function SumY(ps: seq<LabeledPoint>, k: nat): real
    requires k <= |ps|
  {
    if k == 0 then 0.0 else SumY(ps, k - 1) + ps[k - 1].y
  }

  /** Sum of squared deviations of the first k x coordinates from m. */
  function SquaredDevX(ps: seq<LabeledPoint>, m: real, k: nat): real
    requires k <= |ps|
  {
    if k == 0 then 0.0 else SquaredDevX(ps, m, k - 1) + (ps[k - 1].x - m) * (ps[k - 1].x - m)
  }

  function SquaredDevY(ps: seq<LabeledPoint>, m: real, k: nat): real
    requires k <= |ps|
  {
    if k == 0 then 0.0 else SquaredDevY(ps, m, k - 1) + (ps[k - 1].y - m) * (ps[k - 1].y - m)
  }

  function MeanX(ps: seq<LabeledPoint>): real
    requires |ps| > 0
  {
    SumX(ps, |ps|) / |ps| as real
  }

  function MeanY(ps: seq<LabeledPoint>): real
    requires |ps| > 0
  {
    SumY(ps, |ps|) / |ps| as real
  }

  /** Population variance (divided by n, not n - 1). */
  function VarianceX(ps: seq<LabeledPoint>): real
    requires |ps| > 0
  {
    SquaredDevX(ps, MeanX(ps), |ps|) / |ps| as real
  }

  function VarianceY(ps: seq<LabeledPoint>): real
    requires |ps| > 0
  {
    SquaredDevY(ps, MeanY(ps), |ps|) / |ps| as real
  }

  lemma {:induction false} SquaredDevNonNegative(ps: seq<LabeledPoint>, mx: real, my: real, k: nat)
    requires k <= |ps|
    ensures 0.0 <= SquaredDevX(ps, mx, k) && 0.0 <= SquaredDevY(ps, my, k)
  {
    if k > 0 {
      SquaredDevNonNegative(ps, mx, my, k - 1);
      var dx, dy := ps[k - 1].x - mx, ps[k - 1].y - my;
      assert 0.0 <= dx * dx && 0.0 <= dy * dy;
    }
  }

  /** Both variances are non-negative, so the square roots taken of them are defined. */
  lemma VarianceNonNegative(ps: seq<LabeledPoint>)
    requires |ps| > 0
    ensures 0.0 <= VarianceX(ps) && 0.0 <= VarianceY(ps)
  {
    SquaredDevNonNegative(ps, MeanX(ps), MeanY(ps), |ps|);
  }

  /** A separating line `w . p + b`. */
  datatype Line = Line(w: Vec2, b: real)

  function LineValue(l: Line, p: Vec2): real
  {
    Dot(l.w, p) + l.b
  }

  /**
   * Maps a line fitted on normalised coordinates back to the caller's
   * coordinates: `w' = w / std` per axis and `b' = b - w' . mean`.
   */
  function Denormalize(w: Vec2, b: real, meanX: real, meanY: real, stdX: real, stdY: real): Line
    requires stdX != 0.0 && stdY != 0.0
  {
    var w' := Vec2(w.x / stdX, w.y / stdY);
    Line(w', b - (w'.x * meanX + w'.y * meanY))
  }

  /**
   * The denormalised line gives at every point p exactly the value the
   * normalised line gives at the normalised point `(p - mean) / std`.
   */
  lemma DenormalizeAgrees(w: Vec2, b: real, meanX: real, meanY: real, stdX: real, stdY: real, p: Vec2)
    requires stdX != 0.0 && stdY != 0.0
    ensures LineValue(Denormalize(w, b, meanX, meanY, stdX, stdY), p)
         == Dot(w, Vec2((p.x - meanX) / stdX, (p.y - meanY) / stdY)) + b
  {
    assert w.x / stdX * p.x - w.x / stdX * meanX == w.x * ((p.x - meanX) / stdX);
    assert w.y / stdY * p.y - w.y / stdY * meanY == w.y * ((p.y - meanY) / stdY);
  }

  /** The mean loops of both trainers (kernels.js:91-100, svm.js:6-15). */
  method Means(dataPoints: seq<LabeledPoint>) returns (meanX: real, meanY: real)
    requires |dataPoints| > 0
    ensures meanX == MeanX(dataPoints) && meanY == MeanY(dataPoints)
  {
    var n := |dataPoints|;
    meanX, meanY := 0.0, 0.0;
    var i := 0;
    while i < n
      invariant 0 <= i <= n
      invariant meanX == SumX(dataPoints, i) && meanY == SumY(dataPoints, i)
    {
      meanX := meanX + dataPoints[i].x;
      meanY := meanY + dataPoints[i].y;
      i := i + 1;
    }
    meanX := meanX / n as real;
    meanY := meanY / n as real;
  }

  /** The squared-deviation loops of both trainers (kernels.js:106-112, svm.js:17-23). */
  method SquaredDeviations(dataPoints: seq<LabeledPoint>, meanX: real, meanY: real) returns (sumX: real, sumY: real)
    ensures sumX == SquaredDevX(dataPoints, meanX, |dataPoints|)
    ensures sumY == SquaredDevY(dataPoints, meanY, |dataPoints|)
  {
    sumX, sumY := 0.0, 0.0;
    var i := 0;
    while i < |dataPoints|
      invariant 0 <= i <= |dataPoints|
      invariant sumX == SquaredDevX(dataPoints, meanX, i)
      invariant sumY == SquaredDevY(dataPoints, meanY, i)
    {
      sumX := sumX + (dataPoints[i].x - meanX) * (dataPoints[i].x - meanX);
      sumY := sumY + (dataPoints[i].y - meanY) * (dataPoints[i].y - meanY);
      i := i + 1;
    }
  }
}
