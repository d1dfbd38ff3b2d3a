// Class KernelSVM of kernels.js: normalisation, the kernel matrix, the SMO
// optimisation (proved to compute the functions of module Smo), training,
// prediction and the decision-boundary grid.

module KernelSvm {
  import opened RealMath
  import opened JsValues
  import opened Points
  import opened Normalization
  import opened Kernels
  import opened Smo
  import opened SmoProperties

  /** `normalizationParameters`: `{}` before the first training, then the four numbers. */
  datatype NormParams = Unset | NormParams(meanX: real, meanY: real, stdX: real, stdY: real)

  /** What `train` returns: `{w, b, lambdas}` for the linear kernel, `{lambdas}` otherwise. */
  datatype TrainResult = LinearModel(w: Vec2, b: real, lambdas: seq<real>) | KernelModel(lambdas: seq<real>)

  /** One sample of `generateDecisionBoundary`. */
  datatype BoundaryPoint = BoundaryPoint(x: real, y: real, value: real)

  // ---------------------------------------------------------------------
  // normalizeData as functions

  /** `Math.sqrt(v) || 1`: a zero standard deviation is replaced by 1. */
  function NonZeroOrOne(v: real): (r: real)
    ensures r != 0.0
    ensures v != 0.0 ==> r == v
  {
    if v != 0.0 then v else 1.0
  }

  /** `Math.sqrt(meanSquare) || 1` */
  function RootOrOne(sqrt: real -> real, meanSquare: real): real
  {
    NonZeroOrOne(sqrt(meanSquare))
  }

  /** The standard deviation normalizeData uses: 1 for at most one point. */
  function Std(sqrt: real -> real, n: nat, squaredDev: real): real
  {
    if n > 1 then RootOrOne(sqrt, squaredDev / n as real) else 1.0
  }

  function ParamsOf(sqrt: real -> real, ps: seq<LabeledPoint>): NormParams
    requires |ps| > 0
  {
    var mx, my := MeanX(ps), MeanY(ps);
    NormParams(mx, my, Std(sqrt, |ps|, SquaredDevX(ps, mx, |ps|)), Std(sqrt, |ps|, SquaredDevY(ps, my, |ps|)))
  }

  predicate Usable(params: NormParams)
  {
    params.NormParams? && params.stdX != 0.0 && params.stdY != 0.0
  }

  /** `currentPoint.class !== -1 ? 1 : -1` */
  function CoerceClass(c: int): int
  {
    if c != -1 then 1 else -1
  }

  function NormalizePoint(params: NormParams, p: LabeledPoint): LabeledPoint
    requires Usable(params)
  {
    LabeledPoint((p.x - params.meanX) / params.stdX, (p.y - params.meanY) / params.stdY, CoerceClass(p.cls))
  }

  /** The normalised points, in the order of the input. */
  function NormalizeAll(params: NormParams, ps: seq<LabeledPoint>): (r: seq<LabeledPoint>)
    requires Usable(params)
  {
    seq(|ps|, i requires 0 <= i < |ps| => NormalizePoint(params, ps[i]))
  }

  /** The parameters normalizeData stores always have non-zero deviations; with one point both are 1. */
  lemma ParamsUsable(sqrt: real -> real, ps: seq<LabeledPoint>)
    requires |ps| > 0
    ensures Usable(ParamsOf(sqrt, ps))
    ensures |ps| == 1 ==> ParamsOf(sqrt, ps).stdX == 1.0 && ParamsOf(sqrt, ps).stdY == 1.0
  {
  }

  /** With a square root that is non-negative on non-negative inputs, both stored deviations are positive. */
  lemma ParamsPositive(sqrt: real -> real, ps: seq<LabeledPoint>)
    requires |ps| > 0 && IsSqrt(sqrt)
    ensures ParamsOf(sqrt, ps).stdX > 0.0 && ParamsOf(sqrt, ps).stdY > 0.0
  {
    var n := |ps|;
    if n > 1 {
      SquaredDevNonNegative(ps, MeanX(ps), MeanY(ps), n);
      var dx, dy := SquaredDevX(ps, MeanX(ps), n), SquaredDevY(ps, MeanY(ps), n);
      assert 0.0 <= dx / n as real && 0.0 <= dy / n as real;
      assert 0.0 <= sqrt(dx / n as real) && 0.0 <= sqrt(dy / n as real);
    }
  }

  /** Normalisation keeps length and order and makes every class 1 or -1: 1 unless it was exactly -1. */
  lemma NormalizedClasses(params: NormParams, ps: seq<LabeledPoint>)
    requires Usable(params)
    ensures |NormalizeAll(params, ps)| == |ps|
    ensures UnitLabels(NormalizeAll(params, ps))
    ensures forall i :: 0 <= i < |ps| ==> (NormalizeAll(params, ps)[i].cls == 1 <==> ps[i].cls != -1)
  {
    var r := NormalizeAll(params, ps);
    forall i | 0 <= i < |ps|
      ensures r[i].cls == CoerceClass(ps[i].cls)
    {
      assert r[i] == NormalizePoint(params, ps[i]);
    }
  }

  /** The stored parameters map each normalised coordinate back: `nx * stdX + meanX == x`. */
  lemma NormalizeRoundTrip(params: NormParams, ps: seq<LabeledPoint>)
    requires Usable(params)
    ensures forall i :: 0 <= i < |ps| ==> NormalizeAll(params, ps)[i].x * params.stdX + params.meanX == ps[i].x
    ensures forall i :: 0 <= i < |ps| ==> NormalizeAll(params, ps)[i].y * params.stdY + params.meanY == ps[i].y
  {
    var r := NormalizeAll(params, ps);
    forall i | 0 <= i < |ps|
      ensures r[i].x * params.stdX + params.meanX == ps[i].x
      ensures r[i].y * params.stdY + params.meanY == ps[i].y
    {
      assert r[i] == NormalizePoint(params, ps[i]);
      PointRoundTrip(params, ps[i]);
    }
  }

  lemma PointRoundTrip(params: NormParams, p: LabeledPoint)
    requires Usable(params)
    ensures NormalizePoint(params, p).x * params.stdX + params.meanX == p.x
    ensures NormalizePoint(params, p).y * params.stdY + params.meanY == p.y
  {
    Unscale(p.x, params.meanX, params.stdX);
    Unscale(p.y, params.meanY, params.stdY);
  }

  lemma Unscale(x: real, mean: real, std: real)
    requires std != 0.0
    ensures (x - mean) / std * std + mean == x
  {
  }

  // ---------------------------------------------------------------------
  // Linear weights and prediction as functions

  /** `sum a_i y_i x_i` over the first k points with `|a_i| > epsilon` (kernels.js:61-66). */
  function LinearWeights(ps: seq<LabeledPoint>, alphas: seq<real>, k: nat): Vec2
    requires |alphas| == |ps| && k <= |ps|
  {
    if k == 0 then Vec2(0.0, 0.0)
    else
      var w := LinearWeights(ps, alphas, k - 1);
      if Epsilon < Abs(alphas[k - 1]) then AddScaled(w, alphas[k - 1] * ps[k - 1].cls as real, Coords(ps[k - 1]))
      else w
  }

  /** `w + c p` */
  function AddScaled(w: Vec2, c: real, p: Vec2): Vec2
  {
    Vec2(w.x + c * p.x, w.y + c * p.y)
  }

  /** `multiplier * class * kernel value`, one term of predict's sum. */
  function Weighted(multiplier: real, cls: int, kernelValue: real): real
  {
    multiplier * cls as real * kernelValue
  }

  /** predict's `decisionValue` over the first k training points (kernels.js:337-344). */
  function DecisionSum(kind: KernelType, kp: KernelParams, exp: real -> real, q: Vec2,
                       ps: seq<LabeledPoint>, alphas: seq<real>, k: nat): real
    requires |alphas| == |ps| && k <= |ps|
  {
    if k == 0 then 0.0
    else
      var sum := DecisionSum(kind, kp, exp, q, ps, alphas, k - 1);
      if Abs(alphas[k - 1]) > Epsilon then
        sum + Weighted(alphas[k - 1], ps[k - 1].cls, Evaluate(kind, kp, exp, q, Coords(ps[k - 1])))
      else sum
  }

  /** The test point in normalised coordinates; before the first training there are none. */
  function NormalizeQuery(params: NormParams, p: Vec2): Vec2
  {
    if Usable(params) then Vec2((p.x - params.meanX) / params.stdX, (p.y - params.meanY) / params.stdY)
    else p
  }

  /**
   * For the linear kernel the decision sum is the dot product of the
   * weight vector train computes with the query point.
   */
  lemma {:induction false} LinearDecisionSum(kp: KernelParams, exp: real -> real, q: Vec2,
                                             ps: seq<LabeledPoint>, alphas: seq<real>, k: nat)
    requires |alphas| == |ps| && k <= |ps|
    ensures DecisionSum(Linear, kp, exp, q, ps, alphas, k) == Dot(LinearWeights(ps, alphas, k), q)
  {
    if k == 0 {
      assert DecisionSum(Linear, kp, exp, q, ps, alphas, k) == 0.0;
      assert LinearWeights(ps, alphas, k) == Vec2(0.0, 0.0);
    } else {
      LinearDecisionSum(kp, exp, q, ps, alphas, k - 1);
      var w, c, p := LinearWeights(ps, alphas, k - 1), alphas[k - 1] * ps[k - 1].cls as real, Coords(ps[k - 1]);
      var sum := DecisionSum(Linear, kp, exp, q, ps, alphas, k - 1);
      if Epsilon < Abs(alphas[k - 1]) {
        assert LinearWeights(ps, alphas, k) == AddScaled(w, c, p);
        assert DecisionSum(Linear, kp, exp, q, ps, alphas, k) == sum + c * LinearKernel(q, p);
        DotStep(w, c, p, q);
      } else {
        assert LinearWeights(ps, alphas, k) == w;
        assert DecisionSum(Linear, kp, exp, q, ps, alphas, k) == sum;
      }
    }
  }

  /** Adding `c p` to the weights adds `c` times the linear kernel of the query and p. */
  lemma DotStep(w: Vec2, c: real, p: Vec2, q: Vec2)
    ensures Dot(AddScaled(w, c, p), q) == Dot(w, q) + c * LinearKernel(q, p)
  {
    assert (w.x + c * p.x) * q.x == w.x * q.x + c * (q.x * p.x);
    assert (w.y + c * p.y) * q.y == w.y * q.y + c * (q.y * p.y);
  }

  /** The points at the given indices, in order: how `supportVectors` is built from indices. */
  function PointsAt(ps: seq<LabeledPoint>, idx: seq<int>): seq<LabeledPoint>
    requires forall t :: 0 <= t < |idx| ==> 0 <= idx[t] < |ps|
  {
    seq(|idx|, t requires 0 <= t < |idx| => ps[idx[t]])
  }

  // ---------------------------------------------------------------------
  // The loops of normalizeData

  /** The deviations of normalizeData for more than one point, 1 where a square root is 0 (kernels.js:105-116). */
  method Deviations(dataPoints: seq<LabeledPoint>, meanX: real, meanY: real, sqrt: real -> real)
    returns (stdX: real, stdY: real)
    requires |dataPoints| > 1
    ensures stdX == Std(sqrt, |dataPoints|, SquaredDevX(dataPoints, meanX, |dataPoints|))
    ensures stdY == Std(sqrt, |dataPoints|, SquaredDevY(dataPoints, meanY, |dataPoints|))
  {
    var n := |dataPoints|;
    var sumSquaredDiffX, sumSquaredDiffY := SquaredDeviations(dataPoints, meanX, meanY);
    stdX := RootOrOne(sqrt, sumSquaredDiffX / n as real);
    stdY := RootOrOne(sqrt, sumSquaredDiffY / n as real);
  }

  /** The loop that builds normalizeData's result (kernels.js:123-133). */
  method NormalizePoints(params: NormParams, dataPoints: seq<LabeledPoint>) returns (normalized: seq<LabeledPoint>)
    requires Usable(params)
    ensures normalized == NormalizeAll(params, dataPoints)
  {
    normalized := [];
    var i := 0;
    while i < |dataPoints|
      invariant 0 <= i <= |dataPoints|
      invariant |normalized| == i
      invariant forall k :: 0 <= k < i ==> normalized[k] == NormalizePoint(params, dataPoints[k])
    {
      normalized := normalized + [NormalizePoint(params, dataPoints[i])];
      i := i + 1;
    }
  }

  /** The weight loop of train (kernels.js:58-66): `sum a_i y_i x_i` over `|a_i| > epsilon`. */
  method ComputeLinearWeights(points: seq<LabeledPoint>, alphas: seq<real>) returns (weightVector: Vec2)
    requires |alphas| == |points|
    ensures weightVector == LinearWeights(points, alphas, |points|)
  {
    weightVector := Vec2(0.0, 0.0);
    var pointIndex := 0;
    while pointIndex < |points|
      invariant 0 <= pointIndex <= |points|
      invariant weightVector == LinearWeights(points, alphas, pointIndex)
    {
      if Epsilon < Abs(alphas[pointIndex]) {
        var c := alphas[pointIndex] * points[pointIndex].cls as real;
        weightVector := AddScaled(weightVector, c, Coords(points[pointIndex]));
      }
      pointIndex := pointIndex + 1;
    }
  }

  /** One step of DecisionSum: the next point adds its weighted kernel value when its multiplier is above epsilon. */
  lemma DecisionSumStep(kind: KernelType, kp: KernelParams, exp: real -> real, q: Vec2,
                        ps: seq<LabeledPoint>, alphas: seq<real>, k: nat)
    requires |alphas| == |ps| && k < |ps|
    ensures DecisionSum(kind, kp, exp, q, ps, alphas, k + 1)
         == if Abs(alphas[k]) > Epsilon
            then DecisionSum(kind, kp, exp, q, ps, alphas, k) + Weighted(alphas[k], ps[k].cls, Evaluate(kind, kp, exp, q, Coords(ps[k])))
            else DecisionSum(kind, kp, exp, q, ps, alphas, k)
  {
  }

  /** The loop of predict (kernels.js:336-344) over the stored points and multipliers. */
  method DecisionValue(kind: KernelType, kp: KernelParams, exp: real -> real, normalizedPoint: Vec2,
                       points: seq<LabeledPoint>, alphas: seq<real>) returns (decisionValue: real)
    requires |alphas| == |points|
    ensures decisionValue == DecisionSum(kind, kp, exp, normalizedPoint, points, alphas, |points|)
  {
    decisionValue := 0.0;
    var pointIndex := 0;
    while pointIndex < |points|
      invariant 0 <= pointIndex <= |points|
      invariant decisionValue == DecisionSum(kind, kp, exp, normalizedPoint, points, alphas, pointIndex)
    {
      var supportVector := Vec2(points[pointIndex].x, points[pointIndex].y);
      var kernelValue := Evaluate(kind, kp, exp, normalizedPoint, supportVector);
      assert supportVector == Coords(points[pointIndex]);
      DecisionSumStep(kind, kp, exp, normalizedPoint, points, alphas, pointIndex);
      if Abs(alphas[pointIndex]) > Epsilon {
        decisionValue := decisionValue + Weighted(alphas[pointIndex], points[pointIndex].cls, kernelValue);
      }
      pointIndex := pointIndex + 1;
    }
  }

  // ---------------------------------------------------------------------
  // train, predict and generateDecisionBoundary as functions

  /** `0.1 * Math.random()` for every point (kernels.js:49-51); the draws are an input. */
  function InitialMultipliers(randoms: seq<real>): seq<real>
  {
    seq(|randoms|, i requires 0 <= i < |randoms| => 0.1 * randoms[i])
  }

  /** Draws in [0, 1) give initial multipliers in [0, 0.1), inside the box for any C >= 0.1. */
  lemma InitialInBox(randoms: seq<real>, C: real)
    requires forall i :: 0 <= i < |randoms| ==> 0.0 <= randoms[i] < 1.0
    requires 0.1 <= C
    ensures |InitialMultipliers(randoms)| == |randoms|
    ensures forall i :: 0 <= i < |randoms| ==> 0.0 <= InitialMultipliers(randoms)[i] < 0.1
    ensures InBox(C, InitialMultipliers(randoms))
  {
    var a := InitialMultipliers(randoms);
    forall i | 0 <= i < |randoms|
      ensures 0.0 <= a[i] < 0.1
    {
      assert a[i] == 0.1 * randoms[i];
    }
  }

  /**
   * With draws in [0, 1) and C >= 0.1, the multipliers train ends with are
   * all in [0, C].
   */
  lemma TrainedInBox(p: Problem, randoms: seq<real>, maxIterations: int)
    requires Ready(p, SmoState(InitialMultipliers(randoms), 0.0))
    requires forall i :: 0 <= i < |randoms| ==> 0.0 <= randoms[i] < 1.0
    requires 0.1 <= p.C
    ensures InBox(p.C, Optimize(p, SmoState(InitialMultipliers(randoms), 0.0), maxIterations).state.alphas)
  {
    InitialInBox(randoms, p.C);
    OptimizeKeepsBox(p, SmoState(InitialMultipliers(randoms), 0.0), maxIterations);
  }

  /** The kernel matrix of the points: entry (i, j) is the kernel of points i and j. */
  function KernelMatrixOf(kind: KernelType, kp: KernelParams, exp: real -> real, ps: seq<LabeledPoint>): seq<seq<real>>
  {
    seq(|ps|, i requires 0 <= i < |ps| =>
      seq(|ps|, j requires 0 <= j < |ps| => Evaluate(kind, kp, exp, Coords(ps[i]), Coords(ps[j]))))
  }

  /**
   * For the linear kernel, the line train returns gives at every point p
   * exactly the value predict computes there: predict's kernel sum is the
   * dot product with the weights, and denormalisation undoes the
   * normalisation of p.
   */
  lemma LinearModelAgreesWithPredict(kp: KernelParams, exp: real -> real, params: NormParams,
                                     ps: seq<LabeledPoint>, alphas: seq<real>, bias: real, p: Vec2)
    requires Usable(params) && |alphas| == |ps|
    ensures LineValue(Denormalize(LinearWeights(ps, alphas, |ps|), bias, params.meanX, params.meanY, params.stdX, params.stdY), p)
         == DecisionSum(Linear, kp, exp, NormalizeQuery(params, p), ps, alphas, |ps|) + bias
  {
    LinearDecisionSum(kp, exp, NormalizeQuery(params, p), ps, alphas, |ps|);
    DenormalizeAgrees(LinearWeights(ps, alphas, |ps|), bias, params.meanX, params.meanY, params.stdX, params.stdY, p);
  }

  /** The a-th sample coordinate along an axis: `a * (extent / resolution)`. */
  function Coordinate(extent: real, resolution: int, a: int): real
    requires resolution > 0
  {
    a as real * (extent / resolution as real)
  }

  /** `c += step` moves from the a-th coordinate to the next. */
  lemma NextCoordinate(extent: real, resolution: int, a: int)
    requires resolution > 0
    ensures Coordinate(extent, resolution, a) + extent / resolution as real == Coordinate(extent, resolution, a + 1)
  {
    var step := extent / resolution as real;
    assert (a + 1) as real * step == a as real * step + step;
  }

  /** How many samples `for (c = 0; c < extent; c += step)` takes along an axis. */
  function Steps(extent: real, resolution: int): int
  {
    if extent > 0.0 then resolution else 0
  }

  /**
   * With a positive extent the a-th step is still inside the extent exactly
   * when a < resolution, so each axis gets `resolution` samples, all in
   * [0, extent).
   */
  lemma StepInside(extent: real, resolution: int, a: nat)
    requires resolution > 0 && extent > 0.0
    ensures Coordinate(extent, resolution, a) < extent <==> a < resolution
    ensures 0.0 <= Coordinate(extent, resolution, a)
  {
    var r := resolution as real;
    var step := extent / r;
    assert step * r == extent;
    assert 0.0 < step;
    if a < resolution {
      assert a as real * step < r * step;
    } else {
      assert r * step <= a as real * step;
    }
  }

  // ---------------------------------------------------------------------
  // The class

  class KernelSVM {
    const kernelType: KernelType
    const regularizationParameter: real
    const maxIterations: int
    const kernelParameters: KernelParams
    /** Math.exp and Math.sqrt, as the model sees them. */
    const exp: real -> real
    const sqrt: real -> real

    /** `null` before the first training; modelled as the empty sequence. */
    var lagrangeMultipliers: seq<real>
    var bias: real
    var supportVectors: seq<LabeledPoint>
    var normalizedPoints: seq<LabeledPoint>
    var normalizationParameters: NormParams

    /**
     * One multiplier per normalised point; once parameters are stored the
     * deviations are non-zero, and before that there are no points.
     */
    ghost predicate Valid()
      reads this
    {
      && |lagrangeMultipliers| == |normalizedPoints|
      && (normalizationParameters.NormParams? ==> Usable(normalizationParameters))
      && (normalizationParameters.Unset? ==> normalizedPoints == [])
    }

    /** The SMO problem over the current points and a kernel matrix. */
    function Prob(kernelMatrix: seq<seq<real>>): Problem
      reads this`normalizedPoints
    {
      Problem(normalizedPoints, kernelMatrix, regularizationParameter)
    }

    function State(): SmoState
      reads this`lagrangeMultipliers, this`bias
    {
      SmoState(lagrangeMultipliers, bias)
    }

    constructor (kernel: KernelType, C: real, maxIter: int, kernelParams: KernelParams,
                 mathExp: real -> real, mathSqrt: real -> real)
      ensures Valid()
      ensures kernelType == kernel && regularizationParameter == C && maxIterations == maxIter
      ensures kernelParameters == kernelParams && exp == mathExp && sqrt == mathSqrt
      ensures lagrangeMultipliers == [] && bias == 0.0 && supportVectors == [] && normalizedPoints == []
      ensures normalizationParameters == Unset
    {
      kernelType := kernel;
      regularizationParameter := C;
      maxIterations := maxIter;
      kernelParameters := kernelParams;
      exp := mathExp;
      sqrt := mathSqrt;
      lagrangeMultipliers := [];
      bias := 0.0;
      supportVectors := [];
      normalizedPoints := [];
      normalizationParameters := Unset;
    }

    /** normalizeData (kernels.js:90-136); an empty input gives NaN in the source and is excluded. */
    method NormalizeData(dataPoints: seq<LabeledPoint>) returns (normalized: seq<LabeledPoint>)
      requires |dataPoints| > 0
      modifies this`normalizationParameters
      ensures normalizationParameters == ParamsOf(sqrt, dataPoints)
      ensures Usable(normalizationParameters)
      ensures normalized == NormalizeAll(normalizationParameters, dataPoints)
    {
      var meanX, meanY := Means(dataPoints);
      var stdX, stdY := 1.0, 1.0;
      if |dataPoints| > 1 {
        stdX, stdY := Deviations(dataPoints, meanX, meanY, sqrt);
      }
      normalizationParameters := NormParams(meanX, meanY, stdX, stdY);
      normalized := NormalizePoints(normalizationParameters, dataPoints);
    }

    /**
     * computeKernelMatrix (kernels.js:138-156): an n x n matrix filled from
     * the upper triangle and mirrored; every entry is the kernel of its two
     * points, and the matrix is symmetric.
     */
    method ComputeKernelMatrix(dataPoints: seq<LabeledPoint>) returns (kernelMatrix: seq<seq<real>>)
      ensures |kernelMatrix| == |dataPoints|
      ensures forall i :: 0 <= i < |dataPoints| ==> |kernelMatrix[i]| == |dataPoints|
      ensures forall i, j :: 0 <= i < |dataPoints| && 0 <= j < |dataPoints| ==>
        kernelMatrix[i][j] == Evaluate(kernelType, kernelParameters, exp, Coords(dataPoints[i]), Coords(dataPoints[j]))
      ensures forall i, j :: 0 <= i < |dataPoints| && 0 <= j < |dataPoints| ==> kernelMatrix[i][j] == kernelMatrix[j][i]
      ensures kernelMatrix == KernelMatrixOf(kernelType, kernelParameters, exp, dataPoints)
    {
      var n := |dataPoints|;
      kernelMatrix := seq(n, _ => seq(n, _ => 0.0));
      var row := 0;
      while row < n
        invariant 0 <= row <= n
        invariant |kernelMatrix| == n && forall i :: 0 <= i < n ==> |kernelMatrix[i]| == n
        invariant forall i, j :: 0 <= i < n && 0 <= j < n && (i < row || j < row) ==>
          kernelMatrix[i][j] == Entry(dataPoints, i, j)
      {
        var col := row;
        while col < n
          invariant row <= col <= n
          invariant |kernelMatrix| == n && forall i :: 0 <= i < n ==> |kernelMatrix[i]| == n
          invariant forall i, j :: 0 <= i < n && 0 <= j < n && (i < row || j < row || (i == row && j < col) || (j == row && i < col)) ==>
            kernelMatrix[i][j] == Entry(dataPoints, i, j)
        {
          var point1 := Vec2(dataPoints[row].x, dataPoints[row].y);
          var point2 := Vec2(dataPoints[col].x, dataPoints[col].y);
          var v := Evaluate(kernelType, kernelParameters, exp, point1, point2);
          kernelMatrix := kernelMatrix[row := kernelMatrix[row][col := v]];
          kernelMatrix := kernelMatrix[col := kernelMatrix[col][row := kernelMatrix[row][col]]];
          col := col + 1;
        }
        row := row + 1;
      }
      forall i, j | 0 <= i < n && 0 <= j < n
        ensures kernelMatrix[i][j] == Evaluate(kernelType, kernelParameters, exp, Coords(dataPoints[i]), Coords(dataPoints[j]))
      {
        Symmetric(kernelType, kernelParameters, exp, Coords(dataPoints[i]), Coords(dataPoints[j]));
      }
      ghost var spec := KernelMatrixOf(kernelType, kernelParameters, exp, dataPoints);
      forall i | 0 <= i < n
        ensures kernelMatrix[i] == spec[i]
      {
        assert forall j :: 0 <= j < n ==> spec[i][j] == Evaluate(kernelType, kernelParameters, exp, Coords(dataPoints[i]), Coords(dataPoints[j]));
      }
    }

    /** The value the fill leaves at (i, j): the kernel taken with the smaller index first. */
    function Entry(dataPoints: seq<LabeledPoint>, i: int, j: int): real
      requires 0 <= i < |dataPoints| && 0 <= j < |dataPoints|
    {
      if i <= j then Evaluate(kernelType, kernelParameters, exp, Coords(dataPoints[i]), Coords(dataPoints[j]))
      else Evaluate(kernelType, kernelParameters, exp, Coords(dataPoints[j]), Coords(dataPoints[i]))
    }

    /** computeObjectiveValue (kernels.js:302-308): the SVM output at training point i. */
    method ComputeObjectiveValue(pointIndex: int, kernelMatrix: seq<seq<real>>) returns (value: real)
      requires Ready(Prob(kernelMatrix), State()) && 0 <= pointIndex < |normalizedPoints|
      ensures value == Objective(Prob(kernelMatrix), State(), pointIndex)
    {
      var sum := 0.0;
      var j := 0;
      while j < |normalizedPoints|
        invariant 0 <= j <= |normalizedPoints|
        invariant sum == KernelSum(Prob(kernelMatrix), lagrangeMultipliers, pointIndex, j)
      {
        sum := sum + lagrangeMultipliers[j] * normalizedPoints[j].cls as real * kernelMatrix[pointIndex][j];
        j := j + 1;
      }
      value := sum + bias;
    }

    /**
     * optimizeMultiplierPair (kernels.js:250-300): returns 1 and commits the
     * analytic step when it is accepted, and returns 0 leaving multipliers
     * and bias alone otherwise.
     */
    method OptimizeMultiplierPair(pointIndex1: int, pointIndex2: int, kernelMatrix: seq<seq<real>>) returns (changed: int)
      requires Ready(Prob(kernelMatrix), State())
      requires 0 <= pointIndex1 < |normalizedPoints| && 0 <= pointIndex2 < |normalizedPoints|
      modifies this`lagrangeMultipliers, this`bias
      ensures changed == (if PairStep(Prob(kernelMatrix), old(State()), pointIndex1, pointIndex2).Accepted? then 1 else 0)
      ensures State() == ApplyPair(old(State()), pointIndex1, pointIndex2, PairStep(Prob(kernelMatrix), old(State()), pointIndex1, pointIndex2))
    {
      if pointIndex1 == pointIndex2 {
        return 0;
      }
      var label1 := normalizedPoints[pointIndex1].cls as real;
      var label2 := normalizedPoints[pointIndex2].cls as real;
      var alpha1 := lagrangeMultipliers[pointIndex1];
      var alpha2 := lagrangeMultipliers[pointIndex2];
      var objective1 := ComputeObjectiveValue(pointIndex1, kernelMatrix);
      var objective2 := ComputeObjectiveValue(pointIndex2, kernelMatrix);
      var q := PairInputs(normalizedPoints[pointIndex1].cls == normalizedPoints[pointIndex2].cls,
                          label1, label2, alpha1, alpha2, objective1 - label1, objective2 - label2,
                          kernelMatrix[pointIndex1][pointIndex1], kernelMatrix[pointIndex1][pointIndex2],
                          kernelMatrix[pointIndex2][pointIndex2]);
      assert q == Inputs(Prob(kernelMatrix), State(), pointIndex1, pointIndex2);
      var low := LowBound(q.sameLabel, alpha1, alpha2, regularizationParameter);
      var high := HighBound(q.sameLabel, alpha1, alpha2, regularizationParameter);
      if low >= high {
        return 0;
      }
      if Eta(q) >= 0.0 {
        return 0;
      }
      var newAlpha2 := Clip(low, high, Unclipped(q));
      if Abs(newAlpha2 - alpha2) < Epsilon {
        return 0;
      }
      var newAlpha1 := FirstMultiplier(q, newAlpha2);
      if newAlpha1 < 0.0 || newAlpha1 > regularizationParameter {
        return 0;
      }
      bias := ChooseBias(newAlpha1, newAlpha2, regularizationParameter,
                         Bias1(q, bias, newAlpha1, newAlpha2), Bias2(q, bias, newAlpha1, newAlpha2));
      lagrangeMultipliers := lagrangeMultipliers[pointIndex1 := newAlpha1][pointIndex2 := newAlpha2];
      changed := 1;
    }

    /**
     * optimizePointMultiplier (kernels.js:218-248): a point that meets the
     * KKT conditions is left alone; otherwise the pair step runs with the
     * partner of largest |E1 - E2|, if there is one.
     */
    method OptimizePointMultiplier(pointIndex1: int, kernelMatrix: seq<seq<real>>) returns (changed: int)
      requires Ready(Prob(kernelMatrix), State()) && 0 <= pointIndex1 < |normalizedPoints|
      modifies this`lagrangeMultipliers, this`bias
      ensures changed == PointStep(Prob(kernelMatrix), old(State()), pointIndex1).changed
      ensures State() == PointStep(Prob(kernelMatrix), old(State()), pointIndex1).state
    {
      var label1 := normalizedPoints[pointIndex1].cls as real;
      var alpha1 := lagrangeMultipliers[pointIndex1];
      var objective1 := ComputeObjectiveValue(pointIndex1, kernelMatrix);
      var errorValue1 := objective1 - label1;
      assert errorValue1 == Error(Prob(kernelMatrix), State(), pointIndex1);
      if !ViolatesKkt(label1, alpha1, errorValue1, regularizationParameter) {
        return 0;
      }
      var pointIndex2 := FindPartner(pointIndex1, errorValue1, kernelMatrix);
      if pointIndex2 >= 0 {
        changed := OptimizeMultiplierPair(pointIndex1, pointIndex2, kernelMatrix);
      } else {
        changed := 0;
      }
    }

    /**
     * updateBias (kernels.js:310-329): the bias becomes the mean of
     * `y_i - sum_j a_j y_j M[i][j]` over the free multipliers, and stays as
     * it was when no multiplier is free.
     */
    method UpdateBias(kernelMatrix: seq<seq<real>>)
      requires Ready(Prob(kernelMatrix), State())
      modifies this`bias
      ensures State() == Smo.UpdateBias(Prob(kernelMatrix), old(State()))
    {
      var n := |normalizedPoints|;
      var freeTermSum := 0.0;
      var numFreeTerms := 0;
      var pointIndex := 0;
      while pointIndex < n
        invariant 0 <= pointIndex <= n
        invariant bias == old(bias)
        invariant freeTermSum == FreeSum(Prob(kernelMatrix), lagrangeMultipliers, pointIndex)
        invariant numFreeTerms == FreeCount(Prob(kernelMatrix), lagrangeMultipliers, pointIndex)
      {
        if lagrangeMultipliers[pointIndex] > 0.0 && lagrangeMultipliers[pointIndex] < regularizationParameter {
          var currentLabel := normalizedPoints[pointIndex].cls as real;
          var sum := 0.0;
          var j := 0;
          while j < n
            invariant 0 <= j <= n
            invariant sum == KernelSum(Prob(kernelMatrix), lagrangeMultipliers, pointIndex, j)
          {
            sum := sum + lagrangeMultipliers[j] * normalizedPoints[j].cls as real * kernelMatrix[pointIndex][j];
            j := j + 1;
          }
          freeTermSum := freeTermSum + (currentLabel - sum);
          numFreeTerms := numFreeTerms + 1;
        }
        pointIndex := pointIndex + 1;
      }
      if numFreeTerms > 0 {
        bias := freeTermSum / numFreeTerms as real;
      }
    }

    /**
     * optimizeLagrangeMultipliers (kernels.js:158-216): the SMO sweeps until
     * ten quiet passes or maxIterations sweeps, then the support vectors
     * (with the smallest-margin fallback), then updateBias.
     */
    method OptimizeLagrangeMultipliers(kernelMatrix: seq<seq<real>>)
      requires Ready(Prob(kernelMatrix), State())
      modifies this`lagrangeMultipliers, this`bias, this`supportVectors
      ensures State() == Optimize(Prob(kernelMatrix), old(State()), maxIterations).state
      ensures supportVectors == PointsAt(normalizedPoints, Optimize(Prob(kernelMatrix), old(State()), maxIterations).support)
    {
      ghost var p := Prob(kernelMatrix);
      ghost var s0 := State();
      var convergencePasses := 0;
      var maxConvergencePasses := 10;
      var iterationCount := 0;
      while convergencePasses < maxConvergencePasses && iterationCount < maxIterations
        invariant Ready(p, State())
        invariant Run(p, State(), convergencePasses, iterationCount, maxIterations) == Run(p, s0, 0, 0, maxIterations)
        decreases maxIterations - iterationCount
      {
        ghost var start := State();
        var numChangedMultipliers := SweepPoints(kernelMatrix);
        ghost var nextPasses := if numChangedMultipliers == 0 then convergencePasses + 1 else 0;
        assert Run(p, start, convergencePasses, iterationCount, maxIterations)
            == Run(p, State(), nextPasses, iterationCount + 1, maxIterations);
        iterationCount := iterationCount + 1;
        if numChangedMultipliers == 0 {
          convergencePasses := convergencePasses + 1;
        } else {
          convergencePasses := 0;
        }
      }
      ghost var run := State();
      assert run == Run(p, s0, 0, 0, maxIterations).state;
      ghost var fin := Fallback(p, run);
      CollectSupportVectors();
      if |supportVectors| == 0 {
        SupportVectorFallback(kernelMatrix);
      }
      assert State() == fin.state && supportVectors == PointsAt(normalizedPoints, fin.support);
      UpdateBias(kernelMatrix);
    }

    /** One sweep, the `for` loop at kernels.js:166-168: how many pair steps were accepted. */
    method SweepPoints(kernelMatrix: seq<seq<real>>) returns (numChangedMultipliers: int)
      requires Ready(Prob(kernelMatrix), State())
      modifies this`lagrangeMultipliers, this`bias
      ensures Outcome(numChangedMultipliers, State()) == Sweep(Prob(kernelMatrix), old(State()))
    {
      numChangedMultipliers := 0;
      var pointIndex := 0;
      while pointIndex < |normalizedPoints|
        invariant 0 <= pointIndex <= |normalizedPoints|
        invariant Ready(Prob(kernelMatrix), State())
        invariant Outcome(numChangedMultipliers, State()) == SweepPrefix(Prob(kernelMatrix), old(State()), pointIndex)
      {
        var c := OptimizePointMultiplier(pointIndex, kernelMatrix);
        numChangedMultipliers := numChangedMultipliers + c;
        pointIndex := pointIndex + 1;
      }
    }

    /** kernels.js:179-184: the points whose multiplier exceeds epsilon. */
    method CollectSupportVectors()
      requires |lagrangeMultipliers| == |normalizedPoints|
      modifies this`supportVectors
      ensures supportVectors == PointsAt(normalizedPoints, SupportIndices(lagrangeMultipliers, |lagrangeMultipliers|))
    {
      ghost var support: seq<int> := [];
      supportVectors := [];
      var pointIndex := 0;
      while pointIndex < |normalizedPoints|
        invariant 0 <= pointIndex <= |normalizedPoints|
        invariant support == SupportIndices(lagrangeMultipliers, pointIndex)
        invariant supportVectors == PointsAt(normalizedPoints, support)
      {
        if Abs(lagrangeMultipliers[pointIndex]) > Epsilon {
          supportVectors := supportVectors + [normalizedPoints[pointIndex]];
          support := support + [pointIndex];
        }
        pointIndex := pointIndex + 1;
      }
    }

    /**
     * The partner search of optimizePointMultiplier: the first other point of
     * largest |E1 - E2|, or -1 when every difference is 0.
     */
    method FindPartner(pointIndex1: int, errorValue1: real, kernelMatrix: seq<seq<real>>) returns (pointIndex2: int)
      requires Ready(Prob(kernelMatrix), State())
      ensures pointIndex2 == Partner(Errors(Prob(kernelMatrix), State()), pointIndex1, errorValue1)
    {
      ghost var errors := Errors(Prob(kernelMatrix), State());
      pointIndex2 := -1;
      var maxError := 0.0;
      var candidateIndex := 0;
      while candidateIndex < |normalizedPoints|
        invariant 0 <= candidateIndex <= |normalizedPoints|
        invariant Candidate(pointIndex2, maxError) == ScanPartner(errors, pointIndex1, errorValue1, candidateIndex)
      {
        if candidateIndex != pointIndex1 {
          var objective2 := ComputeObjectiveValue(candidateIndex, kernelMatrix);
          var errorValue2 := objective2 - normalizedPoints[candidateIndex].cls as real;
          assert errorValue2 == errors[candidateIndex];
          var errorDifference := Abs(errorValue1 - errorValue2);
          if errorDifference > maxError {
            maxError := errorDifference;
            pointIndex2 := candidateIndex;
          }
        }
        candidateIndex := candidateIndex + 1;
      }
    }

    /**
     * kernels.js:186-213: with no support vector, the min(3, n) points of
     * smallest margin get C / 2 and become the support vectors. The sort at
     * kernels.js:195-197 is modelled by the order SmallestMargins selects.
     */
    method SupportVectorFallback(kernelMatrix: seq<seq<real>>)
      requires Ready(Prob(kernelMatrix), State())
      requires SupportIndices(lagrangeMultipliers, |lagrangeMultipliers|) == []
      modifies this`lagrangeMultipliers, this`supportVectors
      ensures State() == Fallback(Prob(kernelMatrix), old(State())).state
      ensures supportVectors == PointsAt(normalizedPoints, Fallback(Prob(kernelMatrix), old(State())).support)
    {
      ghost var p := Prob(kernelMatrix);
      ghost var s := State();
      var marginValues := ComputeMargins(kernelMatrix);
      var numSupportVectors := MinInt(3, |normalizedPoints|);
      var supportVectorIndices := SmallestMargins(marginValues, numSupportVectors);
      assert supportVectorIndices == SmallestMargins(Margins(p, s), FallbackSize(|p.points|));
      FallbackSelects(p, s, supportVectorIndices);
      SetMultipliers(supportVectorIndices, regularizationParameter / 2.0);
      supportVectors := PointsAtLoop(supportVectorIndices);
      assert p == Prob(kernelMatrix) && s == old(State());
      assert State() == Fallback(p, s).state;
    }

    /** kernels.js:188-194: `|1 - y_i f(x_i)|` for every training point. */
    method ComputeMargins(kernelMatrix: seq<seq<real>>) returns (marginValues: seq<real>)
      requires Ready(Prob(kernelMatrix), State())
      ensures marginValues == Margins(Prob(kernelMatrix), State())
    {
      ghost var margins := Margins(Prob(kernelMatrix), State());
      marginValues := [];
      var pointIndex := 0;
      while pointIndex < |normalizedPoints|
        invariant 0 <= pointIndex <= |normalizedPoints|
        invariant marginValues == margins[..pointIndex]
      {
        var objective := ComputeObjectiveValue(pointIndex, kernelMatrix);
        var margin := Abs(1.0 - normalizedPoints[pointIndex].cls as real * objective);
        assert margin == Margin(Prob(kernelMatrix), State(), pointIndex);
        assert margins[pointIndex] == margin;
        assert margins[..pointIndex + 1] == margins[..pointIndex] + [margin];
        marginValues := marginValues + [margin];
        pointIndex := pointIndex + 1;
      }
      assert margins[..pointIndex] == margins;
    }

    /** kernels.js:205-207: the multiplier of every listed index becomes v. */
    method SetMultipliers(indices: seq<int>, v: real)
      requires forall t :: 0 <= t < |indices| ==> 0 <= indices[t] < |lagrangeMultipliers|
      modifies this`lagrangeMultipliers
      ensures lagrangeMultipliers == SetAll(old(lagrangeMultipliers), indices, v)
    {
      var i := 0;
      while i < |indices|
        invariant 0 <= i <= |indices|
        invariant lagrangeMultipliers == SetAll(old(lagrangeMultipliers), indices[..i], v)
      {
        assert indices[..i + 1][..i] == indices[..i];
        lagrangeMultipliers := lagrangeMultipliers[indices[i] := v];
        i := i + 1;
      }
      assert indices[..i] == indices;
    }

    /** kernels.js:209-212: the training points at the listed indices. */
    method PointsAtLoop(indices: seq<int>) returns (points: seq<LabeledPoint>)
      requires forall t :: 0 <= t < |indices| ==> 0 <= indices[t] < |normalizedPoints|
      ensures points == PointsAt(normalizedPoints, indices)
    {
      points := [];
      var i := 0;
      while i < |indices|
        invariant 0 <= i <= |indices|
        invariant points == PointsAt(normalizedPoints, indices[..i])
      {
        points := points + [normalizedPoints[indices[i]]];
        i := i + 1;
      }
      assert indices[..i] == indices;
    }

    /** The problem and the starting state train hands to the optimiser. */
    function TrainingProblem(): Problem
      reads this
    {
      Prob(KernelMatrixOf(kernelType, kernelParameters, exp, normalizedPoints))
    }

    /** What train returns once the multipliers, the bias and the parameters are final. */
    function TrainOutput(): TrainResult
      reads this
      requires Valid() && Usable(normalizationParameters)
    {
      if kernelType == Linear then
        var line := Denormalize(LinearWeights(normalizedPoints, lagrangeMultipliers, |normalizedPoints|), bias,
                                normalizationParameters.meanX, normalizationParameters.meanY,
                                normalizationParameters.stdX, normalizationParameters.stdY);
        LinearModel(line.w, line.b, lagrangeMultipliers)
      else KernelModel(lagrangeMultipliers)
    }

    /**
     * train (kernels.js:44-88): normalise, start every multiplier at
     * `0.1 * Math.random()` (the draws are `randoms`) and the bias at 0,
     * optimise over the kernel matrix, and for the linear kernel return the
     * weight vector and bias mapped back to the caller's coordinates. An
     * empty training set yields NaN in the source and is excluded.
     */
    method Train(dataPoints: seq<LabeledPoint>, randoms: seq<real>) returns (result: TrainResult)
      requires |dataPoints| > 0 && |randoms| == |dataPoints|
      modifies this
      ensures Valid()
      ensures normalizationParameters == ParamsOf(sqrt, dataPoints)
      ensures normalizedPoints == NormalizeAll(normalizationParameters, dataPoints)
      ensures State() == Optimize(TrainingProblem(), SmoState(InitialMultipliers(randoms), 0.0), maxIterations).state
      ensures supportVectors == PointsAt(normalizedPoints, Optimize(TrainingProblem(), SmoState(InitialMultipliers(randoms), 0.0), maxIterations).support)
      ensures Usable(normalizationParameters) && result == TrainOutput()
    {
      normalizedPoints := NormalizeData(dataPoints);
      InitializeMultipliers(randoms);
      bias := 0.0;
      var kernelMatrix := ComputeKernelMatrix(normalizedPoints);
      assert Prob(kernelMatrix) == TrainingProblem();
      assert State() == SmoState(InitialMultipliers(randoms), 0.0);
      OptimizeLagrangeMultipliers(kernelMatrix);
      if kernelType == Linear {
        var weightVector := ComputeLinearWeights(normalizedPoints, lagrangeMultipliers);
        var denormalized := Denormalize(weightVector, bias, normalizationParameters.meanX, normalizationParameters.meanY,
                                        normalizationParameters.stdX, normalizationParameters.stdY);
        result := LinearModel(denormalized.w, denormalized.b, lagrangeMultipliers);
        assert result == TrainOutput();
      } else {
        result := KernelModel(lagrangeMultipliers);
      }
    }

    /** kernels.js:47-51: every multiplier starts at `0.1 * Math.random()`. */
    method InitializeMultipliers(randoms: seq<real>)
      modifies this`lagrangeMultipliers
      ensures lagrangeMultipliers == InitialMultipliers(randoms)
    {
      var n := |randoms|;
      lagrangeMultipliers := seq(n, _ => 0.0);
      var pointIndex := 0;
      while pointIndex < n
        invariant 0 <= pointIndex <= n && |lagrangeMultipliers| == n
        invariant forall j :: 0 <= j < pointIndex ==> lagrangeMultipliers[j] == 0.1 * randoms[j]
      {
        lagrangeMultipliers := lagrangeMultipliers[pointIndex := 0.1 * randoms[pointIndex]];
        pointIndex := pointIndex + 1;
      }
    }

    /** The value predict returns at a point: the kernel sum over the support vectors, plus the bias. */
    function Decision(testPoint: Vec2): real
      reads this
      requires Valid()
    {
      DecisionSum(kernelType, kernelParameters, exp, NormalizeQuery(normalizationParameters, testPoint),
                  normalizedPoints, lagrangeMultipliers, |normalizedPoints|) + bias
    }

    /**
     * predict (kernels.js:331-346): the point is normalised with the stored
     * parameters and the kernel sum runs over the multipliers above epsilon.
     * Before any training there are no points, so the result is the bias.
     */
    method Predict(testPoint: Vec2) returns (value: real)
      requires Valid()
      ensures value == Decision(testPoint)
      ensures normalizedPoints == [] ==> value == bias
    {
      var normalizedPoint := NormalizeQuery(normalizationParameters, testPoint);
      var decisionValue := DecisionValue(kernelType, kernelParameters, exp, normalizedPoint, normalizedPoints, lagrangeMultipliers);
      value := decisionValue + bias;
    }

    /**
     * After training with the linear kernel, the returned line gives at every
     * point exactly the value predict returns there.
     */
    lemma LinearOutputMatchesPredict(p: Vec2)
      requires Valid() && Usable(normalizationParameters) && kernelType == Linear
      ensures TrainOutput().LinearModel?
      ensures LineValue(Line(TrainOutput().w, TrainOutput().b), p) == Decision(p)
    {
      LinearModelAgreesWithPredict(kernelParameters, exp, normalizationParameters, normalizedPoints, lagrangeMultipliers, bias, p);
    }

    /** The sample at column a and row b: the grid point and predict's value there. */
    function Sample(width: real, height: real, resolution: int, a: int, b: int): BoundaryPoint
      reads this
      requires Valid() && resolution > 0
    {
      var x, y := Coordinate(width, resolution, a), Coordinate(height, resolution, b);
      BoundaryPoint(x, y, Decision(Vec2(x, y)))
    }

    /** The first b samples of column a. */
    function BoundaryColumn(width: real, height: real, resolution: int, a: int, b: nat): seq<BoundaryPoint>
      reads this
      requires Valid() && resolution > 0
    {
      if b == 0 then [] else BoundaryColumn(width, height, resolution, a, b - 1) + [Sample(width, height, resolution, a, b - 1)]
    }

    /** The samples of the first a columns, column by column. */
    function Boundary(width: real, height: real, resolution: int, a: nat): seq<BoundaryPoint>
      reads this
      requires Valid() && a <= Steps(width, resolution) && (resolution > 0 || width <= 0.0)
    {
      if a == 0 then []
      else Boundary(width, height, resolution, a - 1) + BoundaryColumn(width, height, resolution, a - 1, Steps(height, resolution))
    }

    /** A grid sample inside [0, width) x [0, height) that carries predict's value at its point. */
    ghost predicate OnGrid(width: real, height: real, s: BoundaryPoint)
      reads this
      requires Valid()
    {
      0.0 <= s.x < width && 0.0 <= s.y < height && s.value == Decision(Vec2(s.x, s.y))
    }

    /** The first b samples of a column inside the width are b samples on the grid. */
    lemma {:induction false} ColumnShape(width: real, height: real, resolution: int, a: nat, b: nat)
      requires Valid() && resolution > 0 && width > 0.0 && a < resolution && b <= Steps(height, resolution)
      ensures |BoundaryColumn(width, height, resolution, a, b)| == b
      ensures forall t :: 0 <= t < b ==> OnGrid(width, height, BoundaryColumn(width, height, resolution, a, b)[t])
    {
      if b > 0 {
        ColumnShape(width, height, resolution, a, b - 1);
        StepInside(width, resolution, a);
        StepInside(height, resolution, b - 1);
        var prev := BoundaryColumn(width, height, resolution, a, b - 1);
        var s := Sample(width, height, resolution, a, b - 1);
        assert BoundaryColumn(width, height, resolution, a, b) == prev + [s];
        assert OnGrid(width, height, s);
      }
    }

    /**
     * The grid has one sample per column and row, and every sample lies in
     * [0, width) x [0, height) and carries predict's value at that point.
     */
    lemma {:induction false} BoundaryShape(width: real, height: real, resolution: int, a: nat)
      requires Valid() && a <= Steps(width, resolution) && (resolution > 0 || width <= 0.0)
      ensures |Boundary(width, height, resolution, a)| == a * Steps(height, resolution)
      ensures forall t :: 0 <= t < |Boundary(width, height, resolution, a)| ==>
        OnGrid(width, height, Boundary(width, height, resolution, a)[t])
    {
      BoundaryLength(width, height, resolution, a);
      if a > 0 {
        BoundaryShape(width, height, resolution, a - 1);
        var rows := Steps(height, resolution);
        ColumnShape(width, height, resolution, a - 1, rows);
        var prev := Boundary(width, height, resolution, a - 1);
        var col := BoundaryColumn(width, height, resolution, a - 1, rows);
        var all := Boundary(width, height, resolution, a);
        assert all == prev + col;
        forall t | 0 <= t < |all|
          ensures OnGrid(width, height, all[t])
        {
          if t < |prev| {
            assert all[t] == prev[t];
          } else {
            assert all[t] == col[t - |prev|];
          }
        }
      }
    }

    lemma {:induction false} BoundaryLength(width: real, height: real, resolution: int, a: nat)
      requires Valid() && a <= Steps(width, resolution) && (resolution > 0 || width <= 0.0)
      ensures |Boundary(width, height, resolution, a)| == a * Steps(height, resolution)
    {
      if a > 0 {
        BoundaryLength(width, height, resolution, a - 1);
        var rows := Steps(height, resolution);
        ColumnShape(width, height, resolution, a - 1, rows);
        assert |Boundary(width, height, resolution, a)| == (a - 1) * rows + rows;
      }
    }

    /**
     * generateDecisionBoundary (kernels.js:348-363): a missing or zero
     * resolution means 50; the samples run column by column. The source
     * accumulates `x += step` in floating point; here the a-th coordinate
     * is exactly `a * step`. A negative resolution with a positive width
     * never ends in the source and is excluded.
     */
    method GenerateDecisionBoundary(width: real, height: real, gridResolution: Maybe<int>)
      returns (boundaryPoints: seq<BoundaryPoint>)
      requires Valid()
      requires OrInt(gridResolution, 50) > 0 || width <= 0.0
      ensures boundaryPoints == Boundary(width, height, OrInt(gridResolution, 50), Steps(width, OrInt(gridResolution, 50)))
    {
      var resolution := OrInt(gridResolution, 50);
      boundaryPoints := [];
      if width <= 0.0 {
        return;
      }
      var stepSizeX := width / resolution as real;
      var xCoord := 0.0;
      var a := 0;
      while xCoord < width
        invariant 0 <= a <= resolution
        invariant xCoord == Coordinate(width, resolution, a)
        invariant boundaryPoints == Boundary(width, height, resolution, a)
        decreases resolution - a
      {
        StepInside(width, resolution, a);
        var column := GenerateColumn(width, height, resolution, xCoord, a);
        boundaryPoints := boundaryPoints + column;
        xCoord := xCoord + stepSizeX;
        NextCoordinate(width, resolution, a);
        a := a + 1;
      }
      StepInside(width, resolution, a);
    }

    /** The inner `for` loop of generateDecisionBoundary (kernels.js:356-359): one column of samples. */
    method GenerateColumn(width: real, height: real, resolution: int, xCoord: real, a: int)
      returns (column: seq<BoundaryPoint>)
      requires Valid() && resolution > 0 && xCoord == Coordinate(width, resolution, a)
      ensures column == BoundaryColumn(width, height, resolution, a, Steps(height, resolution))
    {
      column := [];
      var stepSizeY := height / resolution as real;
      var yCoord := 0.0;
      var b := 0;
      while yCoord < height
        invariant 0 <= b <= Steps(height, resolution)
        invariant yCoord == Coordinate(height, resolution, b)
        invariant column == BoundaryColumn(width, height, resolution, a, b)
        decreases resolution - b
      {
        StepInside(height, resolution, b);
        var predictedValue := Predict(Vec2(xCoord, yCoord));
        column := column + [BoundaryPoint(xCoord, yCoord, predictedValue)];
        yCoord := yCoord + stepSizeY;
        NextCoordinate(height, resolution, b);
        b := b + 1;
      }
      if height > 0.0 {
        StepInside(height, resolution, b);
      }
    }
  }
}
