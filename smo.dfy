// The simplified SMO optimisation of KernelSVM (kernels.js:158-329) as pure
// functions of the training problem and the optimiser's state. The methods
// of class KernelSVM are proved to compute exactly these functions; the
// lemmas about them are in module SmoProperties.

module Smo {
  import opened RealMath
  import opened Points

  /** `this.tolerance` */
  const Tolerance: real := 0.001
  /** `this.epsilon` */
  const Epsilon: real := 0.000001
  /** `maxConvergencePasses` */
  const MaxConvergencePasses: int := 10
  /** The number of multipliers the support-vector fallback sets. */
  const FallbackCount: int := 3

  /** The normalised training points, their kernel matrix and C. */
  datatype Problem = Problem(points: seq<LabeledPoint>, matrix: seq<seq<real>>, C: real)

  /** `lagrangeMultipliers` and `bias`. */
  datatype SmoState = SmoState(alphas: seq<real>, bias: real)

  predicate WellFormed(p: Problem)
  {
    && |p.matrix| == |p.points|
    && forall i :: 0 <= i < |p.matrix| ==> |p.matrix[i]| == |p.points|
  }

  predicate Ready(p: Problem, s: SmoState)
  {
    WellFormed(p) && |s.alphas| == |p.points|
  }

  /** Every class is 1 or -1, as normalizeData makes it. */
  predicate UnitLabels(ps: seq<LabeledPoint>)
  {
    forall i :: 0 <= i < |ps| ==> ps[i].cls == 1 || ps[i].cls == -1
  }

  predicate SymmetricMatrix(p: Problem)
    requires WellFormed(p)
  {
    forall i, j :: 0 <= i < |p.points| && 0 <= j < |p.points| ==> p.matrix[i][j] == p.matrix[j][i]
  }

  /** The box constraint `0 <= a_i <= C` for every multiplier. */
  predicate InBox(C: real, alphas: seq<real>)
  {
    forall i :: 0 <= i < |alphas| ==> 0.0 <= alphas[i] <= C
  }

  function Label(p: Problem, i: int): real
    requires 0 <= i < |p.points|
  {
    p.points[i].cls as real
  }

  /** `sum_{j < k} a_j * y_j * M[i][j]`, accumulated left to right. */
  function KernelSum(p: Problem, alphas: seq<real>, i: int, k: nat): real
    requires WellFormed(p) && |alphas| == |p.points| && 0 <= i < |p.points| && k <= |p.points|
  {
    if k == 0 then 0.0
    else KernelSum(p, alphas, i, k - 1) + alphas[k - 1] * Label(p, k - 1) * p.matrix[i][k - 1]
  }

  /** computeObjectiveValue: the decision value at training point i. */
  function Objective(p: Problem, s: SmoState, i: int): real
    requires Ready(p, s) && 0 <= i < |p.points|
  {
    KernelSum(p, s.alphas, i, |p.points|) + s.bias
  }

  /** `E_i = f(x_i) - y_i` */
  function Error(p: Problem, s: SmoState, i: int): real
    requires Ready(p, s) && 0 <= i < |p.points|
  {
    Objective(p, s, i) - Label(p, i)
  }

  function Errors(p: Problem, s: SmoState): seq<real>
    requires Ready(p, s)
  {
    seq(|p.points|, i requires 0 <= i < |p.points| => Error(p, s, i))
  }

  /** The KKT test of optimizePointMultiplier (kernels.js:223-224). */
  predicate ViolatesKkt(y: real, alpha: real, e: real, C: real)
  {
    (y * e < -Tolerance && alpha < C) || (y * e > Tolerance && alpha > 0.0)
  }

  /** `pointIndex2` and `maxError` of the partner search. */
  datatype Candidate = Candidate(index: int, maxError: real)

  /**
   * The partner search over candidates 0..k-1: skip i1, and take a candidate
   * whose |E1 - E2| is strictly greater than the best so far (which starts at 0).
   */
  function ScanPartner(errors: seq<real>, i1: int, e1: real, k: nat): (c: Candidate)
    requires k <= |errors|
    ensures c.index == -1 || (0 <= c.index < k && c.index != i1)
    ensures 0.0 <= c.maxError
  {
    if k == 0 then Candidate(-1, 0.0)
    else
      var c := ScanPartner(errors, i1, e1, k - 1);
      if k - 1 == i1 then c
      else
        var d := Abs(e1 - errors[k - 1]);
        if d > c.maxError then Candidate(k - 1, d) else c
  }

  function Partner(errors: seq<real>, i1: int, e1: real): int
  {
    ScanPartner(errors, i1, e1, |errors|).index
  }

  /** Why optimizeMultiplierPair returned 0. */
  datatype Rejection = SameIndex | EmptyBox | NonNegativeEta | NegligibleStep | FirstOutOfBox

  datatype PairResult = Rejected(reason: Rejection) | Accepted(alpha1: real, alpha2: real, bias: real)

  /** The lower box bound L on the second multiplier. */
  function LowBound(sameLabel: bool, a1: real, a2: real, C: real): real
  {
    if !sameLabel then Max(0.0, a2 - a1) else Max(0.0, a1 + a2 - C)
  }

  /** The upper box bound H on the second multiplier. */
  function HighBound(sameLabel: bool, a1: real, a2: real, C: real): real
  {
    if !sameLabel then Min(C, C + a2 - a1) else Min(C, a1 + a2)
  }

  function SameLabel(p: Problem, i1: int, i2: int): bool
    requires 0 <= i1 < |p.points| && 0 <= i2 < |p.points|
  {
    p.points[i1].cls == p.points[i2].cls
  }

  /** The scalars optimizeMultiplierPair reads for the pair (i1, i2). */
  datatype PairInputs = PairInputs(
    sameLabel: bool, y1: real, y2: real, a1: real, a2: real, e1: real, e2: real,
    k11: real, k12: real, k22: real)

  function Inputs(p: Problem, s: SmoState, i1: int, i2: int): PairInputs
    requires Ready(p, s) && 0 <= i1 < |p.points| && 0 <= i2 < |p.points|
  {
    PairInputs(SameLabel(p, i1, i2), Label(p, i1), Label(p, i2), s.alphas[i1], s.alphas[i2],
               Error(p, s, i1), Error(p, s, i2), p.matrix[i1][i1], p.matrix[i1][i2], p.matrix[i2][i2])
  }

  function Eta(q: PairInputs): real
  {
    2.0 * q.k12 - q.k11 - q.k22
  }

  /** `newBias1`: the bias that makes the decision value at the first point exact. */
  function Bias1(q: PairInputs, bias: real, newA1: real, newA2: real): real
  {
    bias - q.e1 - q.y1 * (newA1 - q.a1) * q.k11 - q.y2 * (newA2 - q.a2) * q.k12
  }

  /** `newBias2`: the bias that makes the decision value at the second point exact. */
  function Bias2(q: PairInputs, bias: real, newA1: real, newA2: real): real
  {
    bias - q.e2 - q.y1 * (newA1 - q.a1) * q.k12 - q.y2 * (newA2 - q.a2) * q.k22
  }

  /** The bias chosen after an accepted step (kernels.js:288-294). */
  function ChooseBias(newA1: real, newA2: real, C: real, b1: real, b2: real): real
  {
    if 0.0 < newA1 && newA1 < C then b1
    else if 0.0 < newA2 && newA2 < C then b2
    else (b1 + b2) / 2.0
  }

  /** The unconstrained optimum for the second multiplier, `a2 - y2 (E1 - E2) / eta`. */
  function Unclipped(q: PairInputs): real
    requires Eta(q) != 0.0
  {
    q.a2 - q.y2 * (q.e1 - q.e2) / Eta(q)
  }

  /** `Math.min(H, Math.max(L, x))` */
  function Clip(lo: real, hi: real, x: real): (r: real)
    ensures lo <= hi ==> lo <= r <= hi
    ensures lo <= x <= hi ==> r == x
  {
    Min(hi, Max(lo, x))
  }

  /** The first multiplier that keeps `y1 a1 + y2 a2` when the second becomes newA2. */
  function FirstMultiplier(q: PairInputs, newA2: real): real
  {
    q.a1 + q.y1 * q.y2 * (q.a2 - newA2)
  }

  /** The analytic step of optimizeMultiplierPair for two distinct indices (kernels.js:253-299). */
  function PairUpdate(q: PairInputs, bias: real, C: real): PairResult
  {
    var lo := LowBound(q.sameLabel, q.a1, q.a2, C);
    var hi := HighBound(q.sameLabel, q.a1, q.a2, C);
    if lo >= hi then Rejected(EmptyBox)
    else if Eta(q) >= 0.0 then Rejected(NonNegativeEta)
    else
      var newA2 := Clip(lo, hi, Unclipped(q));
      if Abs(newA2 - q.a2) < Epsilon then Rejected(NegligibleStep)
      else
        var newA1 := FirstMultiplier(q, newA2);
        if newA1 < 0.0 || newA1 > C then Rejected(FirstOutOfBox)
        else Accepted(newA1, newA2, ChooseBias(newA1, newA2, C, Bias1(q, bias, newA1, newA2), Bias2(q, bias, newA1, newA2)))
  }

  /** optimizeMultiplierPair (kernels.js:250-300). */
  function PairStep(p: Problem, s: SmoState, i1: int, i2: int): PairResult
    requires Ready(p, s) && 0 <= i1 < |p.points| && 0 <= i2 < |p.points|
  {
    if i1 == i2 then Rejected(SameIndex) else PairUpdate(Inputs(p, s, i1, i2), s.bias, p.C)
  }

  /** Commits a pair result: a rejected step leaves the state as it was. */
  function ApplyPair(s: SmoState, i1: int, i2: int, r: PairResult): (t: SmoState)
    requires 0 <= i1 < |s.alphas| && 0 <= i2 < |s.alphas|
    ensures |t.alphas| == |s.alphas|
    ensures forall j :: 0 <= j < |s.alphas| && j != i1 && j != i2 ==> t.alphas[j] == s.alphas[j]
    ensures r.Rejected? ==> t == s
  {
    match r
    case Rejected(_) => s
    case Accepted(a1, a2, b) => SmoState(s.alphas[i1 := a1][i2 := a2], b)
  }

  /** How many multipliers a step changed (0 or 1 pair), and the state after it. */
  datatype Outcome = Outcome(changed: int, state: SmoState)

  /** optimizePointMultiplier (kernels.js:218-248). */
  function PointStep(p: Problem, s: SmoState, i1: int): (o: Outcome)
    requires Ready(p, s) && 0 <= i1 < |p.points|
    ensures |o.state.alphas| == |s.alphas|
    ensures o.changed == 0 || o.changed == 1
  {
    var e1 := Error(p, s, i1);
    if !ViolatesKkt(Label(p, i1), s.alphas[i1], e1, p.C) then Outcome(0, s)
    else
      var i2 := Partner(Errors(p, s), i1, e1);
      if i2 >= 0 then
        var r := PairStep(p, s, i1, i2);
        Outcome(if r.Accepted? then 1 else 0, ApplyPair(s, i1, i2, r))
      else Outcome(0, s)
  }

  /** The first k steps of one sweep (the `for` loop at kernels.js:166-168). */
  function SweepPrefix(p: Problem, s: SmoState, k: nat): (o: Outcome)
    requires Ready(p, s) && k <= |p.points|
    ensures |o.state.alphas| == |s.alphas|
    ensures 0 <= o.changed <= k
  {
    if k == 0 then Outcome(0, s)
    else
      var o := SweepPrefix(p, s, k - 1);
      var q := PointStep(p, o.state, k - 1);
      Outcome(o.changed + q.changed, q.state)
  }

  function Sweep(p: Problem, s: SmoState): Outcome
    requires Ready(p, s)
  {
    SweepPrefix(p, s, |p.points|)
  }

  datatype RunResult = RunResult(state: SmoState, passes: int, iterations: int)

  /** The outer `while` loop (kernels.js:163-177), from the given counters on. */
  function Run(p: Problem, s: SmoState, passes: int, iterations: int, maxIterations: int): (r: RunResult)
    requires Ready(p, s)
    ensures |r.state.alphas| == |s.alphas|
    decreases maxIterations - iterations
  {
    if passes < MaxConvergencePasses && iterations < maxIterations then
      var o := Sweep(p, s);
      Run(p, o.state, if o.changed == 0 then passes + 1 else 0, iterations + 1, maxIterations)
    else RunResult(s, passes, iterations)
  }

  /** Indices below k whose multiplier counts as a support vector, in order. */
  function SupportIndices(alphas: seq<real>, k: nat): (r: seq<int>)
    requires k <= |alphas|
    ensures forall t :: 0 <= t < |r| ==> 0 <= r[t] < k
  {
    if k == 0 then []
    else SupportIndices(alphas, k - 1) + (if Abs(alphas[k - 1]) > Epsilon then [k - 1] else [])
  }

  /** `|1 - y_i * f(x_i)|`: how far training point i is from its margin. */
  function Margin(p: Problem, s: SmoState, i: int): real
    requires Ready(p, s) && 0 <= i < |p.points|
  {
    Abs(1.0 - Label(p, i) * Objective(p, s, i))
  }

  /** The margin of every training point. */
  function Margins(p: Problem, s: SmoState): seq<real>
    requires Ready(p, s)
  {
    seq(|p.points|, i requires 0 <= i < |p.points| => Margin(p, s, i))
  }

  /** The order a stable ascending sort by margin puts indices in. */
  predicate Precedes(m: seq<real>, i: int, j: int)
    requires 0 <= i < |m| && 0 <= j < |m|
  {
    m[i] < m[j] || (m[i] == m[j] && i < j)
  }

  /** Among indices below k not yet chosen, the first in stable ascending order; -1 if none. */
  function FirstUnchosen(m: seq<real>, chosen: seq<int>, k: nat): (r: int)
    requires k <= |m|
    ensures r == -1 || (0 <= r < k && r !in chosen)
    ensures r == -1 <==> forall j :: 0 <= j < k ==> j in chosen
  {
    if k == 0 then -1
    else
      var b := FirstUnchosen(m, chosen, k - 1);
      if k - 1 !in chosen && (b < 0 || Precedes(m, k - 1, b)) then k - 1 else b
  }

  /** A sequence that holds every index below n has at least n entries. */
  lemma {:induction false} Covers(s: seq<int>, n: nat)
    ensures (forall j :: 0 <= j < n ==> j in s) ==> n <= |s|
  {
    if n > 0 && forall j :: 0 <= j < n ==> j in s {
      assert n - 1 in s;
      var k :| 0 <= k < |s| && s[k] == n - 1;
      var rest := s[..k] + s[k + 1..];
      forall j | 0 <= j < n - 1
        ensures j in rest
      {
        assert j in s;
        var i :| 0 <= i < |s| && s[i] == j;
        if i < k {
          assert rest[i] == j;
        } else {
          assert rest[i - 1] == j;
        }
      }
      Covers(rest, n - 1);
    }
  }

  /** The first t entries of the margin order (kernels.js:195-203). */
  function SmallestMargins(m: seq<real>, t: nat): (r: seq<int>)
    requires t <= |m|
    ensures |r| == t
    ensures forall a :: 0 <= a < t ==> 0 <= r[a] < |m|
  {
    if t == 0 then []
    else
      var prev := SmallestMargins(m, t - 1);
      Covers(prev, |m|);
      prev + [FirstUnchosen(m, prev, |m|)]
  }

  /** Sets the multipliers at the given indices to v, in order. */
  function SetAll(alphas: seq<real>, idx: seq<int>, v: real): (r: seq<real>)
    requires forall t :: 0 <= t < |idx| ==> 0 <= idx[t] < |alphas|
    ensures |r| == |alphas|
  {
    if idx == [] then alphas
    else SetAll(alphas, idx[..|idx| - 1], v)[idx[|idx| - 1] := v]
  }

  /** The state after optimisation, and the indices of `supportVectors`. */
  datatype Trained = Trained(state: SmoState, support: seq<int>)

  function FallbackSize(n: int): int
  {
    MinInt(FallbackCount, n)
  }

  /**
   * The support-vector fallback (kernels.js:179-213): when no multiplier
   * exceeds epsilon, the min(3, n) points of smallest margin get C / 2.
   */
  function Fallback(p: Problem, s: SmoState): Trained
    requires Ready(p, s)
  {
    var support := SupportIndices(s.alphas, |s.alphas|);
    if |support| > 0 then Trained(s, support)
    else
      var sel := SmallestMargins(Margins(p, s), FallbackSize(|p.points|));
      Trained(SmoState(SetAll(s.alphas, sel, p.C / 2.0), s.bias), sel)
  }

  /** The multipliers updateBias treats as free. */
  predicate Free(C: real, a: real)
  {
    a > 0.0 && a < C
  }

  /** `freeTermSum` over the first k points: `sum (y_i - sum_j a_j y_j M[i][j])` over free i. */
  function FreeSum(p: Problem, alphas: seq<real>, k: nat): real
    requires WellFormed(p) && |alphas| == |p.points| && k <= |p.points|
  {
    if k == 0 then 0.0
    else
      var term := if Free(p.C, alphas[k - 1]) then Label(p, k - 1) - KernelSum(p, alphas, k - 1, |p.points|) else 0.0;
      FreeSum(p, alphas, k - 1) + term
  }

  /** `numFreeTerms` over the first k points. */
  function FreeCount(p: Problem, alphas: seq<real>, k: nat): nat
    requires WellFormed(p) && |alphas| == |p.points| && k <= |p.points|
  {
    if k == 0 then 0
    else FreeCount(p, alphas, k - 1) + (if Free(p.C, alphas[k - 1]) then 1 else 0)
  }

  /** updateBias (kernels.js:310-329). */
  function UpdateBias(p: Problem, s: SmoState): SmoState
    requires Ready(p, s)
  {
    var n := FreeCount(p, s.alphas, |p.points|);
    if n > 0 then SmoState(s.alphas, FreeSum(p, s.alphas, |p.points|) / n as real) else s
  }

  /** optimizeLagrangeMultipliers (kernels.js:158-216). */
  function Optimize(p: Problem, s: SmoState, maxIterations: int): Trained
    requires Ready(p, s)
  {
    var run := Run(p, s, 0, 0, maxIterations);
    var fin := Fallback(p, run.state);
    Trained(UpdateBias(p, fin.state), fin.support)
  }
}
