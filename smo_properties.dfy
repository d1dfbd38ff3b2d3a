// What the SMO functions of module Smo guarantee: the accept/reject
// behaviour and box bounds of the two-multiplier step, conservation of
// sum_i y_i a_i, the bias choice, the partner search, the sweep and outer
// loop counters, the fallback selection and the final bias.

module SmoProperties {
  import opened RealMath
  import opened Points
  import opened Smo

  /** `sum_{j < k} a_j * y_j`: the SMO equality-constraint residual. */
  function LabelledSum(p: Problem, alphas: seq<real>, k: nat): real
    requires |alphas| == |p.points| && k <= |p.points|
  {
    if k == 0 then 0.0 else LabelledSum(p, alphas, k - 1) + alphas[k - 1] * Label(p, k - 1)
  }

  lemma {:induction false} KernelSumUpdate(p: Problem, a: seq<real>, i: int, j: int, v: real, k: nat)
    requires WellFormed(p) && |a| == |p.points| && 0 <= i < |p.points| && 0 <= j < |p.points| && k <= |p.points|
    ensures KernelSum(p, a[j := v], i, k)
         == KernelSum(p, a, i, k) + (if j < k then (v - a[j]) * Label(p, j) * p.matrix[i][j] else 0.0)
  {
    if k > 0 {
      KernelSumUpdate(p, a, i, j, v, k - 1);
      if j == k - 1 {
        assert v * Label(p, j) * p.matrix[i][j] - a[j] * Label(p, j) * p.matrix[i][j]
            == (v - a[j]) * Label(p, j) * p.matrix[i][j];
      }
    }
  }

  lemma {:induction false} LabelledSumUpdate(p: Problem, a: seq<real>, j: int, v: real, k: nat)
    requires |a| == |p.points| && 0 <= j < |p.points| && k <= |p.points|
    ensures LabelledSum(p, a[j := v], k) == LabelledSum(p, a, k) + (if j < k then (v - a[j]) * Label(p, j) else 0.0)
  {
    if k > 0 {
      LabelledSumUpdate(p, a, j, v, k - 1);
    }
  }

  // ---------------------------------------------------------------------
  // optimizeMultiplierPair

  // Each fact about an accepted PairUpdate is proved on its own: together
  // they are more nonlinear arithmetic than the solver handles in one goal.

  lemma AcceptedBox(q: PairInputs, bias: real, C: real, r: PairResult)
    requires r == PairUpdate(q, bias, C) && r.Accepted?
    ensures 0.0 <= LowBound(q.sameLabel, q.a1, q.a2, C) < HighBound(q.sameLabel, q.a1, q.a2, C) <= C
    ensures Eta(q) < 0.0
  {
  }

  lemma AcceptedSecond(q: PairInputs, bias: real, C: real, r: PairResult)
    requires r == PairUpdate(q, bias, C) && r.Accepted?
    ensures LowBound(q.sameLabel, q.a1, q.a2, C) <= r.alpha2 <= HighBound(q.sameLabel, q.a1, q.a2, C)
  {
  }

  lemma AcceptedMoves(q: PairInputs, bias: real, C: real, r: PairResult)
    requires r == PairUpdate(q, bias, C) && r.Accepted?
    ensures Abs(r.alpha2 - q.a2) >= Epsilon
  {
  }

  lemma AcceptedFirst(q: PairInputs, bias: real, C: real, r: PairResult)
    requires r == PairUpdate(q, bias, C) && r.Accepted?
    ensures 0.0 <= r.alpha1 <= C
  {
  }

  lemma AcceptedFirstFormula(q: PairInputs, bias: real, C: real, r: PairResult)
    requires r == PairUpdate(q, bias, C) && r.Accepted?
    ensures r.alpha1 == FirstMultiplier(q, r.alpha2)
    ensures r.alpha2 == Clip(LowBound(q.sameLabel, q.a1, q.a2, C), HighBound(q.sameLabel, q.a1, q.a2, C), Unclipped(q))
  {
  }

  lemma AcceptedBias(q: PairInputs, bias: real, C: real, r: PairResult)
    requires r == PairUpdate(q, bias, C) && r.Accepted?
    ensures r.bias == ChooseBias(r.alpha1, r.alpha2, C, Bias1(q, bias, r.alpha1, r.alpha2), Bias2(q, bias, r.alpha1, r.alpha2))
  {
  }

  /**
   * An accepted step: the box [L, H] is non-empty and inside [0, C], the new
   * second multiplier lies in it and moved by at least epsilon, the new first
   * multiplier lies in [0, C] and moved by `y1 y2` times the opposite of the
   * second's move, eta was negative, and the bias is chosen from Bias1/Bias2
   * in the order of ChooseBias.
   */
  lemma PairUpdateAccepted(q: PairInputs, bias: real, C: real, r: PairResult)
    requires r == PairUpdate(q, bias, C) && r.Accepted?
    ensures var lo := LowBound(q.sameLabel, q.a1, q.a2, C);
      var hi := HighBound(q.sameLabel, q.a1, q.a2, C);
      && 0.0 <= lo < hi <= C
      && lo <= r.alpha2 <= hi
      && Abs(r.alpha2 - q.a2) >= Epsilon
      && 0.0 <= r.alpha1 <= C
      && Eta(q) < 0.0
      && r.alpha2 == Clip(lo, hi, Unclipped(q))
      && r.alpha1 == FirstMultiplier(q, r.alpha2)
      && r.bias == ChooseBias(r.alpha1, r.alpha2, C, Bias1(q, bias, r.alpha1, r.alpha2), Bias2(q, bias, r.alpha1, r.alpha2))
  {
    AcceptedBox(q, bias, C, r);
    AcceptedSecond(q, bias, C, r);
    AcceptedMoves(q, bias, C, r);
    AcceptedFirst(q, bias, C, r);
    AcceptedFirstFormula(q, bias, C, r);
    AcceptedBias(q, bias, C, r);
  }

  /**
   * The equality-constraint algebra: with y1 = 1 or -1, the first multiplier
   * FirstMultiplier computes keeps `y1 a1 + y2 a2` whatever the new second one is.
   */
  lemma FirstMultiplierConserves(q: PairInputs, newA2: real)
    requires q.y1 == 1.0 || q.y1 == -1.0
    ensures q.y1 * FirstMultiplier(q, newA2) + q.y2 * newA2 == q.y1 * q.a1 + q.y2 * q.a2
  {
    var y1, y2 := q.y1, q.y2;
    assert y1 * y1 == 1.0;
    assert y1 * (y1 * y2 * (q.a2 - newA2)) == (y1 * y1) * (y2 * (q.a2 - newA2));
  }

  /** Each rejection branch, in the order the source tests them. */
  lemma PairUpdateRejections(q: PairInputs, bias: real, C: real)
    ensures var r := PairUpdate(q, bias, C);
      var lo := LowBound(q.sameLabel, q.a1, q.a2, C);
      var hi := HighBound(q.sameLabel, q.a1, q.a2, C);
      && (lo >= hi ==> r == Rejected(EmptyBox))
      && (lo < hi && Eta(q) >= 0.0 ==> r == Rejected(NonNegativeEta))
      && (r == Rejected(NegligibleStep) ==> lo < hi && Eta(q) < 0.0)
      && (r == Rejected(FirstOutOfBox) ==> lo < hi && Eta(q) < 0.0)
  {
  }

  /** The same pair is never stepped, and a rejected step leaves the state as it was. */
  lemma PairStepRejected(p: Problem, s: SmoState, i1: int, i2: int)
    requires Ready(p, s) && 0 <= i1 < |p.points| && 0 <= i2 < |p.points|
    ensures var r := PairStep(p, s, i1, i2);
      && (r == Rejected(SameIndex) <==> i1 == i2)
      && (r.Rejected? ==> ApplyPair(s, i1, i2, r) == s)
  {
  }

  /**
   * Moving the multipliers of two distinct points with unit labels as
   * FirstMultiplier prescribes keeps `sum_i y_i a_i`.
   */
  lemma PairConserves(p: Problem, s: SmoState, i1: int, i2: int, n1: real, n2: real)
    requires Ready(p, s) && 0 <= i1 < |p.points| && 0 <= i2 < |p.points| && i1 != i2
    requires UnitLabels(p.points)
    requires n1 == FirstMultiplier(Inputs(p, s, i1, i2), n2)
    ensures LabelledSum(p, s.alphas[i1 := n1][i2 := n2], |p.points|) == LabelledSum(p, s.alphas, |p.points|)
  {
    var q := Inputs(p, s, i1, i2);
    var n := |p.points|;
    var mid := s.alphas[i1 := n1];
    assert p.points[i1].cls == 1 || p.points[i1].cls == -1;
    FirstMultiplierConserves(q, n2);
    LabelledSumUpdate(p, s.alphas, i1, n1, n);
    LabelledSumUpdate(p, mid, i2, n2, n);
    assert mid[i2] == q.a2;
    ScalarConservation(q.y1, q.y2, q.a1, q.a2, n1, n2, LabelledSum(p, s.alphas, n));
  }

  lemma ScalarConservation(y1: real, y2: real, a1: real, a2: real, n1: real, n2: real, total: real)
    requires y1 * n1 + y2 * n2 == y1 * a1 + y2 * a2
    ensures total + (n1 - a1) * y1 + (n2 - a2) * y2 == total
  {
  }

  /** An accepted step keeps `sum_i y_i a_i` when every label is 1 or -1. */
  lemma PairStepConserves(p: Problem, s: SmoState, i1: int, i2: int)
    requires Ready(p, s) && 0 <= i1 < |p.points| && 0 <= i2 < |p.points|
    requires UnitLabels(p.points)
    ensures var t := ApplyPair(s, i1, i2, PairStep(p, s, i1, i2));
      LabelledSum(p, t.alphas, |p.points|) == LabelledSum(p, s.alphas, |p.points|)
  {
    var r := PairStep(p, s, i1, i2);
    if r.Accepted? {
      AcceptedFirstFormula(Inputs(p, s, i1, i2), s.bias, p.C, r);
      PairConserves(p, s, i1, i2, r.alpha1, r.alpha2);
    }
  }

  /**
   * The error at any point i after the multipliers of two distinct points
   * are set to n1, n2 and the bias to b, in terms of the error before.
   */
  lemma ErrorAfterPair(p: Problem, s: SmoState, i: int, i1: int, i2: int, n1: real, n2: real, b: real)
    requires Ready(p, s) && 0 <= i < |p.points| && 0 <= i1 < |p.points| && 0 <= i2 < |p.points| && i1 != i2
    ensures Error(p, SmoState(s.alphas[i1 := n1][i2 := n2], b), i)
         == Error(p, s, i) + (n1 - s.alphas[i1]) * Label(p, i1) * p.matrix[i][i1]
            + (n2 - s.alphas[i2]) * Label(p, i2) * p.matrix[i][i2] + (b - s.bias)
  {
    var n := |p.points|;
    var mid := s.alphas[i1 := n1];
    assert mid[i2] == s.alphas[i2];
    KernelSumUpdate(p, s.alphas, i, i1, n1, n);
    KernelSumUpdate(p, mid, i, i2, n2, n);
  }

  /**
   * After the multipliers of two distinct points are set to n1, n2 and the
   * bias to b, the error at the first point is `b - Bias1`: Bias1 is the
   * bias that makes it 0.
   */
  lemma ErrorAtFirstAfterPair(p: Problem, s: SmoState, i1: int, i2: int, n1: real, n2: real, b: real)
    requires Ready(p, s) && 0 <= i1 < |p.points| && 0 <= i2 < |p.points| && i1 != i2
    ensures Error(p, SmoState(s.alphas[i1 := n1][i2 := n2], b), i1) == b - Bias1(Inputs(p, s, i1, i2), s.bias, n1, n2)
  {
    var q := Inputs(p, s, i1, i2);
    ErrorAfterPair(p, s, i1, i1, i2, n1, n2, b);
    ExactError(Error(p, s, i1), s.bias, b, Label(p, i1), Label(p, i2), n1 - s.alphas[i1], n2 - s.alphas[i2],
               p.matrix[i1][i1], p.matrix[i1][i2], q.k11, q.k12);
  }

  /** Likewise the error at the second point is `b - Bias2`, for a symmetric kernel matrix. */
  lemma ErrorAtSecondAfterPair(p: Problem, s: SmoState, i1: int, i2: int, n1: real, n2: real, b: real)
    requires Ready(p, s) && 0 <= i1 < |p.points| && 0 <= i2 < |p.points| && i1 != i2
    requires SymmetricMatrix(p)
    ensures Error(p, SmoState(s.alphas[i1 := n1][i2 := n2], b), i2) == b - Bias2(Inputs(p, s, i1, i2), s.bias, n1, n2)
  {
    var q := Inputs(p, s, i1, i2);
    ErrorAfterPair(p, s, i2, i1, i2, n1, n2, b);
    assert p.matrix[i2][i1] == q.k12;
    ExactError(Error(p, s, i2), s.bias, b, Label(p, i1), Label(p, i2), n1 - s.alphas[i1], n2 - s.alphas[i2],
               p.matrix[i2][i1], p.matrix[i2][i2], q.k12, q.k22);
  }

  /** The scalar identity behind ErrorAtFirstAfterPair and ErrorAtSecondAfterPair. */
  lemma ExactError(e: real, bias: real, b: real, y1: real, y2: real, d1: real, d2: real, m1: real, m2: real, k1: real, k2: real)
    requires m1 == k1 && m2 == k2
    ensures e + d1 * y1 * m1 + d2 * y2 * m2 + (b - bias) == b - (bias - e - y1 * d1 * k1 - y2 * d2 * k2)
  {
  }

  /**
   * The chosen bias makes the decision function exact at a point whose new
   * multiplier is strictly inside (0, C) (first point preferred); when
   * neither is, the averaged bias leaves opposite errors at the two points.
   */
  lemma PairStepBias(p: Problem, s: SmoState, i1: int, i2: int)
    requires Ready(p, s) && 0 <= i1 < |p.points| && 0 <= i2 < |p.points|
    requires SymmetricMatrix(p)
    requires PairStep(p, s, i1, i2).Accepted?
    ensures var r := PairStep(p, s, i1, i2);
      var t := ApplyPair(s, i1, i2, r);
      && (Free(p.C, r.alpha1) ==> Error(p, t, i1) == 0.0)
      && (!Free(p.C, r.alpha1) && Free(p.C, r.alpha2) ==> Error(p, t, i2) == 0.0)
      && (!Free(p.C, r.alpha1) && !Free(p.C, r.alpha2) ==> Error(p, t, i1) + Error(p, t, i2) == 0.0)
  {
    var r := PairStep(p, s, i1, i2);
    var q := Inputs(p, s, i1, i2);
    AcceptedBias(q, s.bias, p.C, r);
    assert ApplyPair(s, i1, i2, r) == SmoState(s.alphas[i1 := r.alpha1][i2 := r.alpha2], r.bias);
    ErrorAtFirstAfterPair(p, s, i1, i2, r.alpha1, r.alpha2, r.bias);
    ErrorAtSecondAfterPair(p, s, i1, i2, r.alpha1, r.alpha2, r.bias);
  }

  // ---------------------------------------------------------------------
  // Partner selection in optimizePointMultiplier

  /**
   * The partner search returns -1 exactly when no candidate other than i1
   * has a non-zero |E1 - E2|; otherwise a candidate other than i1 with the
   * largest |E1 - E2|, the first one on ties.
   */
  lemma {:induction false} ScanPartnerIsFirstMaximum(errors: seq<real>, i1: int, e1: real, k: nat)
    requires k <= |errors|
    ensures var c := ScanPartner(errors, i1, e1, k);
      && (c.index == -1 <==> forall j :: 0 <= j < k && j != i1 ==> Abs(e1 - errors[j]) == 0.0)
      && (c.index == -1 ==> c.maxError == 0.0)
      && (c.index != -1 ==>
            && c.maxError == Abs(e1 - errors[c.index]) > 0.0
            && (forall j :: 0 <= j < k && j != i1 ==> Abs(e1 - errors[j]) <= c.maxError)
            && (forall j :: 0 <= j < c.index && j != i1 ==> Abs(e1 - errors[j]) < c.maxError))
  {
    if k > 0 {
      ScanPartnerIsFirstMaximum(errors, i1, e1, k - 1);
    }
  }

  /**
   * optimizePointMultiplier: it reports 0 and changes nothing when the KKT
   * test passes or no partner is found; it reports 1 exactly when the KKT
   * test fails, a partner other than the point itself is found and their
   * pair step is accepted, and the new state is that step's.
   */
  lemma PointStepShape(p: Problem, s: SmoState, i1: int)
    requires Ready(p, s) && 0 <= i1 < |p.points|
    ensures var o := PointStep(p, s, i1);
      var e1 := Error(p, s, i1);
      var i2 := Partner(Errors(p, s), i1, e1);
      && (!ViolatesKkt(Label(p, i1), s.alphas[i1], e1, p.C) ==> o == Outcome(0, s))
      && (i2 == -1 ==> o == Outcome(0, s))
      && (o.changed == 0 ==> o.state == s)
      && (o.changed == 1 ==>
            && ViolatesKkt(Label(p, i1), s.alphas[i1], e1, p.C)
            && 0 <= i2 < |p.points| && i2 != i1
            && PairStep(p, s, i1, i2).Accepted?
            && o.state == ApplyPair(s, i1, i2, PairStep(p, s, i1, i2)))
      && ((ViolatesKkt(Label(p, i1), s.alphas[i1], e1, p.C) && 0 <= i2 < |p.points| && PairStep(p, s, i1, i2).Accepted?)
            ==> o.changed == 1)
  {
  }

  // ---------------------------------------------------------------------
  // Box constraint and equality constraint across the optimisation

  /** A pair step keeps every multiplier in [0, C]. */
  lemma PairStepKeepsBox(p: Problem, s: SmoState, i1: int, i2: int)
    requires Ready(p, s) && 0 <= i1 < |p.points| && 0 <= i2 < |p.points|
    requires InBox(p.C, s.alphas)
    ensures InBox(p.C, ApplyPair(s, i1, i2, PairStep(p, s, i1, i2)).alphas)
  {
    var r := PairStep(p, s, i1, i2);
    if r.Accepted? {
      var q := Inputs(p, s, i1, i2);
      AcceptedBox(q, s.bias, p.C, r);
      AcceptedSecond(q, s.bias, p.C, r);
      AcceptedFirst(q, s.bias, p.C, r);
    }
  }

  lemma PointStepKeepsBox(p: Problem, s: SmoState, i1: int)
    requires Ready(p, s) && 0 <= i1 < |p.points| && InBox(p.C, s.alphas)
    ensures InBox(p.C, PointStep(p, s, i1).state.alphas)
  {
    var i2 := Partner(Errors(p, s), i1, Error(p, s, i1));
    if 0 <= i2 {
      PairStepKeepsBox(p, s, i1, i2);
    }
  }

  lemma PointStepConserves(p: Problem, s: SmoState, i1: int)
    requires Ready(p, s) && 0 <= i1 < |p.points| && UnitLabels(p.points)
    ensures LabelledSum(p, PointStep(p, s, i1).state.alphas, |p.points|) == LabelledSum(p, s.alphas, |p.points|)
  {
    var i2 := Partner(Errors(p, s), i1, Error(p, s, i1));
    if 0 <= i2 {
      PairStepConserves(p, s, i1, i2);
    }
  }

  /** Every sweep prefix keeps the box. */
  lemma {:induction false} SweepPrefixKeepsBox(p: Problem, s: SmoState, k: nat)
    requires Ready(p, s) && k <= |p.points| && InBox(p.C, s.alphas)
    ensures InBox(p.C, SweepPrefix(p, s, k).state.alphas)
  {
    if k == 0 {
      assert SweepPrefix(p, s, k).state == s;
    } else {
      SweepPrefixKeepsBox(p, s, k - 1);
      var o := SweepPrefix(p, s, k - 1);
      PointStepKeepsBox(p, o.state, k - 1);
      assert SweepPrefix(p, s, k).state == PointStep(p, o.state, k - 1).state;
    }
  }

  /** With unit labels every sweep prefix keeps `sum_i y_i a_i`. */
  lemma {:induction false} SweepPrefixConserves(p: Problem, s: SmoState, k: nat)
    requires Ready(p, s) && k <= |p.points| && UnitLabels(p.points)
    ensures LabelledSum(p, SweepPrefix(p, s, k).state.alphas, |p.points|) == LabelledSum(p, s.alphas, |p.points|)
  {
    if k == 0 {
      assert SweepPrefix(p, s, k).state == s;
    } else {
      SweepPrefixConserves(p, s, k - 1);
      var o := SweepPrefix(p, s, k - 1);
      var t := PointStep(p, o.state, k - 1).state;
      PointStepConserves(p, o.state, k - 1);
      assert SweepPrefix(p, s, k).state.alphas == t.alphas;
      assert LabelledSum(p, t.alphas, |p.points|) == LabelledSum(p, o.state.alphas, |p.points|);
    }
  }

  /** A sweep that reports no change left the state exactly as it was. */
  lemma {:induction false} QuietSweepPrefix(p: Problem, s: SmoState, k: nat)
    requires Ready(p, s) && k <= |p.points|
    ensures SweepPrefix(p, s, k).changed == 0 ==> SweepPrefix(p, s, k).state == s
  {
    if k > 0 {
      QuietSweepPrefix(p, s, k - 1);
      var o := SweepPrefix(p, s, k - 1);
      PointStepShape(p, o.state, k - 1);
    }
  }

  /** The outer loop keeps the box and, with unit labels, `sum_i y_i a_i`. */
  lemma {:induction false} RunInvariants(p: Problem, s: SmoState, passes: int, iterations: int, maxIterations: int)
    requires Ready(p, s)
    ensures InBox(p.C, s.alphas) ==> InBox(p.C, Run(p, s, passes, iterations, maxIterations).state.alphas)
    ensures UnitLabels(p.points) ==>
      LabelledSum(p, Run(p, s, passes, iterations, maxIterations).state.alphas, |p.points|) == LabelledSum(p, s.alphas, |p.points|)
    decreases maxIterations - iterations
  {
    if passes < MaxConvergencePasses && iterations < maxIterations {
      var o := Sweep(p, s);
      if InBox(p.C, s.alphas) {
        SweepPrefixKeepsBox(p, s, |p.points|);
      }
      if UnitLabels(p.points) {
        SweepPrefixConserves(p, s, |p.points|);
      }
      RunInvariants(p, o.state, if o.changed == 0 then passes + 1 else 0, iterations + 1, maxIterations);
    }
  }

  /**
   * The outer loop's counters: it runs at most maxIterations sweeps, never
   * counts more than 10 quiet passes, and stops only when 10 consecutive
   * sweeps changed nothing or the iteration budget is spent.
   */
  lemma {:induction false} RunCounters(p: Problem, s: SmoState, passes: int, iterations: int, maxIterations: int)
    requires Ready(p, s) && 0 <= passes <= MaxConvergencePasses
    ensures var r := Run(p, s, passes, iterations, maxIterations);
      && iterations <= r.iterations
      && (iterations <= maxIterations ==> r.iterations <= maxIterations)
      && 0 <= r.passes <= MaxConvergencePasses
      && (r.passes == MaxConvergencePasses || r.iterations >= maxIterations)
      && (r.iterations == iterations ==> r == RunResult(s, passes, iterations))
    decreases maxIterations - iterations
  {
    if passes < MaxConvergencePasses && iterations < maxIterations {
      var o := Sweep(p, s);
      RunCounters(p, o.state, if o.changed == 0 then passes + 1 else 0, iterations + 1, maxIterations);
    }
  }

  /**
   * Once a sweep changes nothing the state is a fixed point: the loop goes
   * on counting quiet passes until there are 10 or the budget is spent.
   */
  lemma {:induction false} RunFromFixedPoint(p: Problem, s: SmoState, passes: int, iterations: int, maxIterations: int)
    requires Ready(p, s) && Sweep(p, s).changed == 0
    requires 0 <= passes <= MaxConvergencePasses && iterations <= maxIterations
    ensures var k := MinInt(MaxConvergencePasses - passes, maxIterations - iterations);
      Run(p, s, passes, iterations, maxIterations) == RunResult(s, passes + k, iterations + k)
    decreases maxIterations - iterations
  {
    QuietSweepPrefix(p, s, |p.points|);
    if passes < MaxConvergencePasses && iterations < maxIterations {
      RunFromFixedPoint(p, s, passes + 1, iterations + 1, maxIterations);
    }
  }

  // ---------------------------------------------------------------------
  // The support-vector fallback

  /** SupportIndices lists exactly the indices below k whose |a_i| exceeds epsilon, in increasing order. */
  lemma {:induction false} SupportIndicesMembers(alphas: seq<real>, k: nat)
    requires k <= |alphas|
    ensures var r := SupportIndices(alphas, k);
      && (forall j :: j in r <==> 0 <= j < k && Abs(alphas[j]) > Epsilon)
      && (forall a, b :: 0 <= a < b < |r| ==> r[a] < r[b])
  {
    if k > 0 {
      SupportIndicesMembers(alphas, k - 1);
    }
  }

  lemma {:induction false} NoSupportIndices(alphas: seq<real>, k: nat)
    requires k <= |alphas| && forall j :: 0 <= j < k ==> Abs(alphas[j]) <= Epsilon
    ensures SupportIndices(alphas, k) == []
  {
    if k > 0 {
      NoSupportIndices(alphas, k - 1);
    }
  }

  /** FirstUnchosen returns the unchosen index that precedes every other unchosen one. */
  lemma {:induction false} FirstUnchosenLeast(m: seq<real>, chosen: seq<int>, k: nat)
    requires k <= |m|
    ensures var r := FirstUnchosen(m, chosen, k);
      r != -1 ==> forall j :: 0 <= j < k && j !in chosen && j != r ==> Precedes(m, r, j)
  {
    if k > 0 {
      FirstUnchosenLeast(m, chosen, k - 1);
    }
  }

  /**
   * SmallestMargins(m, t) is the first t entries of the indices sorted by
   * margin (ties in index order): distinct indices, in that order, each
   * preceding every index not chosen.
   */
  lemma {:induction false} SmallestMarginsOrder(m: seq<real>, t: nat)
    requires t <= |m|
    ensures forall a, b :: 0 <= a < b < t ==>
      SmallestMargins(m, t)[a] != SmallestMargins(m, t)[b] && Precedes(m, SmallestMargins(m, t)[a], SmallestMargins(m, t)[b])
    ensures forall a, j :: 0 <= a < t && 0 <= j < |m| && j !in SmallestMargins(m, t) ==> Precedes(m, SmallestMargins(m, t)[a], j)
  {
    if t > 0 {
      SmallestMarginsOrder(m, t - 1);
      var prev := SmallestMargins(m, t - 1);
      Covers(prev, |m|);
      var x := FirstUnchosen(m, prev, |m|);
      FirstUnchosenLeast(m, prev, |m|);
      assert x != -1 by {
        assert |prev| < |m|;
      }
      var r := prev + [x];
      assert r == SmallestMargins(m, t);
      forall a, j | 0 <= a < t && 0 <= j < |m| && j !in r
        ensures Precedes(m, r[a], j)
      {
        assert j !in prev && j != x;
        if a == t - 1 {
          assert r[a] == x;
          assert Precedes(m, x, j);
        } else {
          assert r[a] == prev[a];
          assert Precedes(m, prev[a], j);
        }
      }
      forall a, b | 0 <= a < b < t
        ensures r[a] != r[b] && Precedes(m, r[a], r[b])
      {
        if b == t - 1 {
          assert r[a] == prev[a] && r[b] == x && x !in prev;
          assert 0 <= x < |m|;
          assert prev[a] in prev;
          assert Precedes(m, prev[a], x);
        } else {
          assert r[a] == prev[a] && r[b] == prev[b];
          assert Precedes(m, prev[a], prev[b]);
        }
      }
    }
  }

  /** SetAll sets exactly the listed indices. */
  lemma {:induction false} SetAllAt(alphas: seq<real>, idx: seq<int>, v: real)
    requires forall t :: 0 <= t < |idx| ==> 0 <= idx[t] < |alphas|
    ensures forall j :: 0 <= j < |alphas| ==> SetAll(alphas, idx, v)[j] == if j in idx then v else alphas[j]
  {
    if idx != [] {
      var front := idx[..|idx| - 1];
      SetAllAt(alphas, front, v);
      assert forall j :: j in idx <==> j in front || j == idx[|idx| - 1];
    }
  }

  /** With some |a_i| above epsilon, the fallback changes nothing and those indices are the support. */
  lemma FallbackWithSupport(p: Problem, s: SmoState, i: int)
    requires Ready(p, s) && 0 <= i < |p.points| && Abs(s.alphas[i]) > Epsilon
    ensures var f := Fallback(p, s);
      && f.state == s
      && (forall j :: j in f.support <==> 0 <= j < |p.points| && Abs(s.alphas[j]) > Epsilon)
  {
    SupportIndicesMembers(s.alphas, |p.points|);
    assert i in SupportIndices(s.alphas, |p.points|);
  }

  /** Without support indices the fallback sets the selected indices to C / 2 and keeps the bias. */
  lemma FallbackSelects(p: Problem, s: SmoState, sel: seq<int>)
    requires Ready(p, s) && SupportIndices(s.alphas, |s.alphas|) == []
    requires sel == SmallestMargins(Margins(p, s), FallbackSize(|p.points|))
    ensures Fallback(p, s) == Trained(SmoState(SetAll(s.alphas, sel, p.C / 2.0), s.bias), sel)
  {
  }

  /**
   * With every |a_i| at most epsilon, the fallback gives exactly min(3, n)
   * indices of smallest margin the value C / 2 and leaves the other
   * multipliers and the bias alone.
   */
  lemma FallbackWithoutSupport(p: Problem, s: SmoState)
    requires Ready(p, s)
    requires forall j :: 0 <= j < |p.points| ==> Abs(s.alphas[j]) <= Epsilon
    ensures var f := Fallback(p, s);
      var n := |p.points|;
      && f.support == SmallestMargins(Margins(p, s), MinInt(FallbackCount, n))
      && |f.support| == MinInt(FallbackCount, n)
      && f.state.bias == s.bias
      && |f.state.alphas| == n
      && (forall j :: 0 <= j < n ==> f.state.alphas[j] == if j in f.support then p.C / 2.0 else s.alphas[j])
  {
    var n := |p.points|;
    NoSupportIndices(s.alphas, n);
    var m := Margins(p, s);
    var sel := SmallestMargins(m, FallbackSize(n));
    var a := SetAll(s.alphas, sel, p.C / 2.0);
    var f := Fallback(p, s);
    assert f == Trained(SmoState(a, s.bias), sel);
    SetAllAt(s.alphas, sel, p.C / 2.0);
    assert forall j :: 0 <= j < n ==> a[j] == if j in sel then p.C / 2.0 else s.alphas[j];
  }

  /** With C >= 0 the fallback keeps every multiplier in [0, C]. */
  lemma FallbackKeepsBox(p: Problem, s: SmoState)
    requires Ready(p, s) && InBox(p.C, s.alphas) && 0.0 <= p.C
    ensures InBox(p.C, Fallback(p, s).state.alphas)
    ensures |Fallback(p, s).state.alphas| == |p.points|
    ensures forall j :: j in Fallback(p, s).support ==> 0 <= j < |p.points|
  {
    if i :| 0 <= i < |p.points| && Abs(s.alphas[i]) > Epsilon {
      FallbackWithSupport(p, s, i);
    } else {
      FallbackWithoutSupport(p, s);
    }
  }

  // ---------------------------------------------------------------------
  // updateBias

  /** `sum E_i` over the free indices below k. */
  function FreeErrorSum(p: Problem, s: SmoState, k: nat): real
    requires Ready(p, s) && k <= |p.points|
  {
    if k == 0 then 0.0
    else FreeErrorSum(p, s, k - 1) + (if Free(p.C, s.alphas[k - 1]) then Error(p, s, k - 1) else 0.0)
  }

  lemma {:induction false} FreeErrorSumIs(p: Problem, s: SmoState, k: nat)
    requires Ready(p, s) && k <= |p.points|
    ensures FreeErrorSum(p, s, k) == FreeCount(p, s.alphas, k) as real * s.bias - FreeSum(p, s.alphas, k)
  {
    if k > 0 {
      FreeErrorSumIs(p, s, k - 1);
      var c := FreeCount(p, s.alphas, k - 1) as real;
      assert (c + 1.0) * s.bias == c * s.bias + s.bias;
    }
  }

  /**
   * updateBias keeps the multipliers; it keeps the bias when no multiplier
   * is free, and otherwise sets it to the mean of `y_i - sum_j a_j y_j M[i][j]`
   * over the free indices, which makes the errors at those points sum to 0.
   */
  lemma UpdateBiasEffect(p: Problem, s: SmoState)
    requires Ready(p, s)
    ensures var t := UpdateBias(p, s);
      var n := |p.points|;
      var count := FreeCount(p, s.alphas, n);
      && t.alphas == s.alphas
      && (count == 0 ==> t == s)
      && (count > 0 ==> t.bias * count as real == FreeSum(p, s.alphas, n))
      && (count > 0 ==> FreeErrorSum(p, t, n) == 0.0)
  {
    var t := UpdateBias(p, s);
    var n := |p.points|;
    if FreeCount(p, s.alphas, n) > 0 {
      FreeErrorSumIs(p, t, n);
    }
  }

  // ---------------------------------------------------------------------
  // optimizeLagrangeMultipliers as a whole

  /**
   * Starting from multipliers in [0, C] with C >= 0, the optimisation ends
   * with multipliers in [0, C]; the support indices are valid indices.
   */
  lemma OptimizeKeepsBox(p: Problem, s: SmoState, maxIterations: int)
    requires Ready(p, s) && InBox(p.C, s.alphas) && 0.0 <= p.C
    ensures var o := Optimize(p, s, maxIterations);
      && |o.state.alphas| == |p.points|
      && InBox(p.C, o.state.alphas)
      && (forall j :: j in o.support ==> 0 <= j < |p.points|)
  {
    var run := Run(p, s, 0, 0, maxIterations);
    RunInvariants(p, s, 0, 0, maxIterations);
    FallbackKeepsBox(p, run.state);
    UpdateBiasEffect(p, Fallback(p, run.state).state);
  }
}
