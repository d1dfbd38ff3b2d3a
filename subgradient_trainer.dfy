// trainSVM of svm.js: a hinge-loss subgradient trainer over z-score
// normalised points. Every sweep visits the points in a Fisher-Yates order,
// nudges the weights, the bias and the point's lambda whenever the point's
// margin is below 1, and the weights of the sweep with the smallest total
// hinge error are kept and mapped back to the caller's coordinates.

module SubgradientTrainer {
  import opened RealMath
  import opened JsValues
  import opened Points
  import opened Normalization

  /** A sweep whose total hinge error falls below this ends the training. */
  const StopError: real := 0.001

  /** `options`: each field may be missing. */
  datatype Options = Options(maxIterations: Maybe<int>, learningRate: Maybe<real>, C: Maybe<real>)

  datatype Settings = Settings(maxIterations: int, learningRate: real, regularization: real)

  /** `options.x || default` for the three options (svm.js:2-4). */
  function SettingsOf(o: Options): Settings
  {
    Settings(OrInt(o.maxIterations, 2000), OrReal(o.learningRate, 0.0001), OrReal(o.C, 1.0))
  }

  /** A missing or zero option takes its default; any other value is used as given. */
  lemma SettingsDefaults(o: Options)
    ensures SettingsOf(o).maxIterations == (if o.maxIterations.Defined? && o.maxIterations.value != 0 then o.maxIterations.value else 2000)
    ensures SettingsOf(o).learningRate == (if o.learningRate.Defined? && o.learningRate.value != 0.0 then o.learningRate.value else 0.0001)
    ensures SettingsOf(o).regularization == (if o.C.Defined? && o.C.value != 0.0 then o.C.value else 1.0)
  {
  }

  // ---------------------------------------------------------------------
  // Normalisation (svm.js:6-32): no guard against a zero deviation

  /** `(p - mean) / std` per axis; unlike KernelSVM, the class is kept as it is. */
  function Standardize(ps: seq<LabeledPoint>, meanX: real, meanY: real, stdX: real, stdY: real): seq<LabeledPoint>
    requires stdX != 0.0 && stdY != 0.0
  {
    seq(|ps|, i requires 0 <= i < |ps| => LabeledPoint((ps[i].x - meanX) / stdX, (ps[i].y - meanY) / stdY, ps[i].cls))
  }

  /** Standardisation keeps length, order and class, and `x == nx * std + mean` round-trips. */
  lemma StandardizeRoundTrip(ps: seq<LabeledPoint>, meanX: real, meanY: real, stdX: real, stdY: real)
    requires stdX != 0.0 && stdY != 0.0
    ensures |Standardize(ps, meanX, meanY, stdX, stdY)| == |ps|
    ensures forall i :: 0 <= i < |ps| ==>
      && Standardize(ps, meanX, meanY, stdX, stdY)[i].cls == ps[i].cls
      && Standardize(ps, meanX, meanY, stdX, stdY)[i].x * stdX + meanX == ps[i].x
      && Standardize(ps, meanX, meanY, stdX, stdY)[i].y * stdY + meanY == ps[i].y
  {
    var r := Standardize(ps, meanX, meanY, stdX, stdY);
    forall i | 0 <= i < |ps|
      ensures r[i].cls == ps[i].cls && r[i].x * stdX + meanX == ps[i].x && r[i].y * stdY + meanY == ps[i].y
    {
      Rescale(ps[i].x, meanX, stdX);
      Rescale(ps[i].y, meanY, stdY);
    }
  }

  lemma Rescale(x: real, mean: real, std: real)
    requires std != 0.0
    ensures (x - mean) / std * std + mean == x
  {
  }

  // ---------------------------------------------------------------------
  // The Fisher-Yates shuffle (svm.js:45-49)

  /** `0, 1, ..., n - 1`, as `Array.from` builds it. */
  function Range(n: nat): (r: seq<int>)
    ensures |r| == n
  {
    seq(n, i requires 0 <= i < n => i)
  }

  /** Every index below n occurs exactly once in Range(n), and nothing else does. */
  lemma {:induction false} RangeCounts(n: nat)
    ensures forall k :: multiset(Range(n))[k] == (if 0 <= k < n then 1 else 0)
  {
    if n > 0 {
      RangeCounts(n - 1);
      assert Range(n) == Range(n - 1) + [n - 1];
    } else {
      assert Range(n) == [];
    }
  }

  /** `Math.floor(r * (i + 1))` */
  function SwapPartner(r: real, i: int): int
  {
    (r * (i + 1) as real).Floor
  }

  /** For a draw in [0, 1) the partner of position i is in [0, i]. */
  lemma SwapPartnerInRange(r: real, i: nat)
    requires 0.0 <= r < 1.0
    ensures 0 <= SwapPartner(r, i) <= i
  {
    var n := (i + 1) as real;
    assert 0.0 < n;
    assert 0.0 <= r * n by { assert 0.0 * n <= r * n; }
    assert r * n < n by { assert r * n < 1.0 * n; }
  }

  /** `[s[i], s[j]] = [s[j], s[i]]` */
  function Swap(s: seq<int>, i: int, j: int): (r: seq<int>)
    requires 0 <= i < |s| && 0 <= j < |s|
    ensures |r| == |s|
  {
    s[i := s[j]][j := s[i]]
  }

  lemma SwapPermutes(s: seq<int>, i: int, j: int)
    requires 0 <= i < |s| && 0 <= j < |s|
    ensures multiset(Swap(s, i, j)) == multiset(s)
  {
    var t := s[i := s[j]];
    assert multiset(t) == multiset(s) - multiset{s[i]} + multiset{s[j]};
    assert multiset(t[j := s[i]]) == multiset(t) - multiset{t[j]} + multiset{s[i]};
  }

  /** The draws are `Math.random()` in [0, 1); random(iteration, i) is the one for position i. */
  ghost predicate Draws(random: (nat, nat) -> real)
  {
    forall iteration: nat, i: nat :: 0.0 <= random(iteration, i) < 1.0
  }

  /** The shuffle from position i down to 1 of one iteration's index array. */
  function ShuffleDown(s: seq<int>, random: (nat, nat) -> real, iteration: nat, i: int): (r: seq<int>)
    requires Draws(random) && i < |s|
    ensures |r| == |s|
    decreases i
  {
    if i <= 0 then s
    else
      var j := SwapPartner(random(iteration, i), i);
      SwapPartnerInRange(random(iteration, i), i);
      ShuffleDown(Swap(s, i, j), random, iteration, i - 1)
  }

  lemma {:induction false} ShuffleDownPermutes(s: seq<int>, random: (nat, nat) -> real, iteration: nat, i: int)
    requires Draws(random) && i < |s|
    ensures multiset(ShuffleDown(s, random, iteration, i)) == multiset(s)
    decreases i
  {
    if i > 0 {
      var j := SwapPartner(random(iteration, i), i);
      SwapPartnerInRange(random(iteration, i), i);
      SwapPermutes(s, i, j);
      ShuffleDownPermutes(Swap(s, i, j), random, iteration, i - 1);
    }
  }

  /** The visiting order of one iteration. */
  function Order(n: nat, random: (nat, nat) -> real, iteration: nat): (r: seq<int>)
    requires Draws(random)
    ensures |r| == n
  {
    ShuffleDown(Range(n), random, iteration, n - 1)
  }

  /** Whatever the draws, the order visits every point exactly once. */
  lemma OrderIsPermutation(n: nat, random: (nat, nat) -> real, iteration: nat)
    requires Draws(random)
    ensures forall k :: multiset(Order(n, random, iteration))[k] == (if 0 <= k < n then 1 else 0)
    ensures ValidOrder(Order(n, random, iteration), n)
  {
    var r := Order(n, random, iteration);
    ShuffleDownPermutes(Range(n), random, iteration, n - 1);
    RangeCounts(n);
    forall t | 0 <= t < n
      ensures 0 <= r[t] < n
    {
      assert r[t] in multiset(r);
    }
  }

  /**
   * The in-place shuffle of svm.js:46-49: the array ends as ShuffleDown of
   * its old contents, a permutation of them.
   */
  method Shuffle(indices: array<int>, random: (nat, nat) -> real, iteration: nat)
    requires Draws(random)
    modifies indices
    ensures indices[..] == ShuffleDown(old(indices[..]), random, iteration, indices.Length - 1)
    ensures multiset(indices[..]) == multiset(old(indices[..]))
  {
    ShuffleDownPermutes(indices[..], random, iteration, indices.Length - 1);
    var i := indices.Length - 1;
    while i > 0
      invariant i < indices.Length
      invariant ShuffleDown(indices[..], random, iteration, i) == ShuffleDown(old(indices[..]), random, iteration, indices.Length - 1)
      decreases i
    {
      var j := SwapPartner(random(iteration, i), i);
      SwapPartnerInRange(random(iteration, i), i);
      assert Swap(indices[..], i, j) == indices[..][i := indices[j]][j := indices[i]];
      indices[i], indices[j] := indices[j], indices[i];
      i := i - 1;
    }
  }

  // ---------------------------------------------------------------------
  // One visit and one sweep (svm.js:51-67)

  /** The trainer's running values: weights, bias, lambdas and the sweep's total hinge error. */
  datatype Sgd = Sgd(w: Vec2, b: real, lambdas: seq<real>, totalError: real)

  /** `class * (w . p + b)` with the weights current at the visit. */
  function PointMargin(w: Vec2, b: real, p: LabeledPoint): real
  {
    p.cls as real * (w.x * p.x + w.y * p.y + b)
  }

  /** The visit of point i: the hinge update when its margin is below 1, nothing otherwise. */
  function Visit(st: Sgd, ps: seq<LabeledPoint>, i: int, learningRate: real, regularization: real): (r: Sgd)
    requires 0 <= i < |ps| && |st.lambdas| == |ps|
    ensures |r.lambdas| == |ps|
  {
    var p := ps[i];
    var margin := PointMargin(st.w, st.b, p);
    if margin < 1.0 then
      Sgd(Vec2(st.w.x + learningRate * (p.cls as real * p.x - regularization * st.w.x),
               st.w.y + learningRate * (p.cls as real * p.y - regularization * st.w.y)),
          st.b + learningRate * p.cls as real,
          st.lambdas[i := st.lambdas[i] + learningRate],
          st.totalError + (1.0 - margin))
    else st
  }

  /** All indices of an order are indices of the points. */
  predicate ValidOrder(order: seq<int>, n: nat)
  {
    forall t :: 0 <= t < |order| ==> 0 <= order[t] < n
  }

  /** The first k visits of a sweep in the given order. */
  function SweepPrefix(st: Sgd, ps: seq<LabeledPoint>, order: seq<int>, learningRate: real, regularization: real, k: nat): (r: Sgd)
    requires |st.lambdas| == |ps| && ValidOrder(order, |ps|) && k <= |order|
    ensures |r.lambdas| == |ps|
  {
    if k == 0 then st
    else Visit(SweepPrefix(st, ps, order, learningRate, regularization, k - 1), ps, order[k - 1], learningRate, regularization)
  }

  /**
   * A point whose margin is at least 1 changes nothing. A point whose margin
   * is below 1 adds exactly the learning rate to its own lambda, leaves the
   * other lambdas alone, moves the bias by `learningRate * class` and adds
   * the positive `1 - margin` to the total error.
   */
  lemma VisitEffect(st: Sgd, ps: seq<LabeledPoint>, i: int, learningRate: real, regularization: real)
    requires 0 <= i < |ps| && |st.lambdas| == |ps|
    ensures PointMargin(st.w, st.b, ps[i]) >= 1.0 ==> Visit(st, ps, i, learningRate, regularization) == st
    ensures PointMargin(st.w, st.b, ps[i]) < 1.0 ==>
      var r := Visit(st, ps, i, learningRate, regularization);
      && r.lambdas[i] == st.lambdas[i] + learningRate
      && (forall j :: 0 <= j < |ps| && j != i ==> r.lambdas[j] == st.lambdas[j])
      && r.b == st.b + learningRate * ps[i].cls as real
      && r.totalError > st.totalError
  {
  }

  /** With a non-negative learning rate no lambda ever decreases over a sweep. */
  lemma {:induction false} SweepLambdasGrow(st: Sgd, ps: seq<LabeledPoint>, order: seq<int>, learningRate: real, regularization: real, k: nat)
    requires |st.lambdas| == |ps| && ValidOrder(order, |ps|) && k <= |order|
    requires 0.0 <= learningRate
    ensures forall j :: 0 <= j < |ps| ==> st.lambdas[j] <= SweepPrefix(st, ps, order, learningRate, regularization, k).lambdas[j]
  {
    if k > 0 {
      SweepLambdasGrow(st, ps, order, learningRate, regularization, k - 1);
      VisitEffect(SweepPrefix(st, ps, order, learningRate, regularization, k - 1), ps, order[k - 1], learningRate, regularization);
    }
  }

  /** The total error only grows over a sweep, so starting from 0 it is never negative. */
  lemma {:induction false} SweepErrorGrows(st: Sgd, ps: seq<LabeledPoint>, order: seq<int>, learningRate: real, regularization: real, k: nat)
    requires |st.lambdas| == |ps| && ValidOrder(order, |ps|) && k <= |order|
    ensures st.totalError <= SweepPrefix(st, ps, order, learningRate, regularization, k).totalError
  {
    if k > 0 {
      SweepErrorGrows(st, ps, order, learningRate, regularization, k - 1);
      VisitEffect(SweepPrefix(st, ps, order, learningRate, regularization, k - 1), ps, order[k - 1], learningRate, regularization);
    }
  }

  /** A sweep with total error 0 made no update at all. */
  lemma {:induction false} QuietSweep(st: Sgd, ps: seq<LabeledPoint>, order: seq<int>, learningRate: real, regularization: real, k: nat)
    requires |st.lambdas| == |ps| && ValidOrder(order, |ps|) && k <= |order|
    requires SweepPrefix(st, ps, order, learningRate, regularization, k).totalError == st.totalError
    ensures SweepPrefix(st, ps, order, learningRate, regularization, k) == st
  {
    if k > 0 {
      var prev := SweepPrefix(st, ps, order, learningRate, regularization, k - 1);
      SweepErrorGrows(st, ps, order, learningRate, regularization, k - 1);
      VisitEffect(prev, ps, order[k - 1], learningRate, regularization);
      QuietSweep(st, ps, order, learningRate, regularization, k - 1);
    }
  }

  // ---------------------------------------------------------------------
  // The iterations and the best sweep (svm.js:38-78)

  /** `smallestError`, which starts at Infinity. */
  datatype Extended = Infinite | Finite(value: real)

  predicate Below(x: real, e: Extended)
  {
    e.Infinite? || x < e.value
  }

  /** `a <= b` on the extended reals. */
  predicate AtMost(a: Extended, b: Extended)
  {
    b.Infinite? || (a.Finite? && a.value <= b.value)
  }

  /** What one iteration ended with: its total error and the weights and bias after it. */
  datatype Record = Record(totalError: real, w: Vec2, b: real)

  /** The loop's values; `history` records every iteration so far (it is not in the source). */
  datatype Progress = Progress(cur: Sgd, bestW: Vec2, bestB: real, smallest: Extended, history: seq<Record>)

  function Start(n: nat): Progress
  {
    Progress(Sgd(Vec2(0.0, 0.0), 0.0, seq(n, _ => 0.0), 0.0), Vec2(0.0, 0.0), 0.0, Infinite, [])
  }

  /** One iteration: reset the error, sweep in the shuffled order, keep the weights if the error is the smallest yet. */
  function Iteration(pr: Progress, ps: seq<LabeledPoint>, s: Settings, random: (nat, nat) -> real, iteration: nat): (r: Progress)
    requires Draws(random) && |pr.cur.lambdas| == |ps|
    ensures |r.cur.lambdas| == |ps| && r.history == pr.history + [Record(r.cur.totalError, r.cur.w, r.cur.b)]
  {
    var order := Order(|ps|, random, iteration);
    OrderIsPermutation(|ps|, random, iteration);
    var e := SweepPrefix(Sgd(pr.cur.w, pr.cur.b, pr.cur.lambdas, 0.0), ps, order, s.learningRate, s.regularization, |ps|);
    var h := pr.history + [Record(e.totalError, e.w, e.b)];
    if Below(e.totalError, pr.smallest) then Progress(e, e.w, e.b, Finite(e.totalError), h)
    else Progress(e, pr.bestW, pr.bestB, pr.smallest, h)
  }

  /** The `for` loop from the given iteration on, leaving after a sweep with error below 0.001. */
  function Loop(pr: Progress, ps: seq<LabeledPoint>, s: Settings, random: (nat, nat) -> real, iteration: nat): (r: Progress)
    requires Draws(random) && |pr.cur.lambdas| == |ps|
    ensures |r.cur.lambdas| == |ps|
    decreases s.maxIterations - iteration
  {
    if iteration < s.maxIterations then
      var next := Iteration(pr, ps, s, random, iteration);
      if next.cur.totalError < StopError then next else Loop(next, ps, s, random, iteration + 1)
    else pr
  }

  /**
   * The loop runs at most maxIterations - iteration more sweeps; every sweep
   * but the last had error at least 0.001, and it ends before maxIterations
   * only right after a sweep with error below 0.001.
   */
  lemma {:induction false} LoopStops(pr: Progress, ps: seq<LabeledPoint>, s: Settings, random: (nat, nat) -> real, iteration: nat)
    requires Draws(random) && |pr.cur.lambdas| == |ps|
    ensures var h := Loop(pr, ps, s, random, iteration).history;
      && |pr.history| <= |h|
      && h[..|pr.history|] == pr.history
      && |h| - |pr.history| <= (if iteration < s.maxIterations then s.maxIterations - iteration else 0)
      && (forall k :: |pr.history| <= k < |h| - 1 ==> h[k].totalError >= StopError)
      && (|h| - |pr.history| < s.maxIterations - iteration ==> |h| > |pr.history| && h[|h| - 1].totalError < StopError)
    decreases s.maxIterations - iteration
  {
    if iteration < s.maxIterations {
      var next := Iteration(pr, ps, s, random, iteration);
      if next.cur.totalError >= StopError {
        LoopStops(next, ps, s, random, iteration + 1);
        var h := Loop(next, ps, s, random, iteration + 1).history;
        assert h[..|next.history|] == next.history;
        assert h[|pr.history|] == next.history[|pr.history|];
        assert h[..|pr.history|] == next.history[..|pr.history|];
      }
    }
  }

  /** The index of the first sweep with the smallest total error. */
  function FirstMinimum(h: seq<Record>): (k: nat)
    requires |h| > 0
    ensures k < |h|
  {
    if |h| == 1 then 0
    else
      var k := FirstMinimum(h[..|h| - 1]);
      if h[|h| - 1].totalError < h[k].totalError then |h| - 1 else k
  }

  lemma {:induction false} FirstMinimumIsFirst(h: seq<Record>)
    requires |h| > 0
    ensures forall j :: 0 <= j < |h| ==> h[FirstMinimum(h)].totalError <= h[j].totalError
    ensures forall j :: 0 <= j < FirstMinimum(h) ==> h[FirstMinimum(h)].totalError < h[j].totalError
  {
    if |h| > 1 {
      var init := h[..|h| - 1];
      FirstMinimumIsFirst(init);
      assert forall j :: 0 <= j < |init| ==> h[j] == init[j];
    }
  }

  /** The best weights are those of the first sweep of smallest error, and `smallestError` is that error. */
  ghost predicate TracksBest(pr: Progress)
  {
    if pr.history == [] then pr.smallest.Infinite? && pr.bestW == Vec2(0.0, 0.0) && pr.bestB == 0.0
    else
      var m := pr.history[FirstMinimum(pr.history)];
      pr.smallest == Finite(m.totalError) && pr.bestW == m.w && pr.bestB == m.b
  }

  /** An iteration keeps TracksBest, and smallestError never increases. */
  lemma IterationTracksBest(pr: Progress, ps: seq<LabeledPoint>, s: Settings, random: (nat, nat) -> real, iteration: nat)
    requires Draws(random) && |pr.cur.lambdas| == |ps| && TracksBest(pr)
    ensures TracksBest(Iteration(pr, ps, s, random, iteration))
    ensures AtMost(Iteration(pr, ps, s, random, iteration).smallest, pr.smallest)
  {
    var r := Iteration(pr, ps, s, random, iteration);
    var h := r.history;
    if pr.history != [] {
      assert h[..|h| - 1] == pr.history;
    }
  }

  lemma {:induction false} LoopTracksBest(pr: Progress, ps: seq<LabeledPoint>, s: Settings, random: (nat, nat) -> real, iteration: nat)
    requires Draws(random) && |pr.cur.lambdas| == |ps| && TracksBest(pr)
    ensures TracksBest(Loop(pr, ps, s, random, iteration))
    ensures AtMost(Loop(pr, ps, s, random, iteration).smallest, pr.smallest)
    decreases s.maxIterations - iteration
  {
    if iteration < s.maxIterations {
      var next := Iteration(pr, ps, s, random, iteration);
      IterationTracksBest(pr, ps, s, random, iteration);
      if next.cur.totalError >= StopError {
        LoopTracksBest(next, ps, s, random, iteration + 1);
      }
    }
  }

  // ---------------------------------------------------------------------
  // trainSVM as a function (svm.js:1-91)

  /** `{w, b, lambdas}` */
  datatype SvmResult = SvmResult(w: Vec2, b: real, lambdas: seq<real>)

  /** The square roots of svm.js:25-26; a zero one (all points on one line) is not guarded there. */
  predicate Spread(points: seq<LabeledPoint>, sqrt: real -> real)
    requires |points| > 0
  {
    sqrt(VarianceX(points)) != 0.0 && sqrt(VarianceY(points)) != 0.0
  }

  /**
   * The roots svm.js divides by are never negative (the variances are not),
   * so the points are spread exactly when both deviations are positive.
   */
  lemma SpreadPositive(points: seq<LabeledPoint>, sqrt: real -> real)
    requires |points| > 0 && IsSqrt(sqrt)
    ensures Spread(points, sqrt) <==> 0.0 < sqrt(VarianceX(points)) && 0.0 < sqrt(VarianceY(points))
  {
    VarianceNonNegative(points);
  }

  function Normalized(points: seq<LabeledPoint>, sqrt: real -> real): seq<LabeledPoint>
    requires |points| > 0 && Spread(points, sqrt)
  {
    Standardize(points, MeanX(points), MeanY(points), sqrt(VarianceX(points)), sqrt(VarianceY(points)))
  }

  /** The state the iterations end in, from all-zero weights, bias and lambdas. */
  function Training(points: seq<LabeledPoint>, options: Options, random: (nat, nat) -> real, sqrt: real -> real): (r: Progress)
    requires |points| > 0 && Spread(points, sqrt) && Draws(random)
    ensures |r.cur.lambdas| == |points|
  {
    Loop(Start(|points|), Normalized(points, sqrt), SettingsOf(options), random, 0)
  }

  /** The result: the best sweep's line mapped back to the caller's coordinates, and the final lambdas. */
  function Train(points: seq<LabeledPoint>, options: Options, random: (nat, nat) -> real, sqrt: real -> real): (r: SvmResult)
    requires |points| > 0 && Spread(points, sqrt) && Draws(random)
    ensures |r.lambdas| == |points|
  {
    var fin := Training(points, options, random, sqrt);
    var line := Denormalize(fin.bestW, fin.bestB, MeanX(points), MeanY(points), sqrt(VarianceX(points)), sqrt(VarianceY(points)));
    SvmResult(line.w, line.b, fin.cur.lambdas)
  }

  /**
   * The returned line is the best sweep's line read in the caller's
   * coordinates: at every point it gives what the best weights and bias
   * give at the normalised point (svm.js:80-84).
   */
  lemma TrainAgrees(points: seq<LabeledPoint>, options: Options, random: (nat, nat) -> real, sqrt: real -> real, p: Vec2)
    requires |points| > 0 && Spread(points, sqrt) && Draws(random)
    ensures var fin := Training(points, options, random, sqrt);
      var mx, my, sx, sy := MeanX(points), MeanY(points), sqrt(VarianceX(points)), sqrt(VarianceY(points));
      LineValue(Line(Train(points, options, random, sqrt).w, Train(points, options, random, sqrt).b), p)
        == Dot(fin.bestW, Vec2((p.x - mx) / sx, (p.y - my) / sy)) + fin.bestB
  {
    var fin := Training(points, options, random, sqrt);
    DenormalizeAgrees(fin.bestW, fin.bestB, MeanX(points), MeanY(points), sqrt(VarianceX(points)), sqrt(VarianceY(points)), p);
  }

  /**
   * The iterations: at most maxIterations sweeps, every sweep but the last
   * with error at least 0.001, and fewer sweeps only when the last one fell
   * below 0.001. The kept weights and bias are those of the first sweep of
   * smallest error, and that error is `smallestError`.
   */
  lemma TrainingSweeps(points: seq<LabeledPoint>, options: Options, random: (nat, nat) -> real, sqrt: real -> real)
    requires |points| > 0 && Spread(points, sqrt) && Draws(random)
    ensures var fin := Training(points, options, random, sqrt);
      var h, max := fin.history, SettingsOf(options).maxIterations;
      && |h| <= (if 0 < max then max else 0)
      && (forall k :: 0 <= k < |h| - 1 ==> h[k].totalError >= StopError)
      && (|h| < max ==> |h| > 0 && h[|h| - 1].totalError < StopError)
      && TracksBest(fin)
  {
    var ns, s := Normalized(points, sqrt), SettingsOf(options);
    LoopStops(Start(|points|), ns, s, random, 0);
    LoopTracksBest(Start(|points|), ns, s, random, 0);
  }

  /** With a non-negative learning rate every returned lambda is non-negative. */
  lemma TrainLambdasNonNegative(points: seq<LabeledPoint>, options: Options, random: (nat, nat) -> real, sqrt: real -> real)
    requires |points| > 0 && Spread(points, sqrt) && Draws(random)
    requires 0.0 <= SettingsOf(options).learningRate
    ensures forall i :: 0 <= i < |points| ==> 0.0 <= Train(points, options, random, sqrt).lambdas[i]
  {
    LoopLambdasGrow(Start(|points|), Normalized(points, sqrt), SettingsOf(options), random, 0);
  }

  lemma {:induction false} LoopLambdasGrow(pr: Progress, ps: seq<LabeledPoint>, s: Settings, random: (nat, nat) -> real, iteration: nat)
    requires Draws(random) && |pr.cur.lambdas| == |ps| && 0.0 <= s.learningRate
    ensures forall j :: 0 <= j < |ps| ==> pr.cur.lambdas[j] <= Loop(pr, ps, s, random, iteration).cur.lambdas[j]
    decreases s.maxIterations - iteration
  {
    if iteration < s.maxIterations {
      var next := Iteration(pr, ps, s, random, iteration);
      var order := Order(|ps|, random, iteration);
      OrderIsPermutation(|ps|, random, iteration);
      SweepLambdasGrow(Sgd(pr.cur.w, pr.cur.b, pr.cur.lambdas, 0.0), ps, order, s.learningRate, s.regularization, |ps|);
      if next.cur.totalError >= StopError {
        LoopLambdasGrow(next, ps, s, random, iteration + 1);
      }
    }
  }

  // ---------------------------------------------------------------------
  // trainSVM as the source runs it

  /**
   * trainSVM (svm.js:1-91). `Math.random` and `Math.sqrt` are parameters;
   * canvasWidth and canvasHeight are unused, as in the source.
   */
  method TrainSvm(points: seq<LabeledPoint>, canvasWidth: real, canvasHeight: real, options: Options,
                  random: (nat, nat) -> real, sqrt: real -> real) returns (result: SvmResult)
    requires |points| > 0 && Spread(points, sqrt) && Draws(random)
    ensures result == Train(points, options, random, sqrt)
  {
    var settings := SettingsOf(options);
    var n := |points|;
    var meanX, meanY := Means(points);
    var sumX, sumY := SquaredDeviations(points, meanX, meanY);
    var stdX, stdY := sqrt(sumX / n as real), sqrt(sumY / n as real);
    assert stdX == sqrt(VarianceX(points)) && stdY == sqrt(VarianceY(points));
    var normalizedPoints := Standardize(points, meanX, meanY, stdX, stdY);
    assert normalizedPoints == Normalized(points, sqrt);

    var weights, bias := Vec2(0.0, 0.0), 0.0;
    var lambdas := new real[n](_ => 0.0);
    var bestWeights, bestBias, smallestError := weights, bias, Infinite;
    ghost var pr := Start(n);
    assert lambdas[..] == pr.cur.lambdas;

    var iteration := 0;
    while iteration < settings.maxIterations
      invariant 0 <= iteration && lambdas.Length == n
      invariant pr == Progress(Sgd(weights, bias, lambdas[..], pr.cur.totalError), bestWeights, bestBias, smallestError, pr.history)
      invariant Loop(pr, normalizedPoints, settings, random, iteration) == Training(points, options, random, sqrt)
      decreases settings.maxIterations - iteration
    {
      ghost var next := Iteration(pr, normalizedPoints, settings, random, iteration);
      var totalError;
      weights, bias, totalError := Epoch(normalizedPoints, lambdas, weights, bias, settings, random, iteration);
      assert Sgd(weights, bias, lambdas[..], totalError) == next.cur;

      if Below(totalError, smallestError) {
        smallestError := Finite(totalError);
        bestWeights := weights;
        bestBias := bias;
      }
      assert next.smallest == smallestError && next.bestW == bestWeights && next.bestB == bestBias;

      if totalError < StopError {
        assert Loop(pr, normalizedPoints, settings, random, iteration) == next;
        pr := next;
        break;
      }
      assert Loop(pr, normalizedPoints, settings, random, iteration) == Loop(next, normalizedPoints, settings, random, iteration + 1);
      pr := next;
      iteration := iteration + 1;
    }

    assert pr == Training(points, options, random, sqrt);
    var line := Denormalize(bestWeights, bestBias, meanX, meanY, stdX, stdY);
    result := SvmResult(line.w, line.b, lambdas[..]);
  }

  /**
   * The body of the iteration loop up to the error bookkeeping (svm.js:43-67):
   * a fresh index array, shuffled, then one sweep in that order.
   */
  method Epoch(ps: seq<LabeledPoint>, lambdas: array<real>, w: Vec2, b: real, settings: Settings,
               random: (nat, nat) -> real, iteration: nat) returns (w': Vec2, b': real, totalError: real)
    requires lambdas.Length == |ps| && Draws(random)
    modifies lambdas
    ensures ValidOrder(Order(|ps|, random, iteration), |ps|)
    ensures Sgd(w', b', lambdas[..], totalError)
         == SweepPrefix(Sgd(w, b, old(lambdas[..]), 0.0), ps, Order(|ps|, random, iteration), settings.learningRate, settings.regularization, |ps|)
  {
    var indices := new int[|ps|](i => i);
    assert indices[..] == Range(|ps|);
    Shuffle(indices, random, iteration);
    assert indices[..] == Order(|ps|, random, iteration);
    OrderIsPermutation(|ps|, random, iteration);
    w', b', totalError := SweepPoints(ps, indices, lambdas, w, b, settings.learningRate, settings.regularization);
  }

  /**
   * The `indices.forEach` sweep of svm.js:51-67 against the running weights
   * and bias, updating the lambdas in place; it returns the new weights, the
   * new bias and the sweep's total error.
   */
  method SweepPoints(ps: seq<LabeledPoint>, indices: array<int>, lambdas: array<real>, w: Vec2, b: real,
               learningRate: real, regularization: real) returns (w': Vec2, b': real, totalError: real)
    requires lambdas.Length == |ps| && ValidOrder(indices[..], |ps|)
    modifies lambdas
    ensures Sgd(w', b', lambdas[..], totalError)
         == SweepPrefix(Sgd(w, b, old(lambdas[..]), 0.0), ps, indices[..], learningRate, regularization, indices.Length)
  {
    w', b', totalError := w, b, 0.0;
    var t := 0;
    while t < indices.Length
      invariant 0 <= t <= indices.Length
      invariant Sgd(w', b', lambdas[..], totalError)
             == SweepPrefix(Sgd(w, b, old(lambdas[..]), 0.0), ps, indices[..], learningRate, regularization, t)
    {
      var i := indices[t];
      assert SweepPrefix(Sgd(w, b, old(lambdas[..]), 0.0), ps, indices[..], learningRate, regularization, t + 1)
          == Visit(Sgd(w', b', lambdas[..], totalError), ps, i, learningRate, regularization);
      w', b', totalError := VisitPoint(ps, i, lambdas, w', b', totalError, learningRate, regularization);
      t := t + 1;
    }
  }

  /** The `forEach` callback of svm.js:52-66 for point i. */
  method VisitPoint(ps: seq<LabeledPoint>, i: int, lambdas: array<real>, w: Vec2, b: real, totalError: real,
                    learningRate: real, regularization: real) returns (w': Vec2, b': real, totalError': real)
    requires 0 <= i < |ps| && lambdas.Length == |ps|
    modifies lambdas
    ensures Sgd(w', b', lambdas[..], totalError') == Visit(Sgd(w, b, old(lambdas[..]), totalError), ps, i, learningRate, regularization)
  {
    w', b', totalError' := w, b, totalError;
    var point := ps[i];
    var prediction := w.x * point.x + w.y * point.y + b;
    var margin := point.cls as real * prediction;
    if margin < 1.0 {
      w' := Vec2(w.x + learningRate * (point.cls as real * point.x - regularization * w.x),
                 w.y + learningRate * (point.cls as real * point.y - regularization * w.y));
      b' := b + learningRate * point.cls as real;
      lambdas[i] := lambdas[i] + learningRate;
      totalError' := totalError + (1.0 - margin);
    }
  }
}
