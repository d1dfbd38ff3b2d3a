# Verified model of a 2-D SVM trainer

This project models the two support vector machine trainers of a small
browser demo for 2-D binary classification, and proves properties of the
model. It is written in Dafny over `real` numbers.

- **`kernels.js`** holds the kernel functions `kernelFunctions.{linear,
  polynomial, rbf}` and class `KernelSVM`. The class is a simplified SMO
  (sequential minimal optimisation) trainer. It normalises the points to
  z-scores with a zero-deviation guard and coerces the class labels to ±1.
  It precomputes a symmetric kernel matrix. It then sweeps the points: for
  each point that violates the KKT conditions it picks the partner with the
  largest `|E1 − E2|` and runs the analytic two-multiplier update (box
  bounds, eta test, clipping, equality constraint, three-way bias choice).
  It stops after 10 consecutive sweeps without change or after
  `maxIterations` sweeps. A support-vector fallback and a final bias
  recomputation follow. The class also has `predict`, the linear weights
  mapped back to the caller's coordinates, and a grid sampler for the
  decision boundary.
- **`svm.js`** holds `trainSVM`, an alternative hinge-loss subgradient
  trainer. It shuffles the points with a Fisher–Yates shuffle, applies a
  margin-gated update, keeps the best iteration, exits early when the error
  is small, and denormalises the result.

Files:

| file | contents |
|---|---|
| `real_math.dfy` | `RealMath` (Abs, Max, Min, Pow, and the facts assumed about Math.exp/Math.sqrt), `JsValues` (undefined and falsy options), `Points` (2-D points) |
| `normalization.dfy` | means, variances and denormalisation, shared by both trainers |
| `kernel_functions.dfy` | the three kernels and how the SVM calls them |
| `smo.dfy` | the SMO optimisation as pure functions over a problem `(points, matrix, C)` and a state `(alphas, bias)` |
| `smo_properties.dfy` | what those functions guarantee: every accept/reject branch, the box `[0, C]`, conservation of `Σ aᵢyᵢ`, the bias rule, stopping, the fallback and the bias update |
| `kernel_svm.dfy` | class `KernelSVM`; its methods mutate the fields and loop the way the source does, and each one is proved to compute the corresponding function of `Smo` |
| `subgradient_trainer.dfy` | `trainSVM`: an imperative method on arrays, proved to equal a functional specification, plus lemmas about that specification |

How the non-algebraic parts of JavaScript are modelled:

- `Math.exp` and `Math.sqrt` are function parameters. The only facts used
  are stated with them (`IsExp`, `IsSqrt`): `exp(0) = 1`, `exp(x) > 0`,
  `exp(x) <= 1` for `x <= 0`, and `sqrt(x) >= 0` for `x >= 0`. The kernel
  lemmas require `IsExp`; `KernelSvm.ParamsPositive` and
  `SubgradientTrainer.SpreadPositive` require `IsSqrt`. Everything else
  holds for any function.
- `Math.random` is an input. The initial multipliers of `train` take a
  sequence of draws in `[0, 1)`. The shuffle in `trainSVM` takes a function
  `random(iteration, i)` with values in `[0, 1)`.
- JavaScript's `x || default` and `if (!x)` become `Maybe` values and
  explicit zero tests.

## Model

| member | source | states |
|---|---|---|
| RealMath.Abs | kernels.js:278 | `Math.abs`: the result is non-negative and equals `x` or `-x` |
| RealMath.Max | kernels.js:263 | `Math.max`: an upper bound of both arguments and equal to one of them |
| RealMath.Min | kernels.js:264 | `Math.min`: a lower bound of both arguments and equal to one of them |
| RealMath.MinInt | kernels.js:199 | `Math.min(3, n)` on integers: a lower bound of both and equal to one of them |
| RealMath.PowOne | kernels.js:15 | `Math.pow(d, 1) == d` |
| RealMath.PowSquare | kernels.js:12 | `Math.pow(d, 2) == d·d` |
| JsValues.OrReal | svm.js:3-4 | `v \|\| fallback`: a defined non-zero value is kept; undefined or 0 gives the fallback |
| JsValues.OrInt | svm.js:2 | the same for integer options such as `maxIterations` and `gridResolution` |
| Normalization.SquaredDevNonNegative | kernels.js:106-112 | every prefix sum of squared deviations is non-negative, in both coordinates |
| Normalization.VarianceNonNegative | svm.js:25-26 | the mean squared deviation passed to `Math.sqrt` is non-negative in both coordinates |
| Normalization.Denormalize | svm.js:80-84 | definition of the line mapped back to caller coordinates; no ensures of its own, its meaning is `DenormalizeAgrees` |
| Normalization.DenormalizeAgrees | svm.js:80-84 | the line `w/std`, `b − (w/std)·mean` gives at every point the value of `w·((p − mean)/std) + b` |
| Normalization.Means | svm.js:6-15 | the accumulating loop returns the arithmetic means of x and y |
| Normalization.SquaredDeviations | svm.js:17-23 | the accumulating loop returns the sums of squared deviations from the given means |
| Kernels.LinearIsDot | kernels.js:2-4 | the linear kernel is exactly the dot product |
| Kernels.LinearKernel | kernels.js:2-4 | definition of the linear kernel; no ensures of its own, see `LinearIsDot` and `Symmetric` |
| Kernels.PolynomialKernel | kernels.js:6-16 | definition of the polynomial kernel; no ensures of its own, see `PolynomialDefaultsToSquare`, `PolynomialDegreeOne` and `PolynomialSymmetric` |
| Kernels.RbfKernel | kernels.js:18-25 | definition of the RBF kernel; no ensures of its own, see `RbfSymmetric`, `RbfOfPointWithItself` and `RbfInUnitInterval` |
| Kernels.Evaluate | kernels.js:151 | the dispatch `kernelFunctions[kernelType](p1, p2, kernelParameters[kernelType])`; no ensures of its own, see `ConfiguredDegreeIsIgnored` and `Symmetric` |
| Kernels.PolynomialDefaultsToSquare | kernels.js:6-13 | without a truthy `.polynomial` field the polynomial kernel is `(dot + 1)²` |
| Kernels.ConfiguredDegreeIsIgnored | kernels.js:151 | on the SVM's call path the kernel receives a bare number, so the polynomial kernel is always `(dot + 1)²`, whatever degree is configured |
| Kernels.PolynomialDegreeOne | kernels.js:15 | an object with degree 1 gives `dot + 1` |
| Kernels.PolynomialSymmetric | kernels.js:6-16 | the polynomial kernel is symmetric in its two points |
| Kernels.RbfSymmetric | kernels.js:18-25 | the RBF kernel is symmetric in its two points |
| Kernels.Symmetric | kernels.js:151 | every kernel, as the SVM calls it, is symmetric |
| Kernels.RbfOfPointWithItself | kernels.js:18-25 | the RBF kernel of a point with itself is 1 |
| Kernels.RbfInUnitInterval | kernels.js:23-24 | with a non-negative gamma (default 1) the RBF kernel lies in `(0, 1]` |
| Smo.ScanPartner | kernels.js:228-241 | the partner scan returns -1 or a valid index other than `i1`, with a non-negative best difference |
| Smo.ViolatesKkt | kernels.js:223-226 | definition of the KKT-violation test; no ensures of its own, see `PointStepShape` |
| Smo.Partner | kernels.js:228-241 | the partner index, -1 when none; no ensures of its own, see `ScanPartnerIsFirstMaximum` |
| Smo.PairUpdate | kernels.js:261-299 | definition of the analytic two-multiplier update; no ensures of its own, see `PairUpdateAccepted` and `PairUpdateRejections` |
| Smo.PairStep | kernels.js:250-300 | optimizeMultiplierPair as a function; no ensures of its own, see `PairStepRejected`, `PairStepConserves`, `PairStepBias` and `PairStepKeepsBox` |
| Smo.Sweep | kernels.js:164-168 | one full sweep; no ensures of its own, see `SweepPrefixKeepsBox`, `SweepPrefixConserves` and `QuietSweepPrefix` |
| Smo.Fallback | kernels.js:186-213 | definition of the support-vector fallback; no ensures of its own, see `FallbackWithSupport`, `FallbackWithoutSupport` and `FallbackKeepsBox` |
| Smo.UpdateBias | kernels.js:310-329 | definition of the final bias recomputation; no ensures of its own, see `UpdateBiasEffect` |
| Smo.Optimize | kernels.js:158-216 | optimizeLagrangeMultipliers as a function; no ensures of its own, see `OptimizeKeepsBox`, `RunCounters` and `RunInvariants` |
| Smo.Clip | kernels.js:276 | clipping to a non-empty `[lo, hi]` lands inside it and leaves values already inside unchanged |
| Smo.ApplyPair | kernels.js:296-297 | applying a pair result changes no multiplier except `i1` and `i2`, and a rejection changes nothing |
| Smo.PointStep | kernels.js:218-248 | `optimizePointMultiplier` returns 0 or 1 and keeps the number of multipliers |
| Smo.SweepPrefix | kernels.js:166-168 | after k points of a sweep, between 0 and k multipliers pairs have changed |
| Smo.Run | kernels.js:163-177 | the outer loop keeps the number of multipliers |
| Smo.SupportIndices | kernels.js:179-184 | the support indices are valid indices |
| Smo.FirstUnchosen | kernels.js:195-197 | the selection step returns an index not yet chosen, or -1 exactly when every index is chosen |
| Smo.Covers | kernels.js:199-203 | a sequence containing every index below n has at least n entries |
| Smo.SmallestMargins | kernels.js:195-203 | the fallback selects exactly t valid indices |
| Smo.SetAll | kernels.js:205-207 | setting the selected multipliers keeps their number |
| SmoProperties.KernelSumUpdate | kernels.js:302-308 | changing one multiplier changes the kernel sum by `(v − aⱼ)·yⱼ·M[i][j]` |
| SmoProperties.LabelledSumUpdate | kernels.js:296-297 | changing one multiplier changes `Σ aⱼyⱼ` by `(v − aⱼ)·yⱼ` |
| SmoProperties.AcceptedBox | kernels.js:261-273 | an accepted update has `0 <= L < H <= C` and `eta < 0` |
| SmoProperties.AcceptedSecond | kernels.js:275-276 | an accepted new `a2` lies in `[L, H]` |
| SmoProperties.AcceptedMoves | kernels.js:278 | an accepted new `a2` moves by at least `1e-6` |
| SmoProperties.AcceptedFirst | kernels.js:280-281 | an accepted new `a1` lies in `[0, C]` |
| SmoProperties.AcceptedFirstFormula | kernels.js:275-280 | an accepted `a2'` is the clipped `a2 − y2(E1 − E2)/eta`, and `a1' = a1 + y1y2(a2 − a2')` |
| SmoProperties.AcceptedBias | kernels.js:283-294 | an accepted bias is `b1` if `0 < a1' < C`, otherwise `b2` if `0 < a2' < C`, otherwise `(b1 + b2)/2` |
| SmoProperties.PairUpdateAccepted | kernels.js:261-299 | all the facts about an accepted pair update together |
| SmoProperties.FirstMultiplierConserves | kernels.js:280 | for labels ±1, `y1·a1' + y2·a2' == y1·a1 + y2·a2` |
| SmoProperties.PairUpdateRejections | kernels.js:270-281 | `L >= H` rejects as EmptyBox; otherwise `eta >= 0` rejects as NonNegativeEta; the step-size and first-multiplier rejections only happen past both tests |
| SmoProperties.PairStepRejected | kernels.js:251 | the pair is rejected as SameIndex exactly when `i1 == i2`, and every rejection leaves multipliers and bias unchanged |
| SmoProperties.PairConserves | kernels.js:296-297 | writing two multipliers that keep `y1a1 + y2a2` keeps `Σ aⱼyⱼ` over all points |
| SmoProperties.ScalarConservation | kernels.js:280 | the scalar identity behind the equality constraint |
| SmoProperties.PairStepConserves | kernels.js:250-300 | `optimizeMultiplierPair` keeps `Σ aⱼyⱼ`, whether it accepts or rejects |
| SmoProperties.ErrorAfterPair | kernels.js:283-286 | how the error at any point changes when two multipliers and the bias change |
| SmoProperties.ErrorAtFirstAfterPair | kernels.js:283-284 | after the pair update, the error at `i1` is `b − b1` |
| SmoProperties.ErrorAtSecondAfterPair | kernels.js:285-286 | after the pair update, the error at `i2` is `b − b2` |
| SmoProperties.ExactError | kernels.js:283-286 | the algebra that links the new errors to `b1` and `b2` |
| SmoProperties.PairStepBias | kernels.js:288-294 | the chosen bias makes the error 0 at a free `i1`; otherwise 0 at a free `i2`; otherwise the two errors sum to 0 |
| SmoProperties.ScanPartnerIsFirstMaximum | kernels.js:231-241 | the scan returns the first index (not `i1`) with the largest `\|E1 − Eⱼ\|`, and -1 exactly when every difference is 0 |
| SmoProperties.PointStepShape | kernels.js:223-247 | it returns 0 and changes nothing when the KKT test passes or no partner is found; it returns 1 exactly when it violates KKT, has a partner ≠ `i1` and the pair is accepted, and then the new state is that pair's update |
| SmoProperties.PairStepKeepsBox | kernels.js:261-281 | when multipliers start in `[0, C]`, they stay there after a pair step |
| SmoProperties.PointStepKeepsBox | kernels.js:218-248 | a point step keeps every multiplier in `[0, C]` |
| SmoProperties.PointStepConserves | kernels.js:243-245 | for labels ±1, a point step keeps `Σ aⱼyⱼ` |
| SmoProperties.SweepPrefixKeepsBox | kernels.js:166-168 | a sweep keeps every multiplier in `[0, C]` |
| SmoProperties.SweepPrefixConserves | kernels.js:166-168 | a sweep keeps `Σ aⱼyⱼ` |
| SmoProperties.QuietSweepPrefix | kernels.js:172-173 | a sweep that changed nothing left the state as it was |
| SmoProperties.RunInvariants | kernels.js:163-177 | the whole loop keeps the box constraint and, for ±1 labels, `Σ aⱼyⱼ` |
| SmoProperties.RunCounters | kernels.js:163-177 | the loop runs at most `maxIterations` sweeps and stops only with 10 quiet passes or the budget spent; with no sweep it returns its input |
| SmoProperties.RunFromFixedPoint | kernels.js:172-176 | once a sweep changes nothing, the loop counts quiet passes until there are 10 or the budget is spent |
| SmoProperties.SupportIndicesMembers | kernels.js:179-184 | the support indices are exactly the `j` with `\|aⱼ\| > 1e-6`, in increasing order |
| SmoProperties.NoSupportIndices | kernels.js:186 | with every `\|aⱼ\| <= 1e-6` there are no support vectors |
| SmoProperties.FirstUnchosenLeast | kernels.js:195-197 | the next selected index has the smallest margin among the remaining ones, with ties broken by index |
| SmoProperties.SmallestMarginsOrder | kernels.js:195-203 | the selected indices are distinct, in non-decreasing margin order (ties by index), and none of them has a larger margin than an unselected index |
| SmoProperties.SetAllAt | kernels.js:205-207 | after setting, a selected index has value `v` and all others are unchanged |
| SmoProperties.FallbackWithSupport | kernels.js:186 | with some `\|aᵢ\| > 1e-6` the fallback changes nothing, and the support is exactly those indices |
| SmoProperties.FallbackSelects | kernels.js:186-213 | with no support index, the fallback sets the selected indices to `C/2` and returns them as the support |
| SmoProperties.FallbackWithoutSupport | kernels.js:186-213 | with no support index, exactly `min(3, n)` smallest-margin indices get `C/2`, and the other multipliers and the bias are unchanged |
| SmoProperties.FallbackKeepsBox | kernels.js:205-207 | with `C >= 0` the fallback keeps every multiplier in `[0, C]` and returns valid indices |
| SmoProperties.FreeErrorSumIs | kernels.js:314-323 | the sum of the errors over the free indices is `count·b − freeTermSum` |
| SmoProperties.UpdateBiasEffect | kernels.js:310-329 | updateBias keeps the multipliers; it keeps the bias when none is free; otherwise `bias·count == freeTermSum`, so the errors at the free points sum to 0 |
| SmoProperties.OptimizeKeepsBox | kernels.js:158-216 | when multipliers start in `[0, C]` with `C >= 0`, optimizeLagrangeMultipliers ends with them in `[0, C]` and valid support indices |
| KernelSvm.NonZeroOrOne | kernels.js:114-115 | `x \|\| 1`: the result is never 0 and equals any non-zero input |
| KernelSvm.ParamsUsable | kernels.js:102-116 | the stored deviations are never 0, and both are 1 for a single point |
| KernelSvm.ParamsPositive | kernels.js:114-115 | with a square root that is non-negative on non-negative inputs, both stored deviations are positive |
| KernelSvm.ParamsOf | kernels.js:90-121 | the means and deviations normalizeData stores; no ensures of its own, see `ParamsUsable` and `ParamsPositive` |
| KernelSvm.NormalizeAll | kernels.js:123-135 | the normalised points; no ensures of its own, see `NormalizedClasses` and `NormalizeRoundTrip` |
| KernelSvm.NormalizedClasses | kernels.js:123-133 | the normalised points keep length and order, and each class becomes 1 unless it is exactly -1 |
| KernelSvm.NormalizeRoundTrip | kernels.js:118-133 | with the stored parameters, `nx·stdX + meanX == x` and `ny·stdY + meanY == y` hold for every point |
| KernelSvm.PointRoundTrip | kernels.js:129-130 | the same round trip for one point |
| KernelSvm.Unscale | kernels.js:129 | `(x − mean)/std·std + mean == x` for non-zero std |
| KernelSvm.LinearDecisionSum | kernels.js:58-66 | for the linear kernel, predict's kernel sum equals `w·q`, with `w` summed over the same `\|aᵢ\| > 1e-6` |
| KernelSvm.DotStep | kernels.js:63-64 | adding `c·p` to `w` adds `c·(p·q)` to `w·q` |
| KernelSvm.Deviations | kernels.js:105-116 | it returns `sqrt(Σ(x − mean)²/n) \|\| 1` for more than one point, and 1 otherwise |
| KernelSvm.NormalizePoints | kernels.js:123-135 | the push loop returns exactly the normalised points |
| KernelSvm.ComputeLinearWeights | kernels.js:59-66 | the loop returns `Σ aᵢyᵢpᵢ` over `\|aᵢ\| > 1e-6` |
| KernelSvm.DecisionSumStep | kernels.js:339-343 | one step of predict's sum adds `aᵢyᵢK(q, pᵢ)` exactly when `\|aᵢ\| > 1e-6` |
| KernelSvm.DecisionValue | kernels.js:337-344 | predict's loop returns the kernel sum over the multipliers above `1e-6` |
| KernelSvm.InitialInBox | kernels.js:49-51 | draws in `[0, 1)` give initial multipliers in `[0, 0.1)`, inside the box for `C >= 0.1` |
| KernelSvm.TrainedInBox | kernels.js:44-56 | with such draws and `C >= 0.1`, training ends with every multiplier in `[0, C]` |
| KernelSvm.LinearModelAgreesWithPredict | kernels.js:58-76 | the denormalised linear `w, b` gives at every point predict's value there |
| KernelSvm.NextCoordinate | kernels.js:355 | `x += step` moves from the a-th grid coordinate to the next |
| KernelSvm.StepInside | kernels.js:355-356 | the a-th coordinate is non-negative, and is below the extent exactly when `a < resolution` |
| KernelSvm.KernelSVM.constructor | kernels.js:29-42 | stores the options, with no multipliers, bias 0, no support or normalised points and unset parameters |
| KernelSvm.KernelSVM.NormalizeData | kernels.js:90-136 | stores the means and deviations of the data, which are non-zero, and returns the normalised points |
| KernelSvm.KernelSVM.ComputeKernelMatrix | kernels.js:138-156 | an n×n matrix with `M[i][j] == K(pᵢ, pⱼ)` and `M[i][j] == M[j][i]`, filled from the upper triangle |
| KernelSvm.KernelSVM.ComputeObjectiveValue | kernels.js:302-308 | returns `Σ aⱼyⱼM[i][j] + bias` |
| KernelSvm.KernelSVM.OptimizeMultiplierPair | kernels.js:250-300 | returns 1 exactly when the pair update is accepted, and the new multipliers and bias are that update (unchanged on rejection) |
| KernelSvm.KernelSVM.OptimizePointMultiplier | kernels.js:218-248 | returns and applies exactly the point step |
| KernelSvm.KernelSVM.UpdateBias | kernels.js:310-329 | the new state is the updateBias function of the old one |
| KernelSvm.KernelSVM.OptimizeLagrangeMultipliers | kernels.js:158-216 | the new multipliers, bias and support vectors are those of the optimisation function |
| KernelSvm.KernelSVM.SweepPoints | kernels.js:164-168 | one sweep: the count of changed pairs and the new state are those of the sweep function |
| KernelSvm.KernelSVM.CollectSupportVectors | kernels.js:179-184 | collects the points whose `\|aᵢ\| > 1e-6`, in order |
| KernelSvm.KernelSVM.FindPartner | kernels.js:228-241 | the scan returns the first index with the largest `\|E1 − Eⱼ\|`, or -1 |
| KernelSvm.KernelSVM.SupportVectorFallback | kernels.js:186-213 | the new multipliers and support vectors are those of the fallback function |
| KernelSvm.KernelSVM.ComputeMargins | kernels.js:187-193 | returns `\|1 − yᵢ·f(i)\|` for every point |
| KernelSvm.KernelSVM.SetMultipliers | kernels.js:205-207 | sets the selected multipliers to the value and changes nothing else |
| KernelSvm.KernelSVM.PointsAtLoop | kernels.js:209-212 | collects the points at the selected indices, in order |
| KernelSvm.KernelSVM.Train | kernels.js:44-88 | stores the normalisation of the data and the optimiser's final multipliers, bias and support vectors from the initial draws; returns `{w, b, lambdas}` for the linear kernel and `{lambdas}` otherwise |
| KernelSvm.KernelSVM.TrainOutput | kernels.js:58-87 | what train returns; no ensures of its own, see `LinearOutputMatchesPredict` |
| KernelSvm.KernelSVM.InitializeMultipliers | kernels.js:47-51 | every multiplier is `0.1` times its draw |
| KernelSvm.KernelSVM.Predict | kernels.js:331-346 | returns the kernel sum over the multipliers above `1e-6` at the normalised point, plus the bias; before training that is the bias |
| KernelSvm.KernelSVM.Decision | kernels.js:331-346 | the value predict returns; no ensures of its own, see `LinearOutputMatchesPredict` and `BoundaryShape` |
| KernelSvm.KernelSVM.LinearOutputMatchesPredict | kernels.js:58-83 | after linear training the returned `w, b` gives at every point exactly predict's value there |
| KernelSvm.KernelSVM.ColumnShape | kernels.js:356-359 | a column has one sample per row, each inside `[0, width) × [0, height)` and carrying predict's value |
| KernelSvm.KernelSVM.BoundaryShape | kernels.js:348-363 | the grid has `columns × rows` samples (so `res²` for positive width and height), all inside `[0, width) × [0, height)` and carrying predict's value |
| KernelSvm.KernelSVM.BoundaryLength | kernels.js:355-360 | the grid has `columns × rows` samples |
| KernelSvm.KernelSVM.GenerateDecisionBoundary | kernels.js:348-363 | returns the grid, with a missing or zero resolution meaning 50, sampled column by column |
| KernelSvm.KernelSVM.GenerateColumn | kernels.js:356-359 | the inner loop returns one column of the grid |
| SubgradientTrainer.SettingsDefaults | svm.js:2-4 | options fall back to 2000, 0.0001 and 1.0 whenever the value given is missing or 0 |
| SubgradientTrainer.SettingsOf | svm.js:2-4 | the options with their defaults; no ensures of its own, see `SettingsDefaults` |
| SubgradientTrainer.Standardize | svm.js:28-32 | the z-score map; no ensures of its own, see `StandardizeRoundTrip` |
| SubgradientTrainer.StandardizeRoundTrip | svm.js:28-32 | standardising keeps length, order and class, and `nx·stdX + meanX == x` |
| SubgradientTrainer.Rescale | svm.js:29 | `(x − mean)/std·std + mean == x` for non-zero std |
| SubgradientTrainer.Range | svm.js:45 | `Array.from({length: n}, (_, i) => i)` has n entries |
| SubgradientTrainer.RangeCounts | svm.js:45 | every index below n occurs exactly once, and nothing else occurs |
| SubgradientTrainer.SwapPartnerInRange | svm.js:47 | a draw in `[0, 1)` gives a swap partner `0 <= j <= i` |
| SubgradientTrainer.Swap | svm.js:48 | a swap keeps the length |
| SubgradientTrainer.SwapPermutes | svm.js:48 | a swap keeps the multiset of entries |
| SubgradientTrainer.ShuffleDown | svm.js:46-49 | the shuffle keeps the length |
| SubgradientTrainer.ShuffleDownPermutes | svm.js:46-49 | the shuffle keeps the multiset of entries |
| SubgradientTrainer.Order | svm.js:45-49 | the visiting order has n entries |
| SubgradientTrainer.OrderIsPermutation | svm.js:45-49 | the shuffled indices are a permutation of `0..n−1`, each a valid point index |
| SubgradientTrainer.Shuffle | svm.js:46-49 | the in-place Fisher–Yates loop yields the shuffle function of the old contents, and a permutation of them |
| SubgradientTrainer.Visit | svm.js:51-67 | a visit keeps the number of lambdas |
| SubgradientTrainer.SweepPrefix | svm.js:51-67 | a sweep keeps the number of lambdas |
| SubgradientTrainer.VisitEffect | svm.js:54-66 | with margin `>= 1` nothing changes; below 1, `lambdas[i]` grows by exactly the learning rate, no other lambda changes, the bias moves by `rate·class`, and the total error grows |
| SubgradientTrainer.SweepLambdasGrow | svm.js:63 | with a non-negative learning rate no lambda decreases during a sweep |
| SubgradientTrainer.SweepErrorGrows | svm.js:65 | the total error never decreases during a sweep, so it is non-negative from 0 |
| SubgradientTrainer.QuietSweep | svm.js:58 | a sweep in which every margin is at least 1 changes nothing |
| SubgradientTrainer.Iteration | svm.js:43-73 | an iteration appends its error, weights and bias to the history |
| SubgradientTrainer.Loop | svm.js:42-78 | the loop keeps the number of lambdas |
| SubgradientTrainer.LoopStops | svm.js:42-78 | the loop runs at most `maxIterations` iterations; every iteration but the last had error `>= 0.001`, and it ends early only right after one with error `< 0.001` |
| SubgradientTrainer.FirstMinimum | svm.js:69 | the first-minimum index is a valid index |
| SubgradientTrainer.FirstMinimumIsFirst | svm.js:69-73 | it has the smallest error, and every earlier iteration had a strictly larger one |
| SubgradientTrainer.IterationTracksBest | svm.js:69-73 | an iteration keeps best weights, bias and smallest error equal to those of the first iteration of least error, and smallestError never increases |
| SubgradientTrainer.LoopTracksBest | svm.js:38-78 | the whole loop keeps that, and smallestError never increases |
| SubgradientTrainer.SpreadPositive | svm.js:25-26 | the square roots svm.js divides by are non-negative, so the points are spread exactly when both deviations are positive |
| SubgradientTrainer.Normalized | svm.js:6-32 | the standardised points from the data's own means and deviations; no ensures of its own, see `StandardizeRoundTrip` |
| SubgradientTrainer.Training | svm.js:34-78 | training keeps the number of lambdas |
| SubgradientTrainer.Train | svm.js:1-91 | the result has a lambda per point |
| SubgradientTrainer.TrainAgrees | svm.js:80-84 | the returned `w, b` gives at every point `bestW·((p − mean)/std) + bestBias` |
| SubgradientTrainer.TrainingSweeps | svm.js:42-78 | from the start, at most `maxIterations` iterations run with the early exit above, and the best values are those of the first iteration of least error |
| SubgradientTrainer.TrainLambdasNonNegative | svm.js:36 | the returned lambdas are all non-negative |
| SubgradientTrainer.LoopLambdasGrow | svm.js:63 | no lambda decreases across iterations |
| SubgradientTrainer.TrainSvm | svm.js:1-91 | the imperative trainer returns exactly the training function's result |
| SubgradientTrainer.Epoch | svm.js:43-67 | one iteration (reset, shuffle, visit all) yields the sweep function over the shuffled order |
| SubgradientTrainer.SweepPoints | svm.js:51-67 | visiting in the given order yields the sweep function |
| SubgradientTrainer.VisitPoint | svm.js:52-66 | the forEach callback yields the visit function |

## Left out

- Floating point: the model works over exact reals, so rounding, NaN and
  Infinity are not modelled. In particular `0/0` for an empty training set
  and the `|| 1` that also catches NaN are not modelled.
  `KernelSvm.KernelSVM.Train` and `SubgradientTrainer.TrainSvm` therefore
  require at least one point.
- SubgradientTrainer.TrainSvm: requires both standard deviations to be
  non-zero (`Spread`), because svm.js divides by them unguarded and a zero
  one gives Infinity/NaN.
- `Math.exp`, `Math.sqrt` and `Math.pow`: exp and sqrt are parameters with
  only the facts above; `Math.pow(·, 2)` is a product.
- The distribution of `Math.random`: the draws are arbitrary inputs in
  `[0, 1)`.
- The sort in the fallback (kernels.js:195-197) is modelled by its result:
  indices in non-decreasing margin order, ties in index order (a stable
  selection), of which the first `min(3, n)` are taken.
- KernelSvm.KernelSVM.GenerateDecisionBoundary: the source accumulates
  `x += step` in floating point; the model uses the exact a-th coordinate
  `a·step`. A negative resolution with a positive width never terminates in
  the source and is excluded by the requires.
- `lagrangeMultipliers` is `null` before the first training; the model
  uses the empty sequence. The array `train` returns is the object's own
  array (aliasing); the model returns a copy of its value.
- The kernel matrix and the multipliers are sequences that the methods
  reassign, not arrays written in place. `weights`/`bestWeights` in svm.js
  are 2-D values rather than two-element arrays.
- KernelSvm.KernelSVM.Predict: before any training the source normalises
  with undefined parameters and sums over no points. The model leaves the
  point unchanged (`NormalizeQuery`); in both cases the result is the bias.
- The `canvasWidth` and `canvasHeight` arguments of `trainSVM` are unused
  in the source and in the model.
- main.js (DOM events), canvas.js (drawing) and data.js (preset point
  sets) are not part of this model.

Where the code differs from the algorithm as usually described, the model
follows the code:

- The initial multipliers are random in `[0, 0.1)`, not zero.
- There is no error cache and no alternation between examining all points
  and the non-bound points: every sweep visits all points, and each error
  is recomputed from the kernel matrix.
- `predict` has no "untrained" check; on a fresh model it returns the
  bias, 0.
- There is no snapping of multipliers near 0 or C.
- The bias after an accepted pair is chosen by the three-way rule `b1`,
  then `b2`, then their mean.
- The configured polynomial degree never reaches the kernel
  (`Kernels.ConfiguredDegreeIsIgnored`).
