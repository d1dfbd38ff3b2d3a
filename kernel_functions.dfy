// The three kernel functions of `kernelFunctions` (kernels.js) and the way
// KernelSVM dispatches to them.

module Kernels {
  import opened RealMath
  import opened JsValues
  import opened Points

  datatype KernelType = Linear | Polynomial | Rbf

  /**
   * The third argument the polynomial kernel receives. `Bare` is a plain
   * number (what KernelSVM passes); `WithDegree` is an object carrying a
   * `polynomial` field.
   */
  datatype PolyArg = NoArg | Bare(value: real) | WithDegree(polynomial: nat)

  /** `kernelParams` as main.js builds it: `{}`, `{polynomial: d}` or `{rbf: g}`. */
  datatype KernelParams = KernelParams(polynomial: Maybe<int>, rbf: Maybe<real>)

  function LinearKernel(p1: Vec2, p2: Vec2): real
  {
    p1.x * p2.x + p1.y * p2.y
  }

  /** True when `parameters.polynomial` is truthy. */
  predicate HasDegree(parameters: PolyArg)
  {
    parameters.WithDegree? && parameters.polynomial != 0
  }

  function PolynomialKernel(p1: Vec2, p2: Vec2, parameters: PolyArg): real
  {
    var dot1 := (p1.x * p2.x + p1.y * p2.y) + 1.0;
    if !HasDegree(parameters) then Pow(dot1, 2) else Pow(dot1, parameters.polynomial)
  }

  /** `undefined` and 0 are falsy and select gamma = 1. */
  function Gamma(gammaParameter: Maybe<real>): real
  {
    OrReal(gammaParameter, 1.0)
  }

  function SquaredDistance(p1: Vec2, p2: Vec2): real
  {
    (p1.x - p2.x) * (p1.x - p2.x) + (p1.y - p2.y) * (p1.y - p2.y)
  }

  function RbfKernel(p1: Vec2, p2: Vec2, gammaParameter: Maybe<real>, exp: real -> real): real
  {
    exp(-Gamma(gammaParameter) * SquaredDistance(p1, p2))
  }

  /** `kernelParameters[kernelType]` for the polynomial kernel: a bare number or undefined. */
  function PolynomialArgument(params: KernelParams): PolyArg
  {
    match params.polynomial
    case Undefined => NoArg
    case Defined(d) => Bare(d as real)
  }

  /** `kernelFunctions[kernelType](p1, p2, kernelParameters[kernelType])` */
  function Evaluate(kind: KernelType, params: KernelParams, exp: real -> real, p1: Vec2, p2: Vec2): real
  {
    match kind
    case Linear => LinearKernel(p1, p2)
    case Polynomial => PolynomialKernel(p1, p2, PolynomialArgument(params))
    case Rbf => RbfKernel(p1, p2, params.rbf, exp)
  }

  lemma LinearIsDot(p1: Vec2, p2: Vec2)
    ensures LinearKernel(p1, p2) == Dot(p1, p2)
  {
  }

  /** Without a truthy `.polynomial` field the degree is 2. */
  lemma PolynomialDefaultsToSquare(p1: Vec2, p2: Vec2, parameters: PolyArg)
    requires !HasDegree(parameters)
    ensures PolynomialKernel(p1, p2, parameters) == (Dot(p1, p2) + 1.0) * (Dot(p1, p2) + 1.0)
  {
    PowSquare(Dot(p1, p2) + 1.0);
  }

  /**
   * On KernelSVM's call path the polynomial kernel is always of degree 2,
   * whatever degree was configured: a bare number has no `.polynomial` field.
   */
  lemma ConfiguredDegreeIsIgnored(params: KernelParams, exp: real -> real, p1: Vec2, p2: Vec2)
    ensures Evaluate(Polynomial, params, exp, p1, p2) == (Dot(p1, p2) + 1.0) * (Dot(p1, p2) + 1.0)
  {
    PolynomialDefaultsToSquare(p1, p2, PolynomialArgument(params));
  }

  lemma PolynomialDegreeOne(p1: Vec2, p2: Vec2)
    ensures PolynomialKernel(p1, p2, WithDegree(1)) == Dot(p1, p2) + 1.0
  {
    PowOne(Dot(p1, p2) + 1.0);
  }

  lemma PolynomialSymmetric(p1: Vec2, p2: Vec2, parameters: PolyArg)
    ensures PolynomialKernel(p1, p2, parameters) == PolynomialKernel(p2, p1, parameters)
  {
    assert (p1.x * p2.x + p1.y * p2.y) + 1.0 == (p2.x * p1.x + p2.y * p1.y) + 1.0;
  }

  lemma RbfSymmetric(p1: Vec2, p2: Vec2, gammaParameter: Maybe<real>, exp: real -> real)
    ensures RbfKernel(p1, p2, gammaParameter, exp) == RbfKernel(p2, p1, gammaParameter, exp)
  {
    var g := Gamma(gammaParameter);
    assert -g * SquaredDistance(p1, p2) == -g * SquaredDistance(p2, p1);
  }

  /** Every kernel is symmetric in its two points, whatever the parameters. */
  lemma Symmetric(kind: KernelType, params: KernelParams, exp: real -> real, p1: Vec2, p2: Vec2)
    ensures Evaluate(kind, params, exp, p1, p2) == Evaluate(kind, params, exp, p2, p1)
  {
    match kind
    case Linear =>
    case Polynomial => PolynomialSymmetric(p1, p2, PolynomialArgument(params));
    case Rbf => RbfSymmetric(p1, p2, params.rbf, exp);
  }

  lemma RbfOfPointWithItself(p: Vec2, gammaParameter: Maybe<real>, exp: real -> real)
    requires IsExp(exp)
    ensures RbfKernel(p, p, gammaParameter, exp) == 1.0
  {
    assert SquaredDistance(p, p) == 0.0;
  }

  /** With a non-negative gamma (or the default) the rbf kernel lies in (0, 1]. */
  lemma RbfInUnitInterval(p1: Vec2, p2: Vec2, gammaParameter: Maybe<real>, exp: real -> real)
    requires IsExp(exp)
    requires 0.0 <= Gamma(gammaParameter)
    ensures 0.0 < RbfKernel(p1, p2, gammaParameter, exp) <= 1.0
  {
    var g, d := Gamma(gammaParameter), SquaredDistance(p1, p2);
    assert 0.0 <= d;
    assert 0.0 <= g * d;
  }
}
