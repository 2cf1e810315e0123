/** Values shared by the normalizer: numbers, errors, the four kinds of input
    object and the configuration handed to the functional-equation solver.
    The arithmetic of the input objects is not computed here: each object is a
    record of the answers it gives to the queries the normalizer makes. */
module LValues {

  datatype Option<+T> = None | Some(value: T)

  /** The outcome of a step that may raise. */
  datatype Outcome<+E> = Pass | Fail(error: E)

  datatype Result<+T, +E> = Ok(value: T) | Err(error: E)

  /** A complex number as the numeric layer hands it over. */
  datatype Complex = Complex(re: real, im: real)

  const One := Complex(1.0, 0.0)
  const ImaginaryUnit := Complex(0.0, 1.0)

  function FromInt(n: int): Complex {
    Complex(n as real, 0.0)
  }

  /** An integer multiple of a complex number. */
  function Scale(k: int, z: Complex): Complex {
    Complex(k as real * z.re, k as real * z.im)
  }

  /** The exceptions the normalizer itself can raise. */
  datatype Error =
    | NotImplemented              // the solver is configured before a sign exists
    | AttributeError(name: string) // an attribute is read before it is assigned
    | KeyError(key: nat)           // no Atkin-Lehner eigenvalue at the level

  /** An elliptic curve over Q: its conductor, its root number and its
      coefficients a(n); `anlist(n)` is the list a(0), ..., a(n). */
  datatype EllipticCurve = EllipticCurve(conductor: nat, rootNumber: Complex, an: nat -> int)

  function AnList(E: EllipticCurve, n: nat): (s: seq<int>)
    ensures |s| == n + 1
    ensures forall i :: 0 <= i <= n ==> s[i] == E.an(i)
  {
    seq(n + 1, i requires 0 <= i => E.an(i))
  }

  /** Integer coefficients as complex numbers. */
  function IntsAsComplex(s: seq<int>): seq<Complex> {
    seq(|s|, i requires 0 <= i < |s| => FromInt(s[i]))
  }

  /** A Dirichlet character, as its primitive character answers queries. */
  datatype DirichletCharacter = DirichletCharacter(
    conductor: nat,
    modulus: nat,
    isOdd: bool,
    gaussSumNumerical: Complex,
    value: nat -> Complex)

  /** A web Dirichlet character; only its primitive character is used. */
  datatype WebDirichletCharacter = WebDirichletCharacter(primitiveCharacter: DirichletCharacter)

  /** An Artin representation; the two eigenvalue counts are those of
      complex conjugation. */
  datatype ArtinRepresentation = ArtinRepresentation(
    dimension: nat,
    conductor: nat,
    rootNumber: Complex,
    muFe: seq<real>,
    nuFe: seq<real>,
    plusOneEigenvalues: nat,
    minusOneEigenvalues: nat,
    langlands: bool,
    selfdual: bool,
    primitive: bool,
    coefficientsList: seq<Complex>)

  /** An elliptic modular newform: `embeddedCoefficient(n)` is its n-th
      q-expansion coefficient under the form's chosen embedding. */
  datatype WebNewForm = WebNewForm(
    weight: int,
    level: nat,
    embeddedCoefficient: nat -> Complex,
    atkinLehnerEigenvalues: map<nat, int>)

  /** The object handed to the constructor: one of the four recognised kinds,
      or anything else. */
  datatype Thingy =
    | EllipticCurveOverQ(curve: EllipticCurve)
    | DirichletChar(chi: WebDirichletCharacter)
    | Artin(rho: ArtinRepresentation)
    | NewForm(form: WebNewForm)
    | Unrecognised

  /** The arguments the solver session is created with. */
  datatype SolverConfig = SolverConfig(
    conductor: nat,
    gammaV: seq<int>,
    weight: int,
    eps: Complex,
    poles: seq<Complex>,
    residues: seq<Complex>)

  /** An open or closed solver session, with the height variable that was set in it. */
  datatype Session = Session(config: SolverConfig, maxImaginaryPart: Option<string>, alive: bool)

  /** The solver and the floating-point steps, as black boxes:
      `numCoeffs(cfg, h)` is the solver's coefficient count for height h;
      `gaussRootNumber(g, b, q)` is g / (b * sqrt(q)) cast to a complex;
      `normalize(a, n, e)` is a / n^e in floating point;
      `parityFactor(k)` is (-1)^(k/2) in floating point. */
  datatype Externals = Externals(
    numCoeffs: (SolverConfig, string) -> nat,
    gaussRootNumber: (Complex, Complex, nat) -> Complex,
    normalize: (Complex, nat, real) -> Complex,
    parityFactor: int -> Complex)

  /** The solver phases, in the order a representation goes through them. */
  datatype Phase = Configured | Counted | CoefficientsPulled | Closed
}
