/** The record a successfully constructed Galois representation holds, and
    what each kind of input turns into when the constructor runs on a new
    object. The class in GaloisReps is proved to produce exactly these. */
module Normalization {
  import opened LValues

  /** The height up to which the L-function is to be evaluated. */
  const MaxImaginaryPart := "40"

  /** A character value counts as real when its imaginary part is below this. */
  const SelfDualTolerance: real := 0.0001

  /** The L-function invariants of a constructed representation. */
  datatype LRecord = LRecord(
    objectType: string,
    dim: nat,
    weight: int,
    motivicWeight: int,
    conductor: nat,
    sign: Complex,
    muFe: seq<real>,
    nuFe: seq<real>,
    gammaV: seq<int>,
    langlands: bool,
    selfdual: bool,
    primitive: bool,
    numcoeff: nat,
    dirichletCoefficients: seq<Complex>,
    coefficientType: int,
    coefficientPeriod: nat)

  /** The solver configuration built from functional-equation data: no poles, no residues. */
  function Dokchitser(conductor: nat, gammaV: seq<int>, weight: int, eps: Complex): (c: SolverConfig)
    ensures c.poles == [] && c.residues == []
  {
    SolverConfig(conductor, gammaV, weight, eps, [], [])
  }

  /** The solver configuration a finished record's functional equation gives. */
  function ConfigOf(r: LRecord): SolverConfig {
    Dokchitser(r.conductor, r.gammaV, r.motivicWeight, r.sign)
  }

  /** The coefficient count was asked of the solver with the record's final
      functional-equation data, at the fixed height. */
  predicate CountedFromFinalData(r: LRecord, ext: Externals) {
    r.numcoeff == ext.numCoeffs(ConfigOf(r), MaxImaginaryPart)
  }

  predicate NumericallyReal(z: Complex) {
    -SelfDualTolerance < z.im < SelfDualTolerance
  }

  /** Whether the values at 0, ..., n-1 are all numerically real. */
  function ValuesReal(value: nat -> Complex, n: nat): (r: bool)
    ensures r <==> forall m :: 0 <= m < n ==> NumericallyReal(value(m))
  {
    if n == 0 then true else ValuesReal(value, n - 1) && NumericallyReal(value(n - 1))
  }

  /** Gamma shifts of an Artin representation: p zeros, then m ones. */
  function ArtinGammaV(p: nat, m: nat): (g: seq<int>)
    ensures |g| == p + m
    ensures forall i :: 0 <= i < p ==> g[i] == 0
    ensures forall i :: p <= i < p + m ==> g[i] == 1
  {
    seq(p, _ => 0) + seq(m, _ => 1)
  }

  /** Appending one more 1 gives the gamma shifts for one more eigenvalue -1. */
  lemma ArtinGammaVAppend(p: nat, m: nat)
    ensures ArtinGammaV(p, 0) == seq(p, _ => 0)
    ensures ArtinGammaV(p, m) + [1] == ArtinGammaV(p, m + 1)
  {
  }

  /** The coefficients a(1), ..., a(n) of a newform under its embedding. */
  function AlgebraicCoefficients(F: WebNewForm, n: nat): (a: seq<Complex>)
    ensures |a| == n
  {
    seq(n, i requires 0 <= i => F.embeddedCoefficient(i + 1))
  }

  /** Appending a(n) to the first n - 1 coefficients gives the first n. */
  lemma AlgebraicCoefficientsAppend(F: WebNewForm, n: nat)
    ensures AlgebraicCoefficients(F, 0) == []
    ensures AlgebraicCoefficients(F, n) + [F.embeddedCoefficient(n + 1)] == AlgebraicCoefficients(F, n + 1)
  {
  }

  /** Coefficients a(1), a(2), ... divided by n^e, entry by entry. */
  function AnalyticCoefficients(alg: seq<Complex>, e: real, ext: Externals): (d: seq<Complex>)
    ensures |d| == |alg|
  {
    seq(|alg|, i requires 0 <= i < |alg| => ext.normalize(alg[i], i + 1, e))
  }

  /** Normalizing one more coefficient extends the normalized prefix by one entry. */
  lemma AnalyticCoefficientsAppend(alg: seq<Complex>, n: nat, e: real, ext: Externals)
    requires n < |alg|
    ensures AnalyticCoefficients(alg[..0], e, ext) == []
    ensures AnalyticCoefficients(alg[..n], e, ext) + [ext.normalize(alg[n], n + 1, e)]
            == AnalyticCoefficients(alg[..n + 1], e, ext)
  {
  }

  /** Entry k - 1 of a newform's coefficient lists is a(k), and a(k) divided by k^e. */
  lemma ModularFormCoefficientEntries(F: WebNewForm, n: nat, e: real, ext: Externals)
    ensures forall k :: 1 <= k <= n ==> AlgebraicCoefficients(F, n)[k - 1] == F.embeddedCoefficient(k)
    ensures forall k :: 1 <= k <= n ==>
      AnalyticCoefficients(AlgebraicCoefficients(F, n), e, ext)[k - 1] == ext.normalize(F.embeddedCoefficient(k), k, e)
  {
  }

  /** An elliptic curve: a fixed shape, and the curve's a(1), ..., a(N) for
      the solver's count N. */
  function EllipticCurveRecord(E: EllipticCurve, ext: Externals): (r: LRecord)
    ensures r.dim == 2 && r.weight == 2 && r.motivicWeight == 1
    ensures r.conductor == E.conductor && r.sign == E.rootNumber
    ensures r.muFe == [] && r.nuFe == [0.5] && r.gammaV == [0, 1]
    ensures |r.muFe| + 2 * |r.nuFe| == r.dim && |r.gammaV| == r.dim
    ensures r.langlands && r.selfdual && r.primitive
    ensures r.coefficientType == 2 && r.coefficientPeriod == 0
    ensures CountedFromFinalData(r, ext)
    ensures |r.dirichletCoefficients| == r.numcoeff
    ensures forall n :: 1 <= n <= r.numcoeff ==> r.dirichletCoefficients[n - 1] == FromInt(E.an(n))
  {
    var n := ext.numCoeffs(Dokchitser(E.conductor, [0, 1], 1, E.rootNumber), MaxImaginaryPart);
    LRecord("ellipticcurve", 2, 2, 1, E.conductor, E.rootNumber, [], [0.5], [0, 1],
            true, true, true, n, IntsAsComplex(AnList(E, n)[1..]), 2, 0)
  }

  /** The gamma shift of a Dirichlet character: 1 if odd, 0 if even. */
  function ParityShift(chi: DirichletCharacter): (s: int)
    ensures s == 0 || s == 1
    ensures s == 1 <==> chi.isOdd
  {
    if chi.isOdd then 1 else 0
  }

  /** The factor the Gauss sum is divided by, besides the square root of the
      modulus: i if odd, 1 if even. */
  function GaussFactor(chi: DirichletCharacter): (b: Complex)
    ensures b.re * b.re + b.im * b.im == 1.0
    ensures b == ImaginaryUnit <==> chi.isOdd
    ensures !chi.isOdd ==> b == One
  {
    if chi.isOdd then ImaginaryUnit else One
  }

  /** The values at 0, ..., n-1. */
  function ValueList(value: nat -> Complex, n: nat): (s: seq<Complex>)
    ensures |s| == n
    ensures forall m :: 0 <= m < n ==> s[m] == value(m)
  {
    seq(n, m requires 0 <= m => value(m))
  }

  /** A Dirichlet character, through its primitive character. */
  function DirichletCharacterRecord(w: WebDirichletCharacter, ext: Externals): (r: LRecord)
    ensures var chi := w.primitiveCharacter;
      && r.dim == 1 && r.weight == 0 && r.motivicWeight == 0
      && r.conductor == chi.conductor
      && r.sign == ext.gaussRootNumber(chi.gaussSumNumerical, GaussFactor(chi), chi.modulus)
      && r.nuFe == [] && r.muFe == [ParityShift(chi) as real]
      && r.gammaV == [ParityShift(chi)]
      && |r.muFe| + 2 * |r.nuFe| == r.dim && |r.gammaV| == r.dim
      && r.langlands && r.primitive
      && r.coefficientType == (if r.selfdual then 2 else 3)
      && r.coefficientPeriod == chi.modulus
      && CountedFromFinalData(r, ext)
      && |r.dirichletCoefficients| == r.numcoeff + 1
      && forall m :: 0 <= m <= r.numcoeff ==> r.dirichletCoefficients[m] == chi.value(m)
  {
    var chi := w.primitiveCharacter;
    var aa := ParityShift(chi);
    var sign := ext.gaussRootNumber(chi.gaussSumNumerical, GaussFactor(chi), chi.modulus);
    var selfdual := ValuesReal(chi.value, chi.modulus);
    var n := ext.numCoeffs(Dokchitser(chi.conductor, [aa], 0, sign), MaxImaginaryPart);
    LRecord("dirichletcharacter", 1, 0, 0, chi.conductor, sign, [aa as real], [], [aa],
            true, selfdual, true, n, ValueList(chi.value, n + 1),
            if selfdual then 2 else 3, chi.modulus)
  }

  /** A character is self-dual exactly when its values modulo q are all numerically real. */
  lemma DirichletCharacterSelfDual(w: WebDirichletCharacter, ext: Externals)
    ensures var chi := w.primitiveCharacter;
      DirichletCharacterRecord(w, ext).selfdual <==> forall m :: 0 <= m < chi.modulus ==> NumericallyReal(chi.value(m))
  {
  }

  /** The values of a character repeat with period its modulus. */
  ghost predicate Periodic(chi: DirichletCharacter) {
    chi.modulus > 0 && forall m: nat {:trigger chi.value(m)} :: chi.value(m) == chi.value(m % chi.modulus)
  }

  /** For a periodic character, a self-dual record has only numerically real coefficients. */
  lemma DirichletSelfDualCoefficientsReal(w: WebDirichletCharacter, ext: Externals)
    requires Periodic(w.primitiveCharacter)
    ensures var r := DirichletCharacterRecord(w, ext);
      r.selfdual ==> forall m :: 0 <= m < |r.dirichletCoefficients| ==> NumericallyReal(r.dirichletCoefficients[m])
  {
    var chi, r := w.primitiveCharacter, DirichletCharacterRecord(w, ext);
    if r.selfdual {
      forall m | 0 <= m < |r.dirichletCoefficients|
        ensures NumericallyReal(r.dirichletCoefficients[m])
      {
        assert r.dirichletCoefficients[m] == chi.value(m) == chi.value(m % chi.modulus);
      }
    }
  }

  /** An Artin representation: queried data, gamma shifts from the
      eigenvalue counts of complex conjugation. */
  function ArtinRecord(rho: ArtinRepresentation, ext: Externals): (r: LRecord)
    ensures r.dim == rho.dimension && r.weight == 0 && r.motivicWeight == 0
    ensures r.conductor == rho.conductor && r.sign == rho.rootNumber
    ensures r.muFe == rho.muFe && r.nuFe == rho.nuFe
    ensures |r.gammaV| == rho.plusOneEigenvalues + rho.minusOneEigenvalues
    ensures forall i :: 0 <= i < |r.gammaV| ==> r.gammaV[i] == (if i < rho.plusOneEigenvalues then 0 else 1)
    ensures r.langlands == rho.langlands && r.selfdual == rho.selfdual && r.primitive == rho.primitive
    ensures r.coefficientType == 0 && r.coefficientPeriod == 0
    ensures CountedFromFinalData(r, ext)
    ensures r.dirichletCoefficients == rho.coefficientsList
  {
    var g := ArtinGammaV(rho.plusOneEigenvalues, rho.minusOneEigenvalues);
    var n := ext.numCoeffs(Dokchitser(rho.conductor, g, 0, rho.rootNumber), MaxImaginaryPart);
    LRecord("Artin representation", rho.dimension, 0, 0, rho.conductor, rho.rootNumber,
            rho.muFe, rho.nuFe, g, rho.langlands, rho.selfdual, rho.primitive,
            n, rho.coefficientsList, 0, 0)
  }

  /** What the constructor yields on a new object: a record, or the
      exception it stops with. */
  function Normalize(thingy: Thingy, ext: Externals): (r: Result<LRecord, Error>)
    ensures r.Ok? <==> thingy.EllipticCurveOverQ? || thingy.DirichletChar? || thingy.Artin?
    ensures thingy.NewForm? ==> r == Err(NotImplemented)
    ensures thingy.Unrecognised? ==> r == Err(AttributeError("conductor"))
    ensures r.Ok? ==> CountedFromFinalData(r.value, ext)
    ensures r.Ok? && !thingy.DirichletChar? ==> r.value.coefficientPeriod == 0
    ensures r.Ok? && !thingy.Artin? ==> |r.value.muFe| + 2 * |r.value.nuFe| == r.value.dim
    ensures r.Ok? && !thingy.Artin? ==> |r.value.gammaV| == r.value.dim
  {
    match thingy
    case EllipticCurveOverQ(E) => Ok(EllipticCurveRecord(E, ext))
    case DirichletChar(w) => Ok(DirichletCharacterRecord(w, ext))
    case Artin(rho) => Ok(ArtinRecord(rho, ext))
    case NewForm(_) => Err(NotImplemented)
    case Unrecognised => Err(AttributeError("conductor"))
  }
}
