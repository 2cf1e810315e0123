/** The Galois-representation object. Its attributes are assigned one by one
    by the constructor and by one initialiser per kind of input, and it drives
    a solver session to learn how many Dirichlet coefficients to pull.
    The object's attributes are held as one record (the object's attribute
    dictionary): an attribute that has not been assigned yet is None, and
    reading it raises AttributeError. */
module GaloisReps {
  import opened LValues
  import opened Normalization

  datatype Attributes = Attributes(
    maxImaginaryPart: Option<string>,
    originalObject: Option<seq<Thingy>>,
    objectType: Option<string>,
    dim: Option<nat>,
    weight: Option<int>,
    motivicWeight: Option<int>,
    conductor: Option<nat>,
    sign: Option<Complex>,
    muFe: Option<seq<real>>,
    nuFe: Option<seq<real>>,
    gammaV: Option<seq<int>>,
    langlands: Option<bool>,
    selfdual: Option<bool>,
    primitive: Option<bool>,
    ld: Option<Session>,
    numcoeff: Option<nat>,
    dirichletCoefficients: Option<seq<Complex>>,
    algebraicCoefficients: Option<seq<Complex>>,
    automorphyexp: Option<real>,
    coefficientType: Option<int>,
    coefficientPeriod: Option<nat>,
    level: Option<nat>,
    degree: Option<nat>,
    poles: Option<seq<Complex>>,
    residues: Option<seq<Complex>>)

  /** A new object has no attributes. */
  const NoAttributes := Attributes(None, None, None, None, None, None, None, None, None, None,
                                   None, None, None, None, None, None, None, None, None, None,
                                   None, None, None, None, None)

  /** Every attribute of the L-function record has been assigned. */
  predicate Filled(a: Attributes) {
    && a.objectType.Some? && a.dim.Some? && a.weight.Some? && a.motivicWeight.Some?
    && a.conductor.Some? && a.sign.Some? && a.muFe.Some? && a.nuFe.Some? && a.gammaV.Some?
    && a.langlands.Some? && a.selfdual.Some? && a.primitive.Some? && a.numcoeff.Some?
    && a.dirichletCoefficients.Some? && a.coefficientType.Some? && a.coefficientPeriod.Some?
  }

  /** The L-function record the attributes hold. */
  function RecordOf(a: Attributes): LRecord
    requires Filled(a)
  {
    LRecord(a.objectType.value, a.dim.value, a.weight.value, a.motivicWeight.value,
            a.conductor.value, a.sign.value, a.muFe.value, a.nuFe.value, a.gammaV.value,
            a.langlands.value, a.selfdual.value, a.primitive.value, a.numcoeff.value,
            a.dirichletCoefficients.value, a.coefficientType.value, a.coefficientPeriod.value)
  }

  /** The attributes with a record's invariants assigned. */
  function WithRecord(a: Attributes, r: LRecord): (b: Attributes)
    ensures Filled(b) && RecordOf(b) == r
  {
    a.(objectType := Some(r.objectType), dim := Some(r.dim), weight := Some(r.weight),
       motivicWeight := Some(r.motivicWeight), conductor := Some(r.conductor), sign := Some(r.sign),
       muFe := Some(r.muFe), nuFe := Some(r.nuFe), gammaV := Some(r.gammaV),
       langlands := Some(r.langlands), selfdual := Some(r.selfdual), primitive := Some(r.primitive),
       numcoeff := Some(r.numcoeff), dirichletCoefficients := Some(r.dirichletCoefficients),
       coefficientType := Some(r.coefficientType), coefficientPeriod := Some(r.coefficientPeriod))
  }

  /** The session a finished record leaves behind: configured with the
      record's functional equation, height set, quit. */
  function ClosedSession(r: LRecord): Session {
    Session(ConfigOf(r), Some(MaxImaginaryPart), false)
  }

  /** The solver configuration the functional-equation attributes give, or
      the exception creating a session with them raises: a missing sign is
      checked first, then the arguments in the order they are passed. */
  function SessionArguments(a: Attributes): (r: Result<SolverConfig, Error>)
    ensures a.sign.None? ==> r == Err(NotImplemented)
    ensures a.sign.Some? && a.conductor.None? ==> r == Err(AttributeError("conductor"))
    ensures a.sign.Some? && a.conductor.Some? && a.gammaV.None? ==> r == Err(AttributeError("gammaV"))
    ensures a.sign.Some? && a.conductor.Some? && a.gammaV.Some? && a.motivicWeight.None? ==>
      r == Err(AttributeError("motivic_weight"))
    ensures r.Ok? <==> a.sign.Some? && a.conductor.Some? && a.gammaV.Some? && a.motivicWeight.Some?
    ensures r.Ok? ==> r.value == Dokchitser(a.conductor.value, a.gammaV.value, a.motivicWeight.value, a.sign.value)
  {
    if a.sign.None? then Err(NotImplemented)
    else if a.conductor.None? then Err(AttributeError("conductor"))
    else if a.gammaV.None? then Err(AttributeError("gammaV"))
    else if a.motivicWeight.None? then Err(AttributeError("motivic_weight"))
    else Ok(Dokchitser(a.conductor.value, a.gammaV.value, a.motivicWeight.value, a.sign.value))
  }

  /** The attributes a newform's initialiser assigns before it first calls
      the solver. Neither the sign nor the gamma shifts are among them, so
      whether a session can be created then depends only on what the
      object already had. */
  function ModularFormHeader(a: Attributes, F: WebNewForm): (h: Attributes)
    ensures h.dim == Some(2) && h.weight == Some(F.weight) && h.motivicWeight == Some(F.weight - 1)
    ensures h.conductor == Some(F.level) && h.muFe == Some([]) && h.nuFe.Some? && |h.nuFe.value| == 1
    ensures h.nuFe.value[0] == h.motivicWeight.value as real / 2.0
    ensures h.sign == a.sign && h.gammaV == a.gammaV && h.ld == a.ld && h.numcoeff == a.numcoeff
    ensures SessionArguments(h).Ok? <==> a.sign.Some? && a.gammaV.Some?
    ensures a.sign.None? ==> SessionArguments(h) == Err(NotImplemented)
  {
    a.(originalObject := Some([NewForm(F)]), objectType := Some("Elliptic Modular newform"),
       dim := Some(2), weight := Some(F.weight), motivicWeight := Some(F.weight - 1),
       conductor := Some(F.level), langlands := Some(true),
       muFe := Some([]), nuFe := Some([(F.weight - 1) as real / 2.0]))
  }

  /** The attributes a newform's initialiser assigns once the coefficient
      count is known: a(1), ..., a(N) under the embedding, and the same
      divided by n^((k-1)/2) for the weight k. */
  function WithModularFormCoefficients(a: Attributes, F: WebNewForm, ext: Externals): (b: Attributes)
    requires a.numcoeff.Some? && a.weight.Some?
    ensures b.primitive == Some(true) && b.selfdual == Some(true)
    ensures b.automorphyexp == Some((a.weight.value - 1) as real / 2.0)
    ensures b.algebraicCoefficients.Some? && |b.algebraicCoefficients.value| == a.numcoeff.value
    ensures b.dirichletCoefficients.Some? && |b.dirichletCoefficients.value| == a.numcoeff.value
    ensures b.numcoeff == a.numcoeff && b.sign == a.sign && b.gammaV == a.gammaV && b.ld == a.ld
  {
    var e := (a.weight.value - 1) as real / 2.0;
    var alg := AlgebraicCoefficients(F, a.numcoeff.value);
    a.(primitive := Some(true), selfdual := Some(true), automorphyexp := Some(e),
       algebraicCoefficients := Some(alg), dirichletCoefficients := Some(AnalyticCoefficients(alg, e, ext)))
  }

  class GaloisRepresentation {
    var attrs: Attributes
    /** The solver phases this object has gone through, oldest first. */
    ghost var trace: seq<Phase>

    /** A new object, before its initialiser runs. */
    constructor ()
      ensures attrs == NoAttributes && trace == []
    {
      attrs := NoAttributes;
      trace := [];
    }

    /** Set the evaluation height, classify the input, run its initialiser,
        then derive level, degree, poles and residues. */
    method Init(thingy: Thingy, ext: Externals) returns (outcome: Outcome<Error>)
      requires attrs == NoAttributes && trace == []
      modifies this
      ensures outcome.Pass? <==> Normalize(thingy, ext).Ok?
      ensures outcome.Fail? ==> outcome.error == Normalize(thingy, ext).error
      ensures outcome.Pass? ==>
        var r := Normalize(thingy, ext).value;
        && attrs == WithRecord(NoAttributes, r).(
             maxImaginaryPart := Some(MaxImaginaryPart), originalObject := Some([thingy]),
             ld := Some(ClosedSession(r)), level := Some(r.conductor), degree := Some(r.dim),
             poles := Some([]), residues := Some([]))
        && RootNumber() == Ok(r.sign) && Dimension() == Ok(r.dim)
        && trace == [Configured, Counted, CoefficientsPulled, Closed]
      ensures thingy.NewForm? ==> attrs.ld.None? && trace == []
      ensures thingy.Unrecognised? ==> attrs == NoAttributes.(maxImaginaryPart := Some(MaxImaginaryPart))
    {
      attrs := attrs.(maxImaginaryPart := Some(MaxImaginaryPart));
      match thingy {
        case EllipticCurveOverQ(E) =>
          InitEllipticCurve(E, ext);
        case DirichletChar(w) =>
          InitDirChar(w, ext);
        case Artin(rho) =>
          InitArtinRep(rho, ext);
        case NewForm(F) =>
          outcome := InitEllipticModularForm(F, ext);
          if outcome.Fail? {
            return;
          }
        case Unrecognised =>
      }
      if attrs.conductor.None? {
        return Fail(AttributeError("conductor"));
      }
      attrs := attrs.(level := attrs.conductor);
      if attrs.dim.None? {
        return Fail(AttributeError("dim"));
      }
      attrs := attrs.(degree := attrs.dim, poles := Some([]), residues := Some([]));
      outcome := Pass;
    }

    /** An elliptic curve over Q: fixed gamma shifts and weights, conductor
        and root number from the curve, then a(1), ..., a(N) for the solver's N. */
    method InitEllipticCurve(E: EllipticCurve, ext: Externals)
      requires attrs.maxImaginaryPart == Some(MaxImaginaryPart)
      modifies this
      ensures var r := EllipticCurveRecord(E, ext);
        attrs == WithRecord(old(attrs), r).(originalObject := Some([EllipticCurveOverQ(E)]), ld := Some(ClosedSession(r)))
      ensures trace == old(trace) + [Configured, Counted, CoefficientsPulled, Closed]
    {
      attrs := attrs.(originalObject := Some([EllipticCurveOverQ(E)]));
      attrs := attrs.(objectType := Some("ellipticcurve"));
      attrs := attrs.(dim := Some(2));
      attrs := attrs.(weight := Some(2));
      attrs := attrs.(motivicWeight := Some(1));
      attrs := attrs.(conductor := Some(E.conductor));
      attrs := attrs.(sign := Some(E.rootNumber));
      attrs := attrs.(muFe := Some([]));
      attrs := attrs.(nuFe := Some([0.5]));
      attrs := attrs.(gammaV := Some([0, 1]));
      attrs := attrs.(langlands := Some(true));
      attrs := attrs.(selfdual := Some(true));
      attrs := attrs.(primitive := Some(true));
      var configured := SetDokchitserLfunction();
      var counted := SetNumberOfCoefficients(ext);
      assert configured == Pass && counted == Pass;
      attrs := attrs.(dirichletCoefficients := Some(IntsAsComplex(AnList(E, attrs.numcoeff.value)[1..])));
      trace := trace + [CoefficientsPulled];
      attrs := attrs.(coefficientType := Some(2));
      attrs := attrs.(coefficientPeriod := Some(0));
      QuitSession();
    }

    /** A Dirichlet character, through its primitive character: the parity
        gives the gamma shift, the Gauss sum the root number, and the values
        chi(0), ..., chi(N) are the coefficients. */
    method InitDirChar(w: WebDirichletCharacter, ext: Externals)
      requires attrs.maxImaginaryPart == Some(MaxImaginaryPart)
      modifies this
      ensures var r := DirichletCharacterRecord(w, ext);
        attrs == WithRecord(old(attrs), r).(originalObject := Some([DirichletChar(w)]), ld := Some(ClosedSession(r)))
      ensures trace == old(trace) + [Configured, Counted, CoefficientsPulled, Closed]
    {
      attrs := attrs.(originalObject := Some([DirichletChar(w)]));
      var chi := w.primitiveCharacter;
      attrs := attrs.(objectType := Some("dirichletcharacter"));
      attrs := attrs.(dim := Some(1));
      attrs := attrs.(weight := Some(0));
      attrs := attrs.(motivicWeight := Some(0));
      attrs := attrs.(conductor := Some(chi.conductor));
      var aa, bb := ParityShift(chi), GaussFactor(chi);
      attrs := attrs.(sign := Some(ext.gaussRootNumber(chi.gaussSumNumerical, bb, chi.modulus)));
      attrs := attrs.(muFe := Some([aa as real]));
      attrs := attrs.(nuFe := Some([]));
      attrs := attrs.(gammaV := Some([aa]));
      attrs := attrs.(langlands := Some(true));
      attrs := attrs.(selfdual := Some(ValuesReal(chi.value, chi.modulus)));
      attrs := attrs.(primitive := Some(true));
      var configured := SetDokchitserLfunction();
      var counted := SetNumberOfCoefficients(ext);
      assert configured == Pass && counted == Pass;
      attrs := attrs.(dirichletCoefficients := Some(ValueList(chi.value, attrs.numcoeff.value + 1)));
      trace := trace + [CoefficientsPulled];
      attrs := attrs.(coefficientType := Some(if attrs.selfdual.value then 2 else 3));
      attrs := attrs.(coefficientPeriod := Some(chi.modulus));
      assert attrs == WithRecord(old(attrs), DirichletCharacterRecord(w, ext)).(originalObject := Some([DirichletChar(w)]), ld := attrs.ld);
      QuitSession();
    }

    /** An Artin representation: one gamma shift 0 per eigenvalue +1 of
        complex conjugation, then one shift 1 per eigenvalue -1, appended
        one at a time; the coefficients are the representation's own list. */
    method InitArtinRep(rho: ArtinRepresentation, ext: Externals)
      requires attrs.maxImaginaryPart == Some(MaxImaginaryPart)
      modifies this
      ensures var r := ArtinRecord(rho, ext);
        attrs == WithRecord(old(attrs), r).(originalObject := Some([Artin(rho)]),
                                            degree := Some(rho.dimension), ld := Some(ClosedSession(r)))
      ensures trace == old(trace) + [Configured, Counted, CoefficientsPulled, Closed]
    {
      attrs := attrs.(originalObject := Some([Artin(rho)]));
      attrs := attrs.(objectType := Some("Artin representation"));
      attrs := attrs.(dim := Some(rho.dimension));
      attrs := attrs.(degree := attrs.dim);
      attrs := attrs.(weight := Some(0));
      attrs := attrs.(motivicWeight := Some(0));
      attrs := attrs.(conductor := Some(rho.conductor));
      attrs := attrs.(sign := Some(rho.rootNumber));
      attrs := attrs.(muFe := Some(rho.muFe));
      attrs := attrs.(nuFe := Some(rho.nuFe));
      attrs := attrs.(gammaV := Some(seq(rho.plusOneEigenvalues, _ => 0)));
      ArtinGammaVAppend(rho.plusOneEigenvalues, 0);
      ghost var shifted := attrs;
      var i := 0;
      while i < rho.minusOneEigenvalues
        modifies this`attrs
        invariant 0 <= i <= rho.minusOneEigenvalues
        invariant attrs == shifted.(gammaV := Some(ArtinGammaV(rho.plusOneEigenvalues, i)))
      {
        ArtinGammaVAppend(rho.plusOneEigenvalues, i);
        attrs := attrs.(gammaV := Some(attrs.gammaV.value + [1]));
        i := i + 1;
      }
      attrs := attrs.(langlands := Some(rho.langlands));
      attrs := attrs.(selfdual := Some(rho.selfdual));
      attrs := attrs.(primitive := Some(rho.primitive));
      var configured := SetDokchitserLfunction();
      var counted := SetNumberOfCoefficients(ext);
      assert configured == Pass && counted == Pass;
      attrs := attrs.(dirichletCoefficients := Some(rho.coefficientsList));
      trace := trace + [CoefficientsPulled];
      attrs := attrs.(coefficientType := Some(0));
      attrs := attrs.(coefficientPeriod := Some(0));
      QuitSession();
    }

    /** A newform. The solver is configured before the sign is assigned, so
        the initialiser only gets past that point when a sign (and gamma
        shifts) were already there. */
    method InitEllipticModularForm(F: WebNewForm, ext: Externals) returns (outcome: Outcome<Error>)
      requires attrs.maxImaginaryPart == Some(MaxImaginaryPart)
      modifies this
      ensures old(attrs).sign.None? || old(attrs).gammaV.None? ==>
        && outcome == Fail(if old(attrs).sign.None? then NotImplemented else AttributeError("gammaV"))
        && attrs == ModularFormHeader(old(attrs), F)
        && trace == old(trace)
      ensures old(attrs).sign.Some? && old(attrs).gammaV.Some? ==>
        var cfg := Dokchitser(F.level, old(attrs).gammaV.value, F.weight - 1, old(attrs).sign.value);
        var counted := ModularFormHeader(old(attrs), F).(
          ld := Some(Session(cfg, Some(MaxImaginaryPart), true)),
          numcoeff := Some(ext.numCoeffs(cfg, MaxImaginaryPart)));
        var pulled := WithModularFormCoefficients(counted, F, ext);
        && (F.level in F.atkinLehnerEigenvalues ==>
              && outcome == Pass
              && attrs == pulled.(
                   sign := Some(Scale(F.atkinLehnerEigenvalues[F.level], ext.parityFactor(F.weight))),
                   gammaV := Some([0, 1]),
                   ld := Some(Session(cfg, Some(MaxImaginaryPart), false)))
              && trace == old(trace) + [Configured, Counted, CoefficientsPulled, Closed])
        && (F.level !in F.atkinLehnerEigenvalues ==>
              && outcome == Fail(KeyError(F.level))
              && attrs == pulled
              && trace == old(trace) + [Configured, Counted, CoefficientsPulled])
    {
      attrs := attrs.(originalObject := Some([NewForm(F)]));
      attrs := attrs.(objectType := Some("Elliptic Modular newform"));
      attrs := attrs.(dim := Some(2));
      attrs := attrs.(weight := Some(F.weight));
      attrs := attrs.(motivicWeight := Some(F.weight - 1));
      attrs := attrs.(conductor := Some(F.level));
      attrs := attrs.(langlands := Some(true));
      attrs := attrs.(muFe := Some([]));
      attrs := attrs.(nuFe := Some([(F.weight - 1) as real / 2.0]));
      assert attrs == ModularFormHeader(old(attrs), F);
      outcome := SetDokchitserLfunction();
      if outcome.Fail? {
        return;
      }
      outcome := SetNumberOfCoefficients(ext);
      assert outcome == Pass;
      PullModularFormCoefficients(F, ext);

      var al := F.atkinLehnerEigenvalues;
      if attrs.conductor.value !in al {
        return Fail(KeyError(attrs.conductor.value));
      }
      attrs := attrs.(sign := Some(Scale(al[attrs.conductor.value], ext.parityFactor(attrs.weight.value))));
      attrs := attrs.(gammaV := Some([0, 1]));
      QuitSession();
      outcome := Pass;
    }

    /** The newform's primitivity and self-duality flags, then its
        coefficients: a(1), ..., a(N) under the chosen embedding, and each
        a(n) divided by n^((k-1)/2). */
    method PullModularFormCoefficients(F: WebNewForm, ext: Externals)
      requires attrs.numcoeff.Some? && attrs.weight.Some?
      modifies this
      ensures attrs == WithModularFormCoefficients(old(attrs), F, ext)
      ensures trace == old(trace) + [CoefficientsPulled]
    {
      attrs := attrs.(primitive := Some(true));
      attrs := attrs.(selfdual := Some(true));
      attrs := attrs.(automorphyexp := Some((attrs.weight.value - 1) as real / 2.0));
      ghost var pulled := attrs;
      AlgebraicCoefficientsAppend(F, 0);
      attrs := attrs.(algebraicCoefficients := Some([]));
      var n := 1;
      while n <= attrs.numcoeff.value
        modifies this`attrs
        invariant 1 <= n <= pulled.numcoeff.value + 1
        invariant attrs == pulled.(algebraicCoefficients := Some(AlgebraicCoefficients(F, n - 1)))
      {
        AlgebraicCoefficientsAppend(F, n - 1);
        attrs := attrs.(algebraicCoefficients := Some(attrs.algebraicCoefficients.value + [F.embeddedCoefficient(n)]));
        n := n + 1;
      }

      ghost var collected := attrs;
      attrs := attrs.(dirichletCoefficients := Some([]));
      var alg := attrs.algebraicCoefficients.value;
      n := 1;
      while n <= |alg|
        modifies this`attrs
        invariant 1 <= n <= |alg| + 1
        invariant attrs == collected.(dirichletCoefficients :=
          Some(AnalyticCoefficients(alg[..n - 1], collected.automorphyexp.value, ext)))
      {
        AnalyticCoefficientsAppend(alg, n - 1, collected.automorphyexp.value, ext);
        attrs := attrs.(dirichletCoefficients := Some(attrs.dirichletCoefficients.value +
          [ext.normalize(alg[n - 1], n, attrs.automorphyexp.value)]));
        n := n + 1;
      }
      assert alg[..|alg|] == alg;
      trace := trace + [CoefficientsPulled];
    }

    /** Open a solver session configured with the functional-equation
        attributes; without a sign this raises NotImplemented. */
    method SetDokchitserLfunction() returns (outcome: Outcome<Error>)
      modifies this
      ensures old(attrs).sign.None? ==> outcome == Fail(NotImplemented)
      ensures outcome.Pass? <==> SessionArguments(old(attrs)).Ok?
      ensures outcome.Fail? ==>
        && outcome.error == SessionArguments(old(attrs)).error
        && attrs == old(attrs) && trace == old(trace)
      ensures outcome.Pass? ==>
        && attrs == old(attrs).(ld := Some(Session(SessionArguments(old(attrs)).value, None, true)))
        && trace == old(trace) + [Configured]
    {
      if attrs.sign.None? {
        return Fail(NotImplemented);
      }
      if attrs.conductor.None? {
        return Fail(AttributeError("conductor"));
      }
      if attrs.gammaV.None? {
        return Fail(AttributeError("gammaV"));
      }
      if attrs.motivicWeight.None? {
        return Fail(AttributeError("motivic_weight"));
      }
      var cfg := Dokchitser(attrs.conductor.value, attrs.gammaV.value, attrs.motivicWeight.value, attrs.sign.value);
      attrs := attrs.(ld := Some(Session(cfg, None, true)));
      trace := trace + [Configured];
      outcome := Pass;
    }

    /** Ask the solver how many coefficients are needed at the evaluation
        height, opening a session first when there is none. */
    method SetNumberOfCoefficients(ext: Externals) returns (outcome: Outcome<Error>)
      modifies this
      ensures old(attrs).ld.None? && SessionArguments(old(attrs)).Err? ==>
        && outcome == Fail(SessionArguments(old(attrs)).error)
        && attrs == old(attrs) && trace == old(trace)
      ensures old(attrs).ld.Some? && old(attrs).maxImaginaryPart.None? ==>
        && outcome == Fail(AttributeError("max_imaginary_part"))
        && attrs == old(attrs) && trace == old(trace)
      ensures old(attrs).ld.None? && SessionArguments(old(attrs)).Ok? && old(attrs).maxImaginaryPart.None? ==>
        && outcome == Fail(AttributeError("max_imaginary_part"))
        && attrs == old(attrs).(ld := Some(Session(SessionArguments(old(attrs)).value, None, true)))
        && trace == old(trace) + [Configured]
      ensures old(attrs).ld.Some? && old(attrs).maxImaginaryPart.Some? ==>
        var h := old(attrs).maxImaginaryPart.value;
        && outcome == Pass
        && attrs == old(attrs).(ld := Some(old(attrs).ld.value.(maxImaginaryPart := Some(h))),
                                numcoeff := Some(ext.numCoeffs(old(attrs).ld.value.config, h)))
        && trace == old(trace) + [Counted]
      ensures old(attrs).ld.None? && SessionArguments(old(attrs)).Ok? && old(attrs).maxImaginaryPart.Some? ==>
        var h := old(attrs).maxImaginaryPart.value;
        var cfg := SessionArguments(old(attrs)).value;
        && outcome == Pass
        && attrs == old(attrs).(ld := Some(Session(cfg, Some(h), true)),
                                numcoeff := Some(ext.numCoeffs(cfg, h)))
        && trace == old(trace) + [Configured, Counted]
    {
      if attrs.ld.None? {
        outcome := SetDokchitserLfunction();
        if outcome.Fail? {
          return;
        }
      }
      if attrs.maxImaginaryPart.None? {
        return Fail(AttributeError("max_imaginary_part"));
      }
      var h := attrs.maxImaginaryPart.value;
      attrs := attrs.(ld := Some(attrs.ld.value.(maxImaginaryPart := Some(h))));
      attrs := attrs.(numcoeff := Some(ext.numCoeffs(attrs.ld.value.config, h)));
      trace := trace + [Counted];
      outcome := Pass;
    }

    /** Quit the solver session. */
    method QuitSession()
      requires attrs.ld.Some?
      modifies this
      ensures attrs == old(attrs).(ld := Some(old(attrs).ld.value.(alive := false)))
      ensures trace == old(trace) + [Closed]
    {
      attrs := attrs.(ld := Some(attrs.ld.value.(alive := false)));
      trace := trace + [Closed];
    }

    /** The root number; unassigned, it raises AttributeError. */
    function RootNumber(): (r: Result<Complex, Error>)
      reads this
      ensures r.Ok? <==> attrs.sign.Some?
      ensures r.Ok? ==> r.value == attrs.sign.value
      ensures r.Err? ==> r.error == AttributeError("sign")
    {
      if attrs.sign.Some? then Ok(attrs.sign.value) else Err(AttributeError("sign"))
    }

    /** The dimension (the degree of the L-function); unassigned, it raises AttributeError. */
    function Dimension(): (r: Result<nat, Error>)
      reads this
      ensures r.Ok? <==> attrs.dim.Some?
      ensures r.Ok? ==> r.value == attrs.dim.value
      ensures r.Err? ==> r.error == AttributeError("dim")
    {
      if attrs.dim.Some? then Ok(attrs.dim.value) else Err(AttributeError("dim"))
    }
  }
}
