# GaloisRepresentation normalizer, modelled in Dafny

LMFDB's `GaloisRepresentation` turns one arithmetic object into a uniform set
of L-function invariants. The object can be an elliptic curve over Q, a
Dirichlet character, an Artin representation or an elliptic modular newform.
The invariants are degree, weights, conductor, root number, gamma shifts,
self-duality and Dirichlet coefficients. The object then asks Dokchitser's
functional-equation solver how many coefficients are needed at the height
`MaxImaginaryPart = 40`.

The project has three modules:

- `values.dfy` (`LValues`): complex numbers, the exceptions, and the four kinds
  of input. Each input is a record of the answers it gives to the
  normalizer's queries: conductor, root number, a(n), chi(m), the
  eigenvalue counts of complex conjugation, Atkin–Lehner eigenvalues. The
  module also holds the solver configuration and the `Externals` record. That
  record carries the numeric steps the normalizer does not define itself: the
  solver's coefficient count, the floating-point Gauss-sum quotient, division
  by n^e, and (-1)^(k/2).
- `normalization.dfy` (`Normalization`): the record `LRecord` that a finished
  representation holds, and one pure function per kind of input stating
  that record. `Normalize` gives the outcome of the constructor on a new
  object, which is a record or the exception it raises.
- `galois_reps.dfy` (`GaloisReps`): the class `GaloisRepresentation`.
  - Its attributes are one record value, `attrs`, which plays the object's
    attribute dictionary. An attribute not yet assigned is `None`, and
    reading it is an `AttributeError`.
  - Every Python assignment `self.x = v` is the update
    `attrs := attrs.(x := Some(v))`, in source order.
  - The appends to `gammaV`, `algebraic_coefficients` and
    `dirichlet_coefficients` are `while` loops with invariants.
  - The ghost field `trace` records the solver phases in the order they
    happen: configured, counted, coefficients pulled, closed.
  - The initialisers for curves, characters and Artin representations are
    proved to leave exactly the attributes that the matching record
    function of `Normalization` describes.
  - The newform initialiser is proved to leave the attributes that
    `ModularFormHeader` describes when the object has no sign. When the
    object already has a sign, it leaves those of `ModularFormHeader`
    followed by `WithModularFormCoefficients`, both in `GaloisReps`.

Behaviour of the code that the model follows:

- For elliptic curves and newforms the code keeps
  `len(mu_fe) + 2·len(nu_fe) == dim` (curves: `nu_fe = [1/2]`;
  newforms: `nu_fe = [(k-1)/2]`; `mu_fe = []` and dim 2 in both), not `len(mu_fe) + len(nu_fe) == dim`. Each `nu_fe` entry stands
  for two gamma shifts. The model proves `|mu_fe| + 2·|nu_fe| == dim` and
  `|gammaV| == dim` for the curve and the character.
- An input of none of the four kinds raises `AttributeError` at
  `self.level = self.conductor` (line 77), because no initialiser assigned
  a conductor.
- A newform never gets through the constructor.
  `init_elliptic_modular_form` calls the solver before it assigns `sign`, and
  `set_dokchitser_Lfunction` raises `NotImplementedError` when there is no
  sign. The model proves this. The method is also modelled for an object
  that already has a sign and gamma shifts, which gives the rest of its
  behaviour, including the `KeyError` when there is no Atkin–Lehner
  eigenvalue at the level.
- The Dirichlet coefficients of a character are chi(0), …, chi(N), so entry
  0 is chi(0) and not chi(1).
- The Artin coefficients are the representation's own list, whatever count
  the solver returned.

## Model

| member | source | states |
|---|---|---|
| Normalization.Dokchitser | lmfdb/tensor_products/galois_reps.py:236-241 | the solver is configured with no poles and no residues |
| Normalization.ValuesReal | lmfdb/tensor_products/galois_reps.py:143 | the self-duality test holds exactly when every value chi(m), 0 <= m < modulus, has imaginary part of absolute value below 0.0001 (proved through the recursive call's contract) |
| Normalization.ArtinGammaV | lmfdb/tensor_products/galois_reps.py:171-173 | Artin gamma shifts: p + m entries, zeros at positions below p, ones at positions p to p+m-1 |
| Normalization.ArtinGammaVAppend | lmfdb/tensor_products/galois_reps.py:171-173 | the list of p zeros is the start of the gamma shifts, and appending 1 adds one more eigenvalue -1 |
| Normalization.AlgebraicCoefficients | lmfdb/tensor_products/galois_reps.py:205-208 | the algebraic coefficient list has exactly N entries |
| Normalization.AlgebraicCoefficientsAppend | lmfdb/tensor_products/galois_reps.py:206-208 | the list starts empty, and appending a(n+1) to the first n coefficients gives the first n+1 |
| Normalization.AnalyticCoefficients | lmfdb/tensor_products/galois_reps.py:210-214 | there is one normalized coefficient per algebraic coefficient |
| Normalization.AnalyticCoefficientsAppend | lmfdb/tensor_products/galois_reps.py:210-214 | the list starts empty, and normalizing the next algebraic coefficient extends the normalized prefix by one entry |
| Normalization.ModularFormCoefficientEntries | lmfdb/tensor_products/galois_reps.py:204-214 | entry k-1 of the algebraic list is a(k), and entry k-1 of the normalized list is a(k) divided by k^e |
| Normalization.EllipticCurveRecord | lmfdb/tensor_products/galois_reps.py:99-116 | fixed shape: dim 2, weight 2, motivic weight 1, mu_fe [], nu_fe [1/2], gammaV [0,1]; conductor and sign come from the curve; self-dual, primitive, Langlands; type 2, period 0; N is the solver count for the final data, and coefficient n-1 is a(n) for 1 <= n <= N |
| Normalization.ValueList | lmfdb/tensor_products/galois_reps.py:147 | `ValueList(value, n)` has n entries, and entry m is value(m); DirichletCharacterRecord passes n = N+1, giving chi(0), …, chi(N) |
| Normalization.ParityShift | lmfdb/tensor_products/galois_reps.py:130-135 | the gamma shift `aa` is 0 or 1, and it is 1 exactly when the character is odd |
| Normalization.GaussFactor | lmfdb/tensor_products/galois_reps.py:130-136 | the factor `bb` has modulus 1, and it is i exactly when the character is odd (1 otherwise) |
| LValues.AnList | lmfdb/tensor_products/galois_reps.py:114 | `E.anlist(n)` has n+1 entries, and entry i is a(i) |
| Normalization.DirichletCharacterRecord | lmfdb/tensor_products/galois_reps.py:123-152 | dim 1, weights 0, conductor of the primitive character; sign is the Gauss sum over i·sqrt(q) when odd and over sqrt(q) when even; mu_fe [1] and gammaV [1] when odd, [0] and [0] when even; nu_fe []; type 2 when self-dual and 3 otherwise; period q; N from the final data; N+1 coefficients chi(0), …, chi(N) |
| Normalization.DirichletCharacterSelfDual | lmfdb/tensor_products/galois_reps.py:143 | a character's record is self-dual exactly when all its values modulo q are numerically real |
| Normalization.DirichletSelfDualCoefficientsReal | lmfdb/tensor_products/galois_reps.py:143-147 | for a character whose values repeat modulo q, a self-dual record has only numerically real coefficients |
| Normalization.ArtinRecord | lmfdb/tensor_products/galois_reps.py:161-181 | dimension, conductor, root number, mu/nu shifts and the three flags come from the representation; gammaV has one 0 per eigenvalue +1 of complex conjugation, then one 1 per eigenvalue -1; weights 0; type 0, period 0; N comes from the final data; the coefficients are the representation's own list |
| Normalization.Normalize | lmfdb/tensor_products/galois_reps.py:50-80 | the constructor succeeds exactly on curves, characters and Artin representations; a newform raises NotImplemented; any other input raises AttributeError on `conductor`; every success asked the solver with its final data; period 0 except for characters |
| GaloisReps.WithRecord | lmfdb/tensor_products/galois_reps.py:99-116 | writing a record's invariants into the attributes fills every attribute of the record and reads back as exactly that record |
| GaloisReps.ModularFormHeader | lmfdb/tensor_products/galois_reps.py:188-196 | the newform header assigns dim 2, weight k, motivic weight k-1, the level as conductor, mu_fe [] and nu_fe [(k-1)/2]; it leaves sign, gammaV, ld and numcoeff untouched; so the session can be created exactly when sign and gammaV were already there, and without a sign creating it raises NotImplemented |
| GaloisReps.WithModularFormCoefficients | lmfdb/tensor_products/galois_reps.py:199-214 | the primitive and self-dual flags are true, automorphyexp is (k-1)/2, both coefficient lists have N entries, and numcoeff, sign, gammaV and ld are untouched |
| GaloisReps.SessionArguments | lmfdb/tensor_products/galois_reps.py:229-244 | creating a session raises NotImplemented without a sign, then AttributeError naming the first missing one of conductor, gammaV and motivic_weight, in the order they are passed; it succeeds exactly when sign, conductor, gammaV and motivic weight are all set, with exactly those as the configuration |
| GaloisReps.GaloisRepresentation.constructor | lmfdb/tensor_products/galois_reps.py:48-50 | a new object has no attributes and has gone through no solver phase |
| GaloisReps.GaloisRepresentation.Init | lmfdb/tensor_products/galois_reps.py:50-80 | the outcome is Normalize's outcome; on success the attributes are Normalize's record plus the height, the original object, a closed session, level = conductor, degree = dim, no poles and no residues; root_number and dimension return sign and dim; the phases ran once in the order configure, count, pull coefficients, close; a newform leaves no session; an unrecognised input leaves only the height |
| GaloisReps.GaloisRepresentation.InitEllipticCurve | lmfdb/tensor_products/galois_reps.py:84-117 | the attributes become EllipticCurveRecord with the curve and a closed session; all other attributes are unchanged; phases in order |
| GaloisReps.GaloisRepresentation.InitDirChar | lmfdb/tensor_products/galois_reps.py:119-153 | the attributes become DirichletCharacterRecord with the character and a closed session; all other attributes are unchanged; phases in order |
| GaloisReps.GaloisRepresentation.InitArtinRep | lmfdb/tensor_products/galois_reps.py:156-182 | the attributes become ArtinRecord with degree = dimension and a closed session; the gammaV append loop builds ArtinGammaV; all other attributes are unchanged |
| GaloisReps.GaloisRepresentation.InitEllipticModularForm | lmfdb/tensor_products/galois_reps.py:184-224 | with no prior sign it raises NotImplemented (no prior gammaV: AttributeError) after assigning only the header attributes, with no phase run; otherwise the session uses the prior sign and gammaV; coefficients a(n) and a(n)/n^((k-1)/2) for the solver's N; then sign = AL[level]·(-1)^(k/2), gammaV [0,1] and the session closed, or KeyError when the level has no Atkin–Lehner eigenvalue |
| GaloisReps.GaloisRepresentation.PullModularFormCoefficients | lmfdb/tensor_products/galois_reps.py:199-214 | sets the primitive and self-dual flags and automorphyexp = (k-1)/2; its two append loops leave algebraic_coefficients = a(1..N) and dirichlet_coefficients = their normalizations; nothing else changes |
| GaloisReps.GaloisRepresentation.SetDokchitserLfunction | lmfdb/tensor_products/galois_reps.py:229-244 | with no sign it raises NotImplemented; otherwise it succeeds exactly when SessionArguments does, and then sets only `ld` to a live session with that configuration; on failure nothing changes |
| GaloisReps.GaloisRepresentation.SetNumberOfCoefficients | lmfdb/tensor_products/galois_reps.py:247-256 | with no session it first creates one and passes on that failure unchanged; without a height it raises AttributeError, keeping only the session it may just have created; otherwise it sets the height in the session and numcoeff to the solver's count for the session's configuration; only `ld` and `numcoeff` change |
| GaloisReps.GaloisRepresentation.QuitSession | lmfdb/tensor_products/galois_reps.py:117 | the session is closed; nothing else changes |
| GaloisReps.GaloisRepresentation.RootNumber | lmfdb/tensor_products/galois_reps.py:270-274 | returns `sign`, or AttributeError when it is unassigned |
| GaloisReps.GaloisRepresentation.Dimension | lmfdb/tensor_products/galois_reps.py:277-281 | returns `dim`, or AttributeError when it is unassigned |

## Left out

- The solver's internals are not modelled. Dokchitser's `num_coeffs` and the GP session are the function `Externals.numCoeffs` of the configuration and the height string, and quitting the session only marks it closed.
- Floating point is not modelled. The Gauss-sum quotient cast to a complex, the division by `n^e` and `(-1)^(k/2)` are uninterpreted functions in `Externals`.
- The arithmetic of the input objects is not modelled: root numbers, a(n), character values, Gauss sums, Atkin–Lehner eigenvalues, q-expansion embeddings. Their answers are fields of the input records.
- `F.q_expansion_embeddings(N + 1)[n][F._fi]` is the single function `WebNewForm.embeddedCoefficient(n)`, so precision and the indexing of the embedding table are not modelled.
- The `isinstance` tests against Sage and LMFDB classes are the constructors of `Thingy`. Those classes are not part of this model, and the four kinds are taken to be disjoint, so at most one initialiser runs.
- The height is the constant string "40". How it is formatted into the GP command is not modelled.
- `Lfunction()`, the `Lfunction_GaloisRep` class and the tensor-product code below line 290 are not part of this model.
- The `weight()` accessor (lines 283-287) is not modelled. It is shadowed by the `weight` attribute every initialiser assigns, so on an initialised object it cannot be called.
- Calls made on a session that has already been quit are not modelled.
- The solver calls (`Dokchitser(...)`, `_gp_eval`, `num_coeffs`, `quit`) and the input objects' queries (`conductor()`, `root_number()`, `anlist`, `gauss_sum_numerical()`, the Artin and newform accessors) are taken never to raise. The model has none of the exceptions these would propagate from lines 104-105, 114, 124-136, 163-179, 191-193, 205, 236-241 and 255-256. The only exceptions it has are those the normalizer raises itself: NotImplementedError, AttributeError and the KeyError of line 217.
- The Dirichlet values are an arbitrary function `nat -> Complex`. That they repeat modulo the modulus is the hypothesis `Periodic` of `DirichletSelfDualCoefficientsReal`.
- The model assumes the newform's weight is the integer `ZZ(F.weight())`. The Python computes (k-1)/2 for `automorphyexp` in floating point, and the model computes it as a real.
