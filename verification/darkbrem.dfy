/**
 * Configuration and cross section of the dark-brem vertex-library model
 * (`DarkBremVertexLibraryModel`): the method name, the threshold clamped to
 * the pair-production threshold of the A', the vertex library it loads, and
 * `ComputeCrossSectionPerAtom` with its energy cuts and its clamp.
 *
 * Masses are in GeV, as the model converts them; the two numerical
 * integrals (the form factor `Chi` and the differential cross section
 * `DiffCross`) arrive as functions of their integration problem.
 */
module DarkBrem {
  import opened Wrappers
  import opened Parameters
  import opened FourVector
  import opened VertexLibrary

  /** `DarkBremMethod`: how a library vertex is adapted to the actual electron energy. */
  datatype Method = ForwardOnly | CmScaling | Undefined

  /** The enum's numeric values. */
  function MethodCode(m: Method): int {
    match m
    case ForwardOnly => 1
    case CmScaling => 2
    case Undefined => 3
  }

  function MethodName(m: Method): string {
    match m
    case ForwardOnly => "forward_only"
    case CmScaling => "cm_scaling"
    case Undefined => "undefined"
  }

  /** The constructor's if-chain on the configured method name. */
  function ParseMethod(name: string): (r: Option<Method>)
    ensures r.Some? <==> name == "forward_only" || name == "cm_scaling" || name == "undefined"
  {
    if name == "forward_only" then Some(ForwardOnly)
    else if name == "cm_scaling" then Some(CmScaling)
    else if name == "undefined" then Some(Undefined)
    else None
  }

  /** Each method is recognised by its own name, and only by it. */
  lemma ParseMethodName(m: Method, name: string)
    ensures ParseMethod(MethodName(m)) == Some(m)
    ensures ParseMethod(name) == Some(m) ==> name == MethodName(m)
  {
  }

  /** The member initialisers: method `undefined` and a new electron on every dark brem. */
  const DefaultMethod: Method := Undefined
  const DefaultAlwaysCreateNewElectron: bool := true

  /** The A' and electron masses, in GeV. */
  datatype Masses = Masses(aPrime: real, electron: real)

  datatype Model = Model(
    scaling: Method,
    methodName: string,
    threshold: real,
    epsilon: real,
    libraryPath: string,
    alwaysCreateNewElectron: bool,
    library: Library)

  function Max(a: real, b: real): (r: real)
    ensures r >= a && r >= b && (r == a || r == b)
  {
    if a < b then b else a
  }

  /** The configured method name is present, a string, and one of the three methods. */
  predicate MethodRead(params: Parameters) {
    GetString(params, "method").Ok? && ParseMethod(GetString(params, "method").value).Some?
  }

  function ThresholdRead(params: Parameters): Result<real> { GetDouble(params, "threshold") }
  function EpsilonRead(params: Parameters): Result<real> { GetDouble(params, "epsilon") }
  function PathRead(params: Parameters): Result<string> { GetString(params, "library_path") }

  /** `SetMadGraphDataLibrary` on the configured path. */
  function LibraryLoad(params: Parameters, masses: Masses, listing: string -> Option<seq<DirEntry>>, parse: RowParser)
    : Result<seq<Bin>>
    requires PathRead(params).Ok?
  {
    LoadBins(PathRead(params).value, listing(PathRead(params).value), parse, masses.aPrime)
  }

  /**
   * The constructor. `listing(path)` is the directory at `path` (`None` when
   * it does not open), `parse` reads an LHE line and `uniform` supplies the
   * `G4UniformRand` draws of `MakePlaceholders`.
   */
  function Construct(
    params: Parameters, masses: Masses, listing: string -> Option<seq<DirEntry>>,
    parse: RowParser, uniform: nat -> real): (r: Result<Model>)
    requires forall k: nat :: 0.0 <= uniform(k) < 1.0
    ensures GetString(params, "method").Err? ==> r == Err(GetString(params, "method").error)
    ensures GetString(params, "method").Ok? && ParseMethod(GetString(params, "method").value).None?
      ==> r == Err("InvalidMethod")
    ensures r.Ok? ==>
      && GetString(params, "method") == Ok(r.value.methodName)
      && ParseMethod(r.value.methodName) == Some(r.value.scaling)
      && GetDouble(params, "threshold").Ok?
      && r.value.threshold == Max(GetDouble(params, "threshold").value, 2.0 * masses.aPrime)
      && GetDouble(params, "epsilon") == Ok(r.value.epsilon)
      && GetString(params, "library_path") == Ok(r.value.libraryPath)
      && LoadBins(r.value.libraryPath, listing(r.value.libraryPath), parse, masses.aPrime) == Ok(r.value.library.bins)
      && r.value.alwaysCreateNewElectron
      && Valid(r.value.library)
      && r.value.library.maxIterations == MinSize(r.value.library.bins)
    ensures MethodRead(params) && ThresholdRead(params).Err? ==> r == Err(ThresholdRead(params).error)
    ensures MethodRead(params) && ThresholdRead(params).Ok? && EpsilonRead(params).Err?
      ==> r == Err(EpsilonRead(params).error)
    ensures MethodRead(params) && ThresholdRead(params).Ok? && EpsilonRead(params).Ok? && PathRead(params).Err?
      ==> r == Err(PathRead(params).error)
    ensures MethodRead(params) && ThresholdRead(params).Ok? && EpsilonRead(params).Ok? && PathRead(params).Ok?
            && LibraryLoad(params, masses, listing, parse).Err?
      ==> r == Err(LibraryLoad(params, masses, listing, parse).error)
    ensures r.Ok? <==> && MethodRead(params) && ThresholdRead(params).Ok? && EpsilonRead(params).Ok?
                       && PathRead(params).Ok? && LibraryLoad(params, masses, listing, parse).Ok?
  {
    var name :- GetString(params, "method");
    var scaling :- if ParseMethod(name).Some? then Ok(ParseMethod(name).value) else Err("InvalidMethod");
    var threshold :- GetDouble(params, "threshold");
    var epsilon :- GetDouble(params, "epsilon");
    var path :- GetString(params, "library_path");
    var bins :- LoadBins(path, listing(path), parse, masses.aPrime);
    Ok(Model(scaling, name, Max(threshold, 2.0 * masses.aPrime), epsilon, path,
      DefaultAlwaysCreateNewElectron, MakePlaceholders(bins, uniform)))
  }

  // ---------------------------------------------------------------------
  // Cross section
  // ---------------------------------------------------------------------

  /** CLHEP units: energies in MeV, areas in mm^2. */
  const KeV: real := 0.001
  const GeV: real := 1000.0
  const Picobarn: real := 0.0000000000000000000000000000000001
  const GeVToPb: real := 389400000.0
  const AlphaEW: real := 1.0 / 137.0

  /** The form-factor integral over t in [tmin, tmax] for a nucleus (A, Z) at energy e0. */
  datatype ChiQuery = ChiQuery(a: real, z: real, e0: real, ma: real, mel: real, tmin: real, tmax: real)

  /** The integral of dsigma/dx over x in [xmin, xmax]. */
  datatype DiffCrossQuery = DiffCrossQuery(e0: real, ma: real, mel: real, xmin: real, xmax: real)

  /** The values the adaptive integrations return. */
  datatype Integrals = Integrals(chi: ChiQuery -> real, diffCross: DiffCrossQuery -> real)

  /** The upper limit in x: one minus the larger mass, relative to the energy. */
  function XMax(e0: real, ma: real, mel: real): real
    requires e0 > 0.0
  {
    if mel / e0 > ma / e0 then 1.0 - mel / e0 else 1.0 - ma / e0
  }

  lemma XMaxByLargerMass(e0: real, ma: real, mel: real)
    requires e0 > 0.0
    ensures XMax(e0, ma, mel) == 1.0 - Max(ma, mel) / e0
  {
    if mel > ma {
      DivideLess(ma, mel, e0);
    } else {
      DivideAtMost(mel, ma, e0);
    }
  }

  lemma DivideLess(a: real, b: real, c: real)
    requires a < b && c > 0.0
    ensures a / c < b / c
  {
    var q := b / c - a / c;
    assert q * c == b - a;
    if q <= 0.0 {
      if q < 0.0 {
        MulPositive(-q, c);
      }
      assert false;
    }
  }

  lemma DivideAtMost(a: real, b: real, c: real)
    requires a <= b && c > 0.0
    ensures a / c <= b / c
  {
    if a < b {
      DivideLess(a, b, c);
    }
  }

  function ChiQueryFor(masses: Masses, a: real, z: real, e0: real): (q: ChiQuery)
    requires e0 > 0.0
    ensures q.tmin * (4.0 * e0 * e0) == q.ma * q.ma * q.ma * q.ma
    ensures q.tmax == q.ma * q.ma
  {
    var ma := masses.aPrime;
    SquarePositive(e0);
    ChiQuery(a, z, e0, ma, masses.electron, ma * ma * ma * ma / (4.0 * e0 * e0), ma * ma)
  }

  /** The product of the constants, the mixing strength squared and the two integrals. */
  function RawCrossSection(epsilon: real, chi: real, dsdx: real): real {
    GeVToPb * 4.0 * AlphaEW * AlphaEW * AlphaEW * epsilon * epsilon * chi * dsdx * Picobarn
  }

  /**
   * `ComputeCrossSectionPerAtom(ke, A, Z)` with `ke` in MeV: zero below 1 keV
   * and below the threshold, otherwise the product above, clamped at zero.
   */
  function CrossSectionPerAtom(model: Model, masses: Masses, ints: Integrals, ke: real, a: real, z: real)
    : (r: real)
    ensures r >= 0.0
    ensures ke < KeV ==> r == 0.0
    ensures ke / GeV < model.threshold ==> r == 0.0
  {
    if ke < KeV then 0.0
    else
      var e0 := ke / GeV;
      if e0 < model.threshold then 0.0
      else
        var chi := ints.chi(ChiQueryFor(masses, a, z, e0));
        var dsdx := ints.diffCross(DiffCrossQuery(e0, masses.aPrime, masses.electron, 0.0, XMax(e0, masses.aPrime, masses.electron)));
        var cross := RawCrossSection(model.epsilon, chi, dsdx);
        if cross < 0.0 then 0.0 else cross
  }

  /**
   * Above the cuts the cross section is the clamped product of the integrals
   * over the limits the model sets: t from MA^4 / (4 E0^2) to MA^2, x from 0
   * to 1 - max(Mel, MA) / E0.
   */
  lemma CrossSectionAboveCuts(model: Model, masses: Masses, ints: Integrals, ke: real, a: real, z: real)
    requires ke >= KeV && ke / GeV >= model.threshold
    ensures var e0 := ke / GeV;
      && e0 > 0.0
      && var chi := ints.chi(ChiQueryFor(masses, a, z, e0));
      && var dsdx := ints.diffCross(DiffCrossQuery(e0, masses.aPrime, masses.electron, 0.0,
           1.0 - Max(masses.aPrime, masses.electron) / e0));
      CrossSectionPerAtom(model, masses, ints, ke, a, z) == Max(0.0, RawCrossSection(model.epsilon, chi, dsdx))
  {
    XMaxByLargerMass(ke / GeV, masses.aPrime, masses.electron);
  }

  /** The cross section scales with the square of the mixing strength. */
  lemma CrossSectionScalesAsEpsilonSquared(model: Model, masses: Masses, ints: Integrals, ke: real, a: real, z: real, k: real)
    ensures CrossSectionPerAtom(model.(epsilon := k * model.epsilon), masses, ints, ke, a, z)
      == k * k * CrossSectionPerAtom(model, masses, ints, ke, a, z)
  {
    if ke >= KeV && ke / GeV >= model.threshold {
      var e0 := ke / GeV;
      var chi := ints.chi(ChiQueryFor(masses, a, z, e0));
      var dsdx := ints.diffCross(DiffCrossQuery(e0, masses.aPrime, masses.electron, 0.0, XMax(e0, masses.aPrime, masses.electron)));
      var c := GeVToPb * 4.0 * AlphaEW * AlphaEW * AlphaEW * chi * dsdx * Picobarn;
      RawIsScaled(model.epsilon, chi, dsdx, c);
      RawIsScaled(k * model.epsilon, chi, dsdx, c);
      ClampScaled(k, model.epsilon, c);
    }
  }

  lemma RawIsScaled(epsilon: real, chi: real, dsdx: real, c: real)
    requires c == GeVToPb * 4.0 * AlphaEW * AlphaEW * AlphaEW * chi * dsdx * Picobarn
    ensures RawCrossSection(epsilon, chi, dsdx) == epsilon * epsilon * c
  {
  }

  /** `max(0, (k e)^2 c) == k^2 max(0, e^2 c)`. */
  lemma ClampScaled(k: real, e: real, c: real)
    ensures (if (k * e) * (k * e) * c < 0.0 then 0.0 else (k * e) * (k * e) * c)
      == k * k * (if e * e * c < 0.0 then 0.0 else e * e * c)
  {
    var kk := k * k;
    var ee := e * e;
    assert (k * e) * (k * e) * c == kk * (ee * c);
    SquareNonNegative(k);
    var x := ee * c;
    if x < 0.0 {
      if kk > 0.0 {
        MulPositive(kk, -x);
      }
    } else if x > 0.0 {
      if kk > 0.0 {
        MulPositive(kk, x);
      }
    }
  }

  /** A model built by the constructor gives no cross section below twice the A' mass. */
  lemma NoCrossSectionBelowPairThreshold(
    params: Parameters, masses: Masses, listing: string -> Option<seq<DirEntry>>,
    parse: RowParser, uniform: nat -> real, ints: Integrals, ke: real, a: real, z: real)
    requires forall k: nat :: 0.0 <= uniform(k) < 1.0
    requires Construct(params, masses, listing, parse, uniform).Ok?
    requires ke / GeV < 2.0 * masses.aPrime
    ensures CrossSectionPerAtom(Construct(params, masses, listing, parse, uniform).value, masses, ints, ke, a, z) == 0.0
  {
  }
}
