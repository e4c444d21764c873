/**
 * `SimParticle`: the persisted record of a simulated particle, and the
 * classification of Geant4 process names into its `ProcessType` enum.
 */
module SimParticle {
  import opened Strings

  /** `ProcessType`, in declaration order (codes 0 to 11). */
  datatype ProcessType =
    | Unknown | Annihil | Compt | Conv | ElectronNuclear | EBrem | EIoni
    | Msc | Phot | PhotonNuclear | GammaToMuPair | EDarkBrem

  function Code(p: ProcessType): (c: nat)
    ensures c <= 11
    ensures c == 0 <==> p == Unknown
  {
    match p
    case Unknown => 0
    case Annihil => 1
    case Compt => 2
    case Conv => 3
    case ElectronNuclear => 4
    case EBrem => 5
    case EIoni => 6
    case Msc => 7
    case Phot => 8
    case PhotonNuclear => 9
    case GammaToMuPair => 10
    case EDarkBrem => 11
  }

  lemma CodeInjective(p: ProcessType, q: ProcessType)
    ensures Code(p) == Code(q) ==> p == q
  {
  }

  /** The Geant4 process name `createProcessTypeMap` files each type under. */
  function ProcessName(p: ProcessType): string
    requires p != Unknown
  {
    match p
    case Annihil => "annihil"
    case Compt => "compt"
    case Conv => "conv"
    case ElectronNuclear => "electronNuclear"
    case EBrem => "eBrem"
    case EIoni => "eIoni"
    case Msc => "msc"
    case Phot => "phot"
    case PhotonNuclear => "photonNuclear"
    case GammaToMuPair => "GammaToMuPair"
    case EDarkBrem => "eDarkBrem"
  }

  /** `PROCESS_MAP` as a map. */
  const ProcessMap: map<string, ProcessType> := map[
    "eBrem" := EBrem, "conv" := Conv, "annihil" := Annihil, "compt" := Compt,
    "phot" := Phot, "eIoni" := EIoni, "msc" := Msc, "photonNuclear" := PhotonNuclear,
    "electronNuclear" := ElectronNuclear, "GammaToMuPair" := GammaToMuPair, "eDarkBrem" := EDarkBrem]

  /** The map files exactly the eleven named types, each under its own name. */
  lemma ProcessMapIsNames(name: string)
    ensures name in ProcessMap <==> exists p :: p != Unknown && ProcessName(p) == name
    ensures forall p :: p != Unknown ==> ProcessName(p) in ProcessMap && ProcessMap[ProcessName(p)] == p
  {
    if name in ProcessMap {
      var p := ProcessMap[name];
      assert p != Unknown && ProcessName(p) == name;
    }
  }

  /**
   * The name looked up for a process wrapped for biasing: the text after the
   * first '(' without the final character. Without a '(' the search yields
   * `npos`, so `pos` wraps to 0; with '(' last the length wraps and the
   * substring is empty.
   */
  function Unwrap(name: string): (r: string)
    ensures |r| < |name| || r == ""
  {
    var pos := IndexOfChar(name, '(') + 1;
    if pos < |name| then name[pos..|name| - 1] else ""
  }

  /** `findProcessType`. */
  function FindProcessType(name: string): (r: ProcessType)
    ensures !Contains(name, "biasWrapper") ==> (r != Unknown <==> name in ProcessMap)
  {
    var key := if Contains(name, "biasWrapper") then Unwrap(name) else name;
    if key in ProcessMap then ProcessMap[key] else Unknown
  }

  /** Every named type is found under its name; every other unwrapped name is unknown. */
  lemma FindProcessTypeByName(p: ProcessType)
    requires p != Unknown
    ensures FindProcessType(ProcessName(p)) == p
  {
    NotWrappedWithoutW(ProcessName(p));
    ProcessMapIsNames(ProcessName(p));
  }

  /** A name without a 'W' cannot mention "biasWrapper". */
  lemma NotWrappedWithoutW(s: string)
    requires 'W' !in s
    ensures !Contains(s, "biasWrapper")
  {
    forall i: nat | i <= |s|
      ensures !OccursAt(s, "biasWrapper", i)
    {
      if i + 11 <= |s| {
        assert s[i..i + 11][4] == s[i + 4];
      }
    }
  }

  /** A wrapped process classifies like the process it wraps. */
  lemma BiasWrapperClassifiesLikeWrapped(inner: string)
    requires !Contains(inner, "biasWrapper")
    ensures FindProcessType("biasWrapper(" + inner + ")") == FindProcessType(inner)
  {
    var name := "biasWrapper(" + inner + ")";
    assert OccursAt(name, "biasWrapper", 0);
    assert IndexOfChar(name, '(') == 11 by {
      assert name[11] == '(';
      assert '(' !in name[..11];
    }
    assert Unwrap(name) == inner;
  }

  /** The record; `process_type_` is an `int` holding a `ProcessType` code or -1. */
  datatype Particle = Particle(
    energy: real, pdgId: int, genStatus: int, time: real,
    x: real, y: real, z: real, endX: real, endY: real, endZ: real,
    px: real, py: real, pz: real, endPx: real, endPy: real, endPz: real,
    mass: real, charge: real, processType: int, vertexVolume: string,
    daughters: seq<int>, parents: seq<int>)

  /** The member initialisers: everything zero or empty, generator status and process type -1. */
  const Default: Particle := Particle(
    0.0, 0, -1, 0.0, 0.0, 0.0, 0.0, 0.0, 0.0, 0.0, 0.0, 0.0, 0.0, 0.0, 0.0, 0.0,
    0.0, 0.0, -1, "", [], [])

  /** `clear`: every field back to its initial value except the process type. */
  function Clear(p: Particle): (r: Particle)
    ensures r.processType == p.processType
    ensures |r.daughters| == 0 && |r.parents| == 0
    ensures r.genStatus == -1 && r.vertexVolume == ""
    ensures r.energy == 0.0 && r.pdgId == 0 && r.time == 0.0 && r.mass == 0.0 && r.charge == 0.0
    ensures r.x == 0.0 && r.y == 0.0 && r.z == 0.0 && r.endX == 0.0 && r.endY == 0.0 && r.endZ == 0.0
    ensures r.px == 0.0 && r.py == 0.0 && r.pz == 0.0 && r.endPx == 0.0 && r.endPy == 0.0 && r.endPz == 0.0
  {
    Particle(
      0.0, 0, -1, 0.0, 0.0, 0.0, 0.0, 0.0, 0.0, 0.0, 0.0, 0.0, 0.0, 0.0, 0.0, 0.0,
      0.0, 0.0, p.processType, "", [], [])
  }

  /** A cleared particle is a default one carrying the old process type; clearing twice is clearing once. */
  lemma ClearIsDefault(p: Particle)
    ensures Clear(p) == Default.(processType := p.processType)
    ensures Clear(Clear(p)) == Clear(p)
  {
  }
}
