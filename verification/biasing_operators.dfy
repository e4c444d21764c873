/**
 * The cross-section biasing operators of the simulation: photo-nuclear,
 * dark bremsstrahlung, neutron inelastic, K0-long inelastic and gamma to
 * muon pair. Each is asked, at every step of a track in its volume, whether
 * to bias the process that is calling it. When it does, it scales the
 * unbiased cross section, the inverse of the process's current interaction
 * length, by its factor.
 *
 * The photo-nuclear operator can also lower the gamma conversion cross
 * section so that the photon's total interaction rate stays the same.
 */
module BiasingOperators {
  import opened Wrappers
  import opened Parameters
  import opened XsecBiasing

  /** An interaction length: Geant4 reports a positive length, `DBL_MAX` when the process cannot happen. */
  type Length = x: real | x > 0.0 witness 1.0

  /** The fields of a `G4Track` the operators read. */
  datatype Track = Track(parentId: int, kineticEnergy: real)

  /** The wrapped process that asks for a proposal: its name and current interaction length. */
  datatype Caller = Caller(process: string, length: Length)

  /** The answer to the caller: no biasing (a null operation) or the operation to apply. */
  datatype Proposal = NoBias | Bias(operation: Operation)

  datatype Kind = PhotoNuclear | DarkBrem | NeutronInelastic | K0LongInelastic | GammaToMuPair

  /**
   * `getParticleToBias` of each operator: always a particle the base class
   * finds a process manager for, and a photon exactly for the two photon
   * operators.
   */
  function ParticleToBias(k: Kind): (p: string)
    ensures KnownParticle(p)
    ensures p == "gamma" <==> k == PhotoNuclear || k == GammaToMuPair
  {
    match k
    case PhotoNuclear => "gamma"
    case DarkBrem => "e-"
    case NeutronInelastic => "neutron"
    case K0LongInelastic => "kaon0L"
    case GammaToMuPair => "gamma"
  }

  /**
   * `getProcessToBias` of each operator. The dark-brem process is named by
   * `G4eDarkBremsstrahlung::PROCESS_NAME`, whose value is the parameter
   * `darkBremProcess`. No operator other than dark brem asks for the
   * conversion process, which only the photo-nuclear down-bias touches.
   */
  function ProcessToBias(k: Kind, darkBremProcess: string): (p: string)
    ensures k != DarkBrem ==> p != ConversionProcess
    ensures k == DarkBrem ==> p == darkBremProcess
  {
    match k
    case PhotoNuclear => PhotoNuclearProcess
    case DarkBrem => darkBremProcess
    case NeutronInelastic => "neutronInelastic"
    case K0LongInelastic => "kaon0LInelastic"
    case GammaToMuPair => "GammaToMuPair"
  }

  /**
   * Distinct operators bias distinct processes, as long as the dark-brem
   * process is not named like one of the fixed ones.
   */
  lemma ProcessToBiasDistinct(k1: Kind, k2: Kind, darkBremProcess: string)
    requires darkBremProcess != PhotoNuclearProcess && darkBremProcess != "neutronInelastic"
    requires darkBremProcess != "kaon0LInelastic" && darkBremProcess != "GammaToMuPair"
    ensures ProcessToBias(k1, darkBremProcess) == ProcessToBias(k2, darkBremProcess) <==> k1 == k2
  {
  }

  const PhotoNuclearProcess := "photonNuclear"
  const ConversionProcess := "conv"

  /**
   * Every operator targets a particle whose process manager the base class
   * finds, so its run set-up depends only on the shared data.
   */
  lemma OperatorsTargetKnownParticles(k: Kind, darkBremProcess: string, shared: Shared)
    ensures KnownParticle(ParticleToBias(k))
    ensures XsecStartRun(Constructed(ProcessToBias(k, darkBremProcess)), ParticleToBias(k), shared).xsecOp.Some?
            <==> Wraps(shared(ParticleToBias(k)), ProcessToBias(k, darkBremProcess))
  {
  }

  /** The cross section `BiasedXsec` is given: the unbiased one, 1/length, times the factor. */
  function Scaled(caller: Caller, factor: real): (x: real)
    ensures x * caller.length == factor
  {
    (1.0 / caller.length) * factor
  }

  /** The configuration of the three operators with only a threshold and a factor. */
  datatype ThresholdConfig = ThresholdConfig(volume: string, factor: real, threshold: real)

  /** The constructors of `NeutronInelastic`, `K0LongInelastic` and `GammaToMuPair`. */
  function ConfigureThreshold(p: Parameters): (r: Result<ThresholdConfig>)
    ensures r.Ok? <==> GetString(p, "volume").Ok? && GetDouble(p, "factor").Ok? && GetDouble(p, "threshold").Ok?
    ensures r.Ok? ==> r.value == ThresholdConfig(GetString(p, "volume").value, GetDouble(p, "factor").value, GetDouble(p, "threshold").value)
    ensures GetString(p, "volume").Err? ==> r == Err(GetString(p, "volume").error)
  {
    var volume :- GetString(p, "volume");
    var factor :- GetDouble(p, "factor");
    var threshold :- GetDouble(p, "threshold");
    Ok(ThresholdConfig(volume, factor, threshold))
  }

  /**
   * `ProposeOccurenceBiasingOperation` of the three threshold operators: a
   * track below threshold is never biased, and otherwise only the process to
   * bias is. The operation is dereferenced only in that case.
   */
  function ThresholdPropose(cfg: ThresholdConfig, op: Operator, t: Track, caller: Caller): (r: (Proposal, Operator))
    requires t.kineticEnergy >= cfg.threshold && caller.process == op.process ==> op.xsecOp.Some?
    ensures r.0.Bias? <==> t.kineticEnergy >= cfg.threshold && caller.process == op.process
    ensures r.0.NoBias? ==> r.1 == op
    ensures r.0.Bias? ==>
              && r.0.operation.name == op.xsecOp.value.name
              && r.0.operation.biasedXsec.Some? && r.0.operation.biasedXsec.value * caller.length == cfg.factor
              && r.1.xsecOp == Some(r.0.operation) && r.1.(xsecOp := op.xsecOp) == op
  {
    if t.kineticEnergy < cfg.threshold then (NoBias, op)
    else if caller.process == op.process then
      var (op1, o) := BiasedXsec(op, Scaled(caller, cfg.factor));
      (Bias(o), op1)
    else (NoBias, op)
  }

  datatype DarkBremConfig = DarkBremConfig(volume: string, factor: real, biasAll: bool)

  /** The constructor of `DarkBrem`. */
  function ConfigureDarkBrem(p: Parameters): (r: Result<DarkBremConfig>)
    ensures r.Ok? <==> GetString(p, "volume").Ok? && GetDouble(p, "factor").Ok? && GetBool(p, "bias_all").Ok?
    ensures r.Ok? ==> r.value == DarkBremConfig(GetString(p, "volume").value, GetDouble(p, "factor").value, GetBool(p, "bias_all").value)
    ensures GetString(p, "volume").Err? ==> r == Err(GetString(p, "volume").error)
  {
    var volume :- GetString(p, "volume");
    var factor :- GetDouble(p, "factor");
    var biasAll :- GetBool(p, "bias_all");
    Ok(DarkBremConfig(volume, factor, biasAll))
  }

  /**
   * `DarkBrem::ProposeOccurenceBiasingOperation`: the process to bias, and
   * then, unless every electron is biased, only a primary (parent ID 0).
   * There is no energy threshold.
   */
  function DarkBremPropose(cfg: DarkBremConfig, op: Operator, t: Track, caller: Caller): (r: (Proposal, Operator))
    requires caller.process == op.process && (cfg.biasAll || t.parentId == 0) ==> op.xsecOp.Some?
    ensures r.0.Bias? <==> caller.process == op.process && (cfg.biasAll || t.parentId == 0)
    ensures r.0.NoBias? ==> r.1 == op
    ensures r.0.Bias? ==>
              && r.0.operation.name == op.xsecOp.value.name
              && r.0.operation.biasedXsec.Some? && r.0.operation.biasedXsec.value * caller.length == cfg.factor
              && r.1.xsecOp == Some(r.0.operation) && r.1.(xsecOp := op.xsecOp) == op
  {
    if caller.process == op.process then
      if !cfg.biasAll && t.parentId != 0 then (NoBias, op)
      else
        var (op1, o) := BiasedXsec(op, Scaled(caller, cfg.factor));
        (Bias(o), op1)
    else (NoBias, op)
  }

  /** A run-header entry: `int`, `float` or `string`. */
  datatype HeaderValue = IntEntry(i: int) | FloatEntry(f: real) | StringEntry(s: string)

  type Header = map<string, HeaderValue>

  const BiasAllKey := "biasing::DarkBrem::Bias All Electrons"
  const FactorKey := "biasing::DarkBrem::Factor"
  const VolumeKey := "biasing::DarkBrem::Volume"

  /** `DarkBrem::RecordConfig`: three entries set, every other entry of the header kept. */
  function RecordDarkBrem(h: Header, cfg: DarkBremConfig): (r: Header)
    ensures r.Keys == h.Keys + {BiasAllKey, FactorKey, VolumeKey}
    ensures r[BiasAllKey] == IntEntry(if cfg.biasAll then 1 else 0)
    ensures r[FactorKey] == FloatEntry(cfg.factor)
    ensures r[VolumeKey] == StringEntry(cfg.volume)
    ensures forall k :: k in h && k != BiasAllKey && k != FactorKey && k != VolumeKey ==> r[k] == h[k]
  {
    h[BiasAllKey := IntEntry(if cfg.biasAll then 1 else 0)][FactorKey := FloatEntry(cfg.factor)][VolumeKey := StringEntry(cfg.volume)]
  }

  datatype PhotoNuclearConfig = PhotoNuclearConfig(
    volume: string, threshold: real, factor: real, downBiasConv: bool, onlyChildrenOfPrimary: bool)

  /** The constructor of `PhotoNuclear`, reading its five parameters in order. */
  function ConfigurePhotoNuclear(p: Parameters): (r: Result<PhotoNuclearConfig>)
    ensures r.Ok? <==>
              && GetString(p, "volume").Ok? && GetDouble(p, "threshold").Ok? && GetDouble(p, "factor").Ok?
              && GetBool(p, "down_bias_conv").Ok? && GetBool(p, "only_children_of_primary").Ok?
    ensures r.Ok? ==>
              r.value == PhotoNuclearConfig(
                GetString(p, "volume").value, GetDouble(p, "threshold").value, GetDouble(p, "factor").value,
                GetBool(p, "down_bias_conv").value, GetBool(p, "only_children_of_primary").value)
    ensures GetString(p, "volume").Err? ==> r == Err(GetString(p, "volume").error)
  {
    var volume :- GetString(p, "volume");
    var threshold :- GetDouble(p, "threshold");
    var factor :- GetDouble(p, "factor");
    var downBias :- GetBool(p, "down_bias_conv");
    var onlyChildren :- GetBool(p, "only_children_of_primary");
    Ok(PhotoNuclearConfig(volume, threshold, factor, downBias, onlyChildren))
  }

  /**
   * The photo-nuclear operator's state: the base operator, the conversion
   * operation (`None` for a null pointer), and the unbiased and biased
   * photo-nuclear cross sections of its last photo-nuclear proposal.
   */
  datatype PhotoNuclearState = PhotoNuclearState(op: Operator, emOp: Option<Operation>, pnUnbiased: real, pnBiased: real)

  /** A constructed photo-nuclear operator: no operations, both cross sections 0. */
  const PhotoNuclearFresh := PhotoNuclearState(Constructed(PhotoNuclearProcess), None, 0.0, 0.0)

  /**
   * `PhotoNuclear::StartRun`: the base set-up for photons, then the
   * conversion operation if conversion is wrapped; asking to down-bias an
   * unwrapped conversion is "PhotoNuclearBiasing".
   */
  function PhotoNuclearStartRun(cfg: PhotoNuclearConfig, s: PhotoNuclearState, shared: Shared): (r: Result<PhotoNuclearState>)
    ensures r.Err? <==> cfg.downBiasConv && !Wraps(shared("gamma"), ConversionProcess)
    ensures r.Err? ==> r.error == "PhotoNuclearBiasing"
    ensures r.Ok? ==> r.value.op == XsecStartRun(s.op, "gamma", shared)
    ensures r.Ok? ==> r.value.pnUnbiased == s.pnUnbiased && r.value.pnBiased == s.pnBiased
    ensures r.Ok? && Wraps(shared("gamma"), ConversionProcess) ==> r.value.emOp == Some(Operation("changeXsec-conv", None))
    ensures r.Ok? && !Wraps(shared("gamma"), ConversionProcess) ==> r.value.emOp == s.emOp
  {
    var op := XsecStartRun(s.op, "gamma", shared);
    if Wraps(op.wrapped, ConversionProcess) then Ok(s.(op := op, emOp := Some(Operation("changeXsec-conv", None))))
    else if cfg.downBiasConv then Err("PhotoNuclearBiasing")
    else Ok(s.(op := op))
  }

  /** The filters before the process is looked at: children of the primary only, if asked, and the threshold. */
  predicate PassesFilters(cfg: PhotoNuclearConfig, t: Track) {
    !(cfg.onlyChildrenOfPrimary && t.parentId != 1) && t.kineticEnergy >= cfg.threshold
  }

  function Max(a: real, b: real): real {
    if a >= b then a else b
  }

  /**
   * `PhotoNuclear::ProposeOccurenceBiasingOperation`. The photo-nuclear
   * process gets its scaled cross section, which is remembered. Conversion,
   * when down-biased, gets its unbiased cross section lowered by what
   * photo-nuclear gained, but never below the unbiased photo-nuclear one.
   */
  function PhotoNuclearPropose(cfg: PhotoNuclearConfig, s: PhotoNuclearState, t: Track, caller: Caller)
    : (r: (Proposal, PhotoNuclearState))
    requires PassesFilters(cfg, t) && caller.process == PhotoNuclearProcess ==> s.op.xsecOp.Some?
    requires PassesFilters(cfg, t) && caller.process != PhotoNuclearProcess && caller.process == ConversionProcess && cfg.downBiasConv
             ==> s.emOp.Some?
    ensures r.0.Bias? <==>
              PassesFilters(cfg, t)
              && (caller.process == PhotoNuclearProcess || (caller.process == ConversionProcess && cfg.downBiasConv))
    ensures r.0.NoBias? ==> r.1 == s
    ensures r.0.Bias? && caller.process == PhotoNuclearProcess ==>
              && r.1.pnUnbiased * caller.length == 1.0
              && r.1.pnBiased * caller.length == cfg.factor
              && r.0.operation == Operation(s.op.xsecOp.value.name, Some(r.1.pnBiased))
              && r.1.op.xsecOp == Some(r.0.operation) && r.1.op.(xsecOp := s.op.xsecOp) == s.op
              && r.1.emOp == s.emOp
    ensures r.0.Bias? && caller.process != PhotoNuclearProcess ==>
              && r.0.operation.name == s.emOp.value.name && r.0.operation.biasedXsec.Some?
              && var em := r.0.operation.biasedXsec.value;
              && em >= s.pnUnbiased
              && em * caller.length >= 1.0 + (s.pnUnbiased - s.pnBiased) * caller.length
              && (em == s.pnUnbiased || em * caller.length == 1.0 + (s.pnUnbiased - s.pnBiased) * caller.length)
              && r.1 == s.(emOp := Some(r.0.operation))
  {
    if cfg.onlyChildrenOfPrimary && t.parentId != 1 then (NoBias, s)
    else if t.kineticEnergy < cfg.threshold then (NoBias, s)
    else if caller.process == PhotoNuclearProcess then
      var unbiased := Scaled(caller, 1.0);
      var biased := unbiased * cfg.factor;
      var (op1, o) := BiasedXsec(s.op, biased);
      (Bias(o), s.(op := op1, pnUnbiased := unbiased, pnBiased := biased))
    else if caller.process == ConversionProcess && cfg.downBiasConv then
      var emUnbiased := Scaled(caller, 1.0);
      var emBiased := Max(emUnbiased + s.pnUnbiased - s.pnBiased, s.pnUnbiased);
      var o := s.emOp.value.(biasedXsec := Some(emBiased));
      (Bias(o), s.(emOp := Some(o)))
    else (NoBias, s)
  }

  /** The unbiased cross section of the caller's process, 1/length. */
  function Rate(caller: Caller): (x: real)
    ensures x * caller.length == 1.0 && x > 0.0
  {
    Scaled(caller, 1.0)
  }

  /** From `x * length == y * length + z` to `x == y + z / length`, one step of the proofs below. */
  lemma DivideByLength(x: real, c: Caller, rhs: real)
    requires x * c.length >= rhs
    ensures x >= rhs * Rate(c)
  {
    var u := Rate(c);
    assert x * c.length * u >= rhs * u;
    assert c.length * u == 1.0;
    assert x * (c.length * u) == x * c.length * u;
  }

  /**
   * The conversion down-bias, after a photo-nuclear proposal for the same
   * photon: the biased total rate (conversion plus photo-nuclear) never
   * falls below the unbiased one, and equals it unless the clamp at the
   * unbiased photo-nuclear rate applies. The conversion rate itself never
   * falls below the unbiased photo-nuclear rate.
   */
  lemma {:induction false} DownBiasKeepsTotalRate(cfg: PhotoNuclearConfig, s: PhotoNuclearState, t: Track, pn: Length, conv: Length)
    requires PassesFilters(cfg, t) && cfg.downBiasConv && s.op.xsecOp.Some? && s.emOp.Some?
    ensures var c1 := Caller(PhotoNuclearProcess, pn);
      var c2 := Caller(ConversionProcess, conv);
      var (p1, s1) := PhotoNuclearPropose(cfg, s, t, c1);
      var (p2, s2) := PhotoNuclearPropose(cfg, s1, t, c2);
      && p1.Bias? && p2.Bias? && p2.operation.biasedXsec.Some?
      && s1.pnUnbiased == Rate(c1)
      && p2.operation.biasedXsec.value >= Rate(c1)
      && p2.operation.biasedXsec.value + s1.pnBiased >= Rate(c2) + Rate(c1)
      && (Rate(c2) + Rate(c1) - s1.pnBiased >= Rate(c1) ==>
            p2.operation.biasedXsec.value + s1.pnBiased == Rate(c2) + Rate(c1))
  {
    var c1 := Caller(PhotoNuclearProcess, pn);
    var c2 := Caller(ConversionProcess, conv);
    var (p1, s1) := PhotoNuclearPropose(cfg, s, t, c1);
    var (p2, s2) := PhotoNuclearPropose(cfg, s1, t, c2);
    UniqueRate(s1.pnUnbiased, c1);
    var em := p2.operation.biasedXsec.value;
    var d := 1.0 + (s1.pnUnbiased - s1.pnBiased) * conv;
    DivideByLength(em, c2, d);
    assert d * Rate(c2) == Rate(c2) + (s1.pnUnbiased - s1.pnBiased) * (conv * Rate(c2));
    if em != s1.pnUnbiased {
      assert em * conv == d;
      UniqueRate2(em, d, c2);
    }
  }

  /** The only `x` with `x * length == 1` is the rate. */
  lemma UniqueRate(x: real, c: Caller)
    requires x * c.length == 1.0
    ensures x == Rate(c)
  {
    var u := Rate(c);
    assert (x - u) * c.length == 0.0;
  }

  /** The only `x` with `x * length == d` is `d` times the rate. */
  lemma UniqueRate2(x: real, d: real, c: Caller)
    requires x * c.length == d
    ensures x == d * Rate(c)
  {
    var u := Rate(c);
    assert (x - d * u) * c.length == x * c.length - d * (u * c.length);
  }

  /**
   * The threshold operators and the dark-brem operator biasing every
   * electron apply the same rule once the track passes the threshold: the
   * process to bias, scaled by the factor.
   */
  lemma ThresholdAgreesWithDarkBrem(factor: real, volume: string, op: Operator, t: Track, caller: Caller)
    requires op.xsecOp.Some? && t.kineticEnergy >= 0.0
    ensures ThresholdPropose(ThresholdConfig(volume, factor, 0.0), op, t, caller)
            == DarkBremPropose(DarkBremConfig(volume, factor, true), op, t, caller)
  {
  }

  /**
   * `GammaToMuPair` after the run set-up, once the photon's wrapped
   * processes include "GammaToMuPair": a track at or above threshold that
   * steps through that process gets the operation "changeXsec-GammaToMuPair"
   * carrying the scaled cross section, and nothing else is biased.
   */
  lemma GammaToMuPairProposal(cfg: ThresholdConfig, shared: Shared, t: Track, caller: Caller)
    requires Wraps(shared("gamma"), "GammaToMuPair")
    ensures var op := XsecStartRun(Constructed(ProcessToBias(GammaToMuPair, "")), ParticleToBias(GammaToMuPair), shared);
      var p := ThresholdPropose(cfg, op, t, caller).0;
      && (p.Bias? <==> t.kineticEnergy >= cfg.threshold && caller.process == "GammaToMuPair")
      && (p.Bias? ==> p.operation == Operation("changeXsec-GammaToMuPair", Some(Scaled(caller, cfg.factor))))
  {
  }

  /**
   * A factor of 1: the photo-nuclear proposal is the unbiased cross section,
   * and a conversion proposal that follows it for the same photon is the
   * unbiased conversion cross section, except that the clamp raises a
   * conversion rate below the photo-nuclear one up to it.
   */
  lemma {:induction false} UnitFactorIsUnbiased(cfg: PhotoNuclearConfig, s: PhotoNuclearState, t: Track, pn: Length, conv: Length)
    requires PassesFilters(cfg, t) && cfg.downBiasConv && cfg.factor == 1.0 && s.op.xsecOp.Some? && s.emOp.Some?
    ensures var c1 := Caller(PhotoNuclearProcess, pn);
      var c2 := Caller(ConversionProcess, conv);
      var (p1, s1) := PhotoNuclearPropose(cfg, s, t, c1);
      && p1.Bias? && p1.operation.biasedXsec == Some(Rate(c1))
      && (Rate(c2) >= Rate(c1) ==>
            PhotoNuclearPropose(cfg, s1, t, c2).0 == Bias(s.emOp.value.(biasedXsec := Some(Rate(c2)))))
      && (Rate(c2) < Rate(c1) ==>
            PhotoNuclearPropose(cfg, s1, t, c2).0 == Bias(s.emOp.value.(biasedXsec := Some(Rate(c1)))))
  {
    var c1 := Caller(PhotoNuclearProcess, pn);
    var c2 := Caller(ConversionProcess, conv);
    var (p1, s1) := PhotoNuclearPropose(cfg, s, t, c1);
    UniqueRate(s1.pnUnbiased, c1);
    UniqueRate(s1.pnBiased, c1);
    DownBiasKeepsTotalRate(cfg, s, t, pn, conv);
  }
}
