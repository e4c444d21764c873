/**
 * `DarkBremVertexLibraryModel::GenerateChange`: drawing a vertex from the
 * library, adapting it to the incident electron's energy by the configured
 * method, and turning it into the recoil electron and the A' that conserve
 * the incident three-momentum.
 *
 * Energies of the library and the scaling formulas are in GeV, the track and
 * the particle change in MeV (the toolkit's unit), as in the model.
 */
module DarkBremChange {
  import opened Wrappers
  import opened FourVector
  import opened VertexLibrary
  import opened DarkBrem

  /** What the rest of the step needs: the accepted energy, pt, |p| and azimuth, in GeV. */
  datatype Recoil = Recoil(eAcc: real, pt: real, p: real, phi: real)

  /**
   * The energy of the library electron carried over to the actual incident
   * energy: its kinetic energy above the electron mass is scaled by the ratio
   * of the energies available above both masses.
   */
  function ScaledEnergy(masses: Masses, eLib: real, eInc: real, eSrc: real): (r: real)
    requires eSrc - masses.electron - masses.aPrime != 0.0
    ensures (r - masses.electron) * (eSrc - masses.electron - masses.aPrime)
         == (eLib - masses.electron) * (eInc - masses.electron - masses.aPrime)
  {
    var ratio := (eInc - masses.electron - masses.aPrime) / (eSrc - masses.electron - masses.aPrime);
    assert ratio * (eSrc - masses.electron - masses.aPrime) == eInc - masses.electron - masses.aPrime;
    (eLib - masses.electron) * ratio + masses.electron
  }

  /** At the energy the vertex was generated at, the library energy is kept. */
  lemma ScaledEnergyAtSource(masses: Masses, eLib: real, eSrc: real)
    requires eSrc - masses.electron - masses.aPrime != 0.0
    ensures ScaledEnergy(masses, eLib, eSrc, eSrc) == eLib
  {
  }

  /** An electron at rest in the library stays at rest; the scaling is affine with that fixed point. */
  lemma ScaledEnergyFixesRestElectron(masses: Masses, eInc: real, eSrc: real)
    requires eSrc - masses.electron - masses.aPrime != 0.0
    ensures ScaledEnergy(masses, masses.electron, eInc, eSrc) == masses.electron
  {
  }

  /** No library energy sits exactly at the sum of the masses, where the scaling divides by zero. */
  ghost predicate Scalable(lib: Library, masses: Masses) {
    forall i :: 0 <= i < |lib.bins| ==> lib.bins[i].energy - masses.electron - masses.aPrime != 0.0
  }

  /** The library-scaled recoil the forward-only loop tests: the library pt with the scaled energy. */
  function LibraryRecoil(maths: Maths, masses: Masses, eInc: real, data: OutgoingKinematics): (k: Recoil)
    requires SqrtLaw(maths.sqrt)
    requires data.e - masses.electron - masses.aPrime != 0.0
    ensures k.pt * k.pt == data.electron.x * data.electron.x + data.electron.y * data.electron.y
    ensures k.eAcc * k.eAcc >= masses.electron * masses.electron ==>
      k.p >= 0.0 && k.p * k.p == k.eAcc * k.eAcc - masses.electron * masses.electron
    ensures k.phi == Phi(maths, data.electron)
    ensures k.eAcc == ScaledEnergy(masses, data.electron.w, eInc, data.e)
  {
    var eAcc := ScaledEnergy(masses, data.electron.w, eInc, data.e);
    Recoil(eAcc, Pt(maths, data.electron), maths.sqrt(eAcc * eAcc - masses.electron * masses.electron),
      Phi(maths, data.electron))
  }

  /** `undefined`: the library electron as it is. */
  function UnscaledRecoil(maths: Maths, masses: Masses, data: OutgoingKinematics): (k: Recoil)
    requires SqrtLaw(maths.sqrt)
    ensures k.eAcc == data.electron.w
    ensures k.pt * k.pt == data.electron.x * data.electron.x + data.electron.y * data.electron.y
    ensures k.eAcc * k.eAcc >= masses.electron * masses.electron ==>
      k.p >= 0.0 && k.p * k.p == k.eAcc * k.eAcc - masses.electron * masses.electron
    ensures k.phi == Phi(maths, data.electron)
  {
    var eAcc := data.electron.w;
    Recoil(eAcc, Pt(maths, data.electron), maths.sqrt(eAcc * eAcc - masses.electron * masses.electron),
      Phi(maths, data.electron))
  }

  /** The forward-only acceptance: the transverse energy fits inside the total energy. */
  predicate Accepted(masses: Masses, k: Recoil) {
    !(k.pt * k.pt + masses.electron * masses.electron > k.eAcc * k.eAcc)
  }

  /** A vertex the forward-only loop draws again after: its scaled electron is not accepted. */
  ghost predicate Rejected(maths: Maths, masses: Masses, eInc: real, v: OutgoingKinematics) {
    && SqrtLaw(maths.sqrt)
    && v.e - masses.electron - masses.aPrime != 0.0
    && !Accepted(masses, LibraryRecoil(maths, masses, eInc, v))
  }

  /**
   * The forward-only loop made `n + 1` consecutive draws from `lib`, the last
   * one being `last` and leaving the library `after`, and rejected every draw
   * before the last.
   */
  ghost predicate ForwardRun(maths: Maths, masses: Masses, lib: Library, eInc: real, n: nat,
                             last: OutgoingKinematics, after: Library)
    requires |lib.cursors| == |lib.bins|
  {
    var draws := SampleMany(lib, eInc, n + 1);
    && draws.Ok?
    && draws.value.0[n] == last
    && draws.value.1 == after
    && forall k :: 0 <= k < n ==> Rejected(maths, masses, eInc, draws.value.0[k])
  }

  /** The electron+A' frame of the vertex with its energy and z-momentum lowered by `ediff`. */
  function ShiftedFrame(data: OutgoingKinematics, eInc: real): Vec4 {
    var ediff := data.e - eInc;
    Vec4(data.centerMomentum.x, data.centerMomentum.y, data.centerMomentum.z - ediff, data.centerMomentum.w - ediff)
  }

  /** Both frames of the cm-scaling method are time-like, so they move slower than light. */
  ghost predicate FramesBoostable(data: OutgoingKinematics, eInc: real) {
    var cm := data.centerMomentum;
    var shifted := ShiftedFrame(data, eInc);
    && cm.w != 0.0 && Invariant(cm) > 0.0
    && shifted.w != 0.0 && Invariant(shifted) > 0.0
  }

  /**
   * The library electron boosted into the electron+A' frame and out of it
   * again with the frame shifted to the incident energy. Both boosts keep its
   * invariant mass.
   */
  function CmBoosted(maths: Maths, eInc: real, data: OutgoingKinematics): (v: Vec4)
    requires SqrtLaw(maths.sqrt)
    requires FramesBoostable(data, eInc)
    ensures Invariant(v) == Invariant(data.electron)
  {
    BoostVectorSubluminal(data.centerMomentum);
    BoostVectorSubluminal(ShiftedFrame(data, eInc));
    var b := BoostVector(data.centerMomentum);
    NegateKeepsLength(b);
    var intoFrame := Boost(maths, data.electron, Scale3(-1.0, b));
    Boost(maths, intoFrame, BoostVector(ShiftedFrame(data, eInc)))
  }

  /**
   * `cm_scaling`: the boosted library electron with its energy replaced by
   * the scaled one. pt and |p| come from the boosted vector, the azimuth from
   * the library electron.
   */
  function CmScaledRecoil(maths: Maths, masses: Masses, eInc: real, data: OutgoingKinematics): (k: Recoil)
    requires SqrtLaw(maths.sqrt)
    requires data.e - masses.electron - masses.aPrime != 0.0
    requires FramesBoostable(data, eInc)
    ensures k.phi == Phi(maths, data.electron)
    ensures k.eAcc == ScaledEnergy(masses, data.electron.w, eInc, data.e)
    ensures var v := CmBoosted(maths, eInc, data);
      && k.pt * k.pt == v.x * v.x + v.y * v.y
      && k.p >= 0.0 && k.p * k.p == Dot(Spatial(v), Spatial(v))
  {
    var outOfFrame := CmBoosted(maths, eInc, data);
    var eAcc := ScaledEnergy(masses, data.electron.w, eInc, data.e);
    var el := outOfFrame.(w := eAcc);
    DotSelfNonNegative(Spatial(el));
    Recoil(eAcc, Pt(maths, el), Magnitude(maths, Spatial(el)), Phi(maths, data.electron))
  }

  /**
   * At the library's own energy the two boosts cancel: cm scaling gives back
   * the library electron's energy, pt and momentum.
   */
  lemma CmScalingAtSourceEnergy(maths: Maths, masses: Masses, data: OutgoingKinematics)
    requires SqrtLaw(maths.sqrt)
    requires data.e - masses.electron - masses.aPrime != 0.0
    requires FramesBoostable(data, data.e)
    ensures var el := data.electron;
      CmScaledRecoil(maths, masses, data.e, data)
        == Recoil(el.w, Pt(maths, el), Magnitude(maths, Spatial(el)), Phi(maths, el))
  {
    var el := data.electron;
    BoostVectorSubluminal(data.centerMomentum);
    var b := BoostVector(data.centerMomentum);
    assert ShiftedFrame(data, data.e) == data.centerMomentum;
    BoostInverse(maths, el, b);
    var intoFrame := Boost(maths, el, Scale3(-1.0, b));
    assert CmBoosted(maths, data.e, data) == Boost(maths, intoFrame, BoostVector(ShiftedFrame(data, data.e))) == el;
    ScaledEnergyAtSource(masses, el.w, data.e);
    assert el.(w := ScaledEnergy(masses, el.w, data.e, data.e)) == el;
  }

  /** The vertices of the library all admit the cm-scaling boosts at `eInc`. */
  ghost predicate LibraryBoostable(lib: Library, eInc: real) {
    forall i, j :: 0 <= i < |lib.bins| && 0 <= j < |lib.bins[i].vertices| ==>
      FramesBoostable(lib.bins[i].vertices[j], eInc)
  }

  /** The outcome of the forward-only resampling loop. */
  datatype Sampled = Sampled(data: OutgoingKinematics, recoil: Recoil, library: Library, resamples: nat)

  /**
   * The `forward_only` loop: draw, and draw again while the scaled electron
   * is not physical, giving up after the draw that takes the counter past
   * `maxIterations`.
   */
  method ForwardOnlySample(lib: Library, maths: Maths, masses: Masses, eInc: real) returns (r: Result<Sampled>)
    requires SqrtLaw(maths.sqrt) && Valid(lib) && Scalable(lib, masses)
    ensures r.Ok? <==> |lib.bins| > 0
    ensures r.Ok? ==>
      && Valid(r.value.library)
      && r.value.library.bins == lib.bins
      && r.value.library.maxIterations == lib.maxIterations
      && r.value.data in lib.bins[SelectBin(lib.bins, eInc)].vertices
      && r.value.data.e - masses.electron - masses.aPrime != 0.0
      && r.value.recoil == LibraryRecoil(maths, masses, eInc, r.value.data)
      && r.value.resamples <= lib.maxIterations + 1
      && (Accepted(masses, r.value.recoil) || r.value.resamples == lib.maxIterations + 1)
      && ForwardRun(maths, masses, lib, eInc, r.value.resamples, r.value.data, r.value.library)
  {
    if |lib.bins| == 0 {
      return Err("out_of_range");
    }
    var bin := SelectBin(lib.bins, eInc);
    DrawKeepsBin(lib, eInc);
    var first := Sample(lib, eInc);
    var data := first.value.0;
    var current := first.value.1;
    assert data.e == lib.bins[bin].energy;
    var k := LibraryRecoil(maths, masses, eInc, data);
    var i: nat := 0;
    ForwardRunStarts(maths, masses, lib, eInc);
    while !Accepted(masses, k)
      invariant i <= lib.maxIterations
      invariant Valid(current) && current.bins == lib.bins && current.maxIterations == lib.maxIterations
      invariant data in lib.bins[bin].vertices && data.e == lib.bins[bin].energy
      invariant k == LibraryRecoil(maths, masses, eInc, data)
      invariant ForwardRun(maths, masses, lib, eInc, i, data, current)
      decreases lib.maxIterations - i
    {
      ForwardRunExtends(maths, masses, lib, eInc, i, data, current);
      DrawKeepsBin(current, eInc);
      i := i + 1;
      var next := Sample(current, eInc);
      data := next.value.0;
      current := next.value.1;
      k := LibraryRecoil(maths, masses, eInc, data);
      if i > current.maxIterations {
        break;
      }
    }
    return Ok(Sampled(data, k, current, i));
  }

  /** The first draw starts a run with nothing rejected yet. */
  lemma ForwardRunStarts(maths: Maths, masses: Masses, lib: Library, eInc: real)
    requires Valid(lib) && |lib.bins| > 0
    ensures Sample(lib, eInc).Ok?
    ensures ForwardRun(maths, masses, lib, eInc, 0, Sample(lib, eInc).value.0, Sample(lib, eInc).value.1)
  {
    DrawKeepsBin(lib, eInc);
    var first := Sample(lib, eInc).value;
    assert SampleMany(first.1, eInc, 0) == Ok(([], first.1));
    assert SampleMany(lib, eInc, 1) == Ok(([first.0] + [], first.1));
  }

  /** Drawing again after a rejected vertex extends the run by the next draw. */
  lemma ForwardRunExtends(maths: Maths, masses: Masses, lib: Library, eInc: real, n: nat,
                          last: OutgoingKinematics, after: Library)
    requires Valid(lib) && Valid(after) && after.bins == lib.bins && |lib.bins| > 0
    requires ForwardRun(maths, masses, lib, eInc, n, last, after)
    requires Rejected(maths, masses, eInc, last)
    ensures Sample(after, eInc).Ok?
    ensures ForwardRun(maths, masses, lib, eInc, n + 1, Sample(after, eInc).value.0, Sample(after, eInc).value.1)
  {
    DrawKeepsBin(after, eInc);
    SampleManySnoc(lib, eInc, n + 1);
    var draws := SampleMany(lib, eInc, n + 1).value.0;
    var next := Sample(after, eInc).value;
    var longer := draws + [next.0];
    assert SampleMany(lib, eInc, n + 2) == Ok((longer, next.1));
    forall j | 0 <= j < n + 1
      ensures Rejected(maths, masses, eInc, longer[j])
    {
      assert longer[j] == draws[j];
    }
  }

  /** One draw stays in the bin `E0` selects and keeps the library valid. */
  lemma DrawKeepsBin(lib: Library, eInc: real)
    requires Valid(lib) && |lib.bins| > 0
    ensures var r := Sample(lib, eInc);
      var bin := SelectBin(lib.bins, eInc);
      && r.Ok? && Valid(r.value.1)
      && r.value.1.bins == lib.bins && r.value.1.maxIterations == lib.maxIterations
      && r.value.0 in lib.bins[bin].vertices && r.value.0.e == lib.bins[bin].energy
  {
  }

  // ---------------------------------------------------------------------
  // CLHEP vector helpers
  // ---------------------------------------------------------------------

  function Magnitude(maths: Maths, v: Vec3): real {
    maths.sqrt(Dot(v, v))
  }

  /** `Hep3Vector::setMag`: a zero vector cannot be stretched and is left as it is. */
  function SetMag(maths: Maths, v: Vec3, m: real): (r: Vec3)
    ensures Magnitude(maths, v) == 0.0 ==> r == v
  {
    if Magnitude(maths, v) == 0.0 then v else Scale3(m / Magnitude(maths, v), v)
  }

  /** A non-zero vector stretched to `m` has length `m`. */
  lemma SetMagLength(maths: Maths, v: Vec3, m: real)
    requires SqrtLaw(maths.sqrt)
    requires v != Vec3(0.0, 0.0, 0.0)
    ensures Dot(SetMag(maths, v, m), SetMag(maths, v, m)) == m * m
  {
    DotSelfPositive(v);
    var d := Dot(v, v);
    var s := Magnitude(maths, v);
    SqrtPositive(maths.sqrt, d);
    DotScale(m / s, v);
    StretchedSquare(m / s, m, s, d);
  }

  lemma DotScale(k: real, v: Vec3)
    ensures Dot(Scale3(k, v), Scale3(k, v)) == k * k * Dot(v, v)
  {
  }

  lemma StretchedSquare(k: real, m: real, s: real, d: real)
    requires s > 0.0 && s * s == d && k == m / s
    ensures k * k * d == m * m
  {
    assert k * s == m;
    calc {
      k * k * d;
      k * k * (s * s);
      (k * s) * (k * s);
      m * m;
    }
  }

  /** `Hep3Vector::unit`: the direction of a non-zero vector, the zero vector itself. */
  function Unit(maths: Maths, v: Vec3): Vec3
    requires SqrtLaw(maths.sqrt)
  {
    if v == Vec3(0.0, 0.0, 0.0) then v
    else
      DotSelfPositive(v);
      SqrtPositive(maths.sqrt, Dot(v, v));
      Scale3(1.0 / Magnitude(maths, v), v)
  }

  lemma UnitLength(maths: Maths, v: Vec3)
    requires SqrtLaw(maths.sqrt)
    requires v != Vec3(0.0, 0.0, 0.0)
    ensures Dot(Unit(maths, v), Unit(maths, v)) == 1.0
  {
    DotSelfPositive(v);
    var d := Dot(v, v);
    var s := Magnitude(maths, v);
    SqrtPositive(maths.sqrt, d);
    DotScale(1.0 / s, v);
    StretchedSquare(1.0 / s, 1.0, s, d);
  }

  // ---------------------------------------------------------------------
  // The particle change
  // ---------------------------------------------------------------------

  /** The incident track as the step reports it, in MeV. */
  datatype Track = Track(momentum: Vec3, direction: Vec3, totalEnergy: real)

  /** A secondary is either the A' or a particle of the incident track's kind. */
  datatype Species = APrime | LikeIncident

  datatype Secondary = Secondary(species: Species, momentum: Vec3)

  /** What `GenerateChange` proposes to the tracking. */
  datatype ParticleChange = ParticleChange(
    secondaries: seq<Secondary>,
    stopAndKill: bool,
    direction: Option<Vec3>,
    energy: Option<real>)

  /**
   * The recoil momentum in MeV: polar angle asin(pt / P) and the chosen
   * azimuth about the incident direction, stretched to sqrt(EAcc^2 - m_e^2).
   */
  function RecoilMomentum(maths: Maths, masses: Masses, k: Recoil, direction: Vec3): (p: Vec3)
    ensures SqrtLaw(maths.sqrt) && MomentumSquared(masses, k) >= 0.0
              && maths.rotateUz(LocalDirection(maths, k), direction) != Vec3(0.0, 0.0, 0.0)
            ==> Dot(p, p) == MomentumSquared(masses, k)
  {
    var v := maths.rotateUz(LocalDirection(maths, k), direction);
    var x := MomentumSquared(masses, k);
    var p := SetMag(maths, v, maths.sqrt(x));
    assert SqrtLaw(maths.sqrt) && x >= 0.0 && v != Vec3(0.0, 0.0, 0.0) ==> Dot(p, p) == x by {
      if SqrtLaw(maths.sqrt) && x >= 0.0 && v != Vec3(0.0, 0.0, 0.0) {
        SetMagLength(maths, v, maths.sqrt(x));
        SqrtSquared(maths.sqrt, x);
      }
    }
    p
  }

  /** EAcc^2 - m_e^2 in MeV^2. */
  function MomentumSquared(masses: Masses, k: Recoil): real {
    var eAcc := k.eAcc * GeV;
    var me := masses.electron * GeV;
    eAcc * eAcc - me * me
  }

  /** The recoil's direction relative to the incident one: polar angle asin(pt / P), azimuth phi. */
  function LocalDirection(maths: Maths, k: Recoil): Vec3 {
    var theta := maths.asinRatio(k.pt, k.p);
    Vec3(maths.sin(theta) * maths.cos(k.phi), maths.sin(theta) * maths.sin(k.phi), maths.cos(theta))
  }

  lemma SqrtSquared(sqrt: real -> real, x: real)
    requires SqrtLaw(sqrt) && x >= 0.0
    ensures sqrt(x) * sqrt(x) == x
  {
  }

  /**
   * `s` is what the configured method makes of the library at `eInc`: the
   * forward-only run with the library-scaled recoil of its last draw, or a
   * single draw with the cm-scaled or the unscaled recoil.
   */
  ghost predicate DrawnAsConfigured(model: Model, maths: Maths, masses: Masses, eInc: real, s: Sampled)
    requires SqrtLaw(maths.sqrt) && Valid(model.library)
  {
    match model.scaling
    case ForwardOnly =>
      && ForwardRun(maths, masses, model.library, eInc, s.resamples, s.data, s.library)
      && s.data.e - masses.electron - masses.aPrime != 0.0
      && s.recoil == LibraryRecoil(maths, masses, eInc, s.data)
      && (Accepted(masses, s.recoil) || s.resamples == model.library.maxIterations + 1)
    case CmScaling =>
      && s.resamples == 0
      && Sample(model.library, eInc) == Ok((s.data, s.library))
      && s.data.e - masses.electron - masses.aPrime != 0.0
      && FramesBoostable(s.data, eInc)
      && s.recoil == CmScaledRecoil(maths, masses, eInc, s.data)
    case Undefined =>
      && s.resamples == 0
      && Sample(model.library, eInc) == Ok((s.data, s.library))
      && s.recoil == UnscaledRecoil(maths, masses, s.data)
  }

  /** The vertex and the recoil of one step, drawn as the model's scaling method says. */
  method DrawRecoil(model: Model, maths: Maths, masses: Masses, eInc: real) returns (r: Result<Sampled>)
    requires SqrtLaw(maths.sqrt) && Valid(model.library)
    requires model.scaling != Undefined ==> Scalable(model.library, masses)
    requires model.scaling == CmScaling ==> LibraryBoostable(model.library, eInc)
    ensures r.Ok? <==> |model.library.bins| > 0
    ensures r.Ok? ==>
      var bin := SelectBin(model.library.bins, eInc);
      && Valid(r.value.library) && r.value.library.bins == model.library.bins
      && r.value.data in model.library.bins[bin].vertices
      && r.value.data.e == model.library.bins[bin].energy
    ensures r.Ok? ==> DrawnAsConfigured(model, maths, masses, eInc, r.value)
  {
    var lib := model.library;
    if |lib.bins| == 0 {
      return Err("out_of_range");
    }
    if model.scaling == ForwardOnly {
      r := ForwardOnlySample(lib, maths, masses, eInc);
      assert r.value.data.e == lib.bins[SelectBin(lib.bins, eInc)].energy;
    } else {
      var bin := SelectBin(lib.bins, eInc);
      DrawKeepsBin(lib, eInc);
      var first := Sample(lib, eInc);
      var data := first.value.0;
      assert data == lib.bins[bin].vertices[Start(lib.cursors[bin], |lib.bins[bin].vertices|)];
      var k: Recoil;
      if model.scaling == CmScaling {
        k := CmScaledRecoil(maths, masses, eInc, data);
      } else {
        k := UnscaledRecoil(maths, masses, data);
      }
      r := Ok(Sampled(data, k, first.value.1, 0));
    }
  }

  /**
   * The particle change for a recoil of momentum `p`: the A' takes the
   * incident momentum minus `p`. By default the incident track is killed and
   * replaced by a new electron; otherwise it keeps going with the recoil's
   * direction and kinetic energy.
   */
  function Change(alwaysCreateNewElectron: bool, maths: Maths, masses: Masses, track: Track, k: Recoil, p: Vec3)
    : (c: ParticleChange)
    requires SqrtLaw(maths.sqrt)
    ensures |c.secondaries| >= 1
    ensures c.secondaries[0].species == APrime
    ensures Add3(c.secondaries[0].momentum, p) == track.momentum
    ensures alwaysCreateNewElectron ==>
      && |c.secondaries| == 2
      && c.secondaries[1] == Secondary(LikeIncident, p)
      && c.stopAndKill
      && c.direction.None? && c.energy.None?
    ensures !alwaysCreateNewElectron ==>
      && |c.secondaries| == 1
      && !c.stopAndKill
      && c.direction == Some(Unit(maths, p))
      && c.energy == Some(k.eAcc * GeV - masses.electron * GeV)
  {
    var dp := Sub3(track.momentum, p);
    if alwaysCreateNewElectron then
      ParticleChange([Secondary(APrime, dp), Secondary(LikeIncident, p)], true, None, None)
    else
      ParticleChange([Secondary(APrime, dp)], false, Some(Unit(maths, p)), Some(k.eAcc * GeV - masses.electron * GeV))
  }

  /** The dark-brem step's result: the particle change, the draw it used and the recoil momentum. */
  datatype Outcome = Outcome(change: ParticleChange, draw: Sampled, recoilMomentum: Vec3)

  /**
   * `GenerateChange` for a track whose post-step total energy is
   * `track.totalEnergy`: the draw of the configured method, the recoil
   * momentum about the incident direction, and the particle change.
   */
  method GenerateChange(model: Model, maths: Maths, masses: Masses, track: Track) returns (r: Result<Outcome>)
    requires SqrtLaw(maths.sqrt) && Valid(model.library)
    requires model.scaling != Undefined ==> Scalable(model.library, masses)
    requires model.scaling == CmScaling ==> LibraryBoostable(model.library, track.totalEnergy / GeV)
    ensures r.Ok? <==> |model.library.bins| > 0
    ensures r.Ok? ==>
      var bin := SelectBin(model.library.bins, track.totalEnergy / GeV);
      && Valid(r.value.draw.library) && r.value.draw.library.bins == model.library.bins
      && r.value.draw.data in model.library.bins[bin].vertices
      && r.value.draw.data.e == model.library.bins[bin].energy
    ensures r.Ok? ==> DrawnAsConfigured(model, maths, masses, track.totalEnergy / GeV, r.value.draw)
    ensures r.Ok? ==>
      var o := r.value;
      && o.recoilMomentum == RecoilMomentum(maths, masses, o.draw.recoil, track.direction)
      && o.change == Change(model.alwaysCreateNewElectron, maths, masses, track, o.draw.recoil, o.recoilMomentum)
  {
    var s :- DrawRecoil(model, maths, masses, track.totalEnergy / GeV);
    var p := RecoilMomentum(maths, masses, s.recoil, track.direction);
    return Ok(Outcome(Change(model.alwaysCreateNewElectron, maths, masses, track, s.recoil, p), s, p));
  }
}
