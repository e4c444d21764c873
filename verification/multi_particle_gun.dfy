/**
 * `MultiParticleGunPrimaryGenerator`: a gun that tops the event up to `n`
 * primary vertices, each with one particle of the configured type and
 * momentum, where `n` is fixed or a non-zero Poisson draw.
 *
 * The Poisson draws of `std::poisson_distribution` are the sequence
 * `draws`, consumed from the front.
 */
module MultiParticleGun {
  import opened Wrappers
  import opened Parameters
  import PGA = PrimaryGeneratorAction

  datatype Gun = Gun(
    x: real, y: real, z: real, px: real, py: real, pz: real, nParticles: int, pdgId: int, poisson: bool)

  /**
   * The constructor. Parameters are read in the source's order (the Poisson
   * mean `nParticles` first); then three-component `vertex` and `momentum`
   * and a positive `nParticles` are required ("InvalidConfig"). CLHEP's mm
   * and MeV are 1, so the values are taken as they are.
   */
  function Configure(params: Parameters): (r: Result<Gun>)
    ensures r.Ok? ==> r.value.nParticles > 0
    ensures r.Ok? <==>
              && GetInt(params, "nParticles").Ok? && GetDoubles(params, "vertex").Ok?
              && GetDoubles(params, "momentum").Ok? && GetInt(params, "pdgID").Ok?
              && GetBool(params, "enablePoisson").Ok?
              && |GetDoubles(params, "vertex").value| == 3 && |GetDoubles(params, "momentum").value| == 3
              && GetInt(params, "nParticles").value > 0
    ensures r.Ok? ==>
              && [r.value.x, r.value.y, r.value.z] == GetDoubles(params, "vertex").value
              && [r.value.px, r.value.py, r.value.pz] == GetDoubles(params, "momentum").value
              && r.value.pdgId == GetInt(params, "pdgID").value
              && r.value.poisson == GetBool(params, "enablePoisson").value
    ensures (&& GetInt(params, "nParticles").Ok? && GetDoubles(params, "vertex").Ok?
             && GetDoubles(params, "momentum").Ok? && GetInt(params, "pdgID").Ok?
             && GetBool(params, "enablePoisson").Ok? && r.Err?)
            ==> r.error == "InvalidConfig"
  {
    var n :- GetInt(params, "nParticles");
    var vertex :- GetDoubles(params, "vertex");
    var momentum :- GetDoubles(params, "momentum");
    var pdg :- GetInt(params, "pdgID");
    var poisson :- GetBool(params, "enablePoisson");
    if |vertex| != 3 || |momentum| != 3 || n <= 0 then Err("InvalidConfig")
    else Ok(Gun(vertex[0], vertex[1], vertex[2], momentum[0], momentum[1], momentum[2], n, pdg, poisson))
  }

  /** The redraw loop: the first non-zero draw, and how many draws it took. */
  function FirstNonZero(draws: seq<nat>): (r: (nat, nat))
    requires exists i :: 0 <= i < |draws| && draws[i] != 0
    ensures 0 < r.1 <= |draws| && r.0 == draws[r.1 - 1] && r.0 != 0
    ensures forall i :: 0 <= i < r.1 - 1 ==> draws[i] == 0
    decreases |draws|
  {
    if draws[0] != 0 then (draws[0], 1)
    else
      var i :| 0 <= i < |draws| && draws[i] != 0;
      assert draws[1..][i - 1] != 0;
      var r := FirstNonZero(draws[1..]);
      (r.0, r.1 + 1)
  }

  /** The vertex the gun fires: at the gun's position, t0 = 0, weight 1, one particle with HepEvt status 1. */
  function GunVertex(g: Gun): PGA.Vertex {
    PGA.Vertex(g.x, g.y, g.z, 0.0, 1.0, [PGA.Primary(g.pdgId, g.px, g.py, g.pz, PGA.OtherInfo)])
  }

  /**
   * `GeneratePrimaryVertex`: the number of interactions (fixed, or the first
   * non-zero draw), and the event's vertices topped up to it. The status 1
   * travels in a transient information object, which is not a
   * `UserPrimaryParticleInformation`.
   */
  function Generate(g: Gun, vertices: seq<PGA.Vertex>, draws: seq<nat>): (r: (seq<PGA.Vertex>, nat))
    requires g.poisson ==> exists i :: 0 <= i < |draws| && draws[i] != 0
    ensures var n := if g.poisson then FirstNonZero(draws).0 else g.nParticles;
      && |r.0| == |vertices| + (if n > |vertices| then n - |vertices| else 0)
    ensures r.0[..|vertices|] == vertices
    ensures forall i :: |vertices| <= i < |r.0| ==> r.0[i] == GunVertex(g)
    ensures r.1 == if g.poisson then FirstNonZero(draws).1 else 0
  {
    var (n, used) := if g.poisson then FirstNonZero(draws) else (g.nParticles, 0);
    var added := if n > |vertices| then n - |vertices| else 0;
    (vertices + seq(added, i => GunVertex(g)), used)
  }

  /** With Poisson off the gun adds `max(0, nParticles - existing)` vertices, so it never exceeds its count. */
  lemma TopsUp(g: Gun, vertices: seq<PGA.Vertex>)
    requires !g.poisson && g.nParticles > 0
    ensures |Generate(g, vertices, []).0| == if |vertices| < g.nParticles then g.nParticles else |vertices|
  {
  }

  /**
   * Once the post-processing of the primary generator action has run, every
   * particle the gun fired has status 1 and the vertices it added weigh 1.
   */
  lemma GunPrimariesEndWithStatusOne(g: Gun)
    ensures PGA.FixStatus(GunVertex(g).primaries[0]).info == PGA.UserInfo(1)
    ensures GunVertex(g).weight == 1.0
  {
  }
}
