/**
 * `SimTrackerHit`: one energy deposit in a tracking layer. Only `clear` and
 * the ordering carry rules.
 */
module SimTrackerHit {

  datatype Hit = Hit(
    id: int, layerId: int, moduleId: int, edep: real, time: real,
    px: real, py: real, pz: real, energy: real, x: real, y: real, z: real,
    pathLength: real, trackId: int, pdgId: int)

  /** The member initialisers: everything zero, the track ID included. */
  const Default: Hit := Hit(0, 0, 0, 0.0, 0.0, 0.0, 0.0, 0.0, 0.0, 0.0, 0.0, 0.0, 0.0, 0, 0)

  /** `clear`: every field zero except the track ID, which becomes -1. */
  function Clear(h: Hit): (r: Hit)
    ensures r.trackId == -1
    ensures r.id == 0 && r.layerId == 0 && r.moduleId == 0 && r.pdgId == 0
    ensures r.edep == 0.0 && r.time == 0.0 && r.energy == 0.0 && r.pathLength == 0.0
    ensures r.px == 0.0 && r.py == 0.0 && r.pz == 0.0 && r.x == 0.0 && r.y == 0.0 && r.z == 0.0
  {
    Hit(0, 0, 0, 0.0, 0.0, 0.0, 0.0, 0.0, 0.0, 0.0, 0.0, 0.0, 0.0, -1, 0)
  }

  /**
   * A cleared hit is a default hit with track ID -1, so it differs from a
   * freshly constructed one; clearing is idempotent and forgets the old hit.
   */
  lemma ClearVersusDefault(h: Hit, g: Hit)
    ensures Clear(h) == Default.(trackId := -1)
    ensures Clear(h) != Default
    ensures Clear(Clear(h)) == Clear(h)
    ensures Clear(h) == Clear(g)
  {
  }

  /** `operator<`: hits sort by time alone. */
  predicate Before(a: Hit, b: Hit) {
    a.time < b.time
  }

  /**
   * `Before` is a strict weak order: irreflexive, transitive, and two hits are
   * unordered exactly when their times are equal, whatever else differs.
   */
  lemma BeforeIsStrictWeakOrder(a: Hit, b: Hit, c: Hit)
    ensures !Before(a, a)
    ensures Before(a, b) && Before(b, c) ==> Before(a, c)
    ensures !Before(a, b) && !Before(b, a) <==> a.time == b.time
  {
  }
}
