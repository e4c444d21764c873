/**
 * `UserTrackInformation`: what the simulation attaches to a Geant4 track —
 * the save, brem-candidate and photo-nuclear flags and the vertex
 * kinematics — and `get`, which attaches a fresh record when none is there.
 */
module UserTrackInformation {
  import opened Wrappers

  datatype Vec3 = Vec3(x: real, y: real, z: real)

  datatype TrackInfo = TrackInfo(
    saveFlag: bool, bremCandidate: bool, pnGamma: bool,
    vertexVolume: string, vertexTime: real, initialMomentum: Vec3)

  /** The defaults: every flag false, no volume, time 0, zero momentum. */
  const Fresh := TrackInfo(false, false, false, "", 0.0, Vec3(0.0, 0.0, 0.0))

  function SetSaveFlag(i: TrackInfo, save: bool): (r: TrackInfo)
    ensures r.saveFlag == save && r.(saveFlag := i.saveFlag) == i
  {
    i.(saveFlag := save)
  }

  /** `tagBremCandidate`; the source's default argument is `true`. */
  function TagBremCandidate(i: TrackInfo, yes: bool := true): (r: TrackInfo)
    ensures r.bremCandidate == yes && r.(bremCandidate := i.bremCandidate) == i
  {
    i.(bremCandidate := yes)
  }

  /** `tagPNGamma`; the source's default argument is `true`. */
  function TagPNGamma(i: TrackInfo, yes: bool := true): (r: TrackInfo)
    ensures r.pnGamma == yes && r.(pnGamma := i.pnGamma) == i
  {
    i.(pnGamma := yes)
  }

  /** `initialize`: copy the track's current kinematics as its vertex kinematics; the flags stay. */
  function Initialize(i: TrackInfo, momentum: Vec3, volume: string, time: real): (r: TrackInfo)
    ensures r.initialMomentum == momentum && r.vertexVolume == volume && r.vertexTime == time
    ensures r.saveFlag == i.saveFlag && r.bremCandidate == i.bremCandidate && r.pnGamma == i.pnGamma
  {
    TrackInfo(i.saveFlag, i.bremCandidate, i.pnGamma, volume, time, momentum)
  }

  /**
   * `get` on a track's information slot: the record attached, or a fresh one
   * that is attached from now on. The slot is never empty afterwards.
   */
  function Get(slot: Option<TrackInfo>): (r: (Option<TrackInfo>, TrackInfo))
    ensures r.0 == Some(r.1)
    ensures slot.Some? ==> r.1 == slot.value
    ensures slot.None? ==> r.1 == Fresh
  {
    match slot
    case Some(i) => (slot, i)
    case None => (Some(Fresh), Fresh)
  }

  /** A second `get` sees what the first one attached. */
  lemma GetTwice(slot: Option<TrackInfo>)
    ensures Get(Get(slot).0) == Get(slot)
  {
  }

  /** Initializing keeps whatever flags were set before, e.g. by a user action on a parent. */
  lemma InitializeKeepsTags(i: TrackInfo, momentum: Vec3, volume: string, time: real)
    ensures Initialize(SetSaveFlag(TagPNGamma(TagBremCandidate(i)), true), momentum, volume, time).saveFlag
    ensures Initialize(SetSaveFlag(TagPNGamma(TagBremCandidate(i)), true), momentum, volume, time).bremCandidate
    ensures Initialize(SetSaveFlag(TagPNGamma(TagBremCandidate(i)), true), momentum, volume, time).pnGamma
  {
  }
}
