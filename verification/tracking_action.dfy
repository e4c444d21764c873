/**
 * `g4user::TrackingAction`: the set-up of a track the first time it is
 * seen (information initialised, save decision, entry in the track map),
 * the registered user tracking actions, and the choice of the tracks that
 * go into the output.
 */
module TrackingAction {
  import opened Wrappers
  import TM = TrackMap
  import opened UserTrackInformation

  datatype TrackStatus = Alive | StopButAlive | StopAndKill | KillTrackAndSecondaries | Suspend | PostponeToNextEvent

  /**
   * The fields of a `G4Track` these rules read. `regionInfo` is the
   * store-secondaries flag of the vertex region's information, `None` for a
   * region without one; `primaryStatus` is the HepEvt status of the primary
   * the track comes from, `None` for a secondary.
   */
  datatype Track = Track(
    id: int, parent: int, region: string, regionInfo: Option<bool>, primaryStatus: Option<int>,
    momentum: Vec3, vertexVolume: string, time: real, status: TrackStatus, info: Option<TrackInfo>)

  /** A registered user tracking action, as its effect on the track. */
  type Hook = Track -> Track

  /** The registered actions, called in registration order. */
  function RunHooks(hooks: seq<Hook>, t: Track): Track
    decreases |hooks|
  {
    if |hooks| == 0 then t else hooks[|hooks| - 1](RunHooks(hooks[..|hooks| - 1], t))
  }

  /** The rule for saving a new track: a generator-level final-state particle, or a region that asks for it. */
  predicate MustSave(t: Track) {
    var genStatus := if t.primaryStatus.Some? then t.primaryStatus.value else -1;
    genStatus == 1 || t.regionInfo.None? || t.regionInfo.value
  }

  /** The set-up of a track seen for the first time. */
  function NewTrack(tm: TM.TrackMap, t: Track): (r: (TM.TrackMap, Track))
    ensures r.0 == TM.Insert(tm, TM.Track(t.id, t.parent, t.region))
    ensures r.1.info.Some?
    ensures var before := Get(t.info).1; var after := r.1.info.value;
      && after.saveFlag == (before.saveFlag || MustSave(t))
      && after.bremCandidate == before.bremCandidate && after.pnGamma == before.pnGamma
      && after.initialMomentum == t.momentum && after.vertexVolume == t.vertexVolume && after.vertexTime == t.time
    ensures r.1.(info := t.info) == t
  {
    var (slot, info) := Get(t.info);
    var info1 := Initialize(info, t.momentum, t.vertexVolume, t.time);
    var info2 := if MustSave(t) then SetSaveFlag(info1, true) else info1;
    (TM.Insert(tm, TM.Track(t.id, t.parent, t.region)), t.(info := Some(info2)))
  }

  /** `PreUserTrackingAction`: set-up for an unseen track only, then every registered action. */
  function Pre(tm: TM.TrackMap, t: Track, hooks: seq<Hook>): (r: (TM.TrackMap, Track))
    ensures t.id in tm.ancestry ==> r == (tm, RunHooks(hooks, t))
    ensures t.id !in tm.ancestry ==> r.0.ancestry.Keys == tm.ancestry.Keys + {t.id}
    ensures t.id !in tm.ancestry ==> r.1 == RunHooks(hooks, NewTrack(tm, t).1)
  {
    if t.id in tm.ancestry then (tm, RunHooks(hooks, t))
    else
      var (tm1, t1) := NewTrack(tm, t);
      (tm1, RunHooks(hooks, t1))
  }

  /**
   * The save decision never clears the flag: a track whose flag was set
   * before its own processing (by an action on its parent, say) keeps it,
   * and a track the rule picks is saved whatever its flag was.
   */
  lemma PreNeverClearsSaveFlag(tm: TM.TrackMap, t: Track)
    requires t.id !in tm.ancestry
    ensures var info := Pre(tm, t, []).1.info;
      && info.Some?
      && (t.info.Some? && t.info.value.saveFlag ==> info.value.saveFlag)
      && (MustSave(t) ==> info.value.saveFlag)
      && (info.value.saveFlag ==> MustSave(t) || (t.info.Some? && t.info.value.saveFlag))
  {
  }

  /** A track already in the map only meets the registered actions. */
  lemma SeenTrackSkipsSetUp(tm: TM.TrackMap, t: Track, hooks: seq<Hook>)
    requires t.id in tm.ancestry
    ensures Pre(tm, t, hooks).0 == tm
    ensures hooks == [] ==> Pre(tm, t, hooks).1 == t
  {
  }

  /**
   * `PostUserTrackingAction`: the registered actions first, then the track
   * is saved (its ID appended to `saved`) iff its flag is set and it is
   * being stopped and killed. A track without information gets a fresh one.
   */
  function Post(saved: seq<int>, t: Track, hooks: seq<Hook>): (r: (seq<int>, Track))
    ensures var t1 := RunHooks(hooks, t);
      && r.1.info.Some? && r.1.(info := t1.info) == t1
      && (r.0 == saved + [t1.id] <==> Get(t1.info).1.saveFlag && t1.status == StopAndKill)
      && (r.0 == saved <==> !(Get(t1.info).1.saveFlag && t1.status == StopAndKill))
  {
    var t1 := RunHooks(hooks, t);
    var (slot, info) := Get(t1.info);
    var t2 := t1.(info := slot);
    if info.saveFlag && t2.status == StopAndKill then (saved + [t2.id], t2) else (saved, t2)
  }

  /**
   * A primary from the generator's final state that is stopped and killed
   * with no registered actions is always saved.
   */
  lemma FinalStatePrimarySaved(tm: TM.TrackMap, t: Track, saved: seq<int>)
    requires t.id !in tm.ancestry && t.primaryStatus == Some(1) && t.status == StopAndKill
    ensures Post(saved, Pre(tm, t, []).1, []).0 == saved + [t.id]
  {
  }
}
