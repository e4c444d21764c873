/**
 * `TrackMap`: the ancestry of the tracks of one event, each recorded with its
 * parent and whether it started inside a calorimeter region, and the walk up
 * that ancestry to the particle that entered the calorimeter.
 */
module TrackMap {
  import opened Wrappers
  import opened Strings

  /** The fields of a `G4Track` the map reads; `region` names the region of its vertex volume. */
  datatype Track = Track(id: int, parent: int, region: string)

  /** Where a track came from: its parent and whether it started in a calorimeter. */
  datatype Origin = Origin(parent: int, inCalorimeter: bool)

  datatype TrackMap = TrackMap(ancestry: map<int, Origin>, descendants: map<int, seq<int>>)

  const Empty: TrackMap := TrackMap(map[], map[])

  /**
   * `isInCalorimeterRegion`: the vertex region's name mentions
   * "Calorimeter", so "CalorimeterRegion" counts and any shorter name does
   * not.
   */
  function InCalorimeterRegion(t: Track): (r: bool)
    ensures r ==> |t.region| >= |"Calorimeter"|
    ensures "Calorimeter" <= t.region ==> r
  {
    var r := Contains(t.region, "Calorimeter");
    assert "Calorimeter" <= t.region ==> r by {
      if "Calorimeter" <= t.region {
        assert OccursAt(t.region, "Calorimeter", 0);
      }
    }
    r
  }

  /** The recorded children of `id`; `descendents_[id]` creates an empty list when absent. */
  function Children(tm: TrackMap, id: int): seq<int> {
    if id in tm.descendants then tm.descendants[id] else []
  }

  /** `insert`: record the track's origin (replacing any earlier record) and list it under its parent. */
  function Insert(tm: TrackMap, t: Track): (r: TrackMap)
    ensures t.id in r.ancestry && r.ancestry[t.id] == Origin(t.parent, InCalorimeterRegion(t))
    ensures forall id :: id != t.id && id in tm.ancestry ==> id in r.ancestry && r.ancestry[id] == tm.ancestry[id]
    ensures r.ancestry.Keys == tm.ancestry.Keys + {t.id}
    ensures Children(r, t.parent) == Children(tm, t.parent) + [t.id]
    ensures forall id :: id != t.parent ==> Children(r, id) == Children(tm, id)
  {
    TrackMap(tm.ancestry[t.id := Origin(t.parent, InCalorimeterRegion(t))],
             tm.descendants[t.parent := Children(tm, t.parent) + [t.id]])
  }

  /** `clear`. */
  function Clear(tm: TrackMap): (r: TrackMap)
    ensures |r.ancestry| == 0 && |r.descendants| == 0
  {
    Empty
  }

  /** A track where the walk stops: it started outside the calorimeter or is a primary. */
  predicate IsIncident(tm: TrackMap, id: int)
    requires id in tm.ancestry
  {
    !tm.ancestry[id].inCalorimeter || tm.ancestry[id].parent == 0
  }

  /**
   * `findIncident`. A missing record ends in "out_of_range" (`map::at`); the
   * source loops forever on a cyclic ancestry, which `fuel` stands for
   * ("NoIncident" once the steps run out).
   */
  function FindIncident(tm: TrackMap, id: int, fuel: nat): (r: Result<int>)
    ensures r.Ok? ==> r.value in tm.ancestry && IsIncident(tm, r.value)
    ensures r.Err? ==> r.error == "out_of_range" || r.error == "NoIncident"
    ensures id !in tm.ancestry ==> r == Err("out_of_range")
    ensures id in tm.ancestry && IsIncident(tm, id) ==> r == Ok(id)
    decreases fuel
  {
    if id !in tm.ancestry then Err("out_of_range")
    else if IsIncident(tm, id) then Ok(id)
    else if fuel == 0 then Err("NoIncident")
    else FindIncident(tm, tm.ancestry[id].parent, fuel - 1)
  }

  /**
   * `a` is reached from `id` by following parent links through tracks that
   * started inside the calorimeter with a non-zero parent.
   */
  ghost predicate ReachedThroughCalorimeter(tm: TrackMap, id: int, a: int, steps: nat)
    decreases steps
  {
    if steps == 0 then a == id
    else
      && id in tm.ancestry
      && !IsIncident(tm, id)
      && ReachedThroughCalorimeter(tm, tm.ancestry[id].parent, a, steps - 1)
  }

  /** The incident track is the nearest such ancestor-or-self of the track. */
  lemma {:induction false} FindIncidentIsNearestAncestor(tm: TrackMap, id: int, fuel: nat)
    requires FindIncident(tm, id, fuel).Ok?
    ensures exists steps: nat :: steps <= fuel && ReachedThroughCalorimeter(tm, id, FindIncident(tm, id, fuel).value, steps)
    decreases fuel
  {
    if IsIncident(tm, id) {
      assert ReachedThroughCalorimeter(tm, id, id, 0);
    } else {
      var p := tm.ancestry[id].parent;
      FindIncidentIsNearestAncestor(tm, p, fuel - 1);
      var steps: nat :| steps <= fuel - 1 && ReachedThroughCalorimeter(tm, p, FindIncident(tm, p, fuel - 1).value, steps);
      assert ReachedThroughCalorimeter(tm, id, FindIncident(tm, id, fuel).value, steps + 1);
    }
  }

  /**
   * Geant4 numbers tracks upwards from 1, so a parent is recorded before its
   * children and has the smaller ID.
   */
  ghost predicate ParentsPrecede(tm: TrackMap) {
    forall id :: id in tm.ancestry && !IsIncident(tm, id) ==>
      0 < tm.ancestry[id].parent < id && tm.ancestry[id].parent in tm.ancestry
  }

  /** With parents preceding their children the walk ends within `id` steps. */
  lemma {:induction false} FindIncidentTerminates(tm: TrackMap, id: int, fuel: nat)
    requires ParentsPrecede(tm)
    requires id in tm.ancestry && id <= fuel
    ensures FindIncident(tm, id, fuel).Ok?
    decreases fuel
  {
    if !IsIncident(tm, id) {
      FindIncidentTerminates(tm, tm.ancestry[id].parent, fuel - 1);
    }
  }

  /** Inserting keeps parents first when the new track's parent is already recorded with a smaller ID. */
  lemma InsertKeepsParentsFirst(tm: TrackMap, t: Track)
    requires ParentsPrecede(tm)
    requires t.id !in tm.ancestry
    requires t.parent == 0 || (0 < t.parent < t.id && t.parent in tm.ancestry)
    ensures ParentsPrecede(Insert(tm, t))
  {
  }

  /** After `clear` every lookup is out of range. */
  lemma FindIncidentAfterClear(tm: TrackMap, id: int, fuel: nat)
    ensures FindIncident(Clear(tm), id, fuel) == Err("out_of_range")
  {
  }
}
