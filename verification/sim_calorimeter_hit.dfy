/**
 * `SimCalorimeterHit`: the energy a calorimeter cell collected in one event,
 * with its contributions stored as five parallel vectors (incident ID,
 * track ID, PDG ID, energy, time). Energies and times are `float` in the
 * source and `real` here.
 */
module SimCalorimeterHit {
  import opened Wrappers

  /** One contribution, as `getContrib` assembles it. */
  datatype Contrib = Contrib(incidentId: int, trackId: int, pdgId: int, edep: real, time: real)

  datatype Hit = Hit(
    id: int, edep: real, x: real, y: real, z: real, time: real,
    incidentIds: seq<int>, trackIds: seq<int>, pdgIds: seq<int>, edeps: seq<real>, times: seq<real>,
    count: nat)

  /** The default-constructed hit: everything zero, no contributions. */
  const Blank: Hit := Hit(0, 0.0, 0.0, 0.0, 0.0, 0.0, [], [], [], [], [], 0)

  function Sum(s: seq<real>): real {
    if |s| == 0 then 0.0 else Sum(s[..|s| - 1]) + s[|s| - 1]
  }

  /** The five vectors run in parallel, one entry per contribution. */
  predicate Parallel(h: Hit) {
    && |h.incidentIds| == h.count
    && |h.trackIds| == h.count
    && |h.pdgIds| == h.count
    && |h.edeps| == h.count
    && |h.times| == h.count
  }

  /** What the contribution operations keep: parallel vectors and the hit energy as their sum. */
  predicate Valid(h: Hit) {
    Parallel(h) && h.edep == Sum(h.edeps)
  }

  /** `addContrib`: append to every vector, add the energy, keep the earliest time (0 means unset). */
  function AddContrib(h: Hit, c: Contrib): (r: Hit)
    ensures r.count == h.count + 1
    ensures r.trackIds == h.trackIds + [c.trackId] && r.pdgIds == h.pdgIds + [c.pdgId]
    ensures r.incidentIds == h.incidentIds + [c.incidentId]
    ensures r.edeps == h.edeps + [c.edep] && r.times == h.times + [c.time]
    ensures r.time == (if c.time < h.time || h.time == 0.0 then c.time else h.time)
    ensures r.id == h.id && r.x == h.x && r.y == h.y && r.z == h.z
    ensures Parallel(h) ==> Parallel(r)
  {
    h.(incidentIds := h.incidentIds + [c.incidentId],
       trackIds := h.trackIds + [c.trackId],
       pdgIds := h.pdgIds + [c.pdgId],
       edeps := h.edeps + [c.edep],
       times := h.times + [c.time],
       edep := h.edep + c.edep,
       time := if c.time < h.time || h.time == 0.0 then c.time else h.time,
       count := h.count + 1)
  }

  lemma SumAppend(s: seq<real>, x: real)
    ensures Sum(s + [x]) == Sum(s) + x
  {
    assert (s + [x])[..|s|] == s;
  }

  /** Adding a contribution keeps the hit energy equal to the sum of the contribution energies. */
  lemma AddContribKeepsValid(h: Hit, c: Contrib)
    requires Valid(h)
    ensures Valid(AddContrib(h, c))
  {
    SumAppend(h.edeps, c.edep);
  }

  /** `getContrib(i)`: every `.at(i)` must be in range. */
  function GetContrib(h: Hit, i: int): (r: Result<Contrib>)
    ensures r.Err? <==> !(0 <= i < |h.incidentIds| && i < |h.trackIds| && i < |h.edeps| && i < |h.times| && i < |h.pdgIds|)
    ensures r.Err? ==> r.error == "out_of_range"
  {
    if 0 <= i < |h.incidentIds| && i < |h.trackIds| && i < |h.edeps| && i < |h.times| && i < |h.pdgIds| then
      Ok(Contrib(h.incidentIds[i], h.trackIds[i], h.pdgIds[i], h.edeps[i], h.times[i]))
    else Err("out_of_range")
  }

  /** The contribution just added is read back whole. */
  lemma GetAddedContrib(h: Hit, c: Contrib)
    requires Parallel(h)
    ensures GetContrib(AddContrib(h, c), h.count) == Ok(c)
  {
  }

  /** Contribution `j` comes from the given track and particle species. */
  predicate Matches(h: Hit, j: nat, trackId: int, pdgId: int)
    requires Parallel(h) && j < h.count
  {
    h.trackIds[j] == trackId && h.pdgIds[j] == pdgId
  }

  /** `findContribIndex`: the first contribution from `(trackId, pdgId)`, or -1. */
  method FindContribIndex(h: Hit, trackId: int, pdgId: int) returns (r: int)
    requires Parallel(h)
    ensures -1 <= r < h.count
    ensures r >= 0 ==> Matches(h, r, trackId, pdgId)
    ensures r >= 0 ==> forall j :: 0 <= j < r ==> !Matches(h, j, trackId, pdgId)
    ensures r == -1 <==> forall j :: 0 <= j < h.count ==> !Matches(h, j, trackId, pdgId)
  {
    var j := 0;
    while j < h.count
      invariant 0 <= j <= h.count
      invariant forall k :: 0 <= k < j ==> !Matches(h, k, trackId, pdgId)
    {
      var c := GetContrib(h, j);
      if c.value.trackId == trackId && c.value.pdgId == pdgId {
        assert Matches(h, j, trackId, pdgId);
        return j;
      }
      j := j + 1;
    }
    return -1;
  }

  /**
   * `updateContrib(i, edep, time)`: add to contribution `i`'s energy and to
   * the hit's, and keep the earlier of the two times for the contribution.
   */
  function UpdateContrib(h: Hit, i: nat, edep: real, time: real): (r: Hit)
    requires Parallel(h) && i < h.count
    ensures Parallel(r) && r.count == h.count
    ensures r.edep == h.edep + edep
    ensures r.edeps[i] == h.edeps[i] + edep
    ensures r.times[i] == (if time < h.times[i] then time else h.times[i])
    ensures r.time == h.time
    ensures forall j :: 0 <= j < h.count && j != i ==> r.edeps[j] == h.edeps[j] && r.times[j] == h.times[j]
    ensures r.trackIds == h.trackIds && r.pdgIds == h.pdgIds && r.incidentIds == h.incidentIds
  {
    h.(edeps := h.edeps[i := h.edeps[i] + edep],
       times := if time < h.times[i] then h.times[i := time] else h.times,
       edep := h.edep + edep)
  }

  lemma {:induction false} SumUpdate(s: seq<real>, i: nat, d: real)
    requires i < |s|
    ensures Sum(s[i := s[i] + d]) == Sum(s) + d
    decreases |s|
  {
    var t := s[i := s[i] + d];
    assert t[..|t| - 1] == if i == |s| - 1 then s[..|s| - 1] else s[..|s| - 1][i := s[i] + d];
    if i < |s| - 1 {
      SumUpdate(s[..|s| - 1], i, d);
    }
  }

  /** Updating a contribution keeps the hit energy equal to the sum of the contribution energies. */
  lemma UpdateContribKeepsValid(h: Hit, i: nat, edep: real, time: real)
    requires Valid(h) && i < h.count
    ensures Valid(UpdateContrib(h, i, edep, time))
  {
    SumUpdate(h.edeps, i, edep);
  }

  /** `clear`: no contributions, and every numeric field zero. */
  function Clear(h: Hit): (r: Hit)
    ensures Valid(r) && r.count == 0
    ensures r.id == 0 && r.edep == 0.0 && r.x == 0.0 && r.y == 0.0 && r.z == 0.0 && r.time == 0.0
  {
    Blank
  }

  /** The hit after `addContrib` with each of the given contributions, in order. */
  function AddAll(h: Hit, cs: seq<Contrib>): Hit {
    if |cs| == 0 then h else AddContrib(AddAll(h, cs[..|cs| - 1]), cs[|cs| - 1])
  }

  function Times(cs: seq<Contrib>): (r: seq<real>)
    ensures |r| == |cs|
    ensures forall k :: 0 <= k < |cs| ==> r[k] == cs[k].time
  {
    if |cs| == 0 then [] else Times(cs[..|cs| - 1]) + [cs[|cs| - 1].time]
  }

  /** The earliest of a non-empty list of times. */
  function Earliest(ts: seq<real>): (m: real)
    requires |ts| > 0
    ensures m in ts
    ensures forall k :: 0 <= k < |ts| ==> m <= ts[k]
  {
    if |ts| == 1 then ts[0]
    else
      var m := Earliest(ts[..|ts| - 1]);
      assert forall k :: 0 <= k < |ts| - 1 ==> ts[..|ts| - 1][k] == ts[k];
      if ts[|ts| - 1] < m then ts[|ts| - 1] else m
  }

  /**
   * Filling a hit from the given contributions: the count and every vector
   * follow the contributions, in order, and the hit energy is their sum.
   */
  lemma {:induction false} FilledHit(h: Hit, cs: seq<Contrib>)
    requires Valid(h) && h.count == 0
    ensures var r := AddAll(h, cs);
      && Valid(r) && r.count == |cs|
      && r.times == Times(cs)
      && (forall k :: 0 <= k < |cs| ==> GetContrib(r, k) == Ok(cs[k]))
    decreases |cs|
  {
    if |cs| > 0 {
      var init := cs[..|cs| - 1];
      FilledHit(h, init);
      var p := AddAll(h, init);
      AddContribKeepsValid(p, cs[|cs| - 1]);
      assert Times(cs)[..|cs| - 1] == Times(init);
      forall k | 0 <= k < |cs|
        ensures GetContrib(AddAll(h, cs), k) == Ok(cs[k])
      {
        if k < |init| {
          assert GetContrib(p, k) == Ok(init[k]);
        }
      }
    }
  }

  /** With positive times, the time of a hit filled after `clear` is the earliest contribution's. */
  lemma {:induction false} FilledHitTime(h: Hit, cs: seq<Contrib>)
    requires |cs| > 0
    requires forall k :: 0 <= k < |cs| ==> cs[k].time > 0.0
    ensures AddAll(Clear(h), cs).time == Earliest(Times(cs))
    decreases |cs|
  {
    var init := cs[..|cs| - 1];
    var ts := Times(cs);
    assert ts[..|cs| - 1] == Times(init);
    if |init| > 0 {
      FilledHitTime(h, init);
      var p := AddAll(Clear(h), init);
      assert p.time in Times(init);
      assert p.time > 0.0;
    }
  }

  /** Hits sort by time alone. */
  predicate Before(a: Hit, b: Hit) {
    a.time < b.time
  }
}
