/**
 * `PrimaryGeneratorAction`: the configuration of the primary generators
 * and the post-processing of the primary vertices they produce — generator
 * statuses defaulted to 1, the event weight as the product of the vertex
 * weights, beam-spot smearing and the shift of t0 to the target.
 *
 * `G4UniformRand` is the function `uniform`: draw `k` of the event is
 * `uniform(k)`, three per vertex (x, y, z) when smearing is on.
 */
module PrimaryGeneratorAction {
  import opened Wrappers
  import opened Parameters
  import PF = PluginFactory
  import EI = UserEventInformation

  /**
   * A primary particle's user information: none, a `UserPrimaryParticleInformation`
   * with its HepEvt status, or an information object of some other class.
   */
  datatype PrimaryInfo = NoInfo | UserInfo(hepStatus: int) | OtherInfo

  datatype Primary = Primary(pdgId: int, px: real, py: real, pz: real, info: PrimaryInfo)

  datatype Vertex = Vertex(x0: real, y0: real, z0: real, t0: real, weight: real, primaries: seq<Primary>)

  /** The parts of a `G4Event` this action touches. */
  datatype Event = Event(info: Option<EI.EventInfo>, vertices: seq<Vertex>)

  /** A primary generator, as what `GeneratePrimaryVertex` makes of the event's vertex list. */
  type Generator = seq<Vertex> -> seq<Vertex>

  /** Smearing widths when `beam_spot_delta` is given, and whether t0 is shifted. */
  datatype Config = Config(smear: Option<(real, real, real)>, timeShift: bool)

  /** The speed of light in mm/ns used for the time shift. */
  const LightSpeed: real := 299.702547

  /**
   * What one entry of the `generators` list yields on its own: its
   * `class_name` and `instance_name` read as strings, then the builder
   * registered under the class applied to the instance name and the entry.
   */
  function BuildOne<G, A, O>(f: PF.Factory<G, A, O>, g: Parameters): Result<G> {
    var className :- GetString(g, "class_name");
    var instance :- GetString(g, "instance_name");
    if className !in f.generatorBuilders then Err("CreateGenerator")
    else Ok(f.generatorBuilders[className](instance, g))
  }

  /**
   * The generators of the list, created in order; the first failure ends the
   * loop. Entry i appends exactly what `BuildOne` makes of it, and the call
   * fails exactly when some entry cannot be built, with the first such
   * entry's error.
   */
  function CreateGenerators<G, A, O>(f: PF.Factory<G, A, O>, gens: seq<Parameters>): (r: Result<PF.Factory<G, A, O>>)
    ensures r.Ok? <==> forall i :: 0 <= i < |gens| ==> BuildOne(f, gens[i]).Ok?
    ensures r.Ok? ==> |r.value.generators| == |f.generators| + |gens|
    ensures r.Ok? ==> r.value.generators[..|f.generators|] == f.generators
    ensures r.Ok? ==> forall i :: 0 <= i < |gens| ==> r.value.generators[|f.generators| + i] == BuildOne(f, gens[i]).value
    ensures r.Ok? ==> r.value.(generators := f.generators) == f
    ensures r.Err? ==>
              exists i :: 0 <= i < |gens| && BuildOne(f, gens[i]).Err? && r.error == BuildOne(f, gens[i]).error
                          && forall j :: 0 <= j < i ==> BuildOne(f, gens[j]).Ok?
    decreases |gens|
  {
    if |gens| == 0 then Ok(f)
    else
      var prefix := gens[..|gens| - 1];
      var g := gens[|gens| - 1];
      var rp := CreateGenerators(f, prefix);
      var r :=
        if rp.Err? then Err(rp.error)
        else
          var className := GetString(g, "class_name");
          var instance := GetString(g, "instance_name");
          if className.Err? then Err(className.error)
          else if instance.Err? then Err(instance.error)
          else PF.CreateGenerator(rp.value, className.value, instance.value, g);
      CreateGeneratorsStep(f, gens, rp, r);
      r
  }

  /** One more entry: the facts `CreateGenerators` promises carry over from the list without its last entry. */
  lemma {:induction false} CreateGeneratorsStep<G, A, O>(f: PF.Factory<G, A, O>, gens: seq<Parameters>,
                                                         rp: Result<PF.Factory<G, A, O>>, r: Result<PF.Factory<G, A, O>>)
    requires |gens| > 0
    requires var prefix := gens[..|gens| - 1];
             && (rp.Ok? <==> forall i :: 0 <= i < |prefix| ==> BuildOne(f, prefix[i]).Ok?)
             && (rp.Ok? ==> |rp.value.generators| == |f.generators| + |prefix|)
             && (rp.Ok? ==> rp.value.generators[..|f.generators|] == f.generators)
             && (rp.Ok? ==> forall i :: 0 <= i < |prefix| ==> rp.value.generators[|f.generators| + i] == BuildOne(f, prefix[i]).value)
             && (rp.Ok? ==> rp.value.(generators := f.generators) == f)
             && (rp.Err? ==>
                   exists i :: 0 <= i < |prefix| && BuildOne(f, prefix[i]).Err? && rp.error == BuildOne(f, prefix[i]).error
                               && forall j :: 0 <= j < i ==> BuildOne(f, prefix[j]).Ok?)
    requires rp.Err? ==> r == Err(rp.error)
    requires rp.Ok? ==> r == (var g := gens[|gens| - 1];
                              var className := GetString(g, "class_name");
                              var instance := GetString(g, "instance_name");
                              if className.Err? then Err(className.error)
                              else if instance.Err? then Err(instance.error)
                              else PF.CreateGenerator(rp.value, className.value, instance.value, g))
    ensures r.Ok? <==> forall i :: 0 <= i < |gens| ==> BuildOne(f, gens[i]).Ok?
    ensures r.Ok? ==> |r.value.generators| == |f.generators| + |gens|
    ensures r.Ok? ==> r.value.generators[..|f.generators|] == f.generators
    ensures r.Ok? ==> forall i :: 0 <= i < |gens| ==> r.value.generators[|f.generators| + i] == BuildOne(f, gens[i]).value
    ensures r.Ok? ==> r.value.(generators := f.generators) == f
    ensures r.Err? ==>
              exists i :: 0 <= i < |gens| && BuildOne(f, gens[i]).Err? && r.error == BuildOne(f, gens[i]).error
                          && forall j :: 0 <= j < i ==> BuildOne(f, gens[j]).Ok?
  {
    var prefix := gens[..|gens| - 1];
    var last := |gens| - 1;
    assert forall i :: 0 <= i < |prefix| ==> prefix[i] == gens[i];
    if rp.Err? {
      var i :| 0 <= i < |prefix| && BuildOne(f, prefix[i]).Err? && rp.error == BuildOne(f, prefix[i]).error
               && forall j :: 0 <= j < i ==> BuildOne(f, prefix[j]).Ok?;
      assert BuildOne(f, gens[i]).Err?;
    } else {
      var f1 := rp.value;
      assert f1.generatorBuilders == f.generatorBuilders;
      if BuildOne(f, gens[last]).Err? {
        assert r.Err? && r.error == BuildOne(f, gens[last]).error;
      } else {
        assert r.Ok?;
        assert r.value.generators == f1.generators + [BuildOne(f, gens[last]).value];
        forall i | 0 <= i < |gens|
          ensures r.value.generators[|f.generators| + i] == BuildOne(f, gens[i]).value
        {
          if i < last {
            assert r.value.generators[|f.generators| + i] == f1.generators[|f.generators| + i];
          }
        }
        assert r.value.generators[..|f.generators|] == f1.generators[..|f.generators|];
      }
    }
  }

  /** The configured `beam_spot_delta`, empty when absent. */
  function BeamSpot(params: Parameters): Result<seq<real>> {
    Defaulted(params, "beam_spot_delta", GetDoubles(params, "beam_spot_delta"), [])
  }

  /** The configured `time_shift_primaries`, true when absent. */
  function TimeShift(params: Parameters): Result<bool> {
    Defaulted(params, "time_shift_primaries", GetBool(params, "time_shift_primaries"), true)
  }

  /** The configured `generators` list, empty when absent. */
  function GeneratorList(params: Parameters): Result<seq<Parameters>> {
    Defaulted(params, "generators", GetParametersList(params, "generators"), [])
  }

  /**
   * The constructor. `beam_spot_delta` switches smearing on when non-empty
   * (its first three entries are read, so a shorter list is not allowed);
   * `time_shift_primaries` defaults to true; an absent or empty
   * `generators` list is "MissingGenerator"; otherwise each entry is built
   * in order, and the first entry that cannot be built is the error.
   */
  function Construct<G, A, O>(params: Parameters, f: PF.Factory<G, A, O>): (r: Result<(Config, PF.Factory<G, A, O>)>)
    requires GetDoubles(params, "beam_spot_delta").Ok? ==> |GetDoubles(params, "beam_spot_delta").value| != 1
    requires GetDoubles(params, "beam_spot_delta").Ok? ==> |GetDoubles(params, "beam_spot_delta").value| != 2
    ensures r.Ok? ==> BeamSpot(params).Ok? && (r.value.0.smear.Some? <==> |BeamSpot(params).value| > 0)
    ensures r.Ok? ==> (r.value.0.timeShift <==> !Exists(params, "time_shift_primaries") || GetBool(params, "time_shift_primaries") == Ok(true))
    ensures BeamSpot(params).Ok? && TimeShift(params).Ok? && GeneratorList(params) == Ok([]) ==> r == Err("MissingGenerator")
    ensures r.Ok? ==>
              && GeneratorList(params).Ok? && |GeneratorList(params).value| > 0
              && |r.value.1.generators| == |f.generators| + |GeneratorList(params).value|
              && CreateGenerators(f, GeneratorList(params).value) == Ok(r.value.1)
    ensures r.Ok? ==>
              forall i :: 0 <= i < |GeneratorList(params).value| ==>
                r.value.1.generators[|f.generators| + i] == BuildOne(f, GeneratorList(params).value[i]).value
    ensures BeamSpot(params).Ok? && TimeShift(params).Ok? && GeneratorList(params).Ok? && |GeneratorList(params).value| > 0 ==>
              (r.Ok? <==> forall i :: 0 <= i < |GeneratorList(params).value| ==> BuildOne(f, GeneratorList(params).value[i]).Ok?)
  {
    var beam :- BeamSpot(params);
    var smear := if |beam| == 0 then None else Some((beam[0], beam[1], beam[2]));
    var timeShift :- TimeShift(params);
    var gens :- GeneratorList(params);
    if |gens| == 0 then Err("MissingGenerator")
    else
      var f1 :- CreateGenerators(f, gens);
      Ok((Config(smear, timeShift), f1))
  }

  /**
   * A primary's status after the loop: a user information with a positive
   * status keeps it; anything else ends as a user information with status 1
   * (a missing or foreign one is replaced by a fresh one, whose status -1 is
   * then raised).
   */
  function FixStatus(p: Primary): (r: Primary)
    ensures r.info.UserInfo? && r.info.hepStatus >= 1
    ensures r.info.hepStatus == (if p.info.UserInfo? && p.info.hepStatus > 0 then p.info.hepStatus else 1)
    ensures r.(info := p.info) == p
  {
    match p.info
    case UserInfo(s) => if s <= 0 then p.(info := UserInfo(1)) else p
    case _ => p.(info := UserInfo(1))
  }

  /** The treatment of vertex `i`: statuses, then smearing, then the time shift from the smeared z0. */
  function ProcessVertex(cfg: Config, v: Vertex, i: nat, uniform: nat -> real): (r: Vertex)
    ensures |r.primaries| == |v.primaries|
    ensures forall j :: 0 <= j < |v.primaries| ==> r.primaries[j] == FixStatus(v.primaries[j])
    ensures r.weight == v.weight
    ensures cfg.smear.None? ==> r.x0 == v.x0 && r.y0 == v.y0 && r.z0 == v.z0
    ensures cfg.smear.Some? ==>
              && r.x0 == v.x0 + cfg.smear.value.0 * (uniform(3 * i) - 0.5)
              && r.y0 == v.y0 + cfg.smear.value.1 * (uniform(3 * i + 1) - 0.5)
              && r.z0 == v.z0 + cfg.smear.value.2 * (uniform(3 * i + 2) - 0.5)
    ensures r.t0 == (if cfg.timeShift then v.t0 + r.z0 / LightSpeed else v.t0)
  {
    var ps := seq(|v.primaries|, j requires 0 <= j < |v.primaries| => FixStatus(v.primaries[j]));
    var v1 := v.(primaries := ps);
    var v2 :=
      if cfg.smear.Some? then
        var d := cfg.smear.value;
        v1.(x0 := d.0 * (uniform(3 * i) - 0.5) + v1.x0,
            y0 := d.1 * (uniform(3 * i + 1) - 0.5) + v1.y0,
            z0 := d.2 * (uniform(3 * i + 2) - 0.5) + v1.z0)
      else v1;
    if cfg.timeShift then v2.(t0 := v2.t0 + v2.z0 / LightSpeed) else v2
  }

  /** The generators in order, each extending the vertex list. */
  function RunGenerators(gens: seq<Generator>, vs: seq<Vertex>): seq<Vertex>
    decreases |gens|
  {
    if |gens| == 0 then vs else gens[|gens| - 1](RunGenerators(gens[..|gens| - 1], vs))
  }

  /** The event-weight calls: one `incWeight` per vertex, in order. */
  function WeightCalls(vs: seq<Vertex>): (us: seq<EI.Update>)
    ensures |us| == |vs|
    ensures forall i :: 0 <= i < |vs| ==> us[i] == EI.IncWeight(vs[i].weight)
  {
    seq(|vs|, i requires 0 <= i < |vs| => EI.IncWeight(vs[i].weight))
  }

  function Product(vs: seq<Vertex>): real
    decreases |vs|
  {
    if |vs| == 0 then 1.0 else Product(vs[..|vs| - 1]) * vs[|vs| - 1].weight
  }

  /** `GeneratePrimaries`. */
  function GeneratePrimaries(cfg: Config, ev: Event, gens: seq<Generator>, uniform: nat -> real): (r: Result<Event>)
    ensures ev.info.Some? ==> r == Err("Misconfig")
    ensures ev.info.None? && |RunGenerators(gens, ev.vertices)| == 0 ==> r == Err("NoPrimaries")
    ensures r.Ok? ==>
              var vs := RunGenerators(gens, ev.vertices);
              && |r.value.vertices| == |vs| > 0
              && (forall i :: 0 <= i < |vs| ==> r.value.vertices[i] == ProcessVertex(cfg, vs[i], i, uniform))
              && r.value.info == Some(EI.ApplyAll(EI.Fresh, WeightCalls(vs)))
  {
    if ev.info.Some? then Err("Misconfig")
    else
      var vs := RunGenerators(gens, ev.vertices);
      if |vs| == 0 then Err("NoPrimaries")
      else
        var info := EI.ApplyAll(EI.Fresh, WeightCalls(vs));
        Ok(Event(Some(info), seq(|vs|, i requires 0 <= i < |vs| => ProcessVertex(cfg, vs[i], i, uniform))))
  }

  lemma {:induction false} WeightOfCalls(vs: seq<Vertex>)
    ensures EI.WeightOf(WeightCalls(vs)) == Product(vs)
    decreases |vs|
  {
    if |vs| > 0 {
      var init := vs[..|vs| - 1];
      WeightOfCalls(init);
      assert WeightCalls(vs)[..|vs| - 1] == WeightCalls(init);
    }
  }

  /**
   * A successful event carries the product of its vertex weights (starting
   * from 1), and every primary ends with a user information and a positive
   * status.
   */
  lemma GeneratedEvent(cfg: Config, ev: Event, gens: seq<Generator>, uniform: nat -> real)
    requires GeneratePrimaries(cfg, ev, gens, uniform).Ok?
    ensures var out := GeneratePrimaries(cfg, ev, gens, uniform).value;
      && out.info.Some? && out.info.value.weight == Product(RunGenerators(gens, ev.vertices))
      && forall i, j :: 0 <= i < |out.vertices| && 0 <= j < |out.vertices[i].primaries| ==>
           out.vertices[i].primaries[j].info.UserInfo? && out.vertices[i].primaries[j].info.hepStatus >= 1
  {
    var vs := RunGenerators(gens, ev.vertices);
    EI.HistoryFromFresh(WeightCalls(vs));
    WeightOfCalls(vs);
  }
}
