/**
 * `DetectorConstruction::ConstructSDandField`: which logical volumes each
 * cross-section biasing operator is attached to, chosen by the operator's
 * "volume to bias" through the name tests of `logical_volume_tests`.
 */
module DetectorConstruction {
  import opened Wrappers
  import opened Strings

  /** A logical volume: its name and the name of its region, if it has one. */
  datatype Volume = Volume(name: string, region: Option<string>)

  /**
   * `isInEcal`: a "volume" of silicon, tungsten, PCB, carbon-fibre mix or
   * aluminium; beyond the old test's layers it takes the PCB, carbon-fibre
   * and aluminium ones.
   */
  function IsInEcal(v: Volume): (r: bool)
    ensures r ==> Contains(v.name, "volume")
    ensures r && !Contains(v.name, "Si") && !Contains(v.name, "W") ==>
      Contains(v.name, "PCB") || Contains(v.name, "CFMix") || Contains(v.name, "Al")
  {
    && (Contains(v.name, "Si") || Contains(v.name, "W") || Contains(v.name, "PCB")
        || Contains(v.name, "CFMix") || Contains(v.name, "Al"))
    && Contains(v.name, "volume")
  }

  /** `isInHcal`: a "volume" of an absorber or scintillator box. */
  function IsInHcal(v: Volume): (r: bool)
    ensures r ==> Contains(v.name, "volume")
    ensures r ==> Contains(v.name, "abso") || Contains(v.name, "ScintBox")
  {
    var r := && (Contains(v.name, "abso2") || Contains(v.name, "abso3") || Contains(v.name, "ScintBox")
                 || Contains(v.name, "absoBox"))
             && Contains(v.name, "volume");
    assert r ==> Contains(v.name, "abso") || Contains(v.name, "ScintBox") by {
      if r && !Contains(v.name, "ScintBox") {
        assert OccursAt("abso2", "abso", 0) && OccursAt("abso3", "abso", 0) && OccursAt("absoBox", "abso", 0);
        if Contains(v.name, "abso2") {
          ContainsTransitive(v.name, "abso2", "abso");
        } else if Contains(v.name, "abso3") {
          ContainsTransitive(v.name, "abso3", "abso");
        } else {
          ContainsTransitive(v.name, "absoBox", "abso");
        }
      }
    }
    r
  }

  /** `isInEcalOld`: only the silicon and tungsten layers, all of which the current ECal test accepts. */
  function IsInEcalOld(v: Volume): (r: bool)
    ensures r ==> IsInEcal(v)
  {
    (Contains(v.name, "Si") || Contains(v.name, "W")) && Contains(v.name, "volume")
  }

  /**
   * `isInTargetRegion`: the volume has a region and its name mentions
   * "target"; a volume outside every region is never in it.
   */
  function IsInTargetRegion(v: Volume): (r: bool)
    ensures v.region.None? ==> !r
    ensures v.region.Some? ==> (r <==> IsInTargetOnly(Volume(v.region.value, None)))
  {
    v.region.Some? && Contains(v.region.value, "target")
  }

  /** `isInTargetOnly`: the volume's own name mentions "target", as the name fallback would test it. */
  function IsInTargetOnly(v: Volume): (r: bool)
    ensures r <==> NameContains(v, "target")
  {
    Contains(v.name, "target")
  }

  /** `nameContains`: the fallback, on the requested name itself. */
  predicate NameContains(v: Volume, volumeToBias: string) {
    Contains(v.name, volumeToBias)
  }

  /** The tests a biasing operator can select. */
  datatype Test = Ecal | EcalOld | TargetOnly | TargetRegion | Hcal | ByName

  /** The if-chain on the volume to bias. */
  function SelectTest(volumeToBias: string): (t: Test)
    ensures t == ByName <==> volumeToBias !in {"ecal", "old_ecal", "target", "target_region", "hcal"}
  {
    if volumeToBias == "ecal" then Ecal
    else if volumeToBias == "old_ecal" then EcalOld
    else if volumeToBias == "target" then TargetOnly
    else if volumeToBias == "target_region" then TargetRegion
    else if volumeToBias == "hcal" then Hcal
    else ByName
  }

  predicate Passes(t: Test, v: Volume, volumeToBias: string) {
    match t
    case Ecal => IsInEcal(v)
    case EcalOld => IsInEcalOld(v)
    case TargetOnly => IsInTargetOnly(v)
    case TargetRegion => IsInTargetRegion(v)
    case Hcal => IsInHcal(v)
    case ByName => NameContains(v, volumeToBias)
  }

  /** The current ECal test accepts volumes the old one does not: PCB, carbon-fibre and aluminium layers. */
  lemma EcalWiderThanOld()
    ensures IsInEcal(Volume("PCB_volume", None)) && !IsInEcalOld(Volume("PCB_volume", None))
  {
    var n := "PCB_volume";
    assert OccursAt(n, "PCB", 0);
    assert OccursAt(n, "volume", 4);
    NoCharNoContains(n, "Si", 'S');
    NoCharNoContains(n, "W", 'W');
  }

  /** A name without the first character of `p` does not contain `p`. */
  lemma NoCharNoContains(s: string, p: string, c: char)
    requires |p| > 0 && p[0] == c && c !in s
    ensures !Contains(s, p)
  {
    forall i: nat | i <= |s|
      ensures !OccursAt(s, p, i)
    {
      if i + |p| <= |s| {
        assert s[i..i + |p|][0] == s[i];
      }
    }
  }

  /** A volume-to-bias spelled "target" looks at volume names, "target_region" at region names. */
  lemma TargetTests(v: Volume)
    ensures Passes(SelectTest("target"), v, "target") <==> Contains(v.name, "target")
    ensures Passes(SelectTest("target_region"), v, "target_region")
      <==> v.region.Some? && Contains(v.region.value, "target")
  {
  }

  /** The volumes, in store order, an operator with this volume to bias is attached to. */
  function AttachedVolumes(volumeToBias: string, store: seq<Volume>): (r: seq<Volume>)
    ensures forall v :: v in r <==> v in store && Passes(SelectTest(volumeToBias), v, volumeToBias)
    ensures |r| <= |store|
    decreases |store|
  {
    if |store| == 0 then []
    else
      var init := AttachedVolumes(volumeToBias, store[..|store| - 1]);
      var v := store[|store| - 1];
      assert store == store[..|store| - 1] + [v];
      if Passes(SelectTest(volumeToBias), v, volumeToBias) then init + [v] else init
  }

  /**
   * `ConstructSDandField`: for each operator (given by its volume to bias),
   * the (operator index, volume) attachments, operators in order and
   * volumes in store order.
   */
  function Attachments(operators: seq<string>, store: seq<Volume>): (r: seq<(nat, Volume)>)
    ensures forall i: nat, v: Volume :: (i, v) in r <==> i < |operators| && v in store && Passes(SelectTest(operators[i]), v, operators[i])
    decreases |operators|
  {
    if |operators| == 0 then []
    else
      var last := |operators| - 1;
      var init := Attachments(operators[..last], store);
      var mine := AttachedVolumes(operators[last], store);
      var r := init + seq(|mine|, k requires 0 <= k < |mine| => (last, mine[k]));
      assert forall i: nat, v: Volume :: (i, v) in r <==> i < |operators| && v in store && Passes(SelectTest(operators[i]), v, operators[i]) by {
        forall i: nat, v: Volume | i < |operators| && v in store && Passes(SelectTest(operators[i]), v, operators[i])
          ensures (i, v) in r
        {
          if i == last {
            var k :| 0 <= k < |mine| && mine[k] == v;
            assert r[|init| + k] == (i, v);
          } else {
            assert operators[..last][i] == operators[i];
          }
        }
      }
      r
  }
}
