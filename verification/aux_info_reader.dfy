/**
 * `geo::AuxInfoReader`: the GDML auxiliary information. Global entries
 * describe sensitive detectors, magnetic fields, regions and visualisation
 * attributes by folding over their own key/value lists; volume entries then
 * refer to those objects by name.
 *
 * The string-to-number conversions (`atoi`, `atof`) and the GDML expression
 * evaluator are passed in as functions.
 */
module AuxInfoReader {
  import opened Wrappers

  /** One `G4GDMLAuxStructType` without children: type, value and unit. */
  datatype Entry = Entry(kind: string, value: string, unit: string)

  /** A global aux entry: its type, value (the object's name) and its own list. */
  datatype GlobalEntry = GlobalEntry(kind: string, value: string, unit: string, entries: seq<Entry>)

  datatype Evaluators = Evaluators(atoi: string -> int, atof: string -> real, eval: string -> real)

  /** Which entries a setting listens to: a type, and optionally the only values it accepts. */
  datatype Key = Key(kind: string, only: Option<set<string>>)

  function Any(kind: string): Key { Key(kind, None) }

  function OneOf(kind: string, values: set<string>): Key { Key(kind, Some(values)) }

  predicate Matches(e: Entry, k: Key) {
    e.kind == k.kind && (k.only.Some? ==> e.value in k.only.value)
  }

  /** The index of the last entry a key listens to, or -1. */
  function LastIndex(entries: seq<Entry>, k: Key): (r: int)
    ensures -1 <= r < |entries|
    ensures r == -1 <==> forall j :: 0 <= j < |entries| ==> !Matches(entries[j], k)
    ensures r >= 0 ==> Matches(entries[r], k) && forall j :: r < j < |entries| ==> !Matches(entries[j], k)
    decreases |entries|
  {
    if |entries| == 0 then -1
    else if Matches(entries[|entries| - 1], k) then |entries| - 1
    else
      var f := LastIndex(entries[..|entries| - 1], k);
      assert forall j :: 0 <= j < |entries| - 1 ==> entries[..|entries| - 1][j] == entries[j];
      f
  }

  /** The last entry a key listens to, if any: the reference for every last-wins setting. */
  function Last(entries: seq<Entry>, k: Key): (r: Option<Entry>)
    ensures r.None? <==> forall j :: 0 <= j < |entries| ==> !Matches(entries[j], k)
    ensures r.Some? ==> exists i :: 0 <= i < |entries| && entries[i] == r.value && Matches(r.value, k)
                          && forall j :: i < j < |entries| ==> !Matches(entries[j], k)
  {
    var i := LastIndex(entries, k);
    if i == -1 then None else Some(entries[i])
  }

  /** The index of the first entry a key listens to, or -1: the reference for first-wins. */
  function FirstIndex(entries: seq<Entry>, k: Key): (r: int)
    ensures -1 <= r < |entries|
    ensures r == -1 <==> forall j :: 0 <= j < |entries| ==> !Matches(entries[j], k)
    ensures r >= 0 ==> Matches(entries[r], k) && forall j :: 0 <= j < r ==> !Matches(entries[j], k)
    decreases |entries|
  {
    if |entries| == 0 then -1
    else
      var f := FirstIndex(entries[..|entries| - 1], k);
      assert forall j :: 0 <= j < |entries| - 1 ==> entries[..|entries| - 1][j] == entries[j];
      if f >= 0 then f
      else if Matches(entries[|entries| - 1], k) then |entries| - 1
      else -1
  }

  /** The last value for a key, or the default. */
  function LastValueOr(entries: seq<Entry>, k: Key, def: string): string {
    match Last(entries, k)
    case None => def
    case Some(e) => e.value
  }

  lemma LastOfAppend(entries: seq<Entry>, e: Entry, k: Key)
    ensures Last(entries + [e], k) == if Matches(e, k) then Some(e) else Last(entries, k)
  {
    assert (entries + [e])[..|entries|] == entries;
  }

  /** Some entry of type `kind` has the value `v`. */
  ghost predicate SetBy(entries: seq<Entry>, kind: string, v: string) {
    exists j :: 0 <= j < |entries| && entries[j].kind == kind && entries[j].value == v
  }

  /** Some entry of type `kind` reads as the number `n`. */
  ghost predicate IntSetBy(entries: seq<Entry>, kind: string, n: int, atoi: string -> int) {
    exists j :: 0 <= j < |entries| && entries[j].kind == kind && atoi(entries[j].value) == n
  }

  /** Some entry of type `kind` evaluates, with its unit, to `x`. */
  ghost predicate EvalSetBy(entries: seq<Entry>, kind: string, x: real, eval: string -> real) {
    exists j :: 0 <= j < |entries| && entries[j].kind == kind && eval(entries[j].value + "*" + entries[j].unit) == x
  }

  /** A list with one more entry sets a value exactly when the list before it did or the new entry does. */
  lemma SetByAppend(init: seq<Entry>, e: Entry, kind: string, v: string)
    ensures SetBy(init + [e], kind, v) <==> SetBy(init, kind, v) || (e.kind == kind && e.value == v)
  {
    if SetBy(init, kind, v) {
      var j :| 0 <= j < |init| && init[j].kind == kind && init[j].value == v;
      assert (init + [e])[j] == init[j];
    }
    if e.kind == kind && e.value == v {
      assert (init + [e])[|init|] == e;
    }
    if SetBy(init + [e], kind, v) && !(e.kind == kind && e.value == v) {
      var j :| 0 <= j < |init + [e]| && (init + [e])[j].kind == kind && (init + [e])[j].value == v;
      assert j < |init| && (init + [e])[j] == init[j];
    }
  }

  /** `SetByAppend` for settings read with `atoi`. */
  lemma IntSetByAppend(init: seq<Entry>, e: Entry, kind: string, n: int, atoi: string -> int)
    ensures IntSetBy(init + [e], kind, n, atoi) <==> IntSetBy(init, kind, n, atoi) || (e.kind == kind && atoi(e.value) == n)
  {
    if IntSetBy(init, kind, n, atoi) {
      var j :| 0 <= j < |init| && init[j].kind == kind && atoi(init[j].value) == n;
      assert (init + [e])[j] == init[j];
    }
    if e.kind == kind && atoi(e.value) == n {
      assert (init + [e])[|init|] == e;
    }
    if IntSetBy(init + [e], kind, n, atoi) && !(e.kind == kind && atoi(e.value) == n) {
      var j :| 0 <= j < |init + [e]| && (init + [e])[j].kind == kind && atoi((init + [e])[j].value) == n;
      assert j < |init| && (init + [e])[j] == init[j];
    }
  }

  /** `SetByAppend` for components evaluated with their unit. */
  lemma EvalSetByAppend(init: seq<Entry>, e: Entry, kind: string, x: real, eval: string -> real)
    ensures EvalSetBy(init + [e], kind, x, eval)
      <==> EvalSetBy(init, kind, x, eval) || (e.kind == kind && eval(e.value + "*" + e.unit) == x)
  {
    if EvalSetBy(init, kind, x, eval) {
      var j :| 0 <= j < |init| && init[j].kind == kind && eval(init[j].value + "*" + init[j].unit) == x;
      assert (init + [e])[j] == init[j];
    }
    if e.kind == kind && eval(e.value + "*" + e.unit) == x {
      assert (init + [e])[|init|] == e;
    }
    if EvalSetBy(init + [e], kind, x, eval) && !(e.kind == kind && eval(e.value + "*" + e.unit) == x) {
      var j :| 0 <= j < |init + [e]| && (init + [e])[j].kind == kind && eval((init + [e])[j].value + "*" + (init + [e])[j].unit) == x;
      assert j < |init| && (init + [e])[j] == init[j];
    }
  }

  // ---------------------------------------------------------------- SensDet

  /** The sensitive-detector locals of `createSensitiveDetector`. */
  datatype SensDetConfig = SensDetConfig(
    sdType: string, hcName: string, idName: string, subdetId: int, layerDepth: int, verbose: int)

  const SensDetDefaults := SensDetConfig("", "", "", -1, -1, 0)

  /** One pass of the loop over the sensitive detector's entries. */
  function SensDetStep(c: SensDetConfig, e: Entry, ev: Evaluators): SensDetConfig {
    if e.kind == "SensDetType" then c.(sdType := e.value)
    else if e.kind == "HitsCollection" then c.(hcName := e.value)
    else if e.kind == "Verbose" then c.(verbose := ev.atoi(e.value))
    else if e.kind == "SubdetID" then c.(subdetId := ev.atoi(e.value))
    else if e.kind == "DetectorID" then c.(idName := e.value)
    else if e.kind == "LayerDepth" then c.(layerDepth := ev.atoi(e.value))
    else c
  }

  /**
   * `createSensitiveDetector`'s loop: the defaults, updated entry by entry;
   * every field is its default or the value of an entry of its own type.
   */
  function ReadSensDet(entries: seq<Entry>, ev: Evaluators): (r: SensDetConfig)
    ensures r.sdType == "" || SetBy(entries, "SensDetType", r.sdType)
    ensures r.hcName == "" || SetBy(entries, "HitsCollection", r.hcName)
    ensures r.idName == "" || SetBy(entries, "DetectorID", r.idName)
    ensures r.subdetId == -1 || IntSetBy(entries, "SubdetID", r.subdetId, ev.atoi)
    ensures r.layerDepth == -1 || IntSetBy(entries, "LayerDepth", r.layerDepth, ev.atoi)
    ensures r.verbose == 0 || IntSetBy(entries, "Verbose", r.verbose, ev.atoi)
    decreases |entries|
  {
    if |entries| == 0 then SensDetDefaults
    else
      var init := entries[..|entries| - 1];
      var e := entries[|entries| - 1];
      assert entries == init + [e];
      var prev := ReadSensDet(init, ev);
      var r := SensDetStep(prev, e, ev);
      SensDetStepFields(prev, e, ev);
      SetByAppend(init, e, "SensDetType", r.sdType);
      SetByAppend(init, e, "HitsCollection", r.hcName);
      SetByAppend(init, e, "DetectorID", r.idName);
      IntSetByAppend(init, e, "SubdetID", r.subdetId, ev.atoi);
      IntSetByAppend(init, e, "LayerDepth", r.layerDepth, ev.atoi);
      IntSetByAppend(init, e, "Verbose", r.verbose, ev.atoi);
      r
  }

  /** A number setting read with `atoi`, or its default. */
  function LastInt(entries: seq<Entry>, kind: string, def: int, ev: Evaluators): int {
    match Last(entries, Any(kind))
    case None => def
    case Some(e) => ev.atoi(e.value)
  }

  /** Every sensitive-detector field is its default or the value of its key's last entry. */
  lemma {:induction false} ReadSensDetLastWins(entries: seq<Entry>, ev: Evaluators)
    ensures ReadSensDet(entries, ev) == SensDetConfig(
      LastValueOr(entries, Any("SensDetType"), ""),
      LastValueOr(entries, Any("HitsCollection"), ""),
      LastValueOr(entries, Any("DetectorID"), ""),
      LastInt(entries, "SubdetID", -1, ev),
      LastInt(entries, "LayerDepth", -1, ev),
      LastInt(entries, "Verbose", 0, ev))
    decreases |entries|
  {
    if |entries| > 0 {
      var init := entries[..|entries| - 1];
      var e := entries[|entries| - 1];
      assert entries == init + [e];
      ReadSensDetLastWins(init, ev);
      LastOfAppend(init, e, Any("SensDetType"));
      LastOfAppend(init, e, Any("HitsCollection"));
      LastOfAppend(init, e, Any("DetectorID"));
      LastOfAppend(init, e, Any("SubdetID"));
      LastOfAppend(init, e, Any("LayerDepth"));
      LastOfAppend(init, e, Any("Verbose"));
      assert ReadSensDet(entries, ev) == SensDetStep(ReadSensDet(init, ev), e, ev);
      SensDetStepFields(ReadSensDet(init, ev), e, ev);
    }
  }

  /** What one entry does to each sensitive-detector field. */
  lemma SensDetStepFields(c: SensDetConfig, e: Entry, ev: Evaluators)
    ensures SensDetStep(c, e, ev) == SensDetConfig(
      if e.kind == "SensDetType" then e.value else c.sdType,
      if e.kind == "HitsCollection" then e.value else c.hcName,
      if e.kind == "DetectorID" then e.value else c.idName,
      if e.kind == "SubdetID" then ev.atoi(e.value) else c.subdetId,
      if e.kind == "LayerDepth" then ev.atoi(e.value) else c.layerDepth,
      if e.kind == "Verbose" then ev.atoi(e.value) else c.verbose)
  {
    if e.kind == "SensDetType" {
    } else if e.kind == "HitsCollection" {
    } else if e.kind == "Verbose" {
    } else if e.kind == "SubdetID" {
    } else if e.kind == "DetectorID" {
    } else if e.kind == "LayerDepth" {
    } else {
    }
  }

  // ----------------------------------------------------------- MagneticField

  /**
   * A magnetic field. A field map's offsets are `None` when the list does
   * not set them: the source leaves those doubles uninitialised.
   */
  datatype Field =
    | Uniform(fieldX: real, fieldY: real, fieldZ: real)
    | Map3D(file: string, offsetX: Option<real>, offsetY: Option<real>, offsetZ: Option<real>)

  /** The first "MagneticFieldType" value (the loop breaks on it), or "". */
  function FieldType(entries: seq<Entry>): (t: string)
    ensures t != "" ==> exists i :: 0 <= i < |entries| && entries[i].kind == "MagneticFieldType" && entries[i].value == t
  {
    var i := FirstIndex(entries, Any("MagneticFieldType"));
    if i < 0 then "" else entries[i].value
  }

  /** A component evaluated from "value*unit", last entry wins. */
  function LastEval(entries: seq<Entry>, kind: string, ev: Evaluators): Option<real> {
    match Last(entries, Any(kind))
    case None => None
    case Some(e) => Some(ev.eval(e.value + "*" + e.unit))
  }

  function OrZero(x: Option<real>): real {
    match x
    case None => 0.0
    case Some(v) => v
  }

  /** One pass of the G4UniformMagField loop over (bx, by, bz). */
  function UniformStep(b: (real, real, real), e: Entry, ev: Evaluators): (real, real, real) {
    var x := ev.eval(e.value + "*" + e.unit);
    if e.kind == "bx" then (x, b.1, b.2)
    else if e.kind == "by" then (b.0, x, b.2)
    else if e.kind == "bz" then (b.0, b.1, x)
    else b
  }

  /** The G4UniformMagField loop: each component is zero or the evaluation of an entry of its own type. */
  function ReadUniform(entries: seq<Entry>, ev: Evaluators): (b: (real, real, real))
    ensures b.0 == 0.0 || EvalSetBy(entries, "bx", b.0, ev.eval)
    ensures b.1 == 0.0 || EvalSetBy(entries, "by", b.1, ev.eval)
    ensures b.2 == 0.0 || EvalSetBy(entries, "bz", b.2, ev.eval)
    decreases |entries|
  {
    if |entries| == 0 then (0.0, 0.0, 0.0)
    else
      var init := entries[..|entries| - 1];
      var e := entries[|entries| - 1];
      assert entries == init + [e];
      var b := UniformStep(ReadUniform(init, ev), e, ev);
      EvalSetByAppend(init, e, "bx", b.0, ev.eval);
      EvalSetByAppend(init, e, "by", b.1, ev.eval);
      EvalSetByAppend(init, e, "bz", b.2, ev.eval);
      b
  }

  lemma {:induction false} ReadUniformLastWins(entries: seq<Entry>, ev: Evaluators)
    ensures ReadUniform(entries, ev)
      == (OrZero(LastEval(entries, "bx", ev)), OrZero(LastEval(entries, "by", ev)), OrZero(LastEval(entries, "bz", ev)))
    decreases |entries|
  {
    if |entries| > 0 {
      var init := entries[..|entries| - 1];
      var e := entries[|entries| - 1];
      assert entries == init + [e];
      ReadUniformLastWins(init, ev);
      LastOfAppend(init, e, Any("bx"));
      LastOfAppend(init, e, Any("by"));
      LastOfAppend(init, e, Any("bz"));
    }
  }

  /** The field-map locals: file name and the three offsets. */
  datatype MapConfig = MapConfig(file: string, x: Option<real>, y: Option<real>, z: Option<real>)

  function MapStep(c: MapConfig, e: Entry, ev: Evaluators): MapConfig {
    var v := ev.eval(e.value + "*" + e.unit);
    if e.kind == "File" then c.(file := e.value)
    else if e.kind == "OffsetX" then c.(x := Some(v))
    else if e.kind == "OffsetY" then c.(y := Some(v))
    else if e.kind == "OffsetZ" then c.(z := Some(v))
    else c
  }

  /** The field-map loop: the file is "" or named by a "File" entry, and each offset is unset or evaluated from its own type. */
  function ReadMap(entries: seq<Entry>, ev: Evaluators): (c: MapConfig)
    ensures c.file == "" || SetBy(entries, "File", c.file)
    ensures c.x.Some? ==> EvalSetBy(entries, "OffsetX", c.x.value, ev.eval)
    ensures c.y.Some? ==> EvalSetBy(entries, "OffsetY", c.y.value, ev.eval)
    ensures c.z.Some? ==> EvalSetBy(entries, "OffsetZ", c.z.value, ev.eval)
    decreases |entries|
  {
    if |entries| == 0 then MapConfig("", None, None, None)
    else
      var init := entries[..|entries| - 1];
      var e := entries[|entries| - 1];
      assert entries == init + [e];
      var c := MapStep(ReadMap(init, ev), e, ev);
      SetByAppend(init, e, "File", c.file);
      EvalSetByAppend(init, e, "OffsetX", OrZero(c.x), ev.eval);
      EvalSetByAppend(init, e, "OffsetY", OrZero(c.y), ev.eval);
      EvalSetByAppend(init, e, "OffsetZ", OrZero(c.z), ev.eval);
      c
  }

  lemma {:induction false} ReadMapLastWins(entries: seq<Entry>, ev: Evaluators)
    ensures ReadMap(entries, ev) == MapConfig(
      LastValueOr(entries, Any("File"), ""),
      LastEval(entries, "OffsetX", ev), LastEval(entries, "OffsetY", ev), LastEval(entries, "OffsetZ", ev))
    decreases |entries|
  {
    if |entries| > 0 {
      var init := entries[..|entries| - 1];
      var e := entries[|entries| - 1];
      assert entries == init + [e];
      ReadMapLastWins(init, ev);
      LastOfAppend(init, e, Any("File"));
      LastOfAppend(init, e, Any("OffsetX"));
      LastOfAppend(init, e, Any("OffsetY"));
      LastOfAppend(init, e, Any("OffsetZ"));
    }
  }

  // ------------------------------------------------------- Region and Vis

  /** `createRegion`'s fold over "StoreTrajectories". */
  function RegionStep(store: bool, e: Entry): bool {
    if e.kind == "StoreTrajectories" then
      if e.value == "false" then false
      else if e.value == "true" then true
      else store
    else store
  }

  /** Regions store trajectories by default; only a "StoreTrajectories" entry of "false" turns that off. */
  function ReadRegion(entries: seq<Entry>): (store: bool)
    ensures !store ==> SetBy(entries, "StoreTrajectories", "false")
    decreases |entries|
  {
    if |entries| == 0 then true
    else
      var init := entries[..|entries| - 1];
      var e := entries[|entries| - 1];
      assert entries == init + [e];
      SetByAppend(init, e, "StoreTrajectories", "false");
      RegionStep(ReadRegion(init), e)
  }

  /** A region stores trajectories unless its last exact "true"/"false" setting is "false". */
  lemma {:induction false} ReadRegionLastWins(entries: seq<Entry>)
    ensures ReadRegion(entries) == (LastValueOr(entries, OneOf("StoreTrajectories", {"true", "false"}), "true") == "true")
    decreases |entries|
  {
    if |entries| > 0 {
      var init := entries[..|entries| - 1];
      var e := entries[|entries| - 1];
      assert entries == init + [e];
      ReadRegionLastWins(init);
      LastOfAppend(init, e, OneOf("StoreTrajectories", {"true", "false"}));
      assert ReadRegion(entries) == RegionStep(ReadRegion(init), e);
      RegionStepMatches(ReadRegion(init), e);
    }
  }

  /** What one entry does to the region's flag. */
  lemma RegionStepMatches(store: bool, e: Entry)
    ensures RegionStep(store, e)
      == if Matches(e, OneOf("StoreTrajectories", {"true", "false"})) then e.value == "true" else store
  {
  }

  datatype LineStyle = Unbroken | Dashed | Dotted

  datatype Vis = Vis(
    r: real, g: real, b: real, a: real,
    visible: bool, daughtersInvisible: bool, forceWireframe: bool, forceSolid: bool,
    lineWidth: real, lineStyle: LineStyle)

  const VisDefaults := Vis(1.0, 1.0, 1.0, 1.0, true, false, false, false, 1.0, Unbroken)

  /** A "Style" entry: it can only switch one of the two force flags on. */
  function StyleEntry(v: Vis, value: string): (r: Vis)
    ensures r == v.(forceWireframe := r.forceWireframe, forceSolid := r.forceSolid)
    ensures r.forceWireframe == (value == "wireframe" || v.forceWireframe)
    ensures r.forceSolid == (value == "solid" || v.forceSolid)
  {
    if value == "wireframe" then v.(forceWireframe := true)
    else if value == "solid" then v.(forceSolid := true)
    else v
  }

  /** A "true"/"false" flag entry: any other value leaves the flag as it was. */
  function FlagEntry(current: bool, value: string): (r: bool)
    ensures r == (if value in {"true", "false"} then value == "true" else current)
  {
    if value == "true" then true
    else if value == "false" then false
    else current
  }

  /** A "LineStyle" entry: an unrecognised value leaves the style as it was. */
  function LineStyleEntry(current: LineStyle, value: string): (r: LineStyle)
    ensures r == (if value in {"unbroken", "dashed", "dotted"} then StyleOf(value) else current)
  {
    if value == "unbroken" then Unbroken
    else if value == "dashed" then Dashed
    else if value == "dotted" then Dotted
    else current
  }

  function VisStep(v: Vis, e: Entry, ev: Evaluators): Vis {
    if e.kind == "R" then v.(r := ev.atof(e.value))
    else if e.kind == "G" then v.(g := ev.atof(e.value))
    else if e.kind == "B" then v.(b := ev.atof(e.value))
    else if e.kind == "A" then v.(a := ev.atof(e.value))
    else if e.kind == "Style" then StyleEntry(v, e.value)
    else if e.kind == "DaughtersInvisible" then v.(daughtersInvisible := FlagEntry(v.daughtersInvisible, e.value))
    else if e.kind == "Visible" then v.(visible := FlagEntry(v.visible, e.value))
    else if e.kind == "LineStyle" then v.(lineStyle := LineStyleEntry(v.lineStyle, e.value))
    else if e.kind == "LineWidth" then v.(lineWidth := ev.atof(e.value))
    else v
  }

  /**
   * `createVisAttributes`' loop: a force flag is only ever switched on by a
   * "Style" entry asking for it, and the volume only turns invisible, or
   * its daughters invisible, through an entry saying so.
   */
  function ReadVis(entries: seq<Entry>, ev: Evaluators): (v: Vis)
    ensures v.forceWireframe ==> SetBy(entries, "Style", "wireframe")
    ensures v.forceSolid ==> SetBy(entries, "Style", "solid")
    ensures !v.visible ==> SetBy(entries, "Visible", "false")
    ensures v.daughtersInvisible ==> SetBy(entries, "DaughtersInvisible", "true")
    decreases |entries|
  {
    if |entries| == 0 then VisDefaults
    else
      var init := entries[..|entries| - 1];
      var e := entries[|entries| - 1];
      assert entries == init + [e];
      var prev := ReadVis(init, ev);
      VisStepFlags(prev, e, ev);
      VisStepStyles(prev, e, ev);
      SetByAppend(init, e, "Style", "wireframe");
      SetByAppend(init, e, "Style", "solid");
      SetByAppend(init, e, "Visible", "false");
      SetByAppend(init, e, "DaughtersInvisible", "true");
      VisStep(prev, e, ev)
  }

  function LastReal(entries: seq<Entry>, kind: string, ev: Evaluators): real {
    match Last(entries, Any(kind))
    case None => 1.0
    case Some(e) => ev.atof(e.value)
  }

  function StyleOf(s: string): LineStyle {
    if s == "dashed" then Dashed else if s == "dotted" then Dotted else Unbroken
  }

  /**
   * The reference for the visualisation attributes: numbers from their last
   * entries, flags from their last recognised value, and a "Style" entry
   * only ever switching a force flag on.
   */
  function VisReference(entries: seq<Entry>, ev: Evaluators): Vis {
    Vis(LastReal(entries, "R", ev), LastReal(entries, "G", ev), LastReal(entries, "B", ev), LastReal(entries, "A", ev),
        LastValueOr(entries, OneOf("Visible", {"true", "false"}), "true") == "true",
        LastValueOr(entries, OneOf("DaughtersInvisible", {"true", "false"}), "false") == "true",
        Last(entries, OneOf("Style", {"wireframe"})).Some?,
        Last(entries, OneOf("Style", {"solid"})).Some?,
        LastReal(entries, "LineWidth", ev),
        StyleOf(LastValueOr(entries, OneOf("LineStyle", {"unbroken", "dashed", "dotted"}), "unbroken")))
  }

  /** What one entry does to the colour and the line width. */
  lemma VisStepNumbers(v: Vis, e: Entry, ev: Evaluators)
    ensures VisStep(v, e, ev).r == (if e.kind == "R" then ev.atof(e.value) else v.r)
    ensures VisStep(v, e, ev).g == (if e.kind == "G" then ev.atof(e.value) else v.g)
    ensures VisStep(v, e, ev).b == (if e.kind == "B" then ev.atof(e.value) else v.b)
    ensures VisStep(v, e, ev).a == (if e.kind == "A" then ev.atof(e.value) else v.a)
    ensures VisStep(v, e, ev).lineWidth == (if e.kind == "LineWidth" then ev.atof(e.value) else v.lineWidth)
  {
    if e.kind == "R" {
    } else if e.kind == "G" {
    } else if e.kind == "B" {
    } else if e.kind == "A" {
    } else if e.kind == "LineWidth" {
    } else {
    }
  }

  /** What one entry does to the two visibility flags. */
  lemma VisStepFlags(v: Vis, e: Entry, ev: Evaluators)
    ensures VisStep(v, e, ev).visible
      == (if Matches(e, OneOf("Visible", {"true", "false"})) then e.value == "true" else v.visible)
    ensures VisStep(v, e, ev).daughtersInvisible
      == (if Matches(e, OneOf("DaughtersInvisible", {"true", "false"})) then e.value == "true" else v.daughtersInvisible)
  {
    if e.kind == "Visible" {
    } else if e.kind == "DaughtersInvisible" {
    } else {
    }
  }

  /** What one entry does to the drawing style. */
  lemma VisStepStyles(v: Vis, e: Entry, ev: Evaluators)
    ensures VisStep(v, e, ev).forceWireframe == (Matches(e, OneOf("Style", {"wireframe"})) || v.forceWireframe)
    ensures VisStep(v, e, ev).forceSolid == (Matches(e, OneOf("Style", {"solid"})) || v.forceSolid)
    ensures VisStep(v, e, ev).lineStyle
      == (if Matches(e, OneOf("LineStyle", {"unbroken", "dashed", "dotted"})) then StyleOf(e.value) else v.lineStyle)
  {
    if e.kind == "Style" {
    } else if e.kind == "LineStyle" {
    } else {
    }
  }

  lemma {:induction false} VisNumbers(entries: seq<Entry>, ev: Evaluators)
    ensures var v := ReadVis(entries, ev);
      && v.r == LastReal(entries, "R", ev) && v.g == LastReal(entries, "G", ev)
      && v.b == LastReal(entries, "B", ev) && v.a == LastReal(entries, "A", ev)
      && v.lineWidth == LastReal(entries, "LineWidth", ev)
    decreases |entries|
  {
    if |entries| > 0 {
      var init := entries[..|entries| - 1];
      var e := entries[|entries| - 1];
      assert entries == init + [e];
      VisNumbers(init, ev);
      VisStepNumbers(ReadVis(init, ev), e, ev);
      LastOfAppend(init, e, Any("R"));
      LastOfAppend(init, e, Any("G"));
      LastOfAppend(init, e, Any("B"));
      LastOfAppend(init, e, Any("A"));
      LastOfAppend(init, e, Any("LineWidth"));
    }
  }

  lemma {:induction false} VisFlags(entries: seq<Entry>, ev: Evaluators)
    ensures var v := ReadVis(entries, ev);
      && v.visible == (LastValueOr(entries, OneOf("Visible", {"true", "false"}), "true") == "true")
      && v.daughtersInvisible == (LastValueOr(entries, OneOf("DaughtersInvisible", {"true", "false"}), "false") == "true")
    decreases |entries|
  {
    if |entries| > 0 {
      var init := entries[..|entries| - 1];
      var e := entries[|entries| - 1];
      assert entries == init + [e];
      VisFlags(init, ev);
      VisStepFlags(ReadVis(init, ev), e, ev);
      LastOfAppend(init, e, OneOf("Visible", {"true", "false"}));
      LastOfAppend(init, e, OneOf("DaughtersInvisible", {"true", "false"}));
    }
  }

  lemma {:induction false} VisStyles(entries: seq<Entry>, ev: Evaluators)
    ensures var v := ReadVis(entries, ev);
      && v.forceWireframe == Last(entries, OneOf("Style", {"wireframe"})).Some?
      && v.forceSolid == Last(entries, OneOf("Style", {"solid"})).Some?
      && v.lineStyle == StyleOf(LastValueOr(entries, OneOf("LineStyle", {"unbroken", "dashed", "dotted"}), "unbroken"))
    decreases |entries|
  {
    if |entries| > 0 {
      var init := entries[..|entries| - 1];
      var e := entries[|entries| - 1];
      assert entries == init + [e];
      VisStyles(init, ev);
      VisStepStyles(ReadVis(init, ev), e, ev);
      LastOfAppend(init, e, OneOf("Style", {"wireframe"}));
      LastOfAppend(init, e, OneOf("Style", {"solid"}));
      LastOfAppend(init, e, OneOf("LineStyle", {"unbroken", "dashed", "dotted"}));
    }
  }

  /** The loop computes the reference: last value wins, unrecognised values change nothing. */
  lemma ReadVisLastWins(entries: seq<Entry>, ev: Evaluators)
    ensures ReadVis(entries, ev) == VisReference(entries, ev)
  {
    VisNumbers(entries, ev);
    VisFlags(entries, ev);
    VisStyles(entries, ev);
  }

  // ------------------------------------------------------------ the reader

  /**
   * What the global pass builds: the field store, whether the global
   * detector field is assigned, the regions in creation order with their
   * store-trajectories flag, and the visualisation-attribute store.
   */
  datatype Stores = Stores(
    fields: map<string, Field>, globalField: bool, regions: seq<(string, bool)>, vis: map<string, Vis>)

  /** `createMagneticField`. */
  function CreateMagneticField(s: Stores, name: string, entries: seq<Entry>, ev: Evaluators): (r: Result<Stores>)
    ensures FieldType(entries) == "" ==> r == Err("MissingInfo")
    ensures FieldType(entries) !in {"", "G4UniformMagField", "MagneticFieldMap3D"} ==> r == Err("UnknownType")
    ensures FieldType(entries) == "MagneticFieldMap3D" ==>
              (LastValueOr(entries, Any("File"), "") == "" ==> r == Err("MissingInfo"))
    ensures FieldType(entries) == "MagneticFieldMap3D" ==>
              (LastValueOr(entries, Any("File"), "") != "" && s.globalField ==> r == Err("MisAssign"))
    ensures r.Err? <==>
              || FieldType(entries) !in {"G4UniformMagField", "MagneticFieldMap3D"}
              || (FieldType(entries) == "MagneticFieldMap3D"
                  && (LastValueOr(entries, Any("File"), "") == "" || s.globalField))
    ensures r.Ok? ==>
              && r.value.fields.Keys == s.fields.Keys + {name}
              && r.value.regions == s.regions && r.value.vis == s.vis
    ensures FieldType(entries) == "G4UniformMagField" ==>
              && r.Ok? && r.value.globalField == s.globalField
              && r.value.fields[name]
                 == Uniform(OrZero(LastEval(entries, "bx", ev)), OrZero(LastEval(entries, "by", ev)),
                            OrZero(LastEval(entries, "bz", ev)))
    ensures r.Ok? && FieldType(entries) == "MagneticFieldMap3D" ==>
              && !s.globalField && r.value.globalField
              && r.value.fields[name]
                 == Map3D(LastValueOr(entries, Any("File"), ""), LastEval(entries, "OffsetX", ev),
                          LastEval(entries, "OffsetY", ev), LastEval(entries, "OffsetZ", ev))
  {
    var t := FieldType(entries);
    if t == "" then Err("MissingInfo")
    else if t == "G4UniformMagField" then
      var b := ReadUniform(entries, ev);
      ReadUniformLastWins(entries, ev);
      Ok(s.(fields := s.fields[name := Uniform(b.0, b.1, b.2)]))
    else if t == "MagneticFieldMap3D" then
      var c := ReadMap(entries, ev);
      ReadMapLastWins(entries, ev);
      if |c.file| == 0 then Err("MissingInfo")
      else if s.globalField then Err("MisAssign")
      else Ok(s.(fields := s.fields[name := Map3D(c.file, c.x, c.y, c.z)], globalField := true))
    else Err("UnknownType")
  }

  /** The dispatch of `readGlobalAuxInfo` on one global entry; unknown types are passed over. */
  function Dispatch(s: Stores, g: GlobalEntry, ev: Evaluators): (r: Result<Stores>)
    ensures g.kind !in {"SensDet", "MagneticField", "Region", "VisAttributes"} ==> r == Ok(s)
    ensures g.kind == "SensDet" ==> r == Ok(s)
    ensures g.kind == "Region" ==> r == Ok(s.(regions := s.regions + [(g.value, ReadRegion(g.entries))]))
    ensures g.kind == "VisAttributes" ==> r == Ok(s.(vis := s.vis[g.value := ReadVis(g.entries, ev)]))
    ensures r.Err? ==> g.kind == "MagneticField" && r.error in {"MissingInfo", "UnknownType", "MisAssign"}
    ensures r.Ok? ==> s.fields.Keys <= r.value.fields.Keys && s.vis.Keys <= r.value.vis.Keys
  {
    if g.kind == "SensDet" then
      // The sensitive detector's settings are read, but the source builds
      // and registers nothing from them.
      var _ := ReadSensDet(g.entries, ev);
      Ok(s)
    else if g.kind == "MagneticField" then CreateMagneticField(s, g.value, g.entries, ev)
    else if g.kind == "Region" then Ok(s.(regions := s.regions + [(g.value, ReadRegion(g.entries))]))
    else if g.kind == "VisAttributes" then Ok(s.(vis := s.vis[g.value := ReadVis(g.entries, ev)]))
    else Ok(s)
  }

  /**
   * `readGlobalAuxInfo`: the global entries in order, stopping at the first
   * error. Only a magnetic field can fail, with one of its three
   * categories; a successful pass only adds fields and attributes.
   */
  function ReadGlobal(s: Stores, list: seq<GlobalEntry>, ev: Evaluators): (r: Result<Stores>)
    ensures r.Err? ==> r.error in {"MissingInfo", "UnknownType", "MisAssign"}
    ensures r.Err? ==> exists j :: 0 <= j < |list| && list[j].kind == "MagneticField"
    ensures r.Ok? ==> s.fields.Keys <= r.value.fields.Keys && s.vis.Keys <= r.value.vis.Keys
    decreases |list|
  {
    if |list| == 0 then Ok(s)
    else
      var init := list[..|list| - 1];
      var g := list[|list| - 1];
      var r := ReadGlobal(s, init, ev);
      assert r.Err? ==> exists j :: 0 <= j < |list| && list[j].kind == "MagneticField" by {
        if r.Err? {
          var j :| 0 <= j < |init| && init[j].kind == "MagneticField";
          assert list[j] == init[j];
        }
      }
      assert r.Ok? && Dispatch(r.value, g, ev).Err? ==> list[|list| - 1].kind == "MagneticField";
      var s' :- r;
      Dispatch(s', g, ev)
  }

  /** The regions the global list defines, in order. */
  function RegionsOf(list: seq<GlobalEntry>): seq<(string, bool)>
    decreases |list|
  {
    if |list| == 0 then []
    else
      var g := list[|list| - 1];
      RegionsOf(list[..|list| - 1]) + (if g.kind == "Region" then [(g.value, ReadRegion(g.entries))] else [])
  }

  /** How many global entries define a field map. */
  function MapCount(list: seq<GlobalEntry>): nat
    decreases |list|
  {
    if |list| == 0 then 0
    else
      var g := list[|list| - 1];
      MapCount(list[..|list| - 1])
        + (if g.kind == "MagneticField" && FieldType(g.entries) == "MagneticFieldMap3D" then 1 else 0)
  }

  /**
   * A successful global pass appends every region in order, and defines at
   * most one field map, and none when a global field was already assigned;
   * the global field ends up assigned exactly when it was or a map was defined.
   */
  lemma {:induction false} ReadGlobalOutcome(s: Stores, list: seq<GlobalEntry>, ev: Evaluators)
    ensures var r := ReadGlobal(s, list, ev);
      r.Ok? ==>
        && r.value.regions == s.regions + RegionsOf(list)
        && MapCount(list) <= (if s.globalField then 0 else 1)
        && r.value.globalField == (s.globalField || MapCount(list) == 1)
    decreases |list|
  {
    if |list| > 0 {
      var init := list[..|list| - 1];
      ReadGlobalOutcome(s, init, ev);
      var r0 := ReadGlobal(s, init, ev);
      if r0.Ok? {
        var g := list[|list| - 1];
        assert ReadGlobal(s, list, ev) == Dispatch(r0.value, g, ev);
        if Dispatch(r0.value, g, ev).Ok? {
          DispatchStep(r0.value, g, ev);
        }
      }
    }
  }

  /** What one successful dispatch does to the regions and the global field. */
  lemma DispatchStep(s: Stores, g: GlobalEntry, ev: Evaluators)
    requires Dispatch(s, g, ev).Ok?
    ensures var t := Dispatch(s, g, ev).value;
      && t.regions == s.regions + (if g.kind == "Region" then [(g.value, ReadRegion(g.entries))] else [])
      && (g.kind == "MagneticField" && FieldType(g.entries) == "MagneticFieldMap3D" ==> !s.globalField && t.globalField)
      && (!(g.kind == "MagneticField" && FieldType(g.entries) == "MagneticFieldMap3D") ==> t.globalField == s.globalField)
  {
    if g.kind == "MagneticField" {
      var t := FieldType(g.entries);
      if t == "G4UniformMagField" {
      } else if t == "MagneticFieldMap3D" {
      }
    } else if g.kind == "Region" {
    } else {
      assert s.regions + [] == s.regions;
    }
  }

  /** A second field map is refused, whatever lies between the two. */
  lemma SecondMapRefused(s: Stores, a: GlobalEntry, middle: seq<GlobalEntry>, b: GlobalEntry, ev: Evaluators)
    requires a.kind == "MagneticField" && FieldType(a.entries) == "MagneticFieldMap3D"
    requires b.kind == "MagneticField" && FieldType(b.entries) == "MagneticFieldMap3D"
    ensures ReadGlobal(s, [a] + middle + [b], ev).Err?
  {
    var list := [a] + middle + [b];
    MapCountAtLeast(list, a, b);
    ReadGlobalOutcome(s, list, ev);
  }

  lemma {:induction false} MapCountAtLeast(list: seq<GlobalEntry>, a: GlobalEntry, b: GlobalEntry)
    requires |list| >= 2 && list[0] == a && list[|list| - 1] == b
    requires a.kind == "MagneticField" && FieldType(a.entries) == "MagneticFieldMap3D"
    requires b.kind == "MagneticField" && FieldType(b.entries) == "MagneticFieldMap3D"
    ensures MapCount(list) >= 2
  {
    var init := list[..|list| - 1];
    MapCountFirst(init, a);
  }

  lemma {:induction false} MapCountFirst(list: seq<GlobalEntry>, a: GlobalEntry)
    requires |list| >= 1 && list[0] == a
    requires a.kind == "MagneticField" && FieldType(a.entries) == "MagneticFieldMap3D"
    ensures MapCount(list) >= 1
    decreases |list|
  {
    if |list| > 1 {
      MapCountFirst(list[..|list| - 1], a);
    }
  }

  // -------------------------------------------------------- volume references

  /** A logical volume and its own aux list. */
  datatype LogicalVolume = LogicalVolume(name: string, aux: seq<Entry>)

  datatype RefKind = SensDetRef | FieldRef | RegionRef | VisRef

  /** The names each lookup can find: the sensitive-detector manager and the three stores. */
  datatype Known = Known(sensDets: set<string>, fields: set<string>, regions: set<string>, vis: set<string>)

  function RefKindOf(kind: string): (r: Option<RefKind>)
    ensures r.Some? <==> kind in {"SensDet", "MagneticField", "Region", "VisAttributes"}
  {
    if kind == "SensDet" then Some(SensDetRef)
    else if kind == "MagneticField" then Some(FieldRef)
    else if kind == "Region" then Some(RegionRef)
    else if kind == "VisAttributes" then Some(VisRef)
    else None
  }

  predicate Resolves(k: Known, ref: RefKind, name: string) {
    match ref
    case SensDetRef => name in k.sensDets
    case FieldRef => name in k.fields
    case RegionRef => name in k.regions
    case VisRef => name in k.vis
  }

  /** One assignment: volume (by store index) gets the named object of a kind. */
  datatype Assignment = Assignment(volume: nat, ref: RefKind, name: string)

  /** The references a volume's aux list makes, in order, found or not. */
  function References(index: nat, aux: seq<Entry>): seq<Assignment>
    decreases |aux|
  {
    if |aux| == 0 then []
    else
      var e := aux[|aux| - 1];
      References(index, aux[..|aux| - 1])
        + match RefKindOf(e.kind) case None => [] case Some(ref) => [Assignment(index, ref, e.value)]
  }

  /**
   * The loop over one volume's entries: each reference resolved or
   * "MissingInfo"; everything assigned is this volume's and resolves.
   */
  function AssignVolume(k: Known, index: nat, aux: seq<Entry>): (r: Result<seq<Assignment>>)
    ensures r.Err? ==> r.error == "MissingInfo"
    ensures r.Ok? ==> |r.value| <= |aux|
    ensures r.Ok? ==> forall j :: 0 <= j < |r.value| ==>
      r.value[j].volume == index && Resolves(k, r.value[j].ref, r.value[j].name)
    decreases |aux|
  {
    if |aux| == 0 then Ok([])
    else
      var done :- AssignVolume(k, index, aux[..|aux| - 1]);
      var e := aux[|aux| - 1];
      match RefKindOf(e.kind)
      case None => Ok(done)
      case Some(ref) =>
        if Resolves(k, ref, e.value) then Ok(done + [Assignment(index, ref, e.value)])
        else Err("MissingInfo")
  }

  /**
   * `assignAuxInfoToVolumes` over the logical-volume store, in store order:
   * "MissingInfo" or assignments that all name a volume of the store and
   * resolve.
   */
  function AssignAll(k: Known, volumes: seq<LogicalVolume>): (r: Result<seq<Assignment>>)
    ensures r.Err? ==> r.error == "MissingInfo"
    ensures r.Ok? ==> forall j :: 0 <= j < |r.value| ==>
      r.value[j].volume < |volumes| && Resolves(k, r.value[j].ref, r.value[j].name)
    decreases |volumes|
  {
    if |volumes| == 0 then Ok([])
    else
      var done :- AssignAll(k, volumes[..|volumes| - 1]);
      var mine :- AssignVolume(k, |volumes| - 1, volumes[|volumes| - 1].aux);
      Ok(done + mine)
  }

  /** Every reference of every volume, in order. */
  function AllReferences(volumes: seq<LogicalVolume>): seq<Assignment>
    decreases |volumes|
  {
    if |volumes| == 0 then []
    else AllReferences(volumes[..|volumes| - 1]) + References(|volumes| - 1, volumes[|volumes| - 1].aux)
  }

  lemma {:induction false} AssignVolumeOutcome(k: Known, index: nat, aux: seq<Entry>)
    ensures var r := AssignVolume(k, index, aux);
      && (r.Err? <==> exists a :: a in References(index, aux) && !Resolves(k, a.ref, a.name))
      && (r.Err? ==> r.error == "MissingInfo")
      && (r.Ok? ==> r.value == References(index, aux))
    decreases |aux|
  {
    if |aux| > 0 {
      AssignVolumeOutcome(k, index, aux[..|aux| - 1]);
    }
  }

  /**
   * Assignment fails, with "MissingInfo", exactly when some volume refers to
   * a name its lookup cannot find; otherwise every reference is assigned, in
   * store and list order.
   */
  lemma {:induction false} AssignAllOutcome(k: Known, volumes: seq<LogicalVolume>)
    ensures var r := AssignAll(k, volumes);
      && (r.Err? <==> exists a :: a in AllReferences(volumes) && !Resolves(k, a.ref, a.name))
      && (r.Err? ==> r.error == "MissingInfo")
      && (r.Ok? ==> r.value == AllReferences(volumes))
    decreases |volumes|
  {
    if |volumes| > 0 {
      var init := volumes[..|volumes| - 1];
      AssignAllOutcome(k, init);
      AssignVolumeOutcome(k, |volumes| - 1, volumes[|volumes| - 1].aux);
    }
  }

  /** The names the global pass makes findable, next to those defined elsewhere. */
  function KnownAfter(s: Stores, sensDets: set<string>, otherRegions: set<string>): (k: Known)
    ensures forall i :: 0 <= i < |s.regions| ==> s.regions[i].0 in k.regions
  {
    Known(sensDets, s.fields.Keys, otherRegions + set i | 0 <= i < |s.regions| :: s.regions[i].0, s.vis.Keys)
  }

  /**
   * The two passes together: after a successful global pass, a region
   * reference naming a region that pass created resolves, so the volume
   * pass reports "MissingInfo" for a region only when no "Region" entry
   * defined it.
   */
  lemma {:induction false} GlobalRegionsResolve(s: Stores, list: seq<GlobalEntry>, ev: Evaluators,
                                                sensDets: set<string>, otherRegions: set<string>, j: nat)
    requires ReadGlobal(s, list, ev).Ok?
    requires j < |RegionsOf(list)|
    ensures Resolves(KnownAfter(ReadGlobal(s, list, ev).value, sensDets, otherRegions), RegionRef, RegionsOf(list)[j].0)
  {
    ReadGlobalOutcome(s, list, ev);
    var after := ReadGlobal(s, list, ev).value;
    assert after.regions[|s.regions| + j] == RegionsOf(list)[j];
  }
}
