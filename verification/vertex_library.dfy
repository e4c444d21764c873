/**
 * The vertex library of the dark-brem model: reading dark-brem events out of
 * LHE files (`ParseLHE`, `SetMadGraphDataLibrary`), storing them in bins
 * keyed by the beam energy they were generated at, and handing them out one
 * at a time through a per-bin cursor (`MakePlaceholders`, `GetMadgraphData`).
 *
 * Reading a file is replaced by its lines; the directory listing by a
 * sequence of entries; `istringstream >>` by a row parser passed in; and
 * `G4UniformRand` by a stream of draws.
 */
module VertexLibrary {
  import opened Wrappers
  import opened Strings
  import opened FourVector

  /** One library vertex: the recoil electron, the electron + A' system, and the beam energy. */
  datatype OutgoingKinematics = OutgoingKinematics(electron: Vec4, centerMomentum: Vec4, e: real)

  /**
   * The numeric fields of an LHE particle line that the scanner keeps:
   * PDG id, status, momentum, energy and mass (the four skipped columns are
   * dropped).
   */
  datatype LheRow = LheRow(ptype: int, state: int, px: real, py: real, pz: real, e: real, m: real)

  /** Reading the eleven leading numbers of a line; `None` when one of them does not parse. */
  type RowParser = string -> Option<LheRow>

  // ---------------------------------------------------------------------
  // Scanning one LHE file
  // ---------------------------------------------------------------------

  predicate IsInitialElectron(r: LheRow) {
    r.ptype == 11 && r.state == -1
  }

  predicate IsFinalElectron(r: LheRow) {
    r.ptype == 11 && r.state == 1
  }

  predicate IsFinalAPrime(r: LheRow) {
    r.ptype == 622 && r.state == 1
  }

  /** The parsed line `i`; a line past the end of the file does not parse. */
  function RowAt(parse: RowParser, lines: seq<string>, i: int): Option<LheRow> {
    if 0 <= i < |lines| then parse(lines[i]) else None
  }

  function Abs(x: real): (r: real)
    ensures r >= 0.0
    ensures r == x || r == -x
  {
    if x < 0.0 then -x else x
  }

  /**
   * The A' mass check `|1 - aM / ma| > 1e-3`, multiplied through by `|ma|`
   * so that it has a value for every `ma` (for `ma == 0` the division gives
   * an infinity, which fails the check, unless `aM` is 0 as well, where it
   * gives a NaN, which passes it; the cleared form agrees on both).
   */
  predicate MassMismatch(aM: real, ma: real) {
    Abs(ma - aM) > Abs(ma) / 1000.0
  }

  lemma MassMismatchIsRelative(aM: real, ma: real)
    requires ma != 0.0
    ensures MassMismatch(aM, ma) <==> Abs(1.0 - aM / ma) > 1.0 / 1000.0
  {
    var q := aM / ma;
    QuotientTimes(aM, ma);
    AbsProduct(1.0 - q, ma);
    var a := Abs(1.0 - q);
    var b := Abs(ma);
    CompareScaled(Abs(ma - aM), a, b);
  }

  lemma QuotientTimes(x: real, y: real)
    requires y != 0.0
    ensures y - x == (1.0 - x / y) * y
  {
  }

  lemma CompareScaled(m: real, a: real, b: real)
    requires b > 0.0 && m == a * b
    ensures m > b / 1000.0 <==> a > 1.0 / 1000.0
  {
    if a > 1.0 / 1000.0 {
      MulLess(1.0 / 1000.0, a, b);
    } else {
      MulAtMost(a, 1.0 / 1000.0, b);
    }
  }

  lemma AbsProduct(x: real, y: real)
    ensures Abs(x * y) == Abs(x) * Abs(y)
  {
    if x < 0.0 && y < 0.0 {
      MulPositive(-x, -y);
    } else if x < 0.0 && y > 0.0 {
      MulPositive(-x, y);
    } else if x > 0.0 && y < 0.0 {
      MulPositive(x, -y);
    } else if x > 0.0 && y > 0.0 {
      MulPositive(x, y);
    }
  }

  lemma MulLess(a: real, c: real, b: real)
    requires a < c && b > 0.0
    ensures a * b < c * b
  {
    MulPositive(c - a, b);
  }

  lemma MulAtMost(c: real, a: real, b: real)
    requires c <= a && b > 0.0
    ensures c * b <= a * b
  {
    if c < a {
      MulPositive(a - c, b);
    }
  }

  /** The vertex stored for an initial electron at `ebeam`, a final electron and an A'. */
  function Vertex(ebeam: real, el: LheRow, ap: LheRow): (v: OutgoingKinematics)
    ensures v.e == ebeam
    ensures v.centerMomentum == Add4(v.electron, Vec4(ap.px, ap.py, ap.pz, ap.e))
  {
    OutgoingKinematics(
      Vec4(el.px, el.py, el.pz, el.e),
      Vec4(ap.px + el.px, ap.py + el.py, ap.pz + el.pz, ap.e + el.e),
      ebeam)
  }

  /**
   * The scan of `ParseLHE` from line `i` on. An initial electron makes the
   * scanner skip one line and read the next as the final electron; if that
   * matches, it skips one more and reads the A'. A line that does not match
   * is consumed, not re-examined as the start of a new event.
   */
  function ScanFrom(parse: RowParser, lines: seq<string>, ma: real, i: nat): (r: Result<seq<OutgoingKinematics>>)
    ensures r.Err? ==> r.error == "BadMGEvnt"
    ensures r.Ok? && |r.value| > 0 ==> i + 5 * |r.value| <= |lines|
    decreases |lines| - i
  {
    if i >= |lines| then Ok([])
    else
      var init := parse(lines[i]);
      if !(init.Some? && IsInitialElectron(init.value)) then ScanFrom(parse, lines, ma, i + 1)
      else
        var el := RowAt(parse, lines, i + 2);
        if !(el.Some? && IsFinalElectron(el.value)) then ScanFrom(parse, lines, ma, i + 3)
        else
          var ap := RowAt(parse, lines, i + 4);
          if !(ap.Some? && IsFinalAPrime(ap.value)) then ScanFrom(parse, lines, ma, i + 5)
          else if MassMismatch(ap.value.m, ma) then Err("BadMGEvnt")
          else
            match ScanFrom(parse, lines, ma, i + 5)
            case Err(e) => Err(e)
            case Ok(rest) => Ok([Vertex(init.value.e, el.value, ap.value)] + rest)
  }

  /**
   * `ParseLHE` on the lines of one file: every vertex comes from a triple of
   * at least five lines, and the file fails only on an A' of the wrong mass.
   * Conversely, an A' of the wrong mass at a triple the scan reaches makes
   * the file fail, and a reached triple of the right mass is stored.
   */
  function ScanLhe(parse: RowParser, lines: seq<string>, ma: real): (r: Result<seq<OutgoingKinematics>>)
    ensures r.Ok? ==> 5 * |r.value| <= |lines|
    ensures r.Ok? ==> forall k :: 0 <= k < |r.value| ==> FromTriple(parse, lines, ma, 0, r.value[k])
    ensures r.Err? ==> && r.error == "BadMGEvnt"
                       && exists j :: 0 <= j && TripleAt(parse, lines, j) && MassMismatch(parse(lines[j + 4]).value.m, ma)
    ensures forall j: nat :: ReachedMismatch(parse, lines, ma, j) ==> r == Err("BadMGEvnt")
    ensures r.Ok? ==> forall j: nat :: ReachedMatch(parse, lines, ma, j) ==> TripleVertex(parse, lines, j) in r.value
  {
    var r := ScanFrom(parse, lines, ma, 0);
    assert r.Ok? ==> forall k :: 0 <= k < |r.value| ==> FromTriple(parse, lines, ma, 0, r.value[k]) by {
      if r.Ok? { ScanSound(parse, lines, ma, 0); }
    }
    assert r.Err? ==> exists j :: 0 <= j && TripleAt(parse, lines, j) && MassMismatch(parse(lines[j + 4]).value.m, ma) by {
      if r.Err? { ScanFailsOnlyOnMass(parse, lines, ma, 0); }
    }
    assert forall j: nat :: ReachedMismatch(parse, lines, ma, j) ==> r == Err("BadMGEvnt") by {
      forall j: nat | ReachedMismatch(parse, lines, ma, j)
        ensures r == Err("BadMGEvnt")
      {
        ScanThrowsOnReachedMismatch(parse, lines, ma, 0, j);
      }
    }
    assert r.Ok? ==> forall j: nat :: ReachedMatch(parse, lines, ma, j) ==> TripleVertex(parse, lines, j) in r.value by {
      if r.Ok? {
        forall j: nat | ReachedMatch(parse, lines, ma, j)
          ensures TripleVertex(parse, lines, j) in r.value
        {
          ScanKeepsReachedTriple(parse, lines, ma, 0, j);
        }
      }
    }
    r
  }

  /** The line the scan of `ParseLHE` moves to from line `i`. */
  function NextScan(parse: RowParser, lines: seq<string>, i: nat): (n: nat)
    requires i < |lines|
    ensures i < n <= i + 5
  {
    var init := parse(lines[i]);
    if !(init.Some? && IsInitialElectron(init.value)) then i + 1
    else
      var el := RowAt(parse, lines, i + 2);
      if !(el.Some? && IsFinalElectron(el.value)) then i + 3
      else i + 5
  }

  /** The scan started at line `i` looks at line `j` as the possible start of an event. */
  ghost predicate ReachedFrom(parse: RowParser, lines: seq<string>, i: nat, j: nat)
    decreases |lines| - i
  {
    i == j || (i < j && i < |lines| && ReachedFrom(parse, lines, NextScan(parse, lines, i), j))
  }

  /** The scan of a whole file reaches a triple at line `j` whose A' has the wrong mass. */
  ghost predicate ReachedMismatch(parse: RowParser, lines: seq<string>, ma: real, j: nat)
  {
    ReachedFrom(parse, lines, 0, j) && TripleAt(parse, lines, j) && MassMismatch(parse(lines[j + 4]).value.m, ma)
  }

  /** The scan of a whole file reaches a triple at line `j` whose A' has the model's mass. */
  ghost predicate ReachedMatch(parse: RowParser, lines: seq<string>, ma: real, j: nat)
  {
    ReachedFrom(parse, lines, 0, j) && TripleAt(parse, lines, j) && !MassMismatch(parse(lines[j + 4]).value.m, ma)
  }

  /** A reached triple whose A' has the wrong mass makes the scan fail with "BadMGEvnt". */
  lemma {:induction false} ScanThrowsOnReachedMismatch(parse: RowParser, lines: seq<string>, ma: real, i: nat, j: nat)
    requires ReachedFrom(parse, lines, i, j) && TripleAt(parse, lines, j)
    requires MassMismatch(parse(lines[j + 4]).value.m, ma)
    ensures ScanFrom(parse, lines, ma, i) == Err("BadMGEvnt")
    decreases |lines| - i
  {
    if i == j {
      ScanFromMismatch(parse, lines, ma, i);
    } else {
      var n := NextScan(parse, lines, i);
      ScanThrowsOnReachedMismatch(parse, lines, ma, n, j);
      ScanFromStep(parse, lines, ma, i);
    }
  }

  /** A reached triple whose A' has the model's mass is among the vertices of a successful scan. */
  lemma {:induction false} ScanKeepsReachedTriple(parse: RowParser, lines: seq<string>, ma: real, i: nat, j: nat)
    requires ReachedFrom(parse, lines, i, j) && TripleAt(parse, lines, j)
    requires !MassMismatch(parse(lines[j + 4]).value.m, ma)
    requires ScanFrom(parse, lines, ma, i).Ok?
    ensures TripleVertex(parse, lines, j) in ScanFrom(parse, lines, ma, i).value
    decreases |lines| - i
  {
    if i == j {
      ScanFromMatch(parse, lines, ma, i);
    } else {
      var n := NextScan(parse, lines, i);
      ScanFromStep(parse, lines, ma, i);
      ScanKeepsReachedTriple(parse, lines, ma, n, j);
    }
  }

  /**
   * One step of the scan: it fails when the next position's scan fails, and
   * otherwise holds that scan's vertices after at most one vertex of its own.
   */
  lemma ScanFromStep(parse: RowParser, lines: seq<string>, ma: real, i: nat)
    requires i < |lines|
    ensures var n := NextScan(parse, lines, i);
      && (ScanFrom(parse, lines, ma, n).Err? ==> ScanFrom(parse, lines, ma, i) == Err("BadMGEvnt"))
      && (ScanFrom(parse, lines, ma, i).Ok? ==>
            ScanFrom(parse, lines, ma, n).Ok?
            && exists pre :: |pre| <= 1 && ScanFrom(parse, lines, ma, i).value == pre + ScanFrom(parse, lines, ma, n).value)
  {
    var n := NextScan(parse, lines, i);
    var r := ScanFrom(parse, lines, ma, i);
    var rn := ScanFrom(parse, lines, ma, n);
    if n == i + 5 && TripleAt(parse, lines, i) && !MassMismatch(parse(lines[i + 4]).value.m, ma) {
      if rn.Ok? {
        assert r.value == [TripleVertex(parse, lines, i)] + rn.value;
      }
    } else if !(n == i + 5 && TripleAt(parse, lines, i)) {
      if rn.Ok? {
        assert r.value == [] + rn.value;
      }
    }
  }

  /**
   * A file made of `k` five-line events, each an initial electron, a final
   * electron and an A' of the model's mass, yields exactly their vertices,
   * in file order.
   */
  lemma ScanBlocks(parse: RowParser, lines: seq<string>, ma: real, k: nat)
    requires |lines| == 5 * k
    requires forall b :: 0 <= b < k ==> MatchingBlock(parse, lines, ma, b)
    ensures ScanLhe(parse, lines, ma).Ok?
    ensures |ScanLhe(parse, lines, ma).value| == k
    ensures forall b :: 0 <= b < k ==> MatchingBlock(parse, lines, ma, b) && ScanLhe(parse, lines, ma).value[b] == TripleVertex(parse, lines, 5 * b)
  {
    ScanBlocksFrom(parse, lines, ma, k, 0);
    var r := ScanFrom(parse, lines, ma, 0);
    assert ScanLhe(parse, lines, ma) == r;
    forall b | 0 <= b < k
      ensures MatchingBlock(parse, lines, ma, b) && r.value[b] == TripleVertex(parse, lines, 5 * b)
    {
      assert MatchingBlock(parse, lines, ma, b);
      assert r.value[b - 0] == TripleVertex(parse, lines, 5 * b);
    }
  }

  /** Block `b` of five lines is an event whose A' has the model's mass. */
  ghost predicate MatchingBlock(parse: RowParser, lines: seq<string>, ma: real, b: int)
  {
    TripleAt(parse, lines, 5 * b) && !MassMismatch(parse(lines[5 * b + 4]).value.m, ma)
  }

  lemma {:induction false} ScanBlocksFrom(parse: RowParser, lines: seq<string>, ma: real, k: nat, c: nat)
    requires |lines| == 5 * k && c <= k
    requires forall b :: 0 <= b < k ==> MatchingBlock(parse, lines, ma, b)
    ensures ScanFrom(parse, lines, ma, 5 * c).Ok?
    ensures |ScanFrom(parse, lines, ma, 5 * c).value| == k - c
    ensures forall b :: c <= b < k ==> MatchingBlock(parse, lines, ma, b) && ScanFrom(parse, lines, ma, 5 * c).value[b - c] == TripleVertex(parse, lines, 5 * b)
    decreases k - c
  {
    if c < k {
      assert MatchingBlock(parse, lines, ma, c);
      ScanBlocksFrom(parse, lines, ma, k, c + 1);
      ScanBlocksStep(parse, lines, ma, k, c);
    }
  }

  /** The step of `ScanBlocksFrom`: block `c` goes in front of the blocks after it. */
  lemma ScanBlocksStep(parse: RowParser, lines: seq<string>, ma: real, k: nat, c: nat)
    requires |lines| == 5 * k && c < k && MatchingBlock(parse, lines, ma, c)
    requires ScanFrom(parse, lines, ma, 5 * (c + 1)).Ok?
    requires |ScanFrom(parse, lines, ma, 5 * (c + 1)).value| == k - (c + 1)
    requires forall b :: c + 1 <= b < k ==>
      MatchingBlock(parse, lines, ma, b) && ScanFrom(parse, lines, ma, 5 * (c + 1)).value[b - (c + 1)] == TripleVertex(parse, lines, 5 * b)
    ensures ScanFrom(parse, lines, ma, 5 * c).Ok?
    ensures |ScanFrom(parse, lines, ma, 5 * c).value| == k - c
    ensures forall b :: c <= b < k ==>
      MatchingBlock(parse, lines, ma, b) && ScanFrom(parse, lines, ma, 5 * c).value[b - c] == TripleVertex(parse, lines, 5 * b)
  {
    assert 5 * c + 5 == 5 * (c + 1);
    ScanFromMatch(parse, lines, ma, 5 * c);
    var r := ScanFrom(parse, lines, ma, 5 * c);
    var rest := ScanFrom(parse, lines, ma, 5 * (c + 1));
    assert r.value == [TripleVertex(parse, lines, 5 * c)] + rest.value;
    forall b | c < b < k
      ensures MatchingBlock(parse, lines, ma, b) && r.value[b - c] == TripleVertex(parse, lines, 5 * b)
    {
      assert r.value[b - c] == rest.value[b - (c + 1)];
    }
  }

  /** A triple at line `i` whose A' has the wrong mass makes the scan from `i` fail. */
  lemma ScanFromMismatch(parse: RowParser, lines: seq<string>, ma: real, i: nat)
    requires TripleAt(parse, lines, i) && MassMismatch(parse(lines[i + 4]).value.m, ma)
    ensures ScanFrom(parse, lines, ma, i) == Err("BadMGEvnt")
  {
  }

  /** A triple of the model's mass at line `i` puts its vertex in front of the scan from `i + 5`. */
  lemma ScanFromMatch(parse: RowParser, lines: seq<string>, ma: real, i: nat)
    requires TripleAt(parse, lines, i) && !MassMismatch(parse(lines[i + 4]).value.m, ma)
    ensures ScanFrom(parse, lines, ma, i + 5).Ok? ==>
      ScanFrom(parse, lines, ma, i) == Ok([TripleVertex(parse, lines, i)] + ScanFrom(parse, lines, ma, i + 5).value)
    ensures ScanFrom(parse, lines, ma, i + 5).Err? ==> ScanFrom(parse, lines, ma, i) == ScanFrom(parse, lines, ma, i + 5)
  {
  }


  /** Lines `i`, `i + 2` and `i + 4` hold an initial electron, a final electron and an A'. */
  ghost predicate TripleAt(parse: RowParser, lines: seq<string>, i: int) {
    && 0 <= i && i + 4 < |lines|
    && parse(lines[i]).Some? && IsInitialElectron(parse(lines[i]).value)
    && parse(lines[i + 2]).Some? && IsFinalElectron(parse(lines[i + 2]).value)
    && parse(lines[i + 4]).Some? && IsFinalAPrime(parse(lines[i + 4]).value)
  }

  /** The vertex the triple at `i` stands for. */
  ghost function TripleVertex(parse: RowParser, lines: seq<string>, i: int): OutgoingKinematics
    requires TripleAt(parse, lines, i)
  {
    Vertex(parse(lines[i]).value.e, parse(lines[i + 2]).value, parse(lines[i + 4]).value)
  }

  /** `v` is the vertex of a triple, with an A' of the right mass, at line `i` or later. */
  ghost predicate FromTriple(parse: RowParser, lines: seq<string>, ma: real, i: int, v: OutgoingKinematics) {
    exists j :: i <= j && TripleAt(parse, lines, j) && !MassMismatch(parse(lines[j + 4]).value.m, ma)
      && v == TripleVertex(parse, lines, j)
  }

  lemma FromTripleWeaken(parse: RowParser, lines: seq<string>, ma: real, i: int, i2: int, v: OutgoingKinematics)
    requires i <= i2 && FromTriple(parse, lines, ma, i2, v)
    ensures FromTriple(parse, lines, ma, i, v)
  {
    var j :| i2 <= j && TripleAt(parse, lines, j) && !MassMismatch(parse(lines[j + 4]).value.m, ma)
      && v == TripleVertex(parse, lines, j);
  }

  /** Every stored vertex comes from an electron/electron/A' triple whose A' has the model's mass. */
  lemma {:induction false} ScanSound(parse: RowParser, lines: seq<string>, ma: real, i: nat)
    requires ScanFrom(parse, lines, ma, i).Ok?
    ensures var vs := ScanFrom(parse, lines, ma, i).value;
      forall k :: 0 <= k < |vs| ==> FromTriple(parse, lines, ma, i, vs[k])
    decreases |lines| - i
  {
    if i < |lines| {
      var vs := ScanFrom(parse, lines, ma, i).value;
      var init := parse(lines[i]);
      var el := RowAt(parse, lines, i + 2);
      var ap := RowAt(parse, lines, i + 4);
      var next := if !(init.Some? && IsInitialElectron(init.value)) then i + 1
        else if !(el.Some? && IsFinalElectron(el.value)) then i + 3
        else i + 5;
      ScanSound(parse, lines, ma, next);
      var rest := ScanFrom(parse, lines, ma, next).value;
      if next == i + 5 && ap.Some? && IsFinalAPrime(ap.value) {
        assert TripleAt(parse, lines, i);
        assert vs == [TripleVertex(parse, lines, i)] + rest;
        forall k | 0 <= k < |vs| ensures FromTriple(parse, lines, ma, i, vs[k]) {
          if k == 0 {
            assert vs[0] == TripleVertex(parse, lines, i);
          } else {
            assert vs[k] == rest[k - 1];
            FromTripleWeaken(parse, lines, ma, i, next, vs[k]);
          }
        }
      } else {
        assert vs == rest;
        forall k | 0 <= k < |vs| ensures FromTriple(parse, lines, ma, i, vs[k]) {
          FromTripleWeaken(parse, lines, ma, i, next, vs[k]);
        }
      }
    }
  }

  /** The only failure of a scan is a triple whose A' has the wrong mass. */
  lemma {:induction false} ScanFailsOnlyOnMass(parse: RowParser, lines: seq<string>, ma: real, i: nat)
    requires ScanFrom(parse, lines, ma, i).Err?
    ensures ScanFrom(parse, lines, ma, i).error == "BadMGEvnt"
    ensures exists j :: i <= j && TripleAt(parse, lines, j) && MassMismatch(parse(lines[j + 4]).value.m, ma)
    decreases |lines| - i
  {
    var init := parse(lines[i]);
    if !(init.Some? && IsInitialElectron(init.value)) {
      ScanFailsOnlyOnMass(parse, lines, ma, i + 1);
    } else {
      var el := RowAt(parse, lines, i + 2);
      if !(el.Some? && IsFinalElectron(el.value)) {
        ScanFailsOnlyOnMass(parse, lines, ma, i + 3);
      } else {
        var ap := RowAt(parse, lines, i + 4);
        if !(ap.Some? && IsFinalAPrime(ap.value)) {
          ScanFailsOnlyOnMass(parse, lines, ma, i + 5);
        } else if MassMismatch(ap.value.m, ma) {
          assert TripleAt(parse, lines, i);
        } else {
          ScanFailsOnlyOnMass(parse, lines, ma, i + 5);
        }
      }
    }
  }

  /** A file without an initial-state electron line contributes nothing and cannot fail. */
  lemma {:induction false} ScanWithoutBeamElectron(parse: RowParser, lines: seq<string>, ma: real, i: nat)
    requires forall j :: i <= j < |lines| ==> !(parse(lines[j]).Some? && IsInitialElectron(parse(lines[j]).value))
    ensures ScanFrom(parse, lines, ma, i) == Ok([])
    decreases |lines| - i
  {
    if i < |lines| {
      ScanWithoutBeamElectron(parse, lines, ma, i + 1);
    }
  }

  // ---------------------------------------------------------------------
  // The energy-keyed library
  // ---------------------------------------------------------------------

  /** All vertices generated at one beam energy, in the order they were read. */
  datatype Bin = Bin(energy: real, vertices: seq<OutgoingKinematics>)

  /** The bins of a `std::map<double, ...>`: strictly ascending keys. */
  ghost predicate Ascending(bins: seq<Bin>) {
    forall i, j :: 0 <= i < j < |bins| ==> bins[i].energy < bins[j].energy
  }

  /** Every bin holds at least one vertex, each generated at the bin's energy. */
  ghost predicate BinsKeyed(bins: seq<Bin>) {
    forall i :: 0 <= i < |bins| ==>
      |bins[i].vertices| > 0 && forall v :: v in bins[i].vertices ==> v.e == bins[i].energy
  }

  function Energies(bins: seq<Bin>): set<real> {
    set i | 0 <= i < |bins| :: bins[i].energy
  }

  /** `mad_graph_data_[k]` read without inserting: the vertices under key `k`, or none. */
  function Lookup(bins: seq<Bin>, k: real): seq<OutgoingKinematics> {
    if |bins| == 0 then []
    else if bins[0].energy == k then bins[0].vertices
    else Lookup(bins[1..], k)
  }

  /** Every energy of `bins` is strictly above `e`. */
  ghost predicate AllAbove(bins: seq<Bin>, e: real) {
    forall j :: 0 <= j < |bins| ==> e < bins[j].energy
  }

  lemma {:induction false} LookupBelow(bins: seq<Bin>, k: real)
    requires AllAbove(bins, k)
    ensures Lookup(bins, k) == []
  {
    if |bins| > 0 {
      LookupBelow(bins[1..], k);
    }
  }

  lemma AscendingCons(b: Bin, rest: seq<Bin>)
    requires Ascending(rest) && AllAbove(rest, b.energy)
    ensures Ascending([b] + rest)
  {
  }

  /** `mad_graph_data_[v.E].push_back(v)`. */
  function Insert(bins: seq<Bin>, v: OutgoingKinematics): (r: seq<Bin>)
    requires Ascending(bins)
    ensures Ascending(r)
    ensures forall e :: AllAbove(bins, e) && e < v.e ==> AllAbove(r, e)
  {
    if |bins| == 0 then [Bin(v.e, [v])]
    else if v.e < bins[0].energy then
      AscendingCons(Bin(v.e, [v]), bins);
      [Bin(v.e, [v])] + bins
    else if v.e == bins[0].energy then
      AscendingCons(Bin(v.e, bins[0].vertices + [v]), bins[1..]);
      [Bin(v.e, bins[0].vertices + [v])] + bins[1..]
    else
      var tail := Insert(bins[1..], v);
      AscendingCons(bins[0], tail);
      [bins[0]] + tail
  }

  /** Inserting appends the vertex to its energy's bin and leaves every other bin alone. */
  lemma {:induction false} InsertLookup(bins: seq<Bin>, v: OutgoingKinematics, k: real)
    requires Ascending(bins)
    ensures Lookup(Insert(bins, v), k) == if k == v.e then Lookup(bins, k) + [v] else Lookup(bins, k)
  {
    if |bins| > 0 {
      var r := Insert(bins, v);
      if v.e < bins[0].energy {
        assert r[1..] == bins;
        if k == v.e {
          LookupBelow(bins, k);
        }
      } else if v.e == bins[0].energy {
        assert r[1..] == bins[1..];
      } else {
        InsertLookup(bins[1..], v, k);
        assert r[1..] == Insert(bins[1..], v);
      }
    }
  }

  /** Inserting keeps every bin non-empty and holding vertices of its own energy. */
  lemma {:induction false} InsertKeyed(bins: seq<Bin>, v: OutgoingKinematics)
    requires Ascending(bins) && BinsKeyed(bins)
    ensures BinsKeyed(Insert(bins, v))
  {
    if |bins| > 0 && v.e > bins[0].energy {
      InsertKeyed(bins[1..], v);
      assert Insert(bins, v) == [bins[0]] + Insert(bins[1..], v);
    }
  }

  /** Inserting adds the vertex's energy to the keys and no other. */
  lemma {:induction false} InsertEnergies(bins: seq<Bin>, v: OutgoingKinematics)
    requires Ascending(bins)
    ensures Energies(Insert(bins, v)) == Energies(bins) + {v.e}
  {
    var r := Insert(bins, v);
    if |bins| == 0 {
      assert r[0].energy == v.e;
    } else if v.e < bins[0].energy {
      EnergiesCons(Bin(v.e, [v]), bins);
    } else if v.e == bins[0].energy {
      EnergiesCons(bins[0], bins[1..]);
      EnergiesCons(r[0], bins[1..]);
      assert bins == [bins[0]] + bins[1..];
    } else {
      InsertEnergies(bins[1..], v);
      EnergiesCons(bins[0], bins[1..]);
      EnergiesCons(bins[0], Insert(bins[1..], v));
      assert bins == [bins[0]] + bins[1..];
    }
  }

  lemma EnergiesCons(b: Bin, rest: seq<Bin>)
    ensures Energies([b] + rest) == {b.energy} + Energies(rest)
  {
    var s := [b] + rest;
    forall e | e in Energies(s) ensures e in {b.energy} + Energies(rest) {
      var j :| 0 <= j < |s| && s[j].energy == e;
      if j > 0 {
        assert rest[j - 1].energy == e;
      }
    }
    forall e | e in Energies(rest) ensures e in Energies(s) {
      var j :| 0 <= j < |rest| && rest[j].energy == e;
      assert s[j + 1].energy == e;
    }
    assert s[0].energy == b.energy;
  }

  /** The library built by pushing the vertices one after the other. */
  function Build(vs: seq<OutgoingKinematics>): (r: seq<Bin>)
    ensures Ascending(r)
    ensures BinsKeyed(r)
  {
    if |vs| == 0 then []
    else
      var front := Build(vs[..|vs| - 1]);
      InsertKeyed(front, vs[|vs| - 1]);
      Insert(front, vs[|vs| - 1])
  }

  /** The vertices of `vs` generated at energy `k`, in order. */
  function Filter(vs: seq<OutgoingKinematics>, k: real): (r: seq<OutgoingKinematics>)
    ensures forall v :: v in r ==> v in vs && v.e == k
  {
    if |vs| == 0 then []
    else Filter(vs[..|vs| - 1], k) + (if vs[|vs| - 1].e == k then [vs[|vs| - 1]] else [])
  }

  /** Each bin holds exactly the vertices read at its energy, in reading order. */
  lemma {:induction false} BuildLookup(vs: seq<OutgoingKinematics>, k: real)
    ensures Lookup(Build(vs), k) == Filter(vs, k)
  {
    if |vs| > 0 {
      BuildLookup(vs[..|vs| - 1], k);
      InsertLookup(Build(vs[..|vs| - 1]), vs[|vs| - 1], k);
    }
  }

  /** The library's keys are exactly the beam energies that were read. */
  lemma {:induction false} BuildEnergies(vs: seq<OutgoingKinematics>)
    ensures Energies(Build(vs)) == set i | 0 <= i < |vs| :: vs[i].e
  {
    if |vs| > 0 {
      var front := vs[..|vs| - 1];
      BuildEnergies(front);
      InsertEnergies(Build(front), vs[|vs| - 1]);
      var all := set i | 0 <= i < |vs| :: vs[i].e;
      var before := set i | 0 <= i < |front| :: front[i].e;
      assert all == before + {vs[|vs| - 1].e} by {
        forall e | e in all ensures e in before + {vs[|vs| - 1].e} {
          var i :| 0 <= i < |vs| && vs[i].e == e;
          if i < |vs| - 1 {
            assert front[i].e == e;
          }
        }
        forall e | e in before ensures e in all {
          var i :| 0 <= i < |front| && front[i].e == e;
          assert vs[i].e == e;
        }
      }
    }
  }

  // ---------------------------------------------------------------------
  // Loading a directory
  // ---------------------------------------------------------------------

  /** A directory entry: its name and, when the file can be opened, its lines. */
  datatype DirEntry = DirEntry(name: string, contents: Option<seq<string>>)

  function EntryPath(dir: string, name: string): string {
    dir + "/" + name
  }

  /** `fp.substr(fp.find_last_of('.') + 1)`: everything after the last '.', or all of `fp`. */
  function Extension(fp: string): (r: string)
    ensures |r| <= |fp| && r == fp[|fp| - |r|..]
    ensures '.' !in r
  {
    fp[LastIndexOfChar(fp, '.') + 1..]
  }

  predicate IsLheFile(fp: string) {
    Extension(fp) == "lhe"
  }

  /**
   * On a path with a directory part, the extension test accepts exactly the
   * paths ending in ".lhe" (a path without any '.' is its own extension,
   * which the '/' rules out).
   */
  lemma IsLheFileEndsWithLhe(fp: string)
    requires '/' in fp
    ensures IsLheFile(fp) <==> |fp| >= 4 && fp[|fp| - 4..] == ".lhe"
  {
    if IsLheFile(fp) {
      LheFileEnds(fp);
    }
    if |fp| >= 4 && fp[|fp| - 4..] == ".lhe" {
      EndingIsLheFile(fp);
    }
  }

  lemma LheFileEnds(fp: string)
    requires '/' in fp && IsLheFile(fp)
    ensures |fp| >= 4 && fp[|fp| - 4..] == ".lhe"
  {
    var i := LastIndexOfChar(fp, '.');
    var ext := Extension(fp);
    assert ext == ['l', 'h', 'e'];
    assert '/' !in ext;
    assert ext != fp;
    assert i != -1;
    assert ext == fp[i + 1..];
    assert |fp| == i + 4;
    assert fp[i..] == [fp[i]] + ext;
  }

  lemma EndingIsLheFile(fp: string)
    requires |fp| >= 4 && fp[|fp| - 4..] == ".lhe"
    ensures IsLheFile(fp)
  {
    var j := |fp| - 4;
    var tail := fp[j..];
    assert fp[j] == tail[0] == '.';
    assert fp[j + 1..] == tail[1..] == "lhe";
    LastDotIsAt(fp, j);
  }

  lemma LastDotIsAt(fp: string, j: nat)
    requires j < |fp| && fp[j] == '.' && '.' !in fp[j + 1..]
    ensures LastIndexOfChar(fp, '.') == j
  {
    var i := LastIndexOfChar(fp, '.');
    assert i >= 0;
    if i < j {
      InSlice(fp, i + 1, j);
      assert false;
    } else if i > j {
      InSlice(fp, j + 1, i);
      assert false;
    }
  }

  lemma InSlice(s: string, a: int, k: int)
    requires 0 <= a <= k < |s|
    ensures s[k] in s[a..]
  {
    assert s[a..][k - a] == s[k];
  }

  /**
   * The loop over the directory: every entry whose path has the "lhe"
   * extension is parsed, in listing order. Yields whether one was found and
   * every vertex read.
   */
  function ScanEntries(dir: string, entries: seq<DirEntry>, parse: RowParser, ma: real)
    : (r: Result<(bool, seq<OutgoingKinematics>)>)
  {
    if |entries| == 0 then Ok((false, []))
    else if !IsLheFile(EntryPath(dir, entries[0].name)) then ScanEntries(dir, entries[1..], parse, ma)
    else if entries[0].contents.None? then Err("LHEFile")
    else
      match ScanLhe(parse, entries[0].contents.value, ma)
      case Err(e) => Err(e)
      case Ok(vs) =>
        match ScanEntries(dir, entries[1..], parse, ma)
        case Err(e) => Err(e)
        case Ok((_, more)) => Ok((true, vs + more))
  }

  predicate NoLheEntry(dir: string, entries: seq<DirEntry>) {
    forall i :: 0 <= i < |entries| ==> !IsLheFile(EntryPath(dir, entries[i].name))
  }

  /** Scanning fails only by a file that cannot be opened or a bad A' mass; "found" means an .lhe entry exists. */
  lemma {:induction false} ScanEntriesFound(dir: string, entries: seq<DirEntry>, parse: RowParser, ma: real)
    ensures var r := ScanEntries(dir, entries, parse, ma);
      && (r.Err? ==> r.error == "LHEFile" || r.error == "BadMGEvnt")
      && (r.Ok? ==> (r.value.0 <==> !NoLheEntry(dir, entries)))
      && (NoLheEntry(dir, entries) ==> r == Ok((false, [])))
  {
    if |entries| > 0 {
      ScanEntriesFound(dir, entries[1..], parse, ma);
      var r := ScanEntries(dir, entries, parse, ma);
      if IsLheFile(EntryPath(dir, entries[0].name)) && entries[0].contents.Some? {
        var s := ScanLhe(parse, entries[0].contents.value, ma);
        if s.Err? {
          ScanFailsOnlyOnMass(parse, entries[0].contents.value, ma, 0);
        }
      }
      if NoLheEntry(dir, entries) {
        assert !IsLheFile(EntryPath(dir, entries[0].name));
        assert NoLheEntry(dir, entries[1..]);
      } else if !IsLheFile(EntryPath(dir, entries[0].name)) {
        assert !NoLheEntry(dir, entries[1..]) by {
          var i :| 0 <= i < |entries| && IsLheFile(EntryPath(dir, entries[i].name));
          assert entries[1..][i - 1] == entries[i];
        }
      }
    }
  }

  /**
   * Every .lhe entry of a successful scan opened, parsed, and contributed
   * all of its vertices to the scanned list.
   */
  lemma {:induction false} ScanEntriesIncludesFile(dir: string, entries: seq<DirEntry>, parse: RowParser, ma: real, k: nat)
    requires k < |entries| && IsLheFile(EntryPath(dir, entries[k].name))
    requires ScanEntries(dir, entries, parse, ma).Ok?
    ensures entries[k].contents.Some? && ScanLhe(parse, entries[k].contents.value, ma).Ok?
    ensures forall v :: v in ScanLhe(parse, entries[k].contents.value, ma).value ==> v in ScanEntries(dir, entries, parse, ma).value.1
    decreases |entries|
  {
    var r := ScanEntries(dir, entries, parse, ma);
    if k > 0 {
      assert entries[1..][k - 1] == entries[k];
      var r1 := ScanEntries(dir, entries[1..], parse, ma);
      ScanEntriesIncludesFile(dir, entries[1..], parse, ma, k - 1);
      if IsLheFile(EntryPath(dir, entries[0].name)) {
        var vs := ScanLhe(parse, entries[0].contents.value, ma).value;
        assert r.value.1 == vs + r1.value.1;
      } else {
        assert r == r1;
      }
    }
  }

  /**
   * `SetMadGraphDataLibrary` up to `MakePlaceholders`: a directory that does
   * not open, or holds no .lhe entry, fails with "DirDNE".
   */
  function LoadBins(dir: string, listing: Option<seq<DirEntry>>, parse: RowParser, ma: real)
    : (r: Result<seq<Bin>>)
    ensures r.Ok? ==> Ascending(r.value) && BinsKeyed(r.value)
    ensures r.Ok? ==> && listing.Some? && ScanEntries(dir, listing.value, parse, ma).Ok?
                      && ScanEntries(dir, listing.value, parse, ma).value.0
                      && r.value == Build(ScanEntries(dir, listing.value, parse, ma).value.1)
    ensures listing.Some? && ScanEntries(dir, listing.value, parse, ma).Err? ==> r == Err(ScanEntries(dir, listing.value, parse, ma).error)
    ensures r.Err? ==> r.error == "DirDNE" || r.error == "LHEFile" || r.error == "BadMGEvnt"
  {
    if listing.None? then Err("DirDNE")
    else
      ScanEntriesFound(dir, listing.value, parse, ma);
      match ScanEntries(dir, listing.value, parse, ma)
      case Err(e) => Err(e)
      case Ok((found, vs)) => if !found then Err("DirDNE") else Ok(Build(vs))
  }

  /** Loading fails with "DirDNE" exactly when the directory is missing or holds no .lhe entry. */
  lemma DirDneExactly(dir: string, listing: Option<seq<DirEntry>>, parse: RowParser, ma: real)
    ensures LoadBins(dir, listing, parse, ma) == Err("DirDNE")
      <==> listing.None? || NoLheEntry(dir, listing.value)
  {
    if listing.Some? {
      ScanEntriesFound(dir, listing.value, parse, ma);
    }
  }

  /** An .lhe file holding no event still counts as found: the library is then empty, not an error. */
  lemma EmptyLheFileIsFound(dir: string, name: string, lines: seq<string>, parse: RowParser, ma: real)
    requires IsLheFile(EntryPath(dir, name))
    requires ScanLhe(parse, lines, ma) == Ok([])
    ensures LoadBins(dir, Some([DirEntry(name, Some(lines))]), parse, ma) == Ok([])
  {
    var entries := [DirEntry(name, Some(lines))];
    assert ScanEntries(dir, entries[1..], parse, ma) == Ok((false, []));
  }

  // ---------------------------------------------------------------------
  // Cursors and sampling
  // ---------------------------------------------------------------------

  const DefaultMaxIterations: nat := 10000

  /**
   * The library with its cursors: `cursors[i]` is the placeholder of
   * `bins[i]` (the cursor map is keyed by exactly the library's energies),
   * and `maxIterations` is the resampling budget of the forward-only method.
   */
  datatype Library = Library(bins: seq<Bin>, cursors: seq<nat>, maxIterations: nat)

  ghost predicate Valid(lib: Library) {
    Ascending(lib.bins) && BinsKeyed(lib.bins) && |lib.cursors| == |lib.bins|
  }

  /** `int(u * size)` for a draw `u` in [0, 1). */
  function StartCursor(u: real, size: nat): (c: nat)
    requires 0.0 <= u < 1.0
    ensures size > 0 ==> c < size
    ensures size == 0 ==> c == 0
  {
    NonNegativeProduct(u, size as real);
    if size > 0 then
      MulLess(u, 1.0, size as real);
      (u * size as real).Floor
    else
      0
  }

  lemma NonNegativeProduct(x: real, y: real)
    requires x >= 0.0 && y >= 0.0
    ensures x * y >= 0.0
  {
    if x > 0.0 && y > 0.0 {
      MulPositive(x, y);
    }
  }

  /** The smallest bin size, starting from 10000. */
  function MinSize(bins: seq<Bin>): (m: nat)
    ensures m <= DefaultMaxIterations
    ensures forall i :: 0 <= i < |bins| ==> m <= |bins[i].vertices|
    ensures m == DefaultMaxIterations || exists i :: 0 <= i < |bins| && m == |bins[i].vertices|
  {
    if |bins| == 0 then DefaultMaxIterations
    else
      var rest := MinSize(bins[1..]);
      assert forall i :: 1 <= i < |bins| ==> bins[1..][i - 1] == bins[i];
      if |bins[0].vertices| < rest then |bins[0].vertices| else rest
  }

  /**
   * `MakePlaceholders`: each bin's cursor starts at a random position in
   * the bin (draw `uniform(i)` for bin `i`), and the resampling budget
   * becomes the smallest bin size, capped at 10000.
   */
  function MakePlaceholders(bins: seq<Bin>, uniform: nat -> real): (lib: Library)
    requires forall k: nat :: 0.0 <= uniform(k) < 1.0
    ensures lib.bins == bins && |lib.cursors| == |bins|
    ensures forall i :: 0 <= i < |bins| && |bins[i].vertices| > 0 ==> lib.cursors[i] < |bins[i].vertices|
    ensures lib.maxIterations == MinSize(bins)
  {
    var cursors := seq(|bins|, i requires 0 <= i < |bins| => StartCursor(uniform(i), |bins[i].vertices|));
    assert forall i :: 0 <= i < |bins| ==> cursors[i] == StartCursor(uniform(i), |bins[i].vertices|);
    Library(bins, cursors, MinSize(bins))
  }

  /**
   * The loop of `GetMadgraphData` over the cursor map: the first energy
   * strictly above `e0`, else the last one.
   */
  function SelectFrom(bins: seq<Bin>, e0: real, i: nat): (r: nat)
    requires i < |bins|
    ensures i <= r < |bins|
    ensures forall j :: i <= j < r ==> !(e0 < bins[j].energy)
    ensures e0 < bins[r].energy || r == |bins| - 1
    decreases |bins| - i
  {
    if e0 < bins[i].energy || i == |bins| - 1 then i else SelectFrom(bins, e0, i + 1)
  }

  /** The bin `GetMadgraphData` draws from: the first with an energy strictly above `e0`, else the last. */
  function SelectBin(bins: seq<Bin>, e0: real): (r: nat)
    requires |bins| > 0
    ensures r < |bins|
    ensures forall j :: 0 <= j < r ==> !(e0 < bins[j].energy)
    ensures e0 < bins[r].energy || r == |bins| - 1
  {
    SelectFrom(bins, e0, 0)
  }

  /**
   * On an ordered library the chosen bin is the one with the smallest energy
   * strictly greater than `e0`, and the largest energy when there is none.
   */
  lemma SelectBinIsNextAbove(bins: seq<Bin>, e0: real)
    requires |bins| > 0 && Ascending(bins)
    ensures var r := SelectBin(bins, e0);
      && ((exists j :: 0 <= j < |bins| && e0 < bins[j].energy) ==>
            e0 < bins[r].energy
            && forall j :: 0 <= j < |bins| && e0 < bins[j].energy ==> bins[r].energy <= bins[j].energy)
      && ((forall j :: 0 <= j < |bins| ==> bins[j].energy <= e0) ==>
            r == |bins| - 1 && forall j :: 0 <= j < |bins| ==> bins[j].energy <= bins[r].energy)
  {
    var r := SelectBin(bins, e0);
    if exists j :: 0 <= j < |bins| && e0 < bins[j].energy {
      var j :| 0 <= j < |bins| && e0 < bins[j].energy;
      assert j >= r;
      if r == |bins| - 1 {
        assert j == r;
      }
    }
  }

  /** A cursor at or past the end of its bin starts again at 0. */
  function Start(c: nat, size: nat): nat {
    if c >= size then 0 else c
  }

  /**
   * `GetMadgraphData(e0)`: read the vertex under the chosen bin's cursor
   * (wrapping it first) and advance that cursor. An empty library fails as
   * the `.at` lookup does.
   */
  function Sample(lib: Library, e0: real): (r: Result<(OutgoingKinematics, Library)>)
    requires |lib.cursors| == |lib.bins|
    ensures r.Err? <==> |lib.bins| == 0 || |lib.bins[SelectBin(lib.bins, e0)].vertices| == 0
    ensures r.Ok? ==>
      var i := SelectBin(lib.bins, e0);
      var vs := lib.bins[i].vertices;
      var s := Start(lib.cursors[i], |vs|);
      && s < |vs| && r.value.0 == vs[s]
      && r.value.1.bins == lib.bins && r.value.1.maxIterations == lib.maxIterations
      && |r.value.1.cursors| == |lib.cursors|
      && r.value.1.cursors[i] == s + 1
      && forall j :: 0 <= j < |lib.cursors| && j != i ==> r.value.1.cursors[j] == lib.cursors[j]
  {
    if |lib.bins| == 0 then Err("out_of_range")
    else
      var i := SelectBin(lib.bins, e0);
      var vs := lib.bins[i].vertices;
      var s := Start(lib.cursors[i], |vs|);
      if s >= |vs| then Err("out_of_range")
      else Ok((vs[s], lib.(cursors := lib.cursors[i := s + 1])))
  }

  /** `n` calls of `GetMadgraphData(e0)` in a row. */
  function SampleMany(lib: Library, e0: real, n: nat): (r: Result<(seq<OutgoingKinematics>, Library)>)
    requires |lib.cursors| == |lib.bins|
    ensures r.Ok? ==>
      && |r.value.0| == n
      && r.value.1.bins == lib.bins && r.value.1.maxIterations == lib.maxIterations
      && |r.value.1.cursors| == |lib.cursors|
    decreases n
  {
    if n == 0 then Ok(([], lib))
    else
      match Sample(lib, e0)
      case Err(e) => Err(e)
      case Ok((v, next)) =>
        match SampleMany(next, e0, n - 1)
        case Err(e) => Err(e)
        case Ok((more, last)) => Ok(([v] + more, last))
  }

  /** The reads of `n` calls starting at position `s` of `vs`, wrapping after the last element. */
  function Drawn(vs: seq<OutgoingKinematics>, s: nat, n: nat): seq<OutgoingKinematics>
    requires s < |vs|
    decreases n
  {
    if n == 0 then []
    else [vs[s]] + Drawn(vs, if s + 1 >= |vs| then 0 else s + 1, n - 1)
  }

  lemma {:induction false} SampleManyDrawn(lib: Library, e0: real, n: nat)
    requires |lib.cursors| == |lib.bins| && |lib.bins| > 0
    requires |lib.bins[SelectBin(lib.bins, e0)].vertices| > 0
    ensures var i := SelectBin(lib.bins, e0);
      var vs := lib.bins[i].vertices;
      SampleMany(lib, e0, n).Ok? && SampleMany(lib, e0, n).value.0 == Drawn(vs, Start(lib.cursors[i], |vs|), n)
    decreases n
  {
    if n > 0 {
      var i := SelectBin(lib.bins, e0);
      var vs := lib.bins[i].vertices;
      var next := Sample(lib, e0).value.1;
      SampleManyDrawn(next, e0, n - 1);
    }
  }

  /** One call more appends its vertex to the reads so far and leaves the library it returns. */
  lemma {:induction false} SampleManySnoc(lib: Library, e0: real, n: nat)
    requires |lib.cursors| == |lib.bins|
    requires SampleMany(lib, e0, n).Ok?
    requires Sample(SampleMany(lib, e0, n).value.1, e0).Ok?
    ensures var before := SampleMany(lib, e0, n).value;
      var last := Sample(before.1, e0).value;
      SampleMany(lib, e0, n + 1) == Ok((before.0 + [last.0], last.1))
    decreases n
  {
    var first := Sample(lib, e0).value;
    assert Sample(lib, e0) == Ok(first);
    if n == 0 {
      assert SampleMany(first.1, e0, 0) == Ok(([], first.1));
      assert SampleMany(lib, e0, 1) == Ok(([first.0] + [], first.1));
      assert [first.0] + [] == [] + [first.0];
    } else {
      SampleManySnoc(first.1, e0, n - 1);
      var more := SampleMany(first.1, e0, n - 1).value;
      var last := Sample(more.1, e0).value;
      assert SampleMany(lib, e0, n) == Ok(([first.0] + more.0, more.1));
      assert SampleMany(first.1, e0, n) == Ok((more.0 + [last.0], last.1));
      assert [first.0] + (more.0 + [last.0]) == ([first.0] + more.0) + [last.0];
    }
  }

  lemma {:induction false} DrawnRun(vs: seq<OutgoingKinematics>, s: nat, k: nat)
    requires s < |vs| && s + k <= |vs|
    ensures Drawn(vs, s, k) == vs[s..s + k]
    decreases k
  {
    if k > 1 {
      DrawnRun(vs, s + 1, k - 1);
    }
  }

  lemma {:induction false} DrawnWrap(vs: seq<OutgoingKinematics>, s: nat, m: nat)
    requires s < |vs|
    ensures Drawn(vs, s, |vs| - s + m) == vs[s..] + Drawn(vs, 0, m)
    decreases |vs| - s
  {
    if s + 1 < |vs| {
      DrawnWrap(vs, s + 1, m);
      assert vs[s..] == [vs[s]] + vs[s + 1..];
    }
  }

  /** A full cycle from position `s` reads the bin rotated to start at `s`. */
  lemma DrawnCycle(vs: seq<OutgoingKinematics>, s: nat)
    requires s < |vs|
    ensures Drawn(vs, s, |vs|) == vs[s..] + vs[..s]
    ensures multiset(Drawn(vs, s, |vs|)) == multiset(vs)
  {
    if s == 0 {
      DrawnRun(vs, 0, |vs|);
      assert vs[0..|vs|] == vs[0..] + vs[..0];
    } else {
      DrawnWrap(vs, s, s);
      assert |vs| - s + s == |vs|;
      DrawnRun(vs, 0, s);
      assert vs[0..0 + s] == vs[..s];
    }
    RotationMultiset(vs, s);
  }

  /** Rotating a sequence keeps its elements. */
  lemma RotationMultiset(vs: seq<OutgoingKinematics>, s: nat)
    requires s <= |vs|
    ensures multiset(vs[s..] + vs[..s]) == multiset(vs)
  {
    assert vs == vs[..s] + vs[s..];
  }

  /**
   * As many calls as the chosen bin holds vertices return each of its
   * vertices exactly once, starting from the bin's cursor.
   */
  lemma SampleCycle(lib: Library, e0: real)
    requires Valid(lib) && |lib.bins| > 0
    ensures var i := SelectBin(lib.bins, e0);
      var vs := lib.bins[i].vertices;
      var s := Start(lib.cursors[i], |vs|);
      && SampleMany(lib, e0, |vs|).Ok?
      && SampleMany(lib, e0, |vs|).value.0 == vs[s..] + vs[..s]
      && multiset(SampleMany(lib, e0, |vs|).value.0) == multiset(vs)
  {
    var i := SelectBin(lib.bins, e0);
    var vs := lib.bins[i].vertices;
    SampleManyDrawn(lib, e0, |vs|);
    DrawnCycle(vs, Start(lib.cursors[i], |vs|));
  }
}
