/**
 * `LHEEvent::load`: reading one `<event>` block of a Les Houches Event File
 * (Alwall et al., hep-ph/0609017) from a stream of lines.
 *
 * The stream is the sequence of its lines and a position in it; `load`
 * returns the updated event and the position after the block. Number
 * parsing (`istringstream >>`, `atof`, the `LHEParticle` line constructor)
 * arrives as the `Readers` functions.
 */
module LheEvent {
  import opened Wrappers
  import opened Strings

  /** The event header: NUP, IDPRUP, XWGTUP, SCALUP, AQEDUP, AQCDUP. */
  datatype Header = Header(nup: int, idprup: int, xwgtup: real, scalup: real, aqedup: real, aqcdup: real)

  datatype Point = Point(x: real, y: real, z: real)

  /**
   * A particle line with its two 1-based MOTHUP indices and the mothers it is
   * linked to, as indices into the event's particle list.
   */
  datatype Particle = Particle(line: string, mothup0: int, mothup1: int, mother0: Option<nat>, mother1: Option<nat>)

  datatype Event = Event(header: Header, vertex: Point, time: real, particles: seq<Particle>)

  /**
   * `header(old, line)` is the header after `iss >> nup_ >> ...` on `line`
   * (fields a failed extraction does not reach keep their old values);
   * `mothup(line)` gives the MOTHUP pair `LHEParticle(line)` reads; `atof`
   * is the C library's.
   */
  datatype Readers = Readers(header: (Header, string) -> Header, mothup: string -> (int, int), atof: string -> real)

  /** The event and the stream position after `load`. */
  datatype Loaded = Loaded(event: Event, next: nat)

  const EventOpen: string := "<event>"
  const EventClose: string := "</event>"
  const VertexTag: string := "#vertex"
  const Origin: Point := Point(0.0, 0.0, 0.0)

  /** The first line at or after `from` equal to `tag`, or `|lines|` when there is none. */
  function FindLine(lines: seq<string>, from: nat, tag: string): (r: nat)
    requires from <= |lines|
    ensures from <= r <= |lines|
    ensures r < |lines| ==> lines[r] == tag
    ensures forall k :: from <= k < r ==> lines[k] != tag
    decreases |lines| - from
  {
    if from == |lines| then from
    else if lines[from] == tag then from
    else FindLine(lines, from + 1, tag)
  }

  /** A particle as constructed from its line, with no mothers linked yet. */
  function NewParticle(line: string, rd: Readers): (p: Particle)
    ensures p.line == line && (p.mothup0, p.mothup1) == rd.mothup(line)
    ensures p.mother0.None? && p.mother1.None?
  {
    var (m0, m1) := rd.mothup(line);
    Particle(line, m0, m1, None, None)
  }

  /** A line holding no '#' describes a particle. */
  predicate IsParticleLine(line: string) {
    '#' !in line
  }

  /** A comment line that carries the embedded vertex record. */
  predicate IsVertexLine(line: string) {
    '#' in line && Contains(line, VertexTag)
  }

  /** A vertex record that does not have 4 or 5 whitespace-separated tokens. */
  predicate IsBadVertexLine(line: string) {
    IsVertexLine(line) && |Tokens(line)| != 4 && |Tokens(line)| != 5
  }

  /** What one body line does to the event. */
  function Step(ev: Event, line: string, rd: Readers): (r: Result<Event>)
    ensures r.Err? <==> IsBadVertexLine(line)
    ensures r.Err? ==> r.error == "TokenNum"
    ensures r.Ok? ==> r.value.header == ev.header
    ensures r.Ok? && !IsVertexLine(line) ==> r.value.vertex == ev.vertex && r.value.time == ev.time
    ensures r.Ok? && !IsParticleLine(line) ==> r.value.particles == ev.particles
  {
    if IsParticleLine(line) then
      Ok(ev.(particles := ev.particles + [NewParticle(line, rd)]))
    else if Contains(line, VertexTag) then
      var tokens := Tokens(line);
      if |tokens| != 4 && |tokens| != 5 then Err("TokenNum")
      else
        var vertex := Point(rd.atof(tokens[1]), rd.atof(tokens[2]), rd.atof(tokens[3]));
        Ok(ev.(vertex := vertex, time := if |tokens| > 4 then rd.atof(tokens[4]) else ev.time))
    else
      Ok(ev)
  }

  /** The body lines `lines[i..end]`, one `Step` each, stopping at the first error. */
  function Body(ev: Event, lines: seq<string>, i: nat, end: nat, rd: Readers): (r: Result<Event>)
    requires i <= end <= |lines|
    ensures r.Err? ==> r.error == "TokenNum"
    decreases end - i
  {
    if i == end then Ok(ev)
    else
      match Step(ev, lines[i], rd)
      case Err(e) => Err(e)
      case Ok(ev') => Body(ev', lines, i + 1, end, rd)
  }

  /** Links every particle's positive MOTHUP entries to the particle they count (from 1). */
  function Link(ps: seq<Particle>): (r: seq<Particle>)
    ensures |r| == |ps|
    ensures forall k :: 0 <= k < |ps| ==>
      && r[k].line == ps[k].line
      && r[k].mothup0 == ps[k].mothup0 && r[k].mothup1 == ps[k].mothup1
  {
    seq(|ps|, k requires 0 <= k < |ps| => LinkOne(ps[k]))
  }

  function LinkOne(p: Particle): Particle {
    p.(mother0 := if p.mothup0 > 0 then Some(p.mothup0 - 1) else p.mother0,
       mother1 := if p.mothup1 > 0 then Some(p.mothup1 - 1) else p.mother1)
  }

  /**
   * `load` reading from position `from`: skip to `<event>` (returning the
   * event untouched at the end of the stream), read the header line (empty
   * past the end), reset the vertex and its time, read the body up to
   * `</event>` and link the mothers of every particle the event holds.
   */
  function Load(ev: Event, lines: seq<string>, from: nat, rd: Readers): (r: Result<Loaded>)
    requires from <= |lines|
    ensures r.Ok? ==> from <= r.value.next <= |lines|
    ensures r.Err? ==> r.error == "TokenNum"
  {
    var open := FindLine(lines, from, EventOpen);
    if open == |lines| then Ok(Loaded(ev, |lines|))
    else
      var headerLine := if open + 1 < |lines| then lines[open + 1] else "";
      var start := if open + 1 < |lines| then open + 2 else |lines|;
      var close := FindLine(lines, start, EventClose);
      var reset := ev.(header := rd.header(ev.header, headerLine), vertex := Origin, time := 0.0);
      var body :- Body(reset, lines, start, close, rd);
      Ok(Loaded(body.(particles := Link(body.particles)), if close < |lines| then close + 1 else close))
  }

  // ---------------------------------------------------------------------
  // Properties
  // ---------------------------------------------------------------------

  /** Without an `<event>` line ahead, `load` consumes the stream and changes nothing. */
  lemma LoadWithoutEvent(ev: Event, lines: seq<string>, from: nat, rd: Readers)
    requires from <= |lines|
    requires forall k :: from <= k < |lines| ==> lines[k] != EventOpen
    ensures Load(ev, lines, from, rd) == Ok(Loaded(ev, |lines|))
  {
  }

  /** The particle lines of a block, in order. */
  function ParticleLines(ls: seq<string>): (r: seq<string>)
    ensures forall k :: 0 <= k < |r| ==> IsParticleLine(r[k])
    ensures |r| <= |ls|
  {
    if |ls| == 0 then []
    else if IsParticleLine(ls[0]) then [ls[0]] + ParticleLines(ls[1..])
    else ParticleLines(ls[1..])
  }

  function NewParticles(ls: seq<string>, rd: Readers): (r: seq<Particle>)
    ensures |r| == |ls|
  {
    if |ls| == 0 then [] else [NewParticle(ls[0], rd)] + NewParticles(ls[1..], rd)
  }

  /** A body line that fails the vertex record check, somewhere in `lines[i..end]`. */
  predicate HasBadVertex(lines: seq<string>, i: nat, end: nat)
    requires i <= end <= |lines|
  {
    exists k :: i <= k < end && IsBadVertexLine(lines[k])
  }

  /**
   * The body fails exactly when one of its lines is a malformed vertex record;
   * otherwise it adds one particle per '#'-free line, in file order, and
   * keeps the header.
   */
  lemma {:induction false} BodyOutcome(ev: Event, lines: seq<string>, i: nat, end: nat, rd: Readers)
    requires i <= end <= |lines|
    ensures Body(ev, lines, i, end, rd).Err? <==> HasBadVertex(lines, i, end)
    ensures Body(ev, lines, i, end, rd).Err? ==> Body(ev, lines, i, end, rd).error == "TokenNum"
    ensures Body(ev, lines, i, end, rd).Ok? ==>
      && Body(ev, lines, i, end, rd).value.particles
           == ev.particles + NewParticles(ParticleLines(lines[i..end]), rd)
      && Body(ev, lines, i, end, rd).value.header == ev.header
    decreases end - i
  {
    if i == end {
      assert lines[i..end] == [];
    } else {
      assert lines[i..end] == [lines[i]] + lines[i + 1..end];
      var s := Step(ev, lines[i], rd);
      if s.Err? {
        assert IsBadVertexLine(lines[i]);
      } else {
        BodyOutcome(s.value, lines, i + 1, end, rd);
        if HasBadVertex(lines, i, end) {
          var k :| i <= k < end && IsBadVertexLine(lines[k]);
          assert k != i;
          assert HasBadVertex(lines, i + 1, end);
        }
        if HasBadVertex(lines, i + 1, end) {
          var k :| i + 1 <= k < end && IsBadVertexLine(lines[k]);
          assert HasBadVertex(lines, i, end);
        }
        var rest := lines[i + 1..end];
        if IsParticleLine(lines[i]) {
          assert ParticleLines(lines[i..end]) == [lines[i]] + ParticleLines(rest);
          assert NewParticles([lines[i]] + ParticleLines(rest), rd)
            == [NewParticle(lines[i], rd)] + NewParticles(ParticleLines(rest), rd);
        } else {
          assert ParticleLines(lines[i..end]) == ParticleLines(rest);
        }
      }
    }
  }

  /** A body without vertex records leaves the vertex and its time as they were. */
  lemma {:induction false} BodyKeepsVertex(ev: Event, lines: seq<string>, i: nat, end: nat, rd: Readers)
    requires i <= end <= |lines|
    requires forall k :: i <= k < end ==> !IsVertexLine(lines[k])
    ensures Body(ev, lines, i, end, rd).Ok?
    ensures Body(ev, lines, i, end, rd).value.vertex == ev.vertex
    ensures Body(ev, lines, i, end, rd).value.time == ev.time
    decreases end - i
  {
    if i < end {
      BodyKeepsVertex(Step(ev, lines[i], rd).value, lines, i + 1, end, rd);
    }
  }

  /** The vertex of a record: tokens 1 to 3 of its line. */
  function RecordVertex(line: string, rd: Readers): Point
    requires |Tokens(line)| >= 4
  {
    var t := Tokens(line);
    Point(rd.atof(t[1]), rd.atof(t[2]), rd.atof(t[3]))
  }

  /**
   * The last vertex record of the body decides the vertex; its fifth token,
   * when there is one, decides the time.
   */
  lemma {:induction false} BodyLastVertexWins(ev: Event, lines: seq<string>, i: nat, k: nat, end: nat, rd: Readers)
    requires i <= k < end <= |lines|
    requires IsVertexLine(lines[k]) && !IsBadVertexLine(lines[k])
    requires forall j :: k < j < end ==> !IsVertexLine(lines[j])
    requires Body(ev, lines, i, end, rd).Ok?
    ensures Body(ev, lines, i, end, rd).value.vertex == RecordVertex(lines[k], rd)
    ensures |Tokens(lines[k])| == 5 ==> Body(ev, lines, i, end, rd).value.time == rd.atof(Tokens(lines[k])[4])
    decreases end - i
  {
    var s := Step(ev, lines[i], rd);
    if i < k {
      BodyLastVertexWins(s.value, lines, i + 1, k, end, rd);
    } else {
      BodyKeepsVertex(s.value, lines, i + 1, end, rd);
    }
  }

  /**
   * A loaded event: the header comes from the line after `<event>`, the
   * particles are those already held plus one per '#'-free body line in
   * order (all relinked), and the vertex and time are zero unless a vertex
   * record sets them. The stream resumes after `</event>`.
   */
  lemma LoadEvent(ev: Event, lines: seq<string>, from: nat, open: nat, close: nat, rd: Readers)
    requires from <= open < close < |lines|
    requires lines[open] == EventOpen && lines[close] == EventClose
    requires forall k :: from <= k < open ==> lines[k] != EventOpen
    requires forall k :: open + 2 <= k < close ==> lines[k] != EventClose
    requires open + 1 < close
    ensures var r := Load(ev, lines, from, rd);
      && (r.Err? <==> HasBadVertex(lines, open + 2, close))
      && (r.Ok? ==>
        && r.value.next == close + 1
        && r.value.event.header == rd.header(ev.header, lines[open + 1])
        && r.value.event.particles
             == Link(ev.particles + NewParticles(ParticleLines(lines[open + 2..close]), rd))
        && ((forall k :: open + 2 <= k < close ==> !IsVertexLine(lines[k]))
             ==> r.value.event.vertex == Origin && r.value.event.time == 0.0))
  {
    assert FindLine(lines, from, EventOpen) == open;
    assert FindLine(lines, open + 2, EventClose) == close;
    var reset := ev.(header := rd.header(ev.header, lines[open + 1]), vertex := Origin, time := 0.0);
    BodyOutcome(reset, lines, open + 2, close, rd);
    if forall k :: open + 2 <= k < close ==> !IsVertexLine(lines[k]) {
      BodyKeepsVertex(reset, lines, open + 2, close, rd);
    }
  }

  /** A mother index counts particles from 1: a positive MOTHUP m links particle m - 1. */
  lemma LinkedMothers(ps: seq<Particle>, k: nat)
    requires k < |ps|
    ensures ps[k].mothup0 > 0 ==> Link(ps)[k].mother0 == Some(ps[k].mothup0 - 1)
    ensures ps[k].mothup0 <= 0 ==> Link(ps)[k].mother0 == ps[k].mother0
    ensures ps[k].mothup1 > 0 ==> Link(ps)[k].mother1 == Some(ps[k].mothup1 - 1)
    ensures ps[k].mothup1 <= 0 ==> Link(ps)[k].mother1 == ps[k].mother1
  {
  }

  /** Linking again changes nothing, so reloading relinks earlier particles harmlessly. */
  lemma LinkIdempotent(ps: seq<Particle>)
    ensures Link(Link(ps)) == Link(ps)
  {
  }
}
