/**
 * `UserEventInformation`: the per-event record of the weight, the number of
 * brem candidates, the photo- and electro-nuclear energy totals and whether
 * the most recent step was photo- or electro-nuclear.
 *
 * Doubles are modelled as reals: the weight's running product and the
 * energy sums are exact here.
 */
module UserEventInformation {

  datatype EventInfo = EventInfo(
    bremCandidates: int, weight: real, pnEnergy: real, lastStepPN: bool, enEnergy: real, lastStepEN: bool)

  /** The defaults: weight 1, no candidates, no energy, neither kind of last step. */
  const Fresh := EventInfo(0, 1.0, 0.0, false, 0.0, false)

  /** The record's mutators. */
  datatype Update =
    | IncBremCandidates
    | DecBremCandidates
    | SetWeight(w: real)
    | IncWeight(stepWeight: real)
    | AddPNEnergy(delta: real)
    | AddENEnergy(delta: real)
    | LastStepWasPN(yes: bool)
    | LastStepWasEN(yes: bool)

  /** One mutator call; each touches its own field only. */
  function Apply(e: EventInfo, u: Update): (r: EventInfo)
    ensures u.IncBremCandidates? ==> r == e.(bremCandidates := e.bremCandidates + 1)
    ensures u.DecBremCandidates? ==> r == e.(bremCandidates := e.bremCandidates - 1)
    ensures u.IncWeight? ==> r.weight == e.weight * u.stepWeight && r.(weight := e.weight) == e
    ensures u.AddPNEnergy? ==> r.pnEnergy == e.pnEnergy + u.delta && r.(pnEnergy := e.pnEnergy) == e
    ensures u.AddENEnergy? ==> r.enEnergy == e.enEnergy + u.delta && r.(enEnergy := e.enEnergy) == e
    ensures u.SetWeight? ==> r.weight == u.w && r.(weight := e.weight) == e
    ensures u.LastStepWasPN? ==> r.lastStepPN == u.yes && r.(lastStepPN := e.lastStepPN) == e
    ensures u.LastStepWasEN? ==> r.lastStepEN == u.yes && r.(lastStepEN := e.lastStepEN) == e
  {
    match u
    case IncBremCandidates => e.(bremCandidates := e.bremCandidates + 1)
    case DecBremCandidates => e.(bremCandidates := e.bremCandidates - 1)
    case SetWeight(w) => e.(weight := w)
    case IncWeight(w) => e.(weight := e.weight * w)
    case AddPNEnergy(d) => e.(pnEnergy := e.pnEnergy + d)
    case AddENEnergy(d) => e.(enEnergy := e.enEnergy + d)
    case LastStepWasPN(yes) => e.(lastStepPN := yes)
    case LastStepWasEN(yes) => e.(lastStepEN := yes)
  }

  /** A sequence of calls, in order. */
  function ApplyAll(e: EventInfo, us: seq<Update>): EventInfo
    decreases |us|
  {
    if |us| == 0 then e else Apply(ApplyAll(e, us[..|us| - 1]), us[|us| - 1])
  }

  // The reference reading of a call history, field by field.

  function Occurrences(us: seq<Update>, u: Update): nat
    decreases |us|
  {
    if |us| == 0 then 0 else Occurrences(us[..|us| - 1], u) + (if us[|us| - 1] == u then 1 else 0)
  }

  /** The weight: the last `setWeight` (or 1), times every later `incWeight` factor. */
  function WeightOf(us: seq<Update>): real
    decreases |us|
  {
    if |us| == 0 then 1.0
    else
      match us[|us| - 1]
      case SetWeight(w) => w
      case IncWeight(f) => WeightOf(us[..|us| - 1]) * f
      case _ => WeightOf(us[..|us| - 1])
  }

  /** The sum of the photo-nuclear deltas. */
  function PNTotal(us: seq<Update>): real
    decreases |us|
  {
    if |us| == 0 then 0.0
    else PNTotal(us[..|us| - 1]) + (if us[|us| - 1].AddPNEnergy? then us[|us| - 1].delta else 0.0)
  }

  /** The sum of the electro-nuclear deltas. */
  function ENTotal(us: seq<Update>): real
    decreases |us|
  {
    if |us| == 0 then 0.0
    else ENTotal(us[..|us| - 1]) + (if us[|us| - 1].AddENEnergy? then us[|us| - 1].delta else 0.0)
  }

  /** The flag given by the last PN (`pn`) or EN setter, or false. */
  function LastFlag(us: seq<Update>, pn: bool): bool
    decreases |us|
  {
    if |us| == 0 then false
    else
      var u := us[|us| - 1];
      if pn && u.LastStepWasPN? then u.yes
      else if !pn && u.LastStepWasEN? then u.yes
      else LastFlag(us[..|us| - 1], pn)
  }

  /**
   * From a fresh record, any call history leaves: as many candidates as
   * increments minus decrements, the weight of the last set times the later
   * factors, the energy totals as independent sums, and the flags as last set.
   */
  lemma {:induction false} HistoryFromFresh(us: seq<Update>)
    ensures var e := ApplyAll(Fresh, us);
      && e.bremCandidates == Occurrences(us, IncBremCandidates) - Occurrences(us, DecBremCandidates)
      && e.weight == WeightOf(us)
      && e.pnEnergy == PNTotal(us)
      && e.enEnergy == ENTotal(us)
      && e.lastStepPN == LastFlag(us, true)
      && e.lastStepEN == LastFlag(us, false)
    decreases |us|
  {
    if |us| > 0 {
      HistoryFromFresh(us[..|us| - 1]);
    }
  }

  /** An increment followed by a decrement leaves the record as it was. */
  lemma IncThenDec(e: EventInfo)
    ensures Apply(Apply(e, IncBremCandidates), DecBremCandidates) == e
  {
  }
}
