/**
 * `g4user::StackingAction`: a new track's stack classification as proposed
 * by each registered stacking action in turn, and the forwarding of the
 * stage and event notifications to those actions.
 */
module StackingAction {

  /** `G4ClassificationOfNewTrack`; `Waiting(0)` is fWaiting, `Waiting(n)` fWaiting_n. */
  datatype Classification = Urgent | Waiting(stage: nat) | Postpone | Kill

  /** A stacking action: the classification it proposes from the track and the one so far. */
  type Classifier<-T> = (T, Classification) -> Classification

  /**
   * `ClassifyNewTrack` as written: adopt a proposal only when it differs from
   * the current one. The test makes no difference: the result is fUrgent with
   * no actions, and otherwise the last action's proposal.
   */
  function Classify<T>(actions: seq<Classifier<T>>, track: T): (r: Classification)
    ensures |actions| == 0 ==> r == Urgent
    ensures |actions| > 0 ==> r == actions[|actions| - 1](track, Classify(actions[..|actions| - 1], track))
    decreases |actions|
  {
    if |actions| == 0 then Urgent
    else
      var current := Classify(actions[..|actions| - 1], track);
      var proposed := actions[|actions| - 1](track, current);
      if proposed != current then proposed else current
  }

  /** The reading without the "only if changed" test: every action's output is passed on. */
  function Chain<T>(actions: seq<Classifier<T>>, track: T): Classification
    decreases |actions|
  {
    if |actions| == 0 then Urgent
    else actions[|actions| - 1](track, Chain(actions[..|actions| - 1], track))
  }

  /**
   * The comparison changes nothing: the classification is fUrgent with no
   * actions and otherwise the last action's output on what the ones before
   * produced.
   */
  lemma {:induction false} ClassifyIsChain<T>(actions: seq<Classifier<T>>, track: T)
    ensures Classify(actions, track) == Chain(actions, track)
    ensures |actions| == 0 ==> Classify(actions, track) == Urgent
    ensures |actions| > 0 ==>
              Classify(actions, track) == actions[|actions| - 1](track, Classify(actions[..|actions| - 1], track))
    decreases |actions|
  {
    if |actions| > 0 {
      ClassifyIsChain(actions[..|actions| - 1], track);
    }
  }

  /** An action that always proposes the same class decides the result if it comes last. */
  lemma LastActionDecides<T>(actions: seq<Classifier<T>>, c: Classification, track: T)
    ensures Classify(actions + [(t: T, cur: Classification) => c], track) == c
  {
    assert (actions + [(t: T, cur: Classification) => c])[..|actions|] == actions;
  }

  /** The notifications a stacking action receives. */
  datatype Notice = NewStage | PrepareNewEvent

  /**
   * `NewStage` and `PrepareNewEvent`: the calls made, as (action index,
   * notice), to every action in registration order.
   */
  function Forward(count: nat, n: Notice): (calls: seq<(nat, Notice)>)
    ensures |calls| == count
    ensures forall i :: 0 <= i < count ==> calls[i] == (i, n)
  {
    if count == 0 then [] else Forward(count - 1, n) + [(count - 1, n)]
  }
}
