/**
 * The kinds of user action (`TYPE` in UserAction.h and user/Action.h) and
 * the dispatchers that hold, per kind, the user actions attached to it in
 * attachment order.
 */
module UserActionKinds {

  /** `TYPE`: RUN = 1, EVENT, TRACKING, STEPPING, STACKING, NONE. */
  datatype Kind = Run | Event | Tracking | Stepping | Stacking | NoKind

  function Code(k: Kind): (c: int)
    ensures 1 <= c <= 6
  {
    match k
    case Run => 1
    case Event => 2
    case Tracking => 3
    case Stepping => 4
    case Stacking => 5
    case NoKind => 6
  }

  /** The five kinds that have a dispatcher. */
  predicate HasDispatcher(k: Kind) {
    k != NoKind
  }

  type Dispatchers<A> = map<Kind, seq<A>>

  /** The actions attached to kind `k` (none for a kind without an entry). */
  function Attached<A>(d: Dispatchers<A>, k: Kind): seq<A> {
    if k in d then d[k] else []
  }

  /** Attach `a` to the dispatcher of each of `types`, in order; `NoKind` is passed over. */
  function AttachTypes<A>(d: Dispatchers<A>, a: A, types: seq<Kind>): (r: Dispatchers<A>)
    ensures forall k :: k in d ==> k in r
    ensures Attached(r, NoKind) == Attached(d, NoKind)
    decreases |types|
  {
    if |types| == 0 then d
    else
      var t := types[|types| - 1];
      var d' := AttachTypes(d, a, types[..|types| - 1]);
      if HasDispatcher(t) then d'[t := Attached(d', t) + [a]] else d'
  }

  /** How often `k` occurs in `types`. */
  function Count(types: seq<Kind>, k: Kind): nat {
    if |types| == 0 then 0
    else Count(types[..|types| - 1], k) + (if types[|types| - 1] == k then 1 else 0)
  }

  function Repeat<A>(a: A, n: nat): (r: seq<A>)
    ensures |r| == n
    ensures forall i :: 0 <= i < n ==> r[i] == a
  {
    if n == 0 then [] else Repeat(a, n - 1) + [a]
  }

  /** Attaching appends the action once per listing of the kind. */
  lemma {:induction false} AttachTypesAppends<A>(d: Dispatchers<A>, a: A, types: seq<Kind>, k: Kind)
    requires HasDispatcher(k)
    ensures Attached(AttachTypes(d, a, types), k) == Attached(d, k) + Repeat(a, Count(types, k))
    decreases |types|
  {
    if |types| > 0 {
      AttachTypesAppends(d, a, types[..|types| - 1], k);
    }
  }

  /** Every action in turn attached to the kinds it reports (Simulator's constructor). */
  function AttachAll<A>(d: Dispatchers<A>, actions: seq<A>, typesOf: A -> seq<Kind>): Dispatchers<A>
    decreases |actions|
  {
    if |actions| == 0 then d
    else AttachTypes(AttachAll(d, actions[..|actions| - 1], typesOf), actions[|actions| - 1], typesOf(actions[|actions| - 1]))
  }

  /** The reference: each action, in order, as often as it lists the kind. */
  function Selected<A>(actions: seq<A>, typesOf: A -> seq<Kind>, k: Kind): seq<A>
    decreases |actions|
  {
    if |actions| == 0 then []
    else
      var a := actions[|actions| - 1];
      Selected(actions[..|actions| - 1], typesOf, k) + Repeat(a, Count(typesOf(a), k))
  }

  /**
   * After attaching, a kind's dispatcher holds the actions listing it, in
   * configuration order; `NoKind` gets nothing.
   */
  lemma {:induction false} AttachAllDispatches<A>(d: Dispatchers<A>, actions: seq<A>, typesOf: A -> seq<Kind>, k: Kind)
    ensures HasDispatcher(k) ==> Attached(AttachAll(d, actions, typesOf), k) == Attached(d, k) + Selected(actions, typesOf, k)
    ensures Attached(AttachAll(d, actions, typesOf), NoKind) == Attached(d, NoKind)
    decreases |actions|
  {
    if |actions| > 0 {
      var init := actions[..|actions| - 1];
      var a := actions[|actions| - 1];
      AttachAllDispatches(d, init, typesOf, k);
      if HasDispatcher(k) {
        AttachTypesAppends(AttachAll(d, init, typesOf), a, typesOf(a), k);
      }
    }
  }
}
