/**
 * The cross-section biasing operator base classes, `XsecBiasingOperator`
 * and `user::BiasingOperator`. At the start of a run they look up the
 * process manager of the particle to bias, check that the process to bias
 * is wrapped for biasing, and create the `G4BOptnChangeCrossSection`
 * operation that every later proposal re-uses with a new biased cross
 * section.
 *
 * A particle's biasing shared data is modelled as the list of the names of
 * the processes its biasing wrappers wrap. `shared(particle)` is that list,
 * or `None` when the particle's process manager has no shared data.
 */
module XsecBiasing {
  import opened Wrappers
  import PF = PluginFactory

  /** The particles whose process manager the operators can look up. */
  predicate KnownParticle(particle: string) {
    particle == "gamma" || particle == "e-" || particle == "neutron" || particle == "kaon0L"
  }

  type Shared = string -> Option<seq<string>>

  /** A `G4BOptnChangeCrossSection`: its name and the biased cross section last set on it. */
  datatype Operation = Operation(name: string, biasedXsec: Option<real>)

  /**
   * The state of an operator: the process it biases, the shared data of the
   * process manager it found (`None` without manager or without shared
   * data), and its operation (`None` for a null pointer).
   */
  datatype Operator = Operator(process: string, wrapped: Option<seq<string>>, xsecOp: Option<Operation>)

  /** A freshly constructed operator: no process manager and no operation yet. */
  function Constructed(process: string): (r: Operator)
    ensures r.process == process && r.wrapped.None? && r.xsecOp.None?
  {
    Operator(process, None, None)
  }

  /** The reference meaning of `processIsBiased`: some wrapper wraps a process of that name. */
  predicate Wraps(wrapped: Option<seq<string>>, process: string) {
    wrapped.Some? && process in wrapped.value
  }

  /** `processIsBiased`: the scan of the shared data's wrappers for one wrapping `process`. */
  method ProcessIsBiased(wrapped: Option<seq<string>>, process: string) returns (r: bool)
    ensures r <==> Wraps(wrapped, process)
  {
    if wrapped.None? {
      return false;
    }
    var names := wrapped.value;
    var i := 0;
    while i < |names|
      invariant 0 <= i <= |names|
      invariant forall j :: 0 <= j < i ==> names[j] != process
    {
      if names[i] == process {
        return true;
      }
      i := i + 1;
    }
    return false;
  }

  /** The shared data reachable from the particle's process manager. */
  function ManagerData(particle: string, shared: Shared): (r: Option<seq<string>>)
    ensures !KnownParticle(particle) ==> r.None?
    ensures KnownParticle(particle) ==> r == shared(particle)
  {
    if KnownParticle(particle) then shared(particle) else None
  }

  /**
   * `XsecBiasingOperator::StartRun`: an unknown particle leaves the manager
   * null, and an unbiased process leaves the operation as it was; neither is
   * an error.
   */
  function XsecStartRun(prev: Operator, particle: string, shared: Shared): (r: Operator)
    ensures r.process == prev.process
    ensures r.wrapped == ManagerData(particle, shared)
    ensures Wraps(r.wrapped, prev.process) ==> r.xsecOp == Some(Operation("changeXsec-" + prev.process, None))
    ensures !Wraps(r.wrapped, prev.process) ==> r.xsecOp == prev.xsecOp
  {
    var wrapped := ManagerData(particle, shared);
    if Wraps(wrapped, prev.process) then Operator(prev.process, wrapped, Some(Operation("changeXsec-" + prev.process, None)))
    else prev.(wrapped := wrapped)
  }

  /**
   * `user::BiasingOperator::StartRun`: the same look-up, but an unknown
   * particle and an unwrapped process are both "BiasSetup".
   */
  function UserStartRun(prev: Operator, particle: string, shared: Shared): (r: Result<Operator>)
    ensures r.Err? ==> r.error == "BiasSetup"
    ensures r.Ok? <==> KnownParticle(particle) && Wraps(shared(particle), prev.process)
    ensures r.Ok? ==> r.value.xsecOp.Some? && r.value.process == prev.process
  {
    if !KnownParticle(particle) then Err("BiasSetup")
    else if !Wraps(shared(particle), prev.process) then Err("BiasSetup")
    else Ok(Operator(prev.process, shared(particle), Some(Operation("changeXsec-" + prev.process, None))))
  }

  /**
   * The two base classes agree wherever the user one does not throw, and it
   * throws exactly when the other would leave a fresh operator without an
   * operation.
   */
  lemma StartRunsAgree(process: string, particle: string, shared: Shared)
    ensures UserStartRun(Constructed(process), particle, shared).Ok?
            <==> XsecStartRun(Constructed(process), particle, shared).xsecOp.Some?
    ensures UserStartRun(Constructed(process), particle, shared).Ok? ==>
              UserStartRun(Constructed(process), particle, shared).value == XsecStartRun(Constructed(process), particle, shared)
  {
  }

  /** An operator for a particle without a known process manager never creates its operation. */
  lemma UnknownParticleNeverBiased(prev: Operator, particle: string, shared: Shared)
    requires !KnownParticle(particle)
    ensures XsecStartRun(prev, particle, shared).xsecOp == prev.xsecOp
    ensures UserStartRun(prev, particle, shared) == Err("BiasSetup")
  {
  }

  /**
   * `BiasedXsec`: the operator's operation gets the new biased cross section
   * and is returned. The source dereferences the operation, so it must exist.
   */
  function BiasedXsec(op: Operator, xsec: real): (r: (Operator, Operation))
    requires op.xsecOp.Some?
    ensures r.1.name == op.xsecOp.value.name && r.1.biasedXsec == Some(xsec)
    ensures r.0.xsecOp == Some(r.1) && r.0.(xsecOp := op.xsecOp) == op
  {
    var o := op.xsecOp.value.(biasedXsec := Some(xsec));
    (op.(xsecOp := Some(o)), o)
  }

  /** The operation is shared between proposals: only the last cross section set survives. */
  lemma BiasedXsecLastWins(op: Operator, a: real, b: real)
    requires op.xsecOp.Some?
    ensures BiasedXsec(BiasedXsec(op, a).0, b) == BiasedXsec(op, b)
  {
  }

  /** `declare`: registration of the operator's builder under its class name. */
  function Declare<G, A, O>(f: PF.Factory<G, A, O>, className: string, b: PF.Builder<O>) : (r: Result<PF.Factory<G, A, O>>)
    ensures r.Err? <==> className in f.operatorBuilders
    ensures r.Err? ==> r.error == "ExistingOperatorDefinition"
    ensures r.Ok? ==> r.value.operatorBuilders == f.operatorBuilders[className := b]
    ensures r.Ok? ==> r.value.(operatorBuilders := f.operatorBuilders) == f
  {
    PF.RegisterBiasingOperator(f, className, b)
  }

  /** A class declared once cannot be declared again, whatever the builder. */
  lemma DeclareTwiceRefused<G, A, O>(f: PF.Factory<G, A, O>, className: string, b1: PF.Builder<O>, b2: PF.Builder<O>)
    requires className !in f.operatorBuilders
    ensures Declare(f, className, b1).Ok?
    ensures Declare(Declare(f, className, b1).value, className, b2) == Err("ExistingOperatorDefinition")
  {
  }
}
