/** The executable lifecycle machine: one reduction plus checked evidence of the
    declared edge it traversed, the self-loop it took, or the input it ignored. */
module Evidence {
  import opened Common
  import opened Lifecycle

  /** Authoritative identity of one phase-changing edge, in declaration order. */
  datatype LifecycleEdge =
    | ClaimActivation | ActivationSucceeded | ActivationFailed | BeginDrain
    | FenceAcknowledged | ForceDrain | Terminated
  {
    function Endpoints(): (LifecyclePhase, LifecycleTrigger, LifecyclePhase) {
      match this
      case ClaimActivation => (LifecyclePhase.Inactive, LifecycleTrigger.ClaimActivation, LifecyclePhase.Activating)
      case ActivationSucceeded => (LifecyclePhase.Activating, LifecycleTrigger.ActivationSucceeded, LifecyclePhase.Active)
      case ActivationFailed => (LifecyclePhase.Activating, LifecycleTrigger.ActivationFailed, LifecyclePhase.Inactive)
      case BeginDrain => (LifecyclePhase.Active, LifecycleTrigger.BeginDrain, LifecyclePhase.Draining)
      case FenceAcknowledged => (LifecyclePhase.Draining, LifecycleTrigger.FenceAcknowledged, LifecyclePhase.Retiring)
      case ForceDrain => (LifecyclePhase.Draining, LifecycleTrigger.ForceDrain, LifecyclePhase.Retiring)
      case Terminated => (LifecyclePhase.Retiring, LifecycleTrigger.Terminated, LifecyclePhase.Inactive)
    }
  }

  const ALL_EDGES: seq<LifecycleEdge> := [
    LifecycleEdge.ClaimActivation, LifecycleEdge.ActivationSucceeded, LifecycleEdge.ActivationFailed,
    LifecycleEdge.BeginDrain, LifecycleEdge.FenceAcknowledged, LifecycleEdge.ForceDrain, LifecycleEdge.Terminated]

  datatype TransitionEvidence =
    | Traversed(edge: LifecycleEdge)
    | SelfLoop(phase: LifecyclePhase, trigger: LifecycleTrigger)
    | Ignored(phase: LifecyclePhase, trigger: LifecycleTrigger)

  datatype LifecycleOutput<C, E, L> = LifecycleOutput(
    effects: seq<SlotEffect<C, E, L>>,
    evidence: TransitionEvidence,
    activationId: Option<Identity>)

  /** Whether the input is addressed to this state, as opposed to stale or irrelevant. */
  predicate Handles<C, E, L>(state: EntitySlot<C, E, L>, event: SlotEvent<C, E, L>) {
    match event
    case Dispatch(_, _) => true
    case ClaimActivation(_, _, _, _) => !state.Inactive?
    case CancelWaiter(g, _) => state.Activating? && state.activationId == g
    case ActivationSucceeded(g, _, _) => state.Activating? && state.activationId == g
    case ActivationFailed(g) => state.Activating? && state.activationId == g
    case DeliveryResolved(g, _) => (state.Active? || state.Draining?) && state.activationId == g
    case BeginDrain(g) => state.Active? && state.activationId == g
    case FenceAcknowledged(g) => state.Draining? && state.activationId == g
    case ForceDrain(g, _) => state.Draining? && state.activationId == g
    case Terminated(g) => state.Retiring? && state.activationId == g
  }

  /** The first edge of `edges` with the given endpoints. */
  function FindEdge(edges: seq<LifecycleEdge>, endpoints: (LifecyclePhase, LifecycleTrigger, LifecyclePhase))
    : (r: Option<LifecycleEdge>)
    ensures r.Some? ==> r.value in edges && r.value.Endpoints() == endpoints
    ensures r.None? ==> forall e <- edges :: e.Endpoints() != endpoints
  {
    if edges == [] then None
    else if edges[0].Endpoints() == endpoints then Some(edges[0])
    else FindEdge(edges[1..], endpoints)
  }

  /** The edge that justifies a change of phase, were it declared. */
  function EdgeTaken<C, E, L>(state: EntitySlot<C, E, L>, event: SlotEvent<C, E, L>): Option<LifecycleEdge> {
    FindEdge(ALL_EDGES, (state.Phase(), event.Trigger(), Reduce(state, event).state.Phase()))
  }

  /** Every executable change of phase is a declared edge: the machine's lookup cannot fail. */
  lemma PhaseChangeIsDeclared<C, E, L>(state: EntitySlot<C, E, L>, event: SlotEvent<C, E, L>)
    ensures Reduce(state, event).state.Phase() != state.Phase() ==> EdgeTaken(state, event).Some?
  {
    if Reduce(state, event).state.Phase() != state.Phase() {
      var edge: LifecycleEdge :=
        match event
        case ClaimActivation(_, _, _, _) => LifecycleEdge.ClaimActivation
        case ActivationSucceeded(_, _, _) => LifecycleEdge.ActivationSucceeded
        case ActivationFailed(_) => LifecycleEdge.ActivationFailed
        case BeginDrain(_) => LifecycleEdge.BeginDrain
        case FenceAcknowledged(_) => LifecycleEdge.FenceAcknowledged
        case ForceDrain(_, _) => LifecycleEdge.ForceDrain
        case _ => LifecycleEdge.Terminated;
      assert edge in ALL_EDGES;
      assert edge.Endpoints() == (state.Phase(), event.Trigger(), Reduce(state, event).state.Phase());
    }
  }

  function Transition<C, E, L>(state: EntitySlot<C, E, L>, event: SlotEvent<C, E, L>)
    : (LifecycleOutput<C, E, L>, EntitySlot<C, E, L>)
  {
    PhaseChangeIsDeclared(state, event);
    var decision := Reduce(state, event);
    var from, to := state.Phase(), decision.state.Phase();
    var evidence :=
      if from != to then Traversed(EdgeTaken(state, event).value)
      else if Handles(state, event) then SelfLoop(from, event.Trigger())
      else Ignored(from, event.Trigger());
    (LifecycleOutput(decision.effects, evidence, decision.state.Current()), decision.state)
  }

  predicate IsCleanup<C, E, L>(effect: SlotEffect<C, E, L>) {
    effect.Reject? || effect.Retire?
  }

  lemma EndpointsIdentifyEdges(e: LifecycleEdge, f: LifecycleEdge)
    ensures e.Endpoints() == f.Endpoints() <==> e == f
  {}

  lemma IgnoredIsInert<C, E, L>(state: EntitySlot<C, E, L>, event: SlotEvent<C, E, L>)
    requires !Handles(state, event) && Reduce(state, event).state.Phase() == state.Phase()
    ensures Reduce(state, event).state == state
    ensures forall e <- Reduce(state, event).effects :: IsCleanup(e)
  {}

  /** Evidence is faithful: a traversed edge has exactly the observed endpoints and is the
      only declared edge that does; without one the phase is kept; and an ignored input
      leaves the whole state alone and requests cleanup effects only. */
  lemma EvidenceIsFaithful<C, E, L>(state: EntitySlot<C, E, L>, event: SlotEvent<C, E, L>)
    ensures
      var (output, next) := Transition(state, event);
      match output.evidence
      case Traversed(edge) =>
        && state.Phase() != next.Phase()
        && forall e <- ALL_EDGES :: e.Endpoints() == (state.Phase(), event.Trigger(), next.Phase()) <==> e == edge
      case SelfLoop(phase, trigger) =>
        phase == state.Phase() == next.Phase() && trigger == event.Trigger() && Handles(state, event)
      case Ignored(phase, trigger) =>
        && phase == state.Phase() && trigger == event.Trigger() && !Handles(state, event)
        && next == state
        && forall e <- output.effects :: IsCleanup(e)
  {
    PhaseChangeIsDeclared(state, event);
    var (output, next) := Transition(state, event);
    if output.evidence.Ignored? {
      IgnoredIsInert(state, event);
    }
    hide Reduce, Handles, IsCleanup, LifecycleEdge.Endpoints;
    if output.evidence.Traversed? {
      var edge := output.evidence.edge;
      forall e <- ALL_EDGES
        ensures e.Endpoints() == (state.Phase(), event.Trigger(), next.Phase()) <==> e == edge
      {
        EndpointsIdentifyEdges(e, edge);
      }
    }
  }

  /** The state after the first `n` events. */
  function StateAt<C, E, L>(state: EntitySlot<C, E, L>, events: seq<SlotEvent<C, E, L>>, n: nat): EntitySlot<C, E, L>
    requires n <= |events|
  {
    DecideAll(state, events[..n]).state
  }

  lemma StateAtStep<C, E, L>(state: EntitySlot<C, E, L>, events: seq<SlotEvent<C, E, L>>, n: nat)
    requires n < |events|
    ensures StateAt(state, events, n + 1) == Reduce(StateAt(state, events, n), events[n]).state
  {
    hide Reduce;
    assert events[..n + 1][..n] == events[..n];
  }

  predicate AdmissionClosed<C, E, L>(state: EntitySlot<C, E, L>) {
    state.Draining? || state.Retiring?
  }

  predicate Admitting<C, E, L>(state: EntitySlot<C, E, L>) {
    state.Activating? || state.Active?
  }

  lemma AdmissionStep<C, E, L>(state: EntitySlot<C, E, L>, event: SlotEvent<C, E, L>)
    ensures Admitting(Reduce(state, event).state) ==> Admitting(state) || (state.Inactive? && event.ClaimActivation?)
  {}

  /** Once admission has closed it is reopened only by way of Inactive and a fresh claim. */
  lemma {:induction false} DrainNeverReopens<C, E, L>(state: EntitySlot<C, E, L>, events: seq<SlotEvent<C, E, L>>, i: nat, j: nat)
    requires i <= j <= |events|
    requires AdmissionClosed(StateAt(state, events, i))
    requires Admitting(StateAt(state, events, j))
    ensures exists k :: i < k < j && StateAt(state, events, k).Inactive? && events[k].ClaimActivation?
  {
    hide Reduce, StateAt;
    var before := StateAt(state, events, j - 1);
    StateAtStep(state, events, j - 1);
    AdmissionStep(before, events[j - 1]);
    if Admitting(before) {
      DrainNeverReopens(state, events, i, j - 1);
    } else {
      assert i < j - 1;
    }
  }
}
