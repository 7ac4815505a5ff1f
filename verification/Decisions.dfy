/** What one decision does, by outcome: for every kind of effect exactly when it is requested and
    with what, and exactly what evidence is reported. Nothing here refers to how decisions are made. */
module Decisions {
  import opened Common
  import opened Lifecycle
  import opened Evidence
  import opened SlotRuns

  // ----- refusals -----

  /** The slot does not take a new command, and why. */
  predicate Refuses<C, E, L>(state: EntitySlot<C, E, L>, reason: Refusal) {
    match state
    case Inactive => reason == Unavailable
    case Activating(_, waiters, limit) => |waiters| >= limit && reason == Busy
    case Active(_, _, _, _) => false
    case Draining(_, _, _, _) => reason == Refusal.Draining
    case Retiring(_) => reason == Refusal.Draining
  }

  /** Command `command` of dispatch `d` comes back from this state on this event for this reason. */
  ghost predicate RefusedBy<C, E, L>(state: EntitySlot<C, E, L>, event: SlotEvent<C, E, L>, d: Identity, command: C, reason: Refusal) {
    match event
    case Dispatch(id, c) => id == d && c == command && Refuses(state, reason)
    case ClaimActivation(_, id, c, _) =>
      && id == d && c == command
      && (((state.Activating? || state.Active?) && reason == Busy)
          || ((state.Draining? || state.Retiring?) && reason == Refusal.Draining))
    case DeliveryResolved(_, failure) => failure == Some(Returned(d, command)) && reason == Unavailable
    case ActivationFailed(g) =>
      state.Activating? && state.activationId == g && Waiter(d, command) in state.waiters && reason == Unavailable
    case _ => false
  }

  lemma RejectsFound<C, E, L>(waiters: seq<Waiter<C>>, g: Identity, d: Identity, command: C, reason: Refusal)
    ensures Reject(d, command, reason) in RejectAll<C, E, L>(waiters) + [Remove(g)]
       <==> Waiter(d, command) in waiters && reason == Unavailable
  {
    var effects: seq<SlotEffect<C, E, L>> := RejectAll(waiters) + [Remove(g)];
    if Waiter(d, command) in waiters && reason == Unavailable {
      var i :| 0 <= i < |waiters| && waiters[i] == Waiter(d, command);
      assert effects[i] == Reject(d, command, reason);
    }
  }

  /** A command is refused exactly when its slot's state says so, with that state's reason: busy at
      the waiter limit, draining once admission is closed, unavailable when inactive, when its
      delivery failed, or when its activation failed. */
  lemma RefusedExactly<C, E, L>(state: EntitySlot<C, E, L>, event: SlotEvent<C, E, L>, d: Identity, command: C, reason: Refusal)
    ensures Reject(d, command, reason) in Reduce(state, event).effects <==> RefusedBy(state, event, d, command, reason)
  {
    if state.Activating? && event.ActivationFailed? && event.activationId == state.activationId {
      RejectsFound<C, E, L>(state.waiters, event.activationId, d, command, reason);
    }
  }

  // ----- every other effect -----

  ghost predicate RetiredBy<C, E, L>(
      state: EntitySlot<C, E, L>, event: SlotEvent<C, E, L>, g: Identity, lease: L, mode: RetirementMode)
  {
    || (state.Draining? && state.activationId == g && state.lease == lease
        && ((event == SlotEvent.FenceAcknowledged(g) && state.progress.AwaitingFence? && mode == Graceful)
            || (event.ForceDrain? && event.activationId == g && mode == Forced(event.drainFailure))))
    || (event.ActivationSucceeded? && event.activationId == g && event.lease == lease
        && !(state.Activating? && state.activationId == g)
        && mode == Forced(DrainFailure(DrainStage.Retirement, 0)))
  }

  /** A lease is retired gracefully exactly on the acknowledgement of the awaited fence, and forced
      with the failure a forced drain reports, or at once if its activation is not awaited. */
  lemma RetiredExactly<C, E, L>(
      state: EntitySlot<C, E, L>, event: SlotEvent<C, E, L>, g: Identity, lease: L, mode: RetirementMode)
    ensures Retire(g, lease, mode) in Reduce(state, event).effects <==> RetiredBy(state, event, g, lease, mode)
  {}

  ghost predicate DeliveredBy<C, E, L>(
      state: EntitySlot<C, E, L>, event: SlotEvent<C, E, L>, g: Identity, d: Identity, endpoint: E, command: C)
  {
    || (state.Active? && state.activationId == g && state.endpoint == endpoint && event == SlotEvent.Dispatch(d, command))
    || (state.Activating? && state.activationId == g && Waiter(d, command) in state.waiters
        && event.ActivationSucceeded? && event.activationId == g && event.endpoint == endpoint)
  }

  /** A command is delivered to the endpoint of the active incarnation, exactly when it is dispatched
      to it or was a waiter of the activation that commits. */
  lemma DeliveredExactly<C, E, L>(
      state: EntitySlot<C, E, L>, event: SlotEvent<C, E, L>, g: Identity, d: Identity, endpoint: E, command: C)
    ensures Deliver(g, d, endpoint, command) in Reduce(state, event).effects
       <==> DeliveredBy(state, event, g, d, endpoint, command)
  {
    if state.Activating? && Waiter(d, command) in state.waiters && event.ActivationSucceeded?
       && event.activationId == state.activationId {
      var i :| 0 <= i < |state.waiters| && state.waiters[i] == Waiter(d, command);
      assert Reduce(state, event).effects[i] == Deliver(event.activationId, d, event.endpoint, command);
    }
  }

  ghost predicate FencedBy<C, E, L>(state: EntitySlot<C, E, L>, event: SlotEvent<C, E, L>, g: Identity, endpoint: E) {
    || (state.Active? && state.activationId == g && state.endpoint == endpoint
        && state.reservations.Value() == 0 && event == SlotEvent.BeginDrain(g))
    || (state.Draining? && state.activationId == g && state.endpoint == endpoint
        && state.progress == AwaitingReservations(1) && event.DeliveryResolved? && event.activationId == g)
  }

  ghost predicate RemovedBy<C, E, L>(state: EntitySlot<C, E, L>, event: SlotEvent<C, E, L>, g: Identity) {
    || (state.Activating? && state.activationId == g && event == SlotEvent.ActivationFailed(g))
    || (state.Retiring? && state.activationId == g && event == SlotEvent.Terminated(g))
  }

  /** A fence is requested exactly when the last reservation of a closed admission is gone; an
      activation starts exactly on a claim of the inactive slot; and a slot is removed exactly when
      its activation fails or its termination is reported. */
  lemma ProtocolEffectsExactly<C, E, L>(state: EntitySlot<C, E, L>, event: SlotEvent<C, E, L>, g: Identity, endpoint: E)
    ensures EnqueueFence(g, endpoint) in Reduce(state, event).effects <==> FencedBy(state, event, g, endpoint)
    ensures StartActivation(g) in Reduce(state, event).effects
       <==> state.Inactive? && event.ClaimActivation? && event.activationId == g
    ensures Remove(g) in Reduce(state, event).effects <==> RemovedBy(state, event, g)
  {
    if state.Activating? && event.ActivationFailed? && event.activationId == state.activationId {
      var effects := Reduce(state, event).effects;
      assert effects[|effects| - 1] == Remove(event.activationId);
    }
  }

  /** A fence or a removal is the last effect of its decision: what the decision gives back, it gives
      back before. */
  lemma FenceAndRemovalComeLast<C, E, L>(state: EntitySlot<C, E, L>, event: SlotEvent<C, E, L>, i: nat)
    requires i < |Reduce(state, event).effects|
    ensures
      var effects := Reduce(state, event).effects;
      effects[i].EnqueueFence? || effects[i].Remove? ==> i == |effects| - 1
  {}

  // ----- evidence -----

  predicate SamePhase<C, E, L>(a: EntitySlot<C, E, L>, b: EntitySlot<C, E, L>) {
    match a
    case Inactive => b.Inactive?
    case Activating(g, _, _) => b.Activating? && b.activationId == g
    case Active(g, _, _, _) => b.Active? && b.activationId == g
    case Draining(g, _, _, _) => b.Draining? && b.activationId == g
    case Retiring(g) => b.Retiring? && b.activationId == g
  }

  predicate IsPhase<C, E, L>(state: EntitySlot<C, E, L>, phase: LifecyclePhase) {
    match phase
    case Inactive => state.Inactive?
    case Activating => state.Activating?
    case Active => state.Active?
    case Draining => state.Draining?
    case Retiring => state.Retiring?
  }

  predicate IsTrigger<C, E, L>(event: SlotEvent<C, E, L>, trigger: LifecycleTrigger) {
    match trigger
    case ClaimActivation => event.ClaimActivation?
    case Dispatch => event.Dispatch?
    case CancelWaiter => event.CancelWaiter?
    case ActivationSucceeded => event.ActivationSucceeded?
    case ActivationFailed => event.ActivationFailed?
    case DeliveryResolved => event.DeliveryResolved?
    case BeginDrain => event.BeginDrain?
    case FenceAcknowledged => event.FenceAcknowledged?
    case ForceDrain => event.ForceDrain?
    case Terminated => event.Terminated?
  }

  /** The edge is the one this fact takes this state along to the next. */
  predicate IsEdge<C, E, L>(edge: LifecycleEdge, state: EntitySlot<C, E, L>, event: SlotEvent<C, E, L>, next: EntitySlot<C, E, L>) {
    match edge
    case ClaimActivation => state.Inactive? && event.ClaimActivation? && next.Activating?
    case ActivationSucceeded => state.Activating? && event.ActivationSucceeded? && next.Active?
    case ActivationFailed => state.Activating? && event.ActivationFailed? && next.Inactive?
    case BeginDrain => state.Active? && event.BeginDrain? && next.Draining?
    case FenceAcknowledged => state.Draining? && event.FenceAcknowledged? && next.Retiring?
    case ForceDrain => state.Draining? && event.ForceDrain? && next.Retiring?
    case Terminated => state.Retiring? && event.Terminated? && next.Inactive?
  }

  /** Some slot in this phase of this activation is changed by the event. */
  ghost predicate Matters<C(!new), E(!new), L(!new)>(state: EntitySlot<C, E, L>, event: SlotEvent<C, E, L>) {
    exists other: EntitySlot<C, E, L> :: SamePhase(state, other) && Reduce(other, event).state != other
  }

  /** The input is for this slot: a dispatch, a claim of a slot that has an activation, or a fact that
      matters to some slot in its phase of its activation. */
  ghost predicate Addressed<C(!new), E(!new), L(!new)>(state: EntitySlot<C, E, L>, event: SlotEvent<C, E, L>) {
    event.Dispatch? || (event.ClaimActivation? && !state.Inactive?) || Matters(state, event)
  }

  /** A slot in the same phase of the same activation that a current fact does change. */
  lemma CurrentFactsMatter<C(!new, 00), E(!new), L(!new)>(state: EntitySlot<C, E, L>, event: SlotEvent<C, E, L>)
    requires !state.Inactive? && !event.Dispatch? && !event.ClaimActivation? && event.activationId == state.activationId
    requires match event
             case CancelWaiter(_, _) => state.Activating?
             case DeliveryResolved(_, _) => state.Active? || state.Draining?
             case FenceAcknowledged(_) => state.Draining?
             case _ => false
    ensures Matters(state, event)
  {
    match state {
      case Activating(_, _, _) =>
        var command: C :| true;
        var other := state.(waiters := [Waiter(event.dispatchId, command)]);
        assert WithoutWaiter(other.waiters[..0], event.dispatchId) == [];
        assert SamePhase(state, other) && Reduce(other, event).state != other;
      case Active(_, _, _, _) =>
        var other := state.(reservations := Pending(1));
        assert SamePhase(state, other) && Reduce(other, event).state != other;
      case Draining(_, _, _, _) =>
        var other := state.(progress := if event.DeliveryResolved? then AwaitingReservations(1) else AwaitingFence);
        assert SamePhase(state, other) && Reduce(other, event).state != other;
      case Retiring(_) =>
    }
  }

  lemma EndpointsAreTheEdge<C, E, L>(
      edge: LifecycleEdge, state: EntitySlot<C, E, L>, event: SlotEvent<C, E, L>, next: EntitySlot<C, E, L>)
    requires edge.Endpoints() == (state.Phase(), event.Trigger(), next.Phase())
    ensures IsEdge(edge, state, event, next)
  {}

  lemma KeptPhase<C, E, L>(state: EntitySlot<C, E, L>, event: SlotEvent<C, E, L>)
    ensures Reduce(state, event).state.Phase() == state.Phase() ==> SamePhase(state, Reduce(state, event).state)
  {}

  /** A decision keeps the phase and activation, or takes the edge of its fact. */
  lemma PhaseMoves<C, E, L>(state: EntitySlot<C, E, L>, event: SlotEvent<C, E, L>)
    ensures
      var next := Reduce(state, event).state;
      if next.Phase() == state.Phase() then SamePhase(state, next)
      else EdgeTaken(state, event).Some? && IsEdge(EdgeTaken(state, event).value, state, event, next)
  {
    PhaseChangeIsDeclared(state, event);
    KeptPhase(state, event);
    hide Reduce, FindEdge, IsEdge;
    if Reduce(state, event).state.Phase() != state.Phase() {
      EndpointsAreTheEdge(EdgeTaken(state, event).value, state, event, Reduce(state, event).state);
    }
  }

  lemma HandledIsAddressed<C(!new, 00), E(!new), L(!new)>(state: EntitySlot<C, E, L>, event: SlotEvent<C, E, L>)
    requires Handles(state, event) && SamePhase(state, Reduce(state, event).state)
    ensures Addressed(state, event)
  {
    hide Matters;
    if !event.Dispatch? && !event.ClaimActivation? {
      CurrentFactsMatter(state, event);
    }
  }

  lemma UnhandledIsNotAddressed<C(!new), E(!new), L(!new)>(state: EntitySlot<C, E, L>, event: SlotEvent<C, E, L>)
    requires !Handles(state, event) && SamePhase(state, Reduce(state, event).state)
    ensures !Addressed(state, event)
  {
    forall other | SamePhase(state, other)
      ensures Reduce(other, event).state == other
    {
      assert !Handles(other, event) || event.ClaimActivation?;
    }
  }

  lemma PhaseIsNamed<C, E, L>(state: EntitySlot<C, E, L>, event: SlotEvent<C, E, L>)
    ensures IsPhase(state, state.Phase()) && IsTrigger(event, event.Trigger())
  {}

  /** Evidence, exactly: a change of phase is reported as the edge it took; without one the phase and
      the input are named, as a self-loop if and only if the input is for this slot. */
  lemma EvidenceExactly<C(!new, 00), E(!new), L(!new)>(state: EntitySlot<C, E, L>, event: SlotEvent<C, E, L>)
    ensures
      var (output, next) := Transition(state, event);
      match output.evidence
      case Traversed(edge) => IsEdge(edge, state, event, next)
      case SelfLoop(phase, trigger) =>
        SamePhase(state, next) && IsPhase(state, phase) && IsTrigger(event, trigger) && Addressed(state, event)
      case Ignored(phase, trigger) =>
        SamePhase(state, next) && IsPhase(state, phase) && IsTrigger(event, trigger) && !Addressed(state, event)
  {
    PhaseMoves(state, event);
    PhaseIsNamed(state, event);
    hide Reduce, Addressed, IsPhase, IsTrigger, IsEdge, SamePhase, EdgeTaken, Handles;
    var (output, next) := Transition(state, event);
    if output.evidence.SelfLoop? {
      HandledIsAddressed(state, event);
    } else if output.evidence.Ignored? {
      UnhandledIsNotAddressed(state, event);
    }
  }

  /** In particular every stale fact is reported as ignored, whatever its kind. */
  lemma StaleIsIgnored<C, E, L>(state: EntitySlot<C, E, L>, event: SlotEvent<C, E, L>)
    requires Stale(state, event)
    ensures Transition(state, event).0.evidence.Ignored? && Transition(state, event).1 == state
  {
    StaleOnlyCleansUp(state, event);
  }
}
