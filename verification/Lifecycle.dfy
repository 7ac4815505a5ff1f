/** The pure lifecycle algebra of one stable entity routing slot: five states, ten
    facts, and the ordered effects each decision requests. */
module Lifecycle {
  import opened Common

  datatype Refusal = Busy | Draining | Unavailable

  datatype DrainStage = Reservations | FenceEnqueue | FenceAcknowledgement | Retirement

  datatype DrainFailure = DrainFailure(stage: DrainStage, outstandingReservations: nat)

  datatype RetirementMode = Graceful | Forced(failure: DrainFailure)

  /** A command retained while a shared activation is in flight. */
  datatype Waiter<C> = Waiter(dispatchId: Identity, command: C)

  /** Deliveries that reserved admission and have not resolved. */
  datatype ReservationCount = Drained | Pending(count: Positive) {
    function Value(): nat {
      if Drained? then 0 else count
    }

    static function FromLen(n: nat): (r: ReservationCount)
      ensures r.Value() == n
    {
      if n == 0 then Drained else Pending(n)
    }

    function Reserve(): (r: ReservationCount)
      ensures r.Value() == Value() + 1
    {
      match this
      case Drained => Pending(1)
      case Pending(n) => Pending(n + 1)
    }

    /** None when no reservation was outstanding. */
    function Resolve(): (r: Option<ReservationCount>)
      ensures r.None? <==> Value() == 0
      ensures r.Some? ==> r.value.Value() == Value() - 1
    {
      match this
      case Drained => None
      case Pending(n) => Some(FromLen(n - 1))
    }
  }

  datatype DrainProgress = AwaitingReservations(pending: Positive) | AwaitingFence

  datatype EntitySlot<C, E, L> =
    | Inactive
    | Activating(activationId: Identity, waiters: seq<Waiter<C>>, waiterLimit: Positive)
    | Active(activationId: Identity, endpoint: E, lease: L, reservations: ReservationCount)
    | Draining(activationId: Identity, endpoint: E, lease: L, progress: DrainProgress)
    | Retiring(activationId: Identity)
  {
    function Phase(): LifecyclePhase {
      match this
      case Inactive => LifecyclePhase.Inactive
      case Activating(_, _, _) => LifecyclePhase.Activating
      case Active(_, _, _, _) => LifecyclePhase.Active
      case Draining(_, _, _, _) => LifecyclePhase.Draining
      case Retiring(_) => LifecyclePhase.Retiring
    }

    /** The activation this state represents, when one exists. */
    function Current(): Option<Identity> {
      if Inactive? then None else Some(activationId)
    }

    predicate Is(g: Identity) {
      Current() == Some(g)
    }
  }

  datatype Returned<C> = Returned(dispatchId: Identity, command: C)

  datatype SlotEvent<C, E, L> =
    | ClaimActivation(activationId: Identity, dispatchId: Identity, command: C, waiterLimit: Positive)
    | Dispatch(dispatchId: Identity, command: C)
    | CancelWaiter(activationId: Identity, dispatchId: Identity)
    | ActivationSucceeded(activationId: Identity, endpoint: E, lease: L)
    | ActivationFailed(activationId: Identity)
    | DeliveryResolved(activationId: Identity, failure: Option<Returned<C>>)
    | BeginDrain(activationId: Identity)
    | FenceAcknowledged(activationId: Identity)
    | ForceDrain(activationId: Identity, drainFailure: DrainFailure)
    | Terminated(activationId: Identity)
  {
    function Trigger(): LifecycleTrigger {
      match this
      case ClaimActivation(_, _, _, _) => LifecycleTrigger.ClaimActivation
      case Dispatch(_, _) => LifecycleTrigger.Dispatch
      case CancelWaiter(_, _) => LifecycleTrigger.CancelWaiter
      case ActivationSucceeded(_, _, _) => LifecycleTrigger.ActivationSucceeded
      case ActivationFailed(_) => LifecycleTrigger.ActivationFailed
      case DeliveryResolved(_, _) => LifecycleTrigger.DeliveryResolved
      case BeginDrain(_) => LifecycleTrigger.BeginDrain
      case FenceAcknowledged(_) => LifecycleTrigger.FenceAcknowledged
      case ForceDrain(_, _) => LifecycleTrigger.ForceDrain
      case Terminated(_) => LifecycleTrigger.Terminated
    }
  }

  datatype SlotEffect<C, E, L> =
    | StartActivation(activationId: Identity)
    | Deliver(activationId: Identity, dispatchId: Identity, endpoint: E, command: C)
    | Reject(dispatchId: Identity, command: C, reason: Refusal)
    | EnqueueFence(activationId: Identity, endpoint: E)
    | Retire(activationId: Identity, lease: L, retirement: RetirementMode)
    | Remove(activationId: Identity)

  /** Stable lifecycle phase identity; the topology numbers phases in this order. */
  datatype LifecyclePhase = Inactive | Activating | Active | Draining | Retiring

  /** Stable identity of an input; the topology numbers triggers in this order. */
  datatype LifecycleTrigger =
    | ClaimActivation | Dispatch | CancelWaiter | ActivationSucceeded | ActivationFailed
    | DeliveryResolved | BeginDrain | FenceAcknowledged | ForceDrain | Terminated

  /** The next state and the ordered effects of one reduction. */
  datatype Decision<C, E, L> = Decision(state: EntitySlot<C, E, L>, effects: seq<SlotEffect<C, E, L>>)

  function Keep<C, E, L>(state: EntitySlot<C, E, L>): Decision<C, E, L> {
    Decision(state, [])
  }

  function Refuse<C, E, L>(state: EntitySlot<C, E, L>, d: Identity, command: C, reason: Refusal): Decision<C, E, L> {
    Decision(state, [Reject(d, command, reason)])
  }

  /** A delivery that failed returns its command, whatever the state. */
  function RefuseReturned<C, E, L>(state: EntitySlot<C, E, L>, failure: Option<Returned<C>>): Decision<C, E, L> {
    match failure
    case Some(returned) => Refuse(state, returned.dispatchId, returned.command, Unavailable)
    case None => Keep(state)
  }

  /** A lease whose activation is not the slot's own is retired at once. */
  function RetireStale<C, E, L>(state: EntitySlot<C, E, L>, g: Identity, lease: L): Decision<C, E, L> {
    Decision(state, [Retire(g, lease, Forced(DrainFailure(Retirement, 0)))])
  }

  function Reduce<C, E, L>(state: EntitySlot<C, E, L>, event: SlotEvent<C, E, L>): Decision<C, E, L> {
    match state
    case Inactive => DecideInactive(event)
    case Activating(_, _, _) => DecideActivating(state, event)
    case Active(_, _, _, _) => DecideActive(state, event)
    case Draining(_, _, _, _) => DecideDraining(state, event)
    case Retiring(g) => DecideRetiring(g, event)
  }

  function DecideInactive<C, E, L>(event: SlotEvent<C, E, L>): Decision<C, E, L> {
    match event
    case ClaimActivation(g, d, command, limit) =>
      Decision(EntitySlot.Activating(g, [Waiter(d, command)], limit), [StartActivation(g)])
    case Dispatch(d, command) => Refuse(EntitySlot.Inactive, d, command, Unavailable)
    case ActivationSucceeded(g, _, lease) => RetireStale(EntitySlot.Inactive, g, lease)
    case DeliveryResolved(_, failure) => RefuseReturned(EntitySlot.Inactive, failure)
    case _ => Keep(EntitySlot.Inactive)
  }

  /** The waiters left once every one with dispatch identity `d` is dropped. */
  function WithoutWaiter<C>(waiters: seq<Waiter<C>>, d: Identity): seq<Waiter<C>> {
    if waiters == [] then []
    else
      var n := |waiters| - 1;
      WithoutWaiter(waiters[..n], d) + if waiters[n].dispatchId == d then [] else [waiters[n]]
  }

  function DeliverAll<C, E, L>(waiters: seq<Waiter<C>>, g: Identity, endpoint: E): (r: seq<SlotEffect<C, E, L>>) {
    seq(|waiters|, i requires 0 <= i < |waiters| => Deliver(g, waiters[i].dispatchId, endpoint, waiters[i].command))
  }

  function RejectAll<C, E, L>(waiters: seq<Waiter<C>>): (r: seq<SlotEffect<C, E, L>>) {
    seq(|waiters|, i requires 0 <= i < |waiters| => Reject(waiters[i].dispatchId, waiters[i].command, Unavailable))
  }

  function DecideActivating<C, E, L>(state: EntitySlot<C, E, L>, event: SlotEvent<C, E, L>): Decision<C, E, L>
    requires state.Activating?
  {
    match event
    case Dispatch(d, command) =>
      if |state.waiters| < state.waiterLimit
      then Keep(state.(waiters := state.waiters + [Waiter(d, command)]))
      else Refuse(state, d, command, Busy)
    case CancelWaiter(g, d) =>
      if state.activationId == g then Keep(state.(waiters := WithoutWaiter(state.waiters, d))) else Keep(state)
    case ActivationSucceeded(g, endpoint, lease) =>
      if state.activationId == g
      then Decision(
        EntitySlot.Active(g, endpoint, lease, ReservationCount.FromLen(|state.waiters|)),
        DeliverAll(state.waiters, g, endpoint))
      else RetireStale(state, g, lease)
    case ActivationFailed(g) =>
      if state.activationId == g
      then Decision(EntitySlot.Inactive, RejectAll(state.waiters) + [Remove(g)])
      else Keep(state)
    case ClaimActivation(_, d, command, _) => Refuse(state, d, command, Busy)
    case DeliveryResolved(_, failure) => RefuseReturned(state, failure)
    case _ => Keep(state)
  }

  function DecideActive<C, E, L>(state: EntitySlot<C, E, L>, event: SlotEvent<C, E, L>): Decision<C, E, L>
    requires state.Active?
  {
    match event
    case Dispatch(d, command) =>
      Decision(
        state.(reservations := state.reservations.Reserve()),
        [Deliver(state.activationId, d, state.endpoint, command)])
    case DeliveryResolved(g, failure) =>
      if state.activationId == g then
        match state.reservations.Resolve()
        case None => RefuseReturned(state, failure)
        case Some(remaining) => RefuseReturned(state.(reservations := remaining), failure)
      else RefuseReturned(state, failure)
    case BeginDrain(g) => if state.activationId == g then StartDraining(state) else Keep(state)
    case ActivationSucceeded(g, _, lease) => RetireStale(state, g, lease)
    case ClaimActivation(_, d, command, _) => Refuse(state, d, command, Busy)
    case _ => Keep(state)
  }

  function StartDraining<C, E, L>(state: EntitySlot<C, E, L>): Decision<C, E, L>
    requires state.Active?
  {
    match state.reservations
    case Drained =>
      Decision(
        EntitySlot.Draining(state.activationId, state.endpoint, state.lease, AwaitingFence),
        [EnqueueFence(state.activationId, state.endpoint)])
    case Pending(n) =>
      Keep(EntitySlot.Draining(state.activationId, state.endpoint, state.lease, AwaitingReservations(n)))
  }

  function DecideDraining<C, E, L>(state: EntitySlot<C, E, L>, event: SlotEvent<C, E, L>): Decision<C, E, L>
    requires state.Draining?
  {
    match event
    case Dispatch(d, command) => Refuse(state, d, command, Refusal.Draining)
    case ClaimActivation(_, d, command, _) => Refuse(state, d, command, Refusal.Draining)
    case DeliveryResolved(g, failure) =>
      if state.activationId == g then ResolveDraining(state, failure) else RefuseReturned(state, failure)
    case FenceAcknowledged(g) =>
      if state.activationId == g && state.progress.AwaitingFence?
      then Decision(EntitySlot.Retiring(g), [Retire(g, state.lease, Graceful)])
      else Keep(state)
    case ForceDrain(g, failure) =>
      if state.activationId == g
      then Decision(EntitySlot.Retiring(g), [Retire(g, state.lease, Forced(failure))])
      else Keep(state)
    case ActivationSucceeded(g, _, lease) => RetireStale(state, g, lease)
    case _ => Keep(state)
  }

  function ResolveDraining<C, E, L>(state: EntitySlot<C, E, L>, failure: Option<Returned<C>>): Decision<C, E, L>
    requires state.Draining?
  {
    match state.progress
    case AwaitingFence => RefuseReturned(state, failure)
    case AwaitingReservations(n) =>
      if n > 1 then RefuseReturned(state.(progress := AwaitingReservations(n - 1)), failure)
      else
        var returned := RefuseReturned(state.(progress := AwaitingFence), failure);
        Decision(returned.state, returned.effects + [EnqueueFence(state.activationId, state.endpoint)])
  }

  function DecideRetiring<C, E, L>(g: Identity, event: SlotEvent<C, E, L>): Decision<C, E, L> {
    var state := EntitySlot.Retiring(g);
    match event
    case Terminated(observed) =>
      if observed == g then Decision(EntitySlot.Inactive, [Remove(g)]) else Keep(state)
    case Dispatch(d, command) => Refuse(state, d, command, Refusal.Draining)
    case ClaimActivation(_, d, command, _) => Refuse(state, d, command, Refusal.Draining)
    case ActivationSucceeded(stale, _, lease) => RetireStale(state, stale, lease)
    case DeliveryResolved(_, failure) => RefuseReturned(state, failure)
    case _ => Keep(state)
  }

  /** Fold an ordered stream of facts through a slot. */
  function DecideAll<C, E, L>(state: EntitySlot<C, E, L>, events: seq<SlotEvent<C, E, L>>): Decision<C, E, L> {
    if events == [] then Keep(state)
    else
      var n := |events| - 1;
      var before := DecideAll(state, events[..n]);
      var last := Reduce(before.state, events[n]);
      Decision(last.state, before.effects + last.effects)
  }

  /** The decision of the fold splits at any point, with effects concatenating. */
  lemma {:induction false} DecideAllSplits<C, E, L>(state: EntitySlot<C, E, L>, a: seq<SlotEvent<C, E, L>>, b: seq<SlotEvent<C, E, L>>)
    ensures DecideAll(state, a + b) ==
      var first := DecideAll(state, a);
      var second := DecideAll(first.state, b);
      Decision(second.state, first.effects + second.effects)
  {
    hide Reduce;
    if b == [] {
      assert a + b == a;
    } else {
      var n := |b| - 1;
      DecideAllSplits(state, a, b[..n]);
      assert (a + b)[..|a| + n] == a + b[..n] && (a + b)[|a| + n] == b[n];
    }
  }
}
