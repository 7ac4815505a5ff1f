/** Conservation laws of one reduction. Commands and leases are moved, never copied or
    lost; and the obligations a slot waits for are exactly the tokens its effects created. */
module Ledger {
  import opened Common
  import opened Lifecycle

  /** What kind of asynchronous work a token stands for. */
  datatype Kind = Activation | Delivery | Fence | Retirement | Removal

  /** Something conserved: one obligation for one activation, one command, or one lease. */
  datatype Item<C, L> =
    | Token(kind: Kind, activationId: Identity)
    | Command(dispatchId: Identity, command: C)
    | Lease(lease: L)

  // ----- what each value carries -----

  ghost function Indicator<X>(a: X, b: X): nat {
    if a == b then 1 else 0
  }

  ghost function WaiterItem<C, L>(w: Waiter<C>, x: Item<C, L>): nat {
    Indicator(x, Command(w.dispatchId, w.command))
  }

  ghost function EffectItem<C, E, L>(e: SlotEffect<C, E, L>, x: Item<C, L>): nat {
    match e
    case StartActivation(g) => Indicator(x, Token(Activation, g))
    case Deliver(g, d, _, c) => Indicator(x, Token(Delivery, g)) + Indicator(x, Command(d, c))
    case Reject(d, c, _) => Indicator(x, Command(d, c))
    case EnqueueFence(g, _) => Indicator(x, Token(Fence, g))
    case Retire(g, l, _) => Indicator(x, Token(Kind.Retirement, g)) + Indicator(x, Lease(l))
    case Remove(g) => Indicator(x, Token(Removal, g))
  }

  ghost function EventItem<C, E, L>(event: SlotEvent<C, E, L>, x: Item<C, L>): nat {
    match event
    case ClaimActivation(_, d, c, _) => Indicator(x, Command(d, c))
    case Dispatch(d, c) => Indicator(x, Command(d, c))
    case CancelWaiter(_, _) => 0
    case ActivationSucceeded(g, _, l) => Indicator(x, Token(Activation, g)) + Indicator(x, Lease(l))
    case ActivationFailed(g) => Indicator(x, Token(Activation, g))
    case DeliveryResolved(g, failure) =>
      Indicator(x, Token(Delivery, g)) + if failure.Some? then Indicator(x, Command(failure.value.dispatchId, failure.value.command)) else 0
    case BeginDrain(_) => 0
    case FenceAcknowledged(g) => Indicator(x, Token(Fence, g))
    case ForceDrain(g, _) => Indicator(x, Token(Fence, g))
    case Terminated(g) => Indicator(x, Token(Kind.Retirement, g))
  }

  /** The commands and the lease a slot holds. */
  ghost function StateItem<C, E, L>(state: EntitySlot<C, E, L>, x: Item<C, L>): nat {
    match state
    case Activating(_, waiters, _) => Tally(waiters, (WaiterItem<C, L>), x)
    case Active(_, _, l, _) => Indicator(x, Lease(l))
    case Draining(_, _, l, _) => Indicator(x, Lease(l))
    case _ => 0
  }

  /** The obligations the slot of activation `g` is waiting for. */
  ghost function Demand<C, E, L>(state: EntitySlot<C, E, L>, g: Identity, x: Item<C, L>): nat {
    match state
    case Inactive => Indicator(x, Token(Removal, g))
    case Activating(_, _, _) => Indicator(x, Token(Activation, g))
    case Active(_, _, _, n) => if x == Token(Delivery, g) then n.Value() else 0
    case Draining(_, _, _, AwaitingReservations(n)) => if x == Token(Delivery, g) then n else 0
    case Draining(_, _, _, AwaitingFence) => Indicator(x, Token(Fence, g))
    case Retiring(_) => Indicator(x, Token(Kind.Retirement, g))
  }

  /** The commands a current cancellation discards on purpose. */
  ghost function Discarded<C, E, L>(state: EntitySlot<C, E, L>, event: SlotEvent<C, E, L>, x: Item<C, L>): nat {
    if event.CancelWaiter? && state.Activating? && state.activationId == event.activationId
       && x.Command? && x.dispatchId == event.dispatchId
    then StateItem(state, x) else 0
  }

  // ----- tallies over the effects of whole waiter lists -----

  ghost function Effects<C, E, L>(effects: seq<SlotEffect<C, E, L>>, x: Item<C, L>): nat {
    Tally(effects, (EffectItem<C, E, L>), x)
  }

  lemma OneEffect<C, E, L>(e: SlotEffect<C, E, L>, x: Item<C, L>)
    ensures Effects([e], x) == EffectItem(e, x)
  {
    TallyAppend([], e, (EffectItem<C, E, L>), x);
    assert [] + [e] == [e];
  }

  lemma EffectsConcat<C, E, L>(a: seq<SlotEffect<C, E, L>>, b: seq<SlotEffect<C, E, L>>, x: Item<C, L>)
    ensures Effects(a + b, x) == Effects(a, x) + Effects(b, x)
  {
    TallyConcat(a, b, (EffectItem<C, E, L>), x);
  }

  lemma {:induction false} DeliverAllItems<C, E, L>(waiters: seq<Waiter<C>>, g: Identity, endpoint: E, x: Item<C, L>)
    ensures Effects<C, E, L>(DeliverAll(waiters, g, endpoint), x)
         == Tally(waiters, (WaiterItem<C, L>), x) + if x == Token(Delivery, g) then |waiters| else 0
  {
    if waiters != [] {
      var n := |waiters| - 1;
      DeliverAllItems<C, E, L>(waiters[..n], g, endpoint, x);
      var all: seq<SlotEffect<C, E, L>> := DeliverAll(waiters, g, endpoint);
      assert all[..n] == DeliverAll(waiters[..n], g, endpoint);
    }
  }

  lemma {:induction false} RejectAllItems<C, E, L>(waiters: seq<Waiter<C>>, x: Item<C, L>)
    ensures Effects<C, E, L>(RejectAll(waiters), x) == Tally(waiters, (WaiterItem<C, L>), x)
  {
    if waiters != [] {
      var n := |waiters| - 1;
      RejectAllItems<C, E, L>(waiters[..n], x);
      var all: seq<SlotEffect<C, E, L>> := RejectAll(waiters);
      assert all[..n] == RejectAll(waiters[..n]);
    }
  }

  lemma {:induction false} WithoutWaiterItems<C, L>(waiters: seq<Waiter<C>>, d: Identity, x: Item<C, L>)
    ensures Tally(WithoutWaiter(waiters, d), (WaiterItem<C, L>), x)
         == if x.Command? && x.dispatchId == d then 0 else Tally(waiters, (WaiterItem<C, L>), x)
  {
    if waiters != [] {
      var n := |waiters| - 1;
      WithoutWaiterItems(waiters[..n], d, x);
      if waiters[n].dispatchId != d {
        TallyAppend(WithoutWaiter(waiters[..n], d), waiters[n], (WaiterItem<C, L>), x);
      } else {
        assert WithoutWaiter(waiters, d) == WithoutWaiter(waiters[..n], d);
      }
    }
  }

  lemma RefuseReturnedItems<C, E, L>(state: EntitySlot<C, E, L>, failure: Option<Returned<C>>, x: Item<C, L>)
    ensures Effects(RefuseReturned(state, failure).effects, x)
         == if failure.Some? then Indicator(x, Command(failure.value.dispatchId, failure.value.command)) else 0
  {
    if failure.Some? {
      OneEffect<C, E, L>(Reject(failure.value.dispatchId, failure.value.command, Unavailable), x);
    }
  }

  // ----- the laws -----

  /** Commands and leases: what goes in with the state and the event comes out with the
      next state, the effects, or a cancellation. */
  ghost predicate Conserves<C, E, L>(state: EntitySlot<C, E, L>, event: SlotEvent<C, E, L>, x: Item<C, L>) {
    var r := Reduce(state, event);
    StateItem(state, x) + EventItem(event, x) == StateItem(r.state, x) + Effects(r.effects, x) + Discarded(state, event, x)
  }

  /** Tokens: the event pays one obligation off and the effects create the new ones. */
  ghost predicate Balances<C, E, L>(state: EntitySlot<C, E, L>, g: Identity, event: SlotEvent<C, E, L>, x: Item<C, L>) {
    var r := Reduce(state, event);
    Demand(state, g, x) + Effects(r.effects, x) == Demand(r.state, g, x) + EventItem(event, x)
  }

  ghost function EventToken<C, E, L>(event: SlotEvent<C, E, L>): Option<Item<C, L>> {
    match event
    case ActivationSucceeded(g, _, _) => Some(Token(Activation, g))
    case ActivationFailed(g) => Some(Token(Activation, g))
    case DeliveryResolved(g, _) => Some(Token(Delivery, g))
    case FenceAcknowledged(g) => Some(Token(Fence, g))
    case ForceDrain(g, _) => Some(Token(Fence, g))
    case Terminated(g) => Some(Token(Kind.Retirement, g))
    case _ => None
  }

  /** The slot of activation `g` waits for what this event reports, if it reports a result. */
  ghost predicate Expected<C, E, L>(state: EntitySlot<C, E, L>, g: Identity, event: SlotEvent<C, E, L>) {
    && (state.Inactive? || state.activationId == g)
    && !event.ClaimActivation?
    && var token: Option<Item<C, L>> := EventToken(event);
       token.Some? ==> Demand(state, g, token.value) > 0
  }

  lemma InactiveLaws<C, E, L>(state: EntitySlot<C, E, L>, g: Identity, event: SlotEvent<C, E, L>, x: Item<C, L>)
    requires state.Inactive?
    ensures !x.Token? ==> Conserves(state, event, x)
    ensures x.Token? && Expected(state, g, event) ==> Balances(state, g, event, x)
  {
    EffectFacts(state, event, x);
    if event.ClaimActivation? {
      TallyAppend([], Waiter(event.dispatchId, event.command), (WaiterItem<C, L>), x);
      assert [] + [Waiter(event.dispatchId, event.command)] == [Waiter(event.dispatchId, event.command)];
    }
  }

  lemma CommitLaws<C, E, L>(state: EntitySlot<C, E, L>, g: Identity, event: SlotEvent<C, E, L>, x: Item<C, L>)
    requires state.Activating? && event.ActivationSucceeded?
    ensures !x.Token? ==> Conserves(state, event, x)
    ensures x.Token? && Expected(state, g, event) ==> Balances(state, g, event, x)
  {
    hide Tally;
    if x.Token? {
      WaitersCarryNoToken<C, L>(state.waiters, x);
    }
    DeliverAllItems<C, E, L>(state.waiters, event.activationId, event.endpoint, x);
    EffectFacts(state, event, x);
  }

  lemma FailureLaws<C, E, L>(state: EntitySlot<C, E, L>, g: Identity, event: SlotEvent<C, E, L>, x: Item<C, L>)
    requires state.Activating? && event.ActivationFailed?
    ensures !x.Token? ==> Conserves(state, event, x)
    ensures x.Token? && Expected(state, g, event) ==> Balances(state, g, event, x)
  {
    hide Tally;
    if x.Token? {
      WaitersCarryNoToken<C, L>(state.waiters, x);
    }
    RejectAllItems<C, E, L>(state.waiters, x);
    EffectsConcat<C, E, L>(RejectAll(state.waiters), [Remove(event.activationId)], x);
    OneEffect<C, E, L>(Remove(event.activationId), x);
    EffectFacts(state, event, x);
  }

  lemma ActivatingLaws<C, E, L>(state: EntitySlot<C, E, L>, g: Identity, event: SlotEvent<C, E, L>, x: Item<C, L>)
    requires state.Activating?
    ensures !x.Token? ==> Conserves(state, event, x)
    ensures x.Token? && Expected(state, g, event) ==> Balances(state, g, event, x)
  {
    hide Tally;
    if x.Token? {
      WaitersCarryNoToken<C, L>(state.waiters, x);
    }
    match event {
      case Dispatch(d, c) =>
        TallyAppend(state.waiters, Waiter(d, c), (WaiterItem<C, L>), x);
        EffectFacts(state, event, x);
      case CancelWaiter(_, d) =>
        WithoutWaiterItems<C, L>(state.waiters, d, x);
        EffectFacts(state, event, x);
      case ActivationSucceeded(_, _, _) => CommitLaws(state, g, event, x);
      case ActivationFailed(_) => FailureLaws(state, g, event, x);
      case DeliveryResolved(_, failure) => RefuseReturnedItems(state, failure, x);
      case _ => EffectFacts(state, event, x);
    }
  }

  lemma WaitersCarryNoToken<C, L>(waiters: seq<Waiter<C>>, x: Item<C, L>)
    requires !x.Command?
    ensures Tally(waiters, (WaiterItem<C, L>), x) == 0
  {
    TallyZero(waiters, (WaiterItem<C, L>), x);
  }

  lemma EffectFacts<C, E, L>(state: EntitySlot<C, E, L>, event: SlotEvent<C, E, L>, x: Item<C, L>)
    ensures var r := Reduce(state, event); |r.effects| == 1 ==> Effects(r.effects, x) == EffectItem(r.effects[0], x)
    ensures var r := Reduce(state, event); |r.effects| == 0 ==> Effects(r.effects, x) == 0
  {
    hide Reduce;
    var r := Reduce(state, event);
    if |r.effects| == 1 {
      OneEffect(r.effects[0], x);
      assert r.effects == [r.effects[0]];
    }
  }

  lemma ActiveLaws<C, E, L>(state: EntitySlot<C, E, L>, g: Identity, event: SlotEvent<C, E, L>, x: Item<C, L>)
    requires state.Active?
    ensures !x.Token? ==> Conserves(state, event, x)
    ensures x.Token? && Expected(state, g, event) ==> Balances(state, g, event, x)
  {
    EffectFacts(state, event, x);
    if event.DeliveryResolved? {
      RefuseReturnedItems(state, event.failure, x);
    }
  }

  lemma ResolveDrainingLaws<C, E, L>(state: EntitySlot<C, E, L>, g: Identity, event: SlotEvent<C, E, L>, x: Item<C, L>)
    requires state.Draining? && event.DeliveryResolved?
    ensures !x.Token? ==> Conserves(state, event, x)
    ensures x.Token? && Expected(state, g, event) ==> Balances(state, g, event, x)
  {
    hide Tally;
    var fence: SlotEffect<C, E, L> := EnqueueFence(state.activationId, state.endpoint);
    RefuseReturnedItems(state, event.failure, x);
    OneEffect(fence, x);
    EffectsConcat(RefuseReturned(state, event.failure).effects, [fence], x);
  }

  lemma DrainingLaws<C, E, L>(state: EntitySlot<C, E, L>, g: Identity, event: SlotEvent<C, E, L>, x: Item<C, L>)
    requires state.Draining?
    ensures !x.Token? ==> Conserves(state, event, x)
    ensures x.Token? && Expected(state, g, event) ==> Balances(state, g, event, x)
  {
    if event.DeliveryResolved? {
      hide *;
      ResolveDrainingLaws(state, g, event, x);
    } else {
      hide Tally;
      EffectFacts(state, event, x);
    }
  }

  lemma RetiringLaws<C, E, L>(state: EntitySlot<C, E, L>, g: Identity, event: SlotEvent<C, E, L>, x: Item<C, L>)
    requires state.Retiring?
    ensures !x.Token? ==> Conserves(state, event, x)
    ensures x.Token? && Expected(state, g, event) ==> Balances(state, g, event, x)
  {
    EffectFacts(state, event, x);
  }

  /** Every reduction, of any state by any event, moves each command and lease exactly once. */
  lemma ReduceConserves<C, E, L>(state: EntitySlot<C, E, L>, event: SlotEvent<C, E, L>, x: Item<C, L>)
    requires !x.Token?
    ensures Conserves(state, event, x)
  {
    hide Reduce, Conserves;
    match state {
      case Inactive => InactiveLaws(state, 1, event, x);
      case Activating(_, _, _) => ActivatingLaws(state, 1, event, x);
      case Active(_, _, _, _) => ActiveLaws(state, 1, event, x);
      case Draining(_, _, _, _) => DrainingLaws(state, 1, event, x);
      case Retiring(_) => RetiringLaws(state, 1, event, x);
    }
  }

  /** An expected event keeps the slot's obligations and the outstanding tokens in balance. */
  lemma ReduceBalances<C, E, L>(state: EntitySlot<C, E, L>, g: Identity, event: SlotEvent<C, E, L>, x: Item<C, L>)
    requires x.Token? && Expected(state, g, event)
    ensures Balances(state, g, event, x)
  {
    hide Reduce, Balances, Expected;
    match state {
      case Inactive => InactiveLaws(state, g, event, x);
      case Activating(_, _, _) => ActivatingLaws(state, g, event, x);
      case Active(_, _, _, _) => ActiveLaws(state, g, event, x);
      case Draining(_, _, _, _) => DrainingLaws(state, g, event, x);
      case Retiring(_) => RetiringLaws(state, g, event, x);
    }
  }
}
