/** Draining one incarnation, over whole runs of a slot that starts inactive: admission
    stays closed, the fence waits for every reserved delivery, and graceful retirement
    waits for the fence. */
module DrainSafety {
  import opened Common
  import opened Lifecycle
  import opened Evidence
  import opened Ledger
  import opened SlotRuns

  ghost function Resolves<C, E, L>(event: SlotEvent<C, E, L>, g: Identity): nat {
    if event.DeliveryResolved? && event.activationId == g then 1 else 0
  }

  ghost function Claims<C, E, L>(event: SlotEvent<C, E, L>, g: Identity): nat {
    if event.ClaimActivation? && event.activationId == g then 1 else 0
  }

  ghost function Fences<C, E, L>(effect: SlotEffect<C, E, L>, g: Identity): nat {
    if effect.EnqueueFence? && effect.activationId == g then 1 else 0
  }

  ghost function Delivers<C, E, L>(effect: SlotEffect<C, E, L>, g: Identity): nat {
    if effect.Deliver? && effect.activationId == g then 1 else 0
  }

  function Run<C, E, L>(events: seq<SlotEvent<C, E, L>>): Decision<C, E, L> {
    DecideAll(EntitySlot.Inactive, events)
  }

  /** How many deliveries, fences, resolutions and claims of `g` a run has seen. */
  ghost function Delivered<C, E, L>(events: seq<SlotEvent<C, E, L>>, g: Identity): nat {
    Tally(Run(events).effects, (Delivers<C, E, L>), g)
  }

  ghost function Fenced<C, E, L>(events: seq<SlotEvent<C, E, L>>, g: Identity): nat {
    Tally(Run(events).effects, (Fences<C, E, L>), g)
  }

  ghost function Resolved<C, E, L>(events: seq<SlotEvent<C, E, L>>, g: Identity): nat {
    Tally(events, (Resolves<C, E, L>), g)
  }

  /** Activation identities are never reused. */
  ghost predicate ClaimedOnce<C, E, L>(events: seq<SlotEvent<C, E, L>>, g: Identity) {
    Tally(events, (Claims<C, E, L>), g) <= 1
  }

  /** No more deliveries of `g` resolve than were requested, at any time. */
  ghost predicate ResolvedInTime<C, E, L>(events: seq<SlotEvent<C, E, L>>, g: Identity) {
    forall n :: 0 <= n <= |events| ==> Resolved(events[..n], g) <= Delivered(events[..n], g)
  }

  function Outstanding<C, E, L>(state: EntitySlot<C, E, L>): nat {
    match state
    case Active(_, _, _, n) => n.Value()
    case Draining(_, _, _, AwaitingReservations(n)) => n
    case _ => 0
  }

  predicate AwaitsFence<C, E, L>(state: EntitySlot<C, E, L>) {
    state.Draining? && state.progress.AwaitingFence?
  }

  predicate Unfenced<C, E, L>(state: EntitySlot<C, E, L>) {
    state.Active? || (state.Draining? && !AwaitsFence(state))
  }

  lemma {:induction false} DeliverAllCount<C, E, L>(waiters: seq<Waiter<C>>, h: Identity, endpoint: E, g: Identity)
    ensures
      var effects: seq<SlotEffect<C, E, L>> := DeliverAll(waiters, h, endpoint);
      && Tally(effects, (Delivers<C, E, L>), g) == (if h == g then |waiters| else 0)
      && Tally(effects, (Fences<C, E, L>), g) == 0
  {
    if waiters != [] {
      var n := |waiters| - 1;
      DeliverAllCount<C, E, L>(waiters[..n], h, endpoint, g);
      var effects: seq<SlotEffect<C, E, L>> := DeliverAll(waiters, h, endpoint);
      assert effects[..n] == DeliverAll(waiters[..n], h, endpoint);
    }
  }

  lemma {:induction false} RejectAllCount<C, E, L>(waiters: seq<Waiter<C>>, g: Identity)
    ensures
      var effects: seq<SlotEffect<C, E, L>> := RejectAll(waiters);
      && Tally(effects, (Delivers<C, E, L>), g) == 0
      && Tally(effects, (Fences<C, E, L>), g) == 0
  {
    var effects: seq<SlotEffect<C, E, L>> := RejectAll(waiters);
    TallyZero(effects, (Delivers<C, E, L>), g);
    TallyZero(effects, (Fences<C, E, L>), g);
  }

  /** The deliveries and fences of one step. */
  ghost function StepDelivers<C, E, L>(state: EntitySlot<C, E, L>, event: SlotEvent<C, E, L>, g: Identity): nat {
    Tally(Reduce(state, event).effects, (Delivers<C, E, L>), g)
  }

  ghost function StepFences<C, E, L>(state: EntitySlot<C, E, L>, event: SlotEvent<C, E, L>, g: Identity): nat {
    Tally(Reduce(state, event).effects, (Fences<C, E, L>), g)
  }

  lemma ShortEffects<C, E, L>(effects: seq<SlotEffect<C, E, L>>, g: Identity)
    requires |effects| <= 2
    ensures effects == [] ==> Tally(effects, (Delivers<C, E, L>), g) == Tally(effects, (Fences<C, E, L>), g) == 0
    ensures |effects| == 1 ==>
      && Tally(effects, (Delivers<C, E, L>), g) == Delivers(effects[0], g)
      && Tally(effects, (Fences<C, E, L>), g) == Fences(effects[0], g)
    ensures |effects| == 2 ==>
      && Tally(effects, (Delivers<C, E, L>), g) == Delivers(effects[0], g) + Delivers(effects[1], g)
      && Tally(effects, (Fences<C, E, L>), g) == Fences(effects[0], g) + Fences(effects[1], g)
  {
    if |effects| == 1 {
      assert effects[..0] == [];
    } else if |effects| == 2 {
      assert effects[..1] == [effects[0]];
      assert effects[..1][..0] == [];
    }
  }

  /** The step relation of the drain protocol for one incarnation. */
  ghost predicate DrainStep<C, E, L>(state: EntitySlot<C, E, L>, event: SlotEvent<C, E, L>, g: Identity) {
    var next := Reduce(state, event).state;
    var delivers, fences := StepDelivers(state, event, g), StepFences(state, event, g);
    if !state.Is(g) then
      delivers == 0 && fences == 0 && (next.Is(g) ==> state.Inactive? && Claims(event, g) == 1 && next.Activating?)
    else if state.Activating? then
      && fences == 0
      && (next.Is(g) ==> (next.Activating? && delivers == 0) || (next.Active? && delivers == Outstanding(next) && Resolves(event, g) == 0))
      && (!next.Is(g) ==> delivers == 0)
    else if Unfenced(state) then
      var resolved := if Outstanding(state) > 0 then Resolves(event, g) else 0;
      && next.Is(g) && !next.Activating?
      && (state.Draining? ==> delivers == 0 && !next.Active?)
      && (delivers > 0 ==> next.Active? && Resolves(event, g) == 0)
      && (next.Retiring? ==> fences == 0)
      && (!next.Retiring? ==>
           && (Unfenced(next) || AwaitsFence(next))
           && Outstanding(next) + resolved == Outstanding(state) + delivers
           && fences == if AwaitsFence(next) then 1 else 0)
    else
      delivers == 0 && fences == 0 && (next.Is(g) ==> next == state || next.Retiring?)
  }

  lemma ActivatingStepDrains<C, E, L>(state: EntitySlot<C, E, L>, event: SlotEvent<C, E, L>, g: Identity)
    requires state.Activating?
    ensures DrainStep(state, event, g)
  {
    hide Tally;
    if event.ActivationSucceeded? && event.activationId == state.activationId {
      DeliverAllCount<C, E, L>(state.waiters, event.activationId, event.endpoint, g);
    } else if event.ActivationFailed? && event.activationId == state.activationId {
      RejectAllCount<C, E, L>(state.waiters, g);
      TallyAppend(RejectAll(state.waiters), SlotEffect<C, E, L>.Remove(event.activationId), (Delivers<C, E, L>), g);
      TallyAppend(RejectAll(state.waiters), SlotEffect<C, E, L>.Remove(event.activationId), (Fences<C, E, L>), g);
    } else {
      ShortEffects(Reduce(state, event).effects, g);
    }
  }

  lemma ActiveStepDrains<C, E, L>(state: EntitySlot<C, E, L>, event: SlotEvent<C, E, L>, g: Identity)
    requires state.Active?
    ensures DrainStep(state, event, g)
  {
    hide Tally;
    ShortEffects(Reduce(state, event).effects, g);
  }

  lemma DrainingStepDrains<C, E, L>(state: EntitySlot<C, E, L>, event: SlotEvent<C, E, L>, g: Identity)
    requires state.Draining?
    ensures DrainStep(state, event, g)
  {
    hide Tally;
    ShortEffects(Reduce(state, event).effects, g);
  }

  lemma EveryStepDrains<C, E, L>(state: EntitySlot<C, E, L>, event: SlotEvent<C, E, L>, g: Identity)
    ensures DrainStep(state, event, g)
  {
    match state {
      case Activating(_, _, _) => hide *; ActivatingStepDrains(state, event, g);
      case Active(_, _, _, _) => hide *; ActiveStepDrains(state, event, g);
      case Draining(_, _, _, _) => hide *; DrainingStepDrains(state, event, g);
      case _ => hide Tally; ShortEffects(Reduce(state, event).effects, g);
    }
  }

  /** What a run that never reuses `g` has done for it, by the state it reached. */
  ghost predicate Accounts<C, E, L>(events: seq<SlotEvent<C, E, L>>, g: Identity) {
    var state := Run(events).state;
    var delivered, resolved, fenced := Delivered(events, g), Resolved(events, g), Fenced(events, g);
    && (Tally(events, (Claims<C, E, L>), g) == 0 ==> delivered == 0 && fenced == 0 && !state.Is(g))
    && (state.Is(g) && state.Activating? ==> delivered == 0 && fenced == 0)
    && (state.Is(g) && Unfenced(state) ==>
         && fenced == 0 && delivered <= resolved + Outstanding(state)
         && (ResolvedInTime(events, g) <==> delivered == resolved + Outstanding(state)))
    && (state.Is(g) && AwaitsFence(state) ==>
         && fenced == 1 && delivered <= resolved
         && (ResolvedInTime(events, g) <==> delivered == resolved))
    && (delivered == 0 ==> (ResolvedInTime(events, g) <==> resolved == 0))
    && fenced <= 1
  }

  /** One more event adds its own deliveries, fences, resolutions and claims. */
  lemma RunExtends<C, E, L>(events: seq<SlotEvent<C, E, L>>, event: SlotEvent<C, E, L>, g: Identity)
    ensures
      var state := Run(events).state;
      && Run(events + [event]).state == Reduce(state, event).state
      && Delivered(events + [event], g) == Delivered(events, g) + StepDelivers(state, event, g)
      && Fenced(events + [event], g) == Fenced(events, g) + StepFences(state, event, g)
      && Resolved(events + [event], g) == Resolved(events, g) + Resolves(event, g)
      && Tally(events + [event], (Claims<C, E, L>), g) == Tally(events, (Claims<C, E, L>), g) + Claims(event, g)
  {
    hide Reduce;
    assert (events + [event])[..|events|] == events;
    var before, last := Run(events), Reduce(Run(events).state, event);
    TallyConcat(before.effects, last.effects, (Delivers<C, E, L>), g);
    TallyConcat(before.effects, last.effects, (Fences<C, E, L>), g);
  }

  lemma InTimeExtends<C, E, L>(events: seq<SlotEvent<C, E, L>>, event: SlotEvent<C, E, L>, g: Identity)
    ensures ResolvedInTime(events + [event], g)
       <==> ResolvedInTime(events, g) && Resolved(events + [event], g) <= Delivered(events + [event], g)
    ensures ResolvedInTime(events, g) ==> Resolved(events, g) <= Delivered(events, g)
  {
    hide Resolved, Delivered;
    var longer := events + [event];
    assert forall n :: 0 <= n <= |events| ==> longer[..n] == events[..n];
    assert longer[..|longer|] == longer && events[..|events|] == events;
    if ResolvedInTime(longer, g) {
      forall n | 0 <= n <= |events|
        ensures Resolved(events[..n], g) <= Delivered(events[..n], g)
      {
        assert longer[..n] == events[..n];
      }
    }
  }

  lemma AccountsExtend<C, E, L>(events: seq<SlotEvent<C, E, L>>, event: SlotEvent<C, E, L>, g: Identity)
    requires Accounts(events, g) && ClaimedOnce(events + [event], g)
    ensures Accounts(events + [event], g)
  {
    hide Reduce, Tally, Run, Delivered, Fenced, Resolved, StepDelivers, StepFences, ResolvedInTime;
    var state := Run(events).state;
    RunExtends(events, event, g);
    EveryStepDrains(state, event, g);
    InTimeExtends(events, event, g);
  }

  lemma {:induction false} EveryRunAccounts<C, E, L>(events: seq<SlotEvent<C, E, L>>, g: Identity)
    requires ClaimedOnce(events, g)
    ensures Accounts(events, g)
  {
    hide Reduce;
    if events != [] {
      var n := |events| - 1;
      assert events == events[..n] + [events[n]];
      TallyAppend(events[..n], events[n], (Claims<C, E, L>), g);
      EveryRunAccounts(events[..n], g);
      AccountsExtend(events[..n], events[n], g);
    }
  }

  // ----- the guarantees -----

  /** No delivery is requested for an incarnation once it has begun to drain. */
  lemma {:induction false} NoDeliveryAfterDrain<C, E, L>(a: seq<SlotEvent<C, E, L>>, b: seq<SlotEvent<C, E, L>>, g: Identity)
    requires ClaimedOnce(a + b, g)
    requires Tally(a, (Claims<C, E, L>), g) == 1
    requires !(Run(a).state.Is(g) && (Run(a).state.Activating? || Run(a).state.Active?))
    ensures Delivered(a + b, g) == Delivered(a, g)
    ensures !(Run(a + b).state.Is(g) && (Run(a + b).state.Activating? || Run(a + b).state.Active?))
  {
    hide Reduce;
    if b == [] {
      assert a + b == a;
    } else {
      var n := |b| - 1;
      TallyConcat(a, b[..n], (Claims<C, E, L>), g);
      assert (a + b[..n]) + [b[n]] == a + b;
      RunExtends(a + b[..n], b[n], g);
      EveryStepDrains(Run(a + b[..n]).state, b[n], g);
      NoDeliveryAfterDrain(a, b[..n], g);
    }
  }

  /** The fence is requested at most once, and only when at least as many deliveries have
      resolved as were requested; exactly as many have if and only if resolutions never
      outnumbered deliveries before. */
  lemma FenceFollowsEveryDelivery<C, E, L>(events: seq<SlotEvent<C, E, L>>, event: SlotEvent<C, E, L>, g: Identity)
    requires ClaimedOnce(events + [event], g)
    ensures Fenced(events + [event], g) <= 1
    ensures Fenced(events + [event], g) > Fenced(events, g) ==>
      && Delivered(events + [event], g) <= Resolved(events + [event], g)
      && (ResolvedInTime(events + [event], g) <==> Delivered(events + [event], g) == Resolved(events + [event], g))
  {
    hide Reduce, Tally, Run, Delivered, Fenced, Resolved, StepDelivers, StepFences, ResolvedInTime;
    EveryRunAccounts(events + [event], g);
    RunExtends(events, event, g);
    EveryStepDrains(Run(events).state, event, g);
  }

  /** One waiter delivered to, its delivery resolved twice, then a drain. */
  function ResolvedTwice<C, E, L>(command: C, endpoint: E, lease: L): seq<SlotEvent<C, E, L>> {
    [SlotEvent.ClaimActivation(1, 1, command, 1),
     SlotEvent.ActivationSucceeded(1, endpoint, lease),
     SlotEvent.DeliveryResolved(1, None),
     SlotEvent.DeliveryResolved(1, None),
     SlotEvent.BeginDrain(1)]
  }

  /** What a run has done for activation 1, and the state it reached. */
  ghost predicate Seen<C, E, L>(events: seq<SlotEvent<C, E, L>>, state: EntitySlot<C, E, L>, delivered: nat, fenced: nat, resolved: nat) {
    && Run(events).state == state && Delivered(events, 1) == delivered && Fenced(events, 1) == fenced
    && Resolved(events, 1) == resolved && Tally(events, (Claims<C, E, L>), 1) <= 1
  }

  lemma SeenStep<C, E, L>(
      events: seq<SlotEvent<C, E, L>>, n: nat, state: EntitySlot<C, E, L>, delivered: nat, fenced: nat, resolved: nat)
    requires 0 < n < |events| && !events[n].ClaimActivation? && Seen(events[..n], state, delivered, fenced, resolved)
    ensures
      Seen(events[..n + 1], Reduce(state, events[n]).state, delivered + StepDelivers(state, events[n], 1),
        fenced + StepFences(state, events[n], 1), resolved + Resolves(events[n], 1))
  {
    hide Reduce, Run, Delivered, Fenced, Resolved, StepDelivers, StepFences, Tally;
    RunExtends(events[..n], events[n], 1);
    assert events[..n] + [events[n]] == events[..n + 1];
  }

  lemma SeenFirst<C, E, L>(events: seq<SlotEvent<C, E, L>>)
    requires events != []
    ensures
      Seen(events[..1], Reduce(EntitySlot<C, E, L>.Inactive, events[0]).state,
        StepDelivers(EntitySlot<C, E, L>.Inactive, events[0], 1), StepFences(EntitySlot<C, E, L>.Inactive, events[0], 1),
        Resolves(events[0], 1))
  {
    hide Reduce, StepDelivers, StepFences;
    var none: seq<SlotEvent<C, E, L>> := [];
    assert Run(none) == Keep(EntitySlot<C, E, L>.Inactive);
    assert Delivered(none, 1) == 0 && Fenced(none, 1) == 0 && Resolved(none, 1) == 0;
    hide Run, Delivered, Fenced, Resolved;
    RunExtends(none, events[0], 1);
    assert none + [events[0]] == events[..1];
  }

  /** The slot accepts a resolution nobody owed: resolving one delivery twice reaches the fence
      with more resolutions than deliveries. Callers must keep to one resolution per delivery. */
  lemma FenceMayFollowSurplusResolutions<C, E, L>(command: C, endpoint: E, lease: L)
    ensures
      var events := ResolvedTwice<C, E, L>(command, endpoint, lease);
      && ClaimedOnce(events, 1) && Fenced(events, 1) == 1
      && Delivered(events, 1) == 1 && Resolved(events, 1) == 2 && !ResolvedInTime(events, 1)
  {
    hide Reduce, Run, Delivered, Fenced, Resolved, StepDelivers, StepFences, Tally;
    var events := ResolvedTwice<C, E, L>(command, endpoint, lease);
    var claimed := EntitySlot<C, E, L>.Activating(1, [Waiter(1, command)], 1);
    var active := EntitySlot<C, E, L>.Active(1, endpoint, lease, Drained);
    SurplusSteps<C, E, L>(command, endpoint, lease);
    SeenFirst(events);
    SeenStep(events, 1, claimed, 0, 0, 0);
    SeenStep(events, 2, active.(reservations := Pending(1)), 1, 0, 0);
    SeenStep(events, 3, active, 1, 0, 1);
    SeenStep(events, 4, active, 1, 0, 2);
    assert events[..5] == events;
    assert !(Resolved(events[..5], 1) <= Delivered(events[..5], 1));
  }

  /** The five decisions of that run. */
  lemma SurplusSteps<C, E, L>(command: C, endpoint: E, lease: L)
    ensures
      var e := ResolvedTwice<C, E, L>(command, endpoint, lease);
      var claimed := EntitySlot<C, E, L>.Activating(1, [Waiter(1, command)], 1);
      var active := EntitySlot<C, E, L>.Active(1, endpoint, lease, Drained);
      && Reduce(EntitySlot<C, E, L>.Inactive, e[0]).state == claimed
      && StepDelivers(EntitySlot<C, E, L>.Inactive, e[0], 1) == StepFences(EntitySlot<C, E, L>.Inactive, e[0], 1) == 0
      && Reduce(claimed, e[1]).state == active.(reservations := Pending(1))
      && StepDelivers(claimed, e[1], 1) == 1 && StepFences(claimed, e[1], 1) == 0
      && Reduce(active.(reservations := Pending(1)), e[2]).state == active
      && StepDelivers(active.(reservations := Pending(1)), e[2], 1) == 0 && StepFences(active.(reservations := Pending(1)), e[2], 1) == 0
      && Reduce(active, e[3]).state == active && StepDelivers(active, e[3], 1) == StepFences(active, e[3], 1) == 0
      && Reduce(active, e[4]).state.Draining? && StepDelivers(active, e[4], 1) == 0 && StepFences(active, e[4], 1) == 1
  {
    var e := ResolvedTwice<C, E, L>(command, endpoint, lease);
    var claimed := EntitySlot<C, E, L>.Activating(1, [Waiter(1, command)], 1);
    var active := EntitySlot<C, E, L>.Active(1, endpoint, lease, Drained);
    ShortEffects(Reduce(EntitySlot<C, E, L>.Inactive, e[0]).effects, 1);
    ShortEffects(Reduce(claimed, e[1]).effects, 1);
    ShortEffects(Reduce(active.(reservations := Pending(1)), e[2]).effects, 1);
    ShortEffects(Reduce(active, e[3]).effects, 1);
    ShortEffects(Reduce(active, e[4]).effects, 1);
    hide Tally;
  }

  predicate RetiresGracefully<C, E, L>(effects: seq<SlotEffect<C, E, L>>, g: Identity) {
    exists i :: 0 <= i < |effects| && effects[i].Retire? && effects[i].activationId == g && effects[i].retirement.Graceful?
  }

  lemma GracefulStep<C, E, L>(state: EntitySlot<C, E, L>, event: SlotEvent<C, E, L>, g: Identity)
    requires RetiresGracefully(Reduce(state, event).effects, g)
    ensures event == SlotEvent.FenceAcknowledged(g) && state.Is(g) && AwaitsFence(state)
  {}

  /** Graceful retirement answers an acknowledgement of the one fence requested, and every
      delivery had resolved by then. */
  lemma GracefulFollowsFence<C, E, L>(events: seq<SlotEvent<C, E, L>>, event: SlotEvent<C, E, L>, g: Identity)
    requires ClaimedOnce(events, g)
    requires RetiresGracefully(Reduce(Run(events).state, event).effects, g)
    ensures event == SlotEvent.FenceAcknowledged(g) && Fenced(events, g) == 1
    ensures Delivered(events, g) <= Resolved(events, g)
    ensures ResolvedInTime(events, g) <==> Delivered(events, g) == Resolved(events, g)
  {
    GracefulStep(Run(events).state, event, g);
    hide Reduce;
    EveryRunAccounts(events, g);
  }
}
