/** What every run of one slot guarantees, for arbitrary lists of facts: conservation of
    leases and commands, erasure of stale facts, bounded waiter admission, drain safety. */
module SlotRuns {
  import opened Common
  import opened Lifecycle
  import opened Evidence
  import opened Ledger

  /** The effects of the `n`th event of a run. */
  function EffectsAt<C, E, L>(state: EntitySlot<C, E, L>, events: seq<SlotEvent<C, E, L>>, n: nat): seq<SlotEffect<C, E, L>>
    requires n < |events|
  {
    Reduce(StateAt(state, events, n), events[n]).effects
  }

  // ----- conservation -----

  /** The items discarded by current cancellations during the run. */
  ghost function DiscardedAlong<C, E, L>(state: EntitySlot<C, E, L>, events: seq<SlotEvent<C, E, L>>, x: Item<C, L>): nat {
    if events == [] then 0
    else
      var n := |events| - 1;
      DiscardedAlong(state, events[..n], x) + Discarded(DecideAll(state, events[..n]).state, events[n], x)
  }

  /** Over any event list every command supplied is held, returned, delivered or discarded
      by its own cancellation, exactly once; and every lease is held or retired exactly once. */
  lemma {:induction false} RunConserves<C, E, L>(state: EntitySlot<C, E, L>, events: seq<SlotEvent<C, E, L>>, x: Item<C, L>)
    requires !x.Token?
    ensures
      var r := DecideAll(state, events);
      StateItem(state, x) + Tally(events, (EventItem<C, E, L>), x)
      == StateItem(r.state, x) + Effects(r.effects, x) + DiscardedAlong(state, events, x)
  {
    hide Reduce, StateItem, EventItem, Discarded;
    if events != [] {
      var n := |events| - 1;
      RunConserves(state, events[..n], x);
      var before := DecideAll(state, events[..n]);
      ReduceConserves(before.state, events[n], x);
      EffectsConcat(before.effects, Reduce(before.state, events[n]).effects, x);
    }
  }

  /** Affine leases: as many as activations supplied have been retired, except the at most
      one the final state still holds, whatever stale or duplicate activations arrived. */
  lemma LeasesAreAffine<C, E, L>(events: seq<SlotEvent<C, E, L>>, lease: L)
    ensures
      var r := DecideAll(EntitySlot<C, E, L>.Inactive, events);
      Tally(events, (EventItem<C, E, L>), Item<C, L>.Lease(lease))
      == Effects(r.effects, Lease(lease))
         + if (r.state.Active? || r.state.Draining?) && r.state.lease == lease then 1 else 0
  {
    hide Reduce;
    var x := Item<C, L>.Lease(lease);
    RunConserves(EntitySlot<C, E, L>.Inactive, events, x);
    NoLeaseDiscarded(EntitySlot<C, E, L>.Inactive, events, x);
    var r := DecideAll(EntitySlot<C, E, L>.Inactive, events);
    if r.state.Activating? {
      WaitersCarryNoToken<C, L>(r.state.waiters, x);
    }
  }

  lemma {:induction false} NoLeaseDiscarded<C, E, L>(state: EntitySlot<C, E, L>, events: seq<SlotEvent<C, E, L>>, x: Item<C, L>)
    requires x.Lease?
    ensures DiscardedAlong(state, events, x) == 0
  {
    hide Reduce;
    if events != [] {
      NoLeaseDiscarded(state, events[..|events| - 1], x);
    }
  }

  // ----- stale erasure -----

  /** The fact reports on an activation that is not the slot's current one. */
  predicate Stale<C, E, L>(state: EntitySlot<C, E, L>, event: SlotEvent<C, E, L>) {
    !event.Dispatch? && !event.ClaimActivation? && !state.Is(event.activationId)
  }

  /** What a stale fact still owes: its returned command, or the retirement of its lease. */
  function Cleanup<C, E, L>(event: SlotEvent<C, E, L>): seq<SlotEffect<C, E, L>> {
    match event
    case DeliveryResolved(_, Some(returned)) => [Reject(returned.dispatchId, returned.command, Unavailable)]
    case ActivationSucceeded(g, _, lease) => [Retire(g, lease, Forced(DrainFailure(DrainStage.Retirement, 0)))]
    case _ => []
  }

  lemma StaleOnlyCleansUp<C, E, L>(state: EntitySlot<C, E, L>, event: SlotEvent<C, E, L>)
    requires Stale(state, event)
    ensures Reduce(state, event) == Decision(state, Cleanup(event))
  {}

  /** The run without every fact that is stale when it arrives. */
  function Erase<C, E, L>(state: EntitySlot<C, E, L>, events: seq<SlotEvent<C, E, L>>): seq<SlotEvent<C, E, L>> {
    if events == [] then []
    else
      var n := |events| - 1;
      Erase(state, events[..n]) + if Stale(DecideAll(state, events[..n]).state, events[n]) then [] else [events[n]]
  }

  /** Erasing every stale fact leaves the final state unchanged. */
  lemma {:induction false} ErasureKeepsState<C, E, L>(state: EntitySlot<C, E, L>, events: seq<SlotEvent<C, E, L>>)
    ensures DecideAll(state, Erase(state, events)).state == DecideAll(state, events).state
  {
    hide Reduce, Stale;
    if events != [] {
      var n := |events| - 1;
      ErasureKeepsState(state, events[..n]);
      var kept := Erase(state, events[..n]);
      if Stale(DecideAll(state, events[..n]).state, events[n]) {
        StaleOnlyCleansUp(DecideAll(state, events[..n]).state, events[n]);
        assert kept + [] == kept;
      } else {
        assert (kept + [events[n]])[..|kept|] == kept;
      }
    }
  }

  lemma {:induction false} ErasePrefix<C, E, L>(state: EntitySlot<C, E, L>, events: seq<SlotEvent<C, E, L>>, n: nat)
    requires n <= |events|
    ensures Erase(state, events[..n]) <= Erase(state, events)
  {
    hide Reduce, Stale;
    if n < |events| {
      ErasePrefix(state, events[..|events| - 1], n);
      assert events[..|events| - 1][..n] == events[..n];
    } else {
      assert events[..n] == events;
    }
  }

  /** Each fact of a run either was stale and requested exactly its cleanup, or survives the
      erasure in its place, where it requests exactly the same effects. */
  lemma ErasureKeepsEffects<C, E, L>(state: EntitySlot<C, E, L>, events: seq<SlotEvent<C, E, L>>, n: nat)
    requires n < |events|
    ensures
      var kept := Erase(state, events);
      var k := |Erase(state, events[..n])|;
      if Stale(StateAt(state, events, n), events[n])
      then EffectsAt(state, events, n) == Cleanup(events[n])
      else k < |kept| && kept[k] == events[n] && EffectsAt(state, kept, k) == EffectsAt(state, events, n)
  {
    hide Reduce, Stale;
    var kept, before := Erase(state, events), Erase(state, events[..n]);
    if Stale(StateAt(state, events, n), events[n]) {
      StaleOnlyCleansUp(StateAt(state, events, n), events[n]);
    } else {
      assert events[..n + 1][..n] == events[..n];
      ErasePrefix(state, events, n + 1);
      assert Erase(state, events[..n + 1]) == before + [events[n]];
      assert kept[..|before|] == before;
      ErasureKeepsState(state, events[..n]);
    }
  }

  // ----- bounded waiter admission -----

  /** A command admitted as a waiter, and how many events preceded its admission. */
  datatype Arrival<C> = Arrival(waiter: Waiter<C>, time: nat)

  predicate AlwaysActivating<C, E, L>(state: EntitySlot<C, E, L>, events: seq<SlotEvent<C, E, L>>) {
    forall n :: 0 <= n <= |events| ==> StateAt(state, events, n).Activating?
  }

  /** The dispatches that were not refused, in arrival order, after the claiming one. */
  function Arrivals<C, E, L>(first: Waiter<C>, state: EntitySlot<C, E, L>, events: seq<SlotEvent<C, E, L>>): seq<Arrival<C>> {
    if events == [] then [Arrival(first, 0)]
    else
      var n := |events| - 1;
      Arrivals(first, state, events[..n]) +
      if events[n].Dispatch? && EffectsAt(state, events, n) == []
      then [Arrival(Waiter(events[n].dispatchId, events[n].command), n + 1)]
      else []
  }

  predicate Cancelled<C, E, L>(arrival: Arrival<C>, g: Identity, events: seq<SlotEvent<C, E, L>>) {
    exists m :: arrival.time <= m < |events| && events[m] == SlotEvent.CancelWaiter(g, arrival.waiter.dispatchId)
  }

  /** The waiters no later cancellation named. */
  function Survivors<C, E, L>(arrivals: seq<Arrival<C>>, g: Identity, events: seq<SlotEvent<C, E, L>>): seq<Waiter<C>> {
    if arrivals == [] then []
    else
      var n := |arrivals| - 1;
      Survivors(arrivals[..n], g, events) + if Cancelled(arrivals[n], g, events) then [] else [arrivals[n].waiter]
  }

  lemma CancelledAfter<C, E, L>(a: Arrival<C>, g: Identity, events: seq<SlotEvent<C, E, L>>, event: SlotEvent<C, E, L>)
    requires a.time <= |events|
    ensures Cancelled(a, g, events + [event])
       <==> Cancelled(a, g, events) || event == SlotEvent.CancelWaiter(g, a.waiter.dispatchId)
  {
    var longer := events + [event];
    assert longer[|events|] == event;
    if Cancelled(a, g, events) {
      var m :| a.time <= m < |events| && events[m] == SlotEvent.CancelWaiter(g, a.waiter.dispatchId);
      assert longer[m] == SlotEvent.CancelWaiter(g, a.waiter.dispatchId);
    }
  }

  lemma WithoutWaiterAppend<C>(waiters: seq<Waiter<C>>, w: Waiter<C>, d: Identity)
    ensures WithoutWaiter(waiters + [w], d) == WithoutWaiter(waiters, d) + if w.dispatchId == d then [] else [w]
  {
    assert (waiters + [w])[..|waiters|] == waiters;
  }

  lemma {:induction false} SurvivorsAfter<C, E, L>(arrivals: seq<Arrival<C>>, g: Identity, events: seq<SlotEvent<C, E, L>>, event: SlotEvent<C, E, L>)
    requires forall a <- arrivals :: a.time <= |events|
    ensures Survivors(arrivals, g, events + [event])
         == if event.CancelWaiter? && event.activationId == g
            then WithoutWaiter(Survivors(arrivals, g, events), event.dispatchId)
            else Survivors(arrivals, g, events)
  {
    if arrivals != [] {
      var n := |arrivals| - 1;
      SurvivorsAfter(arrivals[..n], g, events, event);
      CancelledAfter(arrivals[n], g, events, event);
      hide Cancelled, WithoutWaiter;
      var older, newer, w := Survivors(arrivals[..n], g, events), Survivors(arrivals[..n], g, events + [event]), arrivals[n].waiter;
      assert older + [] == older && newer + [] == newer;
      if event.CancelWaiter? {
        WithoutWaiterAppend(older, w, event.dispatchId);
      }
    }
  }

  lemma {:induction false} ArrivalTimes<C, E, L>(first: Waiter<C>, state: EntitySlot<C, E, L>, events: seq<SlotEvent<C, E, L>>)
    ensures forall a <- Arrivals(first, state, events) :: a.time <= |events|
  {
    hide Reduce;
    if events != [] {
      ArrivalTimes(first, state, events[..|events| - 1]);
    }
  }

  lemma ActivatingStep<C, E, L>(state: EntitySlot<C, E, L>, event: SlotEvent<C, E, L>)
    requires state.Activating?
    ensures
      var r := Reduce(state, event);
      r.state.Activating? ==>
        && r.state.activationId == state.activationId && r.state.waiterLimit == state.waiterLimit
        && r.state.waiters ==
           (if event.Dispatch? && r.effects == [] then state.waiters + [Waiter(event.dispatchId, event.command)]
            else if event.CancelWaiter? && event.activationId == state.activationId
            then WithoutWaiter(state.waiters, event.dispatchId)
            else state.waiters)
        && (event.Dispatch? ==> (r.effects == [] <==> |state.waiters| < state.waiterLimit))
  {}

  lemma {:induction false} WithoutWaiterShrinks<C>(waiters: seq<Waiter<C>>, d: Identity)
    ensures |WithoutWaiter(waiters, d)| <= |waiters|
  {
    if waiters != [] {
      WithoutWaiterShrinks(waiters[..|waiters| - 1], d);
    }
  }

  lemma ActivatingPrefix<C, E, L>(start: EntitySlot<C, E, L>, events: seq<SlotEvent<C, E, L>>)
    requires events != [] && AlwaysActivating(start, events)
    ensures AlwaysActivating(start, events[..|events| - 1]) && DecideAll(start, events).state.Activating?
  {
    hide Reduce;
    var older := events[..|events| - 1];
    forall m | 0 <= m <= |older|
      ensures StateAt(start, older, m).Activating?
    {
      assert older[..m] == events[..m] && StateAt(start, events, m).Activating?;
    }
    assert StateAt(start, events, |events|).Activating? && events[..|events|] == events;
  }

  /** One more event turns the survivors into the waiters the activating state then has. */
  lemma SurvivorsStep<C, E, L>(first: Waiter<C>, g: Identity, start: EntitySlot<C, E, L>, events: seq<SlotEvent<C, E, L>>)
    requires events != []
    ensures
      var n := |events| - 1;
      var before := Survivors(Arrivals(first, start, events[..n]), g, events[..n]);
      Survivors(Arrivals(first, start, events), g, events)
      == if events[n].Dispatch? && EffectsAt(start, events, n) == []
         then before + [Waiter(events[n].dispatchId, events[n].command)]
         else if events[n].CancelWaiter? && events[n].activationId == g
         then WithoutWaiter(before, events[n].dispatchId)
         else before
  {
    var n := |events| - 1;
    var older, event := events[..n], events[n];
    var arrivals := Arrivals(first, start, older);
    ArrivalTimes(first, start, older);
    SurvivorsAfter(arrivals, g, older, event);
    assert older + [event] == events;
    hide EffectsAt, WithoutWaiter;
    if event.Dispatch? && EffectsAt(start, events, n) == [] {
      var next := Arrival(Waiter(event.dispatchId, event.command), n + 1);
      assert !Cancelled(next, g, events);
      assert Arrivals(first, start, events)[..|arrivals|] == arrivals;
    } else {
      assert Arrivals(first, start, events) == arrivals;
    }
  }

  /** While an activation is in flight, the slot retains exactly the admitted dispatches that
      no later cancellation named, in arrival order, and never more than the limit. */
  lemma {:induction false} WaitersAreSurvivors<C, E, L>(
      g: Identity, first: Waiter<C>, limit: Positive, events: seq<SlotEvent<C, E, L>>)
    requires AlwaysActivating(EntitySlot<C, E, L>.Activating(g, [first], limit), events)
    ensures
      var start := EntitySlot<C, E, L>.Activating(g, [first], limit);
      var waiters := Survivors(Arrivals(first, start, events), g, events);
      DecideAll(start, events).state == EntitySlot.Activating(g, waiters, limit) && |waiters| <= limit
  {
    var start := EntitySlot<C, E, L>.Activating(g, [first], limit);
    if events == [] {
      assert !Cancelled(Arrival(first, 0), g, events);
    } else {
      hide Reduce, AlwaysActivating, Arrivals, Survivors, WithoutWaiter;
      var n := |events| - 1;
      ActivatingPrefix(start, events);
      WaitersAreSurvivors(g, first, limit, events[..n]);
      var before := DecideAll(start, events[..n]).state;
      ActivatingStep(before, events[n]);
      SurvivorsStep(first, g, start, events);
      if events[n].CancelWaiter? {
        WithoutWaiterShrinks(before.waiters, events[n].dispatchId);
      }
    }
  }

  lemma SettleWaiters<C, E, L>(g: Identity, waiters: seq<Waiter<C>>, limit: Positive, endpoint: E, lease: L)
    ensures Reduce(EntitySlot<C, E, L>.Activating(g, waiters, limit), SlotEvent.ActivationSucceeded(g, endpoint, lease))
         == Decision(EntitySlot.Active(g, endpoint, lease, ReservationCount.FromLen(|waiters|)), DeliverAll(waiters, g, endpoint))
    ensures Reduce(EntitySlot<C, E, L>.Activating(g, waiters, limit), SlotEvent.ActivationFailed(g))
         == Decision(EntitySlot.Inactive, RejectAll(waiters) + [Remove(g)])
  {}

  /** On commit the deliveries are exactly the surviving waiters in arrival order, each
      reserved; on failure each is refused with its own command before the slot is removed. */
  lemma ActivationSettlesEveryWaiter<C, E, L>(
      g: Identity, first: Waiter<C>, limit: Positive, events: seq<SlotEvent<C, E, L>>, endpoint: E, lease: L)
    requires AlwaysActivating(EntitySlot<C, E, L>.Activating(g, [first], limit), events)
    ensures
      var start := EntitySlot<C, E, L>.Activating(g, [first], limit);
      var waiters := Survivors(Arrivals(first, start, events), g, events);
      var commit := Reduce(DecideAll(start, events).state, SlotEvent.ActivationSucceeded(g, endpoint, lease));
      var failure := Reduce(DecideAll(start, events).state, SlotEvent.ActivationFailed(g));
      && commit.state.Active? && commit.state.reservations.Value() == |waiters| == |commit.effects|
      && (forall i :: 0 <= i < |waiters| ==>
           commit.effects[i] == Deliver(g, waiters[i].dispatchId, endpoint, waiters[i].command))
      && failure.state.Inactive? && |failure.effects| == |waiters| + 1
      && (forall i :: 0 <= i < |waiters| ==>
           failure.effects[i] == Reject(waiters[i].dispatchId, waiters[i].command, Unavailable))
      && failure.effects[|waiters|] == Remove(g)
  {
    hide Reduce, DecideAll, Arrivals, Survivors;
    WaitersAreSurvivors<C, E, L>(g, first, limit, events);
    var start := EntitySlot<C, E, L>.Activating(g, [first], limit);
    SettleWaiters<C, E, L>(g, Survivors(Arrivals(first, start, events), g, events), limit, endpoint, lease);
  }

  /** A dispatch is refused as busy exactly when the surviving waiters fill the limit. */
  lemma BusyExactlyWhenFull<C, E, L>(
      g: Identity, first: Waiter<C>, limit: Positive, events: seq<SlotEvent<C, E, L>>, d: Identity, command: C)
    requires AlwaysActivating(EntitySlot<C, E, L>.Activating(g, [first], limit), events)
    ensures
      var start := EntitySlot<C, E, L>.Activating(g, [first], limit);
      var waiters := Survivors(Arrivals(first, start, events), g, events);
      Reduce(DecideAll(start, events).state, SlotEvent.Dispatch(d, command)).effects
      == if |waiters| == limit then [Reject(d, command, Busy)] else []
  {
    WaitersAreSurvivors<C, E, L>(g, first, limit, events);
    hide DecideAll, Arrivals, Survivors;
  }
}
