/** What holds in every reachable runtime state: tokens match slots and no fact is stale. */
module RuntimeFacts {
  import opened Common
  import opened Lifecycle
  import opened Evidence
  import opened Ledger
  import opened Runtime
  import opened RuntimeLedger
  import D = Directory

  predicate ValidRun<I(==), C, E, L>(r: Runtime<I, C, E, L>, run: seq<Action<I, C, E, L>>)
    decreases |run|
  {
    run == [] || (Enabled(r, run[0]) && ValidRun(Apply(r, run[0]), run[1..]))
  }

  function After<I(==), C, E, L>(r: Runtime<I, C, E, L>, run: seq<Action<I, C, E, L>>): Runtime<I, C, E, L>
    requires ValidRun(r, run)
    decreases |run|
  {
    if run == [] then r else After(Apply(r, run[0]), run[1..])
  }

  lemma StartInv<I, C(!new), E, L(!new)>(waiterLimit: Positive)
    ensures Inv(Start<I, C, E, L>(waiterLimit))
  {
    D.StartInv<I, PendingCommand<C>, E, L>(waiterLimit);
  }

  lemma {:induction false} RunKeepsInv<I, C(!new), E, L(!new)>(r: Runtime<I, C, E, L>, run: seq<Action<I, C, E, L>>)
    requires Inv(r) && ValidRun(r, run)
    ensures Inv(After(r, run))
    decreases |run|
  {
    hide Inv, Enabled, Apply;
    if run != [] {
      ActionKeepsInv(r, run[0]);
      RunKeepsInv(Apply(r, run[0]), run[1..]);
    }
  }

  ghost predicate Reachable<I, C, E, L>(r: Runtime<I, C, E, L>, waiterLimit: Positive, run: seq<Action<I, C, E, L>>) {
    ValidRun(Start(waiterLimit), run) && After(Start(waiterLimit), run) == r
  }

  // ----- tokens match slots -----

  lemma OthersDemandNothing<I, C, E, L>(r: Runtime<I, C, E, L>, k: nat, x: Item<PendingCommand<C>, L>)
    requires D.Inv(r.dir) && x.Token?
    requires k == x.activationId - 1
    ensures Demanded(r, x) == if k < |r.dir.slots| then SlotDemand(r.dir.slots[k], x) else 0
  {
    hide D.Balanced, D.OpOk;
    forall i | 0 <= i < |r.dir.slots| && i != k
      ensures SlotDemand(r.dir.slots[i], x) == 0
    {
      assert D.SlotOk(r.dir, i);
    }
    if k < |r.dir.slots| {
      TallyOnly(r.dir.slots, k, (SlotDemand<I, C, E, L>), x);
    } else {
      TallyZero(r.dir.slots, (SlotDemand<I, C, E, L>), x);
    }
  }

  /** How many tokens of one kind a slot waits for: one activation while Activating, one
      delivery per reservation, one fence or retirement, one Remove while inactive and mapped,
      and nothing once removed. */
  ghost function Awaited<I, C, E, L>(slot: D.Slot<I, C, E, L>, kind: Kind): nat {
    if slot.removed then 0
    else
      match slot.State()
      case Inactive => if kind == Removal then 1 else 0
      case Activating(_, _, _) => if kind == Activation then 1 else 0
      case Active(_, _, _, n) => if kind == Delivery then n.Value() else 0
      case Draining(_, _, _, AwaitingReservations(n)) => if kind == Delivery then n else 0
      case Draining(_, _, _, AwaitingFence) => if kind == Fence then 1 else 0
      case Retiring(_) => if kind == Kind.Retirement then 1 else 0
  }

  lemma AwaitedIsDemanded<I, C, E, L>(slot: D.Slot<I, PendingCommand<C>, E, L>, kind: Kind)
    ensures SlotDemand(slot, Token(kind, slot.activationId)) == Awaited(slot, kind)
  {}

  lemma TokensAreAwaited<I, C(!new), E, L(!new)>(r: Runtime<I, C, E, L>, kind: Kind, g: Identity)
    requires Inv(r)
    ensures Carried(r, Token(kind, g)) == if g <= |r.dir.slots| then Awaited(r.dir.slots[g - 1], kind) else 0
  {
    hide Carried, Demanded, Awaited, SlotDemand, D.Inv, AllRouted;
    var x := Item<PendingCommand<C>, L>.Token(kind, g);
    assert Balanced(r, x);
    TokensAreNotGranted(r, x);
    OthersDemandNothing(r, g - 1, x);
    if g - 1 < |r.dir.slots| {
      SlotActivation(r, g - 1);
      AwaitedIsDemanded(r.dir.slots[g - 1], kind);
    }
  }

  /** In every reachable state the outstanding tokens of an activation are exactly what its slot
      waits for, and there are none for activations never claimed. */
  lemma TokensMatchSlots<I, C(!new), E, L(!new)>(
      r: Runtime<I, C, E, L>, waiterLimit: Positive, run: seq<Action<I, C, E, L>>, kind: Kind, g: Identity)
    requires Reachable(r, waiterLimit, run)
    ensures Carried(r, Token(kind, g)) == if g <= |r.dir.slots| then Awaited(r.dir.slots[g - 1], kind) else 0
  {
    hide Inv, Carried, Awaited, ValidRun, After;
    StartInv<I, C, E, L>(waiterLimit);
    RunKeepsInv(Start(waiterLimit), run);
    TokensAreAwaited(r, kind, g);
  }

  lemma SlotActivation<I, C, E, L>(r: Runtime<I, C, E, L>, k: nat)
    requires D.Inv(r.dir) && k < |r.dir.slots|
    ensures r.dir.slots[k].activationId == k + 1
    ensures r.dir.slots[k].State().Inactive? || r.dir.slots[k].State().activationId == k + 1
  {
    hide D.Balanced, D.OpOk;
    assert D.SlotOk(r.dir, k);
  }

  // ----- no reported fact is ever stale -----

  /** The state a report of an activation is for: activations commit or fail, deliveries release
      a reservation that exists, fence answers meet a slot without reservations, terminations
      meet their retirement. */
  ghost predicate Meets<C, E, L>(state: EntitySlot<C, E, L>, event: SlotEvent<C, E, L>)
    requires Reports(event)
  {
    && !state.Inactive? && state.activationId == event.activationId && Handles(state, event)
    && match event
       case ActivationSucceeded(_, _, _) => state.Activating?
       case ActivationFailed(_) => state.Activating?
       case DeliveryResolved(_, _) =>
         (state.Active? && state.reservations.Value() > 0) || (state.Draining? && state.progress.AwaitingReservations?)
       case FenceAcknowledged(_) => state.Draining? && state.progress.AwaitingFence?
       case ForceDrain(_, _) => state.Draining? && state.progress.AwaitingFence?
       case _ => state.Retiring?
  }

  lemma ExpectedMeets<C, E, L>(state: EntitySlot<C, E, L>, g: Identity, event: SlotEvent<C, E, L>)
    requires Reports(event) && event.activationId == g && Expected(state, g, event)
    requires state.Inactive? || state.activationId == g
    ensures Meets(state, event)
  {}

  /** A task's report is never stale: when submitted it meets its own activation in the state
      that awaits it, at the slot its entity maps to; and the reservation count a forced drain
      reports is the true one. */
  lemma FactsAreNeverStale<I, C(!new), E, L(!new)>(
      r: Runtime<I, C, E, L>, waiterLimit: Positive, run: seq<Action<I, C, E, L>>, j: nat)
    requires Reachable(r, waiterLimit, run)
    requires j < |r.dir.ops| && r.dir.ops[j].Holding? && Reports(r.dir.ops[j].event)
    ensures
      var op := r.dir.ops[j];
      && op.slot < |r.dir.slots| && Meets(r.dir.slots[op.slot].State(), op.event)
      && op.entity in r.dir.entries && r.dir.entries[op.entity] == op.slot
      && (op.event.ForceDrain? ==>
           op.event.drainFailure.outstandingReservations == 0 == Carried(r, Token(Delivery, op.event.activationId)))
  {
    StartInv<I, C, E, L>(waiterLimit);
    RunKeepsInv(Start(waiterLimit), run);
    var op := r.dir.ops[j];
    hide ValidRun, After, Carried, Expected, Meets;
    FactIsExpected(r, j);
    HoldingFacts(r, j);
    hide Inv;
    ExpectedMeets(r.dir.slots[op.slot].State(), op.slot + 1, op.event);
    if op.event.ForceDrain? {
      TokensMatchSlots(r, waiterLimit, run, Delivery, op.event.activationId);
      FencedAwaitsNoDelivery(r.dir.slots[op.slot], op.event);
    }
  }

  lemma FencedAwaitsNoDelivery<I, C, E, L>(slot: D.Slot<I, C, E, L>, event: SlotEvent<C, E, L>)
    requires event.ForceDrain? && Meets(slot.State(), event)
    ensures Awaited(slot, Delivery) == 0
  {}

  lemma HoldingFacts<I, C(!new), E, L(!new)>(r: Runtime<I, C, E, L>, j: nat)
    requires Inv(r) && j < |r.dir.ops| && r.dir.ops[j].Holding? && Reports(r.dir.ops[j].event)
    ensures
      var op := r.dir.ops[j];
      op.slot < |r.dir.slots| && op.event.activationId == op.slot + 1
      && r.dir.slots[op.slot].entity == op.entity && D.SlotOk(r.dir, op.slot) && HonestReport(op.event)
  {
    hide Balanced, D.Balanced;
    assert D.OpOk(r.dir, r.dir.ops[j]) && OpRouted(r.dir, r.dir.ops[j]);
  }

  /** No operation ever has effects without a slot: the path for absent entities requests nothing. */
  lemma TransientIsEmpty<I, C(!new), E, L(!new)>(
      r: Runtime<I, C, E, L>, waiterLimit: Positive, run: seq<Action<I, C, E, L>>, j: nat)
    requires Reachable(r, waiterLimit, run)
    requires j < |r.dir.ops| && r.dir.ops[j].Transient?
    ensures r.dir.ops[j].effects == []
  {
    StartInv<I, C, E, L>(waiterLimit);
    RunKeepsInv(Start(waiterLimit), run);
    assert OpRouted(r.dir, r.dir.ops[j]);
  }
}
