/** The system ledger: in every reachable runtime state the outstanding tokens match what
    the slots wait for, and every command and lease is in exactly one place. */
module RuntimeLedger {
  import opened Common
  import opened Lifecycle
  import opened Evidence
  import opened Ledger
  import opened Runtime
  import D = Directory

  // ----- what every part of the system carries -----

  ghost function OpItem<I, C, E, L>(op: D.Op<I, PendingCommand<C>, E, L>, x: Item<PendingCommand<C>, L>): nat {
    match op
    case DispatchLookup(_, d, pending) => Indicator(x, Command(d, pending))
    case Lookup(_, event) => EventItem(event, x)
    case Holding(_, _, event) => EventItem(event, x)
    case Interpret(_, _) => 0
    case Owning(_, _, effects) => Effects(effects, x)
    case Transient(_, effects) => Effects(effects, x)
    case Done => 0
  }

  ghost function TaskItem<I, C, E, L>(task: Task<I, C, E, L>, x: Item<PendingCommand<C>, L>): nat {
    match task
    case Activate(_, g) => Indicator(x, Token(Activation, g))
    case DeliverOne(_, g, d, _, pending) => Indicator(x, Token(Delivery, g)) + Indicator(x, Command(d, pending))
    case AwaitFence(_, g, _) => Indicator(x, Token(Fence, g))
    case AwaitTermination(_, g, lease, _) => Indicator(x, Token(Kind.Retirement, g)) + Indicator(x, Lease(lease))
    case Finished => 0
  }

  ghost function OutputItem<C, E, L>(output: LifecycleOutput<PendingCommand<C>, E, L>, x: Item<PendingCommand<C>, L>): nat {
    Effects(output.effects, x)
  }

  ghost function QueueItem<C, E, L>(outputs: seq<LifecycleOutput<PendingCommand<C>, E, L>>, x: Item<PendingCommand<C>, L>): nat {
    Tally(outputs, (OutputItem<C, E, L>), x)
  }

  ghost function SlotItem<I, C, E, L>(slot: D.Slot<I, PendingCommand<C>, E, L>, x: Item<PendingCommand<C>, L>): nat {
    StateItem(slot.State(), x) + QueueItem(slot.executor.outputs, x)
  }

  /** What a slot waits for; a removed slot waits for nothing. */
  ghost function SlotDemand<I, C, E, L>(slot: D.Slot<I, PendingCommand<C>, E, L>, x: Item<PendingCommand<C>, L>): nat {
    if slot.removed then 0 else Demand(slot.State(), slot.activationId, x)
  }

  ghost function FateItem<C, L>(fate: Fate<C, L>, x: Item<PendingCommand<C>, L>): nat {
    match fate
    case LeaseRetired(lease) => Indicator(x, Lease(lease))
    case CommandDelivered(d, pending) => Indicator(x, Command(d, pending))
    case CommandRefused(d, pending, _) => Indicator(x, Command(d, pending))
    case CommandDiscarded(d, pending) => Indicator(x, Command(d, pending))
    case CommandReturned(d, pending) => Indicator(x, Command(d, pending))
  }

  ghost function GrantItem<C, L>(grant: Grant<C, L>, x: Item<PendingCommand<C>, L>): nat {
    match grant
    case CommandIssued(d, pending) => Indicator(x, Command(d, pending))
    case LeaseGranted(lease) => Indicator(x, Lease(lease))
  }

  ghost function InOps<I, C, E, L>(r: Runtime<I, C, E, L>, x: Item<PendingCommand<C>, L>): nat {
    Tally(r.dir.ops, (OpItem<I, C, E, L>), x)
  }

  ghost function InTasks<I, C, E, L>(r: Runtime<I, C, E, L>, x: Item<PendingCommand<C>, L>): nat {
    Tally(r.tasks, (TaskItem<I, C, E, L>), x)
  }

  ghost function InSlots<I, C, E, L>(r: Runtime<I, C, E, L>, x: Item<PendingCommand<C>, L>): nat {
    Tally(r.dir.slots, (SlotItem<I, C, E, L>), x)
  }

  /** How often `x` is outstanding: in operations, tasks, queued effects and slot states. */
  ghost function Carried<I, C, E, L>(r: Runtime<I, C, E, L>, x: Item<PendingCommand<C>, L>): nat {
    InOps(r, x) + InTasks(r, x) + InSlots(r, x)
  }

  ghost function Demanded<I, C, E, L>(r: Runtime<I, C, E, L>, x: Item<PendingCommand<C>, L>): nat {
    Tally(r.dir.slots, (SlotDemand<I, C, E, L>), x)
  }

  ghost function Settled<I, C, E, L>(r: Runtime<I, C, E, L>, x: Item<PendingCommand<C>, L>): nat {
    Tally(r.settled, (FateItem<C, L>), x)
  }

  ghost function Granted<I, C, E, L>(r: Runtime<I, C, E, L>, x: Item<PendingCommand<C>, L>): nat {
    Tally(r.granted, (GrantItem<C, L>), x)
  }

  ghost predicate Balanced<I, C, E, L>(r: Runtime<I, C, E, L>, x: Item<PendingCommand<C>, L>) {
    Carried(r, x) + Settled(r, x) == Demanded(r, x) + Granted(r, x)
  }

  // ----- tokens stay with the slot they are for -----

  ghost predicate Routed<I, C, E, L>(dir: D.Directory<I, PendingCommand<C>, E, L>, entity: I, g: Identity) {
    g <= |dir.slots| && dir.slots[g - 1].entity == entity
  }

  predicate Reports<C, E, L>(event: SlotEvent<C, E, L>) {
    !event.ClaimActivation? && !event.Dispatch? && !event.CancelWaiter? && !event.BeginDrain?
  }

  /** A forced drain claims that no reservation was outstanding. */
  predicate HonestReport<C, E, L>(event: SlotEvent<C, E, L>) {
    event.ForceDrain? ==> event.drainFailure.outstandingReservations == 0
  }

  predicate EffectFor<C, E, L>(effect: SlotEffect<C, E, L>, g: Identity) {
    !effect.Reject? ==> effect.activationId == g
  }

  ghost predicate EffectsFor<C, E, L>(effects: seq<SlotEffect<C, E, L>>, g: Identity) {
    forall e <- effects :: EffectFor(e, g)
  }

  ghost predicate OpRouted<I, C, E, L>(dir: D.Directory<I, PendingCommand<C>, E, L>, op: D.Op<I, PendingCommand<C>, E, L>) {
    match op
    case Lookup(entity, event) => HonestReport(event) && (Reports(event) ==> Routed(dir, entity, event.activationId))
    case Holding(_, k, event) => HonestReport(event) && (Reports(event) ==> event.activationId == k + 1)
    case Owning(_, k, effects) => k + 1 <= MAX_U64 && EffectsFor(effects, k + 1)
    case Transient(_, effects) => effects == []
    case _ => true
  }

  ghost predicate TaskRouted<I, C, E, L>(dir: D.Directory<I, PendingCommand<C>, E, L>, task: Task<I, C, E, L>) {
    !task.Finished? ==> Routed(dir, task.entity, task.activationId)
  }

  ghost predicate SlotRouted<I, C, E, L>(slot: D.Slot<I, PendingCommand<C>, E, L>) {
    forall o <- slot.executor.outputs :: EffectsFor(o.effects, slot.activationId)
  }

  ghost predicate AllRouted<I, C, E, L>(r: Runtime<I, C, E, L>) {
    && (forall j :: 0 <= j < |r.dir.ops| ==> OpRouted(r.dir, r.dir.ops[j]))
    && (forall i :: 0 <= i < |r.tasks| ==> TaskRouted(r.dir, r.tasks[i]))
    && (forall k :: 0 <= k < |r.dir.slots| ==> SlotRouted(r.dir.slots[k]))
  }

  ghost predicate Inv<I, C(!new), E, L(!new)>(r: Runtime<I, C, E, L>) {
    && D.Inv(r.dir)
    && AllRouted(r)
    && forall x: Item<PendingCommand<C>, L> :: Balanced(r, x)
  }

  // ----- a token that is outstanding is one its slot waits for -----

  lemma TokensAreNotGranted<I, C, E, L>(r: Runtime<I, C, E, L>, x: Item<PendingCommand<C>, L>)
    requires x.Token?
    ensures Granted(r, x) == 0 && Settled(r, x) == 0
  {
    TallyZero(r.granted, (GrantItem<C, L>), x);
    TallyZero(r.settled, (FateItem<C, L>), x);
  }

  lemma TokenIsDemanded<I, C(!new), E, L(!new)>(r: Runtime<I, C, E, L>, x: Item<PendingCommand<C>, L>)
    requires Inv(r) && x.Token? && Carried(r, x) > 0
    ensures
      var k := x.activationId - 1;
      k < |r.dir.slots| && !r.dir.slots[k].removed && Demand(r.dir.slots[k].State(), k + 1, x) > 0
  {
    hide Tally, Carried, D.Balanced, D.OpOk;
    assert Balanced(r, x);
    TokensAreNotGranted(r, x);
    var k := TallyFind(r.dir.slots, (SlotDemand<I, C, E, L>), x);
    assert D.SlotOk(r.dir, k);
  }

  lemma OpCarries<I, C, E, L>(r: Runtime<I, C, E, L>, j: nat, x: Item<PendingCommand<C>, L>)
    requires j < |r.dir.ops|
    ensures OpItem(r.dir.ops[j], x) <= Carried(r, x)
  {
    TallyHas(r.dir.ops, j, (OpItem<I, C, E, L>), x);
  }

  ghost function TokenOf<C, E, L>(event: SlotEvent<C, E, L>): Item<C, L>
    requires Reports(event)
  {
    var token: Option<Item<C, L>> := EventToken(event);
    token.value
  }

  /** A reported fact is never stale: when it is submitted, its slot is the one it is about,
      still in the map, and waiting for exactly this kind of report. */
  lemma FactIsExpected<I, C(!new), E, L(!new)>(r: Runtime<I, C, E, L>, j: nat)
    requires Inv(r) && j < |r.dir.ops| && r.dir.ops[j].Holding?
    ensures
      var op := r.dir.ops[j];
      && op.slot < |r.dir.slots|
      && var slot := r.dir.slots[op.slot];
         && slot.activationId == op.slot + 1
         && Expected(slot.State(), slot.activationId, op.event)
         && (Reports(op.event) ==> !slot.removed)
  {
    hide Tally, Carried, Demand, D.Balanced;
    var op := r.dir.ops[j];
    assert D.OpOk(r.dir, op) && OpRouted(r.dir, op) && D.SlotOk(r.dir, op.slot);
    if Reports(op.event) {
      var x := TokenOf(op.event);
      OpCarries(r, j, x);
      TokenIsDemanded(r, x);
    }
  }

  /** Looking up the slot of a reported fact always finds that very slot. */
  lemma FactFindsItsSlot<I, C(!new), E, L(!new)>(r: Runtime<I, C, E, L>, j: nat)
    requires Inv(r) && j < |r.dir.ops| && r.dir.ops[j].Lookup? && Reports(r.dir.ops[j].event)
    ensures
      var op := r.dir.ops[j];
      op.entity in r.dir.entries && r.dir.entries[op.entity] == op.event.activationId - 1
  {
    hide Tally, Carried, Demand, D.Balanced;
    var op := r.dir.ops[j];
    assert D.OpOk(r.dir, op) && OpRouted(r.dir, op);
    var x := TokenOf(op.event);
    OpCarries(r, j, x);
    TokenIsDemanded(r, x);
    assert D.SlotOk(r.dir, op.event.activationId - 1);
  }

  // ----- the ledger balances after every step -----

  lemma SubmitShape<I, C, E, L>(slot: D.Slot<I, PendingCommand<C>, E, L>, event: SlotEvent<PendingCommand<C>, E, L>)
    ensures
      var t, decision := D.SubmitTo(slot, event), Reduce(slot.State(), event);
      && t.State() == decision.state && t.activationId == slot.activationId && t.removed == slot.removed && t.entity == slot.entity
      && |t.executor.outputs| == |slot.executor.outputs| + 1
      && t.executor.outputs[..|slot.executor.outputs|] == slot.executor.outputs
      && t.executor.outputs[|slot.executor.outputs|].effects == decision.effects
  {
    hide Reduce;
  }

  /** A submission adds the decision's state and effects to what the slot carries. */
  lemma SubmitItems<I, C, E, L>(slot: D.Slot<I, PendingCommand<C>, E, L>, event: SlotEvent<PendingCommand<C>, E, L>, x: Item<PendingCommand<C>, L>)
    ensures
      var decision := Reduce(slot.State(), event);
      SlotItem(D.SubmitTo(slot, event), x)
      == StateItem(decision.state, x) + QueueItem(slot.executor.outputs, x) + Effects(decision.effects, x)
  {
    hide Reduce, StateItem, Transition;
    SubmitShape(slot, event);
    var outputs := slot.executor.outputs;
    var t := D.SubmitTo(slot, event).executor.outputs;
    TallyAppend(outputs, t[|outputs|], (OutputItem<C, E, L>), x);
    assert outputs + [t[|outputs|]] == t;
  }

  lemma {:induction false} DiscardedItems<C, E, L>(waiters: seq<Waiter<PendingCommand<C>>>, d: Identity, x: Item<PendingCommand<C>, L>)
    ensures Tally(DiscardedBy<C, L>(waiters, d), (FateItem<C, L>), x)
         == if x.Command? && x.dispatchId == d then Tally(waiters, (WaiterItem<PendingCommand<C>, L>), x) else 0
  {
    if waiters != [] {
      var n := |waiters| - 1;
      DiscardedItems<C, E, L>(waiters[..n], d, x);
      var rest := DiscardedBy<C, L>(waiters[..n], d);
      if waiters[n].dispatchId == d {
        TallyAppend(rest, CommandDiscarded(d, waiters[n].command), (FateItem<C, L>), x);
      } else {
        assert DiscardedBy<C, L>(waiters, d) == rest;
      }
    }
  }

  /** The laws of one reduction, read for a slot that may have been removed. */
  lemma SubmitLaw<I, C, E, L>(slot: D.Slot<I, PendingCommand<C>, E, L>, event: SlotEvent<PendingCommand<C>, E, L>, x: Item<PendingCommand<C>, L>)
    requires slot.removed ==> slot.State().Inactive?
    requires Expected(slot.State(), slot.activationId, event) && (Reports(event) ==> !slot.removed)
    ensures
      var t := D.SubmitTo(slot, event);
      SlotDemand(slot, x) + SlotItem(t, x) + Discarded(slot.State(), event, x)
      == SlotDemand(t, x) + SlotItem(slot, x) + EventItem(event, x)
  {
    SubmitItems(slot, event, x);
    SubmitShape(slot, event);
    if x.Token? {
      ReduceBalances(slot.State(), slot.activationId, event, x);
      InactiveStays<PendingCommand<C>, E, L>(slot.State(), event);
      hide Reduce, Expected, Effects, Tally, Transition;
      StatesCarryNoToken<PendingCommand<C>, E, L>(slot.State(), x);
      StatesCarryNoToken<PendingCommand<C>, E, L>(Reduce(slot.State(), event).state, x);
    } else {
      ReduceConserves(slot.State(), event, x);
      hide Reduce, Expected, Effects, Tally, Transition, StateItem;
    }
  }

  lemma InactiveStays<C, E, L>(state: EntitySlot<C, E, L>, event: SlotEvent<C, E, L>)
    ensures state.Inactive? && !event.ClaimActivation? ==> Reduce(state, event).state.Inactive?
  {}

  lemma StatesCarryNoToken<C, E, L>(state: EntitySlot<C, E, L>, x: Item<C, L>)
    requires x.Token?
    ensures StateItem(state, x) == 0
  {
    if state.Activating? {
      WaitersCarryNoToken<C, L>(state.waiters, x);
    }
  }

  /** Replacing one operation, with tasks and slots as they were. */
  lemma OpReplaced<I, C, E, L>(r: Runtime<I, C, E, L>, t: Runtime<I, C, E, L>, j: nat, x: Item<PendingCommand<C>, L>)
    requires j < |r.dir.ops| == |t.dir.ops| && t.dir.ops == r.dir.ops[j := t.dir.ops[j]]
    ensures InOps(t, x) + OpItem(r.dir.ops[j], x) == InOps(r, x) + OpItem(t.dir.ops[j], x)
  {
    TallyUpdate(r.dir.ops, j, t.dir.ops[j], (OpItem<I, C, E, L>), x);
  }

  lemma SlotReplaced<I, C, E, L>(r: Runtime<I, C, E, L>, t: Runtime<I, C, E, L>, k: nat, x: Item<PendingCommand<C>, L>)
    requires k < |r.dir.slots| == |t.dir.slots| && t.dir.slots == r.dir.slots[k := t.dir.slots[k]]
    ensures InSlots(t, x) + SlotItem(r.dir.slots[k], x) == InSlots(r, x) + SlotItem(t.dir.slots[k], x)
    ensures Demanded(t, x) + SlotDemand(r.dir.slots[k], x) == Demanded(r, x) + SlotDemand(t.dir.slots[k], x)
  {
    TallyUpdate(r.dir.slots, k, t.dir.slots[k], (SlotItem<I, C, E, L>), x);
    TallyUpdate(r.dir.slots, k, t.dir.slots[k], (SlotDemand<I, C, E, L>), x);
  }

  lemma SettledMore<I, C, E, L>(r: Runtime<I, C, E, L>, t: Runtime<I, C, E, L>, more: seq<Fate<C, L>>, x: Item<PendingCommand<C>, L>)
    requires t.settled == r.settled + more
    ensures Settled(t, x) == Settled(r, x) + Tally(more, (FateItem<C, L>), x)
    ensures more == [] ==> Settled(t, x) == Settled(r, x)
    ensures |more| == 1 ==> Settled(t, x) == Settled(r, x) + FateItem(more[0], x)
  {
    TallyConcat(r.settled, more, (FateItem<C, L>), x);
    if |more| == 1 {
      TallyAppend(r.settled, more[0], (FateItem<C, L>), x);
      assert more == [more[0]];
    }
  }

  lemma ClaimBalances<I, C(!new), E, L(!new)>(r: Runtime<I, C, E, L>, j: nat, x: Item<PendingCommand<C>, L>)
    requires Inv(r) && Enabled(r, DirectoryStep(j)) && r.dir.ops[j].DispatchLookup?
    requires r.dir.ops[j].entity !in r.dir.entries && r.dir.nextActivation < MAX_U64
    ensures Balanced(ApplyStep(r, j), x)
  {
    hide Tally, Transition, D.Inv, Effects;
    assert Balanced(r, x);
    var t, op, n := ApplyStep(r, j), r.dir.ops[j], |r.dir.slots|;
    OpReplaced(r, t, j, x);
    SettledMore(r, t, [], x);
    var g := r.dir.nextActivation;
    var slot := t.dir.slots[n];
    assert t.dir.slots == r.dir.slots + [slot];
    TallyAppend(r.dir.slots, slot, (SlotItem<I, C, E, L>), x);
    TallyAppend(r.dir.slots, slot, (SlotDemand<I, C, E, L>), x);
    NewSlotItems<I, C, E, L>(op.entity, g, op.dispatchId, op.command, r.dir.waiterLimit, x);
  }

  lemma NewSlotItems<I, C, E, L>(entity: I, g: Identity, d: Identity, pending: PendingCommand<C>, limit: Positive, x: Item<PendingCommand<C>, L>)
    ensures
      var slot := D.SubmitTo(D.NewSlot<I, PendingCommand<C>, E, L>(entity, g), SlotEvent.ClaimActivation(g, d, pending, limit));
      && slot.activationId == g && slot.entity == entity && !slot.removed
      && |slot.executor.outputs| == 1 && slot.executor.outputs[0].effects == [StartActivation(g)]
      && SlotItem(slot, x) == Indicator(x, Token(Activation, g)) + Indicator(x, Command(d, pending))
      && SlotDemand(slot, x) == Indicator(x, Token(Activation, g))
  {
    hide Transition, Tally;
    D.ClaimFacts<PendingCommand<C>, E, L>(g, d, pending, limit);
    var slot := D.SubmitTo(D.NewSlot<I, PendingCommand<C>, E, L>(entity, g), SlotEvent.ClaimActivation(g, d, pending, limit));
    var output := slot.executor.outputs[0];
    TallyAppend([], output, (OutputItem<C, E, L>), x);
    TallyZero<LifecycleOutput<PendingCommand<C>, E, L>, Item<PendingCommand<C>, L>>([], (OutputItem<C, E, L>), x);
    assert [] + [output] == slot.executor.outputs;
    OneEffect<PendingCommand<C>, E, L>(StartActivation(g), x);
    TallyAppend([], Waiter(d, pending), (WaiterItem<PendingCommand<C>, L>), x);
    TallyZero<Waiter<PendingCommand<C>>, Item<PendingCommand<C>, L>>([], (WaiterItem<PendingCommand<C>, L>), x);
    assert [] + [Waiter(d, pending)] == [Waiter(d, pending)];
  }

  /** A step that replaces one operation and settles what the replacement no longer carries. */
  lemma MoveBalances<I, C, E, L>(r: Runtime<I, C, E, L>, t: Runtime<I, C, E, L>, j: nat, more: seq<Fate<C, L>>, x: Item<PendingCommand<C>, L>)
    requires Balanced(r, x)
    requires j < |r.dir.ops| == |t.dir.ops| && t.dir.ops == r.dir.ops[j := t.dir.ops[j]]
    requires t.dir.slots == r.dir.slots && t.tasks == r.tasks && t.granted == r.granted
    requires t.settled == r.settled + more && |more| <= 1
    requires OpItem(t.dir.ops[j], x) + (if more == [] then 0 else FateItem(more[0], x)) == OpItem(r.dir.ops[j], x)
    ensures Balanced(t, x)
  {
    hide Tally, OpItem, FateItem;
    OpReplaced(r, t, j, x);
    SettledMore(r, t, more, x);
  }

  lemma DispatchMoveBalances<I, C, E, L>(r: Runtime<I, C, E, L>, j: nat, x: Item<PendingCommand<C>, L>)
    requires Balanced(r, x) && Enabled(r, DirectoryStep(j)) && r.dir.ops[j].DispatchLookup?
    requires r.dir.ops[j].entity in r.dir.entries || r.dir.nextActivation == MAX_U64
    ensures Balanced(ApplyStep(r, j), x)
  {
    hide Balanced, Effects;
    MoveBalances(r, ApplyStep(r, j), j, SettledBy(r.dir, j), x);
  }

  lemma DispatchStepBalances<I, C(!new), E, L(!new)>(r: Runtime<I, C, E, L>, j: nat, x: Item<PendingCommand<C>, L>)
    requires Inv(r) && Enabled(r, DirectoryStep(j)) && r.dir.ops[j].DispatchLookup?
    ensures Balanced(ApplyStep(r, j), x)
  {
    hide ApplyStep;
    if r.dir.ops[j].entity !in r.dir.entries && r.dir.nextActivation < MAX_U64 {
      ClaimBalances(r, j, x);
    } else {
      assert Balanced(r, x);
      DispatchMoveBalances(r, j, x);
    }
  }

  lemma LookupStepBalances<I, C(!new), E, L(!new)>(r: Runtime<I, C, E, L>, j: nat, x: Item<PendingCommand<C>, L>)
    requires Inv(r) && Enabled(r, DirectoryStep(j)) && r.dir.ops[j].Lookup?
    ensures Balanced(ApplyStep(r, j), x)
  {
    hide Transition;
    LookupNeverTransient(r, j);
    assert Balanced(r, x);
    hide Balanced, D.Inv, AllRouted;
    MoveBalances(r, ApplyStep(r, j), j, [], x);
  }

  /** A fact that finds no slot is one that requests nothing there. */
  lemma LookupNeverTransient<I, C(!new), E, L(!new)>(r: Runtime<I, C, E, L>, j: nat)
    requires Inv(r) && j < |r.dir.ops| && r.dir.ops[j].Lookup?
    ensures r.dir.ops[j].entity !in r.dir.entries ==>
      && !Reports(r.dir.ops[j].event)
      && Transition(EntitySlot<PendingCommand<C>, E, L>.Inactive, r.dir.ops[j].event).0.effects == []
  {
    var op := r.dir.ops[j];
    if op.entity !in r.dir.entries {
      hide Balanced, Transition;
      assert D.OpOk(r.dir, op);
      if Reports(op.event) {
        FactFindsItsSlot(r, j);
      }
      InactiveIgnores<PendingCommand<C>, E, L>(op.event);
    }
  }

  lemma InactiveIgnores<C, E, L>(event: SlotEvent<C, E, L>)
    requires event.CancelWaiter? || event.BeginDrain?
    ensures Transition(EntitySlot<C, E, L>.Inactive, event).0.effects == []
  {}

  lemma SubmitStepBalances<I, C(!new), E, L(!new)>(r: Runtime<I, C, E, L>, j: nat, x: Item<PendingCommand<C>, L>)
    requires Inv(r) && Enabled(r, DirectoryStep(j)) && r.dir.ops[j].Holding?
    ensures Balanced(ApplyStep(r, j), x)
  {
    hide Tally, Transition, D.Balanced, Effects, Reduce;
    assert Balanced(r, x);
    var t, op := ApplyStep(r, j), r.dir.ops[j];
    var k := op.slot;
    var slot := r.dir.slots[k];
    assert D.SlotOk(r.dir, k);
    FactIsExpected(r, j);
    OpReplaced(r, t, j, x);
    SlotReplaced(r, t, k, x);
    SettledMore(r, t, SettledBy(r.dir, j), x);
    SubmitLaw(slot, op.event, x);
    hide SlotItem, SlotDemand, Expected, D.SlotOk, D.Inv;
    if op.event.CancelWaiter? && slot.State().Activating? {
      DiscardedItems<C, E, L>(slot.State().waiters, op.event.dispatchId, x);
    }
  }

  lemma AcquireStepBalances<I, C(!new), E, L(!new)>(r: Runtime<I, C, E, L>, j: nat, x: Item<PendingCommand<C>, L>)
    requires Inv(r) && Enabled(r, DirectoryStep(j)) && r.dir.ops[j].Interpret?
    ensures Balanced(ApplyStep(r, j), x)
  {
    hide Tally, D.Inv;
    assert Balanced(r, x);
    hide Inv;
    var t, k := ApplyStep(r, j), r.dir.ops[j].slot;
    OpReplaced(r, t, j, x);
    SettledMore(r, t, [], x);
    if !t.dir.ops[j].Done? {
      TallyZero<SlotEffect<PendingCommand<C>, E, L>, Item<PendingCommand<C>, L>>([], (EffectItem<PendingCommand<C>, E, L>), x);
      SlotReplaced(r, t, k, x);
    }
  }

  lemma NextStepBalances<I, C(!new), E, L(!new)>(r: Runtime<I, C, E, L>, j: nat, x: Item<PendingCommand<C>, L>)
    requires Inv(r) && Enabled(r, DirectoryStep(j)) && r.dir.ops[j].Owning? && r.dir.ops[j].effects == []
    ensures Balanced(ApplyStep(r, j), x)
  {
    hide Tally, D.Inv;
    assert Balanced(r, x);
    hide Inv;
    var t, k := ApplyStep(r, j), r.dir.ops[j].slot;
    var outputs := r.dir.slots[k].executor.outputs;
    OpReplaced(r, t, j, x);
    SettledMore(r, t, [], x);
    SlotReplaced(r, t, k, x);
    TallyZero<SlotEffect<PendingCommand<C>, E, L>, Item<PendingCommand<C>, L>>([], (EffectItem<PendingCommand<C>, E, L>), x);
    if outputs != [] {
      TallyFirst(outputs, (OutputItem<C, E, L>), x);
    }
  }

  /** What an interpreted effect carried is now in a task or settled. */
  lemma InterpretItems<I, C, E, L>(r: Runtime<I, C, E, L>, entity: I, effect: SlotEffect<PendingCommand<C>, E, L>, x: Item<PendingCommand<C>, L>)
    requires !effect.Remove?
    ensures
      var t := Interpret(r, entity, effect);
      && t.dir == r.dir && t.granted == r.granted
      && InTasks(t, x) + Settled(t, x) == InTasks(r, x) + Settled(r, x) + EffectItem(effect, x)
  {
    hide Tally;
    var t := Interpret(r, entity, effect);
    if effect.Reject? {
      TallyAppend(r.settled, CommandRefused(effect.dispatchId, effect.command, effect.reason), (FateItem<C, L>), x);
    } else {
      assert t.tasks == r.tasks + [t.tasks[|r.tasks|]];
      TallyAppend(r.tasks, t.tasks[|r.tasks|], (TaskItem<I, C, E, L>), x);
    }
  }

  lemma RemoveStepBalances<I, C(!new), E, L(!new)>(r: Runtime<I, C, E, L>, j: nat, x: Item<PendingCommand<C>, L>)
    requires Inv(r) && Enabled(r, DirectoryStep(j)) && r.dir.ops[j].Owning? && r.dir.ops[j].effects != []
    requires r.dir.ops[j].effects[0].Remove?
    ensures Balanced(ApplyStep(r, j), x)
  {
    hide Tally, D.Balanced;
    assert Balanced(r, x);
    var t, op := ApplyStep(r, j), r.dir.ops[j];
    assert OpRouted(r.dir, op) && EffectFor(op.effects[0], op.slot + 1);
    D.RemoveFindsItsSlot(r.dir, j);
    assert D.SlotOk(r.dir, op.slot);
    TallyFirst(op.effects, (EffectItem<PendingCommand<C>, E, L>), x);
    hide Inv, D.SlotOk;
    OpReplaced(r, t, j, x);
    SlotReplaced(r, t, op.slot, x);
    SettledMore(r, t, [], x);
  }

  lemma EmitStepBalances<I, C, E, L>(r: Runtime<I, C, E, L>, j: nat, x: Item<PendingCommand<C>, L>)
    requires Balanced(r, x) && Enabled(r, DirectoryStep(j)) && r.dir.ops[j].Owning? && r.dir.ops[j].effects != []
    requires !r.dir.ops[j].effects[0].Remove?
    ensures Balanced(ApplyStep(r, j), x)
  {
    hide Tally, Interpret, EffectItem;
    var op := r.dir.ops[j];
    var stepped := r.(dir := D.Apply(r.dir, D.Step(j)), settled := r.settled + []);
    TallyFirst(op.effects, (EffectItem<PendingCommand<C>, E, L>), x);
    OpReplaced(r, stepped, j, x);
    SettledMore(r, stepped, [], x);
    InterpretItems(stepped, op.entity, op.effects[0], x);
  }

  lemma TransientStepBalances<I, C(!new), E, L(!new)>(r: Runtime<I, C, E, L>, j: nat, x: Item<PendingCommand<C>, L>)
    requires Inv(r) && Enabled(r, DirectoryStep(j)) && r.dir.ops[j].Transient?
    ensures Balanced(ApplyStep(r, j), x)
  {
    hide Tally, D.Inv;
    assert Balanced(r, x);
    hide Inv;
    var t := ApplyStep(r, j);
    assert OpRouted(r.dir, r.dir.ops[j]);
    OpReplaced(r, t, j, x);
    SettledMore(r, t, [], x);
    TallyZero<SlotEffect<PendingCommand<C>, E, L>, Item<PendingCommand<C>, L>>([], (EffectItem<PendingCommand<C>, E, L>), x);
  }

  lemma DirectoryStepBalances<I, C(!new), E, L(!new)>(r: Runtime<I, C, E, L>, j: nat, x: Item<PendingCommand<C>, L>)
    requires Inv(r) && Enabled(r, DirectoryStep(j))
    ensures Balanced(ApplyStep(r, j), x)
  {
    hide Balanced, ApplyStep, D.Inv, AllRouted;
    match r.dir.ops[j] {
      case DispatchLookup(_, _, _) => DispatchStepBalances(r, j, x);
      case Lookup(_, _) => LookupStepBalances(r, j, x);
      case Holding(_, _, _) => SubmitStepBalances(r, j, x);
      case Interpret(_, _) => AcquireStepBalances(r, j, x);
      case Owning(_, _, effects) =>
        if effects == [] {
          NextStepBalances(r, j, x);
        } else if effects[0].Remove? {
          RemoveStepBalances(r, j, x);
        } else {
          assert Balanced(r, x);
          EmitStepBalances(r, j, x);
        }
      case Transient(_, _) => TransientStepBalances(r, j, x);
    }
  }

  /** Submitting a fact puts what it carries into a new operation. */
  lemma SubmitFactItems<I, C, E, L>(r: Runtime<I, C, E, L>, entity: I, event: SlotEvent<PendingCommand<C>, E, L>, x: Item<PendingCommand<C>, L>)
    requires !event.ClaimActivation? && !event.Dispatch?
    ensures
      var t := Submit(r, entity, event);
      && t.tasks == r.tasks && t.granted == r.granted && t.settled == r.settled && t.dir.slots == r.dir.slots
      && InOps(t, x) == InOps(r, x) + EventItem(event, x)
  {
    hide Tally, EventItem;
    TallyAppend(r.dir.ops, D.Lookup(entity, event), (OpItem<I, C, E, L>), x);
  }

  /** A concluded task and the fact it submits carry what the task carried, up to what was
      settled or newly granted. */
  lemma ConcludeItems<I, C, E, L>(r: Runtime<I, C, E, L>, i: nat, answer: Answer<E, L>, x: Item<PendingCommand<C>, L>)
    requires Enabled(r, Finish(i, answer))
    ensures
      var t := Conclude(r, i, answer);
      && t.dir == r.dir
      && InTasks(t, x) + Settled(t, x) + EventItem(Fact(r.tasks[i], answer), x) + Granted(r, x)
         == InTasks(r, x) + Settled(r, x) + Granted(t, x)
  {
    hide Tally;
    var task := r.tasks[i];
    TallyUpdate(r.tasks, i, Finished, (TaskItem<I, C, E, L>), x);
    match answer {
      case Activated(_, lease) => TallyAppend(r.granted, LeaseGranted(lease), (GrantItem<C, L>), x);
      case DeliveryOk => TallyAppend(r.settled, CommandDelivered(task.dispatchId, task.pending), (FateItem<C, L>), x);
      case Retired => TallyAppend(r.settled, LeaseRetired(task.lease), (FateItem<C, L>), x);
      case _ =>
    }
  }

  lemma FinishBalances<I, C, E, L>(r: Runtime<I, C, E, L>, i: nat, answer: Answer<E, L>, x: Item<PendingCommand<C>, L>)
    requires Balanced(r, x) && Enabled(r, Finish(i, answer))
    ensures Balanced(ApplyFinish(r, i, answer), x)
  {
    hide Tally, EventItem, Conclude;
    ConcludeItems(r, i, answer, x);
    SubmitFactItems(Conclude(r, i, answer), r.tasks[i].entity, Fact(r.tasks[i], answer), x);
  }

  lemma DispatchBalances<I, C, E, L>(r: Runtime<I, C, E, L>, entity: I, command: C, x: Item<PendingCommand<C>, L>)
    requires Balanced(r, x) && Enabled(r, Action.Dispatch(entity, command))
    ensures Balanced(ApplyDispatch(r, entity, command), x)
  {
    hide Tally;
    var t := ApplyDispatch(r, entity, command);
    var op := t.dir.ops[|r.dir.ops|];
    assert t.dir.ops == r.dir.ops + [op];
    TallyAppend(r.dir.ops, op, (OpItem<I, C, E, L>), x);
    if !op.Done? {
      TallyAppend(r.granted, CommandIssued(op.dispatchId, op.command), (GrantItem<C, L>), x);
    }
  }

  lemma CallerBalances<I, C, E, L>(r: Runtime<I, C, E, L>, a: Action<I, C, E, L>, x: Item<PendingCommand<C>, L>)
    requires Balanced(r, x) && Enabled(r, a) && (a.Passivate? || a.DropWait? || a.Poll?)
    ensures Balanced(Apply(r, a), x)
  {
    hide Tally, Submit;
    match a {
      case Passivate(entity) =>
        var current := D.CurrentActivation(r.dir, entity);
        if current.Some? {
          SubmitFactItems(r, entity, SlotEvent.BeginDrain(current.value), x);
        }
      case DropWait(d) =>
        var wait := r.waits[d];
        var dropped := r.(waits := r.waits - {d});
        var activation := WaitActivation(r.dir.replies[wait.op]);
        if activation.Some? {
          SubmitFactItems(dropped, wait.entity, SlotEvent.CancelWaiter(activation.value, d), x);
        }
      case Poll(_) =>
    }
  }

  /** Every action keeps the ledger balanced, for every token, command and lease. */
  lemma ActionBalances<I, C(!new), E, L(!new)>(r: Runtime<I, C, E, L>, a: Action<I, C, E, L>, x: Item<PendingCommand<C>, L>)
    requires Inv(r) && Enabled(r, a)
    ensures Balanced(Apply(r, a), x)
  {
    hide Balanced, D.Inv, AllRouted, ApplyDispatch, ApplyPassivate, ApplyDrop, ApplyPoll, ApplyStep, ApplyFinish;
    assert Balanced(r, x);
    match a {
      case Dispatch(entity, command) => DispatchBalances(r, entity, command, x);
      case DirectoryStep(j) => DirectoryStepBalances(r, j, x);
      case Finish(i, answer) => FinishBalances(r, i, answer, x);
      case _ => CallerBalances(r, a, x);
    }
  }

  // ----- routing is kept by every step -----

  /** An expected event requests effects for the slot's own activation only. */
  lemma DecisionRouted<C, E, L>(state: EntitySlot<C, E, L>, g: Identity, event: SlotEvent<C, E, L>)
    requires Expected(state, g, event)
    ensures EffectsFor(Reduce(state, event).effects, g)
  {}

  /** Slots are only added, and keep their entity and activation. */
  ghost predicate Extends<I, C, E, L>(dir: D.Directory<I, PendingCommand<C>, E, L>, next: D.Directory<I, PendingCommand<C>, E, L>) {
    && |dir.slots| <= |next.slots|
    && forall k :: 0 <= k < |dir.slots| ==>
         next.slots[k].entity == dir.slots[k].entity && next.slots[k].activationId == dir.slots[k].activationId
  }

  lemma RoutedStays<I, C, E, L>(r: Runtime<I, C, E, L>, dir: D.Directory<I, PendingCommand<C>, E, L>)
    requires AllRouted(r) && Extends(r.dir, dir)
    ensures forall j :: 0 <= j < |r.dir.ops| ==> OpRouted(dir, r.dir.ops[j])
    ensures forall i :: 0 <= i < |r.tasks| ==> TaskRouted(dir, r.tasks[i])
  {
    forall j | 0 <= j < |r.dir.ops|
      ensures OpRouted(dir, r.dir.ops[j])
    {
      assert OpRouted(r.dir, r.dir.ops[j]);
    }
    forall i | 0 <= i < |r.tasks|
      ensures TaskRouted(dir, r.tasks[i])
    {
      assert TaskRouted(r.dir, r.tasks[i]);
    }
  }

  /** One operation, at most one task and at most one slot change; each changed part is routed. */
  lemma RoutedAfter<I, C, E, L>(r: Runtime<I, C, E, L>, t: Runtime<I, C, E, L>, j: nat, k: nat)
    requires AllRouted(r) && Extends(r.dir, t.dir)
    requires |r.dir.ops| <= |t.dir.ops|
    requires forall i :: 0 <= i < |t.dir.ops| ==>
      (i < |r.dir.ops| && t.dir.ops[i] == r.dir.ops[i]) || OpRouted(t.dir, t.dir.ops[i])
    requires forall i :: 0 <= i < |t.tasks| ==> (i < |r.tasks| && t.tasks[i] == r.tasks[i]) || TaskRouted(t.dir, t.tasks[i])
    requires forall m :: 0 <= m < |t.dir.slots| ==> (m < |r.dir.slots| && t.dir.slots[m] == r.dir.slots[m]) || SlotRouted(t.dir.slots[m])
    ensures AllRouted(t)
  {
    hide OpRouted, TaskRouted, SlotRouted;
    RoutedStays(r, t.dir);
  }

  lemma SubmitSlotRouted<I, C, E, L>(slot: D.Slot<I, PendingCommand<C>, E, L>, event: SlotEvent<PendingCommand<C>, E, L>)
    requires SlotRouted(slot) && Expected(slot.State(), slot.activationId, event)
    ensures SlotRouted(D.SubmitTo(slot, event))
  {
    hide Reduce, Expected, Transition, EffectsFor;
    SubmitShape(slot, event);
    DecisionRouted(slot.State(), slot.activationId, event);
    var outputs, t := slot.executor.outputs, D.SubmitTo(slot, event);
    forall o | o in t.executor.outputs
      ensures EffectsFor(o.effects, slot.activationId)
    {
      var i :| 0 <= i < |t.executor.outputs| && t.executor.outputs[i] == o;
      if i < |outputs| {
        assert o == t.executor.outputs[..|outputs|][i] && o in outputs;
      }
    }
  }

  lemma SubmitStepRouted<I, C(!new), E, L(!new)>(r: Runtime<I, C, E, L>, j: nat)
    requires Inv(r) && Enabled(r, DirectoryStep(j)) && r.dir.ops[j].Holding?
    ensures AllRouted(ApplyStep(r, j))
  {
    hide Balanced, Expected, D.Balanced, SlotRouted, D.SubmitTo, SettledBy;
    var t, op := ApplyStep(r, j), r.dir.ops[j];
    var slot := r.dir.slots[op.slot];
    assert D.OpOk(r.dir, op) && SlotRouted(slot);
    FactIsExpected(r, j);
    SubmitSlotRouted(slot, op.event);
    assert D.SubmitTo(slot, op.event).entity == slot.entity && D.SubmitTo(slot, op.event).activationId == slot.activationId by {
      SubmitShape(slot, op.event);
    }
    hide D.Inv;
    RoutedAfter(r, t, j, op.slot);
  }

  lemma ClaimRouted<I, C(!new), E, L(!new)>(r: Runtime<I, C, E, L>, j: nat)
    requires Inv(r) && Enabled(r, DirectoryStep(j)) && r.dir.ops[j].DispatchLookup?
    requires r.dir.ops[j].entity !in r.dir.entries && r.dir.nextActivation < MAX_U64
    ensures AllRouted(ApplyStep(r, j))
  {
    hide Balanced, D.SubmitTo, D.Inv, Tally;
    var t, op, n := ApplyStep(r, j), r.dir.ops[j], |r.dir.slots|;
    NewSlotItems<I, C, E, L>(op.entity, r.dir.nextActivation, op.dispatchId, op.command, r.dir.waiterLimit, Token(Activation, 1));
    var slot := t.dir.slots[n];
    assert SlotRouted(slot) by {
      assert slot.executor.outputs == [slot.executor.outputs[0]];
    }
    RoutedAfter(r, t, j, n);
  }

  lemma AcquireStepRouted<I, C(!new), E, L(!new)>(r: Runtime<I, C, E, L>, j: nat)
    requires Inv(r) && Enabled(r, DirectoryStep(j)) && r.dir.ops[j].Interpret?
    ensures AllRouted(ApplyStep(r, j))
  {
    hide Balanced, D.Balanced, EffectsFor, D.SlotOk;
    var t, op := ApplyStep(r, j), r.dir.ops[j];
    assert D.OpOk(r.dir, op) && SlotRouted(r.dir.slots[op.slot]);
    hide D.Inv;
    NoEffectsFor<PendingCommand<C>, E, L>(op.slot + 1);
    RoutedAfter(r, t, j, op.slot);
  }

  lemma NextStepRouted<I, C(!new), E, L(!new)>(r: Runtime<I, C, E, L>, j: nat)
    requires Inv(r) && Enabled(r, DirectoryStep(j)) && r.dir.ops[j].Owning? && r.dir.ops[j].effects == []
    ensures AllRouted(ApplyStep(r, j))
  {
    hide Balanced, D.Balanced, EffectsFor;
    var t, op := ApplyStep(r, j), r.dir.ops[j];
    var slot := r.dir.slots[op.slot];
    assert D.OpOk(r.dir, op) && SlotRouted(slot) && D.SlotOk(r.dir, op.slot);
    hide D.Inv, D.SlotOk;
    var outputs := slot.executor.outputs;
    assert outputs != [] ==> outputs[0] in outputs && forall o <- outputs[1..] :: o in outputs;
    RoutedAfter(r, t, j, op.slot);
  }

  lemma NoEffectsFor<C, E, L>(g: Identity)
    ensures EffectsFor<C, E, L>([], g)
  {}

  /** The first effect in hand is for the owned slot, whose entity it is interpreted for. */
  lemma HeadRouted<I, C(!new), E, L(!new)>(r: Runtime<I, C, E, L>, j: nat)
    requires Inv(r) && Enabled(r, DirectoryStep(j)) && r.dir.ops[j].Owning? && r.dir.ops[j].effects != []
    ensures
      var op := r.dir.ops[j];
      && op.slot + 1 <= MAX_U64 && r.dir.slots[op.slot].entity == op.entity && SlotRouted(r.dir.slots[op.slot])
      && EffectFor(op.effects[0], op.slot + 1) && EffectsFor(op.effects[1..], op.slot + 1)
  {
    hide Balanced, D.Balanced, SlotRouted, D.SlotOk;
    assert D.OpOk(r.dir, r.dir.ops[j]) && OpRouted(r.dir, r.dir.ops[j]) && SlotRouted(r.dir.slots[r.dir.ops[j].slot]);
  }

  lemma RemoveStepRouted<I, C(!new), E, L(!new)>(r: Runtime<I, C, E, L>, j: nat)
    requires Inv(r) && Enabled(r, DirectoryStep(j)) && r.dir.ops[j].Owning? && r.dir.ops[j].effects != []
    requires r.dir.ops[j].effects[0].Remove?
    ensures AllRouted(ApplyStep(r, j))
  {
    hide Balanced, D.Inv, SlotRouted, EffectsFor;
    HeadRouted(r, j);
    SameQueueRouted(r.dir.slots[r.dir.ops[j].slot]);
    RoutedAfter(r, ApplyStep(r, j), j, r.dir.ops[j].slot);
  }

  lemma EmitStepRouted<I, C(!new), E, L(!new)>(r: Runtime<I, C, E, L>, j: nat)
    requires Inv(r) && Enabled(r, DirectoryStep(j)) && r.dir.ops[j].Owning? && r.dir.ops[j].effects != []
    requires !r.dir.ops[j].effects[0].Remove?
    ensures AllRouted(ApplyStep(r, j))
  {
    hide Balanced, D.Inv, SlotRouted, EffectsFor;
    HeadRouted(r, j);
    RoutedAfter(r, ApplyStep(r, j), j, r.dir.ops[j].slot);
  }

  lemma SameQueueRouted<I, C, E, L>(slot: D.Slot<I, PendingCommand<C>, E, L>)
    ensures SlotRouted(slot) ==> SlotRouted(slot.(removed := true))
  {}

  lemma MoveRouted<I, C(!new), E, L(!new)>(r: Runtime<I, C, E, L>, j: nat)
    requires Inv(r) && Enabled(r, DirectoryStep(j))
    requires r.dir.ops[j].Transient? || r.dir.ops[j].Lookup?
           || (r.dir.ops[j].DispatchLookup? && (r.dir.ops[j].entity in r.dir.entries || r.dir.nextActivation == MAX_U64))
    ensures AllRouted(ApplyStep(r, j))
  {
    hide Balanced, D.Balanced, Transition;
    var t, op := ApplyStep(r, j), r.dir.ops[j];
    assert OpRouted(r.dir, op);
    if op.Lookup? {
      LookupNeverTransient(r, j);
      if Reports(op.event) {
        FactFindsItsSlot(r, j);
      }
    }
    hide D.Inv, SlotRouted, EffectsFor;
    RoutedAfter(r, t, j, 0);
  }

  lemma CallRouted<I, C(!new), E, L(!new)>(r: Runtime<I, C, E, L>, a: Action<I, C, E, L>)
    requires Inv(r) && Enabled(r, a) && !a.DirectoryStep? && !a.Finish?
    ensures AllRouted(Apply(r, a))
  {
    hide Balanced, D.Inv, SlotRouted, EffectsFor;
    RoutedAfter(r, Apply(r, a), 0, 0);
  }

  lemma FinishRouted<I, C(!new), E, L(!new)>(r: Runtime<I, C, E, L>, i: nat, answer: Answer<E, L>)
    requires Inv(r) && Enabled(r, Finish(i, answer))
    ensures AllRouted(ApplyFinish(r, i, answer))
  {
    hide Balanced, D.Inv, SlotRouted, EffectsFor;
    assert TaskRouted(r.dir, r.tasks[i]);
    RoutedAfter(r, ApplyFinish(r, i, answer), 0, 0);
  }

  lemma ActionRouted<I, C(!new), E, L(!new)>(r: Runtime<I, C, E, L>, a: Action<I, C, E, L>)
    requires Inv(r) && Enabled(r, a)
    ensures AllRouted(Apply(r, a))
  {
    hide Inv, AllRouted, ApplyStep, ApplyFinish;
    match a {
      case DirectoryStep(j) =>
        match r.dir.ops[j] {
          case DispatchLookup(entity, _, _) =>
            if entity !in r.dir.entries && r.dir.nextActivation < MAX_U64 {
              ClaimRouted(r, j);
            } else {
              MoveRouted(r, j);
            }
          case Holding(_, _, _) => SubmitStepRouted(r, j);
          case Interpret(_, _) => AcquireStepRouted(r, j);
          case Owning(_, _, effects) =>
            if effects == [] {
              NextStepRouted(r, j);
            } else if effects[0].Remove? {
              RemoveStepRouted(r, j);
            } else {
              EmitStepRouted(r, j);
            }
          case _ => MoveRouted(r, j);
        }
      case Finish(i, answer) => FinishRouted(r, i, answer);
      case _ => CallRouted(r, a);
    }
  }

  // ----- every reachable state -----

  /** Every runtime step is a step of the directory under arbitrary facts, or leaves it alone. */
  lemma ActionKeepsDirectoryInv<I, C(!new), E, L(!new)>(r: Runtime<I, C, E, L>, a: Action<I, C, E, L>)
    requires D.Inv(r.dir) && Enabled(r, a)
    ensures D.Inv(Apply(r, a).dir)
  {
    hide D.Inv, D.Apply;
    match a {
      case Dispatch(entity, command) =>
        D.StepKeepsInv(r.dir, D.CallDispatch(entity, PendingCommand(command, r.dir.nextDispatch)));
      case Passivate(entity) =>
        var current := D.CurrentActivation(r.dir, entity);
        if current.Some? {
          D.StepKeepsInv(r.dir, D.Call(entity, SlotEvent.BeginDrain(current.value)));
        }
      case DropWait(d) =>
        var activation := WaitActivation(r.dir.replies[r.waits[d].op]);
        if activation.Some? {
          D.StepKeepsInv(r.dir, D.Call(r.waits[d].entity, SlotEvent.CancelWaiter(activation.value, d)));
        }
      case Poll(_) =>
      case DirectoryStep(j) => D.StepKeepsInv(r.dir, D.Step(j));
      case Finish(i, answer) => D.StepKeepsInv(r.dir, D.Call(r.tasks[i].entity, Fact(r.tasks[i], answer)));
    }
  }

  lemma ActionKeepsInv<I, C(!new), E, L(!new)>(r: Runtime<I, C, E, L>, a: Action<I, C, E, L>)
    requires Inv(r) && Enabled(r, a)
    ensures Inv(Apply(r, a))
  {
    hide D.Inv, AllRouted, Balanced, Apply;
    ActionKeepsDirectoryInv(r, a);
    ActionRouted(r, a);
    forall x: Item<PendingCommand<C>, L>
      ensures Balanced(Apply(r, a), x)
    {
      ActionBalances(r, a, x);
    }
  }
}
