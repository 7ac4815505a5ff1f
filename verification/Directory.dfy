/** The concurrent directory: every interleaving of its locked sections, for arbitrary
    dispatched commands and arbitrary submitted facts. An operation looks a slot up under
    the shard lock, releases it, and submits later under the slot lock, so it may hold a
    slot that has been removed in between. */
module Directory {
  import opened Common
  import opened Lifecycle
  import opened Evidence
  import X = Linearized

  type Executor<C, E, L> =
    X.Execution<EntitySlot<C, E, L>, LifecycleOutput<C, E, L>, (TransitionEvidence, Option<Identity>)>

  /** One slot allocation; its index in the directory's history is its identity. */
  datatype Slot<I, C, E, L> = Slot(
    entity: I,
    activationId: Identity,     // the one activation it was claimed for
    executor: Executor<C, E, L>,
    removed: bool)              // its map entry has been removed
  {
    function State(): EntitySlot<C, E, L> {
      if executor.seat.Ready? then executor.seat.machine else EntitySlot.Inactive
    }
  }

  datatype Reply<C, E, L> =
    | Installed(output: LifecycleOutput<C, E, L>)
    | ActivationIdsExhausted(command: C)
    | DispatchIdsExhausted(command: C)

  /** One operation in progress, by the atomic section it is about to execute. */
  datatype Op<I, C, E, L> =
    | DispatchLookup(entity: I, dispatchId: Identity, command: C)
    | Lookup(entity: I, event: SlotEvent<C, E, L>)
    | Holding(entity: I, slot: nat, event: SlotEvent<C, E, L>)
    | Interpret(entity: I, slot: nat)
    | Owning(entity: I, slot: nat, effects: seq<SlotEffect<C, E, L>>)
    | Transient(entity: I, effects: seq<SlotEffect<C, E, L>>)
    | Done

  datatype Directory<I, C, E, L> = Directory(
    waiterLimit: Positive,
    slots: seq<Slot<I, C, E, L>>,
    entries: map<I, nat>,
    nextActivation: nat,
    nextDispatch: nat,
    ops: seq<Op<I, C, E, L>>,
    replies: seq<Option<Reply<C, E, L>>>)   // what each operation was answered

  datatype Action<I, C, E, L> =
    | CallDispatch(entity: I, command: C)
    | Call(entity: I, event: SlotEvent<C, E, L>)
    | Step(op: nat)

  /** The next identity of a monotonic sequence, and the sequence after it. */
  function Allocate(next: nat): (r: (Option<Identity>, nat))
    requires 1 <= next <= MAX_U64
    ensures 1 <= r.1 <= MAX_U64
    ensures r.0.Some? ==> r.0.value == next < r.1
    ensures r.0.None? ==> next == r.1 == MAX_U64
  {
    if next < MAX_U64 then (Some(next), next + 1) else (None, next)
  }

  function Start<I, C, E, L>(waiterLimit: Positive): Directory<I, C, E, L> {
    Directory(waiterLimit, [], map[], 1, 1, [], [])
  }

  /** Linearize one fact at a slot. */
  function SubmitTo<I, C, E, L>(slot: Slot<I, C, E, L>, event: SlotEvent<C, E, L>): Slot<I, C, E, L> {
    var (output, next) := Transition(slot.State(), event);
    slot.(executor := X.Install(slot.executor, next, output, (output.evidence, output.activationId)))
  }

  function Answer<C, E, L>(state: EntitySlot<C, E, L>, event: SlotEvent<C, E, L>): Reply<C, E, L> {
    Installed(Transition(state, event).0)
  }

  function NewSlot<I, C, E, L>(entity: I, g: Identity): Slot<I, C, E, L> {
    Slot(entity, g, X.New(EntitySlot<C, E, L>.Inactive), false)
  }

  predicate Enabled<I, C, E, L>(d: Directory<I, C, E, L>, a: Action<I, C, E, L>) {
    match a
    case CallDispatch(_, _) => 1 <= d.nextDispatch <= MAX_U64
    case Call(_, event) => !event.ClaimActivation? && !event.Dispatch?
    case Step(j) =>
      && j < |d.ops| == |d.replies| && !d.ops[j].Done?
      && 1 <= d.nextActivation <= MAX_U64
      && (d.ops[j].Holding? || d.ops[j].Interpret? || d.ops[j].Owning? ==> d.ops[j].slot < |d.slots|)
  }

  /** An operation that found the slot for a new command, or claims a fresh activation and
      installs a new slot, all under the shard lock. */
  function StepDispatch<I(==), C, E, L>(d: Directory<I, C, E, L>, j: nat): Directory<I, C, E, L>
    requires Enabled(d, Step(j)) && d.ops[j].DispatchLookup?
  {
    var op := d.ops[j];
    if op.entity in d.entries then
      d.(ops := d.ops[j := Holding(op.entity, d.entries[op.entity], SlotEvent.Dispatch(op.dispatchId, op.command))])
    else
      var (granted, next) := Allocate(d.nextActivation);
      match granted
      case None =>
        d.(ops := d.ops[j := Done], replies := d.replies[j := Some(ActivationIdsExhausted(op.command))])
      case Some(g) =>
        var claim := SlotEvent.ClaimActivation(g, op.dispatchId, op.command, d.waiterLimit);
        d.(slots := d.slots + [SubmitTo(NewSlot(op.entity, g), claim)],
           entries := d.entries[op.entity := |d.slots|],
           nextActivation := next,
           ops := d.ops[j := Interpret(op.entity, |d.slots|)],
           replies := d.replies[j := Some(Answer(EntitySlot.Inactive, claim))])
  }

  /** A fact looks its entity's slot up, or is reduced on the spot when there is none. */
  function StepLookup<I(==), C, E, L>(d: Directory<I, C, E, L>, j: nat): Directory<I, C, E, L>
    requires Enabled(d, Step(j)) && d.ops[j].Lookup?
  {
    var op := d.ops[j];
    if op.entity in d.entries then
      d.(ops := d.ops[j := Holding(op.entity, d.entries[op.entity], op.event)])
    else
      var reply := Answer(EntitySlot.Inactive, op.event);
      d.(ops := d.ops[j := Transient(op.entity, reply.output.effects)], replies := d.replies[j := Some(reply)])
  }

  /** The slot lock: install one decision. */
  function StepSubmit<I, C, E, L>(d: Directory<I, C, E, L>, j: nat): Directory<I, C, E, L>
    requires Enabled(d, Step(j)) && d.ops[j].Holding?
  {
    var op := d.ops[j];
    var slot := d.slots[op.slot];
    d.(slots := d.slots[op.slot := SubmitTo(slot, op.event)],
       ops := d.ops[j := Interpret(op.entity, op.slot)],
       replies := d.replies[j := Some(Answer(slot.State(), op.event))])
  }

  /** dispatch_pending: become the slot's one dispatcher, or leave the effects to it. */
  function StepAcquire<I, C, E, L>(d: Directory<I, C, E, L>, j: nat): Directory<I, C, E, L>
    requires Enabled(d, Step(j)) && d.ops[j].Interpret?
  {
    var op := d.ops[j];
    var slot := d.slots[op.slot];
    if slot.executor.dispatch.Dispatching? then d.(ops := d.ops[j := Done])
    else d.(slots := d.slots[op.slot := slot.(executor := slot.executor.(dispatch := X.Dispatching))],
            ops := d.ops[j := Owning(op.entity, op.slot, [])])
  }

  /** The dispatcher pops the next decision's effects, or releases the empty queue. */
  function StepNext<I, C, E, L>(d: Directory<I, C, E, L>, j: nat): Directory<I, C, E, L>
    requires Enabled(d, Step(j)) && d.ops[j].Owning? && d.ops[j].effects == []
  {
    var op := d.ops[j];
    var slot := d.slots[op.slot];
    if slot.executor.outputs == [] then
      d.(slots := d.slots[op.slot := slot.(executor := slot.executor.(dispatch := X.Idle))],
         ops := d.ops[j := Done])
    else
      d.(slots := d.slots[op.slot := slot.(executor := slot.executor.(outputs := slot.executor.outputs[1..]))],
         ops := d.ops[j := Owning(op.entity, op.slot, slot.executor.outputs[0].effects)])
  }

  /** Interpret one effect: Remove deletes the entry if it still is this very slot; any other
      effect is handed to the runtime and changes nothing here. */
  function StepEffect<I(==), C, E, L>(d: Directory<I, C, E, L>, j: nat): Directory<I, C, E, L>
    requires Enabled(d, Step(j)) && d.ops[j].Owning? && d.ops[j].effects != []
  {
    var op := d.ops[j];
    var rest := d.(ops := d.ops[j := Owning(op.entity, op.slot, op.effects[1..])]);
    if op.effects[0].Remove? && op.entity in d.entries && d.entries[op.entity] == op.slot then
      rest.(entries := d.entries - {op.entity},
            slots := d.slots[op.slot := d.slots[op.slot].(removed := true)])
    else rest
  }

  function StepTransient<I, C, E, L>(d: Directory<I, C, E, L>, j: nat): Directory<I, C, E, L>
    requires Enabled(d, Step(j)) && d.ops[j].Transient?
  {
    var op := d.ops[j];
    d.(ops := d.ops[j := if op.effects == [] then Done else Transient(op.entity, op.effects[1..])])
  }

  function Apply<I(==), C, E, L>(d: Directory<I, C, E, L>, a: Action<I, C, E, L>): Directory<I, C, E, L>
    requires Enabled(d, a)
  {
    match a
    case CallDispatch(entity, command) =>
      var (granted, next) := Allocate(d.nextDispatch);
      if granted.None? then
        d.(ops := d.ops + [Done], replies := d.replies + [Some(DispatchIdsExhausted(command))])
      else d.(nextDispatch := next,
              ops := d.ops + [DispatchLookup(entity, granted.value, command)],
              replies := d.replies + [None])
    case Call(entity, event) => d.(ops := d.ops + [Lookup(entity, event)], replies := d.replies + [None])
    case Step(j) =>
      match d.ops[j]
      case DispatchLookup(_, _, _) => StepDispatch(d, j)
      case Lookup(_, _) => StepLookup(d, j)
      case Holding(_, _, _) => StepSubmit(d, j)
      case Interpret(_, _) => StepAcquire(d, j)
      case Owning(_, _, effects) => if effects == [] then StepNext(d, j) else StepEffect(d, j)
      case Transient(_, _) => StepTransient(d, j)
  }

  /** The effect a step hands to the runtime, with the entity it is for. */
  function Emits<I, C, E, L>(d: Directory<I, C, E, L>, a: Action<I, C, E, L>): Option<(I, SlotEffect<C, E, L>)> {
    if a.Step? && a.op < |d.ops| && (d.ops[a.op].Owning? || d.ops[a.op].Transient?)
       && d.ops[a.op].effects != [] && !d.ops[a.op].effects[0].Remove?
    then Some((d.ops[a.op].entity, d.ops[a.op].effects[0])) else None
  }

  // ----- invariants, for arbitrary facts -----

  ghost function RemoveIn<C, E, L>(effect: SlotEffect<C, E, L>, unit: ()): nat {
    if effect.Remove? then 1 else 0
  }

  ghost function Removes<C, E, L>(effects: seq<SlotEffect<C, E, L>>): nat {
    Tally(effects, (RemoveIn<C, E, L>), ())
  }

  ghost function OutputRemoves<C, E, L>(output: LifecycleOutput<C, E, L>, unit: ()): nat {
    Removes(output.effects)
  }

  /** Remove effects an operation has in hand for slot `k`. */
  ghost function OpRemoves<I, C, E, L>(op: Op<I, C, E, L>, k: nat): nat {
    if op.Owning? && op.slot == k then Removes(op.effects) else 0
  }

  ghost function OpOwns<I, C, E, L>(op: Op<I, C, E, L>, k: nat): nat {
    if op.Owning? && op.slot == k then 1 else 0
  }

  /** One owner exactly while dispatching; one pending Remove exactly while a mapped slot is
      inactive, and none before or after. */
  ghost predicate Balanced<I, C, E, L>(d: Directory<I, C, E, L>, k: nat)
    requires k < |d.slots|
  {
    var slot := d.slots[k];
    && Tally(d.ops, (OpOwns<I, C, E, L>), k) == (if slot.executor.dispatch.Dispatching? then 1 else 0)
    && Tally(d.ops, (OpRemoves<I, C, E, L>), k) + Tally(slot.executor.outputs, (OutputRemoves<C, E, L>), ())
       == (if slot.State().Inactive? && !slot.removed then 1 else 0)
  }

  ghost predicate SlotOk<I, C, E, L>(d: Directory<I, C, E, L>, k: nat)
    requires k < |d.slots|
  {
    var slot := d.slots[k];
    && slot.executor.seat.Ready?
    && slot.activationId == k + 1
    && (slot.State().Inactive? || slot.State().activationId == k + 1)
    && slot.executor.evidence.Some? && slot.executor.evidence.value.1 == slot.State().Current()
    && (slot.removed ==> slot.State().Inactive?)
    && (!slot.removed <==> slot.entity in d.entries && d.entries[slot.entity] == k)
  }

  ghost predicate OpOk<I, C, E, L>(d: Directory<I, C, E, L>, op: Op<I, C, E, L>) {
    match op
    case Lookup(_, event) => !event.ClaimActivation? && !event.Dispatch?
    case Holding(entity, k, event) => k < |d.slots| && d.slots[k].entity == entity && !event.ClaimActivation?
    case Interpret(entity, k) => k < |d.slots| && d.slots[k].entity == entity
    case Owning(entity, k, _) => k < |d.slots| && d.slots[k].entity == entity
    case _ => true
  }

  ghost predicate Inv<I, C, E, L>(d: Directory<I, C, E, L>) {
    && d.nextActivation == |d.slots| + 1 <= MAX_U64
    && 1 <= d.nextDispatch <= MAX_U64
    && |d.replies| == |d.ops|
    && (forall id <- d.entries :: d.entries[id] < |d.slots| && d.slots[d.entries[id]].entity == id)
    && (forall k :: 0 <= k < |d.slots| ==> SlotOk(d, k))
    && (forall k :: 0 <= k < |d.slots| ==> Balanced(d, k))
    && (forall j :: 0 <= j < |d.ops| ==> OpOk(d, d.ops[j]))
  }

  // ----- what one decision does to the invariants -----

  lemma RejectAllRemoves<C, E, L>(waiters: seq<Waiter<C>>, g: Identity)
    ensures Removes<C, E, L>(RejectAll(waiters) + [Remove(g)]) == 1
  {
    var rejects: seq<SlotEffect<C, E, L>> := RejectAll(waiters);
    TallyZero(rejects, (RemoveIn<C, E, L>), ());
    TallyAppend(rejects, Remove(g), (RemoveIn<C, E, L>), ());
  }

  lemma NoRemoves<C, E, L>(effects: seq<SlotEffect<C, E, L>>)
    requires forall e <- effects :: !e.Remove?
    ensures Removes(effects) == 0
  {
    TallyZero(effects, (RemoveIn<C, E, L>), ());
  }

  /** A decision keeps the slot's activation, requests Remove exactly when it makes the slot
      inactive, and an inactive slot stays inactive. */
  lemma DecisionFacts<C, E, L>(state: EntitySlot<C, E, L>, event: SlotEvent<C, E, L>, g: Identity)
    requires !event.ClaimActivation? && (state.Inactive? || state.activationId == g)
    ensures
      var (output, next) := Transition(state, event);
      && (next.Inactive? || next.activationId == g)
      && output.activationId == next.Current()
      && Removes(output.effects) + (if state.Inactive? then 1 else 0) == if next.Inactive? then 1 else 0
  {
    var effects := Reduce(state, event).effects;
    if state.Activating? && event.ActivationFailed? && state.activationId == event.activationId {
      RejectAllRemoves<C, E, L>(state.waiters, event.activationId);
    } else if state.Retiring? && event.Terminated? && state.activationId == event.activationId {
      TallyAppend([], Remove(state.activationId), (RemoveIn<C, E, L>), ());
      assert effects == [] + [Remove(state.activationId)];
    } else {
      NoRemoves(effects);
    }
  }

  lemma ClaimFacts<C, E, L>(g: Identity, d: Identity, command: C, limit: Positive)
    ensures
      var (output, next) := Transition(EntitySlot<C, E, L>.Inactive, SlotEvent.ClaimActivation(g, d, command, limit));
      && next == EntitySlot.Activating(g, [Waiter(d, command)], limit)
      && output.effects == [StartActivation(g)] && output.activationId == Some(g)
      && Removes(output.effects) == 0
  {
    NoRemoves<C, E, L>([StartActivation(g)]);
  }

  // ----- every step keeps the invariants -----

  lemma OpUpdate<I, C, E, L>(d: Directory<I, C, E, L>, j: nat, op: Op<I, C, E, L>, k: nat)
    requires j < |d.ops|
    ensures Tally(d.ops[j := op], (OpOwns<I, C, E, L>), k) + OpOwns(d.ops[j], k) == Tally(d.ops, (OpOwns<I, C, E, L>), k) + OpOwns(op, k)
    ensures Tally(d.ops[j := op], (OpRemoves<I, C, E, L>), k) + OpRemoves(d.ops[j], k) == Tally(d.ops, (OpRemoves<I, C, E, L>), k) + OpRemoves(op, k)
  {
    TallyUpdate(d.ops, j, op, (OpOwns<I, C, E, L>), k);
    TallyUpdate(d.ops, j, op, (OpRemoves<I, C, E, L>), k);
  }

  lemma OpAppend<I, C, E, L>(ops: seq<Op<I, C, E, L>>, op: Op<I, C, E, L>, k: nat)
    ensures Tally(ops + [op], (OpOwns<I, C, E, L>), k) == Tally(ops, (OpOwns<I, C, E, L>), k) + OpOwns(op, k)
    ensures Tally(ops + [op], (OpRemoves<I, C, E, L>), k) == Tally(ops, (OpRemoves<I, C, E, L>), k) + OpRemoves(op, k)
  {
    TallyAppend(ops, op, (OpOwns<I, C, E, L>), k);
    TallyAppend(ops, op, (OpRemoves<I, C, E, L>), k);
  }

  lemma CallKeepsInv<I, C, E, L>(d: Directory<I, C, E, L>, a: Action<I, C, E, L>)
    requires Inv(d) && Enabled(d, a) && !a.Step?
    ensures Inv(Apply(d, a))
  {
    hide Tally;
    var t := Apply(d, a);
    var op := t.ops[|d.ops|];
    assert t.ops == d.ops + [op];
    forall k | 0 <= k < |t.slots|
      ensures SlotOk(t, k) && Balanced(t, k)
    {
      assert SlotOk(d, k) && Balanced(d, k);
      OpAppend(d.ops, op, k);
    }
    forall i | 0 <= i < |t.ops|
      ensures OpOk(t, t.ops[i])
    {
      assert i < |d.ops| ==> OpOk(d, d.ops[i]);
    }
  }

  /** Replacing one operation by one that owns and removes as much, with the slots unchanged. */
  lemma MoveKeepsInv<I, C, E, L>(d: Directory<I, C, E, L>, t: Directory<I, C, E, L>, j: nat)
    requires Inv(d) && j < |d.ops|
    requires t.slots == d.slots && t.entries == d.entries && t.nextActivation == d.nextActivation && t.nextDispatch == d.nextDispatch
    requires |t.ops| == |d.ops| == |t.replies| && t.ops == d.ops[j := t.ops[j]] && OpOk(d, t.ops[j])
    requires !t.ops[j].Owning? && !d.ops[j].Owning?
    ensures Inv(t)
  {
    hide Tally;
    forall k | 0 <= k < |t.slots|
      ensures SlotOk(t, k) && Balanced(t, k)
    {
      assert SlotOk(d, k) && Balanced(d, k);
      OpUpdate(d, j, t.ops[j], k);
    }
    forall i | 0 <= i < |t.ops|
      ensures OpOk(t, t.ops[i])
    {
      assert OpOk(d, d.ops[i]);
    }
  }

  /** A step that keeps the entries and counters and changes one slot only. */
  lemma SlotStepKeepsInv<I, C, E, L>(d: Directory<I, C, E, L>, t: Directory<I, C, E, L>, j: nat, m: nat)
    requires Inv(d) && j < |d.ops| && m < |d.slots|
    requires |t.slots| == |d.slots| && t.slots == d.slots[m := t.slots[m]] && t.slots[m].entity == d.slots[m].entity
    requires t.nextActivation == d.nextActivation && t.nextDispatch == d.nextDispatch && t.entries == d.entries
    requires |t.ops| == |d.ops| == |t.replies| && t.ops == d.ops[j := t.ops[j]] && OpOk(t, t.ops[j])
    requires SlotOk(t, m) && Balanced(t, m)
    requires forall k :: k != m ==> OpOwns(t.ops[j], k) == OpOwns(d.ops[j], k) && OpRemoves(t.ops[j], k) == OpRemoves(d.ops[j], k)
    ensures Inv(t)
  {
    hide Tally, OpOwns, OpRemoves;
    forall k | 0 <= k < |t.slots|
      ensures SlotOk(t, k) && Balanced(t, k)
    {
      if k != m {
        assert SlotOk(d, k) && Balanced(d, k);
        OpUpdate(d, j, t.ops[j], k);
      }
    }
    forall i | 0 <= i < |t.ops|
      ensures OpOk(t, t.ops[i])
    {
      assert OpOk(d, d.ops[i]);
    }
  }

  lemma SubmitKeepsInv<I, C, E, L>(d: Directory<I, C, E, L>, j: nat)
    requires Inv(d) && Enabled(d, Step(j)) && d.ops[j].Holding?
    ensures Inv(StepSubmit(d, j))
  {
    hide Transition, Tally;
    var t, op := StepSubmit(d, j), d.ops[j];
    var m := op.slot;
    var slot := d.slots[m];
    assert OpOk(d, op) && SlotOk(d, m) && Balanced(d, m);
    DecisionFacts(slot.State(), op.event, m + 1);
    OpUpdate(d, j, t.ops[j], m);
    TallyAppend(slot.executor.outputs, Transition(slot.State(), op.event).0, (OutputRemoves<C, E, L>), ());
    SlotStepKeepsInv(d, t, j, m);
  }

  lemma AcquireKeepsInv<I, C, E, L>(d: Directory<I, C, E, L>, j: nat)
    requires Inv(d) && Enabled(d, Step(j)) && d.ops[j].Interpret?
    ensures Inv(StepAcquire(d, j))
  {
    hide Tally;
    var t, op := StepAcquire(d, j), d.ops[j];
    var m := op.slot;
    assert OpOk(d, op) && SlotOk(d, m) && Balanced(d, m);
    if t.ops[j].Done? {
      MoveKeepsInv(d, t, j);
    } else {
      OpUpdate(d, j, t.ops[j], m);
      NoRemoves<C, E, L>([]);
      SlotStepKeepsInv(d, t, j, m);
    }
  }

  lemma NextKeepsInv<I, C, E, L>(d: Directory<I, C, E, L>, j: nat)
    requires Inv(d) && Enabled(d, Step(j)) && d.ops[j].Owning? && d.ops[j].effects == []
    ensures Inv(StepNext(d, j))
  {
    hide Tally;
    var t, op := StepNext(d, j), d.ops[j];
    var m := op.slot;
    var outputs := d.slots[m].executor.outputs;
    assert OpOk(d, op) && SlotOk(d, m) && Balanced(d, m);
    OpUpdate(d, j, t.ops[j], m);
    NoRemoves<C, E, L>([]);
    if outputs != [] {
      TallyConcat([outputs[0]], outputs[1..], (OutputRemoves<C, E, L>), ());
      assert [outputs[0]] + outputs[1..] == outputs;
      TallyAppend([], outputs[0], (OutputRemoves<C, E, L>), ());
      TallyZero<LifecycleOutput<C, E, L>, ()>([], (OutputRemoves<C, E, L>), ());
      assert [] + [outputs[0]] == [outputs[0]];
    }
    SlotStepKeepsInv(d, t, j, m);
  }

  lemma RemovesSplit<C, E, L>(effects: seq<SlotEffect<C, E, L>>)
    requires effects != []
    ensures Removes(effects) == (if effects[0].Remove? then 1 else 0) + Removes(effects[1..])
  {
    TallyConcat([effects[0]], effects[1..], (RemoveIn<C, E, L>), ());
    assert [effects[0]] + effects[1..] == effects;
    TallyAppend([], effects[0], (RemoveIn<C, E, L>), ());
    assert [] + [effects[0]] == [effects[0]];
  }

  /** Exact removal: whenever a Remove is interpreted, whatever facts were submitted and
      however they interleaved, the entity's entry still is this very slot, inactive. */
  lemma RemoveFindsItsSlot<I, C, E, L>(d: Directory<I, C, E, L>, j: nat)
    requires Inv(d) && Enabled(d, Step(j)) && d.ops[j].Owning? && d.ops[j].effects != [] && d.ops[j].effects[0].Remove?
    ensures
      var op := d.ops[j];
      && op.entity in d.entries && d.entries[op.entity] == op.slot
      && d.slots[op.slot].State().Inactive? && !d.slots[op.slot].removed
  {
    hide Tally;
    var op := d.ops[j];
    assert OpOk(d, op) && SlotOk(d, op.slot) && Balanced(d, op.slot);
    TallyHas(d.ops, j, (OpRemoves<I, C, E, L>), op.slot);
    RemovesSplit(op.effects);
  }

  lemma EffectKeepsInv<I, C, E, L>(d: Directory<I, C, E, L>, j: nat)
    requires Inv(d) && Enabled(d, Step(j)) && d.ops[j].Owning? && d.ops[j].effects != []
    ensures Inv(StepEffect(d, j))
  {
    hide Tally;
    var t, op := StepEffect(d, j), d.ops[j];
    var m := op.slot;
    assert OpOk(d, op) && SlotOk(d, m) && Balanced(d, m);
    RemovesSplit(op.effects);
    if op.effects[0].Remove? {
      RemoveFindsItsSlot(d, j);
      forall k | 0 <= k < |t.slots|
        ensures SlotOk(t, k) && Balanced(t, k)
      {
        assert SlotOk(d, k) && Balanced(d, k);
        OpUpdate(d, j, t.ops[j], k);
      }
      forall i | 0 <= i < |t.ops|
        ensures OpOk(t, t.ops[i])
      {
        assert OpOk(d, d.ops[i]);
      }
    } else {
      OpUpdate(d, j, t.ops[j], m);
      SlotStepKeepsInv(d, t, j, m);
    }
  }

  lemma ClaimKeepsInv<I, C, E, L>(d: Directory<I, C, E, L>, j: nat)
    requires Inv(d) && Enabled(d, Step(j)) && d.ops[j].DispatchLookup?
    requires d.ops[j].entity !in d.entries && d.nextActivation < MAX_U64
    ensures Inv(StepDispatch(d, j))
  {
    hide Transition, Tally;
    var t, op, n := StepDispatch(d, j), d.ops[j], |d.slots|;
    ClaimFacts<C, E, L>(n + 1, op.dispatchId, op.command, d.waiterLimit);
    var output := Transition(EntitySlot<C, E, L>.Inactive, SlotEvent.ClaimActivation(n + 1, op.dispatchId, op.command, d.waiterLimit)).0;
    TallyAppend([], output, (OutputRemoves<C, E, L>), ());
    TallyZero<LifecycleOutput<C, E, L>, ()>([], (OutputRemoves<C, E, L>), ());
    forall k | 0 <= k < |t.slots|
      ensures SlotOk(t, k) && Balanced(t, k)
    {
      OpUpdate(d, j, t.ops[j], k);
      if k < n {
        assert SlotOk(d, k) && Balanced(d, k);
      } else {
        UnknownSlotHasNoOps(d, k);
      }
    }
    forall i | 0 <= i < |t.ops|
      ensures OpOk(t, t.ops[i])
    {
      assert OpOk(d, d.ops[i]);
    }
  }

  lemma UnknownSlotHasNoOps<I, C, E, L>(d: Directory<I, C, E, L>, k: nat)
    requires k >= |d.slots| && forall j :: 0 <= j < |d.ops| ==> OpOk(d, d.ops[j])
    ensures Tally(d.ops, (OpOwns<I, C, E, L>), k) == 0
    ensures Tally(d.ops, (OpRemoves<I, C, E, L>), k) == 0
  {
    forall j | 0 <= j < |d.ops|
      ensures OpOwns(d.ops[j], k) == 0 && OpRemoves(d.ops[j], k) == 0
    {
      assert OpOk(d, d.ops[j]);
    }
    TallyZero(d.ops, (OpOwns<I, C, E, L>), k);
    TallyZero(d.ops, (OpRemoves<I, C, E, L>), k);
  }

  lemma StepKeepsInv<I, C, E, L>(d: Directory<I, C, E, L>, a: Action<I, C, E, L>)
    requires Inv(d) && Enabled(d, a)
    ensures Inv(Apply(d, a))
  {
    if !a.Step? {
      hide *;
      CallKeepsInv(d, a);
    } else {
      hide Transition, Tally;
      var j, t := a.op, Apply(d, a);
      assert OpOk(d, d.ops[j]);
      match d.ops[j] {
        case DispatchLookup(entity, _, _) =>
          if entity !in d.entries && d.nextActivation < MAX_U64 {
            ClaimKeepsInv(d, j);
          } else {
            MoveKeepsInv(d, t, j);
          }
        case Lookup(_, _) => MoveKeepsInv(d, t, j);
        case Holding(_, _, _) => SubmitKeepsInv(d, j);
        case Interpret(_, _) => AcquireKeepsInv(d, j);
        case Owning(_, _, effects) =>
          if effects == [] {
            NextKeepsInv(d, j);
          } else {
            EffectKeepsInv(d, j);
          }
        case Transient(_, _) => MoveKeepsInv(d, t, j);
      }
    }
  }

  // ----- runs and what they guarantee -----

  predicate ValidRun<I(==), C, E, L>(d: Directory<I, C, E, L>, run: seq<Action<I, C, E, L>>)
    decreases |run|
  {
    run == [] || (Enabled(d, run[0]) && ValidRun(Apply(d, run[0]), run[1..]))
  }

  function After<I(==), C, E, L>(d: Directory<I, C, E, L>, run: seq<Action<I, C, E, L>>): Directory<I, C, E, L>
    requires ValidRun(d, run)
    decreases |run|
  {
    if run == [] then d else After(Apply(d, run[0]), run[1..])
  }

  lemma StartInv<I, C, E, L>(waiterLimit: Positive)
    ensures Inv(Start<I, C, E, L>(waiterLimit))
  {}

  lemma {:induction false} RunKeepsInv<I, C, E, L>(d: Directory<I, C, E, L>, run: seq<Action<I, C, E, L>>)
    requires Inv(d) && ValidRun(d, run)
    ensures Inv(After(d, run))
    decreases |run|
  {
    hide Inv, Enabled, Apply;
    if run != [] {
      StepKeepsInv(d, run[0]);
      RunKeepsInv(Apply(d, run[0]), run[1..]);
    }
  }

  /** A slot whose lifecycle is not inactive. */
  predicate Live<I, C, E, L>(d: Directory<I, C, E, L>, k: nat) {
    k < |d.slots| && !d.slots[k].State().Inactive?
  }

  /** Under every interleaving and arbitrary submitted facts an entity has at most one live
      slot, and it is the mapped one; and every slot serves the one activation it was claimed
      for, whose identities are distinct. */
  lemma OneLiveSlotPerEntity<I, C, E, L>(waiterLimit: Positive, run: seq<Action<I, C, E, L>>)
    requires ValidRun(Start(waiterLimit), run)
    ensures
      var d := After(Start(waiterLimit), run);
      && (forall k: nat :: Live(d, k) ==> d.slots[k].entity in d.entries && d.entries[d.slots[k].entity] == k)
      && (forall k: nat, l: nat :: Live(d, k) && Live(d, l) && d.slots[k].entity == d.slots[l].entity ==> k == l)
      && (forall k: nat :: Live(d, k) ==> d.slots[k].State().activationId == d.slots[k].activationId)
      && (forall k, l :: 0 <= k < l < |d.slots| ==> d.slots[k].activationId < d.slots[l].activationId)
  {
    StartInv<I, C, E, L>(waiterLimit);
    RunKeepsInv(Start(waiterLimit), run);
    var d := After(Start(waiterLimit), run);
    forall k: nat | Live(d, k)
      ensures SlotOk(d, k)
    {}
    forall k, l | 0 <= k < l < |d.slots|
      ensures d.slots[k].activationId < d.slots[l].activationId
    {
      assert SlotOk(d, k) && SlotOk(d, l);
    }
  }

  lemma InactiveStep<I, C, E, L>(d: Directory<I, C, E, L>, a: Action<I, C, E, L>, k: nat)
    requires Inv(d) && Enabled(d, a) && k < |d.slots|
    ensures
      var t := Apply(d, a);
      && k < |t.slots| && t.slots[k].entity == d.slots[k].entity && t.slots[k].activationId == d.slots[k].activationId
      && (d.slots[k].State().Inactive? ==> t.slots[k].State().Inactive?)
      && (d.slots[k].removed ==> t.slots[k].removed)
  {
    hide Transition, Tally, Balanced;
    if a.Step? {
      var op := d.ops[a.op];
      assert OpOk(d, op) && SlotOk(d, k);
      if op.Holding? {
        assert SlotOk(d, op.slot);
        DecisionFacts(d.slots[op.slot].State(), op.event, op.slot + 1);
      }
    }
  }

  /** An inactive slot stays inactive, and unmapped once removed, over any further run: one
      allocation never serves a second activation. */
  lemma {:induction false} InactiveIsForever<I, C, E, L>(d: Directory<I, C, E, L>, run: seq<Action<I, C, E, L>>, k: nat)
    requires Inv(d) && ValidRun(d, run) && k < |d.slots|
    ensures
      var t := After(d, run);
      && k < |t.slots| && t.slots[k].entity == d.slots[k].entity && t.slots[k].activationId == d.slots[k].activationId
      && (d.slots[k].State().Inactive? ==> t.slots[k].State().Inactive?)
      && (d.slots[k].removed ==> t.slots[k].removed)
    decreases |run|
  {
    hide Inv, Enabled, Apply;
    if run != [] {
      StepKeepsInv(d, run[0]);
      InactiveStep(d, run[0], k);
      InactiveIsForever(Apply(d, run[0]), run[1..], k);
    }
  }

  /** In every run a slot has one Remove to interpret exactly while it is inactive and still
      mapped: it is requested once, and never again after it was interpreted. */
  lemma RemovesMatchSlots<I, C, E, L>(waiterLimit: Positive, run: seq<Action<I, C, E, L>>, k: nat)
    requires ValidRun(Start(waiterLimit), run) && k < |After(Start(waiterLimit), run).slots|
    ensures
      var d := After(Start(waiterLimit), run);
      var slot := d.slots[k];
      Tally(d.ops, (OpRemoves<I, C, E, L>), k) + Tally(slot.executor.outputs, (OutputRemoves<C, E, L>), ())
      == if slot.State().Inactive? && !slot.removed then 1 else 0
  {
    StartInv<I, C, E, L>(waiterLimit);
    RunKeepsInv(Start(waiterLimit), run);
    hide Tally;
    assert Balanced(After(Start(waiterLimit), run), k);
  }

  /** Over any run the identity counters only grow, and once exhausted stay so. */
  lemma {:induction false} CountersOnlyGrow<I, C, E, L>(d: Directory<I, C, E, L>, run: seq<Action<I, C, E, L>>)
    requires Inv(d) && ValidRun(d, run)
    ensures
      var t := After(d, run);
      && d.nextActivation <= t.nextActivation <= MAX_U64 && d.nextDispatch <= t.nextDispatch <= MAX_U64
    decreases |run|
  {
    hide Inv, Enabled, Apply;
    if run != [] {
      IdentitiesAreFresh(d, run[0]);
      StepKeepsInv(d, run[0]);
      CountersOnlyGrow(Apply(d, run[0]), run[1..]);
    } else {
      CountersInRange(d);
    }
  }

  lemma CountersInRange<I, C, E, L>(d: Directory<I, C, E, L>)
    requires Inv(d)
    ensures d.nextActivation <= MAX_U64 && d.nextDispatch <= MAX_U64
  {}

  /** The identities handed out are those never handed out before, and exhaustion returns the command. */
  lemma IdentitiesAreFresh<I, C, E, L>(d: Directory<I, C, E, L>, a: Action<I, C, E, L>)
    requires Inv(d) && Enabled(d, a)
    ensures
      var t := Apply(d, a);
      && d.nextActivation <= t.nextActivation <= MAX_U64 && d.nextDispatch <= t.nextDispatch <= MAX_U64
      && (forall k :: |d.slots| <= k < |t.slots| ==>
           t.slots[k].activationId == d.nextActivation < t.nextActivation)
      && (d.nextActivation == MAX_U64 ==> |t.slots| == |d.slots| && t.nextActivation == MAX_U64)
      && (a.CallDispatch? ==>
           var op := t.ops[|d.ops|];
           if d.nextDispatch < MAX_U64 then op == DispatchLookup(a.entity, d.nextDispatch, a.command) && t.nextDispatch == d.nextDispatch + 1
           else op.Done? && t.replies[|d.ops|] == Some(DispatchIdsExhausted(a.command)))
      && (a.Step? && d.ops[a.op].DispatchLookup? && d.ops[a.op].entity !in d.entries && d.nextActivation == MAX_U64 ==>
           t.ops[a.op].Done? && t.replies[a.op] == Some(ActivationIdsExhausted(d.ops[a.op].command)))
  {
    hide Transition, Tally, Balanced;
  }

  /** The activation the directory reports for an entity, from the executor's cached evidence. */
  function CurrentActivation<I(==), C, E, L>(d: Directory<I, C, E, L>, entity: I): Option<Identity>
    requires entity in d.entries ==> d.entries[entity] < |d.slots|
  {
    if entity in d.entries && d.slots[d.entries[entity]].executor.evidence.Some?
    then d.slots[d.entries[entity]].executor.evidence.value.1
    else None
  }

  /** The cached evidence agrees with the machine: what is reported is the activation of the
      mapped slot's current lifecycle state. */
  lemma CurrentActivationIsCurrent<I, C, E, L>(d: Directory<I, C, E, L>, entity: I)
    requires Inv(d)
    ensures CurrentActivation(d, entity)
         == if entity in d.entries then d.slots[d.entries[entity]].State().Current() else None
  {
    hide Tally, Balanced;
    if entity in d.entries {
      assert SlotOk(d, d.entries[entity]);
    }
  }

  // ----- the slots run the executor -----

  /** The lifecycle machine as the executor sees it. */
  function SlotMachine<C, E, L>()
    : X.Machine<EntitySlot<C, E, L>, SlotEvent<C, E, L>, LifecycleOutput<C, E, L>, (TransitionEvidence, Option<Identity>)>
  {
    X.Machine(
      (state: EntitySlot<C, E, L>, event: SlotEvent<C, E, L>) => Transition(state, event),
      (output: LifecycleOutput<C, E, L>) => (output.evidence, output.activationId))
  }

  /** An executor with one call frame. */
  function WithFrame<C, E, L>(executor: Executor<C, E, L>, frame: X.Frame<LifecycleOutput<C, E, L>>)
    : X.System<EntitySlot<C, E, L>, SlotEvent<C, E, L>, LifecycleOutput<C, E, L>, (TransitionEvidence, Option<Identity>)>
  {
    X.System(executor, false, [frame], [], [], false)
  }

  /** Composition: every step changes a slot's executor exactly as one locked section of the
      linearized executor does, or leaves it alone. */
  lemma SlotsRunTheExecutor<I, C, E, L>(d: Directory<I, C, E, L>, j: nat, k: nat)
    requires Inv(d) && Enabled(d, Step(j)) && k < |d.slots|
    ensures
      var before, t, op := d.slots[k].executor, Apply(d, Step(j)), d.ops[j];
      k < |t.slots|
      && var after := t.slots[k].executor;
         if op.Holding? && op.slot == k then
           after == X.Apply(SlotMachine(), WithFrame(before, X.Finished), X.Action.Submit(op.event, false)).execution
         else if op.Interpret? && op.slot == k then
           after == X.Apply(SlotMachine(), WithFrame(before, X.MustDispatch), X.Action.Acquire(0)).execution
         else if op.Owning? && op.slot == k && op.effects == [] then
           after == X.Apply(SlotMachine(), WithFrame(before, X.Owner), X.Action.Next(0)).execution
         else after == before
    ensures
      var t := Apply(d, Step(j));
      |t.slots| > |d.slots| ==>
        var claim := SlotEvent.ClaimActivation(d.nextActivation, d.ops[j].dispatchId, d.ops[j].command, d.waiterLimit);
        d.ops[j].DispatchLookup?
        && t.slots[|d.slots|].executor
           == X.Apply(SlotMachine(), X.Start(EntitySlot.Inactive), X.Action.Submit(claim, false)).execution
  {
    hide Transition, Tally, Balanced;
    assert SlotOk(d, k);
    hide SlotOk, OpOk;
  }

  // ----- what callers are told -----

  /** A caller whose fact or claim is decided at a slot is told exactly the output the slot then
      queued last: its activation is the slot's current one, and its evidence the cached evidence. */
  lemma AnswersAreWhatTheSlotQueued<I, C, E, L>(d: Directory<I, C, E, L>, j: nat)
    requires Inv(d) && Enabled(d, Step(j))
    requires d.ops[j].Holding?
      || (d.ops[j].DispatchLookup? && d.ops[j].entity !in d.entries && d.nextActivation < MAX_U64)
    ensures
      var t := Apply(d, Step(j));
      && t.ops[j].Interpret? && t.ops[j].slot < |t.slots| && t.replies[j].Some? && t.replies[j].value.Installed?
      && var output, slot := t.replies[j].value.output, t.slots[t.ops[j].slot];
         && slot.executor.outputs != [] && slot.executor.outputs[|slot.executor.outputs| - 1] == output
         && output.activationId == (if slot.State().Inactive? then None else Some(slot.State().activationId))
         && slot.executor.evidence == Some((output.evidence, output.activationId))
         && (t.ops[j].slot < |d.slots| ==>
              slot.executor.outputs == d.slots[t.ops[j].slot].executor.outputs + [output])
  {
    hide Tally, Balanced, Reduce, SlotOk;
  }

  /** A caller whose entity has no slot is told what it then interprets itself. */
  lemma AbsentAnswersAreInterpreted<I, C, E, L>(d: Directory<I, C, E, L>, j: nat)
    requires Inv(d) && Enabled(d, Step(j)) && d.ops[j].Lookup? && d.ops[j].entity !in d.entries
    ensures
      var t, op := Apply(d, Step(j)), d.ops[j];
      && t.replies[j].Some? && t.replies[j].value.Installed?
      && t.replies[j].value.output == Transition(EntitySlot.Inactive, op.event).0
      && t.replies[j].value.output.activationId == None
      && t.ops[j] == Transient(op.entity, t.replies[j].value.output.effects)
  {
    hide Tally, Balanced, SlotOk;
    assert OpOk(d, d.ops[j]);
  }
}
