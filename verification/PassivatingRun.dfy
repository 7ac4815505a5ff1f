/** A run in which a passivation is answered that one is in progress although the incarnation it
    observed is gone: the one in progress is a later incarnation's. */
module PassivatingRun {
  import opened Common
  import opened Lifecycle
  import opened Evidence
  import opened Ledger
  import opened Runtime
  import opened RuntimeLedger
  import opened RuntimeFacts
  import opened Passivating
  import D = Directory
  import X = Linearized

  function Steps<I, C, E, L>(j: nat, n: nat): seq<Action<I, C, E, L>> {
    if n == 0 then [] else [DirectoryStep(j)] + Steps(j, n - 1)
  }

  // ----- one operation undisturbed to its end -----

  /** The tasks an output's effects spawn. */
  function Spawned<I, C, E, L>(entity: I, effects: seq<SlotEffect<PendingCommand<C>, E, L>>): seq<Task<I, C, E, L>> {
    if effects == [] then []
    else
      match effects[0]
      case StartActivation(g) => [Activate(entity, g)]
      case Deliver(g, d, endpoint, pending) => [DeliverOne(entity, g, d, endpoint, pending)]
      case EnqueueFence(g, endpoint) => [AwaitFence(entity, g, endpoint)]
      case Retire(g, lease, retirement) => [AwaitTermination(entity, g, lease, retirement)]
      case _ => []
  }

  /** Operation `j` is about to dispatch one output with at most one effect, and nobody else does. */
  ghost predicate Undisturbed<I, C, E, L>(r: Runtime<I, C, E, L>, j: nat, output: LifecycleOutput<PendingCommand<C>, E, L>) {
    && D.Inv(r.dir) && j < |r.dir.ops| && r.dir.ops[j].Interpret? && r.dir.ops[j].slot < |r.dir.slots|
    && r.dir.slots[r.dir.ops[j].slot].executor.dispatch.Idle?
    && r.dir.slots[r.dir.ops[j].slot].executor.outputs == [output] && |output.effects| <= 1
    && (output.effects != [] ==> !output.effects[0].Reject?)
  }

  /** The runtime with slot `k` and operation `j` as given. */
  function With<I, C, E, L>(
      r: Runtime<I, C, E, L>, k: nat, outputs: seq<LifecycleOutput<PendingCommand<C>, E, L>>, dispatch: X.DispatchState,
      j: nat, op: D.Op<I, PendingCommand<C>, E, L>): Runtime<I, C, E, L>
    requires k < |r.dir.slots| && j < |r.dir.ops|
  {
    var slot := r.dir.slots[k];
    r.(dir := r.dir.(
      slots := r.dir.slots[k := slot.(executor := slot.executor.(outputs := outputs, dispatch := dispatch))],
      ops := r.dir.ops[j := op]))
  }

  /** Interpreting the one effect of slot `k`. */
  function Interpreted<I(==), C, E, L>(
      r: Runtime<I, C, E, L>, k: nat, entity: I, effects: seq<SlotEffect<PendingCommand<C>, E, L>>): Runtime<I, C, E, L>
    requires k < |r.dir.slots|
  {
    var spawned := r.(tasks := r.tasks + Spawned(entity, effects));
    if effects != [] && effects[0].Remove? then
      spawned.(dir := r.dir.(
        entries := r.dir.entries - {entity}, slots := r.dir.slots[k := r.dir.slots[k].(removed := true)]))
    else spawned
  }

  lemma AcquireSection<I, C, E, L>(r: Runtime<I, C, E, L>, j: nat, output: LifecycleOutput<PendingCommand<C>, E, L>)
    requires Undisturbed(r, j, output)
    ensures
      var op := r.dir.ops[j];
      Enabled(r, DirectoryStep(j))
      && Apply(r, DirectoryStep(j)) == With(r, op.slot, [output], X.Dispatching, j, D.Owning(op.entity, op.slot, []))
  {
    hide D.SlotOk, D.Balanced, D.OpOk;
  }

  lemma NextSection<I, C, E, L>(
      r: Runtime<I, C, E, L>, k: nat, entity: I, output: LifecycleOutput<PendingCommand<C>, E, L>, j: nat)
    requires k < |r.dir.slots| && j < |r.dir.ops| == |r.dir.replies| && 1 <= r.dir.nextActivation <= MAX_U64
    ensures
      var before := With(r, k, [output], X.Dispatching, j, D.Owning(entity, k, []));
      Enabled(before, DirectoryStep(j))
      && Apply(before, DirectoryStep(j)) == With(r, k, [], X.Dispatching, j, D.Owning(entity, k, output.effects))
  {
    var before := With(r, k, [output], X.Dispatching, j, D.Owning(entity, k, []));
    assert [output][1..] == [];
    var t, u := Apply(before, DirectoryStep(j)), With(r, k, [], X.Dispatching, j, D.Owning(entity, k, output.effects));
    assert t.dir.slots == u.dir.slots && t.dir.ops == u.dir.ops && t.settled == u.settled;
  }

  lemma ReleaseSection<I, C, E, L>(r: Runtime<I, C, E, L>, k: nat, entity: I, j: nat)
    requires k < |r.dir.slots| && j < |r.dir.ops| == |r.dir.replies| && 1 <= r.dir.nextActivation <= MAX_U64
    ensures
      var before := With(r, k, [], X.Dispatching, j, D.Owning(entity, k, []));
      Enabled(before, DirectoryStep(j))
      && Apply(before, DirectoryStep(j)) == With(r, k, [], X.Idle, j, D.Done)
  {}

  lemma EffectSection<I, C, E, L>(
      r: Runtime<I, C, E, L>, k: nat, entity: I, effect: SlotEffect<PendingCommand<C>, E, L>, j: nat)
    requires k < |r.dir.slots| && j < |r.dir.ops| == |r.dir.replies| && 1 <= r.dir.nextActivation <= MAX_U64
    requires entity in r.dir.entries && r.dir.entries[entity] == k && !effect.Reject?
    ensures
      var before := With(r, k, [], X.Dispatching, j, D.Owning(entity, k, [effect]));
      Enabled(before, DirectoryStep(j))
      && Apply(before, DirectoryStep(j))
         == With(Interpreted(r, k, entity, [effect]), k, [], X.Dispatching, j, D.Owning(entity, k, []))
  {
    var before := With(r, k, [], X.Dispatching, j, D.Owning(entity, k, [effect]));
    assert [effect][1..] == [];
    var t := Apply(before, DirectoryStep(j));
    var u := With(Interpreted(r, k, entity, [effect]), k, [], X.Dispatching, j, D.Owning(entity, k, []));
    assert t.dir.slots == u.dir.slots && t.dir.ops == u.dir.ops && t.settled == u.settled && t.tasks == u.tasks;
  }

  lemma StepThen<I, C, E, L>(r: Runtime<I, C, E, L>, j: nat, n: nat)
    requires n > 0 && Enabled(r, DirectoryStep(j)) && ValidRun(Apply(r, DirectoryStep(j)), Steps(j, n - 1))
    ensures ValidRun(r, Steps(j, n)) && After(r, Steps(j, n)) == After(Apply(r, DirectoryStep(j)), Steps(j, n - 1))
  {
    hide Apply, Enabled;
    var run: seq<Action<I, C, E, L>> := Steps(j, n);
    assert run[0] == DirectoryStep(j) && run[1..] == Steps(j, n - 1);
  }

  /** Undisturbed, the operation takes dispatch, interprets the output, and lets go. */
  lemma Dispatches<I, C, E, L>(r: Runtime<I, C, E, L>, j: nat, output: LifecycleOutput<PendingCommand<C>, E, L>)
    requires Undisturbed(r, j, output)
    requires r.dir.ops[j].entity in r.dir.entries && r.dir.entries[r.dir.ops[j].entity] == r.dir.ops[j].slot
    ensures
      var op := r.dir.ops[j];
      var run: seq<Action<I, C, E, L>> := Steps(j, 3 + |output.effects|);
      ValidRun(r, run)
      && After(r, run) == With(Interpreted(r, op.slot, op.entity, output.effects), op.slot, [], X.Idle, j, D.Done)
  {
    hide Apply, Enabled, With, Interpreted;
    var op, k, entity, n := r.dir.ops[j], r.dir.ops[j].slot, r.dir.ops[j].entity, |output.effects|;
    var interpreted := Interpreted(r, k, entity, output.effects);
    InterpretedShape(r, k, entity, output.effects);
    AcquireSection(r, j, output);
    NextSection(r, k, entity, output, j);
    ReleaseSection(interpreted, k, entity, j);
    hide D.Inv;
    var acquired := With(r, k, [output], X.Dispatching, j, D.Owning(entity, k, []));
    var popped := With(r, k, [], X.Dispatching, j, D.Owning(entity, k, output.effects));
    var emptied := With(interpreted, k, [], X.Dispatching, j, D.Owning(entity, k, []));
    StepThen(emptied, j, 1);
    if n == 1 {
      assert output.effects == [output.effects[0]];
      EffectSection(r, k, entity, output.effects[0], j);
      StepThen(popped, j, 2);
    }
    StepThen(acquired, j, 2 + n);
    StepThen(r, j, 3 + n);
  }

  lemma InterpretedShape<I, C, E, L>(r: Runtime<I, C, E, L>, k: nat, entity: I, effects: seq<SlotEffect<PendingCommand<C>, E, L>>)
    requires k < |r.dir.slots|
    ensures
      var t := Interpreted(r, k, entity, effects);
      && |t.dir.slots| == |r.dir.slots| && t.dir.ops == r.dir.ops && t.dir.replies == r.dir.replies
      && t.dir.nextActivation == r.dir.nextActivation && (effects == [] ==> t == r)
  {}

  // ----- quiet states of one entity -----

  /** Entity `entity` is mapped to slot `k`, the latest one, in the given state with nothing
      queued; `ops` and `tasks` are all there is. */
  ghost predicate Quiet<I, C(!new), E, L(!new)>(
      r: Runtime<I, C, E, L>, entity: I, k: nat, state: EntitySlot<PendingCommand<C>, E, L>,
      ops: seq<D.Op<I, PendingCommand<C>, E, L>>, tasks: seq<Task<I, C, E, L>>, dispatches: nat)
  {
    && Inv(r) && r.dir.entries == map[entity := k] && |r.dir.slots| == k + 1
    && r.dir.slots[k].State() == state && r.dir.slots[k].executor.dispatch.Idle? && r.dir.slots[k].executor.outputs == []
    && r.dir.ops == ops && r.tasks == tasks && r.dir.nextDispatch == dispatches
  }

  /** No entity is mapped, after `slots` slots. */
  ghost predicate Empty<I, C(!new), E, L(!new)>(
      r: Runtime<I, C, E, L>, slots: nat, ops: seq<D.Op<I, PendingCommand<C>, E, L>>, tasks: seq<Task<I, C, E, L>>, dispatches: nat)
  {
    && Inv(r) && r.dir.entries == map[] && |r.dir.slots| == slots
    && r.dir.ops == ops && r.tasks == tasks && r.dir.nextDispatch == dispatches
  }

  /** The decision requests at most one effect, which spawns a task or removes the slot. */
  predicate Simple<C, E, L>(effects: seq<SlotEffect<C, E, L>>) {
    |effects| <= 1 && (effects != [] ==> !effects[0].Reject?)
  }

  lemma HoldSection<I, C(!new), E, L(!new)>(r: Runtime<I, C, E, L>, j: nat)
    requires D.Inv(r.dir) && j < |r.dir.ops| && r.dir.ops[j].Lookup? && r.dir.ops[j].entity in r.dir.entries
    ensures
      var op := r.dir.ops[j];
      Enabled(r, DirectoryStep(j))
      && Apply(r, DirectoryStep(j))
         == r.(dir := r.dir.(ops := r.dir.ops[j := D.Holding(op.entity, r.dir.entries[op.entity], op.event)]))
  {
    hide D.SlotOk, D.Balanced, D.OpOk, Transition;
    assert r.settled + [] == r.settled;
  }

  lemma SubmitSection<I, C(!new), E, L(!new)>(r: Runtime<I, C, E, L>, j: nat)
    requires D.Inv(r.dir) && j < |r.dir.ops| && r.dir.ops[j].Holding? && !r.dir.ops[j].event.CancelWaiter?
    ensures
      var op := r.dir.ops[j];
      Enabled(r, DirectoryStep(j)) && Apply(r, DirectoryStep(j)) == r.(dir := D.StepSubmit(r.dir, j))
  {
    assert D.OpOk(r.dir, r.dir.ops[j]);
    hide D.SlotOk, D.Balanced, D.OpOk, Transition;
    assert r.settled + [] == r.settled;
  }

  /** After looking its slot up and submitting, the operation has one output to dispatch. */
  lemma Submits<I, C(!new), E, L(!new)>(
      r: Runtime<I, C, E, L>, entity: I, k: nat, state: EntitySlot<PendingCommand<C>, E, L>,
      ops: seq<D.Op<I, PendingCommand<C>, E, L>>, tasks: seq<Task<I, C, E, L>>, dispatches: nat,
      j: nat, event: SlotEvent<PendingCommand<C>, E, L>)
    requires Quiet(r, entity, k, state, ops, tasks, dispatches)
    requires j < |ops| && ops[j] == D.Lookup(entity, event) && !event.CancelWaiter?
    requires Simple(Transition(state, event).0.effects)
    ensures Enabled(r, DirectoryStep(j)) && Enabled(Apply(r, DirectoryStep(j)), DirectoryStep(j))
    ensures
      var s := Apply(Apply(r, DirectoryStep(j)), DirectoryStep(j));
      && Inv(s) && Undisturbed(s, j, Transition(state, event).0) && s.dir.entries == r.dir.entries
      && |s.dir.slots| == k + 1 && s.dir.slots[k].State() == Transition(state, event).1
      && s.dir.ops == ops[j := D.Interpret(entity, k)] && s.tasks == tasks && s.dir.nextDispatch == dispatches
  {
    hide AllRouted, Balanced, Transition, D.SlotOk, D.Balanced, D.OpOk;
    var held := Apply(r, DirectoryStep(j));
    HoldSection(r, j);
    ActionKeepsInv(r, DirectoryStep(j));
    SubmitSection(held, j);
    ActionKeepsInv(held, DirectoryStep(j));
    SubmittedShape(held, j);
    hide Apply, Enabled;
  }

  /** An operation that looks a fact up, undisturbed: the fact is decided and its effect interpreted. */
  lemma HandlesFact<I, C(!new), E, L(!new)>(
      r: Runtime<I, C, E, L>, entity: I, k: nat, state: EntitySlot<PendingCommand<C>, E, L>,
      ops: seq<D.Op<I, PendingCommand<C>, E, L>>, tasks: seq<Task<I, C, E, L>>, dispatches: nat,
      j: nat, event: SlotEvent<PendingCommand<C>, E, L>)
    requires Quiet(r, entity, k, state, ops, tasks, dispatches)
    requires j < |ops| && ops[j] == D.Lookup(entity, event) && !event.CancelWaiter?
    requires Simple(Reduce(state, event).effects)
    ensures
      var decision := Reduce(state, event);
      var run: seq<Action<I, C, E, L>> := Steps(j, 5 + |decision.effects|);
      ValidRun(r, run)
      && var t := After(r, run);
         if decision.effects != [] && decision.effects[0].Remove?
         then Empty(t, k + 1, ops[j := D.Done], tasks, dispatches)
         else Quiet(t, entity, k, decision.state, ops[j := D.Done], tasks + Spawned(entity, decision.effects), dispatches)
  {
    hide Inv, Reduce, Apply, Enabled, ValidRun, After, Steps, Undisturbed, With, Interpreted;
    var output := Transition(state, event).0;
    var n := |output.effects|;
    assert output.effects == Reduce(state, event).effects && Transition(state, event).1 == Reduce(state, event).state;
    hide Transition;
    Submits(r, entity, k, state, ops, tasks, dispatches, j, event);
    var held := Apply(r, DirectoryStep(j));
    var submitted := Apply(held, DirectoryStep(j));
    Dispatches(submitted, j, output);
    StepThen(held, j, 4 + n);
    StepThen(r, j, 5 + n);
    RunKeepsInv(r, Steps(j, 5 + n));
    HandledShape(submitted, entity, k, j, output);
    assert tasks + [] == tasks;
    assert ops[j := D.Interpret(entity, k)][j := D.Done] == ops[j := D.Done];
  }

  lemma SubmittedShape<I, C, E, L>(r: Runtime<I, C, E, L>, j: nat)
    requires D.Enabled(r.dir, D.Step(j)) && r.dir.ops[j].Holding? && r.dir.slots[r.dir.ops[j].slot].executor.outputs == []
    ensures
      var op, t := r.dir.ops[j], D.StepSubmit(r.dir, j);
      var (output, next) := Transition(r.dir.slots[op.slot].State(), op.event);
      && t.ops[j] == D.Interpret(op.entity, op.slot) && |t.slots| == |r.dir.slots|
      && t.slots[op.slot].executor.outputs == [output] && t.slots[op.slot].State() == next
      && t.slots[op.slot].executor.dispatch == r.dir.slots[op.slot].executor.dispatch
  {
    hide Transition;
  }

  lemma HandledShape<I, C, E, L>(
      r: Runtime<I, C, E, L>, entity: I, k: nat, j: nat, output: LifecycleOutput<PendingCommand<C>, E, L>)
    requires k < |r.dir.slots| && j < |r.dir.ops|
    ensures
      var t := With(Interpreted(r, k, entity, output.effects), k, [], X.Idle, j, D.Done);
      && |t.dir.slots| == |r.dir.slots| && t.dir.slots[k].State() == r.dir.slots[k].State()
      && t.dir.slots[k].executor.dispatch.Idle? && t.dir.slots[k].executor.outputs == []
      && t.dir.ops == r.dir.ops[j := D.Done] && t.tasks == r.tasks + Spawned(entity, output.effects)
      && t.dir.nextDispatch == r.dir.nextDispatch
      && t.dir.entries == if output.effects != [] && output.effects[0].Remove? then r.dir.entries - {entity} else r.dir.entries
  {}

  // ----- calls and task completions, each undisturbed to its end -----

  lemma FinishCalls<I, C(!new), E, L(!new)>(
      r: Runtime<I, C, E, L>, entity: I, k: nat, state: EntitySlot<PendingCommand<C>, E, L>,
      ops: seq<D.Op<I, PendingCommand<C>, E, L>>, tasks: seq<Task<I, C, E, L>>, dispatches: nat, i: nat, answer: Answer<E, L>)
    requires Quiet(r, entity, k, state, ops, tasks, dispatches)
    requires i < |tasks| && Answers(tasks[i], answer) && tasks[i].entity == entity
    ensures Enabled(r, Finish(i, answer))
    ensures
      Quiet(Apply(r, Finish(i, answer)), entity, k, state, ops + [D.Lookup(entity, Fact(tasks[i], answer))],
        tasks[i := Finished], dispatches)
  {
    hide AllRouted, Balanced, D.Inv;
    ActionKeepsInv(r, Finish(i, answer));
    hide Inv;
  }

  function FinishRun<I, C, E, L>(i: nat, answer: Answer<E, L>, j: nat, effects: nat): seq<Action<I, C, E, L>> {
    [Finish(i, answer)] + Steps(j, 5 + effects)
  }

  lemma FinishHandled<I, C(!new), E, L(!new)>(
      r: Runtime<I, C, E, L>, entity: I, k: nat, state: EntitySlot<PendingCommand<C>, E, L>,
      ops: seq<D.Op<I, PendingCommand<C>, E, L>>, tasks: seq<Task<I, C, E, L>>, dispatches: nat, i: nat, answer: Answer<E, L>)
    requires Quiet(r, entity, k, state, ops, tasks, dispatches)
    requires i < |tasks| && Answers(tasks[i], answer) && tasks[i].entity == entity
    requires Simple(Reduce(state, Fact(tasks[i], answer)).effects)
    ensures
      var decision := Reduce(state, Fact(tasks[i], answer));
      var run: seq<Action<I, C, E, L>> := FinishRun(i, answer, |ops|, |decision.effects|);
      ValidRun(r, run)
      && var t := After(r, run);
         if decision.effects != [] && decision.effects[0].Remove?
         then Empty(t, k + 1, ops + [D.Done], tasks[i := Finished], dispatches)
         else Quiet(t, entity, k, decision.state, ops + [D.Done],
                tasks[i := Finished] + Spawned(entity, decision.effects), dispatches)
  {
    hide Quiet, Empty, Reduce, Apply, Enabled;
    FinishCalls(r, entity, k, state, ops, tasks, dispatches, i, answer);
    var event := Fact(tasks[i], answer);
    var longer := ops + [D.Lookup(entity, event)];
    var rest: seq<Action<I, C, E, L>> := Steps(|ops|, 5 + |Reduce(state, event).effects|);
    HandlesFact(Apply(r, Finish(i, answer)), entity, k, state, longer, tasks[i := Finished], dispatches, |ops|, event);
    assert longer[|ops| := D.Done] == ops + [D.Done];
    assert ([Finish(i, answer)] + rest)[1..] == rest;
  }

  lemma PassivateCalls<I, C(!new), E, L(!new)>(
      r: Runtime<I, C, E, L>, entity: I, k: nat, state: EntitySlot<PendingCommand<C>, E, L>,
      ops: seq<D.Op<I, PendingCommand<C>, E, L>>, tasks: seq<Task<I, C, E, L>>, dispatches: nat)
    requires Quiet(r, entity, k, state, ops, tasks, dispatches) && !state.Inactive?
    ensures ValidRun(r, [Passivate(entity)])
    ensures
      Quiet(After(r, [Passivate(entity)]), entity, k, state,
        ops + [D.Lookup(entity, SlotEvent.BeginDrain(state.activationId))], tasks, dispatches)
  {
    hide AllRouted, Balanced, D.SlotOk, D.Balanced, D.OpOk;
    D.CurrentActivationIsCurrent(r.dir, entity);
    ActionKeepsInv(r, Passivate(entity));
    hide Inv;
    var run: seq<Action<I, C, E, L>> := [Passivate(entity)];
    assert run[1..] == [];
  }

  function PassivateRun<I, C, E, L>(entity: I, j: nat, effects: nat): seq<Action<I, C, E, L>> {
    [Passivate(entity)] + Steps(j, 5 + effects)
  }

  lemma PassivateHandled<I, C(!new), E, L(!new)>(
      r: Runtime<I, C, E, L>, entity: I, k: nat, state: EntitySlot<PendingCommand<C>, E, L>,
      ops: seq<D.Op<I, PendingCommand<C>, E, L>>, tasks: seq<Task<I, C, E, L>>, dispatches: nat)
    requires Quiet(r, entity, k, state, ops, tasks, dispatches) && state.Active?
    ensures
      var decision := Reduce(state, SlotEvent.BeginDrain(state.activationId));
      var run: seq<Action<I, C, E, L>> := PassivateRun(entity, |ops|, |decision.effects|);
      ValidRun(r, run)
      && Quiet(After(r, run), entity, k, decision.state, ops + [D.Done], tasks + Spawned(entity, decision.effects), dispatches)
  {
    hide Quiet, Empty, Apply, Enabled;
    PassivateCalls(r, entity, k, state, ops, tasks, dispatches);
    var event := SlotEvent<PendingCommand<C>, E, L>.BeginDrain(state.activationId);
    var longer := ops + [D.Lookup(entity, event)];
    var rest: seq<Action<I, C, E, L>> := Steps(|ops|, 5 + |Reduce(state, event).effects|);
    HandlesFact(After(r, [Passivate(entity)]), entity, k, state, longer, tasks, dispatches, |ops|, event);
    assert longer[|ops| := D.Done] == ops + [D.Done];
    RunsCompose(r, [Passivate(entity)], rest);
  }

  lemma DispatchCalls<I, C(!new), E, L(!new)>(
      r: Runtime<I, C, E, L>, entity: I, command: C, slots: nat,
      ops: seq<D.Op<I, PendingCommand<C>, E, L>>, tasks: seq<Task<I, C, E, L>>, dispatches: Identity)
    requires Empty(r, slots, ops, tasks, dispatches) && dispatches < MAX_U64
    ensures Enabled(r, Action.Dispatch(entity, command))
    ensures Apply(r, Action.Dispatch(entity, command)).dir.waiterLimit == r.dir.waiterLimit
    ensures
      Empty(Apply(r, Action.Dispatch(entity, command)), slots,
        ops + [D.DispatchLookup(entity, dispatches, PendingCommand(command, dispatches))], tasks, dispatches + 1)
  {
    hide AllRouted, Balanced, D.Inv;
    ActionKeepsInv(r, Action.Dispatch(entity, command));
    hide Inv;
  }

  /** The claim of an absent entity, undisturbed: the slot activates, and its activation is started. */
  lemma ClaimHandled<I, C(!new), E, L(!new)>(
      r: Runtime<I, C, E, L>, entity: I, slots: nat, ops: seq<D.Op<I, PendingCommand<C>, E, L>>,
      tasks: seq<Task<I, C, E, L>>, dispatches: nat, j: nat, d: Identity, pending: PendingCommand<C>)
    requires Empty(r, slots, ops, tasks, dispatches) && slots + 1 < MAX_U64
    requires j < |ops| && ops[j] == D.DispatchLookup(entity, d, pending)
    ensures
      var run: seq<Action<I, C, E, L>> := Steps(j, 5);
      ValidRun(r, run)
      && Quiet(After(r, run), entity, slots, EntitySlot.Activating(slots + 1, [Waiter(d, pending)], r.dir.waiterLimit),
           ops[j := D.Done], tasks + [Activate(entity, slots + 1)], dispatches)
  {
    hide Inv, Reduce, Apply, Enabled, ValidRun, After, Steps, Undisturbed, With, Interpreted, Transition;
    ClaimSection(r, entity, slots, ops, tasks, dispatches, j, d, pending);
    var claimed := Apply(r, DirectoryStep(j));
    var output := Transition(EntitySlot<PendingCommand<C>, E, L>.Inactive,
      SlotEvent.ClaimActivation(slots + 1, d, pending, r.dir.waiterLimit)).0;
    Dispatches(claimed, j, output);
    StepThen(r, j, 5);
    RunKeepsInv(r, Steps(j, 5));
    HandledShape(claimed, entity, slots, j, output);
    assert ops[j := D.Interpret(entity, slots)][j := D.Done] == ops[j := D.Done];
  }

  lemma ClaimSection<I, C(!new), E, L(!new)>(
      r: Runtime<I, C, E, L>, entity: I, slots: nat, ops: seq<D.Op<I, PendingCommand<C>, E, L>>,
      tasks: seq<Task<I, C, E, L>>, dispatches: nat, j: nat, d: Identity, pending: PendingCommand<C>)
    requires Empty(r, slots, ops, tasks, dispatches) && slots + 1 < MAX_U64
    requires j < |ops| && ops[j] == D.DispatchLookup(entity, d, pending)
    ensures Enabled(r, DirectoryStep(j))
    ensures
      var t := Apply(r, DirectoryStep(j));
      var claim := SlotEvent.ClaimActivation(slots + 1, d, pending, r.dir.waiterLimit);
      var output := Transition(EntitySlot<PendingCommand<C>, E, L>.Inactive, claim).0;
      && Inv(t) && Undisturbed(t, j, output) && output.effects == [StartActivation(slots + 1)]
      && t.dir.entries == map[entity := slots] && |t.dir.slots| == slots + 1
      && t.dir.slots[slots].State() == EntitySlot.Activating(slots + 1, [Waiter(d, pending)], r.dir.waiterLimit)
      && t.dir.ops == ops[j := D.Interpret(entity, slots)] && t.tasks == tasks && t.dir.nextDispatch == dispatches
  {
    hide AllRouted, Balanced, D.SlotOk, D.Balanced, D.OpOk, Transition;
    D.ClaimFacts<PendingCommand<C>, E, L>(slots + 1, d, pending, r.dir.waiterLimit);
    ActionKeepsInv(r, DirectoryStep(j));
  }

  function DispatchRun<I, C, E, L>(entity: I, command: C, j: nat): seq<Action<I, C, E, L>> {
    [Action.Dispatch(entity, command)] + Steps(j, 5)
  }

  lemma DispatchHandled<I, C(!new), E, L(!new)>(
      r: Runtime<I, C, E, L>, entity: I, command: C, slots: nat,
      ops: seq<D.Op<I, PendingCommand<C>, E, L>>, tasks: seq<Task<I, C, E, L>>, dispatches: Identity)
    requires Empty(r, slots, ops, tasks, dispatches) && dispatches < MAX_U64 && slots + 1 < MAX_U64
    ensures
      var run: seq<Action<I, C, E, L>> := DispatchRun(entity, command, |ops|);
      ValidRun(r, run)
      && Quiet(After(r, run), entity, slots,
           EntitySlot.Activating(slots + 1, [Waiter(dispatches, PendingCommand(command, dispatches))], r.dir.waiterLimit),
           ops + [D.Done], tasks + [Activate(entity, slots + 1)], dispatches + 1)
  {
    hide Quiet, Empty, Apply, Enabled;
    DispatchCalls(r, entity, command, slots, ops, tasks, dispatches);
    var pending := PendingCommand(command, dispatches);
    var longer := ops + [D.DispatchLookup(entity, dispatches, pending)];
    var rest: seq<Action<I, C, E, L>> := Steps(|ops|, 5);
    ClaimHandled(Apply(r, Action.Dispatch(entity, command)), entity, slots, longer, tasks, dispatches + 1, |ops|, dispatches, pending);
    assert longer[|ops| := D.Done] == ops + [D.Done];
    assert ([Action.Dispatch(entity, command)] + rest)[1..] == rest;
  }

  // ----- the run -----

  function Waiting<I, C, E, L>(entity: I): D.Op<I, PendingCommand<C>, E, L> {
    D.Lookup(entity, SlotEvent.BeginDrain(1))
  }

  /** The decisions of one incarnation with a single waiter. */
  lemma LifeDecisions<C, E, L>(g: Identity, d: Identity, command: C, limit: Positive, endpoint: E, lease: L)
    ensures
      Reduce(EntitySlot<C, E, L>.Activating(g, [Waiter(d, command)], limit), SlotEvent.ActivationSucceeded(g, endpoint, lease))
      == Decision(EntitySlot.Active(g, endpoint, lease, Pending(1)), [Deliver(g, d, endpoint, command)])
    ensures
      Reduce(EntitySlot<C, E, L>.Active(g, endpoint, lease, Pending(1)), SlotEvent.DeliveryResolved(g, None))
      == Decision(EntitySlot.Active(g, endpoint, lease, Drained), [])
    ensures
      Reduce(EntitySlot<C, E, L>.Active(g, endpoint, lease, Drained), SlotEvent.BeginDrain(g))
      == Decision(EntitySlot.Draining(g, endpoint, lease, AwaitingFence), [EnqueueFence(g, endpoint)])
    ensures
      Reduce(EntitySlot<C, E, L>.Active(g, endpoint, lease, Pending(1)), SlotEvent.BeginDrain(g))
      == Decision(EntitySlot.Draining(g, endpoint, lease, AwaitingReservations(1)), [])
    ensures
      Reduce(EntitySlot<C, E, L>.Draining(g, endpoint, lease, AwaitingFence), SlotEvent.FenceAcknowledged(g))
      == Decision(EntitySlot.Retiring(g), [Retire(g, lease, Graceful)])
    ensures
      Reduce(EntitySlot<C, E, L>.Retiring(g), SlotEvent.Terminated(g)) == Decision(EntitySlot.Inactive, [Remove(g)])
  {}

  /** The claimed activation commits. */
  function Committed<I, C, E, L>(entity: I, command: C, endpoint: E, lease: L): seq<Action<I, C, E, L>> {
    DispatchRun(entity, command, 0) + FinishRun(0, Activated(endpoint, lease), 1, 1)
  }

  lemma CommittedQuiet<I, C(!new), E, L(!new)>(limit: Positive, entity: I, command: C, endpoint: E, lease: L)
    ensures
      var run := Committed(entity, command, endpoint, lease);
      ValidRun(Start(limit), run)
      && Quiet(After(Start(limit), run), entity, 0, EntitySlot.Active(1, endpoint, lease, Pending(1)),
           [D.Done, D.Done], [Finished, DeliverOne(entity, 1, 1, endpoint, PendingCommand(command, 1))], 2)
  {
    hide Quiet, Empty, Apply, Enabled, ValidRun, After, DispatchRun, FinishRun, Reduce;
    var r0 := Start<I, C, E, L>(limit);
    var pending := PendingCommand(command, 1);
    var done: D.Op<I, PendingCommand<C>, E, L> := D.Done;
    var activate: Task<I, C, E, L> := Activate(entity, 1);
    var deliver: Task<I, C, E, L> := DeliverOne(entity, 1, 1, endpoint, pending);
    LifeDecisions(1, 1, pending, limit, endpoint, lease);
    StartEmpty<I, C, E, L>(limit);

    var a: seq<Action<I, C, E, L>> := DispatchRun(entity, command, 0);
    DispatchHandled(r0, entity, command, 0, [], [], 1);
    assert [] + [done] == [done] && [] + [activate] == [activate];

    var b: seq<Action<I, C, E, L>> := FinishRun(0, Activated(endpoint, lease), 1, 1);
    FinishHandled(After(r0, a), entity, 0, EntitySlot.Activating(1, [Waiter(1, pending)], limit),
      [done], [activate], 2, 0, Activated(endpoint, lease));
    RunsCompose(r0, a, b);
    assert [done] + [done] == [done, done] && [activate][0 := Finished] + [deliver] == [Finished, deliver];
  }

  /** Its one command is delivered, and a passivation observes it. */
  function Observed<I, C, E, L>(entity: I): seq<Action<I, C, E, L>> {
    FinishRun(1, DeliveryOk, 2, 0) + [Passivate(entity)]
  }

  lemma ObservedQuiet<I, C(!new), E, L(!new)>(r: Runtime<I, C, E, L>, entity: I, command: C, endpoint: E, lease: L)
    requires
      Quiet(r, entity, 0, EntitySlot.Active(1, endpoint, lease, Pending(1)),
        [D.Done, D.Done], [Finished, DeliverOne(entity, 1, 1, endpoint, PendingCommand(command, 1))], 2)
    ensures
      var run: seq<Action<I, C, E, L>> := Observed(entity);
      ValidRun(r, run)
      && Quiet(After(r, run), entity, 0, EntitySlot.Active(1, endpoint, lease, Drained),
           [D.Done, D.Done, D.Done, Waiting(entity)], [Finished, Finished], 2)
  {
    hide Quiet, Empty, Apply, Enabled, ValidRun, After, FinishRun, Reduce;
    var pending := PendingCommand(command, 1);
    var done: D.Op<I, PendingCommand<C>, E, L> := D.Done;
    var deliver: Task<I, C, E, L> := DeliverOne(entity, 1, 1, endpoint, pending);
    LifeDecisions(1, 1, pending, 1, endpoint, lease);

    var a: seq<Action<I, C, E, L>> := FinishRun(1, DeliveryOk, 2, 0);
    FinishHandled(r, entity, 0, EntitySlot.Active(1, endpoint, lease, Pending(1)),
      [done, done], [Finished, deliver], 2, 1, DeliveryOk);
    assert [done, done] + [done] == [done, done, done];
    assert [Finished, deliver][1 := Finished] + Spawned(entity, []) == [Finished, Finished];

    PassivateCalls(After(r, a), entity, 0, EntitySlot.Active(1, endpoint, lease, Drained),
      [done, done, done], [Finished, Finished], 2);
    RunsCompose(r, a, [Passivate(entity)]);
    assert [done, done, done] + [Waiting(entity)] == [done, done, done, Waiting(entity)];
  }

  lemma StartEmpty<I, C(!new), E, L(!new)>(limit: Positive)
    ensures Empty(Start<I, C, E, L>(limit), 0, [], [], 1)
  {
    StartInv<I, C, E, L>(limit);
  }

  /** A second passivation drains the slot, which retires and is removed. */
  function FirstRetirement<I, C, E, L>(entity: I): seq<Action<I, C, E, L>> {
    PassivateRun(entity, 4, 1) + FinishRun(2, FenceOk, 5, 1) + FinishRun(3, Retired, 6, 1)
  }

  lemma RetiredEmpty<I, C(!new), E, L(!new)>(r: Runtime<I, C, E, L>, entity: I, command: C, endpoint: E, lease: L)
    requires
      Quiet(r, entity, 0, EntitySlot.Active(1, endpoint, lease, Drained),
        [D.Done, D.Done, D.Done, Waiting(entity)], [Finished, Finished], 2)
    ensures
      var run: seq<Action<I, C, E, L>> := FirstRetirement(entity);
      ValidRun(r, run)
      && Empty(After(r, run), 1, [D.Done, D.Done, D.Done, Waiting(entity), D.Done, D.Done, D.Done],
           [Finished, Finished, Finished, Finished], 2)
  {
    hide Quiet, Empty, Apply, Enabled, ValidRun, After, PassivateRun, FinishRun, Reduce;
    var done: D.Op<I, PendingCommand<C>, E, L> := D.Done;
    var w: D.Op<I, PendingCommand<C>, E, L> := Waiting(entity);
    var fence: Task<I, C, E, L> := AwaitFence(entity, 1, endpoint);
    var retire: Task<I, C, E, L> := AwaitTermination(entity, 1, lease, Graceful);
    LifeDecisions<PendingCommand<C>, E, L>(1, 1, PendingCommand(command, 1), 1, endpoint, lease);

    var a: seq<Action<I, C, E, L>> := PassivateRun(entity, 4, 1);
    PassivateHandled(r, entity, 0, EntitySlot.Active(1, endpoint, lease, Drained), [done, done, done, w], [Finished, Finished], 2);
    assert [done, done, done, w] + [done] == [done, done, done, w, done];
    assert [Finished, Finished] + [fence] == [Finished, Finished, fence];

    var b: seq<Action<I, C, E, L>> := FinishRun(2, FenceOk, 5, 1);
    FinishHandled(After(r, a), entity, 0, EntitySlot.Draining(1, endpoint, lease, AwaitingFence),
      [done, done, done, w, done], [Finished, Finished, fence], 2, 2, FenceOk);
    RunsCompose(r, a, b);
    assert [done, done, done, w, done] + [done] == [done, done, done, w, done, done];
    assert [Finished, Finished, fence][2 := Finished] + [retire] == [Finished, Finished, Finished, retire];

    var c: seq<Action<I, C, E, L>> := FinishRun(3, Retired, 6, 1);
    FinishHandled(After(r, a + b), entity, 0, EntitySlot.Retiring(1),
      [done, done, done, w, done, done], [Finished, Finished, Finished, retire], 2, 3, Retired);
    RunsCompose(r, a + b, c);
    assert [done, done, done, w, done, done] + [done] == [done, done, done, w, done, done, done];
    assert [Finished, Finished, Finished, retire][3 := Finished] == [Finished, Finished, Finished, Finished];
  }

  /** A second incarnation becomes active and drains with its delivery outstanding. */
  function SecondDrain<I, C, E, L>(entity: I, command: C, endpoint: E, lease: L): seq<Action<I, C, E, L>> {
    DispatchRun(entity, command, 7) + FinishRun(4, Activated(endpoint, lease), 8, 1) + PassivateRun(entity, 9, 0)
  }

  lemma DrainedQuiet<I, C(!new), E, L(!new)>(r: Runtime<I, C, E, L>, entity: I, command: C, endpoint: E, lease: L)
    requires
      Empty(r, 1, [D.Done, D.Done, D.Done, Waiting(entity), D.Done, D.Done, D.Done],
        [Finished, Finished, Finished, Finished], 2)
    ensures
      var run: seq<Action<I, C, E, L>> := SecondDrain(entity, command, endpoint, lease);
      ValidRun(r, run)
      && Quiet(After(r, run), entity, 1, EntitySlot.Draining(2, endpoint, lease, AwaitingReservations(1)),
           [D.Done, D.Done, D.Done, Waiting(entity), D.Done, D.Done, D.Done, D.Done, D.Done, D.Done],
           [Finished, Finished, Finished, Finished, Finished, DeliverOne(entity, 2, 2, endpoint, PendingCommand(command, 2))], 3)
  {
    hide Quiet, Empty, Apply, Enabled, ValidRun, After, DispatchRun, PassivateRun, FinishRun, Reduce;
    var done: D.Op<I, PendingCommand<C>, E, L> := D.Done;
    var w: D.Op<I, PendingCommand<C>, E, L> := Waiting(entity);
    var pending := PendingCommand(command, 2);
    var f: Task<I, C, E, L> := Finished;
    var activate: Task<I, C, E, L> := Activate(entity, 2);
    var deliver: Task<I, C, E, L> := DeliverOne(entity, 2, 2, endpoint, pending);
    LifeDecisions(2, 2, pending, r.dir.waiterLimit, endpoint, lease);

    var a: seq<Action<I, C, E, L>> := DispatchRun(entity, command, 7);
    DispatchHandled(r, entity, command, 1, [done, done, done, w, done, done, done], [f, f, f, f], 2);
    assert [done, done, done, w, done, done, done] + [done] == [done, done, done, w, done, done, done, done];
    assert [f, f, f, f] + [activate] == [f, f, f, f, activate];

    var b: seq<Action<I, C, E, L>> := FinishRun(4, Activated(endpoint, lease), 8, 1);
    FinishHandled(After(r, a), entity, 1, EntitySlot.Activating(2, [Waiter(2, pending)], r.dir.waiterLimit),
      [done, done, done, w, done, done, done, done], [f, f, f, f, activate], 3, 4, Activated(endpoint, lease));
    RunsCompose(r, a, b);
    assert [done, done, done, w, done, done, done, done] + [done] == [done, done, done, w, done, done, done, done, done];
    assert [f, f, f, f, activate][4 := Finished] + [deliver] == [f, f, f, f, f, deliver];

    PassivateHandled(After(r, a + b), entity, 1, EntitySlot.Active(2, endpoint, lease, Pending(1)),
      [done, done, done, w, done, done, done, done, done], [f, f, f, f, f, deliver], 3);
    RunsCompose(r, a + b, PassivateRun(entity, 9, 0));
    assert [done, done, done, w, done, done, done, done, done] + [done] == [done, done, done, w, done, done, done, done, done, done];
    assert [f, f, f, f, f, deliver] + Spawned(entity, []) == [f, f, f, f, f, deliver];
  }

  /** Passivate observes activation 1 and pauses; that incarnation drains, retires and is removed;
      a second dispatch claims activation 2, which becomes active and drains; then the paused call
      looks its slot up. */
  function SupersededRun<I, C, E, L>(entity: I, first: C, second: C, endpoint: E, lease: L): seq<Action<I, C, E, L>> {
    Committed(entity, first, endpoint, lease) + Observed(entity) + FirstRetirement(entity)
    + SecondDrain(entity, second, endpoint, lease) + [DirectoryStep(3)]
  }

  /** So a passivation of activation 1 can be answered that one is in progress while incarnation 1
      is gone and the one in progress is of activation 2. */
  lemma PassivationInProgressMayBeAnothers<I, C(!new), E, L(!new)>(
      limit: Positive, entity: I, first: C, second: C, endpoint: E, lease: L)
    ensures
      var run := SupersededRun(entity, first, second, endpoint, lease);
      ValidRun(Start(limit), run)
      && var dir := After(Start(limit), run).dir;
         && |dir.slots| == 2 && dir.slots[0].activationId == 1 && dir.slots[0].removed
         && dir.slots[1].State() == EntitySlot.Draining(2, endpoint, lease, AwaitingReservations(1))
         && D.Enabled(dir, D.Step(3)) && dir.ops[3] == D.Holding(entity, 1, SlotEvent.BeginDrain(1))
         && AnswerHeld(dir, 3) == AlreadyPassivating
  {
    hide Empty, ValidRun, After, Committed, Observed, FirstRetirement, SecondDrain, Inv, Apply, Enabled;
    var r0 := Start<I, C, E, L>(limit);
    var a: seq<Action<I, C, E, L>> := Committed(entity, first, endpoint, lease);
    var b: seq<Action<I, C, E, L>> := Observed(entity);
    var c: seq<Action<I, C, E, L>> := FirstRetirement(entity);
    var e: seq<Action<I, C, E, L>> := SecondDrain(entity, second, endpoint, lease);
    CommittedQuiet(limit, entity, first, endpoint, lease);
    ObservedQuiet(After(r0, a), entity, first, endpoint, lease);
    RunsCompose(r0, a, b);
    RetiredEmpty(After(r0, a + b), entity, first, endpoint, lease);
    RunsCompose(r0, a + b, c);
    DrainedQuiet(After(r0, a + b + c), entity, second, endpoint, lease);
    RunsCompose(r0, a + b + c, e);
    LastLookup(After(r0, a + b + c + e), entity, endpoint, lease);
    RunsCompose(r0, a + b + c + e, [DirectoryStep(3)]);
  }

  lemma LastLookup<I, C(!new), E, L(!new)>(r: Runtime<I, C, E, L>, entity: I, endpoint: E, lease: L)
    requires Inv(r) && r.dir.entries == map[entity := 1] && |r.dir.slots| == 2
    requires r.dir.slots[1].State() == EntitySlot.Draining(2, endpoint, lease, AwaitingReservations(1))
    requires 3 < |r.dir.ops| && r.dir.ops[3] == Waiting(entity)
    ensures
      ValidRun(r, [DirectoryStep(3)])
      && var dir := After(r, [DirectoryStep(3)]).dir;
         && dir.slots == r.dir.slots && dir.slots[0].activationId == 1 && dir.slots[0].removed
         && D.Enabled(dir, D.Step(3)) && dir.ops[3] == D.Holding(entity, 1, SlotEvent.BeginDrain(1))
         && AnswerHeld(dir, 3) == AlreadyPassivating
  {
    HoldSection(r, 3);
    assert D.SlotOk(r.dir, 0) && D.SlotOk(r.dir, 1);
    var run: seq<Action<I, C, E, L>> := [DirectoryStep(3)];
    assert run[1..] == [];
    AlreadyPassivatingIsPhaseOnly<PendingCommand<C>, E, L>(r.dir.slots[1].State(), 1);
    hide Inv, Transition;
  }
}
