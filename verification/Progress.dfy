/** Progress: once external calls stop, every schedule of effect interpretations and task
    completions ends, and what it leaves behind is fully settled. Effect callbacks are
    assumed not to panic and every spawned task to finish. */
module Progress {
  import opened Common
  import opened Lifecycle
  import opened Evidence
  import opened Ledger
  import opened SlotRuns
  import opened Runtime
  import opened RuntimeLedger
  import opened RuntimeFacts
  import opened CommandFate
  import D = Directory

  // ----- the work that is left -----

  ghost function EffectWork<C, E, L>(effect: SlotEffect<C, E, L>, unit: ()): nat {
    match effect
    case StartActivation(_) => 15
    case Deliver(_, _, _, _) => 23
    case Reject(_, _, _) => 1
    case EnqueueFence(_, _) => 15
    case Retire(_, _, _) => 8
    case Remove(_) => 1
  }

  ghost function Work<C, E, L>(effects: seq<SlotEffect<C, E, L>>): nat {
    Tally(effects, (EffectWork<C, E, L>), ())
  }

  ghost function EventWork<C, E, L>(event: SlotEvent<C, E, L>): nat {
    match event
    case ClaimActivation(_, _, _, _) => 43
    case Dispatch(_, _) => 28
    case CancelWaiter(_, _) => 4
    case ActivationSucceeded(_, _, _) => 12
    case ActivationFailed(_) => 5
    case DeliveryResolved(_, _) => 20
    case BeginDrain(_) => 19
    case FenceAcknowledged(_) => 12
    case ForceDrain(_, _) => 12
    case Terminated(_) => 5
  }

  ghost function OpWork<I, C, E, L>(op: D.Op<I, PendingCommand<C>, E, L>, unit: ()): nat {
    match op
    case DispatchLookup(_, _, _) => 43
    case Lookup(_, event) => EventWork(event) + 1
    case Holding(_, _, event) => EventWork(event)
    case Interpret(_, _) => 2
    case Owning(_, _, effects) => 1 + Work(effects)
    case Transient(_, effects) => 1 + Work(effects)
    case Done => 0
  }

  ghost function TaskWork<I, C, E, L>(task: Task<I, C, E, L>, unit: ()): nat {
    match task
    case Activate(_, _) => 14
    case DeliverOne(_, _, _, _, _) => 22
    case AwaitFence(_, _, _) => 14
    case AwaitTermination(_, _, _, _) => 7
    case Finished => 0
  }

  ghost function OutputWork<C, E, L>(output: LifecycleOutput<C, E, L>, unit: ()): nat {
    1 + Work(output.effects)
  }

  ghost function StateWork<C, E, L>(state: EntitySlot<C, E, L>): nat {
    if state.Activating? then 24 * |state.waiters| else 0
  }

  ghost function SlotWork<I, C, E, L>(slot: D.Slot<I, PendingCommand<C>, E, L>, unit: ()): nat {
    StateWork(slot.State()) + Tally(slot.executor.outputs, (OutputWork<PendingCommand<C>, E, L>), ())
  }

  /** The work left to do when nobody calls any more. */
  ghost function Measure<I, C, E, L>(r: Runtime<I, C, E, L>): nat {
    Tally(r.dir.ops, (OpWork<I, C, E, L>), ()) + Tally(r.tasks, (TaskWork<I, C, E, L>), ())
    + Tally(r.dir.slots, (SlotWork<I, C, E, L>), ())
  }

  // ----- one decision never creates more work than its event brought -----

  lemma ShortWork<C, E, L>(effects: seq<SlotEffect<C, E, L>>)
    requires |effects| <= 2
    ensures effects == [] ==> Work(effects) == 0
    ensures |effects| == 1 ==> Work(effects) == EffectWork(effects[0], ())
    ensures |effects| == 2 ==> Work(effects) == EffectWork(effects[0], ()) + EffectWork(effects[1], ())
  {
    if effects != [] {
      TallyFirst(effects, (EffectWork<C, E, L>), ());
      if |effects| == 2 {
        TallyFirst(effects[1..], (EffectWork<C, E, L>), ());
      }
    }
  }

  lemma {:induction false} UniformWork<C, E, L>(effects: seq<SlotEffect<C, E, L>>, w: nat)
    requires forall e <- effects :: EffectWork(e, ()) == w
    ensures Work(effects) == w * |effects|
  {
    if effects != [] {
      UniformWork(effects[..|effects| - 1], w);
    }
  }

  lemma ActivatingWork<C, E, L>(state: EntitySlot<C, E, L>, event: SlotEvent<C, E, L>)
    requires state.Activating?
    ensures var r := Reduce(state, event); StateWork(r.state) + Work(r.effects) + 4 <= StateWork(state) + EventWork(event)
  {
    hide Tally;
    var r := Reduce(state, event);
    match event {
      case ActivationSucceeded(g, _, _) =>
        if g == state.activationId {
          UniformWork(r.effects, 23);
        } else {
          ShortWork(r.effects);
        }
      case ActivationFailed(g) =>
        if g == state.activationId {
          UniformWork<C, E, L>(RejectAll(state.waiters), 1);
          TallyAppend(RejectAll(state.waiters), SlotEffect<C, E, L>.Remove(g), (EffectWork<C, E, L>), ());
        } else {
          ShortWork(r.effects);
        }
      case CancelWaiter(_, d) =>
        WithoutWaiterShrinks(state.waiters, d);
        ShortWork(r.effects);
      case _ => ShortWork(r.effects);
    }
  }

  lemma IdleWork<C, E, L>(state: EntitySlot<C, E, L>, event: SlotEvent<C, E, L>)
    requires state.Inactive? || state.Retiring?
    ensures var r := Reduce(state, event); StateWork(r.state) + Work(r.effects) + 4 <= StateWork(state) + EventWork(event)
  {
    ShortWork(Reduce(state, event).effects);
    hide Tally;
  }

  lemma ActiveWork<C, E, L>(state: EntitySlot<C, E, L>, event: SlotEvent<C, E, L>)
    requires state.Active?
    ensures var r := Reduce(state, event); StateWork(r.state) + Work(r.effects) + 4 <= StateWork(state) + EventWork(event)
  {
    ShortWork(Reduce(state, event).effects);
    hide Tally;
  }

  lemma DrainingWork<C, E, L>(state: EntitySlot<C, E, L>, event: SlotEvent<C, E, L>)
    requires state.Draining?
    ensures var r := Reduce(state, event); StateWork(r.state) + Work(r.effects) + 4 <= StateWork(state) + EventWork(event)
  {
    ShortWork(Reduce(state, event).effects);
    hide Tally;
  }

  lemma DecisionWork<C, E, L>(state: EntitySlot<C, E, L>, event: SlotEvent<C, E, L>)
    ensures
      var (output, next) := Transition(state, event);
      StateWork(next) + Work(output.effects) + 4 <= StateWork(state) + EventWork(event)
  {
    hide Reduce, Work, StateWork, EventWork;
    match state {
      case Activating(_, _, _) => ActivatingWork(state, event);
      case Active(_, _, _, _) => ActiveWork(state, event);
      case Draining(_, _, _, _) => DrainingWork(state, event);
      case _ => IdleWork(state, event);
    }
  }

  // ----- every internal step leaves less -----

  lemma OpDone<I, C, E, L>(r: Runtime<I, C, E, L>, t: Runtime<I, C, E, L>, j: nat)
    requires j < |r.dir.ops| == |t.dir.ops| && t.dir.ops == r.dir.ops[j := t.dir.ops[j]]
    ensures Tally(t.dir.ops, (OpWork<I, C, E, L>), ()) + OpWork(r.dir.ops[j], ())
         == Tally(r.dir.ops, (OpWork<I, C, E, L>), ()) + OpWork(t.dir.ops[j], ())
  {
    TallyUpdate(r.dir.ops, j, t.dir.ops[j], (OpWork<I, C, E, L>), ());
  }

  lemma SlotDone<I, C, E, L>(r: Runtime<I, C, E, L>, t: Runtime<I, C, E, L>, k: nat)
    requires k < |r.dir.slots| == |t.dir.slots| && t.dir.slots == r.dir.slots[k := t.dir.slots[k]]
    ensures Tally(t.dir.slots, (SlotWork<I, C, E, L>), ()) + SlotWork(r.dir.slots[k], ())
         == Tally(r.dir.slots, (SlotWork<I, C, E, L>), ()) + SlotWork(t.dir.slots[k], ())
  {
    TallyUpdate(r.dir.slots, k, t.dir.slots[k], (SlotWork<I, C, E, L>), ());
  }

  lemma ClaimWork<I, C, E, L>(entity: I, g: Identity, d: Identity, pending: PendingCommand<C>, limit: Positive)
    ensures SlotWork(D.SubmitTo(D.NewSlot<I, PendingCommand<C>, E, L>(entity, g), SlotEvent.ClaimActivation(g, d, pending, limit)), ()) == 40
  {
    hide Transition, Tally;
    D.ClaimFacts<PendingCommand<C>, E, L>(g, d, pending, limit);
    var slot := D.SubmitTo(D.NewSlot<I, PendingCommand<C>, E, L>(entity, g), SlotEvent.ClaimActivation(g, d, pending, limit));
    var output := slot.executor.outputs[0];
    ShortWork<PendingCommand<C>, E, L>([StartActivation(g)]);
    TallyFirst(slot.executor.outputs, (OutputWork<PendingCommand<C>, E, L>), ());
    TallyZero<LifecycleOutput<PendingCommand<C>, E, L>, ()>([], (OutputWork<PendingCommand<C>, E, L>), ());
    assert slot.executor.outputs[1..] == [];
  }

  lemma DispatchStepWork<I, C, E, L>(r: Runtime<I, C, E, L>, j: nat)
    requires Enabled(r, DirectoryStep(j)) && r.dir.ops[j].DispatchLookup?
    ensures Measure(ApplyStep(r, j)) < Measure(r)
  {
    hide Tally, D.SubmitTo, SlotWork, Transition;
    var t, op, n := ApplyStep(r, j), r.dir.ops[j], |r.dir.slots|;
    OpDone(r, t, j);
    if t.dir.slots != r.dir.slots {
      ClaimWork<I, C, E, L>(op.entity, r.dir.nextActivation, op.dispatchId, op.command, r.dir.waiterLimit);
      TallyAppend(r.dir.slots, t.dir.slots[n], (SlotWork<I, C, E, L>), ());
      assert t.dir.slots == r.dir.slots + [t.dir.slots[n]];
    }
  }

  lemma LookupStepWork<I, C, E, L>(r: Runtime<I, C, E, L>, j: nat)
    requires Enabled(r, DirectoryStep(j)) && r.dir.ops[j].Lookup?
    ensures Measure(ApplyStep(r, j)) < Measure(r)
  {
    hide Tally, Transition;
    OpDone(r, ApplyStep(r, j), j);
    DecisionWork<PendingCommand<C>, E, L>(EntitySlot.Inactive, r.dir.ops[j].event);
  }

  lemma SubmitStepWork<I, C, E, L>(r: Runtime<I, C, E, L>, j: nat)
    requires Enabled(r, DirectoryStep(j)) && r.dir.ops[j].Holding?
    ensures Measure(ApplyStep(r, j)) < Measure(r)
  {
    hide Tally, Transition, SettledBy;
    var t, op := ApplyStep(r, j), r.dir.ops[j];
    var slot := r.dir.slots[op.slot];
    OpDone(r, t, j);
    SlotDone(r, t, op.slot);
    DecisionWork(slot.State(), op.event);
    TallyAppend(slot.executor.outputs, Transition(slot.State(), op.event).0, (OutputWork<PendingCommand<C>, E, L>), ());
  }

  lemma AcquireStepWork<I, C, E, L>(r: Runtime<I, C, E, L>, j: nat)
    requires Enabled(r, DirectoryStep(j)) && r.dir.ops[j].Interpret?
    ensures Measure(ApplyStep(r, j)) < Measure(r)
  {
    hide Tally;
    var t := ApplyStep(r, j);
    OpDone(r, t, j);
    SlotDone(r, r.(dir := t.dir), r.dir.ops[j].slot);
    ShortWork<PendingCommand<C>, E, L>([]);
  }

  lemma NextStepWork<I, C, E, L>(r: Runtime<I, C, E, L>, j: nat)
    requires Enabled(r, DirectoryStep(j)) && r.dir.ops[j].Owning? && r.dir.ops[j].effects == []
    ensures Measure(ApplyStep(r, j)) < Measure(r)
  {
    hide Tally;
    var t, k := ApplyStep(r, j), r.dir.ops[j].slot;
    var outputs := r.dir.slots[k].executor.outputs;
    OpDone(r, t, j);
    SlotDone(r, t, k);
    ShortWork<PendingCommand<C>, E, L>([]);
    if outputs != [] {
      TallyFirst(outputs, (OutputWork<PendingCommand<C>, E, L>), ());
    }
  }

  lemma InterpretWork<I, C, E, L>(r: Runtime<I, C, E, L>, entity: I, effect: SlotEffect<PendingCommand<C>, E, L>)
    ensures
      var t := Interpret(r, entity, effect);
      t.dir == r.dir && Tally(t.tasks, (TaskWork<I, C, E, L>), ()) < Tally(r.tasks, (TaskWork<I, C, E, L>), ()) + EffectWork(effect, ())
  {
    hide Tally;
    var t := Interpret(r, entity, effect);
    if t.tasks != r.tasks {
      assert t.tasks == r.tasks + [t.tasks[|r.tasks|]];
      TallyAppend(r.tasks, t.tasks[|r.tasks|], (TaskWork<I, C, E, L>), ());
    }
  }

  lemma EffectStepWork<I, C, E, L>(r: Runtime<I, C, E, L>, j: nat)
    requires Enabled(r, DirectoryStep(j)) && (r.dir.ops[j].Owning? || r.dir.ops[j].Transient?) && r.dir.ops[j].effects != []
    ensures Measure(ApplyStep(r, j)) < Measure(r)
  {
    hide Tally, Interpret;
    var op := r.dir.ops[j];
    var stepped := r.(dir := D.Apply(r.dir, D.Step(j)), settled := r.settled + SettledBy(r.dir, j));
    OpDone(r, stepped, j);
    TallyFirst(op.effects, (EffectWork<PendingCommand<C>, E, L>), ());
    InterpretWork(stepped, op.entity, op.effects[0]);
    if op.Owning? {
      SlotDone(r, r.(dir := D.Apply(r.dir, D.Step(j))), op.slot);
    }
  }

  lemma TransientEndWork<I, C, E, L>(r: Runtime<I, C, E, L>, j: nat)
    requires Enabled(r, DirectoryStep(j)) && r.dir.ops[j].Transient? && r.dir.ops[j].effects == []
    ensures Measure(ApplyStep(r, j)) < Measure(r)
  {
    hide Tally;
    OpDone(r, ApplyStep(r, j), j);
  }

  lemma FinishWork<I, C, E, L>(r: Runtime<I, C, E, L>, i: nat, answer: Answer<E, L>)
    requires Enabled(r, Finish(i, answer))
    ensures Measure(ApplyFinish(r, i, answer)) < Measure(r)
  {
    hide Tally;
    var task := r.tasks[i];
    TallyUpdate(r.tasks, i, Finished, (TaskWork<I, C, E, L>), ());
    TallyAppend(r.dir.ops, D.Lookup(task.entity, Fact(task, answer)), (OpWork<I, C, E, L>), ());
  }

  /** Every effect interpretation and every task completion leaves strictly less work. */
  lemma InternalStepsLeaveLess<I, C, E, L>(r: Runtime<I, C, E, L>, a: Action<I, C, E, L>)
    requires Enabled(r, a) && !External(a)
    ensures Measure(Apply(r, a)) < Measure(r)
  {
    hide Measure, ApplyStep, ApplyFinish;
    match a {
      case Finish(i, answer) => FinishWork(r, i, answer);
      case DirectoryStep(j) =>
        match r.dir.ops[j] {
          case DispatchLookup(_, _, _) => DispatchStepWork(r, j);
          case Lookup(_, _) => LookupStepWork(r, j);
          case Holding(_, _, _) => SubmitStepWork(r, j);
          case Interpret(_, _) => AcquireStepWork(r, j);
          case Owning(_, _, effects) =>
            if effects == [] {
              NextStepWork(r, j);
            } else {
              EffectStepWork(r, j);
            }
          case Transient(_, effects) =>
            if effects == [] {
              TransientEndWork(r, j);
            } else {
              EffectStepWork(r, j);
            }
        }
    }
  }

  /** So a schedule without external calls is no longer than the work it started with. */
  lemma {:induction false} SchedulesEnd<I, C, E, L>(r: Runtime<I, C, E, L>, run: seq<Action<I, C, E, L>>)
    requires ValidRun(r, run) && forall a <- run :: !External(a)
    ensures |run| + Measure(After(r, run)) <= Measure(r)
    decreases |run|
  {
    hide Measure, Apply, Enabled;
    if run != [] {
      InternalStepsLeaveLess(r, run[0]);
      SchedulesEnd(Apply(r, run[0]), run[1..]);
    }
  }

  // ----- what is left when nothing internal can happen -----

  /** A queue nobody dispatches has a submitter still to call dispatch. */
  ghost predicate Attended<I, C, E, L>(dir: D.Directory<I, C, E, L>, k: nat)
    requires k < |dir.slots|
  {
    dir.slots[k].executor.outputs != [] && dir.slots[k].executor.dispatch.Idle? ==>
      exists j :: 0 <= j < |dir.ops| && dir.ops[j].Interpret? && dir.ops[j].slot == k
  }

  ghost predicate AllAttended<I, C, E, L>(dir: D.Directory<I, C, E, L>) {
    forall k :: 0 <= k < |dir.slots| ==> Attended(dir, k)
  }

  /** A slot whose executor did not change keeps its submitter, unless that is who stepped. */
  lemma AttendedStays<I, C, E, L>(dir: D.Directory<I, C, E, L>, t: D.Directory<I, C, E, L>, k: nat, j: nat)
    requires k < |dir.slots| && k < |t.slots| && Attended(dir, k)
    requires t.slots[k].executor.outputs == dir.slots[k].executor.outputs && t.slots[k].executor.dispatch == dir.slots[k].executor.dispatch
    requires |dir.ops| <= |t.ops| && forall i :: 0 <= i < |dir.ops| && i != j ==> t.ops[i] == dir.ops[i]
    requires j < |dir.ops| ==> !(dir.ops[j].Interpret? && dir.ops[j].slot == k) || t.ops[j] == dir.ops[j]
    ensures Attended(t, k)
  {
    if t.slots[k].executor.outputs != [] && t.slots[k].executor.dispatch.Idle? {
      var i :| 0 <= i < |dir.ops| && dir.ops[i].Interpret? && dir.ops[i].slot == k;
      assert t.ops[i] == dir.ops[i];
    }
  }

  lemma OwnerDispatches<I, C, E, L>(dir: D.Directory<I, C, E, L>, j: nat)
    requires D.Inv(dir) && j < |dir.ops| && dir.ops[j].Owning?
    ensures dir.ops[j].slot < |dir.slots| && dir.slots[dir.ops[j].slot].executor.dispatch.Dispatching?
  {
    hide Tally;
    assert D.OpOk(dir, dir.ops[j]) && D.Balanced(dir, dir.ops[j].slot);
    TallyHas(dir.ops, j, (D.OpOwns<I, C, E, L>), dir.ops[j].slot);
  }

  lemma AttendedStep<I, C, E, L>(dir: D.Directory<I, C, E, L>, j: nat, k: nat)
    requires D.Inv(dir) && AllAttended(dir) && D.Enabled(dir, D.Step(j)) && k < |D.Apply(dir, D.Step(j)).slots|
    ensures Attended(D.Apply(dir, D.Step(j)), k)
  {
    hide Transition, Attended;
    var t, op := D.Apply(dir, D.Step(j)), dir.ops[j];
    if op.Owning? {
      OwnerDispatches(dir, j);
    }
    hide D.Inv;
    var touched := (op.Holding? || op.Interpret? || op.Owning?) && op.slot == k;
    if k < |dir.slots| && !touched {
      AttendedStays(dir, t, k, j);
    } else {
      AttendedTouched(dir, j, k);
    }
  }

  lemma AttendedTouched<I, C, E, L>(dir: D.Directory<I, C, E, L>, j: nat, k: nat)
    requires AllAttended(dir) && D.Enabled(dir, D.Step(j)) && k < |D.Apply(dir, D.Step(j)).slots|
    requires k < |dir.slots| ==> (dir.ops[j].Holding? || dir.ops[j].Interpret? || dir.ops[j].Owning?) && dir.ops[j].slot == k
    requires dir.ops[j].Owning? ==> dir.slots[dir.ops[j].slot].executor.dispatch.Dispatching?
    ensures Attended(D.Apply(dir, D.Step(j)), k)
  {
    hide Transition;
    var t := D.Apply(dir, D.Step(j));
    assert t.ops[j].Interpret? ==> t.ops[j].slot == k;
  }

  lemma DirectoryAttended<I, C, E, L>(dir: D.Directory<I, C, E, L>, a: D.Action<I, C, E, L>)
    requires D.Inv(dir) && AllAttended(dir) && D.Enabled(dir, a)
    ensures AllAttended(D.Apply(dir, a))
  {
    hide Attended, D.Inv, Transition;
    var t := D.Apply(dir, a);
    forall k | 0 <= k < |t.slots|
      ensures Attended(t, k)
    {
      if a.Step? {
        AttendedStep(dir, a.op, k);
      } else {
        AttendedStays(dir, t, k, |dir.ops|);
      }
    }
  }

  lemma ActionAttended<I, C(!new), E, L(!new)>(r: Runtime<I, C, E, L>, a: Action<I, C, E, L>)
    requires D.Inv(r.dir) && AllAttended(r.dir) && Enabled(r, a)
    ensures AllAttended(Apply(r, a).dir)
  {
    hide D.Inv, D.Apply, AllAttended;
    match a {
      case Dispatch(entity, command) =>
        DirectoryAttended(r.dir, D.CallDispatch(entity, PendingCommand(command, r.dir.nextDispatch)));
      case Passivate(entity) =>
        var current := D.CurrentActivation(r.dir, entity);
        if current.Some? {
          DirectoryAttended(r.dir, D.Call(entity, SlotEvent.BeginDrain(current.value)));
        }
      case DropWait(d) =>
        var activation := WaitActivation(r.dir.replies[r.waits[d].op]);
        if activation.Some? {
          DirectoryAttended(r.dir, D.Call(r.waits[d].entity, SlotEvent.CancelWaiter(activation.value, d)));
        }
      case Poll(_) =>
      case DirectoryStep(j) => DirectoryAttended(r.dir, D.Step(j));
      case Finish(i, answer) => DirectoryAttended(r.dir, D.Call(r.tasks[i].entity, Fact(r.tasks[i], answer)));
    }
  }

  lemma {:induction false} RunAttended<I, C(!new), E, L(!new)>(r: Runtime<I, C, E, L>, run: seq<Action<I, C, E, L>>)
    requires D.Inv(r.dir) && AllAttended(r.dir) && ValidRun(r, run)
    ensures AllAttended(After(r, run).dir)
    decreases |run|
  {
    hide D.Inv, AllAttended, Apply, Enabled;
    if run != [] {
      ActionAttended(r, run[0]);
      ActionKeepsDirectoryInv(r, run[0]);
      RunAttended(Apply(r, run[0]), run[1..]);
    }
  }

  /** No effect interpretation and no task completion is possible: only callers can act. */
  ghost predicate Quiescent<I(!new), C(!new), E(!new), L(!new)>(r: Runtime<I, C, E, L>) {
    forall a: Action<I, C, E, L> :: Enabled(r, a) ==> External(a)
  }

  ghost predicate AtRest<I, C, E, L>(r: Runtime<I, C, E, L>) {
    && (forall j :: 0 <= j < |r.dir.ops| ==> r.dir.ops[j].Done?)
    && (forall i :: 0 <= i < |r.tasks| ==> r.tasks[i].Finished?)
  }

  /** Every operation and every task that has not ended can take a step. */
  lemma QuiescentIsAtRest<I(!new), C(!new), E(!new), L(!new)>(r: Runtime<I, C, E, L>)
    requires D.Inv(r.dir) && Quiescent(r)
    ensures AtRest(r)
  {
    hide D.Balanced, D.SlotOk;
    forall j | 0 <= j < |r.dir.ops|
      ensures r.dir.ops[j].Done?
    {
      assert D.OpOk(r.dir, r.dir.ops[j]);
      assert !Enabled(r, DirectoryStep(j));
    }
    forall i | 0 <= i < |r.tasks|
      ensures r.tasks[i].Finished?
    {
      var answer: Answer<E, L> := match r.tasks[i]
        case Activate(_, _) => ActivationError
        case DeliverOne(_, _, _, _, _) => DeliveryOk
        case AwaitFence(_, _, _) => FenceOk
        case _ => Retired;
      assert !Enabled(r, Finish(i, answer));
    }
  }

  lemma QueuesAreEmpty<I, C, E, L>(dir: D.Directory<I, C, E, L>, k: nat)
    requires D.Inv(dir) && AllAttended(dir) && k < |dir.slots|
    requires forall j :: 0 <= j < |dir.ops| ==> dir.ops[j].Done?
    ensures dir.slots[k].executor.outputs == [] && dir.slots[k].executor.dispatch.Idle?
  {
    TallyZero(dir.ops, (D.OpOwns<I, C, E, L>), k);
    hide Tally;
    assert D.Balanced(dir, k) && Attended(dir, k);
  }

  /** At rest only slot states carry anything. */
  lemma RestCarries<I, C(!new), E, L(!new)>(r: Runtime<I, C, E, L>, x: Item<PendingCommand<C>, L>)
    requires D.Inv(r.dir) && AllAttended(r.dir) && AtRest(r)
    requires forall k :: 0 <= k < |r.dir.slots| ==> StateItem(r.dir.slots[k].State(), x) == 0
    ensures Carried(r, x) == 0
  {
    forall k | 0 <= k < |r.dir.slots|
      ensures SlotItem(r.dir.slots[k], x) == 0
    {
      QueuesAreEmpty(r.dir, k);
      TallyZero(r.dir.slots[k].executor.outputs, (OutputItem<C, E, L>), x);
    }
    TallyZero(r.dir.ops, (OpItem<I, C, E, L>), x);
    TallyZero(r.tasks, (TaskItem<I, C, E, L>), x);
    TallyZero(r.dir.slots, (SlotItem<I, C, E, L>), x);
  }

  lemma NoTokensAtRest<I, C(!new), E, L(!new)>(r: Runtime<I, C, E, L>, kind: Kind, k: nat)
    requires Inv(r) && AllAttended(r.dir) && AtRest(r) && k < |r.dir.slots| <= MAX_U64
    ensures SlotDemand(r.dir.slots[k], Token(kind, k + 1)) == 0
  {
    hide D.Inv, AllRouted, Carried, AllAttended, AtRest, SlotDemand, Demanded;
    var x := Item<PendingCommand<C>, L>.Token(kind, k + 1);
    forall i | 0 <= i < |r.dir.slots|
      ensures StateItem(r.dir.slots[i].State(), x) == 0
    {
      StatesCarryNoToken<PendingCommand<C>, E, L>(r.dir.slots[i].State(), x);
    }
    RestCarries(r, x);
    assert Balanced(r, x);
    TokensAreNotGranted(r, x);
    SlotDemandsAtMost(r, k, x);
  }

  lemma SlotDemandsAtMost<I, C(!new), E, L(!new)>(r: Runtime<I, C, E, L>, k: nat, x: Item<PendingCommand<C>, L>)
    requires k < |r.dir.slots|
    ensures SlotDemand(r.dir.slots[k], x) <= Demanded(r, x)
  {
    TallyHas(r.dir.slots, k, (SlotDemand<I, C, E, L>), x);
  }

  /** A slot nothing is outstanding for: removed and inactive, or active with no reservation. */
  ghost predicate SettledSlot<I, C, E, L>(slot: D.Slot<I, C, E, L>) {
    && slot.executor.outputs == []
    && if slot.removed then slot.State().Inactive?
       else slot.State().Active? && slot.State().reservations.Drained?
  }

  lemma SlotsSettle<I, C(!new), E, L(!new)>(r: Runtime<I, C, E, L>, k: nat)
    requires Inv(r) && AllAttended(r.dir) && AtRest(r) && k < |r.dir.slots|
    ensures SettledSlot(r.dir.slots[k])
  {
    SlotActivation(r, k);
    QueuesAreEmpty(r.dir, k);
    RemovedIsInactive(r.dir, k);
    hide Inv, AllAttended, AtRest;
    assert |r.dir.slots| <= MAX_U64 by {
      FewSlots(r.dir);
    }
    NoTokensAtRest(r, Activation, k);
    NoTokensAtRest(r, Delivery, k);
    NoTokensAtRest(r, Fence, k);
    NoTokensAtRest(r, Kind.Retirement, k);
    NoTokensAtRest(r, Removal, k);
  }

  lemma RemovedIsInactive<I, C, E, L>(dir: D.Directory<I, C, E, L>, k: nat)
    requires D.Inv(dir) && k < |dir.slots|
    ensures dir.slots[k].removed ==> dir.slots[k].State().Inactive?
  {
    hide D.Balanced, D.OpOk;
    assert D.SlotOk(dir, k);
  }

  lemma FewSlots<I, C, E, L>(dir: D.Directory<I, C, E, L>)
    requires D.Inv(dir)
    ensures |dir.slots| <= MAX_U64
  {}

  lemma CommandsSettle<I, C(!new), E, L(!new)>(r: Runtime<I, C, E, L>, d: Identity)
    requires CommandInv(r) && AllAttended(r.dir) && AtRest(r) && Issued(r, d)
    requires forall slot <- r.dir.slots :: SettledSlot(slot)
    ensures exists command: C :: HasFate(r, d, PendingCommand(command, d))
  {
    hide D.Inv, AllRouted, Balanced, GrantsOk, CellsOk, CancelsOk, AllAttended, AtRest, Carried, HasFate;
    var p := IssuedCommand(r, d);
    forall k | 0 <= k < |r.dir.slots|
      ensures StateItem(r.dir.slots[k].State(), Item<PendingCommand<C>, L>.Command(d, p)) == 0
    {
      assert SettledSlot(r.dir.slots[k]);
    }
    RestCarries(r, Command(d, p));
    FateOfIssued(r, d, p);
    assert p == PendingCommand(p.command, d);
  }

  /** Progress, the last part: in a reachable state where only callers can act, every slot is
      active without reservations or has been removed, every mapped slot is one of the first
      kind, and every dispatch ever admitted has its fate. */
  lemma QuiescenceSettlesEverything<I(!new), C(!new), E(!new), L(!new)>(
      r: Runtime<I, C, E, L>, waiterLimit: Positive, run: seq<Action<I, C, E, L>>)
    requires Reachable(r, waiterLimit, run) && Quiescent(r)
    ensures forall slot <- r.dir.slots :: SettledSlot(slot)
    ensures forall entity <- r.dir.entries ::
      r.dir.entries[entity] < |r.dir.slots| && r.dir.slots[r.dir.entries[entity]].State().Active?
    ensures forall d: Identity :: Issued(r, d) ==>
      exists command: C :: HasFate(r, d, PendingCommand(command, d))
  {
    StartInv<I, C, E, L>(waiterLimit);
    RunKeepsCommandInv(Start(waiterLimit), run);
    RunAttended(Start(waiterLimit), run);
    hide ValidRun, After, GrantsOk, CellsOk, CancelsOk, HasFate, AllAttended, AllRouted, Balanced;
    QuiescentIsAtRest(r);
    hide Quiescent, AtRest, SettledSlot;
    forall slot <- r.dir.slots
      ensures SettledSlot(slot)
    {
      var k :| 0 <= k < |r.dir.slots| && r.dir.slots[k] == slot;
      SlotsSettle(r, k);
    }
    forall d: Identity | Issued(r, d)
      ensures exists command: C :: HasFate(r, d, PendingCommand(command, d))
    {
      CommandsSettle(r, d);
    }
    forall entity <- r.dir.entries
      ensures r.dir.entries[entity] < |r.dir.slots| && r.dir.slots[r.dir.entries[entity]].State().Active?
    {
      MappedIsActive(r.dir, entity);
    }
  }

  lemma MappedIsActive<I, C, E, L>(dir: D.Directory<I, C, E, L>, entity: I)
    requires D.Inv(dir) && entity in dir.entries && forall slot <- dir.slots :: SettledSlot(slot)
    ensures dir.entries[entity] < |dir.slots| && dir.slots[dir.entries[entity]].State().Active?
  {
    hide D.Balanced, D.OpOk;
    assert D.SlotOk(dir, dir.entries[entity]) && SettledSlot(dir.slots[dir.entries[entity]]);
  }
}
