/** Where everything comes from: a log of what tasks were answered and slots decided along a run,
    and, in every reachable state, an entry of that log behind every fact in flight, every effect
    requested, every task spawned and every fate recorded. */
module Provenance {
  import opened Common
  import opened Lifecycle
  import opened Evidence
  import opened Decisions
  import opened Ledger
  import opened Runtime
  import opened RuntimeLedger
  import opened RuntimeFacts
  import opened CommandFate
  import opened Passivating
  import D = Directory

  /** What happened: a task got its answer, a slot decided a fact in a state, or a dispatch was
      turned away because activation identities ran out. */
  datatype Happening<I, C, E, L> =
    | Answered(task: Task<I, C, E, L>, answer: Answer<E, L>)
    | Decided(state: EntitySlot<PendingCommand<C>, E, L>, event: SlotEvent<PendingCommand<C>, E, L>)
    | TurnedAway(dispatchId: Identity, pending: PendingCommand<C>)

  /** What one action makes happen. */
  function Happens<I(==), C, E, L>(r: Runtime<I, C, E, L>, a: Action<I, C, E, L>): seq<Happening<I, C, E, L>>
    requires Enabled(r, a)
  {
    match a
    case Finish(i, answer) => [Answered(r.tasks[i], answer)]
    case DirectoryStep(j) =>
      (match r.dir.ops[j]
       case Holding(_, k, event) => [Decided(r.dir.slots[k].State(), event)]
       case DispatchLookup(entity, d, pending) =>
         if entity !in r.dir.entries && r.dir.nextActivation == MAX_U64 then [TurnedAway(d, pending)] else []
       case _ => [])
    case _ => []
  }

  function LogAfter<I(==), C, E, L>(
      r: Runtime<I, C, E, L>, log: seq<Happening<I, C, E, L>>, run: seq<Action<I, C, E, L>>): seq<Happening<I, C, E, L>>
    requires ValidRun(r, run)
    decreases |run|
  {
    if run == [] then log else LogAfter(Apply(r, run[0]), log + Happens(r, run[0]), run[1..])
  }

  function LogOf<I(==), C, E, L>(limit: Positive, run: seq<Action<I, C, E, L>>): seq<Happening<I, C, E, L>>
    requires ValidRun(Start<I, C, E, L>(limit), run)
  {
    LogAfter(Start(limit), [], run)
  }

  // ----- causes -----

  /** The retirement a fence's answer calls for. */
  predicate CallsFor<E, L>(answer: Answer<E, L>, mode: RetirementMode) {
    match answer
    case FenceOk => mode == Graceful
    case FenceError(Enqueue) => mode == Forced(DrainFailure(FenceEnqueue, 0))
    case FenceError(Acknowledgement) => mode == Forced(DrainFailure(FenceAcknowledgement, 0))
    case _ => false
  }

  predicate FenceAnswered<I, C, E, L>(h: Happening<I, C, E, L>, g: Identity) {
    h.Answered? && h.task.AwaitFence? && h.task.activationId == g
  }

  /** A task of activation `g` was given the answer this fact reports. */
  ghost predicate Says<I, C, E, L>(h: Happening<I, C, E, L>, event: SlotEvent<PendingCommand<C>, E, L>) {
    h.Answered?
    && match event
       case ActivationSucceeded(g, endpoint, lease) =>
         h.task.Activate? && h.task.activationId == g && h.answer == Activated(endpoint, lease)
       case ActivationFailed(g) => h.task.Activate? && h.task.activationId == g && h.answer.ActivationError?
       case DeliveryResolved(g, failure) =>
         h.task.DeliverOne? && h.task.activationId == g
         && (if failure.None? then h.answer.DeliveryOk?
             else h.answer.DeliveryError? && failure.value == Returned(h.task.dispatchId, h.task.pending))
       case FenceAcknowledged(g) => FenceAnswered(h, g) && CallsFor(h.answer, Graceful)
       case ForceDrain(g, failure) => FenceAnswered(h, g) && CallsFor(h.answer, Forced(failure))
       case Terminated(g) => h.task.AwaitTermination? && h.task.activationId == g && h.answer.Retired?
       case _ => false
  }

  ghost predicate EventCaused<I, C, E, L>(log: seq<Happening<I, C, E, L>>, event: SlotEvent<PendingCommand<C>, E, L>) {
    Reports(event) ==> exists h :: h in log && Says(h, event)
  }

  ghost predicate Refused<I, C, E, L>(log: seq<Happening<I, C, E, L>>, d: Identity, pending: PendingCommand<C>, reason: Refusal) {
    exists h :: h in log && h.Decided? && RefusedBy(h.state, h.event, d, pending, reason)
  }

  ghost predicate RetirementCaused<I, C, E, L>(log: seq<Happening<I, C, E, L>>, g: Identity, mode: RetirementMode) {
    exists h :: h in log && FenceAnswered(h, g) && CallsFor(h.answer, mode)
  }

  ghost predicate EffectCaused<I, C, E, L>(log: seq<Happening<I, C, E, L>>, effect: SlotEffect<PendingCommand<C>, E, L>) {
    match effect
    case Reject(d, pending, reason) => Refused(log, d, pending, reason)
    case Retire(g, _, mode) => RetirementCaused(log, g, mode)
    case _ => true
  }

  ghost predicate Cancelled<I, C, E, L>(h: Happening<I, C, E, L>, d: Identity, pending: PendingCommand<C>) {
    && h.Decided? && h.state.Activating? && Waiter(d, pending) in h.state.waiters
    && h.event == SlotEvent.CancelWaiter(h.state.activationId, d)
  }

  /** A fate is recorded because of just this happening. */
  ghost predicate Settles<I, C, E, L>(h: Happening<I, C, E, L>, fate: Fate<C, L>) {
    match fate
    case CommandDelivered(d, pending) =>
      h.Answered? && h.task.DeliverOne? && h.task.dispatchId == d && h.task.pending == pending && h.answer.DeliveryOk?
    case CommandRefused(d, pending, reason) => h.Decided? && RefusedBy(h.state, h.event, d, pending, reason)
    case CommandDiscarded(d, pending) => Cancelled(h, d, pending)
    case CommandReturned(d, pending) => h == TurnedAway(d, pending)
    case LeaseRetired(lease) => h.Answered? && h.task.AwaitTermination? && h.task.lease == lease && h.answer.Retired?
  }

  ghost predicate FateCaused<I, C, E, L>(log: seq<Happening<I, C, E, L>>, fate: Fate<C, L>) {
    exists h :: h in log && Settles(h, fate)
  }

  ghost predicate OpCaused<I, C, E, L>(log: seq<Happening<I, C, E, L>>, op: D.Op<I, PendingCommand<C>, E, L>) {
    match op
    case Lookup(_, event) => EventCaused(log, event)
    case Holding(_, _, event) => EventCaused(log, event)
    case Owning(_, _, effects) => forall e <- effects :: EffectCaused(log, e)
    case _ => true
  }

  ghost predicate QueueCaused<I, C, E, L>(log: seq<Happening<I, C, E, L>>, outputs: seq<LifecycleOutput<PendingCommand<C>, E, L>>) {
    forall o <- outputs :: forall e <- o.effects :: EffectCaused(log, e)
  }

  ghost predicate TaskCaused<I, C, E, L>(log: seq<Happening<I, C, E, L>>, task: Task<I, C, E, L>) {
    task.AwaitTermination? ==> RetirementCaused(log, task.activationId, task.retirement)
  }

  ghost predicate Caused<I, C, E, L>(r: Runtime<I, C, E, L>, log: seq<Happening<I, C, E, L>>) {
    && (forall j :: 0 <= j < |r.dir.ops| ==> OpCaused(log, r.dir.ops[j]))
    && (forall k :: 0 <= k < |r.dir.slots| ==> QueueCaused(log, r.dir.slots[k].executor.outputs))
    && (forall i :: 0 <= i < |r.tasks| ==> TaskCaused(log, r.tasks[i]))
    && (forall f <- r.settled :: FateCaused(log, f))
  }

  // ----- a longer log keeps every cause -----

  lemma EventStays<I, C, E, L>(log: seq<Happening<I, C, E, L>>, more: seq<Happening<I, C, E, L>>, event: SlotEvent<PendingCommand<C>, E, L>)
    requires EventCaused(log, event)
    ensures EventCaused(log + more, event)
  {
    if Reports(event) {
      var h :| h in log && Says(h, event);
      assert h in log + more;
    }
  }

  lemma EffectStays<I, C, E, L>(log: seq<Happening<I, C, E, L>>, more: seq<Happening<I, C, E, L>>, effect: SlotEffect<PendingCommand<C>, E, L>)
    requires EffectCaused(log, effect)
    ensures EffectCaused(log + more, effect)
  {
    match effect {
      case Reject(d, pending, reason) =>
        var h :| h in log && h.Decided? && RefusedBy(h.state, h.event, d, pending, reason);
        assert h in log + more;
      case Retire(g, _, mode) => RetirementStays(log, more, g, mode);
      case _ =>
    }
  }

  lemma RetirementStays<I, C, E, L>(log: seq<Happening<I, C, E, L>>, more: seq<Happening<I, C, E, L>>, g: Identity, mode: RetirementMode)
    requires RetirementCaused(log, g, mode)
    ensures RetirementCaused(log + more, g, mode)
  {
    var h :| h in log && FenceAnswered(h, g) && CallsFor(h.answer, mode);
    assert h in log + more;
  }

  lemma OpStays<I, C, E, L>(log: seq<Happening<I, C, E, L>>, more: seq<Happening<I, C, E, L>>, op: D.Op<I, PendingCommand<C>, E, L>)
    requires OpCaused(log, op)
    ensures OpCaused(log + more, op)
  {
    hide EventCaused, EffectCaused;
    match op {
      case Lookup(_, event) => EventStays(log, more, event);
      case Holding(_, _, event) => EventStays(log, more, event);
      case Owning(_, _, effects) =>
        forall e <- effects
          ensures EffectCaused(log + more, e)
        {
          EffectStays(log, more, e);
        }
      case _ =>
    }
  }

  lemma QueueStays<I, C, E, L>(
      log: seq<Happening<I, C, E, L>>, more: seq<Happening<I, C, E, L>>, outputs: seq<LifecycleOutput<PendingCommand<C>, E, L>>)
    requires QueueCaused(log, outputs)
    ensures QueueCaused(log + more, outputs)
  {
    hide EffectCaused;
    forall o, e | o in outputs && e in o.effects
      ensures EffectCaused(log + more, e)
    {
      EffectStays(log, more, e);
    }
  }

  lemma FateStays<I, C, E, L>(log: seq<Happening<I, C, E, L>>, more: seq<Happening<I, C, E, L>>, fate: Fate<C, L>)
    requires FateCaused(log, fate)
    ensures FateCaused(log + more, fate)
  {
    hide Settles;
    var h :| h in log && Settles(h, fate);
    assert h in log + more;
  }

  lemma AllStays<I, C, E, L>(r: Runtime<I, C, E, L>, log: seq<Happening<I, C, E, L>>, more: seq<Happening<I, C, E, L>>)
    requires Caused(r, log)
    ensures Caused(r, log + more)
  {
    hide OpCaused, QueueCaused, RetirementCaused, FateCaused;
    forall j | 0 <= j < |r.dir.ops|
      ensures OpCaused(log + more, r.dir.ops[j])
    {
      OpStays(log, more, r.dir.ops[j]);
    }
    forall k | 0 <= k < |r.dir.slots|
      ensures QueueCaused(log + more, r.dir.slots[k].executor.outputs)
    {
      QueueStays(log, more, r.dir.slots[k].executor.outputs);
    }
    forall i | 0 <= i < |r.tasks|
      ensures TaskCaused(log + more, r.tasks[i])
    {
      if r.tasks[i].AwaitTermination? {
        RetirementStays(log, more, r.tasks[i].activationId, r.tasks[i].retirement);
      }
    }
    forall f <- r.settled
      ensures FateCaused(log + more, f)
    {
      FateStays(log, more, f);
    }
  }

  // ----- every action keeps every cause -----

  /** What is new has a cause; the rest is as it was. */
  lemma Carry<I, C, E, L>(r: Runtime<I, C, E, L>, t: Runtime<I, C, E, L>, log: seq<Happening<I, C, E, L>>, j: nat)
    requires Caused(r, log) && |r.dir.ops| <= |t.dir.ops| && |r.dir.slots| <= |t.dir.slots|
    requires forall i :: 0 <= i < |t.dir.ops| && i != j ==> i < |r.dir.ops| && t.dir.ops[i] == r.dir.ops[i]
    requires j < |t.dir.ops| ==> OpCaused(log, t.dir.ops[j])
    requires forall k :: 0 <= k < |t.dir.slots| ==>
      (k < |r.dir.slots| && t.dir.slots[k].executor.outputs == r.dir.slots[k].executor.outputs)
      || QueueCaused(log, t.dir.slots[k].executor.outputs)
    requires forall i :: 0 <= i < |t.tasks| ==> (i < |r.tasks| && t.tasks[i] == r.tasks[i]) || TaskCaused(log, t.tasks[i])
    requires forall f <- t.settled :: f in r.settled || FateCaused(log, f)
    ensures Caused(t, log)
  {
    hide OpCaused, QueueCaused, TaskCaused, FateCaused;
  }

  /** Every effect of an expected decision is called for by it, or by the fence answer it reports. */
  lemma DecisionCaused<I, C, E, L>(
      log: seq<Happening<I, C, E, L>>, state: EntitySlot<PendingCommand<C>, E, L>, g: Identity,
      event: SlotEvent<PendingCommand<C>, E, L>)
    requires Decided(state, event) in log && EventCaused(log, event) && Expected(state, g, event)
    ensures forall e <- Reduce(state, event).effects :: EffectCaused(log, e)
  {
    forall e <- Reduce(state, event).effects
      ensures EffectCaused(log, e)
    {
      if e.Reject? {
        RefusedExactly(state, event, e.dispatchId, e.command, e.reason);
        hide Reduce, RefusedBy;
        assert Refused(log, e.dispatchId, e.command, e.reason);
      } else if e.Retire? {
        RetiredExactly(state, event, e.activationId, e.lease, e.retirement);
        RetireReported(log, state, g, event, e.activationId, e.lease, e.retirement);
      }
    }
  }

  lemma RetireReported<I, C, E, L>(
      log: seq<Happening<I, C, E, L>>, state: EntitySlot<PendingCommand<C>, E, L>, g: Identity,
      event: SlotEvent<PendingCommand<C>, E, L>, h: Identity, lease: L, mode: RetirementMode)
    requires EventCaused(log, event) && Expected(state, g, event) && RetiredBy(state, event, h, lease, mode)
    ensures RetirementCaused(log, h, mode)
  {
    assert !event.ActivationSucceeded?;
    var said :| said in log && Says(said, event);
    assert FenceAnswered(said, h) && CallsFor(said.answer, mode);
  }

  /** The queue after one more output. */
  lemma QueueGrows<I, C, E, L>(
      log: seq<Happening<I, C, E, L>>, outputs: seq<LifecycleOutput<PendingCommand<C>, E, L>>, output: LifecycleOutput<PendingCommand<C>, E, L>)
    requires QueueCaused(log, outputs) && forall e <- output.effects :: EffectCaused(log, e)
    ensures QueueCaused(log, outputs + [output])
  {
    hide EffectCaused;
  }

  lemma {:induction false} DiscardsOf<C, L>(waiters: seq<Waiter<PendingCommand<C>>>, d: Identity, fate: Fate<C, L>)
    ensures fate in DiscardedBy<C, L>(waiters, d)
       <==> fate.CommandDiscarded? && fate.dispatchId == d && Waiter(d, fate.pending) in waiters
  {
    if waiters != [] {
      var n := |waiters| - 1;
      DiscardsOf(waiters[..n], d, fate);
      assert waiters == waiters[..n] + [waiters[n]];
    }
  }

  lemma SubmitCaused<I, C(!new), E, L(!new)>(r: Runtime<I, C, E, L>, log: seq<Happening<I, C, E, L>>, j: nat)
    requires Inv(r) && Caused(r, log) && Enabled(r, DirectoryStep(j)) && r.dir.ops[j].Holding?
    requires Decided(r.dir.slots[r.dir.ops[j].slot].State(), r.dir.ops[j].event) in log
    ensures Caused(ApplyStep(r, j), log)
  {
    var op, t := r.dir.ops[j], ApplyStep(r, j);
    var k, state := op.slot, r.dir.slots[op.slot].State();
    FactIsExpected(r, j);
    hide Inv;
    assert OpCaused(log, op) && QueueCaused(log, r.dir.slots[k].executor.outputs);
    DecisionCaused(log, state, k + 1, op.event);
    hide Reduce, EventCaused, EffectCaused, Expected;
    QueueGrows(log, r.dir.slots[k].executor.outputs, Transition(state, op.event).0);
    forall f | f in t.settled
      ensures f in r.settled || FateCaused(log, f)
    {
      if f !in r.settled {
        DiscardsOf(state.waiters, op.event.dispatchId, f);
        assert Settles(Happening<I, C, E, L>.Decided(state, op.event), f);
      }
    }
    hide Caused, OpCaused, QueueCaused, TaskCaused, FateCaused, SettledBy, Transition;
    assert OpCaused(log, t.dir.ops[j]) by {
      InterpretsCaused(log, op.entity, k);
    }
    Carry(r, t, log, j);
  }

  lemma InterpretsCaused<I, C, E, L>(log: seq<Happening<I, C, E, L>>, entity: I, k: nat)
    ensures OpCaused(log, D.Interpret(entity, k)) && OpCaused(log, D.Done) && OpCaused(log, D.Owning(entity, k, []))
    ensures OpCaused(log, D.Transient(entity, []))
  {}

  lemma LookupCaused<I, C(!new), E, L(!new)>(r: Runtime<I, C, E, L>, log: seq<Happening<I, C, E, L>>, j: nat)
    requires Inv(r) && Caused(r, log) && Enabled(r, DirectoryStep(j)) && r.dir.ops[j].Lookup?
    ensures Caused(ApplyStep(r, j), log)
  {
    var op, t := r.dir.ops[j], ApplyStep(r, j);
    assert OpCaused(log, op);
    hide Inv, EventCaused, EffectCaused, Transition;
    assert t.settled == r.settled;
    hide Caused, QueueCaused, TaskCaused, FateCaused;
    assert OpCaused(log, t.dir.ops[j]);
    hide OpCaused;
    Carry(r, t, log, j);
  }

  lemma DispatchCaused<I, C(!new), E, L(!new)>(r: Runtime<I, C, E, L>, log: seq<Happening<I, C, E, L>>, j: nat)
    requires Inv(r) && Caused(r, log) && Enabled(r, DirectoryStep(j)) && r.dir.ops[j].DispatchLookup?
    requires r.dir.ops[j].entity !in r.dir.entries && r.dir.nextActivation == MAX_U64 ==>
      TurnedAway(r.dir.ops[j].dispatchId, r.dir.ops[j].command) in log
    ensures Caused(ApplyStep(r, j), log)
  {
    var op, t, n := r.dir.ops[j], ApplyStep(r, j), |r.dir.slots|;
    hide Inv, EventCaused, EffectCaused;
    if |t.dir.slots| > n {
      ClaimQueue(r, log, j);
    }
    forall f | f in t.settled
      ensures f in r.settled || FateCaused(log, f)
    {
      if f !in r.settled {
        assert f == CommandReturned(op.dispatchId, op.command);
        assert Settles(Happening<I, C, E, L>.TurnedAway(op.dispatchId, op.command), f);
      }
    }
    hide Transition, Caused, QueueCaused, TaskCaused, FateCaused;
    assert OpCaused(log, t.dir.ops[j]);
    hide OpCaused;
    Carry(r, t, log, j);
  }

  lemma ClaimQueue<I, C, E, L>(r: Runtime<I, C, E, L>, log: seq<Happening<I, C, E, L>>, j: nat)
    requires Enabled(r, DirectoryStep(j)) && r.dir.ops[j].DispatchLookup?
    requires r.dir.ops[j].entity !in r.dir.entries && r.dir.nextActivation < MAX_U64
    ensures
      var t := ApplyStep(r, j);
      |t.dir.slots| == |r.dir.slots| + 1 && QueueCaused(log, t.dir.slots[|r.dir.slots|].executor.outputs)
  {
    hide Transition;
    var op := r.dir.ops[j];
    D.ClaimFacts<PendingCommand<C>, E, L>(r.dir.nextActivation, op.dispatchId, op.command, r.dir.waiterLimit);
  }

  lemma TurnCaused<I, C(!new), E, L(!new)>(r: Runtime<I, C, E, L>, log: seq<Happening<I, C, E, L>>, j: nat)
    requires Inv(r) && Caused(r, log) && Enabled(r, DirectoryStep(j))
    requires r.dir.ops[j].Interpret? || (r.dir.ops[j].Owning? && r.dir.ops[j].effects == [])
      || (r.dir.ops[j].Transient? && r.dir.ops[j].effects == [])
    ensures Caused(ApplyStep(r, j), log)
  {
    var op, t := r.dir.ops[j], ApplyStep(r, j);
    if !op.Transient? {
      assert QueueCaused(log, r.dir.slots[op.slot].executor.outputs);
    }
    hide Inv, EffectCaused, TaskCaused, FateCaused;
    assert t.settled == r.settled;
    hide Caused;
    Carry(r, t, log, j);
  }

  lemma EffectFates<I, C, E, L>(r: Runtime<I, C, E, L>, log: seq<Happening<I, C, E, L>>, j: nat, f: Fate<C, L>)
    requires Enabled(r, DirectoryStep(j)) && r.dir.ops[j].Owning? && r.dir.ops[j].effects != []
    requires EffectCaused(log, r.dir.ops[j].effects[0]) && f in ApplyStep(r, j).settled
    ensures f in r.settled || FateCaused(log, f)
  {
    if f !in r.settled {
      var e := r.dir.ops[j].effects[0];
      assert f == CommandRefused(e.dispatchId, e.command, e.reason);
      var h :| h in log && h.Decided? && RefusedBy(h.state, h.event, e.dispatchId, e.command, e.reason);
      assert Settles(h, f);
    }
  }

  /** Interpreting an effect hands its cause on. */
  lemma EffectStepCaused<I, C(!new), E, L(!new)>(r: Runtime<I, C, E, L>, log: seq<Happening<I, C, E, L>>, j: nat)
    requires Inv(r) && Caused(r, log) && Enabled(r, DirectoryStep(j)) && r.dir.ops[j].Owning? && r.dir.ops[j].effects != []
    ensures Caused(ApplyStep(r, j), log)
  {
    hide Inv, RetirementCaused, FateCaused, QueueCaused, Refused;
    var op, t := r.dir.ops[j], ApplyStep(r, j);
    assert OpCaused(log, op);
    assert EffectCaused(log, op.effects[0]) && OpCaused(log, D.Owning(op.entity, op.slot, op.effects[1..]));
    assert forall i :: |r.tasks| <= i < |t.tasks| ==> TaskCaused(log, t.tasks[i]);
    hide Caused, OpCaused, EffectCaused, TaskCaused;
    forall f | f in t.settled
      ensures f in r.settled || FateCaused(log, f)
    {
      EffectFates(r, log, j, f);
    }
    Carry(r, t, log, j);
  }

  lemma FinishCaused<I, C(!new), E, L(!new)>(r: Runtime<I, C, E, L>, log: seq<Happening<I, C, E, L>>, i: nat, answer: Answer<E, L>)
    requires Caused(r, log) && Enabled(r, Finish(i, answer)) && Answered(r.tasks[i], answer) in log
    ensures Caused(ApplyFinish(r, i, answer), log)
  {
    var task, t := r.tasks[i], ApplyFinish(r, i, answer);
    var event := Fact(task, answer);
    assert Says(Answered(task, answer), event);
    assert OpCaused(log, D.Lookup(task.entity, event));
    forall f | f in t.settled
      ensures f in r.settled || FateCaused(log, f)
    {
      if f !in r.settled {
        assert Settles(Answered(task, answer), f);
      }
    }
    hide Caused, OpCaused, QueueCaused, FateCaused, Says, RetirementCaused;
    Carry(r, t, log, |r.dir.ops|);
  }

  lemma CallCaused<I, C, E, L>(r: Runtime<I, C, E, L>, log: seq<Happening<I, C, E, L>>, a: Action<I, C, E, L>)
    requires Caused(r, log) && Enabled(r, a) && External(a)
    ensures Caused(Apply(r, a), log)
  {
    var t := Apply(r, a);
    assert t.dir.ops != r.dir.ops ==> OpCaused(log, t.dir.ops[|r.dir.ops|]);
    hide Caused, OpCaused, QueueCaused, FateCaused, TaskCaused;
    Carry(r, t, log, |r.dir.ops|);
  }

  lemma ActionCaused<I, C(!new), E, L(!new)>(r: Runtime<I, C, E, L>, log: seq<Happening<I, C, E, L>>, a: Action<I, C, E, L>)
    requires Inv(r) && Caused(r, log) && Enabled(r, a)
    ensures Caused(Apply(r, a), log + Happens(r, a))
  {
    var more := log + Happens(r, a);
    AllStays(r, log, Happens(r, a));
    match a {
      case Finish(i, answer) =>
        assert Answered(r.tasks[i], answer) in more;
        hide Caused, ApplyFinish, Inv;
        FinishCaused(r, more, i, answer);
      case DirectoryStep(j) =>
        assert OpRouted(r.dir, r.dir.ops[j]);
        hide Caused, ApplyStep, Inv;
        match r.dir.ops[j] {
          case DispatchLookup(_, _, _) => DispatchCaused(r, more, j);
          case Lookup(_, _) => LookupCaused(r, more, j);
          case Holding(_, _, _) => SubmitCaused(r, more, j);
          case Interpret(_, _) => TurnCaused(r, more, j);
          case Transient(_, _) => TurnCaused(r, more, j);
          case Owning(_, _, effects) =>
            if effects == [] {
              TurnCaused(r, more, j);
            } else {
              EffectStepCaused(r, more, j);
            }
        }
      case _ =>
        hide Caused, Apply, Inv;
        CallCaused(r, more, a);
    }
  }

  // ----- and every cause has its effect -----

  /** What was answered or decided about a command or a lease is recorded as its fate. */
  ghost predicate Recorded<I, C, E, L>(h: Happening<I, C, E, L>, settled: seq<Fate<C, L>>) {
    match h
    case Answered(DeliverOne(_, _, d, _, pending), DeliveryOk) => CommandDelivered(d, pending) in settled
    case Answered(AwaitTermination(_, _, lease, _), Retired) => LeaseRetired(lease) in settled
    case Decided(Activating(g, waiters, _), CancelWaiter(observed, d)) =>
      observed == g ==> forall w <- waiters :: w.dispatchId == d ==> CommandDiscarded(d, w.command) in settled
    case TurnedAway(d, pending) => CommandReturned(d, pending) in settled
    case _ => true
  }

  ghost predicate AllRecorded<I, C, E, L>(r: Runtime<I, C, E, L>, log: seq<Happening<I, C, E, L>>) {
    forall h <- log :: Recorded(h, r.settled)
  }

  lemma RecordedStays<I, C, E, L>(h: Happening<I, C, E, L>, settled: seq<Fate<C, L>>, more: seq<Fate<C, L>>)
    requires Recorded(h, settled)
    ensures Recorded(h, settled + more)
  {}

  /** Fates are only added. */
  lemma SettledGrows<I, C, E, L>(r: Runtime<I, C, E, L>, a: Action<I, C, E, L>)
    requires Enabled(r, a)
    ensures |r.settled| <= |Apply(r, a).settled| && Apply(r, a).settled[..|r.settled|] == r.settled
  {
    hide D.Apply, SettledBy, SetCell, Completed;
  }

  lemma NowRecorded<I, C, E, L>(r: Runtime<I, C, E, L>, a: Action<I, C, E, L>, h: Happening<I, C, E, L>)
    requires Enabled(r, a) && h in Happens(r, a)
    ensures Recorded(h, Apply(r, a).settled)
  {
    match a {
      case Finish(_, _) => hide D.Apply, SetCell;
      case DirectoryStep(j) =>
        var t := Apply(r, a);
        var settled := SettledBy(r.dir, j);
        assert !r.dir.ops[j].Owning? && !r.dir.ops[j].Transient?;
        assert t.settled == r.settled + settled;
        hide D.Apply;
        if h.Decided? && h.state.Activating? && h.event.CancelWaiter? && h.event.activationId == h.state.activationId {
          forall w <- h.state.waiters
            ensures w.dispatchId == h.event.dispatchId ==> CommandDiscarded(h.event.dispatchId, w.command) in t.settled
          {
            DiscardsOf<C, L>(h.state.waiters, h.event.dispatchId, CommandDiscarded(h.event.dispatchId, w.command));
          }
        }
      case _ =>
    }
  }

  lemma ActionRecorded<I, C, E, L>(r: Runtime<I, C, E, L>, log: seq<Happening<I, C, E, L>>, a: Action<I, C, E, L>)
    requires AllRecorded(r, log) && Enabled(r, a)
    ensures AllRecorded(Apply(r, a), log + Happens(r, a))
  {
    hide Recorded, Happens, Enabled, Apply;
    SettledGrows(r, a);
    var n, t := |r.settled|, Apply(r, a);
    assert t.settled == r.settled + t.settled[n..];
    forall h <- log + Happens(r, a)
      ensures Recorded(h, t.settled)
    {
      if h in log {
        RecordedStays(h, r.settled, t.settled[n..]);
      } else {
        NowRecorded(r, a, h);
      }
    }
  }

  // ----- one fence answer per activation -----

  ghost function FenceOf<I, C, E, L>(h: Happening<I, C, E, L>, g: Identity): nat {
    if FenceAnswered(h, g) then 1 else 0
  }

  ghost function FenceAnswers<I, C, E, L>(log: seq<Happening<I, C, E, L>>, g: Identity): nat {
    Tally(log, (FenceOf<I, C, E, L>), g)
  }

  predicate ReportsFence<I, C, E, L>(op: D.Op<I, C, E, L>, g: Identity) {
    (op.Lookup? || op.Holding?) && (op.event.FenceAcknowledged? || op.event.ForceDrain?) && op.event.activationId == g
  }

  predicate Closing<C, E, L>(state: EntitySlot<C, E, L>) {
    state.Retiring? || state.Inactive?
  }

  /** Once the fence of `g` was answered, its report is on its way or its slot is retiring or over. */
  ghost predicate FenceOver<I, C, E, L>(dir: D.Directory<I, C, E, L>, g: Identity) {
    g <= |dir.slots|
    && (Closing(dir.slots[g - 1].State()) || exists j :: 0 <= j < |dir.ops| && ReportsFence(dir.ops[j], g))
  }

  ghost predicate FencesOnce<I, C, E, L>(r: Runtime<I, C, E, L>, log: seq<Happening<I, C, E, L>>) {
    forall g: Identity :: FenceAnswers(log, g) <= 1 && (FenceAnswers(log, g) == 1 ==> FenceOver(r.dir, g))
  }

  lemma ClosingStays<C, E, L>(state: EntitySlot<C, E, L>, event: SlotEvent<C, E, L>)
    requires !event.ClaimActivation? && Closing(state)
    ensures Closing(Reduce(state, event).state)
  {}

  lemma FenceReportCloses<C, E, L>(state: EntitySlot<C, E, L>, g: Identity, event: SlotEvent<C, E, L>)
    requires Expected(state, g, event) && (event.FenceAcknowledged? || event.ForceDrain?) && event.activationId == g
    ensures Reduce(state, event).state.Retiring?
  {}

  lemma SlotsAfter<I, C, E, L>(dir: D.Directory<I, C, E, L>, a: D.Action<I, C, E, L>, k: nat)
    requires D.Enabled(dir, a) && k < |dir.slots|
    ensures
      var t := D.Apply(dir, a);
      && k < |t.slots|
      && if a.Step? && dir.ops[a.op].Holding? && dir.ops[a.op].slot == k
         then t.slots[k].State() == Reduce(dir.slots[k].State(), dir.ops[a.op].event).state
         else t.slots[k].State() == dir.slots[k].State()
  {
    hide Reduce;
  }

  lemma HoldingIsNoClaim<I, C, E, L>(dir: D.Directory<I, C, E, L>, j: nat)
    requires D.Inv(dir) && j < |dir.ops| && dir.ops[j].Holding?
    ensures !dir.ops[j].event.ClaimActivation?
  {
    assert D.OpOk(dir, dir.ops[j]);
  }

  lemma FenceOverStays<I, C(!new), E, L(!new)>(r: Runtime<I, C, E, L>, a: D.Action<I, PendingCommand<C>, E, L>, g: Identity)
    requires Inv(r) && FenceOver(r.dir, g) && D.Enabled(r.dir, a)
    ensures FenceOver(D.Apply(r.dir, a), g)
  {
    var dir, t, k := r.dir, D.Apply(r.dir, a), g - 1;
    SlotsAfter(dir, a, k);
    if Closing(dir.slots[k].State()) {
      if a.Step? && dir.ops[a.op].Holding? {
        HoldingIsNoClaim(dir, a.op);
        ClosingStays(dir.slots[k].State(), dir.ops[a.op].event);
      }
      hide Inv, D.Apply;
    } else {
      var j :| 0 <= j < |dir.ops| && ReportsFence(dir.ops[j], g);
      StepOps(dir, a, j);
      if a == D.Step(j) {
        if dir.ops[j].Lookup? {
          FactFindsItsSlot(r, j);
          FenceLookupHolds(dir, j);
        } else {
          FactIsExpected(r, j);
          HoldingFacts(r, j);
          FenceReportCloses(dir.slots[k].State(), g, dir.ops[j].event);
        }
      }
      hide Inv, D.Apply;
      assert t.ops[j] == dir.ops[j] || ReportsFence(t.ops[j], g) || Closing(t.slots[k].State());
    }
  }

  lemma FenceLookupHolds<I, C, E, L>(dir: D.Directory<I, C, E, L>, j: nat)
    requires D.Enabled(dir, D.Step(j)) && dir.ops[j].Lookup? && dir.ops[j].entity in dir.entries
    ensures
      D.Apply(dir, D.Step(j)).ops[j] == D.Holding(dir.ops[j].entity, dir.entries[dir.ops[j].entity], dir.ops[j].event)
  {}

  /** A fence that is still awaited has not been answered yet. */
  lemma AwaitedIsUnanswered<I, C(!new), E, L(!new)>(r: Runtime<I, C, E, L>, log: seq<Happening<I, C, E, L>>, i: nat)
    requires Inv(r) && FencesOnce(r, log) && i < |r.tasks| && r.tasks[i].AwaitFence?
    ensures FenceAnswers(log, r.tasks[i].activationId) == 0
  {
    var g := r.tasks[i].activationId;
    var x := Item<PendingCommand<C>, L>.Token(Fence, g);
    TallyHas(r.tasks, i, (TaskItem<I, C, E, L>), x);
    TokensAreAwaited(r, Fence, g);
    if FenceAnswers(log, g) > 0 {
      assert FenceOver(r.dir, g);
      if exists j :: 0 <= j < |r.dir.ops| && ReportsFence(r.dir.ops[j], g) {
        var j :| 0 <= j < |r.dir.ops| && ReportsFence(r.dir.ops[j], g);
        TallyHas(r.dir.ops, j, (OpItem<I, C, E, L>), x);
      }
      hide Tally, Inv;
    }
  }

  lemma HappensFence<I, C, E, L>(r: Runtime<I, C, E, L>, a: Action<I, C, E, L>, log: seq<Happening<I, C, E, L>>, g: Identity)
    requires Enabled(r, a)
    ensures FenceAnswers(log + Happens(r, a), g) == FenceAnswers(log, g)
      + if a.Finish? && r.tasks[a.task].AwaitFence? && r.tasks[a.task].activationId == g then 1 else 0
  {
    hide Tally;
    if Happens(r, a) == [] {
      assert log + Happens(r, a) == log;
    } else {
      TallyAppend(log, Happens(r, a)[0], (FenceOf<I, C, E, L>), g);
    }
  }

  /** The answer of an awaited fence is the first one, and its report is on its way. */
  lemma FenceIsAnsweredOnce<I, C(!new), E, L(!new)>(
      r: Runtime<I, C, E, L>, log: seq<Happening<I, C, E, L>>, i: nat, answer: Answer<E, L>)
    requires Inv(r) && FencesOnce(r, log) && Enabled(r, Finish(i, answer)) && r.tasks[i].AwaitFence?
    ensures FenceAnswers(log, r.tasks[i].activationId) == 0
    ensures FenceOver(ApplyFinish(r, i, answer).dir, r.tasks[i].activationId)
  {
    AwaitedIsUnanswered(r, log, i);
    assert TaskRouted(r.dir, r.tasks[i]);
    hide Inv, FencesOnce;
    var t := ApplyFinish(r, i, answer);
    assert ReportsFence(t.dir.ops[|r.dir.ops|], r.tasks[i].activationId);
  }

  lemma ActionFencesOnce<I, C(!new), E, L(!new)>(r: Runtime<I, C, E, L>, log: seq<Happening<I, C, E, L>>, a: Action<I, C, E, L>)
    requires Inv(r) && FencesOnce(r, log) && Enabled(r, a)
    ensures FencesOnce(Apply(r, a), log + Happens(r, a))
  {
    var t, more := Apply(r, a), log + Happens(r, a);
    forall g: Identity
      ensures FenceAnswers(more, g) <= 1 && (FenceAnswers(more, g) == 1 ==> FenceOver(t.dir, g))
    {
      HappensFence(r, a, log, g);
      if a.Finish? && r.tasks[a.task].AwaitFence? && r.tasks[a.task].activationId == g {
        hide Inv, FenceOver, FencesOnce, ApplyFinish;
        FenceIsAnsweredOnce(r, log, a.task, a.answer);
      } else {
        ActsOnDirectory(r, a);
        hide Inv, Apply, Enabled, FenceOver, Happens, DirectoryAction;
        if FenceAnswers(log, g) == 1 && DirectoryAction(r, a).Some? {
          FenceOverStays(r, DirectoryAction(r, a).value, g);
        }
      }
    }
    hide *;
  }

  // ----- every run -----

  ghost predicate Explained<I, C(!new), E, L(!new)>(r: Runtime<I, C, E, L>, log: seq<Happening<I, C, E, L>>) {
    Inv(r) && Caused(r, log) && AllRecorded(r, log) && FencesOnce(r, log)
  }

  lemma {:induction false} RunExplained<I, C(!new), E, L(!new)>(
      r: Runtime<I, C, E, L>, log: seq<Happening<I, C, E, L>>, run: seq<Action<I, C, E, L>>)
    requires Explained(r, log) && ValidRun(r, run)
    ensures Explained(After(r, run), LogAfter(r, log, run))
    decreases |run|
  {
    hide Inv, Caused, AllRecorded, FencesOnce, Enabled, Apply, Happens;
    if run != [] {
      ActionKeepsInv(r, run[0]);
      ActionCaused(r, log, run[0]);
      ActionRecorded(r, log, run[0]);
      ActionFencesOnce(r, log, run[0]);
      RunExplained(Apply(r, run[0]), log + Happens(r, run[0]), run[1..]);
    }
  }

  lemma ReachableExplained<I, C(!new), E, L(!new)>(r: Runtime<I, C, E, L>, limit: Positive, run: seq<Action<I, C, E, L>>)
    requires Reachable(r, limit, run)
    ensures Explained(r, LogOf(limit, run))
  {
    var start := Start<I, C, E, L>(limit);
    StartInv<I, C, E, L>(limit);
    assert Explained(start, []);
    hide Explained;
    RunExplained(start, [], run);
  }

  /** Among the answers in the log, the one the fence of `g` got. */
  ghost predicate FenceGot<I, C, E, L>(log: seq<Happening<I, C, E, L>>, g: Identity, answer: Answer<E, L>) {
    exists h :: h in log && FenceAnswered(h, g) && h.answer == answer
  }

  lemma FenceGotOne<I, C, E, L>(log: seq<Happening<I, C, E, L>>, g: Identity, one: Answer<E, L>, other: Answer<E, L>)
    requires FenceAnswers(log, g) <= 1 && FenceGot(log, g, one) && FenceGot(log, g, other)
    ensures one == other
  {
    var h :| h in log && FenceAnswered(h, g) && h.answer == one;
    var k :| k in log && FenceAnswered(k, g) && k.answer == other;
    var i :| 0 <= i < |log| && log[i] == h;
    var j :| 0 <= j < |log| && log[j] == k;
    if i != j {
      TallyTwo(log, i, j, (FenceOf<I, C, E, L>), g);
    }
  }

  /** In every reachable state a lease being retired was fenced exactly once, and its retirement is
      what that one fence was answered: graceful if and only if it was acknowledged, and otherwise
      forced with the stage at which it failed and nothing outstanding. */
  lemma RetirementFollowsTheFence<I, C(!new), E, L(!new)>(
      r: Runtime<I, C, E, L>, limit: Positive, run: seq<Action<I, C, E, L>>, i: nat)
    requires Reachable(r, limit, run) && i < |r.tasks| && r.tasks[i].AwaitTermination?
    ensures
      var log, g, mode := LogOf(limit, run), r.tasks[i].activationId, r.tasks[i].retirement;
      && FenceAnswers(log, g) == 1
      && mode in [Graceful, Forced(DrainFailure(FenceEnqueue, 0)), Forced(DrainFailure(FenceAcknowledgement, 0))]
      && (mode == Graceful <==> FenceGot(log, g, FenceOk))
      && (mode == Forced(DrainFailure(FenceEnqueue, 0)) <==> FenceGot(log, g, FenceError(Enqueue)))
      && (mode == Forced(DrainFailure(FenceAcknowledgement, 0)) <==> FenceGot(log, g, FenceError(Acknowledgement)))
  {
    ReachableExplained(r, limit, run);
    var log, g, mode := LogOf(limit, run), r.tasks[i].activationId, r.tasks[i].retirement;
    assert TaskCaused(log, r.tasks[i]);
    hide Explained, ValidRun, After, LogOf;
    var h :| h in log && FenceAnswered(h, g) && CallsFor(h.answer, mode);
    var k :| 0 <= k < |log| && log[k] == h;
    TallyHas(log, k, (FenceOf<I, C, E, L>), g);
    forall answer | FenceGot(log, g, answer)
      ensures answer == h.answer
    {
      FenceGotOne(log, g, answer, h.answer);
    }
    assert FenceGot(log, g, h.answer);
  }

  /** What a fate is the record of, and every happening that is one has its fate: in every reachable
      state a command was delivered, refused, discarded or returned, and a lease retired, only
      because that was answered or decided, and always then. In particular the reason in every
      refusal is the one for which the deciding slot refused. */
  lemma EveryFateHasItsCause<I, C(!new), E, L(!new)>(r: Runtime<I, C, E, L>, limit: Positive, run: seq<Action<I, C, E, L>>)
    requires Reachable(r, limit, run)
    ensures forall f <- r.settled :: FateCaused(LogOf(limit, run), f)
    ensures forall h <- LogOf(limit, run) :: Recorded(h, r.settled)
  {
    ReachableExplained(r, limit, run);
    hide ValidRun, After, LogOf, Inv, FencesOnce, FateCaused, Recorded;
  }
}
