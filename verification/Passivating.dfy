/** Passivation: what its answers say, and when the answer that a passivation is already in
    progress is about the incarnation the caller observed. */
module Passivating {
  import opened Common
  import opened Lifecycle
  import opened Evidence
  import opened Ledger
  import opened Runtime
  import opened RuntimeLedger
  import opened RuntimeFacts
  import D = Directory

  datatype Passivation = Begun | NotActive | AlreadyPassivating | Superseded

  function PassivationOf(evidence: TransitionEvidence): Passivation {
    match evidence
    case Traversed(_) => Begun
    case SelfLoop(phase, _) => PassivationAt(phase)
    case Ignored(phase, _) => PassivationAt(phase)
  }

  function PassivationAt(phase: LifecyclePhase): Passivation {
    match phase
    case Active => Superseded
    case Draining => AlreadyPassivating
    case Retiring => AlreadyPassivating
    case Inactive => NotActive
    case Activating => NotActive
  }

  /** A passivation answers Begun exactly when this very submission closed the admission of
      the incarnation it observed, and Superseded exactly when a different incarnation was
      active; the other answers report the phase alone, of whichever incarnation. */
  lemma PassivateIsHonest<I, C, E, L>(dir: D.Directory<I, C, E, L>, j: nat)
    requires D.Inv(dir) && D.Enabled(dir, D.Step(j)) && dir.ops[j].Holding? && dir.ops[j].event.BeginDrain?
    ensures
      var t, k, g := D.StepSubmit(dir, j), dir.ops[j].slot, dir.ops[j].event.activationId;
      var before, after := dir.slots[k].State(), t.slots[k].State();
      && t.replies[j].Some? && t.replies[j].value.Installed?
      && match PassivationOf(t.replies[j].value.output.evidence)
         case Begun => before.Active? && before.activationId == g == dir.slots[k].activationId && after.Draining? && after.activationId == g
         case Superseded => before.Active? && before.activationId != g && after == before
         case AlreadyPassivating => (before.Draining? || before.Retiring?) && after == before
         case NotActive => (before.Inactive? || before.Activating?) && after == before
  {
    hide D.Balanced, D.OpOk;
    assert D.SlotOk(dir, dir.ops[j].slot);
    EvidenceIsFaithful(dir.slots[dir.ops[j].slot].State(), dir.ops[j].event);
    BeginDrainFacts(dir.slots[dir.ops[j].slot].State(), dir.ops[j].event);
    hide Transition, D.Inv;
  }

  lemma BeginDrainFacts<C, E, L>(state: EntitySlot<C, E, L>, event: SlotEvent<C, E, L>)
    requires event.BeginDrain?
    ensures
      var (output, next) := Transition(state, event);
      if state.Active? && state.activationId == event.activationId
      then output.evidence.Traversed? && next.Draining? && next.activationId == state.activationId
      else next == state && output.evidence == Ignored(state.Phase(), LifecycleTrigger.BeginDrain)
  {}

  /** What passivate answers without submitting anything: not active, if the directory reports
      no current activation. */
  function EarlyAnswer<I(==), C, E, L>(r: Runtime<I, C, E, L>, entity: I): Option<Passivation>
    requires Enabled(r, Passivate(entity))
  {
    if D.CurrentActivation(r.dir, entity).None? then Some(NotActive) else None
  }

  /** In every reachable state passivate ends at once exactly when its entity is unmapped or its
      slot inactive, and then changes nothing; otherwise it goes on to ask the activation its
      slot is in to drain. */
  lemma PassivateEndsEarlyWithoutActivation<I, C(!new), E, L(!new)>(
      r: Runtime<I, C, E, L>, waiterLimit: Positive, run: seq<Action<I, C, E, L>>, entity: I)
    requires Reachable(r, waiterLimit, run)
    ensures
      Enabled(r, Passivate(entity))
      && var t := Apply(r, Passivate(entity));
         if entity !in r.dir.entries || r.dir.slots[r.dir.entries[entity]].State().Inactive?
         then EarlyAnswer(r, entity) == Some(NotActive) && t == r
         else
           && EarlyAnswer(r, entity) == None
           && t.dir.ops == r.dir.ops
              + [D.Lookup(entity, SlotEvent.BeginDrain(r.dir.slots[r.dir.entries[entity]].State().activationId))]
  {
    StartInv<I, C, E, L>(waiterLimit);
    RunKeepsInv(Start(waiterLimit), run);
    hide ValidRun, After, AllRouted, Balanced, D.SlotOk, D.Balanced, D.OpOk;
    D.CurrentActivationIsCurrent(r.dir, entity);
  }

  /** A passivation whose entity has no slot any more when it is looked up is not active either. */
  lemma PassivateAbsent<C, E, L>(g: Identity)
    ensures PassivationOf(Transition(EntitySlot<C, E, L>.Inactive, SlotEvent.BeginDrain(g)).0.evidence) == NotActive
  {}

  /** AlreadyPassivating names no incarnation: it is the answer for any observed activation as
      long as some incarnation is draining or retiring, and only then. */
  lemma AlreadyPassivatingIsPhaseOnly<C, E, L>(state: EntitySlot<C, E, L>, g: Identity)
    ensures PassivationOf(Transition(state, SlotEvent.BeginDrain(g)).0.evidence) == AlreadyPassivating
       <==> state.Draining? || state.Retiring?
  {
    BeginDrainFacts(state, SlotEvent.BeginDrain(g));
    hide Transition;
  }

  // ----- which incarnation a passivation in progress is about -----

  /** The answer a passivation holding a slot gets when it submits. */
  function AnswerHeld<I, C, E, L>(dir: D.Directory<I, C, E, L>, j: nat): Passivation
    requires D.Enabled(dir, D.Step(j)) && dir.ops[j].Holding? && dir.ops[j].event.BeginDrain?
  {
    PassivationOf(D.StepSubmit(dir, j).replies[j].value.output.evidence)
  }

  /** What an action does to the directory: at most one directory action. */
  function DirectoryAction<I(==), C, E, L>(r: Runtime<I, C, E, L>, a: Action<I, C, E, L>): Option<D.Action<I, PendingCommand<C>, E, L>>
    requires Enabled(r, a)
  {
    match a
    case Dispatch(entity, command) => Some(D.CallDispatch(entity, PendingCommand(command, r.dir.nextDispatch)))
    case Passivate(entity) =>
      var current := D.CurrentActivation(r.dir, entity);
      if current.Some? then Some(D.Call(entity, SlotEvent.BeginDrain(current.value))) else None
    case DropWait(d) =>
      var activation := WaitActivation(r.dir.replies[r.waits[d].op]);
      if (d in r.cells && r.cells[d].Consumed?) || activation.None? then None
      else Some(D.Call(r.waits[d].entity, SlotEvent.CancelWaiter(activation.value, d)))
    case Poll(_) => None
    case DirectoryStep(j) => Some(D.Step(j))
    case Finish(i, answer) => Some(D.Call(r.tasks[i].entity, Fact(r.tasks[i], answer)))
  }

  lemma ActsOnDirectory<I, C, E, L>(r: Runtime<I, C, E, L>, a: Action<I, C, E, L>)
    requires Enabled(r, a)
    ensures
      var action := DirectoryAction(r, a);
      if action.None? then Apply(r, a).dir == r.dir
      else D.Enabled(r.dir, action.value) && Apply(r, a).dir == D.Apply(r.dir, action.value)
  {
    hide D.Apply, SettledBy;
  }

  predicate Drains<I, C, E, L>(op: D.Op<I, C, E, L>) {
    (op.Lookup? || op.Holding?) && op.event.BeginDrain?
  }

  /** A drain is asked of an activation its entity had. */
  ghost predicate DrainsRouted<I, C, E, L>(dir: D.Directory<I, PendingCommand<C>, E, L>) {
    forall j :: 0 <= j < |dir.ops| && Drains(dir.ops[j]) ==> Routed(dir, dir.ops[j].entity, dir.ops[j].event.activationId)
  }

  /** What a directory step leaves of an operation: itself, or the next section of the stepping one. */
  lemma StepOps<I, C, E, L>(dir: D.Directory<I, C, E, L>, a: D.Action<I, C, E, L>, i: nat)
    requires D.Enabled(dir, a) && i < |dir.ops|
    ensures
      var t := D.Apply(dir, a);
      && i < |t.ops|
      && (t.ops[i] == dir.ops[i] || (a == D.Step(i) && (
           if dir.ops[i].Holding? then t.ops[i].Interpret?
           else if dir.ops[i].Lookup? && t.ops[i].Holding?
           then dir.ops[i].entity in dir.entries
                && t.ops[i] == D.Holding(dir.ops[i].entity, dir.entries[dir.ops[i].entity], dir.ops[i].event)
           else !Drains(t.ops[i]) && (t.ops[i].Holding? ==> dir.ops[i].DispatchLookup?))))
  {
    hide Transition, D.SubmitTo, D.Answer;
  }

  lemma StepSlots<I, C, E, L>(dir: D.Directory<I, C, E, L>, a: D.Action<I, C, E, L>)
    requires D.Inv(dir) && D.Enabled(dir, a)
    ensures |dir.slots| <= |D.Apply(dir, a).slots|
    ensures forall k :: 0 <= k < |dir.slots| ==> D.Apply(dir, a).slots[k].entity == dir.slots[k].entity
  {
    hide D.Inv, D.Apply;
    forall k | 0 <= k < |dir.slots|
      ensures k < |D.Apply(dir, a).slots| && D.Apply(dir, a).slots[k].entity == dir.slots[k].entity
    {
      D.InactiveStep(dir, a, k);
    }
    if |dir.slots| > 0 {
      D.InactiveStep(dir, a, |dir.slots| - 1);
    }
  }

  lemma DirectoryDrainsRouted<I, C, E, L>(dir: D.Directory<I, PendingCommand<C>, E, L>, a: D.Action<I, PendingCommand<C>, E, L>)
    requires D.Inv(dir) && DrainsRouted(dir) && D.Enabled(dir, a)
    requires a.Call? && a.event.BeginDrain? ==> Routed(dir, a.entity, a.event.activationId)
    ensures DrainsRouted(D.Apply(dir, a))
  {
    StepSlots(dir, a);
    var t := D.Apply(dir, a);
    forall i | 0 <= i < |dir.ops|
      ensures i < |t.ops| && (Drains(t.ops[i]) ==>
        Drains(dir.ops[i]) && t.ops[i].entity == dir.ops[i].entity && t.ops[i].event == dir.ops[i].event)
    {
      StepOps(dir, a, i);
    }
    hide D.Inv, Transition, D.SubmitTo, D.Answer;
    assert forall i :: |dir.ops| <= i < |t.ops| && Drains(t.ops[i]) ==>
      a.Call? && t.ops[i].entity == a.entity && t.ops[i].event == a.event;
  }

  lemma CurrentIsRouted<I, C, E, L>(dir: D.Directory<I, PendingCommand<C>, E, L>, entity: I)
    requires D.Inv(dir)
    ensures
      var current := D.CurrentActivation(dir, entity);
      current.Some? ==> Routed(dir, entity, current.value)
  {
    D.CurrentActivationIsCurrent(dir, entity);
    hide D.Balanced, D.OpOk;
    if entity in dir.entries {
      assert D.SlotOk(dir, dir.entries[entity]);
    }
  }

  lemma ActionDrainsRouted<I, C(!new), E, L(!new)>(r: Runtime<I, C, E, L>, a: Action<I, C, E, L>)
    requires D.Inv(r.dir) && DrainsRouted(r.dir) && Enabled(r, a)
    ensures DrainsRouted(Apply(r, a).dir)
  {
    ActsOnDirectory(r, a);
    if a.Passivate? {
      CurrentIsRouted(r.dir, a.entity);
    }
    hide D.Inv, D.Apply, DrainsRouted, Apply, D.CurrentActivation;
    var action := DirectoryAction(r, a);
    if action.Some? {
      DirectoryDrainsRouted(r.dir, action.value);
    }
  }

  lemma {:induction false} RunDrainsRouted<I, C(!new), E, L(!new)>(r: Runtime<I, C, E, L>, run: seq<Action<I, C, E, L>>)
    requires D.Inv(r.dir) && DrainsRouted(r.dir) && ValidRun(r, run)
    ensures DrainsRouted(After(r, run).dir) && D.Inv(After(r, run).dir)
    decreases |run|
  {
    hide D.Inv, DrainsRouted, Apply, Enabled;
    if run != [] {
      ActionDrainsRouted(r, run[0]);
      ActionKeepsDirectoryInv(r, run[0]);
      RunDrainsRouted(Apply(r, run[0]), run[1..]);
    }
  }

  /** An operation that has submitted never holds a slot again. */
  predicate Past<I, C, E, L>(op: D.Op<I, C, E, L>) {
    !op.DispatchLookup? && !op.Lookup? && !op.Holding?
  }

  lemma PastStays<I, C, E, L>(dir: D.Directory<I, C, E, L>, a: D.Action<I, C, E, L>, i: nat)
    requires D.Enabled(dir, a) && i < |dir.ops| && Past(dir.ops[i])
    ensures i < |D.Apply(dir, a).ops| && Past(D.Apply(dir, a).ops[i])
  {
    hide Transition, D.SubmitTo, D.Answer;
  }

  /** While an operation holds a slot, it is the slot its lookup found. */
  lemma {:induction false} HeldSinceLookup<I, C, E, L>(
      r: Runtime<I, C, E, L>, run: seq<Action<I, C, E, L>>, j: nat, held: D.Op<I, PendingCommand<C>, E, L>)
    requires ValidRun(r, run) && j < |r.dir.ops| && held.Holding? && (r.dir.ops[j] == held || Past(r.dir.ops[j]))
    ensures
      var t := After(r, run);
      j < |t.dir.ops| && (t.dir.ops[j] == held || Past(t.dir.ops[j]))
    decreases |run|
  {
    hide Apply, Enabled;
    if run != [] {
      ActsOnDirectory(r, run[0]);
      var action := DirectoryAction(r, run[0]);
      hide D.Apply, DirectoryAction;
      if action.Some? {
        StepOps(r.dir, action.value, j);
        if Past(r.dir.ops[j]) {
          PastStays(r.dir, action.value, j);
        }
      }
      HeldSinceLookup(Apply(r, run[0]), run[1..], j, held);
    }
  }

  /** In every reachable state, a passivation about to be answered that one is in progress meets
      the incarnation it observed if and only if it holds that incarnation's slot. */
  lemma AlreadyPassivatingIsOfTheSlot<I, C(!new), E, L(!new)>(
      r: Runtime<I, C, E, L>, waiterLimit: Positive, run: seq<Action<I, C, E, L>>, j: nat)
    requires Reachable(r, waiterLimit, run)
    requires D.Enabled(r.dir, D.Step(j)) && r.dir.ops[j].Holding? && r.dir.ops[j].event.BeginDrain?
    requires AnswerHeld(r.dir, j) == AlreadyPassivating
    ensures
      var op := r.dir.ops[j];
      var state := r.dir.slots[op.slot].State();
      (state.Draining? || state.Retiring?)
      && (state.activationId == op.event.activationId <==> op.slot == op.event.activationId - 1)
  {
    StartInv<I, C, E, L>(waiterLimit);
    RunKeepsInv(Start(waiterLimit), run);
    hide ValidRun, After, AllRouted, Balanced;
    var op := r.dir.ops[j];
    AlreadyPassivatingIsPhaseOnly(r.dir.slots[op.slot].State(), op.event.activationId);
    SlotActivation(r, op.slot);
    hide Inv, Transition;
  }

  /** And it holds that slot if and only if the slot was still mapped when it was looked up. So the
      documented meaning of the answer, a passivation of the exact incarnation observed, holds
      exactly then. */
  lemma AlreadyPassivatingIsExactIffStillMapped<I, C(!new), E, L(!new)>(
      r: Runtime<I, C, E, L>, waiterLimit: Positive, run: seq<Action<I, C, E, L>>, j: nat, later: seq<Action<I, C, E, L>>)
    requires Reachable(r, waiterLimit, run) && Enabled(r, DirectoryStep(j))
    requires r.dir.ops[j].Lookup? && r.dir.ops[j].event.BeginDrain? && r.dir.ops[j].entity in r.dir.entries
    requires ValidRun(Apply(r, DirectoryStep(j)), later)
    requires
      var t := After(Apply(r, DirectoryStep(j)), later);
      D.Enabled(t.dir, D.Step(j)) && t.dir.ops[j].Holding? && t.dir.ops[j].event.BeginDrain?
      && AnswerHeld(t.dir, j) == AlreadyPassivating
    ensures
      var t, g := After(Apply(r, DirectoryStep(j)), later), r.dir.ops[j].event.activationId;
      var held := t.dir.ops[j];
      && held.event == r.dir.ops[j].event && g <= |r.dir.slots|
      && !t.dir.slots[held.slot].State().Inactive?
      && (t.dir.slots[held.slot].State().activationId == g <==> held.slot == g - 1)
      && (held.slot == g - 1 <==> !r.dir.slots[g - 1].removed)
  {
    var op, looked := r.dir.ops[j], Apply(r, DirectoryStep(j));
    var whole := run + ([DirectoryStep(j)] + later);
    RunsCompose(Start(waiterLimit), run, [DirectoryStep(j)] + later);
    assert ([DirectoryStep(j)] + later)[1..] == later;
    var t := After(looked, later);
    AlreadyPassivatingIsOfTheSlot(t, waiterLimit, whole, j);
    LookedUp(r, j);
    HeldSinceLookup(looked, later, j, D.Holding(op.entity, r.dir.entries[op.entity], op.event));
    RoutedAtLookup(r, waiterLimit, run, j);
    hide ValidRun, After, Apply, AnswerHeld;
  }

  lemma LookedUp<I, C, E, L>(r: Runtime<I, C, E, L>, j: nat)
    requires Enabled(r, DirectoryStep(j)) && r.dir.ops[j].Lookup? && r.dir.ops[j].entity in r.dir.entries
    ensures
      var op, t := r.dir.ops[j], Apply(r, DirectoryStep(j));
      j < |t.dir.ops| && t.dir.ops[j] == D.Holding(op.entity, r.dir.entries[op.entity], op.event)
  {}

  /** The slot of the activation observed is mapped at the lookup exactly when the lookup finds it. */
  lemma RoutedAtLookup<I, C(!new), E, L(!new)>(
      r: Runtime<I, C, E, L>, waiterLimit: Positive, run: seq<Action<I, C, E, L>>, j: nat)
    requires Reachable(r, waiterLimit, run) && j < |r.dir.ops|
    requires r.dir.ops[j].Lookup? && r.dir.ops[j].event.BeginDrain? && r.dir.ops[j].entity in r.dir.entries
    ensures
      var op, g := r.dir.ops[j], r.dir.ops[j].event.activationId;
      g <= |r.dir.slots| && (r.dir.entries[op.entity] == g - 1 <==> !r.dir.slots[g - 1].removed)
  {
    StartInv<I, C, E, L>(waiterLimit);
    RunDrainsRouted(Start(waiterLimit), run);
    hide ValidRun, After, D.Balanced, D.OpOk;
    assert Drains(r.dir.ops[j]);
    assert D.SlotOk(r.dir, r.dir.ops[j].event.activationId - 1);
  }

  lemma {:induction false} RunsCompose<I, C, E, L>(r: Runtime<I, C, E, L>, a: seq<Action<I, C, E, L>>, b: seq<Action<I, C, E, L>>)
    requires ValidRun(r, a) && ValidRun(After(r, a), b)
    ensures ValidRun(r, a + b) && After(r, a + b) == After(After(r, a), b)
    decreases |a|
  {
    hide Apply, Enabled;
    if a == [] {
      assert a + b == b;
    } else {
      RunsCompose(Apply(r, a[0]), a[1..], b);
      assert (a + b)[0] == a[0] && (a + b)[1..] == a[1..] + b;
    }
  }
}
