/** Transition-linearized execution with separately ordered output dispatch: the locked
    sections as methods of a class, and every interleaving of them as a transition system. */
module Linearized {
  import opened Common

  datatype Seat<M> = Ready(machine: M) | Poisoned

  datatype DispatchState = Idle | Dispatching

  /** Everything the execution mutex protects. */
  datatype Execution<M, O, V> = Execution(
    seat: Seat<M>,
    outputs: seq<O>,
    evidence: Option<V>,
    dispatch: DispatchState)

  function New<M, O, V>(machine: M): Execution<M, O, V> {
    Execution(Ready(machine), [], None, Idle)
  }

  /** One linearized transition: successor, evidence and output are installed together. */
  function Install<M, O, V>(x: Execution<M, O, V>, successor: M, output: O, evidence: V): Execution<M, O, V> {
    x.(seat := Ready(successor), outputs := x.outputs + [output], evidence := Some(evidence))
  }

  /** The machine a caller may implement; a panic of `step` is the environment's choice. */
  datatype Machine<!M, !I, !O, !V> = Machine(step: (M, I) -> (O, M), evidence: O -> V)

  // ----- the executor object -----

  datatype Reply<V> = Accepted(evidence: V) | Panicked

  datatype DispatchOutcome = Drained | OwnedElsewhere

  class LinearizedExecutor<M, I, O, V> {
    const machine: Machine<M, I, O, V>
    var seat: Seat<M>
    var outputs: seq<O>
    var evidence: Option<V>
    var dispatch: DispatchState
    /** The mutex was poisoned: a panic unwound while it was held. */
    var lockPoisoned: bool

    ghost function State(): Execution<M, O, V>
      reads this
    {
      Execution(seat, outputs, evidence, dispatch)
    }

    /** The object as a system with the given call frames, to say which step a section is. */
    ghost function View(frames: seq<Frame<O>>): System<M, I, O, V>
      reads this
    {
      System(State(), lockPoisoned, frames, [], [], false)
    }

    constructor (machine: Machine<M, I, O, V>, initial: M)
      ensures State() == New(initial) && !lockPoisoned && this.machine == machine
    {
      this.machine := machine;
      seat, outputs, evidence, dispatch, lockPoisoned := Ready(initial), [], None, Idle, false;
    }

    /** Advance and enqueue at one linearization point. `panics` says whether the transition
        unwinds, in which case the machine is gone and the mutex is poisoned. */
    method Submit(input: I, panics: bool) returns (reply: Reply<V>)
      modifies this
      ensures old(lockPoisoned) || old(seat).Poisoned? ==>
        reply == Panicked && State() == old(State()) && lockPoisoned
      ensures !old(lockPoisoned) && old(seat).Ready? && panics ==>
        reply == Panicked && State() == old(State()).(seat := Poisoned) && lockPoisoned
      ensures !old(lockPoisoned) && old(seat).Ready? && !panics ==>
        var (output, successor) := machine.step(old(seat).machine, input);
        && reply == Accepted(machine.evidence(output))
        && State() == Install(old(State()), successor, output, machine.evidence(output))
        && !lockPoisoned
      ensures
        var t := Apply(machine, old(View([])), Action.Submit(input, panics));
        State() == t.execution && lockPoisoned == t.lockPoisoned && (reply.Accepted? <==> t.frames == [MustDispatch])
    {
      if lockPoisoned {
        return Panicked;
      }
      var taken := seat;
      seat := Poisoned;
      if taken.Poisoned? || panics {
        lockPoisoned := true;
        return Panicked;
      }
      var (output, successor) := machine.step(taken.machine, input);
      var found := machine.evidence(output);
      evidence := Some(found);
      seat := Ready(successor);
      outputs := outputs + [output];
      return Accepted(found);
    }

    /** Take dispatch ownership unless another caller has it; None when the lock panics. */
    method Acquire() returns (owned: Option<bool>)
      modifies this`dispatch
      ensures owned.None? <==> lockPoisoned
      ensures owned.Some? ==> owned.value == (old(dispatch) == Idle) && dispatch == Dispatching
      ensures owned.None? ==> dispatch == old(dispatch)
      ensures
        var t := Apply(machine, old(View([MustDispatch])), Action.Acquire(0));
        State() == t.execution && t.frames == [if owned == Some(true) then Owner else Finished]
    {
      if lockPoisoned {
        return None;
      }
      match dispatch
      case Dispatching => return Some(false);
      case Idle =>
        dispatch := Dispatching;
        return Some(true);
    }

    /** Pop the next output, or give ownership up when there is none; None when the lock panics. */
    method Next() returns (next: Option<Option<O>>)
      modifies this`outputs, this`dispatch
      ensures next.None? <==> lockPoisoned
      ensures next.None? ==> outputs == old(outputs) && dispatch == old(dispatch)
      ensures next.Some? && old(outputs) == [] ==> next.value == None && outputs == [] && dispatch == Idle
      ensures next.Some? && old(outputs) != [] ==>
        next.value == Some(old(outputs)[0]) && outputs == old(outputs)[1..] && dispatch == old(dispatch)
      ensures
        var t := Apply(machine, old(View([Owner])), Action.Next(0));
        State() == t.execution
        && t.frames == [if next.None? then Unwinding else if next.value.Some? then Handling(next.value.value) else Finished]
    {
      if lockPoisoned {
        return None;
      }
      if outputs == [] {
        dispatch := Idle;
        return Some(None);
      }
      next := Some(Some(outputs[0]));
      outputs := outputs[1..];
    }

    /** The ownership guard's drop, which recovers even a poisoned lock. */
    method Release()
      modifies this`dispatch
      ensures dispatch == Idle
      ensures State() == Apply(machine, old(View([Unwinding])), Action.Drop(0)).execution
    {
      dispatch := Idle;
    }

    /** Dispatch queued outputs until empty, when no one else interferes. A poisoned lock panics at
        once. The handler may panic while handling one output: that output is dropped, the rest
        stays queued, and ownership is released for a later call. */
    method DispatchPending(panicAt: Option<nat>) returns (handled: seq<O>, outcome: Option<DispatchOutcome>)
      modifies this`outputs, this`dispatch
      ensures handled + outputs == old(outputs)
      ensures lockPoisoned ==> outcome == None && handled == [] && dispatch == old(dispatch)
      ensures !lockPoisoned && old(dispatch) == Dispatching ==>
        outcome == Some(OwnedElsewhere) && handled == [] && dispatch == Dispatching
      ensures !lockPoisoned && old(dispatch) == Idle ==> dispatch == Idle
      ensures !lockPoisoned && old(dispatch) == Idle && panicAt.Some? && panicAt.value < |old(outputs)| ==>
        outcome == None && |handled| == panicAt.value + 1
      ensures !lockPoisoned && old(dispatch) == Idle && (panicAt.None? || panicAt.value >= |old(outputs)|) ==>
        outcome == Some(Drained) && outputs == []
    {
      handled := [];
      var owned := Acquire();
      if owned.None? {
        return handled, None;
      }
      if !owned.value {
        return handled, Some(OwnedElsewhere);
      }
      while true
        invariant !lockPoisoned && dispatch == Dispatching
        invariant handled + outputs == old(outputs)
        invariant panicAt.Some? ==> |handled| <= panicAt.value
        decreases |outputs|
      {
        var next := Next();
        if next.value.None? {
          return handled, Some(Drained);
        }
        handled := handled + [next.value.value];
        if panicAt == Some(|handled| - 1) {
          Release();
          return handled, None;
        }
      }
    }
  }

  // ----- every interleaving -----

  /** One call frame: a reentrant call is simply another frame. */
  datatype Frame<O> =
    | MustDispatch            // about to call dispatch_pending
    | Owner                   // owns dispatch, about to pop
    | Handling(output: O)     // its handler is running
    | Unwinding               // panicking with the ownership guard still armed
    | Finished
  {
    predicate Owns() { Owner? || Handling? || Unwinding? }
  }

  datatype System<M, I, O, V> = System(
    execution: Execution<M, O, V>,
    lockPoisoned: bool,
    frames: seq<Frame<O>>,
    accepted: seq<I>,         // inputs in linearization order
    started: seq<O>,          // outputs whose handling has started
    abandoned: bool)          // a handler panicked and no one has called since its guard was dropped

  datatype Action<I> =
    | Submit(input: I, panics: bool)
    | CallDispatch
    | Acquire(frame: nat)
    | Next(frame: nat)
    | HandlerReturns(frame: nat)
    | HandlerPanics(frame: nat)
    | Drop(frame: nat)

  predicate Enabled<M, I, O, V>(s: System<M, I, O, V>, a: Action<I>) {
    match a
    case Submit(_, _) => true
    case CallDispatch => true
    case Acquire(f) => f < |s.frames| && s.frames[f].MustDispatch?
    case Next(f) => f < |s.frames| && s.frames[f].Owner?
    case HandlerReturns(f) => f < |s.frames| && s.frames[f].Handling?
    case HandlerPanics(f) => f < |s.frames| && s.frames[f].Handling?
    case Drop(f) => f < |s.frames| && s.frames[f].Unwinding?
  }

  predicate AnyUnwinding<O>(frames: seq<Frame<O>>) {
    exists i :: 0 <= i < |frames| && frames[i].Unwinding?
  }

  /** Somebody is dispatching and not panicking, or still to call dispatch. */
  ghost predicate Attended<O>(frames: seq<Frame<O>>) {
    exists i :: 0 <= i < |frames| && (frames[i].MustDispatch? || frames[i].Owner? || frames[i].Handling?)
  }

  function Apply<M, I, O, V>(m: Machine<M, I, O, V>, s: System<M, I, O, V>, a: Action<I>): System<M, I, O, V>
    requires Enabled(s, a)
  {
    match a
    case Submit(input, panics) =>
      if s.lockPoisoned then s
      else if s.execution.seat.Poisoned? || panics then
        s.(execution := s.execution.(seat := Poisoned), lockPoisoned := true)
      else
        var (output, successor) := m.step(s.execution.seat.machine, input);
        s.(execution := Install(s.execution, successor, output, m.evidence(output)),
           accepted := s.accepted + [input],
           frames := s.frames + [MustDispatch],
           abandoned := s.abandoned && AnyUnwinding(s.frames))
    case CallDispatch =>
      s.(frames := s.frames + [MustDispatch], abandoned := s.abandoned && AnyUnwinding(s.frames))
    case Acquire(f) =>
      if s.lockPoisoned || s.execution.dispatch == Dispatching then s.(frames := s.frames[f := Finished])
      else s.(execution := s.execution.(dispatch := Dispatching), frames := s.frames[f := Owner])
    case Next(f) =>
      if s.lockPoisoned then s.(frames := s.frames[f := Unwinding])
      else if s.execution.outputs == [] then
        s.(execution := s.execution.(dispatch := Idle), frames := s.frames[f := Finished])
      else
        var output := s.execution.outputs[0];
        s.(execution := s.execution.(outputs := s.execution.outputs[1..]),
           frames := s.frames[f := Handling(output)],
           started := s.started + [output])
    case HandlerReturns(f) => s.(frames := s.frames[f := Owner])
    case HandlerPanics(f) => s.(frames := s.frames[f := Unwinding], abandoned := true)
    case Drop(f) => s.(execution := s.execution.(dispatch := Idle), frames := s.frames[f := Finished])
  }

  ghost predicate Inv<M, I, O, V>(m: Machine<M, I, O, V>, initial: M, s: System<M, I, O, V>) {
    var (outputs, state) := Fold(m.step, initial, s.accepted);
    // Handled outputs followed by queued ones are the machine's outputs, in order.
    && s.started + s.execution.outputs == outputs
    && (s.execution.seat.Poisoned? <==> s.lockPoisoned)
    && (!s.lockPoisoned ==> s.execution.seat == Ready(state))
    && s.execution.evidence == (if outputs == [] then None else Some(m.evidence(outputs[|outputs| - 1])))
    // One owner exactly while dispatching.
    && (forall i, j :: 0 <= i < j < |s.frames| ==> !(s.frames[i].Owns() && s.frames[j].Owns()))
    && (s.execution.dispatch == Dispatching <==> exists i :: 0 <= i < |s.frames| && s.frames[i].Owns())
    // Queued outputs have someone to handle them, unless a panicking handler left them behind.
    && (s.execution.outputs != [] && !s.abandoned && !s.lockPoisoned ==> Attended(s.frames))
    && (AnyUnwinding(s.frames) ==> s.abandoned || s.lockPoisoned)
  }

  function Start<M, I, O, V>(initial: M): System<M, I, O, V> {
    System(New(initial), false, [], [], [], false)
  }

  lemma SubmitKeepsInv<M, I, O, V>(m: Machine<M, I, O, V>, initial: M, s: System<M, I, O, V>, input: I, panics: bool)
    requires Inv(m, initial, s)
    ensures Inv(m, initial, Apply(m, s, Submit(input, panics)))
  {
    hide Fold;
    var t := Apply(m, s, Submit(input, panics));
    if t.frames != s.frames {
      FoldExtends(m.step, initial, s.accepted, input);
      assert t.frames[|s.frames|].MustDispatch?;
      assert forall i :: 0 <= i < |s.frames| ==> t.frames[i] == s.frames[i];
    }
  }

  lemma AcquireKeepsInv<M, I, O, V>(m: Machine<M, I, O, V>, initial: M, s: System<M, I, O, V>, f: nat)
    requires Inv(m, initial, s) && Enabled(s, Acquire(f))
    ensures Inv(m, initial, Apply(m, s, Acquire(f)))
  {
    hide Fold;
    var t := Apply(m, s, Acquire(f));
    if s.execution.dispatch == Dispatching {
      var i :| 0 <= i < |s.frames| && s.frames[i].Owns();
      assert t.frames[i] == s.frames[i];
    } else {
      assert s.lockPoisoned || t.frames[f].Owns();
    }
  }

  lemma OwnerKeepsInv<M, I, O, V>(m: Machine<M, I, O, V>, initial: M, s: System<M, I, O, V>, a: Action<I>)
    requires Inv(m, initial, s) && Enabled(s, a) && (a.Next? || a.HandlerReturns? || a.HandlerPanics? || a.Drop?)
    ensures Inv(m, initial, Apply(m, s, a))
  {
    hide Fold;
    var t := Apply(m, s, a);
    assert s.frames[a.frame].Owns();
    assert t.frames[a.frame].Owns() || t.execution.dispatch == Idle;
  }

  lemma StepKeepsInv<M, I, O, V>(m: Machine<M, I, O, V>, initial: M, s: System<M, I, O, V>, a: Action<I>)
    requires Inv(m, initial, s) && Enabled(s, a)
    ensures Inv(m, initial, Apply(m, s, a))
  {
    match a {
      case Submit(input, panics) => hide *; SubmitKeepsInv(m, initial, s, input, panics);
      case CallDispatch =>
        hide Fold;
        var t := Apply(m, s, a);
        assert forall i :: 0 <= i < |s.frames| ==> t.frames[i] == s.frames[i];
        assert t.frames[|s.frames|].MustDispatch?;
      case Acquire(f) => hide *; AcquireKeepsInv(m, initial, s, f);
      case _ => hide *; OwnerKeepsInv(m, initial, s, a);
    }
  }

  // ----- runs -----

  /** A run: every action is enabled when it is taken. */
  predicate ValidRun<M, I, O, V>(m: Machine<M, I, O, V>, s: System<M, I, O, V>, run: seq<Action<I>>)
    decreases |run|
  {
    run == [] || (Enabled(s, run[0]) && ValidRun(m, Apply(m, s, run[0]), run[1..]))
  }

  function After<M, I, O, V>(m: Machine<M, I, O, V>, s: System<M, I, O, V>, run: seq<Action<I>>): System<M, I, O, V>
    requires ValidRun(m, s, run)
    decreases |run|
  {
    if run == [] then s else After(m, Apply(m, s, run[0]), run[1..])
  }

  lemma {:induction false} RunKeepsInv<M, I, O, V>(m: Machine<M, I, O, V>, initial: M, s: System<M, I, O, V>, run: seq<Action<I>>)
    requires Inv(m, initial, s) && ValidRun(m, s, run)
    ensures Inv(m, initial, After(m, s, run))
    decreases |run|
  {
    hide Inv, Enabled;
    if run != [] {
      StepKeepsInv(m, initial, s, run[0]);
      RunKeepsInv(m, initial, Apply(m, s, run[0]), run[1..]);
    }
  }

  lemma StartInv<M, I, O, V>(m: Machine<M, I, O, V>, initial: M)
    ensures Inv(m, initial, Start(initial))
  {}

  /** In every interleaving of submitters, dispatchers, reentrant calls and panics: handled
      outputs followed by queued ones are what the machine makes of the linearized inputs, in
      order and without duplicates; no two handlers overlap; and while the lock is not poisoned
      queued outputs have a live owner or a caller still to dispatch them, except between a
      handler's panic and the next call after its guard was dropped. */
  lemma LinearizedExecution<M, I, O, V>(m: Machine<M, I, O, V>, initial: M, run: seq<Action<I>>)
    requires ValidRun(m, Start(initial), run)
    ensures
      var s := After(m, Start(initial), run);
      && s.started + s.execution.outputs == Fold(m.step, initial, s.accepted).0
      && (!s.lockPoisoned ==> s.execution.seat == Ready(Fold(m.step, initial, s.accepted).1))
      && (forall i, j :: 0 <= i < j < |s.frames| ==> !(s.frames[i].Handling? && s.frames[j].Handling?))
      && (s.execution.outputs != [] && !s.abandoned && !s.lockPoisoned ==> Attended(s.frames))
  {
    hide Fold, After, ValidRun;
    StartInv(m, initial);
    RunKeepsInv(m, initial, Start(initial), run);
  }

  /** After a transition panic nothing more is stepped and no further handler starts. */
  lemma {:induction false} NothingAfterTransitionPanic<M, I, O, V>(m: Machine<M, I, O, V>, s: System<M, I, O, V>, run: seq<Action<I>>)
    requires s.lockPoisoned && ValidRun(m, s, run)
    ensures
      var t := After(m, s, run);
      t.accepted == s.accepted && t.started == s.started && t.execution.outputs == s.execution.outputs
      && t.execution.evidence == s.execution.evidence
    decreases |run|
  {
    if run != [] {
      NothingAfterTransitionPanic(m, Apply(m, s, run[0]), run[1..]);
    }
  }

  // ----- handler panics -----

  /** Only a handler's panic leaves outputs behind: in a run without one they stay attended. */
  lemma {:induction false} OnlyPanicsAbandon<M, I, O, V>(m: Machine<M, I, O, V>, s: System<M, I, O, V>, run: seq<Action<I>>)
    requires ValidRun(m, s, run) && !s.abandoned && forall a <- run :: !a.HandlerPanics?
    ensures !After(m, s, run).abandoned
    decreases |run|
  {
    if run != [] {
      OnlyPanicsAbandon(m, Apply(m, s, run[0]), run[1..]);
    }
  }

  /** When a panicking dispatcher drops its guard, what is left of the queue is attended if and
      only if some other caller is still to call dispatch. */
  lemma DropStrandsExactlyWithoutACaller<M, I, O, V>(m: Machine<M, I, O, V>, initial: M, s: System<M, I, O, V>, f: nat)
    requires Inv(m, initial, s) && Enabled(s, Drop(f))
    ensures Attended(Apply(m, s, Drop(f)).frames) <==> exists i :: 0 <= i < |s.frames| && s.frames[i].MustDispatch?
  {
    hide Fold;
    var t := Apply(m, s, Drop(f));
    assert s.frames[f].Owns();
    assert forall i :: 0 <= i < |s.frames| && i != f ==> t.frames[i] == s.frames[i];
  }

  // ----- what OwnedElsewhere promises -----

  /** No handler and no transition panics during the run. */
  predicate Calm<I>(run: seq<Action<I>>) {
    forall i :: 0 <= i < |run| ==> !run[i].HandlerPanics? && !(run[i].Submit? && run[i].panics)
  }

  predicate AllFinished<O>(frames: seq<Frame<O>>) {
    forall i :: 0 <= i < |frames| ==> frames[i].Finished?
  }

  /** Whatever happens next short of a panic, once every call has finished the queue is empty. */
  ghost predicate HandledThere<M, I(!new), O, V>(m: Machine<M, I, O, V>, s: System<M, I, O, V>) {
    forall run: seq<Action<I>> :: ValidRun(m, s, run) && Calm(run) && AllFinished(After(m, s, run).frames) ==>
      After(m, s, run).execution.outputs == []
  }

  /** Nothing but the flag itself depends on whether outputs were abandoned before. */
  lemma {:induction false} FlagIsHistory<M, I, O, V>(m: Machine<M, I, O, V>, s: System<M, I, O, V>, run: seq<Action<I>>)
    requires ValidRun(m, s, run) && Calm(run)
    ensures ValidRun(m, s.(abandoned := false), run)
    ensures After(m, s.(abandoned := false), run) == After(m, s, run).(abandoned := false)
    decreases |run|
  {
    if run != [] {
      assert Apply(m, s.(abandoned := false), run[0]) == Apply(m, s, run[0]).(abandoned := false);
      FlagIsHistory(m, Apply(m, s, run[0]), run[1..]);
    }
  }

  lemma {:induction false} CalmKeepsLock<M, I, O, V>(m: Machine<M, I, O, V>, initial: M, s: System<M, I, O, V>, run: seq<Action<I>>)
    requires Inv(m, initial, s) && !s.lockPoisoned && ValidRun(m, s, run) && Calm(run)
    ensures !After(m, s, run).lockPoisoned
    decreases |run|
  {
    if run != [] {
      StepKeepsInv(m, initial, s, run[0]);
      assert !Apply(m, s, run[0]).lockPoisoned;
      hide Inv, Apply;
      CalmKeepsLock(m, initial, Apply(m, s, run[0]), run[1..]);
    }
  }

  /** While a live owner dispatches, every calm run that ends has handled everything. */
  lemma LiveOwnerHandles<M, I, O, V>(m: Machine<M, I, O, V>, initial: M, s: System<M, I, O, V>, run: seq<Action<I>>)
    requires Inv(m, initial, s) && s.execution.dispatch == Dispatching && !s.lockPoisoned && !AnyUnwinding(s.frames)
    requires ValidRun(m, s, run) && Calm(run) && AllFinished(After(m, s, run).frames)
    ensures After(m, s, run).execution.outputs == []
  {
    hide Fold;
    var t := s.(abandoned := false);
    assert Inv(m, initial, t) by {
      var owner :| 0 <= owner < |s.frames| && s.frames[owner].Owns();
      assert !s.frames[owner].Unwinding?;
    }
    FlagIsHistory(m, s, run);
    RunKeepsInv(m, initial, t, run);
    CalmKeepsLock(m, initial, t, run);
    hide After, ValidRun;
  }

  /** While the owner unwinds, every caller still to come may be answered before it lets go. */
  lemma {:induction false} EveryoneLeaves<M, I, O, V>(m: Machine<M, I, O, V>, s: System<M, I, O, V>, owner: nat, n: nat)
    returns (run: seq<Action<I>>)
    requires s.execution.dispatch == Dispatching && owner < |s.frames| && s.frames[owner].Unwinding? && n <= |s.frames|
    requires forall i :: 0 <= i < |s.frames| && i != owner ==>
      s.frames[i].Finished? || (i < n && s.frames[i].MustDispatch?)
    ensures ValidRun(m, s, run) && Calm(run)
    ensures AllFinished(After(m, s, run).frames) && After(m, s, run).execution.outputs == s.execution.outputs
    decreases n
  {
    if n == 0 {
      run := [Drop(owner)];
      assert run[1..] == [];
    } else if s.frames[n - 1].MustDispatch? {
      var t := Apply(m, s, Acquire(n - 1));
      var rest := EveryoneLeaves(m, t, owner, n - 1);
      run := [Acquire(n - 1)] + rest;
      assert run[1..] == rest;
    } else {
      run := EveryoneLeaves(m, s, owner, n - 1);
    }
  }

  /** A caller answered that another caller owns dispatch is told that queued outputs will be handled
      there. Short of a later panic that is so in every run if and only if that owner is not already
      unwinding. */
  lemma OwnedElsewhereHoldsExactly<M, I(!new), O, V>(m: Machine<M, I, O, V>, initial: M, s: System<M, I, O, V>, f: nat)
    requires Inv(m, initial, s) && Enabled(s, Acquire(f)) && s.execution.dispatch == Dispatching
    requires !s.lockPoisoned && s.execution.outputs != []
    ensures Apply(m, s, Acquire(f)).frames[f].Finished?
    ensures HandledThere(m, Apply(m, s, Acquire(f))) <==> !AnyUnwinding(s.frames)
  {
    hide Fold;
    var t := Apply(m, s, Acquire(f));
    AcquireKeepsInv(m, initial, s, f);
    if AnyUnwinding(s.frames) {
      var owner :| 0 <= owner < |s.frames| && s.frames[owner].Unwinding?;
      assert forall i :: 0 <= i < |s.frames| && s.frames[i].Owns() ==> i == owner;
      var run := EveryoneLeaves(m, t, owner, |t.frames|);
    } else {
      forall run: seq<Action<I>> | ValidRun(m, t, run) && Calm(run) && AllFinished(After(m, t, run).frames)
        ensures After(m, t, run).execution.outputs == []
      {
        LiveOwnerHandles(m, initial, t, run);
      }
    }
  }

  // ----- runs that strand outputs -----

  /** Two submissions; the first submitter dispatches, and its handler panics. */
  function PanickingRun<I>(first: I, second: I): seq<Action<I>> {
    [Submit(first, false), Submit(second, false), Acquire(0), Next(0), HandlerPanics(0)]
  }

  /** Where that leaves the executor: one output queued, and a second caller still to dispatch. */
  function AfterPanic<M, I, O, V>(m: Machine<M, I, O, V>, initial: M, first: I, second: I): System<M, I, O, V> {
    var (handling, middle) := m.step(initial, first);
    var (queued, last) := m.step(middle, second);
    System(
      Execution(Ready(last), [queued], Some(m.evidence(queued)), Dispatching),
      false, [Unwinding, MustDispatch], [first, second], [handling], true)
  }

  lemma PanicLeavesOneQueued<M, I, O, V>(m: Machine<M, I, O, V>, initial: M, first: I, second: I)
    ensures ValidRun(m, Start(initial), PanickingRun(first, second))
    ensures After(m, Start(initial), PanickingRun(first, second)) == AfterPanic(m, initial, first, second)
  {
    var run, s0 := PanickingRun(first, second), Start<M, I, O, V>(initial);
    var s1 := Apply(m, s0, run[0]);
    var s2 := Apply(m, s1, run[1]);
    var s3 := Apply(m, s2, run[2]);
    var s4 := Apply(m, s3, run[3]);
    Unroll(m, s0, run, [s1, s2, s3, s4, Apply(m, s4, run[4])]);
  }

  /** A handler's panic strands an output, whatever the machine, if the second submitter calls
      dispatch before the guard is dropped: it is answered that another caller owns dispatch,
      that owner only unwinds, and in the end the queue holds the second output, nobody owns
      dispatch, and every call has finished. */
  lemma HandlerPanicStrands<M, I, O, V>(m: Machine<M, I, O, V>, initial: M, first: I, second: I)
    ensures
      var run := PanickingRun(first, second) + [Acquire(1), Drop(0)];
      var panicked := AfterPanic(m, initial, first, second);
      && panicked.frames[0].Unwinding? && Apply(m, panicked, Acquire(1)).frames == [Unwinding, Finished]
      && ValidRun(m, Start(initial), run)
      && After(m, Start(initial), run)
         == panicked.(execution := panicked.execution.(dispatch := Idle), frames := [Finished, Finished])
      && |panicked.execution.outputs| == 1 && !panicked.lockPoisoned && !Attended<O>([Finished, Finished])
  {
    hide ValidRun, After;
    var panicked := AfterPanic(m, initial, first, second);
    PanicLeavesOneQueued(m, initial, first, second);
    var s6 := Apply(m, panicked, Acquire(1));
    var rest: seq<Action<I>> := [Acquire(1), Drop(0)];
    Unroll(m, panicked, rest, [s6, Apply(m, s6, Drop(0))]);
    RunsCompose(m, Start(initial), PanickingRun(first, second), rest);
  }

  /** The no-panic premise is needed: a second submitter answered while the owner's handler still
      runs is left with its output queued if that handler then panics. */
  lemma LaterPanicStrands<M, I, O, V>(m: Machine<M, I, O, V>, initial: M, first: I, second: I)
    ensures
      var asked := [Submit(first, false), Submit(second, false), Acquire(0), Next(0)];
      var run := asked + [Acquire(1), HandlerPanics(0), Drop(0)];
      && ValidRun(m, Start(initial), asked) && ValidRun(m, Start(initial), run)
      && var s, t := After(m, Start(initial), asked), After(m, Start(initial), run);
         && Enabled(s, Acquire(1)) && s.execution.dispatch == Dispatching && !AnyUnwinding(s.frames)
         && |t.execution.outputs| == 1 && AllFinished(t.frames) && !t.lockPoisoned && t.execution.dispatch == Idle
  {
    var s0 := Start<M, I, O, V>(initial);
    var asked: seq<Action<I>> := [Submit(first, false), Submit(second, false), Acquire(0), Next(0)];
    var rest: seq<Action<I>> := [Acquire(1), HandlerPanics(0), Drop(0)];
    var s1 := Apply(m, s0, asked[0]);
    var s2 := Apply(m, s1, asked[1]);
    var s3 := Apply(m, s2, asked[2]);
    var s4 := Apply(m, s3, asked[3]);
    Unroll(m, s0, asked, [s1, s2, s3, s4]);
    var s5 := Apply(m, s4, rest[0]);
    var s6 := Apply(m, s5, rest[1]);
    Unroll(m, s4, rest, [s5, s6, Apply(m, s6, rest[2])]);
    RunsCompose(m, s0, asked, rest);
    hide ValidRun, After;
  }

  lemma {:induction false} RunsCompose<M, I, O, V>(m: Machine<M, I, O, V>, s: System<M, I, O, V>, a: seq<Action<I>>, b: seq<Action<I>>)
    requires ValidRun(m, s, a) && ValidRun(m, After(m, s, a), b)
    ensures ValidRun(m, s, a + b) && After(m, s, a + b) == After(m, After(m, s, a), b)
    decreases |a|
  {
    hide Apply, Enabled;
    if a == [] {
      assert a + b == b;
    } else {
      RunsCompose(m, Apply(m, s, a[0]), a[1..], b);
      assert (a + b)[0] == a[0] && (a + b)[1..] == a[1..] + b;
    }
  }

  /** A run through the given states ends in the last of them. */
  lemma {:induction false} Unroll<M, I, O, V>(
      m: Machine<M, I, O, V>, s: System<M, I, O, V>, run: seq<Action<I>>, states: seq<System<M, I, O, V>>)
    requires |run| == |states| > 0
    requires Enabled(s, run[0]) && states[0] == Apply(m, s, run[0])
    requires forall i :: 0 < i < |run| ==> Enabled(states[i - 1], run[i]) && states[i] == Apply(m, states[i - 1], run[i])
    ensures ValidRun(m, s, run) && After(m, s, run) == states[|states| - 1]
    decreases |run|
  {
    hide Apply, Enabled;
    if |run| > 1 {
      Unroll(m, states[0], run[1..], states[1..]);
    }
  }

  /** The owner in frame `f` handles the next `n` outputs and then finds the queue empty. */
  function HandleAll<I>(f: nat, n: nat): seq<Action<I>> {
    if n == 0 then [Next(f)] else [Next(f), HandlerReturns(f)] + HandleAll(f, n - 1)
  }

  lemma {:induction false} OwnerEmptiesQueue<M, I, O, V>(m: Machine<M, I, O, V>, s: System<M, I, O, V>, f: nat)
    requires f < |s.frames| && s.frames[f].Owner? && !s.lockPoisoned
    ensures
      var run := HandleAll(f, |s.execution.outputs|);
      ValidRun(m, s, run)
      && var t := After(m, s, run);
         t.execution == s.execution.(outputs := [], dispatch := Idle) && t.started == s.started + s.execution.outputs
    decreases |s.execution.outputs|
  {
    var n := |s.execution.outputs|;
    var run: seq<Action<I>> := HandleAll(f, n);
    var popped := Apply(m, s, Next(f));
    if n > 0 {
      var handled := Apply(m, popped, HandlerReturns(f));
      OwnerEmptiesQueue(m, handled, f);
      assert run[0] == Next(f) && run[1..][0] == HandlerReturns(f) && run[1..][1..] == HandleAll(f, n - 1);
      assert s.execution.outputs == [s.execution.outputs[0]] + s.execution.outputs[1..];
    }
  }

  /** A later call resumes: whenever nobody owns dispatch, a panic or not before, a new call
      acquires ownership and, undisturbed, handles everything that was left, in order. */
  lemma LaterCallResumes<M, I, O, V>(m: Machine<M, I, O, V>, initial: M, s: System<M, I, O, V>)
    requires Inv(m, initial, s) && s.execution.dispatch == Idle && !s.lockPoisoned
    ensures
      var f := |s.frames|;
      var run := [CallDispatch, Acquire(f)] + HandleAll(f, |s.execution.outputs|);
      ValidRun(m, s, run)
      && var t := After(m, s, run);
         && !t.abandoned && t.execution == s.execution.(outputs := [])
         && t.started == Fold(m.step, initial, s.accepted).0
  {
    hide Fold;
    var f := |s.frames|;
    var rest: seq<Action<I>> := HandleAll(f, |s.execution.outputs|);
    var run := [CallDispatch, Acquire(f)] + rest;
    var called := Apply(m, s, CallDispatch);
    assert !AnyUnwinding(s.frames) by {
      assert forall i :: 0 <= i < |s.frames| ==> !s.frames[i].Owns();
    }
    var owning := Apply(m, called, Acquire(f));
    OwnerEmptiesQueue(m, owning, f);
    HandlingAbandonsNothing(m, owning, f, |s.execution.outputs|);
    assert run[1..][1..] == rest;
  }

  lemma {:induction false} HandlingAbandonsNothing<M, I, O, V>(m: Machine<M, I, O, V>, s: System<M, I, O, V>, f: nat, n: nat)
    requires !s.abandoned && ValidRun(m, s, HandleAll(f, n))
    ensures !After(m, s, HandleAll(f, n)).abandoned
  {
    NoPanicsInHandleAll<I>(f, n);
    OnlyPanicsAbandon(m, s, HandleAll(f, n));
  }

  lemma {:induction false} NoPanicsInHandleAll<I>(f: nat, n: nat)
    ensures forall a <- HandleAll<I>(f, n) :: !a.HandlerPanics?
  {
    if n > 0 {
      NoPanicsInHandleAll<I>(f, n - 1);
    }
  }
}
