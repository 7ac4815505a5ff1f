/** Every interleaving of the serialized executor's locked sections, including reentrant
    submission from a handler and panics of the transition or of a handler. */
module SerializedRuns {
  import opened Common
  import opened Serialized

  /** The drain owner's guard: armed while it stands for ownership, with the receipt of the
      turn it would have to resolve if dropped. */
  datatype Guard = Guard(armed: bool, active: Option<nat>)

  /** One call frame of submit; a reentrant call is simply another frame. */
  datatype Frame<M, I, O> =
    | Draining(guard: Guard)                                          // between turns
    | Stepping(guard: Guard, machine: M, input: I, receipt: nat)      // the transition is running
    | Installing(guard: Guard, successor: M, output: O, receipt: nat) // about to put the successor back
    | Handling(guard: Guard, output: O, receipt: nat)                 // the handler is running
    | Completing(guard: Guard, receipt: nat)                          // about to resolve the receipt
    | Leaving(guard: Guard)                                           // returning or unwinding, about to drop the guard
    | Finished
  {
    predicate Owns() { !Finished? && guard.armed }
  }

  datatype Event = Stepped(receipt: nat) | Handled(receipt: nat)

  /** Receipts are numbered in acceptance order. */
  datatype System<M, I, O> = System(
    machine: Option<M>,
    inputs: seq<(I, nat)>,
    turn: TurnState,
    frames: seq<Frame<M, I, O>>,
    receipts: seq<Option<TurnOutcome>>,
    accepted: seq<I>,
    handled: seq<O>,
    trace: seq<Event>,
    expectFailed: bool)

  datatype Action<I> =
    | Submit(input: I)
    | TakeTurn(frame: nat)
    | StepReturns(frame: nat)
    | StepPanics(frame: nat)
    | Install(frame: nat)
    | HandlerReturns(frame: nat)
    | HandlerPanics(frame: nat)
    | Complete(frame: nat)
    | Drop(frame: nat)

  predicate Enabled<M, I, O>(s: System<M, I, O>, a: Action<I>) {
    match a
    case Submit(_) => true
    case TakeTurn(f) => f < |s.frames| && s.frames[f].Draining?
    case StepReturns(f) => f < |s.frames| && s.frames[f].Stepping?
    case StepPanics(f) => f < |s.frames| && s.frames[f].Stepping?
    case Install(f) => f < |s.frames| && s.frames[f].Installing?
    case HandlerReturns(f) => f < |s.frames| && s.frames[f].Handling?
    case HandlerPanics(f) => f < |s.frames| && s.frames[f].Handling?
    case Complete(f) => f < |s.frames| && s.frames[f].Completing? && s.frames[f].receipt < |s.receipts|
    case Drop(f) =>
      && f < |s.frames| && s.frames[f].Leaving?
      && (s.frames[f].guard.active.Some? ==> s.frames[f].guard.active.value < |s.receipts|)
  }

  /** Resolve every queued receipt as poisoned. */
  function PoisonAll<I>(receipts: seq<Option<TurnOutcome>>, inputs: seq<(I, nat)>): (r: seq<Option<TurnOutcome>>)
    ensures |r| == |receipts|
  {
    seq(|receipts|, j requires 0 <= j < |receipts| =>
      if exists i :: 0 <= i < |inputs| && inputs[i].1 == j then Some(PoisonedTurn) else receipts[j])
  }

  function Apply<M, I, O>(step: (M, I) -> (O, M), s: System<M, I, O>, a: Action<I>): System<M, I, O>
    requires Enabled(s, a)
  {
    match a
    case Submit(input) =>
      if s.turn == Poisoned then s
      else s.(
        inputs := s.inputs + [(input, |s.receipts|)],
        turn := Running,
        frames := s.frames + [if s.turn == Idle then Draining(Guard(true, None)) else Finished],
        receipts := s.receipts + [None],
        accepted := s.accepted + [input])
    case TakeTurn(f) =>
      var guard := s.frames[f].guard;
      if !guard.armed then s.(frames := s.frames[f := Leaving(guard)])
      else if s.inputs == [] then
        s.(turn := Idle, frames := s.frames[f := Leaving(guard.(armed := false))])
      else if s.machine.None? then
        s.(expectFailed := true, inputs := s.inputs[1..], frames := s.frames[f := Leaving(guard)])
      else
        var (input, receipt) := s.inputs[0];
        s.(inputs := s.inputs[1..],
           machine := None,
           frames := s.frames[f := Stepping(guard.(active := Some(receipt)), s.machine.value, input, receipt)])
    case StepReturns(f) =>
      var frame := s.frames[f];
      var (output, successor) := step(frame.machine, frame.input);
      s.(frames := s.frames[f := Installing(frame.guard, successor, output, frame.receipt)],
         trace := s.trace + [Stepped(frame.receipt)])
    case StepPanics(f) => s.(frames := s.frames[f := Leaving(s.frames[f].guard)])
    case Install(f) =>
      var frame := s.frames[f];
      if !frame.guard.armed || frame.guard.active != Some(frame.receipt) then
        s.(expectFailed := true, frames := s.frames[f := Leaving(frame.guard)])
      else
        s.(machine := Some(frame.successor),
           frames := s.frames[f := Handling(frame.guard, frame.output, frame.receipt)],
           handled := s.handled + [frame.output],
           trace := s.trace + [Handled(frame.receipt)])
    case HandlerReturns(f) => s.(frames := s.frames[f := Completing(s.frames[f].guard, s.frames[f].receipt)])
    case HandlerPanics(f) => s.(frames := s.frames[f := Leaving(s.frames[f].guard)])
    case Complete(f) =>
      s.(receipts := s.receipts[s.frames[f].receipt := Some(Completed)],
         frames := s.frames[f := Draining(s.frames[f].guard.(active := None))])
    case Drop(f) =>
      var guard := s.frames[f].guard;
      if !guard.armed then s.(frames := s.frames[f := Finished])
      else
        var resolved :=
          if guard.active.Some? then s.receipts[guard.active.value := Some(PoisonedTurn)] else s.receipts;
        s.(turn := Poisoned,
           receipts := PoisonAll(resolved, s.inputs),
           inputs := [],
           frames := s.frames[f := Finished])
  }

  function Start<M, I, O>(initial: M): System<M, I, O> {
    System(Some(initial), [], TurnState.Idle, [], [], [], [], [], false)
  }

  /** Run to completion: step, handle, step, handle, for the first `k` inputs. */
  function Turns(k: nat): seq<Event> {
    if k == 0 then [] else Turns(k - 1) + [Stepped(k - 1), Handled(k - 1)]
  }

  /** The first `k` receipts are completed and every later one is `rest`. */
  predicate Block(receipts: seq<Option<TurnOutcome>>, k: nat, rest: Option<TurnOutcome>) {
    && k <= |receipts|
    && (forall j :: 0 <= j < k ==> receipts[j] == Some(Completed))
    && (forall j :: k <= j < |receipts| ==> receipts[j] == rest)
  }

  /** The queue holds exactly the accepted inputs from `from` on, in order. */
  ghost predicate QueueFrom<M, I, O>(s: System<M, I, O>, from: nat) {
    && from + |s.inputs| == |s.accepted|
    && forall i :: 0 <= i < |s.inputs| ==> s.inputs[i] == (s.accepted[from + i], from + i)
  }

  /** The machine has been stepped and handled for exactly the first `k` inputs. */
  ghost predicate DoneUpTo<M, I, O>(step: (M, I) -> (O, M), initial: M, s: System<M, I, O>, k: nat) {
    k <= |s.accepted| && s.trace == Turns(k) && s.handled == Fold(step, initial, s.accepted[..k]).0
  }

  ghost function MachineAfter<M, I, O>(step: (M, I) -> (O, M), initial: M, s: System<M, I, O>, k: nat): M
    requires k <= |s.accepted|
  {
    Fold(step, initial, s.accepted[..k]).1
  }

  /** What the one owner's frame says about the shared state, `k` turns being completed. */
  ghost predicate OwnerView<M, I, O>(step: (M, I) -> (O, M), initial: M, s: System<M, I, O>, frame: Frame<M, I, O>, k: nat) {
    && Block(s.receipts, k, None)
    && match frame
       case Draining(guard) =>
         && guard == Guard(true, None)
         && QueueFrom(s, k) && DoneUpTo(step, initial, s, k) && s.machine == Some(MachineAfter(step, initial, s, k))
       case Stepping(guard, m, input, r) =>
         && guard == Guard(true, Some(r))
         && r == k < |s.accepted| && QueueFrom(s, k + 1) && DoneUpTo(step, initial, s, k)
         && input == s.accepted[k] && m == MachineAfter(step, initial, s, k)
       case Installing(guard, m, output, r) =>
         && guard == Guard(true, Some(r))
         && r == k < |s.accepted| && QueueFrom(s, k + 1)
         && s.trace == Turns(k) + [Stepped(k)]
         && s.handled + [output] == Fold(step, initial, s.accepted[..k + 1]).0
         && m == MachineAfter(step, initial, s, k + 1)
       case Handling(guard, _, r) =>
         && guard == Guard(true, Some(r))
         && r == k < |s.accepted| && QueueFrom(s, k + 1) && DoneUpTo(step, initial, s, k + 1)
         && s.machine == Some(MachineAfter(step, initial, s, k + 1))
       case Completing(guard, r) =>
         && guard == Guard(true, Some(r))
         && r == k < |s.accepted| && QueueFrom(s, k + 1) && DoneUpTo(step, initial, s, k + 1)
         && s.machine == Some(MachineAfter(step, initial, s, k + 1))
       case Leaving(guard) =>
         && guard == Guard(true, Some(k))
         && k < |s.accepted| && QueueFrom(s, k + 1)
         && (DoneUpTo(step, initial, s, k) || DoneUpTo(step, initial, s, k + 1))
       case Finished => false
  }

  ghost predicate InvAt<M, I, O>(step: (M, I) -> (O, M), initial: M, s: System<M, I, O>, k: nat) {
    && !s.expectFailed
    && |s.receipts| == |s.accepted|
    && (forall i, j :: 0 <= i < j < |s.frames| ==> !(s.frames[i].Owns() && s.frames[j].Owns()))
    && (s.turn == Running <==> exists i :: 0 <= i < |s.frames| && s.frames[i].Owns())
    && (forall i :: 0 <= i < |s.frames| && s.frames[i].Owns() ==> OwnerView(step, initial, s, s.frames[i], k))
    && (forall i :: 0 <= i < |s.frames| && !s.frames[i].Owns() ==>
         s.frames[i].Finished? || s.frames[i] == Leaving(Guard(false, None)))
    && (s.turn == Idle ==>
         && k == |s.accepted| && Block(s.receipts, k, None) && s.inputs == []
         && DoneUpTo(step, initial, s, k) && s.machine == Some(MachineAfter(step, initial, s, k)))
    && (s.turn == Poisoned ==>
         && k < |s.accepted| && Block(s.receipts, k, Some(PoisonedTurn)) && s.inputs == []
         && (DoneUpTo(step, initial, s, k) || DoneUpTo(step, initial, s, k + 1)))
  }

  ghost predicate Inv<M, I, O>(step: (M, I) -> (O, M), initial: M, s: System<M, I, O>) {
    exists k: nat :: InvAt(step, initial, s, k)
  }

  // ----- every step keeps the invariant -----

  lemma StartInv<M, I, O>(step: (M, I) -> (O, M), initial: M)
    ensures InvAt(step, initial, Start(initial), 0)
  {}

  /** One more accepted input changes nothing about the turns already taken. */
  lemma AcceptKeeps<M, I, O>(step: (M, I) -> (O, M), initial: M, s: System<M, I, O>, t: System<M, I, O>, input: I, k: nat)
    requires k <= |s.accepted| && t.accepted == s.accepted + [input]
    requires t.trace == s.trace && t.handled == s.handled
    ensures t.accepted[..k] == s.accepted[..k]
    ensures DoneUpTo(step, initial, s, k) ==> DoneUpTo(step, initial, t, k)
    ensures MachineAfter(step, initial, t, k) == MachineAfter(step, initial, s, k)
  {
    assert t.accepted[..k] == s.accepted[..k];
  }

  lemma SubmitView<M, I, O>(step: (M, I) -> (O, M), initial: M, s: System<M, I, O>, input: I, frame: Frame<M, I, O>, k: nat)
    requires |s.receipts| == |s.accepted| && s.turn != Poisoned && OwnerView(step, initial, s, frame, k)
    ensures OwnerView(step, initial, Apply(step, s, Submit(input)), frame, k)
  {
    hide Fold, Turns;
    var t := Apply(step, s, Submit(input));
    AcceptKeeps(step, initial, s, t, input, k);
    if k < |s.accepted| {
      AcceptKeeps(step, initial, s, t, input, k + 1);
    }
  }

  lemma SubmitKeepsInv<M, I, O>(step: (M, I) -> (O, M), initial: M, s: System<M, I, O>, input: I, k: nat)
    requires InvAt(step, initial, s, k)
    ensures InvAt(step, initial, Apply(step, s, Submit(input)), k)
  {
    hide Fold, Turns, DoneUpTo, MachineAfter;
    var t := Apply(step, s, Submit(input));
    var n := |s.frames|;
    assert forall i :: 0 <= i < n ==> s.turn != Poisoned ==> t.frames[i] == s.frames[i];
    match s.turn {
      case Poisoned =>
      case Idle =>
        AcceptKeeps(step, initial, s, t, input, k);
        assert t.frames[n].Owns();
      case Running =>
        forall i | 0 <= i < n && s.frames[i].Owns()
          ensures OwnerView(step, initial, t, s.frames[i], k)
        {
          SubmitView(step, initial, s, input, s.frames[i], k);
        }
        assert !t.frames[n].Owns();
    }
  }

  /** A step of the one owner that leaves it the owner carries its view over. */
  lemma OwnerStays<M, I, O>(
      step: (M, I) -> (O, M), initial: M, s: System<M, I, O>, t: System<M, I, O>,
      f: nat, frame: Frame<M, I, O>, k: nat, k': nat)
    requires InvAt(step, initial, s, k) && f < |s.frames| && s.frames[f].Owns()
    requires t.frames == s.frames[f := frame] && frame.Owns() && OwnerView(step, initial, t, frame, k')
    requires !t.expectFailed && |t.receipts| == |t.accepted| && t.turn == Running
    ensures InvAt(step, initial, t, k')
  {
    hide OwnerView, DoneUpTo, MachineAfter;
    assert t.frames[f].Owns();
  }

  /** A step that disarms or drops the one owner's guard leaves nobody owning. */
  lemma OwnerLeaves<M, I, O>(step: (M, I) -> (O, M), initial: M, s: System<M, I, O>, t: System<M, I, O>, f: nat, k: nat)
    requires InvAt(step, initial, s, k) && f < |s.frames| && s.frames[f].Owns()
    requires |t.frames| == |s.frames| && t.frames == s.frames[f := t.frames[f]] && !t.frames[f].Owns()
    ensures forall i :: 0 <= i < |t.frames| ==> !t.frames[i].Owns()
  {}

  lemma TakeTurnKeepsInv<M, I, O>(step: (M, I) -> (O, M), initial: M, s: System<M, I, O>, f: nat, k: nat)
    requires InvAt(step, initial, s, k) && Enabled(s, TakeTurn(f))
    ensures InvAt(step, initial, Apply(step, s, TakeTurn(f)), k)
  {
    hide Fold, Turns;
    var t := Apply(step, s, TakeTurn(f));
    assert s.frames[f].Owns() && OwnerView(step, initial, s, s.frames[f], k);
    if s.inputs == [] {
      OwnerLeaves(step, initial, s, t, f, k);
    } else {
      assert s.inputs[0] == (s.accepted[k + 0], k + 0);
      OwnerStays(step, initial, s, t, f, t.frames[f], k, k);
    }
  }

  lemma StepReturnsKeepsInv<M, I, O>(step: (M, I) -> (O, M), initial: M, s: System<M, I, O>, f: nat, k: nat)
    requires InvAt(step, initial, s, k) && Enabled(s, StepReturns(f))
    ensures InvAt(step, initial, Apply(step, s, StepReturns(f)), k)
  {
    hide Fold;
    var t := Apply(step, s, StepReturns(f));
    assert s.frames[f].Owns() && OwnerView(step, initial, s, s.frames[f], k);
    FoldExtends(step, initial, s.accepted[..k], s.accepted[k]);
    assert s.accepted[..k] + [s.accepted[k]] == s.accepted[..k + 1];
    OwnerStays(step, initial, s, t, f, t.frames[f], k, k);
  }

  lemma InstallKeepsInv<M, I, O>(step: (M, I) -> (O, M), initial: M, s: System<M, I, O>, f: nat, k: nat)
    requires InvAt(step, initial, s, k) && Enabled(s, Install(f))
    ensures InvAt(step, initial, Apply(step, s, Install(f)), k)
  {
    hide Fold;
    var t := Apply(step, s, Install(f));
    assert s.frames[f].Owns() && OwnerView(step, initial, s, s.frames[f], k);
    assert Turns(k + 1) == Turns(k) + [Stepped(k), Handled(k)] == (Turns(k) + [Stepped(k)]) + [Handled(k)];
    OwnerStays(step, initial, s, t, f, t.frames[f], k, k);
  }

  lemma HandlerKeepsInv<M, I, O>(step: (M, I) -> (O, M), initial: M, s: System<M, I, O>, a: Action<I>, k: nat)
    requires InvAt(step, initial, s, k) && Enabled(s, a)
    requires a.StepPanics? || a.HandlerReturns? || a.HandlerPanics? || a.Complete?
    ensures InvAt(step, initial, Apply(step, s, a), if a.Complete? then k + 1 else k)
  {
    hide Fold, Turns;
    var f, t := a.frame, Apply(step, s, a);
    assert s.frames[f].Owns() && OwnerView(step, initial, s, s.frames[f], k);
    OwnerStays(step, initial, s, t, f, t.frames[f], k, if a.Complete? then k + 1 else k);
  }

  /** Dropping a disarmed guard changes nothing but its frame. */
  lemma DisarmedDropKeepsInv<M, I, O>(step: (M, I) -> (O, M), initial: M, s: System<M, I, O>, f: nat, k: nat)
    requires InvAt(step, initial, s, k) && Enabled(s, Drop(f)) && !s.frames[f].Owns()
    ensures InvAt(step, initial, Apply(step, s, Drop(f)), k)
  {
    hide Fold, Turns;
    var t := Apply(step, s, Drop(f));
    forall i | 0 <= i < |t.frames| && t.frames[i].Owns()
      ensures OwnerView(step, initial, t, t.frames[i], k)
    {
      assert OwnerView(step, initial, s, s.frames[i], k);
    }
    assert forall i :: 0 <= i < |s.frames| && s.frames[i].Owns() ==> t.frames[i] == s.frames[i];
  }

  lemma DropKeepsInv<M, I, O>(step: (M, I) -> (O, M), initial: M, s: System<M, I, O>, f: nat, k: nat)
    requires InvAt(step, initial, s, k) && Enabled(s, Drop(f)) && s.frames[f].Owns()
    ensures InvAt(step, initial, Apply(step, s, Drop(f)), k)
  {
    hide Fold, Turns;
    var t := Apply(step, s, Drop(f));
    assert OwnerView(step, initial, s, s.frames[f], k);
    OwnerLeaves(step, initial, s, t, f, k);
    forall j | k < j < |s.receipts|
      ensures t.receipts[j] == Some(PoisonedTurn)
    {
      assert s.inputs[j - (k + 1)].1 == j;
    }
    forall j | 0 <= j <= k
      ensures t.receipts[j] == if j < k then Some(Completed) else Some(PoisonedTurn)
    {
      assert forall i :: 0 <= i < |s.inputs| ==> s.inputs[i].1 == k + 1 + i;
    }
  }

  lemma StepKeepsInv<M, I, O>(step: (M, I) -> (O, M), initial: M, s: System<M, I, O>, a: Action<I>)
    requires Inv(step, initial, s) && Enabled(s, a)
    ensures Inv(step, initial, Apply(step, s, a))
  {
    hide InvAt, Apply;
    var k: nat :| InvAt(step, initial, s, k);
    match a {
      case Submit(input) => SubmitKeepsInv(step, initial, s, input, k);
      case TakeTurn(f) => TakeTurnKeepsInv(step, initial, s, f, k);
      case StepReturns(f) => StepReturnsKeepsInv(step, initial, s, f, k);
      case Install(f) => InstallKeepsInv(step, initial, s, f, k);
      case Drop(f) =>
        if s.frames[f].Owns() {
          DropKeepsInv(step, initial, s, f, k);
        } else {
          DisarmedDropKeepsInv(step, initial, s, f, k);
        }
      case _ => HandlerKeepsInv(step, initial, s, a, k);
    }
  }

  // ----- runs -----

  predicate ValidRun<M, I, O>(step: (M, I) -> (O, M), s: System<M, I, O>, run: seq<Action<I>>)
    decreases |run|
  {
    run == [] || (Enabled(s, run[0]) && ValidRun(step, Apply(step, s, run[0]), run[1..]))
  }

  function After<M, I, O>(step: (M, I) -> (O, M), s: System<M, I, O>, run: seq<Action<I>>): System<M, I, O>
    requires ValidRun(step, s, run)
    decreases |run|
  {
    if run == [] then s else After(step, Apply(step, s, run[0]), run[1..])
  }

  lemma {:induction false} RunKeepsInv<M, I, O>(step: (M, I) -> (O, M), initial: M, s: System<M, I, O>, run: seq<Action<I>>)
    requires Inv(step, initial, s) && ValidRun(step, s, run)
    ensures Inv(step, initial, After(step, s, run))
    decreases |run|
  {
    hide Inv, Apply;
    if run != [] {
      StepKeepsInv(step, initial, s, run[0]);
      RunKeepsInv(step, initial, Apply(step, s, run[0]), run[1..]);
    }
  }

  lemma {:induction false} TurnsPrefix(k: nat, n: nat)
    requires k <= n
    ensures Turns(k) <= Turns(n)
    ensures k < n ==> Turns(k) + [Stepped(k)] <= Turns(n)
  {
    if k < n {
      TurnsPrefix(k, n - 1);
      if k == n - 1 {
        assert Turns(n) == (Turns(k) + [Stepped(k)]) + [Handled(k)];
      }
    }
  }

  lemma {:induction false} FoldPrefix<M, I, O>(step: (M, I) -> (O, M), initial: M, inputs: seq<I>, k: nat)
    requires k <= |inputs|
    ensures Fold(step, initial, inputs[..k]).0 <= Fold(step, initial, inputs).0
  {
    if k < |inputs| {
      FoldPrefix(step, initial, inputs[..|inputs| - 1], k);
      assert inputs[..|inputs| - 1][..k] == inputs[..k];
    } else {
      assert inputs[..k] == inputs;
    }
  }

  /** The history is step, handle, step, handle in acceptance order, with the machine's outputs. */
  ghost predicate RunsToCompletion<M, I, O>(step: (M, I) -> (O, M), initial: M, s: System<M, I, O>) {
    s.trace <= Turns(|s.accepted|) && s.handled <= Fold(step, initial, s.accepted).0
  }

  /** A block of completed receipts, then only poisoned or only unresolved ones. */
  ghost predicate ReceiptsInOrder<M, I, O>(s: System<M, I, O>) {
    && |s.receipts| == |s.accepted|
    && exists k: nat, rest: Option<TurnOutcome> :: rest != Some(Completed) && Block(s.receipts, k, rest)
  }

  /** Input `j` is queued with its receipt. */
  ghost predicate InQueue<M, I, O>(s: System<M, I, O>, j: nat)
    requires j < |s.accepted|
  {
    exists i :: 0 <= i < |s.inputs| && s.inputs[i] == (s.accepted[j], j)
  }

  /** Input `j` is the turn the owner's guard stands for. */
  predicate InHand<M, I, O>(s: System<M, I, O>, j: nat) {
    exists f :: 0 <= f < |s.frames| && s.frames[f].Owns() && s.frames[f].guard.active == Some(j)
  }

  lemma InvGivesOrder<M, I, O>(step: (M, I) -> (O, M), initial: M, s: System<M, I, O>, k: nat)
    requires InvAt(step, initial, s, k)
    ensures RunsToCompletion(step, initial, s) && ReceiptsInOrder(s)
  {
    hide Fold, Turns;
    TurnsPrefix(k, |s.accepted|);
    FoldPrefix(step, initial, s.accepted, k);
    if k < |s.accepted| {
      TurnsPrefix(k + 1, |s.accepted|);
      FoldPrefix(step, initial, s.accepted, k + 1);
    }
    if s.turn == Running {
      var i :| 0 <= i < |s.frames| && s.frames[i].Owns();
      assert OwnerView(step, initial, s, s.frames[i], k);
      assert Block(s.receipts, k, None);
    } else if s.turn == Idle {
      assert Block(s.receipts, k, None);
    } else {
      assert Block(s.receipts, k, Some(PoisonedTurn));
    }
  }

  lemma InvGivesPlace<M, I, O>(step: (M, I) -> (O, M), initial: M, s: System<M, I, O>, k: nat, j: nat)
    requires InvAt(step, initial, s, k) && j < |s.receipts|
    ensures s.receipts[j].None? ==> s.turn == Running && (InQueue(s, j) <==> !(j == k && InHand(s, j)))
    ensures s.receipts[j].Some? ==> !InQueue(s, j) && !InHand(s, j)
  {
    hide Fold, Turns, DoneUpTo;
    if s.turn == Running {
      var f :| 0 <= f < |s.frames| && s.frames[f].Owns();
      var frame := s.frames[f];
      assert OwnerView(step, initial, s, frame, k);
      var from := if frame.Draining? then k else k + 1;
      assert QueueFrom(s, from);
      if from <= j {
        assert s.inputs[j - from] == (s.accepted[j], j);
      }
      if j == k && !frame.Draining? {
        assert InHand(s, j);
      }
      assert forall i :: 0 <= i < |s.inputs| ==> s.inputs[i].1 == from + i;
    }
  }

  /** In every interleaving, reentrant submission and panics included: the history runs to
      completion turn by turn with the machine's own outputs; one drain owner exists exactly
      while the turn is Running; the machine is never missing when a turn is taken; every
      receipt is in exactly one of queue, owner or resolved; and whenever nobody is draining
      every accepted receipt is resolved. */
  lemma SerializedExecution<M, I, O>(step: (M, I) -> (O, M), initial: M, run: seq<Action<I>>)
    requires ValidRun(step, Start(initial), run)
    ensures
      var s := After(step, Start(initial), run);
      && RunsToCompletion(step, initial, s)
      && ReceiptsInOrder(s)
      && !s.expectFailed
      && (forall i, j :: 0 <= i < j < |s.frames| ==> !(s.frames[i].Owns() && s.frames[j].Owns()))
      && (s.turn == Running <==> exists i :: 0 <= i < |s.frames| && s.frames[i].Owns())
      && (forall j :: 0 <= j < |s.receipts| ==>
           if s.receipts[j].None? then s.turn == Running && (InQueue(s, j) <==> !InHand(s, j))
           else !InQueue(s, j) && !InHand(s, j))
  {
    StartInv(step, initial);
    RunKeepsInv(step, initial, Start(initial), run);
    var s := After(step, Start(initial), run);
    hide After, ValidRun, OwnerView, DoneUpTo, MachineAfter;
    var k: nat :| InvAt(step, initial, s, k);
    InvGivesOrder(step, initial, s, k);
    forall j | 0 <= j < |s.receipts|
      ensures if s.receipts[j].None? then s.turn == Running && (InQueue(s, j) <==> !InHand(s, j))
              else !InQueue(s, j) && !InHand(s, j)
    {
      InvGivesPlace(step, initial, s, k, j);
      InHandIsNext(step, initial, s, k, j);
    }
  }

  lemma InHandIsNext<M, I, O>(step: (M, I) -> (O, M), initial: M, s: System<M, I, O>, k: nat, j: nat)
    requires InvAt(step, initial, s, k)
    ensures InHand(s, j) ==> j == k
  {
    hide Fold, Turns;
  }

  lemma ResolvedStep<M, I, O>(step: (M, I) -> (O, M), initial: M, s: System<M, I, O>, a: Action<I>, j: nat)
    requires Inv(step, initial, s) && Enabled(s, a)
    requires j < |s.receipts| && s.receipts[j].Some?
    ensures var t := Apply(step, s, a); j < |t.receipts| && t.receipts[j] == s.receipts[j]
  {
    hide Fold, Turns, DoneUpTo, MachineAfter;
    var k: nat :| InvAt(step, initial, s, k);
    InvGivesPlace(step, initial, s, k, j);
    if a.Complete? || (a.Drop? && s.frames[a.frame].Owns()) {
      assert s.frames[a.frame].Owns() && OwnerView(step, initial, s, s.frames[a.frame], k);
    }
  }

  /** A receipt is resolved once: no later step of any run changes its outcome. */
  lemma {:induction false} ResolvedOnce<M, I, O>(step: (M, I) -> (O, M), initial: M, s: System<M, I, O>, run: seq<Action<I>>, j: nat)
    requires Inv(step, initial, s) && ValidRun(step, s, run)
    requires j < |s.receipts| && s.receipts[j].Some?
    ensures var t := After(step, s, run); j < |t.receipts| && t.receipts[j] == s.receipts[j]
    decreases |run|
  {
    hide Inv, Enabled, Apply;
    if run != [] {
      ResolvedStep(step, initial, s, run[0], j);
      StepKeepsInv(step, initial, s, run[0]);
      ResolvedOnce(step, initial, Apply(step, s, run[0]), run[1..], j);
    }
  }

  lemma PoisonStep<M, I, O>(step: (M, I) -> (O, M), initial: M, s: System<M, I, O>, a: Action<I>)
    requires Inv(step, initial, s) && s.turn == Poisoned && Enabled(s, a)
    ensures Apply(step, s, a) == s.(frames := Apply(step, s, a).frames)
  {
    hide Fold, Turns, DoneUpTo, MachineAfter;
  }

  /** Once poisoned the executor stays exactly as it is, whatever is submitted: nothing is
      accepted, stepped, handled or resolved any more; frames that had left only end. */
  lemma {:induction false} PoisonIsPermanent<M, I, O>(step: (M, I) -> (O, M), initial: M, s: System<M, I, O>, run: seq<Action<I>>)
    requires Inv(step, initial, s) && s.turn == Poisoned && ValidRun(step, s, run)
    ensures var t := After(step, s, run); t == s.(frames := t.frames)
    decreases |run|
  {
    hide Inv, Enabled, Apply;
    if run != [] {
      PoisonStep(step, initial, s, run[0]);
      StepKeepsInv(step, initial, s, run[0]);
      PoisonIsPermanent(step, initial, Apply(step, s, run[0]), run[1..]);
    }
  }

  // ----- panics poison, and nothing else does -----

  predicate IsPanic<I>(a: Action<I>) {
    a.StepPanics? || a.HandlerPanics?
  }

  /** Poisoned, or the guard that will poison it is about to be dropped. */
  predicate Broken<M, I, O>(s: System<M, I, O>) {
    s.turn == Poisoned || exists f :: 0 <= f < |s.frames| && s.frames[f].Leaving? && s.frames[f].guard.armed
  }

  lemma BreakStep<M, I, O>(step: (M, I) -> (O, M), initial: M, s: System<M, I, O>, a: Action<I>)
    requires Inv(step, initial, s) && Enabled(s, a)
    ensures Broken(Apply(step, s, a)) <==> Broken(s) || IsPanic(a)
  {
    hide Fold, Turns, DoneUpTo, MachineAfter, PoisonAll;
    var k: nat :| InvAt(step, initial, s, k);
    var t := Apply(step, s, a);
    if !a.Submit? {
      assert s.frames[a.frame].Owns() ==> OwnerView(step, initial, s, s.frames[a.frame], k);
      assert t.frames == s.frames[a.frame := t.frames[a.frame]];
      assert IsPanic(a) ==> t.frames[a.frame].Leaving? && t.frames[a.frame].guard.armed;
    }
    if f :| 0 <= f < |s.frames| && s.frames[f].Leaving? && s.frames[f].guard.armed {
      assert t.frames[f] == s.frames[f] || t.turn == Poisoned;
    }
  }

  lemma {:induction false} BreaksOverRun<M, I, O>(step: (M, I) -> (O, M), initial: M, s: System<M, I, O>, run: seq<Action<I>>)
    requires Inv(step, initial, s) && ValidRun(step, s, run)
    ensures Broken(After(step, s, run)) <==> Broken(s) || exists a <- run :: IsPanic(a)
    decreases |run|
  {
    hide Inv, Enabled, Apply, Broken, IsPanic;
    if run != [] {
      BreakStep(step, initial, s, run[0]);
      StepKeepsInv(step, initial, s, run[0]);
      BreaksOverRun(step, initial, Apply(step, s, run[0]), run[1..]);
      assert run == [run[0]] + run[1..];
    }
  }

  /** A run poisons the executor, or is about to, if and only if a transition or a handler panicked
      in it; once only submissions are possible it is poisoned if and only if one did. */
  lemma PoisonedExactlyByPanics<M, I(!new), O>(step: (M, I) -> (O, M), initial: M, run: seq<Action<I>>)
    requires ValidRun(step, Start(initial), run)
    ensures
      var s := After(step, Start(initial), run);
      && (Broken(s) <==> exists a <- run :: IsPanic(a))
      && (Quiescent(s) ==> (s.turn == Poisoned <==> exists a <- run :: IsPanic(a)))
  {
    StartInv(step, initial);
    BreaksOverRun(step, initial, Start(initial), run);
    RunKeepsInv(step, initial, Start(initial), run);
    var s := After(step, Start(initial), run);
    hide ValidRun, After, Fold, Turns, OwnerView, MachineAfter, Quiescent, IsPanic;
    var k: nat :| InvAt(step, initial, s, k);
    if Quiescent(s) && s.turn != Poisoned && Broken(s) {
      var f :| 0 <= f < |s.frames| && s.frames[f].Leaving? && s.frames[f].guard.armed;
      UnfinishedCanStep(step, initial, s, k, f);
      NoneIsASubmission(s, f);
    }
  }

  /** Turn `r` panicked in frame `f`: its guard still stands for it, or it was resolved as poisoned. */
  predicate Panicked<M, I, O>(s: System<M, I, O>, f: nat, r: nat) {
    && f < |s.frames| && r < |s.receipts|
    && ((s.frames[f] == Leaving(Guard(true, Some(r))) && s.receipts[r] == None) || s.receipts[r] == Some(PoisonedTurn))
  }

  lemma PanickedStep<M, I, O>(step: (M, I) -> (O, M), initial: M, s: System<M, I, O>, a: Action<I>, f: nat, r: nat)
    requires Inv(step, initial, s) && Enabled(s, a) && Panicked(s, f, r)
    ensures Panicked(Apply(step, s, a), f, r)
  {
    if s.receipts[r].Some? {
      ResolvedStep(step, initial, s, a, r);
      hide Inv, PoisonAll;
    } else {
      hide Fold, Turns, DoneUpTo, MachineAfter;
      var k: nat :| InvAt(step, initial, s, k);
      assert OwnerView(step, initial, s, s.frames[f], k);
    }
  }

  lemma {:induction false} PanickedOverRun<M, I, O>(
      step: (M, I) -> (O, M), initial: M, s: System<M, I, O>, run: seq<Action<I>>, f: nat, r: nat)
    requires Inv(step, initial, s) && ValidRun(step, s, run) && Panicked(s, f, r)
    ensures Panicked(After(step, s, run), f, r)
    decreases |run|
  {
    hide Inv, Enabled, Apply, Panicked;
    if run != [] {
      PanickedStep(step, initial, s, run[0], f, r);
      StepKeepsInv(step, initial, s, run[0]);
      PanickedOverRun(step, initial, Apply(step, s, run[0]), run[1..], f, r);
    }
  }

  /** The turn whose transition or handler panics is never completed: over any further run its
      receipt is unresolved until the guard is dropped, and poisoned from then on. */
  lemma PanickedTurnIsPoisoned<M, I, O>(
      step: (M, I) -> (O, M), initial: M, s: System<M, I, O>, a: Action<I>, run: seq<Action<I>>)
    requires Inv(step, initial, s) && Enabled(s, a) && IsPanic(a) && ValidRun(step, Apply(step, s, a), run)
    ensures Panicked(After(step, Apply(step, s, a), run), a.frame, s.frames[a.frame].receipt)
  {
    var k: nat :| InvAt(step, initial, s, k);
    assert OwnerView(step, initial, s, s.frames[a.frame], k);
    StepKeepsInv(step, initial, s, a);
    var t := Apply(step, s, a);
    assert Panicked(t, a.frame, s.frames[a.frame].receipt);
    hide Inv, Apply, ValidRun, After, Panicked;
    PanickedOverRun(step, initial, t, run, a.frame, s.frames[a.frame].receipt);
  }

  // ----- progress -----

  /** The steps a call frame has left in its turn. */
  ghost function FrameWork<M, I, O>(frame: Frame<M, I, O>, unit: ()): nat {
    match frame
    case Stepping(_, _, _, _) => 6
    case Installing(_, _, _, _) => 5
    case Handling(_, _, _) => 4
    case Completing(_, _) => 3
    case Draining(_) => 2
    case Leaving(_) => 1
    case Finished => 0
  }

  /** The work left when nobody submits any more. */
  ghost function Measure<M, I, O>(s: System<M, I, O>): nat {
    5 * |s.inputs| + Tally(s.frames, (FrameWork<M, I, O>), ())
  }

  /** Every section, transition, handler and panic leaves less work. */
  lemma StepsLeaveLess<M, I, O>(step: (M, I) -> (O, M), s: System<M, I, O>, a: Action<I>)
    requires Enabled(s, a) && !a.Submit?
    ensures Measure(Apply(step, s, a)) < Measure(s)
  {
    var t := Apply(step, s, a);
    TallyUpdate(s.frames, a.frame, t.frames[a.frame], (FrameWork<M, I, O>), ());
    assert t.frames == s.frames[a.frame := t.frames[a.frame]];
    hide Tally, PoisonAll;
  }

  /** So a schedule without submissions is no longer than the work it started with. */
  lemma {:induction false} SchedulesEnd<M, I, O>(step: (M, I) -> (O, M), s: System<M, I, O>, run: seq<Action<I>>)
    requires ValidRun(step, s, run) && forall i :: 0 <= i < |run| ==> !run[i].Submit?
    ensures |run| + Measure(After(step, s, run)) <= Measure(s)
    decreases |run|
  {
    hide Measure, Apply, Enabled;
    if run != [] {
      StepsLeaveLess(step, s, run[0]);
      SchedulesEnd(step, Apply(step, s, run[0]), run[1..]);
    }
  }

  /** Nothing can happen but another submission. */
  ghost predicate Quiescent<M, I(!new), O>(s: System<M, I, O>) {
    forall a: Action<I> :: Enabled(s, a) ==> a.Submit?
  }

  /** The step frame `f` takes next when nothing panics. */
  function NextAction<M, I, O>(frame: Frame<M, I, O>, f: nat): Action<I> {
    match frame
    case Draining(_) => TakeTurn(f)
    case Stepping(_, _, _, _) => StepReturns(f)
    case Installing(_, _, _, _) => Install(f)
    case Handling(_, _, _) => HandlerReturns(f)
    case Completing(_, _) => Complete(f)
    case _ => Drop(f)
  }

  /** Every frame that has not finished can take a step. */
  lemma UnfinishedCanStep<M, I, O>(step: (M, I) -> (O, M), initial: M, s: System<M, I, O>, k: nat, f: nat)
    requires InvAt(step, initial, s, k) && f < |s.frames| && !s.frames[f].Finished?
    ensures Enabled(s, NextAction(s.frames[f], f))
  {
    hide Fold, Turns, DoneUpTo, MachineAfter;
    assert s.frames[f].Owns() ==> OwnerView(step, initial, s, s.frames[f], k);
  }

  lemma NoneIsASubmission<M, I(!new), O>(s: System<M, I, O>, f: nat)
    requires f < |s.frames| && Quiescent(s)
    ensures !Enabled(s, NextAction(s.frames[f], f))
  {}

  /** And then every accepted input has its outcome: all completed, or the last of them poisoned. */
  lemma QuiescenceResolvesEverything<M, I(!new), O>(step: (M, I) -> (O, M), initial: M, run: seq<Action<I>>)
    requires ValidRun(step, Start(initial), run) && Quiescent(After(step, Start(initial), run))
    ensures
      var s := After(step, Start(initial), run);
      && |s.receipts| == |s.accepted| && (forall j :: 0 <= j < |s.receipts| ==> s.receipts[j].Some?)
      && s.turn != Running && s.inputs == []
      && (s.turn == Idle ==>
           s.handled == Fold(step, initial, s.accepted).0 && forall j :: 0 <= j < |s.receipts| ==> s.receipts[j] == Some(Completed))
  {
    StartInv(step, initial);
    RunKeepsInv(step, initial, Start(initial), run);
    var s := After(step, Start(initial), run);
    hide ValidRun, After, Fold, Turns, OwnerView, MachineAfter, Quiescent;
    var k: nat :| InvAt(step, initial, s, k);
    forall f | 0 <= f < |s.frames|
      ensures s.frames[f].Finished?
    {
      if !s.frames[f].Finished? {
        UnfinishedCanStep(step, initial, s, k, f);
        NoneIsASubmission(s, f);
      }
    }
    assert s.accepted[..|s.accepted|] == s.accepted;
  }
}
