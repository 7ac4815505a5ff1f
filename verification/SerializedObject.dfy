/** Serialized run-to-completion execution as an object: inputs queue up, one drain owner
    steps the machine and finishes handling each output before the next step, and every
    accepted input gets a receipt. Each locked section is a step of the transition system. */
module SerializedObject {
  import opened Common
  import opened Serialized
  import R = SerializedRuns

  /** The state the sections share: everything but frames and histories. */
  ghost predicate SameShared<M, I, O>(s: R.System<M, I, O>, t: R.System<M, I, O>) {
    s.machine == t.machine && s.inputs == t.inputs && s.turn == t.turn && s.receipts == t.receipts
  }

  /** A completion receipt, shared by its submitter and the queue. */
  class TurnCompletion {
    var outcome: Option<TurnOutcome>

    constructor ()
      ensures outcome == None
    {
      outcome := None;
    }

    method Complete(result: TurnOutcome)
      modifies this
      ensures outcome == Some(result)
    {
      outcome := Some(result);
    }
  }

  /** Resolving the active receipt and every later one is what dropping the guard does. */
  lemma PoisonIsDrop<M, I, O>(step: (M, I) -> (O, M), s: R.System<M, I, O>, t: R.System<M, I, O>, first: nat)
    requires s.frames == [R.Leaving(R.Guard(true, Some(first)))] && |s.receipts| == first + 1 + |s.inputs|
    requires forall i :: 0 <= i < |s.inputs| ==> s.inputs[i].1 == first + 1 + i
    requires t.machine == s.machine && t.inputs == [] && t.turn == Poisoned && |t.receipts| == |s.receipts|
    requires forall k :: 0 <= k < |s.receipts| ==> t.receipts[k] == if first <= k then Some(PoisonedTurn) else s.receipts[k]
    ensures SameShared(t, R.Apply(step, s, R.Drop(0)))
  {
    var r := R.Apply(step, s, R.Drop(0)).receipts;
    forall k | 0 <= k < |s.receipts|
      ensures t.receipts[k] == r[k]
    {
      if first < k {
        assert s.inputs[k - first - 1].1 == k;
      }
    }
  }

  datatype Admission<I> = Queued(receipt: TurnCompletion, owns: bool) | Rejected(input: I)

  class SerializedExecutor<M, I, O> {
    const step: (M, I) -> (O, M)
    var machine: Option<M>
    var inputs: seq<(I, TurnCompletion)>
    var turn: TurnState
    /** Every receipt handed out, in acceptance order. */
    ghost var issued: seq<TurnCompletion>

    constructor (step: (M, I) -> (O, M), initial: M)
      ensures this.step == step && machine == Some(initial) && inputs == [] && turn == Idle && Valid()
      ensures Numbered() && issued == []
    {
      this.step := step;
      machine, inputs, turn, issued := Some(initial), [], Idle, [];
    }

    /** The queued receipts. */
    ghost function Receipts(): set<TurnCompletion>
      reads this
    {
      set i | 0 <= i < |inputs| :: inputs[i].1
    }

    /** Every queued receipt is its input's own and still unresolved. */
    ghost predicate Valid()
      reads this, Receipts()
    {
      && (forall i, j :: 0 <= i < j < |inputs| ==> inputs[i].1 != inputs[j].1)
      && (forall i :: 0 <= i < |inputs| ==> inputs[i].1.outcome == None)
      && (turn != Running ==> inputs == [])
    }

    /** The queue holds the receipts issued last, in order. */
    ghost predicate Numbered()
      reads this
    {
      && |inputs| <= |issued|
      && (forall i, j :: 0 <= i < j < |issued| ==> issued[i] != issued[j])
      && (forall i :: 0 <= i < |inputs| ==> inputs[i].1 == issued[|issued| - |inputs| + i])
    }

    /** The object as a system with the given call frames, receipts numbered as they were issued. */
    ghost function View(frames: seq<R.Frame<M, I, O>>): R.System<M, I, O>
      requires Numbered()
      reads this, issued
    {
      R.System(
        machine,
        seq(|inputs|, i requires 0 <= i < |inputs| reads this => (inputs[i].0, |issued| - |inputs| + i)),
        turn,
        frames,
        seq(|issued|, i requires 0 <= i < |issued| reads this, issued => issued[i].outcome),
        [], [], [], false)
    }

    /** The locked section of submit: refuse, contribute, or contribute and take ownership. */
    method Admit(input: I) returns (r: Admission<I>)
      requires Valid()
      modifies this`inputs, this`turn, this`issued
      ensures Valid()
      ensures old(Numbered()) ==>
        Numbered() && SameShared(View([]), R.Apply(step, old(View([])), R.Submit(input)))
      ensures old(turn) == Poisoned ==> r == Rejected(input) && turn == Poisoned && inputs == old(inputs)
      ensures old(turn) != Poisoned ==>
        && r.Queued? && fresh(r.receipt) && r.receipt.outcome == None
        && r.owns == (old(turn) == Idle) && turn == Running
        && inputs == old(inputs) + [(input, r.receipt)]
    {
      if turn == Poisoned {
        return Rejected(input);
      }
      var completion := new TurnCompletion();
      var owns := turn == Idle;
      inputs := inputs + [(input, completion)];
      issued := issued + [completion];
      turn := Running;
      return Queued(completion, owns);
    }

    /** The owner takes the next turn, or gives ownership up with the queue empty. */
    method TakeTurn() returns (next: Option<(M, I, TurnCompletion)>)
      requires Valid() && turn == Running && machine.Some?
      modifies this`machine, this`inputs, this`turn
      ensures Valid()
      ensures old(Numbered()) ==>
        Numbered() && SameShared(View([]), R.Apply(step, old(View([R.Draining(R.Guard(true, None))])), R.TakeTurn(0)))
      ensures old(inputs) == [] ==> next == None && turn == Idle && machine == old(machine)
      ensures old(inputs) != [] ==>
        && next == Some((old(machine).value, old(inputs)[0].0, old(inputs)[0].1))
        && inputs == old(inputs)[1..] && turn == Running && machine == None
        && next.value.2 !in Receipts() && next.value.2.outcome == None
    {
      if inputs == [] {
        turn := Idle;
        return None;
      }
      next := Some((machine.value, inputs[0].0, inputs[0].1));
      inputs := inputs[1..];
      machine := None;
    }

    /** The dropped guard of a panicking owner poisons the executor and resolves the active
        receipt and every queued one. */
    method Poison(active: TurnCompletion)
      requires Valid() && active !in Receipts()
      modifies this`turn, this`inputs, active, Receipts()
      ensures Valid() && turn == Poisoned && inputs == []
      ensures active.outcome == Some(PoisonedTurn)
      ensures forall i :: 0 <= i < |old(inputs)| ==> old(inputs)[i].1.outcome == Some(PoisonedTurn)
      ensures old(Numbered()) ==> Numbered()
      ensures old(Numbered()) && |old(inputs)| < |issued| && active == issued[|issued| - |old(inputs)| - 1] ==>
        Numbered() && SameShared(View([]), R.Apply(step, old(View([R.Leaving(R.Guard(true, Some(|issued| - |inputs| - 1)))])), R.Drop(0)))
    {
      hide R.Apply, R.PoisonAll, SameShared;
      ghost var all, first := inputs, |issued| - |inputs| - 1;
      ghost var numbered := Numbered() && first >= 0 && active == issued[first];
      ghost var before: R.System<M, I, O>;
      if numbered {
        before := View([R.Leaving(R.Guard(true, Some(first)))]);
        assert forall i :: 0 <= i < |all| ==> all[i].1 == issued[first + 1 + i];
      }
      active.Complete(PoisonedTurn);
      PoisonEach(inputs);
      inputs := [];
      turn := Poisoned;
      if numbered {
        forall k | 0 <= k < |issued|
          ensures issued[k].outcome == if first <= k then Some(PoisonedTurn) else old(issued[k].outcome)
        {
          if first < k {
            assert issued[k] == all[k - first - 1].1;
          } else if k < first {
            assert issued[k] != active && issued[k] !in old(Receipts());
          }
        }
        PoisonIsDrop(step, before, View([]), first);
      }
    }

    /** Resolve every given receipt as poisoned. */
    static method PoisonEach(entries: seq<(I, TurnCompletion)>)
      modifies set i | 0 <= i < |entries| :: entries[i].1
      ensures forall i :: 0 <= i < |entries| ==> entries[i].1.outcome == Some(PoisonedTurn)
    {
      for n := 0 to |entries|
        invariant forall i :: 0 <= i < n ==> entries[i].1.outcome == Some(PoisonedTurn)
      {
        entries[n].1.Complete(PoisonedTurn);
      }
    }

    /** One turn of the drain loop, when no one else interferes: the transition, its handler,
        and its receipt. With `panics`, the handler panics and everything queued is poisoned. */
    method Turn(panics: bool) returns (output: O)
      requires Valid() && turn == Running && machine.Some? && inputs != []
      modifies this, Receipts()
      ensures issued == old(issued) && (old(Numbered()) ==> Numbered())
      ensures Valid() && (output, machine) == (step(old(machine).value, old(inputs)[0].0).0, Some(step(old(machine).value, old(inputs)[0].0).1))
      ensures !panics ==>
        && turn == Running && inputs == old(inputs)[1..]
        && old(inputs)[0].1.outcome == Some(Completed)
      ensures panics ==>
        && turn == Poisoned && inputs == []
        && forall i :: 0 <= i < |old(inputs)| ==> old(inputs)[i].1.outcome == Some(PoisonedTurn)
    {
      var next := TakeTurn();
      var (m, input, completion) := next.value;
      var (result, successor) := step(m, input);
      machine := Some(successor);
      output := result;
      if panics {
        Poison(completion);
      } else {
        completion.Complete(Completed);
      }
    }

    /** The first `k` of `all` have been stepped, handled and completed, and the rest is queued. */
    ghost predicate DrainedTo(all: seq<(I, TurnCompletion)>, initial: M, handled: seq<O>, k: nat)
      reads this, set i | 0 <= i < |all| :: all[i].1
    {
      && k <= |all| && inputs == all[k..] && |handled| == k
      && machine.Some? && (handled, machine.value) == Fold(step, initial, Inputs(all[..k]))
      && (forall i :: 0 <= i < k ==> all[i].1.outcome == Some(Completed))
      && (forall i, j :: 0 <= i < j < |all| ==> all[i].1 != all[j].1)
    }

    /** One more turn of a drain that began with `all` queued. */
    method DrainTurn(ghost all: seq<(I, TurnCompletion)>, ghost initial: M, handled: seq<O>, panics: bool)
      returns (more: seq<O>)
      requires Valid() && turn == Running && inputs != [] && DrainedTo(all, initial, handled, |handled|)
      modifies this, Receipts()
      ensures issued == old(issued) && (old(Numbered()) ==> Numbered())
      ensures Valid() && |more| == |handled| + 1
      ensures !panics ==> turn == Running && DrainedTo(all, initial, more, |more|)
      ensures panics ==>
        && turn == Poisoned && inputs == [] && machine.Some?
        && (more, machine.value) == Fold(step, initial, Inputs(all[..|more|]))
        && forall i :: 0 <= i < |all| ==> all[i].1.outcome == Some(if i < |handled| then Completed else PoisonedTurn)
    {
      hide Fold, Inputs, Numbered, View, SameShared, R.Apply, R.PoisonAll;
      ghost var k := |handled|;
      FoldNext(step, initial, all, k);
      assert forall i :: 0 <= i < |inputs| ==> inputs[i] == all[k + i];
      assert forall i :: 0 <= i < k ==> all[i].1 !in Receipts();
      var output := Turn(panics);
      more := handled + [output];
      assert forall i :: k <= i < |all| ==> all[i] == old(inputs)[i - k];
    }

    /** The drain loop, when no one else interferes: every queued input is stepped and its
        output handled, in order, each receipt completed. With `panicAt`, the handler of that
        turn panics and everything from there on is resolved as poisoned. */
    method Drain(panicAt: Option<nat>) returns (handled: seq<O>)
      requires Valid() && turn == Running && machine.Some?
      modifies this, Receipts()
      ensures issued == old(issued) && (old(Numbered()) ==> Numbered())
      ensures Valid() && inputs == [] && machine.Some?
      ensures
        var all := old(inputs);
        var done := if panicAt.Some? && panicAt.value < |all| then panicAt.value else |all|;
        && turn == (if done < |all| then Poisoned else Idle)
        && (handled, machine.value) == Fold(step, old(machine).value, Inputs(all[..if done < |all| then done + 1 else done]))
        && forall i :: 0 <= i < |all| ==> all[i].1.outcome == Some(if i < done then Completed else PoisonedTurn)
    {
      hide Fold, Inputs, Numbered, View, SameShared, R.Apply, R.PoisonAll;
      handled := [];
      ghost var all, initial := inputs, machine.value;
      FoldNext(step, initial, all, 0);
      while inputs != []
        invariant Valid() && turn == Running && DrainedTo(all, initial, handled, |handled|)
        invariant Receipts() <= old(Receipts())
        invariant issued == old(issued) && (old(Numbered()) ==> Numbered())
        invariant panicAt.Some? ==> |handled| <= panicAt.value
        decreases |inputs|
      {
        handled := DrainTurn(all, initial, handled, panicAt == Some(|handled|));
        if turn == Poisoned {
          return;
        }
      }
      var last := TakeTurn();
    }
  }
}
