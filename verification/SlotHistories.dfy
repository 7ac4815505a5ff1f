/** Effect order across threads: what one slot decides, whoever submits and whoever interprets,
    is the fold of the facts it was submitted, handed out in declared order. So the results
    about lists of facts hold of every slot of every concurrent run. */
module SlotHistories {
  import opened Common
  import opened Lifecycle
  import opened Evidence
  import opened Directory
  import Drain = DrainSafety

  /** The facts a slot was submitted and the effects handed out for it, in order. */
  datatype History<C, E, L> = History(submitted: seq<SlotEvent<C, E, L>>, handed: seq<SlotEffect<C, E, L>>)

  /** The fact a step submits to slot `k`: a claim for a new slot, or the fact of an operation holding it. */
  function Submits<I(==), C, E, L>(d: Directory<I, C, E, L>, a: Action<I, C, E, L>, k: nat): seq<SlotEvent<C, E, L>>
    requires Enabled(d, a)
  {
    if !a.Step? then []
    else
      match d.ops[a.op]
      case Holding(_, slot, event) => if slot == k then [event] else []
      case DispatchLookup(entity, id, command) =>
        if entity !in d.entries && d.nextActivation < MAX_U64 && k == |d.slots|
        then [SlotEvent.ClaimActivation(d.nextActivation, id, command, d.waiterLimit)] else []
      case _ => []
  }

  /** The effect of slot `k` a step interprets. */
  function Hands<I, C, E, L>(d: Directory<I, C, E, L>, a: Action<I, C, E, L>, k: nat): seq<SlotEffect<C, E, L>>
    requires Enabled(d, a)
  {
    if a.Step? && d.ops[a.op].Owning? && d.ops[a.op].slot == k && d.ops[a.op].effects != []
    then [d.ops[a.op].effects[0]] else []
  }

  function Record<I(==), C, E, L>(d: Directory<I, C, E, L>, h: History<C, E, L>, a: Action<I, C, E, L>, k: nat): History<C, E, L>
    requires Enabled(d, a)
  {
    History(h.submitted + Submits(d, a, k), h.handed + Hands(d, a, k))
  }

  /** The history of slot `k` over a run. */
  function Recorded<I(==), C, E, L>(
      d: Directory<I, C, E, L>, h: History<C, E, L>, run: seq<Action<I, C, E, L>>, k: nat): History<C, E, L>
    requires ValidRun(d, run)
    decreases |run|
  {
    if run == [] then h else Recorded(Apply(d, run[0]), Record(d, h, run[0], k), run[1..], k)
  }

  /** The effects still queued at a slot. */
  function Queued<C, E, L>(outputs: seq<LifecycleOutput<C, E, L>>): seq<SlotEffect<C, E, L>> {
    if outputs == [] then [] else Queued(outputs[..|outputs| - 1]) + outputs[|outputs| - 1].effects
  }

  function HeldFor<I, C, E, L>(op: Op<I, C, E, L>, k: nat): seq<SlotEffect<C, E, L>> {
    if op.Owning? && op.slot == k then op.effects else []
  }

  /** The effects of slot `k` some dispatcher has in hand. */
  function InHand<I, C, E, L>(ops: seq<Op<I, C, E, L>>, k: nat): seq<SlotEffect<C, E, L>> {
    if ops == [] then [] else InHand(ops[..|ops| - 1], k) + HeldFor(ops[|ops| - 1], k)
  }

  /** The effects of slot `k` not handed out yet. */
  function Left<I, C, E, L>(d: Directory<I, C, E, L>, k: nat): seq<SlotEffect<C, E, L>>
    requires k < |d.slots|
  {
    InHand(d.ops, k) + Queued(d.slots[k].executor.outputs)
  }

  /** Effects handed out, in hand and queued, in that order, are those of the fold over the facts
      submitted, and so is the state. */
  ghost predicate Matches<I, C, E, L>(d: Directory<I, C, E, L>, h: History<C, E, L>, k: nat) {
    if k < |d.slots|
    then DecideAll(EntitySlot.Inactive, h.submitted) == Decision(d.slots[k].State(), h.handed + Left(d, k))
    else h == History([], [])
  }

  // ----- what dispatchers hold -----

  lemma InHandAppend<I, C, E, L>(ops: seq<Op<I, C, E, L>>, op: Op<I, C, E, L>, k: nat)
    ensures InHand(ops + [op], k) == InHand(ops, k) + HeldFor(op, k)
  {
    assert (ops + [op])[..|ops|] == ops;
  }

  /** Replacing an operation that holds nothing for the slot by another such operation. */
  lemma {:induction false} InHandSame<I, C, E, L>(ops: seq<Op<I, C, E, L>>, j: nat, op: Op<I, C, E, L>, k: nat)
    requires j < |ops| && HeldFor(ops[j], k) == HeldFor(op, k)
    ensures InHand(ops[j := op], k) == InHand(ops, k)
  {
    var n := |ops| - 1;
    if j < n {
      InHandSame(ops[..n], j, op, k);
      assert ops[j := op][..n] == ops[..n][j := op];
    } else {
      assert ops[j := op][..n] == ops[..n];
    }
  }

  lemma {:induction false} InHandNone<I, C, E, L>(ops: seq<Op<I, C, E, L>>, k: nat)
    requires forall i :: 0 <= i < |ops| ==> OpOwns(ops[i], k) == 0
    ensures InHand(ops, k) == []
  {
    if ops != [] {
      InHandNone(ops[..|ops| - 1], k);
    }
  }

  /** With one owner at most, what is in hand is what it holds. */
  lemma {:induction false} InHandOnly<I, C, E, L>(ops: seq<Op<I, C, E, L>>, j: nat, k: nat)
    requires j < |ops| && forall i :: 0 <= i < |ops| && i != j ==> OpOwns(ops[i], k) == 0
    ensures InHand(ops, k) == HeldFor(ops[j], k)
  {
    var n := |ops| - 1;
    if j < n {
      InHandOnly(ops[..n], j, k);
    } else {
      InHandNone(ops[..n], k);
    }
  }

  /** An operation that owns slot `k`, or becomes its owner while nobody dispatches, is the only one. */
  lemma OnlyOwner<I, C, E, L>(d: Directory<I, C, E, L>, j: nat, k: nat, i: nat)
    requires Inv(d) && j < |d.ops| && k < |d.slots| && i < |d.ops| && i != j
    requires OpOwns(d.ops[j], k) == 1 || d.slots[k].executor.dispatch.Idle?
    ensures OpOwns(d.ops[i], k) == 0
  {
    hide SlotOk, OpOk;
    assert Balanced(d, k);
    TallyTwo(d.ops, i, j, (OpOwns<I, C, E, L>), k);
    TallyHas(d.ops, i, (OpOwns<I, C, E, L>), k);
  }

  /** The step of the one dispatcher of slot `k` replaces what is in hand. */
  lemma DispatcherHolds<I, C, E, L>(d: Directory<I, C, E, L>, j: nat, op: Op<I, C, E, L>, k: nat)
    requires Inv(d) && j < |d.ops| && k < |d.slots|
    requires OpOwns(d.ops[j], k) == 1 || d.slots[k].executor.dispatch.Idle?
    ensures InHand(d.ops, k) == HeldFor(d.ops[j], k) && InHand(d.ops[j := op], k) == HeldFor(op, k)
  {
    forall i | 0 <= i < |d.ops| && i != j
      ensures OpOwns(d.ops[i], k) == 0
    {
      OnlyOwner(d, j, k, i);
    }
    hide Inv;
    InHandOnly(d.ops, j, k);
    InHandOnly(d.ops[j := op], j, k);
  }

  lemma QueuedAppend<C, E, L>(outputs: seq<LifecycleOutput<C, E, L>>, output: LifecycleOutput<C, E, L>)
    ensures Queued(outputs + [output]) == Queued(outputs) + output.effects
  {
    assert (outputs + [output])[..|outputs|] == outputs;
  }

  lemma {:induction false} QueuedFirst<C, E, L>(outputs: seq<LifecycleOutput<C, E, L>>)
    requires outputs != []
    ensures Queued(outputs) == outputs[0].effects + Queued(outputs[1..])
  {
    var n := |outputs| - 1;
    if n > 0 {
      QueuedFirst(outputs[..n]);
      var middle := outputs[..n][1..];
      assert outputs[1..] == middle + [outputs[n]];
      QueuedAppend(middle, outputs[n]);
    } else {
      assert Queued(outputs[..0]) == [] && Queued(outputs[1..]) == [];
    }
  }

  // ----- every step keeps the match -----

  /** One more fact adds its decision's effects at the end. */
  lemma OneMoreFact<C, E, L>(
      submitted: seq<SlotEvent<C, E, L>>, state: EntitySlot<C, E, L>, handed: seq<SlotEffect<C, E, L>>,
      held: seq<SlotEffect<C, E, L>>, outputs: seq<LifecycleOutput<C, E, L>>, event: SlotEvent<C, E, L>)
    requires DecideAll(EntitySlot.Inactive, submitted) == Decision(state, handed + (held + Queued(outputs)))
    ensures
      var (output, next) := Transition(state, event);
      DecideAll(EntitySlot.Inactive, submitted + [event]) == Decision(next, handed + (held + Queued(outputs + [output])))
  {
    hide Reduce;
    var output := Transition(state, event).0;
    assert (submitted + [event])[..|submitted|] == submitted;
    QueuedAppend(outputs, output);
    hide Queued;
    assert handed + (held + (Queued(outputs) + output.effects)) == handed + (held + Queued(outputs)) + output.effects;
  }

  lemma SubmitMatches<I, C, E, L>(d: Directory<I, C, E, L>, h: History<C, E, L>, j: nat)
    requires Enabled(d, Step(j)) && d.ops[j].Holding? && Matches(d, h, d.ops[j].slot)
    ensures Matches(StepSubmit(d, j), Record(d, h, Step(j), d.ops[j].slot), d.ops[j].slot)
  {
    hide DecideAll, InHand, Queued, Transition;
    var op, k := d.ops[j], d.ops[j].slot;
    OneMoreFact(h.submitted, d.slots[k].State(), h.handed, InHand(d.ops, k), d.slots[k].executor.outputs, op.event);
    InHandSame(d.ops, j, Interpret(op.entity, k), k);
    assert h.handed + [] == h.handed;
  }

  lemma NothingYet<C, E, L>()
    ensures Queued<C, E, L>([]) == []
    ensures DecideAll(EntitySlot<C, E, L>.Inactive, []) == Decision(EntitySlot<C, E, L>.Inactive, [] + ([] + Queued<C, E, L>([])))
  {}

  lemma ClaimMatches<I, C, E, L>(d: Directory<I, C, E, L>, h: History<C, E, L>, j: nat)
    requires Inv(d) && Enabled(d, Step(j)) && d.ops[j].DispatchLookup? && Matches(d, h, |d.slots|)
    requires d.ops[j].entity !in d.entries && d.nextActivation < MAX_U64
    ensures Matches(StepDispatch(d, j), Record(d, h, Step(j), |d.slots|), |d.slots|)
  {
    hide DecideAll, InHand, Queued, Transition, SlotOk, Balanced;
    var op, n, t := d.ops[j], |d.slots|, StepDispatch(d, j);
    forall i | 0 <= i < |t.ops|
      ensures OpOwns(t.ops[i], n) == 0
    {
      assert OpOk(d, d.ops[i]);
    }
    InHandNone(t.ops, n);
    hide Inv;
    NothingYet<C, E, L>();
    var claim := SlotEvent<C, E, L>.ClaimActivation(d.nextActivation, op.dispatchId, op.command, d.waiterLimit);
    OneMoreFact<C, E, L>([], EntitySlot.Inactive, [], [], [], claim);
  }

  lemma Shift<T>(held: seq<T>, queued: seq<T>)
    ensures held != [] ==> held + queued == [held[0]] + (held[1..] + queued)
    ensures [] + queued == queued
  {
    if held != [] {
      assert held == [held[0]] + held[1..];
    }
  }

  lemma AcquireLeft<I, C, E, L>(d: Directory<I, C, E, L>, j: nat)
    requires Inv(d) && Enabled(d, Step(j)) && d.ops[j].Interpret?
    ensures
      var t, k := Apply(d, Step(j)), d.ops[j].slot;
      |t.slots| == |d.slots| && t.slots[k].State() == d.slots[k].State() && Left(t, k) == Left(d, k)
  {
    hide SlotOk, OpOk, Balanced, InHand, Queued;
    var t, k := Apply(d, Step(j)), d.ops[j].slot;
    if d.slots[k].executor.dispatch.Dispatching? {
      InHandSame(d.ops, j, t.ops[j], k);
    } else {
      DispatcherHolds(d, j, t.ops[j], k);
    }
    hide Inv;
  }

  /** Popping only moves effects from the queue into one hand. */
  lemma NextLeft<I, C, E, L>(d: Directory<I, C, E, L>, j: nat)
    requires Inv(d) && Enabled(d, Step(j)) && d.ops[j].Owning? && d.ops[j].effects == []
    ensures
      var t, k := Apply(d, Step(j)), d.ops[j].slot;
      |t.slots| == |d.slots| && t.slots[k].State() == d.slots[k].State() && Left(t, k) == Left(d, k)
  {
    hide SlotOk, OpOk, Balanced, InHand, Queued;
    var t, k := Apply(d, Step(j)), d.ops[j].slot;
    var outputs := d.slots[k].executor.outputs;
    DispatcherHolds(d, j, t.ops[j], k);
    Shift([], Queued(outputs));
    if outputs != [] {
      QueuedFirst(outputs);
    }
    hide Inv;
  }

  /** Interpreting an effect takes it from the front. */
  lemma EffectLeft<I, C, E, L>(d: Directory<I, C, E, L>, j: nat)
    requires Inv(d) && Enabled(d, Step(j)) && d.ops[j].Owning? && d.ops[j].effects != []
    ensures
      var t, k := Apply(d, Step(j)), d.ops[j].slot;
      && |t.slots| == |d.slots| && t.slots[k].State() == d.slots[k].State()
      && Left(d, k) == [d.ops[j].effects[0]] + Left(t, k)
  {
    hide SlotOk, OpOk, Balanced;
    var t, op, k := Apply(d, Step(j)), d.ops[j], d.ops[j].slot;
    DispatcherHolds(d, j, t.ops[j], k);
    hide Inv, InHand, Queued;
    Shift(op.effects, Queued(d.slots[k].executor.outputs));
  }

  lemma DispatchMatches<I, C, E, L>(d: Directory<I, C, E, L>, h: History<C, E, L>, j: nat)
    requires Inv(d) && Enabled(d, Step(j)) && (d.ops[j].Interpret? || d.ops[j].Owning?) && Matches(d, h, d.ops[j].slot)
    ensures Matches(Apply(d, Step(j)), Record(d, h, Step(j), d.ops[j].slot), d.ops[j].slot)
  {
    hide SlotOk, Balanced, OpOk, DecideAll, Left;
    var op, k := d.ops[j], d.ops[j].slot;
    var handed := Hands(d, Step(j), k);
    if op.Owning? && op.effects != [] {
      EffectLeft(d, j);
    } else if op.Owning? {
      NextLeft(d, j);
    } else {
      AcquireLeft(d, j);
    }
    hide Inv, Apply, InHand, Queued;
    assert h.submitted + [] == h.submitted && h.handed + [] == h.handed;
    if handed != [] {
      assert h.handed + (handed + Left(Apply(d, Step(j)), k)) == (h.handed + handed) + Left(Apply(d, Step(j)), k);
    }
  }

  /** The step is not about slot `k`. */
  predicate Elsewhere<I, C, E, L>(d: Directory<I, C, E, L>, a: Action<I, C, E, L>, k: nat)
    requires Enabled(d, a)
  {
    a.Step? ==> !((d.ops[a.op].Holding? || d.ops[a.op].Interpret? || d.ops[a.op].Owning?) && d.ops[a.op].slot == k)
  }

  lemma ElsewhereSlot<I, C, E, L>(d: Directory<I, C, E, L>, a: Action<I, C, E, L>, k: nat)
    requires Enabled(d, a) && k < |d.slots| && Elsewhere(d, a, k)
    ensures k < |Apply(d, a).slots| && Apply(d, a).slots[k] == d.slots[k]
    ensures Submits(d, a, k) == [] && Hands(d, a, k) == []
  {
    hide Transition;
  }

  lemma ElsewhereHands<I, C, E, L>(d: Directory<I, C, E, L>, a: Action<I, C, E, L>, k: nat)
    requires Enabled(d, a) && k < |d.slots| && Elsewhere(d, a, k)
    ensures InHand(Apply(d, a).ops, k) == InHand(d.ops, k)
  {
    hide Transition, InHand, SubmitTo;
    var t := Apply(d, a);
    if a.Step? {
      InHandSame(d.ops, a.op, t.ops[a.op], k);
      assert t.ops == d.ops[a.op := t.ops[a.op]];
    } else {
      InHandAppend(d.ops, t.ops[|d.ops|], k);
      assert t.ops == d.ops + [t.ops[|d.ops|]];
    }
  }

  /** A step elsewhere leaves slot `k`, what is in hand for it, and its history alone. */
  lemma ElsewhereMatches<I, C, E, L>(d: Directory<I, C, E, L>, h: History<C, E, L>, a: Action<I, C, E, L>, k: nat)
    requires Enabled(d, a) && Matches(d, h, k) && k < |d.slots| && Elsewhere(d, a, k)
    ensures Matches(Apply(d, a), Record(d, h, a, k), k)
  {
    ElsewhereSlot(d, a, k);
    ElsewhereHands(d, a, k);
    hide Apply, DecideAll, InHand, Queued, Submits, Hands, Elsewhere;
    assert h.submitted + [] == h.submitted && h.handed + [] == h.handed;
  }

  /** A slot that does not exist yet has no history. */
  lemma FutureMatches<I, C, E, L>(d: Directory<I, C, E, L>, h: History<C, E, L>, a: Action<I, C, E, L>, k: nat)
    requires Inv(d) && Enabled(d, a) && Matches(d, h, k) && |d.slots| <= k && |Apply(d, a).slots| <= k
    ensures Matches(Apply(d, a), Record(d, h, a, k), k)
  {
    hide SlotOk, Balanced, Transition, DecideAll, Queued, InHand;
    if a.Step? {
      assert OpOk(d, d.ops[a.op]);
    }
  }

  lemma StepMatches<I, C, E, L>(d: Directory<I, C, E, L>, h: History<C, E, L>, a: Action<I, C, E, L>, k: nat)
    requires Inv(d) && Enabled(d, a) && Matches(d, h, k)
    ensures Matches(Apply(d, a), Record(d, h, a, k), k)
  {
    hide Matches, Record, Inv, Transition;
    if k < |d.slots| && Elsewhere(d, a, k) {
      ElsewhereMatches(d, h, a, k);
    } else if k < |d.slots| && d.ops[a.op].Holding? {
      SubmitMatches(d, h, a.op);
    } else if k < |d.slots| {
      DispatchMatches(d, h, a.op);
    } else if k < |Apply(d, a).slots| {
      ClaimMatches(d, h, a.op);
    } else {
      FutureMatches(d, h, a, k);
    }
  }

  lemma {:induction false} RunMatches<I, C, E, L>(d: Directory<I, C, E, L>, h: History<C, E, L>, run: seq<Action<I, C, E, L>>, k: nat)
    requires Inv(d) && ValidRun(d, run) && Matches(d, h, k)
    ensures Matches(After(d, run), Recorded(d, h, run, k), k)
    decreases |run|
  {
    hide Inv, Enabled, Apply, Matches, Record;
    if run != [] {
      StepMatches(d, h, run[0], k);
      StepKeepsInv(d, run[0]);
      RunMatches(Apply(d, run[0]), Record(d, h, run[0], k), run[1..], k);
    }
  }

  /** The history of slot `k` over a run of a new directory. */
  function HistoryOf<I(==), C, E, L>(limit: Positive, run: seq<Action<I, C, E, L>>, k: nat): History<C, E, L>
    requires ValidRun(Start<I, C, E, L>(limit), run)
  {
    Recorded(Start(limit), History([], []), run, k)
  }

  /** Effect order: in every run, for every slot, the facts submitted to it fold to its state, and
      the effects handed out, in hand and queued, in that order, are exactly the fold's effects. */
  lemma SlotsFoldTheirFacts<I, C, E, L>(limit: Positive, run: seq<Action<I, C, E, L>>, k: nat)
    requires ValidRun(Start<I, C, E, L>(limit), run) && k < |After(Start<I, C, E, L>(limit), run).slots|
    ensures
      var d, h := After(Start(limit), run), HistoryOf(limit, run, k);
      DecideAll(EntitySlot.Inactive, h.submitted) == Decision(d.slots[k].State(), h.handed + Left(d, k))
  {
    StartInv<I, C, E, L>(limit);
    RunMatches(Start(limit), History([], []), run, k);
    hide DecideAll, Left, ValidRun, After, Recorded;
  }

  // ----- results about lists of facts, for concurrent runs -----

  /** A slot is claimed by the fact that creates it and by no other. */
  ghost predicate ClaimedBefore<I, C, E, L>(d: Directory<I, C, E, L>, h: History<C, E, L>, k: nat, g: Identity) {
    Tally(h.submitted, (Drain.Claims<C, E, L>), g) <= if k < |d.slots| then 1 else 0
  }

  lemma StepClaims<I, C, E, L>(d: Directory<I, C, E, L>, h: History<C, E, L>, a: Action<I, C, E, L>, k: nat, g: Identity)
    requires Inv(d) && Enabled(d, a) && ClaimedBefore(d, h, k, g)
    ensures ClaimedBefore(Apply(d, a), Record(d, h, a, k), k, g)
  {
    hide SlotOk, Balanced, Transition, Tally;
    var more := Submits(d, a, k);
    if more == [] {
      assert h.submitted + [] == h.submitted;
    } else {
      assert OpOk(d, d.ops[a.op]);
      TallyAppend(h.submitted, more[0], (Drain.Claims<C, E, L>), g);
    }
  }

  lemma {:induction false} RunClaims<I, C, E, L>(
      d: Directory<I, C, E, L>, h: History<C, E, L>, run: seq<Action<I, C, E, L>>, k: nat, g: Identity)
    requires Inv(d) && ValidRun(d, run) && ClaimedBefore(d, h, k, g)
    ensures ClaimedBefore(After(d, run), Recorded(d, h, run, k), k, g)
    decreases |run|
  {
    hide Inv, Enabled, Apply, ClaimedBefore, Record;
    if run != [] {
      StepClaims(d, h, run[0], k, g);
      StepKeepsInv(d, run[0]);
      RunClaims(Apply(d, run[0]), Record(d, h, run[0], k), run[1..], k, g);
    }
  }

  /** The drain accounts hold of the facts submitted to any slot of any run, for any activation:
      every identity is claimed at most once there. */
  lemma SlotsAccount<I, C, E, L>(limit: Positive, run: seq<Action<I, C, E, L>>, k: nat, g: Identity)
    requires ValidRun(Start<I, C, E, L>(limit), run)
    ensures
      var h := HistoryOf(limit, run, k);
      Drain.ClaimedOnce(h.submitted, g) && Drain.Accounts(h.submitted, g)
  {
    StartInv<I, C, E, L>(limit);
    RunClaims(Start(limit), History([], []), run, k, g);
    hide ValidRun, After, Recorded, Tally, Inv;
    Drain.EveryRunAccounts(HistoryOf(limit, run, k).submitted, g);
  }

  /** For one: however its facts are submitted and interpreted, a slot hands out at most one fence. */
  lemma OneFencePerSlot<I, C, E, L>(limit: Positive, run: seq<Action<I, C, E, L>>, k: nat, g: Identity)
    requires ValidRun(Start<I, C, E, L>(limit), run) && k < |After(Start<I, C, E, L>(limit), run).slots|
    ensures Tally(HistoryOf(limit, run, k).handed, (Drain.Fences<C, E, L>), g) <= 1
  {
    SlotsFoldTheirFacts(limit, run, k);
    SlotsAccount(limit, run, k, g);
    var d, h := After(Start(limit), run), HistoryOf(limit, run, k);
    hide ValidRun, After, HistoryOf, Left, DecideAll, Tally;
    TallyConcat(h.handed, Left(d, k), (Drain.Fences<C, E, L>), g);
  }

  // ----- what the runtime is handed -----

  /** The effects that leave the directory: all but Remove, which it interprets itself. */
  function Outward<C, E, L>(effects: seq<SlotEffect<C, E, L>>): seq<SlotEffect<C, E, L>> {
    if effects == [] then []
    else
      var n := |effects| - 1;
      Outward(effects[..n]) + if effects[n].Remove? then [] else [effects[n]]
  }

  /** What a step hands the runtime for an entity. */
  function EmittedFor<I(==), C, E, L>(d: Directory<I, C, E, L>, a: Action<I, C, E, L>, entity: I): seq<SlotEffect<C, E, L>> {
    var emitted := Emits(d, a);
    if emitted.Some? && emitted.value.0 == entity then [emitted.value.1] else []
  }

  /** What the runtime is handed over a run by the dispatchers of slot `k`, for the slot's entity. */
  function EmittedBySlot<I(==), C, E, L>(
      d: Directory<I, C, E, L>, before: seq<SlotEffect<C, E, L>>, run: seq<Action<I, C, E, L>>, k: nat): seq<SlotEffect<C, E, L>>
    requires ValidRun(d, run)
    decreases |run|
  {
    if run == [] then before
    else
      var a := run[0];
      var dispatches := a.Step? && d.ops[a.op].Owning? && d.ops[a.op].slot == k;
      var now := if dispatches then EmittedFor(d, a, d.slots[k].entity) else [];
      EmittedBySlot(Apply(d, a), before + now, run[1..], k)
  }

  lemma HandedIsEmitted<I, C, E, L>(d: Directory<I, C, E, L>, a: Action<I, C, E, L>, k: nat)
    requires Inv(d) && Enabled(d, a)
    ensures
      Outward(Hands(d, a, k))
      == if a.Step? && d.ops[a.op].Owning? && d.ops[a.op].slot == k then EmittedFor(d, a, d.slots[k].entity) else []
  {
    if a.Step? {
      assert OpOk(d, d.ops[a.op]);
    }
  }

  lemma OutwardConcat<C, E, L>(a: seq<SlotEffect<C, E, L>>, b: seq<SlotEffect<C, E, L>>)
    requires |b| <= 1
    ensures Outward(a + b) == Outward(a) + Outward(b)
  {
    if b == [] {
      assert a + b == a;
    } else {
      assert (a + b)[..|a|] == a && b[..0] == [];
    }
  }

  lemma {:induction false} RunEmitsHanded<I, C, E, L>(
      d: Directory<I, C, E, L>, h: History<C, E, L>, before: seq<SlotEffect<C, E, L>>, run: seq<Action<I, C, E, L>>, k: nat)
    requires Inv(d) && ValidRun(d, run) && before == Outward(h.handed)
    ensures EmittedBySlot(d, before, run, k) == Outward(Recorded(d, h, run, k).handed)
    decreases |run|
  {
    if run != [] {
      var a := run[0];
      HandedIsEmitted(d, a, k);
      OutwardConcat(h.handed, Hands(d, a, k));
      StepKeepsInv(d, a);
      hide Inv, Enabled, Apply, Hands, EmittedFor, Submits, Outward;
      RunEmitsHanded(Apply(d, a), Record(d, h, a, k), Outward(h.handed) + Outward(Hands(d, a, k)), run[1..], k);
    }
  }

  /** Nothing is lost on the way out: in every run the runtime is handed, for each slot's entity and
      in order, exactly the effects the slot's facts fold to, but for Remove and those still left. */
  lemma RuntimeIsHandedTheFold<I, C, E, L>(limit: Positive, run: seq<Action<I, C, E, L>>, k: nat)
    requires ValidRun(Start<I, C, E, L>(limit), run) && k < |After(Start<I, C, E, L>(limit), run).slots|
    ensures
      var d := After(Start(limit), run);
      Outward(DecideAll(EntitySlot<C, E, L>.Inactive, HistoryOf(limit, run, k).submitted).effects)
      == EmittedBySlot(Start(limit), [], run, k) + Outward(Left(d, k))
  {
    SlotsFoldTheirFacts(limit, run, k);
    StartInv<I, C, E, L>(limit);
    RunEmitsHanded(Start(limit), History([], []), [], run, k);
    OutwardSplits(HistoryOf(limit, run, k).handed, Left(After(Start(limit), run), k));
    hide DecideAll, ValidRun, After, Recorded, Left, Outward, EmittedBySlot;
  }

  lemma {:induction false} OutwardSplits<C, E, L>(a: seq<SlotEffect<C, E, L>>, b: seq<SlotEffect<C, E, L>>)
    ensures Outward(a + b) == Outward(a) + Outward(b)
  {
    if b == [] {
      assert a + b == a;
    } else {
      var n := |b| - 1;
      OutwardSplits(a, b[..n]);
      assert (a + b)[..|a| + n] == a + b[..n];
    }
  }

  /** What the runtime is handed over a run by operation `j` for `entity`. */
  function EmittedByOp<I(==), C, E, L>(d: Directory<I, C, E, L>, run: seq<Action<I, C, E, L>>, j: nat, entity: I): seq<SlotEffect<C, E, L>>
    requires ValidRun(d, run)
    decreases |run|
  {
    if run == [] then []
    else
      (if run[0] == Step(j) then EmittedFor(d, run[0], entity) else []) + EmittedByOp(Apply(d, run[0]), run[1..], j, entity)
  }

  /** An operation interpreting a decision of its own, or done with it. */
  ghost predicate OnItsOwn<I, C, E, L>(op: Op<I, C, E, L>, entity: I) {
    op.Done? || (op.Transient? && op.entity == entity && forall e <- op.effects :: !e.Remove?)
  }

  function Remaining<I, C, E, L>(op: Op<I, C, E, L>): seq<SlotEffect<C, E, L>> {
    if op.Transient? then op.effects else []
  }

  lemma OnItsOwnStep<I, C, E, L>(d: Directory<I, C, E, L>, a: Action<I, C, E, L>, j: nat, entity: I)
    requires Enabled(d, a) && j < |d.ops| && OnItsOwn(d.ops[j], entity)
    ensures j < |Apply(d, a).ops| && OnItsOwn(Apply(d, a).ops[j], entity)
    ensures (if a == Step(j) then EmittedFor(d, a, entity) else []) + Remaining(Apply(d, a).ops[j]) == Remaining(d.ops[j])
  {
    hide Transition, SubmitTo;
  }

  lemma {:induction false} OnItsOwnRun<I, C, E, L>(d: Directory<I, C, E, L>, run: seq<Action<I, C, E, L>>, j: nat, entity: I)
    requires ValidRun(d, run) && j < |d.ops| && OnItsOwn(d.ops[j], entity)
    ensures j < |After(d, run).ops|
    ensures EmittedByOp(d, run, j, entity) + Remaining(After(d, run).ops[j]) == Remaining(d.ops[j])
    decreases |run|
  {
    hide Enabled, Apply, OnItsOwn, EmittedFor, Remaining;
    if run != [] {
      var t := Apply(d, run[0]);
      OnItsOwnStep(d, run[0], j, entity);
      OnItsOwnRun(t, run[1..], j, entity);
      var now := if run[0] == Step(j) then EmittedFor(d, run[0], entity) else [];
      assert now + EmittedByOp(t, run[1..], j, entity) + Remaining(After(t, run[1..]).ops[j])
          == now + (EmittedByOp(t, run[1..], j, entity) + Remaining(After(t, run[1..]).ops[j]));
    }
  }

  /** A fact for an absent entity has its effects handed to the runtime too, by the operation that
      brought it: over any further run, those handed out and those remaining are, in order, the
      effects it was answered with. */
  lemma AbsentEffectsAreHandedOut<I, C, E, L>(d: Directory<I, C, E, L>, j: nat, rest: seq<Action<I, C, E, L>>)
    requires Inv(d) && Enabled(d, Step(j)) && d.ops[j].Lookup? && d.ops[j].entity !in d.entries
    requires ValidRun(Apply(d, Step(j)), rest)
    ensures
      var t, effects := Apply(d, Step(j)), Reduce(EntitySlot<C, E, L>.Inactive, d.ops[j].event).effects;
      && t.replies[j].Some? && t.replies[j].value.Installed? && t.replies[j].value.output.effects == effects
      && j < |After(t, rest).ops|
      && EmittedByOp(t, rest, j, d.ops[j].entity) + Remaining(After(t, rest).ops[j]) == effects
  {
    var t, entity := Apply(d, Step(j)), d.ops[j].entity;
    AbsentAnswersAreInterpreted(d, j);
    assert OpOk(d, d.ops[j]);
    assert OnItsOwn(t.ops[j], entity);
    hide Inv, Apply, ValidRun, After, EmittedByOp, OnItsOwn, Reduce;
    OnItsOwnRun(t, rest, j, entity);
  }
}
