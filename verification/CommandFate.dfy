/** The fate of every dispatched command: it is in exactly one place until it is delivered,
    refused with itself, returned, or discarded by its own cancellation; and its completion
    is written at most once, with that fate. */
module CommandFate {
  import opened Common
  import opened Lifecycle
  import opened Evidence
  import opened Ledger
  import opened Runtime
  import opened RuntimeLedger
  import opened RuntimeFacts
  import D = Directory

  // ----- which dispatch a grant or a fate belongs to -----

  ghost function GrantOf<C, L>(grant: Grant<C, L>, d: Identity): nat {
    if grant.CommandIssued? && grant.dispatchId == d then 1 else 0
  }

  ghost function FateOf<C, L>(fate: Fate<C, L>, d: Identity): nat {
    if !fate.LeaseRetired? && fate.dispatchId == d then 1 else 0
  }

  predicate Issued<I, C, E, L>(r: Runtime<I, C, E, L>, d: Identity) {
    d < r.dir.nextDispatch
  }

  predicate Completes<C, L>(fate: Fate<C, L>) {
    fate.CommandDelivered? || fate.CommandRefused?
  }

  ghost predicate HasResult<C>(cell: Cell<C>, result: Outcome<C>) {
    !cell.Awaiting? && cell.result == result
  }

  /** The result a fate writes into the completion. */
  function ResultOf<C, L>(fate: Fate<C, L>): Outcome<C>
    requires Completes(fate)
  {
    if fate.CommandDelivered? then Delivered else Refused(fate.pending.command, fate.reason)
  }

  // ----- invariants -----

  /** Identities are issued once, each with a command carrying its own completion. */
  ghost predicate GrantsOk<I, C, E, L>(r: Runtime<I, C, E, L>) {
    && 1 <= r.dir.nextDispatch
    && (forall d: Identity :: Tally(r.granted, (GrantOf<C, L>), d) == if Issued(r, d) then 1 else 0)
    && (forall g <- r.granted :: g.CommandIssued? ==> g.pending.cell == g.dispatchId)
    && (forall d: Identity :: d in r.cells <==> Issued(r, d))
    && (forall d: Identity :: d in r.waits ==> Issued(r, d))
  }

  /** Every fate that completes a dispatch is what its completion says. */
  ghost predicate CellsOk<I, C, E, L>(r: Runtime<I, C, E, L>) {
    && (forall f <- r.settled :: Completes(f) ==> f.dispatchId in r.cells && HasResult(r.cells[f.dispatchId], ResultOf(f)))
    && (forall d: Identity :: d in r.cells && !r.cells[d].Awaiting? ==> exists f :: f in r.settled && Completes(f) && f.dispatchId == d)
  }

  ghost predicate CancelOk<I, C, E, L>(r: Runtime<I, C, E, L>, event: SlotEvent<PendingCommand<C>, E, L>) {
    event.CancelWaiter? ==> Issued(r, event.dispatchId) && event.dispatchId !in r.waits
  }

  /** A cancellation comes from the dropped future of the dispatch it names. */
  ghost predicate CancelsOk<I, C, E, L>(r: Runtime<I, C, E, L>) {
    && (forall j :: 0 <= j < |r.dir.ops| ==>
         (r.dir.ops[j].Lookup? || r.dir.ops[j].Holding? ==> CancelOk(r, r.dir.ops[j].event)))
    && (forall f <- r.settled :: f.CommandDiscarded? ==> Issued(r, f.dispatchId) && f.dispatchId !in r.waits)
  }

  ghost predicate CommandInv<I, C(!new), E, L(!new)>(r: Runtime<I, C, E, L>) {
    Inv(r) && GrantsOk(r) && CellsOk(r) && CancelsOk(r)
  }

  // ----- a carried command is issued and unsettled -----

  lemma {:induction false} GrantAtMostOnce<C, L>(granted: seq<Grant<C, L>>, d: Identity, p: PendingCommand<C>)
    ensures Tally(granted, (GrantItem<C, L>), Item<PendingCommand<C>, L>.Command(d, p)) <= Tally(granted, (GrantOf<C, L>), d)
  {
    if granted != [] {
      GrantAtMostOnce(granted[..|granted| - 1], d, p);
    }
  }

  lemma {:induction false} OneGrantOneCommand<C, L>(granted: seq<Grant<C, L>>, d: Identity, p: PendingCommand<C>, q: PendingCommand<C>)
    requires Tally(granted, (GrantOf<C, L>), d) <= 1
    requires Tally(granted, (GrantItem<C, L>), Item<PendingCommand<C>, L>.Command(d, p)) > 0
    requires Tally(granted, (GrantItem<C, L>), Item<PendingCommand<C>, L>.Command(d, q)) > 0
    ensures p == q
  {
    var n := |granted| - 1;
    GrantAtMostOnce(granted[..n], d, p);
    GrantAtMostOnce(granted[..n], d, q);
    if granted[n] != CommandIssued(d, p) && granted[n] != CommandIssued(d, q) {
      OneGrantOneCommand(granted[..n], d, p, q);
    }
  }

  /** A command outstanding anywhere is the one its dispatch was issued, and no fate of that
      dispatch has been recorded. */
  lemma CarriedIsUnsettled<I, C(!new), E, L(!new)>(r: Runtime<I, C, E, L>, d: Identity, p: PendingCommand<C>)
    requires Inv(r) && GrantsOk(r) && Carried(r, Command(d, p)) > 0
    ensures Issued(r, d) && p.cell == d && CommandIssued(d, p) in r.granted
    ensures Tally(r.settled, (FateOf<C, L>), d) == 0
    ensures Carried(r, Command(d, p)) == 1
  {
    hide Carried, D.Inv, AllRouted, Tally, Demanded;
    var x := Item<PendingCommand<C>, L>.Command(d, p);
    assert Balanced(r, x);
    NoCommandDemanded(r, x);
    GrantAtMostOnce(r.granted, d, p);
    var i := TallyFind(r.granted, (GrantItem<C, L>), x);
    assert r.granted[i] == CommandIssued(d, p);
    if Tally(r.settled, (FateOf<C, L>), d) > 0 {
      var m := TallyFind(r.settled, (FateOf<C, L>), d);
      var q := r.settled[m].pending;
      var y := Item<PendingCommand<C>, L>.Command(d, q);
      assert Balanced(r, y);
      NoCommandDemanded(r, y);
      TallyHas(r.settled, m, (FateItem<C, L>), y);
      OneGrantOneCommand(r.granted, d, p, q);
    }
  }

  lemma NoCommandDemanded<I, C, E, L>(r: Runtime<I, C, E, L>, x: Item<PendingCommand<C>, L>)
    requires !x.Token?
    ensures Demanded(r, x) == 0
  {
    TallyZero(r.dir.slots, (SlotDemand<I, C, E, L>), x);
  }

  /** So the completion of an outstanding command has not been written. */
  lemma CarriedAwaits<I, C(!new), E, L(!new)>(r: Runtime<I, C, E, L>, d: Identity, p: PendingCommand<C>)
    requires Inv(r) && GrantsOk(r) && CellsOk(r) && Carried(r, Command(d, p)) > 0
    ensures p.cell == d && d in r.cells && r.cells[d].Awaiting?
  {
    hide Inv, Carried, Tally;
    CarriedIsUnsettled(r, d, p);
    if !r.cells[d].Awaiting? {
      var f :| f in r.settled && Completes(f) && f.dispatchId == d;
      var i :| 0 <= i < |r.settled| && r.settled[i] == f;
      TallyHas(r.settled, i, (FateOf<C, L>), d);
    }
  }

  // ----- every action keeps the invariants -----

  lemma InterpretKeeps<I, C, E, L>(r: Runtime<I, C, E, L>, entity: I, effect: SlotEffect<PendingCommand<C>, E, L>)
    ensures
      var t := Interpret(r, entity, effect);
      t.dir == r.dir && t.granted == r.granted && t.waits == r.waits && t.cells.Keys == r.cells.Keys
  {}

  /** A step leaves an operation that will submit only with the event it already had, or a dispatch. */
  lemma StepEvents<I, C, E, L>(dir: D.Directory<I, PendingCommand<C>, E, L>, j: nat)
    requires D.Enabled(dir, D.Step(j))
    ensures
      var t, op := D.Apply(dir, D.Step(j)), dir.ops[j];
      && t.nextDispatch == dir.nextDispatch && |t.ops| == |dir.ops|
      && (forall i :: 0 <= i < |dir.ops| && i != j ==> t.ops[i] == dir.ops[i])
      && (t.ops[j].Lookup? || t.ops[j].Holding? ==>
           t.ops[j].event.Dispatch? || (op.Lookup? && t.ops[j].event == op.event))
  {
    hide Transition, D.Answer, D.SubmitTo;
  }

  /** A directory step leaves what was granted, the completions and the futures there are. */
  lemma StepCounter<I, C, E, L>(r: Runtime<I, C, E, L>, j: nat)
    requires Enabled(r, DirectoryStep(j))
    ensures
      var t := ApplyStep(r, j);
      && t.dir == D.Apply(r.dir, D.Step(j)) && t.granted == r.granted
      && t.cells.Keys == r.cells.Keys && t.waits == r.waits
  {
    hide D.Apply, SettledBy, Interpret;
    var emitted := D.Emits(r.dir, D.Step(j));
    if emitted.Some? {
      InterpretKeeps(
        r.(dir := D.Apply(r.dir, D.Step(j)), settled := r.settled + SettledBy(r.dir, j)), emitted.value.0, emitted.value.1);
    }
  }

  lemma DispatchCounter<I, C, E, L>(r: Runtime<I, C, E, L>, a: Action<I, C, E, L>)
    requires Enabled(r, a) && !a.Dispatch?
    ensures Apply(r, a).dir.nextDispatch == r.dir.nextDispatch
    ensures Apply(r, a).granted == r.granted || exists l :: Apply(r, a).granted == r.granted + [LeaseGranted(l)]
    ensures Apply(r, a).cells.Keys == r.cells.Keys
    ensures Apply(r, a).waits.Keys <= r.waits.Keys
  {
    hide ApplyStep;
    if a.DirectoryStep? {
      StepCounter(r, a.op);
      StepEvents(r.dir, a.op);
    } else if a.Finish? && a.answer.Activated? {
      assert Apply(r, a).granted == r.granted + [LeaseGranted(a.answer.lease)];
    }
  }

  lemma GrantsKept<I, C, E, L>(r: Runtime<I, C, E, L>, a: Action<I, C, E, L>)
    requires GrantsOk(r) && Enabled(r, a)
    ensures GrantsOk(Apply(r, a))
  {
    hide Tally;
    var t := Apply(r, a);
    if a.Dispatch? {
      forall d: Identity
        ensures Tally(t.granted, (GrantOf<C, L>), d) == if Issued(t, d) then 1 else 0
      {
        if t.granted != r.granted {
          TallyAppend(r.granted, t.granted[|r.granted|], (GrantOf<C, L>), d);
          assert t.granted == r.granted + [t.granted[|r.granted|]];
        }
      }
    } else {
      DispatchCounter(r, a);
      hide Apply;
      if t.granted != r.granted {
        var l :| t.granted == r.granted + [LeaseGranted(l)];
        forall d: Identity
          ensures Tally(t.granted, (GrantOf<C, L>), d) == Tally(r.granted, (GrantOf<C, L>), d)
        {
          TallyAppend(r.granted, LeaseGranted(l), (GrantOf<C, L>), d);
        }
      }
    }
  }

  /** Writing a result into a completion that still awaits one, and recording the fate. */
  lemma CompleteKeepsCells<I, C, E, L>(r: Runtime<I, C, E, L>, t: Runtime<I, C, E, L>, fate: Fate<C, L>)
    requires CellsOk(r) && Completes(fate) && fate.dispatchId == fate.pending.cell
    requires fate.pending.cell in r.cells && r.cells[fate.pending.cell].Awaiting?
    requires t.cells == SetCell(r.cells, fate.pending.cell, ResultOf(fate))
    requires t.settled == r.settled + [fate]
    ensures CellsOk(t)
  {
    var d := fate.pending.cell;
    assert fate in t.settled;
    forall f | f in t.settled && Completes(f)
      ensures f.dispatchId in t.cells && HasResult(t.cells[f.dispatchId], ResultOf(f))
    {
      if f != fate {
        assert f in r.settled;
      }
    }
    forall e: Identity | e in t.cells && !t.cells[e].Awaiting?
      ensures exists f :: f in t.settled && Completes(f) && f.dispatchId == e
    {
      if e != d {
        var f :| f in r.settled && Completes(f) && f.dispatchId == e;
        assert f in t.settled;
      }
    }
  }

  /** Fates that complete nothing, and completions taken by their futures, change no result. */
  lemma OtherKeepsCells<I, C, E, L>(r: Runtime<I, C, E, L>, t: Runtime<I, C, E, L>, more: seq<Fate<C, L>>)
    requires CellsOk(r) && t.settled == r.settled + more && (forall f <- more :: !Completes(f))
    requires t.cells.Keys >= r.cells.Keys
    requires forall d: Identity :: d in r.cells ==>
      t.cells[d] == r.cells[d] || (r.cells[d].Ready? && t.cells[d] == Consumed(r.cells[d].result))
    requires forall d: Identity :: d in t.cells && d !in r.cells ==> t.cells[d].Awaiting?
    ensures CellsOk(t)
  {
    forall f | f in t.settled && Completes(f)
      ensures f.dispatchId in t.cells && HasResult(t.cells[f.dispatchId], ResultOf(f))
    {
      assert f in r.settled;
    }
    forall e: Identity | e in t.cells && !t.cells[e].Awaiting?
      ensures exists f :: f in t.settled && Completes(f) && f.dispatchId == e
    {
      var f :| f in r.settled && Completes(f) && f.dispatchId == e;
      assert f in t.settled;
    }
  }

  lemma {:induction false} DiscardsCompleteNothing<C, L>(waiters: seq<Waiter<PendingCommand<C>>>, d: Identity)
    ensures forall f <- DiscardedBy<C, L>(waiters, d) :: f.CommandDiscarded? && f.dispatchId == d
  {
    if waiters != [] {
      DiscardsCompleteNothing<C, L>(waiters[..|waiters| - 1], d);
    }
  }

  lemma SettledByFacts<I, C, E, L>(r: Runtime<I, C, E, L>, j: nat)
    requires Enabled(r, DirectoryStep(j))
    ensures forall f <- SettledBy(r.dir, j) ::
      && !Completes(f)
      && (f.CommandDiscarded? ==>
           r.dir.ops[j].Holding? && r.dir.ops[j].event.CancelWaiter? && r.dir.ops[j].event.dispatchId == f.dispatchId)
  {
    var op := r.dir.ops[j];
    if op.Holding? && op.event.CancelWaiter? && r.dir.slots[op.slot].State().Activating? {
      DiscardsCompleteNothing<C, L>(r.dir.slots[op.slot].State().waiters, op.event.dispatchId);
    }
  }

  lemma EffectCarries<I, C, E, L>(r: Runtime<I, C, E, L>, j: nat, x: Item<PendingCommand<C>, L>)
    requires Enabled(r, DirectoryStep(j)) && r.dir.ops[j].Owning? && r.dir.ops[j].effects != []
    ensures EffectItem(r.dir.ops[j].effects[0], x) <= Carried(r, x)
  {
    OpCarries(r, j, x);
    TallyHas(r.dir.ops[j].effects, 0, (EffectItem<PendingCommand<C>, E, L>), x);
  }

  lemma StepKeepsCells<I, C(!new), E, L(!new)>(r: Runtime<I, C, E, L>, j: nat)
    requires CommandInv(r) && Enabled(r, DirectoryStep(j))
    ensures CellsOk(ApplyStep(r, j))
  {
    var t, op := ApplyStep(r, j), r.dir.ops[j];
    if op.Owning? && op.effects != [] && op.effects[0].Reject? {
      var e := op.effects[0];
      EffectCarries(r, j, Command(e.dispatchId, e.command));
      hide D.Inv, AllRouted, Balanced, Tally, Carried, CellsOk;
      CarriedAwaits(r, e.dispatchId, e.command);
      CompleteKeepsCells(r, t, CommandRefused(e.dispatchId, e.command, e.reason));
    } else {
      hide D.Inv, Balanced, Tally, CellsOk, Transition, GrantsOk;
      if op.Transient? {
        assert OpRouted(r.dir, op);
      }
      hide AllRouted;
      SettledByFacts(r, j);
      hide SettledBy;
      OtherKeepsCells(r, t, SettledBy(r.dir, j));
    }
  }

  lemma FinishKeepsCells<I, C(!new), E, L(!new)>(r: Runtime<I, C, E, L>, i: nat, answer: Answer<E, L>)
    requires CommandInv(r) && Enabled(r, Finish(i, answer))
    ensures CellsOk(ApplyFinish(r, i, answer))
  {
    var t, task := ApplyFinish(r, i, answer), r.tasks[i];
    if answer.DeliveryOk? {
      TallyHas(r.tasks, i, (TaskItem<I, C, E, L>), Command(task.dispatchId, task.pending));
      hide D.Inv, AllRouted, Balanced, Tally, CellsOk;
      CarriedAwaits(r, task.dispatchId, task.pending);
      CompleteKeepsCells(r, t, CommandDelivered(task.dispatchId, task.pending));
    } else {
      hide Inv, CellsOk, GrantsOk;
      OtherKeepsCells(r, t, if answer.Retired? then [LeaseRetired(task.lease)] else []);
    }
  }

  lemma CellsKept<I, C(!new), E, L(!new)>(r: Runtime<I, C, E, L>, a: Action<I, C, E, L>)
    requires CommandInv(r) && Enabled(r, a)
    ensures CellsOk(Apply(r, a))
  {
    hide Inv, CellsOk, ApplyStep, ApplyFinish;
    match a {
      case DirectoryStep(j) => StepKeepsCells(r, j);
      case Finish(i, answer) => FinishKeepsCells(r, i, answer);
      case _ => OtherKeepsCells(r, Apply(r, a), []);
    }
  }

  lemma CancelsCarry<I, C, E, L>(r: Runtime<I, C, E, L>, t: Runtime<I, C, E, L>, more: seq<Fate<C, L>>)
    requires CancelsOk(r) && r.dir.nextDispatch <= t.dir.nextDispatch
    requires forall d: Identity :: d in t.waits ==> d in r.waits || !Issued(r, d)
    requires forall i :: 0 <= i < |t.dir.ops| ==>
      || (i < |r.dir.ops| && t.dir.ops[i] == r.dir.ops[i])
      || (t.dir.ops[i].Lookup? || t.dir.ops[i].Holding? ==> CancelOk(t, t.dir.ops[i].event))
    requires t.settled == r.settled + more
    requires forall f <- more :: f.CommandDiscarded? ==> Issued(t, f.dispatchId) && f.dispatchId !in t.waits
    ensures CancelsOk(t)
  {}

  lemma StepKeepsCancels<I, C, E, L>(r: Runtime<I, C, E, L>, j: nat)
    requires CancelsOk(r) && Enabled(r, DirectoryStep(j))
    requires r.dir.ops[j].Transient? ==> r.dir.ops[j].effects == []
    ensures CancelsOk(ApplyStep(r, j))
  {
    var t, op := ApplyStep(r, j), r.dir.ops[j];
    SettledByFacts(r, j);
    StepEvents(r.dir, j);
    StepCounter(r, j);
    OpCancelOk(r, j);
    if op.Owning? && op.effects != [] && op.effects[0].Reject? {
      var e := op.effects[0];
      NothingSettled(r, j);
      assert t.settled == r.settled + [CommandRefused(e.dispatchId, e.command, e.reason)];
      hide CancelsOk, ApplyStep, SettledBy, Enabled, D.Apply;
      CancelsCarry(r, t, [CommandRefused(e.dispatchId, e.command, e.reason)]);
    } else {
      assert t.settled == r.settled + SettledBy(r.dir, j);
      hide CancelsOk, ApplyStep, SettledBy, Enabled, D.Apply;
      CancelsCarry(r, t, SettledBy(r.dir, j));
    }
  }

  lemma OpCancelOk<I, C, E, L>(r: Runtime<I, C, E, L>, j: nat)
    requires CancelsOk(r) && j < |r.dir.ops|
    ensures r.dir.ops[j].Lookup? || r.dir.ops[j].Holding? ==> CancelOk(r, r.dir.ops[j].event)
  {}

  lemma NothingSettled<I, C, E, L>(r: Runtime<I, C, E, L>, j: nat)
    requires Enabled(r, DirectoryStep(j)) && r.dir.ops[j].Owning?
    ensures SettledBy(r.dir, j) == []
  {}

  lemma CallKeepsCancels<I, C, E, L>(r: Runtime<I, C, E, L>, a: Action<I, C, E, L>)
    requires CancelsOk(r) && GrantsOk(r) && Enabled(r, a) && !a.DirectoryStep? && !a.Finish?
    ensures CancelsOk(Apply(r, a))
  {
    hide CancelsOk, Tally;
    CancelsCarry(r, Apply(r, a), []);
  }

  lemma FinishKeepsCancels<I, C, E, L>(r: Runtime<I, C, E, L>, i: nat, answer: Answer<E, L>)
    requires CancelsOk(r) && Enabled(r, Finish(i, answer))
    ensures CancelsOk(ApplyFinish(r, i, answer))
  {
    hide CancelsOk;
    var t := ApplyFinish(r, i, answer);
    CancelsCarry(r, t, t.settled[|r.settled|..]);
  }

  lemma CancelsKept<I, C(!new), E, L(!new)>(r: Runtime<I, C, E, L>, a: Action<I, C, E, L>)
    requires CommandInv(r) && Enabled(r, a)
    ensures CancelsOk(Apply(r, a))
  {
    hide D.Inv, Balanced, GrantsOk, CellsOk, CancelsOk, ApplyStep, ApplyFinish;
    match a {
      case DirectoryStep(j) =>
        assert OpRouted(r.dir, r.dir.ops[j]);
        StepKeepsCancels(r, j);
      case Finish(i, answer) => FinishKeepsCancels(r, i, answer);
      case _ => CallKeepsCancels(r, a);
    }
  }

  lemma CommandStep<I, C(!new), E, L(!new)>(r: Runtime<I, C, E, L>, a: Action<I, C, E, L>)
    requires CommandInv(r) && Enabled(r, a)
    ensures CommandInv(Apply(r, a))
  {
    hide Inv, GrantsOk, CellsOk, CancelsOk, Apply;
    ActionKeepsInv(r, a);
    GrantsKept(r, a);
    CellsKept(r, a);
    CancelsKept(r, a);
  }

  lemma {:induction false} RunKeepsCommandInv<I, C(!new), E, L(!new)>(r: Runtime<I, C, E, L>, run: seq<Action<I, C, E, L>>)
    requires CommandInv(r) && ValidRun(r, run)
    ensures CommandInv(After(r, run))
    decreases |run|
  {
    hide CommandInv, Enabled, Apply;
    if run != [] {
      CommandStep(r, run[0]);
      RunKeepsCommandInv(Apply(r, run[0]), run[1..]);
    }
  }

  // ----- the fate of a command -----

  lemma {:induction false} FatesAgree<C, L>(settled: seq<Fate<C, L>>, d: Identity, p: PendingCommand<C>)
    requires forall f <- settled :: !f.LeaseRetired? && f.dispatchId == d ==> f.pending == p
    ensures Tally(settled, (FateItem<C, L>), Item<PendingCommand<C>, L>.Command(d, p)) == Tally(settled, (FateOf<C, L>), d)
  {
    if settled != [] {
      FatesAgree(settled[..|settled| - 1], d, p);
    }
  }

  /** Every recorded fate of a dispatch is a fate of the command that dispatch was issued. */
  lemma FatesAreOfTheIssued<I, C(!new), E, L(!new)>(r: Runtime<I, C, E, L>, d: Identity, p: PendingCommand<C>)
    requires Inv(r) && GrantsOk(r) && CommandIssued(d, p) in r.granted
    ensures forall f <- r.settled :: !f.LeaseRetired? && f.dispatchId == d ==> f.pending == p
  {
    hide Carried, D.Inv, AllRouted, Tally, Demanded;
    var g :| 0 <= g < |r.granted| && r.granted[g] == CommandIssued(d, p);
    TallyHas(r.granted, g, (GrantItem<C, L>), Item<PendingCommand<C>, L>.Command(d, p));
    forall f | f in r.settled && !f.LeaseRetired? && f.dispatchId == d
      ensures f.pending == p
    {
      var m :| 0 <= m < |r.settled| && r.settled[m] == f;
      var y := Item<PendingCommand<C>, L>.Command(d, f.pending);
      assert Balanced(r, y);
      NoCommandDemanded(r, y);
      TallyHas(r.settled, m, (FateItem<C, L>), y);
      OneGrantOneCommand(r.granted, d, p, f.pending);
    }
  }

  /** The command `p` of dispatch `d` is outstanding in exactly one place, nothing has been
      decided about it, and its completion still awaits. */
  ghost predicate StillHeld<I, C, E, L>(r: Runtime<I, C, E, L>, d: Identity, p: PendingCommand<C>) {
    && Carried(r, Command(d, p)) == 1
    && (forall f <- r.settled :: !f.LeaseRetired? ==> f.dispatchId != d)
    && d in r.cells && r.cells[d].Awaiting?
  }

  /** Exactly one fate of dispatch `d` is recorded, it is of the command `p`, and the
      completion says just that: a delivery or a refusal with the same command is written,
      and nothing is written for a command returned, or discarded after its future was dropped. */
  ghost predicate HasFate<I, C, E, L>(r: Runtime<I, C, E, L>, d: Identity, p: PendingCommand<C>) {
    && Carried(r, Command(d, p)) == 0 && Tally(r.settled, (FateOf<C, L>), d) == 1
    && d in r.cells
    && exists f :: f in r.settled && !f.LeaseRetired? && f.dispatchId == d && f.pending == p
         && match f
            case CommandDelivered(_, _) => HasResult(r.cells[d], Delivered)
            case CommandRefused(_, _, reason) => HasResult(r.cells[d], Refused(p.command, reason))
            case CommandDiscarded(_, _) => r.cells[d].Awaiting? && d !in r.waits
            case _ => r.cells[d].Awaiting?
  }

  ghost predicate Accounted<I, C, E, L>(r: Runtime<I, C, E, L>, d: Identity, p: PendingCommand<C>) {
    CommandIssued(d, p) in r.granted && (StillHeld(r, d, p) || HasFate(r, d, p))
  }

  /** Command fate: in every reachable state, for every dispatch admitted past identity
      allocation, its one command is held in exactly one place or has exactly one fate. */
  lemma EveryCommandHasOneFate<I, C(!new), E, L(!new)>(
      r: Runtime<I, C, E, L>, waiterLimit: Positive, run: seq<Action<I, C, E, L>>, d: Identity)
    requires Reachable(r, waiterLimit, run) && d < r.dir.nextDispatch
    ensures exists command: C :: Accounted(r, d, PendingCommand(command, d))
  {
    StartInv<I, C, E, L>(waiterLimit);
    RunKeepsCommandInv(Start(waiterLimit), run);
    hide ValidRun, After, Inv, GrantsOk, CellsOk, CancelsOk, Carried, StillHeld, HasFate;
    var p := IssuedCommand(r, d);
    FateOfIssued(r, d, p);
    assert p == PendingCommand(p.command, d);
  }

  lemma IssuedCommand<I, C, E, L>(r: Runtime<I, C, E, L>, d: Identity) returns (p: PendingCommand<C>)
    requires GrantsOk(r) && Issued(r, d)
    ensures CommandIssued(d, p) in r.granted && p.cell == d
  {
    var i := TallyFind(r.granted, (GrantOf<C, L>), d);
    p := r.granted[i].pending;
  }

  lemma FateOfIssued<I, C(!new), E, L(!new)>(r: Runtime<I, C, E, L>, d: Identity, p: PendingCommand<C>)
    requires CommandInv(r) && Issued(r, d) && CommandIssued(d, p) in r.granted
    ensures StillHeld(r, d, p) || HasFate(r, d, p)
  {
    hide Carried, D.Inv, AllRouted, Tally, Demanded;
    var x := Item<PendingCommand<C>, L>.Command(d, p);
    assert Balanced(r, x);
    NoCommandDemanded(r, x);
    FatesAreOfTheIssued(r, d, p);
    FatesAgree(r.settled, d, p);
    var g :| 0 <= g < |r.granted| && r.granted[g] == CommandIssued(d, p);
    TallyHas(r.granted, g, (GrantItem<C, L>), x);
    GrantAtMostOnce(r.granted, d, p);
    if Settled(r, x) == 0 {
      CarriedAwaits(r, d, p);
      forall f | f in r.settled && !f.LeaseRetired?
        ensures f.dispatchId != d
      {
        var m :| 0 <= m < |r.settled| && r.settled[m] == f;
        TallyHas(r.settled, m, (FateOf<C, L>), f.dispatchId);
      }
    } else {
      var m := TallyFind(r.settled, (FateOf<C, L>), d);
      var f := r.settled[m];
      if !Completes(f) {
        OnlyFateAwaits(r, d, m);
      }
    }
  }

  /** If the one fate of a dispatch completes nothing, its completion still awaits. */
  lemma OnlyFateAwaits<I, C, E, L>(r: Runtime<I, C, E, L>, d: Identity, m: nat)
    requires CellsOk(r) && d in r.cells && m < |r.settled|
    requires Tally(r.settled, (FateOf<C, L>), d) == 1
    requires FateOf(r.settled[m], d) == 1 && !Completes(r.settled[m])
    ensures r.cells[d].Awaiting?
  {
    if !r.cells[d].Awaiting? {
      var f :| f in r.settled && Completes(f) && f.dispatchId == d;
      var n :| 0 <= n < |r.settled| && r.settled[n] == f;
      TallyTwo(r.settled, m, n, (FateOf<C, L>), d);
    }
  }

  /** Leases are affine across the whole runtime: each one an activation returned is held in
      exactly one place or has been retired, as often as it was granted. */
  lemma LeasesAreConserved<I, C(!new), E, L(!new)>(
      r: Runtime<I, C, E, L>, waiterLimit: Positive, run: seq<Action<I, C, E, L>>, lease: L)
    requires Reachable(r, waiterLimit, run)
    ensures Carried(r, Lease(lease)) + Settled(r, Lease(lease)) == Granted(r, Lease(lease))
  {
    StartInv<I, C, E, L>(waiterLimit);
    RunKeepsInv(Start(waiterLimit), run);
    var x := Item<PendingCommand<C>, L>.Lease(lease);
    assert Balanced(r, x);
    NoCommandDemanded(r, x);
  }
}
