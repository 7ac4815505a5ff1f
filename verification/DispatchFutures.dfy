/** Dispatch futures. A future's completion holds what the calls on it make of it, over every run.
    Dropping a future while its command is a waiter submits exactly the cancellation of that waiter,
    whichever dispatch claimed the activation, and the command is then discarded unless the
    activation ends first. */
module DispatchFutures {
  import opened Common
  import opened Lifecycle
  import opened Evidence
  import opened Decisions
  import opened Ledger
  import opened Runtime
  import opened RuntimeLedger
  import opened RuntimeFacts
  import opened Passivating
  import opened CommandFate
  import opened Provenance
  import D = Directory
  import F = Completion

  // ----- what a live dispatch future was told -----

  /** The operation still has the command of dispatch `d` to submit. */
  predicate Asks<I, C, E, L>(op: D.Op<I, C, E, L>, d: Identity) {
    || (op.DispatchLookup? && op.dispatchId == d)
    || (op.Holding? && op.event.Dispatch? && op.event.dispatchId == d)
  }

  function WaitersOf<C, E, L>(state: EntitySlot<C, E, L>): seq<Waiter<C>> {
    if state.Activating? then state.waiters else []
  }

  /** The directory answered with a decision under activation `g`. */
  predicate Told<C, E, L>(reply: Option<D.Reply<C, E, L>>, g: Identity) {
    reply.Some? && reply.value.Installed? && reply.value.output.activationId == Some(g)
  }

  ghost predicate AskOk<I, C, E, L>(op: D.Op<I, C, E, L>, j: nat, waits: map<Identity, Wait<I>>) {
    forall d: Identity :: Asks(op, d) && d in waits ==> waits[d] == Wait(op.entity, j)
  }

  /** A live future's operation has still to submit its command, or was answered, and then only
      with activations of its own entity. */
  ghost predicate AnswerOk<I, C, E, L>(dir: D.Directory<I, PendingCommand<C>, E, L>, wait: Wait<I>, d: Identity) {
    && wait.op < |dir.ops| == |dir.replies|
    && if Past(dir.ops[wait.op])
       then dir.replies[wait.op].Some? && forall g: Identity :: Told(dir.replies[wait.op], g) ==> Routed(dir, wait.entity, g)
       else Asks(dir.ops[wait.op], d) && dir.ops[wait.op].entity == wait.entity
  }

  /** A live future whose command waits for an activation was told that activation. */
  ghost predicate WaiterOk<I, C, E, L>(dir: D.Directory<I, C, E, L>, wait: Wait<I>, k: nat)
    requires k < |dir.slots|
  {
    && wait.op < |dir.ops| == |dir.replies| && Past(dir.ops[wait.op]) && k + 1 <= MAX_U64
    && Told(dir.replies[wait.op], k + 1) && dir.slots[k].entity == wait.entity
  }

  ghost predicate WaitsOk<I, C, E, L>(dir: D.Directory<I, PendingCommand<C>, E, L>, waits: map<Identity, Wait<I>>) {
    && (forall j :: 0 <= j < |dir.ops| ==> AskOk(dir.ops[j], j, waits))
    && (forall d <- waits :: AnswerOk(dir, waits[d], d))
    && (forall k :: 0 <= k < |dir.slots| ==>
         forall w <- WaitersOf(dir.slots[k].State()) :: w.dispatchId in waits ==> WaiterOk(dir, waits[w.dispatchId], k))
  }

  // ----- every step keeps it -----

  lemma {:induction false} KeptWaiters<C>(waiters: seq<Waiter<C>>, d: Identity, w: Waiter<C>)
    ensures w in WithoutWaiter(waiters, d) <==> w in waiters && w.dispatchId != d
  {
    if waiters != [] {
      var n := |waiters| - 1;
      KeptWaiters(waiters[..n], d, w);
      assert waiters == waiters[..n] + [waiters[n]];
    }
  }

  /** A new waiter is the command just submitted. */
  lemma NewWaiters<C, E, L>(state: EntitySlot<C, E, L>, event: SlotEvent<C, E, L>, w: Waiter<C>)
    requires !event.ClaimActivation? && w in WaitersOf(Reduce(state, event).state)
    ensures w in WaitersOf(state) || event == SlotEvent.Dispatch(w.dispatchId, w.command)
  {
    if state.Activating? && event.CancelWaiter? {
      KeptWaiters(state.waiters, event.dispatchId, w);
    }
  }

  lemma WaitersComeFromTheirOps<I, C, E, L>(dir: D.Directory<I, C, E, L>, j: nat, k: nat, w: Waiter<C>)
    requires D.Inv(dir) && D.Enabled(dir, D.Step(j)) && k < |D.Apply(dir, D.Step(j)).slots|
    requires w in WaitersOf(D.Apply(dir, D.Step(j)).slots[k].State())
    ensures
      var t := D.Apply(dir, D.Step(j));
      || (k < |dir.slots| && w in WaitersOf(dir.slots[k].State()))
      || (Asks(dir.ops[j], w.dispatchId) && t.ops[j] == D.Interpret(dir.ops[j].entity, k)
          && (dir.ops[j].Holding? || (dir.ops[j].entity !in dir.entries && dir.nextActivation < MAX_U64)))
  {
    var t, op := D.Apply(dir, D.Step(j)), dir.ops[j];
    if k < |dir.slots| {
      SlotsAfter(dir, D.Step(j), k);
      if op.Holding? && op.slot == k {
        HoldingIsNoClaim(dir, j);
        NewWaiters(dir.slots[k].State(), op.event, w);
        hide Reduce, D.Inv;
      }
    } else {
      hide Transition, D.Inv;
      D.ClaimFacts<C, E, L>(dir.nextActivation, op.dispatchId, op.command, dir.waiterLimit);
    }
  }

  /** What was answered stays answered. */
  lemma PastRepliesStay<I, C, E, L>(dir: D.Directory<I, C, E, L>, a: D.Action<I, C, E, L>, i: nat)
    requires D.Enabled(dir, a) && i < |dir.ops| == |dir.replies| && (Past(dir.ops[i]) || a != D.Step(i))
    ensures
      var t := D.Apply(dir, a);
      && i < |t.ops| == |t.replies| && t.replies[i] == dir.replies[i]
      && (a != D.Step(i) ==> t.ops[i] == dir.ops[i]) && (Past(dir.ops[i]) ==> Past(t.ops[i]))
  {
    hide Transition, D.SubmitTo;
  }

  lemma RoutesStay<I, C, E, L>(dir: D.Directory<I, PendingCommand<C>, E, L>, a: D.Action<I, PendingCommand<C>, E, L>, entity: I, g: Identity)
    requires D.Inv(dir) && D.Enabled(dir, a) && Routed(dir, entity, g)
    ensures Routed(D.Apply(dir, a), entity, g)
  {
    hide D.Inv, D.Apply;
    StepSlots(dir, a);
  }

  /** A dispatch that is decided is told an activation of the entity it addressed. */
  lemma DecisionIsRouted<I, C, E, L>(dir: D.Directory<I, PendingCommand<C>, E, L>, j: nat, g: Identity)
    requires D.Inv(dir) && D.Enabled(dir, D.Step(j))
    requires dir.ops[j].Holding?
      || (dir.ops[j].DispatchLookup? && dir.ops[j].entity !in dir.entries && dir.nextActivation < MAX_U64)
    requires Told(D.Apply(dir, D.Step(j)).replies[j], g)
    ensures
      var t := D.Apply(dir, D.Step(j));
      && t.ops[j] == D.Interpret(dir.ops[j].entity, g - 1) && Routed(t, dir.ops[j].entity, g)
      && !t.slots[g - 1].State().Inactive?
  {
    D.AnswersAreWhatTheSlotQueued(dir, j);
    D.StepKeepsInv(dir, D.Step(j));
    var t := D.Apply(dir, D.Step(j));
    var k := t.ops[j].slot;
    assert t.ops[j].entity == dir.ops[j].entity by {
      hide D.Inv, Transition;
    }
    hide D.Apply, D.Balanced, Transition;
    assert D.OpOk(t, t.ops[j]) && D.SlotOk(t, k);
  }

  lemma AskerMoves<I, C, E, L>(dir: D.Directory<I, PendingCommand<C>, E, L>, wait: Wait<I>, d: Identity)
    requires D.Inv(dir) && AnswerOk(dir, wait, d) && D.Enabled(dir, D.Step(wait.op)) && !Past(dir.ops[wait.op])
    ensures AnswerOk(D.Apply(dir, D.Step(wait.op)), wait, d)
  {
    var j := wait.op;
    var op, t := dir.ops[j], D.Apply(dir, D.Step(j));
    if op.Holding? || (op.entity !in dir.entries && dir.nextActivation < MAX_U64) {
      forall g: Identity | Told(t.replies[j], g)
        ensures Routed(t, wait.entity, g)
      {
        DecisionIsRouted(dir, j, g);
      }
    }
    hide D.Inv, Transition, Told, Routed;
  }

  lemma AnswerStays<I, C, E, L>(
      dir: D.Directory<I, PendingCommand<C>, E, L>, a: D.Action<I, PendingCommand<C>, E, L>, wait: Wait<I>, d: Identity)
    requires D.Inv(dir) && AnswerOk(dir, wait, d) && D.Enabled(dir, a)
    ensures AnswerOk(D.Apply(dir, a), wait, d)
  {
    if a == D.Step(wait.op) && !Past(dir.ops[wait.op]) {
      AskerMoves(dir, wait, d);
    } else {
      PastRepliesStay(dir, a, wait.op);
      var t := D.Apply(dir, a);
      hide D.Inv, D.Apply, D.Enabled, Routed;
      forall g: Identity | Past(t.ops[wait.op]) && Told(t.replies[wait.op], g)
        ensures Routed(t, wait.entity, g)
      {
        RoutesStay(dir, a, wait.entity, g);
      }
    }
  }

  lemma AskStays<I, C, E, L>(
      dir: D.Directory<I, C, E, L>, a: D.Action<I, C, E, L>, waits: map<Identity, Wait<I>>, i: nat)
    requires D.Inv(dir) && D.Enabled(dir, a) && i < |dir.ops| && AskOk(dir.ops[i], i, waits)
    ensures AskOk(D.Apply(dir, a).ops[i], i, waits)
  {
    assert D.OpOk(dir, dir.ops[i]);
    hide D.Inv, Transition, D.SubmitTo;
  }

  lemma WaiterStays<I, C, E, L>(
      dir: D.Directory<I, PendingCommand<C>, E, L>, a: D.Action<I, PendingCommand<C>, E, L>, wait: Wait<I>, k: nat)
    requires D.Inv(dir) && D.Enabled(dir, a) && k < |dir.slots| && WaiterOk(dir, wait, k)
    ensures k < |D.Apply(dir, a).slots| && WaiterOk(D.Apply(dir, a), wait, k)
  {
    hide D.Inv, D.Apply, D.Enabled;
    PastRepliesStay(dir, a, wait.op);
    StepSlots(dir, a);
  }

  /** A new waiter's future was told the activation its slot is in. */
  lemma NewWaiterOk<I, C, E, L>(
      dir: D.Directory<I, PendingCommand<C>, E, L>, j: nat, waits: map<Identity, Wait<I>>, k: nat, d: Identity)
    requires D.Inv(dir) && D.Enabled(dir, D.Step(j)) && AskOk(dir.ops[j], j, waits) && d in waits && Asks(dir.ops[j], d)
    requires dir.ops[j].Holding? || (dir.ops[j].entity !in dir.entries && dir.nextActivation < MAX_U64)
    requires
      var t := D.Apply(dir, D.Step(j));
      t.ops[j] == D.Interpret(dir.ops[j].entity, k) && k < |t.slots| && t.slots[k].State().Activating?
    ensures WaiterOk(D.Apply(dir, D.Step(j)), waits[d], k)
  {
    D.AnswersAreWhatTheSlotQueued(dir, j);
    D.StepKeepsInv(dir, D.Step(j));
    var t := D.Apply(dir, D.Step(j));
    hide D.Apply, D.Balanced, Transition, D.Enabled;
    assert D.OpOk(t, t.ops[j]) && D.SlotOk(t, k);
  }

  lemma StepKeepsWaits<I, C, E, L>(dir: D.Directory<I, PendingCommand<C>, E, L>, j: nat, waits: map<Identity, Wait<I>>)
    requires D.Inv(dir) && WaitsOk(dir, waits) && D.Enabled(dir, D.Step(j))
    ensures WaitsOk(D.Apply(dir, D.Step(j)), waits)
  {
    var a := D.Action<I, PendingCommand<C>, E, L>.Step(j);
    var t := D.Apply(dir, a);
    assert |t.ops| == |dir.ops| by {
      hide D.Inv, Transition, WaitsOk;
    }
    hide D.Inv, D.Apply, AskOk, AnswerOk, WaiterOk;
    forall i | 0 <= i < |t.ops|
      ensures AskOk(t.ops[i], i, waits)
    {
      AskStays(dir, a, waits, i);
    }
    forall d <- waits
      ensures AnswerOk(t, waits[d], d)
    {
      AnswerStays(dir, a, waits[d], d);
    }
    forall k, w | 0 <= k < |t.slots| && w in WaitersOf(t.slots[k].State()) && w.dispatchId in waits
      ensures WaiterOk(t, waits[w.dispatchId], k)
    {
      WaitersComeFromTheirOps(dir, j, k, w);
      if k < |dir.slots| && w in WaitersOf(dir.slots[k].State()) {
        WaiterStays(dir, a, waits[w.dispatchId], k);
      } else {
        NewWaiterOk(dir, j, waits, k, w.dispatchId);
      }
    }
  }

  lemma CallKeepsWaits<I, C, E, L>(
      dir: D.Directory<I, PendingCommand<C>, E, L>, entity: I, event: SlotEvent<PendingCommand<C>, E, L>, waits: map<Identity, Wait<I>>)
    requires D.Inv(dir) && WaitsOk(dir, waits) && !event.ClaimActivation? && !event.Dispatch?
    ensures WaitsOk(D.Apply(dir, D.Call(entity, event)), waits)
  {
    var a := D.Action<I, PendingCommand<C>, E, L>.Call(entity, event);
    var t := D.Apply(dir, a);
    forall d <- waits
      ensures AnswerOk(t, waits[d], d)
    {
      AnswerStays(dir, a, waits[d], d);
    }
    hide AnswerOk;
  }

  lemma FewerWaits<I, C, E, L>(dir: D.Directory<I, PendingCommand<C>, E, L>, waits: map<Identity, Wait<I>>, d: Identity)
    requires WaitsOk(dir, waits)
    ensures WaitsOk(dir, waits - {d})
  {
    hide AnswerOk, WaiterOk;
  }

  /** A dispatch that is not issued yet is asked by no operation and waits in no slot. */
  lemma UnissuedIsNowhere<I, C(!new), E, L(!new)>(r: Runtime<I, C, E, L>, d: Identity)
    requires Inv(r) && GrantsOk(r) && !Issued(r, d)
    ensures forall j :: 0 <= j < |r.dir.ops| ==> !Asks(r.dir.ops[j], d)
    ensures forall k :: 0 <= k < |r.dir.slots| ==> forall w <- WaitersOf(r.dir.slots[k].State()) :: w.dispatchId != d
  {
    hide Inv, GrantsOk, Carried, Tally, Issued;
    forall j | 0 <= j < |r.dir.ops|
      ensures !Asks(r.dir.ops[j], d)
    {
      var op := r.dir.ops[j];
      if Asks(op, d) {
        var p := if op.DispatchLookup? then op.command else op.event.command;
        OpCarries(r, j, Command(d, p));
        CarriedIsUnsettled(r, d, p);
      }
    }
    forall k, w | 0 <= k < |r.dir.slots| && w in WaitersOf(r.dir.slots[k].State())
      ensures w.dispatchId != d
    {
      WaiterCarries(r, k, w);
      CarriedIsUnsettled(r, w.dispatchId, w.command);
    }
  }

  lemma WaiterCarries<I, C, E, L>(r: Runtime<I, C, E, L>, k: nat, w: Waiter<PendingCommand<C>>)
    requires k < |r.dir.slots| && w in WaitersOf(r.dir.slots[k].State())
    ensures Carried(r, Command(w.dispatchId, w.command)) > 0
  {
    var x := Item<PendingCommand<C>, L>.Command(w.dispatchId, w.command);
    var waiters := r.dir.slots[k].State().waiters;
    var i :| 0 <= i < |waiters| && waiters[i] == w;
    TallyHas(waiters, i, (WaiterItem<PendingCommand<C>, L>), x);
    TallyHas(r.dir.slots, k, (SlotItem<I, C, E, L>), x);
    hide Tally;
  }

  lemma DispatchKeepsWaits<I, C(!new), E, L(!new)>(r: Runtime<I, C, E, L>, entity: I, command: C)
    requires Inv(r) && GrantsOk(r) && WaitsOk(r.dir, r.waits) && Enabled(r, Action.Dispatch(entity, command))
    ensures WaitsOk(ApplyDispatch(r, entity, command).dir, ApplyDispatch(r, entity, command).waits)
  {
    hide AllRouted, Balanced, D.SlotOk, D.Balanced, D.OpOk, Tally;
    var t, d := ApplyDispatch(r, entity, command), r.dir.nextDispatch;
    UnissuedIsNowhere(r, d);
    var a := D.Action<I, PendingCommand<C>, E, L>.CallDispatch(entity, PendingCommand(command, d));
    assert t.dir == D.Apply(r.dir, a) && t.dir.slots == r.dir.slots && |r.dir.ops| == |r.dir.replies|;
    assert r.waits.Keys <= t.waits.Keys <= r.waits.Keys + {d};
    assert d !in r.waits;
    forall e <- r.waits
      ensures AnswerOk(t.dir, r.waits[e], e)
    {
      hide Inv, GrantsOk;
      assert D.Inv(r.dir) by { assert Inv(r); }
      AnswerStays(r.dir, a, r.waits[e], e);
    }
    hide Inv, GrantsOk, Routed;
  }

  lemma ActionKeepsWaits<I, C(!new), E, L(!new)>(r: Runtime<I, C, E, L>, a: Action<I, C, E, L>)
    requires CommandInv(r) && WaitsOk(r.dir, r.waits) && Enabled(r, a)
    ensures WaitsOk(Apply(r, a).dir, Apply(r, a).waits)
  {
    hide D.Inv, Balanced, AllRouted, GrantsOk, CellsOk, CancelsOk, WaitsOk;
    match a {
      case Dispatch(entity, command) => DispatchKeepsWaits(r, entity, command);
      case DropWait(d) =>
        ActsOnDirectory(r, a);
        var action := DirectoryAction(r, a);
        if action.Some? {
          CallKeepsWaits(r.dir, action.value.entity, action.value.event, r.waits);
        }
        FewerWaits(Apply(r, a).dir, r.waits, d);
        hide D.Apply;
        assert Apply(r, a).waits == r.waits - {d};
      case DirectoryStep(j) =>
        ActsOnDirectory(r, a);
        StepKeepsWaits(r.dir, j, r.waits);
        SameWaits(r, a);
      case Poll(_) => SameWaits(r, a);
      case Passivate(_) => SubmitKeepsWaits(r, a);
      case Finish(_, _) => SubmitKeepsWaits(r, a);
    }
  }

  lemma SubmitKeepsWaits<I, C(!new), E, L(!new)>(r: Runtime<I, C, E, L>, a: Action<I, C, E, L>)
    requires Inv(r) && WaitsOk(r.dir, r.waits) && Enabled(r, a) && (a.Passivate? || a.Finish?)
    ensures WaitsOk(Apply(r, a).dir, Apply(r, a).waits)
  {
    ActsOnDirectory(r, a);
    SameWaits(r, a);
    hide D.Inv, WaitsOk, Apply;
    var action := DirectoryAction(r, a);
    if action.Some? {
      CallKeepsWaits(r.dir, action.value.entity, action.value.event, r.waits);
    }
  }

  lemma SameWaits<I, C, E, L>(r: Runtime<I, C, E, L>, a: Action<I, C, E, L>)
    requires Enabled(r, a) && !a.Dispatch? && !a.DropWait?
    ensures Apply(r, a).waits == r.waits
  {
    hide D.Apply, SettledBy, Fact;
  }

  lemma {:induction false} RunKeepsWaits<I, C(!new), E, L(!new)>(r: Runtime<I, C, E, L>, run: seq<Action<I, C, E, L>>)
    requires CommandInv(r) && WaitsOk(r.dir, r.waits) && ValidRun(r, run)
    ensures CommandInv(After(r, run)) && WaitsOk(After(r, run).dir, After(r, run).waits)
    decreases |run|
  {
    hide CommandInv, WaitsOk, Enabled, Apply;
    if run != [] {
      CommandStep(r, run[0]);
      ActionKeepsWaits(r, run[0]);
      RunKeepsWaits(Apply(r, run[0]), run[1..]);
    }
  }

  lemma ReachableWaits<I, C(!new), E, L(!new)>(r: Runtime<I, C, E, L>, limit: Positive, run: seq<Action<I, C, E, L>>)
    requires Reachable(r, limit, run)
    ensures CommandInv(r) && WaitsOk(r.dir, r.waits)
  {
    var start := Start<I, C, E, L>(limit);
    StartInv<I, C, E, L>(limit);
    assert CommandInv(start) && WaitsOk(start.dir, start.waits);
    hide CommandInv, WaitsOk;
    RunKeepsWaits(start, run);
  }

  // ----- how long a future lives -----

  lemma FutureStep<I, C, E, L>(r: Runtime<I, C, E, L>, a: Action<I, C, E, L>, d: Identity)
    requires GrantsOk(r) && Enabled(r, a)
    ensures
      var t := Apply(r, a);
      && (d in t.waits <==> (d in r.waits && a != DropWait(d)) || (!Issued(r, d) && Issued(t, d)))
      && (Issued(r, d) ==> Issued(t, d)) && (a == DropWait(d) ==> Issued(r, d))
  {
    if a.Dispatch? {
      hide Tally;
    } else {
      DispatchCounter(r, a);
      if !a.DropWait? {
        SameWaits(r, a);
      }
      hide Tally, D.Apply, ApplyStep, ApplyFinish, ApplyPassivate;
    }
  }

  lemma {:induction false} FuturesOverRun<I, C(!new), E, L(!new)>(r: Runtime<I, C, E, L>, run: seq<Action<I, C, E, L>>, d: Identity)
    requires CommandInv(r) && ValidRun(r, run)
    ensures
      var t := After(r, run);
      && (Issued(r, d) ==> Issued(t, d)) && (DropWait(d) in run ==> Issued(t, d))
      && (d in t.waits <==> (d in r.waits || (!Issued(r, d) && Issued(t, d))) && DropWait(d) !in run)
    decreases |run|
  {
    if run != [] {
      FutureStep(r, run[0], d);
      hide GrantsOk, CellsOk, CancelsOk, Inv, Enabled, Apply, Issued;
      CommandStep(r, run[0]);
      FuturesOverRun(Apply(r, run[0]), run[1..], d);
      assert run == [run[0]] + run[1..];
      assert d in r.waits ==> Issued(r, d);
    }
  }

  /** Every dispatch admitted past identity allocation has a future until it is dropped. */
  lemma FuturesLiveUntilDropped<I, C(!new), E, L(!new)>(
      r: Runtime<I, C, E, L>, limit: Positive, run: seq<Action<I, C, E, L>>, d: Identity)
    requires Reachable(r, limit, run)
    ensures d in r.waits <==> d < r.dir.nextDispatch && DropWait(d) !in run
  {
    var start := Start<I, C, E, L>(limit);
    StartInv<I, C, E, L>(limit);
    assert CommandInv(start);
    hide CommandInv, ValidRun, After;
    FuturesOverRun(start, run, d);
  }

  // ----- what a dropped future submits -----

  /** In every reachable state, dropping the future of a dispatch whose command waits for an
      activation submits exactly the cancellation of that waiter under that activation. */
  lemma DroppedWaiterIsCancelled<I, C(!new), E, L(!new)>(
      r: Runtime<I, C, E, L>, limit: Positive, run: seq<Action<I, C, E, L>>, d: Identity, k: nat, w: Waiter<PendingCommand<C>>)
    requires Reachable(r, limit, run) && Enabled(r, DropWait(d))
    requires k < |r.dir.slots| && w in WaitersOf(r.dir.slots[k].State()) && w.dispatchId == d
    ensures
      var t, slot := Apply(r, DropWait(d)), r.dir.slots[k];
      && t.dir.ops == r.dir.ops + [D.Lookup(slot.entity, SlotEvent.CancelWaiter(slot.State().activationId, d))]
      && t == r.(dir := t.dir, waits := r.waits - {d})
  {
    ReachableWaits(r, limit, run);
    WaiterAwaits(r, k, w);
    hide ValidRun, After;
    assert WaiterOk(r.dir, r.waits[d], k) && Inv(r);
    SlotActivation(r, k);
    hide Inv, GrantsOk, CellsOk, CancelsOk, WaitsOk;
  }

  lemma WaiterAwaits<I, C(!new), E, L(!new)>(r: Runtime<I, C, E, L>, k: nat, w: Waiter<PendingCommand<C>>)
    requires CommandInv(r) && k < |r.dir.slots| && w in WaitersOf(r.dir.slots[k].State())
    ensures w.dispatchId in r.cells && r.cells[w.dispatchId].Awaiting?
  {
    hide Inv, GrantsOk, CellsOk, CancelsOk, Carried;
    WaiterCarries(r, k, w);
    CarriedAwaits(r, w.dispatchId, w.command);
  }

  /** Dropping a future submits nothing once its result was taken, or if its dispatch was decided
      under no activation; otherwise exactly the cancellation of its own dispatch, under the
      activation it was told, which is one of the entity it dispatched to. */
  lemma DropSubmitsOnlyItsCancel<I, C(!new), E, L(!new)>(
      r: Runtime<I, C, E, L>, limit: Positive, run: seq<Action<I, C, E, L>>, d: Identity)
    requires Reachable(r, limit, run) && Enabled(r, DropWait(d))
    ensures
      var t, wait := Apply(r, DropWait(d)), r.waits[d];
      && t == r.(dir := t.dir, waits := r.waits - {d}) && d in r.cells
      && if r.cells[d].Consumed? || forall g: Identity :: !Told(r.dir.replies[wait.op], g)
         then t.dir == r.dir
         else exists g: Identity ::
           && Told(r.dir.replies[wait.op], g) && Routed(r.dir, wait.entity, g)
           && t.dir.ops == r.dir.ops + [D.Lookup(wait.entity, SlotEvent.CancelWaiter(g, d))]
  {
    ReachableWaits(r, limit, run);
    assert d in r.cells by {
      hide Inv, CellsOk, CancelsOk, Tally, ValidRun, After, WaitsOk;
    }
    hide ValidRun, After, CommandInv;
    assert AnswerOk(r.dir, r.waits[d], d);
    hide WaitsOk;
    var reply := r.dir.replies[r.waits[d].op];
    assert WaitActivation(reply).Some? ==> Told(reply, WaitActivation(reply).value);
    hide Routed, AnswerOk;
  }

  // ----- and what becomes of the waiter -----

  /** Either the activation is over, or the command was discarded, or it still waits and its
      cancellation is on the way. */
  ghost predicate CancelPending<I, C, E, L>(r: Runtime<I, C, E, L>, n: nat, k: nat, w: Waiter<PendingCommand<C>>) {
    && n < |r.dir.ops| && k < |r.dir.slots| && k + 1 <= MAX_U64
    && (r.dir.slots[k].State().Activating? && CommandDiscarded(w.dispatchId, w.command) !in r.settled ==>
         && w in r.dir.slots[k].State().waiters
         && (r.dir.ops[n] == D.Lookup(r.dir.slots[k].entity, SlotEvent.CancelWaiter(k + 1, w.dispatchId))
             || r.dir.ops[n] == D.Holding(r.dir.slots[k].entity, k, SlotEvent.CancelWaiter(k + 1, w.dispatchId))))
  }

  lemma NoNewActivation<C, E, L>(state: EntitySlot<C, E, L>, event: SlotEvent<C, E, L>)
    requires !event.ClaimActivation? && Reduce(state, event).state.Activating?
    ensures state.Activating?
  {}

  /** While its slot keeps activating, a waiter leaves only by a current cancellation of its own. */
  lemma WaiterLeavesByCancel<C, E, L>(state: EntitySlot<C, E, L>, event: SlotEvent<C, E, L>, w: Waiter<C>)
    requires state.Activating? && w in state.waiters && Reduce(state, event).state.Activating?
    ensures w in Reduce(state, event).state.waiters || event == SlotEvent.CancelWaiter(state.activationId, w.dispatchId)
  {
    if event.CancelWaiter? {
      KeptWaiters(state.waiters, event.dispatchId, w);
    }
  }

  /** A current cancellation that is decided records the discard of the waiter it names. */
  lemma CancelDiscards<I, C, E, L>(r: Runtime<I, C, E, L>, j: nat, k: nat, w: Waiter<PendingCommand<C>>)
    requires Enabled(r, DirectoryStep(j)) && k < |r.dir.slots| && r.dir.slots[k].State().Activating?
    requires w in r.dir.slots[k].State().waiters
    requires r.dir.ops[j].Holding? && r.dir.ops[j].slot == k
    requires r.dir.ops[j].event == SlotEvent.CancelWaiter(r.dir.slots[k].State().activationId, w.dispatchId)
    ensures CommandDiscarded(w.dispatchId, w.command) in Apply(r, DirectoryStep(j)).settled
  {
    var a, state := Action<I, C, E, L>.DirectoryStep(j), r.dir.slots[k].State();
    NowRecorded(r, a, Decided(state, r.dir.ops[j].event));
    hide Apply;
  }

  lemma CancelFindsItsSlot<I, C(!new), E, L(!new)>(r: Runtime<I, C, E, L>, n: nat, k: nat, event: SlotEvent<PendingCommand<C>, E, L>)
    requires Inv(r) && k < |r.dir.slots| && r.dir.slots[k].State().Activating? && D.Enabled(r.dir, D.Step(n))
    requires r.dir.ops[n] == D.Lookup(r.dir.slots[k].entity, event)
    ensures D.Apply(r.dir, D.Step(n)).ops[n] == D.Holding(r.dir.slots[k].entity, k, event)
  {
    assert D.SlotOk(r.dir, k);
  }

  lemma ActivatingBefore<I, C(!new), E, L(!new)>(r: Runtime<I, C, E, L>, a: Action<I, C, E, L>, k: nat)
    requires Inv(r) && Enabled(r, a) && k < |r.dir.slots|
    ensures
      var t := Apply(r, a);
      && k < |t.dir.slots| && t.dir.slots[k].entity == r.dir.slots[k].entity
      && (t.dir.slots[k].State().Activating? ==> r.dir.slots[k].State().Activating?)
  {
    ActsOnDirectory(r, a);
    var action := DirectoryAction(r, a);
    hide Apply, DirectoryAction, Enabled;
    if action.Some? {
      SlotsAfter(r.dir, action.value, k);
      StepSlots(r.dir, action.value);
      if action.value.Step? && r.dir.ops[action.value.op].Holding? && r.dir.ops[action.value.op].slot == k {
        HoldingIsNoClaim(r.dir, action.value.op);
        hide Inv, D.Apply;
        if D.Apply(r.dir, action.value).slots[k].State().Activating? {
          NoNewActivation(r.dir.slots[k].State(), r.dir.ops[action.value.op].event);
        }
      }
      hide Inv, D.Apply;
    }
  }

  lemma WaiterStaysOrDiscarded<I, C(!new), E, L(!new)>(r: Runtime<I, C, E, L>, a: Action<I, C, E, L>, k: nat, w: Waiter<PendingCommand<C>>)
    requires Inv(r) && Enabled(r, a) && k < |r.dir.slots| && r.dir.slots[k].State().Activating?
    requires w in r.dir.slots[k].State().waiters
    requires k < |Apply(r, a).dir.slots| && Apply(r, a).dir.slots[k].State().Activating?
    ensures
      w in Apply(r, a).dir.slots[k].State().waiters || CommandDiscarded(w.dispatchId, w.command) in Apply(r, a).settled
  {
    ActsOnDirectory(r, a);
    var action := DirectoryAction(r, a);
    if action.Some? {
      SlotsAfter(r.dir, action.value, k);
      if a.DirectoryStep? && r.dir.ops[a.op].Holding? && r.dir.ops[a.op].slot == k {
        hide Inv, Apply, D.Apply;
        WaiterLeavesByCancel(r.dir.slots[k].State(), r.dir.ops[a.op].event, w);
        if r.dir.ops[a.op].event == SlotEvent.CancelWaiter(r.dir.slots[k].State().activationId, w.dispatchId) {
          CancelDiscards(r, a.op, k, w);
        }
      }
    }
    hide Inv, Apply, D.Apply;
  }

  lemma CancelStaysOrDiscards<I, C(!new), E, L(!new)>(
      r: Runtime<I, C, E, L>, a: Action<I, C, E, L>, n: nat, k: nat, w: Waiter<PendingCommand<C>>)
    requires Inv(r) && Enabled(r, a) && k < |r.dir.slots| && r.dir.slots[k].State().Activating? && k + 1 <= MAX_U64
    requires w in r.dir.slots[k].State().waiters && n < |r.dir.ops|
    requires r.dir.ops[n] == D.Lookup(r.dir.slots[k].entity, SlotEvent.CancelWaiter(k + 1, w.dispatchId))
          || r.dir.ops[n] == D.Holding(r.dir.slots[k].entity, k, SlotEvent.CancelWaiter(k + 1, w.dispatchId))
    ensures
      var t := Apply(r, a);
      && n < |t.dir.ops|
      && (|| t.dir.ops[n] == r.dir.ops[n]
          || t.dir.ops[n] == D.Holding(r.dir.slots[k].entity, k, SlotEvent.CancelWaiter(k + 1, w.dispatchId))
          || CommandDiscarded(w.dispatchId, w.command) in t.settled)
  {
    ActsOnDirectory(r, a);
    var action := DirectoryAction(r, a);
    if action.Some? {
      StepOps(r.dir, action.value, n);
      if a == DirectoryStep(n) {
        if r.dir.ops[n].Lookup? {
          CancelFindsItsSlot(r, n, k, r.dir.ops[n].event);
        } else {
          SlotActivation(r, k);
          hide Inv, Apply, D.Apply;
          CancelDiscards(r, n, k, w);
        }
      }
    }
    hide Inv, Apply, D.Apply;
  }

  lemma CancelStaysPending<I, C(!new), E, L(!new)>(r: Runtime<I, C, E, L>, a: Action<I, C, E, L>, n: nat, k: nat, w: Waiter<PendingCommand<C>>)
    requires Inv(r) && CancelPending(r, n, k, w) && Enabled(r, a)
    ensures CancelPending(Apply(r, a), n, k, w)
  {
    var t, fate := Apply(r, a), Fate<C, L>.CommandDiscarded(w.dispatchId, w.command);
    ActivatingBefore(r, a, k);
    SettledGrows(r, a);
    OpsStay(r, a);
    assert fate in r.settled ==> fate in t.settled;
    if t.dir.slots[k].State().Activating? && fate !in t.settled {
      WaiterStaysOrDiscarded(r, a, k, w);
      CancelStaysOrDiscards(r, a, n, k, w);
    }
    hide Inv, Apply, Enabled;
  }

  lemma OpsStay<I, C, E, L>(r: Runtime<I, C, E, L>, a: Action<I, C, E, L>)
    requires Enabled(r, a)
    ensures |r.dir.ops| <= |Apply(r, a).dir.ops|
  {
    ActsOnDirectory(r, a);
    hide Apply, Transition, DirectoryAction;
  }

  lemma {:induction false} CancelPendingOverRun<I, C(!new), E, L(!new)>(
      r: Runtime<I, C, E, L>, run: seq<Action<I, C, E, L>>, n: nat, k: nat, w: Waiter<PendingCommand<C>>)
    requires Inv(r) && CancelPending(r, n, k, w) && ValidRun(r, run)
    ensures CancelPending(After(r, run), n, k, w)
    decreases |run|
  {
    hide Inv, CancelPending, Enabled, Apply;
    if run != [] {
      ActionKeepsInv(r, run[0]);
      CancelStaysPending(r, run[0], n, k, w);
      CancelPendingOverRun(Apply(r, run[0]), run[1..], n, k, w);
    }
  }

  /** From every reachable state, over every further run: once the cancellation a dropped waiter's
      future submits has been decided, either its activation is over, or the command is discarded
      and no longer waits. */
  lemma DroppedWaiterIsDiscarded<I, C(!new), E, L(!new)>(
      r: Runtime<I, C, E, L>, limit: Positive, run: seq<Action<I, C, E, L>>, d: Identity, k: nat, w: Waiter<PendingCommand<C>>,
      rest: seq<Action<I, C, E, L>>)
    requires Reachable(r, limit, run) && Enabled(r, DropWait(d))
    requires k < |r.dir.slots| && w in WaitersOf(r.dir.slots[k].State()) && w.dispatchId == d
    requires ValidRun(Apply(r, DropWait(d)), rest)
    ensures
      var t, n := After(Apply(r, DropWait(d)), rest), |r.dir.ops|;
      && n < |t.dir.ops| && k < |t.dir.slots|
      && (t.dir.slots[k].State().Activating? && Past(t.dir.ops[n]) ==>
           CommandDiscarded(d, w.command) in t.settled && w !in t.dir.slots[k].State().waiters)
  {
    var s := Apply(r, DropWait(d));
    var t, n := After(s, rest), |r.dir.ops|;
    DroppedWaiterIsCancelled(r, limit, run, d, k, w);
    ReachableWaits(r, limit, run);
    CommandStep(r, DropWait(d));
    assert CancelPending(s, n, k, w) by {
      hide ValidRun, After, Apply, WaitsOk;
      SlotActivation(r, k);
    }
    hide ValidRun, After, Apply, CancelPending, CommandInv, WaitsOk, Reachable;
    assert Inv(s) by { assert CommandInv(s); }
    RunKeepsCommandInv(s, rest);
    CancelPendingOverRun(s, rest, n, k, w);
    DiscardedIsGone(t, k, w, n);
  }

  lemma DiscardedIsGone<I, C(!new), E, L(!new)>(r: Runtime<I, C, E, L>, k: nat, w: Waiter<PendingCommand<C>>, n: nat)
    requires CommandInv(r) && CancelPending(r, n, k, w)
    ensures n < |r.dir.ops| && k < |r.dir.slots|
    ensures r.dir.slots[k].State().Activating? && Past(r.dir.ops[n]) ==>
      CommandDiscarded(w.dispatchId, w.command) in r.settled && w !in r.dir.slots[k].State().waiters
  {
    hide Inv, GrantsOk, CellsOk, CancelsOk, Carried, Tally;
    if r.dir.slots[k].State().Activating? && Past(r.dir.ops[n]) && w in r.dir.slots[k].State().waiters {
      WaiterCarries(r, k, w);
      CarriedIsUnsettled(r, w.dispatchId, w.command);
      var i :| 0 <= i < |r.settled| && r.settled[i] == Fate<C, L>.CommandDiscarded(w.dispatchId, w.command);
      TallyHas(r.settled, i, (FateOf<C, L>), w.dispatchId);
    }
  }

  // ----- what a completion holds -----

  /** The calls an action makes on the completion of dispatch `d`. */
  function CallsOn<I(==), C, E, L>(r: Runtime<I, C, E, L>, a: Action<I, C, E, L>, d: Identity): seq<F.Call<C, ()>>
    requires Enabled(r, a)
  {
    match a
    case Poll(polled) => if polled == d then [F.Polling(())] else []
    case Finish(i, DeliveryOk) => if r.tasks[i].pending.cell == d then [F.Completing(Delivered)] else []
    case DirectoryStep(j) =>
      (match r.dir.ops[j]
       case Owning(_, _, effects) =>
         if effects != [] && effects[0].Reject? && effects[0].command.cell == d
         then [F.Completing(Refused(effects[0].command.command, effects[0].reason))] else []
       case _ => [])
    case _ => []
  }

  function CallsAfter<I(==), C, E, L>(
      r: Runtime<I, C, E, L>, calls: seq<F.Call<C, ()>>, run: seq<Action<I, C, E, L>>, d: Identity): seq<F.Call<C, ()>>
    requires ValidRun(r, run)
    decreases |run|
  {
    if run == [] then calls else CallsAfter(Apply(r, run[0]), calls + CallsOn(r, run[0], d), run[1..], d)
  }

  function CallsOf<I(==), C, E, L>(limit: Positive, run: seq<Action<I, C, E, L>>, d: Identity): seq<F.Call<C, ()>>
    requires ValidRun(Start<I, C, E, L>(limit), run)
  {
    CallsAfter(Start(limit), [], run, d)
  }

  ghost predicate HoldsCalls<I, C, E, L>(r: Runtime<I, C, E, L>, calls: seq<F.Call<C, ()>>, d: Identity) {
    if d in r.cells then r.cells[d] == F.CellOf(calls) else calls == []
  }

  lemma CallsHaveACell<I, C(!new), E, L(!new)>(r: Runtime<I, C, E, L>, a: Action<I, C, E, L>, d: Identity)
    requires CommandInv(r) && Enabled(r, a) && CallsOn(r, a, d) != []
    ensures d in r.cells
  {
    hide Inv, CellsOk, CancelsOk, Carried, Tally;
    match a {
      case Poll(_) =>
      case Finish(i, _) =>
        TaskCarries(r, i);
        CarriedIsUnsettled(r, r.tasks[i].dispatchId, r.tasks[i].pending);
      case DirectoryStep(j) =>
        var e := r.dir.ops[j].effects[0];
        EffectCarries(r, j, Command(e.dispatchId, e.command));
        CarriedIsUnsettled(r, e.dispatchId, e.command);
    }
  }

  lemma TaskCarries<I, C, E, L>(r: Runtime<I, C, E, L>, i: nat)
    requires i < |r.tasks| && r.tasks[i].DeliverOne?
    ensures Carried(r, Command(r.tasks[i].dispatchId, r.tasks[i].pending)) > 0
  {
    TallyHas(r.tasks, i, (TaskItem<I, C, E, L>), Command(r.tasks[i].dispatchId, r.tasks[i].pending));
  }

  lemma CellChanges<I, C, E, L>(r: Runtime<I, C, E, L>, a: Action<I, C, E, L>, d: Identity)
    requires GrantsOk(r) && Enabled(r, a)
    requires a.DirectoryStep? && r.dir.ops[a.op].Transient? ==> r.dir.ops[a.op].effects == []
    ensures
      var t, more := Apply(r, a), CallsOn(r, a, d);
      && (d !in r.cells && d in t.cells ==> t.cells[d].Awaiting?)
      && (d in r.cells ==>
           d in t.cells
           && t.cells[d] == if more == [] then r.cells[d]
                            else if more[0].Completing? then Completed(r.cells[d], more[0].result)
                            else if r.cells[d].Ready? then Consumed(r.cells[d].result)
                            else r.cells[d])
  {
    hide SettledBy, D.Apply, Fact, Tally;
  }

  /** The cells change by the calls on them only. */
  lemma CellsTakeTheirCalls<I, C(!new), E, L(!new)>(r: Runtime<I, C, E, L>, calls: seq<F.Call<C, ()>>, a: Action<I, C, E, L>, d: Identity)
    requires CommandInv(r) && Enabled(r, a) && HoldsCalls(r, calls, d)
    ensures HoldsCalls(Apply(r, a), calls + CallsOn(r, a, d), d)
  {
    var more := CallsOn(r, a, d);
    if more != [] {
      CallsHaveACell(r, a, d);
      F.CallsAreCellSteps(calls, if more[0].Completing? then more[0].result else Delivered, ());
    } else {
      assert calls + more == calls;
    }
    if a.DirectoryStep? {
      assert OpRouted(r.dir, r.dir.ops[a.op]);
    }
    hide Inv, GrantsOk, CellsOk, CancelsOk, Apply, Enabled;
    CellChanges(r, a, d);
  }

  lemma {:induction false} RunTakesItsCalls<I, C(!new), E, L(!new)>(
      r: Runtime<I, C, E, L>, calls: seq<F.Call<C, ()>>, run: seq<Action<I, C, E, L>>, d: Identity)
    requires CommandInv(r) && HoldsCalls(r, calls, d) && ValidRun(r, run)
    ensures HoldsCalls(After(r, run), CallsAfter(r, calls, run, d), d)
    decreases |run|
  {
    hide CommandInv, HoldsCalls, Enabled, Apply, CallsOn;
    if run != [] {
      CommandStep(r, run[0]);
      CellsTakeTheirCalls(r, calls, run[0], d);
      RunTakesItsCalls(Apply(r, run[0]), calls + CallsOn(r, run[0], d), run[1..], d);
    }
  }

  /** In every run the completion of a dispatch holds what its calls make of it: nothing until its
      command is delivered or refused, then that first result until a poll takes it. */
  lemma CompletionHoldsItsCalls<I, C(!new), E, L(!new)>(
      r: Runtime<I, C, E, L>, limit: Positive, run: seq<Action<I, C, E, L>>, d: Identity)
    requires Reachable(r, limit, run)
    ensures if d in r.cells then r.cells[d] == F.CellOf(CallsOf(limit, run, d)) else CallsOf(limit, run, d) == []
  {
    var start := Start<I, C, E, L>(limit);
    StartInv<I, C, E, L>(limit);
    assert CommandInv(start);
    hide CommandInv;
    RunTakesItsCalls(start, [], run, d);
  }
}
