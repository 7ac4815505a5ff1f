/** Linearizability of the concurrent directory: every run, whatever facts it submits and
    however its operations hold on to removed slots, is explained by one sequential history
    of an atomic map from entities to lifecycle states. An operation that holds a slot when
    it is removed takes effect in hindsight, just before the removal. */
module Hindsight {
  import opened Common
  import opened Lifecycle
  import opened Evidence
  import opened Decisions
  import opened Directory

  // ----- the sequential specification -----

  /** One atomic map: no slots, no locks, no queues. */
  datatype Atomic<I, C, E, L> = Atomic(states: map<I, EntitySlot<C, E, L>>, nextActivation: nat)

  datatype Request<I, C, E, L> =
    | Dispatching(entity: I, dispatchId: Identity, command: C)
    | Reporting(entity: I, fact: SlotEvent<C, E, L>)

  /** What the decision on an entity's state tells the caller; the same decision yields its next state. */
  function Told<C, E, L>(state: EntitySlot<C, E, L>, event: SlotEvent<C, E, L>): Reply<C, E, L> {
    Installed(Transition(state, event).0)
  }

  /** One request takes effect on the whole map at once. */
  function Perform<I(==), C, E, L>(m: Atomic<I, C, E, L>, q: Request<I, C, E, L>, limit: Positive): (Reply<C, E, L>, Atomic<I, C, E, L>) {
    match q
    case Reporting(entity, fact) =>
      if entity in m.states then Decide(m, entity, fact) else (Told(EntitySlot.Inactive, fact), m)
    case Dispatching(entity, d, command) =>
      if entity in m.states then Decide(m, entity, SlotEvent.Dispatch(d, command))
      else if 1 <= m.nextActivation < MAX_U64 then
        var claim := SlotEvent.ClaimActivation(m.nextActivation, d, command, limit);
        (Told(EntitySlot.Inactive, claim),
         Atomic(m.states[entity := Transition(EntitySlot.Inactive, claim).1], m.nextActivation + 1))
      else (ActivationIdsExhausted(command), m)
  }

  function Decide<I(==), C, E, L>(m: Atomic<I, C, E, L>, entity: I, event: SlotEvent<C, E, L>): (Reply<C, E, L>, Atomic<I, C, E, L>)
    requires entity in m.states
  {
    (Told(m.states[entity], event), m.(states := m.states[entity := Transition(m.states[entity], event).1]))
  }

  /** One entry of a sequential history. */
  datatype Entry<I, C, E, L> =
    | Did(op: nat, request: Request<I, C, E, L>, reply: Reply<C, E, L>)
    | Removed(entity: I)

  function Next<I(==), C, E, L>(m: Atomic<I, C, E, L>, e: Entry<I, C, E, L>, limit: Positive): Atomic<I, C, E, L> {
    match e
    case Did(_, q, _) => Perform(m, q, limit).1
    case Removed(entity) => m.(states := m.states - {entity})
  }

  /** A request must be answered as the map answers it; only an inactive entry is removed. */
  ghost predicate Allowed<I, C, E, L>(m: Atomic<I, C, E, L>, e: Entry<I, C, E, L>, limit: Positive) {
    match e
    case Did(_, q, reply) => Perform(m, q, limit).0 == reply
    case Removed(entity) => entity in m.states && m.states[entity].Inactive?
  }

  /** The map after a history that started from the empty map. */
  function Replay<I(==), C, E, L>(h: seq<Entry<I, C, E, L>>, limit: Positive): Atomic<I, C, E, L> {
    if h == [] then Atomic(map[], 1) else Next(Replay(h[..|h| - 1], limit), h[|h| - 1], limit)
  }

  ghost predicate Legal<I, C, E, L>(h: seq<Entry<I, C, E, L>>, limit: Positive) {
    h == [] || (Legal(h[..|h| - 1], limit) && Allowed(Replay(h[..|h| - 1], limit), h[|h| - 1], limit))
  }

  lemma Extend<I, C, E, L>(h: seq<Entry<I, C, E, L>>, e: Entry<I, C, E, L>, limit: Positive)
    requires Legal(h, limit) && Allowed(Replay(h, limit), e, limit)
    ensures Legal(h + [e], limit) && Replay(h + [e], limit) == Next(Replay(h, limit), e, limit)
  {
    assert (h + [e])[..|h|] == h;
  }

  // ----- the history a concurrent run leaves behind -----

  /** What was called, by operation, and where each call took effect. */
  datatype Witness<I, C, E, L> = Witness(calls: seq<Option<Request<I, C, E, L>>>, history: seq<Entry<I, C, E, L>>)

  /** The sequential request an operation in flight stands for. */
  function RequestOf<I, C, E, L>(op: Op<I, C, E, L>): Option<Request<I, C, E, L>> {
    match op
    case DispatchLookup(entity, d, command) => Some(Dispatching(entity, d, command))
    case Lookup(entity, event) => Some(Reporting(entity, event))
    case Holding(entity, _, event) =>
      Some(if event.Dispatch? then Dispatching(entity, event.dispatchId, event.command) else Reporting(entity, event))
    case _ => None
  }

  /** The request of a call, and None when its dispatch identity could not be allocated. */
  function CallOf<I, C, E, L>(d: Directory<I, C, E, L>, a: Action<I, C, E, L>): Option<Request<I, C, E, L>>
    requires Enabled(d, a) && !a.Step?
  {
    match a
    case CallDispatch(entity, command) =>
      if d.nextDispatch < MAX_U64 then Some(Dispatching(entity, d.nextDispatch, command)) else None
    case Call(entity, event) => Some(Reporting(entity, event))
  }

  /** What operation `j` adds when slot `k` is removed: if it holds the slot, the answer of the inactive slot. */
  function HeldBy<I, C, E, L>(op: Op<I, C, E, L>, j: nat, k: nat): seq<Entry<I, C, E, L>> {
    if op.Holding? && op.slot == k
    then [Did(j, RequestOf(op).value, Told(EntitySlot.Inactive, op.event))] else []
  }

  /** The operations among the first `n` that still hold slot `k`. */
  function Holders<I, C, E, L>(ops: seq<Op<I, C, E, L>>, k: nat, n: nat): seq<Entry<I, C, E, L>>
    requires n <= |ops|
  {
    if n == 0 then [] else Holders(ops, k, n - 1) + HeldBy(ops[n - 1], n - 1, k)
  }

  /** What one step adds to the history. A step that answers its operation linearizes it there,
      unless it submits to a removed slot: then it took effect at the removal. */
  function Effect<I(==), C, E, L>(d: Directory<I, C, E, L>, a: Action<I, C, E, L>): seq<Entry<I, C, E, L>>
    requires Enabled(d, a)
  {
    if !a.Step? then []
    else
      var op, t := d.ops[a.op], Apply(d, a);
      if op.Owning? then
        if op.effects != [] && op.effects[0].Remove? && op.entity in d.entries && d.entries[op.entity] == op.slot
        then Holders(d.ops, op.slot, |d.ops|) + [Removed(op.entity)] else []
      else if op.Interpret? || op.Transient? || (op.Holding? && d.slots[op.slot].removed) then []
      else if t.replies[a.op].None? then []
      else [Did(a.op, RequestOf(op).value, t.replies[a.op].value)]
  }

  function Observe<I(==), C, E, L>(d: Directory<I, C, E, L>, w: Witness<I, C, E, L>, a: Action<I, C, E, L>): Witness<I, C, E, L>
    requires Enabled(d, a)
  {
    Witness(if a.Step? then w.calls else w.calls + [CallOf(d, a)], w.history + Effect(d, a))
  }

  function Explain<I(==), C, E, L>(d: Directory<I, C, E, L>, w: Witness<I, C, E, L>, run: seq<Action<I, C, E, L>>): Witness<I, C, E, L>
    requires ValidRun(d, run)
    decreases |run|
  {
    if run == [] then w else Explain(Apply(d, run[0]), Observe(d, w, run[0]), run[1..])
  }

  // ----- the invariant -----

  ghost function DidOf<I, C, E, L>(e: Entry<I, C, E, L>, j: nat): nat {
    if e.Did? && e.op == j then 1 else 0
  }

  /** How often operation `j` took effect. */
  ghost function Times<I, C, E, L>(w: Witness<I, C, E, L>, j: nat): nat {
    Tally(w.history, (DidOf<I, C, E, L>), j)
  }

  /** The map the concurrent directory stands for. */
  ghost function Abstract<I, C, E, L>(d: Directory<I, C, E, L>): Atomic<I, C, E, L>
    requires Inv(d)
  {
    Atomic(map entity <- d.entries :: d.slots[d.entries[entity]].State(), d.nextActivation)
  }

  /** An operation holding a slot that has been removed: already decided, not yet answered. */
  predicate Late<I, C, E, L>(d: Directory<I, C, E, L>, j: nat) {
    j < |d.ops| && d.ops[j].Holding? && d.ops[j].slot < |d.slots| && d.slots[d.ops[j].slot].removed
  }

  /** The reply operation `j` has, or is bound to get. */
  function Decided<I, C, E, L>(d: Directory<I, C, E, L>, j: nat): Option<Reply<C, E, L>>
    requires j < |d.replies|
  {
    if Late(d, j) then Some(Told(EntitySlot.Inactive, d.ops[j].event)) else d.replies[j]
  }

  /** An operation took effect once exactly when it is decided; one in flight is its call. */
  ghost predicate OpExplained<I, C, E, L>(d: Directory<I, C, E, L>, w: Witness<I, C, E, L>, j: nat)
    requires j < |d.ops| == |d.replies| == |w.calls|
  {
    && (RequestOf(d.ops[j]).Some? ==> w.calls[j] == RequestOf(d.ops[j]) && d.replies[j].None?)
    && (RequestOf(d.ops[j]).None? ==> d.replies[j].Some?)
    && Times(w, j) == if w.calls[j].Some? && Decided(d, j).Some? then 1 else 0
  }

  ghost predicate EntryExplained<I, C, E, L>(d: Directory<I, C, E, L>, w: Witness<I, C, E, L>, e: Entry<I, C, E, L>)
    requires |d.ops| == |d.replies| == |w.calls|
  {
    e.Did? ==> e.op < |d.ops| && w.calls[e.op] == Some(e.request) && Decided(d, e.op) == Some(e.reply)
  }

  ghost predicate Explained<I, C, E, L>(d: Directory<I, C, E, L>, w: Witness<I, C, E, L>) {
    && Inv(d)
    && Legal(w.history, d.waiterLimit) && Replay(w.history, d.waiterLimit) == Abstract(d)
    && |w.calls| == |d.ops|
    && (forall j :: 0 <= j < |d.ops| ==> OpExplained(d, w, j))
    && (forall e <- w.history :: EntryExplained(d, w, e))
  }

  // ----- every step keeps the explanation -----

  lemma AppendTimes<I, C, E, L>(h: seq<Entry<I, C, E, L>>, more: seq<Entry<I, C, E, L>>, j: nat)
    ensures Tally(h + more, (DidOf<I, C, E, L>), j) == Tally(h, (DidOf<I, C, E, L>), j) + Tally(more, (DidOf<I, C, E, L>), j)
    ensures |more| == 1 ==> Tally(more, (DidOf<I, C, E, L>), j) == DidOf(more[0], j)
  {
    TallyConcat(h, more, (DidOf<I, C, E, L>), j);
    if |more| == 1 {
      TallyFirst(more, (DidOf<I, C, E, L>), j);
    }
  }

  lemma CallShape<I, C, E, L>(d: Directory<I, C, E, L>, a: Action<I, C, E, L>)
    requires Inv(d) && Enabled(d, a) && !a.Step?
    ensures
      var t, n := Apply(d, a), |d.ops|;
      && Inv(t) && t.waiterLimit == d.waiterLimit && t.slots == d.slots && Abstract(t) == Abstract(d)
      && |t.ops| == |t.replies| == n + 1 && t.ops[..n] == d.ops && t.replies[..n] == d.replies
      && !t.ops[n].Holding? && RequestOf(t.ops[n]) == CallOf(d, a) && (t.replies[n].Some? <==> CallOf(d, a).None?)
  {
    StepKeepsInv(d, a);
    hide Tally, SlotOk, Balanced, OpOk;
  }

  lemma CallExplained<I, C, E, L>(d: Directory<I, C, E, L>, w: Witness<I, C, E, L>, a: Action<I, C, E, L>)
    requires Explained(d, w) && Enabled(d, a) && !a.Step?
    ensures Explained(Apply(d, a), Observe(d, w, a))
  {
    CallShape(d, a);
    var t, u, n := Apply(d, a), Observe(d, w, a), |d.ops|;
    assert u.history == w.history;
    hide Tally, SlotOk, Balanced, OpOk, Legal, Replay, Apply, CallOf, Abstract;
    forall j | 0 <= j < |t.ops|
      ensures OpExplained(t, u, j)
    {
      if j < n {
        assert OpExplained(d, w, j);
        assert t.ops[j] == d.ops[j] && t.replies[j] == d.replies[j];
      } else {
        UncalledNeverDid(d, w, n);
      }
    }
    forall e <- u.history
      ensures EntryExplained(t, u, e)
    {
      assert EntryExplained(d, w, e);
      assert e.Did? ==> t.ops[e.op] == d.ops[e.op] && t.replies[e.op] == d.replies[e.op];
    }
  }

  lemma UncalledNeverDid<I, C, E, L>(d: Directory<I, C, E, L>, w: Witness<I, C, E, L>, j: nat)
    requires Explained(d, w) && j >= |d.ops|
    ensures Times(w, j) == 0
  {
    hide SlotOk, Balanced, OpOk, Legal, Replay, OpExplained;
    forall i | 0 <= i < |w.history|
      ensures DidOf(w.history[i], j) == 0
    {
      assert EntryExplained(d, w, w.history[i]);
    }
    TallyZero(w.history, (DidOf<I, C, E, L>), j);
  }

  /** A step of operation `j` that decides nothing and leaves the map as it was. */
  lemma QuietStep<I, C, E, L>(d: Directory<I, C, E, L>, t: Directory<I, C, E, L>, w: Witness<I, C, E, L>, j: nat)
    requires Explained(d, w) && Inv(t) && t.waiterLimit == d.waiterLimit && j < |d.ops| == |t.ops|
    requires Abstract(t) == Abstract(d)
    requires forall i :: 0 <= i < |d.ops| ==> Decided(t, i) == Decided(d, i)
    requires forall i :: 0 <= i < |d.ops| && i != j ==> t.ops[i] == d.ops[i] && t.replies[i] == d.replies[i]
    requires RequestOf(t.ops[j]).Some? ==> RequestOf(t.ops[j]) == RequestOf(d.ops[j]) && t.replies[j].None?
    requires RequestOf(t.ops[j]).None? ==> t.replies[j].Some?
    ensures Explained(t, w)
  {
    hide SlotOk, Balanced, OpOk, Legal, Replay, Decided, RequestOf, Abstract, Times;
    forall i | 0 <= i < |t.ops|
      ensures OpExplained(t, w, i)
    {
      assert OpExplained(d, w, i);
    }
    forall e <- w.history
      ensures EntryExplained(t, w, e)
    {
      assert EntryExplained(d, w, e);
    }
  }

  /** A step of operation `j` that decides it, as the atomic map would. */
  lemma DecidingStep<I, C, E, L>(
      d: Directory<I, C, E, L>, t: Directory<I, C, E, L>, w: Witness<I, C, E, L>, j: nat,
      q: Request<I, C, E, L>, reply: Reply<C, E, L>)
    requires Explained(d, w) && Inv(t) && t.waiterLimit == d.waiterLimit && j < |d.ops| == |t.ops|
    requires RequestOf(d.ops[j]) == Some(q) && Decided(d, j).None?
    requires Perform(Abstract(d), q, d.waiterLimit) == (reply, Abstract(t))
    requires RequestOf(t.ops[j]).None? && t.replies[j] == Some(reply) && Decided(t, j) == Some(reply)
    requires forall i :: 0 <= i < |d.ops| && i != j ==>
      t.ops[i] == d.ops[i] && t.replies[i] == d.replies[i] && Decided(t, i) == Decided(d, i)
    ensures Explained(t, Witness(w.calls, w.history + [Did(j, q, reply)]))
  {
    hide SlotOk, Balanced, OpOk, Decided, RequestOf, Abstract, Perform, Tally, Legal, Replay;
    var e := Did(j, q, reply);
    var u := Witness(w.calls, w.history + [e]);
    Extend(w.history, e, d.waiterLimit);
    forall i | 0 <= i < |t.ops|
      ensures OpExplained(t, u, i)
    {
      assert OpExplained(d, w, i);
      AppendTimes(w.history, [e], i);
    }
    forall x <- u.history
      ensures EntryExplained(t, u, x)
    {
      if x in w.history {
        assert EntryExplained(d, w, x) && OpExplained(d, w, j);
      } else {
        assert OpExplained(d, w, j);
      }
    }
  }

  // ----- a removal decides everyone who still holds the slot -----

  lemma {:induction false} HoldersAre<I, C, E, L>(ops: seq<Op<I, C, E, L>>, k: nat, n: nat, e: Entry<I, C, E, L>)
    requires n <= |ops| && e in Holders(ops, k, n)
    ensures e.Did? && e.op < n && ops[e.op].Holding? && ops[e.op].slot == k
    ensures RequestOf(ops[e.op]) == Some(e.request) && e.reply == Told(EntitySlot.Inactive, ops[e.op].event)
  {
    hide Told;
    if e in Holders(ops, k, n - 1) {
      HoldersAre(ops, k, n - 1, e);
    }
  }

  ghost function TimesIn<I, C, E, L>(h: seq<Entry<I, C, E, L>>, j: nat): nat {
    Tally(h, (DidOf<I, C, E, L>), j)
  }

  lemma TimesSplit<I, C, E, L>(h: seq<Entry<I, C, E, L>>, more: seq<Entry<I, C, E, L>>, j: nat)
    ensures TimesIn(h + more, j) == TimesIn(h, j) + TimesIn(more, j)
  {
    AppendTimes(h, more, j);
  }

  lemma HeldOnce<I, C, E, L>(op: Op<I, C, E, L>, i: nat, k: nat, j: nat)
    ensures TimesIn(HeldBy(op, i, k), j) == if i == j && op.Holding? && op.slot == k then 1 else 0
  {
    hide Told;
    if op.Holding? && op.slot == k {
      TallyFirst(HeldBy(op, i, k), (DidOf<I, C, E, L>), j);
    }
  }

  lemma HoldersNext<I, C, E, L>(ops: seq<Op<I, C, E, L>>, k: nat, n: nat)
    requires n <= |ops|
    ensures Holders(ops, k, n) == if n == 0 then [] else Holders(ops, k, n - 1) + HeldBy(ops[n - 1], n - 1, k)
  {
    hide HeldBy;
  }

  lemma {:induction false} HoldersOnce<I, C, E, L>(ops: seq<Op<I, C, E, L>>, k: nat, n: nat, j: nat)
    requires n <= |ops|
    ensures TimesIn(Holders(ops, k, n), j) == if j < n && ops[j].Holding? && ops[j].slot == k then 1 else 0
  {
    HoldersNext(ops, k, n);
    if n > 0 {
      hide TimesIn, HeldBy, Holders;
      HoldersOnce(ops, k, n - 1, j);
      HeldOnce(ops[n - 1], n - 1, k, j);
      TimesSplit(Holders(ops, k, n - 1), HeldBy(ops[n - 1], n - 1, k), j);
    }
  }

  lemma InactiveKeeps<C, E, L>(event: SlotEvent<C, E, L>)
    requires !event.ClaimActivation?
    ensures Transition(EntitySlot<C, E, L>.Inactive, event).1.Inactive?
  {}

  lemma HeldIsLegal<I, C, E, L>(h: seq<Entry<I, C, E, L>>, limit: Positive, op: Op<I, C, E, L>, j: nat, k: nat, entity: I)
    requires Legal(h, limit)
    requires entity in Replay(h, limit).states && Replay(h, limit).states[entity].Inactive?
    requires op.Holding? && op.slot == k ==> op.entity == entity && !op.event.ClaimActivation?
    ensures Legal(h + HeldBy(op, j, k), limit) && Replay(h + HeldBy(op, j, k), limit) == Replay(h, limit)
  {
    hide Transition, Told, Legal, Replay;
    if op.Holding? && op.slot == k {
      InactiveKeeps(op.event);
      var m := Replay(h, limit);
      assert m.states[entity := EntitySlot.Inactive] == m.states;
      Extend(h, HeldBy(op, j, k)[0], limit);
    } else {
      assert h + [] == h;
    }
  }

  /** Against a mapped inactive entry all of them are answered so, and the map does not change. */
  lemma {:induction false} HoldersAreLegal<I, C, E, L>(
      h: seq<Entry<I, C, E, L>>, limit: Positive, ops: seq<Op<I, C, E, L>>, k: nat, n: nat, entity: I)
    requires n <= |ops| && Legal(h, limit)
    requires entity in Replay(h, limit).states && Replay(h, limit).states[entity].Inactive?
    requires forall op <- ops :: op.Holding? && op.slot == k ==> op.entity == entity && !op.event.ClaimActivation?
    ensures Legal(h + Holders(ops, k, n), limit) && Replay(h + Holders(ops, k, n), limit) == Replay(h, limit)
  {
    hide Legal, Replay, HeldBy;
    if n == 0 {
      assert h + [] == h;
    } else {
      HoldersAreLegal(h, limit, ops, k, n - 1, entity);
      HeldIsLegal(h + Holders(ops, k, n - 1), limit, ops[n - 1], n - 1, k, entity);
      assert h + Holders(ops, k, n - 1) + HeldBy(ops[n - 1], n - 1, k) == h + Holders(ops, k, n);
    }
  }

  predicate Removing<I(==), C, E, L>(d: Directory<I, C, E, L>, j: nat)
    requires Enabled(d, Step(j))
  {
    d.ops[j].Owning? && d.ops[j].effects != [] && d.ops[j].effects[0].Remove?
  }

  /** A removal unmaps one inactive slot and makes exactly its holders late. */
  lemma RemovalShape<I, C, E, L>(d: Directory<I, C, E, L>, j: nat)
    requires Inv(d) && Enabled(d, Step(j)) && Removing(d, j)
    ensures
      var t, op := Apply(d, Step(j)), d.ops[j];
      && Inv(t) && t.waiterLimit == d.waiterLimit && t.replies == d.replies
      && |t.ops| == |d.ops| && (forall i :: 0 <= i < |d.ops| && i != j ==> t.ops[i] == d.ops[i]) && t.ops[j].Owning?
      && op.entity in d.entries && d.entries[op.entity] == op.slot
      && Abstract(d).states[op.entity].Inactive?
      && Abstract(t) == Abstract(d).(states := Abstract(d).states - {op.entity})
      && (forall i :: 0 <= i < |d.ops| ==> (Late(t, i) <==> Late(d, i) || (d.ops[i].Holding? && d.ops[i].slot == op.slot)))
      && (forall i :: 0 <= i < |d.ops| && d.ops[i].Holding? && d.ops[i].slot == op.slot ==> !Late(d, i))
      && (forall x <- d.ops :: x.Holding? && x.slot == op.slot ==> x.entity == op.entity && !x.event.ClaimActivation?)
  {
    StepKeepsInv(d, Step(j));
    RemoveFindsItsSlot(d, j);
    hide Tally, Balanced;
    var op := d.ops[j];
    assert SlotOk(d, op.slot) && OpOk(d, op);
    hide SlotOk;
    forall x <- d.ops
      ensures x.Holding? && x.slot == op.slot ==> x.entity == op.entity && !x.event.ClaimActivation?
    {
      assert OpOk(d, x);
    }
  }

  /** The history a removal adds: its holders, then the removal. */
  function AtRemoval<I(==), C, E, L>(d: Directory<I, C, E, L>, j: nat): seq<Entry<I, C, E, L>>
    requires Enabled(d, Step(j)) && Removing(d, j)
  {
    Holders(d.ops, d.ops[j].slot, |d.ops|) + [Removed(d.ops[j].entity)]
  }

  lemma RemovalIsLegal<I, C, E, L>(d: Directory<I, C, E, L>, w: Witness<I, C, E, L>, j: nat)
    requires Explained(d, w) && Enabled(d, Step(j)) && Removing(d, j)
    ensures
      var t, h := Apply(d, Step(j)), w.history + AtRemoval(d, j);
      Inv(t) && Legal(h, d.waiterLimit) && Replay(h, d.waiterLimit) == Abstract(t)
  {
    RemovalShape(d, j);
    hide Inv, Apply, Enabled, Abstract, Legal, Replay, Holders, Tally;
    var op := d.ops[j];
    HoldersAreLegal(w.history, d.waiterLimit, d.ops, op.slot, |d.ops|, op.entity);
    var late := Holders(d.ops, op.slot, |d.ops|);
    Extend(w.history + late, Removed(op.entity), d.waiterLimit);
    assert w.history + late + [Removed(op.entity)] == w.history + AtRemoval(d, j);
  }

  lemma RemovalTimes<I, C, E, L>(d: Directory<I, C, E, L>, w: Witness<I, C, E, L>, j: nat, i: nat)
    requires Enabled(d, Step(j)) && Removing(d, j) && i < |d.ops|
    ensures Times(Witness(w.calls, w.history + AtRemoval(d, j)), i)
         == Times(w, i) + if d.ops[i].Holding? && d.ops[i].slot == d.ops[j].slot then 1 else 0
  {
    var late, removed := Holders(d.ops, d.ops[j].slot, |d.ops|), Entry<I, C, E, L>.Removed(d.ops[j].entity);
    HoldersOnce(d.ops, d.ops[j].slot, |d.ops|, i);
    AppendTimes(w.history, AtRemoval(d, j), i);
    AppendTimes(late, [removed], i);
    hide Holders, Tally;
  }

  lemma RemovalDecides<I, C, E, L>(d: Directory<I, C, E, L>, w: Witness<I, C, E, L>, j: nat, i: nat)
    requires Explained(d, w) && Enabled(d, Step(j)) && Removing(d, j) && i < |d.ops|
    ensures
      var t := Apply(d, Step(j));
      |t.ops| == |t.replies| == |w.calls| && OpExplained(t, Witness(w.calls, w.history + AtRemoval(d, j)), i)
  {
    RemovalShape(d, j);
    RemovalTimes(d, w, j, i);
    hide Inv, Enabled, Apply, Late, Abstract, Told, Legal, Replay, AtRemoval, Times, EntryExplained;
    assert OpExplained(d, w, i);
  }

  lemma RemovalEntries<I, C, E, L>(d: Directory<I, C, E, L>, w: Witness<I, C, E, L>, j: nat, e: Entry<I, C, E, L>)
    requires Explained(d, w) && Enabled(d, Step(j)) && Removing(d, j) && e in w.history + AtRemoval(d, j)
    ensures
      var t := Apply(d, Step(j));
      |t.ops| == |t.replies| == |w.calls| && EntryExplained(t, Witness(w.calls, w.history + AtRemoval(d, j)), e)
  {
    RemovalShape(d, j);
    hide Inv, Enabled, Apply, Late, Abstract, Told, Legal, Replay, Holders, Times;
    if e.Did? {
      if e in w.history {
        assert EntryExplained(d, w, e);
      } else {
        HoldersAre(d.ops, d.ops[j].slot, |d.ops|, e);
      }
      assert OpExplained(d, w, e.op);
    }
  }

  lemma RemovalExplained<I, C, E, L>(d: Directory<I, C, E, L>, w: Witness<I, C, E, L>, j: nat)
    requires Explained(d, w) && Enabled(d, Step(j)) && Removing(d, j)
    ensures Explained(Apply(d, Step(j)), Observe(d, w, Step(j)))
  {
    RemovalShape(d, j);
    RemovalIsLegal(d, w, j);
    var t, u := Apply(d, Step(j)), Witness(w.calls, w.history + AtRemoval(d, j));
    assert u == Observe(d, w, Step(j));
    forall i | 0 <= i < |t.ops|
      ensures |t.ops| == |t.replies| == |w.calls| && OpExplained(t, u, i)
    {
      RemovalDecides(d, w, j, i);
    }
    forall e <- u.history
      ensures |t.ops| == |t.replies| == |w.calls| && EntryExplained(t, u, e)
    {
      RemovalEntries(d, w, j, e);
    }
    hide Inv, Apply, Abstract, Legal, Replay, AtRemoval;
  }

  // ----- every other step -----

  /** The slot an operation looks up is mapped, and a mapped slot has not been removed. */
  lemma MappedIsNotRemoved<I, C, E, L>(d: Directory<I, C, E, L>, entity: I)
    requires Inv(d) && entity in d.entries
    ensures !d.slots[d.entries[entity]].removed
    ensures d.slots[d.entries[entity]].entity == entity
  {
    hide Tally, Balanced;
    assert SlotOk(d, d.entries[entity]);
  }

  lemma RemovedIsUnmapped<I, C, E, L>(d: Directory<I, C, E, L>, k: nat)
    requires Inv(d) && k < |d.slots|
    ensures if d.slots[k].removed then d.slots[k].State().Inactive? && forall id <- d.entries :: d.entries[id] != k
      else d.slots[k].entity in d.entries && d.entries[d.slots[k].entity] == k
  {
    hide Tally, Balanced;
    assert SlotOk(d, k);
  }

  /** Operations keep the slot they hold, so a new slot at the end decides nobody. */
  lemma NewSlotDecidesNobody<I, C, E, L>(d: Directory<I, C, E, L>, t: Directory<I, C, E, L>, i: nat)
    requires Inv(d) && i < |d.ops| == |d.replies| && i < |t.ops| == |t.replies|
    requires d.slots <= t.slots && t.ops[i] == d.ops[i] && t.replies[i] == d.replies[i]
    ensures Decided(t, i) == Decided(d, i)
  {
    hide SlotOk, Balanced, Told;
    assert OpOk(d, d.ops[i]);
    assert d.ops[i].Holding? ==> t.slots[d.ops[i].slot] == d.slots[d.ops[i].slot];
  }

  lemma MapNewSlot<I, C, E, L>(d: Directory<I, C, E, L>, t: Directory<I, C, E, L>, entity: I)
    requires Inv(d) && Inv(t) && d.slots <= t.slots && |t.slots| == |d.slots| + 1
    requires t.entries == d.entries[entity := |d.slots|]
    ensures Abstract(t).states == Abstract(d).states[entity := t.slots[|d.slots|].State()]
  {
    hide SlotOk, Balanced, OpOk;
  }

  lemma ChangeSlot<I, C, E, L>(d: Directory<I, C, E, L>, t: Directory<I, C, E, L>, k: nat)
    requires Inv(d) && Inv(t) && k < |d.slots| == |t.slots| && t.slots == d.slots[k := t.slots[k]] && t.entries == d.entries
    ensures d.slots[k].entity in d.entries && d.entries[d.slots[k].entity] == k ==>
      Abstract(t).states == Abstract(d).states[d.slots[k].entity := t.slots[k].State()]
    ensures (forall id <- d.entries :: d.entries[id] != k) ==> Abstract(t).states == Abstract(d).states
  {
    hide SlotOk, Balanced, OpOk;
  }

  /** A claim maps the entity to the state the claim decided. */
  lemma ClaimIsAtomic<I, C, E, L>(d: Directory<I, C, E, L>, j: nat)
    requires Inv(d) && Enabled(d, Step(j)) && d.ops[j].DispatchLookup? && d.ops[j].entity !in d.entries
    ensures
      var t := Apply(d, Step(j));
      && Inv(t) && t.replies[j].Some?
      && Perform(Abstract(d), RequestOf(d.ops[j]).value, d.waiterLimit) == (t.replies[j].value, Abstract(t))
      && forall i :: 0 <= i < |d.ops| && i != j ==> Decided(t, i) == Decided(d, i)
  {
    StepKeepsInv(d, Step(j));
    var t := Apply(d, Step(j));
    assert d.slots <= t.slots;
    if t.slots != d.slots {
      MapNewSlot(d, t, d.ops[j].entity);
    }
    assert Perform(Abstract(d), RequestOf(d.ops[j]).value, d.waiterLimit) == (t.replies[j].value, Abstract(t)) by {
      hide SlotOk, Balanced, OpOk, Tally, Transition;
    }
    hide Transition, Perform, Decided, Abstract, SlotOk, Balanced, OpOk;
    forall i | 0 <= i < |d.ops| && i != j
      ensures Decided(t, i) == Decided(d, i)
    {
      NewSlotDecidesNobody(d, t, i);
    }
  }

  /** Finding a mapped slot decides nothing yet: a mapped slot has not been removed. */
  lemma FoundExplained<I, C, E, L>(d: Directory<I, C, E, L>, w: Witness<I, C, E, L>, j: nat)
    requires Explained(d, w) && Enabled(d, Step(j)) && (d.ops[j].DispatchLookup? || d.ops[j].Lookup?)
    requires d.ops[j].entity in d.entries
    ensures Explained(Apply(d, Step(j)), Observe(d, w, Step(j)))
  {
    StepKeepsInv(d, Step(j));
    var t, op := Apply(d, Step(j)), d.ops[j];
    assert OpExplained(d, w, j);
    MappedIsNotRemoved(d, op.entity);
    assert t == d.(ops := t.ops) && t.ops == d.ops[j := t.ops[j]] && RequestOf(t.ops[j]) == RequestOf(op);
    assert Effect(d, Step(j)) == [] && w.history + [] == w.history;
    hide Apply, Effect, SlotOk, Balanced, OpOk, Tally, Explained, OpExplained, EntryExplained, Legal, Replay, Times, Told;
    QuietStep(d, t, w, j);
  }

  lemma AbsentFactIsAtomic<I, C, E, L>(d: Directory<I, C, E, L>, j: nat)
    requires Inv(d) && Enabled(d, Step(j)) && d.ops[j].Lookup? && d.ops[j].entity !in d.entries
    ensures
      var t := Apply(d, Step(j));
      && Inv(t) && t.replies[j].Some?
      && Perform(Abstract(d), RequestOf(d.ops[j]).value, d.waiterLimit) == (t.replies[j].value, Abstract(t))
      && forall i :: 0 <= i < |d.ops| && i != j ==> Decided(t, i) == Decided(d, i)
  {
    StepKeepsInv(d, Step(j));
    hide SlotOk, Balanced, OpOk, Tally, Transition;
  }

  lemma AbsentExplained<I, C, E, L>(d: Directory<I, C, E, L>, w: Witness<I, C, E, L>, j: nat)
    requires Explained(d, w) && Enabled(d, Step(j)) && (d.ops[j].DispatchLookup? || d.ops[j].Lookup?)
    requires d.ops[j].entity !in d.entries
    ensures Explained(Apply(d, Step(j)), Observe(d, w, Step(j)))
  {
    var t, op := Apply(d, Step(j)), d.ops[j];
    if op.DispatchLookup? {
      ClaimIsAtomic(d, j);
    } else {
      AbsentFactIsAtomic(d, j);
    }
    AbsentDecides(d, w, j);
    hide Apply, Effect, Explained, Perform, Abstract, Inv, Decided, RequestOf;
    DecidingStep(d, t, w, j, RequestOf(op).value, t.replies[j].value);
  }

  lemma AbsentDecides<I, C, E, L>(d: Directory<I, C, E, L>, w: Witness<I, C, E, L>, j: nat)
    requires Explained(d, w) && Enabled(d, Step(j)) && (d.ops[j].DispatchLookup? || d.ops[j].Lookup?)
    requires d.ops[j].entity !in d.entries
    ensures
      var t, q := Apply(d, Step(j)), RequestOf(d.ops[j]);
      && |t.ops| == |d.ops| == |d.replies| == |t.replies| && t.waiterLimit == d.waiterLimit
      && q.Some? && Decided(d, j).None? && RequestOf(t.ops[j]).None?
      && t.replies[j].Some? && Decided(t, j) == t.replies[j]
      && (forall i :: 0 <= i < |d.ops| && i != j ==> t.ops[i] == d.ops[i] && t.replies[i] == d.replies[i])
      && Observe(d, w, Step(j)).history == w.history + [Did(j, q.value, t.replies[j].value)]
      && Observe(d, w, Step(j)).calls == w.calls
  {
    assert OpExplained(d, w, j);
    hide Explained, Transition;
    assert Inv(d) by { assert Explained(d, w); }
  }

  /** A submission to a slot that is still mapped is the atomic decision; one to a removed slot
      gets the answer it was bound to and changes nothing. */
  lemma SubmitIsAtomic<I, C, E, L>(d: Directory<I, C, E, L>, j: nat)
    requires Inv(d) && Enabled(d, Step(j)) && d.ops[j].Holding?
    ensures
      var t, k := Apply(d, Step(j)), d.ops[j].slot;
      && Inv(t) && t.replies[j].Some? && t.waiterLimit == d.waiterLimit
      && (d.slots[k].removed ==> Abstract(t) == Abstract(d) && t.replies[j] == Decided(d, j))
      && (!d.slots[k].removed ==>
           Perform(Abstract(d), RequestOf(d.ops[j]).value, d.waiterLimit) == (t.replies[j].value, Abstract(t)))
      && Decided(t, j) == t.replies[j]
      && (forall i :: 0 <= i < |d.ops| && i != j ==> Decided(t, i) == Decided(d, i))
  {
    StepKeepsInv(d, Step(j));
    var t, k := Apply(d, Step(j)), d.ops[j].slot;
    RemovedIsUnmapped(d, k);
    assert d.slots[k].entity == d.ops[j].entity && !d.ops[j].event.ClaimActivation? by {
      assert OpOk(d, d.ops[j]);
    }
    InactiveKeeps(d.ops[j].event);
    ChangeSlot(d, t, k);
    hide SlotOk, Balanced, OpOk, Tally, Transition;
  }

  lemma SubmitExplained<I, C, E, L>(d: Directory<I, C, E, L>, w: Witness<I, C, E, L>, j: nat)
    requires Explained(d, w) && Enabled(d, Step(j)) && d.ops[j].Holding?
    ensures Explained(Apply(d, Step(j)), Observe(d, w, Step(j)))
  {
    SubmitIsAtomic(d, j);
    var t, op := Apply(d, Step(j)), d.ops[j];
    assert OpExplained(d, w, j);
    hide Inv, Tally, Transition, Explained, OpExplained, EntryExplained, Legal, Replay, Times, Abstract;
    if d.slots[op.slot].removed {
      QuietStep(d, t, w, j);
      assert w.history + [] == w.history;
    } else {
      DecidingStep(d, t, w, j, RequestOf(op).value, t.replies[j].value);
    }
  }

  /** Taking turns at a queue, and interpreting anything but a removal, changes no slot's state. */
  lemma DispatcherShape<I, C, E, L>(d: Directory<I, C, E, L>, j: nat)
    requires Inv(d) && Enabled(d, Step(j)) && !Removing(d, j)
    requires d.ops[j].Interpret? || d.ops[j].Owning? || d.ops[j].Transient?
    ensures
      var t := Apply(d, Step(j));
      && t.waiterLimit == d.waiterLimit && t.entries == d.entries && t.nextActivation == d.nextActivation && t.replies == d.replies
      && |t.ops| == |d.ops| && (forall i :: 0 <= i < |d.ops| && i != j ==> t.ops[i] == d.ops[i])
      && (t.ops[j].Owning? || t.ops[j].Transient? || t.ops[j].Done?)
      && |t.slots| == |d.slots|
      && forall k :: 0 <= k < |d.slots| ==> t.slots[k].State() == d.slots[k].State() && t.slots[k].removed == d.slots[k].removed
  {
    hide SlotOk, Balanced, OpOk;
  }

  lemma SameStates<I, C, E, L>(d: Directory<I, C, E, L>, t: Directory<I, C, E, L>)
    requires Inv(d) && Inv(t) && t.entries == d.entries && |t.slots| == |d.slots| && t.nextActivation == d.nextActivation
    requires forall k :: 0 <= k < |d.slots| ==> t.slots[k].State() == d.slots[k].State()
    ensures Abstract(t) == Abstract(d)
  {
    hide SlotOk, Balanced, OpOk;
    assert Abstract(t).states == Abstract(d).states;
  }

  lemma DispatcherExplained<I, C, E, L>(d: Directory<I, C, E, L>, w: Witness<I, C, E, L>, j: nat)
    requires Explained(d, w) && Enabled(d, Step(j)) && !Removing(d, j)
    requires d.ops[j].Interpret? || d.ops[j].Owning? || d.ops[j].Transient?
    ensures Explained(Apply(d, Step(j)), Observe(d, w, Step(j)))
  {
    StepKeepsInv(d, Step(j));
    DispatcherShape(d, j);
    var t := Apply(d, Step(j));
    assert OpExplained(d, w, j);
    assert Effect(d, Step(j)) == [] && w.history + [] == w.history;
    SameStates(d, t);
    hide SlotOk, Balanced, OpOk, Tally, Apply, Effect, Removing, Explained, OpExplained, EntryExplained, Legal, Replay, Times, Told, Abstract;
    QuietStep(d, t, w, j);
  }

  lemma StepExplained<I, C, E, L>(d: Directory<I, C, E, L>, w: Witness<I, C, E, L>, a: Action<I, C, E, L>)
    requires Explained(d, w) && Enabled(d, a)
    ensures Explained(Apply(d, a), Observe(d, w, a))
  {
    hide Explained, Apply, Observe;
    if !a.Step? {
      CallExplained(d, w, a);
    } else {
      match d.ops[a.op] {
        case DispatchLookup(entity, _, _) =>
          if entity in d.entries {
            FoundExplained(d, w, a.op);
          } else {
            AbsentExplained(d, w, a.op);
          }
        case Lookup(entity, _) =>
          if entity in d.entries {
            FoundExplained(d, w, a.op);
          } else {
            AbsentExplained(d, w, a.op);
          }
        case Holding(_, _, _) => SubmitExplained(d, w, a.op);
        case Interpret(_, _) => DispatcherExplained(d, w, a.op);
        case Transient(_, _) => DispatcherExplained(d, w, a.op);
        case Owning(_, _, _) =>
          if Removing(d, a.op) {
            RemovalExplained(d, w, a.op);
          } else {
            DispatcherExplained(d, w, a.op);
          }
      }
    }
  }

  // ----- linearizability -----

  function Nothing<I, C, E, L>(): Witness<I, C, E, L> {
    Witness([], [])
  }

  lemma {:induction false} RunExplained<I, C, E, L>(d: Directory<I, C, E, L>, w: Witness<I, C, E, L>, run: seq<Action<I, C, E, L>>)
    requires Explained(d, w) && ValidRun(d, run)
    ensures Explained(After(d, run), Explain(d, w, run)) && After(d, run).waiterLimit == d.waiterLimit
    decreases |run|
  {
    hide Explained, Enabled, Observe;
    if run != [] {
      StepExplained(d, w, run[0]);
      LimitStays(d, run[0]);
      hide Apply;
      RunExplained(Apply(d, run[0]), Observe(d, w, run[0]), run[1..]);
    }
  }

  lemma LimitStays<I, C, E, L>(d: Directory<I, C, E, L>, a: Action<I, C, E, L>)
    requires Enabled(d, a)
    ensures Apply(d, a).waiterLimit == d.waiterLimit
  {
    hide Transition;
  }

  lemma StartExplained<I, C, E, L>(limit: Positive)
    ensures Explained(Start<I, C, E, L>(limit), Nothing())
  {
    StartInv<I, C, E, L>(limit);
    assert Abstract(Start<I, C, E, L>(limit)).states == map[];
  }

  /** Linearizability: every run has a legal sequential history of the atomic map that ends in
      the map the directory stands for, in which every answered call appears exactly once, as it
      was called and answered, and nothing appears that was not called. */
  lemma EveryRunIsAtomic<I, C, E, L>(limit: Positive, run: seq<Action<I, C, E, L>>)
    requires ValidRun(Start(limit), run)
    ensures
      var d, w := After(Start(limit), run), Explain(Start(limit), Nothing(), run);
      && Inv(d) && |w.calls| == |d.ops| == |d.replies|
      && Legal(w.history, limit) && Replay(w.history, limit) == Abstract(d)
      && (forall j :: 0 <= j < |d.ops| ==> OnceAsAnswered(d, w, j))
      && (forall e <- w.history :: e.Did? ==> e.op < |d.ops| && w.calls[e.op] == Some(e.request))
  {
    StartExplained<I, C, E, L>(limit);
    RunExplained(Start(limit), Nothing(), run);
    var d, w := After(Start(limit), run), Explain(Start(limit), Nothing(), run);
    forall j | 0 <= j < |d.ops|
      ensures OnceAsAnswered(d, w, j)
    {
      AnsweredOnce(d, w, j);
    }
    forall e <- w.history
      ensures e.Did? ==> e.op < |d.ops| && w.calls[e.op] == Some(e.request)
    {
      assert EntryExplained(d, w, e);
    }
    hide Inv, Legal, Replay, Abstract, ValidRun, After, Explain, Tally;
  }

  /** Operation `j` appears at most once, and once it is answered, as it was called and answered. */
  ghost predicate OnceAsAnswered<I, C, E, L>(d: Directory<I, C, E, L>, w: Witness<I, C, E, L>, j: nat)
    requires j < |d.replies| == |w.calls|
  {
    && Times(w, j) <= 1
    && (d.replies[j].Some? && w.calls[j].Some? ==>
         Times(w, j) == 1 && Did(j, w.calls[j].value, d.replies[j].value) in w.history)
  }

  lemma AnsweredOnce<I, C, E, L>(d: Directory<I, C, E, L>, w: Witness<I, C, E, L>, j: nat)
    requires Explained(d, w) && j < |d.ops|
    ensures |d.replies| == |w.calls| && OnceAsAnswered(d, w, j)
  {
    hide SlotOk, Balanced, OpOk, Legal, Replay, Abstract, Tally;
    assert OpExplained(d, w, j);
    if d.replies[j].Some? && w.calls[j].Some? {
      var i := TallyFind(w.history, (DidOf<I, C, E, L>), j);
      assert EntryExplained(d, w, w.history[i]);
    }
  }

  // ----- real time -----

  lemma {:induction false} RunsCompose<I, C, E, L>(
      d: Directory<I, C, E, L>, w: Witness<I, C, E, L>, a: seq<Action<I, C, E, L>>, b: seq<Action<I, C, E, L>>)
    requires ValidRun(d, a) && ValidRun(After(d, a), b)
    ensures ValidRun(d, a + b) && After(d, a + b) == After(After(d, a), b)
    ensures Explain(d, w, a + b) == Explain(After(d, a), Explain(d, w, a), b)
    decreases |a|
  {
    hide Apply, Enabled, Observe;
    if a == [] {
      assert a + b == b;
    } else {
      RunsCompose(Apply(d, a[0]), Observe(d, w, a[0]), a[1..], b);
      assert (a + b)[0] == a[0] && (a + b)[1..] == a[1..] + b;
    }
  }

  lemma {:induction false} HistoryGrows<I, C, E, L>(d: Directory<I, C, E, L>, w: Witness<I, C, E, L>, run: seq<Action<I, C, E, L>>)
    requires ValidRun(d, run)
    ensures w.history <= Explain(d, w, run).history
    decreases |run|
  {
    hide Apply, Enabled, Effect;
    if run != [] {
      HistoryGrows(Apply(d, run[0]), Observe(d, w, run[0]), run[1..]);
    }
  }

  predicate DidAt<I, C, E, L>(h: seq<Entry<I, C, E, L>>, m: nat, op: nat) {
    m < |h| && h[m].Did? && h[m].op == op
  }

  lemma EarlierEntry<I, C, E, L>(h: seq<Entry<I, C, E, L>>, full: seq<Entry<I, C, E, L>>, i: nat, j: nat)
    requires h <= full && (exists e :: e in h && e.Did? && e.op == i) && forall e <- h :: e.Did? ==> e.op != j
    requires Tally(full, (DidOf<I, C, E, L>), i) <= 1
    ensures exists m: nat :: DidAt(full, m, i)
    ensures forall m: nat, n: nat :: DidAt(full, m, i) && DidAt(full, n, j) ==> m < n
  {
    var p :| 0 <= p < |h| && h[p].Did? && h[p].op == i;
    assert forall n :: 0 <= n < |h| ==> full[n] == h[n] && h[n] in h;
    assert DidAt(full, p, i);
    forall m: nat | DidAt(full, m, i)
      ensures m == p
    {
      if m != p {
        TallyTwo(full, m, p, (DidOf<I, C, E, L>), i);
      }
    }
  }

  /** Real time is respected: if operation `i` was answered before `j` was called, `i` takes
      effect before `j` in the history of the whole run. */
  lemma RealTimeOrder<I, C, E, L>(limit: Positive, a: seq<Action<I, C, E, L>>, b: seq<Action<I, C, E, L>>, i: nat, j: nat)
    requires ValidRun(Start(limit), a) && ValidRun(After(Start(limit), a), b)
    requires i < |After(Start(limit), a).ops| <= j && i < |After(Start(limit), a).replies|
    requires After(Start(limit), a).replies[i].Some? && CalledWith(limit, a, i)
    ensures ValidRun(Start(limit), a + b)
    ensures
      var h := Explain(Start(limit), Nothing(), a + b).history;
      (exists m: nat :: DidAt(h, m, i)) && forall m: nat, n: nat :: DidAt(h, m, i) && DidAt(h, n, j) ==> m < n
  {
    var s := Start<I, C, E, L>(limit);
    var d, w := After(s, a), Explain(s, Nothing(), a);
    RunsCompose(s, Nothing(), a, b);
    HistoryGrows(d, w, b);
    EveryRunIsAtomic(limit, a);
    EveryRunIsAtomic(limit, a + b);
    StartExplained<I, C, E, L>(limit);
    RunExplained(s, Nothing(), a + b);
    var u := Explain(s, Nothing(), a + b);
    hide Inv, Legal, Replay, Abstract, ValidRun, After, Explain, Tally;
    assert OnceAsAnswered(d, w, i) && OnceAsAnswered(After(s, a + b), u, i);
    EarlierEntry(w.history, u.history, i, j);
  }

  /** Operation `i` of the run was admitted past the allocation of its dispatch identity. */
  predicate CalledWith<I(==), C, E, L>(limit: Positive, run: seq<Action<I, C, E, L>>, i: nat)
    requires ValidRun(Start<I, C, E, L>(limit), run)
  {
    var w := Explain(Start(limit), Nothing(), run);
    i < |w.calls| && w.calls[i].Some?
  }

  /** An event for an absent entity is decided exactly as a freshly allocated slot would decide
      it and be discarded: same reply, nothing to remove, and the slot would still be inactive. */
  lemma AbsentIsAFreshSlot<I, C, E, L>(entity: I, g: Identity, event: SlotEvent<C, E, L>)
    requires !event.ClaimActivation?
    ensures
      var slot := SubmitTo(NewSlot<I, C, E, L>(entity, g), event);
      && slot.State().Inactive? && |slot.executor.outputs| == 1
      && Told(EntitySlot.Inactive, event) == Installed(slot.executor.outputs[0])
      && Removes(slot.executor.outputs[0].effects) == 0
  {
    DecisionFacts(EntitySlot<C, E, L>.Inactive, event, g);
    hide Transition;
  }

  // ----- what a legal reply tells -----

  /** The state of an entity, inactive when it is not mapped. */
  function StateOf<I(==), C, E, L>(m: Atomic<I, C, E, L>, entity: I): EntitySlot<C, E, L> {
    if entity in m.states then m.states[entity] else EntitySlot.Inactive
  }

  /** A reply is fixed by the map before and after: it names the activation the entity then has, and
      the edge its state took, or the phase it kept. */
  lemma LegalRepliesTellTheMap<I, C, E, L>(m: Atomic<I, C, E, L>, q: Request<I, C, E, L>, limit: Positive)
    ensures
      var (reply, after) := Perform(m, q, limit);
      var before, next := StateOf(m, q.entity), StateOf(after, q.entity);
      && (forall other <- after.states :: other != q.entity ==> other in m.states && after.states[other] == m.states[other])
      && if !reply.Installed? then
           q.Dispatching? && reply == ActivationIdsExhausted(q.command) && q.entity !in m.states && after == m
         else if q.entity in after.states then
           && reply.output.activationId == (if next.Inactive? then None else Some(next.activationId))
           && match reply.output.evidence
              case Traversed(edge) => !SamePhase(before, next) && (if q.Reporting? then IsEdge(edge, before, q.fact, next) else edge.ClaimActivation? && q.entity !in m.states)
              case SelfLoop(phase, _) => SamePhase(before, next) && IsPhase(before, phase)
              case Ignored(phase, _) => SamePhase(before, next) && IsPhase(before, phase)
         else
           q.Reporting? && reply.output == Transition(EntitySlot.Inactive, q.fact).0 && after == m
  {
    var before := StateOf(m, q.entity);
    var event := match q
      case Reporting(_, fact) => fact
      case Dispatching(_, d, command) =>
        if q.entity in m.states || !(1 <= m.nextActivation < MAX_U64) then SlotEvent.Dispatch(d, command)
        else SlotEvent.ClaimActivation(m.nextActivation, d, command, limit);
    PhaseMoves(before, event);
    PhaseIsNamed(before, event);
    CurrentIs(Reduce(before, event).state);
    EdgeLeaves(before, event);
    hide Reduce, IsPhase, SamePhase, EdgeTaken, Handles;
  }

  lemma CurrentIs<C, E, L>(state: EntitySlot<C, E, L>)
    ensures state.Current() == if state.Inactive? then None else Some(state.activationId)
  {}

  lemma EdgeLeaves<C, E, L>(state: EntitySlot<C, E, L>, event: SlotEvent<C, E, L>)
    ensures var next := Reduce(state, event).state; next.Phase() != state.Phase() ==> !SamePhase(state, next)
  {
    hide Reduce;
  }
}
