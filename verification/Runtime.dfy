/** The asynchronous runtime over the directory: effects spawn tasks, every task ends by
    submitting exactly one fact, and each dispatch has a completion cell. */
module Runtime {
  import opened Common
  import opened Lifecycle
  import opened Evidence
  import D = Directory

  /** A command travelling with the completion of its dispatch. */
  datatype PendingCommand<C> = PendingCommand(command: C, cell: Identity)

  datatype Outcome<C> = Delivered | Refused(command: C, reason: Refusal)

  /** One dispatch's completion: written at most once, taken at most once. */
  datatype Cell<C> = Awaiting | Ready(result: Outcome<C>) | Consumed(result: Outcome<C>)

  /** The first result wins; a later one is dropped. */
  function Completed<C>(cell: Cell<C>, result: Outcome<C>): Cell<C> {
    if cell.Awaiting? then Ready(result) else cell
  }

  /** A spawned task awaiting the actor runtime. */
  datatype Task<I, C, E, L> =
    | Activate(entity: I, activationId: Identity)
    | DeliverOne(entity: I, activationId: Identity, dispatchId: Identity, endpoint: E, pending: PendingCommand<C>)
    | AwaitFence(entity: I, activationId: Identity, endpoint: E)
    | AwaitTermination(entity: I, activationId: Identity, lease: L, retirement: RetirementMode)
    | Finished

  datatype FenceFailure = Enqueue | Acknowledgement

  /** What the actor runtime answers a task. A failed delivery returns the command it was given. */
  datatype Answer<E, L> =
    | Activated(endpoint: E, lease: L)
    | ActivationError
    | DeliveryOk
    | DeliveryError
    | FenceOk
    | FenceError(failure: FenceFailure)
    | Retired

  /** How a command or a lease left the runtime. */
  datatype Fate<C, L> =
    | CommandDelivered(dispatchId: Identity, pending: PendingCommand<C>)
    | CommandRefused(dispatchId: Identity, pending: PendingCommand<C>, reason: Refusal)
    | CommandDiscarded(dispatchId: Identity, pending: PendingCommand<C>)
    | CommandReturned(dispatchId: Identity, pending: PendingCommand<C>)   // identities exhausted
    | LeaseRetired(lease: L)

  datatype Grant<C, L> = CommandIssued(dispatchId: Identity, pending: PendingCommand<C>) | LeaseGranted(lease: L)

  /** A dispatch future: the entity it addressed and its directory operation. */
  datatype Wait<I> = Wait(entity: I, op: nat)

  datatype Runtime<I, C, E, L> = Runtime(
    dir: D.Directory<I, PendingCommand<C>, E, L>,
    tasks: seq<Task<I, C, E, L>>,
    cells: map<Identity, Cell<C>>,
    waits: map<Identity, Wait<I>>,      // live dispatch futures
    granted: seq<Grant<C, L>>,          // commands and leases that entered, in order
    settled: seq<Fate<C, L>>)           // commands and leases that left, in order

  datatype Action<I, C, E, L> =
    | Dispatch(entity: I, command: C)
    | Passivate(entity: I)
    | DropWait(dispatchId: Identity)
    | Poll(dispatchId: Identity)
    | DirectoryStep(op: nat)
    | Finish(task: nat, answer: Answer<E, L>)

  predicate External<I, C, E, L>(a: Action<I, C, E, L>) {
    a.Dispatch? || a.Passivate? || a.DropWait? || a.Poll?
  }

  predicate Answers<I, C, E, L>(task: Task<I, C, E, L>, answer: Answer<E, L>) {
    match task
    case Activate(_, _) => answer.Activated? || answer.ActivationError?
    case DeliverOne(_, _, _, _, _) => answer.DeliveryOk? || answer.DeliveryError?
    case AwaitFence(_, _, _) => answer.FenceOk? || answer.FenceError?
    case AwaitTermination(_, _, _, _) => answer.Retired?
    case Finished => false
  }

  function Start<I, C, E, L>(waiterLimit: Positive): Runtime<I, C, E, L> {
    Runtime(D.Start(waiterLimit), [], map[], map[], [], [])
  }

  predicate Enabled<I, C, E, L>(r: Runtime<I, C, E, L>, a: Action<I, C, E, L>) {
    match a
    case Dispatch(_, _) => 1 <= r.dir.nextDispatch <= MAX_U64
    case Passivate(entity) => entity in r.dir.entries ==> r.dir.entries[entity] < |r.dir.slots|
    case DropWait(d) =>
      d in r.waits && r.waits[d].op < |r.dir.ops| == |r.dir.replies| && r.dir.ops[r.waits[d].op].Done?
    case Poll(d) => d in r.waits
    case DirectoryStep(j) => D.Enabled(r.dir, D.Step(j))
    case Finish(i, answer) => i < |r.tasks| && Answers(r.tasks[i], answer)
  }

  /** The facts a task's answer becomes. */
  function Fact<I, C, E, L>(task: Task<I, C, E, L>, answer: Answer<E, L>): SlotEvent<PendingCommand<C>, E, L>
    requires Answers(task, answer)
  {
    var g := task.activationId;
    match answer
    case Activated(endpoint, lease) => SlotEvent.ActivationSucceeded(g, endpoint, lease)
    case ActivationError => SlotEvent.ActivationFailed(g)
    case DeliveryOk => SlotEvent.DeliveryResolved(g, None)
    case DeliveryError => SlotEvent.DeliveryResolved(g, Some(Returned(task.dispatchId, task.pending)))
    case FenceOk => SlotEvent.FenceAcknowledged(g)
    case FenceError(failure) =>
      SlotEvent.ForceDrain(g, DrainFailure(if failure.Enqueue? then FenceEnqueue else FenceAcknowledgement, 0))
    case Retired => SlotEvent.Terminated(g)
  }

  function SetCell<C>(cells: map<Identity, Cell<C>>, cell: Identity, result: Outcome<C>): map<Identity, Cell<C>> {
    if cell in cells then cells[cell := Completed(cells[cell], result)] else cells
  }

  /** Interpret one effect the directory hands over. */
  function Interpret<I, C, E, L>(r: Runtime<I, C, E, L>, entity: I, effect: SlotEffect<PendingCommand<C>, E, L>): Runtime<I, C, E, L> {
    match effect
    case StartActivation(g) => r.(tasks := r.tasks + [Activate(entity, g)])
    case Deliver(g, d, endpoint, pending) => r.(tasks := r.tasks + [DeliverOne(entity, g, d, endpoint, pending)])
    case Reject(d, pending, reason) =>
      r.(cells := SetCell(r.cells, pending.cell, Refused(pending.command, reason)),
         settled := r.settled + [CommandRefused(d, pending, reason)])
    case EnqueueFence(g, endpoint) => r.(tasks := r.tasks + [AwaitFence(entity, g, endpoint)])
    case Retire(g, lease, retirement) => r.(tasks := r.tasks + [AwaitTermination(entity, g, lease, retirement)])
    case Remove(_) => r
  }

  /** The waiters a current cancellation drops, with their commands. */
  function DiscardedBy<C, L>(waiters: seq<Waiter<PendingCommand<C>>>, d: Identity): seq<Fate<C, L>> {
    if waiters == [] then []
    else
      var n := |waiters| - 1;
      DiscardedBy(waiters[..n], d) +
      if waiters[n].dispatchId == d then [CommandDiscarded(d, waiters[n].command)] else []
  }

  /** What a directory step settles by itself: cancelled waiters, and a command returned
      because activation identities ran out. */
  function SettledBy<I(==), C, E, L>(dir: D.Directory<I, PendingCommand<C>, E, L>, j: nat): seq<Fate<C, L>>
    requires D.Enabled(dir, D.Step(j))
  {
    match dir.ops[j]
    case Holding(_, k, CancelWaiter(g, d)) =>
      var state := dir.slots[k].State();
      if state.Activating? && state.activationId == g then DiscardedBy(state.waiters, d) else []
    case DispatchLookup(entity, d, pending) =>
      if entity !in dir.entries && dir.nextActivation >= MAX_U64 then [CommandReturned(d, pending)] else []
    case _ => []
  }

  /** The activation a dispatch future would cancel under, from its directory reply. */
  function WaitActivation<C, E, L>(reply: Option<D.Reply<C, E, L>>): Option<Identity> {
    if reply.Some? && reply.value.Installed? then reply.value.output.activationId else None
  }

  function Submit<I(==), C, E, L>(r: Runtime<I, C, E, L>, entity: I, event: SlotEvent<PendingCommand<C>, E, L>): Runtime<I, C, E, L>
    requires !event.ClaimActivation? && !event.Dispatch?
  {
    r.(dir := D.Apply(r.dir, D.Call(entity, event)))
  }

  /** A call of dispatch up to its identity allocation. */
  function ApplyDispatch<I(==), C, E, L>(r: Runtime<I, C, E, L>, entity: I, command: C): Runtime<I, C, E, L>
    requires Enabled(r, Action.Dispatch(entity, command))
  {
    var d := r.dir.nextDispatch;
    var pending := PendingCommand(command, d);
    var called := r.(dir := D.Apply(r.dir, D.CallDispatch(entity, pending)));
    if d == MAX_U64 then called
    else called.(
      cells := r.cells[d := Awaiting],
      waits := r.waits[d := Wait(entity, |r.dir.ops|)],
      granted := r.granted + [CommandIssued(d, pending)])
  }

  /** Passivation observes the current incarnation and asks for exactly that one to drain. */
  function ApplyPassivate<I(==), C, E, L>(r: Runtime<I, C, E, L>, entity: I): Runtime<I, C, E, L>
    requires Enabled(r, Passivate(entity))
  {
    var current := D.CurrentActivation(r.dir, entity);
    if current.None? then r else Submit(r, entity, SlotEvent.BeginDrain(current.value))
  }

  /** Dropping a dispatch future cancels its command while it may still be a waiter. */
  function ApplyDrop<I(==), C, E, L>(r: Runtime<I, C, E, L>, d: Identity): Runtime<I, C, E, L>
    requires Enabled(r, DropWait(d))
  {
    var wait := r.waits[d];
    var dropped := r.(waits := r.waits - {d});
    var activation := WaitActivation(r.dir.replies[wait.op]);
    if (d in r.cells && r.cells[d].Consumed?) || activation.None? then dropped
    else Submit(dropped, wait.entity, SlotEvent.CancelWaiter(activation.value, d))
  }

  function ApplyPoll<I, C, E, L>(r: Runtime<I, C, E, L>, d: Identity): Runtime<I, C, E, L> {
    if d in r.cells && r.cells[d].Ready? then r.(cells := r.cells[d := Consumed(r.cells[d].result)]) else r
  }

  /** One directory step, with the effect it hands over interpreted. */
  function ApplyStep<I(==), C, E, L>(r: Runtime<I, C, E, L>, j: nat): Runtime<I, C, E, L>
    requires Enabled(r, DirectoryStep(j))
  {
    var emitted := D.Emits(r.dir, D.Step(j));
    var stepped := r.(dir := D.Apply(r.dir, D.Step(j)), settled := r.settled + SettledBy(r.dir, j));
    if emitted.Some? then Interpret(stepped, emitted.value.0, emitted.value.1) else stepped
  }

  /** What a task does with its answer before it submits its fact. */
  function Conclude<I, C, E, L>(r: Runtime<I, C, E, L>, i: nat, answer: Answer<E, L>): Runtime<I, C, E, L>
    requires Enabled(r, Finish(i, answer))
  {
    var task := r.tasks[i];
    var done := r.(tasks := r.tasks[i := Finished]);
    match answer
    case Activated(_, lease) => done.(granted := r.granted + [LeaseGranted(lease)])
    case DeliveryOk =>
      done.(cells := SetCell(r.cells, task.pending.cell, Delivered),
            settled := r.settled + [CommandDelivered(task.dispatchId, task.pending)])
    case Retired => done.(settled := r.settled + [LeaseRetired(task.lease)])
    case _ => done
  }

  /** A task ends by submitting exactly one fact. */
  function ApplyFinish<I(==), C, E, L>(r: Runtime<I, C, E, L>, i: nat, answer: Answer<E, L>): Runtime<I, C, E, L>
    requires Enabled(r, Finish(i, answer))
  {
    Submit(Conclude(r, i, answer), r.tasks[i].entity, Fact(r.tasks[i], answer))
  }

  function Apply<I(==), C, E, L>(r: Runtime<I, C, E, L>, a: Action<I, C, E, L>): Runtime<I, C, E, L>
    requires Enabled(r, a)
  {
    match a
    case Dispatch(entity, command) => ApplyDispatch(r, entity, command)
    case Passivate(entity) => ApplyPassivate(r, entity)
    case DropWait(d) => ApplyDrop(r, d)
    case Poll(d) => ApplyPoll(r, d)
    case DirectoryStep(j) => ApplyStep(r, j)
    case Finish(i, answer) => ApplyFinish(r, i, answer)
  }
}
