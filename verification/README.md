# Verification of the local entity runtime

This project models the local entity runtime and proves what its layers promise, each on
top of the one below:

1. **The slot lifecycle** (`Lifecycle`, `Evidence`, `Decisions`, `Ledger`, `SlotRuns`, `DrainSafety`,
   `EffectBatch`): the reducer of one routing slot, five states by ten events, with
   generation checks, bounded waiters, reservation counting and the drain, fence and retire
   protocol; the checked evidence of each transition; exactly which effect and which evidence
   every decision has; and what holds over every list of facts. The parts that work in place (waiters pushed and retained, the three-form effect
   collection) are classes proved against the pure decision.
2. **The topology** (`Topology`, `LifecycleTopology`): the validator's loops over a fixed
   256-entry array, the declared lifecycle topology, and what accepting a topology says
   about reopening admission.
3. **The executors** (`Linearized`, `Serialized`, `SerializedRuns`, `SerializedObject`): every section a mutex
   protects is a class method, and every interleaving of those sections, with reentrant
   calls and panics, is a transition system.
4. **The directory** (`LocalDirectory`, `Directory`, `SlotHistories`, `Hindsight`): sharded storage as one
   flat map; every interleaving of lookups, submissions, dispatchers and removals, for
   arbitrary submitted facts; effect order per slot; and linearizability against one atomic map.
5. **The runtime** (`Runtime`, `RuntimeLedger`, `RuntimeFacts`, `Passivating`, `PassivatingRun`,
   `CommandFate`, `Provenance`, `DispatchFutures`, `Progress`, `Completion`): effects spawn tasks, every task
   ends in exactly one fact, every dispatch has a completion and a future. Tokens match slot states in
   every reachable state, every command has one fate and every fate its cause, a dropped future cancels
   exactly its own waiter, and every schedule ends with everything settled.

A system is a datatype with an `Enabled` predicate and an `Apply` function; a run is a list
of enabled actions, so "in every reachable state" is a statement about every list. Things
that may be outstanding (a task token, a command, a lease) are counted with `Tally`, and the
central invariant is a balance: what is outstanding plus what has been settled equals what
the slots wait for plus what was granted.

A panic is an outcome the environment chooses. Hashes, machines, handlers and the answers of
the actor runtime are arbitrary. Slots are identified by their position in the order of
allocation.

Four places where the code promises less than its documentation, with an input that shows it
and the exact condition under which the promise holds:

- `Passivation::AlreadyPassivating` is documented as a passivation of the exact incarnation
  (crates/entity/src/runtime.rs:41-42). A run in which it is a later incarnation's:
  `PassivationInProgressMayBeAnothers`. It is the observed one if and only if its slot was still
  mapped when the call looked it up: `AlreadyPassivatingIsExactIffStillMapped`.
- `DispatchOutcome::OwnedElsewhere` says queued outputs will be handled by the owner
  (crates/driver/src/lib.rs:483). The source itself excepts a panicking handler, after which a
  later call resumes (crates/driver/src/lib.rs:455-458); that a panic after the answer can strand outputs is
  `LaterPanicStrands`. But even with no later panic the promise can fail: in `HandlerPanicStrands`
  the owner is already unwinding at the answer. Short of a later panic, every run that ends
  has handled the queue if and only if the owner was not unwinding at the answer:
  `OwnedElsewhereHoldsExactly`. Any call made once nobody owns dispatch resumes: `LaterCallResumes`.
- Validating a lifecycle topology excludes direct reopening edges only. It excludes reopening
  paths if and only if the five phases are all the vertices:
  `ReopeningIsExcludedExactlyOverFivePhases`, with `DetourReopens` as the input.
- A fence follows the resolution of exactly the requested deliveries if and only if resolutions
  never outnumbered deliveries (`FenceFollowsEveryDelivery`); `FenceMayFollowSurplusResolutions`
  is a list of facts where they do. The bare directory interface leaves this to its callers; the
  runtime guarantees it (`FactsAreNeverStale`).

## Model

| member | source | states |
|---|---|---|
| Lifecycle.DecideAllSplits | crates/entity/src/lifecycle/mod.rs:503-514 | folding a list of facts splits at any point, the states composing and the effects concatenating |
| Evidence.PhaseChangeIsDeclared | crates/entity/src/lifecycle/machine.rs:313-318 | every executable change of phase matches a declared edge, so the lookup's panic is unreachable |
| Evidence.EvidenceIsFaithful | crates/entity/src/lifecycle/machine.rs:292-328 | a traversed edge is the only declared one with the observed endpoints, and an ignored input leaves the whole state alone and requests only cleanup; which inputs are ignored is Decisions.EvidenceExactly |
| Decisions.EvidenceExactly | crates/entity/src/lifecycle/mod.rs:534-568 | a change of phase is reported as its own edge; without one the phase and input are named, as a self-loop if and only if the input is a dispatch, a claim of a slot in some activation, or a fact that changes some slot in this phase of this activation, and as ignored otherwise |
| Decisions.StaleIsIgnored | crates/entity/src/lifecycle/machine.rs:297-312 | every fact about another activation is reported as ignored and leaves the state alone |
| Decisions.PhaseMoves | crates/entity/src/lifecycle/machine.rs:292-328 | a decision keeps phase and activation, or takes just the edge its fact names from its phase |
| Decisions.RefusedExactly | crates/entity/src/lifecycle/mod.rs:593-886 | a command is refused if and only if it is dispatched to an inactive, full, draining or retiring slot, claimed in an occupied one, returned by its delivery, or a waiter of a failed activation, each with its own reason |
| Decisions.RetiredExactly | crates/entity/src/lifecycle/mod.rs:927-980 | a lease is retired gracefully exactly on the acknowledgement of the awaited fence, forced with the failure a forced drain gives, and forced at once if its activation is not awaited |
| Decisions.DeliveredExactly | crates/entity/src/lifecycle/mod.rs:655-775 | a command is delivered exactly when it is dispatched to the active incarnation or waited for the activation that commits, to that endpoint |
| Decisions.ProtocolEffectsExactly | crates/entity/src/lifecycle/mod.rs:693-925 | a fence is requested exactly when the last reservation of a closed admission is gone, an activation exactly on a claim of the inactive slot, a removal exactly when activation fails or termination is reported |
| Evidence.DrainNeverReopens | crates/entity/src/lifecycle/mod.rs:834-886 | between a closed state and a later admitting one there is an inactive state and a fresh claim, in every run |
| Ledger.ReduceConserves | crates/entity/src/lifecycle/mod.rs:593-985 | every decision, of any state on any event, moves each command and each lease exactly once |
| Ledger.ReduceBalances | crates/entity/src/lifecycle/mod.rs:593-985 | an expected fact consumes its token and the decision requests exactly the tokens the new state waits for |
| SlotRuns.RunConserves | crates/entity/src/lifecycle/mod.rs:503-514 | over any list of facts every command and lease supplied is held, handed on in an effect, or discarded by its own cancellation |
| SlotRuns.LeasesAreAffine | crates/entity/src/lifecycle/mod.rs:655-691 | leases supplied by activations are those in Retire effects plus the at most one the final state holds, whatever stale activations arrive |
| SlotRuns.StaleOnlyCleansUp | crates/entity/src/lifecycle/mod.rs:958-985 | a fact about another activation changes nothing and returns only its command or retires only its lease |
| SlotRuns.ErasureKeepsState | crates/entity/src/lifecycle/retiring.rs:6-54 | deleting every stale fact from a run leaves the final state unchanged |
| SlotRuns.ErasureKeepsEffects | crates/entity/src/lifecycle/mod.rs:593-886 | deleting every stale fact deletes only cleanup effects; every other event keeps its effects |
| SlotRuns.WaitersAreSurvivors | crates/entity/src/lifecycle/mod.rs:593-653 | while activating, the waiters are exactly the admitted dispatches no later cancellation named, in arrival order, within the limit |
| SlotRuns.ActivationSettlesEveryWaiter | crates/entity/src/lifecycle/mod.rs:655-715 | commit delivers to, or failure refuses, exactly those waiters in order, with as many reservations as deliveries |
| SlotRuns.BusyExactlyWhenFull | crates/entity/src/lifecycle/mod.rs:598-614 | a dispatch to an activating slot is refused as busy exactly when the surviving waiters fill the limit |
| Decisions.FenceAndRemovalComeLast | crates/entity/src/lifecycle/mod.rs:693-925 | a fence or removal is the last effect of its decision, after every command given back |
| DrainSafety.EveryStepDrains | crates/entity/src/lifecycle/mod.rs:717-956 | the step relation of the drain protocol for one incarnation: when deliveries, fences and resolutions may happen and how they count (why a command is refused meanwhile is Decisions.RefusedExactly) |
| DrainSafety.EveryRunAccounts | crates/entity/src/lifecycle/mod.rs:777-925 | over whole runs, deliveries, resolutions and fences add up to the state's outstanding reservations, exactly when resolutions never outnumber deliveries |
| DrainSafety.NoDeliveryAfterDrain | crates/entity/src/lifecycle/mod.rs:804-832 | no delivery is requested for an incarnation after it has left its admitting states |
| DrainSafety.FenceFollowsEveryDelivery | crates/entity/src/lifecycle/mod.rs:888-925 | at most one fence, only when at least as many deliveries resolved as were requested, and exactly as many if and only if resolutions never outnumbered deliveries |
| DrainSafety.FenceMayFollowSurplusResolutions | crates/entity/src/lifecycle/mod.rs:777-802 | one delivery resolved twice before the drain: the fence is requested with more resolutions than deliveries |
| DrainSafety.GracefulFollowsFence | crates/entity/src/lifecycle/mod.rs:927-943 | graceful retirement answers the acknowledgement of that one fence |
| EffectBatch.StorageIsCanonical | crates/entity/src/lifecycle/mod.rs:355-364 | a sequence of effects has one storage form, chosen by its length |
| EffectBatch.SlotEffectBatch.Push | crates/entity/src/lifecycle/mod.rs:400-410 | pushing appends, whichever of the three forms is stored |
| EffectBatch.SlotEffectBatch.Extend | crates/entity/src/lifecycle/mod.rs:412-416 | extending appends the whole sequence in order |
| EffectBatch.SlotEffectBatch.Add | crates/entity/src/lifecycle/mod.rs:432-440 | adding concatenates the two collections |
| EffectBatch.SlotEffectBatch.IntoVec | crates/entity/src/lifecycle/mod.rs:383-389 | the list form is the ordered contents |
| EffectBatch.ActivatingSlot.RetainOthers | crates/entity/src/lifecycle/mod.rs:615-626 | retaining drops exactly the waiters of the cancelled dispatch |
| EffectBatch.ActivatingSlot.Finish | crates/entity/src/lifecycle/mod.rs:655-691 | the collected effects are one delivery per waiter in order, with that many reservations |
| EffectBatch.ActivatingSlot.Fail | crates/entity/src/lifecycle/mod.rs:693-715 | the collected effects are one refusal per waiter in order, then the removal |
| EffectBatch.ActivatingSlot.Decide | crates/entity/src/lifecycle/mod.rs:593-653 | the decision that updates waiters in place is the pure decision |
| EffectBatch.DecideEvery | crates/entity/src/lifecycle/mod.rs:503-514 | the accumulating loop over facts is the fold |
| Topology.FirstDefectIsUnique | crates/transition/src/machine.rs:92-97 | a topology has one first defect in checking order |
| Topology.CheckVertices | crates/transition/src/machine.rs:99-106 | reports the first repeated vertex identity, or that there is none |
| Topology.CheckEdges | crates/transition/src/machine.rs:110-122 | reports the first edge with a repeated source and trigger or an undeclared endpoint, in that order |
| Topology.Relax | crates/transition/src/machine.rs:125-131 | one round marks reachable vertices only, follows every edge out of the marks it started with, and adds nothing to closed marks |
| Topology.CheckReachability | crates/transition/src/machine.rs:123-138 | as many rounds as there are vertices reach closure for any edge order, and the first unreachable vertex is reported |
| Topology.Validate | crates/transition/src/machine.rs:98-138 | accepts exactly the well-formed topologies and otherwise names the first defect |
| LifecycleTopology.ValidateLifecycle | crates/entity/src/lifecycle/machine.rs:245-264 | accepts exactly the well-formed topologies with every required edge and no direct reopening edge, and otherwise names the first defect |
| LifecycleTopology.IdentitiesFollowDeclarationOrder | crates/entity/src/lifecycle/machine.rs:9-62 | phase and trigger identities number them in declaration order without gaps |
| LifecycleTopology.DeclaredTopologyIsThisGraph | crates/entity/src/lifecycle/machine.rs:181-224 | the declared topology spelled out: its name, initial vertex, five labelled vertices and seven labelled transitions |
| LifecycleTopology.DeclaredTopologyIsAccepted | crates/entity/src/lifecycle/machine.rs:216-222 | the declared lifecycle topology passes both validations |
| LifecycleTopology.RunsArePaths | crates/entity/src/lifecycle/machine.rs:292-328 | the phases any run of the slot machine visits are a path of the declared topology |
| LifecycleTopology.ReopeningPassesInactive | crates/entity/src/lifecycle/machine.rs:254-262 | over the five phases alone, a path from a closing to an admitting phase passes Inactive |
| LifecycleTopology.DetourReopens | crates/entity/src/lifecycle/machine.rs:254-262 | with any further vertex some accepted topology reopens admission by a detour |
| LifecycleTopology.ReopeningIsExcludedExactlyOverFivePhases | crates/entity/src/lifecycle/machine.rs:245-264 | acceptance excludes reopening paths if and only if the vertices are just the five phases |
| Linearized.LinearizedExecutor.constructor | crates/driver/src/lib.rs:407-416 | a new executor is ready, with nothing queued and no evidence |
| Linearized.LinearizedExecutor.Submit | crates/driver/src/lib.rs:424-437 | one transition installs successor, evidence and output together, or poisons seat and lock; it is the system's submit step |
| Linearized.LinearizedExecutor.Acquire | crates/driver/src/lib.rs:492-503 | ownership is granted exactly when the dispatcher is idle; it is the system's acquire step |
| Linearized.LinearizedExecutor.Next | crates/driver/src/lib.rs:505-515 | pops the oldest output, gives ownership up on an empty queue, or panics on a poisoned lock changing nothing; it is the system's next step |
| Linearized.LinearizedExecutor.Release | crates/driver/src/lib.rs:518-531 | dropping the guard of a panicking dispatcher gives ownership up, even under a poisoned lock |
| Linearized.LinearizedExecutor.DispatchPending | crates/driver/src/lib.rs:464-477 | handled outputs followed by queued ones are what was queued; a handler panic drops one output and keeps the rest; a poisoned lock panics at once |
| Linearized.StepKeepsInv | crates/driver/src/lib.rs:424-531 | every section and every panic keeps the executor's invariant: ordered outputs, one owner while dispatching, a queue attended unless a panicking handler abandoned it |
| Linearized.LinearizedExecution | crates/driver/src/lib.rs:424-477 | in every interleaving handled then queued outputs are the machine's outputs over the linearized inputs, handlers never overlap, and an unpoisoned non-empty queue is attended, except between a handler's panic and the next call after its guard was dropped |
| Linearized.NothingAfterTransitionPanic | crates/driver/src/lib.rs:424-437 | after a transition panic nothing more is stepped and no further handler starts |
| Linearized.OnlyPanicsAbandon | crates/driver/src/lib.rs:455-461 | a run without handler panics abandons no output |
| Linearized.DropStrandsExactlyWithoutACaller | crates/driver/src/lib.rs:518-531 | when a panicking dispatcher drops its guard the queue stays attended if and only if another caller is still to call dispatch |
| Linearized.OwnedElsewhereHoldsExactly | crates/driver/src/lib.rs:479-485 | when a caller is answered that dispatch is owned elsewhere with outputs queued, every later run without panics that ends with all calls finished ends with the queue empty, if and only if the owner was not unwinding |
| Linearized.LaterPanicStrands | crates/driver/src/lib.rs:455-458 | a run in which the owner was live at the answer and its handler panics later ends with an output queued and every call finished, so the no-later-panic premise is needed |
| Linearized.HandlerPanicStrands | crates/driver/src/lib.rs:455-485 | for any machine a run of two submissions ends with one output queued, the lock unpoisoned, dispatch idle and every call finished, the second caller having been answered that dispatch is owned elsewhere |
| Linearized.LaterCallResumes | crates/driver/src/lib.rs:455-478 | whenever nobody owns dispatch, a new call takes ownership and, undisturbed, handles the whole remaining queue in order |
| SerializedObject.SerializedExecutor.Admit | crates/driver/src/lib.rs:255-281 | a poisoned executor returns the input; any other queues it with a fresh receipt and hands ownership to exactly the caller that found it idle; it is the system's submit step |
| SerializedObject.SerializedExecutor.TakeTurn | crates/driver/src/lib.rs:319-331 | the oldest input leaves with the machine, or the turn goes idle; it is the system's take-turn step |
| SerializedObject.SerializedExecutor.Poison | crates/driver/src/lib.rs:350-367 | the dropped guard resolves the active and every queued receipt as poisoned; it is the system's drop step |
| SerializedObject.SerializedExecutor.Turn | crates/driver/src/lib.rs:288-303 | one turn steps, installs, handles and completes, or poisons everything queued |
| SerializedObject.SerializedExecutor.DrainTurn | crates/driver/src/lib.rs:292-302 | one more turn extends the drained block of inputs by one, or poisons what is left |
| SerializedObject.SerializedExecutor.Drain | crates/driver/src/lib.rs:288-303 | the loop folds the machine over the queue in order; receipts before a panic complete and the rest are poisoned |
| SerializedRuns.StepKeepsInv | crates/driver/src/lib.rs:255-367 | every section, transition, handler and panic keeps the one owner's view of queue, machine and receipts |
| SerializedRuns.SerializedExecution | crates/driver/src/lib.rs:255-367 | in every interleaving the history is step, handle in acceptance order with the folded outputs, one owner with an armed guard exactly while running, the machine is never missing, the guard is armed and stands for the turn being installed, receipts are a completed block followed only by poisoned or only by unresolved ones, each in one place |
| SerializedRuns.DisarmedDropKeepsInv | crates/driver/src/lib.rs:350-354 | dropping a disarmed guard changes nothing but its call frame |
| SerializedRuns.ResolvedOnce | crates/driver/src/lib.rs:186-193 | in no run does a resolved receipt change again |
| SerializedRuns.PoisonIsPermanent | crates/driver/src/lib.rs:263-266 | over any further run a poisoned executor stays as it is but for call frames ending: nothing is accepted, stepped, handled or resolved |
| SerializedRuns.PoisonedExactlyByPanics | crates/driver/src/lib.rs:350-367 | in every run the executor is poisoned, or about to be, if and only if a transition or a handler panicked; once only submissions are possible it is poisoned if and only if one did |
| SerializedRuns.PanickedTurnIsPoisoned | crates/driver/src/lib.rs:288-367 | the turn whose transition or handler panics is never completed: over any further run its receipt is unresolved until the guard is dropped and poisoned from then on |
| SerializedRuns.StepsLeaveLess | crates/driver/src/lib.rs:288-367 | every section, transition, handler and panic strictly decreases the work left |
| SerializedRuns.SchedulesEnd | crates/driver/src/lib.rs:288-367 | a schedule without submissions is no longer than the work it started with |
| SerializedRuns.QuiescenceResolvesEverything | crates/driver/src/lib.rs:255-367 | when only submissions are possible every accepted receipt is resolved and nothing is queued; unless poisoned, all are completed and every output handled |
| LocalDirectory.EveryShardSelectableIffPowerOfTwo | crates/entity/src/directory.rs:193-200 | masking by the count minus one reaches every shard if and only if the count is a power of two |
| LocalDirectory.AndInRange | crates/entity/src/directory.rs:524-529 | the masked hash never exceeds the mask, so it is a valid index |
| LocalDirectory.FlattenLooksUp | crates/entity/src/directory.rs:145-159 | with every identity in its home shard, looking there is looking in the flat map |
| LocalDirectory.FlattenUpdate | crates/entity/src/directory.rs:512-522 | changing one identity in its home shard changes only it in the flat map |
| LocalDirectory.FlattenCounts | crates/entity/src/directory.rs:386-393 | the summed shard sizes are the flat map's size |
| LocalDirectory.LocalDirectory.WithHasher | crates/entity/src/directory.rs:189-213 | construction succeeds exactly for power-of-two counts and starts empty |
| LocalDirectory.LocalDirectory.ShardIndex | crates/entity/src/directory.rs:524-529 | the masked hash is the identity's home shard and in range |
| LocalDirectory.LocalDirectory.Lookup | crates/entity/src/directory.rs:410-420 | finds exactly what the flat map holds |
| LocalDirectory.LocalDirectory.FindOrClaim | crates/entity/src/directory.rs:238-266 | reuses the mapped slot, or claims the next activation and installs a new slot, or reports exhaustion, on the flat map |
| LocalDirectory.LocalDirectory.RemoveMatching | crates/entity/src/directory.rs:512-522 | removes the entry exactly when it still is this slot |
| LocalDirectory.LocalDirectory.AllocateDispatch | crates/entity/src/directory.rs:547-554 | hands out the next identity until the last, then none for ever |
| LocalDirectory.LocalDirectory.Len | crates/entity/src/directory.rs:386-393 | the loop over shards returns the flat map's cardinality |
| LocalDirectory.SectionsAreDirectorySteps | crates/entity/src/directory.rs:228-278 | the sharded sections are what the concurrent directory's steps do to its entries and counter |
| Directory.Allocate | crates/entity/src/directory.rs:547-554 | identities are non-zero, increasing and never wrap; the sequence ends at its maximum |
| Directory.DecisionFacts | crates/entity/src/lifecycle/retiring.rs:11-17 | a decision keeps the slot's one activation and requests a removal exactly when it makes the slot inactive |
| Directory.RemoveFindsItsSlot | crates/entity/src/directory.rs:462-522 | whenever a removal is interpreted the entity's entry still is this very slot, inactive |
| Directory.StepKeepsInv | crates/entity/src/directory.rs:228-522 | every atomic section, for arbitrary facts, keeps the directory's invariant |
| Directory.OneLiveSlotPerEntity | crates/entity/src/directory.rs:228-278 | in every run an entity has at most one live slot, it is the mapped one, and activations of slots are distinct |
| Directory.InactiveIsForever | crates/entity/src/directory.rs:504-509 | over any further run an inactive slot stays inactive and a removed one stays removed |
| Directory.RemovesMatchSlots | crates/entity/src/lifecycle/retiring.rs:11-17 | in every run a slot has one removal to interpret exactly while it is inactive and still mapped, so it removes itself once |
| Directory.CountersOnlyGrow | crates/entity/src/directory.rs:547-554 | over any run the identity counters never decrease, so no identity is reused and exhaustion is permanent |
| Directory.IdentitiesAreFresh | crates/entity/src/directory.rs:228-260 | every identity handed out is the counter's, which moves past it; exhaustion returns the command |
| Directory.CurrentActivationIsCurrent | crates/entity/src/directory.rs:401-408 | the activation read from cached evidence is that of the mapped slot's current state |
| Directory.SlotsRunTheExecutor | crates/entity/src/directory.rs:115-142 | every directory step changes a slot's executor as one locked section of the linearized executor does, or not at all |
| Directory.AnswersAreWhatTheSlotQueued | crates/entity/src/directory.rs:130-142 | a dispatch, claim or fact decided at a slot is answered the very output the slot queued last: its activation is the slot's current one and its evidence the cached evidence |
| Directory.AbsentAnswersAreInterpreted | crates/entity/src/directory.rs:559-570 | a fact for an absent entity is answered the inactive slot's output, under no activation, and its caller interprets exactly that output's effects |
| SlotHistories.SlotsFoldTheirFacts | crates/entity/src/directory.rs:56-60 | in every run, for every slot, the facts submitted to it fold to its state, and the effects handed out, in hand and queued, in that order, are exactly the fold's effects |
| SlotHistories.SlotsAccount | crates/entity/src/directory.rs:228-278 | so the drain accounts hold of every slot of every concurrent run, each activation being claimed there at most once |
| SlotHistories.OneFencePerSlot | crates/entity/src/lifecycle/mod.rs:888-925 | however its facts are submitted and interpreted, a slot hands out at most one fence per activation |
| SlotHistories.RuntimeIsHandedTheFold | crates/entity/src/directory.rs:437-510 | in every run the runtime is handed, in order and for the slot's own entity, exactly the effects the slot's facts fold to, but for removals and those still left |
| SlotHistories.AbsentEffectsAreHandedOut | crates/entity/src/directory.rs:453-455 | over any further run the effects of a decision on an absent entity that were handed out and those remaining are, in order, the ones it was answered with |
| Hindsight.LegalRepliesTellTheMap | crates/entity/src/directory.rs:410-432 | what the atomic map legally replies is fixed by the map before and after: the activation the entity then has, the edge its state took or the phase it kept, exhaustion only without an entry, and the inactive slot's output only where nothing is mapped and nothing changes |
| Hindsight.EveryRunIsAtomic | crates/entity/src/directory.rs:410-432 | linearizability: every run has a legal history of one atomic map ending in the directory's map, with every answered call once, as called and answered |
| Hindsight.RealTimeOrder | crates/entity/src/directory.rs:410-432 | a call answered before another is made takes effect before it |
| Hindsight.RemovalExplained | crates/entity/src/directory.rs:512-522 | a removal decides everyone still holding the slot as the mapped inactive slot just before it |
| Hindsight.SubmitIsAtomic | crates/entity/src/directory.rs:410-432 | submitting to a mapped slot is the atomic decision; submitting to a removed one gets the reply it was bound to and changes nothing |
| Hindsight.AbsentIsAFreshSlot | crates/entity/src/directory.rs:559-570 | an event for an absent entity is decided as a freshly allocated and discarded slot would decide it |
| RuntimeLedger.FactIsExpected | crates/entity/src/runtime.rs:378-494 | a reported fact always meets the slot that waits for it |
| RuntimeLedger.FactFindsItsSlot | crates/entity/src/directory.rs:410-420 | looking up the slot of a reported fact finds the very slot it is about |
| RuntimeLedger.ActionKeepsInv | crates/entity/src/runtime.rs:252-494 | every call, step and task completion keeps the ledger balanced and every token with its slot |
| RuntimeFacts.TokensMatchSlots | crates/entity/src/runtime.rs:378-494 | in every reachable state the outstanding tokens of an activation are exactly what its slot's state waits for |
| RuntimeFacts.FactsAreNeverStale | crates/entity/src/runtime.rs:452-478 | no report is stale, the unexpected and late branches are never taken, and the zero reservations a forced drain reports is the true count (the stage it reports is Provenance.RetirementFollowsTheFence) |
| RuntimeFacts.TransientIsEmpty | crates/entity/src/directory.rs:453-455 | in the runtime no decision on an absent entity ever requests an effect |
| Passivating.PassivateIsHonest | crates/entity/src/runtime.rs:298-316 | Begun exactly when this call moved the observed incarnation to draining, Superseded exactly when another one was active |
| Passivating.PassivateEndsEarlyWithoutActivation | crates/entity/src/runtime.rs:298-302 | in every reachable state passivate ends at once, changing nothing, exactly when its entity is unmapped or inactive, and otherwise asks the current activation to drain |
| Passivating.PassivateAbsent | crates/entity/src/directory.rs:559-570 | a passivation whose entity has no slot any more when it is looked up is answered as not active |
| Passivating.AlreadyPassivatingIsPhaseOnly | crates/entity/src/runtime.rs:308-310 | AlreadyPassivating is answered exactly when some incarnation drains or retires, whichever was observed |
| Passivating.AlreadyPassivatingIsOfTheSlot | crates/entity/src/runtime.rs:298-316 | in every reachable state a passivation about to be answered so meets the incarnation it observed if and only if it holds that incarnation's slot |
| Passivating.AlreadyPassivatingIsExactIffStillMapped | crates/entity/src/runtime.rs:35-46 | and it holds that slot if and only if the slot was still mapped when the call looked it up, in every run |
| PassivatingRun.PassivationInProgressMayBeAnothers | crates/entity/src/runtime.rs:298-316 | a valid run in which a passivation of activation 1 is answered so while incarnation 1 is removed and incarnation 2 drains |
| CommandFate.CommandStep | crates/entity/src/runtime.rs:252-494 | every action keeps commands, completions and cancellations consistent |
| CommandFate.CarriedIsUnsettled | crates/entity/src/runtime.rs:410-450 | a command outstanding anywhere is outstanding once and nothing has been decided about it |
| CommandFate.EveryCommandHasOneFate | crates/entity/src/runtime.rs:252-288 | every admitted command is held in exactly one place with its completion awaiting, or was delivered, refused, returned or discarded by its own dropped future exactly once, as its completion says (when each happens: Provenance.EveryFateHasItsCause, DispatchFutures.DroppedWaiterIsDiscarded) |
| Provenance.RetirementFollowsTheFence | crates/entity/src/runtime.rs:452-493 | in every reachable state a lease being retired had its activation's fence answered exactly once, and is retired as answered: gracefully iff it was acknowledged, forced at the enqueue stage iff enqueueing failed, forced at the acknowledgement stage iff that failed |
| Provenance.ActionCaused | crates/entity/src/runtime.rs:378-494 | every action keeps a recorded answer or decision behind every fact in flight, every refusal and retirement requested, every retirement task and every fate |
| Provenance.EveryFateHasItsCause | crates/entity/src/runtime.rs:385-493 | in every reachable state each delivery, refusal, discard, return and lease retirement has the answer or decision it records, a refusal with the deciding slot's reason; and every delivery, retirement, current cancellation and exhaustion that happened is recorded |
| DispatchFutures.FuturesLiveUntilDropped | crates/entity/src/runtime.rs:252-288 | in every run a dispatch has a live future if and only if it was admitted past identity allocation and its future has not been dropped |
| DispatchFutures.DroppedWaiterIsCancelled | crates/entity/src/runtime.rs:356-375 | in every reachable state dropping the future of a dispatch that waits for an activation submits exactly the cancellation of that waiter under that activation, whichever dispatch claimed it |
| DispatchFutures.DropSubmitsOnlyItsCancel | crates/entity/src/runtime.rs:356-375 | dropping a future submits nothing if its result was taken or its dispatch was told no activation, and otherwise exactly its own cancellation under the activation it was told, one of the entity it dispatched to |
| DispatchFutures.DroppedWaiterIsDiscarded | crates/entity/src/runtime.rs:236-240 | over every further run, once that cancellation has been decided, either the activation is over or the command is discarded and no longer waits |
| DispatchFutures.CompletionHoldsItsCalls | crates/entity/src/runtime.rs:342-347 | in every run a dispatch's completion holds what the deliveries, refusals and polls of it so far make of it: the first result, until a poll takes it |
| CommandFate.LeasesAreConserved | crates/entity/src/runtime.rs:480-493 | every lease granted is held in one place or has been retired |
| Progress.DecisionWork | crates/entity/src/lifecycle/mod.rs:593-956 | no decision creates more work than its event and state brought |
| Progress.InternalStepsLeaveLess | crates/entity/src/runtime.rs:385-493 | every effect interpretation and task completion strictly decreases the remaining work |
| Progress.SchedulesEnd | crates/entity/src/runtime.rs:385-493 | a schedule without external calls is no longer than the work it started with |
| Progress.RunAttended | crates/driver/src/lib.rs:464-477 | in every run a slot's non-empty queue has an owner or a submitter still to dispatch it |
| Progress.QuiescenceSettlesEverything | crates/entity/src/runtime.rs:385-493 | when only callers can act, every slot is active without reservations or removed, every mapped slot is active, and every dispatch has its fate |
| Completion.Completion.Complete | crates/entity/src/runtime.rs:132-148 | the first completion is kept and wakes the latest registered waker; a later one is dropped |
| Completion.Completion.PollTake | crates/entity/src/runtime.rs:151-166 | the first poll after a completion takes the first result; an earlier poll leaves its waker |
| Completion.Completion.IsConsumed | crates/entity/src/runtime.rs:169-174 | consumed exactly when some poll came after a completion |
| Completion.CompletedAndTakenOnce | crates/entity/src/runtime.rs:127-175 | over any calls one completion counts and one poll is answered, with that result |
| Completion.LatestPollIsWoken | crates/entity/src/runtime.rs:132-166 | the waker the last poll before a completion left is the one registered then |
| Completion.CallsAreCellSteps | crates/entity/src/runtime.rs:127-175 | calls change the cell as the runtime model's completions and polls do |

## Left out

- `ExclusiveExecutor` (crates/driver/src/lib.rs:48-110): its poison rule is settled by reading one function.
- The protocol adapter (crates/entity/src/protocol.rs) is not part of this model; it is a thin layer over types of another crate.
- `Base::step` and the `then`, `product` and `routed` combinators (crates/transition/src/machine.rs:246-365): easy laws only.
- Mermaid rendering, labels as text, error messages and `describe`: presentation.
- Hash functions and `HashMap` internals: the hash is an arbitrary function and each shard a mathematical map.
- Memory ordering, reference counting, futures, condition variables and lock poisoning above the executor: every locked section is one atomic step, and the weak reference a dropped dispatch future upgrades is taken to be alive.
- Panics of effect callbacks are modelled at the executors only: from the directory upwards callbacks do not panic, as `HandlerPanicStrands` shows they must not for progress.
- Tasks are assumed to finish, and a failed delivery to return the command it was given; that is the port's documented contract.
- The overflow panic of the reservation counter (crates/entity/src/lifecycle/mod.rs:168-184): counts are unbounded here.
- The wait of a receipt and the wake-up of a future: only the registered waker and the resolved receipt are state.
