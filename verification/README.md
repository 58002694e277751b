# A verified model of a queueing-simulation service

The repository compiles models written in a block language (CREATE, QUEUE, DELAY, SEIZE, RELEASE,
ASSIGN, BRANCH, TERMINATE) to Go simulators and runs experiments with them on many machines: a
control plane schedules experiments, dispatchers execute them and report the results. This project
models its three difficult parts in Dafny and proves what they are meant to guarantee, for all
models, all runs and all interleavings.

`dafny verify dfyconfig.toml` checks everything.

## The simulation kernel

What is modelled is the emitted program. `SimModel.dfy` has the block graph and the program's state,
`Semantics.dfy` the meaning of every block function, event handler and turn of the run loop.
`EventQueue.dfy`, `Pool.dfy` and `TombstoneQueue.dfy` are the heap, the free lists and the queues as
classes over the data they change in place; `Machine.dfy` puts them together, and `Simulator.dfy` is
the emitted program, loop by loop, proved to take the turns of `Semantics.dfy`. `Simulate`, the
program from start to end, therefore yields a run, and what is proved of runs holds of it.

Two induction principles carry the theorems. A *tally* (`Potentials.dfy`, `Tallies.dfy`,
`Conservation.dfy`, `Runs.dfy`) is a weighted sum over counters, queues, free lists and pending
events; if the elementary moves balance, the sum is constant along every run. A *step relation*
(`Steps.dfy`) that holds of every elementary step and composes holds of whole transfers and events.
From these follow placement (`Placement.dfy`, `Startup.dfy`), flow balance (`Flow.dfy`), bounds and
ticket order (`Limits.dfy`), time (`Timeline.dfy`), the history of events (`History.dfy`), pending
expiries (`Timeouts.dfy`) and work conservation (`WorkConservation.dfy`, `Idling.dfy`).
`Transactions.dfy` proves that refused transfers leave no trace.

What each operation does is stated once more without the functions that define it, in terms of the
variables, counters, places and events that a user of the simulator sees: `Assignments.dfy` says what an
ASSIGN stores, `Choices.dfy` which way a BRANCH sends, `BlockLaws.dfy` and `EventLaws.dfy` what the
other blocks and the handlers leave, `Due.dfy` and `Expiries.dfy` when events are due and how long an
entity can be kept waiting, `Rooms.dfy` that capacities hold on runs.

Assumptions:

- The *immediate-transfer graph* is acyclic. Its edges are ASSIGN, BRANCH, SEIZE and RELEASE to their
  next blocks, RELEASE to the wait queues of its resource's SEIZEs, and QUEUE to next and
  next_overflow. The model carries a rank that falls along these edges; it is also what makes the
  synchronous calls terminate. `validate.go` does not check it (`LinkingAcceptsCycles`), and
  `try_advance` relies on it: it deletes the head only after the next block has returned
  (`codegen/generator/emit_block.go:264-267`). The rank is no further assumption: for a model that
  passed linking it exists if and only if the graph has no cycle and no entity is handed to a CREATE
  (`RunnableExactly`). `Reentry.dfy` has the same block functions on any graph, cut off after a number
  of nested calls, and shows that they are the kernel's where calls go down (`HandAgrees`);
  `Relapse.dfy` uses them to show what a cycle can do.
- Time is real, counters and indices are natural numbers, random draws come from a stream of which
  the state holds the position. Delays, timeouts and intervals are not negative where a theorem about
  time says so (`NonNegative`); the run loop is modelled without that assumption, with its test for
  the sentinel time -1.0 as it stands (`LooksEmpty`).
- Expressions are total functions of what they can read: clock, stream, variables, entity fields,
  resources and block counters. The guard on the entity type is explicit.

## The scheduling protocol

`Protocol.dfy` is a step system of the database rows, the scheduler's turn with one record, start
requests that can be lost, delayed or answered late, dispatchers with their registry, workers and
journal, and reports. Control plane and dispatchers may restart at any point, database statements
may fail before or after they take effect, and journal files may be damaged. `StartSafety.dfy` has
the joint invariant, at-most-once start and the permanence of terminal statuses; `Delivery.dfy`
shows that no result disappears, and `Overwriting.dfy` that this needs distinct journal names. The
classes of `DispatcherRegistry.dfy`, `NodeRegistry.dfy`, `PendingQueue.dfy`, `Reporter.dfy`,
`Repository.dfy` and `Scheduler.dfy` are the components with their fields and loops,
`RegistryRuns.dfy` has the dispatcher's accounting over every interleaving, and `DispatcherRuns.dfy`
joins it to the protocol: on every run the registry of a dispatcher shows what the protocol has
there. What a tick leaves on the nodes is stated in slots and limits, record by record
(`SettlingCharges`, `RunOnce`). The scheduler's work on a record is a path of protocol steps
(`MarkIsAStep`, `StartIsSteps`), and so is the statement on lost nodes (`OrphansAreReconcileSteps`).

Assumptions: one control-plane process; the transport does not duplicate a start request; SQL
statements are atomic; each registry method runs under its mutex.

## The compiler passes

`Reachability.dfy` and `Linking.dfy` are linking and validation, `Lexing.dfy`, `Rendering.dfy`,
`Arguments.dfy` and `Expressions.dfy` the expression translator against a specification by tokens.
`Grammar.dfy` says of a text alone whether it is an expression and of what type, and the translator
accepts exactly these texts; `Parsing.dfy` shows that the grammar is unambiguous, `Names.dfy` what
names stand for, `Samples.dfy` how everyday texts come out. `Boundaries.dfy` adds that lexing the
output gives the images of the tokens, `Nesting.dfy` that the parentheses stay. `LinkedKernel.dfy`
joins linking to the kernel: what a linked model still lacks to be run, exactly (`Acyclic.dfy` has
the theorem on graphs).

## Where the code does not do what one would expect

Each of these is a proved statement.

- A DELAY can idle beside a waiting queue if an earlier wait queue leads elsewhere: the wake loop
  ends at the first queue that advances (`DelayIdlesBesideQueue`; linking accepts the model's source,
  `DetourComesFromSource`). A turn leaves it idle exactly if the first queue to advance comes before
  the waiting one and its entity ends elsewhere (`TurnIdlesExactly`). That never happens when the
  earlier wait queues lead to no other block that takes entities (`WorkIsConserved`).
- `startCreateBlocks` does not look at `stop`, so with n immediate CREATEs startup can leave n entities
  without a place (`StartupStrandsAll`), and never more (`StrandedAreFew`). That at most the one entity
  in hand is without a place at any boundary, the stopping one included, is guaranteed exactly up to
  one immediate CREATE (`OneInHandExactly`). A turn of the run loop strands at most one.
- Linking accepts models whose block functions call themselves. One never returns
  (`SelfFeedingNeverReturns`). In another a RELEASE wakes the queue that is just offering its head, and
  an accepted entity is destroyed twice without a stop (`PlacedTwice`); later two entities share its
  slot (`OneSlotForTwo`). Without cycles neither can happen (`HandAgrees`, `EachPlacedOnceOnRuns`).
- A dispatcher that starts an experiment again after a cancellation but before its Finish leaks
  memory (`RestartLeaksMemory`); the account is kept if and only if the experiment is not
  unfinished (`StartKeepsAccount`). The protocol rules this out: a request that arrives is for an
  experiment that is nowhere admitted, running or finished (`ArrivingRequestIsFresh`), and on every run
  the calls of the registry keep its discipline (`CallsAreDisciplined`).
- No dispatcher ever answers that an experiment is already running, so that branch of the scheduler is
  dead under the protocol's assumptions (`NeverAlreadyRunning`).
- Journal files are named after the cleaned id, so two experiments can share a file
  (`NamesCollide`); they do if and only if the cleaned ids and the hash agree (`SharedFile`). Every run
  keeps every result if and only if names are distinct (`KeptExactlyIfDistinct`).
- The memory test of the node registry can wrap for limits of 2^63 and more
  (`WrappedTestAcceptsTooMuch`) and is wrong if and only if the sum wraps to something that fits
  (`MemoryTestErrsOnlyOnWrap`); the database clamp rules such limits out (`ClampedLimits`).
- A record that the dispatcher refused for now is not queued again if the update back to PENDING took
  effect but was reported as failed (`ForgetsARecord`): it waits until the next restart. A tick leaves
  a record PENDING and not queued exactly in that case (`RunOnce`, `ForgottenExactly`).
- Operands and operators of an expression need not alternate: `1 2` is accepted where an int64 is wanted
  (`MissingOperatorAccepted`), and the Go compiler is left to refuse what comes out.
- The number of arguments is counted by commas, so `uniform(1,)` passes for two arguments
  (`EmptyArgumentAccepted`). The test is wrong exactly if it accepts and some piece between commas is
  blank (`CheckErrsExactlyOnBlanks`).

## Model

| member | source | states |
|---|---|---|
| EventQueues.RootIsMinimal | codegen/container/binary.go:41-91 | the parent-child order of the 4-ary tree makes the root a minimum of all entries |
| EventQueues.EventQueue.Push | codegen/container/binary.go:20-23 | adds exactly the given event and keeps the heap order |
| EventQueues.EventQueue.Pop | codegen/container/binary.go:25-39 | the sentinel from an empty queue; otherwise an event of minimal time, which is the only one removed; the heap order stays |
| EventQueues.EventQueue.SiftUp | codegen/container/binary.go:41-50 | repairs an order broken only between one entry and its parent, permuting the entries |
| EventQueues.EventQueue.SmallestOfFamily | codegen/container/binary.go:55-85 | the comparison cascade finds a least one among a node and its up to four children |
| EventQueues.EventQueue.SiftDown | codegen/container/binary.go:52-91 | repairs an order broken only between one entry and its children, permuting the entries |
| EventQueues.Drain | codegen/container/binary.go:25-39 | popping until empty yields a sorted permutation of what was pushed |
| Pools.Pool.Alloc | codegen/container/pool.go:15-24 | hands out a slot that was not in use, the last freed first; exactly that slot becomes used |
| Pools.Pool.Free | codegen/container/pool.go:26-29 | clears the slot; the free list stays free of duplicates if and only if the slot was in use |
| TombstoneQueues.TombstoneQueue.Push | codegen/generator/emit_block.go:196-207 | appends to the waiting sequence; the ticket returned is the old total; high-water mark |
| TombstoneQueues.TombstoneQueue.Trim | codegen/generator/emit_block.go:211-213 | dropping tombstones at the front changes nothing that waits |
| TombstoneQueues.TombstoneQueue.Top | codegen/generator/emit_block.go:209-219 | the oldest waiting entity, if any; nothing that waits changes |
| TombstoneQueues.TombstoneQueue.Delete | codegen/generator/emit_block.go:221-234 | removes the oldest waiting entity, if any |
| TombstoneQueues.TombstoneQueue.Get | codegen/generator/emit_block.go:236-256 | removes the entity with the given ticket exactly if it still waits, else does nothing |
| TombstoneQueues.BuryRemoves | codegen/generator/emit_block.go:242-256 | marking the slot at a ticket's position invalid removes that one entry from the sequence the array stands for |
| TombstoneQueues.NotLive | codegen/generator/emit_block.go:238-250 | tickets already trimmed, not yet dealt or buried are not waiting |
| TombstoneQueues.TicketsIncrease | codegen/generator/emit_block.go:196-207 | live tickets increase and are below the next one, in every valid state of the array |
| Transactions.UndoInvertsAssignments | codegen/generator/emit_block.go:425-474 | restoring the saved values in reverse order gives back variables and entity fields, also when one target was assigned several times |
| Transactions.RefusedTransferLeavesNoTrace | codegen/generator/emit_block.go:273-341 | a refused transfer, however deep, leaves clock, variables, fields, resources, pools, pending events and every block as they were; only a queue's enterN and dropN, stop and its reason and the random stream may move |
| Transactions.RefusedByAssign | codegen/generator/emit_block.go:422-452 | an ASSIGN whose next block refuses rolls back completely |
| Transactions.RefusedBySeize | codegen/generator/emit_block.go:587-616 | a SEIZE whose next block refuses restores busy and maxBusy |
| Transactions.RefusedByRelease | codegen/generator/emit_block.go:618-646 | a RELEASE whose next block refuses restores busy |
| Transactions.RefusedByBranch | codegen/generator/emit_block.go:524-561 | a BRANCH whose chosen block refuses, or without a matching case, changes nothing else |
| Transactions.RefusedAdvanceLeavesNoTrace | codegen/generator/emit_block.go:258-271 | waking a queue whose head is refused changes nothing |
| Potentials.HeadStaysDuringOffer | codegen/generator/emit_block.go:264-268 | while the head is offered to the next block the queue itself is untouched, so the entity deleted afterwards is the one that moved |
| Assignments.AssignmentsStore | codegen/generator/emit_block.go:454-474 | running assignments passes through states that differ by one assignment each: where its guard holds, its target has the value that its expression has on the state before, and every other variable, field and slot is as before; where it fails, nothing changes |
| Assignments.AssignStoresAndPasses | codegen/generator/emit_block.go:422-452 | the next block gets the entity in the state these assignments lead to; if it accepts, that state stands and the ASSIGN counts one entry and one exit |
| Assignments.LastAssignmentStands | codegen/generator/emit_block.go:431-474 | the last assignment that applies to a target decides what the next block finds in it |
| Assignments.UnassignedStays | codegen/generator/emit_block.go:459-474 | a target that no further assignment gives a value keeps what it holds |
| Choices.ChoosesFirst | codegen/generator/emit_block.go:524-585 | the choice is case i if and only if i is the least index whose condition holds, each condition evaluated where its predecessor left the stream; else if and only if none holds; the stream then stands after the draws of the conditions evaluated |
| Choices.BranchHandsOver | codegen/generator/emit_block.go:524-561 | the entity is handed to the block of that case or to else; with neither the run stops and nothing else changes |
| BlockLaws.DelayServes | codegen/generator/emit_block.go:343-404 | a DELAY accepts if and only if it has room and its duration is for the entity; then busy rises by one and exactly one event is added, the completion for this entity, due at the clock plus the value of the duration for it |
| BlockLaws.QueueWithRoom | codegen/generator/emit_block.go:273-341 | a QUEUE with room appends the entity with the next ticket, adds exactly one expiry if it has a timeout, due after the delay for this entity, and offers its head; whether that is taken does not change the answer |
| BlockLaws.QueueWithoutRoom | codegen/generator/emit_block.go:276-297 | a full QUEUE refuses, or counts the entity as entered and dropped and hands it to its overflow block |
| BlockLaws.HeadIsOffered | codegen/generator/emit_block.go:258-271 | the oldest entity is offered to the next block and leaves, counted, exactly if it is taken |
| BlockLaws.WakesInOrder | codegen/generator/emit_block.go:406-412 | wait queues are tried in order, each in the state the failed ones before it left, and the first that advances is the last one tried |
| BlockLaws.WakeListInOrder | codegen/generator/emit_block.go:648-661 | the queues a RELEASE tries are the wait queues of the SEIZEs of its resource, SEIZE by SEIZE in their order |
| BlockLaws.SeizeHolds | codegen/generator/emit_block.go:587-616 | a SEIZE refuses exactly without a free unit or when its next block does; that block decides while the unit is held, and an accepted entity leaves it held and counted |
| BlockLaws.ReleaseFrees | codegen/generator/emit_block.go:618-661 | the next block decides with the unit given back; if it accepts, block and resource count it and the queues are woken; an idle resource stops the run |
| EventLaws.CompletionHandsOn | codegen/generator/emit_block.go:380-402 | a completed entity goes to the next block; accepted, its place is free and the wait queues are woken; refused, the run stops |
| EventLaws.ExpiryHandsOn | codegen/generator/emit_block.go:321-333 | an entity whose ticket still waits leaves the queue, is counted and goes to the block the timeout names; refused there, the run stops |
| EventLaws.PassHandsOn | codegen/generator/emit_block.go:148-185 | one pass makes an entity of the declared type with the declared defaults in the slot freed last, or a new one, and hands it on; refused, it is destroyed and dropped where the CREATE says so, or the run stops |
| EventLaws.ArrivalMakesBatch | codegen/generator/emit_block.go:116-146 | an arrival that does not stop makes as many entities as the batch expression says, then schedules the next arrival at the clock plus the interval |
| EventLaws.StartsInOrder | codegen/generator/emit_runtime.go:3-15 | startup handles the blocks once each in declaration order: an immediate CREATE as an arrival, any other waits its interval |
| EventLaws.RuleEndsTurn | codegen/generator/emit_runtime.go:19-30 | after a turn the run is stopped if and only if the handler stopped it or the stop rule holds of what is then seen |
| EventLaws.RuleEndsRun | codegen/generator/emit_runtime.go:19-30 | a boundary after a turn at which the stop rule holds is the last of its run |
| Due.ScheduledIsDue | codegen/generator/emitter.go:185-189 | on runs every event is scheduled for the clock of its turn plus a value that the expression of its own block has at that clock: completions, arrivals and expiries |
| Due.PendingIsDue | codegen/generator/emitter.go:185-189 | every event pending at a boundary was scheduled in some turn of the run and is due accordingly |
| Due.ServiceTakes | codegen/generator/emit_block.go:343-404 | with constant duration c the turn that completes a service runs exactly c after the turn that began it |
| Due.ArrivalsApart | codegen/generator/emit_block.go:116-146 | with constant interval c two successive arrivals of a CREATE are exactly c apart |
| Expiries.AdmittedExpires | codegen/generator/emit_block.go:299-341 | an admitted entity has exactly one pending expiry, that of its ticket, at the clock of its admission plus the value of the timeout expression for it |
| Expiries.WaiterHasOneExpiry | codegen/generator/emit_block.go:301-333 | on runs whoever waits in a queue with a timeout has exactly one pending expiry; it was scheduled in the turn that dealt its ticket and is due at the clock of that turn plus a value of the timeout |
| Expiries.NobodyWaitsLonger | codegen/generator/emit_block.go:301-333 | with constant timeout c and non-negative delays nobody is kept waiting longer than c after the ticket was dealt |
| Expiries.LeavesWhenDue | codegen/generator/emit_block.go:319-333 | nobody leaves by next_timeout early: the turn that handles the expiry of a ticket runs at the clock of the turn that dealt it plus c, exactly |
| Expiries.TimeoutsCounted | codegen/generator/emit_block.go:321-327 | timeoutN of a queue rises exactly in the turn that handles the expiry of a ticket that still waits, by one |
| Rooms.NeverOverfull | codegen/generator/emit_block.go:276-297 | a QUEUE or DELAY of constant capacity c never holds more than c, at every boundary, also after a stop |
| Placement.EachPlacedOnceOnRuns | codegen/generator/emit_block.go:148-185 | at every event boundary before a stop each entity slot is in exactly one place: once on the free list, in one queue position, or in one pending completion |
| Placement.LastTurnStrandsAtMostOne | codegen/generator/emit_block.go:148-185 | after any turn, the stopping one included, at most one entity is without a place, and only if the run stopped |
| Placement.StartStrandsExactly | codegen/generator/emit_runtime.go:3-15 | after startup an entity is without a place exactly if a CREATE stopped with it in hand, and each is so at most once |
| Startup.StrandedAreFew | codegen/generator/emit_runtime.go:3-15 | startup strands at most one entity for each immediate CREATE |
| Startup.StartupStrandsAll | codegen/generator/emit_runtime.go:3-15 | startup does not look at stop: for every n a linked model with n immediate CREATEs leaves n entities without a place |
| Startup.OneInHandOnRuns | codegen/generator/emit_block.go:148-185 | with at most one immediate CREATE, at every boundary of a run, the stopping ones included, every slot is in exactly one place except at most one entity in hand, and that only after a stop |
| Startup.OneInHandExactly | codegen/generator/emit_runtime.go:3-15 | the number n of immediate CREATEs guarantees this for all runs of all models if and only if n <= 1 |
| Flow.QueueBalanceOnRuns | codegen/generator/emit_block.go:196-341 | enterN = exitN + dropN + timeoutN + len for every QUEUE at every boundary before a stop |
| Flow.DelayBalanceOnRuns | codegen/generator/emit_block.go:343-404 | enterN = exitN + busy for every DELAY, and busy counts the pending completions |
| Flow.PassBalanceOnRuns | codegen/generator/emit_block.go:442-446 | enterN = exitN for ASSIGN, BRANCH, SEIZE and RELEASE |
| Flow.ResourceBalanceOnRuns | codegen/generator/emit_block.go:587-646 | seizeN = releaseN + busy for every resource |
| Flow.FlowBalanceOnRuns | codegen/generator/emit_block.go:148-421 | over all blocks: created = dropped by CREATEs + terminated + waiting + in service |
| Limits.CreateBalanceOnRuns | codegen/generator/emit_block.go:148-185 | 0 <= createdN - exitN - dropN <= 1 for every CREATE at every boundary, and the difference is 0 before a stop |
| Limits.ResourceWithinCapacity | codegen/generator/emit_block.go:592-602 | busy <= maxBusy <= the declared capacity at every boundary, also after a stop |
| Limits.TicketsInOrderOnRuns | codegen/generator/emit_block.go:196-207 | on runs the tickets of a queue increase, are below total, and len <= maxLen |
| Timeouts.WaitersArmedOnRuns | codegen/generator/emit_block.go:319-333 | on runs every entity that waits in a queue with a timeout has its expiry event pending |
| Timeouts.NobodyWaitsForever | codegen/generator/emit_block.go:319-333 | a run that has used up its events leaves nobody in a queue with a timeout |
| Timeline.TurnHandlesOneEvent | codegen/generator/emit_runtime.go:19-21 | with non-negative delays a turn moves the clock to the event's time, takes exactly that event away and adds only events not earlier |
| Timeline.PendingIsAhead | codegen/generator/emit_runtime.go:19 | on runs every pending event is at or after the clock, which is at least 0, so none looks like the -1.0 sentinel |
| Timeline.ClockNeverGoesBack | codegen/generator/emit_runtime.go:20 | the clock is monotone along every run |
| Timeline.OneArrivalPending | codegen/generator/emit_block.go:116-146 | before a stop each CREATE has exactly one pending arrival |
| History.TurnGrows | codegen/generator/emit_runtime.go:19-21 | without any assumption on delays a turn takes one event away, sets the clock to its time and only appends to the others |
| History.HandledOnceOnRuns | codegen/generator/emit_runtime.go:19-30 | along a run the events handled and the events pending are, as multisets, exactly those ever scheduled |
| History.HandledInOrder | codegen/generator/emit_runtime.go:19-30 | with non-negative delays events are handled in the order of their times |
| WorkConservation.WorkIsConserved | codegen/generator/emit_block.go:258-271 | for a DELAY of constant capacity c and a wait queue that leads to it, non-empty queue implies busy = c at every boundary before a stop, provided earlier wait queues lead nowhere else |
| WorkConservation.WakingRefills | codegen/generator/emit_block.go:406-412 | after a completion the wake loop fills the freed place or the queue is empty |
| WorkConservation.OnlyToOccupies | codegen/generator/emit_block.go:524-561 | an entity accepted on a way of ASSIGNs and BRANCHes that leads only to the DELAY occupies it |
| WorkConservation.SingleQueueIsWokenInTurn | codegen/generator/emit_block.go:406-412 | the proviso holds for the first wait queue |
| Idling.WakingIdlesExactly | codegen/generator/emit_block.go:406-412 | with one place open, waking leaves it open beside the queue if and only if the first wait queue to advance is an earlier one, its entity takes no place in the DELAY, the queue still waits and nothing stopped |
| Idling.TurnIdlesExactly | codegen/generator/emit_block.go:380-402 | from a boundary where work is conserved a turn ends with the DELAY idle beside the queue if and only if it completes a service there, does not stop, and the freed place is diverted in that way |
| Counterexamples.DelayIdlesBesideQueue | codegen/generator/emit_block.go:406-412 | without the proviso the property is false: a run in which a DELAY idles beside a waiting queue because an earlier queue was woken successfully towards another block |
| Counterexamples.DetourComesFromSource | codegen/generator/validate.go:29-55 | linking accepts the source of that model |
| Simulators.Simulator.Schedule | codegen/generator/emitter.go:185-189 | the event list gains the closure at clock + time |
| Simulators.Simulator.FreeEntity | codegen/generator/emitter.go:191-205 | frees the slot in the pool of its type, or stops on an unknown type |
| Simulators.Simulator.EnterQueue | codegen/generator/emit_block.go:273-341 | capacity, overflow, count, push with expiry and advance: acts on the stored state as the transfer of which QueueWithRoom, QueueWithoutRoom and AdmittedExpires say what it leaves and when the expiry is due |
| Simulators.Simulator.TryAdvance | codegen/generator/emit_block.go:258-271 | offers the head and removes it only if it was taken, as specified |
| Simulators.Simulator.EnterDelay | codegen/generator/emit_block.go:343-404 | capacity test, guard, counters and scheduled completion as specified |
| Simulators.Simulator.Wake | codegen/generator/emit_block.go:406-412 | the first queue that advances ends the loop, as specified |
| Simulators.Simulator.EnterSeize | codegen/generator/emit_block.go:587-616 | takes a unit, tries the next block and restores busy and maxBusy when refused, as specified |
| Simulators.Simulator.EnterRelease | codegen/generator/emit_block.go:618-661 | returns a unit, tries the next block, wakes the resource's wait queues or restores busy: the transfer that ReleaseFrees and RefusedByRelease describe |
| Simulators.Simulator.RunAssignments | codegen/generator/emit_block.go:454-474 | the loop of guarded assignments computes the store of which AssignmentsStore says what every target holds, and the log that UndoInvertsAssignments undoes |
| Simulators.Simulator.UndoAssignments | codegen/generator/emit_block.go:448-457 | the loop from the last assignment to the first computes the specified restoration |
| Simulators.Simulator.EnterAssign | codegen/generator/emit_block.go:422-452 | assigns, tries the next block and rolls back when refused: the transfer that AssignStoresAndPasses and RefusedByAssign describe |
| Simulators.Simulator.EnterBranch | codegen/generator/emit_block.go:524-585 | the first matching case decides, none and no else stops the run: the transfer that ChoosesFirst and BranchHandsOver describe |
| Simulators.Simulator.EnterTerminate | codegen/generator/emit_block.go:414-420 | counts and frees, as specified |
| Simulators.Simulator.Enter | codegen/generator/emit_block.go:87-115 | dispatch on the block kind, with a proof that synchronous calls end on an acyclic immediate-transfer graph |
| Simulators.Simulator.GenerateOne | codegen/generator/emit_block.go:148-185 | one pass of the batch loop: allocate, hand over, count, drop or stop, as specified |
| Simulators.Simulator.Generate | codegen/generator/emit_block.go:148-185 | the batch loop is the specified iteration and ends early with an entity in hand |
| Simulators.Simulator.HandleArrival | codegen/generator/emit_block.go:116-146 | batch, then the next arrival unless stopped, as specified |
| Simulators.Simulator.HandleCompletion | codegen/generator/emit_block.go:380-402 | leaves the DELAY, counts, and wakes the wait queues, as specified |
| Simulators.Simulator.HandleTimeout | codegen/generator/emit_block.go:321-333 | a departed ticket is ignored; one that still waits leaves by next_timeout, as specified |
| Simulators.Simulator.StartCreateBlocks | codegen/generator/emit_runtime.go:3-15 | every CREATE is started in declaration order, whether or not the run has stopped |
| Simulators.Simulator.TakeTurn | codegen/generator/emit_runtime.go:19-30 | one iteration of the run loop is one turn of the specified system, with an event of minimal time; it goes on unless stopped or the popped time is -1.0 |
| Simulators.Simulator.Run | codegen/generator/emit_runtime.go:17-36 | the loop passes through a chain of turns and ends only stopped or when the popped time is -1.0, with its reason |
| Simulators.Simulate | codegen/generator/emit_runtime.go:38-45 | initModel, startCreateBlocks and run on arrays, free lists and heap: the boundaries passed form a run, so every theorem about runs holds of the program; with non-negative delays it ends only stopped or without events |
| Simulators.LooksEmptyIfEmpty | codegen/generator/emit_runtime.go:19 | on runs with non-negative delays the popped time is -1.0 if and only if no event is pending |
| Machine.Store.Expire | codegen/generator/emit_block.go:322-326 | get and timeoutN++ of an expiry on the tombstone queue act as the removal of that waiting entry |
| Machine.Store.TakeSlot | codegen/generator/emit_block.go:158-164 | Alloc and the default fields act as the specified allocation |
| StartSafety.AtMostOnceStart | controlplane/scheduler.go:112-240 | in every run with lost, late or failing messages and restarts an experiment is handed to a worker at most once, and a PENDING row has no live request, task, result or report |
| StartSafety.AcceptedChanges | dispatcher/server.go:68-132 | only the hand-over to a worker accepts an experiment; a refused or withdrawn request never does |
| StartSafety.StaysUntouched | controlplane/server.go:183-331 | cancelling, reconciling, refusing, losing requests and restarts start nothing for an experiment that nothing is under way for |
| StartSafety.TerminalNeverReverts | controlplane/repository.go:1154-1207 | a FINISHED, FAILED or CANCELED row never becomes PENDING, STARTING or RUNNING again, although two updates have no guard |
| StartSafety.RowWritten | controlplane/repository.go:27-125 | apart from a report only the end of the scheduler's turn writes to a row whatever its status; no other step touches a result |
| StartSafety.StepKeepsInv | controlplane/scheduler.go:90-257 | the joint invariant of database, scheduler, requests, dispatchers and reports is kept by every step |
| StartSafety.ArrivingRequestIsFresh | dispatcher/server.go:68-132 | a start request that reaches its dispatcher is for an experiment that is admitted, running or finished nowhere, and no other request for it can be accepted |
| StartSafety.AdmitsOnlyFreshOnRuns | dispatcher/server.go:68-132 | in every run a dispatcher admits only experiments that are unfinished on no node |
| Delivery.EveryResultIsKept | dispatcher/reporter.go:61-93 | with distinct journal names every result ever produced is in a worker's hand, in a journal, in the database, or was destroyed by a listed fault |
| Delivery.NothingLostWithoutFaults | dispatcher/reporter.go:61-76 | nothing is destroyed in a run without failed writes, damaged files and crashes with results in hand |
| Delivery.RemovedOnlyWhenStored | dispatcher/reporter.go:140-174 | with distinct journal names a readable journal file disappears only when its result is stored in the row |
| Delivery.StoredResultNeverChanges | controlplane/repository.go:27-125 | redelivery and every other step leave a stored result as it is |
| Overwriting.KeptExactlyIfDistinct | dispatcher/reporter.go:78-93 | every run keeps every result, up to the listed faults, if and only if no two experiments share a journal file name |
| Overwriting.SharedNameLosesResult | dispatcher/reporter.go:78-93 | for any two experiments that share a file name there is a run without faults in which the second result overwrites the first |
| DispatcherRegistries.StartKeepsAccount | dispatcher/registry.go:41-78 | short of 64-bit overflow a successful start stays accounted for if and only if the experiment was not started and unfinished already |
| DispatcherRegistries.FinishKeepsAccount | dispatcher/registry.go:128-168 | finishing returns exactly what the start reserved; the saturating branches are dead |
| DispatcherRegistries.RestartLeaksMemory | dispatcher/registry.go:41-168 | a cancelled experiment started again before its Finish leaks the first reservation |
| RegistryRuns.AccountedOnHistories | dispatcher/registry.go:41-254 | over every interleaving: slots in use = starts - finishes <= total, memory = sum over the unfinished <= total |
| DispatcherRuns.RegistryOnRuns | dispatcher/registry.go:41-254 | at every boundary of every run the registry of a node shows exactly the entries of the protocol there, lists exactly the experiments that are admitted or running there, and holds their slots and memory |
| DispatcherRuns.CallsAreDisciplined | dispatcher/server.go:68-132 | on every run the calls that the steps make of a registry since its dispatcher last started form a history that keeps the discipline the accounting needs |
| DispatcherRuns.StepAgrees | dispatcher/registry.go:41-254 | every step of the protocol and the registry call it makes keep this agreement |
| DispatcherRuns.NeverAlreadyRunning | dispatcher/server.go:68-71 | in no run does a dispatcher refuse a start as already running, and the scheduler never decides on that outcome |
| DispatcherRegistries.RegistryObject.TryStart | dispatcher/registry.go:41-78 | refuses exactly an active experiment, missing slots or missing memory, in that order, else records the start with its slot and memory |
| DispatcherRegistries.RegistryObject.SetStatus | dispatcher/registry.go:90-98 | changes the status of a known experiment only; the accounting stands |
| DispatcherRegistries.RegistryObject.Cancel | dispatcher/registry.go:100-126 | marks an active experiment CANCELED for the reason given first, keeping its reservation |
| DispatcherRegistries.RegistryObject.CancelAll | dispatcher/registry.go:227-255 | marks exactly the active experiments and counts them |
| DispatcherRegistries.RegistryObject.Finish | dispatcher/registry.go:128-168 | under a cancel request every outcome but FINISHED becomes CANCELED for the first reason given; slot and memory are returned |
| DispatcherRegistries.FirstReasonStands | dispatcher/registry.go:99-168 | the reason given first stands: later cancellations, shutdown and an outcome other than FINISHED leave it |
| DispatcherRegistries.ShutdownCancels | dispatcher/registry.go:227-255 | shutdown marks what is active CANCELED, keeping a reason given before, and leaves the rest alone |
| DispatcherRegistries.RegistryObject.CountActive | dispatcher/registry.go:199-217 | counts the active experiments, never more than the slots in use |
| NodeRegistries.MemoryTestIsExact | controlplane/node_registry.go:290-301 | within capacity and with clamped limits no sum wraps, so the 64-bit test means what it says |
| NodeRegistries.FitsExactly | controlplane/node_registry.go:167-223 | within capacity the tests of a pick hold if and only if the platform is the wanted one where one is named, a slot is neither used nor reserved, and the limit fits beside the memory reported and beside the memory promised |
| NodeRegistries.ReservingKeepsCapacity | controlplane/node_registry.go:167-223 | a reservation that the tests allow stays within slots and memory |
| NodeRegistries.MemoryTestErrsOnlyOnWrap | controlplane/node_registry.go:290-301 | on any 64-bit values the test is wrong if and only if the sum wraps to something that fits |
| NodeRegistries.WrappedTestAcceptsTooMuch | controlplane/node_registry.go:290-301 | with an unclamped limit the sum can wrap and the test accept too much |
| NodeRegistries.ClampedLimits | controlplane/repository.go:553-567 | a limit that went through the database fits 63 bits, and is unchanged exactly if it did before |
| NodeRegistries.NodeRegistry.Register | controlplane/node_registry.go:36-74 | records a complete announcement, keeping the reservations and failures of a known node; capacity bounds stand |
| NodeRegistries.NodeRegistry.Heartbeat | controlplane/node_registry.go:76-103 | refreshes a node, keeping its reservations and failures; capacity bounds stand |
| NodeRegistries.NodeRegistry.PickAndReserve | controlplane/node_registry.go:167-223 | with the wanted platform trimmed, reserves on a live node that fits, or none fits; only dead nodes are forgotten; capacity bounds stand |
| NodeRegistries.NodeRegistry.ReleaseReservation | controlplane/node_registry.go:225-246 | takes back one slot and the limit, no more than is reserved, and changes nothing else |
| NodeRegistries.NodeRegistry.MarkNodeFailed | controlplane/node_registry.go:255-273 | counts failures and removes the node at the limit |
| PendingQueues.PendingQueue.Enqueue | controlplane/pending_queue.go:49-70 | appends unless the key is queued; list and index agree |
| PendingQueues.PendingQueue.PopBatch | controlplane/pending_queue.go:84-104 | takes the oldest prefix and leaves the rest in order; its keys leave the index |
| PendingQueues.PendingQueue.Append | controlplane/pending_queue.go:49-70 | append to the slice: in the backing array if there is room, else in a larger copy |
| PendingQueues.PendingQueue.PopFirst | controlplane/pending_queue.go:84-104 | the slice moves on by one; list and index agree |
| PendingQueues.PendingQueue.Remove | controlplane/pending_queue.go:117-140 | drops the records of the key from the slice where it stands; list and index agree |
| PendingQueues.FilterInPlace | controlplane/pending_queue.go:126-136 | the loop that overwrites the slice it ranges over leaves exactly the records of other keys, in order |
| PendingQueues.RemoveQueued | controlplane/pending_queue.go:117-140 | removing a queued key deletes that one record and keeps the order of the others |
| Reporters.SharedFile | dispatcher/reporter.go:176-179 | two experiments share a journal file if and only if model hash and cleaned id agree |
| Reporters.NamesCollide | dispatcher/reporter.go:176-179 | ids such as a/x and a_x of one model share a file |
| Reporters.PlainIdsHaveDistinctNames | dispatcher/reporter.go:176-179 | where ids contain nothing the replacer changes, file names are distinct |
| Reporters.QueueKeyIsInjective | controlplane/pending_queue.go:113-115 | the queue key determines the experiment |
| Reporters.Reporter.Submit | dispatcher/reporter.go:61-93 | one file under the result's name if the write succeeds, then the loop is woken |
| Reporters.Reporter.FlushOne | dispatcher/reporter.go:140-174 | the file goes exactly if it is corrupt, or its result was stored and the answer arrived |
| Reporters.Reporter.Flush | dispatcher/reporter.go:115-138 | one pass removes exactly the files of the pass whose delivery succeeded |
| Repositories.Repository.TryMarkExperimentStarting | controlplane/repository.go:1128-1152 | succeeds exactly on a PENDING row; an error leaves open whether it was applied |
| Repositories.Repository.MarkExperimentPending | controlplane/repository.go:1154-1173 | writes whatever the status |
| Repositories.Repository.MarkExperimentFailedToStart | controlplane/repository.go:1175-1195 | writes whatever the status |
| Repositories.Repository.MarkPendingExperimentCanceled | controlplane/repository.go:1258-1284 | cancels exactly a PENDING row |
| Repositories.Repository.MarkOrphanedExperimentsFailed | controlplane/repository.go:1293-1343 | fails exactly the STARTING and RUNNING rows of lost nodes past the grace period |
| Repositories.Repository.UpdateExperimentResult | controlplane/repository.go:27-125 | the reported result replaces the row, whatever it was |
| Repositories.OrphansAreReconcileSteps | controlplane/scheduler.go:380-419 | the one statement amounts to single reconciling steps of the protocol |
| Schedulers.Scheduler.StartOnNode | controlplane/scheduler.go:269-332 | asks the dispatcher only for a row it turned from PENDING to STARTING; the row afterwards is determined by the verdict |
| Schedulers.Scheduler.Pick | controlplane/node_registry.go:167-223 | picks a live node that can take the record, or none if and only if there is none; the node holds one slot and the limit more, the others stay |
| Schedulers.Scheduler.SettleNode | controlplane/scheduler.go:119-240 | the table of nodes afterwards is determined by the verdict; SettlingCharges says what it holds |
| Schedulers.SettlingCharges | controlplane/scheduler.go:101-240 | after the work on a record its node holds one slot and the limit more if the experiment was accepted, already runs or got no answer, and exactly what it held before after a failed mark, a row no longer PENDING and every refusal; it is removed only without an answer at the limit of failures, which any answer resets; other nodes are untouched |
| Schedulers.SettlingMoves | controlplane/scheduler.go:112-190 | the row of a record that went to a node: unchanged unless it was PENDING and the mark took effect; then STARTING there, PENDING on no node after a refusal for now, FAILED there after a refusal for good, the latter two if the update took effect |
| Schedulers.Scheduler.StartRecord | controlplane/scheduler.go:101-240 | one record: the pick, the row, the nodes, the queue and its index afterwards, in these terms; the record is left PENDING and not queued if and only if the refusal was retryable and the update reported as failed took effect |
| Schedulers.Scheduler.RunOnce | controlplane/scheduler.go:90-257 | a whole tick: each record went to a node that could take it, or no node could, judged on the table the records before it left; every node still known has gained exactly the slots and limits of the records that may run on it; rows outside the batch are untouched; the queue holds the records that are tried again, in order; a record is left PENDING and not queued if and only if the database applied the update back to PENDING but reported it as failed |
| Schedulers.ForgottenExactly | controlplane/scheduler.go:112-171 | the row is PENDING and its record not queued again exactly for a PENDING row, a mark that worked, a refusal for slots, memory or a cancel request, and an update that failed after it took effect |
| Schedulers.ForgetsARecord | controlplane/scheduler.go:149-161 | a tick on one record, one free node, the refusal NoFreeSlots and such an update leaves the record PENDING and not queued |
| Schedulers.MarkIsAStep | controlplane/scheduler.go:112-135 | a mark that fails is one step of the protocol, and a mark that finds no PENDING row changes nothing |
| Schedulers.StartIsSteps | controlplane/scheduler.go:112-240 | otherwise the change of the row is the path mark, send, receive or give up, settle of protocol steps, whatever other steps that leave the row alone come between |
| Reachability.CanReachWaitTarget | codegen/generator/validate.go:417-454 | true if and only if a path leads to the target whose intermediate blocks are all ASSIGN or BRANCH; terminates on cyclic graphs |
| Reachability.Search.From | codegen/generator/validate.go:424-454 | a miss leaves a visited set from which nothing new is reachable |
| Reachability.NoWayOut | codegen/generator/validate.go:424-454 | from a set closed under its successors no path leads out |
| Linking.Linker.ValidateAndLink | codegen/generator/validate.go:29-55 | accepts if and only if the model is linkable, and then every pointer is the block of that name, wait queues are QUEUEs that lead to their user, and seizes are the users of the resource |
| Linking.Linker.LinkQueue | codegen/generator/validate.go:145-185 | accepts exactly a queue whose names exist, and resolves next, timeout and overflow |
| Linking.Linker.LinkDelay | codegen/generator/validate.go:201-218 | accepts exactly a DELAY whose wait queues are QUEUEs and whose next exists |
| Linking.Linker.LinkSeize | codegen/generator/validate.go:220-247 | accepts exactly a SEIZE whose resource lists it |
| Linking.Linker.LinkBranch | codegen/generator/validate.go:311-329 | resolves all cases and else, or refuses |
| Linking.Linker.LinkResource | codegen/generator/validate.go:331-352 | resolves exactly lists of SEIZEs that use the resource |
| Linking.Linker.CheckReachability | codegen/generator/validate.go:395-415 | accepts if and only if every wait queue leads to its user |
| Linking.SeizesAreUsers | codegen/generator/validate.go:220-247 | the mutual checks make the list of a resource equal to the set of its users |
| Linking.ReachAgrees | codegen/generator/validate.go:395-415 | reachability is a property of the names, not of the resolution |
| LinkedKernel.LinkedExactly | codegen/generator/validate.go:29-55 | of a compiled model that passed linking the kernel asks exactly that synchronous calls go down the numbering and that no entity is handed to a CREATE |
| LinkedKernel.RunnableExactly | codegen/generator/emit_block.go:258-271 | a source that passed linking is runnable, under some numbering, if and only if its immediate-transfer graph has no cycle and nothing is handed to a CREATE |
| LinkedKernel.LinkingAcceptsCycles | codegen/generator/validate.go:29-79 | linking does not check that graph: it accepts an ASSIGN that is its own next block |
| Reentry.HandAgrees | codegen/generator/emit_block.go:87-115 | the block functions without numbering, cut off after some nested calls, give the outcome of the kernel wherever they answer, and answer when 2 * rank + 2 calls are allowed |
| Relapse.WiredExactly | codegen/generator/validate.go:29-55 | they are defined for a model that passed linking if and only if no entity is handed to a CREATE |
| Relapse.SelfFeedingNeverReturns | codegen/generator/emit_block.go:422-452 | the ASSIGN that is its own next block never answers, however many nested calls are allowed |
| Relapse.QueueDestroysTwice | codegen/generator/emit_block.go:258-268 | if the unit is taken, an entity that enters the queue whose BRANCH leads to a RELEASE waking that queue is destroyed twice, and the transfer is accepted |
| Relapse.PlacedTwice | codegen/generator/emit_block.go:618-662 | from every state in which each slot but that of the entity in hand has its one place, the transfer leaves its slot on the free list twice without a stop |
| Relapse.OneSlotForTwo | codegen/container/pool.go:15-24 | from the initial state, the second entity is destroyed twice and the next two allocations hand out one slot |
| Relapse.RelapsingComesFromSource | codegen/generator/validate.go:29-55 | linking accepts the source of that model |
| Acyclic.RanksExactlyAcyclic | codegen/generator/emit_block.go:258-271 | the edges of a finite graph can all descend in some numbering if and only if there is no cycle |
| Expressions.Translator.TranslateExpr | codegen/generator/emit_expr.go:60-84 | succeeds if and only if the text is an expression of a type the context allows, by a grammar and typing of the text itself, and yields that type; the output is, up to blanks, its own tokens in order with each name mapped, lexing it gives exactly the tokens of these images, and the entity is the one whose fields occur |
| Expressions.Translator.TranslateToken | codegen/generator/emit_expr.go:92-163 | one round of the loop: reads the one piece of the grammar that stands there, with its operand and operator, or fails exactly if none stands there or it makes no sense |
| Expressions.Translator.TranslateName | codegen/generator/emit_expr.go:95-118 | reads the one name or call that stands there, with the operand that the name or the function has, or fails exactly if none stands there, the name does not resolve or the call makes no sense |
| Parsing.PieceIsUnique | codegen/generator/emit_expr.go:228-298 | at a position of a text at most one name, number, call, operator or other character of the grammar can stand |
| Parsing.ReadingIsUnique | codegen/generator/emit_expr.go:86-175 | a text has at most one reading by the grammar |
| Parsing.AcceptedTypeIsUnique | codegen/generator/emit_expr.go:384-468 | an accepted text has one type |
| Samples.IncrementIsTyped | codegen/generator/emit_expr.go:60-84 | for a numeric variable v the text v + 1 is an expression of the declared type of v, where that or no type in particular is wanted, and of no other type anywhere |
| Samples.MissingOperatorAccepted | codegen/generator/emit_expr.go:86-175 | two numbers beside each other are accepted as an int64, although what comes out is not a Go expression |
| Grammar.FunctionsAreKnown | codegen/generator/emit_expr.go:620-646 | casts and distributions are the functions of the table: their names in Go, result types and numbers of arguments |
| Names.FieldResolves | codegen/generator/emit_expr.go:300-382 | a declared field has its declared type and ties the expression to its entity type where fields may be read, and is an error elsewhere |
| Names.BlockMetricResolves | codegen/generator/emit_expr.go:347-357 | a metric of a declared block is a uint64 counter of that block |
| Names.ResourceMetricResolves | codegen/generator/emit_expr.go:359-369 | a metric of a declared resource is a uint64 counter of that resource |
| Names.OnlyDeclaredResolve | codegen/generator/emit_expr.go:300-382 | a name resolves if and only if it is true, false, a variable, the clock, or something declared and one of its fields or metrics |
| Expressions.Translator.TranslateRaw | codegen/generator/emit_expr.go:86-175 | the scanning loop keeps that the text so far is the image of the tokens so far |
| Expressions.Translator.TranslateCall | codegen/generator/emit_expr.go:177-226 | a call of a known function with enough arguments that are an expression becomes the mapped name around them translated, with the result type of the function; any other call is an error |
| Expressions.Translator.InferType | codegen/generator/emit_expr.go:384-468 | finds the type of an expression if it has one, and fails if it has none |
| Expressions.Translator.FindMatchingParen | codegen/generator/emit_expr.go:526-545 | finds the matching parenthesis if and only if there is one |
| Expressions.Translator.CheckArgCount | codegen/generator/emit_expr.go:547-577 | accepts exactly texts with the expected number of pieces between the commas outside parentheses, empty pieces included |
| Arguments.ArgumentsAreSplit | codegen/generator/emit_expr.go:547-577 | these pieces are unique, and their number is one more than the commas counted |
| Arguments.ArgumentsCounted | codegen/generator/emit_expr.go:547-577 | counting commas at depth zero decides whether the text has the expected number of pieces |
| Arguments.CheckErrsExactlyOnBlanks | codegen/generator/emit_expr.go:547-577 | the count is wrong about the given arguments if and only if it accepts and some piece is blank |
| Arguments.EmptyArgumentAccepted | codegen/generator/emit_expr.go:547-577 | the text 1, passes for two arguments although one of them is missing |
| Expressions.Translator.ResolveName | codegen/generator/emit_expr.go:300-382 | maps variables, fields and metrics, or fails, as the name resolves |
| Expressions.Translator.MergeEntity | codegen/generator/emit_expr.go:470-491 | fails exactly on a second entity type; all fields of one expression belong to one |
| Expressions.CallsSeen | codegen/generator/emit_expr.go:98-106 | a name is a call exactly if the next token is an opening parenthesis |
| Boundaries.KeptAdvance | codegen/generator/emit_expr.go:82-159 | what a token becomes is joined with nothing before it: the tokens of the longer text are those so far and its own |
| Boundaries.CallStep | codegen/generator/emit_expr.go:177-226 | a call becomes the tokens of the mapped name, the parentheses and those of its translated arguments, whatever follows it |
| Nesting.NestingIsKept | codegen/generator/emit_expr.go:86-175 | an accepted expression comes out with its parentheses in the same order, so it nests in the same way |
| Rendering.InnerIsBalanced | codegen/generator/emit_expr.go:177-188 | what stands between matching parentheses is balanced and shorter |

## Left out

- Parsing of the block language, its parameters and error messages: the passes start from a parsed model with unique names.
- The emitted text itself, its formatting and the transport commands; metric streaming (`maybeSendMetricStep`, `sendStat`).
- The link between expression texts and the functions that stand for them in the block graph: `LinkedKernel.dfy` joins blocks, pointers, resources and assignment targets only.
- Evaluation of expressions, distributions, floating-point rounding and NaN, conversion of negative or huge numbers to unsigned: expressions are functions, draws an oracle.
- Wrap-around of uint64 and uint32 counters, tickets and slot indices of the kernel.
- Resource capacities are fixed numbers of the model: the expression evaluated once by `initModel` is an input, and the random draws it may make come before the run.
- A DELAY capacity that changes during the run: work conservation is about constant capacities.
- WorkIsConserved: one direction only. The proviso on earlier wait queues is a property of the block graph, and whether a graph that violates it ever idles depends on capacities and draws; for single turns `TurnIdlesExactly` has both directions.
- EachPlacedOnceOnRuns: about boundaries before a stop, because a stop can leave the entity in hand without a place; `OneInHandOnRuns`, `LastTurnStrandsAtMostOne` and `StartStrandsExactly` say what holds then.
- QueueBalanceOnRuns: like the other balances and work conservation, silent once `stop` is set, for the same reason.
- Simulators.Simulator.Run: takes a bound on the number of events, because a simulation need not end; every prefix of the loop is covered.
- The nested loop of a RELEASE over SEIZEs and their wait queues is one loop over the concatenated list, and pointers are indices.
- Unwinding of the scheduler's retries in time: timers, backoff, scale-out requests, the node time-to-live as a clock (a parameter `now` stands for it).
- In `Protocol.dfy` any PENDING row may be scheduled when the scheduler is idle; the in-memory queue, which only narrows the choice, and the node's reservation are in `Scheduler.dfy` and not joined to the protocol; the changes of the row are (`StartIsSteps`).
- DispatcherRuns.KeptAlong: the account follows the protocol where the registry admits and refuses as the steps say and no sum reaches 2^64; `LimitsPreventOverflow` says when none does.
- Reentry.Hand: a call that is cut off has no outcome, so what an exhausted Go stack does is not modelled.
- Interleaving inside a call of `RunOnce`: the class runs it as one piece against an environment that answers each statement and request; the interleavings are those of `Protocol.dfy`.
- Batch status: counts are read and the status written in separate statements.
- Conservation of control-plane reservations across reports: a redelivered report releases again, so beyond single ticks, where gains are exact (`RunOnce`), only the upper bounds are stated.
- Schedulers.Scheduler.RunOnce: the reserved memory of a node that reports no total is counted exactly only while the batch cannot make it reach 2^64; slots always are.
- Expiries.NobodyWaitsLonger: about a constant timeout; `WaiterHasOneExpiry` says when the wait ends for any other.
- Due.ScheduledIsDue: names the clock but not the state in the middle of a turn on which the expression was evaluated; `AdmittedExpires`, `DelayServes` and `ArrivalMakesBatch` name it.
- Rooms.NeverOverfull: about constant capacities, because a capacity that falls does not send anybody away.
- Submit to a journal: the temporary file and its renaming are one atomic write.
- Liveness of delivery: that a report eventually arrives depends on the network.
- SetCancel, Get and List of the dispatcher registry, and the other queries and conversions: plain look-ups.
- Trimming of blanks beyond ASCII, and identifiers beyond ASCII letters, in expressions.
- The text of errors, logging, S3, NATS, gRPC, HTTP, PostgreSQL, process control and cgroups.
