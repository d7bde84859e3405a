# A verified model of the qb actor engine

qb runs one worker loop per core. Cores exchange events through one bounded
single-producer ring per ordered pair of cores, with an unbounded outbound pipe in front of
each ring. Actors live on one core; they may initialise asynchronously, kill each other, and
leave their ids to others. This project models that engine in Dafny and proves what its
comments promise, over every run and every interleaving.

## How the project is organised

**Transport.** `Transport` is a state machine over all cores: pipes, rings, batches, stashes,
phases, addresses and a ledger of payloads. Every list of steps is a run; a step that is not
enabled does nothing. `TransportSafety` proves what every step keeps. `TransportTheorems`
draws the conclusions: each payload is owned exactly once, mail is FIFO end to end, nothing
deliverable is dropped for a live core, and each ring has one writer and one reader. `Losses`
says what may be lost: exactly the best-effort events the logs record. `Routing` ties the
destination to the core set's index, says where every sent, forwarded and replied event goes,
and shows why the producer slot must be the running core's and not the sender's. `Shutdown`
holds the loops of the code (flush, receive, drain, the sweep at join) as methods of a class;
between any two of their steps an arbitrary schedule of the other threads is run. `DrainEnds`
proves that the drain ends: for one core whose peers go on receiving, and for all cores of a
fair run. `Buckets`, `SpscRing` and `RingOfEvents` go down to the storage: events as runs of
buckets, the ring under every interleaving of producer and consumer, and the proof that the
bucket ring is the ring of events that `Transport` talks about.

**Life cycle.** `Lifecycle` has the operations on the state of one core as functions, and
`LifecycleSafety` and `LifecycleTheorems` what they keep. `Passes` puts whole passes of the
workflow together (the listener, the pump, dispatch, the callbacks, the reap), with the orders
in which hash tables are walked as parameters; `PassTheorems` draws conclusions over passes.
`VirtualCore` has the code's loops as a class proved against these functions. User code is a
script of kills and creations, and creations have scripts of their own, so that handlers,
`onInit` bodies and callbacks may do anything the API allows. `Stashes` plays a core's passes
and the transport together and shows that the two agree about what is stashed. `IdPool` (over
`Words`) is the bitset of free ids and `Startup` the ids promised before the start.

**Small protocols.** `CoreSet` (routing index), `Ask` (request and reply), `Signals`,
`Barrier` (start-up), `Epoll` with `EpollRuns` and `EpollLoop`, and `PollTable`.

## What turned out not to hold everywhere

Five promises have exceptions in the code. Each is kept as it is in the model, shown by a
concrete case, and its exact condition is proved.

- The frame of a suspended `onInit` can outlive its actor in two ways: a plain actor is created
  while the id pool is exhausted (`SuspendedSpawnIsSafeIffIdLeft`), or a service creates itself
  again in its own `onInit`, so that the table has another actor under its id when it suspends
  (`SuspendedServiceIsSafeIff`, `RecreatedServiceIsOrphaned`). The life-cycle theorems hold on
  every run in which neither happens, which the history flag `orphaned` records. It stays false
  on every run that tries to create no more actors than there are ids and creates no service
  from inside itself (`Workflow`, `PassPlenty`).
- Kills are recorded by id and ids are reused, so a new actor can be reaped for a kill of its
  predecessor (`NewcomerIsReapedIff`, `SpawnedIsReapedIff`, `ReusedIdIsReaped`). It cannot
  while no kill is recorded for a free id (`UnusedIdsAreSafe`).
- A positive multiple of 2^32 signals between two passes of a core is lost to that core
  (`FinalSignalIsDelivered`, `WrappedSignalsAreLost`).
- The epoll record has a wrong mask after the kernel refused to change the mask of a
  registration (`ModifyArms`, `GaveUpKeepsIff`, `GivingUpCanBreak`).
- The epoll loop hands on an event of a file its descriptor does not have, after the
  descriptor got back a file it is still registered for while another registration has its
  generation (`ReopeningIsSafeIff`, `GhostIsDispatched`).

Two smaller ones: correlation ids are unique below 2^48 asks per core and collide beyond
(`SameIdIff`, `IdsCollideBeyond`), and promised ids are real only if the number of services
is the same at both times (`PromisesAreKeptIff`). `getSize` of a core set returns one past the
largest member, not the table size its documentation names (src/qb/core/CoreSet.h:128); the
model follows the code.

## Model

| member | source | states |
|---|---|---|
| `TransportSafety.StepKeepsInv` | src/qb/core/VirtualCore.cpp:141-398 | every step of every thread keeps payload books, link order, ring capacity and the reasons for drops |
| `TransportSafety.RunKeepsInv` | src/qb/core/VirtualCore.cpp:643-797 | so does every finite run, from any state in order |
| `TransportSafety.DepartKeeps` | src/qb/core/VirtualCore.cpp:281-398 | an event that leaves its pipe as sent, oversize, lost or abandoned keeps the books and the order |
| `TransportSafety.SendKeeps` | src/qb/core/VirtualCore.cpp:968-989 | `send`, which may bypass or overtake the pipe, keeps the books and the order of pushed events |
| `TransportSafety.TakeKeeps` | src/qb/core/VirtualCore.cpp:217-229 | taking a batch from a ring, or swapping out the core's own pipe, keeps order and books |
| `TransportSafety.DispatchKeeps` | src/qb/core/VirtualCore.cpp:141-215 | whether a handler consumes, holds, replies to or forwards an event, its payload stays owned once |
| `TransportTheorems.OwnedExactlyOnce` | src/qb/core/VirtualCore.cpp:141-398 | after any run each created payload is freed once, or resident once, or lost once, and those lost are exactly the best-effort events some link dropped |
| `Losses.RunKeepsBooked` | src/qb/core/VirtualCore.cpp:337-358 | after any run the ledger of losses is, as a multiset, what the logs record as lost: nothing consumed, oversize, abandoned or swept is ever in it |
| `Losses.LostIffDropped` | src/qb/core/VirtualCore.cpp:337-358 | a payload is lost exactly when a link dropped it with quality of service 0 although a ring could hold it |
| `TransportTheorems.NothingLeaks` | src/qb/core/Main.cpp:228-266 | with all cores stopped and rings swept nothing is resident and every payload that no link dropped as best-effort was freed exactly once |
| `Stashes.StashHolds` | src/qb/core/VirtualCore.cpp:540-562 | an event the gate keeps is held once more by the core, every other token as often as before |
| `Stashes.FinishReleases` | src/qb/core/VirtualCore.cpp:588-639 | finishing an activation releases exactly its stash, whatever the replayed handlers do |
| `Stashes.ReceiveHasSteps` | src/qb/core/VirtualCore.cpp:141-215 | a received event can always be handled in the transport as the gate decides |
| `Stashes.FinishHasSteps` | src/qb/core/VirtualCore.cpp:588-639 | while the two models agree, the transport can take every event of a finished activation out of its stash |
| `Stashes.PassMovesMove` | src/qb/core/VirtualCore.cpp:645-766 | a pass is a list of moves that finish only frames that are done and remove no actor whose finished frame is unpumped |
| `Stashes.StaysLinked` | src/qb/core/VirtualCore.cpp:141-229 | however the other threads interleave, the transport's stash of a core holds exactly what its activations hold |
| `Stashes.LinkedAtStart` | src/qb/core/VirtualCore.cpp:457-484 | a new core and a new engine agree about what is stashed |
| `Stashes.InitStaysLinked` | src/qb/core/VirtualCore.cpp:457-484 | driving an appended actor's `onInit` stashes nothing |
| `Stashes.WorkflowStaysLinked` | src/qb/core/VirtualCore.cpp:642-766 | so over any number of passes of the workflow |
| `Stashes.LeavingAllowsDrain` | src/qb/core/VirtualCore.cpp:764-797 | a core that leaves its workflow has nothing stashed in the transport and may begin to drain, which is the guard the leak theorem rests on |
| `TransportTheorems.EndToEndFifo` | src/qb/core/VirtualCore.cpp:217-398 | after any run, on every ordered pair of cores, pushed minus recorded drops is received, batch, ring, pipe in that order |
| `TransportTheorems.DiscardedOnlyToTheStopped` | src/qb/core/VirtualCore.cpp:799-837 | after any run a discarded event was oversize or best-effort, or its destination has stopped |
| `TransportTheorems.OneWriter` | src/qb/core/Main.cpp:207-221 | a step of any other thread, a forward or a reply of another core's event included, leaves a core's pipes and histories alone and only takes from the front of its rings |
| `TransportTheorems.OneReader` | src/qb/core/VirtualCore.cpp:217-229 | a step of any other thread only appends to the rings into a working core and leaves its batches and what it received alone |
| `Routing.IndexRoutes` | src/qb/core/CoreSet.cpp:50-62 | the table of the core set's index is a routing table and resolves every id as `resolve` does |
| `Routing.MailIsAddressed` | src/qb/core/Main.cpp:207-221 | after any run, through replies and forwards, a core is sent, holds and has received only mail whose destination resolves to it |
| `Routing.BySourceIsSafeIff` | src/qb/core/VirtualCore.cpp:967-974 | choosing the producer slot by the event's source would leave all other cores alone exactly when the source is on the running core |
| `Routing.SlotBySourceHasTwoWriters` | src/qb/core/Main.cpp:207-212 | in the state before a forward, that choice writes another core's ring, and the code's choice does not |
| `Routing.RelayReached` | src/qb/core/VirtualCore.cpp:991-1002 | a run that leads to that state |
| `Routing.ReplyGoesBack` | src/qb/core/VirtualCore.cpp:991-996 | a reply adds one event, with the ends swapped and the same payload, to the link from the replying core to the sender's, and nothing anywhere else |
| `Routing.ForwardGoesOn` | src/qb/core/VirtualCore.cpp:998-1003 | a forward adds one event, with the sender kept, to the link to the new destination's core, and nothing anywhere else |
| `Routing.PostedGoesOut` | src/qb/core/VirtualCore.cpp:976-989 | any new event of a core with actors can be pushed or sent: it goes to the end of the pipe to its destination's core, or into the ring, or into the pipe, and nowhere else |
| `Shutdown.Engine.TrySend` | src/qb/core/Main.cpp:191-221 | counts one attempt; it succeeds exactly when the whole event fits, then the head left the pipe as sent; otherwise nothing changed |
| `Shutdown.Engine.DropHead` | src/qb/core/VirtualCore.cpp:337-358 | an event that did not fit is dropped as oversize or as best-effort, with that reason recorded |
| `Shutdown.Engine.Retry` | src/qb/core/VirtualCore.cpp:340-398 | at most 512 further attempts, each after the other threads ran, and all of them before giving up; ends with the head sent, or kept and deliverable |
| `Shutdown.Engine.FlushHead` | src/qb/core/VirtualCore.cpp:320-398 | with at most 513 attempts the head leaves for a recorded reason or is a deliverable guaranteed event; into an empty ring it is sent whenever it fits |
| `Shutdown.Engine.FlushPipe` | src/qb/core/VirtualCore.cpp:281-398 | one pipe is split in order into sent, dropped and kept; the kept part is headed by a deliverable guaranteed event; progress if the ring was empty |
| `Shutdown.Engine.FlushAll` | src/qb/core/VirtualCore.cpp:281-398 | one pass does so for every pipe, with at most 513 attempts per queued event, tries every pipe that is not empty, and reports work exactly when something was queued |
| `Shutdown.Engine.ReceiveFrom` | src/qb/core/VirtualCore.cpp:217-229 | exactly what was in one ring, or in the core's own pipe, is received in order; no other link of the core changes on its side |
| `Shutdown.Engine.Receive` | src/qb/core/VirtualCore.cpp:217-229 | everything found in any ring into the core has been received, all batches are dispatched and the own pipe is empty, whatever the producers do meanwhile |
| `Shutdown.Engine.DisposeResidual` | src/qb/core/VirtualCore.cpp:799-837 | pipes to stopped cores are emptied, pipes to live ones kept; true exactly when outbound mail is left |
| `Shutdown.Engine.DisposePipe` | src/qb/core/VirtualCore.cpp:818-835 | the pipe to a stopped core is emptied and nothing else of the core changes |
| `Shutdown.Engine.DrainRound` | src/qb/core/VirtualCore.cpp:785-794 | a round that is not the last received from every producer what it found, tried every pipe, emptied the pipes to cores that had stopped and has mail left; the last leaves nothing |
| `Shutdown.Engine.Drain` | src/qb/core/VirtualCore.cpp:785-797 | while the live peers receive once in every round, at most two rounds per queued event, under every schedule; then the core stops with nothing left |
| `DrainEnds.TakeEmpties` | src/qb/core/VirtualCore.cpp:217-229 | a peer that takes what it finds leaves the ring empty if the core put nothing more into it |
| `DrainEnds.TriedShrinks` | src/qb/core/VirtualCore.cpp:281-398 | an attempt on a pipe whose ring is empty shrinks the pipe |
| `DrainEnds.TwoRoundsShrink` | src/qb/core/VirtualCore.cpp:785-794 | two rounds of a core, its peers receiving in the first, shrink its backlog whatever all other threads do |
| `DrainEnds.LoopEnds` | src/qb/core/VirtualCore.cpp:785-797 | so its loop goes round at most twice per queued event |
| `DrainEnds.AllCoresStop` | src/qb/core/VirtualCore.cpp:765-797 | when all cores drain and each does a round or stops in every stretch of a run, all have stopped after at most twice as many stretches as events are queued and cores are working |
| `Shutdown.Engine.Join` | src/qb/core/Main.cpp:465-481 | after the sweep of all mailboxes nothing is resident and every payload that no link dropped as best-effort was freed exactly once |
| `Shutdown.Engine.SweepMailbox` | src/qb/core/Main.cpp:246-265 | all rings of one mailbox are empty afterwards and no payload was created |
| `Buckets.BucketSizeIsCeiling` | src/qb/core/Pipe.h:323-342 | the reserved buckets hold the event and are less than one bucket too many |
| `Buckets.BucketSizeWraps` | src/qb/core/Pipe.h:323-342 | the first size that wraps the 16-bit field reads as a zero-width event |
| `Buckets.WalkFlatten` | src/qb/core/VirtualCore.cpp:141-215 | flattening whole events and walking by their size fields gives the same events back |
| `Buckets.WalkBatch` | src/qb/core/VirtualCore.cpp:141-215 | the walking loop yields exactly the events a batch is made of |
| `Buckets.InPlaceIsWholeIffAligned` | src/qb/core/Main.cpp:236-265 | walking a wrapped ring in place gives whole events exactly when the wrap falls between two events |
| `SpscRing.RunKeepsInv` | src/qb/system/lockfree/spsc.h:90-264 | under every interleaving of slot copies and index publications the ring holds what was published and not taken |
| `SpscRing.RingIsAQueue` | src/qb/system/lockfree/spsc.h:90-264 | from a fresh ring, nothing is lost, torn or reordered and the capacity is never exceeded |
| `SpscRing.BatchesAreWholeEvents` | src/qb/core/VirtualCore.cpp:217-229 | every batch copied out walks back into exactly the events published when the read began |
| `SpscRing.EnqueueRefusesExactlyWhenFull` | src/qb/system/lockfree/spsc.h:90-264 | enqueue is all or nothing and refuses exactly when the piece does not fit beside what is queued |
| `SpscRing.EnqueueCompletes` | src/qb/system/lockfree/spsc.h:90-264 | an enqueue that fits is published whole whatever the consumer does meanwhile |
| `SpscRing.DequeueCompletes` | src/qb/system/lockfree/spsc.h:90-264 | a read that finds something takes everything published when it began, in order, whatever the producer does meanwhile |
| `SpscRing.ChunkCoversRing` | src/qb/core/VirtualCore.h:152-154 | the receive chunk covers a full ring for every bucket size |
| `RingOfEvents.EncodedTellsApart` | src/qb/core/Pipe.h:323-342 | the buckets of an event tell its payload and its width |
| `RingOfEvents.AcceptedIffRoom` | src/qb/core/Main.cpp:207-221 | the bucket ring accepts an event exactly when the transport model has room for it |
| `RingOfEvents.PublishIsSend` | src/qb/system/lockfree/spsc.h:90-264 | publishing the write index is the send step |
| `RingOfEvents.PublishIsTake` | src/qb/system/lockfree/spsc.h:90-264 | publishing the read index is the take step, and the batch walks back into the events taken |
| `RingOfEvents.OtherActsAreInvisible` | src/qb/system/lockfree/spsc.h:90-264 | no other act of either thread changes the events the ring holds |
| `LifecycleSafety.KillAllOnlyKills` | src/qb/core/Actor.cpp:282-290 | kills mark and record exactly their targets and change nothing else |
| `LifecycleSafety.DestroyShape` | src/qb/core/VirtualCore.cpp:896-923 | destroying an actor touches nobody else's activation, records its destructor's kills and returns its id to the pool unless it is a service's |
| `LifecycleSafety.RemoveKeeps` | src/qb/core/VirtualCore.cpp:881-924 | removal is deferred while the frame is suspended and complete otherwise, strands nobody and loses no stash |
| `LifecycleSafety.RemoveLeaksExactlyFinishedStashes` | src/qb/core/VirtualCore.cpp:887-897 | a removal drops stashed events exactly when the frame has finished unpumped and the stash is not empty |
| `LifecycleSafety.ActivatingKept` | src/qb/core/VirtualCore.cpp:518-533 | an activation begun under an unused id has an empty gate at the present point of the routing history and keeps the life cycle in order |
| `LifecycleSafety.RecreatedKept` | src/qb/core/VirtualCore.cpp:863-879 | a service that was created again in its own `onInit` is destroyed, and takes the other one with it when it failed; the core stays in order unless that orphans a frame |
| `LifecycleSafety.PerformAllKeeps` | src/qb/core/VirtualCore.cpp:841-879 | any user code, creating actors and services inside the `onInit` of others and of themselves, keeps the life cycle in order, free and live ids disjoint, and nobody stranded, unless it orphans a frame |
| `LifecycleTheorems.SpawnedActor` | src/qb/core/VirtualCore.cpp:841-879 | a new plain actor gets the least free id and a service its own, in use from then on; it enters the table active, activating or not at all as its `onInit` decides, with its destructor, and what its `onInit` did stays |
| `LifecycleTheorems.RejectedActor` | src/qb/core/VirtualCore.cpp:863-879 | a service that is there already, and a plain actor without an id, leave nothing but their destructor's kills; the `onInit` of the first does not run |
| `LifecycleTheorems.ResumeKeeps` | src/qb/core/VirtualCore.cpp:599-602 | exactly the suspended frames with a verdict end, each with its own, and nothing else changes |
| `LifecycleTheorems.StashKeeps` | src/qb/core/VirtualCore.cpp:540-562 | the stash is the first 4096 gated arrivals in order; later ones are disposed |
| `LifecycleTheorems.ExpireKeeps` | src/qb/core/VirtualCore.cpp:573-586 | exactly the overdue suspended activations are being cancelled afterwards |
| `LifecycleTheorems.OverflowCancels` | src/qb/core/VirtualCore.cpp:545-553 | a stash overflow makes the next pump cancel the activation while its frame is suspended |
| `LifecycleTheorems.FailureKeeps` | src/qb/core/VirtualCore.cpp:588-624 | a failed or killed activation has its whole stash disposed and its actor removed, nobody else touched |
| `LifecycleTheorems.SuccessReplays` | src/qb/core/VirtualCore.cpp:625-638 | a successful activation routes next exactly the first gated arrivals in order and leaves the actor active |
| `LifecycleTheorems.SuspendedSpawnIsSafeIffIdLeft` | src/qb/core/VirtualCore.cpp:863-879 | creating a plain actor whose `onInit` suspends, after doing anything, keeps the life cycle in order exactly when an id is left |
| `LifecycleTheorems.SuspendedServiceIsSafeIff` | src/qb/core/VirtualCore.cpp:863-879 | creating a service whose `onInit` suspends does exactly unless its `onInit` left an active actor under its id |
| `LifecycleTheorems.ServiceIsSafe` | src/qb/core/VirtualCore.cpp:863-879 | a service that does not create itself again, at any depth, always does |
| `LifecycleTheorems.RecreatedServiceIsOrphaned` | src/qb/core/VirtualCore.cpp:867-874 | a service that creates itself and then suspends does not, in any core without it |
| `LifecycleTheorems.EnoughIds` | src/qb/core/VirtualCore.cpp:119-127 | user code that tries to create no more actors, at any depth, than ids are left, and no service inside itself, never leaves a frame without its actor |
| `PassTheorems.KillsAddUp` | src/qb/core/VirtualCore.cpp:939-942 | user code adds its own kills to those recorded, the same whatever was recorded before |
| `PassTheorems.NewcomerIsReapedIff` | src/qb/core/VirtualCore.cpp:735-756 | a new actor is taken by the next reap exactly when its own or later code, the destructor of another actor that goes, or a kill recorded for its id before it was created names it |
| `PassTheorems.SpawnedIsReapedIff` | src/qb/core/VirtualCore.cpp:735-756 | a plain actor nobody kills after its creation is taken exactly when a kill was recorded for the least free id |
| `PassTheorems.UnusedIdsAreSafe` | src/qb/core/VirtualCore.cpp:735-756 | while no kill is recorded for a free id, no plain actor is taken by a kill older than itself |
| `PassTheorems.ReusedIdIsReaped` | src/qb/core/VirtualCore.cpp:645-756 | two passes from a new core in which a live actor is reaped for a kill of its predecessor |
| `PassTheorems.PassPlenty` | src/qb/core/VirtualCore.cpp:645-766 | a pass that tries to create no more actors than there are ids, in coroutines, replays, handlers and callbacks, and no service inside itself, orphans no frame and leaves the difference |
| `VirtualCore.Worker.InitActors` | src/qb/core/VirtualCore.cpp:457-484 | drives the appended actors in order and succeeds exactly when no `onInit` fails; then the core is in order, each actor that suspended is activating with its deadline and each other one active |
| `VirtualCore.InitRunsScript` | src/qb/core/VirtualCore.cpp:457-484 | driving one actor runs its `onInit` and otherwise concerns its own activation only |
| `VirtualCore.Worker.GenerateId` | src/qb/core/VirtualCore.cpp:119-127 | the least free id is taken out of the pool, or 0 |
| `VirtualCore.Worker.RemoveActor` | src/qb/core/VirtualCore.cpp:881-924 | the code with its destructor loop is the removal whose effects the lemmas above state |
| `VirtualCore.Worker.Act` | src/qb/core/VirtualCore.cpp:841-879 | the code of kills and creations, with `onInit` bodies nested to any depth, is the action those lemmas are about |
| `VirtualCore.Worker.StashEvent` | src/qb/core/VirtualCore.cpp:540-562 | the event is kept exactly when fewer than 4096 are stashed; otherwise the activation is made to expire |
| `VirtualCore.Worker.ReceiveEvents` | src/qb/core/VirtualCore.cpp:141-215 | the dispatch loop gates, answers or routes the events of a batch in order |
| `Passes.ReceiveKeeps` | src/qb/core/VirtualCore.cpp:165-199 | each received event is routed to its handlers, which run, or answered, or gated, exactly one; KillEvents, broadcasts and mail to an actor that is not activating are always routed |
| `VirtualCore.Worker.FinishActivation` | src/qb/core/VirtualCore.cpp:588-639 | one finished frame: teardown with its stash disposed, or activation with its stash replayed in order |
| `VirtualCore.Worker.PumpActivations` | src/qb/core/VirtualCore.cpp:564-640 | afterwards every frame is suspended, those overdue are being cancelled and nothing else happened to them, and for every actor the events newly routed to it are exactly the first 4096 arrivals of its gate if its activation succeeded and none otherwise, and the events newly disposed for it the same if it failed |
| `Passes.PumpKeeps` | src/qb/core/VirtualCore.cpp:564-640 | so in every order of the finished activations, whatever the replayed handlers do |
| `Passes.ReplayComesFirst` | src/qb/core/VirtualCore.cpp:625-638 | from the beginning of its activation an actor was routed KillEvents only, and then exactly those arrivals in order, before any later delivery |
| `PassTheorems.ReplayIsReceive` | src/qb/core/VirtualCore.cpp:625-638 | a replay delivers the stashed events as if they arrived now, each to its handlers |
| `VirtualCore.Worker.Reap` | src/qb/core/VirtualCore.cpp:735-756 | the reap ends whatever destructors kill; then no kill is pending and every dead actor left waits for its frame |
| `Passes.ReapExact` | src/qb/core/VirtualCore.cpp:735-756 | in any order those go who were killed before or are named by the destructor of an actor that goes, and nobody else; those with a suspended frame are dying instead |
| `Passes.ReapedByAnother` | src/qb/core/VirtualCore.cpp:735-756 | nobody goes on its own word: it was killed before or another actor that goes names it |
| `Passes.ReapKeeps` | src/qb/core/VirtualCore.cpp:735-756 | nobody dead is left behind unless it waits for its frame, and the core stays in order |
| `VirtualCore.Worker.RemoveBatch` | src/qb/core/VirtualCore.cpp:746-752 | removing a batch in any order settles all of it, and new kills appear only if an actor went away |
| `Passes.ListenKeeps` | src/qb/core/VirtualCore.cpp:686-693 | whatever coroutines do and whichever frames finish, the core stays in order |
| `Passes.PassKeeps` | src/qb/core/VirtualCore.cpp:645-766 | a pass in any orders keeps the core in order and all frames suspended, and one that ends the workflow leaves no actor, activation or dying actor |
| `Passes.LeavesIffLastActorGone` | src/qb/core/VirtualCore.cpp:694-756 | a core that has actors leaves its workflow in a pass exactly when that pass takes its last one, in the pump or in the reap |
| `PassTheorems.CallbacksRunUnlessKilled` | src/qb/core/VirtualCore.cpp:702-733 | the loop callbacks run after everything is received, and are skipped exactly when a kill is recorded by then |
| `PassTheorems.KilledInPassIsTaken` | src/qb/core/VirtualCore.cpp:735-756 | whoever is killed before or in a pass, by a coroutine, a handler or a callback that ran, is gone at its end or waits for its frame |
| `VirtualCore.Worker.OnePass` | src/qb/core/VirtualCore.cpp:645-766 | the code of one pass, loops and early exits included, is such a pass; it leaves only with an empty table, always after a reap that emptied it, and, if the core had actors, exactly when none is left |
| `VirtualCore.Worker.Workflow` | src/qb/core/VirtualCore.cpp:642-766 | plays the passes one after the other and ends at the first that takes the last actor; that keeps the core in order, no stash is ever dropped undisposed, and when the loop leaves nothing is left; outright when the passes create no more actors than there are ids and no service inside itself |
| `VirtualCore.PeopledUntilLeft` | src/qb/core/VirtualCore.cpp:642-766 | over any passes there are actors before each, and the last one leaves exactly when none is left |
| `VirtualCore.PoolGivesNewId` | src/qb/core/VirtualCore.cpp:119-127 | the id drawn from the bitset pool is the new id of the life-cycle model |
| `Words.ClearLowest` | src/qb/core/VirtualCore.h:219-222 | `w & (w - 1)` removes exactly the position that counting trailing zeros finds, which is the least |
| `Words.SetBit` | src/qb/core/VirtualCore.h:200-203 | or-ing a mask adds that position and no other |
| `Words.TestBit` | src/qb/core/VirtualCore.h:237-239 | and-ing a mask is not zero exactly when the position is set |
| `IdPool.RemoveLowest` | src/qb/core/VirtualCore.h:212-228 | the lowest bit of the first non-zero word is the least free id, and clearing it removes that id only |
| `IdPool.ServiceIdPool.constructor` | src/qb/core/VirtualCore.h:191-206 | a new pool holds exactly the ids from its minimum up to 65534 |
| `IdPool.ServiceIdPool.Acquire` | src/qb/core/VirtualCore.h:212-228 | takes the least free id; returns 65535 exactly when there is none |
| `IdPool.ServiceIdPool.Release` | src/qb/core/VirtualCore.h:234-247 | adds the id, and nothing when it is free already or no id |
| `IdPool.ServiceIdPool.Empty` | src/qb/core/VirtualCore.h:249-252 | the cached count is 0 exactly when no id is free |
| `IdPool.ServiceIdPool.Generate` | src/qb/core/VirtualCore.cpp:119-127 | draws the least free id, or 0 from an exhausted pool |
| `Startup.CoreInitializer.AddActor` | src/qb/core/Main.h:737-763 | a plain actor is promised the next consecutive id below 65535, a service its own id the first time, else none |
| `Startup.Construct` | src/qb/core/Actor.cpp:114-137 | a plain actor draws the next id and a service keeps its own; the pool holds every id not drawn |
| `Startup.RunFactories` | src/qb/core/Main.cpp:344-345 | factories get ids in order from the pool, stopping at the first without one |
| `Startup.PromiseIsKept` | src/qb/core/Main.h:737-763 | with the same service count every recorded actor gets the id it was promised |
| `Startup.PromisesAreKeptIff` | src/qb/core/Main.cpp:36-56 | promises hold for two service counts exactly when they are equal or no plain actor was recorded |
| `Startup.RecordedAsPromised` | src/qb/core/Main.h:737-763 | one factory is recorded per id promised, with that id, in the order of the calls |
| `Startup.PromisedApart` | src/qb/core/Main.h:737-763 | no id is promised twice |
| `Startup.Boot` | src/qb/core/Main.cpp:335-349 | for any list of calls the actors made have exactly the ids promised, in order and all different, and the counter is full exactly when the pool is exhausted |
| `CoreSet.Fill` | src/qb/core/CoreSet.cpp:44-48 | each member gets the number of members below it, without 8-bit wrap before the last |
| `CoreSet.RanksNumberMembers` | src/qb/core/CoreSet.cpp:32-48 | that numbering is an order-preserving bijection onto 0..n-1 |
| `CoreSet.Extent` | src/qb/core/CoreSet.cpp:35-43 | the descending scan finds one past the largest member |
| `CoreSet.Count` | src/qb/core/CoreSet.cpp:32-34 | the number of members |
| `CoreSet.Advance` | src/qb/core/ActorId.h:269-274 | the iterator stops at the next member |
| `CoreSet.Index.constructor` | src/qb/core/CoreSet.cpp:32-48 | a new index is that bijection |
| `CoreSet.Index.Resolve` | src/qb/core/CoreSet.cpp:50-62 | any id resolves to a mailbox index in range, and two members never to the same |
| `CoreSet.MembersResolveInOrder` | src/qb/core/CoreSet.cpp:50-62 | members resolve in their order, and every other id to 0 |
| `CoreSet.EveryMailboxHasAMember` | src/qb/core/CoreSet.cpp:32-48 | every mailbox index is some member's |
| `Ask.SameIdIff` | src/qb/core/Actor.cpp:50-65 | two asks share an id exactly when their numbers agree below 2^48 and their high parts or-ed with the core agree |
| `Ask.IdsAreUnique` | src/qb/core/Actor.cpp:50-65 | below 2^48 asks ids are unique across cores and name their core |
| `Ask.IdsCollideBeyond` | src/qb/core/Actor.cpp:50-65 | ask 2^48 + 1 of core 0 has the id of the first ask of core 1 |
| `Ask.ForeignIdMisses` | src/qb/core/Actor.cpp:76-90 | an id minted on another core is in no registry of this one |
| `Ask.AskThread.NextId` | src/qb/core/Actor.cpp:50-65 | ids are never 0, also when the counter wraps |
| `Ask.AskThread.Ask` | src/qb/core/Actor.h:1549-1609 | a new ask has a fresh awaiter with its own id; on a cancelled scope it is ready at once with nothing suspended, armed or scheduled, otherwise it waits with slot, timer and hook armed |
| `Ask.AskThread.Suspend` | src/qb/core/Actor.h:1572-1597 | on a cancelled scope the continuation is scheduled and nothing can wake it again; otherwise slot, timer and hook are armed; no other awaiter, slot, timer or hook is touched |
| `Ask.AskThread.Deliver` | src/qb/core/Actor.cpp:76-90 | a reply is taken exactly when its slot is registered, the owner matches and it is not done; then it is scheduled once with that reply |
| `Ask.AskThread.Expire` | src/qb/core/Actor.h:1651-1659 | a timeout decides the outcome exactly when nothing did before |
| `Ask.AskThread.OnCancel` | src/qb/core/Actor.h:1589-1595 | a cancel hook decides the outcome exactly when nothing did before |
| `Ask.AskThread.CancelScope` | src/qb/core/Actor.h:1588-1597 | every hooked awaiter is done, those undecided are cancelled, all others are as they were |
| `Ask.AskThread.Finish` | src/qb/core/Actor.h:1618-1638 | afterwards no slot, timer or hook can wake the awaiter, and those of every other id and awaiter are as they were |
| `Ask.AskThread.Destroy` | src/qb/core/Actor.h:1611-1616 | a destroyed awaiter is referred to by nothing, and nothing else is touched |
| `Ask.AskThread.Run` | src/qb/core/Actor.h:1538-1660 | the code ends where the commands lead; over any sequence of asks, replies, timeouts, cancels, resumptions and destructions each outcome is set once, no continuation is scheduled twice, no registry entry outlives its awaiter |
| `Ask.WaitingAskIsServed` | src/qb/core/Actor.h:1538-1660 | after any run of fewer than 2^48 asks, an ask that was not decided, resumed or destroyed takes its reply, its timeout and the end of its scope |
| `Signals.StepKeepsInv` | src/qb/core/VirtualCore.cpp:659-684 | every interleaved step keeps the events a core sent its deliveries for raises in order, with at most one more for the stop, and the latest number last |
| `Signals.DeliveriesAreBounded` | src/qb/core/Main.cpp:280-287 | over every run the events a core sends are its deliveries for raises, in order, and at most one more for the stop token; they never outnumber raises by more |
| `Signals.PendingIsLatest` | src/qb/core/Main.cpp:280-287 | the pending number is the one raised last |
| `Signals.PassSends` | src/qb/core/VirtualCore.cpp:671-683 | the events of one pass: the pending number for a new signal, that number or an interrupt for an undelivered stop, none when neither |
| `Signals.FinalSignalIsDelivered` | src/qb/core/VirtualCore.cpp:659-684 | once all raises finished, one more pass leaves the number raised last in the last event sent, exactly unless a positive multiple of 2^32 was missed |
| `Signals.NoSignalIsLost` | src/qb/core/VirtualCore.cpp:659-684 | with fewer than 2^32 raises it always does |
| `Signals.WrappedSignalsAreLost` | src/qb/core/VirtualCore.cpp:671-675 | a run in which 2^32 raises are lost |
| `Signals.StopIsDeliveredOnce` | src/qb/core/VirtualCore.cpp:674-681 | a stop request without signals becomes one interrupt, once |
| `Barrier.RunKeepsInv` | src/qb/core/Main.cpp:335-378 | the counter is the number of arrived cores until an error is stored and an error for good afterwards |
| `Barrier.BarrierOpens` | src/qb/core/Main.cpp:369-378 | a waiter stops spinning exactly when an error was stored or nobody is booting, and enters exactly when all arrived cleanly and no error was stored |
| `Barrier.EveryoneStarts` | src/qb/core/Main.cpp:369-378 | when every core arrives and then loads once, every core works |
| `Barrier.FailedInitLeaves` | src/qb/core/Main.cpp:335-353 | a core whose init fails stores its error, arrives all the same and leaves at its next turn |
| `Barrier.ExceptionIsAnError` | src/qb/core/Main.cpp:355-366 | an exception of a booting or working core is an error for all and ends that core only |
| `Barrier.ErrorCodeValues` | src/qb/core/VirtualCore.h:126-131 | the error codes are 512, 1024, 2048 and 4096 |
| `Barrier.NobodyStartsAfterAnError` | src/qb/core/VirtualCore.h:126-141 | once an error is stored every waiter leaves at its next turn and none starts |
| `Epoll.ModifyArms` | src/qb/ev/ev_epoll.c:121-182 | every outcome but giving up leaves the present file registered with the new generation or marked always ready, no ghost with it, and the record right; giving up breaks the record in exactly one case |
| `Epoll.ModifyGivesUpIff` | src/qb/ev/ev_epoll.c:142-177 | a modification gives up exactly when the descriptor is closed or the kernel denies the call that decides, never on a file that epoll refuses |
| `Epoll.GaveUpKeepsIff` | src/qb/ev/ev_epoll.c:174-181 | that case: the present file stays registered with another mask than the one just cached |
| `Epoll.OpenKeepsIff` | src/qb/ev/ev_epoll.c:121-182 | the record of a descriptor that gets a file stays right exactly when its registration for that file, if any, has the recorded generation and mask |
| `Epoll.ModifySafe` | src/qb/ev/ev_epoll.c:121-182 | every outcome of a modification, giving up included, keeps generations apart: none ahead of the descriptor's, and no ghost with it while the present file is registered |
| `Epoll.GivingUpCanBreak` | src/qb/ev/ev_epoll.c:174-181 | a concrete refused change that leaves the record wrong |
| `EpollRuns.GhostIsDispatched` | src/qb/ev/ev_epoll.c:121-260 | a run from a new loop, without any fault, that hands on an event of file 2 for a descriptor that has file 1 |
| `EpollRuns.ReopeningIsSafeIff` | src/qb/ev/ev_epoll.c:121-260 | a closed descriptor may get a file exactly unless it is still registered for it while another registration has its generation: otherwise every careful run hands on genuine events only, and in that case some does not |
| `EpollLoop.EventLoop.Modify` | src/qb/ev/ev_epoll.c:121-182 | the code with its two calls and error branches is the modification the lemmas above are about |
| `EpollLoop.EventLoop.Handle` | src/qb/ev/ev_epoll.c:205-259 | an event is handed on exactly when its generation is the descriptor's and it is wanted or the present registration can be trimmed; then it is trimmed to what is wanted, and otherwise the kernel is untouched |
| `EpollRuns.HandleKeeps` | src/qb/ev/ev_epoll.c:205-259 | handling an event keeps the record right unless it fails |
| `EpollRuns.HandleSafe` | src/qb/ev/ev_epoll.c:205-259 | it keeps the generations apart whether it fails or not |
| `EpollRuns.DispatchedAreGenuine` | src/qb/ev/ev_epoll.c:229-240 | a matching generation means the registration of the present file, below 2^32 modifications |
| `EpollRuns.GhostPassesIff` | src/qb/ev/ev_epoll.c:229-240 | beyond that, a registration of another file passes for the present one exactly when the descriptor is a multiple of 2^32 generations ahead of it |
| `EpollLoop.EventLoop.Poll` | src/qb/ev/ev_epoll.c:184-260 | hands on exactly the events whose handling says so, and asks for the kernel state to be recreated exactly when it dropped one |
| `EpollRuns.PollSafe` | src/qb/ev/ev_epoll.c:184-260 | only events of the present file are handed on, and generations stay apart, whatever fails |
| `EpollRuns.PollFeeds` | src/qb/ev/ev_epoll.c:205-259 | of the wanted events exactly those whose generation matches are handed on, in order, and no other with a stale generation |
| `EpollRuns.PollKeeps` | src/qb/ev/ev_epoll.c:184-260 | the record stays right if every event was handed on |
| `EpollLoop.EventLoop.PollRefused` | src/qb/ev/ev_epoll.c:269-283 | exactly the wanted always-ready descriptors are reported ready, and the list has no others afterwards |
| `EpollRuns.ScanClears` | src/qb/ev/ev_epoll.c:269-283 | the scan changes nothing but the marks of the descriptors it takes off the list |
| `EpollLoop.EventLoop.Recreate` | src/qb/ev/ev.c:3187-3197 | an empty kernel table makes the record right again and every wanted descriptor is queued for modification |
| `EpollRuns.ReifyKeepsIff` | src/qb/ev/ev.c:3078-3128 | a change of wanted events concerns one descriptor, arms it unless the loop gives up on it, and the record stays right exactly unless the kernel refused to change another mask |
| `EpollLoop.EventLoop.WaitFor` | src/qb/ev/ev_epoll.c:184-283 | a poll with the scan of the always-ready files hands on what the poll does, reports the always-ready ones, and recreation is due afterwards exactly when that is not everything reported |
| `EpollRuns.RunSafe` | src/qb/ev/ev_epoll.c:121-283 | over any run of changes, waits, opens, closes and releases, through give-ups, faults and recreations, every event handed on is genuine, as long as no descriptor gets a file that makes a ghost |
| `EpollRuns.DoKeeps` | src/qb/ev/ev_epoll.c:121-283 | each step keeps the record right or due for recreation, exactly the two exceptions above aside |
| `EpollLoop.EventLoop.Run` | src/qb/ev/ev_epoll.c:121-283 | the code ends every run where the commands lead, with everything handed on in its log; so its log is genuine on those runs |
| `PollTable.Table.Modify` | src/qb/ev/ev_poll.c:34-64 | the table holds the new events afterwards exactly unless the caller claimed no change against it; other descriptors are untouched |
| `PollTable.Table.Allocate` | src/qb/ev/ev_poll.c:42-49 | a descriptor without an entry gets one at the end; entries and index stay inverse |
| `PollTable.PollEventsBits` | src/qb/ev/ev_poll.c:53-54 | the mask has POLLIN and POLLRDHUP exactly for reading, POLLOUT exactly for writing, and no other bit |
| `PollTable.Table.SetEvents` | src/qb/ev/ev_poll.c:53-54 | the entry of the descriptor holds the poll mask of the wanted events |
| `PollTable.Table.Remove` | src/qb/ev/ev_poll.c:55-63 | swap-removal keeps entries and index inverse to each other, also for the last entry |
| `PollTable.Table.Run` | src/qb/ev/ev_poll.c:34-64 | after any run of truthful calls the table holds for each descriptor what the last call asked for |

## Left out

- Zero-width events: every event is at least one bucket wide and its 16-bit size has not
  wrapped. The defensive branches for a zero size discard the rest of a batch undisposed.
- Exceptions that leave the workflow: runs are normal ones.
- FIFO of `send`, `reply` and `forward`: they may bypass or overtake the pipe; order is
  claimed for pushed events only. A handler replies to or forwards an event at most once.
- Destructors that create actors.
- `__drive_init__`: the three outcomes of the first resume are inputs of the model.
- The link between the pump and the router: replayed and routed events are handed to a
  history; `router::memh` disposes what its handlers do not re-send.
- The worker's free ids are a set; the bitset pool that implements it is proved separately.
- The schedule of the coroutine scheduler and the cancellation token: cancelling only
  schedules, frames advance only in the listener, and no handle of a destroyed frame is run.
- The other helpers that draw correlation ids (streams, discovery).
- A service count of 65535, at which the 16-bit minimum of the pool wraps to 0.
- `allocator::pipe` and the multi-producer wrapper of the rings: a FIFO buffer, and one ring
  per producer.
- Weak memory order: atomics are interleaved steps.
- CPU affinity, OS signal installation, thread creation, condition-variable waits, logging,
  metrics, the callback list, the type-id registry and the debug guards.
- Growth policy of the poll arrays, and `poll_poll`.
- `fd_kill`: watchers it stops show up as later changes of the wanted events.
- The kqueue backend, strings, JSON, UUID and the umbrella headers.
