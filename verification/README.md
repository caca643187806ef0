# Verified models of the C++ Actor Framework core

SUMMA-Actors is built on a bundled copy of the C++ Actor Framework (CAF 1.1.0). This project models
the parts of that copy whose correctness depends on state, interleaving or two sides that have to
agree, and proves what they promise. `dafny verify dfyconfig.toml` checks all of it.

| file | models |
|---|---|
| Basics.dfy | an option type and a lemma that several files share |
| DiningPhilosophers.dfy | the actor protocol of the dining philosophers example |
| BlockingReceive.dfy | selective receive of blocking actors over mailbox and stash |
| MailboxHandshake.dfy | the block/notify handshake between producers and the owner of a mailbox |
| ControlBlock.dfy | strong and weak reference counts of an actor |
| Action.dfy | the lock-free action, and the decorator of the actor clock |
| Attachables.dfy, Links.dfy | the list of attachables, termination, and links between actors |
| BinaryFormat.dfy, BinaryLayout.dfy, BinaryStreams.dfy | the binary wire format, its bytes and bits, its serializer and deserializer (Arithmetic.dfy: division by products) |
| ConfigValues.dfy, ConfigValueWriter.dfy, ConfigValueReader.dfy | storing typed values in a `config_value` and loading them |
| ConfigServer.dfy | the key-value store with subscriptions |
| Coordinator.dfy | the worker pool of the curl example |
| RunningCount.dfy | the count of running actors and the thread that waits for it |

Objects of the source are classes whose methods are proved against functions or against the steps of a
protocol; the protocols are state machines with one step per atomic operation or message, and their
theorems hold in every state of every run. Atomic operations are sequentially consistent steps.
Threads without identity are counted: a state says how many of them stand at each program point. The
methods of concurrent objects take the steps of other threads between their own atomic operations as
an argument. "Under every schedule" speaks of infinite traces that rest only when no thread can go on;
nobody has to wake up without a notification.

Eight promises one might expect do not hold of the code. Each is replaced by the exact condition:

- A call of an action's function can start after `dispose()` has returned (`Action.NoCallAfterDisposeIff`).
- Unlinking from an actor that has lost its last strong reference and is not cleaned up yet removes one
  side of the link only (`Links.SymmetryIff`, `Links.ExpiredUnlinkKeepsOtherSide`).
- A worker of the curl example retries a failing transfer for ever, so jobs can starve
  (`Coordinator.EveryJobIsServedIff`).
- The configuration server does not monitor every subscriber (`ConfigServer.MonitoredIff`).
- Sizes are cut to 32 bits when written, so longer strings do not survive (`BinaryFormat.RoundTrip`).
- The size reader shifts beyond its type on long inputs (`BinaryFormat.SizeUndefinedIff`). The decoder of the
  model returns a value of its own for that undefined behavior.
- The reader of configuration values refuses lists and maps inside lists that the writer has written
  (`ConfigValues.RoundTrip`).
- A thread that waits for a running count of 1 can miss it when the count comes from 0
  (`RunningCount.LostWakeupIff`). The one call with 1 outside of tests is made by a registered actor
  (blocking_actor.cpp:190), which is the safe case.

## Model

| member | source | states |
|---|---|---|
| `DiningPhilosophers.Chopstick.Receive` | utils/dependencies/actor-framework-1.1.0/examples/dynamic_behavior/dining_philosophers.cpp:44-66 | the chopstick actor with its behavior stack does what the pure reaction says: take grants and remembers the sender, or answers false; put pops the behavior only for the current user |
| `DiningPhilosophers.Philosopher.Receive` | utils/dependencies/actor-framework-1.1.0/examples/dynamic_behavior/dining_philosophers.cpp:109-181 | the five behaviors: the new phase, the requests to each chopstick, the timers, and that every change of behavior unstashes everything |
| `DiningPhilosophers.StepInv` | utils/dependencies/actor-framework-1.1.0/examples/dynamic_behavior/dining_philosophers.cpp:39-208 | every delivery of a message keeps the invariant that ties phases, chopstick owners and all messages in flight together |
| `DiningPhilosophers.NeighboursNeverEatTogether` | utils/dependencies/actor-framework-1.1.0/examples/dynamic_behavior/dining_philosophers.cpp:44-208 | in every reachable state of a table with n >= 2 seats an eating philosopher is the recorded user of the chopstick of its own number and of the next one in the ring, so seats p and p + 1 never eat together |
| `DiningPhilosophers.RingWiring` | utils/dependencies/actor-framework-1.1.0/examples/dynamic_behavior/dining_philosophers.cpp:206-208 | seat p has chopstick p on its left and (p + 1) mod n on its right |
| `DiningPhilosophers.StickBelongsTo` | utils/dependencies/actor-framework-1.1.0/examples/dynamic_behavior/dining_philosophers.cpp:44-66 | after any requests from anybody a chopstick belongs to p exactly if p took it while it was available and has not put it back since |
| `DiningPhilosophers.EveryPutReleases` | utils/dependencies/actor-framework-1.1.0/examples/dynamic_behavior/dining_philosophers.cpp:50-64 | a put in flight belongs to the recorded user and is next in line, so the branch for an unexpected put is never taken and handling the put releases |
| `DiningPhilosophers.NoForgottenChopstick` | utils/dependencies/actor-framework-1.1.0/examples/dynamic_behavior/dining_philosophers.cpp:132-162 | whoever is recorded as user eats, holds the chopstick as its first one, has the answer on its way, or has a put on its way |
| `DiningPhilosophers.PendingMailFitsBehavior` | utils/dependencies/actor-framework-1.1.0/examples/dynamic_behavior/dining_philosophers.cpp:109-181 | each philosopher waits for exactly the messages its behavior handles (one eat, two or one answers, or one think), the stash stays empty, and a step for it is enabled: no deadlock |
| `DiningPhilosophers.EverybodyCanStillEat` | utils/dependencies/actor-framework-1.1.0/examples/dynamic_behavior/dining_philosophers.cpp:109-208 | from every reachable state and for every philosopher there is a continuation in which it eats: no livelock trap |
| `BlockingReceive.BlockingActor.Unstash` | utils/dependencies/actor-framework-1.1.0/libcaf_core/caf/blocking_actor.cpp:369-372 | popping the LIFO stash to the front of the mailbox restores the order of arrival |
| `BlockingReceive.BlockingActor.Dispatch` | utils/dependencies/actor-framework-1.1.0/libcaf_core/caf/blocking_actor.cpp:259-300 | one popped message is consumed exactly if the pattern accepts it, and then the stash goes back to the front of the mailbox; otherwise it is stashed, which moves the scan position on the unchanged queue |
| `BlockingReceive.BlockingActor.Iterate` | utils/dependencies/actor-framework-1.1.0/libcaf_core/caf/blocking_actor.cpp:242-300 | one round with arbitrary arrivals does exactly what one step of the scan over the single queue does: consume or skip the next message, time out, or keep waiting |
| `BlockingReceive.IterationLogs` | utils/dependencies/actor-framework-1.1.0/libcaf_core/caf/blocking_actor.cpp:242-300 | an iteration takes the first message that is not skipped, arrivals included; without one, a finite timeout runs its handler exactly once and an infinite one waits |
| `BlockingReceive.NoRoundYet` | utils/dependencies/actor-framework-1.1.0/libcaf_core/caf/blocking_actor.cpp:248-257 | with a finite timeout every iteration completes a round or skips a message |
| `BlockingReceive.BlockingActor.ReceiveImpl` | utils/dependencies/actor-framework-1.1.0/libcaf_core/caf/blocking_actor.cpp:204-301 | a whole receive is exactly the scan over one queue ordered by arrival, reverse(stash) ++ mailbox, its log is a run of "remove the oldest acceptable message", and with a finite timeout more iterations than messages complete a round |
| `BlockingReceive.RoundsAreTheRest` | utils/dependencies/actor-framework-1.1.0/libcaf_core/caf/blocking_actor.cpp:238-257 | everything in the log of a receive that is no arrival is a round |
| `BlockingReceive.ScanAllReplays` | utils/dependencies/actor-framework-1.1.0/libcaf_core/caf/blocking_actor.cpp:204-301 | the scan only ever consumes the oldest acceptable message and times out only when there is none |
| `BlockingReceive.ConsumedInTime` | utils/dependencies/actor-framework-1.1.0/libcaf_core/caf/blocking_actor.cpp:242-300 | the oldest acceptable message is consumed in exactly as many rounds as there are unskipped messages up to it, whatever arrives meanwhile |
| `BlockingReceive.ReceiveProgress` | utils/dependencies/actor-framework-1.1.0/libcaf_core/caf/blocking_actor.cpp:204-301 | so a receive that still waits completes a round with that message as soon as the world goes on for that many rounds |
| `BlockingReceive.ReceiveIsFair` | utils/dependencies/actor-framework-1.1.0/libcaf_core/caf/blocking_actor.cpp:204-301 | over any run of receives with one pattern the consumed messages are the acceptable arrivals in order, and the skipped ones stay in order |
| `BlockingReceive.ReplayConserves` | utils/dependencies/actor-framework-1.1.0/libcaf_core/caf/blocking_actor.cpp:204-301 | arrived = consumed + queued as multisets, and the queue is a subsequence of what arrived |
| `BlockingReceive.CallsConserve` | utils/dependencies/actor-framework-1.1.0/libcaf_core/caf/blocking_actor.cpp:204-301 | the same over any run of receives with different patterns: nothing lost, duplicated or reordered |
| `MailboxHandshake.FifoMailbox.PushBack` | utils/dependencies/actor-framework-1.1.0/libcaf_core/caf/abstract_mailbox.hpp:19-25 | closed, blocked and open mailboxes answer queue_closed, unblocked_reader and success, and the first two effects exclude each other |
| `MailboxHandshake.MailboxIsFifo` | utils/dependencies/actor-framework-1.1.0/libcaf_core/caf/abstract_mailbox.hpp:19-35 | over any run on an open mailbox the owner fetches the pushed messages in order, and the rest is queued |
| `MailboxHandshake.PutBackIsNext` | utils/dependencies/actor-framework-1.1.0/libcaf_core/caf/abstract_mailbox.hpp:27-35 | a message that the owner puts in front is fetched next, and that restores the state |
| `MailboxHandshake.FifoMailbox.TryBlock` | utils/dependencies/actor-framework-1.1.0/libcaf_core/caf/abstract_mailbox.hpp:46-48 | blocks exactly an open, empty, unblocked mailbox |
| `MailboxHandshake.FifoMailbox.TryUnblock` | utils/dependencies/actor-framework-1.1.0/libcaf_core/caf/abstract_mailbox.hpp:50-52 | succeeds exactly on a blocked mailbox |
| `MailboxHandshake.StepInv` | utils/dependencies/actor-framework-1.1.0/libcaf_core/caf/blocking_actor.cpp:68-323 | every interleaved step of producers and owner keeps the handshake invariant |
| `MailboxHandshake.NoLostWakeup` | utils/dependencies/actor-framework-1.1.0/libcaf_core/caf/blocking_actor.cpp:68-89 | an owner asleep beside an unblocked or non-empty mailbox still gets a notify from a producer that is inside enqueue |
| `MailboxHandshake.AwaitDataIsRight` | utils/dependencies/actor-framework-1.1.0/libcaf_core/caf/blocking_actor.cpp:303-323 | await_data reports data only if the next pop_front finds a message, also on the timeout race; it reports none only if try_unblock succeeded on an empty mailbox |
| `MailboxHandshake.WakeupCompletes` | utils/dependencies/actor-framework-1.1.0/libcaf_core/caf/blocking_actor.cpp:80-84 | an owner that waits beside a message reports data under every schedule, without a further message and without spurious wakeups |
| `MailboxHandshake.Synchronizer.Produce` | utils/dependencies/actor-framework-1.1.0/libcaf_core/caf/blocking_actor.cpp:68-89 | each part of enqueue on the mailbox object is its step of the protocol |
| `MailboxHandshake.Synchronizer.AwaitData` | utils/dependencies/actor-framework-1.1.0/libcaf_core/caf/blocking_actor.cpp:303-323 | both forms, with producers, spurious wakeups and the deadline in between, are runs of the protocol; true means that a message is there, false that the mailbox is empty and unblocked; a mailbox with a message is never waited for, a wait ends unless the mailbox is blocked or a producer is inside enqueue, and a deadline ends it unless the lock is taken |
| `ControlBlock.StepInv` | utils/dependencies/actor-framework-1.1.0/libcaf_core/caf/actor_control_block.cpp:27-67 | every atomic step of any number of threads keeps the ownership invariant between counters, handles and threads inside the functions |
| `ControlBlock.DataDestroyedOnce` | utils/dependencies/actor-framework-1.1.0/libcaf_core/caf/actor_control_block.cpp:43-62 | data_dtor runs at most once, only on a terminated actor without strong holders, and while it has not run somebody is responsible for it |
| `ControlBlock.BlockDestroyedLast` | utils/dependencies/actor-framework-1.1.0/libcaf_core/caf/actor_control_block.cpp:36-41 | block_dtor runs at most once, after data_dtor, and afterwards no thread can take any step on the block, despite the test for weak_refs == 1 |
| `ControlBlock.NoUpgradeAfterDestruction` | utils/dependencies/actor-framework-1.1.0/libcaf_core/caf/actor_control_block.cpp:27-34 | no upgrade succeeds once destruction has begun, also not with a count that was loaded before |
| `ControlBlock.UpgradeIsSafe` | utils/dependencies/actor-framework-1.1.0/libcaf_core/caf/actor_control_block.cpp:27-34 | an upgrade that succeeds finds undestroyed data, also during the temporary resurrection |
| `ControlBlock.UndisturbedUpgradeSucceeds` | utils/dependencies/actor-framework-1.1.0/libcaf_core/caf/actor_control_block.cpp:27-34 | the load followed by an exchange that nobody disturbs adds one strong handle to a living actor |
| `ControlBlock.UpgradeOutcome` | utils/dependencies/actor-framework-1.1.0/libcaf_core/caf/actor_control_block.cpp:29-33 | an exchange succeeds exactly if the count is as loaded, and a loop gives up only at count zero |
| `ControlBlock.EverythingDestroyedInTheEnd` | utils/dependencies/actor-framework-1.1.0/libcaf_core/caf/actor_control_block.cpp:43-67 | no step is left (no handle, no thread inside) exactly if both destructors have run |
| `ControlBlock.ReleasesDestroy` | utils/dependencies/actor-framework-1.1.0/libcaf_core/caf/actor_control_block.cpp:36-67 | if every holder releases and nobody makes new references, both destructors run under every schedule of the releases |
| `ControlBlock.ForeignIsStep` | utils/dependencies/actor-framework-1.1.0/libcaf_core/caf/actor_control_block.cpp:27-67 | what other threads do around one thread is the same step of the protocol |
| `ControlBlock.PathReachable` | utils/dependencies/actor-framework-1.1.0/libcaf_core/caf/actor_control_block.cpp:27-67 | every call of a function, with whatever other threads do in between, is a stretch of a run of the protocol |
| `ControlBlock.Block.UpgradeWeak` | utils/dependencies/actor-framework-1.1.0/libcaf_core/caf/actor_control_block.cpp:27-34 | the compare-exchange loop, with steps of other threads and spurious failures before every attempt, follows the protocol; it returns false only after the count was 0, and undisturbed it succeeds exactly if the count is not 0 |
| `ControlBlock.Block.ReleaseWeak` | utils/dependencies/actor-framework-1.1.0/libcaf_core/caf/actor_control_block.cpp:36-41 | follows the protocol to its end with steps of other threads between the test and the fetch_sub; undisturbed it destroys the block exactly with the last weak reference |
| `ControlBlock.Block.Release` | utils/dependencies/actor-framework-1.1.0/libcaf_core/caf/actor_control_block.cpp:43-67 | follows the protocol to its end with steps of other threads in between, including the return when a reference was added during the cleanup; undisturbed it terminates and destroys exactly with the last strong reference |
| `Action.StepInv` | utils/dependencies/actor-framework-1.1.0/libcaf_core/caf/action.hpp:156-217 | every interleaved step of runs, disposes and the destructor keeps the invariant on state and owners of the function object |
| `Action.FunctionUsedSafely` | utils/dependencies/actor-framework-1.1.0/libcaf_core/caf/action.hpp:156-217 | never called after destruction, at most one thread inside, at most one call in the single-shot form, destroyed exactly once by the end; no assertion in the code fails |
| `Action.DisposedIsForever` | utils/dependencies/actor-framework-1.1.0/libcaf_core/caf/action.hpp:164-217 | disposed() never goes back to false, and after it at most one call starts, by a run that had already won its compare-exchange |
| `Action.DisposeReturnedMeansDisposed` | utils/dependencies/actor-framework-1.1.0/libcaf_core/caf/action.hpp:164-186 | after dispose() has returned, disposed() holds |
| `Action.NoCallAfterDisposeIff` | utils/dependencies/actor-framework-1.1.0/libcaf_core/caf/action.hpp:164-217 | a call starts after dispose() has returned exactly if a run had won its compare-exchange and not called yet |
| `Action.NoCallAfterDisposeOfScheduled` | utils/dependencies/actor-framework-1.1.0/libcaf_core/caf/action.hpp:164-171 | what a caller can rely on: a dispose that wins its exchange on a scheduled action is followed by no call in any run |
| `Action.LateCallExists` | utils/dependencies/actor-framework-1.1.0/libcaf_core/caf/action.hpp:192-206 | such a late call is reachable in both forms, so the unconditional promise is false of the code |
| `Action.DisposeOfDisposedReturns` | utils/dependencies/actor-framework-1.1.0/libcaf_core/caf/action.hpp:176-178 | a dispose of a disposed action only returns |
| `Action.UndisposedStaysReusable` | utils/dependencies/actor-framework-1.1.0/libcaf_core/caf/action.hpp:201-217 | as long as nobody disposes a multi-shot action it is scheduled or running, its function is not destroyed, and a scheduled one can run |
| `Action.PathReachable` | utils/dependencies/actor-framework-1.1.0/libcaf_core/caf/action.hpp:164-217 | every run or dispose, with whatever other threads do in between, is a stretch of a run of the protocol |
| `Action.ActionImpl.Dispose` | utils/dependencies/actor-framework-1.1.0/libcaf_core/caf/action.hpp:164-180 | the loop, with changes by other threads between load and exchange and with spurious failures, follows the protocol to its end; the exact new state when nobody disturbs it |
| `Action.ActionImpl.RunSingleShot` | utils/dependencies/actor-framework-1.1.0/libcaf_core/caf/action.hpp:192-199 | follows the protocol to its end with steps of other threads in between; undisturbed it calls and destroys the function once, exactly if the action was scheduled |
| `Action.ActionImpl.RunMultiShot` | utils/dependencies/actor-framework-1.1.0/libcaf_core/caf/action.hpp:201-217 | follows the protocol to its end with steps of other threads in between, also when the function disposes its own action; undisturbed it calls the function once and leaves the action scheduled |
| `Action.ActionImpl.RunAgain` | utils/dependencies/actor-framework-1.1.0/libcaf_core/caf/action.hpp:201-217 | k undisturbed runs make k calls |
| `Action.EnqueuedAtMostOnce` | utils/dependencies/actor-framework-1.1.0/libcaf_core/caf/actor_clock.cpp:33-90 | under any interleaving of resume and dispose, a decorator hands its action to the worker at most once |
| `Action.ChanceIsKept` | utils/dependencies/actor-framework-1.1.0/libcaf_core/caf/actor_clock.cpp:51-90 | as long as the action is not disposed and the worker can be locked, the chance to enqueue is not lost |
| `Action.ResumeOutcome` | utils/dependencies/actor-framework-1.1.0/libcaf_core/caf/actor_clock.cpp:51-90 | an undisturbed resume enqueues an action that is not disposed, enqueues no disposed one, and disposes the action if the worker has expired |
| `Action.DisposedIsNotEnqueued` | utils/dependencies/actor-framework-1.1.0/libcaf_core/caf/actor_clock.cpp:33-90 | after the action is disposed only a resume that has already passed its test still enqueues |
| `Attachables.Actor.AttachImpl` | utils/dependencies/actor-framework-1.1.0/libcaf_core/caf/abstract_actor.cpp:62-65 | the swap of pointers puts the attachable in front of the heap list |
| `Attachables.Actor.Attach` | utils/dependencies/actor-framework-1.1.0/libcaf_core/caf/abstract_actor.cpp:37-54 | attaches to a live actor; on a terminated one the caller is told to call at once with the recorded fail state |
| `Attachables.Actor.DetachImpl` | utils/dependencies/actor-framework-1.1.0/libcaf_core/caf/abstract_actor.cpp:67-91 | the pointer-to-pointer loop on the heap list equals counting, removing the first or removing all matches, for each setting of stop_on_hit and dry_run |
| `Attachables.Actor.Cleanup` | utils/dependencies/actor-framework-1.1.0/libcaf_core/caf/abstract_actor.cpp:150-183 | only the first cleanup takes effect; it empties the list, records the reason and calls every attachable once in list order |
| `Attachables.Actor.AddBacklink` | utils/dependencies/actor-framework-1.1.0/libcaf_core/caf/abstract_actor.cpp:236-258 | adds one link entry exactly if the actor is live and has none for the other side |
| `Attachables.Actor.AddLink` | utils/dependencies/actor-framework-1.1.0/libcaf_core/caf/abstract_actor.cpp:205-225 | both heap lists get their entry or none does, and who is sent an exit message with which fail state |
| `Attachables.Actor.RemoveLink` | utils/dependencies/actor-framework-1.1.0/libcaf_core/caf/abstract_actor.cpp:227-265 | removes the first link entry on each side |
| `Attachables.DetachSplits` | utils/dependencies/actor-framework-1.1.0/libcaf_core/caf/abstract_actor.cpp:67-91 | what is detached and what stays make up the list, as multisets |
| `Attachables.LifeRunInv` | utils/dependencies/actor-framework-1.1.0/libcaf_core/caf/abstract_actor.cpp:37-183 | every attachment is at every time waiting, moved aside, due, detached or called, and the fail state is fixed once |
| `Attachables.CalledExactlyOnce` | utils/dependencies/actor-framework-1.1.0/libcaf_core/caf/abstract_actor.cpp:37-183 | cleanup takes effect at most once, and every attachable that was not detached is called exactly once with the one fail state, attached before or after termination |
| `Attachables.DueCallsAreMade` | utils/dependencies/actor-framework-1.1.0/libcaf_core/caf/abstract_actor.cpp:170-172 | all calls that are due can be made, those of cleanup in list order |
| `Attachables.CleanupCallsTheList` | utils/dependencies/actor-framework-1.1.0/libcaf_core/caf/abstract_actor.cpp:150-172 | the first cleanup calls exactly the list with its reason |
| `Attachables.AttachOrder` | utils/dependencies/actor-framework-1.1.0/libcaf_core/caf/abstract_actor.cpp:37-65 | a live actor keeps the latest attachable in front; a terminated one has them called in order with its fail state |
| `Links.StepInv` | utils/dependencies/actor-framework-1.1.0/libcaf_core/caf/abstract_actor.cpp:150-265 | attach, detach, link, unlink and termination of any actors keep the pairwise link invariant |
| `Links.LinksAreSymmetric` | utils/dependencies/actor-framework-1.1.0/libcaf_core/caf/abstract_actor.cpp:205-265 | two live actors that have never been without a strong reference hold equally many link entries for each other, never more than one |
| `Links.SymmetryIff` | utils/dependencies/actor-framework-1.1.0/libcaf_core/caf/abstract_actor.cpp:95-110 | for any two live actors: their entries for each other can differ exactly if one of them has lost its last strong reference before its cleanup |
| `Links.ExpiredUnlinkKeepsOtherSide` | utils/dependencies/actor-framework-1.1.0/libcaf_core/caf/abstract_actor.cpp:100-110 | in that window unlink_from removes one side only, link_to does not restore it, and the cleanup still sends an exit message to the actor that unlinked |
| `Links.AddLinkLinksOrExits` | utils/dependencies/actor-framework-1.1.0/libcaf_core/caf/abstract_actor.cpp:205-258 | after add_link two such actors are linked, or the other side of a terminated one is sent its exit message; any two live actors are linked exactly if the call did not find an entry on one side only |
| `Links.ExitReachesLinkedOnce` | utils/dependencies/actor-framework-1.1.0/libcaf_core/caf/default_attachable.cpp:25-44 | a terminating actor sends another one as many exit messages as it holds link entries for it, one or none unless it was without a strong reference |
| `Links.DownReachesMonitors` | utils/dependencies/actor-framework-1.1.0/libcaf_core/caf/default_attachable.cpp:25-37 | a terminating actor sends an observer one down message for each of its monitors |
| `Links.MonitorCounts` | utils/dependencies/actor-framework-1.1.0/libcaf_core/caf/abstract_actor.cpp:37-60 | monitoring adds one entry or is answered at once by a terminated actor; demonitoring removes all of the observer |
| `Links.LinksLeaveMonitors` | utils/dependencies/actor-framework-1.1.0/libcaf_core/caf/abstract_actor.cpp:205-265 | linking and unlinking leave monitors alone |
| `Links.FunctorsAreKept` | utils/dependencies/actor-framework-1.1.0/libcaf_core/caf/abstract_actor.cpp:37-65 | a functor goes to the front of the list and sends nothing |
| `BinaryFormat.SizeRoundTrip` | utils/dependencies/actor-framework-1.1.0/libcaf_core/caf/binary_deserializer.cpp:61-74 | a size below 2^32 is read back and the rest is left |
| `BinaryFormat.SizeIsLeb128` | utils/dependencies/actor-framework-1.1.0/libcaf_core/caf/binary_serializer.cpp:35-48 | the bytes of a size are its unsigned LEB128 form (section 7.6 of the DWARF 5 standard) |
| `BinaryFormat.SizeLength` | utils/dependencies/actor-framework-1.1.0/libcaf_core/caf/binary_serializer.cpp:35-48 | the shortest one: at most n bytes exactly if the size is below 128^n |
| `BinaryFormat.SizeTakesFiveBytes` | utils/dependencies/actor-framework-1.1.0/libcaf_core/caf/binary_serializer.cpp:35-48 | at most five bytes below 2^32 |
| `BinaryFormat.SizeUndefinedIff` | utils/dependencies/actor-framework-1.1.0/libcaf_core/caf/binary_deserializer.cpp:61-74 | the shift of the reader leaves its 32 bits exactly on six bytes of which the first five have the continuation bit |
| `BinaryFormat.RoundTrip` | utils/dependencies/actor-framework-1.1.0/libcaf_core/caf/binary_serializer.cpp:35-279 | for every type and value, decoding encoding ++ rest gives the value and leaves rest exactly if its size is below 2^32, since the writer casts sizes to 32 bits |
| `BinaryFormat.RoundTripAll` | utils/dependencies/actor-framework-1.1.0/libcaf_core/caf/binary_deserializer.cpp:61-353 | the same for every sequence of integers, strings, bool vectors and field headers: back and rest left exactly if all sizes are below 2^32 |
| `BinaryFormat.DecodeAllExtends` | utils/dependencies/actor-framework-1.1.0/libcaf_core/caf/binary_deserializer.cpp:166-353 | a successful decode is unchanged by bytes behind it |
| `BinaryFormat.StrictPrefixFails` | utils/dependencies/actor-framework-1.1.0/libcaf_core/caf/binary_deserializer.cpp:166-353 | decoding a strict prefix of an encoding always reports the end of the stream |
| `BinaryLayout.BigEndianByte` | utils/dependencies/actor-framework-1.1.0/libcaf_core/caf/binary_serializer.cpp:19-24 | byte i of an integer of k bytes is x / 256^(k - 1 - i) mod 256 |
| `BinaryLayout.FromBigEndianInverse` | utils/dependencies/actor-framework-1.1.0/libcaf_core/caf/binary_deserializer.cpp:21-50 | reading any big-endian bytes loses nothing |
| `BinaryLayout.IntegerBytes` | utils/dependencies/actor-framework-1.1.0/libcaf_core/caf/binary_serializer.cpp:135-165 | widths of 1, 2, 4 and 8 bytes, two's complement for negative numbers |
| `BinaryLayout.BoolBytes` | utils/dependencies/actor-framework-1.1.0/libcaf_core/caf/binary_serializer.cpp:50-53 | 1 and 0 are written, any byte but 0 is read as true |
| `BinaryLayout.IndexBytes` | utils/dependencies/actor-framework-1.1.0/libcaf_core/caf/binary_serializer.cpp:55-99 | the exact number of bytes of an index for every number of types |
| `BinaryLayout.AbsentBytes` | utils/dependencies/actor-framework-1.1.0/libcaf_core/caf/binary_serializer.cpp:76-99 | an absent value has all bits set |
| `BinaryLayout.HeaderOutcome` | utils/dependencies/actor-framework-1.1.0/libcaf_core/caf/binary_deserializer.cpp:103-156 | what a header of arbitrary bytes means: end of stream, absent, the index, or an invalid field type |
| `BinaryLayout.EncodeBitsAt` | utils/dependencies/actor-framework-1.1.0/libcaf_core/caf/binary_serializer.cpp:213-279 | (n + 7) / 8 bytes for n bools; bool i is bit 7 - i mod 8 of byte i / 8, in a trailing block of r bools bit r - 1 - i mod 8 |
| `BinaryLayout.TrailingBlock` | utils/dependencies/actor-framework-1.1.0/libcaf_core/caf/binary_serializer.cpp:241-277 | the unused high bits of a trailing block are 0 |
| `BinaryLayout.DecodeBitsOutcome` | utils/dependencies/actor-framework-1.1.0/libcaf_core/caf/binary_deserializer.cpp:300-353 | enough bytes suffice, and exactly (n + 7) / 8 are used |
| `BinaryLayout.DecodeBitsAt` | utils/dependencies/actor-framework-1.1.0/libcaf_core/caf/binary_deserializer.cpp:307-351 | each bool read from arbitrary bytes is that bit |
| `BinaryLayout.CharAt` | utils/dependencies/actor-framework-1.1.0/libcaf_core/caf/binary_serializer.cpp:186-211 | character i of a string takes its width of bytes from i times the width on |
| `BinaryLayout.DecodeCharsAt` | utils/dependencies/actor-framework-1.1.0/libcaf_core/caf/binary_deserializer.cpp:250-298 | and is read from there, for arbitrary bytes |
| `BinaryLayout.SizeOutcome` | utils/dependencies/actor-framework-1.1.0/libcaf_core/caf/binary_deserializer.cpp:61-74 | any LEB128 group of at most five bytes reads as its value modulo 2^32, canonical or not; a longer one is undefined |
| `BinaryLayout.SizeWithoutEnd` | utils/dependencies/actor-framework-1.1.0/libcaf_core/caf/binary_deserializer.cpp:61-74 | without an end of the group there are too few bytes, or the shift is undefined |
| `BinaryStreams.LastWriteWins` | utils/dependencies/actor-framework-1.1.0/libcaf_core/caf/binary_serializer.cpp:28-129 | after any run of seeks within the buffer, skips and writes each cell holds the last byte written to it, its old byte, or the zero of a skip |
| `BinaryStreams.BinarySerializer.Seek` | utils/dependencies/actor-framework-1.1.0/libcaf_core/caf/binary_serializer.hpp:86-88 | the cursor is at the offset and the buffer as before |
| `BinaryStreams.BinarySerializer.Skip` | utils/dependencies/actor-framework-1.1.0/libcaf_core/caf/binary_serializer.cpp:28-33 | zero-fills only behind the end of the buffer and keeps the cursor within it |
| `BinaryStreams.BinarySerializer.WriteSpan` | utils/dependencies/actor-framework-1.1.0/libcaf_core/caf/binary_serializer.cpp:101-120 | all three branches are one splice: overwrite in place, extend at the end |
| `BinaryStreams.BinarySerializer.WriteByte` | utils/dependencies/actor-framework-1.1.0/libcaf_core/caf/binary_serializer.cpp:122-129 | both branches are the splice of one byte |
| `BinaryStreams.BinarySerializer.BeginSequence` | utils/dependencies/actor-framework-1.1.0/libcaf_core/caf/binary_serializer.cpp:35-48 | the loop writes the varbyte form of the size modulo 2^32 |
| `BinaryStreams.BinarySerializer.WriteText` | utils/dependencies/actor-framework-1.1.0/libcaf_core/caf/binary_serializer.cpp:186-211 | length prefix and characters of all three string types |
| `BinaryStreams.BinarySerializer.WriteBitVector` | utils/dependencies/actor-framework-1.1.0/libcaf_core/caf/binary_serializer.cpp:213-279 | length prefix and packed bools, whose bits BinaryLayout.EncodeBitsAt states one by one |
| `BinaryStreams.BinarySerializer.WriteValue` | utils/dependencies/actor-framework-1.1.0/libcaf_core/caf/binary_serializer.cpp:50-279 | writes exactly the encoding of the value at the cursor |
| `BinaryStreams.BinaryDeserializer.BeginSequence` | utils/dependencies/actor-framework-1.1.0/libcaf_core/caf/binary_deserializer.cpp:61-74 | the loop returns what the pure decoder returns and never moves past the end |
| `BinaryStreams.BinaryDeserializer.ReadText` | utils/dependencies/actor-framework-1.1.0/libcaf_core/caf/binary_deserializer.cpp:250-298 | one range check, then a loop of unchecked reads that stays within it |
| `BinaryStreams.BinaryDeserializer.ReadBits` | utils/dependencies/actor-framework-1.1.0/libcaf_core/caf/binary_deserializer.cpp:307-351 | one byte per block of at most eight bools |
| `BinaryStreams.BinaryDeserializer.ReadIndex` | utils/dependencies/actor-framework-1.1.0/libcaf_core/caf/binary_deserializer.cpp:103-156 | widths by number of types, -1 for absent, an error for an index out of bounds |
| `BinaryStreams.BinaryDeserializer.ReadValue` | utils/dependencies/actor-framework-1.1.0/libcaf_core/caf/binary_deserializer.cpp:61-353 | returns what the pure decoder returns, the cursor stands behind it on success and never past the end |
| `BinaryStreams.BinarySerializer.WriteAll` | utils/dependencies/actor-framework-1.1.0/libcaf_core/caf/binary_serializer.cpp:50-279 | writes the encodings of all values one behind the other |
| `BinaryStreams.BinaryDeserializer.ReadAll` | utils/dependencies/actor-framework-1.1.0/libcaf_core/caf/binary_deserializer.cpp:61-353 | reads them in order and stops at the first failure |
| `BinaryStreams.Transfer` | utils/dependencies/actor-framework-1.1.0/libcaf_core/caf/binary_serializer.cpp:20-279 | values written behind any bytes are read back from there with nothing left over exactly if all sizes are below 2^32, and those bytes are untouched |
| `ConfigValues.RoundTrip` | utils/dependencies/actor-framework-1.1.0/libcaf_core/caf/config_value_reader.cpp:168-473 | for every typed value, loading what was stored gives the value back, or fails exactly if a list or map is an element of a list or an object has a foreign string in "@type" |
| `ConfigValues.FieldKeys` | utils/dependencies/actor-framework-1.1.0/libcaf_core/caf/config_value_writer.cpp:66-79 | the dictionary of an object has the names of its present fields and no other keys |
| `ConfigValues.StoredAs` | utils/dependencies/actor-framework-1.1.0/libcaf_core/caf/config_value_writer.cpp:46-88 | each kind of value is stored as its own alternative, containers element by element |
| `ConfigValues.ScalarLoads` | utils/dependencies/actor-framework-1.1.0/libcaf_core/caf/config_value_reader.cpp:418-454 | a scalar of the right kind is taken as it is, everything else goes through the conversion |
| `ConfigValues.ContainerLoads` | utils/dependencies/actor-framework-1.1.0/libcaf_core/caf/config_value_reader.cpp:365-414 | lists and maps load from their own kind only, outside lists only, and completely |
| `ConfigValues.ObjectLoads` | utils/dependencies/actor-framework-1.1.0/libcaf_core/caf/config_value_reader.cpp:168-318 | when an object loads, for every input and schema, and what its fields then are |
| `ConfigValueWriter.PlaceSlot` | utils/dependencies/actor-framework-1.1.0/libcaf_core/caf/config_value_writer.cpp:66-84 | the pointer pushed for a new container leads to it, and changing it there equals having placed the changed one |
| `ConfigValueWriter.Writer.Emplace` | utils/dependencies/actor-framework-1.1.0/libcaf_core/caf/config_value_writer.cpp:382-424 | where a value goes for each kind of frame, and exactly when it is refused |
| `ConfigValueWriter.Writer.BeginObject` | utils/dependencies/actor-framework-1.1.0/libcaf_core/caf/config_value_writer.cpp:46-88 | places an empty dictionary and points to it; at the root it replaces the root frame |
| `ConfigValueWriter.Writer.EndObject` | utils/dependencies/actor-framework-1.1.0/libcaf_core/caf/config_value_writer.cpp:90-94 | pops a dictionary and nothing else |
| `ConfigValueWriter.Writer.BeginField` | utils/dependencies/actor-framework-1.1.0/libcaf_core/caf/config_value_writer.cpp:96-109 | pushes a present or an absent field of the dictionary on top |
| `ConfigValueWriter.Writer.EndField` | utils/dependencies/actor-framework-1.1.0/libcaf_core/caf/config_value_writer.cpp:140-149 | pops a field and nothing else |
| `ConfigValueWriter.Writer.BeginSequence` | utils/dependencies/actor-framework-1.1.0/libcaf_core/caf/config_value_writer.cpp:197-234 | places an empty list and points to it |
| `ConfigValueWriter.Writer.EndSequence` | utils/dependencies/actor-framework-1.1.0/libcaf_core/caf/config_value_writer.cpp:236-240 | pops a list and nothing else |
| `ConfigValueWriter.Writer.BeginAssociativeArray` | utils/dependencies/actor-framework-1.1.0/libcaf_core/caf/config_value_writer.cpp:242-297 | places an empty dictionary and points to it, twice at the root |
| `ConfigValueWriter.Writer.EndAssociativeArray` | utils/dependencies/actor-framework-1.1.0/libcaf_core/caf/config_value_writer.cpp:299-303 | pops a dictionary and nothing else |
| `ConfigValueWriter.Writer.BeginKeyValuePair` | utils/dependencies/actor-framework-1.1.0/libcaf_core/caf/config_value_writer.cpp:159-168 | adds the temporary list, refused if the key "@tmp" exists |
| `ConfigValueWriter.Writer.EndKeyValuePair` | utils/dependencies/actor-framework-1.1.0/libcaf_core/caf/config_value_writer.cpp:170-195 | moves two elements out of the temporary list into an entry; what is left behind by each failing path. As for every call, no pointer on the stack dangles afterwards |
| `ConfigValueWriter.Writer.Save` | utils/dependencies/actor-framework-1.1.0/libcaf_core/caf/save_inspector_base.hpp:39-72 | storing a value succeeds exactly on writable values in a place that accepts one, puts exactly ToConf of the value there and leaves the stack as it was |
| `ConfigValueWriter.Writer.SaveObject` | utils/dependencies/actor-framework-1.1.0/libcaf_core/caf/inspector_access_base.hpp:69-87 | mandatory and optional fields; fails exactly if two present fields share a name or a field is not writable |
| `ConfigValueWriter.Writer.SaveMap` | utils/dependencies/actor-framework-1.1.0/libcaf_core/caf/save_inspector_base.hpp:60-72 | fails exactly if a value is not writable or the key "@tmp" comes before another key |
| `ConfigValueReader.Reader.BeginObject` | utils/dependencies/actor-framework-1.1.0/libcaf_core/caf/config_value_reader.cpp:168-251 | replaces a single value or advances the list, converts only outside lists, and refuses a type clash |
| `ConfigValueReader.Reader.BeginField` | utils/dependencies/actor-framework-1.1.0/libcaf_core/caf/config_value_reader.cpp:259-268 | pushes the value of the field or fails |
| `ConfigValueReader.Reader.BeginOptionalField` | utils/dependencies/actor-framework-1.1.0/libcaf_core/caf/config_value_reader.cpp:270-279 | pushes nothing for an absent field |
| `ConfigValueReader.Reader.BeginKeyValuePair` | utils/dependencies/actor-framework-1.1.0/libcaf_core/caf/config_value_reader.cpp:346-357 | pushes value and key of the current entry, fails at the end |
| `ConfigValueReader.Reader.BeginSequence` | utils/dependencies/actor-framework-1.1.0/libcaf_core/caf/config_value_reader.cpp:365-378 | replaces a single list value, refuses everything else |
| `ConfigValueReader.Reader.EndSequence` | utils/dependencies/actor-framework-1.1.0/libcaf_core/caf/config_value_reader.cpp:380-389 | succeeds exactly if all elements are consumed |
| `ConfigValueReader.Reader.BeginAssociativeArray` | utils/dependencies/actor-framework-1.1.0/libcaf_core/caf/config_value_reader.cpp:391-403 | replaces a single dictionary value, refuses everything else |
| `ConfigValueReader.Reader.EndAssociativeArray` | utils/dependencies/actor-framework-1.1.0/libcaf_core/caf/config_value_reader.cpp:405-414 | succeeds exactly if all entries are consumed |
| `ConfigValueReader.Reader.EndObject` | utils/dependencies/actor-framework-1.1.0/libcaf_core/caf/config_value_reader.cpp:253-257 | pops a dictionary and nothing else |
| `ConfigValueReader.Reader.EndKeyValuePair` | utils/dependencies/actor-framework-1.1.0/libcaf_core/caf/config_value_reader.cpp:359-363 | moves to the next entry |
| `ConfigValueReader.Reader.Pull` | utils/dependencies/actor-framework-1.1.0/libcaf_core/caf/config_value_reader.cpp:418-473 | pops a single value or a key read as a string, advances a list, keeps a key read as anything else, and leaves the stack alone on failure |
| `ConfigValueReader.KeyLoads` | utils/dependencies/actor-framework-1.1.0/libcaf_core/caf/config_value_reader.cpp:455-469 | a key is taken as a string or parsed as another scalar |
| `ConfigValueReader.Reader.Load` | utils/dependencies/actor-framework-1.1.0/libcaf_core/caf/load_inspector_base.hpp:41-80 | for every input value and schema: returns exactly FromConf, and consumes exactly the value on success |
| `ConfigValueReader.Reader.LoadObject` | utils/dependencies/actor-framework-1.1.0/libcaf_core/caf/load_inspector.hpp:316-320 | all fields in order, stopping at the first that fails |
| `ConfigValueReader.Reader.LoadField` | utils/dependencies/actor-framework-1.1.0/libcaf_core/caf/inspector_access_base.hpp:18-67 | mandatory and optional fields, each closed by end_field on the stack it was opened on |
| `ConfigValueReader.SaveAndLoad` | utils/dependencies/actor-framework-1.1.0/libcaf_core/caf/config_value.hpp:230-251 | storing and loading again returns the value exactly if it is writable and readable, and the stack of the reader is then empty |
| `ConfigServer.Server.HandlePut` | utils/dependencies/actor-framework-1.1.0/libcaf_core/caf/actor_system.cpp:143-160 | stores the message; every actor gets one update for the key and one for the wildcard that it is subscribed to, the sender none, nobody else any; "*" is ignored |
| `ConfigServer.Server.HandleGet` | utils/dependencies/actor-framework-1.1.0/libcaf_core/caf/actor_system.cpp:162-175 | the stored message or the empty one; all of them except "*" for the wildcard |
| `ConfigServer.Server.HandleSubscribe` | utils/dependencies/actor-framework-1.1.0/libcaf_core/caf/actor_system.cpp:177-195 | adds one pair to the relation in both maps, and places a monitor exactly on a sender without an entry |
| `ConfigServer.Server.HandleUnsubscribe` | utils/dependencies/actor-framework-1.1.0/libcaf_core/caf/actor_system.cpp:197-208 | removes one pair, or all pairs of the sender for "*" |
| `ConfigServer.Server.UnsubscribeAll` | utils/dependencies/actor-framework-1.1.0/libcaf_core/caf/actor_system.cpp:131-140 | removes all pairs of an actor from both maps and nothing else |
| `ConfigServer.Server.HandleAll` | utils/dependencies/actor-framework-1.1.0/libcaf_core/caf/actor_system.cpp:118-208 | after any run both maps are exact inverses, hold exactly what each actor said last about each key, each key holds its last put, and monitors are counted |
| `ConfigServer.MonitoredIff` | utils/dependencies/actor-framework-1.1.0/libcaf_core/caf/actor_system.cpp:177-195 | a subscriber is monitored exactly if one of its entries was opened by a subscription |
| `ConfigServer.SubscriberWithoutMonitor` | utils/dependencies/actor-framework-1.1.0/libcaf_core/caf/actor_system.cpp:195-208 | an entry opened by an unsubscribe leaves a later subscription without a monitor |
| `ConfigServer.FoldIsLastWord` | utils/dependencies/actor-framework-1.1.0/libcaf_core/caf/actor_system.cpp:177-208 | the relation after a history holds exactly the pairs whose last relevant request was a subscription |
| `Coordinator.CoordinatorState.EraseBusy` | utils/dependencies/actor-framework-1.1.0/examples/curl/curl_fuse.cpp:310-317 | find and erase remove the first occurrence |
| `Coordinator.CoordinatorState.Receive` | utils/dependencies/actor-framework-1.1.0/examples/curl/curl_fuse.cpp:283-320 | both behaviors with their switch: dispatch to the last idle worker, stash while all are busy, unstash everything on finished |
| `Coordinator.LastFinishedWorksNext` | utils/dependencies/actor-framework-1.1.0/examples/curl/curl_fuse.cpp:287-291 | the worker that has finished last gets the next job |
| `Coordinator.StrangersAreIgnored` | utils/dependencies/actor-framework-1.1.0/examples/curl/curl_fuse.cpp:310-315 | a finished message of a stranger changes neither list |
| `Coordinator.StepInv` | utils/dependencies/actor-framework-1.1.0/examples/curl/curl_fuse.cpp:206-320 | every step of clients, coordinator and workers keeps the invariant |
| `Coordinator.PoolIsPartitioned` | utils/dependencies/actor-framework-1.1.0/examples/curl/curl_fuse.cpp:273-320 | in every reachable state each worker is idle or busy, once; a busy one has exactly one unfinished job or one finished message in flight, an idle one none |
| `Coordinator.PoolNeverEmptyOnRead` | utils/dependencies/actor-framework-1.1.0/examples/curl/curl_fuse.cpp:284-305 | idle.back() is never taken from an empty pool, and the all-busy behavior is active exactly if no worker is idle |
| `Coordinator.JobsAreConserved` | utils/dependencies/actor-framework-1.1.0/examples/curl/curl_fuse.cpp:283-320 | jobs are dispatched in order of arrival, and each is at every time replied, with a worker, stashed or in the mailbox |
| `Coordinator.RestMeans` | utils/dependencies/actor-framework-1.1.0/examples/curl/curl_fuse.cpp:206-320 | a system at rest has only jobs without end at its workers, and jobs wait only if every worker has one |
| `Coordinator.EveryJobIsServedIff` | utils/dependencies/actor-framework-1.1.0/examples/curl/curl_fuse.cpp:206-320 | from every reachable state and under every schedule without new jobs the system comes to rest, with every job replied exactly if the transfer of every job ends |
| `Coordinator.EndlessJobsStarve` | utils/dependencies/actor-framework-1.1.0/examples/curl/curl_fuse.cpp:214-256 | as many jobs without end as there are workers starve every job behind them |
| `RunningCount.ActorRegistry.DecRunning` | utils/dependencies/actor-framework-1.1.0/libcaf_core/caf/actor_registry.cpp:88-95 | the new value after the cast to size_t, and that exactly a count of 0 or 1 leads to a notify |
| `RunningCount.LostWakeupIff` | utils/dependencies/actor-framework-1.1.0/libcaf_core/caf/actor_registry.cpp:80-105 | for waits for 0 or 1 from any start: the waiter can end up asleep at its count with no notify owed exactly if it waits for 1 and no registration outlasts the wait |
| `RunningCount.ReturnsAtExpected` | utils/dependencies/actor-framework-1.1.0/libcaf_core/caf/actor_registry.cpp:97-105 | a wait returns only after it has seen the expected count |
| `RunningCount.SafeWaitReturns` | utils/dependencies/actor-framework-1.1.0/libcaf_core/caf/actor_registry.cpp:88-105 | in a safe wait, once the count stays at the expected value the waiter returns under every schedule, also without spurious wakeups |
| `RunningCount.Registration.RegisterAtSystem` | utils/dependencies/actor-framework-1.1.0/libcaf_core/caf/abstract_actor.cpp:189-195 | counts the actor unless it is counted already |
| `RunningCount.Registration.UnregisterFromSystem` | utils/dependencies/actor-framework-1.1.0/libcaf_core/caf/abstract_actor.cpp:197-203 | stops counting it, and tells when that leads to a notify |
| `RunningCount.Registration.Repeat` | utils/dependencies/actor-framework-1.1.0/libcaf_core/caf/abstract_actor.cpp:189-203 | after any calls the actor counts once exactly while its flag is set |

## Left out

- Memory orders weaker than sequential consistency.
- `float`, `double` and `long double`: the conversions they use are not part of this model.
- The lanes of the default mailbox for urgent messages, and what happens when a `mail_cache` is full: a mailbox is one FIFO, and the stash of the coordinator is unbounded and keeps the order.
- Receives nested in handlers, metrics, the automatic unlink on an exit message, and the error that a response handler gets for an unexpected response: whether a pattern accepts a message is a pure predicate here.
- BlockingActor.ReceiveImpl: messages that arrive are parameters of each round, and the two conditions of the receive loop are a bound on the rounds, because they are code of the caller.
- Variant fields of configuration values, which the two sides annotate differently, maps whose keys are not strings, tuples, and spans of bytes.
- ConfigValueReader.Reader.Load: conversions between types (`get_as` on another alternative, `to_dictionary`, parsing a key) are arbitrary functions, because the parsers behind them are not part of this model.
- ConfigValueWriter.Writer.SaveMap: the order in which a dictionary is traversed is an arbitrary function of its keys, because the proofs need nothing else of the sorted order.
- The pointers on the stack of the writer are paths from the root; that growing a list does not move what is pointed to is not modelled.
- What the configuration server does when a monitored subscriber terminates: the callback passes the address of the server itself.
- Coordinator.EveryJobIsServedIff: whether a transfer ends is a property of the job, because network and server are not part of this model; the retries before that are not steps of their own.
- Links of an actor with itself, and a `detach` from outside with the token of a link, which would remove one side only.
- Weak references of observers that have expired when an actor terminates: a message to a terminated observer counts as sent.
- RunningCount.SafeWaitReturns: one waiter is followed; others only hold the mutex now and then, and notify_all wakes all of them.
- Spawning and scheduling of actors, the module system, logging, networking and command line parsing.
