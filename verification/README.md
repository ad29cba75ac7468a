# TStar: proofs about the queues, the delegation lock, the page protocol and the scheduler

TStar is a distributed dataflow runtime.  This project models four layers of it and proves what each promises the
one above:

1. **Queues and the delegation lock.**  `WorkStealing` is the work-stealing deque, one shared access per step, for
   one owner and any number of thieves, growth included; `Delegation` is the delegation lock on its MPSC queue, for
   any number of threads, with `XCHG` and link as two steps and with addresses that are reused after `delete`.
   `TaskQueues`, `Mpsc` and `DelegationLocks` are the same code as classes, between the steps of other threads.
2. **The page protocol.**  `Protocol` has the handlers for one page at one node as functions, and
   `NetworkInterfaces` the handlers as written, as methods that update fields in loops, proved equal to them.
   `Home` runs them on a whole system over first-in first-out channels, where requests for responsibility wait at
   the node that allocated the page, as its use count stays one; `Migration` lets users go, so responsibility
   moves, over channels that may reorder (what it proves holds of ordered channels too).  `HomeRuntime` and
   `MigrationRuntime` run the methods of a network interface as one node of such a system and prove that they keep
   its invariant; `HomeRuns` and `MigrationRuns` are particular runs.  `HomeCalls` and `MigrationCalls` tie what
   such a system notes as its history to the calls of the run; `Handlers` is what the handlers do at any node.
3. **Events and serial numbers.**  `EventMaps` has counted closures and the event map, `SerialNumbers` the
   per-thread serials, `GlobalCounters` the per-thread counter.
4. **Tasks.**  `Tasks` is the life of tasks on all nodes, from the tdecs that make a frame ready to its end, with
   external lists, stealing and preparation; `Stealing` is where stolen tasks go, `Preparation` what a task waits for,
   `TaskCalls` the tie to the calls of the run; `Schedulers` has the scheduler's methods; `Admission` is the check of
   the task count alone, one counter read per step.

Every concurrent or distributed part is a total step function folded over a schedule of choices, and its theorems
hold for **every** schedule: `After(run)` for all `run`.  History fields (`h`, `tr`, `jobs`, `given`, the `tag` of a
request) are written by steps and never branched on.  A `CFATAL` stops a run.

## What was found

* **The deque loses a task.**  As written, a take that loses its CAS returns with `bottom = top - 1`
  (`src/taskstealing.h:103-105`), and the next push is lost.  `WorkStealing.LosesATask` is a run where it happens;
  `ExactlyOnceUnlessSkewed` and `SkewIsLostCas` say exactly when: an item is lost if and only if its push began with
  `bottom == top - 1`, and that is so if and only if the owner's latest completed call is a take that lost its CAS.
  The flag `restored` selects the variant that stores `bottom = t+1` on that branch; it loses nothing.
* **One check of the page protocol can fire.**  With responsibility at home, of all `CFATAL`s on the page path only
  "Overwriting a valid copy" is reachable.  It fires if and only if home answered a node that was already in its
  directory (`HomeTheorems.OnlyOverwriting`, `StopsIffAnsweredTwice`).  A node that asks twice before its first answer
  arrives gets there in every system (`HomeRuns.AskingTwiceStops`); one that never does never does
  (`PoliteRunsNeverStop`).  Nothing in `prepare_ressources` prevents a second request.
* **Freshness needs no restriction on requests**: the directory, the channels and the mark of the last invalidation
  are enough (`Freshness`), and with publish order they give what publication is for (`IssuedMeansVisible`).
* **A stale copy may outlive an invalidation.**  One that finds an empty directory is over at once
  (`src/invalidation.cpp:163-168`), while the DoInvalidates of an earlier one may still be on their way:
  `HomeRuns.StaleCopyStays` is a run where a node reads old content after a later publication has issued its tdecs.
  Whether home publishes (`OverAtOnce`) or answers another node (`AnsweredAtOnce`), no copy is left anywhere if and
  only if no DoInvalidate is still in flight.  An invalidation with holders may also end while an earlier DoInvalidate
  is on its way; then a copy that none is chasing shows what was published (`IssuedMeansVisible`).
* **A local write can be lost, once users let go of pages.**  `provide` checks the status and then stores, outside the
  delegator (`src/typetuple.hpp:559-560`).  The store is lost if and only if the node has meanwhile given the
  responsibility up, to a request that arrived at use count zero or when the last user let go while a transfer
  waited, and has not got it back (`Migration.StoreIsLostIff`, `RespFollows`).  A store by a user that the use count
  counts always lands (`HeldStoresLand`).  `MigrationRuns.LosesAStore` and `LosesAStoreInUse` are runs that lose one,
  at use count zero and at use count one.  Both need `LetGo`, a step that the runtime itself does not take: it never decrements
  `usecount`, and without that step no responsibility ever moves (`HomeTheorems.HomeIsResp`).
* **A transfer drops sharers.**  `src/network.cpp:450-451` says that the bitmap of a transfer contains the local node,
  but `&=` keeps only the sender's own bit.  The new directory covers the sender and all its sharers if and only if
  the sender had listed itself and nobody else but the target (`Migration.TransferKeepsDirectory`);
  `MigrationRuns.DropsSharers` is a run that leaves two valid copies no directory lists.  It needs `LetGo` too.
* **Without hints, an owner that has given its page away stops.**  `get_next_resp` looks at the header only when built
  with `DEBUG_ADDITIONAL_CODE` (`src/frame.hpp:103-112`); otherwise it names the owner, and an owner that is not RESP
  then forwards to itself, which stops the run at the first request that reaches it
  (`Handlers.RequestsAreForwarded`).  It needs `LetGo` too.
* **The admission bound survives reads that are no snapshot.**  `get_value` adds up the per-thread counters while they
  change, and may return a number the count never was (`Admission.ReadMisses`).  The count still never exceeds the
  threshold plus the number of threads (`BoundedThroughout`), and no smaller bound will do (`BoundIsReached`).

## Model

| member | source | states |
|---|---|---|
| WorkStealing.RefinesDeque | src/taskstealing.h:63-151 | every step of owner or thief, growth included, is one step of a sequential double-ended queue: owner last-in first-out, thieves oldest first, EMPTY for the owner only when it is empty; a push that begins at bottom = top-1 is no step |
| WorkStealing.ReturnsWhatItRemoved | src/taskstealing.h:88-151 | a returned pointer is the item removed at the caller's linearisation point, also when it was read from an array that `expand` had replaced |
| WorkStealing.ExactlyOnceUnlessSkewed | src/taskstealing.h:88-151 | counting returned items, the owner's hand and the window, an item occurs exactly once if its push did not begin at bottom = top-1, and never otherwise |
| WorkStealing.SkewIsLostCas | src/taskstealing.h:103-105 | as written, at the start of a push bottom = top-1 if and only if the owner's latest completed call, in the run, is a take whose CAS failed; in the restored variant it never is |
| WorkStealing.RestoredLosesNothing | src/taskstealing.h:88-124 | if the failed branch stored bottom = t+1, pushed items would be the returned ones, the owner's hand and the window |
| WorkStealing.LosesATask | src/taskstealing.h:103-124 | as written: a finished run in which a pushed task is neither returned nor in the window |
| WorkStealing.AccessesInBounds | src/taskstealing.h:63-151 | every slot access is inside an allocated array at a non-negative index |
| WorkStealing.WrapIsMod | src/taskstealing.h:67 | the slot of a logical index is its remainder by the size |
| TaskQueues.TaskQueue.Expand | src/taskstealing.h:63-85 | growth keeps the window while doubling the array |
| TaskQueues.TaskQueue.Push | src/taskstealing.h:111-124 | appends to the window |
| TaskQueues.TaskQueue.Take | src/taskstealing.h:88-109 | removes and returns the newest item, or answers EMPTY on the empty window |
| TaskQueues.TaskQueue.Steal | src/taskstealing.h:129-151 | removes and returns the oldest item, or answers EMPTY on the empty window |
| Delegation.MutualExclusion | src/delegator.hpp:101-131 | at most one thread combines, and one does exactly when counter > 0 |
| Delegation.RefinesLockedFifo | src/delegator.hpp:101-155 | every step is one step of a lock with a queue of closures, or nothing |
| Delegation.RunsInOrder | src/delegator.hpp:101-155 | closures run in XCHG order, each at most once |
| Delegation.QueuesWhatWasDelegated | src/mpsc.h:38-52 | in every run, the closure that a thread's XCHG queues is the argument of that thread's latest call of `delegate` from outside |
| Delegation.DelegatedIsQueued | src/delegator.hpp:111-112 | every closure delegated from outside has been exchanged or is on its way to it, as often as it was delegated, and nothing else has been |
| Delegation.DelegatedHasRun | src/delegator.hpp:101-131 | with the counter at zero and every thread outside, exactly the closures that were delegated from outside have run |
| Delegation.NestedRunInline | src/delegator.hpp:106-109 | the closures that running closures delegate run inline, all of them and in the order of their calls |
| Delegation.NothingLeftBehind | src/delegator.hpp:80-88 | with the counter at zero and every thread outside, every pushed closure has run |
| Delegation.NoDanglingAccess | src/mpsc.h:46-89 | no producer and no consumer touches a deleted node, although addresses are reused |
| Delegation.NullMeansHalfLinked | src/mpsc.h:54-89 | when pop returns null to the combiner the queue holds an unpopped closure and some push was half linked during the pop |
| Delegation.GapMeansHalfLinked | src/mpsc.h:46-52 | that history flag is set only if there was such a moment since the pop began |
| Delegation.ChainBrokenOnlyAtHalfLinks | src/mpsc.h:46-89 | the chain from tail to head holds each node once, the stub included, and is broken only where a thread is between XCHG and link |
| DelegationLocks.Delegator.Delegate | src/delegator.hpp:101-131 | inside the delegator a closure runs at once; with ticket zero everything queued runs in order, then the closure; otherwise it is queued |
| DelegationLocks.Delegator.DoDelegation | src/delegator.hpp:136-155 | the spin ends with the oldest closure, which runs |
| DelegationLocks.Delegator.Combine | src/delegator.hpp:118-123 | the loop runs everything queued, in order, and leaves the counter at zero |
| Mpsc.Queue.Push | src/mpsc.h:38-52 | appends to the contents |
| Mpsc.Queue.Pop | src/mpsc.h:54-89 | returns the oldest value, or null exactly on the empty queue, with the stub put back when needed |
| EventMaps.Closure.TDec | src/delegator.hpp:32-37 | the body runs exactly when the counter comes to zero |
| EventMaps.TaskMapper.RegisterEvt | src/mappable_event.hpp:53-71 | adds the closure behind those under its key and touches no other key |
| EventMaps.TaskMapper.SignalEvt | src/mappable_event.hpp:74-95 | every closure under the key counts one event per registration and runs if that was its last, in the order in which the last events come, and the key is emptied |
| GlobalCounters.GlobalCounter.Set | src/globalcounter.h:38-41 | the value becomes x |
| GlobalCounters.GlobalCounter.Incr | src/globalcounter.h:43-47 | the value grows by one, through the thread's own counter alone, or the thread number is refused and nothing changes |
| GlobalCounters.GlobalCounter.Decr | src/globalcounter.h:49-52 | the value falls by one, through the thread's own counter alone, or the thread number is refused and nothing changes |
| GlobalCounters.GlobalCounter.GetValue | src/globalcounter.h:54-56 | the loop returns the sum of the counters |
| SerialNumbers.WriteIsNew | src/data_events.cpp:137-151 | the serial a thread takes for a remote write was never given out by any thread of the node, over unbounded runs |
| SerialNumbers.InvIsNew | src/invalidation.cpp:27-36 | the same for invalidation serials, for each of the serials of one invalidation |
| NetworkInterfaces.NetworkInterface.CopyIn | src/network.cpp:318 | the byte loop puts byte k of the data at offset + k and leaves every other byte of the page alone |
| Protocol.ApplyBytes | src/network.cpp:318 | the same of the memcpy in the functions of `Protocol` |
| Protocol.ReplayBytes | src/network.cpp:299-340 | after a log of writes each byte is the one that the last write to cover it put there, or, if none does, the one it was |
| NetworkInterfaces.NetworkInterface.LoadBitmap | src/invalidation.cpp:87-100 | the loop keeps every sharer but this node |
| NetworkInterfaces.NetworkInterface.InvalidateHolders | src/invalidation.cpp:180-191 | the loop gives each directory entry a serial of its own, a registration and a DoInvalidate |
| NetworkInterfaces.NetworkInterface.TDecInOrder | src/mappable_event.hpp:82-92 | the loop over the closures under a key, in registration order, with whatever they set off |
| NetworkInterfaces.TDecsJoin | src/mappable_event.hpp:82-92 | the closures are run first to last: those of a list, and then those of the list behind it, on what the first left |
| Handlers.RequestsAreForwarded | src/network.cpp:262-265 | a node that is not RESP passes any request on unchanged to the node that `get_next_resp` names, and stops exactly when that is itself or it asked itself |
| Handlers.CallsGoByHint | src/data_events.cpp:82-157 | a task's requests go there too, and name its node as the one that asks; only the request for responsibility goes to the owner |
| Handlers.HintFollows | src/network.cpp:240-565 | over all handlers, the hint names the node that the last data, ack or invalidation came from, or the one the responsibility went to |
| NetworkInterfaces.NetworkInterface.SignalUsecountZero | src/data_events.cpp:35-42 | the loop runs the waiting transfers and retries in order, each on what the one before left, and empties the list |
| NetworkInterfaces.NetworkInterface.SignalWriteArrival | src/network.cpp:490-496 | from zero, the use count grows by one for each incrementor registered for write access |
| HomeRuntime.Deliver | src/network.cpp:189-570 | in a home system, whatever the handlers do to a network interface's fields and outbox keeps the invariant of the whole system (directory, copies, flows, publication), and they stop only at "Overwriting a valid copy", at a node answered twice |
| HomeRuntime.Read | src/data_events.cpp:82-84 | the same for `request_page_data` |
| HomeRuntime.AskForResp | src/data_events.cpp:86-107 | the same for `request_page_resp`, which never stops |
| HomeRuntime.BeginPublication | src/scheduler.cpp:111-155 | the same for the start of a publication, with or without remote writes |
| HomeRuntime.WriteRemotely | src/data_events.cpp:137-157 | the same for `ask_or_do_rwrite_then` |
| MigrationRuntime.Deliver | src/network.cpp:189-570 | where responsibility moves, the handlers keep the invariant of the whole system (one token, one content, every write and request in one place), and no check on transfers stops them |
| MigrationRuntime.LetGo | src/data_events.cpp:35-42 | the same for a user that lets go, with the transfer and the retries that wait for it |
| MigrationRuntime.AskForResp | src/data_events.cpp:86-107 | the same for `request_page_resp` |
| MigrationRuntime.WriteRemotely | src/data_events.cpp:137-157 | the same for `ask_or_do_rwrite_then` |
| Invalidation.AllInvsTo | src/invalidation.cpp:180-191 | a node listed k times is sent exactly k DoInvalidates, each carrying a serial sent nowhere else |
| HomeTheorems.HomeIsResp | src/owm_mem.hpp:24-26 | whoever asks for it, responsibility never moves: the home keeps its use count of one, no RespTransfer is ever sent, and only the home has a directory |
| HomeTheorems.RequestsWait | src/network.cpp:382-424 | a node's incrementors are exactly its requests on their way to home and its closures waiting there; home is reserved exactly when some wait, the one transfer first |
| HomeTheorems.RequestOnlyWaits | src/network.cpp:382-424 | a request that reaches home adds one waiting closure, sends nothing and changes nothing else |
| HomeTheorems.HintIsHome | src/frame.hpp:100-115 | `get_next_resp`, with or without the header's hint, names the one responsible node from every other node, so nothing is ever forwarded |
| HomeTheorems.DirectoryEquation | src/network.cpp:218-297 | at every reachable state, a node's multiplicity in the directory is its valid copy plus Data in flight to it minus DoInvalidates in flight to it, with no restriction on requests |
| HomeTheorems.Freshness | src/network.cpp:299-340 | a valid copy with no DoInvalidate in its channel is the page after a prefix of the log that has every write applied before the last invalidation |
| HomeTheorems.OnlyOverwriting | src/network.cpp:226-227 | no check but "Overwriting a valid copy" ever stops a run, and that one only at a node answered while in the directory |
| HomeTheorems.StopsIffAnsweredTwice | src/network.cpp:226-227 | delivering all of a node's messages from home stops the run if and only if home answered it while it was in the directory; otherwise its copy ends valid if and only if it is listed |
| HomeTheorems.PoliteRunsNeverStop | src/network.cpp:532-533 | with at most one request or answer in flight per node no check ever fires |
| HomeRuns.AskingTwiceStops | src/scheduler.cpp:360-425 | in every system, a node that asks twice before its first answer arrives stops the run |
| HomeRuns.OverAtOnce | src/invalidation.cpp:163-168 | when home publishes with an empty directory its invalidation is over at once, and then no copy is left at any other node or on its way if and only if no DoInvalidate is in flight |
| HomeRuns.AnsweredAtOnce | src/network.cpp:504-522 | the same for another node's AskInvalidate: the answer leaves at once, and no copy is left if and only if no DoInvalidate is in flight |
| HomeRuns.StaleCopyStays | src/invalidation.cpp:163-168 | in every system of two nodes there is a run in which a node still holds, valid, the content from before a write although a publication that began after the write has issued its tdecs |
| HomeTheorems.PublishOrder | src/scheduler.cpp:111-171 | tdecs are issued at most once, and only after every remote write of the publication was applied exactly once and acked, and after every holder in the directory when its invalidation ran has acked |
| HomeTheorems.IssuedMeansVisible | src/scheduler.cpp:111-171 | once the tdecs are issued, a valid copy that no DoInvalidate is chasing shows every write of the publication |
| HomeTheorems.NoTdecIsLost | src/scheduler.cpp:111-171 | with nothing in flight and all writes sent, every publication that began has issued its tdecs |
| HomeTheorems.AckFiresOneRegistration | src/data_events.cpp:137-157 | each ack on its way to a node finds exactly one closure under its serial |
| HomeCalls.JobsAreBegun | src/scheduler.cpp:105-171 | in every run, each publication is one begun by a call of the run, at that node, with those writes and when home's log was as long as noted |
| HomeCalls.BegunIsJob | src/scheduler.cpp:105-171 | each such call that does not stop the run is a new publication, with its writes |
| HomeCalls.LogIsWritten | src/network.cpp:299-340 | each write in the home's log is a local write that a task made there, or a write of a publication that a call began at the node the log names |
| HomeCalls.LogGrowsByWrites | src/network.cpp:299-340 | each step adds to the log exactly the write that it delivers to the home or makes there |
| HomeCalls.StepIsLocal | src/network.cpp:189-213 | a message is handled where it is addressed to and is then gone, a call runs at its task's node; no other node changes, no other message is lost, and new ones come from that node |
| Migration.OneResponsible | src/network.cpp:427-498 | exactly one node is RESP or exactly one RespTransfer is in flight, and the content there is the initial content with every write applied so far, in order; local stores happen at any time after their check, at any use count |
| Migration.TransferChecksNeverFire | src/network.cpp:431-433 | the status and usecount checks of a transfer and the already-RESP check never fire |
| Migration.WaitersOnlyAtResp | src/network.cpp:382-424 | closures wait for usecount zero only at a node that is RESP, reserved and in use, the one transfer first |
| Migration.EachWriteOnce | src/network.cpp:299-340 | each remote write is in exactly one packet, forwarded or not, or applied at exactly one place of the log, and there it is the write its sender sent under that serial |
| Migration.EachRequestOnce | src/network.cpp:359-425 | each responsibility request is exactly one of a packet, one waiting closure, or answered by one transfer to the node that asked |
| Migration.HeldStoresLand | src/typetuple.hpp:559-560 | whatever happens between check and store, a store by a user that the use count counts finds its node RESP; only other stores are ever lost |
| Migration.RespFollows | src/network.cpp:359-498 | over all steps from all reachable states: a node is RESP afterwards if and only if a transfer has arrived there, or it was and neither a request arrived at use count zero nor its last user let go while a transfer waited |
| Migration.StoreIsLostIff | src/typetuple.hpp:559-560 | a pending store is lost if and only if, since a moment when its node was RESP (its check is one), the node has given the responsibility up and not got it back; otherwise it enters the authoritative content |
| Migration.StoreLandsIffInUse | src/typetuple.hpp:559-560 | for a store made directly after a request for responsibility has arrived, that comes to the use count at that moment: the store lands if and only if it is not zero |
| MigrationRuns.LosesAStore | src/typetuple.hpp:559-560 | in every system of two nodes there is a run, with a let-go, that loses a store checked at use count zero |
| MigrationRuns.LosesAStoreInUse | src/typetuple.hpp:559-560 | and one that loses a store although the use count was one at the check and when the request arrived, as the last user lets go before the store |
| Migration.TransferKeepsDirectory | src/network.cpp:447-451 | after a transfer the directory lists the sender and every sharer the sender listed, but the target, if and only if the sender had listed itself and nobody else but the target; it never lists anybody but the sender |
| Migration.DirectoryAtResp | src/network.cpp:447-451 | only the responsible node has a directory |
| MigrationCalls.UseCountIsCalls | src/data_events.cpp:86-107 | at every node, in every run: the use count and the incrementors waiting for responsibility are together the requests made there, one more at the owner, less the times a user has let go, wherever the responsibility has gone |
| MigrationCalls.RetriesFollowTransfer | src/data_events.cpp:35-42 | when the last user lets go, the transfer goes to the node that asked first, and the request of every other is sent after it |
| MigrationCalls.SentIsWritten | src/data_events.cpp:137-157 | what a node has noted as sent under a serial is what one of its tasks wrote |
| MigrationCalls.StoreWasChecked | src/typetuple.hpp:559-560 | every pending store is one that a task checked at that node while it was RESP |
| MigrationCalls.LogIsWritten | src/network.cpp:299-340 | every write that the page has gone through is one that a task made: a checked store, or a remote write of the node that the log names |
| MigrationCalls.LogGrowsByWrites | src/network.cpp:299-340 | each step adds exactly the store it makes at a RESP node, or the remote write it delivers at one |
| MigrationCalls.StepIsLocal | src/network.cpp:189-213 | a packet is handled where it is addressed to and is then gone, a call runs at its task's node; no other node changes, no other packet is lost, and new ones come from that node |
| MigrationRuns.DropsSharers | src/network.cpp:447-451 | in every system of three nodes there is a run, with a let-go, after which two valid copies, a sharer's and the old responsible node's, are in no directory |
| TaskSafety.FrameScheduledOnce | src/data_events.cpp:112-134 | a frame's initial count is sc plus the tdecs applied, tdecs issued are applied or in flight, and the frame is given to `schedule_global` exactly once, when the count is used up |
| TaskSafety.NegativeMeansTooMany | src/network.cpp:586-592 | "Negative TDec" fires only if more tdecs were issued to a frame than it waits for |
| TaskCalls.GivenAtCreatedCount | src/data_events.cpp:112-134 | the count is the one the frame was created with, and the tdecs issued are the calls in the run that issue one |
| TaskCalls.FramesAreCreated | src/tstariface.cpp:52-62 | every frame was created by a choice of the run, once, with that initial count |
| TaskCalls.IssuedAreTheCalls | src/data_events.cpp:112-134 | the tdecs issued to a frame are counted by the calls of the run, local ones and messages |
| TaskCalls.GivenWhereApplied | src/network.cpp:572-594 | the tdec that uses the count up gives the frame to `schedule_global` at the node where it is applied and nowhere else; any other tdec changes no node |
| TaskCalls.StepIsLocal | src/network.cpp:572-621 | every step changes at most one node: the one that the call or the message names |
| TaskSafety.TasksConserved | src/scheduler.cpp:246-467 | every task given is in exactly one place: a thread, an external list, a StolenMessage, preparation, a deque (or dropped by it), execution or done |
| Stealing.StealTakesFromTheEnd | src/network.cpp:596-606 | a steal message takes the last tasks of the victim's external list, last ones first, and sends them to the thief in one message; nothing else changes |
| Stealing.LootGoesToThief | src/network.cpp:611-621 | a StolenMessage that is taken raises the count of each of its tasks at the node it is addressed to by its occurrences in the message, and changes no other node |
| Stealing.StolenReachesOnlyThief | src/network.cpp:596-621 | in every run, whatever happens after a steal, a stolen task is in a message to the thief and at no node, until it is at the thief and nowhere else |
| Stealing.OwnLoot | src/scheduler.cpp:458-467 | a node that takes back its own external tasks gets the last ones, last ones first, as a thief would, and keeps the others in order |
| Stealing.GivesInOrder | src/network.cpp:615-619 | a thread gives the tasks it holds one after the other, first to last: a step leaves them, or makes the first one the newest admitted or refused task |
| TaskSafety.ExactDropsNothing | src/scheduler.cpp:429-434 | with a deque that hands out every task, none is ever dropped, so that place is empty |
| TaskSafety.HandedOnAtLastArrival | src/scheduler.cpp:397-421 | a DataMessage for a page queues a task, once, if and only if the task awaits something and all its outstanding registrations are for that page's data; a RespTransfer does if and only if they all are for that page, for data or write access |
| TaskSafety.QueuedInRegistrationOrder | src/mappable_event.hpp:82-92 | the tasks that an arrival completes are queued behind the others in the order of their last registrations for the page; a RespTransfer queues those of its data first |
| TaskSafety.CountersCount | src/scheduler.cpp:252-254 | `prep_task_count` counts the tasks admitted, preparing, queued or running, `omp_task_count` those queued or running; both count a dropped task for ever |
| TaskSafety.AdmissionBound | src/scheduler.cpp:341-348 | `prep_task_count` never exceeds the threshold plus the number of threads, for any interleaving of check and increment |
| Admission.BoundedThroughout | src/scheduler.cpp:341-348 | the same when `get_value` reads the per-thread counters one by one while any thread increments and decrements, in every run |
| Admission.BoundIsReached | src/scheduler.cpp:341-348 | for every number of threads there is a run from a count at the threshold that reaches the threshold plus the number of threads |
| Admission.ReadMisses | src/globalcounter.h:54-56 | a run in which `get_value` finds -1 although the count was never negative |
| Schedulers.Scheduler.ScheduleGlobal | src/scheduler.cpp:341-348 | above the threshold the task goes in front of the external list; otherwise it is counted and prepared, and the list stays |
| Schedulers.GiveIsUninterrupted | src/scheduler.cpp:341-348 | that method is the thread's accesses of `Tasks` with nothing between them |
| Schedulers.NewestStolenLast | src/scheduler.cpp:352-356 | a task put in front of the external list changes nothing of what a thief gets, or in which order, unless the thief takes the whole list, and then it comes last |
| Schedulers.Scheduler.PrepareRessources | src/scheduler.cpp:360-425 | asks and waits for the frame's page; else queues the task if and only if no argument is an unready R_FRAME or RW_FRAME; else its counter is the number of such arguments, and for every page the data requests and registrations are its unready R_FRAMEs, those for responsibility its unready RW_FRAMEs |
| Preparation.PrepareMeans | src/scheduler.cpp:360-425 | the same of the preparation in `Tasks` |
| Preparation.AwaitedJoin | src/scheduler.cpp:404-421 | the arguments are taken in order |
| Schedulers.Scheduler.CountWork | src/scheduler.cpp:377-389 | the first loop counts the arguments that are an unready R_FRAME or RW_FRAME |
| Schedulers.Scheduler.RegisterWork | src/scheduler.cpp:404-421 | for every page, the second loop sends as many data requests and registers as many closures for the data as there are unready R_FRAMEs on it, and as many for responsibility as unready RW_FRAMEs, and nothing else; it counts the same number again |
| Schedulers.Scheduler.ScheduleInnerTask | src/scheduler.cpp:429-434 | counts and queues |
| Schedulers.Scheduler.SignalArrival | src/mappable_event.hpp:82-94 | the loop counts one event for every closure under the key, queues each task at its last, and then erases the key alone |
| Schedulers.Scheduler.SignalRespTransfer | src/network.cpp:495-496 | a RespTransfer signals the data first, and then the write access |
| Schedulers.Scheduler.StealInto | src/scheduler.cpp:439-456 | the loop takes up to so many tasks from the back of the list |
| Schedulers.LootIsTheTail | src/scheduler.cpp:439-456 | what is stolen is the end of the list, last first, and the rest keeps its order |
| Schedulers.Scheduler.StealAndProcess | src/scheduler.cpp:458-467 | refuses an insane amount; otherwise, of the last tasks of the external list, last ones first, exactly as many as there is room for below the threshold are admitted, in that order, and the others are back in front of the list as they were |
| Schedulers.StolenAreAdmitted | src/scheduler.cpp:458-467 | the same of giving the loot of `Tasks` task by task |
| Schedulers.FirstAreAdmitted | src/scheduler.cpp:341-348 | of any tasks given one after the other, the first ones that there is room for are admitted, in order: those ready to run are queued in that order, those without their page wait in that order, the others await their arguments; the rest goes in front of the external list, one before the other |
| Schedulers.GiveAllJoins | src/scheduler.cpp:463-465 | the tasks of a list are given, and then those of the list behind it |

## Left out

- Several pages at once: the page systems have one page, whose serial counters may be advanced at any time on behalf of others; a registration's key is the page and the serial, so other pages do not meet it.
- NULL closures in `ask_or_do_invalidation_then` and `invalidate_and_do`: every caller that the model has passes a closure.
- Hashing and locking of the event map's shards, the padding between counters, and overflow of serials, counters and indices: maps, sums and unbounded integers.
- Freeing and reuse of pages, and deletion of old deque arrays: one allocation is one page, and arrays stay.
- The home and migration systems choose when a task reads, writes, publishes and lets go; the runtime never lets go of a page, so `Migration.LetGo` is an added step.
- Acyclicity of `next_resp`: not claimed; in `Migration` requests may be forwarded any number of times.
- Sizes, canaries and the TRANSIENT state: a header with valid canaries is `known`, and nothing enters TRANSIENT.
- The 64-bit bitmap of a transfer and its 32-bit shifts: a sequence of nodes.
- A thief's EMPTY: its linearisation point depends on the future, so nothing is claimed.
- The scan of the `stealing` and `finished` flags, and when the threads of a node stop.
- `get_refund` and `check_ressources`, which nothing calls, and the Boost heap, logging, `mmap` and MPI.
- The argument `args` of a preparation, and which pages have arrived, are chosen by the environment; the two layers meet only there.
- The inner queue of `Tasks`: any queued task may start next, and unless the configuration is `exact` any may be dropped; which one the deque hands out, and exactly when it drops one, is said of the deque alone (`WorkStealing`).
- A closure that waits for a frame's own page fires in a step of its own (`OwnPageArrives`), not in the order of the other closures under that page.
- TaskQueues.TaskQueue.Take: one thread alone, so the branch of a lost CAS is absent; `WorkStealing` has it.
- TaskQueues.TaskQueue.Steal: one thread alone, so the answer to a lost CAS is absent; `WorkStealing` has it.
- Mpsc.Queue.Pop: forgets the node and does not delete it; `Delegation` has the deletion and the reuse of addresses.
- EventMaps.TaskMapper.RegisterEvt: does not model registration from inside a signal (`busy`, `temp_storage`), whose list the code never empties.
- EventMaps.TaskMapper.SignalEvt: for the same reason takes nothing over from `temp_storage`.
- HomeRuntime.Deliver: the closures that `signal_data_arrival` fires belong to `Tasks`, and the checks for freed pages are absent.
- MigrationRuntime.Deliver: the same, and the size and TRANSIENT checks of a transfer are absent.
- HomeRuntime.BeginPublication: one resource at a time, without the loops over the arguments of the task and over its writes, which are steps of the system.
- NetworkInterfaces.NetworkInterface.LoadBitmap: a sequence of nodes, not bits.
- NetworkInterfaces.NetworkInterface.InvalidateHolders: always has a closure to register.
- TaskSafety.TasksConserved: a dropped task is a place like any other, because the deque as written loses tasks.
- GlobalCounters.GlobalCounter.constructor: takes a positive number of threads as given, where the code stops on any other.
- TaskSafety.AdmissionBound: takes `get_value` as one read; `Admission.BoundedThroughout` has the reads apart, but of the task only that it is counted.
- NetworkInterfaces.NetworkInterface.SignalWriteArrival: the closures that hand tasks on wait under the same key, but belong to `Tasks`.
- Schedulers.Scheduler.PrepareRessources: whether pages are there comes as an argument, and the closure for the frame's own page is kept apart from the event map.
- Fences and weaker memory orders: interleavings are sequentially consistent, as the code puts full fences between the accesses that matter.
