# Echo servers: a verified model

The repository compares echo servers written over different event interfaces of Linux. This project models the
three parts of its C code in which correctness depends on more than one function at a time:

* **The io_uring server** (`code/c/server/io_uring`). The server and the kernel share two lock-free rings with
  free-running 32-bit counters. On top runs a state machine driven by completions: every connection has one heap
  object, `struct iou_op`, which is reused for RECV, SEND and CLOSE, whose mutable tag decides how a completion is
  handled, and which is kept on a doubly linked list until it is freed.
* **The poll server** (`code/c/server/poll`). `service_events` sweeps over a growable vector while its handlers append
  to it, possibly reallocating it, and remove from it by moving the last entry into the current slot.
* **Timespec arithmetic** (`code/c/common/time_utils.c`), with C's truncating division and unsigned wrap-around.

## How it is built

The io_uring server is modelled on three levels, each proved to refine the one above.

1. `Protocol.dfy` is a transition system over two FIFO queues: the server's steps (take a completion, run a handler,
   acquire, publish, enter, stop) and the kernel's (consume a request, complete any request in flight, in any order,
   with any result). `ServerCore.dfy` holds the handlers. `ProtocolInvariant.dfy` is the invariant, `ProtocolSteps.dfy`
   and `ProtocolHandlers.dfy` prove that every step keeps it, and `ProtocolTheorems.dfy` and `Shutdown.dfy` draw the
   consequences for every run. Runs that exist are built in `RunBuilder.dfy`'s terms: `LifeCycle.dfy`, in which a client is
   served from its connection to its close, in every configuration, and two which show that conditions cannot be dropped:
   `CapacityBound.dfy`, in which a submission is refused, for every ring size, and `ShutdownFailure.dfy`, in which the final
   cleanup fails.
2. `RingServer.dfy` replaces the queues by the rings of `SubmissionRing.dfy` and `CompletionRing.dfy`, and a submission
   by its five stores, between any two of which the kernel may act. The two counters of a ring wrap at 2^32
   (`Wrapping.dfy`); the proofs relate them to unbounded counts of what was published and read. `RingLifting.dfy` proves the
   other direction, that runs over the queues are runs over the rings, so the runs above are too; `RingShutdown.dfy`
   has the end of the server over the rings.
3. `IoUringServer.dfy` is the program: a class over heap arrays (`RingQueues.dfy`) and the linked list
   (`MemTracker.dfy`), with one method per C function. It records each action in a ghost trace; the class invariant says
   that the trace is a legal run of `RingServer` ending in the object's state (`ServerTrace.dfy`), and that the list's
   nodes and the client ops point at each other one to one. So every theorem about runs holds of the program.

For poll, `PollFdVector.dfy` is the vector over two parallel arrays, `PollSweep.dfy` what one sweep keeps, on values,
`PollRun.dfy` whole runs, one record for each call of ppoll, and `PollServer.dfy` the server class. What the system answers
to the n-th call of read_n_echo, accept_client and ppoll is given beforehand, by the constant `world`, so contracts can say
which answer led to what. `TimeUtils.dfy` stands alone. `IouTypes.dfy` holds shared records.

## Where code and comments differ

* `code/c/common/time_utils.c:80-83` gives examples in which 13e5 ns count as more than a second. The code does not treat
  them so; the model follows the code (`TimeUtils.CommentExamples`).
* `code/c/server/io_uring/main.c:201-202` asserts that closing each tracked descriptor succeeds. It fails when the kernel
  has carried out a CLOSE whose completion was not taken, and the kernel goes on after the loop, while results are saved
  and the ring is unmapped, until `iou_free` closes its descriptor. `Shutdown.CleanupSucceedsIff` is the exact condition
  when the ring is freed; `Shutdown.CleanupIsSafeIff` the exact condition at the end of the loop, over everything the
  kernel may still do; `RingShutdown.CleanupCanFail` a run that breaks it with nothing left to take.
* `code/c/server/poll/main.c:260` does not look for -1 from `accept_client`. Such an entry is harmless during the loop, and
  makes the cleanup fail: `PollSweep.NobodyCanCome` is a sweep that leaves one, and `PollServer.Server.ServiceLoop` proves
  that after a loop that ends the cleanup fails exactly when there was one or some accept answered -1.
* `code/c/common/time_utils.c:93` keeps the quotient in an `int`. The time is preserved exactly when it fits
  (`TimeUtils.RebalanceKeepsIff`); `TimeUtils.RebalanceCanLose` is an input where it does not.

## What is assumed of the system

* `io_uring_enter` hands over all of `to_submit` before it returns, so that the server may reset its counter whatever
  is returned (`code/c/server/io_uring/main.c:137-138`); without kernel poll mode the kernel reads the queue only there.
* A descriptor is closed and the completion posted in one kernel step. `accept` returns a number that is not in use.
* The kernel serves the ring until its descriptor is closed, and carries nothing out afterwards.
* A kernel that finds the completion ring full keeps completions back in order, instead of dropping them.
* `calloc` and `malloc` succeed and return memory not in use, possibly memory freed before.
* ppoll reports nothing for negative descriptors, nothing but what was asked for on the listening socket and the timer, and
  nothing but what was asked for, POLLERR and POLLHUP on a client.

## Model

| member | source | states |
|---|---|---|
| `Wrapping.MaskIsModulo` | code/c/server/io_uring/io_uring_server_utils.c:280 | masking with entries - 1 is taking the position modulo entries, for every power of two |
| `Wrapping.SlotIgnoresWrap` | code/c/server/io_uring/io_uring_server_utils.c:280 | the slot of a counter that has wrapped is the slot of the true position |
| `Wrapping.DistanceIgnoresWrap` | code/c/server/io_uring/io_uring_server_utils.c:275 | tail - head on 32 bits is the true number of pending entries, across the wrap |
| `Wrapping.DistinctSlots` | code/c/server/io_uring/io_uring_server_utils.c:273-280 | positions less than a ring apart have different slots |
| `SubmissionRing.ProducerStepEffect` | code/c/server/io_uring/io_uring_server_utils.c:267-294 | of the five stores of a submission only the tail store is visible to the kernel, and it appends exactly the entry asked for; a full ring or an unknown tag leaves the queue as it was |
| `SubmissionRing.PublishAppends` | code/c/server/io_uring/io_uring_server_utils.c:288-294 | the release store of the tail makes exactly one more entry readable, at the end |
| `SubmissionRing.ConsumeTakesFirst` | code/c/server/io_uring/io_uring_server_utils.c:288-294 | reading through array[head & mask] takes the oldest published entry |
| `SubmissionRing.QueueIsFifo` | code/c/server/io_uring/io_uring_server_utils.c:350-392 | in every interleaved run the kernel has read a prefix of the fully configured entries, in order, once each; the rest is what is pending, at most ring_size |
| `CompletionRing.PostAppends` | code/c/server/io_uring/io_uring_server_utils.c:399-425 | a kernel post appends, and overwrites nothing unread |
| `CompletionRing.ReaderStepEffect` | code/c/server/io_uring/io_uring_server_utils.c:399-425 | NULL exactly when the queue is observed empty; only announcing the head removes an entry, the one that was copied |
| `CompletionRing.MailboxIsFifo` | code/c/server/io_uring/io_uring_server_utils.c:399-425 | in every interleaved run what was taken is a prefix of what was posted, and a copied entry stays the oldest whatever is posted meanwhile |
| `RingQueues.SubmissionQueue.AcquireSqe` | code/c/server/io_uring/io_uring_server_utils.c:267-286 | in place: None exactly when tail - head reached ring_size, else the zeroed entry at the tail's slot |
| `RingQueues.SubmissionQueue.StoreUserData` | code/c/server/io_uring/io_uring_server_utils.c:358-359 | in place: the acquired entry, and nothing else, gets the op's address |
| `RingQueues.SubmissionQueue.PrepareSqe` | code/c/server/io_uring/io_uring_server_utils.c:296-348 | in place: opcode, descriptor, address and length that each tag asks for, field by field, and no other entry touched; false exactly for an unknown tag |
| `RingQueues.SubmissionQueue.StoreIndex` | code/c/server/io_uring/io_uring_server_utils.c:292 | in place: the index array's store |
| `RingQueues.SubmissionQueue.AdvanceTail` | code/c/server/io_uring/io_uring_server_utils.c:293 | in place: the tail advances by one modulo 2^32 |
| `RingQueues.CompletionQueue.Observe` | code/c/server/io_uring/io_uring_server_utils.c:406-411 | the head to read at, or None when head equals tail |
| `RingQueues.CompletionQueue.CopyOut` | code/c/server/io_uring/io_uring_server_utils.c:413-418 | copies the entry at head & mask and changes nothing |
| `RingQueues.CompletionQueue.Announce` | code/c/server/io_uring/io_uring_server_utils.c:420-422 | advances the head by one modulo 2^32 |
| `RingQueues.CompletionQueue.KernelPost` | code/c/server/io_uring/io_uring_server_utils.c:399-425 | the kernel's side: stores at tail & mask and advances the tail |
| `ProtocolHandlers.RunKeepsInv` | code/c/server/io_uring/main.c:107-186 | the whole invariant holds in every state of every run |
| `ProtocolHandlers.HandleKeeps` | code/c/server/io_uring/main.c:286-475 | every handler, on every result, keeps the invariant or exits for an allowed reason |
| `ProtocolHandlers.AcceptKeeps` | code/c/server/io_uring/main.c:286-301 | accepting keeps it, although the kernel may have reused the descriptor number of a client that is still tracked |
| `ProtocolHandlers.CloseKeeps` | code/c/server/io_uring/main.c:303-312 | freeing the op of a closed connection keeps it: nothing refers to the op any more |
| `ProtocolHandlers.RecvKeeps` | code/c/server/io_uring/main.c:314-356 | turning a completed RECV into a SEND or CLOSE keeps it |
| `ProtocolHandlers.SendKeeps` | code/c/server/io_uring/main.c:358-398 | turning a completed SEND into a RECV keeps it |
| `ProtocolHandlers.TimerKeeps` | code/c/server/io_uring/main.c:400-412 | the timer's completion keeps it |
| `ProtocolSteps.CompleteKeeps` | code/c/server/io_uring/main.c:155-186 | any request the kernel completes, in any order and with any result, keeps the invariant |
| `ProtocolSteps.PublishKeeps` | code/c/server/io_uring/io_uring_server_utils.c:350-392 | so does publishing the entry of an op |
| `ProtocolTheorems.OneRequestPerLiveOp` | code/c/server/io_uring/main.c:286-475 | each live op has exactly one outstanding request, in the SQ, the kernel or the CQ, outside its handler; nothing outstanding refers to freed memory |
| `ProtocolTheorems.TagIsFaithful` | code/c/server/io_uring/main.c:155-186 | op->op always names the op's outstanding request, and busy is set exactly for RECV and SEND, so a completion is dispatched to the handler of what completed |
| `ProtocolTheorems.RequestFields` | code/c/server/io_uring/io_uring_server_utils.c:296-392 | every outstanding request, in every run, field by field: the accept on the listening socket, the timer's one timespec, a receive of the op's whole buffer, a send of one message, a close of the op's descriptor |
| `ProtocolTheorems.ExitsIff` | code/c/server/io_uring/main.c:286-412 | in every run the process exits with an unexpected result if and only if the completion handled is an Accept below 0, a Close other than 0, a Recv other than 0 or a message, a Send short of a message or a Timeout other than -ETIME; with -EBUSY if and only if ring_size entries are unread; and never otherwise |
| `ProtocolTheorems.HandlesWhatCompleted` | code/c/server/io_uring/main.c:155-186 | for each completion it accepts, by the operation that completed: which ops the server then submits, in which order, what they have become, who is tracked, and that no other op changes |
| `ProtocolTheorems.ExitReasons` | code/c/server/io_uring/main.c:155-186 | the process exits only for a full ring or a result a handler rejects: never for an unknown tag or a dangling pointer |
| `ProtocolTheorems.KernelMayAnswerAnything` | code/c/server/io_uring/main.c:286-412 | in every run a request in flight may be answered with any error, a receive with any bytes that fit, a send with any part of the message, an accept with any descriptor not in use: exactly what the theorems quantify over |
| `ProtocolTheorems.KernelBuffersAreLive` | code/c/server/io_uring/io_uring_server_utils.c:318-337 | a RECV or SEND in the kernel refers to the buffer of a live op, large enough, on that op's own open connection |
| `ProtocolTheorems.EchoesAPrefix` | code/c/server/io_uring/main.c:314-398 | per connection, in every run, the bytes sent are a prefix of the bytes received, at most one buffer behind |
| `ProtocolTheorems.EchoedInFull` | code/c/server/io_uring/main.c:314-398 | when a RECV or CLOSE is pending everything received has been sent back; when a SEND is pending exactly one message is owed, the one in the buffer |
| `ProtocolTheorems.BufferIsStable` | code/c/server/io_uring/main.c:333-356 | nothing but the completion of the op's own RECV changes its buffer |
| `ProtocolTheorems.DescriptorsAreDistinct` | code/c/server/io_uring/main.c:286-312 | tracked clients have pairwise distinct descriptors and connections |
| `ProtocolTheorems.RequestCount` | code/c/server/io_uring/main.c:286-475 | the requests outstanding or about to be submitted number exactly the live ops |
| `ProtocolTheorems.NeverBusy` | code/c/server/io_uring/io_uring_server_utils.c:275-277 | if the live ops never outnumber ring_size, no submission of the run returns -EBUSY |
| `ProtocolTheorems.CompletionsFit` | code/c/server/io_uring/main.c:286-475 | before a completion is posted the CQ holds fewer entries than there are live ops |
| `ProtocolTheorems.CounterIsExact` | code/c/server/io_uring/main.c:118-145 | without kernel poll mode io_events_to_submit is the number of unread entries at every loop head |
| `ProtocolTheorems.BlocksOnlyWithWorkHandedOver` | code/c/server/io_uring/main.c:136-139 | whenever the server blocks, every entry has been handed over and the accept request is in the kernel or completed |
| `ProtocolTheorems.ClientsAreConserved` | code/c/server/io_uring/main.c:303-312 | connections accepted are those closed plus those tracked; every open socket is held by one op or announced by a waiting completion |
| `Shutdown.CloseAllExact` | code/c/server/io_uring/main.c:197-208 | closing distinct descriptors one after the other succeeds exactly when all are open, and closes exactly those |
| `Shutdown.CleanupSucceedsIff` | code/c/server/io_uring/main.c:195-208 | when the ring is freed: the cleanup succeeds if and only if no successful CLOSE completion is left in the queue, unless its number was handed out again |
| `Shutdown.CleanupIsSafeIff` | code/c/server/io_uring/main.c:147-208 | when the loop ends: the cleanup succeeds whatever the kernel still does if and only if no CLOSE is in flight, none is in the SQ in kernel poll mode, and none is left dead in the CQ |
| `Shutdown.CleanupLeavesUnseen` | code/c/server/io_uring/main.c:195-208 | after a cleanup that succeeds the only sockets open are those whose accept completion was never taken |
| `ShutdownFailure.QueuesCanFail` | code/c/server/io_uring/main.c:201-202 | a run over the queues, from the first submission on, after which the assertion on close fails |
| `RingShutdown.CleanupIsSafeIffOverRings` | code/c/server/io_uring/main.c:147-208 | the condition at the end of the loop, over the rings and every continuation there |
| `RingShutdown.CleanupCanFail` | code/c/server/io_uring/main.c:201-202 | a run over rings of any size after which the assertion fails: the loop ended with an empty CQ and a CLOSE not yet read |
| `LifeCycle.WholeLife` | code/c/server/io_uring/main.c:107-186 | for every message, both modes, with the benchmark or without, and every ring of two entries or more: a run in which a client connects, gets the message back, hangs up and is freed, the timer expires, and nothing is left |
| `CapacityBound.OneMoreIsTooMany` | code/c/server/io_uring/io_uring_server_utils.c:275-277 | without the timer, for every ring size, in both modes, a run with never more than ring_size + 1 live ops that ends in -EBUSY: the bound of the capacity theorem is exact |
| `RingLifting.QueuesLiftToRings` | code/c/server/io_uring/main.c:107-153 | every run over the queues in which NULL is seen only when nothing waits is what some run over the rings amounts to |
| `RingLifting.WholeLifeOverRings` | code/c/server/io_uring/main.c:107-186 | the client's whole life over the rings, of any size and wherever their counters are |
| `RingLifting.OneMoreIsTooManyOverRings` | code/c/server/io_uring/io_uring_server_utils.c:275-277 | the exactness of the bound, over the rings |
| `RingServer.RingsRefineQueues` | code/c/server/io_uring/main.c:107-153 | every run over the wrapping rings, store by store, is a run of the protocol over FIFO queues |
| `RingServer.KernelReadsWholeEntries` | code/c/server/io_uring/io_uring_server_utils.c:288-294 | what the kernel reads is always the complete entry of a live op, even while the next is being filled |
| `RingServer.NeverBusyOverRings` | code/c/server/io_uring/io_uring_server_utils.c:275-277 | the capacity theorem over the rings |
| `RingServer.NoBacklog` | code/c/server/io_uring/io_uring_server_utils.c:399-425 | if the live ops never outnumber the CQ entries, the completion ring never overflows |
| `MemTracker.Tracker.PushBack` | code/c/server/io_uring/io_uring_server_utils.c:467-482 | the pointer list, both chains, refines appending to a sequence |
| `MemTracker.Tracker.RemoveNode` | code/c/server/io_uring/io_uring_server_utils.c:485-507 | removal at any position refines removal from the sequence; the node is unlinked |
| `ServerTrace.Guarantees` | code/c/server/io_uring/main.c:107-186 | the state a recorded trace of the program reaches satisfies the ring invariant and the protocol invariant |
| `ServerTrace.EventIsKnown` | code/c/server/io_uring/main.c:155-186 | the event in hand belongs to a live op with a known tag, and to a tracked one, listed once, if its CLOSE completed |
| `IoUringServer.Server.ConfigAndSubmit` | code/c/server/io_uring/io_uring_server_utils.c:350-392 | 0 with exactly one tail advance and the five stores in order; -EBUSY only when the live ops outnumber ring_size |
| `IoUringServer.Server.SubmitSqe` | code/c/server/io_uring/io_uring_server_utils.c:288-294 | index store, then tail store, with kernel steps around them |
| `IoUringServer.Server.HandleCqeAccept` | code/c/server/io_uring/main.c:286-301 | a fresh op receives from the new socket and is last on the list; returns 2, the number of tail advances; a negative result exits, and nothing else but a full ring does |
| `IoUringServer.Server.HandleNewClient` | code/c/server/io_uring/main.c:419-450 | op and node linked to each other, the node appended, the first RECV published |
| `IoUringServer.Server.HandleCqeClose` | code/c/server/io_uring/main.c:303-312 | the op is off the list and freed, nothing is submitted, 0 is returned; exits exactly on any result but 0 |
| `IoUringServer.Server.HandleClosingClient` | code/c/server/io_uring/main.c:467-475 | exactly the op's node leaves the list |
| `IoUringServer.Server.HandleCqeRecv` | code/c/server/io_uring/main.c:314-356 | end of stream turns the op into a CLOSE, a full message into a SEND of that many bytes; 1 is returned and the tail advanced once; exits for its result exactly when it is neither |
| `IoUringServer.Server.PrepCloseClientReq` | code/c/server/io_uring/main.c:452-465 | the same op, now a CLOSE, is published |
| `IoUringServer.Server.HandleCqeSend` | code/c/server/io_uring/main.c:358-398 | a full send turns the op back into a RECV and 1 is returned; exits for its result exactly when it is short or failed |
| `IoUringServer.Server.HandleCqeTimer` | code/c/server/io_uring/main.c:400-412 | -ETIME disarms the timer, nothing is submitted, 0 is returned; exits exactly on any other result |
| `IoUringServer.Server.ServiceCqeEvents` | code/c/server/io_uring/main.c:155-186 | the returned value is the number of tail advances, the server's steps are the event's handler and that many submissions; exits for the result exactly when the op's tag rejects it |
| `IoUringServer.Server.GetCqe` | code/c/server/io_uring/io_uring_server_utils.c:399-425 | observe, copy and announce with kernel steps between; NULL changes nothing in the ring |
| `IoUringServer.Server.EnterOrWake` | code/c/server/io_uring/io_uring_server_utils.c:224-253 | without kernel poll mode everything published has been read when it returns |
| `IoUringServer.Server.SubmitFirst` | code/c/server/io_uring/main.c:117-123 | before the loop the accept request, and the timer request when benchmarking, are published and counted |
| `IoUringServer.Server.ServeOne` | code/c/server/io_uring/main.c:133-146 | one iteration: nothing to take and enter, or an event, its handler and the counter |
| `IoUringServer.Server.ServeUntilStopped` | code/c/server/io_uring/main.c:107-146 | the start-up and as many iterations as asked for, in order, as a legal run |
| `IoUringServer.Server.CloseTracked` | code/c/server/io_uring/main.c:196-208 | each tracked op and node is visited, closed and freed once, in list order, up to the first close that fails |
| `IoUringServer.Server.IouFree` | code/c/server/io_uring/io_uring_server_utils.c:194-217 | any number of kernel steps, then the ring is closed; a loop that ended settled leaves no dead close |
| `IoUringServer.Server.DoServiceLoopCleanup` | code/c/server/io_uring/main.c:188-212 | returns exactly when no dead close waits when the ring is freed, and always when the loop ended settled; then the list is empty and only the loop's own requests are left |
| `IoUringServer.Server.ServiceLoop` | code/c/server/io_uring/main.c:107-153 | from start to end: a legal run of the start-up and exactly the iterations asked for, unless it exits, then the cleanup, which returns exactly when no dead close waits when the ring is freed, and always when the loop ended settled; then no client op or node is left |
| `PollFdVector.Vector.constructor` | code/c/server/poll/pollfd_vector.c:29-48 | an empty vector of capacity 16 with every slot marked free |
| `PollFdVector.Vector.Add` | code/c/server/poll/pollfd_vector.c:58-77 | appends the pair, growing when full; exits exactly when there is no room and doubling wraps |
| `PollFdVector.Vector.Extend` | code/c/server/poll/pollfd_vector.c:112-131 | new arrays of twice the capacity modulo 2^32 holding the same pairs |
| `PollFdVector.Vector.RemoveIndex` | code/c/server/poll/pollfd_vector.c:79-109 | swap-remove of the pair at the index, the vacated slot marked free; a slot without descriptor is left alone; past the size, a slot with a descriptor costs the last entry |
| `PollFdVector.VectorIsBag` | code/c/server/poll/pollfd_vector.c:58-109 | add inserts exactly one pair, remove deletes exactly the pair at the index; pairs are never split |
| `PollFdVector.AddThenRemove` | code/c/server/poll/pollfd_vector.c:58-109 | the entry added last fills the gap of any entry removed after it; removed itself, it is as if never added |
| `PollFdVector.GrowthCost` | code/c/server/poll/pollfd_vector.c:58-131 | over any run: capacity is 16 times a power of two, and either 16 or below twice the peak size; all extensions carry fewer than two elements per add, and adding fails exactly at 2^31 entries |
| `PollSweep.CollectSwapRemove` | code/c/server/poll/pollfd_vector.c:92-108 | swap-remove takes one slot's share from the whole, and leaves ahead of the slot what was ahead of it |
| `PollSweep.OwnedRemove` | code/c/server/poll/main.c:318-328 | closing a client gives up its descriptor and its data and keeps every other slot's, the listener at index 0 |
| `PollSweep.OwnedAdd` | code/c/server/poll/main.c:255-272 | a new client owns a descriptor and data nobody else has |
| `PollSweep.MoreAhead` | code/c/server/poll/main.c:156 | while events are left to service, they lie at or after i, inside the vector and below the stale bound |
| `PollSweep.SweepKeeps` | code/c/server/poll/main.c:163-185 | an entry serviced in place is accounted for, whatever was appended or reallocated, its revents cleared or not |
| `PollSweep.SweepRemoves` | code/c/server/poll/main.c:168-182 | an entry serviced and removed is accounted for, and the entry moved into its slot is still ahead |
| `PollSweep.NoFdAfterSweep` | code/c/server/poll/main.c:260-266 | a sweep leaves an entry without descriptor exactly when there was one or an accept answered -1 |
| `PollSweep.NobodyCanCome` | code/c/server/poll/main.c:260-266 | a sweep from a sound vector that leaves one |
| `PollSweep.CleanupStep` | code/c/server/poll/main.c:197-208 | the slot the cleanup looks at holds an open descriptor, or none, and memory that is allocated, or none |
| `PollSweep.OncePerDescriptor` | code/c/server/poll/main.c:148-189 | a sweep's services name no descriptor twice |
| `PollSweep.NothingUnexpected` | code/c/server/poll/main.c:274-316 | a service that fits its entry's event is never the one that does nothing |
| `PollServer.Server.constructor` | code/c/server/poll/main.c:92-118 | the listener at index 0, then the timer when there is one, both polled for input and nothing else |
| `PollServer.Server.AcceptClient` | code/c/server/server_utils.c:87-105 | a descriptor not in use, -1 or exit, as the answer to this call says |
| `PollServer.Server.ReadNEcho` | code/c/server/server_utils.c:112-138 | called on an open socket and allocated memory only; gives the answer to this call |
| `PollServer.Server.ServiceEvents` | code/c/server/poll/main.c:148-189 | every ready entry is serviced exactly once, by the handler its event calls for; the vector gains exactly the accepted connections and loses exactly the closed ones; no event stays set, but the listener's may if the vector was full; what a client's input leads to is what the read of it answered; the loop ends and the final assertion never fires |
| `PollServer.Server.ServiceOne` | code/c/server/poll/main.c:157-185 | one ready slot: the right branch, and whether the index steps back |
| `PollServer.Server.HandleClientEvent` | code/c/server/poll/main.c:274-316 | hang-up or error closes and nothing is read; else input is read by one call on the entry's own socket and buffer, and the client is closed if and only if that call answers end of stream, kept if and only if it echoed a message, and the process exits if and only if it failed; 1 exactly when the slot was given away |
| `PollServer.Server.ClearRevents` | code/c/server/poll/main.c:185 | the slot's revents is cleared, unless the array moved since the pointer was taken |
| `PollServer.Server.CloseClient` | code/c/server/poll/main.c:318-328 | close succeeds, data that was allocated is freed, the entry is swap-removed |
| `PollServer.Server.TimerEvent` | code/c/server/poll/main.c:168-175 | the timer is closed once, its slot given away, and forgotten |
| `PollServer.Server.PollHandleNewClient` | code/c/server/poll/main.c:255-272 | appends one entry polled for input, not ready, with fresh data; exits exactly when accept_client does or the doubled capacity wraps |
| `PollServer.Server.DoClientConnectionsCleanup` | code/c/server/poll/main.c:191-209 | succeeds exactly when every entry has a descriptor; then every descriptor was closed and every allocation freed, once |
| `PollServer.Server.Ppoll` | code/c/server/poll/main.c:121-133 | unless interrupted, sets the revents of every entry to what the call reports of it and returns how many it set; nothing else in the vector changes |
| `PollServer.Server.ServeOne` | code/c/server/poll/main.c:120-139 | one iteration: a poll, and unless a signal came a whole sweep over what it reported |
| `PollServer.Server.ServiceLoop` | code/c/server/poll/main.c:120-146 | one record for each of the polls asked for, in order, each a signal, or what the call of ppoll reports on the vector the one before left and a whole sweep over it; the reads and accepts made are exactly those the services consist of; the process exits in the loop exactly for what a read or accept of its own answered, or at 2^31 entries; after the loop the cleanup fails exactly when an entry had no descriptor at the start or some accept answered -1, and otherwise nothing is left open or allocated |
| `TimeUtils.TimespecRebalance` | code/c/common/time_utils.c:85-117 | in place: the balanced form of the same time, short exactly of what does not fit the int quotient |
| `TimeUtils.BalancedIsUnique` | code/c/common/time_utils.c:75-84 | a time has one balanced form |
| `TimeUtils.RebalanceKeepsIff` | code/c/common/time_utils.c:93-95 | the time is kept if and only if the quotient fits 32 bits |
| `TimeUtils.RebalanceCanLose` | code/c/common/time_utils.c:93 | an input whose time is not kept |
| `TimeUtils.RebalanceIsIdempotent` | code/c/common/time_utils.c:85-117 | rebalancing a balanced timespec changes nothing |
| `TimeUtils.TimeDelta` | code/c/common/time_utils.c:61-72 | the balanced difference, short of what the quotient loses |
| `TimeUtils.DeltaOfBalanced` | code/c/common/time_utils.c:61-72 | the difference of balanced times is exact |
| `TimeUtils.LtIsNumeric` | code/c/common/time_utils.c:127-134 | on balanced times timespec_lt is the numeric order |
| `TimeUtils.LtIsSignOfDelta` | code/c/common/time_utils.c:61-134 | it agrees with the sign of time_delta, visible in either field |
| `TimeUtils.ToNsIsTotal` | code/c/common/time_utils.c:40-43 | timespec_to_ns is the time modulo 2^64, negative fields included |
| `TimeUtils.NsRoundTrip` | code/c/common/time_utils.c:40-51 | ns to timespec to ns is the identity on 64 bits, through a balanced timespec |
| `TimeUtils.TimespecRoundTripIff` | code/c/common/time_utils.c:40-51 | timespec to ns and back is the identity on a balanced timespec if and only if it is not negative and below 2^64 ns |
| `TimeUtils.DeltaToNsIff` | code/c/server/server_benchmark.c:72-74 | timespec_to_ns(time_delta(a, b)) is the difference of the nanoseconds modulo 2^64 if and only if the quotient fits, as it does for balanced times |
| `TimeUtils.CommentExamples` | code/c/common/time_utils.c:80-83 | what the code makes of the comment's four examples |

## Left out

- ProtocolTheorems.CounterIsExact: not claimed in kernel poll mode, where the program does not use the counter.
- PollServer.Server.ClearRevents: does not claim that the listener's revents is cleared after the array has grown, which takes a full vector, because `code/c/server/poll/main.c:157,185` then writes through a pointer into the old block.
- PollFdVector.Vector.RemoveIndex: an empty vector whose slot at the index holds a descriptor is excluded; the program would write before the arrays, and no caller passes such an index.
- IoUringServer.Server.EnterOrWake: the wake-up of a sleeping kernel thread in poll mode and the errors of io_uring_enter are not modelled; in poll mode the kernel may act at any time.
- TimeUtils.TimespecRebalance: signed overflow of the seconds is undefined behaviour in C and excluded.
- Server.k: the fields of every op, the counters and the kernel's tables are one record that methods reassign; only rings, arrays, list and tracker nodes are separate heap objects.
- Memory ordering: release and acquire accesses are atomic publish and observe points; `code/c/server/io_uring/README.md:40-71` is not formalised.
- System calls and setup: sockets, mmap, io_uring_setup, feature checks, signal masks, timerfd, CPU affinity. `server_running` being cleared is an iteration count; of iou_free only the closing of the ring is modelled.
- Overflow of the `int` counter in kernel poll mode when the completion queue is never seen empty.
- Fields that play no part: addr2, accept_flags, msg_flags, file_index, timeout_flags, the socket address, `addrlen`.
- Errors of ppoll other than EINTR, which the program asserts against (`code/c/server/poll/main.c:123-128`).
- Failing calloc, malloc and realloc, which the program asserts against.
- PollServer.Server.ReadNEcho: the reads and writes inside it are not modelled; its n-th call answers end of stream, one message echoed or exit, as the constant `world` says.
- The epoll server: epoll plumbing, over a list whose `next` pointers are not all set (`code/c/server/epoll/main.c:405-414`).
- Benchmark bookkeeping and its JSON output, the C client, logging, and the Rust benchmark client.
- Performance.
