# A verified model of TANSIV

TANSIV runs virtual machines in lock step with a SimGrid simulation of their network. A coordinator
broadcasts a deadline to all VMs; each VM computes until that deadline, freezes its clock, sends the
packets of the elapsed slot, says that it reached the deadline, and waits for packets and the next
deadline. The coordinator feeds the packets to the simulator, advances the simulated clock to the
deadline and delivers what the network has finished. This project models that protocol and the
concurrent data structures below it in Dafny, and proves what they guarantee.

## Layout

| file | what it models |
|---|---|
| `SlotMachine.dfy`, `SlotTheorems.dfy` | output side of a client: buffer pool, slot set, overrun queue, any number of senders and the deadline handler, interleaved at every atomic access |
| `SlotHistory.dfy`, `SlotFlush.dfy` | whole histories of that machine; the handler's pass and pops against the flush of `OutputSide`, which is one step |
| `OutputMsgSet.dfy` | the class itself, each method proved under arbitrary interference of the other threads |
| `SeqLock.dfy` | the sequence lock, word by word, any number of readers and writers |
| `ProcessTimer.dfy` | the process timer: freeze, thaw, and a signal handler that may strike between any two steps of the application |
| `KvmClock.dfy` | the KVM timer: wrapping 64-bit arithmetic, deadlines accumulated by the kernel module |
| `OutputSide.dfy`, `ClientContext.dfy` | what a deadline writes, timestamp window, `Context` |
| `InputSide.dfy` | input queue, its pool and the wake-up of the application |
| `WireTime.dfy` | simulated time as real, as wire pair, as nanoseconds |
| `PoolMachine.dfy`, `BufferPool.dfy` | the pool of byte buffers: all interleavings of swaps, stores, moves and drops, and the class under that interference |
| `Framing.dfy`, `Connector.dfy` | size-prefixed frames over partial and interrupted socket calls, received into pool buffers |
| `Coordinator.dfy`, `CoordinatorTheorems.dfy`, `VmsInterface.dfy`, `VmsCoordinator.dfy` | the coordinator's round as a function, its theorems, and the loops that compute it |
| `LockStep.dfy`, `LockStepTheorems.dfy` | the whole system: coordinator, VMs that may give up or die at any time, FIFO sockets |
| `LockStepDelivery.dfy`, `LockStepLetters.dfy`, `LockStepProgress.dfy`, `LockStepWitness.dfy`, `LockStepAbort.dfy` | causality at the reader, conservation of every packet from `send` to `recv`, exact conditions for deadlock and for an aborting round, and concrete runs |

Concurrent parts are state machines: `Enabled` and `Do` give the atomic steps, `IsRun` a run of any
length, and the theorems quantify over all runs. Imperative code is a class whose methods are proved
against specification functions. SimGrid is an oracle: every communication carries the date at which
the network will finish it, fixed when it starts and not earlier than its start plus the latency of its
route, and the next event lies after the clock with no pending finish in between.

Hypotheses the code does not hold without, and what happens otherwise:

- one VM per host (`PruningIsExactIff` gives the exact condition);
- a forced latency not above the real ones (`ForcedLatencyTooLarge` constructs a late delivery);
- with the KVM timer, no other push and no flush of a later deadline between the overrun check of `send`
  and its push (`PushKeepsIff` is exact; `OtherPushBreaksWindow`, `SecondFlushBreaksWindow`);
- frames of at most 2048 bytes, the guard of `Send` in `LockStep`;
- clients that close their socket when their handler gives up: the coordinator reads one socket at a
  time, and one that does not close blocks it whatever the other VMs do (`DeadlockIff` and `EndsIff` are
  exact; `BlockedForEver`, `CoordinatorCanWaitForEver`);
- no packet stamped 0 in a round that begins after epsilon and before 1 ns (`CanEndIff` is exact;
  `CoordinatorCanAbort`);
- with the process timer, no packet stamped in the last part of a slot that is as long as all firing
  delays so far together (`ProcessGivesUpIff` is exact);
- no `recv` during the deadline handler, for wake-ups (`LostWakeUpIff`, `WakeUpCanBeLost`);
- the application of the process timer does not read the clock while it is frozen, nor in the first
  second of simulated time (`PanicsIff`, `PanicsAtEveryEarlyTime`);
- intended KVM times below 2^63 ns (`NowIsCorrectIff`).

Where code and comments differ, the model follows the code. The comment on the sequence lock asks for
nothing about `read_fn`, but it can be called with words that never belonged together, and with the
process timer this can panic (`ReadFnMaySeeTornWords`, `PanicNeedsTornOffset`, `PanicsIff`).
The assertion on causality in the coordinator adds the timestamp twice; the real bound is
`RoundsAreDisciplined`, and `AssertionInEveryRun` says exactly when the assertion as written fails.

## Model

| member | source | states |
|---|---|---|
| `LockStepTheorems.DeliveredOnTime` | src/coordinator/VmsCoordinator.cpp:92-170 | in every run, a message that reaches a running VM other than its sender finished in the network exactly at the round's deadline, not before its timestamp plus the latency of the route; the receiver, if alive, is frozen at that deadline rounded down, so its time exceeds timestamp plus latency minus 1 ns |
| `LockStepTheorems.RoundsAreDisciplined` | src/client/tansiv-client/src/lib.rs:155-215 | in every run the messages collected in a round come from running VMs, are stamped no later than the deadline and trail the clock at the start of the round by less than 1 ns |
| `LockStepTheorems.ClientsInLockStep` | src/coordinator/VmsInterface.cpp:162-185 | in every run two living clients are at most one deadline apart; those that took in the same number agree on previous and next deadline, which is the coordinator's rounded down; one that computes has the deadline the coordinator waits for |
| `LockStepTheorems.ProtocolHolds` | src/client/tansiv-client/src/lib.rs:125-143 | in every run `start` receives a deadline first, no deadline is below the previous one (so the subtractions of the timers never underflow), broadcasts are in order and messages are conserved |
| `LockStepDelivery.ReadsAreCausal` | src/client/tansiv-client/src/lib.rs:217-262 | in every run a packet is read, first in first out, only by its destination, which is frozen and stays so; if another VM sent it, the reader's time exceeds the sender's timestamp plus the latency of the route minus 1 ns |
| `LockStepDelivery.RunFramed` | src/coordinator/VmsInterface.cpp:291-312 | the same for every packet still on its way to a living client |
| `LockStepDelivery.FramesDelivered` | src/coordinator/VmsCoordinator.cpp:154-170 | in every run, at the end of every round: each message counted as delivered is written once to the socket of its destination and to no other, and what is counted as collected is what was simulated |
| `LockStepDelivery.ForCount` | src/coordinator/VmsInterface.cpp:291-312 | each delivered message is one frame for its destination and none for others |
| `LockStepLetters.LettersConserved` | src/client/tansiv-client/src/lib.rs:155-310 | in every run, for every sender, destination and payload: what the simulator took over, was collected or is in the socket was sent; everything a living VM sent is there or still in its queues, once each |
| `LockStepLetters.CollectionIsGoTo` | src/coordinator/VmsInterface.cpp:193-253 | in every run, while the coordinator reads a VM, the list it collects grows by exactly the packets that `goTo` takes from the frames read, whatever the VMs do meanwhile |
| `LockStepLetters.FlushWrites` | src/client/tansiv-client/src/lib.rs:184-215 | however many writes succeed, a prefix of what the deadline writes reaches the socket, frame by frame |
| `LockStepLetters.ClientIsOutputSide` | src/client/tansiv-client/src/lib.rs:155-310 | a send, deadline or receive of a client of the system changes its queues and deadlines as the same event of the output side does, so that what holds of every run of the latter holds of it |
| `LockStepProgress.DeadlockIff` | src/coordinator/VmsInterface.cpp:193-253 | in every run with a connected VM, no step of the protocol is possible if and only if the coordinator aborted, or it reads the socket of a client whose handler gave up with the socket open and whose frames were all read, and no client computes or has anything to read; frames of other VMs do not help |
| `LockStepProgress.BlockedForEver` | src/coordinator/VmsInterface.cpp:197-204 | from then on the coordinator has no step in any state of any run, whatever the other VMs do, until the process it waits for dies; its death lets the coordinator go on |
| `LockStepProgress.WaitsInVainIff` | src/coordinator/VmsInterface.cpp:197-205 | for any VM the coordinator waits for: when the coordinator reads its socket, neither side has a step exactly if the client's handler gave up with the socket open and its frames were all read |
| `LockStepProgress.EndsIff` | src/client/tansiv-client/src/timer/process.rs:292-297 | where such clients come from: exactly a failed deadline (late packet or failed write) or a failed receive (no buffer, date not accepted), with a timer other than KVM's or before the start |
| `LockStepProgress.CanBegin` | src/coordinator/VmsCoordinator.cpp:92-115 | between rounds, with a VM connected, the next round can begin |
| `LockStepProgress.CanEndIff` | src/coordinator/VmsCoordinator.cpp:115-124 | in every run, once all VMs reached the deadline or are gone, the round can end exactly when the causality assertion holds of the sorted messages, that is unless one is stamped 0 and the clock is strictly between epsilon and 1 ns; otherwise the coordinator can only abort; the order given to equal timestamps does not matter |
| `LockStepProgress.HasOutcome` | src/coordinator/VmsCoordinator.cpp:115-170 | whatever was collected can be sorted and simulated |
| `LockStepAbort.CoordinatorCanAbort` | src/coordinator/VmsCoordinator.cpp:119-124 | a run to such a round: forced latency 0.5 ns, a first round without packets, then a packet stamped 0 by a disciplined VM |
| `LockStepWitness.CoordinatorCanWaitForEver` | src/client/tansiv-client/src/lib.rs:177-181 | a run that deadlocks: a packet stamped after the deadline and before its signal makes a process client give up with its socket open; the coordinator reads that socket while the other VM's AtDeadline stays unread |
| `LockStepTheorems.GuardsAlwaysHold` | src/coordinator/VmsCoordinator.cpp:131-133 | in every run the deadline is a date the encoding accepts and the sender of every collected message is a deployed VM, so the assertion on its host holds |
| `LockStepTheorems.RunGood` | src/coordinator/VmsCoordinator.cpp:85-175 | the invariant of the composed system holds after every step of every run |
| `LockStepTheorems.StepGood` | src/coordinator/VmsCoordinator.cpp:85-175 | every single step keeps it: round start, turning to a socket, reads, deaths, abort, round end, receives with and without a buffer, sends, flushes |
| `LockStepTheorems.SelfFlush` | src/client/tansiv-client/src/lib.rs:155-215 | what a deadline writes stays in the slot's window and ends with AtDeadline exactly when the client lives on |
| `LockStepTheorems.SelfHear` | src/client/tansiv-client/src/lib.rs:222-262 | a client that reads a frame stays in step: packets first, then the deadline, never one that goes back |
| `LockStepTheorems.EndRoundOk` | src/coordinator/VmsCoordinator.cpp:109-153 | composed with client clamping and flooring, what was collected meets the hypotheses of the lookahead argument |
| `LockStepWitness.APacketArrives` | src/coordinator/VmsCoordinator.cpp:92-170 | the theorems are not vacuous: a run of two VMs after which a round can end with a packet that arrives on time |
| `CoordinatorTheorems.LookaheadIsExact` | src/coordinator/VmsCoordinator.cpp:92-170 | whatever a round delivers to a running VM other than the sender finished in the network at the deadline, neither earlier nor later |
| `CoordinatorTheorems.DeadlineIs` | src/coordinator/VmsCoordinator.cpp:94-112 | on the platform itself: the deadline is not after the next event nor after the clock plus the latency between any two different running VMs, or plus the forced one, and it is equal to one of these |
| `CoordinatorTheorems.LaterIsUnsafe` | src/coordinator/VmsCoordinator.cpp:108-112 | the deadline is the greatest safe date: for every later one up to the next event there are a message of a running VM stamped in time and a network that respects the latencies which finishes it strictly before that date |
| `CoordinatorTheorems.PruningIsExactIff` | src/coordinator/VmsCoordinator.cpp:94-106 | removing actors by host name leaves exactly the running VMs if and only if no stopped VM shared its host with a running one |
| `CoordinatorTheorems.SurvivorsSplit` | src/coordinator/VmsCoordinator.cpp:95-103 | actors are removed one by one: those that stay keep their order, whatever is next to them |
| `CoordinatorTheorems.PrunedInv` | src/coordinator/VmsCoordinator.cpp:92-106 | when the deadline is chosen, the actors used for the lookahead are exactly the connected VMs |
| `CoordinatorTheorems.LookaheadBelowLatency` | src/coordinator/VmsCoordinator.cpp:24-46 | the lookahead never exceeds the latency between two different running VMs |
| `CoordinatorTheorems.LookaheadPositive` | src/coordinator/VmsCoordinator.cpp:43-44 | the lookahead is not negative, and positive unless forced to zero: the assertion on the platform never fires |
| `CoordinatorTheorems.RoundEndsAtDeadline` | src/coordinator/VmsCoordinator.cpp:108-153 | the deadline is not in the past, the clock never goes back and a finite round ends exactly at its deadline; time advances unless the forced latency is zero |
| `CoordinatorTheorems.RoundClock` | src/coordinator/VmsCoordinator.cpp:116-153 | for all messages and deadlines, disciplined or not, the clock ends at the latest of its old value, the timestamps and the deadline |
| `CoordinatorTheorems.RoundConserves` | src/coordinator/VmsCoordinator.cpp:116-170 | each collected message is under way, delivered or dropped, in one class only, before and after a round |
| `CoordinatorTheorems.RoundKeepsInv` | src/coordinator/VmsCoordinator.cpp:92-170 | a round keeps deployment, lookahead, conservation, and leaves no finished communication behind |
| `CoordinatorTheorems.DeliverySplits` | src/coordinator/VmsCoordinator.cpp:154-170 | a finished communication leaves the list once, to a running VM or to nobody |
| `CoordinatorTheorems.LaunchSplits` | src/coordinator/VmsCoordinator.cpp:116-147 | a collected message is started or, with an unknown destination, dropped, never both |
| `CoordinatorTheorems.RoundKeepsTimely` | src/coordinator/VmsCoordinator.cpp:123-144 | nothing under way can finish before its timestamp plus the latency of its route |
| `CoordinatorTheorems.CausalityAssertionIff` | src/coordinator/VmsCoordinator.cpp:116-124 | for every message of a round, at the clock at which it is evaluated, the assertion as written fails exactly for timestamp 0 and a clock strictly between epsilon and 1 ns |
| `CoordinatorTheorems.AssertionFailsIff` | src/coordinator/VmsCoordinator.cpp:118-121 | for any clock and timestamp, the assertion as written fails exactly when the clock exceeds twice the timestamp by more than 2^-52 s |
| `LockStepTheorems.AssertionInEveryRun` | src/coordinator/VmsCoordinator.cpp:116-124 | the same for every message of every round of every run, in whatever order `std::sort` leaves equal timestamps |
| `CoordinatorTheorems.ForcedLatencyTooLarge` | src/coordinator/VmsCoordinator.cpp:26-28 | with a forced latency above a real one there is a round that delivers a message later than the network finished it |
| `Coordinator.LeastLatencyIsMin` | src/coordinator/VmsCoordinator.cpp:29-41 | the value specified for the nested loops is a lower bound of all latencies between different actors and is reached, or infinite without a pair |
| `Coordinator.MinLatencyUnique` | src/coordinator/VmsCoordinator.cpp:29-41 | that minimum is unique |
| `VmsCoordinator.VmsCoordinator.Round` | src/coordinator/VmsCoordinator.cpp:92-170 | one turn of the loop chooses the earlier of next event and clock plus lookahead (greatest safe by `LaterIsUnsafe`), performs the specified round on the whole state, broadcasts the deadline, delivers exactly the finished messages and keeps the two vectors aligned, unless an assertion fails, and says exactly when one does |
| `VmsCoordinator.VmsCoordinator.ComputeMinLatency` | src/coordinator/VmsCoordinator.cpp:24-47 | the nested loops return the forced latency or the minimum; the assertion fails exactly for a computed minimum that is not positive |
| `VmsCoordinator.VmsCoordinator.GetNextEvent` | src/coordinator/VmsCoordinator.cpp:49-61 | the loop returns the first announced date after the clock |
| `VmsCoordinator.VmsCoordinator.ForgetDead` | src/coordinator/VmsCoordinator.cpp:94-106 | the erase loop removes the actors on hosts of stopped VMs, and the lookahead is recomputed and asserted positive |
| `VmsCoordinator.VmsCoordinator.GoOn` | src/coordinator/VmsCoordinator.cpp:108-170 | the rest of the round: the deadline is at most the next event and at most clock plus lookahead and equals one of them; then broadcast, collection and simulation |
| `VmsCoordinator.VmsCoordinator.StartComm` | src/coordinator/VmsCoordinator.cpp:116-146 | both assertions, then the clock reaches the timestamp and a known destination gives one aligned entry in both vectors |
| `VmsCoordinator.VmsCoordinator.StartComms` | src/coordinator/VmsCoordinator.cpp:116-147 | the loop goes through exactly when every message passes the assertions, and then starts exactly the specified communications |
| `VmsCoordinator.VmsCoordinator.DeliverOne` | src/coordinator/VmsCoordinator.cpp:158-166 | both vectors lose the entry and the message goes to its VM if connected |
| `VmsCoordinator.VmsCoordinator.DeliveryLoop` | src/coordinator/VmsCoordinator.cpp:154-170 | the loop ends and leaves no finished communication, in whatever order they are reported |
| `VmsCoordinator.VmsCoordinator.DeliverFinished` | src/coordinator/VmsCoordinator.cpp:154-170 | what is delivered is exactly the finished messages for connected VMs, as a multiset |
| `VmsCoordinator.VmsCoordinator.Simulate` | src/coordinator/VmsCoordinator.cpp:116-170 | starting, sleeping and delivering amount to the specified second half of a round; no sleep for an infinite deadline |
| `VmsCoordinator.VmsCoordinator.TestAny` | src/coordinator/VmsCoordinator.cpp:154-169 | some finished communication or none exists |
| `VmsCoordinator.RemoveFinished` | src/coordinator/VmsCoordinator.cpp:161-162 | the order in which finished communications are removed does not change what is left |
| `VmsCoordinator.RemoveArrived` | src/coordinator/VmsCoordinator.cpp:161-166 | removing one finished communication accounts for exactly one arrival |
| `VmsInterface.VmsInterface.GoTo` | src/coordinator/VmsInterface.cpp:162-263 | every connected VM is visited once and sent the deadline; the result is a sorted permutation of all packets of the VMs visited (`PacketsAre`, `GatheredSplits`); sockets that closed are dropped and remembered |
| `VmsInterface.VmsInterface.ReadVm` | src/coordinator/VmsInterface.cpp:197-252 | appends the packets up to AtDeadline or the end of the stream, malformed ones skipped (`PacketsAre` says which, by index); a closed socket is recorded |
| `VmsInterface.VmsInterface.CloseVmSocket` | src/coordinator/VmsInterface.cpp:273-280 | the VM joins the trash and a stop is noted |
| `VmsInterface.VmsInterface.GetDeadVmHosts` | src/coordinator/VmsInterface.cpp:281-289 | the hosts of the VMs in the trash, in order |
| `VmsInterface.VmsInterface.DeliverMessage` | src/coordinator/VmsInterface.cpp:291-312 | written to a connected destination, dropped otherwise |
| `VmsInterface.VmsInterface.VmActive` | src/coordinator/VmsInterface.cpp:157-160 | until the first stop, or until no VM is connected |
| `VmsInterface.VmsInterface.RegisterVm` | src/coordinator/VmsInterface.cpp:91-139 | the VM is deployed and connected |
| `VmsInterface.GoneAre` | src/coordinator/VmsInterface.cpp:200-205 | the VMs dropped are exactly those visited that never said AtDeadline |
| `VmsInterface.GatheredFrom` | src/coordinator/VmsInterface.cpp:188-253 | a collected message was read from some visited VM, and conversely; how often and in which order: `GatheredSplits`, `PacketsAre` |
| `VmsInterface.PacketsAre` | src/coordinator/VmsInterface.cpp:197-252 | of the frames of a VM, exactly one packet for each frame before the first AtDeadline that holds one, in order and unchanged, and nothing else |
| `VmsInterface.GatheredSplits` | src/coordinator/VmsInterface.cpp:188-253 | VMs are read one after the other: the packets of some and then of others are those of all, none repeated or left out |
| `VmsInterface.GoneSplits` | src/coordinator/VmsInterface.cpp:200-205 | the same for the VMs that went away |
| `VmsInterface.GatheredOne` | src/coordinator/VmsInterface.cpp:193-253 | a single VM gives its packets and is gone exactly without AtDeadline |
| `VmsInterface.BroadcastReaches` | src/coordinator/VmsInterface.cpp:162-185 | each connected VM is sent the frame exactly once and nobody else anything |
| `VmsInterface.SortSorts` | src/coordinator/VmsInterface.cpp:259-260 | sorting by time gives an ordered permutation |
| `SlotTheorems.InsertAlwaysFindsSlot` | src/client/tansiv-client/src/output_msg_set.rs:75-86 | in every interleaving of any number of senders and the handler, `insert` called with a buffer never answers NoSlotAvailable |
| `SlotTheorems.MissKeepsUncrowded` | src/client/tansiv-client/src/output_msg_set.rs:76-84 | the counting argument: at most n - m messages are at slot m or beyond, also after a sender finds a slot busy |
| `SlotTheorems.BeginKeepsUncrowded` | src/client/tansiv-client/src/lib.rs:102-106 | equal sizes of pool and slot set pay for every new scan |
| `SlotTheorems.HandedOverExactlyOnce` | src/client/tansiv-client/src/output_msg_set.rs:41-109 | in every interleaving accepted messages are those handed over plus those in buffers; every message in a buffer is in exactly one place, with its content |
| `SlotTheorems.SlotsHaveOneOwner` | src/client/tansiv-client/src/output_msg_set.rs:75-108 | valid implies busy, no slot has two writers, and a cell is empty when it is filled |
| `SlotTheorems.PassMissesNothing` | src/client/tansiv-client/src/output_msg_set.rs:41-56 | a full drain pass hands over every message that was valid when it began |
| `SlotTheorems.PassItemsAre` | src/client/tansiv-client/src/output_msg_set.rs:41-56 | what a pass yields is, by increasing slot, exactly what it took out |
| `SlotHistory.NothingLost` | src/client/tansiv-client/src/output_msg_set.rs:41-109 | in every interleaving, for every message: how often it was given to `send` is how often it was handed to the coordinator plus its copies still in buffers, both counted on the steps themselves |
| `SlotHistory.QueueIsFifo` | src/client/tansiv-client/src/lib.rs:194-208 | in every interleaving the packets pushed to the overrun queue are those popped, in the same order, followed by the queue |
| `SlotHistory.NoBufferOnlyIfBusy` | src/client/tansiv-client/src/buffer_pool.rs:72-91 | in every interleaving, an allocation fails only if each buffer of the pool was busy at some instant since the call |
| `SlotHistory.TryIs` | src/client/tansiv-client/src/buffer_pool.rs:75-90 | a buffer obtained was free and is the one the scan stands at; it goes on past a busy one and fails only at the end |
| `SlotTheorems.QueueAndSlotsFit` | src/client/tansiv-client/src/lib.rs:297-305 | queued messages plus busy slots never exceed the number of buffers |
| `SlotTheorems.RunGood` | src/client/tansiv-client/src/output_msg_set.rs:75-109 | the invariants hold in every state of every run |
| `SlotMachine.StepKeepsPlaces` | src/client/tansiv-client/src/buffer_pool.rs:72-97 | every atomic step keeps exact ownership of all buffers and slots |
| `SlotFlush.FlushIsOnePass` | src/client/tansiv-client/src/lib.rs:158-215 | however the senders interleave, the handler's pass over the slots and its pops write exactly what one flush of `OutputSide` writes (given packet by packet in `SendsAre`) of the packets taken out, in slot order, and of the queue when it was locked; they leave the queue it leaves, and give up exactly when it aborts |
| `SlotFlush.FlushSeesAll` | src/client/tansiv-client/src/output_msg_set.rs:41-56 | a pass that is not given up takes out everything published before it began |
| `SlotFlush.PassWrites` | src/client/tansiv-client/src/lib.rs:158-190 | the pass alone, completed or given up: the packets taken out, in slot order, clamped up to the first late one (`ClampedCarries`, `ClampedStops`) |
| `SlotFlush.PopsWrite` | src/client/tansiv-client/src/lib.rs:192-208 | the pops alone: the due packets in order, and what stays |
| `OutputMsgSet.OutputMsgSet.Insert` | src/client/tansiv-client/src/output_msg_set.rs:75-86 | whatever the other threads do, the message ends up published in some slot |
| `OutputMsgSet.OutputMsgSet.TakeSlot` | src/client/tansiv-client/src/output_msg_set.rs:95-108 | a valid slot yields its message and is freed |
| `OutputMsgSet.OutputMsgSet.Next` | src/client/tansiv-client/src/output_msg_set.rs:41-56 | the next message at or after the index, or the end |
| `OutputMsgSet.OutputMsgSet.Drain` | src/client/tansiv-client/src/lib.rs:159-190 | under interference, what comes out is exactly what the pass took out of the slots, in their order, and every message valid at its start is among it |
| `OutputMsgSet.OutputMsgSet.constructor` | src/client/tansiv-client/src/output_msg_set.rs:60-73 | all slots free and empty |
| `OutputMsgSet.RelyOn` | src/client/tansiv-client/src/output_msg_set.rs:75-108 | whatever other threads do keeps the invariants and this thread's local state |
| `SeqLock.ReadsAreLinearizable` | src/rust-deps/seq_lock/src/lib.rs:47-61 | every read that returns used the whole committed value that is current at that very instant, hence none older than the one current when it was called |
| `SeqLock.WritesAreSerial` | src/rust-deps/seq_lock/src/lib.rs:63-82 | writers exclude each other, values are the fold of the write functions in order of entry, the counter is twice the completed writes plus one while a writer is inside, and no assertion fails |
| `SeqLock.WritesTakeEffect` | src/rust-deps/seq_lock/src/lib.rs:63-82 | in every run, a write of f replaces the value current when it leaves by f of that value, once, and leaves the counter even |
| `SeqLock.ReturnsAreOrdered` | src/rust-deps/seq_lock/src/lib.rs:47-61 | over a run all returned values are committed ones and later calls do not see older versions |
| `SeqLock.CommittedIsFold` | src/rust-deps/seq_lock/src/lib.rs:72-77 | the k-th committed value is the fold of the first k write functions |
| `SeqLock.StepGood` | src/rust-deps/seq_lock/src/lib.rs:22-82 | every step of every thread keeps the invariant |
| `SeqLock.ReadFnMaySeeTornWords` | src/rust-deps/seq_lock/src/lib.rs:54-57 | a run in which `read_fn` is called with words that never belonged together |
| `ProcessTimer.TimeNeverGoesBack` | src/client/tansiv-client/src/timer/process.rs:217-223 | with the handler striking at any point of any run, the values returned are not negative and never decrease |
| `ProcessTimer.SamplePairsWithOffset` | src/client/tansiv-client/src/timer/process.rs:217-223 | a returned value pairs a clock sample with the offset in force when it was taken |
| `ProcessTimer.SinceCounted` | src/rust-deps/seq_lock/src/lib.rs:47-61 | while the counter is unchanged, everything read since it was loaded is consistent |
| `ProcessTimer.DriftLaw` | src/client/tansiv-client/src/timer/process.rs:141-188 | the k-th freeze happens at the k-th deadline plus all firing delays so far, whatever the pauses |
| `ProcessTimer.StampLaw` | src/client/tansiv-client/src/timer/process.rs:217-223 | a time returned outside the handler is at least the previous deadline plus all firing delays so far, and beyond the next deadline exactly when the clock was sampled later than the slot's end minus those delays, so always once they exceed the slot |
| `ProcessTimer.ProcessGivesUpIff` | src/client/tansiv-client/src/lib.rs:177-181 | a process client gives up at a deadline exactly when the clock sample of a waiting packet, of this slot or an earlier one, came later than the instant of the deadline minus all firing delays; with any packet of the slot once the delays exceed its length |
| `ProcessTimer.ResumesWhereFrozen` | src/client/tansiv-client/src/timer/process.rs:162-181 | simulated time resumes after a thaw with its value at the freeze, and the timer then runs for exactly the slot up to the deadline received |
| `ProcessTimer.PanicNeedsTornOffset` | src/client/tansiv-client/src/timer/process.rs:219-219 | the conversion of the time panics only if the handler ran between the copies of nanoseconds and seconds |
| `ProcessTimer.PanicsIff` | src/client/tansiv-client/src/timer/process.rs:219-219 | in every run a sample panics if and only if the offset copied lags the one in force by more than the simulated time, hence never from simulated time 1 s - 1 ns on |
| `ProcessTimer.PanicsAtEveryEarlyTime` | src/client/tansiv-client/src/timer/process.rs:219-219 | the bound is sharp: at every earlier simulated time some run panics |
| `ProcessTimer.StepGood` | src/client/tansiv-client/src/timer/process.rs:132-188 | every step of application and handler keeps the invariant |
| `ProcessTimer.TimerContext.FreezeTime` | src/client/tansiv-client/src/timer/process.rs:132-139 | the state freezes and the sample is returned |
| `ProcessTimer.TimerContext.Adjust` | src/client/tansiv-client/src/timer/process.rs:31-34 | one completed write of the lock |
| `ProcessTimer.TimerContext.ThawTimeToDeadline` | src/client/tansiv-client/src/timer/process.rs:141-188 | deadlines shift and the pause is taken off the offset |
| `ProcessTimer.TimerContext.Start` | src/client/tansiv-client/src/timer/process.rs:190-199 | time starts at 0; the timer counts as stopped exactly when it could not be armed |
| `ProcessTimer.TimerContext.DeadlineHandler` | src/client/tansiv-client/src/timer/process.rs:286-299 | freeze, then thaw to the next deadline or stop |
| `ProcessTimer.ToWords` | src/client/tansiv-client/src/timer/process.rs:31-34 | the two words denote the duration, nanoseconds in range |
| `KvmClock.NowIsWrappedIntended` | src/client/tansiv-client/src/timer/qemukvm/mod.rs:162-192 | for all inputs the wrapping arithmetic amounts to one signed 64-bit value, cut at 0 |
| `KvmClock.NowIsCorrectIff` | src/client/tansiv-client/src/timer/qemukvm/mod.rs:184-190 | a non-negative intended time is read correctly if and only if it is below 2^63 ns |
| `KvmClock.NowIsIntended` | src/client/tansiv-client/src/timer/qemukvm/mod.rs:184-190 | in the signed range the time read is the intended one, 0 before the start |
| `KvmClock.TicksAreCounter` | src/client/tansiv-client/src/timer/qemukvm/mod.rs:164-167 | the guest's counter is the host's plus the offset, or 2^64 less when the sum does not fit, and this determines it |
| `KvmClock.NowIsDifference` | src/client/tansiv-client/src/timer/qemukvm/mod.rs:162-192 | on the fields alone: with counter and timer value in whole nanoseconds, the time is their difference plus the deadline, 0 if that is negative, wrapped counters included |
| `KvmClock.NowAtTimerValue` | src/client/tansiv-client/src/timer/qemukvm/mod.rs:162-192 | whatever the frequency and however the counter wrapped, at the timer's value the time is the deadline |
| `KvmClock.IntendedIsAffine` | src/client/tansiv-client/src/timer/qemukvm/mod.rs:179-185 | the intended time, in or out of the signed range, is within 1 ns of the exact affine map of the counter |
| `KvmClock.NanosSaturates` | src/client/tansiv-client/src/timer/qemukvm/mod.rs:184-185 | a count of nanoseconds beyond 64 bits becomes 2^64 - 1 |
| `KvmClock.NowMonotone` | src/client/tansiv-client/src/timer/qemukvm/mod.rs:162-192 | time is monotone in the guest's counter, itself stated on host counter and offset |
| `KvmClock.NowAgainstDeadline` | src/client/tansiv-client/src/timer/qemukvm/mod.rs:167-185 | in terms of the guest's counter: the deadline at the timer value, not beyond it before, and beyond it exactly after a whole nanosecond more |
| `KvmClock.NowIsAffine` | src/client/tansiv-client/src/timer/qemukvm/mod.rs:179-185 | within 1 ns of the exact affine map of the guest's counter, written out on the fields |
| `KvmClock.DifferencesTelescope` | src/kvm/Kernelspace/tansiv-timer.c:369-369 | over every sequence of deadlines the kernel's sum is the client's last deadline modulo 2^64 |
| `KvmClock.TimerContext.RegisterDeadline` | src/kvm/Kernelspace/tansiv-timer.c:344-387 | the kernel adds the difference, wrapping, and stores the slot in ticks |
| `KvmClock.TimerContext.SetNextDeadline` | src/client/tansiv-client/src/timer/qemukvm/mod.rs:95-110 | deadlines shift, the kernel's deadline stays the client's modulo 2^64 and its slot is the client's in ticks |
| `KvmClock.SlotTicksAreExact` | src/client/tansiv-client/src/timer/qemukvm/mod.rs:98-107 | the slot in ticks is exact to less than a tick, and back in time to less than a tick's length |
| `KvmClock.SlotTicksWrap` | src/client/tansiv-client/src/timer/qemukvm/mod.rs:98-107 | a slot longer than 2^64 ns counts modulo 2^64, and one of more than 2^64 ticks as 2^64 - 1 |
| `KvmClock.TimerContext.SlotLength` | src/client/tansiv-client/src/timer/qemukvm/mod.rs:249-250 | the returned length leads from the previous deadline to the kernel's |
| `OutputSide.WindowInEveryRun` | src/client/tansiv-client/src/lib.rs:155-208 | with any number of senders, check and push apart and flushes in between, each flush writes only packets stamped between the previous deadline and this one, as long as no overrun push was overtaken by another push or a later flush; with KVM it never aborts |
| `OutputSide.PushKeepsIff` | src/client/tansiv-client/src/lib.rs:297-301 | a push keeps the queue sorted and beyond the flushed deadlines if and only if its time is beyond the last one flushed and not before the tail |
| `OutputSide.StepGood` | src/client/tansiv-client/src/timer/qemukvm/mod.rs:202-221 | every check, calm push, flush and slot keeps the queue invariant and what each waiting sender knows |
| `OutputSide.TimestampWindow` | src/client/tansiv-client/src/lib.rs:171-207 | the same for one deadline, from the queue invariant |
| `OutputSide.SendsAre` | src/client/tansiv-client/src/lib.rs:158-215 | packet by packet what a deadline writes: the drained ones up to the first beyond the deadline, content unchanged and time raised to the previous deadline if below it; if none is beyond, the front of the overrun queue that is due, unchanged, then AtDeadline; the rest stays queued |
| `OutputSide.DeadlineKeepsQueue` | src/client/tansiv-client/src/lib.rs:194-208 | what stays queued is sorted and strictly beyond the deadline |
| `OutputSide.EnqueueKeepsQueue` | src/client/tansiv-client/src/timer/qemukvm/mod.rs:202-221 | the overrun check keeps the queue sorted and beyond the deadline; which time it gives: `OverrunIs` |
| `OutputSide.OverrunIs` | src/client/tansiv-client/src/timer/qemukvm/mod.rs:202-221 | a packet is late exactly beyond the deadline; its time is then the greater of its own and that of the queue's tail |
| `OutputSide.CheckThenPush` | src/client/tansiv-client/src/lib.rs:297-305 | check and push with nothing in between append the packet with its content to the overrun queue exactly when it is late, and to the slot set with its own time otherwise |
| `OutputSide.DueIsExact` | src/client/tansiv-client/src/lib.rs:195-207 | the loop takes exactly the packets not beyond the deadline |
| `OutputSide.ClampedInWindow` | src/client/tansiv-client/src/lib.rs:171-183 | clamping puts every packet written into the window; which packets they are: `ClampedCarries` |
| `OutputSide.ClampedCarries` | src/client/tansiv-client/src/lib.rs:171-188 | the i-th packet written is the i-th drained: same sender, destination and payload, time the greater of its own and the previous deadline |
| `OutputSide.ClampedStops` | src/client/tansiv-client/src/lib.rs:177-181 | the pass stops exactly at the first packet beyond the deadline |
| `OutputSide.DueStops` | src/client/tansiv-client/src/lib.rs:195-207 | the pops stop exactly at the first packet beyond the deadline |
| `OutputSide.AbortsIffOverrun` | src/client/tansiv-client/src/lib.rs:177-181 | a deadline gives up if and only if a waiting packet is stamped beyond it |
| `OutputSide.OtherPushBreaksWindow` | src/client/tansiv-client/src/lib.rs:297-301 | for all times in the wrong order with a deadline between them, two senders between check and push leave the queue unsorted and a packet from before its slot is written |
| `OutputSide.SecondFlushBreaksWindow` | src/client/tansiv-client/src/lib.rs:297-301 | so does a single sender that a second flush overtakes, for every packet stamped before the deadline of that flush |
| `OutputSide.SendersKept` | src/client/tansiv-client/src/lib.rs:184-215 | senders are unchanged and AtDeadline comes last only |
| `ClientContext.Context.AtDeadline` | src/client/tansiv-client/src/lib.rs:155-246 | the whole handler: what is written when the n-th write fails (packet by packet in `SendsAre`), queues, input (`TakeInIs`), wake-up and callback |
| `ClientContext.Context.Start` | src/client/tansiv-client/src/lib.rs:125-149 | succeeds exactly on the first call, with a valid deadline as first message |
| `ClientContext.Context.Send` | src/client/tansiv-client/src/lib.rs:272-310 | error cases; otherwise exactly this packet, content and time, is appended to the slot set, or, late with KVM, to the overrun queue with the greater of its time and the tail's, and nothing else changes |
| `ClientContext.Context.Recv` | src/client/tansiv-client/src/lib.rs:312-325 | first in, first out; a packet too large for the caller is lost |
| `ClientContext.Context.HandleActorMsg` | src/client/tansiv-client/src/lib.rs:248-262 | a packet is queued, a deadline or the end returned |
| `ClientContext.Context.SendDrained` | src/client/tansiv-client/src/lib.rs:163-190 | the clamped packets (`ClampedCarries`) up to the first late one or failed write |
| `ClientContext.Context.SendUpcoming` | src/client/tansiv-client/src/lib.rs:194-208 | the due packets of the queue up to a failed write |
| `ClientContext.Context.FlushSlot` | src/client/tansiv-client/src/lib.rs:158-215 | all writes of a deadline, in order (`SendsAre`), up to a failed one |
| `ClientContext.Context.ReceiveAll` | src/client/tansiv-client/src/lib.rs:222-233 | the receive loop computes the specified intake (`TakeInIs`) |
| `ClientContext.TakeInAccepts` | src/client/tansiv-client/src/lib.rs:222-262 | packets and then a deadline: if all fit the buffers they are queued in order and the slot goes on, otherwise it is over; the converse is `GoesOnIff` |
| `ClientContext.TakeInIs` | src/client/tansiv-client/src/lib.rs:222-262 | message by message for every input: the packets at the front that fit join the queue in order; the slot goes on exactly if a deadline follows and gets a buffer, and is over on a closed socket, a full pool, an end message or a date not accepted; what is left unread |
| `ClientContext.TakenIn` | src/client/tansiv-client/src/lib.rs:222-246 | every input has such a front |
| `ClientContext.GoesOnIff` | src/client/tansiv-client/src/lib.rs:222-262 | a slot goes on with a deadline if and only if the input begins with packets that fit followed by that deadline |
| `InputSide.PushNeverFails` | src/client/tansiv-client/src/lib.rs:254-256 | in every interleaving the push of a received packet succeeds |
| `InputSide.ReceiveFailsIffFull` | src/client/tansiv-client/src/connector/mod.rs:247-251 | a receive fails for lack of a buffer exactly when all are in use, and ends the simulation |
| `InputSide.InputIsFifo` | src/client/tansiv-client/src/lib.rs:254-325 | in every interleaving, the packets received are those popped by the application, in the same order, followed by those kept |
| `InputSide.NoLostWakeUp` | src/client/tansiv-client/src/lib.rs:217-238 | if the application does not pop during the handler, a non-empty queue outside the handler was announced, on all exits |
| `InputSide.LostWakeUpIff` | src/client/tansiv-client/src/lib.rs:217-238 | exactly when a wake-up is lost |
| `InputSide.WakeUpCanBeLost` | src/client/tansiv-client/src/lib.rs:312-325 | a run that loses one |
| `WireTime.EncodingIsFloor` | src/coordinator/VmsInterface.cpp:27-44 | every date below 2^64 s is accepted by the client and denotes its floor in ns |
| `WireTime.AcceptedIffFinite` | src/client/tansiv-client/src/connector/mod.rs:257-272 | a deadline is accepted if and only if it is finite and below 2^64 s |
| `WireTime.EncodingMonotone` | src/coordinator/VmsInterface.cpp:27-44 | the encoding keeps the order |
| `WireTime.DecodeThenEncode` | src/coordinator/VmsInterface.cpp:46-54 | decoding then encoding a valid pair is the identity |
| `WireTime.DecodeDenotes` | src/client/tansiv-client/src/connector/mod.rs:257-272 | a pair is accepted exactly with less than 10^9 nanoseconds, and denotes seconds plus nanoseconds |
| `WireTime.TimestampIsExact` | src/client/tansiv-client/src/connector/mod.rs:106-107 | a timestamp reaches the coordinator unchanged |
| `WireTime.FloorWithinOneNs` | src/coordinator/VmsInterface.cpp:38-40 | rounding loses less than a nanosecond |
| `Framing.Transfer` | src/wire/socket.cpp:14-67 | a sender that writes frames in a loop and a receiver that reads them in a loop: however the calls cut the stream, the receiver gets the first frames sent, in order and unchanged; on the peer's end all that were sent whole, on ENOBUFS all before the first that is too large |
| `Framing.FramingRoundTrip` | src/wire/socket.cpp:14-67 | frames taken off a stream of frames are the first ones sent, none lost, repeated or made up, and they are all exactly when no whole frame is left; a last frame may be cut off |
| `Framing.Socket.SendFrames` | src/wire/socket.cpp:14-29 | successive sends write the stream of their frames; after a failure, less than one frame more |
| `Framing.Socket.RecvFrames` | src/wire/socket.cpp:51-67 | successive receives take frames off the front of the stream until none is left whole, one is too large, or a call fails |
| `Framing.CutFrameIsNotHeld` | src/wire/socket.cpp:31-49 | a frame cut off anywhere is no whole frame |
| `Framing.Socket.ProtocolSend` | src/wire/socket.cpp:14-29 | success means the whole buffer was written in order, failure a prefix; partial and interrupted calls are resumed |
| `Framing.Socket.ProtocolRecv` | src/wire/socket.cpp:31-49 | success means exactly the next bytes, and the peer's end is reported only if they are not all there |
| `Framing.Socket.FbRecv` | src/wire/socket.cpp:51-67 | the next frame of the stream, or ENOBUFS exactly for one larger than the buffer, whose prefix is then lost |
| `Framing.Socket.ReadExact` | src/client/tansiv-client/src/connector/mod.rs:251-251 | as above at an offset, touching nothing else |
| `Framing.FrameUnique` | src/wire/socket.cpp:58-66 | the first frame of a stream and the rest are determined by the stream |
| `Framing.ReceivedIsSent` | src/wire/socket.cpp:51-67 | two splittings of a stream into frames agree as far as the shorter goes, and no more frames come out than went in |
| `Framing.PrefixRoundTrip` | src/wire/socket.cpp:58-58 | writing then reading a size prefix is the identity |
| `Framing.PrefixUnique` | src/wire/socket.cpp:58-58 | reading then writing a prefix is the identity |
| `Framing.PrefixIsLittleEndian` | src/wire/socket.cpp:58-66 | a size prefix is four bytes, least significant first |
| `PoolMachine.RelyOn` | src/client/tansiv-client/src/buffer_pool.rs:72-97 | whatever other threads do, moves of live buffers included, in any interleaving of any length, a thread's buffers stay its own and keep their bytes, and all it holds more was given to it |
| `PoolMachine.OwnersApart` | src/client/tansiv-client/src/buffer_pool.rs:72-137 | in every interleaving, with live buffers moved between threads, each index has at most one live buffer with one holder, and live byte ranges lie inside the array and are disjoint |
| `PoolMachine.StepInv` | src/client/tansiv-client/src/buffer_pool.rs:76-97 | every swap, store, move and drop keeps flags and holders in agreement |
| `PoolMachine.GiveMoves` | src/client/tansiv-client/src/connector/unix.rs:15-17 | a buffer filled by the handler and kept by the application leaves one for the other with its size and bytes |
| `PoolMachine.StepSpares` | src/client/tansiv-client/src/bytes_buffer.rs:51-69 | no step of one thread touches what another holds |
| `PoolMachine.MovesKeep` | src/client/tansiv-client/src/buffer_pool.rs:72-97 | the guarantee to a bystander, for any path of other threads' steps |
| `PoolMachine.BoundsDisjoint` | src/client/tansiv-client/src/bytes_buffer.rs:11-15 | byte ranges of different indices lie inside the array and are disjoint |
| `BufferPool.BufferPool.AllocateBuffer` | src/client/tansiv-client/src/buffer_pool.rs:72-91 | under interference by any steps of other threads, the buffer was nobody's when it was taken, has the size asked and reads as zeros, and the caller's others are untouched and what else it gets is given to it; size error exact; undisturbed, the first free part or every part owned; all it does are steps of the machine |
| `BufferPool.BufferPool.FreeBuffer` | src/client/tansiv-client/src/buffer_pool.rs:93-97 | dropping a buffer is one step of its thread, which clears its flag and nothing else |
| `BufferPool.BufferPool.Store` | src/client/tansiv-client/src/bytes_buffer.rs:51-65 | a write through a buffer is one step of its thread, which changes that byte only |
| `BufferPool.StoreIs` | src/client/tansiv-client/src/bytes_buffer.rs:51-65 | that step changes the byte in the buffer and no other buffer of the thread |
| `BufferPool.BufferPool.Reset` | src/client/tansiv-client/src/bytes_buffer.rs:67-69 | under interference the buffer reads as zeros afterwards, the thread's others unchanged |
| `BufferPool.BufferPool.Swap` | src/client/tansiv-client/src/buffer_pool.rs:76-76 | the atomic swap is one step of its thread |
| `BufferPool.SwapIs` | src/client/tansiv-client/src/buffer_pool.rs:76-85 | a clear flag means that nobody holds the buffer, and the swap gives it to the caller alone |
| `BufferPool.BufferPool.Yield` | src/client/tansiv-client/src/buffer_pool.rs:75-76 | what a thread still knows after any interference |
| `BufferPool.BufferPool.constructor` | src/client/tansiv-client/src/buffer_pool.rs:58-70 | no buffer is live |
| `Connector.RecvFrame` | src/client/tansiv-client/src/connector/mod.rs:247-251 | the next frame in a buffer that was nobody's, the caller's others untouched; on every error the caller holds what it held before and otherwise only what it was given, so the buffer is freed when the body does not arrive |
| `Connector.FillingMoves` | src/client/tansiv-client/src/connector/mod.rs:251-251 | a read into a buffer, however cut, is a sequence of stores of its thread |
| `Connector.ReadPrefixedSize` | src/client/tansiv-client/src/connector/mod.rs:128-134 | the size the next four bytes denote |

## Left out

- FlatBuffers layout and field checks: a message is a value carried in a length-prefixed frame, malformed ones are one case.
- Weak memory orderings: atomic accesses are sequentially consistent steps.
- Termination of spinning: the retry loops of the sequence lock are steps that may repeat, no fairness is assumed.
- Wrap-around of the sequence counter after 2^63 writes.
- SimGrid itself, `fork`, signal and socket set-up: oracle and nondeterministic steps.
- Rounding of doubles: dates of the coordinator are exact reals, and so are the floats of the KVM clock.
- A deadline of exactly 2^64 s: the conversion to an integer is undefined in the source; the model rejects it like larger ones.
- `end_simulation` on an unknown frame kind and at the end of the run: it only closes sockets or exits.
- `application_now` and `gettimeofday`: same mechanism as simulated time with another origin.
- The QEMU timer without KVM, the C API and configuration: the same bookkeeping over opaque calls.
- Logging, `poll`, address formatting and the byte order of the host.
- `Context` over the real slot set: `ClientContext` keeps the drained messages as a sequence, `SlotFlush` justifies it; its `send` is atomic, `OutputSide` takes check and push apart.
- Scheduling of the coordinator's outer loop: it is the runs of `LockStep`, one `Round` per turn; option `simulate_until_any_stop` only ends runs earlier.
- Frames above 2048 bytes: the coordinator cuts off a living VM that sends one; the system model assumes none. Frame overhead is not modelled, so how large a payload may be is not either.
- What clients do after the coordinator aborted: its process is gone and every receive fails.
- VmsInterface.VmsInterface.RegisterVm: does not model failures of `fork` and `accept`, which only print or exit.
- VmsInterface.VmsInterface.ReadVm: does not model the exit of the coordinator on an unknown frame kind, which no client sends.
- ProcessTimer.TimerContext.FreezeTime: does not store the deadline in application time, because application time is left out.
- ProcessTimer.TimerContext.DeadlineHandler: does not model a failing `timer::settime`, where the source panics.
- BufferPool.BufferPool.AllocateBuffer: says which parts were taken only when no other thread interferes; under interference the flags may change again before it returns.
