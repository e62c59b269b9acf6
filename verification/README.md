# Verified model of mios

mios is an operating system for microcontrollers with host tools. This project
models its hard parts in Dafny and proves what they promise, over every input,
every run or every reachable state:

- the VLLP link protocol between two endpoints over packets that are lost and
  repeated: one packet outstanding each way, channels, fragments, per-channel
  checksum values, and the exchange that opens channels;
- the event log: a byte ring of records with time deltas, followers that drop
  what they miss, and the decoder on the host;
- the scheduler, its wait lists, mutexes, conditions and timers, as a state
  machine in which any thread may be preempted between any two steps;
- packet buffer chains and their pools;
- a NIC's descriptor rings, with the NIC stepping between the driver's writes;
- NOR flash programming and erasing;
- debugging over SWD: batched, posted and retried transfers down to the bits;
- HDLC and SLIP framing, JSON printing and parsing, and CRC-32 in three forms.

## How it is built

Code that works in place is a class whose methods have the source's loops and
are proved against functions on values (`VllpHost`, `EventLogFifo`,
`SchedulerCpu`, `MutexCpu`, `Timers`, `PbufPools`, `Hdlc`, `SpiFlash`, `NicTx`,
`NicRx`, `DapQueue`, `JsonParser`, `JsonPrinter`). The laws are lemmas about those
functions. Protocols are state machines: a run is a sequence of actions, a step
whose guard is false changes nothing, an invariant is kept by every step, and
the main theorems read off the invariant.

Where a promise is not kept by the code, the code is modelled as it is, and a
lemma says exactly when the promise holds:

- `VllpFrames.FragmentProgress`: the MTU is stored in eight bits, so 256 and 257
  become 0 and 1.
- `VllpFrames.PadRoundTrip`: a full 64-byte CAN-FD frame has no room for the pad
  count.
- `VllpControlSteps.AnswerKeepsIff`, `VllpRuns.LossIff`: the acceptance of a channel
  marked for reopening discards data that overtook it.
- `VllpRuns.StepKeeps`, `VllpLimits.VerdictAgreesIff`: an open without a name ends
  the session, and so does a message whose checksum fails after such a loss; a
  refusal whose low sixteen bits are zero reads as an acceptance. `VllpOpening` and `VllpOvertaken`
  give runs from the handshake that come to a nameless open, to a misread refusal
  and to a loss.
- `EventLogRuns.FinishTimesIff`, `EventLogWire.AgeExactIff`: times go wrong when the
  clock goes back or a delta needs eight bytes, and the code reads the clock
  before it takes the log's mutex, so that two threads can commit out of order;
  ages of 2^31 milliseconds and more are sign-extended by the host.
- `SchedulerDetached.DetachedEndsIff`, `SchedulerDetached.HeldDetachedDoubles`: a
  detached thread that somebody else holds goes on running after its exit, and can
  be queued twice.
- `Timers.WokenCleanIff`: a sleep on a list with a deadline of zero leaves its timer
  on the list of timers.
- `Pbuf.ReadStartIff`, `Pbuf.TrimEndsIff`, `Pbuf.SpliceTakesPacket`: a read past the
  first buffer loses the start mark; trimming more than the packet never ends;
  splicing a queue without a packet's end takes what is there.
- `Slip.AcceptedFitsIff`: the refusal of a long frame comes one byte late.
- `JsonRoundTrip.RoundTrip`: trees nested deeper than the parser's limit are
  printed but not parsed.

The theorems about VLLP runs hold for every run as long as the session lasts;
`VllpRuns.StepKeeps` says exactly when it ends, and `VllpCallers.CarefulLasts` what
the callers can do so that it never does. Those about the scheduler, the event
log's times and the timers assume of each action the condition under which the
failure would not occur (`SchedulerRuns.Admissible`, `EventLogRuns.TimelyRun`,
`Timers.NoZeroDeadline`). Of the set-up they assume only a usable stored MTU
(`VllpTheorems.UsableMtu`) and a log size that is a power of two between 16 and
32768 bytes (`EventLog.SizeOk`).

## Model

| member | source | states |
|---|---|---|
| `Crc32.TableEqualsBitwise` | host/dfu.c:860-885 | the table form with its folded inversion equals the bitwise zlib form, for every start value and every data |
| `Crc32.CrcChains` | host/dsig/vllp.c:1629-1636 | the CRC of a concatenation is the CRC of the second part started from the first one's |
| `Crc32.SealedResidue` | host/dsig/vllp.c:341-349 | a message followed by its complemented CRC in little-endian order leaves all ones, for every initial value |
| `CrcTables.LiteralsAreGenerated` | host/dsig/vllp.c:1582-1627 | all 256 literals of the table are the generated entries |
| `CrcTables.VllpCrc32` | host/dsig/vllp.c:1629-1636 | the library's loop over its literal table computes zlib's bitwise CRC from any start value |
| `CrcTables.UpdaterCrc32` | host/dfu.c:868-885 | filling the table and folding the data over it gives zlib's bitwise CRC |
| `VllpFrames.PrefixReassembles` | host/dsig/vllp.c:600-650 | any leading part of a stream of sealed and cut messages reassembles, without a checksum error, into a leading part of the messages, with the initial value advanced alike |
| `VllpFrames.AbsorbMessage` | host/dsig/vllp.c:501-542 | all fragments of a sealed message on an idle reader deliver exactly that message |
| `VllpFrames.PadRoundTrip` | host/dsig/vllp.c:455-471 | CAN-FD padding is undone exactly when the packet leaves room for the pad count or fills the frame and ends in zero |
| `VllpFrames.FragmentProgress` | host/dsig/vllp.c:501-542 | the cutting loop advances on every message if and only if the MTU, as stored in eight bits, is at least two |
| `VllpEndpoint.Handshake` | host/dsig/vllp.c:415-452 | a connection request puts the server in the client's session with crossed control-channel values, and is answered |
| `VllpEndpoint.ScanPointwise` | host/dsig/vllp.c:776-868 | the search for a channel to send on fragments every channel it visits and touches no other |
| `VllpLink.DeliverData` | host/dsig/vllp.c:653-740 | what an end takes from the first packet in flight is exactly the peer's next fragment, or nothing |
| `VllpLink.DeliverAck` | host/dsig/vllp.c:653-740 | an outstanding packet is dropped only after the peer has accepted it |
| `VllpControl.ControlServe` | host/dsig/vllp.c:976-1020 | answering an open keeps both ends numbering the same opens alike, refusals included, also one that reads as an acceptance |
| `VllpControl.ControlAnswer` | host/dsig/vllp.c:1022-1081 | handling an answer keeps both ends numbering the same opens alike |
| `VllpControlSteps.AnswerKeepsIff` | host/dsig/vllp.c:1022-1081 | handling an acceptance leaves the channel whole, its buffer the stream's and its reader lacking nothing, if and only if it discards nothing: the channel is not marked for reopening, or nothing has arrived on it |
| `VllpRuns.StepKeeps` | host/dsig/vllp.c:653-879 | in every state of a session, a step ends the session if and only if the server completes an open without a name, or the client a message with a wrong checksum or length on a channel that has lost data; every other step (receive, transmit, retransmit, create, open, send, read, lose, repeat) keeps the whole invariant of link, streams, readers' queues and control exchange |
| `VllpTheorems.LinkSafety` | host/dsig/vllp.c:474-498 | in every run over links that lose and repeat packets, as long as the session lasts: accepted packets are a prefix of the started ones and lag by at most one; a packet is outstanding until it is accepted; every copy in flight carries its fragment's S bit, channel, L flag and payload |
| `VllpTheorems.EndToEnd` | host/dsig/vllp.c:501-650 | in every run, as long as the session lasts, for every channel of the server: the messages queued to the server's reader are a prefix of those the client sent on it, and all of them once nothing is outstanding; the same the other way unless an acceptance threw data of that very channel away |
| `VllpCallers.CarefulLasts` | host/dsig/vllp.c:976-1081 | when the calls name their channels and do not mark them for reopening, no session ends and no channel loses data, whatever the links do and the server answers |
| `VllpCallers.CarefulEndToEnd` | host/dsig/vllp.c:501-650 | end-to-end delivery both ways from that condition on the calls alone |
| `VllpTheorems.NothingFromNowhere` | host/dsig/vllp.c:600-650 | in every run, as long as the session lasts, nothing is ever read on a channel the server does not have |
| `VllpTheorems.IvAgreement` | host/dsig/vllp.c:351-356 | in every run, as long as the session lasts, both ends derive a channel's values from the same count of opens and use them crosswise, refused opens counted and whatever the channel has lost |
| `VllpProgress.RoundTripClears` | host/dsig/vllp.c:776-879 | whatever was lost before and is still in flight: the client sends once more, the server handles all it is sent and sends, the client handles all it is sent; if the session lasts, the outstanding fragment has been accepted exactly once and is dropped |
| `VllpProgress.ServerRoundTripClears` | host/dsig/vllp.c:776-879 | the same for the server's outstanding fragment |
| `VllpProgress.DueSpeaks` | host/dsig/vllp.c:776-879 | a connected end whose timers are due always puts a packet on the wire |
| `VllpRuns.LossIff` | host/dsig/vllp.c:1046-1062 | a channel loses data if and only if the client handles an acceptance of it that finds it marked for reopening and data arrived |
| `VllpLimits.VerdictAgreesIff` | host/dsig/vllp.c:1022-1081 | after an answer is given and handled, the client has a usable channel that the server does not have if and only if the verdict is a refusal whose low sixteen bits are zero; otherwise both have it or neither |
| `VllpLimits.OvertakenLoses` | host/dsig/vllp.c:1046-1062 | such a channel was whole before, and is not afterwards: what was discarded is missing from its reader or its buffer |
| `VllpOpening.NamelessRun` | host/dsig/vllp.c:976-984 | from the handshake: a client that opens its first channel without a name loses the session |
| `VllpOpening.VerdictRun` | host/dsig/vllp.c:1022-1081 | from the handshake, for every verdict: after one open and its answer the server has the channel if and only if the verdict is zero, the client if and only if its low sixteen bits are |
| `VllpOpening.MisreadRun` | host/dsig/vllp.c:1022-1081 | the verdict 0x10000, from the handshake: the client has a usable channel, the server none |
| `VllpOvertaken.OvertakenRun` | host/dsig/vllp.c:1046-1062 | from the handshake: a run of thirty steps after which an acceptance finds a message queued for its channel's reader, and throws it away |
| `VllpHost.Vllp.Send` | host/dsig/vllp.c:572-583 | queues the message; an idle channel becomes active |
| `VllpHost.Vllp.Fragment` | host/dsig/vllp.c:501-542 | seals and cuts everything queued on a channel, advancing its initial value |
| `VllpHost.Vllp.SendPacket` | host/dsig/vllp.c:474-498 | puts the outstanding packet on the wire with the current header |
| `VllpHost.Vllp.FindReady` | host/dsig/vllp.c:776-868 | finds the first channel that may send, having fragmented those before it |
| `VllpHost.Vllp.Transmits` | host/dsig/vllp.c:776-879 | retransmits, starts the next fragment, or acknowledges, as the endpoint model's transmission |
| `VllpHost.Vllp.Create` | host/dsig/vllp.c:1365-1406 | takes the lowest free identifier, or none |
| `VllpHost.Vllp.OpenWaiting` | host/dsig/vllp.c:761-773 | announces every waiting channel in order, each with the next initial value |
| `VllpHost.Vllp.HandleOpen` | host/dsig/vllp.c:976-1020 | counts the open, adds the channel if accepted, and queues the answer |
| `VllpHost.Vllp.HandleOpenResponse` | host/dsig/vllp.c:1022-1081 | makes the channel usable, or forgets it |
| `VllpHost.Vllp.ControlRx` | host/dsig/vllp.c:1131-1172 | dispatches a control message, errors included |
| `VllpHost.Vllp.ChannelReceive` | host/dsig/vllp.c:600-650 | absorbs a fragment; the last one is checked and queued |
| `VllpHost.Vllp.AcceptSyn` | host/dsig/vllp.c:415-452 | enters the session asked for, or refuses |
| `VllpHost.Vllp.HandleRx` | host/dsig/vllp.c:653-740 | handles any packet as the endpoint model, errors included |
| `EventLog.RoomMade` | src/kernel/eventlog.c:98-104 | room can always be made for what fits the log, and only records and followers' places change |
| `EventLog.LeLength` | src/kernel/eventlog.c:133-139 | a delta needs at most k bytes if and only if it is below 256 to the k |
| `EventLogRing.SlotShort` | src/kernel/eventlog.c:50-61 | sixteen-bit wrap-around of head and tail does not disturb the slots of a power-of-two ring |
| `EventLogRing.ShortApart` | src/kernel/eventlog.c:50-61 | two wrapped pointers of one ring are equal only if the positions are |
| `EventLogFifo.Fifo.ReadDelta` | src/kernel/eventlog.c:64-76 | reads back the delta of any live record, across the ring's end |
| `EventLogFifo.Fifo.EraseTail` | src/kernel/eventlog.c:79-95 | removes the oldest record, moves the tail's time on by its delta and followers at the tail past it, counting a drop |
| `EventLogFifo.Fifo.Ensure` | src/kernel/eventlog.c:98-104 | evicts oldest records until the bytes fit |
| `EventLogFifo.Fifo.BeginEntry` | src/kernel/eventlog.c:218-237 | starts a record after the last, evicting for its header |
| `EventLogFifo.Fifo.WriteText` | src/kernel/eventlog.c:107-124 | appends to the record being written what its length byte allows |
| `EventLogFifo.Fifo.DoneEntry` | src/kernel/eventlog.c:126-159 | the ring then holds the records it held, less those evicted, and the new one with its delta |
| `EventLogFifo.Fifo.Register` | src/kernel/eventlog.c:711-720 | a new follower starts at the tail |
| `EventLogFifo.Fifo.Unregister` | src/kernel/eventlog.c:722-730 | exactly that follower goes |
| `EventLogFifo.Fifo.ReadRecord` | src/kernel/eventlog.c:307-379 | copies out the follower's next record, whole, around the end of the ring |
| `EventLogFifo.Fifo.PullRecord` | src/kernel/eventlog.c:434-504 | the follower's next record as a message to its host; nothing moves when no buffer can be had |
| `EventLogRuns.StepKeeps` | src/kernel/eventlog.c:79-159 | records, followers and counts stay accounted for through every commit, eviction, take, attach and detach |
| `EventLogRuns.FollowersAccounted` | src/kernel/eventlog.c:79-95 | in every run, for every follower: taken, dropped and pending make up its backlog and the commits since; what it took is in commit order; it stands at a live record or at the head |
| `EventLogRuns.LogHoldsLastCommits` | src/kernel/eventlog.c:98-159 | in every run the records are the last commits, and fit the ring with the record being written |
| `EventLogRuns.FinishTimesIff` | src/kernel/eventlog.c:126-151 | a commit keeps the log's times right if and only if the clock reading it is given is not behind the last and the delta fits seven bytes |
| `EventLogRuns.PullTimeExact` | src/kernel/eventlog.c:434-504 | the service's running time for the record at hand is the commit's time |
| `EventLogRuns.PulledExactly` | src/kernel/eventlog.c:434-504 | in every run under such a clock, whatever was dropped: tail time plus deltas is head time, each pulled record has its commit's time, and the host hears its level, message and commit index plus one |
| `EventLogRuns.ClockBackExample` | src/kernel/eventlog.c:126-151 | a run of two commits, the second with an earlier clock, leaves tail time and deltas leading past the head's time |
| `EventLogWire.FrameRoundTrip` | host/dsig/vllp_logstream.c:20-60 | the host reads back level, message and sequence number of every frame |
| `EventLogWire.AgeExactIff` | host/dsig/vllp_logstream.c:20-60 | the age arrives exactly if and only if it is below 2^31 milliseconds |
| `EventLogWire.LogStream.Receive` | host/dsig/vllp_logstream.c:20-60 | the decoding loop as the host model, updating the kept sequence number |
| `WaitLists.InsertSorted` | include/sys/queue.h:500-516 | sorted insertion keeps the order and is stable: of equal keys the newcomer is last |
| `WaitLists.InsertInOrder` | include/sys/queue.h:500-516 | the search loop inserts at that place |
| `SchedulerRuns.StepKeeps` | src/kernel/task.c:117-610 | every step (create, run, wake, sleep, time out, switch, exit, join, release) keeps queues, bitmap, wait lists and states consistent |
| `SchedulerRuns.StructureHolds` | src/kernel/task.c:117-135 | in every run: a bitmap bit is set exactly for a non-empty queue, a task is ready exactly when on the queue of its priority, once, and nothing is ever queued twice |
| `SchedulerRuns.PreemptionPending` | src/kernel/task.c:117-135 | in every run: a ready task outranking the current thread has a reschedule pending |
| `SchedulerRuns.SwitchOrders` | src/kernel/task.c:138-222 | a switch ends on a running thread at least as high as everything ready |
| `SchedulerOrder.StepFifo` | src/kernel/task.c:117-222 | every step but a switch only adds behind a ready queue, and a switch takes at most its head |
| `SchedulerOrder.DispatchedInTurn` | src/kernel/task.c:138-222 | in every run, of two tasks queued at one priority the one in front is dispatched first |
| `SchedulerRuns.WakesHighest` | src/kernel/task.c:448-487 | a single wakeup picks a waiter of the highest priority on the list |
| `SchedulerOrder.StepOrder` | src/kernel/task.c:448-610 | through every step, two waiters that stay on a list keep their order |
| `SchedulerOrder.WakesLongestWaiting` | src/kernel/task.c:448-512 | in every run, the thread a single wakeup picks has the highest priority, and has waited at least as long as any other of its priority |
| `SchedulerRuns.SleepsInTurn` | src/kernel/task.c:498-512 | a thread going to sleep is put behind all its equals and betters and before all others |
| `SchedulerDetached.DetachedEndsIff` | src/kernel/task.c:245-300 | an exiting detached thread ends if and only if nobody else holds a reference |
| `SchedulerDetached.HeldDetachedDoubles` | src/kernel/task.c:257-300 | a detached thread that exits held once more runs on; after the next switch, giving up that reference queues it a second time if and only if another thread is running by then |
| `SchedulerDetached.DoublesRun` | src/kernel/task.c:257-300 | a run of seven steps from start-up that comes to it |
| `SchedulerDetached.SoundKeeps` | src/kernel/task.c:117-610 | whatever the users do, bitmap and queues agree and all that is queued or waits is known, so that every run can go on |
| `SchedulerCpu.Cpu.ReadyQueueInsert` | src/kernel/task.c:117-135 | appends to the queue of its priority, sets the bit, and makes the task ready |
| `SchedulerCpu.Cpu.Wakeup` | src/kernel/task.c:448-487 | wakes the first or all on a list |
| `SchedulerCpu.Cpu.Sleep` | src/kernel/task.c:585-610 | puts the current thread on the list in its turn |
| `SchedulerCpu.Cpu.SleepTimeout` | src/kernel/task.c:522-542 | takes a sleeper off its list and readies it, or leaves one already awake alone |
| `SchedulerCpu.Cpu.SwitchOnce` | src/kernel/task.c:138-222 | takes the first of the highest queue |
| `SchedulerCpu.Cpu.RunTask` | src/kernel/task.c:225-234 | queues a lightweight task unless it is queued already |
| `SchedulerCpu.Cpu.CreateThread` | src/kernel/task.c:342-422 | a new thread is ready on its queue |
| `SchedulerCpu.Cpu.ReleaseThread` | src/kernel/task.c:257-271 | the last reference to a thread queues its freeing |
| `SchedulerCpu.Cpu.ExitThread` | src/kernel/task.c:273-300 | the thread becomes a zombie and its joiners wake, or it releases itself |
| `Mutex.MutualExclusion` | include/mios/task.h:412-490 | in every run with any interleaving and preemption at most one thread holds a mutex, and the lock bit is set exactly while one does |
| `Mutex.NoWaiterStranded` | src/kernel/task.c:713-796 | in every run, when a mutex is free while threads wait, some thread in its slow path is running or ready |
| `Mutex.WordSays` | include/mios/task.h:412-490 | the word compared by the fast paths is 0 or 1 exactly when the mutex is free or held with nobody waiting |
| `Mutex.SignalFindsWaiter` | src/kernel/task.c:822-830 | from the moment the wait lets the mutex go, over any run in which nobody signals and its time is not up, the thread is on the condition's list; a broadcast then wakes it, and a signal the list's first, which it does not outrank |
| `Mutex.WaitLasts` | src/kernel/task.c:808-842 | over any run without a signal or its time-out, a waiter stays on the condition's list |
| `MutexCpu.Locks.LockOnce` | src/kernel/task.c:713-751 | one test of the locking loop: takes a free mutex, else waits in line |
| `MutexCpu.Locks.TryLockSlow` | src/kernel/task.c:765-775 | takes the mutex if it is free, and says so |
| `MutexCpu.Locks.UnlockSchedLocked` | src/kernel/task.c:779-796 | frees the mutex and wakes the first waiter |
| `Timers.ArmValid` | src/kernel/timer.c:10-18 | arming, or arming again, leaves a sorted list with the timer on it once at its new expiry, all others as they were |
| `Timers.DispatchInOrder` | src/kernel/timer.c:32-46 | dispatch fires in order of expiry, none early, and leaves none due, with callbacks that arm only for later |
| `Timers.DispatchFiresDue` | src/kernel/timer.c:32-46 | every timer due at the start fires unless a callback arms it anew |
| `Timers.SweepIsDispatch` | src/kernel/timer.c:32-46 | a tick over the sleepers' timers, whose callbacks arm nothing, is that dispatch |
| `Timers.ReturnedIsOff` | src/kernel/task.c:522-686 | over every run of sleeps, those on a list not with deadline zero: the list is sorted and holds each armed timer once, and never the stack timer of a thread that is not in a sleep, whichever of wakeup and timeout came first |
| `Timers.ReturnCleanIff` | src/kernel/task.c:545-582 | a timed sleep returns with its stack timer off the list if and only if the expiry is not zero while it is on it |
| `Timers.WokenCleanIff` | src/kernel/task.c:545-582 | a thread that sleeps on a list and is woken before the next tick leaves its timer behind if and only if its deadline is zero |
| `Timers.TimerQueue.ArmOnQueue` | src/kernel/timer.c:10-18 | the list operation above, in place |
| `Timers.TimerQueue.DisarmTimer` | src/kernel/timer.c:21-29 | takes an armed timer off and says whether it was armed |
| `Timers.TimerQueue.DispatchTimers` | src/kernel/timer.c:32-46 | the loop fires exactly the dispatch sequence |
| `Pbuf.DropIsSuffix` | src/net/pbuf.c:298-337 | dropping n bytes leaves the payload from n on as a packet and returns the emptied items |
| `Pbuf.ReadSplits` | src/net/pbuf.c:207-235 | reading n bytes gives the first n and leaves the rest |
| `Pbuf.ReadStartIff` | src/net/pbuf.c:207-235 | after a read the head keeps its start mark if and only if the read stayed inside the first buffer |
| `Pbuf.TrimIsPrefix` | src/net/pbuf.c:340-366 | trimming n bytes leaves the payload without its last n |
| `Pbuf.TrimOnceIs` | src/net/pbuf.c:340-366 | each turn takes as many bytes off the end as off the count |
| `Pbuf.TrimEndsIff` | src/net/pbuf.c:340-366 | the trimming loop ends if and only if the packet holds as many bytes |
| `Pbuf.TrimSpins` | src/net/pbuf.c:340-366 | asked for more, it comes to a lone empty buffer with the excess to go, and stays there |
| `Pbuf.PrependAdds` | src/net/pbuf.c:370-392 | n bytes before the payload, or the packet is freed when a buffer is needed and there is none |
| `Pbuf.PullupGathers` | src/net/pbuf.c:419-458 | the first n bytes, or all there are, are in the first buffer, the payload is unchanged, and exactly the missing count is reported |
| `Pbuf.CopyIsSame` | src/net/pbuf.c:597-637 | a copy is made if and only if both pools have items for it and one to spare; it holds the same packet and payload in items of its own, and without it nothing was taken |
| `Pbuf.SpliceTakesPacket` | src/net/pbuf.c:178-198 | what is spliced off is one whole packet if and only if the queue holds a packet's end |
| `Pbuf.FreeConserves` | src/net/pbuf.c:167-176 | freeing returns exactly the chain's items to the pools |
| `PbufPools.Net.FreeChain` | src/net/pbuf.c:167-176 | each item of the chain goes back once |
| `PbufPools.Net.Make` | src/net/pbuf.c:539-558 | takes one item of each pool, or neither |
| `PbufPools.Net.DropBytes` | src/net/pbuf.c:298-337 | the loop drops as the list operation and returns items to the pools |
| `PbufPools.Net.ReadBytes` | src/net/pbuf.c:207-235 | the loop reads as the list operation |
| `PbufPools.Net.TrimBytes` | src/net/pbuf.c:340-366 | any number of turns of the loop, for any count, is that many turns of the list operation |
| `PbufPools.Net.PullupBytes` | src/net/pbuf.c:419-458 | the loop pulls up as the list operation |
| `PbufPools.Net.CopyPacket` | src/net/pbuf.c:597-637 | the loop copies, and gives everything back when an allocation fails |
| `Hdlc.MessagesComeBack` | host/mcp/mcp_transport.c:180-226 | for every list of messages of 1 to 256 bytes and every cutting into reads: the messages come out in order, all of them in the end, and the resynchronising branch is never taken |
| `Hdlc.TurnProgresses` | host/mcp/mcp_transport.c:314-349 | a turn delivers a whole frame or takes at least one byte: the receiver cannot stall |
| `Hdlc.UnescapeEscape` | host/mcp/mcp_transport.c:141-226 | unescaping undoes escaping (section 4.2 of RFC 1662) |
| `Hdlc.SendMessage` | host/mcp/mcp_transport.c:141-176 | the framing loop gives the escaped message with its CRC between flags |
| `Hdlc.SerialPort.DeframeNext` | host/mcp/mcp_transport.c:180-226 | takes the next frame off the buffer, in place, as the deframing function |
| `Slip.RoundTrip` | host/flash/flash_nrfdfu.c:213-271 | reading undoes writing for every frame that is not empty and fits, whatever precedes and follows it (RFC 1055) |
| `Slip.WriteIs` | host/flash/flash_nrfdfu.c:213-234 | what is written, and that a frame is accepted if and only if it fits the buffer or misses by one byte with a last byte that is escaped |
| `Slip.AcceptedFitsIff` | host/flash/flash_nrfdfu.c:213-234 | what is accepted fits the buffer if and only if the data is not one of the latter |
| `Slip.OverflowExample` | host/flash/flash_nrfdfu.c:213-234 | 512 end marks are accepted and make 1025 bytes |
| `Slip.WriteFrame` | host/flash/flash_nrfdfu.c:213-234 | the loop writes that frame |
| `Slip.ReadFrame` | host/flash/flash_nrfdfu.c:237-271 | the loop reads as the frame function |
| `SpiFlash.CommandAddress` | src/drivers/spiflash.c:137-148 | the part reads back every 32-bit address from the command |
| `SpiFlash.OnesClearNothing` | src/drivers/spiflash.c:203-210 | skipping data of all ones is sound |
| `SpiFlash.WriteIsAnd` | src/drivers/spiflash.c:212-254 | a write of any offset and length, whatever fails on the bus or in time, combines exactly the data it got through into exactly its range, all of it on success |
| `SpiFlash.NoCrossing` | src/drivers/spiflash.c:212-254 | no program command put on the bus crosses a 256-byte page or leaves the range |
| `SpiFlash.EraseTiles` | src/drivers/spiflash.c:150-200 | a successful erase issues aligned commands that tile exactly the requested blocks, each once; one that fails, on the bus, in time or for want of a command, a leading part |
| `SpiFlash.TilesBlank` | src/drivers/spiflash.c:150-200 | commands that tile a range, each at a multiple of its size, blank exactly those bytes of a part that blanks the aligned region holding the address |
| `SpiFlash.EraseBlanks` | src/drivers/spiflash.c:150-200 | an erase blanks exactly the blocks asked for when it succeeds, a leading part of them when it fails |
| `SpiFlash.BlockEraseSucceeds` | src/drivers/spiflash.c:150-200 | with a command of one block's size for every needed address form no erase is refused, and it succeeds when every command gets through |
| `SpiFlash.Flash.WaitReady` | src/drivers/spiflash.c:75-126 | gives up after 500 busy polls, or 200 when asleep |
| `SpiFlash.Flash.WriteBytes` | src/drivers/spiflash.c:212-254 | the loop writes as specified |
| `SpiFlash.Flash.EraseBlocks` | src/drivers/spiflash.c:150-200 | the loop terminates and erases as specified |
| `NicTx.NeverHalfAPacket` | src/drivers/rtl8168.c:104-178 | with the NIC stepping between any two driver writes and going round only at the end-of-ring mark: it is where it should be, and if it owns the descriptor there it owns all up to the packet's end, in place |
| `NicTx.SentThenFreedOnce` | src/drivers/rtl8168.c:329-351 | the NIC sends exactly the fragments handed over, in order, and each data buffer is freed once, after it was sent |
| `NicTx.NoOverwrite` | src/drivers/rtl8168.c:104-178 | no driver write touches an unreclaimed slot |
| `NicTx.RefusedIff` | src/drivers/rtl8168.c:104-130 | a packet is refused, the rings unchanged, if and only if its fragments would not leave a slot free |
| `NicTx.Driver.Output` | src/drivers/rtl8168.c:104-178 | fills the ring in the order of writes the state machine takes |
| `NicTx.Driver.HandleTx` | src/drivers/rtl8168.c:329-351 | reclaims up to the NIC's place |
| `NicRx.DescriptorsOwnOneBuffer` | src/drivers/rtl8168.c:249-327 | in every run every RX descriptor owns exactly one buffer, none shared, free or queued, and no item of either pool is lost |
| `NicRx.QueuedIsReceived` | src/drivers/rtl8168.c:249-327 | queued packets are the good frames received, in order, with their bytes |
| `NicRx.Receiver.HandleRx` | src/drivers/rtl8168.c:249-327 | the loop takes exactly the receiver's turns |
| `DapWire.HearAll` | host/jlink/dap.c:210-249 | a target that checks headers, parities and turnarounds hears in any queued batch exactly the requests queued |
| `DapWire.DriveAll` | host/jlink/dap.c:148-208 | a batch gets its answers, each at the offset its transfer recorded |
| `Dap.GoodBatches` | host/jlink/dap.c:148-208 | however transfers were cut into batches, success means all were done, in order |
| `Dap.HalfOfKilobyte` | host/jlink/dap.c:472-474 | inside a chunk the auto-increment never meets the 1 kB boundary |
| `Dap.ReadDone` | host/jlink/dap.c:537-550 | a chunk's one-behind reads and the final buffer read give the memory's words |
| `Dap.ReadBlockExact` | host/jlink/dap.c:520-565 | for every address, length, cutting into batches and pattern of WAIT, FAULT and parity failures: success means the output is the target's memory, also across the end of the address space |
| `Dap.WriteChunkExact` | host/jlink/dap.c:491-515 | whatever fails and is retried, cells outside the chunk keep their values, and success means the chunk holds the data |
| `DapQueue.Queue.QBits` | host/jlink/dap.c:133-138 | appends the low bits of a value; the buffer is never overrun |
| `DapQueue.Queue.FlushQueue` | host/jlink/dap.c:148-208 | clocks the batch, and decodes answers exactly as the target gave them, up to the first failure, which forgets the cached select |
| `DapQueue.Queue.QXfer` | host/jlink/dap.c:210-249 | queues a transfer's bits, flushing first when either buffer is full: neither overflows, and nothing is lost or reordered |
| `DapQueue.Queue.QSelect` | host/jlink/dap.c:252-271 | the access port is or will be selected, or the attempt failed |
| `DapQueue.Queue.ClearErrors` | host/jlink/dap.c:274-281 | empties the queue and leaves memory alone |
| `DapQueue.Queue.ReadBlock` | host/jlink/dap.c:520-565 | down to the bits on the wire: a block read that succeeds is the target's memory, addresses wrapping at 32 bits |
| `DapQueue.Queue.WriteBlock` | host/jlink/dap.c:476-518 | success means memory holds the block, addresses wrapping at 32 bits; no other cell changes either way |
| `JsonRoundTrip.RoundTrip` | host/mcp/cJSON.c:1325-1843 | for every tree of null, booleans, 32-bit integers, NUL-free strings, arrays and objects, compact or formatted: parsing the printed text gives the tree back if and only if it is nested at most 1000 deep |
| `JsonRoundTrip.ParseText` | host/mcp/cJSON.c:1325-1729 | the same at any place in any buffer and at any depth, with the place behind the value |
| `JsonRoundTrip.DecodeEscaped` | host/mcp/cJSON.c:781-1030 | decoding undoes escaping for any bytes (section 7 of RFC 8259) |
| `JsonRoundTrip.DecimalBack` | host/mcp/cJSON.c:553-620 | the decimal text of a 32-bit integer is a number of that value |
| `JsonStrings.CountIsWritten` | host/mcp/cJSON.c:935-1030 | the escape-counting pass equals exactly what the writing pass emits |
| `JsonStrings.Utf8IsUtf8` | host/mcp/cJSON.c:724-778 | the bytes written for a code point are its UTF-8 by section 3 of RFC 3629 if and only if it is a scalar value |
| `JsonStrings.LiteralBack` | host/mcp/cJSON.c:660-722 | every scalar value, escaped alone or as a surrogate pair, is read back as that value |
| `JsonStrings.OutputFits` | host/mcp/cJSON.c:794-825 | decoding puts out no more than the first pass set aside, also where the two passes pair escapes differently |
| `JsonParser.EncodeUtf8` | host/mcp/cJSON.c:724-778 | the loop that fills the bytes from the last |
| `JsonParser.Parser.SkipWhitespace` | host/mcp/cJSON.c:1047-1070 | moves to the next solid byte, never off the end |
| `JsonParser.Parser.ParseHex4` | host/mcp/cJSON.c:623-656 | four hexadecimal digits, or zero |
| `JsonParser.Parser.Literal` | host/mcp/cJSON.c:660-778 | one literal decoded into the output, or none |
| `JsonParser.Parser.Unescape` | host/mcp/cJSON.c:825-880 | the decoding loop stays inside its output buffer and gives the decoded text |
| `JsonParser.Parser.String` | host/mcp/cJSON.c:781-908 | both passes, errors included |
| `JsonParser.Parser.Number` | host/mcp/cJSON.c:307-381 | the number `strtod` takes from at most 63 bytes |
| `JsonParser.Parser.Value` | host/mcp/cJSON.c:1325-1377 | parses as the parsing function, errors and depth included |
| `JsonParser.Parser.Array` | host/mcp/cJSON.c:1454-1549 | the item loop |
| `JsonParser.Parser.Object` | host/mcp/cJSON.c:1614-1729 | the member loop |
| `JsonParser.Parser.Document` | host/mcp/cJSON.c:1104-1181 | byte order mark and leading white space skipped |
| `JsonPrinter.TextSolid` | host/mcp/cJSON.c:533-543 | printed text holds no zero byte, so the length found after printing is its end |
| `JsonPrinter.Printer.Ensure` | host/mcp/cJSON.c:447-530 | room behind the offset with the text before it kept, or a failure only when the allocator or INT_MAX does not allow twice that |
| `JsonPrinter.Printer.UpdateOffset` | host/mcp/cJSON.c:533-543 | moves the offset to the end of the text |
| `JsonPrinter.Printer.PrintString` | host/mcp/cJSON.c:911-1030 | the quoted text, inside the space counted |
| `JsonPrinter.Printer.PrintValue` | host/mcp/cJSON.c:1380-1451 | the value's text behind what was there, whatever fresh memory holds; a failure only for want of memory |
| `JsonPrinter.Printer.PrintArray` | host/mcp/cJSON.c:1552-1611 | the array's text, item by item |
| `JsonPrinter.Printer.PrintObject` | host/mcp/cJSON.c:1732-1843 | the object's text, member by member |
| `JsonPrinter.Printer.Print` | host/mcp/cJSON.c:1196-1261 | the text, and that the parser returns the tree from it if and only if the nesting allows |

## Left out

- VLLP disconnection, reconnection and closing of channels: a session is followed until it breaks.
- VLLP clocks: that a retransmission or an acknowledgement is due is an argument of the transmitting step.
- VllpTheorems.EndToEnd: for CAN-FD links the stored MTU is at most 63, the largest that `VllpFrames.PadRoundTrip` allows for every packet.
- VllpProgress.RoundTripClears: progress is shown for one round trip that arrives, not as a property of infinite runs.
- The wire is FIFO; corrupted packets are taken to be discarded by the link's checksum.
- Event log formatting, log files, timestamps as text: printing only. Ring positions are reduced with a remainder where the code masks by a power of two.
- Scheduler: interrupts, FPU state, accounting, poll and tasks waiting on several lists; the ready bitmap is a set of bit positions.
- Mutex.MutualExclusion: a thread locking a mutex it holds already is not among the steps.
- Mutex.NoWaiterStranded: says that a thread able to take the mutex can run, not that it is scheduled within a bound.
- Timers.DispatchInOrder: callbacks arm timers only for later than now, as the code needs to leave its loop; what else callbacks do is not modelled.
- Packet buffers: allocation that waits, and bytes of data items outside the payload.
- PbufPools.Net.TrimBytes: followed for a given number of turns, since the loop need not end; `Pbuf.TurnsEnd` says how many are enough.
- SPI flash: delays and power-down timing; a command that fails on the bus is taken not to have reached the part.
- RTL8168: link changes, register set-up and statistics; descriptors are values and the memory order is the order of writes; on the receive ring the NIC's place is a count.
- SWD: hard USB errors, which end a run; the status read that ends a block transfer and can only turn success into failure; blocks are counted in words.
- JSON: floating-point numbers (a number that is not a 32-bit integer is kept as its text and not printed), raw items, references, minifying and tree editing; allocation failures while parsing.
- Hdlc.SerialPort.DeframeNext: time-outs and the serial device; reads are arguments.
- SHA-256, protobuf, USB and serial set-up, ELF and DFU handling, shells, sensor and display drivers: straight-line code or I/O.
