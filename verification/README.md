# PipeRT: the deadline scheduler, the packet pool and the profile packets, verified

PipeRT moves packets through channels. Worker threads always execute the packet with the earliest
timestamp, channels that share a monitor object ("state") never run two callbacks at once, and a
full channel drops its oldest packet to make room. The profiler prints what happened in the
channels into small network packets, which a Python program reads back.

This project models that in Dafny and proves it:

- **The scheduler.** Three heaps under one lock: packets in a channel, channels in a state, states
  that are ready. The keys of the upper two live one level further down, so every push and pop
  makes them stale, and the code repairs them or skips the repair. `Heaps` proves the heap
  operations under keys that change from outside, `Coherence` that every repair and every skip
  leaves the three levels right, `Workers` that the packet taken is the earliest, `Refinement`
  that the three heaps behave like one bag of packets.
- **All interleavings.** `Runs` is an event machine of producers, pollers and workers, one event
  for each region under a lock. `Safety`, `WorkConserving` and `Reservation` state what holds in
  every state it can reach, `Effects` what each event does and does not do, `Stopping` how Stop comes to an end, `Simulation` that every run is one
  of a machine with nothing but the bag of packets and the set of busy states, and `Draining` that
  workers left alone come to rest.
- **The classes.** `SteadyHeaps` and `SchedulerObjects` update their fields in place as the
  original does, and each method is proved equal to the function the theorems are about.
- **The profiler.** `ByteOrder`, `Wire`, `Buffers`, `Aggregates`, `Senders` and `Profiles` say on
  values what is printed; `LogAggregates`, `SenderLoggers`, `ProfileDatas` and `ProfilerImpls` are
  the classes that write it into a byte array; `Decoder` reads it back; `Profiling` interleaves logging threads with
  the serializing thread, and `ProfilingEffects` says what each of their steps leaves.

How the model looks at the code:

- Channels are numbered in the order of their registration, monitor objects are integers with 0 for
  `nullptr`, packet slots are numbered within their channel's pool. Packets are values of a slot and
  a timestamp, so two packets in one queue never look alike.
- The keys a heap is compared with are passed as a map. A key that is not in the map stands for a
  comparison the code must not make (`PeekNext` of an empty channel, `StateOrdering` of an empty
  state); that these never happen is part of every precondition that says `Comparable` or
  `Removable`.
- `std::push_heap` and `std::pop_heap` are written out as sift loops. The popped element is not
  compared with anything; on equal keys a heap may choose either order, and no statement depends
  on the choice.
- Time is an integer that never decreases; a pushed timestamp is at most the current time, as
  `ChannelImpl::Push` asserts, and the current time stays below `Timer::kMaxTime`.
- Byte strings are sequences of numbers below 256, names have no NUL byte, doubles are real numbers
  with a bit pattern (`Doubles.word`) that is printed and read back unchanged.

Where the code and what is said about it disagree, the model follows the code:

- `include/pipert/Scheduler.h:124-128` promises full parallelism to channels without a monitor
  object, and `src/SchedulerImpl.cpp:230-233` does without a notification. A worker can stay blocked
  beside work that nobody is about to take exactly if there are two workers and room for two packets
  in scheduled channels without a monitor object, in one or in several (`WorkersMaySleepIff`): the
  push of a second packet that is not earlier than the first notifies nobody. `StepConservesIff`
  says exactly which step breaks it.
- `src/LogAggregate.cpp:31` starts the maximum from `numeric_limits<double>::min()`, the smallest
  positive normal double, so the maximum of values that are all zero or negative is reported wrongly
  (`MaximumIsRightIff`, `NonPositiveValuesMisreported`).
- `src/ProfilerImpl.cpp:18` accepts buffers of 64 bytes, while `src/ProfileData.cpp:43-44` asserts
  128. Without assertions, the calls of a pass come to an end exactly if no event type is registered
  or the group's name, cut to 27 characters, leaves 69 bytes of the buffer (`PassEndsIff`). So 96
  bytes are always enough, and 68 never if anything is registered (`SmallBufferStalls`).
- The decoder reads a sender from every packet (`log_analyzer/src/packet_decoder.py:26`), but only
  the first packet of a pass has one (`ContinuationHasNoSender`, `SenderDecodedIff`).
- `src/SenderLogger.h:56-59` calls the sender returned the most frequent one and announces that only
  some senders are kept. It is the most frequent of the first four different ones;
  `TopSenderOfAllIff` says when that is the most frequent of all, and `FifthSenderMissed` shows when
  it is not.

To check the project: `dafny verify dfyconfig.toml`.

## Model

| member | source | states |
|---|---|---|
| Heaps.Push | src/SteadyHeap.h:65-68 | The result holds exactly the old elements and the new one, and nothing without a key was compared |
| Heaps.Pop | src/SteadyHeap.h:71-74 | Exactly the front is gone; the front itself needs no key, as the popped element is never compared |
| Heaps.ForceToTop | src/SteadyHeap.h:89-100 | The value stands at the root and no element is lost or doubled |
| Heaps.ForcePop | src/SteadyHeap.h:80-83 | Exactly one occurrence of the value is gone, and only the others need keys |
| Heaps.PushOrders | src/SteadyHeap.h:65-68 | Pushing onto a heap gives a heap |
| Heaps.PopOrders | src/SteadyHeap.h:71-74 | Popping gives a heap even if the root is no minimum, as long as everything else is in order |
| Heaps.SiftUpOrders | src/SteadyHeap.h:65-68 | One element too early for its place, sifted up, restores the heap |
| Heaps.SinkOrders | src/SteadyHeap.h:71-74 | One element out of order at any place, sunk to a leaf and sifted up, restores the heap |
| Heaps.ForceToTopOrdersRest | src/SteadyHeap.h:89-100 | Forcing an element of any key to the root keeps all the others in order around it |
| Heaps.ForcePopOrders | src/SteadyHeap.h:80-100 | If the array was a heap under old keys and only this value's key has changed or vanished, what is left is a heap under the new keys with exactly the other elements |
| Heaps.ReinsertOrders | src/SchedulerImpl.cpp:141-142 | Taking an element out under its stale key and pushing it again gives a heap under the new keys |
| Heaps.FrontIsEarliest | src/SteadyHeap.h:57 | The front of a heap has a key no later than any element |
| Heaps.FrontAfterReinsert | src/SchedulerImpl.cpp:141-143 | After another element was put back under a new key, the front's key is the earlier of that key and the old front's |
| SteadyHeaps.SteadyHeap.PushHeap | src/SteadyHeap.h:65-68 | The array after the sift loop is the one the theorems are about |
| SteadyHeaps.SteadyHeap.PopHeap | src/SteadyHeap.h:71-74 | The same for pop_heap, for a root that need not be the top |
| SteadyHeaps.SteadyHeap.ForceToTop | src/SteadyHeap.h:89-100 | The same for the loop that swaps the value up to the root |
| SteadyHeaps.SteadyHeap.ForcePopHeap | src/SteadyHeap.h:80-83 | The same for force_pop_heap |
| Scheduling.ChannelsDefined | src/SchedulerImpl.cpp:115-173 | When a channel's queue has just changed, every comparison of its state's heap that follows has both keys: a channel that has become empty is never compared |
| Scheduling.StatesDefined | src/SchedulerImpl.cpp:123-186 | The same for the heap of states: a state without packets is never compared, and it is in the heap if and only if it is enabled and had packets |
| Scheduling.JobsUpdated | src/SchedulerImpl.cpp:133-151 | No queue, no channel and no flag changes, and a removal notifies nobody |
| Coherence.SkipIsSafe | src/SchedulerImpl.cpp:123-161 | Leaving the heap of states alone is right if the state's key is unchanged, or the state is disabled |
| Coherence.ReinsertIsRight | src/SchedulerImpl.cpp:144-146 | Taking the state out under its stale key and pushing it back restores all three levels |
| Coherence.RemovalIsRight | src/SchedulerImpl.cpp:161-166 | Taking out the state that has no packets left restores all three levels |
| Coherence.InsertIsRight | src/SchedulerImpl.cpp:123-128 | Pushing a state that was not ready restores all three levels |
| Coherence.JobsArrivedRestores | src/SchedulerImpl.cpp:115-131 | Whatever branch JobsArrived takes, the three levels list the right elements once and are ordered under the current keys |
| Coherence.JobsUpdatedRestores | src/SchedulerImpl.cpp:133-151 | The same for JobsUpdated, after a push or a pop |
| Coherence.JobsDroppedRestores | src/SchedulerImpl.cpp:153-168 | The same for JobsDropped, after the last packet has gone |
| Channels.PushPacketCoherent | src/ChannelImpl.cpp:74-83 | A push keeps the three levels right and changes one queue, by that packet |
| Channels.PopNextCoherent | src/ChannelImpl.cpp:111-131 | A pop keeps the three levels right, returns the front and changes one queue |
| Channels.QueueChangedQuietly | src/ChannelImpl.cpp:78-121 | Without a call to the scheduler the levels stay right when the channel's earliest timestamp is unchanged |
| Channels.Enqueue | src/ChannelImpl.cpp:77 | The queue gains exactly the packet, stays a heap, and its first timestamp is the earlier of the two |
| Channels.Dequeue | src/ChannelImpl.cpp:115-116 | The queue loses exactly its front, which was no later than any other, and stays a heap |
| Workers.EarliestFirst | src/SchedulerImpl.cpp:200-214 | If any packet of a scheduled channel of an enabled state is queued, a worker finds something to take, and takes nothing later than that packet |
| Workers.TakeEffect | src/SchedulerImpl.cpp:200-216 | A take keeps the levels right, removes one packet of an enabled state and disables exactly that state, unless it is the null state |
| Workers.FinishEffect | src/SchedulerImpl.cpp:222-234 | A finish keeps the levels right, moves no packet and enables exactly that state |
| Workers.ReadyIffEligible | src/SchedulerImpl.cpp:196-200 | A worker waits exactly when no packet of an enabled state is queued |
| Workers.PushNotifiesIff | src/SchedulerImpl.cpp:115-151 | A push notifies a worker exactly when the state is enabled and the packet is earlier than everything queued for the state |
| Refinement.TakeRefines | src/SchedulerImpl.cpp:200-214 | Seen as a bag of (channel, packet) pairs and a set of busy states, a take removes one minimal pair that may be taken and makes its state busy |
| Refinement.WaitRefines | src/SchedulerImpl.cpp:196-199 | The heap of states is empty exactly when no pair of the bag may be taken |
| Refinement.FinishRefines | src/SchedulerImpl.cpp:222-234 | A finish makes one state no longer busy and changes nothing else |
| Refinement.PushRefines | src/ChannelImpl.cpp:68-84 | A push adds one pair and changes nothing else |
| Refinement.PopRefines | src/ChannelImpl.cpp:86-89 | A drop or poll removes a pair that is minimal in its channel and changes nothing else |
| Refinement.DrainTakesAll | src/SchedulerImpl.cpp:188-238 | One worker without new pushes ends, having taken every packet of a scheduled channel as often as it was queued and no other |
| Refinement.DrainIsSorted | src/SchedulerImpl.cpp:188-238 | The packets one worker takes come in non-decreasing timestamp order |
| Simulation.EventSimulates | src/SchedulerImpl.cpp:71-238 | Each event of any thread is a step of the machine with a bag and a set of busy states, or changes nothing it knows; a worker waits or gives up only when nothing may be taken |
| Simulation.RunSimulates | src/SchedulerImpl.cpp:71-238 | Every run of the scheduler is, event by event, a run of that machine |
| Simulation.RunsFromStartSimulate | src/SchedulerImpl.cpp:32-238 | From the registration of the channels on it is a run of that machine that starts with an empty bag and no busy state |
| Simulation.OneWorkerDrains | src/SchedulerImpl.cpp:188-238 | In any run with one worker and without pushes, drops and polls the tasks taken are the first of those that draining would take, so their packets come in timestamp order; once nothing is ready and no callback runs, they are exactly those that were queued in scheduled channels |
| Draining.StepLowersEffort | src/SchedulerImpl.cpp:188-238 | While running, every step of any worker but a spurious wake-up lowers three times the queued packets plus what is left of the workers' turns |
| Draining.StepsBeforeRest | src/SchedulerImpl.cpp:188-238 | In any run without pushes, pops and Stop, of any number of workers, they make no more steps than that, and one more for each spurious wake-up |
| Draining.SomeoneGoesOn | src/SchedulerImpl.cpp:195-234 | As long as a state is ready or a callback of a monitor object runs, some worker can go on without being woken |
| Draining.WorkersSettle | src/SchedulerImpl.cpp:188-238 | From every running state the workers' own steps, within the bound, lead to a state in which nothing is ready and no such callback runs |
| Draining.OneWorkerFinishes | src/SchedulerImpl.cpp:188-238 | One worker gets there having taken exactly the packets queued in scheduled channels, in timestamp order, within three steps for each queued packet and three more |
| Runs.InitialInv | src/ChannelImpl.cpp:28-40 | A registered system that has not run satisfies the invariant |
| Runs.FreeStackAt | src/ChannelImpl.cpp:31-34 | The free stack of a new pool holds slot 0 on top and the others below it in order |
| Runs.StepKeeps | src/SchedulerImpl.cpp:71-238 | Every event of any producer, poller or worker, and every step of Start and Stop, keeps the invariant: three levels, slots, exclusion, wake-up, packet accounts |
| Runs.RunKeeps | src/SchedulerImpl.cpp:71-238 | So does every run |
| Effects.EventBooks | src/ChannelImpl.cpp:50-131 | Each event books exactly one thing: a task or a poll retrieves the earliest packet of a queue and puts its slot into processing hands, a drop inside Acquire drops it, a push queues the packet that was filled, an acquired slot comes from the top of the free stack and a released one goes there; all other events move no packet and no slot |
| Effects.TaskTaken | src/SchedulerImpl.cpp:200-216 | What a worker takes is the front of the queue of a scheduled channel of an enabled state, no later than any packet of any such channel, and it then executes for that channel's state |
| Effects.EventPlaces | src/SchedulerImpl.cpp:71-238 | Each event moves the workers, the clock and the phase of Start and Stop exactly so far: one worker from one point to another, a push waking one blocked worker if and only if the packet is earlier than everything queued for an enabled state |
| Effects.AccountsOfRun | src/ChannelImpl.cpp:50-131 | Over any run the packets accounted as pushed are exactly those pushed, at most one is dropped for each drop of an Acquire, and at most one retrieved for each task taken or poll |
| Effects.HoldersGoOn | src/ChannelImpl.cpp:50-103 | Whoever holds a slot can always pass it on, and a thread inside Acquire can always go on |
| Effects.OnlyHoldersAct | src/ChannelImpl.cpp:68-103 | Only a slot that was filled is pushed, only one that was processed is released, and a task is taken only if some packet may be |
| Safety.WorkersTakeEarliest | src/SchedulerImpl.cpp:200-214 | In every reachable state, what a worker takes is no later than any packet queued in a scheduled channel of an enabled state |
| Safety.LevelsAgree | src/SchedulerImpl.cpp:115-168 | In every reachable state a channel is in its state's heap once if it has packets and not at all otherwise, and a state is in the ready heap once if it is enabled and has packets and not at all otherwise |
| Safety.OneCallbackPerState | src/SchedulerImpl.cpp:203-234 | At most one worker executes for a monitor object, and the state is disabled exactly while one does |
| Safety.NoLostWakeUp | src/SchedulerImpl.cpp:195-199 | While the scheduler is to keep running and a state is ready, some worker is not blocked |
| Safety.EveryPacketAccounted | src/ChannelImpl.cpp:50-131 | Each packet was pushed as often as it was retrieved, dropped and is queued together |
| Safety.EverySlotAccounted | src/ChannelImpl.cpp:28-39 | Each slot of a pool is in exactly one of the free stack, the queue or some thread's hands |
| Safety.CapacityAssertionsHold | src/ChannelImpl.cpp:75-113 | The capacity assertions of Push, Release and PopNext hold whenever these are reached |
| Safety.DroppedIsMinimal | src/ChannelImpl.cpp:176-185 | Acquire drops one packet, and none in the queue is earlier |
| Safety.StoppedKeepsWork | src/SchedulerImpl.cpp:88-101 | Once the workers have joined, every state is enabled and the ready heap holds exactly the states with queued packets |
| Stopping.OneNotifyAllIsEnough | src/SchedulerImpl.cpp:92-96 | After the one notify_all of Stop no worker is blocked in any later state of any run, until the next Start, because the flag was cleared under the lock |
| Stopping.StopLowersRank | src/SchedulerImpl.cpp:190-238 | From the call of Stop until it returns, every step of a worker brings the workers strictly nearer to having exited, and no other event takes them further away |
| Stopping.StopIsBounded | src/SchedulerImpl.cpp:88-99 | However the threads interleave, the workers make at most four steps each between the call of Stop and the join |
| Stopping.StopGoesOn | src/SchedulerImpl.cpp:88-101 | In every reachable state in between, Stop itself can go on, or after its notify_all a worker that nobody has to wake |
| Stopping.StopReturns | src/SchedulerImpl.cpp:88-101 | From every such state a run leads to the return of Stop, within the bound |
| WorkConserving.StepConservesIff | src/SchedulerImpl.cpp:195-234 | If the awake workers are at least as many as the ready states before a step, or nobody is blocked, they are after it, unless it takes a packet of the null state while two are queued there, a worker is blocked and the two numbers are equal; then they are not |
| WorkConserving.StatelessStaysReady | src/SchedulerImpl.cpp:200-214 | The null state stays ready after one of its packets is taken exactly if two packets are queued in its scheduled channels |
| WorkConserving.OtherwiseWorkConserving | src/SchedulerImpl.cpp:188-238 | With one worker, or at most one slot in stateless scheduled channels, no worker is ever blocked beside a ready state that nobody is about to take |
| WorkConserving.StatefulIsWorkConserving | include/pipert/Scheduler.h:132-145 | In particular if all scheduled channels have monitor objects |
| WorkConserving.StatelessMaySleep | include/pipert/Scheduler.h:124-128 | With two workers and two slots in stateless scheduled channels, in one channel or in two, some run leaves a worker blocked while a packet it may take is queued |
| WorkConserving.WorkersMaySleepIff | include/pipert/Scheduler.h:124-128 | Some run leaves a worker blocked beside work if and only if there are two workers and room for two packets in stateless scheduled channels |
| Reservation.NothingGrows | src/SchedulerImpl.cpp:36-44 | In every reachable state of every registration sequence, channel heaps, the state heap, packet queues and free stacks are within what was reserved for them |
| Reservation.HeapFits | src/SchedulerImpl.cpp:36-44 | A heap that lists channels of one state once each fits what registration reserved for the state |
| Reservation.ReadyFits | src/SchedulerImpl.cpp:42 | A heap that lists registered states once each fits what registration reserved |
| Reservation.ReservedExactly | src/SchedulerImpl.cpp:38-44 | What is reserved for a state is exactly the number of its channels |
| Reservation.StatesReservedExactly | src/SchedulerImpl.cpp:42 | What is reserved for the heap of states is exactly the number of states |
| SchedulerObjects.SchedulerImpl.RegisterChannel | src/SchedulerImpl.cpp:32-50 | The channel is added last, its state appears with an empty heap if it is new, the reservations grow as counted, and with a profiler the channel gets an empty ProfileData of its name that the profiler knows |
| SchedulerObjects.SchedulerImpl.JobsArrived | src/SchedulerImpl.cpp:115-131 | The objects after the method are the state the theorems are about, and the result says whether a worker is notified |
| SchedulerObjects.SchedulerImpl.JobsUpdated | src/SchedulerImpl.cpp:133-151 | The same for JobsUpdated |
| SchedulerObjects.SchedulerImpl.JobsDropped | src/SchedulerImpl.cpp:153-168 | The same for JobsDropped |
| SchedulerObjects.SchedulerImpl.TakeTask | src/SchedulerImpl.cpp:200-216 | The same for the locked region in which a worker takes a task |
| SchedulerObjects.SchedulerImpl.FinishTask | src/SchedulerImpl.cpp:224-234 | The same for the locked region after the callback |
| SchedulerObjects.RegistrationStartsRuns | src/SchedulerImpl.cpp:32-44 | Registering channel after channel builds exactly the state in which runs start |
| SchedulerObjects.ChannelImpl.constructor | src/ChannelImpl.cpp:15-41 | The free stack holds every slot of the pool once, the first on top, and the queue is empty |
| SchedulerObjects.ChannelImpl.Push | src/ChannelImpl.cpp:74-83 | The scheduler's state afterwards is that of a push, on the branches that call it and those that do not |
| SchedulerObjects.ChannelImpl.PopNext | src/ChannelImpl.cpp:111-122 | The same for PopNext, which returns the earliest packet |
| SchedulerObjects.ChannelImpl.GetNext | src/ChannelImpl.cpp:86-89 | The earliest packet, or none exactly if the queue is empty |
| SchedulerObjects.ChannelImpl.Release | src/ChannelImpl.cpp:91-103 | The slot is on top of the free stack; nothing else changes |
| SchedulerObjects.ChannelImpl.TryDroppingPacket | src/ChannelImpl.cpp:176-185 | The slot of the earliest packet, if there is one, goes to the free stack |
| SchedulerObjects.ChannelImpl.Acquire | src/ChannelImpl.cpp:50-66 | Without interference the loop does what Acquired says, in queue, free stack and result |
| SchedulerObjects.AcquireDropsOldest | src/ChannelImpl.cpp:50-66 | Without interference Acquire fails exactly if free stack and queue are both empty, and then changes nothing; with a free slot it takes the one on top off the stack and touches no queue; otherwise it drops one packet, no later than any other, and hands out its slot |
| SchedulerObjects.AcquireKeepsSlots | src/ChannelImpl.cpp:50-66 | The slots left on the free stack and the one handed out are together those that were free, or the slot of the dropped packet if none was |
| SchedulerObjects.GetNextTakesFront | src/ChannelImpl.cpp:86-89 | GetNext returns nothing exactly if nothing is queued; otherwise the front of the queue, no later than any other packet, and only that packet is gone |
| ByteOrder.HostToNetwork | src/Endianness.h:14-25 | For every width and either host layout, the shifting loop leaves the big-endian bytes of the value in memory |
| ByteOrder.NetworkToHost | src/Endianness.h:57-67 | The accumulating loop returns the number whose big-endian bytes lie in memory |
| ByteOrder.ConversionsAreInverse | src/Endianness.h:14-67 | The two conversions undo each other in both orders, on either host and for every width |
| ByteOrder.NumberOfBytes | src/Endianness.h:57-67 | Reading the big-endian bytes of a number gives the number |
| ByteOrder.BytesOfNumber | src/Endianness.h:14-25 | The big-endian bytes of the number that n bytes stand for are these bytes |
| ByteOrder.MemoryLayout | src/Endianness.h:14-25 | Byte i in memory is the digit of weight 256 to the power i on a little-endian host, of n - 1 - i on a big-endian one |
| Wire.Cut | src/ProfileData.cpp:76-78 | The first 27 characters of a name, or all of it if it is shorter |
| Wire.RecordLayout | src/LogAggregate.cpp:35-49 | Count, time, minimum, maximum and average stand at bytes 0, 4, 8, 16 and 24 of the record |
| Wire.NonEmptyCounts | src/ProfileData.cpp:66-69 | Exactly the aggregates with a count of zero are left out, and no other is lost or doubled |
| Wire.PacketFits | src/ProfileData.cpp:43-72 | In a buffer of 64 bytes or more no packet reaches past the end |
| Wire.PassEndsIff | src/ProfileData.cpp:43-72 | For any buffer size and names, repeated calls come to the end of a pass if and only if there is no aggregate or a header without sender leaves 64 bytes |
| Wire.EndsInTime | src/ProfilerImpl.cpp:92-96 | They then need at most as many calls as there are aggregates, and one more if the sender leaves no room in the first |
| Wire.NeverEnds | src/ProfilerImpl.cpp:92-96 | Otherwise no number of calls visits a single aggregate |
| Wire.SmallBufferStalls | src/ProfilerImpl.cpp:18 | In a buffer of fewer than 69 bytes no number of calls visits an aggregate, whatever the names |
| Wire.PassIsTheCalls | src/ProfilerImpl.cpp:92-96 | The packets of a pass are as many as its calls: after so many nothing is left to visit, and not before |
| Wire.PassPrintsAll | src/ProfileData.cpp:51-72 | The packets of a pass together print each aggregate that is not empty exactly once, in order |
| Wire.PassPackets | src/ProfileData.cpp:45-71 | Each packet is the group, the sender if it is the first, and its share of the aggregates, within the buffer |
| Aggregates.CountAndAverage | src/LogAggregate.cpp:12-18 | Count, sum and average are those of the values logged since the last clearing |
| Aggregates.MinimumIsRight | src/LogAggregate.cpp:16 | The minimum is the least value logged |
| Aggregates.MaximumIsRightIff | src/LogAggregate.cpp:17-31 | The maximum is the greatest value logged if and only if some value is at least the smallest positive normal double |
| Aggregates.NonPositiveValuesMisreported | src/LogAggregate.cpp:31 | For values that are all zero or negative the maximum reported is positive, so it is none of them |
| Aggregates.SummaryReports | src/LogAggregate.cpp:35-65 | What is printed are the number, the time, the average and the extremes of the values logged |
| Aggregates.PrintableIff | src/LogAggregate.cpp:51-57 | A state can be printed exactly if its count fits 32 bits and less than the greatest int has passed since the clearing |
| LogAggregates.LogAggregate.Log | src/LogAggregate.cpp:12-18 | The fields are those of one more value |
| LogAggregates.LogAggregate.Serialize | src/LogAggregate.cpp:35-49 | Exactly 32 bytes of the buffer are overwritten, with the record in network byte order; the aggregate is unchanged |
| LogAggregates.LogAggregate.SerializeNClear | src/LogAggregate.cpp:20-25 | The record printed is that of the state found, and the aggregate is empty afterwards |
| Senders.TableIsExact | src/SenderLogger.cpp:17-39 | After any sequence of names the table holds the first four different ones, in order, each with its exact number of occurrences, and nothing else |
| Senders.FirstStay | src/SenderLogger.cpp:26-37 | Whoever is among the first four stays there, in the same place, whatever is tracked afterwards |
| Senders.FewSendersAllTracked | src/SenderLogger.cpp:26-37 | As long as fewer than four different senders are kept, nobody tracked is missing |
| Senders.TopFirst | src/SenderLogger.cpp:69-72 | The sorted table holds the same entries, and none has more packets than the first |
| Senders.TopSender | src/SenderLogger.cpp:17-72 | The top sender has the maximal exact count among the first four different senders, and there is none exactly if nothing was tracked |
| Senders.TopSenderOfAllIff | src/SenderLogger.cpp:69-72 | It is the most frequent of all senders if and only if a most frequent one is among the first four different ones |
| Senders.FifthSenderMissed | src/SenderLogger.h:57-58 | After four different senders with one packet each, a fifth with two is the most frequent of all and not the one printed |
| SenderLoggers.SenderLogger.TrackSender | src/SenderLogger.cpp:17-39 | The search loop updates the table as the theorems assume, and other events change nothing |
| SenderLoggers.SenderLogger.GetTopSender | src/SenderLogger.cpp:69-72 | The sorting loop brings the top entry to the front |
| SenderLoggers.SenderLogger.SerializeNClear | src/SenderLogger.cpp:41-60 | SEND, the top sender cut to 27 characters or N/A, and a NUL are written at the given place and nowhere else; the table is empty afterwards |
| Buffers.CopyString | src/ProfileData.cpp:75-82 | The name cut to 27 characters and a NUL are written at the given place and nowhere else |
| Profiles.ZeroReadBack | src/ProfileData.cpp:66 | Read back from the buffer in host order, the count just written is zero exactly if nothing was logged |
| Profiles.VisitPrints | src/ProfileData.cpp:56-69 | One more visit writes at most 64 bytes and leaves in the buffer the header and the aggregates that were not empty |
| Profiles.PassGoesOn | src/ProfileData.cpp:51-72 | After a call that is not the last, the next one finds the aggregates still to be visited, no sender, and completes the same pass |
| ProfileDatas.ProfileData.constructor | src/ProfileData.cpp:17-27 | One empty aggregate for each event type, and the next call starts a pass |
| ProfileDatas.ProfileData.Log | src/ProfileData.cpp:31-39 | The value goes into the aggregate of its event type only, and the thread is tracked if the event is the tracked one |
| ProfileDatas.ProfileData.GatherNSerialize | src/ProfileData.cpp:41-73 | The bytes up to the returned end are the packet for what the call found, nothing past the given end is touched, exactly the visited aggregates are cleared, and the result says whether the pass goes on |
| ProfilerImpls.ProfilerImpl.AddProfileData | src/ProfilerImpl.cpp:30-43 | The object is appended, unless a gathering or another change is under way; the guard is released |
| ProfilerImpls.ProfilerImpl.RemoveProfileData | src/ProfilerImpl.cpp:45-63 | Exactly that object is gone, whatever the order of the others, unless it was not there or something is under way |
| ProfilerImpls.ProfilerImpl.SendPass | src/ProfilerImpl.cpp:92-96 | The inner loop ends and has sent exactly the packets that complete the object's pass |
| ProfilerImpls.ProfilerImpl.GatherNSend | src/ProfilerImpl.cpp:82-100 | Every object's pass is sent, one after the other, none disturbing another; with something else under way nothing at all happens |
| Decoder.GetKeyword | log_analyzer/src/packet_decoder.py:36-50 | The loop returns the bytes up to the next NUL, or raises at the end of the packet |
| Decoder.GetIntVal | log_analyzer/src/packet_decoder.py:72-87 | The big-endian number of the next four bytes, or an error at the end of the packet |
| Decoder.GetFloatVal | log_analyzer/src/packet_decoder.py:89-107 | On either host, the double whose big-endian bytes come next |
| Decoder.DecodePacket | log_analyzer/src/packet_decoder.py:12-34 | The loop returns or raises what Decoded says |
| Decoder.RefusedIff | log_analyzer/src/packet_decoder.py:23-34 | A packet raises ValueError if and only if it does not start with DGRP |
| Decoder.AcceptedStands | log_analyzer/src/packet_decoder.py:12-107 | Any packet that is accepted starts with DGRP, then a NUL-terminated receiver and a NUL-terminated sender, and then, unless another DGRP follows, consists of the events reported, byte for byte |
| Decoder.StandingIsAccepted | log_analyzer/src/packet_decoder.py:12-107 | Any packet made of these parts is accepted to its end, and reports exactly these parts |
| Decoder.KeywordMissing | log_analyzer/src/packet_decoder.py:47 | A keyword raises IndexError if and only if there is no NUL in the rest of the packet |
| Decoder.RoundTrip | log_analyzer/src/packet_decoder.py:12-107 | Decoding a printed packet that carries a sender gives back the group and the sender, cut to 27 characters, and the aggregates in order with identical counts, times and float words, and ends at the end of the packet |
| Decoder.ShortNamesComeBack | log_analyzer/src/packet_decoder.py:12-107 | A group, a sender and event names of at most 27 characters come back as they are |
| Decoder.ContinuationHasNoSender | log_analyzer/src/packet_decoder.py:26 | From a later packet of a pass, if it decodes at all, the first aggregate's name is taken for the sender |
| Decoder.SenderDecodedIff | log_analyzer/src/packet_decoder.py:12-34 | A printed packet decodes to a report with a sender if and only if it carries one, and then to that sender |
| Profiling.InitialInv | src/ProfileData.cpp:17-27 | The constructed object satisfies the invariant of the interleavings |
| Profiling.StepKeeps | src/ProfileData.cpp:31-73 | Logging a value, tracking a sender, starting a call, visiting an aggregate and ending a call keep it, in any order |
| ProfilingEffects.StepRecords | src/ProfileData.cpp:31-73 | Each step records exactly this: a logged value raises one aggregate's count by one and its sum by the value and leaves the others alone, a tracked name is appended to those tracked, a call starts with its header and empties the table only at the start of a pass, a visit clears one aggregate, the end of a call sends what stands in the buffer |
| ProfilingEffects.LoggedIsWhatWasLogged | src/ProfileData.cpp:31-39 | Over any run, the values recorded for an event type are exactly those the threads logged, in order |
| ProfilingEffects.TrackedIsWhatWasTracked | src/ProfileData.cpp:38 | Until the next call starts, the names recorded are exactly those the threads tracked, in order |
| ProfilingEffects.LoggedValuesConserved | src/ProfileData.cpp:31-73 | From the construction on, the values a run logs for an event type are as many as the counts in all packets ever sent, in the one under way and in the aggregate together |
| ProfilingEffects.UninterruptedLog | src/ProfileData.cpp:31-39 | Logging that nobody interrupts ends in the state that ProfileData.Log promises |
| ProfilingEffects.ThreadsGoOn | src/ProfileData.cpp:31-73 | Any thread can always log; the serializing thread starts a call if and only if none is under way, and goes on in it or ends it exactly as the loop condition says |
| ProfilingEffects.RunGoesOn | src/ProfileData.cpp:31-73 | Every run can be prolonged by any step that is possible at its end |
| Profiling.EventCountsConserved | src/ProfileData.cpp:31-73 | For each event type, in every reachable state, the values logged are as many as the counts standing in all packets ever sent, in the packet under way and in the aggregate together |
| Profiling.EveryPacketIsPrinted | src/ProfileData.cpp:45-70 | Every packet ever sent consists of the bytes of the group, of the sender if it has one, and of the aggregates counted in it, each under the name of its event type |
| Profiling.VisitReportsTheRest | src/LogAggregate.cpp:20-49 | A visit reports exactly the values logged since the visit before, and leaves none of them behind |
| Profiling.PassIsComplete | src/ProfileData.cpp:41-73 | With any logging in between, a finished pass has visited every aggregate and printed exactly those that were not empty when visited, once and in order and with the count found, in packets within the buffer of which only the first has a sender |
| Profiling.FirstPacketDecodes | log_analyzer/src/packet_decoder.py:12-34 | Every packet ever sent with a sender, the first of each pass, decodes to the group, the sender and the aggregates printed in it |
| Profiling.SenderIsTop | src/ProfileData.cpp:51-54 | The call that starts a pass prints a most frequent one of the first four different senders since the pass before, or N/A |
| Profiling.UninterruptedCall | src/ProfileData.cpp:41-73 | A call that no logging thread interrupts ends in the state and with the packet that GatherNSerialize promises |

## Left out

- Sockets, files, URI parsing, receivers, sender channels and the handshake: foreign calls.
- The measurement, checking and display parts of log_analyzer: averages and user interface.
- Spin locks, memory orders, thread tagging: a region under a lock is one event of `Runs` or `Profiling`. `Runs` does not say how long a thread waits for a lock.
- `RunTasks` as one loop: its two locked regions are methods, and the loop around them is the worker's events in `Runs`.
- The clock readings and log calls inside `ChannelImpl`: they change nothing the scheduler reads. Timestamps are unbounded integers, so `t - timestamp_` cannot overflow.
- Copying, moving and destroying packets and packet stubs, and pool addresses: a slot number stands for an address.
- Unregistering channels and destroying channels with queued packets: the channels are fixed before a run.
- Reserved capacities are the counts that `RegisterChannel` asks for; what a vector allocates beyond them is not modelled.
- That every worker is scheduled again (fairness): `Stopping` bounds the steps before Stop returns and shows that one is always possible, not that a thread makes it.
- UTF-8 decoding in the packet decoder: keywords stay bytes, so a name cut inside a character is not an error here.
- Rounding of doubles, infinities and NaN in `LogAggregate`.
- LogAggregates.LogAggregate.Log: the counter is unbounded; `Serialize` demands that it fits 32 bits, so a counter that overflows before it is printed is outside the model.
- Senders.TopSender: packet counts are unbounded.
- ProfileDatas.ProfileData.Log: the event is given by its entry in the map, so a lookup that fails an assertion is not modelled.
- ProfilerImpls.ProfilerImpl.GatherNSend: the assertion that nothing else is under way is not modelled, only the return after it; nor is the sleeping thread that calls it.
- ProfileDatas.ProfileData.GatherNSerialize: demands 128 bytes, as its assertion does; what smaller buffers lead to is said on values by `PassEndsIff`.
