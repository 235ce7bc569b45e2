# Linux sample programs: models and proofs

Dafny models of the concurrent protocols, buffers and searches in a collection
of Linux sample programs, with proofs over all inputs, all interleavings and
all answers of the system calls involved.

A concurrent program is a step machine: a partial function from a state and an
action to the next state, where an action names the thread that moves and what
the kernel or a library answers. A run is any sequence of actions, so a theorem
about every run quantifies over every sequence (`Runs.dfy`). Code that updates
arrays and fields in place is a method or a class, proved against the functions
the step machines use.

No proof uses automatic induction; `dfyconfig.toml` switches it off for lemmas.
The induction hypothesis Dafny 4.11 generates for a lemma over a sequence is not
guarded by the type of the sequence, which can make it inconsistent.

| file | program | subject |
|---|---|---|
| `Runs.dfy` | | runs, invariants, bounds on the length of runs |
| `Basics.dfy` | | bytes, memory copies, powers of two, division |
| `ClassicPi.dfy` | `ldd-k4/thread/classic_pi.c` | barriers, one mutex, fixed-priority scheduling with and without priority inheritance |
| `PiTiming.dfy` | `ldd-k4/preempt-rt/pi.c` | exact blocking times of three threads on one processor |
| `GlobalFifo.dfy`, `FifoCalls.dfy`, `FifoDevice.dfy` | `ldd-k4B/ch9_globalfifo/globalfifo.c` | blocking FIFO driver: sleep and wakeup, byte stream, exits; whole calls; the array in place |
| `ProduceConsume.dfy` | `ldd-k4/thread/produce_consume.c` | condition-variable buffer |
| `SemBuffer.dfy` | `ldd-k4/thread/sem.cpp` | three-semaphore buffer |
| `EchoServer.dfy`, `EchoTable.dfy` | `ldd-k4/network/echoserver.cpp` | epoll slot table, dispatch, timeout sweep; the table in place |
| `PipeRing.dfy` | `ldd-k4/network/pipetest.c` | token-passing ring of pipes |
| `RingFifo.dfy` | `alsa/example/alsa_loop.c` | byte ring with split copies |
| `PcmLayout.dfy` | `alsa/example/pcm.c` | interleaved sample memory and byte packing |
| `LatencySearch.dfy` | `alsa/example/latency.c` | buffer size search against two devices |
| `Ruler.dfy`, `Lotto.dfy` | `C++/example_code/07` | recursive subdivision; a product of quotients |

## Results that are not what one might expect

- `FIFO_CLEAR` empties the FIFO without waking writers. A writer asleep at that
  moment can stay asleep over an empty device (`GlobalFifo.ClearCanStrand`, a
  run for any number of tasks from three up). Whatever the other tasks do
  meanwhile, a clear keeps the writers' guarantee if and only if every writer
  asleep when it starts is woken by a signal before it unlocks
  (`GlobalFifo.ClearKeepsWritersAwakeIff`); on runs where no clear finds a writer
  asleep nobody is left asleep (`GlobalFifo.CarefulNoLostWakeup`).
- `buf_fifo` writes without checking for room. A write of n bytes keeps the byte
  stream, whatever the bytes, if and only if n bytes are free
  (`RingFifo.WriteKeepsStreamIffRoom`, `RingFifo.OverflowBreaks`).
- The play request of the same program clips a count of frames by a count of
  bytes. It hands the device what it read if and only if nothing is stored, the
  device has room for no more frames than are stored, or at least 3840 frames
  are stored (`RingFifo.PlaysWhatItReadIff`). `RingFifo.HandsOverMoreThanRead` is
  a run of the main loop on which 19200 frames are handed over and 16385 read.
- Without priority inheritance and with at least one round, classic_pi never
  finishes a round under the priority scheduler, on any run
  (`ClassicPi.InversionWedges`).
- `setparams` stores an unsigned long period size in an int. The next size it
  tries is larger if and only if no store wraps below the size tried and the
  increment fits in an int (`LatencySearch.NextIsLargerIff`, and for whole
  searches `LatencySearch.SearchGrowsIff`). On devices that answer with a period
  of 2^32 + 10 frames it never ends: 32, 10, 14, 10, 14, ...
  (`LatencySearch.WrappingNeverEnds`).
- `read_cb` indexes a pipe outside the array for some reader unless fewer tokens
  than pipes are active (`PipeRing.TargetInRangeIff`).
- An unsigned sample format is stored with its offset if and only if its width
  is a whole number of bytes (`PcmLayout.OffsetIff`); otherwise the sign flip of
  `generate_sine` falls outside the bytes it stores, as for 20 bits in three
  bytes (`PcmLayout.TwentyBitSilence`).

## Assumptions about the kernel and libraries

- The overlapping `memcpy` at line 131 of globalfifo.c is a forward byte copy;
  section 7.24.2.1 of ISO C11 leaves overlapping copies undefined.
- `wake_up_interruptible` makes every interruptible task on the queue runnable;
  `schedule()` returns at once when a signal is pending; a pending signal is
  consumed on return to user space.
- Threads of classic_pi and pi run under SCHED_FIFO on one processor as in
  section 2.8.4 of the System Interfaces volume of IEEE Std 1003.1-2017, with
  priority inheritance as in section 2.9.4: at each step a thread of highest
  effective priority among those that can move moves. In pi.c threads that have
  not yet raised their priority share the processor in any order, and only the
  spin loops take time.
- `pthread_cond_wait` releases the mutex atomically, a signal wakes at least one
  waiter if there is one, and spurious wakeups may happen at any time.
- `epoll_ctl` registers a descriptor that is not yet registered, `close` removes
  a descriptor from the interest set, `accept` returns a descriptor that was not
  open, and `epoll_wait` reports a descriptor at most once a batch and only for
  events asked for.
- In pipetest.c `epoll_wait` reports some readable pipe whenever there is one,
  and a token always fits its pipe.
- The sample values of pcm.c are arbitrary integers, and the product of lotto.cpp
  is over exact reals.

## Model

| member | source | states |
|---|---|---|
| `ClassicPi.EveryRunSafe` | ldd-k4/thread/classic_pi.c:422-595 | for every number of rounds and every interleaving: the three round counters differ by at most one, the mutex belongs to the one thread between its lock and unlock and is unlocked only by it, the medium thread's tests never see a flag left from an earlier round, and a state in which nothing can move is either full completion or the one wedged shape (medium parked at elevate, low and high parked at finish) |
| `ClassicPi.EveryRunEnds` | ldd-k4/thread/classic_pi.c:439-530 | every interleaving is finite, with a linear bound in the number of rounds |
| `ClassicPi.InheritanceCompletes` | ldd-k4/thread/classic_pi.c:230-237 | with priority inheritance no scheduled run reaches the wedge, and a scheduled run that cannot continue has played every round and passed all_threads_done |
| `ClassicPi.InversionWedges` | ldd-k4/thread/classic_pi.c:213-215 | with inheritance off and at least one round, no finish barrier is ever released, and a scheduled run that cannot continue is wedged in round one with the medium thread in a second elevate wait |
| `ClassicPi.BothOutcomesOccur` | ldd-k4/thread/classic_pi.c:24-34 | for every number of rounds a scheduled run to completion exists with inheritance, and one to the wedge without |
| `ClassicPi.StuckShapes` | ldd-k4/thread/classic_pi.c:517-523 | the only states of the invariant without a next step are completion and the wedge |
| `ClassicPi.MedLoopTest` | ldd-k4/thread/classic_pi.c:523-523 | the medium thread leaves its loop when high_has_run, after one load, or low_unlocked, after two, and else waits again; the first implies the second |
| `ClassicPi.MedWaitsForLow` | ldd-k4/thread/classic_pi.c:458-470 | the low thread, boosted, sets low_unlocked before the medium thread may test it |
| `ClassicPi.LowWaitsForMed` | ldd-k4/thread/classic_pi.c:517-523 | not boosted, the low thread sets low_unlocked only when the medium thread is parked again |
| `ClassicPi.RunToIdle` | ldd-k4/thread/classic_pi.c:257-337 | every scheduled run can be carried on until the processor is idle, and is there within the bound on all runs |
| `ClassicPi.ScheduledRunEnds` | ldd-k4/thread/classic_pi.c:439-530 | the linear bound holds of scheduled runs, which are interleavings |
| `PiTiming.MeasuredTimes` | ldd-k4/preempt-rt/pi.c:50-98 | for all spin lengths and every scheduled run, whatever the start-up order: high measures exactly LOW with inheritance and exactly LOW + MID without, mid measures exactly MID, low exactly LOW + MID either way, and nothing is left to run only when all threads and main have returned |
| `PiTiming.EveryRunEnds` | ldd-k4/preempt-rt/pi.c:39-48 | every scheduled run is at most LOW + MID + 37 steps long |
| `PiTiming.SomeRunReturns` | ldd-k4/preempt-rt/pi.c:132-139 | a run on which everything returns exists for all spin lengths |
| `PiTiming.MidWaitsForHigh` | ldd-k4/preempt-rt/pi.c:76-79 | with inheritance mid passes its semaphore only after high is done |
| `PiTiming.LowWaitsForMid` | ldd-k4/preempt-rt/pi.c:61-65 | without it low starts its spin only after mid is done, and either way it prints its time only after that |
| `GlobalFifo.StreamRefinement` | ldd-k4B/ch9_globalfifo/globalfifo.c:124-195 | for any tasks, interleaving, faults and signals: bytes accepted since the last clear are the bytes returned since then followed by mem[..current_len], current_len stays within GLOBALFIFO_SIZE, and a call in progress moves exactly as many bytes as asked for and available, at least one when one is asked for |
| `GlobalFifo.NoLostWakeup` | ldd-k4B/ch9_globalfifo/globalfifo.c:97-203 | whenever the mutex is free, a sleeping reader means an empty FIFO, and a sleeping writer a full one unless a clear found that writer asleep |
| `GlobalFifo.CarefulNoLostWakeup` | ldd-k4B/ch9_globalfifo/globalfifo.c:97-203 | on runs where no clear finds a writer asleep (clear-free runs among them) sleeping writers mean a full FIFO, and a reader and a writer are never asleep together |
| `GlobalFifo.ClearKeepsWritersAwakeIff` | ldd-k4B/ch9_globalfifo/globalfifo.c:60-64 | for every interleaving while the clear holds the mutex: the writers' wakeup guarantee holds at its unlock if and only if every writer asleep when it started was woken in between, by a signal or because one was pending |
| `GlobalFifo.ClearWindow` | ldd-k4B/ch9_globalfifo/globalfifo.c:61-64 | while a clear holds the mutex no writer falls asleep and only signals wake one |
| `GlobalFifo.ClearAloneIff` | ldd-k4B/ch9_globalfifo/globalfifo.c:60-64 | run back to back, a clear keeps the guarantee if and only if no writer is asleep when it starts |
| `GlobalFifo.ResultsAreTrue` | ldd-k4B/ch9_globalfifo/globalfifo.c:104-202 | in every run: a returned count is the number of bytes the call moved, for a write the front of its data, and not zero unless zero was asked for; EAGAIN comes only from a non-blocking call that found the device blocked, ERESTARTSYS only from a blocking one that was signalled; a non-blocking call never sleeps; the stream changes only by a clear or by a call that reports just those bytes |
| `FifoCalls.CopyDelivers` | ldd-k4B/ch9_globalfifo/globalfifo.c:124-195 | in every reachable state a call at its copy, unless it faults, moves its bytes: a read hands over the first min(count, current_len) bytes and shifts the rest to the front, a write appends the first min(count, SIZE - current_len) bytes, and the result is that number |
| `FifoCalls.FaultsComeFromFaults` | ldd-k4B/ch9_globalfifo/globalfifo.c:127-181 | a call starts on its way out with EFAULT only by a copy that faulted |
| `FifoCalls.ReadCall` | ldd-k4B/ch9_globalfifo/globalfifo.c:97-146 | a whole read of a device that is not empty: result, bytes, the rest of the device, the sleeping writers awake, every other task as it was, the mutex free and the caller off its queue |
| `FifoCalls.WriteCall` | ldd-k4B/ch9_globalfifo/globalfifo.c:148-203 | a whole write to a device that is not full, likewise |
| `FifoCalls.AgainCall` | ldd-k4B/ch9_globalfifo/globalfifo.c:107-110 | a non-blocking call that finds the device empty (read) or full (write) returns EAGAIN and changes nothing else |
| `FifoCalls.SleepCall` | ldd-k4B/ch9_globalfifo/globalfifo.c:107-115 | a blocking one falls asleep on its queue, runnable by a wakeup, with the mutex free and nothing else changed |
| `FifoCalls.WokenCall` | ldd-k4B/ch9_globalfifo/globalfifo.c:115-122 | a sleeper that is woken takes the mutex and is back at its loop test |
| `FifoCalls.SignalledCall` | ldd-k4B/ch9_globalfifo/globalfifo.c:116-119 | a signalled sleeper returns ERESTARTSYS, off its queue, whoever holds the mutex, and changes nothing else |
| `FifoCalls.ClearCall` | ldd-k4B/ch9_globalfifo/globalfifo.c:60-67 | FIFO_CLEAR empties the device, zeroes every cell and returns 0; it wakes nobody |
| `FifoCalls.PollCall` | ldd-k4B/ch9_globalfifo/globalfifo.c:75-95 | poll reports readable exactly when the device is not empty and writable exactly when it is not full, and changes nothing |
| `GlobalFifo.ClearCanStrand` | ldd-k4B/ch9_globalfifo/globalfifo.c:60-64 | a run from the initial state on which a clear leaves a writer asleep over an empty FIFO |
| `GlobalFifo.ExitsAreClean` | ldd-k4B/ch9_globalfifo/globalfifo.c:140-145 | every exit path of every call leaves the caller without the mutex, off its queue and runnable; the unlock statements are reached only by the owner; a sleeper owns no mutex |
| `GlobalFifo.OnlyHonestSleep` | ldd-k4B/ch9_globalfifo/globalfifo.c:104-202 | when no task can move the mutex is free and every task is outside a call or asleep as reader of an empty FIFO, writer of a full one, or stranded by a clear |
| `GlobalFifo.HolderMoves` | ldd-k4B/ch9_globalfifo/globalfifo.c:104-141 | the owner of the mutex can always take its next statement |
| `GlobalFifo.NextKeepsInv` | ldd-k4B/ch9_globalfifo/globalfifo.c:54-203 | the driver invariant (mutex, queues, task states, bytes in transit, stream) is kept by every statement, fault, signal and new call |
| `FifoDevice.Device.MoveDown` | ldd-k4B/ch9_globalfifo/globalfifo.c:131-131 | the forward copy moves the unread bytes to the front and leaves the rest |
| `FifoDevice.Device.Take` | ldd-k4B/ch9_globalfifo/globalfifo.c:124-138 | the bytes taken followed by the new contents are the old contents; as many as asked for and stored |
| `FifoDevice.Device.Put` | ldd-k4B/ch9_globalfifo/globalfifo.c:176-194 | the contents grow by the front of the data, as much as fits |
| `FifoDevice.Device.Clear` | ldd-k4B/ch9_globalfifo/globalfifo.c:62-63 | the contents are empty and every cell is zero |
| `ProduceConsume.ConsumedIsPrefix` | ldd-k4/thread/produce_consume.c:38-76 | for any number of producers and consumers and any spurious wakeups: items consumed are a prefix of items produced, at most BUFFER_SIZE - 1 are held, one thread at a time is inside |
| `ProduceConsume.NeverBothAsleep` | ldd-k4/thread/produce_consume.c:41-74 | when nobody can move, producers and consumers do not both wait; waiting consumers mean nothing is held, waiting producers that BUFFER_SIZE - 1 items are |
| `ProduceConsume.StuckShapes` | ldd-k4/thread/produce_consume.c:43-46 | in a state where nobody can move everyone has finished or waits, consumers only on an empty and producers only on a full buffer |
| `ProduceConsume.ProgramEndsConsumed` | ldd-k4/thread/produce_consume.c:80-103 | one producer ending in END_FLAG and one consumer: the only final state has both finished and every item consumed in order |
| `ProduceConsume.EveryRunBounded` | ldd-k4/thread/produce_consume.c:38-76 | for any threads, a run has at most 2 steps a thread, 14 an item and 3 a spurious wakeup |
| `ProduceConsume.ProgramFinishes` | ldd-k4/thread/produce_consume.c:80-103 | from any reachable state of the program, steps without spurious wakeups lead to its end with every item consumed in order |
| `ProduceConsume.WakeKeepsInv` | ldd-k4/thread/produce_consume.c:53-53 | a signal keeps the wakeups owed: what waiters could use never exceeds the threads already coming for it |
| `ProduceConsume.PutAppends` | ldd-k4/thread/produce_consume.c:48-51 | a store into a ring that is not full appends to its contents |
| `ProduceConsume.GetTakesOldest` | ldd-k4/thread/produce_consume.c:68-72 | a fetch from a ring that is not empty removes the oldest item |
| `ProduceConsume.Held` | ldd-k4/thread/produce_consume.c:19-35 | the number held is zero exactly when BufferIsEmpty and BUFFER_SIZE - 1 exactly when BufferIsFull |
| `ProduceConsume.Products.Store` | ldd-k4/thread/produce_consume.c:48-51 | the in-place store is the ring operation and appends the item |
| `ProduceConsume.Products.Fetch` | ldd-k4/thread/produce_consume.c:68-72 | the in-place fetch is the ring operation and returns the oldest item |
| `ProduceConsume.Products.BufferIsFull` | ldd-k4/thread/produce_consume.c:19-26 | true exactly when BUFFER_SIZE - 1 items are held |
| `ProduceConsume.Products.BufferIsEmpty` | ldd-k4/thread/produce_consume.c:28-35 | true exactly when nothing is held |
| `SemBuffer.EveryRunSafe` | ldd-k4/thread/sem.cpp:15-41 | for every nitems and interleaving the consumer's check never fails and it sees 0, 1, 2, ...; semaphore values plus permits in flight total NBUFF; one worker at a time in its section |
| `SemBuffer.EveryRunCompletes` | ldd-k4/thread/sem.cpp:18-40 | every interleaving takes exactly ten statements an item: none is longer, a shorter one can continue, one of that length has both workers returned and every item seen |
| `SemBuffer.NotStuck` | ldd-k4/thread/sem.cpp:19-38 | some worker can move until both have returned |
| `EchoServer.TableInvariant` | ldd-k4/network/echoserver.cpp:33-159 | in every run active slots hold pairwise distinct open descriptors, are exactly the interest set, and are watched for input when the callback is RecvData or AcceptConn and for output when it is SendData |
| `EchoServer.BatchReaches` | ldd-k4/network/echoserver.cpp:213-223 | when the turn of an event in a batch comes, its slot still holds the connection the event was reported for, whatever earlier events did |
| `EchoServer.HandleOk` | ldd-k4/network/echoserver.cpp:214-222 | an event makes at most one callback, on its own slot, with what that callback means: input leaves the first 127 bytes received waiting to be sent back on that connection, or closes it and frees the slot; room for output turns the slot back to receiving, or closes; input on the listener makes a new connection; no other active slot or connection changes |
| `EchoServer.TurnAnswers` | ldd-k4/network/echoserver.cpp:192-223 | every input and output event of every turn of every run is answered like that by the end of the turn, whatever the other events of the batch do |
| `EchoServer.WaitingBytesKept` | ldd-k4/network/echoserver.cpp:117-159 | over any turns without an event for a slot and before its timeout the slot does not change, so what is given to send is what was received |
| `EchoServer.FirstFree` | ldd-k4/network/echoserver.cpp:91-97 | the slot given to a new connection is the first unused one, or none |
| `EchoServer.SweepLooksAt` | ldd-k4/network/echoserver.cpp:195-197 | the k-th slot examined by a pass is k places on from the cursor, around the 500 connection slots |
| `EchoServer.FivePassesOnce` | ldd-k4/network/echoserver.cpp:192-223 | any five consecutive turns of any run, whatever their batches do, examine each connection slot at exactly one step of exactly one pass, and never the listener |
| `EchoServer.TurnsMoveCursor` | ldd-k4/network/echoserver.cpp:192-223 | n turns move the cursor on by 100 n slots, around the table |
| `EchoServer.AcceptMeans` | ldd-k4/network/echoserver.cpp:75-110 | an accepted descriptor becomes a new connection, served by the first free slot if there is one and it can be made non-blocking; the table invariant and all other connections are kept |
| `EchoServer.ReceiveMeans` | ldd-k4/network/echoserver.cpp:112-138 | received bytes are kept, up to 127, for sending back on the same connection; none closes the connection and frees exactly its slot |
| `EchoServer.SendMeans` | ldd-k4/network/echoserver.cpp:140-159 | after sending the slot waits for input on the same connection with an empty buffer; a failure closes the connection and frees exactly its slot |
| `EchoServer.DelUndoesAdd` | ldd-k4/network/echoserver.cpp:43-69 | deleting a slot just added gives back the interest set |
| `EchoServer.SweepTimesOut` | ldd-k4/network/echoserver.cpp:194-206 | a pass closes exactly the connections idle for 60 seconds among the hundred slots from the cursor on |
| `EchoServer.IdleClosedInFiveTurns` | ldd-k4/network/echoserver.cpp:191-206 | from any reachable state, a connection idle for 60 seconds is closed within five turns of the main loop unless an event for its slot comes first |
| `EchoServer.SweepSparesActive` | ldd-k4/network/echoserver.cpp:199-205 | a pass leaves a connection active within the last 60 seconds alone |
| `EchoTable.Table.EventSet` | ldd-k4/network/echoserver.cpp:33-41 | the slot points at the descriptor and is inactive, keeps its buffer, no other slot changes, and the table invariant is kept when the slot was not in use |
| `EchoTable.Table.EventAdd` | ldd-k4/network/echoserver.cpp:43-60 | the slot is active and its descriptor in the interest set under it for just these events; no other slot changes; the table invariant is kept when the descriptor is open, unregistered and the events are those of its callback |
| `EchoTable.Table.EventDel` | ldd-k4/network/echoserver.cpp:62-69 | the slot is inactive and its descriptor out of the interest set; no other slot changes; the table invariant is kept for connection slots |
| `EchoTable.Table.FindFree` | ldd-k4/network/echoserver.cpp:91-102 | the search loop finds the first unused connection slot |
| `EchoTable.Table.AcceptConn` | ldd-k4/network/echoserver.cpp:75-110 | keeps the table invariant and every other connection; a new connection is served by the first free slot, watched for input; on the error and limit paths no slot changes |
| `EchoTable.Table.RecvData` | ldd-k4/network/echoserver.cpp:112-138 | keeps the table invariant and every other connection; the slot serves the same connection, watched for output, with the bytes received, or the connection is closed and the slot free |
| `EchoTable.Table.SendData` | ldd-k4/network/echoserver.cpp:140-159 | keeps the table invariant and every other connection; the slot serves the same connection, watched for input, its buffer empty, or the connection is closed and the slot free |
| `EchoTable.Table.CheckTimeouts` | ldd-k4/network/echoserver.cpp:194-206 | the loop is the hundred-step sweep of the run model, keeps the table invariant, and closes exactly the idle connections among the slots it comes to |
| `EchoTable.Table.HandleOne` | ldd-k4/network/echoserver.cpp:214-222 | in place, an event makes at most one callback with what that callback means, keeps the table invariant and all other connections |
| `EchoTable.Table.Dispatch` | ldd-k4/network/echoserver.cpp:213-223 | the loop handles the whole batch as in the run model, answers every input and output event on its connection, keeps the table invariant, and leaves the connection of every slot without an event alone |
| `EchoTable.Table.constructor` | ldd-k4/network/echoserver.cpp:160-187 | the table starts empty with the listener registered, in the initial state of the run model |
| `PipeRing.Bench.RunOnce` | ldd-k4/network/pipetest.c:85-108 | from empty pipes and for any readiness order: every read finds a token, the loop ends, the pipes are empty again, and the work is num_active + num_writes (zero with no active token) |
| `PipeRing.Bench.DispatchBatch` | ldd-k4/network/pipetest.c:98-100 | every read of a batch finds a token, which moves on from each pipe of the batch in order while writes are left; tokens are conserved |
| `PipeRing.Bench.ReadCb` | ldd-k4/network/pipetest.c:67-82 | a read that finds a token takes it from its pipe and, while writes are left, puts one into the pipe num_active + 1 places on around the ring; no other pipe changes and bytes = fired - count is conserved |
| `PipeRing.Bench.Start` | ldd-k4/network/pipetest.c:89-91 | exactly the first num_active pipes get one token each |
| `PipeRing.TargetInRangeIff` | ldd-k4/network/pipetest.c:68-78 | the forwarding index is a pipe for every reader if and only if fewer tokens than pipes are active |
| `PipeRing.TargetIsModular` | ldd-k4/network/pipetest.c:68-77 | then it is num_active + 1 places on, modulo the number of pipes |
| `RingFifo.StreamPreserved` | alsa/example/alsa_loop.c:149-195 | after any reads and any writes that fit: bytes read followed by bytes stored are the bytes written, w_ptr is congruent to r_ptr + fifo_size modulo FIFO_MAX_SIZE, both stay in 0..FIFO_MAX_SIZE |
| `RingFifo.WholeFramesOnly` | alsa/example/alsa_loop.c:172-192 | when every request is for whole frames, whole frames are stored and returned |
| `RingFifo.WriteKeepsStreamIffRoom` | alsa/example/alsa_loop.c:157-171 | a write of n bytes appends to the contents whatever the bytes if and only if n bytes are free |
| `RingFifo.OverflowBreaks` | alsa/example/alsa_loop.c:157-171 | for every ring and every length up to the ring's size that does not fit, a block on which the stream breaks |
| `RingFifo.WriteAppends` | alsa/example/alsa_loop.c:157-168 | a write that fits appends to the contents, split or not |
| `RingFifo.ReadTakesOldest` | alsa/example/alsa_loop.c:172-192 | a read returns the oldest bytes, as many as asked for and stored, split or not |
| `RingFifo.CellIsModular` | alsa/example/alsa_loop.c:158-167 | the k-th byte from a pointer lies at (pointer + k) modulo FIFO_MAX_SIZE |
| `RingFifo.PlaysWhatItReadIff` | alsa/example/alsa_loop.c:324-339 | the main loop hands the device as many frames as it read if and only if nothing is stored, the device's room is at most the frames stored, or at least 3840 frames are stored |
| `RingFifo.PlayFramesIsLeast` | alsa/example/alsa_loop.c:324-331 | the play request is the least of the room, 3840 and the bytes stored |
| `RingFifo.TurnMeans` | alsa/example/alsa_loop.c:290-339 | a whole turn in numbers: captured bytes are appended; playback is prepared once more than 16384 frames were captured; then the play request is handed over and four times as many bytes, or all there are, leave the front |
| `RingFifo.HandsOverMoreThanRead` | alsa/example/alsa_loop.c:289-339 | a run of the main loop on which the device is handed more frames than were read |
| `RingFifo.Fifo.WriteBytes` | alsa/example/alsa_loop.c:157-171 | in place, split or not, a block that fits is appended to the contents |
| `RingFifo.Fifo.ReadBytes` | alsa/example/alsa_loop.c:172-192 | in place, split or not, the oldest bytes leave the contents, as many as asked for and stored |
| `PcmLayout.GenerateSine` | alsa/example/pcm.c:26-88 | aborts exactly when a frame is not a multiple of 16 bits; otherwise byte i of frame k on channel c, at ((offset + k) channels + c) phys / 8 + i or from the other end, is byte i of the sample for i < bits / 8 and unchanged for the rest, and no byte before or after the frames changes |
| `PcmLayout.ReadBack` | alsa/example/pcm.c:70-82 | the bits / 8 stored bytes of any generated frame and channel, in either byte order, decode to the sample modulo 2^bits for whole bytes, offset by half of it when unsigned, and modulo 2^(8 (bits / 8)) otherwise |
| `PcmLayout.StoredValue` | alsa/example/pcm.c:70-79 | bits / 8 bytes are packed, and they decode to the sample modulo their range, offset by half the range for unsigned formats of whole bytes |
| `PcmLayout.OffsetIff` | alsa/example/pcm.c:70-79 | an unsigned format stores every sample with the offset if and only if its width is a whole number of bytes; otherwise the sample 0 is stored as 0 |
| `PcmLayout.TwentyBitSilence` | alsa/example/pcm.c:70-79 | silence in unsigned 20 bit samples of three bytes is stored without the offset |
| `PcmLayout.PutFrame` | alsa/example/pcm.c:72-82 | one frame puts the sample on every channel and moves every channel's position on by one frame |
| `PcmLayout.PackSample` | alsa/example/pcm.c:74-80 | exactly the low bits / 8 bytes of the value are written, in either byte order, and nothing else |
| `PcmLayout.StartPointers` | alsa/example/pcm.c:45-57 | each channel starts at its first sample of frame `offset` |
| `LatencySearch.SetParams` | alsa/example/latency.c:160-248 | when every attempt that is repeated grows: the sizes tried are those of the search, increasing strictly and within the limit, so it ends; success means equal period times and buffers of at most twice the period on both sides for the last size, and nothing was accepted before; giving up means that the next size is over the limit; leaving, that an attempt was neither accepted nor repeated. A fixed size is tried once, whatever the answer |
| `LatencySearch.RetryLoop` | alsa/example/latency.c:568-647 | over all calls together, when every attempt that is followed by another one grows, each size is larger than the one before, so the loop ends: at the first accepted size that works, with the size the devices use for it; when the next size is over the limit; or with the program |
| `LatencySearch.AcceptedIff` | alsa/example/latency.c:212-243 | an attempt is accepted exactly when all setup works, the period times are equal and both buffers are at most twice the period, in unsigned long arithmetic |
| `LatencySearch.RetriedIff` | alsa/example/latency.c:212-231 | it is repeated exactly when the period times differ or the first side over two periods per buffer can do with two; never both |
| `LatencySearch.NextIsLargerIff` | alsa/example/latency.c:190-209 | the next size, in the same call or the next one, exists and is larger if and only if the last of the two stores that happens does not wrap below the size tried and the increment fits in an int |
| `LatencySearch.SearchGrowsIff` | alsa/example/latency.c:187-209 | along the whole program every size is larger than the one before if and only if every attempt that is followed by another one meets that condition |
| `LatencySearch.GrowingIncreases` | alsa/example/latency.c:187-209 | the sizes of a search that grows are at least one frame apart and within the limit |
| `LatencySearch.WrappingNeverEnds` | alsa/example/latency.c:187-213 | devices on which a call from the default minimum makes attempt after attempt for ever |
| `LatencySearch.FittingPeriodsGrow` | alsa/example/latency.c:204-209 | periods that an int holds with room for the increment always grow, to the maximum of what was tried and what the devices use |
| `LatencySearch.RaisedIsMaximumIff` | alsa/example/latency.c:204-209 | the stored size is that maximum for every size tried if and only if both periods fit in an int |
| `LatencySearch.HugePeriodShrinks` | alsa/example/latency.c:190-206 | a period of 2^31 frames makes the next attempt smaller; one of 2^31 - 1, accepted, makes the next increment overflow |
| `Ruler.Subdivide` | C++/example_code/07/ruler.cpp:29-37 | exactly the cells of the halving recursion are marked and no other cell changes |
| `Ruler.MarksAreTicks` | C++/example_code/07/ruler.cpp:29-37 | when 2^level divides high - low the marks are exactly the inner points at multiples of (high - low) / 2^level |
| `Ruler.DrawRow` | C++/example_code/07/ruler.cpp:17-20 | subdividing a blank ruler marks exactly the multiples of 64 / 2^level, ends included, and blanks stay between them |
| `Ruler.DrawRuler` | C++/example_code/07/ruler.cpp:6-27 | main prints the blank ruler and then, for each of six levels, the ruler marked at the multiples of 64 / 2^level |
| `Lotto.Probability` | C++/example_code/07/lotto.cpp:26-35 | the loop returns the binomial coefficient of Pascal's recurrence, for every pair of arguments |
| `Lotto.Absorption` | C++/example_code/07/lotto.cpp:32-33 | p C(n, p) = n C(n-1, p-1), the identity behind each turn of the loop |
| `Lotto.MorePicksThanNumbers` | C++/example_code/07/lotto.cpp:11-14 | the result is zero exactly when there are more picks than numbers |

## Left out

- Thread creation, command lines, printing, signals and cleanup in classic_pi.c: the model starts when all threads exist.
- The asynchronous notification of globalfifo.c (fasync and SIGIO) and device registration.
- GlobalFifo.NextKeepsInv: poll is a step that reads the count under the mutex; its registration on the two wait queues is not modelled.
- Sends in echoserver.cpp that take only part of the bytes: the source does not retry them, and a descriptor accepted over the limit stays open; no claim is made about either.
- PipeRing.Bench.RunOnce: a negative write count is not modelled; the loop of the source would then run until the counter wraps.
- RingFifo.WriteKeepsStreamIffRoom: blocks of at most FIFO_MAX_SIZE bytes; the split copy of a longer one does not stay inside the ring.
- LatencySearch.SetParams: nothing is said about searches in which a repeated attempt does not grow; NextIsLargerIff and WrappingNeverEnds show what happens there.
- LatencySearch.RetryLoop: automatic mode only; with a fixed size the loop tries that size until it works. The early exits on silence, link and write errors are not modelled; each ends the loop.
- PcmLayout.GenerateSine: the interleaved areas set up in main, not areas handed out by a device in the mmap methods.
- The remaining programs of the repository: thin wrappers around library calls, copies of the files above, or single-branch examples.
