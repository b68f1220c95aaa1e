# A verified model of the ADS131M08 driver

This project models a Linux driver for the ADS131M08 converter and proves what its users
rely on: the sample stream arrives in order and complete, no buffer is ever lost, starting
and stopping leave a consistent device whatever fails, readers are woken, register access
is not disturbed by the data path, and no index leaves its array.

`dafny verify dfyconfig.toml` checks everything.

## The acquisition pipeline

Eight chunk buffers go round: free list, active list, ready list, a reader, free list.
Three kinds of thread move them: the interrupt (a hard handler and its thread, never two
at once), any number of callers of `read`, and the control calls (`ioctl`, `release`).

`Pipeline` describes this as a step system.  Every list-lock section, buffer-lock section,
atomic operation and SPI transfer is one step, with a program counter per thread; no code
path nests the two kinds of lock, so nothing finer can be seen.  `wait_event_interruptible`
is modelled at the grain of the kernel macro: join the wait queue, test the ready list, test
`run_stat`, sleep.  Labels carry what the environment decides: the clock, received bytes,
the outcome of a transfer, of the interrupt request, of the copies from and to user space.
`Hist` is a record of the run that no step looks at.

`Theorems`, `Provenance`, `Completeness` and `Progress` state the main results for every run
from initialisation, with any number of readers and in any interleaving.  They rest on one
invariant, split by subject: `Conservation`, `Bounds`, `Turns`, `StartStop`, `BusLog`,
`Wakeups`, `Locations`, `Stream`, `Reading`, `Accounting`, `Ledger`.  There is one control call at a time: the source takes no
lock around `ads131m08_run_cmd`, and what overlapping calls do to each other is not part of
this model, with one exception.  Labels `StrayClear` and `StrayPublish` let a resize happen
between any two steps, out of turn; conservation, bounds and the order of each reader's
chunks hold with them, and the other results without (`Serialised`).

`Driver` has the C functions themselves, in their order of statements, on shared mutable
fields.  After each atomic section `Yield` lets the other threads take any number of steps;
a method knows afterwards only what they cannot change.  `Valid()` says that the fields are
exactly those the step system reaches by the recorded run.  So a section that stored the
wrong value, or skipped a store, would not meet `Valid()` with the program counter its
contract names; and every theorem about runs holds at every point of every method.  Where a contract
speaks of a moment (`During`), something was true at some point of the call, although other
threads may have changed it since.  The program counters and the history are auxiliary
fields: the decisions of the C code are taken on its own data, and only what the kernel
does for it (waking a sleeper, waiting for a thread in `free_irq`) looks at them.

## The layers below

* `IntrusiveList`: list.c on the heap.  The pools of the pipeline are sequences; this module
  proves that the linked list behaves as its sequence.
* `Codec`, `Registers`, `SpiBus`: byte packing, command words, frames, and register access
  against a device that answers each frame in the next one.
* `RingQueue`: queue.c, with the exact conditions under which it is a FIFO.
* `Wrappers`: what they share.

## What does not hold

* A WAKEUP whose interrupt request is refused sets `run_stat` back to STOP without waking
  anyone (ads131m08_data.c:65-69).  `Witnesses.RefusalStrandsReader` is a run in which a
  reader sleeps on; `Theorems.NoLostWakeup` shows that this is the only way to lose one.
* A resize that meets a buffer in a reader's hands hides the samples in it; the reader gets
  0 bytes.  `Witnesses.ResizeHidesSample` is such a run; `Theorems.SamplesAccounted` shows
  that samples vanish if and only if that happens, and `Theorems.DeliveriesGenuine` that a
  reader then gets nothing and otherwise all it has room for.
* `que_enq` never wraps its tail: it can store behind the array, and a full ring can look
  empty.  `RingQueue.EnqIsFifo` and `RingQueue.RingMisbehaves` say exactly when.
* Register commands with more than 128 registers or an address of 64 and above spill into
  other fields of the command word; `ioctl_reg` lets up to 1024 pass.
  `Registers.RegCmdExact` gives the exact condition, `Registers.AddressWraps` and
  `Registers.CountSpills` what the device understands instead.
* The repository's README.md:169-173 gives `struct ads_ioctl_reg` 8-bit address and count;
  the header (ads131m08_ioctl.h:24-29) has 16-bit ones.  The model follows the header for
  the count and the 8-bit parameter of `ads131m08_reg_read` for the address.

## Model

| member | source | states |
|---|---|---|
| `Theorems.BuffersConserved` | ads131m08_data.c:175-248 | With one control call at a time, and a resize between any two steps: in every reachable state each of the eight chunk buffers is in exactly one place (free, active or ready list, IRQ thread, one reader, cleanup loop) and on the lists at most once, so no success or failure path loses or doubles one |
| `Theorems.TransfersConserved` | ads131m08_spi.c:70-99 | With one control call at a time, and a resize between any two steps: each of the eight transfer buffers is in the pool or with exactly one of IRQ thread and control call, and the pool is never empty where one is asked for |
| `Theorems.IndexBounds` | ads131m08_data.c:108-127 | With a resize between any two steps: chunk size in 1..320, every slot about to be written below 320, every copy at most 320 samples and at most the caller's count |
| `Theorems.StartStopHolds` | ads131m08_data.c:52-91 | After every return of a control call, whichever step failed: RUN if and only if the interrupt is registered; STOP implies ready and active lists empty and no IRQ thread; a closed device is stopped |
| `Theorems.StoppedMeansFree` | ads131m08_data.c:289-297 | Stopped and without readers, every chunk and transfer buffer is back on its free list and every frame ever read has been fetched: no leak over any number of sessions |
| `Theorems.FramesAdjacent` | ads131m08_spi.c:233-263 | On the bus, a command frame that succeeded and is not the last of its command is followed at once by the next frame of that command, and only there; in between the interrupt is unregistered and its thread idle |
| `Theorems.LocationsAgree` | ads131m08_data.c:193-248 | A buffer on the free list is FREE, empty, without transfer; on the active list ACTIVE and below its size; on the ready list READY and exactly full; at most one buffer is being filled |
| `Theorems.StreamOrder` | ads131m08_data.c:187-248 | In any interleaving, the chunks fetched so far, in fetch order, then the ready list, then the buffer being filled, are exactly the frames read so far, in order; a reader's chunk has exactly chunk_sz samples |
| `Theorems.SessionOrder` | ads131m08_data.c:52-91 | The same from the moment a session set RUN: what its readers fetched is a prefix of what that session read, with nothing of an earlier one, and only readers fetch while it runs |
| `Theorems.DeliveriesGenuine` | ads131m08_iface.c:126-135 | Every successful copy is a chunk fetched from the ready list, up to the caller's count, or nothing at all; nothing only once a resize has met a buffer in a reader's hands |
| `Theorems.SamplesAccounted` | ads131m08_iface.c:126-135 | Frames stored = delivered + cut off + lost in failed copies + discarded by the cleanup + hidden by a resize + still held; the delivered and discarded counts are the sums over the logs of deliveries and of swept chunks, and without such resizes so are those of samples cut off and lost; samples are hidden, or about to be, if and only if a resize has met a buffer in a reader's hands |
| `Theorems.RunsAccounted` | ads131m08_data.c:187-222 | DRDY edges served = frames stored + failed transfers + drops |
| `Theorems.DropsOnlyAtSaturation` | ads131m08_data.c:193-205 | The IRQ thread turns to the drop branch if and only if every buffer is on the ready list or with a reader; drop_cnt grows by one there and nowhere else |
| `Progress.IrqThreadEnds` | ads131m08_data.c:187-222 | From any state, whatever the other threads do, the IRQ thread makes at most StepsLeft steps, 12 from the start, before it is idle, as long as no new edge is served; so waiting for it in free_irq ends |
| `Progress.OthersLeaveIrq` | ads131m08_data.c:187-222 | No step of another thread moves the IRQ thread |
| `BusLog.IrqWords` | ads131m08_spi.c:312-357 | A step of the IRQ thread puts no command word on the bus |
| `Progress.ReadEnds` | ads131m08_iface.c:108-135 | While the device stays stopped, and whatever the other threads do, a call of read makes at most TurnsLeft steps, 9 from its sleep, before it has returned |
| `Progress.StoppedReadGoesOn` | ads131m08_iface.c:108-124 | On a stopped device with no control call under way, a call of read can always take its next step, unless an interrupt request was refused while a caller slept |
| `Theorems.NoLostWakeup` | ads131m08_iface.c:108-124 | In a run, no caller ever sleeps on a true condition without a wake-up on its way, if and only if no interrupt request is refused while a caller sleeps |
| `Witnesses.RefusalStrandsReader` | ads131m08_data.c:64-69 | A concrete run: WAKEUP, one reader going to sleep, a refused interrupt request; the reader is left asleep on a stopped device with nobody to wake it |
| `Witnesses.ResizeHidesSample` | ads131m08_data.c:118-125 | A concrete run: chunk size 1, WAKEUP, one sample, a reader that has fetched it, STANDBY, chunk size 1 again; the reader has room for a sample and is handed none |
| `Theorems.DeliveredOnce` | ads131m08_iface.c:118-135 | For any number of readers, and a resize between any two steps: every chunk a reader fetched is delivered, lost in a failed copy or still in a reader's hands, exactly once each |
| `Theorems.ReadersInOrder` | ads131m08_iface.c:118-135 | For every one of any number of readers, and a resize between any two steps: the chunks it was done with, then the one in its hands, are the chunks it took, in that order; delivered to it were exactly those whose copy succeeded; and all takes together are the fetches in the order of the stream |
| `Completeness.CallerGetsAll` | ads131m08_iface.c:126-135 | A caller none of whose copies failed and that always had room has received, sample for sample and in order, all it took but the chunk in its hands, as long as no resize met a reader |
| `Completeness.TakesAreTheStream` | ads131m08_data.c:187-248 | As long as the cleanup has thrown nothing away, the chunks taken, end to end, and what is pending are all the frames ever read, in order |
| `Completeness.WholeStream` | ads131m08_iface.c:118-135 | One caller, no failed copy, always room, nothing thrown away, no resize while it held a chunk: what it received, holds and what is pending are all the frames ever read, in order and complete |
| `Completeness.TakesAreTheSession` | ads131m08_data.c:52-91 | While a session runs, the chunks taken since it began, end to end, and what is pending are all the frames it has read, in order |
| `Completeness.WholeSession` | ads131m08_iface.c:118-135 | One caller, no failed copy, always room, no resize while it held a chunk: what it received, holds and what is pending are its chunks of earlier sessions and then all the frames of this one, in order and complete |
| `Provenance.TimestampPairing` | ads131m08_data.c:207-228 | Every delivered sample pairs the clock of one DRDY edge with the eight channel values, each from its own three bytes behind the status word, of the successful transfer that followed it with no other edge in between, also when failed transfers left stamps in reused slots |
| `Provenance.FramesHaveEdges` | ads131m08_data.c:211-228 | The same for every frame read, and the edge being served is always the latest one |
| `Theorems.RunBase` | ads131m08_data.c:299-337 | Conservation and bounds hold after every run from initialisation, with one control call at a time and a resize between any two steps |
| `Theorems.RunInv` | ads131m08_data.c:299-337 | The whole invariant (protocol, locations, order, chunks, accounts, bus) holds after every run in which resizes too wait for their turn |
| `Theorems.StepBase` | ads131m08_data.c:108-248 | Any one step, a resize out of turn included, keeps conservation, the transfer record and the bounds |
| `Theorems.StepInv` | ads131m08_data.c:52-248 | Any one step but a stray resize keeps the whole invariant |
| `Theorems.InitBase` | ads131m08_data.c:299-337 | After initialisation all buffers are free and in bounds |
| `Theorems.InitInv` | ads131m08_data.c:299-337 | The invariant, and the wake-up invariant, hold after initialisation |
| `Theorems.StrandForgets` | ads131m08_data.c:64-69 | The refused-request step always leaves a sleeping reader forgotten |
| `Conservation.StepConserves` | ads131m08_data.c:175-248 | One step of any thread keeps every chunk buffer in exactly one place |
| `Conservation.StepPool` | ads131m08_spi.c:181-217 | One step of any thread keeps every transfer buffer with exactly one holder |
| `Conservation.PoolSuffices` | ads131m08_spi.c:181-186 | With IRQ thread and control call holding at most one each, a request finds a transfer buffer |
| `Conservation.StepRecords` | ads131m08_spi.c:341-355 | The transfer recorded in the buffer being filled stays the one in progress, whatever the other threads do |
| `Conservation.IrqWrites` | ads131m08_data.c:207-220 | The IRQ thread writes to no chunk buffer but the one it holds |
| `Conservation.ReadWrites` | ads131m08_iface.c:126-135 | A caller of read writes to no chunk buffer but the one it holds |
| `Conservation.CtlWrites` | ads131m08_data.c:108-127 | A control call writes to buffers it does not hold only in a resize, and then only size and fill level |
| `Bounds.StepBounded` | ads131m08_data.c:108-173 | One step keeps fill levels within the buffer's size and leaves room in every buffer that can be filled next, a resize at any moment included |
| `Bounds.BumpBounded` | ads131m08_spi.c:297-304 | Counting a sample keeps the fill level within the size and marks the buffer before it could overflow |
| `Bounds.ClearBounded` | ads131m08_data.c:118-125 | A resize of any buffer at any time leaves room in it and disturbs no other |
| `StartStop.StepProtocol` | ads131m08_data.c:52-91 | One step keeps the relation of run_stat, registration, lists and thread that belongs to the current point of run_cmd |
| `StartStop.SwitchProtocol` | ads131m08_data.c:52-91 | Each change of run_stat or of the registration leads to the relation that belongs to the next point, on the success and the failure branches |
| `BusLog.StepBus` | ads131m08_spi.c:233-263 | One step keeps the bus log free of anything between two frames of a command |
| `BusLog.IrqBus` | ads131m08_iface.c:276-277 | The IRQ thread sends only when no command has frames left, because the gate lets commands through on a stopped device only |
| `Wakeups.StepWakes` | ads131m08_iface.c:108-124 | One step keeps every sleeper's wake-up pending if and only if it is not a refused interrupt request with a caller asleep |
| `Wakeups.IrqWakes` | ads131m08_data.c:175-179 | No step of the IRQ thread loses a wake-up: a buffer appended to the ready list leaves one pending, and delivering it wakes everyone |
| `Wakeups.AllWoken` | ads131m08_data.c:175-179 | A wake-up reaches everyone on the wait queue, asleep or still testing the condition, changes nobody else, and leaves no sleeper forgotten |
| `Locations.StepLocated` | ads131m08_data.c:193-248 | One step keeps the fields of every buffer in agreement with where it is |
| `Stream.StepInOrder` | ads131m08_data.c:187-248 | One step keeps fetched chunks, ready list, active buffer and frame in flight equal to the frames read, in order |
| `Stream.StepStamped` | ads131m08_data.c:211-213 | One step keeps the stamp of the edge being served in the slot being filled |
| `Stream.ArriveInOrder` | ads131m08_spi.c:345-355 | A received frame is at once the last of the stream |
| `Reading.StepChunks` | ads131m08_iface.c:118-135 | One step keeps every reader's chunk intact in its buffer until it is copied |
| `Reading.ReadyIsFull` | ads131m08_spi.c:299-307 | A buffer on the ready list holds exactly chunk_sz samples |
| `Turns.StepTurns` | ads131m08_iface.c:118-135 | One step, a resize out of turn included, keeps every reader's endings in the order of its takes, and every fetch with exactly one fate |
| `Turns.TurnEnds` | ads131m08_iface.c:126-135 | When a reader is done with a chunk, the order of its endings and the one fate of every fetch are kept, whether the copy succeeded or not |
| `Ledger.StepLedger` | ads131m08_iface.c:126-135 | One step keeps the counters equal to the sums over their logs, and every resize that met a reader visible |
| `Ledger.SizeLedger` | ads131m08_data.c:118-125 | A resize that empties a buffer in a reader's hands is counted, and the reader will find it empty |
| `Ledger.CopyLedger` | ads131m08_iface.c:130-133 | A copy, successful or not, keeps the counters equal to the sums over their logs |
| `Accounting.StepFates` | ads131m08_iface.c:126-135 | One step keeps fetched samples equal to the sum of their fates |
| `Accounting.StepRuns` | ads131m08_data.c:193-222 | One step keeps the count of runs equal to stored, failed, dropped and the one undecided |
| `Accounting.StepSession` | ads131m08_data.c:61-62 | One step keeps everything fetched before the session mark equal to everything read before it |
| `Accounting.FetchFreeSaturated` | ads131m08_data.c:193-199 | With nothing on the active list, the free list is empty if and only if the readers have every buffer |
| `Pipeline.FetchStep` | ads131m08_data.c:193-205 | Fetching touches only the free and active lists, drop_cnt and the bus |
| `Pipeline.StampStep` | ads131m08_data.c:207-215 | Stamping touches only the held buffer and the transfer pool |
| `Pipeline.FillStep` | ads131m08_spi.c:268-357 | Transfer and completion touch only the held buffer and the transfer pool, and add to the frames read |
| `Pipeline.HandStep` | ads131m08_data.c:175-184 | Handing on touches only the active and ready lists and the wait queue |
| `Pipeline.WaitTo` | ads131m08_iface.c:108-124 | A waiting caller goes on waiting, goes to fetch, or returns |
| `Pipeline.GrabStep` | ads131m08_data.c:230-233 | Fetching by a reader touches only the ready list |
| `Pipeline.DeliverStep` | ads131m08_iface.c:126-135 | Delivering touches only the held buffer and the free list |
| `Pipeline.GateTo` | ads131m08_iface.c:260-313 | On a running device the gate lets nothing through that sends frames or changes sizes; elsewhere each command starts at its first frame |
| `Pipeline.SizeGateTo` | ads131m08_iface.c:221-232 | A resize starts only on a stopped device, with a size in 1..320 |
| `Pipeline.ToInt32` | ads131m08_iface.c:229 | An unsigned long as int: within -2^31..2^31-1 and different by a multiple of 2^32; spelled out below 2^32 |
| `Pipeline.SwitchStep` | ads131m08_data.c:52-91 | Switching touches run_stat and the registration and no list |
| `Pipeline.SweepStep` | ads131m08_data.c:289-297 | The cleanup touches the three lists, the held buffer and the wait queue, not run_stat or the registration |
| `Pipeline.CommandStep` | ads131m08_spi.c:159-218 | A command frame touches the transfer pool and the bus only |
| `Pipeline.SizeStep` | ads131m08_data.c:108-127 | A resize touches the buffers and the published size only |
| `Pipeline.AfterFrame` | ads131m08_data.c:71-88 | A frame is followed by the next one, by the end of the command, or by the failure path of WAKEUP and the cleanup of STANDBY |
| `Driver.Driver.constructor` | ads131m08_data.c:299-337 | Initialisation: all eight buffers on the free list, device stopped; the fields are those of the empty run |
| `Driver.Driver.Isr` | ads131m08_data.c:224-228 | Stores the clock of the edge and starts the thread |
| `Driver.Driver.IrqThread` | ads131m08_data.c:187-222 | Each run is exactly one of stored, failed, dropped: one frame with the stamp of its edge and nothing else counted, or one failure on a failed transfer, or one drop, and then there was a moment at which every buffer was ready or with a reader. In a stored frame, channel k (0 to 7) is the sign-extended number in bytes 3(k+1) to 3(k+1)+2 of the transfer, behind the status word |
| `Driver.Driver.ReadInto` | ads131m08_data.c:207-221 | With a buffer in hand: stored on a good transfer, each channel from its own three bytes behind the status word, counted as failed otherwise; in both cases the buffer came to the end of the active or of the ready list |
| `Driver.Driver.FetchBuf` | ads131m08_data.c:193-197 | The head of the active list if there is one, else a buffer that was the head of the free list at some moment of the call; none only if at some moment every buffer was ready or with a reader |
| `Driver.Driver.Drop` | ads131m08_data.c:197-205 | One drop is counted and nothing else |
| `Driver.Driver.StampSlot` | ads131m08_data.c:207-213 | When the transfer begins, the buffer is marked ACTIVE and the slot to be filled carries the clock of the edge |
| `Driver.Driver.SmplDataGet` | ads131m08_data.c:160-173 | The slot is the fill level at that moment, always inside the array |
| `Driver.Driver.ReadData` | ads131m08_spi.c:312-357 | The error of a failed transfer with the buffer still in hand, or 0 with the frame stored, each channel from its own three bytes behind the status word, and the buffer at the end of one of the two lists; the transfer buffer is back in both cases |
| `Driver.Driver.GetXferBuf` | ads131m08_spi.c:90-93 | Always finds a transfer buffer, and the chunk buffer records it |
| `Driver.Driver.XferComplete` | ads131m08_spi.c:268-310 | The transfer is always there; afterwards it is back in the pool, the chunk buffer came to the end of the active or of the ready list, and the thread is done |
| `Driver.Driver.CountSample` | ads131m08_spi.c:297-304 | The buffer is full exactly if one more sample reaches its size, and goes to the ready list then, else to the active list |
| `Driver.Driver.ChunkBufActive` | ads131m08_data.c:181-184 | The buffer came to the end of the active list, and the run is over |
| `Driver.Driver.ChunkBufReady` | ads131m08_data.c:175-179 | The buffer came to the end of the ready list, then nobody was asleep without a wake-up, and the run is over |
| `Driver.Driver.Read` | ads131m08_iface.c:99-136 | -EINVAL exactly for a count below 40 bytes, one sample; -EINTR only when a signal met the caller asleep; -EFAULT only for a failed copy; otherwise the bytes of one new delivery of at most the count, or 0 if during the call the ready list was empty and the device was stopped. Still waiting only if the ready list was empty and the device ran at moments of the first turn, and every later turn either found that again or met the caller asleep (without a wake-up, or with one that ended the sleep) |
| `Driver.Driver.Attempt` | ads131m08_iface.c:108-135 | One turn of the loop. It ends without a result only if at moments of it the ready list was empty and the device ran; with 0 only if the ready list was empty and the device stopped; else with a fault or a delivery |
| `Driver.Driver.OneTurn` | ads131m08_iface.c:108-135 | One turn that may begin asleep: -EINTR exactly if a signal meets a sleeper; without a signal, a sleeper sleeps on exactly if it had no wake-up when the turn began, and otherwise looks again in the next turn |
| `Driver.Driver.SleepOn` | ads131m08_iface.c:109-111 | A sleeper goes on exactly if it had been woken |
| `Driver.Driver.TestReady` | ads131m08_iface.c:110 | Goes on to fetch exactly if the ready list is not empty |
| `Driver.Driver.TestStop` | ads131m08_iface.c:111 | Goes on to fetch exactly if the device is stopped, else sleeps |
| `Driver.Driver.WaitForData` | ads131m08_iface.c:109-111 | Goes on to fetch, or sleeps, and sleeps only after the ready list was empty and then the device ran, both at moments of the call |
| `Driver.Driver.DataGet` | ads131m08_data.c:230-233 | The head of the ready list is in the caller's hands, or the list was empty |
| `Driver.Driver.StopOrRetry` | ads131m08_iface.c:118-124 | Gives up exactly on a device that is stopped, else waits again |
| `Driver.Driver.ReadOut` | ads131m08_iface.c:126-135 | -EFAULT on a failed copy, otherwise the bytes of a new delivery from the chunk in hand; in both cases the buffer came to the end of the free list, empty |
| `Driver.Driver.CopyToUser` | ads131m08_iface.c:130-133 | The return value is the number of bytes of the delivery just made |
| `Driver.Driver.DataReturn` | ads131m08_data.c:235-248 | The buffer came to the end of the free list, marked FREE, empty and without transfer, and the caller is left with none |
| `Driver.Driver.CleanupList` | ads131m08_data.c:294-295 | Ends, with the ready list empty and after the second call the active list too, while readers go on fetching; run_stat, registration and size untouched |
| `Driver.Driver.Cleanup` | ads131m08_data.c:289-297 | Both lists are empty and the readers have been woken, in every use of it |
| `Driver.Driver.AdcTrx` | ads131m08_spi.c:181-217 | The error of the transfer or 0; one frame with its command word goes out; the control call holds no transfer buffer afterwards |
| `Driver.Driver.Command` | ads131m08_spi.c:380-415 | The command words of the frames go out up to the first that fails; the result is the error of that one, else 0 |
| `Driver.Driver.GpioSetIrq` | ads131m08_gpio.c:49-72 | Registered exactly when it returns 0 |
| `Driver.Driver.GpioClrIrq` | ads131m08_gpio.c:74-80 | Waits for the thread, which ends whatever its transfers bring, and then the interrupt is not registered |
| `Driver.Driver.RunCmd` | ads131m08_data.c:52-91 | 0 if already there, else the first error of interrupt request and frame, or 0; running exactly after a start that returns 0; RUN if and only if registered; stopped means nothing queued; a stop sends 0x0022, a start 0x0033 once the interrupt is granted, and a call that is already there nothing |
| `Driver.Driver.Start` | ads131m08_data.c:59-79 | Returns the first error of interrupt request and WAKEUP, or 0, and runs exactly when it returns 0; sends 0x0033, or nothing if the request is refused |
| `Driver.Driver.WakeUp` | ads131m08_data.c:71-78 | With the interrupt registered: sends 0x0033; running exactly when that succeeds, else the start is undone |
| `Driver.Driver.FileBuf` | ads131m08_spi.c:297-309 | The buffer came to the end of the active or of the ready list, and the run is over |
| `Driver.Driver.UndoStart` | ads131m08_data.c:71-78 | A failed WAKEUP ends stopped, unregistered, with nothing queued and with the error of WAKEUP |
| `Driver.Driver.Stop` | ads131m08_data.c:80-88 | Stopped whatever STANDBY answered, which is what it returns; sends 0x0022 and nothing else |
| `Driver.Driver.ResizeChunkBuf` | ads131m08_data.c:108-127 | Every buffer has the new size, and so has the published value |
| `Driver.Driver.ChunkSz` | ads131m08_iface.c:221-232 | 1 to 320 is set and returned; 321 to 2^31-1 gives 320; 0 and 2^31 to 2^32-1, which are 0 or below as a 32-bit int, return the old size unchanged; nothing is sent |
| `Driver.Driver.NewSize` | ads131m08_iface.c:221-232 | For each range of the argument, the size it leads to |
| `Driver.Driver.IoctlCall` | ads131m08_iface.c:272-313 | While running everything but STANDBY and STAT gets -16, keeps state and size and sends nothing; every command let through has the result, run_stat and size of its branch, register commands the error of the copy or of the first frame that failed, and puts exactly its command words on the bus, up to the first frame that fails; afterwards RUN if and only if registered, and all buffers have the published size |
| `Driver.Driver.TestGate` | ads131m08_iface.c:276-277 | Busy exactly on a running device and a command other than STANDBY and STAT |
| `Driver.Driver.Stat` | ads131m08_iface.c:245-258 | 0 and 1, as a 32-bit int, stop and start, with the result of that; any other number, so 2 to 2^32-1, returns run_stat, changes nothing and sends nothing |
| `Driver.Driver.SendCommand` | ads131m08_iface.c:281-298 | The error of the first frame that fails, or of the copied arguments, else 0; RESET sends 0x0011, 0x0000 and 0x0022, LOCK 0x0555, UNLOCK 0x0655, RREG 0xA000 and 0x0000, WREG 0x6000 and 0x0000, up to the first failure; state and size untouched |
| `Driver.Driver.Strobe` | ads131m08_spi.c:380-391 | One frame with the command word goes out; its error, or 0 |
| `Driver.Driver.Reset` | ads131m08_iface.c:234-243 | 0x0011, 0x0000 and 0x0022 go out up to the first that fails; the error of that one, else 0 |
| `Driver.Driver.RegisterCommand` | ads131m08_iface.c:153-209 | The error of the copied arguments with nothing sent; else the command word and 0x0000 up to the first frame that fails, with its error or 0 |
| `Driver.Driver.StartIrq` | ads131m08_data.c:62-78 | A refused request ends stopped with its error; else the result of WAKEUP; running exactly on 0 |
| `Driver.Driver.Dispatch` | ads131m08_iface.c:279-312 | For each of the ten cases: result, run_stat, chunk size, and the command words that go out |
| `Driver.Driver.ReleaseFile` | ads131m08_iface.c:87-92 | Whatever fails on the way, the closed device is stopped, unregistered, with every chunk and transfer buffer free; 0x0022 goes out exactly if it ran |
| `Driver.Driver.FetchForCleanup` | list.c:108-132 | The head of the list in the cleanup's hands, or the list found empty; a list being swept gets no longer |
| `Driver.Driver.FrameLogged` | ads131m08_spi.c:290-293 | A frame stored with the channel values of a transfer has each of them from its own three bytes |
| `Driver.OneOwner` | ads131m08_data.c:187-248 | But for a resize out of turn, each step of the system belongs to exactly one thread, so what a method knows after Yield is what no other thread can change |
| `IntrusiveList.List.constructor` | list.c:310-323 | An empty, well-formed list |
| `IntrusiveList.Append` | list.c:15-40 | The sequence grows by the element at the end; links mutually inverse, head, tail, count and parent right |
| `IntrusiveList.Insert` | list.c:42-78 | The element comes right behind the given one, or first without one, or alone in an empty list, and its prev is the given one; links, ends, count and parent right |
| `IntrusiveList.Fetch` | list.c:108-132 | The first element is returned with its links cleared and the rest remains; NULL from an empty list |
| `IntrusiveList.DelElm` | list.c:197-232 | Exactly that element leaves its list, wherever it stood, with its links cleared; it is passed to kfree exactly if asked, on a list or not |
| `IntrusiveList.Unlink` | list.c:213-228 | Exactly that member leaves, its neighbours become neighbours, and its own links are cleared |
| `IntrusiveList.Search` | list.c:134-152 | The first element that matches, or NULL when none does |
| `IntrusiveList.GetIdx` | list.c:154-172 | The element at that position, NULL outside 0..count-1 |
| `IntrusiveList.InsertSort` | list.c:80-106 | The element lands where the tail test and the scan say |
| `IntrusiveList.ShortcutAgrees` | list.c:87-93 | On any list, the tail shortcut gives the position of the full scan if and only if the list is empty, or its last element has to come after the new one, or none has |
| `IntrusiveList.InsertKeepsSorted` | list.c:80-106 | On a list sorted by a strict weak order: the shortcut agrees with the scan, the result is sorted, has the new element in addition, and behind its equals |
| `IntrusiveList.AfterIsSuffix` | list.c:95-103 | On a sorted list, the scan stops exactly between the elements that may precede the new one and those that may not |
| `IntrusiveList.Drain` | list.c:255-266 | With any callback that leaves the list alone, freeing included: it is called once for each element, in order, with links cleared, and the list is empty afterwards |
| `IntrusiveList.DrainTo` | list.c:255-266 | With a callback that appends to another list: ends, the list is empty, and everything is on the other list in order |
| `IntrusiveList.HandOn` | list.c:264-265 | One turn hands one element on and fetches the next |
| `IntrusiveList.MoveBeside` | list.c:108-132 | Moving one or all elements between two lists leaves every disjoint list well-formed and unchanged |
| `IntrusiveList.IterDo` | list.c:234-253 | Every element is visited once, in order; the list is empty afterwards while its former members keep parent and links |
| `Codec.Word2Frame` | ads131m08_spi.c:113-124 | Each word becomes upper, lower, zero; bytes outside are untouched |
| `Codec.Frame2Word` | ads131m08_spi.c:126-138 | Each word is rebuilt from the first two bytes of its three; words outside are untouched |
| `Codec.Frame2Long` | ads131m08_spi.c:140-157 | Each value is the sign-extended 24-bit number of its three bytes; values outside are untouched |
| `Codec.WordsToFrameAt` | ads131m08_spi.c:117-122 | Where the two bytes and the padding of each word lie in the frame |
| `Codec.FrameToWordsAt` | ads131m08_spi.c:131-136 | Which two bytes each word comes from |
| `Codec.WordRoundTrip` | ads131m08_spi.c:113-138 | frame2word undoes word2frame, for every array of words and whatever follows in the frame |
| `Codec.LongBijection` | ads131m08_spi.c:149-153 | frame2long on three bytes is a bijection onto -2^23..2^23-1 |
| `Codec.LongRoundTrip` | ads131m08_spi.c:140-157 | Values packed as 24-bit two's complement are read back unchanged, whatever follows |
| `Codec.LongFrameRoundTrip` | ads131m08_spi.c:140-157 | The frame can be rebuilt from the values read: no two frames give the same values |
| `Codec.FrameToLongsAt` | ads131m08_spi.c:144-156 | Which three bytes each value comes from |
| `Codec.ChannelsCarried` | ads131m08_spi.c:290-293 | Channel k is the number in bytes 3(k+1) to 3(k+1)+2 of the frame; the status word is skipped |
| `Codec.ChannelsRoundTrip` | ads131m08_spi.c:290-293 | A device frame of status word, eight values and checksum word is read as exactly those eight values |
| `Codec.WordsToFrameConcat` | ads131m08_spi.c:193-195 | Packing the command and then the words is packing them together |
| `Registers.BitOrDisjoint` | ads131m08_spi.c:238 | The C operator \| is addition where the operands share no bit |
| `Registers.RegCmdExact` | ads131m08_spi.c:238-256 | Address and count reach the device as meant if and only if address < 64 and count <= 128, for reads and for writes |
| `Registers.AddressWraps` | ads131m08_spi.c:238-256 | Addresses 64 to 127 are taken for 0 to 63, for reads and for writes |
| `Registers.CountSpills` | ads131m08_spi.c:238-256 | From an even address, a count of 129 to 256 is taken for one that is 128 smaller and begins a register later |
| `Registers.JoinWordIsOr` | ads131m08_spi.c:133-134 | The shift and the or of frame2word give the word used in the model |
| `Registers.JoinLongIsOr` | ads131m08_spi.c:149-154 | The shifts, ors and sign bits of frame2long, read as a 32-bit number, give the value used in the model |
| `Registers.FrameWords` | ads131m08_spi.c:190-195 | The device finds the command first and then the words |
| `Registers.FrameIs` | ads131m08_spi.c:171-195 | Length and every byte of a frame: command, words, zeros |
| `Registers.FrameFits` | ads131m08_spi.c:176-179 | A frame fits the buffers if and only if at most 680 words go out and at most 680 come in |
| `Registers.ReadBackIs` | ads131m08_spi.c:233-249 | Reading returns the registers, in the one-register form and in the other |
| `Registers.WriteIs` | ads131m08_spi.c:251-263 | Writing changes the addressed registers as given and no others |
| `Registers.RegisterRoundTrip` | ads131m08_spi.c:233-263 | What was written is read back, for every start and every non-empty run of registers within the 64, and the other registers are untouched |
| `SpiBus.Spi.FillFrame` | ads131m08_spi.c:188-195 | Byte by byte: the frame has 3 bytes if it carries nothing, else room for the command, the longer of what goes out and what comes in, and one word more; command and words as upper, lower, zero; all other bytes zero; every access inside the buffer |
| `SpiBus.Spi.Exchange` | ads131m08_spi.c:201-204 | On success the device has taken the frame and its reply is in the receive buffer |
| `SpiBus.Spi.AdcTrx` | ads131m08_spi.c:159-218 | -EINVAL exactly for more than 680 words either way, -ENOMEM without a buffer, both before anything is sent; the transfer's error; or 0 with exactly that frame sent, of the right length and with the right bytes in every place, the status word and the words behind it; the caller's array changes only on success and only where asked; the transfer buffer is back on every path |
| `SpiBus.Spi.Listen` | ads131m08_spi.c:210-214 | The first word is the status, the following ones the answer |
| `SpiBus.Spi.RegRead` | ads131m08_spi.c:233-249 | 0 if and only if both frames succeed, a buffer was there and at most 680 registers are asked for, and then the registers; the first frame sent has exactly 30 bytes, the second room for the answer; more than 680 give -EINVAL; on failure the caller's array is unchanged; no transfer buffer lost |
| `SpiBus.Spi.RegWrite` | ads131m08_spi.c:251-263 | 0 if and only if both frames succeed, a buffer was there and at most 680 registers are given, and then the device holds the registers; both frames byte by byte; more than 680 give -EINVAL and nothing is sent; no transfer buffer lost |
| `SpiBus.UsedConserves` | ads131m08_spi.c:95-99 | Up to two transfers leave the pool with the same buffers |
| `RingQueue.SizeInRange` | queue.c:36-52 | The size is in 0..q_sz, and full exactly at head = 0, tail = q_sz |
| `RingQueue.DeqIsFifo` | queue.c:93-125 | From every state with head below and tail at most q_sz, dequeue and peek agree with a FIFO |
| `RingQueue.EnqIsFifo` | queue.c:76-91 | Refused exactly when full; the store is inside the array and the ring stays well-formed exactly when full or tail < q_sz; then it agrees with append if and only if tail + 1 is not head, and else the queue reads as empty |
| `RingQueue.RingMisbehaves` | queue.c:76-91 | Short runs that reach a store behind the array, and a full ring that looks empty |
| `RingQueue.ApplyRefines` | queue.c:76-125 | One operation under the condition is one operation of a bounded FIFO |
| `RingQueue.GoodRunsAreFifo` | queue.c:76-125 | Every run that keeps the condition gives out exactly what a bounded FIFO gives out |
| `RingQueue.Queue.constructor` | queue.c:58-67 | An empty queue of that size |
| `RingQueue.Queue.CalcQueSz` | queue.c:36-46 | On every well-formed ring, the number of queued items |
| `RingQueue.Queue.Enq` | queue.c:76-91 | Accepts unless full; the ring stays well-formed if and only if the store is inside the array; and the item is appended if also tail + 1 is not head |
| `RingQueue.Queue.Deq` | queue.c:93-111 | Returns the oldest item, and the others stay in order; NULL from an empty queue |
| `RingQueue.Queue.Peek` | queue.c:113-125 | The oldest item, or NULL, and nothing changes |

## Left out

- Theorems.StartStopHolds: one control call at a time, like all results; overlapping calls of `run_cmd`, which takes no lock, are not part of this model.
- Theorems.TransfersConserved: one control call at a time; `adc_trx` takes its buffer before the bus lock, so overlapping calls can hold more than one between them.
- Theorems.RunBase: of overlapping control calls only a resize out of turn is modelled.
- Progress.IrqThreadEnds: the bound is in steps of the thread itself; that the scheduler runs it, and that an SPI transfer returns, is not modelled.
- Theorems.NoLostWakeup: speaks of the wait queue and its condition; signals end a wait, and fairness among woken readers is not modelled.
- Driver.Driver.Read: the waiting loop may go on for ever, so the method takes the number of its turns, one test of the condition or one look of a sleeper each; that a woken sleeper gets its turn is up to the scheduler.
- Driver.Driver.ReadOut: `copied` stands for the outcome of `copy_to_user`; a copy that fails half-way counts as failed as a whole.
- Driver.Driver.Command: only the command word and the outcome of each frame are carried; the word of a register command is recorded without address and count. Bytes and device are in SpiBus. A frame too long for the buffer counts as a failed frame on the recorded bus, though the source refuses it before the transfer.
- Driver.Driver.IoctlCall: the header and data copies of `ioctl_reg`, its allocation, its limit of 1024 and the cut of the address to 8 bits are one outcome `io`; a failed copy back to user space changes only the return value, which is not modelled.
- Driver.Driver.GpioSetIrq: a positive result of `request_threaded_irq` is not modelled; the kernel returns 0 or an error.
- Driver.Driver.GetXferBuf: in the pipeline the pool is a sequence; the list underneath is proved in IntrusiveList.
- Registers.RegisterRoundTrip: the device keeps every register as written; read-only, reserved and locked registers of the chip are not modelled.
- SpiBus.Spi.Exchange: after a failed transfer the device may be in any state.
- RingQueue.Queue.Enq: a store outside the array, which the source does not exclude, has no effect in the model but on `tail`.
- IntrusiveList.Append: requires that the element is not yet on that list, which the source leaves to its callers; an element still on another list would corrupt that one.
- IntrusiveList.Insert: requires the predecessor to be on the list, which the source leaves to its callers.
- IntrusiveList.InsertSort: the comparison depends on which elements are compared, not on the heap, and the walk is not interrupted by other threads.
- IntrusiveList.IterDo: the action sees the elements and does not change them.
- IntrusiveList.DelElm: what is passed to kfree is returned; freed memory itself is not modelled.
- IntrusiveList.Drain: a callback that changes the list being drained is not modelled.
- A store outside a chunk buffer's `data` has no effect in the model; Theorems.IndexBounds shows that there is none.
- Locks themselves, memory ordering, and lock nesting: each section is atomic.
- Null tests of global pointers (`spi_hdlr`, `ads131m08_data`) that can fail only outside probe and remove.
- Opening: only the `open_cnt` flag, as the precondition of the calls.
- `poll`, `write`, `/proc` output, `list_print`, the `adc_lock` helpers.
- Probe, remove, device registration, GPIO and clock set-up, delays, memory release.
- The test program, older variants of list.c, device tree files.
