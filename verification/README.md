# Verification model of the ATP Engine

The ATP Engine (AMBA Adaptive Traffic Profiles) is a discrete-event traffic simulator:
profiles generate and answer memory requests through rate-limited FIFOs, wait for each
other's events, and are driven either by an internal calendar queue or, as a gem5 device,
by a Linux driver. This project models its six stateful parts in Dafny and proves what
they keep over every run.

| part | files |
|---|---|
| shared definitions | `Basics.dfy` |
| FIFO rate accounting, reservations, retry prediction | `FifoRate.dfy`, `Fifo.dfy`, `FifoRetry.dfy` |
| Kronos calendar queue | `Kronos.dfy`, `KronosProofs.dfy`, `KronosOrder.dfy` |
| events, waits, termination and streams | `EventManager.dfy`, `Profiles.dfy`, `Halting.dfy`, `Streams.dfy`, `Manager.dfy`, `StreamRuns.dfy`, `LeafTests.dfy`, `Checkers.dfy` |
| address generation and stream windows | `PacketDesc.dfy` |
| master and slave transaction accounting | `Master.dfy`, `MasterRuns.dfy`, `MasterRetry.dfy`, `MastersAgree.dfy`, `Slave.dfy` |
| device, driver and port arbitration | `AtpDevice.dfy`, `AtpDriver.dfy`, `ProfileGen.dfy` |

Each object that the source updates in place is a class whose methods are proved against
functions on values; the properties of runs are lemmas about those functions. Time,
the answers of ports, the order of callers and interrupts, and what other profiles do are
inputs, so every statement is about all of them. The carry of a FIFO is an integer number
of 1e-8 bytes, the precision to which the source rounds it.

## What the proofs found

- The retry time of a FIFO and the independence of its accounting from how time is sliced
  hold exactly for the configurations in which `period` divides `rate * 1e8`; for every
  other one a failing run is constructed (`FifoRetry.RetryPromiseIffExact`,
  `FifoRate.SlicingIndependentIffExact`).
- `next()` of the calendar is right exactly if no bucket is masked: no earlier epoch, and no
  bucket before the cursor, hides behind a bucket of the cursor's epoch
  (`KronosProofs.NextRightIff`). A retrieval leaves due events behind, for some calendar,
  exactly when its time lies in a later epoch and at a later bucket than the cursor
  (`KronosProofs.AlwaysCompleteIff`).
- The event loop never loses or repeats an event, but it can lose their order: the retrieval
  moves the cursor on, and a tick or retry scheduled for the current time after that is behind
  it. The rounds of a run are on time exactly if none starts with a bucket masked
  (`KronosProofs.RunConserves`, `KronosProofs.RunOnTimeIff`, `KronosProofs.TickLeftBehind`).
- The driver's control code for a request in both directions is one the device rejects,
  although the comment in `gem5/atp_device.hh` says it means both (`AtpDriver.SubmittedIff`).
- Events of equal time are delivered last scheduled first (`KronosOrder.LastScheduledFirst`).
- The driver looks a request up, drops the lock, and then writes to it. Every completion
  reaches its own caller exactly if no such write hits another caller; that is so if no caller
  leaves in between, and otherwise a caller can return normally before its request completes
  (`AtpDriver.RunExactIff`, `AtpDriver.NoLeaveNoStrike`, `AtpDriver.WrongReturnHappens`).
- Testing only the leaves of a stream is sound, over all runs, if every profile of it leads to
  a leaf, cycles or not, or if what leads to its leaves can not all terminate. With TERMINATION
  waits only, the test is sound only then (`LeafTests.LeafTestSoundIff`). Profiles can all
  terminate exactly if there is an order for them, each after what it waits for, and each
  checker right after a master that it checks, but for checkers told before it
  (`LeafTests.CanAllEndIff`). Without checkers that means that none waits, directly or not, for
  a slave, a profile never created, a master without any limit, or a cycle of waits
  (`StreamRuns.WithoutCheckersIff`, `StreamRuns.StuckIff`).
- A stream searched late is as configured exactly if nobody is configured to wait for one of its
  terminated members (`StreamModel.SearchedAsConfiguredIff`); a cached one stays so exactly
  until a profile is created that waits for a member (`StreamRuns.GrownStreamIff`).
- A checker is never polled. It terminates exactly if the last profile it watches ends with
  a response whose checkers are still being told, and otherwise is never asked again
  (`CheckerRuns.CheckerEndsIff`, `CheckerRuns.EndsWithResponse`). So a checker of a delay
  never terminates, nor one that also watches something which waits for the master it checks
  and is no checker of it (`StreamRuns.CheckerNeeds`).
- A delay counts from a start of its own, which an activation from outside does not set; so
  one activated by an adapter can end early, or at once (`ManagerModel.OutsideActivationIff`).
- Waiting twice for the same event, as a checker does that also lists its checked profile,
  leaves a counter too high after every reset, and a master that does is locked for good
  (`EventModel.ResetCountedIff`, `EventModel.ExcessStays`, `ProfileModel.RepeatedWaitLocks`).
- A master that follows the status of two profiles is not halted when both are locked, and
  stays halted when the one that halted it terminates; with one it is right
  (`HaltModel.HaltKeptIff`, `HaltModel.StuckAfterTermination`).
- The generator hands out one address more per stride limited by a number of increments than
  the range calculator counts. The range suffices exactly if the furthest place lies below it;
  with strides as far apart as they are long it fails for exactly one full stride only
  (`PacketDescModel.CountedSufficesIff`, `PacketDescModel.SpacedStridesSufficeIff`).
- A descriptor whose window has been reconfigured hands out its first stride twice, since the
  stride counter starts at 0 there and at 1 after a reset (`PacketDescModel.SecondStride`).
- A FIFO without a maximum level grants everything; one that is filled at a rate reports an
  overrun for every byte, and holds nothing (`FifoModel.UnboundedGrants`,
  `FifoModel.UnboundedWriteOverruns`).
- A master's answer "one FIFO period later" for a profile that is neither active nor locked
  is never given (`MasterRuns.IdleMeansTerminated`).
- Resetting a master with transactions outstanding leaves their UIDs registered for ever, and
  a late response is then an error (`MasterRuns.AgreeIff`, `MasterRuns.ErrorIff`). The start
  time survives a reset, so a master reset without waits after its time to stop terminates
  with nothing sent (`MasterRuns.ResetTooLateIff`).
- A reset frees the packet that is pending and keeps the pointer to it. The packet is used
  after that exactly if the master is then polled while active, or reset again. A master
  with a stop time gets there even when it is only reset after it terminated; one without
  never does (`MasterRuns.MisusedIff`, `MasterRuns.StopMisuses`,
  `MasterRuns.NoStopNeverMisuses`).
- A slave that accepts a request of size 0 falls out of step with its FIFO
  (`SlaveModel.ReceiveKeepsLockstepIff`).

## Model

| member | source | states |
|---|---|---|
| FifoRate.AdvanceError | fifo.cc:195-233 | one update moves the prescribed rate*dt/period, carry included, up to half a unit of 1e-8 byte |
| FifoRate.DriftBound | fifo.cc:215-233 | after any k updates, bytes moved plus carry gained differ from rate*T/period by at most k/2 units of 1e-8 byte, and the carry stays below one byte |
| FifoRate.ExactRun | fifo.cc:215-233 | when period divides rate*1e8, any sequence of updates moves exactly floor(rate*T/period) bytes |
| FifoRate.TickBias | fifo.cc:221-222 | when it does not, one-unit updates are worth strictly too much or too little |
| FifoRate.BiasedSlicing | fifo.cc:221-222 | the witness: a slicing whose total differs from the floor |
| FifoRate.SlicingIndependentIffExact | fifo.cc:215-233 | what is moved depends only on the total time, for all slicings, if and only if period divides rate*1e8 |
| FifoModel.Fifo.constructor | fifo.cc:124-135 | takes kind, rate, period, start level and maximum level as given, and is otherwise as after a reset |
| FifoModel.Fifo.Reset | fifo.cc:29-44 | every running field returns to its configured start; the configuration stays |
| FifoModel.Fifo.TakeWholeBytes | fifo.cc:229-233 | the carry loop moves exactly the whole bytes out of the carry and leaves the fraction |
| FifoModel.Fifo.ServeRate | fifo.cc:215-233 | the loop of the update computes the same bytes and carry as the closed form |
| FifoModel.Fifo.Update | fifo.cc:188-262 | the first update only starts the clock; later ones drain (READ) or fill (WRITE), clamped at empty or full, with the underrun or overrun reported |
| FifoModel.Fifo.Move | fifo.cc:253-283 | the level falls (READ) or rises (WRITE) by the bytes, clamped at empty or full, and says so |
| FifoModel.Fifo.Send | fifo.cc:326-366 | grants exactly if the reservation fits, books it then, and otherwise answers the predicted time |
| FifoModel.Fifo.SettleOldest | fifo.cc:159-170 | the settling loop computes the recursive settling of the outstanding list, and whether a whole transaction left it |
| FifoModel.Fifo.Receive | fifo.cc:140-186 | books the arrival, clamped, before time advances; data without an outstanding transaction is reported |
| FifoModel.SettleOldestFirst | fifo.cc:159-170 | settling removes exactly the bytes given, oldest first: younger transactions are untouched and at most one is left in part |
| FifoModel.SettleWhole | fifo.cc:159-170 | a response of the oldest size settles exactly the oldest transaction |
| FifoModel.ArrivedBooksInFull | fifo.cc:147-170 | in a consistent bounded FIFO the clamps of a reception never take effect |
| FifoModel.SendKeepsConsistent | fifo.cc:326-366 | a send keeps the reservations: in-flight bytes are the sum of the outstanding list, and fit the room (READ) or the data (WRITE) |
| FifoModel.ReceiveKeepsConsistent | fifo.cc:140-186 | so does a reception of no more than is outstanding, and it is never unexpected |
| FifoModel.ReservationInvariant | fifo.cc:140-366 | the same at every state of every interleaving of sends, receptions and their updates |
| FifoModel.UnboundedGrants | fifo.cc:340-366 | a FIFO without a maximum level grants every request, of any size at any time after any run, of both kinds, and books it |
| FifoModel.UnboundedBooksInFull | fifo.cc:147-170 | what it reads is booked in full when it arrives; what it writes is taken from what there is |
| FifoModel.UnboundedWriteOverruns | fifo.cc:243-255 | filled at a rate it holds nothing: every byte is an overrun |
| FifoModel.UpdateReports | fifo.cc:228-255 | an underrun is reported exactly if the reader asks for more than there is, an overrun exactly if the writer offers more than there is room for |
| FifoModel.ArrivalCounts | fifo.cc:140-186 | data that arrive, and the room they leave, count for the whole interval up to their arrival |
| FifoModel.LinkedWaits | fifo.cc:198-214 | a linked FIFO stays inactive after its first activation; any other is activated by an update |
| FifoModel.ResetIsFresh | fifo.cc:29-44 | a reset leaves what the configuration would, but for the link |
| FifoRetry.ForecastBelowRate | fifo.cc:301-318 | the bytes forecast up to the base time are fewer than rate, so the unsigned numerator never wraps |
| FifoRetry.PollsOnGrid | fifo.cc:188-262 | over denied polls the deficit of a request falls exactly by the bytes of the elapsed time, down to its floor |
| FifoRetry.PollsThenRequest | fifo.cc:188-366 | after denied polls a request is granted exactly when the elapsed bytes cover its deficit and it can be served at all |
| FifoRetry.PredictionMeaning | fifo.cc:301-324 | the predicted time is late enough, and nothing a period and a unit before it is |
| FifoRetry.ExactKeepsPromise | fifo.cc:301-366 | with exact rounding a denied request is told 0 exactly when waiting cannot help, is granted from the told time on, and denied up to a period before it |
| FifoRetry.InexactBreaksPromise | fifo.cc:216-233 | without, a run exists in which the promise fails: denied at the told time, or granted too early |
| FifoRetry.RetryPromiseIffExact | fifo.cc:301-366 | the retry promise of a configuration holds over all runs if and only if period divides rate*1e8 |
| KronosModel.Kronos.Init | kronos.cc:23-34 | an empty wheel of length/width buckets |
| KronosModel.Kronos.InsertAt | kronos.cc:49-57 | the position search puts an event in front of the first one that is not earlier |
| KronosModel.Kronos.Schedule | kronos.cc:39-71 | the event joins the bucket of its time; the counter counts it; nothing happens before initialisation |
| KronosModel.Kronos.SweepBuckets | kronos.cc:99-112 | the sweeping loop pops the due events of every visited bucket, in order of visit |
| KronosModel.Kronos.SkipEmpty | kronos.cc:117-128 | the loop over empty buckets ends, because a positive counter means a non-empty bucket within one turn |
| KronosModel.Kronos.Get | kronos.cc:73-135 | takes the due events of the visited buckets, keeps the counter equal to what is pending, and moves the cursor |
| KronosModel.Kronos.SearchFronts | kronos.cc:144-168 | the scan returns the first front of the current epoch, else the least of the other fronts |
| KronosModel.Kronos.Next | kronos.cc:137-180 | returns that time, or 0 when nothing is pending |
| KronosModel.SomeNonEmpty | kronos.cc:117-128 | a wheel with an event has a non-empty bucket within one turn of any position |
| KronosModel.ScheduleContents | kronos.cc:39-71 | scheduling adds exactly the event to the multiset of pending ones |
| KronosOrder.ScheduleInFront | kronos.cc:49-57 | a new event goes in front of the pending ones of its time; the order at other times stays |
| KronosOrder.GetKeepsOrder | kronos.cc:73-112 | events of equal time are delivered in the order in which they are pending, the rest stays in that order |
| KronosOrder.LastScheduledFirst | kronos.cc:39-112 | so of two events of the same time the one scheduled later is delivered first |
| KronosProofs.NextRightIff | kronos.cc:137-180 | for any calendar, wherever its cursor: next() is the minimum pending time if and only if no bucket is masked, a test of the bucket fronts |
| KronosProofs.NextIsEarliest | kronos.cc:137-180 | under the cursor invariant next() is the minimum pending time |
| KronosProofs.ScheduleKeepsValid | kronos.cc:39-71 | scheduling an event that is not before the cursor keeps bucket hash, bucket order and cursor invariant |
| KronosProofs.ScheduleBehindCursor | kronos.cc:39-71 | an event before the cursor: next() is then right if and only if no event of the cursor's epoch is pending in another bucket |
| KronosProofs.SweepContents | kronos.cc:99-112 | delivered plus left is what was there, and all delivered was due |
| KronosProofs.GetConserves | kronos.cc:73-135 | for any cursor, nothing is lost or duplicated, and what stays is later than the time or in a bucket not visited |
| KronosProofs.NotVisitedStays | kronos.cc:73-112 | a bucket not visited keeps even its due events |
| KronosProofs.CompleteKeepsValid | kronos.cc:99-128 | a retrieval that leaves nothing due restores the cursor invariant: the skip passes no event |
| KronosProofs.NotReachedWitness | kronos.cc:73-112 | the witness for the next row: a calendar with that cursor that keeps a due event |
| KronosProofs.AlwaysCompleteIff | kronos.cc:73-112 | a retrieval takes everything due, whatever is pending, if and only if the time is not in a later epoch at a later bucket than the cursor (or the wheel is covered anyway) |
| KronosProofs.NextComplete | kronos.cc:73-180 | a retrieval at next() takes everything due whenever next() is the earliest time |
| KronosProofs.GetNext | kronos.cc:73-180 | with no bucket masked it delivers exactly the events of that time, leaves only later ones, and restores the cursor invariant |
| KronosProofs.OnTimeIff | kronos.cc:73-180 | and only then: a round is on time if and only if no bucket is masked |
| KronosProofs.MaskedLosesOrder | kronos.cc:73-180 | a masked bucket of the cursor's own epoch loses order: its event comes after a later one, or is left behind it |
| KronosProofs.RunConserves | traffic_profile_manager.cc:1442-1463 | over every run of the event loop, whatever is scheduled when, each event is delivered or pending exactly as often as scheduled, and every round delivers something |
| KronosProofs.RunOnTimeIff | traffic_profile_manager.cc:1442-1463 | every round of a run is on time if and only if none starts with a bucket masked |
| KronosProofs.RunRefinesSortedMultiset | traffic_profile_manager.cc:1442-1463 | then, as long as nothing is scheduled before now, deliveries are in order of time and nothing pending is earlier |
| KronosProofs.DrainTerminates | traffic_profile_manager.cc:1449-1459 | once nothing is added the loop ends within as many rounds as events are pending, with all of them delivered, wherever the cursor is |
| KronosProofs.NowIsBehindIff | traffic_profile_manager.cc:1420-1463 | an event scheduled for the current time is behind the cursor exactly if its bucket is empty and another is not |
| KronosProofs.TickLeftBehind | traffic_profile_manager.cc:1420-1463 | the run that loses order: a tick of the current time, scheduled after the cursor moved on, is left behind by the round of a later time |
| AtpDevice.Device.PlayStreamHandler | gem5/atp_device.cc:151-176 | queues the request behind an active stream or plays it; a fatal branch changes nothing |
| AtpDevice.Device.ServeRequest | gem5/atp_device.cc:179-187 | the stream becomes active with this request |
| AtpDevice.Device.ServedRequestHandler | gem5/atp_device.cc:200-212 | the stream ends, its request is announced or queued, and the oldest pending one is served |
| AtpDevice.Device.IntAckHandler | gem5/atp_device.cc:222-231 | lowers the interrupt and announces the next served request, if any |
| AtpDevice.Device.NotifyServedRequest | gem5/atp_device.cc:234-238 | publishes the id and raises the interrupt |
| AtpDevice.Device.StreamNameHandler | gem5/atp_device.cc:251-276 | a stream becomes known without losing the state it had |
| AtpDevice.PlayKeepsInvariant | gem5/atp_device.cc:151-164 | pending implies active, served implies awaiting acknowledgement, per-stream order and announcement order are kept |
| AtpDevice.ServedKeepsInvariant | gem5/atp_device.cc:200-212 | the same for the end of a stream |
| AtpDevice.AckKeepsInvariant | gem5/atp_device.cc:222-238 | the same for an acknowledgement |
| AtpDevice.NextIsOldest | gem5/atp_device.cc:200-212 | at the end of a stream the oldest request that waits for it is played as it was asked, or the stream is idle; no other stream is touched |
| AtpDevice.UniqueAnswers | gem5/atp_device.cc:251-262 | the stream can be played, a known one is as it was, and the driver is answered |
| AtpDevice.ExactlyOnce | gem5/atp_device.cc:151-238 | each submitted request is in exactly one of pending, playing, served, notified |
| AtpDevice.CompletedDistinct | gem5/atp_device.cc:200-212 | no request completes twice |
| AtpDevice.ServedInOrder | gem5/atp_device.cc:151-238 | per stream, completions are a prefix of submissions; notifications are a prefix of completions |
| AtpDriver.SubmittedIff | linux/atp_device.c:320-325 | the device accepts a request exactly when its stream is known and it does not ask for both directions: the driver writes 0b11 for both, which the device rejects |
| AtpDriver.Driver.GetPlayStream | linux/atp_device.c:223-243 | a request under a fresh id joins the list |
| AtpDriver.Driver.FindById | linux/atp_device.c:245-264 | the address of the request, exactly if it is live |
| AtpDriver.Driver.PutPlayStream | linux/atp_device.c:266-277 | removes that request and no other |
| AtpDriver.Driver.MmioPlayStream | linux/atp_device.c:298-333 | programs the registers of this request, and leaves the device as its handler does |
| AtpDriver.Driver.IsrRead | linux/atp_device.c:369-374 | reads the announced id and acknowledges it in one step |
| AtpDriver.Driver.IsrComplete | linux/atp_device.c:382 | completes whichever request is at the address by then, if any |
| AtpDriver.CompleteIsSignal | linux/atp_device.c:376-382 | that is the request looked up as long as it is still there |
| AtpDriver.Driver.IsrSignal | linux/atp_device.c:376-385 | with nothing between lookup and write, the caller of that id is completed if it is still there |
| AtpDriver.StepKeepsInv | linux/atp_device.c:119-144 | every step of callers, stream ends and interrupt routines, with lookup and write apart, keeps the protocol invariant, including that a request plays with its own caller's buffers |
| AtpDriver.RunInv | linux/atp_device.c:119-144 | so it holds at every state of every interleaving |
| AtpDriver.StepExactIff | linux/atp_device.c:376-385 | a step completes a wrong caller if and only if the write hits another one that has the memory by then |
| AtpDriver.RunExactIff | linux/atp_device.c:376-385 | in a run every completion reaches its own caller at every moment if and only if no write does |
| AtpDriver.NormalReturnWasCompleted | linux/atp_device.c:139-144 | then a caller that leaves normally does so after the device completed its own request |
| AtpDriver.NoLeaveNoStrike | linux/atp_device.c:376-385 | and no write does if no caller leaves between the lookup of its request and the write |
| AtpDriver.LeaveBetweenStrikes | linux/atp_device.c:139-144 | otherwise, whenever a routine has found a waiting caller, five more steps let another one leave normally with its request not completed |
| AtpDriver.WrongReturnHappens | linux/atp_device.c:139-144 | and for every stream there is a run that gets there |
| AtpDriver.NoLostCompletion | linux/atp_device.c:360-385 | a waiting caller has been completed, or its request is pending, playing, served, announced or in an interrupt routine; not both while completions are exact |
| AtpDriver.NotifiedOnce | gem5/atp_device.cc:222-238 | a notification is announced, read, looked up or done with, only one of these |
| AtpDriver.WaitingCallerProgresses | linux/atp_device.c:139-144 | while a caller waits, a step that brings its completion closer can be taken, and only finitely many remain |
| AtpDriver.ProgressCounts | linux/atp_device.c:139-144 | each such step lowers the measure and no other step but a submission changes it |
| EventModel.EventManager.WaitEvent | event_manager.cc:45-58 | one more wait, counted in its category, retained if asked; NONE is ignored; the counters stay right if and only if the wait is not a repeated one |
| EventModel.EventManager.ReceiveEvent | event_manager.cc:90-130 | releases the event, and on TERMINATION everything else waited for from that profile, counts included |
| EventModel.EventManager.ReleaseAll | event_manager.cc:112-127 | the loop over a profile's remaining events decrements the right counters |
| EventModel.EventManager.EmitEvent | event_manager.cc:60-88 | emits unless it repeats the last event of its category, or time has not moved and the category forbids it |
| EventModel.EventManager.Reset | event_manager.cc:30-44 | exactly the retained waits are waited for again, and nothing counts as sent, whatever is retained |
| EventModel.WaitCounted | event_manager.cc:45-58 | the counters still count the waits if and only if the new wait is not a duplicate |
| EventModel.ResetCountedIff | event_manager.cc:30-44 | after a reset the counters count the waits if and only if no event is retained twice |
| EventModel.ExcessStays | event_manager.cc:45-130 | a wait too many is never made good: whatever is received or waited for, the counter does not return to 0 until a reset |
| EventModel.EmissionsAlternate | event_manager.cc:60-88 | over any requests to send, what goes out in a category alternates, and in one without concurrency at most one event goes out in each time unit |
| EventModel.StatusOncePerTime | event_manager.cc:73-78 | so a profile tells its status at most once in each time unit |
| EventModel.ProfileEventsConcur | event_manager.cc:73-78 | while an activation or termination that differs from the last one goes out at once |
| ProfileModel.RepeatedWaitLocks | traffic_profile_master.cc:361-420 | so a master that waits twice for the same profile event before it started is locked until its next reset |
| EventModel.ResetCounted | event_manager.cc:30-44 | after a reset the waits are the retained ones, counted |
| EventModel.WaitingIffCounted | event_manager.cc:45-58 | something is waited for exactly if some counter is not zero |
| ProfileModel.UpdateOne | event_manager.cc:90-130 | a step of one profile that drops no TERMINATION wait early and stays subscribed keeps the protocol invariant |
| ProfileModel.NoLostWakeup | traffic_profile_manager.cc:964-1046 | between steps every waited event is subscribed for its profile, the counters count, and waiting() is their being non-zero |
| ManagerModel.FreeIsPolled | traffic_profile_manager.cc:981-989 | between calls every profile that nothing keeps from running, delays and slaves included, has announced its activation and is on the list of those polled, until it terminates |
| ManagerModel.TrafficProfileManager.Wake | traffic_profile_delay.cc:43-52 | after an event a delay that waits for no profile has announced its activation, and a master has started as well |
| ManagerModel.EventWakes | traffic_profile_delay.cc:43-52 | whoever an event releases from its last profile is up once the activations that follow have been told |
| ProfileModel.ActiveMasterIff | traffic_profile_master.cc:361-408 | what keeps a master from sending: a profile it waits for, a halting status, its outstanding limit, the end of its data or time |
| LeafTests.LeafTestSoundIff | traffic_profile_manager.cc:1698-1719 | over all runs of a configuration, the leaves having terminated means everything has, if every profile of the stream leads to a leaf along the waits, or there is no order in which all that leads to leaves can terminate; and only if, when profiles wait for TERMINATIONs (and roots for their own activation) |
| StreamRuns.RunEndsInOrder | traffic_profile_manager.cc:621-664 | whatever has terminated in a run, checkers being asked only about packets that pass, did so in an order: each after all it waits for, and each checker after a master that it checks and that ends with a response, with nothing in between but checkers told before it |
| LeafTests.CanAllEndIff | traffic_profile_manager.cc:621-664 | and where there is such an order for profiles, a run exists in which they all terminate: the two are equivalent |
| StreamRuns.CheckerNeeds | traffic_profile_manager.cc:621-664 | so a checker terminates in no run unless it checks a master whose requests expect responses, and whatever it watches that waits for that master is a checker of it as well; one that checks a delay only never does |
| StreamRuns.RunEndedCould | traffic_profile_master.cc:361-420 | in no run does a profile terminate that is a slave, a master without any limit, was never created, or waits directly or not for such a one or for itself |
| StreamRuns.StuckIff | traffic_profile_manager.cc:1698-1719 | the waits of a profile let it terminate if and only if no chain of waits leads to it from one that never does, or from a cycle; what a checker needs besides is in the order |
| StreamRuns.WithoutCheckersIff | traffic_profile_manager.cc:1698-1719 | profiles without checkers among them have an order if and only if the waits of each let it terminate |
| StreamRuns.StuckLeaf | traffic_profile_manager.cc:1698-1719 | with a stuck leaf, not all that leads to leaves can terminate; without checkers nothing else prevents it |
| LeafTests.NextGoesOn | traffic_profile_manager.cc:981-1046 | one profile terminating at its end, and all others hearing of it, keeps every invariant of a profile and ends no other |
| StreamModel.StreamTerminationSound | traffic_profile_manager.cc:1698-1719 | when every leaf has terminated, so has every profile that leads to one |
| StreamModel.AcyclicLeads | traffic_profile_manager.cc:1698-1719 | without a cycle every profile leads to a leaf |
| StreamModel.CachedStaysSound | traffic_profile_manager.cc:1698-1719 | a stream cached as configured answers rightly for every later state of its profiles |
| StreamModel.SomeLeaf | traffic_profile_manager.cc:1698-1719 | such a stream has a leaf to test |
| LeafTests.UnledStreamUnsound | traffic_profile_manager.cc:1698-1719 | the run that goes wrong where the condition fails: from all waits pending, one profile after the other terminates at its end, its checkers being told in order, until every leaf has and some profile of the stream has not |
| StreamModel.Search | traffic_profile_manager.cc:1481-1539 | the breadth-first search ends and lists each profile reachable along TERMINATION waits exactly once, flags a leaf exactly when nobody waits for it, and lists the leaves |
| StreamModel.SearchedAsConfiguredIff | traffic_profile_manager.cc:1469-1545 | searched at any time, the stream is as configured if and only if nobody is configured to wait for a member that has terminated |
| StreamModel.SearchedIsConfigured | traffic_profile_manager.cc:1469-1545 | in particular if no member has |
| StreamModel.LateSearch | traffic_profile_manager.cc:1469-1545 | searched after its root terminated, it is the root alone |
| ManagerModel.TrafficProfileManager.CreateProfile | traffic_profile_manager.cc:384-450 | the new profile waits as configured, is counted for its master, has started up as its role demands, and no wakeup is lost: whatever waits for no profile has announced its activation, is polled and, but for a delay, has started |
| ManagerModel.TrafficProfileManager.RegisterChecker | traffic_profile_manager.cc:536-545 | the checker is registered and asked after those there are, each once; nothing else changes |
| ManagerModel.TrafficProfileManager.ActivateRoot | gem5/profile_gen.cc:857-868 | a root that waits only for its own activation is released and started |
| ManagerModel.TrafficProfileManager.Subscribe | traffic_profile_manager.cc:964-979 | the profile joins the subscribers of the event |
| ManagerModel.TrafficProfileManager.Broadcast | traffic_profile_manager.cc:981-1046 | every subscriber is told: none of them waits for the event any more; a wait disappears only if it is that event, is on a profile that has ended, or is for an activation announced since; whoever is released from its last wait has announced its activation and, but for a delay, starts now, and everything that runs is polled |
| ManagerModel.TrafficProfileManager.ReceiveEvent | traffic_profile_master.cc:118-153 | the profile is released; if that was its last wait for a profile, a master starts, and a master or a delay announces its activation and is polled |
| ManagerModel.TrafficProfileManager.Release | traffic_profile_master.cc:118-140 | a status event is swapped for its opposite and toggles the halt; no other profile changes |
| HaltModel.HaltKeptIff | traffic_profile_master.cc:124-140 | a master is halted exactly while it waits for an unlock; every next event keeps that if and only if it is not halted or waits for one status event only |
| HaltModel.SingleSourceHalts | traffic_profile_master.cc:124-140 | following a single profile it holds over every sequence of events |
| HaltModel.HaltLost | traffic_profile_master.cc:124-132 | the witness: two profiles locked cancel out |
| HaltModel.StuckAfterTermination | traffic_profile_master.cc:124-140 | when the profile that halted it terminates, a master that follows another one stays halted with no unlock to wait for |
| ManagerModel.TrafficProfileManager.EmitActivation | event_manager.cc:60-88 | an activation is broadcast once: nobody waits for it any more, the profile itself included, and no other wait is lost |
| ManagerModel.TrafficProfileManager.Activate | traffic_profile_desc.cc:125-131 | the profile has announced its activation and started, now, and is polled from now on |
| ManagerModel.TrafficProfileManager.Terminate | traffic_profile_master.cc:376-386 | everyone is released from everything of this profile and keeps its other waits, the profile is marked terminated, its master's counter is lowered, and whoever that released, delays included, is up and polled |
| ManagerModel.TrafficProfileManager.EmitTermination | traffic_profile_manager.cc:981-1046 | the announcement alone: nobody waits for anything of the profile afterwards |
| ManagerModel.TrafficProfileManager.TellTermination | traffic_profile_manager.cc:981-1046 | every subscriber of any of its events is released; none of its events stays in the map |
| ManagerModel.TrafficProfileManager.MasterActive | traffic_profile_master.cc:361-420 | the answer is that of the declarative lock and activity conditions; it terminates exactly at its end with nothing outstanding |
| ManagerModel.TrafficProfileManager.MasterOffer | traffic_profile_master.cc:155-225 | before the status is told: the packet goes out exactly if the master is active and it is accepted, and the counts follow |
| ManagerModel.TrafficProfileManager.MasterSend | traffic_profile_master.cc:155-282 | a packet is sent exactly if active and accepted; counts follow, and unless terminated the master has sent the locked or unlocked event, which nobody who could be told waits for any more |
| ManagerModel.TrafficProfileManager.MasterReceive | traffic_profile_master.cc:284-333 | one less outstanding, and termination exactly if that was the last of a finished master |
| ManagerModel.TrafficProfileManager.DelaySend | traffic_profile_delay.cc:54-85 | a released delay starts at the time of the poll and terminates once it has passed; until then it tells the time of its end, and otherwise 0 |
| ManagerModel.DelayHintSuffices | traffic_profile_delay.cc:54-110 | from the time told on a poll ends the delay, and before it does not |
| ManagerModel.DelayKeptIff | traffic_profile_delay.cc:87-121 | a running delay never ends early if and only if its own start is the time of its activation |
| ManagerModel.OutsideActivationIff | gem5/profile_gen.cc:865 | activated from outside after a reset it is kept if and only if it was last polled at that very time, or never and that time is 0; never polled, it ends at once exactly if its length is no more than the time |
| ManagerModel.OwnActivationKeeps | traffic_profile_delay.cc:54-85 | activated by its own poll it is kept |
| ManagerModel.TrafficProfileManager.DelayActive | traffic_profile_delay.cc:87-121 | the same for the test alone |
| ManagerModel.TrafficProfileManager.CheckerActive | traffic_profile_checker.cc:134-157 | a checker that is asked terminates exactly when it waits for nothing |
| CheckerRuns.WaitsForNothingIff | traffic_profile_checker.cc:134-157 | which is when all it watches has terminated |
| CheckerRuns.CheckerEndsIff | traffic_profile_manager.cc:621-708 | over all runs without reset: a checker has terminated if and only if the last profile it watches ended while the checker was still to be asked about a packet that passes |
| CheckerRuns.EndsWithResponse | traffic_profile_manager.cc:850-936 | that packet is a response; so a checker whose last profile terminates at a poll is never asked again |
| ManagerModel.TrafficProfileManager.IsTerminated | traffic_profile_manager.cc:77-91 | true if and only if all profiles of the master have terminated |
| ManagerModel.TrafficProfileManager.GetStream | traffic_profile_manager.cc:1469-1545 | the cached stream, or the exact search result, cached with its leaves; as configured if and only if nobody waits for a terminated member |
| ManagerModel.TrafficProfileManager.StreamTerminated | traffic_profile_manager.cc:1698-1719 | for a stream cached as configured in which every profile leads to a leaf, true if and only if every profile of it has terminated |
| ManagerModel.TrafficProfileManager.TestLeaves | traffic_profile_manager.cc:1706-1718 | the loop over the cached leaves answers whether all of them have terminated |
| ManagerModel.TrafficProfileManager.ResetBase | traffic_profile_desc.cc:91-100 | the configured waits are waited for and subscribed again, and a terminated profile is counted again |
| ManagerModel.TrafficProfileManager.ResetProfile | traffic_profile_master.cc:93-116 | profile and checkers are put back, others at most receive events |
| ManagerModel.TrafficProfileManager.StreamReset | traffic_profile_manager.cc:1685-1696 | every profile of the stream waits again for what it was configured to, the protocol invariant holds, and what waits for nothing, delays and slaves included, has announced its activation again |
| ManagerModel.ResetKeepsChainIff | traffic_profile_manager.cc:1685-1696 | resetting one profile keeps the configured waits consistent if and only if nobody configured to wait for it has been released by it |
| ManagerModel.ResetAsCreated | traffic_profile_desc.cc:90-98 | a reset leaves a master or delay as its creation did, but for the checkers registered since and the time it started |
| CheckerRuns.CallsAreSteps | traffic_profile_manager.cc:621-708 | what the contracts of calls and broadcasts say, with the checkers of a packet asked before anything else, is a step of the streams' runs: configurations stay, what terminates had been released, and a checker only when asked |
| StreamRuns.GrownStreamIff | traffic_profile_manager.cc:549 | as profiles are created, a cached stream stays as configured if and only if none of them waits for one of its members |
| StreamRuns.LaterAnswers | traffic_profile_manager.cc:1469-1719 | a stream cached as configured, all of whose profiles lead to a leaf, is answered for rightly after any calls, broadcasts, resets and creations, as long as no profile created since waits for a member |
| CheckerRuns.AnswersFromStart | traffic_profile_manager.cc:1469-1719 | so is one for which there is no order, after any calls, broadcasts and resets from a start in which nothing has terminated |
| ManagerModel.CountIsPositive | traffic_profile_manager.cc:994-1002 | the duplicate-termination error is unreachable |
| ManagerModel.NobodyWaits | traffic_profile_manager.cc:1004-1019 | after the delivery nobody waits for anything of the terminated profile |
| ManagerModel.WholeStream | traffic_profile_manager.cc:1698-1719 | the leaf test is equivalent to all nodes having terminated whenever every node leads to a leaf |
| ManagerModel.ReleaseStep | event_manager.cc:90-130 | a reception keeps the protocol invariant, with the halting switch |
| ManagerModel.DyingStep | traffic_profile_manager.cc:994-1002 | lowering the counter while TERMINATION is announced keeps the counting invariant |
| ManagerModel.ClearStep | traffic_profile_manager.cc:50-56 | a reset keeps the invariant provided whoever its termination released is reset too |
| PacketDescModel.PacketDesc.GetAddress | packet_desc.cc:173-223 | hands out the current address and advances by stride, increment or wrap |
| PacketDescModel.PacketDesc.Reset | packet_desc.cc:20-29 | back to the base, first stride |
| PacketDescModel.PacketDesc.AddressReconfigure | packet_desc.cc:308-322 | the new window, with the stride counter at 0 |
| PacketDescModel.PacketDesc.AutoRange | packet_desc.cc:324-408 | applies the computed range, modulo 2^64, if forced, if none was set or if it is smaller |
| PacketDescModel.UnwrappedFits | packet_desc.cc:347-372 | each of the first toSend addresses of the unlimited sequence lies in the exact range |
| PacketDescModel.AdvanceExpected | packet_desc.cc:173-198 | one step of the generator is one step of the closed form by stride and position |
| PacketDescModel.NoWrap | packet_desc.cc:173-210 | with a range at least that large the generator follows the closed form |
| PacketDescModel.AutoRangeSuffices | packet_desc.cc:347-390 | once applied, the computed range never makes the first toSend addresses wrap, after a reset or a reconfiguration, also for less than one stride |
| PacketDescModel.CountedSufficesIff | packet_desc.cc:173-223 | strides limited by a number of increments, for every number of packets: the computed range suffices if and only if it exceeds the furthest place, given in closed form, or comes to 0 |
| PacketDescModel.SpacedStridesSufficeIff | packet_desc.cc:347-372 | with strides as far apart as they are long that is for every number of packets but exactly one full stride |
| PacketDescModel.FirstStrideSufficesIff | packet_desc.cc:347-372 | up to one full stride, for fewer packets than a stride is counted to hold, however far strides are apart |
| PacketDescModel.StaysInside | packet_desc.cc:173-210 | every address lies in the window, for ever |
| PacketDescModel.LinearRepeats | packet_desc.cc:173-213 | a linear descriptor hands out the multiples of its increment below its range, over and over: the n-th address is base + (n mod c) * increment, with c the range over the increment, rounded up |
| PacketDescModel.WrapIsReset | packet_desc.cc:203-212 | for strides as well: the first address that would leave the range is the base, and from there on the addresses are those of a descriptor that has been reset |
| PacketDescModel.ResetRepeats | packet_desc.cc:203-212 | so a descriptor that has been reset repeats the addresses up to there |
| PacketDescModel.EndlessFollows | packet_desc.cc:173-201 | which, without a range, are those of the closed forms of both kinds of strides |
| PacketDescModel.SecondStride | packet_desc.cc:298-315 | a descriptor that has been reset starts its second stride one increment on; one that has been reconfigured repeats its first stride |
| PacketDescModel.LinearSufficesIff | packet_desc.cc:371-390 | a range suffices for a number of packets of a linear descriptor if and only if the last address lies in it, and the computed one is the least multiple of the increment that does |
| PacketDescModel.SmallerRangeKept | packet_desc.cc:380-390 | a smaller range that is configured is kept, unless the computed one is forced |
| PacketDescModel.OthersKeepAddresses | traffic_profile_manager.cc:1642-1683 | only masters of the wanted direction are given a window, which starts where the one before ends |
| PacketDescModel.PacketDesc.constructor | packet_desc.hh:130-137 | a descriptor holds the fields given |
| PacketDescModel.Assign | traffic_profile_manager.cc:1655-1658 | one master gets the window at the given base, unless it has neither limit nor range |
| PacketDescModel.ReconfigureNode | traffic_profile_manager.cc:1650-1660 | one selected master gets the window after those before it, exactly if it is limited |
| PacketDescModel.AddressStreamReconfigure | traffic_profile_manager.cc:1629-1683 | selected masters get consecutive windows that tile the assigned space, others stay; succeeds if and only if all are limited and the windows fit |
| PacketDescModel.StreamWindowsDisjoint | traffic_profile_manager.cc:1629-1683 | no two of them ever generate the same address, and all lie in [base, base + result) |
| MasterModel.ResponseTable.Tag | packet_tagger.cc:37-47 | UIDs are handed out once each |
| MasterModel.ResponseTable.Wait | traffic_profile_manager.cc:1067-1078 | registers a UID unless it is registered |
| MasterModel.ResponseTable.Signal | traffic_profile_manager.cc:1080-1090 | forgets the UID and no other |
| MasterModel.TrafficProfileMaster.constructor | traffic_profile_master.cc:74-80 | with limits, FIFO and descriptor as given, nothing is sent or outstanding, and it starts at once exactly if it waits for no profile |
| MasterModel.TrafficProfileMaster.Active | traffic_profile_master.cc:361-420 | activity, lock and termination, with what is fired |
| MasterModel.TrafficProfileMaster.Send | traffic_profile_master.cc:155-282 | sends the pending or next packet exactly if active and accepted by the FIFO; registers who its response is for |
| MasterModel.TrafficProfileMaster.Offer | traffic_profile_master.cc:165-215 | a denied packet stays pending and is not generated again |
| MasterModel.TrafficProfileMaster.Receive | traffic_profile_master.cc:284-333 | books the response, forgets its UID, reports a response to nothing, and terminates if it was the last |
| MasterModel.TrafficProfileMaster.ReceiveEvent | traffic_profile_master.cc:118-153 | a master that waits for nothing more starts once |
| MasterModel.TrafficProfileMaster.Reset | traffic_profile_master.cc:93-116 | counts, FIFO and descriptor start over; the start time stays, and a pending packet is freed while its pointer is kept |
| MasterRuns.ActiveKeeps | traffic_profile_master.cc:361-420 | after being polled a master has terminated exactly if it is at its end with nothing outstanding; while active its limits leave room |
| MasterRuns.IdleMeansTerminated | traffic_profile_master.cc:260-269 | neither active nor locked means terminated: the answer one FIFO period later is never given |
| MasterRuns.TransmitKeeps | traffic_profile_master.cc:180-205 | a transmission keeps the three records of outstanding transactions equal, acknowledged or not |
| MasterRuns.PollKeeps | traffic_profile_master.cc:155-282 | a poll keeps the lifecycle invariant, and the send threshold error is unreachable |
| MasterRuns.ResponseKeeps | traffic_profile_master.cc:284-333 | so does a response to something outstanding, and neither error of a response to nothing is reached |
| MasterRuns.LateResponseKeeps | traffic_profile_master.cc:284-333 | a response to a packet from before a reset, nothing being outstanding, is the unexpected-data error and leaves its UID registered |
| MasterRuns.ResetKeeps | traffic_profile_master.cc:93-116 | a reset, with or without a packet pending, starts limits, lifecycle and addresses over; what was outstanding stays in the table |
| MasterRuns.RunSound | traffic_profile_master.cc:93-333 | over all runs, resets included, up to the use of a freed packet: own count = FIFO count, both limits hold, none outstanding once terminated, one TERMINATION and one ACTIVATION per start, addresses in order since the last start |
| MasterRuns.MisusedIff | traffic_profile_master.cc:104 | a freed packet is used if and only if, after a reset that came with a packet pending, the master is polled while active, or reset again |
| MasterRuns.StopLeavesPending | traffic_profile_master.cc:361-420 | a poll at the stop time terminates a master with its packet still pending |
| MasterRuns.NoStopNothingPending | traffic_profile_master.cc:361-420 | without a stop time a terminated master has no packet pending |
| MasterRuns.NoStopNeverMisuses | gem5/profile_gen.cc:870-874 | so a master without a stop time that is only reset after it terminated never uses a freed packet |
| MasterRuns.StopMisuses | gem5/profile_gen.cc:870-874 | with one, a pending packet and nothing outstanding, two such resets do |
| MasterRuns.AgreeIff | traffic_profile_master.cc:93-333 | the registered UIDs are as many as counted if and only if every reset so far came with nothing outstanding |
| MasterRuns.ErrorIff | traffic_profile_master.cc:93-333 | an error message is reached if and only if a response arrives with nothing outstanding, which takes such a reset |
| MasterRuns.TerminatedForever | traffic_profile_master.cc:361-420 | after termination nothing is outstanding and nothing more is sent, until a reset |
| MasterRuns.ResetTooLateIff | traffic_profile_master.cc:93-116 | after a reset the next poll terminates the master with nothing sent if and only if it waits for nothing and its time to stop, counted from the old start, is over |
| MasterRuns.ResetTooLateSendsNothing | traffic_profile_master.cc:93-116 | then it sends nothing until the next reset, in every run |
| MasterRuns.LimitedAddresses | traffic_profile_master.cc:165-205 | a master limited to toSend packets, given its computed range, sends the unlimited sequence inside its window after every start, whatever else happens |
| MasterRuns.ResetKeepsAccountsIff | traffic_profile_master.cc:93-116 | a reset keeps the records equal if and only if nothing was outstanding, since the table is not cleared |
| MasterRuns.SendsIff | traffic_profile_master.cc:155-225 | a poll sends a packet if and only if the master waits for no profile, is not halted, is below its outstanding limit, has data and time left, and its FIFO grants the packet |
| MasterRuns.AnnouncesRight | traffic_profile_master.cc:273-280 | after every poll it says once whether it sent, unless it has terminated |
| MasterRuns.ResponseHint | traffic_profile_master.cc:322-331 | a response is followed by a poll at once, unless it ended the master |
| MasterRuns.ErrorsReported | traffic_profile_master.cc:252-320 | each error is reported exactly where it is made |
| MasterRetry.DeniedPoll | traffic_profile_master.cc:155-281 | a denied poll hands on the time its FIFO tells and keeps the packet; an inactive master tells none |
| MasterRetry.RetryPromise | traffic_profile_master.cc:155-281 | for an exact rate: if the packet denied fits next to what is in flight, that packet goes out at the time told or later, and not more than a period before it, whatever polls are denied and events arrive in between, as long as the master is active; otherwise it is told 0 and waiting does not help |
| MasterRetry.RunActivated | traffic_profile_master.cc:155-332 | over every run with an exact rate and a maximum level, resets included, the promise applies |
| MastersAgree.ActivityAgrees | traffic_profile_master.cc:361-420 | the master the manager sees and the one with its FIFO are active, locked and terminated together |
| MastersAgree.PollAgrees | traffic_profile_master.cc:155-282 | they send together and count the same |
| MastersAgree.ResponseAgrees | traffic_profile_master.cc:284-333 | a response leaves them the same |
| MastersAgree.EventAgrees | traffic_profile_master.cc:118-153 | the waits left and the halting that the one takes as inputs are those the event manager computes |
| MastersAgree.ResetAgrees | traffic_profile_master.cc:93-116 | a reset leaves them the same |
| SlaveModel.TrafficProfileSlave.constructor | traffic_profile_slave.cc:16-90 | a READ FIFO of maxOt times width, no responses |
| SlaveModel.TrafficProfileSlave.Active | traffic_profile_slave.cc:220-227 | locked exactly at the outstanding limit |
| SlaveModel.TrafficProfileSlave.Receive | traffic_profile_slave.cc:145-218 | accepts exactly if not locked and the FIFO has room, and answers when to come back |
| SlaveModel.TrafficProfileSlave.Send | traffic_profile_slave.cc:103-143 | hands out the oldest response once due, settling its FIFO entry |
| SlaveModel.TrafficProfileSlave.Reset | traffic_profile_slave.cc:95-101 | the queue is emptied with the FIFO |
| SlaveModel.ReceiveKeepsLockstepIff | traffic_profile_slave.cc:145-218 | queue and FIFO stay in lockstep if and only if no request of size 0 is accepted |
| SlaveModel.SendKeepsLockstep | traffic_profile_slave.cc:103-143 | a delivery settles exactly its own entry |
| SlaveModel.RunSound | traffic_profile_slave.cc:95-218 | over all runs, resets included: FIFO entries are the queued sizes in whole beats, response times sorted, at most maxOt queued, each accepted request that no reset dropped answered once, in order, not before its latency |
| SlaveModel.AllAnsweredIff | traffic_profile_slave.cc:95-101 | no accepted request was dropped if and only if no reset came with responses queued |
| SlaveModel.RunAnswers | traffic_profile_slave.cc:179-196 | over every run: the i-th delivery answers the i-th accepted request with its UID, address and size, READ_RESP exactly for READ_REQ, WRITE_RESP exactly for WRITE_REQ, at the time of acceptance plus the latency, and not before |
| SlaveModel.ResponseHint | traffic_profile_slave.cc:197-201 | an accepted request is told the time from which on the oldest response is delivered |
| SlaveModel.PollHint | traffic_profile_slave.cc:110-141 | a poll delivers exactly what is due, and tells when the next response will be, or that there is none |
| SlaveModel.RefusedAreToRetry | traffic_profile_slave.cc:206-215 | over every run: what is to be sent again are the requests refused when they came last |
| SlaveModel.LockedHintSuffices | traffic_profile_slave.cc:198-202 | the time told to a requester refused by the limit is that of the oldest response; one poll then frees a place |
| SlaveModel.BandwidthHint | traffic_profile_slave.cc:171-202 | the time told to one refused for want of bandwidth suffices, and one more than a period before it does not, if the request fits next to what is in flight, whatever other requests are refused in between; otherwise waiting does not help and the oldest response, or 0, is told |
| SlaveModel.RunActivated | traffic_profile_slave.cc:95-218 | what that needs of the FIFO holds over all runs of a slave with an exact rate |
| SlaveModel.OversizedRefused | traffic_profile_slave.cc:171-202 | a request larger than the limit allows is always refused |
| SlaveModel.PollsDrain | traffic_profile_slave.cc:103-143 | polled once per response, when due, the queue empties |
| ProfileGenModel.ProfileGen.Insert | gem5/profile_gen.cc:496-501 | new packets join the queue of their master |
| ProfileGenModel.ProfileGen.Serve | gem5/profile_gen.cc:537-575 | one packet of one master is suppressed, sent or stalled, and leaves the buffer |
| ProfileGenModel.ProfileGen.Update | gem5/profile_gen.cc:514-590 | the loop ends (buffered packets plus masters to serve decrease); no packet is left for a master whose port is free; stalled packets are not overwritten; what is counted as sent is sent; masters are served in rounds, in the order of the requestors, one packet each, whoever is left out of a round is left out of all later ones, and exactly packets not for the memory are dropped |
| ProfileGenModel.TurnTaken | gem5/profile_gen.cc:514-590 | masters take turns in rounds: each at most once, in the order of the requestors |
| ProfileGenModel.TurnPassed | gem5/profile_gen.cc:575-589 | who has no packet or no free port is left out of all later rounds |
| ProfileGenModel.ProfileGen.RecvReqRetry | gem5/profile_gen.cc:679-715 | the stalled packet is sent or stays; a retry for a free port changes nothing |
| ProfileGenModel.StallValid | gem5/profile_gen.cc:544-566 | putting a packet on a free port keeps every packet in one place |
| ProfileGenModel.TakeValid | gem5/profile_gen.cc:567-575 | a port takes packets once, in the order offered |
| ProfileGenModel.SuppressValid | gem5/profile_gen.cc:576-581 | so does dropping one |
| ProfileGenModel.ExactlyOnePlace | gem5/profile_gen.cc:514-590 | every packet seen is exactly one of buffered, stalled, sent, suppressed |

## Left out

- FIFO latency tracker, initial fill level and request origination time: they feed statistics only, and `tracker.resize` makes queue-latency claims for WRITE unsafe.
- Linked FIFOs, FIFO events and FIFOs of checkers activated directly: the linked flag is in the state, and the retry promise is about FIFOs that activate themselves.
- IEEE double rounding in `fifo.cc:216` and the time conversions: the interval's bytes are exact, its fraction is rounded to 1e-8 as line 221 does.
- 64-bit overflow, except in the range calculation, where the stride count minus one does wrap; 32-bit wrap of request ids, which live ids are taken not to reach.
- FifoModel.Fifo.Send: the answer is a signed number, because the source's unsigned one wraps for a granted request of zero bytes.
- Errors end the program (the default `exitOnErrors`): going back in time, a division by a zero period or stride, and unexpected commands are preconditions or error results.
- KronosModel.Kronos.InsertAt: the bounds test comes first; the source reads past the end of the list before it tests.
- KronosProofs.RunRefinesSortedMultiset: the first pass of the loop, at time 0 before any event is known, is the initial state.
- Random addresses, sizes and latencies, and address alignment: library distributions, and a mask that can map two addresses to one.
- AtpDriver.StepKeepsInv: allocating a request and putting it on the list is one step, and so is taking it off and freeing it; a write to memory that no request has is without effect.
- ManagerModel.TrafficProfileManager.TellTermination: the subscribers are those at the start of the delivery, while the source iterates over the live map; profiles are values in the manager's map instead of objects.
- ManagerModel.TrafficProfileManager.StreamTerminated: for streams cached as configured and without partial resets; when those conditions hold is in `StreamModel.SearchedAsConfiguredIff` and `ManagerModel.ResetKeepsChainIff`.
- MasterRuns.RunSound: nothing is said of a run after a freed packet was used.
- FifoModel.Fifo.constructor: how rate, start level and maximum level follow from the configuration, and the error for a rate above the maximum level, are not modelled; a start level above the maximum is excluded where a reset needs it.
- PacketDescModel.PacketDesc.constructor: how start, increment, range and stride fields follow from the configuration is not modelled.
- MasterModel.TrafficProfileMaster.constructor: how the limits follow from the configuration is not modelled.
- ManagerModel.TrafficProfileManager.ActivateRoot: for a root that has not started and waits for nothing but its own activation; the adapter would also start one that still waits for others, which then breaks the invariant that what runs has been released.
- ManagerModel.TrafficProfileManager.ResetProfile: whoever the termination of the profile released is reset with it; otherwise its waits are inconsistent afterwards (`ManagerModel.ResetKeepsChainIff`).
- ManagerModel.TrafficProfileManager.StreamReset: for a stream that is cached as configured; one cached late resets fewer profiles.
- ManagerModel.TrafficProfileManager.CreateProfile: the id is new, overwriting a profile of the same name is not modelled, and the retained events are without repetition, since repeated ones spoil the counters (`EventModel.ResetCountedIff`).
- MasterModel.TrafficProfileMaster.ReceiveEvent: which waits are left and whether the master is halted are inputs; that they are those of the event manager is `MastersAgree.EventAgrees`.
- MasterRuns.StepKeepsSound: for a fixed positive packet size and whole responses; the FIFO matches bytes in order, so partial responses of mixed sizes can be credited to another transaction.
- PacketDescModel.AutoRangeSuffices: for a positive increment; strides limited by both a range and a number of increments are a configuration error (`packet_desc.cc:163`).
- SlaveModel.RunSound: for a static latency and requests of positive size.
- LeafTests.LeafTestSoundIff: the "only if" half is for TERMINATION waits and own activations; waits for the activation of others, or of checkers for FIFO events, can keep a profile from terminating as well. The runs leave open when a limited master comes to its end and when its last response arrives; its FIFO does not keep it from sending.
- CheckerRuns.AnswersFromStart: no profile is created in between, since one that was waited for in vain may be; with creations see `StreamRuns.LaterAnswers`.
- CheckerRuns.CheckerEndsIff: runs without reset, for checkers that wait for TERMINATIONs; that the manager asks the checkers of a packet before it does anything else is a condition of the runs.
- ProfileGenModel.ProfileGen.Update: `find` on the multimap returns the oldest packet of a master; the routing table, drain states, the watchdog and scheduling of the next update are not modelled.
- Slave address ranges, internal routing between masters and slaves, stream cloning, `uniqueStream`, DMA reads of the stream name, and DMA configuration order.
- Configuration parsing, tracing, logging, statistics, packet tagging beyond UIDs, the shell, Python and gem5 glue.
