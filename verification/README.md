# Verified model of the ROS-RTEMS timer driver and executor

The repository runs ROS 2 callbacks as RTEMS tasks woken by kernel events.  This project models, in
Dafny, the parts in which its promises are made:

- **The timer driver** (`rtss_timer_driver.c`): eight periodic channels multiplexed on one 32-bit
  countdown. `TimerModel` is the value model, `RtssTimerDriver` the driver that updates its channel
  table and registers in place, `TimerRuns` what holds over every run, `EventGrid` and `ChannelRuns`
  what a run owes one channel, `Countdown` how soon every channel is served, `CloseInterleaving` the
  unmasked close, `UntargetedStorm` channels without a target, `LoadArithmetic` the conversions,
  `DriverRuns` whole runs performed on the object.
- **The executor** (`ours_executor_impl.cpp`): `CallbackProtocol` is one callback task against its
  senders and `stop()`, `CallbackProgress` what it does when it gets the processor, `EndToEnd`
  driver and tasks together, `SpinCancel` is `spin()` against `cancel()`. `ExecutorModel` is the
  executor as a state machine, one test, store, ioctl or kernel call a step, from registration
  through `spin()` to the destructor; `ExecutorInvariant`, `ExecutorSteps` and `ExecutorCalls` are
  what every step keeps, `Ownership` any number of executors with interrupts and tasks in between,
  `DeviceHolders`, `HoldersRace`, `ConnectedTimers`, `EventsCallBack`, `OpenAlone` and `SecondSetup`
  the results. `Hardware` and `RtExecutor` are the objects of the source, proved to take exactly the
  steps of that machine (`SoloRuns`).
- **Subscriptions**: `RingBuffer` is the intra-process buffer, `Backlog` its accounting against
  notifications, `Delivery` what reaches the subscriber.
- **Latency accounting** (`exp3inter_ours_main.cpp`): `ChainLatency`.
- **Build helpers**: `VariableExpansion` (`pkgconfig.py`) and `DependencyPaths` (`gccdeps.py`).

## Assumptions

- The clock is monotone; each operation gets its clock readings as parameters.  Uptime plus the
  longest period stays below INT64_MAX.
- A countdown started with a load lasts load + e ticks of 10 ns, with e fixed in {0, 1}: the driver's
  comments assume e = 0, section 4.1.1 of the Arm Cortex-A9 MPCore Technical Reference Manual gives
  Load + 1.  The results on arming hold for both.
- Interrupts are masked in `pt_isr` and in the bodies of START and STOP, so these are single steps; so
  are SET_PERIOD and SET_TASK, which make one store each.  Everywhere else each store or test of shared
  data and each kernel call is a step of its own, save that creating and starting a task is one step
  (nobody else knows the id before), and so is deleting a task and clearing its id.
- The tick-based SET_PERIOD checks nothing.  Its value is assumed not to exceed 92233720368 ns, the
  largest delay whose product with the clock rate fits 64 bits, and not to be 0 ns on an active
  channel; `TimerModel.InnerLoopEndsIff` and `LoadArithmetic.LoadExactly` show what happens otherwise.
- RTEMS ids are not used again after deletion; a send to a dead id has no effect; a second send before
  the event is received coalesces; a unique interrupt handler can be installed once.
- An executor is told to spin at most once, and gets calls only while it is not inside another one;
  `SecondSetup` shows what a second spin does.
- Subtraction of 32-bit stamps wraps around (C++ leaves signed overflow undefined).

## Where the code falls short of what one might expect

- Two executors can both come to hold the device: `rtss_open` tests `opened` and sets it later with
  nothing masked (`HoldersRace.TwoHoldersHappen`), and then the destructor of one stops the timers of
  the other (`HoldersRace.CloseHitsTheOther`).
  The exact condition is `DeviceHolders.OneHolderIff`.
- An active channel whose target is NONE makes the handler re-arm the shortest countdown once it is
  overdue, exactly then, and until somebody changes the channel (`UntargetedStorm`).
- A buffer of capacity 2 does not protect against overwriting even when no two notifications coalesce:
  a publisher may be interrupted between its push and its notification.  The exact requirement is
  `Backlog.CapacityNeeded`.
- `cancel()` is lost exactly when it reads the task id before `spin()` has stored it
  (`SpinCancel.SpinReturnsIff`).
- A second set-up leaves the device open with nobody able to close it, exactly when the executor holds
  the device at that moment; retrying after a failed open is fine
  (`SecondSetup.SecondSetupLosesTheDevice`).
- Every START and STOP starts the countdown afresh, at least 10 ns long, also when a channel is due
  already: calls on one channel can keep another waiting (`Countdown.StopsPostpone`).  The exact bound
  counts from the last of them (`Countdown.EveryChannelIsServedOnTime`).
- The latency identity needs each callback to enter after the previous publish returned; the exact
  conditions under which a round is overcharged otherwise are `ChainLatency.CallbackInsidePublish` and
  `ChainLatency.FinalInsideRelayPublish`.

## Model

| member | source | states |
|---|---|---|
| `RtssTimerDriver.TimerDriver.constructor` | Exps/Exp_Inter-Ours/driver/rtss_timer_driver.c:241-257 | boot state: every channel inactive with expiry INT64_MAX and no target |
| `RtssTimerDriver.TimerDriver.Open` | Exps/Exp_Inter-Ours/driver/rtss_timer_driver.c:259-275 | with nobody in between, equals the call of the model, see `TimerModel.OpenResult` |
| `TimerModel.OpenResult` | Exps/Exp_Inter-Ours/driver/rtss_timer_driver.c:259-275 | succeeds iff the device is closed and the handler is or can be installed; then open and installed are set and nothing else changes; otherwise nothing does, TOO_MANY iff it was open |
| `OpenAlone.StepsAreOpen` | Exps/Exp_Inter-Ours/driver/rtss_timer_driver.c:214-275 | the tests, call and stores of rtss_open, taken with nobody in between, are that call |
| `TimerModel.BootState` | Exps/Exp_Inter-Ours/driver/rtss_timer_driver.c:241-257 | at boot every channel is inactive, without target and period, so START is refused on it |
| `TimerModel.CloseEffect` | Exps/Exp_Inter-Ours/driver/rtss_timer_driver.c:277-294 | close keeps periods, stamps, history and the installed handler |
| `RtssTimerDriver.TimerDriver.Close` | Exps/Exp_Inter-Ours/driver/rtss_timer_driver.c:277-294 | with no interrupt in between, the in-place stores release every channel, disable the timer and close; periods, stamps and history stay |
| `RtssTimerDriver.TimerDriver.CloseStore` | Exps/Exp_Inter-Ours/driver/rtss_timer_driver.c:277-294 | the k-th store of close in program order, for closes with interrupts in between |
| `RtssTimerDriver.TimerDriver.PtArmDelta` | Exps/Exp_Inter-Ours/driver/rtss_timer_driver.c:132-140 | arms with the clamped load; the 64-bit product is proved not to overflow |
| `RtssTimerDriver.TimerDriver.PtArmAbsolute` | Exps/Exp_Inter-Ours/driver/rtss_timer_driver.c:142-147 | a target already reached is armed as 1 ns |
| `RtssTimerDriver.TimerDriver.FindNearestExpiration` | Exps/Exp_Inter-Ours/driver/rtss_timer_driver.c:153-169 | the first channel whose expiry is least among the active ones, -1 exactly when none is below INT64_MAX |
| `RtssTimerDriver.TimerDriver.RearmPt` | Exps/Exp_Inter-Ours/driver/rtss_timer_driver.c:171-182 | arms for the nearest expiry, or disables the timer when there is none |
| `RtssTimerDriver.TimerDriver.SkipMissed` | Exps/Exp_Inter-Ours/driver/rtss_timer_driver.c:206-207 | the inner loop ends and steps the one channel to its first grid point after now, without 64-bit overflow |
| `RtssTimerDriver.TimerDriver.ServeChannel` | Exps/Exp_Inter-Ours/driver/rtss_timer_driver.c:197-208 | one due channel: stamp, one event for its target at its old expiry, then skip; otherwise nothing |
| `RtssTimerDriver.TimerDriver.ServeChannels` | Exps/Exp_Inter-Ours/driver/rtss_timer_driver.c:196-209 | exactly the due channels are stamped, signalled in channel order and stepped; all others unchanged |
| `RtssTimerDriver.TimerDriver.PtIsr` | Exps/Exp_Inter-Ours/driver/rtss_timer_driver.c:188-212 | the whole handler equals the value model of one interrupt |
| `TimerModel.IsrEffect` | Exps/Exp_Inter-Ours/driver/rtss_timer_driver.c:188-212 | an interrupt stamps and advances exactly the active channels with a target that are due; no flag, period or target changes |
| `RtssTimerDriver.TimerDriver.Control` | Exps/Exp_Inter-Ours/driver/rtss_timer_driver.c:325-438 | each ioctl command, with its error statuses, equals the value model; products and sums fit 64 bits |
| `TimerModel.ControlStatus` | Exps/Exp_Inter-Ours/driver/rtss_timer_driver.c:325-438 | which status is returned when, for every command; only SUCCESSFUL may change the driver; SET_MODE succeeds and changes nothing |
| `TimerModel.ControlEffect` | Exps/Exp_Inter-Ours/driver/rtss_timer_driver.c:325-438 | what a successful command changes: one field of one channel, or its schedule and the countdown |
| `DriverRuns.Perform` | Exps/Exp_Inter-Ours/driver/rtss_timer_driver.c:188-438 | any allowed sequence of interrupts, ioctls and single stores of open and close can be carried out on the object: no endless loop, no overflow, result as in the model |
| `TimerModel.Advance` | Exps/Exp_Inter-Ours/driver/rtss_timer_driver.c:206-207 | the new expiry lies in (now, now + period] |
| `TimerModel.AdvanceClosedForm` | Exps/Exp_Inter-Ours/driver/rtss_timer_driver.c:48-51 | repeated addition equals next + (floor((now - next) / period) + 1) * period, so lateness does not accumulate |
| `TimerModel.InnerLoopEndsIff` | Exps/Exp_Inter-Ours/driver/rtss_timer_driver.c:206-207 | the inner loop ends iff the period is positive; the tick-based SET_PERIOD does not check this |
| `TimerModel.NearestIsMinimum` | Exps/Exp_Inter-Ours/driver/rtss_timer_driver.c:153-169 | the searched value is the minimum over the active channels and is attained |
| `LoadArithmetic.LoadExactly` | Exps/Exp_Inter-Ours/driver/rtss_timer_driver.c:115-121 | for all delays: product fits iff <= 92233720368 ns, lower clamp iff < 10 ns, upper clamp iff >= MAX + 10 ns, otherwise floor(ns / 10) |
| `LoadArithmetic.AcceptedPeriods` | Exps/Exp_Inter-Ours/driver/rtss_timer_driver.c:359-373 | SET_PERIOD_NS accepts exactly the range documented, stores the value, and accepted values convert to loads 100 .. 2^32-1 without clamping; both ends attained |
| `LoadArithmetic.LoadMonotone` | Exps/Exp_Inter-Ours/driver/rtss_timer_driver.c:115-121 | a longer delay never gets a shorter load |
| `Machine.CDivTruncates` | Exps/Exp_Inter-Ours/driver/rtss_timer_driver.c:117 | C's signed division truncates toward zero, also for negative delays |
| `LoadArithmetic.MsToTicksProductFits` | Exps/Exp_Inter-Ours/src/ours_executor_impl.cpp:50-54 | the 64-bit product of milliseconds and tick rate cannot overflow |
| `LoadArithmetic.MsToTicksWraps` | Exps/Exp_Inter-Ours/src/ours_executor_impl.cpp:50-54 | the tick count is the true one up to a multiple of 2^32, and the true one iff that fits |
| `LoadArithmetic.TicksToNsFits` | Exps/Exp_Inter-Ours/driver/rtss_timer_driver.c:348-353 | the 64-bit product of ticks and 10^9 cannot overflow and the quotient is the floor |
| `LoadArithmetic.PeriodConversion` | Exps/Exp_Inter-Ours/src/ours_executor_impl.cpp:50-54 | ms to ticks to ns: never longer, shorter by less than a tick plus 1 ns, exact when 1000 divides ms * tps, zero iff ms * tps < 1000 |
| `LoadArithmetic.StartAcceptedIff` | Exps/Exp_Inter-Ours/driver/rtss_timer_driver.c:341-398 | after SET_PERIOD with converted ticks, START succeeds iff ms * tps >= 1000 and then runs with that period |
| `TimerRuns.StepKeepsInv` | Exps/Exp_Inter-Ours/driver/rtss_timer_driver.c:188-438 | every allowed operation, also each single store of close with interrupts before and after it, keeps the invariant of reachable states and meets the no-overflow and termination conditions of the methods |
| `TimerRuns.RunKeepsInv` | Exps/Exp_Inter-Ours/driver/rtss_timer_driver.c:188-438 | so does every run |
| `TimerRuns.ReachableStatesAreArmed` | Exps/Exp_Inter-Ours/driver/rtss_timer_driver.c:171-212 | at every moment, also in the middle of a close: an active channel has a positive period and an enabled timer whose expiry is at most max(its expiry, arm time + 10 ns) + 10 e ns; outside a close the timer is enabled iff some channel is active and inactive channels have expiry INT64_MAX |
| `TimerRuns.StoreKeepsInv` | Exps/Exp_Inter-Ours/driver/rtss_timer_driver.c:284-293 | each store of close, whatever interrupts came before it, keeps the invariant; after the last one it is again that of a driver not being closed |
| `UntargetedStorm.StormIff` | Exps/Exp_Inter-Ours/driver/rtss_timer_driver.c:199-211 | after an interrupt some active channel is still overdue iff before it some active channel without target was |
| `UntargetedStorm.UntargetedChannelStorms` | Exps/Exp_Inter-Ours/driver/rtss_timer_driver.c:171-211 | through any run that leaves such a channel alone, every interrupt re-arms the shortest countdown |
| `UntargetedStorm.StormIsReachable` | Exps/Exp_Inter-Ours/driver/rtss_timer_driver.c:375-398 | SET_PERIOD_NS and START without SET_TASK lead there from boot |
| `ChannelRuns.StartIsTracked` | Exps/Exp_Inter-Ours/driver/rtss_timer_driver.c:375-398 | START puts the channel on the grid that begins at its clock reading |
| `ChannelRuns.IsrKeepsTracked` | Exps/Exp_Inter-Ours/driver/rtss_timer_driver.c:199-208 | an interrupt extends the channel's chain of events along its grid |
| `ChannelRuns.RunKeepsTracked` | Exps/Exp_Inter-Ours/driver/rtss_timer_driver.c:188-438 | a run that does not touch the channel's period or activity keeps it on its grid |
| `ChannelRuns.RefinesIdealTimer` | Exps/Exp_Inter-Ours/driver/rtss_timer_driver.h:41-42 | after every interrupt of any run since START at s: next = s + (floor((now - s) / period) + 1) * period, whatever earlier lateness |
| `EventGrid.GridConservation` | Exps/Exp_Inter-Ours/driver/rtss_timer_driver.c:202-207 | next expiry = s + (events + skipped + 1) * period |
| `EventGrid.NextAfterEvent` | Exps/Exp_Inter-Ours/driver/rtss_timer_driver.c:202-207 | the next expiry is more than (events after k) periods after event k |
| `EventGrid.InTimeNothingSkipped` | Exps/Exp_Inter-Ours/driver/rtss_timer_driver.c:202-207 | if every event left before the following grid point, nothing was skipped and event i served grid point i + 1 |
| `ChannelRuns.RunAccount` | Exps/Exp_Inter-Ours/driver/rtss_timer_driver.c:199-208 | over any run: conservation of grid points, at most floor((t - s) / period) events, events k < m more than (m - k - 1) periods apart |
| `ChannelRuns.InactiveStaysSilent` | Exps/Exp_Inter-Ours/driver/rtss_timer_driver.c:196-205 | no event goes to an inactive channel, over any run without a START of it |
| `ChannelRuns.StampIsLatestEvent` | Exps/Exp_Inter-Ours/driver/rtss_timer_driver.h:206-213 | in every run rtss_isr_fire_ns is the time of the channel's latest event |
| `Countdown.EarlyLeg` | Exps/Exp_Inter-Ours/driver/rtss_timer_driver.c:142-147 | an early wake-up sends nothing, changes no channel, takes at least 10 ns and leaves fewer legs |
| `Countdown.TargetServed` | Exps/Exp_Inter-Ours/driver/rtss_timer_driver.c:188-211 | the target is served within the computed number of legs, by exactly one event for it |
| `Countdown.MultiLegProgress` | Exps/Exp_Inter-Ours/driver/rtss_timer_driver.c:115-147 | at most floor(d / (10 (2^32 - 1))) + 2 legs for the nearest target, at distance d |
| `Countdown.NearestIsServed` | Exps/Exp_Inter-Ours/driver/rtss_timer_driver.c:171-211 | from any reachable state, after any interrupt, START or STOP, the channel with the nearest expiry is served within that many legs by exactly one event, whatever the other channels are |
| `Countdown.EveryChannelIsServed` | Exps/Exp_Inter-Ours/driver/rtss_timer_driver.c:171-211 | from every reachable state, over any run with any START, STOP, SET_PERIOD and SET_TASK on the other channels, every active channel with a target is served by exactly one event within floor(r / 10) + 1 interrupts, r ns being left when the timer was armed |
| `Countdown.EveryChannelIsServedOnTime` | Exps/Exp_Inter-Ours/driver/rtss_timer_driver.c:115-211 | over any such run, with every interrupt within `delay` of its armed expiry and re-arming within `handling`, the event leaves by max(due + handling, last time the countdown was started by a START or STOP or before the run) + 10 + 10 e + delay |
| `Countdown.StopsPostpone` | Exps/Exp_Inter-Ours/driver/rtss_timer_driver.c:132-182 | calls of STOP on another channel every 10 ns keep a due channel waiting for any length of time, the timer never expiring |
| `CloseInterleaving.NoEventAfterClear` | Exps/Exp_Inter-Ours/driver/rtss_timer_driver.c:284-289 | from the store that clears the active flag of a channel on, no event goes to it, whatever interrupts and further stores come |
| `CloseInterleaving.CloseEndsQuiet` | Exps/Exp_Inter-Ours/driver/rtss_timer_driver.c:277-294 | once all stores are done, with interrupts between any two, every channel is inactive without target, the timer is off and the invariant of reachable states holds again |
| `CloseInterleaving.StrayInterrupt` | Exps/Exp_Inter-Ours/driver/rtss_timer_driver.c:188-212 | a late interrupt leaves a closed driver exactly as it is |
| `CloseInterleaving.StoresAreClose` | Exps/Exp_Inter-Ours/driver/rtss_timer_driver.c:284-293 | the stores in program order, without interrupts, are Close |
| `CallbackProtocol.ActKeepsInv` | Exps/Exp_Inter-Ours/src/ours_executor_impl.cpp:115-164 | every single step of senders, run_loop and stop keeps the ledger of events |
| `CallbackProtocol.EventConservation` | Exps/Exp_Inter-Ours/src/ours_executor_impl.cpp:126-164 | in every interleaving: sent = woken + pending + coalesced + sent to a dead id; every wake-up is a callback begun, one about to begin, or one cut short by stop(); callbacks begun <= events sent by others than stop() |
| `CallbackProtocol.StopWakeupRunsNoCallback` | Exps/Exp_Inter-Ours/src/ours_executor_impl.cpp:115-150 | the wake-up sent by stop() never leads to a callback |
| `CallbackProtocol.NoCallbackAfterStop` | Exps/Exp_Inter-Ours/src/ours_executor_impl.cpp:115-124 | no callback begins after stop() has returned |
| `CallbackProtocol.AtMostOneLateCallback` | Exps/Exp_Inter-Ours/src/ours_executor_impl.cpp:142-153 | after the flag is cleared at most one callback begins, the one whose test had passed |
| `CallbackProgress.SendResult` | Exps/Exp_Inter-Ours/src/ours_executor_impl.cpp:126-131 | an event to a dead task is lost, on a live one becomes pending or coalesces |
| `CallbackProgress.EventIsOneCallback` | Exps/Exp_Inter-Ours/src/ours_executor_impl.cpp:140-164 | a running task waiting with an event pending, left to itself, enters its callback exactly once and waits again |
| `CallbackProgress.ComesHome` | Exps/Exp_Inter-Ours/src/ours_executor_impl.cpp:140-164 | from any other point of its loop a running task comes back to its wait in at most four own steps, with one callback if it had been woken |
| `CallbackProgress.OwedCallbackBegins` | Exps/Exp_Inter-Ours/src/ours_executor_impl.cpp:140-164 | in any interleaving without stop() a pending event or a wake-up has become a callback after at most five own steps of the task |
| `CallbackProgress.StoppedTaskEnds` | Exps/Exp_Inter-Ours/src/ours_executor_impl.cpp:115-124 | in any interleaving a stopped task is gone after at most four own steps |
| `CallbackProgress.StopCompletes` | Exps/Exp_Inter-Ours/src/ours_executor_impl.cpp:115-124 | stop() on a running task, left to itself, returns and leaves no task |
| `RingBuffer.WindowPush` | rclcpp/code/src/rclcpp-16.0.8/rclcpp/include/rclcpp/experimental/buffers/ring_buffer_implementation.hpp:64-76 | writing at the slot behind the window appends, and drops the oldest element exactly when full |
| `RingBuffer.RingBuffer.constructor` | rclcpp/code/src/rclcpp-16.0.8/rclcpp/include/rclcpp/experimental/buffers/ring_buffer_implementation.hpp:44-54 | an empty buffer of the given capacity |
| `RingBuffer.RingBuffer.Enqueue` | rclcpp/code/src/rclcpp-16.0.8/rclcpp/include/rclcpp/experimental/buffers/ring_buffer_implementation.hpp:64-76 | appends; when full the oldest element is dropped |
| `RingBuffer.RingBuffer.Dequeue` | rclcpp/code/src/rclcpp-16.0.8/rclcpp/include/rclcpp/experimental/buffers/ring_buffer_implementation.hpp:84-98 | yields and removes the oldest element, a null message when empty |
| `RingBuffer.RingBuffer.HasData` | rclcpp/code/src/rclcpp-16.0.8/rclcpp/include/rclcpp/experimental/buffers/ring_buffer_implementation.hpp:119-123 | true iff something is stored |
| `Backlog.GoKeepsInv` | Exps/Exp_Inter-Ours/src/ours_executor_impl.cpp:229-254 | every step of publishers, callback and stop keeps the message and notification accounts |
| `Backlog.BacklogLaw` | Exps/Exp_Inter-Ours/src/ours_executor_impl.cpp:229-254 | exact backlog in every interleaving, and deliveries in publish order without duplicates |
| `Delivery.TakeDelivers` | Exps/Exp_Inter-Ours/src/ours_executor_impl.cpp:229-239 | a callback in progress moves the oldest message from the buffer to the subscriber, and only ends when there is none |
| `Delivery.NotificationWakes` | Exps/Exp_Inter-Ours/src/ours_executor_impl.cpp:243-268 | a notification, with a message or without, wakes a waiting task, whose callback takes the oldest message or finds none |
| `Delivery.EverythingIsDelivered` | Exps/Exp_Inter-Ours/src/ours_executor_impl.cpp:229-254 | in a run without coalescing and stop(), with capacity k + 2: once the publishers pause and nothing is left to do, the deliveries are the old ones followed by the buffer, and they are all messages published, each once and in order |
| `Delivery.DrainEnds` | Exps/Exp_Inter-Ours/src/ours_executor_impl.cpp:229-254 | that point is reached in a computed number of moves, in whatever order |
| `Delivery.CanDrain` | Exps/Exp_Inter-Ours/src/ours_executor_impl.cpp:229-254 | and in some order without coalescing |
| `Backlog.CalmRun` | Exps/Exp_Inter-Ours/src/ours_executor_impl.cpp:229-254 | with capacity k + 2 and no coalescing nothing is overwritten, no wake-up is empty, no message is stranded |
| `Backlog.TooSmall` | rclcpp/code/src/rclcpp-16.0.8/rclcpp/include/rclcpp/experimental/subscription_intra_process_buffer.hpp:124-143 | with less capacity there is a run without coalescing that loses a message, because push and notify are separate |
| `Backlog.CapacityNeeded` | rclcpp/code/src/rclcpp-16.0.8/rclcpp/include/rclcpp/experimental/subscription_intra_process_buffer.hpp:124-143 | capacity suffices iff it is at least two more than the publishers interrupted between push and notify |
| `EndToEnd.DeliveredOnce` | Exps/Exp_Inter-Ours/driver/rtss_timer_driver.c:202-205 | an interrupt signals a task exactly when its one channel is due |
| `EndToEnd.GoesKeepLinked` | Exps/Exp_Inter-Ours/driver/rtss_timer_driver.c:188-212 | through interrupts, ioctls on other channels (SET_TASK to other tasks and START included), new tasks, task steps and stop(), the task's events stay those of its channel |
| `EndToEnd.EndToEndRate` | Exps/Exp_Inter-Ours/src/ours_executor_impl.cpp:140-164 | for a task waiting anywhere in its loop at START: callbacks begun <= events <= floor((t - s) / period), and every event is accounted for at the task |
| `ExecutorModel.ChannelsAreDistinct` | Exps/Exp_Inter-Ours/src/ours_executor_impl.cpp:193-213 | any sequence of registrations hands out channels 0 .. 7 once each, then -1, each with its own converted period |
| `ExecutorSteps.TurnStartsTask` | Exps/Exp_Inter-Ours/src/ours_executor_impl.cpp:305-309 | in both loops over the timers, after its turn a timer's task runs iff it did before or could be created and started |
| `ExecutorSteps.ModeIsNothing` | Exps/Exp_Inter-Ours/src/ours_executor_impl.cpp:298-303 | SET_MODE succeeds and changes nothing, so set-up goes on to its loop |
| `ExecutorCalls.SubscriptionGetsOwnTask` | Exps/Exp_Inter-Ours/src/ours_executor_impl.cpp:221-284 | registered iff present, created and started: next index, a task just started under a new id and recorded as its own; otherwise -1, no registration and no task |
| `ExecutorCalls.AddSubscriptionKeeps` | Exps/Exp_Inter-Ours/src/ours_executor_impl.cpp:221-284 | registering keeps the executor's invariant and the links of all its channels, and leaves the other executors' tasks as they were |
| `ExecutorSteps.LaunchKeeps` | Exps/Exp_Inter-Ours/src/ours_executor_impl.cpp:321 | the START of one timer, in the middle of set-up: its channel is linked to its own task with its own period, all earlier ones keep their link |
| `ExecutorSteps.StopStepKeeps` | Exps/Exp_Inter-Ours/src/ours_executor_impl.cpp:115-124 | each of the three steps of stop() on one task leaves every channel's link as it was, and every other task, of this executor or another, unchanged |
| `ExecutorSteps.ClosingEnds` | Exps/Exp_Inter-Ours/driver/rtss_timer_driver.c:277-294 | the last store of the holder's close leaves a quiet driver and an executor with nothing left |
| `Ownership.AfterKeepsInv` | Exps/Exp_Inter-Ours/src/ours_executor_impl.cpp:181-389 | every step of any executor, interrupt, task step and publication keeps the invariant of all executors, as long as no two opens overlap |
| `DeviceHolders.OneHolder` | Exps/Exp_Inter-Ours/driver/rtss_timer_driver.c:266-274 | in every run without overlapping opens at most one executor holds the device, it is open exactly then, and otherwise the driver is quiet |
| `DeviceHolders.OneHolderIff` | Exps/Exp_Inter-Ours/driver/rtss_timer_driver.c:266-274 | over all interleavings: the opens under way can never finish with two holders iff no executor found the device closed while another was between its own test and its store |
| `DeviceHolders.OverlapGivesTwoHolders` | Exps/Exp_Inter-Ours/driver/rtss_timer_driver.c:266-274 | after an overlapping test, letting first the one and then the other open finish gives two holders |
| `HoldersRace.TwoHoldersHappen` | Exps/Exp_Inter-Ours/driver/rtss_timer_driver.c:266-274 | a run from boot in which two executors both hold the device |
| `HoldersRace.CloseHitsTheOther` | Exps/Exp_Inter-Ours/src/ours_executor_impl.cpp:332-343 | a run from boot in which one of two holders has set up its timer and waits in spin(), the other is destroyed, and then the first one's channel is off and the device closed |
| `HoldersRace.CloseIsForAll` | Exps/Exp_Inter-Ours/driver/rtss_timer_driver.c:284-293 | the close of one executor, in any state of the others, is the close of the whole device, and the others keep what they believe |
| `ConnectedTimers.SetupConnectsTimers` | Exps/Exp_Inter-Ours/src/ours_executor_impl.cpp:287-330 | with interrupts, tasks and other executors between any two steps, from the first turn of the set-up loop until the destructor is called: every timer that had its turn, runs and has a positive period is active with its own period and its own task alone, on the grid of its START, with callbacks <= events <= floor((t - s) / period); no other channel is active |
| `ConnectedTimers.SetupReachesAll` | Exps/Exp_Inter-Ours/src/ours_executor_impl.cpp:305-327 | when the loop ends every registered timer has had its turn |
| `ConnectedTimers.InterruptReachesOwnTask` | Exps/Exp_Inter-Ours/driver/rtss_timer_driver.c:196-209 | an interrupt signals a connected timer's own task exactly when its channel is due, and puts its next expiry on the first ideal grid point after now |
| `EventsCallBack.DueExpiryCallsBack` | Exps/Exp_Inter-Ours/src/ours_executor_impl.cpp:140-164 | the due expiry of a connected timer begins a callback of its task once the task has taken five steps, among any interrupts, publications and steps of other tasks |
| `EventsCallBack.PublicationCallsBack` | Exps/Exp_Inter-Ours/src/ours_executor_impl.cpp:243-254 | so does a publication for a registered subscription |
| `ConnectedTimers.NonHolderLeavesDriver` | Exps/Exp_Inter-Ours/src/ours_executor_impl.cpp:291-296 | an executor without the device changes nothing in the driver, its destructor included |
| `ConnectedTimers.DestroyedIsGone` | Exps/Exp_Inter-Ours/src/ours_executor_impl.cpp:181-186 | once the destructor is through no task ever started for the executor lives and all its tasks have id NONE, whatever came in between |
| `ConnectedTimers.HolderLeavesQuiet` | Exps/Exp_Inter-Ours/src/ours_executor_impl.cpp:332-343 | and the holder leaves a quiet driver, interrupts between the stores of close included |
| `SecondSetup.SecondSetupLosesTheDevice` | Exps/Exp_Inter-Ours/src/ours_executor_impl.cpp:291-296 | after any run of one executor from boot to its wait, a second spin and then its destructor leave the device open iff it held the device when it spun again; after a failed first open the second is harmless |
| `RtExecutor.CallbackTask.constructor` | Exps/Exp_Inter-Ours/src/ours_executor_impl.cpp:61-69 | a task object without id, not running |
| `RtExecutor.CallbackTask.Start` | Exps/Exp_Inter-Ours/src/ours_executor_impl.cpp:78-113 | creates and starts an RTEMS task; a failed start leaves it deleted with id NONE |
| `RtExecutor.CallbackTask.Stop` | Exps/Exp_Inter-Ours/src/ours_executor_impl.cpp:115-124 | clears the flag, sends the event, deletes the RTEMS task and clears the id, with anything happening in between; nothing when not running |
| `RtExecutor.CallbackTask.Notify` | Exps/Exp_Inter-Ours/src/ours_executor_impl.cpp:126-131 | sends the event iff there is an id |
| `RtExecutor.Executor.constructor` | Exps/Exp_Inter-Ours/src/ours_executor_impl.cpp:171-179 | no registration, no device |
| `RtExecutor.Executor.RegisterRtTimer` | Exps/Exp_Inter-Ours/src/ours_executor_impl.cpp:188-214 | next channel with the converted period and a fresh stopped task, -1 when channels are used up |
| `RtExecutor.Executor.RegisterRtSubscription` | Exps/Exp_Inter-Ours/src/ours_executor_impl.cpp:216-285 | starts a task of its own at once; -1 and no registration when absent or not started |
| `RtExecutor.Executor.StartAllTasks` | Exps/Exp_Inter-Ours/src/ours_executor_impl.cpp:345-350 | starts every timer task that is not running, in order |
| `RtExecutor.Executor.OpenDevice` | Exps/Exp_Inter-Ours/driver/rtss_timer_driver.c:259-275 | rtss_open test by test and store by store, with anything happening in between |
| `RtExecutor.Executor.SetupTimer` | Exps/Exp_Inter-Ours/src/ours_executor_impl.cpp:306-322 | SET_PERIOD, SET_TASK, START for one timer, giving up after a failed start or a refused period, with interrupts between the ioctls |
| `RtExecutor.Executor.SetupTimerDriver` | Exps/Exp_Inter-Ours/src/ours_executor_impl.cpp:287-330 | takes exactly the set-up steps of the state machine, in any environment; true iff there is no timer or the device was opened |
| `RtExecutor.Executor.SpinSetup` | Exps/Exp_Inter-Ours/src/ours_executor_impl.cpp:358-368 | so does spin() up to the point where it blocks |
| `RtExecutor.Executor.StopAllTasks` | Exps/Exp_Inter-Ours/src/ours_executor_impl.cpp:352-356 | stops every timer and subscription task, in order, three steps each |
| `RtExecutor.Executor.TeardownTimerDriver` | Exps/Exp_Inter-Ours/src/ours_executor_impl.cpp:332-343 | nothing without a descriptor; otherwise STOP for every registered channel, the stores of close, descriptor -1, with interrupts anywhere |
| `RtExecutor.Executor.Destroy` | Exps/Exp_Inter-Ours/src/ours_executor_impl.cpp:181-186 | so does the destructor: tasks stopped, then teardown |
| `SoloRuns.SaneRunIsSafe` | Exps/Exp_Inter-Ours/src/ours_executor_impl.cpp:287-389 | in a sane environment every step of such a run is one the methods may take (no overflow, no endless loop), and every state in it satisfies the invariant of `Ownership` |
| `SpinCancel.ShutdownIsNotLost` | Exps/Exp_Inter-Ours/src/ours_executor_impl.cpp:368-388 | spin() returns only after a shutdown event was sent, and one sent to the published id stays pending until received |
| `SpinCancel.SpinReturnsIff` | Exps/Exp_Inter-Ours/src/ours_executor_impl.cpp:383-389 | after one cancel has read the id and sent what it could, with no other that far, spin() left alone returns iff spin_task_id_ was published when the cancel read it |
| `SpinCancel.SpinReturnsIffSent` | Exps/Exp_Inter-Ours/src/ours_executor_impl.cpp:368-388 | with any number of cancels: once the id is published, spin() left alone returns iff the event has been sent |
| `SpinCancel.SecondSpinThrowsIff` | Exps/Exp_Inter-Ours/src/ours_executor_impl.cpp:358-366 | a second spin() throws iff the flag is set: without a cancel exactly while the first is under way, never after a cancel or its return |
| `SpinCancel.EarlyCancelIsLost` | Exps/Exp_Inter-Ours/src/ours_executor_impl.cpp:383-389 | a cancel before the id is published is lost: spin() then never returns |
| `ChainLatency.Experiment.TimerCallback` | Exps/Exp_Inter-Ours/src/exp3inter_ours_main.cpp:117-146 | resets the sums, publishes the truncated stamp; nothing once done; chain of length one measured at once |
| `ChainLatency.Experiment.RelayCallback` | Exps/Exp_Inter-Ours/src/exp3inter_ours_main.cpp:168-182 | adds dispatch and publish time; only the dispatch time when the publisher is gone |
| `ChainLatency.Experiment.FinalCallback` | Exps/Exp_Inter-Ours/src/exp3inter_ours_main.cpp:201-230 | records the three statistics, counts the round, sets done at the 500th |
| `ChainLatency.SummaryIsExact` | Exps/Exp_Inter-Ours/src/exp3inter_ours_main.cpp:71-93 | minimum and maximum of the statistics bound all recorded values and are attained; sum and count are exact |
| `ChainLatency.Telescope` | Exps/Exp_Inter-Ours/src/exp3inter_ours_main.cpp:117-209 | for every chain length: end-to-end = publish + dispatch + entry gaps |
| `ChainLatency.RelaysRecord` | Exps/Exp_Inter-Ours/src/exp3inter_ours_main.cpp:168-182 | the globals after the relays hold exactly the publish sum and the dispatch sum so far |
| `ChainLatency.TruncationIsExactIff` | Exps/Exp_Inter-Ours/src/exp3inter_ours_main.cpp:60-69 | subtracting 32-bit stamps with wrap-around is exact iff the duration is below 2^31 ns |
| `ChainLatency.RoundRecords` | Exps/Exp_Inter-Ours/src/exp3inter_ours_main.cpp:117-230 | one sequential round from any state: the three statistics grow by their true values, and publish + sched <= e2e |
| `ChainLatency.ExperimentAdds` | Exps/Exp_Inter-Ours/src/exp3inter_ours_main.cpp:95-102 | any number of rounds: the first 500 are counted, and accumulated e2e = publish + dispatch + gaps |
| `ChainLatency.AloneRecords` | Exps/Exp_Inter-Ours/src/exp3inter_ours_main.cpp:117-132 | a chain of one node: each of the first 500 timer callbacks is a round recorded with its duration |
| `ChainLatency.DoneFreezes` | Exps/Exp_Inter-Ours/src/exp3inter_ours_main.cpp:117-204 | once done no callback changes or publishes anything |
| `ChainLatency.RelayWithoutPublisher` | Exps/Exp_Inter-Ours/src/exp3inter_ours_main.cpp:168-174 | a relay whose publisher is gone adds its dispatch time only |
| `ChainLatency.CallbackInsidePublish` | Exps/Exp_Inter-Ours/src/exp3inter_ours_main.cpp:140-145 | in a chain of two, with the final callback inside the timer's publish call, publish + sched exceed e2e iff the latest earlier publish returned before the round began |
| `ChainLatency.FinalInsideRelayPublish` | Exps/Exp_Inter-Ours/src/exp3inter_ours_main.cpp:168-182 | in any longer chain, with the final callback inside the last relay's publish call, they exceed e2e iff that relay's dispatch took longer than the entry-to-publish gaps before it together |
| `VariableExpansion.FindAllIsReferences` | Exps/Exp_Inter-Ours/rtems_waf/pkgconfig.py:81 | findall on a well-formed string lists its references in order |
| `VariableExpansion.ReplaceIsSubstitute` | Exps/Exp_Inter-Ours/rtems_waf/pkgconfig.py:85 | str.replace of a reference changes the whole references of that name and nothing else |
| `VariableExpansion.SubstituteKeepsMeaning` | Exps/Exp_Inter-Ours/rtems_waf/pkgconfig.py:85 | one replace keeps the full recursive expansion |
| `VariableExpansion.PassKeepsMeaning` | Exps/Exp_Inter-Ours/rtems_waf/pkgconfig.py:82-86 | so does a pass over any list of references in any order |
| `VariableExpansion.PassLowers` | Exps/Exp_Inter-Ours/rtems_waf/pkgconfig.py:82-86 | a pass over any list containing all references lowers the greatest level of a defined one |
| `VariableExpansion.GroundedWithinSize` | Exps/Exp_Inter-Ours/rtems_waf/pkgconfig.py:77-86 | whatever unfolds at all unfolds within as many levels as there are definitions |
| `VariableExpansion.EndsIff` | Exps/Exp_Inter-Ours/rtems_waf/pkgconfig.py:77-86 | the loop ends iff no reference leads into a cycle of definitions |
| `VariableExpansion.LowerIsCaseless` | Exps/Exp_Inter-Ours/rtems_waf/pkgconfig.py:71-84 | labels become equal iff they differ in the case of ASCII letters alone; the result holds no capital |
| `VariableExpansion.ReferenceIsCaseless` | Exps/Exp_Inter-Ours/rtems_waf/pkgconfig.py:83-85 | a reference in any case expands by the definition stored in lower case |
| `VariableExpansion.WellFormedOnCharacters` | Exps/Exp_Inter-Ours/rtems_waf/pkgconfig.py:75-81 | the strings covered are those in which every dollar sign starts a reference, stated on their characters |
| `VariableExpansion.Package.Get` | Exps/Exp_Inter-Ours/rtems_waf/pkgconfig.py:70-87 | a label in any case finds the field stored in lower case, an error iff there is none; otherwise exactly the full expansion, undefined references untouched |
| `VariableExpansion.Package.ExpandFully` | Exps/Exp_Inter-Ours/rtems_waf/pkgconfig.py:77-87 | the outer loop ends and yields the rendering of the full expansion |
| `VariableExpansion.Package.ReplaceAll` | Exps/Exp_Inter-Ours/rtems_waf/pkgconfig.py:81-86 | the inner loop performs one pass and reports whether anything was defined |
| `DependencyPaths.KeptIsSamePath` | Exps/Exp_Inter-Ours/rtems_waf/gccdeps.py:131 | dropping empty and `.` segments keeps the lexical location |
| `DependencyPaths.CancelPair` | Exps/Exp_Inter-Ours/rtems_waf/gccdeps.py:137-139 | deleting a name and the `..` after it keeps the lexical location and the lowest point of the walk |
| `DependencyPaths.WalkLaws` | Exps/Exp_Inter-Ours/rtems_waf/gccdeps.py:129-141 | walking: empty segments and `.` stay, a name descends, `..` ascends unless at the root |
| `DependencyPaths.WalkConcat` | Exps/Exp_Inter-Ours/rtems_waf/gccdeps.py:129-141 | the parts of a path are walked one after the other |
| `DependencyPaths.DotsAreNothing` | Exps/Exp_Inter-Ours/rtems_waf/gccdeps.py:131 | an empty segment or a `.` may be dropped or added anywhere |
| `DependencyPaths.Normalise` | Exps/Exp_Inter-Ours/rtems_waf/gccdeps.py:129-141 | for every base and path: fails iff the path climbs above the root; otherwise no empty segment, `.` or `..` is left and base plus rest is the same location, split at the lowest point |

## Left out

- VariableExpansion.Package.Get: covers fields and definitions in which every dollar sign starts a
  reference (`VariableExpansion.WellFormedOnCharacters`); with others a replacement can create new
  references by joining neighbouring text. Lower-casing is modelled on ASCII letters.
- DriverRuns.Perform: the time between the clock reading and the register store that starts the
  countdown is taken as zero; the caller that closes makes no ioctl during its close.
- EndToEnd.EndToEndRate: the target of the channel is not changed during the run, no other channel is
  pointed at the same task, and its events come from the driver only, as the executor has it
  (`ConnectedTimers.SetupConnectsTimers`).
- Countdown.MultiLegProgress: counts the legs of the channel whose expiry is nearest; for the others
  see `Countdown.EveryChannelIsServed`.
- RtExecutor.Executor.OpenDevice: the methods run one executor on its platform; the steps of other
  executors in between are in `Ownership` only.
- ConnectedTimers.SetupConnectsTimers: runs in which two opens overlap are left to `DeviceHolders`.
- ChainLatency.ExperimentAdds: the 64-bit sums of the statistics are unbounded integers here.
- run_loop, spin's wait and cancel are step machines over their program points, not methods, because
  other tasks act between any two of their steps.
- Device files, the interrupt status register, the empty read and write entries, the mode argument of
  SET_MODE, which the driver ignores.
- RTEMS scheduling and priorities: every interleaving is allowed instead.
- Reuse of RTEMS ids after deletion, torn 64-bit stores, compiler reordering, exceptions thrown by
  callbacks (caught and printed by the source).
- DDS delivery: a DDS notification appears as a wake-up without a message, since the callback takes
  only from the intra-process path.
- Parsing of pkg-config files and of compiler dependency files, the node cache and file look-up.
- The other experiments' mains and the other executors: the same accounting around other executors.
