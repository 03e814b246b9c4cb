# flora-helloworld control plane in Dafny

This project models the runtime control plane of the flora-helloworld node firmware
(ETH Zurich, TEC) and proves properties of the model. The node is an STM32L4 radio node.
The control plane has four parts:

- **Operating-mode state machine** (`Lpm`, Src/lpm.c).
  - Five modes (Reset, Active, Idle, LowPower, Woken) and five events (Init, Wakeup,
    Done, Stopped, Restored).
  - A fixed 5×5 table with a fail-safe default to Reset.
  - Deep-sleep entry (`lpm_prepare`) and exit (`lpm_resume`). These are modelled as
    ordered traces of abstract hardware actions, which feed Stopped and Restored events
    back into the table.
- **Time-synchronisation engine** (`TimeSync`, Src/task_timesync.c).
  - A time-request edge latches the local lptimer value.
  - The master's UNIX timestamp closes the sync point.
  - `update_time` estimates the drift of the local clock in ppm, rejects outliers,
    smooths the estimate and caps it at ±100 ppm.
  - `get_time` maps any lptimer value to UNIX microseconds.
- **Message and command handling** (`Message`, Src/message.c).
  - Validating and routing DPP messages.
  - Decoding commands into queue inserts, configuration changes and board actions.
  - The bounded, time-ordered list of pending baseboard commands.
  - The periodic baseboard-enable slot.
- **RTOS sleep hooks** (`FreeRtos`, Src/freertos.c). The CPU duty-cycle counters kept around
  sleep, the duty-cycle query and reset, and the idle hook's reset guard.

`CTypes` holds the C arithmetic the firmware depends on:
- conversions to 32- and 64-bit integers that wrap;
- two's-complement narrowing to `int32_t`/`int64_t`;
- C's division, which truncates toward zero.

The narrowing conversions to signed types are modulo 2^N, as GCC defines them. Overflow
in signed arithmetic is undefined in C; the model assumes it wraps, as with `-fwrapv`
(see "## Left out").

Each stateful C file becomes a class whose fields are the file's statics:
- `Lpm.PowerManager`
- `TimeSync.TimeSyncEngine`
- `Message.CommandProcessor`, with `Message.PendingList`
- `FreeRtos.DutyCycleMonitor`

Each method's `ensures` ties the new state to a value-level function of the old state:
- `Lpm.Update`, `Lpm.Prepare`, `Lpm.Resume`
- `TimeSync.OnCapture`, `TimeSync.OnSetTime`, `TimeSync.Reconcile`
- `Message.ListInsert`, `Message.DuePrefix`, `Message.PeriodicStep`
- `FreeRtos.PreSleep`, `FreeRtos.PostSleep`, `FreeRtos.Reset`

The lemmas state what the firmware promises about those functions.

Interfaces to hardware and libraries become parameters:
- **Time inputs:** `lptimer_now()` is an argument `now`. `get_time(0)` in the message code is an argument `nowUs`.
- **Constants:** `LPTIMER_SECOND` is a `TickRate` argument; its value is left open.
- **RTC lookup:** `rtc_get_next_timestamp_at_daytime` is a function argument.
- **DPP library:** its constants and `crc16` are a `Dpp` record. `crc16` is an uninterpreted function.

Board effects are recorded as ordered action lists, and hardware steps as trace entries.

The model covers the baseboard build (`BASEBOARD` set to 1): the queue, the baseboard commands
and `schedule_command`. The configuration shipped in Inc/app_config.h:43 sets it to 0, which
compiles the queue out. `LOW_POWER_MODE` is Stop2 (Inc/app_config.h:45).
`configUSE_TICKLESS_IDLE` is the `ticklessIdle` field of `Lpm.PowerManager`. The firmware's
`lp_mode_t` is not part of this model. It is assumed to list Sleep, Stop2, Standby and
Shutdown in that order, so `lp_mode >= LP_MODE_STOP2` means "not Sleep".

Src/message.c:222 advances the periodic start only while it is before now. A catch-up that
lands exactly on now therefore leaves the slot due; see
`Message.PeriodicRefiresInSameSecond`.

## Model

| member | source | states |
|---|---|---|
| CTypes.Div | Src/task_timesync.c:78 | C division: the remainder has the dividend's sign and is smaller than the divisor in magnitude |
| CTypes.DivMonotone | Src/task_timesync.c:126 | truncating division by a positive divisor is monotone in the dividend |
| CTypes.DivSign | Src/task_timesync.c:69 | a truncated quotient by a positive divisor never has the opposite sign of the dividend |
| Lpm.FailSafeDefault | Src/lpm.c:43-52 | a table entry is not Reset exactly for the nine listed (mode, event) pairs |
| Lpm.Transition | Src/lpm.c:43-52 | the op_mode_state_machine table, row by row; FailSafeDefault and LowPowerOnlyFromIdle state its shape |
| Lpm.Resume | Src/lpm.c:196-256 | lpm_resume always ends with the HAL tick resume and changes the mode only from Woken |
| Lpm.Update | Src/lpm.c:64-72 | update_opmode first records its event; only Wakeup adds further steps, ending with the tick resume of lpm_resume |
| Lpm.EntrySteps | Src/lpm.c:93-185 | deep-sleep entry starts by putting the radio to sleep and ends by arming the low-power mode; LPTIM1 is disabled exactly for Standby and Shutdown |
| Lpm.Prepare | Src/lpm.c:76-193 | lpm_prepare leaves the mode alone or moves Idle to LowPower, and a change of mode comes with the Stopped event |
| Lpm.Run | Src/lpm.c:64-72 | repeated update_opmode over an event sequence; ResetSticksWithoutInit and DutyCycleReturnsToLowPower state its properties |
| Lpm.ResetLeftOnlyByInit | Src/lpm.c:46 | from Reset, Init leads to Active and every other event stays in Reset, both in the table and through update_opmode |
| Lpm.ResetSticksWithoutInit | Src/lpm.c:46 | any event sequence without Init leaves the machine in Reset |
| Lpm.WakeupEndsActive | Src/lpm.c:64-72 | after update_opmode(Wakeup) the mode is Active from every mode but Reset. From LowPower and from Woken the trace is Wakeup, the restore steps, Restored, then the tick resume. From Reset, Active and Idle it is only Wakeup and the tick resume |
| Lpm.LowPowerOnlyFromIdle | Src/lpm.c:48-49 | an update reaches LowPower if and only if the mode was Idle and the event was Stopped |
| Lpm.ResumeGatedOnWoken | Src/lpm.c:198-255 | lpm_resume changes the mode (Woken to Active) and restores clocks only when the mode is Woken; otherwise it only resumes the HAL tick |
| Lpm.PrepareGatedOnIdle | Src/lpm.c:84-90 | lpm_prepare moves Idle to LowPower in a deep mode and leaves every other mode, or Idle under Sleep, unchanged without touching the radio |
| Lpm.PrepareOrder | Src/lpm.c:93-187 | entering deep sleep puts the radio to sleep before the peripherals are disabled and before the Stopped event, and Stopped is the last step |
| Lpm.ResumeOrder | Src/lpm.c:210-248 | leaving deep sleep restores clocks, then peripherals, then interrupts, then raises Restored |
| Lpm.DutyCycleReturnsToLowPower | Src/lpm.c:48-49 | from LowPower, running the events Wakeup and Done and then lpm_prepare returns to LowPower in a deep mode (to Idle under Sleep) |
| Lpm.PowerManager.constructor | Src/lpm.c:42-53 | the machine starts in Reset with the configured low-power mode and an empty trace |
| Lpm.PowerManager.GetOpmode | Src/lpm.c:58-61 | get_opmode returns the current operating mode |
| Lpm.PowerManager.UpdateOpmode | Src/lpm.c:64-72 | the mode becomes the table entry; for Wakeup, lpm_resume follows; the trace grows by exactly those steps |
| Lpm.PowerManager.LpmPrepare | Src/lpm.c:76-193 | mode and trace after lpm_prepare are those of Prepare (tick suspend when tickless, mode gate, deep-sleep entry, Stopped event) |
| Lpm.PowerManager.ConfigureDeepSleep | Src/lpm.c:93-185 | the deep-sleep entry steps in order, with LPTIM1 disabled only for Standby and Shutdown; the mode is untouched |
| Lpm.PowerManager.LpmResume | Src/lpm.c:196-256 | mode and trace after lpm_resume are those of Resume |
| TimeSync.OnCapture | Src/task_timesync.c:130-136 | a capture latches now - 1 (wrapping) and marks a request only when none is outstanding; nothing else changes |
| TimeSync.OnSetTime | Src/task_timesync.c:104-117 | set_time without an outstanding request changes nothing; with one it pairs the UNIX time with the latched tick, clears the request and marks the sync point updated |
| TimeSync.MasterInterval | Src/task_timesync.c:67 | master_ts_diff_us, the 64-bit signed UNIX interval since the anchor; RepeatedTimestampReachesZeroDivisor and NarrowedDriftWrapsIntoRange evaluate it |
| TimeSync.LocalInterval | Src/task_timesync.c:68 | local_ts_diff_us, the lptimer interval since the anchor in microseconds; NarrowedDriftWrapsIntoRange evaluates it |
| TimeSync.Drift | Src/task_timesync.c:69 | the exact drift in ppm, truncated toward zero; DriftSign and DriftExample state its properties |
| TimeSync.DriftAsWritten | Src/task_timesync.c:69 | line 69's drift with int64 arithmetic and int32 narrowing; DriftAsWrittenAgrees relates it to Drift |
| TimeSync.Classify | Src/task_timesync.c:64-71 | there is no sample exactly without a previous anchor; a zero master interval is rejected exactly when there is an anchor; otherwise the sample is the exact drift of the two intervals, and it is accepted if and only if that drift is strictly within ±100 ppm |
| TimeSync.ClassifyAsWritten | Src/task_timesync.c:66-71 | the classification exactly as the code computes it, defined only for a non-zero master interval: the sample is the code's drift (int64 arithmetic, narrowed to int32), accepted if and only if that narrowed value is strictly within ±100 |
| TimeSync.Clamp | Src/task_timesync.c:81-85 | the cap keeps values within ±100 and leaves values already within unchanged; above 100 gives 100, below -100 gives -100 |
| TimeSync.Fold | Src/task_timesync.c:75-85 | the folded average is always within ±100, and an in-range sample replaces an average of 0 |
| TimeSync.Reconcile | Src/task_timesync.c:59-100 | update_time clears both flags and advances the anchor if and only if a sync point was pending (whatever the sample). It sets the average to the fold of an accepted sample and changes it in no other case. It keeps the drift bound |
| TimeSync.TimeAt | Src/task_timesync.c:121-127 | get_time's value; SyncPointMapsToUnixTime, TimeAtExact and TimeAtMonotone state its properties |
| TimeSync.FoldRule | Src/task_timesync.c:75-79 | an accepted sample replaces an average of 0 and is otherwise averaged with it by truncating division; no other reconcile touches the average |
| TimeSync.HalfOfBoundedSum | Src/task_timesync.c:78-85 | averaging within the bound stays within it, so the cap never changes a freshly folded average |
| TimeSync.SmoothingHalvesDistance | Src/task_timesync.c:75-85 | folding an accepted sample into a non-zero average within the bound at least halves the distance between the average and the sample, up to one ppm of truncation |
| TimeSync.UnansweredCaptureDiscarded | Src/task_timesync.c:98-99 | after reconciling no request is outstanding, so a capture the master never answered is dropped and a late set_time changes nothing |
| TimeSync.DriftStaysBounded | Src/task_timesync.c:81-85 | the average drift stays within ±100 ppm across any sequence of captures, sync points and reconciles |
| TimeSync.DriftSign | Src/task_timesync.c:67-86 | a local interval no longer than the master interval gives a drift of at most 0 (local clock slow), a longer one at least 0 |
| TimeSync.DriftExample | Src/task_timesync.c:69 | 1 000 000 us local against 1 000 050 us master is -49 ppm (truncated toward zero) |
| TimeSync.DriftAsWrittenAgrees | Src/task_timesync.c:69 | where no intermediate wraps, the code's drift equals the exact drift |
| TimeSync.RejectedSampleStillAdvancesAnchor | Src/task_timesync.c:89-96 | an out-of-range sample keeps the old average, yet its sync point becomes the anchor from which the next master interval is measured |
| TimeSync.SyncPointMapsToUnixTime | Src/task_timesync.c:126 | get_time at the sync point's local tick returns the sync point's UNIX time |
| TimeSync.TimeAtExact | Src/task_timesync.c:126 | where nothing wraps, get_time is the UNIX time plus the drift-corrected elapsed ticks, truncated |
| TimeSync.TimeAtMonotone | Src/task_timesync.c:121-127 | for any average drift within ±100 ppm, get_time never decreases as the tick grows (no-wrap range) |
| TimeSync.RepeatedTimestampReachesZeroDivisor | Src/task_timesync.c:66-69 | two sync points with the same UNIX time pass the guard at line 66 with a zero divisor at line 69; the corrected classification rejects the sample and keeps the average |
| TimeSync.NarrowedDriftWrapsIntoRange | Src/task_timesync.c:69-71 | a 4296 s local interval against a 1 s master interval yields 50 ppm after the int32 narrowing and is accepted; the exact drift is rejected |
| TimeSync.TimeSyncEngine.constructor | Src/task_timesync.c:49-62 | all statics start at zero/false, which satisfies the drift bound |
| TimeSync.TimeSyncEngine.GpioPin3Callback | Src/task_timesync.c:130-140 | the capture of OnCapture, then update_opmode(Wakeup) on the mode machine |
| TimeSync.TimeSyncEngine.SetTime | Src/task_timesync.c:104-118 | the statics change as OnSetTime says |
| TimeSync.TimeSyncEngine.UpdateTime | Src/task_timesync.c:59-100 | the statics change as Reconcile says, and the drift bound is kept |
| TimeSync.TimeSyncEngine.FoldSample | Src/task_timesync.c:75-85 | the average becomes the capped fold of the accepted sample; nothing else changes |
| TimeSync.TimeSyncEngine.GetTime | Src/task_timesync.c:121-127 | get_time on the engine's statics: the sync point's own tick maps to its UNIX time |
| Message.InsertPos | Src/message.c:84 | the insert position follows every entry whose time is at most the new one and precedes the first later one |
| Message.InsertSorted | Src/message.c:84 | the insert adds one entry, the new one; InsertKeepsOrder and InsertIsStable state where it lands |
| Message.InsertKeepsOrder | Src/message.c:84 | inserting into a sorted list keeps it sorted and adds exactly the new entry (as a multiset) |
| Message.InsertIsStable | Src/message.c:84 | the new entry lands after every entry with an equal or earlier time and before every later one; no other entry moves |
| Message.ListInsert | Src/message.c:84 | the insert succeeds if and only if fewer than 10 entries are pending; a refused insert changes nothing, an accepted one keeps the order and adds the entry |
| Message.PendingList.Insert | Src/message.c:84 | list_insert: result and new list are those of ListInsert, and the list stays bounded and sorted |
| Message.PendingList.Head | Src/message.c:186 | list_get_head: absent exactly for an empty list, otherwise the first entry |
| Message.PendingList.HeadIsEarliest | Src/message.c:186 | in the sorted list the head is an earliest entry |
| Message.PendingList.RemoveHead | Src/message.c:210 | removing the head drops the first entry and keeps the list bounded and sorted |
| Message.CurrentSeconds | Src/message.c:185 | curr_time is the UNIX time in whole seconds (truncated to 32 bits after the year 2106) |
| Message.DuePrefix | Src/message.c:190 | the length of the head run the drain loop removes, at most the list's length (so the slices in the drain's contract are defined); DuePrefixBounds states what the run is |
| Message.DuePrefixBounds | Src/message.c:190 | every entry of the head run is due and the entry behind it is not |
| Message.DueSplitIsExact | Src/message.c:190-212 | in a sorted list an entry is due if and only if it lies in the head run |
| Message.Effects | Src/message.c:192-209 | a scheduled command acts exactly when it is an enable or a disable; only an enable switches the baseboard on, and it sends the wake-up mode with its argument |
| Message.ExecuteAll | Src/message.c:190-212 | the board actions of a run of commands in list order; ExecuteAllSplits states how it composes |
| Message.NoDueCommandLeft | Src/message.c:190-214 | after draining, the list is empty or its head is in the future, and every entry not yet due is still pending |
| Message.ExecuteAllSplits | Src/message.c:190-212 | executing a run of commands is executing its parts one after the other, so each due command acts once, in list order; the drain loop's accounting step ExecuteAppend is this lemma for a one-entry tail |
| Message.Advance | Src/message.c:222-224 | the catch-up leaves the start alone without a period or when not behind; otherwise it reaches now and overshoots by less than a period |
| Message.Periods | Src/message.c:222-224 | the catch-up adds a whole number of periods |
| Message.AdvanceIsSmallest | Src/message.c:222-224 | the new start time is the smallest start + k * period that is not before now |
| Message.AdvanceExample | Src/message.c:222-224 | start 100, period 60, now 250 advances to 280 |
| Message.CatchUpAsWritten | Src/message.c:222-224 | the start time after n rounds of the catch-up loop as written, each addition wrapping modulo 2^32 |
| Message.CatchUpKeepsResidue | Src/message.c:222-224 | with start and period multiples of 4, every wrapped round keeps the start a multiple of 4 |
| Message.WrappedCatchUpNeverEnds | Src/message.c:222-224 | at now = 2^32 - 1 with period 60, a start of 100 stays below now after any number of rounds, so the loop as written never ends |
| Message.PeriodicStep | Src/message.c:219-226 | the slot changes only when due and with a non-zero period; then its new start lies in [now, now + period). The period is always kept |
| Message.PeriodicActions | Src/message.c:219-221 | the baseboard is switched on and woken, in that order and once each, exactly when the slot is due; nothing else fires |
| Message.PeriodicRefiresInSameSecond | Src/message.c:222 | a catch-up that lands on now keeps the slot due, so a second call in the same second fires again |
| Message.ResolveTime | Src/message.c:298-311 | absolute times are kept (also past ones); an offset below one day is added to the current time in seconds |
| Message.ResolveTimeAsWritten | Src/message.c:298-301 | the code adds the offset to get_time(0) in microseconds narrowed to 32 bits |
| Message.RelativeOffsetInMicroseconds | Src/message.c:298-301 | 30 s at t = 1000 s resolves to 1030 when corrected but to 1 000 000 030 as written |
| Message.RelativeCommandDueAfterOffset | Src/message.c:300-301 | with the corrected resolution a relative command falls due exactly its offset in seconds after scheduling |
| Message.Decide | Src/message.c:56-123 | a command is rejected if and only if it is absent or of an unknown type; a scheduled entry has the command's type |
| Message.ScheduleTimeOf | Src/message.c:72-80 | the scheduled time of an enable or disable; ScheduleTimeMeaning states it |
| Message.CommandEffect | Src/message.c:56-131 | the new configuration, board actions and list for each decision of process_command |
| Message.ScheduleTimeMeaning | Src/message.c:72-80 | enable/disable run at arg32[0], or that many seconds after the generation time when bit 0 of arg[4] is set and a header is present |
| Message.CommandArguments | Src/message.c:74-92 | a disable carries argument 0, an enable the little-endian arg[5], arg[6]; a periodic slot takes its period from arg16[1] in minutes and its daytime from arg[0]:arg[1] |
| Message.MsgLen | Src/message.c:138 | DPP_MSG_LEN: header, payload and CRC length |
| Message.WellFormed | Src/message.c:141-145 | the validity checks of process_message: type, length, payload and CRC; RouteOf states how they route |
| Message.AddressedToNode | Src/message.c:152 | the message targets this node or the broadcast id |
| Message.RouteOf | Src/message.c:141-177 | a message is invalid if and only if absent or failing a type, length, payload or CRC check; not for the node if and only if valid but addressed elsewhere |
| Message.Accepted | Src/message.c:141-177 | process_message's return value; AcceptedMeaning states it |
| Message.AcceptedMeaning | Src/message.c:141-177 | process_message succeeds if and only if the message is valid, addressed to the node or broadcast, and is a command or timesync message |
| Message.CommandProcessor.constructor | Src/message.c:43 | the node starts with the given configuration, no board actions and an empty list |
| Message.CommandProcessor.ProcessCommand | Src/message.c:49-132 | the result is true if and only if the command is known, whether or not its insert succeeded; the new state is CommandEffect's. A reset records the system reset. Enable/disable change only the list. Periodic sets the period (start 0 when the period is 0) and saves the configuration. EXT3 switches the pin. A rejected command changes nothing |
| Message.CommandProcessor.ProcessMessage | Src/message.c:136-178 | the result is Accepted; a command message has exactly the effect process_command has for it (CommandEffect), any other message leaves config, list and board alone; only a timesync message changes the sync state, as set_time does |
| Message.CommandProcessor.ScheduleCommand | Src/message.c:295-311 | the entry with the resolved time is inserted and the result is the insert's result |
| Message.CommandProcessor.ProcessScheduledCommands | Src/message.c:183-227 | the due head run is removed and executed in order, then the periodic slot fires and catches up |
| Message.CommandProcessor.RunDueCommands | Src/message.c:190-212 | the drain loop: exactly the head run is removed and its effects are appended in order |
| Message.CommandProcessor.RunHead | Src/message.c:192-211 | one round of the drain loop: the head's effects, then the head is removed |
| Message.CommandProcessor.Execute | Src/message.c:192-209 | enable switches the baseboard on, wakes it and sends the wake-up mode; disable switches it off; other types do nothing |
| Message.CommandProcessor.RunPeriodicEnable | Src/message.c:219-226 | the slot becomes PeriodicStep's and the board actions PeriodicActions' |
| FreeRtos.PostSleep | Src/freertos.c:163 | waking restarts the awake interval and keeps the counted time |
| FreeRtos.PreSleep | Src/freertos.c:156 | going to sleep adds the awake interval to the active time and keeps the other counters |
| FreeRtos.Elapsed | Src/freertos.c:200 | the 32-bit elapsed time is the time since the reset while that fits 32 bits |
| FreeRtos.CpuDc | Src/freertos.c:198-205 | the duty cycle is 10000 when the 32-bit elapsed time is 0, and at most 10000 when the active time is at most the elapsed time |
| FreeRtos.ResetAsWritten | Src/freertos.c:207-211 | the code clears the active time and restarts the elapsed time but not the awake interval |
| FreeRtos.Reset | Src/freertos.c:207-211 | the corrected reset clears the active time and restarts both the elapsed time and the awake interval |
| FreeRtos.ResetStartsBound | Src/freertos.c:207-211 | right after the corrected reset the active time fits the elapsed time |
| FreeRtos.AwakeTimePasses | Src/freertos.c:156 | the awake bound survives the passing of time |
| FreeRtos.AsleepTimePasses | Src/freertos.c:200 | the asleep bound survives the passing of time |
| FreeRtos.PreSleepKeepsBound | Src/freertos.c:156 | going to sleep adds exactly the awake interval and turns the awake bound into the asleep bound |
| FreeRtos.PostSleepKeepsBound | Src/freertos.c:163 | waking turns the asleep bound into the awake bound |
| FreeRtos.AwakeIntervalOnly | Src/freertos.c:153-165 | a wake at t1 followed by a sleep at t2 adds exactly t2 - t1 |
| FreeRtos.DutyCycleAtMostFull | Src/freertos.c:200-204 | under the accounting bound, and while the time since the reset fits 32 bits, the duty cycle is at most 10000 |
| FreeRtos.ResetAsWrittenOvercounts | Src/freertos.c:207-211 | awake since 100, reset at 150, asleep at 200: as written 200 % is reported, corrected 100 % |
| FreeRtos.DutyCycleMonitor.constructor | Src/freertos.c:66-68 | the counters start at zero |
| FreeRtos.DutyCycleMonitor.PreSleepProcessing | Src/freertos.c:151-157 | lpm_prepare's mode and trace, then the counters of PreSleep |
| FreeRtos.DutyCycleMonitor.PostSleepProcessing | Src/freertos.c:160-166 | the counters of PostSleep, then lpm_resume's mode and trace |
| FreeRtos.DutyCycleMonitor.RtosGetCpuDc | Src/freertos.c:198-205 | the duty cycle of the counters, at most 10000 when the active time fits the elapsed time |
| FreeRtos.DutyCycleMonitor.RtosResetCpuDc | Src/freertos.c:207-211 | the counters after the corrected reset |
| FreeRtos.IdleHookResets | Src/freertos.c:111-113 | the idle hook resets the node if and only if the operating mode is Reset |

## Left out

- **Hardware steps:** register-level HAL work in lpm_prepare/lpm_resume (clock structures, NVIC, SCB, PWR bits, the LEDs, `Error_Handler` on a failed clock configuration) is represented by abstract trace actions; `Error_Handler` does not return and is not modelled.
- **Concurrency:** tasks, notifications, critical sections and the task/interrupt race on the captured timestamp are left out. All calls are sequential.
- **Logging:** `LOG_*` calls are left out, including the typical-drift warning at Src/task_timesync.c:72, which changes no state.
- **BOLT and DPP framing:** `send_message`, `generate_command`, `bolt_read`/`bolt_write` and `crc16` are left out. `generate_command` is recorded as the action `WakeupModeSent`; `crc16` is an uninterpreted function of the message and length.
- **Foreign libraries:** `rtc_get_next_timestamp_at_daytime`, `nvcfg_save` and `lptimer_now` are parameters or recorded actions. The list internals follow the stable bounded sorted contract of `ListInsert`; the flora list library is not part of this model.
- **Baseboard watchdog:** the watchdog (Src/task_timesync.c:154-182) depends on pin state and busy delays and is not modelled.
- **Unused argument:** the `rcvd_from_bolt` argument of process_message is unused by the code and is not modelled.
- **Null message:** process_message reads the message length (line 138) and logs the header (line 146) before or despite the null check at line 141. The model treats an absent message as invalid and does not model the null dereference.
- **System reset:** NVIC_SystemReset does not return. Message.CommandProcessor.ProcessCommand records a `SystemReset` action and reports success, the value the code would return after its `break`.
- Message.CommandProcessor.ProcessScheduledCommands: requires that the current time plus the period fits 32 bits when the periodic slot is due. The code's catch-up loop wraps with no such bound, and then may not terminate (see Findings); the requires excludes that (around the year 2106).
- Message.CommandProcessor.ScheduleCommand: resolves relative offsets in seconds (the corrected `ResolveTime`), not with the microsecond value the code uses; see Findings.
- TimeSync.TimeSyncEngine.UpdateTime: follows the corrected classification (`Classify`), which rejects a zero master interval and range-checks the exact drift; see Findings.
- TimeSync.Reconcile: uses the corrected `Classify` as well, so on the narrowed-drift input of Findings it rejects a sample that Src/task_timesync.c:69-71 accepts, and it never divides by a zero master interval.
- TimeSync.TimeAtMonotone: stated only where no intermediate of get_time wraps (ticks below 2^63, product within int64, result within uint64).
- FreeRtos.DutyCycleAtMostFull: stated only while the time since the last reset fits the 32-bit `elapsed` (about 36 hours at 32768 Hz); beyond that the truncated value can report more than 100 %.
- FreeRtos.DutyCycleMonitor.RtosResetCpuDc: uses the corrected reset, which also restarts the awake interval; see Findings.
- **Signed overflow:** C leaves overflow in signed arithmetic undefined. `TimeSync.DriftAsWritten` and `TimeSync.TimeAt` assume that the int64 subtraction and multiplication of Src/task_timesync.c:69 and :126 wrap, as GCC with `-fwrapv` compiles them. Without that flag the compiler promises nothing there, and the model does not capture it.
- **`LPTIMER_SECOND`:** assumed to be a signed constant, so the division at Src/task_timesync.c:126 is a signed, truncating division.

## Findings

| source | as written | input that shows it | evidently intended | confidence | as-written member | corrected member |
|---|---|---|---|---|---|---|
| Src/message.c:298-301 | `t_now = get_time(0)` is microseconds narrowed to 32 bits, and a relative offset in seconds is added to it | offset 30 s at 1000 s after the epoch resolves to 1 000 000 030 | `t_now = get_time(0) / 1000000`, as at Src/message.c:185 and Src/task_timesync.c:172; 30 s at 1000 s gives 1030 | medium, not executed | Message.ResolveTimeAsWritten (Message.RelativeOffsetInMicroseconds) | Message.ResolveTime (Message.RelativeCommandDueAfterOffset) |
| Src/task_timesync.c:66-69 | only `prev_unix_timestamp != 0` guards the division by `master_ts_diff_us` | two time requests answered with the same UNIX timestamp 1600000000000000 give a master interval of 0 | a zero master interval is rejected like an out-of-range sample | medium, not executed | TimeSync.ClassifyAsWritten (TimeSync.RepeatedTimestampReachesZeroDivisor) | TimeSync.Classify (TimeSync.RepeatedTimestampReachesZeroDivisor) |
| Src/task_timesync.c:69-71 | the drift is narrowed to `int32_t` before the range check | local interval 4295967346 us against master interval 1000000 us gives 50 ppm, accepted | the range check applies to the exact drift (4294967346 ppm, rejected) | medium, not executed | TimeSync.ClassifyAsWritten (TimeSync.NarrowedDriftWrapsIntoRange) | TimeSync.Classify (TimeSync.DriftAsWrittenAgrees) |
| Src/freertos.c:207-211 | rtos_reset_cpu_dc restarts `last_reset` but not `wakeup_timestamp` | awake since tick 100, reset at 150, asleep at 200: active 100 over elapsed 50, 20000 reported | the reset also restarts the awake interval, keeping the duty cycle at most 10000 | medium, not executed | FreeRtos.ResetAsWritten (FreeRtos.ResetAsWrittenOvercounts) | FreeRtos.Reset (FreeRtos.DutyCycleAtMostFull) |
| Src/message.c:222-224 | the catch-up adds the period to the uint32 start time until the start is no longer before curr_time, and the addition wraps modulo 2^32 | curr_time = 4294967295 (2^32 - 1), period 60, start 100: the start stays a multiple of 4 and so never reaches curr_time, and the loop never ends | the start advances to the first start + k * period not before curr_time, in [curr_time, curr_time + period) | low, not executed | Message.CatchUpAsWritten (Message.WrappedCatchUpNeverEnds) | Message.Advance (Message.AdvanceIsSmallest) |
