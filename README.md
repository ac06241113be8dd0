# DSC Keybus change dispatch

This project models the change-dispatch core that sits between a DSC alarm panel's Keybus driver
(`dscKeybusInterface`) and the two applications built on it:

- the ESPHome component `DSCKeybus` (`includes/dscAlarm.h`);
- the Homie firmware (`src/main.cpp`).

The driver decodes the bus. It latches what it decodes into status values, per-partition arrays,
zone bitmaps and `*Changed` flags, and it exposes a write primitive. Both applications run a
periodic pass over that state. The pass publishes each latched change once and consumes its
flag. The applications also turn commands (arm, disarm, fire and panic) into guarded driver
writes. The Homie firmware's refresh (`resetDscStatus`) marks every change flag itself, so the
next pass publishes the whole state. The ESPHome refresh (`resetStatus`) hands the re-marking to
the driver's own `resetStatus`, which is not part of this model. Its own part is to mark the
clock changed and to put the 0xFF sentinel in its caches. Then no cached status code or lights
value holds back the next report.

The model has these parts:

- `Keybus`: the driver state the pass reads and writes, as the class `Keybus.Interface`. Its
  `*Changed` arrays and zone bitmaps are fields that the methods reassign. Its write primitive
  appends to a write log. `Keybus.Panel` is the same state as a value.
- `Zones`: the zone-bitmap fan-out as a function. It gives the 1-based zone and its current bit
  for every set changed bit, lowest zone first.
- `StatusCodes`: `statusText` and the `"%02X: <text>"` status message.
- `PanelClock`: the `"%04d-%02d-%02d %02d:%02d"` panel time and its range checks.
- `Dispatch`, `DispatchFacts` and `PassFacts`: the ESPHome `loop` pass as a function of the
  driver state, the component's caches and the registered callbacks. The callbacks become
  events in an event log. The lemmas state what a pass reports, what it consumes, and what
  `resetStatus` makes it resend.
- `AlarmCommands`: `sendAlarmCommand`'s decision and the 49-character key buffer of
  `write(std::string)`.
- `Component`: the class `Component.DSCKeybus` (driver, caches, callbacks and event log). Its
  methods are proved against `Dispatch` and `AlarmCommands`.
- `Homie` and `HomieFacts`: the firmware's `loopHandler` pass as a function. Each
  `setProperty(..).send(..)` becomes a publication. They also cover what `resetDscStatus` marks
  and how `homieNodeInputHandler` reads a property name.
- `HomieFirmware`: the class `HomieFirmware.Firmware` (driver, access code and publications).
  Its methods are proved against `Homie`.

Unsigned 8-bit values are `bv8`, and the bit operations on zone bitmaps are the ones the source
uses. The firmware computes with `byte`, and that arithmetic is written out as reduction modulo
256 (`Homie.ByteOf`). `String::toInt` becomes `strtol`, which saturates at `LONG_MAX` of the
32-bit target (`Homie.ToLong`).

## Model

| member | source | states |
|---|---|---|
| `Keybus.Interface.Write` | includes/dscAlarm.h:113-114 | one driver write appends exactly one entry (the current write partition and the keys) to the write log, and changes nothing else |
| `Keybus.Interface.Latch` | includes/dscAlarm.h:82 | code outside the model (the driver's own `resetStatus`) leaves every flag, array, zone stream and the clock as it chooses; the write partition and the write log stay |
| `Zones.ZoneChangesMembers` | includes/dscAlarm.h:341-355 | a zone transition is reported exactly when its group's changed bit is set; the transition carries that zone's value bit, and every set changed bit yields one |
| `Zones.ZoneChanges` | includes/dscAlarm.h:341-355 | the fan-out of `n` groups reports at most 8 transitions per group |
| `Zones.GroupChangesMembers` | includes/dscAlarm.h:344-352 | within one group, the reported transitions are exactly the set changed bits, numbered `group*8 + bit + 1`, with their value bits |
| `Zones.ZoneChangesAscending` | includes/dscAlarm.h:341-355 | zones are reported in strictly ascending order and lie in 1 .. 8*groups |
| `Zones.GroupChangesAscending` | includes/dscAlarm.h:344-352 | one group reports its zones in strictly ascending order, inside its own zone range |
| `Zones.LastGroupMembers` | includes/dscAlarm.h:341-355 | the transitions contributed by the last group are exactly the reported ones whose zone lies in that group |
| `Zones.NoChangedBitsNoChanges` | includes/dscAlarm.h:341-355 | all-zero changed masks report no transition |
| `Zones.ClearGroupNoChanges` | includes/dscAlarm.h:344-352 | a zero changed mask reports nothing for its group |
| `StatusCodes.ReadyCodesLabelled` | includes/dscAlarm.h:389-435 | among codes below 0x80, the text is "Unknown" exactly for codes the table does not list |
| `StatusCodes.MenuCodesLabelled` | includes/dscAlarm.h:436-475 | among codes 0x80 .. 0xAF, the text is "Unknown" exactly for unlisted codes |
| `StatusCodes.ServiceCodesLabelled` | includes/dscAlarm.h:476-495 | among codes 0xB0 .. 0xDF, the text is "Unknown" exactly for unlisted codes |
| `StatusCodes.InputCodesLabelled` | includes/dscAlarm.h:496-533 | among codes 0xE0 .. 0xFF, the text is "Unknown" exactly for unlisted codes |
| `StatusCodes.UnknownIffUnlisted` | includes/dscAlarm.h:388-533 | for every status code, the text is "Unknown" if and only if the code is not listed |
| `StatusCodes.DisarmedCodes` | includes/dscAlarm.h:430-433 | "Disarmed" is the text of exactly the codes 0x3D and 0x3E |
| `StatusCodes.StatusTextSamples` | includes/dscAlarm.h:388-533 | sample texts: 0x01 is "Ready", 0x05 is "Armed away", 0xFF is "Disabled", and an unlisted code is "Unknown" |
| `StatusCodes.StatusText` | includes/dscAlarm.h:388-533 | every code, listed or not, has a non-empty label |
| `StatusCodes.HexDigit` | includes/dscAlarm.h:179 | a nibble becomes one upper-case hexadecimal digit that reads back as the nibble |
| `StatusCodes.Hex2` | includes/dscAlarm.h:179 | `%02X` gives exactly two upper-case hexadecimal digits, high nibble first, that read back as the byte |
| `StatusCodes.StatusMessageRoundTrip` | includes/dscAlarm.h:175-181 | the status message parses back to its code and its `statusText` |
| `StatusCodes.StatusMessage` | includes/dscAlarm.h:175-181 | the message is two hexadecimal digits, `": "`, and the code's `statusText` |
| `PanelClock.Padded` | includes/dscAlarm.h:382 | `%0<w>d` of a value below 10^w is exactly `w` decimal digits |
| `PanelClock.PaddedRoundTrip` | includes/dscAlarm.h:382 | the padded digits read back as the value |
| `PanelClock.PanelTime` | includes/dscAlarm.h:378-385 | the time text exists exactly when every field is in range, and then it is 16 characters long |
| `PanelClock.TimeLayout` | includes/dscAlarm.h:382 | the separators `-`, `-`, ` `, `:` sit at fixed positions 4, 7, 10 and 13 |
| `PanelClock.PanelTimeRoundTrip` | includes/dscAlarm.h:378-385 | every field of a sent time reads back from its fixed position in the text |
| `PanelClock.PanelTimeSample` | includes/dscAlarm.h:382 | 2024-03-15 09:30 is sent as `2024-03-15 09:30` |
| `PanelClock.PanelTimeRejects` | includes/dscAlarm.h:379-381 | a month of 13, a day of 0 or a five-digit year sends no time |
| `PanelClock.ValidTime` | includes/dscAlarm.h:379-381 | a time that passes the range checks has fields that fit their widths: a year below 10^4, every other field below 10^2 |
| `AlarmCommands.CommandWrite` | includes/dscAlarm.h:194-223 | a write goes only to the requested partition, and only when that partition exists |
| `AlarmCommands.DisarmOnlyWhenBusy` | includes/dscAlarm.h:201-209 | a disarm is written exactly when the partition exists and is armed or in exit delay; it carries the given code, or the access code when none is given |
| `AlarmCommands.ArmOnlyWhenIdle` | includes/dscAlarm.h:211-216 | an arm is written exactly when the partition exists and is neither armed nor in exit delay; it carries the mode's single key |
| `AlarmCommands.AlarmKeysAlwaysSent` | includes/dscAlarm.h:217-221 | the fire and panic keys are written to every existing partition, whatever its state |
| `AlarmCommands.ArmDisarmExclusive` | includes/dscAlarm.h:199-216 | in any one state a partition accepts a disarm or an arm, never both |
| `AlarmCommands.KeyBuffer` | includes/dscAlarm.h:116-128 | the keys handed to the driver are at most 49 bytes of the keystring's UTF-8 form |
| `AlarmCommands.Bytes` | includes/dscAlarm.h:116-122 | a `std::string` holds at least one byte per character |
| `AlarmCommands.Utf8` | includes/dscAlarm.h:116-122 | one to four bytes per character; an ASCII character is its own single byte, a wider one has only bytes 0x80 and above |
| `AlarmCommands.KeyBufferKeeps` | includes/dscAlarm.h:116-128 | a keystring without NUL whose bytes fit in 49 reaches the driver as its bytes; a longer one is cut to its first 49 bytes |
| `AlarmCommands.AsciiKeysKept` | includes/dscAlarm.h:116-128 | an ASCII keystring of at most 49 keys without NUL reaches the driver unchanged |
| `AlarmCommands.WideKeySplit` | includes/dscAlarm.h:122-123 | a two-byte character across the 49th byte is split, and only its first byte 0xC3 is sent |
| `AlarmCommands.CString` | includes/dscAlarm.h:124-127 | the C string of a buffer is a prefix of it without NUL, ended by the buffer's end or by a NUL |
| `Dispatch.DispatchPartition` | includes/dscAlarm.h:280-333 | a disabled partition reports nothing and keeps its cached code and lights |
| `Dispatch.ZoneStage` | includes/dscAlarm.h:341-376 | a stream keeps its values; a fan-out consumes its summary flag and zeroes every changed mask; otherwise the stream is untouched |
| `Dispatch.Pass` | includes/dscAlarm.h:225-386 | a pass leaves `statusChanged` clear; it keeps the keypad states, every per-partition value, the zone bits, the panel time, the write partition (`Keybus.SameDecoded`) and the entry-delay changes, and only appends to the write log |
| `Dispatch.Reset` | includes/dscAlarm.h:80-88 | after the driver's own reset leaves `driven`, the clock is marked changed and both caches hold 0xFF for every partition; nothing else of `driven` changes |
| `DispatchFacts.GlobalConnection` | includes/dscAlarm.h:239-242 | the connection callback fires exactly when the connection changed and the callback exists, and carries the new state |
| `DispatchFacts.GlobalTrouble` | includes/dscAlarm.h:250-263 | each trouble notification fires exactly when its condition changed and the callback exists, and carries the condition's state |
| `DispatchFacts.GlobalAlarm` | includes/dscAlarm.h:265-278 | each keypad alarm is reported exactly when its key was pressed and the callback exists |
| `DispatchFacts.GlobalSignals` | includes/dscAlarm.h:239-278 | the global notifications come in the source's order: connection, troubles, keypad alarms |
| `DispatchFacts.GlobalFlagsConsumed` | includes/dscAlarm.h:229-278 | every global change flag and pulse is consumed whether or not a callback exists; an access-code prompt is consumed exactly when the driver can write |
| `DispatchFacts.PartitionStatusDecision` | includes/dscAlarm.h:295-322 | one step reports at most one partition status (armed, exit delay or disarmed, following the decision table), and never `Triggered` |
| `DispatchFacts.StepMessage` | includes/dscAlarm.h:285-288 | the status message goes out exactly when the partition is enabled, its code differs from the cached one and the callback exists; the cache then holds the code |
| `DispatchFacts.StepAlarm` | includes/dscAlarm.h:290-293 | the alarm state is reported exactly when it changed, the partition is enabled and the callback exists |
| `DispatchFacts.StepArmed` | includes/dscAlarm.h:295-309 | the armed flags are reported exactly when they changed, the partition is enabled and the callback exists |
| `DispatchFacts.StepStatus` | includes/dscAlarm.h:295-322 | a partition status is reported exactly as the decision table prescribes |
| `DispatchFacts.StepFire` | includes/dscAlarm.h:324-327 | the fire state is reported exactly when it changed, the partition is enabled and the callback exists |
| `DispatchFacts.StepLights` | includes/dscAlarm.h:329-332 | the lights are reported exactly when the partition is enabled, they differ from the cached ones and the callback exists; the cache then holds them |
| `DispatchFacts.DisabledPartitionSkipped` | includes/dscAlarm.h:281-283 | a disabled partition reports nothing, and its flags and caches stay as they were |
| `DispatchFacts.EnabledPartitionFlags` | includes/dscAlarm.h:290-327 | for an enabled partition, the armed and exit-delay changes are always consumed; the alarm and fire changes are consumed only when their callback exists |
| `DispatchFacts.PartitionEventsMembers` | includes/dscAlarm.h:280-333 | the loop reports a change for partition n exactly when partition n's step reports it |
| `PassFacts.PartitionStageEventsMembers` | includes/dscAlarm.h:280-333 | the partition stage's events are exactly the steps' reports, tagged with the 1-based partition |
| `PassFacts.ZoneStageEventsMembers` | includes/dscAlarm.h:341-376 | a stream's fan-out reports exactly the zones whose changed bit is set, each with its current bit |
| `PassFacts.ZoneStageKinds` | includes/dscAlarm.h:341-376 | the open-zone stream reports only zone status changes, and the alarm-zone stream only zone alarm changes |
| `PassFacts.ClockEventsMembers` | includes/dscAlarm.h:378-385 | the clock stage sends only the panel time |
| `PassFacts.PassEventsMembers` | includes/dscAlarm.h:225-386 | the pass's events are the union of its stages' events |
| `PassFacts.PassEventSource` | includes/dscAlarm.h:225-386 | an event of each kind is in the pass exactly when it is among the events of the stage for that kind |
| `PassFacts.QuietPass` | includes/dscAlarm.h:229-232 | without `statusChanged` the pass reports nothing and changes nothing |
| `PassFacts.PassSettles` | includes/dscAlarm.h:229-232 | a pass clears `statusChanged`, so a repeated pass before new data reports nothing |
| `PassFacts.PassConnection` | includes/dscAlarm.h:239-242 | the pass reports a connection change exactly when it runs, the connection changed and the callback exists |
| `PassFacts.PassTrouble` | includes/dscAlarm.h:250-263 | the pass reports a trouble change exactly when it runs, that condition changed and the callback exists |
| `PassFacts.PassKeypadAlarm` | includes/dscAlarm.h:265-278 | the pass reports a keypad alarm exactly when it runs, the key was pressed and the callback exists |
| `PassFacts.PassAnswersPrompt` | includes/dscAlarm.h:244-248 | the access code is written once in answer to a prompt when the driver can write; otherwise the prompt stays pending and nothing is written |
| `PassFacts.PassGlobals` | includes/dscAlarm.h:229-278 | after a pass that runs, the global flags are those the global stage leaves, and the write log has grown by the access-code answer |
| `PassFacts.PassPartitionEvent` | includes/dscAlarm.h:280-333 | a partition change is reported for partition p+1 exactly when the pass runs and that partition's step reports it |
| `PassFacts.PassStatusMessage` | includes/dscAlarm.h:285-288 | the status message of partition p+1 is sent exactly when the partition is enabled, its code differs from the cached one and the callback exists |
| `PassFacts.PassPartitionAlarm` | includes/dscAlarm.h:290-293 | the alarm of partition p+1 is reported exactly when the pass runs, it is enabled, the alarm changed and the callback exists |
| `PassFacts.PassArmed` | includes/dscAlarm.h:295-309 | the armed flags of partition p+1 are reported exactly when the pass runs, it is enabled, they changed and the callback exists |
| `PassFacts.PassPartitionStatus` | includes/dscAlarm.h:295-322 | the partition status callback follows the decision table |
| `PassFacts.PassFire` | includes/dscAlarm.h:324-327 | the fire state of partition p+1 is reported exactly when the pass runs, it is enabled, the state changed and the callback exists |
| `PassFacts.PassLights` | includes/dscAlarm.h:329-332 | the lights of partition p+1 are reported exactly when the pass runs, it is enabled, they differ from the cache and the callback exists |
| `PassFacts.PassPartitionRange` | includes/dscAlarm.h:280-333 | no partition outside 1 .. 8 is ever reported |
| `PassFacts.PassPartitionState` | includes/dscAlarm.h:280-333 | the flags and caches a pass leaves for partition p are those of its step |
| `PassFacts.PassZoneStatus` | includes/dscAlarm.h:341-355 | zone z is reported open or closed exactly when its changed bit is set and the open-zone fan-out runs; the report carries its current bit |
| `PassFacts.PassZoneAlarm` | includes/dscAlarm.h:363-376 | zone z's alarm is reported exactly when its alarm changed bit is set and the alarm-zone fan-out runs; the report carries its current bit |
| `PassFacts.ZoneFanOutOnce` | includes/dscAlarm.h:341-376 | once a pass has fanned a stream out, a later pass reports no zone of that stream until the driver marks one changed again |
| `PassFacts.PassPanelTime` | includes/dscAlarm.h:378-385 | the time is sent exactly when the clock changed, the callback exists and every field is in range; the time sent is the formatted text |
| `PassFacts.StatusMessageOncePerChange` | includes/dscAlarm.h:285-288 | a status message is sent once per change: a later pass with the same code sends none for that partition |
| `PassFacts.ResetResendsStatus` | includes/dscAlarm.h:80-88 | whatever the driver's own reset leaves, if it leaves `statusChanged` set, the next pass resends the status message of every enabled partition whose code is not 0xFF |
| `PassFacts.ResetResendsLights` | includes/dscAlarm.h:80-88 | under the same condition, the next pass resends the lights of every enabled partition whose lights are not 0xFF, when the callback exists |
| `PassFacts.ResetResendsTime` | includes/dscAlarm.h:80-88 | under the same condition, the next pass resends a valid panel time when the callback exists |
| `Component.DSCKeybus.constructor` | includes/dscAlarm.h:28-29 | a component starts with a fresh, well-formed driver, the given access code and callbacks, and an empty event log |
| `Component.DSCKeybus.NotifyKeybusConnectionChange` | includes/dscAlarm.h:157-161 | logs the connection event when the callback is registered, and nothing otherwise |
| `Component.DSCKeybus.NotifyKeypadStatusChange` | includes/dscAlarm.h:163-167 | logs the keypad status event when the callback is registered |
| `Component.DSCKeybus.NotifyKeypadAlarm` | includes/dscAlarm.h:169-173 | logs the keypad alarm event when the callback is registered |
| `Component.DSCKeybus.NotifyPartitionStatusMessage` | includes/dscAlarm.h:175-181 | logs the 1-based partition and the status message when the callback is registered |
| `Component.DSCKeybus.NotifyPartitionStatusChange` | includes/dscAlarm.h:183-187 | logs the 1-based partition's status when the callback is registered |
| `Component.DSCKeybus.NotifyArmedChange` | includes/dscAlarm.h:299-301 | logs the armed change under the 1-based partition when the callback is registered, and nothing otherwise |
| `Component.DSCKeybus.Loop` | includes/dscAlarm.h:225-386 | the new driver state, caches and event log are those `Dispatch.Pass` gives for the old state |
| `Component.DSCKeybus.RunPass` | includes/dscAlarm.h:229-386 | once `statusChanged` is set, the pass's stages run in order and end in the outcome of `Dispatch.Pass` |
| `Component.DSCKeybus.DispatchGlobals` | includes/dscAlarm.h:229-278 | the global flags end as the global stage leaves them, the access-code answer is written, and the global signals are logged in order |
| `Component.DSCKeybus.ConsumeStatus` | includes/dscAlarm.h:229-237 | clears `statusChanged` and `bufferOverflow` and changes nothing else |
| `Component.DSCKeybus.ReportConnection` | includes/dscAlarm.h:239-242 | consumes a connection change and logs it when the callback exists |
| `Component.DSCKeybus.AnswerPrompt` | includes/dscAlarm.h:244-248 | writes the access code and clears the prompt exactly when a prompt is pending and the driver can write |
| `Component.DSCKeybus.ReportTrouble` | includes/dscAlarm.h:250-253 | consumes a trouble change and logs it when the callback exists |
| `Component.DSCKeybus.ReportPowerTrouble` | includes/dscAlarm.h:255-258 | consumes a power trouble change and logs it when the callback exists |
| `Component.DSCKeybus.ReportBatteryTrouble` | includes/dscAlarm.h:260-263 | consumes a battery trouble change and logs it when the callback exists |
| `Component.DSCKeybus.ReportFirePulse` | includes/dscAlarm.h:265-268 | consumes the keypad fire pulse and logs it when the callback exists |
| `Component.DSCKeybus.ReportAuxPulse` | includes/dscAlarm.h:270-273 | consumes the keypad auxiliary pulse and logs it when the callback exists |
| `Component.DSCKeybus.ReportPanicPulse` | includes/dscAlarm.h:275-278 | consumes the keypad panic pulse and logs it when the callback exists |
| `Component.DSCKeybus.DispatchRest` | includes/dscAlarm.h:280-386 | the partition, zone and clock stages run in order and leave the state and log `Dispatch.Pass` prescribes |
| `Component.DSCKeybus.DispatchPartitions` | includes/dscAlarm.h:280-333 | the partition arrays and caches end as `Dispatch.PartitionStage` gives, and the log grows by the partition events |
| `Component.DSCKeybus.PartitionLoop` | includes/dscAlarm.h:280-333 | the loop invariant: after k partitions, exactly those k are written back and their events logged |
| `Component.DSCKeybus.AdvancePartition` | includes/dscAlarm.h:280-333 | one loop iteration extends the progress by that partition's step |
| `Component.DSCKeybus.StepPartition` | includes/dscAlarm.h:281-332 | one partition's body leaves its arrays and caches as its step prescribes and logs its tagged reports |
| `Component.DSCKeybus.StepEnabled` | includes/dscAlarm.h:285-332 | an enabled partition's five sections, run in order, amount to its step |
| `Component.DSCKeybus.ReportUpToArmed` | includes/dscAlarm.h:285-309 | the status-message, alarm and armed-change sections in order |
| `Component.DSCKeybus.ReportFromExitDelay` | includes/dscAlarm.h:311-332 | the exit-delay, fire and lights sections in order |
| `Component.DSCKeybus.ReportStatusMessage` | includes/dscAlarm.h:285-288 | caches a new status code and logs its message when the callback exists |
| `Component.DSCKeybus.ReportAlarm` | includes/dscAlarm.h:290-293 | consumes an alarm change when the callback exists, and logs it |
| `Component.DSCKeybus.ReportArmed` | includes/dscAlarm.h:295-309 | consumes an armed change and logs it, followed by how the partition armed when it is armed |
| `Component.DSCKeybus.ConsumeArmedChange` | includes/dscAlarm.h:296-308 | an armed change is consumed and reported; an arming also consumes a pending exit delay |
| `Component.DSCKeybus.ReportExitDelay` | includes/dscAlarm.h:311-322 | consumes an exit-delay change; reports the exit delay when it started and `Disarmed` when it ended on a disarmed partition |
| `Component.DSCKeybus.ReportFire` | includes/dscAlarm.h:324-327 | consumes a fire change when the callback exists, and logs it |
| `Component.DSCKeybus.ReportLights` | includes/dscAlarm.h:329-332 | caches new lights and logs them when the callback exists |
| `Component.DSCKeybus.DispatchOpenZones` | includes/dscAlarm.h:341-355 | the open-zone stream ends as `Dispatch.ZoneStage` gives, and its zone events are logged |
| `Component.DSCKeybus.DispatchAlarmZones` | includes/dscAlarm.h:363-376 | the alarm-zone stream ends as `Dispatch.ZoneStage` gives, and its zone events are logged |
| `Component.DSCKeybus.DispatchClock` | includes/dscAlarm.h:378-385 | the clock flag is consumed when the callback exists, and the formatted time is logged only when every field is in range |
| `Component.DSCKeybus.FanOut` | includes/dscAlarm.h:343-354 | the nested loops zero every changed mask and log every changed bit as its 1-based zone and current bit, lowest first |
| `Component.DSCKeybus.FanOutGroup` | includes/dscAlarm.h:345-352 | one group's bits, lowest first: every set bit of the mask is notified as zone `zone+1 .. zone+8` with its value bit, and the running `zone` counter advances by 8 |
| `Component.DSCKeybus.SendAlarmCommand` | includes/dscAlarm.h:194-223 | exactly the write `AlarmCommands.CommandWrite` prescribes is made, with the write partition set to the requested one; otherwise nothing changes |
| `Component.DSCKeybus.WriteKeys` | includes/dscAlarm.h:116-128 | refused unless the driver is write-ready; otherwise the buffered keys `AlarmCommands.KeyBuffer` gives (at most 49 bytes) go to the requested `uint8_t` partition |
| `Component.DSCKeybus.WriteKey` | includes/dscAlarm.h:112-115 | one key, a C `char`, goes to the requested `uint8_t` partition |
| `Component.DSCKeybus.ResetStatus` | includes/dscAlarm.h:80-88 | the driver's decoded state becomes the state `driven` its own reset leaves, its write partition and write log stay; then the driver and the caches become those of `Dispatch.Reset` |
| `Component.ProgressStep` | includes/dscAlarm.h:280-333 | one more partition's step extends the loop's progress, and that step is the one the pass prescribes, since its inputs are still untouched |
| `Component.ProgressDone` | includes/dscAlarm.h:280-333 | after every partition, the arrays and caches are the partition stage's |
| `Component.ArmedLog` | includes/dscAlarm.h:295-309 | an armed change logs itself, then how the partition armed; together these are the step's armed reports |
| `Component.DisabledStep` | includes/dscAlarm.h:281-283 | a disabled partition's step changes nothing and reports nothing |
| `Component.FanOutStep` | includes/dscAlarm.h:343-354 | one more group fanned out extends the log by that group's transitions |
| `Component.BitStep` | includes/dscAlarm.h:345-352 | one more bit of a group extends the log by that bit's transition, if any |
| `Component.PassOutcome` | includes/dscAlarm.h:225-386 | the stages' results, put together, are the outcome of `Dispatch.Pass` |
| `Homie.HandlerPass` | src/main.cpp:101-217 | a pass after `handlePanel()` reported data leaves `statusChanged` clear; every pass keeps the keypad states, every per-partition value, the zone bits, the write partition (`Keybus.SameDecoded`) and the whole clock, and only appends to the write log |
| `Homie.Refreshed` | src/main.cpp:64-82 | `resetDscStatus` sets the five global change flags, every partition's five change flags, both streams' summary flags and every zone's changed bit, and changes nothing else: every other flag, every value, the clock, the write partition and the write log stay |
| `Homie.ToLong` | src/main.cpp:249 | `toInt` of a digit run is the run's value when that is at most `LONG_MAX`, and `LONG_MAX` when it is larger |
| `Homie.ExtractPrefix` | src/main.cpp:243-254 | the rest is a suffix of the input; without a leading digit the result is the byte 255 and the input unchanged |
| `Homie.Handle` | src/main.cpp:256-281 | as written: only `partition-` properties are handled, and an arm or disarm request names an index below 8 |
| `Homie.IntendedHandle` | src/main.cpp:256-281 | intended reading: only `partition-` properties are handled, and an arm or disarm request names an index below 8 |
| `Homie.DropFirst` | src/main.cpp:271 | `remove(0, 1)` drops one byte: an ASCII first character goes whole, a wider one leaves a non-ASCII remnant in front of the rest |
| `HomieFacts.DropFirstWord` | src/main.cpp:271-279 | after the drop, the property equals `away` or `stay` exactly when one ASCII character preceded that word |
| `HomieFacts.WideSeparatorNoCommand` | src/main.cpp:256-281 | `partition-1` followed by a two-byte character and `away` is no command, in the reading as written and in the intended one |
| `HomieFacts.PartitionPublicationsMembers` | src/main.cpp:151-178 | partition i publishes a property exactly when that property's changed flag is set; the publication carries the current value under number i+1 |
| `HomieFacts.PartitionsPublicationsMembers` | src/main.cpp:151-178 | the partition loop publishes exactly what the changed flags announce, over all partitions |
| `HomieFacts.ZonePublicationsMembers` | src/main.cpp:186-216 | the zone publications are exactly the stream's transitions, as properties of its kind |
| `HomieFacts.StreamPublicationsMembers` | src/main.cpp:186-216 | a zone stream publishes exactly its set changed bits, each with its value bit, when its summary flag is set |
| `HomieFacts.PassDrains` | src/main.cpp:101-217 | a pass clears every change flag it reads and zeroes the masks it fans out; it keeps `keybusChanged`, the values and the clock; a second pass right after publishes and changes nothing |
| `HomieFacts.RefreshedPartitionProperty` | src/main.cpp:64-82 | after `resetDscStatus`, every partition property is published with its current value |
| `HomieFacts.RefreshedPartitionsPublished` | src/main.cpp:64-82 | after `resetDscStatus`, every partition publishes its exit delay, away, stay, alarm and fire states |
| `HomieFacts.RemarkedZonePublished` | src/main.cpp:77-81 | after `resetDscStatus`, a stream publishes each zone with its current bit |
| `HomieFacts.RemarkedZonesPublished` | src/main.cpp:77-81 | after `resetDscStatus`, a stream publishes every zone with its current bit |
| `HomieFacts.RefreshedTroublesPublished` | src/main.cpp:65-69 | after `resetDscStatus`, the three trouble states are published |
| `HomieFacts.RefreshPublishesEverything` | src/main.cpp:64-82 | after `resetDscStatus`, one pass publishes the current state of every trouble flag, partition property and zone |
| `HomieFacts.DecimalDigits` | src/main.cpp:266-269 | `String(n)` consists of decimal digits |
| `HomieFacts.DecimalValue` | src/main.cpp:266-269 | `String(n)` reads back as n |
| `HomieFacts.DigitRunIs` | src/main.cpp:245-246 | the digit run is exactly i long when the first i characters are digits and the next is not |
| `HomieFacts.ExtractPrefixSplits` | src/main.cpp:243-254 | a written number splits off a name: `toInt` gives its saturated value, the byte result is that value modulo 256, and the rest follows |
| `HomieFacts.ExtractPrefixMissing` | src/main.cpp:244-253 | without a leading digit, nothing is split off: the number is -1 and the byte is 255 |
| `HomieFacts.HandlePrefixed` | src/main.cpp:256-262 | a `partition-` property is read from what follows the prefix |
| `HomieFacts.SelectPrefix` | src/main.cpp:264-269 | as written, the byte `prefix - 1` passes the range check exactly for prefixes 1 .. 8 |
| `HomieFacts.TailNumberedRange` | src/main.cpp:262-280 | as written, the number after `partition-` is taken modulo 256, and only 1 .. 8 pass the range check |
| `HomieFacts.HandleNumbered` | src/main.cpp:256-281 | the handler as written, on `partition-<digits><rest>` |
| `HomieFacts.HandleMissingNumber` | src/main.cpp:264-269 | with no number after `partition-`, the property is out of range, both as written and as intended |
| `HomieFacts.HandlePartitionSuffix` | src/main.cpp:256-281 | a property `partition-<n><suffix>` for an existing partition n selects the command after the suffix's first character, on index n-1 |
| `HomieFacts.HandleArming` | src/main.cpp:273-280 | setting `partition-<n>-away` or `-stay` arms partition n in that mode, or disarms it for `0` or any casing of `off` |
| `HomieFacts.HandleReadOnly` | src/main.cpp:273-281 | the exit-delay, alarm and fire properties of a partition are not commands |
| `HomieFacts.HandleOtherNames` | src/main.cpp:257-259 | the node's other properties are not partition properties |
| `HomieFacts.WrappedPartitionAccepted` | src/main.cpp:264-266 | as written, `partition-257-away` passes the range check and arms partition 1 |
| `HomieFacts.IntendedTailNumbered` | src/main.cpp:262-269 | intended reading: a written number is accepted exactly when it lies in 1 .. 8 |
| `HomieFacts.IntendedHandleNumbered` | src/main.cpp:256-281 | intended reading of `partition-<digits><rest>`: accepted exactly when the number lies in 1 .. 8 |
| `HomieFacts.SelectSaturated` | src/main.cpp:249 | saturation at `LONG_MAX` moves no number into or out of 1 .. 8 |
| `HomieFacts.WrappedPartitionRejected` | src/main.cpp:264-269 | intended reading: `partition-257-away` is out of range |
| `HomieFacts.TailsAgreeBelow256` | src/main.cpp:262-269 | below 256, the code as written and the intended reading agree |
| `HomieFacts.HandleAgreesBelow256` | src/main.cpp:256-281 | below 256, the handler as written and the intended handler agree on every property |
| `HomieFirmware.Firmware.constructor` | src/main.cpp:53-60 | a node starts over a fresh, well-formed driver with an empty write log, the given access code and no publications |
| `HomieFirmware.Firmware.ResetDscStatus` | src/main.cpp:64-82 | the driver state becomes `Homie.Refreshed` of the old state |
| `HomieFirmware.Firmware.MarkAll` | src/main.cpp:65-81 | the five global flags are set, every partition's five changed flags are set, and both streams are re-marked |
| `HomieFirmware.Firmware.MarkPartitions` | src/main.cpp:70-76 | every partition's armed, alarm, exit-delay, entry-delay and fire changed flags are set |
| `HomieFirmware.Firmware.MarkZoneGroups` | src/main.cpp:79-81 | every bit of every changed mask of both streams is set |
| `HomieFirmware.Firmware.LoopHandler` | src/main.cpp:101-217 | the new driver state and publications are those `Homie.HandlerPass` gives for the old state |
| `HomieFirmware.Firmware.RunPass` | src/main.cpp:104-217 | once `statusChanged` is consumed, the global, partition and zone blocks run in order; they leave the flags, arrays and streams drained and publish the blocks' publications in order |
| `HomieFirmware.Firmware.PublishRest` | src/main.cpp:151-216 | the partition loop and both zone streams, in order |
| `HomieFirmware.Firmware.PublishGlobals` | src/main.cpp:108-147 | the global flags end as the pass leaves them, the access code is written in answer to a prompt, and the global publications go out in order |
| `HomieFirmware.Firmware.ReportOverflow` | src/main.cpp:108-111 | consumes a buffer overflow and publishes the overflow message |
| `HomieFirmware.Firmware.AnswerPrompt` | src/main.cpp:114-117 | writes the access code and clears the prompt exactly when a prompt is pending and the driver can write |
| `HomieFirmware.Firmware.ReportTrouble` | src/main.cpp:119-122 | consumes a trouble change and publishes the trouble state |
| `HomieFirmware.Firmware.ReportPowerTrouble` | src/main.cpp:124-127 | consumes a power change and publishes the power trouble state |
| `HomieFirmware.Firmware.ReportBatteryTrouble` | src/main.cpp:129-132 | consumes a battery change and publishes the battery trouble state |
| `HomieFirmware.Firmware.ReportFirePulse` | src/main.cpp:134-137 | consumes the keypad fire pulse and publishes `"1"` |
| `HomieFirmware.Firmware.ReportAuxPulse` | src/main.cpp:139-142 | consumes the keypad auxiliary pulse and publishes `"1"` |
| `HomieFirmware.Firmware.ReportPanicPulse` | src/main.cpp:144-147 | consumes the keypad panic pulse and publishes `"1"` |
| `HomieFirmware.Firmware.PublishPartitions` | src/main.cpp:151-178 | every partition, disabled or not, in order: its changed flags are consumed and its publications go out |
| `HomieFirmware.Firmware.PublishPartition` | src/main.cpp:152-178 | one partition's iteration keeps the loop invariant, with that partition's flags now consumed |
| `HomieFirmware.Firmware.DrainPartition` | src/main.cpp:155-177 | the four blocks of one partition clear its four changed flags and publish its partition publications |
| `HomieFirmware.Firmware.PublishExitDelay` | src/main.cpp:155-158 | consumes partition p's exit-delay change and publishes its exit delay |
| `HomieFirmware.Firmware.PublishArmed` | src/main.cpp:161-165 | consumes partition p's armed change and publishes its away state, then its stay state |
| `HomieFirmware.Firmware.PublishAlarm` | src/main.cpp:168-171 | consumes partition p's alarm change and publishes its alarm state |
| `HomieFirmware.Firmware.PublishFire` | src/main.cpp:174-177 | consumes partition p's fire change and publishes its fire state |
| `HomieFirmware.Firmware.PublishOpenZones` | src/main.cpp:186-197 | the open-zone stream is consumed and its zone transitions are published |
| `HomieFirmware.Firmware.PublishAlarmZones` | src/main.cpp:205-216 | the alarm-zone stream is consumed and its zone transitions are published |
| `HomieFirmware.Firmware.PublishStream` | src/main.cpp:188-196 | the nested loops clear every mask and publish every changed bit as its zone and value, lowest first |
| `HomieFirmware.Firmware.PublishGroup` | src/main.cpp:189-195 | one group's bits, lowest first: each set bit is cleared and published; the mask ends at zero |
| `HomieFirmware.Firmware.Arm` | src/main.cpp:225-230 | an idle partition gets its arming key under its 1-based number, and a busy one is left alone |
| `HomieFirmware.Firmware.Disarm` | src/main.cpp:233-238 | an armed partition, or one in exit delay, gets the access code under its 1-based number; otherwise nothing changes |
| `HomieFirmware.Firmware.HomieNodeInputHandler` | src/main.cpp:256-281 | the handled result, the out-of-range message and the arm or disarm write are those of the corrected reading `Homie.IntendedHandle` |
| `HomieFirmware.ExtractPrefixDigits` | src/main.cpp:243-254 | returns the byte and rest of `Homie.ExtractPrefix`: 255 and the string unchanged when it does not start with a digit |
| `HomieFirmware.ExtractPrefixNumber` | src/main.cpp:244-252 | the loop finds the leading digit run; the result is its `toInt` value and the rest, or -1 and the string unchanged |
| `HomieFirmware.HandlerOutcome` | src/main.cpp:101-217 | the pass's pieces, put together, are the outcome `Homie.HandlerPass` describes |
| `HomieFirmware.RefreshedIs` | src/main.cpp:64-82 | a state marked as `resetDscStatus` marks it is `Homie.Refreshed` |
| `HomieFirmware.GroupStep` | src/main.cpp:189-195 | one more bit of a group extends the publications by that bit's transition, if any |
| `HomieFirmware.StreamStep` | src/main.cpp:188-196 | one more group extends the publications by that group's transitions |
| `HomieFirmware.AboveStep` | src/main.cpp:191-192 | clearing bit b with `bitWrite` removes exactly that bit from what is left of the mask |

## Left out

- The driver's own work is not part of this model: wire decoding, the interrupt handlers, `begin`, `loop`, `handlePanel` and its own `resetStatus`. Its state is a class whose fields the model reads and writes. The result of `handlePanel()` is the parameter `panelHandled` of `LoopHandler`.
- Concurrency with the driver's interrupt routines is not modelled. Every pass sees a state that does not change under it.
- The automatic restart in `loopHandler` (src/main.cpp:95-99) is left out because it depends on `millis()`. So are `dscEnd`, `setupHandler`, and the Homie glue handlers (`onKeypad`, `onRefreshStatus`, `onDscActive`, setup). They are I/O and timer wiring around the modelled operations.
- ESPHome's `setup`, `disconnect`, `set_*` wrappers, the callback registration functions and the `ESP_LOG*` logging are left out. They are configuration and logging. Registration is the `callbacks` field.
- The partition numbers in callbacks and properties are numbers. Homie's property strings are modelled as `Homie.PropertyName`, without the retained flag.
- `Component.DSCKeybus.SendAlarmCommand`: requires `1 <= partition`. With partition 0, the source indexes `armed[-1]`, outside the array, and that has no defined behaviour to model. The upper bound 256 is the range of the `uint8_t` parameter.
- `HomieFirmware.Firmware.HomieNodeInputHandler`: follows the corrected range check, not the one as written (see Findings). The code as written is `Homie.Handle`.
- Text handed to the driver: `write(std::string)` sends the keystring's UTF-8 bytes, each held as a character below 256 (`AlarmCommands.Bytes`). The access code and the command keys are written as the characters they are, which is the same thing for ASCII text, the only kind a keypad accepts.
- `Homie.ToLong`: models `String::toInt` only on a run of decimal digits, which is the only way the firmware uses it.
- Zone fan-out: the loops work on a local copy of a stream's changed masks. ESPHome zeroes each group's mask after the group. Homie clears each bit with `bitWrite`. The caller writes the cleared masks back into the driver after the whole stream. Nothing reads the masks during the loops, so the driver ends the same, but the order of those stores relative to the callbacks is not modelled. The ESPHome `zone` counter is a local of `FanOut` that starts at 0 for each stream, as the source resets it.
- The driver's own `resetStatus`, called by the ESPHome `resetStatus`, is not part of this model. Its result is the parameter `driven` of `Component.DSCKeybus.ResetStatus` and `Dispatch.Reset`. So the model promises a resend after a reset only when the driver leaves `statusChanged` set.

## Findings

| source | as written | input that shows it | evidently intended | confidence | as-written member | corrected member |
|---|---|---|---|---|---|---|
| src/main.cpp:264-266 | the partition index is `extractPrefixDigits(prop) - 1` computed in `byte`, so any number congruent to 1 .. 8 modulo 256 passes the range check (`partition < 0` is never true for a `byte`) | property `partition-257-away` with value `1` arms partition 1 | numbers outside 1 .. 8 are rejected with "Partition number is out of range (1-8)" | not executed | `HomieFacts.WrappedPartitionAccepted` | `HomieFacts.WrappedPartitionRejected` |
