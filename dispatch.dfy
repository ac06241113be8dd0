/** The change-dispatch pass of the ESPHome component (`DSCKeybus::loop`) as a function of the
    driver snapshot it starts from: which events reach the registered callbacks, in which
    order, and what the flags and the component's caches hold afterwards. */
module Dispatch {
  import opened Keybus
  import opened Zones
  import opened StatusCodes
  import opened PanelClock

  datatype KeypadStatus = Trouble | PowerTrouble | BatteryTrouble
  datatype KeypadAlarm = FireAlarm | AuxAlarm | PanicAlarm
  datatype PartitionStatus = Disarmed | ArmedStay | ArmedAway | ExitDelay | Triggered

  /** Which callbacks the application registered. */
  datatype Callbacks = Callbacks(
    keybusConnectionChange: bool,
    keypadStatusChange: bool,
    keypadAlarm: bool,
    partitionStatusChange: bool,
    partitionStatusMessage: bool,
    partitionAlarmChange: bool,
    partitionArmedChange: bool,
    fireStatusChange: bool,
    zoneStatusChange: bool,
    zoneAlarmChange: bool,
    panelTimeChange: bool,
    lightStatusChange: bool)

  /** What a partition's step reports, before the partition number is attached. */
  datatype PartitionChange =
    | StatusMessageSent(code: byte)
    | AlarmChange(triggered: bool)
    | ArmedChange(armed: bool, armedStay: bool, armedAway: bool)
    | StatusChange(status: PartitionStatus)
    | FireChange(active: bool)
    | LightsChange(lights: byte)

  /** A notification about the keypad or the bus as a whole. */
  datatype GlobalChange =
    | KeybusConnectionChange(connected: bool)
    | KeypadStatusChange(kind: KeypadStatus, active: bool)
    | KeypadAlarmPulse(alarm: KeypadAlarm)

  /** One callback invocation.  Partitions are numbered from 1, as the callbacks receive them.
      A status message records the status code; the text its callback receives is
      `MessageText` of the change. */
  datatype Event =
    | GlobalEvent(signal: GlobalChange)
    | PartitionEvent(partition: nat, change: PartitionChange)
    | ZoneStatusChange(zone: nat, open: bool)
    | ZoneAlarmChange(zone: nat, inAlarm: bool)
    | PanelTimeChange(time: string)

  /** The text a status message callback receives: `"%02X: "` and the status text. */
  function MessageText(x: PartitionChange): string
    requires x.StatusMessageSent?
  {
    StatusMessage(x.code)
  }

  /** The component's own caches of the last dispatched status code and lights per partition. */
  datatype Caches = Caches(previousStatus: seq<byte>, previousLights: seq<byte>)

  ghost predicate CachesFit(c: Caches) {
    |c.previousStatus| == Partitions && |c.previousLights| == Partitions
  }

  /** The result of a pass. */
  datatype Outcome = Outcome(panel: Panel, caches: Caches, events: seq<Event>)

  /** `Some(x)` when `cond` holds: a notification that fires only under `cond`. */
  function If<T>(cond: bool, x: T): Option<T> {
    if cond then Some(x) else None
  }

  /** `[x]` when `cond` holds, nothing otherwise. */
  function When<T>(cond: bool, x: T): seq<T> {
    if cond then [x] else []
  }

  // ---------------------------------------------------------------------------------------
  // Global flags
  // ---------------------------------------------------------------------------------------

  /** The global flags after the pass: the status, overflow and connection flags, the trouble
      changes and the keypad pulses are consumed; an access-code prompt is consumed only when the
      driver can write. */
  function GlobalFlags(f: Flags): Flags
  {
    f.(statusChanged := false, bufferOverflow := false, keybusChanged := false,
       accessCodePrompt := f.accessCodePrompt && !f.writeReady,
       troubleChanged := false, powerChanged := false, batteryChanged := false,
       keypadFireAlarm := false, keypadAuxAlarm := false, keypadPanicAlarm := false)
  }

  /** The access code written in answer to a prompt, to the current write partition. */
  function AccessCodeWrites(f: Flags, writePartition: int, accessCode: string): seq<Written> {
    When(f.accessCodePrompt && f.writeReady, Written(writePartition, accessCode))
  }

  /** The payloads of the candidates whose condition holds, in order. */
  function Fired<T>(candidates: seq<(bool, T)>): seq<T> {
    if candidates == [] then []
    else (if candidates[0].0 then [candidates[0].1] else []) + Fired(candidates[1..])
  }

  /** The connection, trouble and keypad-alarm notifications with the conditions that send
      them, in the order the pass checks them. */
  function GlobalCandidates(f: Flags, cb: Callbacks): seq<(bool, GlobalChange)> {
    ConnectionCandidates(f, cb) + TroubleCandidates(f, cb) + PulseCandidates(f, cb)
  }

  function ConnectionCandidates(f: Flags, cb: Callbacks): seq<(bool, GlobalChange)> {
    [(f.keybusChanged && cb.keybusConnectionChange, KeybusConnectionChange(f.keybusConnected))]
  }

  function TroubleCandidates(f: Flags, cb: Callbacks): seq<(bool, GlobalChange)> {
    [(f.troubleChanged && cb.keypadStatusChange, KeypadStatusChange(Trouble, f.trouble)),
     (f.powerChanged && cb.keypadStatusChange, KeypadStatusChange(PowerTrouble, f.powerTrouble)),
     (f.batteryChanged && cb.keypadStatusChange, KeypadStatusChange(BatteryTrouble, f.batteryTrouble))]
  }

  function PulseCandidates(f: Flags, cb: Callbacks): seq<(bool, GlobalChange)> {
    [(f.keypadFireAlarm && cb.keypadAlarm, KeypadAlarmPulse(FireAlarm)),
     (f.keypadAuxAlarm && cb.keypadAlarm, KeypadAlarmPulse(AuxAlarm)),
     (f.keypadPanicAlarm && cb.keypadAlarm, KeypadAlarmPulse(PanicAlarm))]
  }

  function GlobalEvents(f: Flags, cb: Callbacks): seq<GlobalChange> {
    Fired(GlobalCandidates(f, cb))
  }

  function Lift(gs: seq<GlobalChange>): seq<Event> {
    if gs == [] then [] else [GlobalEvent(gs[0])] + Lift(gs[1..])
  }

  /** The connection notification, if any: the shape the pass's notification sites give it. */
  function ConnectionSignals(f: Flags, cb: Callbacks): seq<Event> {
    When(f.keybusChanged && cb.keybusConnectionChange, GlobalEvent(KeybusConnectionChange(f.keybusConnected)))
  }

  /** A keypad status notification: sent when its change flag is set and the callback exists. */
  function StatusSignal(kind: KeypadStatus, changed: bool, active: bool, cb: Callbacks): seq<Event> {
    When(changed && cb.keypadStatusChange, GlobalEvent(KeypadStatusChange(kind, active)))
  }

  /** A keypad alarm notification: sent when its pulse is set and the callback exists. */
  function PulseSignal(alarm: KeypadAlarm, pulse: bool, cb: Callbacks): seq<Event> {
    When(pulse && cb.keypadAlarm, GlobalEvent(KeypadAlarmPulse(alarm)))
  }

  /** The trouble notifications, in the order the pass checks them. */
  function TroubleSignals(f: Flags, cb: Callbacks): seq<Event> {
    StatusSignal(Trouble, f.troubleChanged, f.trouble, cb) +
    StatusSignal(PowerTrouble, f.powerChanged, f.powerTrouble, cb) +
    StatusSignal(BatteryTrouble, f.batteryChanged, f.batteryTrouble, cb)
  }

  /** The keypad alarm notifications, in the order the pass checks them. */
  function PulseSignals(f: Flags, cb: Callbacks): seq<Event> {
    PulseSignal(FireAlarm, f.keypadFireAlarm, cb) +
    PulseSignal(AuxAlarm, f.keypadAuxAlarm, cb) +
    PulseSignal(PanicAlarm, f.keypadPanicAlarm, cb)
  }

  // ---------------------------------------------------------------------------------------
  // One partition
  // ---------------------------------------------------------------------------------------

  /** What the pass reads for one partition. */
  datatype PartitionView = PartitionView(
    disabled: bool, status: byte, lights: byte,
    armed: bool, armedStay: bool, armedAway: bool, exitDelay: bool, alarm: bool, fire: bool,
    armedChanged: bool, exitDelayChanged: bool, alarmChanged: bool, fireChanged: bool,
    previousStatus: byte, previousLights: byte)

  /** What the pass leaves behind for one partition, and what it reported for it: one slot
      per notification site of the loop body. */
  datatype PartitionResult = PartitionResult(
    armedChanged: bool, exitDelayChanged: bool, alarmChanged: bool, fireChanged: bool,
    previousStatus: byte, previousLights: byte,
    message: Option<byte>, alarm: Option<bool>, armed: Option<(bool, bool, bool)>,
    armedStatus: Option<PartitionStatus>, exitDelayStatus: bool, disarmedStatus: bool,
    fire: Option<bool>, lights: Option<byte>)

  /** What a partition's step reported, in the order the loop body reaches the sites: the
      status message, the alarm, the arming, the fire and the lights sections. */
  function Reports(r: PartitionResult): seq<PartitionChange> {
    MessageReports(r) + AlarmReports(r) + ArmingReports(r) + FireReports(r) + LightsReports(r)
  }

  function MessageReports(r: PartitionResult): seq<PartitionChange> {
    if r.message.Some? then [StatusMessageSent(r.message.value)] else []
  }

  function AlarmReports(r: PartitionResult): seq<PartitionChange> {
    if r.alarm.Some? then [AlarmChange(r.alarm.value)] else []
  }

  /** The arming section: the armed change, then at most one of armed, exit delay and
      disarmed. */
  function ArmingReports(r: PartitionResult): seq<PartitionChange> {
    ArmedReports(r) + ExitDelayReports(r)
  }

  /** The armed-change block: the armed change and, when armed, how it armed. */
  function ArmedReports(r: PartitionResult): seq<PartitionChange> {
    (if r.armed.Some? then [ArmedChange(r.armed.value.0, r.armed.value.1, r.armed.value.2)] else []) +
    (if r.armedStatus.Some? then [StatusChange(r.armedStatus.value)] else [])
  }

  /** The exit-delay block: the exit delay, or a disarm once neither armed nor delaying. */
  function ExitDelayReports(r: PartitionResult): seq<PartitionChange> {
    (if r.exitDelayStatus then [StatusChange(ExitDelay)] else []) +
    (if r.disarmedStatus then [StatusChange(Disarmed)] else [])
  }

  function FireReports(r: PartitionResult): seq<PartitionChange> {
    if r.fire.Some? then [FireChange(r.fire.value)] else []
  }

  function LightsReports(r: PartitionResult): seq<PartitionChange> {
    if r.lights.Some? then [LightsChange(r.lights.value)] else []
  }

  function View(d: PartitionData, c: Caches, p: nat): PartitionView
    requires PartsFit(d) && CachesFit(c) && p < Partitions
  {
    PartitionView(d.disabled[p], d.status[p], d.lights[p],
                  d.armed[p], d.armedStay[p], d.armedAway[p], d.exitDelay[p], d.alarm[p], d.fire[p],
                  d.armedChanged[p], d.exitDelayChanged[p], d.alarmChanged[p], d.fireChanged[p],
                  c.previousStatus[p], c.previousLights[p])
  }

  /** The body of the partition loop for one partition. */
  function DispatchPartition(v: PartitionView, cb: Callbacks): (r: PartitionResult)
    ensures v.disabled ==> Reports(r) == [] && r.previousStatus == v.previousStatus &&
                           r.previousLights == v.previousLights
  {
    if v.disabled then
      PartitionResult(v.armedChanged, v.exitDelayChanged, v.alarmChanged, v.fireChanged,
                      v.previousStatus, v.previousLights,
                      None, None, None, None, false, false, None, None)
    else
      var statusMessage := v.status != v.previousStatus;
      var alarmNow := v.alarmChanged && cb.partitionAlarmChange;
      // An arming in this pass consumes a pending exit-delay change.
      var armedNow := v.armedChanged && v.armed;
      var exitPending := v.exitDelayChanged && !armedNow;
      var updateDisarmed := exitPending && !v.exitDelay && !v.armed;
      var fireNow := v.fireChanged && cb.fireStatusChange;
      var lightsNow := v.lights != v.previousLights && cb.lightStatusChange;
      // Whichever branch ran, no exit-delay change is left pending.
      PartitionResult(
        false,
        false,
        if alarmNow then false else v.alarmChanged,
        if fireNow then false else v.fireChanged,
        if statusMessage then v.status else v.previousStatus,
        if lightsNow then v.lights else v.previousLights,
        If(statusMessage && cb.partitionStatusMessage, v.status),
        If(alarmNow, v.alarm),
        If(v.armedChanged && cb.partitionArmedChange, (v.armed, v.armedStay, v.armedAway)),
        If(armedNow && cb.partitionStatusChange, if v.armedStay then ArmedStay else ArmedAway),
        exitPending && v.exitDelay && cb.partitionStatusChange,
        updateDisarmed && cb.partitionStatusChange,
        If(fireNow, v.fire),
        If(lightsNow, v.lights))
  }

  function PartitionAt(d: PartitionData, c: Caches, cb: Callbacks, p: nat): PartitionResult
    requires PartsFit(d) && CachesFit(c) && p < Partitions
  {
    DispatchPartition(View(d, c, p), cb)
  }

  /** Attaches the 1-based partition number `n` to each change. */
  function Tag(n: nat, xs: seq<PartitionChange>): seq<Event> {
    if xs == [] then [] else [PartitionEvent(n, xs[0])] + Tag(n, xs[1..])
  }

  /** The reports of the first `k` partitions, each tagged with its number, in ascending
      partition order. */
  function PartitionEvents(reports: seq<seq<PartitionChange>>, k: nat): seq<Event>
    requires k <= |reports|
  {
    if k == 0 then [] else PartitionEvents(reports, k - 1) + Tag(k, reports[k - 1])
  }

  /** Every partition's step, in partition order. */
  function PartitionResults(d: PartitionData, c: Caches, cb: Callbacks): (rs: seq<PartitionResult>)
    requires PartsFit(d) && CachesFit(c)
    ensures |rs| == Partitions
  {
    seq(Partitions, i requires 0 <= i < Partitions => PartitionAt(d, c, cb, i))
  }

  /** The partition loop's effect: every partition's flags and caches become its step's. */
  function PartitionStage(d: PartitionData, c: Caches, cb: Callbacks): (r: (PartitionData, Caches))
    requires PartsFit(d) && CachesFit(c)
    ensures PartsFit(r.0) && CachesFit(r.1)
  {
    var rs := PartitionResults(d, c, cb);
    (d.(armedChanged := seq(Partitions, i requires 0 <= i < Partitions => rs[i].armedChanged),
        exitDelayChanged := seq(Partitions, i requires 0 <= i < Partitions => rs[i].exitDelayChanged),
        alarmChanged := seq(Partitions, i requires 0 <= i < Partitions => rs[i].alarmChanged),
        fireChanged := seq(Partitions, i requires 0 <= i < Partitions => rs[i].fireChanged)),
     Caches(seq(Partitions, i requires 0 <= i < Partitions => rs[i].previousStatus),
            seq(Partitions, i requires 0 <= i < Partitions => rs[i].previousLights)))
  }

  /** The partition loop's notifications: every partition's reports, in partition order. */
  function PartitionStageEvents(d: PartitionData, c: Caches, cb: Callbacks): seq<Event>
    requires PartsFit(d) && CachesFit(c)
  {
    PartitionEvents(StageReports(d, c, cb), Partitions)
  }

  /** Every partition's reports, in partition order.  The ensures only expose the elements of
      the comprehension; what the reports mean is stated about `PartitionStageEvents`. */
  function StageReports(d: PartitionData, c: Caches, cb: Callbacks): (reports: seq<seq<PartitionChange>>)
    requires PartsFit(d) && CachesFit(c)
    ensures |reports| == Partitions
    ensures forall i :: 0 <= i < Partitions ==> reports[i] == Reports(PartitionAt(d, c, cb, i))
  {
    seq(Partitions, i requires 0 <= i < Partitions => Reports(PartitionAt(d, c, cb, i)))
  }

  // ---------------------------------------------------------------------------------------
  // Zones and clock
  // ---------------------------------------------------------------------------------------

  /** The callback event for one zone transition of the open-zone stream or the alarm-zone
      stream. */
  function ZoneEvent(alarmStream: bool, z: ZoneChange): Event {
    if alarmStream then ZoneAlarmChange(z.zone, z.on) else ZoneStatusChange(z.zone, z.on)
  }

  function ZoneEvents(alarmStream: bool, zs: seq<ZoneChange>): seq<Event> {
    if zs == [] then [] else [ZoneEvent(alarmStream, zs[0])] + ZoneEvents(alarmStream, zs[1..])
  }

  /** The changed masks of a stream after its fan-out: every group zeroed. */
  function ClearedGroups(): seq<byte> {
    seq(ZoneGroups, _ => 0)
  }

  /** A zone stream's fan-out runs only when its summary flag is set and its callback exists. */
  predicate FansOut(z: ZoneStream, callback: bool) {
    z.statusChanged && callback
  }

  /** A stream after the pass: a fan-out consumes the summary flag and zeroes every mask. */
  function ZoneStage(z: ZoneStream, callback: bool): (r: ZoneStream)
    requires StreamFits(z)
    ensures StreamFits(r) && r.values == z.values
    ensures FansOut(z, callback) ==>
              !r.statusChanged && forall g :: 0 <= g < ZoneGroups ==> r.changed[g] == 0
    ensures !FansOut(z, callback) ==> r == z
  {
    if FansOut(z, callback) then z.(statusChanged := false, changed := ClearedGroups()) else z
  }

  /** A stream's notifications: one per changed bit, in ascending zone order. */
  function ZoneStageEvents(z: ZoneStream, alarmStream: bool, callback: bool): seq<Event>
    requires StreamFits(z)
  {
    if FansOut(z, callback) then ZoneEvents(alarmStream, ZoneChanges(z.changed, z.values, |z.changed|))
    else []
  }

  /** The clock after the pass: the flag is consumed when the callback exists. */
  function ClockStage(k: Clock, callback: bool): Clock {
    if k.timestampChanged && callback then k.(timestampChanged := false) else k
  }

  /** The time notification: sent only when the flag is set, the callback exists and every
      field is in range. */
  function ClockEvents(k: Clock, callback: bool): seq<Event> {
    if k.timestampChanged && callback then TimeEvents(PanelTime(k.year, k.month, k.day, k.hour, k.minute))
    else []
  }

  function TimeEvents(t: Option<string>): seq<Event> {
    if t.Some? then [PanelTimeChange(t.value)] else []
  }

  // ---------------------------------------------------------------------------------------
  // The pass
  // ---------------------------------------------------------------------------------------

  /** One call of `loop` after the driver's own `dsc.loop()`: nothing at all unless
      `statusChanged` is set, otherwise the stages in order.  Each stage reads and writes only
      its own part of the driver, so each is applied to the snapshot the pass starts from. */
  function Pass(s: Panel, c: Caches, cb: Callbacks, accessCode: string): (r: Outcome)
    requires WellFormed(s) && CachesFit(c)
    ensures WellFormed(r.panel) && CachesFit(r.caches)
    ensures !r.panel.flags.statusChanged
    ensures r.panel.parts.disabled == s.parts.disabled && r.panel.parts.status == s.parts.status &&
            r.panel.parts.lights == s.parts.lights && r.panel.parts.armed == s.parts.armed &&
            r.panel.parts.alarm == s.parts.alarm && r.panel.parts.fire == s.parts.fire
    ensures r.panel.openZones.values == s.openZones.values &&
            r.panel.alarmZones.values == s.alarmZones.values
    ensures s.writeLog <= r.panel.writeLog
    ensures SameDecoded(s, r.panel) && r.panel.parts.entryDelayChanged == s.parts.entryDelayChanged
  {
    if !s.flags.statusChanged then Outcome(s, c, [])
    else
      var ps := PartitionStage(s.parts, c, cb);
      Outcome(
        Panel(GlobalFlags(s.flags), ps.0,
              ZoneStage(s.openZones, cb.zoneStatusChange), ZoneStage(s.alarmZones, cb.zoneAlarmChange),
              ClockStage(s.clock, cb.panelTimeChange), s.writePartition,
              s.writeLog + AccessCodeWrites(s.flags, s.writePartition, accessCode)),
        ps.1,
        PassEvents(s, c, cb))
  }

  /** The pass's notifications in order: global, partitions, open zones, alarm zones, clock. */
  function PassEvents(s: Panel, c: Caches, cb: Callbacks): seq<Event>
    requires WellFormed(s) && CachesFit(c)
  {
    Lift(GlobalEvents(s.flags, cb)) + PartitionStageEvents(s.parts, c, cb) +
    ZoneStageEvents(s.openZones, false, cb.zoneStatusChange) +
    ZoneStageEvents(s.alarmZones, true, cb.zoneAlarmChange) +
    ClockEvents(s.clock, cb.panelTimeChange)
  }

  /** A cache holding the 0xFF sentinel for every partition. */
  function Sentinels(): seq<byte> {
    seq(Partitions, _ => 0xFF)
  }

  /** `resetStatus`.  It first calls the driver's own `dsc.resetStatus()`, which is not part
      of this model: `driven` is whatever driver state that call leaves.  The component then
      marks the clock changed and puts the 0xFF sentinel in both caches, so that no cached
      code or lights value suppresses the next report; nothing else changes. */
  function Reset(driven: Panel): (r: (Panel, Caches))
    requires WellFormed(driven)
    ensures WellFormed(r.0) && CachesFit(r.1)
    ensures r.0.clock.timestampChanged
    ensures forall p :: 0 <= p < Partitions ==>
              r.1.previousStatus[p] == 0xFF && r.1.previousLights[p] == 0xFF
    ensures r.0.(clock := driven.clock) == driven
    ensures r.0.clock.(timestampChanged := driven.clock.timestampChanged) == driven.clock
  {
    (driven.(clock := driven.clock.(timestampChanged := true)),
     Caches(Sentinels(), Sentinels()))
  }
}
