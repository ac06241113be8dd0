/** The ESPHome component `DSCKeybus`: it owns the driver object, the per-partition caches of
    the last dispatched status code and lights, and the registered callbacks.  Each method is
    proved against the pure specification in `Dispatch` and `AlarmCommands`; the callback
    invocations are recorded, in order, in `log`. */
module Component {
  import opened Keybus
  import opened Zones
  import opened PanelClock
  import opened Dispatch
  import opened DispatchFacts
  import opened AlarmCommands

  class DSCKeybus {
    const dsc: Interface
    const accessCode: string
    /** The last status code and lights dispatched per partition (member arrays). */
    var previousStatus: seq<byte>
    var previousLights: seq<byte>
    /** Which of the `on…` callbacks are registered. */
    var callbacks: Callbacks
    /** Every callback invocation so far, oldest first. */
    var log: seq<Event>

    ghost predicate Valid()
      reads this`previousStatus, this`previousLights, dsc`disabled, dsc`status, dsc`lights, dsc`armed,
        dsc`armedStay, dsc`armedAway, dsc`armedChanged, dsc`exitDelay, dsc`exitDelayChanged,
        dsc`entryDelay, dsc`entryDelayChanged, dsc`alarm, dsc`alarmChanged, dsc`fire, dsc`fireChanged,
        dsc`openZones, dsc`alarmZones
    {
      dsc.Valid() && CachesFit(Cached())
    }

    ghost function Cached(): Caches
      reads this`previousStatus, this`previousLights
    {
      Caches(previousStatus, previousLights)
    }

    /** A component with a fresh driver, the given access code and callbacks. */
    constructor (accessCode: string, callbacks: Callbacks)
      ensures Valid() && fresh(dsc)
      ensures this.accessCode == accessCode && this.callbacks == callbacks && log == []
    {
      dsc := new Interface();
      this.accessCode := accessCode;
      previousStatus := seq(Partitions, _ => 0);
      previousLights := seq(Partitions, _ => 0);
      this.callbacks := callbacks;
      log := [];
    }

    /** One callback invocation. */
    method Notify(e: Event)
      modifies this`log
      ensures log == old(log) + [e]
    {
      log := log + [e];
    }

    /** `notifyKeybusConnectionChange`: the callback, when registered. */
    method NotifyKeybusConnectionChange(connected: bool)
      modifies this`log
      ensures log == old(log) + When(callbacks.keybusConnectionChange, GlobalEvent(KeybusConnectionChange(connected)))
    {
      if callbacks.keybusConnectionChange {
        Notify(GlobalEvent(KeybusConnectionChange(connected)));
      }
    }

    /** `notifyKeypadStatusChange`: the callback, when registered. */
    method NotifyKeypadStatusChange(kind: KeypadStatus, active: bool)
      modifies this`log
      ensures log == old(log) + When(callbacks.keypadStatusChange, GlobalEvent(KeypadStatusChange(kind, active)))
    {
      if callbacks.keypadStatusChange {
        Notify(GlobalEvent(KeypadStatusChange(kind, active)));
      }
    }

    /** `notifyKeypadAlarm`: the callback, when registered. */
    method NotifyKeypadAlarm(alarm: KeypadAlarm)
      modifies this`log
      ensures log == old(log) + When(callbacks.keypadAlarm, GlobalEvent(KeypadAlarmPulse(alarm)))
    {
      if callbacks.keypadAlarm {
        Notify(GlobalEvent(KeypadAlarmPulse(alarm)));
      }
    }

    /** `notifyPartitionStatusMessage`: the callback, when registered, with the 1-based
        partition and the status code, whose text is `MessageText`. */
    method NotifyPartitionStatusMessage(p: nat, code: byte)
      modifies this`log
      ensures log == old(log) + Tag(p + 1, When(callbacks.partitionStatusMessage, StatusMessageSent(code)))
    {
      if callbacks.partitionStatusMessage {
        Notify(PartitionEvent(p + 1, StatusMessageSent(code)));
        TagOne(p + 1, StatusMessageSent(code));
      }
    }

    /** `notifyPartitionStatusChange`: the callback, when registered, with the 1-based
        partition. */
    method NotifyPartitionStatusChange(p: nat, status: PartitionStatus)
      modifies this`log
      ensures log == old(log) + Tag(p + 1, When(callbacks.partitionStatusChange, StatusChange(status)))
    {
      if callbacks.partitionStatusChange {
        Notify(PartitionEvent(p + 1, StatusChange(status)));
        TagOne(p + 1, StatusChange(status));
      }
    }

    /** The armed-change callback, when there is one, for partition `p` (0-based). */
    method NotifyArmedChange(p: nat, x: PartitionChange)
      modifies this`log
      ensures log == old(log) + Tag(p + 1, When(callbacks.partitionArmedChange, x))
    {
      if callbacks.partitionArmedChange {
        Notify(PartitionEvent(p + 1, x));
        TagOne(p + 1, x);
      }
    }

    /** `loop()` after the driver's own `dsc.loop()`: the whole dispatch pass. */
    method Loop()
      requires Valid()
      modifies dsc`flags, dsc`armedChanged, dsc`exitDelayChanged, dsc`alarmChanged, dsc`fireChanged,
        dsc`openZones, dsc`alarmZones, dsc`clock, dsc`writeLog
      modifies this`previousStatus, this`previousLights, this`log
      ensures var r := Pass(old(dsc.Snap()), old(Cached()), callbacks, accessCode);
        dsc.Snap() == r.panel && Cached() == r.caches && log == old(log) + r.events
    {
      if !dsc.flags.statusChanged {
        return;
      }
      ghost var f0, d0, c0, oz0, az0 := dsc.flags, dsc.Parts(), Cached(), dsc.openZones, dsc.alarmZones;
      ghost var s0 := Panel(f0, d0, oz0, az0, dsc.clock, dsc.writePartition, dsc.writeLog);
      assert s0 == dsc.Snap();
      ghost var log0 := log;
      RunPass(f0, d0, c0, oz0, az0, s0.clock);
      Concat5(log0, Lift(GlobalEvents(f0, callbacks)), PartitionStageEvents(d0, c0, callbacks),
              ZoneStageEvents(oz0, false, callbacks.zoneStatusChange),
              ZoneStageEvents(az0, true, callbacks.zoneAlarmChange),
              ClockEvents(s0.clock, callbacks.panelTimeChange));
      PassOutcome(s0, c0, callbacks, accessCode, dsc.flags, dsc.Parts(), Cached(), dsc.openZones,
                  dsc.alarmZones, dsc.clock, dsc.writeLog, PassEvents(s0, c0, callbacks));
    }

    /** The stages of a pass that `statusChanged` let through, in the source's order, from the
        state `f`, `d`, `c`, `oz`, `az`, `k` the pass starts from. */
    method RunPass(ghost f: Flags, ghost d: PartitionData, ghost c: Caches, ghost oz: ZoneStream,
                   ghost az: ZoneStream, ghost k: Clock)
      requires Valid() && f == dsc.flags && d == dsc.Parts() && c == Cached()
      requires oz == dsc.openZones && az == dsc.alarmZones && k == dsc.clock
      modifies dsc`flags, dsc`armedChanged, dsc`exitDelayChanged, dsc`alarmChanged, dsc`fireChanged,
        dsc`openZones, dsc`alarmZones, dsc`clock, dsc`writeLog
      modifies this`previousStatus, this`previousLights, this`log
      ensures dsc.flags == GlobalFlags(f)
      ensures dsc.writeLog == old(dsc.writeLog) + AccessCodeWrites(f, dsc.writePartition, accessCode)
      ensures (dsc.Parts(), Cached()) == PartitionStage(d, c, callbacks)
      ensures dsc.openZones == ZoneStage(oz, callbacks.zoneStatusChange)
      ensures dsc.alarmZones == ZoneStage(az, callbacks.zoneAlarmChange)
      ensures dsc.clock == ClockStage(k, callbacks.panelTimeChange)
      ensures log == old(log) + Lift(GlobalEvents(f, callbacks)) + PartitionStageEvents(d, c, callbacks) +
        ZoneStageEvents(oz, false, callbacks.zoneStatusChange) + ZoneStageEvents(az, true, callbacks.zoneAlarmChange) +
        ClockEvents(k, callbacks.panelTimeChange)
    {
      DispatchGlobals();
      assert dsc.Parts() == d && Cached() == c && dsc.openZones == oz && dsc.alarmZones == az;
      DispatchRest(d, c, oz, az, k);
    }

    /** The partition, zone and clock stages. */
    method DispatchRest(ghost d: PartitionData, ghost c: Caches, ghost oz: ZoneStream, ghost az: ZoneStream,
                        ghost k: Clock)
      requires Valid() && d == dsc.Parts() && c == Cached()
      requires oz == dsc.openZones && az == dsc.alarmZones && k == dsc.clock
      modifies dsc`armedChanged, dsc`exitDelayChanged, dsc`alarmChanged, dsc`fireChanged,
        dsc`openZones, dsc`alarmZones, dsc`clock
      modifies this`previousStatus, this`previousLights, this`log
      ensures (dsc.Parts(), Cached()) == PartitionStage(d, c, callbacks)
      ensures dsc.openZones == ZoneStage(oz, callbacks.zoneStatusChange)
      ensures dsc.alarmZones == ZoneStage(az, callbacks.zoneAlarmChange)
      ensures dsc.clock == ClockStage(k, callbacks.panelTimeChange)
      ensures log == old(log) + PartitionStageEvents(d, c, callbacks) +
        ZoneStageEvents(oz, false, callbacks.zoneStatusChange) +
        ZoneStageEvents(az, true, callbacks.zoneAlarmChange) +
        ClockEvents(k, callbacks.panelTimeChange)
    {
      DispatchPartitions();
      ghost var d1, c1 := dsc.Parts(), Cached();
      DispatchTail();
      assert dsc.Parts() == d1 && Cached() == c1;
    }

    /** The zone and clock stages, in the source's order. */
    method DispatchTail()
      requires Valid()
      modifies dsc`openZones, dsc`alarmZones, dsc`clock, this`log
      ensures dsc.openZones == ZoneStage(old(dsc.openZones), callbacks.zoneStatusChange)
      ensures dsc.alarmZones == ZoneStage(old(dsc.alarmZones), callbacks.zoneAlarmChange)
      ensures dsc.clock == ClockStage(old(dsc.clock), callbacks.panelTimeChange)
      ensures log == old(log) + ZoneStageEvents(old(dsc.openZones), false, callbacks.zoneStatusChange) +
        ZoneStageEvents(old(dsc.alarmZones), true, callbacks.zoneAlarmChange) +
        ClockEvents(old(dsc.clock), callbacks.panelTimeChange)
    {
      DispatchOpenZones();
      DispatchAlarmZones();
      DispatchClock();
    }

    /** The global part of the pass, block by block as the source orders them: consume the
        status and overflow flags, report a connection change, answer an access-code prompt,
        report the trouble changes and the keypad alarm pulses. */
    method DispatchGlobals()
      modifies dsc`flags, dsc`writeLog, this`log
      ensures dsc.flags == GlobalFlags(old(dsc.flags))
      ensures dsc.writeLog == old(dsc.writeLog) + AccessCodeWrites(old(dsc.flags), dsc.writePartition, accessCode)
      ensures log == old(log) + Lift(GlobalEvents(old(dsc.flags), callbacks))
    {
      ghost var f, log0 := dsc.flags, log;
      ConsumeStatus();
      ghost var g1 := dsc.flags;
      ReportConnection();
      ghost var g2 := dsc.flags;
      AnswerPrompt();
      ghost var g3 := dsc.flags;
      ReportTrouble();
      ghost var g4 := dsc.flags;
      ReportPowerTrouble();
      ghost var g5 := dsc.flags;
      ReportBatteryTrouble();
      ghost var g6 := dsc.flags;
      ReportFirePulse();
      ghost var g7 := dsc.flags;
      ReportAuxPulse();
      ghost var g8 := dsc.flags;
      ReportPanicPulse();
      assert GlobalChain(f, g1, g2, g3, g4, g5, g6, g7, g8);
      ChainFlags(f, g1, g2, g3, g4, g5, g6, g7, g8);
      ChainWrites(f, g1, g2, g3, g4, g5, g6, g7, g8, dsc.writePartition, accessCode);
      ChainConnection(f, g1, g2, g3, g4, g5, g6, g7, g8, callbacks);
      ChainTrouble(f, g1, g2, g3, g4, g5, g6, g7, g8, callbacks);
      ChainPulses(f, g1, g2, g3, g4, g5, g6, g7, g8, callbacks);
      GlobalSignals(f, callbacks);
      Append7(log0, ConnectionSignals(g1, callbacks),
        StatusSignal(Trouble, g3.troubleChanged, g3.trouble, callbacks),
        StatusSignal(PowerTrouble, g4.powerChanged, g4.powerTrouble, callbacks),
        StatusSignal(BatteryTrouble, g5.batteryChanged, g5.batteryTrouble, callbacks),
        PulseSignal(FireAlarm, g6.keypadFireAlarm, callbacks),
        PulseSignal(AuxAlarm, g7.keypadAuxAlarm, callbacks),
        PulseSignal(PanicAlarm, g8.keypadPanicAlarm, callbacks));
    }

    /** The status flag is consumed, and so is a buffer overflow (which the source logs). */
    method ConsumeStatus()
      modifies dsc`flags
      ensures dsc.flags == old(dsc.flags).(statusChanged := false, bufferOverflow := false)
    {
      dsc.flags := dsc.flags.(statusChanged := false);
      if dsc.flags.bufferOverflow {
        dsc.flags := dsc.flags.(bufferOverflow := false);
      }
    }

    /** A connection change is consumed and reported. */
    method ReportConnection()
      modifies dsc`flags, this`log
      ensures dsc.flags == old(dsc.flags).(keybusChanged := false)
      ensures log == old(log) + ConnectionSignals(old(dsc.flags), callbacks)
    {
      if dsc.flags.keybusChanged {
        dsc.flags := dsc.flags.(keybusChanged := false);
        NotifyKeybusConnectionChange(dsc.flags.keybusConnected);
      }
    }

    /** An access-code prompt is answered with the access code when the driver can write. */
    method AnswerPrompt()
      modifies dsc`flags, dsc`writeLog
      ensures dsc.flags == old(dsc.flags).(accessCodePrompt := old(dsc.flags.accessCodePrompt) && !old(dsc.flags.writeReady))
      ensures dsc.writeLog == old(dsc.writeLog) + AccessCodeWrites(old(dsc.flags), dsc.writePartition, accessCode)
    {
      if dsc.flags.accessCodePrompt && dsc.flags.writeReady {
        dsc.flags := dsc.flags.(accessCodePrompt := false);
        dsc.Write(accessCode);
      }
    }

    /** A trouble change is consumed and reported. */
    method ReportTrouble()
      modifies dsc`flags, this`log
      ensures dsc.flags == old(dsc.flags).(troubleChanged := false)
      ensures log == old(log) + StatusSignal(Trouble, old(dsc.flags.troubleChanged), old(dsc.flags.trouble), callbacks)
    {
      if dsc.flags.troubleChanged {
        dsc.flags := dsc.flags.(troubleChanged := false);
        NotifyKeypadStatusChange(Trouble, dsc.flags.trouble);
      }
    }

    /** A power trouble change is consumed and reported. */
    method ReportPowerTrouble()
      modifies dsc`flags, this`log
      ensures dsc.flags == old(dsc.flags).(powerChanged := false)
      ensures log == old(log) + StatusSignal(PowerTrouble, old(dsc.flags.powerChanged), old(dsc.flags.powerTrouble), callbacks)
    {
      if dsc.flags.powerChanged {
        dsc.flags := dsc.flags.(powerChanged := false);
        NotifyKeypadStatusChange(PowerTrouble, dsc.flags.powerTrouble);
      }
    }

    /** A battery trouble change is consumed and reported. */
    method ReportBatteryTrouble()
      modifies dsc`flags, this`log
      ensures dsc.flags == old(dsc.flags).(batteryChanged := false)
      ensures log == old(log) + StatusSignal(BatteryTrouble, old(dsc.flags.batteryChanged), old(dsc.flags.batteryTrouble), callbacks)
    {
      if dsc.flags.batteryChanged {
        dsc.flags := dsc.flags.(batteryChanged := false);
        NotifyKeypadStatusChange(BatteryTrouble, dsc.flags.batteryTrouble);
      }
    }

    /** A keypad fire alarm pulse is consumed and reported. */
    method ReportFirePulse()
      modifies dsc`flags, this`log
      ensures dsc.flags == old(dsc.flags).(keypadFireAlarm := false)
      ensures log == old(log) + PulseSignal(FireAlarm, old(dsc.flags.keypadFireAlarm), callbacks)
    {
      if dsc.flags.keypadFireAlarm {
        dsc.flags := dsc.flags.(keypadFireAlarm := false);
        NotifyKeypadAlarm(FireAlarm);
      }
    }

    /** A keypad auxiliary alarm pulse is consumed and reported. */
    method ReportAuxPulse()
      modifies dsc`flags, this`log
      ensures dsc.flags == old(dsc.flags).(keypadAuxAlarm := false)
      ensures log == old(log) + PulseSignal(AuxAlarm, old(dsc.flags.keypadAuxAlarm), callbacks)
    {
      if dsc.flags.keypadAuxAlarm {
        dsc.flags := dsc.flags.(keypadAuxAlarm := false);
        NotifyKeypadAlarm(AuxAlarm);
      }
    }

    /** A keypad panic alarm pulse is consumed and reported. */
    method ReportPanicPulse()
      modifies dsc`flags, this`log
      ensures dsc.flags == old(dsc.flags).(keypadPanicAlarm := false)
      ensures log == old(log) + PulseSignal(PanicAlarm, old(dsc.flags.keypadPanicAlarm), callbacks)
    {
      if dsc.flags.keypadPanicAlarm {
        dsc.flags := dsc.flags.(keypadPanicAlarm := false);
        NotifyKeypadAlarm(PanicAlarm);
      }
    }

    /** The partition loop: every partition in ascending order. */
    method DispatchPartitions()
      requires Valid()
      modifies dsc`armedChanged, dsc`exitDelayChanged, dsc`alarmChanged, dsc`fireChanged
      modifies this`previousStatus, this`previousLights, this`log
      ensures Valid()
      ensures (dsc.Parts(), Cached()) == PartitionStage(old(dsc.Parts()), old(Cached()), callbacks)
      ensures log == old(log) + PartitionStageEvents(old(dsc.Parts()), old(Cached()), callbacks)
    {
      ghost var d0, c0 := dsc.Parts(), Cached();
      ProgressStart(d0, c0, callbacks);
      PartitionLoop(d0, c0);
      ProgressDone(d0, c0, callbacks);
    }

    /** The partition loop, from the partition arrays `d0` and caches `c0` it starts with. */
    method PartitionLoop(ghost d0: PartitionData, ghost c0: Caches)
      requires Valid() && PartsFit(d0) && CachesFit(c0)
      requires (dsc.Parts(), Cached()) == Partial(d0, c0, callbacks, 0)
      modifies dsc`armedChanged, dsc`exitDelayChanged, dsc`alarmChanged, dsc`fireChanged
      modifies this`previousStatus, this`previousLights, this`log
      ensures Valid()
      ensures (dsc.Parts(), Cached()) == Partial(d0, c0, callbacks, Partitions)
      ensures log == old(log) + PartitionEvents(StageReports(d0, c0, callbacks), Partitions)
    {
      ghost var reports := StageReports(d0, c0, callbacks);
      for p := 0 to Partitions
        invariant Valid()
        invariant (dsc.Parts(), Cached()) == Partial(d0, c0, callbacks, p)
        invariant log == old(log) + PartitionEvents(reports, p)
      {
        AdvancePartition(p, d0, c0, reports, old(log));
      }
    }

    /** One turn of the partition loop: partition `p`'s step moves the loop one partition on. */
    method AdvancePartition(p: nat, ghost d0: PartitionData, ghost c0: Caches,
                            ghost reports: seq<seq<PartitionChange>>, ghost log0: seq<Event>)
      requires Valid() && p < Partitions && PartsFit(d0) && CachesFit(c0)
      requires (dsc.Parts(), Cached()) == Partial(d0, c0, callbacks, p)
      requires reports == StageReports(d0, c0, callbacks)
      requires log == log0 + PartitionEvents(reports, p)
      modifies dsc`armedChanged, dsc`exitDelayChanged, dsc`alarmChanged, dsc`fireChanged
      modifies this`previousStatus, this`previousLights, this`log
      ensures Valid()
      ensures (dsc.Parts(), Cached()) == Partial(d0, c0, callbacks, p + 1)
      ensures log == log0 + PartitionEvents(reports, p + 1)
    {
      ghost var d, c := dsc.Parts(), Cached();
      ProgressStep(d, c, d0, c0, callbacks, p);
      StepPartition(p);
      NextPartitionEvents(log0, reports, p, reports[p]);
    }

    /** The body of the partition loop for partition `p` (0-based): a disabled partition is
        skipped, otherwise the five sections run in order. */
    method StepPartition(p: nat)
      requires Valid() && p < Partitions
      modifies dsc`armedChanged, dsc`exitDelayChanged, dsc`alarmChanged, dsc`fireChanged
      modifies this`previousStatus, this`previousLights, this`log
      ensures Valid()
      ensures (dsc.Parts(), Cached()) == StepResult(old(dsc.Parts()), old(Cached()), p, callbacks)
      ensures log == old(log) + Tag(p + 1, Reports(PartitionAt(old(dsc.Parts()), old(Cached()), callbacks, p)))
    {
      if dsc.disabled[p] {
        DisabledStep(dsc.Parts(), Cached(), p, callbacks);
        return;
      }
      ghost var d, c := dsc.Parts(), Cached();
      StepEnabled(p);
      EnabledStep(d, c, p, callbacks, dsc.armedChanged, dsc.exitDelayChanged, dsc.alarmChanged, dsc.fireChanged,
                  previousStatus, previousLights);
      assert dsc.Parts() == d.(armedChanged := dsc.armedChanged, exitDelayChanged := dsc.exitDelayChanged,
                               alarmChanged := dsc.alarmChanged, fireChanged := dsc.fireChanged);
    }

    /** The five sections of an enabled partition, in order. */
    method StepEnabled(p: nat)
      requires Valid() && p < Partitions && !dsc.disabled[p]
      modifies dsc`armedChanged, dsc`exitDelayChanged, dsc`alarmChanged, dsc`fireChanged
      modifies this`previousStatus, this`previousLights, this`log
      ensures var r := PartitionAt(old(dsc.Parts()), old(Cached()), callbacks, p);
        dsc.armedChanged == old(dsc.armedChanged)[p := r.armedChanged] &&
        dsc.exitDelayChanged == old(dsc.exitDelayChanged)[p := r.exitDelayChanged] &&
        dsc.alarmChanged == old(dsc.alarmChanged)[p := r.alarmChanged] &&
        dsc.fireChanged == old(dsc.fireChanged)[p := r.fireChanged] &&
        previousStatus == old(previousStatus)[p := r.previousStatus] &&
        previousLights == old(previousLights)[p := r.previousLights] &&
        log == old(log) + Tag(p + 1, Reports(r))
    {
      ghost var log0 := log;
      ghost var v := View(dsc.Parts(), Cached(), p);
      ghost var r := DispatchPartition(v, callbacks);
      EnabledPartitionFlags(v, callbacks);
      ghost var pending := dsc.exitDelayChanged;
      ReportUpToArmed(p, v, r);
      ReportFromExitDelay(p, v, r);
      Overwritten(pending, p, v.exitDelayChanged && !(v.armedChanged && v.armed), false);
      StepTags(log0, p + 1, r);
    }

    /** The status-message, alarm and armed-change sections of an enabled partition. */
    method ReportUpToArmed(p: nat, ghost v: PartitionView, ghost r: PartitionResult)
      requires Valid() && p < Partitions
      requires v == View(dsc.Parts(), Cached(), p) && !v.disabled && r == DispatchPartition(v, callbacks)
      modifies dsc`alarmChanged, dsc`armedChanged, dsc`exitDelayChanged, this`previousStatus, this`log
      ensures previousStatus == old(previousStatus)[p := r.previousStatus]
      ensures dsc.alarmChanged == old(dsc.alarmChanged)[p := r.alarmChanged]
      ensures dsc.armedChanged == old(dsc.armedChanged)[p := false]
      ensures dsc.exitDelayChanged == old(dsc.exitDelayChanged)[p := v.exitDelayChanged && !(v.armedChanged && v.armed)]
      ensures log == old(log) + Tag(p + 1, MessageReports(r)) + Tag(p + 1, AlarmReports(r)) +
                     Tag(p + 1, ArmedReports(r))
    {
      ReportStatusMessage(p, v, r);
      ReportAlarm(p, v, r);
      ReportArmed(p, v, r);
    }

    /** The exit-delay, fire and lights sections of an enabled partition, after the armed-change
        block. */
    method ReportFromExitDelay(p: nat, ghost v: PartitionView, ghost r: PartitionResult)
      requires p < |dsc.exitDelayChanged| && p < |dsc.armed| && p < |dsc.exitDelay| && p < |dsc.fireChanged| &&
               p < |dsc.fire| && p < |dsc.lights| && p < |previousLights|
      requires !v.disabled && r == DispatchPartition(v, callbacks)
      requires dsc.exitDelayChanged[p] == (v.exitDelayChanged && !(v.armedChanged && v.armed))
      requires dsc.armed[p] == v.armed && dsc.exitDelay[p] == v.exitDelay
      requires dsc.fireChanged[p] == v.fireChanged && dsc.fire[p] == v.fire
      requires dsc.lights[p] == v.lights && previousLights[p] == v.previousLights
      modifies dsc`exitDelayChanged, dsc`fireChanged, this`previousLights, this`log
      ensures dsc.exitDelayChanged == old(dsc.exitDelayChanged)[p := false]
      ensures dsc.fireChanged == old(dsc.fireChanged)[p := r.fireChanged]
      ensures previousLights == old(previousLights)[p := r.previousLights]
      ensures log == old(log) + Tag(p + 1, ExitDelayReports(r)) + Tag(p + 1, FireReports(r)) +
                     Tag(p + 1, LightsReports(r))
    {
      ReportExitDelay(p, v, r);
      ReportFire(p, v, r);
      ReportLights(p, v, r);
    }

    /** The status-message section: a status code that differs from the cached one is cached
        and, with the callback, sent. */
    method ReportStatusMessage(p: nat, ghost v: PartitionView, ghost r: PartitionResult)
      requires p < |dsc.status| && p < |previousStatus|
      requires !v.disabled && r == DispatchPartition(v, callbacks)
      requires dsc.status[p] == v.status && previousStatus[p] == v.previousStatus
      modifies this`previousStatus, this`log
      ensures previousStatus == old(previousStatus)[p := r.previousStatus]
      ensures log == old(log) + Tag(p + 1, MessageReports(r))
    {
      if previousStatus[p] != dsc.status[p] {
        previousStatus := previousStatus[p := dsc.status[p]];
        NotifyPartitionStatusMessage(p, dsc.status[p]);
      } else {
        assert previousStatus == previousStatus[p := r.previousStatus];
      }
    }

    /** The alarm section: a pending alarm change is consumed and sent, with the callback. */
    method ReportAlarm(p: nat, ghost v: PartitionView, ghost r: PartitionResult)
      requires p < |dsc.alarmChanged| && p < |dsc.alarm|
      requires !v.disabled && r == DispatchPartition(v, callbacks)
      requires dsc.alarmChanged[p] == v.alarmChanged && dsc.alarm[p] == v.alarm
      modifies dsc`alarmChanged, this`log
      ensures dsc.alarmChanged == old(dsc.alarmChanged)[p := r.alarmChanged]
      ensures log == old(log) + Tag(p + 1, AlarmReports(r))
    {
      if dsc.alarmChanged[p] && callbacks.partitionAlarmChange {
        dsc.alarmChanged := dsc.alarmChanged[p := false];
        Notify(PartitionEvent(p + 1, AlarmChange(dsc.alarm[p])));
        TagOne(p + 1, AlarmChange(dsc.alarm[p]));
      } else {
        assert dsc.alarmChanged == dsc.alarmChanged[p := r.alarmChanged];
      }
    }

    /** The armed-change block of the arming section: an armed change is consumed and sent
        and, when the partition is now armed, followed by how it armed, and a pending
        exit-delay change is consumed. */
    method ReportArmed(p: nat, ghost v: PartitionView, ghost r: PartitionResult)
      requires p < |dsc.armedChanged| && p < |dsc.exitDelayChanged| && p < |dsc.armed| &&
               p < |dsc.armedStay| && p < |dsc.armedAway|
      requires !v.disabled && r == DispatchPartition(v, callbacks)
      requires dsc.armedChanged[p] == v.armedChanged && dsc.exitDelayChanged[p] == v.exitDelayChanged
      requires dsc.armed[p] == v.armed && dsc.armedStay[p] == v.armedStay
      requires dsc.armedAway[p] == v.armedAway
      modifies dsc`armedChanged, dsc`exitDelayChanged, this`log
      ensures dsc.armedChanged == old(dsc.armedChanged)[p := false]
      ensures dsc.exitDelayChanged == old(dsc.exitDelayChanged)[p := v.exitDelayChanged && !(v.armedChanged && v.armed)]
      ensures log == old(log) + Tag(p + 1, ArmedReports(r))
    {
      if dsc.armedChanged[p] {
        ConsumeArmedChange(p, v, r);
      } else {
        assert dsc.armedChanged == dsc.armedChanged[p := false];
        assert dsc.exitDelayChanged == dsc.exitDelayChanged[p := v.exitDelayChanged];
      }
    }

    /** A pending armed change is consumed and sent and, when the partition is now armed,
        followed by how it armed; an arming also consumes a pending exit-delay change. */
    method ConsumeArmedChange(p: nat, ghost v: PartitionView, ghost r: PartitionResult)
      requires p < |dsc.armedChanged| && p < |dsc.exitDelayChanged| && p < |dsc.armed| &&
               p < |dsc.armedStay| && p < |dsc.armedAway|
      requires !v.disabled && r == DispatchPartition(v, callbacks) && v.armedChanged
      requires dsc.armedChanged[p] && dsc.exitDelayChanged[p] == v.exitDelayChanged
      requires dsc.armed[p] == v.armed && dsc.armedStay[p] == v.armedStay
      requires dsc.armedAway[p] == v.armedAway
      modifies dsc`armedChanged, dsc`exitDelayChanged, this`log
      ensures dsc.armedChanged == old(dsc.armedChanged)[p := false]
      ensures dsc.exitDelayChanged == old(dsc.exitDelayChanged)[p := v.exitDelayChanged && !v.armed]
      ensures log == old(log) + Tag(p + 1, ArmedReports(r))
    {
      ghost var log0 := log;
      dsc.armedChanged := dsc.armedChanged[p := false];
      NotifyArmedChange(p, ArmedChange(dsc.armed[p], dsc.armedStay[p], dsc.armedAway[p]));
      ghost var log1 := log;
      if dsc.armed[p] {
        var s := if dsc.armedStay[p] then ArmedStay else ArmedAway;
        NotifyPartitionStatusChange(p, s);
        dsc.exitDelayChanged := dsc.exitDelayChanged[p := false];
      } else {
        assert dsc.exitDelayChanged == dsc.exitDelayChanged[p := v.exitDelayChanged];
      }
      ArmedLog(log0, log1, log, p + 1, v, callbacks);
    }

    /** The exit-delay block of the arming section: a pending exit-delay change is consumed and
        reports the exit delay when it started; when it ended on a partition that is neither
        armed nor delaying, a disarm is reported. */
    method ReportExitDelay(p: nat, ghost v: PartitionView, ghost r: PartitionResult)
      requires p < |dsc.exitDelayChanged| && p < |dsc.armed| && p < |dsc.exitDelay|
      requires !v.disabled && r == DispatchPartition(v, callbacks)
      requires dsc.exitDelayChanged[p] == (v.exitDelayChanged && !(v.armedChanged && v.armed))
      requires dsc.armed[p] == v.armed && dsc.exitDelay[p] == v.exitDelay
      modifies dsc`exitDelayChanged, this`log
      ensures dsc.exitDelayChanged == old(dsc.exitDelayChanged)[p := false]
      ensures log == old(log) + Tag(p + 1, ExitDelayReports(r))
    {
      ghost var delay := if r.exitDelayStatus then [StatusChange(ExitDelay)] else [];
      ghost var disarmed := if r.disarmedStatus then [StatusChange(Disarmed)] else [];
      TagAppend(p + 1, delay, disarmed);
      var updateDisarmed := false;
      if dsc.exitDelayChanged[p] {
        dsc.exitDelayChanged := dsc.exitDelayChanged[p := false];
        if dsc.exitDelay[p] {
          NotifyPartitionStatusChange(p, ExitDelay);
        } else if !dsc.armed[p] {
          updateDisarmed := true;
        }
      } else {
        assert dsc.exitDelayChanged == dsc.exitDelayChanged[p := false];
      }
      if updateDisarmed && !dsc.armed[p] && !dsc.exitDelay[p] {
        NotifyPartitionStatusChange(p, Disarmed);
      }
    }

    /** The fire section: a pending fire change is consumed and sent, with the callback. */
    method ReportFire(p: nat, ghost v: PartitionView, ghost r: PartitionResult)
      requires p < |dsc.fireChanged| && p < |dsc.fire|
      requires !v.disabled && r == DispatchPartition(v, callbacks)
      requires dsc.fireChanged[p] == v.fireChanged && dsc.fire[p] == v.fire
      modifies dsc`fireChanged, this`log
      ensures dsc.fireChanged == old(dsc.fireChanged)[p := r.fireChanged]
      ensures log == old(log) + Tag(p + 1, FireReports(r))
    {
      if dsc.fireChanged[p] && callbacks.fireStatusChange {
        dsc.fireChanged := dsc.fireChanged[p := false];
        Notify(PartitionEvent(p + 1, FireChange(dsc.fire[p])));
        TagOne(p + 1, FireChange(dsc.fire[p]));
      } else {
        assert dsc.fireChanged == dsc.fireChanged[p := r.fireChanged];
      }
    }

    /** The lights section: lights that differ from the cached ones are cached and sent, with
        the callback. */
    method ReportLights(p: nat, ghost v: PartitionView, ghost r: PartitionResult)
      requires p < |dsc.lights| && p < |previousLights|
      requires !v.disabled && r == DispatchPartition(v, callbacks)
      requires dsc.lights[p] == v.lights && previousLights[p] == v.previousLights
      modifies this`previousLights, this`log
      ensures previousLights == old(previousLights)[p := r.previousLights]
      ensures log == old(log) + Tag(p + 1, LightsReports(r))
    {
      if dsc.lights[p] != previousLights[p] && callbacks.lightStatusChange {
        previousLights := previousLights[p := dsc.lights[p]];
        Notify(PartitionEvent(p + 1, LightsChange(dsc.lights[p])));
        TagOne(p + 1, LightsChange(dsc.lights[p]));
      } else {
        assert previousLights == previousLights[p := r.previousLights];
      }
    }

    /** The open-zone stream's stage of the pass. */
    method DispatchOpenZones()
      requires Valid()
      modifies dsc`openZones, this`log
      ensures Valid()
      ensures dsc.openZones == ZoneStage(old(dsc.openZones), callbacks.zoneStatusChange)
      ensures log == old(log) + ZoneStageEvents(old(dsc.openZones), false, callbacks.zoneStatusChange)
    {
      if dsc.openZones.statusChanged && callbacks.zoneStatusChange {
        dsc.openZones := dsc.openZones.(statusChanged := false);
        var cleared := FanOut(dsc.openZones.values, dsc.openZones.changed, false);
        dsc.openZones := dsc.openZones.(changed := cleared);
      }
    }

    /** The alarm-zone stream's stage of the pass. */
    method DispatchAlarmZones()
      requires Valid()
      modifies dsc`alarmZones, this`log
      ensures Valid()
      ensures dsc.alarmZones == ZoneStage(old(dsc.alarmZones), callbacks.zoneAlarmChange)
      ensures log == old(log) + ZoneStageEvents(old(dsc.alarmZones), true, callbacks.zoneAlarmChange)
    {
      if dsc.alarmZones.statusChanged && callbacks.zoneAlarmChange {
        dsc.alarmZones := dsc.alarmZones.(statusChanged := false);
        var cleared := FanOut(dsc.alarmZones.values, dsc.alarmZones.changed, true);
        dsc.alarmZones := dsc.alarmZones.(changed := cleared);
      }
    }

    /** The clock's stage of the pass: the time is sent only when every field is in range. */
    method DispatchClock()
      requires Valid()
      modifies dsc`clock, this`log
      ensures Valid()
      ensures dsc.clock == ClockStage(old(dsc.clock), callbacks.panelTimeChange)
      ensures log == old(log) + ClockEvents(old(dsc.clock), callbacks.panelTimeChange)
    {
      if dsc.clock.timestampChanged && callbacks.panelTimeChange {
        dsc.clock := dsc.clock.(timestampChanged := false);
        var k := dsc.clock;
        if ValidTime(k.year, k.month, k.day, k.hour, k.minute) {
          Notify(PanelTimeChange(PanelTime(k.year, k.month, k.day, k.hour, k.minute).value));
        }
      }
    }

    /** One zone stream's fan-out: every changed bit of every group is reported as its 1-based
        zone number and current bit, lowest zone first, and each group's changed mask is
        zeroed after its bits are scanned; `cleared` is the stream's new changed masks. */
    method FanOut(values: seq<byte>, changed: seq<byte>, alarmStream: bool) returns (cleared: seq<byte>)
      requires |values| == ZoneGroups && |changed| == ZoneGroups
      modifies this`log
      ensures cleared == ClearedGroups()
      ensures log == old(log) + ZoneEvents(alarmStream, ZoneChanges(changed, values, ZoneGroups))
    {
      cleared := changed;
      var zone := 0;
      for g := 0 to ZoneGroups
        invariant zone == g * 8 && |cleared| == ZoneGroups
        invariant forall i :: 0 <= i < g ==> cleared[i] == 0
        invariant forall i :: g <= i < ZoneGroups ==> cleared[i] == changed[i]
        invariant log == old(log) + ZoneEvents(alarmStream, ZoneChanges(changed, values, g))
      {
        ghost var log0 := log;
        zone := FanOutGroup(g, cleared[g], values[g], alarmStream, zone);
        FanOutStep(old(log), log0, log, alarmStream, changed, values, g);
        cleared := cleared[g := 0];
      }
      assert cleared == ClearedGroups();
    }

    /** The inner loop of a fan-out: the eight bits of group `g`, lowest first, each set bit of
        `mask` notified with the matching bit of `value`; `zone` counts the zones passed. */
    method FanOutGroup(g: nat, mask: byte, value: byte, alarmStream: bool, zone0: nat) returns (zone: nat)
      requires zone0 == g * 8
      modifies this`log
      ensures zone == zone0 + 8
      ensures log == old(log) + ZoneEvents(alarmStream, GroupChanges(g, mask, value, 8))
    {
      zone := zone0;
      for b := 0 to 8
        invariant zone == g * 8 + b
        invariant log == old(log) + ZoneEvents(alarmStream, GroupChanges(g, mask, value, b))
      {
        ghost var log0 := log;
        zone := zone + 1;
        if Bit(mask, b) {
          var status := Bit(value, b);
          Notify(ZoneEvent(alarmStream, ZoneChange(zone, status)));
        }
        BitStep(old(log), log0, log, alarmStream, g, mask, value, b);
      }
    }

    /** `sendAlarmCommand`: the guarded write of one alarm command to a 1-based partition;
        `code` is the optional code of a disarm. */
    method SendAlarmCommand(partition: nat, command: AlarmCommand, code: Option<string>)
      requires Valid() && 1 <= partition < 256
      modifies dsc`writePartition, dsc`writeLog
      ensures var w := CommandWrite(old(dsc.Parts()), partition, command, code, accessCode);
        if w.Some? then dsc.writeLog == old(dsc.writeLog) + [w.value] && dsc.writePartition == partition
        else dsc.writeLog == old(dsc.writeLog) && dsc.writePartition == old(dsc.writePartition)
    {
      if partition > Partitions {
        return;
      }
      var index := partition - 1;
      match command
      case Disarm =>
        if dsc.armed[index] || dsc.exitDelay[index] {
          dsc.writePartition := partition;
          var keys := if code.Some? then code.value else accessCode;
          dsc.Write(keys);
        }
      case ArmStay =>
        if !(dsc.armed[index] || dsc.exitDelay[index]) {
          dsc.writePartition := partition;
          dsc.Write([Key(command)]);
        }
      case ArmAway =>
        if !(dsc.armed[index] || dsc.exitDelay[index]) {
          dsc.writePartition := partition;
          dsc.Write([Key(command)]);
        }
      case TriggerFireAlarm =>
        dsc.writePartition := partition;
        dsc.Write([Key(command)]);
      case TriggerPanicAlarm =>
        dsc.writePartition := partition;
        dsc.Write([Key(command)]);
    }

    /** `write(std::string, partition)`: refused unless the driver is write-ready; otherwise
        the keystring, cut to the 49 bytes the buffer holds, goes to `partition`. */
    method WriteKeys(keys: string, partition: nat) returns (ok: bool)
      requires partition < 256
      modifies dsc`writePartition, dsc`writeLog
      ensures ok == dsc.flags.writeReady
      ensures ok ==> dsc.writePartition == partition &&
                     dsc.writeLog == old(dsc.writeLog) + [Written(partition, KeyBuffer(keys))]
      ensures !ok ==> dsc.writePartition == old(dsc.writePartition) && dsc.writeLog == old(dsc.writeLog)
    {
      if !dsc.flags.writeReady {
        return false;
      }
      var bytes := Bytes(keys);
      var end := if |bytes| < 49 then |bytes| else 49;
      var buffer := CString(bytes[..end]);
      dsc.writePartition := partition;
      dsc.Write(buffer);
      return true;
    }

    /** `write(char, partition)`: one key to `partition`, unconditionally. */
    method WriteKey(key: char, partition: nat)
      requires key < 0x100 as char && partition < 256
      modifies dsc`writePartition, dsc`writeLog
      ensures dsc.writePartition == partition
      ensures dsc.writeLog == old(dsc.writeLog) + [Written(partition, [key])]
    {
      dsc.writePartition := partition;
      dsc.Write([key]);
    }

    /** `resetStatus`: the driver's own reset (not part of this model) leaves the decoded
        state `driven`; then the clock is marked changed and both caches are filled with the
        0xFF sentinel, so the next pass resends every status message and the lights. */
    method ResetStatus(driven: Panel)
      requires Valid() && WellFormed(driven)
      modifies dsc, this`previousStatus, this`previousLights
      ensures Valid()
      ensures var r := Reset(driven.(writePartition := old(dsc.writePartition),
                                     writeLog := old(dsc.writeLog)));
        dsc.Snap() == r.0 && Cached() == r.1
    {
      ghost var d := driven.(writePartition := dsc.writePartition, writeLog := dsc.writeLog);
      dsc.Latch(driven);
      assert dsc.Snap() == d;
      dsc.clock := dsc.clock.(timestampChanged := true);
      assert dsc.Snap() == Reset(d).0;
      for i := 0 to Partitions
        invariant dsc.Snap() == Reset(d).0
        invariant |previousLights| == Partitions && |previousStatus| == Partitions
        invariant forall j :: 0 <= j < i ==> previousLights[j] == 0xFF && previousStatus[j] == 0xFF
      {
        previousLights := previousLights[i := 0xFF];
        previousStatus := previousStatus[i := 0xFF];
      }
      assert previousStatus == Sentinels();
      assert previousLights == Sentinels();
    }
  }

  /** One more bit of a group extends the notifications by that bit's transition, if any. */
  lemma BitStep(log0: seq<Event>, log1: seq<Event>, log2: seq<Event>, alarmStream: bool,
                g: nat, mask: byte, value: byte, b: nat)
    requires b < 8
    requires log1 == log0 + ZoneEvents(alarmStream, GroupChanges(g, mask, value, b))
    requires Bit(mask, b) ==> log2 == log1 + [ZoneEvent(alarmStream, ZoneChange(g * 8 + b + 1, Bit(value, b)))]
    requires !Bit(mask, b) ==> log2 == log1
    ensures log2 == log0 + ZoneEvents(alarmStream, GroupChanges(g, mask, value, b + 1))
  {
    var sofar := GroupChanges(g, mask, value, b);
    if Bit(mask, b) {
      var z := ZoneChange(g * 8 + b + 1, Bit(value, b));
      ZoneEventsAppend(alarmStream, sofar, [z]);
      assert ZoneEvents(alarmStream, [z]) == [ZoneEvent(alarmStream, z)];
    } else {
      assert GroupChanges(g, mask, value, b + 1) == sofar;
    }
  }

  /** One more group fanned out extends the notifications by that group's transitions. */
  lemma FanOutStep(log0: seq<Event>, log1: seq<Event>, log2: seq<Event>, alarmStream: bool,
                   changed: seq<byte>, values: seq<byte>, g: nat)
    requires g < |changed| && g < |values|
    requires log1 == log0 + ZoneEvents(alarmStream, ZoneChanges(changed, values, g))
    requires log2 == log1 + ZoneEvents(alarmStream, GroupChanges(g, changed[g], values[g], 8))
    ensures log2 == log0 + ZoneEvents(alarmStream, ZoneChanges(changed, values, g + 1))
  {
    ZoneEventsAppend(alarmStream, ZoneChanges(changed, values, g), GroupChanges(g, changed[g], values[g], 8));
  }

  /** The stages' results, put together, are the pass's outcome. */
  lemma PassOutcome(s: Panel, c: Caches, cb: Callbacks, accessCode: string, flags: Flags,
                    parts: PartitionData, caches: Caches, openZones: ZoneStream, alarmZones: ZoneStream,
                    clock: Clock, writeLog: seq<Written>, events: seq<Event>)
    requires WellFormed(s) && CachesFit(c) && s.flags.statusChanged
    requires flags == GlobalFlags(s.flags) && (parts, caches) == PartitionStage(s.parts, c, cb)
    requires openZones == ZoneStage(s.openZones, cb.zoneStatusChange)
    requires alarmZones == ZoneStage(s.alarmZones, cb.zoneAlarmChange)
    requires clock == ClockStage(s.clock, cb.panelTimeChange)
    requires writeLog == s.writeLog + AccessCodeWrites(s.flags, s.writePartition, accessCode)
    requires events == PassEvents(s, c, cb)
    ensures Pass(s, c, cb, accessCode) ==
      Outcome(Panel(flags, parts, openZones, alarmZones, clock, s.writePartition, writeLog), caches, events)
  {
  }

  /** Appending five pieces one after another appends their concatenation. */
  lemma Concat5<T>(s: seq<T>, a: seq<T>, b: seq<T>, c: seq<T>, d: seq<T>, e: seq<T>)
    ensures s + a + b + c + d + e == s + (a + b + c + d + e)
  {
  }

  /** The global blocks, each applied to the flags the previous one left: `g1` to `g8` are the
      flags before the connection, prompt, trouble, power, battery, fire, auxiliary and panic
      blocks. */
  ghost predicate GlobalChain(f: Flags, g1: Flags, g2: Flags, g3: Flags, g4: Flags, g5: Flags,
                              g6: Flags, g7: Flags, g8: Flags) {
    g1 == f.(statusChanged := false, bufferOverflow := false) &&
    g2 == g1.(keybusChanged := false) &&
    g3 == g2.(accessCodePrompt := g2.accessCodePrompt && !g2.writeReady) &&
    g4 == g3.(troubleChanged := false) &&
    g5 == g4.(powerChanged := false) &&
    g6 == g5.(batteryChanged := false) &&
    g7 == g6.(keypadFireAlarm := false) &&
    g8 == g7.(keypadAuxAlarm := false)
  }

  /** Block by block, the flags end up as the global stage leaves them. */
  lemma ChainFlags(f: Flags, g1: Flags, g2: Flags, g3: Flags, g4: Flags, g5: Flags, g6: Flags,
                   g7: Flags, g8: Flags)
    requires GlobalChain(f, g1, g2, g3, g4, g5, g6, g7, g8)
    ensures g8.(keypadPanicAlarm := false) == GlobalFlags(f)
  {
  }

  /** The connection block sees the connection flags as the pass found them. */
  lemma ChainConnection(f: Flags, g1: Flags, g2: Flags, g3: Flags, g4: Flags, g5: Flags, g6: Flags,
                        g7: Flags, g8: Flags, cb: Callbacks)
    requires GlobalChain(f, g1, g2, g3, g4, g5, g6, g7, g8)
    ensures ConnectionSignals(g1, cb) == ConnectionSignals(f, cb)
  {
  }

  /** The prompt block sees the prompt and write-ready flags as the pass found them. */
  lemma ChainWrites(f: Flags, g1: Flags, g2: Flags, g3: Flags, g4: Flags, g5: Flags, g6: Flags,
                    g7: Flags, g8: Flags, writePartition: int, accessCode: string)
    requires GlobalChain(f, g1, g2, g3, g4, g5, g6, g7, g8)
    ensures AccessCodeWrites(g2, writePartition, accessCode) == AccessCodeWrites(f, writePartition, accessCode)
  {
  }

  /** The three trouble blocks see their flags as the pass found them. */
  lemma ChainTrouble(f: Flags, g1: Flags, g2: Flags, g3: Flags, g4: Flags, g5: Flags, g6: Flags,
                     g7: Flags, g8: Flags, cb: Callbacks)
    requires GlobalChain(f, g1, g2, g3, g4, g5, g6, g7, g8)
    ensures StatusSignal(Trouble, g3.troubleChanged, g3.trouble, cb) +
            StatusSignal(PowerTrouble, g4.powerChanged, g4.powerTrouble, cb) +
            StatusSignal(BatteryTrouble, g5.batteryChanged, g5.batteryTrouble, cb) == TroubleSignals(f, cb)
  {
  }

  /** The three pulse blocks see their pulses as the pass found them. */
  lemma ChainPulses(f: Flags, g1: Flags, g2: Flags, g3: Flags, g4: Flags, g5: Flags, g6: Flags,
                    g7: Flags, g8: Flags, cb: Callbacks)
    requires GlobalChain(f, g1, g2, g3, g4, g5, g6, g7, g8)
    ensures PulseSignal(FireAlarm, g6.keypadFireAlarm, cb) + PulseSignal(AuxAlarm, g7.keypadAuxAlarm, cb) +
            PulseSignal(PanicAlarm, g8.keypadPanicAlarm, cb) == PulseSignals(f, cb)
  {
  }

  /** `d` and `c` with partition `p`'s step written back: only its entries of the four change
      arrays and of the two caches change, to what its step leaves. */
  ghost function StepResult(d: PartitionData, c: Caches, p: nat, cb: Callbacks): (r: (PartitionData, Caches))
    requires PartsFit(d) && CachesFit(c) && p < Partitions
    ensures PartsFit(r.0) && CachesFit(r.1)
  {
    var x := PartitionAt(d, c, cb, p);
    (d.(armedChanged := d.armedChanged[p := x.armedChanged],
        exitDelayChanged := d.exitDelayChanged[p := x.exitDelayChanged],
        alarmChanged := d.alarmChanged[p := x.alarmChanged],
        fireChanged := d.fireChanged[p := x.fireChanged]),
     Caches(c.previousStatus[p := x.previousStatus], c.previousLights[p := x.previousLights]))
  }

  /** The partition loop after `k` partitions: theirs are written back, the rest untouched. */
  ghost function Partial(d0: PartitionData, c0: Caches, cb: Callbacks, k: nat): (r: (PartitionData, Caches))
    requires PartsFit(d0) && CachesFit(c0) && k <= Partitions
    ensures PartsFit(r.0) && CachesFit(r.1)
  {
    var stage := PartitionStage(d0, c0, cb);
    (d0.(armedChanged := Done(stage.0.armedChanged, d0.armedChanged, k),
         exitDelayChanged := Done(stage.0.exitDelayChanged, d0.exitDelayChanged, k),
         alarmChanged := Done(stage.0.alarmChanged, d0.alarmChanged, k),
         fireChanged := Done(stage.0.fireChanged, d0.fireChanged, k)),
     Caches(Done(stage.1.previousStatus, c0.previousStatus, k),
            Done(stage.1.previousLights, c0.previousLights, k)))
  }

  lemma ProgressStart(d0: PartitionData, c0: Caches, cb: Callbacks)
    requires PartsFit(d0) && CachesFit(c0)
    ensures Partial(d0, c0, cb, 0) == (d0, c0)
  {
    var stage := PartitionStage(d0, c0, cb);
    DoneNone(stage.0.armedChanged, d0.armedChanged);
    DoneNone(stage.0.exitDelayChanged, d0.exitDelayChanged);
    DoneNone(stage.0.alarmChanged, d0.alarmChanged);
    DoneNone(stage.0.fireChanged, d0.fireChanged);
    DoneNone(stage.1.previousStatus, c0.previousStatus);
    DoneNone(stage.1.previousLights, c0.previousLights);
  }

  /** One more partition's step extends the loop's progress, and that step is the one the pass
      prescribes for the partition, since its inputs are still the pass's. */
  lemma ProgressStep(d: PartitionData, c: Caches, d0: PartitionData, c0: Caches, cb: Callbacks, k: nat)
    requires PartsFit(d0) && CachesFit(c0) && k < Partitions
    requires (d, c) == Partial(d0, c0, cb, k)
    ensures PartsFit(d) && CachesFit(c)
    ensures PartitionAt(d, c, cb, k) == PartitionAt(d0, c0, cb, k)
    ensures StepResult(d, c, k, cb) == Partial(d0, c0, cb, k + 1)
  {
    assert View(d, c, k) == View(d0, c0, k);
    var stage := PartitionStage(d0, c0, cb);
    DoneStep(stage.0.armedChanged, d0.armedChanged, k);
    DoneStep(stage.0.exitDelayChanged, d0.exitDelayChanged, k);
    DoneStep(stage.0.alarmChanged, d0.alarmChanged, k);
    DoneStep(stage.0.fireChanged, d0.fireChanged, k);
    DoneStep(stage.1.previousStatus, c0.previousStatus, k);
    DoneStep(stage.1.previousLights, c0.previousLights, k);
  }

  /** After every partition the arrays and caches are the partition stage's. */
  lemma ProgressDone(d0: PartitionData, c0: Caches, cb: Callbacks)
    requires PartsFit(d0) && CachesFit(c0)
    ensures Partial(d0, c0, cb, Partitions) == PartitionStage(d0, c0, cb)
  {
    var stage := PartitionStage(d0, c0, cb);
    DoneAll(stage.0.armedChanged, d0.armedChanged);
    DoneAll(stage.0.exitDelayChanged, d0.exitDelayChanged);
    DoneAll(stage.0.alarmChanged, d0.alarmChanged);
    DoneAll(stage.0.fireChanged, d0.fireChanged);
    DoneAll(stage.1.previousStatus, c0.previousStatus);
    DoneAll(stage.1.previousLights, c0.previousLights);
  }

  /** Writing partition `p`'s step entry by entry is writing its step back. */
  lemma EnabledStep(d: PartitionData, c: Caches, p: nat, cb: Callbacks, armedChanged: seq<bool>,
                    exitDelayChanged: seq<bool>, alarmChanged: seq<bool>, fireChanged: seq<bool>,
                    previousStatus: seq<byte>, previousLights: seq<byte>)
    requires PartsFit(d) && CachesFit(c) && p < Partitions
    requires var r := PartitionAt(d, c, cb, p);
      armedChanged == d.armedChanged[p := r.armedChanged] &&
      exitDelayChanged == d.exitDelayChanged[p := r.exitDelayChanged] &&
      alarmChanged == d.alarmChanged[p := r.alarmChanged] &&
      fireChanged == d.fireChanged[p := r.fireChanged] &&
      previousStatus == c.previousStatus[p := r.previousStatus] &&
      previousLights == c.previousLights[p := r.previousLights]
    ensures (d.(armedChanged := armedChanged, exitDelayChanged := exitDelayChanged, alarmChanged := alarmChanged,
                fireChanged := fireChanged), Caches(previousStatus, previousLights)) == StepResult(d, c, p, cb)
  {
  }

  /** An armed change reports itself, when its callback exists, and then how the partition
      armed, when it is armed and the status callback exists: the two notifications of the
      armed-change block make up its reports. */
  lemma ArmedLog(log0: seq<Event>, log1: seq<Event>, log2: seq<Event>, n: nat, v: PartitionView, cb: Callbacks)
    requires !v.disabled && v.armedChanged
    requires log1 == log0 + Tag(n, When(cb.partitionArmedChange, ArmedChange(v.armed, v.armedStay, v.armedAway)))
    requires v.armed ==>
      log2 == log1 + Tag(n, When(cb.partitionStatusChange, StatusChange(if v.armedStay then ArmedStay else ArmedAway)))
    requires !v.armed ==> log2 == log1
    ensures log2 == log0 + Tag(n, ArmedReports(DispatchPartition(v, cb)))
  {
    var armed := When(cb.partitionArmedChange, ArmedChange(v.armed, v.armedStay, v.armedAway));
    var status := When(v.armed && cb.partitionStatusChange, StatusChange(if v.armedStay then ArmedStay else ArmedAway));
    assert ArmedReports(DispatchPartition(v, cb)) == armed + status;
    TagAppend(n, armed, status);
    if !v.armed {
      assert Tag(n, status) == [];
    }
  }

  /** A disabled partition's step changes nothing and reports nothing. */
  lemma DisabledStep(d: PartitionData, c: Caches, p: nat, cb: Callbacks)
    requires PartsFit(d) && CachesFit(c) && p < Partitions && d.disabled[p]
    ensures StepResult(d, c, p, cb) == (d, c)
    ensures Reports(PartitionAt(d, c, cb, p)) == []
  {
    var v := View(d, c, p);
    DisabledPartitionSkipped(v, cb);
    Unchanged(d.armedChanged, p);
    Unchanged(d.exitDelayChanged, p);
    Unchanged(d.alarmChanged, p);
    Unchanged(d.fireChanged, p);
    Unchanged(c.previousStatus, p);
    Unchanged(c.previousLights, p);
  }

  /** The events of one more partition extend the loop's log. */
  lemma NextPartitionEvents(log0: seq<Event>, reports: seq<seq<PartitionChange>>, k: nat, x: seq<PartitionChange>)
    requires k < |reports| && reports[k] == x
    ensures log0 + PartitionEvents(reports, k) + Tag(k + 1, x) == log0 + PartitionEvents(reports, k + 1)
  {
  }

  /** The first `k` entries of `xs` followed by the rest of `ys`. */
  function Done<T>(xs: seq<T>, ys: seq<T>, k: nat): (r: seq<T>)
    requires k <= |xs| == |ys|
    ensures |r| == |xs| && (forall i :: 0 <= i < k ==> r[i] == xs[i]) && (forall i :: k <= i < |r| ==> r[i] == ys[i])
  {
    xs[..k] + ys[k..]
  }

  /** Writing entry `k` of `xs` extends the finished prefix by one. */
  lemma DoneStep<T>(xs: seq<T>, ys: seq<T>, k: nat)
    requires k < |xs| == |ys|
    ensures Done(xs, ys, k)[k := xs[k]] == Done(xs, ys, k + 1)
  {
  }

  /** Before any entry is written, only `ys` remains. */
  lemma DoneNone<T>(xs: seq<T>, ys: seq<T>)
    requires |xs| == |ys|
    ensures Done(xs, ys, 0) == ys
  {
  }

  /** Once every entry is written, only `xs` remains. */
  lemma DoneAll<T>(xs: seq<T>, ys: seq<T>)
    requires |xs| == |ys|
    ensures Done(xs, ys, |xs|) == xs
  {
  }

  /** Writing an entry back unchanged leaves the sequence as it was. */
  lemma Unchanged<T>(s: seq<T>, p: nat)
    requires p < |s|
    ensures s[p := s[p]] == s
  {
  }

  /** Of two writes to the same entry, the later one is what remains. */
  lemma Overwritten<T>(s: seq<T>, p: nat, x: T, y: T)
    requires p < |s|
    ensures s[p := x][p := y] == s[p := y]
  {
  }

  /** The sections' reports, tagged one after another, are the step's reports tagged. */
  lemma StepTags(log0: seq<Event>, n: nat, r: PartitionResult)
    ensures log0 + Tag(n, MessageReports(r)) + Tag(n, AlarmReports(r)) + Tag(n, ArmedReports(r)) +
            Tag(n, ExitDelayReports(r)) + Tag(n, FireReports(r)) + Tag(n, LightsReports(r)) ==
            log0 + Tag(n, Reports(r))
  {
    TagSix(log0, n, MessageReports(r), AlarmReports(r), ArmedReports(r), ExitDelayReports(r),
           FireReports(r), LightsReports(r));
  }

  /** Tagging six pieces one after another tags their concatenation. */
  lemma TagSix(log0: seq<Event>, n: nat, a: seq<PartitionChange>, b: seq<PartitionChange>,
               c: seq<PartitionChange>, d: seq<PartitionChange>, e: seq<PartitionChange>,
               f: seq<PartitionChange>)
    ensures log0 + Tag(n, a) + Tag(n, b) + Tag(n, c) + Tag(n, d) + Tag(n, e) + Tag(n, f) ==
            log0 + Tag(n, a + b + (c + d) + e + f)
  {
    TagAppend(n, a, b);
    TagAppend(n, c, d);
    TagAppend(n, a + b, c + d);
    TagAppend(n, a + b + (c + d), e);
    TagAppend(n, a + b + (c + d) + e, f);
    Append6(log0, Tag(n, a), Tag(n, b), Tag(n, c), Tag(n, d), Tag(n, e), Tag(n, f));
  }

  /** Appending six pieces one after another appends their concatenation. */
  lemma Append6<T>(s: seq<T>, a: seq<T>, b: seq<T>, c: seq<T>, d: seq<T>, e: seq<T>, f: seq<T>)
    ensures s + a + b + c + d + e + f == s + (a + b + (c + d) + e + f)
  {
  }

  /** Appending seven pieces one after another appends their concatenation. */
  lemma Append7<T>(s: seq<T>, a: seq<T>, b: seq<T>, c: seq<T>, d: seq<T>, e: seq<T>, g: seq<T>, h: seq<T>)
    ensures s + a + b + c + d + e + g + h == s + (a + (b + c + d) + (e + g + h))
  {
  }

  /** Appending three pieces one after another appends their concatenation. */
  lemma Append3<T>(s: seq<T>, a: seq<T>, b: seq<T>, c: seq<T>)
    ensures s + a + b + c == s + (a + b + c)
  {
  }

  lemma TagOne(n: nat, x: PartitionChange)
    ensures Tag(n, [x]) == [PartitionEvent(n, x)]
  {
    assert [x][1..] == [];
  }
}
