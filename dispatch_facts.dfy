/** What one dispatch pass guarantees: which partition, zone and clock events reach the
    callbacks, how the partition status events are decided, and what the pass leaves behind. */
module DispatchFacts {
  import opened Keybus
  import opened Zones
  import opened PanelClock
  import opened Dispatch

  // ---------------------------------------------------------------------------------------
  // Global flags
  // ---------------------------------------------------------------------------------------

  lemma {:induction false} LiftMembers(gs: seq<GlobalChange>, e: Event)
    ensures e in Lift(gs) <==> e.GlobalEvent? && e.signal in gs
  {
    if gs != [] {
      LiftMembers(gs[1..], e);
      assert gs == [gs[0]] + gs[1..];
    }
  }

  lemma {:induction false} FiredMembers<T>(candidates: seq<(bool, T)>, x: T)
    ensures x in Fired(candidates) <==> exists i :: 0 <= i < |candidates| && candidates[i] == (true, x)
  {
    if candidates != [] {
      FiredMembers(candidates[1..], x);
      if exists i :: 0 <= i < |candidates[1..]| && candidates[1..][i] == (true, x) {
        var i :| 0 <= i < |candidates[1..]| && candidates[1..][i] == (true, x);
        assert candidates[i + 1] == (true, x);
      }
      if exists i :: 0 <= i < |candidates| && candidates[i] == (true, x) {
        var i :| 0 <= i < |candidates| && candidates[i] == (true, x);
        if i > 0 {
          assert candidates[1..][i - 1] == (true, x);
        }
      }
    }
  }

  /** The connection notification carries the new state and is sent exactly when the
      connection changed and its callback exists. */
  lemma GlobalConnection(f: Flags, cb: Callbacks, connected: bool)
    ensures KeybusConnectionChange(connected) in GlobalEvents(f, cb) <==>
              f.keybusChanged && cb.keybusConnectionChange && connected == f.keybusConnected
  {
    FiredMembers(GlobalCandidates(f, cb), KeybusConnectionChange(connected));
  }

  /** The changed flag and the current state of one keypad trouble condition. */
  function TroubleChanged(f: Flags, kind: KeypadStatus): bool {
    match kind
    case Trouble => f.troubleChanged
    case PowerTrouble => f.powerChanged
    case BatteryTrouble => f.batteryChanged
  }

  function TroubleActive(f: Flags, kind: KeypadStatus): bool {
    match kind
    case Trouble => f.trouble
    case PowerTrouble => f.powerTrouble
    case BatteryTrouble => f.batteryTrouble
  }

  /** The pulse flag of one keypad alarm key. */
  function Pulse(f: Flags, alarm: KeypadAlarm): bool {
    match alarm
    case FireAlarm => f.keypadFireAlarm
    case AuxAlarm => f.keypadAuxAlarm
    case PanicAlarm => f.keypadPanicAlarm
  }

  /** A trouble notification carries the condition's state and is sent exactly when that
      condition changed and the callback exists. */
  lemma GlobalTrouble(f: Flags, cb: Callbacks, kind: KeypadStatus, active: bool)
    ensures KeypadStatusChange(kind, active) in GlobalEvents(f, cb) <==>
              TroubleChanged(f, kind) && cb.keypadStatusChange && active == TroubleActive(f, kind)
  {
    var cs := GlobalCandidates(f, cb);
    FiredMembers(cs, KeypadStatusChange(kind, active));
    if TroubleChanged(f, kind) && cb.keypadStatusChange && active == TroubleActive(f, kind) {
      match kind
      case Trouble => assert cs[1] == (true, KeypadStatusChange(kind, active));
      case PowerTrouble => assert cs[2] == (true, KeypadStatusChange(kind, active));
      case BatteryTrouble => assert cs[3] == (true, KeypadStatusChange(kind, active));
    }
  }

  /** A keypad alarm is reported exactly when its key was pressed and the callback exists. */
  lemma GlobalAlarm(f: Flags, cb: Callbacks, alarm: KeypadAlarm)
    ensures KeypadAlarmPulse(alarm) in GlobalEvents(f, cb) <==> Pulse(f, alarm) && cb.keypadAlarm
  {
    var cs := GlobalCandidates(f, cb);
    FiredMembers(cs, KeypadAlarmPulse(alarm));
    if Pulse(f, alarm) && cb.keypadAlarm {
      match alarm
      case FireAlarm => assert cs[4] == (true, KeypadAlarmPulse(alarm));
      case AuxAlarm => assert cs[5] == (true, KeypadAlarmPulse(alarm));
      case PanicAlarm => assert cs[6] == (true, KeypadAlarmPulse(alarm));
    }
  }

  /** The global notifications are the connection, trouble and keypad alarm groups in turn,
      each in the order the pass checks its flags. */
  lemma GlobalSignals(f: Flags, cb: Callbacks)
    ensures Lift(GlobalEvents(f, cb)) == ConnectionSignals(f, cb) + TroubleSignals(f, cb) + PulseSignals(f, cb)
  {
    var a, b, c := ConnectionCandidates(f, cb), TroubleCandidates(f, cb), PulseCandidates(f, cb);
    FiredAppend(a, b);
    FiredAppend(a + b, c);
    LiftAppend(Fired(a), Fired(b));
    LiftAppend(Fired(a) + Fired(b), Fired(c));
    LiftFiredOne(a);
    LiftFiredThree(b);
    LiftFiredThree(c);
  }

  /** The notification one candidate sends, if its condition holds. */
  function Signal(c: (bool, GlobalChange)): seq<Event> {
    When(c.0, GlobalEvent(c.1))
  }

  lemma LiftFiredOne(cs: seq<(bool, GlobalChange)>)
    requires |cs| == 1
    ensures Lift(Fired(cs)) == Signal(cs[0])
  {
    assert cs[1..] == [];
  }

  lemma LiftFiredThree(cs: seq<(bool, GlobalChange)>)
    requires |cs| == 3
    ensures Lift(Fired(cs)) == Signal(cs[0]) + Signal(cs[1]) + Signal(cs[2])
  {
    assert cs[1..][1..] == cs[2..];
    assert cs[2..][1..] == [];
    var a := if cs[0].0 then [cs[0].1] else [];
    var b := if cs[1].0 then [cs[1].1] else [];
    var c := if cs[2].0 then [cs[2].1] else [];
    assert Fired(cs[2..]) == c + Fired(cs[2..][1..]);
    assert Fired(cs[1..]) == b + Fired(cs[2..]);
    assert Fired(cs) == a + (b + c);
    LiftAppend(a, b + c);
    LiftAppend(b, c);
  }

  lemma {:induction false} FiredAppend(xs: seq<(bool, GlobalChange)>, ys: seq<(bool, GlobalChange)>)
    ensures Fired(xs + ys) == Fired(xs) + Fired(ys)
  {
    if xs == [] {
      assert xs + ys == ys;
    } else {
      var h := if xs[0].0 then [xs[0].1] else [];
      assert (xs + ys)[1..] == xs[1..] + ys;
      assert Fired(xs + ys) == h + Fired(xs[1..] + ys);
      FiredAppend(xs[1..], ys);
      assert Fired(xs) == h + Fired(xs[1..]);
    }
  }

  lemma {:induction false} LiftAppend(xs: seq<GlobalChange>, ys: seq<GlobalChange>)
    ensures Lift(xs + ys) == Lift(xs) + Lift(ys)
  {
    if xs == [] {
      assert xs + ys == ys;
    } else {
      assert (xs + ys)[1..] == xs[1..] + ys;
      LiftAppend(xs[1..], ys);
    }
  }

  /** The pass consumes every global change, whether or not a callback exists, and answers an
      access-code prompt exactly when the driver can write. */
  lemma GlobalFlagsConsumed(f: Flags, writePartition: int, accessCode: string)
    ensures var g := GlobalFlags(f);
      !g.statusChanged && !g.bufferOverflow && !g.keybusChanged &&
      !g.troubleChanged && !g.powerChanged && !g.batteryChanged &&
      !g.keypadFireAlarm && !g.keypadAuxAlarm && !g.keypadPanicAlarm &&
      g.keybusConnected == f.keybusConnected && g.writeReady == f.writeReady &&
      g.trouble == f.trouble && g.powerTrouble == f.powerTrouble &&
      g.batteryTrouble == f.batteryTrouble
    ensures (AccessCodeWrites(f, writePartition, accessCode) == [Written(writePartition, accessCode)])
              == (f.accessCodePrompt && f.writeReady)
    ensures AccessCodeWrites(f, writePartition, accessCode) == [] <==> !(f.accessCodePrompt && f.writeReady)
    ensures GlobalFlags(f).accessCodePrompt <==> f.accessCodePrompt && !f.writeReady
  {
  }

  // ---------------------------------------------------------------------------------------
  // One partition
  // ---------------------------------------------------------------------------------------

  /** The decision table for the partition status callback: an arming reports how it armed
      (stay wins when both stay and away are set) and swallows the exit-delay change; otherwise
      an exit-delay change reports the exit delay when it started and a disarm when it ended
      while the partition is not armed. */
  function ExpectedStatus(v: PartitionView, cb: Callbacks): seq<PartitionChange> {
    if v.disabled || !cb.partitionStatusChange then []
    else if v.armedChanged && v.armed then [StatusChange(if v.armedStay then ArmedStay else ArmedAway)]
    else if v.exitDelayChanged && v.exitDelay then [StatusChange(ExitDelay)]
    else if v.exitDelayChanged && !v.armed then [StatusChange(Disarmed)]
    else []
  }

  /** The status changes a step reported, from its three notification sites. */
  function StatusReports(r: PartitionResult): seq<PartitionChange> {
    (if r.armedStatus.Some? then [StatusChange(r.armedStatus.value)] else []) +
    (if r.exitDelayStatus then [StatusChange(ExitDelay)] else []) +
    (if r.disarmedStatus then [StatusChange(Disarmed)] else [])
  }

  /** The three status notification sites of one step follow the decision table, so at most
      one of them fires per pass and `Triggered` is never reported. */
  lemma PartitionStatusDecision(v: PartitionView, cb: Callbacks)
    ensures StatusReports(DispatchPartition(v, cb)) == ExpectedStatus(v, cb)
    ensures |StatusReports(DispatchPartition(v, cb))| <= 1
    ensures StatusChange(Triggered) !in StatusReports(DispatchPartition(v, cb))
  {
    var r := DispatchPartition(v, cb);
    if v.disabled || !cb.partitionStatusChange {
      assert StatusReports(r) == [];
    } else if v.armedChanged && v.armed {
      assert StatusReports(r) == [StatusChange(if v.armedStay then ArmedStay else ArmedAway)];
    } else {
      assert r.armedStatus == None;
    }
  }

  // Which slot of a step's result carries a change of each kind.

  lemma ReportsMessage(r: PartitionResult, code: byte)
    ensures StatusMessageSent(code) in Reports(r) <==> r.message == Some(code)
  {
  }

  lemma ReportsAlarm(r: PartitionResult, triggered: bool)
    ensures AlarmChange(triggered) in Reports(r) <==> r.alarm == Some(triggered)
  {
  }

  lemma ReportsArmed(r: PartitionResult, armed: bool, stay: bool, away: bool)
    ensures ArmedChange(armed, stay, away) in Reports(r) <==> r.armed == Some((armed, stay, away))
  {
  }

  lemma ReportsStatus(r: PartitionResult, status: PartitionStatus)
    ensures StatusChange(status) in Reports(r) <==> StatusChange(status) in StatusReports(r)
  {
  }

  lemma ReportsFire(r: PartitionResult, active: bool)
    ensures FireChange(active) in Reports(r) <==> r.fire == Some(active)
  {
  }

  lemma ReportsLights(r: PartitionResult, lights: byte)
    ensures LightsChange(lights) in Reports(r) <==> r.lights == Some(lights)
  {
  }

  /** A step reports the status message exactly when the partition is enabled, its status
      code differs from the cached one and the callback exists; it carries the new code. */
  lemma StepMessage(v: PartitionView, cb: Callbacks, code: byte)
    ensures StatusMessageSent(code) in Reports(DispatchPartition(v, cb)) <==>
              !v.disabled && v.status != v.previousStatus && cb.partitionStatusMessage &&
              code == v.status
  {
    ReportsMessage(DispatchPartition(v, cb), code);
  }

  /** A step reports the alarm state exactly when it changed, the partition is enabled and the
      callback exists. */
  lemma StepAlarm(v: PartitionView, cb: Callbacks, triggered: bool)
    ensures AlarmChange(triggered) in Reports(DispatchPartition(v, cb)) <==>
              !v.disabled && v.alarmChanged && cb.partitionAlarmChange && triggered == v.alarm
  {
    ReportsAlarm(DispatchPartition(v, cb), triggered);
  }

  /** A step reports the armed flags exactly when they changed, the partition is enabled and
      the callback exists. */
  lemma StepArmed(v: PartitionView, cb: Callbacks, armed: bool, stay: bool, away: bool)
    ensures ArmedChange(armed, stay, away) in Reports(DispatchPartition(v, cb)) <==>
              !v.disabled && v.armedChanged && cb.partitionArmedChange &&
              armed == v.armed && stay == v.armedStay && away == v.armedAway
  {
    ReportsArmed(DispatchPartition(v, cb), armed, stay, away);
  }

  /** A step reports a partition status exactly as the decision table says. */
  lemma StepStatus(v: PartitionView, cb: Callbacks, status: PartitionStatus)
    ensures StatusChange(status) in Reports(DispatchPartition(v, cb)) <==>
              StatusChange(status) in ExpectedStatus(v, cb)
  {
    ReportsStatus(DispatchPartition(v, cb), status);
    PartitionStatusDecision(v, cb);
  }

  /** A step reports the fire state exactly when it changed, the partition is enabled and the
      callback exists. */
  lemma StepFire(v: PartitionView, cb: Callbacks, active: bool)
    ensures FireChange(active) in Reports(DispatchPartition(v, cb)) <==>
              !v.disabled && v.fireChanged && cb.fireStatusChange && active == v.fire
  {
    ReportsFire(DispatchPartition(v, cb), active);
  }

  /** A step reports the lights exactly when the partition is enabled, they differ from the
      cached ones and the callback exists. */
  lemma StepLights(v: PartitionView, cb: Callbacks, lights: byte)
    ensures LightsChange(lights) in Reports(DispatchPartition(v, cb)) <==>
              !v.disabled && v.lights != v.previousLights && cb.lightStatusChange &&
              lights == v.lights
  {
    ReportsLights(DispatchPartition(v, cb), lights);
  }

  /** A disabled partition is skipped: nothing reported, and its flags and caches stay. */
  lemma DisabledPartitionSkipped(v: PartitionView, cb: Callbacks)
    requires v.disabled
    ensures var r := DispatchPartition(v, cb);
      Reports(r) == [] &&
      r.armedChanged == v.armedChanged && r.exitDelayChanged == v.exitDelayChanged &&
      r.alarmChanged == v.alarmChanged && r.fireChanged == v.fireChanged &&
      r.previousStatus == v.previousStatus && r.previousLights == v.previousLights
  {
  }

  /** For an enabled partition the armed and exit-delay changes are always consumed; the alarm
      and fire changes only when their callback exists, so they stay pending otherwise.  The
      status cache always follows the status, the lights cache only when its callback exists. */
  lemma EnabledPartitionFlags(v: PartitionView, cb: Callbacks)
    requires !v.disabled
    ensures var r := DispatchPartition(v, cb);
      !r.armedChanged && !r.exitDelayChanged &&
      r.alarmChanged == (v.alarmChanged && !cb.partitionAlarmChange) &&
      r.fireChanged == (v.fireChanged && !cb.fireStatusChange) &&
      r.previousStatus == v.status &&
      r.previousLights == (if cb.lightStatusChange then v.lights else v.previousLights)
  {
  }

  // ---------------------------------------------------------------------------------------
  // The partition loop
  // ---------------------------------------------------------------------------------------

  lemma {:induction false} TagMembers(n: nat, xs: seq<PartitionChange>, e: Event)
    ensures e in Tag(n, xs) <==> e.PartitionEvent? && e.partition == n && e.change in xs
  {
    if xs != [] {
      TagMembers(n, xs[1..], e);
      assert xs == [xs[0]] + xs[1..];
    }
  }

  lemma {:induction false} TagAppend(n: nat, xs: seq<PartitionChange>, ys: seq<PartitionChange>)
    ensures Tag(n, xs + ys) == Tag(n, xs) + Tag(n, ys)
  {
    if xs == [] {
      assert xs + ys == ys;
    } else {
      assert (xs + ys)[1..] == xs[1..] + ys;
      TagAppend(n, xs[1..], ys);
    }
  }

  /** The partition loop reports a change for partition `n` exactly when partition `n`'s step
      does, and reports nothing else. */
  lemma {:induction false} PartitionEventsMembers(reports: seq<seq<PartitionChange>>, k: nat, e: Event)
    requires k <= |reports|
    ensures e in PartitionEvents(reports, k) <==>
              e.PartitionEvent? && 1 <= e.partition <= k && e.change in reports[e.partition - 1]
  {
    if k > 0 {
      PartitionEventsMembers(reports, k - 1, e);
      TagMembers(k, reports[k - 1], e);
    }
  }

  // ---------------------------------------------------------------------------------------
  // Zones
  // ---------------------------------------------------------------------------------------

  lemma {:induction false} ZoneEventsAppend(alarmStream: bool, xs: seq<ZoneChange>, ys: seq<ZoneChange>)
    ensures ZoneEvents(alarmStream, xs + ys) == ZoneEvents(alarmStream, xs) + ZoneEvents(alarmStream, ys)
  {
    if xs == [] {
      assert xs + ys == ys;
    } else {
      assert (xs + ys)[1..] == xs[1..] + ys;
      ZoneEventsAppend(alarmStream, xs[1..], ys);
    }
  }

  lemma {:induction false} ZoneEventsMembers(alarmStream: bool, zs: seq<ZoneChange>, e: Event)
    ensures e in ZoneEvents(alarmStream, zs) <==>
              exists z :: z in zs && e == ZoneEvent(alarmStream, z)
  {
    if zs != [] {
      ZoneEventsMembers(alarmStream, zs[1..], e);
      assert zs == [zs[0]] + zs[1..];
    }
  }
}
