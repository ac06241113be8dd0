/** What a whole dispatch pass guarantees, stated on `Pass`: which events reach the callbacks,
    what the pass consumes and leaves pending, and how it behaves after `resetStatus` and when
    repeated. */
module PassFacts {
  import opened Keybus
  import opened Zones
  import opened PanelClock
  import opened Dispatch
  import opened DispatchFacts

  // ---------------------------------------------------------------------------------------
  // Where each kind of event comes from
  // ---------------------------------------------------------------------------------------

  /** The partition loop's events are exactly the steps' reports, each tagged with its
      partition's 1-based number. */
  lemma PartitionStageEventsMembers(d: PartitionData, c: Caches, cb: Callbacks, e: Event)
    requires PartsFit(d) && CachesFit(c)
    ensures e in PartitionStageEvents(d, c, cb) <==>
              e.PartitionEvent? && 1 <= e.partition <= Partitions &&
              e.change in Reports(PartitionAt(d, c, cb, e.partition - 1))
  {
    PartitionEventsMembers(StageReports(d, c, cb), Partitions, e);
  }

  /** A stream's fan-out reports exactly the zones whose changed bit is set, with their
      current bit. */
  lemma ZoneStageEventsMembers(z: ZoneStream, alarmStream: bool, callback: bool, zc: ZoneChange)
    requires StreamFits(z)
    ensures ZoneEvent(alarmStream, zc) in ZoneStageEvents(z, alarmStream, callback) <==>
              FansOut(z, callback) && Reported(z.changed, z.values, ZoneGroups, zc)
  {
    var zs := ZoneChanges(z.changed, z.values, |z.changed|);
    ZoneEventsMembers(alarmStream, zs, ZoneEvent(alarmStream, zc));
    ZoneChangesMembers(z.changed, z.values, ZoneGroups, zc);
  }

  /** The open-zone stream reports only zone status changes, the alarm-zone stream only zone
      alarm changes. */
  lemma ZoneStageKinds(z: ZoneStream, alarmStream: bool, callback: bool, e: Event)
    requires StreamFits(z)
    requires e in ZoneStageEvents(z, alarmStream, callback)
    ensures if alarmStream then e.ZoneAlarmChange? else e.ZoneStatusChange?
  {
    ZoneEventsMembers(alarmStream, ZoneChanges(z.changed, z.values, |z.changed|), e);
  }

  /** The clock stage sends only the panel time. */
  lemma ClockEventsMembers(k: Clock, callback: bool, e: Event)
    ensures e in ClockEvents(k, callback) <==>
              e.PanelTimeChange? && k.timestampChanged && callback &&
              PanelTime(k.year, k.month, k.day, k.hour, k.minute) == Some(e.time)
  {
  }

  /** The pass's events split into its stages' events. */
  lemma PassEventsMembers(s: Panel, c: Caches, cb: Callbacks, e: Event)
    requires WellFormed(s) && CachesFit(c)
    ensures e in PassEvents(s, c, cb) <==>
              (e.GlobalEvent? && e.signal in GlobalEvents(s.flags, cb)) ||
              e in PartitionStageEvents(s.parts, c, cb) ||
              e in ZoneStageEvents(s.openZones, false, cb.zoneStatusChange) ||
              e in ZoneStageEvents(s.alarmZones, true, cb.zoneAlarmChange) ||
              e in ClockEvents(s.clock, cb.panelTimeChange)
  {
    LiftMembers(GlobalEvents(s.flags, cb), e);
  }

  /** Which stage an event can come from, by its kind. */
  lemma PassEventSource(s: Panel, c: Caches, cb: Callbacks, e: Event)
    requires WellFormed(s) && CachesFit(c)
    ensures e.GlobalEvent? ==>
              (e in PassEvents(s, c, cb) <==> e.signal in GlobalEvents(s.flags, cb))
    ensures e.PartitionEvent? ==>
              (e in PassEvents(s, c, cb) <==> e in PartitionStageEvents(s.parts, c, cb))
    ensures e.ZoneStatusChange? ==>
              (e in PassEvents(s, c, cb) <==>
                 e in ZoneStageEvents(s.openZones, false, cb.zoneStatusChange))
    ensures e.ZoneAlarmChange? ==>
              (e in PassEvents(s, c, cb) <==>
                 e in ZoneStageEvents(s.alarmZones, true, cb.zoneAlarmChange))
    ensures e.PanelTimeChange? ==>
              (e in PassEvents(s, c, cb) <==> e in ClockEvents(s.clock, cb.panelTimeChange))
  {
    PassEventsMembers(s, c, cb, e);
    PartitionStageEventsMembers(s.parts, c, cb, e);
    if e in ZoneStageEvents(s.openZones, false, cb.zoneStatusChange) {
      ZoneStageKinds(s.openZones, false, cb.zoneStatusChange, e);
    }
    if e in ZoneStageEvents(s.alarmZones, true, cb.zoneAlarmChange) {
      ZoneStageKinds(s.alarmZones, true, cb.zoneAlarmChange, e);
    }
    ClockEventsMembers(s.clock, cb.panelTimeChange, e);
  }

  // ---------------------------------------------------------------------------------------
  // The pass: when nothing changed
  // ---------------------------------------------------------------------------------------

  /** Without `statusChanged` the pass reports nothing and changes nothing. */
  lemma QuietPass(s: Panel, c: Caches, cb: Callbacks, accessCode: string)
    requires WellFormed(s) && CachesFit(c) && !s.flags.statusChanged
    ensures Pass(s, c, cb, accessCode) == Outcome(s, c, [])
  {
  }

  /** A pass leaves `statusChanged` cleared, so repeating it before the driver decodes new
      data reports nothing. */
  lemma PassSettles(s: Panel, c: Caches, cb: Callbacks, accessCode: string)
    requires WellFormed(s) && CachesFit(c)
    ensures var r := Pass(s, c, cb, accessCode);
      Pass(r.panel, r.caches, cb, accessCode).events == []
  {
  }

  // ---------------------------------------------------------------------------------------
  // The pass: global notifications and the access-code prompt
  // ---------------------------------------------------------------------------------------

  lemma PassConnection(s: Panel, c: Caches, cb: Callbacks, accessCode: string, connected: bool)
    requires WellFormed(s) && CachesFit(c)
    ensures GlobalEvent(KeybusConnectionChange(connected)) in Pass(s, c, cb, accessCode).events <==>
              s.flags.statusChanged && s.flags.keybusChanged && cb.keybusConnectionChange &&
              connected == s.flags.keybusConnected
  {
    if s.flags.statusChanged {
      PassEventSource(s, c, cb, GlobalEvent(KeybusConnectionChange(connected)));
      GlobalConnection(s.flags, cb, connected);
    }
  }

  lemma PassTrouble(s: Panel, c: Caches, cb: Callbacks, accessCode: string, kind: KeypadStatus,
                    active: bool)
    requires WellFormed(s) && CachesFit(c)
    ensures GlobalEvent(KeypadStatusChange(kind, active)) in Pass(s, c, cb, accessCode).events <==>
              s.flags.statusChanged && TroubleChanged(s.flags, kind) && cb.keypadStatusChange &&
              active == TroubleActive(s.flags, kind)
  {
    if s.flags.statusChanged {
      PassEventSource(s, c, cb, GlobalEvent(KeypadStatusChange(kind, active)));
      GlobalTrouble(s.flags, cb, kind, active);
    }
  }

  lemma PassKeypadAlarm(s: Panel, c: Caches, cb: Callbacks, accessCode: string, alarm: KeypadAlarm)
    requires WellFormed(s) && CachesFit(c)
    ensures GlobalEvent(KeypadAlarmPulse(alarm)) in Pass(s, c, cb, accessCode).events <==>
              s.flags.statusChanged && Pulse(s.flags, alarm) && cb.keypadAlarm
  {
    if s.flags.statusChanged {
      PassEventSource(s, c, cb, GlobalEvent(KeypadAlarmPulse(alarm)));
      GlobalAlarm(s.flags, cb, alarm);
    }
  }

  /** The access code is written once in answer to a prompt when the driver can write;
      otherwise the prompt stays pending and nothing is written. */
  lemma PassAnswersPrompt(s: Panel, c: Caches, cb: Callbacks, accessCode: string)
    requires WellFormed(s) && CachesFit(c) && s.flags.statusChanged
    ensures s.flags.accessCodePrompt && s.flags.writeReady ==>
              Pass(s, c, cb, accessCode).panel.writeLog ==
                s.writeLog + [Written(s.writePartition, accessCode)] &&
              !Pass(s, c, cb, accessCode).panel.flags.accessCodePrompt
    ensures !(s.flags.accessCodePrompt && s.flags.writeReady) ==>
              Pass(s, c, cb, accessCode).panel.writeLog == s.writeLog &&
              Pass(s, c, cb, accessCode).panel.flags.accessCodePrompt == s.flags.accessCodePrompt
  {
    PassGlobals(s, c, cb, accessCode);
    GlobalFlagsConsumed(s.flags, s.writePartition, accessCode);
  }

  lemma PassGlobals(s: Panel, c: Caches, cb: Callbacks, accessCode: string)
    requires WellFormed(s) && CachesFit(c) && s.flags.statusChanged
    ensures Pass(s, c, cb, accessCode).panel.flags == GlobalFlags(s.flags)
    ensures Pass(s, c, cb, accessCode).panel.writeLog ==
              s.writeLog + AccessCodeWrites(s.flags, s.writePartition, accessCode)
  {
  }

  // ---------------------------------------------------------------------------------------
  // The pass: partition notifications
  // ---------------------------------------------------------------------------------------

  /** A partition change is reported for partition `p + 1` exactly when the pass runs and that
      partition's step reports it. */
  lemma PassPartitionEvent(s: Panel, c: Caches, cb: Callbacks, accessCode: string, p: nat,
                           x: PartitionChange)
    requires WellFormed(s) && CachesFit(c) && p < Partitions
    ensures PartitionEvent(p + 1, x) in Pass(s, c, cb, accessCode).events <==>
              s.flags.statusChanged && x in Reports(PartitionAt(s.parts, c, cb, p))
  {
    if s.flags.statusChanged {
      PassEventSource(s, c, cb, PartitionEvent(p + 1, x));
      PartitionStageEventsMembers(s.parts, c, cb, PartitionEvent(p + 1, x));
    }
  }

  /** The status message of partition `p + 1` is sent exactly when its status code differs
      from the cached one (the partition enabled, the callback registered); it carries the new
      code, and its text is `"%02X: "` followed by the code's status text. */
  lemma PassStatusMessage(s: Panel, c: Caches, cb: Callbacks, accessCode: string, p: nat,
                          code: byte)
    requires WellFormed(s) && CachesFit(c) && p < Partitions
    ensures PartitionEvent(p + 1, StatusMessageSent(code)) in Pass(s, c, cb, accessCode).events <==>
              s.flags.statusChanged && !s.parts.disabled[p] &&
              s.parts.status[p] != c.previousStatus[p] && cb.partitionStatusMessage &&
              code == s.parts.status[p]
  {
    PassPartitionEvent(s, c, cb, accessCode, p, StatusMessageSent(code));
    StepMessage(View(s.parts, c, p), cb, code);
  }

  lemma PassPartitionAlarm(s: Panel, c: Caches, cb: Callbacks, accessCode: string, p: nat,
                           triggered: bool)
    requires WellFormed(s) && CachesFit(c) && p < Partitions
    ensures PartitionEvent(p + 1, AlarmChange(triggered)) in Pass(s, c, cb, accessCode).events <==>
              s.flags.statusChanged && !s.parts.disabled[p] && s.parts.alarmChanged[p] &&
              cb.partitionAlarmChange && triggered == s.parts.alarm[p]
  {
    PassPartitionEvent(s, c, cb, accessCode, p, AlarmChange(triggered));
    StepAlarm(View(s.parts, c, p), cb, triggered);
  }

  lemma PassArmed(s: Panel, c: Caches, cb: Callbacks, accessCode: string, p: nat,
                  armed: bool, stay: bool, away: bool)
    requires WellFormed(s) && CachesFit(c) && p < Partitions
    ensures PartitionEvent(p + 1, ArmedChange(armed, stay, away)) in Pass(s, c, cb, accessCode).events <==>
              s.flags.statusChanged && !s.parts.disabled[p] && s.parts.armedChanged[p] &&
              cb.partitionArmedChange && armed == s.parts.armed[p] &&
              stay == s.parts.armedStay[p] && away == s.parts.armedAway[p]
  {
    PassPartitionEvent(s, c, cb, accessCode, p, ArmedChange(armed, stay, away));
    StepArmed(View(s.parts, c, p), cb, armed, stay, away);
  }

  /** The partition status callback follows the decision table of `ExpectedStatus`. */
  lemma PassPartitionStatus(s: Panel, c: Caches, cb: Callbacks, accessCode: string, p: nat,
                            status: PartitionStatus)
    requires WellFormed(s) && CachesFit(c) && p < Partitions
    ensures PartitionEvent(p + 1, StatusChange(status)) in Pass(s, c, cb, accessCode).events <==>
              s.flags.statusChanged && StatusChange(status) in ExpectedStatus(View(s.parts, c, p), cb)
  {
    PassPartitionEvent(s, c, cb, accessCode, p, StatusChange(status));
    StepStatus(View(s.parts, c, p), cb, status);
  }

  lemma PassFire(s: Panel, c: Caches, cb: Callbacks, accessCode: string, p: nat, active: bool)
    requires WellFormed(s) && CachesFit(c) && p < Partitions
    ensures PartitionEvent(p + 1, FireChange(active)) in Pass(s, c, cb, accessCode).events <==>
              s.flags.statusChanged && !s.parts.disabled[p] && s.parts.fireChanged[p] &&
              cb.fireStatusChange && active == s.parts.fire[p]
  {
    PassPartitionEvent(s, c, cb, accessCode, p, FireChange(active));
    StepFire(View(s.parts, c, p), cb, active);
  }

  lemma PassLights(s: Panel, c: Caches, cb: Callbacks, accessCode: string, p: nat, lights: byte)
    requires WellFormed(s) && CachesFit(c) && p < Partitions
    ensures PartitionEvent(p + 1, LightsChange(lights)) in Pass(s, c, cb, accessCode).events <==>
              s.flags.statusChanged && !s.parts.disabled[p] &&
              s.parts.lights[p] != c.previousLights[p] && cb.lightStatusChange &&
              lights == s.parts.lights[p]
  {
    PassPartitionEvent(s, c, cb, accessCode, p, LightsChange(lights));
    StepLights(View(s.parts, c, p), cb, lights);
  }

  /** No partition outside 1..8 is ever reported. */
  lemma PassPartitionRange(s: Panel, c: Caches, cb: Callbacks, accessCode: string, e: Event)
    requires WellFormed(s) && CachesFit(c)
    requires e in Pass(s, c, cb, accessCode).events && e.PartitionEvent?
    ensures 1 <= e.partition <= Partitions
  {
    PassEventSource(s, c, cb, e);
    PartitionStageEventsMembers(s.parts, c, cb, e);
  }

  /** The flags and caches a pass leaves for partition `p` are those of its step. */
  lemma PassPartitionState(s: Panel, c: Caches, cb: Callbacks, accessCode: string, p: nat)
    requires WellFormed(s) && CachesFit(c) && s.flags.statusChanged && p < Partitions
    ensures var r := Pass(s, c, cb, accessCode);
      var step := PartitionAt(s.parts, c, cb, p);
      r.panel.parts.armedChanged[p] == step.armedChanged &&
      r.panel.parts.exitDelayChanged[p] == step.exitDelayChanged &&
      r.panel.parts.alarmChanged[p] == step.alarmChanged &&
      r.panel.parts.fireChanged[p] == step.fireChanged &&
      r.caches.previousStatus[p] == step.previousStatus &&
      r.caches.previousLights[p] == step.previousLights
  {
  }

  // ---------------------------------------------------------------------------------------
  // The pass: zones and clock
  // ---------------------------------------------------------------------------------------

  /** Zone `zone` is reported open or closed exactly when its changed bit is set and the
      open-zone fan-out runs; it carries the zone's current bit. */
  lemma PassZoneStatus(s: Panel, c: Caches, cb: Callbacks, accessCode: string, zone: nat, open: bool)
    requires WellFormed(s) && CachesFit(c)
    ensures ZoneStatusChange(zone, open) in Pass(s, c, cb, accessCode).events <==>
              s.flags.statusChanged && FansOut(s.openZones, cb.zoneStatusChange) &&
              Reported(s.openZones.changed, s.openZones.values, ZoneGroups, ZoneChange(zone, open))
  {
    if s.flags.statusChanged {
      PassEventSource(s, c, cb, ZoneStatusChange(zone, open));
      ZoneStageEventsMembers(s.openZones, false, cb.zoneStatusChange, ZoneChange(zone, open));
    }
  }

  lemma PassZoneAlarm(s: Panel, c: Caches, cb: Callbacks, accessCode: string, zone: nat, inAlarm: bool)
    requires WellFormed(s) && CachesFit(c)
    ensures ZoneAlarmChange(zone, inAlarm) in Pass(s, c, cb, accessCode).events <==>
              s.flags.statusChanged && FansOut(s.alarmZones, cb.zoneAlarmChange) &&
              Reported(s.alarmZones.changed, s.alarmZones.values, ZoneGroups, ZoneChange(zone, inAlarm))
  {
    if s.flags.statusChanged {
      PassEventSource(s, c, cb, ZoneAlarmChange(zone, inAlarm));
      ZoneStageEventsMembers(s.alarmZones, true, cb.zoneAlarmChange, ZoneChange(zone, inAlarm));
    }
  }

  /** A fan-out consumes its stream: once the pass has run it, a later pass reports no zone of
      that stream unless the driver marks a zone changed again. */
  lemma ZoneFanOutOnce(s: Panel, c: Caches, cb: Callbacks, accessCode: string, later: Panel,
                       c2: Caches, zone: nat, open: bool)
    requires WellFormed(s) && CachesFit(c) && s.flags.statusChanged
    requires FansOut(s.openZones, cb.zoneStatusChange)
    requires WellFormed(later) && CachesFit(c2)
    requires later.openZones.changed == Pass(s, c, cb, accessCode).panel.openZones.changed
    ensures ZoneStatusChange(zone, open) !in Pass(later, c2, cb, accessCode).events
  {
    PassZoneStatus(later, c2, cb, accessCode, zone, open);
  }

  /** The panel time is sent exactly when the clock changed, the callback exists and every
      field is in range; it is the formatted time. */
  lemma PassPanelTime(s: Panel, c: Caches, cb: Callbacks, accessCode: string, time: string)
    requires WellFormed(s) && CachesFit(c)
    ensures PanelTimeChange(time) in Pass(s, c, cb, accessCode).events <==>
              s.flags.statusChanged && s.clock.timestampChanged && cb.panelTimeChange &&
              ValidTime(s.clock.year, s.clock.month, s.clock.day, s.clock.hour, s.clock.minute) &&
              time == PanelTime(s.clock.year, s.clock.month, s.clock.day, s.clock.hour,
                                s.clock.minute).value
  {
    if s.flags.statusChanged {
      PassEventSource(s, c, cb, PanelTimeChange(time));
      ClockEventsMembers(s.clock, cb.panelTimeChange, PanelTimeChange(time));
    }
  }

  // ---------------------------------------------------------------------------------------
  // Across passes
  // ---------------------------------------------------------------------------------------

  /** A status message is sent once per change: after a pass, a later pass in which the
      partition's status code is the same sends no status message for it. */
  lemma StatusMessageOncePerChange(s: Panel, c: Caches, cb: Callbacks, accessCode: string,
                                   later: Panel, p: nat, code: byte)
    requires WellFormed(s) && CachesFit(c) && s.flags.statusChanged && p < Partitions
    requires !s.parts.disabled[p]
    requires WellFormed(later) && later.parts.status[p] == s.parts.status[p]
    ensures var r := Pass(s, c, cb, accessCode);
      PartitionEvent(p + 1, StatusMessageSent(code)) !in Pass(later, r.caches, cb, accessCode).events
  {
    var r := Pass(s, c, cb, accessCode);
    PassPartitionState(s, c, cb, accessCode, p);
    EnabledPartitionFlags(View(s.parts, c, p), cb);
    PassStatusMessage(later, r.caches, cb, accessCode, p, code);
  }

  /** After `resetStatus` the next pass resends every enabled partition's status message,
      whatever the driver's own reset left, as long as it left `statusChanged` set: the
      sentinel differs from every code an enabled partition reports. */
  lemma ResetResendsStatus(driven: Panel, cb: Callbacks, accessCode: string, p: nat)
    requires WellFormed(driven) && driven.flags.statusChanged && p < Partitions
    requires !driven.parts.disabled[p] && driven.parts.status[p] != 0xFF && cb.partitionStatusMessage
    ensures PartitionEvent(p + 1, StatusMessageSent(driven.parts.status[p])) in
              Pass(Reset(driven).0, Reset(driven).1, cb, accessCode).events
  {
    var r := Reset(driven);
    assert r.0.parts == driven.parts && r.0.flags == driven.flags;
    PassStatusMessage(r.0, r.1, cb, accessCode, p, driven.parts.status[p]);
  }

  /** After `resetStatus` the next pass resends every enabled partition's lights when the
      callback exists, under the same condition. */
  lemma ResetResendsLights(driven: Panel, cb: Callbacks, accessCode: string, p: nat)
    requires WellFormed(driven) && driven.flags.statusChanged && p < Partitions
    requires !driven.parts.disabled[p] && driven.parts.lights[p] != 0xFF && cb.lightStatusChange
    ensures PartitionEvent(p + 1, LightsChange(driven.parts.lights[p])) in
              Pass(Reset(driven).0, Reset(driven).1, cb, accessCode).events
  {
    var r := Reset(driven);
    assert r.0.parts == driven.parts && r.0.flags == driven.flags;
    PassLights(r.0, r.1, cb, accessCode, p, driven.parts.lights[p]);
  }

  /** After `resetStatus` the next pass resends the panel time when it is valid and the
      callback exists, whatever clock flag the driver's own reset left. */
  lemma ResetResendsTime(driven: Panel, cb: Callbacks, accessCode: string)
    requires WellFormed(driven) && driven.flags.statusChanged && cb.panelTimeChange
    requires ValidTime(driven.clock.year, driven.clock.month, driven.clock.day, driven.clock.hour,
                       driven.clock.minute)
    ensures PanelTimeChange(PanelTime(driven.clock.year, driven.clock.month, driven.clock.day,
                                      driven.clock.hour, driven.clock.minute).value)
              in Pass(Reset(driven).0, Reset(driven).1, cb, accessCode).events
  {
    var r := Reset(driven);
    assert r.0.flags == driven.flags;
    var k := driven.clock;
    assert r.0.clock == k.(timestampChanged := true);
    var t := PanelTime(k.year, k.month, k.day, k.hour, k.minute);
    PassPanelTime(r.0, r.1, cb, accessCode, t.value);
  }
}
