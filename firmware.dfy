/** The Homie firmware (`src/main.cpp`): the node's handlers over the driver object `dsc`.
    `loopHandler`, `resetDscStatus`, `arm`, `disarm`, `extractPrefixDigits` and
    `homieNodeInputHandler` are proved against the functions of `Homie`; the node's
    `setProperty(..).send(..)` calls are recorded, in order, in `published`. */
module HomieFirmware {
  import opened Keybus
  import opened Zones
  import opened AlarmCommands
  import opened Homie
  import opened HomieFacts
  import Dispatch

  class Firmware {
    const dsc: Interface
    /** The `access-code` setting. */
    const accessCode: string
    /** Every publication so far, oldest first. */
    var published: seq<Publication>

    /** A node over a fresh driver with the given access code. */
    constructor (accessCode: string)
      ensures fresh(dsc) && dsc.Valid() && dsc.writeLog == []
      ensures this.accessCode == accessCode && published == []
    {
      dsc := new Interface();
      this.accessCode := accessCode;
      published := [];
    }

    /** One `setProperty(..).send(..)`. */
    method Send(x: Publication)
      modifies this`published
      ensures published == old(published) + [x]
    {
      published := published + [x];
    }

    /** `resetDscStatus`: marks every change flag the pass reads, and every zone of both
        streams, as changed, so the next pass publishes the whole state. */
    method ResetDscStatus()
      requires dsc.Valid()
      modifies dsc`flags, dsc`armedChanged, dsc`alarmChanged, dsc`exitDelayChanged,
        dsc`entryDelayChanged, dsc`fireChanged, dsc`openZones, dsc`alarmZones
      ensures dsc.Snap() == Refreshed(old(dsc.Snap()))
    {
      ghost var s := dsc.Snap();
      MarkAll(s);
      RefreshedIs(s, dsc.Snap());
    }

    /** The body of `resetDscStatus`, from the driver state `s` it starts in, part by part. */
    method MarkAll(ghost s: Panel)
      requires dsc.Valid() && s == dsc.Snap()
      modifies dsc`flags, dsc`armedChanged, dsc`alarmChanged, dsc`exitDelayChanged,
        dsc`entryDelayChanged, dsc`fireChanged, dsc`openZones, dsc`alarmZones
      ensures dsc.flags == s.flags.(statusChanged := true, keybusChanged := true, troubleChanged := true,
                                    powerChanged := true, batteryChanged := true)
      ensures dsc.Parts() == s.parts.(armedChanged := FilledTo(s.parts.armedChanged, true, Partitions),
                                      alarmChanged := FilledTo(s.parts.alarmChanged, true, Partitions),
                                      exitDelayChanged := FilledTo(s.parts.exitDelayChanged, true, Partitions),
                                      entryDelayChanged := FilledTo(s.parts.entryDelayChanged, true, Partitions),
                                      fireChanged := FilledTo(s.parts.fireChanged, true, Partitions))
      ensures dsc.openZones == Remarked(s.openZones) && dsc.alarmZones == Remarked(s.alarmZones)
    {
      dsc.flags := dsc.flags.(statusChanged := true, keybusChanged := true, troubleChanged := true,
                              powerChanged := true, batteryChanged := true);
      MarkPartitions();
      dsc.openZones := dsc.openZones.(statusChanged := true);
      dsc.alarmZones := dsc.alarmZones.(statusChanged := true);
      MarkZoneGroups();
    }

    /** The partition loop of `resetDscStatus`: the armed, alarm, exit-delay, entry-delay and
        fire changed flags of every partition are set. */
    method MarkPartitions()
      requires |dsc.armedChanged| == |dsc.alarmChanged| == |dsc.exitDelayChanged| == Partitions
      requires |dsc.entryDelayChanged| == |dsc.fireChanged| == Partitions
      modifies dsc`armedChanged, dsc`alarmChanged, dsc`exitDelayChanged, dsc`entryDelayChanged,
        dsc`fireChanged
      ensures dsc.armedChanged == FilledTo(old(dsc.armedChanged), true, Partitions)
      ensures dsc.alarmChanged == FilledTo(old(dsc.alarmChanged), true, Partitions)
      ensures dsc.exitDelayChanged == FilledTo(old(dsc.exitDelayChanged), true, Partitions)
      ensures dsc.entryDelayChanged == FilledTo(old(dsc.entryDelayChanged), true, Partitions)
      ensures dsc.fireChanged == FilledTo(old(dsc.fireChanged), true, Partitions)
    {
      for p := 0 to Partitions
        invariant dsc.armedChanged == FilledTo(old(dsc.armedChanged), true, p)
        invariant dsc.alarmChanged == FilledTo(old(dsc.alarmChanged), true, p)
        invariant dsc.exitDelayChanged == FilledTo(old(dsc.exitDelayChanged), true, p)
        invariant dsc.entryDelayChanged == FilledTo(old(dsc.entryDelayChanged), true, p)
        invariant dsc.fireChanged == FilledTo(old(dsc.fireChanged), true, p)
      {
        FilledToStep(old(dsc.armedChanged), true, p);
        FilledToStep(old(dsc.alarmChanged), true, p);
        FilledToStep(old(dsc.exitDelayChanged), true, p);
        FilledToStep(old(dsc.entryDelayChanged), true, p);
        FilledToStep(old(dsc.fireChanged), true, p);
        dsc.armedChanged := dsc.armedChanged[p := true];
        dsc.alarmChanged := dsc.alarmChanged[p := true];
        dsc.exitDelayChanged := dsc.exitDelayChanged[p := true];
        dsc.entryDelayChanged := dsc.entryDelayChanged[p := true];
        dsc.fireChanged := dsc.fireChanged[p := true];
      }
    }

    /** The zone-group loop of `resetDscStatus`: every bit of every changed mask of both
        streams is set. */
    method MarkZoneGroups()
      requires StreamFits(dsc.openZones) && StreamFits(dsc.alarmZones)
      modifies dsc`openZones, dsc`alarmZones
      ensures dsc.openZones == old(dsc.openZones).(changed := AllSet())
      ensures dsc.alarmZones == old(dsc.alarmZones).(changed := AllSet())
    {
      var open, alarm := dsc.openZones.changed, dsc.alarmZones.changed;
      for g := 0 to ZoneGroups
        invariant open == FilledTo(old(dsc.openZones.changed), 0xFF, g)
        invariant alarm == FilledTo(old(dsc.alarmZones.changed), 0xFF, g)
        invariant dsc.openZones == old(dsc.openZones) && dsc.alarmZones == old(dsc.alarmZones)
      {
        FilledToStep(old(dsc.openZones.changed), 0xFF, g);
        FilledToStep(old(dsc.alarmZones.changed), 0xFF, g);
        open, alarm := open[g := 0xFF], alarm[g := 0xFF];
      }
      FilledToAll(old(dsc.openZones.changed));
      FilledToAll(old(dsc.alarmZones.changed));
      dsc.openZones := dsc.openZones.(changed := open);
      dsc.alarmZones := dsc.alarmZones.(changed := alarm);
    }

    /** `loopHandler` after the restart check: one pass over the flags the driver latched,
        publishing each change and consuming its flag. */
    method LoopHandler(panelHandled: bool)
      requires dsc.Valid()
      modifies dsc`flags, dsc`exitDelayChanged, dsc`armedChanged, dsc`alarmChanged,
        dsc`fireChanged, dsc`openZones, dsc`alarmZones, dsc`writeLog, this`published
      ensures var r := HandlerPass(old(dsc.Snap()), panelHandled, accessCode);
        dsc.Snap() == r.panel && published == old(published) + r.published
    {
      if !(panelHandled && dsc.flags.statusChanged) {
        return;
      }
      ghost var s := dsc.Snap();
      RunPass(s);
      HandlerOutcome(s, accessCode, dsc.Snap());
    }

    /** The pass proper, from the driver state `s` it starts in: the status flag is consumed,
        then the global flags, the partitions and the two zone streams are published. */
    method RunPass(ghost s: Panel)
      requires dsc.Valid() && s == dsc.Snap() && s.flags.statusChanged
      modifies dsc`flags, dsc`exitDelayChanged, dsc`armedChanged, dsc`alarmChanged,
        dsc`fireChanged, dsc`openZones, dsc`alarmZones, dsc`writeLog, this`published
      ensures dsc.flags == HandlerFlags(s.flags)
      ensures dsc.writeLog == s.writeLog + Dispatch.AccessCodeWrites(s.flags, s.writePartition, accessCode)
      ensures dsc.Parts() == DrainedTo(s.parts, Partitions)
      ensures dsc.openZones == Dispatch.ZoneStage(s.openZones, true)
      ensures dsc.alarmZones == Dispatch.ZoneStage(s.alarmZones, true)
      ensures published == old(published) + (GlobalPublications(s.flags) +
        (PartitionsPublications(s.parts, Partitions) + StreamPublications(s.openZones, false) +
         StreamPublications(s.alarmZones, true)))
    {
      ghost var log0 := published;
      dsc.flags := dsc.flags.(statusChanged := false);
      PublishGlobals();
      PublishRest(s.parts, s.openZones, s.alarmZones);
      Concat2(log0, GlobalPublications(s.flags), PartitionsPublications(s.parts, Partitions) +
              StreamPublications(s.openZones, false) + StreamPublications(s.alarmZones, true));
    }

    /** The partition loop and the two zone streams, from the partition arrays `d` and the
        streams `oz` and `az` they start with. */
    method PublishRest(ghost d: PartitionData, ghost oz: ZoneStream, ghost az: ZoneStream)
      requires PartsFit(d) && d == dsc.Parts()
      requires StreamFits(oz) && oz == dsc.openZones && StreamFits(az) && az == dsc.alarmZones
      modifies dsc`exitDelayChanged, dsc`armedChanged, dsc`alarmChanged, dsc`fireChanged,
        dsc`openZones, dsc`alarmZones, this`published
      ensures dsc.Parts() == DrainedTo(d, Partitions)
      ensures dsc.openZones == Dispatch.ZoneStage(oz, true)
      ensures dsc.alarmZones == Dispatch.ZoneStage(az, true)
      ensures published == old(published) + (PartitionsPublications(d, Partitions) +
        StreamPublications(oz, false) + StreamPublications(az, true))
    {
      ghost var log0 := published;
      PublishPartitions(d);
      PublishOpenZones();
      PublishAlarmZones();
      Concat3(log0, PartitionsPublications(d, Partitions), StreamPublications(oz, false),
              StreamPublications(az, true));
    }

    /** The global part of the pass, block by block in the source's order: the overflow
        message, the access-code answer, the three trouble states and the keypad pulses. */
    method PublishGlobals()
      requires !dsc.flags.statusChanged
      modifies dsc`flags, dsc`writeLog, this`published
      ensures dsc.flags == HandlerFlags(old(dsc.flags))
      ensures dsc.writeLog == old(dsc.writeLog) +
                Dispatch.AccessCodeWrites(old(dsc.flags), dsc.writePartition, accessCode)
      ensures published == old(published) + GlobalPublications(old(dsc.flags))
    {
      ghost var f, log0 := dsc.flags, published;
      ReportOverflow();
      ghost var g1 := dsc.flags;
      AnswerPrompt();
      ghost var g2 := dsc.flags;
      ReportTrouble();
      ghost var g3 := dsc.flags;
      ReportPowerTrouble();
      ghost var g4 := dsc.flags;
      ReportBatteryTrouble();
      ghost var g5 := dsc.flags;
      ReportFirePulse();
      ghost var g6 := dsc.flags;
      ReportAuxPulse();
      ghost var g7 := dsc.flags;
      ReportPanicPulse();
      assert HandlerChain(f, g1, g2, g3, g4, g5, g6, g7);
      HandlerChainFlags(f, g1, g2, g3, g4, g5, g6, g7);
      HandlerChainReads(f, g1, g2, g3, g4, g5, g6, g7);
      Concat7(log0, Dispatch.When(f.bufferOverflow, Message(OverflowText)),
        Dispatch.When(f.troubleChanged, Publish(Trouble, f.trouble)),
        Dispatch.When(f.powerChanged, Publish(PowerTrouble, f.powerTrouble)),
        Dispatch.When(f.batteryChanged, Publish(BatteryTrouble, f.batteryTrouble)),
        Dispatch.When(f.keypadFireAlarm, Publish(FireAlarmKeypad, true)),
        Dispatch.When(f.keypadAuxAlarm, Publish(AuxAlarmKeypad, true)),
        Dispatch.When(f.keypadPanicAlarm, Publish(PanicAlarmKeypad, true)));
    }

    /** A buffer overflow is consumed and reported as a message. */
    method ReportOverflow()
      modifies dsc`flags, this`published
      ensures dsc.flags == old(dsc.flags).(bufferOverflow := false)
      ensures published == old(published) + Dispatch.When(old(dsc.flags.bufferOverflow), Message(OverflowText))
    {
      if dsc.flags.bufferOverflow {
        dsc.flags := dsc.flags.(bufferOverflow := false);
        Send(Message(OverflowText));
      }
    }

    /** An access-code prompt is answered with the access code when the driver can write. */
    method AnswerPrompt()
      modifies dsc`flags, dsc`writeLog
      ensures dsc.flags == old(dsc.flags).(accessCodePrompt := old(dsc.flags.accessCodePrompt) && !old(dsc.flags.writeReady))
      ensures dsc.writeLog == old(dsc.writeLog) + Dispatch.AccessCodeWrites(old(dsc.flags), dsc.writePartition, accessCode)
    {
      if dsc.flags.accessCodePrompt && dsc.flags.writeReady {
        dsc.flags := dsc.flags.(accessCodePrompt := false);
        dsc.Write(accessCode);
      }
    }

    /** A trouble change is consumed and published. */
    method ReportTrouble()
      modifies dsc`flags, this`published
      ensures dsc.flags == old(dsc.flags).(troubleChanged := false)
      ensures published == old(published) +
                Dispatch.When(old(dsc.flags.troubleChanged), Publish(Trouble, old(dsc.flags.trouble)))
    {
      if dsc.flags.troubleChanged {
        dsc.flags := dsc.flags.(troubleChanged := false);
        Send(Publish(Trouble, dsc.flags.trouble));
      }
    }

    /** A power trouble change is consumed and published. */
    method ReportPowerTrouble()
      modifies dsc`flags, this`published
      ensures dsc.flags == old(dsc.flags).(powerChanged := false)
      ensures published == old(published) +
                Dispatch.When(old(dsc.flags.powerChanged), Publish(PowerTrouble, old(dsc.flags.powerTrouble)))
    {
      if dsc.flags.powerChanged {
        dsc.flags := dsc.flags.(powerChanged := false);
        Send(Publish(PowerTrouble, dsc.flags.powerTrouble));
      }
    }

    /** A battery trouble change is consumed and published. */
    method ReportBatteryTrouble()
      modifies dsc`flags, this`published
      ensures dsc.flags == old(dsc.flags).(batteryChanged := false)
      ensures published == old(published) +
                Dispatch.When(old(dsc.flags.batteryChanged), Publish(BatteryTrouble, old(dsc.flags.batteryTrouble)))
    {
      if dsc.flags.batteryChanged {
        dsc.flags := dsc.flags.(batteryChanged := false);
        Send(Publish(BatteryTrouble, dsc.flags.batteryTrouble));
      }
    }

    /** A keypad fire alarm pulse is consumed and published as `"1"`. */
    method ReportFirePulse()
      modifies dsc`flags, this`published
      ensures dsc.flags == old(dsc.flags).(keypadFireAlarm := false)
      ensures published == old(published) + Dispatch.When(old(dsc.flags.keypadFireAlarm), Publish(FireAlarmKeypad, true))
    {
      if dsc.flags.keypadFireAlarm {
        dsc.flags := dsc.flags.(keypadFireAlarm := false);
        Send(Publish(FireAlarmKeypad, true));
      }
    }

    /** A keypad auxiliary alarm pulse is consumed and published as `"1"`. */
    method ReportAuxPulse()
      modifies dsc`flags, this`published
      ensures dsc.flags == old(dsc.flags).(keypadAuxAlarm := false)
      ensures published == old(published) + Dispatch.When(old(dsc.flags.keypadAuxAlarm), Publish(AuxAlarmKeypad, true))
    {
      if dsc.flags.keypadAuxAlarm {
        dsc.flags := dsc.flags.(keypadAuxAlarm := false);
        Send(Publish(AuxAlarmKeypad, true));
      }
    }

    /** A keypad panic alarm pulse is consumed and published as `"1"`. */
    method ReportPanicPulse()
      modifies dsc`flags, this`published
      ensures dsc.flags == old(dsc.flags).(keypadPanicAlarm := false)
      ensures published == old(published) + Dispatch.When(old(dsc.flags.keypadPanicAlarm), Publish(PanicAlarmKeypad, true))
    {
      if dsc.flags.keypadPanicAlarm {
        dsc.flags := dsc.flags.(keypadPanicAlarm := false);
        Send(Publish(PanicAlarmKeypad, true));
      }
    }

    /** The partition loop: every partition, disabled or not, in order, from the partition
        arrays `d` the loop starts with. */
    method PublishPartitions(ghost d: PartitionData)
      requires PartsFit(d) && d == dsc.Parts()
      modifies dsc`exitDelayChanged, dsc`armedChanged, dsc`alarmChanged, dsc`fireChanged,
        this`published
      ensures dsc.Parts() == DrainedTo(d, Partitions)
      ensures published == old(published) + PartitionsPublications(d, Partitions)
    {
      for p := 0 to Partitions
        invariant DrainedBy(d, p)
        invariant published == old(published) + PartitionsPublications(d, p)
      {
        PublishPartition(p, d);
        Concat2(old(published), PartitionsPublications(d, p), PartitionPublications(d, p));
      }
    }

    /** The partition arrays are `d` with the changed flags of partitions `0 .. p-1`
        consumed. */
    ghost predicate DrainedBy(d: PartitionData, p: nat)
      reads dsc
    {
      PartsFit(d) && p <= Partitions &&
      dsc.exitDelayChanged == FilledTo(d.exitDelayChanged, false, p) &&
      dsc.armedChanged == FilledTo(d.armedChanged, false, p) &&
      dsc.alarmChanged == FilledTo(d.alarmChanged, false, p) &&
      dsc.fireChanged == FilledTo(d.fireChanged, false, p) &&
      dsc.exitDelay == d.exitDelay && dsc.armedAway == d.armedAway && dsc.armedStay == d.armedStay &&
      dsc.alarm == d.alarm && dsc.fire == d.fire
    }

    /** One partition (0-based `p`) of the loop, the loop having consumed the partitions before
        it: its exit delay, armed modes, alarm and fire, each when flagged, under its 1-based
        number; its four changed flags are consumed. */
    method PublishPartition(p: nat, ghost d: PartitionData)
      requires p < Partitions && DrainedBy(d, p)
      modifies dsc`exitDelayChanged, dsc`armedChanged, dsc`alarmChanged, dsc`fireChanged,
        this`published
      ensures DrainedBy(d, p + 1)
      ensures published == old(published) + PartitionPublications(d, p)
    {
      FilledToAt(d.exitDelayChanged, false, p, p);
      FilledToAt(d.armedChanged, false, p, p);
      FilledToAt(d.alarmChanged, false, p, p);
      FilledToAt(d.fireChanged, false, p, p);
      FilledToStep(d.exitDelayChanged, false, p);
      FilledToStep(d.armedChanged, false, p);
      FilledToStep(d.alarmChanged, false, p);
      FilledToStep(d.fireChanged, false, p);
      DrainPartition(p, d);
    }

    /** The four blocks of partition `p`, whose flags at `p` and values are those of `d`. */
    method DrainPartition(p: nat, ghost d: PartitionData)
      requires PartsFit(d) && p < Partitions
      requires |dsc.exitDelayChanged| == |dsc.armedChanged| == |dsc.alarmChanged| == |dsc.fireChanged| == Partitions
      requires dsc.exitDelayChanged[p] == d.exitDelayChanged[p] && dsc.armedChanged[p] == d.armedChanged[p]
      requires dsc.alarmChanged[p] == d.alarmChanged[p] && dsc.fireChanged[p] == d.fireChanged[p]
      requires dsc.exitDelay == d.exitDelay && dsc.armedAway == d.armedAway && dsc.armedStay == d.armedStay
      requires dsc.alarm == d.alarm && dsc.fire == d.fire
      modifies dsc`exitDelayChanged, dsc`armedChanged, dsc`alarmChanged, dsc`fireChanged,
        this`published
      ensures dsc.exitDelayChanged == old(dsc.exitDelayChanged)[p := false]
      ensures dsc.armedChanged == old(dsc.armedChanged)[p := false]
      ensures dsc.alarmChanged == old(dsc.alarmChanged)[p := false]
      ensures dsc.fireChanged == old(dsc.fireChanged)[p := false]
      ensures published == old(published) + PartitionPublications(d, p)
    {
      ghost var log0 := published;
      PublishExitDelay(p);
      PublishArmed(p);
      PublishAlarm(p);
      PublishFire(p);
      var n := p + 1;
      Concat4(log0, Dispatch.When(d.exitDelayChanged[p], Publish(PartitionExitDelay(n), d.exitDelay[p])),
              if d.armedChanged[p] then [Publish(PartitionAway(n), d.armedAway[p]),
                                         Publish(PartitionStay(n), d.armedStay[p])] else [],
              Dispatch.When(d.alarmChanged[p], Publish(PartitionAlarm(n), d.alarm[p])),
              Dispatch.When(d.fireChanged[p], Publish(PartitionFire(n), d.fire[p])));
    }

    /** Partition `p`'s exit-delay change is consumed and published. */
    method PublishExitDelay(p: nat)
      requires p < |dsc.exitDelayChanged| && p < |dsc.exitDelay|
      modifies dsc`exitDelayChanged, this`published
      ensures dsc.exitDelayChanged == old(dsc.exitDelayChanged)[p := false]
      ensures published == old(published) +
        Dispatch.When(old(dsc.exitDelayChanged[p]), Publish(PartitionExitDelay(p + 1), dsc.exitDelay[p]))
    {
      if dsc.exitDelayChanged[p] {
        dsc.exitDelayChanged := dsc.exitDelayChanged[p := false];
        Send(Publish(PartitionExitDelay(p + 1), dsc.exitDelay[p]));
      }
    }

    /** Partition `p`'s armed change is consumed and published as the away, then the stay
        state. */
    method PublishArmed(p: nat)
      requires p < |dsc.armedChanged| && p < |dsc.armedAway| && p < |dsc.armedStay|
      modifies dsc`armedChanged, this`published
      ensures dsc.armedChanged == old(dsc.armedChanged)[p := false]
      ensures published == old(published) +
        if old(dsc.armedChanged[p]) then [Publish(PartitionAway(p + 1), dsc.armedAway[p]),
                                          Publish(PartitionStay(p + 1), dsc.armedStay[p])] else []
    {
      if dsc.armedChanged[p] {
        dsc.armedChanged := dsc.armedChanged[p := false];
        Send(Publish(PartitionAway(p + 1), dsc.armedAway[p]));
        Send(Publish(PartitionStay(p + 1), dsc.armedStay[p]));
      }
    }

    /** Partition `p`'s alarm change is consumed and published. */
    method PublishAlarm(p: nat)
      requires p < |dsc.alarmChanged| && p < |dsc.alarm|
      modifies dsc`alarmChanged, this`published
      ensures dsc.alarmChanged == old(dsc.alarmChanged)[p := false]
      ensures published == old(published) +
        Dispatch.When(old(dsc.alarmChanged[p]), Publish(PartitionAlarm(p + 1), dsc.alarm[p]))
    {
      if dsc.alarmChanged[p] {
        dsc.alarmChanged := dsc.alarmChanged[p := false];
        Send(Publish(PartitionAlarm(p + 1), dsc.alarm[p]));
      }
    }

    /** Partition `p`'s fire change is consumed and published. */
    method PublishFire(p: nat)
      requires p < |dsc.fireChanged| && p < |dsc.fire|
      modifies dsc`fireChanged, this`published
      ensures dsc.fireChanged == old(dsc.fireChanged)[p := false]
      ensures published == old(published) +
        Dispatch.When(old(dsc.fireChanged[p]), Publish(PartitionFire(p + 1), dsc.fire[p]))
    {
      if dsc.fireChanged[p] {
        dsc.fireChanged := dsc.fireChanged[p := false];
        Send(Publish(PartitionFire(p + 1), dsc.fire[p]));
      }
    }

    /** The open-zone stream: its summary flag, then every changed bit. */
    method PublishOpenZones()
      requires StreamFits(dsc.openZones)
      modifies dsc`openZones, this`published
      ensures dsc.openZones == Dispatch.ZoneStage(old(dsc.openZones), true)
      ensures published == old(published) + StreamPublications(old(dsc.openZones), false)
    {
      if dsc.openZones.statusChanged {
        dsc.openZones := dsc.openZones.(statusChanged := false);
        var cleared := PublishStream(dsc.openZones.values, dsc.openZones.changed, false);
        dsc.openZones := dsc.openZones.(changed := cleared);
      }
    }

    /** The alarm-zone stream: its summary flag, then every changed bit. */
    method PublishAlarmZones()
      requires StreamFits(dsc.alarmZones)
      modifies dsc`alarmZones, this`published
      ensures dsc.alarmZones == Dispatch.ZoneStage(old(dsc.alarmZones), true)
      ensures published == old(published) + StreamPublications(old(dsc.alarmZones), true)
    {
      if dsc.alarmZones.statusChanged {
        dsc.alarmZones := dsc.alarmZones.(statusChanged := false);
        var cleared := PublishStream(dsc.alarmZones.values, dsc.alarmZones.changed, true);
        dsc.alarmZones := dsc.alarmZones.(changed := cleared);
      }
    }

    /** The nested zone loops of one stream: every changed bit of every group is published as
        its 1-based zone with its value bit, lowest zone first; `cleared` is the stream's
        changed masks after each published bit was cleared. */
    method PublishStream(values: seq<byte>, changed: seq<byte>, alarmStream: bool) returns (cleared: seq<byte>)
      requires |values| == ZoneGroups && |changed| == ZoneGroups
      modifies this`published
      ensures cleared == Dispatch.ClearedGroups()
      ensures published == old(published) + ZonePublications(alarmStream, ZoneChanges(changed, values, ZoneGroups))
    {
      cleared := changed;
      for g := 0 to ZoneGroups
        invariant |cleared| == ZoneGroups
        invariant forall i :: 0 <= i < g ==> cleared[i] == 0
        invariant forall i :: g <= i < ZoneGroups ==> cleared[i] == changed[i]
        invariant published == old(published) + ZonePublications(alarmStream, ZoneChanges(changed, values, g))
      {
        ghost var log := published;
        var mask := PublishGroup(g, cleared[g], values[g], alarmStream);
        StreamStep(old(published), log, published, alarmStream, changed, values, g);
        cleared := cleared[g := mask];
      }
      assert cleared == Dispatch.ClearedGroups();
    }

    /** The bits of group `g`, lowest first: each set bit of `mask` is cleared (`bitWrite`)
        and published with the matching bit of `value`; the result is the cleared mask. */
    method PublishGroup(g: nat, mask: byte, value: byte, alarmStream: bool) returns (rest: byte)
      modifies this`published
      ensures rest == 0
      ensures published == old(published) + ZonePublications(alarmStream, GroupChanges(g, mask, value, 8))
    {
      rest := mask;
      for b := 0 to 8
        invariant rest == Above(mask, b)
        invariant published == old(published) + ZonePublications(alarmStream, GroupChanges(g, mask, value, b))
      {
        ghost var log := published;
        AboveStep(mask, b);
        if Bit(rest, b) {
          rest := rest & !(1 << b);
          Send(ZonePublication(alarmStream, ZoneChange(b + 1 + g * 8, Bit(value, b))));
        }
        GroupStep(old(published), log, published, alarmStream, g, mask, value, b);
      }
      AboveAll(mask);
    }

    /** `arm`: an idle partition (0-based) is armed away (`w`) or stay (`s`) after its 1-based
        number is made the write partition; a busy one is left alone. */
    method Arm(partition: nat, away: bool)
      requires dsc.Valid() && partition < Partitions
      modifies dsc`writePartition, dsc`writeLog
      ensures var w := CommandWrite(old(dsc.Parts()), partition + 1, if away then ArmAway else ArmStay,
                                    None, accessCode);
        if w.Some? then dsc.writeLog == old(dsc.writeLog) + [w.value] && dsc.writePartition == partition + 1
        else dsc.writeLog == old(dsc.writeLog) && dsc.writePartition == old(dsc.writePartition)
    {
      if !dsc.armed[partition] && !dsc.exitDelay[partition] {
        dsc.writePartition := partition + 1;
        dsc.Write(if away then "w" else "s");
      }
    }

    /** `disarm`: the access code is written to an armed partition, or one in exit delay,
        after its 1-based number is made the write partition. */
    method Disarm(partition: nat)
      requires dsc.Valid() && partition < Partitions
      modifies dsc`writePartition, dsc`writeLog
      ensures var w := CommandWrite(old(dsc.Parts()), partition + 1, AlarmCommand.Disarm, None, accessCode);
        if w.Some? then dsc.writeLog == old(dsc.writeLog) + [w.value] && dsc.writePartition == partition + 1
        else dsc.writeLog == old(dsc.writeLog) && dsc.writePartition == old(dsc.writePartition)
    {
      if dsc.armed[partition] || dsc.exitDelay[partition] {
        dsc.writePartition := partition + 1;
        dsc.Write(accessCode);
      }
    }

    /** `homieNodeInputHandler`, with the range check applied to the number before it is
        narrowed to a byte: a set of `partition-<n>-away` or `-stay` arms or disarms that
        partition and reports the property handled; a partition number outside 1 .. 8
        publishes the out-of-range message; anything else is not handled. */
    method HomieNodeInputHandler(property: string, value: string) returns (handled: bool)
      requires dsc.Valid()
      modifies dsc`writePartition, dsc`writeLog, this`published
      ensures var a := IntendedHandle(property, value);
        handled == (a.ArmRequest? || a.DisarmRequest?) &&
        published == old(published) + (if a.OutOfRange? then [Message(OutOfRangeText)] else []) &&
        var w := ActionWrite(old(dsc.Parts()), a, accessCode);
        if w.Some? then dsc.writeLog == old(dsc.writeLog) + [w.value] && dsc.writePartition == w.value.partition
        else dsc.writeLog == old(dsc.writeLog) && dsc.writePartition == old(dsc.writePartition)
    {
      if !StartsWith(property, PartitionPrefix) {
        return false;
      }
      var number, rest := ExtractPrefixNumber(property[|PartitionPrefix|..]);
      if number < 1 || number > Partitions {
        Send(Message(OutOfRangeText));
        return false;
      }
      var partition := number - 1;
      var prop := DropFirst(rest);
      if prop == "away" {
        if IsOff(value) {
          Disarm(partition);
        } else {
          Arm(partition, true);
        }
        return true;
      } else if prop == "stay" {
        if IsOff(value) {
          Disarm(partition);
        } else {
          Arm(partition, false);
        }
        return true;
      }
      return false;
    }
  }

  /** `extractPrefixDigits` as written: the number `ExtractPrefixNumber` splits off, narrowed
      to a byte; without a leading digit the result is 255 and `str` stays. */
  method ExtractPrefixDigits(str: string) returns (prefix: ByteValue, rest: string)
    ensures (prefix, rest) == ExtractPrefix(str)
    ensures (str == [] || !IsDigit(str[0])) ==> prefix == 255 && rest == str
  {
    var number: int;
    number, rest := ExtractPrefixNumber(str);
    prefix := ByteOf(number);
  }

  /** The loop of `extractPrefixDigits`: the leading run of digits is removed from `str` and
      its `toInt` value returned; without a leading digit the result is -1 and `str` stays. */
  method ExtractPrefixNumber(str: string) returns (number: int, rest: string)
    ensures (number, rest) == ExtractNumber(str)
    ensures (str == [] || !IsDigit(str[0])) ==> number == -1 && rest == str
  {
    number := -1;
    var i := 0;
    while i < |str| && IsDigit(str[i])
      invariant i <= |str| && AllDigits(str[..i])
    {
      assert str[..i + 1] == str[..i] + [str[i]];
      i := i + 1;
    }
    DigitRunIs(str, i);
    rest := str;
    if i > 0 {
      var pName := str[..i];
      number := ToLong(pName);
      rest := str[i..];
    }
  }

  /** The write the handler's request leads to, as `sendAlarmCommand` would make it. */
  function ActionWrite(d: PartitionData, a: Action, accessCode: string): Option<Written>
    requires PartsFit(d)
  {
    match a
    case ArmRequest(i, away) =>
      CommandWrite(d, i + 1, if away then ArmAway else ArmStay, None, accessCode)
    case DisarmRequest(i) => CommandWrite(d, i + 1, AlarmCommand.Disarm, None, accessCode)
    case _ => None
  }

  /** The bits of `mask` from bit `b` up. */
  function Above(mask: byte, b: nat): byte
    requires b <= 8
  {
    mask & (0xFF << b)
  }

  lemma AboveStep(mask: byte, b: nat)
    requires b < 8
    ensures Bit(Above(mask, b), b) == Bit(mask, b)
    ensures Above(mask, b + 1) == if Bit(mask, b) then Above(mask, b) & !(1 << b) else Above(mask, b)
  {
  }

  lemma AboveAll(mask: byte)
    ensures Above(mask, 8) == 0
  {
  }

  lemma FilledToStep<T>(s: seq<T>, x: T, k: nat)
    requires k < |s|
    ensures FilledTo(s, x, k)[k := x] == FilledTo(s, x, k + 1)
  {
    assert FilledTo(s, x, k)[k := x] == seq(k + 1, _ => x) + s[k + 1..];
  }

  lemma FilledToAll(s: seq<byte>)
    requires |s| == ZoneGroups
    ensures FilledTo(s, 0xFF, ZoneGroups) == AllSet()
  {
    assert FilledTo(s, 0xFF, ZoneGroups) == seq(ZoneGroups, _ => 0xFF);
  }

  /** One more bit of a group extends the publications by that bit's transition, if any. */
  lemma GroupStep(log0: seq<Publication>, log1: seq<Publication>, log2: seq<Publication>,
                  alarmStream: bool, g: nat, mask: byte, value: byte, b: nat)
    requires b < 8
    requires log1 == log0 + ZonePublications(alarmStream, GroupChanges(g, mask, value, b))
    requires Bit(mask, b) ==>
               log2 == log1 + [ZonePublication(alarmStream, ZoneChange(b + 1 + g * 8, Bit(value, b)))]
    requires !Bit(mask, b) ==> log2 == log1
    ensures log2 == log0 + ZonePublications(alarmStream, GroupChanges(g, mask, value, b + 1))
  {
    var sofar := GroupChanges(g, mask, value, b);
    if Bit(mask, b) {
      var z := ZoneChange(g * 8 + b + 1, Bit(value, b));
      ZonePublicationsAppend(alarmStream, sofar, [z]);
      assert ZonePublications(alarmStream, [z]) == [ZonePublication(alarmStream, z)];
    } else {
      assert GroupChanges(g, mask, value, b + 1) == sofar;
    }
  }

  /** One more group extends the publications by that group's transitions. */
  lemma StreamStep(log0: seq<Publication>, log1: seq<Publication>, log2: seq<Publication>,
                   alarmStream: bool, changed: seq<byte>, values: seq<byte>, g: nat)
    requires g < |changed| && g < |values|
    requires log1 == log0 + ZonePublications(alarmStream, ZoneChanges(changed, values, g))
    requires log2 == log1 + ZonePublications(alarmStream, GroupChanges(g, changed[g], values[g], 8))
    ensures log2 == log0 + ZonePublications(alarmStream, ZoneChanges(changed, values, g + 1))
  {
    var before, group := ZoneChanges(changed, values, g), GroupChanges(g, changed[g], values[g], 8);
    var all := ZoneChanges(changed, values, g + 1);
    assert all == before + group;
    ZonePublicationsAppend(alarmStream, before, group);
    assert ZonePublications(alarmStream, all) ==
             ZonePublications(alarmStream, before) + ZonePublications(alarmStream, group);
  }

  /** The pass's pieces, put together, are the outcome `HandlerPass` describes. */
  lemma HandlerOutcome(s: Panel, accessCode: string, r: Panel)
    requires WellFormed(s) && s.flags.statusChanged
    requires r.flags == HandlerFlags(s.flags)
    requires r.writeLog == s.writeLog + Dispatch.AccessCodeWrites(s.flags, s.writePartition, accessCode)
    requires r.parts == DrainedTo(s.parts, Partitions)
    requires r.openZones == Dispatch.ZoneStage(s.openZones, true)
    requires r.alarmZones == Dispatch.ZoneStage(s.alarmZones, true)
    requires r.clock == s.clock && r.writePartition == s.writePartition
    ensures HandlerPass(s, true, accessCode) ==
      Outcome(r, GlobalPublications(s.flags) + (PartitionsPublications(s.parts, Partitions) +
              StreamPublications(s.openZones, false) + StreamPublications(s.alarmZones, true)))
  {
  }

  /** The driver state `r` is `s` with the flags, the partition arrays and the zone streams
      `resetDscStatus` marks, marked. */
  lemma RefreshedIs(s: Panel, r: Panel)
    requires WellFormed(s)
    requires r.flags == s.flags.(statusChanged := true, keybusChanged := true, troubleChanged := true,
                                 powerChanged := true, batteryChanged := true)
    requires r.parts == s.parts.(armedChanged := FilledTo(s.parts.armedChanged, true, Partitions),
                                 alarmChanged := FilledTo(s.parts.alarmChanged, true, Partitions),
                                 exitDelayChanged := FilledTo(s.parts.exitDelayChanged, true, Partitions),
                                 entryDelayChanged := FilledTo(s.parts.entryDelayChanged, true, Partitions),
                                 fireChanged := FilledTo(s.parts.fireChanged, true, Partitions))
    requires r.openZones == Remarked(s.openZones) && r.alarmZones == Remarked(s.alarmZones)
    requires r.clock == s.clock && r.writePartition == s.writePartition && r.writeLog == s.writeLog
    ensures r == Refreshed(s)
  {
  }

  /** The global blocks, each applied to the flags the previous one left: `g1` to `g7` are the
      flags before the prompt, trouble, power, battery, fire, auxiliary and panic blocks. */
  ghost predicate HandlerChain(f: Flags, g1: Flags, g2: Flags, g3: Flags, g4: Flags, g5: Flags,
                               g6: Flags, g7: Flags) {
    g1 == f.(bufferOverflow := false) &&
    g2 == g1.(accessCodePrompt := g1.accessCodePrompt && !g1.writeReady) &&
    g3 == g2.(troubleChanged := false) &&
    g4 == g3.(powerChanged := false) &&
    g5 == g4.(batteryChanged := false) &&
    g6 == g5.(keypadFireAlarm := false) &&
    g7 == g6.(keypadAuxAlarm := false)
  }

  /** Block by block, the flags end up as the global part of the pass leaves them. */
  lemma HandlerChainFlags(f: Flags, g1: Flags, g2: Flags, g3: Flags, g4: Flags, g5: Flags,
                          g6: Flags, g7: Flags)
    requires HandlerChain(f, g1, g2, g3, g4, g5, g6, g7) && !f.statusChanged
    ensures g7.(keypadPanicAlarm := false) == HandlerFlags(f)
  {
  }

  /** Each block reads its flags as the pass found them. */
  lemma HandlerChainReads(f: Flags, g1: Flags, g2: Flags, g3: Flags, g4: Flags, g5: Flags,
                          g6: Flags, g7: Flags)
    requires HandlerChain(f, g1, g2, g3, g4, g5, g6, g7)
    ensures g1.accessCodePrompt == f.accessCodePrompt && g1.writeReady == f.writeReady
    ensures g2.troubleChanged == f.troubleChanged && g2.trouble == f.trouble
    ensures g3.powerChanged == f.powerChanged && g3.powerTrouble == f.powerTrouble
    ensures g4.batteryChanged == f.batteryChanged && g4.batteryTrouble == f.batteryTrouble
    ensures g5.keypadFireAlarm == f.keypadFireAlarm && g6.keypadAuxAlarm == f.keypadAuxAlarm
    ensures g7.keypadPanicAlarm == f.keypadPanicAlarm
  {
  }

  /** Appending pieces one after another appends their concatenation. */
  lemma Concat2<T>(s: seq<T>, a: seq<T>, b: seq<T>)
    ensures s + a + b == s + (a + b)
  {
  }

  lemma Concat3<T>(s: seq<T>, a: seq<T>, b: seq<T>, c: seq<T>)
    ensures s + a + b + c == s + (a + b + c)
  {
  }

  lemma Concat7<T>(s: seq<T>, a: seq<T>, b: seq<T>, c: seq<T>, d: seq<T>, e: seq<T>, g: seq<T>, h: seq<T>)
    ensures s + a + b + c + d + e + g + h == s + ((a + b + c + d) + (e + g + h))
  {
  }

  lemma Concat4<T>(s: seq<T>, a: seq<T>, b: seq<T>, c: seq<T>, d: seq<T>)
    ensures s + a + b + c + d == s + (a + b + c + d)
  {
  }

}
