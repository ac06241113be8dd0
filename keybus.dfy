/** The part of the DSC Keybus driver (`dscKeybusInterface`) that the dispatch engine reads
    and writes: the latched `*Changed` flags, the raw status values, the zone bitmaps, the panel
    clock and the write primitive.  The driver's own wire decoding is not part of this model;
    its state is seen here as a snapshot that the dispatch pass drains. */
module Keybus {

  /** An 8-bit value as the driver stores it (status codes, light masks, zone bitmaps). */
  type byte = bv8

  /** `dscPartitions`: the number of partitions the driver tracks. */
  const Partitions: nat := 8

  /** `dscZones`: the number of zone groups, each a byte holding 8 zones. */
  const ZoneGroups: nat := 8

  /** A value that may be absent. */
  datatype Option<T> = None | Some(value: T)

  /** One call of the driver's write primitive: the keys sent and the write partition in force. */
  datatype Written = Written(partition: int, keys: string)

  /** The driver's global status flags and keypad pulses. */
  datatype Flags = Flags(
    statusChanged: bool,
    bufferOverflow: bool,
    keybusConnected: bool,
    keybusChanged: bool,
    accessCodePrompt: bool,
    writeReady: bool,
    trouble: bool,
    troubleChanged: bool,
    powerTrouble: bool,
    powerChanged: bool,
    batteryTrouble: bool,
    batteryChanged: bool,
    keypadFireAlarm: bool,
    keypadAuxAlarm: bool,
    keypadPanicAlarm: bool)

  /** The driver's per-partition arrays, indexed by partition number minus one. */
  datatype PartitionData = PartitionData(
    disabled: seq<bool>,
    status: seq<byte>,
    lights: seq<byte>,
    armed: seq<bool>,
    armedStay: seq<bool>,
    armedAway: seq<bool>,
    armedChanged: seq<bool>,
    exitDelay: seq<bool>,
    exitDelayChanged: seq<bool>,
    entryDelay: seq<bool>,
    entryDelayChanged: seq<bool>,
    alarm: seq<bool>,
    alarmChanged: seq<bool>,
    fire: seq<bool>,
    fireChanged: seq<bool>)

  /** One zone bitmap stream (open zones or alarm zones): its summary flag, the current bits
      and the changed bits, one byte per group of 8 zones. */
  datatype ZoneStream = ZoneStream(statusChanged: bool, values: seq<byte>, changed: seq<byte>)

  /** The panel clock as the driver last decoded it. */
  datatype Clock = Clock(timestampChanged: bool, year: int, month: int, day: int, hour: int, minute: int)

  /** A value copy of every driver field the dispatch engine touches. */
  datatype Panel = Panel(
    flags: Flags,
    parts: PartitionData,
    openZones: ZoneStream,
    alarmZones: ZoneStream,
    clock: Clock,
    writePartition: int,
    writeLog: seq<Written>)

  ghost predicate PartsFit(d: PartitionData) {
    |d.disabled| == Partitions && |d.status| == Partitions && |d.lights| == Partitions &&
    |d.armed| == Partitions && |d.armedStay| == Partitions && |d.armedAway| == Partitions &&
    |d.armedChanged| == Partitions && |d.exitDelay| == Partitions &&
    |d.exitDelayChanged| == Partitions && |d.entryDelay| == Partitions &&
    |d.entryDelayChanged| == Partitions && |d.alarm| == Partitions &&
    |d.alarmChanged| == Partitions && |d.fire| == Partitions && |d.fireChanged| == Partitions
  }

  ghost predicate StreamFits(z: ZoneStream) {
    |z.values| == ZoneGroups && |z.changed| == ZoneGroups
  }

  /** `t` holds the decoded state of `s`: the keypad states, every per-partition value, the zone
      bits, the panel time and the write partition.  Change flags, pulses, changed masks and the
      write log may differ. */
  ghost predicate SameDecoded(s: Panel, t: Panel) {
    t.flags.keybusConnected == s.flags.keybusConnected && t.flags.writeReady == s.flags.writeReady &&
    t.flags.trouble == s.flags.trouble && t.flags.powerTrouble == s.flags.powerTrouble &&
    t.flags.batteryTrouble == s.flags.batteryTrouble &&
    t.parts.disabled == s.parts.disabled && t.parts.status == s.parts.status &&
    t.parts.lights == s.parts.lights && t.parts.armed == s.parts.armed &&
    t.parts.armedStay == s.parts.armedStay && t.parts.armedAway == s.parts.armedAway &&
    t.parts.exitDelay == s.parts.exitDelay && t.parts.entryDelay == s.parts.entryDelay &&
    t.parts.alarm == s.parts.alarm && t.parts.fire == s.parts.fire &&
    t.openZones.values == s.openZones.values && t.alarmZones.values == s.alarmZones.values &&
    t.clock.(timestampChanged := s.clock.timestampChanged) == s.clock &&
    t.writePartition == s.writePartition
  }

  /** Every per-partition sequence has one entry per partition, every zone sequence one per group. */
  ghost predicate WellFormed(s: Panel) {
    PartsFit(s.parts) && StreamFits(s.openZones) && StreamFits(s.alarmZones)
  }

  /** The driver object `dsc`.  Its per-partition member arrays are fields of their own, so
      an element assignment such as `dsc.alarmChanged[p] = false` reassigns that one field
      with one entry replaced, and distinct arrays never share storage; the global flags, each
      zone stream and the clock are each grouped as one value that the component reads and
      reassigns. */
  class Interface {
    var flags: Flags
    var disabled: seq<bool>
    var status: seq<byte>
    var lights: seq<byte>
    var armed: seq<bool>
    var armedStay: seq<bool>
    var armedAway: seq<bool>
    var armedChanged: seq<bool>
    var exitDelay: seq<bool>
    var exitDelayChanged: seq<bool>
    var entryDelay: seq<bool>
    var entryDelayChanged: seq<bool>
    var alarm: seq<bool>
    var alarmChanged: seq<bool>
    var fire: seq<bool>
    var fireChanged: seq<bool>
    var openZones: ZoneStream
    var alarmZones: ZoneStream
    var clock: Clock
    var writePartition: int
    var writeLog: seq<Written>

    /** The per-partition arrays as a value. */
    ghost function Parts(): PartitionData
      reads this`disabled, this`status, this`lights, this`armed, this`armedStay, this`armedAway,
        this`armedChanged, this`exitDelay, this`exitDelayChanged, this`entryDelay,
        this`entryDelayChanged, this`alarm, this`alarmChanged, this`fire, this`fireChanged
    {
      PartitionData(disabled, status, lights, armed, armedStay, armedAway, armedChanged, exitDelay,
                    exitDelayChanged, entryDelay, entryDelayChanged, alarm, alarmChanged, fire,
                    fireChanged)
    }

    /** Array sizes are the configured counts. */
    ghost predicate Valid()
      reads this`disabled, this`status, this`lights, this`armed, this`armedStay, this`armedAway,
        this`armedChanged, this`exitDelay, this`exitDelayChanged, this`entryDelay,
        this`entryDelayChanged, this`alarm, this`alarmChanged, this`fire, this`fireChanged,
        this`openZones, this`alarmZones
    {
      PartsFit(Parts()) && StreamFits(openZones) && StreamFits(alarmZones)
    }

    /** The driver state as a value. */
    ghost function Snap(): (s: Panel)
      reads this
      ensures Valid() <==> WellFormed(s)
    {
      Panel(flags, Parts(), openZones, alarmZones, clock, writePartition, writeLog)
    }

    /** A driver with every flag clear and every array zeroed. */
    constructor ()
      ensures Valid() && writeLog == []
    {
      var none := seq(Partitions, _ => false);
      var zeros := seq(Partitions, _ => 0 as byte);
      var groups := seq(ZoneGroups, _ => 0 as byte);
      flags := Flags(false, false, false, false, false, false, false, false, false, false,
                     false, false, false, false, false);
      disabled, status, lights := none, zeros, zeros;
      armed, armedStay, armedAway, armedChanged := none, none, none, none;
      exitDelay, exitDelayChanged, entryDelay, entryDelayChanged := none, none, none, none;
      alarm, alarmChanged, fire, fireChanged := none, none, none, none;
      openZones := ZoneStream(false, groups, groups);
      alarmZones := ZoneStream(false, groups, groups);
      clock := Clock(false, 0, 0, 0, 0, 0);
      writePartition := 1;
      writeLog := [];
    }

    /** The driver taking on new decoded state by code outside this model (its bus decoding,
        its own `resetStatus`): every flag, array, zone stream and the clock become those of
        `s`; the write partition and the write log are the driver's own and stay. */
    method Latch(s: Panel)
      requires WellFormed(s)
      modifies this
      ensures flags == s.flags && Parts() == s.parts && openZones == s.openZones &&
              alarmZones == s.alarmZones && clock == s.clock
      ensures writePartition == old(writePartition) && writeLog == old(writeLog)
    {
      LatchParts(s.parts);
      flags, openZones, alarmZones, clock := s.flags, s.openZones, s.alarmZones, s.clock;
    }

    /** The per-partition arrays become those of `d`. */
    method LatchParts(d: PartitionData)
      modifies this`disabled, this`status, this`lights, this`armed, this`armedStay, this`armedAway,
        this`armedChanged, this`exitDelay, this`exitDelayChanged, this`entryDelay,
        this`entryDelayChanged, this`alarm, this`alarmChanged, this`fire, this`fireChanged
      ensures Parts() == d
    {
      LatchStates(d);
      LatchChanges(d);
    }

    /** The status values and state arrays become those of `d`. */
    method LatchStates(d: PartitionData)
      modifies this`disabled, this`status, this`lights, this`armed, this`armedStay, this`armedAway,
        this`exitDelay, this`entryDelay, this`alarm, this`fire
      ensures disabled == d.disabled && status == d.status && lights == d.lights
      ensures armed == d.armed && armedStay == d.armedStay && armedAway == d.armedAway
      ensures exitDelay == d.exitDelay && entryDelay == d.entryDelay && alarm == d.alarm && fire == d.fire
    {
      disabled, status, lights := d.disabled, d.status, d.lights;
      armed, armedStay, armedAway := d.armed, d.armedStay, d.armedAway;
      exitDelay, entryDelay, alarm, fire := d.exitDelay, d.entryDelay, d.alarm, d.fire;
    }

    /** The change arrays become those of `d`. */
    method LatchChanges(d: PartitionData)
      modifies this`armedChanged, this`exitDelayChanged, this`entryDelayChanged, this`alarmChanged,
        this`fireChanged
      ensures armedChanged == d.armedChanged && exitDelayChanged == d.exitDelayChanged
      ensures entryDelayChanged == d.entryDelayChanged && alarmChanged == d.alarmChanged
      ensures fireChanged == d.fireChanged
    {
      armedChanged, exitDelayChanged, entryDelayChanged := d.armedChanged, d.exitDelayChanged, d.entryDelayChanged;
      alarmChanged, fireChanged := d.alarmChanged, d.fireChanged;
    }

    /** The driver's write primitive (`dsc.write`), seen as an append to the write log. */
    method Write(keys: string)
      modifies this`writeLog
      ensures writeLog == old(writeLog) + [Written(writePartition, keys)]
    {
      writeLog := writeLog + [Written(writePartition, keys)];
    }
  }
}
