/** The Homie firmware (`src/main.cpp`) as functions of the driver state: what one call of
    `loopHandler` publishes and leaves behind, what `resetDscStatus` marks, and how
    `homieNodeInputHandler` reads a settable property name. */
module Homie {
  import opened Keybus
  import opened Zones
  import opened AlarmCommands
  import Dispatch

  // ---------------------------------------------------------------------------------------
  // Published properties
  // ---------------------------------------------------------------------------------------

  /** The node's properties; partitions and zones carry their 1-based number. */
  datatype Property =
    | Trouble | PowerTrouble | BatteryTrouble
    | FireAlarmKeypad | AuxAlarmKeypad | PanicAlarmKeypad
    | PartitionExitDelay(partition: nat) | PartitionAway(partition: nat)
    | PartitionStay(partition: nat) | PartitionAlarm(partition: nat) | PartitionFire(partition: nat)
    | OpenZone(zone: nat) | AlarmZone(zone: nat)

  /** One `setProperty(..).send(..)`: a property set to `"1"` or `"0"`, or a text on the
      `message` property. */
  datatype Publication = Publish(property: Property, on: bool) | Message(text: string)

  const OverflowText: string := "Keybus buffer overflow"
  const OutOfRangeText: string := "Partition number is out of range (1-8)"

  /** The payload a flag is sent as. */
  function Payload(on: bool): string {
    if on then "1" else "0"
  }

  predicate IsDigit(c: char) {
    '0' <= c <= '9'
  }

  function DigitChar(d: nat): (c: char)
    requires d < 10
    ensures IsDigit(c)
  {
    ('0' as int + d) as char
  }

  /** `String(n)`: the decimal digits of `n`, without leading zeros. */
  function Decimal(n: nat): (s: string)
    ensures |s| > 0
  {
    if n < 10 then [DigitChar(n)] else Decimal(n / 10) + [DigitChar(n % 10)]
  }

  /** The property name the node advertises and publishes under. */
  function PropertyName(p: Property): string {
    match p
    case Trouble => "trouble"
    case PowerTrouble => "power-trouble"
    case BatteryTrouble => "battery-trouble"
    case FireAlarmKeypad => "fire-alarm-keypad"
    case AuxAlarmKeypad => "aux-alarm-keypad"
    case PanicAlarmKeypad => "panic-alarm-keypad"
    case PartitionExitDelay(n) => PartitionPrefix + (Decimal(n) + "-exit-delay")
    case PartitionAway(n) => PartitionPrefix + (Decimal(n) + "-away")
    case PartitionStay(n) => PartitionPrefix + (Decimal(n) + "-stay")
    case PartitionAlarm(n) => PartitionPrefix + (Decimal(n) + "-alarm")
    case PartitionFire(n) => PartitionPrefix + (Decimal(n) + "-fire")
    case OpenZone(z) => "openzone-" + Decimal(z)
    case AlarmZone(z) => "alarmzone-" + Decimal(z)
  }

  // ---------------------------------------------------------------------------------------
  // The pass of `loopHandler`
  // ---------------------------------------------------------------------------------------

  /** The global flags after the pass: the status, overflow and trouble changes and the keypad
      pulses are consumed, an access-code prompt only when the driver can write;
      `keybusChanged` is left alone. */
  function HandlerFlags(f: Flags): Flags {
    f.(statusChanged := false, bufferOverflow := false,
       accessCodePrompt := f.accessCodePrompt && !f.writeReady,
       troubleChanged := false, powerChanged := false, batteryChanged := false,
       keypadFireAlarm := false, keypadAuxAlarm := false, keypadPanicAlarm := false)
  }

  /** The overflow message and the three trouble states, each only when flagged. */
  function StatusPublications(f: Flags): seq<Publication> {
    Dispatch.When(f.bufferOverflow, Message(OverflowText)) +
    Dispatch.When(f.troubleChanged, Publish(Trouble, f.trouble)) +
    Dispatch.When(f.powerChanged, Publish(PowerTrouble, f.powerTrouble)) +
    Dispatch.When(f.batteryChanged, Publish(BatteryTrouble, f.batteryTrouble))
  }

  /** The keypad alarm pulses, each published as `"1"`. */
  function PulsePublications(f: Flags): seq<Publication> {
    Dispatch.When(f.keypadFireAlarm, Publish(FireAlarmKeypad, true)) +
    Dispatch.When(f.keypadAuxAlarm, Publish(AuxAlarmKeypad, true)) +
    Dispatch.When(f.keypadPanicAlarm, Publish(PanicAlarmKeypad, true))
  }

  function GlobalPublications(f: Flags): seq<Publication> {
    StatusPublications(f) + PulsePublications(f)
  }

  /** Partition `p` (0-based): exit delay, away and stay, alarm, fire, each only when its
      changed flag is set, under the 1-based number. */
  function PartitionPublications(d: PartitionData, p: nat): seq<Publication>
    requires PartsFit(d) && p < Partitions
  {
    var n := p + 1;
    Dispatch.When(d.exitDelayChanged[p], Publish(PartitionExitDelay(n), d.exitDelay[p])) +
    (if d.armedChanged[p] then [Publish(PartitionAway(n), d.armedAway[p]), Publish(PartitionStay(n), d.armedStay[p])]
     else []) +
    Dispatch.When(d.alarmChanged[p], Publish(PartitionAlarm(n), d.alarm[p])) +
    Dispatch.When(d.fireChanged[p], Publish(PartitionFire(n), d.fire[p]))
  }

  /** Partitions `0 .. k-1` in order. */
  function PartitionsPublications(d: PartitionData, k: nat): seq<Publication>
    requires PartsFit(d) && k <= Partitions
  {
    if k == 0 then [] else PartitionsPublications(d, k - 1) + PartitionPublications(d, k - 1)
  }

  /** `s` with its first `k` entries replaced by `x`. */
  function FilledTo<T>(s: seq<T>, x: T, k: nat): (r: seq<T>)
    requires k <= |s|
    ensures |r| == |s|
    ensures forall i :: 0 <= i < k ==> r[i] == x
    ensures forall i :: k <= i < |s| ==> r[i] == s[i]
  {
    seq(k, _ => x) + s[k..]
  }

  /** The partition arrays once partitions `0 .. k-1` were published. */
  function DrainedTo(d: PartitionData, k: nat): (r: PartitionData)
    requires PartsFit(d) && k <= Partitions
    ensures PartsFit(r)
  {
    d.(exitDelayChanged := FilledTo(d.exitDelayChanged, false, k),
       armedChanged := FilledTo(d.armedChanged, false, k),
       alarmChanged := FilledTo(d.alarmChanged, false, k),
       fireChanged := FilledTo(d.fireChanged, false, k))
  }

  /** The publication for one zone transition of the open-zone or the alarm-zone stream. */
  function ZonePublication(alarmStream: bool, z: ZoneChange): Publication {
    Publish(if alarmStream then AlarmZone(z.zone) else OpenZone(z.zone), z.on)
  }

  function ZonePublications(alarmStream: bool, zs: seq<ZoneChange>): seq<Publication> {
    if zs == [] then []
    else ZonePublications(alarmStream, zs[..|zs| - 1]) + [ZonePublication(alarmStream, zs[|zs| - 1])]
  }

  /** A stream's publications: one per changed bit, lowest zone first, when its summary flag
      is set. */
  function StreamPublications(z: ZoneStream, alarmStream: bool): seq<Publication>
    requires StreamFits(z)
  {
    if z.statusChanged then ZonePublications(alarmStream, ZoneChanges(z.changed, z.values, ZoneGroups))
    else []
  }

  /** What one call of `loopHandler` leaves and publishes. */
  datatype Outcome = Outcome(panel: Panel, published: seq<Publication>)

  /** `loopHandler` after the restart check: nothing unless `handlePanel()` reported data
      (`panelHandled`) and `statusChanged` is set; otherwise the global flags, every partition
      (disabled or not) and both zone streams are published and consumed, and a pending
      access-code prompt is answered.  The clock is not looked at. */
  function HandlerPass(s: Panel, panelHandled: bool, accessCode: string): (r: Outcome)
    requires WellFormed(s)
    ensures WellFormed(r.panel)
    ensures panelHandled ==> !r.panel.flags.statusChanged
    ensures r.panel.parts.status == s.parts.status && r.panel.parts.armed == s.parts.armed &&
            r.panel.parts.exitDelay == s.parts.exitDelay && r.panel.parts.alarm == s.parts.alarm &&
            r.panel.parts.fire == s.parts.fire
    ensures r.panel.openZones.values == s.openZones.values &&
            r.panel.alarmZones.values == s.alarmZones.values
    ensures s.writeLog <= r.panel.writeLog
    ensures SameDecoded(s, r.panel) && r.panel.clock == s.clock
  {
    if !(panelHandled && s.flags.statusChanged) then Outcome(s, [])
    else
      Outcome(
        s.(flags := HandlerFlags(s.flags),
           parts := DrainedTo(s.parts, Partitions),
           openZones := Dispatch.ZoneStage(s.openZones, true),
           alarmZones := Dispatch.ZoneStage(s.alarmZones, true),
           writeLog := s.writeLog + Dispatch.AccessCodeWrites(s.flags, s.writePartition, accessCode)),
        GlobalPublications(s.flags) + PartitionsPublications(s.parts, Partitions) +
        StreamPublications(s.openZones, false) + StreamPublications(s.alarmZones, true))
  }

  // ---------------------------------------------------------------------------------------
  // `resetDscStatus`
  // ---------------------------------------------------------------------------------------

  function AllSet(): seq<byte> {
    seq(ZoneGroups, _ => 0xFF)
  }

  /** A stream marked as changed everywhere, its values untouched. */
  function Remarked(z: ZoneStream): ZoneStream {
    z.(statusChanged := true, changed := AllSet())
  }

  /** The driver state after `resetDscStatus`: every change flag the pass reads (and the
      entry-delay and keybus flags) is set, every zone is marked changed; no value moves. */
  function Refreshed(s: Panel): (r: Panel)
    requires WellFormed(s)
    ensures WellFormed(r)
    ensures r.flags.statusChanged && r.flags.keybusChanged && r.flags.troubleChanged &&
            r.flags.powerChanged && r.flags.batteryChanged
    ensures forall p :: 0 <= p < Partitions ==>
              r.parts.armedChanged[p] && r.parts.alarmChanged[p] && r.parts.exitDelayChanged[p] &&
              r.parts.entryDelayChanged[p] && r.parts.fireChanged[p]
    ensures r.openZones.statusChanged && r.alarmZones.statusChanged
    ensures forall g :: 0 <= g < ZoneGroups ==>
              r.openZones.changed[g] == 0xFF && r.alarmZones.changed[g] == 0xFF
    ensures r.parts.disabled == s.parts.disabled && r.parts.status == s.parts.status &&
            r.parts.lights == s.parts.lights && r.parts.armed == s.parts.armed &&
            r.parts.exitDelay == s.parts.exitDelay && r.parts.alarm == s.parts.alarm &&
            r.parts.fire == s.parts.fire
    ensures r.openZones.values == s.openZones.values && r.alarmZones.values == s.alarmZones.values
    ensures r.clock == s.clock && r.writePartition == s.writePartition && r.writeLog == s.writeLog
    ensures SameDecoded(s, r)
    ensures r.flags.(statusChanged := s.flags.statusChanged, keybusChanged := s.flags.keybusChanged,
                     troubleChanged := s.flags.troubleChanged, powerChanged := s.flags.powerChanged,
                     batteryChanged := s.flags.batteryChanged) == s.flags
  {
    s.(flags := RefreshedFlags(s.flags), parts := RefreshedParts(s.parts),
       openZones := Remarked(s.openZones), alarmZones := Remarked(s.alarmZones))
  }

  /** The global flags `resetDscStatus` sets. */
  function RefreshedFlags(f: Flags): (r: Flags)
    ensures r.statusChanged && r.keybusChanged && r.troubleChanged && r.powerChanged && r.batteryChanged
    ensures r.(statusChanged := f.statusChanged, keybusChanged := f.keybusChanged,
               troubleChanged := f.troubleChanged, powerChanged := f.powerChanged,
               batteryChanged := f.batteryChanged) == f
  {
    f.(statusChanged := true, keybusChanged := true, troubleChanged := true,
       powerChanged := true, batteryChanged := true)
  }

  /** Every partition's change flags set, its values untouched. */
  function RefreshedParts(d: PartitionData): (r: PartitionData)
    requires PartsFit(d)
    ensures PartsFit(r)
    ensures forall p :: 0 <= p < Partitions ==>
              r.armedChanged[p] && r.alarmChanged[p] && r.exitDelayChanged[p] &&
              r.entryDelayChanged[p] && r.fireChanged[p]
    ensures r.(armedChanged := d.armedChanged, alarmChanged := d.alarmChanged,
               exitDelayChanged := d.exitDelayChanged, entryDelayChanged := d.entryDelayChanged,
               fireChanged := d.fireChanged) == d
  {
    d.(armedChanged := FilledTo(d.armedChanged, true, Partitions),
       alarmChanged := FilledTo(d.alarmChanged, true, Partitions),
       exitDelayChanged := FilledTo(d.exitDelayChanged, true, Partitions),
       entryDelayChanged := FilledTo(d.entryDelayChanged, true, Partitions),
       fireChanged := FilledTo(d.fireChanged, true, Partitions))
  }

  // ---------------------------------------------------------------------------------------
  // Reading a settable property: `extractPrefixDigits` and `homieNodeInputHandler`
  // ---------------------------------------------------------------------------------------

  /** The length of the run of digits `s` starts with. */
  function DigitRun(s: string): (n: nat)
    ensures n <= |s|
  {
    if |s| > 0 && IsDigit(s[0]) then 1 + DigitRun(s[1..]) else 0
  }

  predicate AllDigits(s: string) {
    forall i :: 0 <= i < |s| ==> IsDigit(s[i])
  }

  /** The number a run of decimal digits denotes. */
  function DigitsValue(s: string): int
  {
    if s == [] then 0 else DigitsValue(s[..|s| - 1]) * 10 + (s[|s| - 1] as int - '0' as int)
  }

  /** `LONG_MAX` of the 32-bit target. */
  const LongMax: nat := 0x7FFF_FFFF

  /** `String::toInt` on a run of digits: the C library's `strtol`, which saturates at
      `LONG_MAX`. */
  function ToLong(digits: string): (r: int)
    ensures r <= LongMax
    ensures r < LongMax ==> r == DigitsValue(digits)
    ensures DigitsValue(digits) <= LongMax ==> r == DigitsValue(digits)
    ensures DigitsValue(digits) > LongMax ==> r == LongMax
  {
    var v := DigitsValue(digits);
    if v <= LongMax then v else LongMax
  }

  /** A `byte` where the firmware only does arithmetic on it. */
  type ByteValue = n: nat | n < 256

  /** Conversion of an integer to `byte`: reduction modulo 256. */
  function ByteOf(n: int): ByteValue {
    n % 256
  }

  /** The number `str` starts with, as `toInt` reads it, and the rest of `str`; with no
      leading digit, -1 and `str` unchanged. */
  function ExtractNumber(str: string): (int, string)
  {
    var n := DigitRun(str);
    if n == 0 then (-1, str) else (ToLong(str[..n]), str[n..])
  }

  /** `extractPrefixDigits` as written: the number narrowed to the `byte` it returns, so that
      no leading digit gives 255 (the byte `-1`). */
  function ExtractPrefix(str: string): (r: (ByteValue, string))
    ensures |r.1| <= |str| && r.1 == str[|str| - |r.1|..]
    ensures (str == [] || !IsDigit(str[0])) ==> r == (255, str)
  {
    var (number, rest) := ExtractNumber(str);
    (ByteOf(number), rest)
  }

  const PartitionPrefix: string := "partition-"

  predicate StartsWith(s: string, prefix: string) {
    |prefix| <= |s| && s[..|prefix|] == prefix
  }

  /** `tolower` of the C locale. */
  function Lower(c: char): char {
    if 'A' <= c <= 'Z' then (c as int + 32) as char else c
  }

  /** `String::equalsIgnoreCase`. */
  predicate EqualsIgnoreCase(a: string, b: string) {
    |a| == |b| && forall i :: 0 <= i < |a| ==> Lower(a[i]) == Lower(b[i])
  }

  /** A value that asks for a disarm: `"0"` or any casing of `"off"`. */
  predicate IsOff(value: string) {
    value == "0" || EqualsIgnoreCase(value, "off")
  }

  /** Stands for the continuation bytes a byte-wise removal leaves of a wider character: any
      character outside ASCII would do, since only comparisons with ASCII words follow. */
  const Leftover: char := 0xFFFD as char

  /** `String::remove(0, 1)`, which drops the first byte of the UTF-8 text.  An ASCII character
      goes whole; a wider character leaves its continuation bytes, kept here as `Leftover`. */
  function DropFirst(s: string): (r: string)
    ensures s == [] ==> r == []
    ensures s != [] && IsAscii(s[0]) ==> r == s[1..]
    ensures s != [] && !IsAscii(s[0]) ==> r != [] && !IsAscii(r[0]) && r[1..] == s[1..]
  {
    if s == [] then s else if IsAscii(s[0]) then s[1..] else [Leftover] + s[1..]
  }

  /** What a property set asks for. */
  datatype Action =
    | NotPartition                     // not a `partition-` property: ignored
    | OutOfRange                       // partition number rejected: message published
    | UnknownCommand                   // a partition property that is not settable
    | ArmRequest(index: nat, away: bool)
    | DisarmRequest(index: nat)

  /** The request for a command suffix on the 0-based partition `index`. */
  function Command(index: nat, command: string, value: string): Action {
    if command == "away" then (if IsOff(value) then DisarmRequest(index) else ArmRequest(index, true))
    else if command == "stay" then (if IsOff(value) then DisarmRequest(index) else ArmRequest(index, false))
    else UnknownCommand
  }

  /** `homieNodeInputHandler` as written: a `partition-` property is read by `HandleTail`. */
  function Handle(property: string, value: string): (r: Action)
    ensures !StartsWith(property, PartitionPrefix) <==> r == NotPartition
    ensures (r.ArmRequest? || r.DisarmRequest?) ==> r.index < Partitions
  {
    if !StartsWith(property, PartitionPrefix) then NotPartition
    else HandleTail(property[|PartitionPrefix|..], value)
  }

  /** The rest of the handler after `partition-`: the partition index is the prefix minus one,
      computed as a byte. */
  function HandleTail(tail: string, value: string): Action {
    var (prefix, rest) := ExtractPrefix(tail);
    Select(ByteOf(prefix as int - 1), rest, value)
  }

  /** The range check, which rejects only an index not below the partition count, then the
      command after one dropped character. */
  function Select(index: ByteValue, rest: string, value: string): Action {
    if index >= Partitions then OutOfRange else Command(index, DropFirst(rest), value)
  }

  /** The reading the range check and its message ("out of range (1-8)") evidently intend:
      the partition number as written must lie in 1 .. `Partitions`. */
  function IntendedHandle(property: string, value: string): (r: Action)
    ensures !StartsWith(property, PartitionPrefix) <==> r == NotPartition
    ensures (r.ArmRequest? || r.DisarmRequest?) ==> r.index < Partitions
  {
    if !StartsWith(property, PartitionPrefix) then NotPartition
    else IntendedTail(property[|PartitionPrefix|..], value)
  }

  /** The rest of the intended handler after `partition-`: the number is range-checked before
      it is narrowed, so the index is the number minus one. */
  function IntendedTail(tail: string, value: string): Action {
    var (number, rest) := ExtractNumber(tail);
    if number < 1 || number > Partitions then OutOfRange
    else Command(number - 1, DropFirst(rest), value)
  }
}
