/** What the Homie firmware's pass publishes and how its input handler reads property names. */
module HomieFacts {
  import opened Keybus
  import opened Zones
  import opened AlarmCommands
  import opened Homie
  import Dispatch

  // ---------------------------------------------------------------------------------------
  // The pass
  // ---------------------------------------------------------------------------------------

  /** The reference reading of the partition arrays: `x` is published for a partition among
      the first `k` exactly when that partition's changed flag for the property is set, and it
      carries the current value (away and stay both hang on `armedChanged`). */
  ghost predicate Announced(d: PartitionData, k: nat, x: Publication)
    requires PartsFit(d) && k <= Partitions
  {
    x.Publish? && PartitionProperty(x.property) && 1 <= x.property.partition <= k &&
    AnnouncedFor(d, x.property.partition - 1, x.property, x.on)
  }

  predicate PartitionProperty(p: Property) {
    p.PartitionExitDelay? || p.PartitionAway? || p.PartitionStay? || p.PartitionAlarm? || p.PartitionFire?
  }

  /** The changed flag and the value behind a partition property of the 0-based partition `i`
      (away and stay both hang on `armedChanged`). */
  ghost predicate AnnouncedFor(d: PartitionData, i: nat, p: Property, on: bool)
    requires PartsFit(d) && i < Partitions && PartitionProperty(p)
  {
    match p
    case PartitionExitDelay(_) => d.exitDelayChanged[i] && on == d.exitDelay[i]
    case PartitionAway(_) => d.armedChanged[i] && on == d.armedAway[i]
    case PartitionStay(_) => d.armedChanged[i] && on == d.armedStay[i]
    case PartitionAlarm(_) => d.alarmChanged[i] && on == d.alarm[i]
    case PartitionFire(_) => d.fireChanged[i] && on == d.fire[i]
  }

  /** The current value behind a partition property of the 0-based partition `i`. */
  function PartitionValue(d: PartitionData, i: nat, p: Property): bool
    requires PartsFit(d) && i < Partitions && PartitionProperty(p)
  {
    match p
    case PartitionExitDelay(_) => d.exitDelay[i]
    case PartitionAway(_) => d.armedAway[i]
    case PartitionStay(_) => d.armedStay[i]
    case PartitionAlarm(_) => d.alarm[i]
    case PartitionFire(_) => d.fire[i]
  }

  lemma PartitionPublicationsMembers(d: PartitionData, i: nat, x: Publication)
    requires PartsFit(d) && i < Partitions
    ensures x in PartitionPublications(d, i) <==>
              x.Publish? && PartitionProperty(x.property) && x.property.partition == i + 1 &&
              AnnouncedFor(d, i, x.property, x.on)
  {
  }

  lemma {:induction false} PartitionsPublicationsMembers(d: PartitionData, k: nat, x: Publication)
    requires PartsFit(d) && k <= Partitions
    ensures x in PartitionsPublications(d, k) <==> Announced(d, k, x)
  {
    if k > 0 {
      PartitionsPublicationsMembers(d, k - 1, x);
      PartitionPublicationsMembers(d, k - 1, x);
      assert Announced(d, k, x) <==>
        Announced(d, k - 1, x) ||
        (x.Publish? && PartitionProperty(x.property) && x.property.partition == k &&
         AnnouncedFor(d, k - 1, x.property, x.on));
    }
  }

  /** `x` is a publication of the open-zone stream (or, with `alarmStream`, the alarm-zone
      stream). */
  predicate ZoneKind(alarmStream: bool, x: Publication) {
    x.Publish? && if alarmStream then x.property.AlarmZone? else x.property.OpenZone?
  }

  lemma {:induction false} ZonePublicationsMembers(alarmStream: bool, zs: seq<ZoneChange>, x: Publication)
    ensures x in ZonePublications(alarmStream, zs) <==>
              ZoneKind(alarmStream, x) && ZoneChange(x.property.zone, x.on) in zs
  {
    if zs != [] {
      var front := zs[..|zs| - 1];
      ZonePublicationsMembers(alarmStream, front, x);
      assert zs == front + [zs[|zs| - 1]];
    }
  }

  lemma {:induction false} ZonePublicationsAppend(alarmStream: bool, xs: seq<ZoneChange>, ys: seq<ZoneChange>)
    ensures ZonePublications(alarmStream, xs + ys) ==
              ZonePublications(alarmStream, xs) + ZonePublications(alarmStream, ys)
  {
    if ys == [] {
      assert xs + ys == xs;
    } else {
      var front := ys[..|ys| - 1];
      assert (xs + ys)[..|xs + ys| - 1] == xs + front;
      ZonePublicationsAppend(alarmStream, xs, front);
    }
  }

  /** A zone stream publishes exactly its set changed bits, each with its value bit. */
  lemma StreamPublicationsMembers(z: ZoneStream, alarmStream: bool, x: Publication)
    requires StreamFits(z)
    ensures x in StreamPublications(z, alarmStream) <==>
              z.statusChanged && ZoneKind(alarmStream, x) &&
              Reported(z.changed, z.values, ZoneGroups, ZoneChange(x.property.zone, x.on))
  {
    ZonePublicationsMembers(alarmStream, ZoneChanges(z.changed, z.values, ZoneGroups), x);
    if ZoneKind(alarmStream, x) {
      ZoneChangesMembers(z.changed, z.values, ZoneGroups, ZoneChange(x.property.zone, x.on));
    }
  }

  /** A pass leaves no change flag it reads set, zeroes the changed masks of every stream it
      fans out, leaves
      `keybusChanged`, the values and the clock alone, and a second pass right after it
      publishes and changes nothing. */
  lemma PassDrains(s: Panel, panelHandled: bool, accessCode: string, again: bool)
    requires WellFormed(s) && panelHandled && s.flags.statusChanged
    ensures var t := HandlerPass(s, panelHandled, accessCode).panel;
      !t.flags.statusChanged && !t.flags.bufferOverflow && !t.flags.troubleChanged &&
      !t.flags.powerChanged && !t.flags.batteryChanged && !t.flags.keypadFireAlarm &&
      !t.flags.keypadAuxAlarm && !t.flags.keypadPanicAlarm &&
      t.flags.keybusChanged == s.flags.keybusChanged &&
      (forall p :: 0 <= p < Partitions ==>
         !t.parts.exitDelayChanged[p] && !t.parts.armedChanged[p] &&
         !t.parts.alarmChanged[p] && !t.parts.fireChanged[p]) &&
      t.parts.entryDelayChanged == s.parts.entryDelayChanged &&
      !t.openZones.statusChanged && !t.alarmZones.statusChanged &&
      (s.openZones.statusChanged ==> forall g :: 0 <= g < ZoneGroups ==> t.openZones.changed[g] == 0) &&
      (s.alarmZones.statusChanged ==> forall g :: 0 <= g < ZoneGroups ==> t.alarmZones.changed[g] == 0) &&
      t.openZones.values == s.openZones.values && t.alarmZones.values == s.alarmZones.values &&
      t.clock == s.clock &&
      HandlerPass(t, again, accessCode) == Outcome(t, [])
  {
  }

  lemma FilledToAt<T>(s: seq<T>, x: T, k: nat, i: nat)
    requires k <= |s| && i < |s|
    ensures FilledTo(s, x, k)[i] == if i < k then x else s[i]
  {
  }

  lemma AllSetBits(b: nat)
    requires b < 8
    ensures Bit(0xFF, b)
  {
  }

  /** After `resetDscStatus` the pass publishes every property of every partition with its
      current value. */
  lemma RefreshedPartitionProperty(s: Panel, p: Property, on: bool)
    requires WellFormed(s) && PartitionProperty(p) && 1 <= p.partition <= Partitions
    requires on == PartitionValue(s.parts, p.partition - 1, p)
    ensures Publish(p, on) in PartitionsPublications(Refreshed(s).parts, Partitions)
  {
    var i := p.partition - 1;
    var d := Refreshed(s).parts;
    FilledToAt(s.parts.exitDelayChanged, true, Partitions, i);
    FilledToAt(s.parts.armedChanged, true, Partitions, i);
    FilledToAt(s.parts.alarmChanged, true, Partitions, i);
    FilledToAt(s.parts.fireChanged, true, Partitions, i);
    assert AnnouncedFor(d, i, p, on);
    PartitionsPublicationsMembers(d, Partitions, Publish(p, on));
  }

  lemma RefreshedPartitionsPublished(s: Panel)
    requires WellFormed(s)
    ensures var out := PartitionsPublications(Refreshed(s).parts, Partitions);
      forall n :: 1 <= n <= Partitions ==>
        Publish(PartitionExitDelay(n), s.parts.exitDelay[n - 1]) in out &&
        Publish(PartitionAway(n), s.parts.armedAway[n - 1]) in out &&
        Publish(PartitionStay(n), s.parts.armedStay[n - 1]) in out &&
        Publish(PartitionAlarm(n), s.parts.alarm[n - 1]) in out &&
        Publish(PartitionFire(n), s.parts.fire[n - 1]) in out
  {
    var out := PartitionsPublications(Refreshed(s).parts, Partitions);
    forall n | 1 <= n <= Partitions
      ensures Publish(PartitionExitDelay(n), s.parts.exitDelay[n - 1]) in out
      ensures Publish(PartitionAway(n), s.parts.armedAway[n - 1]) in out
      ensures Publish(PartitionStay(n), s.parts.armedStay[n - 1]) in out
      ensures Publish(PartitionAlarm(n), s.parts.alarm[n - 1]) in out
      ensures Publish(PartitionFire(n), s.parts.fire[n - 1]) in out
    {
      RefreshedPartitionProperty(s, PartitionExitDelay(n), s.parts.exitDelay[n - 1]);
      RefreshedPartitionProperty(s, PartitionAway(n), s.parts.armedAway[n - 1]);
      RefreshedPartitionProperty(s, PartitionStay(n), s.parts.armedStay[n - 1]);
      RefreshedPartitionProperty(s, PartitionAlarm(n), s.parts.alarm[n - 1]);
      RefreshedPartitionProperty(s, PartitionFire(n), s.parts.fire[n - 1]);
    }
  }

  /** After `resetDscStatus` a stream publishes every zone with its current value. */
  lemma RemarkedZonePublished(z: ZoneStream, alarmStream: bool, zone: nat)
    requires StreamFits(z) && 1 <= zone <= ZoneGroups * 8
    ensures ZonePublication(alarmStream, ZoneChange(zone, Bit(z.values[GroupOf(zone)], BitOf(zone))))
              in StreamPublications(Remarked(z), alarmStream)
  {
    var x := ZonePublication(alarmStream, ZoneChange(zone, Bit(z.values[GroupOf(zone)], BitOf(zone))));
    AllSetBits(BitOf(zone));
    StreamPublicationsMembers(Remarked(z), alarmStream, x);
  }

  lemma RemarkedZonesPublished(z: ZoneStream, alarmStream: bool)
    requires StreamFits(z)
    ensures forall zone :: 1 <= zone <= ZoneGroups * 8 ==>
      ZonePublication(alarmStream, ZoneChange(zone, Bit(z.values[GroupOf(zone)], BitOf(zone))))
        in StreamPublications(Remarked(z), alarmStream)
  {
    forall zone | 1 <= zone <= ZoneGroups * 8 {
      RemarkedZonePublished(z, alarmStream, zone);
    }
  }

  /** What a pass publishes after `resetDscStatus`: the current state of every trouble flag,
      every partition property and every zone of both streams. */
  ghost predicate PublishesCurrentState(s: Panel, out: seq<Publication>)
    requires WellFormed(s)
  {
    Publish(Trouble, s.flags.trouble) in out &&
    Publish(PowerTrouble, s.flags.powerTrouble) in out &&
    Publish(BatteryTrouble, s.flags.batteryTrouble) in out &&
    (forall n :: 1 <= n <= Partitions ==>
       Publish(PartitionExitDelay(n), s.parts.exitDelay[n - 1]) in out &&
       Publish(PartitionAway(n), s.parts.armedAway[n - 1]) in out &&
       Publish(PartitionStay(n), s.parts.armedStay[n - 1]) in out &&
       Publish(PartitionAlarm(n), s.parts.alarm[n - 1]) in out &&
       Publish(PartitionFire(n), s.parts.fire[n - 1]) in out) &&
    (forall zone :: 1 <= zone <= ZoneGroups * 8 ==>
       Publish(OpenZone(zone), Bit(s.openZones.values[GroupOf(zone)], BitOf(zone))) in out &&
       Publish(AlarmZone(zone), Bit(s.alarmZones.values[GroupOf(zone)], BitOf(zone))) in out)
  }

  lemma RefreshedTroublesPublished(s: Panel)
    requires WellFormed(s)
    ensures var out := GlobalPublications(Refreshed(s).flags);
      Publish(Trouble, s.flags.trouble) in out &&
      Publish(PowerTrouble, s.flags.powerTrouble) in out &&
      Publish(BatteryTrouble, s.flags.batteryTrouble) in out
  {
    var f := Refreshed(s).flags;
    assert StatusPublications(f) ==
      Dispatch.When(f.bufferOverflow, Message(OverflowText)) +
      [Publish(Trouble, s.flags.trouble), Publish(PowerTrouble, s.flags.powerTrouble),
       Publish(BatteryTrouble, s.flags.batteryTrouble)];
  }

  /** After `resetDscStatus`, one pass publishes the current state of everything. */
  lemma RefreshPublishesEverything(s: Panel, accessCode: string)
    requires WellFormed(s)
    ensures PublishesCurrentState(s, HandlerPass(Refreshed(s), true, accessCode).published)
  {
    var t := Refreshed(s);
    RefreshedTroublesPublished(s);
    RefreshedPartitionsPublished(s);
    RemarkedZonesPublished(s.openZones, false);
    RemarkedZonesPublished(s.alarmZones, true);
    assert HandlerPass(t, true, accessCode).published ==
      GlobalPublications(t.flags) + PartitionsPublications(t.parts, Partitions) +
      StreamPublications(t.openZones, false) + StreamPublications(t.alarmZones, true);
  }

  // ---------------------------------------------------------------------------------------
  // Numbers in property names
  // ---------------------------------------------------------------------------------------

  lemma {:induction false} DecimalDigits(n: nat)
    ensures AllDigits(Decimal(n))
  {
    if n >= 10 {
      DecimalDigits(n / 10);
    }
  }

  lemma {:induction false} DecimalValue(n: nat)
    ensures DigitsValue(Decimal(n)) == n
  {
    if n >= 10 {
      var front := Decimal(n / 10);
      DecimalValue(n / 10);
      assert (front + [DigitChar(n % 10)])[..|front|] == front;
    }
  }

  lemma {:induction false} DigitsValueNatural(s: string)
    requires AllDigits(s)
    ensures DigitsValue(s) >= 0
  {
    if s != [] {
      DigitsValueNatural(s[..|s| - 1]);
    }
  }

  /** A run of exactly `i` leading digits. */
  lemma {:induction false} DigitRunIs(s: string, i: nat)
    requires i <= |s| && AllDigits(s[..i]) && (i == |s| || !IsDigit(s[i]))
    ensures DigitRun(s) == i
  {
    if i > 0 {
      assert s[..i][0] == s[0];
      assert s[1..][..i - 1] == s[..i][1..];
      DigitRunIs(s[1..], i - 1);
    }
  }

  /** A run of digits followed by a non-digit splits off as the leading digit run. */
  lemma SplitDigits(digits: string, rest: string)
    requires AllDigits(digits) && (rest == [] || !IsDigit(rest[0]))
    ensures DigitRun(digits + rest) == |digits|
    ensures (digits + rest)[..|digits|] == digits && (digits + rest)[|digits|..] == rest
  {
    var s := digits + rest;
    assert s[..|digits|] == digits && s[|digits|..] == rest;
    DigitRunIs(s, |digits|);
  }

  /** A written number splits off a name: `toInt` reads its value (saturated), and
      `extractPrefixDigits` as written returns that value as a byte; the rest is what follows. */
  lemma ExtractPrefixSplits(digits: string, rest: string)
    requires |digits| > 0 && AllDigits(digits) && (rest == [] || !IsDigit(rest[0]))
    ensures ExtractNumber(digits + rest) == (ToLong(digits), rest)
    ensures ExtractPrefix(digits + rest) == (ByteOf(ToLong(digits)), rest)
  {
    SplitDigits(digits, rest);
  }

  /** Without a leading digit nothing is split off: the number is -1, the byte 255. */
  lemma ExtractPrefixMissing(str: string)
    requires str == [] || !IsDigit(str[0])
    ensures ExtractNumber(str) == (-1, str) && ExtractPrefix(str) == (255, str)
  {
  }

  /** A `partition-` property is read from what follows the prefix, both as written and as
      intended. */
  lemma HandlePrefixed(tail: string, value: string)
    ensures Handle(PartitionPrefix + tail, value) == HandleTail(tail, value)
    ensures IntendedHandle(PartitionPrefix + tail, value) == IntendedTail(tail, value)
  {
    assert (PartitionPrefix + tail)[..|PartitionPrefix|] == PartitionPrefix;
    assert (PartitionPrefix + tail)[|PartitionPrefix|..] == tail;
  }

  lemma TailNumbered(digits: string, rest: string, value: string)
    requires |digits| > 0 && AllDigits(digits) && (rest == [] || !IsDigit(rest[0]))
    ensures HandleTail(digits + rest, value) == Select(ByteOf(ByteOf(ToLong(digits)) as int - 1), rest, value)
  {
    ExtractPrefixSplits(digits, rest);
  }

  /** The byte `prefix - 1` is below the partition count exactly for prefixes 1 .. 8. */
  lemma SelectPrefix(b: ByteValue, rest: string, value: string)
    ensures Select(ByteOf(b as int - 1), rest, value) ==
              (if 1 <= b <= Partitions then Command(b - 1, DropFirst(rest), value) else OutOfRange)
  {
    assert ByteOf(b as int - 1) == if b == 0 then 255 else b - 1;
  }

  /** What follows `partition-` as written: the number (saturated by `toInt`) is taken modulo
      256, and only 1 .. 8 pass the range check. */
  lemma TailNumberedRange(digits: string, rest: string, value: string)
    requires |digits| > 0 && AllDigits(digits) && (rest == [] || !IsDigit(rest[0]))
    ensures var b := ByteOf(ToLong(digits));
      HandleTail(digits + rest, value) ==
        (if 1 <= b <= Partitions then Command(b - 1, DropFirst(rest), value) else OutOfRange)
  {
    var b := ByteOf(ToLong(digits));
    TailNumbered(digits, rest, value);
    SelectPrefix(b, rest, value);
    var x := Select(ByteOf(b as int - 1), rest, value);
    assert HandleTail(digits + rest, value) == x;
  }

  /** The handler on `partition-<digits><rest>` as written, where `b` is the number (saturated
      by `toInt`) as a byte. */
  lemma HandleNumbered(property: string, digits: string, rest: string, value: string, b: ByteValue)
    requires property == PartitionPrefix + (digits + rest)
    requires |digits| > 0 && AllDigits(digits) && (rest == [] || !IsDigit(rest[0]))
    requires b == ByteOf(ToLong(digits))
    ensures Handle(property, value) ==
              (if 1 <= b <= Partitions then Command(b - 1, DropFirst(rest), value) else OutOfRange)
  {
    assert HandleTail(digits + rest, value) ==
             (if 1 <= b <= Partitions then Command(b - 1, DropFirst(rest), value) else OutOfRange) by {
      TailNumberedRange(digits, rest, value);
    }
    HandlePrefixed(digits + rest, value);
  }

  /** With no number after `partition-` the prefix is 255 and the index 254 (the number -1
      when intended): out of range either way. */
  lemma HandleMissingNumber(rest: string, value: string)
    requires rest == [] || !IsDigit(rest[0])
    ensures Handle(PartitionPrefix + rest, value) == OutOfRange
    ensures IntendedHandle(PartitionPrefix + rest, value) == OutOfRange
  {
    HandlePrefixed(rest, value);
    ExtractPrefixMissing(rest);
  }

  /** A property the node names `partition-<n><suffix>` for a partition `n` selects the
      command after the suffix's first character on index `n - 1`. */
  lemma HandlePartitionSuffix(property: string, n: nat, suffix: string, value: string)
    requires 1 <= n <= Partitions
    requires property == PartitionPrefix + (Decimal(n) + suffix)
    requires |suffix| > 0 && !IsDigit(suffix[0])
    ensures Handle(property, value) == Command(n - 1, DropFirst(suffix), value)
    ensures IntendedHandle(property, value) == Command(n - 1, DropFirst(suffix), value)
  {
    DecimalDigits(n);
    DecimalValue(n);
    assert ToLong(Decimal(n)) == n;
    ByteOfSmall(n);
    HandleNumbered(property, Decimal(n), suffix, value, n);
    IntendedHandleNumbered(property, Decimal(n), suffix, value);
  }

  /** Setting `partition-<n>-away` or `-stay` for an existing partition arms it in that mode,
      or disarms it for `0` or `off`. */
  lemma HandleArming(n: nat, away: bool, value: string)
    requires 1 <= n <= Partitions
    ensures Handle(PropertyName(if away then PartitionAway(n) else PartitionStay(n)), value) ==
              (if IsOff(value) then DisarmRequest(n - 1) else ArmRequest(n - 1, away))
    ensures IntendedHandle(PropertyName(if away then PartitionAway(n) else PartitionStay(n)), value) ==
              (if IsOff(value) then DisarmRequest(n - 1) else ArmRequest(n - 1, away))
  {
    var suffix := if away then "-away" else "-stay";
    HandlePartitionSuffix(PropertyName(if away then PartitionAway(n) else PartitionStay(n)), n, suffix, value);
    assert DropFirst(suffix) == if away then "away" else "stay";
  }

  /** The partition properties the node only publishes are not commands. */
  lemma HandleReadOnly(p: Property, value: string)
    requires p.PartitionExitDelay? || p.PartitionAlarm? || p.PartitionFire?
    requires 1 <= p.partition <= Partitions
    ensures Handle(PropertyName(p), value) == UnknownCommand
    ensures IntendedHandle(PropertyName(p), value) == UnknownCommand
  {
    var suffix := match p
      case PartitionExitDelay(_) => "-exit-delay"
      case PartitionAlarm(_) => "-alarm"
      case PartitionFire(_) => "-fire";
    HandlePartitionSuffix(PropertyName(p), p.partition, suffix, value);
    assert DropFirst(suffix) != "away" && DropFirst(suffix) != "stay";
  }

  /** Dropping the first byte leaves a non-empty ASCII word exactly when the text is one ASCII
      character followed by that word. */
  lemma DropFirstWord(s: string, w: string)
    requires w != [] && forall i :: 0 <= i < |w| ==> IsAscii(w[i])
    ensures DropFirst(s) == w <==> s != [] && IsAscii(s[0]) && s[1..] == w
  {
  }

  /** A wide character after the number is not a separator: `remove(0, 1)` leaves one of its
      bytes in front of `away`, so the property is no command. */
  lemma WideSeparatorNoCommand()
    ensures Handle("partition-1\U{E9}away", "1") == UnknownCommand
    ensures IntendedHandle("partition-1\U{E9}away", "1") == UnknownCommand
  {
    var suffix := "\U{E9}away";
    assert Decimal(1) == "1";
    HandlePartitionSuffix("partition-1\U{E9}away", 1, suffix, "1");
    assert DropFirst(suffix)[0] == Leftover;
  }

  /** The node's other properties are not partition properties. */
  lemma HandleOtherNames(p: Property, value: string)
    requires !(p.PartitionExitDelay? || p.PartitionAway? || p.PartitionStay? || p.PartitionAlarm? ||
               p.PartitionFire?)
    ensures Handle(PropertyName(p), value) == NotPartition
    ensures IntendedHandle(PropertyName(p), value) == NotPartition
  {
    var name := PropertyName(p);
    if |name| >= |PartitionPrefix| {
      assert name[..|PartitionPrefix|] != PartitionPrefix by {
        match p
        case OpenZone(_) => assert name[0] == 'o';
        case AlarmZone(_) => assert name[0] == 'a';
        case PowerTrouble => assert name[1] == 'o';
        case BatteryTrouble => assert name[0] == 'b';
        case FireAlarmKeypad => assert name[0] == 'f';
        case AuxAlarmKeypad => assert name[0] == 'a';
        case PanicAlarmKeypad => assert name[2] == 'n';
      }
    }
  }

  // ---------------------------------------------------------------------------------------
  // The wrapped partition number
  // ---------------------------------------------------------------------------------------

  lemma Value257()
    ensures AllDigits("257") && DigitsValue("257") == 257
  {
    assert DigitsValue("2") == 2 by { assert "2"[..0] == []; }
    assert DigitsValue("25") == 25 by { assert "25"[..1] == "2"; }
    assert "257"[..2] == "25";
  }

  /** As written, `partition-257-away` passes the range check and arms partition 1: 257 - 1
      is 0 as a byte. */
  lemma WrappedPartitionAccepted()
    ensures Handle("partition-257-away", "1") == ArmRequest(0, true)
  {
    Value257();
    assert Command(0, DropFirst("-away"), "1") == ArmRequest(0, true) by {
      assert DropFirst("-away") == "away";
      assert !IsOff("1");
    }
    HandleNumbered("partition-257-away", "257", "-away", "1", 1);
  }

  /** The intended reading accepts a written number exactly when it lies in 1 .. 8. */
  lemma IntendedTailNumbered(digits: string, rest: string, value: string)
    requires |digits| > 0 && AllDigits(digits) && (rest == [] || !IsDigit(rest[0]))
    ensures IntendedTail(digits + rest, value) ==
              (if 1 <= DigitsValue(digits) <= Partitions then Command(DigitsValue(digits) - 1, DropFirst(rest), value)
               else OutOfRange)
  {
    ExtractPrefixSplits(digits, rest);
    IntendedTailSplit(digits + rest, ToLong(digits), rest, value);
    DigitsValueNatural(digits);
    SelectSaturated(ToLong(digits), DigitsValue(digits), DropFirst(rest), value);
    var number, v, command := ToLong(digits), DigitsValue(digits), DropFirst(rest);
    var x := if number < 1 || number > Partitions then OutOfRange else Command(number - 1, command, value);
    assert IntendedTail(digits + rest, value) == x;
    assert x == if 1 <= v <= Partitions then Command(v - 1, command, value) else OutOfRange;
  }

  /** The intended handler range-checks the number split off the tail. */
  lemma IntendedTailSplit(tail: string, number: int, rest: string, value: string)
    requires ExtractNumber(tail) == (number, rest)
    ensures IntendedTail(tail, value) ==
              if number < 1 || number > Partitions then OutOfRange else Command(number - 1, DropFirst(rest), value)
  {
  }

  /** Saturation at `LONG_MAX` moves no number in or out of 1 .. 8, so the range check on the
      saturated number selects as the one on the number itself. */
  lemma SelectSaturated(number: int, v: int, command: string, value: string)
    requires v >= 0 && number == if v <= LongMax then v else LongMax
    ensures (if number < 1 || number > Partitions then OutOfRange else Command(number - 1, command, value)) ==
            (if 1 <= v <= Partitions then Command(v - 1, command, value) else OutOfRange)
  {
  }

  lemma IntendedHandleNumbered(property: string, digits: string, rest: string, value: string)
    requires property == PartitionPrefix + (digits + rest)
    requires |digits| > 0 && AllDigits(digits) && (rest == [] || !IsDigit(rest[0]))
    ensures IntendedHandle(property, value) ==
              (if 1 <= DigitsValue(digits) <= Partitions then Command(DigitsValue(digits) - 1, DropFirst(rest), value)
               else OutOfRange)
  {
    HandlePrefixed(digits + rest, value);
    IntendedTailNumbered(digits, rest, value);
  }

  /** The intended reading rejects `partition-257-away`. */
  lemma WrappedPartitionRejected()
    ensures IntendedHandle("partition-257-away", "1") == OutOfRange
  {
    Value257();
    IntendedHandleNumbered("partition-257-away", "257", "-away", "1");
  }

  lemma ByteOfSmall(n: int)
    requires 0 <= n < 256
    ensures ByteOf(n) == n
  {
  }

  /** Below 256 the code as written and the intended reading agree. */
  lemma TailsAgreeBelow256(tail: string, digits: string, rest: string, value: string)
    requires tail == digits + rest
    requires |digits| > 0 && AllDigits(digits) && (rest == [] || !IsDigit(rest[0]))
    requires DigitsValue(digits) < 256
    ensures HandleTail(tail, value) == IntendedTail(tail, value)
  {
    DigitsValueNatural(digits);
    assert ToLong(digits) == DigitsValue(digits);
    ByteOfSmall(DigitsValue(digits));
    TailNumberedRange(digits, rest, value);
    IntendedTailNumbered(digits, rest, value);
  }

  lemma HandleAgreesBelow256(property: string, digits: string, rest: string, value: string)
    requires property == PartitionPrefix + (digits + rest)
    requires |digits| > 0 && AllDigits(digits) && (rest == [] || !IsDigit(rest[0]))
    requires DigitsValue(digits) < 256
    ensures Handle(property, value) == IntendedHandle(property, value)
  {
    HandlePrefixed(digits + rest, value);
    TailsAgreeBelow256(digits + rest, digits, rest, value);
  }
}
