/** The guarded command gateway: which keys an alarm command writes to the panel, to which
    partition, and when the guard suppresses it.  Shared by the ESPHome component
    (`sendAlarmCommand`) and the Homie firmware (`arm`, `disarm`). */
module AlarmCommands {
  import opened Keybus

  /** `AlarmCommand`; each command is sent as its key character. */
  datatype AlarmCommand = ArmStay | ArmAway | TriggerPanicAlarm | TriggerFireAlarm | Disarm

  function Key(command: AlarmCommand): char {
    match command
    case ArmStay => 's'
    case ArmAway => 'w'
    case TriggerPanicAlarm => 'p'
    case TriggerFireAlarm => 'f'
    case Disarm => 'd'
  }

  /** A partition (0-based index) is busy when it is armed or its exit delay runs. */
  predicate Busy(d: PartitionData, index: nat)
    requires PartsFit(d) && index < Partitions
  {
    d.armed[index] || d.exitDelay[index]
  }

  /** The write `sendAlarmCommand` makes for a 1-based partition, if any: nothing for a
      partition beyond the last; a disarm sends the given code (the configured access code when
      none is given) and only to a busy partition; an arm sends its key only to an idle
      partition; the fire and panic keys are always sent. */
  function CommandWrite(d: PartitionData, partition: nat, command: AlarmCommand,
                        code: Option<string>, accessCode: string): (w: Option<Written>)
    requires PartsFit(d) && partition >= 1
    ensures w.Some? ==> w.value.partition == partition && partition <= Partitions
  {
    if partition > Partitions then None
    else
      var busy := Busy(d, partition - 1);
      match command
      case Disarm =>
        if busy then Some(Written(partition, if code.Some? then code.value else accessCode)) else None
      case ArmStay =>
        if busy then None else Some(Written(partition, [Key(command)]))
      case ArmAway =>
        if busy then None else Some(Written(partition, [Key(command)]))
      case TriggerPanicAlarm => Some(Written(partition, [Key(command)]))
      case TriggerFireAlarm => Some(Written(partition, [Key(command)]))
  }

  /** A disarm is written exactly when the partition exists and is busy, and it carries the
      given code or, without one, the access code. */
  lemma DisarmOnlyWhenBusy(d: PartitionData, partition: nat, code: Option<string>, accessCode: string)
    requires PartsFit(d) && partition >= 1
    ensures var w := CommandWrite(d, partition, Disarm, code, accessCode);
      (w.Some? <==> partition <= Partitions && Busy(d, partition - 1)) &&
      (w.Some? ==> w.value.keys == (if code.Some? then code.value else accessCode))
  {
  }

  /** An arm is written exactly when the partition exists and is idle, and it is the single
      key of the arming mode. */
  lemma ArmOnlyWhenIdle(d: PartitionData, partition: nat, command: AlarmCommand, code: Option<string>,
                        accessCode: string)
    requires PartsFit(d) && partition >= 1 && (command == ArmStay || command == ArmAway)
    ensures var w := CommandWrite(d, partition, command, code, accessCode);
      (w.Some? <==> partition <= Partitions && !Busy(d, partition - 1)) &&
      (w.Some? ==> w.value.keys == [Key(command)])
  {
  }

  /** The fire and panic keys are written to every existing partition, whatever its state. */
  lemma AlarmKeysAlwaysSent(d: PartitionData, partition: nat, command: AlarmCommand,
                            code: Option<string>, accessCode: string)
    requires PartsFit(d) && partition >= 1
    requires command == TriggerFireAlarm || command == TriggerPanicAlarm
    ensures CommandWrite(d, partition, command, code, accessCode) ==
              (if partition <= Partitions then Some(Written(partition, [Key(command)])) else None)
  {
  }

  /** In any one state a partition accepts either a disarm or an arm, never both. */
  lemma ArmDisarmExclusive(d: PartitionData, partition: nat, arming: AlarmCommand,
                           code: Option<string>, accessCode: string)
    requires PartsFit(d) && partition >= 1 && (arming == ArmStay || arming == ArmAway)
    ensures !(CommandWrite(d, partition, Disarm, code, accessCode).Some? &&
              CommandWrite(d, partition, arming, code, accessCode).Some?)
  {
    DisarmOnlyWhenBusy(d, partition, code, accessCode);
    ArmOnlyWhenIdle(d, partition, arming, code, accessCode);
  }

  /** The C string a NUL-terminated buffer holds: everything before the first NUL. */
  function CString(s: string): (r: string)
    ensures |r| <= |s| && r == s[..|r|]
    ensures '\0' !in r
    ensures |r| < |s| ==> s[|r|] == '\0'
  {
    if s == [] || s[0] == '\0' then [] else [s[0]] + CString(s[1..])
  }

  /** A character that UTF-8 encodes in one byte. */
  predicate IsAscii(c: char) {
    c < 0x80 as char
  }

  /** The UTF-8 encoding of `c`, each byte held as a character below 256 (a C `char`). */
  function Utf8(c: char): (r: string)
    ensures 1 <= |r| <= 4
    ensures IsAscii(c) ==> r == [c]
    ensures !IsAscii(c) ==> forall i :: 0 <= i < |r| ==> 0x80 as char <= r[i] < 0x100 as char
  {
    var n := c as int;
    if n < 0x80 then [c]
    else if n < 0x800 then [(0xC0 + n / 0x40) as char, (0x80 + n % 0x40) as char]
    else if n < 0x1_0000 then
      [(0xE0 + n / 0x1000) as char, (0x80 + n / 0x40 % 0x40) as char, (0x80 + n % 0x40) as char]
    else
      [(0xF0 + n / 0x4_0000) as char, (0x80 + n / 0x1000 % 0x40) as char,
       (0x80 + n / 0x40 % 0x40) as char, (0x80 + n % 0x40) as char]
  }

  /** The bytes a `std::string` holding the text `s` stores. */
  function Bytes(s: string): (r: string)
    ensures |r| >= |s|
  {
    if s == [] then [] else Utf8(s[0]) + Bytes(s[1..])
  }

  /** The keys `write(std::string)` hands to the driver: at most 49 bytes of the keystring
      copied into a 50-byte buffer, read back as a C string. */
  function KeyBuffer(keys: string): (r: string)
    ensures |r| <= 49
  {
    var b := Bytes(keys);
    CString(b[..if |b| < 49 then |b| else 49])
  }

  /** A keystring without NUL reaches the driver as its bytes when they fit in 49, and as its
      first 49 bytes otherwise. */
  lemma {:induction false} KeyBufferKeeps(keys: string)
    requires '\0' !in keys
    ensures |Bytes(keys)| <= 49 ==> KeyBuffer(keys) == Bytes(keys)
    ensures |Bytes(keys)| > 49 ==> KeyBuffer(keys) == Bytes(keys)[..49]
  {
    var b := Bytes(keys);
    var n := if |b| < 49 then |b| else 49;
    NoNulBytes(keys);
    assert forall c :: c in b[..n] ==> c in b;
    NoNulKept(b[..n]);
  }

  /** An ASCII keystring of at most 49 keys without NUL reaches the driver unchanged. */
  lemma AsciiKeysKept(keys: string)
    requires '\0' !in keys && |keys| <= 49
    requires forall i :: 0 <= i < |keys| ==> IsAscii(keys[i])
    ensures KeyBuffer(keys) == keys
  {
    AsciiBytes(keys);
    KeyBufferKeeps(keys);
  }

  /** A wide character across the 49th byte is split: only its first byte is sent. */
  lemma WideKeySplit()
    ensures KeyBuffer(seq(48, _ => '1') + "\U{E9}") == seq(48, _ => '1') + [0xC3 as char]
  {
    var ones := seq(48, _ => '1');
    AsciiBytes(ones);
    BytesAppend(ones, "\U{E9}");
    assert Bytes("\U{E9}") == [0xC3 as char, 0xA9 as char] by {
      assert Bytes("\U{E9}"[1..]) == [];
    }
    KeyBufferKeeps(ones + "\U{E9}");
    assert (ones + [0xC3 as char, 0xA9 as char])[..49] == ones + [0xC3 as char];
  }

  lemma {:induction false} BytesAppend(a: string, b: string)
    ensures Bytes(a + b) == Bytes(a) + Bytes(b)
  {
    if a != [] {
      assert (a + b)[1..] == a[1..] + b;
      BytesAppend(a[1..], b);
    } else {
      assert a + b == b;
    }
  }

  lemma {:induction false} AsciiBytes(s: string)
    requires forall i :: 0 <= i < |s| ==> IsAscii(s[i])
    ensures Bytes(s) == s
  {
    if s != [] {
      AsciiBytes(s[1..]);
      assert s == [s[0]] + s[1..];
    }
  }

  lemma {:induction false} NoNulBytes(s: string)
    requires '\0' !in s
    ensures '\0' !in Bytes(s)
  {
    if s != [] {
      assert s[0] in s;
      assert forall c :: c in s[1..] ==> c in s;
      NoNulBytes(s[1..]);
    }
  }

  lemma {:induction false} NoNulKept(s: string)
    requires '\0' !in s
    ensures CString(s) == s
  {
    if s != [] {
      assert s[0] in s;
      assert forall c :: c in s[1..] ==> c in s;
      NoNulKept(s[1..]);
    }
  }
}
