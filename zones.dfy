/** The zone bitmap differ: the driver packs up to 64 zones 8 to a byte, `openZones[g]` (or
    `alarmZones[g]`) holding the current state and `openZonesChanged[g]` (or
    `alarmZonesChanged[g]`) marking the zones that changed.  Bit `b` of group `g` is zone
    `g*8 + b + 1`.  Both streams use the same fan-out, specified here once. */
module Zones {
  import opened Keybus

  /** `bitRead(mask, b)`. */
  function Bit(mask: byte, b: nat): bool
    requires b < 8
  {
    (mask >> b) & 1 == 1
  }

  /** One zone transition as the sink sees it: the 1-based zone number and its current bit. */
  datatype ZoneChange = ZoneChange(zone: nat, on: bool)

  /** The group and the bit a 1-based zone number lives in. */
  function GroupOf(zone: nat): nat
    requires zone >= 1
  {
    (zone - 1) / 8
  }

  function BitOf(zone: nat): nat
    requires zone >= 1
    ensures BitOf(zone) < 8
  {
    (zone - 1) % 8
  }

  /** The transitions for bits `0 .. b-1` of group `g`, lowest bit first. */
  function GroupChanges(g: nat, changed: byte, values: byte, b: nat): (r: seq<ZoneChange>)
    requires b <= 8
    ensures |r| <= b
  {
    if b == 0 then []
    else GroupChanges(g, changed, values, b - 1) +
         (if Bit(changed, b - 1) then [ZoneChange(g * 8 + b, Bit(values, b - 1))] else [])
  }

  /** The transitions for groups `0 .. n-1`, lowest zone first. */
  function ZoneChanges(changed: seq<byte>, values: seq<byte>, n: nat): (r: seq<ZoneChange>)
    requires n <= |changed| && n <= |values|
    ensures |r| <= 8 * n
  {
    if n == 0 then []
    else ZoneChanges(changed, values, n - 1) + GroupChanges(n - 1, changed[n - 1], values[n - 1], 8)
  }

  /** The reference reading of the bitmaps: `e` is reported exactly when its zone lies in the
      first `n` groups, its changed bit is set and it carries its value bit. */
  ghost predicate Reported(changed: seq<byte>, values: seq<byte>, n: nat, e: ZoneChange)
    requires n <= |changed| && n <= |values|
  {
    1 <= e.zone <= n * 8 &&
    Bit(changed[GroupOf(e.zone)], BitOf(e.zone)) &&
    e.on == Bit(values[GroupOf(e.zone)], BitOf(e.zone))
  }

  /** Zone numbers strictly increase along the sequence (so no zone is reported twice). */
  ghost predicate Ascending(zs: seq<ZoneChange>) {
    forall i, j :: 0 <= i < j < |zs| ==> zs[i].zone < zs[j].zone
  }

  lemma {:induction false} GroupChangesMembers(g: nat, changed: byte, values: byte, b: nat, e: ZoneChange)
    requires b <= 8
    ensures e in GroupChanges(g, changed, values, b) <==>
              g * 8 < e.zone <= g * 8 + b &&
              Bit(changed, e.zone - g * 8 - 1) && e.on == Bit(values, e.zone - g * 8 - 1)
  {
    if b > 0 {
      GroupChangesMembers(g, changed, values, b - 1, e);
    }
  }

  lemma {:induction false} GroupChangesAscending(g: nat, changed: byte, values: byte, b: nat)
    requires b <= 8
    ensures Ascending(GroupChanges(g, changed, values, b))
    ensures forall e :: e in GroupChanges(g, changed, values, b) ==> g * 8 < e.zone <= g * 8 + b
  {
    if b > 0 {
      GroupChangesAscending(g, changed, values, b - 1);
    }
  }

  /** Each reported transition is exactly one set changed bit carrying its value bit, and every
      set changed bit is reported. */
  lemma {:induction false} ZoneChangesMembers(changed: seq<byte>, values: seq<byte>, n: nat, e: ZoneChange)
    requires n <= |changed| && n <= |values|
    ensures e in ZoneChanges(changed, values, n) <==> Reported(changed, values, n, e)
  {
    if n > 0 {
      ZoneChangesMembers(changed, values, n - 1, e);
      LastGroupMembers(changed, values, n, e);
      assert e in ZoneChanges(changed, values, n) <==>
             e in ZoneChanges(changed, values, n - 1) || e in GroupChanges(n - 1, changed[n - 1], values[n - 1], 8);
    }
  }

  /** The transitions of group `n-1` are the reported ones whose zone lies in that group. */
  lemma LastGroupMembers(changed: seq<byte>, values: seq<byte>, n: nat, e: ZoneChange)
    requires 0 < n <= |changed| && n <= |values|
    ensures e in GroupChanges(n - 1, changed[n - 1], values[n - 1], 8) <==>
              (n - 1) * 8 < e.zone && Reported(changed, values, n, e)
  {
    var g := n - 1;
    GroupChangesMembers(g, changed[g], values[g], 8, e);
    if g * 8 < e.zone <= g * 8 + 8 {
      ZoneInGroup(g, e.zone);
    }
  }

  /** A zone number in `g*8+1 .. g*8+8` lives in group `g`, at bit `zone - g*8 - 1`. */
  lemma ZoneInGroup(g: nat, zone: nat)
    requires g * 8 < zone <= g * 8 + 8
    ensures GroupOf(zone) == g && BitOf(zone) == zone - g * 8 - 1
  {
    var k := zone - g * 8 - 1;
    assert zone - 1 == g * 8 + k && 0 <= k < 8;
  }

  /** Zones are reported in ascending order, and within the first `n` groups. */
  lemma {:induction false} ZoneChangesAscending(changed: seq<byte>, values: seq<byte>, n: nat)
    requires n <= |changed| && n <= |values|
    ensures Ascending(ZoneChanges(changed, values, n))
    ensures forall e :: e in ZoneChanges(changed, values, n) ==> 1 <= e.zone <= n * 8
  {
    if n > 0 {
      ZoneChangesAscending(changed, values, n - 1);
      GroupChangesAscending(n - 1, changed[n - 1], values[n - 1], 8);
      var front: seq<ZoneChange> := ZoneChanges(changed, values, n - 1);
      var back: seq<ZoneChange> := GroupChanges(n - 1, changed[n - 1], values[n - 1], 8);
      forall i, j | 0 <= i < j < |front + back|
        ensures (front + back)[i].zone < (front + back)[j].zone
      {
        if j >= |front| && i < |front| {
          assert front[i] in front && back[j - |front|] in back;
        }
      }
    }
  }

  lemma {:induction false} ClearGroupNoChanges(g: nat, values: byte, b: nat)
    requires b <= 8
    ensures GroupChanges(g, 0, values, b) == []
  {
    if b > 0 {
      ClearGroupNoChanges(g, values, b - 1);
    }
  }

  /** All-zero changed masks yield no transitions. */
  lemma {:induction false} NoChangedBitsNoChanges(changed: seq<byte>, values: seq<byte>, n: nat)
    requires n <= |changed| && n <= |values|
    requires forall g :: 0 <= g < n ==> changed[g] == 0
    ensures ZoneChanges(changed, values, n) == []
  {
    if n > 0 {
      NoChangedBitsNoChanges(changed, values, n - 1);
      ClearGroupNoChanges(n - 1, values[n - 1], 8);
    }
  }
}
