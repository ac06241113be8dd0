/** The panel clock as the time callback receives it: `"%04d-%02d-%02d %02d:%02d"`, sent only
    when every field is in calendar range. */
module PanelClock {
  import opened Keybus

  /** The decimal digit character for `d`. */
  function DigitChar(d: nat): char
    requires d < 10
  {
    (48 + d) as char
  }

  predicate IsDigit(c: char) {
    '0' <= c <= '9'
  }

  function Pow10(n: nat): (p: nat)
    ensures p >= 1
  {
    if n == 0 then 1 else 10 * Pow10(n - 1)
  }

  /** `%0<width>d` for a value below 10^width: exactly `width` digits, zero padded. */
  function Padded(n: nat, width: nat): (r: string)
    ensures |r| == width
    ensures forall i :: 0 <= i < |r| ==> IsDigit(r[i])
  {
    if width == 0 then [] else Padded(n / 10, width - 1) + [DigitChar(n % 10)]
  }

  /** The value of a string of decimal digits. */
  function DecimalValue(s: string): nat
    requires forall i :: 0 <= i < |s| ==> IsDigit(s[i])
  {
    if s == [] then 0
    else
      assert IsDigit(s[|s| - 1]);
      10 * DecimalValue(s[..|s| - 1]) + (s[|s| - 1] as int - 48)
  }

  /** Zero padding loses nothing: a value below 10^width reads back from its padded digits. */
  lemma {:induction false} PaddedRoundTrip(n: nat, width: nat)
    requires n < Pow10(width)
    ensures DecimalValue(Padded(n, width)) == n
  {
    if width > 0 {
      PaddedRoundTrip(n / 10, width - 1);
      var r := Padded(n, width);
      assert r[..|r| - 1] == Padded(n / 10, width - 1);
    }
  }

  /** The guard of the time callback: year 0..9999, month 1..12, day 1..31, hour 0..23,
      minute 0..59. */
  predicate ValidTime(year: int, month: int, day: int, hour: int, minute: int): (ok: bool)
    ensures ok ==> year < Pow10(4) && month < Pow10(2) && day < Pow10(2) && hour < Pow10(2) &&
                   minute < Pow10(2)
  {
    0 <= year <= 9999 && 0 < month < 13 && 0 < day < 32 && 0 <= hour < 24 && 0 <= minute < 60
  }

  /** The panel time text, or nothing when a field is out of range. */
  function PanelTime(year: int, month: int, day: int, hour: int, minute: int): (r: Option<string>)
    ensures r.Some? <==> ValidTime(year, month, day, hour, minute)
    ensures r.Some? ==> |r.value| == 16
  {
    if ValidTime(year, month, day, hour, minute) then
      Some(Padded(year, 4) + "-" + Padded(month, 2) + "-" + Padded(day, 2) + " " +
           Padded(hour, 2) + ":" + Padded(minute, 2))
    else
      None
  }


  /** Where the fields and separators of a `"%04d-%02d-%02d %02d:%02d"` text sit. */
  lemma TimeLayout(y: string, mo: string, d: string, h: string, mi: string)
    requires |y| == 4 && |mo| == 2 && |d| == 2 && |h| == 2 && |mi| == 2
    ensures var t := y + "-" + mo + "-" + d + " " + h + ":" + mi;
      |t| == 16 && t[4] == '-' && t[7] == '-' && t[10] == ' ' && t[13] == ':' &&
      t[0..4] == y && t[5..7] == mo && t[8..10] == d && t[11..13] == h && t[14..16] == mi
  {
    var a := y + "-" + mo + "-";
    var b := d + " " + h + ":" + mi;
    assert |a| == 8 && a[4] == '-' && a[7] == '-' && a[0..4] == y && a[5..7] == mo;
    assert |b| == 8 && b[2] == ' ' && b[5] == ':' && b[0..2] == d && b[3..5] == h && b[6..8] == mi;
    var t := y + "-" + mo + "-" + d + " " + h + ":" + mi;
    assert t == a + b;
  }

  /** Every field of a sent time reads back from its fixed position in the text. */
  lemma {:induction false} PanelTimeRoundTrip(year: int, month: int, day: int, hour: int, minute: int)
    requires ValidTime(year, month, day, hour, minute)
    ensures var t := PanelTime(year, month, day, hour, minute).value;
      t[4] == '-' && t[7] == '-' && t[10] == ' ' && t[13] == ':' &&
      DecimalValue(t[0..4]) == year && DecimalValue(t[5..7]) == month &&
      DecimalValue(t[8..10]) == day && DecimalValue(t[11..13]) == hour &&
      DecimalValue(t[14..16]) == minute
  {
    assert Pow10(2) == 100 && Pow10(4) == 10000;
    TimeLayout(Padded(year, 4), Padded(month, 2), Padded(day, 2), Padded(hour, 2), Padded(minute, 2));
    PaddedRoundTrip(year, 4);
    PaddedRoundTrip(month, 2);
    PaddedRoundTrip(day, 2);
    PaddedRoundTrip(hour, 2);
    PaddedRoundTrip(minute, 2);
  }

  /** The time of the documented sample is sent as `2024-03-15 09:30`. */
  lemma {:induction false} PanelTimeSample()
    ensures PanelTime(2024, 3, 15, 9, 30) == Some("2024-03-15 09:30")
  {
    SampleFields();
    var t := PanelTime(2024, 3, 15, 9, 30).value;
    assert t == "2024" + "-" + "03" + "-" + "15" + " " + "09" + ":" + "30";
    var a := "2024" + "-" + "03" + "-";
    var b := "15" + " " + "09" + ":" + "30";
    assert t == a + b;
    assert a == "2024-03-" && b == "15 09:30";
    assert a + b == "2024-03-15 09:30";
  }

  /** The padded fields of the sample time. */
  lemma SampleFields()
    ensures Padded(2024, 4) == "2024"
    ensures Padded(3, 2) == "03" && Padded(15, 2) == "15"
    ensures Padded(9, 2) == "09" && Padded(30, 2) == "30"
  {
    assert Padded(2, 1) == "2" && Padded(20, 2) == "20" && Padded(202, 3) == "202";
  }

  /** A month of 13, a day of 0 or a five-digit year suppresses the time event. */
  lemma PanelTimeRejects()
    ensures PanelTime(2024, 13, 15, 9, 30) == None
    ensures PanelTime(2024, 3, 0, 9, 30) == None
    ensures PanelTime(10000, 3, 15, 9, 30) == None
  {
  }
}
