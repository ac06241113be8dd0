/** The panel status codes shown on the keypad, and the status message sent for a partition
    (`notifyPartitionStatusMessage`): two upper-case hex digits, a colon, a space and the label. */
module StatusCodes {
  import opened Keybus

  /** `statusText`: the keypad label of a raw status code; codes the table does not list read
      "Unknown".  The one switch of the source is written here as four sub-tables by code
      range, each with its own default. */
  function StatusText(code: byte): (r: string)
    ensures r != ""
  {
    if code < 0x80 then PanelStateText(code)
    else if code < 0xB0 then MenuText(code)
    else if code < 0xE0 then ServiceText(code)
    else InputText(code)
  }

  /** Codes 0x00 to 0x7F: panel states: ready, arming, delays, alarms. */
  function PanelStateText(code: byte): string {
    match code

    case 0x01 => "Ready"
    case 0x02 => "Stay zones open"
    case 0x03 => "Zones open"
    case 0x04 => "Armed stay"
    case 0x05 => "Armed away"
    case 0x06 => "No entry delay"
    case 0x07 => "Failed to arm"
    case 0x08 => "Exit delay"
    case 0x09 => "No entry delay"
    case 0x0B => "Quick exit"
    case 0x0C => "Entry delay"
    case 0x0D => "Alarm memory"
    case 0x10 => "Keypad lockout"
    case 0x11 => "Alarm"
    case 0x14 => "Auto-arm"
    case 0x15 => "Arm with bypass"
    case 0x16 => "No entry delay"
    case 0x17 => "Power failure"
    case 0x22 => "Alarm memory"
    case 0x33 => "Busy"
    case 0x3D => "Disarmed"
    case 0x3E => "Disarmed"
    case 0x40 => "Keypad blanked"
    case _ => "Unknown"
  }

  const ReadyCodes: set<byte> :=
    {0x01, 0x02, 0x03, 0x04, 0x05, 0x06, 0x07, 0x08, 0x09, 0x0B, 0x0C, 0x0D,
     0x10, 0x11, 0x14, 0x15, 0x16, 0x17, 0x22, 0x33, 0x3D, 0x3E, 0x40}

  lemma ReadyCodesLabelled(code: byte)
    requires 0x00 <= code as int < 0x80
    ensures PanelStateText(code) == "Unknown" <==> code !in ReadyCodes
  {
  }

  /** Codes 0x80 to 0xAF: keypad menus and prompts. */
  function MenuText(code: byte): string {
    match code

    case 0x8A => "Activate zones"
    case 0x8B => "Quick exit"
    case 0x8E => "Invalid option"
    case 0x8F => "Invalid code"
    case 0x9E => "Enter * code"
    case 0x9F => "Access code"
    case 0xA0 => "Zone bypass"
    case 0xA1 => "Trouble menu"
    case 0xA2 => "Alarm memory"
    case 0xA3 => "Door chime on"
    case 0xA4 => "Door chime off"
    case 0xA5 => "Master code"
    case 0xA6 => "Access codes"
    case 0xA7 => "Enter new code"
    case 0xA9 => "User function"
    case 0xAA => "Time and Date"
    case 0xAB => "Auto-arm time"
    case 0xAC => "Auto-arm on"
    case 0xAD => "Auto-arm off"
    case 0xAF => "System test"
    case _ => "Unknown"
  }

  const MenuCodes: set<byte> :=
    {0x8A, 0x8B, 0x8E, 0x8F, 0x9E, 0x9F, 0xA0, 0xA1, 0xA2, 0xA3, 0xA4, 0xA5,
     0xA6, 0xA7, 0xA9, 0xAA, 0xAB, 0xAC, 0xAD, 0xAF}

  lemma MenuCodesLabelled(code: byte)
    requires 0x80 <= code as int < 0xB0
    ensures MenuText(code) == "Unknown" <==> code !in MenuCodes
  {
  }

  /** Codes 0xB0 to 0xDF: service and trouble menus. */
  function ServiceText(code: byte): string {
    match code

    case 0xB0 => "Enable DLS"
    case 0xB2 => "Command output"
    case 0xB7 => "Installer code"
    case 0xB8 => "Enter * code"
    case 0xB9 => "Zone tamper"
    case 0xBA => "Zones low batt."
    case 0xC6 => "Zone fault menu"
    case 0xC8 => "Service required"
    case 0xD0 => "Keypads low batt"
    case 0xD1 => "Wireless low bat"
    case _ => "Unknown"
  }

  const ServiceCodes: set<byte> :=
    {0xB0, 0xB2, 0xB7, 0xB8, 0xB9, 0xBA, 0xC6, 0xC8, 0xD0, 0xD1}

  lemma ServiceCodesLabelled(code: byte)
    requires 0xB0 <= code as int < 0xE0
    ensures ServiceText(code) == "Unknown" <==> code !in ServiceCodes
  {
  }

  /** Codes 0xE0 to 0xFF: input prompts, function keys and the disabled code. */
  function InputText(code: byte): string {
    match code

    case 0xE4 => "Installer menu"
    case 0xE5 => "Keypad slot"
    case 0xE6 => "Input: 2 digits"
    case 0xE7 => "Input: 3 digits"
    case 0xE8 => "Input: 4 digits"
    case 0xEA => "Code: 2 digits"
    case 0xEB => "Code: 4 digits"
    case 0xEC => "Input: 6 digits"
    case 0xED => "Input: 32 digits"
    case 0xEE => "Input: option"
    case 0xF0 => "Function key 1"
    case 0xF1 => "Function key 2"
    case 0xF2 => "Function key 3"
    case 0xF3 => "Function key 4"
    case 0xF4 => "Function key 5"
    case 0xF8 => "Keypad program"
    case 0xFF => "Disabled"
    case _ => "Unknown"
  }

  const InputCodes: set<byte> :=
    {0xE4, 0xE5, 0xE6, 0xE7, 0xE8, 0xEA, 0xEB, 0xEC, 0xED, 0xEE, 0xF0, 0xF1,
     0xF2, 0xF3, 0xF4, 0xF8, 0xFF}

  lemma InputCodesLabelled(code: byte)
    requires 0xE0 <= code as int < 0x100
    ensures InputText(code) == "Unknown" <==> code !in InputCodes
  {
  }

  /** The codes the table lists, each looked up in the set for its range. */
  predicate Listed(code: byte) {
    if code < 0x80 then code in ReadyCodes
    else if code < 0xB0 then code in MenuCodes
    else if code < 0xE0 then code in ServiceCodes
    else code in InputCodes
  }

  /** The table is total: a code reads "Unknown" exactly when the table does not list it. */
  lemma {:induction false} UnknownIffUnlisted(code: byte)
    ensures StatusText(code) == "Unknown" <==> !Listed(code)
  {
    if code < 0x80 {
      ReadyCodesLabelled(code);
    } else if code < 0xB0 {
      MenuCodesLabelled(code);
    } else if code < 0xE0 {
      ServiceCodesLabelled(code);
    } else {
      InputCodesLabelled(code);
    }
  }

  /** The two disarmed codes are the only codes labelled "Disarmed". */
  lemma DisarmedCodes(code: byte)
    ensures StatusText(code) == "Disarmed" <==> code == 0x3D || code == 0x3E
  {
  }

  lemma StatusTextSamples()
    ensures StatusText(0x01) == "Ready"
    ensures StatusText(0x05) == "Armed away"
    ensures StatusText(0x3D) == "Disarmed" && StatusText(0x3E) == "Disarmed"
    ensures StatusText(0xFF) == "Disabled"
    ensures StatusText(0x7C) == "Unknown"
  {
  }

  /** One upper-case hexadecimal digit. */
  function HexDigit(d: nat): (c: char)
    requires d < 16
    ensures IsHexDigit(c) && HexValue(c) == d
  {
    if d < 10 then (48 + d) as char else (55 + d) as char
  }

  predicate IsHexDigit(c: char) {
    '0' <= c <= '9' || 'A' <= c <= 'F'
  }

  /** The value of an upper-case hexadecimal digit. */
  function HexValue(c: char): nat
    requires IsHexDigit(c)
  {
    if c <= '9' then c as int - 48 else c as int - 55
  }

  /** `%02X`: a byte as exactly two upper-case hexadecimal digits, high nibble first. */
  function Hex2(b: byte): (r: string)
    ensures |r| == 2 && IsHexDigit(r[0]) && IsHexDigit(r[1])
    ensures HexValue(r[0]) * 16 + HexValue(r[1]) == b as int
  {
    [HexDigit(b as int / 16), HexDigit(b as int % 16)]
  }

  /** The status message text for a status code: `"%02X: "` followed by the label. */
  function StatusMessage(code: byte): (r: string)
    ensures |r| >= 4 && IsHexDigit(r[0]) && IsHexDigit(r[1]) && r[2..4] == ": "
    ensures r[4..] == StatusText(code)
  {
    Hex2(code) + ": " + StatusText(code)
  }

  /** Reads a status message back into its code and label. */
  function ParseStatusMessage(msg: string): Option<(byte, string)> {
    if |msg| >= 4 && IsHexDigit(msg[0]) && IsHexDigit(msg[1]) && msg[2..4] == ": " then
      Some(((HexValue(msg[0]) * 16 + HexValue(msg[1])) as byte, msg[4..]))
    else
      None
  }


  /** The message carries its code and its label, and reads back as both. */
  lemma {:induction false} StatusMessageRoundTrip(code: byte)
    ensures ParseStatusMessage(StatusMessage(code)) == Some((code, StatusText(code)))
  {
    var m := StatusMessage(code);
    assert m[..2] == Hex2(code) && m[2..4] == ": " && m[4..] == StatusText(code);
  }
}
