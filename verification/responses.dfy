/** The text-enveloped answers to `CONFIG?` and `BATTERY?`: an ASCII prefix,
    a fixed-size binary payload, and two trailing bytes (CR LF on the wire;
    they are cut off unchecked). `clean_serial_response` strips the envelope,
    `struct.unpack` reads the payload, and `DeviceConfig` / `BatteryData`
    interpret it. */
module Responses {
  import opened Wrappers
  import opened PyBuiltins
  import opened Enums

  // ---------------------------------------------------------------------
  // Envelope
  // ---------------------------------------------------------------------

  /** `clean_serial_response(response, prefix, expected_len)`: the slice
      `response[len(prefix):-2]`, accepted only when the response starts
      with the encoded prefix and the slice has the expected length. The
      slice starts after `len(prefix)` characters, which is the encoded
      prefix's length for the ASCII prefixes the script uses. */
  function CleanSerialResponse(response: bytes, prefix: string, expectedLen: int): (r: Result<bytes>)
    ensures r.Err? ==> r.error == InvalidResponse(response)
    ensures r.Ok? ==> StartsWith(response, Encode(prefix)) && |r.value| == expectedLen
    ensures r.Ok? && expectedLen > 0 ==>
      |response| == |prefix| + expectedLen + 2 && r.value == response[|prefix|..|response| - 2]
  {
    MiddleSlice(response, |prefix|);
    var cleaned := Slice(response, |prefix|, -2);
    if !StartsWith(response, Encode(prefix)) || |cleaned| != expectedLen then
      Err(InvalidResponse(response))
    else
      Ok(cleaned)
  }

  /** The envelope, exactly: for an ASCII prefix and a positive length, a
      response is accepted with a given payload if and only if it is the
      prefix, then that payload of the expected length, then any two bytes. */
  lemma EnvelopeShape(response: bytes, prefix: string, expectedLen: int, payload: bytes)
    requires IsAscii(prefix) && expectedLen > 0
    ensures CleanSerialResponse(response, prefix, expectedLen) == Ok(payload) <==>
      |payload| == expectedLen &&
      exists tail: bytes :: |tail| == 2 && response == Encode(prefix) + payload + tail
  {
    EncodeAscii(prefix);
    var p := Encode(prefix);
    if CleanSerialResponse(response, prefix, expectedLen) == Ok(payload) {
      var tail := response[|response| - 2..];
      assert response == p + payload + tail;
    }
    if |payload| == expectedLen && exists tail: bytes :: |tail| == 2 && response == p + payload + tail {
      var tail: bytes :| |tail| == 2 && response == p + payload + tail;
      MiddleSlice(response, |prefix|);
      assert response[..|p|] == p;
      assert response[|prefix|..|response| - 2] == payload;
    }
  }

  // ---------------------------------------------------------------------
  // Device configuration
  // ---------------------------------------------------------------------

  const ConfigPrefix: string := "CONFIG "
  /** `struct.calcsize(">hBBBBBBB?")`: a 2-byte short and eight single bytes. */
  const ConfigSize: nat := 10

  /** `packaging.version.Version("{a}.{b}.{c}")` kept as its three numbers. */
  datatype Version = Version(major: byte, minor: byte, patch: byte)

  datatype DeviceConfig = DeviceConfig(
    dpiResolution: int,
    hardwareVersion: Version,
    secondFirmwareVersion: Version,
    timeoutSetting: TimeoutSetting,
    beepSetting: BeepSetting
  )

  /** struct's `>h`: a big-endian two's-complement 16-bit integer. */
  function Int16Big(hi: byte, lo: byte): (v: int)
    ensures -0x8000 <= v < 0x8000
    ensures (v + 0x1_0000) % 0x1_0000 == hi * 256 + lo
  {
    var u := hi * 256 + lo;
    if u >= 0x8000 then u - 0x1_0000 else u
  }

  /** The ten payload bytes a configuration was read from, with the beep
      flag written as 0 or 1: the reference layout. */
  function PackConfig(c: DeviceConfig): (b: bytes)
    requires -0x8000 <= c.dpiResolution < 0x8000
    ensures |b| == ConfigSize
  {
    var u := (c.dpiResolution + 0x1_0000) % 0x1_0000;
    [ u / 256, u % 256,
      c.hardwareVersion.major, c.hardwareVersion.minor, c.hardwareVersion.patch,
      c.secondFirmwareVersion.major, c.secondFirmwareVersion.minor, c.secondFirmwareVersion.patch,
      TimeoutValue(c.timeoutSetting), BeepValue(c.beepSetting) ]
  }

  /** `struct.unpack(">hBBBBBBB?", payload)` followed by `DeviceConfig(...)`:
      the timeout byte must be a TimeoutSetting value; the beep byte is a
      bool (any nonzero byte is true) and so always a BeepSetting. */
  function UnpackConfig(payload: bytes): (r: Result<DeviceConfig>)
    ensures r.Ok? <==> |payload| == ConfigSize && payload[8] <= 3
    ensures |payload| != ConfigSize ==> r == Err(StructSize(ConfigSize, |payload|))
    ensures |payload| == ConfigSize && payload[8] > 3 ==> r == Err(NotEnumMember("TimeoutSetting", payload[8]))
    ensures r.Ok? ==> -0x8000 <= r.value.dpiResolution < 0x8000
  {
    if |payload| != ConfigSize then Err(StructSize(ConfigSize, |payload|))
    else
      var timeout :- Member(TimeoutOf(payload[8]), "TimeoutSetting", payload[8]);
      Ok(DeviceConfig(
        Int16Big(payload[0], payload[1]),
        Version(payload[2], payload[3], payload[4]),
        Version(payload[5], payload[6], payload[7]),
        timeout,
        BeepOfBool(payload[9] != 0)))
  }

  /** Decoding keeps every byte of the payload, except that the beep byte
      collapses to 0 or 1 as a Python bool does. */
  lemma UnpackConfigKeepsPayload(payload: bytes)
    requires UnpackConfig(payload).Ok?
    ensures PackConfig(UnpackConfig(payload).value) == payload[..9] + [if payload[9] != 0 then 1 else 0]
  {
    var c := UnpackConfig(payload).value;
    var b := PackConfig(c);
    assert TimeoutValue(c.timeoutSetting) == payload[8];
    assert b[0] == payload[0] && b[1] == payload[1];
  }

  /** Every configuration whose resolution fits a short survives a trip
      through its payload. */
  lemma ConfigRoundTrip(c: DeviceConfig)
    requires -0x8000 <= c.dpiResolution < 0x8000
    ensures UnpackConfig(PackConfig(c)) == Ok(c)
  {
    ValuesRoundTrip();
    var b := PackConfig(c);
    assert Int16Big(b[0], b[1]) == c.dpiResolution;
  }

  /** `get_config()` once the transport has returned `response`. */
  function GetConfig(response: bytes): (r: Result<DeviceConfig>)
    ensures StartsWith(response, Encode(ConfigPrefix)) && |response| == |ConfigPrefix| + ConfigSize + 2 ==>
      r == UnpackConfig(response[|ConfigPrefix|..|response| - 2])
    ensures !(StartsWith(response, Encode(ConfigPrefix)) && |response| == |ConfigPrefix| + ConfigSize + 2) ==>
      r == Err(InvalidResponse(response))
  {
    MiddleSlice(response, |ConfigPrefix|);
    var payload :- CleanSerialResponse(response, ConfigPrefix, ConfigSize);
    UnpackConfig(payload)
  }

  /** A well-formed CONFIG answer decodes to the configuration it carries,
      whatever its last two bytes are. */
  lemma GetConfigOfEnvelope(c: DeviceConfig, tail: bytes)
    requires -0x8000 <= c.dpiResolution < 0x8000 && |tail| == 2
    ensures GetConfig(Encode(ConfigPrefix) + PackConfig(c) + tail) == Ok(c)
  {
    var response := Encode(ConfigPrefix) + PackConfig(c) + tail;
    assert IsAscii(ConfigPrefix);
    EnvelopeShape(response, ConfigPrefix, ConfigSize, PackConfig(c));
    ConfigRoundTrip(c);
  }

  /** Any ten payload bytes in a CONFIG envelope reach `UnpackConfig`, so
      the answer decodes exactly when the timeout byte is a setting, and any
      nonzero beep byte reads as on. */
  lemma GetConfigOfPayload(payload: bytes, tail: bytes)
    requires |payload| == ConfigSize && |tail| == 2
    ensures GetConfig(Encode(ConfigPrefix) + payload + tail) == UnpackConfig(payload)
    ensures GetConfig(Encode(ConfigPrefix) + payload + tail).Ok? <==> payload[8] <= 3
    ensures payload[8] <= 3 ==>
      (GetConfig(Encode(ConfigPrefix) + payload + tail).value.beepSetting == On <==> payload[9] != 0)
  {
    var response := Encode(ConfigPrefix) + payload + tail;
    assert IsAscii(ConfigPrefix);
    EnvelopeShape(response, ConfigPrefix, ConfigSize, payload);
  }

  // ---------------------------------------------------------------------
  // Battery
  // ---------------------------------------------------------------------

  const BatteryPrefix: string := "BATTERY "
  /** `struct.calcsize(">B?")`. */
  const BatterySize: nat := 2

  datatype BatteryData = BatteryData(batteryLevel: nat, charging: bool)

  /** `((b >> 4) & 0x0F) * 10 + (b & 0x0F)`: the high nibble counts tens and
      the low nibble ones, whether or not each is a decimal digit. */
  function BatteryLevel(b: byte): (level: nat)
    ensures level <= 165
  {
    ((b / 16) % 16) * 10 + b % 16
  }

  /** A byte whose two nibbles are decimal digits. */
  predicate IsBcd(b: byte)
  {
    b / 16 <= 9 && b % 16 <= 9
  }

  /** The binary-coded-decimal byte of a percentage below 100: the
      reference encoding the level is read against. */
  function ToBcd(n: nat): (b: byte)
    requires n < 100
    ensures IsBcd(b)
  {
    (n / 10) * 16 + n % 10
  }

  /** On binary-coded-decimal bytes the level is exactly the two-digit
      number they encode, and every such byte is the encoding of its level. */
  lemma BatteryLevelReadsBcd(n: nat, b: byte)
    requires n < 100
    ensures BatteryLevel(ToBcd(n)) == n
    ensures IsBcd(b) ==> BatteryLevel(b) < 100 && ToBcd(BatteryLevel(b)) == b
  {
    var t, u := n / 10, n % 10;
    assert ToBcd(n) == t * 16 + u;
    Nibbles(t, u);
    if IsBcd(b) {
      var hi, lo := b / 16, b % 16;
      assert BatteryLevel(b) == hi * 10 + lo;
      assert (hi * 10 + lo) / 10 == hi && (hi * 10 + lo) % 10 == lo;
    }
  }

  /** Splitting a byte into nibbles undoes putting it together. */
  lemma Nibbles(hi: nat, lo: nat)
    requires hi < 16 && lo < 16
    ensures (hi * 16 + lo) / 16 == hi && (hi * 16 + lo) % 16 == lo
  {
  }

  lemma BatteryLevelExamples()
    ensures BatteryLevel(0x42) == 42
    ensures BatteryLevel(0x99) == 99
    ensures BatteryLevel(0xFF) == 165
  {
  }

  /** `struct.unpack(">B?", payload)` followed by `BatteryData(...)`. */
  function UnpackBattery(payload: bytes): (r: Result<BatteryData>)
    ensures r.Ok? <==> |payload| == BatterySize
    ensures r.Err? ==> r.error == StructSize(BatterySize, |payload|)
    ensures r.Ok? ==> (r.value.charging <==> payload[1] != 0)
    ensures r.Ok? ==> r.value.batteryLevel <= 165
  {
    if |payload| != BatterySize then Err(StructSize(BatterySize, |payload|))
    else
      Ok(BatteryData(BatteryLevel(payload[0]), payload[1] != 0))
  }

  /** `get_battery()` once the transport has returned `response`. */
  function GetBattery(response: bytes): (r: Result<BatteryData>)
    ensures r.Ok? <==> StartsWith(response, Encode(BatteryPrefix)) && |response| == |BatteryPrefix| + BatterySize + 2
    ensures r.Ok? ==> (r.value.charging <==> response[|BatteryPrefix| + 1] != 0)
    ensures r.Ok? ==> r.value.batteryLevel == BatteryLevel(response[|BatteryPrefix|])
  {
    MiddleSlice(response, |BatteryPrefix|);
    var payload :- CleanSerialResponse(response, BatteryPrefix, BatterySize);
    UnpackBattery(payload)
  }

  /** A BATTERY answer carrying a percentage below 100 in binary-coded
      decimal and a charging flag decodes to that percentage and flag,
      whatever its last two bytes are. */
  lemma GetBatteryOfEnvelope(level: nat, charging: bool, tail: bytes)
    requires level < 100 && |tail| == 2
    ensures GetBattery(Encode(BatteryPrefix) + [ToBcd(level), if charging then 1 else 0] + tail)
         == Ok(BatteryData(level, charging))
  {
    var payload: bytes := [ToBcd(level), if charging then 1 else 0];
    var response := Encode(BatteryPrefix) + payload + tail;
    assert IsAscii(BatteryPrefix);
    EnvelopeShape(response, BatteryPrefix, BatterySize, payload);
    BatteryLevelReadsBcd(level, 0);
  }

  // ---------------------------------------------------------------------
  // Readiness
  // ---------------------------------------------------------------------

  /** `get_readiness_status()` once the transport has returned `response`:
      `struct.unpack(">B")` demands exactly one byte, which must be a
      PrinterReadinessStatus value. */
  function GetReadinessStatus(response: bytes): (r: Result<ReadinessStatus>)
    ensures r.Ok? <==> |response| == 1 && ReadinessOf(response[0]).Some?
    ensures |response| != 1 ==> r == Err(StructSize(1, |response|))
    ensures r.Ok? ==> ReadinessValue(r.value) == response[0]
  {
    if |response| != 1 then Err(StructSize(1, |response|))
    else Member(ReadinessOf(response[0]), "PrinterReadinessStatus", response[0])
  }

  /** Each readiness state is recognised from its one-byte answer. */
  lemma ReadinessAnswerRoundTrip(s: ReadinessStatus)
    ensures GetReadinessStatus([ReadinessValue(s)]) == Ok(s)
  {
    ValuesRoundTrip();
  }

  // ---------------------------------------------------------------------
  // Rendering
  // ---------------------------------------------------------------------

  /** The note printed while charging, since the printer then reports a
      fixed level. */
  const Unplug: string := "Unplug"
  const UnplugNote: string := Unplug + " the printer to get a current battery reading."

  /** The nested `ChargingString` class applied to the unpacked bool. */
  function ChargingName(charging: bool): string
  {
    if charging then "Charging" else "Not Charging"
  }

  /** The two lines every rendering starts with. */
  function BatteryLines(d: BatteryData): string
  {
    LevelLead + Str(d.batteryLevel) + "%\n" + "Charging: " + ChargingName(d.charging)
  }

  const LevelLead: string := "Battery Level: "

  /** `str(battery)`. The first line reads the level back: the numeral
      after "Battery Level: " parses to the level and ends at the percent
      sign. */
  function BatteryText(d: BatteryData): (t: string)
    ensures var num := Str(d.batteryLevel);
      && |LevelLead| + |num| < |t|
      && t[..|LevelLead|] == LevelLead
      && ParseDecimal(t[|LevelLead|..|LevelLead| + |num|]) == Some(d.batteryLevel as int)
      && t[|LevelLead| + |num|] == '%'
  {
    var num := Str(d.batteryLevel);
    StrRoundTrip(d.batteryLevel);
    assert BatteryLines(d) == LevelLead + num + ("%\n" + "Charging: " + ChargingName(d.charging));
    var lines := BatteryLines(d);
    assert lines[|LevelLead|..|LevelLead| + |num|] == num;
    var t := if d.charging then lines + "\n" + UnplugNote else lines;
    assert t[..|lines|] == lines;
    assert t[|LevelLead|..|LevelLead| + |num|] == lines[|LevelLead|..|LevelLead| + |num|];
    t
  }

  lemma BatteryLinesLackCapitalU(d: BatteryData)
    ensures 'U' !in BatteryLines(d)
  {
    NumeralsAreLowerCase(d.batteryLevel);
  }

  lemma UnplugNoteHasCapitalU()
    ensures 'U' in UnplugNote
  {
    assert UnplugNote[0] == Unplug[0];
  }

  /** The rendering asks to unplug the printer exactly when it is charging. */
  lemma UnplugNoteIffCharging(d: BatteryData)
    ensures Contains(BatteryText(d), UnplugNote) <==> d.charging
  {
    if d.charging {
      ContainsPlaced(BatteryLines(d) + "\n", UnplugNote, "");
      assert BatteryLines(d) + "\n" + UnplugNote + "" == BatteryText(d);
    } else {
      BatteryLinesLackCapitalU(d);
      UnplugNoteHasCapitalU();
      MissingCharExcludes(BatteryLines(d), UnplugNote, 'U');
    }
  }
}
