/** What the script writes to the printer: text commands framed with CR LF
    by `send_command`, the one-setting commands built by
    `get_timeout_command` and `get_beep_command`, and the binary print job
    built by `build_print_command` around a bitmap padded with 0xFF. */
module Commands {
  import opened Wrappers
  import opened PyBuiltins
  import opened Enums

  const CrLf: bytes := [13, 10]
  const Esc: string := [27 as char]

  // ---------------------------------------------------------------------
  // Text framing
  // ---------------------------------------------------------------------

  /** `send_command(command)` with `encode=True` writes `f"{command}\r\n".encode()`:
      the command's UTF-8 bytes followed by CR LF, whatever the command
      already ends with. */
  function FrameText(command: string): (b: bytes)
    ensures b == Encode(command) + CrLf
  {
    EncodeAppend(command, "\r\n");
    Encode(command + "\r\n")
  }

  /** An ASCII command goes out character for character, then CR LF. */
  lemma FrameTextReadsBack(command: string)
    requires IsAscii(command)
    ensures DecodeLatin1(FrameText(command)) == command + "\r\n"
  {
    assert IsAscii(command + "\r\n");
    AsciiRoundTrip(command + "\r\n");
  }

  /** The queries the script sends through `send_command`. */
  const StatusQuery: string := Esc + "!o\r\n"
  const ReadinessQuery: string := Esc + "!?"
  const ConfigQuery: string := "CONFIG?"
  const BatteryQuery: string := "BATTERY?"

  /** The status query already carries its CR LF, so framing it sends two. */
  lemma StatusQueryFrame()
    ensures FrameText(StatusQuery) == [27, 0x21, 0x6F, 13, 10, 13, 10]
  {
    assert IsAscii(StatusQuery);
    EncodeAscii(StatusQuery);
  }

  /** The readiness query gets the only CR LF it has from the framing. */
  lemma ReadinessQueryFrame()
    ensures FrameText(ReadinessQuery) == [27, 0x21, 0x3F, 13, 10]
  {
    assert IsAscii(ReadinessQuery);
    EncodeAscii(ReadinessQuery);
  }

  /** The two queries answered by a text envelope go out as their ASCII
      letters, a question mark and CR LF. */
  lemma ReplyQueryFrames()
    ensures FrameText(ConfigQuery) == [0x43, 0x4F, 0x4E, 0x46, 0x49, 0x47, 0x3F, 13, 10]
    ensures FrameText(BatteryQuery) == [0x42, 0x41, 0x54, 0x54, 0x45, 0x52, 0x59, 0x3F, 13, 10]
  {
    assert IsAscii(ConfigQuery) && IsAscii(BatteryQuery);
    EncodeAscii(ConfigQuery);
    EncodeAscii(BatteryQuery);
  }

  // ---------------------------------------------------------------------
  // Setting commands
  // ---------------------------------------------------------------------

  /** How a one-setting command reads: the keyword, a space, and a single
      character whose code is the setting's value. */
  function SettingArgument(command: string, keyword: string): (r: Option<char>)
    ensures r.Some? <==> exists c :: command == keyword + " " + [c]
    ensures r.Some? ==> command == keyword + " " + [r.value]
  {
    if |command| == |keyword| + 2 && command[..|keyword| + 1] == keyword + " " then
      assert command == command[..|keyword| + 1] + [command[|keyword| + 1]];
      Some(command[|keyword| + 1])
    else
      None
  }

  /** The `match timeout` of `get_timeout_command`. */
  function TimeoutSettingOfMinutes(timeout: int): (r: Option<TimeoutSetting>)
    ensures r.Some? <==> timeout == 0 || timeout == 15 || timeout == 30 || timeout == 60
    ensures r.Some? ==> TimeoutMinutes(r.value) == timeout
  {
    if timeout == 0 then Some(Never)
    else if timeout == 15 then Some(Minutes15)
    else if timeout == 30 then Some(Minutes30)
    else if timeout == 60 then Some(Minutes60)
    else None
  }

  /** `get_timeout_command(timeout)`: "TIMEOUT " and the character whose code
      is the setting's value; None (after a message) for any other number
      of minutes. */
  function TimeoutCommand(timeout: int): (r: Option<string>)
    ensures r.Some? <==> timeout == 0 || timeout == 15 || timeout == 30 || timeout == 60
    ensures r.Some? ==> |r.value| == 9 && r.value[..8] == "TIMEOUT "
  {
    match TimeoutSettingOfMinutes(timeout)
    case None => None
    case Some(t) => Some("TIMEOUT " + [TimeoutValue(t) as char])
  }

  /** The printer reads back from a timeout command exactly the setting
      whose idle time was asked for, and the wire carries the setting's
      value as one raw byte. */
  lemma TimeoutCommandRoundTrip(t: TimeoutSetting)
    ensures TimeoutCommand(TimeoutMinutes(t)).Some?
    ensures var cmd := TimeoutCommand(TimeoutMinutes(t)).value;
      && SettingArgument(cmd, "TIMEOUT").Some?
      && TimeoutOf(SettingArgument(cmd, "TIMEOUT").value as int) == Some(t)
      && FrameText(cmd) == Encode("TIMEOUT ") + [TimeoutValue(t)] + CrLf
  {
    ValuesRoundTrip();
    var cmd := TimeoutCommand(TimeoutMinutes(t)).value;
    assert cmd == "TIMEOUT " + [TimeoutValue(t) as char];
    EncodeAppend("TIMEOUT ", [TimeoutValue(t) as char]);
    assert Encode([TimeoutValue(t) as char]) == [TimeoutValue(t)];
  }

  /** `get_beep_command(beep)` for a bool: "BEEP " and the character whose
      code is the BeepSetting's value. */
  function BeepCommand(beep: bool): (r: string)
    ensures SettingArgument(r, "BEEP").Some?
  {
    "BEEP " + [BeepValue(BeepOfBool(beep)) as char]
  }

  /** The printer reads back the requested beep setting: on for true and
      off for false. */
  lemma BeepCommandRoundTrip(beep: bool)
    ensures BeepOf(SettingArgument(BeepCommand(beep), "BEEP").value as int) == Some(BeepOfBool(beep))
    ensures BeepOfBool(beep) == On <==> beep
  {
    ValuesRoundTrip();
    var arg := SettingArgument(BeepCommand(beep), "BEEP").value;
    assert BeepCommand(beep) == "BEEP " + [arg];
    assert BeepCommand(beep)[5] == arg;
  }

  /** The two beep commands agree in everything but their last character. */
  lemma BeepCommandsDifferInLastOnly()
    ensures |BeepCommand(true)| == |BeepCommand(false)| == 6
    ensures BeepCommand(true)[..5] == BeepCommand(false)[..5]
    ensures BeepCommand(true)[5] != BeepCommand(false)[5]
  {
  }

  // ---------------------------------------------------------------------
  // Print job
  // ---------------------------------------------------------------------

  /** The job header, beginning with the status query so that the printer
      answers the job with a status record. */
  const PrintHeader: string := StatusQuery + PrintSettings
  const PrintSettings: string := "SIZE 14.0 mm,40.0 mm\r\n" + "GAP 5.0 mm,0 mm\r\n" + "DIRECTION 1,1\r\n"
  const BitmapHeader: string := "BITMAP 0,0,12,284,1,"

  /** `build_print_command(imagedata, density, copies)`: no argument is
      checked or clamped; the image is copied as it is. */
  function BuildPrintCommand(image: bytes, density: int, copies: int): (b: bytes)
    ensures b == DensityLead + Encode(Str(density)) + BitmapLead + image + CopiesLead + Encode(Str(copies)) + CrLf
  {
    PrintCommandLayout(image, density, copies);
    Encode(PrintHeader) + Encode("DENSITY " + Str(density) + "\r\n") + Encode("CLS\r\n") + Encode(BitmapHeader)
      + image + Encode("\r\nPRINT " + Str(copies) + "\r\n")
  }

  /** The fixed byte runs between the variable parts of a print job. */
  const DensityLead: bytes := Encode(PrintHeader) + Encode("DENSITY ")
  const BitmapLead: bytes := CrLf + Encode("CLS\r\n") + Encode(BitmapHeader)
  const CopiesLead: bytes := CrLf + Encode("PRINT ")

  lemma DensityLineBytes(density: int)
    ensures Encode("DENSITY " + Str(density) + "\r\n") == Encode("DENSITY ") + Encode(Str(density)) + CrLf
  {
    assert Encode("\r\n") == CrLf;
    EncodeAppend("DENSITY " + Str(density), "\r\n");
    EncodeAppend("DENSITY ", Str(density));
  }

  lemma CopiesLineBytes(copies: int)
    ensures Encode("\r\nPRINT " + Str(copies) + "\r\n") == CopiesLead + Encode(Str(copies)) + CrLf
  {
    assert Encode("\r\n") == CrLf;
    assert "\r\nPRINT " == "\r\n" + "PRINT ";
    EncodeAppend("\r\nPRINT " + Str(copies), "\r\n");
    EncodeAppend("\r\nPRINT ", Str(copies));
    EncodeAppend("\r\n", "PRINT ");
  }

  lemma PrintCommandLayout(image: bytes, density: int, copies: int)
    ensures Encode(PrintHeader) + Encode("DENSITY " + Str(density) + "\r\n") + Encode("CLS\r\n") + Encode(BitmapHeader)
      + image + Encode("\r\nPRINT " + Str(copies) + "\r\n")
      == DensityLead + Encode(Str(density)) + BitmapLead + image + CopiesLead + Encode(Str(copies)) + CrLf
  {
    DensityLineBytes(density);
    CopiesLineBytes(copies);
    Regroup(Encode(PrintHeader), Encode("DENSITY "), Encode(Str(density)), CrLf, Encode("CLS\r\n"), Encode(BitmapHeader),
            image, CopiesLead, Encode(Str(copies)));
  }

  /** Concatenation is associative: the regrouping the layout needs. */
  lemma Regroup<T>(h: seq<T>, dw: seq<T>, d: seq<T>, crlf: seq<T>, cls: seq<T>, bh: seq<T>, image: seq<T>, cl: seq<T>, c: seq<T>)
    ensures h + (dw + d + crlf) + cls + bh + image + (cl + c + crlf)
         == (h + dw) + d + (crlf + cls + bh) + image + cl + c + crlf
  {
  }

  /** A sequence starts with each of its prefixes. */
  lemma StartsWithConcat<T>(a: seq<T>, b: seq<T>, c: seq<T>, d: seq<T>, e: seq<T>, f: seq<T>, g: seq<T>)
    ensures StartsWith(a + b, a)
    ensures StartsWith(a + b + c + d + e + f + g, a)
  {
    assert (a + b)[..|a|] == a;
    assert a + b + c + d + e + f + g == a + (b + c + d + e + f + g);
  }

  /** A sequence starts with every prefix of its prefixes. */
  lemma StartsWithTransitive<T>(a: seq<T>, b: seq<T>, c: seq<T>)
    requires StartsWith(a, b) && StartsWith(b, c)
    ensures StartsWith(a, c)
  {
    assert a[..|c|] == a[..|b|][..|c|];
  }

  /** The job starts with the status query, so the printer answers it with
      a status record. */
  lemma PrintCommandStartsWithStatusQuery(image: bytes, density: int, copies: int)
    ensures StartsWith(BuildPrintCommand(image, density, copies), Encode(StatusQuery))
  {
    var e: bytes := [];
    var d, c := Encode(Str(density)), Encode(Str(copies));
    StartsWithConcat(DensityLead, d, BitmapLead, image, CopiesLead, c, CrLf);
    StartsWithConcat(Encode(PrintHeader), Encode("DENSITY "), e, e, e, e, e);
    EncodeAppend(StatusQuery, PrintSettings);
    StartsWithConcat(Encode(StatusQuery), Encode(PrintSettings), e, e, e, e, e);
    StartsWithTransitive(DensityLead, Encode(PrintHeader), Encode(StatusQuery));
    StartsWithTransitive(BuildPrintCommand(image, density, copies), DensityLead, Encode(StatusQuery));
  }

  /** The parts of a print job. */
  datatype PrintJob = PrintJob(image: bytes, density: int, copies: int)

  /** The length of the run before the first `stop` byte. */
  function TakeUntil(b: bytes, stop: byte): (n: nat)
    ensures n <= |b|
    ensures forall i :: 0 <= i < n ==> b[i] != stop
    ensures n < |b| ==> b[n] == stop
  {
    if |b| == 0 || b[0] == stop then 0 else 1 + TakeUntil(b[1..], stop)
  }

  /** The run before the first `stop` is exactly a prefix free of `stop`. */
  lemma TakeUntilPlaced(a: bytes, stop: byte, rest: bytes)
    requires stop !in a && |rest| > 0 && rest[0] == stop
    ensures TakeUntil(a + rest, stop) == |a|
  {
    var n := TakeUntil(a + rest, stop);
    assert (a + rest)[|a|] == stop;
  }

  /** The density numeral and what follows it: the bytes from the end of
      `dl` to the first CR, and the rest. */
  function SplitDensity(frame: bytes, dl: bytes): (r: Option<(bytes, bytes)>)
    ensures r.Some? ==> frame == dl + r.value.0 + r.value.1
  {
    if !StartsWith(frame, dl) then None
    else
      var rest := frame[|dl|..];
      var n := TakeUntil(rest, 13);
      assert frame == dl + rest[..n] + rest[n..];
      Some((rest[..n], rest[n..]))
  }

  lemma SplitDensityPlaced(dl: bytes, d: bytes, after: bytes)
    requires 13 !in d && |after| > 0 && after[0] == 13
    ensures SplitDensity(dl + d + after, dl) == Some((d, after))
  {
    var frame := dl + d + after;
    assert frame[..|dl|] == dl;
    assert frame[|dl|..] == d + after;
    TakeUntilPlaced(d, 13, after);
    assert (d + after)[..|d|] == d;
    assert (d + after)[|d|..] == after;
  }

  /** The image and the copies numeral: the `imageLen` bytes after `bl`,
      and what lies between `cl` and the final CR LF. */
  function SplitImage(after: bytes, imageLen: nat, bl: bytes, cl: bytes): (r: Option<(bytes, bytes)>)
    ensures r.Some? ==> |r.value.0| == imageLen && after == bl + r.value.0 + cl + r.value.1 + CrLf
  {
    if !StartsWith(after, bl) || |after| < |bl| + imageLen + |cl| + 2 then None
    else
      var image := after[|bl|..|bl| + imageLen];
      var tail := after[|bl| + imageLen..];
      if !StartsWith(tail, cl) || tail[|tail| - 2..] != CrLf then None
      else
        var c := tail[|cl|..|tail| - 2];
        assert tail == cl + c + CrLf;
        assert after == bl + image + tail;
        Some((image, c))
  }

  lemma SplitImagePlaced(bl: bytes, image: bytes, cl: bytes, c: bytes)
    ensures SplitImage(bl + image + cl + c + CrLf, |image|, bl, cl) == Some((image, c))
  {
    var after := bl + image + cl + c + CrLf;
    assert after[..|bl|] == bl;
    assert after[|bl|..|bl| + |image|] == image;
    var tail := after[|bl| + |image|..];
    assert tail == cl + c + CrLf;
    assert tail[..|cl|] == cl;
    assert tail[|tail| - 2..] == CrLf;
    assert tail[|cl|..|tail| - 2] == c;
  }

  /** Takes a job apart around the fixed runs `dl`, `bl` and `cl`. */
  function ParseJob(frame: bytes, imageLen: nat, dl: bytes, bl: bytes, cl: bytes): (r: Option<PrintJob>)
    ensures r.Some? ==> |r.value.image| == imageLen
  {
    match SplitDensity(frame, dl)
    case None => None
    case Some((d, after)) =>
      match SplitImage(after, imageLen, bl, cl)
      case None => None
      case Some((image, c)) =>
        match (ParseDecimal(DecodeLatin1(d)), ParseDecimal(DecodeLatin1(c)))
        case (Some(density), Some(copies)) => Some(PrintJob(image, density, copies))
        case _ => None
  }

  lemma ParseJobRoundTrip(dl: bytes, bl: bytes, cl: bytes, image: bytes, density: int, copies: int)
    requires |bl| > 0 && bl[0] == 13
    ensures ParseJob(dl + Encode(Str(density)) + bl + image + cl + Encode(Str(copies)) + CrLf, |image|, dl, bl, cl)
         == Some(PrintJob(image, density, copies))
  {
    var d := Encode(Str(density));
    var c := Encode(Str(copies));
    var after := bl + image + cl + c + CrLf;
    assert dl + d + bl + image + cl + c + CrLf == dl + d + after;
    NumeralBytes(density);
    NumeralBytes(copies);
    StrRoundTrip(density);
    StrRoundTrip(copies);
    SplitDensityPlaced(dl, d, after);
    SplitImagePlaced(bl, image, cl, c);
  }

  /** How a reader that knows the image size takes a print job apart. */
  function ParsePrintCommand(frame: bytes, imageLen: nat): (r: Option<PrintJob>)
    ensures r.Some? ==> |r.value.image| == imageLen
  {
    ParseJob(frame, imageLen, DensityLead, BitmapLead, CopiesLead)
  }

  /** Every print job reads back as the image, density and copies it was
      built from: in particular the image bytes travel verbatim. */
  lemma PrintCommandRoundTrip(image: bytes, density: int, copies: int)
    ensures ParsePrintCommand(BuildPrintCommand(image, density, copies), |image|) == Some(PrintJob(image, density, copies))
  {
    assert BitmapLead[0] == 13;
    ParseJobRoundTrip(DensityLead, BitmapLead, CopiesLead, image, density, copies);
  }

  // ---------------------------------------------------------------------
  // Bitmap padding
  // ---------------------------------------------------------------------

  /** A full bitmap: 284 rows of 12 bytes (96 dots), as the BITMAP command
      announces. */
  const BitmapSize: nat := 3408

  /** The padding step of `load_image`: `bitdata.ljust(3408, b"\xff")` when
      shorter, so the rest of the label prints white. */
  function PadBitmap(bitdata: bytes): (r: bytes)
    ensures |r| == if |bitdata| < BitmapSize then BitmapSize else |bitdata|
    ensures r[..|bitdata|] == bitdata
    ensures forall i :: |bitdata| <= i < |r| ==> r[i] == 0xFF
  {
    if |bitdata| < BitmapSize then bitdata + seq(BitmapSize - |bitdata|, _ => 0xFF) else bitdata
  }

  /** Padding twice is padding once, and a padded bitmap fills the 12 by
      284 byte area exactly when the image was not larger. */
  lemma PadBitmapIdempotent(bitdata: bytes)
    ensures PadBitmap(PadBitmap(bitdata)) == PadBitmap(bitdata)
    ensures |PadBitmap(bitdata)| == 12 * 284 <==> |bitdata| <= 12 * 284
  {
  }
}
