/** The 16-byte status record the printer answers to `ESC ! o` and to a
    print job: `unpack_printer_status`, the `PrinterStatus` fields and its
    `__str__`.

    The record is the whole frame, checksum included: bytes 14 and 15 are
    the CRC of bytes 0..13, and byte 14 is kept as "unknown 7". */
module Status {
  import opened Wrappers
  import opened PyBuiltins
  import opened Enums
  import Checksum

  const StatusSize: nat := 16

  datatype PrinterStatus = PrinterStatus(
    printerStatus: ReadinessStatus,  // byte 0
    dataLength: byte,                // byte 1
    dataUnknown: byte,               // byte 2
    dataUnknown2: byte,              // byte 3
    labelColor: PaperColor,          // byte 4
    dataUnknown3: byte,              // byte 5
    borderRadius: byte,              // byte 6
    paperType: PaperType,            // byte 7
    dataUnknown4: byte,              // byte 8
    dataUnknown5: byte,              // byte 9
    dataUnknown6: byte,              // byte 10
    labelLength: byte,               // byte 11
    maximumLabelWidth: byte,         // byte 12
    labelWidth: byte,                // byte 13
    dataUnknown7: byte               // byte 14
  )

  /** The bytes a record was read from, given the byte (15) it does not keep:
      the reference layout the decoder is checked against. */
  function PackPrinterStatus(s: PrinterStatus, last: byte): (b: bytes)
    ensures |b| == StatusSize
  {
    [ ReadinessValue(s.printerStatus), s.dataLength, s.dataUnknown, s.dataUnknown2,
      PaperColorValue(s.labelColor), s.dataUnknown3, s.borderRadius, PaperTypeValue(s.paperType),
      s.dataUnknown4, s.dataUnknown5, s.dataUnknown6, s.labelLength,
      s.maximumLabelWidth, s.labelWidth, s.dataUnknown7, last ]
  }

  /** `unpack_printer_status(status)`: `struct.unpack(">16B")` demands exactly
      16 bytes; then the constructor reads the enums in field order (byte 0,
      byte 4, byte 7), raising at the first unlisted value. */
  function UnpackPrinterStatus(status: bytes): (r: Result<PrinterStatus>)
    ensures r.Ok? <==>
      |status| == StatusSize && ReadinessOf(status[0]).Some? &&
      PaperColorOf(status[4]).Some? && PaperTypeOf(status[7]).Some?
    ensures |status| != StatusSize ==> r == Err(StructSize(StatusSize, |status|))
    ensures |status| == StatusSize && ReadinessOf(status[0]).None? ==>
      r == Err(NotEnumMember("PrinterReadinessStatus", status[0]))
    ensures |status| == StatusSize && ReadinessOf(status[0]).Some? && PaperColorOf(status[4]).None? ==>
      r == Err(NotEnumMember("PaperColor", status[4]))
    ensures r.Ok? ==> PackPrinterStatus(r.value, status[15]) == status
  {
    if |status| != StatusSize then Err(StructSize(StatusSize, |status|))
    else
      var ready :- Member(ReadinessOf(status[0]), "PrinterReadinessStatus", status[0]);
      var color :- Member(PaperColorOf(status[4]), "PaperColor", status[4]);
      var paper :- Member(PaperTypeOf(status[7]), "PaperType", status[7]);
      Ok(PrinterStatus(ready, status[1], status[2], status[3], color, status[5], status[6], paper,
                       status[8], status[9], status[10], status[11], status[12], status[13], status[14]))
  }

  /** Decoding loses nothing but byte 15: packing a record and unpacking it
      gives the record back. */
  lemma UnpackPackRoundTrip(s: PrinterStatus, last: byte)
    ensures UnpackPrinterStatus(PackPrinterStatus(s, last)) == Ok(s)
  {
    ValuesRoundTrip();
  }

  /** `get_printer_status` after the transport has delivered `frame`:
      validate the checksum, then unpack. */
  function DecodeStatusFrame(frame: bytes): (r: Result<PrinterStatus>)
    ensures r.Ok? ==> Checksum.ValidateChecksum(frame).Ok? && UnpackPrinterStatus(frame) == r
    ensures Checksum.ValidateChecksum(frame).Ok? ==> r == UnpackPrinterStatus(frame)
    ensures Checksum.ValidateChecksum(frame).Err? ==> r == Checksum.ValidateChecksum(frame).PropagateFailure()
    ensures r.Ok? ==> r.value.dataUnknown7 == Checksum.Crc16(frame[..14])[0]
  {
    var _ :- Checksum.ValidateChecksum(frame);
    UnpackPrinterStatus(frame)
  }

  /** A 14-byte body followed by its checksum decodes to the record whose
      fields sit at the documented offsets, whatever the body holds at the
      positions not named here. */
  lemma DecodeFramedBody(body: bytes)
    requires |body| == 14
    requires ReadinessOf(body[0]).Some? && PaperColorOf(body[4]).Some? && PaperTypeOf(body[7]).Some?
    ensures DecodeStatusFrame(body + Checksum.Crc16(body)).Ok?
    ensures var s := DecodeStatusFrame(body + Checksum.Crc16(body)).value;
      && ReadinessValue(s.printerStatus) == body[0]
      && s.dataLength == body[1]
      && PaperColorValue(s.labelColor) == body[4]
      && s.borderRadius == body[6]
      && PaperTypeValue(s.paperType) == body[7]
      && s.labelLength == body[11]
      && s.maximumLabelWidth == body[12]
      && s.labelWidth == body[13]
      && s.dataUnknown7 == Checksum.Crc16(body)[0]
  {
    var frame := body + Checksum.Crc16(body);
    Checksum.ChecksumAppendedValidates(body);
    assert frame[..14] == body;
    var r := UnpackPrinterStatus(frame);
    assert r.Ok?;
    assert PackPrinterStatus(r.value, frame[15]) == frame;
  }

  // ---------------------------------------------------------------------
  // Rendering
  // ---------------------------------------------------------------------

  const NoTagMessage: string := "The printer found no readable RFID tag."

  /** The label line: "Label Type: {width}x{length}mm({paper}), {color} color". */
  function LabelLine(s: PrinterStatus): string
  {
    "Label Type: " + Str(s.labelWidth) + "x" + Str(s.labelLength) + "mm"
      + "(" + PaperTypeName(s.paperType) + "), " + PaperColorName(s.labelColor) + " color\n"
  }

  /** One "label: value" line of the debug dump. */
  function Line(name: string, value: string): string
  {
    name + value + "\n"
  }

  /** The concatenation of a list of lines. */
  function Join(lines: seq<string>): string
  {
    if |lines| == 0 then "" else lines[0] + Join(lines[1..])
  }

  /** The names and values of the debug dump, in print order. */
  function DebugFields(s: PrinterStatus): seq<(string, string)>
  {
    [ ("Data Length: ", Str(s.dataLength)),
      ("Border Radius ?: ", Str(s.borderRadius)),
      ("Maximum Label Width?: ", Str(s.maximumLabelWidth)),
      ("Data Unknown 1 (byte 3): ", Hex(s.dataUnknown)),
      ("Data Unknown 2 (byte 4): ", Hex(s.dataUnknown2)),
      ("Data Unknown 3 (byte 5): ", Hex(s.dataUnknown3)),
      ("Data Unknown 4 (byte 8): ", Hex(s.dataUnknown4)),
      ("Data Unknown 5 (byte 9): ", Hex(s.dataUnknown5)),
      ("Data Unknown 6 (byte 10): ", Hex(s.dataUnknown6)),
      ("Data Unknown 7 (byte 15): ", Hex(s.dataUnknown7)) ]
  }

  /** The extra lines printed in debug mode. */
  function DebugLines(s: PrinterStatus): string
  {
    var fields := DebugFields(s);
    Join(seq(|fields|, i requires 0 <= i < |fields| => Line(fields[i].0, fields[i].1)))
  }

  /** `str(status)`, with the script's global DEBUG flag as a parameter.
      Its first line is the readiness name. */
  function StatusText(s: PrinterStatus, debug: bool): (t: string)
    ensures var name := ReadinessName(s.printerStatus);
      && |name| < |t| && t[..|name|] == name && t[|name|] == '\n' && '\n' !in name
  {
    var name := ReadinessName(s.printerStatus);
    var body := if s.labelWidth == 0 && s.labelLength == 0 then NoTagMessage else LabelLine(s);
    var rest := body + (if debug then DebugLines(s) else "");
    ReadinessNameIsOneLine(s.printerStatus);
    FirstLine(name, rest);
    name + "\n" + body + (if debug then DebugLines(s) else "")
  }

  lemma ReadinessNameIsOneLine(r: ReadinessStatus)
    ensures '\n' !in ReadinessName(r)
  {
  }

  /** A line followed by the rest of a text. */
  lemma FirstLine(line: string, rest: string)
    ensures var t := line + "\n" + rest;
      && |line| < |t| && t[..|line|] == line && t[|line|] == '\n'
  {
  }

  /** No number the script prints holds a capital F. */
  lemma NumeralsLackCapitalF(n: int)
    ensures 'F' !in Str(n) && 'F' !in Hex(n)
  {
    NumeralsAreLowerCase(n);
  }

  lemma HeadLacksCapitalF(s: PrinterStatus)
    ensures 'F' !in ReadinessName(s.printerStatus) + "\n"
  {
  }

  lemma LabelLineLacksCapitalF(s: PrinterStatus)
    ensures 'F' !in LabelLine(s)
  {
    NumeralsLackCapitalF(s.labelWidth);
    NumeralsLackCapitalF(s.labelLength);
  }

  lemma {:induction false} JoinLacks(lines: seq<string>, c: char)
    requires forall i :: 0 <= i < |lines| ==> c !in lines[i]
    ensures c !in Join(lines)
    decreases |lines|
  {
    if |lines| > 0 {
      JoinLacks(lines[1..], c);
    }
  }

  lemma DebugFieldsLackCapitalF(s: PrinterStatus)
    ensures forall i :: 0 <= i < |DebugFields(s)| ==> 'F' !in DebugFields(s)[i].0 && 'F' !in DebugFields(s)[i].1
  {
    NumeralsLackCapitalF(s.dataLength);
    NumeralsLackCapitalF(s.borderRadius);
    NumeralsLackCapitalF(s.maximumLabelWidth);
    NumeralsLackCapitalF(s.dataUnknown);
    NumeralsLackCapitalF(s.dataUnknown2);
    NumeralsLackCapitalF(s.dataUnknown3);
    NumeralsLackCapitalF(s.dataUnknown4);
    NumeralsLackCapitalF(s.dataUnknown5);
    NumeralsLackCapitalF(s.dataUnknown6);
    NumeralsLackCapitalF(s.dataUnknown7);
  }

  /** Lines made of names and values that lack a character lack it too. */
  lemma LinesLack(fields: seq<(string, string)>, c: char)
    requires c != '\n'
    requires forall i :: 0 <= i < |fields| ==> c !in fields[i].0 && c !in fields[i].1
    ensures c !in Join(seq(|fields|, i requires 0 <= i < |fields| => Line(fields[i].0, fields[i].1)))
  {
    var lines := seq(|fields|, i requires 0 <= i < |fields| => Line(fields[i].0, fields[i].1));
    forall i | 0 <= i < |lines| ensures c !in lines[i] {
      assert lines[i] == fields[i].0 + fields[i].1 + "\n";
    }
    JoinLacks(lines, c);
  }

  lemma DebugLinesLackCapitalF(s: PrinterStatus)
    ensures 'F' !in DebugLines(s)
  {
    DebugFieldsLackCapitalF(s);
    LinesLack(DebugFields(s), 'F');
  }

  /** The rendering reports "no readable RFID tag" exactly when label width
      and label length are both zero, in and out of debug mode. */
  lemma NoTagReportedIffBlankLabel(s: PrinterStatus, debug: bool)
    ensures Contains(StatusText(s, debug), NoTagMessage) <==> s.labelWidth == 0 && s.labelLength == 0
  {
    var head := ReadinessName(s.printerStatus) + "\n";
    var tail := if debug then DebugLines(s) else "";
    if s.labelWidth == 0 && s.labelLength == 0 {
      ContainsPlaced(head, NoTagMessage, tail);
    } else {
      HeadLacksCapitalF(s);
      LabelLineLacksCapitalF(s);
      if debug {
        DebugLinesLackCapitalF(s);
      }
      assert 'F' in NoTagMessage;
      MissingCharExcludes(head + LabelLine(s) + tail, NoTagMessage, 'F');
    }
  }

  /** Only bytes 11 and 13 decide whether the no-tag message appears: two
      frames that agree there render alike in that respect. */
  lemma NoTagDependsOnlyOnLabelSize(f: bytes, g: bytes, debug: bool)
    requires UnpackPrinterStatus(f).Ok? && UnpackPrinterStatus(g).Ok?
    requires f[11] == g[11] && f[13] == g[13]
    ensures Contains(StatusText(UnpackPrinterStatus(f).value, debug), NoTagMessage)
        == Contains(StatusText(UnpackPrinterStatus(g).value, debug), NoTagMessage)
  {
    var s := UnpackPrinterStatus(f).value;
    var t := UnpackPrinterStatus(g).value;
    assert PackPrinterStatus(s, f[15]) == f;
    assert PackPrinterStatus(t, g[15]) == g;
    NoTagReportedIffBlankLabel(s, debug);
    NoTagReportedIffBlankLabel(t, debug);
  }
}
