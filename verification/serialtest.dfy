/** The stand-alone checksum checker: a second, loop-based copy of the CRC
    (`get_crc16` with its own serialiser `int_to_bytes_low`), the frame check
    `judge_serial_number_is_ok`, and the sample status frame it is run on. */
module SerialTest {
  import opened Wrappers
  import opened PyBuiltins
  import opened Enums
  import Checksum
  import ChecksumVectors
  import Status

  /** `int_to_bytes_low(value)`: `(value >> 8) & 0xFF`, then `value & 0xFF`.
      For a non-negative int `>> 8` is division by 256 and `& 0xFF` is the
      remainder modulo 256; both hold for negative ints too, because Python
      shifts toward minus infinity and masks in two's complement. */
  function IntToBytesLow(value: int): (r: bytes)
    ensures |r| == 2
    ensures FromBytesBig(r) == value % 0x1_0000
    ensures 0 <= value < 0x1_0000 ==> Some(r) == ToBytesBig2(value)
  {
    var r := [(value / 256) % 256, value % 256];
    assert r[..1][..0] == [] && r[..1] == [r[0]];
    assert FromBytesBig(r[..1]) == r[0];
    assert FromBytesBig(r) == r[0] * 256 + r[1];
    LowSixteenBits(value);
    assert 0 <= value < 0x1_0000 ==> value / 256 < 256 && r == [value / 256, value % 256];
    r
  }

  /** The two masked bytes together are the value's low sixteen bits. */
  lemma LowSixteenBits(v: int)
    ensures ((v / 256) % 256) * 256 + v % 256 == v % 0x1_0000
  {
    var q, lo := v / 256, v % 256;
    var hi, top := q % 256, q / 256;
    assert v == 0x1_0000 * top + (hi * 256 + lo);
    assert 0 <= hi * 256 + lo < 0x1_0000;
    assert v % 0x1_0000 == hi * 256 + lo;
  }

  /** Despite its name, the function writes the high byte first: it agrees
      with `to_bytes(2, "big")` and differs from little-endian order on
      every value whose two bytes differ. */
  lemma IntToBytesLowIsBigEndian(value: nat)
    requires value < 0x1_0000
    ensures IntToBytesLow(value) == [value / 256, value % 256]
    ensures value / 256 != value % 256 ==> IntToBytesLow(value) != [value % 256, value / 256]
  {
  }

  /** `get_crc16(data)`: the register loop written out with Python's
      operators, one inner pass per bit. It returns exactly the bytes of
      `crc16`. */
  method GetCrc16(data: bytes) returns (r: bytes)
    ensures r == Checksum.Crc16(data)
  {
    var crc: nat := Checksum.Init;
    var i := 0;
    while i < |data|
      invariant 0 <= i <= |data|
      invariant crc == Checksum.Register(data[..i])
    {
      assert data[..i + 1][..i] == data[..i];
      var c0 := Checksum.Xor(crc, data[i]);
      crc := c0;
      var j := 0;
      while j < 8
        invariant 0 <= j <= 8
        invariant crc == Checksum.ShiftRounds(c0, j)
      {
        if crc % 2 == 1 {
          crc := Checksum.Xor(crc / 2, Checksum.Poly);
        } else {
          crc := crc / 2;
        }
        j := j + 1;
      }
      i := i + 1;
    }
    assert data[..i] == data;
    r := IntToBytesLow(crc);
  }

  /** `judge_serial_number_is_ok(byte_array)`: raises for fewer than three
      bytes; otherwise compares the last two bytes with `get_crc16` of the
      rest. The byte-reversed copy and the library checksum it also computes
      are only printed, so they are not part of the result. */
  method JudgeSerialNumberIsOk(b: bytes) returns (r: Result<bool>)
    ensures r.Err? <==> |b| < 3
    ensures r.Err? ==> r.error == InputTooShort(|b|)
    ensures r.Ok? ==> (r.value <==> Checksum.ValidateChecksum(b).Ok?)
  {
    if |b| < 3 {
      return Err(InputTooShort(|b|));
    }
    var data := SliceTo(b, -2);
    var provided := SliceFrom(b, -2);
    LastTwoSplit(b);
    var computed := GetCrc16(data);
    r := Ok(computed == provided);
  }

  /** The sample status frame `200c011203000301121215280f0e0d22`. */
  const SampleFrame: bytes :=
    [0x20, 0x0C, 0x01, 0x12, 0x03, 0x00, 0x03, 0x01, 0x12, 0x12, 0x15, 0x28, 0x0F, 0x0E, 0x0D, 0x22]

  /** The sample frame carries the right checksum: its body's checksum is
      its last two bytes, so the checker accepts it and it decodes. */
  lemma SampleFrameValidates()
    ensures Checksum.ValidateChecksum(SampleFrame) == Ok(())
    ensures Status.DecodeStatusFrame(SampleFrame) == Status.UnpackPrinterStatus(SampleFrame)
    ensures Status.DecodeStatusFrame(SampleFrame).Ok?
  {
    var body := SampleFrame[..14];
    ChecksumVectors.SampleBodyChecksum(body);
    assert SampleFrame == body + Checksum.Crc16(body);
    Checksum.ChecksumAppendedValidates(body);
    SampleFrameDecodes(false);
  }

  /** Read with the status offsets, the sample frame is a busy printer
      holding white, gapped labels 14 mm wide and 40 mm long; it renders the
      label line, not the missing-tag message. */
  lemma SampleFrameDecodes(debug: bool)
    ensures Status.UnpackPrinterStatus(SampleFrame).Ok?
    ensures var s := Status.UnpackPrinterStatus(SampleFrame).value;
      && s.printerStatus == Busy
      && s.labelColor == White
      && s.paperType == Gapped
      && s.dataLength == 12
      && s.labelLength == 40
      && s.maximumLabelWidth == 15
      && s.labelWidth == 14
      && s.dataUnknown7 == 0x0D
      && !Contains(Status.StatusText(s, debug), Status.NoTagMessage)
  {
    var s := Status.UnpackPrinterStatus(SampleFrame).value;
    assert Status.PackPrinterStatus(s, SampleFrame[15]) == SampleFrame;
    Status.NoTagReportedIffBlankLabel(s, debug);
  }
}
