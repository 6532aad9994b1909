/** The checksum engine: the CRC-16/MODBUS register (section 6.2.2 and
    Appendix B of the MODBUS over Serial Line Specification V1.02: reflected
    polynomial 0xA001, initial value 0xFFFF, no final XOR), serialised high
    byte first, and the frame check that compares it with a frame's last two
    bytes.

    The script keeps the register in a Python int, which is unbounded; the
    register is modelled the same way, on `nat`, with Python's `^` written
    out, and `Register`'s contract says that it never leaves 16 bits. */
module Checksum {
  import opened Wrappers
  import opened PyBuiltins

  const Init: nat := 0xFFFF
  const Poly: nat := 0xA001

  function Pow2(k: nat): nat
  {
    if k == 0 then 1 else 2 * Pow2(k - 1)
  }

  /** Python's `a ^ b` on non-negative ints: bitwise exclusive or, least
      significant bit first. */
  function Xor(a: nat, b: nat): nat
    decreases a + b
  {
    if a == 0 && b == 0 then 0
    else (if a % 2 == b % 2 then 0 else 1) + 2 * Xor(a / 2, b / 2)
  }

  lemma Pow2Of16()
    ensures Pow2(16) == 0x1_0000
  {
    assert Pow2(2) == 4;
    assert Pow2(4) == 16;
    assert Pow2(6) == 64;
    assert Pow2(8) == 256;
    assert Pow2(10) == 1024;
    assert Pow2(12) == 4096;
    assert Pow2(14) == 16384;
  }

  /** Exclusive or of two k-bit numbers is a k-bit number. */
  lemma {:induction false} XorBelow(a: nat, b: nat, k: nat)
    requires a < Pow2(k) && b < Pow2(k)
    ensures Xor(a, b) < Pow2(k)
    decreases k
  {
    if k > 0 && !(a == 0 && b == 0) {
      XorBelow(a / 2, b / 2, k - 1);
    }
  }

  /** One pass of the inner loop: `crc = (crc >> 1) ^ 0xA001` when the low
      bit is set, `crc >>= 1` otherwise. */
  function ShiftRound(crc: nat): nat
  {
    if crc % 2 == 1 then Xor(crc / 2, Poly) else crc / 2
  }

  /** The inner loop run n times. */
  function ShiftRounds(crc: nat, n: nat): nat
  {
    if n == 0 then crc else ShiftRound(ShiftRounds(crc, n - 1))
  }

  /** One pass of the outer loop: `crc ^= byte`, then eight shift rounds. */
  function Update(crc: nat, b: byte): nat
  {
    ShiftRounds(Xor(crc, b), 8)
  }

  lemma {:induction false} ShiftRoundsBelow(crc: nat, n: nat)
    requires crc < 0x1_0000
    ensures ShiftRounds(crc, n) < 0x1_0000
    decreases n
  {
    if n > 0 {
      ShiftRoundsBelow(crc, n - 1);
      var c := ShiftRounds(crc, n - 1);
      if c % 2 == 1 {
        Pow2Of16();
        XorBelow(c / 2, Poly, 16);
      }
    }
  }

  /** The register after the loop has consumed `data`. It never reaches
      2^16, so serialising it with `to_bytes(2, "big")` cannot overflow. */
  function Register(data: bytes): (r: nat)
    ensures r < 0x1_0000
    decreases |data|
  {
    if |data| == 0 then Init
    else
      var prev := Register(data[..|data| - 1]);
      Pow2Of16();
      XorBelow(prev, data[|data| - 1], 16);
      ShiftRoundsBelow(Xor(prev, data[|data| - 1]), 8);
      Update(prev, data[|data| - 1])
  }

  // ---------------------------------------------------------------------
  // No step of the register forgets anything
  // ---------------------------------------------------------------------

  /** Exclusive or with b is its own inverse. */
  lemma {:induction false} XorCancel(a: nat, b: nat)
    ensures Xor(Xor(a, b), b) == a
    decreases a + b
  {
    if !(a == 0 && b == 0) {
      XorCancel(a / 2, b / 2);
    }
  }

  lemma {:induction false} XorCommutes(a: nat, b: nat)
    ensures Xor(a, b) == Xor(b, a)
    decreases a + b
  {
    if !(a == 0 && b == 0) {
      XorCommutes(a / 2, b / 2);
    }
  }

  /** Mixing a number below 2^k into one whose top bit is bit k keeps that
      bit set. */
  lemma {:induction false} XorKeepsTopBit(a: nat, b: nat, k: nat)
    requires a < Pow2(k) <= b < 2 * Pow2(k)
    ensures Pow2(k) <= Xor(a, b)
    decreases k
  {
    if k > 0 {
      XorKeepsTopBit(a / 2, b / 2, k - 1);
    }
  }

  lemma Pow2Of15()
    ensures Pow2(15) == 0x8000
  {
    Pow2Of16();
  }

  /** A shift round on 16-bit registers can be undone: the polynomial's
      top bit tells which branch was taken. */
  lemma ShiftRoundInjective(x: nat, y: nat)
    requires x < 0x1_0000 && y < 0x1_0000
    requires ShiftRound(x) == ShiftRound(y)
    ensures x == y
  {
    Pow2Of15();
    if x % 2 == 1 {
      XorKeepsTopBit(x / 2, Poly, 15);
      XorCancel(x / 2, Poly);
    }
    if y % 2 == 1 {
      XorKeepsTopBit(y / 2, Poly, 15);
      XorCancel(y / 2, Poly);
    }
  }

  lemma {:induction false} ShiftRoundsInjective(x: nat, y: nat, n: nat)
    requires x < 0x1_0000 && y < 0x1_0000
    requires ShiftRounds(x, n) == ShiftRounds(y, n)
    ensures x == y
    decreases n
  {
    if n > 0 {
      ShiftRoundsBelow(x, n - 1);
      ShiftRoundsBelow(y, n - 1);
      ShiftRoundInjective(ShiftRounds(x, n - 1), ShiftRounds(y, n - 1));
      ShiftRoundsInjective(x, y, n - 1);
    }
  }

  /** One outer pass tells registers apart, and tells bytes apart. */
  lemma UpdateInjective(c: nat, d: nat, a: byte, b: byte)
    requires c < 0x1_0000 && d < 0x1_0000
    requires Update(c, a) == Update(d, b)
    ensures c == d <==> a == b
  {
    Pow2Of16();
    XorBelow(c, a, 16);
    XorBelow(d, b, 16);
    ShiftRoundsInjective(Xor(c, a), Xor(d, b), 8);
    XorCancel(c, a);
    XorCancel(d, b);
    XorCommutes(c, a);
    XorCommutes(d, b);
    XorCancel(a, c);
    XorCancel(b, d);
  }

  /** Two inputs of the same length that differ in exactly one byte leave
      different registers. */
  lemma {:induction false} RegisterSeesSingleChange(p: bytes, q: bytes, i: nat)
    requires |p| == |q| && i < |p| && p[i] != q[i]
    requires forall j :: 0 <= j < |p| && j != i ==> p[j] == q[j]
    ensures Register(p) != Register(q)
    decreases |p|
  {
    var n := |p| - 1;
    if i == n {
      assert p[..n] == q[..n];
      if Register(p) == Register(q) {
        UpdateInjective(Register(p[..n]), Register(q[..n]), p[n], q[n]);
      }
    } else {
      RegisterSeesSingleChange(p[..n], q[..n], i);
      if Register(p) == Register(q) {
        UpdateInjective(Register(p[..n]), Register(q[..n]), p[n], q[n]);
      }
    }
  }

  /** `crc16(data)`: the final register as two bytes, high byte first. */
  function Crc16(data: bytes): (r: bytes)
    ensures |r| == 2
    ensures (r[0] as int) * 256 + r[1] as int == Register(data)
    ensures |data| == 0 ==> r == [0xFF, 0xFF]
  {
    var r := ToBytesBig2(Register(data)).value;
    assert r[..1][..0] == [] && r[..1] == [r[0]];
    r
  }

  /** `validate_checksum(data)`: the last two bytes (`data[-2:]`) must equal
      the checksum of everything before them (`data[:-2]`); otherwise it
      raises, carrying both values. */
  function ValidateChecksum(data: bytes): (r: Result<()>)
    ensures r.Ok? <==> |data| >= 2 && data[|data| - 2..] == Crc16(data[..|data| - 2])
    ensures r.Err? ==> r.error == InvalidChecksum(SliceFrom(data, -2), Crc16(SliceTo(data, -2)))
  {
    LastTwoSplit(data);
    var provided := SliceFrom(data, -2);
    var computed := Crc16(SliceTo(data, -2));
    if provided != computed then Err(InvalidChecksum(provided, computed)) else Ok(())
  }

  /** A frame shorter than two bytes is always rejected: its "last two
      bytes" are the whole frame, which is shorter than a checksum. */
  lemma ShortFrameRejected(data: bytes)
    requires |data| < 2
    ensures ValidateChecksum(data).Err?
  {
  }

  /** Appending the checksum of any payload yields a frame that validates. */
  lemma ChecksumAppendedValidates(payload: bytes)
    ensures ValidateChecksum(payload + Crc16(payload)) == Ok(())
  {
    var frame := payload + Crc16(payload);
    assert frame[..|frame| - 2] == payload;
    assert frame[|frame| - 2..] == Crc16(payload);
  }

  /** Changing any single byte of a valid frame, payload or checksum,
      makes it fail the check. */
  lemma SingleByteCorruptionDetected(payload: bytes, i: nat, x: byte)
    requires i < |payload| + 2
    requires x != (payload + Crc16(payload))[i]
    ensures ValidateChecksum((payload + Crc16(payload))[i := x]).Err?
  {
    var frame := (payload + Crc16(payload))[i := x];
    var n := |payload|;
    if i < n {
      var corrupted := payload[i := x];
      assert frame[..n] == corrupted;
      assert frame[n..] == Crc16(payload);
      RegisterSeesSingleChange(payload, corrupted, i);
    } else {
      assert frame[..n] == payload;
      assert frame[n..] != Crc16(payload) by {
        assert frame[n..][i - n] == x;
      }
    }
  }

  /** A frame validates exactly when it is some payload followed by that
      payload's checksum. */
  lemma ValidFrameShape(frame: bytes)
    ensures ValidateChecksum(frame).Ok? <==>
      exists payload :: |payload| == |frame| - 2 && frame == payload + Crc16(payload)
  {
    if ValidateChecksum(frame).Ok? {
      var payload := frame[..|frame| - 2];
      assert frame == payload + Crc16(payload);
    }
    if exists payload :: |payload| == |frame| - 2 && frame == payload + Crc16(payload) {
      var payload :| |payload| == |frame| - 2 && frame == payload + Crc16(payload);
      ChecksumAppendedValidates(payload);
    }
  }
}
