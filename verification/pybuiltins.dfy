/** The few Python built-ins the codec leans on, stated exactly:
    slicing with negative bounds, `startswith`, `int.to_bytes(2, "big")`,
    `str(int)`, `hex(int)`, `str.encode()` (UTF-8) and substring search. */
module PyBuiltins {
  import opened Wrappers

  /** An element of a Python `bytes` object. */
  type byte = x: int | 0 <= x < 256
  type bytes = seq<byte>

  // ---------------------------------------------------------------------
  // Slicing
  // ---------------------------------------------------------------------

  /** How Python turns a slice bound into an index of a sequence of length n:
      negative bounds count from the end, and the result is clamped to [0, n]. */
  function SliceBound(i: int, n: nat): (k: nat)
    ensures k <= n
  {
    if i < 0 then (if n + i < 0 then 0 else n + i)
    else if i > n then n
    else i
  }

  /** Python's `s[i:j]`. */
  function Slice<T>(s: seq<T>, i: int, j: int): seq<T>
  {
    var a := SliceBound(i, |s|);
    var b := SliceBound(j, |s|);
    if a < b then s[a..b] else []
  }

  /** Python's `s[i:]`. */
  function SliceFrom<T>(s: seq<T>, i: int): seq<T>
  {
    Slice(s, i, |s|)
  }

  /** Python's `s[:j]`. */
  function SliceTo<T>(s: seq<T>, j: int): seq<T>
  {
    Slice(s, 0, j)
  }

  /** `s[:-2]` and `s[-2:]` split every sequence of at least two elements
      into its body and its last two elements; a shorter sequence has an
      empty body and is its own "last two elements". */
  lemma LastTwoSplit<T>(s: seq<T>)
    ensures |s| >= 2 ==> SliceTo(s, -2) == s[..|s| - 2] && SliceFrom(s, -2) == s[|s| - 2..]
    ensures |s| < 2 ==> SliceTo(s, -2) == [] && SliceFrom(s, -2) == s
    ensures SliceTo(s, -2) + SliceFrom(s, -2) == s
    ensures |SliceFrom(s, -2)| == if |s| < 2 then |s| else 2
  {
    if |s| >= 2 {
      assert s[..|s| - 2] + s[|s| - 2..] == s;
    }
  }

  /** `s[k:-2]` for a start k >= 0: the elements strictly between the first k
      and the last two, or nothing when those overlap. */
  lemma MiddleSlice<T>(s: seq<T>, k: nat)
    ensures k + 2 <= |s| ==> Slice(s, k, -2) == s[k..|s| - 2]
    ensures k + 2 > |s| ==> Slice(s, k, -2) == []
    ensures |Slice(s, k, -2)| == if k + 2 <= |s| then |s| - 2 - k else 0
  {
  }

  /** Python's `s.startswith(p)`. */
  predicate StartsWith<T(==)>(s: seq<T>, p: seq<T>)
  {
    |p| <= |s| && s[..|p|] == p
  }

  // ---------------------------------------------------------------------
  // Integers and bytes
  // ---------------------------------------------------------------------

  /** Python's `int.from_bytes(b, "big")`. */
  function FromBytesBig(b: bytes): nat
  {
    if |b| == 0 then 0 else FromBytesBig(b[..|b| - 1]) * 256 + b[|b| - 1]
  }

  /** Python's `v.to_bytes(2, byteorder="big")` for a non-negative v;
      `None` where Python raises OverflowError. */
  function ToBytesBig2(v: nat): (r: Option<bytes>)
    ensures r.Some? <==> v < 0x1_0000
    ensures r.Some? ==> |r.value| == 2 && FromBytesBig(r.value) == v
  {
    if v < 0x1_0000 then
      var r := [v / 256, v % 256];
      assert r[..1] == [v / 256] && r[..1][..0] == [];
      assert FromBytesBig(r[..1]) == v / 256;
      assert FromBytesBig(r) == (v / 256) * 256 + v % 256;
      Some(r)
    else None
  }

  // ---------------------------------------------------------------------
  // Number formatting: str(int) and hex(int)
  // ---------------------------------------------------------------------

  predicate IsDecimalDigit(c: char) { '0' <= c <= '9' }

  predicate IsLowerHexDigit(c: char)
  {
    '0' <= c <= '9' || 'a' <= c <= 'f'
  }

  /** The character for a digit value below sixteen: '0'..'9', then 'a'..'f'. */
  function DigitChar(d: nat): (c: char)
    requires d < 16
    ensures IsLowerHexDigit(c)
    ensures d < 10 ==> IsDecimalDigit(c)
  {
    if d < 10 then ('0' as int + d) as char else ('a' as int + d - 10) as char
  }

  /** The digits of n in the given base, most significant first, with no
      leading zeros ("0" for zero), lower-case letters above nine. */
  function Digits(n: nat, base: nat): (s: string)
    requires 2 <= base <= 16
    ensures |s| >= 1
    ensures forall i :: 0 <= i < |s| ==> IsLowerHexDigit(s[i])
    ensures base == 10 ==> forall i :: 0 <= i < |s| ==> IsDecimalDigit(s[i])
    decreases n
  {
    DivideByBase(n, base);
    if n < base then [DigitChar(n)]
    else Digits(n / base, base) + [DigitChar(n % base)]
  }

  lemma DivideByBase(n: nat, base: nat)
    requires 2 <= base
    ensures n == (n / base) * base + n % base
    ensures n % base < base
    ensures n >= base ==> 1 <= n / base < n
  {
  }

  /** Python's `str(n)` (and so `f"{n}"`) for an int. */
  function Str(n: int): string
  {
    if n < 0 then "-" + Digits(-n, 10) else Digits(n, 10)
  }

  /** Python's `hex(n)`. */
  function Hex(n: int): string
  {
    if n < 0 then "-0x" + Digits(-n, 16) else "0x" + Digits(n, 16)
  }

  /** The value of one digit character; the inverse of `DigitChar`. */
  function DigitValue(c: char): nat
  {
    if '0' <= c <= '9' then c as int - '0' as int
    else if 'a' <= c <= 'f' then c as int - 'a' as int + 10
    else 0
  }

  /** The value of a string of digits in the given base. */
  function DigitsValue(s: string, base: nat): nat
  {
    if |s| == 0 then 0 else DigitsValue(s[..|s| - 1], base) * base + DigitValue(s[|s| - 1])
  }

  /** Reads back an optionally signed, non-empty decimal numeral: the
      reference reading of what `Str` writes. */
  function ParseDecimal(s: string): Option<int>
  {
    if |s| > 0 && s[0] == '-' then
      var t := s[1..];
      var v: int := DigitsValue(t, 10);
      if |t| > 0 && forall i :: 0 <= i < |t| ==> IsDecimalDigit(t[i]) then Some(-v) else None
    else if |s| > 0 && forall i :: 0 <= i < |s| ==> IsDecimalDigit(s[i]) then Some(DigitsValue(s, 10))
    else None
  }

  lemma {:induction false} DigitsRoundTrip(n: nat, base: nat)
    requires 2 <= base <= 16
    ensures DigitsValue(Digits(n, base), base) == n
    decreases n
  {
    if n >= base {
      DivideByBase(n, base);
      var s := Digits(n / base, base);
      DigitsRoundTrip(n / base, base);
      var t := s + [DigitChar(n % base)];
      assert t[..|t| - 1] == s;
      assert DigitValue(DigitChar(n % base)) == n % base;
      assert DigitsValue(t, base) == (n / base) * base + n % base;
    } else {
      assert DigitValue(DigitChar(n)) == n;
    }
  }

  /** `Str` is read back exactly, so distinct integers print differently. */
  lemma StrRoundTrip(n: int)
    ensures ParseDecimal(Str(n)) == Some(n)
  {
    var m: nat := if n < 0 then -n else n;
    var d := Digits(m, 10);
    DigitsRoundTrip(m, 10);
    if n < 0 {
      assert Str(n)[1..] == d;
    } else {
      assert Str(n)[0] == d[0];
    }
  }

  /** What `Str` and `Hex` can emit: digits, lower-case letters, '-' and 'x'. */
  lemma NumeralsAreLowerCase(n: int)
    ensures forall i :: 0 <= i < |Str(n)| ==> Str(n)[i] == '-' || IsDecimalDigit(Str(n)[i])
    ensures forall i :: 0 <= i < |Hex(n)| ==> Hex(n)[i] in "-x" || IsLowerHexDigit(Hex(n)[i])
  {
    var m: nat := if n < 0 then -n else n;
    var h := Digits(m, 16);
    forall i | 0 <= i < |Hex(n)| ensures Hex(n)[i] in "-x" || IsLowerHexDigit(Hex(n)[i]) {
      var p := if n < 0 then 3 else 2;
      if i >= p {
        assert Hex(n)[i] == h[i - p];
      }
    }
  }

  // ---------------------------------------------------------------------
  // Text encoding: str.encode() is UTF-8
  // ---------------------------------------------------------------------

  /** The UTF-8 encoding of one Unicode scalar value. */
  function EncodeChar(c: char): (r: bytes)
    ensures 1 <= |r| <= 4
    ensures |r| == 1 <==> c as int < 0x80
    ensures |r| == 1 ==> r[0] == c as int
    ensures |r| > 1 ==> r[0] >= 0xC0 && forall i :: 1 <= i < |r| ==> 0x80 <= r[i] < 0xC0
  {
    var v := c as int;
    if v < 0x80 then [v]
    else if v < 0x800 then [0xC0 + v / 0x40, 0x80 + v % 0x40]
    else if v < 0x1_0000 then [0xE0 + v / 0x1000, 0x80 + (v / 0x40) % 0x40, 0x80 + v % 0x40]
    else [0xF0 + v / 0x4_0000, 0x80 + (v / 0x1000) % 0x40, 0x80 + (v / 0x40) % 0x40, 0x80 + v % 0x40]
  }

  /** Python's `s.encode()`: the concatenated UTF-8 encodings of its characters. */
  function Encode(s: string): bytes
  {
    if |s| == 0 then [] else EncodeChar(s[0]) + Encode(s[1..])
  }

  predicate IsAscii(s: string)
  {
    forall i :: 0 <= i < |s| ==> s[i] as int < 0x80
  }

  /** Encoding distributes over concatenation. */
  lemma {:induction false} EncodeAppend(a: string, b: string)
    ensures Encode(a + b) == Encode(a) + Encode(b)
    decreases |a|
  {
    if |a| > 0 {
      assert (a + b)[0] == a[0];
      assert (a + b)[1..] == a[1..] + b;
      EncodeAppend(a[1..], b);
      assert Encode(a + b) == EncodeChar(a[0]) + (Encode(a[1..]) + Encode(b));
    } else {
      assert a + b == b;
    }
  }

  /** An ASCII string encodes to one byte per character, each byte the
      character's code. */
  lemma {:induction false} EncodeAscii(s: string)
    requires IsAscii(s)
    ensures |Encode(s)| == |s|
    ensures forall i :: 0 <= i < |s| ==> Encode(s)[i] == s[i] as int
    decreases |s|
  {
    if |s| > 0 {
      EncodeAscii(s[1..]);
    }
  }

  /** `b.decode("latin-1")`: each byte read as the character with that code;
      the reference reading of ASCII text on the wire. */
  function DecodeLatin1(b: bytes): (s: string)
    ensures |s| == |b|
    ensures forall i :: 0 <= i < |b| ==> s[i] as int == b[i]
  {
    seq(|b|, i requires 0 <= i < |b| => b[i] as char)
  }

  /** ASCII text survives encoding and reading back. */
  lemma AsciiRoundTrip(s: string)
    requires IsAscii(s)
    ensures DecodeLatin1(Encode(s)) == s
  {
    EncodeAscii(s);
  }

  /** Numerals are ASCII, so none of their bytes is a control byte such
      as CR. */
  lemma NumeralBytes(n: int)
    ensures IsAscii(Str(n))
    ensures DecodeLatin1(Encode(Str(n))) == Str(n)
    ensures 13 !in Encode(Str(n))
  {
    NumeralsAreLowerCase(n);
    AsciiRoundTrip(Str(n));
  }

  // ---------------------------------------------------------------------
  // Substrings: Python's `needle in hay`
  // ---------------------------------------------------------------------

  /** The needle occurs in the haystack starting at index i. */
  predicate OccursAt(hay: string, needle: string, i: int)
  {
    0 <= i <= |hay| - |needle| && hay[i..i + |needle|] == needle
  }

  predicate Contains(hay: string, needle: string)
  {
    exists i | 0 <= i <= |hay| - |needle| :: OccursAt(hay, needle, i)
  }

  /** A needle holding a character the haystack lacks cannot occur in it. */
  lemma MissingCharExcludes(hay: string, needle: string, c: char)
    requires c in needle && c !in hay
    ensures !Contains(hay, needle)
  {
    var k :| 0 <= k < |needle| && needle[k] == c;
    forall i | 0 <= i <= |hay| - |needle|
      ensures !OccursAt(hay, needle, i)
    {
      assert hay[i..i + |needle|][k] == hay[i + k];
    }
  }

  /** A needle placed between two strings occurs in the result. */
  lemma ContainsPlaced(a: string, needle: string, b: string)
    ensures Contains(a + needle + b, needle)
  {
    var hay := a + needle + b;
    assert OccursAt(hay, needle, |a|);
  }
}
