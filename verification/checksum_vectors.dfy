/** Known answers of the checksum, worked out byte by byte and round by
    round: the checksum of a single zero byte, the CRC-16/MODBUS check value
    (the checksum of the ASCII digits "123456789" is 0x4B37), and the
    checksum of the body of the sample status frame.

    A register value is computed here only from facts proved one halving at
    a time (`Xor(a, b)` from `Xor(a / 2, b / 2)`), one shift round per
    lemma, and one input byte per lemma. The inputs are given byte by byte
    in the requires clauses rather than as sequence constants, which keeps
    each proof to the step it is about. */
module ChecksumVectors {
  import opened PyBuiltins
  import opened Checksum

  // ---------------------------------------------------------------------
  // Composing the steps
  // ---------------------------------------------------------------------

  /** One outer pass, given the register after the byte is mixed in and
      after each of the eight shift rounds. */
  lemma UpdateSteps(c: nat, b: byte, x: nat, v1: nat, v2: nat, v3: nat, v4: nat, v5: nat, v6: nat, v7: nat, v8: nat)
    requires Xor(c, b) == x
    requires ShiftRound(x) == v1 && ShiftRound(v1) == v2 && ShiftRound(v2) == v3 && ShiftRound(v3) == v4
    requires ShiftRound(v4) == v5 && ShiftRound(v5) == v6 && ShiftRound(v6) == v7 && ShiftRound(v7) == v8
    ensures Update(c, b) == v8
  {
    assert ShiftRounds(x, 1) == v1;
    assert ShiftRounds(x, 2) == v2;
    assert ShiftRounds(x, 3) == v3;
    assert ShiftRounds(x, 4) == v4;
    assert ShiftRounds(x, 5) == v5;
    assert ShiftRounds(x, 6) == v6;
    assert ShiftRounds(x, 7) == v7;
  }

  /** The register of a prefix one byte longer. */
  lemma RegisterSnoc(data: bytes, k: nat)
    requires k < |data|
    ensures Register(data[..k + 1]) == Update(Register(data[..k]), data[k])
  {
    assert data[..k + 1][..k] == data[..k];
  }

  // ---------------------------------------------------------------------
  // The vectors
  // ---------------------------------------------------------------------

  /** The checksum of one zero byte is 40 BF. */
  lemma ZeroByteChecksum(data: bytes)
    requires |data| == 1 && data[0] == 0
    ensures Crc16(data) == [0x40, 0xBF]
  {
    ZeroByteRegister(data);
    var r := Crc16(data);
    assert r[0] as int * 256 + r[1] as int == 0x40BF;
  }

  lemma ZeroByteRegister(data: bytes)
    requires |data| == 1 && data[0] == 0
    ensures Register(data) == 0x40BF
  {
    assert data[..0] == [];
    ZeroStep0(data);
    assert data[..1] == data;
  }

  /** The CRC-16/MODBUS check value: the checksum of the ASCII digits
      "123456789" is 0x4B37, sent as 4B 37. */
  lemma CheckValue(data: bytes)
    requires |data| == 9 && forall k :: 0 <= k < 9 ==> data[k] == 0x31 + k
    ensures Crc16(data) == [0x4B, 0x37]
  {
    CheckValueRegister(data);
    var r := Crc16(data);
    assert r[0] as int * 256 + r[1] as int == 0x4B37;
  }

  lemma CheckValueRegister(data: bytes)
    requires |data| == 9 && forall k :: 0 <= k < 9 ==> data[k] == 0x31 + k
    ensures Register(data) == 0x4B37
  {
    assert data[..0] == [];
    CheckStep0(data);
    CheckStep1(data);
    CheckStep2(data);
    CheckStep3(data);
    CheckStep4(data);
    CheckStep5(data);
    CheckStep6(data);
    CheckStep7(data);
    CheckStep8(data);
    assert data[..9] == data;
  }

  /** The checksum of the sample frame's 14-byte body is 0D 22, the frame's
      last two bytes. */
  lemma SampleBodyChecksum(data: bytes)
    requires |data| == 14
    requires data[0] == 0x20 && data[1] == 0x0C && data[2] == 0x01 && data[3] == 0x12 && data[4] == 0x03 && data[5] == 0x00 && data[6] == 0x03
    requires data[7] == 0x01 && data[8] == 0x12 && data[9] == 0x12 && data[10] == 0x15 && data[11] == 0x28 && data[12] == 0x0F && data[13] == 0x0E
    ensures Crc16(data) == [0x0D, 0x22]
  {
    SampleBodyRegister(data);
    var r := Crc16(data);
    assert r[0] as int * 256 + r[1] as int == 0x0D22;
  }

  lemma SampleBodyRegister(data: bytes)
    requires |data| == 14
    requires data[0] == 0x20 && data[1] == 0x0C && data[2] == 0x01 && data[3] == 0x12 && data[4] == 0x03 && data[5] == 0x00 && data[6] == 0x03
    requires data[7] == 0x01 && data[8] == 0x12 && data[9] == 0x12 && data[10] == 0x15 && data[11] == 0x28 && data[12] == 0x0F && data[13] == 0x0E
    ensures Register(data) == 0x0D22
  {
    assert data[..0] == [];
    SampleStep0(data);
    SampleStep1(data);
    SampleStep2(data);
    SampleStep3(data);
    SampleStep4(data);
    SampleStep5(data);
    SampleStep6(data);
    SampleStep7(data);
    SampleStep8(data);
    SampleStep9(data);
    SampleStep10(data);
    SampleStep11(data);
    SampleStep12(data);
    SampleStep13(data);
    assert data[..14] == data;
  }

  // ---------------------------------------------------------------------
  // The steps: one input byte each
  // ---------------------------------------------------------------------

  lemma ZeroStep0(data: bytes)
    requires 0 < |data| && data[0] == 0x00 && Register(data[..0]) == 0xFFFF
    ensures Register(data[..1]) == 0x40BF
  {
    RegisterSnoc(data, 0);
    MixFFFF00();
    RoundFFFF();
    Round6FFF();
    Round4BFF();
    Round42FF();
    UpdateSteps(Register(data[..0]), data[0], 0xFFFF, 0xDFFE, 0x6FFF, 0x97FE, 0x4BFF, 0x85FE, 0x42FF, 0x817E, 0x40BF);
  }
  lemma CheckStep0(data: bytes)
    requires 0 < |data| && data[0] == 0x31 && Register(data[..0]) == 0xFFFF
    ensures Register(data[..1]) == 0x947E
  {
    RegisterSnoc(data, 0);
    MixFFFF31();
    Round7FE7();
    Round4FF9();
    Round87FD();
    RoundE3FF();
    Round68FF();
    UpdateSteps(Register(data[..0]), data[0], 0xFFCE, 0x7FE7, 0x9FF2, 0x4FF9, 0x87FD, 0xE3FF, 0xD1FE, 0x68FF, 0x947E);
  }
  lemma CheckStep1(data: bytes)
    requires 1 < |data| && data[1] == 0x32 && Register(data[..1]) == 0x947E
    ensures Register(data[..2]) == 0xF595
  {
    RegisterSnoc(data, 1);
    Mix947E32();
    Round2513();
    Round1651();
    RoundAB29();
    UpdateSteps(Register(data[..1]), data[1], 0x944C, 0x4A26, 0x2513, 0xB288, 0x5944, 0x2CA2, 0x1651, 0xAB29, 0xF595);
  }
  lemma CheckStep2(data: bytes)
    requires 2 < |data| && data[2] == 0x33 && Register(data[..2]) == 0xF595
    ensures Register(data[..3]) == 0x7A75
  {
    RegisterSnoc(data, 2);
    MixF59533();
    Round7AD3();
    Round13AD();
    RoundA9D7();
    UpdateSteps(Register(data[..2]), data[2], 0xF5A6, 0x7AD3, 0x9D68, 0x4EB4, 0x275A, 0x13AD, 0xA9D7, 0xF4EA, 0x7A75);
  }
  lemma CheckStep3(data: bytes)
    requires 3 < |data| && data[3] == 0x34 && Register(data[..3]) == 0x7A75
    ensures Register(data[..4]) == 0x30BA
  {
    RegisterSnoc(data, 3);
    Mix7A7534();
    Round7A41();
    Round9D21();
    RoundEE91();
    RoundD749();
    RoundCBA5();
    RoundC5D3();
    UpdateSteps(Register(data[..3]), data[3], 0x7A41, 0x9D21, 0xEE91, 0xD749, 0xCBA5, 0xC5D3, 0xC2E8, 0x6174, 0x30BA);
  }
  lemma CheckStep4(data: bytes)
    requires 4 < |data| && data[4] == 0x35 && Register(data[..4]) == 0x30BA
    ensures Register(data[..5]) == 0xA471
  {
    RegisterSnoc(data, 4);
    Mix30BA35();
    Round308F();
    Round5C23();
    Round08E1();
    UpdateSteps(Register(data[..4]), data[4], 0x308F, 0xB846, 0x5C23, 0x8E10, 0x4708, 0x2384, 0x11C2, 0x08E1, 0xA471);
  }
  lemma CheckStep5(data: bytes)
    requires 5 < |data| && data[5] == 0x36 && Register(data[..5]) == 0xA471
    ensures Register(data[..6]) == 0x32E4
  {
    RegisterSnoc(data, 5);
    MixA47136();
    RoundA447();
    Round7911();
    Round9C89();
    RoundEE45();
    RoundD723();
    UpdateSteps(Register(data[..5]), data[5], 0xA447, 0xF222, 0x7911, 0x9C89, 0xEE45, 0xD723, 0xCB90, 0x65C8, 0x32E4);
  }
  lemma CheckStep6(data: bytes)
    requires 6 < |data| && data[6] == 0x37 && Register(data[..6]) == 0x32E4
    ensures Register(data[..7]) == 0x9D73
  {
    RegisterSnoc(data, 6);
    Mix32E437();
    Round32D3();
    Round172D();
    RoundAB97();
    Round7AE5();
    UpdateSteps(Register(data[..6]), data[6], 0x32D3, 0xB968, 0x5CB4, 0x2E5A, 0x172D, 0xAB97, 0xF5CA, 0x7AE5, 0x9D73);
  }
  lemma CheckStep7(data: bytes)
    requires 7 < |data| && data[7] == 0x38 && Register(data[..7]) == 0x9D73
    ensures Register(data[..8]) == 0x37DD
  {
    RegisterSnoc(data, 7);
    Mix9D7338();
    Round9D4B();
    Round3BA9();
    RoundBDD5();
    RoundFEEB();
    UpdateSteps(Register(data[..7]), data[7], 0x9D4B, 0xEEA4, 0x7752, 0x3BA9, 0xBDD5, 0xFEEB, 0xDF74, 0x6FBA, 0x37DD);
  }
  lemma CheckStep8(data: bytes)
    requires 8 < |data| && data[8] == 0x39 && Register(data[..8]) == 0x37DD
    ensures Register(data[..9]) == 0x4B37
  {
    RegisterSnoc(data, 8);
    Mix37DD39();
    Round0DF9();
    RoundA6FD();
    RoundF37F();
    Round6CDF();
    UpdateSteps(Register(data[..8]), data[8], 0x37E4, 0x1BF2, 0x0DF9, 0xA6FD, 0xF37F, 0xD9BE, 0x6CDF, 0x966E, 0x4B37);
  }
  lemma SampleStep0(data: bytes)
    requires 0 < |data| && data[0] == 0x20 && Register(data[..0]) == 0xFFFF
    ensures Register(data[..1]) == 0x98BE
  {
    RegisterSnoc(data, 0);
    MixFFFF20();
    RoundFFDF();
    Round6FF7();
    Round4BFD();
    Round85FF();
    Round717F();
    UpdateSteps(Register(data[..0]), data[0], 0xFFDF, 0xDFEE, 0x6FF7, 0x97FA, 0x4BFD, 0x85FF, 0xE2FE, 0x717F, 0x98BE);
  }
  lemma SampleStep1(data: bytes)
    requires 1 < |data| && data[1] == 0x0C && Register(data[..1]) == 0x98BE
    ensures Register(data[..2]) == 0x7518
  {
    RegisterSnoc(data, 1);
    Mix98BE0C();
    Round4C59();
    Round862D();
    RoundE317();
    Round68C5();
    Round9463();
    UpdateSteps(Register(data[..1]), data[1], 0x98B2, 0x4C59, 0x862D, 0xE317, 0xD18A, 0x68C5, 0x9463, 0xEA30, 0x7518);
  }
  lemma SampleStep2(data: bytes)
    requires 2 < |data| && data[2] == 0x01 && Register(data[..2]) == 0x7518
    ensures Register(data[..3]) == 0xCAB4
  {
    RegisterSnoc(data, 2);
    Mix751801();
    Round7519();
    Round9A8D();
    RoundED47();
    Round6B51();
    Round95A9();
    RoundEAD5();
    RoundD56B();
    UpdateSteps(Register(data[..2]), data[2], 0x7519, 0x9A8D, 0xED47, 0xD6A2, 0x6B51, 0x95A9, 0xEAD5, 0xD56B, 0xCAB4);
  }
  lemma SampleStep3(data: bytes)
    requires 3 < |data| && data[3] == 0x12 && Register(data[..3]) == 0xCAB4
    ensures Register(data[..4]) == 0x7A4A
  {
    RegisterSnoc(data, 3);
    MixCAB412();
    Round6553();
    Round1255();
    RoundA92B();
    UpdateSteps(Register(data[..3]), data[3], 0xCAA6, 0x6553, 0x92A8, 0x4954, 0x24AA, 0x1255, 0xA92B, 0xF494, 0x7A4A);
  }
  lemma SampleStep4(data: bytes)
    requires 4 < |data| && data[4] == 0x03 && Register(data[..4]) == 0x7A4A
    ensures Register(data[..5]) == 0xF6BB
  {
    RegisterSnoc(data, 4);
    Mix7A4A03();
    Round7A49();
    Round9D25();
    RoundEE93();
    Round1AE9();
    RoundAD75();
    UpdateSteps(Register(data[..4]), data[4], 0x7A49, 0x9D25, 0xEE93, 0xD748, 0x6BA4, 0x35D2, 0x1AE9, 0xAD75, 0xF6BB);
  }
  lemma SampleStep5(data: bytes)
    requires 5 < |data| && data[5] == 0x00 && Register(data[..5]) == 0xF6BB
    ensures Register(data[..6]) == 0x73B6
  {
    RegisterSnoc(data, 5);
    MixF6BB00();
    RoundF6BB();
    Round36D7();
    Round5DB5();
    Round8EDB();
    UpdateSteps(Register(data[..5]), data[5], 0xF6BB, 0xDB5C, 0x6DAE, 0x36D7, 0xBB6A, 0x5DB5, 0x8EDB, 0xE76C, 0x73B6);
  }
  lemma SampleStep6(data: bytes)
    requires 6 < |data| && data[6] == 0x03 && Register(data[..6]) == 0x73B6
    ensures Register(data[..7]) == 0xB7B2
  {
    RegisterSnoc(data, 6);
    Mix73B603();
    Round73B5();
    Round99DB();
    Round3B3B();
    Round2F67();
    UpdateSteps(Register(data[..6]), data[6], 0x73B5, 0x99DB, 0xECEC, 0x7676, 0x3B3B, 0xBD9C, 0x5ECE, 0x2F67, 0xB7B2);
  }
  lemma SampleStep7(data: bytes)
    requires 7 < |data| && data[7] == 0x01 && Register(data[..7]) == 0xB7B2
    ensures Register(data[..8]) == 0xB5F6
  {
    RegisterSnoc(data, 7);
    MixB7B201();
    RoundB7B3();
    Round1F7B();
    Round2BEF();
    UpdateSteps(Register(data[..7]), data[7], 0xB7B3, 0xFBD8, 0x7DEC, 0x3EF6, 0x1F7B, 0xAFBC, 0x57DE, 0x2BEF, 0xB5F6);
  }
  lemma SampleStep8(data: bytes)
    requires 8 < |data| && data[8] == 0x12 && Register(data[..8]) == 0xB5F6
    ensures Register(data[..9]) == 0x4BB5
  {
    RegisterSnoc(data, 8);
    MixB5F612();
    Round2D79();
    RoundB6BD();
    RoundFB5F();
    Round6ED7();
    UpdateSteps(Register(data[..8]), data[8], 0xB5E4, 0x5AF2, 0x2D79, 0xB6BD, 0xFB5F, 0xDDAE, 0x6ED7, 0x976A, 0x4BB5);
  }
  lemma SampleStep9(data: bytes)
    requires 9 < |data| && data[9] == 0x12 && Register(data[..9]) == 0x4BB5
    ensures Register(data[..10]) == 0xBA0A
  {
    RegisterSnoc(data, 9);
    Mix4BB512();
    Round4BA7();
    Round42E9();
    Round8175();
    RoundE0BB();
    Round3417();
    UpdateSteps(Register(data[..9]), data[9], 0x4BA7, 0x85D2, 0x42E9, 0x8175, 0xE0BB, 0xD05C, 0x682E, 0x3417, 0xBA0A);
  }
  lemma SampleStep10(data: bytes)
    requires 10 < |data| && data[10] == 0x15 && Register(data[..10]) == 0xBA0A
    ensures Register(data[..11]) == 0xC8FB
  {
    RegisterSnoc(data, 10);
    MixBA0A15();
    RoundBA1F();
    Round7E87();
    Round4FA1();
    Round87D1();
    RoundE3E9();
    RoundD1F5();
    UpdateSteps(Register(data[..10]), data[10], 0xBA1F, 0xFD0E, 0x7E87, 0x9F42, 0x4FA1, 0x87D1, 0xE3E9, 0xD1F5, 0xC8FB);
  }
  lemma SampleStep11(data: bytes)
    requires 11 < |data| && data[11] == 0x28 && Register(data[..11]) == 0xC8FB
    ensures Register(data[..12]) == 0x9D89
  {
    RegisterSnoc(data, 11);
    MixC8FB28();
    RoundC8D3();
    Round188D();
    RoundAC47();
    Round7B11();
    UpdateSteps(Register(data[..11]), data[11], 0xC8D3, 0xC468, 0x6234, 0x311A, 0x188D, 0xAC47, 0xF622, 0x7B11, 0x9D89);
  }
  lemma SampleStep12(data: bytes)
    requires 12 < |data| && data[12] == 0x0F && Register(data[..12]) == 0x9D89
    ensures Register(data[..13]) == 0xA21C
  {
    RegisterSnoc(data, 12);
    Mix9D890F();
    Round4EC3();
    Round043B();
    UpdateSteps(Register(data[..12]), data[12], 0x9D86, 0x4EC3, 0x8760, 0x43B0, 0x21D8, 0x10EC, 0x0876, 0x043B, 0xA21C);
  }
  lemma SampleStep13(data: bytes)
    requires 13 < |data| && data[13] == 0x0E && Register(data[..13]) == 0xA21C
    ensures Register(data[..14]) == 0x0D22
  {
    RegisterSnoc(data, 13);
    MixA21C0E();
    Round5109();
    Round8885();
    RoundE443();
    UpdateSteps(Register(data[..13]), data[13], 0xA212, 0x5109, 0x8885, 0xE443, 0xD220, 0x6910, 0x3488, 0x1A44, 0x0D22);
  }

  // ---------------------------------------------------------------------
  // Mixing in a byte and single shift rounds, one halving at a time
  // ---------------------------------------------------------------------

  lemma MixFFFF00()
    ensures Xor(0xFFFF, 0x00) == 0xFFFF
  {
    assert Xor(0x01, 0x00) == 0x01;
    assert Xor(0x03, 0x00) == 0x03;
    assert Xor(0x07, 0x00) == 0x07;
    assert Xor(0x0F, 0x00) == 0x0F;
    assert Xor(0x1F, 0x00) == 0x1F;
    assert Xor(0x3F, 0x00) == 0x3F;
    assert Xor(0x7F, 0x00) == 0x7F;
    assert Xor(0xFF, 0x00) == 0xFF;
    assert Xor(0x01FF, 0x00) == 0x01FF;
    assert Xor(0x03FF, 0x00) == 0x03FF;
    assert Xor(0x07FF, 0x00) == 0x07FF;
    assert Xor(0x0FFF, 0x00) == 0x0FFF;
    assert Xor(0x1FFF, 0x00) == 0x1FFF;
    assert Xor(0x3FFF, 0x00) == 0x3FFF;
    assert Xor(0x7FFF, 0x00) == 0x7FFF;
    assert Xor(0xFFFF, 0x00) == 0xFFFF;
  }
  lemma RoundFFFF()
    ensures ShiftRound(0xFFFF) == 0xDFFE
  {
    assert Xor(0x00, 0x01) == 0x01;
    assert Xor(0x01, 0x02) == 0x03;
    assert Xor(0x03, 0x05) == 0x06;
    assert Xor(0x07, 0x0A) == 0x0D;
    assert Xor(0x0F, 0x14) == 0x1B;
    assert Xor(0x1F, 0x28) == 0x37;
    assert Xor(0x3F, 0x50) == 0x6F;
    assert Xor(0x7F, 0xA0) == 0xDF;
    assert Xor(0xFF, 0x0140) == 0x01BF;
    assert Xor(0x01FF, 0x0280) == 0x037F;
    assert Xor(0x03FF, 0x0500) == 0x06FF;
    assert Xor(0x07FF, 0x0A00) == 0x0DFF;
    assert Xor(0x0FFF, 0x1400) == 0x1BFF;
    assert Xor(0x1FFF, 0x2800) == 0x37FF;
    assert Xor(0x3FFF, 0x5000) == 0x6FFF;
    assert Xor(0x7FFF, 0xA001) == 0xDFFE;
  }
  lemma Round6FFF()
    ensures ShiftRound(0x6FFF) == 0x97FE
  {
    assert Xor(0x00, 0x01) == 0x01;
    assert Xor(0x00, 0x02) == 0x02;
    assert Xor(0x01, 0x05) == 0x04;
    assert Xor(0x03, 0x0A) == 0x09;
    assert Xor(0x06, 0x14) == 0x12;
    assert Xor(0x0D, 0x28) == 0x25;
    assert Xor(0x1B, 0x50) == 0x4B;
    assert Xor(0x37, 0xA0) == 0x97;
    assert Xor(0x6F, 0x0140) == 0x012F;
    assert Xor(0xDF, 0x0280) == 0x025F;
    assert Xor(0x01BF, 0x0500) == 0x04BF;
    assert Xor(0x037F, 0x0A00) == 0x097F;
    assert Xor(0x06FF, 0x1400) == 0x12FF;
    assert Xor(0x0DFF, 0x2800) == 0x25FF;
    assert Xor(0x1BFF, 0x5000) == 0x4BFF;
    assert Xor(0x37FF, 0xA001) == 0x97FE;
  }
  lemma Round4BFF()
    ensures ShiftRound(0x4BFF) == 0x85FE
  {
    assert Xor(0x00, 0x01) == 0x01;
    assert Xor(0x00, 0x02) == 0x02;
    assert Xor(0x01, 0x05) == 0x04;
    assert Xor(0x02, 0x0A) == 0x08;
    assert Xor(0x04, 0x14) == 0x10;
    assert Xor(0x09, 0x28) == 0x21;
    assert Xor(0x12, 0x50) == 0x42;
    assert Xor(0x25, 0xA0) == 0x85;
    assert Xor(0x4B, 0x0140) == 0x010B;
    assert Xor(0x97, 0x0280) == 0x0217;
    assert Xor(0x012F, 0x0500) == 0x042F;
    assert Xor(0x025F, 0x0A00) == 0x085F;
    assert Xor(0x04BF, 0x1400) == 0x10BF;
    assert Xor(0x097F, 0x2800) == 0x217F;
    assert Xor(0x12FF, 0x5000) == 0x42FF;
    assert Xor(0x25FF, 0xA001) == 0x85FE;
  }
  lemma Round42FF()
    ensures ShiftRound(0x42FF) == 0x817E
  {
    assert Xor(0x00, 0x01) == 0x01;
    assert Xor(0x00, 0x02) == 0x02;
    assert Xor(0x01, 0x05) == 0x04;
    assert Xor(0x02, 0x0A) == 0x08;
    assert Xor(0x04, 0x14) == 0x10;
    assert Xor(0x08, 0x28) == 0x20;
    assert Xor(0x10, 0x50) == 0x40;
    assert Xor(0x21, 0xA0) == 0x81;
    assert Xor(0x42, 0x0140) == 0x0102;
    assert Xor(0x85, 0x0280) == 0x0205;
    assert Xor(0x010B, 0x0500) == 0x040B;
    assert Xor(0x0217, 0x0A00) == 0x0817;
    assert Xor(0x042F, 0x1400) == 0x102F;
    assert Xor(0x085F, 0x2800) == 0x205F;
    assert Xor(0x10BF, 0x5000) == 0x40BF;
    assert Xor(0x217F, 0xA001) == 0x817E;
  }
  lemma MixFFFF31()
    ensures Xor(0xFFFF, 0x31) == 0xFFCE
  {
    assert Xor(0x01, 0x00) == 0x01;
    assert Xor(0x03, 0x00) == 0x03;
    assert Xor(0x07, 0x00) == 0x07;
    assert Xor(0x0F, 0x00) == 0x0F;
    assert Xor(0x1F, 0x00) == 0x1F;
    assert Xor(0x3F, 0x00) == 0x3F;
    assert Xor(0x7F, 0x00) == 0x7F;
    assert Xor(0xFF, 0x00) == 0xFF;
    assert Xor(0x01FF, 0x00) == 0x01FF;
    assert Xor(0x03FF, 0x00) == 0x03FF;
    assert Xor(0x07FF, 0x01) == 0x07FE;
    assert Xor(0x0FFF, 0x03) == 0x0FFC;
    assert Xor(0x1FFF, 0x06) == 0x1FF9;
    assert Xor(0x3FFF, 0x0C) == 0x3FF3;
    assert Xor(0x7FFF, 0x18) == 0x7FE7;
    assert Xor(0xFFFF, 0x31) == 0xFFCE;
  }
  lemma Round7FE7()
    ensures ShiftRound(0x7FE7) == 0x9FF2
  {
    assert Xor(0x00, 0x01) == 0x01;
    assert Xor(0x00, 0x02) == 0x02;
    assert Xor(0x01, 0x05) == 0x04;
    assert Xor(0x03, 0x0A) == 0x09;
    assert Xor(0x07, 0x14) == 0x13;
    assert Xor(0x0F, 0x28) == 0x27;
    assert Xor(0x1F, 0x50) == 0x4F;
    assert Xor(0x3F, 0xA0) == 0x9F;
    assert Xor(0x7F, 0x0140) == 0x013F;
    assert Xor(0xFF, 0x0280) == 0x027F;
    assert Xor(0x01FF, 0x0500) == 0x04FF;
    assert Xor(0x03FF, 0x0A00) == 0x09FF;
    assert Xor(0x07FE, 0x1400) == 0x13FE;
    assert Xor(0x0FFC, 0x2800) == 0x27FC;
    assert Xor(0x1FF9, 0x5000) == 0x4FF9;
    assert Xor(0x3FF3, 0xA001) == 0x9FF2;
  }
  lemma Round4FF9()
    ensures ShiftRound(0x4FF9) == 0x87FD
  {
    assert Xor(0x00, 0x01) == 0x01;
    assert Xor(0x00, 0x02) == 0x02;
    assert Xor(0x01, 0x05) == 0x04;
    assert Xor(0x02, 0x0A) == 0x08;
    assert Xor(0x04, 0x14) == 0x10;
    assert Xor(0x09, 0x28) == 0x21;
    assert Xor(0x13, 0x50) == 0x43;
    assert Xor(0x27, 0xA0) == 0x87;
    assert Xor(0x4F, 0x0140) == 0x010F;
    assert Xor(0x9F, 0x0280) == 0x021F;
    assert Xor(0x013F, 0x0500) == 0x043F;
    assert Xor(0x027F, 0x0A00) == 0x087F;
    assert Xor(0x04FF, 0x1400) == 0x10FF;
    assert Xor(0x09FF, 0x2800) == 0x21FF;
    assert Xor(0x13FE, 0x5000) == 0x43FE;
    assert Xor(0x27FC, 0xA001) == 0x87FD;
  }
  lemma Round87FD()
    ensures ShiftRound(0x87FD) == 0xE3FF
  {
    assert Xor(0x00, 0x01) == 0x01;
    assert Xor(0x01, 0x02) == 0x03;
    assert Xor(0x02, 0x05) == 0x07;
    assert Xor(0x04, 0x0A) == 0x0E;
    assert Xor(0x08, 0x14) == 0x1C;
    assert Xor(0x10, 0x28) == 0x38;
    assert Xor(0x21, 0x50) == 0x71;
    assert Xor(0x43, 0xA0) == 0xE3;
    assert Xor(0x87, 0x0140) == 0x01C7;
    assert Xor(0x010F, 0x0280) == 0x038F;
    assert Xor(0x021F, 0x0500) == 0x071F;
    assert Xor(0x043F, 0x0A00) == 0x0E3F;
    assert Xor(0x087F, 0x1400) == 0x1C7F;
    assert Xor(0x10FF, 0x2800) == 0x38FF;
    assert Xor(0x21FF, 0x5000) == 0x71FF;
    assert Xor(0x43FE, 0xA001) == 0xE3FF;
  }
  lemma RoundE3FF()
    ensures ShiftRound(0xE3FF) == 0xD1FE
  {
    assert Xor(0x00, 0x01) == 0x01;
    assert Xor(0x01, 0x02) == 0x03;
    assert Xor(0x03, 0x05) == 0x06;
    assert Xor(0x07, 0x0A) == 0x0D;
    assert Xor(0x0E, 0x14) == 0x1A;
    assert Xor(0x1C, 0x28) == 0x34;
    assert Xor(0x38, 0x50) == 0x68;
    assert Xor(0x71, 0xA0) == 0xD1;
    assert Xor(0xE3, 0x0140) == 0x01A3;
    assert Xor(0x01C7, 0x0280) == 0x0347;
    assert Xor(0x038F, 0x0500) == 0x068F;
    assert Xor(0x071F, 0x0A00) == 0x0D1F;
    assert Xor(0x0E3F, 0x1400) == 0x1A3F;
    assert Xor(0x1C7F, 0x2800) == 0x347F;
    assert Xor(0x38FF, 0x5000) == 0x68FF;
    assert Xor(0x71FF, 0xA001) == 0xD1FE;
  }
  lemma Round68FF()
    ensures ShiftRound(0x68FF) == 0x947E
  {
    assert Xor(0x00, 0x01) == 0x01;
    assert Xor(0x00, 0x02) == 0x02;
    assert Xor(0x01, 0x05) == 0x04;
    assert Xor(0x03, 0x0A) == 0x09;
    assert Xor(0x06, 0x14) == 0x12;
    assert Xor(0x0D, 0x28) == 0x25;
    assert Xor(0x1A, 0x50) == 0x4A;
    assert Xor(0x34, 0xA0) == 0x94;
    assert Xor(0x68, 0x0140) == 0x0128;
    assert Xor(0xD1, 0x0280) == 0x0251;
    assert Xor(0x01A3, 0x0500) == 0x04A3;
    assert Xor(0x0347, 0x0A00) == 0x0947;
    assert Xor(0x068F, 0x1400) == 0x128F;
    assert Xor(0x0D1F, 0x2800) == 0x251F;
    assert Xor(0x1A3F, 0x5000) == 0x4A3F;
    assert Xor(0x347F, 0xA001) == 0x947E;
  }
  lemma Mix947E32()
    ensures Xor(0x947E, 0x32) == 0x944C
  {
    assert Xor(0x01, 0x00) == 0x01;
    assert Xor(0x02, 0x00) == 0x02;
    assert Xor(0x04, 0x00) == 0x04;
    assert Xor(0x09, 0x00) == 0x09;
    assert Xor(0x12, 0x00) == 0x12;
    assert Xor(0x25, 0x00) == 0x25;
    assert Xor(0x4A, 0x00) == 0x4A;
    assert Xor(0x94, 0x00) == 0x94;
    assert Xor(0x0128, 0x00) == 0x0128;
    assert Xor(0x0251, 0x00) == 0x0251;
    assert Xor(0x04A3, 0x01) == 0x04A2;
    assert Xor(0x0947, 0x03) == 0x0944;
    assert Xor(0x128F, 0x06) == 0x1289;
    assert Xor(0x251F, 0x0C) == 0x2513;
    assert Xor(0x4A3F, 0x19) == 0x4A26;
    assert Xor(0x947E, 0x32) == 0x944C;
  }
  lemma Round2513()
    ensures ShiftRound(0x2513) == 0xB288
  {
    assert Xor(0x00, 0x01) == 0x01;
    assert Xor(0x00, 0x02) == 0x02;
    assert Xor(0x00, 0x05) == 0x05;
    assert Xor(0x01, 0x0A) == 0x0B;
    assert Xor(0x02, 0x14) == 0x16;
    assert Xor(0x04, 0x28) == 0x2C;
    assert Xor(0x09, 0x50) == 0x59;
    assert Xor(0x12, 0xA0) == 0xB2;
    assert Xor(0x25, 0x0140) == 0x0165;
    assert Xor(0x4A, 0x0280) == 0x02CA;
    assert Xor(0x94, 0x0500) == 0x0594;
    assert Xor(0x0128, 0x0A00) == 0x0B28;
    assert Xor(0x0251, 0x1400) == 0x1651;
    assert Xor(0x04A2, 0x2800) == 0x2CA2;
    assert Xor(0x0944, 0x5000) == 0x5944;
    assert Xor(0x1289, 0xA001) == 0xB288;
  }
  lemma Round1651()
    ensures ShiftRound(0x1651) == 0xAB29
  {
    assert Xor(0x00, 0x01) == 0x01;
    assert Xor(0x00, 0x02) == 0x02;
    assert Xor(0x00, 0x05) == 0x05;
    assert Xor(0x00, 0x0A) == 0x0A;
    assert Xor(0x01, 0x14) == 0x15;
    assert Xor(0x02, 0x28) == 0x2A;
    assert Xor(0x05, 0x50) == 0x55;
    assert Xor(0x0B, 0xA0) == 0xAB;
    assert Xor(0x16, 0x0140) == 0x0156;
    assert Xor(0x2C, 0x0280) == 0x02AC;
    assert Xor(0x59, 0x0500) == 0x0559;
    assert Xor(0xB2, 0x0A00) == 0x0AB2;
    assert Xor(0x0165, 0x1400) == 0x1565;
    assert Xor(0x02CA, 0x2800) == 0x2ACA;
    assert Xor(0x0594, 0x5000) == 0x5594;
    assert Xor(0x0B28, 0xA001) == 0xAB29;
  }
  lemma RoundAB29()
    ensures ShiftRound(0xAB29) == 0xF595
  {
    assert Xor(0x00, 0x01) == 0x01;
    assert Xor(0x01, 0x02) == 0x03;
    assert Xor(0x02, 0x05) == 0x07;
    assert Xor(0x05, 0x0A) == 0x0F;
    assert Xor(0x0A, 0x14) == 0x1E;
    assert Xor(0x15, 0x28) == 0x3D;
    assert Xor(0x2A, 0x50) == 0x7A;
    assert Xor(0x55, 0xA0) == 0xF5;
    assert Xor(0xAB, 0x0140) == 0x01EB;
    assert Xor(0x0156, 0x0280) == 0x03D6;
    assert Xor(0x02AC, 0x0500) == 0x07AC;
    assert Xor(0x0559, 0x0A00) == 0x0F59;
    assert Xor(0x0AB2, 0x1400) == 0x1EB2;
    assert Xor(0x1565, 0x2800) == 0x3D65;
    assert Xor(0x2ACA, 0x5000) == 0x7ACA;
    assert Xor(0x5594, 0xA001) == 0xF595;
  }
  lemma MixF59533()
    ensures Xor(0xF595, 0x33) == 0xF5A6
  {
    assert Xor(0x01, 0x00) == 0x01;
    assert Xor(0x03, 0x00) == 0x03;
    assert Xor(0x07, 0x00) == 0x07;
    assert Xor(0x0F, 0x00) == 0x0F;
    assert Xor(0x1E, 0x00) == 0x1E;
    assert Xor(0x3D, 0x00) == 0x3D;
    assert Xor(0x7A, 0x00) == 0x7A;
    assert Xor(0xF5, 0x00) == 0xF5;
    assert Xor(0x01EB, 0x00) == 0x01EB;
    assert Xor(0x03D6, 0x00) == 0x03D6;
    assert Xor(0x07AC, 0x01) == 0x07AD;
    assert Xor(0x0F59, 0x03) == 0x0F5A;
    assert Xor(0x1EB2, 0x06) == 0x1EB4;
    assert Xor(0x3D65, 0x0C) == 0x3D69;
    assert Xor(0x7ACA, 0x19) == 0x7AD3;
    assert Xor(0xF595, 0x33) == 0xF5A6;
  }
  lemma Round7AD3()
    ensures ShiftRound(0x7AD3) == 0x9D68
  {
    assert Xor(0x00, 0x01) == 0x01;
    assert Xor(0x00, 0x02) == 0x02;
    assert Xor(0x01, 0x05) == 0x04;
    assert Xor(0x03, 0x0A) == 0x09;
    assert Xor(0x07, 0x14) == 0x13;
    assert Xor(0x0F, 0x28) == 0x27;
    assert Xor(0x1E, 0x50) == 0x4E;
    assert Xor(0x3D, 0xA0) == 0x9D;
    assert Xor(0x7A, 0x0140) == 0x013A;
    assert Xor(0xF5, 0x0280) == 0x0275;
    assert Xor(0x01EB, 0x0500) == 0x04EB;
    assert Xor(0x03D6, 0x0A00) == 0x09D6;
    assert Xor(0x07AD, 0x1400) == 0x13AD;
    assert Xor(0x0F5A, 0x2800) == 0x275A;
    assert Xor(0x1EB4, 0x5000) == 0x4EB4;
    assert Xor(0x3D69, 0xA001) == 0x9D68;
  }
  lemma Round13AD()
    ensures ShiftRound(0x13AD) == 0xA9D7
  {
    assert Xor(0x00, 0x01) == 0x01;
    assert Xor(0x00, 0x02) == 0x02;
    assert Xor(0x00, 0x05) == 0x05;
    assert Xor(0x00, 0x0A) == 0x0A;
    assert Xor(0x01, 0x14) == 0x15;
    assert Xor(0x02, 0x28) == 0x2A;
    assert Xor(0x04, 0x50) == 0x54;
    assert Xor(0x09, 0xA0) == 0xA9;
    assert Xor(0x13, 0x0140) == 0x0153;
    assert Xor(0x27, 0x0280) == 0x02A7;
    assert Xor(0x4E, 0x0500) == 0x054E;
    assert Xor(0x9D, 0x0A00) == 0x0A9D;
    assert Xor(0x013A, 0x1400) == 0x153A;
    assert Xor(0x0275, 0x2800) == 0x2A75;
    assert Xor(0x04EB, 0x5000) == 0x54EB;
    assert Xor(0x09D6, 0xA001) == 0xA9D7;
  }
  lemma RoundA9D7()
    ensures ShiftRound(0xA9D7) == 0xF4EA
  {
    assert Xor(0x00, 0x01) == 0x01;
    assert Xor(0x01, 0x02) == 0x03;
    assert Xor(0x02, 0x05) == 0x07;
    assert Xor(0x05, 0x0A) == 0x0F;
    assert Xor(0x0A, 0x14) == 0x1E;
    assert Xor(0x15, 0x28) == 0x3D;
    assert Xor(0x2A, 0x50) == 0x7A;
    assert Xor(0x54, 0xA0) == 0xF4;
    assert Xor(0xA9, 0x0140) == 0x01E9;
    assert Xor(0x0153, 0x0280) == 0x03D3;
    assert Xor(0x02A7, 0x0500) == 0x07A7;
    assert Xor(0x054E, 0x0A00) == 0x0F4E;
    assert Xor(0x0A9D, 0x1400) == 0x1E9D;
    assert Xor(0x153A, 0x2800) == 0x3D3A;
    assert Xor(0x2A75, 0x5000) == 0x7A75;
    assert Xor(0x54EB, 0xA001) == 0xF4EA;
  }
  lemma Mix7A7534()
    ensures Xor(0x7A75, 0x34) == 0x7A41
  {
    assert Xor(0x01, 0x00) == 0x01;
    assert Xor(0x03, 0x00) == 0x03;
    assert Xor(0x07, 0x00) == 0x07;
    assert Xor(0x0F, 0x00) == 0x0F;
    assert Xor(0x1E, 0x00) == 0x1E;
    assert Xor(0x3D, 0x00) == 0x3D;
    assert Xor(0x7A, 0x00) == 0x7A;
    assert Xor(0xF4, 0x00) == 0xF4;
    assert Xor(0x01E9, 0x00) == 0x01E9;
    assert Xor(0x03D3, 0x01) == 0x03D2;
    assert Xor(0x07A7, 0x03) == 0x07A4;
    assert Xor(0x0F4E, 0x06) == 0x0F48;
    assert Xor(0x1E9D, 0x0D) == 0x1E90;
    assert Xor(0x3D3A, 0x1A) == 0x3D20;
    assert Xor(0x7A75, 0x34) == 0x7A41;
  }
  lemma Round7A41()
    ensures ShiftRound(0x7A41) == 0x9D21
  {
    assert Xor(0x00, 0x01) == 0x01;
    assert Xor(0x00, 0x02) == 0x02;
    assert Xor(0x01, 0x05) == 0x04;
    assert Xor(0x03, 0x0A) == 0x09;
    assert Xor(0x07, 0x14) == 0x13;
    assert Xor(0x0F, 0x28) == 0x27;
    assert Xor(0x1E, 0x50) == 0x4E;
    assert Xor(0x3D, 0xA0) == 0x9D;
    assert Xor(0x7A, 0x0140) == 0x013A;
    assert Xor(0xF4, 0x0280) == 0x0274;
    assert Xor(0x01E9, 0x0500) == 0x04E9;
    assert Xor(0x03D2, 0x0A00) == 0x09D2;
    assert Xor(0x07A4, 0x1400) == 0x13A4;
    assert Xor(0x0F48, 0x2800) == 0x2748;
    assert Xor(0x1E90, 0x5000) == 0x4E90;
    assert Xor(0x3D20, 0xA001) == 0x9D21;
  }
  lemma Round9D21()
    ensures ShiftRound(0x9D21) == 0xEE91
  {
    assert Xor(0x00, 0x01) == 0x01;
    assert Xor(0x01, 0x02) == 0x03;
    assert Xor(0x02, 0x05) == 0x07;
    assert Xor(0x04, 0x0A) == 0x0E;
    assert Xor(0x09, 0x14) == 0x1D;
    assert Xor(0x13, 0x28) == 0x3B;
    assert Xor(0x27, 0x50) == 0x77;
    assert Xor(0x4E, 0xA0) == 0xEE;
    assert Xor(0x9D, 0x0140) == 0x01DD;
    assert Xor(0x013A, 0x0280) == 0x03BA;
    assert Xor(0x0274, 0x0500) == 0x0774;
    assert Xor(0x04E9, 0x0A00) == 0x0EE9;
    assert Xor(0x09D2, 0x1400) == 0x1DD2;
    assert Xor(0x13A4, 0x2800) == 0x3BA4;
    assert Xor(0x2748, 0x5000) == 0x7748;
    assert Xor(0x4E90, 0xA001) == 0xEE91;
  }
  lemma RoundEE91()
    ensures ShiftRound(0xEE91) == 0xD749
  {
    assert Xor(0x00, 0x01) == 0x01;
    assert Xor(0x01, 0x02) == 0x03;
    assert Xor(0x03, 0x05) == 0x06;
    assert Xor(0x07, 0x0A) == 0x0D;
    assert Xor(0x0E, 0x14) == 0x1A;
    assert Xor(0x1D, 0x28) == 0x35;
    assert Xor(0x3B, 0x50) == 0x6B;
    assert Xor(0x77, 0xA0) == 0xD7;
    assert Xor(0xEE, 0x0140) == 0x01AE;
    assert Xor(0x01DD, 0x0280) == 0x035D;
    assert Xor(0x03BA, 0x0500) == 0x06BA;
    assert Xor(0x0774, 0x0A00) == 0x0D74;
    assert Xor(0x0EE9, 0x1400) == 0x1AE9;
    assert Xor(0x1DD2, 0x2800) == 0x35D2;
    assert Xor(0x3BA4, 0x5000) == 0x6BA4;
    assert Xor(0x7748, 0xA001) == 0xD749;
  }
  lemma RoundD749()
    ensures ShiftRound(0xD749) == 0xCBA5
  {
    assert Xor(0x00, 0x01) == 0x01;
    assert Xor(0x01, 0x02) == 0x03;
    assert Xor(0x03, 0x05) == 0x06;
    assert Xor(0x06, 0x0A) == 0x0C;
    assert Xor(0x0D, 0x14) == 0x19;
    assert Xor(0x1A, 0x28) == 0x32;
    assert Xor(0x35, 0x50) == 0x65;
    assert Xor(0x6B, 0xA0) == 0xCB;
    assert Xor(0xD7, 0x0140) == 0x0197;
    assert Xor(0x01AE, 0x0280) == 0x032E;
    assert Xor(0x035D, 0x0500) == 0x065D;
    assert Xor(0x06BA, 0x0A00) == 0x0CBA;
    assert Xor(0x0D74, 0x1400) == 0x1974;
    assert Xor(0x1AE9, 0x2800) == 0x32E9;
    assert Xor(0x35D2, 0x5000) == 0x65D2;
    assert Xor(0x6BA4, 0xA001) == 0xCBA5;
  }
  lemma RoundCBA5()
    ensures ShiftRound(0xCBA5) == 0xC5D3
  {
    assert Xor(0x00, 0x01) == 0x01;
    assert Xor(0x01, 0x02) == 0x03;
    assert Xor(0x03, 0x05) == 0x06;
    assert Xor(0x06, 0x0A) == 0x0C;
    assert Xor(0x0C, 0x14) == 0x18;
    assert Xor(0x19, 0x28) == 0x31;
    assert Xor(0x32, 0x50) == 0x62;
    assert Xor(0x65, 0xA0) == 0xC5;
    assert Xor(0xCB, 0x0140) == 0x018B;
    assert Xor(0x0197, 0x0280) == 0x0317;
    assert Xor(0x032E, 0x0500) == 0x062E;
    assert Xor(0x065D, 0x0A00) == 0x0C5D;
    assert Xor(0x0CBA, 0x1400) == 0x18BA;
    assert Xor(0x1974, 0x2800) == 0x3174;
    assert Xor(0x32E9, 0x5000) == 0x62E9;
    assert Xor(0x65D2, 0xA001) == 0xC5D3;
  }
  lemma RoundC5D3()
    ensures ShiftRound(0xC5D3) == 0xC2E8
  {
    assert Xor(0x00, 0x01) == 0x01;
    assert Xor(0x01, 0x02) == 0x03;
    assert Xor(0x03, 0x05) == 0x06;
    assert Xor(0x06, 0x0A) == 0x0C;
    assert Xor(0x0C, 0x14) == 0x18;
    assert Xor(0x18, 0x28) == 0x30;
    assert Xor(0x31, 0x50) == 0x61;
    assert Xor(0x62, 0xA0) == 0xC2;
    assert Xor(0xC5, 0x0140) == 0x0185;
    assert Xor(0x018B, 0x0280) == 0x030B;
    assert Xor(0x0317, 0x0500) == 0x0617;
    assert Xor(0x062E, 0x0A00) == 0x0C2E;
    assert Xor(0x0C5D, 0x1400) == 0x185D;
    assert Xor(0x18BA, 0x2800) == 0x30BA;
    assert Xor(0x3174, 0x5000) == 0x6174;
    assert Xor(0x62E9, 0xA001) == 0xC2E8;
  }
  lemma Mix30BA35()
    ensures Xor(0x30BA, 0x35) == 0x308F
  {
    assert Xor(0x01, 0x00) == 0x01;
    assert Xor(0x03, 0x00) == 0x03;
    assert Xor(0x06, 0x00) == 0x06;
    assert Xor(0x0C, 0x00) == 0x0C;
    assert Xor(0x18, 0x00) == 0x18;
    assert Xor(0x30, 0x00) == 0x30;
    assert Xor(0x61, 0x00) == 0x61;
    assert Xor(0xC2, 0x00) == 0xC2;
    assert Xor(0x0185, 0x01) == 0x0184;
    assert Xor(0x030B, 0x03) == 0x0308;
    assert Xor(0x0617, 0x06) == 0x0611;
    assert Xor(0x0C2E, 0x0D) == 0x0C23;
    assert Xor(0x185D, 0x1A) == 0x1847;
    assert Xor(0x30BA, 0x35) == 0x308F;
  }
  lemma Round308F()
    ensures ShiftRound(0x308F) == 0xB846
  {
    assert Xor(0x00, 0x01) == 0x01;
    assert Xor(0x00, 0x02) == 0x02;
    assert Xor(0x00, 0x05) == 0x05;
    assert Xor(0x01, 0x0A) == 0x0B;
    assert Xor(0x03, 0x14) == 0x17;
    assert Xor(0x06, 0x28) == 0x2E;
    assert Xor(0x0C, 0x50) == 0x5C;
    assert Xor(0x18, 0xA0) == 0xB8;
    assert Xor(0x30, 0x0140) == 0x0170;
    assert Xor(0x61, 0x0280) == 0x02E1;
    assert Xor(0xC2, 0x0500) == 0x05C2;
    assert Xor(0x0184, 0x0A00) == 0x0B84;
    assert Xor(0x0308, 0x1400) == 0x1708;
    assert Xor(0x0611, 0x2800) == 0x2E11;
    assert Xor(0x0C23, 0x5000) == 0x5C23;
    assert Xor(0x1847, 0xA001) == 0xB846;
  }
  lemma Round5C23()
    ensures ShiftRound(0x5C23) == 0x8E10
  {
    assert Xor(0x00, 0x01) == 0x01;
    assert Xor(0x00, 0x02) == 0x02;
    assert Xor(0x01, 0x05) == 0x04;
    assert Xor(0x02, 0x0A) == 0x08;
    assert Xor(0x05, 0x14) == 0x11;
    assert Xor(0x0B, 0x28) == 0x23;
    assert Xor(0x17, 0x50) == 0x47;
    assert Xor(0x2E, 0xA0) == 0x8E;
    assert Xor(0x5C, 0x0140) == 0x011C;
    assert Xor(0xB8, 0x0280) == 0x0238;
    assert Xor(0x0170, 0x0500) == 0x0470;
    assert Xor(0x02E1, 0x0A00) == 0x08E1;
    assert Xor(0x05C2, 0x1400) == 0x11C2;
    assert Xor(0x0B84, 0x2800) == 0x2384;
    assert Xor(0x1708, 0x5000) == 0x4708;
    assert Xor(0x2E11, 0xA001) == 0x8E10;
  }
  lemma Round08E1()
    ensures ShiftRound(0x08E1) == 0xA471
  {
    assert Xor(0x00, 0x01) == 0x01;
    assert Xor(0x00, 0x02) == 0x02;
    assert Xor(0x00, 0x05) == 0x05;
    assert Xor(0x00, 0x0A) == 0x0A;
    assert Xor(0x00, 0x14) == 0x14;
    assert Xor(0x01, 0x28) == 0x29;
    assert Xor(0x02, 0x50) == 0x52;
    assert Xor(0x04, 0xA0) == 0xA4;
    assert Xor(0x08, 0x0140) == 0x0148;
    assert Xor(0x11, 0x0280) == 0x0291;
    assert Xor(0x23, 0x0500) == 0x0523;
    assert Xor(0x47, 0x0A00) == 0x0A47;
    assert Xor(0x8E, 0x1400) == 0x148E;
    assert Xor(0x011C, 0x2800) == 0x291C;
    assert Xor(0x0238, 0x5000) == 0x5238;
    assert Xor(0x0470, 0xA001) == 0xA471;
  }
  lemma MixA47136()
    ensures Xor(0xA471, 0x36) == 0xA447
  {
    assert Xor(0x01, 0x00) == 0x01;
    assert Xor(0x02, 0x00) == 0x02;
    assert Xor(0x05, 0x00) == 0x05;
    assert Xor(0x0A, 0x00) == 0x0A;
    assert Xor(0x14, 0x00) == 0x14;
    assert Xor(0x29, 0x00) == 0x29;
    assert Xor(0x52, 0x00) == 0x52;
    assert Xor(0xA4, 0x00) == 0xA4;
    assert Xor(0x0148, 0x00) == 0x0148;
    assert Xor(0x0291, 0x00) == 0x0291;
    assert Xor(0x0523, 0x01) == 0x0522;
    assert Xor(0x0A47, 0x03) == 0x0A44;
    assert Xor(0x148E, 0x06) == 0x1488;
    assert Xor(0x291C, 0x0D) == 0x2911;
    assert Xor(0x5238, 0x1B) == 0x5223;
    assert Xor(0xA471, 0x36) == 0xA447;
  }
  lemma RoundA447()
    ensures ShiftRound(0xA447) == 0xF222
  {
    assert Xor(0x00, 0x01) == 0x01;
    assert Xor(0x01, 0x02) == 0x03;
    assert Xor(0x02, 0x05) == 0x07;
    assert Xor(0x05, 0x0A) == 0x0F;
    assert Xor(0x0A, 0x14) == 0x1E;
    assert Xor(0x14, 0x28) == 0x3C;
    assert Xor(0x29, 0x50) == 0x79;
    assert Xor(0x52, 0xA0) == 0xF2;
    assert Xor(0xA4, 0x0140) == 0x01E4;
    assert Xor(0x0148, 0x0280) == 0x03C8;
    assert Xor(0x0291, 0x0500) == 0x0791;
    assert Xor(0x0522, 0x0A00) == 0x0F22;
    assert Xor(0x0A44, 0x1400) == 0x1E44;
    assert Xor(0x1488, 0x2800) == 0x3C88;
    assert Xor(0x2911, 0x5000) == 0x7911;
    assert Xor(0x5223, 0xA001) == 0xF222;
  }
  lemma Round7911()
    ensures ShiftRound(0x7911) == 0x9C89
  {
    assert Xor(0x00, 0x01) == 0x01;
    assert Xor(0x00, 0x02) == 0x02;
    assert Xor(0x01, 0x05) == 0x04;
    assert Xor(0x03, 0x0A) == 0x09;
    assert Xor(0x07, 0x14) == 0x13;
    assert Xor(0x0F, 0x28) == 0x27;
    assert Xor(0x1E, 0x50) == 0x4E;
    assert Xor(0x3C, 0xA0) == 0x9C;
    assert Xor(0x79, 0x0140) == 0x0139;
    assert Xor(0xF2, 0x0280) == 0x0272;
    assert Xor(0x01E4, 0x0500) == 0x04E4;
    assert Xor(0x03C8, 0x0A00) == 0x09C8;
    assert Xor(0x0791, 0x1400) == 0x1391;
    assert Xor(0x0F22, 0x2800) == 0x2722;
    assert Xor(0x1E44, 0x5000) == 0x4E44;
    assert Xor(0x3C88, 0xA001) == 0x9C89;
  }
  lemma Round9C89()
    ensures ShiftRound(0x9C89) == 0xEE45
  {
    assert Xor(0x00, 0x01) == 0x01;
    assert Xor(0x01, 0x02) == 0x03;
    assert Xor(0x02, 0x05) == 0x07;
    assert Xor(0x04, 0x0A) == 0x0E;
    assert Xor(0x09, 0x14) == 0x1D;
    assert Xor(0x13, 0x28) == 0x3B;
    assert Xor(0x27, 0x50) == 0x77;
    assert Xor(0x4E, 0xA0) == 0xEE;
    assert Xor(0x9C, 0x0140) == 0x01DC;
    assert Xor(0x0139, 0x0280) == 0x03B9;
    assert Xor(0x0272, 0x0500) == 0x0772;
    assert Xor(0x04E4, 0x0A00) == 0x0EE4;
    assert Xor(0x09C8, 0x1400) == 0x1DC8;
    assert Xor(0x1391, 0x2800) == 0x3B91;
    assert Xor(0x2722, 0x5000) == 0x7722;
    assert Xor(0x4E44, 0xA001) == 0xEE45;
  }
  lemma RoundEE45()
    ensures ShiftRound(0xEE45) == 0xD723
  {
    assert Xor(0x00, 0x01) == 0x01;
    assert Xor(0x01, 0x02) == 0x03;
    assert Xor(0x03, 0x05) == 0x06;
    assert Xor(0x07, 0x0A) == 0x0D;
    assert Xor(0x0E, 0x14) == 0x1A;
    assert Xor(0x1D, 0x28) == 0x35;
    assert Xor(0x3B, 0x50) == 0x6B;
    assert Xor(0x77, 0xA0) == 0xD7;
    assert Xor(0xEE, 0x0140) == 0x01AE;
    assert Xor(0x01DC, 0x0280) == 0x035C;
    assert Xor(0x03B9, 0x0500) == 0x06B9;
    assert Xor(0x0772, 0x0A00) == 0x0D72;
    assert Xor(0x0EE4, 0x1400) == 0x1AE4;
    assert Xor(0x1DC8, 0x2800) == 0x35C8;
    assert Xor(0x3B91, 0x5000) == 0x6B91;
    assert Xor(0x7722, 0xA001) == 0xD723;
  }
  lemma RoundD723()
    ensures ShiftRound(0xD723) == 0xCB90
  {
    assert Xor(0x00, 0x01) == 0x01;
    assert Xor(0x01, 0x02) == 0x03;
    assert Xor(0x03, 0x05) == 0x06;
    assert Xor(0x06, 0x0A) == 0x0C;
    assert Xor(0x0D, 0x14) == 0x19;
    assert Xor(0x1A, 0x28) == 0x32;
    assert Xor(0x35, 0x50) == 0x65;
    assert Xor(0x6B, 0xA0) == 0xCB;
    assert Xor(0xD7, 0x0140) == 0x0197;
    assert Xor(0x01AE, 0x0280) == 0x032E;
    assert Xor(0x035C, 0x0500) == 0x065C;
    assert Xor(0x06B9, 0x0A00) == 0x0CB9;
    assert Xor(0x0D72, 0x1400) == 0x1972;
    assert Xor(0x1AE4, 0x2800) == 0x32E4;
    assert Xor(0x35C8, 0x5000) == 0x65C8;
    assert Xor(0x6B91, 0xA001) == 0xCB90;
  }
  lemma Mix32E437()
    ensures Xor(0x32E4, 0x37) == 0x32D3
  {
    assert Xor(0x01, 0x00) == 0x01;
    assert Xor(0x03, 0x00) == 0x03;
    assert Xor(0x06, 0x00) == 0x06;
    assert Xor(0x0C, 0x00) == 0x0C;
    assert Xor(0x19, 0x00) == 0x19;
    assert Xor(0x32, 0x00) == 0x32;
    assert Xor(0x65, 0x00) == 0x65;
    assert Xor(0xCB, 0x00) == 0xCB;
    assert Xor(0x0197, 0x01) == 0x0196;
    assert Xor(0x032E, 0x03) == 0x032D;
    assert Xor(0x065C, 0x06) == 0x065A;
    assert Xor(0x0CB9, 0x0D) == 0x0CB4;
    assert Xor(0x1972, 0x1B) == 0x1969;
    assert Xor(0x32E4, 0x37) == 0x32D3;
  }
  lemma Round32D3()
    ensures ShiftRound(0x32D3) == 0xB968
  {
    assert Xor(0x00, 0x01) == 0x01;
    assert Xor(0x00, 0x02) == 0x02;
    assert Xor(0x00, 0x05) == 0x05;
    assert Xor(0x01, 0x0A) == 0x0B;
    assert Xor(0x03, 0x14) == 0x17;
    assert Xor(0x06, 0x28) == 0x2E;
    assert Xor(0x0C, 0x50) == 0x5C;
    assert Xor(0x19, 0xA0) == 0xB9;
    assert Xor(0x32, 0x0140) == 0x0172;
    assert Xor(0x65, 0x0280) == 0x02E5;
    assert Xor(0xCB, 0x0500) == 0x05CB;
    assert Xor(0x0196, 0x0A00) == 0x0B96;
    assert Xor(0x032D, 0x1400) == 0x172D;
    assert Xor(0x065A, 0x2800) == 0x2E5A;
    assert Xor(0x0CB4, 0x5000) == 0x5CB4;
    assert Xor(0x1969, 0xA001) == 0xB968;
  }
  lemma Round172D()
    ensures ShiftRound(0x172D) == 0xAB97
  {
    assert Xor(0x00, 0x01) == 0x01;
    assert Xor(0x00, 0x02) == 0x02;
    assert Xor(0x00, 0x05) == 0x05;
    assert Xor(0x00, 0x0A) == 0x0A;
    assert Xor(0x01, 0x14) == 0x15;
    assert Xor(0x02, 0x28) == 0x2A;
    assert Xor(0x05, 0x50) == 0x55;
    assert Xor(0x0B, 0xA0) == 0xAB;
    assert Xor(0x17, 0x0140) == 0x0157;
    assert Xor(0x2E, 0x0280) == 0x02AE;
    assert Xor(0x5C, 0x0500) == 0x055C;
    assert Xor(0xB9, 0x0A00) == 0x0AB9;
    assert Xor(0x0172, 0x1400) == 0x1572;
    assert Xor(0x02E5, 0x2800) == 0x2AE5;
    assert Xor(0x05CB, 0x5000) == 0x55CB;
    assert Xor(0x0B96, 0xA001) == 0xAB97;
  }
  lemma RoundAB97()
    ensures ShiftRound(0xAB97) == 0xF5CA
  {
    assert Xor(0x00, 0x01) == 0x01;
    assert Xor(0x01, 0x02) == 0x03;
    assert Xor(0x02, 0x05) == 0x07;
    assert Xor(0x05, 0x0A) == 0x0F;
    assert Xor(0x0A, 0x14) == 0x1E;
    assert Xor(0x15, 0x28) == 0x3D;
    assert Xor(0x2A, 0x50) == 0x7A;
    assert Xor(0x55, 0xA0) == 0xF5;
    assert Xor(0xAB, 0x0140) == 0x01EB;
    assert Xor(0x0157, 0x0280) == 0x03D7;
    assert Xor(0x02AE, 0x0500) == 0x07AE;
    assert Xor(0x055C, 0x0A00) == 0x0F5C;
    assert Xor(0x0AB9, 0x1400) == 0x1EB9;
    assert Xor(0x1572, 0x2800) == 0x3D72;
    assert Xor(0x2AE5, 0x5000) == 0x7AE5;
    assert Xor(0x55CB, 0xA001) == 0xF5CA;
  }
  lemma Round7AE5()
    ensures ShiftRound(0x7AE5) == 0x9D73
  {
    assert Xor(0x00, 0x01) == 0x01;
    assert Xor(0x00, 0x02) == 0x02;
    assert Xor(0x01, 0x05) == 0x04;
    assert Xor(0x03, 0x0A) == 0x09;
    assert Xor(0x07, 0x14) == 0x13;
    assert Xor(0x0F, 0x28) == 0x27;
    assert Xor(0x1E, 0x50) == 0x4E;
    assert Xor(0x3D, 0xA0) == 0x9D;
    assert Xor(0x7A, 0x0140) == 0x013A;
    assert Xor(0xF5, 0x0280) == 0x0275;
    assert Xor(0x01EB, 0x0500) == 0x04EB;
    assert Xor(0x03D7, 0x0A00) == 0x09D7;
    assert Xor(0x07AE, 0x1400) == 0x13AE;
    assert Xor(0x0F5C, 0x2800) == 0x275C;
    assert Xor(0x1EB9, 0x5000) == 0x4EB9;
    assert Xor(0x3D72, 0xA001) == 0x9D73;
  }
  lemma Mix9D7338()
    ensures Xor(0x9D73, 0x38) == 0x9D4B
  {
    assert Xor(0x01, 0x00) == 0x01;
    assert Xor(0x02, 0x00) == 0x02;
    assert Xor(0x04, 0x00) == 0x04;
    assert Xor(0x09, 0x00) == 0x09;
    assert Xor(0x13, 0x00) == 0x13;
    assert Xor(0x27, 0x00) == 0x27;
    assert Xor(0x4E, 0x00) == 0x4E;
    assert Xor(0x9D, 0x00) == 0x9D;
    assert Xor(0x013A, 0x00) == 0x013A;
    assert Xor(0x0275, 0x00) == 0x0275;
    assert Xor(0x04EB, 0x01) == 0x04EA;
    assert Xor(0x09D7, 0x03) == 0x09D4;
    assert Xor(0x13AE, 0x07) == 0x13A9;
    assert Xor(0x275C, 0x0E) == 0x2752;
    assert Xor(0x4EB9, 0x1C) == 0x4EA5;
    assert Xor(0x9D73, 0x38) == 0x9D4B;
  }
  lemma Round9D4B()
    ensures ShiftRound(0x9D4B) == 0xEEA4
  {
    assert Xor(0x00, 0x01) == 0x01;
    assert Xor(0x01, 0x02) == 0x03;
    assert Xor(0x02, 0x05) == 0x07;
    assert Xor(0x04, 0x0A) == 0x0E;
    assert Xor(0x09, 0x14) == 0x1D;
    assert Xor(0x13, 0x28) == 0x3B;
    assert Xor(0x27, 0x50) == 0x77;
    assert Xor(0x4E, 0xA0) == 0xEE;
    assert Xor(0x9D, 0x0140) == 0x01DD;
    assert Xor(0x013A, 0x0280) == 0x03BA;
    assert Xor(0x0275, 0x0500) == 0x0775;
    assert Xor(0x04EA, 0x0A00) == 0x0EEA;
    assert Xor(0x09D4, 0x1400) == 0x1DD4;
    assert Xor(0x13A9, 0x2800) == 0x3BA9;
    assert Xor(0x2752, 0x5000) == 0x7752;
    assert Xor(0x4EA5, 0xA001) == 0xEEA4;
  }
  lemma Round3BA9()
    ensures ShiftRound(0x3BA9) == 0xBDD5
  {
    assert Xor(0x00, 0x01) == 0x01;
    assert Xor(0x00, 0x02) == 0x02;
    assert Xor(0x00, 0x05) == 0x05;
    assert Xor(0x01, 0x0A) == 0x0B;
    assert Xor(0x03, 0x14) == 0x17;
    assert Xor(0x07, 0x28) == 0x2F;
    assert Xor(0x0E, 0x50) == 0x5E;
    assert Xor(0x1D, 0xA0) == 0xBD;
    assert Xor(0x3B, 0x0140) == 0x017B;
    assert Xor(0x77, 0x0280) == 0x02F7;
    assert Xor(0xEE, 0x0500) == 0x05EE;
    assert Xor(0x01DD, 0x0A00) == 0x0BDD;
    assert Xor(0x03BA, 0x1400) == 0x17BA;
    assert Xor(0x0775, 0x2800) == 0x2F75;
    assert Xor(0x0EEA, 0x5000) == 0x5EEA;
    assert Xor(0x1DD4, 0xA001) == 0xBDD5;
  }
  lemma RoundBDD5()
    ensures ShiftRound(0xBDD5) == 0xFEEB
  {
    assert Xor(0x00, 0x01) == 0x01;
    assert Xor(0x01, 0x02) == 0x03;
    assert Xor(0x02, 0x05) == 0x07;
    assert Xor(0x05, 0x0A) == 0x0F;
    assert Xor(0x0B, 0x14) == 0x1F;
    assert Xor(0x17, 0x28) == 0x3F;
    assert Xor(0x2F, 0x50) == 0x7F;
    assert Xor(0x5E, 0xA0) == 0xFE;
    assert Xor(0xBD, 0x0140) == 0x01FD;
    assert Xor(0x017B, 0x0280) == 0x03FB;
    assert Xor(0x02F7, 0x0500) == 0x07F7;
    assert Xor(0x05EE, 0x0A00) == 0x0FEE;
    assert Xor(0x0BDD, 0x1400) == 0x1FDD;
    assert Xor(0x17BA, 0x2800) == 0x3FBA;
    assert Xor(0x2F75, 0x5000) == 0x7F75;
    assert Xor(0x5EEA, 0xA001) == 0xFEEB;
  }
  lemma RoundFEEB()
    ensures ShiftRound(0xFEEB) == 0xDF74
  {
    assert Xor(0x00, 0x01) == 0x01;
    assert Xor(0x01, 0x02) == 0x03;
    assert Xor(0x03, 0x05) == 0x06;
    assert Xor(0x07, 0x0A) == 0x0D;
    assert Xor(0x0F, 0x14) == 0x1B;
    assert Xor(0x1F, 0x28) == 0x37;
    assert Xor(0x3F, 0x50) == 0x6F;
    assert Xor(0x7F, 0xA0) == 0xDF;
    assert Xor(0xFE, 0x0140) == 0x01BE;
    assert Xor(0x01FD, 0x0280) == 0x037D;
    assert Xor(0x03FB, 0x0500) == 0x06FB;
    assert Xor(0x07F7, 0x0A00) == 0x0DF7;
    assert Xor(0x0FEE, 0x1400) == 0x1BEE;
    assert Xor(0x1FDD, 0x2800) == 0x37DD;
    assert Xor(0x3FBA, 0x5000) == 0x6FBA;
    assert Xor(0x7F75, 0xA001) == 0xDF74;
  }
  lemma Mix37DD39()
    ensures Xor(0x37DD, 0x39) == 0x37E4
  {
    assert Xor(0x01, 0x00) == 0x01;
    assert Xor(0x03, 0x00) == 0x03;
    assert Xor(0x06, 0x00) == 0x06;
    assert Xor(0x0D, 0x00) == 0x0D;
    assert Xor(0x1B, 0x00) == 0x1B;
    assert Xor(0x37, 0x00) == 0x37;
    assert Xor(0x6F, 0x00) == 0x6F;
    assert Xor(0xDF, 0x00) == 0xDF;
    assert Xor(0x01BE, 0x01) == 0x01BF;
    assert Xor(0x037D, 0x03) == 0x037E;
    assert Xor(0x06FB, 0x07) == 0x06FC;
    assert Xor(0x0DF7, 0x0E) == 0x0DF9;
    assert Xor(0x1BEE, 0x1C) == 0x1BF2;
    assert Xor(0x37DD, 0x39) == 0x37E4;
  }
  lemma Round0DF9()
    ensures ShiftRound(0x0DF9) == 0xA6FD
  {
    assert Xor(0x00, 0x01) == 0x01;
    assert Xor(0x00, 0x02) == 0x02;
    assert Xor(0x00, 0x05) == 0x05;
    assert Xor(0x00, 0x0A) == 0x0A;
    assert Xor(0x00, 0x14) == 0x14;
    assert Xor(0x01, 0x28) == 0x29;
    assert Xor(0x03, 0x50) == 0x53;
    assert Xor(0x06, 0xA0) == 0xA6;
    assert Xor(0x0D, 0x0140) == 0x014D;
    assert Xor(0x1B, 0x0280) == 0x029B;
    assert Xor(0x37, 0x0500) == 0x0537;
    assert Xor(0x6F, 0x0A00) == 0x0A6F;
    assert Xor(0xDF, 0x1400) == 0x14DF;
    assert Xor(0x01BF, 0x2800) == 0x29BF;
    assert Xor(0x037E, 0x5000) == 0x537E;
    assert Xor(0x06FC, 0xA001) == 0xA6FD;
  }
  lemma RoundA6FD()
    ensures ShiftRound(0xA6FD) == 0xF37F
  {
    assert Xor(0x00, 0x01) == 0x01;
    assert Xor(0x01, 0x02) == 0x03;
    assert Xor(0x02, 0x05) == 0x07;
    assert Xor(0x05, 0x0A) == 0x0F;
    assert Xor(0x0A, 0x14) == 0x1E;
    assert Xor(0x14, 0x28) == 0x3C;
    assert Xor(0x29, 0x50) == 0x79;
    assert Xor(0x53, 0xA0) == 0xF3;
    assert Xor(0xA6, 0x0140) == 0x01E6;
    assert Xor(0x014D, 0x0280) == 0x03CD;
    assert Xor(0x029B, 0x0500) == 0x079B;
    assert Xor(0x0537, 0x0A00) == 0x0F37;
    assert Xor(0x0A6F, 0x1400) == 0x1E6F;
    assert Xor(0x14DF, 0x2800) == 0x3CDF;
    assert Xor(0x29BF, 0x5000) == 0x79BF;
    assert Xor(0x537E, 0xA001) == 0xF37F;
  }
  lemma RoundF37F()
    ensures ShiftRound(0xF37F) == 0xD9BE
  {
    assert Xor(0x00, 0x01) == 0x01;
    assert Xor(0x01, 0x02) == 0x03;
    assert Xor(0x03, 0x05) == 0x06;
    assert Xor(0x07, 0x0A) == 0x0D;
    assert Xor(0x0F, 0x14) == 0x1B;
    assert Xor(0x1E, 0x28) == 0x36;
    assert Xor(0x3C, 0x50) == 0x6C;
    assert Xor(0x79, 0xA0) == 0xD9;
    assert Xor(0xF3, 0x0140) == 0x01B3;
    assert Xor(0x01E6, 0x0280) == 0x0366;
    assert Xor(0x03CD, 0x0500) == 0x06CD;
    assert Xor(0x079B, 0x0A00) == 0x0D9B;
    assert Xor(0x0F37, 0x1400) == 0x1B37;
    assert Xor(0x1E6F, 0x2800) == 0x366F;
    assert Xor(0x3CDF, 0x5000) == 0x6CDF;
    assert Xor(0x79BF, 0xA001) == 0xD9BE;
  }
  lemma Round6CDF()
    ensures ShiftRound(0x6CDF) == 0x966E
  {
    assert Xor(0x00, 0x01) == 0x01;
    assert Xor(0x00, 0x02) == 0x02;
    assert Xor(0x01, 0x05) == 0x04;
    assert Xor(0x03, 0x0A) == 0x09;
    assert Xor(0x06, 0x14) == 0x12;
    assert Xor(0x0D, 0x28) == 0x25;
    assert Xor(0x1B, 0x50) == 0x4B;
    assert Xor(0x36, 0xA0) == 0x96;
    assert Xor(0x6C, 0x0140) == 0x012C;
    assert Xor(0xD9, 0x0280) == 0x0259;
    assert Xor(0x01B3, 0x0500) == 0x04B3;
    assert Xor(0x0366, 0x0A00) == 0x0966;
    assert Xor(0x06CD, 0x1400) == 0x12CD;
    assert Xor(0x0D9B, 0x2800) == 0x259B;
    assert Xor(0x1B37, 0x5000) == 0x4B37;
    assert Xor(0x366F, 0xA001) == 0x966E;
  }
  lemma MixFFFF20()
    ensures Xor(0xFFFF, 0x20) == 0xFFDF
  {
    assert Xor(0x01, 0x00) == 0x01;
    assert Xor(0x03, 0x00) == 0x03;
    assert Xor(0x07, 0x00) == 0x07;
    assert Xor(0x0F, 0x00) == 0x0F;
    assert Xor(0x1F, 0x00) == 0x1F;
    assert Xor(0x3F, 0x00) == 0x3F;
    assert Xor(0x7F, 0x00) == 0x7F;
    assert Xor(0xFF, 0x00) == 0xFF;
    assert Xor(0x01FF, 0x00) == 0x01FF;
    assert Xor(0x03FF, 0x00) == 0x03FF;
    assert Xor(0x07FF, 0x01) == 0x07FE;
    assert Xor(0x0FFF, 0x02) == 0x0FFD;
    assert Xor(0x1FFF, 0x04) == 0x1FFB;
    assert Xor(0x3FFF, 0x08) == 0x3FF7;
    assert Xor(0x7FFF, 0x10) == 0x7FEF;
    assert Xor(0xFFFF, 0x20) == 0xFFDF;
  }
  lemma RoundFFDF()
    ensures ShiftRound(0xFFDF) == 0xDFEE
  {
    assert Xor(0x00, 0x01) == 0x01;
    assert Xor(0x01, 0x02) == 0x03;
    assert Xor(0x03, 0x05) == 0x06;
    assert Xor(0x07, 0x0A) == 0x0D;
    assert Xor(0x0F, 0x14) == 0x1B;
    assert Xor(0x1F, 0x28) == 0x37;
    assert Xor(0x3F, 0x50) == 0x6F;
    assert Xor(0x7F, 0xA0) == 0xDF;
    assert Xor(0xFF, 0x0140) == 0x01BF;
    assert Xor(0x01FF, 0x0280) == 0x037F;
    assert Xor(0x03FF, 0x0500) == 0x06FF;
    assert Xor(0x07FE, 0x0A00) == 0x0DFE;
    assert Xor(0x0FFD, 0x1400) == 0x1BFD;
    assert Xor(0x1FFB, 0x2800) == 0x37FB;
    assert Xor(0x3FF7, 0x5000) == 0x6FF7;
    assert Xor(0x7FEF, 0xA001) == 0xDFEE;
  }
  lemma Round6FF7()
    ensures ShiftRound(0x6FF7) == 0x97FA
  {
    assert Xor(0x00, 0x01) == 0x01;
    assert Xor(0x00, 0x02) == 0x02;
    assert Xor(0x01, 0x05) == 0x04;
    assert Xor(0x03, 0x0A) == 0x09;
    assert Xor(0x06, 0x14) == 0x12;
    assert Xor(0x0D, 0x28) == 0x25;
    assert Xor(0x1B, 0x50) == 0x4B;
    assert Xor(0x37, 0xA0) == 0x97;
    assert Xor(0x6F, 0x0140) == 0x012F;
    assert Xor(0xDF, 0x0280) == 0x025F;
    assert Xor(0x01BF, 0x0500) == 0x04BF;
    assert Xor(0x037F, 0x0A00) == 0x097F;
    assert Xor(0x06FF, 0x1400) == 0x12FF;
    assert Xor(0x0DFE, 0x2800) == 0x25FE;
    assert Xor(0x1BFD, 0x5000) == 0x4BFD;
    assert Xor(0x37FB, 0xA001) == 0x97FA;
  }
  lemma Round4BFD()
    ensures ShiftRound(0x4BFD) == 0x85FF
  {
    assert Xor(0x00, 0x01) == 0x01;
    assert Xor(0x00, 0x02) == 0x02;
    assert Xor(0x01, 0x05) == 0x04;
    assert Xor(0x02, 0x0A) == 0x08;
    assert Xor(0x04, 0x14) == 0x10;
    assert Xor(0x09, 0x28) == 0x21;
    assert Xor(0x12, 0x50) == 0x42;
    assert Xor(0x25, 0xA0) == 0x85;
    assert Xor(0x4B, 0x0140) == 0x010B;
    assert Xor(0x97, 0x0280) == 0x0217;
    assert Xor(0x012F, 0x0500) == 0x042F;
    assert Xor(0x025F, 0x0A00) == 0x085F;
    assert Xor(0x04BF, 0x1400) == 0x10BF;
    assert Xor(0x097F, 0x2800) == 0x217F;
    assert Xor(0x12FF, 0x5000) == 0x42FF;
    assert Xor(0x25FE, 0xA001) == 0x85FF;
  }
  lemma Round85FF()
    ensures ShiftRound(0x85FF) == 0xE2FE
  {
    assert Xor(0x00, 0x01) == 0x01;
    assert Xor(0x01, 0x02) == 0x03;
    assert Xor(0x02, 0x05) == 0x07;
    assert Xor(0x04, 0x0A) == 0x0E;
    assert Xor(0x08, 0x14) == 0x1C;
    assert Xor(0x10, 0x28) == 0x38;
    assert Xor(0x21, 0x50) == 0x71;
    assert Xor(0x42, 0xA0) == 0xE2;
    assert Xor(0x85, 0x0140) == 0x01C5;
    assert Xor(0x010B, 0x0280) == 0x038B;
    assert Xor(0x0217, 0x0500) == 0x0717;
    assert Xor(0x042F, 0x0A00) == 0x0E2F;
    assert Xor(0x085F, 0x1400) == 0x1C5F;
    assert Xor(0x10BF, 0x2800) == 0x38BF;
    assert Xor(0x217F, 0x5000) == 0x717F;
    assert Xor(0x42FF, 0xA001) == 0xE2FE;
  }
  lemma Round717F()
    ensures ShiftRound(0x717F) == 0x98BE
  {
    assert Xor(0x00, 0x01) == 0x01;
    assert Xor(0x00, 0x02) == 0x02;
    assert Xor(0x01, 0x05) == 0x04;
    assert Xor(0x03, 0x0A) == 0x09;
    assert Xor(0x07, 0x14) == 0x13;
    assert Xor(0x0E, 0x28) == 0x26;
    assert Xor(0x1C, 0x50) == 0x4C;
    assert Xor(0x38, 0xA0) == 0x98;
    assert Xor(0x71, 0x0140) == 0x0131;
    assert Xor(0xE2, 0x0280) == 0x0262;
    assert Xor(0x01C5, 0x0500) == 0x04C5;
    assert Xor(0x038B, 0x0A00) == 0x098B;
    assert Xor(0x0717, 0x1400) == 0x1317;
    assert Xor(0x0E2F, 0x2800) == 0x262F;
    assert Xor(0x1C5F, 0x5000) == 0x4C5F;
    assert Xor(0x38BF, 0xA001) == 0x98BE;
  }
  lemma Mix98BE0C()
    ensures Xor(0x98BE, 0x0C) == 0x98B2
  {
    assert Xor(0x01, 0x00) == 0x01;
    assert Xor(0x02, 0x00) == 0x02;
    assert Xor(0x04, 0x00) == 0x04;
    assert Xor(0x09, 0x00) == 0x09;
    assert Xor(0x13, 0x00) == 0x13;
    assert Xor(0x26, 0x00) == 0x26;
    assert Xor(0x4C, 0x00) == 0x4C;
    assert Xor(0x98, 0x00) == 0x98;
    assert Xor(0x0131, 0x00) == 0x0131;
    assert Xor(0x0262, 0x00) == 0x0262;
    assert Xor(0x04C5, 0x00) == 0x04C5;
    assert Xor(0x098B, 0x00) == 0x098B;
    assert Xor(0x1317, 0x01) == 0x1316;
    assert Xor(0x262F, 0x03) == 0x262C;
    assert Xor(0x4C5F, 0x06) == 0x4C59;
    assert Xor(0x98BE, 0x0C) == 0x98B2;
  }
  lemma Round4C59()
    ensures ShiftRound(0x4C59) == 0x862D
  {
    assert Xor(0x00, 0x01) == 0x01;
    assert Xor(0x00, 0x02) == 0x02;
    assert Xor(0x01, 0x05) == 0x04;
    assert Xor(0x02, 0x0A) == 0x08;
    assert Xor(0x04, 0x14) == 0x10;
    assert Xor(0x09, 0x28) == 0x21;
    assert Xor(0x13, 0x50) == 0x43;
    assert Xor(0x26, 0xA0) == 0x86;
    assert Xor(0x4C, 0x0140) == 0x010C;
    assert Xor(0x98, 0x0280) == 0x0218;
    assert Xor(0x0131, 0x0500) == 0x0431;
    assert Xor(0x0262, 0x0A00) == 0x0862;
    assert Xor(0x04C5, 0x1400) == 0x10C5;
    assert Xor(0x098B, 0x2800) == 0x218B;
    assert Xor(0x1316, 0x5000) == 0x4316;
    assert Xor(0x262C, 0xA001) == 0x862D;
  }
  lemma Round862D()
    ensures ShiftRound(0x862D) == 0xE317
  {
    assert Xor(0x00, 0x01) == 0x01;
    assert Xor(0x01, 0x02) == 0x03;
    assert Xor(0x02, 0x05) == 0x07;
    assert Xor(0x04, 0x0A) == 0x0E;
    assert Xor(0x08, 0x14) == 0x1C;
    assert Xor(0x10, 0x28) == 0x38;
    assert Xor(0x21, 0x50) == 0x71;
    assert Xor(0x43, 0xA0) == 0xE3;
    assert Xor(0x86, 0x0140) == 0x01C6;
    assert Xor(0x010C, 0x0280) == 0x038C;
    assert Xor(0x0218, 0x0500) == 0x0718;
    assert Xor(0x0431, 0x0A00) == 0x0E31;
    assert Xor(0x0862, 0x1400) == 0x1C62;
    assert Xor(0x10C5, 0x2800) == 0x38C5;
    assert Xor(0x218B, 0x5000) == 0x718B;
    assert Xor(0x4316, 0xA001) == 0xE317;
  }
  lemma RoundE317()
    ensures ShiftRound(0xE317) == 0xD18A
  {
    assert Xor(0x00, 0x01) == 0x01;
    assert Xor(0x01, 0x02) == 0x03;
    assert Xor(0x03, 0x05) == 0x06;
    assert Xor(0x07, 0x0A) == 0x0D;
    assert Xor(0x0E, 0x14) == 0x1A;
    assert Xor(0x1C, 0x28) == 0x34;
    assert Xor(0x38, 0x50) == 0x68;
    assert Xor(0x71, 0xA0) == 0xD1;
    assert Xor(0xE3, 0x0140) == 0x01A3;
    assert Xor(0x01C6, 0x0280) == 0x0346;
    assert Xor(0x038C, 0x0500) == 0x068C;
    assert Xor(0x0718, 0x0A00) == 0x0D18;
    assert Xor(0x0E31, 0x1400) == 0x1A31;
    assert Xor(0x1C62, 0x2800) == 0x3462;
    assert Xor(0x38C5, 0x5000) == 0x68C5;
    assert Xor(0x718B, 0xA001) == 0xD18A;
  }
  lemma Round68C5()
    ensures ShiftRound(0x68C5) == 0x9463
  {
    assert Xor(0x00, 0x01) == 0x01;
    assert Xor(0x00, 0x02) == 0x02;
    assert Xor(0x01, 0x05) == 0x04;
    assert Xor(0x03, 0x0A) == 0x09;
    assert Xor(0x06, 0x14) == 0x12;
    assert Xor(0x0D, 0x28) == 0x25;
    assert Xor(0x1A, 0x50) == 0x4A;
    assert Xor(0x34, 0xA0) == 0x94;
    assert Xor(0x68, 0x0140) == 0x0128;
    assert Xor(0xD1, 0x0280) == 0x0251;
    assert Xor(0x01A3, 0x0500) == 0x04A3;
    assert Xor(0x0346, 0x0A00) == 0x0946;
    assert Xor(0x068C, 0x1400) == 0x128C;
    assert Xor(0x0D18, 0x2800) == 0x2518;
    assert Xor(0x1A31, 0x5000) == 0x4A31;
    assert Xor(0x3462, 0xA001) == 0x9463;
  }
  lemma Round9463()
    ensures ShiftRound(0x9463) == 0xEA30
  {
    assert Xor(0x00, 0x01) == 0x01;
    assert Xor(0x01, 0x02) == 0x03;
    assert Xor(0x02, 0x05) == 0x07;
    assert Xor(0x04, 0x0A) == 0x0E;
    assert Xor(0x09, 0x14) == 0x1D;
    assert Xor(0x12, 0x28) == 0x3A;
    assert Xor(0x25, 0x50) == 0x75;
    assert Xor(0x4A, 0xA0) == 0xEA;
    assert Xor(0x94, 0x0140) == 0x01D4;
    assert Xor(0x0128, 0x0280) == 0x03A8;
    assert Xor(0x0251, 0x0500) == 0x0751;
    assert Xor(0x04A3, 0x0A00) == 0x0EA3;
    assert Xor(0x0946, 0x1400) == 0x1D46;
    assert Xor(0x128C, 0x2800) == 0x3A8C;
    assert Xor(0x2518, 0x5000) == 0x7518;
    assert Xor(0x4A31, 0xA001) == 0xEA30;
  }
  lemma Mix751801()
    ensures Xor(0x7518, 0x01) == 0x7519
  {
    assert Xor(0x01, 0x00) == 0x01;
    assert Xor(0x03, 0x00) == 0x03;
    assert Xor(0x07, 0x00) == 0x07;
    assert Xor(0x0E, 0x00) == 0x0E;
    assert Xor(0x1D, 0x00) == 0x1D;
    assert Xor(0x3A, 0x00) == 0x3A;
    assert Xor(0x75, 0x00) == 0x75;
    assert Xor(0xEA, 0x00) == 0xEA;
    assert Xor(0x01D4, 0x00) == 0x01D4;
    assert Xor(0x03A8, 0x00) == 0x03A8;
    assert Xor(0x0751, 0x00) == 0x0751;
    assert Xor(0x0EA3, 0x00) == 0x0EA3;
    assert Xor(0x1D46, 0x00) == 0x1D46;
    assert Xor(0x3A8C, 0x00) == 0x3A8C;
    assert Xor(0x7518, 0x01) == 0x7519;
  }
  lemma Round7519()
    ensures ShiftRound(0x7519) == 0x9A8D
  {
    assert Xor(0x00, 0x01) == 0x01;
    assert Xor(0x00, 0x02) == 0x02;
    assert Xor(0x01, 0x05) == 0x04;
    assert Xor(0x03, 0x0A) == 0x09;
    assert Xor(0x07, 0x14) == 0x13;
    assert Xor(0x0E, 0x28) == 0x26;
    assert Xor(0x1D, 0x50) == 0x4D;
    assert Xor(0x3A, 0xA0) == 0x9A;
    assert Xor(0x75, 0x0140) == 0x0135;
    assert Xor(0xEA, 0x0280) == 0x026A;
    assert Xor(0x01D4, 0x0500) == 0x04D4;
    assert Xor(0x03A8, 0x0A00) == 0x09A8;
    assert Xor(0x0751, 0x1400) == 0x1351;
    assert Xor(0x0EA3, 0x2800) == 0x26A3;
    assert Xor(0x1D46, 0x5000) == 0x4D46;
    assert Xor(0x3A8C, 0xA001) == 0x9A8D;
  }
  lemma Round9A8D()
    ensures ShiftRound(0x9A8D) == 0xED47
  {
    assert Xor(0x00, 0x01) == 0x01;
    assert Xor(0x01, 0x02) == 0x03;
    assert Xor(0x02, 0x05) == 0x07;
    assert Xor(0x04, 0x0A) == 0x0E;
    assert Xor(0x09, 0x14) == 0x1D;
    assert Xor(0x13, 0x28) == 0x3B;
    assert Xor(0x26, 0x50) == 0x76;
    assert Xor(0x4D, 0xA0) == 0xED;
    assert Xor(0x9A, 0x0140) == 0x01DA;
    assert Xor(0x0135, 0x0280) == 0x03B5;
    assert Xor(0x026A, 0x0500) == 0x076A;
    assert Xor(0x04D4, 0x0A00) == 0x0ED4;
    assert Xor(0x09A8, 0x1400) == 0x1DA8;
    assert Xor(0x1351, 0x2800) == 0x3B51;
    assert Xor(0x26A3, 0x5000) == 0x76A3;
    assert Xor(0x4D46, 0xA001) == 0xED47;
  }
  lemma RoundED47()
    ensures ShiftRound(0xED47) == 0xD6A2
  {
    assert Xor(0x00, 0x01) == 0x01;
    assert Xor(0x01, 0x02) == 0x03;
    assert Xor(0x03, 0x05) == 0x06;
    assert Xor(0x07, 0x0A) == 0x0D;
    assert Xor(0x0E, 0x14) == 0x1A;
    assert Xor(0x1D, 0x28) == 0x35;
    assert Xor(0x3B, 0x50) == 0x6B;
    assert Xor(0x76, 0xA0) == 0xD6;
    assert Xor(0xED, 0x0140) == 0x01AD;
    assert Xor(0x01DA, 0x0280) == 0x035A;
    assert Xor(0x03B5, 0x0500) == 0x06B5;
    assert Xor(0x076A, 0x0A00) == 0x0D6A;
    assert Xor(0x0ED4, 0x1400) == 0x1AD4;
    assert Xor(0x1DA8, 0x2800) == 0x35A8;
    assert Xor(0x3B51, 0x5000) == 0x6B51;
    assert Xor(0x76A3, 0xA001) == 0xD6A2;
  }
  lemma Round6B51()
    ensures ShiftRound(0x6B51) == 0x95A9
  {
    assert Xor(0x00, 0x01) == 0x01;
    assert Xor(0x00, 0x02) == 0x02;
    assert Xor(0x01, 0x05) == 0x04;
    assert Xor(0x03, 0x0A) == 0x09;
    assert Xor(0x06, 0x14) == 0x12;
    assert Xor(0x0D, 0x28) == 0x25;
    assert Xor(0x1A, 0x50) == 0x4A;
    assert Xor(0x35, 0xA0) == 0x95;
    assert Xor(0x6B, 0x0140) == 0x012B;
    assert Xor(0xD6, 0x0280) == 0x0256;
    assert Xor(0x01AD, 0x0500) == 0x04AD;
    assert Xor(0x035A, 0x0A00) == 0x095A;
    assert Xor(0x06B5, 0x1400) == 0x12B5;
    assert Xor(0x0D6A, 0x2800) == 0x256A;
    assert Xor(0x1AD4, 0x5000) == 0x4AD4;
    assert Xor(0x35A8, 0xA001) == 0x95A9;
  }
  lemma Round95A9()
    ensures ShiftRound(0x95A9) == 0xEAD5
  {
    assert Xor(0x00, 0x01) == 0x01;
    assert Xor(0x01, 0x02) == 0x03;
    assert Xor(0x02, 0x05) == 0x07;
    assert Xor(0x04, 0x0A) == 0x0E;
    assert Xor(0x09, 0x14) == 0x1D;
    assert Xor(0x12, 0x28) == 0x3A;
    assert Xor(0x25, 0x50) == 0x75;
    assert Xor(0x4A, 0xA0) == 0xEA;
    assert Xor(0x95, 0x0140) == 0x01D5;
    assert Xor(0x012B, 0x0280) == 0x03AB;
    assert Xor(0x0256, 0x0500) == 0x0756;
    assert Xor(0x04AD, 0x0A00) == 0x0EAD;
    assert Xor(0x095A, 0x1400) == 0x1D5A;
    assert Xor(0x12B5, 0x2800) == 0x3AB5;
    assert Xor(0x256A, 0x5000) == 0x756A;
    assert Xor(0x4AD4, 0xA001) == 0xEAD5;
  }
  lemma RoundEAD5()
    ensures ShiftRound(0xEAD5) == 0xD56B
  {
    assert Xor(0x00, 0x01) == 0x01;
    assert Xor(0x01, 0x02) == 0x03;
    assert Xor(0x03, 0x05) == 0x06;
    assert Xor(0x07, 0x0A) == 0x0D;
    assert Xor(0x0E, 0x14) == 0x1A;
    assert Xor(0x1D, 0x28) == 0x35;
    assert Xor(0x3A, 0x50) == 0x6A;
    assert Xor(0x75, 0xA0) == 0xD5;
    assert Xor(0xEA, 0x0140) == 0x01AA;
    assert Xor(0x01D5, 0x0280) == 0x0355;
    assert Xor(0x03AB, 0x0500) == 0x06AB;
    assert Xor(0x0756, 0x0A00) == 0x0D56;
    assert Xor(0x0EAD, 0x1400) == 0x1AAD;
    assert Xor(0x1D5A, 0x2800) == 0x355A;
    assert Xor(0x3AB5, 0x5000) == 0x6AB5;
    assert Xor(0x756A, 0xA001) == 0xD56B;
  }
  lemma RoundD56B()
    ensures ShiftRound(0xD56B) == 0xCAB4
  {
    assert Xor(0x00, 0x01) == 0x01;
    assert Xor(0x01, 0x02) == 0x03;
    assert Xor(0x03, 0x05) == 0x06;
    assert Xor(0x06, 0x0A) == 0x0C;
    assert Xor(0x0D, 0x14) == 0x19;
    assert Xor(0x1A, 0x28) == 0x32;
    assert Xor(0x35, 0x50) == 0x65;
    assert Xor(0x6A, 0xA0) == 0xCA;
    assert Xor(0xD5, 0x0140) == 0x0195;
    assert Xor(0x01AA, 0x0280) == 0x032A;
    assert Xor(0x0355, 0x0500) == 0x0655;
    assert Xor(0x06AB, 0x0A00) == 0x0CAB;
    assert Xor(0x0D56, 0x1400) == 0x1956;
    assert Xor(0x1AAD, 0x2800) == 0x32AD;
    assert Xor(0x355A, 0x5000) == 0x655A;
    assert Xor(0x6AB5, 0xA001) == 0xCAB4;
  }
  lemma MixCAB412()
    ensures Xor(0xCAB4, 0x12) == 0xCAA6
  {
    assert Xor(0x01, 0x00) == 0x01;
    assert Xor(0x03, 0x00) == 0x03;
    assert Xor(0x06, 0x00) == 0x06;
    assert Xor(0x0C, 0x00) == 0x0C;
    assert Xor(0x19, 0x00) == 0x19;
    assert Xor(0x32, 0x00) == 0x32;
    assert Xor(0x65, 0x00) == 0x65;
    assert Xor(0xCA, 0x00) == 0xCA;
    assert Xor(0x0195, 0x00) == 0x0195;
    assert Xor(0x032A, 0x00) == 0x032A;
    assert Xor(0x0655, 0x00) == 0x0655;
    assert Xor(0x0CAB, 0x01) == 0x0CAA;
    assert Xor(0x1956, 0x02) == 0x1954;
    assert Xor(0x32AD, 0x04) == 0x32A9;
    assert Xor(0x655A, 0x09) == 0x6553;
    assert Xor(0xCAB4, 0x12) == 0xCAA6;
  }
  lemma Round6553()
    ensures ShiftRound(0x6553) == 0x92A8
  {
    assert Xor(0x00, 0x01) == 0x01;
    assert Xor(0x00, 0x02) == 0x02;
    assert Xor(0x01, 0x05) == 0x04;
    assert Xor(0x03, 0x0A) == 0x09;
    assert Xor(0x06, 0x14) == 0x12;
    assert Xor(0x0C, 0x28) == 0x24;
    assert Xor(0x19, 0x50) == 0x49;
    assert Xor(0x32, 0xA0) == 0x92;
    assert Xor(0x65, 0x0140) == 0x0125;
    assert Xor(0xCA, 0x0280) == 0x024A;
    assert Xor(0x0195, 0x0500) == 0x0495;
    assert Xor(0x032A, 0x0A00) == 0x092A;
    assert Xor(0x0655, 0x1400) == 0x1255;
    assert Xor(0x0CAA, 0x2800) == 0x24AA;
    assert Xor(0x1954, 0x5000) == 0x4954;
    assert Xor(0x32A9, 0xA001) == 0x92A8;
  }
  lemma Round1255()
    ensures ShiftRound(0x1255) == 0xA92B
  {
    assert Xor(0x00, 0x01) == 0x01;
    assert Xor(0x00, 0x02) == 0x02;
    assert Xor(0x00, 0x05) == 0x05;
    assert Xor(0x00, 0x0A) == 0x0A;
    assert Xor(0x01, 0x14) == 0x15;
    assert Xor(0x02, 0x28) == 0x2A;
    assert Xor(0x04, 0x50) == 0x54;
    assert Xor(0x09, 0xA0) == 0xA9;
    assert Xor(0x12, 0x0140) == 0x0152;
    assert Xor(0x24, 0x0280) == 0x02A4;
    assert Xor(0x49, 0x0500) == 0x0549;
    assert Xor(0x92, 0x0A00) == 0x0A92;
    assert Xor(0x0125, 0x1400) == 0x1525;
    assert Xor(0x024A, 0x2800) == 0x2A4A;
    assert Xor(0x0495, 0x5000) == 0x5495;
    assert Xor(0x092A, 0xA001) == 0xA92B;
  }
  lemma RoundA92B()
    ensures ShiftRound(0xA92B) == 0xF494
  {
    assert Xor(0x00, 0x01) == 0x01;
    assert Xor(0x01, 0x02) == 0x03;
    assert Xor(0x02, 0x05) == 0x07;
    assert Xor(0x05, 0x0A) == 0x0F;
    assert Xor(0x0A, 0x14) == 0x1E;
    assert Xor(0x15, 0x28) == 0x3D;
    assert Xor(0x2A, 0x50) == 0x7A;
    assert Xor(0x54, 0xA0) == 0xF4;
    assert Xor(0xA9, 0x0140) == 0x01E9;
    assert Xor(0x0152, 0x0280) == 0x03D2;
    assert Xor(0x02A4, 0x0500) == 0x07A4;
    assert Xor(0x0549, 0x0A00) == 0x0F49;
    assert Xor(0x0A92, 0x1400) == 0x1E92;
    assert Xor(0x1525, 0x2800) == 0x3D25;
    assert Xor(0x2A4A, 0x5000) == 0x7A4A;
    assert Xor(0x5495, 0xA001) == 0xF494;
  }
  lemma Mix7A4A03()
    ensures Xor(0x7A4A, 0x03) == 0x7A49
  {
    assert Xor(0x01, 0x00) == 0x01;
    assert Xor(0x03, 0x00) == 0x03;
    assert Xor(0x07, 0x00) == 0x07;
    assert Xor(0x0F, 0x00) == 0x0F;
    assert Xor(0x1E, 0x00) == 0x1E;
    assert Xor(0x3D, 0x00) == 0x3D;
    assert Xor(0x7A, 0x00) == 0x7A;
    assert Xor(0xF4, 0x00) == 0xF4;
    assert Xor(0x01E9, 0x00) == 0x01E9;
    assert Xor(0x03D2, 0x00) == 0x03D2;
    assert Xor(0x07A4, 0x00) == 0x07A4;
    assert Xor(0x0F49, 0x00) == 0x0F49;
    assert Xor(0x1E92, 0x00) == 0x1E92;
    assert Xor(0x3D25, 0x01) == 0x3D24;
    assert Xor(0x7A4A, 0x03) == 0x7A49;
  }
  lemma Round7A49()
    ensures ShiftRound(0x7A49) == 0x9D25
  {
    assert Xor(0x00, 0x01) == 0x01;
    assert Xor(0x00, 0x02) == 0x02;
    assert Xor(0x01, 0x05) == 0x04;
    assert Xor(0x03, 0x0A) == 0x09;
    assert Xor(0x07, 0x14) == 0x13;
    assert Xor(0x0F, 0x28) == 0x27;
    assert Xor(0x1E, 0x50) == 0x4E;
    assert Xor(0x3D, 0xA0) == 0x9D;
    assert Xor(0x7A, 0x0140) == 0x013A;
    assert Xor(0xF4, 0x0280) == 0x0274;
    assert Xor(0x01E9, 0x0500) == 0x04E9;
    assert Xor(0x03D2, 0x0A00) == 0x09D2;
    assert Xor(0x07A4, 0x1400) == 0x13A4;
    assert Xor(0x0F49, 0x2800) == 0x2749;
    assert Xor(0x1E92, 0x5000) == 0x4E92;
    assert Xor(0x3D24, 0xA001) == 0x9D25;
  }
  lemma Round9D25()
    ensures ShiftRound(0x9D25) == 0xEE93
  {
    assert Xor(0x00, 0x01) == 0x01;
    assert Xor(0x01, 0x02) == 0x03;
    assert Xor(0x02, 0x05) == 0x07;
    assert Xor(0x04, 0x0A) == 0x0E;
    assert Xor(0x09, 0x14) == 0x1D;
    assert Xor(0x13, 0x28) == 0x3B;
    assert Xor(0x27, 0x50) == 0x77;
    assert Xor(0x4E, 0xA0) == 0xEE;
    assert Xor(0x9D, 0x0140) == 0x01DD;
    assert Xor(0x013A, 0x0280) == 0x03BA;
    assert Xor(0x0274, 0x0500) == 0x0774;
    assert Xor(0x04E9, 0x0A00) == 0x0EE9;
    assert Xor(0x09D2, 0x1400) == 0x1DD2;
    assert Xor(0x13A4, 0x2800) == 0x3BA4;
    assert Xor(0x2749, 0x5000) == 0x7749;
    assert Xor(0x4E92, 0xA001) == 0xEE93;
  }
  lemma RoundEE93()
    ensures ShiftRound(0xEE93) == 0xD748
  {
    assert Xor(0x00, 0x01) == 0x01;
    assert Xor(0x01, 0x02) == 0x03;
    assert Xor(0x03, 0x05) == 0x06;
    assert Xor(0x07, 0x0A) == 0x0D;
    assert Xor(0x0E, 0x14) == 0x1A;
    assert Xor(0x1D, 0x28) == 0x35;
    assert Xor(0x3B, 0x50) == 0x6B;
    assert Xor(0x77, 0xA0) == 0xD7;
    assert Xor(0xEE, 0x0140) == 0x01AE;
    assert Xor(0x01DD, 0x0280) == 0x035D;
    assert Xor(0x03BA, 0x0500) == 0x06BA;
    assert Xor(0x0774, 0x0A00) == 0x0D74;
    assert Xor(0x0EE9, 0x1400) == 0x1AE9;
    assert Xor(0x1DD2, 0x2800) == 0x35D2;
    assert Xor(0x3BA4, 0x5000) == 0x6BA4;
    assert Xor(0x7749, 0xA001) == 0xD748;
  }
  lemma Round1AE9()
    ensures ShiftRound(0x1AE9) == 0xAD75
  {
    assert Xor(0x00, 0x01) == 0x01;
    assert Xor(0x00, 0x02) == 0x02;
    assert Xor(0x00, 0x05) == 0x05;
    assert Xor(0x00, 0x0A) == 0x0A;
    assert Xor(0x01, 0x14) == 0x15;
    assert Xor(0x03, 0x28) == 0x2B;
    assert Xor(0x06, 0x50) == 0x56;
    assert Xor(0x0D, 0xA0) == 0xAD;
    assert Xor(0x1A, 0x0140) == 0x015A;
    assert Xor(0x35, 0x0280) == 0x02B5;
    assert Xor(0x6B, 0x0500) == 0x056B;
    assert Xor(0xD7, 0x0A00) == 0x0AD7;
    assert Xor(0x01AE, 0x1400) == 0x15AE;
    assert Xor(0x035D, 0x2800) == 0x2B5D;
    assert Xor(0x06BA, 0x5000) == 0x56BA;
    assert Xor(0x0D74, 0xA001) == 0xAD75;
  }
  lemma RoundAD75()
    ensures ShiftRound(0xAD75) == 0xF6BB
  {
    assert Xor(0x00, 0x01) == 0x01;
    assert Xor(0x01, 0x02) == 0x03;
    assert Xor(0x02, 0x05) == 0x07;
    assert Xor(0x05, 0x0A) == 0x0F;
    assert Xor(0x0A, 0x14) == 0x1E;
    assert Xor(0x15, 0x28) == 0x3D;
    assert Xor(0x2B, 0x50) == 0x7B;
    assert Xor(0x56, 0xA0) == 0xF6;
    assert Xor(0xAD, 0x0140) == 0x01ED;
    assert Xor(0x015A, 0x0280) == 0x03DA;
    assert Xor(0x02B5, 0x0500) == 0x07B5;
    assert Xor(0x056B, 0x0A00) == 0x0F6B;
    assert Xor(0x0AD7, 0x1400) == 0x1ED7;
    assert Xor(0x15AE, 0x2800) == 0x3DAE;
    assert Xor(0x2B5D, 0x5000) == 0x7B5D;
    assert Xor(0x56BA, 0xA001) == 0xF6BB;
  }
  lemma MixF6BB00()
    ensures Xor(0xF6BB, 0x00) == 0xF6BB
  {
    assert Xor(0x01, 0x00) == 0x01;
    assert Xor(0x03, 0x00) == 0x03;
    assert Xor(0x07, 0x00) == 0x07;
    assert Xor(0x0F, 0x00) == 0x0F;
    assert Xor(0x1E, 0x00) == 0x1E;
    assert Xor(0x3D, 0x00) == 0x3D;
    assert Xor(0x7B, 0x00) == 0x7B;
    assert Xor(0xF6, 0x00) == 0xF6;
    assert Xor(0x01ED, 0x00) == 0x01ED;
    assert Xor(0x03DA, 0x00) == 0x03DA;
    assert Xor(0x07B5, 0x00) == 0x07B5;
    assert Xor(0x0F6B, 0x00) == 0x0F6B;
    assert Xor(0x1ED7, 0x00) == 0x1ED7;
    assert Xor(0x3DAE, 0x00) == 0x3DAE;
    assert Xor(0x7B5D, 0x00) == 0x7B5D;
    assert Xor(0xF6BB, 0x00) == 0xF6BB;
  }
  lemma RoundF6BB()
    ensures ShiftRound(0xF6BB) == 0xDB5C
  {
    assert Xor(0x00, 0x01) == 0x01;
    assert Xor(0x01, 0x02) == 0x03;
    assert Xor(0x03, 0x05) == 0x06;
    assert Xor(0x07, 0x0A) == 0x0D;
    assert Xor(0x0F, 0x14) == 0x1B;
    assert Xor(0x1E, 0x28) == 0x36;
    assert Xor(0x3D, 0x50) == 0x6D;
    assert Xor(0x7B, 0xA0) == 0xDB;
    assert Xor(0xF6, 0x0140) == 0x01B6;
    assert Xor(0x01ED, 0x0280) == 0x036D;
    assert Xor(0x03DA, 0x0500) == 0x06DA;
    assert Xor(0x07B5, 0x0A00) == 0x0DB5;
    assert Xor(0x0F6B, 0x1400) == 0x1B6B;
    assert Xor(0x1ED7, 0x2800) == 0x36D7;
    assert Xor(0x3DAE, 0x5000) == 0x6DAE;
    assert Xor(0x7B5D, 0xA001) == 0xDB5C;
  }
  lemma Round36D7()
    ensures ShiftRound(0x36D7) == 0xBB6A
  {
    assert Xor(0x00, 0x01) == 0x01;
    assert Xor(0x00, 0x02) == 0x02;
    assert Xor(0x00, 0x05) == 0x05;
    assert Xor(0x01, 0x0A) == 0x0B;
    assert Xor(0x03, 0x14) == 0x17;
    assert Xor(0x06, 0x28) == 0x2E;
    assert Xor(0x0D, 0x50) == 0x5D;
    assert Xor(0x1B, 0xA0) == 0xBB;
    assert Xor(0x36, 0x0140) == 0x0176;
    assert Xor(0x6D, 0x0280) == 0x02ED;
    assert Xor(0xDB, 0x0500) == 0x05DB;
    assert Xor(0x01B6, 0x0A00) == 0x0BB6;
    assert Xor(0x036D, 0x1400) == 0x176D;
    assert Xor(0x06DA, 0x2800) == 0x2EDA;
    assert Xor(0x0DB5, 0x5000) == 0x5DB5;
    assert Xor(0x1B6B, 0xA001) == 0xBB6A;
  }
  lemma Round5DB5()
    ensures ShiftRound(0x5DB5) == 0x8EDB
  {
    assert Xor(0x00, 0x01) == 0x01;
    assert Xor(0x00, 0x02) == 0x02;
    assert Xor(0x01, 0x05) == 0x04;
    assert Xor(0x02, 0x0A) == 0x08;
    assert Xor(0x05, 0x14) == 0x11;
    assert Xor(0x0B, 0x28) == 0x23;
    assert Xor(0x17, 0x50) == 0x47;
    assert Xor(0x2E, 0xA0) == 0x8E;
    assert Xor(0x5D, 0x0140) == 0x011D;
    assert Xor(0xBB, 0x0280) == 0x023B;
    assert Xor(0x0176, 0x0500) == 0x0476;
    assert Xor(0x02ED, 0x0A00) == 0x08ED;
    assert Xor(0x05DB, 0x1400) == 0x11DB;
    assert Xor(0x0BB6, 0x2800) == 0x23B6;
    assert Xor(0x176D, 0x5000) == 0x476D;
    assert Xor(0x2EDA, 0xA001) == 0x8EDB;
  }
  lemma Round8EDB()
    ensures ShiftRound(0x8EDB) == 0xE76C
  {
    assert Xor(0x00, 0x01) == 0x01;
    assert Xor(0x01, 0x02) == 0x03;
    assert Xor(0x02, 0x05) == 0x07;
    assert Xor(0x04, 0x0A) == 0x0E;
    assert Xor(0x08, 0x14) == 0x1C;
    assert Xor(0x11, 0x28) == 0x39;
    assert Xor(0x23, 0x50) == 0x73;
    assert Xor(0x47, 0xA0) == 0xE7;
    assert Xor(0x8E, 0x0140) == 0x01CE;
    assert Xor(0x011D, 0x0280) == 0x039D;
    assert Xor(0x023B, 0x0500) == 0x073B;
    assert Xor(0x0476, 0x0A00) == 0x0E76;
    assert Xor(0x08ED, 0x1400) == 0x1CED;
    assert Xor(0x11DB, 0x2800) == 0x39DB;
    assert Xor(0x23B6, 0x5000) == 0x73B6;
    assert Xor(0x476D, 0xA001) == 0xE76C;
  }
  lemma Mix73B603()
    ensures Xor(0x73B6, 0x03) == 0x73B5
  {
    assert Xor(0x01, 0x00) == 0x01;
    assert Xor(0x03, 0x00) == 0x03;
    assert Xor(0x07, 0x00) == 0x07;
    assert Xor(0x0E, 0x00) == 0x0E;
    assert Xor(0x1C, 0x00) == 0x1C;
    assert Xor(0x39, 0x00) == 0x39;
    assert Xor(0x73, 0x00) == 0x73;
    assert Xor(0xE7, 0x00) == 0xE7;
    assert Xor(0x01CE, 0x00) == 0x01CE;
    assert Xor(0x039D, 0x00) == 0x039D;
    assert Xor(0x073B, 0x00) == 0x073B;
    assert Xor(0x0E76, 0x00) == 0x0E76;
    assert Xor(0x1CED, 0x00) == 0x1CED;
    assert Xor(0x39DB, 0x01) == 0x39DA;
    assert Xor(0x73B6, 0x03) == 0x73B5;
  }
  lemma Round73B5()
    ensures ShiftRound(0x73B5) == 0x99DB
  {
    assert Xor(0x00, 0x01) == 0x01;
    assert Xor(0x00, 0x02) == 0x02;
    assert Xor(0x01, 0x05) == 0x04;
    assert Xor(0x03, 0x0A) == 0x09;
    assert Xor(0x07, 0x14) == 0x13;
    assert Xor(0x0E, 0x28) == 0x26;
    assert Xor(0x1C, 0x50) == 0x4C;
    assert Xor(0x39, 0xA0) == 0x99;
    assert Xor(0x73, 0x0140) == 0x0133;
    assert Xor(0xE7, 0x0280) == 0x0267;
    assert Xor(0x01CE, 0x0500) == 0x04CE;
    assert Xor(0x039D, 0x0A00) == 0x099D;
    assert Xor(0x073B, 0x1400) == 0x133B;
    assert Xor(0x0E76, 0x2800) == 0x2676;
    assert Xor(0x1CED, 0x5000) == 0x4CED;
    assert Xor(0x39DA, 0xA001) == 0x99DB;
  }
  lemma Round99DB()
    ensures ShiftRound(0x99DB) == 0xECEC
  {
    assert Xor(0x00, 0x01) == 0x01;
    assert Xor(0x01, 0x02) == 0x03;
    assert Xor(0x02, 0x05) == 0x07;
    assert Xor(0x04, 0x0A) == 0x0E;
    assert Xor(0x09, 0x14) == 0x1D;
    assert Xor(0x13, 0x28) == 0x3B;
    assert Xor(0x26, 0x50) == 0x76;
    assert Xor(0x4C, 0xA0) == 0xEC;
    assert Xor(0x99, 0x0140) == 0x01D9;
    assert Xor(0x0133, 0x0280) == 0x03B3;
    assert Xor(0x0267, 0x0500) == 0x0767;
    assert Xor(0x04CE, 0x0A00) == 0x0ECE;
    assert Xor(0x099D, 0x1400) == 0x1D9D;
    assert Xor(0x133B, 0x2800) == 0x3B3B;
    assert Xor(0x2676, 0x5000) == 0x7676;
    assert Xor(0x4CED, 0xA001) == 0xECEC;
  }
  lemma Round3B3B()
    ensures ShiftRound(0x3B3B) == 0xBD9C
  {
    assert Xor(0x00, 0x01) == 0x01;
    assert Xor(0x00, 0x02) == 0x02;
    assert Xor(0x00, 0x05) == 0x05;
    assert Xor(0x01, 0x0A) == 0x0B;
    assert Xor(0x03, 0x14) == 0x17;
    assert Xor(0x07, 0x28) == 0x2F;
    assert Xor(0x0E, 0x50) == 0x5E;
    assert Xor(0x1D, 0xA0) == 0xBD;
    assert Xor(0x3B, 0x0140) == 0x017B;
    assert Xor(0x76, 0x0280) == 0x02F6;
    assert Xor(0xEC, 0x0500) == 0x05EC;
    assert Xor(0x01D9, 0x0A00) == 0x0BD9;
    assert Xor(0x03B3, 0x1400) == 0x17B3;
    assert Xor(0x0767, 0x2800) == 0x2F67;
    assert Xor(0x0ECE, 0x5000) == 0x5ECE;
    assert Xor(0x1D9D, 0xA001) == 0xBD9C;
  }
  lemma Round2F67()
    ensures ShiftRound(0x2F67) == 0xB7B2
  {
    assert Xor(0x00, 0x01) == 0x01;
    assert Xor(0x00, 0x02) == 0x02;
    assert Xor(0x00, 0x05) == 0x05;
    assert Xor(0x01, 0x0A) == 0x0B;
    assert Xor(0x02, 0x14) == 0x16;
    assert Xor(0x05, 0x28) == 0x2D;
    assert Xor(0x0B, 0x50) == 0x5B;
    assert Xor(0x17, 0xA0) == 0xB7;
    assert Xor(0x2F, 0x0140) == 0x016F;
    assert Xor(0x5E, 0x0280) == 0x02DE;
    assert Xor(0xBD, 0x0500) == 0x05BD;
    assert Xor(0x017B, 0x0A00) == 0x0B7B;
    assert Xor(0x02F6, 0x1400) == 0x16F6;
    assert Xor(0x05EC, 0x2800) == 0x2DEC;
    assert Xor(0x0BD9, 0x5000) == 0x5BD9;
    assert Xor(0x17B3, 0xA001) == 0xB7B2;
  }
  lemma MixB7B201()
    ensures Xor(0xB7B2, 0x01) == 0xB7B3
  {
    assert Xor(0x01, 0x00) == 0x01;
    assert Xor(0x02, 0x00) == 0x02;
    assert Xor(0x05, 0x00) == 0x05;
    assert Xor(0x0B, 0x00) == 0x0B;
    assert Xor(0x16, 0x00) == 0x16;
    assert Xor(0x2D, 0x00) == 0x2D;
    assert Xor(0x5B, 0x00) == 0x5B;
    assert Xor(0xB7, 0x00) == 0xB7;
    assert Xor(0x016F, 0x00) == 0x016F;
    assert Xor(0x02DE, 0x00) == 0x02DE;
    assert Xor(0x05BD, 0x00) == 0x05BD;
    assert Xor(0x0B7B, 0x00) == 0x0B7B;
    assert Xor(0x16F6, 0x00) == 0x16F6;
    assert Xor(0x2DEC, 0x00) == 0x2DEC;
    assert Xor(0x5BD9, 0x00) == 0x5BD9;
    assert Xor(0xB7B2, 0x01) == 0xB7B3;
  }
  lemma RoundB7B3()
    ensures ShiftRound(0xB7B3) == 0xFBD8
  {
    assert Xor(0x00, 0x01) == 0x01;
    assert Xor(0x01, 0x02) == 0x03;
    assert Xor(0x02, 0x05) == 0x07;
    assert Xor(0x05, 0x0A) == 0x0F;
    assert Xor(0x0B, 0x14) == 0x1F;
    assert Xor(0x16, 0x28) == 0x3E;
    assert Xor(0x2D, 0x50) == 0x7D;
    assert Xor(0x5B, 0xA0) == 0xFB;
    assert Xor(0xB7, 0x0140) == 0x01F7;
    assert Xor(0x016F, 0x0280) == 0x03EF;
    assert Xor(0x02DE, 0x0500) == 0x07DE;
    assert Xor(0x05BD, 0x0A00) == 0x0FBD;
    assert Xor(0x0B7B, 0x1400) == 0x1F7B;
    assert Xor(0x16F6, 0x2800) == 0x3EF6;
    assert Xor(0x2DEC, 0x5000) == 0x7DEC;
    assert Xor(0x5BD9, 0xA001) == 0xFBD8;
  }
  lemma Round1F7B()
    ensures ShiftRound(0x1F7B) == 0xAFBC
  {
    assert Xor(0x00, 0x01) == 0x01;
    assert Xor(0x00, 0x02) == 0x02;
    assert Xor(0x00, 0x05) == 0x05;
    assert Xor(0x00, 0x0A) == 0x0A;
    assert Xor(0x01, 0x14) == 0x15;
    assert Xor(0x03, 0x28) == 0x2B;
    assert Xor(0x07, 0x50) == 0x57;
    assert Xor(0x0F, 0xA0) == 0xAF;
    assert Xor(0x1F, 0x0140) == 0x015F;
    assert Xor(0x3E, 0x0280) == 0x02BE;
    assert Xor(0x7D, 0x0500) == 0x057D;
    assert Xor(0xFB, 0x0A00) == 0x0AFB;
    assert Xor(0x01F7, 0x1400) == 0x15F7;
    assert Xor(0x03EF, 0x2800) == 0x2BEF;
    assert Xor(0x07DE, 0x5000) == 0x57DE;
    assert Xor(0x0FBD, 0xA001) == 0xAFBC;
  }
  lemma Round2BEF()
    ensures ShiftRound(0x2BEF) == 0xB5F6
  {
    assert Xor(0x00, 0x01) == 0x01;
    assert Xor(0x00, 0x02) == 0x02;
    assert Xor(0x00, 0x05) == 0x05;
    assert Xor(0x01, 0x0A) == 0x0B;
    assert Xor(0x02, 0x14) == 0x16;
    assert Xor(0x05, 0x28) == 0x2D;
    assert Xor(0x0A, 0x50) == 0x5A;
    assert Xor(0x15, 0xA0) == 0xB5;
    assert Xor(0x2B, 0x0140) == 0x016B;
    assert Xor(0x57, 0x0280) == 0x02D7;
    assert Xor(0xAF, 0x0500) == 0x05AF;
    assert Xor(0x015F, 0x0A00) == 0x0B5F;
    assert Xor(0x02BE, 0x1400) == 0x16BE;
    assert Xor(0x057D, 0x2800) == 0x2D7D;
    assert Xor(0x0AFB, 0x5000) == 0x5AFB;
    assert Xor(0x15F7, 0xA001) == 0xB5F6;
  }
  lemma MixB5F612()
    ensures Xor(0xB5F6, 0x12) == 0xB5E4
  {
    assert Xor(0x01, 0x00) == 0x01;
    assert Xor(0x02, 0x00) == 0x02;
    assert Xor(0x05, 0x00) == 0x05;
    assert Xor(0x0B, 0x00) == 0x0B;
    assert Xor(0x16, 0x00) == 0x16;
    assert Xor(0x2D, 0x00) == 0x2D;
    assert Xor(0x5A, 0x00) == 0x5A;
    assert Xor(0xB5, 0x00) == 0xB5;
    assert Xor(0x016B, 0x00) == 0x016B;
    assert Xor(0x02D7, 0x00) == 0x02D7;
    assert Xor(0x05AF, 0x00) == 0x05AF;
    assert Xor(0x0B5F, 0x01) == 0x0B5E;
    assert Xor(0x16BE, 0x02) == 0x16BC;
    assert Xor(0x2D7D, 0x04) == 0x2D79;
    assert Xor(0x5AFB, 0x09) == 0x5AF2;
    assert Xor(0xB5F6, 0x12) == 0xB5E4;
  }
  lemma Round2D79()
    ensures ShiftRound(0x2D79) == 0xB6BD
  {
    assert Xor(0x00, 0x01) == 0x01;
    assert Xor(0x00, 0x02) == 0x02;
    assert Xor(0x00, 0x05) == 0x05;
    assert Xor(0x01, 0x0A) == 0x0B;
    assert Xor(0x02, 0x14) == 0x16;
    assert Xor(0x05, 0x28) == 0x2D;
    assert Xor(0x0B, 0x50) == 0x5B;
    assert Xor(0x16, 0xA0) == 0xB6;
    assert Xor(0x2D, 0x0140) == 0x016D;
    assert Xor(0x5A, 0x0280) == 0x02DA;
    assert Xor(0xB5, 0x0500) == 0x05B5;
    assert Xor(0x016B, 0x0A00) == 0x0B6B;
    assert Xor(0x02D7, 0x1400) == 0x16D7;
    assert Xor(0x05AF, 0x2800) == 0x2DAF;
    assert Xor(0x0B5E, 0x5000) == 0x5B5E;
    assert Xor(0x16BC, 0xA001) == 0xB6BD;
  }
  lemma RoundB6BD()
    ensures ShiftRound(0xB6BD) == 0xFB5F
  {
    assert Xor(0x00, 0x01) == 0x01;
    assert Xor(0x01, 0x02) == 0x03;
    assert Xor(0x02, 0x05) == 0x07;
    assert Xor(0x05, 0x0A) == 0x0F;
    assert Xor(0x0B, 0x14) == 0x1F;
    assert Xor(0x16, 0x28) == 0x3E;
    assert Xor(0x2D, 0x50) == 0x7D;
    assert Xor(0x5B, 0xA0) == 0xFB;
    assert Xor(0xB6, 0x0140) == 0x01F6;
    assert Xor(0x016D, 0x0280) == 0x03ED;
    assert Xor(0x02DA, 0x0500) == 0x07DA;
    assert Xor(0x05B5, 0x0A00) == 0x0FB5;
    assert Xor(0x0B6B, 0x1400) == 0x1F6B;
    assert Xor(0x16D7, 0x2800) == 0x3ED7;
    assert Xor(0x2DAF, 0x5000) == 0x7DAF;
    assert Xor(0x5B5E, 0xA001) == 0xFB5F;
  }
  lemma RoundFB5F()
    ensures ShiftRound(0xFB5F) == 0xDDAE
  {
    assert Xor(0x00, 0x01) == 0x01;
    assert Xor(0x01, 0x02) == 0x03;
    assert Xor(0x03, 0x05) == 0x06;
    assert Xor(0x07, 0x0A) == 0x0D;
    assert Xor(0x0F, 0x14) == 0x1B;
    assert Xor(0x1F, 0x28) == 0x37;
    assert Xor(0x3E, 0x50) == 0x6E;
    assert Xor(0x7D, 0xA0) == 0xDD;
    assert Xor(0xFB, 0x0140) == 0x01BB;
    assert Xor(0x01F6, 0x0280) == 0x0376;
    assert Xor(0x03ED, 0x0500) == 0x06ED;
    assert Xor(0x07DA, 0x0A00) == 0x0DDA;
    assert Xor(0x0FB5, 0x1400) == 0x1BB5;
    assert Xor(0x1F6B, 0x2800) == 0x376B;
    assert Xor(0x3ED7, 0x5000) == 0x6ED7;
    assert Xor(0x7DAF, 0xA001) == 0xDDAE;
  }
  lemma Round6ED7()
    ensures ShiftRound(0x6ED7) == 0x976A
  {
    assert Xor(0x00, 0x01) == 0x01;
    assert Xor(0x00, 0x02) == 0x02;
    assert Xor(0x01, 0x05) == 0x04;
    assert Xor(0x03, 0x0A) == 0x09;
    assert Xor(0x06, 0x14) == 0x12;
    assert Xor(0x0D, 0x28) == 0x25;
    assert Xor(0x1B, 0x50) == 0x4B;
    assert Xor(0x37, 0xA0) == 0x97;
    assert Xor(0x6E, 0x0140) == 0x012E;
    assert Xor(0xDD, 0x0280) == 0x025D;
    assert Xor(0x01BB, 0x0500) == 0x04BB;
    assert Xor(0x0376, 0x0A00) == 0x0976;
    assert Xor(0x06ED, 0x1400) == 0x12ED;
    assert Xor(0x0DDA, 0x2800) == 0x25DA;
    assert Xor(0x1BB5, 0x5000) == 0x4BB5;
    assert Xor(0x376B, 0xA001) == 0x976A;
  }
  lemma Mix4BB512()
    ensures Xor(0x4BB5, 0x12) == 0x4BA7
  {
    assert Xor(0x01, 0x00) == 0x01;
    assert Xor(0x02, 0x00) == 0x02;
    assert Xor(0x04, 0x00) == 0x04;
    assert Xor(0x09, 0x00) == 0x09;
    assert Xor(0x12, 0x00) == 0x12;
    assert Xor(0x25, 0x00) == 0x25;
    assert Xor(0x4B, 0x00) == 0x4B;
    assert Xor(0x97, 0x00) == 0x97;
    assert Xor(0x012E, 0x00) == 0x012E;
    assert Xor(0x025D, 0x00) == 0x025D;
    assert Xor(0x04BB, 0x01) == 0x04BA;
    assert Xor(0x0976, 0x02) == 0x0974;
    assert Xor(0x12ED, 0x04) == 0x12E9;
    assert Xor(0x25DA, 0x09) == 0x25D3;
    assert Xor(0x4BB5, 0x12) == 0x4BA7;
  }
  lemma Round4BA7()
    ensures ShiftRound(0x4BA7) == 0x85D2
  {
    assert Xor(0x00, 0x01) == 0x01;
    assert Xor(0x00, 0x02) == 0x02;
    assert Xor(0x01, 0x05) == 0x04;
    assert Xor(0x02, 0x0A) == 0x08;
    assert Xor(0x04, 0x14) == 0x10;
    assert Xor(0x09, 0x28) == 0x21;
    assert Xor(0x12, 0x50) == 0x42;
    assert Xor(0x25, 0xA0) == 0x85;
    assert Xor(0x4B, 0x0140) == 0x010B;
    assert Xor(0x97, 0x0280) == 0x0217;
    assert Xor(0x012E, 0x0500) == 0x042E;
    assert Xor(0x025D, 0x0A00) == 0x085D;
    assert Xor(0x04BA, 0x1400) == 0x10BA;
    assert Xor(0x0974, 0x2800) == 0x2174;
    assert Xor(0x12E9, 0x5000) == 0x42E9;
    assert Xor(0x25D3, 0xA001) == 0x85D2;
  }
  lemma Round42E9()
    ensures ShiftRound(0x42E9) == 0x8175
  {
    assert Xor(0x00, 0x01) == 0x01;
    assert Xor(0x00, 0x02) == 0x02;
    assert Xor(0x01, 0x05) == 0x04;
    assert Xor(0x02, 0x0A) == 0x08;
    assert Xor(0x04, 0x14) == 0x10;
    assert Xor(0x08, 0x28) == 0x20;
    assert Xor(0x10, 0x50) == 0x40;
    assert Xor(0x21, 0xA0) == 0x81;
    assert Xor(0x42, 0x0140) == 0x0102;
    assert Xor(0x85, 0x0280) == 0x0205;
    assert Xor(0x010B, 0x0500) == 0x040B;
    assert Xor(0x0217, 0x0A00) == 0x0817;
    assert Xor(0x042E, 0x1400) == 0x102E;
    assert Xor(0x085D, 0x2800) == 0x205D;
    assert Xor(0x10BA, 0x5000) == 0x40BA;
    assert Xor(0x2174, 0xA001) == 0x8175;
  }
  lemma Round8175()
    ensures ShiftRound(0x8175) == 0xE0BB
  {
    assert Xor(0x00, 0x01) == 0x01;
    assert Xor(0x01, 0x02) == 0x03;
    assert Xor(0x02, 0x05) == 0x07;
    assert Xor(0x04, 0x0A) == 0x0E;
    assert Xor(0x08, 0x14) == 0x1C;
    assert Xor(0x10, 0x28) == 0x38;
    assert Xor(0x20, 0x50) == 0x70;
    assert Xor(0x40, 0xA0) == 0xE0;
    assert Xor(0x81, 0x0140) == 0x01C1;
    assert Xor(0x0102, 0x0280) == 0x0382;
    assert Xor(0x0205, 0x0500) == 0x0705;
    assert Xor(0x040B, 0x0A00) == 0x0E0B;
    assert Xor(0x0817, 0x1400) == 0x1C17;
    assert Xor(0x102E, 0x2800) == 0x382E;
    assert Xor(0x205D, 0x5000) == 0x705D;
    assert Xor(0x40BA, 0xA001) == 0xE0BB;
  }
  lemma RoundE0BB()
    ensures ShiftRound(0xE0BB) == 0xD05C
  {
    assert Xor(0x00, 0x01) == 0x01;
    assert Xor(0x01, 0x02) == 0x03;
    assert Xor(0x03, 0x05) == 0x06;
    assert Xor(0x07, 0x0A) == 0x0D;
    assert Xor(0x0E, 0x14) == 0x1A;
    assert Xor(0x1C, 0x28) == 0x34;
    assert Xor(0x38, 0x50) == 0x68;
    assert Xor(0x70, 0xA0) == 0xD0;
    assert Xor(0xE0, 0x0140) == 0x01A0;
    assert Xor(0x01C1, 0x0280) == 0x0341;
    assert Xor(0x0382, 0x0500) == 0x0682;
    assert Xor(0x0705, 0x0A00) == 0x0D05;
    assert Xor(0x0E0B, 0x1400) == 0x1A0B;
    assert Xor(0x1C17, 0x2800) == 0x3417;
    assert Xor(0x382E, 0x5000) == 0x682E;
    assert Xor(0x705D, 0xA001) == 0xD05C;
  }
  lemma Round3417()
    ensures ShiftRound(0x3417) == 0xBA0A
  {
    assert Xor(0x00, 0x01) == 0x01;
    assert Xor(0x00, 0x02) == 0x02;
    assert Xor(0x00, 0x05) == 0x05;
    assert Xor(0x01, 0x0A) == 0x0B;
    assert Xor(0x03, 0x14) == 0x17;
    assert Xor(0x06, 0x28) == 0x2E;
    assert Xor(0x0D, 0x50) == 0x5D;
    assert Xor(0x1A, 0xA0) == 0xBA;
    assert Xor(0x34, 0x0140) == 0x0174;
    assert Xor(0x68, 0x0280) == 0x02E8;
    assert Xor(0xD0, 0x0500) == 0x05D0;
    assert Xor(0x01A0, 0x0A00) == 0x0BA0;
    assert Xor(0x0341, 0x1400) == 0x1741;
    assert Xor(0x0682, 0x2800) == 0x2E82;
    assert Xor(0x0D05, 0x5000) == 0x5D05;
    assert Xor(0x1A0B, 0xA001) == 0xBA0A;
  }
  lemma MixBA0A15()
    ensures Xor(0xBA0A, 0x15) == 0xBA1F
  {
    assert Xor(0x01, 0x00) == 0x01;
    assert Xor(0x02, 0x00) == 0x02;
    assert Xor(0x05, 0x00) == 0x05;
    assert Xor(0x0B, 0x00) == 0x0B;
    assert Xor(0x17, 0x00) == 0x17;
    assert Xor(0x2E, 0x00) == 0x2E;
    assert Xor(0x5D, 0x00) == 0x5D;
    assert Xor(0xBA, 0x00) == 0xBA;
    assert Xor(0x0174, 0x00) == 0x0174;
    assert Xor(0x02E8, 0x00) == 0x02E8;
    assert Xor(0x05D0, 0x00) == 0x05D0;
    assert Xor(0x0BA0, 0x01) == 0x0BA1;
    assert Xor(0x1741, 0x02) == 0x1743;
    assert Xor(0x2E82, 0x05) == 0x2E87;
    assert Xor(0x5D05, 0x0A) == 0x5D0F;
    assert Xor(0xBA0A, 0x15) == 0xBA1F;
  }
  lemma RoundBA1F()
    ensures ShiftRound(0xBA1F) == 0xFD0E
  {
    assert Xor(0x00, 0x01) == 0x01;
    assert Xor(0x01, 0x02) == 0x03;
    assert Xor(0x02, 0x05) == 0x07;
    assert Xor(0x05, 0x0A) == 0x0F;
    assert Xor(0x0B, 0x14) == 0x1F;
    assert Xor(0x17, 0x28) == 0x3F;
    assert Xor(0x2E, 0x50) == 0x7E;
    assert Xor(0x5D, 0xA0) == 0xFD;
    assert Xor(0xBA, 0x0140) == 0x01FA;
    assert Xor(0x0174, 0x0280) == 0x03F4;
    assert Xor(0x02E8, 0x0500) == 0x07E8;
    assert Xor(0x05D0, 0x0A00) == 0x0FD0;
    assert Xor(0x0BA1, 0x1400) == 0x1FA1;
    assert Xor(0x1743, 0x2800) == 0x3F43;
    assert Xor(0x2E87, 0x5000) == 0x7E87;
    assert Xor(0x5D0F, 0xA001) == 0xFD0E;
  }
  lemma Round7E87()
    ensures ShiftRound(0x7E87) == 0x9F42
  {
    assert Xor(0x00, 0x01) == 0x01;
    assert Xor(0x00, 0x02) == 0x02;
    assert Xor(0x01, 0x05) == 0x04;
    assert Xor(0x03, 0x0A) == 0x09;
    assert Xor(0x07, 0x14) == 0x13;
    assert Xor(0x0F, 0x28) == 0x27;
    assert Xor(0x1F, 0x50) == 0x4F;
    assert Xor(0x3F, 0xA0) == 0x9F;
    assert Xor(0x7E, 0x0140) == 0x013E;
    assert Xor(0xFD, 0x0280) == 0x027D;
    assert Xor(0x01FA, 0x0500) == 0x04FA;
    assert Xor(0x03F4, 0x0A00) == 0x09F4;
    assert Xor(0x07E8, 0x1400) == 0x13E8;
    assert Xor(0x0FD0, 0x2800) == 0x27D0;
    assert Xor(0x1FA1, 0x5000) == 0x4FA1;
    assert Xor(0x3F43, 0xA001) == 0x9F42;
  }
  lemma Round4FA1()
    ensures ShiftRound(0x4FA1) == 0x87D1
  {
    assert Xor(0x00, 0x01) == 0x01;
    assert Xor(0x00, 0x02) == 0x02;
    assert Xor(0x01, 0x05) == 0x04;
    assert Xor(0x02, 0x0A) == 0x08;
    assert Xor(0x04, 0x14) == 0x10;
    assert Xor(0x09, 0x28) == 0x21;
    assert Xor(0x13, 0x50) == 0x43;
    assert Xor(0x27, 0xA0) == 0x87;
    assert Xor(0x4F, 0x0140) == 0x010F;
    assert Xor(0x9F, 0x0280) == 0x021F;
    assert Xor(0x013E, 0x0500) == 0x043E;
    assert Xor(0x027D, 0x0A00) == 0x087D;
    assert Xor(0x04FA, 0x1400) == 0x10FA;
    assert Xor(0x09F4, 0x2800) == 0x21F4;
    assert Xor(0x13E8, 0x5000) == 0x43E8;
    assert Xor(0x27D0, 0xA001) == 0x87D1;
  }
  lemma Round87D1()
    ensures ShiftRound(0x87D1) == 0xE3E9
  {
    assert Xor(0x00, 0x01) == 0x01;
    assert Xor(0x01, 0x02) == 0x03;
    assert Xor(0x02, 0x05) == 0x07;
    assert Xor(0x04, 0x0A) == 0x0E;
    assert Xor(0x08, 0x14) == 0x1C;
    assert Xor(0x10, 0x28) == 0x38;
    assert Xor(0x21, 0x50) == 0x71;
    assert Xor(0x43, 0xA0) == 0xE3;
    assert Xor(0x87, 0x0140) == 0x01C7;
    assert Xor(0x010F, 0x0280) == 0x038F;
    assert Xor(0x021F, 0x0500) == 0x071F;
    assert Xor(0x043E, 0x0A00) == 0x0E3E;
    assert Xor(0x087D, 0x1400) == 0x1C7D;
    assert Xor(0x10FA, 0x2800) == 0x38FA;
    assert Xor(0x21F4, 0x5000) == 0x71F4;
    assert Xor(0x43E8, 0xA001) == 0xE3E9;
  }
  lemma RoundE3E9()
    ensures ShiftRound(0xE3E9) == 0xD1F5
  {
    assert Xor(0x00, 0x01) == 0x01;
    assert Xor(0x01, 0x02) == 0x03;
    assert Xor(0x03, 0x05) == 0x06;
    assert Xor(0x07, 0x0A) == 0x0D;
    assert Xor(0x0E, 0x14) == 0x1A;
    assert Xor(0x1C, 0x28) == 0x34;
    assert Xor(0x38, 0x50) == 0x68;
    assert Xor(0x71, 0xA0) == 0xD1;
    assert Xor(0xE3, 0x0140) == 0x01A3;
    assert Xor(0x01C7, 0x0280) == 0x0347;
    assert Xor(0x038F, 0x0500) == 0x068F;
    assert Xor(0x071F, 0x0A00) == 0x0D1F;
    assert Xor(0x0E3E, 0x1400) == 0x1A3E;
    assert Xor(0x1C7D, 0x2800) == 0x347D;
    assert Xor(0x38FA, 0x5000) == 0x68FA;
    assert Xor(0x71F4, 0xA001) == 0xD1F5;
  }
  lemma RoundD1F5()
    ensures ShiftRound(0xD1F5) == 0xC8FB
  {
    assert Xor(0x00, 0x01) == 0x01;
    assert Xor(0x01, 0x02) == 0x03;
    assert Xor(0x03, 0x05) == 0x06;
    assert Xor(0x06, 0x0A) == 0x0C;
    assert Xor(0x0D, 0x14) == 0x19;
    assert Xor(0x1A, 0x28) == 0x32;
    assert Xor(0x34, 0x50) == 0x64;
    assert Xor(0x68, 0xA0) == 0xC8;
    assert Xor(0xD1, 0x0140) == 0x0191;
    assert Xor(0x01A3, 0x0280) == 0x0323;
    assert Xor(0x0347, 0x0500) == 0x0647;
    assert Xor(0x068F, 0x0A00) == 0x0C8F;
    assert Xor(0x0D1F, 0x1400) == 0x191F;
    assert Xor(0x1A3E, 0x2800) == 0x323E;
    assert Xor(0x347D, 0x5000) == 0x647D;
    assert Xor(0x68FA, 0xA001) == 0xC8FB;
  }
  lemma MixC8FB28()
    ensures Xor(0xC8FB, 0x28) == 0xC8D3
  {
    assert Xor(0x01, 0x00) == 0x01;
    assert Xor(0x03, 0x00) == 0x03;
    assert Xor(0x06, 0x00) == 0x06;
    assert Xor(0x0C, 0x00) == 0x0C;
    assert Xor(0x19, 0x00) == 0x19;
    assert Xor(0x32, 0x00) == 0x32;
    assert Xor(0x64, 0x00) == 0x64;
    assert Xor(0xC8, 0x00) == 0xC8;
    assert Xor(0x0191, 0x00) == 0x0191;
    assert Xor(0x0323, 0x00) == 0x0323;
    assert Xor(0x0647, 0x01) == 0x0646;
    assert Xor(0x0C8F, 0x02) == 0x0C8D;
    assert Xor(0x191F, 0x05) == 0x191A;
    assert Xor(0x323E, 0x0A) == 0x3234;
    assert Xor(0x647D, 0x14) == 0x6469;
    assert Xor(0xC8FB, 0x28) == 0xC8D3;
  }
  lemma RoundC8D3()
    ensures ShiftRound(0xC8D3) == 0xC468
  {
    assert Xor(0x00, 0x01) == 0x01;
    assert Xor(0x01, 0x02) == 0x03;
    assert Xor(0x03, 0x05) == 0x06;
    assert Xor(0x06, 0x0A) == 0x0C;
    assert Xor(0x0C, 0x14) == 0x18;
    assert Xor(0x19, 0x28) == 0x31;
    assert Xor(0x32, 0x50) == 0x62;
    assert Xor(0x64, 0xA0) == 0xC4;
    assert Xor(0xC8, 0x0140) == 0x0188;
    assert Xor(0x0191, 0x0280) == 0x0311;
    assert Xor(0x0323, 0x0500) == 0x0623;
    assert Xor(0x0646, 0x0A00) == 0x0C46;
    assert Xor(0x0C8D, 0x1400) == 0x188D;
    assert Xor(0x191A, 0x2800) == 0x311A;
    assert Xor(0x3234, 0x5000) == 0x6234;
    assert Xor(0x6469, 0xA001) == 0xC468;
  }
  lemma Round188D()
    ensures ShiftRound(0x188D) == 0xAC47
  {
    assert Xor(0x00, 0x01) == 0x01;
    assert Xor(0x00, 0x02) == 0x02;
    assert Xor(0x00, 0x05) == 0x05;
    assert Xor(0x00, 0x0A) == 0x0A;
    assert Xor(0x01, 0x14) == 0x15;
    assert Xor(0x03, 0x28) == 0x2B;
    assert Xor(0x06, 0x50) == 0x56;
    assert Xor(0x0C, 0xA0) == 0xAC;
    assert Xor(0x18, 0x0140) == 0x0158;
    assert Xor(0x31, 0x0280) == 0x02B1;
    assert Xor(0x62, 0x0500) == 0x0562;
    assert Xor(0xC4, 0x0A00) == 0x0AC4;
    assert Xor(0x0188, 0x1400) == 0x1588;
    assert Xor(0x0311, 0x2800) == 0x2B11;
    assert Xor(0x0623, 0x5000) == 0x5623;
    assert Xor(0x0C46, 0xA001) == 0xAC47;
  }
  lemma RoundAC47()
    ensures ShiftRound(0xAC47) == 0xF622
  {
    assert Xor(0x00, 0x01) == 0x01;
    assert Xor(0x01, 0x02) == 0x03;
    assert Xor(0x02, 0x05) == 0x07;
    assert Xor(0x05, 0x0A) == 0x0F;
    assert Xor(0x0A, 0x14) == 0x1E;
    assert Xor(0x15, 0x28) == 0x3D;
    assert Xor(0x2B, 0x50) == 0x7B;
    assert Xor(0x56, 0xA0) == 0xF6;
    assert Xor(0xAC, 0x0140) == 0x01EC;
    assert Xor(0x0158, 0x0280) == 0x03D8;
    assert Xor(0x02B1, 0x0500) == 0x07B1;
    assert Xor(0x0562, 0x0A00) == 0x0F62;
    assert Xor(0x0AC4, 0x1400) == 0x1EC4;
    assert Xor(0x1588, 0x2800) == 0x3D88;
    assert Xor(0x2B11, 0x5000) == 0x7B11;
    assert Xor(0x5623, 0xA001) == 0xF622;
  }
  lemma Round7B11()
    ensures ShiftRound(0x7B11) == 0x9D89
  {
    assert Xor(0x00, 0x01) == 0x01;
    assert Xor(0x00, 0x02) == 0x02;
    assert Xor(0x01, 0x05) == 0x04;
    assert Xor(0x03, 0x0A) == 0x09;
    assert Xor(0x07, 0x14) == 0x13;
    assert Xor(0x0F, 0x28) == 0x27;
    assert Xor(0x1E, 0x50) == 0x4E;
    assert Xor(0x3D, 0xA0) == 0x9D;
    assert Xor(0x7B, 0x0140) == 0x013B;
    assert Xor(0xF6, 0x0280) == 0x0276;
    assert Xor(0x01EC, 0x0500) == 0x04EC;
    assert Xor(0x03D8, 0x0A00) == 0x09D8;
    assert Xor(0x07B1, 0x1400) == 0x13B1;
    assert Xor(0x0F62, 0x2800) == 0x2762;
    assert Xor(0x1EC4, 0x5000) == 0x4EC4;
    assert Xor(0x3D88, 0xA001) == 0x9D89;
  }
  lemma Mix9D890F()
    ensures Xor(0x9D89, 0x0F) == 0x9D86
  {
    assert Xor(0x01, 0x00) == 0x01;
    assert Xor(0x02, 0x00) == 0x02;
    assert Xor(0x04, 0x00) == 0x04;
    assert Xor(0x09, 0x00) == 0x09;
    assert Xor(0x13, 0x00) == 0x13;
    assert Xor(0x27, 0x00) == 0x27;
    assert Xor(0x4E, 0x00) == 0x4E;
    assert Xor(0x9D, 0x00) == 0x9D;
    assert Xor(0x013B, 0x00) == 0x013B;
    assert Xor(0x0276, 0x00) == 0x0276;
    assert Xor(0x04EC, 0x00) == 0x04EC;
    assert Xor(0x09D8, 0x00) == 0x09D8;
    assert Xor(0x13B1, 0x01) == 0x13B0;
    assert Xor(0x2762, 0x03) == 0x2761;
    assert Xor(0x4EC4, 0x07) == 0x4EC3;
    assert Xor(0x9D89, 0x0F) == 0x9D86;
  }
  lemma Round4EC3()
    ensures ShiftRound(0x4EC3) == 0x8760
  {
    assert Xor(0x00, 0x01) == 0x01;
    assert Xor(0x00, 0x02) == 0x02;
    assert Xor(0x01, 0x05) == 0x04;
    assert Xor(0x02, 0x0A) == 0x08;
    assert Xor(0x04, 0x14) == 0x10;
    assert Xor(0x09, 0x28) == 0x21;
    assert Xor(0x13, 0x50) == 0x43;
    assert Xor(0x27, 0xA0) == 0x87;
    assert Xor(0x4E, 0x0140) == 0x010E;
    assert Xor(0x9D, 0x0280) == 0x021D;
    assert Xor(0x013B, 0x0500) == 0x043B;
    assert Xor(0x0276, 0x0A00) == 0x0876;
    assert Xor(0x04EC, 0x1400) == 0x10EC;
    assert Xor(0x09D8, 0x2800) == 0x21D8;
    assert Xor(0x13B0, 0x5000) == 0x43B0;
    assert Xor(0x2761, 0xA001) == 0x8760;
  }
  lemma Round043B()
    ensures ShiftRound(0x043B) == 0xA21C
  {
    assert Xor(0x00, 0x01) == 0x01;
    assert Xor(0x00, 0x02) == 0x02;
    assert Xor(0x00, 0x05) == 0x05;
    assert Xor(0x00, 0x0A) == 0x0A;
    assert Xor(0x00, 0x14) == 0x14;
    assert Xor(0x00, 0x28) == 0x28;
    assert Xor(0x01, 0x50) == 0x51;
    assert Xor(0x02, 0xA0) == 0xA2;
    assert Xor(0x04, 0x0140) == 0x0144;
    assert Xor(0x08, 0x0280) == 0x0288;
    assert Xor(0x10, 0x0500) == 0x0510;
    assert Xor(0x21, 0x0A00) == 0x0A21;
    assert Xor(0x43, 0x1400) == 0x1443;
    assert Xor(0x87, 0x2800) == 0x2887;
    assert Xor(0x010E, 0x5000) == 0x510E;
    assert Xor(0x021D, 0xA001) == 0xA21C;
  }
  lemma MixA21C0E()
    ensures Xor(0xA21C, 0x0E) == 0xA212
  {
    assert Xor(0x01, 0x00) == 0x01;
    assert Xor(0x02, 0x00) == 0x02;
    assert Xor(0x05, 0x00) == 0x05;
    assert Xor(0x0A, 0x00) == 0x0A;
    assert Xor(0x14, 0x00) == 0x14;
    assert Xor(0x28, 0x00) == 0x28;
    assert Xor(0x51, 0x00) == 0x51;
    assert Xor(0xA2, 0x00) == 0xA2;
    assert Xor(0x0144, 0x00) == 0x0144;
    assert Xor(0x0288, 0x00) == 0x0288;
    assert Xor(0x0510, 0x00) == 0x0510;
    assert Xor(0x0A21, 0x00) == 0x0A21;
    assert Xor(0x1443, 0x01) == 0x1442;
    assert Xor(0x2887, 0x03) == 0x2884;
    assert Xor(0x510E, 0x07) == 0x5109;
    assert Xor(0xA21C, 0x0E) == 0xA212;
  }
  lemma Round5109()
    ensures ShiftRound(0x5109) == 0x8885
  {
    assert Xor(0x00, 0x01) == 0x01;
    assert Xor(0x00, 0x02) == 0x02;
    assert Xor(0x01, 0x05) == 0x04;
    assert Xor(0x02, 0x0A) == 0x08;
    assert Xor(0x05, 0x14) == 0x11;
    assert Xor(0x0A, 0x28) == 0x22;
    assert Xor(0x14, 0x50) == 0x44;
    assert Xor(0x28, 0xA0) == 0x88;
    assert Xor(0x51, 0x0140) == 0x0111;
    assert Xor(0xA2, 0x0280) == 0x0222;
    assert Xor(0x0144, 0x0500) == 0x0444;
    assert Xor(0x0288, 0x0A00) == 0x0888;
    assert Xor(0x0510, 0x1400) == 0x1110;
    assert Xor(0x0A21, 0x2800) == 0x2221;
    assert Xor(0x1442, 0x5000) == 0x4442;
    assert Xor(0x2884, 0xA001) == 0x8885;
  }
  lemma Round8885()
    ensures ShiftRound(0x8885) == 0xE443
  {
    assert Xor(0x00, 0x01) == 0x01;
    assert Xor(0x01, 0x02) == 0x03;
    assert Xor(0x02, 0x05) == 0x07;
    assert Xor(0x04, 0x0A) == 0x0E;
    assert Xor(0x08, 0x14) == 0x1C;
    assert Xor(0x11, 0x28) == 0x39;
    assert Xor(0x22, 0x50) == 0x72;
    assert Xor(0x44, 0xA0) == 0xE4;
    assert Xor(0x88, 0x0140) == 0x01C8;
    assert Xor(0x0111, 0x0280) == 0x0391;
    assert Xor(0x0222, 0x0500) == 0x0722;
    assert Xor(0x0444, 0x0A00) == 0x0E44;
    assert Xor(0x0888, 0x1400) == 0x1C88;
    assert Xor(0x1110, 0x2800) == 0x3910;
    assert Xor(0x2221, 0x5000) == 0x7221;
    assert Xor(0x4442, 0xA001) == 0xE443;
  }
  lemma RoundE443()
    ensures ShiftRound(0xE443) == 0xD220
  {
    assert Xor(0x00, 0x01) == 0x01;
    assert Xor(0x01, 0x02) == 0x03;
    assert Xor(0x03, 0x05) == 0x06;
    assert Xor(0x07, 0x0A) == 0x0D;
    assert Xor(0x0E, 0x14) == 0x1A;
    assert Xor(0x1C, 0x28) == 0x34;
    assert Xor(0x39, 0x50) == 0x69;
    assert Xor(0x72, 0xA0) == 0xD2;
    assert Xor(0xE4, 0x0140) == 0x01A4;
    assert Xor(0x01C8, 0x0280) == 0x0348;
    assert Xor(0x0391, 0x0500) == 0x0691;
    assert Xor(0x0722, 0x0A00) == 0x0D22;
    assert Xor(0x0E44, 0x1400) == 0x1A44;
    assert Xor(0x1C88, 0x2800) == 0x3488;
    assert Xor(0x3910, 0x5000) == 0x6910;
    assert Xor(0x7221, 0xA001) == 0xD220;
  }
}
