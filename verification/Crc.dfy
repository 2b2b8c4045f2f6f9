/** The CRC-32 of printer.cpp: a table-driven loop, proved against the bit-serial definition. */
module Crc {

  const CRC32_SEED: bv32 := 0xFFFF_FFFF

  // ---- The table, sixteen entries a row

  function Row0(low: bv32): bv32 {
    if low == 0 then 0x0000_0000 else if low == 1 then 0x7707_3096 else if low == 2 then 0xEE0E_612C
        else if low == 3 then 0x9909_51BA else
    if low == 4 then 0x076D_C419 else if low == 5 then 0x706A_F48F else if low == 6 then 0xE963_A535
        else if low == 7 then 0x9E64_95A3 else
    if low == 8 then 0x0EDB_8832 else if low == 9 then 0x79DC_B8A4 else if low == 10 then 0xE0D5_E91E
        else if low == 11 then 0x97D2_D988 else
    if low == 12 then 0x09B6_4C2B else if low == 13 then 0x7EB1_7CBD else if low == 14 then 0xE7B8_2D07 else 0x90BF_1D91
  }

  function Row1(low: bv32): bv32 {
    if low == 0 then 0x1DB7_1064 else if low == 1 then 0x6AB0_20F2 else if low == 2 then 0xF3B9_7148
        else if low == 3 then 0x84BE_41DE else
    if low == 4 then 0x1ADA_D47D else if low == 5 then 0x6DDD_E4EB else if low == 6 then 0xF4D4_B551
        else if low == 7 then 0x83D3_85C7 else
    if low == 8 then 0x136C_9856 else if low == 9 then 0x646B_A8C0 else if low == 10 then 0xFD62_F97A
        else if low == 11 then 0x8A65_C9EC else
    if low == 12 then 0x1401_5C4F else if low == 13 then 0x6306_6CD9 else if low == 14 then 0xFA0F_3D63 else 0x8D08_0DF5
  }

  function Row2(low: bv32): bv32 {
    if low == 0 then 0x3B6E_20C8 else if low == 1 then 0x4C69_105E else if low == 2 then 0xD560_41E4
        else if low == 3 then 0xA267_7172 else
    if low == 4 then 0x3C03_E4D1 else if low == 5 then 0x4B04_D447 else if low == 6 then 0xD20D_85FD
        else if low == 7 then 0xA50A_B56B else
    if low == 8 then 0x35B5_A8FA else if low == 9 then 0x42B2_986C else if low == 10 then 0xDBBB_C9D6
        else if low == 11 then 0xACBC_F940 else
    if low == 12 then 0x32D8_6CE3 else if low == 13 then 0x45DF_5C75 else if low == 14 then 0xDCD6_0DCF else 0xABD1_3D59
  }

  function Row3(low: bv32): bv32 {
    if low == 0 then 0x26D9_30AC else if low == 1 then 0x51DE_003A else if low == 2 then 0xC8D7_5180
        else if low == 3 then 0xBFD0_6116 else
    if low == 4 then 0x21B4_F4B5 else if low == 5 then 0x56B3_C423 else if low == 6 then 0xCFBA_9599
        else if low == 7 then 0xB8BD_A50F else
    if low == 8 then 0x2802_B89E else if low == 9 then 0x5F05_8808 else if low == 10 then 0xC60C_D9B2
        else if low == 11 then 0xB10B_E924 else
    if low == 12 then 0x2F6F_7C87 else if low == 13 then 0x5868_4C11 else if low == 14 then 0xC161_1DAB else 0xB666_2D3D
  }

  function Row4(low: bv32): bv32 {
    if low == 0 then 0x76DC_4190 else if low == 1 then 0x01DB_7106 else if low == 2 then 0x98D2_20BC
        else if low == 3 then 0xEFD5_102A else
    if low == 4 then 0x71B1_8589 else if low == 5 then 0x06B6_B51F else if low == 6 then 0x9FBF_E4A5
        else if low == 7 then 0xE8B8_D433 else
    if low == 8 then 0x7807_C9A2 else if low == 9 then 0x0F00_F934 else if low == 10 then 0x9609_A88E
        else if low == 11 then 0xE10E_9818 else
    if low == 12 then 0x7F6A_0DBB else if low == 13 then 0x086D_3D2D else if low == 14 then 0x9164_6C97 else 0xE663_5C01
  }

  function Row5(low: bv32): bv32 {
    if low == 0 then 0x6B6B_51F4 else if low == 1 then 0x1C6C_6162 else if low == 2 then 0x8565_30D8
        else if low == 3 then 0xF262_004E else
    if low == 4 then 0x6C06_95ED else if low == 5 then 0x1B01_A57B else if low == 6 then 0x8208_F4C1
        else if low == 7 then 0xF50F_C457 else
    if low == 8 then 0x65B0_D9C6 else if low == 9 then 0x12B7_E950 else if low == 10 then 0x8BBE_B8EA
        else if low == 11 then 0xFCB9_887C else
    if low == 12 then 0x62DD_1DDF else if low == 13 then 0x15DA_2D49 else if low == 14 then 0x8CD3_7CF3 else 0xFBD4_4C65
  }

  function Row6(low: bv32): bv32 {
    if low == 0 then 0x4DB2_6158 else if low == 1 then 0x3AB5_51CE else if low == 2 then 0xA3BC_0074
        else if low == 3 then 0xD4BB_30E2 else
    if low == 4 then 0x4ADF_A541 else if low == 5 then 0x3DD8_95D7 else if low == 6 then 0xA4D1_C46D
        else if low == 7 then 0xD3D6_F4FB else
    if low == 8 then 0x4369_E96A else if low == 9 then 0x346E_D9FC else if low == 10 then 0xAD67_8846
        else if low == 11 then 0xDA60_B8D0 else
    if low == 12 then 0x4404_2D73 else if low == 13 then 0x3303_1DE5 else if low == 14 then 0xAA0A_4C5F else 0xDD0D_7CC9
  }

  function Row7(low: bv32): bv32 {
    if low == 0 then 0x5005_713C else if low == 1 then 0x2702_41AA else if low == 2 then 0xBE0B_1010
        else if low == 3 then 0xC90C_2086 else
    if low == 4 then 0x5768_B525 else if low == 5 then 0x206F_85B3 else if low == 6 then 0xB966_D409
        else if low == 7 then 0xCE61_E49F else
    if low == 8 then 0x5EDE_F90E else if low == 9 then 0x29D9_C998 else if low == 10 then 0xB0D0_9822
        else if low == 11 then 0xC7D7_A8B4 else
    if low == 12 then 0x59B3_3D17 else if low == 13 then 0x2EB4_0D81 else if low == 14 then 0xB7BD_5C3B else 0xC0BA_6CAD
  }

  function Row8(low: bv32): bv32 {
    if low == 0 then 0xEDB8_8320 else if low == 1 then 0x9ABF_B3B6 else if low == 2 then 0x03B6_E20C
        else if low == 3 then 0x74B1_D29A else
    if low == 4 then 0xEAD5_4739 else if low == 5 then 0x9DD2_77AF else if low == 6 then 0x04DB_2615
        else if low == 7 then 0x73DC_1683 else
    if low == 8 then 0xE363_0B12 else if low == 9 then 0x9464_3B84 else if low == 10 then 0x0D6D_6A3E
        else if low == 11 then 0x7A6A_5AA8 else
    if low == 12 then 0xE40E_CF0B else if low == 13 then 0x9309_FF9D else if low == 14 then 0x0A00_AE27 else 0x7D07_9EB1
  }

  function Row9(low: bv32): bv32 {
    if low == 0 then 0xF00F_9344 else if low == 1 then 0x8708_A3D2 else if low == 2 then 0x1E01_F268
        else if low == 3 then 0x6906_C2FE else
    if low == 4 then 0xF762_575D else if low == 5 then 0x8065_67CB else if low == 6 then 0x196C_3671
        else if low == 7 then 0x6E6B_06E7 else
    if low == 8 then 0xFED4_1B76 else if low == 9 then 0x89D3_2BE0 else if low == 10 then 0x10DA_7A5A
        else if low == 11 then 0x67DD_4ACC else
    if low == 12 then 0xF9B9_DF6F else if low == 13 then 0x8EBE_EFF9 else if low == 14 then 0x17B7_BE43 else 0x60B0_8ED5
  }

  function RowA(low: bv32): bv32 {
    if low == 0 then 0xD6D6_A3E8 else if low == 1 then 0xA1D1_937E else if low == 2 then 0x38D8_C2C4
        else if low == 3 then 0x4FDF_F252 else
    if low == 4 then 0xD1BB_67F1 else if low == 5 then 0xA6BC_5767 else if low == 6 then 0x3FB5_06DD
        else if low == 7 then 0x48B2_364B else
    if low == 8 then 0xD80D_2BDA else if low == 9 then 0xAF0A_1B4C else if low == 10 then 0x3603_4AF6
        else if low == 11 then 0x4104_7A60 else
    if low == 12 then 0xDF60_EFC3 else if low == 13 then 0xA867_DF55 else if low == 14 then 0x316E_8EEF else 0x4669_BE79
  }

  function RowB(low: bv32): bv32 {
    if low == 0 then 0xCB61_B38C else if low == 1 then 0xBC66_831A else if low == 2 then 0x256F_D2A0
        else if low == 3 then 0x5268_E236 else
    if low == 4 then 0xCC0C_7795 else if low == 5 then 0xBB0B_4703 else if low == 6 then 0x2202_16B9
        else if low == 7 then 0x5505_262F else
    if low == 8 then 0xC5BA_3BBE else if low == 9 then 0xB2BD_0B28 else if low == 10 then 0x2BB4_5A92
        else if low == 11 then 0x5CB3_6A04 else
    if low == 12 then 0xC2D7_FFA7 else if low == 13 then 0xB5D0_CF31 else if low == 14 then 0x2CD9_9E8B else 0x5BDE_AE1D
  }

  function RowC(low: bv32): bv32 {
    if low == 0 then 0x9B64_C2B0 else if low == 1 then 0xEC63_F226 else if low == 2 then 0x756A_A39C
        else if low == 3 then 0x026D_930A else
    if low == 4 then 0x9C09_06A9 else if low == 5 then 0xEB0E_363F else if low == 6 then 0x7207_6785
        else if low == 7 then 0x0500_5713 else
    if low == 8 then 0x95BF_4A82 else if low == 9 then 0xE2B8_7A14 else if low == 10 then 0x7BB1_2BAE
        else if low == 11 then 0x0CB6_1B38 else
    if low == 12 then 0x92D2_8E9B else if low == 13 then 0xE5D5_BE0D else if low == 14 then 0x7CDC_EFB7 else 0x0BDB_DF21
  }

  function RowD(low: bv32): bv32 {
    if low == 0 then 0x86D3_D2D4 else if low == 1 then 0xF1D4_E242 else if low == 2 then 0x68DD_B3F8
        else if low == 3 then 0x1FDA_836E else
    if low == 4 then 0x81BE_16CD else if low == 5 then 0xF6B9_265B else if low == 6 then 0x6FB0_77E1
        else if low == 7 then 0x18B7_4777 else
    if low == 8 then 0x8808_5AE6 else if low == 9 then 0xFF0F_6A70 else if low == 10 then 0x6606_3BCA
        else if low == 11 then 0x1101_0B5C else
    if low == 12 then 0x8F65_9EFF else if low == 13 then 0xF862_AE69 else if low == 14 then 0x616B_FFD3 else 0x166C_CF45
  }

  function RowE(low: bv32): bv32 {
    if low == 0 then 0xA00A_E278 else if low == 1 then 0xD70D_D2EE else if low == 2 then 0x4E04_8354
        else if low == 3 then 0x3903_B3C2 else
    if low == 4 then 0xA767_2661 else if low == 5 then 0xD060_16F7 else if low == 6 then 0x4969_474D
        else if low == 7 then 0x3E6E_77DB else
    if low == 8 then 0xAED1_6A4A else if low == 9 then 0xD9D6_5ADC else if low == 10 then 0x40DF_0B66
        else if low == 11 then 0x37D8_3BF0 else
    if low == 12 then 0xA9BC_AE53 else if low == 13 then 0xDEBB_9EC5 else if low == 14 then 0x47B2_CF7F else 0x30B5_FFE9
  }

  function RowF(low: bv32): bv32 {
    if low == 0 then 0xBDBD_F21C else if low == 1 then 0xCABA_C28A else if low == 2 then 0x53B3_9330
        else if low == 3 then 0x24B4_A3A6 else
    if low == 4 then 0xBAD0_3605 else if low == 5 then 0xCDD7_0693 else if low == 6 then 0x54DE_5729
        else if low == 7 then 0x23D9_67BF else
    if low == 8 then 0xB366_7A2E else if low == 9 then 0xC461_4AB8 else if low == 10 then 0x5D68_1B02
        else if low == 11 then 0x2A6F_2B94 else
    if low == 12 then 0xB40B_BE37 else if low == 13 then 0xC30C_8EA1 else if low == 14 then 0x5A05_DF1B else 0x2D02_EF8D
  }

  /** `crc32Table`, indexed by a byte. */
  function Crc32Table(index: bv32): bv32 {
    var high, low := index >> 4, index & 0xF;
    if high == 0 then Row0(low) else if high == 1 then Row1(low) else if high == 2 then Row2(low)
        else if high == 3 then Row3(low) else
    if high == 4 then Row4(low) else if high == 5 then Row5(low) else if high == 6 then Row6(low)
        else if high == 7 then Row7(low) else
    if high == 8 then Row8(low) else if high == 9 then Row9(low) else if high == 10 then RowA(low)
        else if high == 11 then RowB(low) else
    if high == 12 then RowC(low) else if high == 13 then RowD(low) else if high == 14 then RowE(low) else RowF(low)
  }

  // ---- Bit by bit, as in section 8 of RFC 1952

  const POLYNOMIAL: bv32 := 0xEDB8_8320

  /**
   What a shift register needs: how two words combine, the lowest bit, the others moved down, and the feedback of a bit.
   */
  datatype Words<!T> = Words(xor: (T, T) -> T, low: T -> T, half: T -> T, feedback: T -> T)

  const WORDS: Words<bv32> := Words(
    (a: bv32, b: bv32) => a ^ b,
    (a: bv32) => a & 1,
    (a: bv32) => a >> 1,
    (bit: bv32) => if bit == 1 then POLYNOMIAL else 0)

  /** The register moves by one bit. */
  function Move<T>(o: Words<T>, crc: T): T {
    o.xor(o.half(crc), o.feedback(o.low(crc)))
  }

  /** The low `n` bits of `input` enter the register, the lowest first. */
  function Bits<T>(o: Words<T>, crc: T, input: T, n: nat): T
    decreases n
  {
    if n == 0 then crc else Bits(o, Move(o, o.xor(crc, o.low(input))), o.half(input), n - 1)
  }

  /** The bits of a byte enter the register, the lowest first. */
  function EnterByte(crc: bv32, byte: bv8): bv32 {
    Bits(WORDS, crc, Word(byte), 8)
  }

  /** The register after some bytes, from `c` on; `next` is how a byte enters it. */
  function Enter<T, B>(next: (T, B) -> T, c: T, data: seq<B>): T {
    if data == [] then c else next(Enter(next, c, data[..|data| - 1]), data[|data| - 1])
  }

  function BitSerialCrc(data: seq<bv8>): bv32 {
    Xor(Enter(EnterByte, CRC32_SEED, data), CRC32_SEED)
  }

  // ---- A register without input

  function Shift<T>(o: Words<T>, n: nat, crc: T): T
    decreases n
  {
    if n == 0 then crc else Shift(o, n - 1, Move(o, crc))
  }

  /** `w` moved down by `n` bits. */
  function Down<T>(o: Words<T>, w: T, n: nat): T
    decreases n
  {
    if n == 0 then w else Down(o, o.half(w), n - 1)
  }

  /** The lowest bit decides the feedback; the bits above it only move down. */
  ghost predicate Lawful<T(!new)>(o: Words<T>) {
    && (forall c, w :: o.low(o.xor(c, w)) == o.low(o.xor(c, o.low(w))))
    && (forall c, w, f :: o.xor(o.half(o.xor(c, w)), f) == o.xor(o.xor(o.half(o.xor(c, o.low(w))), f), o.half(w)))
  }

  /** A bit may enter together with the ones above it. */
  lemma EnterTogether<T(!new)>(o: Words<T>, c: T, w: T)
    requires Lawful(o)
    ensures Move(o, o.xor(c, w)) == o.xor(Move(o, o.xor(c, o.low(w))), o.half(w))
  {
  }

  lemma {:induction false} AllTogether<T(!new)>(o: Words<T>, crc: T, w: T, n: nat)
    requires Lawful(o)
    ensures Shift(o, n, o.xor(crc, w)) == o.xor(Bits(o, crc, w, n), Down(o, w, n))
    decreases n
  {
    if n > 0 {
      EnterTogether(o, crc, w);
      AllTogether(o, Move(o, o.xor(crc, o.low(w))), o.half(w), n - 1);
    }
  }

  // ---- The same on 32-bit words

  lemma SameLowBit(c: bv32, w: bv32)
    ensures (c ^ w) & 1 == (c ^ (w & 1)) & 1
  {
  }

  lemma SameRest(c: bv32, w: bv32, f: bv32)
    ensures ((c ^ w) >> 1) ^ f == (((c ^ (w & 1)) >> 1) ^ f) ^ (w >> 1)
  {
  }

  lemma LowLaw(c: bv32, w: bv32)
    ensures WORDS.low(WORDS.xor(c, w)) == WORDS.low(WORDS.xor(c, WORDS.low(w)))
  {
    SameLowBit(c, w);
  }

  lemma RestLaw(c: bv32, w: bv32, f: bv32)
    ensures WORDS.xor(WORDS.half(WORDS.xor(c, w)), f)
            == WORDS.xor(WORDS.xor(WORDS.half(WORDS.xor(c, WORDS.low(w))), f), WORDS.half(w))
  {
    SameRest(c, w, f);
  }

  lemma WordsLawful()
    ensures Lawful(WORDS)
  {
    var o := WORDS;
    forall c, w ensures o.low(o.xor(c, w)) == o.low(o.xor(c, o.low(w))) {
      LowLaw(c, w);
    }
    forall c, w, f ensures o.xor(o.half(o.xor(c, w)), f) == o.xor(o.xor(o.half(o.xor(c, o.low(w))), f), o.half(w)) {
      RestLaw(c, w, f);
    }
  }

  // ---- Only the low bits of the input matter

  /** The low `n` bits agree. */
  ghost predicate Agree<T>(o: Words<T>, v: T, w: T, n: nat)
    decreases n
  {
    n == 0 || (o.low(v) == o.low(w) && Agree(o, o.half(v), o.half(w), n - 1))
  }

  lemma {:induction false} SameBits<T>(o: Words<T>, c: T, v: T, w: T, n: nat)
    requires Agree(o, v, w, n)
    ensures Bits(o, c, v, n) == Bits(o, c, w, n)
    decreases n
  {
    if n > 0 {
      SameBits(o, Move(o, o.xor(c, o.low(v))), o.half(v), o.half(w), n - 1);
    }
  }

  lemma MaskLow(w: bv32, m: bv32)
    requires WORDS.low(m) == 1
    ensures WORDS.low(w & m) == WORDS.low(w)
  {
  }

  lemma MaskHalf(w: bv32, m: bv32)
    ensures WORDS.half(w & m) == WORDS.half(w) & WORDS.half(m)
  {
  }

  ghost predicate Ones(m: bv32, n: nat)
    decreases n
  {
    n == 0 || (WORDS.low(m) == 1 && Ones(WORDS.half(m), n - 1))
  }

  lemma {:induction false} AgreeUnderMask(w: bv32, m: bv32, n: nat)
    requires Ones(m, n)
    ensures Agree(WORDS, w & m, w, n)
    decreases n
  {
    if n > 0 {
      MaskLow(w, m);
      MaskHalf(w, m);
      AgreeUnderMask(WORDS.half(w), WORDS.half(m), n - 1);
    }
  }

  lemma ByteMask()
    ensures Ones(0xFF, 8)
  {
  }

  // ---- One byte

  lemma HalfIs(w: bv32)
    ensures WORDS.half(w) == w >> 1
  {
  }

  lemma DownNext(w: bv32, n: nat)
    ensures Down(WORDS, w, n + 1) == Down(WORDS, w >> 1, n)
  {
    HalfIs(w);
  }

  lemma Down2(w: bv32)
    ensures Down(WORDS, w, 2) == w >> 2
  {
    DownNext(w, 1);
    DownNext(w >> 1, 0);
  }

  lemma {:induction false} DownSplits<T>(o: Words<T>, w: T, m: nat, n: nat)
    ensures Down(o, w, m + n) == Down(o, Down(o, w, m), n)
    decreases m
  {
    if m > 0 {
      DownSplits(o, o.half(w), m - 1, n);
    }
  }

  lemma Down4(w: bv32)
    ensures Down(WORDS, w, 4) == w >> 4
  {
    DownSplits(WORDS, w, 2, 2);
    Down2(w);
    Down2(w >> 2);
  }

  lemma Down8(w: bv32)
    ensures Down(WORDS, w, 8) == w >> 8
  {
    DownSplits(WORDS, w, 4, 4);
    Down4(w);
    Down4(w >> 4);
  }

  /**
   Combining with a word that has only the low `n` bits is entering those bits; the rest of the register moves down.
   */
  lemma ByteOnWords<T(!new)>(o: Words<T>, zero: T, c: T, b: T, x: T, low: T, n: nat)
    requires Lawful(o) && (forall y :: o.xor(y, zero) == y) && (forall y :: o.xor(zero, y) == y)
    requires x == o.xor(c, b) && Agree(o, low, x, n) && Down(o, low, n) == zero == Down(o, b, n)
    ensures Bits(o, c, b, n) == o.xor(Shift(o, n, low), Down(o, x, n))
  {
    AllTogether(o, c, b, n);
    AllTogether(o, zero, x, n);
    AllTogether(o, zero, low, n);
    SameBits(o, zero, low, x, n);
  }

  lemma XorZero(y: bv32)
    ensures WORDS.xor(y, 0) == y
  {
  }

  lemma ZeroXor(y: bv32)
    ensures WORDS.xor(0, y) == y
  {
  }

  lemma Zero()
    ensures (forall y :: WORDS.xor(y, 0) == y) && (forall y :: WORDS.xor(0, y) == y)
  {
    forall y ensures WORDS.xor(y, 0) == y {
      XorZero(y);
    }
    forall y ensures WORDS.xor(0, y) == y {
      ZeroXor(y);
    }
  }

  // ---- The table

  function Step(c: bv32): bv32 {
    if c & 1 == 1 then (c >> 1) ^ POLYNOMIAL else c >> 1
  }

  function Step4(c: bv32): bv32 {
    Step(Step(Step(Step(c))))
  }

  lemma MoveOdd(c: bv32)
    requires c & 1 == 1
    ensures Move(WORDS, c) == (c >> 1) ^ POLYNOMIAL
  {
  }

  lemma MoveEven(c: bv32)
    requires c & 1 != 1
    ensures Move(WORDS, c) == c >> 1
  {
  }

  lemma MoveIs(c: bv32)
    ensures Move(WORDS, c) == Step(c)
  {
    if c & 1 == 1 {
      MoveOdd(c);
    } else {
      MoveEven(c);
    }
  }

  lemma ShiftNext(c: bv32, d: bv32, n: nat)
    requires d == Step(c)
    ensures Shift(WORDS, n + 1, c) == Shift(WORDS, n, d)
  {
    MoveIs(c);
  }

  lemma Shift4(c0: bv32, c1: bv32, c2: bv32, c3: bv32, c4: bv32, n: nat)
    requires c1 == Step(c0) && c2 == Step(c1) && c3 == Step(c2) && c4 == Step(c3)
    ensures Shift(WORDS, n + 4, c0) == Shift(WORDS, n, c4)
  {
    ShiftNext(c0, c1, n + 3);
    ShiftNext(c1, c2, n + 2);
    ShiftNext(c2, c3, n + 1);
    ShiftNext(c3, c4, n);
  }

  lemma ShiftFour(c: bv32, d: bv32, n: nat)
    requires d == Step4(c)
    ensures Shift(WORDS, n + 4, c) == Shift(WORDS, n, d)
  {
    Shift4(c, Step(c), Step(Step(c)), Step(Step(Step(c))), d, n);
  }

  lemma Row0Is(low: bv32)
    requires low < 16
    ensures Row0(low) == Step4(Step4(low ^ 0x00))
  {
    if low < 4 {
    } else if low < 8 {
    } else if low < 12 {
    }
  }

  lemma Row1Is(low: bv32)
    requires low < 16
    ensures Row1(low) == Step4(Step4(low ^ 0x10))
  {
    if low < 4 {
    } else if low < 8 {
    } else if low < 12 {
    }
  }

  lemma Row2Is(low: bv32)
    requires low < 16
    ensures Row2(low) == Step4(Step4(low ^ 0x20))
  {
    if low < 4 {
    } else if low < 8 {
    } else if low < 12 {
    }
  }

  lemma Row3Is(low: bv32)
    requires low < 16
    ensures Row3(low) == Step4(Step4(low ^ 0x30))
  {
    if low < 4 {
    } else if low < 8 {
    } else if low < 12 {
    }
  }

  lemma Row4Is(low: bv32)
    requires low < 16
    ensures Row4(low) == Step4(Step4(low ^ 0x40))
  {
    if low < 4 {
    } else if low < 8 {
    } else if low < 12 {
    }
  }

  lemma Row5Is(low: bv32)
    requires low < 16
    ensures Row5(low) == Step4(Step4(low ^ 0x50))
  {
    if low < 4 {
    } else if low < 8 {
    } else if low < 12 {
    }
  }

  lemma Row6Is(low: bv32)
    requires low < 16
    ensures Row6(low) == Step4(Step4(low ^ 0x60))
  {
    if low < 4 {
    } else if low < 8 {
    } else if low < 12 {
    }
  }

  lemma Row7Is(low: bv32)
    requires low < 16
    ensures Row7(low) == Step4(Step4(low ^ 0x70))
  {
    if low < 4 {
    } else if low < 8 {
    } else if low < 12 {
    }
  }

  lemma Row8Is(low: bv32)
    requires low < 16
    ensures Row8(low) == Step4(Step4(low ^ 0x80))
  {
    if low < 4 {
    } else if low < 8 {
    } else if low < 12 {
    }
  }

  lemma Row9Is(low: bv32)
    requires low < 16
    ensures Row9(low) == Step4(Step4(low ^ 0x90))
  {
    if low < 4 {
    } else if low < 8 {
    } else if low < 12 {
    }
  }

  lemma RowAIs(low: bv32)
    requires low < 16
    ensures RowA(low) == Step4(Step4(low ^ 0xA0))
  {
    if low < 4 {
    } else if low < 8 {
    } else if low < 12 {
    }
  }

  lemma RowBIs(low: bv32)
    requires low < 16
    ensures RowB(low) == Step4(Step4(low ^ 0xB0))
  {
    if low < 4 {
    } else if low < 8 {
    } else if low < 12 {
    }
  }

  lemma RowCIs(low: bv32)
    requires low < 16
    ensures RowC(low) == Step4(Step4(low ^ 0xC0))
  {
    if low < 4 {
    } else if low < 8 {
    } else if low < 12 {
    }
  }

  lemma RowDIs(low: bv32)
    requires low < 16
    ensures RowD(low) == Step4(Step4(low ^ 0xD0))
  {
    if low < 4 {
    } else if low < 8 {
    } else if low < 12 {
    }
  }

  lemma RowEIs(low: bv32)
    requires low < 16
    ensures RowE(low) == Step4(Step4(low ^ 0xE0))
  {
    if low < 4 {
    } else if low < 8 {
    } else if low < 12 {
    }
  }

  lemma RowFIs(low: bv32)
    requires low < 16
    ensures RowF(low) == Step4(Step4(low ^ 0xF0))
  {
    if low < 4 {
    } else if low < 8 {
    } else if low < 12 {
    }
  }

  lemma Nibbles(i: bv32, high: bv32)
    requires i >> 4 == high
    ensures i == (i & 0xF) ^ (high << 4)
  {
  }

  lemma NibbleLess(i: bv32)
    ensures i & 0xF < 16
  {
  }

  lemma TableIs(i: bv32)
    requires i < 0x100
    ensures Crc32Table(i) == Step4(Step4(i))
  {
    var low := i & 0xF;
    NibbleLess(i);
    Nibbles(i, i >> 4);
    if i >> 4 == 0 {
      Row0Is(low);
    } else if i >> 4 == 1 {
      Row1Is(low);
    } else if i >> 4 == 2 {
      Row2Is(low);
    } else if i >> 4 == 3 {
      Row3Is(low);
    } else if i >> 4 == 4 {
      Row4Is(low);
    } else if i >> 4 == 5 {
      Row5Is(low);
    } else if i >> 4 == 6 {
      Row6Is(low);
    } else if i >> 4 == 7 {
      Row7Is(low);
    } else if i >> 4 == 8 {
      Row8Is(low);
    } else if i >> 4 == 9 {
      Row9Is(low);
    } else if i >> 4 == 10 {
      RowAIs(low);
    } else if i >> 4 == 11 {
      RowBIs(low);
    } else if i >> 4 == 12 {
      RowCIs(low);
    } else if i >> 4 == 13 {
      RowDIs(low);
    } else if i >> 4 == 14 {
      RowEIs(low);
    } else if i >> 4 == 15 {
      RowFIs(low);
    }
  }

  lemma ShiftsFour(c: bv32, n: nat)
    ensures Shift(WORDS, n + 4, c) == Shift(WORDS, n, Step4(c))
  {
    ShiftFour(c, Step4(c), n);
  }

  lemma ShiftsEight(c: bv32, n: nat)
    ensures Shift(WORDS, n + 8, c) == Shift(WORDS, n, Step4(Step4(c)))
  {
    ShiftsFour(c, n + 4);
    ShiftsFour(Step4(c), n);
  }

  /** Every entry is what eight moves make of its index. */
  lemma TableIsEightMoves(i: bv32)
    requires i < 0x100
    ensures Shift(WORDS, 8, i) == Crc32Table(i)
  {
    TableIs(i);
    ShiftsEight(i, 0);
  }

  // ---- The loop of crc32

  /** The operations of the table step: the low byte, and the bits above it moved down. */
  function LowByte(x: bv32): bv32 {
    x & 0xFF
  }

  function High(x: bv32): bv32 {
    x >> 8
  }

  function Xor(a: bv32, b: bv32): bv32 {
    a ^ b
  }

  function Word(b: bv8): bv32 {
    b as bv32
  }

  lemma LowByteLess(x: bv32)
    ensures LowByte(x) < 0x100
  {
  }

  lemma LowByteAgrees(x: bv32)
    ensures Agree(WORDS, LowByte(x), x, 8)
  {
    ByteMask();
    AgreeUnderMask(x, 0xFF, 8);
  }

  lemma LowByteHigh(x: bv32)
    ensures High(LowByte(x)) == 0
  {
  }

  lemma LowByteDown(x: bv32)
    ensures Down(WORDS, LowByte(x), 8) == 0
  {
    LowByteHigh(x);
    Down8(LowByte(x));
  }

  lemma WordHigh(b: bv8)
    ensures High(Word(b)) == 0
  {
  }

  lemma WordDown(b: bv8)
    ensures Down(WORDS, Word(b), 8) == 0
  {
    WordHigh(b);
    Down8(Word(b));
  }

  lemma SameHigh(c: bv32, b: bv32)
    requires High(b) == 0
    ensures High(Xor(c, b)) == High(c)
  {
  }

  lemma RestIs(c: bv32, b: bv8)
    ensures Down(WORDS, Xor(c, Word(b)), 8) == High(c)
  {
    Down8(Xor(c, Word(b)));
    WordHigh(b);
    SameHigh(c, Word(b));
  }

  lemma XorIs(a: bv32, b: bv32)
    ensures WORDS.xor(a, b) == Xor(a, b)
  {
  }

  /** Everything `ByteOnWords` asks of 32-bit words. */
  lemma WordsComplete(o: Words<bv32>)
    requires o == WORDS
    ensures Lawful(o) && (forall y :: o.xor(y, 0) == y) && (forall y :: o.xor(0, y) == y)
  {
    WordsLawful();
    Zero();
  }

  lemma ByteBits(o: Words<bv32>, c: bv32, b: bv32, x: bv32, low: bv32, n: nat)
    requires o == WORDS && Down(o, b, n) == 0 && Down(o, low, n) == 0 && x == o.xor(c, b) && Agree(o, low, x, n)
    ensures Bits(o, c, b, n) == o.xor(Shift(o, n, low), Down(o, x, n))
  {
    WordsComplete(o);
    ByteOnWords(o, 0, c, b, x, low, n);
  }

  /** A table of what eight moves make of each byte. */
  ghost predicate IsTable(table: bv32 -> bv32) {
    forall i :: i < 0x100 ==> table(i) == Shift(WORDS, 8, i)
  }

  lemma Crc32TableIsTable()
    ensures IsTable(Crc32Table)
  {
    forall i | i < 0x100 ensures Crc32Table(i) == Shift(WORDS, 8, i) {
      TableIsEightMoves(i);
    }
  }

  lemma TableStepOnWords(table: bv32 -> bv32, c: bv32, byte: bv8, b: bv32, x: bv32, low: bv32)
    requires IsTable(table) && b == Word(byte) && x == Xor(c, b) && low == LowByte(x)
    ensures Bits(WORDS, c, b, 8) == WORDS.xor(table(low), Down(WORDS, x, 8))
  {
    WordDown(byte);
    LowByteDown(x);
    LowByteAgrees(x);
    LowByteLess(x);
    XorIs(c, b);
    ByteBits(WORDS, c, b, x, low, 8);
  }

  /** The eight bits of a byte enter the register in one table step. */
  lemma TableStep(table: bv32 -> bv32, c: bv32, byte: bv8)
    requires IsTable(table)
    ensures Bits(WORDS, c, Word(byte), 8) == Xor(table(LowByte(Xor(c, Word(byte)))), High(c))
  {
    var x := Xor(c, Word(byte));
    TableStepOnWords(table, c, byte, Word(byte), x, LowByte(x));
    RestIs(c, byte);
    XorIs(table(LowByte(x)), High(c));
  }

  /** One pass of the loop of `crc32`. */
  function TableUpdate(table: bv32 -> bv32, crc: bv32, byte: bv8): bv32 {
    Xor(table(LowByte(Xor(crc, Word(byte)))), High(crc))
  }

  ghost predicate Computes(table: bv32 -> bv32, next: (bv32, bv8) -> bv32) {
    forall c, b :: TableUpdate(table, c, b) == next(c, b)
  }

  lemma TableComputes(table: bv32 -> bv32)
    requires IsTable(table)
    ensures Computes(table, EnterByte)
  {
    forall c, b ensures TableUpdate(table, c, b) == EnterByte(c, b) {
      TableStep(table, c, b);
    }
  }

  lemma EnterNext<T, B>(next: (T, B) -> T, c: T, data: seq<B>, from: nat, to: nat)
    requires from <= to < |data|
    ensures Enter(next, c, data[from..to + 1]) == next(Enter(next, c, data[from..to]), data[to])
  {
    assert data[from..to + 1][..to - from] == data[from..to];
  }

  lemma SeedXor()
    ensures Xor(0, CRC32_SEED) == CRC32_SEED
  {
  }

  /** The loop of `crc32`. */
  method UpdateRegister(table: bv32 -> bv32, ghost next: (bv32, bv8) -> bv32, offset: nat, data: array<bv8>, count: int)
      returns (crc: bv32)
    requires Computes(table, next) && offset <= data.Length && offset + count <= data.Length
    ensures crc == Enter(next, CRC32_SEED, data[offset..if count < 0 then offset else offset + count])
  {
    crc := Xor(0, CRC32_SEED);
    SeedXor();
    var position, left := offset, count - 1;
    while left >= 0
      invariant offset <= position <= data.Length
      invariant if count < 0 then position == offset && left < 0
                else position + left + 1 == offset + count && left >= -1
      invariant crc == Enter(next, CRC32_SEED, data[offset..position])
      decreases left
    {
      EnterNext(next, CRC32_SEED, data[..], offset, position);
      assert data[..][offset..position] == data[offset..position]
             && data[..][offset..position + 1] == data[offset..position + 1];
      crc := TableUpdate(table, crc, data[position]);
      position := position + 1;
      left := left - 1;
    }
  }

  /** The table-driven loop computes the bit-serial CRC-32. */
  method Crc32(offset: nat, data: array<bv8>, count: int) returns (crc: bv32)
    requires offset <= data.Length && offset + count <= data.Length
    ensures crc == BitSerialCrc(data[offset..if count < 0 then offset else offset + count])
  {
    Crc32TableIsTable();
    TableComputes(Crc32Table);
    crc := UpdateRegister(Crc32Table, EnterByte, offset, data, count);
    crc := Xor(crc, CRC32_SEED);
  }

  // ---- What the CRC tells apart

  /** Neither moving nor combining loses anything. */
  ghost predicate Reversible<T(!new)>(o: Words<T>) {
    && (forall a, b :: Move(o, a) == Move(o, b) ==> a == b)
    && (forall a, b, z :: o.xor(a, z) == o.xor(b, z) ==> a == b)
    && (forall a, b, z :: o.xor(z, a) == o.xor(z, b) ==> a == b)
  }

  lemma {:induction false} ShiftReversible<T(!new)>(o: Words<T>, n: nat, a: T, b: T)
    requires Reversible(o) && Shift(o, n, a) == Shift(o, n, b)
    ensures a == b
  {
    if n > 0 {
      ShiftReversible(o, n - 1, Move(o, a), Move(o, b));
    }
  }

  lemma {:induction false} BitsReversible<T(!new)>(o: Words<T>, a: T, b: T, w: T, n: nat)
    requires Reversible(o) && Bits(o, a, w, n) == Bits(o, b, w, n)
    ensures a == b
    decreases n
  {
    if n > 0 {
      BitsReversible(o, Move(o, o.xor(a, o.low(w))), Move(o, o.xor(b, o.low(w))), o.half(w), n - 1);
      assert Move(o, o.xor(a, o.low(w))) == Move(o, o.xor(b, o.low(w)));
    }
  }

  /** Different inputs of as many bits as they have leave the register different. */
  lemma InputsTellApart<T(!new)>(o: Words<T>, zero: T, c: T, v: T, w: T, n: nat)
    requires Lawful(o) && Reversible(o) && (forall y :: o.xor(y, zero) == y)
    requires Down(o, v, n) == zero == Down(o, w, n) && Bits(o, c, v, n) == Bits(o, c, w, n)
    ensures v == w
  {
    AllTogether(o, c, v, n);
    AllTogether(o, c, w, n);
    ShiftReversible(o, n, o.xor(c, v), o.xor(c, w));
  }

  lemma {:induction false} BitsSplit<T>(o: Words<T>, c: T, w: T, m: nat, n: nat)
    ensures Bits(o, c, w, m + n) == Bits(o, Bits(o, c, w, m), Down(o, w, m), n)
    decreases m
  {
    if m > 0 {
      BitsSplit(o, Move(o, o.xor(c, o.low(w))), o.half(w), m - 1, n);
    }
  }

  lemma StepReversible(a: bv32, b: bv32)
    requires Step(a) == Step(b)
    ensures a == b
  {
  }

  lemma MoveReversible(a: bv32, b: bv32)
    requires Move(WORDS, a) == Move(WORDS, b)
    ensures a == b
  {
    MoveIs(a);
    MoveIs(b);
    StepReversible(a, b);
  }

  lemma XorReversible(a: bv32, b: bv32, z: bv32)
    requires WORDS.xor(a, z) == WORDS.xor(b, z)
    ensures a == b
  {
  }

  lemma XorReversibleLeft(a: bv32, b: bv32, z: bv32)
    requires WORDS.xor(z, a) == WORDS.xor(z, b)
    ensures a == b
  {
  }

  lemma WordsReversible()
    ensures Reversible(WORDS)
  {
    forall a, b | Move(WORDS, a) == Move(WORDS, b) ensures a == b {
      MoveReversible(a, b);
    }
    forall a, b, z | WORDS.xor(a, z) == WORDS.xor(b, z) ensures a == b {
      XorReversible(a, b, z);
    }
    forall a, b, z | WORDS.xor(z, a) == WORDS.xor(z, b) ensures a == b {
      XorReversibleLeft(a, b, z);
    }
  }

  /** Four bytes as one word, the first one lowest. */
  function Joined(b0: bv8, b1: bv8, b2: bv8, b3: bv8): bv32 {
    Word(b0) ^ (Word(b1) << 8) ^ (Word(b2) << 16) ^ (Word(b3) << 24)
  }

  lemma JoinedLow(b0: bv8, b1: bv8, b2: bv8, b3: bv8)
    ensures LowByte(Joined(b0, b1, b2, b3)) == Word(b0)
  {
  }

  lemma JoinedHigh(b0: bv8, b1: bv8, b2: bv8, b3: bv8)
    ensures High(Joined(b0, b1, b2, b3)) == Joined(b1, b2, b3, 0)
  {
  }

  lemma WordReversible(a: bv8, b: bv8)
    requires Word(a) == Word(b)
    ensures a == b
  {
  }

  /** The lowest byte of a word enters first. */
  lemma LowestFirst(c: bv32, w: bv32, b: bv8, n: nat)
    requires LowByte(w) == Word(b)
    ensures Bits(WORDS, c, w, 8 + n) == Bits(WORDS, EnterByte(c, b), High(w), n)
  {
    BitsSplit(WORDS, c, w, 8, n);
    LowByteAgrees(w);
    SameBits(WORDS, c, Word(b), w, 8);
    Down8(w);
  }

  lemma JoinedFirst(c: bv32, b0: bv8, b1: bv8, b2: bv8, b3: bv8, n: nat)
    ensures Bits(WORDS, c, Joined(b0, b1, b2, b3), 8 + n) == Bits(WORDS, EnterByte(c, b0), Joined(b1, b2, b3, 0), n)
  {
    JoinedLow(b0, b1, b2, b3);
    JoinedHigh(b0, b1, b2, b3);
    LowestFirst(c, Joined(b0, b1, b2, b3), b0, n);
  }

  datatype Four<B> = Four(b0: B, b1: B, b2: B, b3: B)

  function Join(f: Four<bv8>): bv32 {
    Joined(f.b0, f.b1, f.b2, f.b3)
  }

  lemma FourEnter(c: bv32, c1: bv32, c2: bv32, c3: bv32, c4: bv32, f: Four<bv8>, n: nat)
    requires n == 32
    requires c1 == EnterByte(c, f.b0) && c2 == EnterByte(c1, f.b1) && c3 == EnterByte(c2, f.b2)
             && c4 == EnterByte(c3, f.b3)
    ensures Bits(WORDS, c, Join(f), n) == c4
  {
    JoinedFirst(c, f.b0, f.b1, f.b2, f.b3, n - 8);
    JoinedFirst(c1, f.b1, f.b2, f.b3, 0, n - 16);
    JoinedFirst(c2, f.b2, f.b3, 0, 0, n - 24);
    JoinedFirst(c3, f.b3, 0, 0, 0, n - 32);
  }

  lemma DownByByte(w: bv32, m: nat, n: nat)
    requires m == 8
    ensures Down(WORDS, w, m + n) == Down(WORDS, High(w), n)
  {
    DownSplits(WORDS, w, m, n);
    Down8(w);
  }

  lemma JoinedDown(b0: bv8, b1: bv8, b2: bv8, b3: bv8, n: nat)
    ensures Down(WORDS, Joined(b0, b1, b2, b3), 8 + n) == Down(WORDS, Joined(b1, b2, b3, 0), n)
  {
    DownByByte(Joined(b0, b1, b2, b3), 8, n);
    JoinedHigh(b0, b1, b2, b3);
  }

  lemma NothingJoined()
    ensures Joined(0, 0, 0, 0) == 0
  {
  }

  lemma FourDown(f: Four<bv8>, n: nat)
    requires n == 32
    ensures Down(WORDS, Join(f), n) == 0
  {
    JoinedDown(f.b0, f.b1, f.b2, f.b3, n - 8);
    JoinedDown(f.b1, f.b2, f.b3, 0, n - 16);
    JoinedDown(f.b2, f.b3, 0, 0, n - 24);
    JoinedDown(f.b3, 0, 0, 0, n - 32);
    NothingJoined();
  }

  lemma JoinReversible(a0: bv8, a1: bv8, a2: bv8, a3: bv8, b0: bv8, b1: bv8, b2: bv8, b3: bv8)
    requires Joined(a0, a1, a2, a3) == Joined(b0, b1, b2, b3)
    ensures a0 == b0
    ensures Joined(a1, a2, a3, 0) == Joined(b1, b2, b3, 0)
  {
    JoinedLow(a0, a1, a2, a3);
    JoinedLow(b0, b1, b2, b3);
    WordReversible(a0, b0);
    JoinedHigh(a0, a1, a2, a3);
    JoinedHigh(b0, b1, b2, b3);
  }

  lemma FourReversible(f: Four<bv8>, g: Four<bv8>)
    requires Join(f) == Join(g)
    ensures f == g
  {
    JoinReversible(f.b0, f.b1, f.b2, f.b3, g.b0, g.b1, g.b2, g.b3);
    JoinReversible(f.b1, f.b2, f.b3, 0, g.b1, g.b2, g.b3, 0);
    JoinReversible(f.b2, f.b3, 0, 0, g.b2, g.b3, 0, 0);
    JoinReversible(f.b3, 0, 0, 0, g.b3, 0, 0, 0);
  }

  lemma WordsTellApart(c: bv32, v: bv32, w: bv32, n: nat)
    requires Down(WORDS, v, n) == 0 && Down(WORDS, w, n) == 0 && Bits(WORDS, c, v, n) == Bits(WORDS, c, w, n)
    ensures v == w
  {
    WordsLawful();
    WordsReversible();
    Zero();
    InputsTellApart(WORDS, 0, c, v, w, n);
  }

  lemma FourTellApart(c: bv32, f: Four<bv8>, g: Four<bv8>, n: nat)
    requires n == 32 && Bits(WORDS, c, Join(f), n) == Bits(WORDS, c, Join(g), n)
    ensures f == g
  {
    FourDown(f, n);
    FourDown(g, n);
    WordsTellApart(c, Join(f), Join(g), n);
    FourReversible(f, g);
  }

  // ---- Whole images

  lemma {:induction false} EnterSplits<T, B>(next: (T, B) -> T, c: T, a: seq<B>, b: seq<B>)
    ensures Enter(next, c, a + b) == Enter(next, Enter(next, c, a), b)
    decreases |b|
  {
    if b == [] {
      assert a + b == a;
    } else {
      EnterSplits(next, c, a, b[..|b| - 1]);
      assert (a + b)[..|a + b| - 1] == a + b[..|b| - 1];
    }
  }

  ghost predicate KeepsApart<T(!new), B(!new)>(next: (T, B) -> T) {
    forall a, b, x :: next(a, x) == next(b, x) ==> a == b
  }

  function EnterFour<T, B>(next: (T, B) -> T, c: T, f: Four<B>): T {
    next(next(next(next(c, f.b0), f.b1), f.b2), f.b3)
  }

  ghost predicate TellsFourApart<T(!new), B(!new)>(next: (T, B) -> T) {
    forall c, f, g :: EnterFour(next, c, f) == EnterFour(next, c, g) ==> f == g
  }

  lemma {:induction false} EnterReversible<T(!new), B(!new)>(next: (T, B) -> T, a: T, b: T, data: seq<B>)
    requires KeepsApart(next) && Enter(next, a, data) == Enter(next, b, data)
    ensures a == b
  {
    if data != [] {
      var front, x := data[..|data| - 1], data[|data| - 1];
      assert next(Enter(next, a, front), x) == next(Enter(next, b, front), x);
      EnterReversible(next, a, b, front);
    }
  }

  function AsFour<B>(m: seq<B>): Four<B>
    requires |m| == 4
  {
    Four(m[0], m[1], m[2], m[3])
  }

  lemma EnterIsFour<T, B>(next: (T, B) -> T, c: T, m: seq<B>)
    requires |m| == 4
    ensures Enter(next, c, m) == EnterFour(next, c, AsFour(m))
  {
    assert m[..3][..2] == m[..2] && m[..2][..1] == m[..1] && m[..1][..0] == [];
    assert Enter(next, c, m[..1]) == next(c, m[0]);
    assert Enter(next, c, m[..2]) == next(next(c, m[0]), m[1]);
    assert Enter(next, c, m[..3]) == next(next(next(c, m[0]), m[1]), m[2]);
  }

  lemma SameFour<T(!new), B(!new)>(next: (T, B) -> T, c: T, m: seq<B>, m': seq<B>)
    requires TellsFourApart(next) && |m| == |m'| == 4 && Enter(next, c, m) == Enter(next, c, m')
    ensures m == m'
  {
    EnterIsFour(next, c, m);
    EnterIsFour(next, c, m');
    assert AsFour(m) == AsFour(m');
    assert m == [AsFour(m).b0, AsFour(m).b1, AsFour(m).b2, AsFour(m).b3];
    assert m' == [AsFour(m').b0, AsFour(m').b1, AsFour(m').b2, AsFour(m').b3];
  }

  lemma SameBurst<T(!new), B(!new)>(next: (T, B) -> T, c: T, before: seq<B>, m: seq<B>, m': seq<B>, after: seq<B>)
    requires KeepsApart(next) && TellsFourApart(next) && |m| == |m'| == 4
    requires Enter(next, c, before + m + after) == Enter(next, c, before + m' + after)
    ensures m == m'
  {
    var d := Enter(next, c, before);
    EnterSplits(next, c, before + m, after);
    EnterSplits(next, c, before + m', after);
    EnterSplits(next, c, before, m);
    EnterSplits(next, c, before, m');
    EnterReversible(next, Enter(next, d, m), Enter(next, d, m'), after);
    SameFour(next, d, m, m');
  }

  lemma EnterByteKeepsApart()
    ensures KeepsApart(EnterByte)
  {
    forall a, b, x | EnterByte(a, x) == EnterByte(b, x) ensures a == b {
      WordsReversible();
      BitsReversible(WORDS, a, b, Word(x), 8);
    }
  }

  lemma FourIs(c: bv32, f: Four<bv8>, n: nat)
    requires n == 32
    ensures Bits(WORDS, c, Join(f), n) == EnterFour(EnterByte, c, f)
  {
    var c1 := EnterByte(c, f.b0);
    var c2 := EnterByte(c1, f.b1);
    var c3 := EnterByte(c2, f.b2);
    FourEnter(c, c1, c2, c3, EnterByte(c3, f.b3), f, n);
  }

  lemma SameFourBytes(c: bv32, f: Four<bv8>, g: Four<bv8>)
    requires EnterFour(EnterByte, c, f) == EnterFour(EnterByte, c, g)
    ensures f == g
  {
    FourIs(c, f, 32);
    FourIs(c, g, 32);
    FourTellApart(c, f, g, 32);
  }

  lemma EnterByteTellsFourApart()
    ensures TellsFourApart(EnterByte)
  {
    forall c, f, g | EnterFour(EnterByte, c, f) == EnterFour(EnterByte, c, g) ensures f == g {
      SameFourBytes(c, f, g);
    }
  }

  lemma SameUnderSeed(a: bv32, b: bv32)
    requires Xor(a, CRC32_SEED) == Xor(b, CRC32_SEED)
    ensures a == b
  {
  }

  /** Two images that differ only within four bytes in a row have different CRCs. */
  lemma BurstIsDetected(before: seq<bv8>, m: seq<bv8>, m': seq<bv8>, after: seq<bv8>)
    requires |m| == |m'| == 4 && m != m'
    ensures BitSerialCrc(before + m + after) != BitSerialCrc(before + m' + after)
  {
    EnterByteKeepsApart();
    EnterByteTellsFourApart();
    if BitSerialCrc(before + m + after) == BitSerialCrc(before + m' + after) {
      SameUnderSeed(Enter(EnterByte, CRC32_SEED, before + m + after),
                    Enter(EnterByte, CRC32_SEED, before + m' + after));
      SameBurst(EnterByte, CRC32_SEED, before, m, m', after);
    }
  }
}
