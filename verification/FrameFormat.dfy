/** The exact bytes of an acknowledgement frame, and what its checksum is good for. */
module FrameFormat {
  import opened TelemetryCodec

  // ---------- Numbers, most significant byte first ----------

  /** Byte i of k counts in powers of 256 from the end. */
  lemma {:induction false} BigEndianAt(n: nat, k: nat, i: nat)
    requires i < k
    ensures BigEndian(n, k)[i] == n / Pow256(k - 1 - i) % 256
    decreases k
  {
    if i < k - 1 {
      BigEndianAt(n / 256, k - 1, i);
      DivideTwice(n, Pow256(k - 2 - i));
    }
  }

  lemma {:induction false} DivideTwice(n: nat, p: nat)
    requires p > 0
    ensures n / 256 / p == n / (256 * p)
  {
    var q := n / 256 / p;
    assert n == 256 * (n / 256) + n % 256 && n / 256 == p * q + n / 256 % p;
    Quotient(n, 256 * p, q, 256 * (n / 256 % p) + n % 256);
  }

  lemma {:induction false} Quotient(n: nat, d: nat, q: nat, r: nat)
    requires d > 0 && n == d * q + r && r < d
    ensures n / d == q
  {
    var e := n / d - q;
    assert n == d * (n / d) + n % d;
    assert d * e == r - n % d;
    Between(d, e);
  }

  lemma {:induction false} Between(d: nat, e: int)
    requires d > 0 && -1 * d < d * e < d
    ensures e == 0
  {
    if e >= 1 {
      Multiples(d, e - 1);
    } else if e <= -1 {
      Multiples(d, -e - 1);
    }
  }

  lemma {:induction false} Multiples(d: nat, e: int)
    requires e >= 0
    ensures d * (e + 1) >= d && d * (-(e + 1)) <= -1 * d
  {
  }

  /** Every sequence of bytes is the encoding of its number. */
  lemma {:induction false} BigEndianInverse(b: Bytes)
    ensures FromBigEndian(b) < Pow256(|b|) && BigEndian(FromBigEndian(b), |b|) == b
  {
    if b != [] {
      var front, last := b[..|b| - 1], b[|b| - 1];
      BigEndianInverse(front);
      assert (FromBigEndian(front) * 256 + last) / 256 == FromBigEndian(front) && (FromBigEndian(front) * 256 + last) % 256 == last;
      assert b == front + [last];
    }
  }

  /** The layout of a frame: four bytes of magic, eight of the count, four of the checksum. */
  lemma {:induction false} FrameLayout(next: nat, i: nat)
    requires i < 16
    ensures Frame(next)[i] ==
      if i < 4 then [0x4b, 0x50, 0x4c, 0x31][i]
      else if i < 12 then next / Pow256(11 - i) % 256
      else Checksum(Frame(next)[..12]) / Pow256(15 - i) % 256
  {
    hide Checksum;
    var f, body := Frame(next), FrameBody(next);
    assert f[..12] == body;
    if i < 4 {
      MagicBytes();
    } else if i < 12 {
      assert f[i] == BigEndian(next, 8)[i - 4];
      BigEndianAt(next, 8, i - 4);
    } else {
      assert f[i] == BigEndian(Checksum(body), 4)[i - 12];
      BigEndianAt(Checksum(body), 4, i - 12);
    }
  }

  lemma {:induction false} MagicBytes()
    ensures BigEndian(ACK_MAGIC, 4) == [0x4b, 0x50, 0x4c, 0x31]
  {
    assert BigEndian(0x4b, 1) == [0x4b];
    assert BigEndian(0x4b50, 2) == [0x4b, 0x50];
    assert BigEndian(0x4b504c, 3) == [0x4b, 0x50, 0x4c];
  }

  /** The valid frames are exactly the written ones. */
  lemma {:induction false} ValidIsWritten(f: Bytes)
    requires ValidFrame(f)
    ensures FrameNext(f) < 0x1_0000_0000_0000_0000 && f == Frame(FrameNext(f))
  {
    hide Checksum;
    Pow256Values();
    BigEndianInverse(f[..4]);
    BigEndianInverse(f[4..12]);
    BigEndianInverse(f[12..]);
    assert f[..12] == f[..4] + f[4..12];
    assert f == f[..12] + f[12..];
  }

  // ---------- The checksum ----------

  function Shift8(c: bv32): bv32 {
    Shift(Shift(Shift(Shift(Shift(Shift(Shift(Shift(c))))))))
  }

  lemma {:induction false} CrcShift(data: Bytes, bits: nat, c: bv32)
    ensures Crc(data, bits + 1, c) == Crc(data, bits, Shift(c))
  {
    hide Shift, Mix;
  }

  lemma {:induction false} CrcShifts(data: Bytes, c: bv32)
    ensures Crc(data, 8, c) == Crc(data, 0, Shift8(c))
  {
    hide Shift, Crc;
    CrcShift(data, 7, c);
    CrcShift(data, 6, Shift(c));
    CrcShift(data, 5, Shift(Shift(c)));
    CrcShift(data, 4, Shift(Shift(Shift(c))));
    CrcShift(data, 3, Shift(Shift(Shift(Shift(c)))));
    CrcShift(data, 2, Shift(Shift(Shift(Shift(Shift(c))))));
    CrcShift(data, 1, Shift(Shift(Shift(Shift(Shift(Shift(c)))))));
    CrcShift(data, 0, Shift(Shift(Shift(Shift(Shift(Shift(Shift(c))))))));
  }

  lemma {:induction false} CrcByte(b: byte, rest: Bytes, c: bv32)
    ensures Crc([b] + rest, 0, c) == Crc(rest, 0, Shift8(Mix(c, b)))
  {
    hide Mix, Shift8, Shift;
    assert ([b] + rest)[1..] == rest;
    CrcShifts(rest, Mix(c, b));
  }

  /** The check value of CRC-32: the checksum of the digits from 1 to 9. */
  lemma {:induction false} CheckValue()
    ensures Checksum([49, 50, 51, 52, 53, 54, 55, 56, 57]) == 0xCBF43926
  {
    hide Mix, Shift8, Shift, Crc, Final;
    CheckSteps();
    CrcByte(49, [50, 51, 52, 53, 54, 55, 56, 57], 0xFFFFFFFF);
    assert [49] + [50, 51, 52, 53, 54, 55, 56, 57] == [49, 50, 51, 52, 53, 54, 55, 56, 57];
    CrcByte(50, [51, 52, 53, 54, 55, 56, 57], 0x7C231048);
    assert [50] + [51, 52, 53, 54, 55, 56, 57] == [50, 51, 52, 53, 54, 55, 56, 57];
    CrcByte(51, [52, 53, 54, 55, 56, 57], 0xB0ACBB32);
    assert [51] + [52, 53, 54, 55, 56, 57] == [51, 52, 53, 54, 55, 56, 57];
    CrcByte(52, [53, 54, 55, 56, 57], 0x77B79C2D);
    assert [52] + [53, 54, 55, 56, 57] == [52, 53, 54, 55, 56, 57];
    CrcByte(53, [54, 55, 56, 57], 0x641C1F5C);
    assert [53] + [54, 55, 56, 57] == [53, 54, 55, 56, 57];
    CrcByte(54, [55, 56, 57], 0x340AC5E3);
    assert [54] + [55, 56, 57] == [54, 55, 56, 57];
    CrcByte(55, [56, 57], 0xF68D2C9E);
    assert [55] + [56, 57] == [55, 56, 57];
    CrcByte(56, [57], 0xAFFC9660);
    assert [56] + [57] == [56, 57];
    CrcByte(57, [], 0x651F2550);
    assert [57] + [] == [57];
    CrcEnd(0x340BC6D9);
    CheckFinal();
  }

  lemma {:induction false} CrcEnd(c: bv32)
    ensures Crc([], 0, c) == c
  {
  }

  lemma {:induction false} CheckFinal()
    ensures Final(0x340BC6D9) == 0xCBF43926
  {
    assert 0x340BC6D9 as bv32 ^ 0xFFFF_FFFF == 0xCBF43926;
  }

  lemma {:induction false} CheckSteps()
    ensures Shift8(Mix(0xFFFFFFFF, 49)) == 0x7C231048
    ensures Shift8(Mix(0x7C231048, 50)) == 0xB0ACBB32
    ensures Shift8(Mix(0xB0ACBB32, 51)) == 0x77B79C2D
    ensures Shift8(Mix(0x77B79C2D, 52)) == 0x641C1F5C
    ensures Shift8(Mix(0x641C1F5C, 53)) == 0x340AC5E3
    ensures Shift8(Mix(0x340AC5E3, 54)) == 0xF68D2C9E
    ensures Shift8(Mix(0xF68D2C9E, 55)) == 0xAFFC9660
    ensures Shift8(Mix(0xAFFC9660, 56)) == 0x651F2550
    ensures Shift8(Mix(0x651F2550, 57)) == 0x340BC6D9
  {
    CheckStep49();
    CheckStep50();
    CheckStep51();
    CheckStep52();
    CheckStep53();
    CheckStep54();
    CheckStep55();
    CheckStep56();
    CheckStep57();
  }

  lemma {:induction false} MixIs(c: bv32, b: byte, b7: bool, b6: bool, b5: bool, b4: bool, b3: bool, b2: bool, b1: bool, b0: bool, next: bv32)
    requires Bit(b, 128) == b7 && Bit(b, 64) == b6 && Bit(b, 32) == b5 && Bit(b, 16) == b4
    requires Bit(b, 8) == b3 && Bit(b, 4) == b2 && Bit(b, 2) == b1 && Bit(b, 1) == b0
    requires Xor(c, Pack(b7, b6, b5, b4, b3, b2, b1, b0)) == next
    ensures Mix(c, b) == next
  {
    hide Bit, Pack, Xor;
  }

  lemma {:induction false} ShiftsAre(c: bv32, c1: bv32, c2: bv32, c3: bv32, c4: bv32, c5: bv32, c6: bv32, c7: bv32, c8: bv32)
    requires Shift(c) == c1 && Shift(c1) == c2 && Shift(c2) == c3 && Shift(c3) == c4
    requires Shift(c4) == c5 && Shift(c5) == c6 && Shift(c6) == c7 && Shift(c7) == c8
    ensures Shift8(c) == c8
  {
    hide Shift;
  }

  lemma {:induction false} CheckStep49()
    ensures Shift8(Mix(0xFFFFFFFF, 49)) == 0x7C231048
  {
    MixIs(0xFFFFFFFF, 49, false, false, true, true, false, false, false, true, 0xFFFFFFCE);
    ShiftsAre(0xFFFFFFCE, 0x7FFFFFE7, 0xD2477CD3, 0x849B3D49, 0xAFF51D84, 0x57FA8EC2, 0x2BFD4761, 0xF8462090, 0x7C231048);
  }

  lemma {:induction false} CheckStep50()
    ensures Shift8(Mix(0x7C231048, 50)) == 0xB0ACBB32
  {
    MixIs(0x7C231048, 50, false, false, true, true, false, false, true, false, 0x7C23107A);
    ShiftsAre(0x7C23107A, 0x3E11883D, 0xF2B0473E, 0x7958239F, 0xD11492EF, 0x8532CA57, 0xAF21E60B, 0xBA287025, 0xB0ACBB32);
  }

  lemma {:induction false} CheckStep51()
    ensures Shift8(Mix(0xB0ACBB32, 51)) == 0x77B79C2D
  {
    MixIs(0xB0ACBB32, 51, false, false, true, true, false, false, true, true, 0xB0ACBB01);
    ShiftsAre(0xB0ACBB01, 0xB5EEDEA0, 0x5AF76F50, 0x2D7BB7A8, 0x16BDDBD4, 0x0B5EEDEA, 0x05AF76F5, 0xEF6F385A, 0x77B79C2D);
  }

  lemma {:induction false} CheckStep52()
    ensures Shift8(Mix(0x77B79C2D, 52)) == 0x641C1F5C
  {
    MixIs(0x77B79C2D, 52, false, false, true, true, false, true, false, false, 0x77B79C19);
    ShiftsAre(0x77B79C19, 0xD6634D2C, 0x6B31A696, 0x3598D34B, 0xF774EA85, 0x9602F662, 0x4B017B31, 0xC8383EB8, 0x641C1F5C);
  }

  lemma {:induction false} CheckStep53()
    ensures Shift8(Mix(0x641C1F5C, 53)) == 0x340AC5E3
  {
    MixIs(0x641C1F5C, 53, false, false, true, true, false, true, false, true, 0x641C1F69);
    ShiftsAre(0x641C1F69, 0xDFB68C94, 0x6FDB464A, 0x37EDA325, 0xF64E52B2, 0x7B272959, 0xD02B178C, 0x68158BC6, 0x340AC5E3);
  }

  lemma {:induction false} CheckStep54()
    ensures Shift8(Mix(0x340AC5E3, 54)) == 0xF68D2C9E
  {
    MixIs(0x340AC5E3, 54, false, false, true, true, false, true, true, false, 0x340AC5D5);
    ShiftsAre(0x340AC5D5, 0xF7BDE1CA, 0x7BDEF0E5, 0xD057FB52, 0x682BFDA9, 0xD9AD7DF4, 0x6CD6BEFA, 0x366B5F7D, 0xF68D2C9E);
  }

  lemma {:induction false} CheckStep55()
    ensures Shift8(Mix(0xF68D2C9E, 55)) == 0xAFFC9660
  {
    MixIs(0xF68D2C9E, 55, false, false, true, true, false, true, true, true, 0xF68D2CA9);
    ShiftsAre(0xF68D2CA9, 0x96FE1574, 0x4B7F0ABA, 0x25BF855D, 0xFF67418E, 0x7FB3A0C7, 0xD2615343, 0x84882A81, 0xAFFC9660);
  }

  lemma {:induction false} CheckStep56()
    ensures Shift8(Mix(0xAFFC9660, 56)) == 0x651F2550
  {
    MixIs(0xAFFC9660, 56, false, false, true, true, true, false, false, false, 0xAFFC9658);
    ShiftsAre(0xAFFC9658, 0x57FE4B2C, 0x2BFF2596, 0x15FF92CB, 0xE7474A45, 0x9E1B2602, 0x4F0D9301, 0xCA3E4AA0, 0x651F2550);
  }

  lemma {:induction false} CheckStep57()
    ensures Shift8(Mix(0x651F2550, 57)) == 0x340BC6D9
  {
    MixIs(0x651F2550, 57, false, false, true, true, true, false, false, true, 0x651F2569);
    ShiftsAre(0x651F2569, 0xDF371194, 0x6F9B88CA, 0x37CDC465, 0xF65E6112, 0x7B2F3089, 0xD02F1B64, 0x68178DB2, 0x340BC6D9);
  }

  lemma {:induction false} ShiftInjective(a: bv32, b: bv32)
    requires Shift(a) == Shift(b)
    ensures a == b
  {
  }

  lemma {:induction false} Shift8Injective(a: bv32, b: bv32)
    requires Shift8(a) == Shift8(b)
    ensures a == b
  {
    hide Shift;
    var a1, b1 := Shift(a), Shift(b);
    var a2, b2 := Shift(a1), Shift(b1);
    var a3, b3 := Shift(a2), Shift(b2);
    var a4, b4 := Shift(a3), Shift(b3);
    var a5, b5 := Shift(a4), Shift(b4);
    var a6, b6 := Shift(a5), Shift(b5);
    ShiftInjective(Shift(a6), Shift(b6));
    ShiftInjective(a6, b6);
    ShiftInjective(a5, b5);
    ShiftInjective(a4, b4);
    ShiftInjective(a3, b3);
    ShiftInjective(a2, b2);
    ShiftInjective(a1, b1);
    ShiftInjective(a, b);
  }

  lemma {:induction false} Halves(b: nat)
    ensures b == 2 * (b / 2) + b % 2
  {
  }

  lemma {:induction false} Quarter(b: nat, w: nat)
    requires w > 0
    ensures b / w / 2 == b / (2 * w)
  {
    var q := b / w / 2;
    assert b == w * (b / w) + b % w;
    Halves(b / w);
    Quotient(b, 2 * w, q, w * (b / w % 2) + b % w);
  }

  lemma {:induction false} NextDigit(b: byte, w: nat)
    requires w > 0
    ensures b / w == 2 * (b / (2 * w)) + Digit(b, w)
  {
    Halves(b / w);
    Quarter(b, w);
  }

  /** The bits of a byte make it up. */
  lemma {:induction false} DigitsOf(b: byte)
    ensures b == 128 * Digit(b, 128) + 64 * Digit(b, 64) + 32 * Digit(b, 32) + 16 * Digit(b, 16)
               + 8 * Digit(b, 8) + 4 * Digit(b, 4) + 2 * Digit(b, 2) + Digit(b, 1)
  {
    hide Digit;
    NextDigit(b, 1);
    NextDigit(b, 2);
    NextDigit(b, 4);
    NextDigit(b, 8);
    NextDigit(b, 16);
    NextDigit(b, 32);
    NextDigit(b, 64);
    NextDigit(b, 128);
    assert b / 256 == 0 && b / 1 == b;
  }

  lemma {:induction false} PackInjective(a7: bool, a6: bool, a5: bool, a4: bool, a3: bool, a2: bool, a1: bool, a0: bool,
                                         b7: bool, b6: bool, b5: bool, b4: bool, b3: bool, b2: bool, b1: bool, b0: bool, c: bv32)
    requires Xor(c, Pack(a7, a6, a5, a4, a3, a2, a1, a0)) == Xor(c, Pack(b7, b6, b5, b4, b3, b2, b1, b0))
    ensures a7 == b7 && a6 == b6 && a5 == b5 && a4 == b4 && a3 == b3 && a2 == b2 && a1 == b1 && a0 == b0
  {
  }

  lemma {:induction false} MixByte(c: bv32, a: byte, b: byte)
    requires Mix(c, a) == Mix(c, b)
    ensures a == b
  {
    hide Pack, Bit, Digit, Xor;
    PackInjective(Bit(a, 128), Bit(a, 64), Bit(a, 32), Bit(a, 16), Bit(a, 8), Bit(a, 4), Bit(a, 2), Bit(a, 1),
                  Bit(b, 128), Bit(b, 64), Bit(b, 32), Bit(b, 16), Bit(b, 8), Bit(b, 4), Bit(b, 2), Bit(b, 1), c);
    SameBits(a, b);
  }

  lemma {:induction false} SameBits(a: byte, b: byte)
    requires Bit(a, 128) == Bit(b, 128) && Bit(a, 64) == Bit(b, 64) && Bit(a, 32) == Bit(b, 32) && Bit(a, 16) == Bit(b, 16)
    requires Bit(a, 8) == Bit(b, 8) && Bit(a, 4) == Bit(b, 4) && Bit(a, 2) == Bit(b, 2) && Bit(a, 1) == Bit(b, 1)
    ensures a == b
  {
    hide Digit, Bit;
    DigitsOf(a);
    DigitsOf(b);
    SameDigit(a, b, 128);
    SameDigit(a, b, 64);
    SameDigit(a, b, 32);
    SameDigit(a, b, 16);
    SameDigit(a, b, 8);
    SameDigit(a, b, 4);
    SameDigit(a, b, 2);
    SameDigit(a, b, 1);
  }

  lemma {:induction false} SameDigit(a: byte, b: byte, w: nat)
    requires w > 0 && Bit(a, w) == Bit(b, w)
    ensures Digit(a, w) == Digit(b, w)
  {
  }

  lemma {:induction false} MixWord(a: bv32, b: bv32, x: byte)
    requires Mix(a, x) == Mix(b, x)
    ensures a == b
  {
    hide Pack, Bit, Xor;
    XorInjective(a, b, Pack(Bit(x, 128), Bit(x, 64), Bit(x, 32), Bit(x, 16), Bit(x, 8), Bit(x, 4), Bit(x, 2), Bit(x, 1)));
  }

  lemma {:induction false} XorInjective(a: bv32, b: bv32, c: bv32)
    ensures Xor(a, c) == Xor(b, c) ==> a == b
  {
  }

  /** Different registers stay different over the same bytes. */
  lemma {:induction false} CrcInjective(data: Bytes, a: bv32, b: bv32)
    requires a != b
    ensures Crc(data, 0, a) != Crc(data, 0, b)
    decreases |data|
  {
    hide Shift8, Mix, Crc;
    if data == [] {
      CrcEnd(a);
      CrcEnd(b);
    } else {
      assert data == [data[0]] + data[1..];
      CrcByte(data[0], data[1..], a);
      CrcByte(data[0], data[1..], b);
      Different(a, b, data[0], data[0]);
      CrcInjective(data[1..], Shift8(Mix(a, data[0])), Shift8(Mix(b, data[0])));
    }
  }

  /** Another register or another byte gives another register. */
  lemma {:induction false} Different(a: bv32, b: bv32, x: byte, y: byte)
    requires (a != b && x == y) || (a == b && x != y)
    ensures Shift8(Mix(a, x)) != Shift8(Mix(b, y))
  {
    hide Shift8, Mix;
    if Shift8(Mix(a, x)) == Shift8(Mix(b, y)) {
      Shift8Injective(Mix(a, x), Mix(b, y));
      if x == y {
        MixWord(a, b, x);
      } else {
        MixByte(a, x, y);
      }
    }
  }

  lemma {:induction false} CrcChanged(data: Bytes, i: nat, x: byte, c: bv32)
    requires i < |data| && x != data[i]
    ensures Crc(data, 0, c) != Crc(data[i := x], 0, c)
    decreases i
  {
    hide Shift8, Mix, Crc;
    var other, rest := data[i := x], data[1..];
    assert data == [data[0]] + rest && other == [other[0]] + other[1..];
    CrcByte(data[0], rest, c);
    CrcByte(other[0], other[1..], c);
    if i == 0 {
      assert other[1..] == rest;
      Different(c, c, data[0], x);
      CrcInjective(rest, Shift8(Mix(c, data[0])), Shift8(Mix(c, x)));
    } else {
      assert other[1..] == rest[i - 1 := x];
      CrcChanged(rest, i - 1, x, Shift8(Mix(c, data[0])));
    }
  }

  lemma {:induction false} FinalInjective(a: bv32, b: bv32)
    requires Final(a) == Final(b)
    ensures a == b
  {
    BackAndForth(a ^ 0xFFFF_FFFF);
    BackAndForth(b ^ 0xFFFF_FFFF);
    Flipped(a, b);
  }

  lemma {:induction false} BackAndForth(c: bv32)
    ensures (c as nat) as bv32 == c
  {
  }

  lemma {:induction false} Flipped(a: bv32, b: bv32)
    ensures a ^ 0xFFFF_FFFF == b ^ 0xFFFF_FFFF ==> a == b
  {
  }

  lemma {:induction false} ChecksumChanged(data: Bytes, i: nat, x: byte)
    requires i < |data| && x != data[i]
    ensures Checksum(data) != Checksum(data[i := x])
  {
    hide Crc, Final;
    CrcChanged(data, i, x, 0xFFFF_FFFF);
    if Checksum(data) == Checksum(data[i := x]) {
      FinalInjective(Crc(data, 0, 0xFFFF_FFFF), Crc(data[i := x], 0, 0xFFFF_FFFF));
    }
  }

  lemma {:induction false} NumberChanged(b: Bytes, i: nat, x: byte)
    requires i < |b| && x != b[i]
    ensures FromBigEndian(b) != FromBigEndian(b[i := x])
  {
    BigEndianInverse(b);
    BigEndianInverse(b[i := x]);
    assert b[i := x][i] == x;
  }

  /** Whichever single byte of a valid frame changes, the reader notices. */
  lemma {:induction false} DamageIsNoticed(f: Bytes, i: nat, x: byte)
    requires ValidFrame(f) && i < 16 && x != f[i]
    ensures !ValidFrame(f[i := x])
  {
    hide Checksum;
    var g := f[i := x];
    if i < 12 {
      assert g[..12] == f[..12][i := x] && g[12..] == f[12..];
      ChecksumChanged(f[..12], i, x);
    } else {
      assert g[..12] == f[..12] && g[12..] == f[12..][i - 12 := x];
      NumberChanged(f[12..], i - 12, x);
    }
  }
}
