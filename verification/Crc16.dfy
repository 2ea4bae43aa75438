/** The table-driven CRC of ProtoPlexer, proved equal to polynomial division by
    x^16 + x^12 + x^5 + 1 (the generator in section 2 of ITU-T Recommendation
    V.41) with initial value 0, and what follows for burst errors. */
module Crc16 {
  import opened Can

  // ------------------------------------------------------------------- the table

  /** One of the eight entries of a row. */
  function Pick(c: bv8, v0: bv16, v1: bv16, v2: bv16, v3: bv16, v4: bv16, v5: bv16, v6: bv16, v7: bv16): bv16 {
    if c == 0 then v0 else if c == 1 then v1 else if c == 2 then v2 else if c == 3 then v3
    else if c == 4 then v4 else if c == 5 then v5 else if c == 6 then v6 else v7
  }

  function Quarter0(r: bv8, c: bv8): bv16 {
    if r == 0 then Pick(c, 0x0000, 0x1021, 0x2042, 0x3063, 0x4084, 0x50a5, 0x60c6, 0x70e7)
    else if r == 1 then Pick(c, 0x8108, 0x9129, 0xa14a, 0xb16b, 0xc18c, 0xd1ad, 0xe1ce, 0xf1ef)
    else if r == 2 then Pick(c, 0x1231, 0x0210, 0x3273, 0x2252, 0x52b5, 0x4294, 0x72f7, 0x62d6)
    else if r == 3 then Pick(c, 0x9339, 0x8318, 0xb37b, 0xa35a, 0xd3bd, 0xc39c, 0xf3ff, 0xe3de)
    else if r == 4 then Pick(c, 0x2462, 0x3443, 0x0420, 0x1401, 0x64e6, 0x74c7, 0x44a4, 0x5485)
    else if r == 5 then Pick(c, 0xa56a, 0xb54b, 0x8528, 0x9509, 0xe5ee, 0xf5cf, 0xc5ac, 0xd58d)
    else if r == 6 then Pick(c, 0x3653, 0x2672, 0x1611, 0x0630, 0x76d7, 0x66f6, 0x5695, 0x46b4)
    else Pick(c, 0xb75b, 0xa77a, 0x9719, 0x8738, 0xf7df, 0xe7fe, 0xd79d, 0xc7bc)
  }

  function Quarter1(r: bv8, c: bv8): bv16 {
    if r == 8 then Pick(c, 0x48c4, 0x58e5, 0x6886, 0x78a7, 0x0840, 0x1861, 0x2802, 0x3823)
    else if r == 9 then Pick(c, 0xc9cc, 0xd9ed, 0xe98e, 0xf9af, 0x8948, 0x9969, 0xa90a, 0xb92b)
    else if r == 10 then Pick(c, 0x5af5, 0x4ad4, 0x7ab7, 0x6a96, 0x1a71, 0x0a50, 0x3a33, 0x2a12)
    else if r == 11 then Pick(c, 0xdbfd, 0xcbdc, 0xfbbf, 0xeb9e, 0x9b79, 0x8b58, 0xbb3b, 0xab1a)
    else if r == 12 then Pick(c, 0x6ca6, 0x7c87, 0x4ce4, 0x5cc5, 0x2c22, 0x3c03, 0x0c60, 0x1c41)
    else if r == 13 then Pick(c, 0xedae, 0xfd8f, 0xcdec, 0xddcd, 0xad2a, 0xbd0b, 0x8d68, 0x9d49)
    else if r == 14 then Pick(c, 0x7e97, 0x6eb6, 0x5ed5, 0x4ef4, 0x3e13, 0x2e32, 0x1e51, 0x0e70)
    else Pick(c, 0xff9f, 0xefbe, 0xdfdd, 0xcffc, 0xbf1b, 0xaf3a, 0x9f59, 0x8f78)
  }

  function Quarter2(r: bv8, c: bv8): bv16 {
    if r == 16 then Pick(c, 0x9188, 0x81a9, 0xb1ca, 0xa1eb, 0xd10c, 0xc12d, 0xf14e, 0xe16f)
    else if r == 17 then Pick(c, 0x1080, 0x00a1, 0x30c2, 0x20e3, 0x5004, 0x4025, 0x7046, 0x6067)
    else if r == 18 then Pick(c, 0x83b9, 0x9398, 0xa3fb, 0xb3da, 0xc33d, 0xd31c, 0xe37f, 0xf35e)
    else if r == 19 then Pick(c, 0x02b1, 0x1290, 0x22f3, 0x32d2, 0x4235, 0x5214, 0x6277, 0x7256)
    else if r == 20 then Pick(c, 0xb5ea, 0xa5cb, 0x95a8, 0x8589, 0xf56e, 0xe54f, 0xd52c, 0xc50d)
    else if r == 21 then Pick(c, 0x34e2, 0x24c3, 0x14a0, 0x0481, 0x7466, 0x6447, 0x5424, 0x4405)
    else if r == 22 then Pick(c, 0xa7db, 0xb7fa, 0x8799, 0x97b8, 0xe75f, 0xf77e, 0xc71d, 0xd73c)
    else Pick(c, 0x26d3, 0x36f2, 0x0691, 0x16b0, 0x6657, 0x7676, 0x4615, 0x5634)
  }

  function Quarter3(r: bv8, c: bv8): bv16 {
    if r == 24 then Pick(c, 0xd94c, 0xc96d, 0xf90e, 0xe92f, 0x99c8, 0x89e9, 0xb98a, 0xa9ab)
    else if r == 25 then Pick(c, 0x5844, 0x4865, 0x7806, 0x6827, 0x18c0, 0x08e1, 0x3882, 0x28a3)
    else if r == 26 then Pick(c, 0xcb7d, 0xdb5c, 0xeb3f, 0xfb1e, 0x8bf9, 0x9bd8, 0xabbb, 0xbb9a)
    else if r == 27 then Pick(c, 0x4a75, 0x5a54, 0x6a37, 0x7a16, 0x0af1, 0x1ad0, 0x2ab3, 0x3a92)
    else if r == 28 then Pick(c, 0xfd2e, 0xed0f, 0xdd6c, 0xcd4d, 0xbdaa, 0xad8b, 0x9de8, 0x8dc9)
    else if r == 29 then Pick(c, 0x7c26, 0x6c07, 0x5c64, 0x4c45, 0x3ca2, 0x2c83, 0x1ce0, 0x0cc1)
    else if r == 30 then Pick(c, 0xef1f, 0xff3e, 0xcf5d, 0xdf7c, 0xaf9b, 0xbfba, 0x8fd9, 0x9ff8)
    else Pick(c, 0x6e17, 0x7e36, 0x4e55, 0x5e74, 0x2e93, 0x3eb2, 0x0ed1, 0x1ef0)
  }

  /** Entry `i` of the 256-entry table, laid out in 32 rows of eight. */
  function Table(i: bv8): bv16 {
    var r, c := i >> 3, i & 7;
    if r < 8 then Quarter0(r, c) else if r < 16 then Quarter1(r, c)
    else if r < 24 then Quarter2(r, c) else Quarter3(r, c)
  }

  // ------------------------------------------------- polynomials over the bits 0 and 1

  // A polynomial is the sequence of its coefficients, highest degree first.

  type Bits = seq<bool>

  function NoBits(n: nat): (z: Bits)
    ensures |z| == n
  {
    seq(n, _ => false)
  }

  /** Addition and subtraction: coefficient-wise, without carries. */
  function Plus(a: Bits, b: Bits): (c: Bits)
    requires |a| == |b|
    ensures |c| == |a| && forall i :: 0 <= i < |c| ==> c[i] == (a[i] != b[i])
  {
    seq(|a|, i requires 0 <= i < |a| => a[i] != b[i])
  }

  /** x^12 + x^5 + 1, the generator without its leading term x^16. */
  function Tail(): (g: Bits)
    ensures |g| == 16
  {
    seq(16, i => i == 3 || i == 10 || i == 15)
  }

  function Generator(): (g: Bits)
    ensures |g| == 17
  {
    [true] + Tail()
  }

  /** Cancel the leading coefficient of `p` and drop it. */
  function Cancel(p: Bits): (q: Bits)
    requires |p| > 16
    ensures |q| == |p| - 1
  {
    (if p[0] then Plus(p[..17], Generator()) + p[17..] else p)[1..]
  }

  /** School-book long division: what is left of `p` below degree 16. */
  function LongDiv(p: Bits): (r: Bits)
    ensures |p| >= 16 ==> |r| == 16
    decreases |p|
  {
    if |p| <= 16 then p else LongDiv(Cancel(p))
  }

  function Quotient(p: Bits): (q: Bits)
    requires |p| >= 16
    ensures |q| == |p| - 16
    decreases |p|
  {
    if |p| == 16 then [] else [p[0]] + Quotient(Cancel(p))
  }

  /** `q` times the generator. */
  function Times(q: Bits): (p: Bits)
    ensures |p| == |q| + 16
  {
    if q == [] then NoBits(16)
    else Plus((if q[0] then Generator() else NoBits(17)) + NoBits(|q| - 1), [false] + Times(q[1..]))
  }

  /** `LongDiv` is the remainder: the dividend is quotient times generator plus it. */
  lemma {:induction false} DivisionIdentity(p: Bits)
    requires |p| >= 16
    ensures p == Plus(Times(Quotient(p)), NoBits(|p| - 16) + LongDiv(p))
    decreases |p|
  {
    if |p| > 16 {
      var q := Cancel(p);
      DivisionIdentity(q);
      DivisionStep(p, q, Times(Quotient(q)), NoBits(|q| - 16) + LongDiv(q));
      TimesLead(p[0], Quotient(q));
      OneMoreZero(|q| - 16, LongDiv(q));
    }
  }

  lemma DivisionStep(p: Bits, q: Bits, t: Bits, r: Bits)
    requires |p| > 16 && q == Cancel(p) && |t| == |r| == |q| && q == Plus(t, r)
    ensures var lead := (if p[0] then Generator() else NoBits(17)) + NoBits(|p| - 17);
            p == Plus(Plus(lead, [false] + t), [false] + r)
  {
    var lead := (if p[0] then Generator() else NoBits(17)) + NoBits(|p| - 17);
    CancelRestores(p, lead);
    Regroup(lead, t, r);
  }

  lemma OneMoreZero(n: nat, r: Bits)
    ensures [false] + (NoBits(n) + r) == NoBits(n + 1) + r
  {
  }

  lemma TimesLead(b: bool, q: Bits)
    ensures Times([b] + q) == Plus((if b then Generator() else NoBits(17)) + NoBits(|q|), [false] + Times(q))
  {
    assert ([b] + q)[1..] == q;
  }

  lemma CancelRestores(p: Bits, lead: Bits)
    requires |p| > 16 && lead == (if p[0] then Generator() else NoBits(17)) + NoBits(|p| - 17)
    ensures p == Plus(lead, [false] + Cancel(p))
  {
  }

  lemma Regroup(a: Bits, b: Bits, c: Bits)
    requires |a| == |b| + 1 && |b| == |c|
    ensures Plus(a, [false] + Plus(b, c)) == Plus(Plus(a, [false] + b), [false] + c)
  {
  }

  lemma CancelPlus(p: Bits, q: Bits)
    requires |p| == |q| > 16
    ensures Cancel(Plus(p, q)) == Plus(Cancel(p), Cancel(q))
  {
  }

  /** Remainders add up. */
  lemma {:induction false} RemainderOfSum(p: Bits, q: Bits)
    requires |p| == |q| >= 16
    ensures LongDiv(Plus(p, q)) == Plus(LongDiv(p), LongDiv(q))
    decreases |p|
  {
    if |p| > 16 {
      CancelPlus(p, q);
      RemainderOfSum(Cancel(p), Cancel(q));
    }
  }

  /** Leading zeros do not matter. */
  lemma {:induction false} LeadingZeros(n: nat, p: Bits)
    requires |p| >= 16
    ensures LongDiv(NoBits(n) + p) == LongDiv(p)
  {
    if n == 0 {
      assert NoBits(0) + p == p;
    } else {
      assert Cancel(NoBits(n) + p) == NoBits(n - 1) + p;
      LeadingZeros(n - 1, p);
    }
  }

  /** A dividend may be divided piece by piece. */
  lemma {:induction false} DivideInPieces(p: Bits, q: Bits)
    requires |p| >= 16
    ensures LongDiv(p + q) == LongDiv(LongDiv(p) + q)
    decreases |p|
  {
    if |p| > 16 {
      assert Cancel(p + q) == Cancel(p) + q;
      DivideInPieces(Cancel(p), q);
    }
  }

  // ---------------------------------------------------------------- bytes and words

  /** Masks of the bits of a byte or word, most significant first. */
  function Mask8(i: nat): bv8 { if i == 0 then 0x80 else Mask8(i - 1) >> 1 }

  function Mask16(i: nat): bv16 { if i == 0 then 0x8000 else Mask16(i - 1) >> 1 }

  function Bit8(b: bv8, i: nat): bool { b & Mask8(i) != 0 }

  function Bit16(w: bv16, i: nat): bool { w & Mask16(i) != 0 }

  function Bits8(b: bv8): (s: Bits)
    ensures |s| == 8
  {
    seq(8, i requires 0 <= i < 8 => Bit8(b, i))
  }

  function Bits16(w: bv16): (s: Bits)
    ensures |s| == 16
  {
    seq(16, i requires 0 <= i < 16 => Bit16(w, i))
  }

  /** A message as a polynomial: most significant bit of the first byte first. */
  function BitsOf(data: seq<byte>): (s: Bits)
    ensures |s| == 8 * |data|
  {
    if data == [] then [] else BitsOf(data[..|data| - 1]) + Bits8(data[|data| - 1])
  }

  // ------------------------------------------------------------- the table is correct

  /** One division step of a 16-bit register. */
  function Step(r: bv16): bv16 { if r & 0x8000 != 0 then (r << 1) ^ 0x1021 else r << 1 }

  function Step8(r: bv16): bv16 { Step(Step(Step(Step(Step(Step(Step(Step(r)))))))) }

  lemma Rows0(i: bv8)
    requires i < 32
    ensures Quarter0(i >> 3, i & 7) == Step8((i as bv16) << 8)
  {
  }

  lemma Rows1(i: bv8)
    requires 32 <= i < 64
    ensures Quarter0(i >> 3, i & 7) == Step8((i as bv16) << 8)
  {
  }

  lemma Rows2(i: bv8)
    requires 64 <= i < 96
    ensures Quarter1(i >> 3, i & 7) == Step8((i as bv16) << 8)
  {
  }

  lemma Rows3(i: bv8)
    requires 96 <= i < 128
    ensures Quarter1(i >> 3, i & 7) == Step8((i as bv16) << 8)
  {
  }

  lemma Rows4(i: bv8)
    requires 128 <= i < 160
    ensures Quarter2(i >> 3, i & 7) == Step8((i as bv16) << 8)
  {
  }

  lemma Rows5(i: bv8)
    requires 160 <= i < 192
    ensures Quarter2(i >> 3, i & 7) == Step8((i as bv16) << 8)
  {
  }

  lemma Rows6(i: bv8)
    requires 192 <= i < 224
    ensures Quarter3(i >> 3, i & 7) == Step8((i as bv16) << 8)
  {
  }

  lemma Rows7(i: bv8)
    requires 224 <= i
    ensures Quarter3(i >> 3, i & 7) == Step8((i as bv16) << 8)
  {
  }

  /** All 256 entries are the remainders of their index. */
  lemma TableIsRemainder(i: bv8)
    ensures Table(i) == Step8((i as bv16) << 8)
  {
    if i < 32 {
      Rows0(i);
    } else if i < 64 {
      Rows1(i);
    } else if i < 96 {
      Rows2(i);
    } else if i < 128 {
      Rows3(i);
    } else if i < 160 {
      Rows4(i);
    } else if i < 192 {
      Rows5(i);
    } else if i < 224 {
      Rows6(i);
    } else {
      Rows7(i);
    }
  }

  lemma CancelAt(p: Bits, i: nat)
    requires |p| == 17 && i < 16
    ensures Cancel(p)[i] == (p[i + 1] != (p[0] && (i == 3 || i == 10 || i == 15)))
  {
  }

  lemma ExclusiveOrMask(a: bv16, b: bv16, m: bv16)
    requires m & (m - 1) == 0
    ensures (a ^ b) & m != 0 <==> (a & m != 0) != (b & m != 0)
  {
    assert a & m == 0 || a & m == m;
    assert b & m == 0 || b & m == m;
    assert (a ^ b) & m == (a & m) ^ (b & m);
  }

  lemma ShiftMask(w: bv16, m: bv16)
    ensures (w << 1) & m != 0 <==> w & (m >> 1) != 0
  {
  }

  lemma Masks()
    ensures Mask8(0) == 0x80 && Mask8(1) == 0x40 && Mask8(2) == 0x20 && Mask8(3) == 0x10
    ensures Mask8(4) == 8 && Mask8(5) == 4 && Mask8(6) == 2 && Mask8(7) == 1
    ensures Mask16(0) == 0x8000 && Mask16(1) == 0x4000 && Mask16(2) == 0x2000 && Mask16(3) == 0x1000
    ensures Mask16(4) == 0x800 && Mask16(5) == 0x400 && Mask16(6) == 0x200 && Mask16(7) == 0x100
    ensures Mask16(8) == 0x80 && Mask16(9) == 0x40 && Mask16(10) == 0x20 && Mask16(11) == 0x10
    ensures Mask16(12) == 8 && Mask16(13) == 4 && Mask16(14) == 2 && Mask16(15) == 1
  {
  }

  lemma MaskFacts(i: nat)
    requires i < 16
    ensures Mask16(i) & (Mask16(i) - 1) == 0
    ensures Mask16(i) >> 1 == if i < 15 then Mask16(i + 1) else 0
    ensures 0x1021 & Mask16(i) != 0 <==> i == 3 || i == 10 || i == 15
  {
    Masks();
  }

  lemma StepMask(w: bv16, m: bv16)
    requires m & (m - 1) == 0
    ensures Step(w) & m != 0 <==> (w & (m >> 1) != 0) != (w & 0x8000 != 0 && 0x1021 & m != 0)
  {
    ShiftMask(w, m);
    ExclusiveOrMask(w << 1, 0x1021, m);
  }

  lemma NextMask(w: bv16, i: nat)
    requires i < 16
    ensures w & (Mask16(i) >> 1) != 0 <==> i < 15 && Bit16(w, i + 1)
  {
    MaskFacts(i);
    if i < 15 {
      Unfolded(w, i + 1);
    } else {
      assert w & 0 == 0;
    }
  }

  lemma StepAt(w: bv16, i: nat)
    requires i < 16
    ensures Bit16(Step(w), i) == ((i < 15 && Bit16(w, i + 1)) != (Bit16(w, 0) && (i == 3 || i == 10 || i == 15)))
  {
    MaskFacts(i);
    StepMask(w, Mask16(i));
    NextMask(w, i);
    Unfolded(Step(w), i);
    Unfolded(w, 0);
  }

  lemma Unfolded(w: bv16, i: nat)
    ensures Bit16(w, i) <==> w & Mask16(i) != 0
  {
  }

  lemma StepBits(w: bv16)
    ensures Bits16(Step(w)) == Cancel(Bits16(w) + [false])
  {
    forall i | 0 <= i < 16 ensures Bits16(Step(w))[i] == Cancel(Bits16(w) + [false])[i] {
      StepAt(w, i);
      CancelAt(Bits16(w) + [false], i);
    }
  }

  lemma {:induction false} StepsDivide(w: bv16, n: nat)
    requires n > 0
    ensures LongDiv(Bits16(w) + NoBits(n)) == LongDiv(Bits16(Step(w)) + NoBits(n - 1))
  {
    StepBits(w);
    assert Cancel(Bits16(w) + NoBits(n)) == Cancel(Bits16(w) + [false]) + NoBits(n - 1);
  }

  lemma Step8Divides(w: bv16)
    ensures LongDiv(Bits16(w) + NoBits(8)) == Bits16(Step8(w))
  {
    StepsDivide(w, 8);
    StepsDivide(Step(w), 7);
    StepsDivide(Step(Step(w)), 6);
    StepsDivide(Step(Step(Step(w))), 5);
    StepsDivide(Step(Step(Step(Step(w)))), 4);
    StepsDivide(Step(Step(Step(Step(Step(w))))), 3);
    StepsDivide(Step(Step(Step(Step(Step(Step(w)))))), 2);
    StepsDivide(Step(Step(Step(Step(Step(Step(Step(w))))))), 1);
    assert Bits16(Step8(w)) + NoBits(0) == Bits16(Step8(w));
  }

  /** Entry `i` of the table is the remainder of the byte `i` times x^16. */
  lemma TableIsDivision(i: bv8)
    ensures Bits16(Table(i)) == LongDiv(Bits8(i) + NoBits(16))
  {
    TableIsRemainder(i);
    Step8Divides((i as bv16) << 8);
    ByteOnTop(i);
    assert Bits8(i) + NoBits(8) + NoBits(8) == Bits8(i) + NoBits(16);
  }

  lemma Halves(w: bv16, m: bv8)
    ensures w & ((m as bv16) << 8) != 0 <==> ((w >> 8) as bv8) & m != 0
    ensures w & (m as bv16) != 0 <==> ((w & 0xff) as bv8) & m != 0
  {
  }

  lemma HalfMasks(i: nat)
    requires i < 8
    ensures Mask16(i) == (Mask8(i) as bv16) << 8 && Mask16(i + 8) == Mask8(i) as bv16
  {
    Masks();
  }

  lemma HighAt(w: bv16, i: nat)
    requires i < 8
    ensures Bit16(w, i) == Bit8((w >> 8) as bv8, i)
  {
    HalfMasks(i);
    Halves(w, Mask8(i));
    Unfolded(w, i);
  }

  lemma LowAt(w: bv16, i: nat)
    requires i < 8
    ensures Bit16(w, i + 8) == Bit8((w & 0xff) as bv8, i)
  {
    HalfMasks(i);
    Halves(w, Mask8(i));
    Unfolded(w, i + 8);
  }

  /** A word is its upper byte followed by its lower byte. */
  lemma TwoBytes(w: bv16)
    ensures Bits16(w) == Bits8((w >> 8) as bv8) + Bits8((w & 0xff) as bv8)
  {
    forall i | 0 <= i < 16
      ensures Bits16(w)[i] == (Bits8((w >> 8) as bv8) + Bits8((w & 0xff) as bv8))[i]
    {
      if i < 8 { HighAt(w, i); } else { LowAt(w, i - 8); }
    }
  }

  lemma ZeroByte()
    ensures Bits8(0) == NoBits(8)
  {
  }

  lemma ByteOnTop(i: bv8)
    ensures Bits16((i as bv16) << 8) == Bits8(i) + NoBits(8)
  {
    TwoBytes((i as bv16) << 8);
    ZeroByte();
  }

  // ------------------------------------------------------------------------- the CRC

  /** The update of the register by one byte. */
  function TableStep(table: bv8 -> bv16, r: bv16, b: byte): bv16 {
    (r << 8) ^ table(((r >> 8) as bv8) ^ b)
  }

  /** The register after all of `data`. */
  function Register(table: bv8 -> bv16, data: seq<byte>): bv16 {
    if data == [] then 0 else TableStep(table, Register(table, data[..|data| - 1]), data[|data| - 1])
  }

  function Crc(data: seq<byte>): bv16 { Register(Table, data) }

  /** `uni_can_protoplexer_crc16`: the loop over the bytes. */
  method Compute(data: seq<byte>) returns (r: bv16)
    ensures r == Crc(data)
  {
    r := 0;
    for i := 0 to |data|
      invariant r == Crc(data[..i])
    {
      assert data[..i + 1][..i] == data[..i];
      r := TableStep(Table, r, data[i]);
    }
    assert data[..|data|] == data;
  }

  lemma ExclusiveOrMask8(a: bv8, b: bv8, m: bv8)
    requires m & (m - 1) == 0
    ensures (a ^ b) & m != 0 <==> (a & m != 0) != (b & m != 0)
  {
  }

  lemma Mask8Single(i: nat)
    ensures Mask8(i) & (Mask8(i) - 1) == 0
  {
  }

  lemma ExclusiveOr8(a: bv8, b: bv8)
    ensures Bits8(a ^ b) == Plus(Bits8(a), Bits8(b))
  {
    forall i | 0 <= i < 8 ensures Bits8(a ^ b)[i] == Plus(Bits8(a), Bits8(b))[i] {
      Mask8Single(i);
      ExclusiveOrMask8(a, b, Mask8(i));
    }
  }

  lemma ExclusiveOr16(a: bv16, b: bv16)
    ensures Bits16(a ^ b) == Plus(Bits16(a), Bits16(b))
  {
    forall i | 0 <= i < 16 ensures Bits16(a ^ b)[i] == Plus(Bits16(a), Bits16(b))[i] {
      MaskFacts(i);
      ExclusiveOrMask(a, b, Mask16(i));
    }
  }

  lemma ShiftedWord(r: bv16)
    ensures Bits16(r << 8) == Bits16(r)[8..] + NoBits(8)
  {
    assert ((r << 8) >> 8) as bv8 == (r & 0xff) as bv8 && ((r << 8) & 0xff) as bv8 == 0;
    TwoBytes(r << 8);
    TwoBytes(r);
    ZeroByte();
  }

  lemma UpperByte(r: bv16)
    ensures Bits8((r >> 8) as bv8) == Bits16(r)[..8]
  {
    TwoBytes(r);
  }

  lemma EntryDivides(r: bv16, b: byte, i: bv8, t: bv16, s: bv16)
    requires s == (r << 8) ^ t
    requires i == ((r >> 8) as bv8) ^ b && Bits16(t) == LongDiv(Bits8(i) + NoBits(16))
    ensures Bits16(s) == LongDiv(Plus(Bits16(r) + NoBits(8), Bits8(b) + NoBits(16)))
  {
    ExclusiveOr16(r << 8, t);
    ShiftedWord(r);
    UpperByte(r);
    ExclusiveOr8((r >> 8) as bv8, b);
    DivideByte(Bits16(r), Bits8(b), Bits8(i));
  }

  /** Every entry is the remainder of its index times x^16. */
  ghost predicate DividesBytes(table: bv8 -> bv16) {
    forall i :: Bits16(table(i)) == LongDiv(Bits8(i) + NoBits(16))
  }

  /** A look-up divides on by one byte: with `r` the remainder so far, the new
      register is the remainder of `r` followed by the byte. */
  lemma TableStepDivides(table: bv8 -> bv16, r: bv16, b: byte)
    requires DividesBytes(table)
    ensures Bits16(TableStep(table, r, b)) == LongDiv(Plus(Bits16(r) + NoBits(8), Bits8(b) + NoBits(16)))
  {
    var i := ((r >> 8) as bv8) ^ b;
    EntryDivides(r, b, i, table(i), TableStep(table, r, b));
  }

  lemma DivideByte(r: Bits, b: Bits, i: Bits)
    requires |r| == 16 && |b| == 8 && i == Plus(r[..8], b)
    ensures Plus(r[8..] + NoBits(8), LongDiv(i + NoBits(16))) == LongDiv(Plus(r + NoBits(8), b + NoBits(16)))
  {
    var high, low := i + NoBits(16), NoBits(8) + (r[8..] + NoBits(8));
    RemainderOfSum(low, high);
    LeadingZeros(8, r[8..] + NoBits(8));
    assert Plus(low, high) == Plus(r + NoBits(8), b + NoBits(16));
  }

  /** The remainder of a longer message from the remainder so far. */
  lemma ExtendMessage(m: Bits, b: Bits)
    requires |b| == 8
    ensures LongDiv(m + b + NoBits(16)) == LongDiv(Plus(LongDiv(m + NoBits(16)) + NoBits(8), b + NoBits(16)))
  {
    var r := LongDiv(m + NoBits(16));
    var whole, tail := m + NoBits(16) + NoBits(8), NoBits(|m|) + (b + NoBits(16));
    assert m + b + NoBits(16) == Plus(whole, tail);
    RemainderOfSum(whole, tail);
    LeadingZeros(|m|, b + NoBits(16));
    DivideInPieces(m + NoBits(16), NoBits(8));
    RemainderOfSum(r + NoBits(8), b + NoBits(16));
  }

  lemma {:induction false} RegisterIsRemainder(table: bv8 -> bv16, data: seq<byte>)
    requires DividesBytes(table)
    ensures Bits16(Register(table, data)) == LongDiv(BitsOf(data) + NoBits(16))
  {
    if data == [] {
      assert BitsOf(data) + NoBits(16) == NoBits(16);
      ZeroWord();
    } else {
      var init, b := data[..|data| - 1], data[|data| - 1];
      RegisterIsRemainder(table, init);
      TableStepDivides(table, Register(table, init), b);
      ExtendMessage(BitsOf(init), Bits8(b));
    }
  }

  /** The table-driven CRC is the remainder of message times x^16. */
  lemma CrcIsRemainder(data: seq<byte>)
    ensures Bits16(Crc(data)) == LongDiv(BitsOf(data) + NoBits(16))
  {
    forall i ensures Bits16(Table(i)) == LongDiv(Bits8(i) + NoBits(16)) {
      TableIsDivision(i);
    }
    RegisterIsRemainder(Table, data);
  }

  lemma ZeroWord()
    ensures Bits16(0) == NoBits(16)
  {
  }

  // --------------------------------------------------------------------- burst errors

  /** The generator has a constant term, so a non-zero register never becomes
      zero by dividing on. */
  lemma {:induction false} NeverZero(w: Bits, n: nat)
    requires |w| == 16 && w != NoBits(16)
    ensures LongDiv(w + NoBits(n)) != NoBits(16)
    decreases n
  {
    if n == 0 {
      assert w + NoBits(0) == w;
    } else {
      var v := Cancel(w + [false]);
      assert Cancel(w + NoBits(n)) == v + NoBits(n - 1);
      if w[0] {
        assert v[15];
      } else {
        var i :| 0 < i < 16 && w[i];
        assert v[i - 1];
      }
      NeverZero(v, n - 1);
    }
  }

  /** The messages differ, and only in bits `k` to `k + 15`. */
  ghost predicate BurstAt(d: seq<byte>, e: seq<byte>, k: nat) {
    && |d| == |e| && d != e
    && forall i :: 0 <= i < 8 * |d| && !(k <= i < k + 16) ==> BitsOf(d)[i] == BitsOf(e)[i]
  }

  lemma Bits8Injective(a: bv8, b: bv8)
    requires Bits8(a) == Bits8(b)
    ensures a == b
  {
    assert Bits8(a)[0] == Bits8(b)[0] && Bits8(a)[1] == Bits8(b)[1];
    assert Bits8(a)[2] == Bits8(b)[2] && Bits8(a)[3] == Bits8(b)[3];
    assert Bits8(a)[4] == Bits8(b)[4] && Bits8(a)[5] == Bits8(b)[5];
    assert Bits8(a)[6] == Bits8(b)[6] && Bits8(a)[7] == Bits8(b)[7];
  }

  lemma {:induction false} BitsInjective(d: seq<byte>, e: seq<byte>)
    requires |d| == |e| && BitsOf(d) == BitsOf(e)
    ensures d == e
  {
    if d != [] {
      var n := |d| - 1;
      var x, y := BitsOf(d[..n]), BitsOf(e[..n]);
      assert x == BitsOf(d)[..8 * n] == BitsOf(e)[..8 * n] == y;
      assert Bits8(d[n]) == BitsOf(d)[8 * n..] == BitsOf(e)[8 * n..] == Bits8(e[n]);
      BitsInjective(d[..n], e[..n]);
      Bits8Injective(d[n], e[n]);
    }
  }

  lemma BurstChangesRemainder(p: Bits, q: Bits, k: nat)
    requires |p| == |q| && p != q
    requires forall i :: 0 <= i < |p| && !(k <= i < k + 16) ==> p[i] == q[i]
    ensures LongDiv(p + NoBits(16)) != LongDiv(q + NoBits(16))
  {
    var a, b := p + NoBits(16), q + NoBits(16);
    var x := Plus(a, b);
    RemainderOfSum(a, b);
    var i :| 0 <= i < |p| && p[i] != q[i];
    assert x[i];
    WindowNotZero(x, k, i);
    EqualCancels(LongDiv(a), LongDiv(b));
  }

  lemma EqualCancels(r: Bits, s: Bits)
    requires |r| == |s| == 16 && Plus(r, s) != NoBits(16)
    ensures r != s
  {
  }

  lemma WindowNotZero(x: Bits, k: nat, i: nat)
    requires k <= i < k + 16 <= |x| && x[i]
    requires forall j :: 0 <= j < |x| && !(k <= j < k + 16) ==> !x[j]
    ensures LongDiv(x) != NoBits(16)
  {
    var w, n := x[k..k + 16], |x| - k - 16;
    assert w[i - k];
    assert x == NoBits(k) + (w + NoBits(n));
    LeadingZeros(k, w + NoBits(n));
    NeverZero(w, n);
  }

  /** Every change confined to 16 consecutive bits changes the CRC. */
  lemma BurstDetected(d: seq<byte>, e: seq<byte>, k: nat)
    requires BurstAt(d, e, k)
    ensures Crc(d) != Crc(e)
  {
    CrcIsRemainder(d);
    CrcIsRemainder(e);
    if BitsOf(d) == BitsOf(e) { BitsInjective(d, e); }
    BurstChangesRemainder(BitsOf(d), BitsOf(e), k);
  }
}
