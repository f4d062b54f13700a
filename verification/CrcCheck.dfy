/**
 * The CRC-32 register in hexadecimal: the same algorithm on eight digits, and with it the check
 * value by which implementations of CRC-32 are compared.
 */
module CrcCheck {
  import opened Types
  import opened Crc

  type Digit = n: nat | n < 16

  /** Eight hexadecimal digits, the highest first. */
  datatype Hex = Hex(a: Digit, b: Digit, c: Digit, d: Digit, e: Digit, f: Digit, g: Digit, h: Digit)

  const POLY := Hex(0xE, 0xD, 0xB, 0x8, 0x8, 0x3, 0x2, 0x0)
  const START := Hex(0xF, 0xF, 0xF, 0xF, 0xF, 0xF, 0xF, 0xF)

  /** Digit `j`, counted from the lowest. */
  function DigitAt(x: Hex, j: nat): Digit {
    if j == 0 then x.h else if j == 1 then x.g else if j == 2 then x.f else if j == 3 then x.e
    else if j == 4 then x.d else if j == 5 then x.c else if j == 6 then x.b else if j == 7 then x.a else 0
  }

  /** Bit `k` of a digit. */
  predicate BitAt(n: Digit, k: nat) {
    if k == 0 then n % 2 == 1 else if k == 1 then n / 2 % 2 == 1 else if k == 2 then n / 4 % 2 == 1 else n / 8 == 1
  }

  /** The register with these digits, lowest bit first. */
  function RegisterOf(x: Hex): Register {
    seq(32, i requires 0 <= i < 32 => BitAt(DigitAt(x, i / 4), i % 4))
  }

  function MixDigits(m: Digit, n: Digit): Digit {
    (if m % 2 != n % 2 then 1 else 0) + (if m / 2 % 2 != n / 2 % 2 then 2 else 0)
    + (if m / 4 % 2 != n / 4 % 2 then 4 else 0) + (if m / 8 != n / 8 then 8 else 0)
  }

  function Mix(x: Hex, y: Hex): Hex {
    Hex(MixDigits(x.a, y.a), MixDigits(x.b, y.b), MixDigits(x.c, y.c), MixDigits(x.d, y.d),
        MixDigits(x.e, y.e), MixDigits(x.f, y.f), MixDigits(x.g, y.g), MixDigits(x.h, y.h))
  }

  /** A digit shifted down, with the lowest bit of the digit above it coming in. */
  function Down(above: Digit, n: Digit): Digit {
    n / 2 + 8 * (above % 2)
  }

  function Half(x: Hex): Hex {
    Hex(x.a / 2, Down(x.a, x.b), Down(x.b, x.c), Down(x.c, x.d),
        Down(x.d, x.e), Down(x.e, x.f), Down(x.f, x.g), Down(x.g, x.h))
  }

  function Next(x: Hex): Hex {
    if x.h % 2 == 1 then Mix(Half(x), POLY) else Half(x)
  }

  function Nexts(x: Hex, k: nat): Hex
    decreases k
  {
    if k == 0 then x else Nexts(Next(x), k - 1)
  }

  function FeedHex(x: Hex, b: Byte): Hex {
    var n: nat := b as int;
    Nexts(Mix(x, Hex(0, 0, 0, 0, 0, 0, n / 16, n % 16)), 8)
  }

  function UpdateHex(x: Hex, data: Bytes): Hex
    decreases |data|
  {
    if data == [] then x else UpdateHex(FeedHex(x, data[0]), data[1..])
  }

  /** The number that the digits from `j` on write. */
  function ValueFrom(x: Hex, j: nat): nat
    decreases 8 - j
  {
    if j >= 8 then 0 else DigitAt(x, j) + 16 * ValueFrom(x, j + 1)
  }

  lemma MixBit(m: Digit, n: Digit, k: nat)
    requires k < 4
    ensures BitAt(MixDigits(m, n), k) <==> BitAt(m, k) != BitAt(n, k)
  {
    var b0, b1 := m % 2 != n % 2, m / 2 % 2 != n / 2 % 2;
    var b2, b3 := m / 4 % 2 != n / 4 % 2, m / 8 != n / 8;
    BitsOfSum(b0, b1, b2, b3);
  }

  lemma BitsOfSum(b0: bool, b1: bool, b2: bool, b3: bool)
    ensures var n := (if b0 then 1 else 0) + (if b1 then 2 else 0) + (if b2 then 4 else 0) + (if b3 then 8 else 0);
            (BitAt(n, 0) <==> b0) && (BitAt(n, 1) <==> b1) && (BitAt(n, 2) <==> b2) && (BitAt(n, 3) <==> b3)
  {
  }

  lemma MixIsXor(x: Hex, y: Hex)
    ensures RegisterOf(Mix(x, y)) == Xor(RegisterOf(x), RegisterOf(y))
  {
    forall i | 0 <= i < 32
      ensures RegisterOf(Mix(x, y))[i] == Xor(RegisterOf(x), RegisterOf(y))[i]
    {
      hide MixDigits, BitAt;
      assert MixDigits(0, 0) == 0 by { MixZero(); }
      MixBit(DigitAt(x, i / 4), DigitAt(y, i / 4), i % 4);
      assert DigitAt(Mix(x, y), i / 4) == MixDigits(DigitAt(x, i / 4), DigitAt(y, i / 4));
    }
  }

  lemma MixZero()
    ensures MixDigits(0, 0) == 0
  {
  }

  lemma DownBit(above: Digit, n: Digit, k: nat)
    requires k < 4
    ensures BitAt(Down(above, n), k) <==> if k < 3 then BitAt(n, k + 1) else BitAt(above, 0)
  {
    DigitFromBits(n);
    BitsOfSum(BitAt(n, 1), BitAt(n, 2), BitAt(n, 3), BitAt(above, 0));
    assert above % 2 == if BitAt(above, 0) then 1 else 0;
    hide BitAt;
    HalfOf((if BitAt(n, 1) then 1 else 0) + (if BitAt(n, 2) then 2 else 0) + (if BitAt(n, 3) then 4 else 0),
           if BitAt(n, 0) then 1 else 0);
  }

  lemma HalfOf(q: nat, r: nat)
    ensures (2 * q + r) / 2 == q + r / 2 && (2 * q + r) % 2 == r % 2
  {
  }

  lemma HalfDigit(x: Hex, j: nat)
    requires j < 8
    ensures DigitAt(Half(x), j) == Down(DigitAt(x, j + 1), DigitAt(x, j))
  {
  }

  lemma HalfIsDown(x: Hex)
    ensures RegisterOf(Half(x)) == RegisterOf(x)[1..] + [false]
    ensures RegisterOf(x)[0] <==> x.h % 2 == 1
  {
    forall i | 0 <= i < 32
      ensures RegisterOf(Half(x))[i] == (RegisterOf(x)[1..] + [false])[i]
    {
      HalfDigit(x, i / 4);
      DownBit(DigitAt(x, i / 4 + 1), DigitAt(x, i / 4), i % 4);
      if i == 31 {
        assert DigitAt(x, 8) == 0;
      } else {
        assert (RegisterOf(x)[1..] + [false])[i] == RegisterOf(x)[i + 1];
        assert (i + 1) / 4 == if i % 4 == 3 then i / 4 + 1 else i / 4;
        assert (i + 1) % 4 == if i % 4 == 3 then 0 else i % 4 + 1;
      }
    }
  }

  lemma PolynomialInHex()
    ensures RegisterOf(POLY) == POLYNOMIAL && RegisterOf(START) == ONES
  {
  }

  lemma NextIsShift(x: Hex)
    ensures RegisterOf(Next(x)) == Shift(RegisterOf(x))
  {
    hide RegisterOf, Half, Mix;
    HalfIsDown(x);
    MixIsXor(Half(x), POLY);
    PolynomialInHex();
  }

  lemma TwoBits(n: nat, k: nat)
    ensures Bits(n, k + 2) == [n % 2 == 1, n / 2 % 2 == 1] + Bits(n / 4, k)
  {
    assert Bits(n / 2, k + 1) == [n / 2 % 2 == 1] + Bits(n / 4, k);
  }

  lemma FourBits(n: nat, k: nat)
    ensures Bits(n, k + 4) == [n % 2 == 1, n / 2 % 2 == 1, n / 4 % 2 == 1, n / 4 / 2 % 2 == 1] + Bits(n / 16, k)
  {
    TwoBits(n, k + 2);
    TwoBits(n / 4, k);
    assert n / 4 / 4 == n / 16;
    hide Bits;
  }

  lemma LowDigit(n: nat, k: nat)
    requires k < 4
    ensures BitAt(n % 16, k) <==> [n % 2 == 1, n / 2 % 2 == 1, n / 4 % 2 == 1, n / 4 / 2 % 2 == 1][k]
  {
    var low, high := n % 16, n / 16;
    HalfOf(8 * high, low);
    HalfOf(4 * high, low / 2);
    Quarter(n);
    Quarter(low);
    HalfOf(2 * high, low / 4);
    HalfOf(high, low / 8);
    assert low / 4 / 2 == low / 8;
  }

  lemma Quarter(n: nat)
    ensures n / 2 / 2 == n / 4
  {
  }

  lemma WidenBit(b: Byte, i: nat)
    requires i < 32
    ensures var n: nat := b as int;
            Widen(b)[i] == if i < 4 then BitAt(n % 16, i) else if i < 8 then BitAt(n / 16, i - 4) else false
  {
    hide BitAt, Bits, Repeat;
    var n: nat := b as int;
    FourBits(n, 4);
    FourBits(n / 16, 0);
    if i < 4 {
      LowDigit(n, i);
    } else if i < 8 {
      LowDigit(n / 16, i - 4);
      assert n / 16 % 16 == n / 16;
    }
  }

  lemma ByteInHex(b: Byte)
    ensures var n: nat := b as int;
            RegisterOf(Hex(0, 0, 0, 0, 0, 0, n / 16, n % 16)) == Widen(b)
  {
    var n: nat := b as int;
    var x := Hex(0, 0, 0, 0, 0, 0, n / 16, n % 16);
    forall i | 0 <= i < 32
      ensures RegisterOf(x)[i] == Widen(b)[i]
    {
      hide Widen;
      WidenBit(b, i);
      assert i / 4 >= 2 ==> DigitAt(x, i / 4) == 0 && !BitAt(0, i % 4);
    }
  }

  lemma {:induction false} NextsAreShifts(x: Hex, k: nat)
    ensures RegisterOf(Nexts(x, k)) == Shifts(RegisterOf(x), k)
    decreases k
  {
    hide RegisterOf, Next, Shift;
    if k > 0 {
      NextIsShift(x);
      NextsAreShifts(Next(x), k - 1);
    }
  }

  lemma FeedInHex(x: Hex, b: Byte)
    ensures RegisterOf(FeedHex(x, b)) == Feed(RegisterOf(x), b)
  {
    hide Nexts, Mix, RegisterOf, Shifts, Widen;
    var n: nat := b as int;
    var digits := Hex(0, 0, 0, 0, 0, 0, n / 16, n % 16);
    MixIsXor(x, digits);
    ByteInHex(b);
    NextsAreShifts(Mix(x, digits), 8);
  }

  lemma {:induction false} UpdateInHex(x: Hex, data: Bytes)
    ensures RegisterOf(UpdateHex(x, data)) == Update(RegisterOf(x), data)
    decreases |data|
  {
    hide RegisterOf, FeedHex, Feed;
    if data != [] {
      FeedInHex(x, data[0]);
      UpdateInHex(FeedHex(x, data[0]), data[1..]);
    }
  }

  lemma DigitFromBits(n: Digit)
    ensures n == (if BitAt(n, 0) then 1 else 0) + (if BitAt(n, 1) then 2 else 0)
              + (if BitAt(n, 2) then 4 else 0) + (if BitAt(n, 3) then 8 else 0)
  {
  }

  lemma FourNumber(s: seq<bool>, n: Digit)
    requires |s| >= 4 && forall k :: 0 <= k < 4 ==> s[k] == BitAt(n, k)
    ensures Number(s) == n + 16 * Number(s[4..])
  {
    DigitFromBits(n);
    assert s[1..][1..] == s[2..] && s[2..][1..] == s[3..] && s[3..][1..] == s[4..];
    hide BitAt;
    assert Number(s[3..]) == (if BitAt(n, 3) then 1 else 0) + 2 * Number(s[4..]);
    assert Number(s[2..]) == (if BitAt(n, 2) then 1 else 0) + 2 * Number(s[3..]);
    assert Number(s[1..]) == (if BitAt(n, 1) then 1 else 0) + 2 * Number(s[2..]);
  }

  lemma {:induction false} NumberFrom(x: Hex, j: nat)
    requires j <= 8
    ensures Number(RegisterOf(x)[4 * j..]) == ValueFrom(x, j)
    decreases 8 - j
  {
    if j < 8 {
      hide BitAt;
      var s := RegisterOf(x)[4 * j..];
      FourNumber(s, DigitAt(x, j));
      assert s[4..] == RegisterOf(x)[4 * (j + 1)..];
      NumberFrom(x, j + 1);
    }
  }

  /** The checksum in hexadecimal. */
  function ChecksumHex(data: Bytes): Hex {
    Mix(UpdateHex(START, data), START)
  }

  /** Both ways of computing agree on every input. */
  lemma ChecksumInHex(data: Bytes)
    ensures Checksum(data) == ValueFrom(ChecksumHex(data), 0)
  {
    hide RegisterOf, Mix, UpdateHex, Update, ValueFrom;
    PolynomialInHex();
    UpdateInHex(START, data);
    MixIsXor(UpdateHex(START, data), START);
    NumberFrom(ChecksumHex(data), 0);
    assert RegisterOf(ChecksumHex(data))[0..] == RegisterOf(ChecksumHex(data));
  }

  // The register after the letter a, shift by shift.

  const LETTER_0 := Hex(0xF, 0xF, 0xF, 0xF, 0xF, 0xF, 0x9, 0xE)
  const LETTER_1 := Hex(0x7, 0xF, 0xF, 0xF, 0xF, 0xF, 0xC, 0xF)
  const LETTER_2 := Hex(0xD, 0x2, 0x4, 0x7, 0x7, 0xC, 0xC, 0x7)
  const LETTER_3 := Hex(0x8, 0x4, 0x9, 0xB, 0x3, 0xD, 0x4, 0x3)
  const LETTER_4 := Hex(0xA, 0xF, 0xF, 0x5, 0x1, 0xD, 0x8, 0x1)
  const LETTER_5 := Hex(0xB, 0xA, 0x4, 0x2, 0x0, 0xD, 0xE, 0x0)
  const LETTER_6 := Hex(0x5, 0xD, 0x2, 0x1, 0x0, 0x6, 0xF, 0x0)
  const LETTER_7 := Hex(0x2, 0xE, 0x9, 0x0, 0x8, 0x3, 0x7, 0x8)
  const LETTER_8 := Hex(0x1, 0x7, 0x4, 0x8, 0x4, 0x1, 0xB, 0xC)

  lemma Shifts0To2()
    ensures Next(LETTER_0) == LETTER_1 && Next(LETTER_1) == LETTER_2
  {
    assert Half(LETTER_0) == Hex(0x7, 0xF, 0xF, 0xF, 0xF, 0xF, 0xC, 0xF);
    assert Half(LETTER_1) == Hex(0x3, 0xF, 0xF, 0xF, 0xF, 0xF, 0xE, 0x7);
  }

  lemma Shifts2To4()
    ensures Next(LETTER_2) == LETTER_3 && Next(LETTER_3) == LETTER_4
  {
    assert Half(LETTER_2) == Hex(0x6, 0x9, 0x2, 0x3, 0xB, 0xE, 0x6, 0x3);
    assert Half(LETTER_3) == Hex(0x4, 0x2, 0x4, 0xD, 0x9, 0xE, 0xA, 0x1);
  }

  lemma Shifts4To6()
    ensures Next(LETTER_4) == LETTER_5 && Next(LETTER_5) == LETTER_6
  {
    assert Half(LETTER_4) == Hex(0x5, 0x7, 0xF, 0xA, 0x8, 0xE, 0xC, 0x0);
    assert Half(LETTER_5) == Hex(0x5, 0xD, 0x2, 0x1, 0x0, 0x6, 0xF, 0x0);
  }

  lemma Shifts6To8()
    ensures Next(LETTER_6) == LETTER_7 && Next(LETTER_7) == LETTER_8
  {
    assert Half(LETTER_6) == Hex(0x2, 0xE, 0x9, 0x0, 0x8, 0x3, 0x7, 0x8);
    assert Half(LETTER_7) == Hex(0x1, 0x7, 0x4, 0x8, 0x4, 0x1, 0xB, 0xC);
  }

  lemma LetterStarts()
    ensures Mix(START, Hex(0, 0, 0, 0, 0, 0, 6, 1)) == LETTER_0
  {
  }

  lemma {:induction false} NextsAlong(xs: seq<Hex>, k: nat)
    requires |xs| > 0 && k < |xs| && forall i :: 0 <= i < |xs| - 1 ==> Next(xs[i]) == xs[i + 1]
    ensures Nexts(xs[|xs| - 1 - k], k) == xs[|xs| - 1]
  {
    hide Next;
    if k > 0 {
      NextsAlong(xs, k - 1);
      assert Next(xs[|xs| - 1 - k]) == xs[|xs| - k];
    }
  }

  /** Eight shifts in a row are what feeding a byte does. */
  lemma FedBy(x: Hex, b: Byte, xs: seq<Hex>)
    requires |xs| == 9 && forall i :: 0 <= i < 8 ==> Next(xs[i]) == xs[i + 1]
    requires var n: nat := b as int;
             Mix(x, Hex(0, 0, 0, 0, 0, 0, n / 16, n % 16)) == xs[0]
    ensures FeedHex(x, b) == xs[8]
  {
    hide Next, Mix, Nexts;
    NextsAlong(xs, 8);
    assert xs[8 - 8] == xs[0];
  }

  lemma LetterFed()
    ensures FeedHex(START, 0x61) == LETTER_8
  {
    hide FeedHex, Next, Mix;
    LetterStarts();
    Shifts0To2();
    Shifts2To4();
    Shifts4To6();
    Shifts6To8();
    FedBy(START, 0x61, [LETTER_0, LETTER_1, LETTER_2, LETTER_3, LETTER_4, LETTER_5, LETTER_6, LETTER_7, LETTER_8]);
  }

  /** Check values: the empty string and the letter a. */
  lemma CheckValues()
    ensures Checksum([]) == 0 && Checksum([0x61]) == 0xE8B7BE43
  {
    hide FeedHex, Checksum;
    LetterFed();
    ChecksumInHex([]);
    ChecksumInHex([0x61]);
    assert UpdateHex(START, [0x61]) == LETTER_8;
    assert ChecksumHex([0x61]) == Hex(0xE, 0x8, 0xB, 0x7, 0xB, 0xE, 0x4, 0x3);
    assert ChecksumHex([]) == Hex(0, 0, 0, 0, 0, 0, 0, 0);
  }
}
