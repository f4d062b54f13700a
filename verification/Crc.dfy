/**
 * CRC-32 (section 8 of RFC 1952), as the hasher of `generate_fingerprint` computes it: a 32-bit
 * register fed byte by byte. The register is written out bit by bit, lowest bit first.
 */
module Crc {
  import opened Types

  function Repeat(bit: bool, k: nat): (s: seq<bool>)
    ensures |s| == k
    ensures forall i :: 0 <= i < k ==> s[i] == bit
  {
    if k == 0 then [] else [bit] + Repeat(bit, k - 1)
  }

  type Register = s: seq<bool> | |s| == 32 witness Repeat(false, 32)

  const ZERO: Register := Repeat(false, 32)
  const ONES: Register := Repeat(true, 32)

  /** The reflected polynomial 0xEDB88320. */
  const POLYNOMIAL: Register := [
    false, false, false, false, false, true, false, false,
    true, true, false, false, false, false, false, true,
    false, false, false, true, true, true, false, true,
    true, false, true, true, false, true, true, true
  ]

  function Xor(a: Register, b: Register): Register {
    seq(32, i requires 0 <= i < 32 => a[i] != b[i])
  }

  /** One bit of division by the polynomial. */
  function Shift(c: Register): Register {
    var down: Register := c[1..] + [false];
    if c[0] then Xor(down, POLYNOMIAL) else down
  }

  function Shifts(c: Register, k: nat): Register
    decreases k
  {
    if k == 0 then c else Shifts(Shift(c), k - 1)
  }

  /** The lowest `k` bits of `n`. */
  function Bits(n: nat, k: nat): (s: seq<bool>)
    ensures |s| == k
  {
    if k == 0 then [] else [n % 2 == 1] + Bits(n / 2, k - 1)
  }

  function Number(s: seq<bool>): nat {
    if s == [] then 0 else (if s[0] then 1 else 0) + 2 * Number(s[1..])
  }

  function Power2(k: nat): nat {
    if k == 0 then 1 else 2 * Power2(k - 1)
  }

  lemma Power2Values()
    ensures Power2(8) == 0x100 && Power2(32) == 0x1_0000_0000
  {
    Power2Step(8);
    Power2Step(16);
    Power2Step(24);
  }

  lemma Power2Step(k: nat)
    ensures Power2(k + 8) == 256 * Power2(k)
  {
    assert Power2(k + 2) == 4 * Power2(k);
    assert Power2(k + 4) == 16 * Power2(k);
    assert Power2(k + 6) == 64 * Power2(k);
  }

  /** A byte in the low end of an otherwise clear register. */
  function Widen(b: Byte): Register {
    Bits(b as int, 8) + ZERO[8..]
  }

  function Feed(c: Register, b: Byte): Register {
    Shifts(Xor(c, Widen(b)), 8)
  }

  /** `Hasher::update`. */
  function Update(c: Register, data: Bytes): Register
    decreases |data|
  {
    if data == [] then c else Update(Feed(c, data[0]), data[1..])
  }

  /** `Hasher::finalize`. */
  function Finalize(c: Register): U32 {
    NumberBound(Xor(c, ONES));
    Power2Values();
    Number(Xor(c, ONES))
  }

  lemma {:induction false} NumberBound(s: seq<bool>)
    ensures Number(s) < Power2(|s|)
  {
    if s != [] {
      NumberBound(s[1..]);
    }
  }

  /** The checksum of a byte string. */
  function Checksum(data: Bytes): U32 {
    Finalize(Update(ONES, data))
  }

  // Feeding in pieces.

  lemma {:induction false} UpdateInPieces(c: Register, a: Bytes, b: Bytes)
    ensures Update(c, a + b) == Update(Update(c, a), b)
    decreases |a|
  {
    if a == [] {
      assert a + b == b;
    } else {
      assert (a + b)[1..] == a[1..] + b;
      UpdateInPieces(Feed(c, a[0]), a[1..], b);
    }
  }

  // Numbers and bit strings determine each other.

  lemma {:induction false} NumberInjective(s: seq<bool>, t: seq<bool>)
    requires |s| == |t| && Number(s) == Number(t)
    ensures s == t
  {
    if s != [] {
      NumberInjective(s[1..], t[1..]);
      assert s == [s[0]] + s[1..] && t == [t[0]] + t[1..];
    }
  }

  lemma {:induction false} BitsInjective(m: nat, n: nat, k: nat)
    requires m < Power2(k) && n < Power2(k) && Bits(m, k) == Bits(n, k)
    ensures m == n
  {
    if k > 0 {
      assert Bits(m, k)[0] == Bits(n, k)[0];
      assert Bits(m, k)[1..] == Bits(m / 2, k - 1) && Bits(n, k)[1..] == Bits(n / 2, k - 1);
      BitsInjective(m / 2, n / 2, k - 1);
    }
  }

  lemma FinalizeInjective(c: Register, d: Register)
    requires Finalize(c) == Finalize(d)
    ensures c == d
  {
    NumberInjective(Xor(c, ONES), Xor(d, ONES));
    forall i | 0 <= i < 32
      ensures c[i] == d[i]
    {
      assert Xor(c, ONES)[i] == Xor(d, ONES)[i];
    }
  }

  // The register is linear in its input.

  lemma ShiftLinear(a: Register, b: Register)
    ensures Shift(Xor(a, b)) == Xor(Shift(a), Shift(b))
  {
  }

  lemma {:induction false} ShiftsLinear(a: Register, b: Register, k: nat)
    ensures Shifts(Xor(a, b), k) == Xor(Shifts(a, k), Shifts(b, k))
    decreases k
  {
    if k > 0 {
      ShiftLinear(a, b);
      ShiftsLinear(Shift(a), Shift(b), k - 1);
    }
  }

  // Shifts can be undone: the top bits of the result say which bits were shifted out.

  ghost predicate ClearFrom(c: Register, k: int) {
    forall i :: 0 <= i < 32 && k <= i ==> !c[i]
  }

  lemma {:induction false} ShiftsUndo(c: Register, k: nat)
    requires k <= 32 && ClearFrom(Shifts(c, k), 32 - k)
    ensures forall i :: 0 <= i < k ==> !c[i]
    ensures forall i :: 0 <= i < 32 - k ==> Shifts(c, k)[i] == c[i + k]
    decreases k
  {
    if k > 0 {
      ShiftsUndo(Shift(c), k - 1);
      assert Shifts(c, k)[32 - k] == Shift(c)[31];
      assert !c[0];
      forall i | 0 < i < k
        ensures !c[i]
      {
        assert c[i] == Shift(c)[i - 1];
      }
      forall i | 0 <= i < 32 - k
        ensures Shifts(c, k)[i] == c[i + k]
      {
        assert Shifts(c, k)[i] == Shift(c)[i + k - 1];
      }
    }
  }

  /** The difference two registers have after two byte strings, from the difference `c` before. */
  function Differ(c: Register, a: Bytes, b: Bytes): Register
    requires |a| == |b|
    decreases |a|
  {
    if a == [] then c
    else Differ(Shifts(Xor(c, Xor(Widen(a[0]), Widen(b[0]))), 8), a[1..], b[1..])
  }

  lemma {:induction false} DifferenceOfUpdates(c: Register, d: Register, a: Bytes, b: Bytes)
    requires |a| == |b|
    ensures Xor(Update(c, a), Update(d, b)) == Differ(Xor(c, d), a, b)
    decreases |a|
  {
    if a != [] {
      ShiftsLinear(Xor(c, Widen(a[0])), Xor(d, Widen(b[0])), 8);
      assert Xor(Xor(c, Widen(a[0])), Xor(d, Widen(b[0])))
          == Xor(Xor(c, d), Xor(Widen(a[0]), Widen(b[0])));
      DifferenceOfUpdates(Feed(c, a[0]), Feed(d, b[0]), a[1..], b[1..]);
    }
  }

  /** When up to four bytes end in no difference, the difference before them was low enough. */
  lemma {:induction false} DifferenceBefore(c: Register, a: Bytes, b: Bytes)
    requires |a| == |b| <= 4 && Differ(c, a, b) == ZERO
    ensures ClearFrom(c, 8 * |a|)
    decreases |a|
  {
    if a != [] {
      var fed := Xor(c, Xor(Widen(a[0]), Widen(b[0])));
      DifferenceBefore(Shifts(fed, 8), a[1..], b[1..]);
      ShiftsUndo(fed, 8);
      forall i | 0 <= i < 32 && 8 * |a| <= i
        ensures !c[i]
      {
        assert fed[i] == Shifts(fed, 8)[i - 8];
      }
    }
  }

  lemma {:induction false} ShiftsZero(k: nat)
    ensures Shifts(ZERO, k) == ZERO
  {
    if k > 0 {
      assert Shift(ZERO) == ZERO;
      ShiftsZero(k - 1);
    }
  }

  lemma ClearLowByte(a: Byte, b: Byte)
    requires forall i :: 0 <= i < 8 ==> !Xor(Widen(a), Widen(b))[i]
    ensures a == b && Xor(Widen(a), Widen(b)) == ZERO
  {
    var x, y := Bits(a as int, 8), Bits(b as int, 8);
    forall i | 0 <= i < 8
      ensures x[i] == y[i]
    {
      assert Widen(a)[i] == x[i] && Widen(b)[i] == y[i];
      assert !Xor(Widen(a), Widen(b))[i];
    }
    assert x == y;
    Power2Values();
    BitsInjective(a as int, b as int, 8);
  }

  lemma {:induction false} NoDifferenceAtAll(a: Bytes, b: Bytes)
    requires |a| == |b| <= 4 && Differ(ZERO, a, b) == ZERO
    ensures a == b
    decreases |a|
  {
    if a != [] {
      var fed := Xor(Widen(a[0]), Widen(b[0]));
      assert Xor(ZERO, fed) == fed;
      DifferenceBefore(Shifts(fed, 8), a[1..], b[1..]);
      ShiftsUndo(fed, 8);
      ClearLowByte(a[0], b[0]);
      ShiftsZero(8);
      NoDifferenceAtAll(a[1..], b[1..]);
      assert a == [a[0]] + a[1..] && b == [b[0]] + b[1..];
    }
  }

  /** Eight shifts lose nothing. */
  lemma ShiftsInjective(x: Register, y: Register)
    requires Shifts(x, 8) == Shifts(y, 8)
    ensures x == y
  {
    hide Shifts;
    ShiftsLinear(x, y, 8);
    assert Xor(Shifts(x, 8), Shifts(y, 8)) == ZERO;
    ShiftsUndo(Xor(x, y), 8);
    forall i | 0 <= i < 32
      ensures x[i] == y[i]
    {
      assert i >= 8 ==> Shifts(Xor(x, y), 8)[i - 8] == Xor(x, y)[i];
      assert !Xor(x, y)[i];
    }
  }

  lemma FeedInjective(c: Register, d: Register, b: Byte)
    requires Feed(c, b) == Feed(d, b)
    ensures c == d
  {
    hide Shifts, Bits;
    var x, y := Xor(c, Widen(b)), Xor(d, Widen(b));
    ShiftsInjective(x, y);
    forall i | 0 <= i < 32
      ensures c[i] == d[i]
    {
      assert x[i] == y[i];
    }
  }

  lemma {:induction false} SameTailSameRegister(c: Register, d: Register, tail: Bytes)
    requires Update(c, tail) == Update(d, tail)
    ensures c == d
    decreases |tail|
  {
    hide Feed;
    if tail != [] {
      SameTailSameRegister(Feed(c, tail[0]), Feed(d, tail[0]), tail[1..]);
      FeedInjective(c, d, tail[0]);
    }
  }

  /** A change confined to four consecutive bytes always changes the checksum. */
  lemma BurstDetected(head: Bytes, a: Bytes, b: Bytes, tail: Bytes)
    requires |a| == |b| <= 4 && a != b
    ensures Checksum(head + a + tail) != Checksum(head + b + tail)
  {
    var c := Update(ONES, head);
    UpdateInPieces(ONES, head + a, tail);
    UpdateInPieces(ONES, head, a);
    UpdateInPieces(ONES, head + b, tail);
    UpdateInPieces(ONES, head, b);
    if Checksum(head + a + tail) == Checksum(head + b + tail) {
      FinalizeInjective(Update(ONES, head + a + tail), Update(ONES, head + b + tail));
      SameTailSameRegister(Update(c, a), Update(c, b), tail);
      DifferenceOfUpdates(c, c, a, b);
      assert Xor(c, c) == ZERO && Xor(Update(c, a), Update(c, b)) == ZERO;
      NoDifferenceAtAll(a, b);
      assert false;
    }
  }
}
