/**
 CRC-32 of IEEE Std 802.3, clause 3.2.9. The reference is the bit-serial division register;
 the byte-at-a-time loop of src/hash.cpp is proved equal to it, to chain, and to notice every
 corruption confined to four consecutive bytes.
 */
module Crc32 {
  import opened Basics

  type Word = bv32

  const POLY: Word := 0xEDB88320
  const ONES: Word := 0xFFFFFFFF

  function Xor(x: Word, y: Word): Word { x ^ y }

  function Half(x: Word): Word { x >> 1 }

  predicate Odd(x: Word) { x & 1 == 1 }

  function Pack(bit: bool, rest: Word): Word { (rest << 1) | (if bit then 1 else 0) }

  /** The low `count` bits of a number as a word. */
  function BitsFrom(n: nat, count: nat): Word
  {
    if count == 0 then 0 else Pack(n % 2 == 1, BitsFrom(n / 2, count - 1))
  }

  function Bits(b: Byte): Word { BitsFrom(b, 8) }

  // ----- The reference: one message bit at a time, low bit of each byte first -----

  function SerialBit(crc: Word, bit: bool): Word
  {
    if Odd(crc) != bit then Xor(Half(crc), POLY) else Half(crc)
  }

  function SerialByte(crc: Word, bits: Word, count: nat): Word
    decreases count
  {
    if count == 0 then crc else SerialByte(SerialBit(crc, Odd(bits)), Half(bits), count - 1)
  }

  function Serial(crc: Word, data: Bytes): Word
  {
    if data == [] then crc
    else SerialByte(Serial(crc, data[..|data| - 1]), Bits(data[|data| - 1]), 8)
  }

  // ----- The byte-at-a-time form -----

  /** One shift of the source's inner loop, with its mask in place of a branch. */
  function Shift(crc: Word): Word
  {
    (crc >> 1) ^ (0xEDB88320 & (0 - (crc & 1)))
  }

  function Shifts(crc: Word, count: nat): Word
    decreases count
  {
    if count == 0 then crc else Shifts(Shift(crc), count - 1)
  }

  function Feed(crc: Word, data: Bytes): Word
  {
    if data == [] then crc
    else Shifts(Xor(Feed(crc, data[..|data| - 1]), Bits(data[|data| - 1])), 8)
  }

  /** The checksum, with the initial and final complement. */
  function Crc(data: Bytes, seed: Word): Word
  {
    Xor(Feed(Xor(seed, ONES), data), ONES)
  }

  /** The source's inner loop. */
  method ShiftByte(start: Word) returns (crc: Word)
    ensures crc == Shifts(start, 8)
  {
    crc := start;
    for k := 0 to 8
      invariant Shifts(crc, 8 - k) == Shifts(start, 8)
    {
      crc := (crc >> 1) ^ (0xEDB88320 & (0 - (crc & 1)));
    }
  }

  method Compute(data: Bytes, seed: Word) returns (crc: Word)
    ensures crc == Crc(data, seed)
  {
    hide Shifts, Bits, Xor;
    crc := Xor(seed, ONES);
    for i := 0 to |data|
      invariant crc == Feed(Xor(seed, ONES), data[..i])
    {
      assert data[..i + 1][..i] == data[..i];
      crc := ShiftByte(Xor(crc, Bits(data[i])));
    }
    assert data[..|data|] == data;
    crc := Xor(crc, ONES);
  }

  // ----- Word facts -----

  lemma XorTwice(x: Word, y: Word)
    ensures Xor(Xor(x, y), y) == x
  {
  }

  lemma XorCommutes(x: Word, y: Word)
    ensures Xor(x, y) == Xor(y, x)
  {
  }

  lemma XorAssociates(x: Word, y: Word, z: Word)
    ensures Xor(Xor(x, y), z) == Xor(x, Xor(y, z))
  {
  }

  lemma XorPairs(a: Word, b: Word, c: Word, d: Word)
    ensures Xor(Xor(a, b), Xor(c, d)) == Xor(Xor(a, c), Xor(b, d))
  {
    hide Xor;
    XorAssociates(a, b, Xor(c, d));
    XorAssociates(b, c, d);
    XorCommutes(b, c);
    XorAssociates(c, b, d);
    XorAssociates(a, c, Xor(b, d));
  }

  lemma XorZero(x: Word)
    ensures Xor(x, 0) == x && Xor(0, x) == x && Xor(x, x) == 0
  {
  }

  lemma XorNonzero(x: Word, y: Word)
    requires Xor(x, y) == 0
    ensures x == y
  {
  }

  lemma HalfXor(x: Word, y: Word)
    ensures Half(Xor(x, y)) == Xor(Half(x), Half(y))
    ensures Odd(Xor(x, y)) == (Odd(x) != Odd(y))
  {
  }

  lemma LowBit(x: Word)
    ensures x & 1 == 0 || x & 1 == 1
  {
  }

  lemma ShiftCases(x: Word)
    ensures Shift(x) == if Odd(x) then Xor(Half(x), POLY) else Half(x)
  {
    LowBit(x);
    var half, bit := x >> 1, x & 1;
    if bit == 0 {
      assert 0xEDB88320 & (0 - bit) == 0;
      assert half ^ 0 == half;
    } else {
      assert 0xEDB88320 & (0 - bit) == 0xEDB88320;
    }
  }

  // ----- The byte-at-a-time form refines the bit-serial one -----

  lemma PeelBit(y: Word, bits: Word)
    ensures SerialBit(Xor(y, bits), Odd(bits)) == Xor(Shift(y), Half(bits))
  {
    hide Shift, Xor, Half, Odd;
    HalfXor(y, bits);
    ShiftCases(y);
    XorPairs(Half(y), Half(bits), POLY, 0);
    XorZero(POLY);
    XorZero(Half(bits));
  }

  ghost predicate Fits(bits: Word, count: nat)
    decreases count
  {
    if count == 0 then bits == 0 else Fits(Half(bits), count - 1)
  }

  function Cap(count: nat): Word
  {
    if count == 0 then 0 else Pack(true, Cap(count - 1))
  }

  lemma PackBack(bit: bool, rest: Word, cap: Word)
    requires rest <= cap <= 127
    ensures Odd(Pack(bit, rest)) == bit && Half(Pack(bit, rest)) == rest
    ensures Pack(bit, rest) <= Pack(true, cap) <= 255
  {
  }

  lemma CapSmall(count: nat)
    requires count < 8
    ensures Cap(count) <= 127
  {
    assert Cap(2) == 3 && Cap(4) == 15 && Cap(6) == 63;
  }

  lemma {:induction false} BitsBound(n: nat, count: nat)
    requires count <= 8
    ensures BitsFrom(n, count) <= Cap(count) <= 255
    ensures Fits(BitsFrom(n, count), count)
  {
    hide Pack, Half, Odd;
    if count > 0 {
      BitsBound(n / 2, count - 1);
      CapSmall(count - 1);
      PackBack(n % 2 == 1, BitsFrom(n / 2, count - 1), Cap(count - 1));
    }
  }

  function TwoTo(count: nat): nat { if count == 0 then 1 else 2 * TwoTo(count - 1) }

  lemma {:induction false} BitsInjective(m: nat, n: nat, count: nat)
    requires count <= 8 && m < TwoTo(count) && n < TwoTo(count)
    requires BitsFrom(m, count) == BitsFrom(n, count)
    ensures m == n
  {
    hide Pack, Half, Odd, Cap, Fits;
    if count > 0 {
      assert TwoTo(count) == 2 * TwoTo(count - 1);
      assert m == 2 * (m / 2) + m % 2 && n == 2 * (n / 2) + n % 2;
      BitsBound(m / 2, count - 1);
      BitsBound(n / 2, count - 1);
      CapSmall(count - 1);
      PackBack(m % 2 == 1, BitsFrom(m / 2, count - 1), Cap(count - 1));
      PackBack(n % 2 == 1, BitsFrom(n / 2, count - 1), Cap(count - 1));
      BitsInjective(m / 2, n / 2, count - 1);
    }
  }

  lemma {:induction false} PeelByte(y: Word, bits: Word, count: nat)
    requires Fits(bits, count)
    ensures SerialByte(Xor(y, bits), bits, count) == Shifts(y, count)
    decreases count
  {
    hide Xor, Half, Shift, SerialBit, Odd;
    if count == 0 {
      XorZero(y);
    } else {
      PeelBit(y, bits);
      PeelByte(Shift(y), Half(bits), count - 1);
    }
  }

  /** Feeding bytes is feeding their bits, low bit first. */
  lemma {:induction false} FeedIsSerial(crc: Word, data: Bytes)
    ensures Feed(crc, data) == Serial(crc, data)
  {
    hide Shifts, SerialByte, Xor, Fits, BitsFrom;
    if data != [] {
      FeedIsSerial(crc, data[..|data| - 1]);
      var before, bits := Feed(crc, data[..|data| - 1]), Bits(data[|data| - 1]);
      BitsBound(data[|data| - 1], 8);
      XorTwice(before, bits);
      PeelByte(Xor(before, bits), bits, 8);
    }
  }

  // ----- Chaining -----

  lemma {:induction false} FeedAppend(crc: Word, a: Bytes, b: Bytes)
    ensures Feed(crc, a + b) == Feed(Feed(crc, a), b)
  {
    hide Shifts, Bits, Xor;
    if b == [] {
      assert a + b == a;
    } else {
      assert (a + b)[..|a + b| - 1] == a + b[..|b| - 1];
      FeedAppend(crc, a, b[..|b| - 1]);
    }
  }

  /** The checksum of a concatenation is that of the second part seeded with that of the first. */
  lemma Chains(a: Bytes, b: Bytes, seed: Word)
    ensures Crc(a + b, seed) == Crc(b, Crc(a, seed))
  {
    hide Feed, Xor;
    FeedAppend(Xor(seed, ONES), a, b);
    XorTwice(Feed(Xor(seed, ONES), a), ONES);
  }

  // ----- Burst detection -----

  lemma ShiftLinear(x: Word, y: Word)
    ensures Xor(Shift(x), Shift(y)) == Shift(Xor(x, y))
  {
    hide Shift, Xor, Half, Odd;
    ShiftCases(x);
    ShiftCases(y);
    ShiftCases(Xor(x, y));
    HalfXor(x, y);
    var px, py := if Odd(x) then POLY else 0, if Odd(y) then POLY else 0;
    XorZero(Half(x));
    XorZero(Half(y));
    XorZero(Half(Xor(x, y)));
    XorZero(POLY);
    XorZero(0);
    XorPairs(Half(x), px, Half(y), py);
  }

  lemma {:induction false} ShiftsLinear(x: Word, y: Word, count: nat)
    ensures Xor(Shifts(x, count), Shifts(y, count)) == Shifts(Xor(x, y), count)
    decreases count
  {
    hide Shift, Xor;
    if count > 0 {
      ShiftLinear(x, y);
      ShiftsLinear(Shift(x), Shift(y), count - 1);
    }
  }

  /** A shift whose result lacks the top bit took the branch without the polynomial. */
  lemma Unshift(x: Word)
    requires Shift(x) <= 0x7FFFFFFF
    ensures x == Shift(x) << 1
  {
  }

  /** A word moved up one byte. */
  function UpByte(x: Word): Word { x << 8 }

  /**
   The word's value is at least 256^left: a difference that large between two registers
   survives `left` more bytes, whatever they are.
   */
  predicate Large(x: Word, left: nat)
    requires left <= 3
  {
    x >= if left == 0 then 1 else if left == 1 then 0x100 else if left == 2 then 0x1_0000 else 0x100_0000
  }

  predicate IsByte(x: Word) { x <= 255 }

  /** Eight shifts that leave the top byte clear only moved the word down one byte. */
  lemma UnshiftByte(x: Word)
    requires !Large(Shifts(x, 8), 3)
    ensures x == UpByte(Shifts(x, 8))
  {
    var x1 := Shift(x);
    var x2 := Shift(x1);
    var x3 := Shift(x2);
    var x4 := Shift(x3);
    var x5 := Shift(x4);
    var x6 := Shift(x5);
    var x7 := Shift(x6);
    var x8 := Shift(x7);
    assert Shifts(x, 8) == Shifts(x2, 6) == Shifts(x4, 4) == Shifts(x6, 2) == x8;
    Unshift(x7);
    Unshift(x6);
    Unshift(x5);
    Unshift(x4);
    Unshift(x3);
    Unshift(x2);
    Unshift(x1);
    Unshift(x);
  }

  lemma LargeByteUp(d: Word, e: Word, next: Word, left: nat)
    requires 0 < left <= 3 && IsByte(e) && Xor(d, e) == UpByte(next)
    ensures Large(d, left) && !Large(next, 3) ==> Large(next, left - 1)
  {
  }

  lemma LargeDown(x: Word, left: nat)
    requires left <= 3
    ensures Large(x, 3) ==> Large(x, left)
    ensures Large(x, left) ==> x != 0
  {
  }

  /** A large difference stays large enough through one more byte, whatever is mixed in. */
  lemma LargeStep(d: Word, e: Word, left: nat)
    requires 0 < left <= 3 && IsByte(e) && Large(d, left)
    ensures Large(Shifts(Xor(d, e), 8), left - 1)
  {
    hide Xor, Shifts, UpByte, Large, IsByte;
    var next := Shifts(Xor(d, e), 8);
    LargeDown(next, left - 1);
    if !Large(next, 3) {
      UnshiftByte(Xor(d, e));
      LargeByteUp(d, e, next, left);
    }
  }

  lemma ByteNotUp(e: Word, w: Word)
    requires IsByte(e) && !Large(w, 3) && e == UpByte(w)
    ensures e == 0
  {
  }

  /** The first byte that differs leaves a difference in the top byte. */
  lemma FirstDifference(e: Word)
    requires IsByte(e)
    ensures e != 0 ==> Large(Shifts(e, 8), 3)
  {
    hide Shifts, UpByte, Large, IsByte;
    if !Large(Shifts(e, 8), 3) {
      UnshiftByte(e);
      ByteNotUp(e, Shifts(e, 8));
    }
  }

  lemma XorOfBytes(x: Word, y: Word)
    requires IsByte(x) && IsByte(y)
    ensures IsByte(Xor(x, y))
  {
  }

  lemma BitsOfByte(a: Byte, b: Byte)
    ensures IsByte(Xor(Bits(a), Bits(b)))
    ensures a != b ==> Xor(Bits(a), Bits(b)) != 0
  {
    hide Xor, BitsFrom;
    BitsBound(a, 8);
    BitsBound(b, 8);
    XorOfBytes(Bits(a), Bits(b));
    if Xor(Bits(a), Bits(b)) == 0 {
      XorNonzero(Bits(a), Bits(b));
      assert TwoTo(8) == 4 * TwoTo(6) == 16 * TwoTo(4) == 256;
      BitsInjective(a, b, 8);
    }
  }

  /** One byte each from two registers: the difference moves on by the same eight shifts. */
  lemma FeedDifference(s: Word, t: Word, a: Bytes, b: Bytes)
    requires |a| == |b| > 0
    ensures Xor(Feed(s, a), Feed(t, b))
            == Shifts(Xor(Xor(Feed(s, a[..|a| - 1]), Feed(t, b[..|b| - 1])),
                          Xor(Bits(a[|a| - 1]), Bits(b[|b| - 1]))), 8)
  {
    hide Xor, Shifts, Bits;
    var x, y := Feed(s, a[..|a| - 1]), Feed(t, b[..|b| - 1]);
    var p, q := Bits(a[|a| - 1]), Bits(b[|b| - 1]);
    ShiftsLinear(Xor(x, p), Xor(y, q), 8);
    XorPairs(x, p, y, q);
  }

  /** Equal registers stay equal and different ones different through equal bytes. */
  lemma {:induction false} SameBytesKeepDifference(s: Word, t: Word, data: Bytes)
    ensures Feed(s, data) == Feed(t, data) <==> s == t
  {
    hide Xor, Shifts, Bits;
    if data != [] {
      SameBytesKeepDifference(s, t, data[..|data| - 1]);
      var x, y := Feed(s, data[..|data| - 1]), Feed(t, data[..|data| - 1]);
      FeedDifference(s, t, data, data);
      XorZero(Bits(data[|data| - 1]));
      XorZero(Xor(x, y));
      XorZero(Feed(s, data));
      if Feed(s, data) == Feed(t, data) {
        ShiftsToZero(Xor(x, y));
        XorNonzero(x, y);
      }
    }
  }

  lemma ShiftsToZero(x: Word)
    requires Shifts(x, 8) == 0
    ensures x == 0
  {
    UnshiftByte(x);
  }

  /** From the first differing byte on, the registers differ by too much for the rest of the window to mend. */
  lemma {:induction false} WindowDiffers(s: Word, a: Bytes, b: Bytes)
    requires 0 < |a| == |b| <= 4 && a[0] != b[0]
    ensures Large(Xor(Feed(s, a), Feed(s, b)), 4 - |a|)
  {
    hide Xor, Shifts, Bits, Large, IsByte;
    var n := |a| - 1;
    var e := Xor(Bits(a[n]), Bits(b[n]));
    FeedDifference(s, s, a, b);
    BitsOfByte(a[n], b[n]);
    if n == 0 {
      XorZero(Feed(s, a[..0]));
      XorZero(e);
      FirstDifference(e);
    } else {
      WindowDiffers(s, a[..n], b[..n]);
      LargeStep(Xor(Feed(s, a[..n]), Feed(s, b[..n])), e, 4 - n);
    }
  }

  /** Windows of at most four bytes that differ anywhere drive one register to different values. */
  lemma {:induction false} ShortBurst(s: Word, a: Bytes, b: Bytes)
    requires |a| == |b| <= 4 && a != b
    ensures Feed(s, a) != Feed(s, b)
    decreases |a|
  {
    hide Xor, Shifts, Bits, Large, IsByte;
    if a[0] != b[0] {
      WindowDiffers(s, a, b);
      LargeDown(Xor(Feed(s, a), Feed(s, b)), 4 - |a|);
      XorZero(Feed(s, a));
    } else {
      assert a == [a[0]] + a[1..] && b == [a[0]] + b[1..];
      FeedAppend(s, [a[0]], a[1..]);
      FeedAppend(s, [a[0]], b[1..]);
      ShortBurst(Feed(s, [a[0]]), a[1..], b[1..]);
    }
  }

  /** Any corruption confined to four consecutive bytes changes the checksum. */
  lemma BurstChangesCrc(before: Bytes, a: Bytes, b: Bytes, after: Bytes, seed: Word)
    requires |a| == |b| <= 4 && a != b
    ensures Crc(before + a + after, seed) != Crc(before + b + after, seed)
  {
    hide Feed, Xor;
    var s := Feed(Xor(seed, ONES), before);
    FeedAppend(Xor(seed, ONES), before + a, after);
    FeedAppend(Xor(seed, ONES), before + b, after);
    FeedAppend(Xor(seed, ONES), before, a);
    FeedAppend(Xor(seed, ONES), before, b);
    ShortBurst(s, a, b);
    SameBytesKeepDifference(Feed(s, a), Feed(s, b), after);
    XorTwice(Feed(Xor(seed, ONES), before + a + after), ONES);
    XorTwice(Feed(Xor(seed, ONES), before + b + after), ONES);
  }

  // ----- Which polynomial it is -----

  /** The register holds the coefficient of x to the k-th in bit 31 - k. */
  function Term(k: Word): Word
    requires k <= 31
  {
    1 << (31 - k)
  }

  /** The generator of clause 3.2.9, without its leading term. */
  lemma GeneratorOfClause329()
    ensures POLY == Term(26) | Term(23) | Term(22) | Term(16) | Term(12) | Term(11) | Term(10) | Term(8)
                    | Term(7) | Term(5) | Term(4) | Term(2) | Term(1) | Term(0)
  {
  }

  lemma FeedNext(crc: Word, data: Bytes, b: Byte)
    ensures Feed(crc, data + [b]) == Shifts(Xor(Feed(crc, data), Bits(b)), 8)
  {
    hide Shifts, Bits, Xor;
    assert (data + [b])[..|data|] == data;
  }

  lemma TwoBits(n: nat, count: nat)
    ensures BitsFrom(n, count + 2) == Pack(n % 2 == 1, Pack(n / 2 % 2 == 1, BitsFrom(n / 2 / 2, count)))
  {
    hide Pack;
    assert BitsFrom(n / 2, count + 1) == Pack(n / 2 % 2 == 1, BitsFrom(n / 2 / 2, count));
  }

  lemma EightBits(b: Byte)
    ensures var c := b / 2 / 2;
      var d := c / 2 / 2;
      var e := d / 2 / 2;
      Bits(b) == Pack(b % 2 == 1, Pack(b / 2 % 2 == 1, Pack(c % 2 == 1, Pack(c / 2 % 2 == 1,
                 Pack(d % 2 == 1, Pack(d / 2 % 2 == 1, Pack(e % 2 == 1, Pack(e / 2 % 2 == 1, 0))))))))
  {
    assert BitsFrom(b / 2 / 2 / 2 / 2 / 2 / 2 / 2 / 2, 0) == 0;
    hide Pack, BitsFrom;
    var c := b / 2 / 2;
    var d := c / 2 / 2;
    TwoBits(b, 6);
    TwoBits(c, 4);
    TwoBits(d, 2);
    TwoBits(d / 2 / 2, 0);
  }

  lemma Eight(crc: Word)
    ensures Shifts(crc, 8) == Shift(Shift(Shift(Shift(Shift(Shift(Shift(Shift(crc))))))))
  {
    hide Shift;
    var c4 := Shift(Shift(Shift(Shift(crc))));
    assert Shifts(crc, 8) == Shifts(c4, 4) by {
      assert Shifts(crc, 8) == Shifts(Shift(Shift(crc)), 6);
    }
    assert Shifts(c4, 4) == Shifts(Shift(Shift(c4)), 2);
  }

  lemma Digit1()
    ensures Shifts(Xor(0xFFFFFFFF, Bits(0x31)), 8) == 0x7C231048
  {
    hide Bits, Shifts;
    assert Bits(0x31) == 0x31 by { EightBits(0x31); }
    Eight(Xor(0xFFFFFFFF, 0x31));
  }

  lemma Digit2()
    ensures Shifts(Xor(0x7C231048, Bits(0x32)), 8) == 0xB0ACBB32
  {
    hide Bits, Shifts;
    assert Bits(0x32) == 0x32 by { EightBits(0x32); }
    Eight(Xor(0x7C231048, 0x32));
  }

  lemma Digit3()
    ensures Shifts(Xor(0xB0ACBB32, Bits(0x33)), 8) == 0x77B79C2D
  {
    hide Bits, Shifts;
    assert Bits(0x33) == 0x33 by { EightBits(0x33); }
    Eight(Xor(0xB0ACBB32, 0x33));
  }

  lemma Digit4()
    ensures Shifts(Xor(0x77B79C2D, Bits(0x34)), 8) == 0x641C1F5C
  {
    hide Bits, Shifts;
    assert Bits(0x34) == 0x34 by { EightBits(0x34); }
    Eight(Xor(0x77B79C2D, 0x34));
  }

  lemma Digit5()
    ensures Shifts(Xor(0x641C1F5C, Bits(0x35)), 8) == 0x340AC5E3
  {
    hide Bits, Shifts;
    assert Bits(0x35) == 0x35 by { EightBits(0x35); }
    Eight(Xor(0x641C1F5C, 0x35));
  }

  lemma Digit6()
    ensures Shifts(Xor(0x340AC5E3, Bits(0x36)), 8) == 0xF68D2C9E
  {
    hide Bits, Shifts;
    assert Bits(0x36) == 0x36 by { EightBits(0x36); }
    Eight(Xor(0x340AC5E3, 0x36));
  }

  lemma Digit7()
    ensures Shifts(Xor(0xF68D2C9E, Bits(0x37)), 8) == 0xAFFC9660
  {
    hide Bits, Shifts;
    assert Bits(0x37) == 0x37 by { EightBits(0x37); }
    Eight(Xor(0xF68D2C9E, 0x37));
  }

  lemma Digit8()
    ensures Shifts(Xor(0xAFFC9660, Bits(0x38)), 8) == 0x651F2550
  {
    hide Bits, Shifts;
    assert Bits(0x38) == 0x38 by { EightBits(0x38); }
    Eight(Xor(0xAFFC9660, 0x38));
  }

  lemma Digit9()
    ensures Shifts(Xor(0x651F2550, Bits(0x39)), 8) == 0x340BC6D9
  {
    hide Bits, Shifts;
    assert Bits(0x39) == 0x39 by { EightBits(0x39); }
    Eight(Xor(0x651F2550, 0x39));
  }

  /** The checksum of the nine digits "123456789" is the usual check value. */
  lemma CheckValue()
    ensures Crc([0x31, 0x32, 0x33, 0x34, 0x35, 0x36, 0x37, 0x38, 0x39], 0) == 0xCBF43926
  {
    hide Shifts, Bits, Feed;
    var ones: Word := 0xFFFFFFFF;
    FeedNothing(ones);
    FeedNext(ones, [], 0x31);
    Digit1();
    var d1 := [] + [0x31];
    FeedNext(ones, d1, 0x32);
    Digit2();
    var d2 := d1 + [0x32];
    FeedNext(ones, d2, 0x33);
    Digit3();
    var d3 := d2 + [0x33];
    FeedNext(ones, d3, 0x34);
    Digit4();
    var d4 := d3 + [0x34];
    FeedNext(ones, d4, 0x35);
    Digit5();
    var d5 := d4 + [0x35];
    FeedNext(ones, d5, 0x36);
    Digit6();
    var d6 := d5 + [0x36];
    FeedNext(ones, d6, 0x37);
    Digit7();
    var d7 := d6 + [0x37];
    FeedNext(ones, d7, 0x38);
    Digit8();
    var d8 := d7 + [0x38];
    FeedNext(ones, d8, 0x39);
    Digit9();
    assert d8 + [0x39] == [0x31, 0x32, 0x33, 0x34, 0x35, 0x36, 0x37, 0x38, 0x39];
  }

  lemma FeedNothing(crc: Word)
    ensures Feed(crc, []) == crc
  {
  }
}
