/**
 SHA-256. The first half is the definition of FIPS 180-4 (sections 4.1.2, 4.2.2, 5.1.1, 5.2.1,
 5.3.3 and 6.2.2) on a whole message; the second half is the streaming hasher of src/hash.cpp,
 proved to compute it however the message is cut into pieces.
 */
module Sha256 {
  import opened Basics

  type Word = bv32

  /** Section 4.2.2, eight words to a row. */
  const K: seq<Word> :=
    [0x428a2f98, 0x71374491, 0xb5c0fbcf, 0xe9b5dba5, 0x3956c25b, 0x59f111f1, 0x923f82a4, 0xab1c5ed5]
    + [0xd807aa98, 0x12835b01, 0x243185be, 0x550c7dc3, 0x72be5d74, 0x80deb1fe, 0x9bdc06a7, 0xc19bf174]
    + [0xe49b69c1, 0xefbe4786, 0x0fc19dc6, 0x240ca1cc, 0x2de92c6f, 0x4a7484aa, 0x5cb0a9dc, 0x76f988da]
    + [0x983e5152, 0xa831c66d, 0xb00327c8, 0xbf597fc7, 0xc6e00bf3, 0xd5a79147, 0x06ca6351, 0x14292967]
    + [0x27b70a85, 0x2e1b2138, 0x4d2c6dfc, 0x53380d13, 0x650a7354, 0x766a0abb, 0x81c2c92e, 0x92722c85]
    + [0xa2bfe8a1, 0xa81a664b, 0xc24b8b70, 0xc76c51a3, 0xd192e819, 0xd6990624, 0xf40e3585, 0x106aa070]
    + [0x19a4c116, 0x1e376c08, 0x2748774c, 0x34b0bcb5, 0x391c0cb3, 0x4ed8aa4a, 0x5b9cca4f, 0x682e6ff3]
    + [0x748f82ee, 0x78a5636f, 0x84c87814, 0x8cc70208, 0x90befffa, 0xa4506ceb, 0xbef9a3f7, 0xc67178f2]

  /** The eight working variables, and also the eight words of a hash value. */
  datatype Regs = Regs(a: Word, b: Word, c: Word, d: Word, e: Word, f: Word, g: Word, h: Word)

  const IV: Regs := Regs(0x6a09e667, 0xbb67ae85, 0x3c6ef372, 0xa54ff53a,
                         0x510e527f, 0x9b05688c, 0x1f83d9ab, 0x5be0cd19)

  // ----- Sections 3.2 and 4.1.2: word operations -----

  /** Addition modulo 2^32. */
  function Plus(x: Word, y: Word): Word { x + y }

  function Xor3(x: Word, y: Word, z: Word): Word { x ^ y ^ z }

  function Shr(x: Word, n: Word): Word
    requires n <= 32
  {
    x >> n
  }

  function Rotr(x: Word, n: Word): Word
    requires n <= 32
  {
    (x >> n) | (x << (32 - n))
  }

  function Ch(x: Word, y: Word, z: Word): Word { (x & y) ^ (!x & z) }
  function Maj(x: Word, y: Word, z: Word): Word { Xor3(x & y, x & z, y & z) }
  function BigSigma0(x: Word): Word { Xor3(Rotr(x, 2), Rotr(x, 13), Rotr(x, 22)) }
  function BigSigma1(x: Word): Word { Xor3(Rotr(x, 6), Rotr(x, 11), Rotr(x, 25)) }
  function SmallSigma0(x: Word): Word { Xor3(Rotr(x, 7), Rotr(x, 18), Shr(x, 3)) }
  function SmallSigma1(x: Word): Word { Xor3(Rotr(x, 17), Rotr(x, 19), Shr(x, 10)) }

  // ----- Sections 5.1.1 and 5.2.1: padding and parsing -----

  /** The low `width` bytes of a number, most significant first. */
  function BigEndian(n: nat, width: nat): (b: Bytes)
    ensures |b| == width
  {
    if width == 0 then [] else BigEndian(n / 256, width - 1) + [n % 256]
  }

  /** The number of zero bytes that bring a message, its 0x80 byte and the zeros to 56 modulo 64. */
  function ZeroCount(len: nat): (k: nat)
    ensures k < 64 && (len + 1 + k) % 64 == 56
  {
    (119 - len % 64) % 64
  }

  function Zeros(n: nat): (z: Bytes)
    ensures |z| == n
  {
    seq(n, _ => 0)
  }

  /** Section 5.1.1, with the length field taken modulo 2^64 as the hasher's counter is. */
  function Pad(m: Bytes): Bytes
  {
    m + [0x80] + Zeros(ZeroCount(|m|)) + BigEndian(Wrap64(8 * |m|), 8)
  }

  function BigEndianWord(b0: Byte, b1: Byte, b2: Byte, b3: Byte): Word
  {
    ((b0 as Word) << 24) | ((b1 as Word) << 16) | ((b2 as Word) << 8) | (b3 as Word)
  }

  function BlockWord(block: Bytes, t: nat): Word
    requires |block| == 64 && t < 16
  {
    BigEndianWord(block[4 * t], block[4 * t + 1], block[4 * t + 2], block[4 * t + 3])
  }

  // ----- Section 6.2.2: the hash computation -----

  /** Step 1: word t of the message schedule from words t-16, t-15, t-7 and t-2, summed in the source's order. */
  function ScheduleWord(w16: Word, w15: Word, w7: Word, w2: Word): Word
  {
    Plus(Plus(Plus(w16, SmallSigma0(w15)), w7), SmallSigma1(w2))
  }

  /** The first n words of the message schedule. */
  function Schedule(block: Bytes, n: nat): (w: seq<Word>)
    requires |block| == 64
    ensures |w| == n
  {
    if n == 0 then []
    else
      var w := Schedule(block, n - 1);
      w + [if n <= 16 then BlockWord(block, n - 1)
           else ScheduleWord(w[n - 17], w[n - 16], w[n - 8], w[n - 3])]
  }

  /** Step 3: one round. */
  function Round(r: Regs, k: Word, w: Word): Regs
  {
    var t1 := Plus(Plus(Plus(Plus(r.h, BigSigma1(r.e)), Ch(r.e, r.f, r.g)), k), w);
    var t2 := Plus(BigSigma0(r.a), Maj(r.a, r.b, r.c));
    Regs(Plus(t1, t2), r.a, r.b, r.c, Plus(r.d, t1), r.e, r.f, r.g)
  }

  function Rounds(r: Regs, w: seq<Word>, t: nat): Regs
    requires |w| == 64 && t <= 64
  {
    if t == 0 then r else Round(Rounds(r, w, t - 1), K[t - 1], w[t - 1])
  }

  function AddRegs(x: Regs, y: Regs): Regs
  {
    Regs(Plus(x.a, y.a), Plus(x.b, y.b), Plus(x.c, y.c), Plus(x.d, y.d),
         Plus(x.e, y.e), Plus(x.f, y.f), Plus(x.g, y.g), Plus(x.h, y.h))
  }

  /** Step 4: the intermediate hash value after one block. */
  function Compress(r: Regs, block: Bytes): Regs
    requires |block| == 64
  {
    AddRegs(r, Rounds(r, Schedule(block, 64), 64))
  }

  /** The hash value after the whole 64-byte blocks of a message whose length they make up. */
  function HashBlocks(m: Bytes): Regs
  {
    if |m| < 64 then IV else Compress(HashBlocks(m[..|m| - 64]), m[|m| - 64..])
  }

  function WordByte(w: Word, shift: Word): Byte
    requires shift <= 32
  {
    (((w >> shift) & 0xFF) as bv8) as int
  }

  function WordBytes(w: Word): Bytes
  {
    [WordByte(w, 24), WordByte(w, 16), WordByte(w, 8), WordByte(w, 0)]
  }

  function WordsBytes(w: seq<Word>): (b: Bytes)
    ensures |b| == 4 * |w|
  {
    if w == [] then [] else WordsBytes(w[..|w| - 1]) + WordBytes(w[|w| - 1])
  }

  function RegBytes(r: Regs): Digest
  {
    WordsBytes([r.a, r.b, r.c, r.d, r.e, r.f, r.g, r.h])
  }

  /** The SHA-256 digest of a whole message. */
  function Hash(m: Bytes): Digest
  {
    RegBytes(HashBlocks(Pad(m)))
  }

  // ----- The streaming hasher -----

  lemma CounterWraps(a: nat, b: nat)
    ensures Wrap64(Wrap64(a) + b) == Wrap64(a + b)
  {
    var m := 0x1_0000_0000_0000_0000;
    var q, k := a / m, (Wrap64(a) + b) / m;
    assert a + b == (q + k) * m + (Wrap64(a) + b) % m;
  }

  lemma {:induction false} WholeTurns(a: nat, turns: nat)
    ensures Wrap64(a + 0x1_0000_0000_0000_0000 * turns) == Wrap64(a)
  {
    if turns > 0 {
      WholeTurns(a, turns - 1);
      CounterWraps(a + 0x1_0000_0000_0000_0000 * (turns - 1), 0x1_0000_0000_0000_0000);
    }
  }

  lemma BitLength(len: nat)
    ensures Wrap64(Wrap64(len) * 8) == Wrap64(8 * len)
  {
    WholeTurns(Wrap64(len) * 8, len / 0x1_0000_0000_0000_0000 * 8);
  }

  /** The buffer stands at 56 exactly when the zeros of section 5.1.1 have been fed. */
  lemma ZerosLeft(head: nat, tail: nat, len: nat, zeros: nat)
    requires head % 64 == 0 && tail < 64 && head + tail == len + 1 + zeros && zeros <= ZeroCount(len)
    ensures tail != 56 <==> zeros < ZeroCount(len)
  {
    var k := ZeroCount(len);
    var a, b := head / 64, (len + 1 + k) / 64;
    assert k - zeros == 64 * (b - a) + 56 - tail;
  }

  /** Padding fills the last block. */
  lemma NoTail(head: nat, tail: nat, len: nat)
    requires head % 64 == 0 && tail < 64 && head + tail == len + 1 + ZeroCount(len) + 8
    ensures tail == 0
  {
    var a, b := head / 64, (len + 1 + ZeroCount(len)) / 64;
    assert 64 * a + tail == 64 * (b + 1);
  }

  lemma AppendPiece(head: Bytes, was: Bytes, data: Bytes, p: nat, q: nat)
    requires p <= q <= |data| && head + [] == was + data[..p]
    ensures head + data[p..q] == was + data[..q]
  {
    assert head == was + data[..p];
    assert data[..p] + data[p..q] == data[..q];
  }

  lemma PadShape(m: Bytes, fed: Bytes, len: Bytes)
    requires fed == m + [0x80] + Zeros(ZeroCount(|m|)) + len && len == BigEndian(Wrap64(8 * |m|), 8)
    ensures fed == Pad(m)
  {
  }

  /** Appending one block is one compression. */
  lemma HashBlocksAppend(m: Bytes, block: Bytes)
    requires |block| == 64
    ensures HashBlocks(m + block) == Compress(HashBlocks(m), block)
  {
    assert (m + block)[..|m + block| - 64] == m;
    assert (m + block)[|m + block| - 64..] == block;
  }

  /** The schedule as the source fills it, left to right in one array. */
  method ScheduleArray(block: Bytes) returns (m: array<Word>)
    requires |block| == 64
    ensures fresh(m) && m.Length == 64
    ensures m[..] == Schedule(block, 64)
  {
    hide Plus, Xor3, Rotr, Shr, BigEndianWord;
    m := new Word[64];
    for i := 0 to 16
      invariant m[..i] == Schedule(block, i)
    {
      var j := i * 4;
      m[i] := BigEndianWord(block[j], block[j + 1], block[j + 2], block[j + 3]);
      assert m[i] == BlockWord(block, i);
      assert m[..i + 1] == m[..i] + [m[i]];
    }
    for i := 16 to 64
      invariant m[..i] == Schedule(block, i)
    {
      var s0 := Xor3(Rotr(m[i - 15], 7), Rotr(m[i - 15], 18), Shr(m[i - 15], 3));
      var s1 := Xor3(Rotr(m[i - 2], 17), Rotr(m[i - 2], 19), Shr(m[i - 2], 10));
      m[i] := Plus(Plus(Plus(m[i - 16], s0), m[i - 7]), s1);
      assert m[..i + 1] == m[..i] + [m[i]];
    }
    assert m[..] == m[..64];
  }

  /**
   The hasher object: eight state words, a 64-byte buffer of which the first `buffered` bytes
   wait for a full block, and a 64-bit byte counter. Everything passed to Update so far is
   `head`, whose whole blocks are compressed into the state, followed by `tail`, which waits.
   */
  class Hasher {
    const state: array<Word>
    const buffer: array<Byte>
    var totalLen: nat
    var buffered: nat
    ghost var head: Bytes
    ghost var tail: Bytes

    ghost predicate Valid()
      reads this, state, buffer
    {
      && Holds()
      && totalLen == Wrap64(|head| + |tail|)
    }

    ghost predicate Holds()
      reads this, state, buffer
    {
      && state.Length == 8 && buffer.Length == 64
      && |head| % 64 == 0 && buffered == |tail| < 64
      && buffer[..buffered] == tail
      && Current() == HashBlocks(head)
    }

    ghost function Fed(): Bytes
      reads this
    {
      head + tail
    }

    function Current(): Regs
      requires state.Length == 8
      reads this, state
    {
      Regs(state[0], state[1], state[2], state[3], state[4], state[5], state[6], state[7])
    }

    constructor ()
      ensures Valid() && Fed() == [] && fresh(state) && fresh(buffer)
    {
      state := new Word[8] [0x6a09e667, 0xbb67ae85, 0x3c6ef372, 0xa54ff53a,
                            0x510e527f, 0x9b05688c, 0x1f83d9ab, 0x5be0cd19];
      buffer := new Byte[64](_ => 0);
      totalLen, buffered, head, tail := 0, 0, [], [];
    }

    /** The compression step: sixty-four rounds on eight locals, added to the state. */
    method Transform(block: Bytes)
      requires state.Length == 8 && |block| == 64
      modifies state
      ensures Current() == Compress(old(Current()), block)
    {
      hide Plus, Xor3, Rotr, Ch, Maj, Schedule;
      var m := ScheduleArray(block);
      ghost var start, w := Current(), m[..];
      var a, b, c, d := state[0], state[1], state[2], state[3];
      var e, f, g, h := state[4], state[5], state[6], state[7];
      for i := 0 to 64
        invariant Regs(a, b, c, d, e, f, g, h) == Rounds(start, w, i)
      {
        var s1 := Xor3(Rotr(e, 6), Rotr(e, 11), Rotr(e, 25));
        var ch := Ch(e, f, g);
        var temp1 := Plus(Plus(Plus(Plus(h, s1), ch), K[i]), m[i]);
        var s0 := Xor3(Rotr(a, 2), Rotr(a, 13), Rotr(a, 22));
        var maj := Maj(a, b, c);
        var temp2 := Plus(s0, maj);
        h := g;
        g := f;
        f := e;
        e := Plus(d, temp1);
        d := c;
        c := b;
        b := a;
        a := Plus(temp1, temp2);
      }

      state[0] := Plus(state[0], a);
      state[1] := Plus(state[1], b);
      state[2] := Plus(state[2], c);
      state[3] := Plus(state[3], d);
      state[4] := Plus(state[4], e);
      state[5] := Plus(state[5], f);
      state[6] := Plus(state[6], g);
      state[7] := Plus(state[7], h);
    }

    /** Copies bytes to the buffer from position `at`. */
    method Fill(at: nat, piece: Bytes)
      requires buffer.Length == 64 && at + |piece| <= 64
      modifies buffer
      ensures buffer[..at + |piece|] == old(buffer[..at]) + piece
    {
      forall i | 0 <= i < |piece| {
        buffer[at + i] := piece[i];
      }
    }

    /** Compresses one block that follows the head. */
    method Absorb(block: Bytes)
      requires Holds() && buffered == 0 && |block| == 64
      modifies state, `head
      ensures Holds() && head == old(head) + block
    {
      Transform(block);
      HashBlocksAppend(head, block);
      head := head + block;
    }

    /** Completes a partly filled buffer; returns how much of the data that took. */
    method TopUp(data: Bytes) returns (take: nat)
      requires Holds() && buffered > 0
      modifies state, buffer, `buffered, `head, `tail
      ensures Holds() && take <= |data|
      ensures Fed() == old(Fed()) + data[..take]
      ensures take < |data| ==> buffered == 0
    {
      hide HashBlocks;
      take := if 64 - buffered < |data| then 64 - buffered else |data|;
      Fill(buffered, data[..take]);
      buffered := buffered + take;
      tail := tail + data[..take];
      assert head + tail == old(Fed()) + data[..take];
      if buffered == 64 {
        var block := buffer[..];
        assert block == tail;
        buffered, tail := 0, [];
        Absorb(block);
      }
    }

    /** Leaves less than a block waiting in the empty buffer. */
    method Keep(rest: Bytes)
      requires Holds() && tail == [] && |rest| < 64
      modifies buffer, `buffered, `tail
      ensures Holds() && tail == rest
    {
      hide HashBlocks;
      Fill(0, rest);
      buffered, tail := |rest|, rest;
    }

    /** Compresses whole blocks straight from the data; returns where it stopped. */
    method AbsorbBlocks(ghost was: Bytes, data: Bytes, start: nat) returns (p: nat)
      requires Holds() && start <= |data| && Fed() == was + data[..start] && (start < |data| ==> tail == [])
      modifies state, `head
      ensures Holds() && start <= p <= |data| && |data| - p < 64
      ensures Fed() == was + data[..p] && (p < |data| ==> tail == [])
    {
      hide HashBlocks;
      p := start;
      while |data| - p >= 64
        invariant start <= p <= |data| && Holds()
        invariant Fed() == was + data[..p]
        invariant p < |data| ==> tail == []
        modifies state, `head
      {
        var block := data[p..p + 64];
        AppendPiece(head, was, data, p, p + 64);
        Absorb(block);
        p := p + 64;
      }
    }

    method Update(data: Bytes)
      requires Valid()
      modifies this, state, buffer
      ensures Valid() && Fed() == old(Fed()) + data
    {
      hide HashBlocks, Wrap64;
      CounterWraps(|head| + |tail|, |data|);
      totalLen := Wrap64(totalLen + |data|);
      ghost var was := Fed();
      var p := 0;
      if buffered > 0 {
        p := TopUp(data);
      }
      assert Fed() == was + data[..p];
      p := AbsorbBlocks(was, data, p);
      if p < |data| {
        AppendPiece(head, was, data, p, |data|);
        Keep(data[p..]);
      }
      assert data[..|data|] == data;
      assert |head| + |tail| == |Fed()| == |was| + |data|;
    }

    /** Pads, feeds the length and returns the digest of everything fed before the call. */
    method Final() returns (digest: Digest)
      requires Valid()
      modifies this, state, buffer
      ensures digest == Hash(old(Fed()))
    {
      hide HashBlocks, RegBytes;
      ghost var m := Fed();
      var bitLen := Wrap64(totalLen * 8);
      BitLength(|m|);
      var lenBytes := BigEndian(bitLen, 8);
      Update([0x80]);
      FeedZeros(m);
      Update(lenBytes);
      PadShape(m, Fed(), lenBytes);
      assert |Pad(m)| == |head| + |tail|;
      NoTail(|head|, |tail|, |m|);
      assert head + tail == head;
      digest := RegBytes(Current());
    }

    /** The zero-padding loop: it stops, after exactly the number of zeros section 5.1.1 asks for. */
    method FeedZeros(ghost m: Bytes)
      requires Valid() && Fed() == m + [0x80]
      modifies this, state, buffer
      ensures Valid() && Fed() == m + [0x80] + Zeros(ZeroCount(|m|)) && buffered == 56
    {
      hide HashBlocks, Wrap64;
      ghost var zeros := 0;
      while buffered != 56
        invariant Valid() && zeros <= ZeroCount(|m|)
        invariant Fed() == m + [0x80] + Zeros(zeros)
        decreases ZeroCount(|m|) - zeros
      {
        assert |Fed()| == |m| + 1 + zeros;
        ZerosLeft(|head|, |tail|, |m|, zeros);
        Update([0]);
        assert Zeros(zeros + 1) == Zeros(zeros) + [0];
        zeros := zeros + 1;
      }
      assert |Fed()| == |m| + 1 + zeros;
      ZerosLeft(|head|, |tail|, |m|, zeros);
    }
  }

  function Flatten(pieces: seq<Bytes>): Bytes
  {
    if pieces == [] then [] else Flatten(pieces[..|pieces| - 1]) + pieces[|pieces| - 1]
  }

  /** However a message is cut into update calls, the digest is that of the whole message. */
  method HashPieces(pieces: seq<Bytes>) returns (digest: Digest)
    ensures digest == Hash(Flatten(pieces))
  {
    var hasher := new Hasher();
    for i := 0 to |pieces|
      invariant hasher.Valid() && fresh(hasher) && fresh(hasher.state) && fresh(hasher.buffer)
      invariant hasher.Fed() == Flatten(pieces[..i])
    {
      hasher.Update(pieces[i]);
      assert pieces[..i + 1][..i] == pieces[..i];
    }
    assert pieces[..|pieces|] == pieces;
    digest := hasher.Final();
  }
}
