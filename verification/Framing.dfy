/** The framed protocol of src/protocol.cpp: encoding, decoding and reading from a growing buffer. */
module Framing {
  import opened Basics
  import opened Binary
  import Crc32

  const MAGIC: nat := 0x52465343
  const VERSION: nat := 1
  const MAX_PAYLOAD: nat := 16 * 1024 * 1024
  const LAST_KIND: nat := 14
  const HEADER: nat := 11
  const OVERHEAD: nat := 15

  /** A message kind is its enumerator's number, kHeartbeat = 0 to kBye = 14. */
  type Kind = k: nat | k <= 14

  datatype Frame = Frame(kind: Kind, payload: Bytes)

  datatype FrameError = Truncated | BadMagic | UnsupportedVersion | Malformed | ChecksumMismatch

  function Checksum(payload: Bytes): nat { Crc32.Crc(payload, 0) as int }

  /** The length field is the low 32 bits of the payload size. */
  function Encode(f: Frame): Bytes
  {
    LittleEndian(MAGIC, 4) + LittleEndian(VERSION, 2) + [f.kind] + LittleEndian(|f.payload|, 4)
    + f.payload + LittleEndian(Checksum(f.payload), 4)
  }

  function Field(b: Bytes, pos: nat, width: nat): nat
    requires pos + width <= |b|
  {
    Value(b[pos..pos + width])
  }

  function Decode(b: Bytes): Result<Frame, FrameError>
  {
    if |b| < OVERHEAD then Err(Truncated)
    else if Field(b, 0, 4) != MAGIC then Err(BadMagic)
    else if Field(b, 4, 2) != VERSION then Err(UnsupportedVersion)
    else if b[6] > LAST_KIND then Err(Malformed)
    else
      var len := Field(b, 7, 4);
      if len > MAX_PAYLOAD then Err(Malformed)
      else if |b| < OVERHEAD + len then Err(Truncated)
      else
        var payload := b[HEADER..HEADER + len];
        if Checksum(payload) != Field(b, HEADER + len, 4) then Err(ChecksumMismatch)
        else if |b| != OVERHEAD + len then Err(Malformed)
        else Ok(Frame(b[6], payload))
  }

  /** The outcome of reading one frame: not enough bytes, a bad header, a rejected frame, or a frame. */
  datatype ReadResult = NeedMore | BadHeader | Rejected(error: FrameError) | Got(frame: Frame, consumed: nat)

  function TryRead(b: Bytes): ReadResult
  {
    if |b| < OVERHEAD then NeedMore
    else if Field(b, 0, 4) != MAGIC then BadHeader
    else
      var len := Field(b, 7, 4);
      if len > MAX_PAYLOAD then BadHeader
      else if |b| < OVERHEAD + len then NeedMore
      else
        match Decode(b[..OVERHEAD + len])
        case Err(e) => Rejected(e)
        case Ok(f) => Got(f, OVERHEAD + len)
  }

  predicate Fits(f: Frame) { |f.payload| <= MAX_PAYLOAD }

  // ----- Field layout -----

  /** Every field of an encoded frame, whatever follows it in the buffer. */
  lemma EncodedFields(f: Frame, rest: Bytes)
    requires Fits(f)
    ensures var b := Encode(f) + rest;
      && |Encode(f)| == 15 + |f.payload|
      && Field(b, 0, 4) == 0x52465343 && Field(b, 4, 2) == 1 && b[6] == f.kind
      && Field(b, 7, 4) == |f.payload|
      && b[11..11 + |f.payload|] == f.payload
      && Field(b, 11 + |f.payload|, 4) == Crc32.Crc(f.payload, 0) as int
  {
    hide LittleEndian, Value, Crc32.Crc;
    var b, n := Encode(f) + rest, |f.payload|;
    Widths();
    ValueOfLittleEndian(MAGIC, 4);
    ValueOfLittleEndian(VERSION, 2);
    ValueOfLittleEndian(n, 4);
    ChecksumBound(f.payload);
    ValueOfLittleEndian(Checksum(f.payload), 4);
    assert b[0..4] == LittleEndian(MAGIC, 4);
    assert b[4..6] == LittleEndian(VERSION, 2);
    assert b[7..11] == LittleEndian(n, 4);
    assert b[11..11 + n] == f.payload;
    assert b[11 + n..15 + n] == LittleEndian(Checksum(f.payload), 4);
  }

  lemma ChecksumBound(payload: Bytes)
    ensures Checksum(payload) < 0x1_0000_0000
  {
    hide Crc32.Crc;
  }

  // ----- Framing is a bijection -----

  /** Whatever Decode accepts is the encoding of what it returned. */
  lemma EncodeDecode(b: Bytes, f: Frame)
    requires Decode(b) == Ok(f)
    ensures Fits(f) && b == Encode(f)
  {
    hide LittleEndian, Value, Checksum;
    var n := Field(b, 7, 4);
    LittleEndianOfValue(b[0..4]);
    LittleEndianOfValue(b[4..6]);
    LittleEndianOfValue(b[7..11]);
    LittleEndianOfValue(b[11 + n..15 + n]);
    assert b == b[0..4] + b[4..6] + [b[6]] + b[7..11] + b[11..11 + n] + b[11 + n..15 + n];
  }

  /** Decoding inverts encoding, exactly for the payloads within the limit. */
  lemma DecodeEncode(f: Frame)
    ensures Decode(Encode(f)) == Ok(f) <==> |f.payload| <= 16_777_216
  {
    hide LittleEndian, Value, Crc32.Crc, Encode;
    if Fits(f) {
      EncodedFields(f, []);
      assert Encode(f) + [] == Encode(f);
    } else if Decode(Encode(f)) == Ok(f) {
      EncodeDecode(Encode(f), f);
    }
  }

  /** Why a whole frame is refused: the first of the checks that fails, in the order of the bytes. */
  lemma RefusedExactly(b: Bytes)
    ensures var r := Decode(b);
      if |b| < 15 then r == Err(Truncated)
      else if Field(b, 0, 4) != 0x52465343 then r == Err(BadMagic)
      else if Field(b, 4, 2) != 1 then r == Err(UnsupportedVersion)
      else if b[6] > 14 || Field(b, 7, 4) > 16_777_216 then r == Err(Malformed)
      else if |b| < 15 + Field(b, 7, 4) then r == Err(Truncated)
      else if Crc32.Crc(b[11..11 + Field(b, 7, 4)], 0) as int != Field(b, 11 + Field(b, 7, 4), 4)
      then r == Err(ChecksumMismatch)
      else if |b| > 15 + Field(b, 7, 4) then r == Err(Malformed)
      else r.Ok? && b == Encode(r.value)
  {
    hide LittleEndian, Value, Crc32.Crc, Encode;
    if Decode(b).Ok? {
      EncodeDecode(b, Decode(b).value);
    }
  }

  // ----- Reading from a buffer that grows -----

  /** A whole frame at the front of the buffer is read, and nothing beyond it is looked at. */
  lemma ReadWhole(f: Frame, rest: Bytes)
    requires Fits(f)
    ensures TryRead(Encode(f) + rest) == Got(f, |Encode(f)|)
  {
    hide LittleEndian, Value, Checksum, Encode, Decode;
    EncodedFields(f, rest);
    DecodeEncode(f);
    assert (Encode(f) + rest)[..OVERHEAD + |f.payload|] == Encode(f);
  }

  /** A proper prefix of a frame always asks for more. */
  lemma ReadPrefix(f: Frame, p: Bytes)
    requires Fits(f) && p < Encode(f)
    ensures TryRead(p) == NeedMore
  {
    hide LittleEndian, Value, Checksum, Encode, Decode;
    EncodedFields(f, []);
    assert Encode(f) + [] == Encode(f);
    if |p| >= OVERHEAD {
      assert p[0..4] == Encode(f)[0..4] && p[7..11] == Encode(f)[7..11];
    }
  }

  /** Appending bytes never changes a frame already read. */
  lemma ReadStable(b: Bytes, more: Bytes)
    requires TryRead(b).Got?
    ensures TryRead(b + more) == TryRead(b)
    ensures TryRead(b).consumed <= |b| && b[..TryRead(b).consumed] == Encode(TryRead(b).frame)
  {
    hide LittleEndian, Value, Checksum, Encode, Decode;
    var n := OVERHEAD + Field(b, 7, 4);
    var f := TryRead(b).frame;
    EncodeDecode(b[..n], f);
    ReadWhole(f, b[n..] + more);
    assert b == b[..n] + b[n..];
    assert b + more == Encode(f) + (b[n..] + more);
    EncodedFields(f, b[n..]);
  }

  /** The buffer shows the magic and a payload length of at most 16 MiB. */
  predicate HeaderPasses(b: Bytes)
  {
    |b| >= 11 && Field(b, 0, 4) == 0x52465343 && Field(b, 7, 4) <= 16_777_216
  }

  /**
   Reading asks for more exactly when there are fewer than 15 bytes or the header passes and announces
   more than there is; it gives up on the header exactly when there are 15 bytes and it does not pass.
   */
  lemma ReadExactly(b: Bytes)
    ensures TryRead(b).NeedMore? <==> |b| < 15 || (HeaderPasses(b) && |b| < 15 + Field(b, 7, 4))
    ensures TryRead(b).BadHeader? <==> |b| >= 15 && !HeaderPasses(b)
    ensures TryRead(b).Rejected? ==> HeaderPasses(b) && Decode(b[..15 + Field(b, 7, 4)]) == Err(TryRead(b).error)
  {
    hide Value, Checksum, Decode;
  }

  /** Of 15 bytes or more, those are asked to grow whose every continuation passes as a header and can be read whole. */
  lemma MoreExactly(b: Bytes, more: Bytes)
    requires |b| >= 15
    ensures TryRead(b).NeedMore? ==> !TryRead(b + more).BadHeader?
    ensures TryRead(b).NeedMore? && |b| + |more| >= 15 + Field(b, 7, 4) ==> !TryRead(b + more).NeedMore?
    ensures TryRead(b).BadHeader? ==> TryRead(b + more).BadHeader?
  {
    hide Value, Decode, TryRead;
    ReadExactly(b);
    ReadExactly(b + more);
    assert (b + more)[0..4] == b[0..4] && (b + more)[7..11] == b[7..11];
  }

  /** Fewer bytes are asked to grow even when no continuation is ever read: one that does not begin with the magic. */
  lemma ShortGarbageWaits(more: Bytes)
    ensures TryRead([0]).NeedMore? && !TryRead([0] + more).Got?
  {
    hide Value, Decode, TryRead;
    ReadExactly([0]);
    ReadExactly([0] + more);
    if |more| >= 14 {
      WrongFirstByte([0] + more);
    }
  }

  lemma WrongFirstByte(b: Bytes)
    requires |b| >= 4 && b[0] == 0
    ensures Field(b, 0, 4) != 0x52465343
  {
    var w := b[0..4];
    assert Value(w) == w[0] + 256 * Value(w[1..]);
  }

  function EncodeAll(fs: seq<Frame>): Bytes
  {
    if fs == [] then [] else Encode(fs[0]) + EncodeAll(fs[1..])
  }

  predicate AllFit(fs: seq<Frame>) { forall f <- fs :: Fits(f) }

  function Concat(segments: seq<Bytes>): Bytes
  {
    if segments == [] then [] else segments[0] + Concat(segments[1..])
  }

  /** The buffer is the start of the frames still to come: it yields the next one or asks for more. */
  lemma Progress(left: Bytes, later: Bytes, todo: seq<Frame>)
    requires AllFit(todo) && left + later == EncodeAll(todo)
    ensures TryRead(left).Got? ==>
      && todo != [] && TryRead(left) == Got(todo[0], |Encode(todo[0])|)
      && 0 < |Encode(todo[0])| <= |left|
      && left[|Encode(todo[0])|..] + later == EncodeAll(todo[1..])
    ensures TryRead(left).Got? || TryRead(left).NeedMore?
    ensures later == [] && todo != [] ==> TryRead(left).Got?
  {
    hide LittleEndian, Value, Checksum, Encode, Decode, TryRead;
    if todo == [] {
      assert left == [];
      EmptyNeedsMore();
    } else {
      var e, rest := Encode(todo[0]), EncodeAll(todo[1..]);
      EncodedFields(todo[0], []);
      assert e + rest == left + later;
      if |left| < |e| {
        assert left == (left + later)[..|left|] == e[..|left|];
        ReadPrefix(todo[0], left);
      } else {
        assert left[..|e|] == e;
        assert left == e + left[|e|..];
        ReadWhole(todo[0], left[|e|..]);
        assert left[|e|..] + later == rest;
      }
    }
  }

  lemma EmptyNeedsMore()
    ensures TryRead([]) == NeedMore
  {
  }

  /** Takes frames off the front of a buffer until none is complete. */
  method Drain(buffer: Bytes, ghost later: Bytes, ghost todo: seq<Frame>)
    returns (frames: seq<Frame>, left: Bytes)
    requires AllFit(todo) && buffer + later == EncodeAll(todo)
    ensures frames <= todo && left + later == EncodeAll(todo[|frames|..])
    ensures TryRead(left) == NeedMore
  {
    hide TryRead, Encode;
    frames, left := [], buffer;
    var r := TryRead(left);
    Progress(left, later, todo);
    while r.Got?
      invariant frames <= todo && r == TryRead(left)
      invariant left + later == EncodeAll(todo[|frames|..])
      invariant r.Got? || r.NeedMore?
      decreases |left|
    {
      ghost var next := todo[|frames|..];
      Progress(left, later, next);
      frames := frames + [r.frame];
      left := left[r.consumed..];
      assert todo[|frames|..] == next[1..];
      r := TryRead(left);
      Progress(left, later, next[1..]);
    }
  }

  /**
   A receiver that appends each segment to its buffer and takes whole frames off the front:
   under any segmentation of a stream of encoded frames it reads exactly those frames, in order.
   */
  method Receive(segments: seq<Bytes>, ghost fs: seq<Frame>) returns (frames: seq<Frame>)
    requires AllFit(fs) && Concat(segments) == EncodeAll(fs)
    ensures frames == fs
  {
    hide TryRead, Encode;
    var left: Bytes := [];
    frames := [];
    assert segments[0..] == segments && fs[0..] == fs;
    EmptyNeedsMore();
    for i := 0 to |segments|
      invariant frames <= fs && TryRead(left) == NeedMore
      invariant left + Concat(segments[i..]) == EncodeAll(fs[|frames|..])
    {
      ghost var later, todo := Concat(segments[i + 1..]), fs[|frames|..];
      assert segments[i..][1..] == segments[i + 1..];
      assert (left + segments[i]) + later == left + Concat(segments[i..]);
      var got;
      got, left := Drain(left + segments[i], later, todo);
      assert fs[|frames + got|..] == todo[|got|..];
      assert fs == fs[..|frames|] + todo;
      frames := frames + got;
    }
    assert segments[|segments|..] == [] && left + [] == left;
    Progress(left, [], fs[|frames|..]);
  }

  /** Corruption confined to four consecutive payload bytes is always rejected by its checksum. */
  lemma BurstRejected(kind: Kind, before: Bytes, a: Bytes, b: Bytes, after: Bytes)
    requires |a| == |b| <= 4 && a != b && Fits(Frame(kind, before + a + after))
    ensures var sent := Encode(Frame(kind, before + a + after));
      && |sent| == OVERHEAD + |before + a + after|
      && Decode(sent[..HEADER] + (before + b + after) + sent[HEADER + |before + a + after|..])
         == Err(ChecksumMismatch)
  {
    hide LittleEndian, Value, Crc32.Crc, Encode;
    var good, bad := before + a + after, before + b + after;
    var sent := Encode(Frame(kind, good));
    EncodedFields(Frame(kind, good), []);
    assert sent + [] == sent;
    var got := sent[..HEADER] + bad + sent[HEADER + |good|..];
    assert got[0..4] == sent[0..4] && got[4..6] == sent[4..6] && got[7..11] == sent[7..11];
    assert got[HEADER..HEADER + |bad|] == bad;
    assert got[HEADER + |bad|..HEADER + |bad| + 4] == sent[HEADER + |good|..HEADER + |good| + 4];
    Crc32.BurstChangesCrc(before, a, b, after, 0);
    ChecksumDiffers(good, bad);
  }

  lemma ChecksumDiffers(x: Bytes, y: Bytes)
    requires Crc32.Crc(x, 0) != Crc32.Crc(y, 0)
    ensures Checksum(x) != Checksum(y)
  {
    hide Crc32.Crc;
    WordBack(Crc32.Crc(x, 0));
    WordBack(Crc32.Crc(y, 0));
  }

  lemma WordBack(w: bv32)
    ensures (w as int) as bv32 == w
  {
  }
}
