/** Fixed-size chunking (src/chunking.cpp). */
module Chunking {
  import opened Basics

  const MAX_CHUNK_SIZE: nat := 64 * 1024 * 1024

  predicate ValidChunkSize(size: nat) { 1 <= size <= MAX_CHUNK_SIZE }

  /** A contiguous piece of the input with its content address. */
  datatype Slice = Slice(offset: nat, bytes: Bytes, digest: Digest)

  function Take(total: nat, size: nat, offset: nat): nat
    requires offset <= total
  {
    if total - offset < size then total - offset else size
  }

  /** The slices of the data from an offset on. */
  function SlicesFrom(hash: Bytes -> Digest, data: Bytes, size: nat, offset: nat): seq<Slice>
    requires size > 0 && offset <= |data|
    decreases |data| - offset
  {
    if offset == |data| then []
    else
      var take := Take(|data|, size, offset);
      var piece := data[offset..offset + take];
      [Slice(offset, piece, hash(piece))] + SlicesFrom(hash, data, size, offset + take)
  }

  function Slices(hash: Bytes -> Digest, data: Bytes, size: nat): seq<Slice>
    requires size > 0
  {
    SlicesFrom(hash, data, size, 0)
  }

  function Join(slices: seq<Slice>): Bytes
  {
    if slices == [] then [] else slices[0].bytes + Join(slices[1..])
  }

  /**
   The slices cover the data from an offset to its end without gap or overlap, each is as long
   as the chunk size unless it is the last, none is empty, and each is addressed by its content.
   */
  predicate Tiles(hash: Bytes -> Digest, data: Bytes, size: nat, offset: nat, ss: seq<Slice>)
  {
    && (if ss == [] then offset == |data| else ss[0].offset == offset)
    && forall i :: 0 <= i < |ss| ==> TileAt(hash, data, size, ss, i)
  }

  predicate TileAt(hash: Bytes -> Digest, data: Bytes, size: nat, ss: seq<Slice>, i: nat)
    requires i < |ss|
  {
    var s := ss[i];
    && 0 < |s.bytes| <= size
    && s.offset + |s.bytes| == (if i == |ss| - 1 then |data| else ss[i + 1].offset)
    && (i < |ss| - 1 ==> |s.bytes| == size)
    && s.offset + |s.bytes| <= |data|
    && s.bytes == data[s.offset..s.offset + |s.bytes|]
    && s.digest == hash(s.bytes)
  }

  lemma {:induction false} SlicesTile(hash: Bytes -> Digest, data: Bytes, size: nat, offset: nat)
    requires size > 0 && offset <= |data|
    ensures Tiles(hash, data, size, offset, SlicesFrom(hash, data, size, offset))
    decreases |data| - offset
  {
    if offset < |data| {
      var take := Take(|data|, size, offset);
      SlicesTile(hash, data, size, offset + take);
      var ss, rest := SlicesFrom(hash, data, size, offset), SlicesFrom(hash, data, size, offset + take);
      assert ss == [ss[0]] + rest;
      forall i | 0 <= i < |ss|
        ensures TileAt(hash, data, size, ss, i)
      {
        hide SlicesFrom;
        if i > 0 {
          assert TileAt(hash, data, size, rest, i - 1);
        }
      }
    }
  }

  /** Put back together, the slices are the data. */
  lemma {:induction false} SlicesJoin(hash: Bytes -> Digest, data: Bytes, size: nat, offset: nat)
    requires size > 0 && offset <= |data|
    ensures Join(SlicesFrom(hash, data, size, offset)) == data[offset..]
    decreases |data| - offset
  {
    if offset < |data| {
      var take := Take(|data|, size, offset);
      SlicesJoin(hash, data, size, offset + take);
      var ss, rest := SlicesFrom(hash, data, size, offset), SlicesFrom(hash, data, size, offset + take);
      assert ss[1..] == rest;
      assert data[offset..] == data[offset..offset + take] + data[offset + take..];
    }
  }

  /** The number of slices is the data length divided by the chunk size, rounded up. */
  lemma {:induction false} SliceCount(hash: Bytes -> Digest, data: Bytes, size: nat, offset: nat)
    requires size > 0 && offset <= |data|
    ensures var n := |SlicesFrom(hash, data, size, offset)|;
      |data| - offset <= n * size < |data| - offset + size
    decreases |data| - offset
  {
    if offset < |data| {
      var take := Take(|data|, size, offset);
      SliceCount(hash, data, size, offset + take);
      var rest := |SlicesFrom(hash, data, size, offset + take)|;
      assert (1 + rest) * size == size + rest * size;
    }
  }

  /** chunk_stream: rejects an invalid size, otherwise one pass over the data. */
  method ChunkStream(hash: Bytes -> Digest, data: Bytes, size: nat) returns (r: Option<seq<Slice>>)
    ensures r.Some? <==> ValidChunkSize(size)
    ensures r.Some? ==> r.value == Slices(hash, data, size)
  {
    if !ValidChunkSize(size) {
      return None;
    }
    var slices, offset := [], 0;
    while offset < |data|
      invariant offset <= |data|
      invariant slices + SlicesFrom(hash, data, size, offset) == Slices(hash, data, size)
    {
      var take := Take(|data|, size, offset);
      var piece := data[offset..offset + take];
      slices := slices + [Slice(offset, piece, hash(piece))];
      offset := offset + take;
    }
    return Some(slices);
  }
}
