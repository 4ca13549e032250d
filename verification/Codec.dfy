/**
 The persisted format (src/binformat.cpp and the write/read pairs of src/persistence.cpp).
 A writer puts a value's bytes in front of what is written after it; a reader takes a value off
 the front of its input. Each pair is proved to cancel out.
 */
module Codec {
  import opened Basics
  import opened Binary
  import opened Model

  const MAX_RECORDS: nat := 0x40_0000

  datatype Parsed<+T> = Got(value: T, rest: Bytes) | Bad(error: Error) {
    predicate IsFailure() { Bad? }

    function PropagateFailure<U>(): Parsed<U>
      requires Bad?
    {
      Bad(error)
    }

    function Extract(): (T, Bytes)
      requires Got?
    {
      (value, rest)
    }
  }

  // ----- Primitives -----

  function PutUint(n: nat, width: nat, rest: Bytes): Bytes { LittleEndian(n, width) + rest }

  function GetUint(width: nat, b: Bytes): Parsed<nat>
  {
    if |b| < width then Bad(Truncated) else Got(Value(b[..width]), b[width..])
  }

  function PutU8(n: Byte, rest: Bytes): Bytes { [n] + rest }

  function GetU8(b: Bytes): Parsed<Byte>
  {
    if b == [] then Bad(Truncated) else Got(b[0], b[1..])
  }

  function PutBool(v: bool, rest: Bytes): Bytes { PutU8(if v then 1 else 0, rest) }

  /** Any nonzero byte reads as true. */
  function GetBool(b: Bytes): Parsed<bool>
  {
    var (v, rest) :- GetU8(b);
    Got(v != 0, rest)
  }

  function PutFixed(v: Bytes, rest: Bytes): Bytes { v + rest }

  function GetFixed(n: nat, b: Bytes): Parsed<Bytes>
  {
    if |b| < n then Bad(Truncated) else Got(b[..n], b[n..])
  }

  function GetDigest(b: Bytes): Parsed<Digest>
  {
    if |b| < 32 then Bad(Truncated) else Got(b[..32], b[32..])
  }

  function PutBytes(v: Bytes, rest: Bytes): Bytes { PutUint(|v|, 8, v + rest) }

  function GetBytes(b: Bytes): Parsed<Bytes>
  {
    var (n, rest) :- GetUint(8, b);
    GetFixed(n, rest)
  }

  /** Signed numbers travel as their 64-bit two's complement. */
  function Unsigned(v: int): nat { v % 0x1_0000_0000_0000_0000 }

  function Signed(n: nat): int
  {
    if n < 0x8000_0000_0000_0000 then n else n - 0x1_0000_0000_0000_0000
  }

  predicate FitsSigned(v: int) { -0x8000_0000_0000_0000 <= v < 0x8000_0000_0000_0000 }

  lemma SignedBack(v: int)
    requires FitsSigned(v)
    ensures Unsigned(v) < 0x1_0000_0000_0000_0000 && Signed(Unsigned(v)) == v
  {
  }

  /** Time points are stored in whole milliseconds, truncated toward zero. */
  function Millis(t: int): int { if t >= 0 then t / 1_000_000 else -((-t) / 1_000_000) }

  function WholeMillis(t: int): int { Millis(t) * 1_000_000 }

  lemma UintBack(n: nat, width: nat, rest: Bytes)
    requires n < Pow256(width)
    ensures GetUint(width, PutUint(n, width, rest)) == Got(n, rest)
  {
    ValueOfLittleEndian(n, width);
    var b := LittleEndian(n, width) + rest;
    assert b[..width] == LittleEndian(n, width) && b[width..] == rest;
  }

  lemma U32Back(n: nat, rest: Bytes)
    requires n < 0x1_0000_0000
    ensures GetUint(4, PutUint(n, 4, rest)) == Got(n, rest)
  {
    hide LittleEndian, Value;
    Widths();
    UintBack(n, 4, rest);
  }

  lemma U64Back(n: nat, rest: Bytes)
    requires n < 0x1_0000_0000_0000_0000
    ensures GetUint(8, PutUint(n, 8, rest)) == Got(n, rest)
  {
    hide LittleEndian, Value;
    Widths();
    UintBack(n, 8, rest);
  }

  lemma U8Back(n: Byte, rest: Bytes)
    ensures GetU8(PutU8(n, rest)) == Got(n, rest)
  {
  }

  lemma BoolBack(v: bool, rest: Bytes)
    ensures GetBool(PutBool(v, rest)) == Got(v, rest)
  {
  }

  lemma DigestBack(d: Digest, rest: Bytes)
    ensures GetDigest(PutFixed(d, rest)) == Got(d, rest)
  {
    assert (d + rest)[..32] == d && (d + rest)[32..] == rest;
  }

  lemma BytesBack(v: Bytes, rest: Bytes)
    requires |v| < 0x1_0000_0000_0000_0000
    ensures GetBytes(PutBytes(v, rest)) == Got(v, rest)
  {
    hide GetUint, PutUint;
    U64Back(|v|, v + rest);
    assert (v + rest)[..|v|] == v && (v + rest)[|v|..] == rest;
  }

  // ----- Counted lists -----

  function PutAll<T>(put: (T, Bytes) -> Bytes, xs: seq<T>, rest: Bytes): Bytes
  {
    if xs == [] then rest else put(xs[0], PutAll(put, xs[1..], rest))
  }

  /** The count field keeps the low 32 bits of the length. */
  function PutList<T>(put: (T, Bytes) -> Bytes, xs: seq<T>, rest: Bytes): Bytes
  {
    PutUint(|xs|, 4, PutAll(put, xs, rest))
  }

  function GetMany<T>(get: Bytes -> Parsed<T>, n: nat, b: Bytes): Parsed<seq<T>>
  {
    if n == 0 then Got([], b)
    else
      var (x, rest) :- get(b);
      var (xs, last) :- GetMany(get, n - 1, rest);
      Got([x] + xs, last)
  }

  function GetCount(b: Bytes): Parsed<nat>
  {
    var (n, rest) :- GetUint(4, b);
    if n > MAX_RECORDS then Bad(Malformed) else Got(n, rest)
  }

  function GetList<T>(get: Bytes -> Parsed<T>, b: Bytes): Parsed<seq<T>>
  {
    var (n, rest) :- GetCount(b);
    GetMany(get, n, rest)
  }

  /** The reader undoes the writer on one value, whatever follows it. */
  ghost predicate Cancels<T>(put: (T, Bytes) -> Bytes, get: Bytes -> Parsed<T>, x: T)
  {
    forall rest: Bytes :: get(put(x, rest)) == Got(x, rest)
  }

  lemma CountBack(n: nat, rest: Bytes)
    requires n <= MAX_RECORDS
    ensures GetCount(PutUint(n, 4, rest)) == Got(n, rest)
  {
    hide PutUint, GetUint;
    U32Back(n, rest);
  }

  /** A count of more than 2^22 records is refused. */
  lemma CountExactly(n: nat, rest: Bytes)
    requires n < 0x1_0000_0000
    ensures GetCount(PutUint(n, 4, rest)) == if n <= 4_194_304 then Got(n, rest) else Bad(Malformed)
  {
    hide PutUint, GetUint;
    U32Back(n, rest);
  }

  lemma {:induction false} ManyBack<T>(put: (T, Bytes) -> Bytes, get: Bytes -> Parsed<T>, xs: seq<T>, rest: Bytes)
    requires forall x <- xs :: Cancels(put, get, x)
    ensures GetMany(get, |xs|, PutAll(put, xs, rest)) == Got(xs, rest)
  {
    if xs != [] {
      ManyBack(put, get, xs[1..], rest);
      assert Cancels(put, get, xs[0]);
      assert [xs[0]] + xs[1..] == xs;
    }
  }

  lemma ListBack<T>(put: (T, Bytes) -> Bytes, get: Bytes -> Parsed<T>, xs: seq<T>, rest: Bytes)
    requires |xs| <= MAX_RECORDS && forall x <- xs :: Cancels(put, get, x)
    ensures GetList(get, PutList(put, xs, rest)) == Got(xs, rest)
  {
    hide PutUint, GetCount, GetMany, PutAll;
    CountBack(|xs|, PutAll(put, xs, rest));
    ManyBack(put, get, xs, rest);
  }

  // ----- Identities and optional identities -----

  function PutId(id: Id, rest: Bytes): Bytes { PutUint(id, 8, rest) }

  function GetId(b: Bytes): Parsed<Id> { GetUint(8, b) }

  predicate FitsId(id: Id) { id < 0x1_0000_0000_0000_0000 }

  predicate FitsIds(ids: seq<Id>) { |ids| <= MAX_RECORDS && forall id <- ids :: FitsId(id) }

  lemma IdBack(id: Id)
    requires FitsId(id)
    ensures Cancels(PutId, GetId, id)
  {
    hide PutUint, GetUint;
    forall rest: Bytes
      ensures GetId(PutId(id, rest)) == Got(id, rest)
    {
      U64Back(id, rest);
    }
  }

  lemma IdsBack(ids: seq<Id>, rest: Bytes)
    requires FitsIds(ids)
    ensures GetList(GetId, PutList(PutId, ids, rest)) == Got(ids, rest)
  {
    hide PutUint, GetUint, PutList, GetList;
    forall id <- ids
      ensures Cancels(PutId, GetId, id)
    {
      IdBack(id);
    }
    ListBack(PutId, GetId, ids, rest);
  }

  function PutOption(o: Option<Id>, rest: Bytes): Bytes
  {
    match o
    case None => PutBool(false, rest)
    case Some(id) => PutBool(true, PutId(id, rest))
  }

  function GetOption(b: Bytes): Parsed<Option<Id>>
  {
    var (present, rest) :- GetBool(b);
    if !present then Got(None, rest)
    else
      var (id, last) :- GetId(rest);
      Got(Some(id), last)
  }

  predicate FitsOption(o: Option<Id>) { o.Some? ==> FitsId(o.value) }

  lemma OptionBack(o: Option<Id>, rest: Bytes)
    requires FitsOption(o)
    ensures GetOption(PutOption(o, rest)) == Got(o, rest)
  {
    hide PutUint, GetUint, PutBool, GetBool;
    match o
    case None =>
      BoolBack(false, rest);
    case Some(id) =>
      BoolBack(true, PutId(id, rest));
      U64Back(id, rest);
  }

  /** Every kind of field reads back as written. */
  lemma FieldsBack()
    ensures forall id: Id, rest: Bytes :: FitsId(id) ==> GetId(PutId(id, rest)) == Got(id, rest)
    ensures forall v: int :: FitsSigned(v) ==> FitsId(Unsigned(v)) && Signed(Unsigned(v)) == v
    ensures forall n: Byte, rest: Bytes :: GetU8(PutU8(n, rest)) == Got(n, rest)
    ensures forall v: bool, rest: Bytes :: GetBool(PutBool(v, rest)) == Got(v, rest)
    ensures forall d: Digest, rest: Bytes :: GetDigest(PutFixed(d, rest)) == Got(d, rest)
    ensures forall v: Bytes, rest: Bytes :: FitsId(|v|) ==> GetBytes(PutBytes(v, rest)) == Got(v, rest)
    ensures forall o: Option<Id>, rest: Bytes :: FitsOption(o) ==> GetOption(PutOption(o, rest)) == Got(o, rest)
    ensures forall ids: seq<Id>, rest: Bytes :: FitsIds(ids) ==>
            GetList(GetId, PutList(PutId, ids, rest)) == Got(ids, rest)
  {
    hide PutUint, GetUint, PutU8, GetU8, PutBool, GetBool, PutFixed, GetDigest, PutBytes, GetBytes, PutOption,
         GetOption, PutList, GetList, Unsigned, Signed;
    forall id: Id, rest: Bytes | FitsId(id) ensures GetId(PutId(id, rest)) == Got(id, rest) { U64Back(id, rest); }
    forall v: int | FitsSigned(v) ensures FitsId(Unsigned(v)) && Signed(Unsigned(v)) == v { SignedBack(v); }
    forall n: Byte, rest: Bytes ensures GetU8(PutU8(n, rest)) == Got(n, rest) { U8Back(n, rest); }
    forall v: bool, rest: Bytes ensures GetBool(PutBool(v, rest)) == Got(v, rest) { BoolBack(v, rest); }
    forall d: Digest, rest: Bytes ensures GetDigest(PutFixed(d, rest)) == Got(d, rest) { DigestBack(d, rest); }
    forall v: Bytes, rest: Bytes | FitsId(|v|)
      ensures GetBytes(PutBytes(v, rest)) == Got(v, rest) { BytesBack(v, rest); }
    forall o: Option<Id>, rest: Bytes | FitsOption(o) ensures GetOption(PutOption(o, rest)) == Got(o, rest) {
      OptionBack(o, rest);
    }
    forall ids: seq<Id>, rest: Bytes | FitsIds(ids)
      ensures GetList(GetId, PutList(PutId, ids, rest)) == Got(ids, rest) {
      IdsBack(ids, rest);
    }
  }
}
