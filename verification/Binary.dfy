/** Fixed-width little-endian integers (src/binformat.cpp), the base of both binary formats. */
module Binary {
  import opened Basics

  function Pow256(k: nat): (p: nat)
    ensures p > 0
  {
    if k == 0 then 1 else 256 * Pow256(k - 1)
  }

  /** The low `width` bytes of a number, least significant first. */
  function LittleEndian(n: nat, width: nat): (b: Bytes)
    ensures |b| == width
  {
    if width == 0 then [] else [n % 256] + LittleEndian(n / 256, width - 1)
  }

  /** The number a little-endian byte string stands for. */
  function Value(b: Bytes): nat
  {
    if b == [] then 0 else b[0] + 256 * Value(b[1..])
  }

  lemma {:induction false} ValueOfLittleEndian(n: nat, width: nat)
    requires n < Pow256(width)
    ensures Value(LittleEndian(n, width)) == n
  {
    if width > 0 {
      ValueOfLittleEndian(n / 256, width - 1);
      assert LittleEndian(n, width)[1..] == LittleEndian(n / 256, width - 1);
    }
  }

  lemma {:induction false} LittleEndianOfValue(b: Bytes)
    ensures LittleEndian(Value(b), |b|) == b
  {
    if b != [] {
      LittleEndianOfValue(b[1..]);
      assert b == [b[0]] + b[1..];
    }
  }

  lemma Widths()
    ensures Pow256(1) == 0x100
    ensures Pow256(2) == 0x1_0000
    ensures Pow256(4) == 0x1_0000_0000
    ensures Pow256(8) == 0x1_0000_0000_0000_0000
  {
    assert Pow256(4) == 0x1_0000 * Pow256(2);
    assert Pow256(8) == 0x1_0000 * Pow256(6) == 0x1_0000_0000 * Pow256(4);
  }

  /** put_le: one pass, shifting the value down a byte at a time. */
  method PutLe(out: Bytes, v: nat, width: nat) returns (r: Bytes)
    ensures r == out + LittleEndian(v, width)
  {
    r := out;
    var rest := v;
    for i := 0 to width
      invariant r + LittleEndian(rest, width - i) == out + LittleEndian(v, width)
    {
      r := r + [rest % 256];
      rest := rest / 256;
    }
  }

  /** get_le: one pass, adding each byte at its place; too few bytes is an error. */
  method GetLe(view: Bytes, pos: nat, width: nat) returns (v: Option<nat>)
    ensures pos + width > |view| ==> v == None
    ensures pos + width <= |view| ==> v == Some(Value(view[pos..pos + width]))
  {
    if pos + width > |view| {
      return None;
    }
    var sum: int, place: int := 0, 1;
    for i := 0 to width
      invariant place == Pow256(i)
      invariant sum + place * Value(view[pos + i..pos + width]) == Value(view[pos..pos + width])
    {
      assert view[pos + i..pos + width][1..] == view[pos + i + 1..pos + width];
      ValueStep(sum, place, view[pos + i], Value(view[pos + i + 1..pos + width]));
      sum := sum + place * view[pos + i];
      place := 256 * place;
    }
    return Some(sum);
  }

  lemma ValueStep(sum: int, place: int, b: int, rest: int)
    ensures sum + place * (b + 256 * rest) == sum + place * b + 256 * place * rest
  {
  }
}
