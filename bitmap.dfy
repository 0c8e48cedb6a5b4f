/**
 * `Bitmap` of src/lib.ts: a bit array packed into a `Uint8Array`, bit `i` being
 * bit `i & 7` of byte `i >> 3`. Accesses outside the bytes are ignored by the
 * typed array: a write does nothing and a read yields 0. Indices are 32-bit
 * integers, as the source's shifts make them.
 */
module Bitmaps {

  predicate IsInt32(i: int) { -0x8000_0000 <= i < 0x8000_0000 }

  /** The byte holding bit `index`: `index >> 3`, a flooring shift. */
  function ByteIndex(index: int): int { index / 8 }

  /** The bit within that byte: `index & 7`. */
  function BitIndex(index: int): (b: bv8)
    ensures b < 8
  {
    var k := index % 8;
    if k == 0 then 0 else if k == 1 then 1 else if k == 2 then 2 else if k == 3 then 3
    else if k == 4 then 4 else if k == 5 then 5 else if k == 6 then 6 else 7
  }

  /** `view[index >> 3] >> (index & 7) & 1`, with an absent byte reading as 0. */
  function BitOf(bytes: seq<bv8>, index: int): (r: bv8)
    ensures r == 0 || r == 1
  {
    var byteIndex := ByteIndex(index);
    if 0 <= byteIndex < |bytes| then (bytes[byteIndex] >> BitIndex(index)) & 1 else 0
  }

  /** The bytes after `set(index, value)`: the one byte or-ed with or masked by `1 << (index & 7)`. */
  function SetBit(bytes: seq<bv8>, index: int, value: int): (r: seq<bv8>)
    ensures |r| == |bytes|
  {
    var byteIndex := ByteIndex(index);
    var mask: bv8 := 1 << BitIndex(index);
    if 0 <= byteIndex < |bytes| then
      bytes[byteIndex := if value != 0 then bytes[byteIndex] | mask else bytes[byteIndex] & !mask]
    else bytes
  }

  /** Setting or clearing bit `b` of a byte leaves bit `c != b` as it was, and gives bit `b` the new value. */
  lemma SameByteOtherBit(x: bv8, b: bv8, c: bv8, on: bool)
    requires b < 8 && c < 8
    ensures var y := if on then x | (1 << b) else x & !(1 << b);
      (b != c ==> (y >> c) & 1 == (x >> c) & 1) && ((y >> b) & 1 == 1) == on
  {
  }

  /** Two different indices in the same byte are different bits of it. */
  lemma SameByteDifferentBit(i: int, j: int)
    requires i != j && ByteIndex(i) == ByteIndex(j)
    ensures BitIndex(i) != BitIndex(j)
  {
    assert i == 8 * (i / 8) + i % 8;
    assert j == 8 * (j / 8) + j % 8;
  }

  /** `get(i)` after `set(i, v)` reads 1 exactly when v is truthy, if bit i lies inside the bytes. */
  lemma SetThenGetSame(bytes: seq<bv8>, i: int, value: int)
    requires 0 <= ByteIndex(i) < |bytes|
    ensures BitOf(SetBit(bytes, i, value), i) == if value != 0 then 1 else 0
  {
    SameByteOtherBit(bytes[ByteIndex(i)], BitIndex(i), BitIndex(i), value != 0);
  }

  /** `set(i, v)` leaves bit j of every other index as it was; outside the bytes it changes nothing. */
  lemma SetThenGetOther(bytes: seq<bv8>, i: int, value: int, j: int)
    requires j != i
    ensures BitOf(SetBit(bytes, i, value), j) == BitOf(bytes, j)
    ensures !(0 <= ByteIndex(i) < |bytes|) ==> SetBit(bytes, i, value) == bytes
  {
    var bi := ByteIndex(i);
    if 0 <= bi < |bytes| && ByteIndex(j) == bi {
      SameByteDifferentBit(i, j);
      SameByteOtherBit(bytes[bi], BitIndex(i), BitIndex(j), value != 0);
    }
  }

  class Bitmap {
    const view: array<bv8>

    /** `new Bitmap(length)`: `(length + 7) >> 3` zero bytes, enough for `length` bits. */
    constructor(length: nat)
      ensures fresh(view) && view.Length == (length + 7) / 8
      ensures forall i :: 0 <= i < view.Length ==> view[i] == 0
    {
      view := new bv8[(length + 7) / 8](_ => 0);
    }

    /** `new Bitmap(buffer)`: the bits of an existing byte buffer. */
    constructor FromBuffer(bytes: seq<bv8>)
      ensures fresh(view) && view[..] == bytes
    {
      view := new bv8[|bytes|](i requires 0 <= i < |bytes| => bytes[i]);
    }

    /** `get(index)`: 0 or 1, and 0 for an index outside the bytes. */
    function Get(index: int): (r: bv8)
      reads view
      requires IsInt32(index)
      ensures r == 0 || r == 1
      ensures !(0 <= ByteIndex(index) < view.Length) ==> r == 0
    {
      BitOf(view[..], index)
    }

    /** `set(index, value)`: set or clear one bit in place. */
    method Set(index: int, value: int)
      requires IsInt32(index)
      modifies view
      ensures view[..] == SetBit(old(view[..]), index, value)
    {
      var byteIndex := ByteIndex(index);
      var mask: bv8 := 1 << BitIndex(index);
      if 0 <= byteIndex < view.Length {
        view[byteIndex] := if value != 0 then view[byteIndex] | mask else view[byteIndex] & !mask;
      }
    }
  }
}
