/**
 * Integer logarithms of src/lib.ts: the byte table filled by a loop, the
 * `int_log2` lookup that walks that table a byte at a time, and
 * `round_up_to_next_power_of_2`, whose shift is a 32-bit JavaScript `<<`.
 */
module Log2 {

  function Pow2(k: nat): (p: nat)
    ensures p >= 1
  {
    if k == 0 then 1 else 2 * Pow2(k - 1)
  }

  lemma {:induction false} Pow2Add(a: nat, b: nat)
    ensures Pow2(a + b) == Pow2(a) * Pow2(b)
    decreases a
  {
    if a > 0 { Pow2Add(a - 1, b); }
  }

  lemma {:induction false} Pow2Monotone(a: nat, b: nat)
    requires a <= b
    ensures Pow2(a) <= Pow2(b)
    decreases b - a
  {
    if a < b { Pow2Monotone(a + 1, b); }
  }

  lemma Pow2Values()
    ensures Pow2(1) == 2 && Pow2(2) == 4 && Pow2(3) == 8 && Pow2(4) == 16
    ensures Pow2(5) == 32 && Pow2(6) == 64 && Pow2(7) == 128 && Pow2(8) == 256
    ensures Pow2(16) == 0x10000 && Pow2(24) == 0x100_0000
    ensures Pow2(30) == 0x4000_0000 && Pow2(31) == 0x8000_0000 && Pow2(32) == 0x1_0000_0000
  {
    Pow2Add(8, 8);
    Pow2Add(16, 8);
    Pow2Add(24, 6);
    Pow2Add(30, 1);
    Pow2Add(31, 1);
  }

  /** The k with 2^k <= x < 2^(k+1): the reference definition of an integer logarithm. */
  function FloorLog2(x: nat): (k: nat)
    requires x >= 1
    ensures Pow2(k) <= x < Pow2(k + 1)
    decreases x
  {
    if x < 2 then 0 else 1 + FloorLog2(x / 2)
  }

  /** The logarithm is unique: any k with 2^k <= x < 2^(k+1) is FloorLog2(x). */
  lemma FloorLog2Unique(x: nat, k: nat)
    requires x >= 1 && Pow2(k) <= x < Pow2(k + 1)
    ensures FloorLog2(x) == k
  {
    var f := FloorLog2(x);
    if f < k { Pow2Monotone(f + 1, k); }
    if k < f { Pow2Monotone(k + 1, f); }
  }

  /** The logarithm of a byte, by comparison with the powers of two; -1 for 0. */
  function ByteLog2(i: int): int
  {
    if i >= 128 then 7 else if i >= 64 then 6 else if i >= 32 then 5 else if i >= 16 then 4
    else if i >= 8 then 3 else if i >= 4 then 2 else if i >= 2 then 1 else if i >= 1 then 0 else -1
  }

  lemma {:induction false} ByteLog2IsLog2(i: int)
    requires 1 <= i < 256
    ensures ByteLog2(i) == FloorLog2(i) && 0 <= ByteLog2(i) <= 7
    decreases i
  {
    if i >= 2 {
      ByteLog2IsLog2(i / 2);
      assert ByteLog2(i) == 1 + ByteLog2(i / 2);
    }
  }

  /** The contents of the 256-entry `int_log2_table`: -1 at 0, the logarithm elsewhere. */
  function Log2Table(): (t: seq<int>)
    ensures |t| == 256
  {
    seq(256, i => ByteLog2(i))
  }

  /** For a byte, `!(i & i - 1)` holds exactly for 0 and the powers of two. */
  lemma ByteSinglesOut(x: bv16)
    requires x < 256
    ensures (x & (x - 1) == 0) <==> (x == 0 || x == 1 || x == 2 || x == 4 || x == 8 || x == 16 || x == 32 || x == 64 || x == 128)
  {
  }

  /** Passing from i-1 to i raises the logarithm exactly at 0 and at the powers of two. */
  lemma Log2Step(i: int)
    requires 1 <= i < 256
    ensures ByteLog2(i) == ByteLog2(i - 1) + (if i == 1 || i == 2 || i == 4 || i == 8 || i == 16 || i == 32 || i == 64 || i == 128 then 1 else 0)
  {
  }

  /** One step of the table-filling loop: b steps up exactly when `!(i & i - 1)`. */
  lemma NextLog2(i: int, b: int)
    requires 0 <= i < 256 && b == if i == 0 then -2 else ByteLog2(i - 1)
    ensures (if (i as bv16) & ((i as bv16) - 1) == 0 then b + 1 else b) == ByteLog2(i)
  {
    ByteSinglesOut(i as bv16);
    if i >= 1 { Log2Step(i); }
  }

  /** The table-filling loop: b starts at -2 and steps up at 0 and at every power of two. */
  method FillLog2Table() returns (table: array<int>)
    ensures table.Length == 256 && table[..] == Log2Table()
  {
    table := new int[256];
    var i := 0;
    var b := -2;
    while i < 256
      invariant 0 <= i <= 256
      invariant b == if i == 0 then -2 else ByteLog2(i - 1)
      invariant forall j :: 0 <= j < i ==> table[j] == ByteLog2(j)
    {
      var iv := i as bv16;
      ghost var previous := b;
      if iv & (iv - 1) == 0 {
        b := b + 1;
      }
      NextLog2(i, previous);
      table[i] := b;
      i := i + 1;
    }
  }

  /** Eight halvings: dropping the low byte lowers the logarithm by 8. */
  lemma FloorLog2Shift8(x: nat)
    requires x >= 0x100
    ensures FloorLog2(x) == 8 + FloorLog2(x / 0x100)
  {
    var x1 := x / 2;
    var x2 := x1 / 2;
    var x3 := x2 / 2;
    var x4 := x3 / 2;
    var x5 := x4 / 2;
    var x6 := x5 / 2;
    var x7 := x6 / 2;
    var x8 := x7 / 2;
    assert x8 == x / 0x100;
    assert FloorLog2(x) == 1 + FloorLog2(x1);
    assert FloorLog2(x1) == 1 + FloorLog2(x2);
    assert FloorLog2(x2) == 1 + FloorLog2(x3);
    assert FloorLog2(x3) == 1 + FloorLog2(x4);
    assert FloorLog2(x4) == 1 + FloorLog2(x5);
    assert FloorLog2(x5) == 1 + FloorLog2(x6);
    assert FloorLog2(x6) == 1 + FloorLog2(x7);
    assert FloorLog2(x7) == 1 + FloorLog2(x8);
  }

  /**
   * `int_log2(x)` on the table path: the argument is a 32-bit unsigned value
   * (`x >>>= 0`, then asserted positive), looked up one byte at a time.
   */
  function IntLog2(x: int): int
    requires 0 < x < 0x1_0000_0000
  {
    var tt := x / 0x1_0000;
    if tt != 0 then
      var t := tt / 0x100;
      if t != 0 then 24 + Log2Table()[t] else 16 + Log2Table()[tt]
    else
      var t := x / 0x100;
      if t != 0 then 8 + Log2Table()[t] else Log2Table()[x]
  }

  /** The byte-at-a-time lookup computes the logarithm, which for a 32-bit argument is below 32. */
  lemma IntLog2IsFloorLog2(x: int)
    requires 0 < x < 0x1_0000_0000
    ensures IntLog2(x) == FloorLog2(x) && IntLog2(x) < 32
  {
    var tt := x / 0x1_0000;
    if tt != 0 {
      var t := tt / 0x100;
      FloorLog2Shift8(x);
      FloorLog2Shift8(x / 0x100);
      assert x / 0x100 / 0x100 == tt;
      if t != 0 {
        FloorLog2Shift8(tt);
        ByteLog2IsLog2(t);
      } else {
        ByteLog2IsLog2(tt);
      }
    } else if x / 0x100 != 0 {
      FloorLog2Shift8(x);
      ByteLog2IsLog2(x / 0x100);
    } else {
      ByteLog2IsLog2(x);
    }
  }

  /** `1 << s` on 32-bit integers for a shift count already reduced to 0..31. */
  function Int32ShiftOne(s: nat): (r: int)
    requires s < 32
    ensures s < 31 ==> r == Pow2(s)
    ensures s == 31 ==> r == -0x8000_0000
  {
    Pow2Values();
    if s == 31 then -0x8000_0000 else Pow2(s)
  }

  /**
   * `round_up_to_next_power_of_2(x)`: `x <= 1 ? 1 : 1 << 1 + int_log2(x - 1)`.
   * The JavaScript shift count is taken modulo 32, so the result wraps for large x.
   */
  function RoundUpToNextPowerOf2(x: int): int
    requires 0 <= x <= 0x1_0000_0000
  {
    if x <= 1 then 1 else Int32ShiftOne((1 + IntLog2(x - 1)) % 32)
  }

  /** For x up to 2^30 the result is the least power of two that is at least x (0 and 1 give 1). */
  lemma RoundUpIsLeastPowerOf2(x: int)
    requires 0 <= x <= 0x4000_0000
    ensures exists k: nat :: RoundUpToNextPowerOf2(x) == Pow2(k)
    ensures RoundUpToNextPowerOf2(x) >= x
    ensures x > 1 ==> RoundUpToNextPowerOf2(x) < 2 * x
  {
    if x > 1 {
      var k := IntLog2(x - 1);
      IntLog2IsFloorLog2(x - 1);
      assert Pow2(k) <= x - 1 < Pow2(k + 1);
      Pow2Values();
      if k >= 30 {
        Pow2Monotone(30, k);
        assert false;
      }
      assert (1 + k) % 32 == k + 1;
      assert RoundUpToNextPowerOf2(x) == Int32ShiftOne(k + 1) == Pow2(k + 1);
    } else {
      assert RoundUpToNextPowerOf2(x) == Pow2(0);
    }
  }

  /** Past 2^30 the 32-bit shift shows through: 2^31 comes out negative and 2^32 wraps to 1. */
  lemma RoundUpWrapsAbove30Bits(x: int)
    requires 0x4000_0000 < x <= 0x1_0000_0000
    ensures x <= 0x8000_0000 ==> RoundUpToNextPowerOf2(x) == -0x8000_0000
    ensures x > 0x8000_0000 ==> RoundUpToNextPowerOf2(x) == 1
  {
    Pow2Values();
    IntLog2IsFloorLog2(x - 1);
    if x <= 0x8000_0000 {
      FloorLog2Unique(x - 1, 30);
    } else {
      FloorLog2Unique(x - 1, 31);
    }
  }

  /** The `int_log2` values the source checks in its debug build. */
  lemma DebugAssertedLog2Values()
    ensures IntLog2(1) == 0 && IntLog2(2) == 1 && IntLog2(7) == 2 && IntLog2(8) == 3
    ensures IntLog2(123456789) == 26
  {
    assert 123456789 / 0x1_0000 == 1883 && 1883 / 0x100 == 7;
    assert Log2Table()[7] == 2;
  }

  /** The `round_up_to_next_power_of_2` values the source checks in its debug build. */
  lemma DebugAssertedRoundUpValues()
    ensures RoundUpToNextPowerOf2(0) == 1 && RoundUpToNextPowerOf2(1) == 1
    ensures RoundUpToNextPowerOf2(2) == 2 && RoundUpToNextPowerOf2(7) == 8
    ensures RoundUpToNextPowerOf2(8) == 8 && RoundUpToNextPowerOf2(123456789) == 134217728
  {
    RoundUpOfTwo();
    RoundUpOfSevenAndEight();
    RoundUpLargeValue();
  }

  lemma RoundUpOfTwo()
    ensures RoundUpToNextPowerOf2(2) == 2
  {
    assert Log2Table()[1] == 0;
    assert IntLog2(1) == 0;
    assert Int32ShiftOne(1) == Pow2(1) == 2;
  }

  lemma RoundUpOfSevenAndEight()
    ensures RoundUpToNextPowerOf2(7) == 8 && RoundUpToNextPowerOf2(8) == 8
  {
    assert Log2Table()[6] == 2 && Log2Table()[7] == 2;
    assert IntLog2(6) == 2 && IntLog2(7) == 2;
    assert Int32ShiftOne(3) == Pow2(3) == 8;
  }

  lemma RoundUpLargeValue()
    ensures RoundUpToNextPowerOf2(123456789) == 134217728
  {
    assert 123456788 / 0x1_0000 == 1883 && 1883 / 0x100 == 7;
    assert Log2Table()[7] == 2;
    assert IntLog2(123456788) == 26;
    Pow2Values();
    Pow2Add(24, 3);
    assert Int32ShiftOne(27) == 134217728;
  }
}
