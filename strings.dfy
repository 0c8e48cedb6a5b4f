/**
 * String helpers of src/lib.ts: `pads`, `pad0` and the hexadecimal formatter `h`.
 * Strings are sequences of characters; `Number.prototype.toString(16)` of an
 * integer is modelled by `HexDigits` (upper-cased, as `h` applies `toUpperCase`).
 */
module Strings {

  /** The upper-case hexadecimal digit for a value below 16. */
  function HexDigit(d: nat): (c: char)
    requires d < 16
    ensures ('0' <= c <= '9') == (d < 10)
    ensures DigitValue(c) == d
  {
    if d < 10 then ('0' as int + d) as char else ('A' as int + d - 10) as char
  }

  /** The value of a hexadecimal digit character (upper case; -1 for anything else). */
  function DigitValue(c: char): int
  {
    if '0' <= c <= '9' then c as int - '0' as int
    else if 'A' <= c <= 'F' then c as int - 'A' as int + 10
    else -1
  }

  /** The digits of a positive integer in base 16, most significant first. */
  function HexDigits(n: nat): (s: string)
    requires n > 0
    decreases n
  {
    if n < 16 then [HexDigit(n)] else HexDigits(n / 16) + [HexDigit(n % 16)]
  }

  /** The reference reading of a digit string: the number it denotes in base 16. */
  function ParseHex(s: string): int
  {
    if s == [] then 0 else ParseHex(s[..|s| - 1]) * 16 + DigitValue(s[|s| - 1])
  }

  /** `String.prototype.padStart(len, fill)` with a one-character fill. */
  function PadStart(s: string, len: int, fill: char): (r: string)
    ensures |r| == if len > |s| then len else |s|
    ensures r[|r| - |s|..] == s
    ensures forall i :: 0 <= i < |r| - |s| ==> r[i] == fill
  {
    if len <= |s| then s else seq(len - |s|, _ => fill) + s
  }

  /** `String.prototype.padEnd(len, fill)` with a one-character fill. */
  function PadEnd(s: string, len: int, fill: char): (r: string)
    ensures |r| == if len > |s| then len else |s|
    ensures r[..|s|] == s
    ensures forall i :: |s| <= i < |r| ==> r[i] == fill
  {
    if len <= |s| then s else s + seq(len - |s|, _ => fill)
  }

  /**
   * `pad0(str, len)`: left-pad with "0". The source maps a falsy argument that is
   * not the number 0 to ""; for a string argument that is the empty string itself,
   * so the model takes the string directly.
   */
  function Pad0(s: string, len: int): (r: string)
    ensures |r| == if len > |s| then len else |s|
    ensures r[|r| - |s|..] == s
    ensures forall i :: 0 <= i < |r| - |s| ==> r[i] == '0'
  {
    PadStart(s, len, '0')
  }

  /** `pads(str, len)`: right-pad with spaces. */
  function Pads(s: string, len: int): (r: string)
    ensures |r| == if len > |s| then len else |s|
    ensures r[..|s|] == s
    ensures forall i :: |s| <= i < |r| ==> r[i] == ' '
  {
    PadEnd(s, len, ' ')
  }

  /** `n.toString(16).toUpperCase()` for a non-zero integer; "" for 0, which `h` treats as falsy. */
  function UpperHex(n: int): string
  {
    if n == 0 then "" else if n > 0 then HexDigits(n) else "-" + HexDigits(-n)
  }

  /** `h(n, len)`: "0x" followed by the upper-case digits of n, zero-padded to `len || 1` digits. */
  function H(n: int, len: nat): (r: string)
    ensures |r| >= 2 + (if len == 0 then 1 else len)
    ensures r[..2] == "0x"
    ensures r[2..] == Pad0(UpperHex(n), if len == 0 then 1 else len)
  {
    "0x" + Pad0(UpperHex(n), if len == 0 then 1 else len)
  }

  function Zeros(k: nat): (z: string)
    ensures |z| == k && forall i :: 0 <= i < k ==> z[i] == '0'
  {
    seq(k, _ => '0')
  }

  /** Every character of `HexDigits(n)` is a hexadecimal digit, and the first is not '0'. */
  lemma {:induction false} HexDigitsWellFormed(n: nat)
    requires n > 0
    ensures |HexDigits(n)| >= 1 && HexDigits(n)[0] != '0'
    ensures forall i :: 0 <= i < |HexDigits(n)| ==> 0 <= DigitValue(HexDigits(n)[i]) < 16
    decreases n
  {
    if n >= 16 {
      HexDigitsWellFormed(n / 16);
      var s := HexDigits(n / 16);
      assert HexDigits(n) == s + [HexDigit(n % 16)];
      forall i | 0 <= i < |HexDigits(n)|
        ensures 0 <= DigitValue(HexDigits(n)[i]) < 16
      {
        if i < |s| { assert HexDigits(n)[i] == s[i]; }
      }
    }
  }

  /** Reading the digits back gives the number: ParseHex is a left inverse of HexDigits. */
  lemma {:induction false} ParseHexDigits(n: nat)
    requires n > 0
    ensures ParseHex(HexDigits(n)) == n
    decreases n
  {
    if n >= 16 {
      var s := HexDigits(n / 16) + [HexDigit(n % 16)];
      assert s[..|s| - 1] == HexDigits(n / 16);
      ParseHexDigits(n / 16);
    }
  }

  /** Leading zeros do not change the value of a digit string. */
  lemma {:induction false} ParseHexLeadingZeros(k: nat, s: string)
    ensures ParseHex(Zeros(k) + s) == ParseHex(s)
    decreases |s|
  {
    if s == [] {
      ZerosParse(k);
      assert Zeros(k) + s == Zeros(k);
    } else {
      var t := Zeros(k) + s;
      assert t[..|t| - 1] == Zeros(k) + s[..|s| - 1];
      assert t[|t| - 1] == s[|s| - 1];
      ParseHexLeadingZeros(k, s[..|s| - 1]);
    }
  }

  lemma {:induction false} ZerosParse(k: nat)
    ensures ParseHex(Zeros(k)) == 0
    decreases k
  {
    if k > 0 {
      assert Zeros(k)[..k - 1] == Zeros(k - 1);
      ZerosParse(k - 1);
    }
  }

  /** `h(n, len)` for a positive n denotes n: the digits after "0x" read back as n, whatever the padding. */
  lemma HRoundTrip(n: nat, len: nat)
    requires n > 0
    ensures ParseHex(H(n, len)[2..]) == n
  {
    var d := HexDigits(n);
    var w := if len == 0 then 1 else len;
    var p := Pad0(d, w);
    var k := |p| - |d|;
    assert p == Zeros(k) + d;
    ParseHexLeadingZeros(k, d);
    ParseHexDigits(n);
  }

  /** `h(0)` is "0x0": the falsy 0 formats as the empty string and is padded to one digit. */
  lemma HZero()
    ensures H(0, 0) == "0x0"
  {
    assert Pad0("", 1) == "0";
  }

  /** A negative number keeps JavaScript's minus sign after the prefix: `h(-255)` is "0x-FF". */
  lemma HNegative()
    ensures H(-255, 0) == "0x-FF"
  {
    assert HexDigits(255) == HexDigits(15) + [HexDigit(15)];
  }
}
