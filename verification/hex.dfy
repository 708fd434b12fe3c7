/** Lower-case hexadecimal numerals, as `hashlib`'s `hexdigest()` writes them and as
    Python's `int(s, 16)` reads them. */
module Hex {

  predicate IsDigit(c: char)
  {
    '0' <= c <= '9' || 'a' <= c <= 'f'
  }

  predicate IsLowerHex(s: string)
  {
    forall i :: 0 <= i < |s| ==> IsDigit(s[i])
  }

  function DigitValue(c: char): (v: nat)
    requires IsDigit(c)
    ensures v < 16
    ensures v < 10 <==> '0' <= c <= '9'
  {
    if c <= '9' then c as int - '0' as int else c as int - 'a' as int + 10
  }

  /** The digit `hexdigest()` writes for a nibble. */
  function DigitChar(v: nat): (c: char)
    requires v < 16
    ensures IsDigit(c) && DigitValue(c) == v
  {
    if v < 10 then ('0' as int + v) as char else ('a' as int + v - 10) as char
  }

  lemma DigitCharOfValue(c: char)
    requires IsDigit(c)
    ensures DigitChar(DigitValue(c)) == c
  {
  }

  function Pow16(n: nat): (p: nat)
    ensures p > 0
  {
    if n == 0 then 1 else 16 * Pow16(n - 1)
  }

  /** The number a lower-case hex numeral denotes, most significant digit first. */
  function Value(s: string): (n: nat)
    requires IsLowerHex(s)
    ensures n < Pow16(|s|)
  {
    if s == [] then 0 else 16 * Value(s[..|s| - 1]) + DigitValue(s[|s| - 1])
  }

  /** The `width`-digit lower-case numeral of `n`, with leading zeros. */
  function ToHex(n: nat, width: nat): (s: string)
    requires n < Pow16(width)
    ensures |s| == width && IsLowerHex(s)
  {
    if width == 0 then "" else ToHex(n / 16, width - 1) + [DigitChar(n % 16)]
  }

  /** Reading back a written numeral gives the number. */
  lemma {:induction false} ValueOfToHex(n: nat, width: nat)
    requires n < Pow16(width)
    ensures Value(ToHex(n, width)) == n
  {
    if width > 0 {
      var s := ToHex(n, width);
      ValueOfToHex(n / 16, width - 1);
      assert s[..|s| - 1] == ToHex(n / 16, width - 1);
      assert s[|s| - 1] == DigitChar(n % 16);
    }
  }

  /** Writing back a read numeral, at its own width, gives the numeral. */
  lemma {:induction false} ToHexOfValue(s: string)
    requires IsLowerHex(s)
    ensures ToHex(Value(s), |s|) == s
  {
    if s != [] {
      var init := s[..|s| - 1];
      var n := Value(s);
      assert n / 16 == Value(init);
      assert n % 16 == DigitValue(s[|s| - 1]);
      ToHexOfValue(init);
      DigitCharOfValue(s[|s| - 1]);
      assert s == init + [s[|s| - 1]];
    }
  }

  /** The parity of a numeral is the parity of its last digit. */
  lemma ValueParity(s: string)
    requires IsLowerHex(s) && |s| > 0
    ensures Value(s) % 2 == DigitValue(s[|s| - 1]) % 2
  {
    var a := Value(s[..|s| - 1]);
    var d := DigitValue(s[|s| - 1]);
    assert Value(s) == 2 * (8 * a) + d;
    EvenShift(8 * a, d);
  }

  lemma EvenShift(k: nat, d: nat)
    ensures (2 * k + d) % 2 == d % 2
  {
    assert 2 * k + d == 2 * (k + d / 2) + d % 2;
  }

  /** `int(s, 16)`: reads the digits left to right, accumulating. Python rejects the
      empty string, so at least one digit is required. */
  method Parse(s: string) returns (n: nat)
    requires |s| > 0 && IsLowerHex(s)
    ensures n == Value(s)
    ensures n < Pow16(|s|)
  {
    n := 0;
    var i := 0;
    while i < |s|
      invariant 0 <= i <= |s|
      invariant n == Value(s[..i])
    {
      assert s[..i + 1][..i] == s[..i];
      n := 16 * n + DigitValue(s[i]);
      i := i + 1;
    }
    assert s[..|s|] == s;
  }
}
