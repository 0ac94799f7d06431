/**
 * InstallerFragment.extractIntPart: the numeric value of the leading digits of
 * a version string such as "89-beta", accumulated in a Java `int`.
 */
module Numbers {

  const TWO_32: int := 0x1_0000_0000
  const TWO_31: int := 0x8000_0000

  /** The Java `int` that an exact integer wraps around to. */
  function ToInt32(x: int): (r: int)
    ensures -TWO_31 <= r < TWO_31
    ensures (x - r) % TWO_32 == 0
    ensures -TWO_31 <= x < TWO_31 ==> r == x
  {
    var u := x % TWO_32;
    if u >= TWO_31 then u - TWO_32 else u
  }

  predicate IsDigit(c: char) {
    '0' <= c <= '9'
  }

  function DigitValue(c: char): nat
    requires IsDigit(c)
  {
    c as int - '0' as int
  }

  /** The longest prefix of `s` made of ASCII digits. */
  function LeadingDigits(s: string): (d: string)
    ensures |d| <= |s| && d == s[..|d|]
    ensures forall i :: 0 <= i < |d| ==> IsDigit(d[i])
    ensures |d| == |s| || !IsDigit(s[|d|])
  {
    if |s| > 0 && IsDigit(s[0]) then [s[0]] + LeadingDigits(s[1..]) else []
  }

  /** The exact decimal value of a string of digits. */
  function DecimalValue(d: string): nat
    requires forall i :: 0 <= i < |d| ==> IsDigit(d[i])
  {
    if d == [] then 0 else DecimalValue(d[..|d| - 1]) * 10 + DigitValue(d[|d| - 1])
  }

  /** LeadingDigits is exactly the digit run that stops at the first non-digit. */
  lemma {:induction false} LeadingDigitsIsRun(s: string, n: nat)
    requires n <= |s|
    requires forall i :: 0 <= i < n ==> IsDigit(s[i])
    requires n == |s| || !IsDigit(s[n])
    ensures LeadingDigits(s) == s[..n]
  {
    if n > 0 {
      LeadingDigitsIsRun(s[1..], n - 1);
      assert s[..n] == [s[0]] + s[1..][..n - 1];
    }
  }

  /** Adding a multiple of 2^32 leaves the remainder unchanged. */
  lemma ModAddMultiple(a: int, k: int)
    ensures (a + k * TWO_32) % TWO_32 == a % TWO_32
  {
    var q := a / TWO_32;
    assert a == q * TWO_32 + a % TWO_32;
    assert a + k * TWO_32 == (q + k) * TWO_32 + a % TWO_32;
  }

  /** Wrapping after every step equals wrapping once at the end. */
  lemma WrapStep(v: int, d: nat)
    ensures ToInt32(ToInt32(v) * 10 + d) == ToInt32(v * 10 + d)
  {
    var w := ToInt32(v);
    var k := (v - w) / TWO_32;
    assert v - w == k * TWO_32;
    assert w * 10 + d == (v * 10 + d) + (-10 * k) * TWO_32;
    ModAddMultiple(v * 10 + d, -10 * k);
  }

  /**
   * extractIntPart: scan digits from the left, stop at the first non-digit.
   * The result is the value of the leading digit run, wrapped to 32 bits as
   * `result * 10 + (c - '0')` does in Java.
   */
  method ExtractIntPart(str: string) returns (result: int)
    ensures result == ToInt32(DecimalValue(LeadingDigits(str)))
  {
    result := 0;
    var offset := 0;
    while offset < |str|
      invariant 0 <= offset <= |str|
      invariant forall i :: 0 <= i < offset ==> IsDigit(str[i])
      invariant result == ToInt32(DecimalValue(str[..offset]))
    {
      var c := str[offset];
      if IsDigit(c) {
        WrapStep(DecimalValue(str[..offset]), DigitValue(c));
        assert str[..offset + 1][..offset] == str[..offset];
        result := ToInt32(result * 10 + DigitValue(c));
      } else {
        break;
      }
      offset := offset + 1;
    }
    LeadingDigitsIsRun(str, offset);
  }

  /** Without overflow the result is the plain decimal value: "89-beta" gives 89. */
  lemma ExtractIntPartExample()
    ensures LeadingDigits("89-beta") == "89"
    ensures ToInt32(DecimalValue(LeadingDigits("89-beta"))) == 89
  {
    LeadingDigitsIsRun("89-beta", 2);
    assert "89-beta"[..2] == "89";
    assert "89"[..1] == "8";
  }

  /** A string that does not start with a digit gives 0. */
  lemma ExtractIntPartNoDigits(s: string)
    requires s == [] || !IsDigit(s[0])
    ensures ToInt32(DecimalValue(LeadingDigits(s))) == 0
  {
  }

  /**
   * Only the leading digit run matters: whatever follows the first
   * non-digit never changes the result.
   */
  lemma ExtractIntPartIgnoresTail(digits: string, rest: string)
    requires forall i :: 0 <= i < |digits| ==> IsDigit(digits[i])
    requires rest == [] || !IsDigit(rest[0])
    ensures LeadingDigits(digits + rest) == digits
  {
    var s := digits + rest;
    LeadingDigitsIsRun(s, |digits|);
    assert s[..|digits|] == digits;
  }
}
