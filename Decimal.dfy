/**
 * Swift's conversions between `Int` and its decimal text: `Int(_: String)`,
 * used to read typed pin counts, and `String(_: Int)` / string interpolation,
 * used to show a pin count on a score box.  Swift's `Int` is 64 bits wide.
 */
module Decimal {
  import opened Wrappers

  const IntMin: int := -0x8000_0000_0000_0000
  const IntMax: int :=  0x7FFF_FFFF_FFFF_FFFF

  predicate IsDigit(c: char) {
    '0' <= c <= '9'
  }

  predicate AllDigits(s: string) {
    forall i :: 0 <= i < |s| ==> IsDigit(s[i])
  }

  function DigitChar(d: nat): (c: char)
    requires d < 10
    ensures IsDigit(c) && c as int - '0' as int == d
  {
    ('0' as int + d) as char
  }

  /** The value of a run of decimal digits, most significant digit first. */
  function DigitsValue(s: string): nat
    requires AllDigits(s)
  {
    if s == [] then 0
    else DigitsValue(s[..|s| - 1]) * 10 + (s[|s| - 1] as int - '0' as int)
  }

  /**
   * `Int(s)`: an optional `+` or `-`, then one or more ASCII digits and
   * nothing else; a value outside the 64-bit range gives nil.
   */
  function ParseInt(s: string): (r: Option<int>)
    ensures r.Some? ==> IntMin <= r.value <= IntMax
    ensures r.Some? ==> |s| > 0 && (IsDigit(s[0]) || s[0] == '+' || s[0] == '-')
    ensures r.Some? ==> AllDigits(s[1..])
    // the digits after an optional sign are non-empty, and the value is theirs, negated after a '-'
    ensures r.Some? ==>
      var d := if s[0] == '+' || s[0] == '-' then s[1..] else s;
      d != [] && AllDigits(d) && r.value == (if s[0] == '-' then -(DigitsValue(d) as int) else DigitsValue(d))
    // conversely, every unsigned or signed digit run in range is read
    ensures s != [] && AllDigits(s) && DigitsValue(s) <= IntMax ==> r == Some(DigitsValue(s))
    ensures |s| > 1 && (s[0] == '+' || s[0] == '-') && AllDigits(s[1..]) && DigitsValue(s[1..]) <= IntMax ==>
      r == Some(if s[0] == '-' then -(DigitsValue(s[1..]) as int) else DigitsValue(s[1..]))
  {
    var signed := |s| > 0 && (s[0] == '+' || s[0] == '-');
    var digits := if signed then s[1..] else s;
    if digits == [] || !AllDigits(digits) then None
    else
      var n: int := if signed && s[0] == '-' then -(DigitsValue(digits) as int) else DigitsValue(digits);
      if IntMin <= n <= IntMax then Some(n) else None
  }

  /** The shortest decimal text of `n`. */
  function NatString(n: nat): (r: string)
    ensures |r| >= 1 && AllDigits(r)
  {
    if n < 10 then [DigitChar(n)] else NatString(n / 10) + [DigitChar(n % 10)]
  }

  /** `String(v)`: a minus sign for negative values, then the digits. */
  function IntString(v: int): (r: string)
    ensures |r| >= 1 && (r[0] == '-' || IsDigit(r[0]))
  {
    if v < 0 then "-" + NatString(-v) else NatString(v)
  }

  lemma {:induction false} NatStringValue(n: nat)
    ensures DigitsValue(NatString(n)) == n
  {
    var s := NatString(n);
    if n >= 10 {
      NatStringValue(n / 10);
      assert s[..|s| - 1] == NatString(n / 10);
    }
  }

  /** Reading back what `String(v)` writes gives `v`. */
  lemma IntStringRoundTrip(v: int)
    requires IntMin <= v <= IntMax
    ensures ParseInt(IntString(v)) == Some(v)
  {
    var s := IntString(v);
    if v < 0 {
      var digits := NatString(-v);
      NatStringValue(-v);
      assert s == "-" + digits;
      assert s[0] == '-' && s[1..] == digits;
    } else {
      NatStringValue(v);
      assert !(s[0] == '+' || s[0] == '-');
    }
  }
}
