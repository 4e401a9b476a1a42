/** The two pieces of string handling the flash protocol relies on: `str::contains`
    for recognising a request line, and `u64::to_string` for the reply to `SIZE`. */
module Text {
  import opened Io

  const ZERO_DIGIT: byte := 48  // '0'

  predicate IsDigit(b: byte) {
    ZERO_DIGIT <= b <= ZERO_DIGIT + 9
  }

  /** `pat` occurs in `s` starting at index `i`. */
  predicate OccursAt(s: seq<byte>, pat: seq<byte>, i: int) {
    0 <= i && i + |pat| <= |s| && s[i..i + |pat|] == pat
  }

  /** `s.contains(pat)`: tries every starting position from the left. */
  predicate Contains(s: seq<byte>, pat: seq<byte>)
    decreases |s|
  {
    |pat| <= |s| && (s[..|pat|] == pat || (s != [] && Contains(s[1..], pat)))
  }

  /** The search finds `pat` exactly when `pat` occurs somewhere in `s`. */
  lemma {:induction false} ContainsIffOccurs(s: seq<byte>, pat: seq<byte>)
    ensures Contains(s, pat) <==> exists i :: OccursAt(s, pat, i)
    decreases |s|
  {
    if Contains(s, pat) {
      if s[..|pat|] == pat {
        assert OccursAt(s, pat, 0);
      } else {
        ContainsIffOccurs(s[1..], pat);
        var i :| OccursAt(s[1..], pat, i);
        assert s[1..][i..i + |pat|] == s[i + 1..i + 1 + |pat|];
        assert OccursAt(s, pat, i + 1);
      }
    }
    if i :| OccursAt(s, pat, i) {
      if i == 0 {
        assert s[..|pat|] == pat;
      } else {
        assert s[1..][i - 1..i - 1 + |pat|] == s[i..i + |pat|];
        assert OccursAt(s[1..], pat, i - 1);
        ContainsIffOccurs(s[1..], pat);
      }
    }
  }

  /** `n.to_string()` as ASCII: decimal digits, most significant first. */
  function Decimal(n: nat): (r: seq<byte>)
    ensures |r| >= 1
    ensures forall i :: 0 <= i < |r| ==> IsDigit(r[i])
    ensures r[0] == ZERO_DIGIT ==> n == 0
    decreases n
  {
    if n < 10 then [ZERO_DIGIT + n] else Decimal(n / 10) + [ZERO_DIGIT + n % 10]
  }

  /** The number a string of decimal digits denotes. */
  function ValueOf(digits: seq<byte>): nat
    requires forall i :: 0 <= i < |digits| ==> IsDigit(digits[i])
  {
    if digits == [] then 0
    else
      var last := digits[|digits| - 1];
      assert IsDigit(last);
      ValueOf(digits[..|digits| - 1]) * 10 + (last - ZERO_DIGIT)
  }

  /** Reading back the decimal text gives the number that was rendered. */
  lemma {:induction false} DecimalRoundTrip(n: nat)
    ensures ValueOf(Decimal(n)) == n
    decreases n
  {
    if n >= 10 {
      var r := Decimal(n);
      assert r[..|r| - 1] == Decimal(n / 10);
      DecimalRoundTrip(n / 10);
    }
  }

  /** Rendering is one-to-one: different lengths give different replies. */
  lemma DecimalInjective(m: nat, n: nat)
    requires Decimal(m) == Decimal(n)
    ensures m == n
  {
    DecimalRoundTrip(m);
    DecimalRoundTrip(n);
  }
}
