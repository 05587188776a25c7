/** String primitives the detection and scoring rules are built from:
    Python's `sub in s`, ASCII `str.lower()`, and decimal rendering of
    integers (`f"{n}"`). */
module Text {

  /** `p` is a prefix of `s`. */
  predicate IsPrefix(p: string, s: string) {
    |p| <= |s| && s[..|p|] == p
  }

  /** Python's `sub in s`, computed the way a naive search does it: try
      every start position from the left. */
  predicate Contains(s: string, sub: string)
    decreases |s|
  {
    IsPrefix(sub, s) || (|s| > 0 && Contains(s[1..], sub))
  }

  /** `sub` occurs in `s` starting at index `i`. */
  predicate OccursAt(s: string, sub: string, i: int) {
    0 <= i && i + |sub| <= |s| && s[i..i + |sub|] == sub
  }

  /** The search agrees with the declarative meaning of `sub in s`:
      some start index carries the whole of `sub`. */
  lemma {:induction false} ContainsIffOccurs(s: string, sub: string)
    ensures Contains(s, sub) <==> exists i :: OccursAt(s, sub, i)
    decreases |s|
  {
    if |s| > 0 {
      ContainsIffOccurs(s[1..], sub);
      if IsPrefix(sub, s) {
        assert OccursAt(s, sub, 0);
      }
      if Contains(s[1..], sub) {
        var i :| OccursAt(s[1..], sub, i);
        assert s[1..][i..i + |sub|] == s[i + 1..i + 1 + |sub|];
        assert OccursAt(s, sub, i + 1);
      }
      if i :| OccursAt(s, sub, i) {
        if i == 0 {
          assert IsPrefix(sub, s);
        } else {
          assert s[1..][i - 1..i - 1 + |sub|] == s[i..i + |sub|];
          assert OccursAt(s[1..], sub, i - 1);
        }
      }
    } else {
      if i :| OccursAt(s, sub, i) {
        assert sub == [];
        assert IsPrefix(sub, s);
      }
      if Contains(s, sub) {
        assert OccursAt(s, sub, 0);
      }
    }
  }

  /** A witness position establishes containment. */
  lemma ContainsAt(s: string, sub: string, i: int)
    requires OccursAt(s, sub, i)
    ensures Contains(s, sub)
  {
    ContainsIffOccurs(s, sub);
  }

  /** ASCII lower-casing of one character. */
  function LowerChar(c: char): char {
    if 'A' <= c <= 'Z' then (c as int + 32) as char else c
  }

  /** `s.lower()` restricted to ASCII letters. */
  function Lower(s: string): (r: string)
    ensures |r| == |s|
    ensures forall i :: 0 <= i < |s| ==> r[i] == LowerChar(s[i])
  {
    seq(|s|, i requires 0 <= i < |s| => LowerChar(s[i]))
  }

  /** Lower-casing commutes with taking a slice. */
  lemma LowerSlice(s: string, i: int, j: int)
    requires 0 <= i <= j <= |s|
    ensures Lower(s)[i..j] == Lower(s[i..j])
  {
  }

  /** A case-sensitive match is also a case-insensitive one: when `sub`
      occurs in `s`, the lower-cased `sub` occurs in the lower-cased `s`. */
  lemma ContainsLower(s: string, sub: string)
    requires Contains(s, sub)
    ensures Contains(Lower(s), Lower(sub))
  {
    ContainsIffOccurs(s, sub);
    var i :| OccursAt(s, sub, i);
    LowerSlice(s, i, i + |sub|);
    assert OccursAt(Lower(s), Lower(sub), i);
    ContainsAt(Lower(s), Lower(sub), i);
  }

  /** A character of `sub` (the one at `j`) that never appears in `s` rules
      out `sub in s`. */
  lemma MissingChar(s: string, sub: string, j: int)
    requires 0 <= j < |sub| && sub[j] !in s
    ensures !Contains(s, sub)
  {
    ContainsIffOccurs(s, sub);
  }

  predicate IsDigit(c: char) {
    '0' <= c <= '9'
  }

  function DigitChar(d: nat): (c: char)
    requires d < 10
    ensures IsDigit(c)
  {
    ('0' as int + d) as char
  }

  /** Decimal digits of `n`, most significant first, without leading zeros. */
  function NatToDecimal(n: nat): (r: string)
    ensures 1 <= |r|
    ensures forall i :: 0 <= i < |r| ==> IsDigit(r[i])
    ensures r[0] == '0' ==> n == 0
    decreases n
  {
    if n < 10 then [DigitChar(n)] else NatToDecimal(n / 10) + [DigitChar(n % 10)]
  }

  /** Python's `str(n)` for an integer. */
  function IntToDecimal(n: int): (r: string)
    ensures 1 <= |r|
  {
    if n < 0 then "-" + NatToDecimal(-n) else NatToDecimal(n)
  }

  function DigitValue(c: char): (d: nat)
    requires IsDigit(c)
    ensures d < 10
  {
    c as int - '0' as int
  }

  /** The number a string of decimal digits denotes. */
  function DecimalValue(s: string): nat
    requires forall i :: 0 <= i < |s| ==> IsDigit(s[i])
  {
    if |s| == 0 then 0
    else DecimalValue(s[..|s| - 1]) * 10 + DigitValue(s[|s| - 1])
  }

  /** Reading back a rendered natural number gives the number. */
  lemma {:induction false} DecimalRoundTrip(n: nat)
    ensures DecimalValue(NatToDecimal(n)) == n
    decreases n
  {
    if n >= 10 {
      DecimalRoundTrip(n / 10);
      var r := NatToDecimal(n);
      assert r[..|r| - 1] == NatToDecimal(n / 10);
    }
  }

  /** Python's `int(s)` for the strings `IntToDecimal` produces. */
  function ParseInt(s: string): int {
    if |s| > 0 && s[0] == '-' && forall i :: 1 <= i < |s| ==> IsDigit(s[i]) then
      -(DecimalValue(s[1..]) as int)
    else if forall i :: 0 <= i < |s| ==> IsDigit(s[i]) then
      DecimalValue(s)
    else
      0
  }

  /** Rendering an integer loses nothing: parsing gives it back, so
      distinct integers render to distinct strings. */
  lemma IntRoundTrip(n: int)
    ensures ParseInt(IntToDecimal(n)) == n
  {
    if n < 0 {
      var r := IntToDecimal(n);
      assert r[1..] == NatToDecimal(-n);
      DecimalRoundTrip(-n);
    } else {
      DecimalRoundTrip(n);
    }
  }
}
