/**
 * String operations the handler relies on from Python: substring containment
 * (`pat in s`) and the decimal rendering of an integer (`str(n)`), each with an
 * independent definition it is proved against.
 */
module Text {
  import opened Wrappers

  /** `pat` occurs in `s` at index `i`: the reference meaning of containment. */
  ghost predicate OccursAt(s: string, pat: string, i: int) {
    0 <= i && i + |pat| <= |s| && s[i..i + |pat|] == pat
  }

  /** Python's `pat in s` for two strings: a search from the left. */
  function Contains(s: string, pat: string): (r: bool)
    ensures |pat| == 0 ==> r
    ensures r ==> |pat| <= |s|
    ensures |pat| <= |s| && s[..|pat|] == pat ==> r
    decreases |s|
  {
    if |s| < |pat| then false
    else if s[..|pat|] == pat then true
    else Contains(s[1..], pat)
  }

  /** The search finds the pattern exactly when it occurs somewhere. */
  lemma {:induction false} ContainsIffOccurs(s: string, pat: string)
    ensures Contains(s, pat) <==> exists i :: OccursAt(s, pat, i)
    decreases |s|
  {
    if |s| < |pat| {
    } else if s[..|pat|] == pat {
      assert OccursAt(s, pat, 0);
    } else {
      ContainsIffOccurs(s[1..], pat);
      forall i | OccursAt(s, pat, i)
        ensures OccursAt(s[1..], pat, i - 1)
      {
        assert i != 0;
        assert s[1..][i - 1..i - 1 + |pat|] == s[i..i + |pat|];
      }
      forall j | OccursAt(s[1..], pat, j)
        ensures OccursAt(s, pat, j + 1)
      {
        assert s[1..][j..j + |pat|] == s[j + 1..j + 1 + |pat|];
      }
    }
  }

  /** A pattern found in `s` is still found once text is put around `s`. */
  lemma {:induction false} ContainsInContext(t: string, s: string, u: string, pat: string)
    requires Contains(s, pat)
    ensures Contains(t + s + u, pat)
  {
    ContainsIffOccurs(s, pat);
    var i :| OccursAt(s, pat, i);
    var w := t + s + u;
    assert w[|t| + i..|t| + i + |pat|] == s[i..i + |pat|];
    assert OccursAt(w, pat, |t| + i);
    ContainsIffOccurs(w, pat);
  }

  /** The first position of `c` in `s`, or `|s|` when there is none. */
  function IndexOf(s: string, c: char): (k: nat)
    ensures k <= |s|
    ensures k < |s| ==> s[k] == c
    ensures forall j :: 0 <= j < k ==> s[j] != c
  {
    if s == [] || s[0] == c then 0 else 1 + IndexOf(s[1..], c)
  }

  predicate IsDigit(c: char) {
    '0' <= c <= '9'
  }

  predicate AllDigits(s: string) {
    forall i :: 0 <= i < |s| ==> IsDigit(s[i])
  }

  function DigitChar(d: int): char
    requires 0 <= d < 10
  {
    ('0' as int + d) as char
  }

  /** The number a string of decimal digits denotes. */
  function DigitsValue(s: string): nat
    requires AllDigits(s)
  {
    if s == [] then 0 else 10 * DigitsValue(s[..|s| - 1]) + (s[|s| - 1] as int - '0' as int)
  }

  /** Reading an optionally signed decimal numeral back (Python's `int(s)` on such text). */
  function DecimalValue(s: string): Option<int> {
    if |s| > 1 && s[0] == '-' && AllDigits(s[1..]) then Some(0 - DigitsValue(s[1..]) as int)
    else if |s| > 0 && AllDigits(s) then Some(DigitsValue(s))
    else None
  }

  /** A non-empty digit string whose first digit is not '0' unless it is "0" itself. */
  predicate NoLeadingZero(s: string) {
    |s| > 0 && AllDigits(s) && (s[0] == '0' ==> s == "0")
  }

  /** The numeral Python writes for an integer: digits without a leading zero, after '-' when negative. */
  predicate CanonicalNumeral(s: string) {
    NoLeadingZero(s) || (|s| > 1 && s[0] == '-' && NoLeadingZero(s[1..]) && s[1] != '0')
  }

  /** The decimal digits of `n`, most significant first: they denote `n` and have no leading zero. */
  function NatToDecimal(n: nat): (s: string)
    ensures NoLeadingZero(s)
    ensures DigitsValue(s) == n
    decreases n
  {
    if n < 10 then [DigitChar(n)]
    else
      var p := NatToDecimal(n / 10);
      var s := p + [DigitChar(n % 10)];
      assert s[..|s| - 1] == p;
      s
  }

  /** Python's `str(n)` for an integer `n`: a numeral that reads back as `n`. */
  function IntToDecimal(n: int): (s: string)
    ensures CanonicalNumeral(s)
    ensures DecimalValue(s) == Some(n)
  {
    if n < 0 then
      var s := "-" + NatToDecimal(-n);
      assert s[1..] == NatToDecimal(-n);
      s
    else
      var s := NatToDecimal(n);
      assert s[0] != '-';
      s
  }

  /** A digit string that does not start with '0' denotes a positive number. */
  lemma {:induction false} LeadingDigitPositive(s: string)
    requires |s| > 0 && AllDigits(s) && s[0] != '0'
    ensures DigitsValue(s) >= 1
    decreases |s|
  {
    if |s| > 1 {
      LeadingDigitPositive(s[..|s| - 1]);
    }
  }

  /** The last digit of a numeral is its value modulo 10; the digits before it denote the quotient. */
  lemma LastDigit(s: string)
    requires |s| > 0 && AllDigits(s)
    ensures DigitsValue(s) % 10 == s[|s| - 1] as int - '0' as int
    ensures DigitsValue(s) / 10 == DigitsValue(s[..|s| - 1])
  {
    var v, d := DigitsValue(s[..|s| - 1]), s[|s| - 1] as int - '0' as int;
    assert DigitsValue(s) == 10 * v + d && 0 <= d < 10;
  }

  /** Two digit strings without a leading zero that denote the same number are equal. */
  lemma {:induction false} NoLeadingZeroUnique(a: string, b: string)
    requires NoLeadingZero(a) && NoLeadingZero(b)
    requires DigitsValue(a) == DigitsValue(b)
    ensures a == b
    decreases |a|
  {
    LastDigit(a);
    LastDigit(b);
    var a', b' := a[..|a| - 1], b[..|b| - 1];
    if |a| > 1 {
      LeadingDigitPositive(a');
    }
    if |b| > 1 {
      LeadingDigitPositive(b');
    }
    if |a| > 1 && |b| > 1 {
      NoLeadingZeroUnique(a', b');
      assert a == a' + [a[|a| - 1]] && b == b' + [b[|b| - 1]];
    }
  }

  /** A value has only one canonical numeral, so `str(n)` is determined by `n`. */
  lemma CanonicalNumeralUnique(s: string, t: string)
    requires CanonicalNumeral(s) && CanonicalNumeral(t)
    requires DecimalValue(s) == DecimalValue(t) != None
    ensures s == t
  {
    if NoLeadingZero(s) && NoLeadingZero(t) {
      NoLeadingZeroUnique(s, t);
    } else if !NoLeadingZero(s) && !NoLeadingZero(t) {
      LeadingDigitPositive(s[1..]);
      NoLeadingZeroUnique(s[1..], t[1..]);
      assert s == [s[0]] + s[1..] && t == [t[0]] + t[1..];
    } else if NoLeadingZero(s) {
      LeadingDigitPositive(t[1..]);
    } else {
      LeadingDigitPositive(s[1..]);
    }
  }
}
