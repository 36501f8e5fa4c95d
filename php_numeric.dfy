/** PHP 8 numeric strings and the loose comparison `in_array` uses without its strict flag:
    two numeric strings compare by value, any other pair of strings compares as text. */
module PhpNumeric {
  import opened Wrappers

  /** The whitespace PHP allows around a numeric string: space, \t, \n, \r, \v, \f. */
  predicate IsWhitespace(c: char) {
    c == ' ' || c == '\t' || c == '\n' || c == '\r' || c as int == 11 || c as int == 12
  }

  function TrimLeft(s: string): string {
    if |s| > 0 && IsWhitespace(s[0]) then TrimLeft(s[1..]) else s
  }

  function TrimRight(s: string): string {
    if |s| > 0 && IsWhitespace(s[|s| - 1]) then TrimRight(s[..|s| - 1]) else s
  }

  predicate AllDigits(s: string) {
    forall i :: 0 <= i < |s| ==> '0' <= s[i] <= '9'
  }

  function DigitsValue(s: string): nat
    requires AllDigits(s)
  {
    if |s| == 0 then 0 else DigitsValue(s[..|s| - 1]) * 10 + (s[|s| - 1] as int - '0' as int)
  }

  function Pow10(n: nat): (p: nat)
    ensures p >= 1
  {
    if n == 0 then 1 else 10 * Pow10(n - 1)
  }

  /** Position of the first `c1` or `c2` in `s`, or `|s|`. */
  function FirstOf(s: string, c1: char, c2: char): (k: nat)
    ensures k <= |s|
    ensures forall i :: 0 <= i < k ==> s[i] != c1 && s[i] != c2
    ensures k < |s| ==> s[k] == c1 || s[k] == c2
  {
    if |s| == 0 || s[0] == c1 || s[0] == c2 then 0 else 1 + FirstOf(s[1..], c1, c2)
  }

  /** Value of `LNUM`, `LNUM.`, `.LNUM` or `LNUM.LNUM`. */
  function MantissaValue(m: string): Option<real> {
    var d := FirstOf(m, '.', '.');
    var whole := m[..d];
    var frac := if d < |m| then m[d + 1..] else "";
    if !(AllDigits(whole) && AllDigits(frac) && |whole| + |frac| > 0) then None
    else if |frac| == 0 then Some(DigitsValue(whole) as real)
    else
      Some((DigitsValue(whole + frac) as real) / (Pow10(|frac|) as real))
  }

  /** Value of `[+-]?LNUM`. */
  function ExponentValue(x: string): Option<int> {
    if |x| > 0 && (x[0] == '+' || x[0] == '-') then
      if |x| > 1 && AllDigits(x[1..]) then
        var n: int := DigitsValue(x[1..]);
        Some(if x[0] == '-' then -n else n)
      else None
    else if |x| > 0 && AllDigits(x) then Some(DigitsValue(x))
    else None
  }

  function Scale(r: real, e: int): real {
    if e >= 0 then r * (Pow10(e) as real) else r / (Pow10(-e) as real)
  }

  /** Value of an unsigned `LNUM`, `DNUM` or `EXPONENT_DNUM`. */
  function UnsignedValue(u: string): Option<real> {
    var e := FirstOf(u, 'e', 'E');
    match MantissaValue(u[..e])
    case None => None
    case Some(m) =>
      if e == |u| then Some(m)
      else match ExponentValue(u[e + 1..])
        case None => None
        case Some(x) => Some(Scale(m, x))
  }

  /** The number a PHP 8 numeric string denotes, or `None` when the string is not numeric. */
  function NumericValue(s: string): Option<real> {
    var t := TrimRight(TrimLeft(s));
    if |t| > 0 && (t[0] == '+' || t[0] == '-') then
      match UnsignedValue(t[1..])
      case None => None
      case Some(v) => Some(if t[0] == '-' then -v else v)
    else
      UnsignedValue(t)
  }

  /** `$a == $b` for two strings under PHP 8 rules. */
  predicate LooseEquals(a: string, b: string) {
    var x, y := NumericValue(a), NumericValue(b);
    if x.Some? && y.Some? then x.value == y.value else a == b
  }

  /** `in_array($needle, $haystack)` without the strict flag, over strings. */
  predicate InArrayLoose(needle: string, haystack: seq<string>) {
    exists i :: 0 <= i < |haystack| && LooseEquals(needle, haystack[i])
  }

  /** Against a non-numeric string, loose comparison is plain equality. */
  lemma LooseEqualsText(a: string, b: string)
    requires NumericValue(b).None?
    ensures LooseEquals(a, b) <==> a == b
  {
  }

  /** Against a numeric string, loose comparison asks for a numeric string of the same value. */
  lemma LooseEqualsNumber(a: string, b: string, v: real)
    requires NumericValue(b) == Some(v)
    ensures LooseEquals(a, b) <==> NumericValue(a) == Some(v)
  {
  }

  /** A plain run of decimal digits is numeric, with its decimal value. */
  lemma NumericDigits(s: string)
    requires |s| > 0 && AllDigits(s)
    ensures NumericValue(s) == Some(DigitsValue(s) as real)
  {
    assert TrimLeft(s) == s;
    assert TrimRight(s) == s;
    UnsignedDigits(s);
  }

  lemma MantissaDigits(s: string)
    requires AllDigits(s) && |s| > 0
    ensures MantissaValue(s) == Some(DigitsValue(s) as real)
  {
    assert FirstOf(s, '.', '.') == |s| && s[..|s|] == s;
  }

  lemma UnsignedDigits(s: string)
    requires AllDigits(s) && |s| > 0
    ensures UnsignedValue(s) == Some(DigitsValue(s) as real)
  {
    assert FirstOf(s, 'e', 'E') == |s| && s[..|s|] == s;
    MantissaDigits(s);
  }

  /** Trimming the right end keeps a prefix, and never empties a string that starts with a
      non-whitespace character. */
  lemma {:induction false} TrimRightPrefix(s: string)
    ensures |TrimRight(s)| <= |s| && TrimRight(s) == s[..|TrimRight(s)|]
    ensures |s| > 0 && !IsWhitespace(s[0]) ==> |TrimRight(s)| > 0
  {
    if |s| > 0 && IsWhitespace(s[|s| - 1]) {
      var p := s[..|s| - 1];
      TrimRightPrefix(p);
      assert p[..|TrimRight(p)|] == s[..|TrimRight(p)|];
      if |s| > 0 && !IsWhitespace(s[0]) {
        assert |p| > 0;
        assert p[0] == s[0];
      }
    }
  }

  predicate StartsWithLetter(s: string) {
    |s| > 0 && ('A' <= s[0] <= 'Z' || 'a' <= s[0] <= 'z')
  }

  /** A string that starts with a letter is never numeric. */
  lemma NonNumericLetter(s: string)
    requires StartsWithLetter(s)
    ensures NumericValue(s).None?
  {
    assert TrimLeft(s) == s;
    TrimRightPrefix(s);
    var t := TrimRight(s);
    assert |t| > 0 && t[0] == s[0];
    var e := FirstOf(t, 'e', 'E');
    if e > 0 {
      var m := t[..e];
      assert m[0] == s[0];
      var d := FirstOf(m, '.', '.');
      assert d > 0 && m[..d][0] == s[0];
    }
  }

  /** The digits are written without a leading zero (the empty string qualifies). */
  predicate NoLeadingZero(s: string) {
    |s| == 0 || s[0] != '0'
  }

  lemma {:induction false} DigitsValuePositive(s: string)
    requires AllDigits(s) && |s| > 0 && s[0] != '0'
    ensures DigitsValue(s) >= 1
  {
    if |s| > 1 {
      var prefix := s[..|s| - 1];
      assert prefix[0] == s[0];
      DigitsValuePositive(prefix);
    }
  }

  /** Digit strings without leading zeros denote distinct numbers. */
  lemma {:induction false} DigitsValueInjective(s: string, t: string)
    requires AllDigits(s) && AllDigits(t) && NoLeadingZero(s) && NoLeadingZero(t)
    requires DigitsValue(s) == DigitsValue(t)
    ensures s == t
  {
    if |s| == 0 && |t| > 0 {
      DigitsValuePositive(t);
    } else if |t| == 0 && |s| > 0 {
      DigitsValuePositive(s);
    } else if |s| > 0 && |t| > 0 {
      var ps, pt := s[..|s| - 1], t[..|t| - 1];
      assert |ps| > 0 ==> ps[0] == s[0];
      assert |pt| > 0 ==> pt[0] == t[0];
      DigitsValueInjective(ps, pt);
      assert s == ps + [s[|s| - 1]] && t == pt + [t[|t| - 1]];
    }
  }

  /** Two decimal literals without leading zeros are loosely equal only when identical. */
  lemma LooseEqualsDecimal(a: string, b: string)
    requires |a| > 0 && AllDigits(a) && NoLeadingZero(a)
    requires |b| > 0 && AllDigits(b) && NoLeadingZero(b)
    ensures LooseEquals(a, b) <==> a == b
  {
    NumericDigits(a);
    NumericDigits(b);
    if DigitsValue(a) == DigitsValue(b) {
      DigitsValueInjective(a, b);
    }
  }

  /** A plain decimal literal: digits only, no leading zero. */
  predicate Decimal(s: string) {
    |s| > 0 && AllDigits(s) && NoLeadingZero(s)
  }

  /** Against a list of decimal literals, a decimal needle is found loosely exactly when it is
      in the list. */
  lemma InArrayLooseDecimal(needle: string, haystack: seq<string>)
    requires Decimal(needle)
    requires forall i :: 0 <= i < |haystack| ==> Decimal(haystack[i])
    ensures InArrayLoose(needle, haystack) <==> needle in haystack
  {
    if InArrayLoose(needle, haystack) {
      var i :| 0 <= i < |haystack| && LooseEquals(needle, haystack[i]);
      LooseEqualsDecimal(needle, haystack[i]);
    }
    if needle in haystack {
      var i :| 0 <= i < |haystack| && haystack[i] == needle;
      LooseEqualsDecimal(needle, haystack[i]);
    }
  }

  /** No string at all is loosely found in two lists of decimal literals that share no element. */
  lemma InArrayLooseDisjoint(needle: string, h1: seq<string>, h2: seq<string>)
    requires forall i :: 0 <= i < |h1| ==> Decimal(h1[i])
    requires forall j :: 0 <= j < |h2| ==> Decimal(h2[j])
    requires forall i, j :: 0 <= i < |h1| && 0 <= j < |h2| ==> h1[i] != h2[j]
    ensures !(InArrayLoose(needle, h1) && InArrayLoose(needle, h2))
  {
    if InArrayLoose(needle, h1) && InArrayLoose(needle, h2) {
      var i :| 0 <= i < |h1| && LooseEquals(needle, h1[i]);
      var j :| 0 <= j < |h2| && LooseEquals(needle, h2[j]);
      NumericDigits(h1[i]);
      NumericDigits(h2[j]);
      DigitsValueInjective(h1[i], h2[j]);
    }
  }

  /** Leading whitespace never changes the number a string denotes. */
  lemma LeadingSpaceIgnored(s: string)
    ensures NumericValue(" " + s) == NumericValue(s)
  {
    assert (" " + s)[1..] == s;
  }

  /** Hence a needle with a leading space is found loosely among decimal literals exactly
      when the bare needle is. */
  lemma InArrayLooseLeadingSpace(needle: string, haystack: seq<string>)
    requires forall i :: 0 <= i < |haystack| ==> Decimal(haystack[i])
    ensures InArrayLoose(" " + needle, haystack) <==> InArrayLoose(needle, haystack)
  {
    LeadingSpaceIgnored(needle);
    if InArrayLoose(" " + needle, haystack) {
      var i :| 0 <= i < |haystack| && LooseEquals(" " + needle, haystack[i]);
      NumericDigits(haystack[i]);
      assert LooseEquals(needle, haystack[i]);
    }
    if InArrayLoose(needle, haystack) {
      var i :| 0 <= i < |haystack| && LooseEquals(needle, haystack[i]);
      NumericDigits(haystack[i]);
      assert LooseEquals(" " + needle, haystack[i]);
    }
  }

  /** Against a list of words, loose `in_array` is plain membership, whatever the needle. */
  lemma InArrayLooseWords(needle: string, haystack: seq<string>)
    requires forall i :: 0 <= i < |haystack| ==> StartsWithLetter(haystack[i])
    ensures InArrayLoose(needle, haystack) <==> needle in haystack
  {
    forall i | 0 <= i < |haystack|
      ensures LooseEquals(needle, haystack[i]) <==> needle == haystack[i]
    {
      NonNumericLetter(haystack[i]);
    }
  }

  /** `"0"` is loosely equal to no decimal literal without a leading zero. */
  lemma ZeroNotInDecimals(haystack: seq<string>)
    requires forall i :: 0 <= i < |haystack| ==> Decimal(haystack[i])
    ensures !InArrayLoose("0", haystack)
  {
    forall i | 0 <= i < |haystack|
      ensures !LooseEquals("0", haystack[i])
    {
      NumericDigits("0");
      NumericDigits(haystack[i]);
      DigitsValuePositive(haystack[i]);
    }
  }
}
