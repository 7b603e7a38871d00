/**
 * The parts of Python 2's byte-string library that the interpreter relies on:
 * `strip`, `split`, `index`, `startswith`, `int()`, `float()` and the
 * `"%02d"` format. Only the behaviour reachable from G-code tokens is modelled.
 */
module Strings {
  import opened Wrappers

  /** Python's whitespace for byte strings: space, \t, \n, \r, \v and \f. */
  predicate IsSpace(c: char) {
    c == ' ' || c == '\t' || c == '\n' || c == '\r' || c == 11 as char || c == 12 as char
  }

  predicate NoSpace(s: string) {
    forall i :: 0 <= i < |s| ==> !IsSpace(s[i])
  }

  predicate AllSpace(s: string) {
    forall i :: 0 <= i < |s| ==> IsSpace(s[i])
  }

  predicate StartsWith(s: string, c: char) {
    |s| > 0 && s[0] == c
  }

  /** Length of the leading run of whitespace. */
  function SpaceRun(s: string): (k: nat)
    ensures k <= |s| && AllSpace(s[..k])
    ensures k == |s| || !IsSpace(s[k])
  {
    if s == [] || !IsSpace(s[0]) then 0
    else
      var k := SpaceRun(s[1..]);
      assert forall i :: 1 <= i < 1 + k ==> s[i] == s[1..][..k][i - 1];
      1 + k
  }

  /** Length of what is left once the trailing whitespace is dropped. */
  function ContentEnd(s: string): (k: nat)
    ensures k <= |s| && AllSpace(s[k..])
    ensures k == 0 || !IsSpace(s[k - 1])
  {
    if s == [] || !IsSpace(s[|s| - 1]) then |s|
    else
      var k := ContentEnd(s[..|s| - 1]);
      assert forall i :: k <= i < |s| - 1 ==> s[i] == s[..|s| - 1][i];
      k
  }

  /**
   * `s.strip()`: `s` without its leading and its trailing run of whitespace.
   * It is empty exactly when `s` is all whitespace.
   */
  function Strip(s: string): (r: string)
    ensures SpaceRun(s) + |r| <= |s| && r == s[SpaceRun(s)..SpaceRun(s) + |r|]
    ensures AllSpace(s[SpaceRun(s) + |r|..])
    ensures r == [] || (!IsSpace(r[0]) && !IsSpace(r[|r| - 1]))
    ensures r == [] <==> AllSpace(s)
  {
    var k := SpaceRun(s);
    var t := s[k..];
    var c := ContentEnd(t);
    var r := t[..c];
    assert r == s[k..k + c];
    assert s[k + c..] == t[c..];
    assert k < |s| ==> t[0] == s[k];
    assert r != [] ==> r[0] == s[k] && r[|r| - 1] == t[c - 1] && |r| == c;
    assert r == [] ==> k == |s|;
    assert r == [] ==> AllSpace(s) by { assert s[..|s|] == s; }
    r
  }

  /** A line is its leading whitespace, then what `strip()` keeps, then its trailing whitespace. */
  lemma StripDecomposes(s: string)
    ensures var k := SpaceRun(s);
            var r := Strip(s);
            s == s[..k] + r + s[k + |r|..]
  {
    var k := SpaceRun(s);
    ThreeSlices(s, k, k + |Strip(s)|);
  }

  lemma ThreeSlices(s: string, i: nat, j: nat)
    requires i <= j <= |s|
    ensures s == s[..i] + s[i..j] + s[j..]
  {
  }

  /** Length of the leading run of non-whitespace characters. */
  function TokenEnd(s: string): (k: nat)
    ensures k <= |s| && NoSpace(s[..k])
    ensures k == |s| || IsSpace(s[k])
  {
    if s == [] || IsSpace(s[0]) then 0 else 1 + TokenEnd(s[1..])
  }

  /** `s.split()`: the maximal runs of non-whitespace characters, in order. */
  function Split(s: string): (r: seq<string>)
    ensures forall t :: t in r ==> t != [] && NoSpace(t)
    ensures r == [] <==> AllSpace(s)
    decreases |s|
  {
    var t := s[SpaceRun(s)..];
    if t == [] then
      assert AllSpace(s) by { assert s[..|s| - |t|] == s; }
      []
    else
      var k := TokenEnd(t);
      var rest := Split(t[k..]);
      assert !AllSpace(s) by { assert s[|s| - |t|] == t[0]; }
      [t[..k]] + rest
  }

  /**
   * `split()` takes the maximal runs of non-whitespace in order: whitespace,
   * then a token, then the rest (which starts with whitespace, if anything)
   * splits into that token followed by the tokens of the rest. With
   * `Split(s) == []` exactly for blank `s`, this determines `Split` on every string.
   */
  lemma SplitCons(w: string, tok: string, rest: string)
    requires AllSpace(w) && tok != [] && NoSpace(tok)
    requires rest == [] || IsSpace(rest[0])
    ensures Split(w + tok + rest) == [tok] + Split(rest)
  {
    var s := w + tok + rest;
    var t := tok + rest;
    assert s == w + t;
    SpaceRunOfPrefix(w, t);
    assert s[|w|..] == t;
    TokenEndOfPrefix(tok, rest);
    assert t[..|tok|] == tok && t[|tok|..] == rest;
  }

  lemma SpaceRunOfPrefix(w: string, t: string)
    requires AllSpace(w) && t != [] && !IsSpace(t[0])
    ensures SpaceRun(w + t) == |w|
  {
    var s := w + t;
    assert s[..|w|] == w && s[|w|] == t[0];
  }

  lemma TokenEndOfPrefix(tok: string, rest: string)
    requires NoSpace(tok) && (rest == [] || IsSpace(rest[0]))
    ensures TokenEnd(tok + rest) == |tok|
  {
    var t := tok + rest;
    assert t[..|tok|] == tok;
    assert |tok| == |t| || t[|tok|] == rest[0];
  }

  /** `s.index(c)`, with Python's ValueError as None. */
  function IndexOf(s: string, c: char): (r: Option<nat>)
    ensures r.Some? ==> r.value < |s| && s[r.value] == c && c !in s[..r.value]
    ensures r.None? ==> c !in s
  {
    if s == [] then None
    else if s[0] == c then Some(0)
    else match IndexOf(s[1..], c)
      case None => None
      case Some(i) =>
        assert s[..i + 1] == [s[0]] + s[1..][..i];
        Some(i + 1)
  }

  /** The first occurrence of `c` is found just after a prefix free of `c`. */
  lemma {:induction false} IndexOfAfter(x: string, c: char, y: string)
    requires c !in x
    ensures IndexOf(x + [c] + y, c) == Some(|x|)
  {
    var s := x + [c] + y;
    assert s[|x|] == c;
  }

  // ---- decimal digits ----

  predicate IsDigit(c: char) {
    '0' <= c <= '9'
  }

  predicate AllDigits(s: string) {
    forall i :: 0 <= i < |s| ==> IsDigit(s[i])
  }

  function DigitValue(c: char): nat
    requires IsDigit(c)
  {
    (c as int) - ('0' as int)
  }

  function DigitChar(d: nat): (c: char)
    requires d < 10
    ensures IsDigit(c) && DigitValue(c) == d
  {
    (('0' as int) + d) as char
  }

  /** The value of a string of decimal digits ("" is 0). */
  function DigitsValue(s: string): nat
    requires AllDigits(s)
  {
    if s == [] then 0 else DigitsValue(s[..|s| - 1]) * 10 + DigitValue(s[|s| - 1])
  }

  /** The shortest decimal spelling of `n`; reading it back gives `n`. */
  function Digits(n: nat): (s: string)
    ensures s != [] && AllDigits(s) && DigitsValue(s) == n
    ensures n > 0 ==> s[0] != '0'
  {
    if n < 10 then [DigitChar(n)]
    else
      var p := Digits(n / 10);
      var s := p + [DigitChar(n % 10)];
      assert s[..|s| - 1] == p;
      s
  }

  /** Leading zeros do not change the value of a digit string. */
  lemma {:induction false} LeadingZero(s: string)
    requires AllDigits(s)
    ensures AllDigits("0" + s) && DigitsValue("0" + s) == DigitsValue(s)
  {
    if s != [] {
      var t := "0" + s;
      assert t[..|t| - 1] == "0" + s[..|s| - 1];
      LeadingZero(s[..|s| - 1]);
    }
  }

  /** Python `int(s)` on a whitespace-free token: an optional sign and one or more digits. */
  function ParseInt(s: string): (r: Option<int>)
    ensures r.Some? <==> (s != [] && AllDigits(s)) || (|s| >= 2 && (s[0] == '+' || s[0] == '-') && AllDigits(s[1..]))
    ensures s != [] && AllDigits(s) ==> r == Some(DigitsValue(s))
    ensures |s| >= 2 && s[0] == '+' && AllDigits(s[1..]) ==> r == Some(DigitsValue(s[1..]))
    ensures |s| >= 2 && s[0] == '-' && AllDigits(s[1..]) ==> r == Some(-(DigitsValue(s[1..]) as int))
  {
    if |s| > 0 && (s[0] == '+' || s[0] == '-') then
      var d := s[1..];
      if d != [] && AllDigits(d) then
        Some(if s[0] == '-' then -(DigitsValue(d) as int) else DigitsValue(d))
      else None
    else if s != [] && AllDigits(s) then Some(DigitsValue(s))
    else None
  }

  /**
   * Python `"%02d" % n`: the decimal digits of `n`, padded with one zero to
   * two digits; a negative number is its minus sign and digits, unpadded.
   */
  function Format02(n: int): (s: string)
    ensures |s| >= 2
    ensures n >= 0 ==> AllDigits(s) && DigitsValue(s) == n && (|s| == 2 || s[0] != '0')
    ensures n < 0 ==> s == "-" + Digits(-n)
  {
    if n >= 0 then
      var d := Digits(n);
      if |d| < 2 then
        LeadingZero(d);
        "0" + d
      else d
    else "-" + Digits(-n)
  }

  /** `int()` reads back what `"%02d"` wrote. */
  lemma FormatThenParse(n: int)
    ensures ParseInt(Format02(n)) == Some(n)
  {
    if n >= 0 {
      var d := Digits(n);
      if |d| < 2 {
        LeadingZero(d);
      }
    } else {
      var d := Digits(-n);
      assert Format02(n)[1..] == d;
    }
  }

  // ---- float() ----

  function Pow10(n: nat): (r: real)
    ensures r >= 1.0
  {
    if n == 0 then 1.0 else 10.0 * Pow10(n - 1)
  }

  /** Length of the leading run of decimal digits. */
  function DigitRun(s: string): (k: nat)
    ensures k <= |s| && AllDigits(s[..k])
    ensures k == |s| || !IsDigit(s[k])
  {
    if s == [] || !IsDigit(s[0]) then 0 else 1 + DigitRun(s[1..])
  }

  lemma DigitRunAll(s: string)
    requires AllDigits(s)
    ensures DigitRun(s) == |s|
  {
    if s != [] {
      DigitRunAll(s[1..]);
    }
  }

  /** The leading digit run of digits followed by a non-digit is exactly those digits. */
  lemma {:induction false} DigitRunPrefix(w: string, rest: string)
    requires AllDigits(w)
    requires rest == [] || !IsDigit(rest[0])
    ensures DigitRun(w + rest) == |w|
  {
    if w != [] {
      assert (w + rest)[1..] == w[1..] + rest;
      DigitRunPrefix(w[1..], rest);
    } else {
      assert w + rest == rest;
    }
  }

  /** The exponent part of a float literal: nothing, or `e`/`E` and an integer. */
  function ParseExponent(s: string): Option<int> {
    if s == [] then Some(0)
    else if s[0] == 'e' || s[0] == 'E' then ParseInt(s[1..])
    else None
  }

  /**
   * Python `float(s)` on a whitespace-free token, for decimal literals:
   * `[sign] digits [. digits] [exponent]`, with at least one digit in the mantissa.
   */
  function ParseFloat(s: string): (r: Option<real>)
    ensures r.Some? ==> s != [] && (IsDigit(s[0]) || s[0] == '+' || s[0] == '-' || s[0] == '.')
    ensures s != [] && AllDigits(s) ==> r == Some(DigitsValue(s) as real)
    ensures |s| >= 2 && s[0] == '-' && AllDigits(s[1..]) ==> r == Some(-(DigitsValue(s[1..]) as real))
  {
    if |s| > 0 && (s[0] == '+' || s[0] == '-') then
      match ParseUnsigned(s[1..])
      case None => None
      case Some(v) => Some(if s[0] == '-' then -v else v)
    else ParseUnsigned(s)
  }

  /** `float()` after the sign: `digits [. digits] [exponent]`, with at least one digit in the mantissa. */
  function ParseUnsigned(t: string): (r: Option<real>)
    ensures r.Some? ==> t != [] && (IsDigit(t[0]) || t[0] == '.')
    ensures t != [] && AllDigits(t) ==> r == Some(DigitsValue(t) as real)
  {
    assert AllDigits(t) ==> DigitRun(t) == |t| && t[..|t|] == t && t[|t|..] == [] by {
      if AllDigits(t) { DigitRunAll(t); }
    }
    var n1 := DigitRun(t);
    var whole := t[..n1];
    var rest := t[n1..];
    var hasPoint := |rest| > 0 && rest[0] == '.';
    var afterPoint := if hasPoint then rest[1..] else [];
    var n2 := DigitRun(afterPoint);
    var fraction := afterPoint[..n2];
    var tail := if hasPoint then afterPoint[n2..] else rest;
    assert AllDigits(t) ==> whole == t && !hasPoint && fraction == [] && tail == [];
    if |whole| + |fraction| == 0 then None
    else
      var mantissa := DigitsValue(whole) as real + DigitsValue(fraction) as real / Pow10(|fraction|);
      assert AllDigits(t) ==> mantissa == DigitsValue(t) as real;
      match ParseExponent(tail)
      case None => None
      case Some(e) =>
        var magnitude := if e >= 0 then mantissa * Pow10(e) else mantissa / Pow10(-e);
        assert AllDigits(t) ==> e == 0 && Pow10(0) == 1.0 && magnitude == mantissa;
        Some(magnitude)
  }

  /** A plain digit string is read by `float()` as the number it spells. */
  lemma FloatOfDigits(n: nat)
    ensures ParseFloat(Digits(n)) == Some(n as real)
  {
    var s := Digits(n);
    assert s[0] != '+' && s[0] != '-';
    assert s[..|s|] == s;
    assert s[|s|..] == [];
  }

  /** A literal `whole.fraction` is read as the whole part plus the fraction scaled down by its length. */
  lemma {:induction false} FloatOfDecimal(whole: string, fraction: string)
    requires AllDigits(whole) && AllDigits(fraction) && |whole| + |fraction| > 0
    ensures ParseFloat(whole + "." + fraction)
            == Some(DigitsValue(whole) as real + DigitsValue(fraction) as real / Pow10(|fraction|))
  {
    var t := whole + "." + fraction;
    UnsignedOfDecimal(whole, fraction);
    if whole == [] {
      assert t[0] == '.';
    } else {
      assert t[0] == whole[0];
    }
  }

  lemma {:induction false} UnsignedOfDecimal(whole: string, fraction: string)
    requires AllDigits(whole) && AllDigits(fraction) && |whole| + |fraction| > 0
    ensures ParseUnsigned(whole + "." + fraction)
            == Some(DigitsValue(whole) as real + DigitsValue(fraction) as real / Pow10(|fraction|))
  {
    var t := whole + "." + fraction;
    var k := |whole|;
    assert DigitRun(t) == k by {
      assert t == whole + ("." + fraction);
      DigitRunPrefix(whole, "." + fraction);
    }
    assert t[..k] == whole && t[k] == '.' && t[k + 1..] == fraction;
    assert DigitRun(fraction) == |fraction| by { DigitRunAll(fraction); }
    UnsignedParts(t, whole, fraction);
  }

  /** `float()` of digits, a point and digits, in terms of where the point is. */
  lemma {:induction false} UnsignedParts(t: string, whole: string, fraction: string)
    requires DigitRun(t) == |whole| && |whole| < |t| && t[|whole|] == '.'
    requires t[..|whole|] == whole && t[|whole| + 1..] == fraction
    requires DigitRun(fraction) == |fraction| && |whole| + |fraction| > 0
    ensures AllDigits(whole) && AllDigits(fraction)
    ensures ParseUnsigned(t) == Some(DigitsValue(whole) as real + DigitsValue(fraction) as real / Pow10(|fraction|))
  {
    var k := |whole|;
    var m := |fraction|;
    var rest := t[k..];
    assert rest[1..] == fraction;
    assert fraction[..m] == fraction;
    assert fraction[m..] == [];
    assert ParseExponent([]) == Some(0);
    var mantissa := DigitsValue(whole) as real + DigitsValue(fraction) as real / Pow10(m);
    assert mantissa * Pow10(0) == mantissa;
  }

  /** One digit, a point and one digit: "1.5" is read as one and a half. */
  lemma OneDecimal(a: nat, b: nat)
    requires a < 10 && b < 10
    ensures ParseFloat([DigitChar(a), '.', DigitChar(b)]) == Some(a as real + b as real / 10.0)
  {
    var w, f := [DigitChar(a)], [DigitChar(b)];
    assert DigitsValue(w) == a by { assert w[..0] == []; }
    assert DigitsValue(f) == b by { assert f[..0] == []; }
    assert Pow10(|f|) == 10.0;
    FloatOfDecimal(w, f);
    assert w + "." + f == [DigitChar(a), '.', DigitChar(b)];
  }
}
