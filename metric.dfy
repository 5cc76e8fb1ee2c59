/**
 * `parse_metric_from_stdout` of the auto-improver: the leftmost match of the
 * regular expression `METRIC:\s*([0-9.+-eE]+)` in a trial's standard output,
 * and Python's `float()` applied to the captured token.
 */
module Metric {
  import opened Wrappers
  import opened Text

  const Marker: string := "METRIC:"

  /**
   * The class `[0-9.+-eE]`. Inside the brackets `+-e` is the range '+'..'e',
   * which already holds the digits, '.', '-' and 'E', and also every other
   * character from '+' to 'e': for example ',', '/', ':', '@', A-Z, '_' and a-e.
   */
  predicate InClass(c: char) {
    '+' <= c <= 'e'
  }

  /**
   * No whitespace character is in the class, so the greedy `\s*` never has to
   * give characters back for `[...]+` to match.
   */
  lemma SpaceNotInClass(c: char)
    ensures IsSpace(c) ==> !InClass(c)
  {
  }

  /** End of the run of whitespace that starts at `i` (what `\s*` consumes). */
  function SkipSpaces(s: string, i: nat): (k: nat)
    requires i <= |s|
    ensures i <= k <= |s|
    ensures forall j :: i <= j < k ==> IsSpace(s[j])
    ensures k < |s| ==> !IsSpace(s[k])
    decreases |s| - i
  {
    if i < |s| && IsSpace(s[i]) then SkipSpaces(s, i + 1) else i
  }

  /** End of the run of class characters that starts at `i` (what `[...]+` consumes). */
  function RunEnd(s: string, i: nat): (k: nat)
    requires i <= |s|
    ensures i <= k <= |s|
    ensures forall j :: i <= j < k ==> InClass(s[j])
    ensures k < |s| ==> !InClass(s[k])
    decreases |s| - i
  {
    if i < |s| && InClass(s[i]) then RunEnd(s, i + 1) else i
  }

  /** The regular expression matches at position `p` of `s`. */
  predicate MatchesAt(s: string, p: nat) {
    && p + |Marker| <= |s|
    && s[p..p + |Marker|] == Marker
    && var q := SkipSpaces(s, p + |Marker|);
       q < |s| && InClass(s[q])
  }

  /** `re.search` from position `from`: the leftmost position at which the expression matches. */
  function FirstMatch(s: string, from: nat): (r: Option<nat>)
    requires from <= |s|
    ensures r.Some? ==> from <= r.value < |s| && MatchesAt(s, r.value)
    ensures r.Some? ==> forall p :: from <= p < r.value ==> !MatchesAt(s, p)
    ensures r.None? ==> forall p :: from <= p ==> !MatchesAt(s, p)
    decreases |s| - from
  {
    if from == |s| then None
    else if MatchesAt(s, from) then Some(from)
    else FirstMatch(s, from + 1)
  }

  /** `m.group(1)` for a match at `p`: the maximal run of class characters after the marker and the whitespace. */
  function Token(s: string, p: nat): (t: string)
    requires MatchesAt(s, p)
    ensures t != [] && forall i :: 0 <= i < |t| ==> InClass(t[i])
  {
    var q := SkipSpaces(s, p + |Marker|);
    var e := RunEnd(s, q);
    assert e > q by { assert InClass(s[q]); }
    s[q..e]
  }

  /** `parse_metric_from_stdout(stdout)` */
  function ParseMetric(stdout: string): Option<real> {
    if stdout == [] then None
    else match FirstMatch(stdout, 0)
      case None => None
      case Some(p) => ParseFloat(Token(stdout, p))
  }

  // ----- Python's float() on the tokens the class admits -----

  predicate IsDigit(c: char) {
    '0' <= c <= '9'
  }

  /** `digitpart ::= digit (["_"] digit)*` of the grammar `float()` accepts. */
  predicate IsDigitPart(s: string)
    decreases |s|
  {
    && |s| > 0
    && IsDigit(s[0])
    && (|s| == 1 || IsDigitPart(s[1..]) || (s[1] == '_' && IsDigitPart(s[2..])))
  }

  /** The number the digits of `s` spell, underscores skipped. */
  function DigitsValue(s: string): nat
    decreases |s|
  {
    if s == [] then 0
    else if IsDigit(s[|s| - 1]) then 10 * DigitsValue(s[..|s| - 1]) + (s[|s| - 1] as int - '0' as int)
    else DigitsValue(s[..|s| - 1])
  }

  /** How many digits `s` holds, underscores skipped. */
  function DigitCount(s: string): nat
    decreases |s|
  {
    if s == [] then 0
    else DigitCount(s[..|s| - 1]) + (if IsDigit(s[|s| - 1]) then 1 else 0)
  }

  function Pow10(k: nat): (r: nat)
    ensures r >= 1
  {
    if k == 0 then 1 else 10 * Pow10(k - 1)
  }

  /** Index of the first character of `s` that is in `cs`, or `|s|`. */
  function Find(s: string, cs: set<char>): (k: nat)
    ensures k <= |s|
    ensures forall i :: 0 <= i < k ==> s[i] !in cs
    ensures k < |s| ==> s[k] in cs
  {
    if s == [] then 0
    else if s[0] in cs then 0
    else 1 + Find(s[1..], cs)
  }

  /** `number ::= [digitpart] "." digitpart | digitpart ["."]` */
  function ParseMantissa(m: string): Option<real> {
    var d := Find(m, {'.'});
    if d == |m| then
      if IsDigitPart(m) then Some(DigitsValue(m) as real) else None
    else
      var ip, fp := m[..d], m[d + 1..];
      if (ip == [] || IsDigitPart(ip)) && (fp == [] || IsDigitPart(fp)) && (ip != [] || fp != []) then
        Some(DigitsValue(ip) as real + DigitsValue(fp) as real / Pow10(DigitCount(fp)) as real)
      else None
  }

  /** `[sign] digitpart`, the part after `e` or `E`. */
  function ParseExponent(x: string): Option<int> {
    var digits := if x != [] && (x[0] == '+' || x[0] == '-') then x[1..] else x;
    var v: int := DigitsValue(digits);
    if !IsDigitPart(digits) then None
    else if x[0] == '-' then Some(-v)
    else Some(v)
  }

  function Scale(m: real, x: int): real {
    if x >= 0 then m * Pow10(x) as real else m / Pow10(-x) as real
  }

  /** `number [exponent]`, the unsigned part of a float spelling. */
  function ParseUnsigned(body: string): Option<real> {
    var e := Find(body, {'e', 'E'});
    match ParseMantissa(body[..e])
    case None => None
    case Some(m) =>
      var x := if e == |body| then Some(0) else ParseExponent(body[e + 1..]);
      match x
      case None => None
      case Some(x) => Some(Scale(m, x))
  }

  /** `float(token)` over `[sign] number [exponent]`; `None` where `float()` raises. */
  function ParseFloat(t: string): Option<real> {
    var negative := t != [] && t[0] == '-';
    var body := if t != [] && (t[0] == '+' || t[0] == '-') then t[1..] else t;
    match ParseUnsigned(body)
    case None => None
    case Some(v) => Some(if negative then -v else v)
  }

  // ----- What the extractor promises -----

  /** The decimal spelling of `n`, as Python's `str()` writes an integer. */
  function NatText(n: nat): (s: string)
    ensures s != [] && forall i :: 0 <= i < |s| ==> IsDigit(s[i])
  {
    if n < 10 then [DigitChar(n)] else NatText(n / 10) + [DigitChar(n % 10)]
  }

  function DigitChar(d: nat): (c: char)
    requires d < 10
    ensures IsDigit(c) && c as int - '0' as int == d
  {
    ('0' as int + d) as char
  }

  /** A non-empty run of plain digits is a `digitpart`. */
  lemma {:induction false} PlainDigitsAreDigitPart(s: string)
    requires s != [] && forall i :: 0 <= i < |s| ==> IsDigit(s[i])
    ensures IsDigitPart(s)
    decreases |s|
  {
    if |s| > 1 {
      PlainDigitsAreDigitPart(s[1..]);
    }
  }

  /** Reading back the decimal spelling of `n` gives `n`, and it has one digit per character. */
  lemma {:induction false} NatTextValue(n: nat)
    ensures DigitsValue(NatText(n)) == n
    ensures DigitCount(NatText(n)) == |NatText(n)|
    ensures IsDigitPart(NatText(n))
  {
    var s := NatText(n);
    PlainDigitsAreDigitPart(s);
    if n >= 10 {
      NatTextValue(n / 10);
      assert s[..|s| - 1] == NatText(n / 10);
    }
  }

  /** `Find` reaches the end exactly when no character of `s` is in `cs`. */
  lemma FindAbsent(s: string, cs: set<char>)
    requires forall i :: 0 <= i < |s| ==> s[i] !in cs
    ensures Find(s, cs) == |s|
  {
  }

  /** Without a sign or an exponent, `float()` reads the token as a mantissa. */
  lemma FloatOfPlainMantissa(t: string)
    requires t != [] && IsDigit(t[0])
    requires forall i :: 0 <= i < |t| ==> t[i] != 'e' && t[i] != 'E'
    ensures ParseFloat(t) == ParseMantissa(t)
  {
    FindAbsent(t, {'e', 'E'});
    assert t[..|t|] == t;
    if ParseMantissa(t).Some? {
      ScaleByZero(ParseMantissa(t).value);
    }
  }

  lemma ScaleByZero(m: real)
    ensures Scale(m, 0) == m
  {
    assert Pow10(0) == 1;
  }

  /** `digits "." digits` reads as the integer part plus the fraction. */
  lemma MantissaOfDecimal(ip: string, fp: string)
    requires ip != [] && forall i :: 0 <= i < |ip| ==> IsDigit(ip[i])
    requires forall i :: 0 <= i < |fp| ==> IsDigit(fp[i])
    ensures ParseMantissa(ip + "." + fp)
         == Some(DigitsValue(ip) as real + DigitsValue(fp) as real / Pow10(DigitCount(fp)) as real)
  {
    var m := ip + "." + fp;
    forall i | 0 <= i < |ip| ensures m[i] !in {'.'} {
      assert m[i] == ip[i];
    }
    assert m[|ip|] == '.';
    assert Find(m, {'.'}) == |ip|;
    assert m[..|ip|] == ip;
    assert m[|ip| + 1..] == fp;
    PlainDigitsAreDigitPart(ip);
    if fp != [] {
      PlainDigitsAreDigitPart(fp);
    }
  }

  /**
   * `float("<digits of n>.0")` is `n`. This is the spelling `str()` gives a
   * float with a whole value below 10^16; larger ones print with an exponent.
   */
  lemma ParseFloatOfPrintedWhole(n: nat)
    ensures ParseFloat(NatText(n) + ".0") == Some(n as real)
  {
    var d := NatText(n);
    var t := d + ".0";
    MantissaOfPrintedWhole(n);
    forall i | 0 <= i < |t| ensures t[i] != 'e' && t[i] != 'E' {
      if i < |d| { assert t[i] == d[i]; }
    }
    assert t[0] == d[0];
    FloatOfPlainMantissa(t);
  }

  /** The mantissa `"<digits of n>.0"` reads as `n`. */
  lemma MantissaOfPrintedWhole(n: nat)
    ensures ParseMantissa(NatText(n) + ".0") == Some(n as real)
  {
    var d := NatText(n);
    NatTextValue(n);
    assert d + "." + "0" == d + ".0";
    MantissaOfDecimal(d, "0");
    ZeroFraction();
  }

  /** The fraction `.0` adds nothing. */
  lemma ZeroFraction()
    ensures DigitsValue("0") as real / Pow10(DigitCount("0")) as real == 0.0
  {
    assert "0"[..0] == [];
    assert DigitsValue("0") == 0;
  }

  /** A `digitpart` holds only digits and underscores. */
  lemma {:induction false} DigitPartChars(s: string)
    requires IsDigitPart(s)
    ensures forall i :: 0 <= i < |s| ==> IsDigit(s[i]) || s[i] == '_'
    decreases |s|
  {
    if |s| > 1 {
      if IsDigitPart(s[1..]) {
        DigitPartChars(s[1..]);
        assert forall i :: 1 <= i < |s| ==> s[i] == s[1..][i - 1];
      } else {
        DigitPartChars(s[2..]);
        assert forall i :: 2 <= i < |s| ==> s[i] == s[2..][i - 2];
      }
    }
  }

  /** A mantissa `float()` accepts holds only digits, underscores and the point. */
  lemma MantissaChars(m: string)
    requires ParseMantissa(m).Some?
    ensures forall i :: 0 <= i < |m| ==> IsDigit(m[i]) || m[i] == '_' || m[i] == '.'
  {
    var d := Find(m, {'.'});
    if d == |m| {
      DigitPartChars(m);
    } else {
      var ip, fp := m[..d], m[d + 1..];
      if ip != [] { DigitPartChars(ip); }
      if fp != [] { DigitPartChars(fp); }
      assert forall i :: 0 <= i < d ==> m[i] == ip[i];
      assert forall i :: d < i < |m| ==> m[i] == fp[i - d - 1];
    }
  }

  /** A token without a sign or an exponent that holds any other character is not a float. */
  lemma StrayCharNotAFloat(t: string, k: nat)
    requires t != [] && IsDigit(t[0])
    requires forall i :: 0 <= i < |t| ==> t[i] != 'e' && t[i] != 'E'
    requires k < |t| && !IsDigit(t[k]) && t[k] != '_' && t[k] != '.'
    ensures ParseFloat(t) == None
  {
    FloatOfPlainMantissa(t);
    if ParseMantissa(t).Some? {
      MantissaChars(t);
    }
  }

  /** A leading '-' negates what `float()` reads, and is rejected exactly when the rest is. */
  lemma ParseFloatNegated(t: string)
    requires t != [] && t[0] != '+' && t[0] != '-'
    ensures ParseFloat("-" + t).Some? <==> ParseFloat(t).Some?
    ensures ParseFloat(t).Some? ==> ParseFloat("-" + t).value == -ParseFloat(t).value
  {
    assert ("-" + t)[1..] == t;
  }

  /**
   * Output that starts with the marker, one space and a token, followed by a
   * character outside the class or by nothing, yields `float(token)`.
   */
  lemma {:induction false} ParseMetricOfMarkedToken(tok: string, rest: string)
    requires tok != [] && forall i :: 0 <= i < |tok| ==> InClass(tok[i])
    requires rest == [] || !InClass(rest[0])
    ensures ParseMetric(Marker + " " + tok + rest) == ParseFloat(tok)
  {
    var s := Marker + " " + tok + rest;
    var m := |Marker|;
    assert s[..m] == Marker;
    assert s[m] == ' ';
    assert s[m + 1] == tok[0];
    assert SkipSpaces(s, m + 1) == m + 1;
    assert SkipSpaces(s, m) == m + 1;
    assert MatchesAt(s, 0);
    assert FirstMatch(s, 0) == Some(0);
    var k := m + 1 + |tok|;
    forall j | m + 1 <= j < k ensures InClass(s[j]) {
      assert s[j] == tok[j - m - 1];
    }
    assert k < |s| ==> s[k] == rest[0];
    RunFrom(s, m + 1, k);
    assert s[m + 1..k] == tok;
  }

  /** A line printed as `METRIC: <n>.0` parses back to `n`, whatever follows outside the class. */
  lemma ParseMetricOfPrintedWhole(n: nat, rest: string)
    requires rest == [] || !InClass(rest[0])
    ensures ParseMetric(Marker + " " + NatText(n) + ".0" + rest) == Some(n as real)
  {
    var d := NatText(n);
    var tok := d + ".0";
    forall i | 0 <= i < |tok| ensures InClass(tok[i]) {
      if i < |d| { assert tok[i] == d[i]; }
    }
    assert Marker + " " + NatText(n) + ".0" + rest == Marker + " " + tok + rest;
    ParseMetricOfMarkedToken(tok, rest);
    ParseFloatOfPrintedWhole(n);
  }

  /** `RunEnd` stops exactly at the first character outside the class. */
  lemma {:induction false} RunFrom(s: string, i: nat, k: nat)
    requires i <= k <= |s|
    requires forall j :: i <= j < k ==> InClass(s[j])
    requires k < |s| ==> !InClass(s[k])
    ensures RunEnd(s, i) == k
    decreases k - i
  {
    if i < k {
      RunFrom(s, i + 1, k);
    }
  }

  /** The leftmost match needs an 'M': output without one has no metric. */
  lemma NoMetricWithoutM(s: string)
    requires forall i :: 0 <= i < |s| ==> s[i] != 'M'
    ensures ParseMetric(s) == None
  {
    forall p: nat ensures !MatchesAt(s, p) {
      if p + |Marker| <= |s| {
        assert s[p..p + |Marker|][0] == s[p];
      }
    }
  }

  /** "METRIC: 3.5" gives 3.5. */
  lemma ParsesWellFormedMetric()
    ensures ParseMetric("METRIC: 3.5") == Some(3.5)
  {
    var t := "3.5";
    assert forall i :: 0 <= i < |t| ==> InClass(t[i]);
    assert Marker + " " + t + "" == "METRIC: 3.5";
    ParseMetricOfMarkedToken(t, "");
    DecimalIsAFloat();
  }

  /** `float("3.5")` is 3.5. */
  lemma DecimalIsAFloat()
    ensures ParseFloat("3.5") == Some(3.5)
  {
    var ip, fp := NatText(3), NatText(5);
    assert ip == "3" && fp == "5";
    NatTextValue(3);
    NatTextValue(5);
    MantissaOfDecimal(ip, fp);
    assert ip + "." + fp == "3.5";
    assert DigitCount(fp) == 1 && Pow10(1) == 10;
    var v := DigitsValue(ip) as real + DigitsValue(fp) as real / Pow10(DigitCount(fp)) as real;
    assert v == 3.0 + 5.0 / 10.0 == 3.5;
    assert ParseMantissa("3.5") == Some(v);
    FloatOfPlainMantissa("3.5");
  }

  /** Output without any marker has no metric. */
  lemma NoMarkerNoMetric()
    ensures ParseMetric("no marker here") == None
  {
    var s := "no marker here";
    assert forall i :: 0 <= i < |s| ==> s[i] != 'M';
    NoMetricWithoutM(s);
  }

  /** `float("abc")` raises. */
  lemma LettersAreNotAFloat()
    ensures ParseFloat("abc") == None
  {
    var t := "abc";
    assert Find(t, {'e', 'E'}) == 3;
    assert t[..3] == t;
    assert Find(t, {'.'}) == 3;
  }

  /** A token of letters is captured but rejected by `float()`. */
  lemma LetterTokenRejected()
    ensures ParseMetric("METRIC: abc") == None
  {
    var t := "abc";
    assert forall i :: 0 <= i < |t| ==> InClass(t[i]);
    assert Marker + " " + t + "" == "METRIC: abc";
    ParseMetricOfMarkedToken(t, "");
    LettersAreNotAFloat();
  }

  /** ',' lies in the range '+'..'e', so "3.5," is captured whole and then rejected. */
  lemma TrailingCommaRejected()
    ensures ParseMetric("METRIC: 3.5,") == None
  {
    var t := "3.5,";
    assert forall i :: 0 <= i < |t| ==> InClass(t[i]);
    assert Marker + " " + t + "" == "METRIC: 3.5,";
    ParseMetricOfMarkedToken(t, "");
    assert forall i :: 0 <= i < |t| ==> t[i] != 'e' && t[i] != 'E';
    StrayCharNotAFloat(t, 3);
  }

  /** Only the first match counts: a rejected first token hides a well-formed later one. */
  lemma LaterMarkerIgnored()
    ensures ParseMetric("METRIC: abc METRIC: 2") == None
  {
    var t, rest := "abc", " METRIC: 2";
    assert forall i :: 0 <= i < |t| ==> InClass(t[i]);
    assert Marker + " " + t + rest == "METRIC: abc METRIC: 2";
    ParseMetricOfMarkedToken(t, rest);
    LettersAreNotAFloat();
  }
}
