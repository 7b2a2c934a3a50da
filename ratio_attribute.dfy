/** The `constraint_ratio` attribute: a string "W:H" that the view reads once,
    when it is created, and turns into the width-over-height ratio W / H.

    The view keeps the ratio as a `Float`; here it is the exact quotient
    num / den of the two decimal numbers in the string. */
module RatioAttribute {
  import opened Wrappers

  /** The ratio num / den, width over height. A zero `den` is possible: the
      string "16:0" is accepted (the view then divides by zero). */
  datatype Ratio = Ratio(num: nat, den: nat)

  /** The ratio the view starts with, and keeps when the attribute is absent
      or rejected: 1, a square. */
  const DefaultRatio: Ratio := Ratio(1, 1)

  // ---------------------------------------------------------------------------
  // Characters and digit runs
  // ---------------------------------------------------------------------------

  /** The character class `\d`, taken as the ASCII digits (as in
      `java.util.regex` without the Unicode character class flag). */
  predicate IsDigit(c: char) {
    '0' <= c <= '9'
  }

  /** Every character of `s` is a digit (the empty string included). */
  predicate AllDigits(s: string) {
    forall k :: 0 <= k < |s| ==> IsDigit(s[k])
  }

  /** `s` is matched in full by `\d+`: one or more digits. */
  predicate IsDigitRun(s: string) {
    |s| > 0 && AllDigits(s)
  }

  /** Kotlin's `Char.isWhitespace` on the JVM: `Character.isWhitespace` or
      `Character.isSpaceChar`. */
  predicate IsWhitespace(c: char) {
    c == ' ' || c == '\t' || c == '\n' || c == '\r' || c == '\U{000B}' || c == '\U{000C}'
    || ('\U{001C}' <= c <= '\U{001F}')
    || c == '\U{00A0}' || c == '\U{1680}'
    || ('\U{2000}' <= c <= '\U{200A}')
    || c == '\U{2028}' || c == '\U{2029}' || c == '\U{202F}' || c == '\U{205F}' || c == '\U{3000}'
  }

  /** Kotlin's `isBlank`: empty, or whitespace only. A blank string holds
      neither a digit nor a colon. */
  predicate IsBlank(s: string): (b: bool)
    ensures |s| == 0 ==> b
    ensures b ==> forall k :: 0 <= k < |s| ==> !IsDigit(s[k]) && s[k] != ':'
  {
    forall k :: 0 <= k < |s| ==> IsWhitespace(s[k])
  }

  // ---------------------------------------------------------------------------
  // Library string operations the parser relies on
  // ---------------------------------------------------------------------------

  /** The first position of `c` in `s`, or None when `c` does not occur
      (Kotlin's `indexOf`, with -1 as None). */
  function IndexOf(s: string, c: char): (r: Option<nat>)
    ensures r.None? ==> c !in s
    ensures r.Some? ==> r.value < |s| && s[r.value] == c && c !in s[..r.value]
  {
    if |s| == 0 then None
    else if s[0] == c then Some(0)
    else
      match IndexOf(s[1..], c)
      case None => None
      case Some(k) => assert s[..k + 1] == [s[0]] + s[1..][..k]; Some(k + 1)
  }

  /** Kotlin's `substringBefore`: the part of `s` before the first `delimiter`,
      or all of `s` when there is none. That is the longest prefix of `s`
      free of `delimiter`. */
  function SubstringBefore(s: string, delimiter: char): (r: string)
    ensures r <= s && delimiter !in r
    ensures |r| < |s| ==> s[|r|] == delimiter
  {
    match IndexOf(s, delimiter)
    case None => s
    case Some(i) => s[..i]
  }

  /** Kotlin's `substringAfter`: the part of `s` after the first `delimiter`,
      or all of `s` when there is none. */
  function SubstringAfter(s: string, delimiter: char): (r: string)
    ensures delimiter in s ==> s == SubstringBefore(s, delimiter) + [delimiter] + r
    ensures delimiter !in s ==> r == s
  {
    match IndexOf(s, delimiter)
    case None => s
    case Some(i) => assert s == s[..i] + [delimiter] + s[i + 1..]; s[i + 1..]
  }

  // ---------------------------------------------------------------------------
  // Decimal numbers
  // ---------------------------------------------------------------------------

  function DigitValue(c: char): nat
    requires IsDigit(c)
  {
    (c as int) - ('0' as int)
  }

  function DigitChar(d: nat): char
    requires d < 10
  {
    (('0' as int) + d) as char
  }

  /** The number a string of digits denotes (what `toFloat` gives for such a
      string, without rounding). Leading zeros are allowed: "007" is 7. */
  function DecimalValue(s: string): (n: nat)
    requires AllDigits(s)
    ensures n == 0 <==> forall k :: 0 <= k < |s| ==> s[k] == '0'
  {
    if |s| == 0 then 0
    else
      var init := s[..|s| - 1];
      assert AllDigits(init) by {
        forall k | 0 <= k < |init| ensures IsDigit(init[k]) { assert init[k] == s[k]; }
      }
      10 * DecimalValue(init) + DigitValue(s[|s| - 1])
  }

  /** The usual decimal rendering of `n`, without leading zeros. */
  function Decimal(n: nat): (s: string)
    ensures IsDigitRun(s)
    ensures s[0] == '0' ==> s == "0"
  {
    if n < 10 then [DigitChar(n)]
    else
      var prefix := Decimal(n / 10);
      prefix + [DigitChar(n % 10)]
  }

  /** A leading zero does not change the value. */
  lemma {:induction false} LeadingZero(s: string)
    requires AllDigits(s)
    ensures AllDigits("0" + s) && DecimalValue("0" + s) == DecimalValue(s)
  {
    var t := "0" + s;
    assert AllDigits(t) by {
      forall k | 0 <= k < |t| ensures IsDigit(t[k]) { if k > 0 { assert t[k] == s[k - 1]; } }
    }
    if |s| == 0 {
      assert t[..|t| - 1] == [];
    } else {
      var init := s[..|s| - 1];
      assert AllDigits(init) by {
        forall k | 0 <= k < |init| ensures IsDigit(init[k]) { assert init[k] == s[k]; }
      }
      assert t[..|t| - 1] == "0" + init;
      assert t[|t| - 1] == s[|s| - 1];
      LeadingZero(init);
    }
  }

  lemma {:induction false} DecimalValueOfDecimal(n: nat)
    ensures DecimalValue(Decimal(n)) == n
  {
    var s := Decimal(n);
    if n < 10 {
      assert s[..|s| - 1] == [];
    } else {
      assert s[..|s| - 1] == Decimal(n / 10);
      DecimalValueOfDecimal(n / 10);
    }
  }

  // ---------------------------------------------------------------------------
  // The pattern \d+:\d+ and the parser
  // ---------------------------------------------------------------------------

  /** The whole of `s` matches `\d+:\d+`: a digit run, a colon, a digit run. */
  ghost predicate MatchesRatioPattern(s: string) {
    exists i :: 0 <= i < |s| && s[i] == ':' && IsDigitRun(s[..i]) && IsDigitRun(s[i + 1..])
  }

  /** A colon preceded by digits only is the first colon of `s`. */
  lemma ColonAfterDigitsIsFirst(s: string)
    ensures forall i :: 0 <= i < |s| && s[i] == ':' && AllDigits(s[..i]) ==> IndexOf(s, ':') == Some(i)
  {
    forall i | 0 <= i < |s| && s[i] == ':' && AllDigits(s[..i])
      ensures IndexOf(s, ':') == Some(i)
    {
      var r := IndexOf(s, ':');
      assert s[i] in s;
      assert r.value >= i by {
        forall k | 0 <= k < i ensures s[k] != ':' { assert s[k] == s[..i][k]; }
      }
    }
  }

  /** Regex.matches for `\d+:\d+`, decided by locating the first colon. */
  function MatchesRatio(s: string): (b: bool)
    ensures b <==> MatchesRatioPattern(s)
  {
    ColonAfterDigitsIsFirst(s);
    match IndexOf(s, ':')
    case None => false
    case Some(i) => IsDigitRun(s[..i]) && IsDigitRun(s[i + 1..])
  }

  /** The ratio a matching string denotes: the number before the colon over the
      number after it. None when the string does not match. */
  function ParseRatio(s: string): (r: Option<Ratio>)
    ensures r.Some? <==> MatchesRatioPattern(s)
    ensures forall i :: 0 <= i < |s| && s[i] == ':' && IsDigitRun(s[..i]) && IsDigitRun(s[i + 1..]) ==>
              r == Some(Ratio(DecimalValue(s[..i]), DecimalValue(s[i + 1..])))
  {
    ColonAfterDigitsIsFirst(s);
    if MatchesRatio(s) then
      Some(Ratio(DecimalValue(SubstringBefore(s, ':')), DecimalValue(SubstringAfter(s, ':'))))
    else
      None
  }

  /** A blank string never matches, so the view's blank test changes nothing
      the pattern would not already reject. */
  lemma BlankNeverMatches(s: string)
    requires IsBlank(s)
    ensures !MatchesRatioPattern(s)
  {
    forall i | 0 <= i < |s| ensures s[i] != ':' {
      assert IsWhitespace(s[i]);
    }
  }

  /** The ratio the view ends up with after reading the attribute: the parsed
      ratio when the attribute is present and matches, the default otherwise. */
  function ConfiguredRatio(attribute: Option<string>): (r: Ratio)
    ensures attribute.None? ==> r == DefaultRatio
    ensures attribute.Some? && !MatchesRatioPattern(attribute.value) ==> r == DefaultRatio
    ensures attribute.Some? && MatchesRatioPattern(attribute.value) ==> Some(r) == ParseRatio(attribute.value)
  {
    if attribute.None? || IsBlank(attribute.value) then
      if attribute.Some? then BlankNeverMatches(attribute.value); DefaultRatio
      else DefaultRatio
    else
      ParseRatio(attribute.value).GetOr(DefaultRatio)
  }

  /** Round trip: "n:d", written with the usual decimal renderings, parses back
      to exactly the ratio n / d. */
  lemma ParseRenderedRatio(n: nat, d: nat)
    ensures ParseRatio(Decimal(n) + ":" + Decimal(d)) == Some(Ratio(n, d))
  {
    ParseJoined(Decimal(n), Decimal(d));
    DecimalValueOfDecimal(n);
    DecimalValueOfDecimal(d);
  }

  /** Two digit runs joined by a colon parse to the first over the second. */
  lemma ParseJoined(left: string, right: string)
    requires IsDigitRun(left) && IsDigitRun(right)
    ensures ParseRatio(left + ":" + right) == Some(Ratio(DecimalValue(left), DecimalValue(right)))
  {
    var s := left + ":" + right;
    var i := |left|;
    assert s[..i] == left && s[i] == ':' && s[i + 1..] == right;
  }

  /** Accepted strings: a well-formed ratio, leading zeros, and a zero
      denominator (accepted: the division happens anyway). */
  lemma ParseSixteenToNine()
    ensures ParseRatio("16:9") == Some(Ratio(16, 9))
  {
    ParseJoined("16", "9");
    assert "16" + ":" + "9" == "16:9";
    assert DecimalValue("16") == 16 by { assert "16"[..1] == "1"; }
  }

  lemma ParseLeadingZeros()
    ensures ParseRatio("007:3") == Some(Ratio(7, 3))
  {
    ParseJoined("007", "3");
    assert "007" + ":" + "3" == "007:3";
    assert DecimalValue("007") == 7 by {
      assert "007"[..2] == "00";
      assert "00"[..1] == "0";
    }
  }

  lemma ParseZeroDenominator()
    ensures ParseRatio("16:0") == Some(Ratio(16, 0))
  {
    ParseJoined("16", "0");
    assert "16" + ":" + "0" == "16:0";
    assert DecimalValue("16") == 16 by { assert "16"[..1] == "1"; }
  }

  /** Rejected strings: no colon, another separator, and a second colon. */
  lemma ParseRejectExamples()
    ensures ParseRatio("abc") == None
    ensures ParseRatio("16-9") == None
    ensures ParseRatio("16:9:1") == None
  {
    var s := "16:9:1";
    forall i | 0 <= i < |s| && s[i] == ':' ensures !(IsDigitRun(s[..i]) && IsDigitRun(s[i + 1..])) {
      if i == 2 {
        assert s[i + 1..][1] == ':';
      } else {
        assert s[..i][2] == ':';
      }
    }
  }
}
