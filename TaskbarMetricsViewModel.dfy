/** The text and number helpers of the taskbar metrics strip and the way it
    reconciles its column collection with a freshly built layout. The
    strip shows one column per metric ("C 12%", "↑ 1.5 MB/s", ...), either
    side by side or stacked upright when docked to a screen side. */
module TaskbarMetricsViewModel {
  import opened Common
  import opened Numbers
  import opened ObservableCollectionExtensions

  // ---------------------------------------------------------------------
  // Inline and vertical text

  /** A string with no white space at either end. */
  predicate IsTrimmed(s: string)
  {
    s == [] || (!IsWhiteSpace(s[0]) && !IsWhiteSpace(s[|s| - 1]))
  }

  /** `NormalizeInlineText`: a null text is empty, anything else is trimmed. */
  function NormalizeInlineText(text: Option<string>): (r: string)
    ensures text.None? ==> r == []
    ensures IsTrimmed(r)
  {
    match text
    case None => []
    case Some(s) =>
      TrimEndKeepsStart(TrimStart(s));
      Trim(s)
  }

  /** Trimming a string without white space at its ends changes nothing. */
  lemma TrimOfTrimmed(s: string)
    requires IsTrimmed(s)
    ensures Trim(s) == s
  {
    TrimStartOfTrimmedEnd(s);
  }

  /** Normalising normalised text is a no-op. */
  lemma NormalizeInlineTextIdempotent(text: Option<string>)
    ensures NormalizeInlineText(Some(NormalizeInlineText(text))) == NormalizeInlineText(text)
  {
    TrimOfTrimmed(NormalizeInlineText(text));
  }

  /** The characters of s other than ' ' (`Replace(" ", "")`). */
  function WithoutSpaces(s: string): (r: string)
    ensures |r| <= |s|
    ensures forall i :: 0 <= i < |r| ==> r[i] != ' '
  {
    if s == [] then []
    else KeepIfNotSpace(s[0]) + WithoutSpaces(s[1..])
  }

  function KeepIfNotSpace(c: char): string
  {
    if c == ' ' then [] else [c]
  }

  lemma {:induction false} WithoutSpacesOfConcat(a: string, b: string)
    ensures WithoutSpaces(a + b) == WithoutSpaces(a) + WithoutSpaces(b)
  {
    if a != [] {
      var ab := a + b;
      assert ab[0] == a[0] && ab[1..] == a[1..] + b;
      WithoutSpacesOfConcat(a[1..], b);
      assert WithoutSpaces(ab) == KeepIfNotSpace(a[0]) + WithoutSpaces(ab[1..]);
      assert WithoutSpaces(a) == KeepIfNotSpace(a[0]) + WithoutSpaces(a[1..]);
      AppendAssociative(KeepIfNotSpace(a[0]), WithoutSpaces(a[1..]), WithoutSpaces(b));
    } else {
      assert a + b == b;
    }
  }

  lemma {:induction false} WithoutSpacesOfSpaceless(s: string)
    requires forall i :: 0 <= i < |s| ==> s[i] != ' '
    ensures WithoutSpaces(s) == s
  {
    if s != [] {
      WithoutSpacesOfSpaceless(s[1..]);
    }
  }

  /** `EndsWith("/s", StringComparison.OrdinalIgnoreCase)`. */
  predicate EndsWithPerSecond(s: string)
  {
    |s| >= 2 && s[|s| - 2] == '/' && LowerChar(s[|s| - 1]) == 's'
  }

  /** `NormalizeVerticalValue`: drop every space, then one trailing "/s"
      in any case, so that "1.5 MB/s" stacks as "1.5MB". */
  function NormalizeVerticalValue(text: string): (r: string)
    ensures forall i :: 0 <= i < |r| ==> r[i] != ' '
    ensures |r| <= |WithoutSpaces(text)| && r == WithoutSpaces(text)[..|r|]
    ensures EndsWithPerSecond(WithoutSpaces(text)) <==> |r| + 2 == |WithoutSpaces(text)|
    ensures !EndsWithPerSecond(WithoutSpaces(text)) ==> r == WithoutSpaces(text)
  {
    if text == [] then []
    else
      var w := WithoutSpaces(text);
      if EndsWithPerSecond(w) then w[..|w| - 2] else w
  }

  /** Removing the spaces of "a rest", both parts space-free, gives "arest". */
  lemma WithoutSpacesAroundOne(a: string, rest: string)
    requires forall i :: 0 <= i < |a| ==> a[i] != ' '
    requires forall i :: 0 <= i < |rest| ==> rest[i] != ' '
    ensures WithoutSpaces(a + ([' '] + rest)) == a + rest
  {
    WithoutSpacesOfSpaceless(rest);
    var spaced := [' '] + rest;
    assert spaced[0] == ' ' && spaced[1..] == rest;
    assert WithoutSpaces(spaced) == KeepIfNotSpace(' ') + WithoutSpaces(rest);
    assert WithoutSpaces(spaced) == rest;
    WithoutSpacesOfConcat(a, spaced);
    WithoutSpacesOfSpaceless(a);
  }

  /** A rate written with spaces loses them and its "/s" suffix: the
      value "a b/s" becomes "ab" for any space-free a and b. */
  lemma VerticalValueOfRate(a: string, b: string, s: char)
    requires forall i :: 0 <= i < |a| ==> a[i] != ' '
    requires forall i :: 0 <= i < |b| ==> b[i] != ' '
    requires s == 's' || s == 'S'
    ensures NormalizeVerticalValue(a + " " + b + ['/', s]) == a + b
  {
    var rest := b + ['/', s];
    assert forall i :: 0 <= i < |rest| ==> rest[i] != ' ' by {
      forall i | 0 <= i < |rest| ensures rest[i] != ' ' {
        if i < |b| { assert rest[i] == b[i]; }
      }
    }
    WithoutSpacesAroundOne(a, rest);
    var text := a + " " + b + ['/', s];
    assert text == a + ([' '] + rest);
    var w := a + rest;
    assert w == (a + b) + ['/', s];
    assert w[..|w| - 2] == a + b;
  }

  /** The characters of s other than CR and LF. */
  function WithoutLineBreaks(s: string): (r: string)
    ensures |r| <= |s|
    ensures forall i :: 0 <= i < |r| ==> r[i] != '\r' && r[i] != '\n'
  {
    if s == [] then []
    else (if s[0] == '\r' || s[0] == '\n' then [] else [s[0]]) + WithoutLineBreaks(s[1..])
  }

  /** `string.Join("\n", chars)` over one-character strings. */
  function JoinLines(cs: string): (r: string)
    ensures cs == [] ==> r == []
    ensures cs != [] ==> |r| == 2 * |cs| - 1
  {
    if |cs| <= 1 then cs else [cs[0], '\n'] + JoinLines(cs[1..])
  }

  /** The characters at the even positions of s. */
  function EvenPositions(s: string): (r: string)
  {
    if |s| <= 1 then s else [s[0]] + EvenPositions(s[2..])
  }

  /** Reading the even positions of the joined text gives the characters back. */
  lemma {:induction false} JoinLinesRoundTrip(cs: string)
    ensures EvenPositions(JoinLines(cs)) == cs
  {
    if |cs| > 1 {
      JoinLinesRoundTrip(cs[1..]);
      var r := JoinLines(cs);
      assert r == [cs[0], '\n'] + JoinLines(cs[1..]);
      assert r[2..] == JoinLines(cs[1..]);
      assert EvenPositions(r) == [cs[0]] + EvenPositions(r[2..]);
    }
  }

  /** The joined text alternates the characters with line feeds. */
  lemma {:induction false} JoinLinesAlternates(cs: string)
    ensures forall k :: 0 <= k < |cs| ==> JoinLines(cs)[2 * k] == cs[k]
    ensures forall k :: 0 <= k < |cs| - 1 ==> JoinLines(cs)[2 * k + 1] == '\n'
  {
    if |cs| > 1 {
      JoinLinesAlternates(cs[1..]);
      var r := JoinLines(cs);
      var tail := JoinLines(cs[1..]);
      assert r == [cs[0], '\n'] + tail;
      forall k | 1 <= k < |cs|
        ensures r[2 * k] == cs[k]
      {
        assert r[2 * k] == tail[2 * (k - 1)];
      }
      forall k | 1 <= k < |cs| - 1
        ensures r[2 * k + 1] == '\n'
      {
        assert r[2 * k + 1] == tail[2 * (k - 1) + 1];
      }
    }
  }

  /** `BuildDisplayText`: inline text is normalised; upright text is also
      stripped of spaces and "/s", and when it has more than one character
      (CR and LF aside) it is stacked one character per line. */
  function BuildDisplayText(text: Option<string>, verticalUpright: bool): (r: string)
    ensures !verticalUpright ==> r == NormalizeInlineText(text)
    ensures verticalUpright ==>
      var v := NormalizeVerticalValue(NormalizeInlineText(text));
      (|WithoutLineBreaks(v)| <= 1 && r == v) ||
      (|WithoutLineBreaks(v)| > 1 && |r| == 2 * |WithoutLineBreaks(v)| - 1 && EvenPositions(r) == WithoutLineBreaks(v) &&
       forall k :: 0 <= k < |WithoutLineBreaks(v)| - 1 ==> r[2 * k + 1] == '\n')
  {
    var inline := NormalizeInlineText(text);
    var normalized := if verticalUpright then NormalizeVerticalValue(inline) else inline;
    if !verticalUpright || |normalized| <= 1 then normalized
    else
      var chars := WithoutLineBreaks(normalized);
      if |chars| <= 1 then normalized
      else
        JoinLinesRoundTrip(chars);
        JoinLinesAlternates(chars);
        JoinLines(chars)
  }

  /** `BuildInlineLabelWithUnit`: "label unit", or whichever of the two is
      not empty after normalisation. */
  function BuildInlineLabelWithUnit(caption: Option<string>, unit: Option<string>): (r: string)
    ensures NormalizeInlineText(unit) == [] ==> r == NormalizeInlineText(caption)
    ensures NormalizeInlineText(unit) != [] && NormalizeInlineText(caption) == [] ==> r == NormalizeInlineText(unit)
    ensures NormalizeInlineText(unit) != [] && NormalizeInlineText(caption) != [] ==>
      r == NormalizeInlineText(caption) + " " + NormalizeInlineText(unit)
  {
    var l := NormalizeInlineText(caption);
    var u := NormalizeInlineText(unit);
    if u == [] then l
    else if l == [] then u
    else l + " " + u
  }

  /** The combined label is itself normal text: normalising it again
      changes nothing. */
  lemma InlineLabelIsNormal(caption: Option<string>, unit: Option<string>)
    ensures NormalizeInlineText(Some(BuildInlineLabelWithUnit(caption, unit))) == BuildInlineLabelWithUnit(caption, unit)
  {
    var r := BuildInlineLabelWithUnit(caption, unit);
    var l := NormalizeInlineText(caption);
    var u := NormalizeInlineText(unit);
    if l != [] && u != [] {
      JoinedIsTrimmed(l, u);
    }
    TrimOfTrimmed(r);
  }

  lemma JoinedIsTrimmed(l: string, u: string)
    requires l != [] && u != [] && IsTrimmed(l) && IsTrimmed(u)
    ensures IsTrimmed(l + " " + u)
  {
    var r := l + " " + u;
    assert r[0] == l[0];
    assert r[|r| - 1] == u[|u| - 1];
  }

  /** A non-empty label and unit are the first and last words of the
      combined text. */
  lemma InlineLabelWords(caption: Option<string>, unit: Option<string>)
    requires NormalizeInlineText(caption) != [] && NormalizeInlineText(unit) != []
    ensures StartsWith(BuildInlineLabelWithUnit(caption, unit), NormalizeInlineText(caption) + " ")
    ensures EndsWith(BuildInlineLabelWithUnit(caption, unit), " " + NormalizeInlineText(unit))
  {
    JoinedWords(NormalizeInlineText(caption), NormalizeInlineText(unit));
  }

  lemma JoinedWords(l: string, u: string)
    ensures StartsWith(l + " " + u, l + " ") && EndsWith(l + " " + u, " " + u)
  {
    var r := l + " " + u;
    assert r[..|l| + 1] == l + " ";
    assert r == l + (" " + u);
    assert r[|r| - |" " + u|..] == " " + u;
  }

  // ---------------------------------------------------------------------
  // The numeric prefix `^([+-]?\d+(?:\.\d+)?)(.*)$`

  /** The number of ASCII digits in a row from position i. */
  function DigitRun(s: string, i: nat): (n: nat)
    requires i <= |s|
    ensures i + n <= |s|
    ensures forall k :: i <= k < i + n ==> IsDigit(s[k])
    ensures i + n < |s| ==> !IsDigit(s[i + n])
    decreases |s| - i
  {
    if i < |s| && IsDigit(s[i]) then 1 + DigitRun(s, i + 1) else 0
  }

  function SignLength(s: string): (n: nat)
    ensures n <= |s|
  {
    if |s| > 0 && (s[0] == '+' || s[0] == '-') then 1 else 0
  }

  /** The length of the prefix the greedy `[+-]?\d+(?:\.\d+)?` takes, or 0
      when it matches nothing. */
  function NumberPrefixLength(s: string): (n: nat)
    ensures n <= |s|
  {
    var sl := SignLength(s);
    var d := DigitRun(s, sl);
    if d == 0 then 0
    else
      var after := sl + d;
      if after < |s| && s[after] == '.' && DigitRun(s, after + 1) > 0 then after + 1 + DigitRun(s, after + 1)
      else after
  }

  predicate IsDigits(t: string) { |t| > 0 && AllDigits(t) }

  /** `\d+(?:\.\d+)?` as a set of strings. */
  predicate IsUnsignedNumber(t: string)
  {
    IsDigits(t) || exists i :: 0 < i < |t| && t[i] == '.' && IsDigits(t[..i]) && IsDigits(t[i + 1..])
  }

  /** `[+-]?\d+(?:\.\d+)?` as a set of strings. */
  predicate IsNumberLiteral(t: string)
  {
    IsUnsignedNumber(t) || (|t| > 0 && (t[0] == '+' || t[0] == '-') && IsUnsignedNumber(t[1..]))
  }

  lemma {:induction false} DigitRunCovers(s: string, i: nat, j: nat)
    requires i <= j <= |s| && forall k :: i <= k < j ==> IsDigit(s[k])
    ensures DigitRun(s, i) >= j - i
    decreases j - i
  {
    if i < j {
      DigitRunCovers(s, i + 1, j);
    }
  }

  /** A run of digits cut out of s is a digit string. */
  lemma DigitSlice(s: string, i: nat, n: nat)
    requires i + n <= |s| && n > 0
    requires forall k :: i <= k < i + n ==> IsDigit(s[k])
    ensures IsDigits(s[i..i + n])
  {
    var t := s[i..i + n];
    forall k | 0 <= k < |t| ensures IsDigit(t[k]) {
      assert t[k] == s[i + k];
    }
  }

  /** Digits, a point and digits form an unsigned number. */
  lemma PointedNumber(body: string, d: nat)
    requires d < |body| && body[d] == '.'
    requires IsDigits(body[..d]) && IsDigits(body[d + 1..])
    ensures IsUnsignedNumber(body)
  {
  }

  /** The greedy prefix is a number literal. */
  lemma NumberPrefixIsLiteral(s: string)
    requires NumberPrefixLength(s) > 0
    ensures IsNumberLiteral(s[..NumberPrefixLength(s)])
  {
    var n := NumberPrefixLength(s);
    var sl := SignLength(s);
    var d := DigitRun(s, sl);
    var t := s[..n];
    var body := s[sl..n];
    DigitSlice(s, sl, d);
    if n == sl + d {
      assert IsUnsignedNumber(body);
    } else {
      var e := DigitRun(s, sl + d + 1);
      assert n == sl + d + 1 + e;
      DigitSlice(s, sl + d + 1, e);
      assert body[..d] == s[sl..sl + d];
      assert body[d + 1..] == s[sl + d + 1..n];
      PointedNumber(body, d);
    }
    if sl == 1 {
      assert t[1..] == body;
    } else {
      assert t == body;
    }
  }

  /** An unsigned number starts with a digit. */
  lemma UnsignedStartsWithDigit(t: string)
    requires IsUnsignedNumber(t)
    ensures |t| > 0 && IsDigit(t[0])
  {
    if !IsDigits(t) {
      var i :| 0 < i < |t| && t[i] == '.' && IsDigits(t[..i]) && IsDigits(t[i + 1..]);
      assert t[..i][0] == t[0];
    }
  }

  /** A literal prefix of s, less its sign, is an unsigned number. */
  lemma LiteralPrefixBody(s: string, k: nat)
    requires 0 < k <= |s| && IsNumberLiteral(s[..k])
    ensures SignLength(s) < k && IsUnsignedNumber(s[SignLength(s)..k])
  {
    var t := s[..k];
    assert t[0] == s[0];
    if IsUnsignedNumber(t) {
      UnsignedStartsWithDigit(t);
      assert t == s[0..k];
    } else {
      assert t[1..] == s[1..k];
    }
  }

  /** No number literal is a longer prefix of s than the greedy one; when
      the greedy match is empty, no prefix is a number at all. */
  lemma NumberPrefixIsLongest(s: string, k: nat)
    requires NumberPrefixLength(s) < k <= |s|
    ensures !IsNumberLiteral(s[..k])
  {
    if IsNumberLiteral(s[..k]) {
      LiteralPrefixBody(s, k);
      var sl := SignLength(s);
      var body := s[sl..k];
      if IsDigits(body) {
        DigitsBodyCovered(s, sl, k);
      } else {
        var i :| 0 < i < |body| && body[i] == '.' && IsDigits(body[..i]) && IsDigits(body[i + 1..]);
        FractionBodyCovered(s, sl, k, i);
      }
    }
  }

  /** A prefix made of a sign and digits only is covered by the greedy match. */
  lemma DigitsBodyCovered(s: string, sl: nat, k: nat)
    requires sl == SignLength(s) < k <= |s| && IsDigits(s[sl..k])
    ensures NumberPrefixLength(s) >= k
  {
    var body := s[sl..k];
    forall j | sl <= j < k
      ensures IsDigit(s[j])
    {
      assert s[j] == body[j - sl];
    }
    DigitRunCovers(s, sl, k);
  }

  /** A prefix with a fraction, its '.' at sl + i, is covered by the greedy match. */
  lemma FractionBodyCovered(s: string, sl: nat, k: nat, i: nat)
    requires sl == SignLength(s) && 0 < i && sl + i + 1 < k <= |s|
    requires s[sl + i] == '.' && IsDigits(s[sl..k][..i]) && IsDigits(s[sl..k][i + 1..])
    ensures NumberPrefixLength(s) >= k
  {
    var body := s[sl..k];
    forall j | sl <= j < sl + i
      ensures IsDigit(s[j])
    {
      assert s[j] == body[..i][j - sl];
    }
    forall j | sl + i + 1 <= j < k
      ensures IsDigit(s[j])
    {
      assert s[j] == body[i + 1..][j - sl - i - 1];
    }
    DigitRunCovers(s, sl, sl + i);
    assert DigitRun(s, sl) == i;
    DigitRunCovers(s, sl + i + 1, k);
  }

  /** The greedy prefix is at least as long as every number literal that
      starts s: together with `NumberPrefixIsLongest`, it is the longest. */
  lemma NumberPrefixCoversLiterals(s: string, k: nat)
    requires 0 < k <= |s| && IsNumberLiteral(s[..k])
    ensures NumberPrefixLength(s) >= k
  {
    if NumberPrefixLength(s) < k {
      NumberPrefixIsLongest(s, k);
    }
  }

  predicate NoNewline(s: string) { forall i :: 0 <= i < |s| ==> s[i] != '\n' }

  /** The two groups of a successful match. */
  datatype NumericMatch = NumericMatch(number: string, suffix: string)

  /** `NumericPrefixRegex.Match(s)`. `.` does not match '\n' and `$` also
      matches just before a final '\n', so the match fails when the rest of
      the text holds a line feed anywhere else. */
  function MatchNumericPrefix(s: string): (r: Option<NumericMatch>)
    ensures r.Some? ==> IsNumberLiteral(r.value.number) && NoNewline(r.value.suffix)
    ensures r.Some? ==> s == r.value.number + r.value.suffix || s == r.value.number + r.value.suffix + "\n"
    ensures r.None? ==> NumberPrefixLength(s) == 0 || !NoNewline(s[NumberPrefixLength(s)..])
  {
    var n := NumberPrefixLength(s);
    if n == 0 then None
    else
      NumberPrefixIsLiteral(s);
      var rest := s[n..];
      if NoNewline(rest) then Some(NumericMatch(s[..n], rest))
      else if rest[|rest| - 1] == '\n' && NoNewline(rest[..|rest| - 1]) then
        assert s == s[..n] + rest[..|rest| - 1] + "\n";
        Some(NumericMatch(s[..n], rest[..|rest| - 1]))
      else None
  }

  /** `ExtractLeadingNumber`: the matched number, or the whole normalised
      text when it does not start with one. */
  function ExtractLeadingNumber(text: Option<string>): (r: string)
    ensures var t := NormalizeInlineText(text);
      (MatchNumericPrefix(t).Some? && r == MatchNumericPrefix(t).value.number && IsNumberLiteral(r) && StartsWith(t, r)) ||
      (MatchNumericPrefix(t).None? && r == t)
  {
    var normalized := NormalizeInlineText(text);
    if normalized == [] then normalized
    else
      match MatchNumericPrefix(normalized)
      case Some(m) =>
        assert normalized[..|m.number|] == m.number;
        m.number
      case None => normalized
  }

  /** The characters a unit token starts with (`char.IsLetter(ch) || ch == '%'`). */
  predicate IsUnitChar(c: char) { IsAsciiLetter(c) || c == '%' }

  /** `ExtractUnitToken`: the first letter or '%' after the number,
      upper-cased, or "" when there is no number or no such character. */
  function ExtractUnitToken(text: Option<string>): (r: string)
    ensures |r| <= 1
    ensures var t := NormalizeInlineText(text);
      if MatchNumericPrefix(t).Some? && FirstWhere(MatchNumericPrefix(t).value.suffix, IsUnitChar).Some?
      then r == [UpperChar(FirstWhere(MatchNumericPrefix(t).value.suffix, IsUnitChar).value)]
      else r == []
  {
    var normalized := NormalizeInlineText(text);
    if normalized == [] then []
    else
      match MatchNumericPrefix(normalized)
      case None => []
      case Some(m) =>
        if IsBlank(m.suffix) then
          BlankHasNoUnit(m.suffix);
          []
        else
          match FirstWhere(m.suffix, IsUnitChar)
          case Some(c) => [UpperChar(c)]
          case None => []
  }

  lemma BlankHasNoUnit(s: string)
    requires IsBlank(s)
    ensures FirstWhere(s, IsUnitChar).None?
  {
    FirstWhereIsFirst(s, IsUnitChar);
  }

  /** A value rendered as a number followed by its unit reads back as that
      number and the unit's first character, upper-cased. */
  lemma ValueWithUnitRoundTrip(number: string, unit: string)
    requires IsNumberLiteral(number)
    requires |unit| > 0 && IsUnitChar(unit[0]) && NoNewline(unit) && !IsWhiteSpace(unit[|unit| - 1])
    ensures ExtractLeadingNumber(Some(number + unit)) == number
    ensures ExtractUnitToken(Some(number + unit)) == [UpperChar(unit[0])]
  {
    var s := number + unit;
    assert number[0] == s[0];
    assert s[|s| - 1] == unit[|unit| - 1];
    LiteralCharacters(number);
    TrimOfTrimmed(s);
    assert NormalizeInlineText(Some(s)) == s;
    assert s[..|number|] == number;
    GreedyStopsAfter(s, |number|);
    assert s[|number|..] == unit;
    assert FirstWhere(unit, IsUnitChar) == Some(unit[0]);
  }

  /** When a number literal is followed by a character that cannot extend
      it, the greedy match ends exactly there. */
  lemma GreedyStopsAfter(s: string, n: nat)
    requires 0 < n < |s| && IsNumberLiteral(s[..n])
    requires !IsDigit(s[n]) && s[n] != '.'
    ensures NumberPrefixLength(s) == n
  {
    NumberPrefixCoversLiterals(s, n);
    var p := NumberPrefixLength(s);
    if p > n {
      NumberPrefixIsLiteral(s);
      NoLiteralPast(s, n, p);
    }
  }

  lemma NoLiteralPast(s: string, n: nat, p: nat)
    requires 0 < n < p <= |s| && !IsDigit(s[n]) && s[n] != '.'
    ensures !IsNumberLiteral(s[..p])
  {
    if IsNumberLiteral(s[..p]) {
      LiteralCharacters(s[..p]);
    }
  }

  /** A number literal is made of digits and '.', with a sign only in front. */
  lemma LiteralCharacters(t: string)
    requires IsNumberLiteral(t)
    ensures |t| > 0 && !IsWhiteSpace(t[0])
    ensures forall i :: 0 < i < |t| ==> IsDigit(t[i]) || t[i] == '.'
  {
    forall i | 0 < i < |t|
      ensures IsDigit(t[i]) || t[i] == '.'
    {
      var sl := if IsUnsignedNumber(t) then 0 else 1;
      var body := t[sl..];
      assert IsUnsignedNumber(body) by {
        if sl == 0 { assert body == t; }
      }
      if !IsDigits(body) {
        var j :| 0 < j < |body| && body[j] == '.' && IsDigits(body[..j]) && IsDigits(body[j + 1..]);
        if i - sl < j {
          assert body[..j][i - sl] == t[i];
        } else if i - sl > j {
          assert body[j + 1..][i - sl - j - 1] == t[i];
        }
      } else {
        assert body[i - sl] == t[i];
      }
    }
    if !IsUnsignedNumber(t) {
      assert t[0] == '+' || t[0] == '-';
    } else if IsDigits(t) {
      assert IsDigit(t[0]);
    } else {
      var j :| 0 < j < |t| && t[j] == '.' && IsDigits(t[..j]) && IsDigits(t[j + 1..]);
      assert t[..j][0] == t[0];
    }
  }

  // ---------------------------------------------------------------------
  // Numbers

  const HorizontalBaseGap: real := 12.0
  const VerticalBaseGap: real := 8.0
  const MaxColumnGap: int := 24

  /** `ResolveGap`: the configured gap clamped to [0, 24] when that is
      positive, else 8 between stacked rows and 12 between columns. */
  function ResolveGap(dockColumnGap: int, isVertical: bool): (r: real)
    ensures 0.0 < r <= MaxColumnGap as real
    ensures 0 < dockColumnGap <= MaxColumnGap ==> r == dockColumnGap as real
    ensures dockColumnGap > MaxColumnGap ==> r == MaxColumnGap as real
    ensures dockColumnGap <= 0 ==> r == (if isVertical then VerticalBaseGap else HorizontalBaseGap)
  {
    var configured := ClampInt(dockColumnGap, 0, MaxColumnGap);
    if configured > 0 then configured as real
    else if isVertical then VerticalBaseGap else HorizontalBaseGap
  }

  /** A gap already clamped by the settings resolves to the same spacing. */
  lemma ResolveGapOfClamped(dockColumnGap: int, isVertical: bool)
    ensures ResolveGap(ClampInt(dockColumnGap, 0, MaxColumnGap), isVertical) == ResolveGap(dockColumnGap, isVertical)
  {
  }

  /** `ClampPercent`: NaN and the infinities count as 0, anything else is
      clamped into [0, 100]. */
  function ClampPercent(percent: Double): (r: real)
    ensures 0.0 <= r <= 100.0
    ensures !percent.Finite? ==> r == 0.0
    ensures percent.Finite? && 0.0 <= percent.value <= 100.0 ==> r == percent.value
    ensures percent.Finite? && percent.value < 0.0 ==> r == 0.0
    ensures percent.Finite? && percent.value > 100.0 ==> r == 100.0
  {
    if percent.NaN? || percent.IsInfinity() then 0.0
    else ClampReal(percent.value, 0.0, 100.0)
  }

  /** A usable reading: finite and not negative. */
  predicate IsFiniteNonNegative(value: Double)
  {
    value.Finite? && value.value >= 0.0
  }

  /** `CalculateUsagePercent`: current / maximum as a percentage in
      [0, 100]; 0 for an unusable reading or a maximum that is not
      positive. */
  function CalculateUsagePercent(current: Double, maximum: Double): (r: real)
    ensures 0.0 <= r <= 100.0
    ensures !IsFiniteNonNegative(current) || !maximum.Finite? || maximum.value <= 0.0 ==> r == 0.0
    ensures IsFiniteNonNegative(current) && maximum.Finite? && 0.0 < maximum.value && current.value <= maximum.value ==>
      r == current.value / maximum.value * 100.0
    ensures IsFiniteNonNegative(current) && maximum.Finite? && 0.0 < maximum.value && current.value >= maximum.value ==>
      r == 100.0
  {
    if current.NaN? || current.IsInfinity() || current.value < 0.0 then 0.0
    else if maximum.NaN? || maximum.IsInfinity() || maximum.value <= 0.0 then 0.0
    else
      RatioBounds(current.value, maximum.value);
      ClampPercent(Finite(current.value / maximum.value * 100.0))
  }

  lemma RatioBounds(c: real, m: real)
    requires 0.0 <= c && 0.0 < m
    ensures 0.0 <= c / m
    ensures c <= m ==> c / m <= 1.0
    ensures c >= m ==> c / m >= 1.0
  {
    assert c / m * m == c;
  }

  lemma DivideMonotone(a: real, b: real, m: real)
    requires 0.0 <= a <= b && m > 0.0
    ensures a / m <= b / m
  {
  }

  /** More usage never shows as a smaller percentage. */
  lemma UsagePercentMonotone(a: Double, b: Double, maximum: Double)
    requires IsFiniteNonNegative(a) && IsFiniteNonNegative(b) && a.value <= b.value
    ensures CalculateUsagePercent(a, maximum) <= CalculateUsagePercent(b, maximum)
  {
    if maximum.Finite? && maximum.value > 0.0 {
      DivideMonotone(a.value, b.value, maximum.value);
    }
  }

  const BarTrackWidthHorizontal: int := 40
  const BarTrackHeightVertical: int := 32

  function TrackLength(isVertical: bool): int
  {
    if isVertical then BarTrackHeightVertical else BarTrackWidthHorizontal
  }

  /** `CalculateBarFillLength`: the filled share of the 32-pixel (upright)
      or 40-pixel (inline) track, rounded up, and never below one pixel
      when anything is in use. */
  function CalculateBarFillLength(percent: Double, isVertical: bool): (r: int)
    ensures 0 <= r <= TrackLength(isVertical)
    ensures ClampPercent(percent) == 0.0 <==> r == 0
    ensures ClampPercent(percent) == 100.0 ==> r == TrackLength(isVertical)
    ensures TrackLength(isVertical) as real * ClampPercent(percent) / 100.0 <= r as real
  {
    var trackLength := TrackLength(isVertical) as real;
    var clamped := ClampPercent(percent);
    var fill := trackLength * (clamped / 100.0);
    var fillLength := if clamped > 0.0 then MaxReal(1.0, fill) else fill;
    assert fill <= trackLength;
    Ceiling(fillLength)
  }

  /** A fuller bar is never drawn shorter. */
  lemma BarFillMonotone(p: Double, q: Double, isVertical: bool)
    requires ClampPercent(p) <= ClampPercent(q)
    ensures CalculateBarFillLength(p, isVertical) <= CalculateBarFillLength(q, isVertical)
  {
    var t := TrackLength(isVertical) as real;
    assert t * (ClampPercent(p) / 100.0) <= t * (ClampPercent(q) / 100.0);
  }

  // ---------------------------------------------------------------------
  // Columns

  /** The values a column shows; brushes are colour codes and margins four
      numbers. */
  datatype Thickness = Thickness(left: real, top: real, right: real, bottom: real)

  datatype ColumnFields = ColumnFields(
    labelText: string, valueText: string, labelBrush: int,
    width: real, height: real, labelMargin: Thickness,
    isVertical: bool, useBarVisual: bool, isBarMetric: bool,
    barTrackWidth: real, barTrackHeight: real, barFillLength: real,
    barDisplayText: string, barUnitText: string, barTextBrush: int,
    margin: Thickness)

  /** A `TaskbarMetricColumn`: a bindable object whose properties the
      strip rewrites in place. */
  class MetricColumn {
    var fields: ColumnFields

    constructor(fields: ColumnFields)
      ensures this.fields == fields
    {
      this.fields := fields;
    }
  }

  /** The removals of the columns at positions |xs| - 1 down to k, in that order. */
  function TailRemovals(xs: seq<MetricColumn>, k: nat): (r: seq<Change<MetricColumn>>)
    ensures |r| == if |xs| > k then |xs| - k else 0
    decreases |xs| - k
  {
    if k >= |xs| then [] else TailRemovals(xs, k + 1) + [Removed(xs[k], k)]
  }

  function Min(a: nat, b: nat): nat { if a <= b then a else b }

  /** `SyncColumns`: drop the columns past the desired count (last first),
      copy every desired column's values into the column already at its
      position, and append the desired columns that have no counterpart.
      Existing column objects are kept, so bindings to them stay live. */
  method SyncColumns(collection: ObservableCollection<MetricColumn>, desired: seq<MetricColumn>)
    requires NoDuplicates(collection.items)
    requires forall j :: 0 <= j < |desired| ==> desired[j] !in collection.items
    modifies collection, collection.items
    ensures |collection.items| == |desired|
    ensures forall i :: 0 <= i < |desired| ==> collection.items[i].fields == old(desired[i].fields)
    ensures forall i :: 0 <= i < |desired| ==>
      collection.items[i] == if i < |old(collection.items)| then old(collection.items[i]) else desired[i]
    ensures var m := Min(|old(collection.items)|, |desired|);
      collection.changes == old(collection.changes) + TailRemovals(old(collection.items), m) + Additions(desired[m..], m)
  {
    ghost var original := collection.items;
    var m := Min(|collection.items|, |desired|);
    RemoveTail(collection, |desired|);
    SyncKept(collection, desired, m);
    forall i | 0 <= i < |desired|
      ensures collection.items[i] == if i < |original| then original[i] else desired[i]
    {
      if i < m {
        assert collection.items[i] == original[..m][i];
      } else {
        assert collection.items[i] == desired[m..][i - m];
      }
    }
  }

  /** The first loop of `SyncColumns`: walk the positions from the last
      down, removing every column at a position the desired list does not
      reach. */
  method RemoveTail(collection: ObservableCollection<MetricColumn>, count: nat)
    modifies collection
    ensures collection.items == old(collection.items)[..Min(|old(collection.items)|, count)]
    ensures collection.changes == old(collection.changes) + TailRemovals(old(collection.items), Min(|old(collection.items)|, count))
  {
    ghost var original := collection.items;
    ghost var m := Min(|original|, count);
    var i := |collection.items| - 1;
    while i >= 0
      invariant -1 <= i < |original|
      invariant collection.items == original[..if i + 1 > m then i + 1 else m]
      invariant collection.changes == old(collection.changes) + TailRemovals(original, if i + 1 > m then i + 1 else m)
      decreases i + 1
    {
      if i >= count {
        collection.RemoveAt(i);
        assert original[..i + 1][..i] == original[..i];
      }
      i := i - 1;
    }
  }

  /** The second loop of `SyncColumns`, on a collection that holds the
      first m original columns, m being the smaller of the two counts. The
      loop overwrites the column at every position below m and appends the
      desired column at every position from m on; the two phases are the
      two loops here. */
  method SyncKept(collection: ObservableCollection<MetricColumn>, desired: seq<MetricColumn>, m: nat)
    requires |collection.items| == m && m <= |desired|
    requires NoDuplicates(collection.items)
    requires forall j :: 0 <= j < |desired| ==> desired[j] !in collection.items
    modifies collection, collection.items
    ensures |collection.items| == |desired|
    ensures forall i :: 0 <= i < |desired| ==> collection.items[i].fields == old(desired[i].fields)
    ensures collection.items == old(collection.items) + desired[m..]
    ensures collection.changes == old(collection.changes) + Additions(desired[m..], m)
  {
    var kept := collection.items;
    CopyFields(kept, desired[..m]);
    AppendColumns(collection, desired, m);
    forall i | 0 <= i < |desired|
      ensures collection.items[i].fields == old(desired[i].fields)
    {
      if i < m {
        assert collection.items[i] == kept[i] && desired[..m][i] == desired[i];
      } else {
        assert collection.items[i] == desired[i];
      }
    }
  }

  /** The overwriting branch: each column takes the values of the desired
      column at its position. */
  method CopyFields(columns: seq<MetricColumn>, desired: seq<MetricColumn>)
    requires |columns| == |desired| && NoDuplicates(columns)
    requires forall j :: 0 <= j < |desired| ==> desired[j] !in columns
    modifies columns
    ensures forall i :: 0 <= i < |columns| ==> columns[i].fields == old(desired[i].fields)
  {
    for i := 0 to |columns|
      invariant forall k :: 0 <= k < i ==> columns[k].fields == desired[k].fields
      invariant forall j :: 0 <= j < |desired| ==> desired[j].fields == old(desired[j].fields)
    {
      columns[i].fields := desired[i].fields;
    }
  }

  /** Appends desired[m..] one column at a time. */
  method AppendColumns(collection: ObservableCollection<MetricColumn>, desired: seq<MetricColumn>, m: nat)
    requires |collection.items| == m <= |desired|
    modifies collection
    ensures collection.items == old(collection.items) + desired[m..]
    ensures collection.changes == old(collection.changes) + Additions(desired[m..], m)
  {
    var rest := desired[m..];
    for j := 0 to |rest|
      invariant collection.items == old(collection.items) + rest[..j]
      invariant collection.changes == old(collection.changes) + Additions(rest[..j], m)
    {
      AdditionsSnoc(rest[..j], rest[j], m);
      assert rest[..j + 1] == rest[..j] + [rest[j]];
      AppendAssociative(old(collection.items), rest[..j], [rest[j]]);
      AppendAssociative(old(collection.changes), Additions(rest[..j], m), [Added(rest[j], m + j)]);
      collection.Add(rest[j]);
    }
    assert rest[..|rest|] == rest;
  }
}
