/** The desktop client's value converters: the two three-band colour
    classifications, the progress-bar width and the middle ellipsis. A
    binding value that is not a double is `None`. */
module Converters {
  import opened Common
  import opened Numbers

  /** The three brushes: green, yellow, red. */
  datatype Band = Green | Yellow | Red
  {
    function Rank(): nat
    {
      match this
      case Green => 0
      case Yellow => 1
      case Red => 2
    }
  }

  /** The shared threshold chain: below 50 green, below 80 yellow, else red
      (so NaN, failing both tests, is red). */
  function Classify(x: Double): Band
  {
    if LtR(x, 50.0) then Green else if LtR(x, 80.0) then Yellow else Red
  }

  /** `MetricValueColorConverter.Convert`. */
  function MetricValueColor(value: Option<Double>): Band
  {
    match value
    case None => Green
    case Some(d) => Classify(d)
  }

  /** `MemoryPercentageColorConverter.Convert`: the ratio of the first two
      values, as a percentage, classified; green when they are missing or
      the maximum is not positive. */
  function MemoryPercentageColor(values: seq<Option<Double>>): Band
  {
    if |values| < 2 || values[0].None? || values[1].None? then Green
    else
      var current := values[0].value;
      var maximum := values[1].value;
      if LeR(maximum, 0.0) then Green
      else Classify(Mul(Div(current, maximum), Finite(100.0)))
  }

  /** `ProgressWidthConverter.Convert`: totalWidth times value/max clamped
      to [0, 1], with a non-positive max read as 100; 0 when a value is
      missing or not a double. */
  function ProgressWidth(values: seq<Option<Double>>): Double
  {
    if |values| < 3 || values[0].None? || values[1].None? || values[2].None? then Finite(0.0)
    else
      var value := values[0].value;
      var totalWidth := values[1].value;
      var maximum := values[2].value;
      var max := if Lt(Finite(0.0), maximum) then maximum else Finite(100.0);
      Mul(totalWidth, Clamp(Div(value, max), 0.0, 1.0))
  }

  /** A binding value as `MiddleEllipsisConverter` sees it. */
  datatype Boxed = Null | Text(s: string) | OtherObject

  /** C# integer division, which truncates toward zero. */
  function DivTrunc(a: int, b: int): int
    requires b > 0
  {
    if a >= 0 then a / b else -((-a) / b)
  }

  /** `MiddleEllipsisConverter.Convert`: keeps the start and the end of a
      text longer than the maximum (18 unless the parameter parses) around
      "...". `None` is the exception `Substring` throws when the maximum is
      below 3. */
  function MiddleEllipsis(value: Boxed, parameter: Option<string>): Option<Boxed>
  {
    if !value.Text? || value.s == [] then Some(if value.Null? then Text("") else value)
    else
      var text := value.s;
      var maxLength := if parameter.Some? && ParseInt32(parameter.value).Some? then ParseInt32(parameter.value).value else 18;
      if |text| <= maxLength then Some(value)
      else
        var keepLength := maxLength - 3;
        var startLen := DivTrunc(keepLength, 2);
        var endLen := keepLength - startLen;
        if startLen < 0 || endLen < 0 || endLen > |text| then None
        else Some(Text(text[..startLen] + "..." + text[|text| - endLen..]))
  }

  // ---------------------------------------------------------------------
  // Properties

  /** The metric bands for finite values, and NaN and non-doubles. */
  lemma MetricValueBands(x: real)
    ensures MetricValueColor(Some(Finite(x))) == Green <==> x < 50.0
    ensures MetricValueColor(Some(Finite(x))) == Yellow <==> 50.0 <= x < 80.0
    ensures MetricValueColor(Some(Finite(x))) == Red <==> x >= 80.0
    ensures MetricValueColor(None) == Green && MetricValueColor(Some(NaN)) == Red
  {
  }

  /** A larger value never gets a lower band. */
  lemma ClassifyMonotone(a: Double, b: Double)
    requires Le(a, b)
    ensures Classify(a).Rank() <= Classify(b).Rank()
  {
  }

  /** For finite values and a positive maximum the band follows
      current/max * 100. */
  lemma MemoryPercentageBands(current: real, maximum: real)
    requires maximum > 0.0
    ensures var p := current / maximum * 100.0;
      var band := MemoryPercentageColor([Some(Finite(current)), Some(Finite(maximum))]);
      (band == Green <==> p < 50.0) && (band == Yellow <==> 50.0 <= p < 80.0) && (band == Red <==> p >= 80.0)
  {
  }

  /** Too few values, a missing double or a non-positive maximum are green. */
  lemma MemoryPercentageGuards(values: seq<Option<Double>>)
    requires |values| < 2 || values[0].None? || values[1].None? || LeR(values[1].value, 0.0)
    ensures MemoryPercentageColor(values) == Green
  {
  }

  /** The filled share of the bar: value over the maximum (100 when the
      maximum is not positive), clamped to [0, 1]. */
  function Fill(value: real, maximum: real): (c: real)
    ensures 0.0 <= c <= 1.0
  {
    ClampReal(value / (if maximum > 0.0 then maximum else 100.0), 0.0, 1.0)
  }

  /** With finite inputs and a non-negative width the bar is that share of
      the width, so it fits the width. */
  lemma ProgressWidthBounded(value: real, totalWidth: real, maximum: real)
    requires totalWidth >= 0.0
    ensures var r := ProgressWidth([Some(Finite(value)), Some(Finite(totalWidth)), Some(Finite(maximum))]);
      r == Finite(totalWidth * Fill(value, maximum)) && 0.0 <= r.value <= totalWidth
  {
    var max := if maximum > 0.0 then maximum else 100.0;
    var c := Fill(value, maximum);
    var vs := [Some(Finite(value)), Some(Finite(totalWidth)), Some(Finite(maximum))];
    var m := if Lt(Finite(0.0), Finite(maximum)) then Finite(maximum) else Finite(100.0);
    assert m == Finite(max);
    var q := Div(Finite(value), m);
    assert q == Finite(value / max);
    assert Clamp(q, 0.0, 1.0) == Finite(c);
    var w := totalWidth * c;
    assert Mul(Finite(totalWidth), Finite(c)) == Finite(w);
    assert ProgressWidth(vs) == Finite(w);
    ScaleWithin(totalWidth, c);
  }

  lemma ScaleWithin(w: real, c: real)
    requires w >= 0.0 && 0.0 <= c <= 1.0
    ensures 0.0 <= w * c <= w
  {
    assert w * (1.0 - c) >= 0.0;
  }

  /** Missing or non-double values give 0. */
  lemma ProgressWidthGuards(values: seq<Option<Double>>)
    requires |values| < 3 || values[0].None? || values[1].None? || values[2].None?
    ensures ProgressWidth(values) == Finite(0.0)
  {
  }

  /** Text within the maximum is unchanged; a longer text becomes exactly
      maximum characters: the first ⌊(max-3)/2⌋, "...", and the last rest. */
  lemma MiddleEllipsisShape(text: string, maxLength: int)
    requires text != [] && 3 <= maxLength <= Int32Max
    ensures var param := Some(IntText(maxLength));
      var r := MiddleEllipsis(Text(text), param);
      && r.Some? && r.value.Text?
      && (|text| <= maxLength ==> r.value.s == text)
      && (|text| > maxLength ==>
            var startLen := (maxLength - 3) / 2;
            && |r.value.s| == maxLength
            && r.value.s[..startLen] == text[..startLen]
            && r.value.s[startLen..startLen + 3] == "..."
            && r.value.s[startLen + 3..] == text[|text| - (maxLength - 3 - startLen)..])
  {
    ParseIntText(maxLength);
    if |text| > maxLength {
      var startLen := (maxLength - 3) / 2;
      var endLen := maxLength - 3 - startLen;
      assert DivTrunc(maxLength - 3, 2) == startLen;
      var s := text[..startLen] + "..." + text[|text| - endLen..];
      assert MiddleEllipsis(Text(text), Some(IntText(maxLength))) == Some(Text(s));
      EllipsisParts(text[..startLen], text[|text| - endLen..]);
    }
  }

  lemma EllipsisParts(a: string, b: string)
    ensures var s := a + "..." + b;
      && |s| == |a| + 3 + |b|
      && s[..|a|] == a && s[|a|..|a| + 3] == "..." && s[|a| + 3..] == b
  {
    var s := a + "..." + b;
    assert s == a + ("..." + b);
  }

  /** The default maximum is 18 when no parameter is given. */
  lemma MiddleEllipsisDefault(text: string)
    requires |text| > 18
    ensures var r := MiddleEllipsis(Text(text), None);
      r.Some? && r.value == Text(text[..7] + "..." + text[|text| - 8..])
  {
  }

  /** Non-text values pass through, null becoming the empty string. */
  lemma MiddleEllipsisPassThrough(parameter: Option<string>)
    ensures MiddleEllipsis(Null, parameter) == Some(Text(""))
    ensures MiddleEllipsis(OtherObject, parameter) == Some(OtherObject)
    ensures MiddleEllipsis(Text(""), parameter) == Some(Text(""))
  {
  }

  /** A maximum below 3 makes a longer text throw. */
  lemma MiddleEllipsisSmallMaxThrows(text: string, maxLength: int)
    requires maxLength < 3 && |text| > maxLength && text != []
    requires InInt32(maxLength)
    ensures MiddleEllipsis(Text(text), Some(IntText(maxLength))).None?
  {
    ParseIntText(maxLength);
  }

  // ---------------------------------------------------------------------
  // Decimal text of an int, to state the parameter round trip

  function DigitText(n: nat): (s: string)
    ensures s != [] && AllDigits(s)
  {
    if n < 10 then [('0' as int + n) as char] else DigitText(n / 10) + [('0' as int + n % 10) as char]
  }

  function IntText(n: int): string
  {
    if n < 0 then "-" + DigitText(-n) else DigitText(n)
  }

  lemma {:induction false} DigitTextValue(n: nat)
    ensures DigitsValue(DigitText(n)) == n
  {
    var s := DigitText(n);
    if n >= 10 {
      DigitTextValue(n / 10);
      assert s[..|s| - 1] == DigitText(n / 10);
    }
  }

  /** `int.TryParse` reads back the decimal text of any 32-bit integer. */
  lemma ParseIntText(n: int)
    requires InInt32(n)
    ensures ParseInt32(IntText(n)) == Some(n)
  {
    var t := IntText(n);
    var d := if n < 0 then DigitText(-n) else DigitText(n);
    DigitTextValue(if n < 0 then -n else n);
    assert TrimNumberWhite(t) == t;
    if n < 0 {
      assert t[1..] == d;
    }
  }
}
