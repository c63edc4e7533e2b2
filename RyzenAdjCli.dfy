/** `RyzenAdjCli`: reading the `ryzenadj -i` table, the watt-to-milliwatt
    argument conversion and the log preview of the tool's output. Running
    the executable and locating it are not modelled; `double.TryParse` is a
    parameter. */
module RyzenAdjCli {
  import opened Common
  import opened Numbers

  /** `RyzenAdjSnapshot`: the six power fields, in the tool's own units. */
  datatype Snapshot = Snapshot(
    stapmLimit: Double, stapmValue: Double,
    fastLimit: Double, fastValue: Double,
    slowLimit: Double, slowValue: Double)

  /** The snapshot a failed parse leaves behind. */
  const Unparsed: Snapshot := Snapshot(NaN, NaN, NaN, NaN, NaN, NaN)

  /** The outcome of `TryParseInfoOutput`. */
  datatype ParseOutcome = Parsed(snapshot: Snapshot) | Failed(error: string)

  /** `double.TryParse(text, NumberStyles.Float, CultureInfo.InvariantCulture)`. */
  type DoubleParser = string -> Option<Double>

  /** One row of the table: its name cell and its value. */
  datatype TableRow = TableRow(name: string, value: Double)

  /** `StringComparer.OrdinalIgnoreCase` compares names by their upper-case
      form. */
  function NameKey(name: string): (k: string)
    ensures |k| == |name| && forall i :: 0 <= i < |name| ==> k[i] == UpperChar(name[i])
  {
    seq(|name|, i requires 0 <= i < |name| => UpperChar(name[i]))
  }

  /** `StringReader.ReadLine`: lines end at '\r', '\n' or "\r\n". A CRLF gives
      one extra empty piece here, which no table row can be. */
  function Lines(output: string): seq<string>
  {
    Split(output, {'\r', '\n'})
  }

  /** The body of the line loop: a trimmed line starting with '|' and not a
      "|---" rule, with at least two non-empty cells and a number in the
      second. */
  function RowOf(line: string, parse: DoubleParser): Option<TableRow>
  {
    var trimmed := Trim(line);
    if !StartsWith(trimmed, "|") || StartsWith(trimmed, "|---") then None
    else
      var parts := SplitTrimmed(trimmed, {'|'});
      if |parts| < 2 then None
      else
        match parse(parts[1])
        case None => None
        case Some(v) => Some(TableRow(parts[0], v))
  }

  /** The row, if any, of every line. */
  function RowsOf(lines: seq<string>, parse: DoubleParser): (rows: seq<Option<TableRow>>)
    ensures |rows| == |lines|
  {
    if lines == [] then [] else RowsOf(lines[..|lines| - 1], parse) + [RowOf(lines[|lines| - 1], parse)]
  }

  /** The `values` dictionary after the given rows: each row sets its name,
      a later row replacing an earlier one. */
  function TableValues(rows: seq<Option<TableRow>>): map<string, Double>
  {
    if rows == [] then map[] else WithRow(TableValues(rows[..|rows| - 1]), rows[|rows| - 1])
  }

  /** One line's effect on the dictionary: a row sets its name key. */
  function WithRow(values: map<string, Double>, row: Option<TableRow>): map<string, Double>
  {
    match row
    case None => values
    case Some(r) => values[NameKey(r.name) := r.value]
  }

  /** The row is a table row for the name key k. */
  predicate Names(row: Option<TableRow>, k: string)
  {
    row.Some? && NameKey(row.value.name) == k
  }

  /** The value of the last row for key k, searching from the end. */
  function LastValue(rows: seq<Option<TableRow>>, k: string): Option<Double>
  {
    if rows == [] then None
    else if Names(rows[|rows| - 1], k) then Some(rows[|rows| - 1].value.value)
    else LastValue(rows[..|rows| - 1], k)
  }

  /** `TryGet`: present, ignoring case, and not NaN. */
  function TryGet(values: map<string, Double>, key: string): Option<Double>
  {
    if NameKey(key) in values && !values[NameKey(key)].NaN? then Some(values[NameKey(key)]) else None
  }

  const StapmLimitKey: string := "STAPM LIMIT"
  const StapmValueKey: string := "STAPM VALUE"
  const FastLimitKey: string := "PPT LIMIT FAST"
  const FastValueKey: string := "PPT VALUE FAST"
  const SlowLimitKey: string := "PPT LIMIT SLOW"
  const SlowValueKey: string := "PPT VALUE SLOW"

  /** The six fields read from a finished dictionary. */
  function SnapshotOf(values: map<string, Double>): ParseOutcome
  {
    var a := TryGet(values, StapmLimitKey);
    var b := TryGet(values, StapmValueKey);
    var c := TryGet(values, FastLimitKey);
    var d := TryGet(values, FastValueKey);
    var e := TryGet(values, SlowLimitKey);
    var f := TryGet(values, SlowValueKey);
    if a.None? || b.None? || c.None? || d.None? || e.None? || f.None? then Failed("Missing required keys in output table")
    else Parsed(Snapshot(a.value, b.value, c.value, d.value, e.value, f.value))
  }

  /** `TryParseInfoOutput` as a value. */
  function ParseInfo(output: string, parse: DoubleParser): ParseOutcome
  {
    if IsBlank(output) then Failed("Empty output")
    else SnapshotOf(TableValues(RowsOf(Lines(output), parse)))
  }

  /** `TryParseInfoOutput`: blank output fails at once; otherwise the line
      loop fills the dictionary, then the six keys are looked up. */
  method TryParseInfoOutput(output: string, parse: DoubleParser) returns (ok: bool, snapshot: Snapshot, error: string)
    ensures ok <==> ParseInfo(output, parse).Parsed?
    ensures snapshot == if ok then ParseInfo(output, parse).snapshot else Unparsed
    ensures error == if ok then "" else ParseInfo(output, parse).error
  {
    snapshot := Unparsed;
    error := "";
    if IsBlank(output) {
      error := "Empty output";
      return false, snapshot, error;
    }
    var values := ReadTable(Lines(output), parse);
    var outcome := SnapshotOf(values);
    if outcome.Failed? {
      error := outcome.error;
      return false, snapshot, error;
    }
    return true, outcome.snapshot, error;
  }

  /** The line loop of `TryParseInfoOutput`: every table row sets its name
      in the case-insensitive dictionary. */
  method ReadTable(lines: seq<string>, parse: DoubleParser) returns (values: map<string, Double>)
    ensures values == TableValues(RowsOf(lines, parse))
  {
    values := map[];
    var i := 0;
    while i < |lines|
      invariant 0 <= i <= |lines|
      invariant values == TableValues(RowsOf(lines[..i], parse))
    {
      TableValuesStep(lines, parse, i);
      var row := RowOf(lines[i], parse);
      if row.Some? {
        values := values[NameKey(row.value.name) := row.value.value];
      }
      i := i + 1;
    }
    assert lines[..|lines|] == lines;
  }

  // ---------------------------------------------------------------------
  // Properties of the table reading

  /** One more line updates the dictionary as the loop body does. */
  lemma TableValuesStep(lines: seq<string>, parse: DoubleParser, i: int)
    requires 0 <= i < |lines|
    ensures TableValues(RowsOf(lines[..i + 1], parse)) ==
      WithRow(TableValues(RowsOf(lines[..i], parse)), RowOf(lines[i], parse))
  {
    assert lines[..i + 1][..i] == lines[..i];
    var rows := RowsOf(lines[..i], parse);
    assert (rows + [RowOf(lines[i], parse)])[..|rows|] == rows;
  }

  /** The dictionary holds, for every name key, the value of the last row
      with that name (case-insensitively), and nothing else. */
  lemma {:induction false} TableValuesAreLastRows(rows: seq<Option<TableRow>>, k: string)
    ensures k in TableValues(rows) <==> LastValue(rows, k).Some?
    ensures k in TableValues(rows) ==> TableValues(rows)[k] == LastValue(rows, k).value
  {
    if rows != [] {
      TableValuesAreLastRows(rows[..|rows| - 1], k);
    }
  }

  /** The last-row search finds a row for k exactly when one exists, and
      no later row names k. */
  lemma {:induction false} LastValueFindsLastRow(rows: seq<Option<TableRow>>, k: string)
    ensures LastValue(rows, k).Some? <==> exists i :: 0 <= i < |rows| && Names(rows[i], k)
    ensures LastValue(rows, k).Some? ==>
      exists i :: 0 <= i < |rows| && Names(rows[i], k) && LastValue(rows, k).value == rows[i].value.value
        && forall j :: i < j < |rows| ==> !Names(rows[j], k)
  {
    if rows != [] {
      var init := rows[..|rows| - 1];
      var last := |rows| - 1;
      LastValueFindsLastRow(init, k);
      if !Names(rows[last], k) {
        if exists i :: 0 <= i < |rows| && Names(rows[i], k) {
          var i :| 0 <= i < |rows| && Names(rows[i], k);
          assert init[i] == rows[i];
        }
        if LastValue(init, k).Some? {
          var i :| 0 <= i < |init| && Names(init[i], k) && LastValue(init, k).value == init[i].value.value
            && forall j :: i < j < |init| ==> !Names(init[j], k);
          assert rows[i] == init[i];
          forall j | i < j < |rows|
            ensures !Names(rows[j], k)
          {
            if j < last {
              assert rows[j] == init[j];
            }
          }
        }
      }
    }
  }

  /** Lines that are not table rows are skipped: anything not starting with
      '|' once trimmed, and the "|---" rule. */
  lemma RowsSkipped(line: string, parse: DoubleParser)
    ensures !StartsWith(Trim(line), "|") ==> RowOf(line, parse).None?
    ensures StartsWith(Trim(line), "|---") ==> RowOf(line, parse).None?
  {
  }

  /** The last row for a key, ignoring case, when it holds a number that is
      not NaN. */
  function Found(rows: seq<Option<TableRow>>, key: string): Option<Double>
  {
    var v := LastValue(rows, NameKey(key));
    if v.Some? && !v.value.NaN? then v else None
  }

  /** Looking up a key in the dictionary is finding its last row. */
  lemma TryGetIsFound(rows: seq<Option<TableRow>>, key: string)
    ensures TryGet(TableValues(rows), key) == Found(rows, key)
  {
    TableValuesAreLastRows(rows, NameKey(key));
  }

  /** The lookups succeed exactly when the last row of each of the six keys
      holds a number that is not NaN, and the snapshot carries those
      numbers; otherwise the missing-keys message. */
  lemma SnapshotOfRows(rows: seq<Option<TableRow>>)
    ensures var r := SnapshotOf(TableValues(rows));
      && (r.Parsed? <==>
            Found(rows, StapmLimitKey).Some? && Found(rows, StapmValueKey).Some?
            && Found(rows, FastLimitKey).Some? && Found(rows, FastValueKey).Some?
            && Found(rows, SlowLimitKey).Some? && Found(rows, SlowValueKey).Some?)
      && (r.Parsed? ==> r.snapshot == Snapshot(
            Found(rows, StapmLimitKey).value, Found(rows, StapmValueKey).value,
            Found(rows, FastLimitKey).value, Found(rows, FastValueKey).value,
            Found(rows, SlowLimitKey).value, Found(rows, SlowValueKey).value))
      && (r.Failed? ==> r.error == "Missing required keys in output table")
  {
    TryGetIsFound(rows, StapmLimitKey);
    TryGetIsFound(rows, StapmValueKey);
    TryGetIsFound(rows, FastLimitKey);
    TryGetIsFound(rows, FastValueKey);
    TryGetIsFound(rows, SlowLimitKey);
    TryGetIsFound(rows, SlowValueKey);
  }

  /** Blank output fails with "Empty output"; otherwise the outcome is the
      lookup of the six keys in the rows of its lines. */
  lemma ParseInfoSpec(output: string, parse: DoubleParser)
    ensures IsBlank(output) ==> ParseInfo(output, parse) == Failed("Empty output")
    ensures !IsBlank(output) ==> ParseInfo(output, parse) == SnapshotOf(TableValues(RowsOf(Lines(output), parse)))
  {
  }

  // ---------------------------------------------------------------------
  // Arguments and log previews

  /** C# `int` arithmetic wraps modulo 2^32. */
  function Wrap32(x: int): (r: int)
    ensures InInt32(r)
    ensures InInt32(x) ==> r == x
  {
    (x - Int32Min) % 0x1_0000_0000 + Int32Min
  }

  /** `ConvertWattsToMilliwatts`: Math.Max(0, watts) * 1000 in `int`. */
  function ConvertWattsToMilliwatts(watts: int): int
    requires InInt32(watts)
  {
    Wrap32((if watts > 0 then watts else 0) * 1000)
  }

  /** Negative watts give 0; up to 2147483 W the result is exact; above it
      the product wraps. */
  lemma MilliwattsRange(watts: int)
    requires InInt32(watts)
    ensures watts <= 0 ==> ConvertWattsToMilliwatts(watts) == 0
    ensures 0 <= watts <= Int32Max / 1000 ==> ConvertWattsToMilliwatts(watts) == watts * 1000
    ensures watts == Int32Max / 1000 + 1 ==> ConvertWattsToMilliwatts(watts) < 0
  {
  }

  /** `value.Replace("\r\n", "\n")`, scanning left to right. */
  function ReplaceCrLf(s: string): string
  {
    if |s| >= 2 && s[0] == '\r' && s[1] == '\n' then "\n" + ReplaceCrLf(s[2..])
    else if s == [] then []
    else [s[0]] + ReplaceCrLf(s[1..])
  }

  /** Text without carriage returns is left alone. */
  lemma {:induction false} ReplaceWithoutCr(s: string)
    requires forall i :: 0 <= i < |s| ==> s[i] != '\r'
    ensures ReplaceCrLf(s) == s
  {
    if s != [] {
      ReplaceWithoutCr(s[1..]);
    }
  }

  /** Replacing distributes over a join unless a CRLF straddles it. */
  lemma {:induction false} ReplaceAppend(a: string, b: string)
    requires a == [] || b == [] || !(a[|a| - 1] == '\r' && b[0] == '\n')
    ensures ReplaceCrLf(a + b) == ReplaceCrLf(a) + ReplaceCrLf(b)
    decreases |a|, 1
  {
    if a == [] {
      assert a + b == b;
    } else if b == [] {
      assert a + b == a;
    } else if |a| == 1 && a[0] == '\r' {
      LoneCrAppend(a, b);
    } else {
      ReplaceAppendFront(a, b);
    }
  }

  /** The inductive step of `ReplaceAppend`: the front of a is replaced
      first, then the rest of a is joined with b. */
  lemma {:induction false} ReplaceAppendFront(a: string, b: string)
    requires |a| >= 2 || (a != [] && a[0] != '\r')
    requires b == [] || !(a[|a| - 1] == '\r' && b[0] == '\n')
    ensures ReplaceCrLf(a + b) == ReplaceCrLf(a) + ReplaceCrLf(b)
    decreases |a|, 0
  {
    var n := if |a| >= 2 && a[0] == '\r' && a[1] == '\n' then 2 else 1;
    UnfoldFront(a, b, n);
    var rest := a[n..];
    assert rest == [] || rest[|rest| - 1] == a[|a| - 1];
    ReplaceAppend(rest, b);
    AppendAssociative(ReplaceCrLf(a[..n]), ReplaceCrLf(rest), ReplaceCrLf(b));
  }

  /** A lone CR before text not starting with LF stays as it is. */
  lemma LoneCrAppend(a: string, b: string)
    requires a == "\r" && b != [] && b[0] != '\n'
    ensures ReplaceCrLf(a + b) == "\r" + ReplaceCrLf(b)
  {
    var ab := a + b;
    assert ab[0] == '\r' && ab[1] == b[0] && ab[1..] == b;
  }

  /** The first one or two characters of a + b are replaced as those of a,
      when a has more than a lone CR. */
  lemma UnfoldFront(a: string, b: string, n: int)
    requires |a| >= 2 || (a != [] && a[0] != '\r')
    requires n == if |a| >= 2 && a[0] == '\r' && a[1] == '\n' then 2 else 1
    ensures ReplaceCrLf(a + b) == ReplaceCrLf(a[..n]) + ReplaceCrLf(a[n..] + b)
    ensures ReplaceCrLf(a) == ReplaceCrLf(a[..n]) + ReplaceCrLf(a[n..])
  {
    var ab := a + b;
    assert ab[0] == a[0];
    assert |a| >= 2 ==> ab[1] == a[1];
    assert ab[n..] == a[n..] + b;
    if n == 2 {
      assert ReplaceCrLf(a[..2]) == "\n" by {
        assert a[..2][2..] == [];
      }
    } else {
      assert ReplaceCrLf(a[..1]) == [a[0]] by {
        assert a[..1][1..] == [];
      }
    }
  }

  /** Every CRLF separating two texts becomes LF. */
  lemma CrLfBecomesLf(a: string, b: string)
    ensures ReplaceCrLf(a + "\r\n" + b) == ReplaceCrLf(a) + "\n" + ReplaceCrLf(b)
  {
    var tail := "\r\n" + b;
    assert tail[0] == '\r' && tail[1] == '\n' && tail[2..] == b;
    ReplaceAppend(a, tail);
    AppendAssociative(a, "\r\n", b);
    AppendAssociative(ReplaceCrLf(a), "\n", ReplaceCrLf(b));
  }

  const TruncationMarker: string := "...(truncated)"

  /** `TruncateForLog`. */
  function TruncateForLog(value: Option<string>, maxChars: int): string
  {
    if IsNullOrWhiteSpace(value) || maxChars <= 0 then ""
    else
      var normalized := ReplaceCrLf(value.value);
      if |normalized| <= maxChars then normalized else normalized[..maxChars] + TruncationMarker
  }

  /** Blank text or a non-positive limit give ""; otherwise the normalised
      text is kept whole when it fits, or its first maxChars characters are
      kept with the marker after them. */
  lemma TruncateForLogSpec(value: Option<string>, maxChars: int)
    ensures var r := TruncateForLog(value, maxChars);
      && (IsNullOrWhiteSpace(value) || maxChars <= 0 ==> r == "")
      && (!IsNullOrWhiteSpace(value) && maxChars > 0 ==>
            var normalized := ReplaceCrLf(value.value);
            && |r| <= maxChars + |TruncationMarker|
            && (|normalized| <= maxChars ==> r == normalized)
            && (|normalized| > maxChars ==> StartsWith(r, normalized[..maxChars]) && EndsWith(r, TruncationMarker)))
  {
    if !IsNullOrWhiteSpace(value) && maxChars > 0 {
      var normalized := ReplaceCrLf(value.value);
      if |normalized| > maxChars {
        var r := normalized[..maxChars] + TruncationMarker;
        assert |r| == maxChars + 14;
        assert r[..maxChars] == normalized[..maxChars];
        assert r[|r| - 14..] == TruncationMarker;
      }
    }
  }
}
