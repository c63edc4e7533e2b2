/** The web client's shared helpers: the system summary summed over the
    processes, and the unit chosen when sizes and network rates are shown.
    A rendered number is kept as the number and the count of decimals it
    is printed with; the printing itself is not modelled. */
module WebUtils {
  import opened Common
  import opened Numbers

  // ---------------------------------------------------------------------
  // Powers of 1024

  function Pow1024(n: nat): (r: real)
    ensures r >= 1.0
  {
    if n == 0 then 1.0 else 1024.0 * Pow1024(n - 1)
  }

  /** `Math.pow(1024, i)` for any integer i. */
  function Scale(i: int): (r: real)
    ensures r > 0.0
  {
    if i >= 0 then Pow1024(i) else 1.0 / Pow1024(-i)
  }

  lemma ScaleStep(i: int)
    ensures Scale(i + 1) == 1024.0 * Scale(i)
  {
    if i < -1 {
      var p := Pow1024(-i - 1);
      assert Pow1024(-i) == 1024.0 * p;
      assert Scale(i) == 1.0 / (1024.0 * p);
      assert 1024.0 * (1.0 / (1024.0 * p)) == 1.0 / p;
    }
  }

  lemma {:induction false} ScaleIncreasing(i: int, j: int)
    requires i < j
    ensures Scale(i) < Scale(j)
    decreases j - i
  {
    ScaleStep(j - 1);
    if i < j - 1 {
      ScaleIncreasing(i, j - 1);
    }
  }

  /** `Math.floor(Math.log(b) / Math.log(1024))` in exact arithmetic: the
      power of 1024 that b lies in. */
  function Exponent(b: real): (i: int)
    requires b > 0.0
    ensures Scale(i) <= b < Scale(i + 1)
    decreases if b >= 1.0 then 0 else 1, if b >= 1.0 then b.Floor else (1.0 / b).Floor
  {
    if b >= 1024.0 then
      assert b / 1024.0 <= b - 1.0;
      var e := Exponent(b / 1024.0);
      ScaleStep(e);
      ScaleStep(e + 1);
      e + 1
    else if b >= 1.0 then
      ScaleStep(0);
      0
    else
      assert 1.0 / (b * 1024.0) == (1.0 / b) / 1024.0;
      assert b * 1024.0 < 1.0 ==> (1.0 / b) / 1024.0 <= 1.0 / b - 1.0;
      var e := Exponent(b * 1024.0);
      ScaleStep(e - 1);
      ScaleStep(e);
      e - 1
  }

  /** The exponent is the only one whose power range holds b. */
  lemma ExponentUnique(b: real, i: int)
    requires b > 0.0 && Scale(i) <= b < Scale(i + 1)
    ensures Exponent(b) == i
  {
    var e := Exponent(b);
    if e < i {
      ScaleIncreasing(e, i);
      if e + 1 < i {
        ScaleIncreasing(e + 1, i);
      }
    } else if i < e {
      ScaleIncreasing(i, e);
      if i + 1 < e {
        ScaleIncreasing(i + 1, e);
      }
    }
  }

  // ---------------------------------------------------------------------
  // Sizes

  const ByteUnits: seq<string> := ["B", "KB", "MB", "GB", "TB"]

  const BytesPerMegabyte := 1048576.0

  /** A number shown as `amount.toFixed(digits)` followed by a unit. */
  datatype Rendered = Rendered(amount: Double, digits: nat, unit: string)

  /** `formatBytes` as written: `sizes[i]` is `undefined` once the
      exponent leaves 0..4, below one byte or from 1024 TB on. */
  function FormatBytesAsWritten(bytes: real): Rendered
  {
    if bytes == 0.0 then Rendered(Finite(0.0), 0, "B")
    else if bytes < 0.0 then Rendered(NaN, 2, "undefined")
    else
      var i := Exponent(bytes);
      Rendered(Finite(bytes / Scale(i)), 2, if 0 <= i < 5 then ByteUnits[i] else "undefined")
  }

  /** Below one byte, or at 1024 TB and above, the unit reads "undefined". */
  lemma FormatBytesUndefinedUnit(bytes: real)
    requires 0.0 < bytes < 1.0 || bytes >= Pow1024(5)
    ensures FormatBytesAsWritten(bytes).unit == "undefined"
  {
    var i := Exponent(bytes);
    if bytes < 1.0 {
      if i >= 0 {
        ScaleIncreasing(-1, i);
        ScaleStep(-1);
      }
    } else if i < 4 {
      ScaleIncreasing(i + 1, 5);
    }
  }

  /** Half a byte renders as "512.00 undefined". */
  lemma HalfByteAsWritten()
    ensures FormatBytesAsWritten(0.5) == Rendered(Finite(512.0), 2, "undefined")
  {
    ScaleStep(-1);
    ExponentUnique(0.5, -1);
  }

  /** The exponent kept within the unit table. */
  function UnitIndex(bytes: real): (i: nat)
    requires bytes > 0.0
    ensures i < |ByteUnits|
  {
    var e := Exponent(bytes);
    if e < 0 then 0 else if e > 4 then 4 else e
  }

  /** `formatBytes` with the unit index kept within the table. */
  function FormatBytes(bytes: real): (r: Rendered)
    ensures bytes >= 0.0 ==> r.unit in ByteUnits && r.amount.Finite?
  {
    if bytes == 0.0 then Rendered(Finite(0.0), 0, "B")
    else if bytes < 0.0 then Rendered(NaN, 2, "undefined")
    else
      var i := UnitIndex(bytes);
      Rendered(Finite(bytes / Scale(i)), 2, ByteUnits[i])
  }

  /** The position of a unit in the table. */
  function UnitPosition(unit: string): (i: nat)
    requires unit in ByteUnits
    ensures i < |ByteUnits| && ByteUnits[i] == unit
  {
    if unit == "B" then 0 else if unit == "KB" then 1 else if unit == "MB" then 2
    else if unit == "GB" then 3 else 4
  }

  /** The number of bytes a rendered size stands for. */
  function BytesOf(r: Rendered): real
    requires r.amount.Finite? && r.unit in ByteUnits
  {
    r.amount.value * Scale(UnitPosition(r.unit))
  }

  /** A size is rendered as an amount in one of the five units that times
      that unit gives the size back. */
  lemma FormatBytesRoundTrip(bytes: real)
    requires bytes >= 0.0
    ensures BytesOf(FormatBytes(bytes)) == bytes
  {
    if bytes > 0.0 {
      var i := UnitIndex(bytes);
      assert UnitPosition(ByteUnits[i]) == i;
    }
  }

  /** From one byte up to 1024 TB the amount lies in [1, 1024) and agrees
      with the table lookup as written. */
  lemma FormatBytesInRange(bytes: real)
    requires 1.0 <= bytes < Pow1024(5)
    ensures var r := FormatBytes(bytes);
      1.0 <= r.amount.value < 1024.0 && r == FormatBytesAsWritten(bytes)
  {
    var e := Exponent(bytes);
    if e < 0 {
      ScaleIncreasing(e + 1, 1);
      ScaleStep(0);
    }
    if e > 5 {
      ScaleIncreasing(5, e);
    }
    ScaleStep(e);
  }

  /** Below one byte the size is shown in bytes as it is. */
  lemma FormatBytesBelowOneByte(bytes: real)
    requires 0.0 < bytes < 1.0
    ensures FormatBytes(bytes) == Rendered(Finite(bytes), 2, "B")
  {
    var e := Exponent(bytes);
    if e >= 0 {
      ScaleIncreasing(-1, e);
      ScaleStep(-1);
    }
  }

  /** A positive finite megabyte count, else 0. */
  function SafeMegabytes(megabytes: Double): (s: real)
    ensures s >= 0.0
  {
    if megabytes.Finite? && megabytes.value > 0.0 then megabytes.value else 0.0
  }

  /** `formatMegabytesParts` as written. */
  function FormatMegabytesPartsAsWritten(megabytes: Double): Rendered
  {
    FormatBytesAsWritten(SafeMegabytes(megabytes) * BytesPerMegabyte)
  }

  /** A size of half a millionth of a megabyte shows the unit "undefined". */
  lemma TinyMegabytesAsWritten()
    ensures FormatMegabytesPartsAsWritten(Finite(0.0000005)).unit == "undefined"
  {
    FormatBytesUndefinedUnit(0.0000005 * BytesPerMegabyte);
  }

  /** `formatMegabytesParts` over the corrected `formatBytes`. */
  function FormatMegabytesParts(megabytes: Double): Rendered
  {
    FormatBytes(SafeMegabytes(megabytes) * BytesPerMegabyte)
  }

  /** A non-finite or non-positive size shows as "0 B"; a positive one in
      one of the five units, standing for that many megabytes. */
  lemma FormatMegabytesPartsFacts(megabytes: Double)
    ensures var r := FormatMegabytesParts(megabytes);
      && (!(megabytes.Finite? && megabytes.value > 0.0) ==> r == Rendered(Finite(0.0), 0, "B"))
      && r.unit in ByteUnits && r.amount.Finite?
      && BytesOf(r) == SafeMegabytes(megabytes) * BytesPerMegabyte
  {
    FormatBytesRoundTrip(SafeMegabytes(megabytes) * BytesPerMegabyte);
  }

  // ---------------------------------------------------------------------
  // Network rates

  /** A rate shown as `amount.toFixed(digits)` with a unit, and in compact
      form with a one-letter suffix. */
  datatype Rate = Rate(amount: real, digits: nat, unit: string, compactSuffix: string)

  /** `formatNetworkRateParts`: a non-finite or non-positive rate counts as
      0; GB/s from 1024 MB/s, MB/s from 1 MB/s, otherwise whole KB/s. */
  function NetworkRateParts(megabytesPerSecond: Double): (r: Rate)
    ensures var safe := SafeMegabytes(megabytesPerSecond);
      && (r.unit == "GB/s" <==> safe >= 1024.0)
      && (r.unit == "MB/s" <==> 1.0 <= safe < 1024.0)
      && (r.unit == "KB/s" <==> safe < 1.0)
      && r.compactSuffix == r.unit[..1]
  {
    var safe := SafeMegabytes(megabytesPerSecond);
    if safe >= 1024.0 then Rate(safe / 1024.0, 1, "GB/s", "G")
    else if safe >= 1.0 then Rate(safe, 1, "MB/s", "M")
    else Rate(RoundHalfUp(safe * 1024.0) as real, 0, "KB/s", "K")
  }

  /** Megabytes per second in one of the three units. */
  function RateScale(unit: string): real
  {
    if unit == "GB/s" then 1024.0 else if unit == "MB/s" then 1.0 else 1.0 / 1024.0
  }

  /** The shown amount times its unit gives the rate back, exactly for GB/s
      and MB/s and to within half a KB/s for KB/s; the amount is at least 1
      in GB/s, in [1, 1024) in MB/s and in [0, 1024] in KB/s. */
  lemma NetworkRateApproximates(megabytesPerSecond: Double)
    ensures var r := NetworkRateParts(megabytesPerSecond);
      var safe := SafeMegabytes(megabytesPerSecond);
      && Abs(r.amount * RateScale(r.unit) - safe) <= 0.5 / 1024.0
      && (r.unit != "KB/s" ==> r.amount * RateScale(r.unit) == safe)
      && (r.unit == "GB/s" ==> r.amount >= 1.0)
      && (r.unit == "MB/s" ==> 1.0 <= r.amount < 1024.0)
      && (r.unit == "KB/s" ==> 0.0 <= r.amount <= 1024.0)
  {
    var safe := SafeMegabytes(megabytesPerSecond);
    var r := NetworkRateParts(megabytesPerSecond);
    if safe >= 1024.0 {
      assert r.amount == safe / 1024.0 && RateScale(r.unit) == 1024.0;
    } else if safe >= 1.0 {
      assert r.amount == safe && RateScale(r.unit) == 1.0;
    } else {
      assert r.amount == RoundHalfUp(safe * 1024.0) as real && RateScale(r.unit) == 1.0 / 1024.0;
      KilobytesWithin(safe);
    }
  }

  lemma KilobytesWithin(safe: real)
    requires 0.0 <= safe < 1.0
    ensures var n := RoundHalfUp(safe * 1024.0) as real;
      Abs(n * (1.0 / 1024.0) - safe) <= 0.5 / 1024.0 && 0.0 <= n <= 1024.0
  {
    var x := safe * 1024.0;
    var n := RoundHalfUp(x) as real;
    assert Abs(x - n) <= 0.5;
    assert n * (1.0 / 1024.0) - safe == (n - x) / 1024.0;
  }

  /** Just under 1 MB/s rounds up to "1024K" rather than switching to MB/s. */
  lemma JustUnderOneMegabyte()
    ensures NetworkRateParts(Finite(0.9999)) == Rate(1024.0, 0, "KB/s", "K")
  {
    assert (0.9999 * 1024.0 + 0.5).Floor == 1024;
  }

  // ---------------------------------------------------------------------
  // The system summary

  /** A process's metrics as `Object.entries` lists them. */
  type Entries = seq<(string, real)>

  function Get(m: map<string, real>, id: string): real
  {
    if id in m then m[id] else 0.0
  }

  /** The sum of the entries under id (one entry at most in an object). */
  function EntrySum(es: Entries, id: string): real
  {
    if es == [] then 0.0
    else EntrySum(es[..|es| - 1], id) + (if es[|es| - 1].0 == id then es[|es| - 1].1 else 0.0)
  }

  /** The sum of a metric over all processes. */
  function Total(processes: seq<Entries>, id: string): real
  {
    if processes == [] then 0.0
    else Total(processes[..|processes| - 1], id) + EntrySum(processes[|processes| - 1], id)
  }

  predicate Mentions(es: Entries, id: string)
  {
    exists j :: 0 <= j < |es| && es[j].0 == id
  }

  predicate MentionedBy(processes: seq<Entries>, id: string)
  {
    exists i :: 0 <= i < |processes| && Mentions(processes[i], id)
  }

  /** One step of the inner `forEach`. */
  function AddEntry(m: map<string, real>, e: (string, real)): map<string, real>
  {
    m[e.0 := Get(m, e.0) + e.1]
  }

  function AddEntries(m: map<string, real>, es: Entries): map<string, real>
  {
    if es == [] then m else AddEntry(AddEntries(m, es[..|es| - 1]), es[|es| - 1])
  }

  /** The sums the two nested `forEach` loops build. */
  function Summed(processes: seq<Entries>): map<string, real>
  {
    if processes == [] then map[]
    else AddEntries(Summed(processes[..|processes| - 1]), processes[|processes| - 1])
  }

  lemma {:induction false} AddEntriesFacts(m: map<string, real>, es: Entries, id: string)
    ensures id in AddEntries(m, es) <==> id in m || Mentions(es, id)
    ensures Get(AddEntries(m, es), id) == Get(m, id) + EntrySum(es, id)
  {
    if es != [] {
      var pre := es[..|es| - 1];
      AddEntriesFacts(m, pre, id);
      assert Mentions(es, id) <==> Mentions(pre, id) || es[|es| - 1].0 == id by {
        if Mentions(es, id) {
          var j :| 0 <= j < |es| && es[j].0 == id;
          if j < |pre| {
            assert pre[j] == es[j];
          }
        }
        if Mentions(pre, id) {
          var j :| 0 <= j < |pre| && pre[j].0 == id;
          assert es[j] == pre[j];
        }
      }
    }
  }

  /** Every metric some process reports is in the summary, and only those,
      each as the sum of its values over all processes. */
  lemma {:induction false} SummedIsTotal(processes: seq<Entries>, id: string)
    ensures id in Summed(processes) <==> MentionedBy(processes, id)
    ensures Get(Summed(processes), id) == Total(processes, id)
  {
    if processes != [] {
      var pre := processes[..|processes| - 1];
      var last := processes[|processes| - 1];
      SummedIsTotal(pre, id);
      AddEntriesFacts(Summed(pre), last, id);
      assert MentionedBy(processes, id) <==> MentionedBy(pre, id) || Mentions(last, id) by {
        if MentionedBy(processes, id) {
          var i :| 0 <= i < |processes| && Mentions(processes[i], id);
          if i < |pre| {
            assert pre[i] == processes[i];
          }
        }
        if MentionedBy(pre, id) {
          var i :| 0 <= i < |pre| && Mentions(pre[i], id);
          assert processes[i] == pre[i];
        }
      }
    }
  }

  /** The machine-wide figures; a missing one is NaN here. */
  datatype SystemUsage = SystemUsage(totalCpu: Double, totalGpu: Double, totalMemory: Double, totalVram: Double)

  function SetIfFinite(m: map<string, real>, id: string, d: Double): map<string, real>
  {
    if d.Finite? then m[id := d.value] else m
  }

  /** Finite machine-wide figures replace the summed cpu, gpu, memory and vram. */
  function WithUsage(m: map<string, real>, usage: Option<SystemUsage>): map<string, real>
  {
    if usage.None? then m
    else
      var u := usage.value;
      SetIfFinite(SetIfFinite(SetIfFinite(SetIfFinite(m, "cpu", u.totalCpu), "gpu", u.totalGpu),
                              "memory", u.totalMemory), "vram", u.totalVram)
  }

  /** `calculateSystemSummary`'s result. */
  function Summary(processes: seq<Entries>, usage: Option<SystemUsage>): map<string, real>
  {
    WithUsage(Summed(processes), usage)["processCount" := |processes| as real]
  }

  /** The machine figure that replaces a metric's sum, if any. */
  function Override(usage: Option<SystemUsage>, id: string): Option<real>
  {
    if usage.None? then None
    else
      var u := usage.value;
      var d := if id == "cpu" then u.totalCpu else if id == "gpu" then u.totalGpu
               else if id == "memory" then u.totalMemory else if id == "vram" then u.totalVram else NaN;
      if d.Finite? then Some(d.value) else None
  }

  /** The summary counts the processes; a finite machine-wide figure
      replaces its metric's sum; every other metric is the sum over the
      processes, present exactly when some process reports it. */
  lemma SummaryFacts(processes: seq<Entries>, usage: Option<SystemUsage>, id: string)
    ensures var r := Summary(processes, usage);
      && r["processCount"] == |processes| as real
      && (id != "processCount" && Override(usage, id).Some? ==> id in r && r[id] == Override(usage, id).value)
      && (id != "processCount" && Override(usage, id).None? ==>
            (id in r <==> MentionedBy(processes, id)) && Get(r, id) == Total(processes, id))
  {
    SummedIsTotal(processes, id);
  }

  /** The nested loops: each process's entries added one by one, a falsy
      running value restarting from 0. */
  method SumMetrics(processes: seq<Entries>) returns (summary: map<string, real>)
    ensures summary == Summed(processes)
  {
    summary := map[];
    for i := 0 to |processes|
      invariant summary == Summed(processes[..i])
    {
      var es := processes[i];
      ghost var before := summary;
      for j := 0 to |es|
        invariant summary == AddEntries(before, es[..j])
      {
        var (id, v) := es[j];
        if id !in summary || summary[id] == 0.0 {
          summary := summary[id := 0.0];
        }
        summary := summary[id := summary[id] + v];
        assert es[..j + 1][..j] == es[..j];
      }
      assert es[..|es|] == es;
      assert processes[..i + 1][..i] == processes[..i];
    }
    assert processes[..|processes|] == processes;
  }

  /** `calculateSystemSummary`. */
  method CalculateSystemSummary(processes: seq<Entries>, usage: Option<SystemUsage>) returns (r: map<string, real>)
    ensures r == Summary(processes, usage)
  {
    var summary := SumMetrics(processes);
    if usage.Some? {
      var u := usage.value;
      if u.totalCpu.Finite? {
        summary := summary["cpu" := u.totalCpu.value];
      }
      if u.totalGpu.Finite? {
        summary := summary["gpu" := u.totalGpu.value];
      }
      if u.totalMemory.Finite? {
        summary := summary["memory" := u.totalMemory.value];
      }
      if u.totalVram.Finite? {
        summary := summary["vram" := u.totalVram.value];
      }
    }
    r := summary["processCount" := |processes| as real];
  }
}
