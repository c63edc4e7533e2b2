/** `CompactUnitFormatter`: the short unit texts of the desktop panels. The
    digits of a number are not rendered: a formatted value records the
    number, how it is shown (whole, or with at most one decimal) and the
    unit suffix. */
module CompactUnitFormatter {
  import opened Numbers

  /** How `FormatNumber` shows a value: rounded to a whole number, or with
      at most one decimal ("0.#"). */
  datatype Shown = Whole(n: int) | UpToOneDecimal(x: real)

  /** A formatter's output: "--", or a number followed by its unit. */
  datatype Formatted = Placeholder | Amount(shown: Shown, unit: string)

  /** The guard shared by the memory, speed and percent formatters. */
  predicate Unusable(x: Double)
  {
    x.NaN? || x.IsInfinity() || LtR(x, 0.0)
  }

  /** `FormatNumber`: integers from 100 up, else at most one decimal. */
  function FormatNumber(value: real): Shown
  {
    if value >= 100.0 then Whole(RoundAwayFromZero(value)) else UpToOneDecimal(value)
  }

  /** `FormatMemoryFromMegabytes`. */
  function FormatMemoryFromMegabytes(megabytes: Double): Formatted
  {
    if Unusable(megabytes) then Placeholder
    else
      var mb := megabytes.value;
      if mb < 1.0 then Amount(FormatNumber(mb * 1024.0), "K")
      else if mb < 1024.0 then Amount(FormatNumber(mb), "M")
      else
        var gb := mb / 1024.0;
        if gb < 1024.0 then Amount(FormatNumber(gb), "G")
        else Amount(FormatNumber(gb / 1024.0), "T")
  }

  /** `FormatSpeedFromMegabytesPerSecond`. */
  function FormatSpeedFromMegabytesPerSecond(mbps: Double): Formatted
  {
    if Unusable(mbps) then Placeholder
    else
      var v := mbps.value;
      if v < 1.0 then Amount(FormatNumber(v * 1024.0), "K/s")
      else if v < 1024.0 then Amount(FormatNumber(v), "M/s")
      else Amount(FormatNumber(v / 1024.0), "G/s")
  }

  /** `FormatPercent`: clamped to [0, 100], rounded half away from zero. */
  function FormatPercent(value: Double): Formatted
  {
    if Unusable(value) then Placeholder
    else Amount(Whole(RoundAwayFromZero(ClampReal(value.value, 0.0, 100.0))), "%")
  }

  /** `FormatPower`: whole watts, "--" unless positive and finite. */
  function FormatPower(watts: Double): Formatted
  {
    if watts.NaN? || watts.IsInfinity() || LeR(watts, 0.0) then Placeholder
    else Amount(Whole(RoundAwayFromZero(watts.value)), "W")
  }

  // ---------------------------------------------------------------------
  // Properties

  /** NaN, infinities and negatives give "--" everywhere; power also for 0. */
  lemma PlaceholderIff(x: Double)
    ensures FormatMemoryFromMegabytes(x).Placeholder? <==> !x.Finite? || x.value < 0.0
    ensures FormatSpeedFromMegabytesPerSecond(x).Placeholder? <==> !x.Finite? || x.value < 0.0
    ensures FormatPercent(x).Placeholder? <==> !x.Finite? || x.value < 0.0
    ensures FormatPower(x).Placeholder? <==> !x.Finite? || x.value <= 0.0
  {
  }

  /** The memory unit is the largest of K, M, G, T the value reaches, and
      the shown number is the value in that unit. */
  lemma MemoryUnits(mb: real)
    requires mb >= 0.0
    ensures var f := FormatMemoryFromMegabytes(Finite(mb));
      && (f.unit == "K" <==> mb < 1.0)
      && (f.unit == "M" <==> 1.0 <= mb < 1024.0)
      && (f.unit == "G" <==> 1024.0 <= mb < 1024.0 * 1024.0)
      && (f.unit == "T" <==> mb >= 1024.0 * 1024.0)
      && f.shown == FormatNumber(mb * UnitFactor(f.unit))
  {
  }

  /** The factor from megabytes to the memory and speed units. */
  function UnitFactor(unit: string): real
  {
    if unit == "K" || unit == "K/s" then 1024.0
    else if unit == "M" || unit == "M/s" then 1.0
    else if unit == "G" || unit == "G/s" then 1.0 / 1024.0
    else 1.0 / (1024.0 * 1024.0)
  }

  /** Speeds stop at G/s: there is no T/s. */
  lemma SpeedUnits(v: real)
    requires v >= 0.0
    ensures var f := FormatSpeedFromMegabytesPerSecond(Finite(v));
      && (f.unit == "K/s" <==> v < 1.0)
      && (f.unit == "M/s" <==> 1.0 <= v < 1024.0)
      && (f.unit == "G/s" <==> v >= 1024.0)
      && f.shown == FormatNumber(v * UnitFactor(f.unit))
  {
  }

  /** A shown percent is a whole number in [0, 100] within one half of the
      clamped value. */
  lemma PercentBounded(x: real)
    requires x >= 0.0
    ensures var f := FormatPercent(Finite(x));
      f.Amount? && f.shown.Whole? && 0 <= f.shown.n <= 100
      && Abs(ClampReal(x, 0.0, 100.0) - f.shown.n as real) <= 0.5
  {
    var c := ClampReal(x, 0.0, 100.0);
    var n := RoundAwayFromZero(c);
    assert (c + 0.5).Floor <= 100;
  }

  /** Whole numbers from 100 up, one decimal at most below. */
  lemma NumberStyle(value: real)
    ensures FormatNumber(value).Whole? <==> value >= 100.0
    ensures FormatNumber(value).UpToOneDecimal? ==> FormatNumber(value).x == value
  {
  }
}
