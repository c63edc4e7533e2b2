/** `AggregationWorker`: rolls raw process samples up into minute, hour and
    day records. The database is a sequence of rows in id order, a clock
    reading is a parameter, and a `DateTime` is its tick count (100 ns
    since 0001-01-01, so every minute, hour and day starts at a multiple of
    its length). Doubles are reals: overflow, rounding and NaN are not
    modelled. */
module AggregationWorker {
  import opened Common
  import opened Numbers

  // ---------------------------------------------------------------------
  // Batch size

  const DefaultAggregationBatchSize: int := 2000
  const MinAggregationBatchSize: int := 100
  const MaxAggregationBatchSize: int := 50000

  /** `NormalizeBatchSize`. */
  function NormalizeBatchSize(configured: int): int
  {
    if configured <= 0 then DefaultAggregationBatchSize
    else if configured < MinAggregationBatchSize then MinAggregationBatchSize
    else if configured > MaxAggregationBatchSize then MaxAggregationBatchSize
    else configured
  }

  /** Non-positive sizes take the default, the rest are clamped to
      [100, 50000], and sizes already in range are kept. */
  lemma NormalizeBatchSizeRange(configured: int)
    ensures var r := NormalizeBatchSize(configured);
      && MinAggregationBatchSize <= r <= MaxAggregationBatchSize
      && (configured <= 0 ==> r == DefaultAggregationBatchSize)
      && (MinAggregationBatchSize <= configured <= MaxAggregationBatchSize ==> r == configured)
      && (0 < configured < MinAggregationBatchSize ==> r == MinAggregationBatchSize)
      && (configured > MaxAggregationBatchSize ==> r == MaxAggregationBatchSize)
      && NormalizeBatchSize(r) == r
  {
  }

  // ---------------------------------------------------------------------
  // Time buckets

  const TicksPerSecond: int := 10_000_000
  const TicksPerMinute: int := 60 * TicksPerSecond
  const TicksPerHour: int := 60 * TicksPerMinute
  const TicksPerDay: int := 24 * TicksPerHour

  /** The aggregation levels above raw samples. */
  datatype Level = Minute | Hour | Day
  {
    function Length(): (n: int)
      ensures n > 1
    {
      match this
      case Minute => TicksPerMinute
      case Hour => TicksPerHour
      case Day => TicksPerDay
    }
  }

  /** `TruncateToMinute`, `TruncateToHour`, `TruncateToDay`: the start of
      the minute, hour or day holding t. */
  function Truncate(level: Level, t: int): (r: int)
    ensures r <= t < r + level.Length()
    ensures r % level.Length() == 0
  {
    ModOfMultiple(t / level.Length(), level.Length());
    t - t % level.Length()
  }

  lemma MulSign(a: int, n: int)
    requires n > 0
    ensures a >= 0 ==> a * n >= 0
    ensures a <= 0 ==> a * n <= 0
  {
  }

  /** A multiple of n strictly between -n and n is 0; a positive one is at
      least n. */
  lemma Multiples(d: int, n: int)
    requires n > 0
    ensures -n < d * n < n ==> d == 0
    ensures d * n > 0 ==> d * n >= n
  {
    MulSign(d - 1, n);
    MulSign(d + 1, n);
    assert (d - 1) * n == d * n - n;
    assert (d + 1) * n == d * n + n;
  }

  lemma ModOfMultiple(k: int, n: int)
    requires n > 0
    ensures (k * n) % n == 0
  {
    var q := (k * n) / n;
    assert (k - q) * n == (k * n) % n;
    Multiples(k - q, n);
  }

  /** The difference of two multiples of n is a multiple of n. */
  lemma MultipleDifference(a: int, b: int, n: int)
    requires n > 0 && a % n == 0 && b % n == 0
    ensures b - a == (b / n - a / n) * n
  {
  }

  /** A bucket start is the only multiple of the length within one length
      below t. */
  lemma TruncateUnique(level: Level, t: int, b: int)
    requires b % level.Length() == 0 && b <= t < b + level.Length()
    ensures Truncate(level, t) == b
  {
    var n := level.Length();
    var r := Truncate(level, t);
    MultipleDifference(b, r, n);
    Multiples(r / n - b / n, n);
  }

  /** Two distinct bucket starts are at least one length apart. */
  lemma TruncateStep(level: Level, a: int, b: int)
    requires a % level.Length() == 0 && b % level.Length() == 0 && a < b
    ensures a + level.Length() <= b
  {
    var n := level.Length();
    MultipleDifference(a, b, n);
    Multiples(b / n - a / n, n);
  }

  /** Truncation is idempotent and monotone, and keeps bucket starts. */
  lemma TruncateProperties(level: Level, t: int, u: int)
    ensures Truncate(level, Truncate(level, t)) == Truncate(level, t)
    ensures t <= u ==> Truncate(level, t) <= Truncate(level, u)
    ensures t % level.Length() == 0 ==> Truncate(level, t) == t
  {
    TruncateUnique(level, Truncate(level, t), Truncate(level, t));
    if Truncate(level, u) < Truncate(level, t) {
      TruncateStep(level, Truncate(level, u), Truncate(level, t));
    }
    if t % level.Length() == 0 {
      TruncateUnique(level, t, t);
    }
  }

  /** A multiple of a larger length is a multiple of the smaller one. */
  lemma CoarserIsMultiple(x: int, k: int, n: int)
    requires n > 0 && k > 0 && x % (k * n) == 0
    ensures x % n == 0
  {
    var q := x / (k * n);
    assert x == (q * k) * n;
    ModOfMultiple(q * k, n);
  }

  /** Minutes nest in hours and hours in days. */
  lemma TruncateNests(t: int)
    ensures Truncate(Hour, Truncate(Minute, t)) == Truncate(Hour, t)
    ensures Truncate(Day, Truncate(Hour, t)) == Truncate(Day, t)
  {
    var m := Truncate(Minute, t);
    var h := Truncate(Hour, t);
    CoarserIsMultiple(h, 60, TicksPerMinute);
    if m < h {
      TruncateStep(Minute, m, h);
    }
    TruncateUnique(Hour, m, h);
    var d := Truncate(Day, t);
    CoarserIsMultiple(d, 24, TicksPerHour);
    if h < d {
      TruncateStep(Hour, h, d);
    }
    TruncateUnique(Day, h, d);
  }

  // ---------------------------------------------------------------------
  // Aggregates

  /** `double.MaxValue`; `double.MinValue` is its negation. */
  const DoubleMax: real := 179769313486231570000000000000000000000000000000000000000000000000000000000000000000000000000000000000000000000000000000000000000000000000000000000000000000000000000000000000000000000000000000000000000000000000000000000000000000000000000000000000000000000000000000000000000000000000000000000000.0

  /** The numeric part of a `MetricAggregation`. */
  datatype Stats = Stats(min: real, max: real, sum: real, count: int)

  /** A fresh `MetricAggregation`: Min = double.MaxValue, Max =
      double.MinValue, nothing counted. */
  const Empty: Stats := Stats(DoubleMax, -DoubleMax, 0.0, 0)

  /** One raw value merged in (`MergeMetricValues`). */
  function AddValue(s: Stats, v: real): Stats
  {
    Stats(MinReal(s.min, v), MaxReal(s.max, v), s.sum + v, s.count + 1)
  }

  /** One aggregate merged into another (`MergeMetricAggregations`). */
  function Combine(a: Stats, b: Stats): Stats
  {
    Stats(MinReal(a.min, b.min), MaxReal(a.max, b.max), a.sum + b.sum, a.count + b.count)
  }

  /** The aggregate of a run of raw values, merged in order. */
  function StatsOf(vs: seq<real>): Stats
  {
    if vs == [] then Empty else AddValue(StatsOf(vs[..|vs| - 1]), vs[|vs| - 1])
  }

  function Sum(vs: seq<real>): real
  {
    if vs == [] then 0.0 else Sum(vs[..|vs| - 1]) + vs[|vs| - 1]
  }

  /** A value a double can hold. */
  predicate InRange(v: real)
  {
    -DoubleMax <= v <= DoubleMax
  }

  /** The aggregate of values counts them, sums them, and keeps their least
      and greatest. */
  lemma {:induction false} StatsOfExact(vs: seq<real>)
    requires forall i :: 0 <= i < |vs| ==> InRange(vs[i])
    ensures var s := StatsOf(vs);
      && s.count == |vs| && s.sum == Sum(vs)
      && (vs == [] ==> s == Empty)
      && (forall i :: 0 <= i < |vs| ==> s.min <= vs[i] <= s.max)
      && (vs != [] ==> (exists i :: 0 <= i < |vs| && s.min == vs[i]) && (exists j :: 0 <= j < |vs| && s.max == vs[j]))
  {
    if vs != [] {
      var init := vs[..|vs| - 1];
      assert forall i :: 0 <= i < |init| ==> init[i] == vs[i];
      StatsOfExact(init);
      var s0 := StatsOf(init);
      var s := StatsOf(vs);
      var last := |vs| - 1;
      if init != [] {
        var i0 :| 0 <= i0 < |init| && s0.min == init[i0];
        var j0 :| 0 <= j0 < |init| && s0.max == init[j0];
        assert s.min == vs[i0] || s.min == vs[last];
        assert s.max == vs[j0] || s.max == vs[last];
      } else {
        assert s.min == vs[last] && s.max == vs[last];
      }
    }
  }

  /** The aggregate of any values stays inside the fresh bounds. */
  lemma {:induction false} StatsOfBounded(vs: seq<real>)
    ensures StatsOf(vs).min <= DoubleMax && StatsOf(vs).max >= -DoubleMax
  {
    if vs != [] {
      StatsOfBounded(vs[..|vs| - 1]);
    }
  }

  /** Merging a raw value is merging the one-value aggregate. */
  lemma AddValueIsCombine(s: Stats, v: real)
    ensures AddValue(s, v) == Combine(s, Stats(v, v, v, 1))
  {
  }

  /** Merging aggregates is commutative and associative on (min, max, sum,
      count), and the fresh aggregate is its unit. */
  lemma CombineMonoid(a: Stats, b: Stats, c: Stats)
    ensures Combine(a, b) == Combine(b, a)
    ensures Combine(Combine(a, b), c) == Combine(a, Combine(b, c))
    ensures a.min <= DoubleMax && a.max >= -DoubleMax ==> Combine(Empty, a) == a && Combine(a, Empty) == a
  {
  }

  /** Rolling up: merging the aggregates of two runs gives the aggregate of
      the runs one after the other, so an hour built from minute aggregates
      equals the hour built from the raw values. */
  lemma {:induction false} CombineStatsOf(xs: seq<real>, ys: seq<real>)
    ensures Combine(StatsOf(xs), StatsOf(ys)) == StatsOf(xs + ys)
  {
    if ys == [] {
      StatsOfBounded(xs);
      assert xs + ys == xs;
    } else {
      var init := ys[..|ys| - 1];
      CombineStatsOf(xs, init);
      assert (xs + ys)[..|xs + ys| - 1] == xs + init;
    }
  }

  /** `Avg`: Sum / Count, or 0 for an empty aggregate. */
  function Average(s: Stats): real
  {
    if s.count > 0 then s.sum / s.count as real else 0.0
  }

  lemma {:induction false} SumBounds(vs: seq<real>, lo: real, hi: real)
    requires forall i :: 0 <= i < |vs| ==> lo <= vs[i] <= hi
    ensures |vs| as real * lo <= Sum(vs) <= |vs| as real * hi
  {
    if vs != [] {
      var init := vs[..|vs| - 1];
      assert forall i :: 0 <= i < |init| ==> init[i] == vs[i];
      SumBounds(init, lo, hi);
      var m := |init| as real;
      assert |vs| as real * lo == m * lo + lo && |vs| as real * hi == m * hi + hi;
    }
  }

  /** The average of a non-empty run lies between its least and greatest
      value, and times the count gives the sum; an empty aggregate averages
      to 0. */
  lemma AverageBetween(vs: seq<real>)
    requires forall i :: 0 <= i < |vs| ==> InRange(vs[i])
    ensures var s := StatsOf(vs);
      && (vs == [] ==> Average(s) == 0.0)
      && (vs != [] ==> s.min <= Average(s) <= s.max && Average(s) * |vs| as real == Sum(vs))
  {
    StatsOfExact(vs);
    if vs != [] {
      AverageOfBounded(StatsOf(vs), vs);
    }
  }

  lemma AverageOfBounded(s: Stats, vs: seq<real>)
    requires vs != [] && s.count == |vs| && s.sum == Sum(vs)
    requires forall i :: 0 <= i < |vs| ==> s.min <= vs[i] <= s.max
    ensures s.min <= Average(s) <= s.max && Average(s) * |vs| as real == Sum(vs)
  {
    SumBounds(vs, s.min, s.max);
    DivBounds(Sum(vs), |vs| as real, s.min, s.max);
  }

  lemma DivBounds(total: real, n: real, lo: real, hi: real)
    requires n > 0.0 && n * lo <= total <= n * hi
    ensures lo <= total / n <= hi && total / n * n == total
  {
  }

  // ---------------------------------------------------------------------
  // Buckets

  /** One metric of a stored row: a raw `MetricValue` (its unit may be
      null) or an aggregate read back from a lower level. */
  datatype Sample = Raw(value: real, rawUnit: Option<string>) | Rolled(stats: Stats, unit: string)

  /** A `MetricAggregation` while it is being built (Avg is written only
      when the records are built). */
  datatype Aggregation = Aggregation(stats: Stats, unit: string)

  type Metrics = map<string, Aggregation>

  /** A row of the level below: `MetricsJson` is `None` when it
      deserialises to null. */
  datatype Row = Row(id: int, processId: int, processName: string, timestamp: int, metrics: Option<map<string, Sample>>)

  /** `AggregationBucketKey`. */
  datatype BucketKey = BucketKey(processId: int, processName: string, timestamp: int)

  /** One sample merged into the aggregate of its metric (`None` when the
      bucket has none yet); a new aggregate takes the sample's unit. */
  function Absorb(current: Option<Aggregation>, sample: Sample): Aggregation
  {
    match sample
    case Raw(v, unit) =>
      var base := if current.Some? then current.value else Aggregation(Empty, if unit.Some? then unit.value else "");
      Aggregation(AddValue(base.stats, v), base.unit)
    case Rolled(stats, unit) =>
      var base := if current.Some? then current.value else Aggregation(Empty, unit);
      Aggregation(Combine(base.stats, stats), base.unit)
  }

  function Find(metrics: Metrics, id: string): Option<Aggregation>
  {
    if id in metrics then Some(metrics[id]) else None
  }

  /** `MergeMetricValues` / `MergeMetricAggregations`: every metric of the
      row merged into the bucket's aggregate of that metric. */
  function MergeSamples(target: Metrics, source: map<string, Sample>): (r: Metrics)
    ensures r.Keys == target.Keys + source.Keys
  {
    map id | id in target.Keys + source.Keys :: if id in source then Absorb(Find(target, id), source[id]) else target[id]
  }

  /** The bucket dictionary: keys in insertion order and their metrics. */
  datatype Table = Table(order: seq<BucketKey>, buckets: map<BucketKey, Metrics>)

  const Initial: Table := Table([], map[])

  predicate Valid(t: Table)
  {
    NoDuplicates(t.order) && t.buckets.Keys == set k | k in t.order
  }

  /** A row is skipped when its metrics are null or empty. */
  predicate Contributes(row: Row)
  {
    row.metrics.Some? && |row.metrics.value| > 0
  }

  function KeyOf(row: Row, target: Level): BucketKey
  {
    BucketKey(row.processId, row.processName, Truncate(target, row.timestamp))
  }

  /** One row merged into its bucket, created on first use. */
  function AfterRow(t: Table, row: Row, target: Level): Table
  {
    if !Contributes(row) then t
    else
      var k := KeyOf(row, target);
      var current := if k in t.buckets then t.buckets[k] else map[];
      Table(if k in t.buckets then t.order else t.order + [k], t.buckets[k := MergeSamples(current, row.metrics.value)])
  }

  function AfterRows(t: Table, rows: seq<Row>, target: Level): Table
  {
    if rows == [] then t else AfterRow(AfterRows(t, rows[..|rows| - 1], target), rows[|rows| - 1], target)
  }

  lemma AfterRowKeepsValid(t: Table, row: Row, target: Level)
    requires Valid(t)
    ensures Valid(AfterRow(t, row, target))
  {
  }

  lemma {:induction false} AfterRowsKeepsValid(t: Table, rows: seq<Row>, target: Level)
    requires Valid(t)
    ensures Valid(AfterRows(t, rows, target))
  {
    if rows != [] {
      AfterRowsKeepsValid(t, rows[..|rows| - 1], target);
      AfterRowKeepsValid(AfterRows(t, rows[..|rows| - 1], target), rows[|rows| - 1], target);
    }
  }

  /** The samples of metric m that rows put into bucket k, in row order. */
  function SamplesFor(rows: seq<Row>, target: Level, k: BucketKey, m: string): seq<Sample>
  {
    if rows == [] then []
    else
      var last := rows[|rows| - 1];
      SamplesFor(rows[..|rows| - 1], target, k, m)
        + (if Contributes(last) && KeyOf(last, target) == k && m in last.metrics.value then [last.metrics.value[m]] else [])
  }

  /** The samples merged in order; `None` for no samples. */
  function Fold(samples: seq<Sample>): Option<Aggregation>
  {
    if samples == [] then None else Some(Absorb(Fold(samples[..|samples| - 1]), samples[|samples| - 1]))
  }

  function Entry(t: Table, k: BucketKey, m: string): Option<Aggregation>
  {
    if k in t.buckets && m in t.buckets[k] then Some(t.buckets[k][m]) else None
  }

  /** One row changes only the entries of its own bucket and metrics. */
  lemma EntryAfterRow(t: Table, row: Row, target: Level, k: BucketKey, m: string)
    ensures Entry(AfterRow(t, row, target), k, m)
      == if Contributes(row) && KeyOf(row, target) == k && m in row.metrics.value
         then Some(Absorb(Entry(t, k, m), row.metrics.value[m])) else Entry(t, k, m)
  {
    if Contributes(row) && KeyOf(row, target) == k {
      assert Find(if k in t.buckets then t.buckets[k] else map[], m) == Entry(t, k, m);
    }
  }

  /** Every bucket holds, for each metric, exactly the rows' samples of that
      metric merged in order. */
  lemma {:induction false} BucketEntries(rows: seq<Row>, target: Level)
    ensures var t := AfterRows(Initial, rows, target);
      forall k, m :: Entry(t, k, m) == Fold(SamplesFor(rows, target, k, m))
  {
    if rows != [] {
      var init := rows[..|rows| - 1];
      var row := rows[|rows| - 1];
      BucketEntries(init, target);
      var t0 := AfterRows(Initial, init, target);
      forall k, m
        ensures Entry(AfterRow(t0, row, target), k, m) == Fold(SamplesFor(rows, target, k, m))
      {
        EntryAfterRow(t0, row, target, k, m);
        var prev := SamplesFor(init, target, k, m);
        if Contributes(row) && KeyOf(row, target) == k && m in row.metrics.value {
          assert SamplesFor(rows, target, k, m) == prev + [row.metrics.value[m]];
          assert (prev + [row.metrics.value[m]])[..|prev|] == prev;
        } else {
          assert SamplesFor(rows, target, k, m) == prev;
        }
      }
    }
  }

  /** Some row with metrics falls in bucket k. */
  predicate FromSomeRow(rows: seq<Row>, target: Level, k: BucketKey)
  {
    exists i :: 0 <= i < |rows| && Contributes(rows[i]) && KeyOf(rows[i], target) == k
  }

  /** One row adds at most its own bucket. */
  lemma KeyAfterRow(t: Table, row: Row, target: Level, k: BucketKey)
    ensures k in AfterRow(t, row, target).buckets <==> k in t.buckets || (Contributes(row) && KeyOf(row, target) == k)
  {
  }

  /** A row of a longer run is a row of its prefix or its last row. */
  lemma FromSomeRowStep(rows: seq<Row>, target: Level, k: BucketKey)
    requires rows != []
    ensures var last := rows[|rows| - 1];
      FromSomeRow(rows, target, k) <==> FromSomeRow(rows[..|rows| - 1], target, k) || (Contributes(last) && KeyOf(last, target) == k)
  {
    var init := rows[..|rows| - 1];
    if FromSomeRow(init, target, k) {
      var i :| 0 <= i < |init| && Contributes(init[i]) && KeyOf(init[i], target) == k;
      assert rows[i] == init[i];
    }
    if FromSomeRow(rows, target, k) {
      var i :| 0 <= i < |rows| && Contributes(rows[i]) && KeyOf(rows[i], target) == k;
      if i < |init| {
        assert init[i] == rows[i];
      }
    }
  }

  /** A bucket exists iff a row with metrics falls in it. */
  lemma {:induction false} BucketKeys(rows: seq<Row>, target: Level)
    ensures forall k :: k in AfterRows(Initial, rows, target).buckets <==> FromSomeRow(rows, target, k)
  {
    if rows != [] {
      var init := rows[..|rows| - 1];
      BucketKeys(init, target);
      forall k
        ensures k in AfterRows(Initial, rows, target).buckets <==> FromSomeRow(rows, target, k)
      {
        KeyAfterRow(AfterRows(Initial, init, target), rows[|rows| - 1], target, k);
        FromSomeRowStep(rows, target, k);
      }
    }
  }

  /** A bucket of raw values: its aggregate is the aggregate of the values,
      with the unit of the first (empty when null). */
  lemma {:induction false} FoldRawValues(samples: seq<Sample>)
    requires samples != [] && forall i :: 0 <= i < |samples| ==> samples[i].Raw?
    ensures var a := Fold(samples);
      && a.Some?
      && a.value.stats == StatsOf(seq(|samples|, i requires 0 <= i < |samples| => samples[i].value))
      && a.value.unit == (if samples[0].rawUnit.Some? then samples[0].rawUnit.value else "")
  {
    var init := samples[..|samples| - 1];
    var values := seq(|samples|, i requires 0 <= i < |samples| => samples[i].value);
    if init != [] {
      FoldRawValues(init);
      assert values[..|values| - 1] == seq(|init|, i requires 0 <= i < |init| => init[i].value);
    }
  }

  /** A bucket of lower-level aggregates: its aggregate merges their
      statistics, with the unit of the first. */
  lemma {:induction false} FoldRolled(samples: seq<Sample>)
    requires samples != [] && forall i :: 0 <= i < |samples| ==> samples[i].Rolled?
    ensures var a := Fold(samples);
      && a.Some?
      && a.value.stats == CombineAll(seq(|samples|, i requires 0 <= i < |samples| => samples[i].stats))
      && a.value.unit == samples[0].unit
  {
    var init := samples[..|samples| - 1];
    if init != [] {
      FoldRolled(init);
      assert seq(|samples|, i requires 0 <= i < |samples| => samples[i].stats)[..|init|]
        == seq(|init|, i requires 0 <= i < |init| => init[i].stats);
    }
  }

  /** Aggregates merged left to right from the fresh one. */
  function CombineAll(ss: seq<Stats>): Stats
  {
    if ss == [] then Empty else Combine(CombineAll(ss[..|ss| - 1]), ss[|ss| - 1])
  }

  // ---------------------------------------------------------------------
  // Records

  /** A finished `MetricAggregation` as serialised into `MetricsJson`. */
  datatype Summary = Summary(min: real, max: real, avg: real, sum: real, count: int, unit: string)

  /** `AggregatedMetricRecord`. */
  datatype Record = Record(processId: int, processName: string, level: Level, timestamp: int, metrics: map<string, Summary>)

  /** The aggregate with its average written in. */
  function Finalise(a: Aggregation): Summary
  {
    Summary(a.stats.min, a.stats.max, Average(a.stats), a.stats.sum, a.stats.count, a.unit)
  }

  function ToRecord(k: BucketKey, metrics: Metrics, level: Level): Record
  {
    Record(k.processId, k.processName, level, k.timestamp, map id | id in metrics :: Finalise(metrics[id]))
  }

  function Get(buckets: map<BucketKey, Metrics>, k: BucketKey): Metrics
  {
    if k in buckets then buckets[k] else map[]
  }

  function RecordsFor(keys: seq<BucketKey>, buckets: map<BucketKey, Metrics>, level: Level): seq<Record>
  {
    if keys == [] then []
    else RecordsFor(keys[..|keys| - 1], buckets, level) + [ToRecord(keys[|keys| - 1], Get(buckets, keys[|keys| - 1]), level)]
  }

  /** Bucket order: by timestamp, then process id. */
  predicate Before(a: BucketKey, b: BucketKey)
  {
    a.timestamp < b.timestamp || (a.timestamp == b.timestamp && a.processId < b.processId)
  }

  predicate Ordered(keys: seq<BucketKey>)
  {
    forall i, j :: 0 <= i < j < |keys| ==> !Before(keys[j], keys[i])
  }

  /** One key placed after every key not after it (a stable insertion). */
  function Insert(sorted: seq<BucketKey>, k: BucketKey): seq<BucketKey>
  {
    if sorted == [] then [k]
    else if Before(k, sorted[|sorted| - 1]) then Insert(sorted[..|sorted| - 1], k) + [sorted[|sorted| - 1]]
    else sorted + [k]
  }

  /** `OrderBy(Timestamp).ThenBy(ProcessId)` over the buckets in insertion
      order. */
  function SortBuckets(keys: seq<BucketKey>): seq<BucketKey>
  {
    if keys == [] then [] else Insert(SortBuckets(keys[..|keys| - 1]), keys[|keys| - 1])
  }

  /** `BuildAggregatedRecords` as a value: one record per bucket in sorted
      order. */
  function BuildRecords(t: Table, level: Level): seq<Record>
  {
    RecordsFor(SortBuckets(t.order), t.buckets, level)
  }

  /** Appending a key after every key not after it keeps the order. */
  lemma AppendOrdered(r: seq<BucketKey>, x: BucketKey)
    requires Ordered(r) && forall i :: 0 <= i < |r| ==> !Before(x, r[i])
    ensures Ordered(r + [x])
  {
    forall i, j | 0 <= i < j < |r + [x]|
      ensures !Before((r + [x])[j], (r + [x])[i])
    {
      if j < |r| {
        assert (r + [x])[j] == r[j] && (r + [x])[i] == r[i];
      }
    }
  }

  lemma {:induction false} InsertMultiset(sorted: seq<BucketKey>, k: BucketKey)
    ensures multiset(Insert(sorted, k)) == multiset(sorted) + multiset{k}
  {
    if sorted != [] && Before(k, sorted[|sorted| - 1]) {
      var init := sorted[..|sorted| - 1];
      assert sorted == init + [sorted[|sorted| - 1]];
      InsertMultiset(init, k);
    }
  }

  lemma {:induction false} InsertOrdered(sorted: seq<BucketKey>, k: BucketKey)
    requires Ordered(sorted)
    ensures Ordered(Insert(sorted, k))
  {
    if sorted == [] {
    } else if Before(k, sorted[|sorted| - 1]) {
      var init := sorted[..|sorted| - 1];
      var last := sorted[|sorted| - 1];
      InsertOrdered(init, k);
      InsertMultiset(init, k);
      var r := Insert(init, k);
      forall i | 0 <= i < |r|
        ensures !Before(last, r[i])
      {
        assert r[i] in multiset(r);
        if r[i] != k {
          assert r[i] in multiset(init);
          var j :| 0 <= j < |init| && init[j] == r[i];
          assert sorted[j] == r[i];
        }
      }
      AppendOrdered(r, last);
    } else {
      AppendOrdered(sorted, k);
    }
  }

  lemma {:induction false} SortBucketsOrdered(keys: seq<BucketKey>)
    ensures Ordered(SortBuckets(keys))
  {
    if keys != [] {
      SortBucketsOrdered(keys[..|keys| - 1]);
      InsertOrdered(SortBuckets(keys[..|keys| - 1]), keys[|keys| - 1]);
    }
  }

  lemma {:induction false} SortBucketsMultiset(keys: seq<BucketKey>)
    ensures multiset(SortBuckets(keys)) == multiset(keys)
  {
    if keys != [] {
      var init := keys[..|keys| - 1];
      SortBucketsMultiset(init);
      InsertMultiset(SortBuckets(init), keys[|keys| - 1]);
      assert keys == init + [keys[|keys| - 1]];
    }
  }

  lemma {:induction false} RecordsForExact(keys: seq<BucketKey>, buckets: map<BucketKey, Metrics>, level: Level)
    ensures var r := RecordsFor(keys, buckets, level);
      |r| == |keys| && forall i :: 0 <= i < |r| ==> r[i] == ToRecord(keys[i], Get(buckets, keys[i]), level)
  {
    if keys != [] {
      RecordsForExact(keys[..|keys| - 1], buckets, level);
    }
  }

  function RecordKey(r: Record): BucketKey
  {
    BucketKey(r.processId, r.processName, r.timestamp)
  }

  /** The sorted keys are exactly the buckets. */
  lemma SortedKeys(t: Table)
    requires Valid(t)
    ensures var keys := SortBuckets(t.order);
      && |keys| == |t.order| && Ordered(keys)
      && (forall i :: 0 <= i < |keys| ==> keys[i] in t.buckets)
      && (forall k :: k in t.buckets ==> exists i :: 0 <= i < |keys| && keys[i] == k)
  {
    var keys := SortBuckets(t.order);
    SortBucketsOrdered(t.order);
    SortBucketsMultiset(t.order);
    assert |keys| == |t.order| by {
      assert |multiset(keys)| == |multiset(t.order)|;
    }
    forall i | 0 <= i < |keys|
      ensures keys[i] in t.buckets
    {
      assert keys[i] in multiset(t.order);
    }
    forall k | k in t.buckets
      ensures exists i :: 0 <= i < |keys| && keys[i] == k
    {
      assert k in multiset(keys);
    }
  }

  /** The records come out ordered by timestamp, then process id. */
  lemma RecordsOrdered(t: Table, level: Level)
    ensures var r := BuildRecords(t, level);
      forall i, j :: 0 <= i < j < |r| ==>
        r[i].timestamp < r[j].timestamp || (r[i].timestamp == r[j].timestamp && r[i].processId <= r[j].processId)
  {
    var keys := SortBuckets(t.order);
    SortBucketsOrdered(t.order);
    RecordsForExact(keys, t.buckets, level);
  }

  /** One record per bucket: as many records as buckets, and every bucket's
      key on a record; no buckets give no records. */
  lemma RecordsPerBucket(t: Table, level: Level)
    requires Valid(t)
    ensures var r := BuildRecords(t, level);
      && |r| == |t.order|
      && (forall k :: k in t.buckets <==> exists i :: 0 <= i < |r| && RecordKey(r[i]) == k)
      && (t.buckets == map[] <==> r == [])
  {
    var keys := SortBuckets(t.order);
    var r := BuildRecords(t, level);
    SortedKeys(t);
    RecordsForExact(keys, t.buckets, level);
    forall k
      ensures k in t.buckets <==> exists i :: 0 <= i < |r| && RecordKey(r[i]) == k
    {
      if k in t.buckets {
        var i :| 0 <= i < |keys| && keys[i] == k;
        assert RecordKey(r[i]) == k;
      }
    }
    if t.order != [] {
      assert t.order[0] in t.buckets;
    }
  }

  /** Each record is at the target level and holds every metric of its
      bucket, with the bucket's aggregate and its average. */
  lemma RecordsContents(t: Table, level: Level)
    requires Valid(t)
    ensures var r := BuildRecords(t, level);
      forall i :: 0 <= i < |r| ==>
        && RecordKey(r[i]) in t.buckets
        && r[i].level == level
        && r[i].metrics.Keys == t.buckets[RecordKey(r[i])].Keys
        && (forall m :: m in r[i].metrics ==> r[i].metrics[m] == Finalise(t.buckets[RecordKey(r[i])][m]))
  {
    var keys := SortBuckets(t.order);
    var r := BuildRecords(t, level);
    SortedKeys(t);
    RecordsForExact(keys, t.buckets, level);
    forall i | 0 <= i < |r|
      ensures RecordKey(r[i]) == keys[i] && keys[i] in t.buckets
      ensures r[i].level == level && r[i].metrics.Keys == t.buckets[keys[i]].Keys
      ensures forall m :: m in r[i].metrics ==> r[i].metrics[m] == Finalise(t.buckets[keys[i]][m])
    {
      ToRecordFacts(keys[i], t.buckets[keys[i]], level);
    }
  }

  /** A record carries its bucket's key, the level, and every metric of the
      bucket finalised. */
  lemma ToRecordFacts(k: BucketKey, metrics: Metrics, level: Level)
    ensures var r := ToRecord(k, metrics, level);
      && RecordKey(r) == k && r.level == level && r.metrics.Keys == metrics.Keys
      && forall m :: m in r.metrics ==> r.metrics[m] == Finalise(metrics[m])
  {
  }

  // ---------------------------------------------------------------------
  // The bucket dictionary in place

  /** The `buckets` dictionary of one aggregation pass. */
  class BucketTable {
    var order: seq<BucketKey>
    var buckets: map<BucketKey, Metrics>

    function State(): Table
      reads this
    {
      Table(order, buckets)
    }

    constructor()
      ensures State() == Initial
    {
      order := [];
      buckets := map[];
    }

    /** `MergeMetricValues` / `MergeMetricAggregations` into one bucket. */
    method Merge(key: BucketKey, source: map<string, Sample>)
      requires key in buckets
      modifies this
      ensures order == old(order)
      ensures buckets == old(buckets)[key := MergeSamples(old(buckets)[key], source)]
    {
      var start := buckets[key];
      var pending := source.Keys;
      while pending != {}
        invariant pending <= source.Keys
        invariant order == old(order) && key in buckets
        invariant buckets == old(buckets)[key := buckets[key]]
        invariant buckets[key] == map id | id in start.Keys + (source.Keys - pending) ::
          if id in source && id !in pending then Absorb(Find(start, id), source[id]) else start[id]
        decreases pending
      {
        var id := Pick(pending);
        assert Find(buckets[key], id) == Find(start, id);
        buckets := buckets[key := buckets[key][id := Absorb(Find(buckets[key], id), source[id])]];
        pending := pending - {id};
      }
      assert buckets[key] == MergeSamples(start, source);
    }

    /** The body of the row loop: a row with metrics is merged into its
        bucket, which is created on first use. */
    method AddRow(row: Row, target: Level)
      modifies this
      ensures State() == AfterRow(old(State()), row, target)
    {
      if row.metrics.None? || |row.metrics.value| == 0 {
        return;
      }
      var key := KeyOf(row, target);
      ghost var current := if key in buckets then buckets[key] else map[];
      if key !in buckets {
        buckets := buckets[key := map[]];
        order := order + [key];
      }
      Merge(key, row.metrics.value);
      assert buckets == old(buckets)[key := MergeSamples(current, row.metrics.value)];
    }

    /** The row loop over one batch. */
    method AddBatch(batch: seq<Row>, target: Level)
      modifies this
      ensures State() == AfterRows(old(State()), batch, target)
    {
      for j := 0 to |batch|
        invariant State() == AfterRows(old(State()), batch[..j], target)
      {
        PrefixOfPrefix(batch, j);
        AddRow(batch[j], target);
      }
      assert batch[..|batch|] == batch;
    }

    /** `BuildAggregatedRecords`. */
    method BuildAggregatedRecords(level: Level) returns (records: seq<Record>)
      requires Valid(State())
      ensures records == BuildRecords(State(), level)
    {
      if |buckets| == 0 {
        RecordsPerBucket(State(), level);
        return [];
      }
      var keys := SortBuckets(order);
      records := [];
      for i := 0 to |keys|
        invariant records == RecordsFor(keys[..i], buckets, level)
      {
        PrefixOfPrefix(keys, i);
        records := records + [ToRecord(keys[i], Get(buckets, keys[i]), level)];
      }
      assert keys[..|keys|] == keys;
    }
  }

  // ---------------------------------------------------------------------
  // Batches

  /** The `Where` on the timestamp: the window is open at both ends. */
  function InWindow(windowStart: int, windowEnd: int): Row -> bool
  {
    (r: Row) => windowStart < r.timestamp < windowEnd
  }

  /** The `Where` on the id: rows after the last one seen. */
  function After(lastSeenId: int): Row -> bool
  {
    (r: Row) => r.id > lastSeenId
  }

  /** The table's primary key order, as the `OrderBy(Id)` reads it: every
      id above `lo` and above the id before it. */
  predicate IdsAbove(rows: seq<Row>, lo: int)
  {
    rows == [] || (lo < rows[0].id && IdsAbove(rows[1..], rows[0].id))
  }

  /** `Take`. */
  function Take<T>(xs: seq<T>, n: nat): seq<T>
  {
    if |xs| <= n then xs else xs[..n]
  }

  lemma {:induction false} IdsAboveBound(rows: seq<Row>, lo: int)
    requires IdsAbove(rows, lo)
    ensures forall i :: 0 <= i < |rows| ==> lo < rows[i].id
  {
    if rows != [] {
      IdsAboveBound(rows[1..], rows[0].id);
      assert forall i :: 1 <= i < |rows| ==> rows[i] == rows[1..][i - 1];
    }
  }

  lemma {:induction false} IdsAboveWeaken(rows: seq<Row>, lo: int, lower: int)
    requires IdsAbove(rows, lo) && lower <= lo
    ensures IdsAbove(rows, lower)
  {
  }

  /** Leaving rows out keeps the id order. */
  lemma {:induction false} FilterKeepsOrder(rows: seq<Row>, lo: int, p: Row -> bool)
    requires IdsAbove(rows, lo)
    ensures IdsAbove(Filter(rows, p), lo)
  {
    if rows != [] {
      FilterKeepsOrder(rows[1..], rows[0].id, p);
      if !p(rows[0]) {
        IdsAboveWeaken(Filter(rows[1..], p), rows[0].id, lo);
      }
    }
  }

  /** In id order, the rows after the j-th are the suffix after it. */
  lemma {:induction false} AfterSuffix(rows: seq<Row>, lo: int, j: int)
    requires IdsAbove(rows, lo) && 0 <= j < |rows|
    ensures Filter(rows, After(rows[j].id)) == rows[j + 1..]
  {
    IdsAboveBound(rows[1..], rows[0].id);
    if j == 0 {
      FilterAll(rows[1..], After(rows[0].id));
    } else {
      AfterSuffix(rows[1..], rows[0].id, j - 1);
      assert rows[1..][j - 1] == rows[j];
      assert rows[1..][j..] == rows[j + 1..];
    }
  }

  lemma {:induction false} AfterRowsAppend(t: Table, a: seq<Row>, b: seq<Row>, target: Level)
    ensures AfterRows(t, a + b, target) == AfterRows(AfterRows(t, a, target), b, target)
  {
    if b == [] {
      assert a + b == a;
    } else {
      var init := b[..|b| - 1];
      var last := b[|b| - 1];
      AfterRowsAppend(t, a, init, target);
      assert (a + b)[..|a + b| - 1] == a + init;
      assert (a + b)[|a + b| - 1] == last;
      calc {
        AfterRows(t, a + b, target);
        AfterRow(AfterRows(t, a + init, target), last, target);
        AfterRow(AfterRows(AfterRows(t, a, target), init, target), last, target);
        AfterRows(AfterRows(t, a, target), b, target);
      }
    }
  }

  /** The window in id order, every row of it after id 0. */
  lemma WindowStart(rows: seq<Row>, windowStart: int, windowEnd: int)
    requires IdsAbove(rows, 0)
    ensures var window := Filter(rows, InWindow(windowStart, windowEnd));
      IdsAbove(window, 0) && Filter(window, After(0)) == window[0..]
  {
    var window := Filter(rows, InWindow(windowStart, windowEnd));
    FilterKeepsOrder(rows, 0, InWindow(windowStart, windowEnd));
    IdsAboveBound(window, 0);
    FilterAll(window, After(0));
  }

  /** The rows of the window, in id order. */
  function WindowRows(rows: seq<Row>, windowStart: int, windowEnd: int): seq<Row>
  {
    Filter(rows, InWindow(windowStart, windowEnd))
  }

  /** The batch query: at most batchSize rows of the window after the last
      id seen, in id order. */
  function NextRows(rows: seq<Row>, windowStart: int, windowEnd: int, lastSeenId: int, batchSize: nat): seq<Row>
  {
    Take(Filter(rows, Both(InWindow(windowStart, windowEnd), After(lastSeenId))), batchSize)
  }

  /** The batch query reads the window from the first row after the last
      id seen. */
  lemma NextRowsOfWindow(rows: seq<Row>, windowStart: int, windowEnd: int, window: seq<Row>, done: int, lastSeenId: int, batchSize: nat)
    requires window == WindowRows(rows, windowStart, windowEnd)
    requires 0 <= done <= |window| && Filter(window, After(lastSeenId)) == window[done..]
    ensures NextRows(rows, windowStart, windowEnd, lastSeenId, batchSize) == Take(window[done..], batchSize)
  {
    FilterOfFilter(rows, InWindow(windowStart, windowEnd), After(lastSeenId));
  }

  /** A prefix of a suffix is a slice. */
  lemma TakeSlice<T>(xs: seq<T>, done: int, n: nat)
    requires 0 <= done <= |xs|
    ensures var batch := Take(xs[done..], n);
      && done + |batch| <= |xs| && batch == xs[done..done + |batch|]
      && (|batch| == 0 <==> (n == 0 || done == |xs|))
  {
  }

  /** The next batch is the next run of at most batchSize rows of the
      window, empty only when the window is used up; the rows after its
      last id are the rest of the window. */
  lemma NextBatch(rows: seq<Row>, windowStart: int, windowEnd: int, window: seq<Row>, done: int, lastSeenId: int, batchSize: nat)
    requires window == WindowRows(rows, windowStart, windowEnd)
    requires IdsAbove(window, 0) && 0 <= done <= |window| && Filter(window, After(lastSeenId)) == window[done..]
    requires batchSize > 0
    ensures var batch := NextRows(rows, windowStart, windowEnd, lastSeenId, batchSize);
      && (|batch| == 0 <==> done == |window|)
      && done + |batch| <= |window|
      && batch == window[done..done + |batch|]
      && (|batch| > 0 ==> Filter(window, After(batch[|batch| - 1].id)) == window[done + |batch|..])
  {
    NextRowsOfWindow(rows, windowStart, windowEnd, window, done, lastSeenId, batchSize);
    TakeSlice(window, done, batchSize);
    var batch := Take(window[done..], batchSize);
    var k := |batch|;
    if k > 0 {
      assert batch[k - 1] == window[done + k - 1];
      AfterSuffix(window, 0, done + k - 1);
    }
  }

  /** The last id seen once the first `done` rows of the window are read
      (0 before the first batch). */
  function LastSeen(window: seq<Row>, done: int): int
    requires 0 <= done <= |window|
  {
    if done == 0 then 0 else window[done - 1].id
  }

  /** The next batch in terms of the rows read so far: empty only when the
      window is used up, otherwise the next slice of the window. */
  lemma BatchOfWindow(rows: seq<Row>, windowStart: int, windowEnd: int, done: int, batchSize: nat)
    requires IdsAbove(rows, 0)
    requires 0 <= done <= |WindowRows(rows, windowStart, windowEnd)| && batchSize > 0
    ensures var window := WindowRows(rows, windowStart, windowEnd);
      var batch := NextRows(rows, windowStart, windowEnd, LastSeen(window, done), batchSize);
      && (|batch| == 0 <==> done == |window|)
      && done + |batch| <= |window|
      && batch == window[done..done + |batch|]
  {
    var window := WindowRows(rows, windowStart, windowEnd);
    WindowStart(rows, windowStart, windowEnd);
    if done > 0 {
      AfterSuffix(window, 0, done - 1);
    }
    NextBatch(rows, windowStart, windowEnd, window, done, LastSeen(window, done), batchSize);
  }

  /** Merging a prefix of the window and then the next slice is merging the
      longer prefix, and the slice's last id is the last one seen. */
  lemma BatchStep(window: seq<Row>, done: int, batch: seq<Row>, target: Level)
    requires 0 <= done && done + |batch| <= |window| && batch == window[done..done + |batch|]
    ensures |batch| > 0 ==> LastSeen(window, done + |batch|) == batch[|batch| - 1].id
    ensures AfterRows(Initial, window[..done + |batch|], target)
      == AfterRows(AfterRows(Initial, window[..done], target), batch, target)
  {
    assert window[..done + |batch|] == window[..done] + batch;
    AfterRowsAppend(Initial, window[..done], batch, target);
  }

  /** The batch loop: the rows of every batch together are exactly the rows
      of the window, merged into the table in id order. */
  method FillInBatches(table: BucketTable, rows: seq<Row>, windowStart: int, windowEnd: int, batchSize: int, target: Level)
    requires IdsAbove(rows, 0)
    requires batchSize > 0 && table.State() == Initial
    modifies table
    ensures table.State() == AfterRows(Initial, WindowRows(rows, windowStart, windowEnd), target)
  {
    var lastSeenId := 0;
    ghost var window := WindowRows(rows, windowStart, windowEnd);
    ghost var done := 0;
    assert window[..0] == [];
    while true
      invariant 0 <= done <= |window| && lastSeenId == LastSeen(window, done)
      invariant table.State() == AfterRows(Initial, window[..done], target)
      decreases |window| - done
    {
      BatchOfWindow(rows, windowStart, windowEnd, done, batchSize);
      var batch := NextRows(rows, windowStart, windowEnd, lastSeenId, batchSize);
      if |batch| == 0 {
        break;
      }
      BatchStep(window, done, batch, target);
      table.AddBatch(batch, target);
      lastSeenId := batch[|batch| - 1].id;
      done := done + |batch|;
    }
    assert window[..done] == window;
  }

  /** `AggregateRawToMinuteInBatchesAsync` / `AggregateToHigherLevelInBatchesAsync`:
      the window's rows merged into buckets in batches, then the records. */
  method AggregateInBatches(rows: seq<Row>, windowStart: int, windowEnd: int, batchSize: int, target: Level)
    returns (records: seq<Record>)
    requires IdsAbove(rows, 0)
    requires batchSize > 0
    ensures records == BuildRecords(AfterRows(Initial, WindowRows(rows, windowStart, windowEnd), target), target)
  {
    var table := new BucketTable();
    FillInBatches(table, rows, windowStart, windowEnd, batchSize, target);
    AfterRowsKeepsValid(Initial, WindowRows(rows, windowStart, windowEnd), target);
    records := table.BuildAggregatedRecords(target);
  }

  /** Each metric of each record is the merge, in id order, of exactly the
      samples of that metric in the rows of its bucket. */
  lemma RecordsFromRows(rows: seq<Row>, target: Level)
    ensures var r := BuildRecords(AfterRows(Initial, rows, target), target);
      forall i, m :: 0 <= i < |r| && m in r[i].metrics ==>
        var a := Fold(SamplesFor(rows, target, RecordKey(r[i]), m));
        a.Some? && r[i].metrics[m] == Finalise(a.value)
  {
    var t := AfterRows(Initial, rows, target);
    AfterRowsKeepsValid(Initial, rows, target);
    RecordsContents(t, target);
    BucketEntries(rows, target);
    var r := BuildRecords(t, target);
    forall i, m | 0 <= i < |r| && m in r[i].metrics
      ensures Fold(SamplesFor(rows, target, RecordKey(r[i]), m)) == Some(t.buckets[RecordKey(r[i])][m])
    {
      assert Entry(t, RecordKey(r[i]), m) == Some(t.buckets[RecordKey(r[i])][m]);
    }
  }

  // ---------------------------------------------------------------------
  // Windows

  /** The rows a pass reads: start < timestamp < end. */
  datatype Window = Window(start: int, end: int)

  /** The window decision of `AggregateRawToMinuteAsync`,
      `AggregateMinuteToHourAsync` and `AggregateHourToDayAsync` as written.
      watermark is the newest record of the target level and earliest the
      oldest timestamp of the level below (0, `default(DateTime)`, when
      there is none); now is the clock. The window ends at the start of the
      current minute, hour or day and starts at the watermark. */
  function PlanWindowAsWritten(target: Level, watermark: int, earliest: int, now: int): Option<Window>
  {
    var windowEnd := Truncate(target, now);
    if watermark >= windowEnd then None
    else
      var windowStart := if watermark == 0 then earliest else watermark;
      if windowStart == 0 then None else Some(Window(windowStart, windowEnd))
  }

  /** The same decision starting after the watermark's own bucket, so that
      rows already merged into it are not read again. */
  function PlanWindow(target: Level, watermark: int, earliest: int, now: int): Option<Window>
  {
    var windowEnd := Truncate(target, now);
    if watermark >= windowEnd then None
    else
      var windowStart := if watermark == 0 then earliest else watermark + target.Length() - 1;
      if windowStart == 0 then None else Some(Window(windowStart, windowEnd))
  }

  /** Nothing is aggregated once the watermark reaches the window end, or
      when there is neither a watermark nor any data below; the current,
      unfinished bucket is never read. */
  lemma PlanWindowCases(target: Level, watermark: int, earliest: int, now: int)
    requires watermark >= 0
    ensures PlanWindow(target, watermark, earliest, now).None?
      <==> watermark >= Truncate(target, now) || (watermark == 0 && earliest == 0)
    ensures PlanWindowAsWritten(target, watermark, earliest, now).None?
      <==> watermark >= Truncate(target, now) || (watermark == 0 && earliest == 0)
    ensures var w := PlanWindow(target, watermark, earliest, now);
      w.Some? ==> (w.value.end == Truncate(target, now)
        && (watermark == 0 ==> w.value.start == earliest)
        && forall t :: w.value.start < t < w.value.end ==> Truncate(target, t) < Truncate(target, now))
  {
    var end := Truncate(target, now);
    forall t | t < end
      ensures Truncate(target, t) < end
    {
    }
  }

  /** As written, a pass reads again the rows of the watermark's own bucket:
      with a record at M, a row at M plus one tick lies in the window and
      falls into bucket M, which gets a second record. */
  lemma WatermarkBucketReadAgain(target: Level, m: int, earliest: int, now: int)
    requires m > 0 && m % target.Length() == 0 && now >= m + target.Length()
    ensures var w := PlanWindowAsWritten(target, m, earliest, now);
      && w.Some?
      && w.value.start < m + 1 < w.value.end
      && Truncate(target, m + 1) == m
  {
    NextBucket(target, m);
    TruncateProperties(target, m + target.Length(), now);
  }

  /** The bucket after b starts one length later, and b + 1 is still in b. */
  lemma NextBucket(level: Level, b: int)
    requires b % level.Length() == 0
    ensures Truncate(level, b + level.Length()) == b + level.Length()
    ensures Truncate(level, b + 1) == b
  {
    var n := level.Length();
    assert b + n == (b / n + 1) * n;
    ModOfMultiple(b / n + 1, n);
    TruncateUnique(level, b + n, b + n);
    TruncateUnique(level, b + 1, b);
  }

  /** The corrected window reads exactly the rows of the finished buckets
      after the watermark's. */
  lemma PlanWindowReadsNewBuckets(target: Level, watermark: int, earliest: int, now: int, t: int)
    requires watermark > 0 && watermark % target.Length() == 0
    requires PlanWindow(target, watermark, earliest, now).Some?
    ensures var w := PlanWindow(target, watermark, earliest, now).value;
      w.start < t < w.end <==> watermark < Truncate(target, t) < Truncate(target, now)
  {
    var w := PlanWindow(target, watermark, earliest, now).value;
    assert w.start == watermark + target.Length() - 1 && w.end == Truncate(target, now);
    AfterBucket(target, watermark, t);
    BeforeBucket(target, Truncate(target, now), t);
  }

  /** t is past bucket b's end iff t's bucket is after b. */
  lemma AfterBucket(level: Level, b: int, t: int)
    requires b % level.Length() == 0
    ensures t >= b + level.Length() <==> Truncate(level, t) > b
  {
    NextBucket(level, b);
    TruncateProperties(level, b + level.Length(), t);
    if Truncate(level, t) > b {
      TruncateStep(level, b, Truncate(level, t));
    }
  }

  /** t is before the bucket start e iff t's bucket is. */
  lemma BeforeBucket(level: Level, e: int, t: int)
    requires e % level.Length() == 0
    ensures t < e <==> Truncate(level, t) < e
  {
    if Truncate(level, t) < e {
      TruncateStep(level, Truncate(level, t), e);
    }
  }

  /** The worker with its configured batch size. */
  class Worker {
    const batchSize: int

    /** The constructor: an absent setting takes the default. */
    constructor(configured: Option<int>)
      ensures batchSize == NormalizeBatchSize(if configured.Some? then configured.value else DefaultAggregationBatchSize)
      ensures MinAggregationBatchSize <= batchSize <= MaxAggregationBatchSize
    {
      batchSize := NormalizeBatchSize(if configured.Some? then configured.value else DefaultAggregationBatchSize);
    }

    /** One level of a cycle: the window decision, then the batched pass;
        the records returned are the ones saved. */
    method AggregateLevel(rows: seq<Row>, target: Level, watermark: int, earliest: int, now: int)
      returns (records: seq<Record>)
      requires IdsAbove(rows, 0)
      requires batchSize >= MinAggregationBatchSize
      ensures var w := PlanWindow(target, watermark, earliest, now);
        && (w.None? ==> records == [])
        && (w.Some? ==> records == BuildRecords(AfterRows(Initial, WindowRows(rows, w.value.start, w.value.end), target), target))
    {
      var w := PlanWindow(target, watermark, earliest, now);
      if w.None? {
        return [];
      }
      records := AggregateInBatches(rows, w.value.start, w.value.end, batchSize, target);
    }
  }
}
