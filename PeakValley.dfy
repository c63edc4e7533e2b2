/** Peak and valley detection for the small charts: series statistics
    (range and a noise level), local extrema including flat plateaus, the
    prominence of an extremum within a window, the significance filter,
    and the thinning of markers so that they do not crowd the chart.

    Chart values are JavaScript numbers: `Double`, where only `Finite`
    values take part (`Number.isFinite`). A `null` or `undefined` entry of
    the data array is modelled as `NaN`, which every test treats alike. */
module PeakValley {
  import opened Common
  import opened Numbers

  // ---------------------------------------------------------------------
  // Configuration

  datatype PeakValleyConfig = PeakValleyConfig(
    prominenceWindow: int,
    noiseQuantile: real,
    prominenceNoiseFactor: real,
    prominenceRangeFactor: real,
    maxPerType: int,
    minXDistancePx: real,
    keepAfterXRatio: real,
    recencyWeight: real)

  /** `DEFAULT_PEAK_VALLEY_CONFIG`. */
  const DefaultConfig := PeakValleyConfig(6, 0.6, 3.0, 0.12, 2, 58.0, 0.35, 0.15)

  // ---------------------------------------------------------------------
  // Quantiles and sorting

  predicate SortedAsc(s: seq<real>)
  {
    forall i, j :: 0 <= i < j < |s| ==> s[i] <= s[j]
  }

  /** The index `quantileSorted` reads: `floor((n - 1) * q)` clamped to the sequence. */
  function QuantileIndex(n: nat, q: real): (k: int)
    requires n > 0
    ensures 0 <= k < n
    ensures q <= 0.0 ==> k == 0
    ensures q >= 1.0 ==> k == n - 1
  {
    var x := (n - 1) as real * q;
    if q <= 0.0 then
      MulNonNegative((n - 1) as real, -q);
      ClampInt(x.Floor, 0, n - 1)
    else if q >= 1.0 then
      MulNonNegative((n - 1) as real, q - 1.0);
      ClampInt(x.Floor, 0, n - 1)
    else
      ClampInt(x.Floor, 0, n - 1)
  }

  /** `quantileSorted`: 0 for no values, otherwise the value at the q-th position. */
  function QuantileSorted(sorted: seq<real>, q: real): (r: real)
    ensures sorted == [] ==> r == 0.0
    ensures sorted != [] ==> r in sorted
    ensures sorted != [] && q <= 0.0 ==> r == sorted[0]
    ensures sorted != [] && q >= 1.0 ==> r == sorted[|sorted| - 1]
  {
    if sorted == [] then 0.0 else sorted[QuantileIndex(|sorted|, q)]
  }

  /** On sorted values a higher quantile is never smaller. */
  lemma QuantileMonotone(sorted: seq<real>, q1: real, q2: real)
    requires SortedAsc(sorted) && q1 <= q2
    ensures QuantileSorted(sorted, q1) <= QuantileSorted(sorted, q2)
  {
    if sorted != [] {
      var n := |sorted|;
      var x1, x2 := (n - 1) as real * q1, (n - 1) as real * q2;
      MulNonNegative((n - 1) as real, q2 - q1);
      assert x2 - x1 == (n - 1) as real * (q2 - q1);
      assert x1.Floor as real <= x1 && x2 < x2.Floor as real + 1.0;
      assert x1.Floor <= x2.Floor;
      assert QuantileIndex(n, q1) <= QuantileIndex(n, q2);
    }
  }

  lemma MulNonNegative(a: real, b: real)
    requires a >= 0.0 && b >= 0.0
    ensures a * b >= 0.0
  {
  }

  /** On sorted values the quantile lies between the smallest and the largest. */
  lemma QuantileBetweenExtremes(sorted: seq<real>, q: real)
    requires SortedAsc(sorted) && sorted != []
    ensures sorted[0] <= QuantileSorted(sorted, q) <= sorted[|sorted| - 1]
  {
  }

  /** Inserts x into ascending values, before the first larger one. */
  function InsertAsc(x: real, s: seq<real>): (r: seq<real>)
    ensures |r| == |s| + 1
  {
    if s == [] then [x]
    else if x <= s[0] then [x] + s
    else [s[0]] + InsertAsc(x, s[1..])
  }

  lemma {:induction false} InsertAscPermutes(x: real, s: seq<real>)
    ensures multiset(InsertAsc(x, s)) == multiset(s) + multiset{x}
  {
    if s != [] && x > s[0] {
      InsertAscPermutes(x, s[1..]);
      assert s == [s[0]] + s[1..];
    }
  }

  lemma {:induction false} InsertAscSorted(x: real, s: seq<real>)
    requires SortedAsc(s)
    ensures SortedAsc(InsertAsc(x, s))
    ensures s != [] ==> InsertAsc(x, s)[0] == MinReal(x, s[0])
  {
    if s != [] && x > s[0] {
      var rest := InsertAsc(x, s[1..]);
      InsertAscSorted(x, s[1..]);
      if |s| > 1 {
        assert s[1..][0] == s[1];
      }
      ConsSorted(s[0], rest);
    }
  }

  /** Putting a value no larger than the head in front keeps values ascending. */
  lemma ConsSorted(h: real, s: seq<real>)
    requires SortedAsc(s) && (s != [] ==> h <= s[0])
    ensures SortedAsc([h] + s)
  {
    var r := [h] + s;
    forall i, j | 0 <= i < j < |r|
      ensures r[i] <= r[j]
    {
      assert r[j] == s[j - 1];
      if i > 0 {
        assert r[i] == s[i - 1];
      }
    }
  }

  /** `Array.prototype.sort((a, b) => a - b)` on finite values. */
  function SortAsc(s: seq<real>): (r: seq<real>)
    ensures |r| == |s|
  {
    if s == [] then [] else InsertAsc(s[0], SortAsc(s[1..]))
  }

  lemma {:induction false} SortAscSorted(s: seq<real>)
    ensures SortedAsc(SortAsc(s))
  {
    if s != [] {
      SortAscSorted(s[1..]);
      InsertAscSorted(s[0], SortAsc(s[1..]));
    }
  }

  lemma {:induction false} SortAscPermutes(s: seq<real>)
    ensures multiset(SortAsc(s)) == multiset(s)
  {
    if s != [] {
      SortAscPermutes(s[1..]);
      InsertAscPermutes(s[0], SortAsc(s[1..]));
      assert s == [s[0]] + s[1..];
    }
  }

  /** Sorting yields an ascending permutation of the input. */
  lemma SortAscCorrect(s: seq<real>)
    ensures SortedAsc(SortAsc(s))
    ensures multiset(SortAsc(s)) == multiset(s)
  {
    SortAscSorted(s);
    SortAscPermutes(s);
  }

  // ---------------------------------------------------------------------
  // Series statistics

  datatype SeriesStats = SeriesStats(min: real, max: real, range: real, noise: real)

  /** `data.filter(isFiniteNumber)`. */
  function Finites(data: seq<Double>): (r: seq<real>)
    ensures forall v :: v in r <==> Finite(v) in data
  {
    if data == [] then []
    else
      var init := data[..|data| - 1];
      var last := data[|data| - 1];
      assert data == init + [last];
      Finites(init) + (if last.Finite? then [last.value] else [])
  }

  function MinOf(xs: seq<real>): (m: real)
    requires xs != []
    ensures m in xs && forall v :: v in xs ==> m <= v
  {
    if |xs| == 1 then xs[0]
    else
      var init := xs[..|xs| - 1];
      assert xs == init + [xs[|xs| - 1]];
      var m := MinOf(init);
      if xs[|xs| - 1] < m then xs[|xs| - 1] else m
  }

  function MaxOf(xs: seq<real>): (m: real)
    requires xs != []
    ensures m in xs && forall v :: v in xs ==> v <= m
  {
    if |xs| == 1 then xs[0]
    else
      var init := xs[..|xs| - 1];
      assert xs == init + [xs[|xs| - 1]];
      var m := MaxOf(init);
      if xs[|xs| - 1] > m then xs[|xs| - 1] else m
  }

  /** Both neighbours at i - 1 and i are finite. */
  predicate FinitePair(data: seq<Double>, i: int)
  {
    1 <= i < |data| && data[i - 1].Finite? && data[i].Finite?
  }

  /** The absolute step between two finite neighbours. */
  function Step(data: seq<Double>, i: int): real
    requires FinitePair(data, i)
  {
    Abs(data[i].value - data[i - 1].value)
  }

  /** The absolute steps between adjacent finite values, in order. */
  function AdjacentDiffs(data: seq<Double>): (r: seq<real>)
    ensures forall x :: x in r ==> x >= 0.0
    ensures forall x :: x in r ==> exists i :: FinitePair(data, i) && x == Step(data, i)
    ensures forall i :: FinitePair(data, i) ==> Step(data, i) in r
  {
    if |data| < 2 then []
    else
      var init := data[..|data| - 1];
      var k := |data| - 1;
      var rest := AdjacentDiffs(init);
      assert forall i :: 1 <= i < k ==> (FinitePair(data, i) <==> FinitePair(init, i));
      assert forall i :: FinitePair(init, i) ==> Step(init, i) == Step(data, i);
      rest + (if FinitePair(data, k) then [Step(data, k)] else [])
  }

  /** `computeSeriesStats`: zeros when no value is finite; otherwise the
      extremes of the finite values, their difference, and the q-th quantile
      of the steps between adjacent finite values. */
  function Stats(data: seq<Double>, q: real): (st: SeriesStats)
    ensures Finites(data) == [] ==> st == SeriesStats(0.0, 0.0, 0.0, 0.0)
    ensures Finites(data) != [] ==>
      Finite(st.min) in data && Finite(st.max) in data
      && (forall i :: 0 <= i < |data| && data[i].Finite? ==> st.min <= data[i].value <= st.max)
    ensures st.range == st.max - st.min && st.range >= 0.0
    ensures st.noise >= 0.0
    ensures st.noise != 0.0 ==> exists i :: FinitePair(data, i) && st.noise == Step(data, i)
  {
    var finite := Finites(data);
    if finite == [] then SeriesStats(0.0, 0.0, 0.0, 0.0)
    else
      var lo := MinOf(finite);
      var hi := MaxOf(finite);
      assert forall i :: 0 <= i < |data| && data[i].Finite? ==> data[i].value in finite;
      SeriesStats(lo, hi, hi - lo, Noise(data, q))
  }

  /** The noise level: the q-th quantile of the ascending adjacent steps,
      which is 0 or one of those steps. */
  function Noise(data: seq<Double>, q: real): (noise: real)
    ensures noise >= 0.0
    ensures noise != 0.0 ==> exists i :: FinitePair(data, i) && noise == Step(data, i)
  {
    var diffs := AdjacentDiffs(data);
    var sorted := SortAsc(diffs);
    var noise := QuantileSorted(sorted, q);
    NoiseIsAStep(diffs, sorted, noise);
    noise
  }

  lemma NoiseIsAStep(diffs: seq<real>, sorted: seq<real>, noise: real)
    requires sorted == SortAsc(diffs)
    requires sorted != [] ==> noise in sorted
    ensures sorted != [] ==> noise in diffs
  {
    SortAscCorrect(diffs);
    if sorted != [] {
      assert noise in multiset(sorted);
    }
  }

  /** The noise level is the q-th quantile of the ascending steps, so it
      grows with q. */
  lemma NoiseMonotoneInQuantile(data: seq<Double>, q1: real, q2: real)
    requires q1 <= q2
    ensures Stats(data, q1).noise <= Stats(data, q2).noise
  {
    SortAscCorrect(AdjacentDiffs(data));
    QuantileMonotone(SortAsc(AdjacentDiffs(data)), q1, q2);
  }

  /** `computeSeriesStats`, with its two loops. */
  method ComputeSeriesStats(data: seq<Double>, q: real) returns (st: SeriesStats)
    ensures st == Stats(data, q)
  {
    var finite := Finites(data);
    if |finite| == 0 {
      return SeriesStats(0.0, 0.0, 0.0, 0.0);
    }
    var min, max := FiniteExtremes(finite);
    var diffs := CollectDiffs(data);
    var sorted := SortAsc(diffs);
    var noise := QuantileSorted(sorted, q);
    st := SeriesStats(min, max, max - min, noise);
  }

  /** The first loop of `computeSeriesStats`: the running minimum and
      maximum of the finite values. */
  method FiniteExtremes(finite: seq<real>) returns (min: real, max: real)
    requires finite != []
    ensures min == MinOf(finite) && max == MaxOf(finite)
  {
    min, max := finite[0], finite[0];
    for k := 0 to |finite|
      invariant min == MinOf(finite[..if k == 0 then 1 else k])
      invariant max == MaxOf(finite[..if k == 0 then 1 else k])
    {
      var v := finite[k];
      if k > 0 {
        assert finite[..k + 1] == finite[..k] + [v];
      }
      if v < min { min := v; }
      if v > max { max := v; }
    }
    assert finite[..|finite|] == finite;
  }

  /** The second loop of `computeSeriesStats`: the absolute steps between
      adjacent finite values. */
  method CollectDiffs(data: seq<Double>) returns (diffs: seq<real>)
    ensures diffs == AdjacentDiffs(data)
  {
    diffs := [];
    if |data| == 0 {
      return;
    }
    for i := 1 to |data|
      invariant diffs == AdjacentDiffs(data[..i])
    {
      assert data[..i + 1][..i] == data[..i];
      var a := data[i - 1];
      var b := data[i];
      if !a.Finite? || !b.Finite? {
        continue;
      }
      diffs := diffs + [Abs(b.value - a.value)];
    }
    assert data[..|data|] == data;
  }

  // ---------------------------------------------------------------------
  // Extrema candidates

  /** `'max'` or `'min'`. */
  datatype Kind = Max | Min

  /** a lies strictly beyond b in the kind's direction: above for a peak,
      below for a valley. */
  predicate Beyond(kind: Kind, a: real, b: real)
  {
    if kind == Max then a > b else a < b
  }

  /** `{ index, value, type }`. */
  datatype Candidate = Candidate(index: int, value: real, kind: Kind)

  predicate FiniteAt(data: seq<Double>, i: int)
  {
    0 <= i < |data| && data[i].Finite?
  }

  /** data[i] and both its neighbours are finite, and data[i] lies strictly
      beyond both neighbours. */
  predicate StrictExtremum(data: seq<Double>, i: int, kind: Kind)
  {
    1 <= i < |data| - 1 && FiniteAt(data, i - 1) && FiniteAt(data, i) && FiniteAt(data, i + 1)
    && Beyond(kind, data[i].value, data[i - 1].value)
    && Beyond(kind, data[i].value, data[i + 1].value)
  }

  /** data[a..b) is a run of at least two equal finite values, and the
      finite values just before and just after it both lie strictly on the
      other side: a flat top (`Max`) or a flat bottom (`Min`). */
  predicate Plateau(data: seq<Double>, a: int, b: int, kind: Kind)
  {
    1 <= a && a + 2 <= b < |data| && FiniteAt(data, a - 1) && FiniteAt(data, a) && FiniteAt(data, b)
    && (forall k :: a <= k < b ==> data[k] == data[a])
    && Beyond(kind, data[a].value, data[a - 1].value)
    && Beyond(kind, data[a].value, data[b].value)
  }

  /** The floor midpoint of the run data[a..b): `Math.floor((i + (j - 1)) / 2)`. */
  function Midpoint(a: int, b: int): (m: int)
    requires 0 <= a < b
    ensures a <= m < b
  {
    (a + b - 1) / 2
  }

  /** What a candidate may be: a strict extremum, or the midpoint of a
      plateau, carrying the value found there. */
  ghost predicate IsCandidate(data: seq<Double>, c: Candidate)
  {
    0 <= c.index < |data| && data[c.index] == Finite(c.value)
    && (StrictExtremum(data, c.index, c.kind)
        || exists a, b :: Plateau(data, a, b, c.kind) && c.index == Midpoint(a, b))
  }

  /** The inner loop of `findExtremaCandidates`: the end j of the run of
      values equal to data[i], stopping at the last index. */
  method PlateauEnd(data: seq<Double>, i: int) returns (j: int)
    requires 1 <= i < |data| - 1 && data[i].Finite? && data[i + 1] == data[i]
    ensures i + 1 <= j <= |data| - 1
    ensures forall k :: i <= k < j ==> data[k] == data[i]
    ensures j < |data| - 1 ==> data[j] != data[i]
  {
    j := i + 1;
    while j < |data| - 1 && data[j] == data[i]
      invariant i + 1 <= j <= |data| - 1
      invariant forall k :: i <= k < j ==> data[k] == data[i]
    {
      j := j + 1;
    }
  }

  /** Inside a run of equal values nothing is a strict extremum and no
      plateau starts after its first index. */
  lemma RunInterior(data: seq<Double>, i: int, j: int)
    requires 1 <= i < |data| - 1 && data[i + 1] == data[i]
    requires i + 1 <= j <= |data| - 1
    requires forall k :: i <= k < j ==> data[k] == data[i]
    ensures forall k, kind :: i <= k < j ==> !StrictExtremum(data, k, kind)
    ensures forall a, b, kind :: i < a < j ==> !Plateau(data, a, b, kind)
  {
    assert forall a :: i < a < j ==> data[a - 1] == data[a];
    forall k, kind | i <= k < j
      ensures !StrictExtremum(data, k, kind)
    {
      assert data[k + 1] == data[k] || data[k - 1] == data[k];
    }
  }

  /** A plateau starting where the scan starts ends where the scan ends. */
  lemma PlateauEndsAtScanEnd(data: seq<Double>, i: int, j: int, b: int, kind: Kind)
    requires Plateau(data, i, b, kind)
    requires i + 1 <= j <= |data| - 1
    requires forall k :: i <= k < j ==> data[k] == data[i]
    requires j < |data| - 1 ==> data[j] != data[i]
    ensures b == j
  {
    assert data[b] != data[i];
    assert j < |data| - 1 ==> !(i <= j < b);
  }

  /** `findExtremaCandidates`: scans left to right, reporting every strict
      extremum and the floor midpoint of every plateau, with increasing
      indices. */
  method FindExtremaCandidates(data: seq<Double>) returns (result: seq<Candidate>)
    ensures |data| < 3 ==> result == []
    ensures forall c :: c in result ==> IsCandidate(data, c) && 1 <= c.index <= |data| - 2
    ensures forall p, q :: 0 <= p < q < |result| ==> result[p].index < result[q].index
    ensures forall i, kind :: StrictExtremum(data, i, kind) ==> Candidate(i, data[i].value, kind) in result
    ensures forall a, b, kind :: Plateau(data, a, b, kind) ==>
      Candidate(Midpoint(a, b), data[a].value, kind) in result
  {
    result := [];
    if |data| < 3 {
      return;
    }
    var i := 1;
    while i < |data| - 1
      invariant 1 <= i <= |data| - 1
      invariant forall c :: c in result ==> IsCandidate(data, c) && 1 <= c.index < i
      invariant forall p, q :: 0 <= p < q < |result| ==> result[p].index < result[q].index
      invariant forall k, kind :: k < i && StrictExtremum(data, k, kind) ==>
        Candidate(k, data[k].value, kind) in result
      invariant forall a, b, kind :: a < i && Plateau(data, a, b, kind) ==>
        Candidate(Midpoint(a, b), data[a].value, kind) in result
      decreases |data| - i
    {
      var prev, curr, next := data[i - 1], data[i], data[i + 1];
      if !prev.Finite? || !curr.Finite? || !next.Finite? {
        i := i + 1;
        continue;
      }
      if curr == next {
        var j := PlateauEnd(data, i);
        result, i := PlateauStep(data, result, i, j);
        continue;
      }
      if curr.value > prev.value && curr.value > next.value {
        result := result + [Candidate(i, curr.value, Max)];
      } else if curr.value < prev.value && curr.value < next.value {
        result := result + [Candidate(i, curr.value, Min)];
      }
      assert forall a, b, kind :: a == i && Plateau(data, a, b, kind) ==> data[i + 1] == data[i];
      i := i + 1;
    }
  }

  /** The plateau branch of the scan: reports the run data[i..j) when both
      neighbours lie strictly on the same side of it, and moves on to j. */
  method PlateauStep(data: seq<Double>, result: seq<Candidate>, i: int, j: int)
    returns (result': seq<Candidate>, i': int)
    requires 1 <= i < |data| - 1 && FiniteAt(data, i - 1) && data[i].Finite? && data[i + 1] == data[i]
    requires i + 1 <= j <= |data| - 1
    requires forall k :: i <= k < j ==> data[k] == data[i]
    requires j < |data| - 1 ==> data[j] != data[i]
    requires forall c :: c in result ==> IsCandidate(data, c) && 1 <= c.index < i
    requires forall p, q :: 0 <= p < q < |result| ==> result[p].index < result[q].index
    requires forall k, kind :: k < i && StrictExtremum(data, k, kind) ==>
      Candidate(k, data[k].value, kind) in result
    requires forall a, b, kind :: a < i && Plateau(data, a, b, kind) ==>
      Candidate(Midpoint(a, b), data[a].value, kind) in result
    ensures i' == j
    ensures forall c :: c in result' ==> IsCandidate(data, c) && 1 <= c.index < i'
    ensures forall p, q :: 0 <= p < q < |result'| ==> result'[p].index < result'[q].index
    ensures forall k, kind :: k < i' && StrictExtremum(data, k, kind) ==>
      Candidate(k, data[k].value, kind) in result'
    ensures forall a, b, kind :: a < i' && Plateau(data, a, b, kind) ==>
      Candidate(Midpoint(a, b), data[a].value, kind) in result'
  {
    var curr := data[i].value;
    var left, right := data[i - 1], data[j];
    result' := result;
    if left.Finite? && right.Finite? {
      if curr > left.value && curr > right.value {
        assert Plateau(data, i, j, Max);
        result' := result + [Candidate(Midpoint(i, j), curr, Max)];
      } else if curr < left.value && curr < right.value {
        assert Plateau(data, i, j, Min);
        result' := result + [Candidate(Midpoint(i, j), curr, Min)];
      }
    }
    RunInterior(data, i, j);
    forall b, kind | Plateau(data, i, b, kind)
      ensures Candidate(Midpoint(i, b), data[i].value, kind) in result'
    {
      PlateauEndsAtScanEnd(data, i, j, b, kind);
    }
    i' := j;
  }

  // ---------------------------------------------------------------------
  // Prominence

  /** The least finite value among data[lo..hi); `None` where the source's
      running minimum stays at its `Infinity` start value. */
  function FiniteMinIn(data: seq<Double>, lo: int, hi: int): (m: Option<real>)
    requires 0 <= lo && hi <= |data|
    ensures m.None? <==> forall k :: lo <= k < hi ==> !data[k].Finite?
    ensures m.Some? ==> exists k :: lo <= k < hi && data[k] == Finite(m.value)
    ensures m.Some? ==> forall k :: lo <= k < hi && data[k].Finite? ==> m.value <= data[k].value
    decreases hi - lo
  {
    if hi <= lo then None
    else
      var m := FiniteMinIn(data, lo, hi - 1);
      var v := data[hi - 1];
      if v.Finite? && (m.None? || v.value < m.value) then Some(v.value) else m
  }

  /** The greatest finite value among data[lo..hi); `None` where the running
      maximum stays at `-Infinity`. */
  function FiniteMaxIn(data: seq<Double>, lo: int, hi: int): (m: Option<real>)
    requires 0 <= lo && hi <= |data|
    ensures m.None? <==> forall k :: lo <= k < hi ==> !data[k].Finite?
    ensures m.Some? ==> exists k :: lo <= k < hi && data[k] == Finite(m.value)
    ensures m.Some? ==> forall k :: lo <= k < hi && data[k].Finite? ==> data[k].value <= m.value
    decreases hi - lo
  {
    if hi <= lo then None
    else
      var m := FiniteMaxIn(data, lo, hi - 1);
      var v := data[hi - 1];
      if v.Finite? && (m.None? || v.value > m.value) then Some(v.value) else m
  }

  /** The first index of the window: `Math.max(0, index - windowSize)`. */
  function WindowStart(index: int, w: int): int
  {
    if index - w > 0 then index - w else 0
  }

  /** The last index of the window: `Math.min(data.length - 1, index + windowSize)`. */
  function WindowEnd(n: int, index: int, w: int): int
  {
    if index + w < n - 1 then index + w else n - 1
  }

  /** The running extreme a side of the window ends with: the minimum for
      a peak, the maximum for a valley. */
  function SideExtreme(data: seq<Double>, kind: Kind, lo: int, hi: int): Option<real>
    requires 0 <= lo && hi <= |data|
  {
    if kind == Max then FiniteMinIn(data, lo, hi) else FiniteMaxIn(data, lo, hi)
  }

  /** How far the point rises above (peak) or sinks below (valley) a value. */
  function Drop(kind: Kind, curr: real, v: real): real
  {
    if kind == Max then curr - v else v - curr
  }

  /** `computeProminence`: 0 unless data[index] is finite; for a peak the
      smaller of the drops to the lowest finite value on the left part of the
      window (up to and including the point) and on the right part (from
      the point on); mirrored for a valley. */
  function Prominence(data: seq<Double>, index: int, kind: Kind, w: int): (p: real)
    ensures !FiniteAt(data, index) ==> p == 0.0
    ensures p >= 0.0
  {
    if !FiniteAt(data, index) then 0.0
    else
      var curr := data[index].value;
      var start, end := WindowStart(index, w), WindowEnd(|data|, index, w);
      var l, r := SideExtreme(data, kind, start, index + 1), SideExtreme(data, kind, index, end + 1);
      if l.None? || r.None? then 0.0
      else
        assert start <= index < end + 1;
        MinReal(Drop(kind, curr, l.value), Drop(kind, curr, r.value))
  }

  /** Some finite value of data[lo..hi] (inclusive) lies strictly below the
      point for a peak (above it for a valley). */
  predicate DropWithin(data: seq<Double>, index: int, kind: Kind, lo: int, hi: int)
    requires FiniteAt(data, index)
  {
    exists k :: lo <= k <= hi && FiniteAt(data, k) && Beyond(kind, data[index].value, data[k].value)
  }

  /** One side of the window has a positive drop exactly when it holds a
      value strictly beyond the point. */
  lemma SideDropPositiveIff(data: seq<Double>, index: int, kind: Kind, lo: int, hi: int)
    requires FiniteAt(data, index) && 0 <= lo && hi < |data|
    ensures var m := SideExtreme(data, kind, lo, hi + 1);
      (m.Some? && Drop(kind, data[index].value, m.value) > 0.0) <==> DropWithin(data, index, kind, lo, hi)
  {
    var m := SideExtreme(data, kind, lo, hi + 1);
    if m.Some? {
      var k :| lo <= k < hi + 1 && data[k] == Finite(m.value);
      assert Drop(kind, data[index].value, m.value) > 0.0 ==> DropWithin(data, index, kind, lo, hi);
    }
  }

  /** A finite point has positive prominence exactly when the window holds a
      strictly lower value (higher, for a valley) on each side of it. */
  lemma ProminencePositiveIff(data: seq<Double>, index: int, kind: Kind, w: int)
    requires FiniteAt(data, index)
    ensures Prominence(data, index, kind, w) > 0.0 <==>
      DropWithin(data, index, kind, WindowStart(index, w), index)
      && DropWithin(data, index, kind, index, WindowEnd(|data|, index, w))
  {
    var start, end := WindowStart(index, w), WindowEnd(|data|, index, w);
    SideDropPositiveIff(data, index, kind, start, index);
    SideDropPositiveIff(data, index, kind, index, end);
  }

  /** A prominence never exceeds the range of the series. */
  lemma ProminenceAtMostRange(data: seq<Double>, index: int, kind: Kind, w: int, q: real)
    ensures Prominence(data, index, kind, w) <= Stats(data, q).range
  {
    if FiniteAt(data, index) && Prominence(data, index, kind, w) > 0.0 {
      var st := Stats(data, q);
      assert Finite(data[index].value) in data;
      var start, end := WindowStart(index, w), WindowEnd(|data|, index, w);
      var l := SideExtreme(data, kind, start, index + 1);
      var k :| start <= k < index + 1 && data[k] == Finite(l.value);
      assert st.min <= l.value <= st.max;
    }
  }

  /** One running-minimum loop of `computeProminence` over data[lo..hi). */
  method ScanFiniteMin(data: seq<Double>, lo: int, hi: int) returns (m: Option<real>)
    requires 0 <= lo && hi <= |data|
    ensures m == FiniteMinIn(data, lo, hi)
  {
    m := None;
    var i := lo;
    while i < hi
      invariant lo <= i && (lo <= hi ==> i <= hi)
      invariant m == FiniteMinIn(data, lo, if i < hi then i else hi)
      decreases hi - i
    {
      var v := data[i];
      if v.Finite? && (m.None? || v.value < m.value) {
        m := Some(v.value);
      }
      i := i + 1;
    }
  }

  /** One running-maximum loop of `computeProminence` over data[lo..hi). */
  method ScanFiniteMax(data: seq<Double>, lo: int, hi: int) returns (m: Option<real>)
    requires 0 <= lo && hi <= |data|
    ensures m == FiniteMaxIn(data, lo, hi)
  {
    m := None;
    var i := lo;
    while i < hi
      invariant lo <= i && (lo <= hi ==> i <= hi)
      invariant m == FiniteMaxIn(data, lo, if i < hi then i else hi)
      decreases hi - i
    {
      var v := data[i];
      if v.Finite? && (m.None? || v.value > m.value) {
        m := Some(v.value);
      }
      i := i + 1;
    }
  }

  /** `computeProminence`, with its window loops. */
  method ComputeProminence(data: seq<Double>, index: int, kind: Kind, w: int) returns (p: real)
    ensures p == Prominence(data, index, kind, w)
  {
    if !(0 <= index < |data|) || !data[index].Finite? {
      return 0.0;
    }
    var curr := data[index].value;
    var start, end := WindowStart(index, w), WindowEnd(|data|, index, w);
    var left, right;
    if kind == Max {
      left := ScanFiniteMin(data, start, index + 1);
      right := ScanFiniteMin(data, index, end + 1);
    } else {
      left := ScanFiniteMax(data, start, index + 1);
      right := ScanFiniteMax(data, index, end + 1);
    }
    if left.None? || right.None? {
      return 0.0;
    }
    p := MinReal(Drop(kind, curr, left.value), Drop(kind, curr, right.value));
  }

  // ---------------------------------------------------------------------
  // Significance

  /** A candidate with its prominence attached. */
  datatype Extremum = Extremum(index: int, value: real, kind: Kind, prominence: real)

  /** `Math.max(noise * prominenceNoiseFactor, range * prominenceRangeFactor)`. */
  function Threshold(st: SeriesStats, cfg: PeakValleyConfig): real
  {
    MaxReal(st.noise * cfg.prominenceNoiseFactor, st.range * cfg.prominenceRangeFactor)
  }

  function WithProminence(data: seq<Double>, cfg: PeakValleyConfig, c: Candidate): Extremum
  {
    Extremum(c.index, c.value, c.kind, Prominence(data, c.index, c.kind, cfg.prominenceWindow))
  }

  predicate Significant(e: Extremum, threshold: real)
  {
    e.prominence >= threshold && e.prominence > 0.0
  }

  /** `filterSignificantExtrema`: the candidates with their prominence, in
      order, keeping those whose prominence is positive and reaches the
      threshold. */
  function FilterSignificantExtrema(candidates: seq<Candidate>, data: seq<Double>,
                                    st: SeriesStats, cfg: PeakValleyConfig): (r: seq<Extremum>)
    ensures |r| <= |candidates|
  {
    if candidates == [] then []
    else
      var e := WithProminence(data, cfg, candidates[0]);
      var rest := FilterSignificantExtrema(candidates[1..], data, st, cfg);
      if Significant(e, Threshold(st, cfg)) then [e] + rest else rest
  }

  /** An extremum is kept exactly when it is a candidate carrying its
      prominence, and that prominence is positive and reaches the threshold. */
  lemma {:induction false} SignificantIff(candidates: seq<Candidate>, data: seq<Double>,
                                          st: SeriesStats, cfg: PeakValleyConfig, e: Extremum)
    ensures e in FilterSignificantExtrema(candidates, data, st, cfg) <==>
      (exists c :: c in candidates && e == WithProminence(data, cfg, c))
      && Significant(e, Threshold(st, cfg))
  {
    if candidates != [] {
      SignificantIff(candidates[1..], data, st, cfg, e);
      assert candidates == [candidates[0]] + candidates[1..];
    }
  }

  /** A kept extremum's prominence is at most the range of the series. */
  lemma SignificantWithinRange(candidates: seq<Candidate>, data: seq<Double>,
                               cfg: PeakValleyConfig, e: Extremum)
    requires e in FilterSignificantExtrema(candidates, data, Stats(data, cfg.noiseQuantile), cfg)
    ensures 0.0 < e.prominence <= Stats(data, cfg.noiseQuantile).range
  {
    SignificantIff(candidates, data, Stats(data, cfg.noiseQuantile), cfg, e);
    var c :| c in candidates && e == WithProminence(data, cfg, c);
    ProminenceAtMostRange(data, c.index, c.kind, cfg.prominenceWindow, cfg.noiseQuantile);
  }

  // ---------------------------------------------------------------------
  // Marker thinning

  /** A chart marker: `{ id, index, type, prominence? }`; an absent
      prominence is `NaN`. */
  datatype Marker = Marker(id: int, index: int, kind: Kind, prominence: Double)

  /** A plotted point; only its x coordinate matters here. */
  datatype ChartPoint = ChartPoint(x: real, y: real)

  /** `scoreMarker`: the prominence (0 when absent), raised by up to
      `recencyWeight` for markers further right. */
  function Score(m: Marker, pointsLength: int, recencyWeight: real): real
  {
    var prominence := if m.prominence.Finite? then m.prominence.value else 0.0;
    var recency :=
      if pointsLength > 1 then ClampReal(m.index as real / (pointsLength - 1) as real, 0.0, 1.0)
      else 0.0;
    prominence * (1.0 + recencyWeight * recency)
  }

  lemma MulMonotone(c: real, a: real, b: real)
    requires c >= 0.0 && a <= b
    ensures c * a <= c * b
  {
    MulNonNegative(c, b - a);
  }

  /** With equal prominence and a non-negative recency weight, a marker
      further right never scores lower. */
  lemma ScoreFavoursRecent(m1: Marker, m2: Marker, pointsLength: int, recencyWeight: real)
    requires m1.prominence == m2.prominence && m1.index <= m2.index
    requires recencyWeight >= 0.0 && (m1.prominence.Finite? ==> m1.prominence.value >= 0.0)
    ensures Score(m1, pointsLength, recencyWeight) <= Score(m2, pointsLength, recencyWeight)
  {
    if pointsLength > 1 {
      var d := (pointsLength - 1) as real;
      var x1, x2 := m1.index as real / d, m2.index as real / d;
      assert x1 <= x2 by {
        assert x2 - x1 == (m2.index - m1.index) as real / d;
      }
      var r1, r2 := ClampReal(x1, 0.0, 1.0), ClampReal(x2, 0.0, 1.0);
      assert r1 <= r2;
      MulMonotone(recencyWeight, r1, r2);
      var prominence := if m1.prominence.Finite? then m1.prominence.value else 0.0;
      MulMonotone(prominence, 1.0 + recencyWeight * r1, 1.0 + recencyWeight * r2);
    }
  }

  /** a may precede b in the ranking: a higher score, or an equal score and
      an index at least as large (the comparator of `pickType`). */
  predicate RankedBefore(a: Marker, b: Marker, n: int, rw: real)
  {
    Score(a, n, rw) > Score(b, n, rw) || (Score(a, n, rw) == Score(b, n, rw) && a.index >= b.index)
  }

  predicate SortedByRank(s: seq<Marker>, n: int, rw: real)
  {
    forall i, j :: 0 <= i < j < |s| ==> RankedBefore(s[i], s[j], n, rw)
  }

  /** Inserts m before the first marker it ranks at least as high as. */
  function InsertByRank(m: Marker, s: seq<Marker>, n: int, rw: real): (r: seq<Marker>)
    ensures |r| == |s| + 1
  {
    if s == [] then [m]
    else if RankedBefore(m, s[0], n, rw) then [m] + s
    else [s[0]] + InsertByRank(m, s[1..], n, rw)
  }

  /** The `sort` of `pickType`: by score, highest first, then by index,
      rightmost first. Equal markers keep their order. */
  function SortByRank(s: seq<Marker>, n: int, rw: real): (r: seq<Marker>)
    ensures |r| == |s|
  {
    if s == [] then [] else InsertByRank(s[0], SortByRank(s[1..], n, rw), n, rw)
  }

  lemma {:induction false} InsertByRankPermutes(m: Marker, s: seq<Marker>, n: int, rw: real)
    ensures multiset(InsertByRank(m, s, n, rw)) == multiset(s) + multiset{m}
  {
    if s != [] && !RankedBefore(m, s[0], n, rw) {
      InsertByRankPermutes(m, s[1..], n, rw);
      assert s == [s[0]] + s[1..];
    }
  }

  /** Putting a marker that ranks at least as high as the head in front
      keeps the ranking. */
  lemma ConsRanked(h: Marker, s: seq<Marker>, n: int, rw: real)
    requires SortedByRank(s, n, rw) && (s != [] ==> RankedBefore(h, s[0], n, rw))
    ensures SortedByRank([h] + s, n, rw)
  {
    var r := [h] + s;
    forall i, j | 0 <= i < j < |r|
      ensures RankedBefore(r[i], r[j], n, rw)
    {
      assert r[j] == s[j - 1];
      if i > 0 {
        assert r[i] == s[i - 1];
      }
    }
  }

  lemma {:induction false} InsertByRankSorted(m: Marker, s: seq<Marker>, n: int, rw: real)
    requires SortedByRank(s, n, rw)
    ensures SortedByRank(InsertByRank(m, s, n, rw), n, rw)
    ensures s != [] ==> InsertByRank(m, s, n, rw)[0] in {m, s[0]}
  {
    if s != [] && !RankedBefore(m, s[0], n, rw) {
      var rest := InsertByRank(m, s[1..], n, rw);
      InsertByRankSorted(m, s[1..], n, rw);
      if |s| > 1 {
        assert s[1..][0] == s[1];
      }
      ConsRanked(s[0], rest, n, rw);
    }
  }

  /** The ranking is a permutation in rank order. */
  lemma {:induction false} SortByRankCorrect(s: seq<Marker>, n: int, rw: real)
    ensures SortedByRank(SortByRank(s, n, rw), n, rw)
    ensures multiset(SortByRank(s, n, rw)) == multiset(s)
  {
    if s != [] {
      SortByRankCorrect(s[1..], n, rw);
      InsertByRankSorted(s[0], SortByRank(s[1..], n, rw), n, rw);
      InsertByRankPermutes(s[0], SortByRank(s[1..], n, rw), n, rw);
      assert s == [s[0]] + s[1..];
    }
  }

  /** The marker's index is a point of the chart. */
  predicate OnChart(points: seq<ChartPoint>, m: Marker)
  {
    0 <= m.index < |points|
  }

  function X(points: seq<ChartPoint>, m: Marker): real
    requires OnChart(points, m)
  {
    points[m.index].x
  }

  /** `selected.some(...)`: a selected marker lies less than `minDist` away in x. */
  predicate TooClose(points: seq<ChartPoint>, selected: seq<Marker>, m: Marker, minDist: real)
    requires OnChart(points, m) && forall s :: s in selected ==> OnChart(points, s)
  {
    exists s :: s in selected && Abs(X(points, s) - X(points, m)) < minDist
  }

  /** Same-kind markers pairwise at least `minDist` apart in x. */
  predicate Spaced(points: seq<ChartPoint>, sel: seq<Marker>, minDist: real)
    requires forall s :: s in sel ==> OnChart(points, s)
  {
    forall p, q :: 0 <= p < q < |sel| ==> Abs(X(points, sel[p]) - X(points, sel[q])) >= minDist
  }

  /** The selection after the loop of `pickType` has looked at the first k
      ranked candidates: a candidate is taken unless the selection is full or
      it is too close to one already taken. */
  function Greedy(points: seq<ChartPoint>, ranked: seq<Marker>, k: nat,
                  maxPerType: int, minDist: real): (sel: seq<Marker>)
    requires k <= |ranked| && forall m :: m in ranked ==> OnChart(points, m)
    ensures forall s :: s in sel ==> s in ranked[..k] && OnChart(points, s)
  {
    if k == 0 then []
    else
      var sel := Greedy(points, ranked, k - 1, maxPerType, minDist);
      var m := ranked[k - 1];
      assert ranked[..k] == ranked[..k - 1] + [m];
      if |sel| >= maxPerType || TooClose(points, sel, m, minDist) then sel else sel + [m]
  }

  /** Once the selection is full it no longer changes. */
  lemma {:induction false} GreedyStaysFull(points: seq<ChartPoint>, ranked: seq<Marker>, k: nat, k': nat,
                                           maxPerType: int, minDist: real)
    requires k <= k' <= |ranked| && forall m :: m in ranked ==> OnChart(points, m)
    requires |Greedy(points, ranked, k, maxPerType, minDist)| >= maxPerType
    ensures Greedy(points, ranked, k', maxPerType, minDist) == Greedy(points, ranked, k, maxPerType, minDist)
    decreases k' - k
  {
    if k < k' {
      GreedyStaysFull(points, ranked, k, k' - 1, maxPerType, minDist);
    }
  }

  /** The selection holds at most `maxPerType` markers. */
  lemma {:induction false} GreedyBounded(points: seq<ChartPoint>, ranked: seq<Marker>, k: nat,
                                         maxPerType: int, minDist: real)
    requires k <= |ranked| && forall m :: m in ranked ==> OnChart(points, m)
    ensures var sel := Greedy(points, ranked, k, maxPerType, minDist);
      sel == [] || |sel| <= maxPerType
  {
    if k > 0 {
      GreedyBounded(points, ranked, k - 1, maxPerType, minDist);
    }
  }

  /** Selected markers are pairwise at least `minDist` apart in x. */
  lemma {:induction false} GreedySpaced(points: seq<ChartPoint>, ranked: seq<Marker>, k: nat,
                                        maxPerType: int, minDist: real)
    requires k <= |ranked| && forall m :: m in ranked ==> OnChart(points, m)
    ensures Spaced(points, Greedy(points, ranked, k, maxPerType, minDist), minDist)
  {
    if k > 0 {
      var sel := Greedy(points, ranked, k - 1, maxPerType, minDist);
      GreedySpaced(points, ranked, k - 1, maxPerType, minDist);
      var m := ranked[k - 1];
      if !(|sel| >= maxPerType || TooClose(points, sel, m, minDist)) {
        var r := sel + [m];
        forall p, q | 0 <= p < q < |r|
          ensures Abs(X(points, r[p]) - X(points, r[q])) >= minDist
        {
          if q == |sel| {
            assert r[p] in sel;
          }
        }
      }
    }
  }

  /** Every candidate looked at that was not taken was refused for a reason:
      the selection is full, or a selected marker is too close to it. */
  lemma {:induction false} GreedyMaximal(points: seq<ChartPoint>, ranked: seq<Marker>, k: nat,
                                         maxPerType: int, minDist: real)
    requires k <= |ranked| && forall m :: m in ranked ==> OnChart(points, m)
    ensures var sel := Greedy(points, ranked, k, maxPerType, minDist);
      forall t :: 0 <= t < k ==>
        ranked[t] in sel || |sel| >= maxPerType || TooClose(points, sel, ranked[t], minDist)
  {
    if k > 0 {
      GreedyMaximal(points, ranked, k - 1, maxPerType, minDist);
      var sel := Greedy(points, ranked, k - 1, maxPerType, minDist);
      var r := Greedy(points, ranked, k, maxPerType, minDist);
      forall t | 0 <= t < k
        ensures ranked[t] in r || |r| >= maxPerType || TooClose(points, r, ranked[t], minDist)
      {
        if t < k - 1 && TooClose(points, sel, ranked[t], minDist) {
          var s :| s in sel && Abs(X(points, s) - X(points, ranked[t])) < minDist;
          assert s in r;
        }
      }
    }
  }

  /** The selection is taken in rank order. */
  lemma {:induction false} GreedyInRankOrder(points: seq<ChartPoint>, ranked: seq<Marker>, k: nat,
                                             maxPerType: int, minDist: real, n: int, rw: real)
    requires k <= |ranked| && forall m :: m in ranked ==> OnChart(points, m)
    requires SortedByRank(ranked, n, rw)
    ensures SortedByRank(Greedy(points, ranked, k, maxPerType, minDist), n, rw)
  {
    if k > 0 {
      var sel := Greedy(points, ranked, k - 1, maxPerType, minDist);
      GreedyInRankOrder(points, ranked, k - 1, maxPerType, minDist, n, rw);
      var m := ranked[k - 1];
      if !(|sel| >= maxPerType || TooClose(points, sel, m, minDist)) {
        var r := sel + [m];
        forall p, q | 0 <= p < q < |r|
          ensures RankedBefore(r[p], r[q], n, rw)
        {
          if q == |sel| {
            assert r[p] in ranked[..k - 1];
            var i :| 0 <= i < k - 1 && ranked[..k - 1][i] == r[p];
            assert ranked[i] == r[p];
          }
        }
      }
    }
  }

  lemma SameElements<T>(a: seq<T>, b: seq<T>)
    requires multiset(a) == multiset(b)
    ensures forall x :: x in a <==> x in b
  {
    forall x
      ensures x in a <==> x in b
    {
      assert x in a <==> x in multiset(a);
      assert x in b <==> x in multiset(b);
    }
  }

  /** The markers of one kind. */
  function OfKind(ms: seq<Marker>, kind: Kind): seq<Marker>
  {
    Filter(ms, (m: Marker) => m.kind == kind)
  }

  /** The candidates of `pickType`: the in-view markers of the kind, ranked. */
  function Ranked(inView: seq<Marker>, kind: Kind, n: int, rw: real): (r: seq<Marker>)
    ensures forall m :: m in r <==> m in inView && m.kind == kind
    ensures SortedByRank(r, n, rw)
  {
    var ofKind := OfKind(inView, kind);
    FilterMembership(inView, (m: Marker) => m.kind == kind);
    SortByRankCorrect(ofKind, n, rw);
    SameElements(SortByRank(ofKind, n, rw), ofKind);
    SortByRank(ofKind, n, rw)
  }

  /** What `pickType(kind)` returns. */
  function PickType(points: seq<ChartPoint>, inView: seq<Marker>, kind: Kind, cfg: PeakValleyConfig): seq<Marker>
    requires forall m :: m in inView ==> OnChart(points, m)
  {
    var ranked := Ranked(inView, kind, |points|, cfg.recencyWeight);
    Greedy(points, ranked, |ranked|, cfg.maxPerType, cfg.minXDistancePx)
  }

  /** What `pickType` promises: markers of the kind from the view, at most
      `maxPerType` of them, pairwise `minXDistancePx` apart, in rank order. */
  lemma PickTypeProperties(points: seq<ChartPoint>, inView: seq<Marker>, kind: Kind, cfg: PeakValleyConfig)
    requires forall m :: m in inView ==> OnChart(points, m)
    ensures forall m :: m in PickType(points, inView, kind, cfg) ==> m in inView && m.kind == kind
    ensures PickType(points, inView, kind, cfg) == [] || |PickType(points, inView, kind, cfg)| <= cfg.maxPerType
    ensures Spaced(points, PickType(points, inView, kind, cfg), cfg.minXDistancePx)
    ensures SortedByRank(PickType(points, inView, kind, cfg), |points|, cfg.recencyWeight)
  {
    var ranked := Ranked(inView, kind, |points|, cfg.recencyWeight);
    var k := |ranked|;
    assert ranked[..k] == ranked;
    GreedyBounded(points, ranked, k, cfg.maxPerType, cfg.minXDistancePx);
    GreedySpaced(points, ranked, k, cfg.maxPerType, cfg.minXDistancePx);
    GreedyInRankOrder(points, ranked, k, cfg.maxPerType, cfg.minXDistancePx, |points|, cfg.recencyWeight);
  }

  /** `pickType` selects markers of its kind only. */
  lemma PickTypeKind(points: seq<ChartPoint>, inView: seq<Marker>, kind: Kind, cfg: PeakValleyConfig)
    requires forall m :: m in inView ==> OnChart(points, m)
    ensures var sel := PickType(points, inView, kind, cfg);
      forall i :: 0 <= i < |sel| ==> sel[i].kind == kind
  {
    var sel := PickType(points, inView, kind, cfg);
    assert forall i :: 0 <= i < |sel| ==> sel[i] in sel;
  }

  /** `pickType` refuses an in-view marker of its kind only when the
      selection is full or a selected marker is too close to it. */
  lemma PickTypeMaximal(points: seq<ChartPoint>, inView: seq<Marker>, kind: Kind, cfg: PeakValleyConfig, m: Marker)
    requires forall m :: m in inView ==> OnChart(points, m)
    requires m in inView && m.kind == kind
    ensures var sel := PickType(points, inView, kind, cfg);
      m in sel || |sel| >= cfg.maxPerType || TooClose(points, sel, m, cfg.minXDistancePx)
  {
    var ranked := Ranked(inView, kind, |points|, cfg.recencyWeight);
    GreedyMaximal(points, ranked, |ranked|, cfg.maxPerType, cfg.minXDistancePx);
    var t :| 0 <= t < |ranked| && ranked[t] == m;
  }

  /** `pickType`: ranks the in-view markers of the kind, then selects. */
  method PickTypeLoop(points: seq<ChartPoint>, inView: seq<Marker>, kind: Kind, cfg: PeakValleyConfig)
    returns (selected: seq<Marker>)
    requires forall m :: m in inView ==> OnChart(points, m)
    ensures selected == PickType(points, inView, kind, cfg)
  {
    var candidates := Ranked(inView, kind, |points|, cfg.recencyWeight);
    selected := SelectGreedily(points, candidates, cfg.maxPerType, cfg.minXDistancePx);
  }

  /** The selection loop of `pickType`, with its early `break` once the
      selection is full. */
  method SelectGreedily(points: seq<ChartPoint>, candidates: seq<Marker>, maxPerType: int, minDist: real)
    returns (selected: seq<Marker>)
    requires forall m :: m in candidates ==> OnChart(points, m)
    ensures selected == Greedy(points, candidates, |candidates|, maxPerType, minDist)
  {
    selected := [];
    var k := 0;
    while k < |candidates|
      invariant 0 <= k <= |candidates|
      invariant selected == Greedy(points, candidates, k, maxPerType, minDist)
    {
      var m := candidates[k];
      if |selected| >= maxPerType {
        GreedyStaysFull(points, candidates, k, |candidates|, maxPerType, minDist);
        return;
      }
      var tooClose := TooClose(points, selected, m, minDist);
      if !tooClose {
        selected := selected + [m];
      }
      k := k + 1;
    }
  }

  /** The marker sits on the chart at or right of the cut-off. */
  predicate InView(points: seq<ChartPoint>, cutoffX: real, m: Marker)
  {
    OnChart(points, m) && points[m.index].x >= cutoffX
  }

  /** `width * keepAfterXRatio`, the width being the last point's x. */
  function CutoffX(points: seq<ChartPoint>, cfg: PeakValleyConfig): real
    requires points != []
  {
    points[|points| - 1].x * cfg.keepAfterXRatio
  }

  /** The `inView` markers of `selectMarkerIdsToKeep`, in their order. */
  function MarkersInView(markers: seq<Marker>, points: seq<ChartPoint>, cfg: PeakValleyConfig): (r: seq<Marker>)
    requires points != []
    ensures forall m :: m in r <==> m in markers && InView(points, CutoffX(points, cfg), m)
  {
    var cutoff := CutoffX(points, cfg);
    FilterMembership(markers, (m: Marker) => InView(points, cutoff, m));
    Filter(markers, (m: Marker) => InView(points, cutoff, m))
  }

  /** The markers `selectMarkerIdsToKeep` keeps: none without points;
      otherwise the peaks picked, then the valleys picked. */
  function KeptMarkers(markers: seq<Marker>, points: seq<ChartPoint>, cfg: PeakValleyConfig): seq<Marker>
  {
    if points == [] then []
    else
      var inView := MarkersInView(markers, points, cfg);
      PickType(points, inView, Max, cfg) + PickType(points, inView, Min, cfg)
  }

  function Ids(ms: seq<Marker>): (ids: seq<int>)
    ensures |ids| == |ms| && forall i :: 0 <= i < |ms| ==> ids[i] == ms[i].id
  {
    if ms == [] then [] else [ms[0].id] + Ids(ms[1..])
  }

  /** `selectMarkerIdsToKeep`. */
  method SelectMarkerIdsToKeep(markers: seq<Marker>, points: seq<ChartPoint>, cfg: PeakValleyConfig)
    returns (keepIds: seq<int>)
    ensures keepIds == Ids(KeptMarkers(markers, points, cfg))
    ensures points == [] ==> keepIds == []
  {
    if |points| == 0 {
      return [];
    }
    var inView := MarkersInView(markers, points, cfg);
    var maxes := PickTypeLoop(points, inView, Max, cfg);
    var mins := PickTypeLoop(points, inView, Min, cfg);
    keepIds := Ids(maxes + mins);
  }

  /** Selection per kind: the kept markers of a kind are exactly what
      `pickType` picked for it, so every property of `pickType` holds for
      them. */
  lemma KeptPerKind(markers: seq<Marker>, points: seq<ChartPoint>, cfg: PeakValleyConfig, kind: Kind)
    requires points != []
    ensures OfKind(KeptMarkers(markers, points, cfg), kind)
      == PickType(points, MarkersInView(markers, points, cfg), kind, cfg)
  {
    var inView := MarkersInView(markers, points, cfg);
    var maxes, mins := PickType(points, inView, Max, cfg), PickType(points, inView, Min, cfg);
    PickTypeKind(points, inView, Max, cfg);
    PickTypeKind(points, inView, Min, cfg);
    var p := (m: Marker) => m.kind == kind;
    FilterAppend(maxes, mins, p);
    if kind == Max {
      FilterAll(maxes, p);
      FilterNone(mins, p);
    } else {
      FilterNone(maxes, p);
      FilterAll(mins, p);
    }
  }

  /** Every kept marker is one of the input markers, on the chart at or
      right of the cut-off. */
  lemma KeptAreInView(markers: seq<Marker>, points: seq<ChartPoint>, cfg: PeakValleyConfig)
    requires points != []
    ensures forall m :: m in KeptMarkers(markers, points, cfg) ==>
      m in markers && InView(points, CutoffX(points, cfg), m)
  {
    var inView := MarkersInView(markers, points, cfg);
    PickTypeProperties(points, inView, Max, cfg);
    PickTypeProperties(points, inView, Min, cfg);
  }
}
