/** The web dashboard's process table: which name a process is shown
    under, the order of the metric columns, the sort header, the search
    filter, the row order and the width of each metric's progress bar.
    Metric values are numbers keyed by metric id, as the table reads them. */
module ProcessList {
  import opened Common
  import opened Numbers

  datatype Process = Process(
    processId: int,
    processName: string,
    displayName: Option<string>,
    commandLine: Option<string>,
    metrics: map<string, real>)

  datatype MetricMetadata = MetricMetadata(metricId: string, unit: string)

  datatype SortOrder = Asc | Desc

  /** The combined GPU + VRAM + memory sort key the table starts with. */
  const DefaultResourceSortField := "gpuVramMemoryTotal"

  // ---------------------------------------------------------------------
  // Names

  /** `getProcessDisplayName`: the trimmed display name, unless it is empty. */
  function DisplayName(p: Process): string
  {
    var d := Trim(if p.displayName.Some? then p.displayName.value else "");
    if d != "" then d else p.processName
  }

  /** A missing or blank display name falls back to the process name;
      otherwise the name shown is the display name without surrounding
      white space, and it is not empty. */
  lemma DisplayNameFallsBack(p: Process)
    ensures IsNullOrWhiteSpace(p.displayName) ==> DisplayName(p) == p.processName
    ensures !IsNullOrWhiteSpace(p.displayName) ==>
      DisplayName(p) == Trim(p.displayName.value) && DisplayName(p) != ""
      && !IsWhiteSpace(DisplayName(p)[0]) && !IsWhiteSpace(DisplayName(p)[|DisplayName(p)| - 1])
  {
    if p.displayName.Some? {
      BlankIffTrimEmpty(p.displayName.value);
      TrimEndKeepsStart(TrimStart(p.displayName.value));
    } else {
      assert IsBlank("");
      BlankIffTrimEmpty("");
    }
  }

  // ---------------------------------------------------------------------
  // `localeCompare`, as character order

  /** The lexicographic order of characters (Unicode scalar values, which
      agrees with UTF-16 code-unit order inside the Basic Multilingual
      Plane): -1, 0 or 1. */
  function LexCompare(a: string, b: string): (r: int)
    ensures -1 <= r <= 1
  {
    if a == [] && b == [] then 0
    else if a == [] then -1
    else if b == [] then 1
    else if a[0] < b[0] then -1
    else if a[0] > b[0] then 1
    else LexCompare(a[1..], b[1..])
  }

  /** Swapping the arguments negates the comparison. */
  lemma {:induction false} LexCompareAntisymmetric(a: string, b: string)
    ensures LexCompare(a, b) == -LexCompare(b, a)
  {
    if a != [] && b != [] && a[0] == b[0] {
      LexCompareAntisymmetric(a[1..], b[1..]);
    }
  }

  /** Only equal strings compare equal. */
  lemma {:induction false} LexCompareZero(a: string, b: string)
    ensures LexCompare(a, b) == 0 <==> a == b
  {
    if a != [] && b != [] && a[0] == b[0] {
      LexCompareZero(a[1..], b[1..]);
      assert a == [a[0]] + a[1..] && b == [b[0]] + b[1..];
    }
  }

  // ---------------------------------------------------------------------
  // A stable sort by comparator (`Array.prototype.sort`)

  /** A comparator that orders a before b orders b after a. */
  ghost predicate Antisymmetric<T(!new)>(cmp: (T, T) -> real)
  {
    forall a: T, b: T :: cmp(a, b) > 0.0 ==> cmp(b, a) < 0.0
  }

  /** No neighbouring pair is out of order. */
  predicate AdjacentSorted<T>(s: seq<T>, cmp: (T, T) -> real)
  {
    forall i :: 0 < i < |s| ==> cmp(s[i - 1], s[i]) <= 0.0
  }

  /** x inserted after the last element that does not compare above it. */
  function Insert<T>(s: seq<T>, x: T, cmp: (T, T) -> real): (r: seq<T>)
    ensures multiset(r) == multiset(s) + multiset{x} && |r| == |s| + 1
    ensures r[|r| - 1] == x || (s != [] && r[|r| - 1] == s[|s| - 1])
  {
    if s == [] then [x]
    else if cmp(s[|s| - 1], x) > 0.0 then
      assert s == s[..|s| - 1] + [s[|s| - 1]];
      Insert(s[..|s| - 1], x, cmp) + [s[|s| - 1]]
    else s + [x]
  }

  /** Appending an element not below the last keeps neighbours in order. */
  lemma AppendSorted<T>(s: seq<T>, x: T, cmp: (T, T) -> real)
    requires AdjacentSorted(s, cmp)
    requires s != [] ==> cmp(s[|s| - 1], x) <= 0.0
    ensures AdjacentSorted(s + [x], cmp)
  {
    var t := s + [x];
    forall i | 0 < i < |t| ensures cmp(t[i - 1], t[i]) <= 0.0 {
      if i < |s| {
        assert t[i - 1] == s[i - 1] && t[i] == s[i];
      }
    }
  }

  lemma {:induction false} InsertSorted<T(!new)>(s: seq<T>, x: T, cmp: (T, T) -> real)
    requires Antisymmetric(cmp) && AdjacentSorted(s, cmp)
    ensures AdjacentSorted(Insert(s, x, cmp), cmp)
  {
    if s == [] {
    } else if cmp(s[|s| - 1], x) > 0.0 {
      var pre, last := s[..|s| - 1], s[|s| - 1];
      assert AdjacentSorted(pre, cmp) by {
        forall i | 0 < i < |pre| ensures cmp(pre[i - 1], pre[i]) <= 0.0 {
          assert pre[i - 1] == s[i - 1] && pre[i] == s[i];
        }
      }
      InsertSorted(pre, x, cmp);
      var r := Insert(pre, x, cmp);
      assert cmp(r[|r| - 1], last) <= 0.0 by {
        if r[|r| - 1] == x {
          assert cmp(last, x) > 0.0;
        } else {
          assert r[|r| - 1] == s[|s| - 2];
          assert cmp(s[|s| - 2], s[|s| - 1]) <= 0.0;
        }
      }
      AppendSorted(r, last, cmp);
    } else {
      AppendSorted(s, x, cmp);
    }
  }

  /** The stable insertion sort the component's `sort` amounts to. */
  function SortBy<T>(xs: seq<T>, cmp: (T, T) -> real): (r: seq<T>)
    ensures multiset(r) == multiset(xs) && |r| == |xs|
  {
    if xs == [] then []
    else
      assert xs == xs[..|xs| - 1] + [xs[|xs| - 1]];
      Insert(SortBy(xs[..|xs| - 1], cmp), xs[|xs| - 1], cmp)
  }

  /** With an antisymmetric comparator the sorted sequence has no pair of
      neighbours out of order. */
  lemma {:induction false} SortBySorted<T(!new)>(xs: seq<T>, cmp: (T, T) -> real)
    requires Antisymmetric(cmp)
    ensures AdjacentSorted(SortBy(xs, cmp), cmp)
  {
    if xs != [] {
      SortBySorted(xs[..|xs| - 1], cmp);
      InsertSorted(SortBy(xs[..|xs| - 1], cmp), xs[|xs| - 1], cmp);
    }
  }

  // ---------------------------------------------------------------------
  // Metric columns

  /** The rank of a metric column: cpu, then memory/ram, gpu, vram, then
      everything else. */
  function Rank(metricId: string): int
  {
    var id := ToLower(metricId);
    if id == "cpu" then 0
    else if id == "memory" || id == "ram" then 1
    else if id == "gpu" then 2
    else if id == "vram" then 3
    else 100
  }

  /** The column comparator: by rank, then by metric id. */
  function MetricCompare(a: MetricMetadata, b: MetricMetadata): real
  {
    var diff := Rank(a.metricId) - Rank(b.metricId);
    if diff != 0 then diff as real else LexCompare(a.metricId, b.metricId) as real
  }

  lemma MetricCompareAntisymmetric()
    ensures Antisymmetric(MetricCompare)
  {
    forall a: MetricMetadata, b: MetricMetadata | MetricCompare(a, b) > 0.0
      ensures MetricCompare(b, a) < 0.0
    {
      LexCompareAntisymmetric(a.metricId, b.metricId);
    }
  }

  /** `orderedMetricMetadata`. */
  function OrderedMetricMetadata(metadata: seq<MetricMetadata>): seq<MetricMetadata>
  {
    SortBy(metadata, MetricCompare)
  }

  /** The ordered columns are the given ones, ranks never decrease along
      them, and columns of equal rank come in metric-id order. */
  lemma OrderedMetricsByRank(metadata: seq<MetricMetadata>)
    ensures var r := OrderedMetricMetadata(metadata);
      && multiset(r) == multiset(metadata)
      && (forall i, j :: 0 <= i < j < |r| ==> Rank(r[i].metricId) <= Rank(r[j].metricId))
      && (forall i :: 0 < i < |r| && Rank(r[i - 1].metricId) == Rank(r[i].metricId) ==>
            LexCompare(r[i - 1].metricId, r[i].metricId) <= 0)
  {
    var r := OrderedMetricMetadata(metadata);
    MetricCompareAntisymmetric();
    SortBySorted(metadata, MetricCompare);
    forall i | 0 < i < |r| ensures Rank(r[i - 1].metricId) <= Rank(r[i].metricId) {
      assert MetricCompare(r[i - 1], r[i]) <= 0.0;
    }
    RanksAscend(r, 0);
  }

  lemma {:induction false} RanksAscend(r: seq<MetricMetadata>, i: nat)
    requires forall k :: 0 < k < |r| ==> Rank(r[k - 1].metricId) <= Rank(r[k].metricId)
    requires i <= |r|
    ensures forall a, b :: i <= a < b < |r| ==> Rank(r[a].metricId) <= Rank(r[b].metricId)
    decreases |r| - i
  {
    if i < |r| {
      RanksAscend(r, i + 1);
      forall b | i < b < |r| ensures Rank(r[i].metricId) <= Rank(r[b].metricId) {
        assert Rank(r[i].metricId) <= Rank(r[i + 1].metricId);
      }
    }
  }

  // ---------------------------------------------------------------------
  // The sort header

  function Flip(o: SortOrder): SortOrder
  {
    if o == Asc then Desc else Asc
  }

  /** `handleSort(field)`: the new sort field and order. */
  function HandleSort(sortField: string, sortOrder: SortOrder, field: string): (r: (string, SortOrder))
    ensures r.0 == field
  {
    if sortField == field then (field, Flip(sortOrder)) else (field, Desc)
  }

  /** A new column starts descending; clicking the current column again
      flips its order, so two clicks on it restore the order. */
  lemma HandleSortToggles(sortField: string, sortOrder: SortOrder, field: string)
    ensures sortField != field ==> HandleSort(sortField, sortOrder, field).1 == Desc
    ensures sortField == field ==> HandleSort(sortField, sortOrder, field).1 != sortOrder
    ensures var s := HandleSort(sortField, sortOrder, field);
      HandleSort(s.0, s.1, field) == (field, if sortField == field then sortOrder else Asc)
  {
  }

  // ---------------------------------------------------------------------
  // The rows

  /** The search: the lowercased term occurs in the process name, the
      display name or the command line, each lowercased. */
  predicate Matches(searchTerm: string, p: Process)
  {
    || ContainsIgnoreCase(p.processName, searchTerm)
    || ContainsIgnoreCase(DisplayName(p), searchTerm)
    || ContainsIgnoreCase(if p.commandLine.Some? then p.commandLine.value else "", searchTerm)
  }

  /** An empty search keeps every process. */
  lemma EmptySearchKeepsAll(p: Process)
    ensures Matches("", p)
  {
    ContainsEmpty(ToLower(p.processName));
  }

  /** `metrics[id] ?? 0`. */
  function MetricOrZero(p: Process, id: string): real
  {
    if id in p.metrics then p.metrics[id] else 0.0
  }

  /** `getSortValue`. */
  function SortValue(p: Process, sortField: string): real
  {
    if sortField == DefaultResourceSortField then
      MetricOrZero(p, "gpu") + MetricOrZero(p, "vram") + MetricOrZero(p, "memory")
    else MetricOrZero(p, sortField)
  }

  /** The row comparator for a sort field and order. */
  function ProcessCompare(sortField: string, sortOrder: SortOrder): (Process, Process) -> real
  {
    (a: Process, b: Process) =>
      if sortField == "processName" then
        (if sortOrder == Asc then LexCompare(DisplayName(a), DisplayName(b))
         else LexCompare(DisplayName(b), DisplayName(a))) as real
      else if sortField == "processId" then
        (if sortOrder == Asc then a.processId - b.processId else b.processId - a.processId) as real
      else
        var av, bv := SortValue(a, sortField), SortValue(b, sortField);
        var diff := if sortOrder == Asc then av - bv else bv - av;
        if diff != 0.0 then diff else LexCompare(DisplayName(b), DisplayName(a)) as real
  }

  lemma ProcessCompareAntisymmetric(sortField: string, sortOrder: SortOrder)
    ensures Antisymmetric(ProcessCompare(sortField, sortOrder))
  {
    var cmp := ProcessCompare(sortField, sortOrder);
    forall a: Process, b: Process | cmp(a, b) > 0.0 ensures cmp(b, a) < 0.0 {
      LexCompareAntisymmetric(DisplayName(a), DisplayName(b));
    }
  }

  /** `sortedAndFilteredProcesses`. */
  function VisibleProcesses(processes: seq<Process>, sortField: string, sortOrder: SortOrder,
                            searchTerm: string): seq<Process>
  {
    SortBy(Filter(processes, p => Matches(searchTerm, p)), ProcessCompare(sortField, sortOrder))
  }

  /** The visible rows are the matching processes, each as often as in the
      input, with no neighbouring rows out of order. */
  lemma VisibleProcessesFacts(processes: seq<Process>, sortField: string, sortOrder: SortOrder,
                              searchTerm: string)
    ensures var r := VisibleProcesses(processes, sortField, sortOrder, searchTerm);
      && multiset(r) == multiset(Filter(processes, p => Matches(searchTerm, p)))
      && (forall p :: p in r <==> p in processes && Matches(searchTerm, p))
      && AdjacentSorted(r, ProcessCompare(sortField, sortOrder))
  {
    var kept := Filter(processes, p => Matches(searchTerm, p));
    FilterMembership(processes, p => Matches(searchTerm, p));
    var r := VisibleProcesses(processes, sortField, sortOrder, searchTerm);
    forall p ensures p in r <==> p in kept {
      assert p in r <==> p in multiset(r);
    }
    ProcessCompareAntisymmetric(sortField, sortOrder);
    SortBySorted(kept, ProcessCompare(sortField, sortOrder));
  }

  /** The combined GPU + VRAM + memory figure of the default sort. */
  function ResourceTotal(p: Process): real
  {
    MetricOrZero(p, "gpu") + MetricOrZero(p, "vram") + MetricOrZero(p, "memory")
  }

  /** A pair the default comparator leaves in place is heaviest first, and
      in descending display-name order on a tie. */
  lemma DefaultCompareInOrder(a: Process, b: Process)
    requires ProcessCompare(DefaultResourceSortField, Desc)(a, b) <= 0.0
    ensures ResourceTotal(a) >= ResourceTotal(b)
    ensures ResourceTotal(a) == ResourceTotal(b) ==> LexCompare(DisplayName(b), DisplayName(a)) <= 0
  {
  }

  /** Under the default sort the heaviest processes by GPU + VRAM + memory
      come first, and rows with equal totals are in descending display-name
      order. */
  lemma DefaultSortHeaviestFirst(processes: seq<Process>, searchTerm: string)
    ensures var r := VisibleProcesses(processes, DefaultResourceSortField, Desc, searchTerm);
      forall i :: 0 < i < |r| ==>
        && ResourceTotal(r[i - 1]) >= ResourceTotal(r[i])
        && (ResourceTotal(r[i - 1]) == ResourceTotal(r[i]) ==> LexCompare(DisplayName(r[i]), DisplayName(r[i - 1])) <= 0)
  {
    VisibleProcessesFacts(processes, DefaultResourceSortField, Desc, searchTerm);
    var r := VisibleProcesses(processes, DefaultResourceSortField, Desc, searchTerm);
    forall i | 0 < i < |r|
      ensures ResourceTotal(r[i - 1]) >= ResourceTotal(r[i])
      ensures ResourceTotal(r[i - 1]) == ResourceTotal(r[i]) ==> LexCompare(DisplayName(r[i]), DisplayName(r[i - 1])) <= 0
    {
      DefaultCompareInOrder(r[i - 1], r[i]);
    }
  }

  // ---------------------------------------------------------------------
  // Progress bars

  /** `getProgressMaxValue`: 100 for percentages, the known positive
      memory or VRAM size for those metrics, otherwise none. */
  function ProgressMax(metric: MetricMetadata, maxMemoryMb: Option<real>, maxVramMb: Option<real>): (r: Option<real>)
    ensures r.Some? ==> r.value > 0.0
    ensures metric.unit == "%" ==> r == Some(100.0)
  {
    if metric.unit == "%" then Some(100.0)
    else
      var id := ToLower(metric.metricId);
      if id == "memory" || id == "ram" then
        (if maxMemoryMb.Some? && maxMemoryMb.value > 0.0 then maxMemoryMb else None)
      else if id == "vram" then
        (if maxVramMb.Some? && maxVramMb.value > 0.0 then maxVramMb else None)
      else None
  }

  /** The bar width in percent. */
  function ProgressWidth(value: Option<real>, progressMax: Option<real>): (w: real)
    ensures 0.0 <= w <= 100.0
    ensures value.None? || progressMax.None? || progressMax.value <= 0.0 ==> w == 0.0
  {
    if value.Some? && progressMax.Some? && progressMax.value > 0.0 then
      var share := MaxReal(value.value, 0.0) / progressMax.value * 100.0;
      if share < 100.0 then share else 100.0
    else 0.0
  }

  /** Within [0, max] the width is the value's share of max; beyond max the
      bar is full, below 0 it is empty; and it never shrinks as the value
      grows. */
  lemma ProgressWidthProportional(v: real, w: real, m: real)
    requires m > 0.0
    ensures 0.0 <= v <= m ==> ProgressWidth(Some(v), Some(m)) == v / m * 100.0
    ensures v >= m ==> ProgressWidth(Some(v), Some(m)) == 100.0
    ensures v <= 0.0 ==> ProgressWidth(Some(v), Some(m)) == 0.0
    ensures v <= w ==> ProgressWidth(Some(v), Some(m)) <= ProgressWidth(Some(w), Some(m))
  {
    DivMonotone(v, m, m);
    if v <= w {
      DivMonotone(MaxReal(v, 0.0), MaxReal(w, 0.0), m);
    }
  }

  lemma DivMonotone(a: real, b: real, m: real)
    requires m > 0.0
    ensures a <= b ==> a / m * 100.0 <= b / m * 100.0
    ensures a / m * 100.0 < 100.0 <==> a < m
  {
    assert a / m * m == a;
    assert b / m * m == b;
  }
}
