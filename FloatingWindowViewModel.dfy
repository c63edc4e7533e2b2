/** The floating window's view model: the panel state machine, the pinned
    processes, the throttled process refresh, and the ordered process
    collections it keeps in step with each process snapshot. Rows are
    identified by process id: the index holds one row per id, and the
    observable collections hold ids that refer into it. */
module FloatingWindowViewModel {
  import opened Common
  import opened ObservableCollectionExtensions

  // ---------------------------------------------------------------------
  // Panel state machine

  datatype PanelState = Collapsed | Expanded | Locked | Clickthrough

  /** `IsDetailsVisible`: the details panel shows when expanded or locked. */
  predicate IsDetailsVisible(s: PanelState)
  {
    s == Expanded || s == Locked
  }

  /** The panel state together with the state saved on entering clickthrough. */
  datatype Panel = Panel(state: PanelState, beforeClickthrough: PanelState)

  /** `OnBarPointerEnter`: hovering opens a collapsed panel, and only that. */
  function PointerEnter(p: Panel): (r: Panel)
    ensures r.beforeClickthrough == p.beforeClickthrough
    ensures r.state != p.state <==> p.state == Collapsed
    ensures p.state == Collapsed ==> IsDetailsVisible(r.state)
  {
    if p.state == Collapsed then p.(state := Expanded) else p
  }

  /** `OnBarPointerLeave`: leaving closes an expanded panel, and only that;
      a locked panel stays open. */
  function PointerLeave(p: Panel): (r: Panel)
    ensures r.beforeClickthrough == p.beforeClickthrough
    ensures r.state != p.state <==> p.state == Expanded
    ensures p.state == Expanded ==> !IsDetailsVisible(r.state)
  {
    if p.state == Expanded then p.(state := Collapsed) else p
  }

  /** `OnBarClick`: a click locks an expanded panel and unlocks a locked one;
      it never shows or hides the details. */
  function BarClick(p: Panel): (r: Panel)
    ensures r.beforeClickthrough == p.beforeClickthrough
    ensures r.state != p.state <==> IsDetailsVisible(p.state)
    ensures IsDetailsVisible(r.state) == IsDetailsVisible(p.state)
  {
    if p.state == Expanded then p.(state := Locked)
    else if p.state == Locked then p.(state := Expanded)
    else p
  }

  /** `EnterClickthrough`: remembers the current state, whatever it is. */
  function EnterClickthrough(p: Panel): (r: Panel)
    ensures r.state == Clickthrough && r.beforeClickthrough == p.state
  {
    Panel(Clickthrough, p.state)
  }

  /** `ExitClickthrough`: restores the remembered state; outside
      clickthrough it does nothing. */
  function ExitClickthrough(p: Panel): (r: Panel)
    ensures p.state != Clickthrough ==> r == p
    ensures p.state == Clickthrough ==> r.state == p.beforeClickthrough
  {
    if p.state == Clickthrough then p.(state := p.beforeClickthrough) else p
  }

  /** Hovering in and out of a collapsed panel, or clicking twice, comes back
      to where it started. */
  lemma HoverAndClickRoundTrips(p: Panel)
    ensures p.state == Collapsed ==> PointerLeave(PointerEnter(p)) == p
    ensures p.state == Expanded ==> PointerEnter(PointerLeave(p)) == p
    ensures BarClick(BarClick(p)) == p
  {
    if IsDetailsVisible(p.state) {
      assert BarClick(p).state != p.state;
    }
  }

  /** Entering and leaving clickthrough from any other state restores it. */
  lemma ClickthroughRoundTrip(p: Panel)
    requires p.state != Clickthrough
    ensures ExitClickthrough(EnterClickthrough(p)).state == p.state
  {
  }

  /** Entering clickthrough twice forgets the earlier state: leaving then
      stays in clickthrough. The window only enters it from a click on the
      pin indicator, which a click-through window does not receive. */
  lemma ClickthroughEnteredTwiceIsSticky(p: Panel)
    ensures ExitClickthrough(EnterClickthrough(EnterClickthrough(p))).state == Clickthrough
  {
  }

  // ---------------------------------------------------------------------
  // Process rows

  /** `ProcessInfoDto`. */
  datatype ProcessInfo = ProcessInfo(
    processId: int, processName: string, commandLine: string, displayName: string,
    metrics: map<string, real>)

  /** `ProcessMetaInfoDto`. */
  datatype ProcessMeta = ProcessMeta(
    processId: int, processName: string, commandLine: string, displayName: string)

  /** `ProcessRowViewModel`'s state. */
  datatype Row = Row(
    processId: int, processName: string, commandLine: string, displayName: string,
    cpu: real, memory: real, gpu: real, vram: real, isPinned: bool)

  /** `GetValueOrDefault` on the metrics dictionary. */
  function Metric(p: ProcessInfo, key: string): real
  {
    if key in p.metrics then p.metrics[key] else 0.0
  }

  /** `ProcessRowViewModel.UpdateFrom`: non-empty names replace the row's;
      an empty display name falls back to the process name only when the
      row has none yet; the four metrics are taken as they are. */
  function UpdateFrom(row: Row, dto: ProcessInfo): (r: Row)
    ensures r.processId == row.processId && r.isPinned == row.isPinned
    ensures r.cpu == Metric(dto, "cpu") && r.memory == Metric(dto, "memory")
    ensures r.gpu == Metric(dto, "gpu") && r.vram == Metric(dto, "vram")
    ensures dto.processName != "" ==> r.processName == dto.processName
    ensures dto.processName == "" ==> r.processName == row.processName
    ensures dto.displayName != "" ==> r.displayName == dto.displayName
    ensures row.displayName != "" ==> r.displayName != ""
    ensures r.displayName == "" <==> row.displayName == "" && dto.displayName == "" && dto.processName == ""
  {
    var displayName :=
      if dto.displayName != "" then dto.displayName
      else if row.displayName == "" && dto.processName != "" then dto.processName
      else row.displayName;
    row.(processName := if dto.processName != "" then dto.processName else row.processName,
         commandLine := if dto.commandLine != "" then dto.commandLine else row.commandLine,
         displayName := displayName,
         cpu := Metric(dto, "cpu"), memory := Metric(dto, "memory"),
         gpu := Metric(dto, "gpu"), vram := Metric(dto, "vram"))
  }

  /** The `ProcessRowViewModel(dto)` constructor: unpinned, with the display
      name falling back to the process name. */
  function NewRow(dto: ProcessInfo): (r: Row)
    ensures r.processId == dto.processId && !r.isPinned
    ensures r.memory == Metric(dto, "memory") && r.vram == Metric(dto, "vram")
    ensures r.displayName != "" <==> dto.displayName != "" || dto.processName != ""
  {
    var initial := Row(dto.processId, dto.processName, dto.commandLine,
                       if dto.displayName != "" then dto.displayName else dto.processName,
                       0.0, 0.0, 0.0, 0.0, false);
    UpdateFrom(initial, dto)
  }

  /** `ProcessRowViewModel.UpdateMetaFrom`: like `UpdateFrom` for the names,
      except that an empty display name always yields to a non-empty
      process name; the metrics and the pin are untouched. */
  function UpdateMetaFrom(row: Row, meta: ProcessMeta): (r: Row)
    ensures r.processId == row.processId && r.isPinned == row.isPinned
    ensures r.cpu == row.cpu && r.memory == row.memory && r.gpu == row.gpu && r.vram == row.vram
    ensures meta.displayName != "" ==> r.displayName == meta.displayName
    ensures meta.displayName == "" && meta.processName != "" ==> r.displayName == meta.processName
    ensures meta.displayName == "" && meta.processName == "" ==> r.displayName == row.displayName
  {
    row.(processName := if meta.processName != "" then meta.processName else row.processName,
         commandLine := if meta.commandLine != "" then meta.commandLine else row.commandLine,
         displayName :=
           if meta.displayName != "" then meta.displayName
           else if meta.processName != "" then meta.processName
           else row.displayName)
  }

  /** The row `SyncProcessMeta` creates for an unknown process: no metrics. */
  function MetaRow(meta: ProcessMeta): (r: Row)
    ensures r.processId == meta.processId && !r.isPinned
    ensures r.memory == 0.0 && r.vram == 0.0
  {
    NewRow(ProcessInfo(meta.processId, meta.processName, meta.commandLine, meta.displayName, map[]))
  }

  /** Every row sits under its own process id. */
  predicate IndexConsistent(index: map<int, Row>)
  {
    forall pid :: pid in index ==> index[pid].processId == pid
  }

  function PidSet(ps: seq<ProcessInfo>): set<int>
  {
    set p | p in ps :: p.processId
  }

  function Pids(ps: seq<ProcessInfo>): (r: seq<int>)
    ensures |r| == |ps| && forall i :: 0 <= i < |ps| ==> r[i] == ps[i].processId
  {
    if ps == [] then [] else Pids(ps[..|ps| - 1]) + [ps[|ps| - 1].processId]
  }

  /** One step of `SyncProcessIndex`'s first loop: the process's row, new or
      updated, with its pin taken from the pinned set. */
  function Upsert(index: map<int, Row>, p: ProcessInfo, pinned: set<int>): (r: Row)
    ensures r.isPinned == (p.processId in pinned)
    ensures r.memory == Metric(p, "memory") && r.vram == Metric(p, "vram")
    ensures p.processId in index ==> r.processId == index[p.processId].processId
    ensures p.processId !in index ==> r.processId == p.processId
  {
    var row := if p.processId in index then UpdateFrom(index[p.processId], p) else NewRow(p);
    row.(isPinned := p.processId in pinned)
  }

  /** The index after `SyncProcessIndex`'s first loop over `ps`: a row for
      every process, on top of the rows already there. */
  function Upserted(index: map<int, Row>, ps: seq<ProcessInfo>, pinned: set<int>): (r: map<int, Row>)
    ensures r.Keys == index.Keys + PidSet(ps)
    decreases |ps|
  {
    if ps == [] then index
    else
      var init := ps[..|ps| - 1];
      var p := ps[|ps| - 1];
      assert PidSet(ps) == PidSet(init) + {p.processId} by { assert ps == init + [p]; }
      var m := Upserted(index, init, pinned);
      m[p.processId := Upsert(m, p, pinned)]
  }

  /** When a process is reported more than once, its row carries the
      metrics of its last entry. */
  lemma UpsertedTakesLastEntry(index: map<int, Row>, ps: seq<ProcessInfo>, pinned: set<int>)
    requires |ps| > 0
    ensures var r := Upserted(index, ps, pinned);
      var last := ps[|ps| - 1];
      r[last.processId].memory == Metric(last, "memory") && r[last.processId].vram == Metric(last, "vram")
  {
  }

  /** After the first loop every process's row is pinned as the pinned set
      says, rows of unreported processes are untouched, and rows stay under
      their ids. */
  lemma {:induction false} UpsertedRows(index: map<int, Row>, ps: seq<ProcessInfo>, pinned: set<int>)
    ensures var r := Upserted(index, ps, pinned);
      && (forall pid :: pid in index && pid !in PidSet(ps) ==> r[pid] == index[pid])
      && (forall pid :: pid in PidSet(ps) ==> r[pid].isPinned == (pid in pinned))
      && (IndexConsistent(index) ==> IndexConsistent(r))
    decreases |ps|
  {
    if ps != [] {
      var init := ps[..|ps| - 1];
      var p := ps[|ps| - 1];
      assert PidSet(ps) == PidSet(init) + {p.processId} by { assert ps == init + [p]; }
      UpsertedRows(index, init, pinned);
    }
  }

  /** The pinned set after `SyncProcessIndex`: less the processes that had a
      row and are no longer reported. */
  function SyncedPins(index: map<int, Row>, ps: seq<ProcessInfo>, pinned: set<int>): set<int>
  {
    pinned - (index.Keys - PidSet(ps))
  }

  /** The index after `SyncProcessIndex`: the upserted rows, less the rows of
      processes no longer reported. Every row is pinned exactly when its
      process stays in the pinned set. */
  function SyncedIndex(index: map<int, Row>, ps: seq<ProcessInfo>, pinned: set<int>): (r: map<int, Row>)
    ensures r.Keys == PidSet(ps)
    ensures forall pid :: pid in r ==> (r[pid].isPinned <==> pid in SyncedPins(index, ps, pinned))
    ensures IndexConsistent(index) ==> IndexConsistent(r)
  {
    UpsertedRows(index, ps, pinned);
    Upserted(index, ps, pinned) - (index.Keys - PidSet(ps))
  }

  function MetaPidSet(metas: seq<ProcessMeta>): set<int>
  {
    set m | m in metas :: m.processId
  }

  /** One step of `SyncProcessMeta`: the renamed row, or a new one. */
  function MetaUpsert(index: map<int, Row>, m: ProcessMeta): (r: Row)
    ensures m.processId in index ==> r.isPinned == index[m.processId].isPinned
    ensures m.processId in index ==> r.processId == index[m.processId].processId
    ensures m.processId !in index ==> !r.isPinned && r.processId == m.processId
  {
    if m.processId in index then UpdateMetaFrom(index[m.processId], m) else MetaRow(m)
  }

  /** The index after `SyncProcessMeta` over `metas`: a row for every listed
      process, on top of the rows already there. */
  function MetaSynced(index: map<int, Row>, metas: seq<ProcessMeta>): (r: map<int, Row>)
    ensures r.Keys == index.Keys + MetaPidSet(metas)
    decreases |metas|
  {
    if metas == [] then index
    else
      var init := metas[..|metas| - 1];
      var m := metas[|metas| - 1];
      assert MetaPidSet(metas) == MetaPidSet(init) + {m.processId} by { assert metas == init + [m]; }
      var idx := MetaSynced(index, init);
      idx[m.processId := MetaUpsert(idx, m)]
  }

  /** One more entry of `SyncProcessMeta`'s loop. */
  lemma MetaSyncedSnoc(index: map<int, Row>, metas: seq<ProcessMeta>, i: nat)
    requires i < |metas|
    ensures var m := MetaSynced(index, metas[..i]);
      MetaSynced(index, metas[..i + 1]) == m[metas[i].processId := MetaUpsert(m, metas[i])]
  {
    PrefixOfPrefix(metas, i);
  }

  /** Metadata never pins or unpins: old rows keep their pins, new rows are
      unpinned, and rows stay under their ids. */
  lemma {:induction false} MetaSyncedRows(index: map<int, Row>, metas: seq<ProcessMeta>)
    ensures var r := MetaSynced(index, metas);
      && (forall pid :: pid in index ==> r[pid].isPinned == index[pid].isPinned)
      && (forall pid :: pid in r && pid !in index ==> !r[pid].isPinned)
      && (IndexConsistent(index) ==> IndexConsistent(r))
    decreases |metas|
  {
    if metas != [] {
      MetaSyncedRows(index, metas[..|metas| - 1]);
    }
  }

  /** `TogglePin`'s change to the pinned set. */
  function Toggle(pinned: set<int>, pid: int): (r: set<int>)
    ensures pid in r <==> pid !in pinned
    ensures r - {pid} == pinned - {pid}
  {
    if pid in pinned then pinned - {pid} else pinned + {pid}
  }

  // ---------------------------------------------------------------------
  // Ordering

  /** A row's footprint, the sort key `Memory + Vram`. */
  function Footprint(index: map<int, Row>, pid: int): real
    requires pid in index
  {
    index[pid].memory + index[pid].vram
  }

  predicate AllIndexed(pids: seq<int>, index: map<int, Row>)
  {
    forall pid :: pid in pids ==> pid in index
  }

  predicate SortedByFootprint(pids: seq<int>, index: map<int, Row>)
    requires AllIndexed(pids, index)
  {
    forall i, j :: 0 <= i < j < |pids| ==> Footprint(index, pids[i]) >= Footprint(index, pids[j])
  }

  /** Puts `pid` before the first entry whose footprint is not larger, so
      that it stays ahead of equal entries that followed it. */
  function InsertByFootprint(pid: int, sorted: seq<int>, index: map<int, Row>): (r: seq<int>)
    requires pid in index && AllIndexed(sorted, index)
    ensures multiset(r) == multiset(sorted) + multiset{pid}
  {
    if sorted == [] || Footprint(index, sorted[0]) <= Footprint(index, pid) then [pid] + sorted
    else
      assert sorted == [sorted[0]] + sorted[1..];
      [sorted[0]] + InsertByFootprint(pid, sorted[1..], index)
  }

  /** What a multiset holds is indexed when the index covers it. */
  lemma IndexedByMultiset(xs: seq<int>, ys: seq<int>, pid: int, index: map<int, Row>)
    requires AllIndexed(xs, index) && pid in index && multiset(ys) == multiset(xs) + multiset{pid}
    ensures AllIndexed(ys, index)
  {
    forall x | x in ys ensures x in index {
      assert x in multiset(ys);
    }
  }

  /** Inserting into a sorted list keeps it sorted, and the head is either
      the new entry or the old head. */
  lemma {:induction false} InsertByFootprintSorted(pid: int, sorted: seq<int>, index: map<int, Row>)
    requires pid in index && AllIndexed(sorted, index) && SortedByFootprint(sorted, index)
    ensures var r := InsertByFootprint(pid, sorted, index);
      && AllIndexed(r, index) && SortedByFootprint(r, index)
      && (r[0] == pid || (|sorted| > 0 && r[0] == sorted[0]))
  {
    var r := InsertByFootprint(pid, sorted, index);
    IndexedByMultiset(sorted, r, pid, index);
    if sorted == [] || Footprint(index, sorted[0]) <= Footprint(index, pid) {
      assert r == [pid] + sorted;
    } else {
      var rest := InsertByFootprint(pid, sorted[1..], index);
      InsertByFootprintSorted(pid, sorted[1..], index);
      assert r == [sorted[0]] + rest;
      assert Footprint(index, sorted[0]) >= Footprint(index, rest[0]);
    }
  }

  /** `OrderByDescending(p => p.Memory + p.Vram)`, a stable sort: a
      permutation of the ids. */
  function OrderByFootprint(pids: seq<int>, index: map<int, Row>): (r: seq<int>)
    requires AllIndexed(pids, index)
    ensures multiset(r) == multiset(pids)
  {
    if pids == [] then []
    else
      assert pids == [pids[0]] + pids[1..];
      var rest := OrderByFootprint(pids[1..], index);
      IndexedByMultisetOf(pids[1..], rest, index);
      InsertByFootprint(pids[0], rest, index)
  }

  lemma IndexedByMultisetOf(xs: seq<int>, ys: seq<int>, index: map<int, Row>)
    requires AllIndexed(xs, index) && multiset(ys) == multiset(xs)
    ensures AllIndexed(ys, index)
  {
    forall x | x in ys ensures x in index {
      assert x in multiset(ys);
    }
  }

  /** The ordering puts larger footprints first. */
  lemma {:induction false} OrderByFootprintSorted(pids: seq<int>, index: map<int, Row>)
    requires AllIndexed(pids, index)
    ensures AllIndexed(OrderByFootprint(pids, index), index)
    ensures SortedByFootprint(OrderByFootprint(pids, index), index)
  {
    if pids != [] {
      var rest := OrderByFootprint(pids[1..], index);
      OrderByFootprintSorted(pids[1..], index);
      InsertByFootprintSorted(pids[0], rest, index);
    }
  }

  const TopCount: nat := 5

  /** `Take(5)`. */
  function Top(ordered: seq<int>): (r: seq<int>)
    ensures |r| == if |ordered| < TopCount then |ordered| else TopCount
    ensures r == ordered[..|r|]
  {
    if |ordered| < TopCount then ordered else ordered[..TopCount]
  }

  /** The top list holds the largest footprints: none left out is larger than
      one kept. */
  lemma TopHoldsLargest(pids: seq<int>, index: map<int, Row>)
    requires AllIndexed(pids, index)
    ensures var ordered := OrderByFootprint(pids, index);
      forall i, j :: 0 <= i < |Top(ordered)| <= j < |ordered| ==>
        ordered[i] in index && ordered[j] in index && Footprint(index, ordered[i]) >= Footprint(index, ordered[j])
  {
    OrderByFootprintSorted(pids, index);
  }

  /** Ordering and taking the top keep distinct ids distinct. */
  lemma OrderedHaveNoDuplicates(pids: seq<int>, index: map<int, Row>)
    requires AllIndexed(pids, index)
    ensures NoDuplicates(pids) ==> NoDuplicates(OrderByFootprint(pids, index))
    ensures NoDuplicates(pids) ==> NoDuplicates(Top(OrderByFootprint(pids, index)))
  {
    var ordered := OrderByFootprint(pids, index);
    if NoDuplicates(pids) {
      NoDuplicatesOfSubMultiset(pids, ordered);
      assert ordered == Top(ordered) + ordered[|Top(ordered)|..];
      NoDuplicatesOfSubMultiset(ordered, Top(ordered));
    }
  }

  // ---------------------------------------------------------------------
  // Refresh throttling

  const DefaultProcessRefreshIntervalMs: int := 150
  const MinProcessRefreshIntervalMs: int := 16
  const MaxProcessRefreshIntervalMs: int := 2000

  /** `DateTime` and `TimeSpan` ticks per millisecond. */
  const TicksPerMillisecond: int := 10000

  /** `DateTime.MinValue`, the time of the last refresh before any. */
  const MinValueTicks: int := 0

  /** `NormalizeProcessRefreshIntervalMs`: non-positive means the default,
      anything else is clamped into [16, 2000]. */
  function NormalizeProcessRefreshIntervalMs(intervalMs: int): (r: int)
    ensures MinProcessRefreshIntervalMs <= r <= MaxProcessRefreshIntervalMs
    ensures intervalMs <= 0 ==> r == DefaultProcessRefreshIntervalMs
    ensures 0 < intervalMs < MinProcessRefreshIntervalMs ==> r == MinProcessRefreshIntervalMs
    ensures MinProcessRefreshIntervalMs <= intervalMs <= MaxProcessRefreshIntervalMs ==> r == intervalMs
    ensures intervalMs > MaxProcessRefreshIntervalMs ==> r == MaxProcessRefreshIntervalMs
  {
    if intervalMs <= 0 then DefaultProcessRefreshIntervalMs
    else ClampInt(intervalMs, MinProcessRefreshIntervalMs, MaxProcessRefreshIntervalMs)
  }

  /** `ShouldApplyRefreshImmediately`, on ticks. */
  predicate ShouldApplyRefreshImmediately(now: int, lastRefresh: int, interval: int)
  {
    now - lastRefresh >= interval
  }

  // ---------------------------------------------------------------------
  // Keeping an observable collection in the desired order

  /** The first `i` places already hold the desired items, every item is
      desired, and none occurs twice. */
  predicate Placed(items: seq<int>, desired: seq<int>, i: nat)
  {
    && i <= |items| && i <= |desired|
    && items[..i] == desired[..i]
    && NoDuplicates(items)
    && forall x :: x in items ==> x in desired
  }

  lemma PlacedAlready(items: seq<int>, desired: seq<int>, i: nat)
    requires Placed(items, desired, i) && i < |items| && i < |desired| && items[i] == desired[i]
    ensures Placed(items, desired, i + 1)
  {
    assert items[..i + 1] == items[..i] + [items[i]];
    assert desired[..i + 1] == desired[..i] + [desired[i]];
  }

  /** Moving a later item to `i` leaves the first `i` items alone. */
  lemma MoveForward(items: seq<int>, e: nat, i: nat)
    requires i < e < |items|
    ensures MoveItem(items, e, i)[..i + 1] == items[..i] + [items[e]]
  {
    var rest := items[..e] + items[e + 1..];
    assert rest[..i] == items[..i];
  }

  /** A move keeps the same items, so no duplicates appear. */
  lemma MoveKeepsItems(items: seq<int>, e: nat, i: nat)
    requires e < |items| && i < |items| && NoDuplicates(items)
    ensures NoDuplicates(MoveItem(items, e, i))
    ensures forall x :: x in MoveItem(items, e, i) ==> x in items
  {
    var r := MoveItem(items, e, i);
    NoDuplicatesOfSubMultiset(items, r);
    forall x | x in r ensures x in items {
      assert x in multiset(r);
    }
  }

  /** The desired item found further on is moved into place. */
  lemma PlacedByMove(items: seq<int>, desired: seq<int>, i: nat, e: nat)
    requires NoDuplicates(desired) && Placed(items, desired, i)
    requires i < |items| && i < |desired| && items[i] != desired[i]
    requires e < |items| && items[e] == desired[i] && desired[i] !in items[..e]
    ensures Placed(MoveItem(items, e, i), desired, i + 1)
  {
    assert i < e;
    MoveForward(items, e, i);
    MoveKeepsItems(items, e, i);
    assert desired[..i + 1] == desired[..i] + [desired[i]];
  }

  /** A desired item not yet present is inserted in place. */
  lemma PlacedByInsert(items: seq<int>, desired: seq<int>, i: nat)
    requires Placed(items, desired, i) && i < |items| && i < |desired| && desired[i] !in items
    ensures Placed(items[..i] + [desired[i]] + items[i..], desired, i + 1)
  {
    var r := items[..i] + [desired[i]] + items[i..];
    assert r[..i + 1] == desired[..i + 1];
    NoDuplicatesInsert(items, i, desired[i]);
  }

  /** Past the end of the collection, the desired item is appended. */
  lemma PlacedByAdd(items: seq<int>, desired: seq<int>, i: nat)
    requires NoDuplicates(desired) && Placed(items, desired, i) && i == |items| && i < |desired|
    ensures Placed(items + [desired[i]], desired, i + 1)
  {
    assert items == desired[..i];
    assert desired[i] !in items by {
      forall k | 0 <= k < i ensures items[k] != desired[i] {
        assert items[k] == desired[k];
      }
    }
    NoDuplicatesInsert(items, i, desired[i]);
    assert items[..i] + [desired[i]] + items[i..] == items + [desired[i]];
    assert desired[..i + 1] == desired[..i] + [desired[i]];
  }

  /** A sequence without duplicates whose items all occur in its first `n`
      has no more than `n`. */
  lemma NothingBeyondPrefix(items: seq<int>, n: nat)
    requires NoDuplicates(items) && n <= |items|
    requires forall x :: x in items ==> x in items[..n]
    ensures |items| == n
  {
    var prefix := items[..n];
    NoDuplicatesByCount(items);
    assert multiset(items) <= multiset(prefix) by {
      forall x ensures multiset(items)[x] <= multiset(prefix)[x] {
        if x in items {
          assert x in multiset(prefix);
        }
      }
    }
    assert multiset(prefix) == multiset(items) + (multiset(prefix) - multiset(items));
    assert |multiset(prefix)| == n && |multiset(items)| == |items|;
  }

  /** Once every desired item is in place, nothing else is left. */
  lemma PlacedAll(items: seq<int>, desired: seq<int>)
    requires Placed(items, desired, |desired|)
    ensures items == desired
  {
    assert desired == desired[..|desired|];
    NothingBeyondPrefix(items, |desired|);
    assert items == items[..|desired|];
  }

  lemma RemovalKeepsNoDuplicates(items: seq<int>, i: nat)
    requires NoDuplicates(items) && i < |items|
    ensures NoDuplicates(items[..i] + items[i + 1..])
  {
    assert items == items[..i] + [items[i]] + items[i + 1..];
    NoDuplicatesOfSubMultiset(items, items[..i] + items[i + 1..]);
  }

  /** `SyncCollectionOrder`: first removes, from the back, every item not
      desired; then walks the desired list, leaving a matching item, moving
      a later one into place, or inserting or appending a missing one. When
      neither list repeats an item, the collection ends up equal to the
      desired list. */
  method SyncCollectionOrder(collection: ObservableCollection<int>, desired: seq<int>)
    modifies collection
    ensures NoDuplicates(desired) && NoDuplicates(old(collection.items)) ==> collection.items == desired
  {
    ghost var tidy := NoDuplicates(desired) && NoDuplicates(collection.items);
    var desiredSet := set x | x in desired;
    var i := |collection.items| - 1;
    while i >= 0
      invariant -1 <= i < |collection.items|
      invariant forall k :: i < k < |collection.items| ==> collection.items[k] in desiredSet
      invariant tidy ==> NoDuplicates(collection.items)
      decreases i
    {
      if collection.items[i] !in desiredSet {
        ghost var before := collection.items;
        collection.RemoveAt(i);
        if tidy { RemovalKeepsNoDuplicates(before, i); }
      }
      i := i - 1;
    }
    assert tidy ==> Placed(collection.items, desired, 0);
    for j := 0 to |desired|
      invariant j <= |collection.items|
      invariant tidy ==> Placed(collection.items, desired, j)
    {
      var item := desired[j];
      if j < |collection.items| {
        if collection.items[j] != item {
          var existingIndex := IndexOf(collection.items, item);
          if existingIndex >= 0 {
            if tidy { PlacedByMove(collection.items, desired, j, existingIndex); }
            collection.Move(existingIndex, j);
          } else {
            if tidy { PlacedByInsert(collection.items, desired, j); }
            collection.Insert(j, item);
          }
        } else if tidy {
          PlacedAlready(collection.items, desired, j);
        }
      } else {
        if tidy { PlacedByAdd(collection.items, desired, j); }
        collection.Add(item);
      }
    }
    if tidy { PlacedAll(collection.items, desired); }
  }

  /** One more entry of the first loop. */
  lemma UpsertedSnoc(index: map<int, Row>, ps: seq<ProcessInfo>, i: nat, pinned: set<int>)
    requires i < |ps|
    ensures PidSet(ps[..i + 1]) == PidSet(ps[..i]) + {ps[i].processId}
    ensures var m := Upserted(index, ps[..i], pinned);
      Upserted(index, ps[..i + 1], pinned) == m[ps[i].processId := Upsert(m, ps[i], pinned)]
  {
    PrefixOfPrefix(ps, i);
  }

  /** `SyncProcessIndex`'s first loop: creates or updates each process's
      row, and collects the ids seen. */
  method UpsertRows(index: map<int, Row>, processes: seq<ProcessInfo>, pinned: set<int>)
    returns (upserted: map<int, Row>, seen: set<int>)
    ensures upserted == Upserted(index, processes, pinned) && seen == PidSet(processes)
  {
    upserted, seen := index, {};
    for i := 0 to |processes|
      invariant seen == PidSet(processes[..i])
      invariant upserted == Upserted(index, processes[..i], pinned)
    {
      var p := processes[i];
      UpsertedSnoc(index, processes, i, pinned);
      seen := seen + {p.processId};
      upserted := upserted[p.processId := Upsert(upserted, p, pinned)];
    }
    assert processes[..|processes|] == processes;
  }

  /** `SyncProcessIndex`'s second loop: drops each stale id, in no particular
      order, from the index and from the pinned set. */
  method DropStale(index: map<int, Row>, pinned: set<int>, stale: set<int>)
    returns (index': map<int, Row>, pinned': set<int>)
    ensures index' == index - stale && pinned' == pinned - stale
  {
    index', pinned' := index, pinned;
    var rest := stale;
    while rest != {}
      invariant rest <= stale
      invariant index' == index - (stale - rest) && pinned' == pinned - (stale - rest)
      decreases rest
    {
      var pid := Pick(rest);
      index' := index' - {pid};
      pinned' := pinned' - {pid};
      rest := rest - {pid};
    }
  }

  /** `SyncProcessMeta`'s loop: renames the known rows and adds the others. */
  method MetaRows(index: map<int, Row>, metas: seq<ProcessMeta>) returns (synced: map<int, Row>)
    ensures synced == MetaSynced(index, metas)
  {
    synced := index;
    for i := 0 to |metas|
      invariant synced == MetaSynced(index, metas[..i])
    {
      var m := metas[i];
      MetaSyncedSnoc(index, metas, i);
      if m.processId in synced {
        synced := synced[m.processId := UpdateMetaFrom(synced[m.processId], m)];
      } else {
        synced := synced[m.processId := MetaRow(m)];
      }
    }
    assert metas[..|metas|] == metas;
  }

  // ---------------------------------------------------------------------
  // The view model

  class ViewModel {
    var panelState: PanelState
    var stateBeforeClickthrough: PanelState
    var processIndex: map<int, Row>
    var pinnedProcessIds: set<int>
    var pendingProcesses: Option<seq<ProcessInfo>>
    var lastProcessRefresh: int
    /** Whether the refresh timer is running. */
    var timerEnabled: bool
    /** The refresh interval, in ticks. */
    const processRefreshInterval: int
    const enableProcessRefreshThrottling: bool
    const topProcesses: ObservableCollection<int>
    const pinnedProcesses: ObservableCollection<int>
    const allProcesses: ObservableCollection<int>

    function CurrentPanel(): Panel
      reads this
    {
      Panel(panelState, stateBeforeClickthrough)
    }

    /** The three collections are distinct objects, rows sit under their
        ids, and a pinned row is in the pinned set. */
    predicate Valid()
      reads this
    {
      && topProcesses != pinnedProcesses && topProcesses != allProcesses && pinnedProcesses != allProcesses
      && processRefreshInterval > 0
      && IndexConsistent(processIndex)
      && (forall pid :: pid in processIndex && processIndex[pid].isPinned ==> pid in pinnedProcessIds)
    }

    /** A pending snapshot always has the timer running to apply it. */
    predicate PendingScheduled()
      reads this
    {
      pendingProcesses.Some? ==> timerEnabled
    }

    /** No collection repeats a row. */
    predicate Tidy()
      reads this, topProcesses, pinnedProcesses, allProcesses
    {
      NoDuplicates(allProcesses.items) && NoDuplicates(topProcesses.items) && NoDuplicates(pinnedProcesses.items)
    }

    /** The pinned collection shows each pinned process that has a row, once. */
    ghost predicate PinnedShown()
      reads this, pinnedProcesses
    {
      && NoDuplicates(pinnedProcesses.items)
      && forall pid :: pid in pinnedProcesses.items <==> pid in pinnedProcessIds && pid in processIndex
    }

    /** The all and top collections show `ps` by descending footprint. */
    predicate Shows(ps: seq<ProcessInfo>)
      reads this, topProcesses, allProcesses
    {
      && AllIndexed(Pids(ps), processIndex)
      && allProcesses.items == OrderByFootprint(Pids(ps), processIndex)
      && topProcesses.items == Top(allProcesses.items)
    }

    /** The constructor, with the options' throttling switch and interval. */
    constructor(enableThrottling: bool, refreshIntervalMs: int)
      ensures Valid() && PendingScheduled() && Tidy()
      ensures CurrentPanel() == Panel(Collapsed, Collapsed)
      ensures processIndex == map[] && pinnedProcessIds == {}
      ensures pendingProcesses.None? && lastProcessRefresh == MinValueTicks && !timerEnabled
      ensures enableProcessRefreshThrottling == enableThrottling
      ensures processRefreshInterval == NormalizeProcessRefreshIntervalMs(refreshIntervalMs) * TicksPerMillisecond
      ensures allProcesses.items == [] && topProcesses.items == [] && pinnedProcesses.items == []
    {
      panelState := Collapsed;
      stateBeforeClickthrough := Collapsed;
      processIndex := map[];
      pinnedProcessIds := {};
      pendingProcesses := None;
      lastProcessRefresh := MinValueTicks;
      timerEnabled := false;
      enableProcessRefreshThrottling := enableThrottling;
      processRefreshInterval := NormalizeProcessRefreshIntervalMs(refreshIntervalMs) * TicksPerMillisecond;
      topProcesses := new ObservableCollection([]);
      pinnedProcesses := new ObservableCollection([]);
      allProcesses := new ObservableCollection([]);
    }

    method OnBarPointerEnter()
      modifies this
      ensures CurrentPanel() == PointerEnter(old(CurrentPanel()))
      ensures processIndex == old(processIndex) && pinnedProcessIds == old(pinnedProcessIds)
      ensures pendingProcesses == old(pendingProcesses) && timerEnabled == old(timerEnabled)
      ensures lastProcessRefresh == old(lastProcessRefresh)
    {
      if panelState == Collapsed {
        panelState := Expanded;
      }
    }

    method OnBarPointerLeave()
      modifies this
      ensures CurrentPanel() == PointerLeave(old(CurrentPanel()))
      ensures processIndex == old(processIndex) && pinnedProcessIds == old(pinnedProcessIds)
      ensures pendingProcesses == old(pendingProcesses) && timerEnabled == old(timerEnabled)
      ensures lastProcessRefresh == old(lastProcessRefresh)
    {
      if panelState == Expanded {
        panelState := Collapsed;
      }
    }

    method OnBarClick()
      modifies this
      ensures CurrentPanel() == BarClick(old(CurrentPanel()))
      ensures processIndex == old(processIndex) && pinnedProcessIds == old(pinnedProcessIds)
      ensures pendingProcesses == old(pendingProcesses) && timerEnabled == old(timerEnabled)
      ensures lastProcessRefresh == old(lastProcessRefresh)
    {
      if panelState == Expanded {
        panelState := Locked;
      } else if panelState == Locked {
        panelState := Expanded;
      }
    }

    method EnterClickthroughMode()
      modifies this
      ensures CurrentPanel() == EnterClickthrough(old(CurrentPanel()))
      ensures processIndex == old(processIndex) && pinnedProcessIds == old(pinnedProcessIds)
      ensures pendingProcesses == old(pendingProcesses) && timerEnabled == old(timerEnabled)
      ensures lastProcessRefresh == old(lastProcessRefresh)
    {
      stateBeforeClickthrough := panelState;
      panelState := Clickthrough;
    }

    method ExitClickthroughMode()
      modifies this
      ensures CurrentPanel() == ExitClickthrough(old(CurrentPanel()))
      ensures processIndex == old(processIndex) && pinnedProcessIds == old(pinnedProcessIds)
      ensures pendingProcesses == old(pendingProcesses) && timerEnabled == old(timerEnabled)
      ensures lastProcessRefresh == old(lastProcessRefresh)
    {
      if panelState == Clickthrough {
        panelState := stateBeforeClickthrough;
      }
    }

    /** The pinned processes that have rows, in the pinned set's enumeration
        order, which is not specified. */
    method PinnedRows() returns (rows: seq<int>)
      ensures NoDuplicates(rows)
      ensures forall pid :: pid in rows <==> pid in pinnedProcessIds && pid in processIndex
    {
      var rest := pinnedProcessIds;
      rows := [];
      while rest != {}
        invariant rest <= pinnedProcessIds
        invariant NoDuplicates(rows)
        invariant forall pid :: pid in rows <==> pid in pinnedProcessIds - rest && pid in processIndex
        decreases rest
      {
        var pid := Pick(rest);
        if pid in processIndex {
          rows := rows + [pid];
        }
        rest := rest - {pid};
      }
    }

    /** `SyncPinnedCollection`. */
    method SyncPinnedCollection()
      modifies pinnedProcesses
      ensures old(NoDuplicates(pinnedProcesses.items)) ==> PinnedShown()
    {
      var orderedPinned := PinnedRows();
      SyncCollectionOrder(pinnedProcesses, orderedPinned);
    }

    /** `TogglePin`: flips the process's membership of the pinned set, sets
        its row's pin to match, and resyncs the pinned collection; no row, no
        change. */
    method TogglePin(row: Option<int>)
      requires Valid()
      modifies this, pinnedProcesses
      ensures Valid()
      ensures row.None? ==> pinnedProcessIds == old(pinnedProcessIds) && processIndex == old(processIndex)
      ensures row.None? ==> pinnedProcesses.items == old(pinnedProcesses.items)
      ensures row.Some? ==> pinnedProcessIds == Toggle(old(pinnedProcessIds), row.value)
      ensures row.Some? && row.value in old(processIndex) ==>
        processIndex == old(processIndex)[row.value := old(processIndex)[row.value].(isPinned := row.value in pinnedProcessIds)]
      ensures row.Some? && row.value !in old(processIndex) ==> processIndex == old(processIndex)
      ensures row.Some? && old(NoDuplicates(pinnedProcesses.items)) ==> PinnedShown()
      ensures CurrentPanel() == old(CurrentPanel())
      ensures pendingProcesses == old(pendingProcesses) && timerEnabled == old(timerEnabled)
      ensures lastProcessRefresh == old(lastProcessRefresh)
    {
      if row.None? {
        return;
      }
      var pid := row.value;
      var isPinned;
      if pid in pinnedProcessIds {
        pinnedProcessIds := pinnedProcessIds - {pid};
        isPinned := false;
      } else {
        pinnedProcessIds := pinnedProcessIds + {pid};
        isPinned := true;
      }
      if pid in processIndex {
        processIndex := processIndex[pid := processIndex[pid].(isPinned := isPinned)];
      }
      SyncPinnedCollection();
    }

    /** `SyncProcessIndex`: creates or updates a row per process, sets each
        row's pin from the pinned set, then drops the rows, and the pins, of
        processes no longer reported. */
    method SyncProcessIndex(processes: seq<ProcessInfo>)
      requires Valid()
      modifies this
      ensures Valid()
      ensures processIndex == SyncedIndex(old(processIndex), processes, old(pinnedProcessIds))
      ensures pinnedProcessIds == SyncedPins(old(processIndex), processes, old(pinnedProcessIds))
      ensures CurrentPanel() == old(CurrentPanel())
      ensures pendingProcesses == old(pendingProcesses) && timerEnabled == old(timerEnabled)
      ensures lastProcessRefresh == old(lastProcessRefresh)
    {
      ghost var synced := SyncedIndex(processIndex, processes, pinnedProcessIds);
      ghost var pins := SyncedPins(processIndex, processes, pinnedProcessIds);
      var index, seen := UpsertRows(processIndex, processes, pinnedProcessIds);
      var stale := index.Keys - seen;
      assert stale == processIndex.Keys - PidSet(processes);
      var pinned;
      index, pinned := DropStale(index, pinnedProcessIds, stale);
      assert index == synced && pinned == pins;
      assert forall pid :: pid in index && index[pid].isPinned ==> pid in pinned;
      processIndex, pinnedProcessIds := index, pinned;
    }

    /** `SyncProcessMeta`: adds a metric-less row for each unknown process and
        renames the known ones. */
    method SyncProcessMeta(metas: seq<ProcessMeta>)
      requires Valid()
      modifies this
      ensures Valid()
      ensures processIndex == MetaSynced(old(processIndex), metas)
      ensures pinnedProcessIds == old(pinnedProcessIds)
      ensures CurrentPanel() == old(CurrentPanel())
      ensures pendingProcesses == old(pendingProcesses) && timerEnabled == old(timerEnabled)
      ensures lastProcessRefresh == old(lastProcessRefresh)
    {
      var index := MetaRows(processIndex, metas);
      MetaSyncedRows(processIndex, metas);
      processIndex := index;
    }

    /** `ApplyPendingProcessRefresh`: takes the pending snapshot, if any,
        stamps the refresh time, syncs the index, and puts the all, top and
        pinned collections in order. */
    method ApplyPendingProcessRefresh(now: int)
      requires Valid()
      modifies this, allProcesses, topProcesses, pinnedProcesses
      ensures Valid()
      ensures old(pendingProcesses).None? ==>
        && processIndex == old(processIndex) && pinnedProcessIds == old(pinnedProcessIds)
        && lastProcessRefresh == old(lastProcessRefresh)
        && allProcesses.items == old(allProcesses.items) && topProcesses.items == old(topProcesses.items)
        && pinnedProcesses.items == old(pinnedProcesses.items)
      ensures old(pendingProcesses).Some? ==>
        var ps := old(pendingProcesses).value;
        && processIndex == SyncedIndex(old(processIndex), ps, old(pinnedProcessIds))
        && pinnedProcessIds == SyncedPins(old(processIndex), ps, old(pinnedProcessIds))
        && lastProcessRefresh == now
        && (old(Tidy()) && NoDuplicates(Pids(ps)) ==> Shows(ps) && PinnedShown() && Tidy())
      ensures pendingProcesses.None? && timerEnabled == old(timerEnabled)
      ensures CurrentPanel() == old(CurrentPanel())
    {
      if pendingProcesses.None? {
        return;
      }
      var processes := pendingProcesses.value;
      pendingProcesses := None;
      lastProcessRefresh := now;
      SyncProcessIndex(processes);
      SyncCollections(processes);
    }

    /** The end of `ApplyPendingProcessRefresh`: the rows of the snapshot by
        descending footprint, the first five of them, and the pinned rows. */
    method SyncCollections(processes: seq<ProcessInfo>)
      requires Valid() && PidSet(processes) <= processIndex.Keys
      modifies allProcesses, topProcesses, pinnedProcesses
      ensures old(Tidy()) && NoDuplicates(Pids(processes)) ==> Shows(processes) && PinnedShown() && Tidy()
    {
      SyncOrderedCollections(processes);
      SyncPinnedCollection();
    }

    /** The all and top collections, by descending footprint. */
    method SyncOrderedCollections(processes: seq<ProcessInfo>)
      requires Valid() && PidSet(processes) <= processIndex.Keys
      modifies allProcesses, topProcesses
      ensures NoDuplicates(old(allProcesses.items)) && NoDuplicates(old(topProcesses.items)) && NoDuplicates(Pids(processes)) ==>
        Shows(processes) && NoDuplicates(allProcesses.items) && NoDuplicates(topProcesses.items)
    {
      assert AllIndexed(Pids(processes), processIndex);
      var orderedAll := OrderByFootprint(Pids(processes), processIndex);
      var orderedTop := Top(orderedAll);
      OrderedHaveNoDuplicates(Pids(processes), processIndex);
      SyncCollectionOrder(allProcesses, orderedAll);
      SyncCollectionOrder(topProcesses, orderedTop);
    }

    /** `QueueProcessRefresh`: without throttling the snapshot is applied at
        once; with it, it is applied at once when the interval has passed
        since the last refresh, and otherwise left pending with the timer
        running. */
    method QueueProcessRefresh(processes: seq<ProcessInfo>, now: int)
      requires Valid() && PendingScheduled()
      modifies this, allProcesses, topProcesses, pinnedProcesses
      ensures Valid() && PendingScheduled()
      ensures var applies := !enableProcessRefreshThrottling
          || ShouldApplyRefreshImmediately(now, old(lastProcessRefresh), processRefreshInterval);
        if applies then
          && pendingProcesses.None? && lastProcessRefresh == now
          && processIndex == SyncedIndex(old(processIndex), processes, old(pinnedProcessIds))
          && pinnedProcessIds == SyncedPins(old(processIndex), processes, old(pinnedProcessIds))
          && timerEnabled == old(timerEnabled)
          && (old(Tidy()) && NoDuplicates(Pids(processes)) ==> Shows(processes) && PinnedShown() && Tidy())
        else
          && pendingProcesses == Some(processes) && timerEnabled
          && lastProcessRefresh == old(lastProcessRefresh)
          && processIndex == old(processIndex) && pinnedProcessIds == old(pinnedProcessIds)
          && allProcesses.items == old(allProcesses.items) && topProcesses.items == old(topProcesses.items)
          && pinnedProcesses.items == old(pinnedProcesses.items)
      ensures CurrentPanel() == old(CurrentPanel())
    {
      if !enableProcessRefreshThrottling {
        pendingProcesses := Some(processes);
        ApplyPendingProcessRefresh(now);
        return;
      }
      pendingProcesses := Some(processes);
      if ShouldApplyRefreshImmediately(now, lastProcessRefresh, processRefreshInterval) {
        ApplyPendingProcessRefresh(now);
        return;
      }
      if !timerEnabled {
        timerEnabled := true;
      }
    }

    /** The timer's tick: stops the timer when nothing is pending, waits while
        the interval has not passed, and otherwise applies the pending
        snapshot and stops. */
    method OnProcessRefreshTimerTick(now: int)
      requires Valid() && PendingScheduled()
      modifies this, allProcesses, topProcesses, pinnedProcesses
      ensures Valid() && PendingScheduled()
      ensures old(pendingProcesses).None? || !ShouldApplyRefreshImmediately(now, old(lastProcessRefresh), processRefreshInterval) ==>
        && pendingProcesses == old(pendingProcesses)
        && lastProcessRefresh == old(lastProcessRefresh)
        && processIndex == old(processIndex) && pinnedProcessIds == old(pinnedProcessIds)
        && allProcesses.items == old(allProcesses.items) && topProcesses.items == old(topProcesses.items)
        && pinnedProcesses.items == old(pinnedProcesses.items)
      ensures old(pendingProcesses).None? ==> !timerEnabled
      ensures old(pendingProcesses).Some? && !ShouldApplyRefreshImmediately(now, old(lastProcessRefresh), processRefreshInterval) ==>
        timerEnabled
      ensures old(pendingProcesses).Some? && ShouldApplyRefreshImmediately(now, old(lastProcessRefresh), processRefreshInterval) ==>
        var ps := old(pendingProcesses).value;
        && pendingProcesses.None? && !timerEnabled && lastProcessRefresh == now
        && processIndex == SyncedIndex(old(processIndex), ps, old(pinnedProcessIds))
        && pinnedProcessIds == SyncedPins(old(processIndex), ps, old(pinnedProcessIds))
        && (old(Tidy()) && NoDuplicates(Pids(ps)) ==> Shows(ps) && PinnedShown() && Tidy())
      ensures CurrentPanel() == old(CurrentPanel())
    {
      if pendingProcesses.None? {
        timerEnabled := false;
        return;
      }
      if !ShouldApplyRefreshImmediately(now, lastProcessRefresh, processRefreshInterval) {
        return;
      }
      ApplyPendingProcessRefresh(now);
      if pendingProcesses.None? {
        timerEnabled := false;
      }
    }
  }
}
