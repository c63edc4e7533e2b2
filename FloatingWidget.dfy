/** The desktop floating widget's web page: a four-state panel (collapsed,
    expanded on hover, locked open, locked open and click-through), the
    messages it posts to the hosting window, and the five busiest
    processes it lists. */
module FloatingWidget {
  import opened Common
  import opened ProcessList

  datatype WidgetState = Collapsed | Expanded | Locked | Clickthrough

  /** What the page posts to the hosting window. */
  datatype HostMessage =
    | MetricAction(metricId: string, action: string)
    | ProcessAction(processId: int, processName: string)
    | SetClickthrough(enabled: bool)

  // ---------------------------------------------------------------------
  // The state machine

  /** The hover effect: hovering opens a collapsed panel, leaving closes
      an expanded one; locked panels ignore the pointer. */
  function HoverEffect(s: WidgetState, hovering: bool): (r: WidgetState)
    ensures s == Collapsed && hovering ==> r == Expanded
    ensures s == Expanded && !hovering ==> r == Collapsed
    ensures !(s == Collapsed && hovering) && !(s == Expanded && !hovering) ==> r == s
  {
    if s == Collapsed && hovering then Expanded
    else if s == Expanded && !hovering then Collapsed
    else s
  }

  /** A click on the container itself (not on a child): an expanded panel
      locks, a locked one collapses. */
  function BackgroundClick(s: WidgetState, onBackground: bool): (r: WidgetState)
    ensures !onBackground ==> r == s
    ensures onBackground && s == Expanded ==> r == Locked
    ensures onBackground && s == Locked ==> r == Collapsed
    ensures s == Collapsed || s == Clickthrough ==> r == s
  {
    if onBackground then
      if s == Expanded then Locked
      else if s == Locked then Collapsed
      else s
    else s
  }

  /** The click-through button: locked and click-through swap, and the
      host is told the new click-through setting when there is a host. */
  function ToggleClickthrough(s: WidgetState, hasHost: bool): (r: (WidgetState, Option<HostMessage>))
    ensures s == Locked ==> r.0 == Clickthrough
    ensures s == Clickthrough ==> r.0 == Locked
    ensures s == Collapsed || s == Expanded ==> r == (s, None)
    ensures r.1.Some? <==> hasHost && (s == Locked || s == Clickthrough)
    ensures r.1.Some? ==> r.1.value == SetClickthrough(r.0 == Clickthrough)
  {
    if s == Locked then (Clickthrough, if hasHost then Some(SetClickthrough(true)) else None)
    else if s == Clickthrough then (Locked, if hasHost then Some(SetClickthrough(false)) else None)
    else (s, None)
  }

  /** The lock button: only a locked panel unlocks, to collapsed. */
  function UnlockClick(s: WidgetState): (r: WidgetState)
    ensures s == Locked ==> r == Collapsed
    ensures s != Locked ==> r == s
  {
    if s == Locked then Collapsed else s
  }

  predicate IsExpanded(s: WidgetState)
  {
    s == Expanded || s == Locked || s == Clickthrough
  }

  predicate ShowControls(s: WidgetState)
  {
    s == Locked || s == Clickthrough
  }

  /** The container lets the pointer through only in click-through. */
  predicate PassesPointer(s: WidgetState)
  {
    s == Clickthrough
  }

  /** A metric in the summary bar asks the host to run its action only
      when clicking it is enabled and there is a host. */
  function MetricClick(metricId: string, enabled: bool, action: string, hasHost: bool): (r: Option<HostMessage>)
    ensures r.Some? <==> enabled && hasHost
    ensures r.Some? ==> r.value == MetricAction(metricId, action)
  {
    if !enabled then None
    else if hasHost then Some(MetricAction(metricId, action))
    else None
  }

  function ProcessClick(p: Process, hasHost: bool): (r: Option<HostMessage>)
    ensures r.Some? <==> hasHost
    ensures r.Some? ==> r.value == ProcessAction(p.processId, p.processName)
  {
    if hasHost then Some(ProcessAction(p.processId, p.processName)) else None
  }

  /** The hover effect has reached its fixed point. */
  predicate Settled(s: WidgetState, hovering: bool)
  {
    HoverEffect(s, hovering) == s
  }

  /** Running the effect once reaches its fixed point, so React re-running
      it after the state it set changes nothing more. */
  lemma HoverEffectSettles(s: WidgetState, hovering: bool)
    ensures Settled(HoverEffect(s, hovering), hovering)
  {
  }

  /** The panel is shown open in the three open states, and its controls
      only in the two locked ones. */
  lemma ControlsOnlyWhenExpanded(s: WidgetState)
    ensures ShowControls(s) ==> IsExpanded(s)
    ensures IsExpanded(s) <==> s != Collapsed
    ensures ShowControls(s) <==> s != Collapsed && s != Expanded
  {
  }

  /** Toggling click-through twice returns to the state it started from,
      having told the host "on" and then "off" (or the reverse). */
  lemma ToggleTwice(s: WidgetState, hasHost: bool)
    requires ShowControls(s)
    ensures var (s1, m1) := ToggleClickthrough(s, hasHost);
      var (s2, m2) := ToggleClickthrough(s1, hasHost);
      && s2 == s
      && (hasHost ==> m1.Some? && m2.Some? && m1.value.enabled != m2.value.enabled)
  {
  }

  /** A settled state is collapsed exactly when the pointer is away from
      an unlocked panel. */
  lemma SettledStates(s: WidgetState, hovering: bool)
    requires Settled(s, hovering)
    ensures s == Collapsed ==> !hovering
    ensures s == Expanded ==> hovering
  {
  }

  // ---------------------------------------------------------------------
  // The component's state: each handler sets the state, then the hover
  // effect runs on the new state

  class Widget {
    const hasHost: bool
    var state: WidgetState
    var isHovering: bool
    var posted: seq<HostMessage>

    predicate Valid()
      reads this
    {
      Settled(state, isHovering)
    }

    constructor(hasHost: bool)
      ensures Valid()
      ensures this.hasHost == hasHost && state == Collapsed && !isHovering && posted == []
    {
      this.hasHost := hasHost;
      state := Collapsed;
      isHovering := false;
      posted := [];
    }

    method MouseEnter()
      modifies this
      ensures Valid()
      ensures isHovering && state == HoverEffect(old(state), true) && posted == old(posted)
    {
      isHovering := true;
      state := HoverEffect(state, true);
    }

    method MouseLeave()
      modifies this
      ensures Valid()
      ensures !isHovering && state == HoverEffect(old(state), false) && posted == old(posted)
    {
      isHovering := false;
      state := HoverEffect(state, false);
    }

    method OnBackgroundClick(onBackground: bool)
      modifies this
      ensures Valid()
      ensures isHovering == old(isHovering) && posted == old(posted)
      ensures state == HoverEffect(BackgroundClick(old(state), onBackground), isHovering)
    {
      state := HoverEffect(BackgroundClick(state, onBackground), isHovering);
    }

    method OnToggleClickthrough()
      modifies this
      ensures Valid()
      ensures isHovering == old(isHovering)
      ensures var (s, m) := ToggleClickthrough(old(state), hasHost);
        state == HoverEffect(s, isHovering)
        && posted == old(posted) + (if m.Some? then [m.value] else [])
    {
      var (s, m) := ToggleClickthrough(state, hasHost);
      state := HoverEffect(s, isHovering);
      if m.Some? {
        posted := posted + [m.value];
      }
    }

    method OnUnlockClick()
      modifies this
      ensures Valid()
      ensures isHovering == old(isHovering) && posted == old(posted)
      ensures state == HoverEffect(UnlockClick(old(state)), isHovering)
    {
      state := HoverEffect(UnlockClick(state), isHovering);
    }

    method OnMetricClick(metricId: string, enabled: bool, action: string)
      modifies this
      ensures state == old(state) && isHovering == old(isHovering)
      ensures var m := MetricClick(metricId, enabled, action, hasHost);
        posted == old(posted) + (if m.Some? then [m.value] else [])
    {
      var m := MetricClick(metricId, enabled, action, hasHost);
      if m.Some? {
        posted := posted + [m.value];
      }
    }
  }

  /** Over the widget, a background click on a locked panel collapses it
      and the hover effect opens it again at once: while the pointer is
      over it, only leaving closes the panel. */
  method UnlockWhileHoveringScenario(hasHost: bool) returns (afterLock: WidgetState, afterUnlock: WidgetState, afterLeave: WidgetState)
    ensures afterLock == Locked && afterUnlock == Expanded && afterLeave == Collapsed
  {
    var w := new Widget(hasHost);
    w.MouseEnter();
    w.OnBackgroundClick(true);
    afterLock := w.state;
    w.OnBackgroundClick(true);
    afterUnlock := w.state;
    w.MouseLeave();
    afterLeave := w.state;
  }

  /** Locking, switching click-through on and off posts exactly the two
      settings, and the panel stays open after the pointer leaves. */
  method ClickthroughScenario() returns (posted: seq<HostMessage>, s: WidgetState)
    ensures posted == [SetClickthrough(true), SetClickthrough(false)]
    ensures s == Locked
  {
    var w := new Widget(true);
    w.MouseEnter();
    w.OnBackgroundClick(true);
    w.OnToggleClickthrough();
    w.OnToggleClickthrough();
    w.MouseLeave();
    posted := w.posted;
    s := w.state;
  }

  // ---------------------------------------------------------------------
  // The five busiest processes

  /** A process's CPU value, 0 when missing. */
  function Cpu(p: Process): real
  {
    MetricOrZero(p, "cpu")
  }

  /** `bCpu - aCpu`: higher CPU first. */
  function ByCpuDescending(): (Process, Process) -> real
  {
    (a: Process, b: Process) => Cpu(b) - Cpu(a)
  }

  function TopCount(n: nat): nat
  {
    if n < 5 then n else 5
  }

  /** `a.metrics['cpu']?.value || 0` as written. The hub delivers each
      metric as a plain number (the process table and the summary read it
      as one), and a number has no `value` property, so the read is
      `undefined` whether or not the metric is there, and `|| 0` makes it 0. */
  function ValueProperty(metric: Option<real>): Option<real>
  {
    None
  }

  function CpuAsWritten(p: Process): real
  {
    var v := ValueProperty(if "cpu" in p.metrics then Some(p.metrics["cpu"]) else None);
    if v.Some? && v.value != 0.0 then v.value else 0.0
  }

  function ByCpuDescendingAsWritten(): (Process, Process) -> real
  {
    (a: Process, b: Process) => CpuAsWritten(b) - CpuAsWritten(a)
  }

  /** `top5Processes` as written: the comparator sees only zeros. */
  function Top5AsWritten(processes: seq<Process>): (r: seq<Process>)
    ensures |r| == TopCount(|processes|)
  {
    SortBy(processes, ByCpuDescendingAsWritten())[..TopCount(|processes|)]
  }

  /** A stable sort under a comparator that calls every pair a tie keeps
      the input order. */
  lemma {:induction false} SortByAllTiesKeepsOrder<T>(xs: seq<T>, cmp: (T, T) -> real)
    requires forall a, b :: cmp(a, b) == 0.0
    ensures SortBy(xs, cmp) == xs
  {
    if xs != [] {
      var pre := xs[..|xs| - 1];
      SortByAllTiesKeepsOrder(pre, cmp);
      if pre != [] {
        assert cmp(pre[|pre| - 1], xs[|xs| - 1]) == 0.0;
      }
      assert pre + [xs[|xs| - 1]] == xs;
    }
  }

  /** As written, the widget lists the first five processes in the order
      they arrived, whatever their CPU use. */
  lemma Top5AsWrittenKeepsArrivalOrder(processes: seq<Process>)
    ensures Top5AsWritten(processes) == processes[..TopCount(|processes|)]
  {
    SortByAllTiesKeepsOrder(processes, ByCpuDescendingAsWritten());
  }

  /** Two processes using 10 % and 90 % CPU: as written the idle one is
      listed first; sorting by the number itself lists the busy one first. */
  lemma Top5AsWrittenUnsorted()
    ensures var idle := Process(1, "idle", None, None, map["cpu" := 10.0]);
      var busy := Process(2, "busy", None, None, map["cpu" := 90.0]);
      && Top5AsWritten([idle, busy]) == [idle, busy]
      && Top5([idle, busy]) == [busy, idle]
  {
    var idle := Process(1, "idle", None, None, map["cpu" := 10.0]);
    var busy := Process(2, "busy", None, None, map["cpu" := 90.0]);
    Top5AsWrittenKeepsArrivalOrder([idle, busy]);
    assert [idle, busy][..1] == [idle];
    assert Cpu(idle) == 10.0 && Cpu(busy) == 90.0;
    assert SortBy([idle], ByCpuDescending()) == [idle];
    assert ByCpuDescending()(idle, busy) > 0.0;
  }

  /** `top5Processes` with the CPU number read directly: sorted by CPU,
      highest first, then the first five. */
  function Top5(processes: seq<Process>): (r: seq<Process>)
    ensures |r| == TopCount(|processes|)
  {
    SortBy(processes, ByCpuDescending())[..TopCount(|processes|)]
  }

  lemma ByCpuDescendingAntisymmetric()
    ensures Antisymmetric(ByCpuDescending())
  {
  }

  /** Neighbours in descending CPU order make the whole sequence descending. */
  lemma {:induction false} DescendingThroughout(s: seq<Process>)
    requires AdjacentSorted(s, ByCpuDescending())
    ensures forall i, j :: 0 <= i <= j < |s| ==> Cpu(s[i]) >= Cpu(s[j])
  {
    if s != [] {
      var pre := s[..|s| - 1];
      assert AdjacentSorted(pre, ByCpuDescending()) by {
        forall i | 0 < i < |pre| ensures ByCpuDescending()(pre[i - 1], pre[i]) <= 0.0 {
          assert pre[i - 1] == s[i - 1] && pre[i] == s[i];
        }
      }
      DescendingThroughout(pre);
      forall i, j | 0 <= i <= j < |s| ensures Cpu(s[i]) >= Cpu(s[j]) {
        if j < |s| - 1 {
          assert s[i] == pre[i] && s[j] == pre[j];
        } else if i < j {
          assert Cpu(s[j - 1]) >= Cpu(s[j]) by {
            assert ByCpuDescending()(s[j - 1], s[j]) <= 0.0;
          }
          assert s[i] == pre[i] && s[j - 1] == pre[j - 1];
        }
      }
    }
  }

  /** Cutting a descending sequence at k leaves nothing behind that is
      above anything kept. */
  lemma PrefixHoldsLargest(s: seq<Process>, k: nat)
    requires k <= |s|
    requires forall i, j :: 0 <= i <= j < |s| ==> Cpu(s[i]) >= Cpu(s[j])
    ensures multiset(s[..k]) <= multiset(s)
    ensures forall q, i :: q in multiset(s) - multiset(s[..k]) && 0 <= i < k ==> Cpu(s[..k][i]) >= Cpu(q)
  {
    var r, rest := s[..k], s[k..];
    assert s == r + rest;
    assert multiset(s) == multiset(r) + multiset(rest);
    forall q, i | q in multiset(s) - multiset(r) && 0 <= i < k ensures Cpu(r[i]) >= Cpu(q) {
      assert q in rest;
      var j :| 0 <= j < |rest| && rest[j] == q;
      assert s[k + j] == q && s[i] == r[i];
    }
  }

  /** The widget lists at most five processes, taken from the input,
      highest CPU first, and no process left out uses more CPU than any
      listed one. */
  lemma Top5Facts(processes: seq<Process>)
    ensures var r := Top5(processes);
      && |r| <= 5
      && (|processes| >= 5 ==> |r| == 5)
      && multiset(r) <= multiset(processes)
      && (forall i, j :: 0 <= i <= j < |r| ==> Cpu(r[i]) >= Cpu(r[j]))
      && (forall q, i :: q in multiset(processes) - multiset(r) && 0 <= i < |r| ==> Cpu(r[i]) >= Cpu(q))
  {
    var s := SortBy(processes, ByCpuDescending());
    ByCpuDescendingAntisymmetric();
    SortBySorted(processes, ByCpuDescending());
    DescendingThroughout(s);
    PrefixHoldsLargest(s, TopCount(|processes|));
  }
}
