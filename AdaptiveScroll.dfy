/** Adaptive scrolling of the dashboard: the page scrolls as a whole
    ('page' mode) until the process table makes up enough of the page, at
    which point the table scrolls on its own ('process' mode). Entering
    and leaving use different thresholds so the mode does not flicker.
    The DOM measurements are inputs. */
module AdaptiveScroll {
  import opened Common
  import opened Numbers

  datatype ScrollMode = Page | ProcessMode

  datatype ScrollState = ScrollState(mode: ScrollMode, processTableMaxHeight: real)

  /** The hook's options, with their defaults below. */
  datatype Options = Options(
    enabled: bool,
    processVisibleRatioThreshold: real,
    processVisibleRatioRelease: real,
    mobileBottomPaddingPx: real,
    minProcessTableHeightPx: real)

  function DefaultOptions(enabled: bool): Options
  {
    Options(enabled, 0.5, 0.45, 76.0, 160.0)
  }

  const InitialState := ScrollState(Page, 0.0)

  /** The gap kept below the table. */
  const BottomGap := 12.0

  /** What one frame measures: the window height, whether the mobile
      media query matches, the table's top edge and content height when
      the table element exists, and the shell's scroll offset. */
  datatype Measurement = Measurement(
    viewportHeight: real,
    isMobile: bool,
    tableTop: Option<real>,
    tableContentHeight: real,
    scrollTop: real)

  function BottomPadding(o: Options, m: Measurement): real
  {
    if m.isMobile then o.mobileBottomPaddingPx else 0.0
  }

  /** The table's maximum height: the room below its top edge, floored,
      never below the minimum; 0 with no table. */
  function MaxHeight(o: Options, m: Measurement): (h: real)
    ensures m.tableTop.Some? ==> h >= o.minProcessTableHeightPx
    ensures m.tableTop.None? ==> h == 0.0
  {
    if m.tableTop.Some? then
      MaxReal(o.minProcessTableHeightPx,
              (m.viewportHeight - m.tableTop.value - BottomPadding(o, m) - BottomGap).Floor as real)
    else 0.0
  }

  /** The table top clamped into the viewport (the viewport height when
      there is no table). */
  function SafeTableTop(m: Measurement): (t: real)
    requires m.viewportHeight > 0.0
    ensures 0.0 <= t <= m.viewportHeight
  {
    if m.tableTop.Some? then ClampReal(m.tableTop.value, 0.0, m.viewportHeight) else m.viewportHeight
  }

  function AvailableHeight(o: Options, m: Measurement): (a: real)
    requires m.viewportHeight > 0.0
    ensures a >= 0.0
  {
    MaxReal(0.0, m.viewportHeight - SafeTableTop(m) - BottomPadding(o, m) - BottomGap)
  }

  /** The table's share of the estimated page height. */
  function TableShare(o: Options, m: Measurement): real
    requires m.viewportHeight > 0.0
  {
    var content := if m.tableTop.Some? then m.tableContentHeight else 0.0;
    var total := SafeTableTop(m) + BottomPadding(o, m) + BottomGap + content;
    if total > 0.0 then content / total else 0.0
  }

  predicate CanEnterProcessMode(o: Options, m: Measurement)
    requires m.viewportHeight > 0.0
  {
    && m.scrollTop <= 1.0
    && m.tableTop.Some?
    && m.tableTop.value >= 0.0
    && AvailableHeight(o, m) >= o.minProcessTableHeightPx
    && TableShare(o, m) >= o.processVisibleRatioThreshold
  }

  predicate ShouldExitProcessMode(o: Options, m: Measurement)
    requires m.viewportHeight > 0.0
  {
    TableShare(o, m) < o.processVisibleRatioRelease || AvailableHeight(o, m) < o.minProcessTableHeightPx
  }

  /** The state update of `recompute`, with `None` for a frame in which
      the shell or the panel is not mounted. */
  function Recompute(prev: ScrollState, o: Options, measured: Option<Measurement>): (r: ScrollState)
    ensures !o.enabled && measured.Some? && measured.value.viewportHeight > 0.0 ==> r.mode == Page
  {
    if measured.None? then prev
    else
      var m := measured.value;
      if m.viewportHeight <= 0.0 then prev
      else
        var maxHeight := MaxHeight(o, m);
        if !o.enabled then ScrollState(Page, maxHeight)
        else
          var nextMode :=
            if prev.mode == Page && CanEnterProcessMode(o, m) then ProcessMode
            else if prev.mode == ProcessMode && ShouldExitProcessMode(o, m) then Page
            else prev.mode;
          if nextMode == prev.mode && maxHeight == prev.processTableMaxHeight then prev
          else ScrollState(nextMode, maxHeight)
  }

  /** What the hook returns: page mode and no height when disabled. */
  function Visible(o: Options, state: ScrollState): (r: ScrollState)
    ensures !o.enabled ==> r == InitialState
    ensures o.enabled ==> r == state
  {
    if !o.enabled then InitialState else state
  }

  // ---------------------------------------------------------------------
  // What the transition promises

  /** From page mode the table takes over exactly when the page is at the
      top, the table is measured below the top edge, it has room for the
      minimum height and its share reaches the entry threshold. */
  lemma EnterIff(prev: ScrollState, o: Options, m: Measurement)
    requires o.enabled && m.viewportHeight > 0.0 && prev.mode == Page
    ensures Recompute(prev, o, Some(m)).mode == ProcessMode <==> CanEnterProcessMode(o, m)
  {
  }

  /** From process mode the page takes over again exactly when the share
      falls below the release threshold or the room falls below the minimum. */
  lemma ExitIff(prev: ScrollState, o: Options, m: Measurement)
    requires o.enabled && m.viewportHeight > 0.0 && prev.mode == ProcessMode
    ensures Recompute(prev, o, Some(m)).mode == Page <==> ShouldExitProcessMode(o, m)
  {
  }

  /** Hysteresis: with room for the minimum height, a share between the
      release and the entry threshold keeps whichever mode is current. */
  lemma HysteresisBand(prev: ScrollState, o: Options, m: Measurement)
    requires o.enabled && m.viewportHeight > 0.0
    requires o.processVisibleRatioRelease <= TableShare(o, m) < o.processVisibleRatioThreshold
    requires AvailableHeight(o, m) >= o.minProcessTableHeightPx
    ensures Recompute(prev, o, Some(m)).mode == prev.mode
  {
  }

  /** Without room for the minimum height, process mode is always left,
      whatever the share. */
  lemma NoRoomLeavesProcessMode(prev: ScrollState, o: Options, m: Measurement)
    requires o.enabled && m.viewportHeight > 0.0 && prev.mode == ProcessMode
    requires AvailableHeight(o, m) < o.minProcessTableHeightPx
    ensures Recompute(prev, o, Some(m)).mode == Page
  {
  }

  /** Scrolled away from the top, page mode is never left. */
  lemma ScrolledStaysPage(prev: ScrollState, o: Options, m: Measurement)
    requires m.viewportHeight > 0.0 && prev.mode == Page && m.scrollTop > 1.0
    ensures Recompute(prev, o, Some(m)).mode == Page
  {
  }

  /** The height follows the measurement; when neither the mode nor the
      height changes the previous state is kept as it is; a frame without
      the elements or with no viewport changes nothing. */
  lemma RecomputeHeight(prev: ScrollState, o: Options, measured: Option<Measurement>)
    ensures var r := Recompute(prev, o, measured);
      && (measured.None? || measured.value.viewportHeight <= 0.0 ==> r == prev)
      && (measured.Some? && measured.value.viewportHeight > 0.0 ==>
            var m := measured.value;
            && r.processTableMaxHeight == MaxHeight(o, m)
            && (m.tableTop.Some? ==> r.processTableMaxHeight >= o.minProcessTableHeightPx)
            && (m.tableTop.None? ==> r.processTableMaxHeight == 0.0))
  {
  }

  /** Recomputing twice on the same measurement gives what the first
      recompute gave, with the default thresholds (release below entry). */
  lemma RecomputeSettles(prev: ScrollState, o: Options, m: Measurement)
    requires o.processVisibleRatioRelease <= o.processVisibleRatioThreshold
    ensures var r := Recompute(prev, o, Some(m));
      Recompute(r, o, Some(m)) == r
  {
  }

  // ---------------------------------------------------------------------
  // Frame scheduling

  /** The hook's mutable parts: the state and the pending animation frame. */
  class AdaptiveScroller {
    const options: Options
    var state: ScrollState
    var framePending: bool
    var framesRequested: nat

    constructor(options: Options)
      ensures this.options == options && state == InitialState
      ensures !framePending && framesRequested == 0
    {
      this.options := options;
      state := InitialState;
      framePending := false;
      framesRequested := 0;
    }

    /** `scheduleRecompute`: at most one frame is pending at a time. */
    method ScheduleRecompute()
      modifies this
      ensures framePending && state == old(state)
      ensures framesRequested == old(framesRequested) + (if old(framePending) then 0 else 1)
    {
      if framePending {
        return;
      }
      framePending := true;
      framesRequested := framesRequested + 1;
    }

    /** The animation frame: clear the pending frame and recompute. */
    method OnFrame(measured: Option<Measurement>)
      modifies this
      ensures !framePending && framesRequested == old(framesRequested)
      ensures state == Recompute(old(state), options, measured)
    {
      framePending := false;
      state := Recompute(state, options, measured);
    }

    /** The hook's return value. */
    method Current() returns (r: ScrollState)
      ensures r == Visible(options, state)
    {
      r := if !options.enabled then InitialState else state;
    }
  }

  /** A burst of resize and scroll events before the next frame requests
      one frame and one recompute. */
  method BurstScenario(o: Options, m: Measurement) returns (requested: nat, s: ScrollState)
    ensures requested == 1
    ensures s == Recompute(InitialState, o, Some(m))
  {
    var a := new AdaptiveScroller(o);
    a.ScheduleRecompute();
    a.ScheduleRecompute();
    a.ScheduleRecompute();
    a.OnFrame(Some(m));
    requested := a.framesRequested;
    s := a.state;
  }
}
