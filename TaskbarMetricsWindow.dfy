/** The taskbar metrics window (the compact "mini" window docked to a
    screen edge): its size limits, the nearest-edge choice, docking to an
    edge, snapping back to an edge when a drag ends near one, and docking
    from the floating window's geometry. Screens are parameters; the view
    model's measured size, which it recomputes for each presentation mode
    from text measurement, is a function of that mode held in the window's
    state. */
module TaskbarMetricsWindow {
  import opened Common
  import opened Numbers
  import opened WindowGeometry

  /** Extra offset from the working-area edge when docked (none). */
  const EdgeSnapMargin: real := 0.0
  /** A drag released this close to an edge snaps to it. */
  const DockSnapDistance: real := 80.0
  const MinFloatingWidth: real := 88.0
  const MinFloatingHeight: real := 20.0
  const MinDockSideWidth: real := 14.0
  const MaxDockSideWidth: real := 24.0
  const MinDockSideHeight: real := 20.0

  // ---------------------------------------------------------------------
  // Nearest edge

  /** The distances to the left, right, top and bottom edges. */
  datatype Distances = Distances(left: real, right: real, top: real, bottom: real)

  function DistanceTo(d: Distances, side: Side): real
  {
    match side
    case Left => d.left
    case Right => d.right
    case Top => d.top
    case Bottom => d.bottom
  }

  function MinDistance(d: Distances): (m: real)
    ensures forall side :: m <= DistanceTo(d, side)
    ensures exists side :: m == DistanceTo(d, side)
  {
    var m := MinReal(MinReal(d.left, d.right), MinReal(d.top, d.bottom));
    assert m == DistanceTo(d, Left) || m == DistanceTo(d, Right)
        || m == DistanceTo(d, Top) || m == DistanceTo(d, Bottom);
    m
  }

  /** `GetNearestDockSide` / `GetNearestDockSideByCursor`: the first side in
      the order left, right, top, bottom whose distance is within 0.01 of
      the smallest. */
  function NearestSide(d: Distances): (side: Side)
    ensures DistanceTo(d, side) < MinDistance(d) + 0.01
    ensures side != Left ==> DistanceTo(d, Left) >= MinDistance(d) + 0.01
    ensures side == Top || side == Bottom ==> DistanceTo(d, Right) >= MinDistance(d) + 0.01
    ensures side == Bottom ==> DistanceTo(d, Top) >= MinDistance(d) + 0.01
  {
    var m := MinDistance(d);
    if Abs(m - d.left) < 0.01 then Left
    else if Abs(m - d.right) < 0.01 then Right
    else if Abs(m - d.top) < 0.01 then Top
    else Bottom
  }

  /** A side strictly nearer than every other by at least 0.01 is chosen. */
  lemma ClearlyNearestIsChosen(d: Distances, side: Side)
    requires forall other :: other != side ==> DistanceTo(d, side) + 0.01 <= DistanceTo(d, other)
    ensures NearestSide(d) == side
  {
    var o :| MinDistance(d) == DistanceTo(d, o);
    assert DistanceTo(d, o) >= DistanceTo(d, side);
    assert MinDistance(d) == DistanceTo(d, side);
  }

  /** The window's distances to the edges of the working area. */
  function WindowDistances(b: Box, work: ScreenRect): (d: Distances)
    ensures forall side :: DistanceTo(d, side) == EdgeDistance(b, work, side)
  {
    Distances(EdgeDistance(b, work, Left), EdgeDistance(b, work, Right),
              EdgeDistance(b, work, Top), EdgeDistance(b, work, Bottom))
  }

  /** The cursor's distances to the edges of the working area. */
  function CursorDistances(c: Point, work: ScreenRect): (d: Distances)
    ensures forall side :: DistanceTo(d, side) == CursorDistance(c, work, side)
  {
    Distances(CursorDistance(c, work, Left), CursorDistance(c, work, Right),
              CursorDistance(c, work, Top), CursorDistance(c, work, Bottom))
  }

  /** `TryAutoSnap`'s decision: snap to the nearest edge of the working area
      when it is within the snap distance or the window is at least half
      off the screen on some side; otherwise stay floating. */
  function AutoSnapSide(b: Box, screen: Screen): (r: Option<Side>)
    ensures r.Some? <==> MinDistance(WindowDistances(b, screen.working)) <= DockSnapDistance
                         || HalfOutAnywhere(b, screen.bounds)
    ensures r.Some? ==> r.value == NearestSide(WindowDistances(b, screen.working))
  {
    var d := WindowDistances(b, screen.working);
    if MinDistance(d) <= DockSnapDistance || HalfOutAnywhere(b, screen.bounds) then Some(NearestSide(d))
    else None
  }

  /** A window lying inside the screen and further than the snap distance
      from every working-area edge stays floating. */
  lemma FarInsideStaysFloating(b: Box, screen: Screen)
    requires screen.bounds.left as real <= b.left && b.left + b.width <= screen.bounds.right as real
    requires screen.bounds.top as real <= b.top && b.top + b.height <= screen.bounds.bottom as real
    requires b.width > 0.0 && b.height > 0.0
    requires forall side :: EdgeDistance(b, screen.working, side) > DockSnapDistance
    ensures AutoSnapSide(b, screen) == None
  {
    var d := WindowDistances(b, screen.working);
    var side :| MinDistance(d) == DistanceTo(d, side);
    assert DistanceTo(d, side) == EdgeDistance(b, screen.working, side);
    InsideIsNotHalfOut(b, screen.bounds, Left);
    InsideIsNotHalfOut(b, screen.bounds, Right);
    InsideIsNotHalfOut(b, screen.bounds, Top);
    InsideIsNotHalfOut(b, screen.bounds, Bottom);
  }

  // ---------------------------------------------------------------------
  // Size and docking

  /** `ApplyWindowSize`: docked to the left or right, the width is clamped
      to [14, 24] and the height is at least 20; otherwise (floating, or
      docked top or bottom) the width is at least 88 and the height at
      least 20. Within those limits the view model's size is kept. */
  function WindowWidth(docked: bool, side: Side, measured: real): (w: real)
    ensures docked && (side == Left || side == Right) ==>
              MinDockSideWidth <= w <= MaxDockSideWidth
              && (MinDockSideWidth <= measured <= MaxDockSideWidth ==> w == measured)
    ensures !(docked && (side == Left || side == Right)) ==>
              w >= MinFloatingWidth && (measured >= MinFloatingWidth ==> w == measured)
    ensures w == measured || w == MinDockSideWidth || w == MaxDockSideWidth || w == MinFloatingWidth
  {
    if docked && (side == Left || side == Right) then ClampReal(measured, MinDockSideWidth, MaxDockSideWidth)
    else MaxReal(MinFloatingWidth, measured)
  }

  function WindowHeight(docked: bool, side: Side, measured: real): (h: real)
    ensures h >= MinDockSideHeight && h >= MinFloatingHeight
    ensures h == measured || h == MinFloatingHeight
    ensures measured >= MinFloatingHeight ==> h == measured
  {
    if docked && (side == Left || side == Right) then MaxReal(MinDockSideHeight, measured)
    else MaxReal(MinFloatingHeight, measured)
  }

  /** The window's `Left`, `Top`, `Width` and `Height`, and the laid-out
      `ActualWidth` / `ActualHeight`, which layout updates later. */
  datatype Frame = Frame(left: real, top: real, width: real, height: real,
                         actualWidth: real, actualHeight: real)

  function BoxOf(f: Frame): Box
  {
    EffectiveBox(f.left, f.top, f.width, f.height, f.actualWidth, f.actualHeight)
  }

  /** The frame with the size `ApplyWindowSize` gives it. */
  function Sized(f: Frame, docked: bool, side: Side, measuredWidth: real, measuredHeight: real): Frame
  {
    f.(width := WindowWidth(docked, side, measuredWidth), height := WindowHeight(docked, side, measuredHeight))
  }

  /** `ResetToNearestNonTaskbarOverlap`: both coordinates clamped so that
      the effective box lies in the working area. */
  function ResetInto(f: Frame, work: ScreenRect): (r: Frame)
    ensures r.width == f.width && r.height == f.height
    ensures r.actualWidth == f.actualWidth && r.actualHeight == f.actualHeight
  {
    var b := BoxOf(f);
    f.(left := ClampToRange(f.left, work.left as real, work.right as real - b.width),
       top := ClampToRange(f.top, work.top as real, work.bottom as real - b.height))
  }

  /** A frame that fits the working area lies inside it after the reset,
      and one that was inside it already does not move. */
  lemma ResetIntoFits(f: Frame, work: ScreenRect)
    requires BoxOf(f).width <= (work.right - work.left) as real
    requires BoxOf(f).height <= (work.bottom - work.top) as real
    ensures var r := ResetInto(f, work);
            work.left as real <= r.left && r.left + BoxOf(r).width <= work.right as real
            && work.top as real <= r.top && r.top + BoxOf(r).height <= work.bottom as real
    ensures work.left as real <= f.left && f.left + BoxOf(f).width <= work.right as real
            && work.top as real <= f.top && f.top + BoxOf(f).height <= work.bottom as real
            ==> ResetInto(f, work) == f
  {
  }

  /** The switch in `ApplyDockSide`: the docked edge's coordinate is pinned
      to its limit, the other axis is clamped into the working area (using
      the requested size). */
  function PinToEdge(f: Frame, side: Side, work: ScreenRect): (r: Frame)
    ensures r.width == f.width && r.height == f.height
    ensures r.actualWidth == f.actualWidth && r.actualHeight == f.actualHeight
  {
    var minLeft := work.left as real + EdgeSnapMargin;
    var maxLeft := work.right as real - f.width - EdgeSnapMargin;
    var minTop := work.top as real + EdgeSnapMargin;
    var maxTop := work.bottom as real - f.height - EdgeSnapMargin;
    match side
    case Left => f.(left := ClampToRange(minLeft, minLeft, maxLeft), top := ClampToRange(f.top, minTop, maxTop))
    case Right => f.(left := ClampToRange(maxLeft, minLeft, maxLeft), top := ClampToRange(f.top, minTop, maxTop))
    case Top => f.(left := ClampToRange(f.left, minLeft, maxLeft), top := ClampToRange(minTop, minTop, maxTop))
    case Bottom => f.(left := ClampToRange(f.left, minLeft, maxLeft), top := ClampToRange(maxTop, minTop, maxTop))
  }

  /** The frame after `ApplyDockSide`: docked size, pinned, then reset. */
  function DockedFrame(f: Frame, side: Side, measuredWidth: real, measuredHeight: real, work: ScreenRect): (r: Frame)
    ensures r.width == WindowWidth(true, side, measuredWidth)
    ensures r.height == WindowHeight(true, side, measuredHeight)
    ensures r.actualWidth == f.actualWidth && r.actualHeight == f.actualHeight
  {
    ResetInto(PinToEdge(Sized(f, true, side, measuredWidth, measuredHeight), side, work), work)
  }

  /** Once layout has caught up with the new size (the laid-out size is not
      larger) and the window fits the working area, docking puts the window
      flush against the chosen edge and inside the working area. */
  lemma DockPinsEdge(f: Frame, side: Side, measuredWidth: real, measuredHeight: real, work: ScreenRect)
    requires f.actualWidth <= WindowWidth(true, side, measuredWidth)
    requires f.actualHeight <= WindowHeight(true, side, measuredHeight)
    requires WindowWidth(true, side, measuredWidth) <= (work.right - work.left) as real
    requires WindowHeight(true, side, measuredHeight) <= (work.bottom - work.top) as real
    ensures var r := DockedFrame(f, side, measuredWidth, measuredHeight, work);
            && (side == Left ==> r.left == work.left as real)
            && (side == Right ==> r.left + r.width == work.right as real)
            && (side == Top ==> r.top == work.top as real)
            && (side == Bottom ==> r.top + r.height == work.bottom as real)
            && work.left as real <= r.left && r.left + r.width <= work.right as real
            && work.top as real <= r.top && r.top + r.height <= work.bottom as real
  {
    var pinned := PinToEdge(Sized(f, true, side, measuredWidth, measuredHeight), side, work);
    assert BoxOf(pinned).width == pinned.width && BoxOf(pinned).height == pinned.height;
    ResetIntoFits(pinned, work);
  }

  /** The view model's presentation mode (`SetPresentationMode`). */
  datatype Presentation = Presentation(side: Side, docked: bool)

  /** The view model's `WindowWidth` and `WindowHeight`. */
  datatype Size = Size(width: real, height: real)

  /** What the view model measures for each presentation mode with the
      values it currently shows: `SetPresentationMode` rebuilds the columns,
      so every size read after it is the one of the new mode. */
  type Measure = Presentation -> Size

  /** `_isDragging`, where the drag started on screen and where the window
      was then, and whether the drag began from the docked look. */
  datatype DragState = DragState(dragging: bool, startX: real, startY: real,
                                 windowStartX: real, windowStartY: real, startedFromDocked: bool)

  /** `_manualPlacement`, `_isDockedVisual` and `_currentDockSide`. */
  datatype Placement = Placement(manual: bool, docked: bool, side: Side)

  /** The window's state, with what its view model measures. */
  datatype WindowState = WindowState(frame: Frame, measure: Measure,
                                     presentation: Presentation, drag: DragState, placement: Placement)

  /** `ApplyDockSide`. */
  function Docked(s: WindowState, side: Side, screen: Screen): (r: WindowState)
    ensures r.placement == s.placement.(docked := true, side := side)
    ensures r.presentation == Presentation(side, true)
    ensures var m := s.measure(Presentation(side, true));
      r.frame == DockedFrame(s.frame, side, m.width, m.height, screen.working)
    ensures r.drag == s.drag && r.measure == s.measure
  {
    var m := s.measure(Presentation(side, true));
    s.(frame := DockedFrame(s.frame, side, m.width, m.height, screen.working),
       presentation := Presentation(side, true),
       placement := s.placement.(docked := true, side := side))
  }

  /** `ApplyFloatingPlacement`: the floating size, kept out of the taskbar. */
  function Floating(s: WindowState, screen: Screen): (r: WindowState)
    ensures r.presentation == Presentation(s.placement.side, false)
    ensures var m := s.measure(Presentation(s.placement.side, false));
      r.frame.width == WindowWidth(false, s.placement.side, m.width)
      && r.frame.height == WindowHeight(false, s.placement.side, m.height)
    ensures r.placement == s.placement && r.drag == s.drag && r.measure == s.measure
  {
    var m := s.measure(Presentation(s.placement.side, false));
    s.(frame := ResetInto(Sized(s.frame, false, s.placement.side, m.width, m.height), screen.working),
       presentation := Presentation(s.placement.side, false))
  }

  // ---------------------------------------------------------------------
  // Dragging

  /** A docked window turning floating around its centre when pressed. */
  function Undocking(s: WindowState, current: Screen): (r: WindowState)
    ensures !r.placement.docked && r.presentation == Presentation(s.placement.side, false)
  {
    var centerX := s.frame.left + s.frame.width / 2.0;
    var centerY := s.frame.top + s.frame.height / 2.0;
    var m := s.measure(Presentation(s.placement.side, false));
    var f := Sized(s.frame, false, s.placement.side, m.width, m.height);
    s.(frame := ResetInto(f.(left := centerX - f.width / 2.0, top := centerY - f.height / 2.0), current.working),
       presentation := Presentation(s.placement.side, false),
       placement := s.placement.(docked := false))
  }

  /** `Window_MouseLeftButtonDown` at screen point (x, y): a docked window
      first turns floating around its centre; then the drag starts from
      there and the placement becomes manual. */
  function Pressed(s: WindowState, x: real, y: real, current: Screen): (r: WindowState)
    ensures r.drag.dragging && r.placement.manual && !r.placement.docked
    ensures r.drag.startedFromDocked == s.placement.docked
    ensures r.drag.startX == x && r.drag.startY == y
    ensures r.drag.windowStartX == r.frame.left && r.drag.windowStartY == r.frame.top
    ensures !s.placement.docked ==> r.frame == s.frame
  {
    var s1 := if s.placement.docked then Undocking(s, current) else s;
    s1.(drag := DragState(true, x, y, s1.frame.left, s1.frame.top, s.placement.docked),
        placement := s1.placement.(manual := true))
  }

  /** `Window_MouseMove`: while dragging with the left button held, the
      window follows the pointer from where the drag started. */
  function Moved(s: WindowState, leftPressed: bool, x: real, y: real): (r: WindowState)
    ensures !s.drag.dragging || !leftPressed ==> r == s
    ensures s.drag.dragging && leftPressed ==>
              r.frame.left - s.drag.windowStartX == x - s.drag.startX
              && r.frame.top - s.drag.windowStartY == y - s.drag.startY
              && r == s.(frame := r.frame) && r.frame.width == s.frame.width && r.frame.height == s.frame.height
  {
    if !s.drag.dragging || !leftPressed then s
    else s.(frame := s.frame.(left := s.drag.windowStartX + (x - s.drag.startX),
                              top := s.drag.windowStartY + (y - s.drag.startY)))
  }

  /** The window's state and whether `UndockedFromEdge` fired. */
  datatype Release = Release(state: WindowState, undocked: bool)

  /** `Window_MouseLeftButtonUp` over the screen under the cursor: a no-op
      when not dragging; otherwise the drag ends and the window either snaps
      to the nearest edge or stays floating with a manual placement. */
  function Released(s: WindowState, screen: Screen): (r: Release)
    ensures !s.drag.dragging ==> r == Release(s, false)
    ensures s.drag.dragging ==> !r.state.drag.dragging && !r.state.drag.startedFromDocked
  {
    if !s.drag.dragging then Release(s, false)
    else
      var ended := s.drag.(dragging := false, startedFromDocked := false);
      match AutoSnapSide(BoxOf(s.frame), screen)
      case Some(side) =>
        var d := Docked(s, side, screen);
        Release(d.(drag := ended, placement := d.placement.(manual := false)), false)
      case None =>
        var f := Floating(s.(placement := s.placement.(docked := false, manual := true)), screen);
        Release(f.(drag := ended), s.drag.startedFromDocked)
  }

  /** The undocked event fires exactly when a drag that began docked ends
      without snapping back to an edge. */
  lemma UndockedIff(s: WindowState, screen: Screen)
    ensures Released(s, screen).undocked <==>
              s.drag.dragging && s.drag.startedFromDocked && AutoSnapSide(BoxOf(s.frame), screen).None?
  {
  }

  /** After the release the window is docked exactly when it snapped, its
      placement is manual exactly when it did not, and a snapped window is
      docked to the nearest edge. */
  lemma ReleaseDocksIffSnapped(s: WindowState, screen: Screen)
    requires s.drag.dragging
    ensures var r := Released(s, screen).state;
            var snap := AutoSnapSide(BoxOf(s.frame), screen);
            (r.placement.docked <==> snap.Some?)
            && (r.placement.manual <==> snap.None?)
            && (snap.Some? ==> r.placement.side == NearestSide(WindowDistances(BoxOf(s.frame), screen.working)))
  {
  }

  /** A drag from a floating window moves it by exactly the pointer's
      displacement. */
  lemma DragFollowsPointer(s: WindowState, x0: real, y0: real, x1: real, y1: real, current: Screen)
    requires !s.placement.docked
    ensures var r := Moved(Pressed(s, x0, y0, current), true, x1, y1);
            r.frame.left == s.frame.left + (x1 - x0) && r.frame.top == s.frame.top + (y1 - y0)
  {
  }

  // ---------------------------------------------------------------------
  // A new measurement

  /** `OnViewModelPropertyChanged` for `WindowWidth` or `WindowHeight`, the
      view model now measuring as `m`: during a drag the window keeps its
      frame; otherwise a window docked by itself docks again to its side
      and any other one takes the floating placement. `screen` is the
      window's own screen when it has the docked look, else the cursor's. */
  function Resized(s: WindowState, m: Measure, screen: Screen): (r: WindowState)
    ensures r.measure == m
    ensures s.drag.dragging ==> r == s.(measure := m)
  {
    var s1 := s.(measure := m);
    if s.drag.dragging then s1
    else if s.placement.docked && !s.placement.manual then Docked(s1, s.placement.side, screen)
    else Floating(s1, screen)
  }

  /** A window docked by itself stays docked to the same side and takes the
      docked size of the new measurement. */
  lemma ResizedStaysDocked(s: WindowState, m: Measure, screen: Screen)
    requires !s.drag.dragging && s.placement.docked && !s.placement.manual
    ensures var r := Resized(s, m, screen);
      var n := m(Presentation(s.placement.side, true));
      && r.placement == s.placement && r.presentation == Presentation(s.placement.side, true)
      && r.frame.width == WindowWidth(true, s.placement.side, n.width)
      && r.frame.height == WindowHeight(true, s.placement.side, n.height)
  {
  }

  /** Any other window not being dragged keeps its placement and takes the
      floating size of the new measurement. */
  lemma ResizedOtherwiseFloats(s: WindowState, m: Measure, screen: Screen)
    requires !s.drag.dragging && !(s.placement.docked && !s.placement.manual)
    ensures var r := Resized(s, m, screen);
      var n := m(Presentation(s.placement.side, false));
      && r.placement == s.placement && r.presentation == Presentation(s.placement.side, false)
      && r.frame.width == WindowWidth(false, s.placement.side, n.width)
      && r.frame.height == WindowHeight(false, s.placement.side, n.height)
  {
  }

  // ---------------------------------------------------------------------
  // Docking from the floating window

  /** The floating window's geometry, as doubles. */
  datatype Anchor = Anchor(left: Double, top: Double, width: Double, height: Double)

  /** Geometry usable for docking: all four numbers finite and the size
      positive. */
  predicate UsableAnchor(a: Anchor)
  {
    a.left.Finite? && a.top.Finite? && a.width.Finite? && a.height.Finite?
    && a.width.value > 0.0 && a.height.value > 0.0
  }

  /** A box of the given size centred on (x, y). */
  function CentredBox(width: real, height: real, x: real, y: real): (b: Box)
    ensures b.left + b.width / 2.0 == x && b.top + b.height / 2.0 == y
    ensures b.width == width && b.height == height
  {
    Box(x - width / 2.0, y - height / 2.0, width, height)
  }

  /** The window centred on (x, y), not manually placed, docked look. */
  function CentredOn(s: WindowState, x: real, y: real): (r: WindowState)
    ensures r.placement == s.placement.(manual := false, docked := true)
    ensures BoxOf(r.frame) == CentredBox(BoxOf(s.frame).width, BoxOf(s.frame).height, x, y)
  {
    var b := BoxOf(s.frame);
    s.(placement := s.placement.(manual := false, docked := true),
       frame := s.frame.(left := x - b.width / 2.0, top := y - b.height / 2.0))
  }

  /** `ActivateDockFromCursorFallback`: centre the window on the cursor and
      dock to the cursor's nearest working-area edge. */
  function DockedAtCursor(s: WindowState, cursor: Point, mouseScreen: Screen): (r: WindowState)
    ensures r.placement.docked && !r.placement.manual
    ensures r.placement.side == NearestSide(CursorDistances(cursor, mouseScreen.working))
  {
    Docked(CentredOn(s, cursor.x as real, cursor.y as real),
           NearestSide(CursorDistances(cursor, mouseScreen.working)), mouseScreen)
  }

  /** The anchor's centre. */
  function AnchorCentreX(a: Anchor): real
    requires UsableAnchor(a)
  {
    a.left.value + a.width.value / 2.0
  }

  function AnchorCentreY(a: Anchor): real
    requires UsableAnchor(a)
  {
    a.top.value + a.height.value / 2.0
  }

  /** `ActivateDockFromAnchor`: centre the window on the anchor and dock to
      the working-area edge of the anchor's screen nearest to it there;
      unusable anchor geometry falls back to the cursor. */
  function DockedAtAnchor(s: WindowState, a: Anchor, anchorScreen: Screen,
                          cursor: Point, mouseScreen: Screen): (r: WindowState)
    ensures r.placement.docked && !r.placement.manual
    ensures !UsableAnchor(a) ==> r == DockedAtCursor(s, cursor, mouseScreen)
    ensures UsableAnchor(a) ==>
              r.placement.side == NearestSide(WindowDistances(
                CentredBox(BoxOf(s.frame).width, BoxOf(s.frame).height, AnchorCentreX(a), AnchorCentreY(a)),
                anchorScreen.working))
  {
    if !UsableAnchor(a) then DockedAtCursor(s, cursor, mouseScreen)
    else
      var c := CentredOn(s, AnchorCentreX(a), AnchorCentreY(a));
      Docked(c, NearestSide(WindowDistances(BoxOf(c.frame), anchorScreen.working)), anchorScreen)
  }

  // ---------------------------------------------------------------------
  // The window

  class TaskbarMetricsWindow {
    var frame: Frame
    var measure: Measure
    var presentation: Presentation
    var drag: DragState
    var placement: Placement
    /** How many times `UndockedFromEdge` has fired. */
    var undockedCount: nat

    /** A window docked to the bottom edge whose view model measures as
        given; the window starts with the size measured for that mode, laid
        out as requested. */
    constructor (measure: Measure)
      ensures var m := measure(Presentation(Bottom, true));
        State() == WindowState(Frame(0.0, 0.0, m.width, m.height, m.width, m.height),
                               measure, Presentation(Bottom, true),
                               DragState(false, 0.0, 0.0, 0.0, 0.0, false), Placement(false, true, Bottom))
      ensures undockedCount == 0
    {
      var m := measure(Presentation(Bottom, true));
      frame := Frame(0.0, 0.0, m.width, m.height, m.width, m.height);
      this.measure := measure;
      presentation := Presentation(Bottom, true);
      drag := DragState(false, 0.0, 0.0, 0.0, 0.0, false);
      placement := Placement(false, true, Bottom);
      undockedCount := 0;
    }

    function State(): WindowState
      reads this
    {
      WindowState(frame, measure, presentation, drag, placement)
    }

    /** `ApplyWindowSize`, called right after the view model was put in
        that presentation mode, so it reads the size measured for it. */
    method ApplyWindowSize(docked: bool, side: Side)
      modifies this`frame
      ensures var m := measure(Presentation(side, docked));
        frame == Sized(old(frame), docked, side, m.width, m.height)
    {
      var m := measure(Presentation(side, docked));
      frame := frame.(width := WindowWidth(docked, side, m.width),
                      height := WindowHeight(docked, side, m.height));
    }

    /** `ResetToNearestNonTaskbarOverlap`. */
    method ResetToNearestNonTaskbarOverlap(work: ScreenRect)
      modifies this`frame
      ensures frame == ResetInto(old(frame), work)
    {
      var windowWidth := MaxReal(frame.width, frame.actualWidth);
      var windowHeight := MaxReal(frame.height, frame.actualHeight);
      frame := frame.(left := ClampToRange(frame.left, work.left as real, work.right as real - windowWidth),
                      top := ClampToRange(frame.top, work.top as real, work.bottom as real - windowHeight));
    }

    /** `ApplyDockSide`. */
    method ApplyDockSide(side: Side, screen: Screen)
      modifies this`frame, this`presentation, this`placement
      ensures State() == Docked(old(State()), side, screen)
    {
      placement := placement.(side := side, docked := true);
      presentation := Presentation(side, true);
      ApplyWindowSize(true, side);
      frame := PinToEdge(frame, side, screen.working);
      ResetToNearestNonTaskbarOverlap(screen.working);
    }

    /** `ApplyFloatingPlacement`. */
    method ApplyFloatingPlacement(screen: Screen)
      modifies this`frame, this`presentation
      ensures State() == Floating(old(State()), screen)
    {
      presentation := Presentation(placement.side, false);
      ApplyWindowSize(false, placement.side);
      ResetToNearestNonTaskbarOverlap(screen.working);
    }

    /** `TryAutoSnap`. */
    method TryAutoSnap(screen: Screen) returns (snapped: bool)
      modifies this`frame, this`presentation, this`placement
      ensures snapped <==> AutoSnapSide(BoxOf(old(frame)), screen).Some?
      ensures snapped ==> State() == Docked(old(State()), AutoSnapSide(BoxOf(old(frame)), screen).value, screen)
      ensures !snapped ==> State() == old(State())
    {
      var side := AutoSnapSide(BoxOf(frame), screen);
      snapped := side.Some?;
      if snapped {
        ApplyDockSide(side.value, screen);
      }
    }

    /** `Window_MouseLeftButtonDown` at screen point (x, y); `current` is the
        window's own screen. */
    method MouseLeftButtonDown(x: real, y: real, current: Screen)
      modifies this`frame, this`presentation, this`placement, this`drag
      ensures State() == Pressed(old(State()), x, y, current)
    {
      var startedFromDocked := placement.docked;
      if placement.docked {
        var centerX := frame.left + frame.width / 2.0;
        var centerY := frame.top + frame.height / 2.0;
        placement := placement.(docked := false);
        presentation := Presentation(placement.side, false);
        ApplyWindowSize(false, placement.side);
        frame := frame.(left := centerX - frame.width / 2.0, top := centerY - frame.height / 2.0);
        ResetToNearestNonTaskbarOverlap(current.working);
      }
      drag := DragState(true, x, y, frame.left, frame.top, startedFromDocked);
      placement := placement.(manual := true);
    }

    /** `Window_MouseMove`. */
    method MouseMove(leftPressed: bool, x: real, y: real)
      modifies this`frame
      ensures State() == Moved(old(State()), leftPressed, x, y)
    {
      if !drag.dragging || !leftPressed {
        return;
      }
      frame := frame.(left := drag.windowStartX + (x - drag.startX), top := drag.windowStartY + (y - drag.startY));
    }

    /** `Window_MouseLeftButtonUp` over `screen`, the screen under the cursor. */
    method MouseLeftButtonUp(screen: Screen)
      modifies this`frame, this`presentation, this`placement, this`drag, this`undockedCount
      ensures State() == Released(old(State()), screen).state
      ensures undockedCount == old(undockedCount) + (if Released(old(State()), screen).undocked then 1 else 0)
    {
      if !drag.dragging {
        return;
      }
      var startedFromDocked := drag.startedFromDocked;
      drag := drag.(dragging := false);
      var snapped := TryAutoSnap(screen);
      if snapped {
        placement := placement.(manual := false);
      } else {
        placement := placement.(docked := false, manual := true);
        ApplyFloatingPlacement(screen);
        if startedFromDocked {
          undockedCount := undockedCount + 1;
        }
      }
      drag := drag.(startedFromDocked := false);
    }

    /** `OnViewModelPropertyChanged` for a new size, the view model now
        measuring as `m`. */
    method OnViewModelSizeChanged(m: Measure, screen: Screen)
      modifies this`frame, this`measure, this`presentation, this`placement
      ensures State() == Resized(old(State()), m, screen)
    {
      measure := m;
      if drag.dragging {
        return;
      }
      if placement.docked && !placement.manual {
        ApplyDockSide(placement.side, screen);
        return;
      }
      ApplyFloatingPlacement(screen);
    }

    /** Centres the window on (x, y) with the docked look. */
    method CentreOn(x: real, y: real)
      modifies this`frame, this`placement
      ensures State() == CentredOn(old(State()), x, y)
    {
      placement := placement.(manual := false, docked := true);
      var windowWidth := MaxReal(frame.width, frame.actualWidth);
      var windowHeight := MaxReal(frame.height, frame.actualHeight);
      frame := frame.(left := x - windowWidth / 2.0, top := y - windowHeight / 2.0);
    }

    /** `ActivateDockFromCursorFallback`; `mouseScreen` is the screen under
        the cursor. */
    method ActivateDockFromCursorFallback(cursor: Point, mouseScreen: Screen)
      modifies this`frame, this`presentation, this`placement
      ensures State() == DockedAtCursor(old(State()), cursor, mouseScreen)
    {
      CentreOn(cursor.x as real, cursor.y as real);
      ApplyDockSide(NearestSide(CursorDistances(cursor, mouseScreen.working)), mouseScreen);
    }

    /** `ActivateDockFromAnchor`; `anchorScreen` is the screen holding the
        anchor's centre, `mouseScreen` the one under the cursor. */
    method ActivateDockFromAnchor(a: Anchor, anchorScreen: Screen, cursor: Point, mouseScreen: Screen)
      modifies this`frame, this`presentation, this`placement
      ensures State() == DockedAtAnchor(old(State()), a, anchorScreen, cursor, mouseScreen)
    {
      if !UsableAnchor(a) {
        ActivateDockFromCursorFallback(cursor, mouseScreen);
        return;
      }
      CentreOn(AnchorCentreX(a), AnchorCentreY(a));
      ApplyDockSide(NearestSide(WindowDistances(BoxOf(frame), anchorScreen.working)), anchorScreen);
    }
  }
}
