/** The floating window's own logic: where the details popup opens, how a
    stored placement and a dragged window are kept on screen, when a drag
    release switches to the edge-dock mode, the drag and long-press flags
    of the monitor bar, and the kill button's two-click confirmation. */
module FloatingWindow {
  import opened Common
  import opened Numbers
  import opened WindowGeometry

  // ---------------------------------------------------------------------
  // Details popup placement

  /** The gap between the bar and the popup, in pixels. */
  const PopupGap: real := 8.0

  datatype Size = Size(width: real, height: real)

  /** The popup's offset from its target, and whether it opens upwards. */
  datatype PopupPlacement = PopupPlacement(x: real, y: real, above: bool)

  function SpaceAbove(windowTop: real, workTop: real): real { windowTop - workTop }

  function SpaceBelow(windowTop: real, windowHeight: real, workTop: real, workHeight: real): real
  {
    (workTop + workHeight) - (windowTop + windowHeight)
  }

  /** `OnCustomPopupPlacement`: the popup is centred on its target and opens
      above when there is room for it above, else below when there is room
      below, else towards the side with more room (a tie opens below). */
  function PlacePopup(popup: Size, target: Size, windowTop: real, windowHeight: real,
                      workTop: real, workHeight: real): (p: PopupPlacement)
    ensures p.x + popup.width / 2.0 == target.width / 2.0
    ensures p.above ==> p.y + popup.height == -PopupGap
    ensures !p.above ==> p.y == target.height + PopupGap
    ensures SpaceAbove(windowTop, workTop) >= popup.height + PopupGap ==> p.above
    ensures SpaceAbove(windowTop, workTop) < popup.height + PopupGap
            && SpaceBelow(windowTop, windowHeight, workTop, workHeight) >= popup.height + PopupGap
            ==> !p.above
    ensures SpaceAbove(windowTop, workTop) < popup.height + PopupGap
            && SpaceBelow(windowTop, windowHeight, workTop, workHeight) < popup.height + PopupGap
            ==> (p.above <==> SpaceAbove(windowTop, workTop) > SpaceBelow(windowTop, windowHeight, workTop, workHeight))
  {
    var x := (target.width - popup.width) / 2.0;
    var spaceAbove := SpaceAbove(windowTop, workTop);
    var spaceBelow := SpaceBelow(windowTop, windowHeight, workTop, workHeight);
    var required := popup.height + PopupGap;
    var above :=
      if spaceAbove >= required then true
      else if spaceBelow >= required then false
      else spaceAbove > spaceBelow;
    PopupPlacement(x, if above then -popup.height - PopupGap else target.height + PopupGap, above)
  }

  /** The popup opens on a side where it fits whenever either side has room,
      and otherwise on a side with at least as much room as the other. */
  lemma PopupSideIsBest(popup: Size, target: Size, windowTop: real, windowHeight: real,
                        workTop: real, workHeight: real)
    ensures var p := PlacePopup(popup, target, windowTop, windowHeight, workTop, workHeight);
            var above := SpaceAbove(windowTop, workTop);
            var below := SpaceBelow(windowTop, windowHeight, workTop, workHeight);
            var chosen := if p.above then above else below;
            var other := if p.above then below else above;
            chosen >= popup.height + PopupGap || (other < popup.height + PopupGap && chosen >= other)
  {
  }

  /** `UpdatePinnedStackPlacement`: the pinned stack sits in grid row 0 above
      the bar when the popup opens upwards, else in row 2 below it. */
  function PinnedStackRow(popupAbove: bool): (row: int)
    ensures row == 0 || row == 2
    ensures row == 0 <==> popupAbove
  {
    if popupAbove then 0 else 2
  }

  // ---------------------------------------------------------------------
  // Keeping the window on screen

  /** One axis of `ResetToNearestNonTaskbarOverlap`: the window moves to the
      clamped coordinate only when that is more than half a pixel away. */
  function ResetAxis(current: real, min: real, max: real): (r: real)
    ensures r == current || r == ClampToRange(current, min, max)
    ensures Abs(r - ClampToRange(current, min, max)) <= 0.5
    ensures r != current ==> Abs(r - current) > 0.5
  {
    var target := ClampToRange(current, min, max);
    if Abs(target - current) > 0.5 then target else current
  }

  /** Resetting a second time does not move the window again. */
  lemma ResetAxisIdempotent(current: real, min: real, max: real)
    ensures ResetAxis(ResetAxis(current, min, max), min, max) == ResetAxis(current, min, max)
  {
    var r := ResetAxis(current, min, max);
    if r != current {
      ClampToRangeIdempotent(current, min, max);
    }
  }

  /** A window already within the range (and one less than half a pixel
      outside it) stays where it is. */
  lemma ResetAxisKeepsInRange(current: real, min: real, max: real)
    requires min <= max && min - 0.5 <= current <= max + 0.5
    ensures ResetAxis(current, min, max) == current
  {
  }

  /** The window's new position after `ResetToNearestNonTaskbarOverlap`
      against a working area: each axis reset on its own, using the
      effective box size. */
  function ResetIntoWorkingArea(b: Box, work: ScreenRect): (r: Box)
    ensures r.width == b.width && r.height == b.height
    ensures r.left == ResetAxis(b.left, work.left as real, work.right as real - b.width)
    ensures r.top == ResetAxis(b.top, work.top as real, work.bottom as real - b.height)
  {
    b.(left := ResetAxis(b.left, work.left as real, work.right as real - b.width),
       top := ResetAxis(b.top, work.top as real, work.bottom as real - b.height))
  }

  /** After the reset, a window that fits the working area lies inside it up
      to half a pixel on every side. */
  lemma ResetFitsWithinHalfPixel(b: Box, work: ScreenRect)
    requires b.width <= (work.right - work.left) as real
    requires b.height <= (work.bottom - work.top) as real
    ensures var r := ResetIntoWorkingArea(b, work);
            work.left as real - 0.5 <= r.left && r.left + r.width <= work.right as real + 0.5
            && work.top as real - 0.5 <= r.top && r.top + r.height <= work.bottom as real + 0.5
  {
  }

  /** The virtual screen (all monitors together), as
      `SystemParameters.VirtualScreen*` give it. */
  datatype VirtualScreen = VirtualScreen(left: real, top: real, width: real, height: real)

  /** A stored `WindowPlacement`. */
  datatype WindowPlacement = WindowPlacement(left: real, top: real, width: real, height: real)

  /** One axis of `ApplyPlacement`:
      `Math.Max(start, Math.Min(value, start + extent - size))`. */
  function PlaceOnAxis(value: real, start: real, extent: real, size: real): (r: real)
    ensures r >= start
    ensures size <= extent ==> r + size <= start + extent
    ensures start <= value && value + size <= start + extent ==> r == value
    ensures r == ClampToRange(value, start, start + extent - size)
  {
    MaxReal(start, MinReal(value, start + extent - size))
  }

  // ---------------------------------------------------------------------
  // Edge-dock trigger on drag release

  /** Within this many pixels of a screen edge the window or the cursor
      counts as near it. */
  const EdgeDockSnapDistance: real := 24.0

  /** The working area is narrower than the screen on that side: a taskbar
      sits there. */
  predicate HasTaskbar(s: Screen, side: Side)
  {
    match side
    case Left => s.working.left > s.bounds.left
    case Top => s.working.top > s.bounds.top
    case Right => s.working.right < s.bounds.right
    case Bottom => s.working.bottom < s.bounds.bottom
  }

  predicate NearEdge(s: Screen, b: Box, side: Side)
  {
    EdgeDistance(b, s.bounds, side) <= EdgeDockSnapDistance
  }

  predicate CursorNear(s: Screen, c: Point, side: Side)
  {
    CursorDistance(c, s.bounds, side) <= EdgeDockSnapDistance
  }

  /** A side activates the edge dock when no taskbar sits there and the
      window is half out past it, near it, or the cursor is near it. */
  predicate SideActivated(s: Screen, b: Box, c: Point, side: Side)
  {
    !HasTaskbar(s, side) && (NearEdge(s, b, side) || HalfOut(b, s.bounds, side) || CursorNear(s, c, side))
  }

  function IfActivated(s: Screen, b: Box, c: Point, side: Side): seq<Side>
  {
    if SideActivated(s, b, c, side) then [side] else []
  }

  /** The activated sides, in the order left, right, top, bottom. */
  function ActivatedSides(s: Screen, b: Box, c: Point): (sides: seq<Side>)
    ensures forall side :: side in sides <==> SideActivated(s, b, c, side)
    ensures |sides| <= 4
  {
    IfActivated(s, b, c, Left) + IfActivated(s, b, c, Right)
    + IfActivated(s, b, c, Top) + IfActivated(s, b, c, Bottom)
  }

  /** The three triggers as the drag-release check combines them. */
  predicate TriggerByHalfOut(s: Screen, b: Box)
  {
    (!HasTaskbar(s, Left) && HalfOut(b, s.bounds, Left)) || (!HasTaskbar(s, Right) && HalfOut(b, s.bounds, Right))
    || (!HasTaskbar(s, Top) && HalfOut(b, s.bounds, Top)) || (!HasTaskbar(s, Bottom) && HalfOut(b, s.bounds, Bottom))
  }

  predicate TriggerByNearEdge(s: Screen, b: Box)
  {
    (!HasTaskbar(s, Left) && NearEdge(s, b, Left)) || (!HasTaskbar(s, Right) && NearEdge(s, b, Right))
    || (!HasTaskbar(s, Top) && NearEdge(s, b, Top)) || (!HasTaskbar(s, Bottom) && NearEdge(s, b, Bottom))
  }

  predicate TriggerByCursor(s: Screen, c: Point)
  {
    (!HasTaskbar(s, Left) && CursorNear(s, c, Left)) || (!HasTaskbar(s, Right) && CursorNear(s, c, Right))
    || (!HasTaskbar(s, Top) && CursorNear(s, c, Top)) || (!HasTaskbar(s, Bottom) && CursorNear(s, c, Bottom))
  }

  predicate ShouldTrigger(s: Screen, b: Box, c: Point)
  {
    TriggerByHalfOut(s, b) || TriggerByNearEdge(s, b) || TriggerByCursor(s, c)
  }

  /** The drag release triggers exactly when some side activates, that is,
      when the list of activated sides is not empty. */
  lemma TriggerIffSomeSide(s: Screen, b: Box, c: Point)
    ensures ShouldTrigger(s, b, c) <==> exists side :: SideActivated(s, b, c, side)
    ensures ShouldTrigger(s, b, c) <==> ActivatedSides(s, b, c) != []
  {
    var sides := ActivatedSides(s, b, c);
    if sides != [] {
      assert SideActivated(s, b, c, sides[0]);
    }
    if ShouldTrigger(s, b, c) {
      var side :| SideActivated(s, b, c, side);
      assert side in sides;
    } else {
      forall side ensures !SideActivated(s, b, c, side) {
      }
    }
  }

  /** A side where a taskbar sits never contributes, however far the window
      or the cursor went past it. */
  lemma TaskbarSideNeverActivates(s: Screen, b: Box, c: Point, side: Side)
    requires HasTaskbar(s, side)
    ensures side !in ActivatedSides(s, b, c)
  {
  }

  /** What a drag release did about the edge dock. */
  datatype DockAttempt =
    | NotTriggered          // no side met the thresholds
    | ServiceUnavailable    // the window management service is not registered
    | Switched(sides: seq<Side>)
    | Refused               // the service declined to switch modes

  /** `TryActivateEdgeDockModeOnDragRelease`: `service` is the window
      management service, when registered, with the answer its
      `TryActivateEdgeDockMode` gives. */
  function TryActivateEdgeDock(s: Screen, b: Box, c: Point, service: Option<bool>): (a: DockAttempt)
    ensures a.NotTriggered? <==> !ShouldTrigger(s, b, c)
    ensures a.ServiceUnavailable? <==> ShouldTrigger(s, b, c) && service.None?
    ensures a.Switched? <==> ShouldTrigger(s, b, c) && service == Some(true)
    ensures a.Switched? ==> a.sides == ActivatedSides(s, b, c) && a.sides != []
  {
    if !ShouldTrigger(s, b, c) then NotTriggered
    else if service.None? then ServiceUnavailable
    else if service.value then (TriggerIffSomeSide(s, b, c); Switched(ActivatedSides(s, b, c)))
    else Refused
  }

  // ---------------------------------------------------------------------
  // Drag and long-press flags of the monitor bar

  /** The pointer must move more than this many pixels to start a drag. */
  const DragThreshold: real := 5.0

  /** The length of (dx, dy) exceeds the drag threshold; compared squared,
      which is the same test on non-negative lengths. */
  predicate MovedBeyondThreshold(dx: real, dy: real)
  {
    dx * dx + dy * dy > DragThreshold * DragThreshold
  }

  /** A move of more than the threshold along one axis always starts a drag;
      one that starts a drag moves more than the threshold in total. */
  lemma ThresholdBounds(dx: real, dy: real)
    ensures Abs(dx) > DragThreshold ==> MovedBeyondThreshold(dx, dy)
    ensures MovedBeyondThreshold(dx, dy) ==> Abs(dx) + Abs(dy) > DragThreshold
  {
    var ax, ay := Abs(dx), Abs(dy);
    assert ax * ax == dx * dx && ay * ay == dy * dy;
    if Abs(dx) > DragThreshold {
      assert ax * ax > DragThreshold * DragThreshold by {
        assert ax * ax > DragThreshold * ax >= DragThreshold * DragThreshold;
      }
    }
    var t := ax + ay;
    assert t * t >= dx * dx + dy * dy by {
      assert t * t == ax * ax + 2.0 * ax * ay + ay * ay;
      assert ax * ay >= 0.0;
    }
    if t <= DragThreshold {
      assert t * t <= DragThreshold * DragThreshold by {
        assert 0.0 <= t;
        assert t * t <= DragThreshold * t;
      }
    }
  }

  /** `_isDragging`, `_dragReleaseHandled`, `_longPressTriggered`, and
      whether the long-press timer is running. */
  datatype DragFlags = DragFlags(dragging: bool, releaseHandled: bool,
                                 longPressTriggered: bool, longPressRunning: bool)

  /** Left button down on the bar: dragging is reset; on a metric the long
      press starts over. */
  function PressFlags(f: DragFlags, onMetric: bool): (g: DragFlags)
    ensures !g.dragging && g.releaseHandled == f.releaseHandled
    ensures onMetric ==> g.longPressRunning && !g.longPressTriggered
    ensures !onMetric ==> g == f.(dragging := false)
  {
    if onMetric then f.(dragging := false, longPressTriggered := false, longPressRunning := true)
    else f.(dragging := false)
  }

  /** The long-press timer's tick: the long press has triggered. */
  function LongPressFlags(f: DragFlags): (g: DragFlags)
    ensures f.longPressRunning ==> g.longPressTriggered && !g.longPressRunning
    ensures !f.longPressRunning ==> g == f
  {
    if f.longPressRunning then f.(longPressTriggered := true, longPressRunning := false) else f
  }

  /** `HandleWindowDragReleased`'s flags: a no-op when not dragging,
      otherwise dragging ends, the release is marked handled, and the long
      press stops. */
  function ReleaseFlags(f: DragFlags): (g: DragFlags)
    ensures !f.dragging ==> g == f
    ensures f.dragging ==> !g.dragging && g.releaseHandled && !g.longPressRunning
    ensures g.longPressTriggered == f.longPressTriggered
  {
    if !f.dragging then f
    else f.(dragging := false, releaseHandled := true, longPressRunning := false)
  }

  /** How the bar's left mouse-up was handled. */
  datatype MouseUpOutcome =
    | NotLeftButton
    | SwallowedAfterDrag   // the mouse-up that follows a handled drag release
    | DragReleased
    | LongPressConsumed
    | BarClick             // a short click: the view model's `OnBarClick`

  /** `MonitorBar_PreviewMouseUp`: the outcome in the order the handler
      tests the flags. */
  function MouseUpOutcomeOf(f: DragFlags, isLeft: bool): (o: MouseUpOutcome)
    ensures o == BarClick ==> isLeft && !f.releaseHandled && !f.dragging && !f.longPressTriggered
    ensures isLeft && f.releaseHandled ==> o == SwallowedAfterDrag
  {
    if !isLeft then NotLeftButton
    else if f.releaseHandled then SwallowedAfterDrag
    else if f.dragging then DragReleased
    else if f.longPressTriggered then LongPressConsumed
    else BarClick
  }

  function MouseUpFlags(f: DragFlags, isLeft: bool): (g: DragFlags)
    ensures MouseUpOutcomeOf(f, isLeft) == SwallowedAfterDrag ==> g == f.(releaseHandled := false)
    ensures MouseUpOutcomeOf(f, isLeft) == DragReleased ==> g == ReleaseFlags(f)
    ensures MouseUpOutcomeOf(f, isLeft) == LongPressConsumed
            ==> g == f.(longPressTriggered := false, longPressRunning := false)
    ensures MouseUpOutcomeOf(f, isLeft) == BarClick ==> g == f.(longPressRunning := false)
    ensures !isLeft ==> g == f
  {
    match MouseUpOutcomeOf(f, isLeft)
    case NotLeftButton => f
    case SwallowedAfterDrag => f.(releaseHandled := false)
    case DragReleased => ReleaseFlags(f)
    case LongPressConsumed => f.(longPressTriggered := false, longPressRunning := false)
    case BarClick => f.(longPressRunning := false)
  }

  /** After a drag has been released, the next left mouse-up is swallowed,
      and only that one: the one after it is handled again. */
  lemma SwallowedOnce(f: DragFlags)
    requires f.dragging
    ensures var g := ReleaseFlags(f);
            MouseUpOutcomeOf(g, true) == SwallowedAfterDrag
            && MouseUpOutcomeOf(MouseUpFlags(g, true), true) != SwallowedAfterDrag
  {
  }

  /** The release flag stays set until a left mouse-up clears it, whatever
      happens to the buttons in between: a press that follows a drag keeps
      it, so the mouse-up of that press is the one swallowed. */
  lemma PressKeepsReleaseFlag(f: DragFlags, onMetric: bool)
    requires f.releaseHandled
    ensures MouseUpOutcomeOf(PressFlags(f, onMetric), true) == SwallowedAfterDrag
  {
  }

  /** A long press that triggered suppresses exactly one click. */
  lemma LongPressSuppressesOneClick(f: DragFlags)
    requires !f.releaseHandled && !f.dragging && f.longPressRunning
    ensures var g := LongPressFlags(f);
            MouseUpOutcomeOf(g, true) == LongPressConsumed
            && MouseUpOutcomeOf(MouseUpFlags(g, true), true) == BarClick
  {
  }

  /** How the modal `DragMove` ended: the button was released with the
      window at a new position, or it threw. */
  datatype DragMoveResult = Released(left: real, top: real) | Threw

  /** What the release handler consults: the screen under the cursor, the
      cursor, and the window management service's answer. */
  datatype ReleaseEnv = ReleaseEnv(screen: Screen, cursor: Point, service: Option<bool>)

  // ---------------------------------------------------------------------
  // The window

  class FloatingWindow {
    var left: real
    var top: real
    var width: real
    var height: real
    var actualWidth: real
    var actualHeight: real

    var dragging: bool
    var dragReleaseHandled: bool
    var longPressTriggered: bool
    var longPressRunning: bool
    var dragStartX: real
    var dragStartY: real

    var lastPopupAbove: bool
    var pinnedStackRow: int

    constructor (left: real, top: real, width: real, height: real)
      ensures this.left == left && this.top == top && this.width == width && this.height == height
      ensures actualWidth == width && actualHeight == height
      ensures Flags() == DragFlags(false, false, false, false)
      ensures !lastPopupAbove && pinnedStackRow == PinnedStackRow(false)
    {
      this.left, this.top, this.width, this.height := left, top, width, height;
      actualWidth, actualHeight := width, height;
      dragging, dragReleaseHandled, longPressTriggered, longPressRunning := false, false, false, false;
      dragStartX, dragStartY := 0.0, 0.0;
      lastPopupAbove := false;
      pinnedStackRow := 2;
    }

    function Flags(): DragFlags
      reads this
    {
      DragFlags(dragging, dragReleaseHandled, longPressTriggered, longPressRunning)
    }

    function WindowBox(): Box
      reads this
    {
      EffectiveBox(left, top, width, height, actualWidth, actualHeight)
    }

    method SetFlags(f: DragFlags)
      modifies this`dragging, this`dragReleaseHandled, this`longPressTriggered, this`longPressRunning
      ensures Flags() == f
    {
      dragging, dragReleaseHandled, longPressTriggered, longPressRunning :=
        f.dragging, f.releaseHandled, f.longPressTriggered, f.longPressRunning;
    }

    /** `OnCustomPopupPlacement`, with `UpdatePinnedStackPlacement`. */
    method PlaceDetailsPopup(popup: Size, target: Size, workTop: real, workHeight: real)
      returns (p: PopupPlacement)
      modifies this`lastPopupAbove, this`pinnedStackRow
      ensures p == PlacePopup(popup, target, top, actualHeight, workTop, workHeight)
      ensures lastPopupAbove == p.above && pinnedStackRow == PinnedStackRow(p.above)
    {
      p := PlacePopup(popup, target, top, actualHeight, workTop, workHeight);
      lastPopupAbove := p.above;
      pinnedStackRow := PinnedStackRow(p.above);
    }

    /** `ApplyPlacement`: the stored placement clamped into the virtual screen. */
    method ApplyPlacement(p: WindowPlacement, screen: VirtualScreen)
      modifies this`left, this`top, this`width, this`height
      ensures left == PlaceOnAxis(p.left, screen.left, screen.width, p.width)
      ensures top == PlaceOnAxis(p.top, screen.top, screen.height, p.height)
      ensures width == p.width && height == p.height
    {
      left := PlaceOnAxis(p.left, screen.left, screen.width, p.width);
      top := PlaceOnAxis(p.top, screen.top, screen.height, p.height);
      width, height := p.width, p.height;
    }

    /** `ResetToNearestNonTaskbarOverlap`. */
    method ResetToNearestNonTaskbarOverlap(work: ScreenRect)
      modifies this`left, this`top
      ensures WindowBox() == ResetIntoWorkingArea(old(WindowBox()), work)
    {
      var b := ResetIntoWorkingArea(WindowBox(), work);
      left, top := b.left, b.top;
    }

    /** `HandleWindowDragReleased`: when a drag was in progress, its flags are
        updated and the edge dock is tried; a window that stays floating is
        pulled off the taskbar of the screen under the cursor. */
    method HandleWindowDragReleased(env: ReleaseEnv) returns (attempt: Option<DockAttempt>)
      modifies this`dragging, this`dragReleaseHandled, this`longPressTriggered, this`longPressRunning,
               this`left, this`top
      ensures Flags() == ReleaseFlags(old(Flags()))
      ensures !old(dragging) ==> attempt.None? && WindowBox() == old(WindowBox())
      ensures old(dragging) ==> attempt == Some(TryActivateEdgeDock(env.screen, old(WindowBox()), env.cursor, env.service))
      ensures old(dragging) && !attempt.value.Switched? ==> WindowBox() == ResetIntoWorkingArea(old(WindowBox()), env.screen.working)
      ensures old(dragging) && attempt.value.Switched? ==> WindowBox() == old(WindowBox())
    {
      if !dragging {
        return None;
      }
      SetFlags(ReleaseFlags(Flags()));
      var a := TryActivateEdgeDock(env.screen, WindowBox(), env.cursor, env.service);
      if !a.Switched? {
        ResetToNearestNonTaskbarOverlap(env.screen.working);
      }
      attempt := Some(a);
    }

    /** The bar's left button down, at `(x, y)` in window coordinates. */
    method MonitorBarMouseDown(isLeft: bool, x: real, y: real, onMetric: bool)
      modifies this`dragging, this`dragReleaseHandled, this`longPressTriggered, this`longPressRunning,
               this`dragStartX, this`dragStartY
      ensures !isLeft ==> Flags() == old(Flags()) && dragStartX == old(dragStartX) && dragStartY == old(dragStartY)
      ensures isLeft ==> Flags() == PressFlags(old(Flags()), onMetric) && dragStartX == x && dragStartY == y
    {
      if !isLeft {
        return;
      }
      dragStartX, dragStartY := x, y;
      SetFlags(PressFlags(Flags(), onMetric));
    }

    /** The long-press timer fired. */
    method LongPressElapsed()
      modifies this`longPressTriggered, this`longPressRunning
      ensures Flags() == LongPressFlags(old(Flags()))
    {
      if longPressRunning {
        longPressTriggered, longPressRunning := true, false;
      }
    }

    /** `MonitorBar_PreviewMouseMove`: a drag starts only with the left button
        held, no drag under way, and the pointer further than the threshold
        from where it went down; `DragMove` then runs until the button is
        released, and the release is handled right after it. */
    method MonitorBarMouseMove(leftPressed: bool, x: real, y: real, drag: DragMoveResult, env: ReleaseEnv)
      returns (started: bool)
      modifies this`dragging, this`dragReleaseHandled, this`longPressTriggered, this`longPressRunning,
               this`left, this`top
      ensures started <==> leftPressed && !old(dragging)
                           && MovedBeyondThreshold(x - dragStartX, y - dragStartY)
      ensures !started ==> Flags() == old(Flags()) && left == old(left) && top == old(top)
      ensures started && drag.Threw? ==> Flags() == old(Flags()).(longPressRunning := false)
      ensures started && drag.Released? ==>
                Flags() == ReleaseFlags(old(Flags()).(dragging := true))
                && !dragging && dragReleaseHandled
    {
      started := leftPressed && !dragging && MovedBeyondThreshold(x - dragStartX, y - dragStartY);
      if !started {
        return;
      }
      longPressRunning := false;
      dragging := true;
      match drag
      case Threw =>
        dragging := false;
      case Released(l, t) =>
        left, top := l, t;
        var _ := HandleWindowDragReleased(env);
    }

    /** `MonitorBar_PreviewMouseUp`. */
    method MonitorBarMouseUp(isLeft: bool, env: ReleaseEnv) returns (outcome: MouseUpOutcome)
      modifies this`dragging, this`dragReleaseHandled, this`longPressTriggered, this`longPressRunning,
               this`left, this`top
      ensures outcome == MouseUpOutcomeOf(old(Flags()), isLeft)
      ensures Flags() == MouseUpFlags(old(Flags()), isLeft)
      ensures outcome != DragReleased ==> WindowBox() == old(WindowBox())
    {
      outcome := MouseUpOutcomeOf(Flags(), isLeft);
      match outcome
      case NotLeftButton =>
      case SwallowedAfterDrag =>
        dragReleaseHandled := false;
      case DragReleased =>
        var _ := HandleWindowDragReleased(env);
      case LongPressConsumed =>
        longPressTriggered, longPressRunning := false, false;
      case BarClick =>
        longPressRunning := false;
    }
  }

  // ---------------------------------------------------------------------
  // Kill button

  /** The button's `Tag`: none, waiting for the confirming click, or killing. */
  datatype KillTag = NoTag | Confirmed | Killing

  /** The button's background brush: plain, hovered, or confirming. */
  datatype KillBackground = Plain | Hovered | Confirming

  /** Everything about a row's kill button the handlers change: the tag,
      `IsEnabled`, visibility, the background, whether the spinner turns,
      and which of the two timers (1-second countdown, 2-second reset) is
      running. */
  datatype KillButtonState = KillButtonState(
    tag: KillTag, enabled: bool, visible: bool, background: KillBackground,
    spinning: bool, countdownRunning: bool, resetRunning: bool)

  /** The button of a freshly shown row. */
  const KillButtonInitial: KillButtonState :=
    KillButtonState(NoTag, true, false, Plain, false, false, false)

  datatype KillEvent =
    | RowEnter | RowLeave          // the pointer enters or leaves the process row
    | ButtonEnter | ButtonLeave    // the pointer enters or leaves the button
    | Click
    | CountdownElapsed | ResetElapsed

  /** A disabled or collapsed element receives no mouse input, and a timer
      that is not running does not tick. */
  predicate Delivered(s: KillButtonState, e: KillEvent)
  {
    match e
    case Click => s.enabled && s.visible
    case ButtonEnter => s.enabled && s.visible
    case ButtonLeave => s.enabled && s.visible
    case CountdownElapsed => s.countdownRunning
    case ResetElapsed => s.resetRunning
    case _ => true
  }

  /** The handlers of `KillButton_Click`, the two timers, and the row and
      button hover handlers. `stopsCountdown` says whether the confirming
      click stops the countdown timer. */
  function KillStepWith(s: KillButtonState, e: KillEvent, stopsCountdown: bool): KillButtonState
  {
    if !Delivered(s, e) then s
    else match e
      case RowEnter => if s.tag != Killing then s.(visible := true) else s
      case RowLeave => if s.tag == NoTag then s.(visible := false) else s
      case ButtonEnter => if s.tag == NoTag then s.(background := Hovered) else s
      case ButtonLeave => if s.tag == NoTag then s.(background := Plain) else s
      case Click =>
        if s.tag == Killing then s
        else if s.tag == Confirmed then
          s.(tag := Killing, enabled := false, spinning := true, resetRunning := true,
             countdownRunning := if stopsCountdown then false else s.countdownRunning)
        else s.(tag := Confirmed, background := Confirming, countdownRunning := true)
      case CountdownElapsed => s.(tag := NoTag, background := Plain, countdownRunning := false)
      case ResetElapsed =>
        s.(tag := NoTag, enabled := true, visible := false, spinning := false, resetRunning := false)
  }

  /** The handlers as written: the confirming click means to stop the
      countdown, but it tests whether the tag it has just set to "killing"
      is a timer, which it never is, so the countdown keeps running. */
  function KillStepAsWritten(s: KillButtonState, e: KillEvent): KillButtonState
  {
    KillStepWith(s, e, false)
  }

  /** The handlers with the countdown stopped when the kill starts. */
  function KillStep(s: KillButtonState, e: KillEvent): KillButtonState
  {
    KillStepWith(s, e, true)
  }

  /** A click asks for the kill exactly when it confirms. */
  predicate KillRequested(s: KillButtonState, e: KillEvent)
  {
    e == Click && Delivered(s, e) && s.tag == Confirmed
  }

  /** The states the button can be in: confirming exactly while the
      countdown runs, killing exactly while the reset timer runs, and while
      killing it is disabled, shown, and spinning. */
  predicate KillInvariant(s: KillButtonState)
  {
    && (s.tag == Confirmed <==> s.countdownRunning)
    && (s.tag == Killing <==> s.resetRunning)
    && (s.tag == Killing <==> !s.enabled)
    && (s.tag == Killing <==> s.spinning)
    && (s.tag == Killing ==> s.visible)
    && (s.tag == Confirmed ==> s.visible && s.background == Confirming)
  }

  lemma KillInitialIsValid()
    ensures KillInvariant(KillButtonInitial)
  {
  }

  /** Every handler keeps the invariant. */
  lemma KillStepPreservesInvariant(s: KillButtonState, e: KillEvent)
    requires KillInvariant(s)
    ensures KillInvariant(KillStep(s, e))
  {
  }

  /** Clicks while killing are ignored and never ask for a second kill. */
  lemma ClicksWhileKillingIgnored(s: KillButtonState)
    requires s.tag == Killing
    ensures KillStep(s, Click) == s && !KillRequested(s, Click)
    ensures KillStepAsWritten(s, Click) == s
  {
  }

  /** The tag goes none, then confirmed, then killing: the first click on a
      shown button confirms, and only the second one asks for the kill. */
  lemma TwoClicksKill(s: KillButtonState)
    requires KillInvariant(s) && s.tag == NoTag && s.visible
    ensures var s1 := KillStep(s, Click);
            s1.tag == Confirmed && !KillRequested(s, Click)
            && KillRequested(s1, Click) && KillStep(s1, Click).tag == Killing
  {
  }

  /** While the kill is in flight the button stays killing, shown and
      spinning until the reset timer fires, whatever else happens. */
  lemma KillingHeldUntilReset(s: KillButtonState, e: KillEvent)
    requires KillInvariant(s) && s.tag == Killing && e != ResetElapsed
    ensures KillStep(s, e) == s
  {
  }

  function KillRunAsWritten(s: KillButtonState, events: seq<KillEvent>): KillButtonState
    decreases |events|
  {
    if events == [] then s else KillRunAsWritten(KillStepAsWritten(s, events[0]), events[1..])
  }

  /** As written, the countdown started by the first click fires while the
      kill is in flight (it always does: the second click must come within
      its second), clears the "killing" tag, and the pointer then leaving
      the row hides the button and its spinner before the reset timer. */
  lemma CountdownClearsKillingAsWritten()
    ensures var s := KillRunAsWritten(KillButtonInitial,
                                      [RowEnter, Click, Click, CountdownElapsed, RowLeave]);
            s.resetRunning && s.spinning && s.tag == NoTag && !s.visible
            && !KillInvariant(s)
  {
    var s1 := KillStepAsWritten(KillButtonInitial, RowEnter);
    var s2 := KillStepAsWritten(s1, Click);
    var s3 := KillStepAsWritten(s2, Click);
    assert s3.tag == Killing && s3.countdownRunning;
    var s4 := KillStepAsWritten(s3, CountdownElapsed);
    assert s4.tag == NoTag;
    var s5 := KillStepAsWritten(s4, RowLeave);
    assert KillRunAsWritten(KillButtonInitial, [RowEnter, Click, Click, CountdownElapsed, RowLeave]) == s5 by {
      assert [RowEnter, Click, Click, CountdownElapsed, RowLeave][1..] == [Click, Click, CountdownElapsed, RowLeave];
      assert [Click, Click, CountdownElapsed, RowLeave][1..] == [Click, CountdownElapsed, RowLeave];
      assert [Click, CountdownElapsed, RowLeave][1..] == [CountdownElapsed, RowLeave];
      assert [CountdownElapsed, RowLeave][1..] == [RowLeave];
      assert [RowLeave][1..] == [];
    }
  }

  /** A row's kill button. */
  class KillButton {
    var tag: KillTag
    var enabled: bool
    var visible: bool
    var background: KillBackground
    var spinning: bool
    var countdownRunning: bool
    var resetRunning: bool

    constructor ()
      ensures State() == KillButtonInitial
    {
      tag, enabled, visible, background := NoTag, true, false, Plain;
      spinning, countdownRunning, resetRunning := false, false, false;
    }

    function State(): KillButtonState
      reads this
    {
      KillButtonState(tag, enabled, visible, background, spinning, countdownRunning, resetRunning)
    }

    method Set(s: KillButtonState)
      modifies this
      ensures State() == s
    {
      tag, enabled, visible, background := s.tag, s.enabled, s.visible, s.background;
      spinning, countdownRunning, resetRunning := s.spinning, s.countdownRunning, s.resetRunning;
    }

    /** `ProcessRow_MouseEnter`. */
    method RowMouseEnter()
      modifies this
      ensures State() == KillStep(old(State()), RowEnter)
    {
      if tag != Killing {
        visible := true;
      }
    }

    /** `ProcessRow_MouseLeave`. */
    method RowMouseLeave()
      modifies this
      ensures State() == KillStep(old(State()), RowLeave)
    {
      if tag != Confirmed && tag != Killing {
        visible := false;
        tag := NoTag;
      }
    }

    /** `KillButton_MouseEnter`. */
    method MouseEnter()
      modifies this
      ensures State() == KillStep(old(State()), ButtonEnter)
    {
      if enabled && visible && tag != Confirmed && tag != Killing {
        background := Hovered;
      }
    }

    /** `KillButton_MouseLeave`. */
    method MouseLeave()
      modifies this
      ensures State() == KillStep(old(State()), ButtonLeave)
    {
      if enabled && visible && tag != Confirmed && tag != Killing {
        background := Plain;
      }
    }

    /** `KillButton_Click` on the row of process `pid`: answers the kill
        request it raises, if any. */
    method Clicked(pid: int) returns (request: Option<int>)
      modifies this
      ensures State() == KillStep(old(State()), Click)
      ensures request == (if KillRequested(old(State()), Click) then Some(pid) else None)
    {
      request := None;
      if !enabled || !visible || tag == Killing {
        return;
      }
      if tag == Confirmed {
        tag := Killing;
        enabled := false;
        countdownRunning := false;
        spinning := true;
        request := Some(pid);
        resetRunning := true;
      } else {
        tag := Confirmed;
        background := Confirming;
        countdownRunning := true;
      }
    }

    /** The countdown timer's tick: the confirmation lapses. */
    method CountdownTick()
      modifies this
      ensures State() == KillStep(old(State()), CountdownElapsed)
    {
      if countdownRunning {
        tag, background, countdownRunning := NoTag, Plain, false;
      }
    }

    /** The reset timer's tick after a kill. */
    method ResetTick()
      modifies this
      ensures State() == KillStep(old(State()), ResetElapsed)
    {
      if resetRunning {
        tag, enabled, visible, spinning, resetRunning := NoTag, true, false, false, false;
      }
    }
  }
}
