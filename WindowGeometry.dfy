/** Screen geometry shared by the floating window and the taskbar metrics
    window: clamping a coordinate into a range, screen rectangles in device
    pixels, the window's effective box, and how far the box sticks out past
    or sits from each edge of a rectangle. */
module WindowGeometry {
  import opened Numbers

  /** `EdgeDockSide`: the four screen edges, in the order the windows try them. */
  datatype Side = Left | Right | Top | Bottom

  /** A `System.Drawing.Rectangle` as `Screen.Bounds` / `Screen.WorkingArea`
      give it: integer device pixels, `right` and `bottom` exclusive. */
  datatype ScreenRect = ScreenRect(left: int, top: int, right: int, bottom: int)

  /** A screen: its full bounds and the working area the taskbar leaves. */
  datatype Screen = Screen(bounds: ScreenRect, working: ScreenRect)

  /** A cursor position in device pixels. */
  datatype Point = Point(x: int, y: int)

  /** The window as the geometry code sees it: position, and the larger of
      the requested and the laid-out size (`Math.Max(Width, ActualWidth)`). */
  datatype Box = Box(left: real, top: real, width: real, height: real)

  function EffectiveBox(left: real, top: real, width: real, height: real,
                        actualWidth: real, actualHeight: real): (b: Box)
    ensures b.left == left && b.top == top
    ensures b.width >= width && b.width >= actualWidth
    ensures b.width == width || b.width == actualWidth
    ensures b.height >= height && b.height >= actualHeight
    ensures b.height == height || b.height == actualHeight
  {
    Box(left, top, MaxReal(width, actualWidth), MaxReal(height, actualHeight))
  }

  /** `ClampToRange`: `min` when the range is empty (`min > max`), otherwise
      `Math.Clamp(value, min, max)`. */
  function ClampToRange(value: real, min: real, max: real): (r: real)
    ensures min > max ==> r == min
    ensures min <= max ==> min <= r <= max
    ensures min <= value <= max ==> r == value
    ensures min <= max && value < min ==> r == min
    ensures min <= max && value > max ==> r == max
  {
    if min > max then min else ClampReal(value, min, max)
  }

  /** Over a non-empty range the clamped value is the point of the range
      nearest to the input. */
  lemma ClampToRangeIsNearest(value: real, min: real, max: real, y: real)
    requires min <= y <= max
    ensures Abs(ClampToRange(value, min, max) - value) <= Abs(y - value)
  {
  }

  /** Clamping twice into the same range changes nothing the second time. */
  lemma ClampToRangeIdempotent(value: real, min: real, max: real)
    ensures ClampToRange(ClampToRange(value, min, max), min, max) == ClampToRange(value, min, max)
  {
  }

  /** Clamping keeps the order of its inputs. */
  lemma ClampToRangeMonotone(a: real, b: real, min: real, max: real)
    requires a <= b
    ensures ClampToRange(a, min, max) <= ClampToRange(b, min, max)
  {
  }

  /** The extent of the box across a side: its width for the left and right
      edges, its height for the top and bottom ones. */
  function Extent(b: Box, side: Side): real
  {
    if side == Left || side == Right then b.width else b.height
  }

  /** How far the box sticks out past the given edge of `r`, or 0. */
  function Overflow(b: Box, r: ScreenRect, side: Side): (o: real)
    ensures o >= 0.0
    ensures side == Left ==> (o > 0.0 <==> b.left < r.left as real)
    ensures side == Right ==> (o > 0.0 <==> b.left + b.width > r.right as real)
    ensures side == Top ==> (o > 0.0 <==> b.top < r.top as real)
    ensures side == Bottom ==> (o > 0.0 <==> b.top + b.height > r.bottom as real)
  {
    match side
    case Left => MaxReal(0.0, r.left as real - b.left)
    case Right => MaxReal(0.0, (b.left + b.width) - r.right as real)
    case Top => MaxReal(0.0, r.top as real - b.top)
    case Bottom => MaxReal(0.0, (b.top + b.height) - r.bottom as real)
  }

  /** At least half of the box lies beyond the given edge of `r`. */
  predicate HalfOut(b: Box, r: ScreenRect, side: Side)
  {
    Overflow(b, r, side) >= Extent(b, side) / 2.0
  }

  /** Some side of the box is half out of `r`. */
  predicate HalfOutAnywhere(b: Box, r: ScreenRect)
  {
    HalfOut(b, r, Left) || HalfOut(b, r, Right) || HalfOut(b, r, Top) || HalfOut(b, r, Bottom)
  }

  /** The distance between the box's edge and the same edge of `r`. */
  function EdgeDistance(b: Box, r: ScreenRect, side: Side): (d: real)
    ensures d >= 0.0
  {
    match side
    case Left => Abs(b.left - r.left as real)
    case Right => Abs((b.left + b.width) - r.right as real)
    case Top => Abs(b.top - r.top as real)
    case Bottom => Abs((b.top + b.height) - r.bottom as real)
  }

  /** The distance between the cursor and the given edge of `r`. */
  function CursorDistance(c: Point, r: ScreenRect, side: Side): (d: real)
    ensures d >= 0.0
  {
    match side
    case Left => Abs(c.x as real - r.left as real)
    case Right => Abs(r.right as real - c.x as real)
    case Top => Abs(c.y as real - r.top as real)
    case Bottom => Abs(r.bottom as real - c.y as real)
  }

  /** A box that lies inside `r` is not half out of it on any side, unless
      it is empty across that side. */
  lemma InsideIsNotHalfOut(b: Box, r: ScreenRect, side: Side)
    requires r.left as real <= b.left && b.left + b.width <= r.right as real
    requires r.top as real <= b.top && b.top + b.height <= r.bottom as real
    requires Extent(b, side) > 0.0
    ensures !HalfOut(b, r, side)
  {
  }
}
