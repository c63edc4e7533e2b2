/** The dashboard's layout state: grid columns and gap, card order, panel
    visibility, background, theme colours, disk-panel side and drag mode.
    Every state that reaches the page is normalised; patches are merged
    field by field; the stored copy is parsed defensively and never holds
    the background image itself. Browser storage and `JSON.parse` /
    `JSON.stringify` are outside the model: a stored state is given as the
    JavaScript value the parse produced. */
module LayoutState {
  import opened Common
  import opened Numbers

  /** A JavaScript value as `JSON.parse` or an untyped property yields it. */
  datatype Value =
    | Undefined
    | Null
    | Bool(b: bool)
    | Num(n: Double)
    | Str(s: string)
    | Arr(items: seq<Value>)
    | Obj(fields: map<string, Value>)

  /** `isRecord`: `typeof value === 'object' && value !== null`, which
      arrays satisfy too. */
  predicate IsRecord(v: Value)
  {
    v.Obj? || v.Arr?
  }

  /** `value.key`: a named property. The keys read here are never array
      indices or `length`, so on an array they are undefined. */
  function Field(v: Value, key: string): Value
  {
    if v.Obj? && key in v.fields then v.fields[key] else Undefined
  }

  predicate IsFiniteNumber(v: Value)
  {
    v.Num? && v.n.Finite?
  }

  // ---------------------------------------------------------------------
  // The coercers

  /** `toFiniteNumber(value, fallback, min)`. */
  function ToFiniteNumber(v: Value, fallback: real, min: Option<real>): (r: real)
    ensures min.Some? ==> r >= min.value || r == fallback
    ensures !IsFiniteNumber(v) ==> r == fallback
  {
    if !IsFiniteNumber(v) then fallback
    else if min.None? then v.n.value
    else MaxReal(min.value, v.n.value)
  }

  /** `toStringValue(value, fallback)`. */
  function ToStringValue(v: Value, fallback: string): (r: string)
    ensures r == fallback || v == Str(r)
  {
    if v.Str? then v.s else fallback
  }

  /** `toBooleanValue(value, fallback)`. */
  function ToBooleanValue(v: Value, fallback: bool): (r: bool)
    ensures r == fallback || v == Bool(r)
  {
    if v.Bool? then v.b else fallback
  }

  /** `toOpacityValue(value, fallback)`: a finite number clamped to [0, 1]. */
  function ToOpacityValue(v: Value, fallback: real): (r: real)
    ensures IsFiniteNumber(v) ==> 0.0 <= r <= 1.0
    ensures !IsFiniteNumber(v) ==> r == fallback
  {
    if !IsFiniteNumber(v) then fallback else MinReal(1.0, MaxReal(0.0, v.n.value))
  }

  /** `toBlurPxValue(value, fallback)`: a finite number clamped to [0, 48]. */
  function ToBlurPxValue(v: Value, fallback: real): (r: real)
    ensures IsFiniteNumber(v) ==> 0.0 <= r <= MaxBlurPx
    ensures !IsFiniteNumber(v) ==> r == fallback
  {
    if !IsFiniteNumber(v) then fallback else MinReal(MaxBlurPx, MaxReal(0.0, v.n.value))
  }

  /** `toNullableStringValue(value, fallback)`: null stays null, a string
      is kept, anything else falls back. */
  function ToNullableStringValue(v: Value, fallback: Option<string>): (r: Option<string>)
    ensures v.Null? ==> r.None?
    ensures v.Str? ==> r == Some(v.s)
    ensures !v.Null? && !v.Str? ==> r == fallback
  {
    if v.Null? then None else if v.Str? then Some(v.s) else fallback
  }

  datatype DiskPosition = Left | Right
  datatype DragMode = Sort | Swap

  /** `toDiskPosition(value, fallback)`. */
  function ToDiskPosition(v: Value, fallback: DiskPosition): DiskPosition
  {
    if v == Str("right") then Right else fallback
  }

  /** `toDragMode(value, fallback)`. */
  function ToDragMode(v: Value, fallback: DragMode): DragMode
  {
    if v == Str("swap") then Swap else fallback
  }

  /** Coercing a coerced value again gives it back. */
  lemma CoercersAreStable(v: Value, fallback: real, lo: real, s: string, b: bool)
    requires 0.0 <= fallback <= 1.0
    ensures var x := ToFiniteNumber(v, fallback, Some(lo));
      fallback >= lo ==> ToFiniteNumber(Num(Finite(x)), fallback, Some(lo)) == x
    ensures var o := ToOpacityValue(v, fallback); ToOpacityValue(Num(Finite(o)), fallback) == o
    ensures var p := ToBlurPxValue(v, fallback); ToBlurPxValue(Num(Finite(p)), fallback) == p
    ensures ToStringValue(Str(ToStringValue(v, s)), s) == ToStringValue(v, s)
    ensures ToBooleanValue(Bool(ToBooleanValue(v, b)), b) == ToBooleanValue(v, b)
  {
  }

  // ---------------------------------------------------------------------
  // The typed state

  const MaxBlurPx := 48.0

  datatype Visibility = Visibility(header: bool, disk: bool, cards: bool, process: bool)

  datatype Background = Background(
    gradient: bool, blurOpacity: real, imageDataUrl: Option<string>,
    imageBlurPx: real, imageStored: bool)

  datatype ThemeColors = ThemeColors(cpu: string, ram: string, gpu: string, vram: string, net: string, pwr: string)

  /** `LayoutState`; `gaps` has the single field `grid`. Only these fields
      exist, so unknown keys of a stored or patched state are dropped. */
  datatype Layout = Layout(
    gridColumns: Double,
    gridGap: real,
    cardOrder: seq<string>,
    visibility: Visibility,
    background: Background,
    themeColors: ThemeColors,
    diskPosition: DiskPosition,
    dragMode: DragMode)

  const DefaultCardOrder: seq<string> := ["cpu", "ram", "gpu", "vram", "net", "pwr"]

  const DefaultVisibility := Visibility(true, true, true, true)

  const DefaultBackground := Background(true, 0.3, None, 18.0, false)

  const DefaultThemeColors :=
    ThemeColors("#3b82f6", "#8b5cf6", "#10b981", "#f59e0b", "#0ea5e9", "#f43f5e")

  /** `DEFAULT_LAYOUT_STATE`. */
  const Default := Layout(Finite(3.0), 16.0, DefaultCardOrder, DefaultVisibility,
    DefaultBackground, DefaultThemeColors, Left, Sort)

  /** A state as it reaches `normalizeLayoutState`: typed as a
      `LayoutState`, but its fields may hold anything at run time; nested
      objects are given by the fields that are read from them. */
  datatype RawVisibility = RawVisibility(header: Value, disk: Value, cards: Value, process: Value)

  datatype RawBackground = RawBackground(
    gradient: Value, blurOpacity: Value, imageDataUrl: Value, imageBlurPx: Value, imageStored: Value)

  datatype RawTheme = RawTheme(cpu: Value, ram: Value, gpu: Value, vram: Value, net: Value, pwr: Value)

  datatype RawLayout = RawLayout(
    gridColumns: Double,
    grid: Value,
    cardOrder: Value,
    visibility: RawVisibility,
    background: RawBackground,
    themeColors: RawTheme,
    diskPosition: Value,
    dragMode: Value)

  // ---------------------------------------------------------------------
  // Normalisation

  /** `Math.round` on a double: halves go up; NaN and the infinities stay. */
  function RoundNumber(d: Double): Double
  {
    if d.Finite? then Finite(RoundHalfUp(d.value) as real) else d
  }

  /** `Math.max(1, d)`: NaN stays NaN. */
  function AtLeastOne(d: Double): Double
  {
    match d
    case NaN => NaN
    case PosInf => PosInf
    case NegInf => Finite(1.0)
    case Finite(x) => Finite(MaxReal(1.0, x))
  }

  predicate IsWhole(x: real) { x == x.Floor as real }

  /** The grid column count after normalisation: a whole number of at
      least 1, unless the input was NaN or +infinity. */
  predicate GridColumnsNormal(d: Double)
  {
    d.NaN? || d.PosInf? || (d.Finite? && IsWhole(d.value) && d.value >= 1.0)
  }

  predicate IsStringArray(v: Value)
  {
    v.Arr? && forall i :: 0 <= i < |v.items| ==> v.items[i].Str?
  }

  function Strings(items: seq<Value>): (r: seq<string>)
    requires forall i :: 0 <= i < |items| ==> items[i].Str?
    ensures |r| == |items| && forall i :: 0 <= i < |items| ==> items[i] == Str(r[i])
  {
    seq(|items|, i requires 0 <= i < |items| => items[i].s)
  }

  function NormalizeCardOrder(v: Value): (r: seq<string>)
    ensures |r| > 0
  {
    var order := if IsStringArray(v) then Strings(v.items) else DefaultCardOrder;
    if |order| > 0 then order else DefaultCardOrder
  }

  function NormalizeVisibility(v: RawVisibility): Visibility
  {
    Visibility(
      ToBooleanValue(v.header, DefaultVisibility.header),
      ToBooleanValue(v.disk, DefaultVisibility.disk),
      ToBooleanValue(v.cards, DefaultVisibility.cards),
      ToBooleanValue(v.process, DefaultVisibility.process))
  }

  function NormalizeBackground(b: RawBackground): Background
  {
    Background(
      ToBooleanValue(b.gradient, DefaultBackground.gradient),
      ToOpacityValue(b.blurOpacity, DefaultBackground.blurOpacity),
      ToNullableStringValue(b.imageDataUrl, DefaultBackground.imageDataUrl),
      ToBlurPxValue(b.imageBlurPx, DefaultBackground.imageBlurPx),
      ToBooleanValue(b.imageStored, DefaultBackground.imageStored))
  }

  function NormalizeTheme(t: RawTheme): ThemeColors
  {
    ThemeColors(
      ToStringValue(t.cpu, DefaultThemeColors.cpu),
      ToStringValue(t.ram, DefaultThemeColors.ram),
      ToStringValue(t.gpu, DefaultThemeColors.gpu),
      ToStringValue(t.vram, DefaultThemeColors.vram),
      ToStringValue(t.net, DefaultThemeColors.net),
      ToStringValue(t.pwr, DefaultThemeColors.pwr))
  }

  /** The bounds every normalised state keeps. */
  predicate Normalized(l: Layout)
  {
    && GridColumnsNormal(l.gridColumns)
    && l.gridGap >= 0.0
    && |l.cardOrder| > 0
    && 0.0 <= l.background.blurOpacity <= 1.0
    && 0.0 <= l.background.imageBlurPx <= MaxBlurPx
  }

  /** `normalizeLayoutState`. */
  function Normalize(s: RawLayout): (r: Layout)
    ensures Normalized(r)
  {
    var columns := AtLeastOne(RoundNumber(s.gridColumns));
    assert columns.Finite? ==> IsWhole(columns.value) by {
      if s.gridColumns.Finite? && s.gridColumns.value.Floor >= 0 { }
    }
    Layout(
      columns,
      ToFiniteNumber(s.grid, Default.gridGap, Some(0.0)),
      NormalizeCardOrder(s.cardOrder),
      NormalizeVisibility(s.visibility),
      NormalizeBackground(s.background),
      NormalizeTheme(s.themeColors),
      ToDiskPosition(s.diskPosition, Default.diskPosition),
      ToDragMode(s.dragMode, Default.dragMode))
  }

  /** A typed state seen as a raw one. */
  function StringsValue(xs: seq<string>): (v: Value)
    ensures IsStringArray(v) && Strings(v.items) == xs
  {
    Arr(seq(|xs|, i requires 0 <= i < |xs| => Str(xs[i])))
  }

  function NullableValue(o: Option<string>): Value
  {
    if o.Some? then Str(o.value) else Null
  }

  function DiskPositionValue(d: DiskPosition): Value
  {
    if d == Right then Str("right") else Str("left")
  }

  function DragModeValue(m: DragMode): Value
  {
    if m == Swap then Str("swap") else Str("sort")
  }

  function RawOfVisibility(v: Visibility): RawVisibility
  {
    RawVisibility(Bool(v.header), Bool(v.disk), Bool(v.cards), Bool(v.process))
  }

  function RawOfBackground(b: Background): RawBackground
  {
    RawBackground(Bool(b.gradient), Num(Finite(b.blurOpacity)), NullableValue(b.imageDataUrl),
      Num(Finite(b.imageBlurPx)), Bool(b.imageStored))
  }

  function RawOfTheme(t: ThemeColors): RawTheme
  {
    RawTheme(Str(t.cpu), Str(t.ram), Str(t.gpu), Str(t.vram), Str(t.net), Str(t.pwr))
  }

  function Embed(l: Layout): RawLayout
  {
    RawLayout(l.gridColumns, Num(Finite(l.gridGap)), StringsValue(l.cardOrder),
      RawOfVisibility(l.visibility), RawOfBackground(l.background), RawOfTheme(l.themeColors),
      DiskPositionValue(l.diskPosition), DragModeValue(l.dragMode))
  }

  /** A normalised state is a fixed point of normalisation. */
  lemma NormalizeKeepsNormalized(l: Layout)
    requires Normalized(l)
    ensures Normalize(Embed(l)) == l
  {
    var r := Normalize(Embed(l));
    assert r.gridColumns == l.gridColumns by {
      if l.gridColumns.Finite? {
        assert (l.gridColumns.value + 0.5).Floor == l.gridColumns.value.Floor;
      }
    }
    assert r.visibility == l.visibility;
    assert r.background == l.background;
    assert r.themeColors == l.themeColors;
  }

  /** Normalisation is idempotent. */
  lemma NormalizeIdempotent(s: RawLayout)
    ensures Normalize(Embed(Normalize(s))) == Normalize(s)
  {
    NormalizeKeepsNormalized(Normalize(s));
  }

  /** The grid column count: a finite count is rounded (halves up) and
      raised to at least 1. */
  lemma NormalizedGridColumns(s: RawLayout)
    requires s.gridColumns.Finite?
    ensures var c := Normalize(s).gridColumns;
      c.Finite? && c.value >= 1.0 && IsWhole(c.value)
      && (s.gridColumns.value >= 0.5 ==> Abs(c.value - s.gridColumns.value) <= 0.5)
  {
  }

  /** The card order is the given one when it is a non-empty array of
      strings, and the default order otherwise. */
  lemma NormalizedCardOrder(s: RawLayout)
    ensures var o := Normalize(s).cardOrder;
      if IsStringArray(s.cardOrder) && |s.cardOrder.items| > 0
      then o == Strings(s.cardOrder.items)
      else o == DefaultCardOrder
  {
  }

  /** The disk panel is on the right only for exactly 'right', and the
      drag mode is swap only for exactly 'swap'. */
  lemma NormalizedEnums(s: RawLayout)
    ensures Normalize(s).diskPosition == Right <==> s.diskPosition == Str("right")
    ensures Normalize(s).dragMode == Swap <==> s.dragMode == Str("swap")
  {
  }

  /** A grid gap that is not a finite number falls back to the default
      16; a finite one is raised to at least 0. */
  lemma NormalizedGap(s: RawLayout)
    ensures IsFiniteNumber(s.grid) ==> Normalize(s).gridGap == MaxReal(0.0, s.grid.n.value)
    ensures !IsFiniteNumber(s.grid) ==> Normalize(s).gridGap == 16.0
  {
  }

  lemma DefaultIsNormalized()
    ensures Normalized(Default)
    ensures Normalize(Embed(Default)) == Default
  {
    NormalizeKeepsNormalized(Default);
  }

  // ---------------------------------------------------------------------
  // Merging a patch

  /** A `LayoutStatePatch`. A top-level field is `None` when absent; a
      nested field is `None` when the nested patch object lacks that key
      (a key present with the value undefined is `Some(Undefined)`, which
      the spread copies). */
  datatype PatchVisibility = PatchVisibility(header: Option<Value>, disk: Option<Value>, cards: Option<Value>, process: Option<Value>)

  datatype PatchBackground = PatchBackground(
    gradient: Option<Value>, blurOpacity: Option<Value>, imageDataUrl: Option<Value>,
    imageBlurPx: Option<Value>, imageStored: Option<Value>)

  datatype PatchTheme = PatchTheme(cpu: Option<Value>, ram: Option<Value>, gpu: Option<Value>,
    vram: Option<Value>, net: Option<Value>, pwr: Option<Value>)

  datatype Patch = Patch(
    gridColumns: Option<Double>,
    grid: Option<Value>,
    cardOrder: Option<Value>,
    visibility: PatchVisibility,
    background: PatchBackground,
    themeColors: PatchTheme,
    diskPosition: Option<Value>,
    dragMode: Option<Value>)

  const EmptyPatch := Patch(None, None, None,
    PatchVisibility(None, None, None, None),
    PatchBackground(None, None, None, None, None),
    PatchTheme(None, None, None, None, None, None),
    None, None)

  /** `patch.x ?? state.x`: null and undefined fall through. */
  function Coalesce(p: Option<Value>, v: Value): Value
  {
    if p.Some? && !p.value.Null? && !p.value.Undefined? then p.value else v
  }

  /** `{ ...state, ...patch }` for one key. */
  function Spread(p: Option<Value>, v: Value): Value
  {
    if p.Some? then p.value else v
  }

  function SpreadVisibility(v: RawVisibility, p: PatchVisibility): RawVisibility
  {
    RawVisibility(Spread(p.header, v.header), Spread(p.disk, v.disk),
      Spread(p.cards, v.cards), Spread(p.process, v.process))
  }

  function SpreadBackground(b: RawBackground, p: PatchBackground): RawBackground
  {
    RawBackground(Spread(p.gradient, b.gradient), Spread(p.blurOpacity, b.blurOpacity),
      Spread(p.imageDataUrl, b.imageDataUrl), Spread(p.imageBlurPx, b.imageBlurPx),
      Spread(p.imageStored, b.imageStored))
  }

  function SpreadTheme(t: RawTheme, p: PatchTheme): RawTheme
  {
    RawTheme(Spread(p.cpu, t.cpu), Spread(p.ram, t.ram), Spread(p.gpu, t.gpu),
      Spread(p.vram, t.vram), Spread(p.net, t.net), Spread(p.pwr, t.pwr))
  }

  /** The record `mergeLayoutState` hands to normalisation. */
  function Apply(s: RawLayout, p: Patch): RawLayout
  {
    RawLayout(
      if p.gridColumns.Some? then p.gridColumns.value else s.gridColumns,
      Spread(p.grid, s.grid),
      Coalesce(p.cardOrder, s.cardOrder),
      SpreadVisibility(s.visibility, p.visibility),
      SpreadBackground(s.background, p.background),
      SpreadTheme(s.themeColors, p.themeColors),
      Coalesce(p.diskPosition, s.diskPosition),
      Coalesce(p.dragMode, s.dragMode))
  }

  /** `mergeLayoutState(state, patch)`. */
  function Merge(state: Layout, patch: Patch): (r: Layout)
    ensures Normalized(r)
  {
    Normalize(Apply(Embed(state), patch))
  }

  /** An empty patch leaves a normalised state as it is. */
  lemma MergeEmptyPatch(state: Layout)
    requires Normalized(state)
    ensures Merge(state, EmptyPatch) == state
  {
    assert Apply(Embed(state), EmptyPatch) == Embed(state);
    NormalizeKeepsNormalized(state);
  }

  /** Fields the patch provides win; the others keep the state's values. */
  lemma MergeOverrides(state: Layout, patch: Patch)
    requires Normalized(state)
    ensures var r := Merge(state, patch);
      && (patch.cardOrder.None? ==> r.cardOrder == state.cardOrder)
      && ((patch.cardOrder.Some? && IsStringArray(patch.cardOrder.value) && |patch.cardOrder.value.items| > 0)
            ==> r.cardOrder == Strings(patch.cardOrder.value.items))
      && (patch.diskPosition.Some? && patch.diskPosition.value.Str? ==>
            (r.diskPosition == Right <==> patch.diskPosition.value == Str("right")))
      && (patch.diskPosition.None? ==> r.diskPosition == state.diskPosition)
      && (patch.dragMode.None? ==> r.dragMode == state.dragMode)
      && (patch.visibility.header.Some? && patch.visibility.header.value.Bool? ==>
            r.visibility.header == patch.visibility.header.value.b)
      && (patch.visibility.header.None? ==> r.visibility.header == state.visibility.header)
      && (patch.grid.None? ==> r.gridGap == state.gridGap)
      && (patch.background.imageDataUrl.None? ==> r.background.imageDataUrl == state.background.imageDataUrl)
  {
  }

  // ---------------------------------------------------------------------
  // Parsing the stored state

  const LayoutStateVersion := "1.0"

  /** `isRecord(x) ? x : {}`. */
  function AsRecord(v: Value): Value
  {
    if IsRecord(v) then v else Obj(map[])
  }

  function FilterStrings(items: seq<Value>): (r: seq<string>)
    ensures |r| <= |items|
  {
    if items == [] then []
    else (if items[0].Str? then [items[0].s] else []) + FilterStrings(items[1..])
  }

  /** The stored visibility record, read field by field. */
  function ReadVisibility(vis: Value): Visibility
  {
    Visibility(
      ToBooleanValue(Field(vis, "header"), DefaultVisibility.header),
      ToBooleanValue(Field(vis, "disk"), DefaultVisibility.disk),
      ToBooleanValue(Field(vis, "cards"), DefaultVisibility.cards),
      ToBooleanValue(Field(vis, "process"), DefaultVisibility.process))
  }

  function ReadBackground(bg: Value): Background
  {
    Background(
      ToBooleanValue(Field(bg, "gradient"), DefaultBackground.gradient),
      ToOpacityValue(Field(bg, "blurOpacity"), DefaultBackground.blurOpacity),
      ToNullableStringValue(Field(bg, "imageDataUrl"), DefaultBackground.imageDataUrl),
      ToBlurPxValue(Field(bg, "imageBlurPx"), DefaultBackground.imageBlurPx),
      ToBooleanValue(Field(bg, "imageStored"), DefaultBackground.imageStored))
  }

  function ReadTheme(theme: Value): ThemeColors
  {
    NormalizeTheme(RawTheme(Field(theme, "cpu"), Field(theme, "ram"), Field(theme, "gpu"),
      Field(theme, "vram"), Field(theme, "net"), Field(theme, "pwr")))
  }

  function ReadCardOrder(order: Value): Value
  {
    if order.Arr? then StringsValue(FilterStrings(order.items)) else StringsValue(DefaultCardOrder)
  }

  /** The `candidate` built from a stored `state` record. */
  function Candidate(st: Value): RawLayout
  {
    RawLayout(
      Finite(ToFiniteNumber(Field(st, "gridColumns"), Default.gridColumns.value, Some(1.0))),
      Num(Finite(ToFiniteNumber(Field(AsRecord(Field(st, "gaps")), "grid"), Default.gridGap, Some(0.0)))),
      ReadCardOrder(Field(st, "cardOrder")),
      RawOfVisibility(ReadVisibility(AsRecord(Field(st, "visibility")))),
      RawOfBackground(ReadBackground(AsRecord(Field(st, "background")))),
      RawOfTheme(ReadTheme(AsRecord(Field(st, "themeColors")))),
      DiskPositionValue(ToDiskPosition(Field(st, "diskPosition"), Default.diskPosition)),
      DragModeValue(ToDragMode(Field(st, "dragMode"), Default.dragMode)))
  }

  /** `parseStoredLayoutState(raw)`. */
  function Parse(raw: Value): (r: Option<Layout>)
    ensures r.Some? ==> Normalized(r.value)
  {
    if !IsRecord(raw) then None
    else if Field(raw, "version") != Str(LayoutStateVersion) then None
    else if !IsRecord(Field(raw, "state")) then None
    else Some(Normalize(Candidate(Field(raw, "state"))))
  }

  /** A stored value is accepted iff it is a record with version '1.0'
      and a record `state`. */
  lemma ParseAcceptsIff(raw: Value)
    ensures Parse(raw).Some? <==>
      IsRecord(raw) && Field(raw, "version") == Str("1.0") && IsRecord(Field(raw, "state"))
  {
  }

  lemma {:induction false} FilterStringsKeepsStrings(items: seq<Value>)
    ensures forall s :: s in FilterStrings(items) <==> Str(s) in items
  {
    if items != [] {
      FilterStringsKeepsStrings(items[1..]);
      assert items == [items[0]] + items[1..];
    }
  }

  /** Stored card ids that are not strings are dropped; the others keep
      their order. */
  lemma ParsedCardOrder(raw: Value)
    requires Parse(raw).Some?
    requires Field(Field(raw, "state"), "cardOrder").Arr?
    ensures var items := Field(Field(raw, "state"), "cardOrder").items;
      var o := Parse(raw).value.cardOrder;
      o == if FilterStrings(items) == [] then DefaultCardOrder else FilterStrings(items)
  {
  }

  /** What loading found in storage. */
  datatype Stored = NothingStored | Unparseable | Parsed(value: Value)

  /** `loadLayoutState`: the parsed state, or the defaults when storage is
      unavailable, empty, unparseable or rejected. */
  function Load(canUseStorage: bool, stored: Stored): (r: Layout)
    ensures Normalized(r)
    ensures !canUseStorage || !stored.Parsed? ==> r == Default
  {
    DefaultIsNormalized();
    if !canUseStorage then Default
    else match stored
      case Parsed(v) => (match Parse(v) case Some(l) => l case None => Default)
      case _ => Default
  }

  // ---------------------------------------------------------------------
  // Persisting

  /** The state `persistLayoutState` writes: an image data URL is replaced
      by null and marked as stored elsewhere. */
  function SafeState(l: Layout): (r: Layout)
    ensures r.background.imageDataUrl.None?
    ensures l.background.imageDataUrl.Some? ==> r.background.imageStored
    ensures l.background.imageDataUrl.None? ==> r == l
    ensures r.(background := l.background) == l
    ensures Normalized(l) ==> Normalized(r)
  {
    if l.background.imageDataUrl.Some? then
      l.(background := l.background.(imageDataUrl := None, imageStored := true))
    else l
  }

  /** A typed state as the JSON value `JSON.stringify` writes. */
  function VisibilityJson(v: Visibility): Value
  {
    Obj(map["header" := Bool(v.header), "disk" := Bool(v.disk), "cards" := Bool(v.cards), "process" := Bool(v.process)])
  }

  function BackgroundJson(b: Background): Value
  {
    Obj(map["gradient" := Bool(b.gradient), "blurOpacity" := Num(Finite(b.blurOpacity)),
      "imageDataUrl" := NullableValue(b.imageDataUrl), "imageBlurPx" := Num(Finite(b.imageBlurPx)),
      "imageStored" := Bool(b.imageStored)])
  }

  function ThemeJson(t: ThemeColors): Value
  {
    Obj(map["cpu" := Str(t.cpu), "ram" := Str(t.ram), "gpu" := Str(t.gpu),
      "vram" := Str(t.vram), "net" := Str(t.net), "pwr" := Str(t.pwr)])
  }

  function LayoutJson(l: Layout): Value
    requires l.gridColumns.Finite?
  {
    Obj(map[
      "gridColumns" := Num(l.gridColumns),
      "gaps" := Obj(map["grid" := Num(Finite(l.gridGap))]),
      "cardOrder" := StringsValue(l.cardOrder),
      "visibility" := VisibilityJson(l.visibility),
      "background" := BackgroundJson(l.background),
      "themeColors" := ThemeJson(l.themeColors),
      "diskPosition" := DiskPositionValue(l.diskPosition),
      "dragMode" := DragModeValue(l.dragMode)])
  }

  /** The payload `persistLayoutState` stores. */
  function Payload(l: Layout): Value
    requires l.gridColumns.Finite?
  {
    Obj(map["version" := Str(LayoutStateVersion), "state" := LayoutJson(SafeState(l))])
  }

  lemma {:induction false} FilterStringsOfStrings(xs: seq<string>)
    ensures FilterStrings(StringsValue(xs).items) == xs
  {
    if xs != [] {
      FilterStringsOfStrings(xs[1..]);
      assert StringsValue(xs).items[1..] == StringsValue(xs[1..]).items;
    }
  }

  lemma ParsedVisibility(v: Visibility)
    ensures ReadVisibility(AsRecord(VisibilityJson(v))) == v
  {
  }

  lemma ParsedBackground(b: Background)
    requires 0.0 <= b.blurOpacity <= 1.0 && 0.0 <= b.imageBlurPx <= MaxBlurPx
    ensures ReadBackground(AsRecord(BackgroundJson(b))) == b
  {
  }

  lemma ParsedTheme(t: ThemeColors)
    ensures ReadTheme(AsRecord(ThemeJson(t))) == t
  {
  }

  lemma LayoutJsonFields(l: Layout)
    requires l.gridColumns.Finite?
    ensures var st := LayoutJson(l);
      && Field(st, "gridColumns") == Num(l.gridColumns)
      && Field(st, "gaps") == Obj(map["grid" := Num(Finite(l.gridGap))])
      && Field(st, "cardOrder") == StringsValue(l.cardOrder)
  {
  }

  lemma LayoutJsonNested(l: Layout)
    requires l.gridColumns.Finite?
    ensures var st := LayoutJson(l);
      && Field(st, "visibility") == VisibilityJson(l.visibility)
      && Field(st, "background") == BackgroundJson(l.background)
      && Field(st, "themeColors") == ThemeJson(l.themeColors)
      && Field(st, "diskPosition") == DiskPositionValue(l.diskPosition)
      && Field(st, "dragMode") == DragModeValue(l.dragMode)
  {
  }

  lemma CandidateColumns(l: Layout)
    requires Normalized(l) && l.gridColumns.Finite?
    ensures Candidate(LayoutJson(l)).gridColumns == l.gridColumns
  {
    var st := LayoutJson(l);
    LayoutJsonFields(l);
    assert ToFiniteNumber(Field(st, "gridColumns"), Default.gridColumns.value, Some(1.0)) == l.gridColumns.value;
  }

  lemma CandidateGap(l: Layout)
    requires Normalized(l) && l.gridColumns.Finite?
    ensures Candidate(LayoutJson(l)).grid == Num(Finite(l.gridGap))
  {
    var st := LayoutJson(l);
    LayoutJsonFields(l);
    assert Field(AsRecord(Field(st, "gaps")), "grid") == Num(Finite(l.gridGap));
    assert ToFiniteNumber(Num(Finite(l.gridGap)), Default.gridGap, Some(0.0)) == l.gridGap;
    CandidateGrid(st);
  }

  lemma CandidateGrid(st: Value)
    ensures Candidate(st).grid
      == Num(Finite(ToFiniteNumber(Field(AsRecord(Field(st, "gaps")), "grid"), Default.gridGap, Some(0.0))))
  {
  }

  lemma CandidateCardOrder(l: Layout)
    requires Normalized(l) && l.gridColumns.Finite?
    ensures Candidate(LayoutJson(l)).cardOrder == StringsValue(l.cardOrder)
  {
    var st := LayoutJson(l);
    LayoutJsonFields(l);
    FilterStringsOfStrings(l.cardOrder);
    assert ReadCardOrder(Field(st, "cardOrder")) == StringsValue(l.cardOrder);
  }

  lemma CandidateScalars(l: Layout)
    requires Normalized(l) && l.gridColumns.Finite?
    ensures var c := Candidate(LayoutJson(l));
      && c.gridColumns == l.gridColumns
      && c.grid == Num(Finite(l.gridGap))
      && c.cardOrder == StringsValue(l.cardOrder)
  {
    CandidateColumns(l);
    CandidateGap(l);
    CandidateCardOrder(l);
  }

  lemma CandidateNested(l: Layout)
    requires Normalized(l) && l.gridColumns.Finite?
    ensures var c := Candidate(LayoutJson(l));
      && c.visibility == RawOfVisibility(l.visibility)
      && c.background == RawOfBackground(l.background)
      && c.themeColors == RawOfTheme(l.themeColors)
      && c.diskPosition == DiskPositionValue(l.diskPosition)
      && c.dragMode == DragModeValue(l.dragMode)
  {
    LayoutJsonNested(l);
    ParsedVisibility(l.visibility);
    ParsedBackground(l.background);
    ParsedTheme(l.themeColors);
  }

  /** The candidate read back from a written normalised state is that
      state seen as a raw one. */
  lemma CandidateOfJson(l: Layout)
    requires Normalized(l) && l.gridColumns.Finite?
    ensures Candidate(LayoutJson(l)) == Embed(l)
  {
    CandidateScalars(l);
    CandidateNested(l);
  }

  /** Round trip: parsing what was persisted gives back the persisted
      (image-free) state, for a normalised state with a finite column
      count (JSON has no NaN or infinity). */
  lemma ParsePersisted(l: Layout)
    requires Normalized(l) && l.gridColumns.Finite?
    ensures Parse(Payload(l)) == Some(SafeState(l))
  {
    var s := SafeState(l);
    assert Field(Payload(l), "version") == Str(LayoutStateVersion);
    assert Field(Payload(l), "state") == LayoutJson(s);
    CandidateOfJson(s);
    NormalizeKeepsNormalized(s);
  }

  // ---------------------------------------------------------------------
  // The hook's updates

  /** What `updateLayout` is given: a patch, or a function whose result
      is normalised. */
  datatype Update = PatchUpdate(patch: Patch) | FunctionUpdate(f: Layout -> RawLayout)

  /** `updateLayout(update)` applied to the previous state. */
  function UpdateLayout(prev: Layout, update: Update): (r: Layout)
    ensures Normalized(r)
  {
    match update
    case PatchUpdate(p) => Merge(prev, p)
    case FunctionUpdate(f) => Normalize(f(prev))
  }

  /** `resetLayout`: the defaults, normalised. */
  function ResetLayout(): (r: Layout)
    ensures r == Default
  {
    DefaultIsNormalized();
    Normalize(Embed(Default))
  }
}
