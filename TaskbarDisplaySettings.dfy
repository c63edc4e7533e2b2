/** The edge-dock (taskbar) display settings of the desktop client and
    their normalisation: dock labels are trimmed and fall back to their
    defaults when blank, and the column gap is clamped into [0, 24]. */
module TaskbarDisplaySettings {
  import opened Common

  /** The six dock label properties, `DockCpuLabel` … `DockDownloadLabel`. */
  datatype DockLabel = CpuLabel | MemoryLabel | GpuLabel | PowerLabel | UploadLabel | DownloadLabel

  /** The configured defaults of the two display modes, the six dock
      labels and the gap. */
  datatype Defaults = Defaults(
    enableFloatingMode: bool, enableEdgeDockMode: bool,
    cpuLabel: string, memoryLabel: string, gpuLabel: string,
    powerLabel: string, uploadLabel: string, downloadLabel: string,
    columnGap: int)

  function DefaultLabel(defaults: Defaults, k: DockLabel): string
  {
    match k
    case CpuLabel => defaults.cpuLabel
    case MemoryLabel => defaults.memoryLabel
    case GpuLabel => defaults.gpuLabel
    case PowerLabel => defaults.powerLabel
    case UploadLabel => defaults.uploadLabel
    case DownloadLabel => defaults.downloadLabel
  }

  /** Position of each dock label in the label list. */
  function Index(k: DockLabel): (i: nat)
    ensures i < LabelCount
  {
    match k
    case CpuLabel => 0
    case MemoryLabel => 1
    case GpuLabel => 2
    case PowerLabel => 3
    case UploadLabel => 4
    case DownloadLabel => 5
  }

  const LabelCount: nat := 6

  /** The six label defaults, in `Index` order. */
  function DefaultLabels(defaults: Defaults): (r: seq<string>)
    ensures |r| == LabelCount
  {
    [defaults.cpuLabel, defaults.memoryLabel, defaults.gpuLabel,
     defaults.powerLabel, defaults.uploadLabel, defaults.downloadLabel]
  }

  /** Each label's default sits at its index. */
  lemma DefaultLabelsAt(defaults: Defaults, k: DockLabel)
    ensures DefaultLabels(defaults)[Index(k)] == DefaultLabel(defaults, k)
  {
  }

  /** The value of each dock label property, in `Index` order; `None` is a
      null label. */
  type Labels = seq<Option<string>>

  /** The value of every property of the settings object. */
  datatype SettingsData = SettingsData(
    enableFloatingMode: bool, enableEdgeDockMode: bool,
    monitorCpu: bool, monitorMemory: bool, monitorGpu: bool, monitorPower: bool, monitorNetwork: bool,
    labels: Labels, dockColumnGap: int)

  const MinColumnGap: int := 0
  const MaxColumnGap: int := 24

  /** `NormalizeLabel`: the trimmed label, or the fallback when that is blank. */
  function NormalizeLabel(value: Option<string>, fallback: string): string
  {
    var normalized := Trim(if value.Some? then value.value else "");
    if IsBlank(normalized) then fallback else normalized
  }

  /** A blank string trims to a blank string, and only a blank one does. */
  lemma TrimBlank(s: string)
    ensures IsBlank(s) <==> IsBlank(Trim(s))
  {
    BlankIffTrimEmpty(s);
    BlankIffTrimEmpty(Trim(s));
    TrimIdempotent(s);
  }

  /** A normalised label is the fallback or a trimmed non-blank text: the
      trimmed value when the value is not blank, the fallback for a null or
      blank value. */
  lemma NormalizeLabelMeaning(value: Option<string>, fallback: string)
    ensures var r := NormalizeLabel(value, fallback);
      && (r == fallback || (!IsBlank(r) && Trim(r) == r))
      && (!IsNullOrWhiteSpace(value) ==> r == Trim(value.value))
      && (IsNullOrWhiteSpace(value) ==> r == fallback)
  {
    var text := if value.Some? then value.value else "";
    TrimIdempotent(text);
    TrimBlank(text);
  }

  /** A default that is its own trim, or is blank, is stable under
      normalisation. */
  predicate StableDefault(fallback: string)
  {
    Trim(fallback) == fallback || IsBlank(fallback)
  }

  /** Normalising a normalised label changes nothing. */
  lemma NormalizeLabelIdempotent(value: Option<string>, fallback: string)
    requires StableDefault(fallback)
    ensures NormalizeLabel(Some(NormalizeLabel(value, fallback)), fallback) == NormalizeLabel(value, fallback)
  {
    var r := NormalizeLabel(value, fallback);
    NormalizeLabelMeaning(value, fallback);
    NormalizeLabelMeaning(Some(r), fallback);
    if r == fallback && IsBlank(fallback) {
      TrimBlank(fallback);
    }
  }

  /** Each value normalised against the fallback at the same position. */
  function NormalizeAll(values: seq<Option<string>>, fallbacks: seq<string>): (r: seq<Option<string>>)
    requires |values| == |fallbacks|
    ensures |r| == |values|
  {
    if values == [] then []
    else [Some(NormalizeLabel(values[0], fallbacks[0]))] + NormalizeAll(values[1..], fallbacks[1..])
  }

  /** `NormalizeAll` normalises every position and nothing else. */
  lemma {:induction false} NormalizeAllAt(values: seq<Option<string>>, fallbacks: seq<string>, i: nat)
    requires |values| == |fallbacks| && i < |values|
    ensures NormalizeAll(values, fallbacks)[i] == Some(NormalizeLabel(values[i], fallbacks[i]))
    decreases i
  {
    if i > 0 {
      NormalizeAllAt(values[1..], fallbacks[1..], i - 1);
    }
  }

  /** A second pass of `NormalizeAll` changes nothing when every fallback
      is stable. */
  lemma {:induction false} NormalizeAllIdempotent(values: seq<Option<string>>, fallbacks: seq<string>)
    requires |values| == |fallbacks|
    requires forall i :: 0 <= i < |fallbacks| ==> StableDefault(fallbacks[i])
    ensures NormalizeAll(NormalizeAll(values, fallbacks), fallbacks) == NormalizeAll(values, fallbacks)
  {
    if values != [] {
      var once := NormalizeAll(values, fallbacks);
      NormalizeLabelIdempotent(values[0], fallbacks[0]);
      NormalizeAllIdempotent(values[1..], fallbacks[1..]);
      assert once[1..] == NormalizeAll(values[1..], fallbacks[1..]);
    }
  }

  function NormalizedLabels(labels: Labels, defaults: Defaults): Labels
    requires |labels| == LabelCount
  {
    NormalizeAll(labels, DefaultLabels(defaults))
  }

  /** The settings after `Normalize`. */
  function Normalized(d: SettingsData, defaults: Defaults): SettingsData
    requires |d.labels| == LabelCount
  {
    d.(labels := NormalizedLabels(d.labels, defaults),
       dockColumnGap := ClampInt(d.dockColumnGap, MinColumnGap, MaxColumnGap))
  }

  /** After normalisation there are still six labels, and each is its
      value normalised against its own default (`NormalizeLabelMeaning`
      says what that is). */
  lemma NormalizedLabel(d: SettingsData, defaults: Defaults, k: DockLabel)
    requires |d.labels| == LabelCount
    ensures |Normalized(d, defaults).labels| == LabelCount
    ensures Normalized(d, defaults).labels[Index(k)] == Some(NormalizeLabel(d.labels[Index(k)], DefaultLabel(defaults, k)))
  {
    NormalizeAllAt(d.labels, DefaultLabels(defaults), Index(k));
    DefaultLabelsAt(defaults, k);
  }

  /** Normalisation clamps the gap into [0, 24] and leaves the display
      modes and monitor switches untouched. */
  lemma NormalizedGapAndSwitches(d: SettingsData, defaults: Defaults)
    requires |d.labels| == LabelCount
    ensures MinColumnGap <= Normalized(d, defaults).dockColumnGap <= MaxColumnGap
    ensures MinColumnGap <= d.dockColumnGap <= MaxColumnGap ==> Normalized(d, defaults).dockColumnGap == d.dockColumnGap
    ensures Normalized(d, defaults).(labels := d.labels, dockColumnGap := d.dockColumnGap) == d
  {
  }

  /** `Normalize` is idempotent when every default is stable. */
  lemma NormalizeIdempotent(d: SettingsData, defaults: Defaults)
    requires |d.labels| == LabelCount
    requires forall k :: StableDefault(DefaultLabel(defaults, k))
    ensures Normalized(Normalized(d, defaults), defaults) == Normalized(d, defaults)
  {
    var fallbacks := DefaultLabels(defaults);
    forall i | 0 <= i < |fallbacks|
      ensures StableDefault(fallbacks[i])
    {
      var k := if i == 0 then CpuLabel else if i == 1 then MemoryLabel else if i == 2 then GpuLabel
        else if i == 3 then PowerLabel else if i == 4 then UploadLabel else DownloadLabel;
      assert Index(k) == i;
      DefaultLabelsAt(defaults, k);
    }
    NormalizeAllIdempotent(d.labels, fallbacks);
  }

  /** A new settings object: the default modes and labels, every monitor
      switch on (the monitor defaults are all `true`). */
  function Initial(defaults: Defaults): (d: SettingsData)
    ensures |d.labels| == LabelCount
  {
    SettingsData(defaults.enableFloatingMode, defaults.enableEdgeDockMode, true, true, true, true, true,
      Present(DefaultLabels(defaults)), defaults.columnGap)
  }

  /** Each text as a non-null label. */
  function Present(texts: seq<string>): (r: Labels)
    ensures |r| == |texts|
  {
    if texts == [] then [] else [Some(texts[0])] + Present(texts[1..])
  }

  lemma {:induction false} PresentAt(texts: seq<string>, i: nat)
    requires i < |texts|
    ensures Present(texts)[i] == Some(texts[i])
    decreases i
  {
    if i > 0 {
      PresentAt(texts[1..], i - 1);
    }
  }

  /** A new settings object holds each label's default, and normalising it
      changes no label whose default is its own trim and not blank. */
  lemma InitialLabel(defaults: Defaults, k: DockLabel)
    ensures Initial(defaults).labels[Index(k)] == Some(DefaultLabel(defaults, k))
    ensures !IsBlank(DefaultLabel(defaults, k)) && Trim(DefaultLabel(defaults, k)) == DefaultLabel(defaults, k) ==>
      Normalized(Initial(defaults), defaults).labels[Index(k)] == Initial(defaults).labels[Index(k)]
  {
    PresentAt(DefaultLabels(defaults), Index(k));
    DefaultLabelsAt(defaults, k);
    NormalizedLabel(Initial(defaults), defaults, k);
    NormalizeLabelMeaning(Some(DefaultLabel(defaults, k)), DefaultLabel(defaults, k));
  }

  /** The settings object, whose properties `Normalize` reassigns in place.
      The six label properties are held in one list, in `Index` order. */
  class DisplaySettings {
    var enableFloatingMode: bool
    var enableEdgeDockMode: bool
    var monitorCpu: bool
    var monitorMemory: bool
    var monitorGpu: bool
    var monitorPower: bool
    var monitorNetwork: bool
    var dockLabels: Labels
    var dockColumnGap: int

    /** There is one entry per dock label. */
    predicate Valid()
      reads this
    {
      |dockLabels| == LabelCount
    }

    function Data(): SettingsData
      reads this
    {
      SettingsData(enableFloatingMode, enableEdgeDockMode,
        monitorCpu, monitorMemory, monitorGpu, monitorPower, monitorNetwork,
        dockLabels, dockColumnGap)
    }

    /** A new settings object holds the defaults. */
    constructor(defaults: Defaults)
      ensures Valid() && Data() == Initial(defaults)
    {
      enableFloatingMode := defaults.enableFloatingMode;
      enableEdgeDockMode := defaults.enableEdgeDockMode;
      monitorCpu, monitorMemory, monitorGpu, monitorPower, monitorNetwork := true, true, true, true, true;
      dockLabels := Present(DefaultLabels(defaults));
      dockColumnGap := defaults.columnGap;
    }

    /** `Normalize`, the configured defaults being a parameter. */
    method Normalize(defaults: Defaults)
      requires Valid()
      modifies this
      ensures Valid()
      ensures Data() == Normalized(old(Data()), defaults)
    {
      dockLabels := NormalizedLabels(dockLabels, defaults);
      dockColumnGap := ClampInt(dockColumnGap, MinColumnGap, MaxColumnGap);
    }
  }
}
