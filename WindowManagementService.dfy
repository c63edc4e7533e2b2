/** The desktop's window management: which of the floating window and the
    edge-dock window is shown, the launch-mode flag that overrides the
    configured priority, and the reading of the display settings from the
    service's configuration payload. Windows are modelled by whether they
    exist and are visible; the launch-mode flag manager is the injected
    `FlagManager`, and its I/O failures and clock are inputs. */
module WindowManagementService {
  import opened Common
  import opened Results
  import TS = TaskbarDisplaySettings
  import LM = DesktopLaunchModeFlagManager
  import Converters

  // ---------------------------------------------------------------------
  // Reading the configuration payload

  /** A configuration value; `None` is a JSON null. */
  type Values = map<string, Option<string>>

  /** `bool.TryParse`: "True" or "False" in any case, surrounding white
      space ignored. */
  function ParseBoolText(raw: string): Option<bool>
  {
    var t := Trim(raw);
    if EqualsIgnoreCase(t, "True") then Some(true)
    else if EqualsIgnoreCase(t, "False") then Some(false)
    else None
  }

  /** `ParseBool`: the parsed value, or the fallback when the key is
      missing or the value is null or not a boolean. */
  function ParseBool(values: Values, key: string, fallback: bool): bool
  {
    if key in values && values[key].Some? && ParseBoolText(values[key].value).Some?
    then ParseBoolText(values[key].value).value
    else fallback
  }

  /** `ParseInt`: the parsed value, or the fallback when the key is missing
      or the value is null or not a 32-bit integer. */
  function ParseInt(values: Values, key: string, fallback: int): int
  {
    if key in values && values[key].Some? && ParseInt32(values[key].value).Some?
    then ParseInt32(values[key].value).value
    else fallback
  }

  /** `ParseString`: the fallback for a missing key; a null value throws
      when it is trimmed; otherwise the trimmed value, or the fallback when
      that is blank. */
  function ParseString(values: Values, key: string, fallback: Option<string>): Access<Option<string>>
  {
    if key !in values then Returned(fallback)
    else if values[key].None? then Threw("Object reference not set to an instance of an object.")
    else
      var normalized := Trim(values[key].value);
      Returned(if IsBlank(normalized) then fallback else Some(normalized))
  }

  /** `bool.TryParse` reads "True" and "false". */
  lemma ParseBoolTextTrue()
    ensures ParseBoolText("True") == Some(true)
  {
    assert TrimStartIndex("True", 0) == 0;
    assert TrimEndIndex("True", 4) == 4;
    assert ToLower("True") == "true";
  }

  lemma ParseBoolTextFalse()
    ensures ParseBoolText("false") == Some(false)
  {
    assert TrimStartIndex("false", 0) == 0;
    assert TrimEndIndex("false", 5) == 5;
    assert ToLower("false") == "false";
  }

  /** A written boolean is read back, and a missing or null value gives
      the fallback. */
  lemma ParseBoolRoundTrip(values: Values, key: string, b: bool, fallback: bool)
    requires key in values && values[key] == Some(if b then "True" else "false")
    ensures ParseBool(values, key, fallback) == b
    ensures ParseBool(values[key := None], key, fallback) == fallback
    ensures ParseBool(values - {key}, key, fallback) == fallback
  {
    if b { ParseBoolTextTrue(); } else { ParseBoolTextFalse(); }
  }

  /** A written 32-bit integer is read back; a null or missing value gives
      the fallback. */
  lemma ParseIntRoundTrip(values: Values, key: string, n: int, fallback: int)
    requires InInt32(n)
    ensures ParseInt(values[key := Some(Converters.IntText(n))], key, fallback) == n
    ensures ParseInt(values[key := None], key, fallback) == fallback
  {
    Converters.ParseIntText(n);
  }

  /** Reading a present, non-null value is `NormalizeLabel` of it; so the
      result is the fallback or a trimmed non-blank text. */
  lemma ParseStringIsNormalizeLabel(values: Values, key: string, fallback: string)
    requires key in values && values[key].Some?
    ensures ParseString(values, key, Some(fallback)) == Returned(Some(TS.NormalizeLabel(values[key], fallback)))
  {
  }

  /** A missing key gives the fallback, a null value throws, and a value
      read back is its own trim or the fallback. */
  lemma ParseStringMeaning(values: Values, key: string, fallback: Option<string>)
    ensures key !in values ==> ParseString(values, key, fallback) == Returned(fallback)
    ensures key in values && values[key].None? ==> ParseString(values, key, fallback).Threw?
    ensures var r := ParseString(values, key, fallback);
      r.Returned? && r.v != fallback ==> r.v.Some? && !IsBlank(r.v.value) && Trim(r.v.value) == r.v.value
  {
    if key in values && values[key].Some? {
      TS.NormalizeLabelMeaning(values[key], "");
      var n := Trim(values[key].value);
      TS.TrimBlank(values[key].value);
      TrimIdempotent(values[key].value);
    }
  }

  /** The keys of the `Monitoring` category read into the settings. */
  const MonitoringCategory: string := "Monitoring"

  /** A dock label key, and the label it fills; `None` for a key read but
      not held by the settings model (the VRAM label). */
  datatype LabelKey = LabelKey(key: string, target: Option<TS.DockLabel>)

  /** The label keys in the order they are read. */
  const LabelKeys: seq<LabelKey> := [
    LabelKey("DockCpuLabel", Some(TS.CpuLabel)), LabelKey("DockMemoryLabel", Some(TS.MemoryLabel)),
    LabelKey("DockGpuLabel", Some(TS.GpuLabel)), LabelKey("DockVramLabel", None),
    LabelKey("DockPowerLabel", Some(TS.PowerLabel)), LabelKey("DockUploadLabel", Some(TS.UploadLabel)),
    LabelKey("DockDownloadLabel", Some(TS.DownloadLabel))]

  /** The labels after reading `keys` in order, and whether a read threw,
      which abandons the rest. */
  datatype LabelRead = LabelRead(labels: TS.Labels, threw: bool)

  function ReadLabels(values: Values, keys: seq<LabelKey>, labels: TS.Labels): (r: LabelRead)
    requires |labels| == TS.LabelCount
    ensures |r.labels| == TS.LabelCount
  {
    if keys == [] then LabelRead(labels, false)
    else
      var k := keys[0];
      var current := if k.target.Some? then labels[TS.Index(k.target.value)] else None;
      match ParseString(values, k.key, current)
      case Threw(_) => LabelRead(labels, true)
      case Returned(v) =>
        ReadLabels(values, keys[1..], if k.target.Some? then labels[TS.Index(k.target.value) := v] else labels)
  }

  /** A key whose value is null stops the reading there: every label
      whose key comes later keeps its value. */
  lemma {:induction false} NullLabelStopsReading(values: Values, keys: seq<LabelKey>, labels: TS.Labels, j: nat, i: nat)
    requires |labels| == TS.LabelCount
    requires j < |keys| && keys[j].key in values && values[keys[j].key].None?
    requires i < TS.LabelCount && forall m :: j <= m < |keys| && keys[m].target.Some? ==> TS.Index(keys[m].target.value) != i
    requires forall m :: 0 <= m < j ==> keys[m].key != keys[j].key || keys[m].target.None?
    ensures ReadLabels(values, keys, labels).threw
    ensures ReadLabels(values, keys, labels).labels[i] == labels[i] || exists m :: 0 <= m < j && keys[m].target.Some? && TS.Index(keys[m].target.value) == i
    decreases j
  {
    var k := keys[0];
    var current := if k.target.Some? then labels[TS.Index(k.target.value)] else None;
    if j > 0 {
      match ParseString(values, k.key, current)
      case Threw(_) =>
      case Returned(v) =>
        var next := if k.target.Some? then labels[TS.Index(k.target.value) := v] else labels;
        NullLabelStopsReading(values, keys[1..], next, j - 1, i);
        assert keys[1..][j - 1] == keys[j];
        if exists m :: 0 <= m < j - 1 && keys[1..][m].target.Some? && TS.Index(keys[1..][m].target.value) == i {
          var m :| 0 <= m < j - 1 && keys[1..][m].target.Some? && TS.Index(keys[1..][m].target.value) == i;
          assert keys[m + 1] == keys[1..][m];
        }
    }
  }

  /** What the service answered for the settings request. */
  datatype Response =
    | RequestFailed                                          // the request or the JSON reading threw
    | NotSuccess                                             // a non-success status code
    | Payload(body: Option<map<string, Values>>)             // a (possibly null) JSON object

  /** The `Monitoring` values read into a fresh settings object: the
      switches first, then the labels in order, then the gap. A null label
      value throws, and the rest is not read. */
  function ReadMonitoring(values: Values, s: TS.SettingsData): (r: TS.SettingsData)
    requires |s.labels| == TS.LabelCount
    ensures |r.labels| == TS.LabelCount
  {
    var switched := s.(
      monitorCpu := ParseBool(values, "MonitorCpu", s.monitorCpu),
      monitorMemory := ParseBool(values, "MonitorMemory", s.monitorMemory),
      monitorGpu := ParseBool(values, "MonitorGpu", s.monitorGpu),
      monitorPower := ParseBool(values, "MonitorPower", s.monitorPower),
      monitorNetwork := ParseBool(values, "MonitorNetwork", s.monitorNetwork),
      enableFloatingMode := ParseBool(values, "EnableFloatingMode", s.enableFloatingMode),
      enableEdgeDockMode := ParseBool(values, "EnableEdgeDockMode", s.enableEdgeDockMode));
    var read := ReadLabels(values, LabelKeys, switched.labels);
    if read.threw then switched.(labels := read.labels)
    else switched.(labels := read.labels, dockColumnGap := ParseInt(values, "DockColumnGap", switched.dockColumnGap))
  }

  /** `LoadDisplaySettingsAsync`: the defaults, overwritten by whatever the
      `Monitoring` category of a successful answer holds, then normalised;
      any failure leaves the defaults. */
  function LoadDisplaySettings(defaults: TS.Defaults, response: Response): (r: TS.SettingsData)
    ensures |r.labels| == TS.LabelCount
  {
    var initial := TS.Initial(defaults);
    var read :=
      if response.Payload? && response.body.Some? && MonitoringCategory in response.body.value
      then ReadMonitoring(response.body.value[MonitoringCategory], initial)
      else initial;
    TS.Normalized(read, defaults)
  }

  /** A failed request, a failure status, a null body or a body without
      the `Monitoring` category all give the normalised defaults. */
  lemma LoadFallsBackToDefaults(defaults: TS.Defaults, response: Response)
    requires !response.Payload? || response.body.None? || MonitoringCategory !in response.body.value
    ensures LoadDisplaySettings(defaults, response) == TS.Normalized(TS.Initial(defaults), defaults)
  {
  }

  /** Reading the `Monitoring` values sets each display mode from its
      key. */
  lemma ReadMonitoringModes(values: Values, s: TS.SettingsData)
    requires |s.labels| == TS.LabelCount
    ensures ReadMonitoring(values, s).enableFloatingMode == ParseBool(values, "EnableFloatingMode", s.enableFloatingMode)
    ensures ReadMonitoring(values, s).enableEdgeDockMode == ParseBool(values, "EnableEdgeDockMode", s.enableEdgeDockMode)
  {
  }

  /** The display modes a payload states are the ones loaded. */
  lemma LoadReadsModes(defaults: TS.Defaults, values: Values, floating: bool, edgeDock: bool)
    requires "EnableFloatingMode" in values && values["EnableFloatingMode"] == Some(if floating then "True" else "false")
    requires "EnableEdgeDockMode" in values && values["EnableEdgeDockMode"] == Some(if edgeDock then "True" else "false")
    ensures var r := LoadDisplaySettings(defaults, Payload(Some(map[MonitoringCategory := values])));
      r.enableFloatingMode == floating && r.enableEdgeDockMode == edgeDock
  {
    var initial := TS.Initial(defaults);
    ReadMonitoringModes(values, initial);
    ParseBoolRoundTrip(values, "EnableFloatingMode", floating, defaults.enableFloatingMode);
    ParseBoolRoundTrip(values, "EnableEdgeDockMode", edgeDock, defaults.enableEdgeDockMode);
    TS.NormalizedGapAndSwitches(ReadMonitoring(values, initial), defaults);
  }

  // ---------------------------------------------------------------------
  // Display modes and the launch flag

  /** A window: not created (or closed), or open and shown or hidden. */
  datatype Window = Absent | Open(visible: bool)
  {
    predicate Shown() { Open? && visible }
  }

  /** A window told to show or hide; an absent window stays absent. */
  function ShowIf(w: Window, show: bool): (r: Window)
    ensures r.Absent? <==> w.Absent?
    ensures r.Open? ==> r.visible == show
  {
    if w.Absent? then Absent else Open(show)
  }

  /** The failures and the clock the flag file calls see. */
  datatype FlagIo = FlagIo(now: int, writeFails: bool, deleteFails: bool, readFails: bool)

  /** The mode `PersistLaunchModeFlagWhenSingleModeSelected` persists: the
      one mode enabled alone, if any. */
  function SingleMode(s: TS.SettingsData): Option<LM.LaunchMode>
  {
    if s.enableEdgeDockMode && !s.enableFloatingMode then Some(LM.MiniEdgeDock)
    else if s.enableFloatingMode && !s.enableEdgeDockMode then Some(LM.FloatingWindow)
    else None
  }

  function Persisted(files: LM.FlagFiles, s: TS.SettingsData, io: FlagIo): LM.FlagFiles
  {
    if SingleMode(s).Some? then LM.AfterSet(files, SingleMode(s).value, io.now, io.writeFails, io.deleteFails)
    else files
  }

  /** `ApplyLaunchModeFlagOverride`: a floating-window flag disables edge
      dock, provided floating mode is enabled. */
  function Overridden(s: TS.SettingsData, flag: Option<LM.LaunchMode>): TS.SettingsData
  {
    if flag == Some(LM.FloatingWindow) && s.enableFloatingMode then s.(enableEdgeDockMode := false) else s
  }

  /** The override changes nothing but edge dock, turns it only off, and
      does so exactly when the flag is the floating window and floating
      mode is on. */
  lemma OverrideMeaning(s: TS.SettingsData, flag: Option<LM.LaunchMode>)
    ensures Overridden(s, flag).(enableEdgeDockMode := s.enableEdgeDockMode) == s
    ensures Overridden(s, flag).enableEdgeDockMode
      <==> s.enableEdgeDockMode && !(flag == Some(LM.FloatingWindow) && s.enableFloatingMode)
  {
  }

  /** Once one mode alone has been persisted, the override that follows it
      changes nothing: the flag read back is that mode. */
  lemma PersistThenOverrideKeepsSelection(files: LM.FlagFiles, s: TS.SettingsData, io: FlagIo)
    requires SingleMode(s).Some? && !io.writeFails && !io.deleteFails
    ensures Overridden(s, LM.ReadMode(Persisted(files, s, io), io.readFails)) == s
  {
    LM.SetThenGet(files, SingleMode(s).value, io.now, io.readFails);
  }

  /** With both modes enabled the flag is left alone, and a floating-window
      flag then hands the screen to the floating window. */
  lemma BothModesFollowFlag(files: LM.FlagFiles, s: TS.SettingsData, io: FlagIo)
    requires s.enableEdgeDockMode && s.enableFloatingMode
    ensures Persisted(files, s, io) == files
    ensures LM.ReadMode(files, io.readFails) == Some(LM.FloatingWindow) ==>
      !Overridden(s, LM.ReadMode(files, io.readFails)).enableEdgeDockMode
  {
  }

  /** The settings the windows start with: the normalised defaults, after
      the flag override, normalised again. */
  function Startup(defaults: TS.Defaults, flag: Option<LM.LaunchMode>): TS.SettingsData
  {
    TS.Normalized(Overridden(TS.Normalized(TS.Initial(defaults), defaults), flag), defaults)
  }

  /** The window-management service. */
  class WindowManager {
    var floatingWindow: Window
    var edgeDockWindow: Window
    var displaySettings: TS.SettingsData
    const flags: LM.FlagManager

    predicate Valid()
      reads this
    {
      |displaySettings.labels| == TS.LabelCount
    }

    constructor(flags: LM.FlagManager, defaults: TS.Defaults)
      ensures Valid() && this.flags == flags
      ensures floatingWindow == Absent && edgeDockWindow == Absent
      ensures displaySettings == TS.Initial(defaults)
    {
      this.flags := flags;
      floatingWindow := Absent;
      edgeDockWindow := Absent;
      displaySettings := TS.Initial(defaults);
    }

    /** `ApplyDisplayModes`: normalises the settings, shows the edge-dock
        window iff edge dock is enabled and the floating window iff
        floating is enabled and edge dock is not; the two are never both
        shown. */
    method ApplyDisplayModes(defaults: TS.Defaults)
      requires Valid()
      modifies this
      ensures Valid()
      ensures displaySettings == TS.Normalized(old(displaySettings), defaults)
      ensures edgeDockWindow == ShowIf(old(edgeDockWindow), displaySettings.enableEdgeDockMode)
      ensures floatingWindow == ShowIf(old(floatingWindow), displaySettings.enableFloatingMode && !displaySettings.enableEdgeDockMode)
      ensures !(edgeDockWindow.Shown() && floatingWindow.Shown())
    {
      displaySettings := TS.Normalized(displaySettings, defaults);
      var showEdgeDock := displaySettings.enableEdgeDockMode;
      var showFloating := displaySettings.enableFloatingMode && !showEdgeDock;
      if edgeDockWindow.Open? {
        if showEdgeDock {
          if !edgeDockWindow.visible {
            edgeDockWindow := Open(true);
          }
        } else {
          edgeDockWindow := Open(false);
        }
      }
      if floatingWindow.Open? {
        if showFloating {
          if !floatingWindow.visible {
            floatingWindow := Open(true);
          }
        } else {
          floatingWindow := Open(false);
        }
      }
    }

    /** `PersistLaunchModeFlagWhenSingleModeSelected`. */
    method PersistLaunchModeFlagWhenSingleModeSelected(io: FlagIo)
      modifies flags
      ensures flags.files == Persisted(old(flags.files), displaySettings, io)
    {
      if displaySettings.enableEdgeDockMode && !displaySettings.enableFloatingMode {
        flags.SetLaunchMode(LM.MiniEdgeDock, io.now, io.writeFails, io.deleteFails);
        return;
      }
      if displaySettings.enableFloatingMode && !displaySettings.enableEdgeDockMode {
        flags.SetLaunchMode(LM.FloatingWindow, io.now, io.writeFails, io.deleteFails);
      }
    }

    /** `ApplyLaunchModeFlagOverride`. */
    method ApplyLaunchModeFlagOverride(readFails: bool)
      requires Valid()
      modifies this
      ensures Valid()
      ensures displaySettings == Overridden(old(displaySettings), LM.ReadMode(flags.files, readFails))
      ensures floatingWindow == old(floatingWindow) && edgeDockWindow == old(edgeDockWindow)
    {
      var flag := flags.TryGetLaunchMode(readFails);
      if flag != Some(LM.FloatingWindow) {
        return;
      }
      if displaySettings.enableFloatingMode {
        displaySettings := displaySettings.(enableEdgeDockMode := false);
      }
    }

    /** `ActivateEdgeDockMode`: edge dock on, floating off, the mini edge
        dock flag written, and the edge-dock window shown. */
    method ActivateEdgeDockMode(defaults: TS.Defaults, io: FlagIo)
      requires Valid()
      modifies this, flags
      ensures Valid()
      ensures displaySettings.enableEdgeDockMode && !displaySettings.enableFloatingMode
      ensures displaySettings == TS.Normalized(
        TS.Normalized(old(displaySettings).(enableEdgeDockMode := true, enableFloatingMode := false), defaults), defaults)
      ensures flags.files == LM.AfterSet(old(flags.files), LM.MiniEdgeDock, io.now, io.writeFails, io.deleteFails)
      ensures edgeDockWindow == ShowIf(old(edgeDockWindow), true)
      ensures floatingWindow == ShowIf(old(floatingWindow), false)
    {
      displaySettings := displaySettings.(enableEdgeDockMode := true, enableFloatingMode := false);
      displaySettings := TS.Normalized(displaySettings, defaults);
      flags.SetLaunchMode(LM.MiniEdgeDock, io.now, io.writeFails, io.deleteFails);
      ApplyDisplayModes(defaults);
    }

    /** `ShowMainWindow`: shows the floating window, if there is one. */
    method ShowMainWindow()
      modifies this
      ensures floatingWindow == ShowIf(old(floatingWindow), true)
      ensures edgeDockWindow == old(edgeDockWindow) && displaySettings == old(displaySettings)
    {
      if floatingWindow.Absent? {
        return;
      }
      floatingWindow := Open(true);
    }

    /** `HideMainWindow`: hides the floating window, if there is one. */
    method HideMainWindow()
      modifies this
      ensures floatingWindow == ShowIf(old(floatingWindow), false)
      ensures edgeDockWindow == old(edgeDockWindow) && displaySettings == old(displaySettings)
    {
      if floatingWindow.Open? {
        floatingWindow := Open(false);
      }
    }

    /** `CloseMainWindow`: closes both windows. */
    method CloseMainWindow()
      modifies this
      ensures floatingWindow == Absent && edgeDockWindow == Absent
      ensures displaySettings == old(displaySettings)
    {
      if floatingWindow.Absent? {
        CloseEdgeDockWindow();
        return;
      }
      floatingWindow := Absent;
      CloseEdgeDockWindow();
    }

    /** `CloseEdgeDockWindow`. */
    method CloseEdgeDockWindow()
      modifies this
      ensures edgeDockWindow == Absent
      ensures floatingWindow == old(floatingWindow) && displaySettings == old(displaySettings)
    {
      if edgeDockWindow.Absent? {
        return;
      }
      edgeDockWindow := Absent;
    }

    /** `ToggleMainWindow`: in edge-dock mode it flips the edge-dock
        window, else in floating mode the floating window; otherwise, or
        when that window does not exist, nothing changes. */
    method ToggleMainWindow()
      modifies this
      ensures displaySettings == old(displaySettings)
      ensures displaySettings.enableEdgeDockMode && old(edgeDockWindow).Open? ==>
        edgeDockWindow == Open(!old(edgeDockWindow).visible) && floatingWindow == old(floatingWindow)
      ensures (!(displaySettings.enableEdgeDockMode && old(edgeDockWindow).Open?) && displaySettings.enableFloatingMode
        && old(floatingWindow).Open?) ==>
        floatingWindow == Open(!old(floatingWindow).visible) && edgeDockWindow == old(edgeDockWindow)
      ensures (!(displaySettings.enableEdgeDockMode && old(edgeDockWindow).Open?)
        && !(displaySettings.enableFloatingMode && old(floatingWindow).Open?)) ==>
        floatingWindow == old(floatingWindow) && edgeDockWindow == old(edgeDockWindow)
    {
      if displaySettings.enableEdgeDockMode && edgeDockWindow.Open? {
        if edgeDockWindow.visible {
          edgeDockWindow := Open(false);
        } else {
          edgeDockWindow := Open(true);
        }
        return;
      }
      if displaySettings.enableFloatingMode && floatingWindow.Open? {
        if floatingWindow.visible {
          HideMainWindow();
        } else {
          ShowMainWindow();
        }
      }
    }

    /** `InitializeMainWindow`: a no-op once either window exists;
        otherwise it opens both windows. */
    method InitializeMainWindow(defaults: TS.Defaults, readFails: bool)
      requires Valid()
      modifies this
      ensures Valid()
      ensures old(floatingWindow).Open? || old(edgeDockWindow).Open? ==>
        floatingWindow == old(floatingWindow) && edgeDockWindow == old(edgeDockWindow) && displaySettings == old(displaySettings)
      ensures old(floatingWindow).Absent? && old(edgeDockWindow).Absent? ==>
        && displaySettings == Startup(defaults, LM.ReadMode(flags.files, readFails))
        && edgeDockWindow == ShowIf(Open(false), displaySettings.enableEdgeDockMode)
        && floatingWindow == ShowIf(Open(false), displaySettings.enableFloatingMode && !displaySettings.enableEdgeDockMode)
    {
      if floatingWindow.Open? || edgeDockWindow.Open? {
        return;
      }
      OpenWindows(defaults, readFails);
    }

    /** The first start: both windows are created hidden, the settings
        start from the normalised defaults, the flag override and then the
        display modes are applied. */
    method OpenWindows(defaults: TS.Defaults, readFails: bool)
      modifies this
      ensures Valid()
      ensures displaySettings == Startup(defaults, LM.ReadMode(flags.files, readFails))
      ensures edgeDockWindow == ShowIf(Open(false), displaySettings.enableEdgeDockMode)
      ensures floatingWindow == ShowIf(Open(false), displaySettings.enableFloatingMode && !displaySettings.enableEdgeDockMode)
    {
      floatingWindow := Open(false);
      edgeDockWindow := Open(false);
      displaySettings := TS.Normalized(TS.Initial(defaults), defaults);
      ApplyLaunchModeFlagOverride(readFails);
      assert floatingWindow == Open(false) && edgeDockWindow == Open(false);
      ApplyDisplayModes(defaults);
    }

    /** `RefreshDisplayModesAsync`: loads the settings, persists a single
        selected mode, applies the flag override and the display modes. */
    method RefreshDisplayModes(defaults: TS.Defaults, response: Response, io: FlagIo)
      requires Valid()
      modifies this, flags
      ensures Valid()
      ensures flags.files == Persisted(old(flags.files), LoadDisplaySettings(defaults, response), io)
      ensures displaySettings == TS.Normalized(
        Overridden(LoadDisplaySettings(defaults, response), LM.ReadMode(flags.files, io.readFails)), defaults)
      ensures edgeDockWindow == ShowIf(old(edgeDockWindow), displaySettings.enableEdgeDockMode)
      ensures floatingWindow == ShowIf(old(floatingWindow), displaySettings.enableFloatingMode && !displaySettings.enableEdgeDockMode)
    {
      displaySettings := LoadDisplaySettings(defaults, response);
      PersistLaunchModeFlagWhenSingleModeSelected(io);
      ApplyLaunchModeFlagOverride(io.readFails);
      ApplyDisplayModes(defaults);
    }
  }
}
