# XhMonitor core, modelled in Dafny

XhMonitor is a Windows resource monitor: a C# service that samples CPU, GPU,
memory, VRAM, disk, network and power figures and stores them in SQLite; a WPF
desktop client with a floating panel and a taskbar strip; and a React web front
end served to the LAN. Most of the repository is plumbing (P/Invoke,
LibreHardwareMonitor, EF Core, SignalR, Kestrel, WPF and React rendering). This
project models the deterministic logic under that plumbing, with sensors,
clocks, the file system and the network turned into parameters or state, and
proves what that logic promises.

All files lie directly in this directory. Most modules model one source file
and take its name; `Converters` gathers the desktop value converters, and the
helper modules (`Common`, `Numbers`, `ByteMasks`, `Utf8`, `WindowGeometry`)
hold definitions several modules share:

- **Web access control** (`IpWhitelist`, `ByteMasks`, `WebServer`, `Utf8`):
  whitelist parsing and CIDR matching with byte masks (section 3.1 of RFC 4632,
  section 2.3 of RFC 4291), IPv4-mapped address normalisation (section 2.5.5.2
  of RFC 4291), access-key extraction (sections 2.1 and 2.3 of RFC 6750), the
  allow/403/401/503 middleware decision and the security snapshot cache.
- **Service logic** (`ConfigurationValidator`, `MetricProviderRegistry`,
  `ProcessMetadataStore`, `ProcessScanner`, `ProcessNameResolver`,
  `AggregationWorker`): configuration validation, the provider registry's
  lifecycle, change detection of process metadata, keyword merging and
  filtering, display-name rules, and the raw → minute → hour → day roll-up.
- **Power and sensors** (`RyzenAdjCli`, `RyzenAdjPowerProvider`,
  `SystemMetricProvider`, `LibreHardwareMonitorCpuProvider`,
  `LibreHardwareMonitorGpuProvider`, `WmiGpuVendorDetector`, `DeviceSchemes`,
  `Vram`, `Results`): the `ryzenadj -i` table parser, the power
  provider's polling and scheme-switching state machine, throughput and
  capacity rules, load selection, vendor detection and the result type.
- **Desktop client** (`FloatingWindowViewModel`, `TaskbarMetricsViewModel`,
  `TaskbarDisplaySettings`, `WindowManagementService`,
  `DesktopLaunchModeFlagManager`, `FloatingWindow`, `TaskbarMetricsWindow`,
  `WindowGeometry`, `CompactUnitFormatter`, `Converters`,
  `ObservableCollectionExtensions`): the panel state machine and list
  reconciliation, taskbar text transforms, settings normalisation and mode
  exclusivity, the launch-mode flag files, dock-side selection and clamping,
  drag and kill-button flags, unit formatting and the value converters.
- **Web front end** (`PeakValley`, `DynamicScaler`, `TimeSeries`,
  `LayoutState`, `Sortable`, `DraggableGrid`, `ProcessList`, `AdaptiveScroll`,
  `FloatingWidget`, `WebUtils`): peak/valley markers, the chart's Y-axis
  scaler, fixed-length series, layout normalise/merge/parse/persist, card
  drag-and-drop ordering, the process table, adaptive scrolling, the desktop
  widget page and the summary and unit helpers.
- `Common` and `Numbers` hold shared string, sequence and arithmetic helpers.

Numbers the source keeps as `double` are `real`s; where the source tests for
NaN or infinity they are a `Double` datatype with those cases. Classes model
the objects whose fields the source updates in place, and their methods are
proved against specification functions whose properties are lemmas.

## Model

| member | source | states |
|---|---|---|
| `Results.Result.Value` | XhMonitor.Core/Common/Result.cs:34-36 | reading the value returns exactly when the result is a success, and throws otherwise |
| `Results.Result.Error` | XhMonitor.Core/Common/Result.cs:41-43 | reading the error returns exactly when the result is a failure, and throws otherwise |
| `Results.FromValue` | XhMonitor.Core/Common/Result.cs:55 | converting a value gives a success whose value is that value |
| `Results.FromError` | XhMonitor.Core/Common/Result.cs:57 | converting an error gives a failure whose error is that error |
| `Results.SuccessAccessors` | XhMonitor.Core/Common/Result.cs:48 | a success is not a failure, yields its value and throws on reading the error |
| `Results.FailureAccessors` | XhMonitor.Core/Common/Result.cs:53 | a failure is not a success, yields its error and throws on reading the value |
| `Results.AccessorsRebuild` | XhMonitor.Core/Common/Result.cs:24-57 | IsFailure is the negation of IsSuccess, exactly one accessor returns, and converting what it returns rebuilds the result |
| `Vram.VramMetrics.UsagePercent` | XhMonitor.Core/Models/VramMetrics.cs:21 | with a positive total the usage times the total is 100 times the used amount; without a total it is 0 |
| `Vram.Empty` | XhMonitor.Core/Models/VramMetrics.cs:36 | the empty metrics have nothing used and no total |
| `Vram.EmptyIsInvalid` | XhMonitor.Core/Models/VramMetrics.cs:21-36 | the empty metrics are not valid and report 0 % |
| `Vram.UsagePercentBounded` | XhMonitor.Core/Models/VramMetrics.cs:21 | usage is a percentage between 0 and 100 whenever the used amount lies within a positive total |
| `Vram.FullUsage` | XhMonitor.Core/Models/VramMetrics.cs:21 | usage is exactly 100 iff all of the total is used |
| `DeviceSchemes.MatchesIff` | XhMonitor.Core/Models/DeviceSchemeMapping.cs:21-34 | a device matches iff its platform equals the condition's ignoring case and it is MAC-authorised or authorisation is not required |
| `DeviceSchemes.AuthorizationIrrelevant` | XhMonitor.Core/Models/DeviceSchemeMapping.cs:28-31 | without the authorisation requirement the device's authorisation flag does not change the answer |
| `DeviceSchemes.PlatformCaseIgnored` | XhMonitor.Core/Models/DeviceSchemeMapping.cs:23 | upper-casing the device's platform does not change the answer |
| `Converters.MetricValueBands` | XhMonitor.Desktop/Converters/MetricValueColorConverter.cs:26-34 | a finite value is green below 50, yellow in [50, 80) and red from 80; a non-double is green and NaN is red |
| `Converters.ClassifyMonotone` | XhMonitor.Desktop/Converters/MetricValueColorConverter.cs:31-33 | a larger value never gets a lower band |
| `Converters.MemoryPercentageBands` | XhMonitor.Desktop/Converters/MemoryPercentageColorConverter.cs:34-38 | with a positive maximum the band follows current/max·100 with the same 50/80 thresholds |
| `Converters.MemoryPercentageGuards` | XhMonitor.Desktop/Converters/MemoryPercentageColorConverter.cs:28-32 | fewer than two values, a non-double or a non-positive maximum give green |
| `Converters.Fill` | XhMonitor.Desktop/Converters/ProgressWidthConverter.cs:16-17 | the filled share (value over the maximum, 100 when the maximum is not positive) is clamped into [0, 1] |
| `Converters.ProgressWidthBounded` | XhMonitor.Desktop/Converters/ProgressWidthConverter.cs:8-19 | with finite inputs and a non-negative width the bar is the filled share of the width and so lies within [0, width] |
| `Converters.ProgressWidthGuards` | XhMonitor.Desktop/Converters/ProgressWidthConverter.cs:10-14 | fewer than three values or a non-double give width 0 |
| `Converters.MiddleEllipsisShape` | XhMonitor.Desktop/Converters/MiddleEllipsisConverter.cs:18-30 | a text within the maximum is returned unchanged; a longer one becomes exactly maximum characters: its first ⌊(max-3)/2⌋ characters, "..." and its last remaining ones |
| `Converters.MiddleEllipsisDefault` | XhMonitor.Desktop/Converters/MiddleEllipsisConverter.cs:18 | with no parameter the maximum is 18: 7 leading characters, "..." and 8 trailing |
| `Converters.MiddleEllipsisPassThrough` | XhMonitor.Desktop/Converters/MiddleEllipsisConverter.cs:15-16 | null becomes the empty string, the empty string and non-strings pass through unchanged |
| `Converters.MiddleEllipsisSmallMaxThrows` | XhMonitor.Desktop/Converters/MiddleEllipsisConverter.cs:26-30 | a maximum below 3 makes Substring throw on a longer text |
| `Converters.ParseIntText` | XhMonitor.Desktop/Converters/MiddleEllipsisConverter.cs:19-20 | the parameter parser reads back the decimal text of every 32-bit integer |
| `CompactUnitFormatter.PlaceholderIff` | XhMonitor.Desktop/Services/CompactUnitFormatter.cs:7-76 | memory, speed and percent give "--" exactly for NaN, infinities and negatives; power also for 0 |
| `CompactUnitFormatter.MemoryUnits` | XhMonitor.Desktop/Services/CompactUnitFormatter.cs:7-33 | the memory unit is K below 1 MB, M below 1024 MB, G below 1024² MB and T above, and the number shown is the value converted into that unit |
| `CompactUnitFormatter.SpeedUnits` | XhMonitor.Desktop/Services/CompactUnitFormatter.cs:35-55 | the speed unit is K/s below 1, M/s below 1024 and G/s from there on (no T/s), and the number shown is the value in that unit |
| `CompactUnitFormatter.PercentBounded` | XhMonitor.Desktop/Services/CompactUnitFormatter.cs:57-66 | a shown percentage is a whole number in [0, 100] within one half of the clamped value |
| `CompactUnitFormatter.NumberStyle` | XhMonitor.Desktop/Services/CompactUnitFormatter.cs:78-92 | numbers from 100 up are shown whole; below 100 the value itself is shown with at most one decimal |
| `DesktopLaunchModeFlagManager.DecideMeaning` | XhMonitor.Desktop/Services/DesktopLaunchModeFlagManager.cs:28-50 | there is a mode iff some flag exists; it is the mini edge dock iff that flag exists and is at least as new as any floating flag, and the floating window iff that flag exists and is strictly newer |
| `DesktopLaunchModeFlagManager.AfterSetMeaning` | XhMonitor.Desktop/Services/DesktopLaunchModeFlagManager.cs:59-94 | after a successful write the mode's flag carries the write time and the other flag is gone unless its delete failed; a failed write changes nothing |
| `DesktopLaunchModeFlagManager.SetThenGet` | XhMonitor.Desktop/Services/DesktopLaunchModeFlagManager.cs:24-79 | round trip: after a successful SetLaunchMode(m) the manager reads back m, whatever the flags were before |
| `DesktopLaunchModeFlagManager.SetThenGetAfterFailedDelete` | XhMonitor.Desktop/Services/DesktopLaunchModeFlagManager.cs:81-94 | a swallowed delete failure still reads back m, provided the clock has moved past the surviving flag's write time |
| `DesktopLaunchModeFlagManager.TieAfterFailedDeleteReadsMiniEdgeDock` | XhMonitor.Desktop/Services/DesktopLaunchModeFlagManager.cs:48-50 | when a surviving mini edge dock flag has the same write time as the new floating flag, the tie reads back the mini edge dock |
| `DesktopLaunchModeFlagManager.FlagManager.constructor` | XhMonitor.Desktop/Services/DesktopLaunchModeFlagManager.cs:14-22 | a manager starts over the flag files as they are on disk |
| `DesktopLaunchModeFlagManager.FlagManager.TryGetLaunchMode` | XhMonitor.Desktop/Services/DesktopLaunchModeFlagManager.cs:24-57 | returns the mode the flags select, or null when reading the write times throws |
| `DesktopLaunchModeFlagManager.FlagManager.SetLaunchMode` | XhMonitor.Desktop/Services/DesktopLaunchModeFlagManager.cs:59-79 | the flag files become those after writing the mode's flag and deleting the other one, each failure swallowed |
| `DesktopLaunchModeFlagManager.NewestFlagWins` | XhMonitor.Desktop.Tests/DesktopLaunchModeFlagManagerTests.cs:62-76 | a floating flag written a minute after the mini edge dock flag selects the floating window |
| `TaskbarDisplaySettings.NormalizeLabelMeaning` | XhMonitor.Desktop/Models/TaskbarDisplaySettings.cs:36-40 | a normalised label is the trimmed value when the value is not null or blank, else the fallback; so it is the fallback or a non-blank text equal to its own trim |
| `TaskbarDisplaySettings.NormalizeLabelIdempotent` | XhMonitor.Desktop/Models/TaskbarDisplaySettings.cs:36-40 | normalising a normalised label again changes nothing when the fallback is its own trim or blank |
| `TaskbarDisplaySettings.TrimBlank` | XhMonitor.Desktop/Models/TaskbarDisplaySettings.cs:38-39 | a text is blank iff its trim is blank |
| `TaskbarDisplaySettings.NormalizeAllAt` | XhMonitor.Desktop/Models/TaskbarDisplaySettings.cs:27-32 | normalising the label list normalises every label against the default at its own position and nothing else |
| `TaskbarDisplaySettings.NormalizeAllIdempotent` | XhMonitor.Desktop/Models/TaskbarDisplaySettings.cs:27-32 | a second pass over the label list changes nothing when every default is stable |
| `TaskbarDisplaySettings.NormalizedLabel` | XhMonitor.Desktop/Models/TaskbarDisplaySettings.cs:27-32 | after Normalize there are still six labels and each is its value normalised against its own configured default |
| `TaskbarDisplaySettings.NormalizedGapAndSwitches` | XhMonitor.Desktop/Models/TaskbarDisplaySettings.cs:33 | Normalize clamps the column gap into [0, 24], keeps a gap already in range, and leaves the display modes and monitor switches untouched |
| `TaskbarDisplaySettings.NormalizeIdempotent` | XhMonitor.Desktop/Models/TaskbarDisplaySettings.cs:25-34 | Normalize is idempotent when every default label is stable |
| `TaskbarDisplaySettings.InitialLabel` | XhMonitor.Desktop/Models/TaskbarDisplaySettings.cs:16-21 | a new settings object holds each label's default, and normalising it keeps every default that is non-blank and trimmed |
| `TaskbarDisplaySettings.DisplaySettings.constructor` | XhMonitor.Desktop/Models/TaskbarDisplaySettings.cs:7-23 | a new settings object holds the configured defaults with every monitor switch on |
| `TaskbarDisplaySettings.DisplaySettings.Normalize` | XhMonitor.Desktop/Models/TaskbarDisplaySettings.cs:25-34 | the properties are reassigned in place to their normalised values (labels per position, gap clamped), and nothing else changes |
| `ObservableCollectionExtensions.AddRange` | XhMonitor.Desktop/Extensions/ObservableCollectionExtensions.cs:9-22 | throws on a null collection or source without changing anything; otherwise appends the source's snapshot, taken before the first add, in order with one add notification per item at consecutive indices |
| `ObservableCollectionExtensions.ReplaceAll` | XhMonitor.Desktop/Extensions/ObservableCollectionExtensions.cs:24-31 | the null checks come before any change; then the collection holds exactly the source as read after the clear, with one reset followed by one add per item |
| `ObservableCollectionExtensions.AddRangeOfItselfDoubles` | XhMonitor.Desktop/Extensions/ObservableCollectionExtensions.cs:14-21 | adding a live view of the collection to itself doubles it, because the snapshot is taken first |
| `ObservableCollectionExtensions.ReplaceAllWithItselfEmpties` | XhMonitor.Desktop/Extensions/ObservableCollectionExtensions.cs:29-30 | replacing a collection's items by a live view of itself empties it, raising only the reset |
| `ObservableCollectionExtensions.ReplaceAllIsExact` | XhMonitor.Desktop/Extensions/ObservableCollectionExtensions.cs:24-31 | replacing by a list of values leaves exactly those values and raises one reset and one add per value |
| `ObservableCollectionExtensions.ObservableCollection.Add` | XhMonitor.Desktop/Extensions/ObservableCollectionExtensions.cs:20 | an add appends the item and raises an add notification at the new last index |
| `ObservableCollectionExtensions.ObservableCollection.Clear` | XhMonitor.Desktop/Extensions/ObservableCollectionExtensions.cs:29 | a clear empties the collection and raises a reset, even when already empty |
| `WebServer.MapToIPv4` | XhMonitor.Desktop/Services/WebServerService.cs:375-378 | the embedded address of an IPv4-mapped IPv6 address is a 4-byte IPv4 address |
| `WebServer.NormalizeClientIp` | XhMonitor.Desktop/Services/WebServerService.cs:368-381 | no address stays none; the result is either the input itself or not mapped any more |
| `WebServer.NormalizeMappedForm` | XhMonitor.Desktop/Services/WebServerService.cs:375-378 | the mapped form ::ffff:a.b.c.d of an IPv4 address (section 2.5.5.2 of RFC 4291) normalises back to a.b.c.d |
| `WebServer.NormalizeIdempotent` | XhMonitor.Desktop/Services/WebServerService.cs:368-381 | normalising twice gives what normalising once gave |
| `WebServer.GetLocalInterfaceAddresses` | XhMonitor.Desktop/Services/WebServerService.cs:418-456 | the set holds the unmapped unicast addresses of every interface that is up, plus both loopback addresses |
| `WebServer.AddressSetMembers` | XhMonitor.Desktop/Services/WebServerService.cs:431-445 | an address is collected iff some present unicast entry unmaps to it |
| `WebServer.LoopbackIsLocal` | XhMonitor.Desktop/Services/WebServerService.cs:458-471 | a loopback address, also in mapped form, is local whatever the interface list |
| `WebServer.ExpectedAccessKeyBytes` | XhMonitor.Desktop/Services/WebServerService.cs:147-149 | expected key bytes exist iff the key is enabled and not blank, and are then non-empty |
| `WebServer.AccessKeyValidIffEqual` | XhMonitor.Desktop/Services/WebServerService.cs:383-393 | a provided key is accepted against a configured key iff it is non-empty and equal to it |
| `WebServer.EmptyKeyNeverValid` | XhMonitor.Desktop/Services/WebServerService.cs:385-388 | the empty key is never accepted |
| `WebServer.ProvidedKeyIsTrimmed` | XhMonitor.Desktop/Services/WebServerService.cs:395-416 | the provided key never has surrounding white space |
| `WebServer.HeaderKeyFirst` | XhMonitor.Desktop/Services/WebServerService.cs:397-401 | a non-blank X-Access-Key header wins over the bearer token and the query, trimmed |
| `WebServer.BearerHeaderKey` | XhMonitor.Desktop/Services/WebServerService.cs:403-412 | without that header, a bearer header whose token trims to something non-empty gives that token |
| `WebServer.BearerKeySecond` | XhMonitor.Desktop/Services/WebServerService.cs:405-407 | the bearer scheme name is matched ignoring case (section 2.1 of RFC 6750) |
| `WebServer.QueryKeyLast` | XhMonitor.Desktop/Services/WebServerService.cs:414-415 | with neither a header key nor a usable bearer token the trimmed access_token query value is used, even when empty (section 2.3 of RFC 6750) |
| `WebServer.Outcome.StatusCode` | XhMonitor.Desktop/Services/WebServerService.cs:179-203 | only passing the request on has no status code; refusals answer 403, 401 or 503 |
| `WebServer.LocalRequestsBypass` | XhMonitor.Desktop/Services/WebServerService.cs:163-169 | a local request is passed on whatever the settings |
| `WebServer.ForbiddenIff` | XhMonitor.Desktop/Services/WebServerService.cs:173-183 | 403 is answered exactly to non-local requests when the whitelist has rules and the client has no address or no rule matches it |
| `WebServer.KeyOnlyOnProtectedPaths` | XhMonitor.Desktop/Services/WebServerService.cs:187-189 | the key is never asked for outside /api and /hubs, for OPTIONS, or when it is disabled |
| `WebServer.DecisionForSettings` | XhMonitor.Desktop/Services/WebServerService.cs:161-210 | for a snapshot compiled from the settings, a request passes iff it is local, or passes the whitelist and (when the key is checked) a key is configured and the request carries exactly it; 503 iff the key is checked but none is configured |
| `WebServer.BuiltSnapshotIsValid` | XhMonitor.Desktop/Services/WebServerService.cs:145-151 | a snapshot compiled from the settings holds only well-formed rules |
| `WebServer.SecurityMiddleware.constructor` | XhMonitor.Desktop/Services/WebServerService.cs:121-126 | the middleware starts without a cached snapshot |
| `WebServer.SecurityMiddleware.GetSnapshot` | XhMonitor.Desktop/Services/WebServerService.cs:128-159 | a snapshot at most 200 ms old at either clock reading is reused unchanged; otherwise the settings are compiled, cached and stamped with the second reading |
| `WebServer.SecurityMiddleware.Handle` | XhMonitor.Desktop/Services/WebServerService.cs:161-210 | local requests pass without touching the cache; every other request is decided against the snapshot then cached |
| `WmiGpuVendorDetector.DetectVendor` | XhMonitor.Core/Services/WmiGpuVendorDetector.cs:12-48 | off Windows or when the query throws the vendor is Unknown; otherwise the loop over controllers reports AMD over NVIDIA over Intel over Unknown |
| `WmiGpuVendorDetector.BlankIsUnknown` | XhMonitor.Core/Services/WmiGpuVendorDetector.cs:52-55 | blank text classifies as Unknown |
| `WmiGpuVendorDetector.TextCaseIgnored` | XhMonitor.Core/Services/WmiGpuVendorDetector.cs:57 | classification ignores case |
| `WmiGpuVendorDetector.AmdBeforeNvidia` | XhMonitor.Core/Services/WmiGpuVendorDetector.cs:59-62 | a text mentioning radeon is AMD, whatever else it names |
| `WmiGpuVendorDetector.PriorityOrder` | XhMonitor.Core/Services/WmiGpuVendorDetector.cs:38-40 | one AMD controller decides; NVIDIA wins only without AMD, Intel only without both |
| `WmiGpuVendorDetector.NoControllersUnknown` | XhMonitor.Core/Services/WmiGpuVendorDetector.cs:47 | with no controllers the vendor is Unknown |
| `IpWhitelist.BitsInByte` | XhMonitor.Desktop/Services/IpWhitelistMatcher.cs:138 | the prefix bits falling into one mask byte are between 0 and 8 |
| `IpWhitelist.ParseRules` | XhMonitor.Desktop/Services/IpWhitelistMatcher.cs:31-40 | the compiled list never has more rules than there were entries |
| `IpWhitelist.Exact` | XhMonitor.Desktop/Services/IpWhitelistMatcher.cs:123-131 | an exact rule has an all-ones mask over the whole address and is well formed |
| `IpWhitelist.Cidr` | XhMonitor.Desktop/Services/IpWhitelistMatcher.cs:133-160 | the byte-by-byte mask and masked-network loops build the CIDR rule of the prefix, network and mask of equal length |
| `IpWhitelist.IsMatch` | XhMonitor.Desktop/Services/IpWhitelistMatcher.cs:162-178 | the early-exit loop answers true exactly when family and width agree and every masked client byte equals the stored network byte |
| `IpWhitelist.TryParseRule` | XhMonitor.Desktop/Services/IpWhitelistMatcher.cs:57-108 | blank text, an unparsable address, not exactly one '/', a non-integer prefix or a prefix outside 0..8·width give no rule; otherwise the exact or CIDR rule |
| `IpWhitelist.Parse` | XhMonitor.Desktop/Services/IpWhitelistMatcher.cs:18-41 | the matcher holds the rules of the comma/newline separated entries that parse, in entry order, all well formed |
| `IpWhitelist.IsAllowed` | XhMonitor.Desktop/Services/IpWhitelistMatcher.cs:43-55 | a client is allowed iff some rule matches it |
| `IpWhitelist.ParsedRulesAreValid` | XhMonitor.Desktop/Services/IpWhitelistMatcher.cs:106 | every compiled rule has a mask as long as its network |
| `IpWhitelist.BlankWhitelistHasNoRules` | XhMonitor.Desktop/Services/IpWhitelistMatcher.cs:20-23 | a blank whitelist compiles to no rules |
| `IpWhitelist.ParseRulesKeepsValidEntries` | XhMonitor.Desktop/Services/IpWhitelistMatcher.cs:32-38 | every kept rule comes from an entry that parses to it, and every entry that parses contributes its rule |
| `IpWhitelist.CidrPrefixOutOfRangeRejected` | XhMonitor.Desktop/Services/IpWhitelistMatcher.cs:98-104 | a prefix below 0 or beyond the address width rejects the entry |
| `IpWhitelist.ManySlashesRejected` | XhMonitor.Desktop/Services/IpWhitelistMatcher.cs:79-84 | an entry that does not split into exactly two parts at '/' is rejected |
| `IpWhitelist.ExactMatchesOnlyItself` | XhMonitor.Desktop/Services/IpWhitelistMatcher.cs:123-131 | an exact rule matches that one address (same family and bytes) and no other |
| `IpWhitelist.MaskByteBits` | XhMonitor.Desktop/Services/IpWhitelistMatcher.cs:136-151 | bit j of mask byte i is set iff bit 8i+j lies inside the prefix |
| `IpWhitelist.CidrMatchesPrefix` | XhMonitor.Desktop/Services/IpWhitelistMatcher.cs:133-178 | a CIDR rule matches exactly the addresses of the same family and width whose first prefix bits equal the network's (prefix notation of RFC 4632 and RFC 4291) |
| `IpWhitelist.MaskIdempotent` | XhMonitor.Desktop/Services/IpWhitelistMatcher.cs:156 | masking an already masked byte changes nothing |
| `IpWhitelist.CidrIgnoresHostBits` | XhMonitor.Desktop/Services/IpWhitelistMatcher.cs:153-157 | two networks that agree on the prefix compile to the same rule: host bits in the entry do not matter |
| `IpWhitelist.NoRulesAllowsNobody` | XhMonitor.Desktop/Services/IpWhitelistMatcher.cs:43-55 | a matcher without rules allows no client |
| `IpWhitelist.NoCrossFamilyMatch` | XhMonitor.Desktop/Services/IpWhitelistMatcher.cs:164-167 | a rule never matches an address of another family or byte width |
| `IpWhitelist.CidrContainsNetwork` | XhMonitor.Desktop/Services/IpWhitelistMatcher.cs:133-160 | the network address of a CIDR rule is itself allowed by it |
| `IpWhitelist.ZeroPrefixMatchesAll` | XhMonitor.Desktop/Services/IpWhitelistMatcher.cs:138-142 | a /0 rule admits every address of its family and width |
| `ByteMasks.ShiftIsFullMask` | XhMonitor.Desktop/Services/IpWhitelistMatcher.cs:149 | the shifted byte `0xFF << (8 - b)` is the byte whose first b bits are set |
| `ByteMasks.FullMaskBits` | XhMonitor.Desktop/Services/IpWhitelistMatcher.cs:143-150 | bit j of the b-bit mask is set iff j < b |
| `ByteMasks.MaskedEqualIffAgree` | XhMonitor.Desktop/Services/IpWhitelistMatcher.cs:171 | two bytes are equal under the b-bit mask iff their first b bits agree |
| `ProcessNameResolver.NoRuleKeepsName` | XhMonitor.Core/Services/ProcessNameResolver.cs:67-72 | a process without a rule for its name (compared ignoring case) keeps its own name |
| `ProcessNameResolver.RuleSelection` | XhMonitor.Core/Services/ProcessNameResolver.cs:88-110 | the chosen rule is the first rule for the name whose keywords occur in the command line (ignoring case), else the first keyword-less rule for the name |
| `ProcessNameResolver.KeywordRulesFirst` | XhMonitor.Core/Services/ProcessNameResolver.cs:98-106 | when some rule for the name has a matching keyword, a keyword rule is chosen, and it is no later in configuration order than that one |
| `ProcessNameResolver.TypeIgnoresCase` | XhMonitor.Core/Services/ProcessNameResolver.cs:74-79 | the rule type is compared ignoring case: regex extracts, direct shows the display name, any other type keeps the process name |
| `ProcessNameResolver.DirectRule` | XhMonitor.Core/Services/ProcessNameResolver.cs:146-155 | a Direct rule shows its display name, or the rule's process name when that is blank |
| `ProcessNameResolver.RegexRule` | XhMonitor.Core/Services/ProcessNameResolver.cs:112-144 | a Regex rule keeps the process name for a blank or invalid pattern, no match, a group index out of range or a failing format; otherwise it shows the captured group (group 1 by default), formatted when a template is given |
| `ProcessMetadataStore.MetadataStore.constructor` | XhMonitor.Service/Core/ProcessMetadataStore.cs:13-15 | a new store has no items and no keys |
| `ProcessMetadataStore.MetadataStore.GetSnapshot` | XhMonitor.Service/Core/ProcessMetadataStore.cs:17-23 | returns the stored snapshots |
| `ProcessMetadataStore.MetadataStore.Update` | XhMonitor.Service/Core/ProcessMetadataStore.cs:25-63 | the loop reports the changed processes in input order and leaves the dictionaries as recording every input process and pruning the gone ones leaves them |
| `ProcessMetadataStore.RecordAllDomain` | XhMonitor.Service/Core/ProcessMetadataStore.cs:32-53 | the first loop adds the input's pids to the key dictionary, never drops an item, and leaves every other entry alone |
| `ProcessMetadataStore.RecordAllConsistent` | XhMonitor.Service/Core/ProcessMetadataStore.cs:50-51 | recording keeps every stored key equal to the key of the snapshot stored beside it |
| `ProcessMetadataStore.RecordAllKeys` | XhMonitor.Service/Core/ProcessMetadataStore.cs:36-50 | with distinct pids each input process ends up with its own current key |
| `ProcessMetadataStore.ChangedExact` | XhMonitor.Service/Core/ProcessMetadataStore.cs:37-52 | with distinct pids a process is reported iff it is new or its key changed, only input processes are reported, and never more than were given |
| `ProcessMetadataStore.LastUnaffected` | XhMonitor.Service/Core/ProcessMetadataStore.cs:37 | with distinct pids the last process is judged against the store as it was before the others were recorded |
| `ProcessMetadataStore.UpdateDomain` | XhMonitor.Service/Core/ProcessMetadataStore.cs:55-59 | after an update the key dictionary holds exactly the input's pids, and so do the items when both dictionaries agreed before |
| `ProcessMetadataStore.UpdateKeepsSnapshotsCurrent` | XhMonitor.Service/Core/ProcessMetadataStore.cs:42-51 | after an update every input process's stored snapshot has the process's current key, and keys stay consistent with items |
| `ProcessMetadataStore.NewProcessStored` | XhMonitor.Service/Core/ProcessMetadataStore.cs:42-52 | a new process is reported and stored, with null command line and display name stored as "" |
| `ProcessMetadataStore.AllUnchangedIsNoOp` | XhMonitor.Service/Core/ProcessMetadataStore.cs:37-40 | if no process changed, recording changes nothing and reports nothing |
| `ProcessMetadataStore.UpdateIdempotent` | XhMonitor.Service/Core/ProcessMetadataStore.cs:25-63 | the same input twice: the second update reports nothing and leaves the store as it was |
| `ProcessMetadataStore.KeyCollisionKeepsStaleSnapshot` | XhMonitor.Service/Core/ProcessMetadataStore.cs:65-66 | the line-feed-joined key does not determine the snapshot: a command line holding a line feed can shift text into the display name, keep the key, and leave the earlier snapshot stored and unreported |
| `MetricProviderRegistry.Registry.constructor` | XhMonitor.Service/Core/MetricProviderRegistry.cs:15-26 | the registry registers the factory's providers, then the plugin providers, in order |
| `MetricProviderRegistry.Registry.Release` | XhMonitor.Service/Core/MetricProviderRegistry.cs:72 | disposing a provider records it as disposed and changes nothing else |
| `MetricProviderRegistry.Registry.RegisterProvider` | XhMonitor.Service/Core/MetricProviderRegistry.cs:60-103 | returns and changes the state as registration specifies: throws when disposed, false for null, a blank id, an unsupported or throwing provider or a taken id (disposing the provider), true when added |
| `MetricProviderRegistry.Registry.UnregisterProvider` | XhMonitor.Service/Core/MetricProviderRegistry.cs:105-119 | removes and disposes the provider of a non-blank id, reporting whether there was one |
| `MetricProviderRegistry.Registry.GetProvider` | XhMonitor.Service/Core/MetricProviderRegistry.cs:33-44 | throws when disposed, finds nothing for a blank id, else the provider stored under the id ignoring case |
| `MetricProviderRegistry.Registry.GetAllProviders` | XhMonitor.Service/Core/MetricProviderRegistry.cs:49-58 | throws when disposed; otherwise the registered providers the filter accepts, all of them without a filter |
| `MetricProviderRegistry.Registry.Dispose` | XhMonitor.Service/Core/MetricProviderRegistry.cs:246-269 | the first call marks the registry disposed, empties the map and disposes every registered provider; later calls do nothing |
| `MetricProviderRegistry.Registry.RegisterCandidates` | XhMonitor.Service/Core/MetricProviderRegistry.cs:140-163 | the loop registers every created candidate in order and skips the ones not created |
| `MetricProviderRegistry.BlankIgnoresCase` | XhMonitor.Service/Core/MetricProviderRegistry.cs:37-40 | folding case keeps whether an id is blank |
| `MetricProviderRegistry.RegisterIff` | XhMonitor.Service/Core/MetricProviderRegistry.cs:60-103 | registration succeeds iff the registry is live, the provider is non-null, has a non-blank id, is supported and its id is free; it is then found under every spelling of its id |
| `MetricProviderRegistry.RefusedIsReleased` | XhMonitor.Service/Core/MetricProviderRegistry.cs:69-100 | a refused non-null provider is disposed and the map is unchanged; a null provider changes nothing |
| `MetricProviderRegistry.FirstWins` | XhMonitor.Service/Core/MetricProviderRegistry.cs:95-100 | the first registration of an id wins: a later one leaves the map and the lookup as they were |
| `MetricProviderRegistry.LookupIgnoresCase` | XhMonitor.Service/Core/MetricProviderRegistry.cs:33-44 | lookup ignores case, and a blank id finds nothing |
| `MetricProviderRegistry.UnregisterIff` | XhMonitor.Service/Core/MetricProviderRegistry.cs:105-119 | unregistering reports whether a provider was registered under the id; it is then gone and disposed |
| `MetricProviderRegistry.RegisteredIsListed` | XhMonitor.Service/Core/MetricProviderRegistry.cs:49-58 | a newly registered provider is listed, and by a filter iff the filter accepts it |
| `MetricProviderRegistry.DisposeFinal` | XhMonitor.Service/Core/MetricProviderRegistry.cs:246-269 | disposal is idempotent, disposes every registered provider, empties the map, and makes reading and registering throw |
| `MetricProviderRegistry.OperationsKeepValid` | XhMonitor.Service/Core/MetricProviderRegistry.cs:11 | registering, unregistering and disposal keep every entry an admissible provider stored under its own id |
| `MetricProviderRegistry.RegisterAllKeepsValid` | XhMonitor.Service/Core/MetricProviderRegistry.cs:140-244 | registering a list of candidates keeps the map well formed, never forgets a disposal and never changes the disposed flag |
| `ProcessScanner.Scanner.constructor` | XhMonitor.Service/Core/ProcessScanner.cs:42-48 | the configured keywords, split into includes and excludes, become both the base and the runtime lists; the cache starts empty |
| `ProcessScanner.Scanner.ReloadKeywords` | XhMonitor.Service/Core/ProcessScanner.cs:60-130 | reports a load iff the settings row exists; the runtime lists become the merge of the base lists with the row's keywords, and stay as they were otherwise; the cache is untouched |
| `ProcessScanner.Scanner.ProcessSingleProcess` | XhMonitor.Service/Core/ProcessScanner.cs:184-254 | returns the kept process as the single-process specification gives it and updates the cache as the visit does; the keyword lists are untouched |
| `ProcessScanner.Scanner.CleanupCommandLineCache` | XhMonitor.Service/Core/ProcessScanner.cs:274-283 | the loop leaves exactly the cache with expired entries and entries of dead processes removed |
| `ProcessScanner.Scanner.DropIfStale` | XhMonitor.Service/Core/ProcessScanner.cs:278-281 | one clean-up step removes the entry iff it has expired or its process is gone |
| `ProcessScanner.Scanner.ScanProcesses` | XhMonitor.Service/Core/ProcessScanner.cs:132-182 | a failed enumeration returns nothing and keeps the cache; otherwise every process is visited and the cache is then cleaned against the live pids |
| `ProcessScanner.SplitKeywordsExact` | XhMonitor.Service/Core/ProcessScanner.cs:43-44 | keywords starting with '!' become lowercased excludes without the '!', all others lowercased includes |
| `ProcessScanner.MergeExact` | XhMonitor.Service/Core/ProcessScanner.cs:117-121 | each merged list is its two sources' keywords minus the other side's database keywords, without repeats |
| `ProcessScanner.DatabaseWins` | XhMonitor.Service/Core/ProcessScanner.cs:113-116 | a keyword only the database excludes is excluded and never included, and vice versa: the database wins a conflict |
| `ProcessScanner.MatchedExact` | XhMonitor.Service/Core/ProcessScanner.cs:256-272 | the matched keywords are exactly the includes occurring in the lowercased command line, and none when some exclude occurs in it |
| `ProcessScanner.NoKeywordsKeepsAll` | XhMonitor.Service/Core/ProcessScanner.cs:235 | without any keywords every process with a command line is kept |
| `ProcessScanner.ExcludesOnlyDropAll` | XhMonitor.Service/Core/ProcessScanner.cs:267-268 | with excludes but no includes nothing matches, so every process is dropped |
| `ProcessScanner.KeptMatched` | XhMonitor.Service/Core/ProcessScanner.cs:229-253 | a kept process under non-empty lists matched some includes occurring in its command line and none of the excludes, and shows the resolver's name or its own name |
| `ProcessScanner.CacheHit` | XhMonitor.Service/Core/ProcessScanner.cs:191-194 | an unexpired cached command line is used without reading and the cache stays as it is |
| `ProcessScanner.CacheMiss` | XhMonitor.Service/Core/ProcessScanner.cs:195-222 | on a miss a command line read is cached for 30 s; a denied or null read skips the process and leaves the cache alone |
| `ProcessScanner.CleanupExact` | XhMonitor.Service/Core/ProcessScanner.cs:274-283 | the clean-up keeps exactly the unexpired entries of live processes, unchanged |
| `ProcessScanner.ScanLeavesFreshCache` | XhMonitor.Service/Core/ProcessScanner.cs:139-171 | after a scan every cached command line belongs to a live process and is still valid |
| `RyzenAdjCli.NameKey` | XhMonitor.Core/Services/RyzenAdjCli.cs:246 | the case-insensitive dictionary key of a name is its character-by-character upper-case form, of the same length |
| `RyzenAdjCli.TryParseInfoOutput` | XhMonitor.Core/Services/RyzenAdjCli.cs:235-298 | succeeds iff the output parses; on success the snapshot is the parsed one and the error empty, on failure the snapshot is all NaN and the error the failure message |
| `RyzenAdjCli.ReadTable` | XhMonitor.Core/Services/RyzenAdjCli.cs:246-272 | the line loop leaves the dictionary that every table row, in order, writes into |
| `RyzenAdjCli.TableValuesStep` | XhMonitor.Core/Services/RyzenAdjCli.cs:249-272 | one more line updates the dictionary as the loop body does |
| `RyzenAdjCli.TableValuesAreLastRows` | XhMonitor.Core/Services/RyzenAdjCli.cs:271 | the dictionary holds, for every name key, the value of the last row with that name (ignoring case), and nothing else |
| `RyzenAdjCli.LastValueFindsLastRow` | XhMonitor.Core/Services/RyzenAdjCli.cs:271 | the last-row search finds a row for a key iff one exists, and no later row names that key |
| `RyzenAdjCli.RowsSkipped` | XhMonitor.Core/Services/RyzenAdjCli.cs:251-255 | lines that do not start with '|' once trimmed, and the "\|---" rule, are skipped |
| `RyzenAdjCli.TryGetIsFound` | XhMonitor.Core/Services/RyzenAdjCli.cs:274-278 | looking a key up in the finished dictionary is finding its last row when that holds a number that is not NaN |
| `RyzenAdjCli.SnapshotOfRows` | XhMonitor.Core/Services/RyzenAdjCli.cs:280-297 | the lookups succeed iff the last row of each of the six keys holds a non-NaN number, and the snapshot carries exactly those numbers; otherwise the missing-keys message |
| `RyzenAdjCli.ParseInfoSpec` | XhMonitor.Core/Services/RyzenAdjCli.cs:240-244 | blank output fails with "Empty output"; otherwise the outcome is the lookup of the six keys in the rows of its lines |
| `RyzenAdjCli.Wrap32` | XhMonitor.Core/Services/RyzenAdjCli.cs:59-60 | C# int arithmetic: the wrapped value is a 32-bit integer and equals the input when that already is one |
| `RyzenAdjCli.MilliwattsRange` | XhMonitor.Core/Services/RyzenAdjCli.cs:59-60 | negative watts give 0; up to 2147483 W the milliwatts are exact; one watt more and the product wraps negative |
| `RyzenAdjCli.ReplaceWithoutCr` | XhMonitor.Core/Services/RyzenAdjCli.cs:162 | text without carriage returns is left alone by the CRLF replacement |
| `RyzenAdjCli.ReplaceAppend` | XhMonitor.Core/Services/RyzenAdjCli.cs:162 | the CRLF replacement distributes over a join unless a CRLF straddles it |
| `RyzenAdjCli.CrLfBecomesLf` | XhMonitor.Core/Services/RyzenAdjCli.cs:162 | every CRLF separating two texts becomes a single LF |
| `RyzenAdjCli.TruncateForLogSpec` | XhMonitor.Core/Services/RyzenAdjCli.cs:150-169 | blank text or a non-positive limit give ""; otherwise the normalised text is kept whole when it fits, else its first maxChars characters followed by the truncation marker |
| `RyzenAdjPowerProvider.CastToInt32` | XhMonitor.Core/Providers/RyzenAdjPowerProvider.cs:228-230 | the (int) conversion of a rounded double always gives a 32-bit integer |
| `RyzenAdjPowerProvider.NextIndex` | XhMonitor.Core/Providers/RyzenAdjPowerProvider.cs:138 | the scheme index after the current one is a valid index |
| `RyzenAdjPowerProvider.NextIndexCycles` | XhMonitor.Core/Providers/RyzenAdjPowerProvider.cs:138 | the next index is 0 for limits matching no scheme, the following index otherwise, wrapping from the last scheme to the first |
| `RyzenAdjPowerProvider.NextSchemeIndex` | XhMonitor.Core/Providers/RyzenAdjPowerProvider.cs:135-139 | the scheme a switch applies after reading a snapshot is a valid index |
| `RyzenAdjPowerProvider.PowerProvider.constructor` | XhMonitor.Core/Providers/RyzenAdjPowerProvider.cs:38-48 | a negative polling interval becomes zero, a missing or empty scheme list the three defaults; the provider starts with no status, no attempt, no failures and enabled |
| `RyzenAdjPowerProvider.PowerProvider.WithDefaults` | XhMonitor.Core/Providers/RyzenAdjPowerProvider.cs:28-31 | the short constructor polls every three seconds with the three default schemes and starts with no status, no attempt, no failures and enabled |
| `RyzenAdjPowerProvider.PowerProvider.MatchSchemeIndex` | XhMonitor.Core/Providers/RyzenAdjPowerProvider.cs:246-260 | the loop returns the first scheme whose three limits are each within one watt of the reading |
| `RyzenAdjPowerProvider.PowerProvider.GetStatus` | XhMonitor.Core/Providers/RyzenAdjPowerProvider.cs:52-120 | unsupported: null and nothing changes; within the polling interval: the cached status if the last attempt succeeded, without calling the tool; otherwise the tool is read, a success refreshes the cache and clears the startup failures, a failure before any success is counted and the third one disables the provider |
| `RyzenAdjPowerProvider.PowerProvider.TryVerifyApplied` | XhMonitor.Core/Providers/RyzenAdjPowerProvider.cs:198-223 | the re-read is accepted, as a status, exactly when it succeeds and its limits are each within a watt of the expected scheme |
| `RyzenAdjPowerProvider.PowerProvider.SwitchToNextScheme` | XhMonitor.Core/Providers/RyzenAdjPowerProvider.cs:122-196 | answers as the switch specification says, passes the scheme after the current one to the tool, changes nothing on failure, and on success caches the switch's status as a successful attempt |
| `RyzenAdjPowerProvider.PowerProvider.PlanSwitch` | XhMonitor.Core/Providers/RyzenAdjPowerProvider.cs:135-139 | the first part of a switch finds the current scheme and the one after it |
| `RyzenAdjPowerProvider.PowerProvider.MarkSucceeded` | XhMonitor.Core/Providers/RyzenAdjPowerProvider.cs:143-151 | a switch that took effect caches its status as a successful attempt now and clears the startup failures |
| `RyzenAdjPowerProvider.FirstMatchStep` | XhMonitor.Core/Providers/RyzenAdjPowerProvider.cs:248-257 | one step of the matching loop: scheme i itself when it is close, else the search from i + 1 |
| `RyzenAdjPowerProvider.FirstMatchIsSmallest` | XhMonitor.Core/Providers/RyzenAdjPowerProvider.cs:246-260 | the match is the smallest index whose scheme is close to the limits, and there is none iff no scheme is close |
| `RyzenAdjPowerProvider.ConvertToWattsCases` | XhMonitor.Core/Providers/RyzenAdjPowerProvider.cs:233-244 | watts are never NaN or negative: NaN and non-positive readings give 0, readings above 1000 are milliwatts divided by 1000, the rest are kept |
| `RyzenAdjPowerProvider.CloseToReflexiveSymmetric` | XhMonitor.Core/Providers/RyzenAdjPowerProvider.cs:262 | limits are close to themselves, and closeness is symmetric |
| `RyzenAdjPowerProvider.DefaultSchemesMatchThemselves` | XhMonitor.Core/Providers/RyzenAdjPowerProvider.cs:9-14 | the default schemes are more than a watt apart, so each is matched by its own index |
| `RyzenAdjPowerProvider.MilliwattSnapshotLimits` | XhMonitor.Core/Providers/RyzenAdjPowerProvider.cs:225-231 | a snapshot printed in milliwatts becomes the same whole watts |
| `RyzenAdjPowerProvider.SwitchOutcomeCases` | XhMonitor.Core/Providers/RyzenAdjPowerProvider.cs:122-196 | a switch answers "RyzenAdj not available" when unsupported, the read's error when the limits cannot be read, the next scheme when applying succeeds, and when applying throws the re-read limits if they are within a watt of that scheme, else the apply error |
| `RyzenAdjPowerProvider.SwitchedSchemeIsClose` | XhMonitor.Core/Providers/RyzenAdjPowerProvider.cs:160-186 | a switch that took effect reports a valid index and a scheme within a watt of the one it meant to apply |
| `RyzenAdjPowerProvider.SwitchCacheAgrees` | XhMonitor.Core/Providers/RyzenAdjPowerProvider.cs:143-185 | the status a switch caches has the limits it reports, and the same scheme index whenever the status has one |
| `RyzenAdjPowerProvider.StatusOfFirstScheme` | XhMonitor.Tests/Providers/RyzenAdjPowerProviderTests.cs:11-34 | a read of 55/100/55 W limits and 42 W draw reports 42 W of 55 W and the first default scheme |
| `RyzenAdjPowerProvider.StatusIsCached` | XhMonitor.Tests/Providers/RyzenAdjPowerProviderTests.cs:36-58 | within the polling interval the second status is the cached one and the tool is called once |
| `RyzenAdjPowerProvider.DisabledAfterThreeStartupFailures` | XhMonitor.Tests/Providers/RyzenAdjPowerProviderTests.cs:60-79 | three failed reads before any success disable the provider; the fourth request does not call the tool |
| `RyzenAdjPowerProvider.SwitchFromFirstScheme` | XhMonitor.Tests/Providers/RyzenAdjPowerProviderTests.cs:81-109 | from the first default scheme a switch applies and reports the second |
| `RyzenAdjPowerProvider.SwitchThenStatus` | XhMonitor.Tests/Providers/RyzenAdjPowerProviderTests.cs:111-140 | after a switch a status request within the interval reports the new scheme from the cache without calling the tool |
| `RyzenAdjPowerProvider.SwitchVerifiedAfterApplyCrash` | XhMonitor.Tests/Providers/RyzenAdjPowerProviderTests.cs:142-175 | when applying throws but the re-read shows the second scheme's limits, the switch still succeeds |
| `RyzenAdjPowerProvider.SwitchFromUnknownLimits` | XhMonitor.Tests/Providers/RyzenAdjPowerProviderTests.cs:177-204 | limits matching no scheme switch to the first one |
| `SystemMetricProvider.ProviderMapStep` | XhMonitor.Core/Providers/SystemMetricProvider.cs:103-120 | one more candidate extends the provider map by exactly that candidate's step |
| `SystemMetricProvider.BuildProviderMap` | XhMonitor.Core/Providers/SystemMetricProvider.cs:93-123 | the loop builds the map the candidates describe; a null list gives the empty map |
| `SystemMetricProvider.WithProviderKeys` | XhMonitor.Core/Providers/SystemMetricProvider.cs:103-120 | a key is present after one step iff it was before or the candidate is non-null with a non-blank id of that key |
| `SystemMetricProvider.ProviderMapKeys` | XhMonitor.Core/Providers/SystemMetricProvider.cs:93-123 | a key is in the map exactly when some candidate registers under it |
| `SystemMetricProvider.ProviderMapFirstWins` | XhMonitor.Core/Providers/SystemMetricProvider.cs:116-119 | the first candidate with an id is the one stored; later ones with the same id in any case are ignored |
| `SystemMetricProvider.GetProviderIgnoresCase` | XhMonitor.Core/Providers/SystemMetricProvider.cs:125-134 | provider lookup does not depend on the letter case of the id |
| `SystemMetricProvider.IsVirtualAdapter` | XhMonitor.Core/Providers/SystemMetricProvider.cs:298-314 | the keyword loop answers true exactly for a non-blank name containing some keyword, ignoring case |
| `SystemMetricProvider.KeySetMembership` | XhMonitor.Core/Providers/SystemMetricProvider.cs:60 | the case-insensitive set holds exactly the folded names |
| `SystemMetricProvider.KeySetStep` | XhMonitor.Core/Providers/SystemMetricProvider.cs:341-345 | adding a name to the case-insensitive set adds its folded form |
| `SystemMetricProvider.Total` | XhMonitor.Core/Providers/SystemMetricProvider.cs:442-475 | a direction's byte total is never negative |
| `SystemMetricProvider.TotalStep` | XhMonitor.Core/Providers/SystemMetricProvider.cs:446-475 | one sensor adds its value to the total of the direction it is classified in and nothing to the other |
| `SystemMetricProvider.ConvertThroughputToMbps` | XhMonitor.Core/Providers/SystemMetricProvider.cs:722-732 | bytes per second become non-negative MiB per second, exactly the input over 1048576 when positive, 0 otherwise |
| `SystemMetricProvider.TotalsPartition` | XhMonitor.Core/Providers/SystemMetricProvider.cs:446-475 | upload plus download equals the sum over the counted sensors: none lost, none counted twice |
| `SystemMetricProvider.UploadPatternsFirst` | XhMonitor.Core/Providers/SystemMetricProvider.cs:467-474 | a sensor whose name matches both directions counts as upload only |
| `SystemMetricProvider.IgnoredAddNothing` | XhMonitor.Core/Providers/SystemMetricProvider.cs:446-475 | sensors the loop skips change neither total |
| `SystemMetricProvider.TotalOfPair` | XhMonitor.Core/Providers/SystemMetricProvider.cs:446-475 | the total of two sensors is the sum of their contributions |
| `SystemMetricProvider.HyperVIsVirtual` | XhMonitor.Core/Providers/SystemMetricProvider.cs:26-45 | a Hyper-V adapter name is virtual |
| `SystemMetricProvider.VpnIsVirtual` | XhMonitor.Core/Providers/SystemMetricProvider.cs:26-45 | a VPN adapter name is virtual |
| `SystemMetricProvider.VirtualIsIgnored` | XhMonitor.Core/Providers/SystemMetricProvider.cs:448-453 | sensors of virtual adapters are always skipped |
| `SystemMetricProvider.KeywordNameIsVirtual` | XhMonitor.Core/Providers/SystemMetricProvider.cs:298-314 | any name starting with a keyword is virtual, whatever follows |
| `SystemMetricProvider.DiskTotal` | XhMonitor.Core/Providers/SystemMetricProvider.cs:583-611 | a disk direction's byte total is never negative |
| `SystemMetricProvider.DiskStep` | XhMonitor.Core/Providers/SystemMetricProvider.cs:588-611 | one sensor adds its value to the direction it counts in, and that direction is found from then on |
| `SystemMetricProvider.HasDirectionStep` | XhMonitor.Core/Providers/SystemMetricProvider.cs:588-611 | a direction is found after one more sensor iff it was before or that sensor counts in it |
| `SystemMetricProvider.GetDiskThroughput` | XhMonitor.Core/Providers/SystemMetricProvider.cs:576-616 | the loop gives the MiB/s of each direction, null for a direction no sensor of the disk counts in |
| `SystemMetricProvider.OtherDisksIgnored` | XhMonitor.Core/Providers/SystemMetricProvider.cs:590-593 | readings of other disks change neither direction's total nor whether it is found |
| `SystemMetricProvider.BothPatternsCountAsWrite` | XhMonitor.Core/Providers/SystemMetricProvider.cs:600-610 | a sensor named with both a read and a write pattern counts as a write |
| `SystemMetricProvider.FindDiskSensorValue` | XhMonitor.Core/Providers/SystemMetricProvider.cs:665-701 | the loop returns the best value of the matching sensors |
| `SystemMetricProvider.BestIsMaximum` | XhMonitor.Core/Providers/SystemMetricProvider.cs:665-701 | the best value is the maximum over the sensors of the disk matching a pattern (positive if required), and null exactly when none match |
| `SystemMetricProvider.ConvertGbToBytes` | XhMonitor.Core/Providers/SystemMetricProvider.cs:703-707 | GiB become the nearest whole number of bytes, and non-negative GiB give non-negative bytes |
| `SystemMetricProvider.GetDiskCapacityFromLhm` | XhMonitor.Core/Providers/SystemMetricProvider.cs:618-663 | the method computes the capacity the specification function describes |
| `SystemMetricProvider.CapacityBounds` | XhMonitor.Core/Providers/SystemMetricProvider.cs:618-663 | a total exists only for a positive reading on a named disk; used needs a total and a non-negative free value, lies in [0, total], and is total minus free when that is not negative |
| `SystemMetricProvider.AddHardwareNames` | XhMonitor.Core/Providers/SystemMetricProvider.cs:558-574 | non-blank hardware names not yet present, ignoring case, are appended |
| `SystemMetricProvider.HardwareNamesCover` | XhMonitor.Core/Providers/SystemMetricProvider.cs:558-574 | a key is collected iff it was already or some sensor has a non-blank hardware name with that key; no key is collected twice |
| `SystemMetricProvider.DiskUsageOf` | XhMonitor.Core/Providers/SystemMetricProvider.cs:531-546 | one disk's entry is its throughput and capacity, or nothing when all four are null |
| `SystemMetricProvider.GetDiskUsages` | XhMonitor.Core/Providers/SystemMetricProvider.cs:488-556 | no disks when the hardware monitor is unavailable or reading throws; otherwise the entries of the collected names |
| `SystemMetricProvider.DiskUsagesFacts` | XhMonitor.Core/Providers/SystemMetricProvider.cs:508-549 | every reported disk carries some value and is a collected name; every collected name with a value is reported; no two names are equal ignoring case |
| `SystemMetricProvider.PowerFields` | XhMonitor.Core/Providers/SystemMetricProvider.cs:214-240 | power is available exactly when a present, supported provider gave a status, whose watts and scheme index are then copied; otherwise both are 0 with no index |
| `SystemMetricProvider.SystemMetricProvider.constructor` | XhMonitor.Core/Providers/SystemMetricProvider.cs:64-75 | the provider map is built from the candidates and no adapter is verified yet |
| `SystemMetricProvider.SystemMetricProvider.VerifyPhysicalAdapters` | XhMonitor.Core/Providers/SystemMetricProvider.cs:316-368 | the verified set becomes the names of the wired and wireless interfaces with a non-blank name; if enumerating throws it is left as it was |
| `SystemMetricProvider.SystemMetricProvider.ClassifySensor` | XhMonitor.Core/Providers/SystemMetricProvider.cs:448-474 | the branches of the sensor loop classify a sensor as the specification function does |
| `SystemMetricProvider.SystemMetricProvider.GetNetworkSpeed` | XhMonitor.Core/Providers/SystemMetricProvider.cs:423-486 | the speeds are the converted totals of the counted sensors, 0 when the monitor is unavailable or reading throws |
| `SystemMetricProvider.SystemMetricProvider.GetSystemUsage` | XhMonitor.Core/Providers/SystemMetricProvider.cs:209-243 | the snapshot is the one the specification function builds, and the power provider is asked exactly when it is present and supported |
| `SystemMetricProvider.PhysicalNameSource` | XhMonitor.Core/Providers/SystemMetricProvider.cs:321-335 | a collected adapter name is that of a wired or wireless interface |
| `SystemMetricProvider.VerifiedOnlyPhysical` | XhMonitor.Core/Providers/SystemMetricProvider.cs:316-399 | a name in the verified set is non-blank and equals, ignoring case, a wired or wireless interface's name |
| `SystemMetricProvider.PhysicalIsVerified` | XhMonitor.Core/Providers/SystemMetricProvider.cs:316-399 | every wired or wireless interface's name, in any letter case, is verified |
| `SystemMetricProvider.ThroughputScenario` | XhMonitor.Tests/Providers/SystemMetricProviderTests.cs:192-214 | 2 MiB/s of download and 1 MiB/s of upload on a physical adapter are reported as 2.0 and 1.0 |
| `SystemMetricProvider.VirtualAdaptersScenario` | XhMonitor.Tests/Providers/SystemMetricProviderTests.cs:216-237 | sensors on Hyper-V and VPN adapters add nothing |
| `SystemMetricProvider.UnsupportedPowerScenario` | XhMonitor.Tests/Providers/SystemMetricProviderTests.cs:239-258 | an unsupported power provider is not asked and the power fields stay empty |
| `SystemMetricProvider.SupportedPowerScenario` | XhMonitor.Tests/Providers/SystemMetricProviderTests.cs:260-284 | a supported provider's 42 W of 55 W at scheme 0 is copied into the snapshot |
| `LibreHardwareMonitorCpuProvider.SystemTotalBounded` | XhMonitor.Core/Providers/LibreHardwareMonitorCpuProvider.cs:53-64 | a finite load gives a finite total within [0, 100]; NaN passes through the clamp as NaN |
| `LibreHardwareMonitorCpuProvider.ClampExamples` | XhMonitor.Core/Providers/LibreHardwareMonitorCpuProvider.cs:61-63 | out-of-range loads are clamped before rounding: -10 reads 0, 150 and +infinity read 100 |
| `LibreHardwareMonitorCpuProvider.InRangeOnlyRounded` | XhMonitor.Core/Providers/LibreHardwareMonitorCpuProvider.cs:61-63 | a load within [0, 100] is only rounded to one decimal |
| `LibreHardwareMonitorCpuProvider.ZeroCases` | XhMonitor.Core/Providers/LibreHardwareMonitorCpuProvider.cs:45-75 | without support, without a load sensor or when reading throws, the total is 0 |
| `LibreHardwareMonitorCpuProvider.UnsupportedCollectIsError` | XhMonitor.Core/Providers/LibreHardwareMonitorCpuProvider.cs:80-85 | unsupported collection is the fixed "unavailable" error, whatever the delegate would do |
| `LibreHardwareMonitorCpuProvider.SupportedCollectDelegates` | XhMonitor.Core/Providers/LibreHardwareMonitorCpuProvider.cs:87-96 | supported collection is the delegate's result, or an error carrying its exception's message |
| `LibreHardwareMonitorCpuProvider.ConstructorGuards` | XhMonitor.Core/Providers/LibreHardwareMonitorCpuProvider.cs:24-32 | construction succeeds iff all three collaborators are present; a missing one is named, in parameter order |
| `LibreHardwareMonitorGpuProvider.RunningMaxStep` | XhMonitor.Core/Providers/LibreHardwareMonitorGpuProvider.cs:84-106 | one sensor replaces a running maximum only when it satisfies the filter and its value is greater |
| `LibreHardwareMonitorGpuProvider.GetSystemTotal` | XhMonitor.Core/Providers/LibreHardwareMonitorGpuProvider.cs:39-141 | the single pass keeping three maxima, then the cascade, gives the total the specification function describes |
| `LibreHardwareMonitorGpuProvider.RunningMaxIsMaximum` | XhMonitor.Core/Providers/LibreHardwareMonitorGpuProvider.cs:84-106 | each running maximum is the value of a sensor passing its filter, exists iff one does, and is at least every such value that is not NaN |
| `LibreHardwareMonitorGpuProvider.Precedence` | XhMonitor.Core/Providers/LibreHardwareMonitorGpuProvider.cs:108-133 | an engine maximum above 0 is used first, then a core maximum above 0, then any sensor's maximum above 0, each rounded to one decimal |
| `LibreHardwareMonitorGpuProvider.NonZeroIsSensorValue` | XhMonitor.Core/Providers/LibreHardwareMonitorGpuProvider.cs:108-133 | a non-zero total is some sensor's value rounded to one decimal |
| `LibreHardwareMonitorGpuProvider.ZeroCases` | XhMonitor.Core/Providers/LibreHardwareMonitorGpuProvider.cs:39-141 | unavailable hardware, no sensors or a read that throws give 0 |
| `AggregationWorker.NormalizeBatchSizeRange` | XhMonitor.Service/Workers/AggregationWorker.cs:469-477 | the batch size is always within [100, 50000]: non-positive sizes take the default 2000, smaller ones become 100, larger ones 50000, in-range ones are kept, and normalising twice changes nothing |
| `AggregationWorker.Level.Length` | XhMonitor.Service/Workers/AggregationWorker.cs:480-495 | a minute, an hour and a day are each longer than one tick |
| `AggregationWorker.Truncate` | XhMonitor.Service/Workers/AggregationWorker.cs:480-495 | truncation gives the start of the bucket holding t: a multiple of the bucket length at most t and less than one length below it |
| `AggregationWorker.TruncateUnique` | XhMonitor.Service/Workers/AggregationWorker.cs:480-495 | a multiple of the length within one length below t is t's bucket start |
| `AggregationWorker.TruncateStep` | XhMonitor.Service/Workers/AggregationWorker.cs:480-495 | two different bucket starts are at least one length apart |
| `AggregationWorker.TruncateProperties` | XhMonitor.Service/Workers/AggregationWorker.cs:480-495 | truncation is idempotent and monotone and keeps bucket starts |
| `AggregationWorker.TruncateNests` | XhMonitor.Service/Workers/AggregationWorker.cs:480-495 | truncating to the minute and then the hour is truncating to the hour, and likewise hours within days |
| `AggregationWorker.StatsOfExact` | XhMonitor.Service/Workers/AggregationWorker.cs:353-374 | merging raw values counts them, sums them and keeps the least and the greatest, each of which is one of the values; no values leave the fresh aggregate |
| `AggregationWorker.StatsOfBounded` | XhMonitor.Service/Workers/AggregationWorker.cs:359-370 | starting from double.MaxValue and double.MinValue, the minimum never exceeds the first nor the maximum falls below the second |
| `AggregationWorker.AddValueIsCombine` | XhMonitor.Service/Workers/AggregationWorker.cs:353-398 | merging a raw value is merging the aggregate of that one value |
| `AggregationWorker.CombineMonoid` | XhMonitor.Service/Workers/AggregationWorker.cs:376-398 | merging aggregates is commutative and associative, and the fresh aggregate is its unit |
| `AggregationWorker.CombineStatsOf` | XhMonitor.Service/Workers/AggregationWorker.cs:376-398 | merging the aggregates of two runs of values gives the aggregate of both runs, so rolling minutes into hours equals aggregating the raw values of the hour |
| `AggregationWorker.AverageBetween` | XhMonitor.Service/Workers/AggregationWorker.cs:414-417 | the average of a non-empty run lies between its least and greatest value and times the count is the sum; an empty aggregate averages to 0 |
| `AggregationWorker.MergeSamples` | XhMonitor.Service/Workers/AggregationWorker.cs:353-398 | after merging a row the bucket has an aggregate for every metric it had and every metric of the row |
| `AggregationWorker.AfterRowKeepsValid` | XhMonitor.Service/Workers/AggregationWorker.cs:266-283 | one row keeps the bucket dictionary's insertion order and its keys in step |
| `AggregationWorker.AfterRowsKeepsValid` | XhMonitor.Service/Workers/AggregationWorker.cs:244-286 | a run of rows keeps the insertion order and the keys in step |
| `AggregationWorker.EntryAfterRow` | XhMonitor.Service/Workers/AggregationWorker.cs:266-283 | a row with metrics changes only its own bucket's aggregates of its own metrics, each by merging its sample; other rows change nothing |
| `AggregationWorker.BucketEntries` | XhMonitor.Service/Workers/AggregationWorker.cs:241-288 | each bucket's aggregate of a metric is exactly the samples of that metric in the rows of that bucket, merged in row order |
| `AggregationWorker.KeyAfterRow` | XhMonitor.Service/Workers/AggregationWorker.cs:274-280 | one row adds at most its own bucket, and only when it has metrics |
| `AggregationWorker.FromSomeRowStep` | XhMonitor.Service/Workers/AggregationWorker.cs:266-283 | a bucket comes from a longer run iff it comes from the prefix or from the last row |
| `AggregationWorker.BucketKeys` | XhMonitor.Service/Workers/AggregationWorker.cs:241-288 | a bucket exists iff some row with metrics falls in it |
| `AggregationWorker.FoldRawValues` | XhMonitor.Service/Workers/AggregationWorker.cs:353-374 | a bucket of raw values holds the aggregate of its values, with the first value's unit or empty when that is null |
| `AggregationWorker.FoldRolled` | XhMonitor.Service/Workers/AggregationWorker.cs:376-398 | a bucket of lower-level aggregates holds their merged statistics, with the first one's unit |
| `AggregationWorker.AppendOrdered` | XhMonitor.Service/Workers/AggregationWorker.cs:410-412 | a key after every key not after it can be appended to an ordered list |
| `AggregationWorker.InsertMultiset` | XhMonitor.Service/Workers/AggregationWorker.cs:410-412 | a stable insertion adds exactly the key |
| `AggregationWorker.InsertOrdered` | XhMonitor.Service/Workers/AggregationWorker.cs:410-412 | a stable insertion keeps the list ordered |
| `AggregationWorker.SortBucketsOrdered` | XhMonitor.Service/Workers/AggregationWorker.cs:410-412 | the buckets come out ordered by timestamp, then process id |
| `AggregationWorker.SortBucketsMultiset` | XhMonitor.Service/Workers/AggregationWorker.cs:410-412 | sorting the buckets neither drops nor duplicates one |
| `AggregationWorker.RecordsForExact` | XhMonitor.Service/Workers/AggregationWorker.cs:409-430 | one record per key, in key order, each built from its bucket |
| `AggregationWorker.SortedKeys` | XhMonitor.Service/Workers/AggregationWorker.cs:400-412 | the sorted keys are ordered, as many as the buckets, and exactly the buckets |
| `AggregationWorker.RecordsOrdered` | XhMonitor.Service/Workers/AggregationWorker.cs:410-412 | records are ordered by timestamp, then process id |
| `AggregationWorker.RecordsPerBucket` | XhMonitor.Service/Workers/AggregationWorker.cs:400-431 | as many records as buckets, every bucket's key on a record, and no records for no buckets |
| `AggregationWorker.RecordsContents` | XhMonitor.Service/Workers/AggregationWorker.cs:413-427 | each record is at the target level and holds every metric of its bucket with the bucket's aggregate and average |
| `AggregationWorker.ToRecordFacts` | XhMonitor.Service/Workers/AggregationWorker.cs:414-427 | a record carries its bucket's key, the level and every metric of the bucket finalised |
| `AggregationWorker.BucketTable.constructor` | XhMonitor.Service/Workers/AggregationWorker.cs:241 | the bucket dictionary starts empty |
| `AggregationWorker.BucketTable.Merge` | XhMonitor.Service/Workers/AggregationWorker.cs:353-398 | merging a row's metrics into a bucket changes only that bucket, to the merge of its metrics and the row's |
| `AggregationWorker.BucketTable.AddRow` | XhMonitor.Service/Workers/AggregationWorker.cs:266-283 | the row loop's body takes the table to the state one row leads to |
| `AggregationWorker.BucketTable.AddBatch` | XhMonitor.Service/Workers/AggregationWorker.cs:266-283 | the row loop over a batch takes the table to the state the batch leads to |
| `AggregationWorker.BucketTable.BuildAggregatedRecords` | XhMonitor.Service/Workers/AggregationWorker.cs:400-431 | the records built are one per bucket, in sorted order, as the specification function describes |
| `AggregationWorker.FilterKeepsOrder` | XhMonitor.Service/Workers/AggregationWorker.cs:248-249 | the filtered rows keep the id order |
| `AggregationWorker.AfterSuffix` | XhMonitor.Service/Workers/AggregationWorker.cs:248-249 | in id order, the rows after a row's id are exactly the rows after it |
| `AggregationWorker.AfterRowsAppend` | XhMonitor.Service/Workers/AggregationWorker.cs:244-286 | merging two runs one after the other is merging their concatenation |
| `AggregationWorker.WindowStart` | XhMonitor.Service/Workers/AggregationWorker.cs:242-249 | every row of the window is after the initial last-seen id 0 |
| `AggregationWorker.NextRowsOfWindow` | XhMonitor.Service/Workers/AggregationWorker.cs:246-259 | the batch query reads at most the batch size of the window's rows after the last id seen |
| `AggregationWorker.NextBatch` | XhMonitor.Service/Workers/AggregationWorker.cs:244-286 | the next batch is the next slice of at most the batch size of the window, empty only when the window is used up |
| `AggregationWorker.BatchOfWindow` | XhMonitor.Service/Workers/AggregationWorker.cs:244-286 | in terms of the rows already read, the next batch is the window's next slice and is empty only at its end |
| `AggregationWorker.BatchStep` | XhMonitor.Service/Workers/AggregationWorker.cs:266-285 | merging the read prefix and then the next batch merges the longer prefix, and the batch's last id is the last one seen |
| `AggregationWorker.FillInBatches` | XhMonitor.Service/Workers/AggregationWorker.cs:241-286 | the batch loop merges exactly the window's rows, in id order, whatever the batch size |
| `AggregationWorker.AggregateInBatches` | XhMonitor.Service/Workers/AggregationWorker.cs:235-351 | the records of a pass are those of the window's rows merged into buckets |
| `AggregationWorker.RecordsFromRows` | XhMonitor.Service/Workers/AggregationWorker.cs:235-351 | every metric of every record is the merge, in id order, of exactly the samples of that metric in its bucket's rows, with the average |
| `AggregationWorker.PlanWindowCases` | XhMonitor.Service/Workers/AggregationWorker.cs:71-103 | nothing is aggregated once the watermark reaches the current bucket, or when there is neither a watermark nor data; the window ends at the current bucket and starts at the oldest data without a watermark; no row of the unfinished bucket is read |
| `AggregationWorker.WatermarkBucketReadAgain` | XhMonitor.Service/Workers/AggregationWorker.cs:91-97 | as written, a row one tick after the watermark bucket's start is in the window and falls into that bucket again |
| `AggregationWorker.NextBucket` | XhMonitor.Service/Workers/AggregationWorker.cs:480-495 | the bucket after b starts one length later, and b plus one tick is still in b |
| `AggregationWorker.PlanWindowReadsNewBuckets` | XhMonitor.Service/Workers/AggregationWorker.cs:71-119 | the corrected window reads exactly the rows of the finished buckets after the watermark's |
| `AggregationWorker.AfterBucket` | XhMonitor.Service/Workers/AggregationWorker.cs:480-495 | t is past the end of bucket b iff t's bucket is after b |
| `AggregationWorker.BeforeBucket` | XhMonitor.Service/Workers/AggregationWorker.cs:480-495 | t is before a bucket start iff t's bucket is |
| `AggregationWorker.Worker.constructor` | XhMonitor.Service/Workers/AggregationWorker.cs:27-37 | the batch size is the normalised setting, the default when absent, within [100, 50000] |
| `AggregationWorker.Worker.AggregateLevel` | XhMonitor.Service/Workers/AggregationWorker.cs:71-233 | one level of a cycle saves nothing when there is no window, and otherwise the records of the window's rows; the window is the corrected one that starts after the watermark's bucket (see Findings), not the one at lines 91-97 as written |
| `ConfigurationValidator.Step` | XhMonitor.Service/Configuration/ConfigurationValidator.cs:37-71 | one check adds its error exactly when it fails, and nothing else |
| `ConfigurationValidator.ErrorList.constructor` | XhMonitor.Service/Configuration/ConfigurationValidator.cs:16 | the error list starts empty |
| `ConfigurationValidator.ErrorList.Add` | XhMonitor.Service/Configuration/ConfigurationValidator.cs:40 | an error is appended at the end |
| `ConfigurationValidator.ErrorList.Check` | XhMonitor.Service/Configuration/ConfigurationValidator.cs:37-71 | a check appends its error iff it failed |
| `ConfigurationValidator.GetValueInt` | XhMonitor.Service/Configuration/ConfigurationValidator.cs:43-61 | a missing integer setting reads as the default 0; a present one reads only if it parses as a 32-bit integer, otherwise the read throws (no value) |
| `ConfigurationValidator.ReadAppSettings` | XhMonitor.Service/Configuration/ConfigurationValidator.cs:35-72 | the settings convert iff each of the three integer reads succeeds, and then carry the raw texts and the converted integers |
| `ConfigurationValidator.ErrorList.ValidateAppSettings` | XhMonitor.Service/Configuration/ConfigurationValidator.cs:35-72 | the checks append their errors in source order; `threw` holds exactly when a present port or interval text is not a 32-bit integer, and otherwise the appended errors are those of the six checks on the converted settings |
| `ConfigurationValidator.ErrorList.ValidateDatabaseSettings` | XhMonitor.Service/Configuration/ConfigurationValidator.cs:74-132 | a failed read appends one error naming the exception; an empty table one error and nothing more; otherwise the key loops' errors |
| `ConfigurationValidator.ErrorList.CheckRequiredKeys` | XhMonitor.Service/Configuration/ConfigurationValidator.cs:104-110 | each required key absent from the key set appends one error, in list order |
| `ConfigurationValidator.ErrorList.CheckDisallowedKeys` | XhMonitor.Service/Configuration/ConfigurationValidator.cs:120-126 | each disallowed key present in the key set appends one error, in list order |
| `ConfigurationValidator.Startup` | XhMonitor.Service/Configuration/ConfigurationValidator.cs:8-33 | start-up throws from the integer read iff a conversion fails, passes iff the settings convert and no error is found, and otherwise fails with exactly the recorded errors, never an empty list |
| `ConfigurationValidator.ValidateConfiguration` | XhMonitor.Service/Configuration/ConfigurationValidator.cs:8-33 | the outcome is `Startup`: a conversion throw escapes before the database is read or any error is logged; otherwise both checks run on a fresh list and start-up fails iff an error was recorded |
| `ConfigurationValidator.AppSettingsErrorsExact` | XhMonitor.Service/Configuration/ConfigurationValidator.cs:35-72 | each appsettings error is reported exactly when its value is blank or out of range (port outside 1-65535, intervals not positive), and no database error is |
| `ConfigurationValidator.ChecksMember` | XhMonitor.Service/Configuration/ConfigurationValidator.cs:35-72 | an error is in the six checks' list iff its check failed |
| `ConfigurationValidator.ChecksExact` | XhMonitor.Service/Configuration/ConfigurationValidator.cs:35-72 | the six checks' list has at most six errors, each present iff its check failed |
| `ConfigurationValidator.MissingPortIsError` | XhMonitor.Service/Configuration/ConfigurationValidator.cs:43-47 | a missing port reads as 0, which is reported as invalid and fails start-up |
| `ConfigurationValidator.NonNumericPortThrows` | XhMonitor.Service/Configuration/ConfigurationValidator.cs:43 | a port text `abc` makes the read throw, whatever the database holds |
| `ConfigurationValidator.OverflowingIntervalThrows` | XhMonitor.Service/Configuration/ConfigurationValidator.cs:55 | an interval text `99999999999`, beyond 32 bits, makes the read throw |
| `ConfigurationValidator.MissingKeysExact` | XhMonitor.Service/Configuration/ConfigurationValidator.cs:104-110 | a missing-setting error for a key is added iff the key is required and absent ignoring case; only such errors are added, at most one per required key, and none removed |
| `ConfigurationValidator.ConflictsExact` | XhMonitor.Service/Configuration/ConfigurationValidator.cs:120-126 | a conflict error for a key is added iff the key is disallowed and present ignoring case; only such errors are added, at most one per disallowed key |
| `ConfigurationValidator.EmptyTableSkipsKeyChecks` | XhMonitor.Service/Configuration/ConfigurationValidator.cs:86-90 | an empty table adds its one error after the appsettings errors and no per-key error |
| `ConfigurationValidator.DatabaseErrorsExact` | XhMonitor.Service/Configuration/ConfigurationValidator.cs:92-126 | for a non-empty table the errors are the required keys missing and the disallowed keys present, ignoring case, and nothing else |
| `ConfigurationValidator.KeyChecksExact` | XhMonitor.Service/Configuration/ConfigurationValidator.cs:104-126 | the two key loops together report the missing required keys and the present disallowed keys only |
| `ConfigurationValidator.CompleteConfigurationPasses` | XhMonitor.Service/Configuration/ConfigurationValidator.cs:8-133 | complete appsettings and a table with every required key and no disallowed one pass validation |
| `ConfigurationValidator.NoMissingKeys` | XhMonitor.Service/Configuration/ConfigurationValidator.cs:104-110 | when every required key is present, the required-key loop adds nothing |
| `ConfigurationValidator.NoConflicts` | XhMonitor.Service/Configuration/ConfigurationValidator.cs:120-126 | when no disallowed key is present, the disallowed-key loop adds nothing |
| `ConfigurationValidator.BadAppSettingsFail` | XhMonitor.Service/Configuration/ConfigurationValidator.cs:18-30 | start-up fails whenever an appsettings value is missing or invalid, whatever the database holds |
| `ConfigurationValidator.DatabaseOnlyAppends` | XhMonitor.Service/Configuration/ConfigurationValidator.cs:74-132 | the database check never removes an error already recorded |
| `FloatingWindowViewModel.PointerEnter` | XhMonitor.Desktop/ViewModels/FloatingWindowViewModel.cs:215-219 | hovering changes the panel only when collapsed, and then shows the details |
| `FloatingWindowViewModel.PointerLeave` | XhMonitor.Desktop/ViewModels/FloatingWindowViewModel.cs:221-225 | leaving changes the panel only when expanded, and then hides the details; a locked panel stays open |
| `FloatingWindowViewModel.BarClick` | XhMonitor.Desktop/ViewModels/FloatingWindowViewModel.cs:227-241 | a click changes the panel exactly when the details show, swapping expanded and locked, and never shows or hides them |
| `FloatingWindowViewModel.EnterClickthrough` | XhMonitor.Desktop/ViewModels/FloatingWindowViewModel.cs:243-247 | entering clickthrough remembers the current state, whatever it is |
| `FloatingWindowViewModel.ExitClickthrough` | XhMonitor.Desktop/ViewModels/FloatingWindowViewModel.cs:249-253 | leaving clickthrough restores the remembered state; outside clickthrough nothing changes |
| `FloatingWindowViewModel.HoverAndClickRoundTrips` | XhMonitor.Desktop/ViewModels/FloatingWindowViewModel.cs:215-241 | hovering in and out of a collapsed panel, out and in of an expanded one, or clicking twice, comes back to the start |
| `FloatingWindowViewModel.ClickthroughRoundTrip` | XhMonitor.Desktop/ViewModels/FloatingWindowViewModel.cs:243-253 | entering and leaving clickthrough from another state restores it |
| `FloatingWindowViewModel.ClickthroughEnteredTwiceIsSticky` | XhMonitor.Desktop/ViewModels/FloatingWindowViewModel.cs:243-253 | entering clickthrough twice forgets the earlier state, so leaving stays in clickthrough |
| `FloatingWindowViewModel.UpdateFrom` | XhMonitor.Desktop/ViewModels/FloatingWindowViewModel.cs:655-669 | non-empty names replace the row's; an empty display name falls back to the process name only when the row has none; the four metrics are taken, missing ones as 0; id and pin are kept |
| `FloatingWindowViewModel.NewRow` | XhMonitor.Desktop/ViewModels/FloatingWindowViewModel.cs:646-653 | a new row is unpinned, carries the process's metrics, and has a display name iff the process has a display or process name |
| `FloatingWindowViewModel.UpdateMetaFrom` | XhMonitor.Desktop/ViewModels/FloatingWindowViewModel.cs:671-681 | metadata renames the row, an empty display name always yielding to a non-empty process name; metrics and pin are untouched |
| `FloatingWindowViewModel.MetaRow` | XhMonitor.Desktop/ViewModels/FloatingWindowViewModel.cs:523-533 | the row metadata creates for an unknown process is unpinned and has no metrics |
| `FloatingWindowViewModel.Pids` | XhMonitor.Desktop/ViewModels/FloatingWindowViewModel.cs:497-499 | the ids of the processes, in order |
| `FloatingWindowViewModel.Upsert` | XhMonitor.Desktop/ViewModels/FloatingWindowViewModel.cs:500-509 | a process's row is updated or created, with its pin taken from the pinned set |
| `FloatingWindowViewModel.Upserted` | XhMonitor.Desktop/ViewModels/FloatingWindowViewModel.cs:497-510 | after the first loop the index has a row for every process on top of those already there |
| `FloatingWindowViewModel.UpsertedTakesLastEntry` | XhMonitor.Desktop/ViewModels/FloatingWindowViewModel.cs:497-510 | a process reported twice carries the metrics of its last entry |
| `FloatingWindowViewModel.UpsertedRows` | XhMonitor.Desktop/ViewModels/FloatingWindowViewModel.cs:497-510 | every reported process's row is pinned as the pinned set says, other rows are untouched, and rows stay under their ids |
| `FloatingWindowViewModel.SyncedIndex` | XhMonitor.Desktop/ViewModels/FloatingWindowViewModel.cs:493-517 | after syncing, the index holds exactly the reported processes, each pinned iff it stays in the pinned set, and rows stay under their ids |
| `FloatingWindowViewModel.MetaUpsert` | XhMonitor.Desktop/ViewModels/FloatingWindowViewModel.cs:521-538 | a known row keeps its pin and id; an unknown process gets an unpinned row under its id |
| `FloatingWindowViewModel.MetaSynced` | XhMonitor.Desktop/ViewModels/FloatingWindowViewModel.cs:519-539 | after metadata the index has a row for every listed process on top of those already there |
| `FloatingWindowViewModel.MetaSyncedSnoc` | XhMonitor.Desktop/ViewModels/FloatingWindowViewModel.cs:521-538 | one more metadata entry updates or adds only its own row |
| `FloatingWindowViewModel.MetaSyncedRows` | XhMonitor.Desktop/ViewModels/FloatingWindowViewModel.cs:519-539 | metadata never pins or unpins: old rows keep their pins and new rows are unpinned |
| `FloatingWindowViewModel.Toggle` | XhMonitor.Desktop/ViewModels/FloatingWindowViewModel.cs:259-265 | toggling flips only that process's membership of the pinned set |
| `FloatingWindowViewModel.InsertByFootprint` | XhMonitor.Desktop/ViewModels/FloatingWindowViewModel.cs:470 | inserting a row into the ordering adds exactly that row |
| `FloatingWindowViewModel.InsertByFootprintSorted` | XhMonitor.Desktop/ViewModels/FloatingWindowViewModel.cs:470 | inserting into a list sorted by descending footprint keeps it sorted |
| `FloatingWindowViewModel.OrderByFootprint` | XhMonitor.Desktop/ViewModels/FloatingWindowViewModel.cs:468-471 | the ordering is a permutation of the rows |
| `FloatingWindowViewModel.OrderByFootprintSorted` | XhMonitor.Desktop/ViewModels/FloatingWindowViewModel.cs:468-471 | the ordering puts larger Memory + Vram first |
| `FloatingWindowViewModel.Top` | XhMonitor.Desktop/ViewModels/FloatingWindowViewModel.cs:473 | the top list is the first five of the ordering, or all of it when shorter |
| `FloatingWindowViewModel.TopHoldsLargest` | XhMonitor.Desktop/ViewModels/FloatingWindowViewModel.cs:468-473 | no row left out of the top five has a larger footprint than one kept |
| `FloatingWindowViewModel.OrderedHaveNoDuplicates` | XhMonitor.Desktop/ViewModels/FloatingWindowViewModel.cs:468-473 | ordering and taking the top five keep distinct rows distinct |
| `FloatingWindowViewModel.NormalizeProcessRefreshIntervalMs` | XhMonitor.Desktop/ViewModels/FloatingWindowViewModel.cs:480-488 | the interval is always within [16, 2000] ms: non-positive takes 150, the rest are clamped, in-range ones kept |
| `FloatingWindowViewModel.PlacedAlready` | XhMonitor.Desktop/ViewModels/FloatingWindowViewModel.cs:563-566 | an item already in place extends the placed prefix |
| `FloatingWindowViewModel.MoveForward` | XhMonitor.Desktop/ViewModels/FloatingWindowViewModel.cs:567-569 | moving a later item to i leaves the first i items alone |
| `FloatingWindowViewModel.MoveKeepsItems` | XhMonitor.Desktop/ViewModels/FloatingWindowViewModel.cs:569 | a move keeps the same items, so no duplicate appears |
| `FloatingWindowViewModel.PlacedByMove` | XhMonitor.Desktop/ViewModels/FloatingWindowViewModel.cs:567-569 | the desired item found further on is moved into place |
| `FloatingWindowViewModel.PlacedByInsert` | XhMonitor.Desktop/ViewModels/FloatingWindowViewModel.cs:570-571 | a desired item not yet present is inserted in place |
| `FloatingWindowViewModel.PlacedByAdd` | XhMonitor.Desktop/ViewModels/FloatingWindowViewModel.cs:574-577 | past the end, the desired item is appended |
| `FloatingWindowViewModel.NothingBeyondPrefix` | XhMonitor.Desktop/ViewModels/FloatingWindowViewModel.cs:552-578 | a list without duplicates all of whose items occur in its first n has length n |
| `FloatingWindowViewModel.PlacedAll` | XhMonitor.Desktop/ViewModels/FloatingWindowViewModel.cs:560-578 | once every desired item is in place nothing else is left |
| `FloatingWindowViewModel.RemovalKeepsNoDuplicates` | XhMonitor.Desktop/ViewModels/FloatingWindowViewModel.cs:554-558 | removing an item keeps the list free of duplicates |
| `FloatingWindowViewModel.SyncCollectionOrder` | XhMonitor.Desktop/ViewModels/FloatingWindowViewModel.cs:550-579 | when neither list repeats an item, the collection ends up equal to the desired list |
| `FloatingWindowViewModel.UpsertedSnoc` | XhMonitor.Desktop/ViewModels/FloatingWindowViewModel.cs:497-510 | one more process of the first loop adds its id to the seen set and updates or adds only its row |
| `FloatingWindowViewModel.UpsertRows` | XhMonitor.Desktop/ViewModels/FloatingWindowViewModel.cs:495-510 | the first loop yields the upserted index and the set of ids seen |
| `FloatingWindowViewModel.DropStale` | XhMonitor.Desktop/ViewModels/FloatingWindowViewModel.cs:512-516 | the second loop removes the stale ids from both the index and the pinned set |
| `FloatingWindowViewModel.MetaRows` | XhMonitor.Desktop/ViewModels/FloatingWindowViewModel.cs:519-539 | the metadata loop yields the index the specification function describes |
| `FloatingWindowViewModel.ViewModel.constructor` | XhMonitor.Desktop/ViewModels/FloatingWindowViewModel.cs:178-213 | the panel starts collapsed with nothing indexed, pinned or pending, the timer stopped, and the interval normalised |
| `FloatingWindowViewModel.ViewModel.OnBarPointerEnter` | XhMonitor.Desktop/ViewModels/FloatingWindowViewModel.cs:215-219 | the panel moves as hovering says and nothing else changes |
| `FloatingWindowViewModel.ViewModel.OnBarPointerLeave` | XhMonitor.Desktop/ViewModels/FloatingWindowViewModel.cs:221-225 | the panel moves as leaving says and nothing else changes |
| `FloatingWindowViewModel.ViewModel.OnBarClick` | XhMonitor.Desktop/ViewModels/FloatingWindowViewModel.cs:227-241 | the panel moves as a click says and nothing else changes |
| `FloatingWindowViewModel.ViewModel.EnterClickthroughMode` | XhMonitor.Desktop/ViewModels/FloatingWindowViewModel.cs:243-247 | the panel enters clickthrough remembering its state, and nothing else changes |
| `FloatingWindowViewModel.ViewModel.ExitClickthroughMode` | XhMonitor.Desktop/ViewModels/FloatingWindowViewModel.cs:249-253 | the panel leaves clickthrough to the remembered state, and nothing else changes |
| `FloatingWindowViewModel.ViewModel.PinnedRows` | XhMonitor.Desktop/ViewModels/FloatingWindowViewModel.cs:543-546 | the pinned rows are exactly the pinned processes that have rows, each once |
| `FloatingWindowViewModel.ViewModel.SyncPinnedCollection` | XhMonitor.Desktop/ViewModels/FloatingWindowViewModel.cs:541-548 | the pinned collection shows each pinned process that has a row, once |
| `FloatingWindowViewModel.ViewModel.TogglePin` | XhMonitor.Desktop/ViewModels/FloatingWindowViewModel.cs:255-267 | no row, no change; otherwise the id's membership of the pinned set flips, its row's pin matches it, and the pinned collection is resynced |
| `FloatingWindowViewModel.ViewModel.SyncProcessIndex` | XhMonitor.Desktop/ViewModels/FloatingWindowViewModel.cs:493-517 | the index and pins become the synced ones: rows for the reported processes, stale rows and their pins dropped |
| `FloatingWindowViewModel.ViewModel.SyncProcessMeta` | XhMonitor.Desktop/ViewModels/FloatingWindowViewModel.cs:519-539 | unknown processes get metric-less rows and known ones are renamed; pins are untouched |
| `FloatingWindowViewModel.ViewModel.ApplyPendingProcessRefresh` | XhMonitor.Desktop/ViewModels/FloatingWindowViewModel.cs:455-478 | nothing pending, nothing changes; otherwise the snapshot is taken, the refresh time stamped, the index synced, and the all, top and pinned collections put in order |
| `FloatingWindowViewModel.ViewModel.SyncCollections` | XhMonitor.Desktop/ViewModels/FloatingWindowViewModel.cs:468-477 | the all and top collections show the snapshot by descending footprint and the pinned collection the pinned rows |
| `FloatingWindowViewModel.ViewModel.SyncOrderedCollections` | XhMonitor.Desktop/ViewModels/FloatingWindowViewModel.cs:468-476 | the all collection holds the snapshot's rows by descending footprint and the top collection its first five |
| `FloatingWindowViewModel.ViewModel.QueueProcessRefresh` | XhMonitor.Desktop/ViewModels/FloatingWindowViewModel.cs:409-431 | without throttling, or once the interval has passed, the snapshot is applied at once; otherwise it is left pending with the timer running |
| `FloatingWindowViewModel.ViewModel.OnProcessRefreshTimerTick` | XhMonitor.Desktop/ViewModels/FloatingWindowViewModel.cs:433-453 | nothing pending stops the timer and changes nothing else; before the interval has passed the timer keeps running and the pending snapshot, refresh time, index, pins and all three collections are unchanged; otherwise the pending snapshot is applied, the refresh time stamped, the index and pins synced to it, the timer stopped, and a tidy panel stays tidy and shows the snapshot with every pinned process; the panel state never changes |
| `TaskbarMetricsViewModel.NormalizeInlineText` | XhMonitor.Desktop/ViewModels/TaskbarMetricsViewModel.cs:780-783 | null text is empty, and the result never has white space at either end |
| `TaskbarMetricsViewModel.TrimOfTrimmed` | XhMonitor.Desktop/ViewModels/TaskbarMetricsViewModel.cs:780-783 | trimming text without white space at its ends changes nothing |
| `TaskbarMetricsViewModel.NormalizeInlineTextIdempotent` | XhMonitor.Desktop/ViewModels/TaskbarMetricsViewModel.cs:780-783 | normalising normalised text changes nothing |
| `TaskbarMetricsViewModel.WithoutSpaces` | XhMonitor.Desktop/ViewModels/TaskbarMetricsViewModel.cs:858 | removing spaces leaves no space and never lengthens the text |
| `TaskbarMetricsViewModel.WithoutSpacesOfConcat` | XhMonitor.Desktop/ViewModels/TaskbarMetricsViewModel.cs:858 | removing spaces distributes over concatenation |
| `TaskbarMetricsViewModel.WithoutSpacesOfSpaceless` | XhMonitor.Desktop/ViewModels/TaskbarMetricsViewModel.cs:858 | text without spaces is left as it is |
| `TaskbarMetricsViewModel.NormalizeVerticalValue` | XhMonitor.Desktop/ViewModels/TaskbarMetricsViewModel.cs:851-865 | the upright value has no space and is the space-free text less exactly two characters when that ends in "/s" in any case, else the space-free text itself |
| `TaskbarMetricsViewModel.WithoutSpacesAroundOne` | XhMonitor.Desktop/ViewModels/TaskbarMetricsViewModel.cs:858 | "a rest" loses only its one space |
| `TaskbarMetricsViewModel.VerticalValueOfRate` | XhMonitor.Desktop/ViewModels/TaskbarMetricsViewModel.cs:851-865 | a rate "a b/s" stacks as "ab" |
| `TaskbarMetricsViewModel.WithoutLineBreaks` | XhMonitor.Desktop/ViewModels/TaskbarMetricsViewModel.cs:773-776 | the characters kept contain no CR or LF |
| `TaskbarMetricsViewModel.JoinLines` | XhMonitor.Desktop/ViewModels/TaskbarMetricsViewModel.cs:777 | joining n characters with line feeds gives 2n - 1 characters, none for none |
| `TaskbarMetricsViewModel.JoinLinesRoundTrip` | XhMonitor.Desktop/ViewModels/TaskbarMetricsViewModel.cs:773-777 | reading the even positions of the joined text gives the characters back |
| `TaskbarMetricsViewModel.JoinLinesAlternates` | XhMonitor.Desktop/ViewModels/TaskbarMetricsViewModel.cs:773-777 | the joined text alternates the characters with line feeds |
| `TaskbarMetricsViewModel.BuildDisplayText` | XhMonitor.Desktop/ViewModels/TaskbarMetricsViewModel.cs:760-778 | inline text is only normalised; upright text is normalised and stripped of spaces and "/s", and with more than one character besides CR and LF it is those characters one per line |
| `TaskbarMetricsViewModel.BuildInlineLabelWithUnit` | XhMonitor.Desktop/ViewModels/TaskbarMetricsViewModel.cs:600-615 | the label and the unit separated by one space, or whichever of the two is not empty after normalisation |
| `TaskbarMetricsViewModel.InlineLabelIsNormal` | XhMonitor.Desktop/ViewModels/TaskbarMetricsViewModel.cs:600-615 | the combined label is itself normalised text |
| `TaskbarMetricsViewModel.JoinedIsTrimmed` | XhMonitor.Desktop/ViewModels/TaskbarMetricsViewModel.cs:614 | two trimmed non-empty words joined by a space are trimmed |
| `TaskbarMetricsViewModel.InlineLabelWords` | XhMonitor.Desktop/ViewModels/TaskbarMetricsViewModel.cs:600-615 | a non-empty label and unit are the first and last words of the combined text |
| `TaskbarMetricsViewModel.DigitRun` | XhMonitor.Desktop/ViewModels/TaskbarMetricsViewModel.cs:75-77 | the digit run from i is made of digits and stops at the first non-digit |
| `TaskbarMetricsViewModel.SignLength` | XhMonitor.Desktop/ViewModels/TaskbarMetricsViewModel.cs:75-77 | the optional sign is no longer than the text |
| `TaskbarMetricsViewModel.NumberPrefixLength` | XhMonitor.Desktop/ViewModels/TaskbarMetricsViewModel.cs:75-77 | the greedy numeric prefix is no longer than the text |
| `TaskbarMetricsViewModel.DigitRunCovers` | XhMonitor.Desktop/ViewModels/TaskbarMetricsViewModel.cs:75-77 | the digit run reaches at least as far as any run of digits from i |
| `TaskbarMetricsViewModel.NumberPrefixIsLiteral` | XhMonitor.Desktop/ViewModels/TaskbarMetricsViewModel.cs:75-77 | the greedy prefix, when not empty, is a number literal of the pattern's form |
| `TaskbarMetricsViewModel.LiteralPrefixBody` | XhMonitor.Desktop/ViewModels/TaskbarMetricsViewModel.cs:75-77 | a literal prefix less its sign is an unsigned number |
| `TaskbarMetricsViewModel.NumberPrefixIsLongest` | XhMonitor.Desktop/ViewModels/TaskbarMetricsViewModel.cs:75-77 | no longer prefix is a number literal |
| `TaskbarMetricsViewModel.NumberPrefixCoversLiterals` | XhMonitor.Desktop/ViewModels/TaskbarMetricsViewModel.cs:75-77 | the greedy prefix is at least as long as every number literal starting the text |
| `TaskbarMetricsViewModel.MatchNumericPrefix` | XhMonitor.Desktop/ViewModels/TaskbarMetricsViewModel.cs:75-77 | a match splits the text into a number literal and a suffix without line feeds, the text possibly ending in one more line feed; no match means no numeric prefix or a line feed elsewhere in the rest |
| `TaskbarMetricsViewModel.ExtractLeadingNumber` | XhMonitor.Desktop/ViewModels/TaskbarMetricsViewModel.cs:808-818 | the matched number, which starts the normalised text, or the whole normalised text when there is no match |
| `TaskbarMetricsViewModel.ExtractUnitToken` | XhMonitor.Desktop/ViewModels/TaskbarMetricsViewModel.cs:820-849 | at most one character: the first letter or '%' of the suffix after the number, upper-cased, else empty |
| `TaskbarMetricsViewModel.BlankHasNoUnit` | XhMonitor.Desktop/ViewModels/TaskbarMetricsViewModel.cs:835-838 | a blank suffix has no unit character |
| `TaskbarMetricsViewModel.ValueWithUnitRoundTrip` | XhMonitor.Desktop/ViewModels/TaskbarMetricsViewModel.cs:808-849 | a number followed by its unit reads back as that number and the unit's first character upper-cased |
| `TaskbarMetricsViewModel.GreedyStopsAfter` | XhMonitor.Desktop/ViewModels/TaskbarMetricsViewModel.cs:75-77 | a literal followed by a character that cannot extend it is the whole greedy match |
| `TaskbarMetricsViewModel.LiteralCharacters` | XhMonitor.Desktop/ViewModels/TaskbarMetricsViewModel.cs:75-77 | a number literal is digits and '.', with a sign only in front |
| `TaskbarMetricsViewModel.ResolveGap` | XhMonitor.Desktop/ViewModels/TaskbarMetricsViewModel.cs:399-408 | the gap is the configured one within (0, 24], 24 when larger, and 8 stacked or 12 side by side when not positive |
| `TaskbarMetricsViewModel.ResolveGapOfClamped` | XhMonitor.Desktop/ViewModels/TaskbarMetricsViewModel.cs:399-408 | a gap the settings already clamped resolves the same |
| `TaskbarMetricsViewModel.ClampPercent` | XhMonitor.Desktop/ViewModels/TaskbarMetricsViewModel.cs:529-537 | NaN and infinities give 0, anything else is clamped into [0, 100] |
| `TaskbarMetricsViewModel.CalculateUsagePercent` | XhMonitor.Desktop/ViewModels/TaskbarMetricsViewModel.cs:539-552 | current over maximum as a percentage in [0, 100]; 0 for an unusable reading or a non-positive maximum; 100 at or over the maximum |
| `TaskbarMetricsViewModel.UsagePercentMonotone` | XhMonitor.Desktop/ViewModels/TaskbarMetricsViewModel.cs:539-552 | more usage never shows a smaller percentage |
| `TaskbarMetricsViewModel.CalculateBarFillLength` | XhMonitor.Desktop/ViewModels/TaskbarMetricsViewModel.cs:680-691 | the fill is within the 32 or 40 pixel track, 0 exactly when nothing is used, full at 100%, and never below the exact share |
| `TaskbarMetricsViewModel.BarFillMonotone` | XhMonitor.Desktop/ViewModels/TaskbarMetricsViewModel.cs:680-691 | a fuller bar is never drawn shorter |
| `TaskbarMetricsViewModel.MetricColumn.constructor` | XhMonitor.Desktop/Models/TaskbarMetricColumn.cs:7 | a column holds the values it is built with |
| `TaskbarMetricsViewModel.TailRemovals` | XhMonitor.Desktop/ViewModels/TaskbarMetricsViewModel.cs:897-903 | one removal per column past the desired count |
| `TaskbarMetricsViewModel.SyncColumns` | XhMonitor.Desktop/ViewModels/TaskbarMetricsViewModel.cs:895-930 | the collection ends with exactly the desired count, each column with the desired values, the columns already there kept as objects and the rest appended; the removals run from the back |
| `TaskbarMetricsViewModel.RemoveTail` | XhMonitor.Desktop/ViewModels/TaskbarMetricsViewModel.cs:897-903 | the first loop keeps exactly the columns below the desired count, removing the rest from the back |
| `TaskbarMetricsViewModel.SyncKept` | XhMonitor.Desktop/ViewModels/TaskbarMetricsViewModel.cs:905-929 | the second loop overwrites the kept columns' values and appends the desired columns beyond them |
| `TaskbarMetricsViewModel.CopyFields` | XhMonitor.Desktop/ViewModels/TaskbarMetricsViewModel.cs:913-928 | each kept column takes the values of the desired column at its position |
| `TaskbarMetricsViewModel.AppendColumns` | XhMonitor.Desktop/ViewModels/TaskbarMetricsViewModel.cs:907-911 | the desired columns without counterpart are appended in order |
| `FloatingWindow.PlacePopup` | XhMonitor.Desktop/FloatingWindow.xaml.cs:105-158 | the details popup is centred on the bar; it opens above when the room above fits it plus the 8-pixel gap, else below when the room below does, else towards the side with strictly more room |
| `FloatingWindow.PopupSideIsBest` | XhMonitor.Desktop/FloatingWindow.xaml.cs:130-158 | the chosen side fits the popup whenever either side does, and otherwise has at least as much room as the other |
| `FloatingWindow.PinnedStackRow` | XhMonitor.Desktop/FloatingWindow.xaml.cs:169-177 | the pinned stack goes in grid row 0 exactly when the popup opens above, else row 2 |
| `FloatingWindow.ResetAxis` | XhMonitor.Desktop/FloatingWindow.xaml.cs:1155-1166 | the coordinate either stays or becomes the clamped one; it ends within half a pixel of the clamped value and only moves when the move exceeds half a pixel |
| `FloatingWindow.ResetAxisIdempotent` | XhMonitor.Desktop/FloatingWindow.xaml.cs:1144-1167 | resetting a second time leaves the window where the first reset put it |
| `FloatingWindow.ResetAxisKeepsInRange` | XhMonitor.Desktop/FloatingWindow.xaml.cs:1155-1166 | a window inside the allowed range, or less than half a pixel outside it, does not move |
| `FloatingWindow.ResetIntoWorkingArea` | XhMonitor.Desktop/FloatingWindow.xaml.cs:1144-1167 | the size is kept and each axis is reset on its own against the working area minus the effective window size |
| `FloatingWindow.ResetFitsWithinHalfPixel` | XhMonitor.Desktop/FloatingWindow.xaml.cs:1144-1177 | a window that fits the working area ends inside it up to half a pixel on every side |
| `FloatingWindow.PlaceOnAxis` | XhMonitor.Desktop/FloatingWindow.xaml.cs:1011-1012 | the restored coordinate is never before the virtual screen's start, ends before its end when the window fits, and keeps a placement that is already on screen |
| `FloatingWindow.ActivatedSides` | XhMonitor.Desktop/FloatingWindow.xaml.cs:1071-1075 | a side is listed exactly when no taskbar sits there and the window is half out past it, near it, or the cursor is near it; at most four sides |
| `FloatingWindow.TriggerIffSomeSide` | XhMonitor.Desktop/FloatingWindow.xaml.cs:1047-1078 | the combined half-out, near-edge and cursor triggers fire exactly when some side is activated, that is when the side list is not empty |
| `FloatingWindow.TaskbarSideNeverActivates` | XhMonitor.Desktop/FloatingWindow.xaml.cs:1028-1032 | a side that holds a taskbar is never activated, however far the window or the cursor went past it |
| `FloatingWindow.TryActivateEdgeDock` | XhMonitor.Desktop/FloatingWindow.xaml.cs:1089-1107 | no trigger gives "not triggered"; a trigger with no window management service gives "unavailable"; the switch happens exactly when the service accepts, and then with the non-empty side list |
| `FloatingWindow.ThresholdBounds` | XhMonitor.Desktop/FloatingWindow.xaml.cs:409-414 | a move of more than 5 pixels along one axis always starts a drag, and a move that starts one covers more than 5 pixels in total |
| `FloatingWindow.PressFlags` | XhMonitor.Desktop/FloatingWindow.xaml.cs:379-400 | a left press clears the dragging flag and keeps the release flag; on a metric it restarts the long press untriggered |
| `FloatingWindow.LongPressFlags` | XhMonitor.Desktop/FloatingWindow.xaml.cs:544-556 | the long-press tick marks the long press triggered and stops its timer |
| `FloatingWindow.ReleaseFlags` | XhMonitor.Desktop/FloatingWindow.xaml.cs:1110-1119 | a release without a drag changes nothing; after a drag, dragging ends, the release is marked handled and the long-press timer stops |
| `FloatingWindow.MouseUpOutcomeOf` | XhMonitor.Desktop/FloatingWindow.xaml.cs:439-493 | a bar click happens only for a left release with no pending release flag, no drag and no triggered long press; a pending release flag always swallows the mouse-up |
| `FloatingWindow.MouseUpFlags` | XhMonitor.Desktop/FloatingWindow.xaml.cs:439-493 | each outcome's flags: a swallowed release clears the release flag, a drag release applies the release flags, a consumed long press clears it, a click stops the long-press timer, another button changes nothing |
| `FloatingWindow.SwallowedOnce` | XhMonitor.Desktop/FloatingWindow.xaml.cs:445-451 | after a drag release the next left mouse-up is swallowed and the one after it is not |
| `FloatingWindow.PressKeepsReleaseFlag` | XhMonitor.Desktop/FloatingWindow.xaml.cs:379-386 | a press after a drag release keeps the release flag, so its own mouse-up is the one swallowed |
| `FloatingWindow.LongPressSuppressesOneClick` | XhMonitor.Desktop/FloatingWindow.xaml.cs:461-489 | a triggered long press consumes exactly one mouse-up, and the next one is a bar click again |
| `FloatingWindow.FloatingWindow.constructor` | XhMonitor.Desktop/FloatingWindow.xaml.cs:80-103 | a new window has its given bounds, all drag flags cleared and the pinned stack below the bar |
| `FloatingWindow.FloatingWindow.PlaceDetailsPopup` | XhMonitor.Desktop/FloatingWindow.xaml.cs:105-185 | returns the popup placement computed from the window's top and actual height and records its side and the pinned stack's row |
| `FloatingWindow.FloatingWindow.ApplyPlacement` | XhMonitor.Desktop/FloatingWindow.xaml.cs:1004-1018 | the stored placement's size is applied and its position clamped into the virtual screen on each axis |
| `FloatingWindow.FloatingWindow.ResetToNearestNonTaskbarOverlap` | XhMonitor.Desktop/FloatingWindow.xaml.cs:1144-1167 | the window box becomes the reset of the old box into the working area |
| `FloatingWindow.FloatingWindow.HandleWindowDragReleased` | XhMonitor.Desktop/FloatingWindow.xaml.cs:1110-1128 | without a drag nothing changes; after a drag the flags are released, the edge dock is tried, and a window that does not switch is pulled into the working area of the screen under the cursor while one that switches stays put |
| `FloatingWindow.FloatingWindow.MonitorBarMouseDown` | XhMonitor.Desktop/FloatingWindow.xaml.cs:379-400 | a non-left press changes nothing; a left press records the start point and applies the press flags |
| `FloatingWindow.FloatingWindow.LongPressElapsed` | XhMonitor.Desktop/FloatingWindow.xaml.cs:544-559 | the long-press timer's tick applies the long-press flags |
| `FloatingWindow.FloatingWindow.MonitorBarMouseMove` | XhMonitor.Desktop/FloatingWindow.xaml.cs:403-436 | a drag starts exactly with the left button held, no drag under way and a move beyond the threshold; a failed drag only stops the long press, a completed one is released at once and leaves the release flag set |
| `FloatingWindow.FloatingWindow.MonitorBarMouseUp` | XhMonitor.Desktop/FloatingWindow.xaml.cs:439-493 | returns the outcome of the flags before the release, applies its flags, and moves the window only for a drag release |
| `FloatingWindow.KillInitialIsValid` | XhMonitor.Desktop/FloatingWindow.xaml.cs:727-750 | a freshly shown row's kill button satisfies the button invariant |
| `FloatingWindow.KillStepPreservesInvariant` | XhMonitor.Desktop/FloatingWindow.xaml.cs:727-896 | with the countdown stopped on the confirming click, every handler and timer keeps the invariant: confirming exactly while the countdown runs, killing exactly while the reset timer runs, and disabled, shown and spinning while killing |
| `FloatingWindow.ClicksWhileKillingIgnored` | XhMonitor.Desktop/FloatingWindow.xaml.cs:760-767 | a click while killing changes nothing and does not ask for a second kill, in both the corrected and the as-written handlers |
| `FloatingWindow.TwoClicksKill` | XhMonitor.Desktop/FloatingWindow.xaml.cs:769-875 | the first click on a shown button only confirms; the second click asks for the kill and moves the tag to killing |
| `FloatingWindow.KillingHeldUntilReset` | XhMonitor.Desktop/FloatingWindow.xaml.cs:772-817 | with the countdown stopped, a killing button stays unchanged under every event except the reset timer's tick |
| `FloatingWindow.CountdownClearsKillingAsWritten` | XhMonitor.Desktop/FloatingWindow.xaml.cs:772-779 | as written, enter, click, click, countdown tick, leave leaves a spinning, hidden button with no tag while the reset timer still runs, which breaks the invariant |
| `FloatingWindow.KillButton.constructor` | XhMonitor.Desktop/FloatingWindow.xaml.cs:727-737 | a new button is in the initial state |
| `FloatingWindow.KillButton.Set` | XhMonitor.Desktop/FloatingWindow.xaml.cs:752-896 | the button's fields become the given state |
| `FloatingWindow.KillButton.RowMouseEnter` | XhMonitor.Desktop/FloatingWindow.xaml.cs:727-737 | entering the row applies the row-enter step |
| `FloatingWindow.KillButton.RowMouseLeave` | XhMonitor.Desktop/FloatingWindow.xaml.cs:739-750 | leaving the row applies the row-leave step |
| `FloatingWindow.KillButton.MouseEnter` | XhMonitor.Desktop/FloatingWindow.xaml.cs:880-887 | entering the button applies the button-enter step |
| `FloatingWindow.KillButton.MouseLeave` | XhMonitor.Desktop/FloatingWindow.xaml.cs:889-896 | leaving the button applies the button-leave step |
| `FloatingWindow.KillButton.Clicked` | XhMonitor.Desktop/FloatingWindow.xaml.cs:752-878 | a click applies the click step and raises the kill request for the row's process exactly when the button was confirming; the step is the corrected one that stops the countdown before marking the button as killing (see Findings), not lines 772-779 as written |
| `FloatingWindow.KillButton.CountdownTick` | XhMonitor.Desktop/FloatingWindow.xaml.cs:859-873 | the countdown's tick applies the countdown step |
| `FloatingWindow.KillButton.ResetTick` | XhMonitor.Desktop/FloatingWindow.xaml.cs:809-816 | the reset timer's tick applies the reset step |
| `WindowGeometry.EffectiveBox` | XhMonitor.Desktop/FloatingWindow.xaml.cs:1039-1040 | the box keeps the window's position and takes, on each axis, the larger of the requested and the laid-out size |
| `WindowGeometry.ClampToRange` | XhMonitor.Desktop/FloatingWindow.xaml.cs:1169-1177 | an empty range gives its minimum; otherwise the result lies in the range, equals an input already inside it, and is the nearer bound for one outside |
| `WindowGeometry.ClampToRangeIsNearest` | XhMonitor.Desktop/FloatingWindow.xaml.cs:1169-1177 | over a non-empty range the clamped value is at least as close to the input as any point of the range |
| `WindowGeometry.ClampToRangeIdempotent` | XhMonitor.Desktop/FloatingWindow.xaml.cs:1169-1177 | clamping a clamped value again changes nothing |
| `WindowGeometry.ClampToRangeMonotone` | XhMonitor.Desktop/FloatingWindow.xaml.cs:1169-1177 | clamping keeps the order of two inputs |
| `WindowGeometry.Overflow` | XhMonitor.Desktop/FloatingWindow.xaml.cs:1042-1045 | the overflow past an edge is never negative and is positive exactly when the box crosses that edge |
| `WindowGeometry.EdgeDistance` | XhMonitor.Desktop/FloatingWindow.xaml.cs:1053-1056 | the distance between the box's edge and the screen's is never negative |
| `WindowGeometry.CursorDistance` | XhMonitor.Desktop/FloatingWindow.xaml.cs:1065-1068 | the distance between the cursor and a screen edge is never negative |
| `WindowGeometry.InsideIsNotHalfOut` | XhMonitor.Desktop/FloatingWindow.xaml.cs:1042-1050 | a box inside the screen that is not empty across a side is not half out past that side |
| `Utf8.EncodeChar` | XhMonitor.Desktop/Services/WebServerService.cs:390 | one scalar value becomes one to four bytes, as many as RFC 3629 assigns to its code point |
| `Utf8.Encode` | XhMonitor.Desktop/Services/WebServerService.cs:390 | a string becomes at least one and at most four bytes per character, and only the empty string encodes to no bytes |
| `Utf8.DecodeChar` | XhMonitor.Desktop/Services/WebServerService.cs:390 | a decoded character consumes between one byte and the whole input |
| `Utf8.DecodeEncodeChar` | XhMonitor.Desktop/Services/WebServerService.cs:390 | decoding the front of one character's encoding gives that character and its length, whatever follows |
| `Utf8.DecodeEncode` | XhMonitor.Desktop/Services/WebServerService.cs:390 | decoding a string's UTF-8 encoding gives the string back |
| `Utf8.EncodeInjective` | XhMonitor.Desktop/Services/WebServerService.cs:383-393 | two strings have the same UTF-8 bytes exactly when they are equal, so comparing key bytes compares the keys |
| `TaskbarMetricsWindow.MinDistance` | XhMonitor.Desktop/Windows/TaskbarMetricsWindow.xaml.cs:345 | the smallest distance is at most every side's distance and is one of them |
| `TaskbarMetricsWindow.NearestSide` | XhMonitor.Desktop/Windows/TaskbarMetricsWindow.xaml.cs:334-362 | the chosen side's distance is within 0.01 of the smallest, and every side tried before it (left, right, top in that order) is not |
| `TaskbarMetricsWindow.ClearlyNearestIsChosen` | XhMonitor.Desktop/Windows/TaskbarMetricsWindow.xaml.cs:334-362 | a side nearer than every other by at least 0.01 is the one chosen |
| `TaskbarMetricsWindow.WindowDistances` | XhMonitor.Desktop/Windows/TaskbarMetricsWindow.xaml.cs:336-343 | each side's distance is the effective window's distance to that edge of the working area |
| `TaskbarMetricsWindow.CursorDistances` | XhMonitor.Desktop/Windows/TaskbarMetricsWindow.xaml.cs:364-372 | each side's distance is the cursor's distance to that edge of the working area |
| `TaskbarMetricsWindow.AutoSnapSide` | XhMonitor.Desktop/Windows/TaskbarMetricsWindow.xaml.cs:301-332 | the window snaps exactly when its nearest working-area edge is within 80 pixels or it is at least half off the screen bounds on some side, and then to the nearest side |
| `TaskbarMetricsWindow.FarInsideStaysFloating` | XhMonitor.Desktop/Windows/TaskbarMetricsWindow.xaml.cs:301-332 | a non-empty window inside the screen and more than 80 pixels from every working-area edge does not snap |
| `TaskbarMetricsWindow.WindowWidth` | XhMonitor.Desktop/Windows/TaskbarMetricsWindow.xaml.cs:439-451 | docked left or right, the width lies in [14, 24] and keeps a measured width already in it; otherwise it is at least 88 and keeps a measured width of at least 88 |
| `TaskbarMetricsWindow.WindowHeight` | XhMonitor.Desktop/Windows/TaskbarMetricsWindow.xaml.cs:439-451 | the height is at least 20 and keeps a measured height of at least 20 |
| `TaskbarMetricsWindow.ResetInto` | XhMonitor.Desktop/Windows/TaskbarMetricsWindow.xaml.cs:522-535 | resetting moves the window only; its requested and laid-out sizes are kept |
| `TaskbarMetricsWindow.ResetIntoFits` | XhMonitor.Desktop/Windows/TaskbarMetricsWindow.xaml.cs:522-535 | a window that fits the working area lies inside it after the reset, and one already inside does not move |
| `TaskbarMetricsWindow.PinToEdge` | XhMonitor.Desktop/Windows/TaskbarMetricsWindow.xaml.cs:401-425 | pinning to an edge moves the window only; its sizes are kept |
| `TaskbarMetricsWindow.DockedFrame` | XhMonitor.Desktop/Windows/TaskbarMetricsWindow.xaml.cs:393-427 | the docked frame has the docked width and height for that side and keeps the laid-out size |
| `TaskbarMetricsWindow.DockPinsEdge` | XhMonitor.Desktop/Windows/TaskbarMetricsWindow.xaml.cs:393-427 | once layout has caught up and the docked size fits the working area, the window is flush with the chosen edge and inside the working area |
| `TaskbarMetricsWindow.Docked` | XhMonitor.Desktop/Windows/TaskbarMetricsWindow.xaml.cs:393-429 | docking records the side and the docked look, sets the presentation to that side docked, gives the docked frame measured in that presentation and leaves the drag alone |
| `TaskbarMetricsWindow.Floating` | XhMonitor.Desktop/Windows/TaskbarMetricsWindow.xaml.cs:431-437 | the floating placement presents the current side undocked with the floating width and height measured in that presentation and keeps the placement and the drag |
| `TaskbarMetricsWindow.Undocking` | XhMonitor.Desktop/Windows/TaskbarMetricsWindow.xaml.cs:235-245 | a pressed docked window turns floating and presents its side undocked |
| `TaskbarMetricsWindow.Pressed` | XhMonitor.Desktop/Windows/TaskbarMetricsWindow.xaml.cs:231-254 | a press starts a drag with a manual placement, not docked; it records whether it began docked, the pointer and the window's position, and a floating window does not move |
| `TaskbarMetricsWindow.Moved` | XhMonitor.Desktop/Windows/TaskbarMetricsWindow.xaml.cs:256-268 | without a drag or the left button nothing changes; otherwise the window moves by the pointer's displacement since the drag began and nothing else changes |
| `TaskbarMetricsWindow.Released` | XhMonitor.Desktop/Windows/TaskbarMetricsWindow.xaml.cs:270-299 | without a drag the release changes nothing; otherwise the drag ends and the began-docked mark is cleared |
| `TaskbarMetricsWindow.UndockedIff` | XhMonitor.Desktop/Windows/TaskbarMetricsWindow.xaml.cs:280-294 | the undocked event fires exactly when a drag that began docked ends without snapping to an edge |
| `TaskbarMetricsWindow.ReleaseDocksIffSnapped` | XhMonitor.Desktop/Windows/TaskbarMetricsWindow.xaml.cs:270-299 | after a drag the window is docked exactly when it snapped, manually placed exactly when it did not, and a snapped window is on the nearest edge |
| `TaskbarMetricsWindow.DragFollowsPointer` | XhMonitor.Desktop/Windows/TaskbarMetricsWindow.xaml.cs:231-268 | a drag of a floating window moves it by exactly the pointer's displacement |
| `TaskbarMetricsWindow.Resized` | XhMonitor.Desktop/Windows/TaskbarMetricsWindow.xaml.cs:178-202 | a change of the view model's size is always recorded; during a drag nothing else changes |
| `TaskbarMetricsWindow.ResizedStaysDocked` | XhMonitor.Desktop/Windows/TaskbarMetricsWindow.xaml.cs:189-199 | a window docked by itself and not dragged stays docked to its side, presented docked, with the docked size of the new measurement |
| `TaskbarMetricsWindow.ResizedOtherwiseFloats` | XhMonitor.Desktop/Windows/TaskbarMetricsWindow.xaml.cs:189-201 | any other window not being dragged keeps its placement, is presented undocked and takes the floating size of the new measurement |
| `TaskbarMetricsWindow.CentredBox` | XhMonitor.Desktop/Windows/TaskbarMetricsWindow.xaml.cs:127-130 | the box keeps its size and its centre is the given point |
| `TaskbarMetricsWindow.CentredOn` | XhMonitor.Desktop/Windows/TaskbarMetricsWindow.xaml.cs:124-130 | the window is centred on the point with its effective size, not manually placed, with the docked look |
| `TaskbarMetricsWindow.DockedAtCursor` | XhMonitor.Desktop/Windows/TaskbarMetricsWindow.xaml.cs:136-151 | the cursor fallback docks, not manually placed, to the working-area edge nearest to the cursor |
| `TaskbarMetricsWindow.DockedAtAnchor` | XhMonitor.Desktop/Windows/TaskbarMetricsWindow.xaml.cs:107-134 | unusable anchor geometry falls back to the cursor; otherwise the window docks to the working-area edge nearest to it once centred on the anchor's centre |
| `TaskbarMetricsWindow.TaskbarMetricsWindow.constructor` | XhMonitor.Desktop/Windows/TaskbarMetricsWindow.xaml.cs:63-87 | a new window is not dragging, not manually placed, docked to the bottom with the size the view model measures for the bottom docked presentation |
| `TaskbarMetricsWindow.TaskbarMetricsWindow.ApplyWindowSize` | XhMonitor.Desktop/Windows/TaskbarMetricsWindow.xaml.cs:439-451 | the frame takes the size for the given docking and side, from the view model's measurement in that presentation |
| `TaskbarMetricsWindow.TaskbarMetricsWindow.OnViewModelSizeChanged` | XhMonitor.Desktop/Windows/TaskbarMetricsWindow.xaml.cs:178-202 | the window's state becomes the resized state for the new measurement |
| `TaskbarMetricsWindow.TaskbarMetricsWindow.ResetToNearestNonTaskbarOverlap` | XhMonitor.Desktop/Windows/TaskbarMetricsWindow.xaml.cs:522-535 | the frame is clamped into the working area |
| `TaskbarMetricsWindow.TaskbarMetricsWindow.ApplyDockSide` | XhMonitor.Desktop/Windows/TaskbarMetricsWindow.xaml.cs:393-429 | the window's state becomes the docked state for the side |
| `TaskbarMetricsWindow.TaskbarMetricsWindow.ApplyFloatingPlacement` | XhMonitor.Desktop/Windows/TaskbarMetricsWindow.xaml.cs:431-437 | the window's state becomes the floating state |
| `TaskbarMetricsWindow.TaskbarMetricsWindow.TryAutoSnap` | XhMonitor.Desktop/Windows/TaskbarMetricsWindow.xaml.cs:301-314 | answers whether the window snaps; a snap docks it to the nearest side and no snap leaves it unchanged |
| `TaskbarMetricsWindow.TaskbarMetricsWindow.MouseLeftButtonDown` | XhMonitor.Desktop/Windows/TaskbarMetricsWindow.xaml.cs:231-254 | the window's state becomes the pressed state |
| `TaskbarMetricsWindow.TaskbarMetricsWindow.MouseMove` | XhMonitor.Desktop/Windows/TaskbarMetricsWindow.xaml.cs:256-268 | the window's state becomes the moved state |
| `TaskbarMetricsWindow.TaskbarMetricsWindow.MouseLeftButtonUp` | XhMonitor.Desktop/Windows/TaskbarMetricsWindow.xaml.cs:270-299 | the window's state becomes the released state, and the undocked event count grows by one exactly when the release undocks |
| `TaskbarMetricsWindow.TaskbarMetricsWindow.CentreOn` | XhMonitor.Desktop/Windows/TaskbarMetricsWindow.xaml.cs:124-130 | the window is centred on the point with the docked look |
| `TaskbarMetricsWindow.TaskbarMetricsWindow.ActivateDockFromCursorFallback` | XhMonitor.Desktop/Windows/TaskbarMetricsWindow.xaml.cs:136-151 | the window's state becomes the state docked at the cursor |
| `TaskbarMetricsWindow.TaskbarMetricsWindow.ActivateDockFromAnchor` | XhMonitor.Desktop/Windows/TaskbarMetricsWindow.xaml.cs:107-134 | the window's state becomes the state docked at the anchor |
| `WindowManagementService.ParseBoolTextTrue` | XhMonitor.Desktop/Services/WindowManagementService.cs:369-374 | the boolean parser reads "True" as true |
| `WindowManagementService.ParseBoolTextFalse` | XhMonitor.Desktop/Services/WindowManagementService.cs:369-374 | the boolean parser reads "false" as false |
| `WindowManagementService.ParseBoolRoundTrip` | XhMonitor.Desktop/Services/WindowManagementService.cs:369-374 | a written boolean is read back, and a null or missing value gives the fallback |
| `WindowManagementService.ParseIntRoundTrip` | XhMonitor.Desktop/Services/WindowManagementService.cs:376-381 | a written 32-bit integer is read back, and a null value gives the fallback |
| `WindowManagementService.ParseStringIsNormalizeLabel` | XhMonitor.Desktop/Services/WindowManagementService.cs:383-392 | reading a present non-null value trims it and falls back when it is blank, exactly as the settings' label normalisation does |
| `WindowManagementService.ParseStringMeaning` | XhMonitor.Desktop/Services/WindowManagementService.cs:383-392 | a missing key gives the fallback, a null value throws on the trim, and any other result is a trimmed non-blank text |
| `WindowManagementService.ReadLabels` | XhMonitor.Desktop/Services/WindowManagementService.cs:266-272 | reading the label keys keeps one label per dock metric |
| `WindowManagementService.NullLabelStopsReading` | XhMonitor.Desktop/Services/WindowManagementService.cs:246-280 | a null label value throws, so the reading stops there and every label only later keys would fill keeps its value |
| `WindowManagementService.ReadMonitoring` | XhMonitor.Desktop/Services/WindowManagementService.cs:256-275 | reading the Monitoring values keeps one label per dock metric |
| `WindowManagementService.LoadDisplaySettings` | XhMonitor.Desktop/Services/WindowManagementService.cs:242-284 | the loaded settings keep one label per dock metric |
| `WindowManagementService.LoadFallsBackToDefaults` | XhMonitor.Desktop/Services/WindowManagementService.cs:242-284 | a failed request, a failure status, a null body or a body without the Monitoring category gives the normalised defaults |
| `WindowManagementService.ReadMonitoringModes` | XhMonitor.Desktop/Services/WindowManagementService.cs:264-265 | each display-mode switch is read from its own key with the current value as fallback |
| `WindowManagementService.LoadReadsModes` | XhMonitor.Desktop/Services/WindowManagementService.cs:242-284 | the display modes a successful payload states are the ones loaded |
| `WindowManagementService.ShowIf` | XhMonitor.Desktop/Services/WindowManagementService.cs:292-321 | an absent window stays absent, and an open one becomes visible exactly when told to show |
| `WindowManagementService.OverrideMeaning` | XhMonitor.Desktop/Services/WindowManagementService.cs:344-355 | the override changes only the edge-dock switch, only turns it off, and does so exactly when the flag names the floating window and floating mode is on |
| `WindowManagementService.PersistThenOverrideKeepsSelection` | XhMonitor.Desktop/Services/WindowManagementService.cs:108-112 | once a single selected mode has been persisted without I/O failure, the override that follows changes nothing |
| `WindowManagementService.BothModesFollowFlag` | XhMonitor.Desktop/Services/WindowManagementService.cs:327-355 | with both modes on, the flag files are left alone, and a floating-window flag turns edge dock off |
| `WindowManagementService.WindowManager.constructor` | XhMonitor.Desktop/Services/WindowManagementService.cs:23-44 | a new service has no windows and the default settings |
| `WindowManagementService.WindowManager.ApplyDisplayModes` | XhMonitor.Desktop/Services/WindowManagementService.cs:286-322 | the settings are normalised; the edge-dock window is shown exactly when edge dock is on, the floating window exactly when floating is on and edge dock is not, so the two are never both shown |
| `WindowManagementService.WindowManager.PersistLaunchModeFlagWhenSingleModeSelected` | XhMonitor.Desktop/Services/WindowManagementService.cs:327-339 | the flag files become those after writing the one mode enabled alone, if any |
| `WindowManagementService.WindowManager.ApplyLaunchModeFlagOverride` | XhMonitor.Desktop/Services/WindowManagementService.cs:344-355 | the settings become the override of the flag read, and the windows are untouched |
| `WindowManagementService.WindowManager.ActivateEdgeDockMode` | XhMonitor.Desktop/Services/WindowManagementService.cs:120-127 | edge dock ends on and floating off, the mini edge-dock flag is written, the edge-dock window is shown and the floating one hidden |
| `WindowManagementService.WindowManager.ShowMainWindow` | XhMonitor.Desktop/Services/WindowManagementService.cs:77-86 | the floating window, if any, is shown and nothing else changes |
| `WindowManagementService.WindowManager.HideMainWindow` | XhMonitor.Desktop/Services/WindowManagementService.cs:88-91 | the floating window, if any, is hidden and nothing else changes |
| `WindowManagementService.WindowManager.CloseMainWindow` | XhMonitor.Desktop/Services/WindowManagementService.cs:93-106 | both windows are closed and the settings kept |
| `WindowManagementService.WindowManager.CloseEdgeDockWindow` | XhMonitor.Desktop/Services/WindowManagementService.cs:357-367 | the edge-dock window is closed and nothing else changes |
| `WindowManagementService.WindowManager.ToggleMainWindow` | XhMonitor.Desktop/Services/WindowManagementService.cs:141-168 | in edge-dock mode with an edge-dock window it flips that window's visibility; otherwise in floating mode with a floating window it flips that one; otherwise nothing changes |
| `WindowManagementService.WindowManager.InitializeMainWindow` | XhMonitor.Desktop/Services/WindowManagementService.cs:46-75 | once either window exists nothing changes; otherwise both windows open with the start-up settings and the display modes applied |
| `WindowManagementService.WindowManager.OpenWindows` | XhMonitor.Desktop/Services/WindowManagementService.cs:53-72 | both windows are created hidden, the settings are the normalised defaults after the flag override, and the display modes are applied |
| `WindowManagementService.WindowManager.RefreshDisplayModes` | XhMonitor.Desktop/Services/WindowManagementService.cs:108-118 | the loaded settings' single mode is persisted, the override of the flag read back is applied, and the windows follow the normalised result |
| `PeakValley.QuantileIndex` | xhmonitor-web/components/charts/peakValley.js:16 | the index read is inside the sequence: the first for q ≤ 0 and the last for q ≥ 1 |
| `PeakValley.QuantileSorted` | xhmonitor-web/components/charts/peakValley.js:14-18 | no values give 0; otherwise the result is one of the values, the first for q ≤ 0 and the last for q ≥ 1 |
| `PeakValley.QuantileMonotone` | xhmonitor-web/components/charts/peakValley.js:14-18 | on ascending values a higher quantile is never smaller |
| `PeakValley.QuantileBetweenExtremes` | xhmonitor-web/components/charts/peakValley.js:14-18 | on ascending values the quantile lies between the smallest and the largest |
| `PeakValley.InsertAsc` | xhmonitor-web/components/charts/peakValley.js:69 | inserting one value adds exactly one element |
| `PeakValley.InsertAscPermutes` | xhmonitor-web/components/charts/peakValley.js:69 | inserting adds exactly the value to the multiset |
| `PeakValley.InsertAscSorted` | xhmonitor-web/components/charts/peakValley.js:69 | inserting into ascending values keeps them ascending, and the new head is the smaller of the value and the old head |
| `PeakValley.SortAsc` | xhmonitor-web/components/charts/peakValley.js:69 | the numeric sort keeps the length |
| `PeakValley.SortAscSorted` | xhmonitor-web/components/charts/peakValley.js:69 | the numeric sort's result is ascending |
| `PeakValley.SortAscPermutes` | xhmonitor-web/components/charts/peakValley.js:69 | the numeric sort's result is a permutation of its input |
| `PeakValley.SortAscCorrect` | xhmonitor-web/components/charts/peakValley.js:69 | sorting yields an ascending permutation of the input |
| `PeakValley.Finites` | xhmonitor-web/components/charts/peakValley.js:50 | the kept numbers are exactly the finite entries of the data |
| `PeakValley.MinOf` | xhmonitor-web/components/charts/peakValley.js:55-60 | the minimum is one of the values and at most every value |
| `PeakValley.MaxOf` | xhmonitor-web/components/charts/peakValley.js:55-60 | the maximum is one of the values and at least every value |
| `PeakValley.AdjacentDiffs` | xhmonitor-web/components/charts/peakValley.js:62-68 | the steps are non-negative and are exactly the absolute differences of adjacent finite pairs |
| `PeakValley.Stats` | xhmonitor-web/components/charts/peakValley.js:49-73 | no finite value gives all zeros; otherwise min and max are finite entries bounding every finite entry, the range is their non-negative difference, and the noise is 0 or one adjacent step |
| `PeakValley.Noise` | xhmonitor-web/components/charts/peakValley.js:62-70 | the noise level is non-negative and is 0 or one of the adjacent steps |
| `PeakValley.NoiseIsAStep` | xhmonitor-web/components/charts/peakValley.js:69-70 | a quantile of the sorted steps is one of the unsorted steps |
| `PeakValley.NoiseMonotoneInQuantile` | xhmonitor-web/components/charts/peakValley.js:70 | the noise level grows with the quantile asked for |
| `PeakValley.ComputeSeriesStats` | xhmonitor-web/components/charts/peakValley.js:49-73 | the two loops compute the series statistics |
| `PeakValley.FiniteExtremes` | xhmonitor-web/components/charts/peakValley.js:55-60 | the first loop computes the minimum and the maximum of the finite values |
| `PeakValley.CollectDiffs` | xhmonitor-web/components/charts/peakValley.js:62-68 | the second loop collects the adjacent absolute steps in order |
| `PeakValley.Midpoint` | xhmonitor-web/components/charts/peakValley.js:105 | the floor midpoint of a run lies in the run |
| `PeakValley.PlateauEnd` | xhmonitor-web/components/charts/peakValley.js:97-98 | the inner scan stops at the first index past the run of equal values, or at the last index |
| `PeakValley.RunInterior` | xhmonitor-web/components/charts/peakValley.js:96-114 | inside a run of equal values nothing is a strict extremum and no plateau starts after the run's first index |
| `PeakValley.PlateauEndsAtScanEnd` | xhmonitor-web/components/charts/peakValley.js:96-114 | a plateau starting where the scan starts ends exactly where the scan stops |
| `PeakValley.FindExtremaCandidates` | xhmonitor-web/components/charts/peakValley.js:80-127 | fewer than three points give none; every candidate is a strict extremum or a plateau midpoint away from the ends, indices increase, and every strict extremum and every plateau is reported |
| `PeakValley.PlateauStep` | xhmonitor-web/components/charts/peakValley.js:96-115 | the plateau branch reports the run when both neighbours lie strictly on the same side, moves to the run's end and keeps the scan's invariant |
| `PeakValley.FiniteMinIn` | xhmonitor-web/components/charts/peakValley.js:149-155 | absent exactly when the range has no finite value; otherwise a finite value of the range at most every finite value there |
| `PeakValley.FiniteMaxIn` | xhmonitor-web/components/charts/peakValley.js:165-171 | absent exactly when the range has no finite value; otherwise a finite value of the range at least every finite value there |
| `PeakValley.Prominence` | xhmonitor-web/components/charts/peakValley.js:136-179 | a non-finite point has prominence 0, and a prominence is never negative |
| `PeakValley.SideDropPositiveIff` | xhmonitor-web/components/charts/peakValley.js:148-178 | one side of the window has a positive drop exactly when it holds a finite value strictly beyond the point |
| `PeakValley.ProminencePositiveIff` | xhmonitor-web/components/charts/peakValley.js:136-179 | a finite point has positive prominence exactly when the window holds a strictly lower value (higher, for a valley) on each side of it |
| `PeakValley.ProminenceAtMostRange` | xhmonitor-web/components/charts/peakValley.js:136-179 | a prominence never exceeds the series' range |
| `PeakValley.ScanFiniteMin` | xhmonitor-web/components/charts/peakValley.js:149-160 | the running-minimum loop computes the least finite value of its range |
| `PeakValley.ScanFiniteMax` | xhmonitor-web/components/charts/peakValley.js:165-176 | the running-maximum loop computes the greatest finite value of its range |
| `PeakValley.ComputeProminence` | xhmonitor-web/components/charts/peakValley.js:136-179 | the window loops compute the prominence |
| `PeakValley.FilterSignificantExtrema` | xhmonitor-web/components/charts/peakValley.js:188-205 | the filter keeps at most as many extrema as there are candidates |
| `PeakValley.SignificantIff` | xhmonitor-web/components/charts/peakValley.js:194-204 | an extremum is kept exactly when it is a candidate carrying its prominence and that prominence is positive and reaches max(noise·factor, range·factor) |
| `PeakValley.SignificantWithinRange` | xhmonitor-web/components/charts/peakValley.js:188-205 | a kept extremum's prominence is positive and at most the series' range |
| `PeakValley.ScoreFavoursRecent` | xhmonitor-web/components/charts/peakValley.js:207-214 | with equal prominence and a non-negative recency weight, a marker further right never scores lower |
| `PeakValley.InsertByRank` | xhmonitor-web/components/charts/peakValley.js:238-243 | inserting a marker adds exactly one element |
| `PeakValley.SortByRank` | xhmonitor-web/components/charts/peakValley.js:238-243 | ranking keeps the length |
| `PeakValley.InsertByRankPermutes` | xhmonitor-web/components/charts/peakValley.js:238-243 | inserting adds exactly the marker to the multiset |
| `PeakValley.InsertByRankSorted` | xhmonitor-web/components/charts/peakValley.js:238-243 | inserting into ranked markers keeps them ranked, and the new head is the marker or the old head |
| `PeakValley.SortByRankCorrect` | xhmonitor-web/components/charts/peakValley.js:236-243 | the ranking is a permutation ordered by score, highest first, then by index, rightmost first |
| `PeakValley.Greedy` | xhmonitor-web/components/charts/peakValley.js:245-252 | every selected marker is one of the candidates looked at |
| `PeakValley.GreedyStaysFull` | xhmonitor-web/components/charts/peakValley.js:247 | once the selection is full it no longer changes |
| `PeakValley.GreedyBounded` | xhmonitor-web/components/charts/peakValley.js:245-252 | the selection holds at most the per-type maximum |
| `PeakValley.GreedySpaced` | xhmonitor-web/components/charts/peakValley.js:248-251 | selected markers are pairwise at least the minimum x distance apart |
| `PeakValley.GreedyMaximal` | xhmonitor-web/components/charts/peakValley.js:245-252 | a candidate looked at and not taken was refused because the selection was full or a selected marker was too close |
| `PeakValley.GreedyInRankOrder` | xhmonitor-web/components/charts/peakValley.js:245-252 | the selection keeps the ranking's order |
| `PeakValley.Ranked` | xhmonitor-web/components/charts/peakValley.js:236-243 | the ranked candidates are exactly the in-view markers of the kind, in rank order |
| `PeakValley.PickTypeProperties` | xhmonitor-web/components/charts/peakValley.js:235-254 | the markers picked are in-view markers of the kind, at most the per-type maximum, pairwise spaced, in rank order |
| `PeakValley.PickTypeKind` | xhmonitor-web/components/charts/peakValley.js:236-237 | every picked marker has the kind asked for |
| `PeakValley.PickTypeMaximal` | xhmonitor-web/components/charts/peakValley.js:245-252 | an in-view marker of the kind is refused only when the selection is full or a picked marker is too close |
| `PeakValley.PickTypeLoop` | xhmonitor-web/components/charts/peakValley.js:235-254 | ranking then selecting computes the markers picked for the kind |
| `PeakValley.SelectGreedily` | xhmonitor-web/components/charts/peakValley.js:245-253 | the selection loop with its early break computes the greedy selection over all candidates |
| `PeakValley.MarkersInView` | xhmonitor-web/components/charts/peakValley.js:226-233 | the in-view markers are exactly the markers on the chart at or right of the cut-off |
| `PeakValley.Ids` | xhmonitor-web/components/charts/peakValley.js:257 | the ids are the markers' ids, in order |
| `PeakValley.SelectMarkerIdsToKeep` | xhmonitor-web/components/charts/peakValley.js:223-258 | the ids kept are those of the peaks picked then the valleys picked, and none without points |
| `PeakValley.KeptPerKind` | xhmonitor-web/components/charts/peakValley.js:256 | the kept markers of a kind are exactly those picked for it |
| `PeakValley.KeptAreInView` | xhmonitor-web/components/charts/peakValley.js:223-258 | every kept marker is an input marker on the chart at or right of the cut-off |
| `DynamicScaler.PeakOf` | xhmonitor-web/components/charts/DynamicScaler.js:29-32 | the window's peak is non-negative, at least every sample, and 0 or one of the samples |
| `DynamicScaler.WindowMax` | xhmonitor-web/components/charts/DynamicScaler.js:29-35 | the floored maximum is at least the floor and the peak, and is one of them |
| `DynamicScaler.Target` | xhmonitor-web/components/charts/DynamicScaler.js:38 | the target puts the floored maximum at 90% of it, so it is at least the floor over 0.9 |
| `DynamicScaler.StepCoversTarget` | xhmonitor-web/components/charts/DynamicScaler.js:28-63 | after every update the ceiling is at least the target, hence at least the floor over 0.9 |
| `DynamicScaler.GrowsAtOnce` | xhmonitor-web/components/charts/DynamicScaler.js:41-44 | a target above the ceiling becomes the ceiling at once and clears the low-usage timer |
| `DynamicScaler.ShrinksOnlyAfterDelay` | xhmonitor-web/components/charts/DynamicScaler.js:45-56 | the ceiling sinks exactly when the window is below 60% of it and a set timer has run longer than the delay; it then moves a fifth of the way to the target and stays above it |
| `DynamicScaler.StableInBand` | xhmonitor-web/components/charts/DynamicScaler.js:57-60 | between 60% and 90% of the ceiling, the ceiling holds and the timer is cleared |
| `DynamicScaler.FirstLowReadingStartsTimer` | xhmonitor-web/components/charts/DynamicScaler.js:47-48 | the first low reading only starts the timer at the current time |
| `DynamicScaler.DynamicScaler.constructor` | xhmonitor-web/components/charts/DynamicScaler.js:16-21 | a new scaler has the given ceiling and delay, no timer, and the floor 10 |
| `DynamicScaler.DynamicScaler.WithDefaults` | xhmonitor-web/components/charts/DynamicScaler.js:16-21 | a scaler made without arguments has the ceiling 1024, the delay 3000 ms, no timer and the floor 10 |
| `DynamicScaler.DynamicScaler.MaxInWindow` | xhmonitor-web/components/charts/DynamicScaler.js:29-32 | the loop computes the window's peak |
| `DynamicScaler.DynamicScaler.Update` | xhmonitor-web/components/charts/DynamicScaler.js:28-63 | the ceiling and timer become one update step of the old ones; delay and floor are kept; the new ceiling is returned |
| `DynamicScaler.DynamicScaler.Reset` | xhmonitor-web/components/charts/DynamicScaler.js:69-74 | the ceiling changes only when a value is given, and the timer is always cleared |
| `DynamicScaler.DynamicScaler.GetCurrentMax` | xhmonitor-web/components/charts/DynamicScaler.js:80-82 | returns the current ceiling |
| `DynamicScaler.DynamicScaler.SetMinFloor` | xhmonitor-web/components/charts/DynamicScaler.js:88-90 | the floor becomes the given value |
| `TimeSeries.Zeros` | xhmonitor-web/src/hooks/useTimeSeries.ts:29 | a window of the given length holding only zeros |
| `TimeSeries.CreateSeries` | xhmonitor-web/src/hooks/useTimeSeries.ts:23-32 | one zero window of the given length for exactly the selector keys |
| `TimeSeries.Resize` | xhmonitor-web/src/hooks/useTimeSeries.ts:64-74 | the refitted window has the target length: the latest values, left-padded with zeros |
| `TimeSeries.ResizeIdempotent` | xhmonitor-web/src/hooks/useTimeSeries.ts:64-74 | refitting to the same length again changes nothing |
| `TimeSeries.GrowThenShrink` | xhmonitor-web/src/hooks/useTimeSeries.ts:64-74 | padding a window and cutting it back to its length gives it back |
| `TimeSeries.PushValueIsResize` | xhmonitor-web/src/hooks/useTimeSeries.ts:34-48 | pushing is appending and then applying the refit rule |
| `TimeSeries.ResizeAppendedAt` | xhmonitor-web/src/hooks/useTimeSeries.ts:34-48 | each earlier position of a pushed window is a zero of the padding or the matching recent value |
| `TimeSeries.ResizeAppended` | xhmonitor-web/src/hooks/useTimeSeries.ts:34-48 | refitting an appended window gives a pushed window |
| `TimeSeries.PushValueWindow` | xhmonitor-web/src/hooks/useTimeSeries.ts:34-48 | after a push the window has exactly the maximum length: the latest earlier values in order, left-padded with zeros, then the pushed value |
| `TimeSeries.PushValueZeroLength` | xhmonitor-web/src/hooks/useTimeSeries.ts:34-48 | with a zero length only the pushed value remains |
| `TimeSeries.SyncLengths` | xhmonitor-web/src/hooks/useTimeSeries.ts:58-82 | when some selector series needs refitting the record holds exactly the selector keys; every selector key present before stays present |
| `TimeSeries.SyncLengthsFits` | xhmonitor-web/src/hooks/useTimeSeries.ts:58-82 | after the length effect every selector series present has the window length, and running it again changes nothing |
| `TimeSeries.PushAllAppends` | xhmonitor-web/src/hooks/useTimeSeries.ts:84-101 | after a sample every selector series has the window length and ends with that selector's value |
| `TimeSeries.AddDataPoint` | xhmonitor-web/src/hooks/useTimeSeries.ts:103-115 | adding a point adds the key and leaves every other series as it was |
| `TimeSeries.AddDataPointToNewKey` | xhmonitor-web/src/hooks/useTimeSeries.ts:106-107 | a point added to a missing key lands after a window of zeros |
| `TimeSeries.GetSeriesData` | xhmonitor-web/src/hooks/useTimeSeries.ts:117-119 | an unknown key gives an empty series, a known key its series |
| `LayoutState.ToFiniteNumber` | xhmonitor-web/src/hooks/useLayoutState.ts:98-102 | a value that is not a finite number gives the fallback; with a minimum the result is at least it or the fallback |
| `LayoutState.ToStringValue` | xhmonitor-web/src/hooks/useLayoutState.ts:104-105 | the result is the fallback or the string given |
| `LayoutState.ToBooleanValue` | xhmonitor-web/src/hooks/useLayoutState.ts:107-108 | the result is the fallback or the boolean given |
| `LayoutState.ToOpacityValue` | xhmonitor-web/src/hooks/useLayoutState.ts:110-113 | a finite number gives a value in [0, 1]; anything else the fallback |
| `LayoutState.ToBlurPxValue` | xhmonitor-web/src/hooks/useLayoutState.ts:115-118 | a finite number gives a value in [0, 48]; anything else the fallback |
| `LayoutState.ToNullableStringValue` | xhmonitor-web/src/hooks/useLayoutState.ts:120-124 | null stays null, a string is kept, anything else gives the fallback |
| `LayoutState.CoercersAreStable` | xhmonitor-web/src/hooks/useLayoutState.ts:98-124 | coercing an already coerced value again gives it back |
| `LayoutState.NormalizeCardOrder` | xhmonitor-web/src/hooks/useLayoutState.ts:134-146 | the normalised card order is never empty |
| `LayoutState.Normalize` | xhmonitor-web/src/hooks/useLayoutState.ts:132-177 | every normalised state keeps the bounds: whole column count of at least 1 (unless NaN or +infinity came in), non-negative gap, non-empty card order, opacity in [0, 1], blur in [0, 48] |
| `LayoutState.NormalizeKeepsNormalized` | xhmonitor-web/src/hooks/useLayoutState.ts:132-177 | a normalised state is a fixed point of normalisation |
| `LayoutState.NormalizeIdempotent` | xhmonitor-web/src/hooks/useLayoutState.ts:132-177 | normalising twice gives the same state as once |
| `LayoutState.NormalizedGridColumns` | xhmonitor-web/src/hooks/useLayoutState.ts:133 | a finite column count becomes a whole number of at least 1, within half of the input when the input is at least one half |
| `LayoutState.NormalizedCardOrder` | xhmonitor-web/src/hooks/useLayoutState.ts:134-146 | the card order is the given one when it is a non-empty array of strings, otherwise the default |
| `LayoutState.NormalizedEnums` | xhmonitor-web/src/hooks/useLayoutState.ts:126-139 | the disk panel is on the right exactly for 'right', and the drag mode is swap exactly for 'swap' |
| `LayoutState.NormalizedGap` | xhmonitor-web/src/hooks/useLayoutState.ts:143-145 | a finite gap is raised to at least 0; anything else gives the default 16 |
| `LayoutState.DefaultIsNormalized` | xhmonitor-web/src/hooks/useLayoutState.ts:61-90 | the default state keeps the bounds and is a fixed point of normalisation |
| `LayoutState.Merge` | xhmonitor-web/src/hooks/useLayoutState.ts:179-202 | a merged state is normalised |
| `LayoutState.MergeEmptyPatch` | xhmonitor-web/src/hooks/useLayoutState.ts:179-202 | an empty patch leaves a normalised state as it is |
| `LayoutState.MergeOverrides` | xhmonitor-web/src/hooks/useLayoutState.ts:179-202 | fields the patch provides win (a string-array card order, the disk side, a boolean visibility flag); absent fields keep the state's values |
| `LayoutState.FilterStrings` | xhmonitor-web/src/hooks/useLayoutState.ts:221 | filtering never lengthens the array |
| `LayoutState.FilterStringsKeepsStrings` | xhmonitor-web/src/hooks/useLayoutState.ts:221 | the filtered ids are exactly the strings of the array |
| `LayoutState.Parse` | xhmonitor-web/src/hooks/useLayoutState.ts:204-255 | an accepted stored state is normalised |
| `LayoutState.ParseAcceptsIff` | xhmonitor-web/src/hooks/useLayoutState.ts:205-207 | a stored value is accepted exactly when it is a record with version '1.0' and a record state |
| `LayoutState.ParsedCardOrder` | xhmonitor-web/src/hooks/useLayoutState.ts:220-222 | stored card ids that are not strings are dropped and the rest keep their order; none left gives the default order |
| `LayoutState.Load` | xhmonitor-web/src/hooks/useLayoutState.ts:257-269 | the loaded state is normalised, and is the default when storage is unavailable or holds nothing parseable |
| `LayoutState.SafeState` | xhmonitor-web/src/hooks/useLayoutState.ts:276-286 | the persisted state never holds an image data URL; dropping one marks the image as stored elsewhere; nothing else changes, and a normalised state stays normalised |
| `LayoutState.ParsedVisibility` | xhmonitor-web/src/hooks/useLayoutState.ts:223-228 | the written visibility record reads back as itself |
| `LayoutState.ParsedBackground` | xhmonitor-web/src/hooks/useLayoutState.ts:229-241 | a written background within bounds reads back as itself |
| `LayoutState.ParsedTheme` | xhmonitor-web/src/hooks/useLayoutState.ts:242-249 | the written theme colours read back as themselves |
| `LayoutState.CandidateOfJson` | xhmonitor-web/src/hooks/useLayoutState.ts:209-252 | the candidate read from a written normalised state is that state itself |
| `LayoutState.ParsePersisted` | xhmonitor-web/src/hooks/useLayoutState.ts:271-295 | parsing what was persisted gives back the image-free persisted state, for a normalised state with a finite column count |
| `LayoutState.UpdateLayout` | xhmonitor-web/src/hooks/useLayoutState.ts:322-329 | every update, patch or function, yields a normalised state |
| `LayoutState.ResetLayout` | xhmonitor-web/src/hooks/useLayoutState.ts:302-320 | a reset gives the default state |
| `Sortable.IndexOf` | xhmonitor-web/src/hooks/useSortable.ts:211-212 | the position is -1 exactly when the id is absent, otherwise the first position holding it |
| `Sortable.SwapInOrder` | xhmonitor-web/src/hooks/useSortable.ts:208-217 | the swap is a permutation of the same length; the order itself when the ids are equal or either is absent; otherwise the two first occurrences are exchanged and every other position is kept |
| `Sortable.SwapInOrderSymmetric` | xhmonitor-web/src/hooks/useSortable.ts:208-217 | exchanging a with b gives the same order as exchanging b with a |
| `Sortable.SwapInOrderKeepsUnique` | xhmonitor-web/src/hooks/useSortable.ts:208-217 | a swap keeps an order free of duplicates |
| `Sortable.SwapInOrderInvolutive` | xhmonitor-web/src/hooks/useSortable.ts:208-217 | on an order without duplicates, swapping the same two cards twice restores it |
| `Sortable.StableOrderKeepsFirstOccurrences` | xhmonitor-web/src/hooks/useSortable.ts:455 | the stable order holds exactly the cards of the start order, each once, in the order of their first occurrences |
| `Sortable.StableOrderOfUnique` | xhmonitor-web/src/hooks/useSortable.ts:455 | a start order without duplicates is its own stable order |
| `Sortable.SortEndOrder` | xhmonitor-web/src/hooks/useSortable.ts:480-483 | the sort-mode end order is the deduplicated container order or the stable order, always of the stable order's length |
| `Sortable.SortCommitsRearrangement` | xhmonitor-web/src/hooks/useSortable.ts:479-500 | when the library only rearranged the start cards, sort mode commits the container order, a permutation of the stable order |
| `Sortable.SortEndOrderUnique` | xhmonitor-web/src/hooks/useSortable.ts:479-500 | whatever the container holds, the sort-mode end order has no duplicates |
| `Sortable.DropTarget` | xhmonitor-web/src/hooks/useSortable.ts:505-509 | there is no drop target without a pointer and an active card; a held hover target wins over the card under the pointer |
| `Sortable.SwapEndOrder` | xhmonitor-web/src/hooks/useSortable.ts:522-539 | the swap-mode end order is a permutation of the stable order, and is the stable order without a pointer, active card or different target |
| `Sortable.SwapDropExchanges` | xhmonitor-web/src/hooks/useSortable.ts:532-553 | a swap drop onto another card exchanges exactly those two cards and keeps every other position |
| `Sortable.EndOrderUnique` | xhmonitor-web/src/hooks/useSortable.ts:453-555 | every committed order is free of duplicates; in swap mode it is a permutation of the stable order |
| `Sortable.AppendCard` | xhmonitor-web/src/hooks/useSortable.ts:285-288 | appending a card keeps the container's cards and puts that card last |
| `Sortable.ApplyOrderShowsOrder` | xhmonitor-web/src/hooks/useSortable.ts:283-290 | when the container holds exactly the cards of an order without duplicates, applying the order leaves the container showing that order |
| `Sortable.ApplyOrderPrefix` | xhmonitor-web/src/hooks/useSortable.ts:284-289 | after the first k cards of the order, the container holds the other cards in their old order followed by those k |
| `Sortable.DragSession.constructor` | xhmonitor-web/src/hooks/useSortable.ts:115-297 | a new session is not dragging, holds no start order, dragged card or hover target, has emitted nothing, and has no preview sync scheduled or frame requested |
| `Sortable.DragSession.SetHoverTarget` | xhmonitor-web/src/hooks/useSortable.ts:319-347 | outside swap mode, for an empty id or the dragged card the target is cleared; otherwise the same id is kept and a new one is held only when its card is in the container; nothing else changes |
| `Sortable.DragSession.OnStart` | xhmonitor-web/src/hooks/useSortable.ts:426-452 | a drag starts recording the container order and the dragged card, clears the hover target, previews the start order and schedules a preview sync, which requests a frame in sort mode unless one is scheduled |
| `Sortable.DragSession.OnPointerMove` | xhmonitor-web/src/hooks/useSortable.ts:381-392 | only a swap drag with a pointer and a found card changes the hover target, to that card when it is another card in the container |
| `Sortable.DragSession.SchedulePreviewSync` | xhmonitor-web/src/hooks/useSortable.ts:349-354 | during a sort drag the flag is set and a frame requested only when none is scheduled, so repeated calls are coalesced into one frame; otherwise nothing changes |
| `Sortable.DragSession.SyncPreview` | xhmonitor-web/src/hooks/useSortable.ts:356-360 | a requested frame, only ever requested in sort mode, clears the flag and previews the container order exactly when the drag is still on |
| `Sortable.DragSession.LibraryMove` | xhmonitor-web/src/hooks/useSortable.ts:420-425 | the library's rearrangement replaces the container order and schedules a preview sync, coalesced with one already scheduled |
| `Sortable.DragSession.ApplyOrderToContainer` | xhmonitor-web/src/hooks/useSortable.ts:283-290 | the container becomes the order applied to it |
| `Sortable.DragSession.OnEnd` | xhmonitor-web/src/hooks/useSortable.ts:453-555 | the drop commits and previews the end order, which has no duplicates, ends the drag and clears the session and the preview-sync flag; the container is put in order in sort mode or without a pointer and active card, and left alone for a swap drop |
| `Sortable.DragSession.Finish` | xhmonitor-web/src/hooks/useSortable.ts:485-502 | the common tail resets the drag and the preview-sync flag, reorders the container only when asked and it differs, and emits the end order |
| `Sortable.SortDragScenario` | xhmonitor-web/src/hooks/useSortable.ts:426-502 | a whole sort drag in which the library rearranges the cards twice before the frame runs previews the start order and the arrangement once each, then commits and shows the arrangement, a permutation of the start order |
| `Sortable.SwapDragScenario` | xhmonitor-web/src/hooks/useSortable.ts:426-555 | a whole swap drag onto another card commits the start order with the two cards exchanged |
| `DraggableGrid.MapGet` | xhmonitor-web/src/components/DraggableGrid.tsx:65 | a lookup finds nothing exactly when the key is absent, otherwise an entry stored under that key |
| `DraggableGrid.MapSet` | xhmonitor-web/src/components/DraggableGrid.tsx:58 | a new key goes last, a present key keeps its place, and the key then maps to the new value |
| `DraggableGrid.Rest` | xhmonitor-web/src/components/DraggableGrid.tsx:51-62 | the rest holds exactly the children that are not cards |
| `DraggableGrid.Cards` | xhmonitor-web/src/components/DraggableGrid.tsx:51-62 | the cards are exactly the children that are cards |
| `DraggableGrid.Ordered` | xhmonitor-web/src/components/DraggableGrid.tsx:44-46 | with no preview or an empty one the children render as given |
| `DraggableGrid.OrderedChildren` | xhmonitor-web/src/components/DraggableGrid.tsx:44-73 | the loops compute the reordering the grid specifies |
| `DraggableGrid.CollectCards` | xhmonitor-web/src/components/DraggableGrid.tsx:48-62 | the first loop puts each card under its id and every other child into the rest |
| `DraggableGrid.PickPreviewed` | xhmonitor-web/src/components/DraggableGrid.tsx:64-66 | the preview loop picks the known cards in preview order |
| `DraggableGrid.CardMapOfUnique` | xhmonitor-web/src/components/DraggableGrid.tsx:51-62 | with distinct card ids the map holds every card under its own id, in the order the cards come |
| `DraggableGrid.MapGetPairs` | xhmonitor-web/src/components/DraggableGrid.tsx:65 | looking up a card's id among cards with distinct ids finds that card |
| `DraggableGrid.PickedFollowsPreview` | xhmonitor-web/src/components/DraggableGrid.tsx:64-66 | the picked children are exactly the cards whose ids the preview lists, in preview order, unknown ids skipped |
| `DraggableGrid.LookupById` | xhmonitor-web/src/components/DraggableGrid.tsx:65 | a lookup by id gives the card with that id when there is one, and only such a card |
| `DraggableGrid.RemainingFacts` | xhmonitor-web/src/components/DraggableGrid.tsx:68-70 | the cards appended after the picked ones are exactly the cards the preview does not list, each once |
| `DraggableGrid.PickedUnique` | xhmonitor-web/src/components/DraggableGrid.tsx:64-66 | a preview without repeated ids picks no card twice |
| `DraggableGrid.PartsCoverChildren` | xhmonitor-web/src/components/DraggableGrid.tsx:64-72 | picked cards, remaining cards and the rest together hold exactly the children, each once |
| `DraggableGrid.OrderedIsPermutation` | xhmonitor-web/src/components/DraggableGrid.tsx:44-73 | the reordering is a permutation of the children: previewed cards in preview order, then the other cards, then the non-card children |
| `DraggableGrid.MatchesStoredIff` | xhmonitor-web/src/components/DraggableGrid.tsx:36-39 | the effect's length-and-every test is exactly sequence equality |
| `DraggableGrid.Grid.constructor` | xhmonitor-web/src/components/DraggableGrid.tsx:12-15 | a new grid holds the normalised layout and no preview |
| `DraggableGrid.Grid.OnPreviewOrderChange` | xhmonitor-web/src/components/DraggableGrid.tsx:21 | a preview callback sets the preview order and nothing else |
| `DraggableGrid.Grid.OnOrderChange` | xhmonitor-web/src/components/DraggableGrid.tsx:20 | a commit merges the order into the layout, which stays normalised and holds a non-empty committed order |
| `DraggableGrid.Grid.SyncPreview` | xhmonitor-web/src/components/DraggableGrid.tsx:33-42 | the preview is dropped exactly when it equals the stored card order; otherwise it is kept |
| `DraggableGrid.Grid.Render` | xhmonitor-web/src/components/DraggableGrid.tsx:44-81 | the grid renders the children reordered by the current preview |
| `DraggableGrid.DropScenario` | xhmonitor-web/src/components/DraggableGrid.tsx:17-73 | after a drop is previewed, committed and synced, the preview is gone and the children render in their own order |
| `ProcessList.DisplayNameFallsBack` | xhmonitor-web/src/components/ProcessList.tsx:25-29 | a missing or blank display name falls back to the process name; otherwise the trimmed display name is shown, non-empty and without surrounding white space |
| `ProcessList.LexCompare` | xhmonitor-web/src/components/ProcessList.tsx:50 | a comparison is -1, 0 or 1 |
| `ProcessList.LexCompareAntisymmetric` | xhmonitor-web/src/components/ProcessList.tsx:50 | swapping the arguments negates the comparison |
| `ProcessList.LexCompareZero` | xhmonitor-web/src/components/ProcessList.tsx:50 | only equal strings compare equal |
| `ProcessList.SortBy` | xhmonitor-web/src/components/ProcessList.tsx:71-101 | sorting keeps exactly the elements given, each as often |
| `ProcessList.SortBySorted` | xhmonitor-web/src/components/ProcessList.tsx:71-101 | with an antisymmetric comparator no two neighbours of the sorted sequence are out of order |
| `ProcessList.MetricCompareAntisymmetric` | xhmonitor-web/src/components/ProcessList.tsx:47-51 | the column comparator is antisymmetric |
| `ProcessList.OrderedMetricsByRank` | xhmonitor-web/src/components/ProcessList.tsx:37-52 | the ordered columns are the given ones, their ranks (cpu, memory/ram, gpu, vram, other) never decrease, and columns of equal rank come in metric-id order |
| `ProcessList.HandleSort` | xhmonitor-web/src/components/ProcessList.tsx:54-61 | a header click always sorts by the clicked field |
| `ProcessList.HandleSortToggles` | xhmonitor-web/src/components/ProcessList.tsx:54-61 | a new column starts descending; the current column flips its order, and two clicks on it restore the order |
| `ProcessList.EmptySearchKeepsAll` | xhmonitor-web/src/components/ProcessList.tsx:64-69 | an empty search matches every process |
| `ProcessList.ProcessCompareAntisymmetric` | xhmonitor-web/src/components/ProcessList.tsx:71-101 | the row comparator is antisymmetric for every sort field and order |
| `ProcessList.VisibleProcessesFacts` | xhmonitor-web/src/components/ProcessList.tsx:63-104 | the visible rows are exactly the matching processes, each as often as given, with no neighbouring rows out of order |
| `ProcessList.DefaultCompareInOrder` | xhmonitor-web/src/components/ProcessList.tsx:84-100 | a pair the default comparator leaves in place has the larger GPU + VRAM + memory total first, and descending display names on a tie |
| `ProcessList.DefaultSortHeaviestFirst` | xhmonitor-web/src/components/ProcessList.tsx:33-34 | under the default sort the heaviest processes come first and equal totals are in descending display-name order |
| `ProcessList.ProgressMax` | xhmonitor-web/src/components/ProcessList.tsx:116-131 | a bar maximum, when there is one, is positive; percentages use 100 |
| `ProcessList.ProgressWidth` | xhmonitor-web/src/components/ProcessList.tsx:212-216 | the bar width is in [0, 100] and 0 without a value or a positive maximum |
| `ProcessList.ProgressWidthProportional` | xhmonitor-web/src/components/ProcessList.tsx:213-216 | within [0, max] the width is the value's share of the maximum; it is full beyond the maximum, empty below 0, and never shrinks as the value grows |
| `AdaptiveScroll.MaxHeight` | xhmonitor-web/src/hooks/useAdaptiveScroll.ts:55-59 | with a table the maximum height is at least the minimum table height; without one it is 0 |
| `AdaptiveScroll.SafeTableTop` | xhmonitor-web/src/hooks/useAdaptiveScroll.ts:74 | the table top used for the estimate lies within the viewport |
| `AdaptiveScroll.AvailableHeight` | xhmonitor-web/src/hooks/useAdaptiveScroll.ts:75 | the room below the table is never negative |
| `AdaptiveScroll.Recompute` | xhmonitor-web/src/hooks/useAdaptiveScroll.ts:42-102 | a disabled hook that measures a frame always ends in page mode |
| `AdaptiveScroll.Visible` | xhmonitor-web/src/hooks/useAdaptiveScroll.ts:170-177 | a disabled hook reports page mode with no height; an enabled one reports its state |
| `AdaptiveScroll.EnterIff` | xhmonitor-web/src/hooks/useAdaptiveScroll.ts:81-91 | from page mode the table takes over exactly when the page is at the top, the table is measured below the top edge, there is room for the minimum height and its share reaches the entry threshold |
| `AdaptiveScroll.ExitIff` | xhmonitor-web/src/hooks/useAdaptiveScroll.ts:88-92 | from process mode the page takes over exactly when the share falls below the release threshold or the room below the minimum |
| `AdaptiveScroll.HysteresisBand` | xhmonitor-web/src/hooks/useAdaptiveScroll.ts:81-92 | with room for the minimum height, a share between the release and the entry threshold keeps the current mode |
| `AdaptiveScroll.NoRoomLeavesProcessMode` | xhmonitor-web/src/hooks/useAdaptiveScroll.ts:88-92 | without room for the minimum height process mode is left whatever the share |
| `AdaptiveScroll.ScrolledStaysPage` | xhmonitor-web/src/hooks/useAdaptiveScroll.ts:71-91 | scrolled away from the top, page mode is never left |
| `AdaptiveScroll.RecomputeHeight` | xhmonitor-web/src/hooks/useAdaptiveScroll.ts:45-101 | the height follows the measurement, at least the minimum with a table and 0 without; a frame without the elements or a viewport changes nothing |
| `AdaptiveScroll.RecomputeSettles` | xhmonitor-web/src/hooks/useAdaptiveScroll.ts:42-102 | with release at most entry, recomputing on the same measurement again changes nothing |
| `AdaptiveScroll.AdaptiveScroller.constructor` | xhmonitor-web/src/hooks/useAdaptiveScroll.ts:35-40 | the hook starts in page mode with no height and no pending frame |
| `AdaptiveScroll.AdaptiveScroller.ScheduleRecompute` | xhmonitor-web/src/hooks/useAdaptiveScroll.ts:114-121 | a frame is requested only when none is pending, and the state is untouched |
| `AdaptiveScroll.AdaptiveScroller.OnFrame` | xhmonitor-web/src/hooks/useAdaptiveScroll.ts:117-120 | the frame clears the pending flag and recomputes the state |
| `AdaptiveScroll.AdaptiveScroller.Current` | xhmonitor-web/src/hooks/useAdaptiveScroll.ts:170-177 | the returned state is the visible one |
| `AdaptiveScroll.BurstScenario` | xhmonitor-web/src/hooks/useAdaptiveScroll.ts:114-168 | a burst of resize and scroll events before the next frame requests one frame and one recompute |
| `FloatingWidget.HoverEffect` | xhmonitor-web/src/pages/DesktopWidget/FloatingWidget.tsx:39-45 | hovering opens a collapsed panel, leaving closes an expanded one, and every other state is kept |
| `FloatingWidget.BackgroundClick` | xhmonitor-web/src/pages/DesktopWidget/FloatingWidget.tsx:48-58 | only a click on the container itself acts: an expanded panel locks, a locked one collapses, others stay |
| `FloatingWidget.ToggleClickthrough` | xhmonitor-web/src/pages/DesktopWidget/FloatingWidget.tsx:99-119 | locked and click-through swap, other states stay; the host is told the new setting exactly when there is a host and the state swapped |
| `FloatingWidget.UnlockClick` | xhmonitor-web/src/pages/DesktopWidget/FloatingWidget.tsx:216-221 | only a locked panel unlocks, to collapsed |
| `FloatingWidget.MetricClick` | xhmonitor-web/src/pages/DesktopWidget/FloatingWidget.tsx:60-80 | a metric posts its action exactly when clicking it is enabled and there is a host |
| `FloatingWidget.ProcessClick` | xhmonitor-web/src/pages/DesktopWidget/FloatingWidget.tsx:82-97 | a process row posts its id and name exactly when there is a host |
| `FloatingWidget.HoverEffectSettles` | xhmonitor-web/src/pages/DesktopWidget/FloatingWidget.tsx:39-45 | one run of the hover effect reaches its fixed point, so the re-run after the state it set changes nothing |
| `FloatingWidget.ControlsOnlyWhenExpanded` | xhmonitor-web/src/pages/DesktopWidget/FloatingWidget.tsx:121-122 | the panel is open in every state but collapsed, and its controls show only in the two locked states |
| `FloatingWidget.ToggleTwice` | xhmonitor-web/src/pages/DesktopWidget/FloatingWidget.tsx:99-119 | toggling click-through twice returns to the starting state, having told the host both settings |
| `FloatingWidget.SettledStates` | xhmonitor-web/src/pages/DesktopWidget/FloatingWidget.tsx:39-45 | in a settled state a collapsed panel means the pointer is away and an expanded one means it is over the panel |
| `FloatingWidget.Widget.constructor` | xhmonitor-web/src/pages/DesktopWidget/FloatingWidget.tsx:16-17 | the widget starts collapsed, not hovered, having posted nothing |
| `FloatingWidget.Widget.MouseEnter` | xhmonitor-web/src/pages/DesktopWidget/FloatingWidget.tsx:141 | entering sets hovering and runs the hover effect |
| `FloatingWidget.Widget.MouseLeave` | xhmonitor-web/src/pages/DesktopWidget/FloatingWidget.tsx:142 | leaving clears hovering and runs the hover effect |
| `FloatingWidget.Widget.OnBackgroundClick` | xhmonitor-web/src/pages/DesktopWidget/FloatingWidget.tsx:48-58 | a background click is followed by the hover effect on the new state |
| `FloatingWidget.Widget.OnToggleClickthrough` | xhmonitor-web/src/pages/DesktopWidget/FloatingWidget.tsx:99-119 | the toggle sets the new state, runs the hover effect and posts the setting when there is one |
| `FloatingWidget.Widget.OnUnlockClick` | xhmonitor-web/src/pages/DesktopWidget/FloatingWidget.tsx:216-221 | the unlock button is followed by the hover effect on the new state |
| `FloatingWidget.Widget.OnMetricClick` | xhmonitor-web/src/pages/DesktopWidget/FloatingWidget.tsx:60-80 | a metric click posts the action message when there is one and leaves the panel state alone |
| `FloatingWidget.UnlockWhileHoveringScenario` | xhmonitor-web/src/pages/DesktopWidget/FloatingWidget.tsx:39-58 | while hovering, unlocking a locked panel reopens it at once; only leaving closes it |
| `FloatingWidget.ClickthroughScenario` | xhmonitor-web/src/pages/DesktopWidget/FloatingWidget.tsx:99-119 | locking and toggling click-through on and off posts exactly the two settings and the panel stays locked after the pointer leaves |
| `FloatingWidget.Top5AsWritten` | xhmonitor-web/src/pages/DesktopWidget/FloatingWidget.tsx:26-36 | as written, at most five processes are listed, five when there are at least five |
| `FloatingWidget.SortByAllTiesKeepsOrder` | xhmonitor-web/src/pages/DesktopWidget/FloatingWidget.tsx:29-33 | a stable sort under a comparator that finds every pair equal keeps the input order |
| `FloatingWidget.Top5AsWrittenKeepsArrivalOrder` | xhmonitor-web/src/pages/DesktopWidget/FloatingWidget.tsx:29-35 | reading `.value` of a number metric gives no value, so every key is 0 and the first five processes are listed in arrival order |
| `FloatingWidget.Top5AsWrittenUnsorted` | xhmonitor-web/src/pages/DesktopWidget/FloatingWidget.tsx:30-32 | a process at 10% CPU before one at 90% is listed first as written, where the corrected list puts the busier one first |
| `FloatingWidget.Top5` | xhmonitor-web/src/pages/DesktopWidget/FloatingWidget.tsx:26-36 | corrected to sort by the CPU number: at most five processes are listed, five when there are at least five |
| `FloatingWidget.ByCpuDescendingAntisymmetric` | xhmonitor-web/src/pages/DesktopWidget/FloatingWidget.tsx:30-34 | the CPU comparator is antisymmetric |
| `FloatingWidget.Top5Facts` | xhmonitor-web/src/pages/DesktopWidget/FloatingWidget.tsx:26-36 | corrected: the listed processes come from the input, highest CPU first, and no process left out uses more CPU than any listed one |
| `WebUtils.Exponent` | xhmonitor-web/src/utils.ts:9 | the exponent is the power of 1024 whose range holds the size |
| `WebUtils.ExponentUnique` | xhmonitor-web/src/utils.ts:9 | that power is the only one whose range holds the size |
| `WebUtils.FormatBytesUndefinedUnit` | xhmonitor-web/src/utils.ts:5-11 | as written, a size below one byte or from 1024 TB on has the unit "undefined" |
| `WebUtils.HalfByteAsWritten` | xhmonitor-web/src/utils.ts:5-11 | as written, half a byte renders as 512.00 "undefined" |
| `WebUtils.UnitIndex` | xhmonitor-web/src/utils.ts:9-10 | the corrected unit index always lies within the five units |
| `WebUtils.FormatBytes` | xhmonitor-web/src/utils.ts:5-11 | corrected (the unit index is clamped to the table; as written, utils.ts:9-10 gives the unit "undefined", see Findings): a non-negative size is rendered with a finite amount in one of B, KB, MB, GB and TB |
| `WebUtils.FormatBytesRoundTrip` | xhmonitor-web/src/utils.ts:5-11 | the amount times its unit gives the size back |
| `WebUtils.FormatBytesInRange` | xhmonitor-web/src/utils.ts:5-11 | from one byte up to 1024 TB the amount lies in [1, 1024) and agrees with the code as written |
| `WebUtils.FormatBytesBelowOneByte` | xhmonitor-web/src/utils.ts:5-11 | below one byte the corrected rendering shows the size in bytes as it is |
| `WebUtils.SafeMegabytes` | xhmonitor-web/src/utils.ts:20 | the safe megabyte count is never negative |
| `WebUtils.TinyMegabytesAsWritten` | xhmonitor-web/src/utils.ts:19-22 | as written, half a millionth of a megabyte shows the unit "undefined" |
| `WebUtils.FormatMegabytesPartsFacts` | xhmonitor-web/src/utils.ts:13-22 | corrected (clamped unit index, as in `FormatBytes`; see Findings): a non-finite or non-positive size shows as 0 B; otherwise the parts are a finite amount in one of the five units standing for that many megabytes |
| `WebUtils.NetworkRateParts` | xhmonitor-web/src/utils.ts:29-47 | the unit is GB/s exactly from 1024 MB/s, MB/s exactly from 1 up to 1024, and KB/s below 1, with the unit's first letter as compact suffix |
| `WebUtils.NetworkRateApproximates` | xhmonitor-web/src/utils.ts:29-47 | the shown amount times its unit gives the rate back, exactly for GB/s and MB/s and to within half a KB/s for KB/s, with the amount in its unit's range |
| `WebUtils.JustUnderOneMegabyte` | xhmonitor-web/src/utils.ts:40-46 | just under 1 MB/s rounds up to 1024 KB/s rather than switching units |
| `WebUtils.SummedIsTotal` | xhmonitor-web/src/utils.ts:73-80 | every metric some process reports is summed, and only those, each as the sum of its values over all processes |
| `WebUtils.SummaryFacts` | xhmonitor-web/src/utils.ts:67-93 | the summary counts the processes, a finite machine-wide figure replaces its metric's sum, and every other metric is the sum over the processes, present exactly when some process reports it |
| `WebUtils.SumMetrics` | xhmonitor-web/src/utils.ts:73-80 | the nested loops build the per-metric sums |
| `WebUtils.CalculateSystemSummary` | xhmonitor-web/src/utils.ts:67-93 | the method computes the specified summary |

## Left out

- Sensors, WMI, PerformanceCounters, LibreHardwareMonitor and the `ryzenadj` executable: their readings and outputs are parameters; where the executable lives and how it is run is not modelled.
- Process enumeration and per-process collection: the process list and each process's figures are inputs.
- The SQLite database (EF Core queries, migrations and the reads inside the aggregation worker and the process scanner): the rows read are inputs.
- Concurrency: the power provider's double-checked lock is modelled as one sequential call with one clock reading; the scanner's parallel loop, the registry's and the web server's locks and all background tasks are sequential state machines.
- Clocks (`DateTime.UtcNow`, `Stopwatch`, `Date.now()`) are explicit time parameters, including the dynamic scaler's.
- Logging, console output and debug logs (the sortable hook's debug log among them) are not modelled.
- Rendering numbers as text (`ToString("0.#")`, `toFixed`, `String`, `string.Format`): a rendered number is kept as its value and digit count. Midpoint rounding is `Math.round`'s round-half-up only where the unit choice depends on it. The floating-point logarithm in `formatBytes` is the exact power of 1024.
- Floating point is modelled by reals, with NaN and the infinities only where the source tests for them; JSON input cannot carry NaN.
- `localeCompare` is modelled as the order of Unicode scalar values, which is UTF-16 code-unit order only inside the Basic Multilingual Plane; locale collation is not modelled. Lowercasing is ASCII lowercasing. JavaScript `trim` and .NET white-space tests both use one white-space predicate.
- The .NET regular expressions of the display-name rules and `string.Format` are abstract oracles passed to the resolver.
- `IPAddress.TryParse` and `double.TryParse` are parameters.
- ProcessList.SortBy: stability of `Array.prototype.sort` is not proved; the contract states a permutation with no neighbouring pair out of order.
- ProcessMetadataStore.MetadataStore.GetSnapshot: returns the stored snapshots as a set, not in the dictionary's enumeration order.
- RyzenAdjPowerProvider.PowerProvider.SwitchToNextScheme: after a verified switch the scheme index is stated only as below the number of schemes, together with agreement of the cached status, rather than as the exact matched index.
- RyzenAdjPowerProvider: the `(int)` cast of a wattage is modelled as saturating, as on .NET 9; `IsClose` compares unbounded integers.
- AdaptiveScroll.HysteresisBand: a table share between the release and the entry threshold keeps the mode only when the room below the table reaches the minimum height, because leaving process mode also fires on too little room; the lemma requires that room.
- LayoutState.Normalize: a NaN or infinite column count passes through `Math.round` and `Math.max` unchanged, so the column bound is stated for finite counts only.
- The request-animation-frame coalescing in the adaptive-scroll and sortable hooks is a pending flag, and in the sortable session a count of requested frames; the frames themselves, and the `setTimeout` fallback when requesting one throws, are not modelled.
- DOM geometry (bounding boxes, `elementFromPoint`, scroll offsets, media queries) is an input to the web modules; the card under the pointer is a parameter of the sortable session.
- FloatingWidget: whether the page is hosted in the desktop window (`window.chrome.webview`) is a parameter.
- The web `types.ts` metric shape (objects with a `value`) differs from what the service sends and the components read (plain numbers); the model follows the numbers, except for the desktop widget's top-five list, which reads `.value` and is a finding below.
- Rendering-only web formatters (`formatMetricValue`, `formatPercent`, `formatTimestamp`, `formatNetworkRateLabel`, `formatMegabytesLabel`) produce text only and are not modelled.
- WPF animations, storyboards, brushes and visual state (the organic visual state, the scroll bar, toasts, hotkeys and the stored window position) are not modelled.
- FloatingWindow: the long-press metric lookup and the actual `DragMove` are not modelled; the drag flags around them are.
- TaskbarMetricsWindow: `RefreshPlacementToDockAnchor`, `OnDeactivated` and `ReassertTopMost` depend on Win32 z-order and are not modelled. The screen that holds the anchor point (after `Math.Round`) is a parameter.
- WindowManagementService: the tray icon and the about, settings and web-interface windows, and the metric and process action handlers, are UI and service calls and are not modelled.
- `MonitorVram` and `DockVramLabel` are read by the window service and the taskbar view model but are absent from `TaskbarDisplaySettings`; the model keeps the settings class as written.
- WindowManagementService.ReadMonitoring: the last key read, `DockVisualStyle` (WindowManagementService.cs:274), only picks the taskbar's text or bar rendering and is not modelled; a null value there would throw after every modelled key has been read.
- AggregationWorker.Worker.AggregateLevel: runs the corrected window, which starts after the watermark's bucket, rather than the window as written at AggregationWorker.cs:91-97; the as-written window and the bucket it reads twice are modelled beside it (see Findings).
- FloatingWindow.KillButton.Clicked: applies the corrected click step, which stops the countdown before marking the button as killing, rather than the step as written at FloatingWindow.xaml.cs:772-779; the as-written step is modelled beside it (see Findings).
- TaskbarMetricsViewModel.MatchNumericPrefix: digits are the ASCII digits 0-9, while .NET's `\d` also matches the decimal digits of other scripts.
- TaskbarMetricsViewModel.ExtractUnitToken: letters are the ASCII letters and upper-casing is ASCII upper-casing, while the source uses `char.IsLetter` and `ToUpperInvariant` over all of Unicode.
- AdaptiveScroll.AdaptiveScroller: the hook's options are fixed when it is created; turning `enabled` off and on while it is mounted (useAdaptiveScroll.ts:166-168) is not modelled.
- WebServer: the security middleware is installed only when LAN access is enabled (WebServerService.cs:121); the model is that installed middleware. With LAN access off the server listens on localhost only and no request is checked, which is not modelled.
- ObservableCollectionExtensions: the framework collection's `Insert`, `RemoveAt` and `Move` are modelled from their documented behaviour, since the framework source is not part of this model.
- TaskbarMetricsViewModel: `RebuildColumns`, `CalculateItemLayout`, `CalculateBarItemLayout` and `FormattedText` measurement depend on text measurement. `StripDecimalsFromLeadingNumber`, the `BuildBar*Text` helpers, `FormatBarPercent` and `ResolveBarTextBrush` only render text or pick brushes. None of them is modelled.
- SystemMetricProvider: memory figures (`GlobalMemoryStatusEx`), hardware limits and warm-up are native calls and are not modelled.
- LayoutState: the background-image effects (IndexedDB blobs and object URLs) are not modelled. Whether `localStorage` is available is a parameter.
- ConfigurationValidator.ErrorList.ValidateAppSettings: an integer setting converts only from an optionally signed decimal text with surrounding white space; the configuration binder's other accepted forms (hexadecimal `0x`, `&h` or `#` prefixes) are not modelled, so such a text is taken as a throwing read.
- WebUtils.FormatBytes: models the corrected, clamped unit index rather than utils.ts:9-10 as written, which gives the unit "undefined" below one byte and from 1024 TB on; the as-written unit is modelled beside it (see Findings).
- WebUtils.FormatMegabytesParts: models the corrected, clamped unit index rather than the unclamped index it takes from utils.ts:9-10; see Findings.
- Converters.MiddleEllipsis and TaskbarMetricsViewModel.BuildDisplayText: lengths, cut points and the one-character-per-line stacking count Unicode scalar values, not the UTF-16 code units that .NET `Length`, `Substring` and `char` enumeration count; text outside the Basic Multilingual Plane, and a surrogate pair split by a cut, are not modelled.
- Utf8: strings are sequences of Unicode scalar values; a .NET string holding an unpaired surrogate, which the encoder replaces by U+FFFD, is not modelled.

## Findings

| source | as written | input that shows it | evidently intended | confidence | as-written member | corrected member |
|---|---|---|---|---|---|---|
| XhMonitor.Service/Workers/AggregationWorker.cs:91-97 | the next window starts at the watermark, the start of the last bucket already aggregated, so that bucket's rows are read again and it gets a second record | a minute record at M and a raw row at M plus one tick, with the current time at least a minute after M | start the window after the watermark's bucket, so each bucket is aggregated once | not executed | `AggregationWorker.WatermarkBucketReadAgain` | `AggregationWorker.PlanWindowReadsNewBuckets` |
| XhMonitor.Desktop/FloatingWindow.xaml.cs:772-779 | the button's tag is set to "killing" and only then compared with the countdown timer, so the timer is never stopped; its tick (lines 859-873) clears the "killing" tag while the kill is still running | enter a process row, click kill, click again to confirm, let the one-second countdown elapse, leave the row | stop the countdown before marking the button as killing, so the tag stays "killing" until the reset | not executed | `FloatingWindow.CountdownClearsKillingAsWritten` | `FloatingWindow.KillingHeldUntilReset` |
| xhmonitor-web/src/pages/DesktopWidget/FloatingWidget.tsx:31-32 | the CPU key reads `.value` of the metric, but metrics are plain numbers, so the key is always `undefined \|\| 0`, every comparison is 0 and the stable sort lists the first five processes in arrival order | a process at 10% CPU followed by one at 90%: the 10% one is listed first | read the CPU number itself, so the busiest five are listed, highest first | not executed | `FloatingWidget.Top5AsWrittenUnsorted` | `FloatingWidget.Top5Facts` |
| xhmonitor-web/src/utils.ts:9-10 | the unit index is the floor of the base-1024 logarithm, used unclamped, so sizes below one byte or from 1024 TB on get the unit "undefined" | `formatBytes(0.5)` gives "512.00 undefined"; `formatMegabytesParts(0.0000005)` likewise | clamp the index to the unit table | not executed | `WebUtils.HalfByteAsWritten` | `WebUtils.FormatBytesRoundTrip` |
