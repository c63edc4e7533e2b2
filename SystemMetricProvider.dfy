/** `SystemMetricProvider`: the service's system-wide usage snapshot. It
    keeps the metric providers by id, adds up network throughput from the
    hardware monitor's adapter sensors, reports per-disk throughput and
    capacity, and copies the power status into the snapshot. The hardware
    monitor's sensor lists and the providers' own readings are inputs. */
module SystemMetricProvider {
  import opened Common
  import opened Numbers
  import opened Results
  import Vram
  import MetricProviderRegistry
  import RyzenAdjPowerProvider

  // ---------------------------------------------------------------------
  // Metric providers by id

  /** A metric provider as the map sees it: an identity and its `MetricId`
      (`None` for null). */
  datatype MetricProvider = MetricProvider(handle: nat, metricId: Option<string>)

  /** The dictionary key of an id under `StringComparer.OrdinalIgnoreCase`. */
  function Key(id: string): string { ToLower(id) }

  /** Candidate p (`None` for a null entry) is stored under key k when it
      is the first one with that key. */
  predicate Registers(p: Option<MetricProvider>, k: string)
  {
    p.Some? && !IsNullOrWhiteSpace(p.value.metricId) && Key(p.value.metricId.value) == k
  }

  /** One iteration of `BuildProviderMap`: nulls and blank ids are skipped
      and `TryAdd` keeps an entry already present. */
  function WithProvider(m: map<string, MetricProvider>, p: Option<MetricProvider>): map<string, MetricProvider>
  {
    if p.None? || IsNullOrWhiteSpace(p.value.metricId) then m
    else
      var k := Key(p.value.metricId.value);
      if k in m then m else m[k := p.value]
  }

  /** The map built from the candidates, in order. */
  function ProviderMap(ps: seq<Option<MetricProvider>>): map<string, MetricProvider>
  {
    if ps == [] then map[] else WithProvider(ProviderMap(ps[..|ps| - 1]), ps[|ps| - 1])
  }

  lemma ProviderMapStep(ps: seq<Option<MetricProvider>>, i: nat)
    requires i < |ps|
    ensures ProviderMap(ps[..i + 1]) == WithProvider(ProviderMap(ps[..i]), ps[i])
  {
    assert ps[..i + 1][..i] == ps[..i];
  }

  /** `BuildProviderMap`: a null candidate list gives the empty map. */
  method BuildProviderMap(providers: Option<seq<Option<MetricProvider>>>) returns (m: map<string, MetricProvider>)
    ensures m == if providers.None? then map[] else ProviderMap(providers.value)
  {
    m := map[];
    if providers.None? {
      return;
    }
    var ps := providers.value;
    var i := 0;
    while i < |ps|
      invariant 0 <= i <= |ps|
      invariant m == ProviderMap(ps[..i])
    {
      ProviderMapStep(ps, i);
      var p := ps[i];
      if p.Some? && !IsNullOrWhiteSpace(p.value.metricId) {
        var k := Key(p.value.metricId.value);
        if k !in m {
          m := m[k := p.value];
        }
      }
      i := i + 1;
    }
    assert ps[..|ps|] == ps;
  }

  /** `GetProvider`: a blank id finds nothing; otherwise the id is looked
      up ignoring case. */
  function GetProvider(m: map<string, MetricProvider>, metricId: string): Option<MetricProvider>
  {
    if IsBlank(metricId) || Key(metricId) !in m then None else Some(m[Key(metricId)])
  }

  lemma WithProviderKeys(m: map<string, MetricProvider>, p: Option<MetricProvider>, k: string)
    ensures k in WithProvider(m, p) <==> k in m || Registers(p, k)
  {
  }

  /** A key is in the map exactly when some candidate registers under it. */
  lemma {:induction false} ProviderMapKeys(ps: seq<Option<MetricProvider>>, k: string)
    ensures k in ProviderMap(ps) <==> exists i :: 0 <= i < |ps| && Registers(ps[i], k)
  {
    if ps != [] {
      var init := ps[..|ps| - 1];
      ProviderMapKeys(init, k);
      WithProviderKeys(ProviderMap(init), ps[|ps| - 1], k);
      if exists i :: 0 <= i < |init| && Registers(init[i], k) {
        var i :| 0 <= i < |init| && Registers(init[i], k);
        assert init[i] == ps[i];
      }
      if exists i :: 0 <= i < |ps| && Registers(ps[i], k) {
        var i :| 0 <= i < |ps| && Registers(ps[i], k);
        if i < |init| {
          assert init[i] == ps[i];
        }
      }
    }
  }

  /** The first candidate registering under a key is the one stored: later
      duplicates, in any letter case, are ignored. */
  lemma {:induction false} ProviderMapFirstWins(ps: seq<Option<MetricProvider>>, k: string, i: nat)
    requires i < |ps| && Registers(ps[i], k)
    requires forall j :: 0 <= j < i ==> !Registers(ps[j], k)
    ensures k in ProviderMap(ps) && ProviderMap(ps)[k] == ps[i].value
  {
    var init := ps[..|ps| - 1];
    if i == |ps| - 1 {
      forall j | 0 <= j < |init|
        ensures !Registers(init[j], k)
      {
        assert init[j] == ps[j];
      }
      ProviderMapKeys(init, k);
    } else {
      assert Registers(init[i], k);
      forall j | 0 <= j < i
        ensures !Registers(init[j], k)
      {
        assert init[j] == ps[j];
      }
      ProviderMapFirstWins(init, k, i);
    }
  }

  /** Looking a provider up ignores the letter case of the id. */
  lemma GetProviderIgnoresCase(m: map<string, MetricProvider>, a: string, b: string)
    requires EqualsIgnoreCase(a, b)
    ensures GetProvider(m, a) == GetProvider(m, b)
  {
    MetricProviderRegistry.BlankIgnoresCase(a);
    MetricProviderRegistry.BlankIgnoresCase(b);
  }

  // ---------------------------------------------------------------------
  // Network adapters

  const VirtualAdapterKeywords: seq<string> := [
    "vEthernet", "Hyper-V", "VirtualBox", "VMware", "TAP-", "VPN", "Radmin", "Loopback", "Pseudo",
    "WireGuard", "OpenVPN", "Tun", "Fortinet", "Cisco AnyConnect", "TeamViewer", "AnyDesk", "Kernel"]

  const UploadSensorNamePatterns: seq<string> := ["upload", "send", "sent", "tx"]

  const DownloadSensorNamePatterns: seq<string> := ["download", "receive", "received", "rx"]

  /** A hardware monitor sensor reading: the hardware it belongs to (`None`
      for null), the sensor's name and its value. */
  datatype SensorReading = SensorReading(hardwareName: Option<string>, name: string, value: real)

  /** An adapter name is virtual when it is not blank and contains one of
      the keywords, ignoring case. */
  predicate IsVirtualName(hardwareName: Option<string>)
  {
    !IsNullOrWhiteSpace(hardwareName) && ContainsAny(hardwareName.value, VirtualAdapterKeywords)
  }

  /** `IsVirtualAdapter`: scans the keywords and stops at the first match. */
  method IsVirtualAdapter(hardwareName: Option<string>) returns (isVirtual: bool)
    ensures isVirtual <==> IsVirtualName(hardwareName)
  {
    if IsNullOrWhiteSpace(hardwareName) {
      return false;
    }
    var name := hardwareName.value;
    var k := 0;
    while k < |VirtualAdapterKeywords|
      invariant 0 <= k <= |VirtualAdapterKeywords|
      invariant forall j :: 0 <= j < k ==> !ContainsIgnoreCase(name, VirtualAdapterKeywords[j])
    {
      if ContainsIgnoreCase(name, VirtualAdapterKeywords[k]) {
        return true;
      }
      k := k + 1;
    }
    return false;
  }

  /** A network interface as the adapter check sees it. */
  datatype InterfaceType = Ethernet | Wireless80211 | OtherInterface

  datatype NetworkInterface = NetworkInterface(interfaceType: InterfaceType, name: string)

  /** The name of a wired or wireless interface with a non-blank name. */
  function PhysicalName(a: NetworkInterface): Option<string>
  {
    if (a.interfaceType == Ethernet || a.interfaceType == Wireless80211) && !IsBlank(a.name) then Some(a.name)
    else None
  }

  /** The folded names of a name list, as a case-insensitive hash set holds them. */
  function KeySet(names: seq<string>): set<string>
  {
    set n | n in names :: Key(n)
  }

  lemma KeySetMembership(names: seq<string>, k: string)
    ensures k in KeySet(names) <==> exists n :: n in names && Key(n) == k
  {
  }

  lemma KeySetStep(names: seq<string>, j: nat)
    requires j < |names|
    ensures KeySet(names[..j + 1]) == KeySet(names[..j]) + {Key(names[j])}
  {
    assert names[..j + 1] == names[..j] + [names[j]];
  }

  /** A hardware name is verified when it is not blank and its folded form
      is in the verified set. */
  predicate VerifiedIn(verified: set<string>, hardwareName: Option<string>)
  {
    !IsNullOrWhiteSpace(hardwareName) && Key(hardwareName.value) in verified
  }

  /** What the throughput loop does with one sensor. */
  datatype Traffic = Upload | Download | Ignored

  /** The loop's branches in order: virtual adapters, then unverified ones
      when some adapter is verified, then values that are not positive are
      skipped; upload patterns are tried before download patterns. */
  function Classify(s: SensorReading, verified: set<string>): Traffic
  {
    if IsVirtualName(s.hardwareName) then Ignored
    else if |verified| > 0 && !VerifiedIn(verified, s.hardwareName) then Ignored
    else if s.value <= 0.0 then Ignored
    else if ContainsAny(s.name, UploadSensorNamePatterns) then Upload
    else if ContainsAny(s.name, DownloadSensorNamePatterns) then Download
    else Ignored
  }

  /** The bytes per second the loop adds up for one direction. */
  function Total(ss: seq<SensorReading>, verified: set<string>, direction: Traffic): (r: real)
    requires direction != Ignored
    ensures r >= 0.0
  {
    if ss == [] then 0.0
    else
      var last := ss[|ss| - 1];
      Total(ss[..|ss| - 1], verified, direction) + (if Classify(last, verified) == direction then last.value else 0.0)
  }

  lemma TotalStep(ss: seq<SensorReading>, verified: set<string>, i: nat)
    requires i < |ss|
    ensures Total(ss[..i + 1], verified, Upload)
      == Total(ss[..i], verified, Upload) + (if Classify(ss[i], verified) == Upload then ss[i].value else 0.0)
    ensures Total(ss[..i + 1], verified, Download)
      == Total(ss[..i], verified, Download) + (if Classify(ss[i], verified) == Download then ss[i].value else 0.0)
  {
    assert ss[..i + 1][..i] == ss[..i];
  }

  /** `ConvertThroughputToMbps`: bytes per second to MiB per second. */
  function ConvertThroughputToMbps(bytesPerSecond: real): (mbps: real)
    ensures mbps >= 0.0
    ensures bytesPerSecond > 0.0 ==> mbps * 1048576.0 == bytesPerSecond
    ensures bytesPerSecond <= 0.0 ==> mbps == 0.0
  {
    if bytesPerSecond <= 0.0 then 0.0 else bytesPerSecond / (1024.0 * 1024.0)
  }

  /** The (upload, download) speeds of `GetNetworkSpeed`: zero when the
      hardware monitor is unavailable, reading the sensors throws, or there
      are none. */
  function NetworkSpeed(managerAvailable: bool, sensors: Access<seq<SensorReading>>, verified: set<string>): (real, real)
  {
    if !managerAvailable || sensors.Threw? || |sensors.v| == 0 then (0.0, 0.0)
    else (ConvertThroughputToMbps(Total(sensors.v, verified, Upload)),
          ConvertThroughputToMbps(Total(sensors.v, verified, Download)))
  }

  /** A sensor that passes the adapter and value filters and matches either
      direction's patterns. */
  predicate Counted(s: SensorReading, verified: set<string>)
  {
    && !IsVirtualName(s.hardwareName)
    && (|verified| == 0 || VerifiedIn(verified, s.hardwareName))
    && s.value > 0.0
    && (ContainsAny(s.name, UploadSensorNamePatterns) || ContainsAny(s.name, DownloadSensorNamePatterns))
  }

  /** The sum of the counted sensors' values, directions not told apart. */
  function CountedSum(ss: seq<SensorReading>, verified: set<string>): real
  {
    if ss == [] then 0.0
    else CountedSum(ss[..|ss| - 1], verified) + (if Counted(ss[|ss| - 1], verified) then ss[|ss| - 1].value else 0.0)
  }

  /** No sensor is lost and none is counted twice: the two totals add up
      to the counted sensors' sum. */
  lemma {:induction false} TotalsPartition(ss: seq<SensorReading>, verified: set<string>)
    ensures Total(ss, verified, Upload) + Total(ss, verified, Download) == CountedSum(ss, verified)
  {
    if ss != [] {
      TotalsPartition(ss[..|ss| - 1], verified);
    }
  }

  /** A sensor matching both directions counts as upload only. */
  lemma UploadPatternsFirst(s: SensorReading, verified: set<string>)
    requires Counted(s, verified) && ContainsAny(s.name, DownloadSensorNamePatterns)
    requires ContainsAny(s.name, UploadSensorNamePatterns)
    ensures Classify(s, verified) == Upload && Classify(s, verified) != Download
  {
  }

  /** Sensors the loop skips change neither total. */
  lemma {:induction false} IgnoredAddNothing(ss: seq<SensorReading>, extra: seq<SensorReading>, verified: set<string>, direction: Traffic)
    requires direction != Ignored
    requires forall j :: 0 <= j < |extra| ==> Classify(extra[j], verified) == Ignored
    ensures Total(ss + extra, verified, direction) == Total(ss, verified, direction)
  {
    if extra != [] {
      var all := ss + extra;
      var init := extra[..|extra| - 1];
      assert all[..|all| - 1] == ss + init;
      assert all[|all| - 1] == extra[|extra| - 1];
      forall j | 0 <= j < |init|
        ensures Classify(init[j], verified) == Ignored
      {
        assert init[j] == extra[j];
      }
      IgnoredAddNothing(ss, init, verified, direction);
    } else {
      assert ss + extra == ss;
    }
  }

  lemma TotalOfPair(a: SensorReading, b: SensorReading, verified: set<string>, direction: Traffic)
    requires direction != Ignored
    ensures Total([a, b], verified, direction)
      == (if Classify(a, verified) == direction then a.value else 0.0) + (if Classify(b, verified) == direction then b.value else 0.0)
  {
    assert [a, b][..1] == [a] && [a][..0] == [] && [a, b][1] == b;
    assert Total([a], verified, direction) == (if Classify(a, verified) == direction then a.value else 0.0);
  }

  /** The adapter names of the virtual-adapter scenario are virtual. */
  lemma HyperVIsVirtual()
    ensures IsVirtualName(Some("Hyper-V" + " Virtual Ethernet Adapter"))
  {
    KeywordNameIsVirtual(1, " Virtual Ethernet Adapter");
  }

  lemma VpnIsVirtual()
    ensures IsVirtualName(Some("VPN" + " Adapter"))
  {
    KeywordNameIsVirtual(5, " Adapter");
  }

  /** Sensors on virtual adapters are always skipped. */
  lemma VirtualIsIgnored(s: SensorReading, verified: set<string>)
    requires IsVirtualName(s.hardwareName)
    ensures Classify(s, verified) == Ignored
  {
  }

  /** An adapter named after a keyword is virtual, whatever follows. */
  lemma KeywordNameIsVirtual(k: nat, rest: string)
    requires k < |VirtualAdapterKeywords|
    requires !IsWhiteSpace(VirtualAdapterKeywords[k][0])
    ensures IsVirtualName(Some(VirtualAdapterKeywords[k] + rest))
  {
    var keyword := VirtualAdapterKeywords[k];
    var name := keyword + rest;
    ContainsOwnPrefix(keyword, rest);
    assert ContainsIgnoreCase(name, VirtualAdapterKeywords[k]);
    assert name[0] == keyword[0];
  }

  // ---------------------------------------------------------------------
  // Disks

  const DiskReadSensorNamePatterns: seq<string> := ["Read", "Read Rate", "Read Speed"]

  const DiskWriteSensorNamePatterns: seq<string> := ["Write", "Write Rate", "Write Speed"]

  const TotalSpacePatterns: seq<string> := ["Total Space", "Total Size", "Total Capacity"]

  const FreeSpacePatterns: seq<string> := ["Free Space", "Available Space", "Available", "Free"]

  /** The storage sensor lists: throughput, data and small data (a null
      list is empty). */
  datatype StorageReadings = StorageReadings(throughput: seq<SensorReading>, data: seq<SensorReading>, smallData: seq<SensorReading>)

  /** `DiskUsage`: bytes as whole numbers, speeds in MiB/s, `None` for null. */
  datatype DiskUsage = DiskUsage(name: string, totalBytes: Option<int>, usedBytes: Option<int>,
                                 readSpeed: Option<real>, writeSpeed: Option<real>)

  /** The sensor belongs to the disk: a null hardware name never does. */
  predicate OnDisk(s: SensorReading, diskName: string)
  {
    s.hardwareName.Some? && EqualsIgnoreCase(s.hardwareName.value, diskName)
  }

  datatype DiskDirection = DiskRead | DiskWrite | NotCounted

  /** The disk throughput loop's branches: other disks and negative values
      are skipped; a read pattern without a write pattern is a read, and
      otherwise any write pattern is a write. */
  function DirectionOf(s: SensorReading, diskName: string): DiskDirection
  {
    if !OnDisk(s, diskName) || s.value < 0.0 then NotCounted
    else if ContainsAny(s.name, DiskReadSensorNamePatterns) && !ContainsAny(s.name, DiskWriteSensorNamePatterns) then DiskRead
    else if ContainsAny(s.name, DiskWriteSensorNamePatterns) then DiskWrite
    else NotCounted
  }

  function DiskTotal(ss: seq<SensorReading>, diskName: string, d: DiskDirection): (r: real)
    requires d != NotCounted
    ensures r >= 0.0
  {
    if ss == [] then 0.0
    else
      var last := ss[|ss| - 1];
      DiskTotal(ss[..|ss| - 1], diskName, d) + (if DirectionOf(last, diskName) == d then last.value else 0.0)
  }

  /** Some sensor counts in direction d. */
  predicate HasDirection(ss: seq<SensorReading>, diskName: string, d: DiskDirection)
  {
    exists i :: 0 <= i < |ss| && DirectionOf(ss[i], diskName) == d
  }

  /** (read, write) MiB/s of `GetDiskThroughput`: a direction no sensor
      counts in is `None`. */
  function DiskThroughput(ss: seq<SensorReading>, diskName: string): (Option<real>, Option<real>)
  {
    if |ss| == 0 || IsBlank(diskName) then (None, None)
    else
      (if HasDirection(ss, diskName, DiskRead) then Some(ConvertThroughputToMbps(DiskTotal(ss, diskName, DiskRead))) else None,
       if HasDirection(ss, diskName, DiskWrite) then Some(ConvertThroughputToMbps(DiskTotal(ss, diskName, DiskWrite))) else None)
  }

  lemma DiskStep(ss: seq<SensorReading>, diskName: string, i: nat, d: DiskDirection)
    requires i < |ss| && d != NotCounted
    ensures DiskTotal(ss[..i + 1], diskName, d)
      == DiskTotal(ss[..i], diskName, d) + (if DirectionOf(ss[i], diskName) == d then ss[i].value else 0.0)
    ensures HasDirection(ss[..i + 1], diskName, d) <==> HasDirection(ss[..i], diskName, d) || DirectionOf(ss[i], diskName) == d
  {
    var next := ss[..i + 1];
    assert next[..i] == ss[..i];
    HasDirectionStep(ss[..i], ss[i], diskName, d);
    assert ss[..i] + [ss[i]] == next;
  }

  lemma HasDirectionStep(ss: seq<SensorReading>, s: SensorReading, diskName: string, d: DiskDirection)
    requires d != NotCounted
    ensures HasDirection(ss + [s], diskName, d) <==> HasDirection(ss, diskName, d) || DirectionOf(s, diskName) == d
  {
    var all := ss + [s];
    if HasDirection(all, diskName, d) {
      var j :| 0 <= j < |all| && DirectionOf(all[j], diskName) == d;
      if j < |ss| {
        assert ss[j] == all[j];
      }
    }
    if HasDirection(ss, diskName, d) {
      var j :| 0 <= j < |ss| && DirectionOf(ss[j], diskName) == d;
      assert ss[j] == all[j];
    }
    if DirectionOf(s, diskName) == d {
      assert all[|ss|] == s;
    }
  }

  /** `GetDiskThroughput`. */
  method GetDiskThroughput(sensors: seq<SensorReading>, diskName: string) returns (readSpeed: Option<real>, writeSpeed: Option<real>)
    ensures (readSpeed, writeSpeed) == DiskThroughput(sensors, diskName)
  {
    if |sensors| == 0 || IsBlank(diskName) {
      return None, None;
    }
    var readBytes, writeBytes := 0.0, 0.0;
    var readFound, writeFound := false, false;
    var i := 0;
    while i < |sensors|
      invariant 0 <= i <= |sensors|
      invariant readBytes == DiskTotal(sensors[..i], diskName, DiskRead)
      invariant writeBytes == DiskTotal(sensors[..i], diskName, DiskWrite)
      invariant readFound == HasDirection(sensors[..i], diskName, DiskRead)
      invariant writeFound == HasDirection(sensors[..i], diskName, DiskWrite)
    {
      DiskStep(sensors, diskName, i, DiskRead);
      DiskStep(sensors, diskName, i, DiskWrite);
      var s := sensors[i];
      if OnDisk(s, diskName) && s.value >= 0.0 {
        if ContainsAny(s.name, DiskReadSensorNamePatterns) && !ContainsAny(s.name, DiskWriteSensorNamePatterns) {
          readFound := true;
          readBytes := readBytes + s.value;
        } else if ContainsAny(s.name, DiskWriteSensorNamePatterns) {
          writeFound := true;
          writeBytes := writeBytes + s.value;
        }
      }
      i := i + 1;
    }
    assert sensors[..|sensors|] == sensors;
    readSpeed := if readFound then Some(ConvertThroughputToMbps(readBytes)) else None;
    writeSpeed := if writeFound then Some(ConvertThroughputToMbps(writeBytes)) else None;
  }

  /** Readings of other disks change neither direction. */
  lemma {:induction false} OtherDisksIgnored(ss: seq<SensorReading>, others: seq<SensorReading>, diskName: string, d: DiskDirection)
    requires d != NotCounted
    requires forall j :: 0 <= j < |others| ==> !OnDisk(others[j], diskName)
    ensures DiskTotal(ss + others, diskName, d) == DiskTotal(ss, diskName, d)
    ensures HasDirection(ss + others, diskName, d) <==> HasDirection(ss, diskName, d)
  {
    if others != [] {
      var all := ss + others;
      var init := others[..|others| - 1];
      assert all[..|all| - 1] == ss + init;
      assert all[|all| - 1] == others[|others| - 1];
      forall j | 0 <= j < |init|
        ensures !OnDisk(init[j], diskName)
      {
        assert init[j] == others[j];
      }
      OtherDisksIgnored(ss, init, diskName, d);
      HasDirectionStep(ss + init, others[|others| - 1], diskName, d);
      assert (ss + init) + [others[|others| - 1]] == all;
    } else {
      assert ss + others == ss;
    }
  }

  /** A sensor named with both a read and a write pattern counts as a write. */
  lemma BothPatternsCountAsWrite(s: SensorReading, diskName: string)
    requires OnDisk(s, diskName) && s.value >= 0.0
    requires ContainsAny(s.name, DiskReadSensorNamePatterns) && ContainsAny(s.name, DiskWriteSensorNamePatterns)
    ensures DirectionOf(s, diskName) == DiskWrite
  {
  }

  /** Matching sensors of `FindDiskSensorValue`. */
  predicate Matches(s: SensorReading, diskName: string, patterns: seq<string>, requirePositive: bool)
  {
    OnDisk(s, diskName) && ContainsAny(s.name, patterns) && !(requirePositive && s.value <= 0.0)
  }

  /** The best value so far: a sensor replaces it only when strictly greater. */
  function BestValue(ss: seq<SensorReading>, diskName: string, patterns: seq<string>, requirePositive: bool): Option<real>
  {
    if ss == [] then None
    else
      var best := BestValue(ss[..|ss| - 1], diskName, patterns, requirePositive);
      var last := ss[|ss| - 1];
      if Matches(last, diskName, patterns, requirePositive) && (best.None? || last.value > best.value) then Some(last.value)
      else best
  }

  /** `FindDiskSensorValue`. */
  method FindDiskSensorValue(sensors: seq<SensorReading>, diskName: string, patterns: seq<string>, requirePositive: bool)
    returns (best: Option<real>)
    ensures best == BestValue(sensors, diskName, patterns, requirePositive)
  {
    best := None;
    var i := 0;
    while i < |sensors|
      invariant 0 <= i <= |sensors|
      invariant best == BestValue(sensors[..i], diskName, patterns, requirePositive)
    {
      assert sensors[..i + 1][..i] == sensors[..i];
      var s := sensors[i];
      if OnDisk(s, diskName) && ContainsAny(s.name, patterns) && !(requirePositive && s.value <= 0.0) {
        if best.None? || s.value > best.value {
          best := Some(s.value);
        }
      }
      i := i + 1;
    }
    assert sensors[..|sensors|] == sensors;
  }

  /** The found value is the maximum over the matching sensors, and there is
      none exactly when no sensor matches. */
  lemma {:induction false} BestIsMaximum(ss: seq<SensorReading>, diskName: string, patterns: seq<string>, requirePositive: bool)
    ensures BestValue(ss, diskName, patterns, requirePositive).None? <==>
      forall i :: 0 <= i < |ss| ==> !Matches(ss[i], diskName, patterns, requirePositive)
    ensures BestValue(ss, diskName, patterns, requirePositive).Some? ==>
      && (exists i :: 0 <= i < |ss| && Matches(ss[i], diskName, patterns, requirePositive)
                       && ss[i].value == BestValue(ss, diskName, patterns, requirePositive).value)
      && (forall i :: 0 <= i < |ss| && Matches(ss[i], diskName, patterns, requirePositive) ==>
            ss[i].value <= BestValue(ss, diskName, patterns, requirePositive).value)
  {
    if ss != [] {
      var init := ss[..|ss| - 1];
      BestIsMaximum(init, diskName, patterns, requirePositive);
      var best := BestValue(ss, diskName, patterns, requirePositive);
      forall i | 0 <= i < |init|
        ensures init[i] == ss[i]
      {
      }
      if best.Some? && best != BestValue(init, diskName, patterns, requirePositive) {
        assert Matches(ss[|ss| - 1], diskName, patterns, requirePositive);
      }
    }
  }

  /** `ConvertGbToBytes`: GiB to bytes, rounded half to even. */
  function ConvertGbToBytes(gb: real): (bytes: int)
    ensures Abs(gb * 1073741824.0 - bytes as real) <= 0.5
    ensures gb >= 0.0 ==> bytes >= 0
  {
    RoundHalfEven(gb * 1024.0 * 1024.0 * 1024.0)
  }

  /** (total, used) bytes of `GetDiskCapacityFromLhm`: the largest positive
      total and the largest free value over both data lists; used is total
      minus free, then clamped into [0, total]. */
  function DiskCapacity(data: seq<SensorReading>, smallData: seq<SensorReading>, diskName: string): (Option<int>, Option<int>)
  {
    if IsBlank(diskName) then (None, None)
    else
      var totalGb := BestValue(data + smallData, diskName, TotalSpacePatterns, true);
      var freeGb := BestValue(data + smallData, diskName, FreeSpacePatterns, false);
      var totalBytes := if totalGb.Some? && totalGb.value > 0.0 then Some(ConvertGbToBytes(totalGb.value)) else None;
      var usedBytes :=
        if totalBytes.Some? && freeGb.Some? && freeGb.value >= 0.0 then Some(totalBytes.value - ConvertGbToBytes(freeGb.value))
        else None;
      var clamped :=
        if totalBytes.Some? && usedBytes.Some? && usedBytes.value > totalBytes.value then totalBytes
        else if usedBytes.Some? && usedBytes.value < 0 then Some(0)
        else usedBytes;
      (totalBytes, clamped)
  }

  /** `GetDiskCapacityFromLhm`. */
  method GetDiskCapacityFromLhm(data: seq<SensorReading>, smallData: seq<SensorReading>, diskName: string)
    returns (totalBytes: Option<int>, usedBytes: Option<int>)
    ensures (totalBytes, usedBytes) == DiskCapacity(data, smallData, diskName)
  {
    if IsBlank(diskName) {
      return None, None;
    }
    var totalGb := FindDiskSensorValue(data + smallData, diskName, TotalSpacePatterns, true);
    var freeGb := FindDiskSensorValue(data + smallData, diskName, FreeSpacePatterns, false);
    totalBytes := None;
    if totalGb.Some? && totalGb.value > 0.0 {
      totalBytes := Some(ConvertGbToBytes(totalGb.value));
    }
    usedBytes := None;
    if totalBytes.Some? && freeGb.Some? && freeGb.value >= 0.0 {
      usedBytes := Some(totalBytes.value - ConvertGbToBytes(freeGb.value));
    }
    if totalBytes.Some? && usedBytes.Some? && usedBytes.value > totalBytes.value {
      usedBytes := totalBytes;
    } else if usedBytes.Some? && usedBytes.value < 0 {
      usedBytes := Some(0);
    }
  }

  /** The total exists only for a positive reading; used needs a total and a
      non-negative free reading, lies in [0, total], and is total minus
      free whenever that difference is not negative. */
  lemma CapacityBounds(data: seq<SensorReading>, smallData: seq<SensorReading>, diskName: string)
    ensures var (total, used) := DiskCapacity(data, smallData, diskName);
      var totalGb := BestValue(data + smallData, diskName, TotalSpacePatterns, true);
      var freeGb := BestValue(data + smallData, diskName, FreeSpacePatterns, false);
      && (total.Some? <==> !IsBlank(diskName) && totalGb.Some? && totalGb.value > 0.0)
      && (total.Some? ==> total.value >= 0)
      && (used.Some? <==> total.Some? && freeGb.Some? && freeGb.value >= 0.0)
      && (used.Some? ==> 0 <= used.value <= total.value)
      && (used.Some? && total.value - ConvertGbToBytes(freeGb.value) >= 0 ==>
            used.value == total.value - ConvertGbToBytes(freeGb.value))
  {
  }

  /** The disk names collected so far, in the order first seen. */
  predicate HasKey(names: seq<string>, k: string)
  {
    exists i :: 0 <= i < |names| && Key(names[i]) == k
  }

  /** One `AddHardwareNames` pass: non-blank hardware names not yet present
      (ignoring case) are appended. */
  function WithHardwareNames(names: seq<string>, ss: seq<SensorReading>): seq<string>
  {
    if ss == [] then names
    else
      var acc := WithHardwareNames(names, ss[..|ss| - 1]);
      var h := ss[|ss| - 1].hardwareName;
      if IsNullOrWhiteSpace(h) || HasKey(acc, Key(h.value)) then acc else acc + [h.value]
  }

  /** `AddHardwareNames`. */
  method AddHardwareNames(names: seq<string>, sensors: seq<SensorReading>) returns (r: seq<string>)
    ensures r == WithHardwareNames(names, sensors)
  {
    r := names;
    var i := 0;
    while i < |sensors|
      invariant 0 <= i <= |sensors|
      invariant r == WithHardwareNames(names, sensors[..i])
    {
      assert sensors[..i + 1][..i] == sensors[..i];
      var h := sensors[i].hardwareName;
      if !IsNullOrWhiteSpace(h) && !HasKey(r, Key(h.value)) {
        r := r + [h.value];
      }
      i := i + 1;
    }
    assert sensors[..|sensors|] == sensors;
  }

  predicate KeysDistinct(names: seq<string>)
  {
    forall i, j :: 0 <= i < j < |names| ==> Key(names[i]) != Key(names[j])
  }

  /** A key is collected exactly when it was there before or some sensor
      has a non-blank hardware name with that key; no key is collected twice. */
  lemma {:induction false} HardwareNamesCover(names: seq<string>, ss: seq<SensorReading>, k: string)
    ensures HasKey(WithHardwareNames(names, ss), k) <==>
      HasKey(names, k) || exists i :: 0 <= i < |ss| && !IsNullOrWhiteSpace(ss[i].hardwareName) && Key(ss[i].hardwareName.value) == k
    ensures KeysDistinct(names) ==> KeysDistinct(WithHardwareNames(names, ss))
  {
    if ss != [] {
      var init := ss[..|ss| - 1];
      var acc := WithHardwareNames(names, init);
      HardwareNamesCover(names, init, k);
      forall i | 0 <= i < |init|
        ensures init[i] == ss[i]
      {
      }
      var r := WithHardwareNames(names, ss);
      if r != acc {
        var h := ss[|ss| - 1].hardwareName.value;
        assert r == acc + [h];
        if HasKey(r, k) {
          var i :| 0 <= i < |r| && Key(r[i]) == k;
          if i < |acc| {
            assert Key(acc[i]) == k;
          }
        }
        if HasKey(acc, k) {
          var i :| 0 <= i < |acc| && Key(acc[i]) == k;
          assert Key(r[i]) == k;
        }
        assert Key(r[|acc|]) == Key(h);
        if KeysDistinct(acc) {
          forall i, j | 0 <= i < j < |r|
            ensures Key(r[i]) != Key(r[j])
          {
            if j == |acc| {
              assert Key(acc[i]) == Key(r[i]);
            } else {
              assert r[i] == acc[i] && r[j] == acc[j];
            }
          }
        }
      }
    }
  }

  /** The disk names `GetDiskUsages` walks, from all three lists. */
  function DiskNames(r: StorageReadings): seq<string>
  {
    WithHardwareNames(WithHardwareNames(WithHardwareNames([], r.throughput), r.data), r.smallData)
  }

  /** The entry for one disk, `None` when all four fields are null. */
  function UsageOf(r: StorageReadings, name: string): Option<DiskUsage>
  {
    var (readSpeed, writeSpeed) := DiskThroughput(r.throughput, name);
    var (totalBytes, usedBytes) := DiskCapacity(r.data, r.smallData, name);
    if totalBytes.None? && usedBytes.None? && readSpeed.None? && writeSpeed.None? then None
    else Some(DiskUsage(name, totalBytes, usedBytes, readSpeed, writeSpeed))
  }

  function UsageFor(r: StorageReadings): string -> Option<DiskUsage>
  {
    name => UsageOf(r, name)
  }

  /** The disks of `GetDiskUsages`: none when the hardware monitor is
      unavailable or reading throws. */
  function DiskUsages(managerAvailable: bool, storage: Access<StorageReadings>): seq<DiskUsage>
  {
    if !managerAvailable || storage.Threw? then [] else FilterMap(DiskNames(storage.v), UsageFor(storage.v))
  }

  /** The body of the loop over the disk names in `GetDiskUsages`. */
  method DiskUsageOf(r: StorageReadings, name: string) returns (usage: Option<DiskUsage>)
    ensures usage == UsageOf(r, name)
  {
    var readSpeed, writeSpeed := GetDiskThroughput(r.throughput, name);
    var totalBytes, usedBytes := GetDiskCapacityFromLhm(r.data, r.smallData, name);
    usage := None;
    if !(totalBytes.None? && usedBytes.None? && readSpeed.None? && writeSpeed.None?) {
      usage := Some(DiskUsage(name, totalBytes, usedBytes, readSpeed, writeSpeed));
    }
  }

  /** `GetDiskUsages`. */
  method GetDiskUsages(managerAvailable: bool, storage: Access<StorageReadings>) returns (disks: seq<DiskUsage>)
    ensures disks == DiskUsages(managerAvailable, storage)
  {
    if !managerAvailable || storage.Threw? {
      return [];
    }
    var r := storage.v;
    var names := AddHardwareNames([], r.throughput);
    names := AddHardwareNames(names, r.data);
    names := AddHardwareNames(names, r.smallData);
    if |names| == 0 {
      return [];
    }
    disks := [];
    var i := 0;
    while i < |names|
      invariant 0 <= i <= |names|
      invariant disks + FilterMap(names[i..], UsageFor(r)) == FilterMap(names, UsageFor(r))
    {
      var usage := DiskUsageOf(r, names[i]);
      FilterMapStep(disks, names, i, UsageFor(r), usage);
      disks := disks + OptionToSeq(usage);
      i := i + 1;
    }
    assert names[|names|..] == [];
  }

  /** Every reported disk carries at least one value and is one of the disk
      names; every named disk with some value is reported; no two reported
      names are equal ignoring case. */
  lemma DiskUsagesFacts(r: StorageReadings)
    ensures forall u :: u in DiskUsages(true, Returned(r)) ==>
      && (u.totalBytes.Some? || u.usedBytes.Some? || u.readSpeed.Some? || u.writeSpeed.Some?)
      && u.name in DiskNames(r) && UsageOf(r, u.name) == Some(u)
    ensures forall n :: n in DiskNames(r) && UsageOf(r, n).Some? ==> UsageOf(r, n).value in DiskUsages(true, Returned(r))
    ensures KeysDistinct(DiskNames(r))
  {
    var names := DiskNames(r);
    FilterMapMembership(names, UsageFor(r));
    forall n | n in names && UsageOf(r, n).Some?
      ensures UsageOf(r, n).value in DiskUsages(true, Returned(r))
    {
      var i :| 0 <= i < |names| && names[i] == n;
      assert UsageFor(r)(names[i]).Some?;
    }
    var first := WithHardwareNames([], r.throughput);
    var second := WithHardwareNames(first, r.data);
    HardwareNamesCover([], r.throughput, "");
    HardwareNamesCover(first, r.data, "");
    HardwareNamesCover(second, r.smallData, "");
  }

  // ---------------------------------------------------------------------
  // The usage snapshot

  /** The optional power provider: absent, or present with its
      `IsSupported()` answer and what `GetStatusAsync` would return. */
  datatype PowerSource = NoPowerProvider | PowerProviderOf(supported: bool, statusRead: Option<RyzenAdjPowerProvider.PowerStatus>)

  /** What the hardware monitor gives: whether it is available, and the
      network and storage sensor lists (or the exception reading throws). */
  datatype HardwareReadings = HardwareReadings(
    managerAvailable: bool, network: Access<seq<SensorReading>>, storage: Access<StorageReadings>)

  /** `SystemUsage` without memory and timestamp. */
  datatype SystemUsage = SystemUsage(
    totalCpu: Double, totalGpu: Double, totalVram: Double,
    uploadSpeed: real, downloadSpeed: real, disks: seq<DiskUsage>,
    powerAvailable: bool, totalPower: Double, maxPower: Double, powerSchemeIndex: Option<nat>)

  /** The status awaited: `GetStatusAsync` is called only for a present,
      supported provider. */
  function PowerStatusOf(power: PowerSource): Option<RyzenAdjPowerProvider.PowerStatus>
  {
    if power.PowerProviderOf? && power.supported then power.statusRead else None
  }

  /** A provider's total, 0 when the id has no provider. */
  function TotalOf(m: map<string, MetricProvider>, metricId: string, totals: MetricProvider -> Double): Double
  {
    var p := GetProvider(m, metricId);
    if p.None? then Finite(0.0) else totals(p.value)
  }

  /** `GetVramUsageAsync`: valid VRAM metrics give their used amount, else
      the provider's total. */
  function VramOf(m: map<string, MetricProvider>, totals: MetricProvider -> Double,
                  vram: MetricProvider -> Option<Vram.VramMetrics>): Double
  {
    var p := GetProvider(m, "vram");
    if p.None? then Finite(0.0)
    else if vram(p.value).Some? && vram(p.value).value.IsValid() then Finite(vram(p.value).value.used)
    else totals(p.value)
  }

  function UsageSnapshot(m: map<string, MetricProvider>, verified: set<string>,
                         totals: MetricProvider -> Double, vram: MetricProvider -> Option<Vram.VramMetrics>,
                         hardware: HardwareReadings, power: PowerSource): SystemUsage
  {
    var status := PowerStatusOf(power);
    var (upload, download) := NetworkSpeed(hardware.managerAvailable, hardware.network, verified);
    SystemUsage(
      TotalOf(m, "cpu", totals), TotalOf(m, "gpu", totals), VramOf(m, totals, vram),
      upload, download, DiskUsages(hardware.managerAvailable, hardware.storage),
      status.Some?,
      if status.Some? then status.value.currentWatts else Finite(0.0),
      if status.Some? then status.value.limitWatts else Finite(0.0),
      if status.Some? then status.value.schemeIndex else None)
  }

  /** Power is available exactly when a present, supported provider gave a
      status, whose values are then copied; otherwise both watt fields are
      0 and there is no scheme index. */
  lemma PowerFields(m: map<string, MetricProvider>, verified: set<string>,
                    totals: MetricProvider -> Double, vram: MetricProvider -> Option<Vram.VramMetrics>,
                    hardware: HardwareReadings, power: PowerSource)
    ensures var u := UsageSnapshot(m, verified, totals, vram, hardware, power);
      && (u.powerAvailable <==> power.PowerProviderOf? && power.supported && power.statusRead.Some?)
      && (!u.powerAvailable ==> u.totalPower == Finite(0.0) && u.maxPower == Finite(0.0) && u.powerSchemeIndex.None?)
      && (u.powerAvailable ==>
            && u.totalPower == power.statusRead.value.currentWatts
            && u.maxPower == power.statusRead.value.limitWatts
            && u.powerSchemeIndex == power.statusRead.value.schemeIndex)
  {
  }

  // ---------------------------------------------------------------------
  // The provider object

  class SystemMetricProvider {
    const providers: map<string, MetricProvider>
    /** The folded names of the verified physical adapters. */
    var verifiedPhysicalAdapters: set<string>

    /** Builds the provider map; no adapter is verified yet. */
    constructor(candidates: Option<seq<Option<MetricProvider>>>)
      ensures providers == if candidates.None? then map[] else ProviderMap(candidates.value)
      ensures verifiedPhysicalAdapters == {}
    {
      var m := BuildProviderMap(candidates);
      providers := m;
      verifiedPhysicalAdapters := {};
    }

    predicate HasVerifiedPhysicalAdapters()
      reads this
    {
      |verifiedPhysicalAdapters| > 0
    }

    predicate IsPhysicalAdapterVerified(hardwareName: Option<string>)
      reads this
    {
      VerifiedIn(verifiedPhysicalAdapters, hardwareName)
    }

    /** `VerifyPhysicalAdaptersAsync`: the verified set becomes the names of
        the wired and wireless interfaces; if enumerating throws, it stays. */
    method VerifyPhysicalAdapters(interfaces: Access<seq<NetworkInterface>>)
      modifies this
      ensures interfaces.Threw? ==> unchanged(this)
      ensures interfaces.Returned? ==> verifiedPhysicalAdapters == KeySet(FilterMap(interfaces.v, PhysicalName))
    {
      if interfaces.Threw? {
        return;
      }
      var all := interfaces.v;
      var names: seq<string> := [];
      var i := 0;
      while i < |all|
        invariant 0 <= i <= |all|
        invariant names + FilterMap(all[i..], PhysicalName) == FilterMap(all, PhysicalName)
      {
        var name := PhysicalName(all[i]);
        FilterMapStep(names, all, i, PhysicalName, name);
        names := names + OptionToSeq(name);
        i := i + 1;
      }
      assert all[|all|..] == [];
      verifiedPhysicalAdapters := {};
      var j := 0;
      while j < |names|
        invariant 0 <= j <= |names|
        invariant verifiedPhysicalAdapters == KeySet(names[..j])
      {
        KeySetStep(names, j);
        verifiedPhysicalAdapters := verifiedPhysicalAdapters + {Key(names[j])};
        j := j + 1;
      }
      assert names[..|names|] == names;
    }

    /** The branches of the loop over the sensors in `GetNetworkSpeed`. */
    method ClassifySensor(s: SensorReading, hasVerified: bool) returns (traffic: Traffic)
      requires hasVerified == HasVerifiedPhysicalAdapters()
      ensures traffic == Classify(s, verifiedPhysicalAdapters)
    {
      var isVirtual := IsVirtualAdapter(s.hardwareName);
      if isVirtual {
        return Ignored;
      }
      if hasVerified && !IsPhysicalAdapterVerified(s.hardwareName) {
        return Ignored;
      }
      if s.value <= 0.0 {
        return Ignored;
      }
      if ContainsAny(s.name, UploadSensorNamePatterns) {
        return Upload;
      }
      if ContainsAny(s.name, DownloadSensorNamePatterns) {
        return Download;
      }
      return Ignored;
    }

    /** `GetNetworkSpeed`. */
    method GetNetworkSpeed(managerAvailable: bool, sensors: Access<seq<SensorReading>>) returns (upload: real, download: real)
      ensures (upload, download) == NetworkSpeed(managerAvailable, sensors, verifiedPhysicalAdapters)
    {
      if !managerAvailable || sensors.Threw? || |sensors.v| == 0 {
        return 0.0, 0.0;
      }
      var ss := sensors.v;
      var uploadBytes, downloadBytes := 0.0, 0.0;
      var hasVerified := HasVerifiedPhysicalAdapters();
      var i := 0;
      while i < |ss|
        invariant 0 <= i <= |ss|
        invariant uploadBytes == Total(ss[..i], verifiedPhysicalAdapters, Upload)
        invariant downloadBytes == Total(ss[..i], verifiedPhysicalAdapters, Download)
      {
        TotalStep(ss, verifiedPhysicalAdapters, i);
        var traffic := ClassifySensor(ss[i], hasVerified);
        if traffic == Upload {
          uploadBytes := uploadBytes + ss[i].value;
        } else if traffic == Download {
          downloadBytes := downloadBytes + ss[i].value;
        }
        i := i + 1;
      }
      assert ss[..|ss|] == ss;
      upload := ConvertThroughputToMbps(uploadBytes);
      download := ConvertThroughputToMbps(downloadBytes);
    }

    /** `GetSystemUsageAsync`, with whether the power provider was asked. */
    method GetSystemUsage(totals: MetricProvider -> Double, vram: MetricProvider -> Option<Vram.VramMetrics>,
                          hardware: HardwareReadings, power: PowerSource)
      returns (usage: SystemUsage, queriedPower: bool)
      ensures usage == UsageSnapshot(providers, verifiedPhysicalAdapters, totals, vram, hardware, power)
      ensures queriedPower <==> power.PowerProviderOf? && power.supported
    {
      queriedPower := power.PowerProviderOf? && power.supported;
      var status := if queriedPower then power.statusRead else None;
      var upload, download := GetNetworkSpeed(hardware.managerAvailable, hardware.network);
      var disks := GetDiskUsages(hardware.managerAvailable, hardware.storage);
      usage := SystemUsage(
        TotalOf(providers, "cpu", totals), TotalOf(providers, "gpu", totals), VramOf(providers, totals, vram),
        upload, download, disks,
        status.Some?,
        if status.Some? then status.value.currentWatts else Finite(0.0),
        if status.Some? then status.value.limitWatts else Finite(0.0),
        if status.Some? then status.value.schemeIndex else None);
    }
  }

  lemma PhysicalNameSource(interfaces: seq<NetworkInterface>, n: string)
    requires n in FilterMap(interfaces, PhysicalName)
    ensures exists i :: 0 <= i < |interfaces| && PhysicalName(interfaces[i]).Some? && interfaces[i].name == n
  {
    FilterMapMembership(interfaces, PhysicalName);
    var i :| 0 <= i < |interfaces| && PhysicalName(interfaces[i]) == Some(n);
  }

  /** A name in the verified set is that of a wired or wireless interface,
      ignoring case. */
  lemma VerifiedOnlyPhysical(interfaces: seq<NetworkInterface>, hardwareName: string)
    requires VerifiedIn(KeySet(FilterMap(interfaces, PhysicalName)), Some(hardwareName))
    ensures !IsBlank(hardwareName)
    ensures exists i :: 0 <= i < |interfaces| && PhysicalName(interfaces[i]).Some?
                        && EqualsIgnoreCase(interfaces[i].name, hardwareName)
  {
    var names := FilterMap(interfaces, PhysicalName);
    KeySetMembership(names, Key(hardwareName));
    var n :| n in names && Key(n) == Key(hardwareName);
    PhysicalNameSource(interfaces, n);
    var i :| 0 <= i < |interfaces| && PhysicalName(interfaces[i]).Some? && interfaces[i].name == n;
    assert EqualsIgnoreCase(interfaces[i].name, hardwareName);
  }

  /** Every wired or wireless interface's name, in any letter case, is in
      the verified set. */
  lemma PhysicalIsVerified(interfaces: seq<NetworkInterface>, hardwareName: string, i: nat)
    requires i < |interfaces| && PhysicalName(interfaces[i]).Some?
    requires !IsBlank(hardwareName) && EqualsIgnoreCase(interfaces[i].name, hardwareName)
    ensures VerifiedIn(KeySet(FilterMap(interfaces, PhysicalName)), Some(hardwareName))
  {
    var names := FilterMap(interfaces, PhysicalName);
    FilterMapMembership(interfaces, PhysicalName);
    assert interfaces[i].name in names;
    KeySetMembership(names, Key(hardwareName));
  }

  // ---------------------------------------------------------------------
  // Scenarios

  /** Two MiB/s of download and one of upload on a physical adapter are
      reported as 2.0 and 1.0. */
  method ThroughputScenario(adapter: string, downloadName: string, uploadName: string)
    returns (upload: real, download: real)
    requires !IsBlank(adapter) && !IsVirtualName(Some(adapter))
    requires ContainsAny(downloadName, DownloadSensorNamePatterns) && !ContainsAny(downloadName, UploadSensorNamePatterns)
    requires ContainsAny(uploadName, UploadSensorNamePatterns)
    ensures download == 2.0 && upload == 1.0
  {
    var provider := new SystemMetricProvider(Some([]));
    var down := SensorReading(Some(adapter), downloadName, 2.0 * 1048576.0);
    var up := SensorReading(Some(adapter), uploadName, 1048576.0);
    assert Classify(down, {}) == Download && Classify(up, {}) == Upload;
    var sensors := [down, up];
    TotalOfPair(down, up, {}, Upload);
    TotalOfPair(down, up, {}, Download);
    upload, download := provider.GetNetworkSpeed(true, Returned(sensors));
  }

  /** Sensors of a Hyper-V and a VPN adapter add nothing. */
  method VirtualAdaptersScenario(downloadName: string, uploadName: string)
    returns (upload: real, download: real)
    ensures download == 0.0 && upload == 0.0
  {
    var provider := new SystemMetricProvider(Some([]));
    var hyperV := "Hyper-V" + " Virtual Ethernet Adapter";
    var vpn := "VPN" + " Adapter";
    HyperVIsVirtual();
    VpnIsVirtual();
    var sensors := [SensorReading(Some(hyperV), downloadName, 2.0 * 1048576.0), SensorReading(Some(vpn), uploadName, 1048576.0)];
    VirtualIsIgnored(sensors[0], {});
    VirtualIsIgnored(sensors[1], {});
    IgnoredAddNothing([], sensors, {}, Upload);
    IgnoredAddNothing([], sensors, {}, Download);
    assert [] + sensors == sensors;
    upload, download := provider.GetNetworkSpeed(true, Returned(sensors));
  }

  /** An unsupported power provider is not asked, and the power fields stay empty. */
  method UnsupportedPowerScenario(status: Option<RyzenAdjPowerProvider.PowerStatus>)
    returns (usage: SystemUsage, queriedPower: bool)
    ensures !queriedPower && !usage.powerAvailable
    ensures usage.totalPower == Finite(0.0) && usage.maxPower == Finite(0.0)
  {
    var provider := new SystemMetricProvider(Some([]));
    var noSensors := HardwareReadings(false, Returned([]), Returned(StorageReadings([], [], [])));
    usage, queriedPower := provider.GetSystemUsage(_ => Finite(0.0), _ => None, noSensors, PowerProviderOf(false, status));
  }

  /** A supported provider's status is copied: 42 W of 55 W, scheme 0. */
  method SupportedPowerScenario() returns (usage: SystemUsage, queriedPower: bool)
    ensures queriedPower && usage.powerAvailable
    ensures usage.totalPower == Finite(42.0) && usage.maxPower == Finite(55.0) && usage.powerSchemeIndex == Some(0)
  {
    var provider := new SystemMetricProvider(Some([]));
    var noSensors := HardwareReadings(false, Returned([]), Returned(StorageReadings([], [], [])));
    var status := RyzenAdjPowerProvider.PowerStatus(Finite(42.0), Finite(55.0), Some(0), RyzenAdjPowerProvider.PowerScheme(55, 100, 55));
    usage, queriedPower := provider.GetSystemUsage(_ => Finite(0.0), _ => None, noSensors, PowerProviderOf(true, Some(status)));
  }
}
