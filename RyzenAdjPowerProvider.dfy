/** `RyzenAdjPowerProvider`: the power status and scheme switching of the
    desktop's power control, on top of the `ryzenadj` tool. The tool's
    answers are parameters: the snapshot a read returns or the exception it
    throws, and the outcome of applying limits. The clock is a parameter in
    100 ns ticks, with `DateTime.MinValue` at tick 0. Each operation runs
    as one step under the provider's mutex. */
module RyzenAdjPowerProvider {
  import opened Common
  import opened Numbers
  import opened Results
  import opened RyzenAdjCli

  /** `PowerScheme`: the STAPM, fast and slow limits in whole watts. */
  datatype PowerScheme = PowerScheme(stapmWatts: int, fastWatts: int, slowWatts: int)

  /** The three schemes used when none are configured. */
  const DefaultSchemes: seq<PowerScheme> :=
    [PowerScheme(55, 100, 55), PowerScheme(85, 120, 85), PowerScheme(120, 140, 120)]

  const TicksPerSecond: int := 10_000_000

  /** The polling interval of the constructors that take none: 3 seconds. */
  const DefaultPollingInterval: int := 3 * TicksPerSecond

  /** `PowerStatus`: the current and limit STAPM watts, the matching scheme
      if any, and the limits rounded to whole watts. */
  datatype PowerStatus = PowerStatus(
    currentWatts: Double, limitWatts: Double, schemeIndex: Option<nat>, limits: PowerScheme)

  /** `PowerSchemeSwitchResult`: a success (message "OK") with the previous
      and new scheme, or a failure with its message. */
  datatype SwitchResult =
    | Switched(previousIndex: Option<nat>, newIndex: nat, newScheme: PowerScheme)
    | SwitchFailed(message: string)

  /** `ConvertToWatts`: NaN and non-positive values are 0; values above 1000
      are milliwatts; the rest are watts already. */
  function ConvertToWatts(value: Double): Double
  {
    if value.NaN? || LeR(value, 0.0) then Finite(0.0)
    else if Lt(Finite(1000.0), value) then Div(value, Finite(1000.0))
    else value
  }

  /** The `(int)` conversion of a double: NaN is 0 and values beyond the
      32-bit range saturate. */
  function CastToInt32(d: Double): (n: int)
    ensures InInt32(n)
  {
    match d
    case NaN => 0
    case PosInf => Int32Max
    case NegInf => Int32Min
    case Finite(x) =>
      var r := RoundHalfEven(x);
      if r > Int32Max then Int32Max else if r < Int32Min then Int32Min else r
  }

  /** `SnapshotToLimits`: each limit in watts, rounded to the nearest
      integer (halves to even). */
  function SnapshotToLimits(snapshot: Snapshot): PowerScheme
  {
    PowerScheme(
      CastToInt32(ConvertToWatts(snapshot.stapmLimit)),
      CastToInt32(ConvertToWatts(snapshot.fastLimit)),
      CastToInt32(ConvertToWatts(snapshot.slowLimit)))
  }

  /** `IsClose`: within one watt. */
  predicate IsClose(a: int, b: int)
  {
    -1 <= a - b <= 1
  }

  /** The three limits of a reading are each within one watt of a scheme. */
  predicate CloseTo(limits: PowerScheme, scheme: PowerScheme)
  {
    IsClose(limits.stapmWatts, scheme.stapmWatts)
    && IsClose(limits.fastWatts, scheme.fastWatts)
    && IsClose(limits.slowWatts, scheme.slowWatts)
  }

  /** The index of the first scheme the limits are close to. */
  function FirstMatch(schemes: seq<PowerScheme>, limits: PowerScheme): Option<nat>
  {
    if schemes == [] then None
    else if CloseTo(limits, schemes[0]) then Some(0)
    else match FirstMatch(schemes[1..], limits)
      case None => None
      case Some(i) => Some(i + 1)
  }

  /** The scheme after the current one, cyclically; the first one when the
      current limits match no scheme. */
  function NextIndex(current: Option<nat>, count: nat): (r: nat)
    requires count > 0
    ensures r < count
  {
    if current.Some? then (current.value + 1) % count else 0
  }

  /** The status a successful snapshot read reports. */
  function StatusOf(schemes: seq<PowerScheme>, snapshot: Snapshot): PowerStatus
  {
    var limits := SnapshotToLimits(snapshot);
    PowerStatus(ConvertToWatts(snapshot.stapmValue), ConvertToWatts(snapshot.stapmLimit),
      FirstMatch(schemes, limits), limits)
  }

  /** `TryVerifyAppliedAsync` as a value: the status of the re-read when it
      succeeds and its limits are close to the expected scheme. */
  function VerifiedStatus(schemes: seq<PowerScheme>, expected: PowerScheme, read: Access<Snapshot>): Option<PowerStatus>
  {
    if read.Threw? || !CloseTo(SnapshotToLimits(read.v), expected) then None
    else Some(StatusOf(schemes, read.v))
  }

  class PowerProvider {
    const schemes: seq<PowerScheme>
    const pollingInterval: int
    /** `IRyzenAdjCli.IsAvailable`. */
    const cliAvailable: bool
    var cachedStatus: Option<PowerStatus>
    var lastAttemptAt: int
    var lastAttemptSucceeded: bool
    var hasEverSucceeded: bool
    var startupFailureCount: int
    var disabled: bool

    /** The provider's invariant: there is a scheme to switch to; the
        provider is disabled exactly when three startup failures have been
        counted, which only happens before any success; a successful last
        attempt left a status in the cache. */
    ghost predicate Valid()
      reads this
    {
      && |schemes| > 0
      && pollingInterval >= 0
      && 0 <= startupFailureCount <= 3
      && (disabled <==> startupFailureCount == 3)
      && (hasEverSucceeded ==> startupFailureCount == 0)
      && (lastAttemptSucceeded ==> hasEverSucceeded && cachedStatus.Some?)
    }

    /** The constructor: a negative interval becomes zero, and a missing or
        empty scheme list becomes the defaults. */
    constructor(cliAvailable: bool, pollingInterval: int, schemes: seq<PowerScheme>)
      ensures Valid()
      ensures this.cliAvailable == cliAvailable
      ensures this.pollingInterval == if pollingInterval < 0 then 0 else pollingInterval
      ensures this.schemes == if |schemes| > 0 then schemes else DefaultSchemes
      ensures cachedStatus.None? && lastAttemptAt == 0 && !lastAttemptSucceeded
      ensures !hasEverSucceeded && startupFailureCount == 0 && !disabled
    {
      this.cliAvailable := cliAvailable;
      this.pollingInterval := if pollingInterval < 0 then 0 else pollingInterval;
      this.schemes := if |schemes| > 0 then schemes else DefaultSchemes;
      cachedStatus := None;
      lastAttemptAt := 0;
      lastAttemptSucceeded := false;
      hasEverSucceeded := false;
      startupFailureCount := 0;
      disabled := false;
    }

    /** The constructor with the default interval and schemes. */
    constructor WithDefaults(cliAvailable: bool)
      ensures Valid()
      ensures this.cliAvailable == cliAvailable
      ensures pollingInterval == DefaultPollingInterval && schemes == DefaultSchemes
      ensures cachedStatus.None? && lastAttemptAt == 0 && !lastAttemptSucceeded
      ensures !hasEverSucceeded && startupFailureCount == 0 && !disabled
    {
      this.cliAvailable := cliAvailable;
      pollingInterval := DefaultPollingInterval;
      schemes := DefaultSchemes;
      cachedStatus := None;
      lastAttemptAt := 0;
      lastAttemptSucceeded := false;
      hasEverSucceeded := false;
      startupFailureCount := 0;
      disabled := false;
    }

    /** `IsSupported`. */
    predicate IsSupported()
      reads this
    {
      cliAvailable && !disabled
    }

    /** `MatchSchemeIndex`: the first scheme the limits are close to. */
    method MatchSchemeIndex(limits: PowerScheme) returns (r: Option<nat>)
      ensures r == FirstMatch(schemes, limits)
    {
      var i := 0;
      while i < |schemes|
        invariant 0 <= i <= |schemes|
        invariant FirstMatch(schemes, limits) == ShiftIndex(FirstMatch(schemes[i..], limits), i)
      {
        FirstMatchStep(schemes, limits, i);
        if CloseTo(limits, schemes[i]) {
          return Some(i);
        }
        i := i + 1;
      }
      return None;
    }

    /** `GetStatusAsync` at clock `now`; `read` is what the snapshot read
        would give, and `calledCli` whether it was made. Outside the
        polling interval a read is made: a success refreshes the cache and
        clears the startup failures, a failure before any success counts
        towards disabling. */
    method GetStatus(now: int, read: Access<Snapshot>) returns (status: Option<PowerStatus>, calledCli: bool)
      requires Valid()
      modifies this
      ensures Valid()
      ensures !old(IsSupported()) ==> status.None? && !calledCli && unchanged(this)
      ensures old(IsSupported()) && now - old(lastAttemptAt) < pollingInterval ==>
        && !calledCli && unchanged(this)
        && status == (if old(lastAttemptSucceeded) then old(cachedStatus) else None)
      ensures calledCli <==> old(IsSupported()) && now - old(lastAttemptAt) >= pollingInterval
      ensures calledCli ==> lastAttemptAt == now
      ensures calledCli && read.Returned? ==>
        && status == Some(StatusOf(schemes, read.v)) && cachedStatus == status
        && lastAttemptSucceeded && hasEverSucceeded && startupFailureCount == 0 && !disabled
      ensures calledCli && read.Threw? ==>
        && status.None? && cachedStatus == old(cachedStatus) && !lastAttemptSucceeded
        && hasEverSucceeded == old(hasEverSucceeded)
        && startupFailureCount == (if old(hasEverSucceeded) then 0 else old(startupFailureCount) + 1)
        && (disabled <==> !old(hasEverSucceeded) && old(startupFailureCount) + 1 >= 3)
    {
      if !IsSupported() {
        return None, false;
      }
      if now - lastAttemptAt < pollingInterval {
        status := if lastAttemptSucceeded then cachedStatus else None;
        return status, false;
      }
      lastAttemptAt := now;
      calledCli := true;
      match read
      case Returned(snapshot) =>
        var limits := SnapshotToLimits(snapshot);
        var schemeIndex := MatchSchemeIndex(limits);
        var s := PowerStatus(ConvertToWatts(snapshot.stapmValue), ConvertToWatts(snapshot.stapmLimit), schemeIndex, limits);
        cachedStatus := Some(s);
        lastAttemptSucceeded := true;
        hasEverSucceeded := true;
        startupFailureCount := 0;
        status := Some(s);
      case Threw(_) =>
        lastAttemptSucceeded := false;
        if !hasEverSucceeded {
          startupFailureCount := startupFailureCount + 1;
          if startupFailureCount >= 3 {
            disabled := true;
          }
        }
        status := None;
    }

    /** `TryVerifyAppliedAsync`: re-read the limits and accept them when all
        three are within one watt of the expected scheme. */
    method TryVerifyApplied(expected: PowerScheme, read: Access<Snapshot>) returns (r: Option<PowerStatus>)
      ensures r == VerifiedStatus(schemes, expected, read)
    {
      if read.Threw? {
        return None;
      }
      var limits := SnapshotToLimits(read.v);
      if !IsClose(limits.stapmWatts, expected.stapmWatts)
        || !IsClose(limits.fastWatts, expected.fastWatts)
        || !IsClose(limits.slowWatts, expected.slowWatts)
      {
        return None;
      }
      var schemeIndex := MatchSchemeIndex(limits);
      return Some(PowerStatus(ConvertToWatts(read.v.stapmValue), ConvertToWatts(read.v.stapmLimit), schemeIndex, limits));
    }

    /** `SwitchToNextSchemeAsync` at clock `now`: read the current limits,
        apply the next scheme (`applyError` is the exception applying throws,
        if any) and, when applying throws, accept a re-read (`verifyRead`)
        close to the scheme. `applied` is the scheme passed to the tool. A
        switch refreshes the cache like a successful status read; a failed
        one changes nothing. */
    method SwitchToNextScheme(now: int, read: Access<Snapshot>, applyError: Option<string>, verifyRead: Access<Snapshot>)
      returns (result: SwitchResult, applied: Option<PowerScheme>)
      requires Valid()
      modifies this
      ensures Valid()
      ensures result == SwitchOutcome(schemes, old(IsSupported()), read, applyError, verifyRead)
      ensures applied == if old(IsSupported()) && read.Returned? then Some(schemes[NextSchemeIndex(schemes, read.v)]) else None
      ensures result.SwitchFailed? ==> unchanged(this)
      ensures result.Switched? ==>
        && cachedStatus == SwitchStatus(schemes, read.v, applyError, verifyRead)
        && lastAttemptAt == now && lastAttemptSucceeded && hasEverSucceeded
        && startupFailureCount == 0 && disabled == old(disabled)
    {
      if !IsSupported() {
        return SwitchFailed("RyzenAdj not available"), None;
      }
      if read.Threw? {
        return SwitchFailed(read.message), None;
      }
      var snapshot := read.v;
      var currentIndex, nextIndex := PlanSwitch(snapshot);
      var next := schemes[nextIndex];
      applied := Some(next);
      if applyError.None? {
        MarkSucceeded(PowerStatus(ConvertToWatts(snapshot.stapmValue), Finite(next.stapmWatts as real), Some(nextIndex), next), now);
        return Switched(currentIndex, nextIndex, next), applied;
      }
      var verify := TryVerifyApplied(next, verifyRead);
      if verify.None? {
        return SwitchFailed(applyError.value), applied;
      }
      MarkSucceeded(verify.value, now);
      var verifiedLimits := verify.value.limits;
      var verifiedMatch := MatchSchemeIndex(verifiedLimits);
      var verifiedIndex := if verifiedMatch.Some? then verifiedMatch.value else nextIndex;
      return Switched(currentIndex, verifiedIndex, verifiedLimits), applied;
    }

    /** The first part of a switch: the current limits' scheme and the
        scheme after it. */
    method PlanSwitch(snapshot: Snapshot) returns (currentIndex: Option<nat>, nextIndex: nat)
      requires |schemes| > 0
      ensures currentIndex == FirstMatch(schemes, SnapshotToLimits(snapshot))
      ensures nextIndex == NextSchemeIndex(schemes, snapshot)
    {
      var currentLimits := SnapshotToLimits(snapshot);
      currentIndex := MatchSchemeIndex(currentLimits);
      nextIndex := if currentIndex.Some? then (currentIndex.value + 1) % |schemes| else 0;
    }

    /** The bookkeeping of a switch that took effect: the status is cached
        as a successful attempt at `now`, and the startup failures are
        cleared. */
    method MarkSucceeded(status: PowerStatus, now: int)
      requires Valid() && !disabled
      modifies this
      ensures Valid()
      ensures cachedStatus == Some(status) && lastAttemptAt == now
      ensures lastAttemptSucceeded && hasEverSucceeded && startupFailureCount == 0
      ensures !disabled
    {
      cachedStatus := Some(status);
      lastAttemptAt := now;
      lastAttemptSucceeded := true;
      hasEverSucceeded := true;
      startupFailureCount := 0;
    }
  }

  /** The index of the scheme a switch applies after reading a snapshot. */
  function NextSchemeIndex(schemes: seq<PowerScheme>, snapshot: Snapshot): (r: nat)
    requires |schemes| > 0
    ensures r < |schemes|
  {
    NextIndex(FirstMatch(schemes, SnapshotToLimits(snapshot)), |schemes|)
  }

  /** The status a switch caches: the applied scheme when applying
      succeeded, else the verified re-read, if any. */
  function SwitchStatus(schemes: seq<PowerScheme>, snapshot: Snapshot, applyError: Option<string>, verifyRead: Access<Snapshot>): Option<PowerStatus>
    requires |schemes| > 0
  {
    var nextIndex := NextSchemeIndex(schemes, snapshot);
    var next := schemes[nextIndex];
    if applyError.None? then
      Some(PowerStatus(ConvertToWatts(snapshot.stapmValue), Finite(next.stapmWatts as real), Some(nextIndex), next))
    else VerifiedStatus(schemes, next, verifyRead)
  }

  /** `SwitchToNextSchemeAsync` as a value. */
  function SwitchOutcome(schemes: seq<PowerScheme>, supported: bool, read: Access<Snapshot>, applyError: Option<string>, verifyRead: Access<Snapshot>): SwitchResult
    requires |schemes| > 0
  {
    if !supported then SwitchFailed("RyzenAdj not available")
    else if read.Threw? then SwitchFailed(read.message)
    else
      var current := FirstMatch(schemes, SnapshotToLimits(read.v));
      var nextIndex := NextSchemeIndex(schemes, read.v);
      var status := SwitchStatus(schemes, read.v, applyError, verifyRead);
      if status.None? then SwitchFailed(applyError.value)
      else if applyError.None? then Switched(current, nextIndex, schemes[nextIndex])
      else Switched(current, OrElse(FirstMatch(schemes, status.value.limits), nextIndex), status.value.limits)
  }

  /** `index ?? fallback`. */
  function OrElse(index: Option<nat>, fallback: nat): nat
  {
    if index.Some? then index.value else fallback
  }

  /** An index found in a suffix starting at i, as an index of the whole. */
  function ShiftIndex(r: Option<nat>, i: nat): Option<nat>
  {
    match r
    case None => None
    case Some(j) => Some(j + i)
  }

  /** One step of the matching loop: the search from i answers i itself when
      scheme i is close, and otherwise the search from i + 1. */
  lemma FirstMatchStep(schemes: seq<PowerScheme>, limits: PowerScheme, i: nat)
    requires i < |schemes|
    ensures ShiftIndex(FirstMatch(schemes[i..], limits), i) ==
      if CloseTo(limits, schemes[i]) then Some(i) else ShiftIndex(FirstMatch(schemes[i + 1..], limits), i + 1)
  {
    assert schemes[i..][1..] == schemes[i + 1..];
  }

  // ---------------------------------------------------------------------
  // Properties

  /** The first match is the smallest index whose scheme is close to the
      limits, and there is none exactly when no scheme is close. */
  lemma {:induction false} FirstMatchIsSmallest(schemes: seq<PowerScheme>, limits: PowerScheme)
    ensures FirstMatch(schemes, limits).None? <==> forall j :: 0 <= j < |schemes| ==> !CloseTo(limits, schemes[j])
    ensures FirstMatch(schemes, limits).Some? ==>
      var i := FirstMatch(schemes, limits).value;
      && i < |schemes| && CloseTo(limits, schemes[i])
      && forall j :: 0 <= j < i ==> !CloseTo(limits, schemes[j])
  {
    if schemes != [] {
      FirstMatchIsSmallest(schemes[1..], limits);
      assert forall j :: 1 <= j < |schemes| ==> schemes[j] == schemes[1..][j - 1];
    }
  }

  /** The next scheme index cycles through all schemes. */
  lemma NextIndexCycles(current: Option<nat>, count: nat)
    requires count > 0
    ensures current.None? ==> NextIndex(current, count) == 0
    ensures current.Some? && current.value + 1 < count ==> NextIndex(current, count) == current.value + 1
    ensures current.Some? && current.value + 1 == count ==> NextIndex(current, count) == 0
  {
  }

  /** Watts are never NaN or negative: non-positive and NaN readings give 0,
      readings above 1000 are divided by 1000, the rest are kept. */
  lemma ConvertToWattsCases(value: Double)
    ensures var w := ConvertToWatts(value);
      && !w.NaN? && !w.NegInf? && (w.Finite? ==> w.value >= 0.0)
      && (value.NaN? || value.NegInf? || (value.Finite? && value.value <= 0.0) ==> w == Finite(0.0))
      && (value.Finite? && 0.0 < value.value <= 1000.0 ==> w == value)
      && (value.Finite? && value.value > 1000.0 ==> w == Finite(value.value / 1000.0) && w.value > 1.0)
      && (value.PosInf? ==> w.PosInf?)
  {
  }

  /** Limits read back exactly as a scheme are close to it, and closeness is
      symmetric. */
  lemma CloseToReflexiveSymmetric(a: PowerScheme, b: PowerScheme)
    ensures CloseTo(a, a)
    ensures CloseTo(a, b) <==> CloseTo(b, a)
  {
  }

  /** The default schemes are more than a watt apart, so each is matched by
      its own index. */
  lemma DefaultSchemesMatchThemselves(i: nat)
    requires i < |DefaultSchemes|
    ensures FirstMatch(DefaultSchemes, DefaultSchemes[i]) == Some(i)
  {
    FirstMatchIsSmallest(DefaultSchemes, DefaultSchemes[i]);
  }

  /** A snapshot in milliwatts as the tool prints it becomes whole watts. */
  lemma MilliwattSnapshotLimits(stapm: nat, fast: nat, slow: nat, s: Snapshot)
    requires 2 <= stapm <= 1000 && 2 <= fast <= 1000 && 2 <= slow <= 1000
    requires s.stapmLimit == Finite(stapm as real * 1000.0)
    requires s.fastLimit == Finite(fast as real * 1000.0)
    requires s.slowLimit == Finite(slow as real * 1000.0)
    ensures SnapshotToLimits(s) == PowerScheme(stapm, fast, slow)
  {
  }

  /** What a switch answers: "not available" when unsupported, the read's
      exception when the current limits cannot be read; otherwise the next
      scheme after the current one when applying succeeds, and when applying
      throws, the re-read limits if they are within a watt of that scheme,
      else the apply exception. */
  lemma SwitchOutcomeCases(schemes: seq<PowerScheme>, supported: bool, read: Access<Snapshot>, applyError: Option<string>, verifyRead: Access<Snapshot>)
    requires |schemes| > 0
    ensures var r := SwitchOutcome(schemes, supported, read, applyError, verifyRead);
      && (!supported ==> r == SwitchFailed("RyzenAdj not available"))
      && (supported && read.Threw? ==> r == SwitchFailed(read.message))
      && (supported && read.Returned? ==>
            var current := FirstMatch(schemes, SnapshotToLimits(read.v));
            var nextIndex := NextIndex(current, |schemes|);
            && (applyError.None? ==> r == Switched(current, nextIndex, schemes[nextIndex]))
            && (applyError.Some? ==>
                  && (r.Switched? <==> verifyRead.Returned? && CloseTo(SnapshotToLimits(verifyRead.v), schemes[nextIndex]))
                  && (r.Switched? ==> r.previousIndex == current && r.newScheme == SnapshotToLimits(verifyRead.v))
                  && (r.SwitchFailed? ==> r.message == applyError.value)))
  {
  }

  /** A switch that took effect reports a scheme within a watt of the one it
      meant to apply, and a valid scheme index. */
  lemma SwitchedSchemeIsClose(schemes: seq<PowerScheme>, supported: bool, read: Access<Snapshot>, applyError: Option<string>, verifyRead: Access<Snapshot>)
    requires |schemes| > 0
    ensures var r := SwitchOutcome(schemes, supported, read, applyError, verifyRead);
      r.Switched? ==>
        && r.newIndex < |schemes|
        && CloseTo(r.newScheme, schemes[NextSchemeIndex(schemes, read.v)])
  {
    var r := SwitchOutcome(schemes, supported, read, applyError, verifyRead);
    if r.Switched? {
      var status := SwitchStatus(schemes, read.v, applyError, verifyRead);
      FirstMatchIsSmallest(schemes, status.value.limits);
      CloseToReflexiveSymmetric(r.newScheme, schemes[NextSchemeIndex(schemes, read.v)]);
    }
  }

  /** The status a switch caches agrees with its answer: the same limits,
      and the same scheme index whenever the status has one. */
  lemma SwitchCacheAgrees(schemes: seq<PowerScheme>, read: Access<Snapshot>, applyError: Option<string>, verifyRead: Access<Snapshot>)
    requires |schemes| > 0
    ensures var r := SwitchOutcome(schemes, true, read, applyError, verifyRead);
      r.Switched? ==>
        var status := SwitchStatus(schemes, read.v, applyError, verifyRead);
        && status.Some? && status.value.limits == r.newScheme
        && (status.value.schemeIndex.Some? ==> status.value.schemeIndex.value == r.newIndex)
  {
  }

  // ---------------------------------------------------------------------
  // Scenarios of the provider's tests

  /** The snapshot the tests read: 55 W STAPM limit, 42 W STAPM value,
      100 W fast and 55 W slow limits, in milliwatts. */
  const FirstSchemeReading: Snapshot :=
    Snapshot(Finite(55000.0), Finite(42000.0), Finite(100000.0), Finite(80000.0), Finite(55000.0), Finite(45000.0))

  /** A status read reports watts and the matching default scheme. */
  method StatusOfFirstScheme(now: int) returns (status: Option<PowerStatus>)
    requires now >= DefaultPollingInterval
    ensures status == Some(PowerStatus(Finite(42.0), Finite(55.0), Some(0), PowerScheme(55, 100, 55)))
  {
    var provider := new PowerProvider.WithDefaults(true);
    MilliwattSnapshotLimits(55, 100, 55, FirstSchemeReading);
    DefaultSchemesMatchThemselves(0);
    var called;
    status, called := provider.GetStatus(now, Returned(FirstSchemeReading));
  }

  /** Within the polling interval the second read is the cached status and
      the tool is called once. */
  method StatusIsCached(t1: int, t2: int, first: Access<Snapshot>, second: Access<Snapshot>)
    returns (status1: Option<PowerStatus>, status2: Option<PowerStatus>, calls: nat)
    requires DefaultPollingInterval <= t1 <= t2 < t1 + DefaultPollingInterval
    requires first.Returned?
    ensures status1.Some? && status2 == status1 && calls == 1
  {
    var provider := new PowerProvider.WithDefaults(true);
    var called1, called2;
    status1, called1 := provider.GetStatus(t1, first);
    status2, called2 := provider.GetStatus(t2, second);
    calls := (if called1 then 1 else 0) + (if called2 then 1 else 0);
  }

  /** Three failed reads before any success disable the provider; a fourth
      status request does not call the tool. */
  method DisabledAfterThreeStartupFailures(t1: int, t2: int, t3: int, t4: int, message: string)
    returns (statuses: seq<Option<PowerStatus>>, supported: bool, calls: nat)
    requires 0 <= t1 <= t2 <= t3 <= t4
    ensures |statuses| == 4 && forall i :: 0 <= i < 4 ==> statuses[i].None?
    ensures !supported && calls == 3
  {
    var provider := new PowerProvider(true, 0, []);
    var failed := Threw(message);
    var s1, c1 := provider.GetStatus(t1, failed);
    var s2, c2 := provider.GetStatus(t2, failed);
    var s3, c3 := provider.GetStatus(t3, failed);
    supported := provider.IsSupported();
    var s4, c4 := provider.GetStatus(t4, failed);
    statuses := [s1, s2, s3, s4];
    calls := (if c1 then 1 else 0) + (if c2 then 1 else 0) + (if c3 then 1 else 0) + (if c4 then 1 else 0);
  }

  /** From the first default scheme a switch applies the second. */
  method SwitchFromFirstScheme(now: int) returns (result: SwitchResult, applied: Option<PowerScheme>)
    ensures result == Switched(Some(0), 1, PowerScheme(85, 120, 85))
    ensures applied == Some(PowerScheme(85, 120, 85))
  {
    var provider := new PowerProvider.WithDefaults(true);
    MilliwattSnapshotLimits(55, 100, 55, FirstSchemeReading);
    DefaultSchemesMatchThemselves(0);
    result, applied := provider.SwitchToNextScheme(now, Returned(FirstSchemeReading), None, Threw("unused"));
  }

  /** After a switch, a status request within the interval reports the new
      scheme from the cache without reading the tool. */
  method SwitchThenStatus(t1: int, t2: int, statusRead: Access<Snapshot>)
    returns (status: Option<PowerStatus>, calledCli: bool)
    requires t1 <= t2 < t1 + DefaultPollingInterval
    ensures !calledCli && status.Some?
    ensures status.value.limitWatts == Finite(85.0) && status.value.schemeIndex == Some(1)
  {
    var provider := new PowerProvider.WithDefaults(true);
    MilliwattSnapshotLimits(55, 100, 55, FirstSchemeReading);
    DefaultSchemesMatchThemselves(0);
    var result, applied := provider.SwitchToNextScheme(t1, Returned(FirstSchemeReading), None, Threw("unused"));
    status, calledCli := provider.GetStatus(t2, statusRead);
  }

  /** When applying throws but the re-read shows the second scheme's
      limits, the switch still succeeds. */
  method SwitchVerifiedAfterApplyCrash(now: int) returns (result: SwitchResult)
    ensures result == Switched(Some(0), 1, PowerScheme(85, 120, 85))
  {
    var provider := new PowerProvider(true, 0, []);
    var reread := Snapshot(Finite(85000.0), Finite(41000.0), Finite(120000.0), Finite(80000.0), Finite(85000.0), Finite(45000.0));
    MilliwattSnapshotLimits(55, 100, 55, FirstSchemeReading);
    MilliwattSnapshotLimits(85, 120, 85, reread);
    DefaultSchemesMatchThemselves(0);
    DefaultSchemesMatchThemselves(1);
    var applied;
    result, applied := provider.SwitchToNextScheme(now, Returned(FirstSchemeReading), Some("crash"), Returned(reread));
  }

  /** Limits matching no scheme switch to the first one. */
  method SwitchFromUnknownLimits(now: int) returns (result: SwitchResult, applied: Option<PowerScheme>)
    ensures result == Switched(None, 0, PowerScheme(55, 100, 55))
    ensures applied == Some(PowerScheme(55, 100, 55))
  {
    var provider := new PowerProvider.WithDefaults(true);
    var reading := Snapshot(Finite(60000.0), Finite(42000.0), Finite(90000.0), Finite(80000.0), Finite(60000.0), Finite(45000.0));
    MilliwattSnapshotLimits(60, 90, 60, reading);
    assert FirstMatch(DefaultSchemes, PowerScheme(60, 90, 60)).None? by {
      FirstMatchIsSmallest(DefaultSchemes, PowerScheme(60, 90, 60));
    }
    result, applied := provider.SwitchToNextScheme(now, Returned(reading), None, Threw("unused"));
  }
}
