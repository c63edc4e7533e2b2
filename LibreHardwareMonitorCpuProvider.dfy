/** `LibreHardwareMonitorCpuProvider`: the system CPU load from the
    hardware manager's CPU load sensor; per-process collection is delegated. */
module LibreHardwareMonitorCpuProvider {
  import opened Numbers

  /** What the manager's sensor read gives: a value, no sensor, or an exception. */
  datatype SensorRead = Reading(value: Double) | NoSensor | ReadThrew

  /** `MetricValue` as the collectors return it. */
  datatype MetricValue = Measured(value: real) | MetricError(message: string)

  /** What the delegated per-process collector does: returns, or throws with a message. */
  datatype Delegated = Returns(metric: MetricValue) | Throws(message: string)

  /** The constructor's three required collaborators, by presence. */
  datatype Collaborators = Collaborators(hardwareManager: bool, logger: bool, cpuMetricProvider: bool)

  /** The constructed provider, or the parameter name of the
      `ArgumentNullException` thrown. */
  datatype Construction = Constructed | NullArgument(paramName: string)

  const UnavailableMessage: string := "LibreHardwareMonitor \U{4E0D}\U{53EF}\U{7528}"

  /** The constructor's guards, checked in parameter order. */
  function Construct(c: Collaborators): Construction
  {
    if !c.hardwareManager then NullArgument("hardwareManager")
    else if !c.logger then NullArgument("logger")
    else if !c.cpuMetricProvider then NullArgument("cpuMetricProvider")
    else Constructed
  }

  /** `IsSupported`. */
  predicate IsSupported(managerAvailable: bool, isWindows: bool)
  {
    managerAvailable && isWindows
  }

  /** `GetSystemTotalAsync`: the load clamped into [0, 100] and rounded to one
      decimal; 0 when unsupported, without a sensor, or on an exception. */
  function GetSystemTotal(managerAvailable: bool, isWindows: bool, read: SensorRead): Double
  {
    if !IsSupported(managerAvailable, isWindows) then Finite(0.0)
    else match read
      case Reading(v) => Round1(Clamp(v, 0.0, 100.0))
      case NoSensor => Finite(0.0)
      case ReadThrew => Finite(0.0)
  }

  /** `CollectAsync`: refuses when unsupported, otherwise delegates, turning
      an exception into an error value with its message. */
  function Collect(managerAvailable: bool, isWindows: bool, delegated: Delegated): MetricValue
  {
    if !IsSupported(managerAvailable, isWindows) then MetricError(UnavailableMessage)
    else match delegated
      case Returns(m) => m
      case Throws(msg) => MetricError(msg)
  }

  // ---------------------------------------------------------------------
  // Properties

  /** A finite reading gives a finite total within [0, 100]; NaN stays NaN. */
  lemma SystemTotalBounded(v: Double)
    ensures var r := GetSystemTotal(true, true, Reading(v));
      (v.NaN? <==> r.NaN?) && (!v.NaN? ==> r.Finite? && 0.0 <= r.value <= 100.0)
  {
    if !v.NaN? {
      var c := Clamp(v, 0.0, 100.0);
      var n := RoundHalfEven(c.value * 10.0);
      assert 0 <= n <= 1000;
    }
  }

  /** Out-of-range loads are clamped before rounding: -10 reads 0, 150 reads 100. */
  lemma ClampExamples()
    ensures GetSystemTotal(true, true, Reading(Finite(-10.0))) == Finite(0.0)
    ensures GetSystemTotal(true, true, Reading(Finite(150.0))) == Finite(100.0)
    ensures GetSystemTotal(true, true, Reading(PosInf)) == Finite(100.0)
  {
    assert RoundHalfEven(1000.0) == 1000;
    assert RoundHalfEven(0.0) == 0;
  }

  /** An in-range load is only rounded. */
  lemma InRangeOnlyRounded(x: real)
    requires 0.0 <= x <= 100.0
    ensures GetSystemTotal(true, true, Reading(Finite(x))) == Round1(Finite(x))
  {
  }

  /** Without support, a sensor or a successful read, the total is 0. */
  lemma ZeroCases(available: bool, isWindows: bool, read: SensorRead)
    requires !IsSupported(available, isWindows) || read.NoSensor? || read.ReadThrew?
    ensures GetSystemTotal(available, isWindows, read) == Finite(0.0)
  {
  }

  /** Unsupported collection is the fixed error, whatever the delegate does. */
  lemma UnsupportedCollectIsError(available: bool, isWindows: bool, delegated: Delegated)
    requires !IsSupported(available, isWindows)
    ensures Collect(available, isWindows, delegated) == MetricError(UnavailableMessage)
  {
  }

  /** Supported collection is the delegate's result or its exception message. */
  lemma SupportedCollectDelegates(delegated: Delegated)
    ensures delegated.Returns? ==> Collect(true, true, delegated) == delegated.metric
    ensures delegated.Throws? ==> Collect(true, true, delegated) == MetricError(delegated.message)
  {
  }

  /** Construction succeeds iff every collaborator is present, and a missing
      one is named by the exception. */
  lemma ConstructorGuards(c: Collaborators)
    ensures Construct(c).Constructed? <==> c.hardwareManager && c.logger && c.cpuMetricProvider
    ensures !c.hardwareManager ==> Construct(c) == NullArgument("hardwareManager")
  {
  }
}
