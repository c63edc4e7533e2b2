/** `LibreHardwareMonitorGpuProvider.GetSystemTotalAsync`: the system GPU
    load chosen from the GPU load sensors by name pattern precedence. */
module LibreHardwareMonitorGpuProvider {
  import opened Common
  import opened Numbers

  /** A load sensor reading (`SensorReading`): its name and value. */
  datatype Sensor = Sensor(name: string, value: Double)

  const EnginePatterns: seq<string> := [
    "D3D 3D", "D3D Compute", "D3D Copy", "D3D Video", "D3D Video Decode", "D3D Video Encode",
    "D3D Video Processor", "D3D Video Codec", "D3D Video Jpeg", "Graphics", "Compute", "Copy", "Video"]

  const CorePatterns: seq<string> := ["GPU Core", "GPU Usage", "GPU Load"]

  function IsEngine(): Sensor -> bool { (s: Sensor) => ContainsAny(s.name, EnginePatterns) }

  function IsCore(): Sensor -> bool { (s: Sensor) => ContainsAny(s.name, CorePatterns) }

  function IsAnySensor(): Sensor -> bool { (s: Sensor) => true }

  /** The running maximum the loop keeps over the sensors satisfying p: a
      sensor replaces the current one only when its value is greater, so
      the first of equal values stays. */
  function RunningMax(sensors: seq<Sensor>, p: Sensor -> bool): (r: Option<Double>)
  {
    if sensors == [] then None
    else
      var acc := RunningMax(sensors[..|sensors| - 1], p);
      var s := sensors[|sensors| - 1];
      if p(s) && (acc.None? || Lt(acc.value, s.value)) then Some(s.value) else acc
  }

  /** The precedence cascade: the first candidate above 0, rounded to one
      decimal; else 0. */
  function Select(maxEngine: Option<Double>, maxCore: Option<Double>, maxAny: Option<Double>): Double
  {
    if maxEngine.Some? && Lt(Finite(0.0), maxEngine.value) then Round1(maxEngine.value)
    else if maxCore.Some? && Lt(Finite(0.0), maxCore.value) then Round1(maxCore.value)
    else if maxAny.Some? && Lt(Finite(0.0), maxAny.value) then Round1(maxAny.value)
    else Finite(0.0)
  }

  /** The system GPU load for the readings, `None` when reading throws. */
  function SystemTotal(managerAvailable: bool, readings: Option<seq<Sensor>>): Double
  {
    if !managerAvailable || readings.None? then Finite(0.0)
    else
      var sensors := readings.value;
      Select(RunningMax(sensors, IsEngine()), RunningMax(sensors, IsCore()), RunningMax(sensors, IsAnySensor()))
  }

  lemma RunningMaxStep(sensors: seq<Sensor>, i: nat, p: Sensor -> bool)
    requires i < |sensors|
    ensures var acc := RunningMax(sensors[..i], p);
      RunningMax(sensors[..i + 1], p) ==
        if p(sensors[i]) && (acc.None? || Lt(acc.value, sensors[i].value)) then Some(sensors[i].value) else acc
  {
    assert sensors[..i + 1][..i] == sensors[..i];
  }

  /** `GetSystemTotalAsync`: one pass keeping the three maxima, then the cascade. */
  method GetSystemTotal(managerAvailable: bool, readings: Option<seq<Sensor>>) returns (total: Double)
    ensures total == SystemTotal(managerAvailable, readings)
  {
    if !managerAvailable || readings.None? {
      return Finite(0.0);
    }
    var sensors := readings.value;
    var maxEngine: Option<Double> := None;
    var maxCore: Option<Double> := None;
    var maxAny: Option<Double> := None;
    for i := 0 to |sensors|
      invariant maxEngine == RunningMax(sensors[..i], IsEngine())
      invariant maxCore == RunningMax(sensors[..i], IsCore())
      invariant maxAny == RunningMax(sensors[..i], IsAnySensor())
    {
      var sensor := sensors[i];
      RunningMaxStep(sensors, i, IsEngine());
      RunningMaxStep(sensors, i, IsCore());
      RunningMaxStep(sensors, i, IsAnySensor());
      if maxAny.None? || Lt(maxAny.value, sensor.value) {
        maxAny := Some(sensor.value);
      }
      if ContainsAny(sensor.name, EnginePatterns) {
        if maxEngine.None? || Lt(maxEngine.value, sensor.value) {
          maxEngine := Some(sensor.value);
        }
      }
      if ContainsAny(sensor.name, CorePatterns) {
        if maxCore.None? || Lt(maxCore.value, sensor.value) {
          maxCore := Some(sensor.value);
        }
      }
    }
    assert sensors[..|sensors|] == sensors;
    total := Select(maxEngine, maxCore, maxAny);
  }

  // ---------------------------------------------------------------------
  // Properties

  /** The running maximum is one of the values of a sensor satisfying p,
      exists iff such a sensor does, and (when not NaN) is at least every
      such value that is not NaN. */
  lemma {:induction false} RunningMaxIsMaximum(sensors: seq<Sensor>, p: Sensor -> bool)
    ensures var r := RunningMax(sensors, p);
      && (r.None? <==> forall i :: 0 <= i < |sensors| ==> !p(sensors[i]))
      && (r.Some? ==> exists i :: 0 <= i < |sensors| && p(sensors[i]) && sensors[i].value == r.value)
      && (r.Some? && !r.value.NaN? ==>
            forall i :: 0 <= i < |sensors| && p(sensors[i]) && !sensors[i].value.NaN? ==> Le(sensors[i].value, r.value))
  {
    if sensors != [] {
      var init := sensors[..|sensors| - 1];
      var last := sensors[|sensors| - 1];
      RunningMaxIsMaximum(init, p);
      var acc := RunningMax(init, p);
      var r := RunningMax(sensors, p);
      assert forall i :: 0 <= i < |init| ==> sensors[i] == init[i];
      if r.Some? && !r.value.NaN? {
        forall i | 0 <= i < |sensors| && p(sensors[i]) && !sensors[i].value.NaN?
          ensures Le(sensors[i].value, r.value)
        {
          if i < |init| {
            assert init[i] == sensors[i];
            if r != acc {
              assert acc.Some? ==> Lt(acc.value, last.value);
              if acc.Some? && !acc.value.NaN? {
                LtTransitiveLe(sensors[i].value, acc.value, last.value);
              }
              else if acc.Some? {
                assert false;
              }
            }
          } else {
            if r == acc {
              assert acc.Some?;
              LtTotal(acc.value, last.value);
            }
          }
        }
      }
    }
  }

  lemma LtTransitiveLe(a: Double, b: Double, c: Double)
    requires Le(a, b) && Lt(b, c)
    ensures Le(a, c)
  {
  }

  /** Engine sensors take precedence, then core sensors, then any sensor;
      only a positive maximum is used. */
  lemma Precedence(sensors: seq<Sensor>)
    ensures var e := RunningMax(sensors, IsEngine());
      var c := RunningMax(sensors, IsCore());
      var a := RunningMax(sensors, IsAnySensor());
      var r := SystemTotal(true, Some(sensors));
      && (e.Some? && Lt(Finite(0.0), e.value) ==> r == Round1(e.value))
      && (!(e.Some? && Lt(Finite(0.0), e.value)) && c.Some? && Lt(Finite(0.0), c.value) ==> r == Round1(c.value))
      && ((!(e.Some? && Lt(Finite(0.0), e.value)) && !(c.Some? && Lt(Finite(0.0), c.value))
            && a.Some? && Lt(Finite(0.0), a.value)) ==> r == Round1(a.value))
  {
  }

  /** A non-zero total is a sensor value rounded to one decimal. */
  lemma NonZeroIsSensorValue(sensors: seq<Sensor>)
    requires SystemTotal(true, Some(sensors)) != Finite(0.0)
    ensures exists i :: 0 <= i < |sensors| && SystemTotal(true, Some(sensors)) == Round1(sensors[i].value)
  {
    RunningMaxIsMaximum(sensors, IsEngine());
    RunningMaxIsMaximum(sensors, IsCore());
    RunningMaxIsMaximum(sensors, IsAnySensor());
  }

  /** Unavailable hardware, no sensors or a failed read give 0. */
  lemma ZeroCases(available: bool, readings: Option<seq<Sensor>>)
    requires !available || readings.None? || readings == Some([])
    ensures SystemTotal(available, readings) == Finite(0.0)
  {
  }
}
