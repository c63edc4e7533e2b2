/** The y-axis ceiling of the network charts: it rises at once when the
    data outgrows it and, after the data has stayed low for a while, sinks
    back gradually. The clock (`Date.now()`) is a parameter. */
module DynamicScaler {
  import opened Common

  /** The floor the window maximum never goes below by default. */
  const DefaultMinFloor := 10.0

  /** The constructor's default ceiling and shrink delay (ms). */
  const DefaultInitialMax := 1024.0
  const DefaultShrinkDelay := 3000

  /** The ceiling puts the window maximum at 90% of the chart height. */
  const Headroom := 0.9

  /** Below this share of the ceiling the data counts as low. */
  const LowUsageShare := 0.6

  /** Each shrinking update moves this share of the way to the target. */
  const ShrinkRate := 0.2

  /** The largest sample, or 0 when every sample is below 0 or there are
      none (the loop starts from 0). */
  function PeakOf(data: seq<real>): (m: real)
    ensures m >= 0.0
    ensures forall i :: 0 <= i < |data| ==> data[i] <= m
    ensures m == 0.0 || exists i :: 0 <= i < |data| && data[i] == m
  {
    if data == [] then 0.0
    else
      var init := data[..|data| - 1];
      var last := data[|data| - 1];
      assert forall i :: 0 <= i < |init| ==> data[i] == init[i];
      var m := PeakOf(init);
      if last > m then last else m
  }

  /** The window maximum, floored at `minFloor`. */
  function WindowMax(data: seq<real>, minFloor: real): (m: real)
    ensures m >= minFloor && m >= PeakOf(data)
    ensures m == minFloor || m == PeakOf(data)
  {
    var peak := PeakOf(data);
    if peak < minFloor then minFloor else peak
  }

  /** The ceiling the window asks for: its floored maximum over 0.9. */
  function Target(data: seq<real>, minFloor: real): (t: real)
    ensures t >= minFloor / Headroom
    ensures t * Headroom == WindowMax(data, minFloor)
  {
    WindowMax(data, minFloor) / Headroom
  }

  /** The part of the scaler an update changes. */
  datatype ScalerState = ScalerState(currentMax: real, lowUsageStartTime: Option<int>)

  /** `!this.lowUsageStartTime`: no timer, or one that started at time 0,
      which is falsy too. */
  predicate TimerUnset(start: Option<int>)
  {
    start.None? || start.value == 0
  }

  /** `update(data)` at time `now`. */
  function Step(s: ScalerState, minFloor: real, shrinkDelay: int, data: seq<real>, now: int): ScalerState
  {
    var maxInWindow := WindowMax(data, minFloor);
    var target := Target(data, minFloor);
    if target > s.currentMax then ScalerState(target, None)
    else if maxInWindow < s.currentMax * LowUsageShare then
      if TimerUnset(s.lowUsageStartTime) then ScalerState(s.currentMax, Some(now))
      else if now - s.lowUsageStartTime.value > shrinkDelay then
        ScalerState(s.currentMax + (target - s.currentMax) * ShrinkRate, s.lowUsageStartTime)
      else s
    else ScalerState(s.currentMax, None)
  }

  /** After every update the ceiling is at least the target, which is at
      least the floor over 0.9. */
  lemma StepCoversTarget(s: ScalerState, minFloor: real, shrinkDelay: int, data: seq<real>, now: int)
    ensures Step(s, minFloor, shrinkDelay, data, now).currentMax >= Target(data, minFloor) >= minFloor / Headroom
  {
  }

  /** A target above the ceiling raises the ceiling to it at once and
      clears the low-usage timer. */
  lemma GrowsAtOnce(s: ScalerState, minFloor: real, shrinkDelay: int, data: seq<real>, now: int)
    requires Target(data, minFloor) > s.currentMax
    ensures Step(s, minFloor, shrinkDelay, data, now) == ScalerState(Target(data, minFloor), None)
  {
  }

  /** The ceiling sinks exactly when the window has stayed below 60% of it
      since a timer that has run for longer than `shrinkDelay`; it then
      moves a fifth of the way to the target, staying above it. */
  lemma ShrinksOnlyAfterDelay(s: ScalerState, minFloor: real, shrinkDelay: int, data: seq<real>, now: int)
    ensures var r := Step(s, minFloor, shrinkDelay, data, now);
      r.currentMax < s.currentMax <==>
        WindowMax(data, minFloor) < s.currentMax * LowUsageShare
        && !TimerUnset(s.lowUsageStartTime) && now - s.lowUsageStartTime.value > shrinkDelay
    ensures var r := Step(s, minFloor, shrinkDelay, data, now);
      r.currentMax < s.currentMax ==>
        r.currentMax == s.currentMax + (Target(data, minFloor) - s.currentMax) * ShrinkRate
        && Target(data, minFloor) < r.currentMax
  {
    var m := WindowMax(data, minFloor);
    if m < s.currentMax * LowUsageShare {
      assert s.currentMax > 0.0;
      assert Target(data, minFloor) < s.currentMax;
    }
  }

  /** Within the 60%-90% band the ceiling holds and the timer is cleared. */
  lemma StableInBand(s: ScalerState, minFloor: real, shrinkDelay: int, data: seq<real>, now: int)
    requires s.currentMax * LowUsageShare <= WindowMax(data, minFloor)
    requires Target(data, minFloor) <= s.currentMax
    ensures Step(s, minFloor, shrinkDelay, data, now) == ScalerState(s.currentMax, None)
  {
  }

  /** The first low reading only starts the timer; the ceiling moves no
      earlier than the next update. */
  lemma FirstLowReadingStartsTimer(s: ScalerState, minFloor: real, shrinkDelay: int, data: seq<real>, now: int)
    requires Target(data, minFloor) <= s.currentMax
    requires WindowMax(data, minFloor) < s.currentMax * LowUsageShare
    requires s.lowUsageStartTime.None?
    ensures Step(s, minFloor, shrinkDelay, data, now) == ScalerState(s.currentMax, Some(now))
  {
  }

  class DynamicScaler {
    var currentMax: real
    var shrinkDelay: int
    var lowUsageStartTime: Option<int>
    var minFloor: real

    function State(): ScalerState
      reads this
    {
      ScalerState(currentMax, lowUsageStartTime)
    }

    /** `new DynamicScaler(initialMax, shrinkDelay)`. */
    constructor(initialMax: real, shrinkDelay: int)
      ensures currentMax == initialMax && this.shrinkDelay == shrinkDelay
      ensures lowUsageStartTime.None? && minFloor == DefaultMinFloor
    {
      currentMax := initialMax;
      this.shrinkDelay := shrinkDelay;
      lowUsageStartTime := None;
      minFloor := DefaultMinFloor;
    }

    /** `new DynamicScaler()`: the default ceiling of 1024 and delay of
        3000 ms. */
    constructor WithDefaults()
      ensures currentMax == DefaultInitialMax && shrinkDelay == DefaultShrinkDelay
      ensures lowUsageStartTime.None? && minFloor == DefaultMinFloor
    {
      currentMax := DefaultInitialMax;
      shrinkDelay := DefaultShrinkDelay;
      lowUsageStartTime := None;
      minFloor := DefaultMinFloor;
    }

    /** The loop of `update`: the largest sample, starting from 0. */
    static method MaxInWindow(data: seq<real>) returns (m: real)
      ensures m == PeakOf(data)
    {
      m := 0.0;
      for k := 0 to |data|
        invariant m == PeakOf(data[..k])
      {
        assert data[..k + 1][..k] == data[..k];
        if data[k] > m {
          m := data[k];
        }
      }
      assert data[..|data|] == data;
    }

    /** `update(data)`, with `Date.now()` as `now`. */
    method Update(data: seq<real>, now: int) returns (r: real)
      modifies this
      ensures State() == Step(old(State()), minFloor, shrinkDelay, data, now)
      ensures shrinkDelay == old(shrinkDelay) && minFloor == old(minFloor)
      ensures r == currentMax
    {
      var maxInWindow := MaxInWindow(data);
      if maxInWindow < minFloor {
        maxInWindow := minFloor;
      }
      var targetMax := maxInWindow / Headroom;
      if targetMax > currentMax {
        currentMax := targetMax;
        lowUsageStartTime := None;
      } else if maxInWindow < currentMax * LowUsageShare {
        if TimerUnset(lowUsageStartTime) {
          lowUsageStartTime := Some(now);
        } else {
          var elapsed := now - lowUsageStartTime.value;
          if elapsed > shrinkDelay {
            currentMax := currentMax + (targetMax - currentMax) * ShrinkRate;
          }
        }
      } else {
        lowUsageStartTime := None;
      }
      r := currentMax;
    }

    /** `reset(newMax)`: the ceiling changes only when a value is given; the
        timer is always cleared. */
    method Reset(newMax: Option<real>)
      modifies this
      ensures currentMax == (if newMax.Some? then newMax.value else old(currentMax))
      ensures lowUsageStartTime.None?
      ensures shrinkDelay == old(shrinkDelay) && minFloor == old(minFloor)
    {
      if newMax.Some? {
        currentMax := newMax.value;
      }
      lowUsageStartTime := None;
    }

    /** `getCurrentMax()`. */
    method GetCurrentMax() returns (r: real)
      ensures r == currentMax
    {
      r := currentMax;
    }

    /** `setMinFloor(floor)`. */
    method SetMinFloor(floor: real)
      modifies this`minFloor
      ensures minFloor == floor
    {
      minFloor := floor;
    }
  }
}
