/** `VramMetrics`: used and total video memory in MB (finite values). */
module Vram {

  datatype VramMetrics = VramMetrics(used: real, total: real)
  {
    /** `UsagePercent`: the used share of the total, in percent; 0 without a total. */
    function UsagePercent(): (p: real)
      ensures total > 0.0 ==> p * total == used * 100.0
      ensures total <= 0.0 ==> p == 0.0
    {
      if total > 0.0 then (used / total) * 100.0 else 0.0
    }

    /** `IsValid`: a total was reported. */
    predicate IsValid() { total > 0.0 }
  }

  /** `Empty`. */
  function Empty(): (m: VramMetrics)
    ensures m.used == 0.0 && m.total == 0.0
  {
    VramMetrics(0.0, 0.0)
  }

  /** The empty metrics are invalid and report no usage. */
  lemma EmptyIsInvalid()
    ensures !Empty().IsValid() && Empty().UsagePercent() == 0.0
  {
  }

  /** Usage is a percentage whenever the used amount lies within the total. */
  lemma UsagePercentBounded(m: VramMetrics)
    requires m.IsValid() && 0.0 <= m.used <= m.total
    ensures 0.0 <= m.UsagePercent() <= 100.0
  {
    var p := m.UsagePercent();
    assert p * m.total == m.used * 100.0;
    assert p * m.total <= m.total * 100.0;
  }

  /** Usage is 100 exactly when all of the total is used. */
  lemma FullUsage(m: VramMetrics)
    requires m.IsValid()
    ensures m.UsagePercent() == 100.0 <==> m.used == m.total
  {
    var p := m.UsagePercent();
    assert p * m.total == m.used * 100.0;
    if p == 100.0 {
      assert m.used * 100.0 == m.total * 100.0;
    }
    if m.used == m.total {
      assert m.used / m.total == 1.0;
    }
  }
}
