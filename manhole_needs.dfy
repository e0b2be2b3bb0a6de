/** calculateManholeNeeds: how many manholes drain the rain falling on an area. */
module ManholeNeeds {
  import opened Wrappers
  import opened JsMath

  const DefaultRunoffCoefficient: real := 0.9   // asphalt
  const DefaultCapacityPerManhole: real := 500.0  // litres

  /** The named parameters; an omitted optional parameter is `None`. */
  datatype ManholeParams = ManholeParams(
    area: real,
    rainfallIntensity: real,
    duration: real,
    runoffCoefficient: Option<real>,
    capacityPerManhole: Option<real>)

  datatype ManholeNeeds = ManholeNeeds(totalRainwater: int, requiredManholeCount: Count)

  function RunoffCoefficient(p: ManholeParams): real {
    p.runoffCoefficient.GetOr(DefaultRunoffCoefficient)
  }

  function CapacityPerManhole(p: ManholeParams): real {
    p.capacityPerManhole.GetOr(DefaultCapacityPerManhole)
  }

  function TotalRainwater(p: ManholeParams): real {
    p.area * p.rainfallIntensity * p.duration * RunoffCoefficient(p)
  }

  /**
   * With a non-zero capacity the count is the least number of manholes
   * whose capacity covers the rainwater; the rainwater is reported rounded.
   */
  function CalculateManholeNeeds(p: ManholeParams): (r: ManholeNeeds)
    ensures var total, cap := TotalRainwater(p), CapacityPerManhole(p);
      total - 0.5 < r.totalRainwater as real <= total + 0.5
      && r.requiredManholeCount == CeilQuotient(total, cap)
  {
    var total := TotalRainwater(p);
    ManholeNeeds(Round(total), CeilQuotient(total, CapacityPerManhole(p)))
  }

  /** With a positive capacity the count is the least one that drains all the water. */
  lemma ManholeCountIsLeastSufficient(p: ManholeParams)
    requires CapacityPerManhole(p) > 0.0
    ensures var c, cap := CalculateManholeNeeds(p).requiredManholeCount, CapacityPerManhole(p);
      c.Finite? && c.n as real * cap >= TotalRainwater(p) && (c.n - 1) as real * cap < TotalRainwater(p)
  {
    CeilQuotientIsLeastSufficient(TotalRainwater(p), CapacityPerManhole(p));
  }

  /** Omitted parameters take the defaults 0.9 and 500 litres. */
  lemma DefaultsApply(area: real, intensity: real, duration: real)
    ensures CalculateManholeNeeds(ManholeParams(area, intensity, duration, None, None))
         == CalculateManholeNeeds(ManholeParams(area, intensity, duration, Some(0.9), Some(500.0)))
  {
  }

  /** Any zero factor means no rainwater and, with a positive capacity, no manholes. */
  lemma NoManholesWithoutRain(p: ManholeParams)
    requires p.area == 0.0 || p.rainfallIntensity == 0.0 || p.duration == 0.0 || RunoffCoefficient(p) == 0.0
    requires CapacityPerManhole(p) > 0.0
    ensures CalculateManholeNeeds(p).requiredManholeCount == Finite(0)
    ensures CalculateManholeNeeds(p).totalRainwater == 0
  {
    assert TotalRainwater(p) == 0.0;
  }

  /** A zero capacity with no rain gives `NaN`, not 0. */
  lemma ZeroCapacityNoRainIsNaN(p: ManholeParams)
    requires p.area == 0.0 && CapacityPerManhole(p) == 0.0
    ensures CalculateManholeNeeds(p).requiredManholeCount == NotANumber
  {
    assert TotalRainwater(p) == 0.0;
  }

  /** For non-negative rainwater, a larger manhole capacity never needs more manholes. */
  lemma LargerCapacityNeverNeedsMore(p: ManholeParams, bigger: real)
    requires TotalRainwater(p) >= 0.0
    requires 0.0 < CapacityPerManhole(p) <= bigger
    ensures var q := p.(capacityPerManhole := Some(bigger));
      CalculateManholeNeeds(q).requiredManholeCount.Finite?
      && CalculateManholeNeeds(q).requiredManholeCount.n <= CalculateManholeNeeds(p).requiredManholeCount.n
  {
    var q := p.(capacityPerManhole := Some(bigger));
    var total, cap := TotalRainwater(p), CapacityPerManhole(p);
    assert TotalRainwater(q) == total;
    assert total / bigger <= total / cap by {
      assert total / bigger * bigger == total;
      assert total / cap * cap == total;
      assert total / bigger * cap <= total / bigger * bigger;
    }
    CeilMonotone(total / bigger, total / cap);
  }
}
