/** calculateContainerNeeds: how many 96 kg waste containers an area needs per day. */
module ContainerNeeds {
  import opened JsMath

  const WastePerPersonPerDayKg: real := 0.79
  const ContainerCapacityKg: int := 96
  const CollectionFrequencyPerDay: int := 1

  datatype ContainerNeeds = ContainerNeeds(
    estimatedPopulation: int,  // reported through Math.round
    totalWastePerDay: real,    // kg per day, before toFixed(2)
    containerCount: int)

  function Population(density: real, area: real): real {
    density * area
  }

  function TotalWastePerDay(density: real, area: real): real {
    Population(density, area) * WastePerPersonPerDayKg
  }

  /**
   * The container count is the least number of containers whose daily
   * capacity covers the daily waste; the population is the rounded
   * density times area.
   */
  function CalculateContainerNeeds(density: real, area: real): (r: ContainerNeeds)
    ensures r.totalWastePerDay == density * area * 0.79
    ensures (r.containerCount * 96) as real >= r.totalWastePerDay
    ensures ((r.containerCount - 1) * 96) as real < r.totalWastePerDay
    ensures density * area - 0.5 < r.estimatedPopulation as real <= density * area + 0.5
  {
    var total := TotalWastePerDay(density, area);
    var count := Ceil(total / (ContainerCapacityKg * CollectionFrequencyPerDay) as real);
    CeilQuotientIsLeastSufficient(total, 96.0);
    ContainerNeeds(Round(Population(density, area)), total, count)
  }

  /** No density or no area means no containers. */
  lemma NoContainersForEmptyArea(density: real, area: real)
    requires density == 0.0 || area == 0.0
    ensures CalculateContainerNeeds(density, area).containerCount == 0
  {
    assert density * area == 0.0;
  }

  /** With a non-negative density, a larger area never needs fewer containers. */
  lemma ContainersMonotoneInArea(density: real, area1: real, area2: real)
    requires 0.0 <= density && area1 <= area2
    ensures CalculateContainerNeeds(density, area1).containerCount
            <= CalculateContainerNeeds(density, area2).containerCount
  {
    assert density * area1 <= density * area2 by {
      assert density * (area2 - area1) >= 0.0;
    }
    CeilMonotone(TotalWastePerDay(density, area1) / 96.0, TotalWastePerDay(density, area2) / 96.0);
  }
}
