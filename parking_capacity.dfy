/** calculateParkingCapacity: parking spaces for a plot, one per 100 m² of estimated building area. */
module ParkingCapacity {
  import opened JsMath

  /** Building density per usage type. */
  const DensityByType: map<string, real> := map["residential" := 0.8, "commercial" := 1.2, "mixed" := 1.0]

  const DefaultDensity: real := 1.0

  const SquareMetresPerSpace: real := 100.0

  datatype ParkingCapacity = ParkingCapacity(estimatedBuildingArea: int, requiredParkingSpaces: int)

  /** `densityByType[usageType] || 1.0`. */
  function BuildingDensity(usageType: string): (d: real)
    ensures usageType in DensityByType ==> d == DensityByType[usageType]
    ensures usageType !in DensityByType ==> d == DefaultDensity
  {
    if usageType in DensityByType && DensityByType[usageType] != 0.0 then DensityByType[usageType]
    else DefaultDensity
  }

  function BuildingArea(area: real, usageType: string): real {
    area * BuildingDensity(usageType)
  }

  /**
   * The required spaces are the least count covering the building area at
   * 100 m² each; the building area is reported rounded.
   */
  function CalculateParkingCapacity(area: real, usageType: string): (r: ParkingCapacity)
    ensures var built := area * BuildingDensity(usageType);
      (r.requiredParkingSpaces * 100) as real >= built
      && ((r.requiredParkingSpaces - 1) * 100) as real < built
      && built - 0.5 < r.estimatedBuildingArea as real <= built + 0.5
  {
    var built := BuildingArea(area, usageType);
    CeilQuotientIsLeastSufficient(built, SquareMetresPerSpace);
    ParkingCapacity(Round(built), Ceil(built / SquareMetresPerSpace))
  }

  /** Every usage type gets one of the three listed densities, 1.0 for unlisted ones. */
  lemma DensityValues(usageType: string)
    ensures BuildingDensity(usageType) in {0.8, 1.0, 1.2}
    ensures usageType == "residential" ==> BuildingDensity(usageType) == 0.8
    ensures usageType == "commercial" ==> BuildingDensity(usageType) == 1.2
    ensures usageType == "mixed" ==> BuildingDensity(usageType) == 1.0
    ensures usageType !in {"residential", "commercial", "mixed"} ==> BuildingDensity(usageType) == 1.0
  {
  }

  /** A plot of no area needs no parking. */
  lemma NoSpacesForNoArea(usageType: string)
    ensures CalculateParkingCapacity(0.0, usageType).requiredParkingSpaces == 0
  {
  }

  /** A larger plot never needs fewer spaces. */
  lemma SpacesMonotoneInArea(area1: real, area2: real, usageType: string)
    requires area1 <= area2
    ensures CalculateParkingCapacity(area1, usageType).requiredParkingSpaces
            <= CalculateParkingCapacity(area2, usageType).requiredParkingSpaces
  {
    var d := BuildingDensity(usageType);
    DensityValues(usageType);
    assert area1 * d <= area2 * d by {
      assert (area2 - area1) * d >= 0.0;
    }
    CeilMonotone(area1 * d / 100.0, area2 * d / 100.0);
  }
}
