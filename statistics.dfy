/**
 * The statistics view (src/components/Statistics.tsx): hardcoded weekly,
 * hourly and per-zone percentages, each drawn as a bar whose colour and size
 * are computed from the percentage.
 */
module Statistics {
  import opened Palette
  import ParkingMap

  /** getBarColor: green below 50%, yellow from 50% up to (not including) 80%, red from 80% on. */
  function BarColor(percentage: real): (c: Color)
    ensures c != Gray
    ensures c == Green <==> percentage < 50.0
    ensures c == Yellow <==> 50.0 <= percentage < 80.0
    ensures c == Red <==> 80.0 <= percentage
  {
    if percentage < 50.0 then Green
    else if percentage < 80.0 then Yellow
    else Red
  }

  /** The colour ternary written inline for the weekly bars: it agrees with getBarColor on every percentage. */
  function WeeklyColor(occupancy: real): (c: Color)
    ensures c == BarColor(occupancy)
  {
    if occupancy < 50.0 then Green else if occupancy < 80.0 then Yellow else Red
  }

  /** A higher percentage never gives a greener bar. */
  lemma BarColorMonotone(p: real, q: real)
    requires p <= q
    ensures Severity(BarColor(p)) <= Severity(BarColor(q))
  {
  }

  /**
   * The statistics colour of the occupied percentage is the map's zone colour:
   * both views use the same 50% and 80% thresholds.
   */
  lemma BarColorMatchesZoneColor(available: int, total: int)
    requires total > 0
    ensures BarColor(100.0 * ParkingMap.OccupancyRate(available, total)) == ParkingMap.ZoneColor(available, total)
  {
  }

  /** getBarHeight, in pixels: 100% is 120px. */
  function BarHeight(percentage: real): (px: real)
    ensures 0.0 <= percentage <= 100.0 ==> 0.0 <= px <= 120.0
  {
    (percentage / 100.0) * 120.0
  }

  /** The height of a weekly bar, in pixels: 100% is 60px. */
  function WeeklyBarHeight(occupancy: real): (px: real)
    ensures 0.0 <= occupancy <= 100.0 ==> 0.0 <= px <= 60.0
  {
    (occupancy / 100.0) * 60.0
  }

  /** Both heights are proportional to the percentage and the weekly bar is half as tall. */
  lemma HeightsProportional(p: real, q: real)
    ensures BarHeight(100.0) == 120.0 && WeeklyBarHeight(100.0) == 60.0
    ensures q * BarHeight(p) == p * BarHeight(q)
    ensures q * WeeklyBarHeight(p) == p * WeeklyBarHeight(q)
    ensures BarHeight(p) == 2.0 * WeeklyBarHeight(p)
    ensures p <= q ==> BarHeight(p) <= BarHeight(q)
  {
  }

  const WeeklyOccupancy: seq<int> := [85, 78, 92, 88, 82, 45, 25]
  const HourlyPercentage: seq<int> := [25, 65, 95, 85, 78, 70, 82, 88, 75, 60, 45, 30]
  const ZoneUtilization: seq<int> := [92, 78, 65, 85, 88]

  predicate AllPercentages(s: seq<int>) {
    forall i :: 0 <= i < |s| ==> 0 <= s[i] <= 100
  }

  /**
   * Every hardcoded percentage lies in 0..100, so the hourly bars stay within
   * 120px, the weekly bars within 60px and the zone widths within 100%.
   */
  lemma HardcodedPercentagesInRange()
    ensures AllPercentages(WeeklyOccupancy)
    ensures AllPercentages(HourlyPercentage)
    ensures AllPercentages(ZoneUtilization)
    ensures forall i :: 0 <= i < |HourlyPercentage| ==> 0.0 <= BarHeight(HourlyPercentage[i] as real) <= 120.0
    ensures forall i :: 0 <= i < |WeeklyOccupancy| ==> 0.0 <= WeeklyBarHeight(WeeklyOccupancy[i] as real) <= 60.0
  {
  }

  /** The weekly colours: Monday to Friday red except Tuesday (yellow), the weekend green. */
  lemma HardcodedWeeklyColors()
    ensures seq(|WeeklyOccupancy|, i requires 0 <= i < |WeeklyOccupancy| => WeeklyColor(WeeklyOccupancy[i] as real))
         == [Red, Yellow, Red, Red, Red, Green, Green]
  {
  }
}
