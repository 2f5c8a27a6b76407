/**
 * The community's central solar plant (central-solar.js): its production
 * curve over the day, the slow battery drift driven by the hour, the surplus
 * above the 60% reserve that it offers to the trading pool, and the 24-hour
 * chart series.  The persisted plant record (battery level and energy sold)
 * is an object updated in place.
 */
module CentralSolar {
  import opened Common

  const MaxProduction: real := 45.0      // kW at noon
  const SystemCapacity: real := 200.0    // kWh of battery
  const ReserveLevel: real := 60.0       // % kept back from trading
  const MinBattery: real := 5.0
  const MaxBattery: real := 100.0
  const DriftRate: real := 0.005         // scales the hourly change per update

  // ---------------------------------------------------------------------
  // Production
  // ---------------------------------------------------------------------

  /** `hour >= 6 && hour <= 18` */
  predicate IsDaytime(hour: int)
  {
    6 <= hour <= 18
  }

  /** max(0, 1 - |hour - 12| / 6): 1 at noon, falling linearly to 0 at 6:00 and 18:00. */
  function TimeFactor(hour: int): (f: real)
    ensures 0.0 <= f <= 1.0
    ensures f == 1.0 <==> hour == 12
    ensures f == 0.0 <==> hour <= 6 || hour >= 18
    ensures f > 0.0 ==> f == 1.0 - Abs((hour - 12) as real) / 6.0
  {
    Max(0.0, 1.0 - Abs((hour - 12) as real) / 6.0)
  }

  /** Noon is the unique peak and the curve is symmetric about it. */
  lemma {:induction false} TimeFactorSymmetric(d: int)
    ensures TimeFactor(12 - d) == TimeFactor(12 + d)
    ensures TimeFactor(12 + d) <= TimeFactor(12)
  {
    assert Abs((12 - d - 12) as real) == Abs((12 + d - 12) as real);
  }

  /** Scaling a bounded factor by a non-negative amount keeps the bounds. */
  lemma ScaleBounds(a: real, lo: real, r: real, hi: real)
    requires a >= 0.0 && lo <= r <= hi
    ensures a * lo <= a * r <= a * hi
  {
  }

  /** The jittered reading stays within 10% of the curve and is positive exactly when the curve is. */
  lemma JitterBounds(peak: real, r: real)
    requires 0.0 <= peak <= MaxProduction && 0.9 <= r < 1.1
    ensures peak * 0.9 <= peak * r <= peak * 1.1 <= MaxProduction * 1.1
    ensures peak * r > 0.0 <==> peak > 0.0
  {
    ScaleBounds(peak, 0.9, r, 1.1);
    ScaleBounds(1.1, 0.0, peak, MaxProduction);
    if peak > 0.0 {
      assert peak * r >= peak * 0.9 > 0.0;
    }
  }

  /**
   * The production reading of updateSolarStats: 45 kW scaled by the time
   * factor and a random factor 0.9 + 0.2u, and nothing at night.
   */
  function Production(hour: int, u: real): (p: real)
    requires 0.0 <= u < 1.0
    ensures !IsDaytime(hour) ==> p == 0.0
    ensures IsDaytime(hour) ==>
              MaxProduction * TimeFactor(hour) * 0.9 <= p <= MaxProduction * TimeFactor(hour) * 1.1
    ensures 0.0 <= p <= MaxProduction * 1.1
    ensures p > 0.0 <==> 6 < hour < 18
  {
    if IsDaytime(hour) then
      var peak := MaxProduction * TimeFactor(hour);
      PeakPositive(hour, peak);
      Jitter(peak, u)
    else 0.0
  }

  /** The curve at an hour is positive strictly between 6:00 and 18:00. */
  lemma PeakPositive(hour: int, peak: real)
    requires peak == MaxProduction * TimeFactor(hour)
    ensures 0.0 <= peak <= MaxProduction
    ensures peak > 0.0 <==> 6 < hour < 18
  {
    var f := TimeFactor(hour);
    assert f == 0.0 <==> hour <= 6 || hour >= 18;
  }

  /** The curve scaled by the random factor 0.9 + 0.2u. */
  function Jitter(peak: real, u: real): (p: real)
    requires 0.0 <= peak <= MaxProduction && 0.0 <= u < 1.0
    ensures peak * 0.9 <= p <= peak * 1.1 <= MaxProduction * 1.1
    ensures p > 0.0 <==> peak > 0.0
  {
    var randomFactor := 0.9 + u * 0.2;
    JitterBounds(peak, randomFactor);
    peak * randomFactor
  }

  // ---------------------------------------------------------------------
  // Battery
  // ---------------------------------------------------------------------

  /** The hourly change bucket: slow night discharge, morning and afternoon charge, evening discharge. */
  function BatteryChange(hour: int): (c: real)
    ensures c > 0.0 <==> 6 <= hour < 18
    ensures -1.0 <= c <= 1.5
    ensures c == -0.5 || c == 1.0 || c == 1.5 || c == -1.0
  {
    if hour < 6 then -0.5
    else if hour < 12 then 1.0
    else if hour < 18 then 1.5
    else -1.0
  }

  /** max(5, min(100, level + change * 0.005)) */
  function NextBatteryLevel(level: real, hour: int): (l: real)
    ensures MinBattery <= l <= MaxBattery
    ensures MinBattery <= level + BatteryChange(hour) * DriftRate <= MaxBattery ==>
              l == level + BatteryChange(hour) * DriftRate
  {
    Max(MinBattery, Min(MaxBattery, level + BatteryChange(hour) * DriftRate))
  }

  /**
   * From any level already in range, one update moves the battery by at
   * most 0.0075 points, upwards in the day buckets and downwards at night.
   */
  lemma BatteryStep(level: real, hour: int)
    requires MinBattery <= level <= MaxBattery
    ensures Abs(NextBatteryLevel(level, hour) - level) <= 1.5 * DriftRate
    ensures 6 <= hour < 18 ==> NextBatteryLevel(level, hour) >= level
    ensures !(6 <= hour < 18) ==> NextBatteryLevel(level, hour) <= level
  {
  }

  /** Battery left after the pool buys kWh from the plant: kWh / 200 of the capacity, floored at 0. */
  function DebitedLevel(level: real, kWh: real): (l: real)
    ensures l >= 0.0
    ensures kWh >= 0.0 ==> l <= Max(0.0, level)
    ensures level - kWh / SystemCapacity * 100.0 >= 0.0 ==> l == level - kWh / 2.0
    ensures level - kWh / SystemCapacity * 100.0 < 0.0 ==> l == 0.0
  {
    Max(0.0, level - (kWh / SystemCapacity) * 100.0)
  }

  // ---------------------------------------------------------------------
  // Surplus for trading
  // ---------------------------------------------------------------------

  /**
   * The energy above the 60% reserve, in kWh of the 200 kWh battery; none
   * when the battery is at or below the reserve.
   */
  function Surplus(batteryLevel: real): (s: real)
    ensures s >= 0.0
    ensures s == 0.0 <==> batteryLevel <= ReserveLevel
    ensures s > 0.0 ==> s / SystemCapacity * 100.0 == batteryLevel - ReserveLevel
    ensures batteryLevel <= MaxBattery ==> s <= 80.0
  {
    if batteryLevel > ReserveLevel then ((batteryLevel - ReserveLevel) / 100.0) * SystemCapacity
    else 0.0
  }

  /** A fuller battery never offers less. */
  lemma SurplusMonotone(a: real, b: real)
    requires a <= b
    ensures Surplus(a) <= Surplus(b)
  {
  }

  // ---------------------------------------------------------------------
  // The persisted plant record
  // ---------------------------------------------------------------------

  /** `tradingData.centralSolar`: the fields the dashboard and the pool write. */
  class Plant {
    var batteryLevel: real
    var totalSold: real

    constructor (batteryLevel: real, totalSold: real)
      ensures this.batteryLevel == batteryLevel && this.totalSold == totalSold
    {
      this.batteryLevel := batteryLevel;
      this.totalSold := totalSold;
    }

    /** The battery line of updateSolarStats. */
    method UpdateBattery(hour: int)
      modifies this
      ensures batteryLevel == NextBatteryLevel(old(batteryLevel), hour)
      ensures totalSold == old(totalSold)
    {
      var change := 0.0;
      if hour < 6 {
        change := -0.5;
      } else if hour < 12 {
        change := 1.0;
      } else if hour < 18 {
        change := 1.5;
      } else {
        change := -1.0;
      }
      batteryLevel := Max(MinBattery, Min(MaxBattery, batteryLevel + change * DriftRate));
    }

    /** The pool buying kWh from the plant's offer. */
    method Sell(kWh: real)
      modifies this
      ensures batteryLevel == DebitedLevel(old(batteryLevel), kWh)
      ensures totalSold == old(totalSold) + kWh
    {
      var percentUsed := (kWh / SystemCapacity) * 100.0;
      batteryLevel := Max(0.0, batteryLevel - percentUsed);
      totalSold := totalSold + kWh;
    }
  }

  // ---------------------------------------------------------------------
  // The 24-hour chart
  // ---------------------------------------------------------------------

  /** A chart point at time factor f with the chart's jitter 0.9 + 0.1d: between 90% and 100% of the peak. */
  function ChartPoint(f: real, d: real): (p: real)
    requires 0.0 <= f <= 1.0 && 0.0 <= d < 1.0
    ensures MaxProduction * f * 0.9 <= p <= MaxProduction * f
    ensures 1000.0 * f * 0.0405 <= p <= 1000.0 * f * 0.045
  {
    var peak := MaxProduction * f;
    ScaleBounds(peak, 0.9, 0.9 + d * 0.1, 1.0);
    assert 1000.0 * f * 0.045 == peak;
    assert 1000.0 * f * 0.0405 == peak * 0.9;
    peak * (0.9 + d * 0.1)
  }

  /** The chart's production point for a daytime hour: the same curve with a jitter of 0.9 + 0.1d. */
  function ChartProduction(hour: int, d: real): (p: real)
    requires 0.0 <= d < 1.0
    ensures MaxProduction * TimeFactor(hour) * 0.9 <= p <= MaxProduction * TimeFactor(hour)
    ensures 1000.0 * TimeFactor(hour) * 0.0405 <= p <= 1000.0 * TimeFactor(hour) * 0.045
  {
    ChartPoint(TimeFactor(hour), d)
  }

  /**
   * The series of updateSolarChart, built hour by hour for 0:00..23:00 with
   * one random draw per hour: zero outside 6..18, irradiance 1000 W/m2 at
   * the time factor, and production between 90% and 100% of 45 kW at it.
   */
  method SolarChartSeries(draws: seq<real>) returns (production: seq<real>, irradiance: seq<real>)
    requires |draws| == 24
    requires forall i :: 0 <= i < 24 ==> 0.0 <= draws[i] < 1.0
    ensures |production| == 24 && |irradiance| == 24
    ensures forall i :: 0 <= i < 24 && !IsDaytime(i) ==> production[i] == 0.0 && irradiance[i] == 0.0
    ensures forall i :: 0 <= i < 24 && IsDaytime(i) ==>
              irradiance[i] == 1000.0 * TimeFactor(i) && production[i] == ChartProduction(i, draws[i])
    ensures forall i :: 0 <= i < 24 ==>
              irradiance[i] * 0.0405 <= production[i] <= irradiance[i] * 0.045
  {
    production := [];
    irradiance := [];
    var i := 0;
    while i < 24
      invariant 0 <= i <= 24
      invariant |production| == i && |irradiance| == i
      invariant forall k :: 0 <= k < i && !IsDaytime(k) ==> production[k] == 0.0 && irradiance[k] == 0.0
      invariant forall k :: 0 <= k < i && IsDaytime(k) ==>
                  irradiance[k] == 1000.0 * TimeFactor(k) && production[k] == ChartProduction(k, draws[k])
      invariant forall k :: 0 <= k < i ==>
                  irradiance[k] * 0.0405 <= production[k] <= irradiance[k] * 0.045
    {
      if i >= 6 && i <= 18 {
        var factor := TimeFactor(i);
        production := production + [ChartProduction(i, draws[i])];
        irradiance := irradiance + [1000.0 * factor];
      } else {
        production := production + [0.0];
        irradiance := irradiance + [0.0];
      }
      i := i + 1;
    }
  }
}
