/**
 * updateSolarStats (central-solar.js): one refresh of the plant panel.  It
 * reads the production for the hour, moves the persisted battery level one
 * step, and hands the surplus above the 60% reserve to the trading pool's
 * central offer.  The hour and the random draw are parameters.
 */
module SolarStats {
  import opened Common
  import opened CentralSolar
  import Trading

  /** What the panel shows after a refresh. */
  datatype Reading = Reading(production: real, batteryLevel: real, surplusForTrading: real)

  /**
   * One refresh against the pool whose plant record it updates.  The page
   * gives up before touching anything when the shared data or its plant
   * record is missing (`plantPresent` false), and hands the surplus on only
   * when the trading page's updateCentralSolarOffer is loaded
   * (`offerUpdateLoaded`).  Otherwise: the production of the hour, the
   * battery step, and exactly the surplus of the new level passed on to the
   * central offer.  Nothing else in the pool changes, and the pool's
   * invariant is kept.
   */
  method UpdateSolarStats(pool: Trading.TradingPool, plantPresent: bool, offerUpdateLoaded: bool, hour: int, u: real)
    returns (reading: Option<Reading>)
    requires InUnit(u)
    modifies pool, pool.plant
    ensures !plantPresent ==> reading == None
    ensures !plantPresent ==> pool.Snapshot() == old(pool.Snapshot())
    ensures plantPresent ==> reading.Some? && reading.value.production == Production(hour, u)
    ensures plantPresent ==> pool.plant.batteryLevel == NextBatteryLevel(old(pool.plant.batteryLevel), hour)
    ensures pool.plant.totalSold == old(pool.plant.totalSold)
    ensures plantPresent ==> reading.Some? && reading.value.batteryLevel == pool.plant.batteryLevel
    ensures plantPresent ==> reading.Some? && reading.value.surplusForTrading == Surplus(pool.plant.batteryLevel)
    ensures plantPresent ==> reading.Some? && 0.0 <= reading.value.surplusForTrading <= 80.0
    ensures plantPresent && offerUpdateLoaded ==>
              reading.Some? && pool.sellOffers == Trading.UpdateCentralOffer(old(pool.sellOffers), reading.value.surplusForTrading)
    ensures !(plantPresent && offerUpdateLoaded) ==> pool.sellOffers == old(pool.sellOffers)
    ensures pool.buyRequests == old(pool.buyRequests) && pool.offerIdCounter == old(pool.offerIdCounter)
    ensures pool.transactions == old(pool.transactions)
    ensures old(Trading.Valid(pool.Snapshot())) ==> Trading.Valid(pool.Snapshot())
  {
    var production := 0.0;
    if hour >= 6 && hour <= 18 {
      var deviation := Abs((hour - 12) as real);
      var timeFactor := Max(0.0, 1.0 - deviation / 6.0);
      var randomFactor := 0.9 + u * 0.2;
      production := MaxProduction * timeFactor * randomFactor;
    }
    if !plantPresent {
      return None;
    }
    pool.plant.UpdateBattery(hour);
    var batteryLevel := pool.plant.batteryLevel;
    var surplusForTrading := 0.0;
    if batteryLevel > 60.0 {
      surplusForTrading := ((batteryLevel - 60.0) / 100.0) * SystemCapacity;
    }
    if offerUpdateLoaded {
      pool.UpdateCentralSolarOffer(surplusForTrading);
    }
    reading := Some(Reading(production, batteryLevel, surplusForTrading));
  }
}
