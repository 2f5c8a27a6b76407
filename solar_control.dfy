/**
 * The solar-pool allocation page (solar-control.js): the limiter that keeps
 * the community total of allocated percentages at or below 100 when one
 * house's slider moves, the per-slider maximum and lock state, the status of
 * the total, and the reset.  Percentages are whole numbers, as the sliders
 * deliver them.
 */
module SolarControl {
  import opened Common
  import opened EnergyData

  /** The percentage the other houses hold when one house holds `current` of `total`. */
  function Others(total: int, current: int): int
  {
    total - current
  }

  /** The other houses leave room for a share of g. */
  predicate RoomFor(total: int, current: int, g: int)
  {
    Others(total, current) + g <= 100
  }

  /**
   * The clamp of handleAllocationChangeWithLock: the requested percentage,
   * cut back by the excess over 100 and floored at 0.  It is the largest
   * share not above the request that the other houses leave room for.
   */
  function ClampedAllocation(total: int, current: int, requested: int): (f: int)
    ensures Others(total, current) + requested <= 100 ==> f == requested
    ensures requested >= 0 ==> 0 <= f <= requested
    ensures 0 <= Others(total, current) <= 100 && requested >= 0 ==> Others(total, current) + f <= 100
    ensures 0 <= Others(total, current) <= 100 && Others(total, current) + requested > 100 ==>
              Others(total, current) + f == 100
    ensures forall g :: 0 <= g <= requested && RoomFor(total, current, g) ==> g <= f
  {
    var newTotal := total - current + requested;
    if newTotal > 100 then
      var cut := requested - (newTotal - 100);
      if cut < 0 then 0 else cut
    else requested
  }

  /** Each slider's maximum: its own value plus what the community has left. */
  function SliderMax(total: int, value: int): (m: int)
    ensures m - value == 100 - total
  {
    value + (100 - total)
  }

  /** A slider is locked when the pool is full and it holds nothing. */
  predicate SliderLocked(total: int, value: int)
  {
    total >= 100 && value == 0
  }

  /**
   * The clamp gives the request when it is within the slider's maximum, and
   * otherwise the maximum (never below 0), so a slider can never be pushed
   * past the limit the page shows for it.
   */
  lemma ClampIsSliderMax(total: int, current: int, requested: int)
    ensures requested <= SliderMax(total, current) ==> ClampedAllocation(total, current, requested) == requested
    ensures requested > SliderMax(total, current) ==>
              ClampedAllocation(total, current, requested) == (if SliderMax(total, current) < 0 then 0 else SliderMax(total, current))
  {
  }

  /**
   * Moving one house's slider: only that house's allocation changes, it
   * becomes the clamped value, and when the other houses hold between 0 and
   * 100 the new total stays at most 100, exactly 100 when the clamp cut in.
   */
  lemma {:induction false} AllocationChangeBoundsTotal(houses: seq<House>, houseId: int, requested: int)
    requires FindHouse(houses, houseId) >= 0
    ensures var i := FindHouse(houses, houseId);
            var total := TotalSolarAllocation(houses);
            var current := AllocationOf(houses[i]);
            var final := ClampedAllocation(total, current, requested);
            var after := TotalSolarAllocation(SetAllocation(houses, houseId, final));
            && after == Others(total, current) + final
            && (0 <= Others(total, current) <= 100 && requested >= 0 ==> after <= 100)
            && (0 <= Others(total, current) <= 100 && Others(total, current) + requested > 100 ==> after == 100)
  {
    var i := FindHouse(houses, houseId);
    var final := ClampedAllocation(TotalSolarAllocation(houses), AllocationOf(houses[i]), requested);
    TotalAfterSetAllocation(houses, houseId, final);
  }

  /** An allocation of the other houses between 0 and 100 never ends in the 'invalid' state. */
  lemma AllocationChangeNeverInvalid(houses: seq<House>, houseId: int, requested: int)
    requires FindHouse(houses, houseId) >= 0 && requested >= 0
    requires 0 <= Others(TotalSolarAllocation(houses), AllocationOf(houses[FindHouse(houses, houseId)])) <= 100
    ensures var final := ClampedAllocation(TotalSolarAllocation(houses), AllocationOf(houses[FindHouse(houses, houseId)]), requested);
            Status(TotalSolarAllocation(SetAllocation(houses, houseId, final))) != Invalid
  {
    AllocationChangeBoundsTotal(houses, houseId, requested);
  }

  /**
   * handleAllocationChangeWithLock, without the display updates: the new
   * percentage is the clamp of the request and is written into the house.
   * The page reads the house directly, so the house must exist.
   */
  method HandleAllocationChangeWithLock(data: EnergyDataManager, houseId: int, requestedPercentage: int)
    returns (finalPercentage: int)
    requires FindHouse(data.houses, houseId) >= 0
    modifies data
    ensures var i := FindHouse(old(data.houses), houseId);
            finalPercentage
            == ClampedAllocation(TotalSolarAllocation(old(data.houses)), AllocationOf(old(data.houses)[i]), requestedPercentage)
    ensures data.houses == SetAllocation(old(data.houses), houseId, finalPercentage)
    ensures data.evData == old(data.evData)
  {
    var currentTotal := TotalSolarAllocation(data.houses);
    var house := data.houses[FindHouse(data.houses, houseId)];
    var currentHouseAllocation := AllocationOf(house);
    var newTotal := currentTotal - currentHouseAllocation + requestedPercentage;
    finalPercentage := requestedPercentage;
    if newTotal > 100 {
      finalPercentage := requestedPercentage - (newTotal - 100);
      finalPercentage := if finalPercentage < 0 then 0 else finalPercentage;
    }
    data.UpdateSolarAllocation(houseId, finalPercentage);
  }

  /** What updateAllSliderStates sets on one slider. */
  datatype SliderState = SliderState(max: int, locked: bool)

  /** updateAllSliderStates: one state per house, in house order. */
  method UpdateAllSliderStates(houses: seq<House>) returns (states: seq<SliderState>)
    ensures |states| == |houses|
    ensures forall k :: 0 <= k < |houses| ==>
              && states[k].max == SliderMax(TotalSolarAllocation(houses), AllocationOf(houses[k]))
              && (states[k].locked <==> SliderLocked(TotalSolarAllocation(houses), AllocationOf(houses[k])))
  {
    var currentTotal := TotalSolarAllocation(houses);
    var remaining := 100 - currentTotal;
    states := [];
    var i := 0;
    while i < |houses|
      invariant 0 <= i <= |houses| && |states| == i
      invariant forall k :: 0 <= k < i ==>
                  && states[k].max == SliderMax(currentTotal, AllocationOf(houses[k]))
                  && (states[k].locked <==> SliderLocked(currentTotal, AllocationOf(houses[k])))
    {
      var currentValue := AllocationOf(houses[i]);
      var maxPossible := currentValue + remaining;
      var locked := currentTotal >= 100 && currentValue == 0;
      states := states + [SliderState(maxPossible, locked)];
      i := i + 1;
    }
  }

  /** Setting any one slider to its maximum brings the community total to exactly 100. */
  lemma SliderMaxFillsPool(houses: seq<House>, k: nat)
    requires k < |houses|
    ensures var m := SliderMax(TotalSolarAllocation(houses), AllocationOf(houses[k]));
            TotalSolarAllocation(houses[k := houses[k].(solarAllocation := Some(m))]) == 100
  {
    var m := SliderMax(TotalSolarAllocation(houses), AllocationOf(houses[k]));
    TotalAfterUpdate(houses, k, houses[k].(solarAllocation := Some(m)));
  }

  /** The three states of the total shown under the sliders. */
  datatype AllocationStatus = Valid | Invalid | Warning(remaining: int)

  /** updateTotalAllocation: complete at 100, over the limit above it, otherwise what is left. */
  function Status(total: int): (s: AllocationStatus)
    ensures s == Valid <==> total == 100
    ensures s == Invalid <==> total > 100
    ensures s.Warning? <==> total < 100
    ensures s.Warning? ==> s.remaining == 100 - total && s.remaining > 0
  {
    if total == 100 then Valid
    else if total > 100 then Invalid
    else Warning(100 - total)
  }

  /** No two houses share an id. */
  ghost predicate UniqueIds(houses: seq<House>)
  {
    forall j, k :: 0 <= j < k < |houses| ==> houses[j].id != houses[k].id
  }

  /** With unique ids, looking a house up by its own id finds it. */
  lemma FindOwnHouse(houses: seq<House>, k: nat)
    requires UniqueIds(houses) && k < |houses|
    ensures FindHouse(houses, houses[k].id) == k
  {
  }

  /**
   * resetAllocation: every house, in turn, is given 0 through
   * updateSolarAllocation.  Only allocations change; with unique ids every
   * house ends at 0 and so does the total.
   */
  method ResetAllocation(data: EnergyDataManager)
    modifies data
    ensures |data.houses| == |old(data.houses)|
    ensures forall k :: 0 <= k < |data.houses| ==>
              data.houses[k] == old(data.houses)[k].(solarAllocation := data.houses[k].solarAllocation)
    ensures UniqueIds(old(data.houses)) ==>
              && (forall k :: 0 <= k < |data.houses| ==> data.houses[k].solarAllocation == Some(0))
              && TotalSolarAllocation(data.houses) == 0
              && Status(TotalSolarAllocation(data.houses)) == Warning(100)
    ensures data.evData == old(data.evData)
  {
    ghost var start := data.houses;
    var i := 0;
    while i < |data.houses|
      invariant 0 <= i <= |data.houses| == |start|
      invariant forall k :: 0 <= k < |data.houses| ==>
                  data.houses[k] == start[k].(solarAllocation := data.houses[k].solarAllocation)
      invariant UniqueIds(start) ==> forall k :: 0 <= k < i ==> data.houses[k].solarAllocation == Some(0)
      invariant data.evData == old(data.evData)
    {
      var house := data.houses[i];
      ghost var before := data.houses;
      data.UpdateSolarAllocation(house.id, 0);
      if UniqueIds(start) {
        assert UniqueIds(before) by {
          assert forall k :: 0 <= k < |before| ==> before[k].id == start[k].id;
        }
        FindOwnHouse(before, i);
      }
      i := i + 1;
    }
    if UniqueIds(start) {
      TotalOfZeroAllocations(data.houses);
    }
  }
}
