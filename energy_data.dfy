/**
 * The household side of the dashboard (data.js): houses with appliances and
 * consumption history, the EV fleet, the `EnergyDataManager` that owns them,
 * and the calculators the pages call (consumption status, panel sizing,
 * monthly cost, outage backup time, load-shedding order, solar-pool
 * allocation, the EV charging tick and the stale-storage check).
 */
module EnergyData {
  import opened Common

  datatype Appliance = Appliance(id: int, name: string, power: real, isOn: bool, priority: int)

  /** One history entry: its timestamp (hourly, daily) or month name (monthly) and the consumption. */
  datatype Point = Point(stamp: string, consumption: real)

  datatype History = History(hourly: seq<Point>, daily: seq<Point>, monthly: seq<Point>)

  /** `solarAllocation` is None where the stored record has no such field. */
  datatype House = House(
    id: int,
    name: string,
    residents: int,
    currentConsumption: real,
    dailyConsumption: real,
    monthlyConsumption: real,
    solarPanels: int,
    batteryCapacity: real,
    appliances: seq<Appliance>,
    history: History,
    solarAllocation: Option<int>)

  /** `model` and `houseId` are None where the stored record has no such field. */
  datatype EV = EV(
    id: int,
    model: Option<string>,
    houseId: Option<int>,
    batteryCapacity: real,
    currentCharge: real,
    isCharging: bool,
    chargingPower: real)

  // Panel and tariff constants shared by the calculators.
  const PanelKW: real := 0.4
  const PeakSunHours: real := 4.5
  const DaysPerMonth: real := 30.0
  const SystemEfficiency: real := 0.8
  const ElectricityRate: real := 4.0

  /** getHouse: index of the first house with this id, -1 when there is none. */
  function FindHouse(houses: seq<House>, id: int): int
  {
    FirstIndex(houses, (h: House) => h.id == id)
  }

  // ---------------------------------------------------------------------
  // Consumption status
  // ---------------------------------------------------------------------

  datatype ConsumptionStatus = Low | Medium | High

  function GetConsumptionStatus(consumption: real): (s: ConsumptionStatus)
    ensures s == Low <==> consumption < 4.0
    ensures s == Medium <==> 4.0 <= consumption < 7.0
    ensures s == High <==> 7.0 <= consumption
  {
    if consumption < 4.0 then Low
    else if consumption < 7.0 then Medium
    else High
  }

  // ---------------------------------------------------------------------
  // Panel sizing and monthly cost
  // ---------------------------------------------------------------------

  datatype SolarRequirement = SolarRequirement(capacity: real, numberOfPanels: int, estimatedCost: real)

  /**
   * The array needed to cover a daily consumption: its peak capacity in kW
   * and the fewest 400 W panels that reach it.
   */
  function CalculateSolarRequirement(dailyConsumption: real): (r: SolarRequirement)
    ensures r.capacity * (PeakSunHours * SystemEfficiency) == dailyConsumption
    ensures r.numberOfPanels as real * 400.0 >= r.capacity * 1000.0
    ensures (r.numberOfPanels - 1) as real * 400.0 < r.capacity * 1000.0
    ensures r.estimatedCost == r.capacity * 50000.0
  {
    var capacity := dailyConsumption / (PeakSunHours * SystemEfficiency);
    SolarRequirement(capacity, Ceil((capacity * 1000.0) / 400.0), capacity * 50000.0)
  }

  /** Monthly production of an array of `panels` 400 W panels: 43.2 kWh per panel. */
  function MonthlySolarProduction(panels: int): (p: real)
    ensures p == panels as real * 43.2
  {
    panels as real * PanelKW * PeakSunHours * DaysPerMonth * SystemEfficiency
  }

  datatype MonthlyCost = MonthlyCost(cost: real, savings: real, solarProduction: real)

  /**
   * Cost of the grid energy still bought once the panels' production is used,
   * and what that saves against buying everything.  The saving is the solar
   * energy actually used (no more than the consumption) at the tariff.
   */
  function SolarMonthlyCost(panels: int, monthlyConsumption: real): (r: MonthlyCost)
    ensures r.solarProduction == panels as real * 43.2
    ensures r.cost >= 0.0
    ensures r.cost + r.savings == monthlyConsumption * ElectricityRate
    ensures r.savings == Min(monthlyConsumption, r.solarProduction) * ElectricityRate
    ensures monthlyConsumption >= 0.0 && panels >= 0 ==>
              0.0 <= r.savings <= monthlyConsumption * ElectricityRate
  {
    var production := MonthlySolarProduction(panels);
    var remaining := Max(0.0, monthlyConsumption - production);
    var costWithSolar := remaining * ElectricityRate;
    var currentCost := monthlyConsumption * ElectricityRate;
    MonthlyCost(costWithSolar, currentCost - costWithSolar, production)
  }

  /** calculateSolarMonthlyCost: an unknown house costs and saves nothing. */
  function CalculateSolarMonthlyCost(houses: seq<House>, houseId: int): (r: MonthlyCost)
    ensures FindHouse(houses, houseId) == -1 ==> r == MonthlyCost(0.0, 0.0, 0.0)
    ensures FindHouse(houses, houseId) >= 0 ==>
              var h := houses[FindHouse(houses, houseId)];
              r == SolarMonthlyCost(h.solarPanels, h.monthlyConsumption)
  {
    var i := FindHouse(houses, houseId);
    if i == -1 then MonthlyCost(0.0, 0.0, 0.0)
    else SolarMonthlyCost(houses[i].solarPanels, houses[i].monthlyConsumption)
  }

  /** calculateCurrentMonthlyCost: the bill without any solar. */
  function CalculateCurrentMonthlyCost(houses: seq<House>, houseId: int): (c: real)
    ensures FindHouse(houses, houseId) == -1 ==> c == 0.0
    ensures FindHouse(houses, houseId) >= 0 ==>
              c == houses[FindHouse(houses, houseId)].monthlyConsumption * ElectricityRate
  {
    var i := FindHouse(houses, houseId);
    if i == -1 then 0.0 else houses[i].monthlyConsumption * ElectricityRate
  }

  datatype PotentialSavings = PotentialSavings(
    cost: real, savings: real, hasSolar: bool, recommendedPanels: int, solarProduction: real)

  /**
   * calculatePotentialSavings: a house with panels gets its actual figures;
   * one without is priced with the panel count sized for its daily use.
   */
  function CalculatePotentialSavings(houses: seq<House>, houseId: int): (r: PotentialSavings)
    ensures FindHouse(houses, houseId) == -1 ==> r.cost == 0.0 && r.savings == 0.0 && r.recommendedPanels == 0
    ensures FindHouse(houses, houseId) >= 0 ==>
              var h := houses[FindHouse(houses, houseId)];
              && r.hasSolar == (h.solarPanels > 0)
              && (h.solarPanels > 0 ==>
                    r.solarProduction == h.solarPanels as real * 43.2)
              && (h.solarPanels <= 0 ==>
                    && r.recommendedPanels == CalculateSolarRequirement(h.dailyConsumption).numberOfPanels
                    && r.solarProduction == r.recommendedPanels as real * 43.2)
              && r.cost + r.savings == h.monthlyConsumption * ElectricityRate
              && r.savings == Min(h.monthlyConsumption, r.solarProduction) * ElectricityRate
  {
    var i := FindHouse(houses, houseId);
    if i == -1 then PotentialSavings(0.0, 0.0, false, 0, 0.0)
    else
      var h := houses[i];
      if h.solarPanels > 0 then
        var m := SolarMonthlyCost(h.solarPanels, h.monthlyConsumption);
        PotentialSavings(m.cost, m.savings, true, 0, m.solarProduction)
      else
        var panels := CalculateSolarRequirement(h.dailyConsumption).numberOfPanels;
        var m := SolarMonthlyCost(panels, h.monthlyConsumption);
        PotentialSavings(m.cost, m.savings, false, panels, m.solarProduction)
  }

  // ---------------------------------------------------------------------
  // Backup duration during an outage
  // ---------------------------------------------------------------------

  datatype Backup =
    | SolarCoversAll(solarContribution: real, surplus: real)
    | NoBattery(solarContribution: real, netConsumption: real)
    | BackupHours(hours: real, solarContribution: real, netConsumption: real)

  /**
   * calculateBackupDuration: solar covering the load means unlimited backup;
   * otherwise no battery means none, and a battery lasts capacity / net load.
   */
  function CalculateBackupDuration(solarCapacity: real, batteryCapacity: real, consumption: real): (b: Backup)
    ensures b.solarContribution == solarCapacity
    ensures b.SolarCoversAll? <==> consumption <= solarCapacity
    ensures b.SolarCoversAll? ==> b.surplus == solarCapacity - consumption && b.surplus >= 0.0
    ensures b.NoBattery? <==> consumption > solarCapacity && batteryCapacity <= 0.0
    ensures b.BackupHours? <==> consumption > solarCapacity && batteryCapacity > 0.0
    ensures !b.SolarCoversAll? ==> b.netConsumption == consumption - solarCapacity && b.netConsumption > 0.0
    ensures b.BackupHours? ==> b.hours > 0.0 && b.hours * b.netConsumption == batteryCapacity
  {
    var net := consumption - solarCapacity;
    if net <= 0.0 then SolarCoversAll(solarCapacity, Abs(net))
    else if batteryCapacity <= 0.0 then NoBattery(solarCapacity, net)
    else BackupHours(batteryCapacity / net, solarCapacity, net)
  }

  // ---------------------------------------------------------------------
  // Load shedding
  // ---------------------------------------------------------------------

  /**
   * `appliances.filter(a => a.isOn)`: the switched-on appliances, in their
   * original order.  That it keeps every one of them is OnlyOnCounts; that
   * it keeps their order is OnlyOnConcat.
   */
  function OnlyOn(apps: seq<Appliance>): (r: seq<Appliance>)
    ensures forall a :: a in r ==> a in apps && a.isOn
    ensures |r| <= |apps|
  {
    if apps == [] then []
    else (if apps[0].isOn then [apps[0]] else []) + OnlyOn(apps[1..])
  }

  /** The filter keeps each switched-on appliance exactly as often as it occurs, and drops every other one. */
  lemma {:induction false} OnlyOnCounts(apps: seq<Appliance>)
    ensures forall a :: multiset(OnlyOn(apps))[a] == if a.isOn then multiset(apps)[a] else 0
  {
    if apps != [] {
      OnlyOnCounts(apps[1..]);
      assert apps == [apps[0]] + apps[1..];
    }
  }

  /** Filtering a concatenation filters each part and keeps them in order. */
  lemma {:induction false} OnlyOnConcat(a: seq<Appliance>, b: seq<Appliance>)
    ensures OnlyOn(a + b) == OnlyOn(a) + OnlyOn(b)
  {
    if a == [] {
      assert a + b == b;
    } else {
      var head := if a[0].isOn then [a[0]] else [];
      assert (a + b)[0] == a[0] && (a + b)[1..] == a[1..] + b;
      assert OnlyOn(a + b) == head + OnlyOn(a[1..] + b);
      OnlyOnConcat(a[1..], b);
      assert OnlyOn(a) == head + OnlyOn(a[1..]);
      SeqAssoc(head, OnlyOn(a[1..]), OnlyOn(b));
    }
  }

  /** Concatenation is associative (a step Dafny does not take on its own here). */
  lemma SeqAssoc<T>(x: seq<T>, y: seq<T>, z: seq<T>)
    ensures x + (y + z) == (x + y) + z
  {
  }

  /** A list that is all switched on passes the filter unchanged, so filtering twice is filtering once. */
  lemma {:induction false} OnlyOnAllOn(apps: seq<Appliance>)
    requires forall k :: 0 <= k < |apps| ==> apps[k].isOn
    ensures OnlyOn(apps) == apps
  {
    if apps != [] {
      var rest := apps[1..];
      assert forall k :: 0 <= k < |rest| ==> rest[k] == apps[k + 1];
      OnlyOnAllOn(rest);
      assert apps == [apps[0]] + rest;
    }
  }

  /** The appliances of one priority, in their order. */
  function WithPriority(apps: seq<Appliance>, v: int): seq<Appliance>
  {
    if apps == [] then []
    else (if apps[0].priority == v then [apps[0]] else []) + WithPriority(apps[1..], v)
  }

  ghost predicate NonIncreasingPriority(apps: seq<Appliance>)
  {
    forall i, j :: 0 <= i < j < |apps| ==> apps[i].priority >= apps[j].priority
  }

  /**
   * Insert `a` in front of the first element whose priority is not greater
   * than its own: the step of a stable sort by descending priority.
   */
  function InsertByPriority(a: Appliance, s: seq<Appliance>): seq<Appliance>
  {
    if s == [] then [a]
    else if s[0].priority > a.priority then [s[0]] + InsertByPriority(a, s[1..])
    else [a] + s
  }

  /** Inserting adds exactly the one element. */
  lemma {:induction false} InsertAddsOne(a: Appliance, s: seq<Appliance>)
    ensures multiset(InsertByPriority(a, s)) == multiset(s) + multiset{a}
  {
    if s != [] && s[0].priority > a.priority {
      var rest := InsertByPriority(a, s[1..]);
      InsertAddsOne(a, s[1..]);
      assert multiset([s[0]] + rest) == multiset{s[0]} + multiset(rest);
      assert s == [s[0]] + s[1..];
      assert multiset(s) == multiset{s[0]} + multiset(s[1..]);
    }
  }

  /** A sorted sequence stays sorted under a new head that dominates it. */
  lemma ConsKeepsOrder(x: Appliance, s: seq<Appliance>)
    requires NonIncreasingPriority(s)
    requires forall k :: 0 <= k < |s| ==> x.priority >= s[k].priority
    ensures NonIncreasingPriority([x] + s)
  {
    var r := [x] + s;
    forall i, j | 0 <= i < j < |r| ensures r[i].priority >= r[j].priority {
      assert r[j] == s[j - 1];
      if i > 0 {
        assert r[i] == s[i - 1];
      }
    }
  }

  /** Inserting keeps every element below a common bound. */
  lemma {:induction false} InsertKeepsBound(a: Appliance, s: seq<Appliance>, b: int)
    requires a.priority <= b
    requires forall k :: 0 <= k < |s| ==> s[k].priority <= b
    ensures forall k :: 0 <= k < |InsertByPriority(a, s)| ==> InsertByPriority(a, s)[k].priority <= b
  {
    if s != [] && s[0].priority > a.priority {
      InsertKeepsBound(a, s[1..], b);
      var r := InsertByPriority(a, s);
      var rest := InsertByPriority(a, s[1..]);
      assert r == [s[0]] + rest;
      forall k | 0 <= k < |r| ensures r[k].priority <= b {
        if k > 0 {
          assert r[k] == rest[k - 1];
        }
      }
    }
  }

  lemma {:induction false} InsertKeepsOrder(a: Appliance, s: seq<Appliance>)
    requires NonIncreasingPriority(s)
    ensures NonIncreasingPriority(InsertByPriority(a, s))
  {
    if s == [] {
    } else if s[0].priority > a.priority {
      assert NonIncreasingPriority(s[1..]) by {
        forall i, j | 0 <= i < j < |s[1..]| ensures s[1..][i].priority >= s[1..][j].priority {
          assert s[1..][i] == s[i + 1] && s[1..][j] == s[j + 1];
        }
      }
      InsertKeepsOrder(a, s[1..]);
      forall k | 0 <= k < |s[1..]| ensures s[1..][k].priority <= s[0].priority {
        assert s[1..][k] == s[k + 1];
      }
      InsertKeepsBound(a, s[1..], s[0].priority);
      ConsKeepsOrder(s[0], InsertByPriority(a, s[1..]));
      assert InsertByPriority(a, s) == [s[0]] + InsertByPriority(a, s[1..]);
    } else {
      ConsKeepsOrder(a, s);
      assert InsertByPriority(a, s) == [a] + s;
    }
  }

  /** How WithPriority splits over a leading element. */
  lemma WithPriorityCons(x: Appliance, s: seq<Appliance>, v: int)
    ensures WithPriority([x] + s, v) == (if x.priority == v then [x] else []) + WithPriority(s, v)
  {
    assert ([x] + s)[0] == x && ([x] + s)[1..] == s;
  }

  /** Inserting `a` adds it to its own priority's run, in front, and touches no other run. */
  lemma {:induction false} InsertKeepsRuns(a: Appliance, s: seq<Appliance>, v: int)
    ensures WithPriority(InsertByPriority(a, s), v) == (if a.priority == v then [a] else []) + WithPriority(s, v)
  {
    if s == [] {
      WithPriorityCons(a, [], v);
    } else if s[0].priority > a.priority {
      InsertKeepsRuns(a, s[1..], v);
      RunsPastHead(s[0], a, s[1..], InsertByPriority(a, s[1..]), v);
      assert s == [s[0]] + s[1..];
    } else {
      WithPriorityCons(a, s, v);
    }
  }

  /** Passing over a head of higher priority keeps the run property of the rest. */
  lemma RunsPastHead(head: Appliance, a: Appliance, tail: seq<Appliance>, rest: seq<Appliance>, v: int)
    requires head.priority > a.priority
    requires WithPriority(rest, v) == (if a.priority == v then [a] else []) + WithPriority(tail, v)
    ensures WithPriority([head] + rest, v) == (if a.priority == v then [a] else []) + WithPriority([head] + tail, v)
  {
    WithPriorityCons(head, rest, v);
    WithPriorityCons(head, tail, v);
    var ca := if a.priority == v then [a] else [];
    var c0 := if head.priority == v then [head] else [];
    var w := WithPriority(tail, v);
    assert c0 + (ca + w) == ca + (c0 + w) by {
      if ca != [] {
        assert c0 == [];
      }
    }
  }

  /**
   * The order of `.sort((a, b) => b.priority - a.priority)`: a stable sort,
   * highest priority number (the most optional appliance) first.  Stability
   * is stated as: the appliances of each priority keep their relative order.
   */
  function SortByPriorityDesc(apps: seq<Appliance>): (r: seq<Appliance>)
    ensures multiset(r) == multiset(apps)
    ensures NonIncreasingPriority(r)
    ensures forall v :: WithPriority(r, v) == WithPriority(apps, v)
  {
    if apps == [] then []
    else
      var tail := SortByPriorityDesc(apps[1..]);
      assert apps == [apps[0]] + apps[1..];
      InsertAddsOne(apps[0], tail);
      InsertKeepsOrder(apps[0], tail);
      assert forall v :: WithPriority(InsertByPriority(apps[0], tail), v) == WithPriority(apps, v) by {
        forall v ensures WithPriority(InsertByPriority(apps[0], tail), v) == WithPriority(apps, v) {
          InsertKeepsRuns(apps[0], tail, v);
        }
      }
      InsertByPriority(apps[0], tail)
  }

  /** Total power of the first k appliances of the shedding order. */
  function PrefixPower(apps: seq<Appliance>, k: nat): real
    requires k <= |apps|
  {
    if k == 0 then 0.0 else PrefixPower(apps, k - 1) + apps[k - 1].power
  }

  /** Battery hours once `saved` kW are shed; None where JavaScript divides by zero. */
  function ExtendedTime(h: House, saved: real): Option<real>
  {
    if h.currentConsumption - saved == 0.0 then None
    else Some(h.batteryCapacity / (h.currentConsumption - saved))
  }

  datatype Recommendation = Recommendation(
    step: int, appliance: string, power: real, totalSaved: real, extendedTime: Option<real>)

  /**
   * Step k + 1 of a shedding order: the (k+1)-th appliance, with the power
   * saved once it and all before it are off, and the battery time that buys.
   */
  function ShedStep(h: House, order: seq<Appliance>, k: nat): Recommendation
    requires k < |order|
  {
    Recommendation(k + 1, order[k].name, order[k].power,
                   PrefixPower(order, k + 1), ExtendedTime(h, PrefixPower(order, k + 1)))
  }

  /** The shedding order holds every switched-on appliance of the house, once per occurrence, and nothing else. */
  lemma SheddingOrderIsOnAppliances(apps: seq<Appliance>)
    ensures forall a :: multiset(SortByPriorityDesc(OnlyOn(apps)))[a] == if a.isOn then multiset(apps)[a] else 0
  {
    OnlyOnCounts(apps);
  }

  /**
   * getLoadSheddingRecommendations: the switched-on appliances in shedding
   * order, numbered 1..n, each with the running total of power saved.
   */
  method GetLoadSheddingRecommendations(houses: seq<House>, houseId: int) returns (recs: seq<Recommendation>)
    ensures FindHouse(houses, houseId) == -1 ==> recs == []
    ensures FindHouse(houses, houseId) >= 0 ==>
              var h := houses[FindHouse(houses, houseId)];
              var order := SortByPriorityDesc(OnlyOn(h.appliances));
              && |recs| == |order|
              && forall k :: 0 <= k < |recs| ==> recs[k] == ShedStep(h, order, k)
  {
    var i := FindHouse(houses, houseId);
    if i == -1 {
      return [];
    }
    var house := houses[i];
    var sorted := SortByPriorityDesc(OnlyOn(house.appliances));
    recs := SheddingSteps(house, sorted);
  }

  /** The forEach of getLoadSheddingRecommendations: number the order and keep a running total. */
  method SheddingSteps(house: House, sorted: seq<Appliance>) returns (recs: seq<Recommendation>)
    ensures |recs| == |sorted|
    ensures forall k :: 0 <= k < |recs| ==> recs[k] == ShedStep(house, sorted, k)
  {
    recs := [];
    var savedPower := 0.0;
    var index := 0;
    while index < |sorted|
      invariant 0 <= index <= |sorted|
      invariant |recs| == index
      invariant savedPower == PrefixPower(sorted, index)
      invariant forall k :: 0 <= k < index ==> recs[k] == ShedStep(house, sorted, k)
    {
      var appliance := sorted[index];
      savedPower := savedPower + appliance.power;
      recs := recs + [Recommendation(index + 1, appliance.name, appliance.power, savedPower,
                                     ExtendedTime(house, savedPower))];
      index := index + 1;
    }
  }

  // ---------------------------------------------------------------------
  // Solar-pool allocation
  // ---------------------------------------------------------------------

  /** `house.solarAllocation || 0` */
  function AllocationOf(h: House): int
  {
    match h.solarAllocation
    case Some(p) => p
    case None => 0
  }

  /** getTotalSolarAllocation: the allocations summed, a missing one counting 0. */
  function TotalSolarAllocation(houses: seq<House>): int
  {
    if houses == [] then 0 else AllocationOf(houses[0]) + TotalSolarAllocation(houses[1..])
  }

  /**
   * updateSolarAllocation on the house list: the first house with the id gets
   * the percentage; nothing else changes; an unknown id changes nothing.
   */
  function SetAllocation(houses: seq<House>, houseId: int, percentage: int): (r: seq<House>)
    ensures |r| == |houses|
    ensures FindHouse(houses, houseId) == -1 ==> r == houses
    ensures FindHouse(houses, houseId) >= 0 ==>
              var i := FindHouse(houses, houseId);
              && r[i] == houses[i].(solarAllocation := Some(percentage))
              && forall j :: 0 <= j < |houses| && j != i ==> r[j] == houses[j]
    ensures forall j :: 0 <= j < |houses| ==> r[j].id == houses[j].id
  {
    var i := FindHouse(houses, houseId);
    if i == -1 then houses
    else houses[i := houses[i].(solarAllocation := Some(percentage))]
  }

  /** Changing one house's allocation moves the total by exactly the difference. */
  lemma {:induction false} TotalAfterUpdate(houses: seq<House>, i: nat, h: House)
    requires i < |houses|
    ensures TotalSolarAllocation(houses[i := h])
            == TotalSolarAllocation(houses) - AllocationOf(houses[i]) + AllocationOf(h)
  {
    if i == 0 {
      assert houses[i := h][1..] == houses[1..];
    } else {
      assert houses[i := h][1..] == houses[1..][i - 1 := h];
      TotalAfterUpdate(houses[1..], i - 1, h);
    }
  }

  lemma TotalAfterSetAllocation(houses: seq<House>, houseId: int, percentage: int)
    ensures FindHouse(houses, houseId) >= 0 ==>
              TotalSolarAllocation(SetAllocation(houses, houseId, percentage))
              == TotalSolarAllocation(houses) - AllocationOf(houses[FindHouse(houses, houseId)]) + percentage
    ensures FindHouse(houses, houseId) == -1 ==>
              TotalSolarAllocation(SetAllocation(houses, houseId, percentage)) == TotalSolarAllocation(houses)
  {
    var i := FindHouse(houses, houseId);
    if i >= 0 {
      TotalAfterUpdate(houses, i, houses[i].(solarAllocation := Some(percentage)));
    }
  }

  /** A list in which every allocation is 0 or missing totals 0. */
  lemma {:induction false} TotalOfZeroAllocations(houses: seq<House>)
    requires forall j :: 0 <= j < |houses| ==> AllocationOf(houses[j]) == 0
    ensures TotalSolarAllocation(houses) == 0
  {
    if houses != [] {
      TotalOfZeroAllocations(houses[1..]);
    }
  }

  // ---------------------------------------------------------------------
  // EV charging tick
  // ---------------------------------------------------------------------

  /** One 3-second tick for one EV: a charging EV below 100% gains 0.5, capped at 100. */
  function ChargeTick(ev: EV): (r: EV)
    ensures r.currentCharge >= ev.currentCharge
    ensures ev.currentCharge <= 100.0 ==> r.currentCharge <= 100.0
    ensures ev.isCharging && ev.currentCharge < 100.0 ==>
              r.currentCharge == Min(100.0, ev.currentCharge + 0.5)
    ensures !(ev.isCharging && ev.currentCharge < 100.0) ==> r == ev
    ensures r == ev.(currentCharge := r.currentCharge)
  {
    if ev.isCharging && ev.currentCharge < 100.0 then
      ev.(currentCharge := Min(100.0, ev.currentCharge + 0.5))
    else ev
  }

  // ---------------------------------------------------------------------
  // Stale stored data
  // ---------------------------------------------------------------------

  /** Consumption outside 50..800 kWh/month, or a panel count that is neither 0 nor 5..7. */
  predicate HouseOutdated(h: House)
  {
    h.monthlyConsumption > 800.0 || h.monthlyConsumption < 50.0
    || h.solarPanels > 7 || (h.solarPanels < 5 && h.solarPanels > 0)
  }

  /** `!ev.model || !ev.houseId`: a missing or empty model, or a missing or zero house id. */
  predicate EVOutdated(ev: EV)
  {
    (ev.model.None? || ev.model.value == "") || (ev.houseId.None? || ev.houseId.value == 0)
  }

  function AnyHouseOutdated(houses: seq<House>): (b: bool)
    ensures b <==> exists i :: 0 <= i < |houses| && HouseOutdated(houses[i])
  {
    if houses == [] then false
    else if HouseOutdated(houses[0]) then true
    else
      var b := AnyHouseOutdated(houses[1..]);
      assert forall i :: 1 <= i < |houses| ==> houses[i] == houses[1..][i - 1];
      b
  }

  function AnyEVOutdated(evs: seq<EV>): (b: bool)
    ensures b <==> exists i :: 0 <= i < |evs| && EVOutdated(evs[i])
  {
    if evs == [] then false
    else if EVOutdated(evs[0]) then true
    else
      var b := AnyEVOutdated(evs[1..]);
      assert forall i :: 1 <= i < |evs| ==> evs[i] == evs[1..][i - 1];
      b
  }

  /** What the stored blob holds; an absent key is an empty list. */
  datatype SavedData = SavedData(houses: seq<House>, evData: seq<EV>)

  /**
   * The reset test of initializeData.  Both checks sit inside the test that
   * the stored house list is non-empty, so outdated EVs alone, with no
   * stored houses, do not reset.
   */
  function NeedsReset(saved: SavedData): (b: bool)
    ensures b <==>
              && |saved.houses| > 0
              && ((exists i :: 0 <= i < |saved.houses| && HouseOutdated(saved.houses[i]))
                  || (exists j :: 0 <= j < |saved.evData| && EVOutdated(saved.evData[j])))
  {
    |saved.houses| > 0 && (AnyHouseOutdated(saved.houses) || AnyEVOutdated(saved.evData))
  }

  // ---------------------------------------------------------------------
  // The manager object
  // ---------------------------------------------------------------------

  /** The fields of EnergyDataManager that its mutators update in place. */
  class EnergyDataManager {
    var houses: seq<House>
    var evData: seq<EV>

    /** The state loaded from storage, or freshly generated. */
    constructor (houses: seq<House>, evData: seq<EV>)
      ensures this.houses == houses && this.evData == evData
    {
      this.houses := houses;
      this.evData := evData;
    }

    /** updateSolarAllocation: only that house's field, a no-op for an unknown id. */
    method UpdateSolarAllocation(houseId: int, percentage: int)
      modifies this
      ensures houses == SetAllocation(old(houses), houseId, percentage)
      ensures evData == old(evData)
    {
      var i := FindHouse(houses, houseId);
      if i != -1 {
        houses := houses[i := houses[i].(solarAllocation := Some(percentage))];
      }
    }

    /** The EV part of the real-time tick: every EV advances by ChargeTick. */
    method UpdateEVCharging()
      modifies this
      ensures |evData| == |old(evData)|
      ensures forall k :: 0 <= k < |evData| ==> evData[k] == ChargeTick(old(evData)[k])
      ensures houses == old(houses)
    {
      var i := 0;
      while i < |evData|
        invariant 0 <= i <= |evData| == |old(evData)|
        invariant forall k :: 0 <= k < i ==> evData[k] == ChargeTick(old(evData)[k])
        invariant forall k :: i <= k < |evData| ==> evData[k] == old(evData)[k]
        invariant houses == old(houses)
      {
        var ev := evData[i];
        if ev.isCharging && ev.currentCharge < 100.0 {
          evData := evData[i := ev.(currentCharge := Min(100.0, ev.currentCharge + 0.5))];
        }
        i := i + 1;
      }
    }
  }
}
