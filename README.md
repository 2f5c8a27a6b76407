# Gearlaxy micro-grid dashboard: the pool engine and its calculators

This project models the computational core of a campus micro-grid dashboard.

The centre is the **Gearlaxy power pool**. It acts as a middleman:
- it buys energy from sell offers posted by houses with solar surplus, by outside companies and by the central solar plant;
- it sells energy to the buy requests of houses;
- it keeps an append-only transaction log, and never sells more than the reserve that log shows it holds.

Around the pool sit four other parts:
- **The central solar plant.** Its production curve, a slow battery drift driven by the hour, the surplus above a 60% reserve that it posts to the pool, and the 24-hour chart series.
- **The solar-sharing page.** A limiter keeps the community's allocated percentages at or below 100, and the page derives each slider's maximum, lock state and status.
- **The household calculators.** Consumption status, panel sizing, monthly cost and savings, outage backup time, load-shedding order, the EV charging tick and the stale-storage test.
- **The history page and chart utilities.** Community sums, the appliance breakdown by name, the average, the chart registry, the colour palette and the sliding real-time window.

Modules, one per program file:

| module | file | form |
|---|---|---|
| `Common` | — | Option, Math.round / Math.ceil / findIndex / `Math.floor(Math.random()*n)` |
| `Ledger` | electricity-trading.js (log, reserve, P&L) | functions over the log; the two `forEach` passes are loop methods |
| `Trading` | electricity-trading.js (engine) | each operation is a function on a `Market` value, with its invariant `Valid`; class `TradingPool` performs it in place and is proved to agree with the function |
| `CentralSolar`, `SolarStats` | central-solar.js | pure curve, battery and surplus functions; class `Plant` for the persisted record; the chart loop; `UpdateSolarStats` ties plant and pool together |
| `SolarControl` | solar-control.js | the clamp and status as functions; the slider and reset loops as methods |
| `EnergyData` | data.js | pure calculators; class `EnergyDataManager` for the two mutators; the shedding `forEach` as a loop method |
| `UsageHistory` | usage-history.js | series as functions; the nested appliance-map `forEach` as loop methods |
| `Charts` | charts.js | classes `ChartManager` (registry map) and `RealTimeChart` (two arrays as sequences) |

Inputs the code reads from elsewhere become parameters:
- the hour of day;
- every `Math.random()` draw, as a real in [0, 1);
- the buy and sell prices (`getBuyPriceFromSeller` and `getSellPriceToBuyer` are not part of this model);
- whether a canvas element exists;
- whether the shared data with its plant record, and the trading page's `updateCentralSolarOffer`, are loaded.

## Model

| member | source | states |
|---|---|---|
| Ledger.ReserveAppend | electricity-trading.js:1119-1132 | appending a trade raises the bought total by its energy for a buy and the sold total for a sale, so the reserve moves by exactly +kWh or −kWh |
| Ledger.AdmissibleReserveNonNegative | electricity-trading.js:678-687 | in a log where no sale exceeds the reserve held before it, the reserve is ≥ 0 after every prefix |
| Ledger.AdmissibleAppend | electricity-trading.js:678-706 | a trade with positive energy, and a sale no larger than the current reserve, keeps the log admissible |
| Ledger.AmountOf | electricity-trading.js:1160-1163 | `totalCost \|\| kWh*price`: the recorded total when it is non-zero, else energy × price; the two agree whenever the total was recorded as kWh × price |
| Ledger.MoneyAppend | electricity-trading.js:1157-1165 | appending a trade adds its amount to the cost side for a buy and the revenue side for a sale, and nothing to the other |
| Ledger.ComputeReserve | electricity-trading.js:1116-1132 | the loop's result is the reserve: energy bought minus energy sold over the whole log |
| Ledger.ProfitAnalysis | electricity-trading.js:1149-1171 | volumes, cost and revenue are the log totals; net profit = revenue − cost; holding = the reserve; margin × revenue = net × 100 when revenue > 0, else 0; margin ≤ 100 when cost ≥ 0 |
| Ledger.MarginBound | electricity-trading.js:1171 | with positive revenue and non-negative cost the margin is at most 100% |
| Trading.RemoveAt | electricity-trading.js:639 | `splice(i, 1)`: one entry fewer, the entries before and after i kept in order, and the total amount down by the removed entry's amount |
| Trading.Fill | electricity-trading.js:637-649 | taking all that is left removes the entry; taking less lowers exactly that entry's amount by kWh, every other entry unchanged; the total amount drops by the energy taken |
| Trading.PurchaseRecord | electricity-trading.js:604-621 | the purchase log entry: type buy, buyer the pool, seller the offer's seller, fixed mode and price, total = kWh × price |
| Trading.AcceptOffer | electricity-trading.js:586-602 | outcome is UnknownListing iff the id is absent, NonPositiveAmount iff kWh ≤ 0, ExceedsListing iff kWh > the amount, Done iff 0 < kWh ≤ amount; on every refusal the market is unchanged |
| Trading.AcceptOfferDone | electricity-trading.js:604-649 | a purchase appends exactly one purchase record, fills the offer, lowers the energy on offer and raises the reserve by kWh, leaves requests and counter alone; a plant offer debits the battery by kWh/200 × 100 floored at 0 and adds kWh to its total sold, any other offer leaves the plant alone |
| Trading.AcceptOfferKeepsValid | electricity-trading.js:586-658 | accepting an offer keeps the engine's invariant (amounts ≥ 0, ids ordered and below the counter, at most one plant offer, admissible log) |
| Trading.SaleRecord | electricity-trading.js:689-706 | the sale log entry: type sell, seller the pool, buyer the requesting house, the request's own tariff and that tariff's price, total = kWh × price |
| Trading.AcceptRequest | electricity-trading.js:660-687 | the four refusals (unknown id, kWh ≤ 0, kWh above the request, kWh above the reserve) each hold exactly when their check fails first; each leaves the market unchanged; Done iff 0 < kWh ≤ amount and kWh ≤ reserve |
| Trading.AcceptRequestDone | electricity-trading.js:689-720 | a sale appends exactly one sale record, fills the request, lowers energy asked for and the reserve by kWh, leaves the reserve ≥ 0 and every other field unchanged |
| Trading.AcceptRequestKeepsValid | electricity-trading.js:660-729 | accepting a request keeps the engine's invariant |
| Trading.ValidReserve | electricity-trading.js:1132 | a market satisfying the invariant has a reserve ≥ 0 |
| Trading.ValidOffersFill | electricity-trading.js:637-649 | filling an offer with 0 < kWh ≤ its amount keeps the offers' invariant |
| Trading.ValidRequestsFill | electricity-trading.js:708-720 | filling a request with 0 < kWh ≤ its amount keeps the requests' invariant |
| Trading.PostCentral | electricity-trading.js:1381-1393 | the new plant offer (id 9999, rounded amount) goes to index 0, in front of the unchanged list, which then has exactly one plant offer |
| Trading.RepriceCentral | electricity-trading.js:1377-1379 | re-pricing changes only the plant offer's amount, in place; no other seller's offer moves |
| Trading.WithdrawCentral | electricity-trading.js:1396-1399 | withdrawing removes the plant offer and leaves no plant offer when there was at most one; the other offers are untouched |
| Trading.UpdateCentralOfferShape | electricity-trading.js:1367-1401 | the five cases of the update: within 1 kWh nothing changes; above 5 kWh the existing plant offer is re-priced in place or a new one is put in front; at or below 5 kWh the plant offer is removed; with no plant offer nothing changes |
| Trading.UpdateCentralOfferEffects | electricity-trading.js:1367-1401 | other sellers' offers are never touched, there is never a second plant offer, and outside the 1 kWh threshold the plant has an offer iff more than 5 kWh is available, at round(available) |
| Trading.UpdateCentralKeepsValid | electricity-trading.js:1367-1401 | the update keeps the offers' invariant |
| Trading.ValidAfterCentralUpdate | electricity-trading.js:1367-1401 | the update keeps the whole engine's invariant |
| Trading.UpdateCentralIdempotent | electricity-trading.js:1371-1374 | posting the same surplus twice changes nothing the second time |
| Trading.NewSellOffer | electricity-trading.js:759-797 | the new offer takes the given id and is never the plant's; a kind draw > 0.4 picks one of the five companies, at 80% to 120% of its base amount; otherwise a listed house with its panel count (5 when it has none), at 50 to 200 kWh |
| Trading.NewBuyRequest | electricity-trading.js:804-819 | the new request takes the given id, comes from a listed house, uses tariff 'tou' iff the draw is > 0.5, and asks for 100 to 300 kWh |
| Trading.AddRandomSellOffer | electricity-trading.js:759-801 | the offer is appended last with the counter id, the counter goes up by one, and nothing else changes |
| Trading.AddRandomBuyRequest | electricity-trading.js:804-823 | the request is appended last with the counter id, the counter goes up by one, and nothing else changes |
| Trading.MaybeAddOffer | electricity-trading.js:1429-1431 | an offer is added only when the chance draw is > 0.7 and there are fewer than 15 offers; otherwise nothing changes |
| Trading.MaybeAddRequest | electricity-trading.js:1434-1436 | a request is added only when the chance draw is > 0.7 and there are fewer than 15 requests; otherwise nothing changes |
| Trading.MaybeDropOffer | electricity-trading.js:1439-1442 | at most one offer goes, at a random index, and none at or below 3 offers |
| Trading.MaybeDropRequest | electricity-trading.js:1445-1448 | at most one request goes, at a random index, and none at or below 3 requests |
| Trading.SimulateMarket | electricity-trading.js:1427-1452 | each list gains or loses at most one entry per tick; ≥ 3 entries stay ≥ 3; ≤ 15 stay ≤ 15; the counter rises by at most 2; the log and plant are unchanged |
| Trading.SimulateMarketKeepsValid | electricity-trading.js:1427-1452 | a tick keeps the engine's invariant, in particular counter ids strictly increasing along each list |
| Trading.HouseOffers | electricity-trading.js:47-70 | house offers take consecutive ids from the counter, are house sellers, and offer at least 10 kWh |
| Trading.HouseOffersFromEligible | electricity-trading.js:47-70 | every house offer is the rounded monthly surplus of a house that has panels and more than 10 kWh of surplus |
| Trading.EligibleHousesOffer | electricity-trading.js:47-70 | every house with panels and more than 10 kWh of surplus has an offer |
| Trading.CompanyOffers | electricity-trading.js:73-91 | one offer per company in catalogue order, at its listed amount, with consecutive ids |
| Trading.HouseRequests | electricity-trading.js:95-113 | at most one request per house, with consecutive ids |
| Trading.HouseRequestsFromWanting | electricity-trading.js:95-113 | every request belongs to a house without panels or using more than 400 kWh, with its drawn tariff and round(monthly × (0.3 + 0.4u)) |
| Trading.WantingHousesRequest | electricity-trading.js:95-113 | every such house has a request |
| Trading.InitialMarket | electricity-trading.js:42-113 | the fresh market is: house offers, then company offers, then requests, numbered on from the counter, which ends past the last id; no offer is the plant's; log and plant untouched |
| Trading.InitialMarketValid | electricity-trading.js:42-113 | from a counter ≥ 1 and an admissible log, with non-negative consumption, the fresh market satisfies the engine's invariant |
| Trading.CollectHouseOffers | electricity-trading.js:47-70 | the house loop produces exactly HouseOffers and the next free id |
| Trading.CollectCompanyOffers | electricity-trading.js:80-91 | the company loop produces exactly CompanyOffers and the next free id |
| Trading.CollectHouseRequests | electricity-trading.js:95-113 | the request loop produces exactly HouseRequests and the next free id |
| Trading.TradingPool.BuyFromOffer | electricity-trading.js:586-658 | the in-place purchase leaves the state AcceptOffer computes and keeps the invariant |
| Trading.TradingPool.SellToRequest | electricity-trading.js:660-729 | the in-place sale leaves the state AcceptRequest computes and keeps the invariant |
| Trading.TradingPool.UpdateCentralSolarOffer | electricity-trading.js:1367-1401 | the in-place update leaves the offers UpdateCentralOffer computes, changes nothing else and keeps the invariant |
| Trading.TradingPool.AddNewRandomSellOffer | electricity-trading.js:759-801 | the in-place push agrees with AddRandomSellOffer |
| Trading.TradingPool.AddNewRandomBuyRequest | electricity-trading.js:804-823 | the in-place push agrees with AddRandomBuyRequest |
| Trading.TradingPool.SimulateMarketChanges | electricity-trading.js:1427-1452 | the in-place tick agrees with SimulateMarket and keeps the invariant |
| Trading.TradingPool.InitializeTradingOffers | electricity-trading.js:42-113 | the in-place fresh start agrees with InitialMarket |
| CentralSolar.TimeFactor | central-solar.js:31-37 | the factor lies in [0, 1]; equals 1 iff hour = 12; equals 0 iff hour ≤ 6 or ≥ 18 |
| CentralSolar.TimeFactorSymmetric | central-solar.js:32-37 | the curve is symmetric about noon and peaks there |
| CentralSolar.Production | central-solar.js:26-43 | 0 outside 6..18; by day between 90% and 110% of 45 × factor; always in [0, 49.5]; positive iff 6 < hour < 18 |
| CentralSolar.BatteryChange | central-solar.js:57-61 | the hourly bucket is one of −0.5, 1.0, 1.5, −1.0, positive iff 6 ≤ hour < 18 |
| CentralSolar.NextBatteryLevel | central-solar.js:65 | the new level is in [5, 100] whatever the old one, and equals level + change × 0.005 when that is already in range |
| CentralSolar.BatteryStep | central-solar.js:57-65 | from a level in range one update moves it by at most 0.0075 points, up in day hours and down at night |
| CentralSolar.DebitedLevel | electricity-trading.js:627-631 | after buying kWh the level is max(0, level − kWh/2): never negative, and for kWh ≥ 0 never above the old level (or 0) |
| CentralSolar.Surplus | central-solar.js:95-100 | the surplus is ≥ 0; it is 0 iff the battery is ≤ 60%; otherwise it is the kWh above 60% of 200 kWh; it is ≤ 80 while the battery is ≤ 100% |
| CentralSolar.SurplusMonotone | central-solar.js:95-100 | a fuller battery never offers less |
| CentralSolar.Plant.UpdateBattery | central-solar.js:57-65 | the in-place battery update is NextBatteryLevel; total sold untouched |
| CentralSolar.Plant.Sell | electricity-trading.js:624-635 | the in-place debit is DebitedLevel, and kWh is added to total sold |
| CentralSolar.ChartPoint | central-solar.js:124-125 | a point at time factor f in [0, 1] with the chart's jitter 0.9 + 0.1d lies between 90% and 100% of 45 × f, i.e. between 4.05% and 4.5% of the irradiance 1000 × f |
| CentralSolar.ChartProduction | central-solar.js:122-126 | a daytime chart point lies between 90% and 100% of 45 × factor, i.e. between 4.05% and 4.5% of the irradiance |
| CentralSolar.SolarChartSeries | central-solar.js:116-131 | both series have 24 entries and are 0 outside 6..18; irradiance is 1000 × factor; production is the chart point of its hour and lies between 4.05% and 4.5% of irradiance |
| SolarStats.UpdateSolarStats | central-solar.js:19-105 | without the shared data or its plant record the refresh stops before touching anything (no reading, pool and plant unchanged); otherwise it reports the hour's production, steps the battery, and passes exactly Surplus(new level), in [0, 80], to the plant offer update when that is loaded, leaving the offers alone when it is not; nothing else in the pool changes and its invariant is kept |
| SolarControl.ClampedAllocation | solar-control.js:107-119 | the request itself when the others leave room; always within [0, requested]; the largest such share the others leave room for; with the others in [0, 100] the new total is ≤ 100, and exactly 100 when clamped |
| SolarControl.SliderMax | solar-control.js:147-157 | a slider's maximum exceeds its value by exactly what the community has left |
| SolarControl.ClampIsSliderMax | solar-control.js:106-157 | the clamp gives the request when it is within the slider's maximum, and otherwise that maximum floored at 0 |
| SolarControl.AllocationChangeBoundsTotal | solar-control.js:106-122 | after the change the total is the others' share plus the clamped value, ≤ 100 when the others hold 0..100, and exactly 100 when the clamp cut in |
| SolarControl.AllocationChangeNeverInvalid | solar-control.js:106-122 | such a change never leaves the status 'invalid' |
| SolarControl.HandleAllocationChangeWithLock | solar-control.js:106-122 | the percentage written is the clamp of the request, and only that house's allocation changes |
| SolarControl.UpdateAllSliderStates | solar-control.js:146-168 | one state per house: max = value + (100 − total); locked iff total ≥ 100 and value = 0 |
| SolarControl.SliderMaxFillsPool | solar-control.js:147-157 | moving any one slider to its maximum brings the total to exactly 100 |
| SolarControl.Status | solar-control.js:188-203 | valid iff total = 100, invalid iff total > 100, warning iff total < 100, with remaining = 100 − total > 0 |
| SolarControl.FindOwnHouse | data.js:312-314 | with unique ids, looking a house up by its own id finds it |
| SolarControl.ResetAllocation | solar-control.js:221-224 | only allocations change; with unique ids every house ends at 0, the total is 0 and the status is a warning of 100 |
| EnergyData.GetConsumptionStatus | data.js:317-321 | low iff < 4, medium iff 4 ≤ c < 7, high iff ≥ 7 |
| EnergyData.CalculateSolarRequirement | data.js:324-337 | capacity × 3.6 = daily use; the panel count is the least n with n × 400 W ≥ capacity; cost = 50 000 per kW |
| EnergyData.MonthlySolarProduction | data.js:443 | panels × 0.4 × 4.5 × 30 × 0.8 = 43.2 kWh per panel |
| EnergyData.SolarMonthlyCost | data.js:436-455 | cost ≥ 0; cost + savings = the bill without solar; savings = min(consumption, production) × 4; 0 ≤ savings ≤ consumption × 4 |
| EnergyData.CalculateSolarMonthlyCost | data.js:430-456 | an unknown house gives all zeros; a known one gives its SolarMonthlyCost |
| EnergyData.CalculateCurrentMonthlyCost | data.js:421-427 | an unknown house gives 0; a known one consumption × 4 |
| EnergyData.CalculatePotentialSavings | data.js:459-498 | an unknown house gives zeros; a house with panels gets its actual figures; one without is priced with the panel count sized for its daily use; cost + savings = the bill without solar |
| EnergyData.CalculateBackupDuration | data.js:340-369 | the three cases: solar covers everything iff consumption ≤ solar, with surplus = solar − consumption ≥ 0; no battery iff net > 0 and battery ≤ 0; otherwise hours × net = battery, hours > 0 |
| EnergyData.OnlyOn | data.js:378 | the filter keeps only switched-on appliances of the house, and never lengthens the list |
| EnergyData.OnlyOnCounts | data.js:378 | each switched-on appliance is kept exactly as often as it occurs, and every other one is dropped |
| EnergyData.OnlyOnConcat | data.js:378 | filtering a concatenation is concatenating the filtered parts, so the original order is kept |
| EnergyData.OnlyOnAllOn | data.js:378 | a list of switched-on appliances passes the filter unchanged |
| EnergyData.SheddingOrderIsOnAppliances | data.js:377-379 | the shedding order contains every switched-on appliance, once per occurrence, and nothing else |
| EnergyData.SortByPriorityDesc | data.js:377-379 | the order is a permutation, non-increasing in priority, and stable: each priority's appliances keep their order |
| EnergyData.InsertAddsOne | data.js:379 | a sort step adds exactly the inserted appliance |
| EnergyData.InsertKeepsOrder | data.js:379 | a sort step keeps the order non-increasing |
| EnergyData.InsertKeepsRuns | data.js:379 | a sort step puts the new appliance in front of its priority's run and leaves every other run unchanged |
| EnergyData.GetLoadSheddingRecommendations | data.js:372-396 | an unknown house gives []; otherwise one step per switched-on appliance in shedding order, numbered 1..n, with totalSaved the running prefix sum of power and that sum's battery time |
| EnergyData.SheddingSteps | data.js:381-395 | the forEach numbers the order and keeps the running total of power saved |
| EnergyData.SetAllocation | data.js:399-405 | only the first house with the id gets the percentage; every other house and all ids are unchanged; an unknown id changes nothing |
| EnergyData.TotalAfterUpdate | data.js:408-410 | changing one house's allocation moves the total by exactly the difference, a missing value counting 0 |
| EnergyData.TotalAfterSetAllocation | data.js:399-410 | after the update the total is the old total minus the house's old share plus the new one; an unknown id leaves it unchanged |
| EnergyData.TotalOfZeroAllocations | data.js:408-410 | a list whose allocations are all 0 or missing totals 0 |
| EnergyData.ChargeTick | data.js:271-277 | charge never decreases, and a charge ≤ 100 stays ≤ 100; a charging EV below 100 gains 0.5, capped at 100; any other EV is untouched; only the charge field changes |
| EnergyData.AnyHouseOutdated | data.js:33-37 | true iff some house has consumption > 800 or < 50, or more than 7 panels, or 1 to 4 panels |
| EnergyData.AnyEVOutdated | data.js:40-41 | true iff some EV lacks a model or a house id |
| EnergyData.NeedsReset | data.js:32-47 | the stored data is reset iff there is at least one stored house and either some house or some EV is outdated |
| EnergyData.EnergyDataManager.UpdateSolarAllocation | data.js:399-405 | the in-place update is SetAllocation; the EV list is untouched |
| EnergyData.EnergyDataManager.UpdateEVCharging | data.js:271-277 | every EV advances by ChargeTick, in place; the houses are untouched |
| UsageHistory.CommunityEntryMissing | usage-history.js:198-202 | a house with no entry at a position adds nothing to that position's sum |
| UsageHistory.CommunityEntryBeyondHistory | usage-history.js:198-202 | past every house's history the community reading is 0 |
| UsageHistory.CommunityEntryNonNegative | usage-history.js:198-202 | with non-negative readings the community reading is non-negative |
| UsageHistory.SeriesLength | usage-history.js:189-219 | 24 hourly positions, 30 daily ones, and the first house's month count for the monthly view |
| UsageHistory.CommunitySeries | usage-history.js:189-224 | the series has that length, and entry i is the sum over houses of their i-th reading, a missing one counting 0 |
| UsageHistory.OffAppliancesIgnored | usage-history.js:266 | filtering to switched-on appliances changes neither the power under any name nor the set of names |
| UsageHistory.AddHouseAppliances | usage-history.js:266-271 | after one house, the keys are the old keys plus its switched-on names, and each value is the old value (0 when new) plus that name's switched-on power |
| UsageHistory.CommunityApplianceMap | usage-history.js:261-275 | the keys are exactly the names of switched-on appliances in any house; each value is the community's switched-on power under that name |
| UsageHistory.CommunityPowerAbsent | usage-history.js:261-275 | a name no switched-on appliance carries has power 0 |
| UsageHistory.HouseApplianceSlices | usage-history.js:128-138 | one slice per switched-on appliance; slice k carries the name and power of the k-th switched-on appliance, in the house's order |
| UsageHistory.CommunityAverage | usage-history.js:152-153 | none for an empty list; otherwise average × number of houses = the total daily consumption |
| UsageHistory.AverageBetween | usage-history.js:152-153 | the average lies between the smallest and the largest daily consumption |
| UsageHistory.HouseSeries | usage-history.js:71-92 | labels and data have the selected list's length; entry k carries the k-th consumption and stamp |
| Charts.GetColorArray | charts.js:239-246 | `slice(0, count)`: a prefix of the 12-colour palette of length min(count, 12) for count ≥ 0, with a negative count counted back from the end |
| Charts.ColorArrayPrefix | charts.js:239-246 | a larger count never gets fewer colours, and shares the same leading colours |
| Charts.ChartManager.CreateChart | charts.js:20-27 | with no canvas nothing changes and nothing is returned; otherwise the new chart replaces any under the same id and is returned |
| Charts.ChartManager.UpdateChart | charts.js:214-220 | a live chart gets the new labels and data; an unknown id is ignored |
| Charts.ChartManager.DestroyChart | charts.js:222-228 | the registry loses exactly that id |
| Charts.DestroyRemovesOnlyId | charts.js:222-228 | after destroy the id is gone, every other entry is as before, and a second destroy changes nothing |
| Charts.CreateThenDestroy | charts.js:20-27 | create then destroy under one id leaves the registry as destroy alone would |
| Charts.Slide | charts.js:279-286 | the new window is the most recent suffix of the old window plus the point; it loses at most the oldest entry, and grows by one exactly when it stays within the limit |
| Charts.SlideProperties | charts.js:279-286 | the new point is last; a window within the limit stays within it; nothing is dropped before the limit is passed; past it the window is the old tail plus the point |
| Charts.SlideKeepsPairing | charts.js:280-286 | labels and data of equal length slide to equal lengths |
| Charts.RealTimeChart.AddDataPoint | charts.js:279-289 | the labels slide; while labels and data are paired the data slides the same way and they stay paired |

## Left out

- Rendering, DOM and notifications: HTML, alerts, toasts, Chart.js drawing and colour choices are not modelled. So are dashboard.js, ev-management.js, digital-twin.js and app.js.
- Persistence: `localStorage` saves are no-ops. A load is an arbitrary state; the `TradingPool` and `EnergyDataManager` constructors take it as given.
  - The saved-offers branch of initializeTradingOffers is not modelled.
  - Neither is the JSON parse-error branch of initializeData, nor its test for Thai characters.
- Timers: `setInterval`/`setTimeout` are not modelled. The replacement after a full fill (electricity-trading.js:642-645, 713-716) is the separate operation `AddNewRandomSellOffer` / `AddNewRandomBuyRequest`.
- Randomness, time and prices come in as parameters:
  - every `Math.random()` draw;
  - the hour from `new Date()`;
  - the two buy and sell prices (`getBuyPriceFromSeller`, `getSellPriceToBuyer`, `recordTransaction` and `transactions` are not part of this model).
- `recordTransaction` is modelled as appending to the log. The timestamp and display names are left out.
- `buyFromSeller` / `sellToBuyer` are not modelled. They are legacy paths that record trades without any check, so with them the reserve invariant would not hold.
- Not modelled: `updateTradingAnalytics`, `getDistributedSolarPower`, `getSolarSavingsPercentage`, and the data generators of data.js.
- Not modelled in startRealTimeUpdates: the consumption, appliance and solar fluctuations. Only the EV charging tick is modelled, without its `estimatedTimeToFull` text.
- Number formatting (`toFixed`, `toLocaleString`) and date-formatted labels: the model keeps real values and the stored stamps. The `toFixed` strings that capacity, cost and backup hours become are left out.
- `parseFloat(input) || 0`: the typed amount arrives as a real, so a non-numeric entry is just the amount 0.
- Object key order: the community appliance map is a Dafny `map`, so the insertion order of `Object.keys` is not modelled.
- The central offer's fixed id 9999: uniqueness of ids is proved only for counter-issued ids.
- Trading.AcceptOffer: treats `tradingData.centralSolar` as always present; when it is absent the JS skips the battery debit. (SolarStats.UpdateSolarStats does model its absence, as the early return.)
- SolarStats.UpdateSolarStats: the call to `initializeTradingData` before the plant check is not modelled; its outcome is the `plantPresent` input. The two early returns, for missing shared data and for a missing plant record, are both that one input.
- Trading.NewSellOffer: requires a non-empty house list when a house is picked, because `houses[0]` of an empty list is `undefined` and the JS throws.
- Trading.NewBuyRequest: requires a non-empty house list for the same reason.
- SolarControl.HandleAllocationChangeWithLock: requires the house to exist, because the JS reads `house.solarAllocation` without a check and throws on an unknown id.
- SolarControl.ResetAllocation: the "every allocation becomes 0" conclusion needs unique house ids; with a duplicate id only the first such house is ever updated.
- UsageHistory.SeriesLength: the monthly view requires a non-empty house list, because the JS reads `houses[0]` and throws without one.
- UsageHistory.CommunityAverage: for an empty list the JS computes 0/0 (NaN). This is modelled as None.
- EnergyData.GetLoadSheddingRecommendations: a zero denominator in `extendedTime` is modelled as None. In JS it is Infinity or NaN formatted as text.
- Charts.RealTimeChart.AddDataPoint: the JS shifts the data whenever the labels pass the limit, so its data-window contract is stated only for paired arrays.
- The production jitter of the stats panel (0.9 + 0.2u) and the chart's jitter (0.9 + 0.1u) differ in the source. Each is modelled as written.
