/**
 * The data behind the usage-history page (usage-history.js): the
 * community series summed across houses position by position, the
 * community appliance breakdown grouped by appliance name, the community
 * daily average, and one house's series and appliance slices.  Chart
 * labels built from dates are represented by the stored stamps.
 */
module UsageHistory {
  import opened Common
  import opened EnergyData

  datatype Period = Hourly | Daily | Monthly

  /** The history list a period selects. */
  function PeriodPoints(h: House, period: Period): seq<Point>
  {
    match period
    case Hourly => h.history.hourly
    case Daily => h.history.daily
    case Monthly => h.history.monthly
  }

  /** `list[index]?.consumption || 0`: a missing entry counts as nothing. */
  function EntryOrZero(points: seq<Point>, index: int): real
  {
    if 0 <= index < |points| then points[index].consumption else 0.0
  }

  /** The community reading at one position: the houses' entries summed, in house order. */
  function CommunityEntry(houses: seq<House>, period: Period, index: int): real
  {
    if houses == [] then 0.0
    else CommunityEntry(houses[..|houses| - 1], period, index)
         + EntryOrZero(PeriodPoints(houses[|houses| - 1], period), index)
  }

  /** A house that has no entry at a position adds nothing there. */
  lemma {:induction false} CommunityEntryMissing(houses: seq<House>, period: Period, index: int, h: House)
    requires !(0 <= index < |PeriodPoints(h, period)|)
    ensures CommunityEntry(houses + [h], period, index) == CommunityEntry(houses, period, index)
  {
    assert (houses + [h])[..|houses|] == houses;
  }

  /** Past every house's history the community reading is 0. */
  lemma {:induction false} CommunityEntryBeyondHistory(houses: seq<House>, period: Period, index: int)
    requires forall k :: 0 <= k < |houses| ==> !(0 <= index < |PeriodPoints(houses[k], period)|)
    ensures CommunityEntry(houses, period, index) == 0.0
  {
    if houses != [] {
      CommunityEntryBeyondHistory(houses[..|houses| - 1], period, index);
    }
  }

  /** A community reading of houses that never report negative consumption is not negative. */
  lemma {:induction false} CommunityEntryNonNegative(houses: seq<House>, period: Period, index: int)
    requires forall k, j :: 0 <= k < |houses| && 0 <= j < |PeriodPoints(houses[k], period)| ==>
               PeriodPoints(houses[k], period)[j].consumption >= 0.0
    ensures CommunityEntry(houses, period, index) >= 0.0
  {
    if houses != [] {
      CommunityEntryNonNegative(houses[..|houses| - 1], period, index);
    }
  }

  /**
   * How many positions the community chart shows: 24 hours, 30 days, or
   * the months of the first house.  The page reads the first house for
   * the monthly view, so that view needs one.
   */
  function SeriesLength(houses: seq<House>, period: Period): (n: nat)
    requires period == Monthly ==> |houses| > 0
    ensures period == Hourly ==> n == 24
    ensures period == Daily ==> n == 30
    ensures period == Monthly ==> n == |houses[0].history.monthly|
  {
    match period
    case Hourly => 24
    case Daily => 30
    case Monthly => |houses[0].history.monthly|
  }

  /** The data of updateCommunityHistoryChart: one community reading per position. */
  function CommunitySeries(houses: seq<House>, period: Period): (data: seq<real>)
    requires period == Monthly ==> |houses| > 0
    ensures |data| == SeriesLength(houses, period)
    ensures forall i :: 0 <= i < |data| ==> data[i] == CommunityEntry(houses, period, i)
  {
    seq(SeriesLength(houses, period), i => CommunityEntry(houses, period, i))
  }

  // ---------------------------------------------------------------------
  // Appliance breakdown
  // ---------------------------------------------------------------------

  /** The power of the switched-on appliances called `name`. */
  function OnPower(apps: seq<Appliance>, name: string): real
  {
    if apps == [] then 0.0
    else OnPower(apps[..|apps| - 1], name)
         + (if apps[|apps| - 1].isOn && apps[|apps| - 1].name == name then apps[|apps| - 1].power else 0.0)
  }

  /** The names of the switched-on appliances. */
  function OnNames(apps: seq<Appliance>): set<string>
  {
    set k | 0 <= k < |apps| && apps[k].isOn :: apps[k].name
  }

  /** The community's switched-on power under one name. */
  function CommunityPower(houses: seq<House>, name: string): real
  {
    if houses == [] then 0.0
    else CommunityPower(houses[..|houses| - 1], name) + OnPower(houses[|houses| - 1].appliances, name)
  }

  /** The community's switched-on appliance names. */
  function CommunityNames(houses: seq<House>): set<string>
  {
    set k, j | 0 <= k < |houses| && 0 <= j < |houses[k].appliances| && houses[k].appliances[j].isOn
      :: houses[k].appliances[j].name
  }

  /** Switched-off appliances add nothing: the power over the switched-on ones alone is the same. */
  lemma {:induction false} OffAppliancesIgnored(apps: seq<Appliance>, name: string)
    ensures OnPower(OnlyOn(apps), name) == OnPower(apps, name)
    ensures OnNames(OnlyOn(apps)) == OnNames(apps)
  {
    if apps != [] {
      var rest := apps[1..];
      OffAppliancesIgnored(rest, name);
      OnPowerCons(apps[0], rest, name);
      var head := if apps[0].isOn then [apps[0]] else [];
      assert OnlyOn(apps) == head + OnlyOn(rest);
      OnPowerConcat(head, OnlyOn(rest), name);
      assert apps == [apps[0]] + rest;
      OnNamesConcat([apps[0]], rest);
      OnNamesConcat(head, OnlyOn(rest));
    }
  }

  lemma {:induction false} OnPowerConcat(a: seq<Appliance>, b: seq<Appliance>, name: string)
    ensures OnPower(a + b, name) == OnPower(a, name) + OnPower(b, name)
  {
    if b == [] {
      assert a + b == a;
    } else {
      var n := |b| - 1;
      assert (a + b)[..|a + b| - 1] == a + b[..n];
      OnPowerConcat(a, b[..n], name);
    }
  }

  lemma OnPowerCons(x: Appliance, s: seq<Appliance>, name: string)
    ensures OnPower([x] + s, name) == (if x.isOn && x.name == name then x.power else 0.0) + OnPower(s, name)
  {
    OnPowerConcat([x], s, name);
    assert [x][..0] == [];
  }

  lemma OnNamesConcat(a: seq<Appliance>, b: seq<Appliance>)
    ensures OnNames(a + b) == OnNames(a) + OnNames(b)
  {
    var ab := a + b;
    forall n | n in OnNames(ab) ensures n in OnNames(a) + OnNames(b) {
      var k :| 0 <= k < |ab| && ab[k].isOn && ab[k].name == n;
      if k < |a| {
        assert a[k] == ab[k];
      } else {
        assert b[k - |a|] == ab[k];
      }
    }
    forall n | n in OnNames(a) + OnNames(b) ensures n in OnNames(ab) {
      if n in OnNames(a) {
        var k :| 0 <= k < |a| && a[k].isOn && a[k].name == n;
        assert ab[k] == a[k];
      } else {
        var k :| 0 <= k < |b| && b[k].isOn && b[k].name == n;
        assert ab[|a| + k] == b[k];
      }
    }
  }

  lemma CommunityNamesAppend(houses: seq<House>, h: House)
    ensures CommunityNames(houses + [h]) == CommunityNames(houses) + OnNames(h.appliances)
  {
    var hs := houses + [h];
    forall n | n in CommunityNames(hs) ensures n in CommunityNames(houses) + OnNames(h.appliances) {
      var k, j :| 0 <= k < |hs| && 0 <= j < |hs[k].appliances| && hs[k].appliances[j].isOn
                  && hs[k].appliances[j].name == n;
      if k < |houses| {
        assert hs[k] == houses[k];
      }
    }
    forall n | n in CommunityNames(houses) + OnNames(h.appliances) ensures n in CommunityNames(hs) {
      if n in CommunityNames(houses) {
        var k, j :| 0 <= k < |houses| && 0 <= j < |houses[k].appliances| && houses[k].appliances[j].isOn
                    && houses[k].appliances[j].name == n;
        assert hs[k] == houses[k];
      } else {
        var j :| 0 <= j < |h.appliances| && h.appliances[j].isOn && h.appliances[j].name == n;
        assert hs[|houses|] == h;
      }
    }
  }

  /** One appliance added to the running map, as the inner loop body does. */
  lemma AddApplianceStep(apps: seq<Appliance>, a: Appliance, name: string)
    ensures OnPower(apps + [a], name) == OnPower(apps, name) + (if a.isOn && a.name == name then a.power else 0.0)
    ensures OnNames(apps + [a]) == OnNames(apps) + (if a.isOn then {a.name} else {})
  {
    assert (apps + [a])[..|apps|] == apps;
    OnNamesConcat(apps, [a]);
    assert OnNames([a]) == (if a.isOn then {a.name} else {}) by {
      if a.isOn {
        assert [a][0] == a;
      }
    }
  }

  /**
   * One switched-on appliance added to a house's running map: if the map
   * was right for the appliances before it, it is right with it.
   */
  lemma HouseMapStep(base: map<string, real>, onApps: seq<Appliance>, j: nat,
                     before: map<string, real>, after: map<string, real>)
    requires j < |onApps| && onApps[j].isOn
    requires before.Keys == base.Keys + OnNames(onApps[..j])
    requires forall n :: n in before ==> before[n] == (if n in base then base[n] else 0.0) + OnPower(onApps[..j], n)
    requires after == before[onApps[j].name := (if onApps[j].name in before then before[onApps[j].name] else 0.0)
                                                 + onApps[j].power]
    ensures after.Keys == base.Keys + OnNames(onApps[..j + 1])
    ensures forall n :: n in after ==> after[n] == (if n in base then base[n] else 0.0) + OnPower(onApps[..j + 1], n)
  {
    var a := onApps[j];
    assert onApps[..j + 1] == onApps[..j] + [a];
    AddApplianceStep(onApps[..j], a, a.name);
    if a.name !in before {
      OnPowerAbsent(onApps[..j], a.name);
    }
    forall n | n in after
      ensures after[n] == (if n in base then base[n] else 0.0) + OnPower(onApps[..j + 1], n)
    {
      AddApplianceStep(onApps[..j], a, n);
    }
  }

  /**
   * The inner loop of updateCommunityApplianceChart: each switched-on
   * appliance of one house adds its power under its name, starting the
   * name at 0 when it is new.
   */
  method AddHouseAppliances(applianceMap: map<string, real>, onApps: seq<Appliance>)
    returns (updated: map<string, real>)
    requires forall k :: 0 <= k < |onApps| ==> onApps[k].isOn
    ensures updated.Keys == applianceMap.Keys + OnNames(onApps)
    ensures forall n :: n in updated ==>
              updated[n] == (if n in applianceMap then applianceMap[n] else 0.0) + OnPower(onApps, n)
  {
    updated := applianceMap;
    var j := 0;
    while j < |onApps|
      invariant 0 <= j <= |onApps|
      invariant updated.Keys == applianceMap.Keys + OnNames(onApps[..j])
      invariant forall n :: n in updated ==>
                  updated[n] == (if n in applianceMap then applianceMap[n] else 0.0) + OnPower(onApps[..j], n)
    {
      var appliance := onApps[j];
      ghost var before := updated;
      if appliance.name !in updated {
        updated := updated[appliance.name := 0.0];
      }
      updated := updated[appliance.name := updated[appliance.name] + appliance.power];
      HouseMapStep(applianceMap, onApps, j, before, updated);
      j := j + 1;
    }
    assert onApps[..j] == onApps;
  }

  /**
   * updateCommunityApplianceChart: for every house, every switched-on
   * appliance adds its power under its name.  The keys are exactly the
   * names of switched-on appliances anywhere, and each value is the
   * community's switched-on power under that name.
   */
  method CommunityApplianceMap(houses: seq<House>) returns (applianceMap: map<string, real>)
    ensures applianceMap.Keys == CommunityNames(houses)
    ensures forall n :: n in applianceMap ==> applianceMap[n] == CommunityPower(houses, n)
  {
    applianceMap := map[];
    var i := 0;
    while i < |houses|
      invariant 0 <= i <= |houses|
      invariant applianceMap.Keys == CommunityNames(houses[..i])
      invariant forall n :: n in applianceMap ==> applianceMap[n] == CommunityPower(houses[..i], n)
    {
      var house := houses[i];
      var onApps := OnlyOn(house.appliances);
      assert forall k :: 0 <= k < |onApps| ==> onApps[k] in onApps;
      ghost var before := applianceMap;
      applianceMap := AddHouseAppliances(applianceMap, onApps);
      CommunityMapStep(houses, i, before, applianceMap);
      i := i + 1;
    }
    assert houses[..i] == houses;
  }

  /**
   * One house added to the running community map: if the map was right for
   * the houses before it, it is right once the house's switched-on
   * appliances are added.
   */
  lemma CommunityMapStep(houses: seq<House>, i: nat, before: map<string, real>, after: map<string, real>)
    requires i < |houses|
    requires before.Keys == CommunityNames(houses[..i])
    requires forall n :: n in before ==> before[n] == CommunityPower(houses[..i], n)
    requires after.Keys == before.Keys + OnNames(OnlyOn(houses[i].appliances))
    requires forall n :: n in after ==>
               after[n] == (if n in before then before[n] else 0.0) + OnPower(OnlyOn(houses[i].appliances), n)
    ensures after.Keys == CommunityNames(houses[..i + 1])
    ensures forall n :: n in after ==> after[n] == CommunityPower(houses[..i + 1], n)
  {
    var house := houses[i];
    assert houses[..i + 1] == houses[..i] + [house];
    CommunityNamesAppend(houses[..i], house);
    OffAppliancesIgnored(house.appliances, "");
    forall n | n in after
      ensures after[n] == CommunityPower(houses[..i + 1], n)
    {
      var prior := if n in before then before[n] else 0.0;
      if n !in before {
        CommunityPowerAbsent(houses[..i], n);
      }
      CommunityMapEntry(houses, i, n, prior, after[n]);
    }
  }

  /** One name's entry: what the houses before held plus this house's switched-on power under that name. */
  lemma CommunityMapEntry(houses: seq<House>, i: nat, name: string, prior: real, value: real)
    requires i < |houses|
    requires prior == CommunityPower(houses[..i], name)
    requires value == prior + OnPower(OnlyOn(houses[i].appliances), name)
    ensures value == CommunityPower(houses[..i + 1], name)
  {
    CommunityPowerStep(houses, i, name);
    OffAppliancesIgnored(houses[i].appliances, name);
  }

  /** The community power over one more house. */
  lemma CommunityPowerStep(houses: seq<House>, i: nat, name: string)
    requires i < |houses|
    ensures CommunityPower(houses[..i + 1], name) == CommunityPower(houses[..i], name) + OnPower(houses[i].appliances, name)
  {
    assert houses[..i + 1][..i] == houses[..i];
  }

  /** A name no switched-on appliance carries has no power. */
  lemma {:induction false} CommunityPowerAbsent(houses: seq<House>, name: string)
    requires name !in CommunityNames(houses)
    ensures CommunityPower(houses, name) == 0.0
  {
    if houses != [] {
      var n := |houses| - 1;
      assert houses == houses[..n] + [houses[n]];
      CommunityNamesAppend(houses[..n], houses[n]);
      CommunityPowerAbsent(houses[..n], name);
      OnPowerAbsent(houses[n].appliances, name);
    }
  }

  lemma {:induction false} OnPowerAbsent(apps: seq<Appliance>, name: string)
    requires name !in OnNames(apps)
    ensures OnPower(apps, name) == 0.0
  {
    if apps != [] {
      var n := |apps| - 1;
      assert apps == apps[..n] + [apps[n]];
      AddApplianceStep(apps[..n], apps[n], name);
      OnPowerAbsent(apps[..n], name);
    }
  }

  /** updateApplianceChart for one house: the switched-on appliances, by name and power, in order. */
  datatype Slices = Slices(labels: seq<string>, data: seq<real>)

  function HouseApplianceSlices(h: House): (r: Slices)
    ensures |r.labels| == |r.data| == |OnlyOn(h.appliances)|
    ensures forall k :: 0 <= k < |r.data| ==>
              r.labels[k] == OnlyOn(h.appliances)[k].name && r.data[k] == OnlyOn(h.appliances)[k].power
    ensures forall k :: 0 <= k < |r.data| ==>
              exists a :: a in h.appliances && a.isOn && r.labels[k] == a.name && r.data[k] == a.power
  {
    var on := OnlyOn(h.appliances);
    var r := Slices(seq(|on|, k requires 0 <= k < |on| => on[k].name), seq(|on|, k requires 0 <= k < |on| => on[k].power));
    assert forall k :: 0 <= k < |on| ==> on[k] in on && r.labels[k] == on[k].name && r.data[k] == on[k].power;
    r
  }

  // ---------------------------------------------------------------------
  // Averages and one house's series
  // ---------------------------------------------------------------------

  /** The houses' daily consumption summed in order. */
  function TotalDaily(houses: seq<House>): real
  {
    if houses == [] then 0.0 else TotalDaily(houses[..|houses| - 1]) + houses[|houses| - 1].dailyConsumption
  }

  /**
   * The community average of updateComparisonAvgChart: the daily total over
   * the number of houses.  With no houses the page divides 0 by 0 and gets
   * no number, modelled as None.
   */
  function CommunityAverage(houses: seq<House>): (avg: Option<real>)
    ensures houses == [] <==> avg.None?
    ensures avg.Some? ==> avg.value * |houses| as real == TotalDaily(houses)
  {
    if houses == [] then None else Some(TotalDaily(houses) / |houses| as real)
  }

  /** The average lies between the smallest and the largest daily consumption. */
  lemma AverageBetween(houses: seq<House>, lo: real, hi: real)
    requires houses != []
    requires forall k :: 0 <= k < |houses| ==> lo <= houses[k].dailyConsumption <= hi
    ensures lo <= CommunityAverage(houses).value <= hi
  {
    TotalDailyBounds(houses, lo, hi);
  }

  lemma {:induction false} TotalDailyBounds(houses: seq<House>, lo: real, hi: real)
    requires forall k :: 0 <= k < |houses| ==> lo <= houses[k].dailyConsumption <= hi
    ensures lo * |houses| as real <= TotalDaily(houses) <= hi * |houses| as real
  {
    if houses != [] {
      TotalDailyBounds(houses[..|houses| - 1], lo, hi);
    }
  }

  /**
   * updateHistoryChart: the chosen period's list, mapped entry by entry to
   * its stamp (the label) and its consumption (the data).
   */
  function HouseSeries(h: House, period: Period): (r: Slices)
    ensures |r.labels| == |r.data| == |PeriodPoints(h, period)|
    ensures forall k :: 0 <= k < |r.data| ==>
              r.data[k] == PeriodPoints(h, period)[k].consumption && r.labels[k] == PeriodPoints(h, period)[k].stamp
  {
    var points := PeriodPoints(h, period);
    Slices(seq(|points|, k requires 0 <= k < |points| => points[k].stamp),
           seq(|points|, k requires 0 <= k < |points| => points[k].consumption))
  }
}
