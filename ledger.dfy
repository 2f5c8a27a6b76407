/**
 * The pool's transaction log and what the trading pages read off it: the
 * energy reserve (bought minus sold) and the profit-and-loss summary.  The
 * log is append-only; the totals are defined over it recursively from the
 * end, so that appending one transaction is one unfolding.
 */
module Ledger {
  import opened Common

  datatype Kind = Buy | Sell

  /** Time-of-use or fixed tariff. */
  datatype Mode = Tou | Fixed

  /** Who is on either side of a trade; the pool itself is "middleman". */
  datatype Party = HouseParty(houseId: int) | CompanyParty(name: string) | CentralSolarParty | Pool

  /**
   * One recorded trade.  `total` is the transaction's `totalCost` for a buy
   * and its `totalRevenue` for a sale.
   */
  datatype Transaction = Transaction(
    kind: Kind, seller: Party, buyer: Party, kWh: real, price: real, total: real, mode: Mode)

  /** Energy bought by the pool. */
  function BoughtKWh(log: seq<Transaction>): real
  {
    if log == [] then 0.0
    else BoughtKWh(log[..|log| - 1]) + (if log[|log| - 1].kind == Buy then log[|log| - 1].kWh else 0.0)
  }

  /** Energy sold by the pool. */
  function SoldKWh(log: seq<Transaction>): real
  {
    if log == [] then 0.0
    else SoldKWh(log[..|log| - 1]) + (if log[|log| - 1].kind == Sell then log[|log| - 1].kWh else 0.0)
  }

  /** The pool's energy reserve: what it bought minus what it sold. */
  function Reserve(log: seq<Transaction>): real
  {
    BoughtKWh(log) - SoldKWh(log)
  }

  /** Appending a trade moves the reserve by exactly its energy, up for a buy and down for a sale. */
  lemma ReserveAppend(log: seq<Transaction>, t: Transaction)
    ensures BoughtKWh(log + [t]) == BoughtKWh(log) + (if t.kind == Buy then t.kWh else 0.0)
    ensures SoldKWh(log + [t]) == SoldKWh(log) + (if t.kind == Sell then t.kWh else 0.0)
    ensures Reserve(log + [t]) == Reserve(log) + (if t.kind == Buy then t.kWh else -t.kWh)
  {
    assert (log + [t])[..|log|] == log;
  }

  /**
   * A log the pool can produce: every trade moves a positive amount, and no
   * sale exceeds the reserve held just before it.
   */
  ghost predicate Admissible(log: seq<Transaction>)
  {
    forall k :: 0 <= k < |log| ==>
      log[k].kWh > 0.0 && (log[k].kind == Sell ==> log[k].kWh <= Reserve(log[..k]))
  }

  /** The reserve of an admissible log is never negative, at any point of its history. */
  lemma {:induction false} AdmissibleReserveNonNegative(log: seq<Transaction>)
    requires Admissible(log)
    ensures Reserve(log) >= 0.0
    ensures forall k :: 0 <= k <= |log| ==> Reserve(log[..k]) >= 0.0
  {
    if log != [] {
      var n := |log| - 1;
      var prefix := log[..n];
      assert Admissible(prefix) by {
        forall k | 0 <= k < |prefix|
          ensures prefix[k].kWh > 0.0 && (prefix[k].kind == Sell ==> prefix[k].kWh <= Reserve(prefix[..k]))
        {
          assert prefix[k] == log[k] && prefix[..k] == log[..k];
        }
      }
      AdmissibleReserveNonNegative(prefix);
      assert log == prefix + [log[n]];
      ReserveAppend(prefix, log[n]);
      forall k | 0 <= k <= |log| ensures Reserve(log[..k]) >= 0.0 {
        if k <= n {
          assert log[..k] == prefix[..k];
        } else {
          assert log[..k] == log;
        }
      }
    }
  }

  /** Appending a trade that respects the reserve keeps the log admissible. */
  lemma AdmissibleAppend(log: seq<Transaction>, t: Transaction)
    requires Admissible(log)
    requires t.kWh > 0.0 && (t.kind == Sell ==> t.kWh <= Reserve(log))
    ensures Admissible(log + [t])
  {
    var l := log + [t];
    forall k | 0 <= k < |l|
      ensures l[k].kWh > 0.0 && (l[k].kind == Sell ==> l[k].kWh <= Reserve(l[..k]))
    {
      if k < |log| {
        assert l[k] == log[k] && l[..k] == log[..k];
      } else {
        assert l[..k] == log;
      }
    }
  }

  /** `tx.totalCost || (tx.kWh * tx.price)`: a zero total falls back to energy times price. */
  function AmountOf(t: Transaction): (a: real)
    ensures t.total != 0.0 ==> a == t.total
    ensures a == t.total || a == t.kWh * t.price
    ensures t.total == t.kWh * t.price ==> a == t.total
  {
    if t.total != 0.0 then t.total else t.kWh * t.price
  }

  /** What the pool paid for its purchases. */
  function BuyCost(log: seq<Transaction>): real
  {
    if log == [] then 0.0
    else BuyCost(log[..|log| - 1]) + (if log[|log| - 1].kind == Buy then AmountOf(log[|log| - 1]) else 0.0)
  }

  /** What the pool earned from its sales. */
  function SellRevenue(log: seq<Transaction>): real
  {
    if log == [] then 0.0
    else SellRevenue(log[..|log| - 1]) + (if log[|log| - 1].kind == Sell then AmountOf(log[|log| - 1]) else 0.0)
  }

  /** Appending a trade adds its amount to the cost or the revenue side. */
  lemma MoneyAppend(log: seq<Transaction>, t: Transaction)
    ensures BuyCost(log + [t]) == BuyCost(log) + (if t.kind == Buy then AmountOf(t) else 0.0)
    ensures SellRevenue(log + [t]) == SellRevenue(log) + (if t.kind == Sell then AmountOf(t) else 0.0)
  {
    assert (log + [t])[..|log|] == log;
  }

  /**
   * updateReserveEnergyDisplay: one pass over the log, adding buys and
   * subtracting sales.
   */
  method ComputeReserve(log: seq<Transaction>) returns (energyReserve: real)
    ensures energyReserve == Reserve(log)
  {
    var totalBought := 0.0;
    var totalSold := 0.0;
    var i := 0;
    while i < |log|
      invariant 0 <= i <= |log|
      invariant totalBought == BoughtKWh(log[..i]) && totalSold == SoldKWh(log[..i])
    {
      var tx := log[i];
      assert log[..i + 1] == log[..i] + [tx];
      ReserveAppend(log[..i], tx);
      if tx.kind == Buy {
        totalBought := totalBought + tx.kWh;
      } else if tx.kind == Sell {
        totalSold := totalSold + tx.kWh;
      }
      i := i + 1;
    }
    assert log[..i] == log;
    energyReserve := totalBought - totalSold;
  }

  datatype ProfitLoss = ProfitLoss(
    buyVolume: real, buyCost: real, sellVolume: real, sellRevenue: real,
    netProfit: real, energyHolding: real, marginPercent: real)

  /**
   * updateProfitAnalysis: volumes and money on each side, the net profit,
   * the energy still held (which is the reserve) and the margin on revenue.
   */
  method ProfitAnalysis(log: seq<Transaction>) returns (pl: ProfitLoss)
    ensures pl.buyVolume == BoughtKWh(log) && pl.sellVolume == SoldKWh(log)
    ensures pl.buyCost == BuyCost(log) && pl.sellRevenue == SellRevenue(log)
    ensures pl.netProfit == pl.sellRevenue - pl.buyCost
    ensures pl.energyHolding == Reserve(log)
    ensures pl.sellRevenue > 0.0 ==> pl.marginPercent * pl.sellRevenue == pl.netProfit * 100.0
    ensures pl.sellRevenue <= 0.0 ==> pl.marginPercent == 0.0
    ensures pl.sellRevenue > 0.0 && pl.buyCost >= 0.0 ==> pl.marginPercent <= 100.0
  {
    var totalBuyVolume := 0.0;
    var totalBuyCost := 0.0;
    var totalSellVolume := 0.0;
    var totalSellRevenue := 0.0;
    var i := 0;
    while i < |log|
      invariant 0 <= i <= |log|
      invariant totalBuyVolume == BoughtKWh(log[..i]) && totalSellVolume == SoldKWh(log[..i])
      invariant totalBuyCost == BuyCost(log[..i]) && totalSellRevenue == SellRevenue(log[..i])
    {
      var tx := log[i];
      assert log[..i + 1] == log[..i] + [tx];
      ReserveAppend(log[..i], tx);
      MoneyAppend(log[..i], tx);
      if tx.kind == Buy {
        totalBuyVolume := totalBuyVolume + tx.kWh;
        totalBuyCost := totalBuyCost + (if tx.total != 0.0 then tx.total else tx.kWh * tx.price);
      } else if tx.kind == Sell {
        totalSellVolume := totalSellVolume + tx.kWh;
        totalSellRevenue := totalSellRevenue + (if tx.total != 0.0 then tx.total else tx.kWh * tx.price);
      }
      i := i + 1;
    }
    assert log[..i] == log;
    var netProfit := totalSellRevenue - totalBuyCost;
    var energyHolding := totalBuyVolume - totalSellVolume;
    var marginPercent := if totalSellRevenue > 0.0 then (netProfit / totalSellRevenue) * 100.0 else 0.0;
    if totalSellRevenue > 0.0 && totalBuyCost >= 0.0 {
      MarginBound(netProfit, totalSellRevenue, totalBuyCost);
    }
    pl := ProfitLoss(totalBuyVolume, totalBuyCost, totalSellVolume, totalSellRevenue,
                     netProfit, energyHolding, marginPercent);
  }

  /** Revenue minus a non-negative cost is at most the whole revenue, so the margin is at most 100%. */
  lemma MarginBound(net: real, revenue: real, cost: real)
    requires revenue > 0.0 && cost >= 0.0 && net == revenue - cost
    ensures (net / revenue) * 100.0 <= 100.0
    ensures ((net / revenue) * 100.0) * revenue == net * 100.0
  {
    assert net / revenue <= 1.0;
  }
}
