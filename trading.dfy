/**
 * The Gearlaxy pool's trading engine (electricity-trading.js).  The pool
 * acts as middleman: it buys energy from sell offers (houses with surplus,
 * outside companies and the central solar plant) and sells it to the buy
 * requests of houses, never selling more than the reserve it holds.  The
 * engine's state is the two listing sequences, the id counter and the
 * append-only transaction log; buying from the central plant also debits
 * the plant's battery.
 *
 * Each operation is first a function on a snapshot of that state (a
 * `Market`), where its contract and the invariant it keeps are proved, and
 * then a method of `TradingPool` that performs it in place and is proved to
 * agree with the function.
 */
module Trading {
  import opened Common
  import opened Ledger
  import CentralSolar
  import EnergyData

  /** The fixed id given to the central plant's offer.  Counter ids can reach it too. */
  const CentralOfferId: int := 9999
  /** The random market adds to a list only below this length ... */
  const MaxListings: int := 15
  /** ... and removes from it only above this one. */
  const MinListings: int := 3

  /** Who posted a sell offer; a house's offer shows its panel count. */
  datatype Seller = HouseSeller(houseId: int, panels: int) | CompanySeller(name: string) | CentralSolarSeller

  /** A house that wants to buy, and the tariff it chose. */
  datatype Buyer = Buyer(houseId: int, priceMode: Mode)

  /** An entry of either list: a sell offer (P = Seller) or a buy request (P = Buyer). */
  datatype Listing<P> = Listing(id: int, party: P, amount: real)

  type Offer = Listing<Seller>
  type Request = Listing<Buyer>

  /** The side of a transaction that posted the offer. */
  function SellerParty(s: Seller): (p: Party)
    ensures p.CentralSolarParty? <==> s.CentralSolarSeller?
    ensures s.HouseSeller? ==> p == HouseParty(s.houseId)
    ensures s.CompanySeller? ==> p == CompanyParty(s.name)
  {
    match s
    case HouseSeller(id, _) => HouseParty(id)
    case CompanySeller(name) => CompanyParty(name)
    case CentralSolarSeller => CentralSolarParty
  }

  /** `getBuyPriceFromSeller` / `getSellPriceToBuyer` are not defined here: their two values are inputs. */
  datatype Prices = Prices(tou: real, fixed: real)

  function PriceFor(p: Prices, mode: Mode): real
  {
    match mode
    case Tou => p.tou
    case Fixed => p.fixed
  }

  // ---------------------------------------------------------------------
  // Listings
  // ---------------------------------------------------------------------

  /** `list.findIndex(l => l.id === id)` */
  function IndexOfId<P>(list: seq<Listing<P>>, id: int): int
  {
    FirstIndex(list, (l: Listing<P>) => l.id == id)
  }

  /** Energy still on offer (or still wanted) over a list. */
  function TotalAmount<P>(list: seq<Listing<P>>): real
  {
    if list == [] then 0.0 else list[0].amount + TotalAmount(list[1..])
  }

  lemma {:induction false} TotalAmountUpdate<P>(list: seq<Listing<P>>, i: nat, x: Listing<P>)
    requires i < |list|
    ensures TotalAmount(list[i := x]) == TotalAmount(list) - list[i].amount + x.amount
  {
    if i == 0 {
      assert list[i := x][1..] == list[1..];
    } else {
      assert list[i := x][1..] == list[1..][i - 1 := x];
      TotalAmountUpdate(list[1..], i - 1, x);
    }
  }

  lemma {:induction false} TotalAmountRemove<P>(list: seq<Listing<P>>, i: nat)
    requires i < |list|
    ensures TotalAmount(list[..i] + list[i + 1..]) == TotalAmount(list) - list[i].amount
  {
    if i == 0 {
      assert list[..i] + list[i + 1..] == list[1..];
    } else {
      var r := list[..i] + list[i + 1..];
      assert r[0] == list[0];
      assert r[1..] == list[1..][..i - 1] + list[1..][i..];
      TotalAmountRemove(list[1..], i - 1);
    }
  }

  /** Removing entry i keeps the others, in order: `list.splice(i, 1)`. */
  function RemoveAt<P>(list: seq<Listing<P>>, i: nat): (r: seq<Listing<P>>)
    requires i < |list|
    ensures |r| == |list| - 1
    ensures forall k :: 0 <= k < i ==> r[k] == list[k]
    ensures forall k :: i <= k < |r| ==> r[k] == list[k + 1]
    ensures TotalAmount(r) == TotalAmount(list) - list[i].amount
  {
    TotalAmountRemove(list, i);
    list[..i] + list[i + 1..]
  }

  /**
   * Taking kWh from entry i: a request for all that is left removes the
   * entry, a smaller one lowers its amount by exactly kWh.  Either way the
   * list's total drops by the energy taken and nothing else moves.
   */
  function Fill<P>(list: seq<Listing<P>>, i: nat, kWh: real): (r: seq<Listing<P>>)
    requires i < |list|
    ensures kWh >= list[i].amount ==> r == RemoveAt(list, i)
    ensures kWh < list[i].amount ==>
              && |r| == |list|
              && r[i] == list[i].(amount := list[i].amount - kWh)
              && forall k :: 0 <= k < |list| && k != i ==> r[k] == list[k]
    ensures TotalAmount(r) == TotalAmount(list) - (if kWh >= list[i].amount then list[i].amount else kWh)
  {
    if kWh >= list[i].amount then RemoveAt(list, i)
    else
      TotalAmountUpdate(list, i, list[i].(amount := list[i].amount - kWh));
      list[i := list[i].(amount := list[i].amount - kWh)]
  }

  // ---------------------------------------------------------------------
  // The engine's state and its invariant
  // ---------------------------------------------------------------------

  /** The engine's state, with the two plant fields the engine writes. */
  datatype Market = Market(
    sellOffers: seq<Offer>,
    buyRequests: seq<Request>,
    offerIdCounter: int,
    transactions: seq<Transaction>,
    batteryLevel: real,
    totalSold: real)

  predicate IsCentral(o: Offer)
  {
    o.party.CentralSolarSeller?
  }

  /** No two entries are the central plant's. */
  ghost predicate AtMostOneCentral(offers: seq<Offer>)
  {
    forall j, k :: 0 <= j < k < |offers| ==> !(IsCentral(offers[j]) && IsCentral(offers[k]))
  }

  /**
   * The sell offers: no negative amount; the central offer (at most one) has
   * the fixed id; every other offer has a counter id, below the counter and
   * increasing along the list, hence unique.
   */
  ghost predicate ValidOffers(offers: seq<Offer>, counter: int)
  {
    && (forall k :: 0 <= k < |offers| ==> offers[k].amount >= 0.0)
    && (forall k :: 0 <= k < |offers| && IsCentral(offers[k]) ==> offers[k].id == CentralOfferId)
    && (forall k :: 0 <= k < |offers| && !IsCentral(offers[k]) ==> 1 <= offers[k].id < counter)
    && (forall j, k :: 0 <= j < k < |offers| && !IsCentral(offers[j]) && !IsCentral(offers[k]) ==>
          offers[j].id < offers[k].id)
    && AtMostOneCentral(offers)
  }

  /** The buy requests: no negative amount, counter ids below the counter, increasing along the list. */
  ghost predicate ValidRequests(requests: seq<Request>, counter: int)
  {
    && (forall k :: 0 <= k < |requests| ==> requests[k].amount >= 0.0)
    && (forall k :: 0 <= k < |requests| ==> 1 <= requests[k].id < counter)
    && (forall j, k :: 0 <= j < k < |requests| ==> requests[j].id < requests[k].id)
  }

  /** The invariant of the engine; `Admissible` makes the reserve non-negative. */
  ghost predicate Valid(m: Market)
  {
    && m.offerIdCounter >= 1
    && ValidOffers(m.sellOffers, m.offerIdCounter)
    && ValidRequests(m.buyRequests, m.offerIdCounter)
    && Admissible(m.transactions)
  }

  /** The invariant gives what the sell page checks: the reserve is never negative. */
  lemma ValidReserve(m: Market)
    requires Valid(m)
    ensures Reserve(m.transactions) >= 0.0
  {
    AdmissibleReserveNonNegative(m.transactions);
  }

  lemma ValidOffersRemove(offers: seq<Offer>, counter: int, i: nat)
    requires ValidOffers(offers, counter) && i < |offers|
    ensures ValidOffers(RemoveAt(offers, i), counter)
  {
  }

  lemma ValidRequestsRemove(requests: seq<Request>, counter: int, i: nat)
    requires ValidRequests(requests, counter) && i < |requests|
    ensures ValidRequests(RemoveAt(requests, i), counter)
  {
  }

  lemma ValidOffersShrink(offers: seq<Offer>, counter: int, i: nat, amount: real)
    requires ValidOffers(offers, counter) && i < |offers| && amount >= 0.0
    ensures ValidOffers(offers[i := offers[i].(amount := amount)], counter)
  {
    var r := offers[i := offers[i].(amount := amount)];
    assert forall k :: 0 <= k < |r| ==> IsCentral(r[k]) == IsCentral(offers[k]) && r[k].id == offers[k].id;
  }

  lemma ValidRequestsShrink(requests: seq<Request>, counter: int, i: nat, amount: real)
    requires ValidRequests(requests, counter) && i < |requests| && amount >= 0.0
    ensures ValidRequests(requests[i := requests[i].(amount := amount)], counter)
  {
    var r := requests[i := requests[i].(amount := amount)];
    assert forall k :: 0 <= k < |r| ==> r[k].id == requests[k].id;
  }

  /** Taking energy from an offer keeps the sell offers' invariant. */
  lemma ValidOffersFill(offers: seq<Offer>, counter: int, i: nat, kWh: real)
    requires ValidOffers(offers, counter) && i < |offers| && 0.0 < kWh <= offers[i].amount
    ensures ValidOffers(Fill(offers, i, kWh), counter)
  {
    if kWh >= offers[i].amount {
      ValidOffersRemove(offers, counter, i);
    } else {
      ValidOffersShrink(offers, counter, i, offers[i].amount - kWh);
    }
  }

  /** Taking energy from a request keeps the buy requests' invariant. */
  lemma ValidRequestsFill(requests: seq<Request>, counter: int, i: nat, kWh: real)
    requires ValidRequests(requests, counter) && i < |requests| && 0.0 < kWh <= requests[i].amount
    ensures ValidRequests(Fill(requests, i, kWh), counter)
  {
    if kWh >= requests[i].amount {
      ValidRequestsRemove(requests, counter, i);
    } else {
      ValidRequestsShrink(requests, counter, i, requests[i].amount - kWh);
    }
  }

  // ---------------------------------------------------------------------
  // Accepting an offer or a request
  // ---------------------------------------------------------------------

  /** How an accept ended: done, or which check turned it away. */
  datatype Outcome = Done | UnknownListing | NonPositiveAmount | ExceedsListing | InsufficientReserve

  datatype Step = Step(market: Market, outcome: Outcome)

  /** The 'buy' record of a purchase from an offer, always at the fixed price. */
  function PurchaseRecord(offer: Offer, kWh: real, fixedPrice: real): (t: Transaction)
    ensures t.kind == Buy && t.seller == SellerParty(offer.party) && t.buyer == Pool
    ensures t.kWh == kWh && t.price == fixedPrice && t.total == kWh * fixedPrice && t.mode == Fixed
  {
    Transaction(Buy, SellerParty(offer.party), Pool, kWh, fixedPrice, kWh * fixedPrice, Fixed)
  }

  /**
   * buyFromOffer: the pool buys kWh from offer `offerId` at the fixed
   * buying price.  An unknown id, a non-positive amount or more than is on
   * offer changes nothing.  Otherwise one 'buy' transaction is logged, the
   * offer shrinks by kWh (or goes, when all of it is bought), and buying
   * from the central plant debits its battery and adds to what it sold.
   */
  function AcceptOffer(m: Market, offerId: int, kWh: real, fixedPrice: real): (r: Step)
    ensures var i := IndexOfId(m.sellOffers, offerId);
            && (r.outcome == UnknownListing <==> i == -1)
            && (r.outcome == NonPositiveAmount <==> i >= 0 && kWh <= 0.0)
            && (r.outcome == ExceedsListing <==> i >= 0 && kWh > 0.0 && kWh > m.sellOffers[i].amount)
            && (r.outcome == Done <==> i >= 0 && 0.0 < kWh <= m.sellOffers[i].amount)
    ensures r.outcome != Done ==> r.market == m
  {
    var i := IndexOfId(m.sellOffers, offerId);
    if i == -1 then Step(m, UnknownListing)
    else
      var offer := m.sellOffers[i];
      if kWh <= 0.0 then Step(m, NonPositiveAmount)
      else if kWh > offer.amount then Step(m, ExceedsListing)
      else
        var tx := PurchaseRecord(offer, kWh, fixedPrice);
        var m1 := m.(transactions := m.transactions + [tx], sellOffers := Fill(m.sellOffers, i, kWh));
        if IsCentral(offer) then
          Step(m1.(batteryLevel := CentralSolar.DebitedLevel(m.batteryLevel, kWh), totalSold := m.totalSold + kWh), Done)
        else Step(m1, Done)
  }

  /**
   * A purchase that goes through: one 'buy' record more, the offer filled,
   * the energy on offer down and the pool's reserve up by kWh, and the
   * plant's battery debited when the offer was the plant's.
   */
  lemma AcceptOfferDone(m: Market, offerId: int, kWh: real, fixedPrice: real)
    ensures var r := AcceptOffer(m, offerId, kWh, fixedPrice);
            r.outcome == Done ==>
              var i := IndexOfId(m.sellOffers, offerId);
              var offer := m.sellOffers[i];
              && r.market.transactions == m.transactions + [PurchaseRecord(offer, kWh, fixedPrice)]
              && r.market.sellOffers == Fill(m.sellOffers, i, kWh)
              && TotalAmount(r.market.sellOffers) == TotalAmount(m.sellOffers) - kWh
              && Reserve(r.market.transactions) == Reserve(m.transactions) + kWh
              && r.market.buyRequests == m.buyRequests
              && r.market.offerIdCounter == m.offerIdCounter
              && (IsCentral(offer) ==>
                    && r.market.batteryLevel == CentralSolar.DebitedLevel(m.batteryLevel, kWh)
                    && r.market.totalSold == m.totalSold + kWh)
              && (!IsCentral(offer) ==>
                    r.market.batteryLevel == m.batteryLevel && r.market.totalSold == m.totalSold)
  {
    var i := IndexOfId(m.sellOffers, offerId);
    if i >= 0 && 0.0 < kWh <= m.sellOffers[i].amount {
      ReserveAppend(m.transactions, PurchaseRecord(m.sellOffers[i], kWh, fixedPrice));
    }
  }

  lemma AcceptOfferKeepsValid(m: Market, offerId: int, kWh: real, fixedPrice: real)
    requires Valid(m)
    ensures Valid(AcceptOffer(m, offerId, kWh, fixedPrice).market)
  {
    var r := AcceptOffer(m, offerId, kWh, fixedPrice);
    if r.outcome == Done {
      AcceptOfferDone(m, offerId, kWh, fixedPrice);
      var i := IndexOfId(m.sellOffers, offerId);
      ValidOffersFill(m.sellOffers, m.offerIdCounter, i, kWh);
      AdmissibleAppend(m.transactions, r.market.transactions[|m.transactions|]);
    }
  }

  /** The 'sell' record of a sale to a request, at the price of the tariff the buyer chose. */
  function SaleRecord(request: Request, kWh: real, sellPrices: Prices): (t: Transaction)
    ensures t.kind == Sell && t.seller == Pool && t.buyer == HouseParty(request.party.houseId)
    ensures t.kWh == kWh && t.mode == request.party.priceMode
    ensures t.price == PriceFor(sellPrices, request.party.priceMode) && t.total == kWh * t.price
  {
    var mode := request.party.priceMode;
    var price := PriceFor(sellPrices, mode);
    Transaction(Sell, Pool, HouseParty(request.party.houseId), kWh, price, kWh * price, mode)
  }

  /**
   * sellToRequest: the pool sells kWh to request `requestId` at the selling
   * price of the tariff the buyer chose.  Besides the checks of
   * AcceptOffer it refuses to sell more than its reserve.  Otherwise one
   * 'sell' transaction is logged and the request shrinks by kWh or goes.
   */
  function AcceptRequest(m: Market, requestId: int, kWh: real, sellPrices: Prices): (r: Step)
    ensures var i := IndexOfId(m.buyRequests, requestId);
            && (r.outcome == UnknownListing <==> i == -1)
            && (r.outcome == NonPositiveAmount <==> i >= 0 && kWh <= 0.0)
            && (r.outcome == ExceedsListing <==> i >= 0 && kWh > 0.0 && kWh > m.buyRequests[i].amount)
            && (r.outcome == InsufficientReserve <==>
                  i >= 0 && 0.0 < kWh <= m.buyRequests[i].amount && kWh > Reserve(m.transactions))
            && (r.outcome == Done <==>
                  i >= 0 && 0.0 < kWh <= m.buyRequests[i].amount && kWh <= Reserve(m.transactions))
    ensures r.outcome != Done ==> r.market == m
  {
    var i := IndexOfId(m.buyRequests, requestId);
    if i == -1 then Step(m, UnknownListing)
    else
      var request := m.buyRequests[i];
      if kWh <= 0.0 then Step(m, NonPositiveAmount)
      else if kWh > request.amount then Step(m, ExceedsListing)
      else if kWh > Reserve(m.transactions) then Step(m, InsufficientReserve)
      else
        var tx := SaleRecord(request, kWh, sellPrices);
        Step(m.(transactions := m.transactions + [tx], buyRequests := Fill(m.buyRequests, i, kWh)), Done)
  }

  /**
   * A sale that goes through: one 'sell' record more, the request filled,
   * the energy asked for and the pool's reserve down by kWh, the reserve
   * still not negative, and nothing else changed.
   */
  lemma AcceptRequestDone(m: Market, requestId: int, kWh: real, sellPrices: Prices)
    ensures var r := AcceptRequest(m, requestId, kWh, sellPrices);
            r.outcome == Done ==>
              var i := IndexOfId(m.buyRequests, requestId);
              && r.market.transactions == m.transactions + [SaleRecord(m.buyRequests[i], kWh, sellPrices)]
              && r.market.buyRequests == Fill(m.buyRequests, i, kWh)
              && TotalAmount(r.market.buyRequests) == TotalAmount(m.buyRequests) - kWh
              && Reserve(r.market.transactions) == Reserve(m.transactions) - kWh
              && Reserve(r.market.transactions) >= 0.0
              && r.market == m.(transactions := r.market.transactions, buyRequests := r.market.buyRequests)
  {
    var i := IndexOfId(m.buyRequests, requestId);
    if i >= 0 && 0.0 < kWh <= m.buyRequests[i].amount && kWh <= Reserve(m.transactions) {
      ReserveAppend(m.transactions, SaleRecord(m.buyRequests[i], kWh, sellPrices));
    }
  }

  lemma AcceptRequestKeepsValid(m: Market, requestId: int, kWh: real, sellPrices: Prices)
    requires Valid(m)
    ensures Valid(AcceptRequest(m, requestId, kWh, sellPrices).market)
  {
    var r := AcceptRequest(m, requestId, kWh, sellPrices);
    if r.outcome == Done {
      AcceptRequestDone(m, requestId, kWh, sellPrices);
      var i := IndexOfId(m.buyRequests, requestId);
      ValidRequestsFill(m.buyRequests, m.offerIdCounter, i, kWh);
      AdmissibleAppend(m.transactions, r.market.transactions[|m.transactions|]);
    }
  }

  // ---------------------------------------------------------------------
  // The central plant's offer
  // ---------------------------------------------------------------------

  /** `sellOffers.findIndex(o => o.sellerId === 'central-solar-system')` */
  function CentralIndex(offers: seq<Offer>): int
  {
    FirstIndex(offers, IsCentral)
  }

  /** The offers of everybody but the central plant, in order. */
  function NonCentral(offers: seq<Offer>): seq<Offer>
  {
    if offers == [] then []
    else (if IsCentral(offers[0]) then [] else [offers[0]]) + NonCentral(offers[1..])
  }

  lemma {:induction false} NonCentralUpdate(offers: seq<Offer>, i: nat, x: Offer)
    requires i < |offers| && IsCentral(offers[i]) && IsCentral(x)
    ensures NonCentral(offers[i := x]) == NonCentral(offers)
  {
    if i == 0 {
      assert offers[i := x][1..] == offers[1..];
    } else {
      assert offers[i := x][1..] == offers[1..][i - 1 := x];
      NonCentralUpdate(offers[1..], i - 1, x);
    }
  }

  lemma {:induction false} NonCentralRemove(offers: seq<Offer>, i: nat)
    requires i < |offers| && IsCentral(offers[i])
    ensures NonCentral(RemoveAt(offers, i)) == NonCentral(offers)
  {
    var r := RemoveAt(offers, i);
    if i == 0 {
      assert r == offers[1..];
    } else {
      assert r[0] == offers[0];
      assert r[1..] == RemoveAt(offers[1..], i - 1);
      NonCentralRemove(offers[1..], i - 1);
    }
  }

  lemma NonCentralCons(c: Offer, offers: seq<Offer>)
    requires IsCentral(c)
    ensures NonCentral([c] + offers) == NonCentral(offers)
  {
    assert ([c] + offers)[1..] == offers;
  }

  /** With at most one central offer, taking away a central one leaves none. */
  lemma RemoveOnlyCentral(offers: seq<Offer>, i: nat)
    requires i < |offers| && IsCentral(offers[i])
    ensures AtMostOneCentral(offers) ==>
              forall k :: 0 <= k < |RemoveAt(offers, i)| ==> !IsCentral(RemoveAt(offers, i)[k])
  {
    var r := RemoveAt(offers, i);
    forall k | 0 <= k < |r| && AtMostOneCentral(offers) ensures !IsCentral(r[k]) {
      if k < i {
        assert r[k] == offers[k];
      } else {
        assert r[k] == offers[k + 1];
      }
    }
  }

  /** The part of updateCentralSolarOffer that the threshold test guards. */
  predicate CentralUnchanged(offers: seq<Offer>, available: real)
  {
    var i := CentralIndex(offers);
    i >= 0 && Abs(offers[i].amount - available) < 1.0
  }

  /** `sellOffers.unshift(centralOffer)` when the plant has no offer yet. */
  function PostCentral(offers: seq<Offer>, amount: real): (r: seq<Offer>)
    requires CentralIndex(offers) == -1
    ensures r == [Listing(CentralOfferId, CentralSolarSeller, amount)] + offers
    ensures CentralIndex(r) == 0
    ensures NonCentral(r) == NonCentral(offers)
    ensures AtMostOneCentral(r)
  {
    var c := Listing(CentralOfferId, CentralSolarSeller, amount);
    NonCentralCons(c, offers);
    var r := [c] + offers;
    assert forall k :: 1 <= k < |r| ==> r[k] == offers[k - 1];
    assert IsCentral(r[0]);
    r
  }

  /** `sellOffers[i].amount = amount` on the plant's own offer. */
  function RepriceCentral(offers: seq<Offer>, i: nat, amount: real): (r: seq<Offer>)
    requires i < |offers| && CentralIndex(offers) == i
    ensures r == offers[i := offers[i].(amount := amount)]
    ensures CentralIndex(r) == i && r[i].amount == amount
    ensures NonCentral(r) == NonCentral(offers)
    ensures AtMostOneCentral(offers) ==> AtMostOneCentral(r)
  {
    var x := offers[i].(amount := amount);
    NonCentralUpdate(offers, i, x);
    var r := offers[i := x];
    assert forall k :: 0 <= k < |r| && k != i ==> r[k] == offers[k];
    assert forall k :: 0 <= k < |r| ==> IsCentral(r[k]) == IsCentral(offers[k]);
    assert IsCentral(r[i]) && forall k :: 0 <= k < i ==> !IsCentral(r[k]);
    r
  }

  /** `sellOffers.splice(i, 1)` on the plant's own offer. */
  function WithdrawCentral(offers: seq<Offer>, i: nat): (r: seq<Offer>)
    requires i < |offers| && CentralIndex(offers) == i
    ensures r == RemoveAt(offers, i)
    ensures NonCentral(r) == NonCentral(offers)
    ensures AtMostOneCentral(offers) ==> CentralIndex(r) == -1 && AtMostOneCentral(r)
  {
    NonCentralRemove(offers, i);
    RemoveOnlyCentral(offers, i);
    RemoveAt(offers, i)
  }

  /**
   * updateCentralSolarOffer: within 1 kWh of the offer already posted
   * nothing changes.  Otherwise more than 5 kWh is posted, rounded, by
   * updating the plant's offer in place or by putting a new one in front
   * of the list; 5 kWh or less withdraws it.
   */
  function UpdateCentralOffer(offers: seq<Offer>, available: real): (r: seq<Offer>)
  {
    var i := CentralIndex(offers);
    if i >= 0 && Abs(offers[i].amount - available) < 1.0 then offers
    else if available > 5.0 then
      if i >= 0 then RepriceCentral(offers, i, RoundHalfUp(available) as real)
      else PostCentral(offers, RoundHalfUp(available) as real)
    else if i >= 0 then WithdrawCentral(offers, i)
    else offers
  }

  /**
   * What the update does to the list: nothing within the threshold, the
   * plant's offer re-priced in place, a new one put in front, or the
   * plant's offer taken out.
   */
  lemma UpdateCentralOfferShape(offers: seq<Offer>, available: real)
    ensures var r := UpdateCentralOffer(offers, available);
            var i := CentralIndex(offers);
            && (CentralUnchanged(offers, available) ==> r == offers)
            && (!CentralUnchanged(offers, available) && i >= 0 && available > 5.0 ==>
                  r == offers[i := offers[i].(amount := RoundHalfUp(available) as real)])
            && (i == -1 && available > 5.0 ==>
                  r == [Listing(CentralOfferId, CentralSolarSeller, RoundHalfUp(available) as real)] + offers)
            && (!CentralUnchanged(offers, available) && i >= 0 && available <= 5.0 ==> r == RemoveAt(offers, i))
            && (i == -1 && available <= 5.0 ==> r == offers)
  {
  }

  /**
   * The other sellers' offers are never touched, there is never a second
   * central offer, and outside the threshold the plant has an offer exactly
   * when it has more than 5 kWh to give, at the rounded amount.
   */
  lemma UpdateCentralOfferEffects(offers: seq<Offer>, available: real)
    ensures var r := UpdateCentralOffer(offers, available);
            && NonCentral(r) == NonCentral(offers)
            && (AtMostOneCentral(offers) ==> AtMostOneCentral(r))
            && (!CentralUnchanged(offers, available) && AtMostOneCentral(offers) ==>
                  && (CentralIndex(r) >= 0 <==> available > 5.0)
                  && (available > 5.0 ==> r[CentralIndex(r)].amount == RoundHalfUp(available) as real))
  {
    var i := CentralIndex(offers);
    if i >= 0 && Abs(offers[i].amount - available) < 1.0 {
    } else if available > 5.0 {
      if i >= 0 {
        var r := RepriceCentral(offers, i, RoundHalfUp(available) as real);
      } else {
        var r := PostCentral(offers, RoundHalfUp(available) as real);
      }
    } else if i >= 0 {
      var r := WithdrawCentral(offers, i);
    }
  }

  lemma RepriceKeepsValid(offers: seq<Offer>, counter: int, i: nat, amount: real)
    requires ValidOffers(offers, counter) && i < |offers| && CentralIndex(offers) == i && amount >= 0.0
    ensures ValidOffers(RepriceCentral(offers, i, amount), counter)
  {
    var r := RepriceCentral(offers, i, amount);
    assert forall k :: 0 <= k < |r| ==> IsCentral(r[k]) == IsCentral(offers[k]);
    assert forall k :: 0 <= k < |r| && k != i ==> r[k] == offers[k];
  }

  lemma PostKeepsValid(offers: seq<Offer>, counter: int, amount: real)
    requires ValidOffers(offers, counter) && CentralIndex(offers) == -1 && amount >= 0.0
    ensures ValidOffers(PostCentral(offers, amount), counter)
  {
    var r := PostCentral(offers, amount);
    assert forall k :: 1 <= k < |r| ==> r[k] == offers[k - 1];
  }

  lemma WithdrawKeepsValid(offers: seq<Offer>, counter: int, i: nat)
    requires ValidOffers(offers, counter) && i < |offers| && CentralIndex(offers) == i
    ensures ValidOffers(WithdrawCentral(offers, i), counter)
  {
    var r := WithdrawCentral(offers, i);
    assert forall k :: 0 <= k < i ==> r[k] == offers[k];
    assert forall k :: i <= k < |r| ==> r[k] == offers[k + 1];
  }

  /** The update keeps the sell offers' invariant. */
  lemma UpdateCentralKeepsValid(offers: seq<Offer>, counter: int, available: real)
    requires ValidOffers(offers, counter)
    ensures ValidOffers(UpdateCentralOffer(offers, available), counter)
  {
    var i := CentralIndex(offers);
    if i >= 0 && Abs(offers[i].amount - available) < 1.0 {
    } else if available > 5.0 {
      assert RoundHalfUp(available) >= 5;
      if i >= 0 {
        RepriceKeepsValid(offers, counter, i, RoundHalfUp(available) as real);
      } else {
        PostKeepsValid(offers, counter, RoundHalfUp(available) as real);
      }
    } else if i >= 0 {
      WithdrawKeepsValid(offers, counter, i);
    }
  }

  /** The update of the central offer keeps the whole engine's invariant. */
  lemma ValidAfterCentralUpdate(m: Market, available: real)
    ensures Valid(m) ==> Valid(m.(sellOffers := UpdateCentralOffer(m.sellOffers, available)))
  {
    if Valid(m) {
      UpdateCentralKeepsValid(m.sellOffers, m.offerIdCounter, available);
    }
  }

  /** Posting the plant's surplus twice in a row changes nothing the second time. */
  lemma UpdateCentralIdempotent(offers: seq<Offer>, available: real)
    requires AtMostOneCentral(offers)
    ensures UpdateCentralOffer(UpdateCentralOffer(offers, available), available) == UpdateCentralOffer(offers, available)
  {
    var r := UpdateCentralOffer(offers, available);
    UpdateCentralOfferEffects(offers, available);
    if !CentralUnchanged(offers, available) && available > 5.0 {
      assert CentralUnchanged(r, available);
    }
  }

  // ---------------------------------------------------------------------
  // New listings and the random market
  // ---------------------------------------------------------------------

  datatype Company = Company(name: string, amount: real)

  /** The outside sellers a new random offer may come from, with their base amounts. */
  const RandomCompanies: seq<Company> := [
    Company("SolarTech Co., Ltd.", 500.0), Company("GreenPower Corp.", 750.0),
    Company("EcoEnergy Thailand", 300.0), Company("Siam Solar", 450.0), Company("Clean Watts", 600.0)]

  /** The draws one new random sell offer consumes: seller kind, which seller, and the size. */
  datatype OfferDraw = OfferDraw(kind: real, pick: real, size: real)

  /** The draws one new random buy request consumes: which house, the tariff, and the size. */
  datatype RequestDraw = RequestDraw(pick: real, mode: real, size: real)

  predicate OfferDrawOk(d: OfferDraw)
  {
    InUnit(d.kind) && InUnit(d.pick) && InUnit(d.size)
  }

  predicate RequestDrawOk(d: RequestDraw)
  {
    InUnit(d.pick) && InUnit(d.mode) && InUnit(d.size)
  }

  /** `house.solarPanels || 5` */
  function PanelsShown(panels: int): (p: int)
    ensures p != 0
    ensures panels != 0 ==> p == panels
  {
    if panels != 0 then panels else 5
  }

  /**
   * addNewRandomSellOffer's new entry: with a kind draw above 0.4, one of the
   * five companies with 80% to 120% of its base amount; otherwise a house
   * of the list with 50 to 200 kWh.  Taking a house needs a non-empty list.
   */
  function NewSellOffer(houses: seq<EnergyData.House>, id: int, d: OfferDraw): (o: Offer)
    requires OfferDrawOk(d)
    requires d.kind > 0.4 || |houses| > 0
    ensures o.id == id && !IsCentral(o)
    ensures o.party.CompanySeller? <==> d.kind > 0.4
    ensures o.party.CompanySeller? ==>
              var c := RandomCompanies[PickIndex(d.pick, |RandomCompanies|)];
              o.party.name == c.name && c.amount * 0.8 <= o.amount <= c.amount * 1.2
    ensures o.party.HouseSeller? ==>
              && (exists j :: 0 <= j < |houses| && o.party.houseId == houses[j].id
                                                  && o.party.panels == PanelsShown(houses[j].solarPanels))
              && 50.0 <= o.amount <= 200.0
    ensures 50.0 <= o.amount <= 900.0
  {
    if d.kind > 0.4 then
      var c := RandomCompanies[PickIndex(d.pick, |RandomCompanies|)];
      var jitter := 0.8 + d.size * 0.4;
      ScaleUnit(c.amount, jitter, 0.8, 1.2);
      var amount := RoundHalfUp(c.amount * jitter);
      RoundWithin(c.amount * jitter, (c.amount * 0.8).Floor, (c.amount * 1.2).Floor);
      Listing(id, CompanySeller(c.name), amount as real)
    else
      var j := PickIndex(d.pick, |houses|);
      var house := houses[j];
      var amount := RoundHalfUp(50.0 + d.size * 150.0);
      RoundWithin(50.0 + d.size * 150.0, 50, 200);
      Listing(id, HouseSeller(house.id, PanelsShown(house.solarPanels)), amount as real)
  }

  /** A positive amount scaled by a factor within [lo, hi). */
  lemma ScaleUnit(a: real, f: real, lo: real, hi: real)
    requires a > 0.0 && lo <= f < hi
    ensures a * lo <= a * f < a * hi
  {
  }

  /** Rounding a value in [lo, hi) with integral lo and hi stays in [lo, hi]. */
  lemma RoundWithin(x: real, lo: int, hi: int)
    requires lo as real <= x < hi as real
    ensures lo <= RoundHalfUp(x) <= hi
  {
    var n := RoundHalfUp(x);
    assert lo as real - 0.5 < n as real < hi as real + 0.5;
  }

  /** `Math.random() > 0.5 ? 'tou' : 'fixed'` */
  function ModeOf(u: real): (m: Mode)
    ensures m == Tou <==> u > 0.5
  {
    if u > 0.5 then Tou else Fixed
  }

  /** addNewRandomBuyRequest's new entry: a house of the list wanting 100 to 300 kWh. */
  function NewBuyRequest(houses: seq<EnergyData.House>, id: int, d: RequestDraw): (q: Request)
    requires RequestDrawOk(d) && |houses| > 0
    ensures q.id == id
    ensures exists j :: 0 <= j < |houses| && q.party.houseId == houses[j].id
    ensures q.party.priceMode == ModeOf(d.mode)
    ensures 100.0 <= q.amount <= 300.0
  {
    var house := houses[PickIndex(d.pick, |houses|)];
    RoundWithin(100.0 + d.size * 200.0, 100, 300);
    Listing(id, Buyer(house.id, ModeOf(d.mode)), RoundHalfUp(100.0 + d.size * 200.0) as real)
  }

  /** `sellOffers.push(newOffer)` with the next counter id. */
  function AddRandomSellOffer(m: Market, houses: seq<EnergyData.House>, d: OfferDraw): (r: Market)
    requires OfferDrawOk(d) && (d.kind > 0.4 || |houses| > 0)
    ensures r.sellOffers == m.sellOffers + [NewSellOffer(houses, m.offerIdCounter, d)]
    ensures r.offerIdCounter == m.offerIdCounter + 1
    ensures r == m.(sellOffers := r.sellOffers, offerIdCounter := r.offerIdCounter)
  {
    m.(sellOffers := m.sellOffers + [NewSellOffer(houses, m.offerIdCounter, d)], offerIdCounter := m.offerIdCounter + 1)
  }

  /** `buyRequests.push(newRequest)` with the next counter id. */
  function AddRandomBuyRequest(m: Market, houses: seq<EnergyData.House>, d: RequestDraw): (r: Market)
    requires RequestDrawOk(d) && |houses| > 0
    ensures r.buyRequests == m.buyRequests + [NewBuyRequest(houses, m.offerIdCounter, d)]
    ensures r.offerIdCounter == m.offerIdCounter + 1
    ensures r == m.(buyRequests := r.buyRequests, offerIdCounter := r.offerIdCounter)
  {
    m.(buyRequests := m.buyRequests + [NewBuyRequest(houses, m.offerIdCounter, d)], offerIdCounter := m.offerIdCounter + 1)
  }

  lemma ValidOffersPush(offers: seq<Offer>, counter: int, o: Offer)
    requires ValidOffers(offers, counter) && counter >= 1
    requires o.id == counter && !IsCentral(o) && o.amount >= 0.0
    ensures ValidOffers(offers + [o], counter + 1)
  {
    var r := offers + [o];
    assert forall k :: 0 <= k < |offers| ==> r[k] == offers[k];
  }

  lemma ValidRequestsPush(requests: seq<Request>, counter: int, q: Request)
    requires ValidRequests(requests, counter) && counter >= 1
    requires q.id == counter && q.amount >= 0.0
    ensures ValidRequests(requests + [q], counter + 1)
  {
    var r := requests + [q];
    assert forall k :: 0 <= k < |requests| ==> r[k] == requests[k];
  }

  lemma ValidOffersRaise(offers: seq<Offer>, counter: int, counter': int)
    requires ValidOffers(offers, counter) && counter <= counter'
    ensures ValidOffers(offers, counter')
  {
  }

  lemma ValidRequestsRaise(requests: seq<Request>, counter: int, counter': int)
    requires ValidRequests(requests, counter) && counter <= counter'
    ensures ValidRequests(requests, counter')
  {
  }

  /** The random draws of one five-second market tick. */
  datatype TickDraws = TickDraws(
    addOffer: real, offer: OfferDraw,
    addRequest: real, request: RequestDraw,
    dropOffer: real, dropOfferAt: real,
    dropRequest: real, dropRequestAt: real)

  predicate TickDrawsOk(d: TickDraws)
  {
    && InUnit(d.addOffer) && OfferDrawOk(d.offer)
    && InUnit(d.addRequest) && RequestDrawOk(d.request)
    && InUnit(d.dropOffer) && InUnit(d.dropOfferAt)
    && InUnit(d.dropRequest) && InUnit(d.dropRequestAt)
  }

  /** What the tick needs of the house list: a house whenever it picks one. */
  predicate HousesForTick(m: Market, houses: seq<EnergyData.House>, d: TickDraws)
  {
    && (d.addOffer > 0.7 && |m.sellOffers| < MaxListings && d.offer.kind <= 0.4 ==> |houses| > 0)
    && (d.addRequest > 0.7 && |m.buyRequests| < MaxListings ==> |houses| > 0)
  }

  /** At most one entry more, and none added at or above the cap of 15. */
  predicate GrowsWithinCap(before: int, after: int)
  {
    before <= after <= before + 1 && (before >= MaxListings ==> after == before)
  }

  /** At most one entry fewer, and none taken at or below the floor of 3. */
  predicate ShrinksWithinFloor(before: int, after: int)
  {
    before - 1 <= after <= before && (before <= MinListings ==> after == before)
  }

  function MaybeAddOffer(m: Market, houses: seq<EnergyData.House>, chance: real, d: OfferDraw): (r: Market)
    requires OfferDrawOk(d) && (chance > 0.7 && |m.sellOffers| < MaxListings && d.kind <= 0.4 ==> |houses| > 0)
    ensures GrowsWithinCap(|m.sellOffers|, |r.sellOffers|)
    ensures chance > 0.7 && |m.sellOffers| < MaxListings ==> r == AddRandomSellOffer(m, houses, d)
    ensures !(chance > 0.7 && |m.sellOffers| < MaxListings) ==> r == m
    ensures m.offerIdCounter <= r.offerIdCounter <= m.offerIdCounter + 1
    ensures r.buyRequests == m.buyRequests && r.transactions == m.transactions
    ensures r.batteryLevel == m.batteryLevel && r.totalSold == m.totalSold
  {
    if chance > 0.7 && |m.sellOffers| < MaxListings then AddRandomSellOffer(m, houses, d) else m
  }

  function MaybeAddRequest(m: Market, houses: seq<EnergyData.House>, chance: real, d: RequestDraw): (r: Market)
    requires RequestDrawOk(d) && (chance > 0.7 && |m.buyRequests| < MaxListings ==> |houses| > 0)
    ensures GrowsWithinCap(|m.buyRequests|, |r.buyRequests|)
    ensures chance > 0.7 && |m.buyRequests| < MaxListings ==> r == AddRandomBuyRequest(m, houses, d)
    ensures !(chance > 0.7 && |m.buyRequests| < MaxListings) ==> r == m
    ensures m.offerIdCounter <= r.offerIdCounter <= m.offerIdCounter + 1
    ensures r.sellOffers == m.sellOffers && r.transactions == m.transactions
    ensures r.batteryLevel == m.batteryLevel && r.totalSold == m.totalSold
  {
    if chance > 0.7 && |m.buyRequests| < MaxListings then AddRandomBuyRequest(m, houses, d) else m
  }

  function MaybeDropOffer(m: Market, chance: real, at: real): (r: Market)
    requires InUnit(at)
    ensures ShrinksWithinFloor(|m.sellOffers|, |r.sellOffers|)
    ensures r == m || (|m.sellOffers| > 0 && r == m.(sellOffers := RemoveAt(m.sellOffers, PickIndex(at, |m.sellOffers|))))
  {
    if chance > 0.85 && |m.sellOffers| > MinListings
    then m.(sellOffers := RemoveAt(m.sellOffers, PickIndex(at, |m.sellOffers|)))
    else m
  }

  function MaybeDropRequest(m: Market, chance: real, at: real): (r: Market)
    requires InUnit(at)
    ensures ShrinksWithinFloor(|m.buyRequests|, |r.buyRequests|)
    ensures r == m || (|m.buyRequests| > 0 && r == m.(buyRequests := RemoveAt(m.buyRequests, PickIndex(at, |m.buyRequests|))))
  {
    if chance > 0.85 && |m.buyRequests| > MinListings
    then m.(buyRequests := RemoveAt(m.buyRequests, PickIndex(at, |m.buyRequests|)))
    else m
  }

  /**
   * simulateMarketChanges: maybe add an offer (only below 15), maybe add a
   * request (only below 15), maybe withdraw a random offer (only above 3),
   * maybe withdraw a random request (only above 3).  Each list gains or
   * loses at most one entry, a list that had at least 3 keeps at least 3,
   * and a list that had at most 15 keeps at most 15.
   */
  function SimulateMarket(m: Market, houses: seq<EnergyData.House>, d: TickDraws): (r: Market)
    requires TickDrawsOk(d) && HousesForTick(m, houses, d)
    ensures |m.sellOffers| - 1 <= |r.sellOffers| <= |m.sellOffers| + 1
    ensures |m.buyRequests| - 1 <= |r.buyRequests| <= |m.buyRequests| + 1
    ensures |m.sellOffers| <= MaxListings ==> |r.sellOffers| <= MaxListings
    ensures |m.buyRequests| <= MaxListings ==> |r.buyRequests| <= MaxListings
    ensures |m.sellOffers| >= MinListings ==> |r.sellOffers| >= MinListings
    ensures |m.buyRequests| >= MinListings ==> |r.buyRequests| >= MinListings
    ensures m.offerIdCounter <= r.offerIdCounter <= m.offerIdCounter + 2
    ensures r.transactions == m.transactions
    ensures r.batteryLevel == m.batteryLevel && r.totalSold == m.totalSold
  {
    var m1 := MaybeAddOffer(m, houses, d.addOffer, d.offer);
    var m2 := MaybeAddRequest(m1, houses, d.addRequest, d.request);
    var m3 := MaybeDropOffer(m2, d.dropOffer, d.dropOfferAt);
    MaybeDropRequest(m3, d.dropRequest, d.dropRequestAt)
  }

  lemma MaybeAddOfferKeepsValid(m: Market, houses: seq<EnergyData.House>, chance: real, d: OfferDraw)
    requires OfferDrawOk(d) && (chance > 0.7 && |m.sellOffers| < MaxListings && d.kind <= 0.4 ==> |houses| > 0)
    requires Valid(m)
    ensures Valid(MaybeAddOffer(m, houses, chance, d))
  {
    if chance > 0.7 && |m.sellOffers| < MaxListings {
      ValidOffersPush(m.sellOffers, m.offerIdCounter, NewSellOffer(houses, m.offerIdCounter, d));
      ValidRequestsRaise(m.buyRequests, m.offerIdCounter, m.offerIdCounter + 1);
    }
  }

  lemma MaybeAddRequestKeepsValid(m: Market, houses: seq<EnergyData.House>, chance: real, d: RequestDraw)
    requires RequestDrawOk(d) && (chance > 0.7 && |m.buyRequests| < MaxListings ==> |houses| > 0)
    requires Valid(m)
    ensures Valid(MaybeAddRequest(m, houses, chance, d))
  {
    if chance > 0.7 && |m.buyRequests| < MaxListings {
      ValidRequestsPush(m.buyRequests, m.offerIdCounter, NewBuyRequest(houses, m.offerIdCounter, d));
      ValidOffersRaise(m.sellOffers, m.offerIdCounter, m.offerIdCounter + 1);
    }
  }

  lemma MaybeDropKeepsValid(m: Market, chance: real, at: real)
    requires InUnit(at) && Valid(m)
    ensures Valid(MaybeDropOffer(m, chance, at)) && Valid(MaybeDropRequest(m, chance, at))
  {
    if chance > 0.85 && |m.sellOffers| > MinListings {
      ValidOffersRemove(m.sellOffers, m.offerIdCounter, PickIndex(at, |m.sellOffers|));
    }
    if chance > 0.85 && |m.buyRequests| > MinListings {
      ValidRequestsRemove(m.buyRequests, m.offerIdCounter, PickIndex(at, |m.buyRequests|));
    }
  }

  lemma SimulateMarketKeepsValid(m: Market, houses: seq<EnergyData.House>, d: TickDraws)
    requires TickDrawsOk(d) && HousesForTick(m, houses, d) && Valid(m)
    ensures Valid(SimulateMarket(m, houses, d))
  {
    var m1 := MaybeAddOffer(m, houses, d.addOffer, d.offer);
    MaybeAddOfferKeepsValid(m, houses, d.addOffer, d.offer);
    var m2 := MaybeAddRequest(m1, houses, d.addRequest, d.request);
    MaybeAddRequestKeepsValid(m1, houses, d.addRequest, d.request);
    var m3 := MaybeDropOffer(m2, d.dropOffer, d.dropOfferAt);
    MaybeDropKeepsValid(m2, d.dropOffer, d.dropOfferAt);
    MaybeDropKeepsValid(m3, d.dropRequest, d.dropRequestAt);
  }

  // ---------------------------------------------------------------------
  // The first market, built from the houses
  // ---------------------------------------------------------------------

  /** A house's monthly solar surplus: production beyond its own consumption. */
  function SurplusOf(h: EnergyData.House): (s: real)
    ensures s >= 0.0
    ensures s > 0.0 ==> s == EnergyData.MonthlySolarProduction(h.solarPanels) - h.monthlyConsumption
  {
    Max(0.0, EnergyData.MonthlySolarProduction(h.solarPanels) - h.monthlyConsumption)
  }

  /** A house with panels and more than 10 kWh of surplus a month sells it. */
  predicate OffersSurplus(h: EnergyData.House)
  {
    h.solarPanels > 0 && SurplusOf(h) > 10.0
  }

  /** A house without panels, or using more than 400 kWh a month, wants to buy. */
  predicate WantsToBuy(h: EnergyData.House)
  {
    h.solarPanels == 0 || h.monthlyConsumption > 400.0
  }

  /** The house offers of initializeTradingOffers, numbered from firstId in house order. */
  function HouseOffers(houses: seq<EnergyData.House>, firstId: int): (r: seq<Offer>)
    ensures |r| <= |houses|
    ensures forall k :: 0 <= k < |r| ==>
              && r[k].id == firstId + k
              && r[k].party.HouseSeller?
              && r[k].amount >= 10.0
  {
    if houses == [] then []
    else
      var prev := HouseOffers(houses[..|houses| - 1], firstId);
      var h := houses[|houses| - 1];
      if OffersSurplus(h) then
        RoundWithin(SurplusOf(h), 10, RoundHalfUp(SurplusOf(h)) + 1);
        prev + [Listing(firstId + |prev|, HouseSeller(h.id, h.solarPanels), RoundHalfUp(SurplusOf(h)) as real)]
      else prev
  }

  /** Offer `o` is house `h` selling its rounded surplus. */
  predicate OfferFrom(o: Offer, h: EnergyData.House)
  {
    o.party == HouseSeller(h.id, h.solarPanels) && o.amount == RoundHalfUp(SurplusOf(h)) as real
  }

  lemma HouseOffersLast(houses: seq<EnergyData.House>, firstId: int)
    requires houses != []
    ensures var n := |houses| - 1;
            var prev := HouseOffers(houses[..n], firstId);
            var r := HouseOffers(houses, firstId);
            && r[..|prev|] == prev
            && (OffersSurplus(houses[n]) ==> |r| == |prev| + 1 && OfferFrom(r[|prev|], houses[n]))
            && (!OffersSurplus(houses[n]) ==> r == prev)
  {
  }

  /** Offer `o` is the offer of one of the houses that have a surplus. */
  ghost predicate FromSurplusHouse(o: Offer, houses: seq<EnergyData.House>)
  {
    exists j :: 0 <= j < |houses| && OffersSurplus(houses[j]) && OfferFrom(o, houses[j])
  }

  /** Some offer of the list is house `h`'s. */
  ghost predicate HasOfferFrom(offers: seq<Offer>, h: EnergyData.House)
  {
    exists k :: 0 <= k < |offers| && OfferFrom(offers[k], h)
  }

  /** Every house offer comes from a house with a surplus. */
  lemma {:induction false} HouseOffersFromEligible(houses: seq<EnergyData.House>, firstId: int)
    ensures forall k :: 0 <= k < |HouseOffers(houses, firstId)| ==>
              FromSurplusHouse(HouseOffers(houses, firstId)[k], houses)
  {
    if houses == [] {
      assert |HouseOffers(houses, firstId)| == 0;
    } else {
      var n := |houses| - 1;
      var front := houses[..n];
      HouseOffersFromEligible(front, firstId);
      HouseOffersLast(houses, firstId);
      var prev := HouseOffers(front, firstId);
      var r := HouseOffers(houses, firstId);
      forall k | 0 <= k < |r|
        ensures FromSurplusHouse(r[k], houses)
      {
        if k < |prev| {
          assert r[k] == prev[k];
          assert FromSurplusHouse(prev[k], front);
          var j :| 0 <= j < |front| && OffersSurplus(front[j]) && OfferFrom(prev[k], front[j]);
          assert houses[j] == front[j];
        } else {
          assert OffersSurplus(houses[n]) && OfferFrom(r[k], houses[n]);
        }
      }
    }
  }

  /** Every house with a surplus has an offer. */
  lemma {:induction false} EligibleHousesOffer(houses: seq<EnergyData.House>, firstId: int)
    ensures forall j :: 0 <= j < |houses| && OffersSurplus(houses[j]) ==>
              HasOfferFrom(HouseOffers(houses, firstId), houses[j])
  {
    if houses != [] {
      var n := |houses| - 1;
      var front := houses[..n];
      EligibleHousesOffer(front, firstId);
      HouseOffersLast(houses, firstId);
      var prev := HouseOffers(front, firstId);
      var r := HouseOffers(houses, firstId);
      forall j | 0 <= j < |houses| && OffersSurplus(houses[j])
        ensures HasOfferFrom(r, houses[j])
      {
        if j < n {
          assert front[j] == houses[j];
          assert HasOfferFrom(prev, front[j]);
          var k :| 0 <= k < |prev| && OfferFrom(prev[k], front[j]);
          assert r[k] == prev[k];
        } else {
          assert OfferFrom(r[|prev|], houses[j]);
        }
      }
    }
  }

  /** The outside sellers of the first market. */
  const InitialCompanies: seq<Company> := [
    Company("SolarTech Co., Ltd.", 500.0), Company("GreenPower Corp.", 750.0),
    Company("EcoEnergy Thailand", 300.0), Company("Bangkok Solar Ltd.", 1000.0)]

  /** One offer per company, numbered from firstId in catalogue order, at the company's amount. */
  function CompanyOffers(companies: seq<Company>, firstId: int): (r: seq<Offer>)
    ensures |r| == |companies|
    ensures forall k :: 0 <= k < |r| ==>
              r[k] == Listing(firstId + k, CompanySeller(companies[k].name), companies[k].amount)
  {
    seq(|companies|, k requires 0 <= k < |companies| =>
          Listing(firstId + k, CompanySeller(companies[k].name), companies[k].amount))
  }

  /** The draws a wanting house consumes: its tariff and the share of its consumption. */
  datatype PreferenceDraw = PreferenceDraw(mode: real, share: real)

  predicate PreferenceDrawOk(d: PreferenceDraw)
  {
    InUnit(d.mode) && InUnit(d.share)
  }

  /** `Math.round(monthlyConsumption * (0.3 + Math.random() * 0.4))` */
  function WantedAmount(monthly: real, share: real): real
  {
    RoundHalfUp(monthly * (0.3 + share * 0.4)) as real
  }

  /**
   * The buy requests of initializeTradingOffers: one per wanting house, in
   * house order, numbered from firstId, with the draws of its position.
   */
  function HouseRequests(houses: seq<EnergyData.House>, draws: seq<PreferenceDraw>, firstId: int): (r: seq<Request>)
    requires |draws| == |houses|
    ensures |r| <= |houses|
    ensures forall k :: 0 <= k < |r| ==> r[k].id == firstId + k
  {
    if houses == [] then []
    else
      var n := |houses| - 1;
      var prev := HouseRequests(houses[..n], draws[..n], firstId);
      var h := houses[n];
      if WantsToBuy(h)
      then prev + [Listing(firstId + |prev|, Buyer(h.id, ModeOf(draws[n].mode)),
                           WantedAmount(h.monthlyConsumption, draws[n].share))]
      else prev
  }

  /** Request `q` is house `h` asking, on tariff and share draw `d`, for its wanted amount. */
  predicate RequestFrom(q: Request, h: EnergyData.House, d: PreferenceDraw)
  {
    q.party == Buyer(h.id, ModeOf(d.mode)) && q.amount == WantedAmount(h.monthlyConsumption, d.share)
  }

  /** Appending a house appends its request, when it wants to buy, and nothing otherwise. */
  lemma HouseRequestsLast(houses: seq<EnergyData.House>, draws: seq<PreferenceDraw>, firstId: int)
    requires |draws| == |houses| && houses != []
    ensures var n := |houses| - 1;
            var prev := HouseRequests(houses[..n], draws[..n], firstId);
            var h := houses[n];
            HouseRequests(houses, draws, firstId)
              == if WantsToBuy(h)
                 then prev + [Listing(firstId + |prev|, Buyer(h.id, ModeOf(draws[n].mode)),
                                      WantedAmount(h.monthlyConsumption, draws[n].share))]
                 else prev
  {
  }

  /** The requests of the first i + 1 houses, from those of the first i. */
  lemma HouseRequestsStep(houses: seq<EnergyData.House>, draws: seq<PreferenceDraw>, firstId: int, i: nat)
    requires |draws| == |houses| && i < |houses|
    ensures var prev := HouseRequests(houses[..i], draws[..i], firstId);
            HouseRequests(houses[..i + 1], draws[..i + 1], firstId)
              == if WantsToBuy(houses[i])
                 then prev + [Listing(firstId + |prev|, Buyer(houses[i].id, ModeOf(draws[i].mode)),
                                      WantedAmount(houses[i].monthlyConsumption, draws[i].share))]
                 else prev
  {
    assert houses[..i + 1][..i] == houses[..i] && draws[..i + 1][..i] == draws[..i];
    assert houses[..i + 1][i] == houses[i] && draws[..i + 1][i] == draws[i];
    HouseRequestsLast(houses[..i + 1], draws[..i + 1], firstId);
  }

  /** Some house that wants to buy, with the draws of its position, makes request `q`. */
  ghost predicate FromWantingHouse(q: Request, houses: seq<EnergyData.House>, draws: seq<PreferenceDraw>)
  {
    exists j :: 0 <= j < |houses| && j < |draws| && WantsToBuy(houses[j]) && RequestFrom(q, houses[j], draws[j])
  }

  /** Every request comes from a house that wants to buy, asking for its wanted amount. */
  lemma {:induction false} HouseRequestsFromWanting(houses: seq<EnergyData.House>, draws: seq<PreferenceDraw>, firstId: int)
    requires |draws| == |houses|
    ensures forall k :: 0 <= k < |HouseRequests(houses, draws, firstId)| ==>
              FromWantingHouse(HouseRequests(houses, draws, firstId)[k], houses, draws)
  {
    if houses != [] {
      var n := |houses| - 1;
      var front, frontDraws := houses[..n], draws[..n];
      HouseRequestsFromWanting(front, frontDraws, firstId);
      HouseRequestsLast(houses, draws, firstId);
      var prev := HouseRequests(front, frontDraws, firstId);
      var r := HouseRequests(houses, draws, firstId);
      forall k | 0 <= k < |r|
        ensures FromWantingHouse(r[k], houses, draws)
      {
        if k < |prev| {
          assert r[k] == prev[k];
          assert FromWantingHouse(prev[k], front, frontDraws);
          var j :| 0 <= j < |front| && j < |frontDraws| && WantsToBuy(front[j]) && RequestFrom(prev[k], front[j], frontDraws[j]);
          assert houses[j] == front[j] && draws[j] == frontDraws[j];
        } else {
          assert WantsToBuy(houses[n]) && RequestFrom(r[k], houses[n], draws[n]);
        }
      }
    } else {
      assert HouseRequests(houses, draws, firstId) == [];
    }
  }

  /** Some request of the list is house `h`'s, made on draw `d`. */
  ghost predicate HasRequestFrom(requests: seq<Request>, h: EnergyData.House, d: PreferenceDraw)
  {
    exists k :: 0 <= k < |requests| && RequestFrom(requests[k], h, d)
  }

  /** Every house that wants to buy has a request. */
  lemma {:induction false} WantingHousesRequest(houses: seq<EnergyData.House>, draws: seq<PreferenceDraw>, firstId: int)
    requires |draws| == |houses|
    ensures forall j :: 0 <= j < |houses| && WantsToBuy(houses[j]) ==>
              HasRequestFrom(HouseRequests(houses, draws, firstId), houses[j], draws[j])
  {
    if houses != [] {
      var n := |houses| - 1;
      var front, frontDraws := houses[..n], draws[..n];
      WantingHousesRequest(front, frontDraws, firstId);
      HouseRequestsLast(houses, draws, firstId);
      var prev := HouseRequests(front, frontDraws, firstId);
      var r := HouseRequests(houses, draws, firstId);
      forall j | 0 <= j < |houses| && WantsToBuy(houses[j])
        ensures HasRequestFrom(r, houses[j], draws[j])
      {
        if j < n {
          assert front[j] == houses[j] && frontDraws[j] == draws[j];
          assert HasRequestFrom(prev, front[j], frontDraws[j]);
          var k :| 0 <= k < |prev| && RequestFrom(prev[k], front[j], frontDraws[j]);
          assert r[k] == prev[k];
        } else {
          assert RequestFrom(r[|prev|], houses[j], draws[j]);
        }
      }
    }
  }

  /** A house that wants to buy a non-negative share of a non-negative consumption asks for at least 0 kWh. */
  lemma WantedAmountNonNegative(monthly: real, share: real)
    requires monthly >= 0.0 && InUnit(share)
    ensures WantedAmount(monthly, share) >= 0.0
  {
    ScaleBounds(monthly, 0.3 + share * 0.4);
  }

  lemma ScaleBounds(a: real, f: real)
    requires a >= 0.0 && f >= 0.0
    ensures a * f >= 0.0
  {
  }

  /**
   * The fresh-start branch of initializeTradingOffers (nothing in storage):
   * the house offers, then the four company offers, then the requests,
   * numbered on from the current counter.
   */
  function InitialMarket(m: Market, houses: seq<EnergyData.House>, draws: seq<PreferenceDraw>): (r: Market)
    requires |draws| == |houses|
    ensures var houseOffers := HouseOffers(houses, m.offerIdCounter);
            && r.sellOffers == houseOffers + CompanyOffers(InitialCompanies, m.offerIdCounter + |houseOffers|)
            && r.buyRequests == HouseRequests(houses, draws, m.offerIdCounter + |houseOffers| + |InitialCompanies|)
            && r.offerIdCounter == m.offerIdCounter + |r.sellOffers| + |r.buyRequests|
    ensures forall k :: 0 <= k < |r.sellOffers| ==> !IsCentral(r.sellOffers[k])
    ensures r.transactions == m.transactions
    ensures r.batteryLevel == m.batteryLevel && r.totalSold == m.totalSold
  {
    var houseOffers := HouseOffers(houses, m.offerIdCounter);
    var companyOffers := CompanyOffers(InitialCompanies, m.offerIdCounter + |houseOffers|);
    var requests := HouseRequests(houses, draws, m.offerIdCounter + |houseOffers| + |InitialCompanies|);
    var offers := houseOffers + companyOffers;
    assert forall k :: 0 <= k < |houseOffers| ==> offers[k] == houseOffers[k];
    assert forall k :: |houseOffers| <= k < |offers| ==> offers[k] == companyOffers[k - |houseOffers|];
    m.(sellOffers := offers, buyRequests := requests,
       offerIdCounter := m.offerIdCounter + |offers| + |requests|)
  }

  /**
   * The initial offers carry consecutive ids from the counter, none is the
   * plant's and none is negative, so they are valid up to the next free id.
   */
  lemma InitialOffersValid(houses: seq<EnergyData.House>, firstId: int)
    requires firstId >= 1
    ensures var houseOffers := HouseOffers(houses, firstId);
            var offers := houseOffers + CompanyOffers(InitialCompanies, firstId + |houseOffers|);
            ValidOffers(offers, firstId + |offers|)
  {
    var houseOffers := HouseOffers(houses, firstId);
    var companyOffers := CompanyOffers(InitialCompanies, firstId + |houseOffers|);
    assert Consecutive(houseOffers, firstId);
    assert Consecutive(companyOffers, firstId + |houseOffers|) by {
      forall k | 0 <= k < |companyOffers|
        ensures companyOffers[k].amount >= 0.0
      {
        assert InitialCompanies[k].amount >= 0.0;
      }
    }
    ConsecutiveConcat(houseOffers, companyOffers, firstId);
    ConsecutiveOffersValid(houseOffers + companyOffers, firstId);
  }

  /** Offers of other sellers than the plant, with amounts not below 0, numbered one by one from firstId. */
  ghost predicate Consecutive(offers: seq<Offer>, firstId: int)
  {
    forall k :: 0 <= k < |offers| ==> offers[k].id == firstId + k && offers[k].amount >= 0.0 && !IsCentral(offers[k])
  }

  lemma ConsecutiveConcat(a: seq<Offer>, b: seq<Offer>, firstId: int)
    requires Consecutive(a, firstId) && Consecutive(b, firstId + |a|)
    ensures Consecutive(a + b, firstId)
  {
    forall k | 0 <= k < |a + b|
      ensures (a + b)[k].id == firstId + k && (a + b)[k].amount >= 0.0 && !IsCentral((a + b)[k])
    {
      if k < |a| {
        assert (a + b)[k] == a[k];
      } else {
        assert (a + b)[k] == b[k - |a|];
      }
    }
  }

  /** Offers numbered consecutively from firstId are valid up to the next id. */
  lemma ConsecutiveOffersValid(offers: seq<Offer>, firstId: int)
    requires firstId >= 1 && Consecutive(offers, firstId)
    ensures ValidOffers(offers, firstId + |offers|)
  {
  }

  /**
   * With consumption and shares that are not negative, no initial request
   * asks for a negative amount, so the requests are valid up to the next
   * free id.
   */
  lemma InitialRequestsValid(houses: seq<EnergyData.House>, draws: seq<PreferenceDraw>, firstId: int)
    requires |draws| == |houses| && forall j :: 0 <= j < |draws| ==> PreferenceDrawOk(draws[j])
    requires forall j :: 0 <= j < |houses| ==> houses[j].monthlyConsumption >= 0.0
    requires firstId >= 1
    ensures ValidRequests(HouseRequests(houses, draws, firstId), firstId + |HouseRequests(houses, draws, firstId)|)
  {
    var requests := HouseRequests(houses, draws, firstId);
    HouseRequestsFromWanting(houses, draws, firstId);
    forall k | 0 <= k < |requests| ensures requests[k].amount >= 0.0 {
      assert FromWantingHouse(requests[k], houses, draws);
      var j :| 0 <= j < |houses| && j < |draws| && WantsToBuy(houses[j]) && RequestFrom(requests[k], houses[j], draws[j]);
      WantedAmountNonNegative(houses[j].monthlyConsumption, draws[j].share);
    }
  }

  /** The freshly initialized market satisfies the engine's invariant. */
  lemma InitialMarketValid(m: Market, houses: seq<EnergyData.House>, draws: seq<PreferenceDraw>)
    requires |draws| == |houses| && forall j :: 0 <= j < |draws| ==> PreferenceDrawOk(draws[j])
    requires forall j :: 0 <= j < |houses| ==> houses[j].monthlyConsumption >= 0.0
    requires m.offerIdCounter >= 1 && Admissible(m.transactions)
    ensures Valid(InitialMarket(m, houses, draws))
  {
    var r := InitialMarket(m, houses, draws);
    var houseOffers := HouseOffers(houses, m.offerIdCounter);
    var next := m.offerIdCounter + |houseOffers| + |InitialCompanies|;
    assert r.sellOffers == houseOffers + CompanyOffers(InitialCompanies, m.offerIdCounter + |houseOffers|);
    assert r.buyRequests == HouseRequests(houses, draws, next);
    InitialOffersValid(houses, m.offerIdCounter);
    InitialRequestsValid(houses, draws, next);
    ValidOffersRaise(r.sellOffers, next, r.offerIdCounter);
  }

  /** The house pass of initializeTradingOffers; returns the offers and the next free id. */
  method CollectHouseOffers(houses: seq<EnergyData.House>, firstId: int) returns (offers: seq<Offer>, nextId: int)
    ensures offers == HouseOffers(houses, firstId)
    ensures nextId == firstId + |offers|
  {
    offers := [];
    nextId := firstId;
    var i := 0;
    while i < |houses|
      invariant 0 <= i <= |houses|
      invariant offers == HouseOffers(houses[..i], firstId)
      invariant nextId == firstId + |offers|
    {
      var house := houses[i];
      assert houses[..i + 1][..i] == houses[..i];
      if house.solarPanels > 0 {
        var monthlyProduction := house.solarPanels as real * EnergyData.PanelKW * EnergyData.PeakSunHours
                                 * EnergyData.DaysPerMonth * EnergyData.SystemEfficiency;
        var monthlySurplus := Max(0.0, monthlyProduction - house.monthlyConsumption);
        if monthlySurplus > 10.0 {
          offers := offers + [Listing(nextId, HouseSeller(house.id, house.solarPanels),
                                      RoundHalfUp(monthlySurplus) as real)];
          nextId := nextId + 1;
        }
      }
      i := i + 1;
    }
    assert houses[..i] == houses;
  }

  /** The company pass of initializeTradingOffers. */
  method CollectCompanyOffers(companies: seq<Company>, firstId: int) returns (offers: seq<Offer>, nextId: int)
    ensures offers == CompanyOffers(companies, firstId)
    ensures nextId == firstId + |companies|
  {
    offers := [];
    nextId := firstId;
    var k := 0;
    while k < |companies|
      invariant 0 <= k <= |companies|
      invariant offers == CompanyOffers(companies[..k], firstId)
      invariant nextId == firstId + k
    {
      var company := companies[k];
      offers := offers + [Listing(nextId, CompanySeller(company.name), company.amount)];
      nextId := nextId + 1;
      k := k + 1;
      assert CompanyOffers(companies[..k], firstId) == CompanyOffers(companies[..k - 1], firstId) + [Listing(firstId + k - 1, CompanySeller(company.name), company.amount)];
    }
    assert companies[..k] == companies;
  }

  /** The request pass of initializeTradingOffers, with one preference draw per house. */
  method CollectHouseRequests(houses: seq<EnergyData.House>, draws: seq<PreferenceDraw>, firstId: int)
    returns (requests: seq<Request>, nextId: int)
    requires |draws| == |houses|
    ensures requests == HouseRequests(houses, draws, firstId)
    ensures nextId == firstId + |requests|
  {
    requests := [];
    nextId := firstId;
    var i := 0;
    while i < |houses|
      invariant 0 <= i <= |houses|
      invariant requests == HouseRequests(houses[..i], draws[..i], firstId)
      invariant nextId == firstId + |requests|
    {
      var house := houses[i];
      HouseRequestsStep(houses, draws, firstId, i);
      var wantsToBuy := house.solarPanels == 0 || house.monthlyConsumption > 400.0;
      if wantsToBuy {
        var preferredMode := if draws[i].mode > 0.5 then Tou else Fixed;
        var wantedAmount := WantedAmount(house.monthlyConsumption, draws[i].share);
        requests := requests + [Listing(nextId, Buyer(house.id, preferredMode), wantedAmount)];
        nextId := nextId + 1;
      }
      i := i + 1;
    }
    assert houses[..i] == houses && draws[..i] == draws;
  }

  // ---------------------------------------------------------------------
  // The engine in place
  // ---------------------------------------------------------------------

  /**
   * The module-level state of electricity-trading.js (`sellOffers`,
   * `buyRequests`, `offerIdCounter`), the transaction log it appends to,
   * and the central plant's record that buying from the plant debits.
   */
  class TradingPool {
    var sellOffers: seq<Offer>
    var buyRequests: seq<Request>
    var offerIdCounter: int
    var transactions: seq<Transaction>
    const plant: CentralSolar.Plant

    function Snapshot(): Market
      reads this, plant
    {
      Market(sellOffers, buyRequests, offerIdCounter, transactions, plant.batteryLevel, plant.totalSold)
    }

    /** The state as loaded from storage. */
    constructor (plant: CentralSolar.Plant, sellOffers: seq<Offer>, buyRequests: seq<Request>,
                 offerIdCounter: int, transactions: seq<Transaction>)
      ensures this.plant == plant
      ensures this.sellOffers == sellOffers && this.buyRequests == buyRequests
      ensures this.offerIdCounter == offerIdCounter && this.transactions == transactions
    {
      this.plant := plant;
      this.sellOffers := sellOffers;
      this.buyRequests := buyRequests;
      this.offerIdCounter := offerIdCounter;
      this.transactions := transactions;
    }

    /** buyFromOffer, with the amount typed into the offer's field and the fixed buying price. */
    method BuyFromOffer(offerId: int, kWh: real, fixedPrice: real) returns (outcome: Outcome)
      modifies this, plant
      ensures Step(Snapshot(), outcome) == AcceptOffer(old(Snapshot()), offerId, kWh, fixedPrice)
      ensures old(Valid(Snapshot())) ==> Valid(Snapshot())
    {
      ghost var before := Snapshot();
      if Valid(before) {
        AcceptOfferKeepsValid(before, offerId, kWh, fixedPrice);
      }
      var offerIndex := IndexOfId(sellOffers, offerId);
      if offerIndex == -1 {
        return UnknownListing;
      }
      var offer := sellOffers[offerIndex];
      if kWh <= 0.0 {
        return NonPositiveAmount;
      }
      if kWh > offer.amount {
        return ExceedsListing;
      }
      var totalCost := kWh * fixedPrice;
      transactions := transactions + [Transaction(Buy, SellerParty(offer.party), Pool, kWh, fixedPrice, totalCost, Fixed)];
      if offer.party == CentralSolarSeller {
        plant.Sell(kWh);
      }
      if kWh >= offer.amount {
        sellOffers := sellOffers[..offerIndex] + sellOffers[offerIndex + 1..];
      } else {
        sellOffers := sellOffers[offerIndex := offer.(amount := offer.amount - kWh)];
      }
      outcome := Done;
      assert transactions == before.transactions + [PurchaseRecord(offer, kWh, fixedPrice)];
      assert sellOffers == Fill(before.sellOffers, offerIndex, kWh);
    }

    /** sellToRequest, with the amount typed into the request's field and the two selling prices. */
    method SellToRequest(requestId: int, kWh: real, sellPrices: Prices) returns (outcome: Outcome)
      modifies this
      ensures Step(Snapshot(), outcome) == AcceptRequest(old(Snapshot()), requestId, kWh, sellPrices)
      ensures old(Valid(Snapshot())) ==> Valid(Snapshot())
    {
      ghost var before := Snapshot();
      if Valid(before) {
        AcceptRequestKeepsValid(before, requestId, kWh, sellPrices);
      }
      var requestIndex := IndexOfId(buyRequests, requestId);
      if requestIndex == -1 {
        return UnknownListing;
      }
      var request := buyRequests[requestIndex];
      if kWh <= 0.0 {
        return NonPositiveAmount;
      }
      if kWh > request.amount {
        return ExceedsListing;
      }
      var currentReserve := BoughtKWh(transactions) - SoldKWh(transactions);
      if kWh > currentReserve {
        return InsufficientReserve;
      }
      var mode := request.party.priceMode;
      var price := PriceFor(sellPrices, mode);
      var totalRevenue := kWh * price;
      var tx := Transaction(Sell, Pool, HouseParty(request.party.houseId), kWh, price, totalRevenue, mode);
      assert tx == SaleRecord(request, kWh, sellPrices);
      var remaining;
      if kWh >= request.amount {
        remaining := buyRequests[..requestIndex] + buyRequests[requestIndex + 1..];
      } else {
        remaining := buyRequests[requestIndex := request.(amount := request.amount - kWh)];
      }
      assert remaining == Fill(buyRequests, requestIndex, kWh);
      transactions := transactions + [tx];
      buyRequests := remaining;
      outcome := Done;
    }

    /** updateCentralSolarOffer, called with the plant's surplus. */
    method UpdateCentralSolarOffer(availableAmount: real)
      modifies this
      ensures sellOffers == UpdateCentralOffer(old(sellOffers), availableAmount)
      ensures Snapshot() == old(Snapshot()).(sellOffers := sellOffers)
      ensures old(Valid(Snapshot())) ==> Valid(Snapshot())
    {
      var updated := sellOffers;
      var existingIndex := CentralIndex(sellOffers);
      if existingIndex >= 0 && Abs(sellOffers[existingIndex].amount - availableAmount) < 1.0 {
        // within the threshold: the offer stays as it is
      } else if availableAmount > 5.0 {
        if existingIndex >= 0 {
          updated := updated[existingIndex := updated[existingIndex].(amount := RoundHalfUp(availableAmount) as real)];
        } else {
          var centralOffer := Listing(CentralOfferId, CentralSolarSeller, RoundHalfUp(availableAmount) as real);
          updated := [centralOffer] + updated;
        }
      } else if existingIndex >= 0 {
        updated := updated[..existingIndex] + updated[existingIndex + 1..];
      }
      UpdateCentralOfferShape(sellOffers, availableAmount);
      assert updated == UpdateCentralOffer(sellOffers, availableAmount);
      ValidAfterCentralUpdate(Snapshot(), availableAmount);
      sellOffers := updated;
    }

    /** addNewRandomSellOffer */
    method AddNewRandomSellOffer(houses: seq<EnergyData.House>, d: OfferDraw)
      requires OfferDrawOk(d) && (d.kind > 0.4 || |houses| > 0)
      modifies this
      ensures Snapshot() == AddRandomSellOffer(old(Snapshot()), houses, d)
    {
      var newOffer: Offer;
      if d.kind > 0.4 {
        var company := RandomCompanies[PickIndex(d.pick, |RandomCompanies|)];
        newOffer := Listing(offerIdCounter, CompanySeller(company.name),
                            RoundHalfUp(company.amount * (0.8 + d.size * 0.4)) as real);
      } else {
        var house := houses[PickIndex(d.pick, |houses|)];
        newOffer := Listing(offerIdCounter, HouseSeller(house.id, if house.solarPanels != 0 then house.solarPanels else 5),
                            RoundHalfUp(50.0 + d.size * 150.0) as real);
      }
      offerIdCounter := offerIdCounter + 1;
      sellOffers := sellOffers + [newOffer];
    }

    /** addNewRandomBuyRequest */
    method AddNewRandomBuyRequest(houses: seq<EnergyData.House>, d: RequestDraw)
      requires RequestDrawOk(d) && |houses| > 0
      modifies this
      ensures Snapshot() == AddRandomBuyRequest(old(Snapshot()), houses, d)
    {
      var house := houses[PickIndex(d.pick, |houses|)];
      var preferredMode := if d.mode > 0.5 then Tou else Fixed;
      var newRequest := Listing(offerIdCounter, Buyer(house.id, preferredMode),
                                RoundHalfUp(100.0 + d.size * 200.0) as real);
      offerIdCounter := offerIdCounter + 1;
      buyRequests := buyRequests + [newRequest];
    }

    /** simulateMarketChanges, one five-second tick. */
    method SimulateMarketChanges(houses: seq<EnergyData.House>, d: TickDraws)
      requires TickDrawsOk(d) && HousesForTick(Snapshot(), houses, d)
      modifies this
      ensures Snapshot() == SimulateMarket(old(Snapshot()), houses, d)
      ensures old(Valid(Snapshot())) ==> Valid(Snapshot())
    {
      ghost var before := Snapshot();
      if Valid(before) {
        SimulateMarketKeepsValid(before, houses, d);
      }
      MaybeAddSellOffer(houses, d.addOffer, d.offer);
      MaybeAddBuyRequest(houses, d.addRequest, d.request);
      MaybeWithdrawSellOffer(d.dropOffer, d.dropOfferAt);
      MaybeWithdrawBuyRequest(d.dropRequest, d.dropRequestAt);
    }

    /** The first step of a tick: a new offer with chance 0.3 while there are fewer than 15. */
    method MaybeAddSellOffer(houses: seq<EnergyData.House>, chance: real, d: OfferDraw)
      requires OfferDrawOk(d) && (chance > 0.7 && |sellOffers| < MaxListings && d.kind <= 0.4 ==> |houses| > 0)
      modifies this
      ensures Snapshot() == MaybeAddOffer(old(Snapshot()), houses, chance, d)
    {
      if chance > 0.7 && |sellOffers| < MaxListings {
        AddNewRandomSellOffer(houses, d);
      }
    }

    /** The second step: a new request with chance 0.3 while there are fewer than 15. */
    method MaybeAddBuyRequest(houses: seq<EnergyData.House>, chance: real, d: RequestDraw)
      requires RequestDrawOk(d) && (chance > 0.7 && |buyRequests| < MaxListings ==> |houses| > 0)
      modifies this
      ensures Snapshot() == MaybeAddRequest(old(Snapshot()), houses, chance, d)
    {
      if chance > 0.7 && |buyRequests| < MaxListings {
        AddNewRandomBuyRequest(houses, d);
      }
    }

    /** The third step: a random offer withdrawn with chance 0.15 while there are more than 3. */
    method MaybeWithdrawSellOffer(chance: real, at: real)
      requires InUnit(at)
      modifies this
      ensures Snapshot() == MaybeDropOffer(old(Snapshot()), chance, at)
    {
      if chance > 0.85 && |sellOffers| > MinListings {
        var randomIndex := PickIndex(at, |sellOffers|);
        sellOffers := sellOffers[..randomIndex] + sellOffers[randomIndex + 1..];
      }
    }

    /** The last step: a random request withdrawn with chance 0.15 while there are more than 3. */
    method MaybeWithdrawBuyRequest(chance: real, at: real)
      requires InUnit(at)
      modifies this
      ensures Snapshot() == MaybeDropRequest(old(Snapshot()), chance, at)
    {
      if chance > 0.85 && |buyRequests| > MinListings {
        var randomIndex := PickIndex(at, |buyRequests|);
        buyRequests := buyRequests[..randomIndex] + buyRequests[randomIndex + 1..];
      }
    }

    /**
     * The fresh-start branch of initializeTradingOffers: the house offers,
     * the company offers and the house requests, each new entry taking the
     * next counter id.
     */
    method InitializeTradingOffers(houses: seq<EnergyData.House>, draws: seq<PreferenceDraw>)
      requires |draws| == |houses|
      modifies this
      ensures Snapshot() == InitialMarket(old(Snapshot()), houses, draws)
    {
      var houseOffers, nextId := CollectHouseOffers(houses, offerIdCounter);
      var companyOffers, nextId' := CollectCompanyOffers(InitialCompanies, nextId);
      sellOffers := houseOffers + companyOffers;
      buyRequests, offerIdCounter := CollectHouseRequests(houses, draws, nextId');
    }
  }
}
