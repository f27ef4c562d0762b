/** The auction house as its handlers run it, step by step on shared state. */
module AuctionHouseService {
  import opened Options
  import opened AuctionHouse

  class AuctionHouseMgr {
    var money: seq<nat>
    var houses: seq<seq<Auction>>
    var aItems: set<nat>
    var bags: map<nat, nat>
    var mails: seq<Mail>
    var destroyed: multiset<nat>
    var sink: nat
    var nextId: nat

    constructor (money: seq<nat>, bags: map<nat, nat>)
      ensures Value() == World(money, [[], [], []], {}, bags, [], multiset{}, 0, 1)
    {
      this.money, this.bags := money, bags;
      houses, aItems, mails, destroyed, sink, nextId := [[], [], []], {}, [], multiset{}, 0, 1;
    }

    function Value(): World
      reads this
    {
      World(money, houses, aItems, bags, mails, destroyed, sink, nextId)
    }

    method Pay(who: nat, amount: int)
      requires who < |money|
      modifies this`money
      ensures Value() == Debit(old(Value()), who, amount)
    {
      money := money[who := ModifyMoney(money[who], -AsInt32(amount % UINT32_LIMIT))];
    }

    method SendMailTo(to: nat, gold: nat, item: Option<nat>)
      modifies this`mails
      ensures Value() == SendMail(old(Value()), to, gold, item)
    {
      mails := mails + [Mail(to, gold, item)];
    }

    /** Finds an auction by its id, as the lookup of the house map does. */
    method GetAuction(h: nat, id: nat) returns (k: nat)
      requires h < |houses|
      ensures k == Find(houses[h], id)
    {
      k := 0;
      while k < |houses[h]| && houses[h][k].id != id
        invariant k <= |houses[h]| && Find(houses[h], id) == k + Find(houses[h][k..], id)
      {
        k := k + 1;
        assert houses[h][k - 1..][1..] == houses[h][k..];
      }
    }

    method SendAuctionRefundMail(c: Context, a: Auction)
      modifies this`mails, this`sink
      ensures Value() == Refund(old(Value()), c, a)
    {
      if Exists(c, a.bidder) {
        SendMailTo(a.bidder, a.bid, None);
      } else {
        sink := sink + a.bid;
      }
    }

    method SendAuctionSalePendingMail(c: Context, a: Auction)
      modifies this`mails
      ensures Value() == SalePending(old(Value()), c, a)
    {
      if Exists(c, a.owner) {
        SendMailTo(a.owner, 0, None);
      }
    }

    method SendAuctionSuccessfulMail(c: Context, a: Auction)
      requires Cut(a, c.rate) >= 0
      modifies this`mails, this`sink
      ensures Value() == Successful(old(Value()), c, a)
    {
      if Exists(c, a.owner) {
        var auctionCut := Cut(a, c.rate);
        var profit := (a.bid + a.deposit - auctionCut) % UINT32_LIMIT;
        SendMailTo(a.owner, profit, None);
        sink := sink + auctionCut;
      } else {
        sink := sink + a.bid + a.deposit;
      }
    }

    /** The mail with the item: to the winner, or back to the seller of an expired auction. */
    method SendAuctionItemMail(c: Context, a: Auction, to: nat)
      modifies this`mails, this`aItems, this`destroyed
      ensures Value() == HandOver(old(Value()), c, a, to)
    {
      if a.item !in aItems {
        return;
      }
      if Exists(c, to) {
        if to !in c.online {
          aItems := aItems - {a.item};
        }
        SendMailTo(to, 0, Some(a.item));
      } else {
        aItems := aItems - {a.item};
        destroyed := destroyed + multiset{a.item};
      }
    }

    method RemoveAuction(h: nat, k: nat)
      requires h < |houses| && k < |houses[h]|
      modifies this`aItems, this`houses
      ensures Value() == Clear(old(Value()), h, k)
    {
      aItems := aItems - {houses[h][k].item};
      houses := houses[h := houses[h][..k] + houses[h][k + 1..]];
    }

    method HandleAuctionSellItem(c: Context, who: nat, h: nat, q: SellRequest) returns (reply: Reply)
      requires Acts(Value(), c, who) && h < 3
      modifies this
      ensures (Value(), reply) == Sell(old(Value()), c, who, h, q)
    {
      if q.item == 0 || q.bid == 0 || q.minutes == 0 {
        return Silent;
      }
      var etime := q.minutes * 60 % UINT32_LIMIT;
      if etime != MIN_AUCTION_TIME && etime != 2 * MIN_AUCTION_TIME && etime != 4 * MIN_AUCTION_TIME {
        return Silent;
      }
      if q.item in aItems {
        return Refused(InternalError);
      }
      if q.item !in bags || bags[q.item] != who {
        return Refused(ItemNotFound);
      }
      if !q.tradable {
        return Refused(InternalError);
      }
      if money[who] < q.deposit {
        return Refused(NotEnoughMoney);
      }
      Pay(who, q.deposit);
      var a := Auction(nextId, q.item, who, q.bid, 0, 0, q.buyout, c.now + q.duration, q.deposit, q.cutPercent);
      nextId := nextId + 1;
      houses := houses[h := houses[h] + [a]];
      aItems := aItems + {q.item};
      bags := bags - {q.item};
      return Done;
    }

    method HandleAuctionPlaceBid(c: Context, who: nat, h: nat, id: nat, price: nat) returns (reply: Reply)
      requires Acts(Value(), c, who) && h < 3 && c.rate >= 0.0
      modifies this
      ensures (Value(), reply) == PlaceBid(old(Value()), c, who, h, id, price)
    {
      if id == 0 || price == 0 {
        return Silent;
      }
      var k := GetAuction(h, id);
      if k == |houses[h]| || houses[h][k].owner == who {
        return Refused(CannotBidYourAuction);
      }
      var a := houses[h][k];
      if a.owner !in c.online && AccountOf(c, a.owner) == AccountOf(c, who) {
        return Refused(CannotBidYourAuction);
      }
      if price <= a.bid || price < a.startbid {
        return Silent;
      }
      if (price < a.buyout || a.buyout == 0) && price < a.bid + OutBid(a) {
        return Silent;
      }
      if price > money[who] {
        return Silent;
      }
      if price < a.buyout || a.buyout == 0 {
        LeadingBid(c, who, h, k, price);
      } else {
        BuyOut(c, who, h, k);
      }
      return Done;
    }

    method LeadingBid(c: Context, who: nat, h: nat, k: nat, price: nat)
      requires Acts(Value(), c, who) && h < 3 && k < |houses[h]|
      modifies this
      ensures Value() == Bid(old(Value()), c, who, h, k, price)
    {
      var a := houses[h][k];
      if a.bidder > 0 {
        if a.bidder == who {
          Pay(who, price - a.bid);
        } else {
          // the mail reads the old bid, so it goes out before the bid is replaced
          SendAuctionRefundMail(c, a);
          Pay(who, price);
        }
      } else {
        Pay(who, price);
      }
      houses := houses[h := houses[h][k := a.(bidder := who, bid := price)]];
    }

    method BuyOut(c: Context, who: nat, h: nat, k: nat)
      requires Acts(Value(), c, who) && h < 3 && k < |houses[h]|
      requires Cut(houses[h][k].(bidder := who, bid := houses[h][k].buyout), c.rate) >= 0
      modifies this
      ensures Value() == Buyout(old(Value()), c, who, h, k)
    {
      var a := houses[h][k];
      ChargeBuyer(c, who, a);
      SendSaleMails(c, a.(bidder := who, bid := a.buyout));
      RemoveAuction(h, k);
    }

    method ChargeBuyer(c: Context, who: nat, a: Auction)
      requires who < |money|
      modifies this`money, this`mails, this`sink
      ensures Value() == Charge(old(Value()), c, who, a)
    {
      if who == a.bidder {
        Pay(who, a.buyout - a.bid);
      } else {
        Pay(who, a.buyout);
        if a.bidder != 0 {
          SendAuctionRefundMail(c, a);
        }
      }
    }

    method SendSaleMails(c: Context, a: Auction)
      requires Cut(a, c.rate) >= 0
      modifies this`mails, this`aItems, this`destroyed, this`sink
      ensures Value() == CloseSale(old(Value()), c, a)
    {
      SendAuctionSalePendingMail(c, a);
      SendAuctionSuccessfulMail(c, a);
      SendAuctionItemMail(c, a, a.bidder);
    }

    method HandleAuctionRemoveItem(c: Context, who: nat, h: nat, id: nat) returns (reply: Reply)
      requires Acts(Value(), c, who) && h < 3 && c.rate >= 0.0
      modifies this
      ensures (Value(), reply) == Cancel(old(Value()), c, who, h, id)
    {
      var k := GetAuction(h, id);
      if k == |houses[h]| || houses[h][k].owner != who {
        return Refused(InternalError);
      }
      var a := houses[h][k];
      if a.item !in aItems {
        return Refused(InternalError);
      }
      if a.bidder > 0 {
        if money[who] < Cut(a, c.rate) {
          return Silent;
        }
      }
      ReturnItem(c, who, a);
      RemoveAuction(h, k);
      return Done;
    }

    method ReturnItem(c: Context, who: nat, a: Auction)
      requires who < |money| && Cut(a, c.rate) >= 0
      modifies this`money, this`mails, this`sink
      ensures Value() == Withdraw(old(Value()), c, who, a)
    {
      if a.bidder > 0 {
        SendAuctionRefundMail(c, a);
        Pay(who, Cut(a, c.rate));
        sink := sink + Cut(a, c.rate);
      }
      SendMailTo(who, 0, Some(a.item));
      sink := sink + a.deposit;
    }

    /** The periodic sweep over all three houses. */
    method Update(c: Context)
      requires |houses| == 3 && c.rate >= 0.0
      modifies this
      ensures Value() == Sweep(old(Value()), c)
    {
      UpdateHouse(c, HORDE);
      SweepKeepsHouses(old(Value()), c, HORDE, 0);
      SweepKeepsHouses(Value(), c, ALLIANCE, 0);
      UpdateHouse(c, ALLIANCE);
      UpdateHouse(c, NEUTRAL);
    }

    method UpdateHouse(c: Context, h: nat)
      requires h < |houses| && c.rate >= 0.0
      modifies this
      ensures Value() == SweepFrom(old(Value()), c, h, 0)
    {
      var i := 0;
      while i < |houses[h]|
        invariant h < |houses| && i <= |houses[h]|
        invariant SweepFrom(Value(), c, h, i) == SweepFrom(old(Value()), c, h, 0)
        decreases |houses[h]| - i
      {
        var a := houses[h][i];
        if c.now > a.expireTime {
          ExpireAuction(c, a);
          RemoveAuction(h, i);
        } else {
          i := i + 1;
        }
      }
    }

    method ExpireAuction(c: Context, a: Auction)
      requires c.rate >= 0.0
      modifies this`mails, this`aItems, this`destroyed, this`sink
      ensures Value() == Expire(old(Value()), c, a)
    {
      if a.bidder == 0 {
        SendAuctionItemMail(c, a, a.owner);
        sink := sink + a.deposit;
      } else {
        SendAuctionSuccessfulMail(c, a);
        SendAuctionItemMail(c, a, a.bidder);
      }
    }

    method HandleMailTakeMoney(who: nat, m: nat)
      requires who < |money| && m < |mails| && mails[m].gold < UINT32_LIMIT
      modifies this`money, this`mails
      ensures Value() == TakeMoney(old(Value()), who, m)
    {
      money := money[who := ModifyMoney(money[who], AsInt32(mails[m].gold))];
      mails := mails[m := mails[m].(gold := 0)];
    }

    method HandleMailTakeItem(who: nat, m: nat)
      requires m < |mails| && mails[m].item.Some?
      modifies this`bags, this`mails
      ensures Value() == TakeItem(old(Value()), who, m)
    {
      bags := bags[mails[m].item.value := who];
      mails := mails[m := mails[m].(item := None)];
    }

    /** A search lists one page of the matching auctions in id order, and counts them all. */
    method BuildListAuctionItems(h: nat, wanted: Auction -> bool, from: nat) returns (page: seq<Auction>, total: nat)
      requires h < |houses|
      ensures var all := Matching(houses[h], aItems, wanted);
              total == |all| && page == Page(all, from)
    {
      page, total := [], 0;
      for i := 0 to |houses[h]|
        invariant total == |Matching(houses[h][..i], aItems, wanted)|
        invariant page == Page(Matching(houses[h][..i], aItems, wanted), from)
      {
        var a := houses[h][i];
        assert houses[h][..i + 1][..i] == houses[h][..i];
        if a.item !in aItems || !wanted(a) {
          continue;
        }
        if |page| < PAGE && total >= from {
          page := page + [a];
        }
        total := total + 1;
      }
      assert houses[h][..|houses[h]|] == houses[h];
    }
  }
}
