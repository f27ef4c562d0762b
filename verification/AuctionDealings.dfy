/** What the auction house owes those who deal with it: exactly which requests are carried out, how
    the others are answered, and the whole world after each. */
module AuctionDealings {
  import opened Options
  import opened AuctionHouse
  import opened AuctionLedger

  // ----- the auction with an id -----

  /** Ids are unique in a house, so the auction with an id is the one that is found. */
  lemma FindAt(w: World, rate: real, h: nat, k: nat)
    requires HousesOk(w, rate) && h < 3 && k < |w.houses[h]|
    ensures Find(w.houses[h], w.houses[h][k].id) == k
  {
    assert HouseOk(w, rate, w.houses[h]);
  }

  // ----- amounts -----

  /** The least raise: five for every full hundred of the standing bid, and at least one. */
  function Raise(bid: nat): nat {
    if bid < 100 then 1 else bid / 100 * 5
  }

  /** The cut is the share of the bid, in 32 bits, rounded down. */
  lemma CutIs(a: Auction, rate: real)
    ensures
      var share := (a.cutPercent * a.bid % 0x1_0000_0000) as real * rate / 100.0;
      Cut(a, rate) as real <= share < Cut(a, rate) as real + 1.0
  {
  }

  // ----- bids -----

  /** The auction is neither the player's own nor its account's. */
  predicate Foreign(c: Context, who: nat, a: Auction) {
    a.owner != who && (a.owner in c.online || AccountOf(c, a.owner) != AccountOf(c, who))
  }

  /** A bid that is carried out: the auction is somebody else's, and the price beats the standing bid,
      reaches the start, is in the purse, and, short of the buyout, raises enough. */
  predicate Welcome(c: Context, who: nat, purse: nat, a: Auction, price: nat) {
    && Foreign(c, who, a) && price > a.bid && price >= a.startbid && price <= purse
    && ((a.buyout != 0 && price >= a.buyout) || price >= a.bid + Raise(a.bid))
  }

  /** The auction of an id meets a condition. */
  ghost predicate ListedAs(w: World, h: nat, id: nat, p: Auction -> bool)
    requires h < |w.houses|
  {
    exists k :: 0 <= k < |w.houses[h]| && w.houses[h][k].id == id && p(w.houses[h][k])
  }

  /** Every bid is answered, and exactly the welcome ones are carried out; the others change
      nothing. */
  lemma BidAnswered(w: World, c: Context, who: nat, h: nat, id: nat, price: nat)
    requires Acts(w, c, who) && h < 3 && Ok(w, c.rate)
    ensures
      var (w', reply) := PlaceBid(w, c, who, h, id, price);
      && (reply == Done <==> id != 0 && price != 0 && ListedAs(w, h, id, a => Welcome(c, who, w.money[who], a, price)))
      && (reply == Refused(CannotBidYourAuction) <==>
            id != 0 && price != 0 && !ListedAs(w, h, id, a => Foreign(c, who, a)))
      && (reply == Silent || reply == Done || reply == Refused(CannotBidYourAuction))
      && (reply != Done ==> w' == w)
  {
    var k := Find(w.houses[h], id);
    forall j | 0 <= j < |w.houses[h]| && w.houses[h][j].id == id ensures j == k {
      FindAt(w, c.rate, h, j);
    }
  }

  /** The bid of a bidder who is gone leaves the economy. */
  function Lapsed(c: Context, who: nat, a: Auction): nat {
    if a.bidder != 0 && a.bidder != who && !Exists(c, a.bidder) then a.bid else 0
  }

  lemma LeadWorld(w: World, c: Context, who: nat, h: nat, k: nat, price: nat, pays: int)
    requires Acts(w, c, who) && h < 3 && k < |w.houses[h]| && 0 <= pays <= w.money[who] <= MAX_MONEY
    requires pays == price - OwnBid(who, w.houses[h][k])
    requires w.houses[h][k].bidder == 0 ==> w.houses[h][k].bid == 0
    ensures
      var a := w.houses[h][k];
      Bid(w, c, who, h, k, price) ==
      w.(houses := w.houses[h := w.houses[h][k := a.(bidder := who, bid := price)]],
         money := w.money[who := w.money[who] - pays],
         mails := w.mails + Outbid(c, who, a),
         sink := w.sink + Lapsed(c, who, a))
  {
    MoneyExact(w.money[who], pays);
    assert w.mails + [] == w.mails;
  }

  /** A price short of the buyout takes the lead: the auction stands in the bidder's name at that
      price, paid for but for its own standing bid, and the bidder before is sent its bid. */
  lemma BidWorld(w: World, c: Context, who: nat, h: nat, k: nat, price: nat, pays: int)
    requires Acts(w, c, who) && h < 3 && Ok(w, c.rate) && k < |w.houses[h]| && w.houses[h][k].id != 0
    requires var a := w.houses[h][k]; Welcome(c, who, w.money[who], a, price) && (a.buyout == 0 || price < a.buyout)
    requires pays == price - OwnBid(who, w.houses[h][k])
    ensures
      var a := w.houses[h][k];
      && 0 < pays <= w.money[who]
      && PlaceBid(w, c, who, h, a.id, price) ==
         (w.(houses := w.houses[h := w.houses[h][k := a.(bidder := who, bid := price)]],
             money := w.money[who := w.money[who] - pays],
             mails := w.mails + Outbid(c, who, a),
             sink := w.sink + Lapsed(c, who, a)), Done)
  {
    var a := w.houses[h][k];
    Live(w, c.rate, h, k);
    FindAt(w, c.rate, h, k);
    LeadWorld(w, c, who, h, k, price, pays);
    assert PlaceBid(w, c, who, h, a.id, price) == (Bid(w, c, who, h, k, price), Done);
  }

  // ----- buyouts -----

  /** What the seller hears of a sale: that money is coming, and the money. */
  function SellerMails(c: Context, a: Auction, profit: int): seq<Mail> {
    if Exists(c, a.owner) && profit >= 0 then [Mail(a.owner, 0, None), Mail(a.owner, profit, None)] else []
  }

  lemma CloseSaleWorld(w: World, c: Context, a: Auction, cut: int)
    requires 0 <= Cut(a, c.rate) == cut <= a.bid && a.bid + a.deposit < UINT32_LIMIT && a.item in w.aItems
             && a.bidder in c.online
    ensures CloseSale(w, c, a) ==
            w.(mails := w.mails + SellerMails(c, a, a.bid + a.deposit - cut) + [Mail(a.bidder, 0, Some(a.item))],
               sink := w.sink + if Exists(c, a.owner) then cut else a.bid + a.deposit)
  {
    var w1 := SalePending(w, c, a);
    if Exists(c, a.owner) {
      assert w1.mails == w.mails + [Mail(a.owner, 0, None)];
      SuccessfulEffect(w1, c, a);
      assert Successful(w1, c, a).mails == w.mails + SellerMails(c, a, a.bid + a.deposit - cut);
    } else {
      assert w.mails + [] == w.mails;
    }
  }

  lemma ChargeWorld(w: World, c: Context, who: nat, a: Auction, pays: int)
    requires 0 < who < |w.money| && 0 <= pays <= w.money[who] <= MAX_MONEY
    requires a.bid < a.buyout && pays == a.buyout - OwnBid(who, a)
    ensures Charge(w, c, who, a) ==
            w.(money := w.money[who := w.money[who] - pays], mails := w.mails + Outbid(c, who, a), sink := w.sink + Lapsed(c, who, a))
  {
    MoneyExact(w.money[who], pays);
    assert w.mails + [] == w.mails;
  }

  lemma SettleWorld(w: World, c: Context, who: nat, a: Auction, pays: int, cut: int)
    requires 0 < who < |w.money| && who in c.online && 0 <= pays <= w.money[who] <= MAX_MONEY && a.item in w.aItems
    requires a.bid < a.buyout && pays == a.buyout - OwnBid(who, a)
    requires 0 <= Cut(a.(bidder := who, bid := a.buyout), c.rate) == cut <= a.buyout
             && a.buyout + a.deposit < UINT32_LIMIT
    ensures
      Settle(w, c, who, a) ==
      w.(money := w.money[who := w.money[who] - pays],
         mails := w.mails + Outbid(c, who, a) + SellerMails(c, a, a.buyout + a.deposit - cut) + [Mail(who, 0, Some(a.item))],
         sink := w.sink + Lapsed(c, who, a) + if Exists(c, a.owner) then cut else a.buyout + a.deposit)
  {
    ChargeWorld(w, c, who, a, pays);
    CloseSaleWorld(Charge(w, c, who, a), c, a.(bidder := who, bid := a.buyout), cut);
  }

  lemma BuyoutTaken(w: World, c: Context, who: nat, h: nat, k: nat, price: nat)
    requires Acts(w, c, who) && h < 3 && Ok(w, c.rate) && k < |w.houses[h]| && w.houses[h][k].id != 0
    requires var a := w.houses[h][k]; Welcome(c, who, w.money[who], a, price) && 0 < a.buyout <= price
    requires Cut(w.houses[h][k].(bidder := who, bid := w.houses[h][k].buyout), c.rate) >= 0
    ensures PlaceBid(w, c, who, h, w.houses[h][k].id, price) == (Buyout(w, c, who, h, k), Done)
  {
    FindAt(w, c.rate, h, k);
  }

  lemma BuyoutBounds(w: World, c: Context, who: nat, h: nat, k: nat, price: nat, pays: int, cut: int)
    requires Acts(w, c, who) && h < 3 && Ok(w, c.rate) && k < |w.houses[h]|
    requires var a := w.houses[h][k]; Welcome(c, who, w.money[who], a, price) && 0 < a.buyout <= price
    requires pays == w.houses[h][k].buyout - OwnBid(who, w.houses[h][k])
    requires cut == Cut(w.houses[h][k].(bid := w.houses[h][k].buyout), c.rate)
    ensures
      var a := w.houses[h][k];
      && a.item in w.aItems && a.bid < a.buyout && 0 < pays <= w.money[who] <= MAX_MONEY
      && a.buyout + a.deposit < UINT32_LIMIT
      && 0 <= cut == Cut(a.(bidder := who, bid := a.buyout), c.rate) <= a.buyout
  {
    Live(w, c.rate, h, k);
    CutBound(w.houses[h][k].(bidder := who, bid := w.houses[h][k].buyout), c.rate);
  }

  /** A price that reaches the buyout ends the auction: it is gone from its house, the buyer has paid
      the buyout less its own bid, and everybody has been sent what is theirs. */
  lemma BuyoutWorld(w: World, c: Context, who: nat, h: nat, k: nat, price: nat, pays: int, cut: int)
    requires Acts(w, c, who) && h < 3 && Ok(w, c.rate) && k < |w.houses[h]| && w.houses[h][k].id != 0
    requires var a := w.houses[h][k]; Welcome(c, who, w.money[who], a, price) && 0 < a.buyout <= price
    requires pays == w.houses[h][k].buyout - OwnBid(who, w.houses[h][k])
    requires cut == Cut(w.houses[h][k].(bid := w.houses[h][k].buyout), c.rate)
    ensures
      var a := w.houses[h][k];
      && 0 < pays <= w.money[who] && 0 <= cut <= a.buyout
      && PlaceBid(w, c, who, h, a.id, price) ==
         (w.(houses := w.houses[h := w.houses[h][..k] + w.houses[h][k + 1..]],
             aItems := w.aItems - {a.item},
             money := w.money[who := w.money[who] - pays],
             mails := w.mails + Outbid(c, who, a) + SellerMails(c, a, a.buyout + a.deposit - cut) + [Mail(who, 0, Some(a.item))],
             sink := w.sink + Lapsed(c, who, a) + if Exists(c, a.owner) then cut else a.buyout + a.deposit), Done)
  {
    var a := w.houses[h][k];
    BuyoutBounds(w, c, who, h, k, price, pays, cut);
    SettleWorld(w, c, who, a, pays, cut);
    BuyoutTaken(w, c, who, h, k, price);
  }

  // ----- sales -----

  /** An item that may go up for auction. */
  predicate Sellable(w: World, who: nat, r: SellRequest)
    requires who < |w.money|
  {
    && r.item != 0 && r.bid != 0 && r.minutes != 0
    && (r.minutes * 60 % 0x1_0000_0000 == 43200 || r.minutes * 60 % 0x1_0000_0000 == 86400 || r.minutes * 60 % 0x1_0000_0000 == 172800)
    && r.item !in w.aItems && r.item in w.bags && w.bags[r.item] == who && r.tradable && r.deposit <= w.money[who]
  }

  /** Exactly the sellable items are put up, and the world changes for nothing else. */
  lemma SellAnswered(w: World, c: Context, who: nat, h: nat, r: SellRequest)
    requires Acts(w, c, who) && h < 3 && Ok(w, c.rate)
    ensures
      var (w', reply) := Sell(w, c, who, h, r);
      && (reply == Done <==> Sellable(w, who, r))
      && (reply != Done ==> w' == w)
      && (reply == Done ==>
            w' == w.(houses := w.houses[h := w.houses[h] +
                       [Auction(w.nextId, r.item, who, r.bid, 0, 0, r.buyout, c.now + r.duration, r.deposit, r.cutPercent)]],
                     aItems := w.aItems + {r.item}, bags := w.bags - {r.item},
                     money := w.money[who := w.money[who] - r.deposit], nextId := w.nextId + 1))
  {
    if r.deposit <= w.money[who] {
      MoneyExact(w.money[who], r.deposit);
    }
  }

  /** The reasons a seller is given: the item is up already, is not in the seller's bags, may not be
      traded, or the deposit is not in the purse. */
  lemma SellRefused(w: World, c: Context, who: nat, h: nat, r: SellRequest)
    requires Acts(w, c, who) && h < 3 && r.item != 0 && r.bid != 0 && r.minutes in {720, 1440, 2880}
    ensures
      var reply := Sell(w, c, who, h, r).1;
      var own := r.item in w.bags && w.bags[r.item] == who;
      && reply != Silent
      && (reply == Refused(ItemNotFound) <==> r.item !in w.aItems && !own)
      && (reply == Refused(InternalError) <==> r.item in w.aItems || (own && !r.tradable))
      && (reply == Refused(NotEnoughMoney) <==> r.item !in w.aItems && own && r.tradable && r.deposit > w.money[who])
  {
  }

  // ----- cancellations -----

  function CutDue(a: Auction, rate: real): int {
    if a.bidder == 0 then 0 else Cut(a, rate)
  }

  /** The seller gets an auction of its own back if its purse can bear the cut of a standing bid. */
  lemma CancelAnswered(w: World, c: Context, who: nat, h: nat, id: nat)
    requires Acts(w, c, who) && h < 3 && Ok(w, c.rate)
    ensures
      var (w', reply) := Cancel(w, c, who, h, id);
      && (reply == Done <==> ListedAs(w, h, id, (a: Auction) => a.owner == who && CutDue(a, c.rate) <= w.money[who]))
      && (reply == Silent <==> ListedAs(w, h, id, (a: Auction) => a.owner == who && CutDue(a, c.rate) > w.money[who]))
      && (reply == Silent || reply == Done || reply == Refused(InternalError))
      && (reply != Done ==> w' == w)
  {
    var k := Find(w.houses[h], id);
    forall j | 0 <= j < |w.houses[h]| && w.houses[h][j].id == id ensures j == k {
      FindAt(w, c.rate, h, j);
    }
    if k < |w.houses[h]| {
      Live(w, c.rate, h, k);
    }
  }

  lemma WithdrawWorld(w: World, c: Context, who: nat, a: Auction, cut: int)
    requires 0 < who < |w.money| && 0 <= cut <= w.money[who] <= MAX_MONEY && a.owner == who != a.bidder
    requires Cut(a, c.rate) >= 0 && cut == CutDue(a, c.rate)
    ensures
      Withdraw(w, c, who, a) ==
      w.(money := w.money[who := w.money[who] - cut],
         mails := w.mails + Outbid(c, who, a) + [Mail(who, 0, Some(a.item))],
         sink := w.sink + Lapsed(c, who, a) + cut + a.deposit)
  {
    MoneyExact(w.money[who], cut);
    assert w.mails + [] == w.mails && w.money[who := w.money[who]] == w.money;
  }

  /** A cancelled auction is gone from its house; the bidder is sent its bid, and the seller the item
      for the cut and the deposit. */
  lemma CancelWorld(w: World, c: Context, who: nat, h: nat, k: nat, cut: int)
    requires Acts(w, c, who) && h < 3 && Ok(w, c.rate) && k < |w.houses[h]| && w.houses[h][k].owner == who
    requires cut == CutDue(w.houses[h][k], c.rate) <= w.money[who]
    ensures
      var a := w.houses[h][k];
      && 0 <= cut <= a.bid
      && Cancel(w, c, who, h, a.id) ==
         (w.(houses := w.houses[h := w.houses[h][..k] + w.houses[h][k + 1..]],
             aItems := w.aItems - {a.item},
             money := w.money[who := w.money[who] - cut],
             mails := w.mails + Outbid(c, who, a) + [Mail(who, 0, Some(a.item))],
             sink := w.sink + Lapsed(c, who, a) + cut + a.deposit), Done)
  {
    var a := w.houses[h][k];
    Live(w, c.rate, h, k);
    FindAt(w, c.rate, h, k);
    CutBound(a, c.rate);
    WithdrawWorld(w, c, who, a, cut);
    assert Cancel(w, c, who, h, a.id) == (Clear(Withdraw(w, c, who, a), h, k), Done);
  }

  // ----- the end of auctions -----

  /** Who hears of an auction whose time is over: without a bid the seller gets the item back; else
      the seller is sent bid and deposit less the cut, and the winner the item. */
  function Notices(c: Context, a: Auction, cut: int): seq<Mail> {
    if a.bidder == 0 then if Exists(c, a.owner) then [Mail(a.owner, 0, Some(a.item))] else []
    else (if Exists(c, a.owner) && a.bid + a.deposit >= cut then [Mail(a.owner, a.bid + a.deposit - cut, None)] else [])
         + (if Exists(c, a.bidder) then [Mail(a.bidder, 0, Some(a.item))] else [])
  }

  /** An item whose receiver is gone is destroyed. */
  function Scrapped(c: Context, a: Auction): multiset<nat> {
    if Exists(c, if a.bidder == 0 then a.owner else a.bidder) then multiset{} else multiset{a.item}
  }

  /** What the house keeps: the deposit of an auction without a bid, the cut of a sale, and all of it
      when the seller is gone. */
  function Kept(c: Context, a: Auction, cut: int): int {
    if a.bidder == 0 then a.deposit else if Exists(c, a.owner) then cut else a.bid + a.deposit
  }

  lemma ExpireWorld(w: World, c: Context, h: nat, k: nat, cut: int)
    requires h < |w.houses| && k < |w.houses[h]| && c.rate >= 0.0 && w.houses[h][k].item in w.aItems
    requires var a := w.houses[h][k]; 0 <= Cut(a, c.rate) == cut <= a.bid && a.bid + a.deposit < UINT32_LIMIT
    ensures
      var a := w.houses[h][k];
      Clear(Expire(w, c, a), h, k) ==
      w.(houses := w.houses[h := w.houses[h][..k] + w.houses[h][k + 1..]], aItems := w.aItems - {a.item},
         mails := w.mails + Notices(c, a, cut), destroyed := w.destroyed + Scrapped(c, a), sink := w.sink + Kept(c, a, cut))
  {
    var a := w.houses[h][k];
    assert w.mails + [] == w.mails && w.destroyed + multiset{} == w.destroyed;
    assert w.aItems - {a.item} - {a.item} == w.aItems - {a.item};
    if a.bidder != 0 {
      ProfitExact(a, c.rate);
    }
  }

  function AllNotices(c: Context, s: seq<Auction>): seq<Mail> {
    if s == [] then [] else (if c.now > s[0].expireTime then Notices(c, s[0], Cut(s[0], c.rate)) else []) + AllNotices(c, s[1..])
  }

  function AllScrapped(c: Context, s: seq<Auction>): multiset<nat> {
    if s == [] then multiset{} else (if c.now > s[0].expireTime then Scrapped(c, s[0]) else multiset{}) + AllScrapped(c, s[1..])
  }

  function AllKept(c: Context, s: seq<Auction>): int {
    if s == [] then 0 else (if c.now > s[0].expireTime then Kept(c, s[0], Cut(s[0], c.rate)) else 0) + AllKept(c, s[1..])
  }

  /** All concerned with the overdue auctions of a list have been told, and nothing else has moved. */
  ghost predicate Told(c: Context, w: World, w': World, s: seq<Auction>) {
    && w'.mails == w.mails + AllNotices(c, s) && w'.destroyed == w.destroyed + AllScrapped(c, s)
    && w'.sink == w.sink + AllKept(c, s) && w'.money == w.money && w'.bags == w.bags && w'.nextId == w.nextId
  }

  lemma TellOne(c: Context, w: World, w1: World, w': World, s: seq<Auction>, cut: int)
    requires s != [] && c.now > s[0].expireTime && cut == Cut(s[0], c.rate)
    requires w1.mails == w.mails + Notices(c, s[0], cut) && w1.destroyed == w.destroyed + Scrapped(c, s[0])
    requires w1.sink == w.sink + Kept(c, s[0], cut) && w1.money == w.money && w1.bags == w.bags && w1.nextId == w.nextId
    requires Told(c, w1, w', s[1..])
    ensures Told(c, w, w', s)
  {
    MailsJoin(w.mails, Notices(c, s[0], cut), AllNotices(c, s[1..]));
  }

  lemma MailsJoin(a: seq<Mail>, b: seq<Mail>, c: seq<Mail>)
    ensures a + b + c == a + (b + c)
  {
  }

  lemma TellNone(c: Context, w: World, w': World, s: seq<Auction>)
    requires if s == [] then w' == w else c.now <= s[0].expireTime && Told(c, w, w', s[1..])
    ensures Told(c, w, w', s)
  {
    if s == [] {
      assert w.mails + [] == w.mails && w.destroyed + multiset{} == w.destroyed;
    } else {
      assert [] + AllNotices(c, s[1..]) == AllNotices(c, s[1..]);
      assert multiset{} + AllScrapped(c, s[1..]) == AllScrapped(c, s[1..]);
    }
  }

  lemma OneExpires(w: World, c: Context, h: nat, k: nat, cut: int)
    requires Ok(w, c.rate) && h < 3 && k < |w.houses[h]| && cut == Cut(w.houses[h][k], c.rate)
    ensures
      var a := w.houses[h][k];
      var w1 := Clear(Expire(w, c, a), h, k);
      && Ok(w1, c.rate) && w1.houses == w.houses[h := w.houses[h][..k] + w.houses[h][k + 1..]]
      && w1.mails == w.mails + Notices(c, a, cut) && w1.destroyed == w.destroyed + Scrapped(c, a)
      && w1.sink == w.sink + Kept(c, a, cut) && w1.money == w.money && w1.bags == w.bags && w1.nextId == w.nextId
  {
    Live(w, c.rate, h, k);
    CutBound(w.houses[h][k], c.rate);
    ExpireWorld(w, c, h, k, cut);
    ExpireOk(w, c, h, k);
  }

  /** A sweep sends exactly the mails of the overdue auctions, in the order of their ids. */
  lemma {:induction false} SweepTells(w: World, c: Context, h: nat, i: nat)
    requires Ok(w, c.rate) && h < 3 && i <= |w.houses[h]|
    ensures Told(c, w, SweepFrom(w, c, h, i), w.houses[h][i..])
    decreases |w.houses[h]| - i
  {
    var s := w.houses[h][i..];
    if i == |w.houses[h]| {
      TellNone(c, w, w, s);
    } else {
      var a := w.houses[h][i];
      assert s[1..] == w.houses[h][i + 1..];
      if c.now > a.expireTime {
        var w1 := Clear(Expire(w, c, a), h, i);
        var cut := Cut(a, c.rate);
        OneExpires(w, c, h, i, cut);
        assert w1.houses[h][i..] == s[1..];
        SweepTells(w1, c, h, i);
        TellOne(c, w, w1, SweepFrom(w1, c, h, i), s, cut);
      } else {
        SweepTells(w, c, h, i + 1);
        TellNone(c, w, SweepFrom(w, c, h, i + 1), s);
      }
    }
  }

  predicate Ascending(s: seq<Auction>) {
    forall j, k :: 0 <= j < k < |s| ==> s[j].id < s[k].id
  }

  /** The auctions that stay are those whose time is not over, in their order. */
  lemma {:induction false} RunningMembers(s: seq<Auction>, c: Context, a: Auction)
    ensures a in Running(s, c) <==> a in s && c.now <= a.expireTime
    ensures Ascending(s) ==> Ascending(Running(s, c))
  {
    if s == [] {
    } else {
      RunningMembers(s[1..], c, a);
      if Ascending(s) {
        assert Ascending(s[1..]);
        forall j | 0 <= j < |Running(s[1..], c)| ensures s[0].id < Running(s[1..], c)[j].id {
          RunningFrom(s[1..], c, j);
        }
      }
    }
  }

  lemma {:induction false} RunningFrom(s: seq<Auction>, c: Context, j: nat)
    requires j < |Running(s, c)|
    ensures Running(s, c)[j] in s && c.now <= Running(s, c)[j].expireTime
  {
    if s != [] {
      if c.now > s[0].expireTime {
        RunningFrom(s[1..], c, j);
      } else if j > 0 {
        RunningFrom(s[1..], c, j - 1);
      }
    }
  }

  /** A tick of the auction house: in each house the overdue auctions end, the others stay, and
      everybody concerned is told. */
  lemma SweepWorld(w: World, c: Context)
    requires Ok(w, c.rate)
    ensures
      var w' := Sweep(w, c);
      && w'.mails == w.mails + AllNotices(c, w.houses[0]) + AllNotices(c, w.houses[1]) + AllNotices(c, w.houses[2])
      && w'.sink == w.sink + AllKept(c, w.houses[0]) + AllKept(c, w.houses[1]) + AllKept(c, w.houses[2])
      && w'.money == w.money && w'.bags == w.bags && w'.nextId == w.nextId
      && w'.houses == [Running(w.houses[0], c), Running(w.houses[1], c), Running(w.houses[2], c)]
  {
    OneSwept(w, c, 0);
    var w1 := SweepFrom(w, c, 0, 0);
    OneSwept(w1, c, 1);
    OneSwept(SweepFrom(w1, c, 1, 0), c, 2);
  }

  lemma OneSwept(w: World, c: Context, h: nat)
    requires Ok(w, c.rate) && h < 3
    ensures
      var w' := SweepFrom(w, c, h, 0);
      && Ok(w', c.rate)
      && w'.mails == w.mails + AllNotices(c, w.houses[h]) && w'.sink == w.sink + AllKept(c, w.houses[h])
      && w'.money == w.money && w'.bags == w.bags && w'.nextId == w.nextId
      && w'.houses == w.houses[h := Running(w.houses[h], c)]
  {
    var s := w.houses[h];
    SweepFromOk(w, c, h, 0);
    SweepTells(w, c, h, 0);
    SweepExact(w, c, h, 0);
    assert s[0..] == s && s[..0] + Running(s, c) == Running(s, c);
  }

  // ----- the mailbox -----

  /** Money goes from the mail to the purse, as far as it fits; more than a purse holds at all counts
      as a debt, but for one amount, which overflows. Nothing else moves. */
  lemma TakeMoneyWorld(w: World, who: nat, m: nat, sum: nat)
    requires PursesOk(w) && who < |w.money| && m < |w.mails| && sum == w.money[who] + w.mails[m].gold
    ensures
      var gold := w.mails[m].gold;
      var purse :=
        if sum <= 0x7FFF_FFFE || gold == 0x7FFF_FFFF then sum
        else if gold <= 0x7FFF_FFFE then 0x7FFF_FFFE
        else if sum > 0x1_0000_0000 then sum - 0x1_0000_0000 else 0;
      TakeMoney(w, who, m) == w.(money := w.money[who := purse], mails := w.mails[m := w.mails[m].(gold := 0)])
  {
  }

  /** The item goes from the mail into the bags of the player who takes it. */
  lemma TakeItemWorld(w: World, who: nat, m: nat)
    requires m < |w.mails| && w.mails[m].item.Some?
    ensures
      var w', item := TakeItem(w, who, m), w.mails[m].item.value;
      && item in w'.bags && w'.bags[item] == who && w'.mails[m] == Mail(w.mails[m].to, w.mails[m].gold, None)
      && w' == w.(bags := w'.bags, mails := w'.mails)
      && (forall g :: g != item ==> (g in w'.bags <==> g in w.bags) && (g in w.bags ==> w'.bags[g] == w.bags[g]))
      && |w'.mails| == |w.mails| && (forall j :: 0 <= j < |w.mails| && j != m ==> w'.mails[j] == w.mails[j])
  {
  }

  // ----- searching -----

  /** A search finds exactly the auctions that have their item and are wanted, in the order of their
      ids. */
  lemma {:induction false} MatchingMembers(s: seq<Auction>, aItems: set<nat>, wanted: Auction -> bool, a: Auction)
    ensures a in Matching(s, aItems, wanted) <==> a in s && a.item in aItems && wanted(a)
  {
    if s == [] {
    } else {
      assert s == s[..|s| - 1] + [s[|s| - 1]];
      MatchingMembers(s[..|s| - 1], aItems, wanted, a);
    }
  }

  lemma {:induction false} MatchingAscends(s: seq<Auction>, aItems: set<nat>, wanted: Auction -> bool)
    requires Ascending(s)
    ensures Ascending(Matching(s, aItems, wanted))
  {
    if s == [] {
    } else {
      var front, last := s[..|s| - 1], s[|s| - 1];
      MatchingAscends(front, aItems, wanted);
      forall j | 0 <= j < |Matching(front, aItems, wanted)| ensures Matching(front, aItems, wanted)[j].id < last.id {
        MatchingMembers(front, aItems, wanted, Matching(front, aItems, wanted)[j]);
      }
    }
  }

  /** A page is the fifty matches from the offset on, or what there is of them. */
  lemma PageIs(all: seq<Auction>, from: nat, j: nat)
    ensures |Page(all, from)| == if |all| <= from then 0 else if |all| <= from + 50 then |all| - from else 50
    ensures j < |Page(all, from)| ==> Page(all, from)[j] == all[from + j]
  {
  }

  // ----- the fate of an auction -----

  /** The same offer, perhaps with a higher bid. */
  predicate SameOffer(a: Auction, b: Auction) {
    b == a.(bidder := b.bidder, bid := b.bid) && b.bid >= a.bid && (b.bid == a.bid ==> b.bidder == a.bidder)
  }

  ghost predicate Stands(w: World, h: nat, a: Auction)
    requires h < |w.houses|
  {
    exists k :: 0 <= k < |w.houses[h]| && SameOffer(a, w.houses[h][k])
  }

  ghost predicate Listed(w: World, h: nat, id: nat)
    requires h < |w.houses|
  {
    exists k :: 0 <= k < |w.houses[h]| && w.houses[h][k].id == id
  }

  /** What ends an auction: somebody buys it out, its seller cancels it and can bear the cut, or its
      time is over. */
  predicate Closes(w: World, rate: real, e: Event, h: nat, a: Auction) {
    Possible(w, rate, e) &&
    match e
    case Bidding(c, who, h', id, price) =>
      h' == h && id == a.id && id != 0 && Welcome(c, who, w.money[who], a, price) && 0 < a.buyout <= price
    case Cancelling(c, who, h', id) => h' == h && id == a.id && a.owner == who && CutDue(a, c.rate) <= w.money[who]
    case Sweeping(c) => c.now > a.expireTime
    case _ => false
  }

  lemma Unlisted(w: World, rate: real, h: nat, k: nat, s: seq<Auction>)
    requires HousesOk(w, rate) && h < 3 && k < |w.houses[h]| && s == w.houses[h][..k] + w.houses[h][k + 1..]
    ensures forall j :: 0 <= j < |s| ==> s[j].id != w.houses[h][k].id
    ensures forall j :: 0 <= j < |w.houses[h]| && j != k ==> w.houses[h][j] in s
  {
    assert HouseOk(w, rate, w.houses[h]);
    forall j | 0 <= j < |w.houses[h]| && j != k ensures w.houses[h][j] in s {
      assert s[if j < k then j else j - 1] == w.houses[h][j];
    }
  }

  /** A step that leaves the houses alone, or changes one auction of one house. */
  lemma Untouched(w: World, w': World, h: nat, j: nat, g: nat, k: nat)
    requires |w.houses| == 3 && h < 3 && g < 3 && k < |w.houses[g]| && j < |w.houses[h]| && (g != h || k != j)
    requires w'.houses == w.houses
             || w'.houses == w.houses[h := w.houses[h][..j] + w.houses[h][j + 1..]]
             || (|w'.houses| == 3 && |w'.houses[h]| == |w.houses[h]| && w'.houses == w.houses[h := w.houses[h][j := w'.houses[h][j]]])
    ensures |w'.houses| == 3 && Stands(w', g, w.houses[g][k])
  {
    var a := w.houses[g][k];
    assert SameOffer(a, a);
    if g != h || |w'.houses[h]| == |w.houses[h]| {
      assert w'.houses[g][k] == a;
    } else {
      assert w'.houses[g][if k < j then k else k - 1] == a;
    }
  }

  /** A bid on an auction: it is bought out, or stands. */
  lemma BidOwnFate(w: World, c: Context, who: nat, h: nat, k: nat, price: nat)
    requires Acts(w, c, who) && h < 3 && Ok(w, c.rate) && k < |w.houses[h]|
    ensures
      var a := w.houses[h][k];
      var w' := PlaceBid(w, c, who, h, a.id, price).0;
      && |w'.houses| == 3
      && if a.id != 0 && Welcome(c, who, w.money[who], a, price) && 0 < a.buyout <= price then !Listed(w', h, a.id)
         else Stands(w', h, a)
  {
    var a := w.houses[h][k];
    var w' := PlaceBid(w, c, who, h, a.id, price).0;
    FindAt(w, c.rate, h, k);
    assert SameOffer(a, a);
    if a.id == 0 || !Welcome(c, who, w.money[who], a, price) {
      BidAnswered(w, c, who, h, a.id, price);
    } else if 0 < a.buyout <= price {
      BuyoutWorld(w, c, who, h, k, price, a.buyout - OwnBid(who, a), Cut(a.(bid := a.buyout), c.rate));
      Unlisted(w, c.rate, h, k, w'.houses[h]);
    } else {
      BidWorld(w, c, who, h, k, price, price - OwnBid(who, a));
      assert SameOffer(a, w'.houses[h][k]);
    }
  }

  /** What a bid changes of the houses: nothing, or the one auction it is on. */
  lemma BidTouches(w: World, c: Context, who: nat, h: nat, j: nat, id: nat, price: nat)
    requires Acts(w, c, who) && h < 3 && Ok(w, c.rate) && j == Find(w.houses[h], id)
    ensures
      var w' := PlaceBid(w, c, who, h, id, price).0;
      && w'.nextId == w.nextId
      && if j == |w.houses[h]| then w' == w
         else || w'.houses == w.houses
              || w'.houses == w.houses[h := w.houses[h][..j] + w.houses[h][j + 1..]]
              || (|w'.houses| == 3 && |w'.houses[h]| == |w.houses[h]| && w'.houses[h][j].id == id
                  && w'.houses == w.houses[h := w.houses[h][j := w'.houses[h][j]]])
  {
    BidAnswered(w, c, who, h, id, price);
    if PlaceBid(w, c, who, h, id, price).1 == Done {
      var b := w.houses[h][j];
      if 0 < b.buyout <= price {
        BuyoutWorld(w, c, who, h, j, price, b.buyout - OwnBid(who, b), Cut(b.(bid := b.buyout), c.rate));
      } else {
        BidWorld(w, c, who, h, j, price, price - OwnBid(who, b));
      }
    }
  }

  lemma BidFate(w: World, c: Context, who: nat, h: nat, id: nat, price: nat, g: nat, k: nat)
    requires Acts(w, c, who) && h < 3 && g < 3 && Ok(w, c.rate) && k < |w.houses[g]|
    ensures
      var w', a := PlaceBid(w, c, who, h, id, price).0, w.houses[g][k];
      && |w'.houses| == 3
      && if g == h && id == a.id && id != 0 && Welcome(c, who, w.money[who], a, price) && 0 < a.buyout <= price then !Listed(w', g, a.id)
         else Stands(w', g, a)
  {
    if g == h && id == w.houses[g][k].id {
      BidOwnFate(w, c, who, h, k, price);
    } else {
      var j := Find(w.houses[h], id);
      BidTouches(w, c, who, h, j, id, price);
      assert SameOffer(w.houses[g][k], w.houses[g][k]);
      if j < |w.houses[h]| {
        Untouched(w, PlaceBid(w, c, who, h, id, price).0, h, j, g, k);
      }
    }
  }

  lemma SellFate(w: World, c: Context, who: nat, h: nat, r: SellRequest, g: nat, k: nat)
    requires Acts(w, c, who) && h < 3 && g < 3 && Ok(w, c.rate) && k < |w.houses[g]|
    ensures var w' := Sell(w, c, who, h, r).0; |w'.houses| == 3 && Stands(w', g, w.houses[g][k])
  {
    SellAnswered(w, c, who, h, r);
    assert SameOffer(w.houses[g][k], Sell(w, c, who, h, r).0.houses[g][k]);
  }

  lemma CancelOwnFate(w: World, c: Context, who: nat, h: nat, k: nat)
    requires Acts(w, c, who) && h < 3 && Ok(w, c.rate) && k < |w.houses[h]|
    ensures
      var a := w.houses[h][k];
      var w' := Cancel(w, c, who, h, a.id).0;
      |w'.houses| == 3 && if a.owner == who && CutDue(a, c.rate) <= w.money[who] then !Listed(w', h, a.id) else Stands(w', h, a)
  {
    var a := w.houses[h][k];
    FindAt(w, c.rate, h, k);
    assert SameOffer(a, a);
    if a.owner == who && CutDue(a, c.rate) <= w.money[who] {
      CancelWorld(w, c, who, h, k, CutDue(a, c.rate));
      Unlisted(w, c.rate, h, k, Cancel(w, c, who, h, a.id).0.houses[h]);
    } else {
      CancelAnswered(w, c, who, h, a.id);
    }
  }

  /** What a cancellation changes of the houses: nothing, or it takes the auction out. */
  lemma CancelTouches(w: World, c: Context, who: nat, h: nat, j: nat, id: nat)
    requires Acts(w, c, who) && h < 3 && Ok(w, c.rate) && j == Find(w.houses[h], id)
    ensures
      var w' := Cancel(w, c, who, h, id).0;
      && w'.nextId == w.nextId
      && if j == |w.houses[h]| then w' == w
         else w'.houses == w.houses || w'.houses == w.houses[h := w.houses[h][..j] + w.houses[h][j + 1..]]
  {
    CancelAnswered(w, c, who, h, id);
    if Cancel(w, c, who, h, id).1 == Done {
      CancelWorld(w, c, who, h, j, CutDue(w.houses[h][j], c.rate));
    }
  }

  lemma CancelFate(w: World, c: Context, who: nat, h: nat, id: nat, g: nat, k: nat)
    requires Acts(w, c, who) && h < 3 && g < 3 && Ok(w, c.rate) && k < |w.houses[g]|
    ensures
      var w', a := Cancel(w, c, who, h, id).0, w.houses[g][k];
      && |w'.houses| == 3
      && if g == h && id == a.id && a.owner == who && CutDue(a, c.rate) <= w.money[who] then !Listed(w', g, a.id)
         else Stands(w', g, a)
  {
    if g == h && id == w.houses[g][k].id {
      CancelOwnFate(w, c, who, h, k);
    } else {
      var j := Find(w.houses[h], id);
      CancelTouches(w, c, who, h, j, id);
      assert SameOffer(w.houses[g][k], w.houses[g][k]);
      if j < |w.houses[h]| {
        Untouched(w, Cancel(w, c, who, h, id).0, h, j, g, k);
      }
    }
  }

  lemma SweepFate(w: World, c: Context, g: nat, k: nat)
    requires Ok(w, c.rate) && g < 3 && k < |w.houses[g]|
    ensures
      var w', a := Sweep(w, c), w.houses[g][k];
      && |w'.houses| == 3
      && if c.now > a.expireTime then !Listed(w', g, a.id) else Stands(w', g, a)
  {
    var w', a := Sweep(w, c), w.houses[g][k];
    SweepWorld(w, c);
    var s := Running(w.houses[g], c);
    assert w'.houses[g] == s;
    if c.now > a.expireTime {
      forall j | 0 <= j < |s| ensures s[j].id != a.id {
        RunningFrom(w.houses[g], c, j);
        SameId(w, c.rate, g, k, s[j]);
      }
    } else {
      RunningMembers(w.houses[g], c, a);
      assert SameOffer(a, a);
    }
  }

  lemma SameId(w: World, rate: real, g: nat, k: nat, b: Auction)
    requires HousesOk(w, rate) && g < 3 && k < |w.houses[g]| && b in w.houses[g]
    ensures b.id == w.houses[g][k].id ==> b == w.houses[g][k]
  {
    assert HouseOk(w, rate, w.houses[g]);
  }

  lemma StepFate(w: World, rate: real, e: Event, g: nat, k: nat)
    requires Ok(w, rate) && g < 3 && k < |w.houses[g]|
    ensures
      var w', a := Apply(w, rate, e), w.houses[g][k];
      && |w'.houses| == 3
      && if Closes(w, rate, e, g, a) then !Listed(w', g, a.id) else Stands(w', g, a)
  {
    assert SameOffer(w.houses[g][k], w.houses[g][k]);
    if Possible(w, rate, e) {
      match e {
        case Selling(c, who, h, r) => SellFate(w, c, who, h, r, g, k);
        case Bidding(c, who, h, id, price) => BidFate(w, c, who, h, id, price, g, k);
        case Cancelling(c, who, h, id) => CancelFate(w, c, who, h, id, g, k);
        case Sweeping(c) => SweepFate(w, c, g, k);
        case TakingMoney(who, m) =>
        case TakingItem(who, m) =>
      }
    }
  }

  /** Ids are not used again. */
  lemma StepFresh(w: World, rate: real, e: Event, g: nat, id: nat)
    requires Ok(w, rate) && g < 3 && !Listed(w, g, id) && id < w.nextId
    ensures var w' := Apply(w, rate, e); |w'.houses| == 3 && !Listed(w', g, id) && id < w'.nextId
  {
    if Possible(w, rate, e) {
      match e {
        case Selling(c, who, h, r) => SellAnswered(w, c, who, h, r);
        case Bidding(c, who, h, i, price) => BidFresh(w, c, who, h, i, price, g, id);
        case Cancelling(c, who, h, i) => CancelFresh(w, c, who, h, i, g, id);
        case Sweeping(c) => SweepFresh(w, c, g, id);
        case TakingMoney(who, m) =>
        case TakingItem(who, m) =>
      }
    }
  }

  lemma BidFresh(w: World, c: Context, who: nat, h: nat, i: nat, price: nat, g: nat, id: nat)
    requires Acts(w, c, who) && h < 3 && g < 3 && Ok(w, c.rate) && !Listed(w, g, id)
    ensures var w' := PlaceBid(w, c, who, h, i, price).0; |w'.houses| == 3 && !Listed(w', g, id) && w'.nextId == w.nextId
  {
    BidTouches(w, c, who, h, Find(w.houses[h], i), i, price);
  }

  lemma CancelFresh(w: World, c: Context, who: nat, h: nat, i: nat, g: nat, id: nat)
    requires Acts(w, c, who) && h < 3 && g < 3 && Ok(w, c.rate) && !Listed(w, g, id)
    ensures var w' := Cancel(w, c, who, h, i).0; |w'.houses| == 3 && !Listed(w', g, id) && w'.nextId == w.nextId
  {
    CancelTouches(w, c, who, h, Find(w.houses[h], i), i);
  }

  lemma SweepFresh(w: World, c: Context, g: nat, id: nat)
    requires Ok(w, c.rate) && g < 3 && !Listed(w, g, id)
    ensures var w' := Sweep(w, c); |w'.houses| == 3 && !Listed(w', g, id) && w'.nextId == w.nextId
  {
    SweepWorld(w, c);
    var s := Running(w.houses[g], c);
    assert Sweep(w, c).houses[g] == s;
    forall j | 0 <= j < |s| ensures s[j].id != id {
      RunningFrom(w.houses[g], c, j);
    }
  }

  ghost predicate ClosedInRun(w: World, rate: real, es: seq<Event>, h: nat, id: nat)
    requires rate >= 0.0 && InOrder(w, rate, es) && h < 3
    decreases |es|
  {
    es != []
    && (ListedAs(w, h, id, a => Closes(w, rate, es[0], h, a)) || ClosedInRun(Apply(w, rate, es[0]), rate, es[1..], h, id))
  }

  lemma {:induction false} RunFresh(w: World, rate: real, es: seq<Event>, h: nat, id: nat)
    requires rate >= 0.0 && InOrder(w, rate, es) && h < 3 && !Listed(w, h, id) && id < w.nextId
    ensures |Run(w, rate, es).houses| == 3 && !Listed(Run(w, rate, es), h, id) && !ClosedInRun(w, rate, es, h, id)
    decreases |es|
  {
    if es == [] {
    } else {
      StepFresh(w, rate, es[0], h, id);
      RunFresh(Apply(w, rate, es[0]), rate, es[1..], h, id);
    }
  }

  /** An auction is listed until it is bought out, cancelled by its seller or overdue at a tick, and
      no longer; until then its terms stay and its bid only rises. */
  lemma {:induction false} RunFate(w: World, rate: real, es: seq<Event>, h: nat, k: nat)
    requires rate >= 0.0 && InOrder(w, rate, es) && h < 3 && k < |w.houses[h]|
    ensures |Run(w, rate, es).houses| == 3
    ensures
      var a := w.houses[h][k];
      if ClosedInRun(w, rate, es, h, a.id) then !Listed(Run(w, rate, es), h, a.id) else Stands(Run(w, rate, es), h, a)
    decreases |es|
  {
    var a := w.houses[h][k];
    if es == [] {
      assert SameOffer(a, a);
    } else {
      var w1 := Apply(w, rate, es[0]);
      StepFate(w, rate, es[0], h, k);
      OnlyOne(w, rate, es[0], h, k);
      if Closes(w, rate, es[0], h, a) {
        Live(w, rate, h, k);
        StepNext(w, rate, es[0]);
        RunFresh(w1, rate, es[1..], h, a.id);
      } else {
        var j :| 0 <= j < |w1.houses[h]| && SameOffer(a, w1.houses[h][j]);
        RunFate(w1, rate, es[1..], h, j);
      }
    }
  }

  lemma OnlyOne(w: World, rate: real, e: Event, h: nat, k: nat)
    requires Ok(w, rate) && h < 3 && k < |w.houses[h]|
    ensures ListedAs(w, h, w.houses[h][k].id, a => Closes(w, rate, e, h, a)) <==> Closes(w, rate, e, h, w.houses[h][k])
  {
    forall j | 0 <= j < |w.houses[h]| && w.houses[h][j].id == w.houses[h][k].id ensures j == k {
      FindAt(w, rate, h, j);
      FindAt(w, rate, h, k);
    }
  }

  lemma StepNext(w: World, rate: real, e: Event)
    requires Ok(w, rate)
    ensures Apply(w, rate, e).nextId >= w.nextId
  {
    if Possible(w, rate, e) {
      match e {
        case Selling(c, who, h, r) => SellAnswered(w, c, who, h, r);
        case Bidding(c, who, h, id, price) => BidTouches(w, c, who, h, Find(w.houses[h], id), id, price);
        case Cancelling(c, who, h, id) => CancelTouches(w, c, who, h, Find(w.houses[h], id), id);
        case Sweeping(c) => SweepWorld(w, c);
        case TakingMoney(_, _) =>
        case TakingItem(_, _) =>
      }
    }
  }
}
