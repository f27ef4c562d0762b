/** The auction house as an escrow of gold and items (src/game/AuctionHouseHandler.cpp and
    src/game/AuctionHouseMgr.cpp).

    Characters are numbered by their low guid; number 0 is nobody. A house is the sequence
    of its auctions in the order of their ids, which is the order its map is walked in. */
module AuctionHouse {
  import opened Options

  const UINT32_LIMIT: int := 0x1_0000_0000
  const MAX_MONEY: nat := 0x7FFF_FFFE
  const MIN_AUCTION_TIME: nat := 12 * 3600
  const PAGE: nat := 50

  const HORDE: nat := 0
  const ALLIANCE: nat := 1
  const NEUTRAL: nat := 2

  datatype Auction = Auction(
    id: nat, item: nat, owner: nat, startbid: nat, bidder: nat, bid: nat, buyout: nat,
    expireTime: nat, deposit: nat, cutPercent: nat)

  datatype Mail = Mail(to: nat, gold: nat, item: Option<nat>)

  /** Everything the house moves gold and items between. The bags map every held item to its
      holder; the sink counts the gold that left the economy. */
  datatype World = World(
    money: seq<nat>, houses: seq<seq<Auction>>, aItems: set<nat>, bags: map<nat, nat>,
    mails: seq<Mail>, destroyed: multiset<nat>, sink: nat, nextId: nat)

  /** The surroundings of one packet or tick: who is online, and the account of every character
      that still exists. */
  datatype Context = Context(now: nat, rate: real, online: set<nat>, accounts: map<nat, nat>)

  datatype Error = InternalError | NotEnoughMoney | ItemNotFound | CannotBidYourAuction

  /** What the client hears. */
  datatype Reply = Silent | Refused(error: Error) | Done

  datatype SellRequest = SellRequest(
    item: nat, bid: nat, buyout: nat, minutes: nat, tradable: bool, deposit: nat, cutPercent: nat, duration: nat)

  function AccountOf(c: Context, g: nat): nat {
    if g in c.accounts then c.accounts[g] else 0
  }

  predicate Exists(c: Context, g: nat) {
    g in c.online || AccountOf(c, g) != 0
  }

  function AsInt32(x: int): int
    requires 0 <= x < UINT32_LIMIT
  {
    if x < 0x8000_0000 then x else x - UINT32_LIMIT
  }

  /** Player::ModifyMoney: gold saturates at 0 and at the limit. */
  function ModifyMoney(money: nat, d: int): nat {
    if d < 0 then
      if money > -d then money + d else 0
    else if money < (MAX_MONEY - d) % UINT32_LIMIT then money + d
    else MAX_MONEY
  }

  function Debit(w: World, who: nat, amount: int): World
    requires who < |w.money|
  {
    w.(money := w.money[who := ModifyMoney(w.money[who], -AsInt32(amount % UINT32_LIMIT))])
  }

  function SendMail(w: World, to: nat, gold: nat, item: Option<nat>): World {
    w.(mails := w.mails + [Mail(to, gold, item)])
  }

  function Lose(w: World, gold: nat): World {
    w.(sink := w.sink + gold)
  }

  function Cut(a: Auction, rate: real): int {
    ((a.cutPercent * a.bid % UINT32_LIMIT) as real * rate / 100.0).Floor
  }

  function OutBid(a: Auction): nat {
    if a.bid / 100 * 5 == 0 then 1 else a.bid / 100 * 5
  }

  /** Sends the gold of a bid back to its bidder. */
  function Refund(w: World, c: Context, a: Auction): World {
    if Exists(c, a.bidder) then SendMail(w, a.bidder, a.bid, None) else Lose(w, a.bid)
  }

  function SalePending(w: World, c: Context, a: Auction): World {
    if Exists(c, a.owner) then SendMail(w, a.owner, 0, None) else w
  }

  function Profit(a: Auction, rate: real): nat {
    (a.bid + a.deposit - Cut(a, rate)) % UINT32_LIMIT
  }

  /** Pays the seller. The cut, or everything when the seller is gone, leaves the economy. */
  function Successful(w: World, c: Context, a: Auction): World
    requires Cut(a, c.rate) >= 0
  {
    if Exists(c, a.owner) then Lose(SendMail(w, a.owner, Profit(a, c.rate), None), Cut(a, c.rate))
    else Lose(w, a.bid + a.deposit)
  }

  function RemoveAItem(w: World, item: nat): World {
    w.(aItems := w.aItems - {item})
  }

  /** Hands the auctioned item to the winner, or back to the seller. */
  function HandOver(w: World, c: Context, a: Auction, to: nat): World {
    if a.item !in w.aItems then w
    else if !Exists(c, to) then RemoveAItem(w, a.item).(destroyed := w.destroyed + multiset{a.item})
    else SendMail(if to in c.online then w else RemoveAItem(w, a.item), to, 0, Some(a.item))
  }

  function Without(s: seq<Auction>, k: nat): seq<Auction>
    requires k < |s|
  {
    s[..k] + s[k + 1..]
  }

  function Clear(w: World, h: nat, k: nat): World
    requires h < |w.houses| && k < |w.houses[h]|
  {
    RemoveAItem(w, w.houses[h][k].item).(houses := w.houses[h := Without(w.houses[h], k)])
  }

  /** The position of an auction id, or the end. */
  function Find(s: seq<Auction>, id: nat): (k: nat)
    ensures k <= |s| && (k < |s| ==> s[k].id == id) && (forall j :: 0 <= j < k ==> s[j].id != id)
  {
    if s == [] || s[0].id == id then 0 else Find(s[1..], id) + 1
  }

  predicate Acts(w: World, c: Context, who: nat) {
    0 < who < |w.money| && who in c.online && |w.houses| == 3
  }

  function NewAuction(w: World, c: Context, who: nat, q: SellRequest): Auction {
    Auction(w.nextId, q.item, who, q.bid, 0, 0, q.buyout, c.now + q.duration, q.deposit, q.cutPercent)
  }

  /** Sells an item by auction: the deposit is paid, and the item leaves the bags. */
  function Sell(w: World, c: Context, who: nat, h: nat, q: SellRequest): (World, Reply)
    requires Acts(w, c, who) && h < 3
  {
    if q.item == 0 || q.bid == 0 || q.minutes == 0 then (w, Silent)
    else if q.minutes * 60 % UINT32_LIMIT !in {MIN_AUCTION_TIME, 2 * MIN_AUCTION_TIME, 4 * MIN_AUCTION_TIME} then (w, Silent)
    else if q.item in w.aItems then (w, Refused(InternalError))
    else if q.item !in w.bags || w.bags[q.item] != who then (w, Refused(ItemNotFound))
    else if !q.tradable then (w, Refused(InternalError))
    else if w.money[who] < q.deposit then (w, Refused(NotEnoughMoney))
    else
      (Debit(w, who, q.deposit).(
         nextId := w.nextId + 1,
         houses := w.houses[h := w.houses[h] + [NewAuction(w, c, who, q)]],
         aItems := w.aItems + {q.item},
         bags := w.bags - {q.item}), Done)
  }

  /** Taking the lead: the bidder before is refunded, unless it is the same one, who pays the
      difference. */
  function Bid(w: World, c: Context, who: nat, h: nat, k: nat, price: nat): World
    requires Acts(w, c, who) && h < 3 && k < |w.houses[h]|
  {
    var a := w.houses[h][k];
    var w1 :=
      if a.bidder == 0 then Debit(w, who, price)
      else if a.bidder == who then Debit(w, who, price - a.bid)
      else Debit(Refund(w, c, a), who, price);
    w1.(houses := w.houses[h := w.houses[h][k := a.(bidder := who, bid := price)]])
  }

  /** What a buyer pays now, and what the bidder before gets back. */
  function Charge(w: World, c: Context, who: nat, a: Auction): World
    requires who < |w.money|
  {
    if a.bidder == who then Debit(w, who, a.buyout - a.bid)
    else if a.bidder != 0 then Refund(Debit(w, who, a.buyout), c, a)
    else Debit(w, who, a.buyout)
  }

  /** The mails that close a bought auction. */
  function CloseSale(w: World, c: Context, a: Auction): World
    requires Cut(a, c.rate) >= 0
  {
    HandOver(Successful(SalePending(w, c, a), c, a), c, a, a.bidder)
  }

  function Settle(w: World, c: Context, who: nat, a: Auction): World
    requires who < |w.money| && Cut(a.(bidder := who, bid := a.buyout), c.rate) >= 0
  {
    CloseSale(Charge(w, c, who, a), c, a.(bidder := who, bid := a.buyout))
  }

  function Buyout(w: World, c: Context, who: nat, h: nat, k: nat): World
    requires Acts(w, c, who) && h < 3 && k < |w.houses[h]|
    requires Cut(w.houses[h][k].(bidder := who, bid := w.houses[h][k].buyout), c.rate) >= 0
  {
    Clear(Settle(w, c, who, w.houses[h][k]), h, k)
  }

  predicate PricedTooLow(a: Auction, price: nat) {
    price <= a.bid || price < a.startbid
    || ((price < a.buyout || a.buyout == 0) && price < a.bid + OutBid(a))
  }

  predicate OwnAuction(c: Context, who: nat, a: Auction) {
    a.owner == who || (a.owner !in c.online && AccountOf(c, a.owner) == AccountOf(c, who))
  }

  function PlaceBid(w: World, c: Context, who: nat, h: nat, id: nat, price: nat): (World, Reply)
    requires Acts(w, c, who) && h < 3 && c.rate >= 0.0
  {
    var k := Find(w.houses[h], id);
    if id == 0 || price == 0 then (w, Silent)
    else if k == |w.houses[h]| || OwnAuction(c, who, w.houses[h][k]) then (w, Refused(CannotBidYourAuction))
    else
      var a := w.houses[h][k];
      if PricedTooLow(a, price) || price > w.money[who] then (w, Silent)
      else if price < a.buyout || a.buyout == 0 then (Bid(w, c, who, h, k, price), Done)
      else (Buyout(w, c, who, h, k), Done)
  }

  /** The seller takes an auction back: a standing bid is refunded and costs the cut, the
      item returns, the deposit is forfeit. */
  function Withdraw(w: World, c: Context, who: nat, a: Auction): World
    requires who < |w.money| && Cut(a, c.rate) >= 0
  {
    var cut := Cut(a, c.rate);
    var w1 := if a.bidder > 0 then Lose(Debit(Refund(w, c, a), who, cut), cut) else w;
    Lose(SendMail(w1, who, 0, Some(a.item)), a.deposit)
  }

  function Cancel(w: World, c: Context, who: nat, h: nat, id: nat): (World, Reply)
    requires Acts(w, c, who) && h < 3 && c.rate >= 0.0
  {
    var k := Find(w.houses[h], id);
    if k == |w.houses[h]| || w.houses[h][k].owner != who || w.houses[h][k].item !in w.aItems then
      (w, Refused(InternalError))
    else
      var a := w.houses[h][k];
      if a.bidder > 0 && w.money[who] < Cut(a, c.rate) then (w, Silent)
      else (Clear(Withdraw(w, c, who, a), h, k), Done)
  }

  /** What happens to an auction whose time is over. Without a bid the deposit is forfeit. */
  function Expire(w: World, c: Context, a: Auction): World
    requires c.rate >= 0.0
  {
    if a.bidder == 0 then Lose(HandOver(w, c, a, a.owner), a.deposit)
    else HandOver(Successful(w, c, a), c, a, a.bidder)
  }

  predicate Overdue(c: Context, a: Auction) {
    c.now > a.expireTime
  }

  /** The sweep over one house, from one position on. */
  function SweepFrom(w: World, c: Context, h: nat, i: nat): World
    requires h < |w.houses| && i <= |w.houses[h]| && c.rate >= 0.0
    decreases |w.houses[h]| - i
  {
    if i == |w.houses[h]| then w
    else
      var a := w.houses[h][i];
      if Overdue(c, a) then SweepFrom(Clear(Expire(w, c, a), h, i), c, h, i) else SweepFrom(w, c, h, i + 1)
  }

  function Sweep(w: World, c: Context): World
    requires |w.houses| == 3 && c.rate >= 0.0
  {
    SweepKeepsHouses(w, c, HORDE, 0);
    var w1 := SweepFrom(w, c, HORDE, 0);
    SweepKeepsHouses(w1, c, ALLIANCE, 0);
    SweepFrom(SweepFrom(w1, c, ALLIANCE, 0), c, NEUTRAL, 0)
  }

  lemma {:induction false} SweepKeepsHouses(w: World, c: Context, h: nat, i: nat)
    requires h < |w.houses| && i <= |w.houses[h]| && c.rate >= 0.0
    ensures |SweepFrom(w, c, h, i).houses| == |w.houses|
    decreases |w.houses[h]| - i
  {
    if i >= |w.houses[h]| {
    } else {
      var a := w.houses[h][i];
      if Overdue(c, a) {
        SweepKeepsHouses(Clear(Expire(w, c, a), h, i), c, h, i);
      } else {
        SweepKeepsHouses(w, c, h, i + 1);
      }
    }
  }

  function TakeMoney(w: World, who: nat, m: nat): World
    requires who < |w.money| && m < |w.mails| && w.mails[m].gold < UINT32_LIMIT
  {
    w.(money := w.money[who := ModifyMoney(w.money[who], AsInt32(w.mails[m].gold))],
       mails := w.mails[m := w.mails[m].(gold := 0)])
  }

  function TakeItem(w: World, who: nat, m: nat): World
    requires m < |w.mails| && w.mails[m].item.Some?
  {
    w.(bags := w.bags[w.mails[m].item.value := who], mails := w.mails[m := w.mails[m].(item := None)])
  }

  /** The auctions a search finds: those with an item that the filter wants. */
  function Matching(s: seq<Auction>, aItems: set<nat>, wanted: Auction -> bool): seq<Auction> {
    if s == [] then []
    else
      var a := s[|s| - 1];
      Matching(s[..|s| - 1], aItems, wanted) + if a.item in aItems && wanted(a) then [a] else []
  }

  /** One page of a list, from an offset on. */
  function Page(all: seq<Auction>, from: nat): seq<Auction> {
    if from >= |all| then [] else all[from..if from + PAGE <= |all| then from + PAGE else |all|]
  }
}
