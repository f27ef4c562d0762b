/** Gold and items are conserved over every run of the auction house. */
module AuctionLedger {
  import opened Options
  import opened AuctionHouse
  import opened Reals

  // ----- what is counted -----

  /** What can be counted: the gold, or the whereabouts of one item. */
  datatype Measure = Gold | Item(guid: nat)

  function Sum(money: seq<nat>): nat {
    if money == [] then 0 else money[0] + Sum(money[1..])
  }

  function InMail(q: Measure, m: Mail): nat {
    match q
    case Gold => m.gold
    case Item(g) => if m.item == Some(g) then 1 else 0
  }

  /** A live auction holds its item, the deposit, and the standing bid. */
  function InAuction(q: Measure, a: Auction): nat {
    match q
    case Gold => a.bid + a.deposit
    case Item(g) => if a.item == g then 1 else 0
  }

  function InMails(q: Measure, mails: seq<Mail>): nat {
    if mails == [] then 0 else InMail(q, mails[0]) + InMails(q, mails[1..])
  }

  function InHouse(q: Measure, s: seq<Auction>): nat {
    if s == [] then 0 else InAuction(q, s[0]) + InHouse(q, s[1..])
  }

  function InHouses(q: Measure, w: World): nat
    requires |w.houses| == 3
  {
    InHouse(q, w.houses[0]) + InHouse(q, w.houses[1]) + InHouse(q, w.houses[2])
  }

  /** What is outside of mails and auctions: purses and lost gold, bags and destroyed items. */
  function Outside(q: Measure, w: World): nat {
    match q
    case Gold => Sum(w.money) + w.sink
    case Item(g) => (if g in w.bags then 1 else 0) + w.destroyed[g]
  }

  /** What is not up for auction. */
  function Loose(q: Measure, w: World): nat {
    Outside(q, w) + InMails(q, w.mails)
  }

  /** All the gold there is, or the number of places an item is in. */
  function Total(q: Measure, w: World): nat
    requires |w.houses| == 3
  {
    Loose(q, w) + InHouses(q, w)
  }

  // ----- the totals under the elementary changes -----

  lemma {:induction false} SumUpdate(money: seq<nat>, i: nat, v: nat)
    requires i < |money|
    ensures Sum(money[i := v]) == Sum(money) - money[i] + v && money[i] <= Sum(money)
  {
    if i > 0 {
      assert money[i := v][1..] == money[1..][i - 1 := v];
      SumUpdate(money[1..], i - 1, v);
    } else {
      assert money[i := v][1..] == money[1..];
    }
  }

  lemma {:induction false} MailsAppend(q: Measure, mails: seq<Mail>, m: Mail)
    ensures InMails(q, mails + [m]) == InMails(q, mails) + InMail(q, m)
  {
    if mails == [] {
      assert [m][1..] == [] && [] + [m] == [m];
    } else {
      assert (mails + [m])[1..] == mails[1..] + [m];
      MailsAppend(q, mails[1..], m);
    }
  }

  lemma {:induction false} MailsUpdate(q: Measure, mails: seq<Mail>, k: nat, m: Mail)
    requires k < |mails|
    ensures InMails(q, mails[k := m]) + InMail(q, mails[k]) == InMails(q, mails) + InMail(q, m)
    ensures InMail(q, mails[k]) <= InMails(q, mails)
  {
    if k > 0 {
      assert mails[k := m][1..] == mails[1..][k - 1 := m];
      MailsUpdate(q, mails[1..], k - 1, m);
    } else {
      assert mails[k := m][1..] == mails[1..];
    }
  }

  lemma {:induction false} HouseConcat(q: Measure, a: seq<Auction>, b: seq<Auction>)
    ensures InHouse(q, a + b) == InHouse(q, a) + InHouse(q, b)
  {
    if a == [] {
      assert a + b == b;
    } else {
      assert (a + b)[1..] == a[1..] + b;
      HouseConcat(q, a[1..], b);
    }
  }

  lemma HouseSplit(q: Measure, s: seq<Auction>, k: nat)
    requires k < |s|
    ensures InHouse(q, s) == InHouse(q, Without(s, k)) + InAuction(q, s[k])
  {
    assert s == s[..k] + ([s[k]] + s[k + 1..]) && [s[k]][1..] == [];
    HouseConcat(q, s[..k], [s[k]] + s[k + 1..]);
    HouseConcat(q, [s[k]], s[k + 1..]);
    HouseConcat(q, s[..k], s[k + 1..]);
  }

  lemma HouseUpdate(q: Measure, s: seq<Auction>, k: nat, a: Auction)
    requires k < |s|
    ensures InHouse(q, s[k := a]) + InAuction(q, s[k]) == InHouse(q, s) + InAuction(q, a)
  {
    HouseSplit(q, s, k);
    HouseSplit(q, s[k := a], k);
    assert Without(s[k := a], k) == Without(s, k);
  }

  lemma HouseAppend(q: Measure, s: seq<Auction>, a: Auction)
    ensures InHouse(q, s + [a]) == InHouse(q, s) + InAuction(q, a)
  {
    assert [a][1..] == [];
    HouseConcat(q, s, [a]);
  }

  // ----- the invariant -----

  /** What every live auction keeps: a bid has a bidder other than the seller, stays under the
      buyout and at or over the start, the cut rate leaves a cut no larger than the bid, and what
      was paid came out of a purse. */
  predicate AuctionOk(w: World, rate: real, a: Auction) {
    && (a.bidder == 0 <==> a.bid == 0) && a.bidder != a.owner && (a.buyout != 0 ==> a.bid < a.buyout)
    && (a.bid != 0 ==> a.startbid <= a.bid) && a.startbid > 0
    && 0 < a.owner < |w.money| && a.bidder < |w.money| && a.id < w.nextId
    && a.cutPercent as real * rate <= 100.0 && a.bid <= MAX_MONEY && a.deposit <= MAX_MONEY
  }

  ghost predicate HouseOk(w: World, rate: real, s: seq<Auction>) {
    && (forall k :: 0 <= k < |s| ==> AuctionOk(w, rate, s[k]))
    && (forall j, k :: 0 <= j < k < |s| ==> s[j].id < s[k].id)
  }

  ghost predicate HousesOk(w: World, rate: real) {
    |w.houses| == 3 && forall h :: 0 <= h < 3 ==> HouseOk(w, rate, w.houses[h])
  }

  /** The item map names exactly the items of the live auctions, each auctioned once. */
  ghost predicate Matched(w: World)
    requires |w.houses| == 3
  {
    forall g: nat :: InHouses(Item(g), w) == if g in w.aItems then 1 else 0
  }

  /** Every item has at most one place. */
  ghost predicate OnePlace(w: World)
    requires |w.houses| == 3
  {
    forall g: nat :: Total(Item(g), w) <= 1
  }

  /** No purse is over the limit, and no mail holds more than a bid and a deposit. */
  predicate PursesOk(w: World) {
    && (forall i :: 0 <= i < |w.money| ==> w.money[i] <= MAX_MONEY)
    && (forall m :: 0 <= m < |w.mails| ==> w.mails[m].gold <= 2 * MAX_MONEY)
  }

  ghost predicate Ok(w: World, rate: real) {
    rate >= 0.0 && w.nextId > 0 && HousesOk(w, rate) && PursesOk(w) && Matched(w) && OnePlace(w)
  }

  /** Nothing is created or destroyed unaccounted for. */
  ghost predicate Balanced(w: World, w': World)
    requires |w.houses| == 3
  {
    |w'.houses| == 3 && |w'.money| == |w.money| && forall q :: Total(q, w') == Total(q, w)
  }

  /** The same but for some gold that is gone. */
  ghost predicate BalancedBut(w: World, w': World, gone: int)
    requires |w.houses| == 3
  {
    && |w'.houses| == 3 && |w'.money| == |w.money|
    && forall q :: Total(q, w') + (if q == Gold then gone else 0) == Total(q, w)
  }

  // ----- amounts -----

  /** With the cut rate within 100 percent, the cut of a sale is never more than the bid. */
  lemma CutBound(a: Auction, rate: real)
    requires rate >= 0.0 && a.cutPercent as real * rate <= 100.0
    ensures 0 <= Cut(a, rate) <= a.bid
  {
    var x := a.cutPercent * a.bid % UINT32_LIMIT;
    var p, b, c := x as real, a.bid as real, a.cutPercent as real;
    assert 0 <= x <= a.cutPercent * a.bid;
    assert (a.cutPercent * a.bid) as real == c * b;
    MulLe(p, c * b, rate);
    assert c * b * rate == c * rate * b;
    MulLe(c * rate, 100.0, b);
    MulLe(0.0, p, rate);
  }

  /** Debits and credits within the limits are exact. */
  lemma MoneyExact(money: nat, amount: int)
    requires money <= MAX_MONEY && 0 <= amount <= MAX_MONEY
    ensures amount <= money ==> ModifyMoney(money, -AsInt32(amount % UINT32_LIMIT)) == money - amount
    ensures money + amount <= MAX_MONEY <==> ModifyMoney(money, AsInt32(amount)) == money + amount
  {
  }

  /** One sale conserves gold exactly when the cut is covered by the bid and the deposit;
      with a larger cut the profit wraps round. */
  lemma SaleIff(w: World, c: Context, a: Auction)
    requires Cut(a, c.rate) >= 0 && Exists(c, a.owner) && a.bid + a.deposit < UINT32_LIMIT
    ensures Loose(Gold, Successful(w, c, a)) == Loose(Gold, w) + a.bid + a.deposit
            <==> Cut(a, c.rate) <= a.bid + a.deposit
  {
    MailsAppend(Gold, w.mails, Mail(a.owner, Profit(a, c.rate), None));
    if Cut(a, c.rate) > a.bid + a.deposit {
      var d := a.bid + a.deposit - Cut(a, c.rate);
      assert d % UINT32_LIMIT != d;
    }
  }

  // ----- the totals under the house's own steps -----

  function Amount(q: Measure, gold: nat): nat {
    if q == Gold then gold else 0
  }

  lemma DebitLoose(q: Measure, w: World, who: nat, amount: int)
    requires who < |w.money| && 0 <= amount <= w.money[who] <= MAX_MONEY
    ensures Loose(q, Debit(w, who, amount)) + Amount(q, amount) == Loose(q, w)
    ensures Debit(w, who, amount).money == w.money[who := w.money[who] - amount]
  {
    MoneyExact(w.money[who], amount);
    SumUpdate(w.money, who, w.money[who] - amount);
  }

  lemma SendLoose(q: Measure, w: World, to: nat, gold: nat, item: Option<nat>)
    ensures Loose(q, SendMail(w, to, gold, item)) == Loose(q, w) + InMail(q, Mail(to, gold, item))
  {
    MailsAppend(q, w.mails, Mail(to, gold, item));
  }

  lemma RefundLoose(q: Measure, w: World, c: Context, a: Auction)
    ensures Loose(q, Refund(w, c, a)) == Loose(q, w) + Amount(q, a.bid)
  {
    SendLoose(q, w, a.bidder, a.bid, None);
  }

  lemma SuccessfulLoose(q: Measure, w: World, c: Context, a: Auction)
    requires 0 <= Cut(a, c.rate) <= a.bid && a.bid + a.deposit < UINT32_LIMIT
    ensures Loose(q, Successful(w, c, a)) == Loose(q, w) + Amount(q, a.bid + a.deposit)
  {
    SendLoose(q, w, a.owner, Profit(a, c.rate), None);
  }

  lemma HandOverLoose(q: Measure, w: World, c: Context, a: Auction, to: nat)
    requires a.item in w.aItems
    ensures Loose(q, HandOver(w, c, a, to)) == Loose(q, w) + if q == Item(a.item) then 1 else 0
  {
    SendLoose(q, if to in c.online then w else RemoveAItem(w, a.item), to, 0, Some(a.item));
  }

  /** The seller's and the winner's part of any sale. */
  lemma SoldLoose(q: Measure, w: World, c: Context, a: Auction, to: nat)
    requires 0 <= Cut(a, c.rate) <= a.bid && a.bid + a.deposit < UINT32_LIMIT && a.item in w.aItems
    ensures Loose(q, HandOver(Successful(w, c, a), c, a, to)) == Loose(q, w) + InAuction(q, a)
  {
    SuccessfulLoose(q, w, c, a);
    HandOverLoose(q, Successful(w, c, a), c, a, to);
  }

  lemma ClearHouses(q: Measure, w: World, h: nat, k: nat)
    requires |w.houses| == 3 && h < 3 && k < |w.houses[h]|
    ensures InHouses(q, Clear(w, h, k)) + InAuction(q, w.houses[h][k]) == InHouses(q, w)
  {
    HouseSplit(q, w.houses[h], k);
  }

  lemma PartOf(q: Measure, w: World, h: nat, k: nat)
    requires |w.houses| == 3 && h < 3 && k < |w.houses[h]|
    ensures InAuction(q, w.houses[h][k]) <= InHouses(q, w)
  {
    HouseSplit(q, w.houses[h], k);
  }

  /** The item of a live auction is in the item map. */
  lemma Live(w: World, rate: real, h: nat, k: nat)
    requires Ok(w, rate) && h < 3 && k < |w.houses[h]|
    ensures w.houses[h][k].item in w.aItems && AuctionOk(w, rate, w.houses[h][k])
  {
    var a := w.houses[h][k];
    PartOf(Item(a.item), w, h, k);
    assert InHouses(Item(a.item), w) > 0;
    assert HouseOk(w, rate, w.houses[h]);
  }

  /** Purses and mails stay within their limits under the house's own steps. */
  lemma DebitPurses(w: World, who: nat, amount: int)
    requires PursesOk(w) && who < |w.money| && 0 <= amount <= w.money[who]
    ensures PursesOk(Debit(w, who, amount))
  {
    MoneyExact(w.money[who], amount);
  }

  lemma SendPurses(w: World, to: nat, gold: nat, item: Option<nat>)
    requires PursesOk(w) && gold <= 2 * MAX_MONEY
    ensures PursesOk(SendMail(w, to, gold, item))
  {
  }

  lemma ProfitBound(a: Auction, rate: real)
    requires 0 <= Cut(a, rate) <= a.bid <= MAX_MONEY && a.deposit <= MAX_MONEY
    ensures Profit(a, rate) <= 2 * MAX_MONEY
  {
  }

  lemma SuccessfulPurses(w: World, c: Context, a: Auction)
    requires PursesOk(w) && 0 <= Cut(a, c.rate) <= a.bid <= MAX_MONEY && a.deposit <= MAX_MONEY
    ensures PursesOk(Successful(w, c, a))
  {
    ProfitBound(a, c.rate);
    SendPurses(w, a.owner, Profit(a, c.rate), None);
  }

  lemma HandOverPurses(w: World, c: Context, a: Auction, to: nat)
    requires PursesOk(w)
    ensures PursesOk(HandOver(w, c, a, to))
  {
    SendPurses(RemoveAItem(w, a.item), to, 0, Some(a.item));
  }

  /** Only house h differs. */
  ghost predicate OneHouse(w: World, w': World, h: nat) {
    |w.houses| == 3 == |w'.houses| && h < 3 && w'.houses == w.houses[h := w'.houses[h]]
  }

  lemma HousesKept(w: World, w': World, rate: real, h: nat)
    requires HousesOk(w, rate) && OneHouse(w, w', h) && HouseOk(w', rate, w'.houses[h])
    requires |w'.money| == |w.money| && w'.nextId >= w.nextId
    ensures HousesOk(w', rate)
  {
    forall g | 0 <= g < 3 && g != h ensures HouseOk(w', rate, w'.houses[g]) {
      assert HouseOk(w, rate, w.houses[g]) && w'.houses[g] == w.houses[g];
    }
  }

  /** Payments and mails leave the houses alone. */
  predicate Besides(w: World, w1: World, item: nat) {
    && w1.houses == w.houses && |w1.money| == |w.money| && w1.nextId == w.nextId
    && w1.aItems - {item} == w.aItems - {item}
  }

  /** What happens before an auction is cleared: its gold and its item are sent on. */
  ghost predicate SentOn(w: World, w1: World, a: Auction) {
    Besides(w, w1, a.item) && forall q :: Loose(q, w1) == Loose(q, w) + InAuction(q, a)
  }

  /** Removing one auction, its gold and its item having been sent on, keeps order. */
  lemma ClearOk(w: World, rate: real, h: nat, k: nat, w1: World)
    requires Ok(w, rate) && h < 3 && k < |w.houses[h]| && SentOn(w, w1, w.houses[h][k]) && PursesOk(w1)
    ensures Ok(Clear(w1, h, k), rate) && Balanced(w, Clear(w1, h, k))
  {
    var a, w' := w.houses[h][k], Clear(w1, h, k);
    Live(w, rate, h, k);
    forall q ensures Total(q, w') == Total(q, w) {
      ClearHouses(q, w1, h, k);
    }
    assert w'.aItems == w.aItems - {a.item};
    forall g: nat ensures InHouses(Item(g), w') == if g in w'.aItems then 1 else 0 {
      ClearHouses(Item(g), w1, h, k);
    }
    assert HouseOk(w, rate, w.houses[h]);
    HousesKept(w, w', rate, h);
  }

  /** A step inside one house that keeps the totals and the item map in step keeps order. */
  lemma StepOk(w: World, rate: real, h: nat, w': World)
    requires Ok(w, rate) && OneHouse(w, w', h) && HouseOk(w', rate, w'.houses[h])
    requires |w'.money| == |w.money| && w'.nextId >= w.nextId && Matched(w') && PursesOk(w')
    requires forall q :: Total(q, w') == Total(q, w)
    ensures Ok(w', rate) && Balanced(w, w')
  {
    HousesKept(w, w', rate, h);
    assert Total(Gold, w') == Total(Gold, w);
    forall g: nat ensures Total(Item(g), w') <= 1 {
      assert Total(Item(g), w') == Total(Item(g), w);
    }
  }

  // ----- the steps -----

  lemma SellLoose(q: Measure, w: World, c: Context, who: nat, h: nat, r: SellRequest)
    requires Acts(w, c, who) && h < 3 && Sell(w, c, who, h, r).1 == Done && w.money[who] <= MAX_MONEY
    ensures Loose(q, Sell(w, c, who, h, r).0) + InAuction(q, NewAuction(w, c, who, r)) == Loose(q, w)
  {
    DebitLoose(q, w, who, r.deposit);
  }

  lemma SellHouses(q: Measure, w: World, c: Context, who: nat, h: nat, r: SellRequest)
    requires Acts(w, c, who) && h < 3 && Sell(w, c, who, h, r).1 == Done
    ensures InHouses(q, Sell(w, c, who, h, r).0) == InHouses(q, w) + InAuction(q, NewAuction(w, c, who, r))
  {
    HouseAppend(q, w.houses[h], NewAuction(w, c, who, r));
  }

  lemma SellMatched(w: World, c: Context, who: nat, h: nat, r: SellRequest)
    requires Acts(w, c, who) && h < 3 && Sell(w, c, who, h, r).1 == Done && Matched(w)
    ensures Matched(Sell(w, c, who, h, r).0)
  {
    var w' := Sell(w, c, who, h, r).0;
    forall g: nat ensures InHouses(Item(g), w') == if g in w'.aItems then 1 else 0 {
      SellHouses(Item(g), w, c, who, h, r);
    }
  }

  lemma SellHouse(w: World, c: Context, who: nat, h: nat, r: SellRequest)
    requires HousesOk(w, c.rate) && Acts(w, c, who) && h < 3 && Sell(w, c, who, h, r).1 == Done
    requires w.nextId > 0 && r.cutPercent as real * c.rate <= 100.0 && w.money[who] <= MAX_MONEY
    ensures var w' := Sell(w, c, who, h, r).0; OneHouse(w, w', h) && HouseOk(w', c.rate, w'.houses[h])
  {
    assert HouseOk(w, c.rate, w.houses[h]);
  }

  lemma SellOk(w: World, c: Context, who: nat, h: nat, r: SellRequest)
    requires Ok(w, c.rate) && Acts(w, c, who) && h < 3 && r.cutPercent as real * c.rate <= 100.0
    ensures var w' := Sell(w, c, who, h, r).0; Ok(w', c.rate) && Balanced(w, w')
  {
    var (w', reply) := Sell(w, c, who, h, r);
    if reply == Done {
      forall q ensures Total(q, w') == Total(q, w) {
        SellLoose(q, w, c, who, h, r);
        SellHouses(q, w, c, who, h, r);
      }
      SellMatched(w, c, who, h, r);
      DebitPurses(w, who, r.deposit);
      SellHouse(w, c, who, h, r);
      StepOk(w, c.rate, h, w');
    }
  }

  predicate Acceptable(w: World, who: nat, a: Auction, price: nat)
    requires who < |w.money|
  {
    !PricedTooLow(a, price) && price <= w.money[who] && a.owner != who && (price < a.buyout || a.buyout == 0)
  }

  lemma BidLoose(q: Measure, w: World, c: Context, who: nat, h: nat, k: nat, price: nat)
    requires Acts(w, c, who) && h < 3 && k < |w.houses[h]|
    requires Acceptable(w, who, w.houses[h][k], price) && w.money[who] <= MAX_MONEY
    requires w.houses[h][k].bidder == 0 ==> w.houses[h][k].bid == 0
    ensures Loose(q, Bid(w, c, who, h, k, price)) + Amount(q, price) == Loose(q, w) + Amount(q, w.houses[h][k].bid)
  {
    var a := w.houses[h][k];
    if a.bidder == 0 || a.bidder == who {
      DebitLoose(q, w, who, price - a.bid);
    } else {
      RefundLoose(q, w, c, a);
      DebitLoose(q, Refund(w, c, a), who, price);
    }
  }

  lemma BidHouses(q: Measure, w: World, c: Context, who: nat, h: nat, k: nat, price: nat)
    requires Acts(w, c, who) && h < 3 && k < |w.houses[h]|
    ensures InHouses(q, Bid(w, c, who, h, k, price)) + Amount(q, w.houses[h][k].bid) == InHouses(q, w) + Amount(q, price)
  {
    HouseUpdate(q, w.houses[h], k, w.houses[h][k].(bidder := who, bid := price));
  }

  lemma BidHouse(w: World, c: Context, who: nat, h: nat, k: nat, price: nat)
    requires HousesOk(w, c.rate) && Acts(w, c, who) && h < 3 && k < |w.houses[h]|
    requires Acceptable(w, who, w.houses[h][k], price) && w.money[who] <= MAX_MONEY
    ensures var w' := Bid(w, c, who, h, k, price); OneHouse(w, w', h) && HouseOk(w', c.rate, w'.houses[h])
  {
    assert HouseOk(w, c.rate, w.houses[h]);
  }

  lemma BidMatched(w: World, c: Context, who: nat, h: nat, k: nat, price: nat)
    requires Acts(w, c, who) && h < 3 && k < |w.houses[h]| && Matched(w)
    ensures Matched(Bid(w, c, who, h, k, price))
  {
    var w' := Bid(w, c, who, h, k, price);
    forall g: nat ensures InHouses(Item(g), w') == if g in w'.aItems then 1 else 0 {
      BidHouses(Item(g), w, c, who, h, k, price);
    }
  }

  lemma BidPurses(w: World, c: Context, who: nat, h: nat, k: nat, price: nat)
    requires PursesOk(w) && Acts(w, c, who) && h < 3 && k < |w.houses[h]| && w.houses[h][k].bid <= MAX_MONEY
    requires Acceptable(w, who, w.houses[h][k], price)
    ensures PursesOk(Bid(w, c, who, h, k, price))
  {
    var a := w.houses[h][k];
    if a.bidder == 0 {
      DebitPurses(w, who, price);
    } else if a.bidder == who {
      DebitPurses(w, who, price - a.bid);
    } else {
      SendPurses(w, a.bidder, a.bid, None);
      DebitPurses(Refund(w, c, a), who, price);
    }
  }

  lemma BidOk(w: World, c: Context, who: nat, h: nat, k: nat, price: nat)
    requires Ok(w, c.rate) && Acts(w, c, who) && h < 3 && k < |w.houses[h]|
    requires Acceptable(w, who, w.houses[h][k], price)
    ensures var w' := Bid(w, c, who, h, k, price); Ok(w', c.rate) && Balanced(w, w')
  {
    var w' := Bid(w, c, who, h, k, price);
    Live(w, c.rate, h, k);
    forall q ensures Total(q, w') == Total(q, w) {
      BidLoose(q, w, c, who, h, k, price);
      BidHouses(q, w, c, who, h, k, price);
    }
    BidMatched(w, c, who, h, k, price);
    BidPurses(w, c, who, h, k, price);
    BidHouse(w, c, who, h, k, price);
    StepOk(w, c.rate, h, w');
  }

  lemma ChargeLoose(q: Measure, w: World, c: Context, who: nat, a: Auction)
    requires who < |w.money| && a.bid <= a.buyout <= w.money[who] <= MAX_MONEY && (a.bidder == 0 ==> a.bid == 0)
    ensures Loose(q, Charge(w, c, who, a)) + Amount(q, a.buyout) == Loose(q, w) + Amount(q, a.bid)
  {
    DebitLoose(q, w, who, if a.bidder == who then a.buyout - a.bid else a.buyout);
    if a.bidder != who && a.bidder != 0 { RefundLoose(q, Debit(w, who, a.buyout), c, a); }
  }

  lemma CloseSaleLoose(q: Measure, w: World, c: Context, a: Auction)
    requires 0 <= Cut(a, c.rate) <= a.bid && a.bid + a.deposit < UINT32_LIMIT && a.item in w.aItems
    ensures Loose(q, CloseSale(w, c, a)) == Loose(q, w) + InAuction(q, a)
  {
    SendLoose(q, w, a.owner, 0, None);
    SoldLoose(q, SalePending(w, c, a), c, a, a.bidder);
  }

  lemma ChargeBesides(w: World, c: Context, who: nat, a: Auction)
    requires who < |w.money|
    ensures Besides(w, Charge(w, c, who, a), a.item) && Charge(w, c, who, a).aItems == w.aItems
  {
  }

  lemma CloseSaleBesides(w: World, c: Context, a: Auction)
    requires 0 <= Cut(a, c.rate)
    ensures Besides(w, CloseSale(w, c, a), a.item)
  {
  }

  lemma BuyoutSentOn(w: World, c: Context, who: nat, a: Auction)
    requires who < |w.money| && 0 <= Cut(a.(bidder := who, bid := a.buyout), c.rate) <= a.buyout
    requires a.bid <= a.buyout <= w.money[who] <= MAX_MONEY && a.item in w.aItems && a.deposit <= MAX_MONEY
    requires a.bidder == 0 ==> a.bid == 0
    ensures SentOn(w, Settle(w, c, who, a), a)
  {
    var won := a.(bidder := who, bid := a.buyout);
    var w1 := Charge(w, c, who, a);
    ChargeBesides(w, c, who, a);
    CloseSaleBesides(w1, c, won);
    forall q ensures Loose(q, CloseSale(w1, c, won)) == Loose(q, w) + InAuction(q, a) {
      ChargeLoose(q, w, c, who, a);
      CloseSaleLoose(q, w1, c, won);
    }
  }

  lemma ChargePurses(w: World, c: Context, who: nat, a: Auction)
    requires PursesOk(w) && who < |w.money| && a.bid <= a.buyout <= w.money[who]
    ensures PursesOk(Charge(w, c, who, a))
  {
    DebitPurses(w, who, if a.bidder == who then a.buyout - a.bid else a.buyout);
    SendPurses(Debit(w, who, a.buyout), a.bidder, a.bid, None);
  }

  lemma CloseSalePurses(w: World, c: Context, a: Auction)
    requires PursesOk(w) && 0 <= Cut(a, c.rate) <= a.bid <= MAX_MONEY && a.deposit <= MAX_MONEY
    ensures PursesOk(CloseSale(w, c, a))
  {
    SendPurses(w, a.owner, 0, None);
    SuccessfulPurses(SalePending(w, c, a), c, a);
    HandOverPurses(Successful(SalePending(w, c, a), c, a), c, a, a.bidder);
  }

  lemma BuyoutPurses(w: World, c: Context, who: nat, a: Auction)
    requires PursesOk(w) && who < |w.money| && 0 <= Cut(a.(bidder := who, bid := a.buyout), c.rate) <= a.buyout
    requires a.bid <= a.buyout <= w.money[who] && a.deposit <= MAX_MONEY
    ensures PursesOk(Settle(w, c, who, a))
  {
    ChargePurses(w, c, who, a);
    CloseSalePurses(Charge(w, c, who, a), c, a.(bidder := who, bid := a.buyout));
  }

  lemma BuyoutOk(w: World, c: Context, who: nat, h: nat, k: nat)
    requires Ok(w, c.rate) && Acts(w, c, who) && h < 3 && k < |w.houses[h]|
    requires 0 < w.houses[h][k].buyout <= w.money[who] && w.houses[h][k].owner != who
    ensures Cut(w.houses[h][k].(bidder := who, bid := w.houses[h][k].buyout), c.rate) >= 0
    ensures var w' := Buyout(w, c, who, h, k); Ok(w', c.rate) && Balanced(w, w')
  {
    var a := w.houses[h][k];
    Live(w, c.rate, h, k);
    CutBound(a.(bidder := who, bid := a.buyout), c.rate);
    BuyoutSentOn(w, c, who, a);
    BuyoutPurses(w, c, who, a);
    ClearOk(w, c.rate, h, k, Settle(w, c, who, a));
  }

  lemma PlaceBidOk(w: World, c: Context, who: nat, h: nat, id: nat, price: nat)
    requires Ok(w, c.rate) && Acts(w, c, who) && h < 3
    ensures var w' := PlaceBid(w, c, who, h, id, price).0; Ok(w', c.rate) && Balanced(w, w')
  {
    var k := Find(w.houses[h], id);
    if PlaceBid(w, c, who, h, id, price).1 == Done {
      var a := w.houses[h][k];
      if price < a.buyout || a.buyout == 0 {
        BidOk(w, c, who, h, k, price);
      } else {
        BuyoutOk(w, c, who, h, k);
      }
    }
  }

  lemma WithdrawLoose(q: Measure, w: World, c: Context, who: nat, a: Auction)
    requires who < |w.money| && w.money[who] <= MAX_MONEY && 0 <= Cut(a, c.rate)
    requires a.bidder > 0 ==> Cut(a, c.rate) <= w.money[who]
    requires a.bidder == 0 ==> a.bid == 0
    ensures Loose(q, Withdraw(w, c, who, a)) == Loose(q, w) + InAuction(q, a)
  {
    var cut := Cut(a, c.rate);
    var w1 := if a.bidder > 0 then Lose(Debit(Refund(w, c, a), who, cut), cut) else w;
    assert Loose(q, w1) == Loose(q, w) + Amount(q, a.bid) by {
      RefundLoose(q, w, c, a);
      if a.bidder > 0 { DebitLoose(q, Refund(w, c, a), who, cut); }
    }
    SendLoose(q, w1, who, 0, Some(a.item));
  }

  lemma WithdrawSentOn(w: World, c: Context, who: nat, a: Auction)
    requires who < |w.money| && w.money[who] <= MAX_MONEY && 0 <= Cut(a, c.rate)
    requires a.bidder > 0 ==> Cut(a, c.rate) <= w.money[who]
    requires a.bidder == 0 ==> a.bid == 0
    ensures SentOn(w, Withdraw(w, c, who, a), a)
  {
    forall q ensures Loose(q, Withdraw(w, c, who, a)) == Loose(q, w) + InAuction(q, a) {
      WithdrawLoose(q, w, c, who, a);
    }
  }

  lemma WithdrawPurses(w: World, c: Context, who: nat, a: Auction)
    requires PursesOk(w) && who < |w.money| && 0 <= Cut(a, c.rate) && a.bid <= MAX_MONEY
    requires a.bidder > 0 ==> Cut(a, c.rate) <= w.money[who]
    ensures PursesOk(Withdraw(w, c, who, a))
  {
    var cut := Cut(a, c.rate);
    if a.bidder > 0 {
      SendPurses(w, a.bidder, a.bid, None);
      DebitPurses(Refund(w, c, a), who, cut);
      SendPurses(Lose(Debit(Refund(w, c, a), who, cut), cut), who, 0, Some(a.item));
    } else {
      SendPurses(w, who, 0, Some(a.item));
    }
  }

  lemma WithdrawOk(w: World, c: Context, who: nat, h: nat, k: nat)
    requires Ok(w, c.rate) && Acts(w, c, who) && h < 3 && k < |w.houses[h]|
    requires w.houses[h][k].bidder > 0 ==> Cut(w.houses[h][k], c.rate) <= w.money[who]
    ensures Cut(w.houses[h][k], c.rate) >= 0
    ensures var w' := Clear(Withdraw(w, c, who, w.houses[h][k]), h, k); Ok(w', c.rate) && Balanced(w, w')
  {
    Live(w, c.rate, h, k);
    CutBound(w.houses[h][k], c.rate);
    WithdrawSentOn(w, c, who, w.houses[h][k]);
    WithdrawPurses(w, c, who, w.houses[h][k]);
    ClearOk(w, c.rate, h, k, Withdraw(w, c, who, w.houses[h][k]));
  }

  lemma CancelOk(w: World, c: Context, who: nat, h: nat, id: nat)
    requires Ok(w, c.rate) && Acts(w, c, who) && h < 3
    ensures var w' := Cancel(w, c, who, h, id).0; Ok(w', c.rate) && Balanced(w, w')
  {
    if Cancel(w, c, who, h, id).1 == Done {
      WithdrawOk(w, c, who, h, Find(w.houses[h], id));
    }
  }

  lemma ExpireLoose(q: Measure, w: World, c: Context, a: Auction)
    requires c.rate >= 0.0 && a.item in w.aItems && a.bid + a.deposit < UINT32_LIMIT
    requires 0 <= Cut(a, c.rate) <= a.bid && (a.bidder == 0 ==> a.bid == 0)
    ensures Loose(q, Expire(w, c, a)) == Loose(q, w) + InAuction(q, a)
  {
    if a.bidder == 0 {
      HandOverLoose(q, w, c, a, a.owner);
    } else {
      SoldLoose(q, w, c, a, a.bidder);
    }
  }

  lemma ExpireSentOn(w: World, c: Context, a: Auction)
    requires c.rate >= 0.0 && a.item in w.aItems && a.bid + a.deposit < UINT32_LIMIT
    requires 0 <= Cut(a, c.rate) <= a.bid && (a.bidder == 0 ==> a.bid == 0)
    ensures SentOn(w, Expire(w, c, a), a)
  {
    forall q ensures Loose(q, Expire(w, c, a)) == Loose(q, w) + InAuction(q, a) {
      ExpireLoose(q, w, c, a);
    }
  }

  lemma ExpirePurses(w: World, c: Context, a: Auction)
    requires PursesOk(w) && c.rate >= 0.0 && 0 <= Cut(a, c.rate) <= a.bid <= MAX_MONEY && a.deposit <= MAX_MONEY
    ensures PursesOk(Expire(w, c, a))
  {
    HandOverPurses(w, c, a, a.owner);
    SuccessfulPurses(w, c, a);
    HandOverPurses(Successful(w, c, a), c, a, a.bidder);
  }

  lemma ExpireOk(w: World, c: Context, h: nat, k: nat)
    requires Ok(w, c.rate) && h < 3 && k < |w.houses[h]|
    ensures var w' := Clear(Expire(w, c, w.houses[h][k]), h, k); Ok(w', c.rate) && Balanced(w, w')
  {
    Live(w, c.rate, h, k);
    CutBound(w.houses[h][k], c.rate);
    ExpireSentOn(w, c, w.houses[h][k]);
    ExpirePurses(w, c, w.houses[h][k]);
    ClearOk(w, c.rate, h, k, Expire(w, c, w.houses[h][k]));
  }

  lemma BalancedTrans(w: World, w1: World, w2: World)
    requires |w.houses| == 3 && Balanced(w, w1) && Balanced(w1, w2)
    ensures Balanced(w, w2)
  {
    forall q ensures Total(q, w2) == Total(q, w) {
      assert Total(q, w1) == Total(q, w);
    }
  }

  lemma {:induction false} SweepFromOk(w: World, c: Context, h: nat, i: nat)
    requires Ok(w, c.rate) && h < 3 && i <= |w.houses[h]|
    ensures var w' := SweepFrom(w, c, h, i); Ok(w', c.rate) && Balanced(w, w')
    decreases |w.houses[h]| - i
  {
    if i >= |w.houses[h]| {
    } else {
      var a := w.houses[h][i];
      if Overdue(c, a) {
        var w1 := Clear(Expire(w, c, a), h, i);
        ExpireOk(w, c, h, i);
        SweepFromOk(w1, c, h, i);
        BalancedTrans(w, w1, SweepFrom(w, c, h, i));
      } else {
        SweepFromOk(w, c, h, i + 1);
      }
    }
  }

  lemma SweepOk(w: World, c: Context)
    requires Ok(w, c.rate)
    ensures var w' := Sweep(w, c); Ok(w', c.rate) && Balanced(w, w')
  {
    SweepFromOk(w, c, HORDE, 0);
    var w1 := SweepFrom(w, c, HORDE, 0);
    SweepFromOk(w1, c, ALLIANCE, 0);
    var w2 := SweepFrom(w1, c, ALLIANCE, 0);
    SweepFromOk(w2, c, NEUTRAL, 0);
    BalancedTrans(w, w1, w2);
    BalancedTrans(w, w2, SweepFrom(w2, c, NEUTRAL, 0));
  }

  /** What the sweep leaves of a house. */
  function Running(s: seq<Auction>, c: Context): seq<Auction> {
    if s == [] then [] else (if Overdue(c, s[0]) then [] else [s[0]]) + Running(s[1..], c)
  }

  /** The sweep removes exactly the overdue auctions of its house and leaves the others, and
      the other houses, as they were. */
  lemma {:induction false} SweepExact(w: World, c: Context, h: nat, i: nat)
    requires h < |w.houses| && i <= |w.houses[h]| && c.rate >= 0.0
    ensures SweepFrom(w, c, h, i).houses == w.houses[h := w.houses[h][..i] + Running(w.houses[h][i..], c)]
    decreases |w.houses[h]| - i
  {
    var s := w.houses[h];
    if i < |s| {
      var a := s[i];
      assert s[i..][0] == a && s[i..][1..] == s[i + 1..];
      if Overdue(c, a) {
        var w1 := Clear(Expire(w, c, a), h, i);
        assert w1.houses == w.houses[h := Without(s, i)];
        SweepExact(w1, c, h, i);
        assert Without(s, i)[..i] == s[..i] && Without(s, i)[i..] == s[i + 1..];
        var rest := s[..i] + Running(s[i..], c);
        assert rest == s[..i] + Running(s[i + 1..], c);
        assert w.houses[h := Without(s, i)][h := rest] == w.houses[h := rest];
      } else {
        SweepExact(w, c, h, i + 1);
        assert s[..i + 1] + Running(s[i + 1..], c) == s[..i] + Running(s[i..], c);
      }
    } else {
      assert s[..i] + Running(s[i..], c) == s;
    }
  }

  // ----- mail money -----

  /** What a purse holds after money was taken from a mail. */
  function Taken(money: nat, gold: nat): nat
    requires gold < UINT32_LIMIT
  {
    ModifyMoney(money, AsInt32(gold))
  }

  /** A purse takes exactly what fits into it. More is cut off at the limit, and more than the limit
      counts as negative - except for one amount, which is put in and makes the purse overflow. */
  lemma TakenExact(money: nat, gold: nat)
    requires money <= MAX_MONEY && gold <= 2 * MAX_MONEY
    ensures Taken(money, gold) <= money + gold
    ensures Taken(money, gold) == money + gold <==> money + gold <= MAX_MONEY || gold == MAX_MONEY + 1
    ensures Taken(money, gold) <= MAX_MONEY <==> gold != MAX_MONEY + 1
  {
  }

  /** The gold that is gone when money is taken. */
  function Cutoff(w: World, who: nat, m: nat): int
    requires who < |w.money| && m < |w.mails| && w.mails[m].gold < UINT32_LIMIT
  {
    w.money[who] + w.mails[m].gold - Taken(w.money[who], w.mails[m].gold)
  }

  lemma TakeMoneyLoose(q: Measure, w: World, who: nat, m: nat)
    requires who < |w.money| && m < |w.mails| && w.mails[m].gold < UINT32_LIMIT
    ensures Loose(q, TakeMoney(w, who, m)) == Loose(q, w) - if q == Gold then Cutoff(w, who, m) else 0
    ensures |w.houses| == 3 ==> InHouses(q, TakeMoney(w, who, m)) == InHouses(q, w)
  {
    MailsUpdate(q, w.mails, m, w.mails[m].(gold := 0));
    SumUpdate(w.money, who, Taken(w.money[who], w.mails[m].gold));
  }

  /** Taking mail money conserves gold, and the limit of the purse, if and only if it fits into
      the purse. */
  lemma TakeMoneyIff(w: World, who: nat, m: nat)
    requires PursesOk(w) && |w.houses| == 3 && who < |w.money| && m < |w.mails|
    ensures
      var w' := TakeMoney(w, who, m);
      Total(Gold, w') == Total(Gold, w) && w'.money[who] <= MAX_MONEY
      <==> w.money[who] + w.mails[m].gold <= MAX_MONEY
  {
    TakeMoneyLoose(Gold, w, who, m);
    TakenExact(w.money[who], w.mails[m].gold);
  }

  /** Three inputs on which it does not: a full purse takes one more coin, which is lost; a mail of two
      coins more than a purse may hold takes coins out of the purse; and one of one coin more is put in
      whole, over the limit. */
  lemma TakeMoneyLoses()
    ensures
      var w := World([MAX_MONEY], [[], [], []], {}, map[], [Mail(0, 1, None)], multiset{}, 0, 1);
      Total(Gold, TakeMoney(w, 0, 0)) == Total(Gold, w) - 1
    ensures
      var w := World([5], [[], [], []], {}, map[], [Mail(0, MAX_MONEY + 2, None)], multiset{}, 0, 1);
      TakeMoney(w, 0, 0).money == [0]
    ensures
      var w := World([0], [[], [], []], {}, map[], [Mail(0, MAX_MONEY + 1, None)], multiset{}, 0, 1);
      TakeMoney(w, 0, 0).money == [MAX_MONEY + 1] && Total(Gold, TakeMoney(w, 0, 0)) == Total(Gold, w)
  {
    var full := World([0], [[], [], []], {}, map[], [Mail(0, MAX_MONEY + 1, None)], multiset{}, 0, 1);
    TakeMoneyLoose(Gold, full, 0, 0);
    var w := World([MAX_MONEY], [[], [], []], {}, map[], [Mail(0, 1, None)], multiset{}, 0, 1);
    TakeMoneyLoose(Gold, w, 0, 0);
  }

  /** Everything but the gold cut off stays where it is. */
  lemma TakeMoneyOk(w: World, rate: real, who: nat, m: nat)
    requires Ok(w, rate) && who < |w.money| && m < |w.mails| && w.mails[m].gold != MAX_MONEY + 1
    ensures Cutoff(w, who, m) >= 0 && (Cutoff(w, who, m) == 0 <==> w.money[who] + w.mails[m].gold <= MAX_MONEY)
    ensures Ok(TakeMoney(w, who, m), rate) && BalancedBut(w, TakeMoney(w, who, m), Cutoff(w, who, m))
  {
    var w' := TakeMoney(w, who, m);
    TakenExact(w.money[who], w.mails[m].gold);
    forall q
      ensures Total(q, w') + (if q == Gold then Cutoff(w, who, m) else 0) == Total(q, w)
      ensures InHouses(q, w') == InHouses(q, w)
    {
      TakeMoneyLoose(q, w, who, m);
    }
    SameHouses(w, w', rate);
    MatchedStays(w, w');
  }

  /** One amount breaks the limit of the purse, and with it the order of the world. */
  lemma OverflowIff(w: World, rate: real, who: nat, m: nat)
    requires Ok(w, rate) && who < |w.money| && m < |w.mails|
    ensures Ok(TakeMoney(w, who, m), rate) <==> w.mails[m].gold != MAX_MONEY + 1
  {
    TakenExact(w.money[who], w.mails[m].gold);
    if w.mails[m].gold == MAX_MONEY + 1 {
      assert TakeMoney(w, who, m).money[who] > MAX_MONEY;
    } else {
      TakeMoneyOk(w, rate, who, m);
    }
  }

  lemma SameHouses(w: World, w': World, rate: real)
    requires HousesOk(w, rate) && w'.houses == w.houses && |w'.money| == |w.money| && w'.nextId == w.nextId
    ensures HousesOk(w', rate)
  {
    forall h | 0 <= h < 3 ensures HouseOk(w', rate, w'.houses[h]) {
      assert HouseOk(w, rate, w.houses[h]);
    }
  }

  /** Items that stay in as many places as before have at most one. */
  lemma MatchedStays(w: World, w': World)
    requires |w.houses| == 3 && w'.houses == w.houses && w'.aItems == w.aItems && Matched(w) && OnePlace(w)
    requires forall g: nat :: Total(Item(g), w') == Total(Item(g), w)
    ensures Matched(w') && OnePlace(w')
  {
    forall g: nat ensures InHouses(Item(g), w') == if g in w'.aItems then 1 else 0 {
      assert InHouses(Item(g), w) == if g in w.aItems then 1 else 0;
    }
    forall g: nat ensures Total(Item(g), w') <= 1 {
      assert Total(Item(g), w) <= 1;
    }
  }

  lemma TakeItemOk(w: World, rate: real, who: nat, m: nat)
    requires Ok(w, rate) && m < |w.mails| && w.mails[m].item.Some?
    ensures Ok(TakeItem(w, who, m), rate) && Balanced(w, TakeItem(w, who, m))
  {
    var mail := w.mails[m];
    var w' := TakeItem(w, who, m);
    MailsUpdate(Item(mail.item.value), w.mails, m, mail.(item := None));
    assert mail.item.value !in w.bags;
    forall q ensures Total(q, w') == Total(q, w) && InHouses(q, w') == InHouses(q, w) {
      MailsUpdate(q, w.mails, m, mail.(item := None));
    }
    forall h | 0 <= h < 3 ensures HouseOk(w', rate, w'.houses[h]) {
      assert HouseOk(w, rate, w.houses[h]);
    }
  }

  // ----- whole runs -----

  datatype Event =
    | Selling(c: Context, who: nat, house: nat, request: SellRequest)
    | Bidding(c: Context, who: nat, house: nat, id: nat, price: nat)
    | Cancelling(c: Context, who: nat, house: nat, id: nat)
    | Sweeping(c: Context)
    | TakingMoney(who: nat, mail: nat)
    | TakingItem(who: nat, mail: nat)

  /** The actor is a character in the world, and reaches into its own mailbox only. */
  predicate Possible(w: World, rate: real, e: Event) {
    match e
    case Selling(c, who, h, r) => Acts(w, c, who) && h < 3 && c.rate == rate && r.cutPercent as real * rate <= 100.0
    case Bidding(c, who, h, _, _) => Acts(w, c, who) && h < 3 && c.rate == rate
    case Cancelling(c, who, h, _) => Acts(w, c, who) && h < 3 && c.rate == rate
    case Sweeping(c) => |w.houses| == 3 && c.rate == rate
    case TakingMoney(who, m) => who < |w.money| && m < |w.mails| && w.mails[m].to == who && w.mails[m].gold < UINT32_LIMIT
    case TakingItem(who, m) => who < |w.money| && m < |w.mails| && w.mails[m].to == who && w.mails[m].item.Some?
  }

  function Apply(w: World, rate: real, e: Event): World
    requires rate >= 0.0
  {
    if !Possible(w, rate, e) then w
    else
      match e
      case Selling(c, who, h, r) => Sell(w, c, who, h, r).0
      case Bidding(c, who, h, id, price) => PlaceBid(w, c, who, h, id, price).0
      case Cancelling(c, who, h, id) => Cancel(w, c, who, h, id).0
      case Sweeping(c) => Sweep(w, c)
      case TakingMoney(who, m) => TakeMoney(w, who, m)
      case TakingItem(who, m) => TakeItem(w, who, m)
  }

  function Run(w: World, rate: real, es: seq<Event>): World
    requires rate >= 0.0
    decreases |es|
  {
    if es == [] then w else Run(Apply(w, rate, es[0]), rate, es[1..])
  }

  /** The one mail that must not be taken: of exactly one coin more than a purse may hold. */
  predicate Overflows(w: World, rate: real, e: Event) {
    e.TakingMoney? && Possible(w, rate, e) && w.mails[e.mail].gold == MAX_MONEY + 1
  }

  predicate NoOverflow(w: World, rate: real, es: seq<Event>)
    requires rate >= 0.0
    decreases |es|
  {
    es == [] || (!Overflows(w, rate, es[0]) && NoOverflow(Apply(w, rate, es[0]), rate, es[1..]))
  }

  /** The world is in order now and after every step. */
  ghost predicate InOrder(w: World, rate: real, es: seq<Event>)
    requires rate >= 0.0
    decreases |es|
  {
    Ok(w, rate) && (es == [] || InOrder(Apply(w, rate, es[0]), rate, es[1..]))
  }

  /** That one mail apart, nothing whatever brings a world out of order. */
  lemma {:induction false} InOrderIff(w: World, rate: real, es: seq<Event>)
    requires Ok(w, rate)
    ensures InOrder(w, rate, es) <==> NoOverflow(w, rate, es)
    decreases |es|
  {
    if es == [] {
    } else if Overflows(w, rate, es[0]) {
      OverflowIff(w, rate, es[0].who, es[0].mail);
      assert !Ok(Apply(w, rate, es[0]), rate);
    } else {
      ApplyOk(w, rate, es[0]);
      InOrderIff(Apply(w, rate, es[0]), rate, es[1..]);
    }
  }

  /** The gold that one step loses: mail money that does not fit into the purse. */
  function Gone(w: World, rate: real, e: Event): int {
    if e.TakingMoney? && Possible(w, rate, e) then Cutoff(w, e.who, e.mail) else 0
  }

  function AllGone(w: World, rate: real, es: seq<Event>): int
    requires rate >= 0.0
    decreases |es|
  {
    if es == [] then 0 else Gone(w, rate, es[0]) + AllGone(Apply(w, rate, es[0]), rate, es[1..])
  }

  /** The money fits into the purse. */
  predicate Fits(w: World, rate: real, e: Event) {
    e.TakingMoney? && Possible(w, rate, e) ==> w.money[e.who] + w.mails[e.mail].gold <= MAX_MONEY
  }

  predicate AllFit(w: World, rate: real, es: seq<Event>)
    requires rate >= 0.0
    decreases |es|
  {
    es == [] || (Fits(w, rate, es[0]) && AllFit(Apply(w, rate, es[0]), rate, es[1..]))
  }

  lemma ApplyOk(w: World, rate: real, e: Event)
    requires Ok(w, rate) && !Overflows(w, rate, e)
    ensures Ok(Apply(w, rate, e), rate) && BalancedBut(w, Apply(w, rate, e), Gone(w, rate, e))
    ensures Gone(w, rate, e) >= 0 && (Gone(w, rate, e) == 0 <==> Fits(w, rate, e))
  {
    if Possible(w, rate, e) {
      match e {
        case Selling(c, who, h, r) => SellOk(w, c, who, h, r);
        case Bidding(c, who, h, id, price) => PlaceBidOk(w, c, who, h, id, price);
        case Cancelling(c, who, h, id) => CancelOk(w, c, who, h, id);
        case Sweeping(c) => SweepOk(w, c);
        case TakingMoney(who, m) => TakeMoneyOk(w, rate, who, m);
        case TakingItem(who, m) => TakeItemOk(w, rate, who, m);
      }
    }
  }

  /** Over every run every item is in exactly as many places as before, the item map keeps naming
      exactly the items of the live auctions, and all gold is accounted for: none is made, and what
      is gone is the mail money that did not fit into its purse. */
  lemma {:induction false} RunConserves(w: World, rate: real, es: seq<Event>)
    requires Ok(w, rate) && NoOverflow(w, rate, es)
    ensures Ok(Run(w, rate, es), rate) && BalancedBut(w, Run(w, rate, es), AllGone(w, rate, es))
    ensures AllGone(w, rate, es) >= 0 && (AllGone(w, rate, es) == 0 <==> AllFit(w, rate, es))
    decreases |es|
  {
    if es == [] {
    } else {
      var w1 := Apply(w, rate, es[0]);
      ApplyOk(w, rate, es[0]);
      RunConserves(w1, rate, es[1..]);
      BalancedButTrans(w, w1, Run(w, rate, es), Gone(w, rate, es[0]), AllGone(w1, rate, es[1..]));
    }
  }

  lemma BalancedButTrans(w: World, w1: World, w2: World, gone1: int, gone2: int)
    requires |w.houses| == 3 && BalancedBut(w, w1, gone1) && BalancedBut(w1, w2, gone2)
    ensures BalancedBut(w, w2, gone1 + gone2)
  {
    forall q ensures Total(q, w2) + (if q == Gold then gone1 + gone2 else 0) == Total(q, w) {
      assert Total(q, w1) + (if q == Gold then gone1 else 0) == Total(q, w);
      assert Total(q, w2) + (if q == Gold then gone2 else 0) == Total(q, w1);
    }
  }

  /** Without mail money that does not fit, gold is conserved; and only then. */
  lemma RunConservesIff(w: World, rate: real, es: seq<Event>)
    requires Ok(w, rate) && NoOverflow(w, rate, es)
    ensures Ok(Run(w, rate, es), rate) && (Total(Gold, Run(w, rate, es)) == Total(Gold, w) <==> AllFit(w, rate, es))
  {
    RunConserves(w, rate, es);
    assert Total(Gold, Run(w, rate, es)) + AllGone(w, rate, es) == Total(Gold, w);
  }

  /** A world without auctions and mails is in order exactly when no purse is over its limit. */
  lemma FreshOk(money: seq<nat>, bags: map<nat, nat>, rate: real)
    requires rate >= 0.0
    ensures Ok(World(money, [[], [], []], {}, bags, [], multiset{}, 0, 1), rate)
            <==> forall i :: 0 <= i < |money| ==> money[i] <= MAX_MONEY
  {
    var w := World(money, [[], [], []], {}, bags, [], multiset{}, 0, 1);
    assert forall q :: InHouses(q, w) == 0;
  }

  /** An empty purse and the one mail that overflows it: in order before, and not after. */
  lemma OverflowHappens(rate: real)
    requires rate >= 0.0
    ensures
      var w := World([0], [[], [], []], {}, map[], [Mail(0, MAX_MONEY + 1, None)], multiset{}, 0, 1);
      Ok(w, rate) && !Ok(TakeMoney(w, 0, 0), rate)
  {
    var w := World([0], [[], [], []], {}, map[], [Mail(0, MAX_MONEY + 1, None)], multiset{}, 0, 1);
    forall q ensures InHouses(q, w) == 0 && (q != Gold ==> Total(q, w) == 0) {
      assert InMails(q, w.mails) == InMail(q, w.mails[0]) + InMails(q, []);
    }
    assert Ok(w, rate);
    OverflowIff(w, rate, 0, 0);
  }

  // ----- what a step means to the people involved -----

  /** Who was leading gets its bid back. */
  function Outbid(c: Context, who: nat, a: Auction): seq<Mail> {
    if a.bidder !in {0, who} && Exists(c, a.bidder) then [Mail(a.bidder, a.bid, None)] else []
  }

  function OwnBid(who: nat, a: Auction): nat {
    if a.bidder == who then a.bid else 0
  }

  /** A leading bid costs the price, less one's own standing bid; the bidder before gets back
      exactly what it had bid; and each bid is a true raise. */
  lemma BidEffect(w: World, c: Context, who: nat, h: nat, k: nat, price: nat)
    requires Acts(w, c, who) && h < 3 && k < |w.houses[h]|
    requires Acceptable(w, who, w.houses[h][k], price)
    requires AuctionOk(w, c.rate, w.houses[h][k]) && w.money[who] <= MAX_MONEY
    ensures
      var a, w' := w.houses[h][k], Bid(w, c, who, h, k, price);
      var pays := price - OwnBid(who, a);
      && 0 < pays <= w.money[who] && w'.money == w.money[who := w.money[who] - pays]
      && w'.mails == w.mails + Outbid(c, who, a) && w'.houses[h][k] == a.(bidder := who, bid := price)
      && price > a.bid && 20 * (price - a.bid) > a.bid - 100
  {
    var a := w.houses[h][k];
    MoneyExact(w.money[who], price - OwnBid(who, a));
    if a.bidder in {0, who} || !Exists(c, a.bidder) { assert w.mails + Outbid(c, who, a) == w.mails; }
  }

  lemma ChargeEffect(w: World, c: Context, who: nat, a: Auction)
    requires 0 < who < |w.money| && a.bid < a.buyout <= w.money[who] <= MAX_MONEY
    ensures Charge(w, c, who, a).money == w.money[who := w.money[who] - (a.buyout - OwnBid(who, a))]
    ensures Charge(w, c, who, a).mails == w.mails + Outbid(c, who, a)
  {
    MoneyExact(w.money[who], a.buyout - OwnBid(who, a));
    if a.bidder in {0, who} || !Exists(c, a.bidder) { assert w.mails + Outbid(c, who, a) == w.mails; }
  }

  lemma CloseSaleEffect(w: World, c: Context, a: Auction)
    requires 0 <= Cut(a, c.rate) <= a.bid && a.bid + a.deposit < UINT32_LIMIT && a.item in w.aItems
    requires Exists(c, a.owner) && Exists(c, a.bidder)
    ensures CloseSale(w, c, a).money == w.money
    ensures CloseSale(w, c, a).mails ==
            w.mails + [Mail(a.owner, 0, None), Mail(a.owner, a.bid + a.deposit - Cut(a, c.rate), None),
                       Mail(a.bidder, 0, Some(a.item))]
  {
    var w1 := SalePending(w, c, a);
    assert w1.mails == w.mails + [Mail(a.owner, 0, None)];
    SuccessfulEffect(w1, c, a);
    HandOverEffect(Successful(w1, c, a), c, a, a.bidder);
  }

  /** A buyout from an existing seller: the buyer pays the buyout less its own bid, the
      seller is sent the buyout and the deposit less the cut, and the buyer the item. */
  lemma BuyoutEffect(w: World, c: Context, who: nat, a: Auction)
    requires 0 < who < |w.money| && who in c.online && Exists(c, a.owner) && AuctionOk(w, c.rate, a) && c.rate >= 0.0
    requires 0 < a.buyout <= w.money[who] <= MAX_MONEY && a.deposit <= MAX_MONEY && a.item in w.aItems
    ensures
      var won := a.(bidder := who, bid := a.buyout);
      && 0 <= Cut(won, c.rate) <= a.buyout
      && Settle(w, c, who, a).money == w.money[who := w.money[who] - (a.buyout - OwnBid(who, a))]
      && Settle(w, c, who, a).mails == w.mails + Outbid(c, who, a)
           + [Mail(a.owner, 0, None), Mail(a.owner, a.buyout + a.deposit - Cut(won, c.rate), None),
              Mail(who, 0, Some(a.item))]
  {
    var won := a.(bidder := who, bid := a.buyout);
    CutBound(won, c.rate);
    ChargeBesides(w, c, who, a);
    ChargeEffect(w, c, who, a);
    CloseSaleEffect(Charge(w, c, who, a), c, won);
  }

  /** A sale either changes nothing, or costs the seller exactly the deposit, takes the item out
      of its bag, and puts it up without a bid, in its name, as the last auction of the house. */
  lemma SellEffect(w: World, c: Context, who: nat, h: nat, r: SellRequest)
    requires Acts(w, c, who) && h < 3 && w.money[who] <= MAX_MONEY && HousesOk(w, c.rate)
    ensures
      var (w', reply) := Sell(w, c, who, h, r);
      if reply != Done then w' == w
      else
        && r.deposit <= w.money[who] && w'.money == w.money[who := w.money[who] - r.deposit]
        && r.item in w.bags && w.bags[r.item] == who && r.item !in w'.bags && w'.mails == w.mails
        && |w'.houses[h]| == |w.houses[h]| + 1 && Find(w'.houses[h], w.nextId) == |w.houses[h]|
        && var a := w'.houses[h][|w.houses[h]|];
           a.owner == who && a.item == r.item && a.bid == 0 == a.bidder && a.startbid == r.bid && a.buyout == r.buyout
  {
    var (w', reply) := Sell(w, c, who, h, r);
    if reply == Done {
      MoneyExact(w.money[who], r.deposit);
      assert HouseOk(w, c.rate, w.houses[h]);
      assert w'.houses[h][|w.houses[h]|].id == w.nextId;
      forall j | 0 <= j < |w.houses[h]| ensures w'.houses[h][j].id != w.nextId {
        assert AuctionOk(w, c.rate, w.houses[h][j]);
      }
    }
  }

  /** A cancellation: the bidder gets back exactly its bid, the seller its item, and pays the cut
      of a standing bid and nothing else. */
  lemma WithdrawEffect(w: World, c: Context, who: nat, a: Auction)
    requires who < |w.money| && w.money[who] <= MAX_MONEY && c.rate >= 0.0 && AuctionOk(w, c.rate, a) && a.owner == who
    requires a.bidder > 0 ==> Cut(a, c.rate) <= w.money[who]
    ensures
      var w', cut := Withdraw(w, c, who, a), if a.bidder > 0 then Cut(a, c.rate) else 0;
      && 0 <= cut <= a.bid && w'.money == w.money[who := w.money[who] - cut]
      && w'.mails == w.mails + Outbid(c, who, a) + [Mail(who, 0, Some(a.item))]
  {
    CutBound(a, c.rate);
    MoneyExact(w.money[who], Cut(a, c.rate));
    if a.bidder > 0 {
      assert Refund(w, c, a).mails == w.mails + Outbid(c, who, a);
    } else {
      assert w.mails + Outbid(c, who, a) == w.mails && w.money[who := w.money[who]] == w.money;
    }
  }

  lemma ProfitExact(a: Auction, rate: real)
    requires 0 <= Cut(a, rate) <= a.bid && a.bid + a.deposit < UINT32_LIMIT
    ensures Profit(a, rate) == a.bid + a.deposit - Cut(a, rate)
  {
  }

  lemma SuccessfulEffect(w: World, c: Context, a: Auction)
    requires 0 <= Cut(a, c.rate) <= a.bid && a.bid + a.deposit < UINT32_LIMIT && Exists(c, a.owner)
    ensures Successful(w, c, a).mails == w.mails + [Mail(a.owner, a.bid + a.deposit - Cut(a, c.rate), None)]
    ensures Besides(w, Successful(w, c, a), a.item) && Successful(w, c, a).money == w.money
    ensures Successful(w, c, a).aItems == w.aItems && Successful(w, c, a).destroyed == w.destroyed
  {
    ProfitExact(a, c.rate);
  }

  lemma HandOverEffect(w: World, c: Context, a: Auction, to: nat)
    requires a.item in w.aItems && Exists(c, to)
    ensures HandOver(w, c, a, to).mails == w.mails + [Mail(to, 0, Some(a.item))]
    ensures HandOver(w, c, a, to).money == w.money && HandOver(w, c, a, to).destroyed == w.destroyed
  {
  }

  /** The end of an auction between characters that exist: without a bid the item goes back; else
      the seller is sent bid and deposit less the cut, and the winner the item. */
  lemma ExpireEffect(w: World, c: Context, a: Auction)
    requires c.rate >= 0.0 && 0 <= Cut(a, c.rate) <= a.bid && a.item in w.aItems && a.bid + a.deposit < UINT32_LIMIT
    requires Exists(c, a.owner) && (a.bidder != 0 ==> Exists(c, a.bidder))
    ensures Expire(w, c, a).money == w.money && Expire(w, c, a).destroyed == w.destroyed
    ensures Expire(w, c, a).mails == w.mails +
              if a.bidder == 0 then [Mail(a.owner, 0, Some(a.item))]
              else [Mail(a.owner, a.bid + a.deposit - Cut(a, c.rate), None), Mail(a.bidder, 0, Some(a.item))]
  {
    if a.bidder == 0 {
      HandOverEffect(w, c, a, a.owner);
    } else {
      SuccessfulEffect(w, c, a);
      HandOverEffect(Successful(w, c, a), c, a, a.bidder);
    }
  }
}
