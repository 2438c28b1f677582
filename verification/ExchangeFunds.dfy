/** Each operation on the ledger keeps the funds in order, and says what becomes of the holds. */
module ExchangeFunds {
  import opened Orders
  import opened OrderBook
  import opened Ledger
  import opened LedgerLaws
  import opened RiskEngine
  import opened Exchange
  import opened ExchangeInvariant
  import opened Sums

  // ---------------------------------------------------------------- holds that go

  lemma GoneGrows(placed: History, holds: map<string, Hold>, holds': map<string, Hold>, account: string, asset: Asset)
    requires holds'.Keys <= holds.Keys
    ensures |Gone(placed, holds, account, asset)| <= |Gone(placed, holds', account, asset)|
  {
    Subset(Gone(placed, holds, account, asset), Gone(placed, holds', account, asset));
  }

  /** An erased hold is one more gone. */
  lemma GoneByOne(placed: History, holds: map<string, Hold>, holds': map<string, Hold>, id: string)
    requires holds'.Keys <= holds.Keys && id in placed && HoldId(id) in holds && HoldId(id) !in holds'
    ensures var k := AssetOf(placed[id].side);
      |Gone(placed, holds, placed[id].user, k)| + 1 <= |Gone(placed, holds', placed[id].user, k)|
  {
    var k := AssetOf(placed[id].side);
    var before := Gone(placed, holds, placed[id].user, k);
    assert |before + {id}| == |before| + 1;
    Subset(before + {id}, Gone(placed, holds', placed[id].user, k));
  }

  lemma Subset<T>(a: set<T>, b: set<T>)
    requires a <= b
    ensures |a| <= |b|
  {
    assert b == a + (b - a);
  }

  // ---------------------------------------------------------------- freezing

  lemma ReserveFunds(l: State, placed: History, user: string, side: Side, id: string, amount: real, timestamp: int)
    requires FundsOk(l, placed) && id !in placed && NoArrow(id)
    requires Freeze(l, AssetOf(side), user, HoldId(id), amount, timestamp).status == Applied
    ensures var l' := Freeze(l, AssetOf(side), user, HoldId(id), amount, timestamp).state;
      && FundsOk(l', placed[id := Placed(user, side)])
      && HoldId(id) !in l.holds && amount > 0.0
      && l'.holds == l.holds[HoldId(id) := Hold(user, AssetOf(side), amount)]
      && l'.settled == l.settled
  {
    hide LedgerOk, Slack, Times, Gone, HoldsMatch, NoArrow;
    var l' := Freeze(l, AssetOf(side), user, HoldId(id), amount, timestamp).state;
    var placed' := placed[id := Placed(user, side)];
    FreezeKeeps(l, AssetOf(side), user, HoldId(id), amount, timestamp);
    MatchPut(l.holds, placed, user, side, id, amount);
    forall a, k | a in l'.accounts ensures Slack(l', a, k) <= Times(EPSILON, |Gone(placed', l'.holds, a, k)|) {
      GoneSame(placed, l.holds, id, Placed(user, side), l'.holds[HoldId(id)], a, k);
    }
  }

  lemma MatchPut(holds: map<string, Hold>, placed: History, user: string, side: Side, id: string, amount: real)
    requires HoldsMatch(holds, placed) && id !in placed
    ensures HoldId(id) !in holds
    ensures HoldsMatch(holds[HoldId(id) := Hold(user, AssetOf(side), amount)], placed[id := Placed(user, side)])
  {
    HoldIdOf(id);
  }

  lemma GoneSame(placed: History, holds: map<string, Hold>, id: string, p: Placed, h: Hold, a: string, k: Asset)
    requires id !in placed
    ensures Gone(placed[id := p], holds[HoldId(id) := h], a, k) == Gone(placed, holds, a, k)
  {
    HoldIdOf(id);
    forall x | x in placed ensures HoldId(x) != HoldId(id) {
      HoldIdOf(x);
    }
  }

  // ---------------------------------------------------------------- releasing

  /** Releasing what is left of an order's hold always works, and leaves at most dust. */
  lemma {:induction false} ReleaseFunds(l: State, placed: History, id: string, timestamp: int)
    requires FundsOk(l, placed)
    ensures var d := ReleaseResidual(l, HoldId(id), timestamp);
      && d.status == Applied
      && FundsOk(d.state, placed)
      && (d.state.holds == l.holds || d.state.holds == l.holds - {HoldId(id)})
      && (HoldId(id) in d.state.holds ==> d.state.holds[HoldId(id)].amount <= EPSILON)
      && d.state.settled == l.settled
  {
    hide LedgerOk, Slack, Times;
    var d := ReleaseResidual(l, HoldId(id), timestamp);
    if HoldId(id) in l.holds && !IsZero(l.holds[HoldId(id)].amount) {
      ReleaseKeeps(l, HoldId(id), timestamp);
      assert d.state.holds == l.holds - {HoldId(id)};
      forall a, k | a in d.state.accounts ensures Slack(d.state, a, k) <= Times(EPSILON, |Gone(placed, d.state.holds, a, k)|) {
        GoneGrows(placed, l.holds, d.state.holds, a, k);
        TimesGrows(EPSILON, |Gone(placed, l.holds, a, k)|, |Gone(placed, d.state.holds, a, k)|);
      }
    }
  }

  // ---------------------------------------------------------------- settling one fill

  /** A hold after `cost` was taken from it. */
  ghost predicate TakenFrom(holds: map<string, Hold>, holds': map<string, Hold>, hold: string, cost: real) {
    && hold in holds
    && cost <= holds[hold].amount
    && if IsZero(holds[hold].amount - cost) then hold !in holds'
       else hold in holds' && holds'[hold] == holds[hold].(amount := holds[hold].amount - cost)
  }

  ghost predicate SameBeside(holds: map<string, Hold>, holds': map<string, Hold>, a: string, b: string) {
    forall h | h != a && h != b :: (h in holds <==> h in holds') && (h in holds ==> holds'[h] == holds[h])
  }

  ghost predicate FillOk(fill: TradeFill, placed: History, buyer: string, seller: string) {
    && buyer in placed && seller in placed && buyer != seller
    && fill.buyer == placed[buyer].user && fill.seller == placed[seller].user
    && placed[buyer].side == Buy && placed[seller].side == Sell
    && fill.buyerHold == HoldId(buyer) && fill.sellerHold == HoldId(seller)
    && ValidFill(fill)
  }

  function BuyerCost(fill: TradeFill, fees: FeeSchedule): real {
    Gross(Notional(fill.price, fill.quantity), if fill.buyerIsTaker then fees.taker else fees.maker)
  }

  /** With balances that cover the holds, only a hold can stop a settlement. */
  lemma HoldsDecide(l: State, placed: History, fill: TradeFill, fees: FeeSchedule, buyer: string, seller: string)
    requires FundsOk(l, placed) && FillOk(fill, placed, buyer, seller) && fill.tradeId !in l.settled
    ensures Check(l, fill, fees) != Duplicate
    ensures Check(l, fill, fees) == Applied <==>
              && HoldCovers(l, HoldId(buyer), fill.buyer, Quote, BuyerCost(fill, fees))
              && HoldCovers(l, HoldId(seller), fill.seller, Base, fill.quantity)
    ensures Check(l, fill, fees) == Applied ==>
              AmountsOf(fill, fees, l.accounts[fill.seller]).BuyerPays() == BuyerCost(fill, fees)
  {
    hide FeeAmount, CostReleased, HoldSum, HoldsMatch, SettledOk, SlackOk;
    HoldIdOf(buyer);
    HoldIdOf(seller);
    assert Slack(l, fill.buyer, Quote) >= 0.0 && Slack(l, fill.seller, Base) >= 0.0;
    HoldSumIsPositive(l.holds, fill.buyer, Quote);
    HoldSumIsPositive(l.holds, fill.seller, Base);
  }

  lemma SettledFills(l: State, placed: History, fill: TradeFill, fees: FeeSchedule, buyer: string, seller: string)
    requires FundsOk(l, placed) && FillOk(fill, placed, buyer, seller) && FeesSane(fees)
    requires Check(l, fill, fees) == Applied
    requires AmountsOf(fill, fees, l.accounts[fill.seller]).BuyerPays() == BuyerCost(fill, fees)
    ensures var l' := Settle(l, fill, fees).state;
      && LedgerOk(l') && l'.accounts.Keys == l.accounts.Keys
      && l'.settled == l.settled + {fill.tradeId}
      && TakenFrom(l.holds, l'.holds, HoldId(buyer), BuyerCost(fill, fees))
      && TakenFrom(l.holds, l'.holds, HoldId(seller), fill.quantity)
      && SameBeside(l.holds, l'.holds, HoldId(buyer), HoldId(seller))
  {
    hide FeeAmount, CostReleased, LedgerOk, HoldsMatch, SettledOk, SlackOk, BuyerCost;
    HoldIdOf(buyer);
    HoldIdOf(seller);
    SettleKeeps(l, fill, fees);
    HoldsAfter(l, fill, fees);
  }

  lemma SlackAfter(l: State, placed: History, fill: TradeFill, fees: FeeSchedule, buyer: string, seller: string)
    requires FundsOk(l, placed) && FillOk(fill, placed, buyer, seller)
    requires Check(l, fill, fees) == Applied
    requires AmountsOf(fill, fees, l.accounts[fill.seller]).BuyerPays() == BuyerCost(fill, fees)
    requires var l' := Settle(l, fill, fees).state;
      && TakenFrom(l.holds, l'.holds, HoldId(buyer), BuyerCost(fill, fees))
      && TakenFrom(l.holds, l'.holds, HoldId(seller), fill.quantity)
      && SameBeside(l.holds, l'.holds, HoldId(buyer), HoldId(seller))
    ensures SlackOk(Settle(l, fill, fees).state, placed)
  {
    hide FeeAmount, CostReleased, LedgerOk, Slack, Times, BuyerCost, Settle, Check, HoldsMatch, SettledOk;
    var l' := Settle(l, fill, fees).state;
    HoldIdOf(buyer);
    SettleSlack(l, fill, fees, fill.buyer, Quote);
    forall a, k | a in l'.accounts ensures Slack(l', a, k) <= Times(EPSILON, |Gone(placed, l'.holds, a, k)|) {
      SettleSlack(l, fill, fees, a, k);
      SlackStep(l, l', placed, a, k, if k.Quote? then buyer else seller,
                if k.Quote? then BuyerCost(fill, fees) else fill.quantity);
    }
  }

  /** If funds get out of sight, a hold went. */
  lemma SlackStep(l: State, l': State, placed: History, a: string, k: Asset, id: string, cost: real)
    requires a in l.accounts && a in l'.accounts && id in placed && AssetOf(placed[id].side) == k
    requires l'.holds.Keys <= l.holds.Keys
    requires TakenFrom(l.holds, l'.holds, HoldId(id), cost)
    requires Slack(l', a, k) == Slack(l, a, k) + (if a == placed[id].user then Crumb(l.holds, HoldId(id), cost) else 0.0)
    requires Slack(l, a, k) <= Times(EPSILON, |Gone(placed, l.holds, a, k)|)
    ensures Slack(l', a, k) <= Times(EPSILON, |Gone(placed, l'.holds, a, k)|)
  {
    hide Slack, Times, Gone;
    var before, after := |Gone(placed, l.holds, a, k)|, |Gone(placed, l'.holds, a, k)|;
    if a == placed[id].user && IsZero(l.holds[HoldId(id)].amount - cost) {
      GoneByOne(placed, l.holds, l'.holds, id);
      OneMore(EPSILON, before);
      TimesGrows(EPSILON, before + 1, after);
    } else {
      GoneGrows(placed, l.holds, l'.holds, a, k);
      TimesGrows(EPSILON, before, after);
    }
  }

  lemma MatchAfter(holds: map<string, Hold>, holds': map<string, Hold>, placed: History, a: string, b: string, c: real, d: real)
    requires HoldsMatch(holds, placed) && SameBeside(holds, holds', a, b)
    requires TakenFrom(holds, holds', a, c) && TakenFrom(holds, holds', b, d)
    ensures HoldsMatch(holds', placed)
  {
    forall h | h in holds'
      ensures h in holds && holds'[h].account == holds[h].account && holds'[h].asset == holds[h].asset
    {
    }
  }

  lemma SettledAfter(settled: set<string>, placed: History, maker: string, taker: string)
    requires SettledOk(settled, placed) && NoArrow(maker) && taker in placed
    ensures SettledOk(settled + {TradeId(maker, taker)}, placed)
  {
    forall m, t | NoArrow(m) && t !in placed ensures TradeId(m, t) !in settled + {TradeId(maker, taker)} {
      if TradeId(m, t) == TradeId(maker, taker) {
        TradeIdIsInjective(m, t, maker, taker);
      }
    }
  }

  /** An applied settlement keeps the funds in order and takes each side's cost from its hold. */
  lemma SettleFunds(l: State, placed: History, fill: TradeFill, fees: FeeSchedule, buyer: string, seller: string,
                    maker: string, taker: string)
    requires FundsOk(l, placed) && FillOk(fill, placed, buyer, seller) && FeesSane(fees)
    requires fill.tradeId == TradeId(maker, taker) && maker in placed && taker in placed
    requires fill.tradeId !in l.settled && Check(l, fill, fees) == Applied
    ensures var l' := Settle(l, fill, fees).state;
      && FundsOk(l', placed)
      && l'.settled == l.settled + {fill.tradeId}
      && TakenFrom(l.holds, l'.holds, HoldId(buyer), BuyerCost(fill, fees))
      && TakenFrom(l.holds, l'.holds, HoldId(seller), fill.quantity)
      && SameBeside(l.holds, l'.holds, HoldId(buyer), HoldId(seller))
  {
    hide LedgerOk, HoldsMatch, SettledOk, SlackOk, Settle, Check, BuyerCost;
    var l' := Settle(l, fill, fees).state;
    HoldsDecide(l, placed, fill, fees, buyer, seller);
    SettledFills(l, placed, fill, fees, buyer, seller);
    SlackAfter(l, placed, fill, fees, buyer, seller);
    MatchAfter(l.holds, l'.holds, placed, HoldId(buyer), HoldId(seller), BuyerCost(fill, fees), fill.quantity);
    SettledAfter(l.settled, placed, maker, taker);
  }
}
