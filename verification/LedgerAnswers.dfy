/** What every operation of the ledger answers and moves, in prices, quantities and fees. */
module LedgerAnswers {
  import opened Orders
  import opened Ledger
  import opened LedgerLaws

  // ---------------------------------------------------------------- settling

  /** A fee in basis points of price times quantity. */
  function FeeOn(price: real, quantity: real, bps: real): real {
    price * quantity * bps / 10000.0
  }

  /** What the buyer and the seller of a fill are charged: the taker's rate for whoever is the taker. */
  function BuyerCharge(fill: TradeFill, fees: FeeSchedule): real {
    FeeOn(fill.price, fill.quantity, if fill.buyerIsTaker then fees.taker else fees.maker)
  }

  function SellerCharge(fill: TradeFill, fees: FeeSchedule): real {
    FeeOn(fill.price, fill.quantity, if fill.buyerIsTaker then fees.maker else fees.taker)
  }

  lemma AmountsAre(fill: TradeFill, fees: FeeSchedule, seller: Account)
    ensures var a := AmountsOf(fill, fees, seller);
      && a.notional == fill.price * fill.quantity
      && a.buyerFee == BuyerCharge(fill, fees) && a.sellerFee == SellerCharge(fill, fees)
  {
  }

  /** The cost released is the seller's average cost for what is sold. */
  lemma CostIsAverage(seller: Account, quantity: real)
    ensures var held := seller.availableBase + seller.frozenBase;
      && (held > 0.0 ==> (seller.baseCost - CostReleased(seller, quantity)) * held == seller.baseCost * (held - quantity))
      && (held <= 0.0 ==> CostReleased(seller, quantity) == 0.0)
  {
    var held := seller.availableBase + seller.frozenBase;
    if held > 0.0 {
      var unit := seller.baseCost / held;
      assert unit * held == seller.baseCost;
      assert (seller.baseCost - unit * quantity) * held == seller.baseCost * held - unit * held * quantity;
    }
  }

  /** Cost `after` is what is left of cost `before` when `quantity` of `held` is sold at average cost. */
  ghost predicate AtAverageCost(before: real, after: real, held: real, quantity: real) {
    if held > 0.0 then after * held == before * (held - quantity) else after == before
  }

  /** An applied settlement between two accounts: the seller's cost falls in proportion to the base sold, what the
      proceeds exceed it by is the profit, and both legs move price times quantity and the fees. */
  lemma {:induction false} SettlesExactly(s: State, fill: TradeFill, fees: FeeSchedule)
    requires Settle(s, fill, fees).result.status == Applied && fill.buyer != fill.seller
    ensures fill.buyer in s.accounts && fill.seller in s.accounts
    ensures var (s', result) := (Settle(s, fill, fees).state, Settle(s, fill, fees).result);
      var n, bought, sold := fill.price * fill.quantity, BuyerCharge(fill, fees), SellerCharge(fill, fees);
      var b, t := s.accounts[fill.buyer], s.accounts[fill.seller];
      && s'.accounts.Keys == s.accounts.Keys
      && result.notional == n && result.buyerFee == bought && result.sellerFee == sold
      && s'.accounts[fill.buyer] ==
         b.(frozenQuote := b.frozenQuote - (n + bought), availableBase := b.availableBase + fill.quantity,
            baseCost := b.baseCost + (n + bought))
      && var t' := s'.accounts[fill.seller];
      && t' == t.(availableQuote := t.availableQuote + (n - sold), frozenBase := t.frozenBase - fill.quantity,
                  baseCost := t'.baseCost, pnl := t'.pnl)
      && AtAverageCost(t.baseCost, t'.baseCost, t.availableBase + t.frozenBase, fill.quantity)
      && t'.pnl - t.pnl == n - sold - (t.baseCost - t'.baseCost)
      && result.pnl == t'.pnl - t.pnl
      && (forall x | x in s.accounts && x != fill.buyer && x != fill.seller :: s'.accounts[x] == s.accounts[x])
  {
    hide FeeAmount, CostReleased, Consumed, Coverage, Notional, BuyerCharge, SellerCharge;
    AmountsAre(fill, fees, s.accounts[fill.seller]);
    CostIsAverage(s.accounts[fill.seller], fill.quantity);
  }

  /** The same for one account on both sides: its cost is first that of what is left, then grows by what it paid. */
  lemma {:induction false} SettlesWithItself(s: State, fill: TradeFill, fees: FeeSchedule)
    requires Settle(s, fill, fees).result.status == Applied && fill.buyer == fill.seller
    ensures fill.buyer in s.accounts
    ensures var (s', result) := (Settle(s, fill, fees).state, Settle(s, fill, fees).result);
      var n, bought, sold := fill.price * fill.quantity, BuyerCharge(fill, fees), SellerCharge(fill, fees);
      var a := s.accounts[fill.buyer];
      && s'.accounts.Keys == s.accounts.Keys
      && result.notional == n && result.buyerFee == bought && result.sellerFee == sold
      && var a' := s'.accounts[fill.buyer];
      && a' == Account(a.availableQuote + (n - sold), a.frozenQuote - (n + bought), a.availableBase + fill.quantity,
                       a.frozenBase - fill.quantity, a'.baseCost, a'.pnl)
      && AtAverageCost(a.baseCost, a'.baseCost - (n + bought), a.availableBase + a.frozenBase, fill.quantity)
      && a'.pnl - a.pnl == n - sold - (a.baseCost - (a'.baseCost - (n + bought)))
      && result.pnl == a'.pnl - a.pnl
      && (forall x | x in s.accounts && x != fill.buyer :: s'.accounts[x] == s.accounts[x])
  {
    hide FeeAmount, CostReleased, Consumed, Coverage, Notional, BuyerCharge, SellerCharge;
    AmountsAre(fill, fees, s.accounts[fill.seller]);
    CostIsAverage(s.accounts[fill.seller], fill.quantity);
  }

  /** A hold of this account and asset with at least this amount. */
  ghost predicate Backed(s: State, hold: string, account: string, asset: Asset, amount: real) {
    exists h | h in s.holds :: h == hold && s.holds[h].account == account && s.holds[h].asset == asset && s.holds[h].amount >= amount
  }

  /** Which refusal a fill gets, in the order of the checks; a refused fill changes nothing. */
  lemma {:induction false} SettleRefusedExactly(s: State, fill: TradeFill, fees: FeeSchedule)
    ensures var r := Settle(s, fill, fees);
      var paid := fill.price * fill.quantity + BuyerCharge(fill, fees);
      && r.result.status ==
         (if fill.tradeId in s.settled then Duplicate
          else if fill.buyer !in s.accounts || fill.seller !in s.accounts then AccountNotFound
          else if fill.price <= 0.0 || fill.quantity <= 0.0 || fill.timestamp <= 0 then InvalidInput
          else if s.accounts[fill.buyer].frozenQuote < paid then BuyerFrozenQuoteInsufficient
          else if s.accounts[fill.seller].frozenBase < fill.quantity then SellerFrozenBaseInsufficient
          else if fill.buyerHold != "" && !Backed(s, fill.buyerHold, fill.buyer, Quote, paid) then BuyerHoldInsufficient
          else if fill.sellerHold != "" && !Backed(s, fill.sellerHold, fill.seller, Base, fill.quantity) then SellerHoldInsufficient
          else Applied)
      && (r.result.status != Applied ==> r == Settlement(s, SettlementResult(r.result.status, 0.0, 0.0, 0.0, 0.0)))
  {
    hide FeeAmount, CostReleased, Notional, BuyerCharge, Carried;
    if fill.seller in s.accounts {
      AmountsAre(fill, fees, s.accounts[fill.seller]);
    }
  }

  /** An applied settlement is journalled for the buyer, then for the seller, under its trade id and time, and
      announced once with its parties. */
  lemma {:induction false} SettleRecords(s: State, fill: TradeFill, fees: FeeSchedule)
    requires Settle(s, fill, fees).result.status == Applied
    ensures var s' := Settle(s, fill, fees).state;
      var b, t := s'.Journal(fill.buyer)[|s.Journal(fill.buyer)|..], s'.Journal(fill.seller)[|s.Journal(fill.seller)|..];
      && s.Journal(fill.buyer) <= s'.Journal(fill.buyer) && s.Journal(fill.seller) <= s'.Journal(fill.seller)
      && |b| == |t| == (if fill.buyer == fill.seller then 2 else 1)
      && b[0].account == fill.buyer && b[0].operation == "spot_trade_buy"
      && b[0].event == fill.tradeId && b[0].timestamp == fill.timestamp
      && var last := t[|t| - 1];
      && last.account == fill.seller && last.operation == "spot_trade_sell"
      && last.event == fill.tradeId && last.timestamp == fill.timestamp
      && (forall x | x != fill.buyer && x != fill.seller :: s'.Journal(x) == s.Journal(x))
      && s'.outbox == s.outbox + [OutboxMessage(fill.tradeId, fill.symbol, fill.buyer, fill.seller)]
      && s'.settled == s.settled + {fill.tradeId}
  {
    hide FeeAmount, CostReleased, Consumed, Coverage, Notional;
  }

  // ---------------------------------------------------------------- freezing and releasing

  /** An account with `amount` of an asset moved from available to frozen. */
  function Moved(a: Account, asset: Asset, amount: real): Account {
    if asset.Quote? then a.(availableQuote := a.availableQuote - amount, frozenQuote := a.frozenQuote + amount)
    else a.(availableBase := a.availableBase - amount, frozenBase := a.frozenBase + amount)
  }

  /** A freeze is refused for the first of its reasons, and otherwise moves the amount, holds it and journals it. */
  lemma {:induction false} FreezesExactly(s: State, asset: Asset, account: string, hold: string, amount: real, timestamp: int)
    ensures var (s', status) := (Freeze(s, asset, account, hold, amount, timestamp).state,
                                 Freeze(s, asset, account, hold, amount, timestamp).status);
      && status == (if account !in s.accounts then AccountNotFound
                    else if amount <= 0.0 then InvalidInput
                    else if hold in s.holds then HoldAlreadyExists
                    else if asset.Quote? && s.accounts[account].availableQuote < amount then InsufficientQuoteBalance
                    else if asset.Base? && s.accounts[account].availableBase < amount then InsufficientBasePosition
                    else Applied)
      && (status != Applied ==> s' == s)
      && (status == Applied ==>
            && s'.accounts == s.accounts[account := Moved(s.accounts[account], asset, amount)]
            && s'.holds == s.holds[hold := Hold(account, asset, amount)]
            && s'.settled == s.settled && s'.outbox == s.outbox
            && (forall x | x != account :: s'.Journal(x) == s.Journal(x))
            && |s'.Journal(account)| == |s.Journal(account)| + 1 && s.Journal(account) <= s'.Journal(account)
            && var e := s'.Journal(account)[|s.Journal(account)|];
               && e.account == account && e.event == hold && e.timestamp == timestamp
               && e.operation == (if asset.Quote? then "freeze_quote" else "freeze_base"))
  {
  }

  /** A release gives back exactly what the hold has left. */
  lemma {:induction false} ReleasesExactly(s: State, hold: string, timestamp: int)
    ensures var (s', status) := (Release(s, hold, timestamp).state, Release(s, hold, timestamp).status);
      && status == (if hold !in s.holds then HoldNotFound
                    else if s.holds[hold].account !in s.accounts then InvariantViolation
                    else Applied)
      && (status != Applied ==> s' == s)
      && (status == Applied ==>
            var h := s.holds[hold];
            && s'.accounts == s.accounts[h.account := Moved(s.accounts[h.account], h.asset, -h.amount)]
            && s'.holds == s.holds - {hold}
            && s'.settled == s.settled && s'.outbox == s.outbox
            && (forall x | x != h.account :: s'.Journal(x) == s.Journal(x))
            && |s'.Journal(h.account)| == |s.Journal(h.account)| + 1 && s.Journal(h.account) <= s'.Journal(h.account)
            && var e := s'.Journal(h.account)[|s.Journal(h.account)|];
               && e.account == h.account && e.event == hold && e.timestamp == timestamp
               && e.operation == (if h.asset.Quote? then "release_quote" else "release_base"))
  {
  }

  // ---------------------------------------------------------------- opening and reconciling

  /** Opening an account gives it the snapshot's balances, also if it was open; nothing else changes. */
  lemma OpensExactly(s: State, account: string, snapshot: Account)
    ensures var s' := Upsert(s, account, snapshot);
      && s'.accounts.Keys == s.accounts.Keys + {account}
      && (forall x | x in s'.accounts :: s'.accounts[x] == if x == account then snapshot else s.accounts[x])
      && s'.holds == s.holds && s'.settled == s.settled && s'.outbox == s.outbox
      && forall x :: s'.Journal(x) == s.Journal(x)
  {
  }

  /** An account reconciles exactly if none of its five balances is negative. */
  lemma ReconcilesExactly(s: State, account: string)
    ensures Reconciles(s, account) <==>
              && account in s.accounts
              && forall x | x in [s.accounts[account].availableQuote, s.accounts[account].frozenQuote,
                                  s.accounts[account].availableBase, s.accounts[account].frozenBase,
                                  s.accounts[account].baseCost] :: x >= 0.0
  {
    if account in s.accounts {
      var a := s.accounts[account];
      var five := [a.availableQuote, a.frozenQuote, a.availableBase, a.frozenBase, a.baseCost];
      assert five[0] in five && five[1] in five && five[2] in five && five[3] in five && five[4] in five;
    }
  }
}
