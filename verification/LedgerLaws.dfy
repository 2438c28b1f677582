/** What every run of the clearing ledger keeps: balances, holds, journals and totals. */
module LedgerLaws {
  import opened Orders
  import opened Ledger
  import opened Sums

  // ---------------------------------------------------------------- holds of an account

  ghost function HoldsOf(holds: map<string, Hold>, account: string, asset: Asset): map<string, real> {
    map h | h in holds && holds[h].account == account && holds[h].asset == asset :: holds[h].amount
  }

  ghost function HoldSum(holds: map<string, Hold>, account: string, asset: Asset): real {
    Total(HoldsOf(holds, account, asset))
  }

  /** What a record counts towards an account and asset. */
  function Share(h: Hold, account: string, asset: Asset): real {
    if h.account == account && h.asset == asset then h.amount else 0.0
  }

  function ShareOf(holds: map<string, Hold>, hold: string, account: string, asset: Asset): real {
    if hold in holds then Share(holds[hold], account, asset) else 0.0
  }

  lemma HoldSumDrop(holds: map<string, Hold>, hold: string, account: string, asset: Asset)
    ensures HoldSum(holds - {hold}, account, asset) == HoldSum(holds, account, asset) - ShareOf(holds, hold, account, asset)
  {
    var m := HoldsOf(holds, account, asset);
    assert HoldsOf(holds - {hold}, account, asset) == m - {hold};
    if hold in m {
      TotalRemove(m, hold);
    } else {
      assert m - {hold} == m;
    }
  }

  lemma HoldSumPut(holds: map<string, Hold>, hold: string, h: Hold, account: string, asset: Asset)
    ensures HoldSum(holds[hold := h], account, asset)
         == HoldSum(holds, account, asset) - ShareOf(holds, hold, account, asset) + Share(h, account, asset)
  {
    HoldSumDrop(holds, hold, account, asset);
    HoldSumDrop(holds[hold := h], hold, account, asset);
    assert holds[hold := h] - {hold} == holds - {hold};
  }

  /** What is lost from sight when consuming `amount` erases the hold. */
  function Crumb(holds: map<string, Hold>, hold: string, amount: real): real {
    if hold in holds && IsZero(holds[hold].amount - amount) then holds[hold].amount - amount else 0.0
  }

  lemma ConsumedSum(holds: map<string, Hold>, hold: string, amount: real, account: string, asset: Asset)
    requires hold != "" && hold in holds
    ensures HoldSum(Consumed(holds, hold, amount), account, asset)
         == HoldSum(holds, account, asset)
            - (if holds[hold].account == account && holds[hold].asset == asset then amount + Crumb(holds, hold, amount) else 0.0)
  {
    HoldSumDrop(holds, hold, account, asset);
    HoldSumPut(holds, hold, holds[hold].(amount := holds[hold].amount - amount), account, asset);
  }

  lemma HoldSumIsPositive(holds: map<string, Hold>, account: string, asset: Asset)
    requires forall h | h in holds :: holds[h].amount > 0.0
    ensures HoldSum(holds, account, asset) >= 0.0
    ensures forall h | h in holds && holds[h].account == account && holds[h].asset == asset ::
              holds[h].amount <= HoldSum(holds, account, asset)
  {
    var m := HoldsOf(holds, account, asset);
    TotalIsPositive(m);
    forall h | h in holds && holds[h].account == account && holds[h].asset == asset
      ensures holds[h].amount <= HoldSum(holds, account, asset)
    {
      assert h in m && m[h] == holds[h].amount;
      TotalCovers(m, h);
    }
  }

  // ---------------------------------------------------------------- the invariant

  /** Frozen funds that no hold accounts for. */
  ghost function Slack(s: State, account: string, asset: Asset): real
    requires account in s.accounts
  {
    s.accounts[account].Frozen(asset) - HoldSum(s.holds, account, asset)
  }

  ghost predicate HoldsOk(s: State) {
    forall h | h in s.holds :: s.holds[h].account in s.accounts && s.holds[h].amount > 0.0
  }

  ghost predicate NonNegative(a: Account) {
    a.availableQuote >= 0.0 && a.availableBase >= 0.0 && a.baseCost >= 0.0
  }

  /** Every frozen balance is at least the sum of the account's holds. */
  ghost predicate LedgerOk(s: State) {
    && HoldsOk(s)
    && (forall a | a in s.accounts :: NonNegative(s.accounts[a]))
    && (forall a, asset | a in s.accounts :: Slack(s, a, asset) >= 0.0)
  }

  predicate FeesOk(fees: FeeSchedule) {
    0.0 <= fees.maker <= 10000.0 && 0.0 <= fees.taker <= 10000.0
  }

  /** Hence every account reconciles. */
  lemma {:induction false} LedgerReconciles(s: State, account: string)
    requires LedgerOk(s) && account in s.accounts
    ensures Reconciles(s, account)
  {
    HoldSumIsPositive(s.holds, account, Quote);
    HoldSumIsPositive(s.holds, account, Base);
    assert Slack(s, account, Quote) >= 0.0 && Slack(s, account, Base) >= 0.0;
    assert NonNegative(s.accounts[account]);
  }

  // ---------------------------------------------------------------- freezing and releasing

  lemma {:induction false} FreezeKeeps(s: State, asset: Asset, account: string, hold: string, amount: real, timestamp: int)
    requires LedgerOk(s)
    ensures var d := Freeze(s, asset, account, hold, amount, timestamp);
      && LedgerOk(d.state)
      && d.state.accounts.Keys == s.accounts.Keys
      && (forall a, k | a in s.accounts :: Slack(d.state, a, k) == Slack(s, a, k))
  {
    var d := Freeze(s, asset, account, hold, amount, timestamp);
    if d.status == Applied {
      forall a, k | a in s.accounts ensures Slack(d.state, a, k) == Slack(s, a, k) {
        HoldSumPut(s.holds, hold, Hold(account, asset, amount), a, k);
      }
    }
  }

  lemma {:induction false} ReleaseKeeps(s: State, hold: string, timestamp: int)
    requires LedgerOk(s)
    ensures var d := Release(s, hold, timestamp);
      && LedgerOk(d.state)
      && d.state.accounts.Keys == s.accounts.Keys
      && d.status == (if hold in s.holds then Applied else HoldNotFound)
      && (forall a, k | a in s.accounts :: Slack(d.state, a, k) == Slack(s, a, k))
  {
    if hold in s.holds {
      var d := Release(s, hold, timestamp);
      forall a, k | a in s.accounts ensures Slack(d.state, a, k) == Slack(s, a, k) {
        HoldSumDrop(s.holds, hold, a, k);
      }
    }
  }

  // ---------------------------------------------------------------- settling

  lemma FeeIsPart(notional: real, bps: real)
    requires notional >= 0.0 && 0.0 <= bps <= 10000.0
    ensures 0.0 <= FeeAmount(notional, bps) <= notional
  {
    assert 0.0 <= notional * bps <= notional * 10000.0;
  }

  /** Average-cost release never takes more than the cost there is. */
  lemma {:induction false} CostIsPart(seller: Account, quantity: real)
    requires seller.availableBase >= 0.0 && seller.baseCost >= 0.0 && 0.0 < quantity <= seller.frozenBase
    ensures 0.0 <= CostReleased(seller, quantity) <= seller.baseCost
  {
    var held := seller.availableBase + seller.frozenBase;
    var unit := seller.baseCost / held;
    assert unit * held == seller.baseCost;
    assert unit >= 0.0;
    assert 0.0 <= unit * quantity <= unit * held;
  }

  lemma NotionalIsPositive(price: real, quantity: real)
    requires price > 0.0 && quantity > 0.0
    ensures Notional(price, quantity) > 0.0
  {
  }

  lemma AmountsAreParts(s: State, fill: TradeFill, fees: FeeSchedule)
    requires LedgerOk(s) && FeesOk(fees) && Check(s, fill, fees) == Applied
    ensures var a := AmountsOf(fill, fees, s.accounts[fill.seller]);
      && a.SellerGets() >= 0.0 && a.BuyerPays() > 0.0
      && 0.0 <= a.costReleased <= s.accounts[fill.seller].baseCost
  {
    hide FeeAmount, CostReleased;
    NotionalIsPositive(fill.price, fill.quantity);
    var a := AmountsOf(fill, fees, s.accounts[fill.seller]);
    FeeIsPart(a.notional, fees.maker);
    FeeIsPart(a.notional, fees.taker);
    CostIsPart(s.accounts[fill.seller], fill.quantity);
  }

  ghost predicate NamesHolds(fill: TradeFill) {
    fill.buyerHold != "" && fill.sellerHold != ""
  }

  /** What the two holds become. */
  lemma HoldsAfter(s: State, fill: TradeFill, fees: FeeSchedule)
    requires Check(s, fill, fees) == Applied && NamesHolds(fill)
    ensures var a := AmountsOf(fill, fees, s.accounts[fill.seller]);
      var first := Consumed(s.holds, fill.buyerHold, a.BuyerPays());
      && fill.buyerHold in s.holds && fill.sellerHold in first && fill.buyerHold != fill.sellerHold
      && first[fill.sellerHold] == s.holds[fill.sellerHold]
      && s.holds[fill.buyerHold].account == fill.buyer && s.holds[fill.buyerHold].asset == Quote
      && s.holds[fill.sellerHold].account == fill.seller && s.holds[fill.sellerHold].asset == Base
      && a.BuyerPays() <= s.holds[fill.buyerHold].amount && fill.quantity <= s.holds[fill.sellerHold].amount
      && Settle(s, fill, fees).state.holds == Consumed(first, fill.sellerHold, fill.quantity)
  {
    hide FeeAmount, CostReleased;
  }

  /** What an applied settlement adds to the frozen funds no hold accounts for: at most a tolerance, for the
      buyer's quote if the buyer's hold was erased and for the seller's base if the seller's was. */
  function CrumbOf(s: State, fill: TradeFill, a: Amounts, account: string, asset: Asset): real {
    if asset.Quote? then (if account == fill.buyer then Crumb(s.holds, fill.buyerHold, a.BuyerPays()) else 0.0)
    else (if account == fill.seller then Crumb(s.holds, fill.sellerHold, fill.quantity) else 0.0)
  }

  lemma {:induction false} SettleSlack(s: State, fill: TradeFill, fees: FeeSchedule, account: string, asset: Asset)
    requires Check(s, fill, fees) == Applied && NamesHolds(fill) && account in s.accounts
    ensures Settle(s, fill, fees).state.accounts.Keys == s.accounts.Keys
    ensures var a := AmountsOf(fill, fees, s.accounts[fill.seller]);
      && 0.0 <= CrumbOf(s, fill, a, account, asset) <= EPSILON
      && Slack(Settle(s, fill, fees).state, account, asset) == Slack(s, account, asset) + CrumbOf(s, fill, a, account, asset)
  {
    hide FeeAmount, CostReleased, HoldSum;
    var a := AmountsOf(fill, fees, s.accounts[fill.seller]);
    HoldsAfter(s, fill, fees);
    ConsumedSum(s.holds, fill.buyerHold, a.BuyerPays(), account, asset);
    ConsumedSum(Consumed(s.holds, fill.buyerHold, a.BuyerPays()), fill.sellerHold, fill.quantity, account, asset);
    BookedFrozen(s, fill, a, account, asset);
  }

  lemma BookedFrozen(s: State, fill: TradeFill, a: Amounts, account: string, asset: Asset)
    requires fill.buyer in s.accounts && fill.seller in s.accounts && account in s.accounts
    ensures Booked(s, fill, a).accounts.Keys == s.accounts.Keys
    ensures Booked(s, fill, a).accounts[account].Frozen(asset) == s.accounts[account].Frozen(asset)
      - (if asset.Quote? then (if account == fill.buyer then a.BuyerPays() else 0.0)
         else (if account == fill.seller then fill.quantity else 0.0))
  {
  }

  lemma BookedNonNegative(s: State, fill: TradeFill, a: Amounts, account: string)
    requires fill.buyer in s.accounts && fill.seller in s.accounts && account in s.accounts
    requires NonNegative(s.accounts[account])
    requires a.SellerGets() >= 0.0 && a.BuyerPays() > 0.0 && fill.quantity > 0.0
    requires 0.0 <= a.costReleased <= s.accounts[fill.seller].baseCost
    ensures account in Booked(s, fill, a).accounts && NonNegative(Booked(s, fill, a).accounts[account])
  {
  }

  lemma {:induction false} SettleKeeps(s: State, fill: TradeFill, fees: FeeSchedule)
    requires LedgerOk(s) && FeesOk(fees) && NamesHolds(fill)
    ensures LedgerOk(Settle(s, fill, fees).state)
    ensures Settle(s, fill, fees).state.accounts.Keys == s.accounts.Keys
  {
    hide FeeAmount, CostReleased, HoldSum, Slack, Booked;
    var s' := Settle(s, fill, fees).state;
    if Check(s, fill, fees) == Applied {
      var a := AmountsOf(fill, fees, s.accounts[fill.seller]);
      HoldsAfter(s, fill, fees);
      AmountsAreParts(s, fill, fees);
      SettleSlack(s, fill, fees, fill.buyer, Quote);
      forall x | x in s'.accounts ensures NonNegative(s'.accounts[x]) {
        BookedNonNegative(s, fill, a, x);
      }
      forall x, k | x in s'.accounts ensures Slack(s', x, k) >= 0.0 {
        SettleSlack(s, fill, fees, x, k);
      }
    }
  }

  // ---------------------------------------------------------------- journals, worth and totals

  /** The deltas of a journal, in order, on top of an opening snapshot. */
  function Replay(opening: Account, entries: seq<JournalEntry>): Account {
    if entries == [] then opening
    else Replay(opening, entries[..|entries| - 1]).Plus(entries[|entries| - 1].delta)
  }

  ghost predicate Journaled(s: State, openings: map<string, Account>) {
    && openings.Keys == s.accounts.Keys
    && (forall a | a in s.journals :: a in s.accounts)
    && (forall a | a in s.accounts :: Replay(openings[a], s.Journal(a)) == s.accounts[a])
  }

  lemma PostedReplays(s: State, e: JournalEntry, openings: map<string, Account>)
    requires e.account in s.accounts && Journaled(s, openings)
    ensures Journaled(Posted(s, e), openings)
  {
    var entries := s.Journal(e.account);
    assert (entries + [e])[..|entries|] == entries;
  }

  lemma SettleReplays(s: State, fill: TradeFill, fees: FeeSchedule, openings: map<string, Account>)
    requires Journaled(s, openings)
    ensures Journaled(Settle(s, fill, fees).state, openings)
  {
    hide FeeAmount, CostReleased, Replay;
    if Check(s, fill, fees) == Applied {
      var a := AmountsOf(fill, fees, s.accounts[fill.seller]);
      var first := Posted(s, BuyEntry(fill, a));
      PostedReplays(s, BuyEntry(fill, a), openings);
      PostedReplays(first, SellEntry(fill, a), openings);
      JournaledFrame(Posted(first, SellEntry(fill, a)), Settle(s, fill, fees).state, openings);
    }
  }

  lemma JournaledFrame(s: State, s': State, openings: map<string, Account>)
    requires Journaled(s, openings) && s'.accounts == s.accounts && s'.journals == s.journals
    ensures Journaled(s', openings)
  {
    forall a | a in s'.accounts ensures Replay(openings[a], s'.Journal(a)) == s'.accounts[a] {
      assert s'.Journal(a) == s.Journal(a);
    }
  }

  /** Funds and cost, less what trading has earned. */
  function Worth(a: Account): real {
    a.availableQuote + a.frozenQuote + a.baseCost - a.pnl
  }

  /** A journal of changes that are worth nothing leaves the worth of the opening snapshot. */
  lemma {:induction false} ReplayKeepsWorth(opening: Account, entries: seq<JournalEntry>)
    requires forall e | e in entries :: Worth(e.delta) == 0.0
    ensures Worth(Replay(opening, entries)) == Worth(opening)
  {
    if entries != [] {
      assert entries[|entries| - 1] in entries;
      ReplayKeepsWorth(opening, entries[..|entries| - 1]);
    }
  }

  ghost predicate WorthlessJournals(s: State) {
    forall a, e | a in s.journals && e in s.journals[a] :: Worth(e.delta) == 0.0
  }

  function HoldingOf(a: Account, asset: Asset): real {
    a.Available(asset) + a.Frozen(asset)
  }

  /** All accounts' holdings of an asset. */
  ghost function TotalHeld(accounts: map<string, Account>, asset: Asset): real {
    Total(map a | a in accounts :: HoldingOf(accounts[a], asset))
  }

  ghost function TotalOf(s: State, asset: Asset): real {
    TotalHeld(s.accounts, asset)
  }

  lemma TotalHeldPut(accounts: map<string, Account>, account: string, snapshot: Account, asset: Asset)
    ensures TotalHeld(accounts[account := snapshot], asset)
         == TotalHeld(accounts, asset) - (if account in accounts then HoldingOf(accounts[account], asset) else 0.0)
            + HoldingOf(snapshot, asset)
  {
    var m := map a | a in accounts :: HoldingOf(accounts[a], asset);
    var after := accounts[account := snapshot];
    TotalPutOver(m, account, HoldingOf(snapshot, asset));
    assert (map a | a in after :: HoldingOf(after[a], asset)) == m[account := HoldingOf(snapshot, asset)];
  }

  lemma PostedTotal(s: State, e: JournalEntry, asset: Asset)
    requires e.account in s.accounts
    ensures TotalOf(Posted(s, e), asset) == TotalOf(s, asset) + HoldingOf(e.delta, asset)
  {
    TotalHeldPut(s.accounts, e.account, s.accounts[e.account].Plus(e.delta), asset);
  }

  /** An applied settlement moves base and loses exactly the two fees of quote; any other loses nothing. */
  lemma {:induction false} SettleTotals(s: State, fill: TradeFill, fees: FeeSchedule)
    ensures var t := Settle(s, fill, fees);
      && TotalOf(t.state, Base) == TotalOf(s, Base)
      && TotalOf(t.state, Quote) == TotalOf(s, Quote) - (t.result.buyerFee + t.result.sellerFee)
      && (t.result.status == Applied <==> t.state.settled != s.settled)
      && (t.result.status == Applied ==> fill.tradeId !in s.settled && t.state.settled == s.settled + {fill.tradeId})
  {
    hide FeeAmount, CostReleased;
    if Check(s, fill, fees) == Applied {
      var a := AmountsOf(fill, fees, s.accounts[fill.seller]);
      var first := Posted(s, BuyEntry(fill, a));
      forall k: Asset ensures TotalOf(Settle(s, fill, fees).state, k)
                 == TotalOf(s, k) + HoldingOf(BuyEntry(fill, a).delta, k) + HoldingOf(SellEntry(fill, a).delta, k) {
        PostedTotal(s, BuyEntry(fill, a), k);
        PostedTotal(first, SellEntry(fill, a), k);
        assert TotalOf(Settle(s, fill, fees).state, k) == TotalOf(Posted(first, SellEntry(fill, a)), k);
      }
      assert fill.tradeId in Settle(s, fill, fees).state.settled;
    }
  }
}
