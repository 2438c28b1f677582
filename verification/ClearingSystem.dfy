/** The clearing system as the program keeps it; each operation changes its fields the way `Ledger` says. */
module ClearingSystem {
  import opened Wrappers
  import opened Orders
  import opened Ledger

  class AccountClearingSystem {
    var accounts: map<string, Account>
    var holds: map<string, Hold>
    var journals: map<string, seq<JournalEntry>>
    var settled: set<string>
    var outbox: seq<OutboxMessage>

    function Contents(): State
      reads this
    {
      State(accounts, holds, journals, settled, outbox)
    }

    constructor ()
      ensures Contents() == NOTHING
    {
      accounts, holds, journals, settled, outbox := map[], map[], map[], {}, [];
    }

    method UpsertAccount(account: string, snapshot: Account)
      modifies this
      ensures Contents() == Upsert(old(Contents()), account, snapshot)
    {
      accounts := accounts[account := snapshot];
    }

    method AppendJournal(entry: JournalEntry)
      modifies this`journals
      ensures Contents() == Recorded(old(Contents()), entry)
    {
      if entry.account !in journals {
        journals := journals[entry.account := []];
      }
      journals := journals[entry.account := journals[entry.account] + [entry]];
    }

    method FreezeQuote(account: string, hold: string, amount: real, timestamp: int) returns (status: ClearingStatus)
      modifies this
      ensures Done(Contents(), status) == Freeze(old(Contents()), Quote, account, hold, amount, timestamp)
    {
      if account !in accounts {
        return AccountNotFound;
      }
      if amount <= 0.0 {
        return InvalidInput;
      }
      if hold in holds {
        return HoldAlreadyExists;
      }
      var snapshot := accounts[account];
      if snapshot.availableQuote < amount {
        return InsufficientQuoteBalance;
      }
      snapshot := snapshot.(availableQuote := snapshot.availableQuote - amount);
      snapshot := snapshot.(frozenQuote := snapshot.frozenQuote + amount);
      accounts := accounts[account := snapshot];
      holds := holds[hold := Hold(account, Quote, amount)];
      AppendJournal(JournalEntry(account, hold, "freeze_quote", Account(-amount, amount, 0.0, 0.0, 0.0, 0.0), timestamp));
      status := Applied;
    }

    method FreezeBase(account: string, hold: string, amount: real, timestamp: int) returns (status: ClearingStatus)
      modifies this
      ensures Done(Contents(), status) == Freeze(old(Contents()), Base, account, hold, amount, timestamp)
    {
      if account !in accounts {
        return AccountNotFound;
      }
      if amount <= 0.0 {
        return InvalidInput;
      }
      if hold in holds {
        return HoldAlreadyExists;
      }
      var snapshot := accounts[account];
      if snapshot.availableBase < amount {
        return InsufficientBasePosition;
      }
      snapshot := snapshot.(availableBase := snapshot.availableBase - amount);
      snapshot := snapshot.(frozenBase := snapshot.frozenBase + amount);
      accounts := accounts[account := snapshot];
      holds := holds[hold := Hold(account, Base, amount)];
      AppendJournal(JournalEntry(account, hold, "freeze_base", Account(0.0, 0.0, -amount, amount, 0.0, 0.0), timestamp));
      status := Applied;
    }

    method ReleaseHold(hold: string, timestamp: int) returns (status: ClearingStatus)
      modifies this
      ensures Done(Contents(), status) == Release(old(Contents()), hold, timestamp)
    {
      if hold !in holds {
        return HoldNotFound;
      }
      var h := holds[hold];
      if h.account !in accounts {
        return InvariantViolation;
      }
      var snapshot := accounts[h.account];
      if h.asset.Quote? {
        snapshot := snapshot.(frozenQuote := snapshot.frozenQuote - h.amount);
        snapshot := snapshot.(availableQuote := snapshot.availableQuote + h.amount);
        accounts := accounts[h.account := snapshot];
        AppendJournal(JournalEntry(h.account, hold, "release_quote",
                                   Account(h.amount, -h.amount, 0.0, 0.0, 0.0, 0.0), timestamp));
      } else {
        snapshot := snapshot.(frozenBase := snapshot.frozenBase - h.amount);
        snapshot := snapshot.(availableBase := snapshot.availableBase + h.amount);
        accounts := accounts[h.account := snapshot];
        AppendJournal(JournalEntry(h.account, hold, "release_base",
                                   Account(0.0, 0.0, h.amount, -h.amount, 0.0, 0.0), timestamp));
      }
      holds := holds - {hold};
      status := Applied;
    }

    method HoldAmount(hold: string) returns (amount: Option<real>)
      ensures amount == if hold in holds then Some(holds[hold].amount) else None
    {
      if hold in holds {
        amount := Some(holds[hold].amount);
      } else {
        amount := None;
      }
    }

    method ValidateHold(hold: string, account: string, asset: Asset, amount: real) returns (covers: bool)
      ensures covers <==> hold == "" || HoldCovers(Contents(), hold, account, asset, amount)
    {
      if hold == "" {
        return true;
      }
      covers := hold in holds && holds[hold].account == account && holds[hold].asset == asset && holds[hold].amount >= amount;
    }

    /** `validate_balance_coverage`, then `validate_hold_coverage`. */
    method ValidateCoverage(fill: TradeFill, a: Amounts) returns (status: ClearingStatus)
      requires fill.buyer in accounts && fill.seller in accounts
      ensures status == Coverage(Contents(), fill, a)
    {
      if accounts[fill.buyer].frozenQuote < a.BuyerPays() {
        return BuyerFrozenQuoteInsufficient;
      }
      if accounts[fill.seller].frozenBase < fill.quantity {
        return SellerFrozenBaseInsufficient;
      }
      var buyerCovered := ValidateHold(fill.buyerHold, fill.buyer, Quote, a.BuyerPays());
      if !buyerCovered {
        return BuyerHoldInsufficient;
      }
      var sellerCovered := ValidateHold(fill.sellerHold, fill.seller, Base, fill.quantity);
      if !sellerCovered {
        return SellerHoldInsufficient;
      }
      status := Applied;
    }

    method ConsumeHoldAmount(hold: string, amount: real)
      requires hold == "" || hold in holds
      modifies this`holds
      ensures holds == Consumed(old(holds), hold, amount)
    {
      if hold == "" {
        return;
      }
      holds := holds[hold := holds[hold].(amount := holds[hold].amount - amount)];
      if IsZero(holds[hold].amount) {
        holds := holds - {hold};
      }
    }

    /** The buyer's and the seller's balances, which are one and the same if they are the same account. */
    method MoveBalances(fill: TradeFill, a: Amounts)
      requires fill.buyer in accounts && fill.seller in accounts
      modifies this`accounts
      ensures accounts == Booked(old(Contents()), fill, a).accounts
    {
      var buyer := accounts[fill.buyer];
      buyer := buyer.(frozenQuote := buyer.frozenQuote - a.BuyerPays());
      buyer := buyer.(availableBase := buyer.availableBase + fill.quantity);
      buyer := buyer.(baseCost := buyer.baseCost + a.BuyerPays());
      accounts := accounts[fill.buyer := buyer];

      var seller := accounts[fill.seller];
      seller := seller.(frozenBase := seller.frozenBase - fill.quantity);
      seller := seller.(availableQuote := seller.availableQuote + (a.notional - a.sellerFee));
      seller := seller.(baseCost := seller.baseCost - a.costReleased);
      seller := seller.(pnl := seller.pnl + a.Realized());
      accounts := accounts[fill.seller := seller];
    }

    method AppendSettlementJournal(fill: TradeFill, a: Amounts)
      modifies this`journals
      ensures Contents() == Recorded(Recorded(old(Contents()), BuyEntry(fill, a)), SellEntry(fill, a))
    {
      AppendJournal(BuyEntry(fill, a));
      AppendJournal(SellEntry(fill, a));
    }

    /** The updates of a settlement whose checks have passed. */
    method CarryOut(fill: TradeFill, a: Amounts)
      requires fill.buyer in accounts && fill.seller in accounts && Coverage(Contents(), fill, a) == Applied
      modifies this
      ensures Contents() == Carried(old(Contents()), fill, a)
    {
      hide IsZero;
      MoveBalances(fill, a);
      ConsumeHoldAmount(fill.buyerHold, a.BuyerPays());
      ConsumeHoldAmount(fill.sellerHold, fill.quantity);
      AppendSettlementJournal(fill, a);
      outbox := outbox + [OutboxMessage(fill.tradeId, fill.symbol, fill.buyer, fill.seller)];
      settled := settled + {fill.tradeId};
    }

    method SettleSpotTrade(fill: TradeFill, fees: FeeSchedule) returns (result: SettlementResult)
      modifies this
      ensures Settlement(Contents(), result) == Settle(old(Contents()), fill, fees)
    {
      hide FeeAmount, CostReleased, Notional, Coverage, Carried;
      if fill.tradeId in settled {
        return SettlementResult(Duplicate, 0.0, 0.0, 0.0, 0.0);
      }
      if fill.buyer !in accounts || fill.seller !in accounts || !ValidFill(fill) {
        return SettlementResult(if fill.buyer !in accounts || fill.seller !in accounts then AccountNotFound else InvalidInput,
                                0.0, 0.0, 0.0, 0.0);
      }
      var a := AmountsOf(fill, fees, accounts[fill.seller]);
      var status := ValidateCoverage(fill, a);
      if status != Applied {
        return SettlementResult(status, 0.0, 0.0, 0.0, 0.0);
      }
      CarryOut(fill, a);
      result := SettlementResult(Applied, a.notional, a.buyerFee, a.sellerFee, a.Realized());
    }

    method ReconcileAccount(account: string) returns (balanced: bool)
      ensures balanced <==> Reconciles(Contents(), account)
    {
      if account !in accounts {
        return false;
      }
      var snapshot := accounts[account];
      balanced := snapshot.availableQuote >= 0.0 && snapshot.frozenQuote >= 0.0 && snapshot.availableBase >= 0.0
                  && snapshot.frozenBase >= 0.0 && snapshot.baseCost >= 0.0;
    }
  }
}
