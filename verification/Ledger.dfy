/** The clearing ledger as a value: balances, holds, journals, and what each operation makes of them. */
module Ledger {
  import opened Orders

  datatype Asset = Quote | Base

  /** Six balances, or six changes to them. */
  datatype Account = Account(
    availableQuote: real, frozenQuote: real, availableBase: real, frozenBase: real, baseCost: real, pnl: real)
  {
    function Plus(d: Account): Account {
      Account(availableQuote + d.availableQuote, frozenQuote + d.frozenQuote, availableBase + d.availableBase,
              frozenBase + d.frozenBase, baseCost + d.baseCost, pnl + d.pnl)
    }

    function Frozen(asset: Asset): real {
      if asset.Quote? then frozenQuote else frozenBase
    }

    function Available(asset: Asset): real {
      if asset.Quote? then availableQuote else availableBase
    }
  }

  datatype Hold = Hold(account: string, asset: Asset, amount: real)

  datatype FeeSchedule = FeeSchedule(maker: real, taker: real)

  datatype TradeFill = TradeFill(
    tradeId: string, symbol: string, buyer: string, seller: string, buyerHold: string, sellerHold: string,
    price: real, quantity: real, buyerIsTaker: bool, timestamp: int)

  datatype ClearingStatus =
    | Applied
    | Duplicate
    | InvalidInput
    | AccountNotFound
    | HoldAlreadyExists
    | HoldNotFound
    | InsufficientQuoteBalance
    | InsufficientBasePosition
    | BuyerFrozenQuoteInsufficient
    | SellerFrozenBaseInsufficient
    | BuyerHoldInsufficient
    | SellerHoldInsufficient
    | InvariantViolation

  datatype SettlementResult = SettlementResult(
    status: ClearingStatus, notional: real, buyerFee: real, sellerFee: real, pnl: real)

  datatype JournalEntry = JournalEntry(account: string, event: string, operation: string, delta: Account, timestamp: int)

  datatype OutboxMessage = OutboxMessage(id: string, symbol: string, buyer: string, seller: string)

  datatype State = State(
    accounts: map<string, Account>,
    holds: map<string, Hold>,
    journals: map<string, seq<JournalEntry>>,
    settled: set<string>,
    outbox: seq<OutboxMessage>)
  {
    function Journal(account: string): seq<JournalEntry> {
      if account in journals then journals[account] else []
    }
  }

  const NOTHING := State(map[], map[], map[], {}, [])

  // ---------------------------------------------------------------- freezing and releasing

  datatype Done = Done(state: State, status: ClearingStatus)

  /** Moves `amount` of an asset from available to frozen. */
  function FreezeDelta(asset: Asset, amount: real): Account {
    if asset.Quote? then Account(-amount, amount, 0.0, 0.0, 0.0, 0.0) else Account(0.0, 0.0, -amount, amount, 0.0, 0.0)
  }

  function Recorded(s: State, e: JournalEntry): State {
    s.(journals := s.journals[e.account := s.Journal(e.account) + [e]])
  }

  /** Changes a balance and journals the change. */
  function Posted(s: State, e: JournalEntry): State
    requires e.account in s.accounts
  {
    Recorded(s.(accounts := s.accounts[e.account := s.accounts[e.account].Plus(e.delta)]), e)
  }

  function FreezeEntry(asset: Asset, account: string, hold: string, amount: real, timestamp: int): JournalEntry {
    JournalEntry(account, hold, if asset.Quote? then "freeze_quote" else "freeze_base", FreezeDelta(asset, amount), timestamp)
  }

  function ReleaseEntry(h: Hold, hold: string, timestamp: int): JournalEntry {
    JournalEntry(h.account, hold, if h.asset.Quote? then "release_quote" else "release_base",
                 FreezeDelta(h.asset, -h.amount), timestamp)
  }

  function Freeze(s: State, asset: Asset, account: string, hold: string, amount: real, timestamp: int): Done {
    if account !in s.accounts then Done(s, AccountNotFound)
    else if amount <= 0.0 then Done(s, InvalidInput)
    else if hold in s.holds then Done(s, HoldAlreadyExists)
    else if s.accounts[account].Available(asset) < amount then
      Done(s, if asset.Quote? then InsufficientQuoteBalance else InsufficientBasePosition)
    else
      Done(Posted(s.(holds := s.holds[hold := Hold(account, asset, amount)]),
                  FreezeEntry(asset, account, hold, amount, timestamp)), Applied)
  }

  function Release(s: State, hold: string, timestamp: int): Done {
    if hold !in s.holds then Done(s, HoldNotFound)
    else if s.holds[hold].account !in s.accounts then Done(s, InvariantViolation)
    else Done(Posted(s.(holds := s.holds - {hold}), ReleaseEntry(s.holds[hold], hold, timestamp)), Applied)
  }

  // ---------------------------------------------------------------- settling

  datatype Amounts = Amounts(notional: real, buyerFee: real, sellerFee: real, costReleased: real)
  {
    function BuyerPays(): real { notional + buyerFee }
    function SellerGets(): real { notional - sellerFee }
    function Realized(): real { notional - sellerFee - costReleased }
  }

  function Notional(price: real, quantity: real): real {
    price * quantity
  }

  function FeeAmount(notional: real, bps: real): real {
    notional * bps / 10000.0
  }

  /** Average cost of what the seller gives up. */
  function CostReleased(seller: Account, quantity: real): real {
    var held := seller.availableBase + seller.frozenBase;
    if held > 0.0 then seller.baseCost / held * quantity else 0.0
  }

  function AmountsOf(fill: TradeFill, fees: FeeSchedule, seller: Account): Amounts {
    var notional := Notional(fill.price, fill.quantity);
    Amounts(notional,
            FeeAmount(notional, if fill.buyerIsTaker then fees.taker else fees.maker),
            FeeAmount(notional, if fill.buyerIsTaker then fees.maker else fees.taker),
            CostReleased(seller, fill.quantity))
  }

  predicate HoldCovers(s: State, hold: string, account: string, asset: Asset, amount: real) {
    hold in s.holds && s.holds[hold].account == account && s.holds[hold].asset == asset && s.holds[hold].amount >= amount
  }

  predicate ValidFill(fill: TradeFill) {
    fill.price > 0.0 && fill.quantity > 0.0 && fill.timestamp > 0
  }

  /** Whether balances and then holds cover both legs. */
  function Coverage(s: State, fill: TradeFill, a: Amounts): ClearingStatus
    requires fill.buyer in s.accounts && fill.seller in s.accounts
  {
    if s.accounts[fill.buyer].frozenQuote < a.BuyerPays() then BuyerFrozenQuoteInsufficient
    else if s.accounts[fill.seller].frozenBase < fill.quantity then SellerFrozenBaseInsufficient
    else if fill.buyerHold != "" && !HoldCovers(s, fill.buyerHold, fill.buyer, Quote, a.BuyerPays()) then
      BuyerHoldInsufficient
    else if fill.sellerHold != "" && !HoldCovers(s, fill.sellerHold, fill.seller, Base, fill.quantity) then
      SellerHoldInsufficient
    else Applied
  }

  /** The check that stops a settlement, in the order they are made; `Applied` if none does. */
  function Check(s: State, fill: TradeFill, fees: FeeSchedule): ClearingStatus {
    if fill.tradeId in s.settled then Duplicate
    else if fill.buyer !in s.accounts || fill.seller !in s.accounts then AccountNotFound
    else if !ValidFill(fill) then InvalidInput
    else Coverage(s, fill, AmountsOf(fill, fees, s.accounts[fill.seller]))
  }

  /** A hold with no more than the tolerance left is erased. */
  function Consumed(holds: map<string, Hold>, hold: string, amount: real): map<string, Hold> {
    if hold == "" || hold !in holds then holds
    else
      var left := holds[hold].amount - amount;
      if IsZero(left) then holds - {hold} else holds[hold := holds[hold].(amount := left)]
  }

  function BuyEntry(fill: TradeFill, a: Amounts): JournalEntry {
    JournalEntry(fill.buyer, fill.tradeId, "spot_trade_buy",
                 Account(0.0, -a.BuyerPays(), fill.quantity, 0.0, a.BuyerPays(), 0.0), fill.timestamp)
  }

  function SellEntry(fill: TradeFill, a: Amounts): JournalEntry {
    JournalEntry(fill.seller, fill.tradeId, "spot_trade_sell",
                 Account(a.SellerGets(), 0.0, 0.0, -fill.quantity, -a.costReleased, a.Realized()), fill.timestamp)
  }

  function Booked(s: State, fill: TradeFill, a: Amounts): State
    requires fill.buyer in s.accounts && fill.seller in s.accounts
  {
    Posted(Posted(s, BuyEntry(fill, a)), SellEntry(fill, a))
  }

  /** Both legs booked, both holds consumed, the trade id settled and announced. */
  function Carried(s: State, fill: TradeFill, a: Amounts): State
    requires fill.buyer in s.accounts && fill.seller in s.accounts
  {
    var message := OutboxMessage(fill.tradeId, fill.symbol, fill.buyer, fill.seller);
    Booked(s, fill, a).(
      holds := Consumed(Consumed(s.holds, fill.buyerHold, a.BuyerPays()), fill.sellerHold, fill.quantity),
      settled := s.settled + {fill.tradeId},
      outbox := s.outbox + [message])
  }

  datatype Settlement = Settlement(state: State, result: SettlementResult)

  function Settle(s: State, fill: TradeFill, fees: FeeSchedule): Settlement {
    var status := Check(s, fill, fees);
    if status != Applied then Settlement(s, SettlementResult(status, 0.0, 0.0, 0.0, 0.0))
    else
      var a := AmountsOf(fill, fees, s.accounts[fill.seller]);
      Settlement(Carried(s, fill, a),
                 SettlementResult(Applied, a.notional, a.buyerFee, a.sellerFee, a.Realized()))
  }

  function Upsert(s: State, account: string, snapshot: Account): State {
    s.(accounts := s.accounts[account := snapshot])
  }

  predicate Reconciles(s: State, account: string) {
    && account in s.accounts
    && var a := s.accounts[account];
       a.availableQuote >= 0.0 && a.frozenQuote >= 0.0 && a.availableBase >= 0.0 && a.frozenBase >= 0.0 && a.baseCost >= 0.0
  }
}
