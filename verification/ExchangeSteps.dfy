/** The stages of one submit: holding funds, matching, settling; and what a taker's hold is good for. */
module ExchangeSteps {
  import opened Orders
  import opened OrderBook
  import OrderBookLaws
  import opened Ledger
  import opened LedgerLaws
  import opened RiskEngine
  import opened Exchange
  import opened ExchangeInvariant
  import opened ExchangeFunds
  import opened ExchangeSettling
  import opened ExchangeClosing

  // ---------------------------------------------------------------- holding funds

  /** An order that passed the risk check, is new, and for which `reserved` is held. */
  ghost predicate Taking(w: World, placed: History, o: Order, reserved: real) {
    && WellShaped(o) && NoArrow(o.id)
    && o.id in placed && placed[o.id] == Placed(o.user, o.side)
    && o.id in w.registry && w.registry[o.id].side == o.side
    && !Rests(w.book, o.id)
    && HoldId(o.id) in w.ledger.holds && w.ledger.holds[HoldId(o.id)].amount == reserved && reserved > 0.0
    && (forall maker | NoArrow(maker) :: TradeId(maker, o.id) !in w.ledger.settled)
  }

  function Noted(placed: History, o: Order): History {
    placed[o.id := Placed(o.user, o.side)]
  }

  lemma ManagedOwners(b: Book, registry: map<string, Managed>, placed: History, symbol: string, tick: real, o: Order)
    requires OwnersOk(b, registry, placed, symbol, tick) && o.id !in placed
    ensures OwnersOk(b, registry[o.id := Managed(o.user, symbol, o.side, HoldId(o.id))], Noted(placed, o), symbol, tick)
    ensures !Rests(b, o.id)
  {
    hide BookOk, PriceOk;
    RestingIsManaged(b, registry, placed, symbol, tick);
  }

  lemma ManagedTracking(w: World, w': World, o: Order, m: Managed)
    requires TrackedOk(w) && w'.tracked == w.tracked && w'.book == w.book
    requires AllManaged(w.book, w.registry) && o.id !in w.registry && w'.registry == w.registry[o.id := m]
    ensures TrackedOk(w')
  {
    hide Knows, Rests;
    forall x | x in w.book.bids || x in w.book.asks ensures x.id in w.registry && w'.registry[x.id] == w.registry[x.id] {
      InRests(w.book, x);
    }
  }

  lemma ManagedCover(holds: map<string, Hold>, holds': map<string, Hold>, b: Book, fees: FeeSchedule, hold: string, h: Hold)
    requires BookCovered(holds, b, fees) && hold !in holds && holds' == holds[hold := h]
    ensures BookCovered(holds', b, fees)
  {
    hide Cover;
  }

  /** Holding funds for a new order keeps everything in order. */
  lemma {:induction false} ManagingKeeps(w: World, placed: History, tick: real, o: Order)
    requires Inv(w, placed, tick) && OrderOk(o, placed, tick) && WellShaped(o) && o.symbol == w.symbol
    requires Reserve(w, o).status == Applied
    ensures Inv(Managing(w, o), Noted(placed, o), tick)
    ensures Taking(Managing(w, o), Noted(placed, o), o, ReserveAmount(w, o))
  {
    hide FundsOk, Freeze, BookCovered, OwnersOk, TrackedOk, AllManaged, Rests, ReserveAmount, NoArrow, PriceOk;
    var w' := Managing(w, o);
    TakingFunds(w, placed, o);
    ManagedOwners(w.book, w.registry, placed, w.symbol, tick, o);
    RestingIsManaged(w.book, w.registry, placed, w.symbol, tick);
    OwnersAreNoted(w.book, w.registry, placed, w.symbol, tick);
    ManagedTracking(w, w', o, w'.registry[o.id]);
    ManagedCover(w.ledger.holds, w'.ledger.holds, w.book, w.fees, HoldId(o.id), w'.ledger.holds[HoldId(o.id)]);
    ManagedDust(w.ledger.holds, w'.ledger.holds, placed, w.registry, w'.registry, o, w'.ledger.holds[HoldId(o.id)]);
  }

  lemma TakingFunds(w: World, placed: History, o: Order)
    requires FundsOk(w.ledger, placed) && o.id !in placed && NoArrow(o.id) && Reserve(w, o).status == Applied
    ensures var l' := Reserve(w, o).state;
      && FundsOk(l', Noted(placed, o))
      && HoldId(o.id) !in w.ledger.holds && ReserveAmount(w, o) > 0.0
      && l'.holds == w.ledger.holds[HoldId(o.id) := Hold(o.user, AssetOf(o.side), ReserveAmount(w, o))]
      && (forall maker | NoArrow(maker) :: TradeId(maker, o.id) !in l'.settled)
  {
    hide LedgerOk, HoldsMatch, PlacedOk, SlackOk, Freeze, ReserveAmount, NoArrow;
    ReserveFunds(w.ledger, placed, o.user, o.side, o.id, ReserveAmount(w, o), o.timestamp);
  }

  lemma OwnersAreNoted(b: Book, registry: map<string, Managed>, placed: History, symbol: string, tick: real)
    requires OwnersOk(b, registry, placed, symbol, tick)
    ensures registry.Keys <= placed.Keys
  {
  }

  lemma ManagedDust(holds: map<string, Hold>, holds': map<string, Hold>, placed: History, registry: map<string, Managed>,
                    registry': map<string, Managed>, o: Order, h: Hold)
    requires DustOk(holds, placed, registry) && o.id !in placed
    requires registry'.Keys == registry.Keys + {o.id} && holds' == holds[HoldId(o.id) := h]
    ensures DustOk(holds', Noted(placed, o), registry')
  {
    forall id | id in placed ensures HoldId(id) != HoldId(o.id) {
      HoldIdOf(id);
      HoldIdOf(o.id);
    }
  }

  // ---------------------------------------------------------------- matching

  function Makers(w: World, o: Order): seq<Resting> {
    w.book.Of(Other(o.side))
  }

  function FillOfOrder(w: World, o: Order): FillResult {
    Fill(ToMatching(o), Makers(w, o), o.quantity)
  }

  function MatchOf(w: World, o: Order): Outcome {
    OrderBook.Submit(w.book, ToMatching(o))
  }

  /** A match either changes nothing or is the execution of the order. */
  lemma MatchedOrNot(w: World, o: Order)
    requires WellShaped(o) && !Rests(w.book, o.id) && BookOk(w.book)
    ensures var m := MatchOf(w, o);
      && (!m.result.accepted ==> m.result.trades == [] && m.book == w.book)
      && (m.result.accepted ==> m == Execute(w.book, ToMatching(o)) && m.result.trades == FillOfOrder(w, o).trades)
  {
    hide Rests, BookOk, Reaches;
    var r, f := ToMatching(o), FillOfOrder(w, o);
    if MatchOf(w, o) == Execute(w.book, r) && FinalStatus(r, f).Rejected? {
      OrderBookLaws.NothingTraded(w.book, r);
    }
  }

  // ---------------------------------------------------------------- settling

  function TermsFor(w: World, placed: History, o: Order): Terms {
    Terms(w.registry, placed, w.symbol, o.timestamp, w.fees, o.id, o.side)
  }

  function SettlingRun(w: World, placed: History, o: Order): SettleRun {
    RunOf(TermsFor(w, placed, o), w.ledger, ToMatching(o), Makers(w, o), o.quantity)
  }

  /** When the match begins, the makers' holds cover them and no trade with the taker is settled. */
  lemma ReadyToSettle(w: World, placed: History, tick: real, o: Order, reserved: real)
    requires Core(w, placed, tick) && Taking(w, placed, o, reserved)
    ensures Ready(TermsFor(w, placed, o), w.ledger, ToMatching(o), Makers(w, o), o.quantity)
    ensures TakerHas(w.ledger.holds, o.id, reserved)
    ensures !Has(Makers(w, o), o.id)
  {
    hide LedgerOk, HoldsMatch, SettledOk, SlackOk, Cover, NoArrow, OnGrid, Uncrossed, NoSharedId, Sorted, TradeId;
    var c := TermsFor(w, placed, o);
    forall x | x in Makers(w, o) ensures MakerReady(c, w.ledger.holds, x) && TradeId(x.id, o.id) !in w.ledger.settled {
      assert x.id in placed;
    }
  }

  /** The two sides of the book after an execution. */
  lemma ExecutedSides(b: Book, r: OrderRequest)
    requires BookOk(b) && !Rests(b, r.id) && r.quantity > 0.0
    ensures var f, b' := Fill(r, b.Of(Other(r.side)), r.quantity), Execute(b, r).book;
      && BookOk(b')
      && b'.Of(Other(r.side)) == f.left
      && (forall x | x in b'.Of(r.side) :: x in b.Of(r.side) || (WillRest(r, f) && x == Resting(r.id, r.price, f.remaining)))
      && (forall x | x in f.left :: exists m | m in b.Of(Other(r.side)) :: m.id == x.id && m.price == x.price && x.open <= m.open)
      && 0.0 <= f.remaining <= r.quantity
  {
    hide Sorted, DistinctIds, Uncrossed, NoSharedId, Reaches, Fill, BookOk;
    assert SideOk(Other(r.side), b.Of(Other(r.side))) && SideOk(r.side, b.Of(r.side)) && AllOpen(b.Of(Other(r.side))) by {
      SidesAreOk(b, r.side);
    }
    OrderBookLaws.ExecuteKeeps(b, r);
    OrderBookLaws.FillKeepsIds(Other(r.side), r, b.Of(Other(r.side)), r.quantity);
    FillConserves(r, b.Of(Other(r.side)), r.quantity);
    var f := Fill(r, b.Of(Other(r.side)), r.quantity);
    if WillRest(r, f) {
      OrderBookLaws.InsertKeeps(r.side, b.Of(r.side), Resting(r.id, r.price, f.remaining));
    }
  }

  lemma SidesAreOk(b: Book, side: Side)
    requires BookOk(b)
    ensures SideOk(side, b.Of(side)) && SideOk(Other(side), b.Of(Other(side))) && AllOpen(b.Of(Other(side)))
  {
  }

  lemma ExecutedOwners(w: World, placed: History, tick: real, o: Order)
    requires OwnersOk(w.book, w.registry, placed, w.symbol, tick) && WellShaped(o) && !Rests(w.book, o.id)
    requires o.id in w.registry && w.registry[o.id].side == o.side && (o.kind.Limit? ==> PriceOk(o.price, tick))
    ensures OwnersOk(Execute(w.book, ToMatching(o)).book, w.registry, placed, w.symbol, tick)
  {
    hide BookOk, PriceOk, Fill, RegistryOk, Execute, Rests;
    var b' := Execute(w.book, ToMatching(o)).book;
    ExecutedSides(w.book, ToMatching(o));
    assert RestingOk(b'.Of(o.side), o.side, w.registry, tick);
    assert RestingOk(b'.Of(Other(o.side)), Other(o.side), w.registry, tick);
  }

  /** The holds after the settlements cover the book after the match, if they cover what now rests. */
  lemma ExecutedCover(w: World, placed: History, o: Order, holds': map<string, Hold>)
    requires BookCovered(w.ledger.holds, w.book, w.fees) && BookOk(w.book) && !Rests(w.book, o.id) && o.quantity > 0.0
    requires Bystanders(w.ledger.holds, holds', Makers(w, o), o.id)
    requires forall x | x in FillOfOrder(w, o).left :: MakerReady(TermsFor(w, placed, o), holds', x)
    requires WillRest(ToMatching(o), FillOfOrder(w, o)) ==>
      HoldId(o.id) in holds' && holds'[HoldId(o.id)].amount >= Cover(o.side, o.price, FillOfOrder(w, o).remaining, w.fees)
    ensures BookCovered(holds', Execute(w.book, ToMatching(o)).book, w.fees)
  {
    hide Fill, Cover, Execute, NoArrow;
    var b' := Execute(w.book, ToMatching(o)).book;
    ExecutedSides(w.book, ToMatching(o));
    OwnSideStandsBy(w, o);
    assert Covered(holds', b'.Of(o.side), o.side, w.fees);
    assert Covered(holds', b'.Of(Other(o.side)), Other(o.side), w.fees);
  }

  lemma OwnSideStandsBy(w: World, o: Order)
    requires BookOk(w.book) && !Rests(w.book, o.id)
    ensures forall x | x in w.book.Of(o.side) :: x.id != o.id && !Has(Makers(w, o), x.id)
  {
  }

  /** The settlements touch no hold of an order that is not managed. */
  lemma ExecutedDust(w: World, placed: History, tick: real, o: Order, holds': map<string, Hold>)
    requires DustOk(w.ledger.holds, placed, w.registry) && OwnersOk(w.book, w.registry, placed, w.symbol, tick)
    requires o.id in w.registry && Bystanders(w.ledger.holds, holds', Makers(w, o), o.id)
    ensures DustOk(holds', placed, w.registry)
  {
    hide BookOk, PriceOk, RegistryOk;
    RestingIsManaged(w.book, w.registry, placed, w.symbol, tick);
  }

  /** Matching and settling keep everything but the tracking, provided that what now rests is covered. */
  lemma SettlingKeeps(w: World, placed: History, tick: real, o: Order, reserved: real)
    requires Core(w, placed, tick) && Taking(w, placed, o, reserved) && (o.kind.Limit? ==> PriceOk(o.price, tick))
    requires WillRest(ToMatching(o), FillOfOrder(w, o)) ==>
      var holds' := SettlingRun(w, placed, o).ledger.holds;
      HoldId(o.id) in holds' && holds'[HoldId(o.id)].amount >= Cover(o.side, o.price, FillOfOrder(w, o).remaining, w.fees)
    ensures var run := SettlingRun(w, placed, o);
      && (run.status == Completed || run.status == SettlementRejected)
      && Core(w.(book := Execute(w.book, ToMatching(o)).book, ledger := run.ledger), placed, tick)
  {
    hide FundsOk, BookCovered, DustOk, Bystanders, MakerReady, Cover, Fill, NoArrow, Rests, Execute, PriceOk, BookOk;
    hide RestingOk, RegistryOk, Ready, RunOf, TakerHas, TradeId;
    ReadyToSettle(w, placed, tick, o, reserved);
    RunKeeps(TermsFor(w, placed, o), w.ledger, ToMatching(o), Makers(w, o), o.quantity);
    ExecutedOwners(w, placed, tick, o);
    ExecutedCover(w, placed, o, SettlingRun(w, placed, o).ledger.holds);
    ExecutedDust(w, placed, tick, o, SettlingRun(w, placed, o).ledger.holds);
  }

  // ---------------------------------------------------------------- what the taker's hold is good for

  /** Price times quantity over all trades. */
  function Cost(trades: seq<Trade>): real {
    if trades == [] then 0.0 else Notional(trades[0].price, trades[0].quantity) + Cost(trades[1..])
  }

  /** A buyer spends the cost and the taker fee on it, a seller what is traded. */
  lemma {:induction false} SpendIs(trades: seq<Trade>, side: Side, fees: FeeSchedule)
    ensures Spend(trades, side, fees) == if side.Buy? then Gross(Cost(trades), fees.taker) else SumTraded(trades)
  {
    hide Gross, Notional;
    if trades == [] {
      assert Gross(0.0, fees.taker) == 0.0 by {
        GrossAdds(0.0, 0.0, fees.taker);
      }
    } else {
      SpendIs(trades[1..], side, fees);
      var first, rest := Notional(trades[0].price, trades[0].quantity), Cost(trades[1..]);
      GrossAdds(first, rest, fees.taker);
      assert side.Buy? ==> Cover(side, trades[0].price, trades[0].quantity, fees) == Gross(first, fees.taker);
      assert Cost(trades) == first + rest;
    }
  }

  /** Trades at no more than `price` cost no more than `price` times what is traded. */
  lemma {:induction false} CostAtMost(trades: seq<Trade>, price: real)
    requires forall t | t in trades :: t.price <= price && t.quantity >= 0.0
    ensures Cost(trades) <= Notional(price, SumTraded(trades))
  {
    if trades != [] {
      var t := trades[0];
      assert t in trades;
      CostAtMost(trades[1..], price);
      assert Notional(t.price, t.quantity) <= Notional(price, t.quantity);
      assert Notional(price, SumTraded(trades)) == Notional(price, t.quantity) + Notional(price, SumTraded(trades[1..]));
    }
  }

  lemma LimitPrices(w: World, placed: History, tick: real, o: Order)
    requires OwnersOk(w.book, w.registry, placed, w.symbol, tick) && tick > EPSILON
    requires o.side.Buy? && o.kind.Limit? && PriceOk(o.price, tick)
    ensures forall t | t in FillOfOrder(w, o).trades :: t.price <= o.price && t.quantity >= 0.0
  {
    hide OnGrid, Uncrossed, NoSharedId, Sorted, DistinctIds, RegistryOk;
    var trades, makers := FillOfOrder(w, o).trades, Makers(w, o);
    FillIsPriceTimePriority(ToMatching(o), makers, o.quantity);
    forall i | 0 <= i < |trades| ensures trades[i].price <= o.price && trades[i].quantity >= 0.0 {
      assert makers[i] in w.book.asks;
      GridGap(makers[i].price, o.price, tick);
    }
  }

  lemma GrossDecides(a: real, b: real, bps: real)
    requires 0.0 <= bps
    ensures Gross(a, bps) <= Gross(b, bps) <==> a <= b
  {
    if a <= b {
      GrossGrows(a, b, bps);
    } else {
      assert b * bps <= a * bps;
    }
  }

  /** What a limit buy holds is enough for its trades and for what is left at its price. */
  lemma LimitBuyHasEnough(w: World, placed: History, tick: real, o: Order)
    requires Core(w, placed, tick) && o.side.Buy? && o.kind.Limit? && PriceOk(o.price, tick) && o.quantity > 0.0
    ensures var f := FillOfOrder(w, o);
      Spend(f.trades, Buy, w.fees) + Cover(Buy, o.price, f.remaining, w.fees) <= ReserveAmount(w, o)
  {
    hide FundsOk, BookCovered, DustOk, Gross, Fill, PriceOk, Notional, WithFee;
    var f := FillOfOrder(w, o);
    assert o.price >= 1.0 by { PriceIsPositive(o.price, tick); }
    SidesAreOk(w.book, o.side);
    FillConserves(ToMatching(o), Makers(w, o), o.quantity);
    LimitPrices(w, placed, tick, o);
    CostAtMost(f.trades, o.price);
    SpendIs(f.trades, Buy, w.fees);
    var most := Notional(o.price, SumTraded(f.trades));
    GrossGrows(Cost(f.trades), most, w.fees.taker);
    CoverSplits(Buy, o.price, o.quantity, SumTraded(f.trades), w.fees);
    assert Cover(Buy, o.price, SumTraded(f.trades), w.fees) == Gross(most, w.fees.taker);
    assert f.remaining == o.quantity - SumTraded(f.trades);
    ReserveOf(w, o);
  }

  lemma PriceIsPositive(price: real, tick: real)
    requires PriceOk(price, tick) && tick > EPSILON
    ensures price >= 1.0
  {
  }

  lemma ReserveOf(w: World, o: Order)
    requires o.side.Buy? && o.kind.Limit? && o.price > 0.0
    ensures ReserveAmount(w, o) == Cover(Buy, o.price, o.quantity, w.fees)
  {
    GrossIsFactor(o.price, o.quantity, w.fees.taker);
  }

  lemma SellHasEnough(w: World, placed: History, tick: real, o: Order)
    requires Core(w, placed, tick) && o.side.Sell? && o.quantity > 0.0
    ensures var f := FillOfOrder(w, o);
      Spend(f.trades, Sell, w.fees) + Cover(Sell, o.price, f.remaining, w.fees) <= ReserveAmount(w, o)
  {
    hide FundsOk, BookCovered, DustOk, Fill, PriceOk;
    SidesAreOk(w.book, o.side);
    FillConserves(ToMatching(o), Makers(w, o), o.quantity);
    SpendIs(FillOfOrder(w, o).trades, Sell, w.fees);
  }

  /** What a market buy holds is enough exactly if its trades cost no more than the best ask for all of it. */
  lemma MarketBuyDecides(w: World, placed: History, tick: real, o: Order)
    requires Core(w, placed, tick) && o.side.Buy? && o.kind.Market? && o.quantity > 0.0 && ReserveAmount(w, o) > 0.0
    ensures Spend(FillOfOrder(w, o).trades, Buy, w.fees) <= ReserveAmount(w, o) <==>
              w.book.asks == [] || Cost(FillOfOrder(w, o).trades) <= Notional(w.book.asks[0].price, o.quantity)
  {
    hide FundsOk, BookCovered, DustOk, Gross, OwnersOk, Notional, WithFee;
    var trades := FillOfOrder(w, o).trades;
    SpendIs(trades, Buy, w.fees);
    if w.book.asks == [] {
      assert trades == [];
    } else {
      hide Fill;
      var best := Notional(w.book.asks[0].price, o.quantity);
      GrossIsFactor(w.book.asks[0].price, o.quantity, w.fees.taker);
      GrossDecides(Cost(trades), best, w.fees.taker);
      assert ReserveAmount(w, o) == Gross(best, w.fees.taker);
    }
  }

  /** The trades cost more than was held for the order. */
  predicate Overspends(w: World, o: Order) {
    && o.side.Buy? && o.kind.Market? && w.book.asks != []
    && Cost(MatchOf(w, o).result.trades) > Notional(w.book.asks[0].price, o.quantity)
  }

  /** The settlements all succeed unless the order is a market buy whose trades cost more than the best ask
      for all of it; and an order that comes to rest is covered. */
  lemma {:induction false} EnoughUnlessOverspent(w: World, placed: History, tick: real, o: Order)
    requires Core(w, placed, tick) && Taking(w, placed, o, ReserveAmount(w, o)) && (o.kind.Limit? ==> PriceOk(o.price, tick))
    requires MatchOf(w, o).result.accepted
    ensures var run, f := SettlingRun(w, placed, o), FillOfOrder(w, o);
      && (run.status == Completed <==> !Overspends(w, o))
      && (run.status == Completed ==> |run.settlements| == |f.trades| && AllApplied(run.settlements))
      && (WillRest(ToMatching(o), f) ==>
            && HoldId(o.id) in run.ledger.holds
            && run.ledger.holds[HoldId(o.id)].amount >= Cover(o.side, o.price, f.remaining, w.fees))
  {
    hide FundsOk, BookCovered, DustOk, OwnersOk, Fill, Cover, NoArrow, Rests, TradeId, Ready, RunOf, Spend, PriceOk, Execute;
    var f := FillOfOrder(w, o);
    assert BookOk(w.book) by { BookIsOk(w, placed, tick); }
    MatchedOrNot(w, o);
    ReadyToSettle(w, placed, tick, o, ReserveAmount(w, o));
    TakerMustHave(TermsFor(w, placed, o), w.ledger, ToMatching(o), Makers(w, o), o.quantity, ReserveAmount(w, o));
    RemainingIsPart(w, o);
    if o.side.Sell? {
      SellHasEnough(w, placed, tick, o);
      RestNeedsHold(o, f, w.fees, tick);
    } else if o.kind.Limit? {
      LimitBuyHasEnough(w, placed, tick, o);
      RestNeedsHold(o, f, w.fees, tick);
    } else {
      MarketBuyDecides(w, placed, tick, o);
    }
  }

  lemma BookIsOk(w: World, placed: History, tick: real)
    requires Core(w, placed, tick)
    ensures BookOk(w.book)
  {
  }

  lemma RemainingIsPart(w: World, o: Order)
    requires BookOk(w.book) && o.quantity > 0.0
    ensures 0.0 <= FillOfOrder(w, o).remaining
  {
    SidesAreOk(w.book, o.side);
    FillConserves(ToMatching(o), Makers(w, o), o.quantity);
  }

  /** What is left of an order that rests needs more than a tolerance. */
  lemma RestNeedsHold(o: Order, f: FillResult, fees: FeeSchedule, tick: real)
    requires 0.0 <= f.remaining && FeesSane(fees) && tick > EPSILON && (o.kind.Limit? ==> PriceOk(o.price, tick))
    ensures o.kind.Limit? || o.side.Sell? ==> Cover(o.side, o.price, f.remaining, fees) >= 0.0
    ensures WillRest(ToMatching(o), f) ==> Cover(o.side, o.price, f.remaining, fees) > EPSILON
  {
    if o.kind.Limit? {
      CoverIsMore(o.side, o.price, f.remaining, fees);
    }
  }
}
