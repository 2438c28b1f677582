/**
A run without a price grid in which a user trades with their own order although self-trades are prevented. A limit
buy at 1 takes an ask at 1.000000001, which costs more than was held for it, so its settlement is rejected; what is
left of it rests, but the risk engine is not told. The same user's market sell then meets it.
*/
module ExchangeUntracked {
  import opened Orders
  import opened OrderBook
  import opened Ledger
  import opened RiskEngine
  import opened Exchange
  import opened ExchangeInvariant
  import opened ExchangeSteps
  import opened ExchangeResults
  import opened ExchangeOffGrid
  import Runs = ExchangeOverspending

  const FREE := FeeSchedule(0.0, 0.0)
  const START := Opened("S", 1.0, 1.0, FREE, true)
  const SELLER := Account(0.0, 0.0, 3.0, 0.0, 0.0, 0.0)
  const USER := Account(10.0, 0.0, 1.0, 0.0, 0.0, 0.0)
  const ASK := Order("a", "s", "S", "ip", Sell, Limit, Gtc, 1.000000001, 3.0, 1)
  const BID := Order("u", "b", "S", "ip", Buy, Limit, Gtc, 1.0, 3.000000002, 1)
  const SELL := Order("v", "b", "S", "ip", Sell, Market, Gtc, 0.0, 1.0, 1)
  const REST := Resting("u", 1.0, 0.000000002)

  lemma Names()
    ensures HoldId("a") != HoldId("u") && HoldId("u") != HoldId("v") && HoldId("a") != HoldId("v")
    ensures NoArrow("a") && NoArrow("u") && NoArrow("v")
  {
    HoldIdOf("a");
    HoldIdOf("u");
    HoldIdOf("v");
  }

  lemma Registering() returns (es: seq<Event>)
    ensures Legal(START, es, NO_GRID)
    ensures var s := Run(START, es);
      s.placed == map[] && s.world == START.(ledger := NOTHING.(accounts := map["s" := SELLER, "b" := USER]))
  {
    es := [];
    Runs.RunOn(START, es, Register("s", SELLER), NO_GRID);
    es := es + [Register("s", SELLER)];
    Runs.RunOn(START, es, Register("b", USER), NO_GRID);
    es := es + [Register("b", USER)];
  }

  /** What matters after the ask rests. */
  ghost predicate Asked(s: Situation) {
    var w := s.world;
    && s.placed.Keys == {"a"} && w.registry == map["a" := Managed("s", "S", Sell, HoldId("a"))]
    && w.book == Book([], [Resting("a", 1.000000001, 3.0)])
    && w.symbol == "S" && w.prevention && w.fees == FREE
    && w.ledger.holds.Keys == {HoldId("a")} && w.ledger.settled == {}
    && w.ledger.accounts.Keys == {"s", "b"} && w.ledger.accounts["b"] == USER
    && (forall t | t in w.tracked :: t.user == "s")
  }

  lemma AskRests() returns (es: seq<Event>)
    ensures Legal(START, es, NO_GRID) && Asked(Run(START, es))
  {
    hide Run, Legal, SubmitOrder, Freeze, NoArrow;
    es := Registering();
    var w := Run(START, es).world;
    Names();
    Runs.SellHolds(w, ASK);
    Runs.ScanOf(["a"], w, ASK);
    assert Insert(Sell, [], Resting("a", 1.000000001, 3.0))[0].id == "a";
    Runs.SellRests(w, ASK, ["a"], []);
    Runs.RunOn(START, es, Place(ASK, true, ["a"]), NO_GRID);
    es := es + [Place(ASK, true, ["a"])];
  }

  // ---------------------------------------------------------------- the bid

  lemma BidHeld(s: Situation)
    requires Asked(s)
    ensures Held(s.world, BID, true)
    ensures var l := Reserve(s.world, BID).state;
      && l.holds.Keys == {HoldId("a"), HoldId("u")} && l.settled == {}
      && l.accounts.Keys == {"s", "b"}
      && l.accounts["b"] == Account(10.0 - 3.000000002, 3.000000002, 1.0, 0.0, 0.0, 0.0)
  {
    hide WithFee, SelfTrades, Freeze, ReserveAmount, HoldId;
    Names();
    NothingOfOurs(s.world.tracked, BID);
    BidAmount(s.world);
    Freezes(s.world.ledger, "b", HoldId("u"), 3.000000002, 1);
  }

  lemma NothingOfOurs(tracked: set<Tracked>, o: Order)
    requires o.user == "b" && forall t | t in tracked :: t.user == "s"
    ensures !SelfTrades(o, tracked)
  {
  }

  lemma BidAmount(w: World)
    requires w.fees == FREE
    ensures ReserveAmount(w, BID) == 3.000000002
  {
    assert WithFee(1.0, 3.000000002, 0.0) == 3.000000002;
  }

  lemma Freezes(l: State, account: string, hold: string, amount: real, timestamp: int)
    requires account in l.accounts && hold !in l.holds && 0.0 < amount <= l.accounts[account].availableQuote
    ensures var d := Freeze(l, Quote, account, hold, amount, timestamp);
      && d.status == Applied
      && d.state.holds.Keys == l.holds.Keys + {hold} && d.state.settled == l.settled
      && d.state.accounts.Keys == l.accounts.Keys
      && d.state.accounts[account] == l.accounts[account].Plus(FreezeDelta(Quote, amount))
  {
  }

  lemma BidMatches(w: World)
    requires w.book == Book([], [Resting("a", 1.000000001, 3.0)])
    ensures var m := MatchOf(w, BID);
      && m.result.accepted && m.book == Book([REST], [])
      && m.result.trades == [Trade("a", "u", 1.000000001, 3.0)]
  {
    var r, asks := ToMatching(BID), w.book.asks;
    assert asks[1..] == [];
    assert Fill(r, [], 0.000000002) == FillResult([], [], 0.000000002);
    assert Fill(r, asks, 3.000000002) == FillResult([Trade("a", "u", 1.000000001, 3.0)], [], 0.000000002);
    assert !Rests(w.book, "u");
  }

  lemma BidUnpaid(l: State, registry: map<string, Managed>)
    requires l.settled == {} && l.accounts.Keys == {"s", "b"} && l.accounts["b"].frozenQuote == 3.000000002
    requires "a" in registry && registry["a"].user == "s" && "u" in registry && registry["u"].user == "b"
    requires registry["u"].side == Buy
    ensures var run := SettleTrades(l, registry, [Trade("a", "u", 1.000000001, 3.0)], "S", 1, FREE);
      run.ledger == l && run.status == SettlementRejected
  {
    var t := Trade("a", "u", 1.000000001, 3.0);
    var fill := FillOf(t, registry["a"], registry["u"], "S", 1);
    assert Notional(1.000000001, 3.0) == 3.000000003;
    assert AmountsOf(fill, FREE, l.accounts["s"]).BuyerPays() == 3.000000003;
    assert Check(l, fill, FREE) == BuyerFrozenQuoteInsufficient;
  }

  /** What matters after the bid: it rests, and the risk engine knows no order of its owner. */
  ghost predicate Untold(s: Situation) {
    var w := s.world;
    && s.placed.Keys == {"a", "u"} && s.placed["u"] == Placed("b", Buy)
    && w.registry.Keys == {"a", "u"} && w.registry["a"].symbol == "S" && w.registry["u"].symbol == "S"
    && w.book == Book([REST], [])
    && w.symbol == "S" && w.prevention
    && w.ledger.holds.Keys == {HoldId("a"), HoldId("u")}
    && w.ledger.accounts.Keys == {"s", "b"} && w.ledger.accounts["b"].availableBase == 1.0
    && (forall t | t in w.tracked :: t.user == "s")
  }

  lemma BidRests(es: seq<Event>) returns (es': seq<Event>)
    requires Legal(START, es, NO_GRID) && Asked(Run(START, es))
    ensures Legal(START, es', NO_GRID) && Untold(Run(START, es'))
    ensures |es'| == |es| + 1 && es' == es + [es'[|es|]] && es'[|es|].Place? && es'[|es|].order == BID
    ensures ReportOf(Run(START, es), es'[|es|]).status == SettlementRejected
  {
    hide Run, Legal, Freeze, NoArrow, SettleTrades, OrderBook.Submit, SelfTrades;
    var s, scan := Run(START, es), ["a", "u"];
    var w := s.world;
    Names();
    BidHeld(s);
    var w1 := Managing(w, BID);
    BidMatches(w1);
    BidUnpaid(w1.ledger, w1.registry);
    Runs.ScanOf(scan, w, BID);
    var e := Place(BID, true, scan);
    Runs.RunOn(START, es, e, NO_GRID);
    es' := es + [e];
  }

  // ---------------------------------------------------------------- the sell

  lemma SellMeets(w: World, scan: seq<string>)
    requires w.book == Book([REST], []) && Held(w, SELL, true)
    ensures Trade("u", "v", 1.0, 0.000000002) in SubmitOrder(w, SELL, true, scan).report.result.trades
  {
    var r := ToMatching(SELL);
    assert [REST][1..] == [];
    assert Fill(r, [REST], 1.0).trades[0] == Trade("u", "v", 1.0, 0.000000002);
    assert !Rests(w.book, "v");
    MatchIsReported(w, scan);
  }

  lemma MatchIsReported(w: World, scan: seq<string>)
    requires Held(w, SELL, true)
    ensures SubmitOrder(w, SELL, true, scan).report.result == MatchOf(w, SELL).result
  {
    hide SettleTrades, ReleaseClosed, ReleaseResidual, Freeze, OrderBook.Submit;
  }

  lemma SellHeld(s: Situation)
    requires Untold(s)
    ensures Held(s.world, SELL, true)
  {
    Names();
    Runs.SellHolds(s.world, SELL);
  }

  /** Without the condition of `SelfTradeWithinTolerance` a user's market order can trade with their own order. */
  lemma OwnOrderUnseen() returns (es: seq<Event>, e: Event, t: Trade)
    ensures StartsLoosely(START) && START.prevention && Legal(START, es + [e], NO_GRID)
    ensures e.Place? && e.order.kind.Market? && t in ReportOf(Run(START, es), e).result.trades
    ensures var placed := Run(START, es + [e]).placed;
      t.maker in placed && t.taker in placed && placed[t.maker].user == placed[t.taker].user
  {
    hide Run, Legal, SubmitOrder, NoArrow, Held;
    var es0 := AskRests();
    es := BidRests(es0);
    var s, scan := Run(START, es), ["a", "u", "v"];
    e, t := Place(SELL, true, scan), Trade("u", "v", 1.0, 0.000000002);
    Names();
    SellHeld(s);
    Runs.ScanOf(scan, s.world, SELL);
    Runs.RunOn(START, es, e, NO_GRID);
    SellMeets(s.world, scan);
  }
}
