/**
A run that ends in a rejected settlement: two users rest a sell each, at 100 and at 200, and a third one's market
buy for both costs 300, while only twice the best ask was held for it.
*/
module ExchangeOverspending {
  import opened Orders
  import opened OrderBook
  import opened Ledger
  import opened RiskEngine
  import opened Exchange
  import opened ExchangeInvariant
  import opened ExchangeSteps
  import opened ExchangeResults

  const TICK: real := 1.0
  const FREE := FeeSchedule(0.0, 0.0)
  const SELLER := Account(0.0, 0.0, 1.0, 0.0, 0.0, 0.0)
  const BUYER := Account(200.0, 0.0, 0.0, 0.0, 0.0, 0.0)
  const CHEAP := Order("a", "s", "S", "ip", Sell, Limit, Gtc, 100.0, 1.0, 1)
  const DEAR := Order("z", "t", "S", "ip", Sell, Limit, Gtc, 200.0, 1.0, 1)
  const TAKER := Order("c", "b", "S", "ip", Buy, Market, Gtc, 0.0, 2.0, 1)

  /** A market buy that walks up the book can cost more than was held for it. */
  lemma {:induction false} WalkingUpOverspends(w: World, o: Order)
    requires o.side.Buy? && o.kind.Market? && o.tif.Gtc? && o.id == "c" && o.quantity == 2.0
    requires w.book == Book([], [Resting("a", 100.0, 1.0), Resting("z", 200.0, 1.0)])
    ensures MatchOf(w, o).result.trades == [Trade("a", "c", 100.0, 1.0), Trade("z", "c", 200.0, 1.0)]
    ensures Overspends(w, o)
  {
    var r, asks := ToMatching(o), w.book.asks;
    assert asks[1..] == [Resting("z", 200.0, 1.0)];
    assert Fill(r, [], 0.0) == FillResult([], [], 0.0);
    assert Fill(r, asks[1..], 1.0).trades == [Trade("z", "c", 200.0, 1.0)];
    assert Fill(r, asks, 2.0).trades == [Trade("a", "c", 100.0, 1.0), Trade("z", "c", 200.0, 1.0)];
    var trades := Fill(r, asks, 2.0).trades;
    assert trades[1..] == [Trade("z", "c", 200.0, 1.0)] && trades[1..][1..] == [];
    assert Cost(trades[1..]) == 200.0;
    assert !Rests(w.book, "c");
  }

  // ---------------------------------------------------------------- running on

  lemma RunOn(start: World, es: seq<Event>, e: Event, tick: real)
    requires Legal(start, es, tick) && Admissible(Run(start, es), e, tick)
    ensures Legal(start, es + [e], tick) && Run(start, es + [e]) == Next(Run(start, es), e)
  {
    hide Admissible, Next;
    assert (es + [e])[..|es|] == es;
  }

  lemma {:induction false} NothingToRelease(l: State, registry: map<string, Managed>, scan: seq<string>, b: Book, timestamp: int)
    requires forall id | id in scan :: Rests(b, id)
    ensures ReleaseClosed(l, registry, scan, b, timestamp) == ReleaseRun(l, registry, Completed)
    decreases |scan|
  {
    hide Rests;
    if scan != [] {
      NothingToRelease(l, registry, scan[1..], b, timestamp);
    }
  }

  /** A sell that meets no bids comes to rest, and nothing else changes but its hold and its registration. */
  lemma SellRests(w: World, o: Order, scan: seq<string>, asks: seq<Resting>)
    requires !(w.prevention && SelfTrades(o, w.tracked)) && WellShaped(o) && o.symbol == w.symbol
    requires o.side.Sell? && o.kind.Limit? && o.tif.Gtc? && o.quantity > EPSILON
    requires w.book == Book([], asks) && !Rests(w.book, o.id) && Reserve(w, o).status == Applied
    requires forall id | id in scan :: id == o.id || Has(asks, id)
    requires forall id | Has(asks, id) || id == o.id :: Has(Insert(Sell, asks, Resting(o.id, o.price, o.quantity)), id)
    ensures Held(w, o, true)
    ensures var w' := SubmitOrder(w, o, true, scan).world;
      && w'.book == Book([], Insert(Sell, asks, Resting(o.id, o.price, o.quantity)))
      && w'.ledger == Reserve(w, o).state
      && w'.registry == w.registry[o.id := Managed(o.user, o.symbol, o.side, HoldId(o.id))]
      && w'.prevention == w.prevention && w'.symbol == w.symbol && w'.fees == w.fees
      && (forall t | t in w'.tracked :: t in w.tracked || exists id | id in w'.registry :: t.user == w'.registry[id].user)
  {
    hide Freeze, Insert, Synced, Refreshed, SelfTrades;
    var w1 := Managing(w, o);
    var b' := Book([], Insert(Sell, asks, Resting(o.id, o.price, o.quantity)));
    assert Fill(ToMatching(o), [], o.quantity) == FillResult([], [], o.quantity);
    assert MatchOf(w1, o).book == b';
    NothingToRelease(w1.ledger, w1.registry, scan, b', o.timestamp + 2);
    SyncKeepsRest(w1.(book := b'));
  }

  lemma SyncKeepsRest(w: World)
    ensures var w' := Refreshed(Synced(w));
      && w' == w.(tracked := w'.tracked, restingUsers := w'.restingUsers, bestBid := w'.bestBid, bestAsk := w'.bestAsk)
      && (forall t | t in w'.tracked :: t in w.tracked || exists id | id in w.registry :: t.user == w.registry[id].user)
  {
  }

  // ---------------------------------------------------------------- the run

  const START := Opened("S", 100.0, 100.0, FREE, false)

  lemma Registering() returns (es: seq<Event>)
    ensures Legal(START, es, TICK)
    ensures var s := Run(START, es);
      s.placed == map[] && s.world == START.(ledger := NOTHING.(accounts := map["s" := SELLER, "t" := SELLER, "b" := BUYER]))
  {
    es := [];
    RunOn(START, es, Register("s", SELLER), TICK);
    es := es + [Register("s", SELLER)];
    RunOn(START, es, Register("t", SELLER), TICK);
    es := es + [Register("t", SELLER)];
    RunOn(START, es, Register("b", BUYER), TICK);
    es := es + [Register("b", BUYER)];
  }

  lemma OnGridAt(k: nat)
    ensures PriceOk(Ticks(k, TICK), TICK) || k == 0
  {
    assert OnGrid(Ticks(k, TICK), TICK);
  }

  lemma NamesAreFine()
    ensures OrderOk(CHEAP, map[], TICK)
    ensures forall placed: History | "z" !in placed :: OrderOk(DEAR, placed, TICK)
    ensures forall placed: History | "c" !in placed :: OrderOk(TAKER, placed, TICK)
    ensures HoldId("a") != HoldId("z") && HoldId("z") != HoldId("c") && HoldId("a") != HoldId("c")
  {
    OnGridAt(100);
    OnGridAt(200);
    assert Ticks(100, TICK) == 100.0 && Ticks(200, TICK) == 200.0;
    HoldIdOf("a");
    HoldIdOf("z");
    HoldIdOf("c");
  }

  lemma SellHolds(w: World, o: Order)
    requires o.side.Sell? && o.quantity > 0.0 && o.user in w.ledger.accounts && HoldId(o.id) !in w.ledger.holds
    requires w.ledger.accounts[o.user].availableBase >= o.quantity
    ensures var l := Reserve(w, o).state;
      && Reserve(w, o).status == Applied
      && l.accounts.Keys == w.ledger.accounts.Keys && l.settled == w.ledger.settled
      && l.holds.Keys == w.ledger.holds.Keys + {HoldId(o.id)}
      && (forall u | u in w.ledger.accounts && u != o.user :: u in l.accounts && l.accounts[u] == w.ledger.accounts[u])
  {
  }

  lemma ScanOf(scan: seq<string>, w: World, o: Order)
    requires forall id | id in w.registry :: w.registry[id].symbol == w.symbol
    requires o.symbol == w.symbol && (forall i, j | 0 <= i < j < |scan| :: scan[i] != scan[j])
    requires forall id :: id in scan <==> id in w.registry || id == o.id
    ensures ScanOk(w, o, scan)
  {
  }

  /** After the first sell. */
  lemma CheapRests() returns (es: seq<Event>)
    ensures Legal(START, es, TICK)
    ensures var (w, placed) := (Run(START, es).world, Run(START, es).placed);
      && placed.Keys == {"a"} && w.registry.Keys == {"a"} && w.registry["a"].symbol == "S"
      && w.book == Book([], [Resting("a", 100.0, 1.0)])
      && w.symbol == "S" && !w.prevention && w.fees == FREE
      && w.ledger.holds.Keys == {HoldId("a")}
      && "t" in w.ledger.accounts && w.ledger.accounts["t"] == SELLER
      && "b" in w.ledger.accounts && w.ledger.accounts["b"] == BUYER
  {
    hide Run, Legal, SubmitOrder, Freeze, NoArrow, PriceOk;
    es := Registering();
    var s := Run(START, es);
    NamesAreFine();
    SellHolds(s.world, CHEAP);
    ScanOf(["a"], s.world, CHEAP);
    assert Insert(Sell, [], Resting("a", 100.0, 1.0))[0].id == "a";
    SellRests(s.world, CHEAP, ["a"], []);
    RunOn(START, es, Place(CHEAP, true, ["a"]), TICK);
    es := es + [Place(CHEAP, true, ["a"])];
  }

  /** After the second. */
  lemma DearRests() returns (es: seq<Event>)
    ensures Legal(START, es, TICK)
    ensures var (w, placed) := (Run(START, es).world, Run(START, es).placed);
      && placed.Keys == {"a", "z"} && w.registry.Keys == {"a", "z"}
      && w.registry["a"].symbol == "S" && w.registry["z"].symbol == "S"
      && w.book == Book([], [Resting("a", 100.0, 1.0), Resting("z", 200.0, 1.0)])
      && w.symbol == "S" && !w.prevention && w.fees == FREE
      && w.ledger.holds.Keys == {HoldId("a"), HoldId("z")}
      && "b" in w.ledger.accounts && w.ledger.accounts["b"] == BUYER
  {
    hide Run, Legal, SubmitOrder, Freeze, NoArrow, PriceOk;
    es := CheapRests();
    var s := Run(START, es);
    var asks, o := [Resting("a", 100.0, 1.0)], Resting("z", 200.0, 1.0);
    NamesAreFine();
    SellHolds(s.world, DEAR);
    ScanOf(["a", "z"], s.world, DEAR);
    assert asks[1..] == [];
    assert Insert(Sell, asks, o) == [asks[0], o];
    assert Insert(Sell, asks, o)[0].id == "a" && Insert(Sell, asks, o)[1].id == "z";
    assert asks[0].id == "a";
    SellRests(s.world, DEAR, ["a", "z"], asks);
    RunOn(START, es, Place(DEAR, true, ["a", "z"]), TICK);
    es := es + [Place(DEAR, true, ["a", "z"])];
  }

  lemma TakerIsHeld(w: World)
    requires w.symbol == "S" && !w.prevention && w.fees == FREE && HoldId("c") !in w.ledger.holds
    requires w.book.asks != [] && w.book.asks[0].price == 100.0
    requires "b" in w.ledger.accounts && w.ledger.accounts["b"] == BUYER
    ensures Held(w, TAKER, true)
  {
    assert WithFee(100.0, 2.0, 0.0) == 200.0;
  }

  /** A settlement can be rejected: a legal run reaches a book and a market buy for which it is. */
  lemma SettlementCanBeRejected() returns (es: seq<Event>, e: Event)
    ensures Starts(START, TICK) && Legal(START, es + [e], TICK)
    ensures e.Place? && e.order.side.Buy? && e.order.kind.Market?
    ensures ReportOf(Run(START, es), e).status == SettlementRejected
  {
    hide Run, Legal, SubmitOrder, Overspends, Held, NoArrow, PriceOk;
    es := DearRests();
    var scan := ["a", "z", "c"];
    e := Place(TAKER, true, scan);
    var w := Run(START, es).world;
    NamesAreFine();
    ScanOf(scan, w, TAKER);
    RunOn(START, es, e, TICK);
    TakerIsHeld(w);
    WalkingUpOverspends(w, TAKER);
    EveryReport(START, es, TICK, e);
  }
}
