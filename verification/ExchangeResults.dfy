/**
What the exchange promises over whole runs, whatever users register and orders arrive, accepted or not:
holds cover the open orders, every trade of an order that can pay is settled once, nobody trades with
themself, no funds are stranded, every account reconciles, and no invariant violation is ever reported.
*/
module ExchangeResults {
  import opened Orders
  import opened OrderBook
  import OrderBookLaws
  import opened Ledger
  import opened LedgerLaws
  import LedgerRuns
  import opened RiskEngine
  import opened Exchange
  import opened ExchangeInvariant
  import opened ExchangeFunds
  import opened ExchangeSettling
  import opened ExchangeClosing
  import opened ExchangeSteps
  import opened Sums

  // ---------------------------------------------------------------- one submit

  /** The order passed the risk check and funds are held for it. */
  predicate Held(w: World, o: Order, otherRules: bool) {
    && Verdict(o, map[w.symbol := w.prevention], w.tracked, otherRules).Passed?
    && Reserve(w, o).status == Applied
  }

  function HistoryAfter(w: World, placed: History, o: Order, otherRules: bool): History {
    if Held(w, o, otherRules) then Noted(placed, o) else placed
  }

  ghost predicate ScanOk(w: World, o: Order, scan: seq<string>) {
    IsScan(scan, w.registry[o.id := Managed(o.user, o.symbol, o.side, HoldId(o.id))], w.symbol)
  }

  /** What the risk engine has tracked is exactly what rests. */
  ghost predicate TracksExactly(w: World) {
    w.tracked == set x | x in Resters(w.book, w.registry) :: TrackedAs(x, w.registry[x.id])
  }

  lemma {:induction false} RejectedKeeps(w: World, placed: History, tick: real, o: Order, result: MatchResult, reserved: real)
    requires Inv(w, placed, tick) && Taking(w, placed, o, reserved)
    ensures var step := RejectedMatch(w, o, result);
      && step.report.status == MatchingRejected
      && Inv(step.world, placed, tick)
      && step.world.registry == w.registry - {o.id}
      && step.world.book == w.book
  {
    hide FundsOk, DustOk, BookCovered, OwnersOk, Rests, ReleaseResidual, HoldsOfResting, TrackedOk;
    var d := ReleaseResidual(w.ledger, HoldId(o.id), o.timestamp + 1);
    var w' := w.(ledger := d.state, registry := w.registry - {o.id});
    ReleaseFunds(w.ledger, placed, o.id, o.timestamp + 1);
    DustStep(w.ledger.holds, d.state.holds, placed, w.registry, o.id);
    WithoutTaker(w.book, w.registry, placed, w.symbol, tick, o.id);
    RestingSame(d.state.holds, w.book);
    RestingStep(w.ledger.holds, d.state.holds, d.state.holds, w.book, o.id);
    KeptCover(w.book, w.ledger.holds, d.state.holds, w.fees);
    SyncKeeps(w', placed, tick);
  }

  lemma RestingSame(holds: map<string, Hold>, b: Book)
    ensures HoldsOfResting(holds, holds, b)
  {
  }

  lemma WithoutTaker(b: Book, registry: map<string, Managed>, placed: History, symbol: string, tick: real, id: string)
    requires OwnersOk(b, registry, placed, symbol, tick) && !Rests(b, id)
    ensures OwnersOk(b, registry - {id}, placed, symbol, tick)
  {
    hide BookOk, PriceOk, Rests;
    forall x | x in b.bids || x in b.asks ensures Rests(b, x.id) {
      InRests(b, x);
    }
  }

  /** A match that leaves nothing of the taker on the book leaves only orders the risk engine knows. */
  lemma MatchedTracking(w: World, w': World, o: Order)
    requires TrackedOk(w) && w'.tracked == w.tracked && w'.registry == w.registry
    requires BookOk(w.book) && !Rests(w.book, o.id) && o.quantity > 0.0
    requires w'.book == Execute(w.book, ToMatching(o)).book && !WillRest(ToMatching(o), FillOfOrder(w, o))
    ensures TrackedOk(w')
  {
    hide BookOk, Rests, Execute, Fill, Knows;
    ExecutedSides(w.book, ToMatching(o));
    assert SideTracked(w'.tracked, w'.book.Of(o.side), o.side, w'.registry);
    assert SideTracked(w'.tracked, w'.book.Of(Other(o.side)), Other(o.side), w'.registry);
  }

  /** Settling, closing and syncing after an accepted match. */
  lemma AcceptedKeeps(w: World, placed: History, tick: real, o: Order, scan: seq<string>)
    requires Inv(w, placed, tick) && Taking(w, placed, o, ReserveAmount(w, o)) && (o.kind.Limit? ==> PriceOk(o.price, tick))
    requires IsScan(scan, w.registry, w.symbol) && MatchOf(w, o).result.accepted
    ensures var m := MatchOf(w, o);
      var step := AcceptedMatch(w.(book := m.book), o, m.result, scan);
      && Inv(step.world, placed, tick)
      && (step.report.status == if Overspends(w, o) then SettlementRejected else Completed)
      && (step.report.status == Completed ==>
            && Clean(step.world) && TracksExactly(step.world)
            && |step.report.settlements| == |m.result.trades| && AllApplied(step.report.settlements))
      && step.world.book == m.book && step.report.result == m.result
  {
    hide FundsOk, DustOk, BookCovered, OwnersOk, Rests, TrackedOk, NoArrow, TradeId, Fill, PriceOk, Overspends, Cover;
    hide Execute, RunOf, IsScan, Clean, AllApplied, ReserveAmount, WellShaped;
    var m := MatchOf(w, o);
    BookIsOk(w, placed, tick);
    MatchedOrNot(w, o);
    EnoughUnlessOverspent(w, placed, tick, o);
    SettlingKeeps(w, placed, tick, o, ReserveAmount(w, o));
    var run := SettlingRun(w, placed, o);
    RunIsSettling(w, placed, o);
    var settled := w.(book := m.book, ledger := run.ledger);
    if run.status == Completed {
      CloseKeeps(settled, placed, tick, scan, o.timestamp + 2);
      var c := ReleaseClosed(settled.ledger, settled.registry, scan, settled.book, o.timestamp + 2);
      var closed := settled.(ledger := c.ledger, registry := c.registry);
      SyncKeeps(closed, placed, tick);
      RefreshKeeps(Synced(closed), placed, tick);
      CleanStays(closed, Refreshed(Synced(closed)));
    } else {
      OverspendingDoesNotRest(w, o);
      MatchedTracking(w, settled, o);
    }
  }

  lemma CleanStays(w: World, w': World)
    requires Clean(w) && w'.book == w.book && w'.registry == w.registry
    ensures Clean(w')
  {
  }

  lemma OverspendingDoesNotRest(w: World, o: Order)
    requires Overspends(w, o)
    ensures !WillRest(ToMatching(o), FillOfOrder(w, o)) && o.quantity == ToMatching(o).quantity
  {
  }

  lemma RunIsSettling(w: World, placed: History, o: Order)
    ensures SettlingRun(w, placed, o) ==
            SettleTrades(w.ledger, w.registry, FillOfOrder(w, o).trades, w.symbol, o.timestamp, w.fees)
  {
  }

  /** The last known best prices follow the sides of the book that are not empty. */
  ghost predicate Follows(before: World, after: World) {
    && after.bestBid == (if after.book.bids != [] then after.book.bids[0].price else before.bestBid)
    && after.bestAsk == (if after.book.asks != [] then after.book.asks[0].price else before.bestAsk)
  }

  /** Which stage an order ends in, what is reported of its match, and what is left untouched. */
  ghost predicate Answers(w: World, o: Order, otherRules: bool, step: Step) {
    var passed := Verdict(o, map[w.symbol := w.prevention], w.tracked, otherRules).Passed?;
    var funded := passed && Reserve(w, o).status == Applied;
    var report := step.report;
    && (report.status == RiskRejected <==> !passed)
    && (report.status == ClearingRejected <==> passed && !funded)
    && (report.status == MatchingRejected <==> funded && !MatchOf(w, o).result.accepted)
    && (report.accepted <==> report.status == Completed)
    && (report.status == Completed ==> report.result.accepted)
    && (funded ==>
          && MatchOf(w, o) == OrderBook.Submit(w.book, OrderRequest(o.id, o.side, o.kind, o.tif, o.price, o.quantity))
          && report.result == MatchOf(w, o).result && step.world.book == MatchOf(w, o).book)
    && (!funded ==> report.settlements == [] && report.result.trades == [] && step.world == w)
    && (report.status == MatchingRejected ==>
          report.settlements == [] && step.world.book == w.book && step.world.registry == w.registry - {o.id})
    && (if report.status == Completed then Follows(w, step.world)
        else step.world.bestBid == w.bestBid && step.world.bestAsk == w.bestAsk)
    && step.world.symbol == w.symbol && step.world.fees == w.fees && step.world.prevention == w.prevention
  }

  lemma RejectedAnswers(w: World, o: Order, result: MatchResult)
    requires !result.accepted
    ensures var step := RejectedMatch(w, o, result);
      && (step.report.status == MatchingRejected || step.report.status == WorkflowStatus.InvariantViolation)
      && !step.report.accepted && step.report.result == result && step.report.settlements == []
      && step.world.book == w.book && step.world.bestBid == w.bestBid && step.world.bestAsk == w.bestAsk
      && step.world.symbol == w.symbol && step.world.fees == w.fees && step.world.prevention == w.prevention
  {
    hide ReleaseResidual, Resters;
  }

  lemma AcceptedAnswers(w: World, o: Order, result: MatchResult, scan: seq<string>)
    requires result.accepted
    ensures var step := AcceptedMatch(w, o, result, scan);
      && step.report.result == result && (step.report.accepted <==> step.report.status == Completed)
      && (step.report.status == Completed || step.report.status == SettlementRejected
          || step.report.status == WorkflowStatus.InvariantViolation)
      && step.world.book == w.book
      && (if step.report.status == Completed then Follows(w, step.world)
          else step.world.bestBid == w.bestBid && step.world.bestAsk == w.bestAsk)
      && step.world.symbol == w.symbol && step.world.fees == w.fees && step.world.prevention == w.prevention
  {
    hide Resters;
    SettleStatuses(w.ledger, w.registry, result.trades, w.symbol, o.timestamp, w.fees);
    var s := SettleTrades(w.ledger, w.registry, result.trades, w.symbol, o.timestamp, w.fees);
    CloseStatuses(s.ledger, w.registry, scan, w.book, o.timestamp + 2);
    hide SettleTrades, ReleaseClosed;
  }

  lemma {:induction false} SettleStatuses(l: State, registry: map<string, Managed>, trades: seq<Trade>, symbol: string,
                                          timestamp: int, fees: FeeSchedule)
    ensures var status := SettleTrades(l, registry, trades, symbol, timestamp, fees).status;
      status == Completed || status == SettlementRejected || status == WorkflowStatus.InvariantViolation
    decreases |trades|
  {
    hide Settle;
    if trades != [] && trades[0].maker in registry && trades[0].taker in registry {
      var fill := FillOf(trades[0], registry[trades[0].maker], registry[trades[0].taker], symbol, timestamp);
      SettleStatuses(Settle(l, fill, fees).state, registry, trades[1..], symbol, timestamp, fees);
    }
  }

  lemma {:induction false} CloseStatuses(l: State, registry: map<string, Managed>, scan: seq<string>, b: Book, timestamp: int)
    ensures var status := ReleaseClosed(l, registry, scan, b, timestamp).status;
      status == Completed || status == WorkflowStatus.InvariantViolation
    decreases |scan|
  {
    hide ReleaseResidual, Rests;
    if scan != [] {
      if Rests(b, scan[0]) || scan[0] !in registry {
        CloseStatuses(l, registry, scan[1..], b, timestamp);
      } else {
        var d := ReleaseResidual(l, registry[scan[0]].hold, timestamp);
        CloseStatuses(d.state, registry - {scan[0]}, scan[1..], b, timestamp);
      }
    }
  }

  /** One submit: the invariant stays; no invariant violation is reported; a settlement is rejected exactly
      if the order is a market buy whose trades cost more than the best ask for all of it; and a completed
      submit has settled each trade once and left exactly the live orders managed and tracked. */
  lemma {:induction false} SubmitKeeps(w: World, placed: History, tick: real, o: Order, otherRules: bool, scan: seq<string>)
    requires Inv(w, placed, tick) && OrderOk(o, placed, tick) && ScanOk(w, o, scan)
    ensures var step := SubmitOrder(w, o, otherRules, scan);
      && Inv(step.world, HistoryAfter(w, placed, o, otherRules), tick)
      && step.report.status != WorkflowStatus.InvariantViolation
      && (step.report.status == SettlementRejected <==> Held(w, o, otherRules) && Overspends(w, o))
      && (step.report.status == Completed ==>
            && Clean(step.world) && TracksExactly(step.world)
            && |step.report.settlements| == |step.report.result.trades| && AllApplied(step.report.settlements))
      && (Clean(w) && step.report.status != SettlementRejected ==> Clean(step.world))
      && Answers(w, o, otherRules, step)
  {
    hide Inv, Freeze, Follows, SelfTrades, OrderOk, NoArrow, TradeId, Rests, RejectedMatch, AcceptedMatch, Overspends, AllApplied, TracksExactly;
    hide ReserveAmount, IsScan, Clean;
    if Held(w, o, otherRules) {
      var w' := Managing(w, o);
      ManagingKeeps(w, placed, tick, o);
      LimitIsPriced(o, placed, tick);
      SameOffer(w, o);
      InvBook(w', Noted(placed, o), tick);
      MatchedOrNot(w', o);
      var m := MatchOf(w', o);
      if m.result.accepted {
        AcceptedKeeps(w', Noted(placed, o), tick, o, scan);
        AcceptedAnswers(w'.(book := m.book), o, m.result, scan);
        FollowsFrom(w, w'.(book := m.book), AcceptedMatch(w'.(book := m.book), o, m.result, scan).world);
      } else {
        RejectedAnswers(w'.(book := m.book), o, m.result);
        RejectedKeeps(w', Noted(placed, o), tick, o, MatchOf(w', o).result, ReserveAmount(w, o));
        NoTradesNoCost(w', Noted(placed, o), tick, o);
        CleanAgain(w, w', o, placed, tick);
      }
    } else if Verdict(o, map[w.symbol := w.prevention], w.tracked, otherRules).Passed? {
      RefusedFreeze(w, o);
    }
  }

  lemma CleanAgain(w: World, w': World, o: Order, placed: History, tick: real)
    requires Inv(w, placed, tick) && o.id !in placed && w' == Managing(w, o)
    ensures forall w'': World :: Clean(w) && w''.registry == w'.registry - {o.id} && w''.book == w.book ==> Clean(w'')
  {
    hide FundsOk, DustOk, BookCovered, TrackedOk, Rests;
    assert o.id !in w.registry by {
      OwnersAreNoted(w.book, w.registry, placed, w.symbol, tick);
    }
    assert w'.registry - {o.id} == w.registry;
  }

  lemma FollowsFrom(w: World, w': World, after: World)
    requires w'.bestBid == w.bestBid && w'.bestAsk == w.bestAsk
    ensures Follows(w', after) ==> Follows(w, after)
  {
  }

  lemma LimitIsPriced(o: Order, placed: History, tick: real)
    requires OrderOk(o, placed, tick)
    ensures o.id !in placed && (o.kind.Limit? ==> PriceOk(o.price, tick))
  {
  }

  lemma SameOffer(w: World, o: Order)
    ensures ReserveAmount(Managing(w, o), o) == ReserveAmount(w, o)
    ensures Overspends(Managing(w, o), o) == Overspends(w, o)
    ensures MatchOf(Managing(w, o), o) == MatchOf(w, o)
  {
  }

  lemma InvBook(w: World, placed: History, tick: real)
    requires Inv(w, placed, tick)
    ensures BookOk(w.book)
  {
  }

  lemma NoTradesNoCost(w: World, placed: History, tick: real, o: Order)
    requires Inv(w, placed, tick) && MatchOf(w, o).result.trades == [] && o.quantity > 0.0
    ensures !Overspends(w, o)
  {
    hide FundsOk, DustOk, BookCovered, TrackedOk, BookOk, OnGrid, RegistryOk, OrderBook.Submit;
    if w.book.asks != [] {
      assert w.book.asks[0] in w.book.asks;
      NotionalIsPositive(w.book.asks[0].price, o.quantity);
    }
  }

  lemma RefusedFreeze(w: World, o: Order)
    requires Reserve(w, o).status != Applied
    ensures Reserve(w, o).state == w.ledger
  {
  }

  // ---------------------------------------------------------------- runs

  datatype Event =
    | Register(user: string, snapshot: Account)
    | Place(order: Order, otherRules: bool, scan: seq<string>)

  /** The exchange and who placed which order, so far. */
  datatype Situation = Situation(world: World, placed: History)

  /** A user registers once, with no negative balance and nothing frozen. */
  ghost predicate Admissible(s: Situation, e: Event, tick: real) {
    match e
    case Register(user, snapshot) =>
      && user !in s.world.ledger.accounts
      && NonNegative(snapshot) && snapshot.frozenQuote == 0.0 && snapshot.frozenBase == 0.0
    case Place(o, _, scan) => OrderOk(o, s.placed, tick) && ScanOk(s.world, o, scan)
  }

  function Next(s: Situation, e: Event): Situation {
    match e
    case Register(user, snapshot) => Situation(RegisterUser(s.world, user, snapshot), s.placed)
    case Place(o, otherRules, scan) =>
      Situation(SubmitOrder(s.world, o, otherRules, scan).world, HistoryAfter(s.world, s.placed, o, otherRules))
  }

  function Run(start: World, es: seq<Event>): Situation {
    if es == [] then Situation(start, map[]) else Next(Run(start, es[..|es| - 1]), es[|es| - 1])
  }

  ghost predicate Legal(start: World, es: seq<Event>, tick: real) {
    es == [] || (Legal(start, es[..|es| - 1], tick) && Admissible(Run(start, es[..|es| - 1]), es[|es| - 1], tick))
  }

  /** A configured exchange with sane fees and a price grid coarser than the tolerance. */
  ghost predicate Starts(start: World, tick: real) {
    && start == Opened(start.symbol, start.bestBid, start.bestAsk, start.fees, start.prevention)
    && FeesSane(start.fees) && tick > EPSILON
  }

  lemma OpenedIsOk(start: World, tick: real)
    requires Starts(start, tick)
    ensures Inv(start, map[], tick)
  {
  }

  lemma RegisterKeeps(w: World, placed: History, tick: real, user: string, snapshot: Account)
    requires Inv(w, placed, tick) && Admissible(Situation(w, placed), Register(user, snapshot), tick)
    ensures Inv(RegisterUser(w, user, snapshot), placed, tick)
  {
    hide OwnersOk, BookCovered, DustOk, TrackedOk, Knows;
    var l' := Upsert(w.ledger, user, snapshot);
    RegisteredFunds(w.ledger, placed, user, snapshot);
    assert TrackedOk(RegisterUser(w, user, snapshot)) by {
      SameTracking(w, RegisterUser(w, user, snapshot));
    }
  }

  lemma SameTracking(w: World, w': World)
    requires TrackedOk(w) && w'.book == w.book && w'.tracked == w.tracked && w'.registry == w.registry
    ensures TrackedOk(w')
  {
  }

  lemma RegisteredFunds(l: State, placed: History, user: string, snapshot: Account)
    requires FundsOk(l, placed) && user !in l.accounts
    requires NonNegative(snapshot) && snapshot.frozenQuote == 0.0 && snapshot.frozenBase == 0.0
    ensures FundsOk(Upsert(l, user, snapshot), placed)
  {
    hide LedgerOk, HoldsMatch, SettledOk, Slack, Times, Gone, NoArrow;
    LedgerRuns.OpenKeeps(l, user, snapshot);
    var l' := Upsert(l, user, snapshot);
    forall a, k | a in l'.accounts ensures Slack(l', a, k) <= Times(EPSILON, |Gone(placed, l'.holds, a, k)|) {
      TimesGrows(EPSILON, 0, |Gone(placed, l.holds, a, k)|);
      OneMore(EPSILON, 0);
    }
  }

  /** The invariant holds in every run. */
  lemma {:induction false} Always(start: World, es: seq<Event>, tick: real)
    requires Starts(start, tick) && Legal(start, es, tick)
    ensures var s := Run(start, es); Inv(s.world, s.placed, tick)
  {
    hide Inv, OrderOk, ScanOk;
    if es == [] {
      OpenedIsOk(start, tick);
    } else {
      var s := Run(start, es[..|es| - 1]);
      Always(start, es[..|es| - 1], tick);
      match es[|es| - 1]
      case Register(user, snapshot) => RegisterKeeps(s.world, s.placed, tick, user, snapshot);
      case Place(o, otherRules, scan) => SubmitKeeps(s.world, s.placed, tick, o, otherRules, scan);
    }
  }

  function ReportOf(s: Situation, e: Event): Report
    requires e.Place?
  {
    SubmitOrder(s.world, e.order, e.otherRules, e.scan).report
  }

  /** In every run, what each submit reports: never an invariant violation; a rejected settlement exactly for
      a market buy whose trades cost more than the best ask for all of it, so never for a limit order or a
      market sell; and when completed, one applied settlement for each trade, with exactly the live orders
      managed and tracked. */
  lemma {:induction false} EveryReport(start: World, es: seq<Event>, tick: real, e: Event)
    requires Starts(start, tick) && Legal(start, es + [e], tick) && e.Place?
    ensures var s, s', report := Run(start, es), Run(start, es + [e]), ReportOf(Run(start, es), e);
      && report.status != WorkflowStatus.InvariantViolation
      && (report.status == SettlementRejected <==> Held(s.world, e.order, e.otherRules) && Overspends(s.world, e.order))
      && (e.order.kind.Limit? || e.order.side.Sell? ==> report.status != SettlementRejected)
      && Answers(s.world, e.order, e.otherRules, Step(s'.world, report))
      && (report.status == Completed ==>
            && |report.settlements| == |report.result.trades| && AllApplied(report.settlements)
            && Clean(s'.world) && TracksExactly(s'.world))
  {
    hide Inv, OrderOk, ScanOk, Clean, TracksExactly, AllApplied, Answers, SubmitOrder;
    assert (es + [e])[..|es|] == es;
    var s := Run(start, es);
    Always(start, es, tick);
    SubmitKeeps(s.world, s.placed, tick, e.order, e.otherRules, e.scan);
  }

  /** In every run every live order has a hold of its owner that covers what it may still have to pay. */
  lemma {:induction false} HoldsCoverOrders(start: World, es: seq<Event>, tick: real, side: Side, x: Resting)
    requires Starts(start, tick) && Legal(start, es, tick) && x in Run(start, es).world.book.Of(side)
    ensures var s := Run(start, es);
      var holds, h := s.world.ledger.holds, HoldId(x.id);
      && x.id in s.placed && s.placed[x.id].side == side && h in holds
      && holds[h].account == s.placed[x.id].user && holds[h].asset == AssetOf(side)
      && (side.Buy? ==> holds[h].amount >= WithFee(x.price, x.open, s.world.fees.taker))
      && (side.Sell? ==> holds[h].amount >= x.open)
  {
    hide LedgerOk, SettledOk, SlackOk, PlacedOk, DustOk, TrackedOk, BookOk, PriceOk, Run, Gross, WithFee, Legal;
    var s := Run(start, es);
    Always(start, es, tick);
    OwnerMatches(s.world.ledger.holds, s.placed, x.id);
    GrossIsFactor(x.price, x.open, s.world.fees.taker);
  }

  /** In every run every account reconciles. */
  lemma {:induction false} AccountsReconcile(start: World, es: seq<Event>, tick: real, user: string)
    requires Starts(start, tick) && Legal(start, es, tick) && user in Run(start, es).world.ledger.accounts
    ensures Reconciles(Run(start, es).world.ledger, user)
  {
    hide OwnersOk, BookCovered, DustOk, TrackedOk, Run, LedgerOk, Reconciles, Legal;
    Always(start, es, tick);
    LedgerReconciles(Run(start, es).world.ledger, user);
  }

  /** In every run, after a completed submit exactly the live orders have a registered owner, each with the
      side it rests on. */
  lemma {:induction false} RegistryMatchesBook(start: World, es: seq<Event>, tick: real, e: Event, id: string)
    requires Starts(start, tick) && Legal(start, es + [e], tick) && e.Place?
    requires ReportOf(Run(start, es), e).status == Completed
    ensures var w := Run(start, es + [e]).world;
      && (id in w.registry <==> Rests(w.book, id))
      && (id in w.registry ==> Has(w.book.Of(w.registry[id].side), id))
  {
    hide Legal, Run, TracksExactly, AllApplied, Overspends, Inv, Clean, Rests, Has;
    Always(start, es + [e], tick);
    EveryReport(start, es, tick, e);
    var s := Run(start, es + [e]);
    CleanSides(s.world, s.placed, tick, id);
  }

  lemma CleanSides(w: World, placed: History, tick: real, id: string)
    requires Inv(w, placed, tick) && Clean(w)
    ensures id in w.registry <==> Rests(w.book, id)
    ensures id in w.registry ==> Has(w.book.Of(w.registry[id].side), id)
  {
    hide FundsOk, BookCovered, DustOk, TrackedOk, BookOk, RestingOk, Rests, Has;
    if Rests(w.book, id) {
      SidesMatch(w, placed, tick, id);
    }
  }

  lemma SidesMatch(w: World, placed: History, tick: real, id: string)
    requires OwnersOk(w.book, w.registry, placed, w.symbol, tick) && Rests(w.book, id)
    ensures id in w.registry && Has(w.book.Of(w.registry[id].side), id)
  {
    hide BookOk, PriceOk, RegistryOk;
    if i :| 0 <= i < |w.book.bids| && w.book.bids[i].id == id {
      assert w.book.bids[i] in w.book.bids;
    }
    if i :| 0 <= i < |w.book.asks| && w.book.asks[i].id == id {
      assert w.book.asks[i] in w.book.asks;
    }
  }

  // ---------------------------------------------------------------- prices off the grid

  /** Off the grid the risk engine and the match loop disagree on an order of the taker's own exactly where
      the price is past the taker's limit by no more than the tolerance. */
  lemma {:induction false} DisagreeWithinTolerance(o: Order, t: Tracked)
    requires t.user == o.user && t.side == Other(o.side) && t.quantity > 0.0
    ensures var past := if o.side.Buy? then t.price - o.price else o.price - t.price;
      Reaches(ToMatching(o), t.price) && !Crosses(o, t) <==> o.kind.Limit? && 0.0 < past <= EPSILON
  {
  }

  // ---------------------------------------------------------------- nobody trades with themself

  /** In every run, if self-trades are prevented, the maker of a trade has another owner than the taker. */
  lemma {:induction false} NoSelfTrade(start: World, es: seq<Event>, tick: real, e: Event, t: Trade)
    requires Starts(start, tick) && Legal(start, es + [e], tick) && e.Place? && start.prevention
    requires t in ReportOf(Run(start, es), e).result.trades
    ensures var placed := Run(start, es + [e]).placed;
      t.maker in placed && t.taker in placed && placed[t.maker].user != placed[t.taker].user
  {
    hide Inv, OrderOk, ScanOk;
    assert (es + [e])[..|es|] == es;
    Always(start, es, tick);
    SettingsStay(start, es);
    OwnersDiffer(Run(start, es).world, Run(start, es).placed, tick, e.order, e.otherRules, e.scan, t);
  }

  lemma {:induction false} SettingsStay(start: World, es: seq<Event>)
    ensures var w := Run(start, es).world; w.prevention == start.prevention && w.fees == start.fees && w.symbol == start.symbol
  {
    if es != [] {
      SettingsStay(start, es[..|es| - 1]);
      var w := Run(start, es[..|es| - 1]).world;
      match es[|es| - 1]
      case Register(user, snapshot) =>
      case Place(o, otherRules, scan) => SubmitKeepsSettings(w, o, otherRules, scan);
    }
  }

  lemma SubmitKeepsSettings(w: World, o: Order, otherRules: bool, scan: seq<string>)
    ensures var w' := SubmitOrder(w, o, otherRules, scan).world;
      w'.prevention == w.prevention && w'.fees == w.fees && w'.symbol == w.symbol
  {
    hide SettleTrades, ReleaseClosed, ReleaseResidual, Reserve, ReserveAmount, Verdict;
  }

  lemma OwnersDiffer(w: World, placed: History, tick: real, o: Order, otherRules: bool, scan: seq<string>, t: Trade)
    requires Inv(w, placed, tick) && OrderOk(o, placed, tick) && w.prevention
    requires t in SubmitOrder(w, o, otherRules, scan).report.result.trades
    ensures Held(w, o, otherRules)
    ensures var placed' := Noted(placed, o);
      t.maker in placed' && t.taker == o.id && placed'[t.maker].user != o.user
  {
    hide FundsOk, BookCovered, DustOk, NoArrow, PriceOk, Reaches, Fill, SelfTrades, Freeze, ReserveAmount, Uncrossed, NoSharedId;
    hide Sorted, DistinctIds, Rests, TrackedOk, SubmitOrder, MatchOf;
    NotResting(w, placed, tick, o);
    TradesOfReport(w, o, otherRules, scan);
    MatchedOrNot(w, o);
    var makers, trades := Makers(w, o), FillOfOrder(w, o).trades;
    FillIsPriceTimePriority(ToMatching(o), makers, o.quantity);
    var i :| 0 <= i < |trades| && trades[i] == t;
    assert makers[i] in makers;
    OwnOrderCrosses(w, placed, tick, o, makers[i]);
  }

  lemma NotResting(w: World, placed: History, tick: real, o: Order)
    requires Inv(w, placed, tick) && o.id !in placed
    ensures !Rests(w.book, o.id)
  {
    hide FundsOk, BookCovered, DustOk, TrackedOk, BookOk, PriceOk, Rests;
    RestingIsManaged(w.book, w.registry, placed, w.symbol, tick);
  }

  /** Only a match makes trades. */
  lemma TradesOfReport(w: World, o: Order, otherRules: bool, scan: seq<string>)
    requires SubmitOrder(w, o, otherRules, scan).report.result.trades != []
    ensures Held(w, o, otherRules) && SubmitOrder(w, o, otherRules, scan).report.result == MatchOf(w, o).result
  {
    hide SettleTrades, ReleaseClosed, ReleaseResidual, Freeze, ReserveAmount, Verdict, OrderBook.Submit;
  }

  /** An order of the taker's own within reach makes the risk engine refuse the taker. */
  lemma OwnOrderCrosses(w: World, placed: History, tick: real, o: Order, x: Resting)
    requires Inv(w, placed, tick) && (o.kind.Limit? ==> PriceOk(o.price, tick))
    requires x in Makers(w, o) && Reaches(ToMatching(o), x.price)
    ensures x.id in w.registry && x.id in placed && w.registry[x.id].user == placed[x.id].user
    ensures placed[x.id].user == o.user ==> SelfTrades(o, w.tracked)
  {
    hide FundsOk, BookCovered, DustOk, OnGrid, BookOk;
    var user := w.registry[x.id].user;
    assert Knows(w.tracked, user, Other(o.side), x.price);
    var t :| t in w.tracked && t.user == user && t.side == Other(o.side) && t.price == x.price && t.quantity > 0.0;
    if o.kind.Limit? {
      if o.side.Buy? {
        GridGap(x.price, o.price, tick);
      } else {
        GridGap(o.price, x.price, tick);
      }
    }
    assert user == o.user ==> Crosses(o, t);
  }

  // ---------------------------------------------------------------- no stranded funds

  function OrderOf(hold: string): string {
    if |hold| >= 5 then hold[5..] else hold
  }

  /** The holds of an account's resting orders. */
  ghost function LiveHolds(w: World, account: string, asset: Asset): map<string, real> {
    map h | h in w.ledger.holds && w.ledger.holds[h].account == account && w.ledger.holds[h].asset == asset
            && Rests(w.book, OrderOf(h)) :: w.ledger.holds[h].amount
  }

  /** An account's orders holding this asset that no longer rest. */
  function Closed(w: World, placed: History, account: string, asset: Asset): set<string> {
    set id | id in placed && placed[id] == Placed(account, if asset.Quote? then Buy else Sell) && !Rests(w.book, id)
  }

  /** Those of them of whose hold something is left. */
  function Leftover(w: World, placed: History, account: string, asset: Asset): set<string> {
    set id | id in Closed(w, placed, account, asset) && HoldId(id) in w.ledger.holds
  }

  lemma {:induction false} HoldsOfSize(ids: set<string>)
    ensures |set id | id in ids :: HoldId(id)| <= |ids|
    decreases |ids|
  {
    var image := set id | id in ids :: HoldId(id);
    if ids != {} {
      var x :| x in ids;
      var rest := set id | id in ids - {x} :: HoldId(id);
      HoldsOfSize(ids - {x});
      assert image == rest + {HoldId(x)};
    } else {
      assert image == {};
    }
  }

  /** What is left of the holds of closed orders is at most a tolerance each. */
  lemma LeftoverIsDust(w: World, placed: History, account: string, asset: Asset)
    requires HoldsMatch(w.ledger.holds, placed) && DustOk(w.ledger.holds, placed, w.registry) && HoldsOk(w.ledger) && Clean(w)
    ensures var sum, live := HoldSum(w.ledger.holds, account, asset), Total(LiveHolds(w, account, asset));
      0.0 <= sum - live <= Times(EPSILON, |Leftover(w, placed, account, asset)|)
  {
    hide Rests, Times, Total, HoldsOf, LiveHolds, Leftover, HoldsMatch, DustOk, HoldsOk, Clean;
    var m, live := HoldsOf(w.ledger.holds, account, asset), LiveHolds(w, account, asset);
    var rest, ids := m - live.Keys, Leftover(w, placed, account, asset);
    TotalSplit(m, live.Keys);
    LiveIsPart(w, account, asset);
    forall h | h in rest ensures 0.0 <= rest[h] <= EPSILON && h in set id | id in ids :: HoldId(id) {
      OthersAreLeftover(w, placed, account, asset, h);
    }
    TotalBounds(rest, EPSILON);
    HoldsOfSize(ids);
    Subset(rest.Keys, set id | id in ids :: HoldId(id));
    TimesGrows(EPSILON, |rest|, |ids|);
  }

  lemma LiveIsPart(w: World, account: string, asset: Asset)
    ensures var m, live := HoldsOf(w.ledger.holds, account, asset), LiveHolds(w, account, asset);
      (map h | h in m && h in live.Keys :: m[h]) == live
  {
    hide Rests;
  }

  lemma OthersAreLeftover(w: World, placed: History, account: string, asset: Asset, h: string)
    requires HoldsMatch(w.ledger.holds, placed) && DustOk(w.ledger.holds, placed, w.registry) && HoldsOk(w.ledger) && Clean(w)
    requires h in HoldsOf(w.ledger.holds, account, asset) && h !in LiveHolds(w, account, asset)
    ensures OrderOf(h) in Leftover(w, placed, account, asset) && h == HoldId(OrderOf(h))
    ensures 0.0 <= HoldsOf(w.ledger.holds, account, asset)[h] <= EPSILON
  {
    hide Rests;
    HoldIdOf(OrderOf(h));
  }

  lemma GoneAndLeftover(w: World, placed: History, tick: real, account: string, asset: Asset)
    requires OwnersOk(w.book, w.registry, placed, w.symbol, tick) && BookCovered(w.ledger.holds, w.book, w.fees)
    ensures |Gone(placed, w.ledger.holds, account, asset)| + |Leftover(w, placed, account, asset)|
         <= |Closed(w, placed, account, asset)|
  {
    hide BookOk, PriceOk, RegistryOk, Cover;
    var gone, left := Gone(placed, w.ledger.holds, account, asset), Leftover(w, placed, account, asset);
    forall id | id in gone ensures !Rests(w.book, id) {
      RestingHasHold(w, id);
    }
    assert gone !! left;
    assert |gone + left| == |gone| + |left|;
    Subset(gone + left, Closed(w, placed, account, asset));
  }

  lemma RestingHasHold(w: World, id: string)
    requires BookCovered(w.ledger.holds, w.book, w.fees)
    ensures Rests(w.book, id) ==> HoldId(id) in w.ledger.holds
  {
    hide Cover;
    if i :| 0 <= i < |w.book.bids| && w.book.bids[i].id == id {
      assert w.book.bids[i] in w.book.bids;
    }
    if i :| 0 <= i < |w.book.asks| && w.book.asks[i].id == id {
      assert w.book.asks[i] in w.book.asks;
    }
  }

  lemma NothingStranded(w: World, placed: History, tick: real, account: string, asset: Asset)
    requires Inv(w, placed, tick) && Clean(w) && account in w.ledger.accounts
    ensures var stranded := w.ledger.accounts[account].Frozen(asset) - Total(LiveHolds(w, account, asset));
      0.0 <= stranded <= Times(EPSILON, |Closed(w, placed, account, asset)|)
  {
    hide Rests, Times, Total, OwnersOk, BookCovered, DustOk, TrackedOk, HoldsMatch, HoldsOk, Clean, HoldSum, Gone, Leftover, Closed, LiveHolds;
    var gone, left := |Gone(placed, w.ledger.holds, account, asset)|, |Leftover(w, placed, account, asset)|;
    LeftoverIsDust(w, placed, account, asset);
    GoneAndLeftover(w, placed, tick, account, asset);
    assert Slack(w.ledger, account, asset) >= 0.0;
    assert Slack(w.ledger, account, asset) <= Times(EPSILON, gone);
    TimesAdds(EPSILON, gone, left);
    TimesGrows(EPSILON, gone + left, |Closed(w, placed, account, asset)|);
  }

  /** In every run, after a completed submit the frozen balance of an account in an asset exceeds the holds
      of its resting orders by between nothing and a tolerance for each of its closed orders. */
  lemma {:induction false} NoStrandedFunds(start: World, es: seq<Event>, tick: real, e: Event, account: string, asset: Asset)
    requires Starts(start, tick) && Legal(start, es + [e], tick) && e.Place?
    requires ReportOf(Run(start, es), e).status == Completed && account in Run(start, es + [e]).world.ledger.accounts
    ensures var s := Run(start, es + [e]);
      var stranded := s.world.ledger.accounts[account].Frozen(asset) - Total(LiveHolds(s.world, account, asset));
      0.0 <= stranded <= Times(EPSILON, |Closed(s.world, s.placed, account, asset)|)
  {
    hide Inv, Legal, Run, Clean, Total, Times, Closed, LiveHolds, TracksExactly, AllApplied, Overspends;
    Always(start, es + [e], tick);
    EveryReport(start, es, tick, e);
    var s := Run(start, es + [e]);
    NothingStranded(s.world, s.placed, tick, account, asset);
  }
}
