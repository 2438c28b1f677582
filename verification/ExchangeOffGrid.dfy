/**
Self-trade prevention without a price grid. The risk rule compares limits exactly and the match loop with a
tolerance, so a user may trade with their own order, but only for a price past their limit by no more than the
tolerance. This needs that no limit order had its settlement rejected: such an order may rest without the risk
engine hearing of it.
*/
module ExchangeOffGrid {
  import opened Orders
  import opened OrderBook
  import opened Ledger
  import opened LedgerLaws
  import LedgerRuns
  import opened RiskEngine
  import opened Exchange
  import opened ExchangeInvariant
  import opened ExchangeClosing
  import opened ExchangeSteps
  import opened ExchangeResults

  const NO_GRID: real := 0.0

  /** What holds at any prices: a ledger in order and owners of every live order. */
  ghost predicate Loose(w: World, placed: History) {
    && FeesOk(w.fees)
    && LedgerOk(w.ledger)
    && OwnersOk(w.book, w.registry, placed, w.symbol, NO_GRID)
    && forall t | t in w.tracked :: t.user in w.restingUsers
  }

  // ---------------------------------------------------------------- the ledger

  /** Trades between managed orders never lack an owner, and settling them keeps the ledger in order. */
  lemma {:induction false} SettlingLedger(l: State, registry: map<string, Managed>, trades: seq<Trade>, symbol: string,
                                          timestamp: int, fees: FeeSchedule)
    requires LedgerOk(l) && AllNamed(registry) && FeesOk(fees)
    requires forall t | t in trades :: t.maker in registry && t.taker in registry
    ensures var run := SettleTrades(l, registry, trades, symbol, timestamp, fees);
      LedgerOk(run.ledger) && (run.status == Completed || run.status == SettlementRejected)
    decreases |trades|
  {
    hide LedgerOk, Settle;
    if trades != [] {
      assert trades[0] in trades;
      var fill := FillOf(trades[0], registry[trades[0].maker], registry[trades[0].taker], symbol, timestamp);
      SettleKeeps(l, fill, fees);
      SettlingLedger(Settle(l, fill, fees).state, registry, trades[1..], symbol, timestamp, fees);
    }
  }

  lemma ReleasingLedger(l: State, hold: string, timestamp: int)
    requires LedgerOk(l)
    ensures LedgerOk(ReleaseResidual(l, hold, timestamp).state) && ReleaseResidual(l, hold, timestamp).status == Applied
  {
    hide LedgerOk;
    ReleaseKeeps(l, hold, timestamp);
  }

  lemma {:induction false} ClosingLedger(l: State, registry: map<string, Managed>, scan: seq<string>, b: Book, timestamp: int)
    requires LedgerOk(l)
    ensures var c := ReleaseClosed(l, registry, scan, b, timestamp);
      LedgerOk(c.ledger) && c.status == Completed && c.registry == Kept(registry, scan, b)
    decreases |scan|
  {
    hide LedgerOk, Rests, ReleaseResidual, Kept;
    if scan == [] {
      KeptNone(registry, b);
    } else {
      KeptTail(registry, scan, b);
      if Rests(b, scan[0]) || scan[0] !in registry {
        ClosingLedger(l, registry, scan[1..], b, timestamp);
      } else {
        var hold := registry[scan[0]].hold;
        ReleasingLedger(l, hold, timestamp);
        ClosingLedger(ReleaseResidual(l, hold, timestamp).state, registry - {scan[0]}, scan[1..], b, timestamp);
      }
    }
  }

  // ---------------------------------------------------------------- one submit

  lemma ManagingLoosely(w: World, placed: History, o: Order)
    requires Loose(w, placed) && TrackedOk(w) && o.id !in placed && o.symbol == w.symbol
    ensures Loose(Managing(w, o), Noted(placed, o)) && TrackedOk(Managing(w, o))
    ensures !Rests(w.book, o.id)
  {
    hide LedgerOk, Freeze, OwnersOk, TrackedOk, AllManaged, Rests, ReserveAmount;
    var w' := Managing(w, o);
    FreezeKeeps(w.ledger, AssetOf(o.side), o.user, HoldId(o.id), ReserveAmount(w, o), o.timestamp);
    ManagedOwners(w.book, w.registry, placed, w.symbol, NO_GRID, o);
    RestingIsManaged(w.book, w.registry, placed, w.symbol, NO_GRID);
    OwnersAreNoted(w.book, w.registry, placed, w.symbol, NO_GRID);
    ManagedTracking(w, w', o, w'.registry[o.id]);
  }

  lemma RejectedLoosely(w: World, placed: History, o: Order, result: MatchResult)
    requires Loose(w, placed) && !Rests(w.book, o.id)
    ensures var step := RejectedMatch(w, o, result);
      step.report.status == MatchingRejected && Loose(step.world, placed) && TrackedOk(step.world)
  {
    hide LedgerOk, OwnersOk, Rests, ReleaseResidual, TrackedOk;
    ReleasingLedger(w.ledger, HoldId(o.id), o.timestamp + 1);
    WithoutTaker(w.book, w.registry, placed, w.symbol, NO_GRID, o.id);
    var l := ReleaseResidual(w.ledger, HoldId(o.id), o.timestamp + 1).state;
    SyncTracks(w.(ledger := l, registry := w.registry - {o.id}), placed, NO_GRID);
  }

  lemma RegisteredNames(registry: map<string, Managed>, placed: History, symbol: string)
    requires RegistryOk(registry, placed, symbol)
    ensures AllNamed(registry)
  {
  }

  lemma TradesAreManaged(w: World, placed: History, o: Order)
    requires OwnersOk(w.book, w.registry, placed, w.symbol, NO_GRID) && o.id in w.registry
    ensures forall t | t in FillOfOrder(w, o).trades :: t.maker in w.registry && t.taker in w.registry
  {
    hide Fill, Reaches, Uncrossed, NoSharedId, Sorted, DistinctIds, RegistryOk;
    SidesAreOk(w.book, o.side);
    FillIsPriceTimePriority(ToMatching(o), Makers(w, o), o.quantity);
    forall i | 0 <= i < |FillOfOrder(w, o).trades|
      ensures FillOfOrder(w, o).trades[i].maker in w.registry && FillOfOrder(w, o).trades[i].taker in w.registry
    {
      assert Makers(w, o)[i] in Makers(w, o);
    }
  }

  lemma AcceptedLoosely(w: World, placed: History, o: Order, scan: seq<string>)
    requires Loose(w, placed) && TrackedOk(w) && WellShaped(o) && !Rests(w.book, o.id)
    requires o.id in w.registry && w.registry[o.id].side == o.side && MatchOf(w, o).result.accepted
    ensures var m := MatchOf(w, o);
      var step := AcceptedMatch(w.(book := m.book), o, m.result, scan);
      && (step.report.status == Completed || step.report.status == SettlementRejected)
      && Loose(step.world, placed)
      && (step.report.status == Completed || o.kind.Market? ==> TrackedOk(step.world))
  {
    hide LedgerOk, OwnersOk, TrackedOk, Rests, Fill, Execute, SettleTrades, ReleaseClosed, PriceOk;
    var m := MatchOf(w, o);
    LooseParts(w, placed);
    MatchedOrNot(w, o);
    RegisteredNames(w.registry, placed, w.symbol);
    TradesAreManaged(w, placed, o);
    SettlingLedger(w.ledger, w.registry, m.result.trades, w.symbol, o.timestamp, w.fees);
    ExecutedOwners(w, placed, NO_GRID, o);
    var run := SettleTrades(w.ledger, w.registry, m.result.trades, w.symbol, o.timestamp, w.fees);
    var settled := w.(book := m.book, ledger := run.ledger);
    if run.status == Completed {
      ClosingLedger(run.ledger, w.registry, scan, m.book, o.timestamp + 2);
      KeptOwners(m.book, w.registry, scan, placed, w.symbol, NO_GRID);
      var c := ReleaseClosed(run.ledger, w.registry, scan, m.book, o.timestamp + 2);
      var closed := settled.(ledger := c.ledger, registry := c.registry);
      SyncTracks(closed, placed, NO_GRID);
      SameTracking(Synced(closed), Refreshed(Synced(closed)));
    } else if o.kind.Market? {
      MatchedTracking(w, settled, o);
    }
  }

  lemma LooseParts(w: World, placed: History)
    requires OwnersOk(w.book, w.registry, placed, w.symbol, NO_GRID)
    ensures BookOk(w.book) && RegistryOk(w.registry, placed, w.symbol)
    ensures forall price: real :: PriceOk(price, NO_GRID)
  {
  }

  /** One submit at any price: an invariant violation is never reported, and only a limit order whose settlement
      is rejected can leave a resting order untracked. */
  lemma SubmitLoosely(w: World, placed: History, o: Order, otherRules: bool, scan: seq<string>)
    requires Loose(w, placed) && TrackedOk(w) && o.id !in placed
    ensures var step := SubmitOrder(w, o, otherRules, scan);
      && Loose(step.world, HistoryAfter(w, placed, o, otherRules))
      && step.report.status != WorkflowStatus.InvariantViolation
      && (step.report.status != SettlementRejected || o.kind.Market? ==> TrackedOk(step.world))
  {
    hide Loose, TrackedOk, Freeze, Rests, RejectedMatch, AcceptedMatch, ReserveAmount;
    if Held(w, o, otherRules) {
      var w' := Managing(w, o);
      ManagingLoosely(w, placed, o);
      LooseBook(w', Noted(placed, o));
      MatchedOrNot(w', o);
      if MatchOf(w', o).result.accepted {
        AcceptedLoosely(w', Noted(placed, o), o, scan);
      } else {
        RejectedLoosely(w', Noted(placed, o), o, MatchOf(w', o).result);
      }
    } else if Verdict(o, map[w.symbol := w.prevention], w.tracked, otherRules).Passed? {
      RefusedFreeze(w, o);
    }
  }

  lemma LooseBook(w: World, placed: History)
    requires Loose(w, placed)
    ensures BookOk(w.book)
  {
  }

  // ---------------------------------------------------------------- whole runs

  ghost predicate StartsLoosely(start: World) {
    && start == Opened(start.symbol, start.bestBid, start.bestAsk, start.fees, start.prevention)
    && FeesOk(start.fees)
  }

  /** No limit order had its settlement rejected. */
  ghost predicate Untroubled(start: World, es: seq<Event>) {
    es == []
    || (var before, e := es[..|es| - 1], es[|es| - 1];
        && Untroubled(start, before)
        && (e.Place? && e.order.kind.Limit? ==> ReportOf(Run(start, before), e).status != SettlementRejected))
  }

  lemma {:induction false} AlwaysLoose(start: World, es: seq<Event>)
    requires StartsLoosely(start) && Legal(start, es, NO_GRID) && Untroubled(start, es)
    ensures var s := Run(start, es); Loose(s.world, s.placed) && TrackedOk(s.world)
  {
    hide Loose, TrackedOk, ScanOk, NoArrow, SubmitOrder;
    if es == [] {
      OpenedIsLoose(start);
    } else {
      var s := Run(start, es[..|es| - 1]);
      AlwaysLoose(start, es[..|es| - 1]);
      match es[|es| - 1]
      case Register(user, snapshot) => RegisterLoosely(s.world, s.placed, user, snapshot);
      case Place(o, otherRules, scan) => SubmitLoosely(s.world, s.placed, o, otherRules, scan);
    }
  }

  lemma OpenedIsLoose(start: World)
    requires StartsLoosely(start)
    ensures Loose(start, map[]) && TrackedOk(start)
  {
  }

  lemma RegisterLoosely(w: World, placed: History, user: string, snapshot: Account)
    requires Loose(w, placed) && TrackedOk(w)
    requires Admissible(Situation(w, placed), Register(user, snapshot), NO_GRID)
    ensures Loose(RegisterUser(w, user, snapshot), placed) && TrackedOk(RegisterUser(w, user, snapshot))
  {
    hide LedgerOk, OwnersOk, TrackedOk;
    LedgerRuns.OpenKeeps(w.ledger, user, snapshot);
    SameTracking(w, RegisterUser(w, user, snapshot));
  }

  /** How far a trade's price is past the taker's limit. */
  function Past(o: Order, t: Trade): real {
    if o.side.Buy? then t.price - o.price else o.price - t.price
  }

  /** In every run at any prices in which no limit order had its settlement rejected, with prevention on: if a
      trade has one user as maker and taker, the taker is a limit order and the price is past its limit by more
      than nothing and no more than the tolerance. */
  lemma {:induction false} SelfTradeWithinTolerance(start: World, es: seq<Event>, e: Event, t: Trade)
    requires StartsLoosely(start) && Legal(start, es + [e], NO_GRID) && Untroubled(start, es) && e.Place? && start.prevention
    requires t in ReportOf(Run(start, es), e).result.trades
    ensures var placed := Run(start, es + [e]).placed;
      && t.maker in placed && t.taker in placed
      && (placed[t.maker].user == placed[t.taker].user ==> e.order.kind.Limit? && 0.0 < Past(e.order, t) <= EPSILON)
  {
    hide Loose, ScanOk, NoArrow, Verdict, TrackedOk;
    assert (es + [e])[..|es|] == es;
    AlwaysLoose(start, es);
    SettingsStay(start, es);
    OwnTradeIsPast(Run(start, es).world, Run(start, es).placed, e.order, e.otherRules, e.scan, t);
  }

  lemma OwnTradeIsPast(w: World, placed: History, o: Order, otherRules: bool, scan: seq<string>, t: Trade)
    requires Loose(w, placed) && TrackedOk(w) && o.id !in placed && w.prevention
    requires t in SubmitOrder(w, o, otherRules, scan).report.result.trades
    ensures Held(w, o, otherRules)
    ensures var placed' := Noted(placed, o);
      && t.maker in placed' && t.taker == o.id
      && (placed'[t.maker].user == o.user ==> o.kind.Limit? && 0.0 < Past(o, t) <= EPSILON)
  {
    hide LedgerOk, Reaches, Fill, SelfTrades, Freeze, ReserveAmount, Uncrossed, NoSharedId, Sorted, DistinctIds, Rests;
    hide TrackedOk, SubmitOrder, MatchOf, PriceOk;
    RestingIsManaged(w.book, w.registry, placed, w.symbol, NO_GRID);
    TradesOfReport(w, o, otherRules, scan);
    MatchedOrNot(w, o);
    var makers, trades := Makers(w, o), FillOfOrder(w, o).trades;
    FillIsPriceTimePriority(ToMatching(o), makers, o.quantity);
    var i :| 0 <= i < |trades| && trades[i] == t;
    assert makers[i] in makers;
    OwnOrderIsPast(w, placed, o, makers[i]);
  }

  /** An own order that the risk rule lets pass is out of its sight by no more than the tolerance. */
  lemma OwnOrderIsPast(w: World, placed: History, o: Order, x: Resting)
    requires OwnersOk(w.book, w.registry, placed, w.symbol, NO_GRID) && TrackedOk(w)
    requires x in Makers(w, o) && Reaches(ToMatching(o), x.price) && !SelfTrades(o, w.tracked)
    ensures x.id in w.registry && x.id in placed && w.registry[x.id].user == placed[x.id].user
    ensures placed[x.id].user == o.user ==>
              o.kind.Limit? && 0.0 < (if o.side.Buy? then x.price - o.price else o.price - x.price) <= EPSILON
  {
    hide BookOk, PriceOk, SelfTrades;
    var user := w.registry[x.id].user;
    assert Knows(w.tracked, user, Other(o.side), x.price);
    var t :| t in w.tracked && t.user == user && t.side == Other(o.side) && t.price == x.price && t.quantity > 0.0;
    if user == o.user {
      DisagreeWithinTolerance(o, t);
      assert !Crosses(o, t) by {
        Passes(o, w.tracked, t);
      }
    }
  }

  lemma Passes(o: Order, tracked: set<Tracked>, t: Tracked)
    requires !SelfTrades(o, tracked) && t in tracked
    ensures !Crosses(o, t)
  {
  }
}
