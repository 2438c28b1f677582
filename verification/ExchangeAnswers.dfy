/**
What a submit leaves behind in the journals and the outbox, and when it is refused as a self-trade, over whole runs.
*/
module ExchangeAnswers {
  import opened Orders
  import opened OrderBook
  import opened Ledger
  import opened LedgerAnswers
  import opened RiskEngine
  import opened Exchange
  import opened ExchangeInvariant
  import opened ExchangeSettling
  import opened ExchangeClosing
  import opened ExchangeSteps
  import opened ExchangeResults

  // ---------------------------------------------------------------- refused as a self-trade

  /** An order of the same user rests on the other side at a price the order accepts. */
  ghost predicate MeetsOwn(b: Book, placed: History, o: Order) {
    exists x | x in b.Of(Other(o.side)) ::
      && x.id in placed && placed[x.id].user == o.user
      && (o.kind.Market? || if o.side.Buy? then x.price <= o.price else x.price >= o.price)
  }

  lemma TrackedIsBook(w: World, placed: History, tick: real, o: Order)
    requires OwnersOk(w.book, w.registry, placed, w.symbol, tick) && TracksExactly(w)
    ensures MeetsOwn(w.book, placed, o) <==>
              exists t | t in w.tracked ::
                && t.user == o.user && t.side == Other(o.side) && t.quantity > 0.0
                && (o.kind.Market? || if o.side.Buy? then t.price <= o.price else t.price >= o.price)
  {
    hide PriceOk, Uncrossed, NoSharedId, Sorted, DistinctIds;
    if MeetsOwn(w.book, placed, o) {
      var x :| x in w.book.Of(Other(o.side)) && x.id in placed && placed[x.id].user == o.user
               && (o.kind.Market? || if o.side.Buy? then x.price <= o.price else x.price >= o.price);
      RestsAsTracked(w, placed, tick, o, x);
    }
    if t :| t in w.tracked && t.user == o.user && t.side == Other(o.side) && t.quantity > 0.0
            && (o.kind.Market? || if o.side.Buy? then t.price <= o.price else t.price >= o.price) {
      var x :| x in Resters(w.book, w.registry) && t == TrackedAs(x, w.registry[x.id]);
      assert x in w.book.Of(Other(o.side));
    }
  }

  lemma RestsAsTracked(w: World, placed: History, tick: real, o: Order, x: Resting)
    requires OwnersOk(w.book, w.registry, placed, w.symbol, tick) && TracksExactly(w)
    requires x in w.book.Of(Other(o.side))
    ensures x.id in w.registry && x.id in placed && x.open > 0.0
    ensures var t := TrackedAs(x, w.registry[x.id]);
      t in w.tracked && t.user == placed[x.id].user && t.side == Other(o.side) && t.price == x.price && t.quantity > 0.0
  {
    hide PriceOk, Uncrossed, NoSharedId, Sorted, DistinctIds;
    assert x in Resters(w.book, w.registry);
  }

  /** In every run, after a completed submit: an order is refused as a self-trade exactly if prevention is on, it is
      well formed for this market, the other rules pass, and an order of its user rests on the other side at a price
      it accepts. */
  lemma {:induction false} SelfTradeRefusedExactly(start: World, es: seq<Event>, tick: real, e: Event, o: Order, otherRules: bool)
    requires Starts(start, tick) && Legal(start, es + [e], tick) && e.Place?
    requires ReportOf(Run(start, es), e).status == Completed
    ensures var s := Run(start, es + [e]);
      Verdict(o, map[s.world.symbol := s.world.prevention], s.world.tracked, otherRules) == SelfTradePrevented <==>
        && start.prevention && o.symbol == start.symbol && otherRules
        && o.id != "" && o.user != "" && o.symbol != "" && o.sourceIp != "" && o.quantity > 0.0 && o.timestamp > 0
        && MeetsOwn(s.world.book, s.placed, o)
  {
    hide Inv, Legal, Run, Clean, TracksExactly, AllApplied, Overspends, Answers, Verdict, MeetsOwn;
    Always(start, es + [e], tick);
    EveryReport(start, es, tick, e);
    SettingsStay(start, es + [e]);
    var s := Run(start, es + [e]);
    InvOwners(s.world, s.placed, tick);
    TrackedIsBook(s.world, s.placed, tick, o);
    VerdictExactly(o, map[s.world.symbol := s.world.prevention], s.world.tracked, otherRules);
  }

  lemma InvOwners(w: World, placed: History, tick: real)
    requires Inv(w, placed, tick)
    ensures OwnersOk(w.book, w.registry, placed, w.symbol, tick)
  {
  }

  // ---------------------------------------------------------------- journals only grow

  /** An entry made by a release carries time `later`, any other time `now`. */
  predicate Stamped(e: JournalEntry, now: int, later: int) {
    e.timestamp == if e.operation == "release_quote" || e.operation == "release_base" then later else now
  }

  ghost predicate Extends(l: State, l': State, now: int, later: int) {
    forall a :: l.Journal(a) <= l'.Journal(a)
      && forall i | |l.Journal(a)| <= i < |l'.Journal(a)| :: Stamped(l'.Journal(a)[i], now, later)
  }

  lemma ExtendsTwice(a: State, b: State, c: State, now: int, later: int)
    requires Extends(a, b, now, later) && Extends(b, c, now, later)
    ensures Extends(a, c, now, later)
  {
    hide Stamped;
    forall x ensures a.Journal(x) <= c.Journal(x)
      && forall i | |a.Journal(x)| <= i < |c.Journal(x)| :: Stamped(c.Journal(x)[i], now, later)
    {
      assert a.Journal(x) <= b.Journal(x) && b.Journal(x) <= c.Journal(x);
    }
  }

  lemma RecordExtends(l: State, e: JournalEntry, now: int, later: int)
    requires Stamped(e, now, later)
    ensures Extends(l, Recorded(l, e), now, later)
  {
  }

  lemma SameJournalsExtend(l: State, l': State, l'': State, now: int, later: int)
    requires Extends(l, l', now, later) && l''.journals == l'.journals
    ensures Extends(l, l'', now, later)
  {
    assert forall a :: l''.Journal(a) == l'.Journal(a);
  }

  lemma SettleExtends(l: State, fill: TradeFill, fees: FeeSchedule, later: int)
    ensures Extends(l, Settle(l, fill, fees).state, fill.timestamp, later)
  {
    hide FeeAmount, CostReleased, Consumed, Coverage, Notional, Extends, Recorded;
    var s := Settle(l, fill, fees);
    if s.result.status == Applied {
      var a := AmountsOf(fill, fees, l.accounts[fill.seller]);
      var bought := Recorded(l, BuyEntry(fill, a));
      RecordExtends(l, BuyEntry(fill, a), fill.timestamp, later);
      RecordExtends(bought, SellEntry(fill, a), fill.timestamp, later);
      ExtendsTwice(l, bought, Recorded(bought, SellEntry(fill, a)), fill.timestamp, later);
      BookedJournals(l, fill, a);
      SameJournalsExtend(l, Recorded(bought, SellEntry(fill, a)), s.state, fill.timestamp, later);
    } else {
      NothingExtends(l, fill.timestamp, later);
    }
  }

  lemma BookedJournals(l: State, fill: TradeFill, a: Amounts)
    requires fill.buyer in l.accounts && fill.seller in l.accounts
    ensures Booked(l, fill, a).journals == Recorded(Recorded(l, BuyEntry(fill, a)), SellEntry(fill, a)).journals
  {
  }

  lemma NothingExtends(l: State, now: int, later: int)
    ensures Extends(l, l, now, later)
  {
  }

  lemma ResidualExtends(l: State, hold: string, now: int, later: int)
    ensures Extends(l, ReleaseResidual(l, hold, later).state, now, later)
    ensures ReleaseResidual(l, hold, later).state.outbox == l.outbox
  {
    hide Extends, Recorded;
    NothingExtends(l, now, later);
    if hold in l.holds && !IsZero(l.holds[hold].amount) && l.holds[hold].account in l.accounts {
      var e := ReleaseEntry(l.holds[hold], hold, later);
      RecordExtends(l, e, now, later);
      ReleasedJournals(l, hold, later);
      SameJournalsExtend(l, Recorded(l, e), ReleaseResidual(l, hold, later).state, now, later);
    }
  }

  lemma ReleasedJournals(l: State, hold: string, timestamp: int)
    requires hold in l.holds && l.holds[hold].account in l.accounts
    ensures Release(l, hold, timestamp).state.journals == Recorded(l, ReleaseEntry(l.holds[hold], hold, timestamp)).journals
    ensures Release(l, hold, timestamp).state.outbox == l.outbox
  {
  }

  lemma {:induction false} TradesExtend(l: State, registry: map<string, Managed>, trades: seq<Trade>, symbol: string,
                                        timestamp: int, fees: FeeSchedule, later: int)
    ensures Extends(l, SettleTrades(l, registry, trades, symbol, timestamp, fees).ledger, timestamp, later)
    decreases |trades|
  {
    hide Settle, Extends;
    NothingExtends(l, timestamp, later);
    if trades != [] && trades[0].maker in registry && trades[0].taker in registry {
      var fill := FillOf(trades[0], registry[trades[0].maker], registry[trades[0].taker], symbol, timestamp);
      var s := Settle(l, fill, fees).state;
      SettleExtends(l, fill, fees, later);
      TradesExtend(s, registry, trades[1..], symbol, timestamp, fees, later);
      ExtendsTwice(l, s, SettleTrades(s, registry, trades[1..], symbol, timestamp, fees).ledger, timestamp, later);
    }
  }

  lemma {:induction false} ClosingExtends(l: State, registry: map<string, Managed>, scan: seq<string>, b: Book, now: int, later: int)
    ensures Extends(l, ReleaseClosed(l, registry, scan, b, later).ledger, now, later)
    ensures ReleaseClosed(l, registry, scan, b, later).ledger.outbox == l.outbox
    decreases |scan|
  {
    hide ReleaseResidual, Rests, Extends;
    NothingExtends(l, now, later);
    if scan != [] {
      if Rests(b, scan[0]) || scan[0] !in registry {
        ClosingExtends(l, registry, scan[1..], b, now, later);
      } else {
        var d := ReleaseResidual(l, registry[scan[0]].hold, later);
        ResidualExtends(l, registry[scan[0]].hold, now, later);
        ClosingExtends(d.state, registry - {scan[0]}, scan[1..], b, now, later);
        ExtendsTwice(l, d.state, ReleaseClosed(d.state, registry - {scan[0]}, scan[1..], b, later).ledger, now, later);
      }
    }
  }

  lemma MatchExtends(w: World, o: Order, scan: seq<string>)
    ensures var later := o.timestamp + (if MatchOf(w, o).result.accepted || MatchOf(w, o).result.trades != [] then 2 else 1);
      Extends(w.ledger, Match(w, o, scan).world.ledger, o.timestamp, later)
  {
    hide SettleTrades, ReleaseClosed, ReleaseResidual, OrderBook.Submit, Extends, Resters;
    var m := MatchOf(w, o);
    if !m.result.accepted && m.result.trades == [] {
      ResidualExtends(w.ledger, HoldId(o.id), o.timestamp, o.timestamp + 1);
    } else {
      var run := SettleTrades(w.ledger, w.registry, m.result.trades, w.symbol, o.timestamp, w.fees);
      TradesExtend(w.ledger, w.registry, m.result.trades, w.symbol, o.timestamp, w.fees, o.timestamp + 2);
      ClosingExtends(run.ledger, w.registry, scan, m.book, o.timestamp, o.timestamp + 2);
      ExtendsTwice(w.ledger, run.ledger, ReleaseClosed(run.ledger, w.registry, scan, m.book, o.timestamp + 2).ledger,
                   o.timestamp, o.timestamp + 2);
    }
  }

  // ---------------------------------------------------------------- the funds held

  /** The price an order is reserved at: its limit, or the best ask, or the last one known. */
  function ReservedAt(w: World, o: Order): real {
    if o.kind.Limit? && o.price > 0.0 then o.price else if w.book.asks != [] then w.book.asks[0].price else w.bestAsk
  }

  /** The freeze of `amount` for an order, as it is journalled. */
  predicate FreezesFor(e: JournalEntry, o: Order, amount: real) {
    && e.account == o.user && e.event == "hold-" + o.id && e.timestamp == o.timestamp
    && (if o.side.Buy? then
          e.operation == "freeze_quote" && e.delta == Account(-amount, amount, 0.0, 0.0, 0.0, 0.0)
        else
          e.operation == "freeze_base" && e.delta == Account(0.0, 0.0, -amount, amount, 0.0, 0.0))
  }

  lemma ReserveJournals(w: World, o: Order)
    requires Reserve(w, o).status == Applied
    ensures var j, j' := w.ledger.Journal(o.user), Reserve(w, o).state.Journal(o.user);
      && |j'| == |j| + 1 && j <= j'
      && FreezesFor(j'[|j|], o, if o.side.Sell? then o.quantity
                                else ReservedAt(w, o) * o.quantity * (1.0 + w.fees.taker / 10000.0))
  {
  }

  /** In every submit for which funds are held, the first thing journalled for the user is the freeze: a sell's
      quantity, or a buy's quantity at its limit or the best ask with the taker fee. Journals only grow, everything is
      journalled at the order's time but the releases, one later after a rejected match and two later otherwise. */
  lemma {:induction false} FundsHeldExactly(w: World, o: Order, otherRules: bool, scan: seq<string>)
    requires Held(w, o, otherRules)
    ensures var l, l' := w.ledger, SubmitOrder(w, o, otherRules, scan).world.ledger;
      var m := MatchOf(w, o).result;
      && l.Journal(o.user) <= l'.Journal(o.user) && |l'.Journal(o.user)| > |l.Journal(o.user)|
      && FreezesFor(l'.Journal(o.user)[|l.Journal(o.user)|], o,
                    if o.side.Sell? then o.quantity else ReservedAt(w, o) * o.quantity * (1.0 + w.fees.taker / 10000.0))
      && Extends(l, l', o.timestamp, o.timestamp + (if m.accepted || m.trades != [] then 2 else 1))
  {
    hide Freeze, Match, FreezesFor, Verdict, OrderBook.Submit, Extends;
    var w1 := Managing(w, o);
    ReserveJournals(w, o);
    MatchExtends(w1, o, scan);
    SameOffer(w, o);
    var later := o.timestamp + (if MatchOf(w, o).result.accepted || MatchOf(w, o).result.trades != [] then 2 else 1);
    ReserveExtends(w, o, later);
    ExtendsTwice(w.ledger, w1.ledger, Match(w1, o, scan).world.ledger, o.timestamp, later);
    Prefix(w1.ledger, Match(w1, o, scan).world.ledger, o.user, o.timestamp, later);
    Prefix(w.ledger, Match(w1, o, scan).world.ledger, o.user, o.timestamp, later);
  }

  lemma ReserveExtends(w: World, o: Order, later: int)
    requires Reserve(w, o).status == Applied
    ensures Extends(w.ledger, Reserve(w, o).state, o.timestamp, later)
  {
    hide ReserveAmount;
    var e := FreezeEntry(AssetOf(o.side), o.user, HoldId(o.id), ReserveAmount(w, o), o.timestamp);
    RecordExtends(w.ledger, e, o.timestamp, later);
    SameJournalsExtend(w.ledger, Recorded(w.ledger, e), Reserve(w, o).state, o.timestamp, later);
  }

  lemma Prefix(l: State, l': State, account: string, now: int, later: int)
    requires Extends(l, l', now, later)
    ensures l.Journal(account) <= l'.Journal(account)
  {
  }

  // ---------------------------------------------------------------- where settling stops

  predicate GoesOn(r: SettlementResult) {
    r.status == Applied || r.status == Duplicate
  }

  /** Trades are settled in order up to the first that is neither applied nor a duplicate, which is a rejected
      settlement, or up to the first with an order nobody owns, which is an invariant violation. */
  lemma {:induction false} SettlingStops(l: State, registry: map<string, Managed>, trades: seq<Trade>, symbol: string,
                                         timestamp: int, fees: FeeSchedule)
    ensures var run := SettleTrades(l, registry, trades, symbol, timestamp, fees);
      var n := |run.settlements|;
      && n <= |trades|
      && (forall i | 0 <= i < n - 1 :: GoesOn(run.settlements[i]))
      && (forall i | 0 <= i < n :: trades[i].maker in registry && trades[i].taker in registry)
      && run.status == (if n > 0 && !GoesOn(run.settlements[n - 1]) then SettlementRejected
                        else if n < |trades| then WorkflowStatus.InvariantViolation
                        else Completed)
      && (run.status == WorkflowStatus.InvariantViolation ==> trades[n].maker !in registry || trades[n].taker !in registry)
    decreases |trades|
  {
    hide Settle;
    if trades != [] && trades[0].maker in registry && trades[0].taker in registry {
      var fill := FillOf(trades[0], registry[trades[0].maker], registry[trades[0].taker], symbol, timestamp);
      var s := Settle(l, fill, fees);
      if GoesOn(s.result) {
        SettlingStops(s.state, registry, trades[1..], symbol, timestamp, fees);
        var run := SettleTrades(l, registry, trades, symbol, timestamp, fees);
        var rest := SettleTrades(s.state, registry, trades[1..], symbol, timestamp, fees);
        assert run == rest.(settlements := [s.result] + rest.settlements);
        assert forall i | 1 <= i < |trades| :: trades[i] == trades[1..][i - 1];
        assert forall i | 1 <= i < |run.settlements| :: run.settlements[i] == rest.settlements[i - 1];
      }
    }
  }

  // ---------------------------------------------------------------- trades are announced

  /** The announcement of a trade, from the owners of its two orders and the side of its taker. */
  predicate Announces(m: OutboxMessage, t: Trade, maker: string, taker: string, takerBuys: bool, symbol: string) {
    m == OutboxMessage(t.maker + "->" + t.taker, symbol, if takerBuys then taker else maker, if takerBuys then maker else taker)
  }

  /** The settlement of a trade moves its price times its quantity and charges each side the rate of its role. */
  predicate Charged(r: SettlementResult, t: Trade, takerBuys: bool, fees: FeeSchedule) {
    && r.notional == t.price * t.quantity
    && r.buyerFee == FeeOn(t.price, t.quantity, if takerBuys then fees.taker else fees.maker)
    && r.sellerFee == FeeOn(t.price, t.quantity, if takerBuys then fees.maker else fees.taker)
  }

  lemma AppliedIsCharged(l: State, t: Trade, maker: Managed, taker: Managed, symbol: string, timestamp: int, fees: FeeSchedule)
    requires Settle(l, FillOf(t, maker, taker, symbol, timestamp), fees).result.status == Applied
    ensures Charged(Settle(l, FillOf(t, maker, taker, symbol, timestamp), fees).result, t, taker.side.Buy?, fees)
  {
    hide Settle, FeeOn;
    var fill := FillOf(t, maker, taker, symbol, timestamp);
    if fill.buyer == fill.seller {
      SettlesWithItself(l, fill, fees);
    } else {
      SettlesExactly(l, fill, fees);
    }
  }

  /** A run that settles everything settles its first trade and then the others. */
  lemma FirstIsSettled(l: State, registry: map<string, Managed>, trades: seq<Trade>, symbol: string, timestamp: int,
                       fees: FeeSchedule)
    requires trades != []
    requires var run := SettleTrades(l, registry, trades, symbol, timestamp, fees);
      run.status == Completed && AllApplied(run.settlements)
    ensures trades[0].maker in registry && trades[0].taker in registry
    ensures var s := Settle(l, FillOf(trades[0], registry[trades[0].maker], registry[trades[0].taker], symbol, timestamp), fees);
      var run := SettleTrades(l, registry, trades, symbol, timestamp, fees);
      var rest := SettleTrades(s.state, registry, trades[1..], symbol, timestamp, fees);
      && s.result.status == Applied
      && run.settlements == [s.result] + rest.settlements && run.ledger == rest.ledger
      && rest.status == Completed && AllApplied(rest.settlements)
  {
    hide Settle, FillOf;
    var s := Settle(l, FillOf(trades[0], registry[trades[0].maker], registry[trades[0].taker], symbol, timestamp), fees);
    var run := SettleTrades(l, registry, trades, symbol, timestamp, fees);
    var rest := SettleTrades(s.state, registry, trades[1..], symbol, timestamp, fees);
    assert run.settlements == [s.result] + rest.settlements && s.result == run.settlements[0];
    assert AllApplied(rest.settlements) by {
      assert forall i | 0 <= i < |rest.settlements| :: rest.settlements[i] == run.settlements[i + 1];
    }
  }

  /** The outbox has grown by one announcement for each trade, in order, between owners the registry names. */
  ghost predicate AllAnnounced(before: seq<OutboxMessage>, after: seq<OutboxMessage>, trades: seq<Trade>,
                               registry: map<string, Managed>, symbol: string)
  {
    && |after| == |before| + |trades| && before <= after
    && forall i | 0 <= i < |trades| ::
         var t := trades[i];
         && t.maker in registry && t.taker in registry
         && Announces(after[|before| + i], t, registry[t.maker].user, registry[t.taker].user, registry[t.taker].side.Buy?, symbol)
  }

  lemma FirstAnnounced(before: seq<OutboxMessage>, one: seq<OutboxMessage>, trades: seq<Trade>, registry: map<string, Managed>,
                       symbol: string)
    requires trades != [] && |one| == |before| + 1 && before <= one
    requires var t := trades[0];
      && t.maker in registry && t.taker in registry
      && Announces(one[|before|], t, registry[t.maker].user, registry[t.taker].user, registry[t.taker].side.Buy?, symbol)
    ensures AllAnnounced(before, one, trades[..1], registry, symbol)
  {
  }

  lemma OneMoreAnnounced(before: seq<OutboxMessage>, one: seq<OutboxMessage>, after: seq<OutboxMessage>, trades: seq<Trade>,
                         registry: map<string, Managed>, symbol: string)
    requires trades != [] && AllAnnounced(before, one, trades[..1], registry, symbol)
    requires AllAnnounced(one, after, trades[1..], registry, symbol)
    ensures AllAnnounced(before, after, trades, registry, symbol)
  {
    hide Announces;
    assert after[|before|] == one[|before|] && trades[..1][0] == trades[0];
    forall i | 1 <= i < |trades| ensures trades[i] == trades[1..][i - 1] && after[|before| + i] == after[|one| + (i - 1)] {}
  }

  lemma {:induction false} SettledAreAnnounced(l: State, registry: map<string, Managed>, trades: seq<Trade>, symbol: string,
                                               timestamp: int, fees: FeeSchedule)
    requires var run := SettleTrades(l, registry, trades, symbol, timestamp, fees);
      run.status == Completed && AllApplied(run.settlements)
    ensures AllAnnounced(l.outbox, SettleTrades(l, registry, trades, symbol, timestamp, fees).ledger.outbox, trades, registry, symbol)
    decreases |trades|
  {
    if trades != [] {
      hide Settle, SettleTrades, AllApplied, AllAnnounced, FillOf;
      FirstIsSettled(l, registry, trades, symbol, timestamp, fees);
      var maker, taker := registry[trades[0].maker], registry[trades[0].taker];
      var s := Settle(l, FillOf(trades[0], maker, taker, symbol, timestamp), fees).state;
      AppliedIsAnnounced(l, trades[0], maker, taker, symbol, timestamp, fees);
      FirstAnnounced(l.outbox, s.outbox, trades, registry, symbol);
      SettledAreAnnounced(s, registry, trades[1..], symbol, timestamp, fees);
      OneMoreAnnounced(l.outbox, s.outbox, SettleTrades(l, registry, trades, symbol, timestamp, fees).ledger.outbox, trades,
                       registry, symbol);
    }
  }

  lemma AppliedIsAnnounced(l: State, t: Trade, maker: Managed, taker: Managed, symbol: string, timestamp: int, fees: FeeSchedule)
    requires Settle(l, FillOf(t, maker, taker, symbol, timestamp), fees).result.status == Applied
    ensures var out := Settle(l, FillOf(t, maker, taker, symbol, timestamp), fees).state.outbox;
      && |out| == |l.outbox| + 1 && l.outbox <= out
      && Announces(out[|l.outbox|], t, maker.user, taker.user, taker.side.Buy?, symbol)
  {
    hide Settle;
    SettleRecords(l, FillOf(t, maker, taker, symbol, timestamp), fees);
  }

  lemma {:induction false} SettledAreCharged(l: State, registry: map<string, Managed>, trades: seq<Trade>, symbol: string,
                                             timestamp: int, fees: FeeSchedule)
    requires forall t | t in trades :: t.maker in registry && t.taker in registry
    requires var run := SettleTrades(l, registry, trades, symbol, timestamp, fees);
      run.status == Completed && AllApplied(run.settlements)
    ensures var results := SettleTrades(l, registry, trades, symbol, timestamp, fees).settlements;
      && |results| == |trades|
      && forall i | 0 <= i < |trades| :: Charged(results[i], trades[i], registry[trades[i].taker].side.Buy?, fees)
    decreases |trades|
  {
    if trades != [] {
      hide Settle, SettleTrades, AllApplied, Charged, FillOf;
      FirstIsSettled(l, registry, trades, symbol, timestamp, fees);
      var fill := FillOf(trades[0], registry[trades[0].maker], registry[trades[0].taker], symbol, timestamp);
      AppliedIsCharged(l, trades[0], registry[trades[0].maker], registry[trades[0].taker], symbol, timestamp, fees);
      SettledAreCharged(Settle(l, fill, fees).state, registry, trades[1..], symbol, timestamp, fees);
      forall i | 1 <= i < |trades| ensures trades[i] == trades[1..][i - 1] {}
    }
  }

  /** In every run a completed submit announces each of its trades once, in order, with the owners of the two orders
      as buyer and seller, and charges its two sides by their roles. */
  lemma {:induction false} TradesAnnounced(start: World, es: seq<Event>, tick: real, e: Event)
    requires Starts(start, tick) && Legal(start, es + [e], tick) && e.Place?
    requires ReportOf(Run(start, es), e).status == Completed
    ensures var before, after := Run(start, es).world.ledger.outbox, Run(start, es + [e]).world.ledger.outbox;
      var trades, placed := ReportOf(Run(start, es), e).result.trades, Run(start, es + [e]).placed;
      && |after| == |before| + |trades| && before <= after
      && forall i | 0 <= i < |trades| ::
           && trades[i].maker in placed && trades[i].taker in placed
           && Announces(after[|before| + i], trades[i], placed[trades[i].maker].user, e.order.user, e.order.side.Buy?, start.symbol)
    ensures var report := ReportOf(Run(start, es), e);
      && |report.settlements| == |report.result.trades|
      && forall i | 0 <= i < |report.result.trades| ::
           Charged(report.settlements[i], report.result.trades[i], e.order.side.Buy?, start.fees)
  {
    hide OrderOk, ScanOk, Clean, TracksExactly, Answers, Inv, SubmitOrder, Announces, Charged;
    assert (es + [e])[..|es|] == es;
    Always(start, es, tick);
    EveryReport(start, es, tick, e);
    SettingsStay(start, es);
    var s := Run(start, es);
    StepAnnounces(s.world, s.placed, tick, e.order, e.otherRules, e.scan);
  }

  lemma StepAnnounces(w: World, placed: History, tick: real, o: Order, otherRules: bool, scan: seq<string>)
    requires Inv(w, placed, tick) && OrderOk(o, placed, tick)
    requires var step := SubmitOrder(w, o, otherRules, scan);
      step.report.status == Completed && AllApplied(step.report.settlements)
    ensures Held(w, o, otherRules)
    ensures var step, placed' := SubmitOrder(w, o, otherRules, scan), Noted(placed, o);
      var before, after, trades := w.ledger.outbox, step.world.ledger.outbox, step.report.result.trades;
      && |after| == |before| + |trades| && before <= after
      && forall i | 0 <= i < |trades| ::
           && trades[i].maker in placed' && trades[i].taker in placed'
           && Announces(after[|before| + i], trades[i], placed'[trades[i].maker].user, o.user, o.side.Buy?, w.symbol)
    ensures var report := SubmitOrder(w, o, otherRules, scan).report;
      && |report.settlements| == |report.result.trades|
      && forall i | 0 <= i < |report.result.trades| :: Charged(report.settlements[i], report.result.trades[i], o.side.Buy?, w.fees)
  {
    hide Inv, OrderOk, Announces, Charged, Freeze, ReserveAmount, Verdict, AllApplied, RejectedMatch, AcceptedMatch, OrderBook.Submit;
    CompletedIsHeld(w, o, otherRules, scan);
    var w1, m := Managing(w, o), MatchOf(w, o);
    ReserveOutbox(w, o);
    AcceptedAnnounces(w1.(book := m.book), o, m.result, scan);
    OwnersOfTrades(w, placed, tick, o);
  }

  lemma CompletedIsHeld(w: World, o: Order, otherRules: bool, scan: seq<string>)
    requires SubmitOrder(w, o, otherRules, scan).report.status == Completed
    ensures Held(w, o, otherRules)
    ensures SubmitOrder(w, o, otherRules, scan)
         == AcceptedMatch(Managing(w, o).(book := MatchOf(w, o).book), o, MatchOf(w, o).result, scan)
  {
    hide AcceptedMatch, ReleaseResidual, Freeze, ReserveAmount, Verdict, OrderBook.Submit;
  }

  lemma ReserveOutbox(w: World, o: Order)
    ensures Reserve(w, o).state.outbox == w.ledger.outbox
  {
  }

  lemma AcceptedAnnounces(w: World, o: Order, result: MatchResult, scan: seq<string>)
    requires var step := AcceptedMatch(w, o, result, scan);
      step.report.status == Completed && AllApplied(step.report.settlements)
    ensures forall t | t in result.trades :: t.maker in w.registry && t.taker in w.registry
    ensures var out := AcceptedMatch(w, o, result, scan).world.ledger.outbox;
      && AcceptedMatch(w, o, result, scan).report.result == result
      && |out| == |w.ledger.outbox| + |result.trades| && w.ledger.outbox <= out
      && forall i | 0 <= i < |result.trades| ::
           var t := result.trades[i];
           Announces(out[|w.ledger.outbox| + i], t, w.registry[t.maker].user, w.registry[t.taker].user,
                     w.registry[t.taker].side.Buy?, w.symbol)
    ensures var results := AcceptedMatch(w, o, result, scan).report.settlements;
      && |results| == |result.trades|
      && forall i | 0 <= i < |result.trades| ::
           Charged(results[i], result.trades[i], w.registry[result.trades[i].taker].side.Buy?, w.fees)
  {
    hide SettleTrades, ReleaseClosed, Announces, Charged, AllApplied, Resters;
    var run := SettleTrades(w.ledger, w.registry, result.trades, w.symbol, o.timestamp, w.fees);
    SettledAreAnnounced(w.ledger, w.registry, result.trades, w.symbol, o.timestamp, w.fees);
    SettledAreCharged(w.ledger, w.registry, result.trades, w.symbol, o.timestamp, w.fees);
    ClosingExtends(run.ledger, w.registry, scan, w.book, o.timestamp, o.timestamp + 2);
  }

  /** The registry names the owner of every managed order, and trades are the taker's. */
  lemma OwnersOfTrades(w: World, placed: History, tick: real, o: Order)
    requires Inv(w, placed, tick) && OrderOk(o, placed, tick)
    ensures var registry, placed' := Managing(w, o).registry, Noted(placed, o);
      && (forall id | id in registry :: id in placed' && registry[id].user == placed'[id].user && registry[id].side == placed'[id].side)
      && (forall t | t in MatchOf(w, o).result.trades :: t.taker == o.id)
  {
    hide FundsOk, BookCovered, DustOk, TrackedOk, Uncrossed, NoSharedId, Sorted, DistinctIds, RestingOk, NoArrow, PriceOk;
    hide Freeze, ReserveAmount, Fill, Reaches, Available;
    FillIsPriceTimePriority(ToMatching(o), Makers(w, o), o.quantity);
  }
}
