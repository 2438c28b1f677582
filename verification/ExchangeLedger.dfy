/**
The ledger of an exchange is the ledger of a run of its operations, so what holds of those runs holds of the
exchange: its journals replay, no account gains or loses, and the exchange loses exactly the fees it reports.
*/
module ExchangeLedger {
  import opened Orders
  import opened OrderBook
  import opened Ledger
  import opened LedgerLaws
  import opened RiskEngine
  import opened Exchange
  import opened ExchangeInvariant
  import opened ExchangeSteps
  import opened ExchangeResults
  import LedgerRuns

  /** The operations `cs` lead to ledger `l`, open accounts with `openings`, and charge `paid`. */
  ghost predicate Leads(cs: seq<LedgerRuns.Command>, l: State, openings: map<string, Account>, paid: real) {
    && LedgerRuns.Legal(cs)
    && LedgerRuns.Run(cs) == l
    && LedgerRuns.Openings(cs) == openings
    && LedgerRuns.FeesPaid(cs) == paid
  }

  function FeesOf(settlements: seq<SettlementResult>): real {
    if settlements == [] then 0.0 else settlements[0].buyerFee + settlements[0].sellerFee + FeesOf(settlements[1..])
  }

  // ---------------------------------------------------------------- one operation more

  lemma {:induction false} Extend(cs: seq<LedgerRuns.Command>, c: LedgerRuns.Command)
    requires LedgerRuns.Legal(cs) && LedgerRuns.Admissible(LedgerRuns.Run(cs), c)
    ensures LedgerRuns.Legal(cs + [c]) && LedgerRuns.Run(cs + [c]) == LedgerRuns.Apply(LedgerRuns.Run(cs), c)
    ensures LedgerRuns.Openings(cs + [c]) ==
            if c.OpenAccount? then LedgerRuns.Openings(cs)[c.account := c.snapshot] else LedgerRuns.Openings(cs)
    ensures c.SettleTrade? ==>
              var r := Settle(LedgerRuns.Run(cs), c.fill, c.fees).result;
              LedgerRuns.FeesPaid(cs + [c]) == LedgerRuns.FeesPaid(cs) + (r.buyerFee + r.sellerFee)
    ensures !c.SettleTrade? ==> LedgerRuns.FeesPaid(cs + [c]) == LedgerRuns.FeesPaid(cs)
  {
    hide Settle, LedgerRuns.Admissible, LedgerRuns.Apply;
    assert (cs + [c])[..|cs|] == cs;
    if c.SettleTrade? {
      LedgerRuns.FeesOfLast(cs + [c]);
    }
  }

  lemma {:induction false} Freezing(cs: seq<LedgerRuns.Command>, w: World, o: Order, openings: map<string, Account>, paid: real)
    returns (cs': seq<LedgerRuns.Command>)
    requires Leads(cs, w.ledger, openings, paid)
    ensures Leads(cs', Reserve(w, o).state, openings, paid)
  {
    hide LedgerRuns.Legal, LedgerRuns.Run, LedgerRuns.Openings, LedgerRuns.FeesPaid, Freeze;
    var c := LedgerRuns.FreezeFunds(AssetOf(o.side), o.user, HoldId(o.id), ReserveAmount(w, o), o.timestamp);
    Extend(cs, c);
    cs' := cs + [c];
  }

  lemma {:induction false} Releasing(cs: seq<LedgerRuns.Command>, l: State, hold: string, timestamp: int, openings: map<string, Account>, paid: real)
    returns (cs': seq<LedgerRuns.Command>)
    requires Leads(cs, l, openings, paid)
    ensures Leads(cs', ReleaseResidual(l, hold, timestamp).state, openings, paid)
  {
    hide LedgerRuns.Legal, LedgerRuns.Run, LedgerRuns.Openings, LedgerRuns.FeesPaid, Release;
    cs' := cs;
    if hold in l.holds && !IsZero(l.holds[hold].amount) {
      Extend(cs, LedgerRuns.ReleaseFunds(hold, timestamp));
      cs' := cs + [LedgerRuns.ReleaseFunds(hold, timestamp)];
    }
  }

  lemma {:induction false} Settling(cs: seq<LedgerRuns.Command>, l: State, registry: map<string, Managed>, trades: seq<Trade>,
                                    symbol: string, timestamp: int, fees: FeeSchedule,
                                    openings: map<string, Account>, paid: real)
    returns (cs': seq<LedgerRuns.Command>)
    requires Leads(cs, l, openings, paid) && AllNamed(registry) && FeesOk(fees)
    ensures var run := SettleTrades(l, registry, trades, symbol, timestamp, fees);
      Leads(cs', run.ledger, openings, paid + FeesOf(run.settlements))
    decreases |trades|
  {
    hide LedgerRuns.Legal, LedgerRuns.Run, LedgerRuns.Openings, LedgerRuns.FeesPaid, Settle;
    cs' := cs;
    if trades != [] && trades[0].maker in registry && trades[0].taker in registry {
      var fill := FillOf(trades[0], registry[trades[0].maker], registry[trades[0].taker], symbol, timestamp);
      var s := Settle(l, fill, fees);
      Extend(cs, LedgerRuns.SettleTrade(fill, fees));
      cs' := cs + [LedgerRuns.SettleTrade(fill, fees)];
      var first := s.result.buyerFee + s.result.sellerFee;
      assert FeesOf([s.result]) == first;
      if s.result.status == Applied || s.result.status == Duplicate {
        var rest := SettleTrades(s.state, registry, trades[1..], symbol, timestamp, fees);
        cs' := Settling(cs', s.state, registry, trades[1..], symbol, timestamp, fees, openings, paid + first);
        assert ([s.result] + rest.settlements)[1..] == rest.settlements;
      }
    }
  }

  lemma {:induction false} Closing(cs: seq<LedgerRuns.Command>, l: State, registry: map<string, Managed>, scan: seq<string>,
                                   b: Book, timestamp: int, openings: map<string, Account>, paid: real)
    returns (cs': seq<LedgerRuns.Command>)
    requires Leads(cs, l, openings, paid)
    ensures Leads(cs', ReleaseClosed(l, registry, scan, b, timestamp).ledger, openings, paid)
    decreases |scan|
  {
    hide Leads, ReleaseResidual, Rests;
    if scan == [] {
      cs' := cs;
    } else if Rests(b, scan[0]) || scan[0] !in registry {
      cs' := Closing(cs, l, registry, scan[1..], b, timestamp, openings, paid);
    } else {
      cs' := Releasing(cs, l, registry[scan[0]].hold, timestamp, openings, paid);
      var d := ReleaseResidual(l, registry[scan[0]].hold, timestamp);
      if d.status == Applied {
        cs' := Closing(cs', d.state, registry - {scan[0]}, scan[1..], b, timestamp, openings, paid);
      }
    }
  }

  // ---------------------------------------------------------------- one submit

  lemma {:induction false} Matching(cs: seq<LedgerRuns.Command>, w: World, o: Order, scan: seq<string>, openings: map<string, Account>, paid: real)
    returns (cs': seq<LedgerRuns.Command>)
    requires Leads(cs, w.ledger, openings, paid) && AllNamed(w.registry) && FeesOk(w.fees)
    ensures var step := Match(w, o, scan);
      Leads(cs', step.world.ledger, openings, paid + FeesOf(step.report.settlements))
  {
    hide Leads, SettleTrades, ReleaseClosed, ReleaseResidual, OrderBook.Submit, Resters, AllNamed;
    var m := MatchOf(w, o);
    if !m.result.accepted && m.result.trades == [] {
      cs' := Releasing(cs, w.ledger, HoldId(o.id), o.timestamp + 1, openings, paid);
    } else {
      var run := SettleTrades(w.ledger, w.registry, m.result.trades, w.symbol, o.timestamp, w.fees);
      cs' := Settling(cs, w.ledger, w.registry, m.result.trades, w.symbol, o.timestamp, w.fees, openings, paid);
      if run.status == Completed {
        cs' := Closing(cs', run.ledger, w.registry, scan, m.book, o.timestamp + 2, openings, paid + FeesOf(run.settlements));
      }
    }
  }

  lemma {:induction false} Submitting(cs: seq<LedgerRuns.Command>, w: World, placed: History, tick: real, o: Order, otherRules: bool,
                   scan: seq<string>, openings: map<string, Account>, paid: real)
    returns (cs': seq<LedgerRuns.Command>)
    requires Leads(cs, w.ledger, openings, paid) && Inv(w, placed, tick)
    ensures var step := SubmitOrder(w, o, otherRules, scan);
      Leads(cs', step.world.ledger, openings, paid + FeesOf(step.report.settlements))
  {
    hide Leads, Match, Freeze, ReserveAmount, SelfTrades;
    cs' := cs;
    if Verdict(o, map[w.symbol := w.prevention], w.tracked, otherRules).Passed? {
      cs' := Freezing(cs, w, o, openings, paid);
      if Reserve(w, o).status == Applied {
        NamedHolds(w, placed, tick, o);
        cs' := Matching(cs', Managing(w, o), o, scan, openings, paid);
      }
    }
  }

  lemma NamedHolds(w: World, placed: History, tick: real, o: Order)
    requires Inv(w, placed, tick)
    ensures AllNamed(Managing(w, o).registry) && FeesOk(w.fees)
  {
    hide FundsOk, BookCovered, DustOk, TrackedOk, BookOk, RestingOk, Freeze, ReserveAmount;
  }

  // ---------------------------------------------------------------- whole runs

  /** The snapshots users registered with. */
  function Registered(es: seq<Event>): map<string, Account> {
    if es == [] then map[]
    else
      var before, e := Registered(es[..|es| - 1]), es[|es| - 1];
      if e.Register? then before[e.user := e.snapshot] else before
  }

  /** The fees of all settlements reported. */
  function FeesReported(start: World, es: seq<Event>): real {
    if es == [] then 0.0
    else
      var before, e := es[..|es| - 1], es[|es| - 1];
      FeesReported(start, before) + (if e.Place? then FeesOf(ReportOf(Run(start, before), e).settlements) else 0.0)
  }

  /** The exchange's ledger comes from a legal run of the clearing ledger. */
  lemma {:induction false} LedgerOfRun(start: World, es: seq<Event>, tick: real) returns (cs: seq<LedgerRuns.Command>)
    requires Starts(start, tick) && Legal(start, es, tick)
    ensures Leads(cs, Run(start, es).world.ledger, Registered(es), FeesReported(start, es))
    decreases |es|
  {
    hide Leads, OrderOk, ScanOk, Inv, SubmitOrder;
    if es == [] {
      cs := [];
      LeadsNowhere();
    } else {
      var before, e := es[..|es| - 1], es[|es| - 1];
      var s := Run(start, before);
      cs := LedgerOfRun(start, before, tick);
      if e.Register? {
        cs := Registering(cs, s.world, e.user, e.snapshot, Registered(before), FeesReported(start, before));
      } else {
        Always(start, before, tick);
        cs := Submitting(cs, s.world, s.placed, tick, e.order, e.otherRules, e.scan, Registered(before), FeesReported(start, before));
      }
    }
  }

  lemma LeadsNowhere()
    ensures Leads([], NOTHING, map[], 0.0)
  {
  }

  lemma {:induction false} Registering(cs: seq<LedgerRuns.Command>, w: World, user: string, snapshot: Account, openings: map<string, Account>, paid: real)
    returns (cs': seq<LedgerRuns.Command>)
    requires Leads(cs, w.ledger, openings, paid) && user !in w.ledger.accounts
    requires NonNegative(snapshot) && snapshot.frozenQuote == 0.0 && snapshot.frozenBase == 0.0
    ensures Leads(cs', RegisterUser(w, user, snapshot).ledger, openings[user := snapshot], paid)
  {
    hide LedgerRuns.Legal, LedgerRuns.Run, LedgerRuns.Openings, LedgerRuns.FeesPaid;
    Extend(cs, LedgerRuns.OpenAccount(user, snapshot));
    cs' := cs + [LedgerRuns.OpenAccount(user, snapshot)];
  }

  /** In every run of the exchange, each account's journal replayed over the snapshot it registered with gives
      its balances, and its worth is what it registered with. */
  lemma {:induction false} AccountsReplay(start: World, es: seq<Event>, tick: real, user: string)
    requires Starts(start, tick) && Legal(start, es, tick) && user in Run(start, es).world.ledger.accounts
    ensures var l := Run(start, es).world.ledger;
      && user in Registered(es)
      && Replay(Registered(es)[user], l.Journal(user)) == l.accounts[user]
      && Worth(l.accounts[user]) == Worth(Registered(es)[user])
  {
    hide Legal, Run, LedgerRuns.Run, Replay, Worth, LedgerRuns.Legal;
    var cs := LedgerOfRun(start, es, tick);
    LedgerRuns.JournalReplays(cs);
    LedgerRuns.WorthIsKept(cs, user);
  }

  /** In every run of the exchange, all accounts together hold the base they registered with, and the quote
      they registered with less exactly the fees reported. */
  lemma {:induction false} ExchangeConserves(start: World, es: seq<Event>, tick: real)
    requires Starts(start, tick) && Legal(start, es, tick)
    ensures var accounts := Run(start, es).world.ledger.accounts;
      && TotalHeld(accounts, Base) == TotalHeld(Registered(es), Base)
      && TotalHeld(accounts, Quote) == TotalHeld(Registered(es), Quote) - FeesReported(start, es)
  {
    hide Legal, Run, LedgerRuns.Run, TotalHeld, LedgerRuns.Legal;
    var cs := LedgerOfRun(start, es, tick);
    LedgerRuns.TotalsAreKept(cs);
  }
}
