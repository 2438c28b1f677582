/** The pipeline over its three engines: every submit does what `Exchange` says, with some scan of the registry. */
module ExchangePipeline {
  import opened Wrappers
  import opened Orders
  import opened OrderBook
  import opened Ledger
  import opened RiskEngine
  import opened Exchange
  import MatchingEngine
  import ClearingSystem

  class ExchangePipeline {
    const symbol: string
    const risk: PreTradeRiskEngine
    const matching: MatchingEngine.Engine
    const clearing: ClearingSystem.AccountClearingSystem
    const fees: FeeSchedule
    const prevention: bool
    var bestBid: real
    var bestAsk: real
    var registry: map<string, Managed>
    var restingUsers: set<string>

    ghost predicate Valid()
      reads this, risk, matching, matching.depth
    {
      matching.Valid() && risk.markets == map[symbol := prevention]
    }

    ghost function Contents(): World
      reads this, risk, matching, clearing
    {
      World(symbol, matching.View(), clearing.Contents(), registry, risk.TrackedFor(symbol), restingUsers, bestBid, bestAsk,
            fees, prevention)
    }

    /** An exchange with its market configured. */
    constructor (symbol: string, bestBid: real, bestAsk: real, fees: FeeSchedule, prevention: bool)
      requires symbol != ""
      ensures Valid() && Contents() == Opened(symbol, bestBid, bestAsk, fees, prevention)
    {
      this.symbol, this.bestBid, this.bestAsk, this.fees, this.prevention := symbol, bestBid, bestAsk, fees, prevention;
      registry, restingUsers := map[], {};
      matching := new MatchingEngine.Engine();
      clearing := new ClearingSystem.AccountClearingSystem();
      var engine := new PreTradeRiskEngine();
      var ok := engine.ConfigureMarket(symbol, prevention);
      risk := engine;
    }

    /** None when the constructor throws. */
    static method Create(symbol: string, bestBid: real, bestAsk: real, fees: FeeSchedule, prevention: bool)
      returns (created: Option<ExchangePipeline>)
      ensures created.None? <==> symbol == ""
      ensures created.Some? ==> created.value.Valid() && created.value.Contents() == Opened(symbol, bestBid, bestAsk, fees, prevention)
    {
      if symbol == "" {
        return None;
      }
      var pipeline := new ExchangePipeline(symbol, bestBid, bestAsk, fees, prevention);
      created := Some(pipeline);
    }

    method RegisterUser(user: string, snapshot: Account)
      requires Valid()
      modifies clearing
      ensures Valid() && Contents() == Exchange.RegisterUser(old(Contents()), user, snapshot)
    {
      clearing.UpsertAccount(user, snapshot);
    }

    // ---------------------------------------------------------------- holds

    method ReserveAmount(o: Order) returns (amount: real)
      requires Valid()
      ensures amount == Exchange.ReserveAmount(Contents(), o)
    {
      if o.side.Sell? {
        return o.quantity;
      }
      var reference := o.price;
      if o.kind.Market? || reference <= 0.0 {
        var bids, asks := matching.Snapshot(1);
        reference := if asks != [] then asks[0].price else bestAsk;
      }
      amount := WithFee(reference, o.quantity, fees.taker);
    }

    method ReserveOrderHold(o: Order) returns (status: ClearingStatus)
      requires Valid()
      modifies clearing
      ensures Valid() && Done(clearing.Contents(), status) == Reserve(old(Contents()), o)
    {
      var amount := ReserveAmount(o);
      if o.side.Buy? {
        status := clearing.FreezeQuote(o.user, HoldId(o.id), amount, o.timestamp);
      } else {
        status := clearing.FreezeBase(o.user, HoldId(o.id), amount, o.timestamp);
      }
    }

    method ReleaseResidualHold(hold: string, timestamp: int) returns (status: ClearingStatus)
      modifies clearing
      ensures Done(clearing.Contents(), status) == ReleaseResidual(old(clearing.Contents()), hold, timestamp)
    {
      var amount := clearing.HoldAmount(hold);
      if amount.None? || IsZero(amount.value) {
        return Applied;
      }
      status := clearing.ReleaseHold(hold, timestamp);
    }

    // ---------------------------------------------------------------- settling

    method SettleAll(trades: seq<Trade>, timestamp: int) returns (status: WorkflowStatus, settlements: seq<SettlementResult>)
      modifies clearing
      ensures SettleRun(clearing.Contents(), status, settlements)
           == SettleTrades(old(clearing.Contents()), registry, trades, symbol, timestamp, fees)
    {
      hide Settle;
      settlements := [];
      ghost var before := clearing.Contents();
      for i := 0 to |trades|
        invariant var rest := SettleTrades(clearing.Contents(), registry, trades[i..], symbol, timestamp, fees);
          SettleTrades(before, registry, trades, symbol, timestamp, fees) == rest.(settlements := settlements + rest.settlements)
      {
        var t := trades[i];
        assert trades[i..][0] == t && trades[i..][1..] == trades[i + 1..];
        if t.maker !in registry || t.taker !in registry {
          return WorkflowStatus.InvariantViolation, settlements;
        }
        var fill := FillOf(t, registry[t.maker], registry[t.taker], symbol, timestamp);
        var settlement := clearing.SettleSpotTrade(fill, fees);
        ghost var rest := SettleTrades(clearing.Contents(), registry, trades[i + 1..], symbol, timestamp, fees);
        assert settlements + ([settlement] + rest.settlements) == settlements + [settlement] + rest.settlements;
        settlements := settlements + [settlement];
        if settlement.status != Applied && settlement.status != Duplicate {
          return SettlementRejected, settlements;
        }
      }
      assert trades[|trades|..] == [];
      status := Completed;
    }

    // ---------------------------------------------------------------- closing

    method TrackedOrderIds() returns (ids: seq<string>)
      ensures IsScan(ids, registry, symbol)
    {
      ids := [];
      var left := registry.Keys;
      while left != {}
        invariant left <= registry.Keys
        invariant forall i, j | 0 <= i < j < |ids| :: ids[i] != ids[j]
        invariant forall id :: id in ids <==> id in registry && id !in left && registry[id].symbol == symbol
        decreases left
      {
        var id :| id in left;
        if registry[id].symbol == symbol {
          ids := ids + [id];
        }
        left := left - {id};
      }
    }

    method LiveOrderIds() returns (ids: set<string>)
      requires Valid()
      ensures forall id :: id in ids <==> Rests(matching.View(), id)
    {
      var resting := matching.RestingOrders();
      ids := {};
      for i := 0 to |resting|
        invariant forall id :: id in ids <==> exists j | 0 <= j < i :: resting[j].id == id
      {
        ids := ids + {resting[i].id};
      }
      forall id ensures id in ids <==> Rests(matching.View(), id) {
        matching.LiveRests(id);
      }
    }

    method ReleaseClosedOrders(timestamp: int) returns (status: WorkflowStatus, ghost scan: seq<string>)
      requires Valid()
      modifies this`registry, clearing
      ensures Valid() && IsScan(scan, old(registry), symbol)
      ensures ReleaseRun(clearing.Contents(), registry, status)
           == ReleaseClosed(old(clearing.Contents()), old(registry), scan, matching.View(), timestamp)
    {
      hide Rests, ReleaseResidual;
      var live := LiveOrderIds();
      var tracked := TrackedOrderIds();
      scan := tracked;
      ghost var book := matching.View();
      for i := 0 to |tracked|
        invariant Valid() && matching.View() == book
        invariant ReleaseClosed(clearing.Contents(), registry, tracked[i..], book, timestamp)
               == ReleaseClosed(old(clearing.Contents()), old(registry), scan, book, timestamp)
      {
        var id := tracked[i];
        assert tracked[i..][0] == id && tracked[i..][1..] == tracked[i + 1..];
        if id !in live && id in registry {
          var released := ReleaseResidualHold(registry[id].hold, timestamp);
          if released != Applied {
            return WorkflowStatus.InvariantViolation, scan;
          }
          registry := registry - {id};
        }
      }
      assert tracked[|tracked|..] == [];
      status := Completed;
    }

    // ---------------------------------------------------------------- after the match

    method ForgetRestingUsers()
      modifies risk
      ensures risk.markets == old(risk.markets)
      ensures risk.TrackedFor(symbol) == set t | t in old(risk.TrackedFor(symbol)) && t.user !in restingUsers
    {
      var left := restingUsers;
      ghost var before := risk.TrackedFor(symbol);
      while left != {}
        invariant left <= restingUsers && risk.markets == old(risk.markets)
        invariant risk.TrackedFor(symbol) == set t | t in before && (t.user !in restingUsers || t.user in left)
        decreases left
      {
        var user :| user in left;
        risk.ClearUserRestingOrders(symbol, user);
        left := left - {user};
      }
    }

    method TrackViews(views: seq<MatchingEngine.RestingOrderView>)
      modifies this`restingUsers, risk
      ensures risk.markets == old(risk.markets)
      ensures risk.TrackedFor(symbol) == old(risk.TrackedFor(symbol)) + OwnedViews(views)
      ensures restingUsers == OwnersOf(views)
    {
      hide OwnedViews, OwnersOf;
      restingUsers := {};
      OwnedNone(views);
      ghost var kept := risk.TrackedFor(symbol);
      for i := 0 to |views|
        invariant risk.markets == old(risk.markets)
        invariant risk.TrackedFor(symbol) == kept + OwnedViews(views[..i])
        invariant restingUsers == OwnersOf(views[..i])
      {
        OwnedNext(views, i);
        if views[i].id in registry {
          var m := registry[views[i].id];
          risk.TrackRestingOrder(symbol, Tracked(m.user, m.side, views[i].price, views[i].open));
          restingUsers := restingUsers + {m.user};
        }
      }
      assert views[..|views|] == views;
    }

    method SyncRestingOrders()
      requires Valid()
      modifies this`restingUsers, risk
      ensures Valid() && Contents() == Synced(old(Contents()))
    {
      hide OwnedViews, OwnersOf;
      ForgetRestingUsers();
      var views := matching.RestingOrders();
      TrackViews(views);
      ViewsAreResters(views);
    }

    /** What is tracked for the listed orders that have an owner, and the owners. */
    ghost function OwnedViews(views: seq<MatchingEngine.RestingOrderView>): set<Tracked>
      reads this`registry
    {
      set j | 0 <= j < |views| && views[j].id in registry :: ViewAs(views[j])
    }

    ghost function OwnersOf(views: seq<MatchingEngine.RestingOrderView>): set<string>
      reads this`registry
    {
      set j | 0 <= j < |views| && views[j].id in registry :: registry[views[j].id].user
    }

    lemma OwnedNone(views: seq<MatchingEngine.RestingOrderView>)
      ensures OwnedViews(views[..0]) == {} && OwnersOf(views[..0]) == {}
    {
    }

    lemma OwnedNext(views: seq<MatchingEngine.RestingOrderView>, i: nat)
      requires i < |views|
      ensures OwnedViews(views[..i + 1]) == OwnedViews(views[..i]) + if views[i].id in registry then {ViewAs(views[i])} else {}
      ensures OwnersOf(views[..i + 1]) == OwnersOf(views[..i]) + if views[i].id in registry then {registry[views[i].id].user} else {}
    {
      var before, after := views[..i], views[..i + 1];
      assert after == before + [views[i]];
      forall j | 0 <= j < i && views[j].id in registry
        ensures ViewAs(views[j]) in OwnedViews(before) && ViewAs(views[j]) in OwnedViews(after)
        ensures registry[views[j].id].user in OwnersOf(before) && registry[views[j].id].user in OwnersOf(after)
      {
        assert before[j] == views[j] && after[j] == views[j];
      }
      if views[i].id in registry {
        assert after[i] == views[i];
      }
    }

    ghost function ViewAs(v: MatchingEngine.RestingOrderView): Tracked
      reads this`registry
      requires v.id in registry
    {
      Tracked(registry[v.id].user, registry[v.id].side, v.price, v.open)
    }

    /** The listed orders with an owner are the resters of the book. */
    lemma ViewsAreResters(views: seq<MatchingEngine.RestingOrderView>)
      requires Valid() && MatchingEngine.ListsLive(views, matching.live)
      ensures var resters := Resters(matching.View(), registry);
        && OwnedViews(views) == (set x | x in resters :: TrackedAs(x, registry[x.id]))
        && OwnersOf(views) == (set x | x in resters :: registry[x.id].user)
    {
      var resters := Resters(matching.View(), registry);
      forall j | 0 <= j < |views| && views[j].id in registry
        ensures Resting(views[j].id, views[j].price, views[j].open) in resters
      {
        matching.ViewIsLive(Resting(views[j].id, views[j].price, views[j].open));
      }
      forall x | x in resters
        ensures exists j | 0 <= j < |views| :: views[j].id == x.id && views[j].price == x.price && views[j].open == x.open
      {
        matching.ViewIsLive(x);
        var j :| 0 <= j < |views| && views[j].id == x.id;
      }
    }

    method RefreshMarketReference()
      requires Valid()
      modifies this`bestBid, this`bestAsk
      ensures Valid() && Contents() == Refreshed(old(Contents()))
    {
      var bids, asks := matching.Snapshot(1);
      if bids != [] {
        bestBid := bids[0].price;
      }
      if asks != [] {
        bestAsk := asks[0].price;
      }
    }

    method HandleRejectedMatch(o: Order, result: MatchResult) returns (report: Report)
      requires Valid()
      modifies this`registry, this`restingUsers, risk, clearing
      ensures Valid() && Step(Contents(), report) == RejectedMatch(old(Contents()), o, result)
    {
      var released := ReleaseResidualHold(HoldId(o.id), o.timestamp + 1);
      if released != Applied {
        return Report(WorkflowStatus.InvariantViolation, result.accepted, result, []);
      }
      registry := registry - {o.id};
      SyncRestingOrders();
      report := Report(MatchingRejected, result.accepted, result, []);
    }

    method FinishMatch(o: Order, result: MatchResult) returns (report: Report, ghost scan: seq<string>)
      requires Valid()
      modifies this, risk, clearing
      ensures Valid() && IsScan(scan, old(registry), symbol)
      ensures Step(Contents(), report) == AcceptedMatch(old(Contents()), o, result, scan)
    {
      hide SettleTrades, ReleaseClosed, Synced, Refreshed;
      var status, settlements := SettleAll(result.trades, o.timestamp);
      if status != Completed {
        ScanExists(registry, symbol);
        scan :| IsScan(scan, registry, symbol);
        report := Report(status, false, result, settlements);
        return;
      }
      status, scan := ReleaseClosedOrders(o.timestamp + 2);
      if status != Completed {
        report := Report(status, false, result, settlements);
        return;
      }
      SyncRestingOrders();
      RefreshMarketReference();
      report := Report(Completed, result.accepted, result, settlements);
    }

    // ---------------------------------------------------------------- the workflow

    method Submit(o: Order, otherRules: bool) returns (report: Report, ghost scan: seq<string>)
      requires Valid()
      modifies this, risk, matching, matching.depth, clearing
      ensures Valid()
      ensures IsScan(scan, old(registry)[o.id := Managed(o.user, o.symbol, o.side, HoldId(o.id))], symbol)
      ensures Step(Contents(), report) == SubmitOrder(old(Contents()), o, otherRules, scan)
    {
      hide Settle, Freeze, RejectedMatch, AcceptedMatch, OrderBook.Submit;
      ghost var managed := registry[o.id := Managed(o.user, o.symbol, o.side, HoldId(o.id))];
      ScanExists(managed, symbol);
      scan :| IsScan(scan, managed, symbol);

      var verdict := risk.Evaluate(o, otherRules);
      assert verdict.Passed? <==> Verdict(o, map[symbol := prevention], risk.TrackedFor(symbol), otherRules).Passed?;
      if !verdict.Passed? {
        report := Failed(RiskRejected);
        return;
      }
      var held := ReserveOrderHold(o);
      if held != Applied {
        report := Failed(ClearingRejected);
        return;
      }
      registry := registry[o.id := Managed(o.user, o.symbol, o.side, HoldId(o.id))];
      var result := matching.Submit(ToMatching(o));
      if !result.accepted && result.trades == [] {
        report := HandleRejectedMatch(o, result);
      } else {
        report, scan := FinishMatch(o, result);
      }
    }
  }
}
