/** Self-trade prevention of the risk engine. Its other market rules enter as one given answer. */
module RiskEngine {
  import opened Orders

  /** An order as parsed from a forwarded request. */
  datatype Order = Order(
    id: string, user: string, symbol: string, sourceIp: string, side: Side, kind: OrderType, tif: TimeInForce,
    price: real, quantity: real, timestamp: int)

  datatype Tracked = Tracked(user: string, side: Side, price: real, quantity: real)

  datatype RiskVerdict = Passed | InvalidRequest | UnknownSymbol | OtherRule | SelfTradePrevented

  predicate WellShaped(o: Order) {
    o.id != "" && o.user != "" && o.symbol != "" && o.quantity > 0.0 && o.timestamp > 0 && o.sourceIp != ""
  }

  /** The order could trade with this resting order of the same user. */
  predicate Crosses(o: Order, t: Tracked) {
    && t.user == o.user
    && t.quantity > 0.0
    && t.side != o.side
    && (o.kind.Market? || if o.side.Buy? then o.price >= t.price else o.price <= t.price)
  }

  predicate SelfTrades(o: Order, tracked: set<Tracked>) {
    exists t | t in tracked :: Crosses(o, t)
  }

  /** `markets` says for each configured symbol whether self-trades are prevented. */
  function Verdict(o: Order, markets: map<string, bool>, tracked: set<Tracked>, otherRules: bool): RiskVerdict {
    if !WellShaped(o) then InvalidRequest
    else if o.symbol !in markets then UnknownSymbol
    else if !otherRules then OtherRule
    else if markets[o.symbol] && SelfTrades(o, tracked) then SelfTradePrevented
    else Passed
  }

  /** The verdict, rule by rule: malformed, unknown market, another rule, an order of the same user that rests on the
      other side at a price the order accepts, or none of these. */
  lemma VerdictExactly(o: Order, markets: map<string, bool>, tracked: set<Tracked>, otherRules: bool)
    ensures Verdict(o, markets, tracked, otherRules) ==
            (if o.id == "" || o.user == "" || o.symbol == "" || o.quantity <= 0.0 || o.timestamp <= 0 || o.sourceIp == "" then
               InvalidRequest
             else if o.symbol !in markets then UnknownSymbol
             else if !otherRules then OtherRule
             else if markets[o.symbol]
                     && exists t | t in tracked ::
                          && t.user == o.user && t.side == Other(o.side) && t.quantity > 0.0
                          && (o.kind.Market? || if o.side.Buy? then t.price <= o.price else t.price >= o.price) then
               SelfTradePrevented
             else Passed)
  {
    assert forall t: Tracked :: t.side != o.side <==> t.side == Other(o.side);
    assert forall t | t in tracked :: Crosses(o, t) <==>
             (t.user == o.user && t.side == Other(o.side) && t.quantity > 0.0
              && (o.kind.Market? || if o.side.Buy? then t.price <= o.price else t.price >= o.price));
  }

  ghost function Elements(s: seq<Tracked>): set<Tracked> {
    set t | t in s
  }

  class PreTradeRiskEngine {
    var markets: map<string, bool>
    var resting: map<string, seq<Tracked>>

    /** The orders tracked for a symbol; how often and in what order makes no difference to any rule. */
    ghost function TrackedFor(symbol: string): set<Tracked>
      reads this
    {
      if symbol in resting then Elements(resting[symbol]) else {}
    }

    constructor ()
      ensures markets == map[] && resting == map[]
    {
      markets, resting := map[], map[];
    }

    method ConfigureMarket(symbol: string, prevention: bool) returns (ok: bool)
      modifies this`markets
      ensures ok == (symbol != "")
      ensures markets == if ok then old(markets)[symbol := prevention] else old(markets)
    {
      ok := symbol != "";
      if ok {
        markets := markets[symbol := prevention];
      }
    }

    method TrackRestingOrder(symbol: string, order: Tracked)
      modifies this`resting
      ensures TrackedFor(symbol) == old(TrackedFor(symbol)) + {order}
      ensures forall s | s != symbol :: TrackedFor(s) == old(TrackedFor(s))
    {
      if symbol !in resting {
        resting := resting[symbol := []];
      }
      resting := resting[symbol := resting[symbol] + [order]];
    }

    method ClearUserRestingOrders(symbol: string, user: string)
      modifies this`resting
      ensures TrackedFor(symbol) == set t | t in old(TrackedFor(symbol)) && t.user != user
      ensures forall s | s != symbol :: TrackedFor(s) == old(TrackedFor(s))
    {
      if symbol !in resting {
        return;
      }
      var orders, kept := resting[symbol], [];
      for i := 0 to |orders|
        invariant forall t :: t in kept <==> t in orders[..i] && t.user != user
      {
        if orders[i].user != user {
          kept := kept + [orders[i]];
        }
        assert orders[..i + 1] == orders[..i] + [orders[i]];
      }
      assert orders[..|orders|] == orders;
      resting := resting[symbol := kept];
    }

    method WouldSelfTrade(o: Order, orders: seq<Tracked>) returns (would: bool)
      ensures would <==> SelfTrades(o, Elements(orders))
    {
      for i := 0 to |orders|
        invariant forall j | 0 <= j < i :: !Crosses(o, orders[j])
      {
        if Crosses(o, orders[i]) {
          assert orders[i] in Elements(orders);
          return true;
        }
      }
      would := false;
    }

    method Evaluate(o: Order, otherRules: bool) returns (verdict: RiskVerdict)
      ensures verdict == Verdict(o, markets, TrackedFor(o.symbol), otherRules)
    {
      if !WellShaped(o) {
        return InvalidRequest;
      }
      if o.symbol !in markets {
        return UnknownSymbol;
      }
      if !otherRules {
        return OtherRule;
      }
      if markets[o.symbol] {
        var would := WouldSelfTrade(o, if o.symbol in resting then resting[o.symbol] else []);
        if would {
          return SelfTradePrevented;
        }
      }
      verdict := Passed;
    }
  }
}
