/**
The matching engine with its price levels, its index of live orders and its published depth. Every public
operation gives the book and the result that `OrderBook` specifies, and keeps the three indices in agreement.
*/
module MatchingEngine {
  import opened Orders
  import opened OrderBook
  import OrderBookLaws
  import opened PriceMap
  import opened DepthBook
  import opened BookLevels
  import opened BookLevelsLaws

  datatype RestingOrderView = RestingOrderView(id: string, side: Side, price: real, open: real)

  // ---------------------------------------------------------------- listings in the order of ids

  /** `operator<` on strings. */
  predicate Before(a: string, b: string) {
    if b == "" then false
    else if a == "" then true
    else if a[0] != b[0] then a[0] < b[0]
    else Before(a[1..], b[1..])
  }

  /** Two strings compare at the first place where they differ; a proper prefix comes first. */
  lemma {:induction false} BeforeExactly(a: string, b: string)
    ensures Before(a, b) <==> exists k | 0 <= k < |b| && k <= |a| :: a[..k] == b[..k] && (k == |a| || a[k] < b[k])
  {
    if a != "" && b != "" && a[0] == b[0] {
      BeforeExactly(a[1..], b[1..]);
      if k :| 0 <= k < |b[1..]| && k <= |a[1..]| && a[1..][..k] == b[1..][..k] && (k == |a[1..]| || a[1..][k] < b[1..][k]) {
        assert a[..k + 1] == [a[0]] + a[1..][..k] && b[..k + 1] == [b[0]] + b[1..][..k];
      }
      if k :| 0 <= k < |b| && k <= |a| && a[..k] == b[..k] && (k == |a| || a[k] < b[k]) {
        assert k > 0;
        assert a[1..][..k - 1] == a[..k][1..] && b[1..][..k - 1] == b[..k][1..];
      }
    } else if b != "" {
      assert a[..0] == b[..0];
      forall k | 0 < k < |b| && k <= |a| ensures a[..k] != b[..k] {
        assert a[..k][0] == a[0] && b[..k][0] == b[0];
      }
    }
  }

  lemma {:induction false} BeforeIsTotal(a: string, b: string)
    ensures a == b || Before(a, b) || Before(b, a)
    ensures !(Before(a, b) && Before(b, a)) && !Before(a, a)
  {
    if a != "" && b != "" && a[0] == b[0] {
      BeforeIsTotal(a[1..], b[1..]);
      assert a == [a[0]] + a[1..] && b == [b[0]] + b[1..];
    }
    if a != "" {
      BeforeIsTotal(a[1..], a[1..]);
    }
  }

  lemma {:induction false} BeforeIsTransitive(a: string, b: string, c: string)
    requires Before(a, b) && Before(b, c)
    ensures Before(a, c)
  {
    if a != "" && a[0] == b[0] && b[0] == c[0] {
      BeforeIsTransitive(a[1..], b[1..], c[1..]);
    }
  }

  ghost predicate ById(views: seq<RestingOrderView>) {
    forall i, j | 0 <= i < j < |views| :: Before(views[i].id, views[j].id)
  }

  function InsertById(views: seq<RestingOrderView>, v: RestingOrderView): seq<RestingOrderView> {
    if views == [] || Before(v.id, views[0].id) then [v] + views
    else [views[0]] + InsertById(views[1..], v)
  }

  lemma {:induction false} InsertByIdKeeps(views: seq<RestingOrderView>, v: RestingOrderView)
    requires ById(views) && forall u | u in views :: u.id != v.id
    ensures ById(InsertById(views, v))
    ensures forall u :: u in InsertById(views, v) <==> u in views || u == v
  {
    if views != [] {
      var first := views[0];
      BeforeIsTotal(v.id, first.id);
      if Before(v.id, first.id) {
        forall u | u in views ensures Before(v.id, u.id) {
          if u != first {
            BeforeIsTransitive(v.id, first.id, u.id);
          }
        }
        FrontIsFirst(v, views);
      } else {
        InsertByIdKeeps(views[1..], v);
        FrontIsFirst(first, InsertById(views[1..], v));
      }
    }
  }

  lemma FrontIsFirst(v: RestingOrderView, views: seq<RestingOrderView>)
    requires ById(views) && forall u | u in views :: Before(v.id, u.id)
    ensures ById([v] + views)
  {
    hide Before;
    var all := [v] + views;
    forall i, j | 0 <= i < j < |all| ensures Before(all[i].id, all[j].id) {
      assert all[j] == views[j - 1];
      assert i > 0 ==> all[i] == views[i - 1];
    }
  }

  /** The live orders among `ids`, each once and in the order of ids. */
  ghost predicate Lists(views: seq<RestingOrderView>, live: Index, ids: set<string>) {
    && ById(views)
    && (forall v | v in views :: v.id in ids && v.id in live && live[v.id] == RestingOrder(v.side, v.price, v.open))
    && (forall id | id in ids :: exists v | v in views :: v.id == id)
  }

  ghost predicate ListsLive(views: seq<RestingOrderView>, live: Index) {
    Lists(views, live, live.Keys)
  }

  /** How many of `n` levels a snapshot of this depth has. */
  function CutTo(count: nat, n: nat): (cut: nat)
    ensures (count == 0 || count >= n ==> cut == n) && (0 < count < n ==> cut == count)
  {
    if 0 < count < n then count else n
  }

  class Engine {
    var bids: Ladder
    var asks: Ladder
    var live: Index
    const depth: Depth

    /** Book, index and depth agree. */
    ghost predicate Indexed()
      reads this, depth
    {
      IndexOk(Buy, bids, live, depth.bids) && IndexOk(Sell, asks, live, depth.asks)
    }

    ghost predicate Valid()
      reads this, depth
    {
      Indexed() && BookOk(View())
    }

    /** The published quantity at this price is the level's sum. */
    ghost predicate Exact(side: Side, price: real)
      reads this, depth
    {
      PublishedExactly(Levels(side), live, depth.Of(side), price)
    }

    function View(): Book
      reads this
    {
      Book(SideView(bids, live), SideView(asks, live))
    }

    function Levels(side: Side): Ladder
      reads this
    {
      if side.Buy? then bids else asks
    }

    constructor ()
      ensures Valid() && View() == EMPTY && live == map[]
      ensures fresh(depth)
    {
      bids, asks, live := [], [], map[];
      depth := new Depth();
    }

    method SetLevels(side: Side, levels: Ladder)
      modifies this`bids, this`asks
      ensures Levels(side) == levels && Levels(Other(side)) == old(Levels(Other(side)))
    {
      if side.Buy? {
        bids := levels;
      } else {
        asks := levels;
      }
    }

    /** An id is live exactly if it rests on the book. */
    lemma {:induction false} LiveRests(id: string)
      requires Indexed()
      ensures id in live <==> Rests(View(), id)
      ensures forall side :: Has(View().Of(side), id) <==> id in live && live[id].side == side
    {
      ViewHasLive(Buy, bids, live, id);
      ViewHasLive(Sell, asks, live, id);
    }

    // ---------------------------------------------------------------- queries

    method AggregateQuantity(q: Queue) returns (aggregate: real)
      requires forall id | id in q :: id in live
      ensures aggregate == SumQueue(q, live)
    {
      aggregate := 0.0;
      for i := 0 to |q|
        invariant aggregate + SumQueue(q[i..], live) == SumQueue(q, live)
      {
        aggregate := aggregate + live[q[i]].open;
        assert q[i..][1..] == q[i + 1..];
      }
    }

    method WouldCross(r: OrderRequest) returns (crosses: bool)
      requires Indexed()
      ensures crosses <==> OrderBook.WouldCross(View(), r)
    {
      if bids != [] { FirstOfLadder(Buy, bids, live); }
      if asks != [] { FirstOfLadder(Sell, asks, live); }
      if r.side.Buy? {
        crosses := asks != [] && r.price + EPSILON >= asks[0].price;
      } else {
        crosses := bids != [] && r.price <= bids[0].price + EPSILON;
      }
    }

    /** The dry run of a fill-or-kill order: it stops at the first maker that would complete it. */
    method CanFillFully(r: OrderRequest) returns (can: bool)
      requires Indexed()
      ensures can <==> CanFill(View(), r)
    {
      hide LevelsOk, PublishedOk, Reaches, Available, QueueView, SideView;
      var side := Other(r.side);
      var levels := Levels(side);
      var remaining := r.quantity;
      AvailableUpTo(r, side, levels, live, 0);
      assert levels[0..] == levels;
      for i := 0 to |levels|
        invariant remaining - Available(r, SideView(levels[i..], live)) == r.quantity - Available(r, SideView(levels, live))
        invariant i > 0 ==> remaining > EPSILON
      {
        if !Reaches(r, levels[i].price) {
          OutOfReach(r, side, levels, live, i);
          return remaining <= EPSILON;
        }
        var queue := levels[i].value;
        LevelStarts(levels, live, i);
        for j := 0 to |queue|
          invariant remaining - Available(r, From(levels, live, i, j)) == r.quantity - Available(r, SideView(levels, live))
          invariant i > 0 || j > 0 ==> remaining > EPSILON
        {
          NextMaker(r, side, levels, live, i, j);
          remaining := remaining - live[queue[j]].open;
          if remaining <= EPSILON {
            return true;
          }
        }
        LevelEnds(side, levels, live, i);
      }
      LastLevel(r, levels, live);
      can := remaining <= EPSILON;
    }

    /** Every live order, as `std::sort` by id leaves them. */
    method RestingOrders() returns (views: seq<RestingOrderView>)
      ensures ListsLive(views, live)
    {
      hide ById, Before;
      views := [];
      var ids := live.Keys;
      NothingById();
      while ids != {}
        invariant ids <= live.Keys
        invariant Lists(views, live, live.Keys - ids)
        decreases ids
      {
        var id :| id in ids;
        var order := live[id];
        var view := RestingOrderView(id, order.side, order.price, order.open);
        ListsOneMore(views, live, live.Keys - ids, view);
        views := InsertById(views, view);
        ids := ids - {id};
        assert live.Keys - ids == (live.Keys - (ids + {id})) + {id};
      }
      assert live.Keys - {} == live.Keys;
    }

    /** The published levels of both sides, up to `count` of them or all for a count of zero: the k-th level is at
        the k-th distinct price of the side. */
    method Snapshot(count: nat) returns (bidLevels: seq<Entry<real>>, askLevels: seq<Entry<real>>)
      requires Indexed()
      ensures bidLevels <= depth.bids && askLevels <= depth.asks
      ensures |bidLevels| == CutTo(count, |DistinctPrices(View().bids)|)
      ensures |askLevels| == CutTo(count, |DistinctPrices(View().asks)|)
      ensures forall k | 0 <= k < |bidLevels| :: bidLevels[k].price == DistinctPrices(View().bids)[k]
      ensures forall k | 0 <= k < |askLevels| :: askLevels[k].price == DistinctPrices(View().asks)[k]
      ensures (bidLevels == [] <==> View().bids == []) && (bidLevels != [] ==> bidLevels[0].price == View().bids[0].price)
      ensures (askLevels == [] <==> View().asks == []) && (askLevels != [] ==> askLevels[0].price == View().asks[0].price)
    {
      hide SideView, DistinctPrices, Top;
      bidLevels := depth.AppendLevels(Buy, count);
      askLevels := depth.AppendLevels(Sell, count);
      DepthPrices(Buy);
      DepthPrices(Sell);
      FirstDistinct(View().bids);
      FirstDistinct(View().asks);
    }

    /** The depth has one level for each distinct price. */
    lemma DepthPrices(side: Side)
      requires Indexed()
      ensures |depth.Of(side)| == |DistinctPrices(View().Of(side))|
      ensures forall k | 0 <= k < |depth.Of(side)| :: depth.Of(side)[k].price == DistinctPrices(View().Of(side))[k]
    {
      SamePrices(side, Levels(side), depth.Of(side));
      LevelsArePriced(side, Levels(side), live);
      LevelPrices(side, Levels(side), live);
    }

    /** The orders of the view are the live orders. */
    lemma ViewIsLive(x: Resting)
      requires Indexed()
      ensures x in View().bids || x in View().asks <==> x.id in live && x == OrderView(live, x.id)
    {
      LiveRests(x.id);
      ViewIsOrders(bids, live);
      ViewIsOrders(asks, live);
      if x.id in live && x == OrderView(live, x.id) {
        var side := live[x.id].side;
        var i :| 0 <= i < |View().Of(side)| && View().Of(side)[i].id == x.id;
        assert View().Of(side)[i] in View().Of(side);
      }
    }

    // ---------------------------------------------------------------- editing the book

    method AddRestingOrder(r: OrderRequest, remaining: real)
      requires Indexed() && r.id !in live && remaining > EPSILON
      modifies this, depth
      ensures Indexed()
      ensures View() == old(View()).With(r.side, Insert(r.side, old(View()).Of(r.side), Resting(r.id, r.price, remaining)))
      ensures live == old(live)[r.id := RestingOrder(r.side, r.price, remaining)]
      ensures forall p :: old(Exact(Other(r.side), p)) ==> Exact(Other(r.side), p)
    {
      hide IndexOk, SideView, PublishedExactly, Insert, Enqueue, Applied;
      AddKeeps(r.side, Levels(r.side), live, depth.Of(r.side), r.price, r.id, remaining);
      var live' := live[r.id := RestingOrder(r.side, r.price, remaining)];
      OtherSideFrame(Other(r.side), Levels(Other(r.side)), live, live', depth.Of(Other(r.side)));
      live := live';
      SetLevels(r.side, Enqueue(r.side, Levels(r.side), r.price, r.id));
      depth.Update(r.side, r.price, remaining);
    }

    /** Takes an order off its level, the index and the depth. `open` is what it had open when the indices
        last agreed; the match loop has already reduced it. */
    method RemoveRestingOrder(id: string, ghost open: real)
      requires id in live
      requires var before := live[id := live[id].(open := open)];
        IndexOk(Buy, bids, before, depth.bids) && IndexOk(Sell, asks, before, depth.asks)
      modifies this, depth
      ensures Indexed()
      ensures var side, before := old(live[id].side), old(live)[id := old(live[id]).(open := open)];
        && View().Of(side) == Without(SideView(old(Levels(side)), before), id)
        && View().Of(Other(side)) == SideView(old(Levels(Other(side))), before)
      ensures live == old(live) - {id}
      ensures var side, before := old(live[id].side), old(live)[id := old(live[id]).(open := open)];
        StaysExact(old(Levels(side)), before, old(depth.Of(side)), Levels(side), live, depth.Of(side), old(live[id].price))
    {
      var order := live[id];
      var side := order.side;
      ghost var before := live[id := order.(open := open)];
      assert before - {id} == live - {id};
      RemoveKeeps(side, Levels(side), before, depth.Of(side), id);
      OtherSideFrame(Other(side), Levels(Other(side)), before, live - {id}, depth.Of(Other(side)));
      DequeueIs(side, Levels(side), before, id);
      assert QueueOk(side, order.price, AsMap(Levels(side))[order.price], before);

      var queue := RemoveFirst(Get(Levels(side), order.price, []), id);
      var aggregate := AggregateQuantity(queue);
      QueueFrame(queue, before, live);
      depth.Update(side, order.price, aggregate);
      SetLevels(side, Dequeue(side, Levels(side), order.price, id));
      live := live - {id};
    }

    // ---------------------------------------------------------------- matching

    /** `match_against_asks` for a buy and `match_against_bids` for a sell, which mirror each other. */
    method MatchAgainst(r: OrderRequest) returns (trades: seq<Trade>, remaining: real)
      requires Indexed() && r.id !in live
      modifies this, depth
      ensures Indexed() && r.id !in live
      ensures Fill(r, old(View()).Of(Other(r.side)), r.quantity) == FillResult(trades, View().Of(Other(r.side)), remaining)
      ensures View().Of(r.side) == old(View()).Of(r.side)
      ensures forall t | t in trades :: Exact(Other(r.side), t.price)
      ensures trades == [] ==> unchanged(this) && unchanged(depth)
    {
      hide Fill, IndexOk, SideView, AfterTrade, PublishedExactly;
      var side := Other(r.side);
      trades, remaining := [], r.quantity;
      ghost var makers, own := View().Of(side), View().Of(r.side);
      AfterNone(Fill(r, makers, r.quantity));
      FirstMaker(side);
      while remaining > EPSILON && Levels(side) != []
        invariant Indexed() && r.id !in live
        invariant View().Of(r.side) == own
        invariant Fill(r, makers, r.quantity) == After(trades, Fill(r, View().Of(side), remaining))
        invariant Levels(side) == [] <==> View().Of(side) == []
        invariant Levels(side) != [] ==> Levels(side)[0].price == View().Of(side)[0].price
        invariant forall t | t in trades :: Exact(side, t.price)
        invariant trades == [] ==> unchanged(this) && unchanged(depth)
        decreases |View().Of(side)|, if remaining > EPSILON then 1 else 0
      {
        if !Reaches(r, Levels(side)[0].price) {
          break;
        }
        FillOneTrade(r, View().Of(side), remaining);
        var trade;
        trade, remaining := TradeWithBest(r, remaining);
        AfterTwice(trades, [trade], Fill(r, View().Of(side), remaining));
        trades := trades + [trade];
        FirstMaker(side);
      }
      FillNothing(r, View().Of(side), remaining);
      assert trades + [] == trades;
    }

    lemma FirstMaker(side: Side)
      requires Indexed()
      ensures Levels(side) == [] <==> View().Of(side) == []
      ensures Levels(side) != [] ==> Levels(side)[0].price == View().Of(side)[0].price
    {
      if Levels(side) != [] {
        FirstOfLadder(side, Levels(side), live);
      }
    }

    /** The body of the match loop: one trade with the first maker, who is then removed or published with
        what is left. The level traded at is published exactly. */
    method TradeWithBest(r: OrderRequest, remaining: real) returns (trade: Trade, left: real)
      requires Indexed() && r.id !in live && remaining > EPSILON
      requires Levels(Other(r.side)) != []
      modifies this, depth
      ensures Indexed() && r.id !in live
      ensures View().Of(r.side) == old(View()).Of(r.side)
      ensures old(View()).Of(Other(r.side)) != []
      ensures var makers := old(View()).Of(Other(r.side));
        var q := Min(remaining, makers[0].open);
        && trade == Trade(makers[0].id, r.id, makers[0].price, q)
        && left == remaining - q
        && View().Of(Other(r.side)) == AfterTrade(makers, q)
        && Exact(Other(r.side), makers[0].price)
      ensures forall p :: old(Exact(Other(r.side), p)) ==> Exact(Other(r.side), p)
    {
      hide IndexOk, SideView, PublishedExactly, SumQueue;
      var side := Other(r.side);
      var best := Levels(side)[0];
      BestMaker(side);
      var id := best.value[0];
      var maker := live[id];
      var quantity := Min(remaining, maker.open);
      ghost var before := live;
      live := live[id := maker.(open := maker.open - quantity)];
      left := remaining - quantity;
      trade := Trade(id, r.id, maker.price, quantity);
      assert live[id := maker] == before;
      OwnSideStays(r.side, id, maker);
      hide AfterTrade, StaysExact;
      ghost var makers := old(View()).Of(side);
      if live[id].open <= EPSILON {
        AfterLast(makers, quantity);
        RemoveRestingOrder(id, maker.open);
      } else {
        AfterPart(makers, quantity);
        PublishBest(side, id, maker);
      }
      ExactAfter(side, old(Levels(side)), before, old(depth.Of(side)), maker.price);
    }

    lemma ExactAfter(side: Side, ladder: Ladder, before: Index, published: seq<Entry<real>>, price: real)
      requires StaysExact(ladder, before, published, Levels(side), live, depth.Of(side), price)
      ensures Exact(side, price)
      ensures forall p :: PublishedExactly(ladder, before, published, p) ==> Exact(side, p)
    {
    }

    /** What the first maker's level publishes after a partial fill. */
    method PublishBest(side: Side, id: string, ghost maker: RestingOrder)
      requires Levels(side) != [] && Levels(side)[0].value != [] && id == Levels(side)[0].value[0]
      requires id in live && live[id] == maker.(open := live[id].open) && live[id].open > EPSILON && maker.side == side
      requires IndexOk(side, Levels(side), live[id := maker], depth.Of(side))
      modifies depth
      ensures IndexOk(side, Levels(side), live, depth.Of(side)) && depth.Of(Other(side)) == old(depth.Of(Other(side)))
      ensures var v := SideView(Levels(side), live[id := maker]);
        v != [] && SideView(Levels(side), live) == [v[0].(open := live[id].open)] + v[1..]
      ensures StaysExact(Levels(side), live[id := maker], old(depth.Of(side)), Levels(side), live, depth.Of(side), maker.price)
    {
      ghost var before := live[id := maker];
      assert before[id := before[id].(open := live[id].open)] == live;
      ReopenKeeps(side, Levels(side), before, depth.Of(side), live[id].open);
      FirstOfLadder(side, Levels(side), before);
      var aggregate := AggregateQuantity(Levels(side)[0].value);
      depth.Update(side, live[id].price, aggregate);
    }

    lemma BestMaker(side: Side)
      requires Indexed() && Levels(side) != []
      ensures var q, view := Levels(side)[0].value, View().Of(side);
        && q != [] && q[0] in live && live[q[0]].side == side && live[q[0]].price == Levels(side)[0].price
        && view != [] && view[0] == Resting(q[0], live[q[0]].price, live[q[0]].open)
        && Without(view, q[0]) == view[1..]
    {
      FirstOfLadder(side, Levels(side), live);
      RemoveFirstMaker(side, Levels(side), live);
    }

    // ---------------------------------------------------------------- results

    method FinalizeLimit(r: OrderRequest, f: FillResult) returns (result: MatchResult)
      requires Indexed() && r.id !in live && r.kind.Limit? && 0.0 <= f.remaining <= r.quantity
      modifies this, depth
      ensures Indexed()
      ensures Outcome(View(), result) == Finalize(old(View()), r, f)
      ensures live == if !r.tif.Ioc? && f.remaining > EPSILON then old(live)[r.id := RestingOrder(r.side, r.price, f.remaining)]
                      else old(live)
      ensures forall p :: old(Exact(Other(r.side), p)) ==> Exact(Other(r.side), p)
    {
      hide IndexOk;
      var executed := r.quantity - f.remaining;
      result := MatchResult(true, Accepted, NoReason, executed, f.remaining, f.trades);
      if IsZero(f.remaining) {
        result := result.(status := if executed > 0.0 then Filled else Accepted);
        return;
      }
      if r.tif.Ioc? {
        result := result.(status := if executed > 0.0 then PartiallyFilled else Cancelled);
        return;
      }
      AddRestingOrder(r, f.remaining);
      result := result.(status := if executed > 0.0 then PartiallyFilled else Accepted);
    }

    method FinalizeMarket(r: OrderRequest, f: FillResult) returns (result: MatchResult)
      requires r.kind.Market?
      ensures Outcome(View(), result) == Finalize(View(), r, f)
    {
      var executed := r.quantity - f.remaining;
      result := MatchResult(true, Accepted, NoReason, executed, f.remaining, f.trades);
      if IsZero(f.remaining) {
        return result.(status := Filled);
      }
      if r.tif.Ioc? || executed > 0.0 {
        return result.(status := if executed > 0.0 then PartiallyFilled else Cancelled);
      }
      result := result.(accepted := false, status := Rejected, reason := MarketOrderWouldRest);
    }

    method Rejection(reason: RejectReason, remaining: real) returns (result: MatchResult)
      ensures Outcome(View(), result) == Reject(View(), reason, remaining)
    {
      result := MatchResult(false, Rejected, reason, 0.0, remaining, []);
    }

    method HandleLimit(r: OrderRequest) returns (result: MatchResult)
      requires Valid() && r.id !in live && r.id != "" && r.quantity > 0.0 && r.kind.Limit?
      modifies this, depth
      ensures Indexed()
      ensures Outcome(View(), result) == OrderBook.Submit(old(View()), r)
      ensures r.id in live <==> result.accepted && !r.tif.Ioc? && result.remaining > EPSILON
      ensures r.id in live ==> live[r.id] == RestingOrder(r.side, r.price, result.remaining)
      ensures forall t | t in result.trades :: Exact(Other(r.side), t.price)
      ensures !result.accepted ==> unchanged(this) && unchanged(depth)
    {
      hide IndexOk, Fill, Available, BookOk, SideView, PublishedExactly;
      LiveRests(r.id);
      if r.tif.Gtx? {
        var crosses := WouldCross(r);
        if crosses {
          result := Rejection(WouldCrossPostOnly, r.quantity);
          return;
        }
      }
      if r.tif.Fok? {
        var can := CanFillFully(r);
        if !can {
          result := Rejection(InsufficientLiquidity, r.quantity);
          return;
        }
      }
      FillBounds(r, View());
      ghost var before := View();
      var trades, remaining := MatchAgainst(r);
      assert View() == before.With(Other(r.side), View().Of(Other(r.side)));
      result := FinalizeLimit(r, FillResult(trades, [], remaining));
    }

    method HandleMarket(r: OrderRequest) returns (result: MatchResult)
      requires Valid() && r.id !in live && r.id != "" && r.quantity > 0.0 && r.kind.Market?
      modifies this, depth
      ensures Indexed()
      ensures Outcome(View(), result) == OrderBook.Submit(old(View()), r)
      ensures r.id !in live
      ensures forall t | t in result.trades :: Exact(Other(r.side), t.price)
      ensures !result.accepted ==> unchanged(this) && unchanged(depth)
    {
      hide IndexOk, Fill, Available, BookOk, SideView, PublishedExactly;
      LiveRests(r.id);
      if r.tif.Fok? {
        var can := CanFillFully(r);
        if !can {
          result := Rejection(InsufficientLiquidity, r.quantity);
          return;
        }
      }
      ghost var before := View();
      var trades, remaining := MatchAgainst(r);
      assert View() == before.With(Other(r.side), View().Of(Other(r.side)));
      result := FinalizeMarket(r, FillResult(trades, [], remaining));
      RejectedMarket(before, r);
    }

    /** The engine does to its levels, index and depth what the specification does to the book. A level traded
        at publishes its sum; a rejected order of any kind leaves levels, index and depth untouched. */
    method Submit(r: OrderRequest) returns (result: MatchResult)
      requires Valid()
      modifies this, depth
      ensures Valid()
      ensures Outcome(View(), result) == OrderBook.Submit(old(View()), r)
      ensures r.id !in old(live) ==>
        (r.id in live <==> result.accepted && r.kind.Limit? && !r.tif.Ioc? && result.remaining > EPSILON)
      ensures r.id !in old(live) && r.id in live ==> live[r.id] == RestingOrder(r.side, r.price, result.remaining)
      ensures forall t | t in result.trades :: Exact(Other(r.side), t.price)
      ensures !result.accepted ==> unchanged(this) && unchanged(depth)
    {
      hide IndexOk, BookOk, SideView, PublishedExactly;
      OrderBookLaws.SubmitKeeps(View(), r);
      LiveRests(r.id);
      if r.id == "" || r.quantity <= 0.0 {
        result := Rejection(InsufficientLiquidity, r.quantity);
      } else if r.id in live {
        result := Rejection(DuplicateOrderId, r.quantity);
      } else if r.kind.Limit? {
        result := HandleLimit(r);
      } else {
        result := HandleMarket(r);
      }
    }

    method Cancel(id: string) returns (result: MatchResult)
      requires Valid()
      modifies this, depth
      ensures Valid()
      ensures Outcome(View(), result) == OrderBook.Cancel(old(View()), id)
      ensures result.accepted <==> id in old(live)
      ensures id in old(live) ==> live == old(live) - {id} && result.remaining == old(live[id]).open
      ensures id in old(live) ==>
        var order := old(live[id]);
        Exact(order.side, order.price) && forall p :: old(Exact(order.side, p)) ==> Exact(order.side, p)
      ensures !result.accepted ==> unchanged(this) && unchanged(depth)
    {
      hide IndexOk, BookOk, SideView, Without, PublishedExactly;
      OrderBookLaws.CancelKeeps(View(), id);
      LiveRests(id);
      if id !in live {
        result := Rejection(OrderNotFound, 0.0);
        return;
      }
      var order := live[id];
      assert live[id := order.(open := order.open)] == live;
      OpenIsLive(id);
      WithoutAbsent(View().Of(Other(order.side)), id);
      RemoveRestingOrder(id, order.open);
      result := MatchResult(true, Cancelled, NoReason, 0.0, order.open, []);
    }

    lemma OpenIsLive(id: string)
      requires Valid() && id in live
      ensures OpenOf(View().Of(live[id].side), id) == live[id].open
    {
      ViewIsOrders(Levels(live[id].side), live);
      LiveRests(id);
      OpenIsFirst(View().Of(live[id].side), id);
    }

    /** Writing through a maker does not disturb the taker's own side. */
    lemma OwnSideStays(side: Side, id: string, maker: RestingOrder)
      requires id in live && live[id].side == Other(side) && maker.side == Other(side)
      requires IndexOk(side, Levels(side), live[id := maker], depth.Of(side))
      ensures IndexOk(side, Levels(side), live, depth.Of(side))
      ensures SideView(Levels(side), live) == SideView(Levels(side), live[id := maker])
    {
      OtherSideFrame(side, Levels(side), live[id := maker], live, depth.Of(side));
    }
  }

  lemma NothingById()
    ensures ById([])
  {
  }

  lemma ListsOneMore(views: seq<RestingOrderView>, live: Index, ids: set<string>, v: RestingOrderView)
    requires Lists(views, live, ids) && v.id !in ids
    requires v.id in live && live[v.id] == RestingOrder(v.side, v.price, v.open)
    ensures Lists(InsertById(views, v), live, ids + {v.id})
  {
    hide ById, Before, InsertById;
    InsertByIdKeeps(views, v);
    var all := InsertById(views, v);
    forall id | id in ids + {v.id} ensures exists u | u in all :: u.id == id {
      if id in ids {
        var u :| u in views && u.id == id;
        assert u in all;
      } else {
        assert v in all;
      }
    }
  }

  // ---------------------------------------------------------------- trades so far, then the rest

  function After(trades: seq<Trade>, rest: FillResult): FillResult {
    FillResult(trades + rest.trades, rest.left, rest.remaining)
  }

  lemma AfterTwice(a: seq<Trade>, b: seq<Trade>, rest: FillResult)
    ensures After(a, After(b, rest)) == After(a + b, rest)
  {
    assert a + (b + rest.trades) == (a + b) + rest.trades;
  }

  lemma AfterNone(rest: FillResult)
    ensures After([], rest) == rest
  {
    assert [] + rest.trades == rest.trades;
  }

  lemma FillNothing(r: OrderRequest, makers: seq<Resting>, quantity: real)
    requires quantity <= EPSILON || makers == [] || !Reaches(r, makers[0].price)
    ensures Fill(r, makers, quantity) == FillResult([], makers, quantity)
  {
  }

  lemma AfterLast(makers: seq<Resting>, q: real)
    requires makers != [] && makers[0].open - q <= EPSILON
    ensures AfterTrade(makers, q) == makers[1..]
  {
  }

  lemma AfterPart(makers: seq<Resting>, q: real)
    requires makers != [] && makers[0].open - q > EPSILON
    ensures AfterTrade(makers, q) == [makers[0].(open := makers[0].open - q)] + makers[1..]
  {
  }

  /** A market order is only rejected after the match if it traded nothing. */
  lemma RejectedMarket(b: Book, r: OrderRequest)
    requires BookOk(b) && r.kind.Market?
    ensures var f := Fill(r, b.Of(Other(r.side)), r.quantity); FinalStatus(r, f).Rejected? ==> f.trades == []
  {
    hide Fill;
    if FinalStatus(r, Fill(r, b.Of(Other(r.side)), r.quantity)).Rejected? {
      OrderBookLaws.NothingTraded(b, r);
    }
  }

  lemma FillBounds(r: OrderRequest, b: Book)
    requires BookOk(b) && r.quantity > 0.0
    ensures 0.0 <= Fill(r, b.Of(Other(r.side)), r.quantity).remaining <= r.quantity
  {
    FillConserves(r, b.Of(Other(r.side)), r.quantity);
  }

  /** Every order of a view is the live order of that id. */
  lemma {:induction false} ViewIsOrders(levels: Ladder, live: Index)
    ensures forall x | x in SideView(levels, live) :: x == OrderView(live, x.id)
  {
    if levels != [] {
      ViewIsOrders(levels[1..], live);
      var q := levels[0].value;
      forall x | x in QueueView(q, live) ensures x == OrderView(live, x.id) {
        var i :| 0 <= i < |QueueView(q, live)| && QueueView(q, live)[i] == x;
        QueueViewAt(q, live, 0);
        QueueViewAt(q, live, i);
      }
    }
  }

  lemma {:induction false} OpenIsFirst(orders: seq<Resting>, id: string)
    requires Has(orders, id)
    ensures exists x | x in orders :: x.id == id && x.open == OpenOf(orders, id)
  {
    if orders[0].id == id {
      assert orders[0] in orders;
    } else {
      var i :| 0 <= i < |orders| && orders[i].id == id;
      assert orders[1..][i - 1].id == id;
      OpenIsFirst(orders[1..], id);
    }
  }

  // ---------------------------------------------------------------- what the dry run adds up

  /** The orders from place `j` of level `i` on. */
  ghost function From(levels: Ladder, live: Index, i: nat, j: nat): seq<Resting>
    requires i < |levels| && j <= |levels[i].value|
  {
    QueueView(levels[i].value[j..], live) + SideView(levels[i + 1..], live)
  }

  lemma LevelStarts(levels: Ladder, live: Index, i: nat)
    requires i < |levels|
    ensures From(levels, live, i, 0) == SideView(levels[i..], live)
  {
    assert levels[i..][1..] == levels[i + 1..] && levels[i].value[0..] == levels[i].value;
  }

  lemma LevelEnds(side: Side, levels: Ladder, live: Index, i: nat)
    requires LevelsOk(side, levels, live) && i < |levels|
    ensures levels[i].value != []
    ensures From(levels, live, i, |levels[i].value|) == SideView(levels[i + 1..], live)
  {
    EntryIsLookup(side, levels, i);
    assert QueueOk(side, levels[i].price, levels[i].value, live);
  }

  lemma LastLevel(r: OrderRequest, levels: Ladder, live: Index)
    ensures Available(r, SideView(levels[|levels|..], live)) == 0.0
  {
  }

  lemma NextMaker(r: OrderRequest, side: Side, levels: Ladder, live: Index, i: nat, j: nat)
    requires LevelsOk(side, levels, live) && i < |levels| && j < |levels[i].value| && Reaches(r, levels[i].price)
    ensures var id := levels[i].value[j];
      && id in live
      && Available(r, From(levels, live, i, j)) == live[id].open + Available(r, From(levels, live, i, j + 1))
      && Available(r, From(levels, live, i, j + 1)) >= 0.0
  {
    hide Reaches;
    var queue, rest := levels[i].value, SideView(levels[i + 1..], live);
    EntryIsLookup(side, levels, i);
    assert QueueOk(side, levels[i].price, queue, live);
    AvailableNext(r, queue, live, j, rest);
    AvailableUpTo(r, side, levels, live, i + 1);
    AvailableInQueue(r, levels[i].price, queue, live, j + 1, rest);
  }

  lemma AvailableNext(r: OrderRequest, q: Queue, live: Index, j: nat, rest: seq<Resting>)
    requires j < |q| && q[j] in live && Reaches(r, live[q[j]].price)
    ensures Available(r, QueueView(q[j..], live) + rest)
         == live[q[j]].open + Available(r, QueueView(q[j + 1..], live) + rest)
  {
    var v := QueueView(q[j..], live) + rest;
    assert q[j..][1..] == q[j + 1..];
    assert v[0] == OrderView(live, q[j]);
    assert v[1..] == QueueView(q[j + 1..], live) + rest;
  }

  lemma {:induction false} AvailableInQueue(r: OrderRequest, price: real, q: Queue, live: Index, j: nat, rest: seq<Resting>)
    requires j <= |q| && Reaches(r, price)
    requires forall id | id in q :: id in live && live[id].price == price && live[id].open > EPSILON
    requires Available(r, rest) >= 0.0
    ensures Available(r, QueueView(q[j..], live) + rest) >= 0.0
    decreases |q| - j
  {
    if j == |q| {
      assert QueueView(q[j..], live) + rest == rest;
    } else {
      AvailableInQueue(r, price, q, live, j + 1, rest);
      AvailableNext(r, q, live, j, rest);
    }
  }

  lemma {:induction false} AvailableUpTo(r: OrderRequest, side: Side, levels: Ladder, live: Index, i: nat)
    requires LevelsOk(side, levels, live) && i <= |levels|
    ensures Available(r, SideView(levels[i..], live)) >= 0.0
    decreases |levels| - i
  {
    if i < |levels| {
      EntryIsLookup(side, levels, i);
      assert QueueOk(side, levels[i].price, levels[i].value, live);
      AvailableUpTo(r, side, levels, live, i + 1);
      var q := levels[i].value;
      assert levels[i..][1..] == levels[i + 1..];
      assert q[0..] == q;
      if Reaches(r, levels[i].price) {
        AvailableInQueue(r, levels[i].price, q, live, 0, SideView(levels[i + 1..], live));
      } else {
        OutOfReach(r, side, levels, live, i);
      }
    }
  }

  lemma OutOfReach(r: OrderRequest, side: Side, levels: Ladder, live: Index, i: nat)
    requires LevelsOk(side, levels, live) && i < |levels| && !Reaches(r, levels[i].price)
    ensures Available(r, SideView(levels[i..], live)) == 0.0
  {
    EntryIsLookup(side, levels, i);
    assert QueueOk(side, levels[i].price, levels[i].value, live);
    assert SideView(levels[i..], live)[0] == OrderView(live, levels[i].value[0]);
  }
}
