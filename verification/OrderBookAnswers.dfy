/** What every submit and cancel answers and where the order ends up, in terms of the book before and the result. */
module OrderBookAnswers {
  import opened Orders
  import opened OrderBook
  import opened OrderBookLaws

  // ---------------------------------------------------------------- where a remainder rests

  /** `after` is `before` with `o` added behind every order of the same or a better price and before every other. */
  ghost predicate JoinedAt(side: Side, before: seq<Resting>, after: seq<Resting>, o: Resting, k: nat) {
    && k <= |before|
    && after == before[..k] + [o] + before[k..]
    && (forall i | 0 <= i < k :: if side.Buy? then before[i].price >= o.price else before[i].price <= o.price)
    && (forall i | k <= i < |before| :: if side.Buy? then before[i].price < o.price else before[i].price > o.price)
  }

  lemma {:induction false} InsertJoins(side: Side, orders: seq<Resting>, o: Resting) returns (k: nat)
    requires Sorted(side, orders)
    ensures JoinedAt(side, orders, Insert(side, orders, o), o, k)
  {
    if orders == [] || Better(side, o.price, orders[0].price) {
      k := 0;
      forall i | 0 <= i < |orders|
        ensures if side.Buy? then orders[i].price < o.price else orders[i].price > o.price
      {
        assert i > 0 ==> !Better(side, orders[i].price, orders[0].price);
      }
    } else {
      var j := InsertJoins(side, orders[1..], o);
      k := j + 1;
      JoinedBehind(side, orders, Insert(side, orders[1..], o), o, j);
    }
  }

  lemma JoinedBehind(side: Side, orders: seq<Resting>, after: seq<Resting>, o: Resting, j: nat)
    requires orders != [] && !Better(side, o.price, orders[0].price) && JoinedAt(side, orders[1..], after, o, j)
    ensures JoinedAt(side, orders, [orders[0]] + after, o, j + 1)
  {
    var rest := orders[1..];
    assert orders[..j + 1] == [orders[0]] + rest[..j] && orders[j + 1..] == rest[j..];
    assert forall i | 1 <= i < |orders| :: orders[i] == rest[i - 1];
  }

  /** An accepted order rests exactly if it is a limit order, not immediate-or-cancel, with more than the tolerance
      left; then it rests with what is left, in its place. Otherwise its own side is as it was. */
  lemma {:induction false} RestsInPlace(b: Book, r: OrderRequest)
    requires BookOk(b) && Submit(b, r).result.accepted
    ensures var out := Submit(b, r);
      if r.kind.Limit? && !r.tif.Ioc? && out.result.remaining > EPSILON then
        exists k :: JoinedAt(r.side, b.Of(r.side), out.book.Of(r.side), Resting(r.id, r.price, out.result.remaining), k)
      else out.book.Of(r.side) == b.Of(r.side)
  {
    hide Fill, Reaches, Insert, DistinctIds, Uncrossed, NoSharedId, Available;
    var f := Fill(r, b.Of(Other(r.side)), r.quantity);
    assert Submit(b, r) == Execute(b, r);
    RemainingIsPart(Other(r.side), r, b.Of(Other(r.side)));
    if WillRest(r, f) {
      var o := Resting(r.id, r.price, f.remaining);
      var k := InsertJoins(r.side, b.Of(r.side), o);
      assert JoinedAt(r.side, b.Of(r.side), Submit(b, r).book.Of(r.side), o, k);
    }
  }

  // ---------------------------------------------------------------- what is answered

  /** A resting order of the other side within the tolerance of the order's limit. */
  ghost predicate InReach(b: Book, r: OrderRequest) {
    exists x | x in b.Of(Other(r.side)) :: if r.side.Buy? then x.price <= r.price + EPSILON else r.price <= x.price + EPSILON
  }

  lemma CrossingIsReach(b: Book, r: OrderRequest)
    requires BookOk(b)
    ensures WouldCross(b, r) <==> InReach(b, r)
  {
    var makers := b.Of(Other(r.side));
    if WouldCross(b, r) {
      assert makers[0] in makers;
    }
    if InReach(b, r) {
      var x :| x in makers && (if r.side.Buy? then x.price <= r.price + EPSILON else r.price <= x.price + EPSILON);
      var i :| 0 <= i < |makers| && makers[i] == x;
      assert i > 0 ==> !Better(Other(r.side), makers[i].price, makers[0].price);
    }
  }

  /** The loop would leave more than the tolerance. */
  function Lacks(b: Book, r: OrderRequest): bool {
    Fill(r, b.Of(Other(r.side)), r.quantity).remaining > EPSILON
  }

  /** Which refusal an order gets, in the order of the checks; none if it is accepted. */
  lemma {:induction false} RefusedExactly(b: Book, r: OrderRequest)
    requires BookOk(b)
    ensures var res := Submit(b, r).result;
      var malformed := r.id == "" || r.quantity <= 0.0;
      var known := !malformed && exists x | x in b.bids + b.asks :: x.id == r.id;
      var crossing := !malformed && !known && r.kind.Limit? && r.tif.Gtx? && InReach(b, r);
      var lacking := !malformed && !known && !crossing && r.tif.Fok? && Lacks(b, r);
      var idle := !malformed && !known && !lacking && r.kind.Market? && !r.tif.Ioc? && r.quantity > EPSILON
                  && b.Of(Other(r.side)) == [];
      && (res.accepted <==> !malformed && !known && !crossing && !lacking && !idle)
      && res.reason == (if malformed || lacking then InsufficientLiquidity
                        else if known then DuplicateOrderId
                        else if crossing then WouldCrossPostOnly
                        else if idle then MarketOrderWouldRest
                        else NoReason)
      && (!res.accepted ==>
            && res.status == Rejected && res.executed == 0.0 && res.remaining == r.quantity && res.trades == []
            && Submit(b, r).book == b)
  {
    hide Fill, Reaches, Available, Sorted, DistinctIds, Uncrossed, NoSharedId, WouldCross;
    KnownRests(b, r.id);
    CrossingIsReach(b, r);
    if r.id != "" && r.quantity > 0.0 && !Rests(b, r.id) {
      var makers := b.Of(Other(r.side));
      DryRunAgrees(r, makers, r.quantity);
      if r.kind.Market? && !r.tif.Fok? {
        MarketOrder(b, r);
      }
      if FinalStatus(r, Fill(r, makers, r.quantity)).Rejected? {
        NothingTraded(b, r);
        UntouchedFill(r, makers);
      }
      if makers == [] && r.kind.Market? && !r.tif.Ioc? && r.quantity > EPSILON {
        IdleIsRejected(b, r);
      }
    }
  }

  lemma KnownRests(b: Book, id: string)
    ensures Rests(b, id) <==> exists x | x in b.bids + b.asks :: x.id == id
  {
    forall i | 0 <= i < |b.bids| ensures b.bids[i] in b.bids + b.asks {}
    forall i | 0 <= i < |b.asks| ensures b.asks[i] in b.bids + b.asks {
      assert (b.bids + b.asks)[|b.bids| + i] == b.asks[i];
    }
  }

  lemma UntouchedFill(r: OrderRequest, makers: seq<Resting>)
    requires Fill(r, makers, r.quantity).trades == []
    ensures Fill(r, makers, r.quantity) == FillResult([], makers, r.quantity)
  {
  }

  lemma IdleIsRejected(b: Book, r: OrderRequest)
    requires b.Of(Other(r.side)) == [] && r.kind.Market? && !r.tif.Ioc? && r.quantity > EPSILON
    ensures FinalStatus(r, Fill(r, [], r.quantity)).Rejected?
  {
  }

  /** The status of an accepted order by what was executed and what remains. */
  lemma {:induction false} StatusExactly(b: Book, r: OrderRequest)
    requires BookOk(b) && Submit(b, r).result.accepted
    ensures var res := Submit(b, r).result;
      && 0.0 <= res.remaining <= r.quantity && res.executed == r.quantity - res.remaining
      && res.status == (if res.remaining <= EPSILON then (if res.executed > 0.0 || r.kind.Market? then Filled else Accepted)
                        else if res.executed > 0.0 then PartiallyFilled
                        else if r.tif.Ioc? then Cancelled
                        else Accepted)
  {
    hide Fill, Reaches, Insert, Available, Sorted, DistinctIds, Uncrossed, NoSharedId;
    assert Submit(b, r) == Execute(b, r);
    RemainingIsPart(Other(r.side), r, b.Of(Other(r.side)));
  }

  /** The trades of any submit: the first makers of the other side in turn, each at its own price, which is past a
      limit by no more than the tolerance; all but the last for all the maker has, and the last for all it has or
      all the order still wants. */
  lemma {:induction false} TradesExactly(b: Book, r: OrderRequest)
    requires BookOk(b)
    ensures var makers, res := b.Of(Other(r.side)), Submit(b, r).result;
      && |res.trades| <= |makers|
      && (forall i | 0 <= i < |res.trades| ::
            var t, m := res.trades[i], makers[i];
            && t.maker == m.id && t.taker == r.id && t.price == m.price && EPSILON < t.quantity <= m.open
            && (i < |res.trades| - 1 ==> t.quantity == m.open)
            && (t.quantity < m.open ==> res.remaining == 0.0)
            && (r.kind.Limit? ==> (if r.side.Buy? then m.price - r.price else r.price - m.price) <= EPSILON))
      && (res.accepted && res.remaining > EPSILON && |res.trades| < |makers| ==>
            var m := makers[|res.trades|];
            r.kind.Limit? && (if r.side.Buy? then m.price - r.price else r.price - m.price) > EPSILON)
  {
    hide Fill, Insert, Available, Sorted, DistinctIds, Uncrossed, NoSharedId;
    var makers, f := b.Of(Other(r.side)), Fill(r, b.Of(Other(r.side)), r.quantity);
    FillIsPriceTimePriority(r, makers, r.quantity);
    LastTrade(r, makers, r.quantity);
    if f.remaining > EPSILON {
      FillExhausts(r, makers, r.quantity);
      FillLeavesTail(r, makers, r.quantity);
    }
  }

  /** Only the last trade can leave the maker something, and then the taker is done. */
  lemma {:induction false} LastTrade(r: OrderRequest, makers: seq<Resting>, quantity: real)
    requires AllOpen(makers)
    ensures var f := Fill(r, makers, quantity);
      OnlyLastLeaves(f.trades, makers, f.remaining)
  {
    hide Reaches, OnlyLastLeaves;
    NoTradeLeaves(makers, quantity);
    if quantity > EPSILON && makers != [] && Reaches(r, makers[0].price) {
      var q := Min(quantity, makers[0].open);
      if makers[0].open - q <= EPSILON {
        LastTrade(r, makers[1..], quantity - q);
        FirstLeavesDust(r, makers, quantity);
        var rest := Fill(r, makers[1..], quantity - q);
        OneMoreLeaves(Trade(makers[0].id, r.id, makers[0].price, q), rest.trades, makers, rest.remaining);
      } else {
        FirstLeaves(Trade(makers[0].id, r.id, makers[0].price, q), makers);
      }
    }
  }

  ghost predicate OnlyLastLeaves(trades: seq<Trade>, makers: seq<Resting>, remaining: real) {
    && |trades| <= |makers|
    && forall i | 0 <= i < |trades| :: trades[i].quantity < makers[i].open ==> remaining == 0.0
  }

  lemma NoTradeLeaves(makers: seq<Resting>, remaining: real)
    ensures OnlyLastLeaves([], makers, remaining)
  {
  }

  lemma FirstLeaves(t: Trade, makers: seq<Resting>)
    requires makers != []
    ensures OnlyLastLeaves([t], makers, 0.0)
  {
  }

  lemma OneMoreLeaves(t: Trade, trades: seq<Trade>, makers: seq<Resting>, remaining: real)
    requires makers != [] && OnlyLastLeaves(trades, makers[1..], remaining)
    requires t.quantity < makers[0].open ==> remaining == 0.0
    ensures OnlyLastLeaves([t] + trades, makers, remaining)
  {
    var all := [t] + trades;
    forall i | 0 <= i < |all| && all[i].quantity < makers[i].open ensures remaining == 0.0 {
      if i > 0 {
        assert all[i] == trades[i - 1] && makers[i] == makers[1..][i - 1];
      }
    }
  }

  lemma FirstLeavesDust(r: OrderRequest, makers: seq<Resting>, quantity: real)
    requires quantity > EPSILON && makers != []
    ensures var q := Min(quantity, makers[0].open);
      q < makers[0].open ==> Fill(r, makers[1..], quantity - q).remaining == 0.0
  {
  }

  // ---------------------------------------------------------------- cancelling

  lemma {:induction false} WithoutKeepsPlaces(side: Side, orders: seq<Resting>, id: string, k: nat)
    requires SideOk(side, orders) && k < |orders| && orders[k].id == id
    ensures Without(orders, id) == orders[..k] + orders[k + 1..]
    ensures OpenOf(orders, id) == orders[k].open
  {
    if k == 0 {
      assert forall i | 0 <= i < |orders[1..]| :: orders[1..][i] == orders[i + 1];
      AbsentStays(orders[1..], id);
    } else {
      WithoutKeepsPlaces(side, orders[1..], id, k - 1);
      assert orders[..k] == [orders[0]] + orders[1..][..k - 1] && orders[1..][k..] == orders[k + 1..];
    }
  }

  lemma {:induction false} AbsentStays(orders: seq<Resting>, id: string)
    requires forall i | 0 <= i < |orders| :: orders[i].id != id
    ensures Without(orders, id) == orders
  {
    if orders != [] {
      AbsentStays(orders[1..], id);
    }
  }

  /** A cancel is accepted exactly if the id rests. Then it reports what that order had open, and takes out that
      order and no other; if not, nothing changes. */
  lemma {:induction false} CancelsExactly(b: Book, id: string)
    requires BookOk(b)
    ensures var out := Cancel(b, id);
      && (out.result.accepted <==> exists x | x in b.bids + b.asks :: x.id == id)
      && (out.result.accepted ==>
            && out.result.status == Cancelled && out.result.reason == NoReason
            && out.result.executed == 0.0 && out.result.trades == []
            && exists side: Side, k: nat | k < |b.Of(side)| ::
                 && b.Of(side)[k].id == id
                 && out.result.remaining == b.Of(side)[k].open
                 && out.book.Of(side) == b.Of(side)[..k] + b.Of(side)[k + 1..]
                 && out.book.Of(Other(side)) == b.Of(Other(side)))
      && (!out.result.accepted ==>
            out.book == b && out.result == MatchResult(false, Rejected, OrderNotFound, 0.0, 0.0, []))
  {
    KnownRests(b, id);
    if Rests(b, id) {
      var side := if Has(b.bids, id) then Buy else Sell;
      var k :| 0 <= k < |b.Of(side)| && b.Of(side)[k].id == id;
      WithoutKeepsPlaces(side, b.Of(side), id, k);
      OtherSideHasNot(b, side, k);
      AbsentStays(b.Of(Other(side)), id);
      assert Cancel(b, id).book.Of(side) == Without(b.Of(side), id);
    }
  }

  lemma OtherSideHasNot(b: Book, side: Side, k: nat)
    requires BookOk(b) && k < |b.Of(side)|
    ensures forall i | 0 <= i < |b.Of(Other(side))| :: b.Of(Other(side))[i].id != b.Of(side)[k].id
  {
  }

  // ---------------------------------------------------------------- distinct prices

  /** The distinct prices of a sorted side are its prices, and go strictly from better to worse. */
  lemma {:induction false} DistinctPricesExactly(side: Side, orders: seq<Resting>)
    requires Sorted(side, orders)
    ensures var ps := DistinctPrices(orders);
      && (forall p :: p in ps <==> exists x | x in orders :: x.price == p)
      && (forall i, j | 0 <= i < j < |ps| :: if side.Buy? then ps[i] > ps[j] else ps[i] < ps[j])
      && (ps == [] <==> orders == []) && (ps != [] ==> ps[0] == orders[0].price)
  {
    if orders != [] {
      var rest, ps := DistinctPrices(orders[1..]), DistinctPrices(orders);
      DistinctPricesExactly(side, orders[1..]);
      assert orders == [orders[0]] + orders[1..];
      forall p | p in ps ensures exists x | x in orders :: x.price == p {
        if p == orders[0].price {
          assert orders[0] in orders;
        } else {
          var x :| x in orders[1..] && x.price == p;
          assert x in orders;
        }
      }
      if rest != [] && rest[0] != orders[0].price {
        assert !Better(side, orders[1].price, orders[0].price);
        assert ps == [orders[0].price] + rest;
        forall j | 1 <= j < |ps| ensures if side.Buy? then ps[0] > ps[j] else ps[0] < ps[j] {
          assert ps[j] == rest[j - 1];
        }
      }
    }
  }
}
