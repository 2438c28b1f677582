/** What every submit and cancel keeps, and what the order types promise. */
module OrderBookLaws {
  import opened Orders
  import opened OrderBook

  // ---------------------------------------------------------------- the pieces of an operation

  /** An order in front of a side, at no worse a price. */
  lemma ConsOk(side: Side, x: Resting, orders: seq<Resting>)
    requires SideOk(side, orders) && x.open > EPSILON
    requires forall y | y in orders :: !Better(side, y.price, x.price) && y.id != x.id
    ensures SideOk(side, [x] + orders)
  {
    var all := [x] + orders;
    forall i, j | 0 <= i < j < |all| ensures !Better(side, all[j].price, all[i].price) && all[i].id != all[j].id {
      assert all[j] == orders[j - 1] && all[j] in orders;
      if i > 0 {
        assert all[i] == orders[i - 1];
      }
    }
  }

  lemma FirstIsBest(side: Side, orders: seq<Resting>)
    requires SideOk(side, orders) && orders != []
    ensures orders[0].open > EPSILON
    ensures forall y | y in orders[1..] :: !Better(side, y.price, orders[0].price) && y.id != orders[0].id
    ensures forall y | y in orders :: !Better(side, y.price, orders[0].price)
    ensures SideOk(side, orders[1..])
  {
    forall i | 1 <= i < |orders|
      ensures !Better(side, orders[i].price, orders[0].price) && orders[i].id != orders[0].id
    {
    }
    TailOk(side, orders, 1);
  }

  lemma {:induction false} InsertKeeps(side: Side, orders: seq<Resting>, o: Resting)
    requires SideOk(side, orders) && o.open > EPSILON && !Has(orders, o.id)
    ensures SideOk(side, Insert(side, orders, o))
    ensures forall x :: x in Insert(side, orders, o) <==> x in orders || x == o
  {
    hide SideOk;
    NotIn(orders, o.id);
    if orders == [] {
      NothingOk(side);
      ConsOk(side, o, orders);
    } else {
      FirstIsBest(side, orders);
      if Better(side, o.price, orders[0].price) {
        ConsOk(side, o, orders);
      } else {
        NotInTail(orders, o.id);
        InsertKeeps(side, orders[1..], o);
        ConsOk(side, orders[0], Insert(side, orders[1..], o));
      }
    }
  }

  lemma NothingOk(side: Side)
    ensures SideOk(side, [])
  {
  }

  lemma NotIn(orders: seq<Resting>, id: string)
    requires !Has(orders, id)
    ensures forall x | x in orders :: x.id != id
  {
  }

  lemma NotInTail(orders: seq<Resting>, id: string)
    requires !Has(orders, id) && orders != []
    ensures !Has(orders[1..], id)
  {
    assert forall i | 0 <= i < |orders[1..]| :: orders[1..][i] == orders[i + 1];
  }

  lemma {:induction false} WithoutKeeps(side: Side, orders: seq<Resting>, id: string)
    requires SideOk(side, orders)
    ensures SideOk(side, Without(orders, id)) && !Has(Without(orders, id), id)
    ensures forall x :: x in Without(orders, id) <==> x in orders && x.id != id
  {
    hide SideOk;
    if orders == [] {
      NothingOk(side);
    } else {
      FirstIsBest(side, orders);
      WithoutKeeps(side, orders[1..], id);
      if orders[0].id != id {
        ConsOk(side, orders[0], Without(orders[1..], id));
      }
    }
    assert forall i | 0 <= i < |Without(orders, id)| :: Without(orders, id)[i] in Without(orders, id);
  }

  /** What a match leaves is a suffix of the makers, of which the first may have traded in part. */
  lemma FillLeavesSuffix(r: OrderRequest, makers: seq<Resting>, quantity: real) returns (n: nat, open: real)
    requires AllOpen(makers)
    ensures var left := Fill(r, makers, quantity).left;
      || (n <= |makers| && left == makers[n..])
      || (n < |makers| && EPSILON < open <= makers[n].open && left == [makers[n].(open := open)] + makers[n + 1..])
  {
    FillLeavesTail(r, makers, quantity);
    FillIsPriceTimePriority(r, makers, quantity);
    hide Fill, Reaches, AllOpen;
    var f := Fill(r, makers, quantity);
    if f.left == makers[|f.trades|..] {
      n, open := |f.trades|, 0.0;
    } else {
      n := |f.trades| - 1;
      open := makers[n].open - f.trades[n].quantity;
    }
  }

  /** What is left after a fill is a well-formed side whose orders were there before, at the same price
      and with no more open. */
  lemma FillKeeps(side: Side, r: OrderRequest, makers: seq<Resting>, quantity: real)
    requires SideOk(side, makers)
    ensures var left := Fill(r, makers, quantity).left;
      && SideOk(side, left)
      && |left| <= |makers|
      && forall i | 0 <= i < |left| ::
           var m := makers[|makers| - |left| + i];
           left[i].id == m.id && left[i].price == m.price && left[i].open <= m.open
  {
    hide Fill, Sorted, DistinctIds;
    var n, open := FillLeavesSuffix(r, makers, quantity);
    if Fill(r, makers, quantity).left == makers[n..] {
      TailOk(side, makers, n);
    } else {
      ReopenedTail(side, makers, n, open);
    }
  }

  lemma ReopenedTail(side: Side, makers: seq<Resting>, n: nat, open: real)
    requires SideOk(side, makers) && n < |makers| && EPSILON < open
    ensures SideOk(side, [makers[n].(open := open)] + makers[n + 1..])
  {
    hide SideOk;
    TailOk(side, makers, n);
    ReopenedOk(side, makers[n..], open);
    assert makers[n..][1..] == makers[n + 1..];
  }

  lemma TailOk(side: Side, orders: seq<Resting>, n: nat)
    requires SideOk(side, orders) && n <= |orders|
    ensures SideOk(side, orders[n..])
  {
  }

  lemma ReopenedOk(side: Side, orders: seq<Resting>, open: real)
    requires SideOk(side, orders) && orders != [] && open > EPSILON
    ensures SideOk(side, [orders[0].(open := open)] + orders[1..])
  {
  }

  lemma FillKeepsIds(side: Side, r: OrderRequest, makers: seq<Resting>, quantity: real)
    requires SideOk(side, makers)
    ensures forall x | x in Fill(r, makers, quantity).left ::
              exists m | m in makers :: m.id == x.id && m.price == x.price && x.open <= m.open
  {
    FillKeeps(side, r, makers, quantity);
    var left := Fill(r, makers, quantity).left;
    forall i | 0 <= i < |left|
      ensures exists m | m in makers :: m.id == left[i].id && m.price == left[i].price && left[i].open <= m.open
    {
      assert makers[|makers| - |left| + i] in makers;
    }
  }

  // ---------------------------------------------------------------- every book is well formed

  lemma BookOkFromSides(b: Book)
    requires SideOk(Buy, b.bids) && SideOk(Sell, b.asks)
    requires forall x, y | x in b.bids && y in b.asks :: y.price - x.price > EPSILON && x.id != y.id
    ensures BookOk(b)
  {
  }

  /** After the match nothing on the other side is within reach of what is left of a limit order. */
  lemma {:induction false} LeftIsOutOfReach(r: OrderRequest, makers: seq<Resting>)
    requires SideOk(Other(r.side), makers) && r.kind.Limit?
    requires Fill(r, makers, r.quantity).remaining > EPSILON
    ensures forall x | x in Fill(r, makers, r.quantity).left ::
              if r.side.Buy? then x.price - r.price > EPSILON else r.price - x.price > EPSILON
  {
    var left := Fill(r, makers, r.quantity).left;
    FillExhausts(r, makers, r.quantity);
    FillKeeps(Other(r.side), r, makers, r.quantity);
    forall i | 0 <= i < |left|
      ensures if r.side.Buy? then left[i].price - r.price > EPSILON else r.price - left[i].price > EPSILON
    {
      assert i > 0 ==> !Better(Other(r.side), left[i].price, left[0].price);
    }
  }

  lemma ExecuteKeeps(b: Book, r: OrderRequest)
    requires BookOk(b) && !Rests(b, r.id) && r.quantity > 0.0
    ensures BookOk(Execute(b, r).book)
  {
    hide Fill, SideOk, Uncrossed, NoSharedId, Insert, Has;
    var own, f := b.Of(r.side), Fill(r, b.Of(Other(r.side)), r.quantity);
    var o := Resting(r.id, r.price, f.remaining);
    FillKeeps(Other(r.side), r, b.Of(Other(r.side)), r.quantity);
    RemainingIsPart(Other(r.side), r, b.Of(Other(r.side)));
    if WillRest(r, f) {
      InsertKeeps(r.side, own, o);
    }
    var own' := if WillRest(r, f) then Insert(r.side, own, o) else own;
    var book := Execute(b, r).book;
    assert book.Of(r.side) == own' && book.Of(Other(r.side)) == f.left;
    forall x, y | x in own' && y in f.left
      ensures x.id != y.id
      ensures if r.side.Buy? then y.price - x.price > EPSILON else x.price - y.price > EPSILON
    {
      if x in own {
        OldAndLeft(b, r, x, y);
      } else {
        NewAndLeft(b, r, y);
      }
    }
    BookOkFromSides(book);
  }

  lemma RemainingIsPart(side: Side, r: OrderRequest, makers: seq<Resting>)
    requires SideOk(side, makers) && r.quantity > 0.0
    ensures 0.0 <= Fill(r, makers, r.quantity).remaining <= r.quantity
  {
    FillConserves(r, makers, r.quantity);
  }

  /** What a match leaves stays apart from what rested on the taker's side. */
  lemma OldAndLeft(b: Book, r: OrderRequest, x: Resting, y: Resting)
    requires BookOk(b) && x in b.Of(r.side) && y in Fill(r, b.Of(Other(r.side)), r.quantity).left
    ensures x.id != y.id
    ensures if r.side.Buy? then y.price - x.price > EPSILON else x.price - y.price > EPSILON
  {
    hide Fill, Sorted, DistinctIds, AllOpen;
    FillKeepsIds(Other(r.side), r, b.Of(Other(r.side)), r.quantity);
    var m :| m in b.Of(Other(r.side)) && m.id == y.id && m.price == y.price;
    PairApart(b, r.side, x, m);
  }

  /** And from the taker, if it comes to rest. */
  lemma NewAndLeft(b: Book, r: OrderRequest, y: Resting)
    requires BookOk(b) && !Rests(b, r.id) && r.quantity > 0.0 && y in Fill(r, b.Of(Other(r.side)), r.quantity).left
    requires WillRest(r, Fill(r, b.Of(Other(r.side)), r.quantity))
    ensures r.id != y.id
    ensures if r.side.Buy? then y.price - r.price > EPSILON else r.price - y.price > EPSILON
  {
    hide Fill, Sorted, DistinctIds, AllOpen, Uncrossed, NoSharedId, Reaches;
    RemainingIsPart(Other(r.side), r, b.Of(Other(r.side)));
    FillKeepsIds(Other(r.side), r, b.Of(Other(r.side)), r.quantity);
    LeftIsOutOfReach(r, b.Of(Other(r.side)));
    NotIn(b.Of(Other(r.side)), r.id);
  }

  lemma PairApart(b: Book, side: Side, x: Resting, m: Resting)
    requires BookOk(b) && m in b.Of(Other(side))
    requires x in b.Of(side)
    ensures x.id != m.id
    ensures if side.Buy? then m.price - x.price > EPSILON else x.price - m.price > EPSILON
  {
  }

  /** An order that ends up rejected has traded nothing and changed nothing. */
  lemma NothingTraded(b: Book, r: OrderRequest)
    requires BookOk(b) && FinalStatus(r, Fill(r, b.Of(Other(r.side)), r.quantity)).Rejected?
    ensures var makers := b.Of(Other(r.side));
      Fill(r, makers, r.quantity).trades == [] && Fill(r, makers, r.quantity).left == makers
  {
    var makers := b.Of(Other(r.side));
    hide Reaches, Sorted, DistinctIds, Uncrossed, NoSharedId;
    FillConserves(r, makers, r.quantity);
    FillIsPriceTimePriority(r, makers, r.quantity);
    FillLeavesTail(r, makers, r.quantity);
    PositiveTrades(Fill(r, makers, r.quantity).trades);
  }

  lemma {:induction false} PositiveTrades(trades: seq<Trade>)
    requires forall i | 0 <= i < |trades| :: trades[i].quantity > EPSILON
    ensures trades != [] ==> SumTraded(trades) > 0.0
    ensures SumTraded(trades) >= 0.0
  {
    if trades != [] {
      PositiveTrades(trades[1..]);
    }
  }

  /** After every submit the book is sorted, has distinct ids and open quantities above the tolerance, and is
      never crossed. */
  lemma {:induction false} SubmitKeeps(b: Book, r: OrderRequest)
    requires BookOk(b)
    ensures BookOk(Submit(b, r).book)
  {
    if r.id != "" && r.quantity > 0.0 && !Rests(b, r.id) {
      ExecuteKeeps(b, r);
    }
  }

  lemma {:induction false} CancelKeeps(b: Book, id: string)
    requires BookOk(b)
    ensures BookOk(Cancel(b, id).book) && !Rests(Cancel(b, id).book, id)
  {
    if Rests(b, id) {
      WithoutKeeps(Buy, b.bids, id);
      WithoutKeeps(Sell, b.asks, id);
      BookOkFromSides(Cancel(b, id).book);
    }
  }

  datatype Command = SubmitOrder(request: OrderRequest) | CancelOrder(id: string)

  function Apply(b: Book, c: Command): Outcome {
    match c
    case SubmitOrder(r) => Submit(b, r)
    case CancelOrder(id) => Cancel(b, id)
  }

  function Run(cs: seq<Command>): Book {
    if cs == [] then EMPTY else Apply(Run(cs[..|cs| - 1]), cs[|cs| - 1]).book
  }

  /** Every book reached from the empty one by any submits and cancels is well formed and uncrossed. */
  lemma {:induction false} NeverCrossed(cs: seq<Command>)
    ensures BookOk(Run(cs))
  {
    if cs != [] {
      NeverCrossed(cs[..|cs| - 1]);
      match cs[|cs| - 1]
      case SubmitOrder(r) => SubmitKeeps(Run(cs[..|cs| - 1]), r);
      case CancelOrder(id) => CancelKeeps(Run(cs[..|cs| - 1]), id);
    }
  }

  // ---------------------------------------------------------------- what the order types promise

  predicate WellFormed(b: Book, r: OrderRequest) {
    r.id != "" && r.quantity > 0.0 && !Rests(b, r.id)
  }

  /** Fill-or-kill is all or nothing: it is accepted exactly if the loop would leave at most the tolerance,
      an accepted one never rests, and a rejected one changes nothing. The status of an accepted one is
      filled unless it is a limit order for no more than the tolerance itself. */
  lemma {:induction false} FillOrKill(b: Book, r: OrderRequest)
    requires BookOk(b) && WellFormed(b, r) && r.tif.Fok?
    ensures var out := Submit(b, r);
      && (out.result.accepted <==> Fill(r, b.Of(Other(r.side)), r.quantity).remaining <= EPSILON)
      && (out.result.accepted ==>
            && out.result.remaining <= EPSILON
            && out.book.Of(r.side) == b.Of(r.side)
            && (out.result.status == Filled <==> r.quantity > EPSILON || r.kind.Market?)
            && (out.result.status != Filled ==> out.result.status == Accepted && out.book == b))
      && (!out.result.accepted ==> out.book == b && out.result.trades == [])
  {
    var makers := b.Of(Other(r.side));
    DryRunAgrees(r, makers, r.quantity);
    FillConserves(r, makers, r.quantity);
  }

  /** An accepted post-only limit order trades with nobody. */
  lemma {:induction false} PostOnly(b: Book, r: OrderRequest)
    requires BookOk(b) && WellFormed(b, r) && r.tif.Gtx? && r.kind.Limit?
    ensures var out := Submit(b, r);
      && (out.result.accepted <==> !WouldCross(b, r))
      && out.result.trades == []
      && out.book.Of(Other(r.side)) == b.Of(Other(r.side))
  {
  }

  /** A market order never rests, and is rejected exactly if it finds nobody and is neither immediate-or-cancel
      nor for no more than the tolerance (fill-or-kill with too little to trade with is rejected as well). */
  lemma {:induction false} MarketOrder(b: Book, r: OrderRequest)
    requires BookOk(b) && WellFormed(b, r) && r.kind.Market? && !r.tif.Fok?
    ensures var out := Submit(b, r);
      && out.book.Of(r.side) == b.Of(r.side)
      && (!out.result.accepted <==> b.Of(Other(r.side)) == [] && r.quantity > EPSILON && !r.tif.Ioc?)
      && (!out.result.accepted ==> out.book == b && out.result.trades == [])
  {
    var makers := b.Of(Other(r.side));
    FillConserves(r, makers, r.quantity);
    if r.quantity > EPSILON && makers != [] {
      var f := Fill(r, makers, r.quantity);
      FillConserves(r, makers[1..], r.quantity - Min(r.quantity, makers[0].open));
      assert f.remaining < r.quantity;
    }
  }

  /** Quantities: executed and remaining sum to the request, the trades sum to what was executed, and the
      other side loses that and at most one tolerance, however many makers are consumed. */
  lemma {:induction false} SubmitConserves(b: Book, r: OrderRequest)
    requires BookOk(b)
    ensures var out := Submit(b, r);
      && out.result.executed == SumTraded(out.result.trades)
      && (WellFormed(b, r) && out.result.accepted ==> out.result.executed + out.result.remaining == r.quantity)
      && 0.0 <= SumOpen(b.Of(Other(r.side))) - SumOpen(out.book.Of(Other(r.side))) - out.result.executed <= EPSILON
      && |out.result.trades| <= |b.Of(Other(r.side))|
  {
    hide Fill, Reaches, Sorted, DistinctIds, Uncrossed, NoSharedId;
    FillConserves(r, b.Of(Other(r.side)), r.quantity);
    FillIsPriceTimePriority(r, b.Of(Other(r.side)), r.quantity);
    assert SumTraded([]) == 0.0;
  }
}
