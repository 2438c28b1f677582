/**
The order book as two plain sequences of resting orders, best price first and, within a price, first
come first. This is the specification of the matching engine: no levels, no index, no depth.
*/
module OrderBook {
  import opened Orders

  datatype Resting = Resting(id: string, price: real, open: real)

  datatype Book = Book(bids: seq<Resting>, asks: seq<Resting>) {
    function Of(side: Side): seq<Resting> {
      if side.Buy? then bids else asks
    }

    function With(side: Side, orders: seq<Resting>): Book {
      if side.Buy? then this.(bids := orders) else this.(asks := orders)
    }
  }

  const EMPTY := Book([], [])

  // ---------------------------------------------------------------- operations

  datatype FillResult = FillResult(trades: seq<Trade>, left: seq<Resting>, remaining: real)

  /** Trades `quantity` against the makers in order. A maker left with no more than the tolerance is gone. */
  function Fill(r: OrderRequest, makers: seq<Resting>, quantity: real): FillResult {
    if quantity <= EPSILON || makers == [] || !Reaches(r, makers[0].price) then FillResult([], makers, quantity)
    else
      var m := makers[0];
      var q := Min(quantity, m.open);
      var t := Trade(m.id, r.id, m.price, q);
      if m.open - q <= EPSILON then
        var rest := Fill(r, makers[1..], quantity - q);
        FillResult([t] + rest.trades, rest.left, rest.remaining)
      else FillResult([t], [m.(open := m.open - q)] + makers[1..], quantity - q)
  }

  /** The makers once the first has traded `q`. */
  function AfterTrade(makers: seq<Resting>, q: real): seq<Resting>
    requires makers != []
  {
    if makers[0].open - q <= EPSILON then makers[1..] else [makers[0].(open := makers[0].open - q)] + makers[1..]
  }

  /** The open quantity of the makers an order reaches. */
  function Available(r: OrderRequest, makers: seq<Resting>): real {
    if makers == [] || !Reaches(r, makers[0].price) then 0.0 else makers[0].open + Available(r, makers[1..])
  }

  /** Behind every order of the same or a better price. */
  function Insert(side: Side, orders: seq<Resting>, o: Resting): seq<Resting> {
    if orders == [] || Better(side, o.price, orders[0].price) then [o] + orders
    else [orders[0]] + Insert(side, orders[1..], o)
  }

  function Without(orders: seq<Resting>, id: string): seq<Resting> {
    if orders == [] then []
    else if orders[0].id == id then Without(orders[1..], id)
    else [orders[0]] + Without(orders[1..], id)
  }

  predicate Has(orders: seq<Resting>, id: string) {
    exists i | 0 <= i < |orders| :: orders[i].id == id
  }

  predicate Rests(b: Book, id: string) {
    Has(b.bids, id) || Has(b.asks, id)
  }

  datatype Outcome = Outcome(book: Book, result: MatchResult)

  function Reject(b: Book, reason: RejectReason, remaining: real): Outcome {
    Outcome(b, MatchResult(false, Rejected, reason, 0.0, remaining, []))
  }

  /** A post-only order would trade at once. */
  predicate WouldCross(b: Book, r: OrderRequest) {
    var makers := b.Of(Other(r.side));
    makers != [] && Reaches(r.(kind := Limit), makers[0].price)
  }

  predicate CanFill(b: Book, r: OrderRequest) {
    r.quantity - Available(r, b.Of(Other(r.side))) <= EPSILON
  }

  function FinalStatus(r: OrderRequest, f: FillResult): OrderStatus {
    var traded := r.quantity - f.remaining > 0.0;
    if IsZero(f.remaining) then (if traded || r.kind.Market? then Filled else Accepted)
    else if traded then PartiallyFilled
    else if r.tif.Ioc? then Cancelled
    else if r.kind.Limit? then Accepted
    else Rejected
  }

  /** Whether what is left of an order goes onto the book. */
  predicate WillRest(r: OrderRequest, f: FillResult) {
    r.kind.Limit? && !r.tif.Ioc? && !IsZero(f.remaining)
  }

  function Rested(b: Book, r: OrderRequest, open: real): Book {
    b.With(r.side, Insert(r.side, b.Of(r.side), Resting(r.id, r.price, open)))
  }

  /** The book and the result once the match loop has ended. */
  function Finalize(b: Book, r: OrderRequest, f: FillResult): Outcome {
    var status := FinalStatus(r, f);
    Outcome(if WillRest(r, f) then Rested(b, r, f.remaining) else b,
            MatchResult(!status.Rejected?, status, if status.Rejected? then MarketOrderWouldRest else NoReason,
                        r.quantity - f.remaining, f.remaining, f.trades))
  }

  function Execute(b: Book, r: OrderRequest): Outcome {
    var f := Fill(r, b.Of(Other(r.side)), r.quantity);
    Finalize(b.With(Other(r.side), f.left), r, f)
  }

  function Submit(b: Book, r: OrderRequest): Outcome {
    if r.id == "" || r.quantity <= 0.0 then Reject(b, InsufficientLiquidity, r.quantity)
    else if Rests(b, r.id) then Reject(b, DuplicateOrderId, r.quantity)
    else if r.kind.Limit? && r.tif.Gtx? && WouldCross(b, r) then Reject(b, WouldCrossPostOnly, r.quantity)
    else if r.tif.Fok? && !CanFill(b, r) then Reject(b, InsufficientLiquidity, r.quantity)
    else Execute(b, r)
  }

  function OpenOf(orders: seq<Resting>, id: string): real {
    if orders == [] then 0.0 else if orders[0].id == id then orders[0].open else OpenOf(orders[1..], id)
  }

  function Cancel(b: Book, id: string): Outcome {
    if !Rests(b, id) then Reject(b, OrderNotFound, 0.0)
    else
      Outcome(Book(Without(b.bids, id), Without(b.asks, id)),
              MatchResult(true, Cancelled, NoReason, 0.0,
                          if Has(b.bids, id) then OpenOf(b.bids, id) else OpenOf(b.asks, id), []))
  }

  // ---------------------------------------------------------------- what every book satisfies

  ghost predicate Sorted(side: Side, orders: seq<Resting>) {
    forall i, j | 0 <= i < j < |orders| :: !Better(side, orders[j].price, orders[i].price)
  }

  ghost predicate DistinctIds(orders: seq<Resting>) {
    forall i, j | 0 <= i < j < |orders| :: orders[i].id != orders[j].id
  }

  ghost predicate AllOpen(orders: seq<Resting>) {
    forall i | 0 <= i < |orders| :: orders[i].open > EPSILON
  }

  ghost predicate SideOk(side: Side, orders: seq<Resting>) {
    Sorted(side, orders) && DistinctIds(orders) && AllOpen(orders)
  }

  /** Every ask exceeds every bid by more than the tolerance. */
  ghost predicate Uncrossed(b: Book) {
    forall i, j | 0 <= i < |b.bids| && 0 <= j < |b.asks| :: b.asks[j].price - b.bids[i].price > EPSILON
  }

  ghost predicate NoSharedId(b: Book) {
    forall i, j | 0 <= i < |b.bids| && 0 <= j < |b.asks| :: b.bids[i].id != b.asks[j].id
  }

  ghost predicate BookOk(b: Book) {
    SideOk(Buy, b.bids) && SideOk(Sell, b.asks) && Uncrossed(b) && NoSharedId(b)
  }

  // ---------------------------------------------------------------- filling

  function SumOpen(orders: seq<Resting>): real {
    if orders == [] then 0.0 else orders[0].open + SumOpen(orders[1..])
  }

  /** The prices of a side, each once, best first. */
  function DistinctPrices(orders: seq<Resting>): seq<real> {
    if orders == [] then []
    else
      var rest := DistinctPrices(orders[1..]);
      if rest != [] && rest[0] == orders[0].price then rest else [orders[0].price] + rest
  }

  function SumTraded(trades: seq<Trade>): real {
    if trades == [] then 0.0 else trades[0].quantity + SumTraded(trades[1..])
  }

  /** One turn of the match loop. */
  lemma FillOneTrade(r: OrderRequest, makers: seq<Resting>, quantity: real)
    requires quantity > EPSILON && makers != [] && Reaches(r, makers[0].price)
    ensures var q := Min(quantity, makers[0].open);
      var rest := Fill(r, AfterTrade(makers, q), quantity - q);
      && Fill(r, makers, quantity) ==
         FillResult([Trade(makers[0].id, r.id, makers[0].price, q)] + rest.trades, rest.left, rest.remaining)
      && (|AfterTrade(makers, q)| < |makers| || (|AfterTrade(makers, q)| == |makers| && quantity - q == 0.0))
  {
  }

  /** The makers traded are a prefix of the queue, each at its own price and within the taker's limit, and
      all but the last give everything they have. */
  lemma {:induction false} FillIsPriceTimePriority(r: OrderRequest, makers: seq<Resting>, quantity: real)
    requires AllOpen(makers)
    ensures var f := Fill(r, makers, quantity);
      && |f.trades| <= |makers|
      && (forall i | 0 <= i < |f.trades| ::
            && f.trades[i].maker == makers[i].id && f.trades[i].taker == r.id
            && f.trades[i].price == makers[i].price && Reaches(r, makers[i].price)
            && EPSILON < f.trades[i].quantity <= makers[i].open
            && (i < |f.trades| - 1 ==> f.trades[i].quantity == makers[i].open))
  {
    hide Reaches;
    if quantity > EPSILON && makers != [] && Reaches(r, makers[0].price) {
      var q := Min(quantity, makers[0].open);
      var f, rest := Fill(r, makers, quantity), Fill(r, makers[1..], quantity - q);
      if makers[0].open - q <= EPSILON {
        FillIsPriceTimePriority(r, makers[1..], quantity - q);
        FirstTakesAll(r, makers, quantity);
        assert f.trades == [Trade(makers[0].id, r.id, makers[0].price, q)] + rest.trades;
        hide Fill, AllOpen;
        forall i | 1 <= i < |f.trades|
          ensures f.trades[i] == rest.trades[i - 1] && makers[i] == makers[1..][i - 1]
        {
        }
      }
    }
  }

  /** A maker followed by another trade gave all it had. */
  lemma FirstTakesAll(r: OrderRequest, makers: seq<Resting>, quantity: real)
    requires quantity > EPSILON && makers != []
    ensures var q := Min(quantity, makers[0].open); Fill(r, makers[1..], quantity - q).trades != [] ==> q == makers[0].open
  {
  }

  /** What is left of the makers: the untouched tail, and at most one maker in front of it whose trade was
      the last one. */
  lemma {:induction false} FillLeavesTail(r: OrderRequest, makers: seq<Resting>, quantity: real)
    requires AllOpen(makers)
    ensures var f := Fill(r, makers, quantity);
      var n := |f.trades|;
      && n <= |makers|
      && (f.left == makers[n..]
          || (n > 0 && f.left == [makers[n - 1].(open := makers[n - 1].open - f.trades[n - 1].quantity)] + makers[n..]
              && f.remaining == 0.0 && makers[n - 1].open - f.trades[n - 1].quantity > EPSILON))
  {
    hide Reaches;
    if quantity > EPSILON && makers != [] && Reaches(r, makers[0].price) {
      var q := Min(quantity, makers[0].open);
      FillLeavesTail(r, makers[1..], quantity - q);
      if makers[0].open - q <= EPSILON {
        var f, rest := Fill(r, makers, quantity), Fill(r, makers[1..], quantity - q);
        assert makers[1..][|rest.trades|..] == makers[|f.trades|..];
      }
    }
  }

  /** Trades sum to what was executed, and the makers lose that and at most one tolerance of dust. */
  lemma {:induction false} FillConserves(r: OrderRequest, makers: seq<Resting>, quantity: real)
    requires AllOpen(makers)
    ensures var f := Fill(r, makers, quantity);
      && SumTraded(f.trades) == quantity - f.remaining
      && 0.0 <= SumOpen(makers) - SumOpen(f.left) - SumTraded(f.trades) <= EPSILON
      && (quantity >= 0.0 ==> 0.0 <= f.remaining <= quantity)
      && (SumOpen(makers) - SumOpen(f.left) - SumTraded(f.trades) > 0.0 ==> f.remaining == 0.0)
  {
    hide Reaches;
    if quantity > EPSILON && makers != [] && Reaches(r, makers[0].price) {
      var q := Min(quantity, makers[0].open);
      FillConserves(r, makers[1..], quantity - q);
      var f, rest := Fill(r, makers, quantity), Fill(r, makers[1..], quantity - q);
      if makers[0].open - q <= EPSILON {
        assert f.trades[1..] == rest.trades;
      } else {
        assert f.left[1..] == makers[1..];
        assert f.trades[1..] == [];
      }
    }
  }

  /** The dry run agrees with the loop: an order can be filled exactly if the loop would leave at most the
      tolerance. */
  lemma {:induction false} DryRunAgrees(r: OrderRequest, makers: seq<Resting>, quantity: real)
    requires AllOpen(makers)
    ensures quantity - Available(r, makers) <= EPSILON <==> Fill(r, makers, quantity).remaining <= EPSILON
  {
    if quantity > EPSILON && makers != [] && Reaches(r, makers[0].price) {
      DryRunAgrees(r, makers[1..], quantity - Min(quantity, makers[0].open));
    }
    AvailableIsPositive(r, makers);
  }

  lemma {:induction false} AvailableIsPositive(r: OrderRequest, makers: seq<Resting>)
    requires AllOpen(makers)
    ensures Available(r, makers) >= 0.0
    ensures makers != [] && Reaches(r, makers[0].price) ==> Available(r, makers[1..]) >= 0.0
  {
    if makers != [] {
      AvailableIsPositive(r, makers[1..]);
    }
  }

  /** If the loop leaves more than the tolerance, nobody it could still reach is left. */
  lemma {:induction false} FillExhausts(r: OrderRequest, makers: seq<Resting>, quantity: real)
    requires AllOpen(makers)
    requires Fill(r, makers, quantity).remaining > EPSILON
    ensures var left := Fill(r, makers, quantity).left; left == [] || !Reaches(r, left[0].price)
  {
    if makers != [] && Reaches(r, makers[0].price) {
      var q := Min(quantity, makers[0].open);
      if makers[0].open - q <= EPSILON {
        FillExhausts(r, makers[1..], quantity - q);
      }
    }
  }
}
