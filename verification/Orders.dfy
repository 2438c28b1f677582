/** Orders, trades and results of the matching engine. Prices and quantities are exact reals. */
module Orders {

  const EPSILON: real := 0.000000001

  datatype Side = Buy | Sell
  datatype OrderType = Limit | Market
  datatype TimeInForce = Gtc | Ioc | Fok | Gtx
  datatype OrderStatus = Accepted | PartiallyFilled | Filled | Cancelled | Rejected
  datatype RejectReason =
    | NoReason
    | DuplicateOrderId
    | WouldCrossPostOnly
    | InsufficientLiquidity
    | MarketOrderWouldRest
    | OrderNotFound

  datatype OrderRequest = OrderRequest(
    id: string, side: Side, kind: OrderType, tif: TimeInForce, price: real, quantity: real)

  datatype Trade = Trade(maker: string, taker: string, price: real, quantity: real)

  datatype MatchResult = MatchResult(
    accepted: bool, status: OrderStatus, reason: RejectReason, executed: real, remaining: real, trades: seq<Trade>)

  function Other(side: Side): Side {
    if side.Buy? then Sell else Buy
  }

  function Min(a: real, b: real): real {
    if a < b then a else b
  }

  predicate IsZero(x: real) {
    -EPSILON <= x <= EPSILON
  }

  /** Price `p` comes before price `q` on this side of the book: bids fall, asks rise. */
  predicate Better(side: Side, p: real, q: real) {
    if side.Buy? then p > q else p < q
  }

  /** An order of this side and type trades with a resting order at `makerPrice`. */
  predicate Reaches(r: OrderRequest, makerPrice: real) {
    || r.kind.Market?
    || (if r.side.Buy? then makerPrice - r.price <= EPSILON else r.price - makerPrice <= EPSILON)
  }
}
