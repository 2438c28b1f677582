/**
The exchange as one value: an order is risk-checked, funds are held for it, it is matched, each trade is
settled, and what is left of the holds of closed orders is released.
*/
module Exchange {
  import opened Orders
  import opened OrderBook
  import opened Ledger
  import opened RiskEngine

  datatype Managed = Managed(user: string, symbol: string, side: Side, hold: string)

  datatype World = World(
    symbol: string,
    book: Book,
    ledger: State,
    registry: map<string, Managed>,
    tracked: set<Tracked>,
    restingUsers: set<string>,
    bestBid: real,
    bestAsk: real,
    fees: FeeSchedule,
    prevention: bool)

  datatype WorkflowStatus =
    | Completed
    | RiskRejected
    | ClearingRejected
    | MatchingRejected
    | SettlementRejected
    | InvariantViolation

  datatype Report = Report(status: WorkflowStatus, accepted: bool, result: MatchResult, settlements: seq<SettlementResult>)

  const NO_MATCH := MatchResult(false, Rejected, NoReason, 0.0, 0.0, [])

  function Failed(status: WorkflowStatus): Report {
    Report(status, false, NO_MATCH, [])
  }

  // ---------------------------------------------------------------- names

  function HoldId(id: string): string {
    "hold-" + id
  }

  function TradeId(maker: string, taker: string): string {
    maker + "->" + taker
  }

  function AssetOf(side: Side): Asset {
    if side.Buy? then Quote else Base
  }

  function ToMatching(o: Order): OrderRequest {
    OrderRequest(o.id, o.side, o.kind, o.tif, o.price, o.quantity)
  }

  // ---------------------------------------------------------------- reserving and releasing

  function ReserveAmount(w: World, o: Order): real {
    if o.side.Sell? then o.quantity
    else
      var reference := if o.kind.Limit? && o.price > 0.0 then o.price
                       else if w.book.asks != [] then w.book.asks[0].price
                       else w.bestAsk;
      WithFee(reference, o.quantity, w.fees.taker)
  }

  /** With the taker fee, in basis points. */
  function WithFee(price: real, quantity: real, bps: real): real {
    price * quantity * (1.0 + bps / 10000.0)
  }

  function Reserve(w: World, o: Order): Done {
    Freeze(w.ledger, AssetOf(o.side), o.user, HoldId(o.id), ReserveAmount(w, o), o.timestamp)
  }

  function ReleaseResidual(l: State, hold: string, timestamp: int): Done {
    if hold !in l.holds || IsZero(l.holds[hold].amount) then Done(l, Applied) else Release(l, hold, timestamp)
  }

  // ---------------------------------------------------------------- settling the trades of a match

  function FillOf(t: Trade, maker: Managed, taker: Managed, symbol: string, timestamp: int): TradeFill {
    if taker.side.Buy? then
      TradeFill(TradeId(t.maker, t.taker), symbol, taker.user, maker.user, taker.hold, maker.hold, t.price, t.quantity, true, timestamp)
    else
      TradeFill(TradeId(t.maker, t.taker), symbol, maker.user, taker.user, maker.hold, taker.hold, t.price, t.quantity, false, timestamp)
  }

  datatype SettleRun = SettleRun(ledger: State, status: WorkflowStatus, settlements: seq<SettlementResult>)

  /** In order, stopping at the first that fails. */
  function SettleTrades(l: State, registry: map<string, Managed>, trades: seq<Trade>, symbol: string, timestamp: int,
                        fees: FeeSchedule): SettleRun
    decreases |trades|
  {
    if trades == [] then SettleRun(l, Completed, [])
    else if trades[0].maker !in registry || trades[0].taker !in registry then SettleRun(l, WorkflowStatus.InvariantViolation, [])
    else
      var fill := FillOf(trades[0], registry[trades[0].maker], registry[trades[0].taker], symbol, timestamp);
      var s := Settle(l, fill, fees);
      if s.result.status != Applied && s.result.status != Duplicate then SettleRun(s.state, SettlementRejected, [s.result])
      else
        var rest := SettleTrades(s.state, registry, trades[1..], symbol, timestamp, fees);
        rest.(settlements := [s.result] + rest.settlements)
  }

  // ---------------------------------------------------------------- releasing closed orders

  /** `scan` is the order in which the registry is visited. */
  ghost predicate IsScan(scan: seq<string>, registry: map<string, Managed>, symbol: string) {
    && (forall i, j | 0 <= i < j < |scan| :: scan[i] != scan[j])
    && (forall id :: id in scan <==> id in registry && registry[id].symbol == symbol)
  }

  lemma {:induction false} ScanExists(registry: map<string, Managed>, symbol: string)
    ensures exists scan :: IsScan(scan, registry, symbol)
    decreases |registry|
  {
    if registry == map[] {
      assert IsScan([], registry, symbol);
    } else {
      var id :| id in registry;
      assert (registry - {id}).Keys == registry.Keys - {id};
      ScanExists(registry - {id}, symbol);
      var rest :| IsScan(rest, registry - {id}, symbol);
      assert IsScan(if registry[id].symbol == symbol then rest + [id] else rest, registry, symbol);
    }
  }

  datatype ReleaseRun = ReleaseRun(ledger: State, registry: map<string, Managed>, status: WorkflowStatus)

  function ReleaseClosed(l: State, registry: map<string, Managed>, scan: seq<string>, b: Book, timestamp: int): ReleaseRun
    decreases |scan|
  {
    if scan == [] then ReleaseRun(l, registry, Completed)
    else if Rests(b, scan[0]) || scan[0] !in registry then ReleaseClosed(l, registry, scan[1..], b, timestamp)
    else
      var d := ReleaseResidual(l, registry[scan[0]].hold, timestamp);
      if d.status != Applied then ReleaseRun(d.state, registry, WorkflowStatus.InvariantViolation)
      else ReleaseClosed(d.state, registry - {scan[0]}, scan[1..], b, timestamp)
  }

  // ---------------------------------------------------------------- after the match

  /** The resting orders with a registered owner. */
  function Resters(b: Book, registry: map<string, Managed>): set<Resting> {
    set x | x in b.bids + b.asks && x.id in registry
  }

  function TrackedAs(x: Resting, m: Managed): Tracked {
    Tracked(m.user, m.side, x.price, x.open)
  }

  /** The risk engine forgets the users it had orders of and learns every resting order anew. */
  function Synced(w: World): World {
    w.(tracked := (set t | t in w.tracked && t.user !in w.restingUsers)
                  + (set x | x in Resters(w.book, w.registry) :: TrackedAs(x, w.registry[x.id])),
       restingUsers := set x | x in Resters(w.book, w.registry) :: w.registry[x.id].user)
  }

  function Refreshed(w: World): World {
    w.(bestBid := if w.book.bids != [] then w.book.bids[0].price else w.bestBid,
       bestAsk := if w.book.asks != [] then w.book.asks[0].price else w.bestAsk)
  }

  // ---------------------------------------------------------------- the workflow

  datatype Step = Step(world: World, report: Report)

  function RejectedMatch(w: World, o: Order, result: MatchResult): Step {
    var d := ReleaseResidual(w.ledger, HoldId(o.id), o.timestamp + 1);
    if d.status != Applied then Step(w.(ledger := d.state), Report(WorkflowStatus.InvariantViolation, result.accepted, result, []))
    else
      Step(Synced(w.(ledger := d.state, registry := w.registry - {o.id})),
           Report(MatchingRejected, result.accepted, result, []))
  }

  function AcceptedMatch(w: World, o: Order, result: MatchResult, scan: seq<string>): Step {
    var s := SettleTrades(w.ledger, w.registry, result.trades, w.symbol, o.timestamp, w.fees);
    if s.status != Completed then Step(w.(ledger := s.ledger), Report(s.status, false, result, s.settlements))
    else
      var c := ReleaseClosed(s.ledger, w.registry, scan, w.book, o.timestamp + 2);
      var w' := w.(ledger := c.ledger, registry := c.registry);
      if c.status != Completed then Step(w', Report(c.status, false, result, s.settlements))
      else Step(Refreshed(Synced(w')), Report(Completed, result.accepted, result, s.settlements))
  }

  /** The world once funds are held for the order and its owner is known. */
  function Managing(w: World, o: Order): World {
    w.(ledger := Reserve(w, o).state,
       registry := w.registry[o.id := Managed(o.user, o.symbol, o.side, HoldId(o.id))])
  }

  function Match(w: World, o: Order, scan: seq<string>): Step {
    var m := OrderBook.Submit(w.book, ToMatching(o));
    var w' := w.(book := m.book);
    if !m.result.accepted && m.result.trades == [] then RejectedMatch(w', o, m.result)
    else AcceptedMatch(w', o, m.result, scan)
  }

  function SubmitOrder(w: World, o: Order, otherRules: bool, scan: seq<string>): Step {
    if !Verdict(o, map[w.symbol := w.prevention], w.tracked, otherRules).Passed? then Step(w, Failed(RiskRejected))
    else if Reserve(w, o).status != Applied then Step(w.(ledger := Reserve(w, o).state), Failed(ClearingRejected))
    else Match(Managing(w, o), o, scan)
  }

  function RegisterUser(w: World, user: string, snapshot: Account): World {
    w.(ledger := Upsert(w.ledger, user, snapshot))
  }

  /** A configured exchange nobody has used yet. */
  function Opened(symbol: string, bestBid: real, bestAsk: real, fees: FeeSchedule, prevention: bool): World {
    World(symbol, EMPTY, NOTHING, map[], {}, {}, bestBid, bestAsk, fees, prevention)
  }
}
