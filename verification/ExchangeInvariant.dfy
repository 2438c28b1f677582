/** What every run of the exchange keeps, in four parts: funds, book, cover of the live orders, tracking. */
module ExchangeInvariant {
  import opened Orders
  import opened OrderBook
  import opened Ledger
  import opened LedgerLaws
  import opened RiskEngine
  import opened Exchange
  import opened Sums

  /** Who placed an order that funds were held for. */
  datatype Placed = Placed(user: string, side: Side)

  type History = map<string, Placed>

  // ---------------------------------------------------------------- assumptions on the input

  predicate NoArrow(id: string) {
    forall i | 0 <= i < |id| - 1 :: !(id[i] == '-' && id[i + 1] == '>')
  }

  function Ticks(k: int, tick: real): real {
    k as real * tick
  }

  ghost predicate OnGrid(price: real, tick: real) {
    exists k: int :: price == Ticks(k, tick)
  }

  /** On the grid and at least one. A tick of no more than the tolerance stands for no grid: any price will do. */
  ghost predicate PriceOk(price: real, tick: real) {
    tick > EPSILON ==> OnGrid(price, tick) && price >= 1.0
  }

  predicate FeesSane(fees: FeeSchedule) {
    0.0 <= fees.maker <= fees.taker <= 10000.0
  }

  /** Fresh id without the separator of trade ids; a limit price on the grid and at least one. */
  ghost predicate OrderOk(o: Order, placed: History, tick: real) {
    o.id !in placed && NoArrow(o.id) && (o.kind.Limit? ==> PriceOk(o.price, tick))
  }

  // ---------------------------------------------------------------- funds

  /** What `notional` costs a buyer at these basis points. */
  function Gross(notional: real, bps: real): real {
    notional + FeeAmount(notional, bps)
  }

  /** What an open order may still have to pay. */
  function Cover(side: Side, price: real, open: real, fees: FeeSchedule): real {
    if side.Buy? then Gross(Notional(price, open), fees.taker) else open
  }

  /** Every hold belongs to an order, to the order's user and to the asset of its side. */
  ghost predicate HoldsMatch(holds: map<string, Hold>, placed: History) {
    forall h | h in holds ::
      && |h| >= 5
      && h == HoldId(h[5..])
      && h[5..] in placed
      && holds[h].account == placed[h[5..]].user
      && holds[h].asset == AssetOf(placed[h[5..]].side)
  }

  ghost predicate PlacedOk(placed: History, accounts: map<string, Account>) {
    forall id | id in placed :: NoArrow(id) && placed[id].user in accounts
  }

  /** No trade of an order not placed yet is settled. */
  ghost predicate SettledOk(settled: set<string>, placed: History) {
    forall maker, taker | NoArrow(maker) && taker !in placed :: TradeId(maker, taker) !in settled
  }

  /** Orders of an account and asset whose hold is gone. */
  function Gone(placed: History, holds: map<string, Hold>, account: string, asset: Asset): set<string> {
    set id | id in placed && placed[id] == Placed(account, if asset.Quote? then Buy else Sell) && HoldId(id) !in holds
  }

  /** Frozen funds that no hold accounts for are at most a tolerance for each order whose hold is gone. */
  ghost predicate SlackOk(l: State, placed: History) {
    forall a, k | a in l.accounts :: Slack(l, a, k) <= Times(EPSILON, |Gone(placed, l.holds, a, k)|)
  }

  ghost predicate FundsOk(l: State, placed: History) {
    LedgerOk(l) && HoldsMatch(l.holds, placed) && PlacedOk(placed, l.accounts) && SettledOk(l.settled, placed) && SlackOk(l, placed)
  }

  // ---------------------------------------------------------------- the book and its owners

  ghost predicate RestingOk(orders: seq<Resting>, side: Side, registry: map<string, Managed>, tick: real) {
    forall x | x in orders :: PriceOk(x.price, tick) && x.id in registry && registry[x.id].side == side
  }

  ghost predicate RegistryOk(registry: map<string, Managed>, placed: History, symbol: string) {
    forall id | id in registry ::
      id in placed && registry[id] == Managed(placed[id].user, symbol, placed[id].side, HoldId(id))
  }

  /** Every managed order names its hold. */
  ghost predicate AllNamed(registry: map<string, Managed>) {
    forall id | id in registry :: registry[id].hold != ""
  }

  ghost predicate OwnersOk(b: Book, registry: map<string, Managed>, placed: History, symbol: string, tick: real) {
    && BookOk(b)
    && RestingOk(b.bids, Buy, registry, tick)
    && RestingOk(b.asks, Sell, registry, tick)
    && RegistryOk(registry, placed, symbol)
  }

  /** Every order has a hold that covers what it may still have to pay. */
  ghost predicate Covered(holds: map<string, Hold>, orders: seq<Resting>, side: Side, fees: FeeSchedule) {
    forall x | x in orders :: HoldId(x.id) in holds && holds[HoldId(x.id)].amount >= Cover(side, x.price, x.open, fees)
  }

  ghost predicate BookCovered(holds: map<string, Hold>, b: Book, fees: FeeSchedule) {
    Covered(holds, b.bids, Buy, fees) && Covered(holds, b.asks, Sell, fees)
  }

  /** Only dust is held for orders that are no longer managed. */
  ghost predicate DustOk(holds: map<string, Hold>, placed: History, registry: map<string, Managed>) {
    forall id | id in placed && id !in registry && HoldId(id) in holds :: holds[HoldId(id)].amount <= EPSILON
  }

  // ---------------------------------------------------------------- tracking

  /** The risk engine knows the owner, side and price of the order and takes it for open. */
  ghost predicate Knows(tracked: set<Tracked>, user: string, side: Side, price: real) {
    exists t | t in tracked :: t.user == user && t.side == side && t.price == price && t.quantity > 0.0
  }

  ghost predicate SideTracked(tracked: set<Tracked>, orders: seq<Resting>, side: Side, registry: map<string, Managed>) {
    forall x | x in orders && x.id in registry :: Knows(tracked, registry[x.id].user, side, x.price)
  }

  ghost predicate TrackedOk(w: World) {
    SideTracked(w.tracked, w.book.bids, Buy, w.registry) && SideTracked(w.tracked, w.book.asks, Sell, w.registry)
  }

  // ---------------------------------------------------------------- all of it

  ghost predicate Core(w: World, placed: History, tick: real) {
    && tick > EPSILON
    && FeesSane(w.fees)
    && FundsOk(w.ledger, placed)
    && OwnersOk(w.book, w.registry, placed, w.symbol, tick)
    && BookCovered(w.ledger.holds, w.book, w.fees)
    && DustOk(w.ledger.holds, placed, w.registry)
  }

  ghost predicate Inv(w: World, placed: History, tick: real) {
    Core(w, placed, tick) && TrackedOk(w) && forall t | t in w.tracked :: t.user in w.restingUsers
  }

  /** Nothing is left over from a submit that stopped halfway: exactly the live orders are managed. */
  ghost predicate Clean(w: World) {
    forall id :: id in w.registry <==> Rests(w.book, id)
  }

  // ---------------------------------------------------------------- names

  lemma HoldIdOf(id: string)
    ensures HoldId(id) != "" && |HoldId(id)| >= 5 && HoldId(id)[5..] == id
  {
  }

  /** The first arrow of a trade id ends the maker's id. */
  lemma {:induction false} TradeIdIsInjective(m: string, t: string, m': string, t': string)
    requires NoArrow(m) && NoArrow(m') && TradeId(m, t) == TradeId(m', t')
    ensures m == m' && t == t'
  {
    var s := TradeId(m, t);
    assert s[|m|] == '-' && s[|m| + 1] == '>';
    assert TradeId(m', t')[|m'|] == '-' && TradeId(m', t')[|m'| + 1] == '>';
    ArrowIsFirst(m, t, |m'|);
    ArrowIsFirst(m', t', |m|);
    assert s[..|m|] == m && TradeId(m', t')[..|m'|] == m';
    assert s[|m| + 2..] == t && TradeId(m', t')[|m'| + 2..] == t';
  }

  lemma ArrowIsFirst(m: string, t: string, i: nat)
    requires NoArrow(m) && i + 1 < |TradeId(m, t)|
    requires TradeId(m, t)[i] == '-' && TradeId(m, t)[i + 1] == '>'
    ensures i >= |m|
  {
  }

  // ---------------------------------------------------------------- prices on the grid

  /** Two prices of the grid that are within the tolerance of each other are in order. */
  lemma GridGap(p: real, q: real, tick: real)
    requires tick > EPSILON && OnGrid(p, tick) && OnGrid(q, tick) && p - q <= EPSILON
    ensures p <= q
  {
    var j: int :| p == Ticks(j, tick);
    var k: int :| q == Ticks(k, tick);
    TicksApart(j, k, tick);
    TicksApart(k, j, tick);
  }

  lemma TicksApart(j: int, k: int, tick: real)
    requires tick > 0.0
    ensures j > k ==> Ticks(j, tick) - Ticks(k, tick) >= tick
  {
    var d := (j - k) as real;
    assert Ticks(j, tick) - Ticks(k, tick) == d * tick;
    if j > k {
      assert d >= 1.0;
    }
  }

  // ---------------------------------------------------------------- what things cost

  lemma GrossIsFactor(price: real, quantity: real, bps: real)
    ensures WithFee(price, quantity, bps) == Gross(Notional(price, quantity), bps)
  {
    var n := price * quantity;
    assert n * (1.0 + bps / 10000.0) == n + n * (bps / 10000.0);
    assert n * (bps / 10000.0) == n * bps / 10000.0;
  }

  lemma GrossAdds(n: real, m: real, bps: real)
    ensures Gross(n + m, bps) == Gross(n, bps) + Gross(m, bps)
    ensures Gross(n - m, bps) == Gross(n, bps) - Gross(m, bps)
  {
    assert (n + m) * bps == n * bps + m * bps;
    assert (n - m) * bps == n * bps - m * bps;
  }

  lemma GrossIsMore(n: real, bps: real)
    requires n >= 0.0 && bps >= 0.0
    ensures Gross(n, bps) >= n
  {
    assert n * bps >= 0.0;
  }

  lemma GrossGrows(n: real, m: real, bps: real)
    requires n <= m && bps >= 0.0
    ensures Gross(n, bps) <= Gross(m, bps)
  {
    assert n * bps <= m * bps;
  }

  lemma GrossByFee(n: real, low: real, high: real)
    requires n >= 0.0 && low <= high
    ensures Gross(n, low) <= Gross(n, high)
  {
    assert n * low <= n * high;
  }

  lemma CoverSplits(side: Side, price: real, open: real, q: real, fees: FeeSchedule)
    ensures Cover(side, price, open, fees) == Cover(side, price, q, fees) + Cover(side, price, open - q, fees)
  {
    hide Gross;
    GrossAdds(Notional(price, open), Notional(price, q), fees.taker);
    assert Notional(price, open - q) == Notional(price, open) - Notional(price, q);
  }

  lemma CoverIsMore(side: Side, price: real, open: real, fees: FeeSchedule)
    requires price >= 1.0 && open >= 0.0 && FeesSane(fees)
    ensures Cover(side, price, open, fees) >= open
  {
    hide Gross;
    assert Notional(price, open) >= open;
    GrossIsMore(Notional(price, open), fees.taker);
  }

  lemma CoverGrows(side: Side, price: real, open: real, price': real, open': real, fees: FeeSchedule)
    requires FeesSane(fees) && 0.0 <= price <= price' && 0.0 <= open <= open'
    ensures Cover(side, price, open, fees) <= Cover(side, price', open', fees)
  {
    hide Gross;
    ProductGrows(price, open, price', open');
    GrossGrows(Notional(price, open), Notional(price', open'), fees.taker);
  }

  lemma ProductGrows(a: real, b: real, a': real, b': real)
    requires 0.0 <= a <= a' && 0.0 <= b <= b'
    ensures Notional(a, b) <= Notional(a', b')
  {
    assert a * b <= a' * b;
    assert a' * b <= a' * b';
  }
}
