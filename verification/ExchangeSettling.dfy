/** Settling the trades of one match, one after the other. */
module ExchangeSettling {
  import opened Orders
  import opened OrderBook
  import OrderBookLaws
  import opened Ledger
  import opened LedgerLaws
  import opened RiskEngine
  import opened Exchange
  import opened ExchangeInvariant
  import opened ExchangeFunds

  /** What stays the same while the trades of one taker are settled. */
  datatype Terms = Terms(
    registry: map<string, Managed>, placed: History, symbol: string, timestamp: int, fees: FeeSchedule,
    taker: string, side: Side)

  ghost predicate TermsOk(c: Terms) {
    && RegistryOk(c.registry, c.placed, c.symbol)
    && FeesSane(c.fees)
    && c.taker in c.registry && c.registry[c.taker].side == c.side
    && c.timestamp > 0
  }

  ghost predicate MakerOk(c: Terms, x: Resting) {
    && x.price >= 1.0 && x.open > EPSILON
    && x.id in c.registry && c.registry[x.id].side == Other(c.side)
    && NoArrow(x.id)
  }

  ghost predicate MakerReady(c: Terms, holds: map<string, Hold>, x: Resting) {
    && MakerOk(c, x)
    && HoldId(x.id) in holds
    && holds[HoldId(x.id)].amount >= Cover(Other(c.side), x.price, x.open, c.fees)
  }

  /** The makers' holds cover them. */
  ghost predicate MakersReady(c: Terms, holds: map<string, Hold>, makers: seq<Resting>) {
    (forall x | x in makers :: MakerReady(c, holds, x)) && DistinctIds(makers)
  }

  /** No trade of the taker with these makers is settled. */
  ghost predicate Unsettled(c: Terms, settled: set<string>, makers: seq<Resting>) {
    forall x | x in makers :: TradeId(x.id, c.taker) !in settled
  }

  function FillFor(c: Terms, m: Resting, q: real): TradeFill
    requires c.taker in c.registry && m.id in c.registry
  {
    FillOf(Trade(m.id, c.taker, m.price, q), c.registry[m.id], c.registry[c.taker], c.symbol, c.timestamp)
  }

  // ---------------------------------------------------------------- one trade

  lemma FillForIsOk(c: Terms, m: Resting, q: real)
    requires TermsOk(c) && m.price >= 1.0 && q > 0.0 && m.id in c.registry && c.registry[m.id].side == Other(c.side)
    ensures var buyer, seller := if c.side.Buy? then c.taker else m.id, if c.side.Buy? then m.id else c.taker;
      FillOk(FillFor(c, m, q), c.placed, buyer, seller)
  {
  }

  function BuyerOf(c: Terms, m: Resting): string {
    if c.side.Buy? then c.taker else m.id
  }

  function SellerOf(c: Terms, m: Resting): string {
    if c.side.Buy? then m.id else c.taker
  }

  /** What the taker pays for a trade with this maker, and the maker for its part. */
  function TakerPays(c: Terms, m: Resting, q: real): real {
    Cover(c.side, m.price, q, c.fees)
  }

  function MakerPays(c: Terms, m: Resting, q: real): real {
    if c.side.Buy? then q else Gross(Notional(m.price, q), c.fees.maker)
  }

  /** The maker pays no more than its hold was to cover for this quantity. */
  lemma MakerCost(c: Terms, m: Resting, q: real)
    requires FeesSane(c.fees) && m.price >= 1.0 && 0.0 < q <= m.open
    ensures MakerPays(c, m, q) <= Cover(Other(c.side), m.price, q, c.fees)
    ensures Cover(Other(c.side), m.price, m.open, c.fees)
         == Cover(Other(c.side), m.price, q, c.fees) + Cover(Other(c.side), m.price, m.open - q, c.fees)
    ensures 0.0 <= Cover(Other(c.side), m.price, m.open - q, c.fees)
  {
    hide Gross;
    var n := Notional(m.price, q);
    assert n >= 0.0;
    GrossByFee(n, c.fees.maker, c.fees.taker);
    assert c.side.Sell? ==> Cover(Other(c.side), m.price, q, c.fees) == Gross(n, c.fees.taker);
    assert c.side.Sell? ==> MakerPays(c, m, q) == Gross(n, c.fees.maker);
    CoverSplits(Other(c.side), m.price, m.open, q, c.fees);
    CoverIsMore(Other(c.side), m.price, m.open - q, c.fees);
  }

  ghost predicate TradeOk(c: Terms, l: State, m: Resting, q: real) {
    && TermsOk(c)
    && MakerReady(c, l.holds, m)
    && TradeId(m.id, c.taker) !in l.settled
    && EPSILON < q <= m.open
  }

  lemma CostsOf(c: Terms, m: Resting, q: real)
    requires c.taker in c.registry && c.registry[c.taker].side == c.side && m.id in c.registry
    ensures BuyerCost(FillFor(c, m, q), c.fees) == if c.side.Buy? then TakerPays(c, m, q) else MakerPays(c, m, q)
    ensures FillFor(c, m, q).quantity == if c.side.Buy? then MakerPays(c, m, q) else TakerPays(c, m, q)
  {
    var fill := FillFor(c, m, q);
    assert fill.price == m.price && fill.quantity == q && fill.buyerIsTaker == c.side.Buy?;
  }

  /** A trade is settled exactly if the taker's hold covers it. */
  lemma {:induction false} TakerDecides(c: Terms, l: State, m: Resting, q: real)
    requires TradeOk(c, l, m, q) && FundsOk(l, c.placed)
    ensures Check(l, FillFor(c, m, q), c.fees) != Duplicate
    ensures Check(l, FillFor(c, m, q), c.fees) == Applied <==>
              HoldId(c.taker) in l.holds && l.holds[HoldId(c.taker)].amount >= TakerPays(c, m, q)
  {
    hide LedgerOk, SettledOk, SlackOk, Check, Cover, Gross, NoArrow, PlacedOk, HoldsMatch, BuyerCost;
    FillForIsOk(c, m, q);
    MakerCost(c, m, q);
    CostsOf(c, m, q);
    HoldsDecide(l, c.placed, FillFor(c, m, q), c.fees, BuyerOf(c, m), SellerOf(c, m));
    OwnerMatches(l.holds, c.placed, c.taker);
    OwnerMatches(l.holds, c.placed, m.id);
  }

  lemma OneSettled(c: Terms, l: State, m: Resting, q: real)
    requires TradeOk(c, l, m, q) && FundsOk(l, c.placed) && Check(l, FillFor(c, m, q), c.fees) == Applied
    ensures var l' := Settle(l, FillFor(c, m, q), c.fees).state;
      && FundsOk(l', c.placed)
      && l'.settled == l.settled + {TradeId(m.id, c.taker)}
      && TakenFrom(l.holds, l'.holds, HoldId(c.taker), TakerPays(c, m, q))
      && TakenFrom(l.holds, l'.holds, HoldId(m.id), MakerPays(c, m, q))
      && SameBeside(l.holds, l'.holds, HoldId(c.taker), HoldId(m.id))
  {
    hide FundsOk, Check, Settle, Gross, Cover, NoArrow, TakenFrom, BuyerCost, Covered;
    FillForIsOk(c, m, q);
    CostsOf(c, m, q);
    SettleFunds(l, c.placed, FillFor(c, m, q), c.fees, BuyerOf(c, m), SellerOf(c, m), m.id, c.taker);
  }

  /** The maker's hold still covers what it has left. */
  lemma MakerStaysCovered(c: Terms, l: State, holds': map<string, Hold>, m: Resting, q: real)
    requires TradeOk(c, l, m, q) && TakenFrom(l.holds, holds', HoldId(m.id), MakerPays(c, m, q))
    ensures m.open - q > EPSILON ==>
      && HoldId(m.id) in holds'
      && holds'[HoldId(m.id)].amount >= Cover(Other(c.side), m.price, m.open - q, c.fees)
  {
    hide Gross, Cover, RegistryOk, NoArrow;
    MakerCost(c, m, q);
    CostsOf(c, m, q);
    if m.open - q > EPSILON {
      CoverIsMore(Other(c.side), m.price, m.open - q, c.fees);
    }
  }

  lemma SettleStatus(l: State, fill: TradeFill, fees: FeeSchedule)
    ensures Settle(l, fill, fees).result.status == Check(l, fill, fees)
    ensures Check(l, fill, fees) != Applied ==> Settle(l, fill, fees).state == l
  {
  }

  lemma OwnerMatches(holds: map<string, Hold>, placed: History, id: string)
    requires HoldsMatch(holds, placed)
    ensures HoldId(id) in holds ==>
              && id in placed
              && holds[HoldId(id)].account == placed[id].user
              && holds[HoldId(id)].asset == AssetOf(placed[id].side)
  {
    HoldIdOf(id);
  }

  // ---------------------------------------------------------------- the next trade

  /** Another maker does not notice a trade. */
  lemma OtherMaker(c: Terms, holds: map<string, Hold>, holds': map<string, Hold>, m: Resting, x: Resting)
    requires TermsOk(c) && MakerReady(c, holds, x) && x.id != m.id
    requires SameBeside(holds, holds', HoldId(c.taker), HoldId(m.id))
    ensures MakerReady(c, holds', x)
  {
    hide NoArrow, Cover, RegistryOk;
    HoldsApart(x.id, m.id, c.taker);
  }

  /** After a trade the makers that are left are ready again. */
  lemma MakersAfter(c: Terms, holds: map<string, Hold>, holds': map<string, Hold>, makers: seq<Resting>, q: real)
    requires TermsOk(c) && MakersReady(c, holds, makers) && makers != [] && q <= makers[0].open
    requires SameBeside(holds, holds', HoldId(c.taker), HoldId(makers[0].id))
    requires var m := makers[0]; m.open - q > EPSILON ==>
      && HoldId(m.id) in holds'
      && holds'[HoldId(m.id)].amount >= Cover(Other(c.side), m.price, m.open - q, c.fees)
    ensures MakersReady(c, holds', AfterTrade(makers, q))
  {
    hide NoArrow, Cover, TermsOk, DistinctIds, SameBeside;
    var m := makers[0];
    assert m in makers;
    AfterIsDistinct(makers, q);
    forall x | x in makers[1..] ensures MakerReady(c, holds', x) {
      TailIsApart(makers, x);
      OtherMaker(c, holds, holds', m, x);
    }
  }

  lemma TailIsApart(makers: seq<Resting>, x: Resting)
    requires DistinctIds(makers) && makers != [] && x in makers[1..]
    ensures x in makers && x.id != makers[0].id
  {
    var i :| 0 <= i < |makers[1..]| && makers[1..][i] == x;
    assert makers[i + 1] == x;
  }

  /** Nor are the trades with the makers behind the first settled. */
  lemma UnsettledAfter(c: Terms, settled: set<string>, makers: seq<Resting>, q: real)
    requires Unsettled(c, settled, makers) && makers != [] && DistinctIds(makers) && makers[0].open - q <= EPSILON
    requires forall x | x in makers :: NoArrow(x.id)
    ensures Unsettled(c, settled + {TradeId(makers[0].id, c.taker)}, AfterTrade(makers, q))
  {
    hide NoArrow, TradeId, DistinctIds;
    forall x | x in makers[1..] ensures TradeId(x.id, c.taker) !in settled + {TradeId(makers[0].id, c.taker)} {
      TailIsApart(makers, x);
      assert makers[0] in makers;
      TradesApart(x.id, makers[0].id, c.taker);
    }
  }

  lemma AfterIsDistinct(makers: seq<Resting>, q: real)
    requires DistinctIds(makers) && makers != []
    ensures DistinctIds(AfterTrade(makers, q))
  {
    var after := AfterTrade(makers, q);
    var k := |makers| - |after|;
    forall i, j | 0 <= i < j < |after| ensures after[i].id != after[j].id {
      assert after[i].id == makers[i + k].id && after[j].id == makers[j + k].id;
    }
  }

  lemma HoldsApart(x: string, m: string, t: string)
    requires x != m && x != t
    ensures HoldId(x) != HoldId(m) && HoldId(x) != HoldId(t)
  {
    HoldIdOf(x);
    HoldIdOf(m);
    HoldIdOf(t);
  }

  lemma TradesApart(x: string, m: string, t: string)
    requires NoArrow(x) && NoArrow(m) && x != m
    ensures TradeId(x, t) != TradeId(m, t)
  {
    if TradeId(x, t) == TradeId(m, t) {
      TradeIdIsInjective(x, t, m, t);
    }
  }

  // ---------------------------------------------------------------- one turn of the loop

  /** The trades a match makes from here are about to be settled. */
  ghost predicate Ready(c: Terms, l: State, r: OrderRequest, makers: seq<Resting>, quantity: real) {
    && TermsOk(c)
    && FundsOk(l, c.placed)
    && MakersReady(c, l.holds, makers)
    && r.id == c.taker
    && (quantity > EPSILON ==> Unsettled(c, l.settled, makers))
  }

  predicate Trades(r: OrderRequest, makers: seq<Resting>, quantity: real) {
    quantity > EPSILON && makers != [] && Reaches(r, makers[0].price)
  }

  /** The settlement of the next trade. */
  function NextOf(c: Terms, l: State, makers: seq<Resting>, quantity: real): Settlement
    requires c.taker in c.registry && makers != [] && makers[0].id in c.registry
  {
    Settle(l, FillFor(c, makers[0], Min(quantity, makers[0].open)), c.fees)
  }

  function RunOf(c: Terms, l: State, r: OrderRequest, makers: seq<Resting>, quantity: real): SettleRun {
    SettleTrades(l, c.registry, Fill(r, makers, quantity).trades, c.symbol, c.timestamp, c.fees)
  }

  lemma FirstIsReady(c: Terms, l: State, r: OrderRequest, makers: seq<Resting>, quantity: real)
    requires Ready(c, l, r, makers, quantity) && Trades(r, makers, quantity)
    ensures TradeOk(c, l, makers[0], Min(quantity, makers[0].open))
  {
    hide FundsOk, Cover;
    assert makers[0] in makers;
  }

  lemma OneTurn(c: Terms, l: State, r: OrderRequest, makers: seq<Resting>, quantity: real)
    requires Ready(c, l, r, makers, quantity) && Trades(r, makers, quantity)
    ensures makers[0].id in c.registry
    ensures var s, m, q := NextOf(c, l, makers, quantity), makers[0], Min(quantity, makers[0].open);
      && s.result.status != Duplicate
      && (s.result.status == Applied <==>
            HoldId(c.taker) in l.holds && l.holds[HoldId(c.taker)].amount >= TakerPays(c, m, q))
      && (s.result.status != Applied ==> s.state == l)
      && (s.result.status == Applied ==>
            && Ready(c, s.state, r, AfterTrade(makers, q), quantity - q)
            && TakenFrom(l.holds, s.state.holds, HoldId(c.taker), TakerPays(c, m, q))
            && SameBeside(l.holds, s.state.holds, HoldId(c.taker), HoldId(m.id))
            && s.state.holds.Keys <= l.holds.Keys)
  {
    hide FundsOk, Cover, Check, Settle, RegistryOk, NoArrow, TradeId, MakerPays, TakerPays, AfterTrade, DistinctIds, Reaches;
    var m, q := makers[0], Min(quantity, makers[0].open);
    assert m in makers;
    FirstIsReady(c, l, r, makers, quantity);
    TakerDecides(c, l, m, q);
    SettleStatus(l, FillFor(c, m, q), c.fees);
    if Check(l, FillFor(c, m, q), c.fees) == Applied {
      var l' := NextOf(c, l, makers, quantity).state;
      OneSettled(c, l, m, q);
      MakerStaysCovered(c, l, l'.holds, m, q);
      MakersAfter(c, l.holds, l'.holds, makers, q);
      if quantity - q > EPSILON {
        UnsettledAfter(c, l.settled, makers, q);
      }
    }
  }

  /** The run settles the next trade, and goes on from there if that worked. */
  lemma RunTurns(c: Terms, l: State, r: OrderRequest, makers: seq<Resting>, quantity: real)
    requires Trades(r, makers, quantity) && c.taker in c.registry && makers[0].id in c.registry && r.id == c.taker
    ensures var s, q := NextOf(c, l, makers, quantity), Min(quantity, makers[0].open);
      RunOf(c, l, r, makers, quantity) ==
        if s.result.status != Applied && s.result.status != Duplicate then
          SettleRun(s.state, SettlementRejected, [s.result])
        else
          var rest := RunOf(c, s.state, r, AfterTrade(makers, q), quantity - q);
          rest.(settlements := [s.result] + rest.settlements)
  {
    hide Settle, Reaches, AfterTrade, Fill;
    FillOneTrade(r, makers, quantity);
    var q := Min(quantity, makers[0].open);
    var trades := Fill(r, makers, quantity).trades;
    assert trades[0] == Trade(makers[0].id, c.taker, makers[0].price, q);
    assert trades[1..] == Fill(r, AfterTrade(makers, q), quantity - q).trades;
  }

  lemma NoTurn(c: Terms, l: State, r: OrderRequest, makers: seq<Resting>, quantity: real)
    requires !Trades(r, makers, quantity)
    ensures Fill(r, makers, quantity) == FillResult([], makers, quantity)
    ensures RunOf(c, l, r, makers, quantity) == SettleRun(l, Completed, [])
  {
  }

  // ---------------------------------------------------------------- the whole loop

  /** The holds of everybody but the taker and the makers. */
  ghost predicate Bystanders(holds: map<string, Hold>, holds': map<string, Hold>, makers: seq<Resting>, taker: string) {
    && holds'.Keys <= holds.Keys
    && forall id | id != taker && !Has(makers, id) ::
         (HoldId(id) in holds <==> HoldId(id) in holds') && (HoldId(id) in holds ==> holds'[HoldId(id)] == holds[HoldId(id)])
  }

  lemma BystandersBeside(holds: map<string, Hold>, holds': map<string, Hold>, makers: seq<Resting>, taker: string)
    requires makers != [] && holds'.Keys <= holds.Keys && SameBeside(holds, holds', HoldId(taker), HoldId(makers[0].id))
    ensures Bystanders(holds, holds', makers, taker)
  {
    forall id | id != taker && !Has(makers, id) ensures HoldId(id) != HoldId(taker) && HoldId(id) != HoldId(makers[0].id) {
      assert makers[0].id != id;
      HoldsApart(id, makers[0].id, taker);
    }
  }

  lemma BystandersChain(h: map<string, Hold>, h': map<string, Hold>, h'': map<string, Hold>, makers: seq<Resting>,
                        after: seq<Resting>, taker: string)
    requires Bystanders(h, h', makers, taker) && Bystanders(h', h'', after, taker)
    requires forall id | Has(after, id) :: Has(makers, id)
    ensures Bystanders(h, h'', makers, taker)
  {
  }

  lemma AfterHas(makers: seq<Resting>, q: real, id: string)
    requires makers != []
    ensures Has(AfterTrade(makers, q), id) ==> Has(makers, id)
  {
    var after := AfterTrade(makers, q);
    var k := |makers| - |after|;
    if i :| 0 <= i < |after| && after[i].id == id {
      assert makers[i + k].id == id;
    }
  }

  /** Whether or not every trade can be settled, the funds stay in order and the makers that are left stay
      covered. */
  lemma {:induction false} RunKeeps(c: Terms, l: State, r: OrderRequest, makers: seq<Resting>, quantity: real)
    requires Ready(c, l, r, makers, quantity)
    ensures var run := RunOf(c, l, r, makers, quantity);
      && (run.status == Completed || run.status == SettlementRejected)
      && FundsOk(run.ledger, c.placed)
      && Bystanders(l.holds, run.ledger.holds, makers, c.taker)
      && (forall x | x in Fill(r, makers, quantity).left :: MakerReady(c, run.ledger.holds, x))
    decreases |Fill(r, makers, quantity).trades|
  {
    hide FundsOk, MakerReady, RegistryOk, Settle, Reaches, AfterTrade, Bystanders, Has, TakenFrom, SameBeside, TakerPays, RunOf;
    if !Trades(r, makers, quantity) {
      NoTurn(c, l, r, makers, quantity);
      BystandersSelf(l.holds, makers, c.taker);
    } else {
      var q := Min(quantity, makers[0].open);
      OneTurn(c, l, r, makers, quantity);
      RunTurns(c, l, r, makers, quantity);
      FillOneTrade(r, makers, quantity);
      var s := NextOf(c, l, makers, quantity);
      if s.result.status == Applied {
        RunKeeps(c, s.state, r, AfterTrade(makers, q), quantity - q);
        BystandersBeside(l.holds, s.state.holds, makers, c.taker);
        forall id | Has(AfterTrade(makers, q), id) ensures Has(makers, id) {
          AfterHas(makers, q, id);
        }
        BystandersChain(l.holds, s.state.holds, RunOf(c, l, r, makers, quantity).ledger.holds, makers, AfterTrade(makers, q), c.taker);
      } else {
        BystandersSelf(l.holds, makers, c.taker);
        LeftIsReady(c, l.holds, r, makers, quantity);
      }
    }
  }

  lemma BystandersSelf(holds: map<string, Hold>, makers: seq<Resting>, taker: string)
    ensures Bystanders(holds, holds, makers, taker)
  {
  }

  /** A maker covered for what it has open is covered for what a match leaves of it. */
  lemma {:induction false} LeftIsReady(c: Terms, holds: map<string, Hold>, r: OrderRequest, makers: seq<Resting>, quantity: real)
    requires FeesSane(c.fees) && forall x | x in makers :: MakerReady(c, holds, x)
    ensures forall x | x in Fill(r, makers, quantity).left :: MakerReady(c, holds, x)
  {
    hide NoArrow, Reaches, Cover;
    if Trades(r, makers, quantity) {
      var m, q := makers[0], Min(quantity, makers[0].open);
      assert m in makers && MakerReady(c, holds, m);
      if m.open - q <= EPSILON {
        LeftIsReady(c, holds, r, makers[1..], quantity - q);
      } else {
        CoverGrows(Other(c.side), m.price, m.open - q, m.price, m.open, c.fees);
        assert MakerReady(c, holds, m.(open := m.open - q));
      }
    }
  }

  // ---------------------------------------------------------------- what the taker must have

  function Spend(trades: seq<Trade>, side: Side, fees: FeeSchedule): real {
    if trades == [] then 0.0
    else Cover(side, trades[0].price, trades[0].quantity, fees) + Spend(trades[1..], side, fees)
  }

  lemma {:induction false} SpendIsPositive(trades: seq<Trade>, side: Side, fees: FeeSchedule)
    requires FeesSane(fees) && forall t | t in trades :: t.price >= 1.0 && t.quantity > EPSILON
    ensures Spend(trades, side, fees) >= 0.0
    ensures trades != [] ==> Spend(trades[1..], side, fees) >= 0.0 && Cover(side, trades[0].price, trades[0].quantity, fees) > EPSILON
  {
    hide Cover;
    if trades != [] {
      assert trades[0] in trades;
      SpendIsPositive(trades[1..], side, fees);
      CoverIsMore(side, trades[0].price, trades[0].quantity, fees);
    }
  }

  lemma TradesArePriced(c: Terms, holds: map<string, Hold>, r: OrderRequest, makers: seq<Resting>, quantity: real)
    requires MakersReady(c, holds, makers)
    ensures forall t | t in Fill(r, makers, quantity).trades :: t.price >= 1.0 && t.quantity > EPSILON
  {
    hide NoArrow, Cover, Fill;
    assert forall i | 0 <= i < |makers| :: makers[i] in makers && MakerReady(c, holds, makers[i]);
    FillIsPriceTimePriority(r, makers, quantity);
  }

  /** The taker has `v` left, of which a tolerance may already be out of sight. */
  ghost predicate TakerHas(holds: map<string, Hold>, taker: string, v: real) {
    if HoldId(taker) in holds then holds[HoldId(taker)].amount == v else 0.0 <= v <= EPSILON
  }

  ghost predicate AllApplied(settlements: seq<SettlementResult>) {
    forall i | 0 <= i < |settlements| :: settlements[i].status == Applied
  }

  /** All trades are settled, each once, exactly if the taker has what they cost. */
  lemma {:induction false} TakerMustHave(c: Terms, l: State, r: OrderRequest, makers: seq<Resting>, quantity: real, v: real)
    requires Ready(c, l, r, makers, quantity) && TakerHas(l.holds, c.taker, v) && v >= 0.0
    ensures var run, f := RunOf(c, l, r, makers, quantity), Fill(r, makers, quantity);
      && 0.0 <= Spend(f.trades, c.side, c.fees)
      && (run.status == Completed <==> Spend(f.trades, c.side, c.fees) <= v)
      && (run.status == Completed ==>
            && TakerHas(run.ledger.holds, c.taker, v - Spend(f.trades, c.side, c.fees))
            && |run.settlements| == |f.trades| && AllApplied(run.settlements))
    decreases |Fill(r, makers, quantity).trades|
  {
    hide FundsOk, MakersReady, RegistryOk, Settle, Reaches, AfterTrade, SameBeside, RunOf, Cover, Unsettled, Fill;
    if !Trades(r, makers, quantity) {
      NoTurn(c, l, r, makers, quantity);
    } else {
      var m, q := makers[0], Min(quantity, makers[0].open);
      OneTurn(c, l, r, makers, quantity);
      RunTurns(c, l, r, makers, quantity);
      FillOneTrade(r, makers, quantity);
      var s, f := NextOf(c, l, makers, quantity), Fill(r, makers, quantity);
      var rest := Fill(r, AfterTrade(makers, q), quantity - q);
      assert f.trades[1..] == rest.trades;
      TradesArePriced(c, l.holds, r, makers, quantity);
      SpendIsPositive(f.trades, c.side, c.fees);
      if s.result.status == Applied {
        TakerMustHave(c, s.state, r, AfterTrade(makers, q), quantity - q, v - TakerPays(c, m, q));
      }
    }
  }
}
