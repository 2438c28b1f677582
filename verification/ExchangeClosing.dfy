/** Releasing what is left of the holds of closed orders, and telling the risk engine what rests. */
module ExchangeClosing {
  import opened Orders
  import opened OrderBook
  import opened Ledger
  import opened LedgerLaws
  import opened RiskEngine
  import opened Exchange
  import opened ExchangeInvariant
  import opened ExchangeFunds

  /** The holds of the orders that rest are as they were. */
  ghost predicate HoldsOfResting(holds: map<string, Hold>, holds': map<string, Hold>, b: Book) {
    forall id | Rests(b, id) && HoldId(id) in holds :: HoldId(id) in holds' && holds'[HoldId(id)] == holds[HoldId(id)]
  }

  function Kept(registry: map<string, Managed>, scan: seq<string>, b: Book): map<string, Managed> {
    map id | id in registry && (Rests(b, id) || id !in scan) :: registry[id]
  }

  lemma KeptTail(registry: map<string, Managed>, scan: seq<string>, b: Book)
    requires scan != []
    ensures Rests(b, scan[0]) || scan[0] !in registry ==> Kept(registry, scan, b) == Kept(registry, scan[1..], b)
    ensures !Rests(b, scan[0]) ==> Kept(registry, scan, b) == Kept(registry - {scan[0]}, scan[1..], b)
  {
    assert forall id :: id in scan <==> id == scan[0] || id in scan[1..];
  }

  lemma DustStep(holds: map<string, Hold>, holds': map<string, Hold>, placed: History, registry: map<string, Managed>, id: string)
    requires DustOk(holds, placed, registry)
    requires holds' == holds || holds' == holds - {HoldId(id)}
    requires HoldId(id) in holds' ==> holds'[HoldId(id)].amount <= EPSILON
    ensures DustOk(holds', placed, registry - {id})
  {
  }

  /** Releasing never fails, keeps the funds in order and leaves at most dust behind. */
  lemma {:induction false} ClosingKeeps(l: State, registry: map<string, Managed>, scan: seq<string>, b: Book, timestamp: int,
                                        placed: History, symbol: string)
    requires FundsOk(l, placed) && RegistryOk(registry, placed, symbol) && DustOk(l.holds, placed, registry)
    ensures var c := ReleaseClosed(l, registry, scan, b, timestamp);
      && c.status == Completed
      && FundsOk(c.ledger, placed)
      && DustOk(c.ledger.holds, placed, c.registry)
      && c.registry == Kept(registry, scan, b)
      && HoldsOfResting(l.holds, c.ledger.holds, b)
      && c.ledger.settled == l.settled
    decreases |scan|
  {
    hide FundsOk, Rests, ReleaseResidual, DustOk, Kept;
    if scan == [] {
      KeptNone(registry, b);
    } else {
      KeptTail(registry, scan, b);
      if Rests(b, scan[0]) || scan[0] !in registry {
        ClosingKeeps(l, registry, scan[1..], b, timestamp, placed, symbol);
      } else {
        var id := scan[0];
        var d := ReleaseResidual(l, HoldId(id), timestamp);
        ReleaseFunds(l, placed, id, timestamp);
        DustStep(l.holds, d.state.holds, placed, registry, id);
        ClosingKeeps(d.state, registry - {id}, scan[1..], b, timestamp, placed, symbol);
        RestingStep(l.holds, d.state.holds, ReleaseClosed(d.state, registry - {id}, scan[1..], b, timestamp).ledger.holds, b, id);
      }
    }
  }

  lemma KeptNone(registry: map<string, Managed>, b: Book)
    ensures Kept(registry, [], b) == registry
  {
  }

  lemma RestingStep(h: map<string, Hold>, h': map<string, Hold>, h'': map<string, Hold>, b: Book, id: string)
    requires !Rests(b, id) && (h' == h || h' == h - {HoldId(id)}) && HoldsOfResting(h', h'', b)
    ensures HoldsOfResting(h, h'', b)
  {
    hide Rests;
    forall x | Rests(b, x) ensures HoldId(x) != HoldId(id) {
      HoldIdOf(x);
      HoldIdOf(id);
    }
  }

  // ---------------------------------------------------------------- the world after closing

  ghost predicate AllManaged(b: Book, registry: map<string, Managed>) {
    forall id | Rests(b, id) :: id in registry
  }

  lemma RestingIsManaged(b: Book, registry: map<string, Managed>, placed: History, symbol: string, tick: real)
    requires OwnersOk(b, registry, placed, symbol, tick)
    ensures AllManaged(b, registry)
  {
    forall id | Rests(b, id) ensures id in registry {
      if Has(b.bids, id) {
        var i :| 0 <= i < |b.bids| && b.bids[i].id == id;
        assert b.bids[i] in b.bids;
      } else {
        var i :| 0 <= i < |b.asks| && b.asks[i].id == id;
        assert b.asks[i] in b.asks;
      }
    }
  }

  lemma InRests(b: Book, x: Resting)
    ensures x in b.bids || x in b.asks ==> Rests(b, x.id)
  {
    if x in b.bids {
      var i :| 0 <= i < |b.bids| && b.bids[i] == x;
      assert b.bids[i].id == x.id;
    } else if x in b.asks {
      var i :| 0 <= i < |b.asks| && b.asks[i] == x;
      assert b.asks[i].id == x.id;
    }
  }

  /** Narrowing the registry to the resting orders keeps the owners and the cover of the book. */
  lemma KeptOwners(b: Book, registry: map<string, Managed>, scan: seq<string>, placed: History, symbol: string, tick: real)
    requires OwnersOk(b, registry, placed, symbol, tick)
    ensures OwnersOk(b, Kept(registry, scan, b), placed, symbol, tick)
  {
    hide BookOk, PriceOk, Rests;
    forall x | x in b.bids || x in b.asks ensures Rests(b, x.id) {
      InRests(b, x);
    }
  }

  lemma KeptCover(b: Book, holds: map<string, Hold>, holds': map<string, Hold>, fees: FeeSchedule)
    requires BookCovered(holds, b, fees) && HoldsOfResting(holds, holds', b)
    ensures BookCovered(holds', b, fees)
  {
    hide Rests, Cover;
    forall x | x in b.bids || x in b.asks ensures Rests(b, x.id) {
      InRests(b, x);
    }
  }

  lemma CloseKeeps(w: World, placed: History, tick: real, scan: seq<string>, timestamp: int)
    requires Core(w, placed, tick) && IsScan(scan, w.registry, w.symbol)
    ensures var c := ReleaseClosed(w.ledger, w.registry, scan, w.book, timestamp);
      var w' := w.(ledger := c.ledger, registry := c.registry);
      && c.status == Completed
      && Core(w', placed, tick)
      && Clean(w')
      && c.registry.Keys <= w.registry.Keys
      && c.ledger.settled == w.ledger.settled
  {
    hide FundsOk, DustOk, BookCovered, HoldsOfResting, Rests, BookOk, RestingOk;
    var c := ReleaseClosed(w.ledger, w.registry, scan, w.book, timestamp);
    ClosingKeeps(w.ledger, w.registry, scan, w.book, timestamp, placed, w.symbol);
    KeptOwners(w.book, w.registry, scan, placed, w.symbol, tick);
    KeptCover(w.book, w.ledger.holds, c.ledger.holds, w.fees);
    RestingIsManaged(w.book, w.registry, placed, w.symbol, tick);
  }

  // ---------------------------------------------------------------- tracking

  lemma ResterKnown(w: World, x: Resting, side: Side)
    requires x in w.book.Of(side) && x.open > 0.0 && x.id in w.registry && w.registry[x.id].side == side
    ensures Knows(Synced(w).tracked, w.registry[x.id].user, side, x.price)
  {
    assert x in Resters(w.book, w.registry);
    assert TrackedAs(x, w.registry[x.id]) in Synced(w).tracked;
  }

  /** After a sync the risk engine knows every resting order, and no other. */
  lemma SyncTracks(w: World, placed: History, tick: real)
    requires OwnersOk(w.book, w.registry, placed, w.symbol, tick)
    requires forall t | t in w.tracked :: t.user in w.restingUsers
    ensures var w' := Synced(w);
      && TrackedOk(w')
      && w'.tracked == (set x | x in Resters(w.book, w.registry) :: TrackedAs(x, w.registry[x.id]))
      && (forall t | t in w'.tracked :: t.user in w'.restingUsers)
  {
    hide PriceOk, RegistryOk, Uncrossed, NoSharedId, Sorted, DistinctIds;
    var w' := Synced(w);
    forall x | x in w.book.bids ensures Knows(w'.tracked, w.registry[x.id].user, Buy, x.price) {
      ResterKnown(w, x, Buy);
    }
    forall x | x in w.book.asks ensures Knows(w'.tracked, w.registry[x.id].user, Sell, x.price) {
      ResterKnown(w, x, Sell);
    }
    forall t | t in w'.tracked
      ensures exists x | x in Resters(w.book, w.registry) :: t == TrackedAs(x, w.registry[x.id])
    {
    }
  }

  lemma {:induction false} SyncKeeps(w: World, placed: History, tick: real)
    requires Core(w, placed, tick) && forall t | t in w.tracked :: t.user in w.restingUsers
    ensures Inv(Synced(w), placed, tick)
    ensures Synced(w).tracked == set x | x in Resters(w.book, w.registry) :: TrackedAs(x, w.registry[x.id])
  {
    hide FundsOk, DustOk, BookCovered, OwnersOk, TrackedOk;
    SyncTracks(w, placed, tick);
  }

  lemma RefreshKeeps(w: World, placed: History, tick: real)
    requires Inv(w, placed, tick)
    ensures Inv(Refreshed(w), placed, tick)
  {
    hide Core;
    assert Core(Refreshed(w), placed, tick) by {
      CoreIgnoresQuotes(w, placed, tick);
    }
  }

  lemma CoreIgnoresQuotes(w: World, placed: History, tick: real)
    requires Core(w, placed, tick)
    ensures Core(Refreshed(w), placed, tick)
  {
  }
}
