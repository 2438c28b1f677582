/** Adding, reopening and removing an order, on the levels, the index and the depth at once. */
module BookLevelsLaws {
  import opened Orders
  import opened OrderBook
  import opened PriceMap
  import opened DepthBook
  import opened BookLevels

  /** The levels one by one, as the recursion over the ladder sees them. */
  ghost predicate Priced(ladder: Ladder, live: Index) {
    forall i | 0 <= i < |ladder| ::
      && ladder[i].value != []
      && DistinctQueue(ladder[i].value)
      && forall id | id in ladder[i].value :: id in live && live[id].price == ladder[i].price
  }

  lemma LevelsArePriced(side: Side, ladder: Ladder, live: Index)
    requires LevelsOk(side, ladder, live)
    ensures Priced(ladder, live)
  {
    forall i | 0 <= i < |ladder|
      ensures QueueOk(side, ladder[i].price, ladder[i].value, live)
    {
      EntryIsLookup(side, ladder, i);
    }
  }

  // ---------------------------------------------------------------- queues

  lemma {:induction false} QueueViewConcat(q: Queue, r: Queue, live: Index)
    ensures QueueView(q + r, live) == QueueView(q, live) + QueueView(r, live)
  {
    if q == [] {
      assert q + r == r;
    } else {
      assert (q + r)[1..] == q[1..] + r;
      QueueViewConcat(q[1..], r, live);
    }
  }

  lemma {:induction false} RemoveFirstKeeps(q: Queue, id: string)
    requires DistinctQueue(q)
    ensures DistinctQueue(RemoveFirst(q, id))
    ensures forall x :: x in RemoveFirst(q, id) <==> x in q && x != id
  {
    if q != [] {
      RemoveFirstKeeps(q[1..], id);
      if q[0] != id {
        var r := RemoveFirst(q, id);
        forall j | 1 <= j < |r| ensures r[j] != q[0] {
          assert r[j] in r[1..] && r[1..] == RemoveFirst(q[1..], id);
        }
      }
    }
  }

  lemma {:induction false} WithoutQueue(q: Queue, live: Index, id: string)
    requires DistinctQueue(q)
    ensures Without(QueueView(q, live), id) == QueueView(RemoveFirst(q, id), live)
  {
    if q != [] {
      WithoutQueue(q[1..], live, id);
      if q[0] == id {
        WithoutAbsent(QueueView(q[1..], live), id);
        QueueViewIds(q[1..], live, id);
      }
    }
  }

  lemma {:induction false} WithoutAbsent(orders: seq<Resting>, id: string)
    ensures !Has(orders, id) ==> Without(orders, id) == orders
  {
    if orders != [] {
      WithoutAbsent(orders[1..], id);
      if !Has(orders, id) {
        assert orders[0].id != id;
        assert forall i | 0 <= i < |orders[1..]| :: orders[1..][i] == orders[i + 1];
      }
    }
  }

  lemma {:induction false} WithoutConcat(a: seq<Resting>, b: seq<Resting>, id: string)
    ensures Without(a + b, id) == Without(a, id) + Without(b, id)
  {
    if a == [] {
      assert a + b == b;
    } else {
      assert (a + b)[1..] == a[1..] + b;
      WithoutConcat(a[1..], b, id);
    }
  }

  lemma {:induction false} InsertSkips(side: Side, a: seq<Resting>, b: seq<Resting>, o: Resting)
    requires forall i | 0 <= i < |a| :: !Better(side, o.price, a[i].price)
    ensures Insert(side, a + b, o) == a + Insert(side, b, o)
  {
    if a == [] {
      assert a + b == b;
    } else {
      assert (a + b)[1..] == a[1..] + b;
      InsertSkips(side, a[1..], b, o);
    }
  }

  // ---------------------------------------------------------------- views

  lemma QueuePrices(ladder: Ladder, live: Index, i: nat)
    requires Priced(ladder, live) && i < |ladder|
    ensures var v := QueueView(ladder[i].value, live);
      v != [] && forall j | 0 <= j < |v| :: v[j].price == ladder[i].price
  {
    var v := QueueView(ladder[i].value, live);
    QueueViewAt(ladder[i].value, live, 0);
    forall j | 0 <= j < |v| ensures v[j].price == ladder[i].price {
      QueueViewAt(ladder[i].value, live, j);
    }
  }

  lemma {:induction false} ViewEnqueue(side: Side, ladder: Ladder, live: Index, price: real, id: string)
    requires Ordered(side, ladder) && Priced(ladder, live)
    requires id in live && live[id].price == price
    ensures SideView(Enqueue(side, ladder, price, id), live)
         == Insert(side, SideView(ladder, live), OrderView(live, id))
  {
    var o := OrderView(live, id);
    if ladder == [] {
      OneOrder(live, price, id);
      assert Enqueue(side, ladder, price, id) == [Entry(price, [] + [id])] + ladder;
    } else {
      QueuePrices(ladder, live, 0);
      var rest := ladder[1..];
      if Better(side, price, ladder[0].price) {
        GetIsLookup(side, ladder, price, []);
        AbsentBelow(side, ladder, price);
        assert Get(ladder, price, []) + [id] == [id];
        assert Enqueue(side, ladder, price, id) == [Entry(price, [id])] + ladder;
        assert QueueView([id], live) == [o];
      } else if ladder[0].price == price {
        JoinLevel(side, ladder, live, id);
      } else {
        ViewEnqueue(side, rest, live, price, id);
        InsertSkips(side, QueueView(ladder[0].value, live), SideView(rest, live), o);
        assert Enqueue(side, ladder, price, id) == [ladder[0]] + Enqueue(side, rest, price, id);
      }
    }
  }

  lemma OneOrder(live: Index, price: real, id: string)
    ensures SideView([Entry(price, [id])], live) == [OrderView(live, id)]
  {
    assert [id][1..] == [] && [Entry(price, [id])][1..] == [];
    assert QueueView([id], live) == [OrderView(live, id)];
  }

  /** Joining the first level comes after it and before every other. */
  lemma JoinLevel(side: Side, ladder: Ladder, live: Index, id: string)
    requires Ordered(side, ladder) && Priced(ladder, live) && ladder != []
    requires id in live && live[id].price == ladder[0].price
    ensures SideView(Enqueue(side, ladder, ladder[0].price, id), live)
         == Insert(side, SideView(ladder, live), OrderView(live, id))
  {
    hide DistinctQueue;
    var o, first, rest := OrderView(live, id), QueueView(ladder[0].value, live), ladder[1..];
    QueuePrices(ladder, live, 0);
    QueueViewConcat(ladder[0].value, [id], live);
    assert QueueView([id], live) == [o];
    InsertSkips(side, first, SideView(rest, live), o);
    assert Enqueue(side, ladder, ladder[0].price, id) == [Entry(ladder[0].price, ladder[0].value + [id])] + rest;
    if rest != [] {
      QueuePrices(ladder, live, 1);
      assert SideView(rest, live)[0] == QueueView(rest[0].value, live)[0];
      assert Better(side, ladder[0].price, rest[0].price);
    }
    assert Insert(side, SideView(rest, live), o) == [o] + SideView(rest, live);
  }

  lemma AbsentBelow(side: Side, ladder: Ladder, price: real)
    requires Ordered(side, ladder) && ladder != [] && Better(side, price, ladder[0].price)
    ensures price !in AsMap(ladder)
  {
    KeysAreEntries(ladder, price);
  }

  lemma {:induction false} ViewDequeue(side: Side, ladder: Ladder, live: Index, price: real, id: string)
    requires Ordered(side, ladder) && Priced(ladder, live)
    requires id in live && live[id].price == price && price in AsMap(ladder)
    ensures SideView(Dequeue(side, ladder, price, id), live) == Without(SideView(ladder, live), id)
  {
    var rest := ladder[1..];
    var first := QueueView(ladder[0].value, live);
    WithoutConcat(first, SideView(rest, live), id);
    WithoutQueue(ladder[0].value, live, id);
    if ladder[0].price == price {
      SideViewIds(rest, live, id);
      WithoutAbsent(SideView(rest, live), id);
    } else {
      KeysAreEntries(ladder, price);
      FirstIsBest(side, ladder, price);
      QueueViewIds(ladder[0].value, live, id);
      WithoutAbsent(first, id);
      ViewDequeue(side, rest, live, price, id);
      assert Dequeue(side, ladder, price, id) == [ladder[0]] + Dequeue(side, rest, price, id);
    }
  }

  // ---------------------------------------------------------------- add_resting_order

  lemma {:induction false} AddKeeps(side: Side, ladder: Ladder, live: Index, depth: seq<Entry<real>>, price: real, id: string, open: real)
    requires IndexOk(side, ladder, live, depth) && id !in live && open > EPSILON
    ensures var live' := live[id := RestingOrder(side, price, open)];
      var ladder' := Enqueue(side, ladder, price, id);
      && IndexOk(side, ladder', live', Applied(side, depth, price, open))
      && SideView(ladder', live') == Insert(side, SideView(ladder, live), Resting(id, price, open))
  {
    var live' := live[id := RestingOrder(side, price, open)];
    AddLevels(side, ladder, live, price, id, open);
    AddPublishes(side, ladder, live, depth, price, id, open);
    LevelsArePriced(side, ladder, live);
    assert Priced(ladder, live');
    ViewEnqueue(side, ladder, live', price, id);
    forall i | 0 <= i < |ladder| ensures SameOn(ladder[i].value, live, live') {}
    SideFrame(ladder, live, live');
  }

  lemma AddLevels(side: Side, ladder: Ladder, live: Index, price: real, id: string, open: real)
    requires LevelsOk(side, ladder, live) && id !in live && open > EPSILON
    ensures var live' := live[id := RestingOrder(side, price, open)];
      LevelsOk(side, Enqueue(side, ladder, price, id), live')
  {
    var live' := live[id := RestingOrder(side, price, open)];
    var q := Get(ladder, price, []);
    GetIsLookup(side, ladder, price, []);
    PutUpdates(side, ladder, price, q + [id]);
    var m := AsMap(Enqueue(side, ladder, price, id));
    forall p | p in m ensures QueueOk(side, p, m[p], live') {
      if p in AsMap(ladder) {
        assert QueueOk(side, p, AsMap(ladder)[p], live);
      }
    }
    forall x | x in live' && live'[x].side == side ensures live'[x].price in m && x in m[live'[x].price] {
      assert x == id ==> x in q + [id];
    }
  }

  lemma AddPublishes(side: Side, ladder: Ladder, live: Index, depth: seq<Entry<real>>, price: real, id: string, open: real)
    requires IndexOk(side, ladder, live, depth) && id !in live && open > EPSILON
    ensures var live' := live[id := RestingOrder(side, price, open)];
      PublishedOk(side, Enqueue(side, ladder, price, id), live', Applied(side, depth, price, open))
  {
    var live' := live[id := RestingOrder(side, price, open)];
    var q := Get(ladder, price, []);
    GetIsLookup(side, ladder, price, []);
    PutUpdates(side, ladder, price, q + [id]);
    AppliedUpdates(side, depth, price, open);
    OtherLevels(side, ladder, live, live', depth, price);
  }

  lemma {:induction false} SumConcat(q: Queue, r: Queue, live: Index)
    ensures SumQueue(q + r, live) == SumQueue(q, live) + SumQueue(r, live)
  {
    if q == [] {
      assert q + r == r;
    } else {
      assert (q + r)[1..] == q[1..] + r;
      SumConcat(q[1..], r, live);
    }
  }

  /** An order that joins a level publishes only itself: the level is published exactly if and only if nobody
      was there. */
  lemma {:induction false} JoinIsExactIfAlone(side: Side, ladder: Ladder, live: Index, depth: seq<Entry<real>>, price: real, id: string, open: real)
    requires IndexOk(side, ladder, live, depth) && id !in live && open > EPSILON
    ensures var live' := live[id := RestingOrder(side, price, open)];
      PublishedExactly(Enqueue(side, ladder, price, id), live', Applied(side, depth, price, open), price)
      <==> price !in AsMap(ladder)
  {
    var live' := live[id := RestingOrder(side, price, open)];
    var q := Get(ladder, price, []);
    GetIsLookup(side, ladder, price, []);
    PutUpdates(side, ladder, price, q + [id]);
    AppliedUpdates(side, depth, price, open);
    SumConcat(q, [id], live');
    assert SumQueue([id], live') == open + SumQueue([], live');
    if price in AsMap(ladder) {
      assert QueueOk(side, price, q, live);
      SumBounds(q, live);
      QueueFrame(q, live, live');
    }
  }

  // ---------------------------------------------------------------- remove_resting_order

  /** The level at `price` publishes its sum, and so does every other level that did before. */
  ghost predicate StaysExact(ladder: Ladder, live: Index, depth: seq<Entry<real>>,
                             ladder': Ladder, live': Index, depth': seq<Entry<real>>, price: real) {
    && PublishedExactly(ladder', live', depth', price)
    && forall p :: PublishedExactly(ladder, live, depth, p) ==> PublishedExactly(ladder', live', depth', p)
  }

  /** `live` may already carry a smaller open quantity for the order to be removed. */
  lemma {:induction false} RemoveKeeps(side: Side, ladder: Ladder, live: Index, depth: seq<Entry<real>>, id: string)
    requires IndexOk(side, ladder, live, depth) && id in live && live[id].side == side
    ensures var p := live[id].price;
      var ladder' := Dequeue(side, ladder, p, id);
      var rest := SumQueue(RemoveFirst(Get(ladder, p, []), id), live);
      && IndexOk(side, ladder', live - {id}, Applied(side, depth, p, rest))
      && StaysExact(ladder, live, depth, ladder', live - {id}, Applied(side, depth, p, rest), p)
      && SideView(ladder', live - {id}) == Without(SideView(ladder, live), id)
  {
    var p, live' := live[id].price, live - {id};
    RemoveLevels(side, ladder, live, id);
    RemovePublishes(side, ladder, live, depth, id);
    LevelsArePriced(side, ladder, live);
    ViewDequeue(side, ladder, live, p, id);
    var ladder' := Dequeue(side, ladder, p, id);
    LevelsArePriced(side, ladder', live');
    forall i | 0 <= i < |ladder'| ensures SameOn(ladder'[i].value, live', live) {}
    SideFrame(ladder', live', live);
  }

  lemma DequeueIs(side: Side, ladder: Ladder, live: Index, id: string)
    requires LevelsOk(side, ladder, live) && id in live && live[id].side == side
    ensures var p := live[id].price;
      && p in AsMap(ladder)
      && Get(ladder, p, []) == AsMap(ladder)[p]
      && var q := RemoveFirst(AsMap(ladder)[p], id);
      && DistinctQueue(q) && (forall x :: x in q <==> x in AsMap(ladder)[p] && x != id)
      && Ordered(side, Dequeue(side, ladder, p, id))
      && AsMap(Dequeue(side, ladder, p, id)) == if q == [] then AsMap(ladder) - {p} else AsMap(ladder)[p := q]
  {
    var p := live[id].price;
    GetIsLookup(side, ladder, p, []);
    assert QueueOk(side, p, AsMap(ladder)[p], live);
    RemoveFirstKeeps(AsMap(ladder)[p], id);
    var q := RemoveFirst(AsMap(ladder)[p], id);
    EraseRemoves(side, ladder, p);
    PutUpdates(side, ladder, p, q);
  }

  lemma RemoveLevels(side: Side, ladder: Ladder, live: Index, id: string)
    requires LevelsOk(side, ladder, live) && id in live && live[id].side == side
    ensures LevelsOk(side, Dequeue(side, ladder, live[id].price, id), live - {id})
  {
    var live' := live - {id};
    DequeueIs(side, ladder, live, id);
    var m := AsMap(Dequeue(side, ladder, live[id].price, id));
    forall p | p in m ensures QueueOk(side, p, m[p], live') {
      assert QueueOk(side, p, AsMap(ladder)[p], live);
    }
    forall x | x in live' && live'[x].side == side ensures live'[x].price in m && x in m[live'[x].price] {
      assert x in live && x in AsMap(ladder)[live[x].price];
    }
  }

  /** Levels of other prices publish what they did. */
  lemma OtherLevels(side: Side, ladder: Ladder, live: Index, live': Index, depth: seq<Entry<real>>, price: real)
    requires IndexOk(side, ladder, live, depth)
    requires forall x | x in live && live[x].price != price :: OrderView(live', x) == OrderView(live, x)
    ensures AsMap(depth).Keys == AsMap(ladder).Keys
    ensures forall p | p in AsMap(ladder) && p != price ::
              p in AsMap(depth) && DepthOk(AsMap(depth)[p], AsMap(ladder)[p], live')
    ensures forall p | p != price :: PublishedExactly(ladder, live, depth, p) ==> PublishedExactly(ladder, live', depth, p)
  {
    forall p | p in AsMap(ladder) && p != price
      ensures p in AsMap(depth).Keys && DepthOk(AsMap(depth)[p], AsMap(ladder)[p], live')
      ensures SumQueue(AsMap(ladder)[p], live') == SumQueue(AsMap(ladder)[p], live)
    {
      assert QueueOk(side, p, AsMap(ladder)[p], live) && DepthOk(AsMap(depth)[p], AsMap(ladder)[p], live);
      QueueFrame(AsMap(ladder)[p], live, live');
    }
  }

  lemma RemovePublishes(side: Side, ladder: Ladder, live: Index, depth: seq<Entry<real>>, id: string)
    requires IndexOk(side, ladder, live, depth) && id in live && live[id].side == side
    ensures var p := live[id].price;
      var rest := SumQueue(RemoveFirst(Get(ladder, p, []), id), live);
      && PublishedOk(side, Dequeue(side, ladder, p, id), live - {id}, Applied(side, depth, p, rest))
      && StaysExact(ladder, live, depth, Dequeue(side, ladder, p, id), live - {id}, Applied(side, depth, p, rest), p)
  {
    var price, live' := live[id].price, live - {id};
    DequeueIs(side, ladder, live, id);
    var q := RemoveFirst(AsMap(ladder)[price], id);
    AppliedUpdates(side, depth, price, SumQueue(q, live));
    assert QueueOk(side, price, AsMap(ladder)[price], live);
    SumBounds(q, live);
    QueueFrame(q, live, live');
    OtherLevels(side, ladder, live, live', depth, price);
    assert Get(ladder, price, []) == AsMap(ladder)[price];
    PublishedAfter(side, Dequeue(side, ladder, price, id), live', Applied(side, depth, price, SumQueue(q, live)),
                   ladder, depth, price, q);
  }

  /** A level was replaced on the ladder and in the depth alike. */
  lemma PublishedAfter(side: Side, ladder': Ladder, live': Index, depth': seq<Entry<real>>,
                       ladder: Ladder, depth: seq<Entry<real>>, price: real, q: Queue)
    requires Ordered(side, depth') && AsMap(depth).Keys == AsMap(ladder).Keys
    requires AsMap(ladder') == if q == [] then AsMap(ladder) - {price} else AsMap(ladder)[price := q]
    requires AsMap(depth') ==
             if SumQueue(q, live') <= 0.0 then AsMap(depth) - {price} else AsMap(depth)[price := SumQueue(q, live')]
    requires q == [] <==> SumQueue(q, live') <= 0.0
    requires forall p | p in AsMap(ladder) && p != price ::
               p in AsMap(depth) && DepthOk(AsMap(depth)[p], AsMap(ladder)[p], live')
    ensures PublishedOk(side, ladder', live', depth')
    ensures PublishedExactly(ladder', live', depth', price)
    ensures forall p | p != price :: PublishedExactly(ladder, live', depth, p) ==> PublishedExactly(ladder', live', depth', p)
  {
    hide SumQueue, AsMap, Ordered;
  }

  // ---------------------------------------------------------------- a partial fill of the first maker

  lemma {:induction false} ReopenKeeps(side: Side, ladder: Ladder, live: Index, depth: seq<Entry<real>>, open: real)
    requires IndexOk(side, ladder, live, depth) && ladder != [] && open > EPSILON
    ensures var q := ladder[0].value;
      && q != [] && q[0] in live
      && var live' := live[q[0] := live[q[0]].(open := open)];
      && IndexOk(side, ladder, live', Applied(side, depth, ladder[0].price, SumQueue(q, live')))
      && StaysExact(ladder, live, depth, ladder, live', Applied(side, depth, ladder[0].price, SumQueue(q, live')), ladder[0].price)
      && SideView(ladder, live) != []
      && SideView(ladder, live') == [SideView(ladder, live)[0].(open := open)] + SideView(ladder, live)[1..]
  {
    FirstOfLadder(side, ladder, live);
    ReopenLevels(side, ladder, live, open);
    ReopenPublishes(side, ladder, live, depth, open);
    ReopenView(side, ladder, live, open);
  }

  lemma ReopenLevels(side: Side, ladder: Ladder, live: Index, open: real)
    requires LevelsOk(side, ladder, live) && ladder != [] && open > EPSILON
    requires ladder[0].value != [] && ladder[0].value[0] in live
    ensures LevelsOk(side, ladder, live[ladder[0].value[0] := live[ladder[0].value[0]].(open := open)])
  {
    var id := ladder[0].value[0];
    var live' := live[id := live[id].(open := open)];
    forall p | p in AsMap(ladder) ensures QueueOk(side, p, AsMap(ladder)[p], live') {
      assert QueueOk(side, p, AsMap(ladder)[p], live);
    }
  }

  lemma ReopenView(side: Side, ladder: Ladder, live: Index, open: real)
    requires LevelsOk(side, ladder, live) && ladder != []
    requires ladder[0].value != [] && ladder[0].value[0] in live
    ensures var live' := live[ladder[0].value[0] := live[ladder[0].value[0]].(open := open)];
      && SideView(ladder, live) != []
      && SideView(ladder, live') == [SideView(ladder, live)[0].(open := open)] + SideView(ladder, live)[1..]
  {
    var q, rest := ladder[0].value, ladder[1..];
    FirstOfLadder(side, ladder, live);
    var live' := live[q[0] := live[q[0]].(open := open)];
    assert SameOn(q[1..], live, live');
    QueueFrame(q[1..], live, live');
    forall i | 0 <= i < |rest| ensures SameOn(rest[i].value, live, live') {
      OnlyInFirst(side, ladder, live, i + 1);
    }
    SideFrame(rest, live, live');
    hide LevelsOk, SideView, QueueView, SumQueue;
    SideCons(ladder, live);
    SideCons(ladder, live');
  }

  lemma SideCons(ladder: Ladder, live: Index)
    requires ladder != [] && ladder[0].value != []
    ensures var q := ladder[0].value;
      SideView(ladder, live) == [OrderView(live, q[0])] + (QueueView(q[1..], live) + SideView(ladder[1..], live))
  {
  }

  lemma ReopenPublishes(side: Side, ladder: Ladder, live: Index, depth: seq<Entry<real>>, open: real)
    requires IndexOk(side, ladder, live, depth) && ladder != [] && open > EPSILON
    requires ladder[0].value != [] && ladder[0].value[0] in live
    ensures var q := ladder[0].value;
      var live' := live[q[0] := live[q[0]].(open := open)];
      && PublishedOk(side, ladder, live', Applied(side, depth, ladder[0].price, SumQueue(q, live')))
      && StaysExact(ladder, live, depth, ladder, live', Applied(side, depth, ladder[0].price, SumQueue(q, live')), ladder[0].price)
  {
    var q, price := ladder[0].value, ladder[0].price;
    FirstOfLadder(side, ladder, live);
    var live' := live[q[0] := live[q[0]].(open := open)];
    assert QueueOk(side, price, q, live);
    SumBounds(q, live');
    AppliedUpdates(side, depth, price, SumQueue(q, live'));
    OtherLevels(side, ladder, live, live', depth, price);
    assert AsMap(ladder)[price := q] == AsMap(ladder);
    PublishedAfter(side, ladder, live', Applied(side, depth, price, SumQueue(q, live')), ladder, depth, price, q);
  }

  /** The first order of the first level is the first order of the view. */
  lemma FirstOfLadder(side: Side, ladder: Ladder, live: Index)
    requires LevelsOk(side, ladder, live) && ladder != []
    ensures ladder[0].price in AsMap(ladder) && AsMap(ladder)[ladder[0].price] == ladder[0].value
    ensures QueueOk(side, ladder[0].price, ladder[0].value, live)
    ensures SideView(ladder, live) != [] && SideView(ladder, live)[0] == OrderView(live, ladder[0].value[0])
  {
    EntryIsLookup(side, ladder, 0);
  }

  lemma OnlyInFirst(side: Side, ladder: Ladder, live: Index, i: nat)
    requires LevelsOk(side, ladder, live) && 0 < i < |ladder|
    ensures ladder[0].value != [] && ladder[0].value[0] !in ladder[i].value
  {
    FirstOfLadder(side, ladder, live);
    EntryIsLookup(side, ladder, i);
    assert QueueOk(side, ladder[i].price, ladder[i].value, live);
    assert Better(side, ladder[0].price, ladder[i].price);
  }

  /** Removing the first maker leaves the rest of the view. */
  lemma RemoveFirstMaker(side: Side, ladder: Ladder, live: Index)
    requires LevelsOk(side, ladder, live) && ladder != []
    ensures ladder[0].value != []
    ensures Without(SideView(ladder, live), ladder[0].value[0]) == SideView(ladder, live)[1..]
  {
    var view, q, rest := SideView(ladder, live), ladder[0].value, ladder[1..];
    FirstOfLadder(side, ladder, live);
    var id := q[0];
    assert view[1..] == QueueView(q[1..], live) + SideView(rest, live);
    QueueViewIds(q[1..], live, id);
    SideViewIds(rest, live, id);
    forall i | 0 <= i < |rest| ensures id !in rest[i].value {
      OnlyInFirst(side, ladder, live, i + 1);
    }
    HasConcat(QueueView(q[1..], live), SideView(rest, live), id);
    WithoutAbsent(view[1..], id);
  }

  // ---------------------------------------------------------------- one level for each distinct price

  lemma {:induction false} PricesOfLevel(queue: seq<Resting>, rest: seq<Resting>, price: real)
    requires queue != [] && forall i | 0 <= i < |queue| :: queue[i].price == price
    requires rest != [] ==> rest[0].price != price
    ensures DistinctPrices(queue + rest) == [price] + DistinctPrices(rest)
  {
    assert (queue + rest)[1..] == queue[1..] + rest;
    if |queue| == 1 {
      assert queue[1..] + rest == rest;
      FirstDistinct(rest);
    } else {
      PricesOfLevel(queue[1..], rest, price);
    }
  }

  lemma {:induction false} FirstDistinct(orders: seq<Resting>)
    ensures orders != [] ==> DistinctPrices(orders) != [] && DistinctPrices(orders)[0] == orders[0].price
    ensures orders == [] ==> DistinctPrices(orders) == []
  {
  }

  /** The distinct prices of a side are those of its levels. */
  lemma {:induction false} LevelPrices(side: Side, ladder: Ladder, live: Index)
    requires Ordered(side, ladder) && Priced(ladder, live)
    ensures |DistinctPrices(SideView(ladder, live))| == |ladder|
    ensures forall i | 0 <= i < |ladder| :: DistinctPrices(SideView(ladder, live))[i] == ladder[i].price
  {
    hide DistinctQueue, DistinctPrices;
    if ladder == [] {
      FirstDistinct(SideView(ladder, live));
    } else {
      var first, rest := QueueView(ladder[0].value, live), SideView(ladder[1..], live);
      QueuePrices(ladder, live, 0);
      if |ladder| > 1 {
        QueuePrices(ladder, live, 1);
        assert rest[0] == QueueView(ladder[1].value, live)[0];
        assert Better(side, ladder[0].price, ladder[1].price);
      }
      LevelPrices(side, ladder[1..], live);
      PricesOfLevel(first, rest, ladder[0].price);
      assert forall i | 1 <= i < |ladder| :: ladder[i] == ladder[1..][i - 1];
    }
  }
}
