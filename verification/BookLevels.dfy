/**
One side of the book as the engine stores it: price levels that queue order ids, an index from ids to
resting orders, and the published depth. A `RestingOrder*` of the source is its key in the index, so what
is written through one pointer is seen through all of them.
*/
module BookLevels {
  import opened Orders
  import opened OrderBook
  import opened PriceMap
  import opened DepthBook

  datatype RestingOrder = RestingOrder(side: Side, price: real, open: real)

  type Queue = seq<string>
  type Ladder = seq<Entry<Queue>>
  type Index = map<string, RestingOrder>

  // ---------------------------------------------------------------- what a side means

  function OrderView(live: Index, id: string): Resting {
    if id in live then Resting(id, live[id].price, live[id].open) else Resting(id, 0.0, 0.0)
  }

  function QueueView(q: Queue, live: Index): seq<Resting> {
    if q == [] then [] else [OrderView(live, q[0])] + QueueView(q[1..], live)
  }

  /** The side flattened in price, then arrival order. */
  function SideView(ladder: Ladder, live: Index): seq<Resting> {
    if ladder == [] then [] else QueueView(ladder[0].value, live) + SideView(ladder[1..], live)
  }

  function SumQueue(q: Queue, live: Index): real {
    if q == [] then 0.0 else OrderView(live, q[0]).open + SumQueue(q[1..], live)
  }

  // ---------------------------------------------------------------- operations on the queues

  /** `std::find` and `erase` in a queue. */
  function RemoveFirst(q: Queue, id: string): Queue {
    if q == [] then [] else if q[0] == id then q[1..] else [q[0]] + RemoveFirst(q[1..], id)
  }

  function Enqueue(side: Side, ladder: Ladder, price: real, id: string): Ladder {
    Put(side, ladder, price, Get(ladder, price, []) + [id])
  }

  function Dequeue(side: Side, ladder: Ladder, price: real, id: string): Ladder {
    var q := RemoveFirst(Get(ladder, price, []), id);
    if q == [] then Erase(ladder, price) else Put(side, ladder, price, q)
  }

  // ---------------------------------------------------------------- the agreement of the three indices

  ghost predicate DistinctQueue(q: Queue) {
    forall i, j | 0 <= i < j < |q| :: q[i] != q[j]
  }

  /** A level is not empty, and queues live orders of its own side and price, each once and open. */
  ghost predicate QueueOk(side: Side, price: real, q: Queue, live: Index) {
    && q != []
    && DistinctQueue(q)
    && forall id | id in q :: id in live && live[id].side == side && live[id].price == price && live[id].open > EPSILON
  }

  /** The published quantity is the level's sum, or only that of the order that joined it last. */
  ghost predicate DepthOk(published: real, q: Queue, live: Index) {
    published == SumQueue(q, live) || (q != [] && published == OrderView(live, q[|q| - 1]).open)
  }

  /** The published quantity of a level, if there is one, is the level's sum. */
  ghost predicate PublishedExactly(ladder: Ladder, live: Index, depth: seq<Entry<real>>, price: real) {
    price in AsMap(ladder) ==> price in AsMap(depth) && AsMap(depth)[price] == SumQueue(AsMap(ladder)[price], live)
  }

  ghost predicate LevelsOk(side: Side, ladder: Ladder, live: Index) {
    && Ordered(side, ladder)
    && (forall p | p in AsMap(ladder) :: QueueOk(side, p, AsMap(ladder)[p], live))
    && (forall id | id in live && live[id].side == side ::
          live[id].price in AsMap(ladder) && id in AsMap(ladder)[live[id].price])
  }

  ghost predicate PublishedOk(side: Side, ladder: Ladder, live: Index, depth: seq<Entry<real>>) {
    && Ordered(side, depth)
    && AsMap(depth).Keys == AsMap(ladder).Keys
    && (forall p | p in AsMap(ladder) :: DepthOk(AsMap(depth)[p], AsMap(ladder)[p], live))
  }

  ghost predicate IndexOk(side: Side, ladder: Ladder, live: Index, depth: seq<Entry<real>>) {
    LevelsOk(side, ladder, live) && PublishedOk(side, ladder, live, depth)
  }

  /** Hence the published quantity is positive and never above the level's sum. */
  lemma {:induction false} PublishedIsBounded(side: Side, ladder: Ladder, live: Index, depth: seq<Entry<real>>, p: real)
    requires IndexOk(side, ladder, live, depth) && p in AsMap(ladder)
    ensures p in AsMap(depth) && 0.0 < AsMap(depth)[p] <= SumQueue(AsMap(ladder)[p], live)
  {
    var q := AsMap(ladder)[p];
    assert p in AsMap(ladder).Keys;
    assert QueueOk(side, p, q, live);
    SumBounds(q, live);
  }

  lemma {:induction false} SumBounds(q: Queue, live: Index)
    requires forall id | id in q :: id in live && live[id].open > EPSILON
    ensures SumQueue(q, live) >= 0.0
    ensures q != [] ==> 0.0 < OrderView(live, q[|q| - 1]).open <= SumQueue(q, live)
  {
    if q != [] {
      SumBounds(q[1..], live);
      if |q| > 1 {
        assert q[1..][|q| - 2] == q[|q| - 1];
      }
    }
  }

  // ---------------------------------------------------------------- frames

  ghost predicate SameOn(q: Queue, live: Index, live': Index) {
    forall id | id in q :: OrderView(live', id) == OrderView(live, id)
  }

  lemma {:induction false} QueueFrame(q: Queue, live: Index, live': Index)
    requires SameOn(q, live, live')
    ensures QueueView(q, live') == QueueView(q, live) && SumQueue(q, live') == SumQueue(q, live)
  {
    if q != [] {
      assert SameOn(q[1..], live, live');
      QueueFrame(q[1..], live, live');
    }
  }

  lemma {:induction false} SideFrame(ladder: Ladder, live: Index, live': Index)
    requires forall i | 0 <= i < |ladder| :: SameOn(ladder[i].value, live, live')
    ensures SideView(ladder, live') == SideView(ladder, live)
  {
    if ladder != [] {
      QueueFrame(ladder[0].value, live, live');
      SideFrame(ladder[1..], live, live');
    }
  }

  /** An order of the other side can come, change and go without this side noticing. */
  lemma {:induction false} OtherSideFrame(side: Side, ladder: Ladder, live: Index, live': Index, depth: seq<Entry<real>>)
    requires IndexOk(side, ladder, live, depth)
    requires forall id | id in live && live[id].side == side :: id in live' && live'[id] == live[id]
    requires forall id | id in live' && live'[id].side == side :: id in live && live[id] == live'[id]
    ensures IndexOk(side, ladder, live', depth)
    ensures SideView(ladder, live') == SideView(ladder, live)
    ensures forall p :: PublishedExactly(ladder, live, depth, p) ==> PublishedExactly(ladder, live', depth, p)
  {
    forall p | p in AsMap(ladder)
      ensures QueueOk(side, p, AsMap(ladder)[p], live') && DepthOk(AsMap(depth)[p], AsMap(ladder)[p], live')
      ensures SumQueue(AsMap(ladder)[p], live') == SumQueue(AsMap(ladder)[p], live)
    {
      assert QueueOk(side, p, AsMap(ladder)[p], live) && DepthOk(AsMap(depth)[p], AsMap(ladder)[p], live);
      QueueFrame(AsMap(ladder)[p], live, live');
    }
    forall i | 0 <= i < |ladder| ensures SameOn(ladder[i].value, live, live') {
      EntryIsLookup(side, ladder, i);
      assert QueueOk(side, ladder[i].price, ladder[i].value, live);
    }
    SideFrame(ladder, live, live');
  }

  lemma {:induction false} EntryIsLookup<V>(side: Side, m: seq<Entry<V>>, i: nat)
    requires Ordered(side, m) && i < |m|
    ensures m[i].price in AsMap(m) && AsMap(m)[m[i].price] == m[i].value
  {
    if i > 0 {
      assert Ordered(side, m[1..]);
      EntryIsLookup(side, m[1..], i - 1);
      assert Better(side, m[0].price, m[i].price);
    }
  }

  lemma AppliedUpdates(side: Side, levels: seq<Entry<real>>, price: real, quantity: real)
    requires Ordered(side, levels)
    ensures Ordered(side, Applied(side, levels, price, quantity))
    ensures AsMap(Applied(side, levels, price, quantity)) ==
            if quantity <= 0.0 then AsMap(levels) - {price} else AsMap(levels)[price := quantity]
  {
    EraseRemoves(side, levels, price);
    PutUpdates(side, levels, price, quantity);
  }

  // ---------------------------------------------------------------- the view is a well-formed side

  lemma {:induction false} QueueViewAt(q: Queue, live: Index, i: nat)
    ensures |QueueView(q, live)| == |q|
    ensures i < |q| ==> QueueView(q, live)[i] == OrderView(live, q[i])
  {
    if q != [] {
      QueueViewAt(q[1..], live, if i > 0 then i - 1 else 0);
    }
  }

  lemma QueueViewIds(q: Queue, live: Index, id: string)
    ensures Has(QueueView(q, live), id) <==> id in q
  {
    QueueViewAt(q, live, 0);
    forall i | 0 <= i < |q| ensures QueueView(q, live)[i].id == q[i] {
      QueueViewAt(q, live, i);
    }
  }

  lemma HasConcat(a: seq<Resting>, b: seq<Resting>, id: string)
    ensures Has(a + b, id) <==> Has(a, id) || Has(b, id)
  {
    var c := a + b;
    if Has(a, id) {
      var i :| 0 <= i < |a| && a[i].id == id;
      assert c[i].id == id;
    }
    if Has(b, id) {
      var i :| 0 <= i < |b| && b[i].id == id;
      assert c[|a| + i].id == id;
    }
    if Has(c, id) {
      var i :| 0 <= i < |c| && c[i].id == id;
      assert if i < |a| then a[i].id == id else b[i - |a|].id == id;
    }
  }

  lemma {:induction false} SideViewIds(ladder: Ladder, live: Index, id: string)
    ensures Has(SideView(ladder, live), id) <==> exists i | 0 <= i < |ladder| :: id in ladder[i].value
  {
    if ladder != [] {
      var rest := ladder[1..];
      SideViewIds(rest, live, id);
      QueueViewIds(ladder[0].value, live, id);
      HasConcat(QueueView(ladder[0].value, live), SideView(rest, live), id);
      if i :| 0 <= i < |ladder| && id in ladder[i].value {
        assert i > 0 ==> rest[i - 1] == ladder[i];
      }
      if i :| 0 <= i < |rest| && id in rest[i].value {
        assert ladder[i + 1] == rest[i];
      }
    }
  }

  /** The orders of a side are exactly the live orders of that side. */
  lemma ViewHasLive(side: Side, ladder: Ladder, live: Index, id: string)
    requires LevelsOk(side, ladder, live)
    ensures Has(SideView(ladder, live), id) <==> id in live && live[id].side == side
  {
    SideViewIds(ladder, live, id);
    if id in live && live[id].side == side {
      KeysAreEntries(ladder, live[id].price);
      var i :| 0 <= i < |ladder| && ladder[i].price == live[id].price;
      EntryIsLookup(side, ladder, i);
    }
    if i :| 0 <= i < |ladder| && id in ladder[i].value {
      EntryIsLookup(side, ladder, i);
      assert QueueOk(side, ladder[i].price, ladder[i].value, live);
    }
  }
}
