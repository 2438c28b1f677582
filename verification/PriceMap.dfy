/**
A map from prices to values in the iteration order of one side of the book: `std::map<double, V, Cmp>`,
with `std::greater` for bids and `std::less` for asks, as the sequence its iterator visits.
*/
module PriceMap {
  import opened Orders

  datatype Entry<V> = Entry(price: real, value: V)

  ghost predicate Ordered<V>(side: Side, m: seq<Entry<V>>) {
    forall i, j | 0 <= i < j < |m| :: Better(side, m[i].price, m[j].price)
  }

  ghost function AsMap<V>(m: seq<Entry<V>>): map<real, V> {
    if m == [] then map[] else AsMap(m[1..])[m[0].price := m[0].value]
  }

  /** `m[price]`, or a default. */
  function Get<V>(m: seq<Entry<V>>, price: real, default: V): V {
    if m == [] then default else if m[0].price == price then m[0].value else Get(m[1..], price, default)
  }

  /** `m[price] = value`. */
  function Put<V>(side: Side, m: seq<Entry<V>>, price: real, value: V): seq<Entry<V>> {
    if m == [] || Better(side, price, m[0].price) then [Entry(price, value)] + m
    else if m[0].price == price then [Entry(price, value)] + m[1..]
    else [m[0]] + Put(side, m[1..], price, value)
  }

  /** `erase(price)`. */
  function Erase<V>(m: seq<Entry<V>>, price: real): seq<Entry<V>> {
    if m == [] then [] else if m[0].price == price then m[1..] else [m[0]] + Erase(m[1..], price)
  }

  lemma {:induction false} KeysAreEntries<V>(m: seq<Entry<V>>, price: real)
    ensures price in AsMap(m) <==> exists i | 0 <= i < |m| :: m[i].price == price
  {
    if m != [] {
      KeysAreEntries(m[1..], price);
      if i :| 0 <= i < |m| && m[i].price == price {
        assert i > 0 ==> m[1..][i - 1].price == price;
      }
      if j :| 0 <= j < |m[1..]| && m[1..][j].price == price {
        assert m[j + 1].price == price;
      }
    }
  }

  lemma {:induction false} GetIsLookup<V>(side: Side, m: seq<Entry<V>>, price: real, default: V)
    ensures Get(m, price, default) == if price in AsMap(m) then AsMap(m)[price] else default
  {
    if m != [] {
      GetIsLookup(side, m[1..], price, default);
    }
  }

  /** The first entry is the best price. */
  lemma {:induction false} FirstIsBest<V>(side: Side, m: seq<Entry<V>>, price: real)
    requires Ordered(side, m) && m != []
    ensures m[0].price in AsMap(m) && AsMap(m)[m[0].price] == m[0].value
    ensures price in AsMap(m) ==> price == m[0].price || Better(side, m[0].price, price)
  {
    KeysAreEntries(m, price);
  }

  lemma {:induction false} PutUpdates<V>(side: Side, m: seq<Entry<V>>, price: real, value: V)
    requires Ordered(side, m)
    ensures Ordered(side, Put(side, m, price, value))
    ensures AsMap(Put(side, m, price, value)) == AsMap(m)[price := value]
  {
    var m' := Put(side, m, price, value);
    if m == [] || Better(side, price, m[0].price) {
      assert m'[1..] == m;
    } else if m[0].price == price {
      assert m'[1..] == m[1..];
    } else {
      PutUpdates(side, m[1..], price, value);
      var rest := Put(side, m[1..], price, value);
      assert m'[1..] == rest;
      forall j | 1 <= j < |m'| ensures Better(side, m'[0].price, m'[j].price) {
        KeysAreEntries(rest, m'[j].price);
        assert rest[j - 1] == m'[j];
        FirstIsBest(side, m, m'[j].price);
      }
    }
  }

  lemma {:induction false} EraseRemoves<V>(side: Side, m: seq<Entry<V>>, price: real)
    requires Ordered(side, m)
    ensures Ordered(side, Erase(m, price))
    ensures AsMap(Erase(m, price)) == AsMap(m) - {price}
  {
    if m != [] {
      var m' := Erase(m, price);
      if m[0].price == price {
        KeysAreEntries(m[1..], price);
        assert forall i | 0 <= i < |m[1..]| :: m[1..][i] == m[i + 1];
        assert AsMap(m) - {price} == AsMap(m[1..]);
      } else {
        EraseRemoves(side, m[1..], price);
        var rest := Erase(m[1..], price);
        assert m'[1..] == rest;
        forall j | 1 <= j < |m'| ensures Better(side, m'[0].price, m'[j].price) {
          KeysAreEntries(rest, m'[j].price);
          assert rest[j - 1] == m'[j];
          FirstIsBest(side, m, m'[j].price);
        }
      }
    }
  }

  /** Two maps with the same keys on one side have the same best price. */
  lemma SameBest<V, U>(side: Side, m: seq<Entry<V>>, n: seq<Entry<U>>)
    requires Ordered(side, m) && Ordered(side, n) && AsMap(m).Keys == AsMap(n).Keys
    ensures m == [] <==> n == []
    ensures m != [] ==> m[0].price == n[0].price
  {
    if m != [] {
      assert m[0].price in AsMap(m).Keys;
    }
    if n != [] {
      assert n[0].price in AsMap(n).Keys;
    }
    if m != [] && n != [] {
      FirstIsBest(side, m, n[0].price);
      FirstIsBest(side, n, m[0].price);
    }
  }

  lemma RestKeys<V>(side: Side, m: seq<Entry<V>>)
    requires Ordered(side, m) && m != []
    ensures Ordered(side, m[1..]) && AsMap(m[1..]).Keys == AsMap(m).Keys - {m[0].price}
  {
    KeysAreEntries(m[1..], m[0].price);
    assert forall i | 0 <= i < |m[1..]| :: m[1..][i] == m[i + 1];
  }

  /** And the same prices all along. */
  lemma {:induction false} SamePrices<V, U>(side: Side, m: seq<Entry<V>>, n: seq<Entry<U>>)
    requires Ordered(side, m) && Ordered(side, n) && AsMap(m).Keys == AsMap(n).Keys
    ensures |m| == |n| && forall i | 0 <= i < |m| :: m[i].price == n[i].price
  {
    hide AsMap, Ordered;
    SameBest(side, m, n);
    if m != [] {
      RestKeys(side, m);
      RestKeys(side, n);
      SamePrices(side, m[1..], n[1..]);
      assert forall i | 1 <= i < |m| :: m[i] == m[1..][i - 1] && n[i] == n[1..][i - 1];
    }
  }
}
