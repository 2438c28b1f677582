/** The published depth: one quantity per price level of each side. */
module DepthBook {
  import opened Orders
  import opened PriceMap

  /** A quantity of zero or less removes the level. */
  function Applied(side: Side, levels: seq<Entry<real>>, price: real, quantity: real): seq<Entry<real>> {
    if quantity <= 0.0 then Erase(levels, price) else Put(side, levels, price, quantity)
  }

  /** The first `depth` levels; a depth of zero never matches the count and gives all of them. */
  function Top(levels: seq<Entry<real>>, depth: nat): seq<Entry<real>> {
    if 0 < depth < |levels| then levels[..depth] else levels
  }

  class Depth {
    var bids: seq<Entry<real>>
    var asks: seq<Entry<real>>

    constructor ()
      ensures bids == [] && asks == []
    {
      bids, asks := [], [];
    }

    function Of(side: Side): seq<Entry<real>>
      reads this
    {
      if side.Buy? then bids else asks
    }

    method Update(side: Side, price: real, quantity: real)
      modifies this
      ensures Of(side) == Applied(side, old(Of(side)), price, quantity)
      ensures Of(Other(side)) == old(Of(Other(side)))
    {
      var levels := Of(side);
      if quantity <= 0.0 {
        levels := Erase(levels, price);
      } else {
        levels := Put(side, levels, price, quantity);
      }
      if side.Buy? {
        bids := levels;
      } else {
        asks := levels;
      }
    }

    method AppendLevels(side: Side, depth: nat) returns (output: seq<Entry<real>>)
      ensures output == Top(Of(side), depth)
      ensures |output| == (if 0 < depth < |Of(side)| then depth else |Of(side)|) && output == Of(side)[..|output|]
    {
      output := [];
      var levels := Of(side);
      var count := 0;
      for i := 0 to |levels|
        invariant count == i && output == levels[..i]
        invariant depth > 0 ==> i < depth || i == 0
      {
        output := output + [levels[i]];
        count := count + 1;
        if count == depth {
          return;
        }
      }
    }
  }
}
