/**
 * The decoded order-book message the feed delivers: two sides, each a list of
 * [price, size] levels, best level first. Every price and size arrives as a
 * decimal string; a field that float() cannot parse is None here, so every
 * consumer's "float() raised" path is reachable in the model.
 */
module OrderBook {
  import opened Wrappers

  /** One [price, size] level. */
  datatype Level = Level(price: Option<real>, size: Option<real>)

  /**
   * A decoded message that is a non-empty object. A side is None when its key
   * is absent. A message that is None or an empty object (falsy in Python) is
   * Option<Book>.None wherever a book may be missing.
   */
  datatype Book = Book(asks: Option<seq<Level>>, bids: Option<seq<Level>>)

  /** `orderbook.get(side)` is truthy: the key is present and the list non-empty. */
  predicate HasLevels(side: Option<seq<Level>>)
  {
    side.Some? && |side.value| > 0
  }

  /** The top-of-book price of a side, when the side has a level and the price parses. */
  function BestPrice(side: Option<seq<Level>>): (r: Option<real>)
    ensures r.Some? ==> HasLevels(side) && side.value[0].price == r
    ensures HasLevels(side) ==> r == side.value[0].price
  {
    if HasLevels(side) then side.value[0].price else None
  }

  /** Every size of the levels parses. */
  predicate SizesParse(levels: seq<Level>)
  {
    forall i :: 0 <= i < |levels| ==> levels[i].size.Some?
  }

  /** Every price and size of the levels parses. */
  predicate LevelsParse(levels: seq<Level>)
  {
    forall i :: 0 <= i < |levels| ==> levels[i].price.Some? && levels[i].size.Some?
  }

  /**
   * The sum of the sizes of the levels, taken in order; None when some size
   * does not parse (float() raises and the sum is abandoned).
   */
  function SumSizes(levels: seq<Level>): (r: Option<real>)
    ensures r.Some? <==> SizesParse(levels)
  {
    if levels == [] then Some(0.0)
    else
      var init := levels[..|levels| - 1];
      assert forall i :: 0 <= i < |init| ==> init[i] == levels[i];
      var sum, last := SumSizes(init), levels[|levels| - 1];
      if sum.Some? && last.size.Some? then Some(sum.value + last.size.value) else None
  }

  /** The notional of taking every level whole: the sum of size times price. */
  function Notional(levels: seq<Level>): (r: Option<real>)
    ensures r.Some? <==> LevelsParse(levels)
  {
    if levels == [] then Some(0.0)
    else
      var init := levels[..|levels| - 1];
      assert forall i :: 0 <= i < |init| ==> init[i] == levels[i];
      var sum, last := Notional(init), levels[|levels| - 1];
      if sum.Some? && last.price.Some? && last.size.Some?
      then Some(sum.value + last.size.value * last.price.value)
      else None
  }

  /** Extending a parsed prefix by one parsed level adds that level's size. */
  lemma SumSizesExtend(levels: seq<Level>, n: nat)
    requires n < |levels|
    ensures SumSizes(levels[..n + 1]).Some? <==> SumSizes(levels[..n]).Some? && levels[n].size.Some?
    ensures SumSizes(levels[..n + 1]).Some? ==>
      SumSizes(levels[..n + 1]).value == SumSizes(levels[..n]).value + levels[n].size.value
  {
    var pre := levels[..n + 1];
    assert pre[..|pre| - 1] == levels[..n];
  }

  /** Extending a parsed prefix by one parsed level adds that level's size times price. */
  lemma NotionalExtend(levels: seq<Level>, n: nat)
    requires n < |levels|
    ensures Notional(levels[..n + 1]).Some? <==>
      Notional(levels[..n]).Some? && levels[n].price.Some? && levels[n].size.Some?
    ensures Notional(levels[..n + 1]).Some? ==>
      Notional(levels[..n + 1]).value ==
        Notional(levels[..n]).value + levels[n].size.value * levels[n].price.value
  {
    var pre := levels[..n + 1];
    assert pre[..|pre| - 1] == levels[..n];
  }
}
