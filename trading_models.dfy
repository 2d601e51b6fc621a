/**
 * The transaction-cost engine: slippage of a market buy walking the ask
 * ladder, the blended maker/taker fee, Almgren-Chriss market impact over the
 * top ten levels, and the predicted maker share. Every function takes a book
 * and parameters and returns a number; where the source catches an exception
 * and returns a fixed fallback, the model returns the same constant.
 */
module TradingModels {
  import opened Wrappers
  import opened OrderBook
  import opened RealArith

  function Min(a: nat, b: nat): nat
  {
    if a <= b then a else b
  }

  /** Python's max(0, x). */
  function Max0(x: real): (r: real)
    ensures r >= 0.0 && r >= x
    ensures r == x || r == 0.0
  {
    if x > 0.0 then x else 0.0
  }

  // ------------------------------------------------------------------
  // Slippage
  // ------------------------------------------------------------------

  /** Returned when the asks cannot fill the order. */
  const ShortBookSlippage: real := 0.02
  /** Returned when a level does not parse or a division fails. */
  const ErrorSlippage: real := 0.01

  /** How the walk up the ask ladder ends. */
  datatype Fill =
    | Complete(last: nat)      // level `last` holds enough to finish the order
    | Exhausted(filled: real)  // every level taken whole and the order still open
    | Unparsable               // float() raised on a level reached by the walk

  /**
   * The walk of the ask side from level i on, with `filled` units bought so
   * far: each level is taken whole until one holds enough to finish the
   * order, which ends the walk.
   */
  function WalkAsks(asks: seq<Level>, i: nat, quantity: real, filled: real): (r: Fill)
    requires i <= |asks|
    ensures r.Complete? ==> i <= r.last < |asks|
    decreases |asks| - i
  {
    if i == |asks| then Exhausted(filled)
    else if asks[i].price.None? || asks[i].size.None? then Unparsable
    else if filled + asks[i].size.value >= quantity then Complete(i)
    else WalkAsks(asks, i + 1, quantity, filled + asks[i].size.value)
  }

  /**
   * What a walk that completes at level k pays: every level before k whole,
   * then the rest of the order at level k's price.
   */
  function FillCost(asks: seq<Level>, k: nat, quantity: real): (cost: real)
    requires k < |asks|
    requires LevelsParse(asks[..k]) && asks[k].price.Some?
    ensures asks[k].price.value >= 0.0 && quantity >= SumSizes(asks[..k]).value ==> cost >= Notional(asks[..k]).value
  {
    var rest, price := quantity - SumSizes(asks[..k]).value, asks[k].price.value;
    assert price >= 0.0 && rest >= 0.0 ==> rest * price >= 0.0 by {
      if price >= 0.0 && rest >= 0.0 {
        MulNonneg(rest, price);
      }
    }
    Notional(asks[..k]).value + rest * price
  }

  /**
   * A fill that ends exactly at a level boundary costs the notional of the
   * levels it took: at the start of level k that is the prefix's notional,
   * and when level k is taken whole it is the notional through level k.
   */
  lemma FillCostAtLevelBoundary(asks: seq<Level>, k: nat, quantity: real)
    requires k < |asks|
    requires LevelsParse(asks[..k]) && asks[k].price.Some?
    ensures quantity == SumSizes(asks[..k]).value ==> FillCost(asks, k, quantity) == Notional(asks[..k]).value
    ensures asks[k].size.Some? && quantity == SumSizes(asks[..k]).value + asks[k].size.value ==>
      LevelsParse(asks[..k + 1]) && FillCost(asks, k, quantity) == Notional(asks[..k + 1]).value
  {
    NotionalExtend(asks, k);
    SumSizesExtend(asks, k);
  }

  /** The cost the loop has when it breaks at level i: the prefix's notional plus the rest at level i's price. */
  lemma CompletionCost(asks: seq<Level>, i: nat, quantity: real, filled: real, cost: real)
    requires i < |asks| && asks[i].price.Some?
    requires SumSizes(asks[..i]) == Some(filled) && Notional(asks[..i]) == Some(cost)
    ensures LevelsParse(asks[..i])
    ensures cost + (quantity - filled) * asks[i].price.value == FillCost(asks, i, quantity)
  {
  }

  /** The slippage of a market buy of `quantity` against `book`, as a fraction of the mid price. */
  function Slippage(book: Option<Book>, quantity: real, orderType: string): (r: real)
    ensures r >= 0.0
    ensures orderType != "market" ==> r == 0.0
    ensures book.None? || !HasLevels(book.value.asks) || !HasLevels(book.value.bids) ==> r == 0.0
  {
    if orderType != "market" then 0.0
    else if book.None? || !HasLevels(book.value.asks) || !HasLevels(book.value.bids) then 0.0
    else
      var bestAsk, bestBid := BestPrice(book.value.asks), BestPrice(book.value.bids);
      if bestAsk.None? || bestBid.None? then ErrorSlippage
      else
        var asks, mid := book.value.asks.value, (bestAsk.value + bestBid.value) / 2.0;
        match WalkAsks(asks, 0, quantity, 0.0)
        case Unparsable => ErrorSlippage
        case Exhausted(_) => ShortBookSlippage
        case Complete(k) =>
          WalkFillsQuantity(asks, quantity);
          if quantity == 0.0 || mid == 0.0 then ErrorSlippage
          else Max0((FillCost(asks, k, quantity) / quantity - mid) / mid)
  }

  /** `calculate_slippage`: the loop over the asks with its two accumulators. */
  method CalculateSlippage(book: Option<Book>, quantity: real, orderType: string) returns (slippage: real)
    ensures slippage == Slippage(book, quantity, orderType)
  {
    if orderType != "market" {
      return 0.0;
    }
    if book.None? || !HasLevels(book.value.asks) || !HasLevels(book.value.bids) {
      return 0.0;
    }
    var asks, bids := book.value.asks.value, book.value.bids.value;
    if asks[0].price.None? || bids[0].price.None? {
      return ErrorSlippage;
    }
    var midPrice := (asks[0].price.value + bids[0].price.value) / 2.0;
    var totalFilled, totalCost := 0.0, 0.0;
    var i := 0;
    assert asks[..0] == [];
    while i < |asks|
      invariant 0 <= i <= |asks|
      invariant SumSizes(asks[..i]) == Some(totalFilled) && Notional(asks[..i]) == Some(totalCost)
      invariant WalkAsks(asks, i, quantity, totalFilled) == WalkAsks(asks, 0, quantity, 0.0)
      invariant i > 0 ==> totalFilled < quantity
    {
      var level := asks[i];
      if level.price.None? || level.size.None? {
        return ErrorSlippage;
      }
      var price, available := level.price.value, level.size.value;
      SumSizesExtend(asks, i);
      NotionalExtend(asks, i);
      if totalFilled + available >= quantity {
        CompletionCost(asks, i, quantity, totalFilled, totalCost);
        var remaining := quantity - totalFilled;
        totalCost := totalCost + remaining * price;
        totalFilled := quantity;
        assert totalCost == FillCost(asks, i, quantity);
        break;
      }
      assert available * price == asks[i].size.value * asks[i].price.value;
      totalCost := totalCost + available * price;
      totalFilled := totalFilled + available;
      i := i + 1;
    }
    if totalFilled < quantity {
      return ShortBookSlippage;
    }
    if quantity == 0.0 || midPrice == 0.0 {
      return ErrorSlippage;
    }
    var effectivePrice := totalCost / quantity;
    slippage := Max0((effectivePrice - midPrice) / midPrice);
  }

  /** A walk over levels that all parse never ends in a parse failure. */
  lemma {:induction false} WalkParsedLevels(asks: seq<Level>, i: nat, quantity: real, filled: real)
    requires i <= |asks|
    requires LevelsParse(asks)
    ensures !WalkAsks(asks, i, quantity, filled).Unparsable?
    decreases |asks| - i
  {
    if i < |asks| && filled + asks[i].size.value < quantity {
      WalkParsedLevels(asks, i + 1, quantity, filled + asks[i].size.value);
    }
  }

  /**
   * A walk that runs out of levels has taken every level whole, and after each
   * level the amount bought was still short of the quantity.
   */
  lemma {:induction false} WalkExhaustedFrom(asks: seq<Level>, i: nat, quantity: real, filled: real)
    requires i <= |asks|
    requires SumSizes(asks[..i]) == Some(filled)
    requires i > 0 ==> filled < quantity
    requires WalkAsks(asks, i, quantity, filled).Exhausted?
    ensures SumSizes(asks).Some?
    ensures WalkAsks(asks, i, quantity, filled).filled == SumSizes(asks).value
    ensures forall j :: i < j <= |asks| ==> SumSizes(asks[..j]).Some? && SumSizes(asks[..j]).value < quantity
    decreases |asks| - i
  {
    if i == |asks| {
      assert asks[..i] == asks;
    } else {
      SumSizesExtend(asks, i);
      WalkExhaustedFrom(asks, i + 1, quantity, filled + asks[i].size.value);
    }
  }

  /**
   * When the walk over a non-empty ask side runs out of levels, the whole side
   * parses, every prefix of it (and so the whole side) holds less than the
   * quantity, and the amount bought is the whole side's size: the 0.02
   * fallback is taken exactly when the order is still open.
   */
  lemma WalkExhaustedIsShort(asks: seq<Level>, quantity: real)
    requires |asks| > 0
    requires WalkAsks(asks, 0, quantity, 0.0).Exhausted?
    ensures SumSizes(asks).Some?
    ensures WalkAsks(asks, 0, quantity, 0.0).filled == SumSizes(asks).value < quantity
    ensures forall j :: 0 < j <= |asks| ==> SumSizes(asks[..j]).Some? && SumSizes(asks[..j]).value < quantity
  {
    assert asks[..0] == [];
    WalkExhaustedFrom(asks, 0, quantity, 0.0);
    assert asks[..|asks|] == asks;
  }

  /** The generalisation of WalkFillsQuantity to a walk resumed at level i. */
  lemma {:induction false} WalkCompleteFrom(asks: seq<Level>, i: nat, quantity: real, filled: real)
    requires i <= |asks|
    requires LevelsParse(asks[..i]) && SumSizes(asks[..i]) == Some(filled)
    requires WalkAsks(asks, i, quantity, filled).Complete?
    ensures var k := WalkAsks(asks, i, quantity, filled).last;
      && LevelsParse(asks[..k]) && asks[k].price.Some? && asks[k].size.Some?
      && (forall j :: i < j <= k ==> SumSizes(asks[..j]).Some? && SumSizes(asks[..j]).value < quantity)
      && quantity - SumSizes(asks[..k]).value <= asks[k].size.value
    decreases |asks| - i
  {
    SumSizesExtend(asks, i);
    NotionalExtend(asks, i);
    if filled + asks[i].size.value < quantity {
      WalkCompleteFrom(asks, i + 1, quantity, filled + asks[i].size.value);
    }
  }

  /**
   * When the walk completes at level k, the levels before k parse and were
   * each taken whole with the order still open after each of them, and level
   * k parses and holds the rest of the order: exactly `quantity` is bought,
   * best level first, and only level k may be taken partially.
   */
  lemma WalkFillsQuantity(asks: seq<Level>, quantity: real)
    requires WalkAsks(asks, 0, quantity, 0.0).Complete?
    ensures var k := WalkAsks(asks, 0, quantity, 0.0).last;
      && LevelsParse(asks[..k]) && asks[k].price.Some? && asks[k].size.Some?
      && (forall j :: 0 < j <= k ==> SumSizes(asks[..j]).Some? && SumSizes(asks[..j]).value < quantity)
      && quantity - SumSizes(asks[..k]).value <= asks[k].size.value
  {
    assert asks[..0] == [];
    WalkCompleteFrom(asks, 0, quantity, 0.0);
  }

  /** If the walk from level i can never finish the order, it runs out of levels. */
  lemma {:induction false} WalkNeverCompletes(asks: seq<Level>, i: nat, quantity: real, filled: real)
    requires i <= |asks|
    requires LevelsParse(asks)
    requires SumSizes(asks[..i]) == Some(filled)
    requires forall j :: i < j <= |asks| ==> SumSizes(asks[..j]).value < quantity
    ensures WalkAsks(asks, i, quantity, filled) == Exhausted(SumSizes(asks).value)
    decreases |asks| - i
  {
    if i == |asks| {
      assert asks[..i] == asks;
    } else {
      SumSizesExtend(asks, i);
      WalkNeverCompletes(asks, i + 1, quantity, filled + asks[i].size.value);
    }
  }

  /** With non-negative sizes, no prefix of the side holds more than the whole side. */
  lemma {:induction false} PrefixSizeAtMostTotal(levels: seq<Level>, j: nat)
    requires j <= |levels|
    requires SizesParse(levels)
    requires forall i :: 0 <= i < |levels| ==> levels[i].size.value >= 0.0
    ensures SumSizes(levels[..j]).value <= SumSizes(levels).value
    decreases |levels| - j
  {
    if j == |levels| {
      assert levels[..j] == levels;
    } else {
      SumSizesExtend(levels, j);
      PrefixSizeAtMostTotal(levels, j + 1);
    }
  }

  /** Non-negative, parseable levels that hold less in total than the order: the walk runs out. */
  lemma WalkShortBook(asks: seq<Level>, quantity: real)
    requires LevelsParse(asks)
    requires forall i :: 0 <= i < |asks| ==> asks[i].size.value >= 0.0
    requires SumSizes(asks).value < quantity
    ensures WalkAsks(asks, 0, quantity, 0.0) == Exhausted(SumSizes(asks).value)
  {
    forall j | 0 < j <= |asks|
      ensures SumSizes(asks[..j]).value < quantity
    {
      PrefixSizeAtMostTotal(asks, j);
    }
    assert asks[..0] == [];
    WalkNeverCompletes(asks, 0, quantity, 0.0);
  }

  /** Parseable levels that hold at least the order in total: the walk completes. */
  lemma WalkDeepBook(asks: seq<Level>, quantity: real)
    requires |asks| > 0
    requires LevelsParse(asks)
    requires SumSizes(asks).value >= quantity
    ensures WalkAsks(asks, 0, quantity, 0.0).Complete?
  {
    WalkParsedLevels(asks, 0, quantity, 0.0);
    if WalkAsks(asks, 0, quantity, 0.0).Exhausted? {
      WalkExhaustedIsShort(asks, quantity);
    }
  }

  /** The book shape under which slippage reaches the walk: both sides quoted. */
  predicate Quoted(book: Option<Book>)
  {
    && book.Some?
    && HasLevels(book.value.asks) && HasLevels(book.value.bids)
    && BestPrice(book.value.asks).Some? && BestPrice(book.value.bids).Some?
  }

  /** The mid price: halfway between the best ask and the best bid. */
  function MidOf(book: Option<Book>): (mid: real)
    requires Quoted(book)
    ensures mid - BestPrice(book.value.bids).value == BestPrice(book.value.asks).value - mid
    ensures BestPrice(book.value.bids).value <= BestPrice(book.value.asks).value ==>
      BestPrice(book.value.bids).value <= mid <= BestPrice(book.value.asks).value
  {
    (BestPrice(book.value.asks).value + BestPrice(book.value.bids).value) / 2.0
  }

  /** An ask side that cannot fill the order (sizes non-negative) gives the 2% fallback. */
  lemma SlippageShortBook(book: Option<Book>, quantity: real)
    requires Quoted(book)
    requires LevelsParse(book.value.asks.value)
    requires forall i :: 0 <= i < |book.value.asks.value| ==> book.value.asks.value[i].size.value >= 0.0
    requires SumSizes(book.value.asks.value).value < quantity
    ensures Slippage(book, quantity, "market") == ShortBookSlippage
  {
    WalkShortBook(book.value.asks.value, quantity);
  }

  /**
   * The 1% fallback of a market order on a book with both sides: a best price
   * that does not parse, a level the walk reaches that does not parse, or a
   * zero quantity or mid once the walk completes.
   */
  lemma SlippageErrors(book: Option<Book>, quantity: real)
    requires book.Some? && HasLevels(book.value.asks) && HasLevels(book.value.bids)
    requires || BestPrice(book.value.asks).None? || BestPrice(book.value.bids).None?
             || WalkAsks(book.value.asks.value, 0, quantity, 0.0).Unparsable?
             || (WalkAsks(book.value.asks.value, 0, quantity, 0.0).Complete? && (quantity == 0.0 || MidOf(book) == 0.0))
    ensures Slippage(book, quantity, "market") == ErrorSlippage
  {
  }

  /**
   * An ask side deep enough for the order: the walk completes at some level
   * k, and the slippage is the gap between the volume-weighted fill price and
   * the mid, relative to the mid, floored at zero.
   */
  lemma SlippageDeepBook(book: Option<Book>, quantity: real)
    requires Quoted(book)
    requires LevelsParse(book.value.asks.value)
    requires SumSizes(book.value.asks.value).value >= quantity
    requires quantity != 0.0 && MidOf(book) != 0.0
    ensures WalkAsks(book.value.asks.value, 0, quantity, 0.0).Complete?
    ensures var asks, k := book.value.asks.value, WalkAsks(book.value.asks.value, 0, quantity, 0.0).last;
      && LevelsParse(asks[..k])
      && Slippage(book, quantity, "market") == Max0((FillCost(asks, k, quantity) / quantity - MidOf(book)) / MidOf(book))
  {
    WalkDeepBook(book.value.asks.value, quantity);
    WalkFillsQuantity(book.value.asks.value, quantity);
  }

  /** Levels priced at or above `floor` with non-negative sizes cost at least `floor` per unit. */
  lemma {:induction false} NotionalAtLeast(levels: seq<Level>, n: nat, floor: real)
    requires n <= |levels|
    requires LevelsParse(levels)
    requires forall i :: 0 <= i < |levels| ==> levels[i].price.value >= floor && levels[i].size.value >= 0.0
    ensures Notional(levels[..n]).value >= floor * SumSizes(levels[..n]).value
  {
    if n == 0 {
      assert levels[..0] == [];
    } else {
      NotionalAtLeast(levels, n - 1, floor);
      SumSizesExtend(levels, n - 1);
      NotionalExtend(levels, n - 1);
      var p, x := levels[n - 1].price.value, levels[n - 1].size.value;
      MulNonneg(x, p - floor);
    }
  }

  /** A walk that completes pays at least `floor` per unit bought, when no level is cheaper. */
  lemma CompletedFillAtLeast(asks: seq<Level>, quantity: real, floor: real)
    requires quantity > 0.0
    requires LevelsParse(asks)
    requires forall i :: 0 <= i < |asks| ==> asks[i].price.value >= floor && asks[i].size.value >= 0.0
    requires WalkAsks(asks, 0, quantity, 0.0).Complete?
    ensures var k := WalkAsks(asks, 0, quantity, 0.0).last;
      LevelsParse(asks[..k]) && FillCost(asks, k, quantity) >= floor * quantity
  {
    var k := WalkAsks(asks, 0, quantity, 0.0).last;
    WalkFillsQuantity(asks, quantity);
    NotionalAtLeast(asks, k, floor);
    var before := SumSizes(asks[..k]).value;
    if k > 0 {
      assert before < quantity;
    } else {
      assert asks[..0] == [];
    }
    var p := asks[k].price.value;
    MulNonneg(quantity - before, p - floor);
  }

  /**
   * For an uncrossed book (0 < best bid < best ask) whose asks rise from the
   * best ask, with non-negative sizes and enough depth, the floor at zero
   * never applies: the slippage is exactly (fill price - mid) / mid, and it is
   * positive.
   */
  lemma SlippageUncrossedBook(book: Option<Book>, quantity: real)
    requires Quoted(book)
    requires LevelsParse(book.value.asks.value)
    requires 0.0 < BestPrice(book.value.bids).value < BestPrice(book.value.asks).value
    requires forall i :: 0 <= i < |book.value.asks.value| ==>
      book.value.asks.value[i].price.value >= BestPrice(book.value.asks).value
      && book.value.asks.value[i].size.value >= 0.0
    requires 0.0 < quantity <= SumSizes(book.value.asks.value).value
    ensures WalkAsks(book.value.asks.value, 0, quantity, 0.0).Complete?
    ensures var asks, k := book.value.asks.value, WalkAsks(book.value.asks.value, 0, quantity, 0.0).last;
      && LevelsParse(asks[..k])
      && Slippage(book, quantity, "market") == (FillCost(asks, k, quantity) / quantity - MidOf(book)) / MidOf(book)
      && Slippage(book, quantity, "market") > 0.0
  {
    var asks := book.value.asks.value;
    var bestAsk, mid := BestPrice(book.value.asks).value, MidOf(book);
    WalkDeepBook(asks, quantity);
    CompletedFillAtLeast(asks, quantity, bestAsk);
    var k := WalkAsks(asks, 0, quantity, 0.0).last;
    var paid := FillCost(asks, k, quantity);
    QuotientAtLeast(paid, quantity, bestAsk);
    assert 0.0 < mid < bestAsk;
    assert (paid / quantity - mid) / mid > 0.0;
  }

  /** The sample book of the tests: asks [[100, 1], [101, 2]], bids [[99, 1], [98, 2]]. */
  function SampleBook(): Option<Book>
  {
    Some(Book(
      Some([Level(Some(100.0), Some(1.0)), Level(Some(101.0), Some(2.0))]),
      Some([Level(Some(99.0), Some(1.0)), Level(Some(98.0), Some(2.0))])))
  }

  /** Buying 1 fills at 100 against a mid of 99.5; buying 5 exceeds the 3 on offer. */
  lemma SlippageOfSampleBook()
    ensures Slippage(SampleBook(), 1.0, "market") == 0.5 / 99.5
    ensures Slippage(SampleBook(), 5.0, "market") == ShortBookSlippage
  {
    var asks := SampleBook().value.asks.value;
    assert WalkAsks(asks, 0, 1.0, 0.0) == Complete(0);
    assert asks[..0] == [];
    assert FillCost(asks, 0, 1.0) == 100.0;
    assert WalkAsks(asks, 2, 5.0, 3.0) == Exhausted(3.0);
    assert WalkAsks(asks, 0, 5.0, 0.0) == Exhausted(3.0);
  }

  // ------------------------------------------------------------------
  // Fees
  // ------------------------------------------------------------------

  datatype FeeRate = FeeRate(maker: real, taker: real)

  /** The venue's VIP tiers and their maker and taker rates. */
  const FeeTable: map<string, FeeRate> := map[
    "VIP0" := FeeRate(0.0008, 0.001),
    "VIP1" := FeeRate(0.0007, 0.0009),
    "VIP2" := FeeRate(0.0006, 0.0008),
    "VIP3" := FeeRate(0.0005, 0.0007),
    "VIP4" := FeeRate(0.0003, 0.0005),
    "VIP5" := FeeRate(0.0000, 0.0003)
  ]

  /** The rates used for another venue or an unknown tier. */
  const DefaultFeeRate: FeeRate := FeeRate(0.0008, 0.001)

  /**
   * str.lower() on one character, as far as it can matter for a comparison
   * with "okx": ASCII capitals, and the Kelvin sign, which lowers to 'k'. No
   * other character lowers to a string made of 'o', 'k' and 'x'.
   */
  function LowerChar(c: char): char
  {
    if 'A' <= c <= 'Z' then (c as int + 32) as char
    else if c == 'K' then 'k'
    else c
  }

  function Lower(s: string): string
  {
    seq(|s|, i requires 0 <= i < |s| => LowerChar(s[i]))
  }

  predicate IsOkx(exchange: string)
  {
    Lower(exchange) == "okx"
  }

  /** `exchange.lower() == "okx"` holds exactly for the three-letter spellings of OKX in any case. */
  lemma IsOkxSpellings(exchange: string)
    ensures IsOkx(exchange) <==>
      && |exchange| == 3
      && (exchange[0] == 'o' || exchange[0] == 'O')
      && (exchange[1] == 'k' || exchange[1] == 'K' || exchange[1] == 'K')
      && (exchange[2] == 'x' || exchange[2] == 'X')
  {
    var low := Lower(exchange);
    if |exchange| == 3 {
      assert low[0] == LowerChar(exchange[0]) && low[1] == LowerChar(exchange[1]) && low[2] == LowerChar(exchange[2]);
      assert low == "okx" <==> low[0] == 'o' && low[1] == 'k' && low[2] == 'x';
    } else {
      assert |low| != |"okx"|;
    }
  }

  /** The rates the fee uses: the table row for OKX and a known tier, the default otherwise. */
  function RatesFor(exchange: string, tier: string): (r: FeeRate)
    ensures 0.0 <= r.maker <= r.taker
    ensures r in FeeTable.Values
    ensures IsOkx(exchange) && tier in FeeTable ==> r == FeeTable[tier]
    ensures !(IsOkx(exchange) && tier in FeeTable) ==> r == FeeTable["VIP0"]
  {
    if !IsOkx(exchange) || tier !in FeeTable then
      assert FeeTable["VIP0"] == DefaultFeeRate;
      DefaultFeeRate
    else
      assert tier in {"VIP0", "VIP1", "VIP2", "VIP3", "VIP4", "VIP5"};
      FeeTable[tier]
  }

  /** The maker rate weighted by the maker share plus the taker rate weighted by the rest. */
  function BlendedRate(rate: FeeRate, makerShare: real): (r: real)
    ensures makerShare == 1.0 ==> r == rate.maker
    ensures makerShare == 0.0 ==> r == rate.taker
  {
    rate.maker * makerShare + rate.taker * (1.0 - makerShare)
  }

  /** `calculate_fees`: the traded notional times the blended rate. */
  function Fees(exchange: string, tier: string, quantity: real, price: real, makerShare: real): (fee: real)
    ensures quantity == 0.0 || price == 0.0 ==> fee == 0.0
  {
    quantity * price * BlendedRate(RatesFor(exchange, tier), makerShare)
  }

  /**
   * The fee by venue and tier: an OKX order of a tier in the table pays that
   * tier's blended rate on its notional; any other venue or an unknown tier
   * pays the VIP0 rate.
   */
  lemma FeesByTier(exchange: string, tier: string, quantity: real, price: real, makerShare: real)
    ensures IsOkx(exchange) && tier in FeeTable ==>
      Fees(exchange, tier, quantity, price, makerShare) == quantity * price * BlendedRate(FeeTable[tier], makerShare)
    ensures !(IsOkx(exchange) && tier in FeeTable) ==>
      Fees(exchange, tier, quantity, price, makerShare) == quantity * price * BlendedRate(DefaultFeeRate, makerShare)
  {
  }

  /** With a maker share in [0, 1] the blended rate lies between the maker and the taker rate. */
  lemma BlendedBetweenRates(rate: FeeRate, makerShare: real)
    requires 0.0 <= makerShare <= 1.0 && rate.maker <= rate.taker
    ensures rate.maker <= BlendedRate(rate, makerShare) <= rate.taker
  {
    var spread := rate.taker - rate.maker;
    MulNonneg(spread, 1.0 - makerShare);
    MulNonneg(spread, makerShare);
    assert BlendedRate(rate, makerShare) - rate.maker == spread * (1.0 - makerShare);
    assert rate.taker - BlendedRate(rate, makerShare) == spread * makerShare;
  }

  /**
   * With a maker share in [0, 1] and a non-negative notional, the fee lies
   * between the notional at the maker rate and the notional at the taker rate.
   */
  lemma FeesBetweenRates(exchange: string, tier: string, quantity: real, price: real, makerShare: real)
    requires 0.0 <= makerShare <= 1.0 && quantity * price >= 0.0
    ensures quantity * price * RatesFor(exchange, tier).maker <= Fees(exchange, tier, quantity, price, makerShare)
    ensures Fees(exchange, tier, quantity, price, makerShare) <= quantity * price * RatesFor(exchange, tier).taker
  {
    FeesOnNotional(exchange, tier, quantity, price, makerShare);
    ScaledBlendBetween(Fees(exchange, tier, quantity, price, makerShare), quantity * price, RatesFor(exchange, tier), makerShare);
  }

  /** An all-maker order pays the maker rate on its notional, an all-taker one the taker rate. */
  lemma FeesAllMakerOrTaker(exchange: string, tier: string, quantity: real, price: real, makerShare: real)
    requires makerShare == 0.0 || makerShare == 1.0
    ensures makerShare == 1.0 ==> Fees(exchange, tier, quantity, price, makerShare) == quantity * price * RatesFor(exchange, tier).maker
    ensures makerShare == 0.0 ==> Fees(exchange, tier, quantity, price, makerShare) == quantity * price * RatesFor(exchange, tier).taker
  {
    FeesOnNotional(exchange, tier, quantity, price, makerShare);
  }

  /** A fee on a non-negative notional at the blended rate lies between the notional at the maker and at the taker rate. */
  lemma ScaledBlendBetween(fee: real, notional: real, rate: FeeRate, makerShare: real)
    requires 0.0 <= makerShare <= 1.0 && notional >= 0.0 && rate.maker <= rate.taker
    requires fee == notional * BlendedRate(rate, makerShare)
    ensures notional * rate.maker <= fee <= notional * rate.taker
  {
    BlendedBetweenRates(rate, makerShare);
    ScaleBetween(notional, rate.maker, BlendedRate(rate, makerShare), rate.taker);
  }

  /** The fee is the notional times the blended rate of the venue and tier. */
  lemma FeesOnNotional(exchange: string, tier: string, quantity: real, price: real, makerShare: real)
    ensures Fees(exchange, tier, quantity, price, makerShare) == (quantity * price) * BlendedRate(RatesFor(exchange, tier), makerShare)
  {
  }

  /** A non-negative quantity at a non-negative price never earns a rebate, whatever the venue and tier. */
  lemma FeesNonnegative(exchange: string, tier: string, quantity: real, price: real, makerShare: real)
    requires 0.0 <= makerShare <= 1.0 && quantity >= 0.0 && price >= 0.0
    ensures Fees(exchange, tier, quantity, price, makerShare) >= 0.0
  {
    var rate := RatesFor(exchange, tier);
    MulNonneg(quantity, price);
    BlendedBetweenRates(rate, makerShare);
    MulNonneg(quantity * price, BlendedRate(rate, makerShare));
  }

  /** Another venue or an unknown tier is charged exactly as OKX's lowest tier, VIP0. */
  lemma UnknownVenueOrTierIsVip0(exchange: string, tier: string, quantity: real, price: real, makerShare: real)
    requires !(IsOkx(exchange) && tier in FeeTable)
    ensures Fees(exchange, tier, quantity, price, makerShare) == Fees("OKX", "VIP0", quantity, price, makerShare)
  {
    IsOkxSpellings("OKX");
  }

  /** With a maker share in [0, 1], a larger quantity or price never lowers the fee. */
  lemma FeesMonotone(exchange: string, tier: string, q1: real, q2: real, p1: real, p2: real, makerShare: real)
    requires 0.0 <= makerShare <= 1.0
    requires 0.0 <= q1 <= q2 && 0.0 <= p1 <= p2
    ensures Fees(exchange, tier, q1, p1, makerShare) <= Fees(exchange, tier, q2, p2, makerShare)
  {
    BlendedBetweenRates(RatesFor(exchange, tier), makerShare);
    var rate := BlendedRate(RatesFor(exchange, tier), makerShare);
    MulNonneg(q1, p2 - p1);
    MulNonneg(q2 - q1, p2);
    MulNonneg(q2 * p2 - q1 * p1, rate);
  }

  /** One unit at 100 with a 0.6 maker share: 100 * (0.6 * 0.0008 + 0.4 * 0.001) = 0.088, for OKX VIP0 or elsewhere. */
  lemma FeesExample()
    ensures Fees("OKX", "VIP0", 1.0, 100.0, 0.6) == 0.088
    ensures Fees("binance", "VIP0", 1.0, 100.0, 0.6) == 0.088
  {
    IsOkxSpellings("OKX");
    IsOkxSpellings("binance");
  }

  // ------------------------------------------------------------------
  // Market impact
  // ------------------------------------------------------------------

  /** How many levels of each side count towards the depth. */
  const DepthLevels: nat := 10
  /** A book thinner than the order is taken to be this many times the order. */
  const DepthSubstitution: real := 100.0
  /** The execution horizon: one hour as a fraction of a day. */
  const Horizon: real := 1.0 / 24.0
  /** The double that np.sqrt(1/24) returns; only its positivity is used below. */
  const SqrtHorizon: real := 0.2041241452319315
  /** Permanent impact as a fraction of the temporary impact. */
  const PermanentImpactRatio: real := 0.3
  /** The impact, as a fraction of the notional, returned when the computation raises. */
  const FallbackImpactRate: real := 0.005

  /** SqrtHorizon is a square root of the horizon to within 1e-15. */
  lemma SqrtHorizonSquared()
    ensures SqrtHorizon > 0.0
    ensures -0.000000000000001 < SqrtHorizon * SqrtHorizon - Horizon < 0.000000000000001
  {
  }

  /**
   * The sizes of the first ten bid levels plus the first ten ask levels (fewer
   * when a side is shorter); None when the book or a side is missing or one of
   * those sizes does not parse.
   */
  function TopDepth(book: Option<Book>): (r: Option<real>)
    ensures r.Some? <==>
      && book.Some? && book.value.bids.Some? && book.value.asks.Some?
      && SizesParse(book.value.bids.value[..Min(DepthLevels, |book.value.bids.value|)])
      && SizesParse(book.value.asks.value[..Min(DepthLevels, |book.value.asks.value|)])
  {
    if book.None? || book.value.bids.None? || book.value.asks.None? then None
    else
      var bids, asks := book.value.bids.value, book.value.asks.value;
      var bidDepth := SumSizes(bids[..Min(DepthLevels, |bids|)]);
      var askDepth := SumSizes(asks[..Min(DepthLevels, |asks|)]);
      if bidDepth.None? || askDepth.None? then None else Some(bidDepth.value + askDepth.value)
  }

  /** The depth used by the formula: the measured depth, or 100 times the order when that is smaller. */
  function EffectiveDepth(depth: real, quantity: real): (d: real)
    ensures quantity >= 0.0 ==> d >= quantity && d >= 0.0
    ensures quantity > 0.0 ==> d > 0.0
    ensures depth < quantity ==> d == quantity * DepthSubstitution
  {
    if depth < quantity then quantity * DepthSubstitution else depth
  }

  /** `calculate_market_impact`: temporary plus permanent Almgren-Chriss impact. */
  function MarketImpact(book: Option<Book>, quantity: real, volatility: real, price: real): (r: real)
    ensures quantity >= 0.0 && volatility >= 0.0 && price >= 0.0 ==> r >= 0.0
    ensures TopDepth(book).None? ==> r == quantity * price * FallbackImpactRate
    ensures TopDepth(book).Some? && EffectiveDepth(TopDepth(book).value, quantity) == 0.0 ==>
      r == quantity * price * FallbackImpactRate
  {
    var fallback := quantity * price * FallbackImpactRate;
    assert quantity >= 0.0 && price >= 0.0 ==> fallback >= 0.0;
    match TopDepth(book)
    case None => fallback
    case Some(depth) =>
      var d := EffectiveDepth(depth, quantity);
      if d == 0.0 then fallback
      else
        var temporary := volatility * SqrtHorizon * (quantity / d) * price;
        assert quantity >= 0.0 && volatility >= 0.0 && price >= 0.0 ==> temporary >= 0.0 by {
          if quantity >= 0.0 && volatility >= 0.0 && price >= 0.0 {
            assert quantity / d >= 0.0;
            assert volatility * SqrtHorizon >= 0.0;
            assert volatility * SqrtHorizon * (quantity / d) >= 0.0;
          }
        }
        temporary + temporary * PermanentImpactRatio
  }

  /** The closed form: 1.3 * sigma * sqrt(tau) * (quantity / depth) * price, for a positive order. */
  lemma ImpactFormula(book: Option<Book>, quantity: real, volatility: real, price: real)
    requires TopDepth(book).Some? && quantity > 0.0
    ensures var d := EffectiveDepth(TopDepth(book).value, quantity);
      MarketImpact(book, quantity, volatility, price) == 1.3 * volatility * SqrtHorizon * (quantity / d) * price
  {
  }

  /**
   * A book thinner than the order: depth becomes 100 times the order, so the
   * impact is 1.3 * sigma * sqrt(tau) * price / 100 whatever the order size.
   */
  lemma ImpactOfThinBook(book: Option<Book>, quantity: real, volatility: real, price: real)
    requires TopDepth(book).Some? && 0.0 < quantity && TopDepth(book).value < quantity
    ensures MarketImpact(book, quantity, volatility, price) == 1.3 * volatility * SqrtHorizon * price / 100.0
  {
    ImpactFormula(book, quantity, volatility, price);
    assert quantity / (quantity * 100.0) == 1.0 / 100.0;
  }

  /** For a positive order at a positive price, a higher volatility gives a strictly higher impact. */
  lemma ImpactIncreasesWithVolatility(book: Option<Book>, quantity: real, v1: real, v2: real, price: real)
    requires TopDepth(book).Some? && quantity > 0.0 && price > 0.0
    requires v1 < v2
    ensures MarketImpact(book, quantity, v1, price) < MarketImpact(book, quantity, v2, price)
  {
    ImpactFormula(book, quantity, v1, price);
    ImpactFormula(book, quantity, v2, price);
    var d := EffectiveDepth(TopDepth(book).value, quantity);
    var k := 1.3 * SqrtHorizon * (quantity / d) * price;
    assert quantity / d > 0.0;
    assert k > 0.0;
    assert (v2 - v1) * k > 0.0;
  }

  /** With the depth at least the larger order, a larger positive order has a strictly higher impact. */
  lemma ImpactIncreasesWithQuantity(book: Option<Book>, q1: real, q2: real, volatility: real, price: real)
    requires TopDepth(book).Some? && 0.0 < q1 < q2 <= TopDepth(book).value
    requires volatility > 0.0 && price > 0.0
    ensures MarketImpact(book, q1, volatility, price) < MarketImpact(book, q2, volatility, price)
  {
    var d := TopDepth(book).value;
    ImpactFormula(book, q1, volatility, price);
    ImpactFormula(book, q2, volatility, price);
    var k := 1.3 * volatility * SqrtHorizon * price / d;
    assert k > 0.0;
    assert 1.3 * volatility * SqrtHorizon * (q1 / d) * price == k * q1;
    assert 1.3 * volatility * SqrtHorizon * (q2 / d) * price == k * q2;
    assert k * (q2 - q1) > 0.0;
  }

  /** `calculate_market_impact`: the two index loops accumulating the depth. */
  method CalculateMarketImpact(book: Option<Book>, quantity: real, volatility: real, price: real)
    returns (impact: real)
    ensures impact == MarketImpact(book, quantity, volatility, price)
  {
    var fallback := quantity * price * FallbackImpactRate;
    if book.None? || book.value.bids.None? {
      return fallback;
    }
    var bids := book.value.bids.value;
    var depth := 0.0;
    var n := Min(DepthLevels, |bids|);
    assert bids[..0] == [];
    for i := 0 to n
      invariant SumSizes(bids[..i]) == Some(depth)
    {
      if bids[i].size.None? {
        assert bids[..n][i] == bids[i];
        return fallback;
      }
      SumSizesExtend(bids, i);
      depth := depth + bids[i].size.value;
    }
    if book.value.asks.None? {
      return fallback;
    }
    var asks := book.value.asks.value;
    var bidDepth := depth;
    var m := Min(DepthLevels, |asks|);
    assert asks[..0] == [];
    for i := 0 to m
      invariant SumSizes(asks[..i]) == Some(depth - bidDepth)
    {
      if asks[i].size.None? {
        assert asks[..m][i] == asks[i];
        return fallback;
      }
      SumSizesExtend(asks, i);
      depth := depth + asks[i].size.value;
    }
    if depth < quantity {
      depth := quantity * DepthSubstitution;
    }
    if depth == 0.0 {
      return fallback;
    }
    var temporary := volatility * SqrtHorizon * (quantity / depth) * price;
    var permanent := temporary * PermanentImpactRatio;
    impact := temporary + permanent;
  }

  // ------------------------------------------------------------------
  // Maker/taker split
  // ------------------------------------------------------------------

  /** np.exp is a parameter: any function into the positive reals. */
  type PositiveReal = x: real | x > 0.0 witness 1.0

  /** The share returned for a missing or empty book: all taker. */
  const NoBookMakerShare: real := 0.0
  /** The share returned when the computation raises. */
  const ErrorMakerShare: real := 0.2
  /** The cap on the maker share. */
  const MaxMakerShare: real := 0.8
  /** How many levels of each side count towards the imbalance. */
  const ImbalanceLevels: nat := 5

  /** (bid - ask) / (bid + ask), or 0 when the two volumes sum to 0. */
  function Imbalance(bidVolume: real, askVolume: real): (r: real)
    ensures bidVolume >= 0.0 && askVolume >= 0.0 ==> -1.0 <= r <= 1.0
    ensures bidVolume + askVolume == 0.0 ==> r == 0.0
    ensures bidVolume + askVolume != 0.0 ==> r * (bidVolume + askVolume) == bidVolume - askVolume
  {
    if bidVolume + askVolume == 0.0 then 0.0
    else
      var total := bidVolume + askVolume;
      var r := (bidVolume - askVolume) / total;
      assert bidVolume >= 0.0 && askVolume >= 0.0 ==> -1.0 <= r <= 1.0 by {
        if bidVolume >= 0.0 && askVolume >= 0.0 {
          assert r * total == bidVolume - askVolume;
          assert (1.0 - r) * total == 2.0 * askVolume;
          assert (r + 1.0) * total == 2.0 * bidVolume;
          NonnegFactor(1.0 - r, total);
          NonnegFactor(r + 1.0, total);
        }
      }
      r
  }

  /** max(0, min(0.8, x)). */
  function Clamp(x: real): (r: real)
    ensures 0.0 <= r <= MaxMakerShare
    ensures 0.0 <= x <= MaxMakerShare ==> r == x
  {
    if x > MaxMakerShare then MaxMakerShare else if x < 0.0 then 0.0 else x
  }

  /** The clamped logistic 1 / (1 + exp(5 * (spread - 0.001) - imbalance)). */
  function MakerShareFormula(spread: real, imbalance: real, exp: real -> PositiveReal): (r: real)
    ensures 0.0 < r <= MaxMakerShare
  {
    var e := exp(5.0 * (spread - 0.001) - imbalance);
    var logistic := 1.0 / (1.0 + e);
    assert logistic > 0.0;
    Clamp(logistic)
  }

  /** `predict_maker_taker`: the order-quantity argument of the source is never read, so it is not a parameter here. */
  function MakerTaker(book: Option<Book>, exp: real -> PositiveReal): (r: real)
    ensures 0.0 <= r <= MaxMakerShare
    ensures book.None? || !HasLevels(book.value.asks) || !HasLevels(book.value.bids) ==> r == NoBookMakerShare
  {
    if book.None? || !HasLevels(book.value.asks) || !HasLevels(book.value.bids) then NoBookMakerShare
    else
      var bestAsk, bestBid := BestPrice(book.value.asks), BestPrice(book.value.bids);
      if bestAsk.None? || bestBid.None? || bestBid.value == 0.0 then ErrorMakerShare
      else
        var bids, asks := book.value.bids.value, book.value.asks.value;
        var spread := (bestAsk.value - bestBid.value) / bestBid.value;
        var bidVolume := SumSizes(bids[..Min(ImbalanceLevels, |bids|)]);
        var askVolume := SumSizes(asks[..Min(ImbalanceLevels, |asks|)]);
        if bidVolume.None? || askVolume.None? then ErrorMakerShare
        else MakerShareFormula(spread, Imbalance(bidVolume.value, askVolume.value), exp)
  }

  /**
   * A book with both sides whose best ask or best bid does not parse, whose
   * best bid is 0 (no relative spread), or whose top-five sizes on either
   * side do not parse: the 0.2 fallback.
   */
  lemma MakerTakerErrors(book: Option<Book>, exp: real -> PositiveReal)
    requires book.Some? && HasLevels(book.value.asks) && HasLevels(book.value.bids)
    requires var bids, asks := book.value.bids.value, book.value.asks.value;
      || BestPrice(book.value.asks).None? || BestPrice(book.value.bids).None?
      || BestPrice(book.value.bids).value == 0.0
      || !SizesParse(bids[..Min(ImbalanceLevels, |bids|)])
      || !SizesParse(asks[..Min(ImbalanceLevels, |asks|)])
    ensures MakerTaker(book, exp) == ErrorMakerShare
  {
  }

  /**
   * A quoted book with a non-zero best bid and parseable top-five sizes: the
   * share is the logistic capped at 0.8, strictly positive (the floor at 0
   * never applies), and so never the empty-book value.
   */
  lemma MakerTakerOfQuotedBook(book: Option<Book>, exp: real -> PositiveReal)
    requires Quoted(book) && BestPrice(book.value.bids).value != 0.0
    requires SizesParse(book.value.bids.value[..Min(ImbalanceLevels, |book.value.bids.value|)])
    requires SizesParse(book.value.asks.value[..Min(ImbalanceLevels, |book.value.asks.value|)])
    ensures 0.0 < MakerTaker(book, exp) <= MaxMakerShare
    ensures var bestAsk, bestBid := BestPrice(book.value.asks).value, BestPrice(book.value.bids).value;
      var bids, asks := book.value.bids.value, book.value.asks.value;
      var imbalance := Imbalance(SumSizes(bids[..Min(ImbalanceLevels, |bids|)]).value,
                                 SumSizes(asks[..Min(ImbalanceLevels, |asks|)]).value);
      var logistic := 1.0 / (1.0 + exp(5.0 * ((bestAsk - bestBid) / bestBid - 0.001) - imbalance));
      MakerTaker(book, exp) == if logistic > MaxMakerShare then MaxMakerShare else logistic
  {
  }

  /**
   * With an increasing exp, a larger imbalance (more bid volume) never lowers
   * the predicted maker share, and a wider spread never raises it.
   */
  lemma MakerShareMonotone(s1: real, s2: real, i1: real, i2: real, exp: real -> PositiveReal)
    requires forall x, y :: x <= y ==> exp(x) <= exp(y)
    requires s2 <= s1 && i1 <= i2
    ensures MakerShareFormula(s1, i1, exp) <= MakerShareFormula(s2, i2, exp)
  {
    var z1, z2 := 5.0 * (s1 - 0.001) - i1, 5.0 * (s2 - 0.001) - i2;
    assert z2 <= z1;
    var e1, e2 := exp(z1), exp(z2);
    assert e2 <= e1;
    ReciprocalAntitone(1.0 + e2, 1.0 + e1);
  }
}
