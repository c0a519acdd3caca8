/** What one order of a flatten is: its price just below the bid, and its size the greatest that fits, said of lots and ticks. */
module FlattenSizes {
  import opened Common
  import opened FlattenModel
  import B = ExecutorBooks
  import E = ExecutorModel
  import P = ExecutorPricing
  import Q = ExecutorQuotes

  /** The highest tick that is at least a tenth of a per cent below the bid. */
  ghost predicate IsSalePrice(pair: Pair, bid: real, price: real) {
    P.IsMultiple(price, pair.tick) && price * 1000.0 <= bid * 999.0 < (price + pair.tick) * 1000.0
  }

  lemma SalePriceIs(pair: Pair, bid: Positive)
    ensures IsSalePrice(pair, bid, E.Rounded(Discounted(bid), pair.tick, false))
  {
    hide P.IsMultiple; hide E.Rounded;
    P.FloorBounds(Discounted(bid), pair.tick);
  }

  /** What may be sold at once: whole lots whose quantity with the fee is allocated and free. */
  ghost predicate Fits(pair: Pair, owned: real, available: real, x: real) {
    P.IsMultiple(x, pair.lot) && x * (1.0 + pair.fee) <= (if owned <= available then owned else available)
  }

  /** All that may be sold at once, or nothing if that is below the minimum. */
  ghost predicate IsWhole(pair: Pair, owned: real, available: real, whole: real) {
    if whole >= pair.minimum then Fits(pair, owned, available, whole) && forall x :: Fits(pair, owned, available, x) ==> x <= whole
    else whole == 0.0 && forall x :: Fits(pair, owned, available, x) ==> x < pair.minimum
  }

  /** The release's size per order, less in proportion when the bid has risen above the ask that its notional was set at. */
  ghost predicate IsLimit(pair: Pair, whole: real, bid: real, limit: real) {
    var size := if pair.tradeSize.Some? then pair.tradeSize.value else whole;
    if pair.ask.None? then limit == size
    else limit * bid == size * (if bid <= pair.ask.value then bid else pair.ask.value)
  }

  /** The greatest number of whole lots, of at least the minimum, that fits and is within the limit. */
  ghost predicate IsBestSale(pair: Pair, owned: real, available: real, bid: real, x: real) {
    exists whole, limit ::
      && IsWhole(pair, owned, available, whole) && IsLimit(pair, whole, bid, limit)
      && x >= pair.minimum && Fits(pair, owned, available, x) && x <= limit
      && forall y :: Fits(pair, owned, available, y) && y <= limit ==> y <= x
  }

  /** Nothing of at least the minimum fits and is within the limit. */
  ghost predicate NoSale(pair: Pair, owned: real, available: real, bid: real) {
    exists whole, limit ::
      && IsWhole(pair, owned, available, whole) && IsLimit(pair, whole, bid, limit)
      && forall y :: Fits(pair, owned, available, y) && y <= limit ==> y < pair.minimum
  }

  lemma FitsLimit(pair: Pair, owned: real, available: real, x: real)
    requires P.IsMultiple(x, pair.lot) && x > 0.0
    ensures Fits(pair, owned, available, x)
       <==> x <= E.Rounded(E.UnitsFor(E.Max(0.0, E.Min(owned, available)), 1.0 + pair.fee), pair.lot, false)
  {
    hide P.IsMultiple; hide E.Rounded;
    var usable := E.Max(0.0, E.Min(owned, available));
    Q.CapLimit(x, usable, 1.0 + pair.fee);
    P.StrictProduct(x, 1.0 + pair.fee);
    Q.GreatestBelow(E.UnitsFor(usable, 1.0 + pair.fee), pair.lot, x);
  }

  lemma WholeIs(pair: Pair, owned: real, available: real)
    ensures IsWhole(pair, owned, available, ReductionSize(owned, available, pair.lot, pair.minimum, pair.fee))
  {
    hide P.IsMultiple; hide E.Rounded; hide Fits;
    var most := E.Rounded(E.UnitsFor(E.Max(0.0, E.Min(owned, available)), 1.0 + pair.fee), pair.lot, false);
    P.FloorBounds(E.UnitsFor(E.Max(0.0, E.Min(owned, available)), 1.0 + pair.fee), pair.lot);
    if most >= pair.minimum { FitsLimit(pair, owned, available, most); }
    forall x | Fits(pair, owned, available, x)
      ensures x <= most || x <= 0.0
    {
      if x > 0.0 {
        FitsIsMultiple(pair, owned, available, x);
        FitsLimit(pair, owned, available, x);
      }
    }
  }

  lemma FitsIsMultiple(pair: Pair, owned: real, available: real, x: real)
    requires Fits(pair, owned, available, x)
    ensures P.IsMultiple(x, pair.lot)
  {}

  lemma LimitScales(size: real, ask: real, bid: Positive)
    ensures (size * E.Min(1.0, E.UnitsFor(ask, bid))) * bid == size * (if bid <= ask then bid else ask)
  {
    var q := E.UnitsFor(ask, bid);
    assert q * bid == ask;
    if 1.0 <= q { P.AtLeastUnits(ask, q, 1.0, bid, bid); } else { P.LessTimes(q, 1.0, bid); }
    Regroup(size, E.Min(1.0, q), bid);
  }

  lemma Regroup(a: real, b: real, c: real)
    ensures (a * b) * c == a * (b * c)
  {}

  lemma LimitIs(pair: Pair, whole: real, bid: Positive)
    ensures IsLimit(pair, whole, bid, SaleLimit(pair, whole, bid))
  {
    if pair.ask.Some? { LimitScales(if pair.tradeSize.Some? then pair.tradeSize.value else whole, pair.ask.value, bid); }
  }

  lemma SaleIsBest(pair: Pair, owned: real, available: real, bid: Positive)
    ensures var q := SaleSize(pair, owned, available, bid);
            if q >= pair.minimum then IsBestSale(pair, owned, available, bid, q) else NoSale(pair, owned, available, bid)
  {
    hide P.IsMultiple; hide E.Rounded; hide Fits; hide ReductionSize; hide SaleLimit; hide IsLimit;
    var whole := ReductionSize(owned, available, pair.lot, pair.minimum, pair.fee);
    var limit := SaleLimit(pair, whole, bid);
    var q := SaleSize(pair, owned, available, bid);
    WholeIs(pair, owned, available);
    LimitIs(pair, whole, bid);
    P.FloorBounds(limit, pair.lot);
    if q >= pair.minimum {
      FitsIsMultiple(pair, owned, available, whole);
      SmallerFits(pair, owned, available, whole, q);
    }
    forall y | Fits(pair, owned, available, y) && y <= limit
      ensures y <= q || y < pair.minimum
    {
      FitsIsMultiple(pair, owned, available, y);
      Q.GreatestBelow(limit, pair.lot, y);
    }
    assert IsWhole(pair, owned, available, whole) && IsLimit(pair, whole, bid, limit);
  }

  lemma SmallerFits(pair: Pair, owned: real, available: real, whole: real, x: real)
    requires Fits(pair, owned, available, whole) && x <= whole && P.IsMultiple(x, pair.lot)
    ensures Fits(pair, owned, available, x)
  {
    hide P.IsMultiple;
    B.ProductGrows(x, whole, 1.0 + pair.fee);
  }
}
