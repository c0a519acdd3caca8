/** What a quote is, said of lots, ticks, weights and bands: target, band, price and size of either side are pinned by what they must
    meet and by being the best that meets it. */
module ExecutorQuotes {
  import opened Common
  import opened ExecutorModel
  import opened ExecutorBooks
  import opened ExecutorPricing

  // ---- Greatest and least multiples -----------------------------------------------------------

  lemma UnitsOrder(n: int, k: int, quantum: Positive)
    ensures n <= k ==> Units(n, quantum) <= Units(k, quantum)
    ensures n > k ==> Units(n, quantum) >= Units(k, quantum) + quantum
  {
    if n <= k {
      ProductGrows(n as real, k as real, quantum);
    } else {
      ProductGrows((k + 1) as real, n as real, quantum);
      OneMore(k as real, quantum);
    }
  }

  lemma OneMore(k: real, quantum: real)
    ensures (k + 1.0) * quantum == k * quantum + quantum
  {}

  /** Rounding down gives the greatest multiple that is not above the value. */
  lemma GreatestBelow(value: real, quantum: Positive, x: real)
    requires IsMultiple(x, quantum)
    ensures x <= value <==> x <= Rounded(value, quantum, false)
  {
    FloorBounds(value, quantum);
    var n :| x == Units(n, quantum);
    var k :| Rounded(value, quantum, false) == Units(k, quantum);
    UnitsOrder(n, k, quantum);
  }

  /** Rounding up gives the least multiple that is not below the value. */
  lemma LeastAbove(value: real, quantum: Positive, x: real)
    requires IsMultiple(x, quantum)
    ensures x >= value <==> x >= Rounded(value, quantum, true)
  {
    CeilingBounds(value, quantum);
    var n :| x == Units(n, quantum);
    var k :| Rounded(value, quantum, true) == Units(k, quantum);
    UnitsOrder(k, n, quantum);
  }

  // ---- Target and band ------------------------------------------------------------------------

  /** The most whole lots whose worth at the middle price is within the instrument's share of the net value. */
  ghost predicate Aims(row: Row, nav: real, mid: real, target: real) {
    IsMultiple(target, row.lot) && target * mid <= nav * row.weight < (target + row.lot) * mid
  }

  /** The band lies a number of minimum sizes, with the fee, to either side of the target, but not below nothing; without a weight it
      ends at nothing; and when rebalancing it is the target alone. */
  ghost predicate Bands(row: Row, options: Options, target: real, lower: real, upper: real) {
    var width := row.minSize * options.inventoryBandLots as real * (1.0 + row.fee);
    if options.mode == ContinuousRebalance then lower == target && upper == target
    else
      && lower >= 0.0 && (target - lower == width || (lower == 0.0 && target < width))
      && (row.weight > 0.0 ==> upper - target == width) && (row.weight <= 0.0 ==> upper == 0.0)
  }

  lemma TimesBack(t: real, share: real, mid: Positive, lot: real)
    requires t <= share / mid < t + lot
    ensures t * mid <= share < (t + lot) * mid
  {
    QuotientTimes(share, mid, t);
    LessTimes(share / mid, t + lot, mid);
    QuotientBack(share, mid);
  }

  lemma TargetAims(row: Row, nav: real, mid: Positive)
    ensures Aims(row, nav, mid, Target(row, nav, mid))
  {
    hide IsMultiple; hide Rounded;
    FloorBounds(UnitsFor(Share(row, nav), mid), row.lot);
    TimesBack(Target(row, nav, mid), Share(row, nav), mid, row.lot);
  }

  // ---- Prices ---------------------------------------------------------------------------------

  /** A bid may be as high as the best bid, and inside the band no higher than the fee and half the minimum edge below the middle. */
  ghost predicate BidMayBe(row: Row, options: Options, position: real, lower: real, bid: real, mid: real, price: real) {
    price <= bid && (position >= lower ==> price <= mid * (1.0 - (row.fee + options.minimumEdgeBps as real / 20000.0)))
  }

  ghost predicate AskMayBe(row: Row, options: Options, position: real, upper: real, ask: real, mid: real, price: real) {
    price >= ask && (position <= upper ==> price >= mid * (1.0 + (row.fee + options.minimumEdgeBps as real / 20000.0)))
  }

  /** The highest tick that a bid may be at. */
  ghost predicate IsBid(row: Row, options: Options, position: real, lower: real, bid: real, mid: real, price: real) {
    && IsMultiple(price, row.tick) && BidMayBe(row, options, position, lower, bid, mid, price)
    && forall other :: IsMultiple(other, row.tick) && BidMayBe(row, options, position, lower, bid, mid, other) ==> other <= price
  }

  /** The lowest tick that an ask may be at. */
  ghost predicate IsAsk(row: Row, options: Options, position: real, upper: real, ask: real, mid: real, price: real) {
    && IsMultiple(price, row.tick) && AskMayBe(row, options, position, upper, ask, mid, price)
    && forall other :: IsMultiple(other, row.tick) && AskMayBe(row, options, position, upper, ask, mid, other) ==> other >= price
  }

  lemma EdgeIs(row: Row, options: Options)
    ensures HalfEdge(row, options) == row.fee + options.minimumEdgeBps as real / 20000.0
  {}

  lemma BidLimit(row: Row, options: Options, position: real, lower: real, bid: real, mid: real, price: real)
    requires 0.0 < mid && bid <= mid
    ensures BidMayBe(row, options, position, lower, bid, mid, price) <==> price <= WantedBuyPrice(row, options, position, lower, bid, mid)
  {
    EdgeIs(row, options);
  }

  lemma AskLimit(row: Row, options: Options, position: real, upper: real, ask: real, mid: real, price: real)
    requires 0.0 < mid && mid <= ask
    ensures AskMayBe(row, options, position, upper, ask, mid, price) <==> price >= WantedSellPrice(row, options, position, upper, ask, mid)
  {
    EdgeIs(row, options);
  }

  lemma BidIsHighest(row: Row, options: Options, position: real, lower: real, bid: real, mid: real)
    requires 0.0 < mid && bid <= mid
    ensures IsBid(row, options, position, lower, bid, mid, Rounded(WantedBuyPrice(row, options, position, lower, bid, mid), row.tick, false))
  {
    hide IsMultiple; hide BidMayBe; hide WantedBuyPrice; hide Rounded;
    var limit := WantedBuyPrice(row, options, position, lower, bid, mid);
    FloorBounds(limit, row.tick);
    BidLimit(row, options, position, lower, bid, mid, Rounded(limit, row.tick, false));
    forall other | IsMultiple(other, row.tick) && BidMayBe(row, options, position, lower, bid, mid, other)
      ensures other <= Rounded(limit, row.tick, false)
    {
      BidLimit(row, options, position, lower, bid, mid, other);
      GreatestBelow(limit, row.tick, other);
    }
  }

  lemma AskIsLowest(row: Row, options: Options, position: real, upper: real, ask: real, mid: real)
    requires 0.0 < mid && mid <= ask
    ensures IsAsk(row, options, position, upper, ask, mid, Rounded(WantedSellPrice(row, options, position, upper, ask, mid), row.tick, true))
  {
    hide IsMultiple; hide AskMayBe; hide WantedSellPrice; hide Rounded;
    var limit := WantedSellPrice(row, options, position, upper, ask, mid);
    CeilingBounds(limit, row.tick);
    AskLimit(row, options, position, upper, ask, mid, Rounded(limit, row.tick, true));
    forall other | IsMultiple(other, row.tick) && AskMayBe(row, options, position, upper, ask, mid, other)
      ensures other >= Rounded(limit, row.tick, true)
    {
      AskLimit(row, options, position, upper, ask, mid, other);
      LeastAbove(limit, row.tick, other);
    }
  }

  // ---- Sizes ----------------------------------------------------------------------------------

  /** Whole lots, at least the minimum, and no more than the quote size rounded up to a lot. */
  ghost predicate SizeMayBe(row: Row, options: Options, x: real) {
    IsMultiple(x, row.lot) && row.minSize <= x < row.minSize * options.quoteSizeLots as real + row.lot
  }

  /** And a purchase stays inside the band. */
  ghost predicate BuyMayBe(row: Row, options: Options, position: real, upper: real, x: real) {
    SizeMayBe(row, options, x) && position + x <= upper
  }

  /** And a sale, with its fee, stays inside the band. */
  ghost predicate SellMayBe(row: Row, options: Options, position: real, lower: real, x: real) {
    SizeMayBe(row, options, x) && x * (1.0 + row.fee) <= position - lower
  }

  ghost predicate Affords(options: Options, x: real, price: real) { x * price <= options.maxOrderNotionalUsdt as real }

  lemma SizeLimit(row: Row, options: Options, x: real)
    requires IsMultiple(x, row.lot) && x >= row.minSize
    ensures x < row.minSize * options.quoteSizeLots as real + row.lot <==> x <= Size(row, options)
  {
    hide IsMultiple; hide Rounded;
    WithinNextUnit(WholeSize(row, options), row.lot, x);
  }

  lemma WithinNextUnit(value: real, quantum: Positive, x: real)
    requires IsMultiple(x, quantum)
    ensures x < value + quantum <==> x <= Rounded(value, quantum, true)
  {
    CeilingBounds(value, quantum);
    var n :| x == Units(n, quantum);
    var k :| Rounded(value, quantum, true) == Units(k, quantum);
    UnitsOrder(n, k, quantum);
  }

  lemma BuyLimit(row: Row, options: Options, position: real, upper: real, x: real)
    requires IsMultiple(x, row.lot) && x >= row.minSize
    ensures BuyMayBe(row, options, position, upper, x) <==> x <= BuyRequested(row, Size(row, options), position, upper)
  {
    hide IsMultiple; hide Size; hide Rounded;
    SizeLimit(row, options, x);
    GreatestBelow(Min(Size(row, options), Max(0.0, upper - position)), row.lot, x);
  }

  lemma CapLimit(x: real, cap: real, price: Positive)
    ensures x * price <= cap <==> x <= cap / price
  {
    var q := cap / price;
    assert q * price == cap;
    if x <= q { ProductGrows(x, q, price); } else { LessTimes(q, x, price); }
  }

  lemma SellLimit(row: Row, options: Options, position: real, lower: real, x: real)
    requires IsMultiple(x, row.lot) && x >= row.minSize
    ensures SellMayBe(row, options, position, lower, x) <==> x <= SellRequested(row, Size(row, options), position, lower)
  {
    hide IsMultiple; hide Size; hide Rounded;
    SizeLimit(row, options, x);
    CapLimit(x, Max(0.0, position - lower), 1.0 + row.fee);
    StrictProduct(x, 1.0 + row.fee);
    GreatestBelow(Min(Size(row, options), Max(0.0, position - lower) / (1.0 + row.fee)), row.lot, x);
  }

  lemma CappedLimit(wanted: real, cap: real, price: Positive, lot: Positive, x: real)
    requires IsMultiple(x, lot)
    ensures x <= Capped(wanted, cap, price, lot) <==> x <= wanted && x * price <= cap
  {
    hide IsMultiple; hide Rounded;
    CapLimit(x, cap, price);
    GreatestBelow(Min(wanted, cap / price), lot, x);
  }

  // ---- The plan -------------------------------------------------------------------------------

  /** Of all that the purchase may be, the greatest whose worth is within the cap. */
  ghost predicate IsBestBuy(row: Row, options: Options, position: real, upper: real, price: real, x: real) {
    && BuyMayBe(row, options, position, upper, x) && Affords(options, x, price)
    && forall y :: BuyMayBe(row, options, position, upper, y) && Affords(options, y, price) ==> y <= x
  }

  ghost predicate IsBestSell(row: Row, options: Options, position: real, lower: real, price: real, x: real) {
    && SellMayBe(row, options, position, lower, x) && Affords(options, x, price)
    && forall y :: SellMayBe(row, options, position, lower, y) && Affords(options, y, price) ==> y <= x
  }

  /** A purchase is wanted at the highest bid there may be, in the greatest size there may be, unless the run only reduces, or no size
      or no positive price is possible. */
  ghost predicate BuySide(row: Row, options: Options, position: real, plan: Plan, bid: real, mid: real, reducing: bool) {
    exists price :: IsBid(row, options, position, plan.lower, bid, mid, price) &&
      if plan.buy.Some? then
        && !reducing && price > 0.0 && plan.buy.value.price == price
        && IsBestBuy(row, options, position, plan.upper, price, plan.buy.value.quantity)
      else
        reducing || price <= 0.0 || forall x :: BuyMayBe(row, options, position, plan.upper, x) ==> !Affords(options, x, price)
  }

  ghost predicate SellSide(row: Row, options: Options, position: real, plan: Plan, ask: real, mid: real) {
    exists price :: IsAsk(row, options, position, plan.upper, ask, mid, price) && price > 0.0 &&
      if plan.sell.Some? then
        && plan.sell.value.price == price && IsBestSell(row, options, position, plan.lower, price, plan.sell.value.quantity)
      else
        forall x :: SellMayBe(row, options, position, plan.lower, x) ==> !Affords(options, x, price)
  }

  lemma BuyIsBest(row: Row, options: Options, position: real, upper: real, price: Positive)
    ensures var q := Capped(BuyRequested(row, Size(row, options), position, upper), options.maxOrderNotionalUsdt as real, price, row.lot);
            if q >= row.minSize then IsBestBuy(row, options, position, upper, price, q)
            else forall x :: BuyMayBe(row, options, position, upper, x) ==> !Affords(options, x, price)
  {
    hide IsMultiple; hide Size; hide BuyRequested; hide Capped;
    var wanted, cap := BuyRequested(row, Size(row, options), position, upper), options.maxOrderNotionalUsdt as real;
    var q := Capped(wanted, cap, price, row.lot);
    CappedFits(wanted, cap, price, row.lot);
    if q >= row.minSize { BuyLimit(row, options, position, upper, q); }
    forall x | BuyMayBe(row, options, position, upper, x) && Affords(options, x, price)
      ensures x <= q
    {
      BuyLimit(row, options, position, upper, x);
      CappedLimit(wanted, cap, price, row.lot, x);
    }
  }

  lemma SellIsBest(row: Row, options: Options, position: real, lower: real, price: Positive)
    ensures var q := Capped(SellRequested(row, Size(row, options), position, lower), options.maxOrderNotionalUsdt as real, price, row.lot);
            if q >= row.minSize then IsBestSell(row, options, position, lower, price, q)
            else forall x :: SellMayBe(row, options, position, lower, x) ==> !Affords(options, x, price)
  {
    hide IsMultiple; hide Size; hide SellRequested; hide Capped;
    var wanted, cap := SellRequested(row, Size(row, options), position, lower), options.maxOrderNotionalUsdt as real;
    var q := Capped(wanted, cap, price, row.lot);
    CappedFits(wanted, cap, price, row.lot);
    if q >= row.minSize { SellLimit(row, options, position, lower, q); }
    forall x | SellMayBe(row, options, position, lower, x) && Affords(options, x, price)
      ensures x <= q
    {
      SellLimit(row, options, position, lower, x);
      CappedLimit(wanted, cap, price, row.lot, x);
    }
  }

  /** What intents is: the target, the band around it, and for each side the best quote there is. */
  lemma IntentsMean(row: Row, options: Options, position: real, bid: real, ask: real, nav: real, reducing: bool)
    requires 0.0 < bid <= ask
    ensures var plan := Intents(row, options, position, bid, ask, nav, reducing); var mid := (bid + ask) / 2.0;
            && Aims(row, nav, mid, plan.target) && Bands(row, options, plan.target, plan.lower, plan.upper)
            && (!plan.raises ==> BuySide(row, options, position, plan, bid, mid, reducing) && SellSide(row, options, position, plan, ask, mid))
  {
    hide Rounded; hide Capped; hide Size; hide BuyRequested; hide SellRequested; hide IsMultiple; hide WantedBuyPrice; hide WantedSellPrice;
    hide Target; hide IsBid; hide IsAsk; hide IsBestBuy; hide IsBestSell; hide BuyMayBe; hide SellMayBe; hide Affords; hide Aims;
    var plan, mid := Intents(row, options, position, bid, ask, nav, reducing), (bid + ask) / 2.0;
    TargetAims(row, nav, mid);
    BandsAre(row, options, plan.target);
    if !plan.raises {
      var buyPx := Rounded(WantedBuyPrice(row, options, position, plan.lower, bid, mid), row.tick, false);
      var sellPx := Rounded(WantedSellPrice(row, options, position, plan.upper, ask, mid), row.tick, true);
      BidIsHighest(row, options, position, plan.lower, bid, mid);
      AskIsLowest(row, options, position, plan.upper, ask, mid);
      WantedPricesArePassive(row, options, position, plan.lower, plan.upper, bid, ask, mid);
      CeilingBounds(WantedSellPrice(row, options, position, plan.upper, ask, mid), row.tick);
      if buyPx > 0.0 { BuyIsBest(row, options, position, plan.upper, buyPx); }
      SellIsBest(row, options, position, plan.lower, sellPx);
    }
  }

  lemma BandsAre(row: Row, options: Options, target: real)
    ensures var (lower, upper) := Band(row, options, target); Bands(row, options, target, lower, upper)
  {}
}
