/** Quote arithmetic: what intents may ask for. */
module ExecutorPricing {
  import opened ExecutorModel
  import opened ExecutorBooks

  function Units(n: int, quantum: Positive): real { n as real * quantum }

  ghost predicate IsMultiple(x: real, quantum: Positive) {
    exists n: int :: x == Units(n, quantum)
  }

  lemma StrictProduct(a: real, b: real)
    requires a > 0.0 && b > 0.0
    ensures a * b > 0.0
  {}

  lemma LessTimes(a: real, b: real, q: real)
    requires a < b && q > 0.0
    ensures a * q < b * q
  {
    StrictProduct(b - a, q);
    assert (b - a) * q == b * q - a * q;
  }

  lemma Gap(x: real, m: real, q: real)
    ensures (m + 1.0 - x) * q == m * q + q - x * q
  {}

  lemma BelowNextUnit(value: real, x: real, m: real, q: real, units: real)
    requires x < m + 1.0 && q > 0.0 && x * q == value && m * q == units
    ensures value < units + q
  {
    StrictProduct(m + 1.0 - x, q);
    Gap(x, m, q);
  }

  lemma AtLeastUnits(value: real, x: real, m: real, q: real, units: real)
    requires m <= x && q > 0.0 && x * q == value && m * q == units
    ensures units <= value
  {
    ProductIsNonnegative(x - m, q);
    assert (x - m) * q == x * q - m * q;
  }

  lemma Between(value: real, x: real, m: real, q: real, units: real)
    requires m <= x < m + 1.0 && q > 0.0 && x * q == value && m * q == units
    ensures units <= value < units + q
  {
    AtLeastUnits(value, x, m, q, units);
    BelowNextUnit(value, x, m, q, units);
  }

  lemma QuotientBack(value: real, quantum: Positive)
    ensures value / quantum * quantum == value
  {}

  lemma FloorBounds(value: real, quantum: Positive)
    ensures var r := Rounded(value, quantum, false); r <= value < r + quantum && IsMultiple(r, quantum)
  {
    QuotientBack(value, quantum);
    Between(value, value / quantum, (value / quantum).Floor as real, quantum, Rounded(value, quantum, false));
    assert Rounded(value, quantum, false) == Units((value / quantum).Floor, quantum);
  }

  lemma CeilingBounds(value: real, quantum: Positive)
    ensures var r := Rounded(value, quantum, true); value <= r < value + quantum && IsMultiple(r, quantum)
  {
    FloorBounds(-value, quantum);
    var n := (-(value / quantum)).Floor;
    assert -(value / quantum) == (-value) / quantum;
    assert Rounded(-value, quantum, false) == Units(n, quantum);
    assert Rounded(value, quantum, true) == -(n as real) * quantum == Units(-n, quantum);
  }

  /** Rounding a nonnegative amount down keeps it nonnegative. */
  lemma FloorIsNonnegative(value: real, quantum: Positive)
    requires value >= 0.0
    ensures Rounded(value, quantum, false) >= 0.0
  {
    QuotientIsNonnegative(value, quantum);
    ProductIsNonnegative((value / quantum).Floor as real, quantum);
  }

  lemma QuotientIsNonnegative(a: real, b: Positive)
    requires a >= 0.0
    ensures a / b >= 0.0
  {}

  lemma QuotientTimes(a: real, b: real, x: real)
    requires b > 0.0 && x <= a / b
    ensures x * b <= a
  {
    ProductGrows(x, a / b, b);
    assert a / b * b == a;
  }

  /** What the venue may be handed: whole lots of at least the minimum, on a tick, on the passive side, inside the cap. */
  ghost predicate Admissible(row: Row, options: Options, side: Side, quantity: real, price: real, bid: real, ask: real) {
    && IsMultiple(quantity, row.lot) && quantity >= row.minSize
    && IsMultiple(price, row.tick) && price > 0.0
    && (if side.Buy? then price <= bid else ask <= price)
    && quantity * price <= options.maxOrderNotionalUsdt as real
  }

  lemma CappedFits(wanted: real, cap: real, price: real, lot: Positive)
    requires price > 0.0
    ensures var q := Capped(wanted, cap, price, lot);
            IsMultiple(q, lot) && q <= wanted && q * price <= cap
  {
    FloorBounds(Min(wanted, cap / price), lot);
    QuotientTimes(cap, price, Capped(wanted, cap, price, lot));
  }

  lemma WantedPricesArePassive(row: Row, options: Options, position: real, lower: real, upper: real, bid: real, ask: real, mid: real)
    ensures WantedBuyPrice(row, options, position, lower, bid, mid) <= bid
    ensures ask <= WantedSellPrice(row, options, position, upper, ask, mid)
  {}

  lemma BuyFitsBand(row: Row, size: real, position: real, upper: real, quantity: real)
    requires 0.0 < quantity <= BuyRequested(row, size, position, upper)
    ensures position + quantity <= upper
  {
    FloorBounds(Min(size, Max(0.0, upper - position)), row.lot);
  }

  lemma SellFitsBand(row: Row, size: real, position: real, lower: real, quantity: real)
    requires 0.0 < quantity <= SellRequested(row, size, position, lower)
    ensures lower <= position - quantity * (1.0 + row.fee)
  {
    FloorBounds(Min(size, Max(0.0, position - lower) / (1.0 + row.fee)), row.lot);
    QuotientTimes(Max(0.0, position - lower), 1.0 + row.fee, quantity);
    StrictProduct(quantity, 1.0 + row.fee);
  }

  lemma BandIsNonnegative(row: Row, options: Options, nav: real, mid: Positive)
    requires nav >= 0.0 && row.weight >= 0.0
    ensures 0.0 <= Band(row, options, Target(row, nav, mid)).0
  {
    ProductIsNonnegative(nav, row.weight);
    QuotientIsNonnegative(Share(row, nav), mid);
    FloorIsNonnegative(UnitsFor(Share(row, nav), mid), row.lot);
  }

  ghost predicate GoodBuy(row: Row, options: Options, position: real, plan: Plan, bid: real, ask: real) {
    plan.buy.Some? ==>
      && Admissible(row, options, Buy, plan.buy.value.quantity, plan.buy.value.price, bid, ask)
      && position + plan.buy.value.quantity <= plan.upper
  }

  ghost predicate GoodSell(row: Row, options: Options, position: real, plan: Plan, bid: real, ask: real) {
    plan.sell.Some? ==>
      && Admissible(row, options, Sell, plan.sell.value.quantity, plan.sell.value.price, bid, ask)
      && 0.0 <= plan.lower <= position - plan.sell.value.quantity * (1.0 + row.fee)
  }

  /** Every quote intents asks for is admissible and fits the band; a reducing run is never asked to buy. */
  lemma IntentsAreAdmissible(row: Row, options: Options, position: real, bid: real, ask: real, nav: real, reducing: bool)
    requires 0.0 < bid <= ask && nav >= 0.0 && row.weight >= 0.0
    ensures var plan := Intents(row, options, position, bid, ask, nav, reducing);
            GoodBuy(row, options, position, plan, bid, ask) && GoodSell(row, options, position, plan, bid, ask)
            && (reducing ==> plan.buy.None?)
  {
    hide Rounded; hide Capped; hide WantedBuyPrice; hide WantedSellPrice; hide Band; hide Target; hide Size;
    hide BuyRequested; hide SellRequested; hide IsMultiple;
    var plan := Intents(row, options, position, bid, ask, nav, reducing);
    var mid := (bid + ask) / 2.0;
    var cap := options.maxOrderNotionalUsdt as real;
    var size := Size(row, options);
    BandIsNonnegative(row, options, nav, mid);
    WantedPricesArePassive(row, options, position, plan.lower, plan.upper, bid, ask, mid);
    if plan.buy.Some? {
      var px := WantedBuyPrice(row, options, position, plan.lower, bid, mid);
      FloorBounds(px, row.tick);
      CappedFits(BuyRequested(row, size, position, plan.upper), cap, plan.buy.value.price, row.lot);
      BuyFitsBand(row, size, position, plan.upper, plan.buy.value.quantity);
    }
    if plan.sell.Some? {
      var px := WantedSellPrice(row, options, position, plan.upper, ask, mid);
      CeilingBounds(px, row.tick);
      CappedFits(SellRequested(row, size, position, plan.lower), cap, plan.sell.value.price, row.lot);
      SellFitsBand(row, size, position, plan.lower, plan.sell.value.quantity);
    }
  }

  /** The passive buy price is nonnegative and below one tick, so that it rounds to zero. */
  predicate BelowOneTick(row: Row, options: Options, position: real, bid: real, ask: real, nav: real)
    requires 0.0 < bid <= ask
  {
    var mid := (bid + ask) / 2.0;
    var lower := Band(row, options, Target(row, nav, mid)).0;
    0.0 <= WantedBuyPrice(row, options, position, lower, bid, mid) < row.tick
  }

  /** intents raises a division by zero exactly then, although the test that follows the division is meant to skip such a quote. */
  lemma IntentsRaisesBelowOneTick(row: Row, options: Options, position: real, bid: real, ask: real, nav: real, reducing: bool)
    requires 0.0 < bid <= ask
    ensures Intents(row, options, position, bid, ask, nav, reducing).raises <==> BelowOneTick(row, options, position, bid, ask, nav)
  {
    hide Rounded; hide Capped; hide WantedBuyPrice; hide WantedSellPrice; hide Band; hide Target; hide Size;
    hide BuyRequested; hide SellRequested; hide IsMultiple;
    var plan := Intents(row, options, position, bid, ask, nav, reducing);
    var mid := (bid + ask) / 2.0;
    RoundsToZero(WantedBuyPrice(row, options, position, plan.lower, bid, mid), row.tick);
    WantedPricesArePassive(row, options, position, plan.lower, plan.upper, bid, ask, mid);
    CeilingBounds(WantedSellPrice(row, options, position, plan.upper, ask, mid), row.tick);
  }

  lemma UnitsSign(n: int, quantum: Positive)
    ensures n > 0 ==> Units(n, quantum) >= quantum
    ensures n < 0 ==> Units(n, quantum) < 0.0
  {
    if n > 0 { ProductGrows(1.0, n as real, quantum); }
    if n < 0 { LessTimes(n as real, 0.0, quantum); }
  }

  lemma RoundsToZero(value: real, quantum: Positive)
    ensures Rounded(value, quantum, false) == 0.0 <==> 0.0 <= value < quantum
  {
    FloorBounds(value, quantum);
    var n :| Rounded(value, quantum, false) == Units(n, quantum);
    UnitsSign(n, quantum);
  }
}
