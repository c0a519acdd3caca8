/** Whole runs of the executor: every step keeps the books, the band, the rate windows and the quote arithmetic. */
module ExecutorRuns {
  import opened Common
  import opened ExecutorModel
  import opened ExecutorBooks
  import opened ExecutorPricing
  import opened ExecutorRates

  ghost predicate OrderOk(c: Config, o: Order) {
    && o.key in c.rows && 0.0 < o.bid <= o.ask
    && Admissible(c.rows[o.key], c.options, o.side, o.quantity, o.price, o.bid, o.ask)
  }

  ghost predicate DeskInv(c: Config, d: Desk, clock: real) {
    && BookInv(d.book, c.rows)
    && MeterInv(d.meter, clock, c.options.maxOrdersPerSecond)
    && (forall o :: o in d.orders ==> OrderOk(c, o))
  }

  /** A quote that intents may ask for: admissible, and inside the bound it carries. */
  ghost predicate IntentOk(c: Config, position: real, key: Key, side: Side, quantity: real, price: Positive, limit: real, quote: Quote)
    requires key in c.rows
  {
    && 0.0 < quote.bid <= quote.ask
    && Admissible(c.rows[key], c.options, side, quantity, price, quote.bid, quote.ask)
    && (if side.Buy? then position + quantity <= limit else 0.0 <= limit <= position - quantity * (1.0 + c.rows[key].fee))
  }

  lemma SmallerQuantityFits(quantity: real, smaller: real, price: Positive, cap: real)
    requires smaller <= quantity && quantity * price <= cap
    ensures smaller * price <= cap
  {
    ProductGrows(smaller, quantity, price);
  }

  lemma CostFits(available: real, quantity: real, price: Positive, fee: Fee)
    requires quantity <= UnitsFor(available, UnitCost(price, fee))
    ensures quantity * price * (1.0 + fee) <= available
  {
    QuotientTimes(available, UnitCost(price, fee), quantity);
    assert quantity * (price * (1.0 + fee)) == quantity * price * (1.0 + fee);
  }

  lemma FundsCover(b: Book, rows: map<Key, Row>)
    requires BookInv(b, rows)
    ensures Reserved(b.reservations) <= b.cash
  {}

  lemma AffordablePays(b: Book, row: Row, quantity: real, price: Positive)
    requires Reserved(b.reservations) <= b.cash
    ensures var q := Affordable(b, row, quantity, price);
            q <= quantity && Reserved(b.reservations) + q * price * (1.0 + row.fee) <= b.cash
  {
    hide Reserved; hide Rounded; hide IsMultiple;
    var available := b.cash - Reserved(b.reservations);
    FloorBounds(UnitsFor(available, UnitCost(price, row.fee)), row.lot);
    CostFits(available, Affordable(b, row, quantity, price), price, row.fee);
  }

  lemma AffordableIsLots(b: Book, row: Row, quantity: real, price: Positive)
    requires IsMultiple(quantity, row.lot)
    ensures IsMultiple(Affordable(b, row, quantity, price), row.lot)
  {
    hide Reserved; hide Rounded; hide IsMultiple;
    FloorBounds(UnitsFor(Max(0.0, b.cash - Reserved(b.reservations)), UnitCost(price, row.fee)), row.lot);
  }

  /** Resizing a BUY to the free cash keeps it admissible and in its band, and makes it affordable. */
  lemma AffordableFits(c: Config, b: Book, key: Key, quantity: real, price: Positive, limit: real, quote: Quote)
    requires BookInv(b, c.rows) && key in c.rows
    requires IntentOk(c, b.positions[key], key, Buy, quantity, price, limit, quote)
    requires Affordable(b, c.rows[key], quantity, price) >= c.rows[key].minSize
    ensures var q := Affordable(b, c.rows[key], quantity, price);
            && IntentOk(c, b.positions[key], key, Buy, q, price, limit, quote)
            && Reserved(b.reservations) + q * price * (1.0 + c.rows[key].fee) <= b.cash
  {
    hide Affordable; hide IsMultiple; hide Reserved; hide SlotOk; hide Inverse;
    var q := Affordable(b, c.rows[key], quantity, price);
    AffordablePays(b, c.rows[key], quantity, price);
    AffordableIsLots(b, c.rows[key], quantity, price);
    SmallerQuantityFits(quantity, q, price, c.options.maxOrderNotionalUsdt as real);
  }

  // ---- One cycle ------------------------------------------------------------------------------

  lemma CancelKeeps(c: Config, d: Desk, id: OrderId, env: Env)
    requires DeskInv(c, d, env.now) && id in d.book.reservations
    ensures DeskInv(c, CancelRequested(c, d, id, env), env.now)
  {
    hide BookInv; hide MeterInv; hide Pruned; hide Recorded; hide Allowed; hide OrderOk;
    var slot := d.book.reservations[id];
    var limit := c.options.maxOrdersPerSecond;
    PruneKeepsMeter(d.meter, slot.key, Cancel, env.now, limit);
    if Allowed(limit, d.meter, slot.key, Cancel, env.now) { RecordKeepsMeter(d.meter, slot.key, Cancel, env.now, limit); }
    FlagsKeepBook(d.book, c.rows, id, slot.(cancelRequested := true));
  }

  lemma OrdersAppend(c: Config, orders: seq<Order>, o: Order)
    requires (forall x :: x in orders ==> OrderOk(c, x)) && OrderOk(c, o)
    ensures forall x :: x in orders + [o] ==> OrderOk(c, x)
  {}

  /** A submission keeps everything whatever the venue does: sends it, denies it on the spot, or raises. */
  lemma SubmissionKeeps(c: Config, d: Desk, env: Env, key: Key, side: Side, quantity: real, price: Positive, limit: real, quote: Quote)
    requires DeskInv(c, d, env.now) && key in c.rows && (key, side) !in d.book.pending
    requires Allowed(c.options.maxOrdersPerSecond, d.meter, key, Submit, env.now)
    requires IntentOk(c, d.book.positions[key], key, side, quantity, price, limit, quote)
    requires side.Buy? ==> Reserved(d.book.reservations) + quantity * price * (1.0 + c.rows[key].fee) <= d.book.cash
    ensures var p := d.(meter := Pruned(d.meter, key, Submit, env.now));
            var slot := Slot(key, side, quantity, price, c.rows[key].fee, env.now, false, false);
            DeskInv(c, Submission(p, env, slot, limit, quote).desk, env.now)
  {
    hide BookInv; hide MeterInv; hide Pruned; hide Recorded; hide Allowed; hide Admissible; hide IsMultiple; hide Reserved; hide Released; hide Reserve;
    var slot := Slot(key, side, quantity, price, c.rows[key].fee, env.now, false, false);
    FundsCover(d.book, c.rows);
    AdmissibleIsPositive(c.rows[key], c.options, side, quantity, price, quote.bid, quote.ask);
    ReserveKeepsBook(d.book, c.rows, slot, limit);
    var reserved := Reserve(d.book, slot, limit);
    ReleaseKeepsBook(reserved, c.rows, d.book.nextOrder);
    PruneKeepsMeter(d.meter, key, Submit, env.now, c.options.maxOrdersPerSecond);
    RecordKeepsMeter(d.meter, key, Submit, env.now, c.options.maxOrdersPerSecond);
    var order := Order(d.book.nextOrder, key, side, quantity, price, quote.bid, quote.ask);
    OrdersAppend(c, d.orders, order);
  }

  lemma AdmissibleIsPositive(row: Row, options: Options, side: Side, quantity: real, price: real, bid: real, ask: real)
    requires Admissible(row, options, side, quantity, price, bid, ask)
    ensures quantity > 0.0
  {}

  ghost predicate WantOk(c: Config, position: real, key: Key, side: Side, intent: Option<Intent>, limit: real, quote: Quote)
    requires key in c.rows
  {
    intent.Some? ==> IntentOk(c, position, key, side, intent.value.quantity, intent.value.price, limit, quote)
  }

  lemma SideStepKeeps(c: Config, d: Desk, env: Env, key: Key, side: Side, intent: Option<Intent>, limit: real, quote: Quote)
    requires DeskInv(c, d, env.now) && key in c.rows
    requires WantOk(c, d.book.positions[key], key, side, intent, limit, quote)
    ensures DeskInv(c, SideStep(c, d, env, key, side, intent, limit, quote).desk, env.now)
  {
    hide MeterInv; hide Pruned; hide Allowed; hide Admissible; hide IsMultiple; hide Reserved; hide Submission; hide CancelRequested;
    hide Stale; hide OrderOk; hide SlotOk; hide Affordable;
    var b := d.book;
    var limits := c.options.maxOrdersPerSecond;
    if (key, side) in b.pending && b.pending[(key, side)] in b.reservations {
      CancelKeeps(c, d, b.pending[(key, side)], env);
    } else if intent.Some? {
      PruneKeepsMeter(d.meter, key, Submit, env.now, limits);
      if Allowed(limits, d.meter, key, Submit, env.now) {
        var quantity, price := intent.value.quantity, intent.value.price;
        if side.Sell? {
          SubmissionKeeps(c, d, env, key, side, quantity, price, limit, quote);
        } else if Affordable(b, c.rows[key], quantity, price) >= c.rows[key].minSize {
          AffordableFits(c, b, key, quantity, price, limit, quote);
          SubmissionKeeps(c, d, env, key, side, Affordable(b, c.rows[key], quantity, price), price, limit, quote);
        }
      }
    }
  }

  lemma WantedIsOk(c: Config, d: Desk, env: Env, key: Key, nav: real)
    requires ValidConfig(c) && key in c.rows && key in d.book.positions
    ensures var want := Wanted(c, d.quotes, d.backoff, d.book.positions[key], env, key, nav);
            want.Priced? ==> WantOk(c, d.book.positions[key], key, Sell, want.plan.sell, want.plan.lower, want.quote)
                             && WantOk(c, d.book.positions[key], key, Buy, want.plan.buy, want.plan.upper, want.quote)
                             && (env.reducing ==> want.plan.buy.None?)
  {
    hide Intents; hide Admissible;
    if Wanted(c, d.quotes, d.backoff, d.book.positions[key], env, key, nav).Priced? {
      var quote := d.quotes[key];
      IntentsAreAdmissible(c.rows[key], c.options, d.book.positions[key], quote.bid, quote.ask, Max(nav, 0.0), env.reducing);
    }
  }

  lemma InstrumentStepKeeps(c: Config, d: Desk, env: Env, key: Key, nav: real)
    requires ValidConfig(c) && DeskInv(c, d, env.now) && key in c.rows
    ensures DeskInv(c, InstrumentStep(c, d, env, key, nav).desk, env.now)
  {
    hide BookInv; hide MeterInv; hide SideStep; hide IntentOk; hide OrderOk; hide Intents;
    assert key in d.book.positions by { BookHasRows(d.book, c.rows); }
    WantedIsOk(c, d, env, key, nav);
    var want := Wanted(c, d.quotes, d.backoff, d.book.positions[key], env, key, nav);
    if want.Priced? {
      var start := d.(targets := d.targets[key := want.plan.target]);
      if !want.plan.raises {
        SideStepKeeps(c, start, env, key, Sell, want.plan.sell, want.plan.lower, want.quote);
        var sold := SideStep(c, start, env, key, Sell, want.plan.sell, want.plan.lower, want.quote);
        if !sold.raised { SideStepKeeps(c, sold.desk, env, key, Buy, want.plan.buy, want.plan.upper, want.quote); }
      }
    } else {
      var blank := Quote(0.0, 0.0, 0);
      SideStepKeeps(c, d, env, key, Sell, None, 0.0, blank);
      var sold := SideStep(c, d, env, key, Sell, None, 0.0, blank);
      if !sold.raised { SideStepKeeps(c, sold.desk, env, key, Buy, None, 0.0, blank); }
    }
  }

  lemma BookHasRows(b: Book, rows: map<Key, Row>)
    requires BookInv(b, rows)
    ensures b.positions.Keys == rows.Keys
  {}

  lemma {:induction false} DriveKeysKeeps(c: Config, d: Desk, env: Env, keys: seq<Key>, nav: real)
    requires ValidConfig(c) && DeskInv(c, d, env.now)
    requires forall k :: k in keys ==> k in c.rows && k in d.book.positions
    ensures DeskInv(c, DriveKeys(c, d, env, keys, nav).desk, env.now)
    decreases |keys|
  {
    hide DeskInv; hide InstrumentStep;
    if keys != [] {
      InstrumentStepKeeps(c, d, env, keys[0], nav);
      var one := InstrumentStep(c, d, env, keys[0], nav);
      if !one.raised { DriveKeysKeeps(c, one.desk, env, keys[1..], nav); }
    }
  }

  /** drive, over every instrument and both sides, including the cycles cut short by an exception. */
  lemma DriveKeeps(c: Config, d: Desk, env: Env, clock: real)
    requires ValidConfig(c) && DeskInv(c, d, clock) && clock <= env.now
    ensures DeskInv(c, Driven(c, d, env).desk, env.now)
  {
    hide MeterInv; hide BookInv; hide OrderOk; hide Refreshed; hide DriveKeys; hide Opened; hide ValidConfig;
    BookHasRows(d.book, c.rows);
    LaterKeepsMeter(d.meter, clock, env.now, c.options.maxOrdersPerSecond);
    if !(env.now - d.lastCycle < c.options.quoteIntervalMs as real / 1000.0) {
      RefreshKeepsBook(d.book, c.rows, env.status);
      var (valued, nav) := Opened(c, d, env);
      BookHasRows(valued.book, c.rows);
      OrderIsRows(c);
      DriveKeysKeeps(c, valued, env, Rotated(c.order, valued.cursor), nav);
    }
  }

  lemma LaterMeter(c: Config, d: Desk, clock: real, now: real)
    requires DeskInv(c, d, clock) && clock <= now
    ensures MeterInv(d.meter, now, c.options.maxOrdersPerSecond)
  {
    LaterKeepsMeter(d.meter, clock, now, c.options.maxOrdersPerSecond);
  }

  lemma OrderIsRows(c: Config)
    requires ValidConfig(c)
    ensures forall k :: k in c.order ==> k in c.rows
  {}

  // ---- Whole runs -----------------------------------------------------------------------------

  /** A step the environment may take: the clock does not go back, and a fill is one the venue may report. */
  ghost predicate Legal(d: Desk, clock: real, step: Step) {
    && clock <= Clock(step, clock)
    && (step.OnFilled? ==> VenueFill(d.book, step.fill))
  }

  ghost predicate LegalRun(c: Config, d: Desk, steps: seq<Step>)
    requires ValidConfig(c)
  {
    forall i :: 0 <= i < |steps| ==> Legal(Run(c, d, steps[..i]), RunClock(steps[..i], 0.0), steps[i])
  }

  lemma AdvanceKeeps(c: Config, d: Desk, clock: real, step: Step)
    requires ValidConfig(c) && DeskInv(c, d, clock) && Legal(d, clock, step)
    ensures DeskInv(c, Advance(c, d, step), Clock(step, clock))
  {
    hide BookInv; hide MeterInv; hide OrderOk; hide VenueFill; hide Driven; hide FilledBook; hide Released; hide ValidConfig;
    var limit := c.options.maxOrdersPerSecond;
    var now := Clock(step, clock);
    LaterKeepsMeter(d.meter, clock, now, limit);
    match step
    case Drive(env) => BookHasRows(d.book, c.rows); DriveKeeps(c, d, env, clock);
    case OnQuote(_, _) =>
    case OnAccepted(id) =>
      if id in d.book.reservations { FlagsKeepBook(d.book, c.rows, id, d.book.reservations[id].(acked := true)); }
    case OnFilled(fill) => FillKeepsBook(d.book, c.rows, fill);
    case OnRejected(id, _) => ReleaseKeepsBook(d.book, c.rows, id);
    case Metrics(_) => MetricsKeepMeter(d, now, limit);
  }

  lemma InitialHolds(c: Config, positions: map<Key, real>, cash: real)
    requires ValidConfig(c) && positions.Keys == c.rows.Keys && cash >= 0.0
    requires forall k :: k in positions ==> positions[k] >= 0.0
    ensures DeskInv(c, Initial(positions, cash), 0.0)
  {
    var m := Initial(positions, cash).meter;
    forall kind
      ensures KindOk(m, kind, 0.0, c.options.maxOrdersPerSecond)
    {}
    forall key, kind
      ensures InstrumentOk(m, key, kind, 0.0)
    {}
  }

  lemma {:induction false} RunKeeps(c: Config, d: Desk, steps: seq<Step>)
    requires ValidConfig(c) && DeskInv(c, d, 0.0) && LegalRun(c, d, steps)
    ensures DeskInv(c, Run(c, d, steps), RunClock(steps, 0.0))
  {
    hide DeskInv; hide Legal; hide ValidConfig;
    if steps != [] {
      var init := steps[..|steps| - 1];
      assert LegalRun(c, d, init) by {
        forall i | 0 <= i < |init|
          ensures Legal(Run(c, d, init[..i]), RunClock(init[..i], 0.0), init[i])
        {
          assert init[..i] == steps[..i];
        }
      }
      RunKeeps(c, d, init);
      AdvanceKeeps(c, Run(c, d, init), RunClock(init, 0.0), steps[|steps| - 1]);
    }
  }

  ghost predicate Banded(b: Book) {
    forall id :: id in b.reservations ==>
      && b.reservations[id].key in b.positions && id in b.limits
      && InBand(b.positions[b.reservations[id].key], b.reservations[id], b.limits[id])
  }

  /** The main result: over every run, any interleaving of cycles, partial fills, rejections, denials and exceptions,
      the book is solvent, every open quote is inside the band it was priced for, every request window is inside its
      limit and every order ever sent was admissible for the quote it was priced against. */
  lemma RunIsSafe(c: Config, positions: map<Key, real>, cash: real, steps: seq<Step>)
    requires ValidConfig(c) && positions.Keys == c.rows.Keys && cash >= 0.0
    requires forall k :: k in positions ==> positions[k] >= 0.0
    requires LegalRun(c, Initial(positions, cash), steps)
    ensures var end := Run(c, Initial(positions, cash), steps);
            && Solvent(end.book) && Banded(end.book)
            && RatesRespected(end.meter.log, c.options.maxOrdersPerSecond)
            && (forall o :: o in end.orders ==> OrderOk(c, o))
  {
    hide OrderOk; hide Solvent; hide RatesRespected; hide LegalRun; hide MeterInv; hide InBand; hide Inverse; hide Run; hide ValidConfig;
    InitialHolds(c, positions, cash);
    RunKeeps(c, Initial(positions, cash), steps);
    var end := Run(c, Initial(positions, cash), steps);
    InvariantMeansSolvent(end.book, c.rows);
    InvariantMeansRates(end.meter, RunClock(steps, 0.0), c.options.maxOrdersPerSecond);
    forall id | id in end.book.reservations
      ensures SlotOk(end.book, c.rows, id)
    {}
  }

  // ---- The bound recorded for an order never changes ------------------------------------------

  /** Nothing rewrites the bound of an order placed before. */
  ghost predicate BoundsFixed(b: Book, next: Book) {
    && b.nextOrder <= next.nextOrder
    && forall id :: id < b.nextOrder && id in next.limits ==> id in b.limits && next.limits[id] == b.limits[id]
  }

  lemma SubmissionFixesBounds(d: Desk, env: Env, slot: Slot, limit: real, quote: Quote)
    ensures BoundsFixed(d.book, Submission(d, env, slot, limit, quote).desk.book)
  {
    hide Recorded;
  }

  lemma SideStepFixesBounds(c: Config, d: Desk, env: Env, key: Key, side: Side, intent: Option<Intent>, limit: real, quote: Quote)
    requires key in c.rows
    ensures BoundsFixed(d.book, SideStep(c, d, env, key, side, intent, limit, quote).desk.book)
  {
    hide Stale; hide Affordable; hide Pruned; hide Allowed; hide Recorded; hide Submission;
    if intent.Some? {
      var quantity := if side.Buy? then Affordable(d.book, c.rows[key], intent.value.quantity, intent.value.price) else intent.value.quantity;
      var p := d.(meter := Pruned(d.meter, key, Submit, env.now));
      SubmissionFixesBounds(p, env, Slot(key, side, quantity, intent.value.price, c.rows[key].fee, env.now, false, false), limit, quote);
    }
  }

  lemma InstrumentStepFixesBounds(c: Config, d: Desk, env: Env, key: Key, nav: real)
    requires key in c.rows && key in d.book.positions
    ensures BoundsFixed(d.book, InstrumentStep(c, d, env, key, nav).desk.book)
  {
    hide SideStep; hide Intents;
    var want := Wanted(c, d.quotes, d.backoff, d.book.positions[key], env, key, nav);
    var plan := if want.Priced? then want.plan else Plan(0.0, 0.0, 0.0, false, None, None, false);
    var quote := if want.Priced? then want.quote else Quote(0.0, 0.0, 0);
    var start := if want.Priced? then d.(targets := d.targets[key := plan.target]) else d;
    SideStepFixesBounds(c, start, env, key, Sell, plan.sell, plan.lower, quote);
    var sold := SideStep(c, start, env, key, Sell, plan.sell, plan.lower, quote);
    SideStepFixesBounds(c, sold.desk, env, key, Buy, plan.buy, plan.upper, quote);
  }

  lemma {:induction false} DriveKeysFixBounds(c: Config, d: Desk, env: Env, keys: seq<Key>, nav: real)
    requires forall k :: k in keys ==> k in c.rows && k in d.book.positions
    ensures BoundsFixed(d.book, DriveKeys(c, d, env, keys, nav).desk.book)
    decreases |keys|
  {
    hide InstrumentStep;
    if keys != [] {
      InstrumentStepFixesBounds(c, d, env, keys[0], nav);
      var one := InstrumentStep(c, d, env, keys[0], nav);
      if !one.raised { DriveKeysFixBounds(c, one.desk, env, keys[1..], nav); }
    }
  }

  /** So the band proved for an open order is the one computed when it was submitted, for its whole life. */
  lemma AdvanceFixesBounds(c: Config, d: Desk, step: Step)
    requires ValidConfig(c)
    ensures BoundsFixed(d.book, Advance(c, d, step).book)
  {
    hide DriveKeys; hide Opened;
    match step
    case Drive(env) =>
      if d.book.positions.Keys == c.rows.Keys && !(env.now - d.lastCycle < c.options.quoteIntervalMs as real / 1000.0) {
        var (valued, nav) := Opened(c, d, env);
        OrderIsRows(c);
        DriveKeysFixBounds(c, valued, env, Rotated(c.order, valued.cursor), nav);
      }
    case _ =>
  }
}
