/** What the parts of a cycle do, said without the functions that do it: when an instrument is quoted and for what, when an open quote is
    cancelled, what the book is worth, where a cycle starts, and what fills have done to the book over a whole run. */
module ExecutorMeaning {
  import opened Common
  import opened ExecutorModel
  import opened ExecutorBooks
  import opened ExecutorPricing
  import opened ExecutorQuotes

  // ---- When an instrument is quoted -----------------------------------------------------------

  /** Its quote is known, at most five seconds old, not from the future, and not crossed; and it is not backed off. */
  ghost predicate Quotable(quotes: Quotes, backoff: map<Key, real>, env: Env, key: Key) {
    && key in quotes && 0 <= env.wallNs(key) - quotes[key].tsInit <= 5_000_000_000
    && 0.0 < quotes[key].bid <= quotes[key].ask && (key in backoff ==> env.now >= backoff[key])
  }

  lemma WantedMeans(c: Config, quotes: Quotes, backoff: map<Key, real>, position: real, env: Env, key: Key, nav: real)
    requires key in c.rows
    ensures var want := Wanted(c, quotes, backoff, position, env, key, nav);
            && (want.Priced? <==> Quotable(quotes, backoff, env, key))
            && (want.Priced? ==> want.quote == quotes[key]
                                 && want.plan == Intents(c.rows[key], c.options, position, quotes[key].bid, quotes[key].ask, Max(nav, 0.0), env.reducing))
  {
    hide Intents;
  }

  /** What is aimed at in a turn: for a quotable instrument its target, and for no other anything. */
  ghost predicate TurnAims(c: Config, d: Desk, next: map<Key, real>, env: Env, key: Key, nav: real)
    requires key in c.rows
  {
    if Quotable(d.quotes, d.backoff, env, key) then
      && next.Keys == d.targets.Keys + {key} && (forall other :: other in d.targets && other != key ==> next[other] == d.targets[other])
      && Aims(c.rows[key], if nav > 0.0 then nav else 0.0, (d.quotes[key].bid + d.quotes[key].ask) / 2.0, next[key])
    else next == d.targets
  }

  lemma InstrumentAims(c: Config, d: Desk, env: Env, key: Key, nav: real)
    requires key in c.rows && key in d.book.positions
    ensures TurnAims(c, d, InstrumentStep(c, d, env, key, nav).desk.targets, env, key, nav)
  {
    hide Intents; hide Aims; hide SideStep; hide Quotable; hide Wanted;
    WantedMeans(c, d.quotes, d.backoff, d.book.positions[key], env, key, nav);
    var want := Wanted(c, d.quotes, d.backoff, d.book.positions[key], env, key, nav);
    var none := Plan(0.0, 0.0, 0.0, false, None, None, false);
    var plan := if want.Priced? then want.plan else none;
    var quote := if want.Priced? then want.quote else Quote(0.0, 0.0, 0);
    if want.Priced? {
      assert 0.0 < quote.bid <= quote.ask by { QuotableIsUncrossed(d.quotes, d.backoff, env, key); }
      IntentsMean(c.rows[key], c.options, d.book.positions[key], quote.bid, quote.ask, Max(nav, 0.0), env.reducing);
    }
    var start := if want.Priced? then d.(targets := d.targets[key := plan.target]) else d;
    SideKeepsTargets(c, start, env, key, Sell, plan.sell, plan.lower, quote);
    var sold := SideStep(c, start, env, key, Sell, plan.sell, plan.lower, quote);
    SideKeepsTargets(c, sold.desk, env, key, Buy, plan.buy, plan.upper, quote);
  }

  lemma QuotableIsUncrossed(quotes: Quotes, backoff: map<Key, real>, env: Env, key: Key)
    requires Quotable(quotes, backoff, env, key)
    ensures key in quotes && 0.0 < quotes[key].bid <= quotes[key].ask
  {}

  lemma CancelKeeps(c: Config, d: Desk, id: OrderId, env: Env)
    requires id in d.book.reservations
    ensures CancelRequested(c, d, id, env).targets == d.targets && CancelRequested(c, d, id, env).orders == d.orders
  {
    hide ExecutorModel.Allowed; hide Pruned; hide Recorded;
  }

  lemma SideKeepsTargets(c: Config, d: Desk, env: Env, key: Key, side: Side, intent: Option<Intent>, limit: real, quote: Quote)
    requires key in c.rows
    ensures SideStep(c, d, env, key, side, intent, limit, quote).desk.targets == d.targets
  {
    hide Stale; hide Affordable; hide ExecutorModel.Allowed; hide Pruned; hide Recorded; hide CancelRequested;
    if HasOpen(d, key, side) { CancelKeeps(c, d, d.book.pending[(key, side)], env); }
  }

  // ---- What is sent for one side --------------------------------------------------------------

  ghost predicate HasOpen(d: Desk, key: Key, side: Side) {
    (key, side) in d.book.pending && d.book.pending[(key, side)] in d.book.reservations
  }

  /** The greatest number of whole lots within what is wanted that free cash pays for with its fee. */
  ghost predicate PaysFor(d: Desk, row: Row, wanted: real, price: real, x: real) {
    var free := if d.book.cash > Reserved(d.book.reservations) then d.book.cash - Reserved(d.book.reservations) else 0.0;
    && x <= wanted && x * (price * (1.0 + row.fee)) <= free
    && forall y :: IsMultiple(y, row.lot) && y <= wanted && y * (price * (1.0 + row.fee)) <= free ==> y <= x
  }

  lemma AffordablePays(d: Desk, row: Row, wanted: real, price: Positive)
    ensures PaysFor(d, row, wanted, price, Affordable(d.book, row, wanted, price))
  {
    hide IsMultiple; hide Rounded; hide Reserved;
    var free, cost := Max(0.0, d.book.cash - Reserved(d.book.reservations)), UnitCost(price, row.fee);
    PaysAtMost(free, cost, row.lot, wanted);
    forall y | IsMultiple(y, row.lot) && y <= wanted && y * cost <= free
      ensures y <= Affordable(d.book, row, wanted, price)
    {
      CapLimit(y, free, cost);
      GreatestBelow(UnitsFor(free, cost), row.lot, y);
    }
  }

  lemma PaysAtMost(free: real, cost: Positive, lot: Positive, wanted: real)
    requires free >= 0.0
    ensures Min(wanted, Rounded(UnitsFor(free, cost), lot, false)) * cost <= free
  {
    hide IsMultiple; hide Rounded;
    var x := Min(wanted, Rounded(UnitsFor(free, cost), lot, false));
    FloorBounds(UnitsFor(free, cost), lot);
    CapLimit(x, free, cost);
  }

  /** An order goes out exactly when the place is free, a quote is wanted and allowed, enough of it can be paid for, and the venue does
      not raise; it has the wanted price, and the wanted quantity or, of a purchase, what of it can be paid for. */
  lemma SideSends(c: Config, d: Desk, env: Env, key: Key, side: Side, intent: Option<Intent>, limit: real, quote: Quote) returns (quantity: real)
    requires key in c.rows
    ensures intent.Some? ==> if side.Buy? then PaysFor(d, c.rows[key], intent.value.quantity, intent.value.price, quantity)
                             else quantity == intent.value.quantity
    ensures var next := SideStep(c, d, env, key, side, intent, limit, quote); var id := d.book.nextOrder;
            if !HasOpen(d, key, side) && intent.Some? && Allowed(c.options.maxOrdersPerSecond, d.meter, key, Submit, env.now)
               && quantity >= c.rows[key].minSize && !env.submit(id).Raises?
            then next.desk.orders == d.orders + [Order(id, key, side, quantity, intent.value.price, quote.bid, quote.ask)]
                 && next.desk.meter.log == d.meter.log + [Request(key, Submit, env.now)]
            else next.desk.orders == d.orders
  {
    hide Stale; hide Affordable; hide ExecutorModel.Allowed; hide Reserved; hide PaysFor; hide CancelRequested;
    if HasOpen(d, key, side) { CancelKeeps(c, d, d.book.pending[(key, side)], env); }
    if intent.None? {
      quantity := 0.0;
    } else if side.Buy? {
      AffordablePays(d, c.rows[key], intent.value.quantity, intent.value.price);
      quantity := Affordable(d.book, c.rows[key], intent.value.quantity, intent.value.price);
    } else {
      quantity := intent.value.quantity;
    }
  }

  // ---- Cancelling -----------------------------------------------------------------------------

  lemma MoveIs(wanted: real, open: real, bps: real)
    requires open > 0.0
    ensures Abs(wanted / open - 1.0) * 10000.0 >= bps <==> Abs(wanted - open) * 10000.0 >= bps * open
  {
    var q := wanted / open;
    assert q * open == wanted;
    MoveScales(q, open, wanted, bps);
  }

  lemma MoveScales(q: real, open: real, wanted: real, bps: real)
    requires open > 0.0 && q * open == wanted
    ensures Abs(q - 1.0) * 10000.0 >= bps <==> Abs(wanted - open) * 10000.0 >= bps * open
  {
    var gap := Abs(q - 1.0);
    if q >= 1.0 {
      ProductGrows(1.0, q, open);
      GapTimes(q, open);
    } else {
      LessTimes(q, 1.0, open);
      GapTimes(q, open);
    }
    assert Abs(wanted - open) == gap * open;
    if gap * 10000.0 >= bps { ProductGrows(bps, gap * 10000.0, open); } else { LessTimes(gap * 10000.0, bps, open); }
    Reassociate(gap, open);
  }

  lemma GapTimes(q: real, open: real)
    ensures (q - 1.0) * open == q * open - open && (1.0 - q) * open == open - q * open
  {}

  lemma Reassociate(gap: real, open: real)
    ensures (gap * 10000.0) * open == (gap * open) * 10000.0
  {}

  /** An open quote is given up exactly when none is wanted, it has expired, it is larger than what is wanted, or the wanted price is
      another one and has moved by the threshold, in ten-thousandths of the open price. */
  lemma StaleIff(c: Config, slot: Slot, intent: Option<Intent>, now: real)
    ensures Stale(c, slot, intent, now)
       <==> || intent.None? || now >= slot.sentAt + c.options.orderExpirySecs as real || slot.remaining > intent.value.quantity
            || (intent.value.price != slot.price
                && Abs(intent.value.price - slot.price) * 10000.0 >= c.options.requoteThresholdBps as real * slot.price)
  {
    if intent.Some? { MoveIs(intent.value.price, slot.price, c.options.requoteThresholdBps as real); }
  }

  /** A cancel goes out exactly when none has before, the window has room, and the venue has the order open or closed under its name. */
  lemma CancelIff(c: Config, d: Desk, id: OrderId, env: Env)
    requires id in d.book.reservations
    ensures var slot, next := d.book.reservations[id], CancelRequested(c, d, id, env);
            if !slot.cancelRequested && Allowed(c.options.maxOrdersPerSecond, d.meter, slot.key, Cancel, env.now)
               && env.status(id) in {Some(Accepted), Some(PartiallyFilled), Some(Filled), Some(Canceled), Some(Rejected), Some(Expired), Some(Denied)}
            then next.meter.log == d.meter.log + [Request(slot.key, Cancel, env.now)]
                 && next.book == d.book.(reservations := d.book.reservations[id := slot.(cancelRequested := true)])
            else next.meter.log == d.meter.log && next.book == d.book
  {
    hide ExecutorModel.Allowed;
    if env.status(id).Some? {
      var status := env.status(id).value;
      assert status.Initialized? || status.Submitted? || status.Accepted? || status.PartiallyFilled? || status.PendingCancel?
          || status.PendingUpdate? || status.Filled? || status.Canceled? || status.Rejected? || status.Expired? || status.Denied?;
    }
  }

  /** With an open quote on a side, the turn sends nothing for it and cancels it exactly when it is stale. */
  lemma OpenSideCancels(c: Config, d: Desk, env: Env, key: Key, side: Side, intent: Option<Intent>, limit: real, quote: Quote)
    requires key in c.rows && HasOpen(d, key, side)
    ensures var id, next := d.book.pending[(key, side)], SideStep(c, d, env, key, side, intent, limit, quote);
            && !next.raised && next.desk.orders == d.orders
            && (Stale(c, d.book.reservations[id], intent, env.now) ==> next.desk == CancelRequested(c, d, id, env))
            && (!Stale(c, d.book.reservations[id], intent, env.now) ==> next.desk == d)
  {
    hide Stale; hide ExecutorModel.Allowed; hide Pruned; hide Recorded;
  }

  /** Orders closed under their status are forgotten, all others kept. */
  lemma RefreshMeans(b: Book, status: OrderId -> Option<Status>, id: OrderId)
    ensures id in Refreshed(b, status).reservations
       <==> id in b.reservations && (status(id) in {None, Some(Initialized), Some(Submitted), Some(Accepted), Some(PartiallyFilled),
                                                    Some(PendingCancel), Some(PendingUpdate)})
    ensures id in Refreshed(b, status).reservations ==> Refreshed(b, status).reservations[id] == b.reservations[id]
  {
    hide Places;
    if status(id).Some? {
      var s := status(id).value;
      assert s.Initialized? || s.Submitted? || s.Accepted? || s.PartiallyFilled? || s.PendingCancel? || s.PendingUpdate?
          || s.Filled? || s.Canceled? || s.Rejected? || s.Expired? || s.Denied?;
    }
  }

  // ---- One instrument's turn ------------------------------------------------------------------

  /** The orders of a turn: at most one sale, and after it at most one purchase. */
  lemma SalesComeFirst(c: Config, d: Desk, env: Env, key: Key, nav: real) returns (sales: seq<Order>, purchases: seq<Order>)
    requires key in c.rows && key in d.book.positions
    ensures InstrumentStep(c, d, env, key, nav).desk.orders == d.orders + sales + purchases
    ensures |sales| <= 1 && |purchases| <= 1
    ensures (forall o :: o in sales ==> o.side == Sell && o.key == key) && (forall o :: o in purchases ==> o.side == Buy && o.key == key)
    ensures !Quotable(d.quotes, d.backoff, env, key) ==> sales == [] && purchases == []
  {
    hide Intents; hide SideStep; hide Quotable; hide Wanted; hide PaysFor; hide HasOpen; hide ExecutorModel.Allowed;
    WantedMeans(c, d.quotes, d.backoff, d.book.positions[key], env, key, nav);
    var want := Wanted(c, d.quotes, d.backoff, d.book.positions[key], env, key, nav);
    var none := Plan(0.0, 0.0, 0.0, false, None, None, false);
    var plan := if want.Priced? then want.plan else none;
    var quote := if want.Priced? then want.quote else Quote(0.0, 0.0, 0);
    var start := if want.Priced? then d.(targets := d.targets[key := plan.target]) else d;
    sales, purchases := [], [];
    if plan.raises { return; }
    var sold := SideStep(c, start, env, key, Sell, plan.sell, plan.lower, quote);
    sales := OneOrder(c, start, env, key, Sell, plan.sell, plan.lower, quote);
    if sold.raised { return; }
    purchases := OneOrder(c, sold.desk, env, key, Buy, plan.buy, plan.upper, quote);
  }

  lemma OneOrder(c: Config, d: Desk, env: Env, key: Key, side: Side, intent: Option<Intent>, limit: real, quote: Quote) returns (sent: seq<Order>)
    requires key in c.rows
    ensures SideStep(c, d, env, key, side, intent, limit, quote).desk.orders == d.orders + sent
    ensures |sent| <= 1 && (forall o :: o in sent ==> o.side == side && o.key == key) && (intent.None? ==> sent == [])
  {
    hide SideStep; hide PaysFor; hide HasOpen; hide ExecutorModel.Allowed;
    var quantity := SideSends(c, d, env, key, side, intent, limit, quote);
    var next := SideStep(c, d, env, key, side, intent, limit, quote).desk.orders;
    sent := next[|d.orders|..];
    assert next == d.orders + sent;
  }

  // ---- What the book is worth -----------------------------------------------------------------

  /** The quote an instrument is valued at: the last one seen, or else the cached one. */
  function QuoteFor(quotes: Quotes, env: Env, key: Key): Option<Quote> { if key in quotes then Some(quotes[key]) else env.cacheQuote(key) }

  /** Half way between bid and ask, of the quote if there is one and of the snapshot otherwise. */
  ghost predicate IsMark(c: Config, quotes: Quotes, env: Env, key: Key, mark: real) {
    && key in c.rows
    && match QuoteFor(quotes, env, key)
       case Some(q) => 2.0 * mark == q.bid + q.ask
       case None => 2.0 * mark == c.rows[key].bid + c.rows[key].ask
  }

  ghost function Worth(positions: map<Key, real>, marks: map<Key, real>, keys: seq<Key>): real
    requires forall k :: k in keys ==> k in positions && k in marks
  {
    if keys == [] then 0.0 else positions[keys[0]] * marks[keys[0]] + Worth(positions, marks, keys[1..])
  }

  lemma {:induction false} WorthAdds(positions: map<Key, real>, marks: map<Key, real>, keys: seq<Key>, key: Key, mark: real)
    requires (forall k :: k in keys ==> k in positions && k in marks) && key !in keys
    ensures Worth(positions, marks[key := mark], keys) == Worth(positions, marks, keys)
  {
    if keys != [] { WorthAdds(positions, marks, keys[1..], key, mark); }
  }

  lemma {:induction false} ValuedMeans(c: Config, quotes: Quotes, positions: map<Key, real>, env: Env, keys: seq<Key>, nav: real)
    returns (marks: map<Key, real>)
    requires forall k :: k in keys ==> k in c.rows && k in positions
    requires forall i, j :: 0 <= i < j < |keys| ==> keys[i] != keys[j]
    ensures forall k :: k in keys ==> k in marks && IsMark(c, quotes, env, k, marks[k])
    ensures var (known, worth) := Valued(c, quotes, positions, env, keys, nav);
            && worth == nav + Worth(positions, marks, keys)
            && (forall k :: k in known <==> k in quotes || (k in keys && env.cacheQuote(k).Some?))
            && (forall k :: k in known ==> Some(known[k]) == QuoteFor(quotes, env, k))
    decreases |keys|
  {
    hide IsMark; hide Marked;
    if keys == [] {
      marks := map[];
    } else {
      var key, rest := keys[0], keys[1..];
      var (next, value) := Marked(c, quotes, positions[key], env, key);
      var others := ValuedMeans(c, next, positions, env, rest, nav + value);
      var mark := MarkIs(c, quotes, positions[key], env, key);
      marks := others[key := mark];
      WorthAdds(positions, others, rest, key, mark);
      forall k | k in keys
        ensures k in marks && IsMark(c, quotes, env, k, marks[k])
      {
        if k != key { SameMark(c, quotes, next, env, k, marks[k]); }
      }
    }
  }

  lemma MarkIs(c: Config, quotes: Quotes, position: real, env: Env, key: Key) returns (mark: real)
    requires key in c.rows
    ensures IsMark(c, quotes, env, key, mark)
    ensures var (next, value) := Marked(c, quotes, position, env, key);
            value == position * mark && next == if QuoteFor(quotes, env, key).Some? then quotes[key := QuoteFor(quotes, env, key).value] else quotes
  {
    var quote := QuoteFor(quotes, env, key);
    mark := if quote.Some? then (quote.value.bid + quote.value.ask) / 2.0 else (c.rows[key].bid + c.rows[key].ask) / 2.0;
  }

  lemma SameMark(c: Config, quotes: Quotes, next: Quotes, env: Env, key: Key, mark: real)
    requires IsMark(c, next, env, key, mark) && QuoteFor(next, env, key) == QuoteFor(quotes, env, key)
    ensures IsMark(c, quotes, env, key, mark)
  {}

  /** The net value a cycle works with: the cash and every position at the middle of its quote. */
  lemma NavMeans(c: Config, d: Desk, env: Env) returns (marks: map<Key, real>)
    requires ValidConfig(c) && d.book.positions.Keys == c.rows.Keys
    ensures marks.Keys >= c.rows.Keys && forall k :: k in c.order ==> IsMark(c, d.quotes, env, k, marks[k])
    ensures Opened(c, d, env).1 == d.book.cash + Worth(d.book.positions, marks, c.order)
  {
    hide IsMark;
    marks := ValuedMeans(c, d.quotes, d.book.positions, env, c.order, d.book.cash);
  }

  // ---- Where a cycle starts -------------------------------------------------------------------

  function CursorAfter(cursor: nat, cycles: nat, rows: nat): nat {
    if cycles == 0 then cursor else NextCursor(CursorAfter(cursor, cycles - 1, rows), rows)
  }

  lemma NextIs(cursor: nat, rows: nat)
    requires cursor < rows
    ensures NextCursor(cursor, rows) == if cursor + 1 == rows then 0 else cursor + 1
  {}

  lemma {:induction false} CursorIs(cursor: nat, cycles: nat, rows: nat)
    requires cursor < rows && cycles <= rows
    ensures CursorAfter(cursor, cycles, rows) == if cursor + cycles < rows then cursor + cycles else cursor + cycles - rows
  {
    hide NextCursor;
    if cycles > 0 {
      CursorIs(cursor, cycles - 1, rows);
      NextIs(CursorAfter(cursor, cycles - 1, rows), rows);
    }
  }

  /** Of as many due cycles in a row as there are instruments, each instrument leads exactly one. */
  lemma EachLeadsOnce(c: Config, cursor: nat, lead: nat) returns (cycles: nat)
    requires cursor < |c.order| && lead < |c.order|
    ensures 1 <= cycles <= |c.order| && CursorAfter(cursor, cycles, |c.order|) == lead
    ensures Rotated(c.order, CursorAfter(cursor, cycles, |c.order|))[0] == c.order[lead]
    ensures forall other :: 1 <= other <= |c.order| && CursorAfter(cursor, other, |c.order|) == lead ==> other == cycles
  {
    hide CursorAfter;
    var n := |c.order|;
    cycles := if lead > cursor then lead - cursor else lead - cursor + n;
    CursorIs(cursor, cycles, n);
    forall other | 1 <= other <= n && CursorAfter(cursor, other, n) == lead
      ensures other == cycles
    {
      CursorIs(cursor, other, n);
    }
  }

  /** A cycle that is due moves the cursor on by one; one that is not changes nothing. */
  lemma DrivenMoves(c: Config, d: Desk, env: Env)
    requires ValidConfig(c) && d.book.positions.Keys == c.rows.Keys
    ensures if env.now >= d.lastCycle + c.options.quoteIntervalMs as real / 1000.0 then
              Opened(c, d, env).0.lastCycle == env.now && Opened(c, d, env).0.cursor == CursorAfter(d.cursor, 1, |c.order|)
              && Driven(c, d, env) == DriveKeys(c, Opened(c, d, env).0, env, Rotated(c.order, Opened(c, d, env).0.cursor), Opened(c, d, env).1)
            else Driven(c, d, env).desk == d && !Driven(c, d, env).raised
  {
    hide DriveKeys; hide Valued; hide NextCursor; hide ValidConfig;
    assert CursorAfter(d.cursor, 0, |c.order|) == d.cursor;
    assert Driven(c, d, env).desk == d || env.now >= d.lastCycle + c.options.quoteIntervalMs as real / 1000.0;
  }

  // ---- Money over whole runs ------------------------------------------------------------------

  /** What fills have brought into the position of an instrument, and out of the cash, net of commissions. Only instruments that the
      executor holds count. */
  ghost function Inflow(steps: seq<Step>, keys: set<Key>, key: Key): real {
    if steps == [] then 0.0 else
    var before, step := Inflow(steps[..|steps| - 1], keys, key), steps[|steps| - 1];
    if !step.OnFilled? || step.fill.key != key || key !in keys then before else
    var f := step.fill;
    before + (if f.side.Buy? then f.quantity else -f.quantity) - (if f.currency.Base? then f.commission else 0.0)
  }

  ghost function Outlay(steps: seq<Step>, keys: set<Key>): real {
    if steps == [] then 0.0 else
    var before, step := Outlay(steps[..|steps| - 1], keys), steps[|steps| - 1];
    if !step.OnFilled? || step.fill.key !in keys then before else
    var f := step.fill;
    before + (if f.side.Buy? then f.quantity * f.price else -(f.quantity * f.price)) + (if f.currency.Usdt? then f.commission else 0.0)
  }

  /** Nothing but a fill moves money. */
  ghost predicate SameMoney(d: Desk, e: Desk) { e.book.positions == d.book.positions && e.book.cash == d.book.cash }

  lemma SideKeepsMoney(c: Config, d: Desk, env: Env, key: Key, side: Side, intent: Option<Intent>, limit: real, quote: Quote)
    requires key in c.rows
    ensures SameMoney(d, SideStep(c, d, env, key, side, intent, limit, quote).desk)
  {
    hide Stale; hide Affordable; hide ExecutorModel.Allowed; hide Pruned; hide Recorded;
  }

  lemma {:induction false} KeysKeepMoney(c: Config, d: Desk, env: Env, keys: seq<Key>, nav: real)
    requires forall k :: k in keys ==> k in c.rows && k in d.book.positions
    ensures SameMoney(d, DriveKeys(c, d, env, keys, nav).desk)
    decreases |keys|
  {
    hide InstrumentStep;
    if keys != [] {
      InstrumentKeepsMoney(c, d, env, keys[0], nav);
      var one := InstrumentStep(c, d, env, keys[0], nav);
      if !one.raised { KeysKeepMoney(c, one.desk, env, keys[1..], nav); }
    }
  }

  lemma InstrumentKeepsMoney(c: Config, d: Desk, env: Env, key: Key, nav: real)
    requires key in c.rows && key in d.book.positions
    ensures SameMoney(d, InstrumentStep(c, d, env, key, nav).desk)
  {
    hide Wanted; hide SideStep;
    var want := Wanted(c, d.quotes, d.backoff, d.book.positions[key], env, key, nav);
    var plan := if want.Priced? then want.plan else Plan(0.0, 0.0, 0.0, false, None, None, false);
    var quote := if want.Priced? then want.quote else Quote(0.0, 0.0, 0);
    var start := if want.Priced? then d.(targets := d.targets[key := plan.target]) else d;
    SideKeepsMoney(c, start, env, key, Sell, plan.sell, plan.lower, quote);
    SideKeepsMoney(c, SideStep(c, start, env, key, Sell, plan.sell, plan.lower, quote).desk, env, key, Buy, plan.buy, plan.upper, quote);
  }

  lemma StepMoves(c: Config, d: Desk, step: Step)
    requires ValidConfig(c) && (step.OnFilled? ==> step.fill.key !in d.book.positions)
    ensures SameMoney(d, Advance(c, d, step))
  {
    hide DriveKeys; hide Valued; hide ValidConfig; hide NextCursor; hide Refreshed; hide MetricsRead;
    if step.Drive? && d.book.positions.Keys == c.rows.Keys {
      var (valued, nav) := Opened(c, d, step.env);
      KeysAreRows(c);
      RefreshedMoney(d.book, step.env.status);
      assert forall k :: k in Rotated(c.order, valued.cursor) ==> k in c.order;
      KeysKeepMoney(c, valued, step.env, Rotated(c.order, valued.cursor), nav);
    }
    if step.Metrics? { MetricsMoney(d, step.now); }
  }

  lemma KeysAreRows(c: Config)
    requires ValidConfig(c)
    ensures forall k :: k in c.order ==> k in c.rows
  {}

  lemma RefreshedMoney(b: Book, status: OrderId -> Option<Status>)
    ensures Refreshed(b, status).positions == b.positions && Refreshed(b, status).cash == b.cash
  {}

  lemma MetricsMoney(d: Desk, now: real)
    ensures MetricsRead(d, now).book == d.book
  {}

  /** Conservation: in every run, whatever cycles, rejections and cancels lie between, the cash is what it was at first less what the
      fills have cost with their commissions, and each position is what it was at first and what its fills have brought. */
  lemma {:induction false} MoneyIsConserved(c: Config, positions: map<Key, real>, cash: real, steps: seq<Step>, key: Key)
    requires ValidConfig(c) && key in positions
    ensures var book := Run(c, Initial(positions, cash), steps).book;
            && book.positions.Keys == positions.Keys
            && book.positions[key] == positions[key] + Inflow(steps, positions.Keys, key)
            && book.cash == cash - Outlay(steps, positions.Keys)
  {
    hide Advance; hide ValidConfig;
    if steps != [] {
      var init, step := steps[..|steps| - 1], steps[|steps| - 1];
      MoneyIsConserved(c, positions, cash, init, key);
      var d := Run(c, Initial(positions, cash), init);
      if step.OnFilled? && step.fill.key in positions { FillMoves(c, d, step, key); } else { StepMoves(c, d, step); }
    }
  }

  lemma FillMoves(c: Config, d: Desk, step: Step, key: Key)
    requires ValidConfig(c) && step.OnFilled? && step.fill.key in d.book.positions && key in d.book.positions
    ensures var f, book := step.fill, Advance(c, d, step).book;
            && book.positions.Keys == d.book.positions.Keys
            && book.positions[key] == d.book.positions[key]
                 + (if f.key != key then 0.0
                    else (if f.side.Buy? then f.quantity else -f.quantity) - (if f.currency.Base? then f.commission else 0.0))
            && book.cash == d.book.cash - (if f.side.Buy? then f.quantity * f.price else -(f.quantity * f.price))
                                        - (if f.currency.Usdt? then f.commission else 0.0)
  {}
}
