/** When a cycle raises, and what it then leaves undone. */
module ExecutorRaises {
  import opened Common
  import opened ExecutorModel
  import opened ExecutorBooks
  import opened ExecutorPricing
  import opened ExecutorRuns

  // ---- One instrument -------------------------------------------------------------------------

  /** The instrument has a fresh valid quote and is not backed off, and its buy price rounds to zero. */
  ghost predicate Unpriceable(c: Config, quotes: Quotes, backoff: map<Key, real>, position: real, env: Env, key: Key, nav: real) {
    && key in c.rows && Fresh(quotes, env, key) && !(key in backoff && env.now < backoff[key])
    && 0.0 < quotes[key].bid <= quotes[key].ask
    && BelowOneTick(c.rows[key], c.options, position, quotes[key].bid, quotes[key].ask, Max(nav, 0.0))
  }

  lemma UnpriceableIff(c: Config, d: Desk, env: Env, key: Key, nav: real)
    requires key in c.rows && key in d.book.positions
    ensures var want := Wanted(c, d.quotes, d.backoff, d.book.positions[key], env, key, nav);
            want.Priced? && want.plan.raises <==> Unpriceable(c, d.quotes, d.backoff, d.book.positions[key], env, key, nav)
  {
    hide Intents; hide BelowOneTick;
    if Wanted(c, d.quotes, d.backoff, d.book.positions[key], env, key, nav).Priced? {
      var quote := d.quotes[key];
      IntentsRaisesBelowOneTick(c.rows[key], c.options, d.book.positions[key], quote.bid, quote.ask, Max(nav, 0.0), env.reducing);
    }
  }

  /** One tick, both sides of the book on it, and a fee of nothing: pricing raises. */
  lemma PricingCanRaise() returns (row: Row, options: Options)
    ensures ValidConfig(Config(map["x" := row], ["x"], options))
    ensures options.quoteIntervalMs == 1000 && BelowOneTick(row, options, 0.0, row.tick, row.tick, 0.0)
    ensures Intents(row, options, 0.0, row.tick, row.tick, 0.0, false).raises
  {
    row := Row(1.0, 1.0, 1.0, 0.0, 0.0, 1.0, 1.0);
    options := Options(ContinuousQuotes, 1000, 1, 1, 1, 60, 10, 1, 100);
    hide Intents; hide BelowOneTick;
    NothingIsBelowOneTick(row, options);
    IntentsRaisesBelowOneTick(row, options, 0.0, row.tick, row.tick, 0.0, false);
  }

  lemma NothingIsBelowOneTick(row: Row, options: Options)
    requires row.weight == 0.0 && row.fee == 0.0 && row.tick == 1.0 && options.mode.ContinuousQuotes?
    requires options.minimumEdgeBps == 1 && options.inventoryBandLots == 1
    ensures BelowOneTick(row, options, 0.0, row.tick, row.tick, 0.0)
  {
    hide Rounded; hide Target;
    TargetOfNothing(row);
    assert HalfEdge(row, options) == 0.00005;
  }

  lemma TargetOfNothing(row: Row)
    requires row.weight == 0.0
    ensures Target(row, 0.0, 1.0) == 0.0
  {
    hide Rounded;
    assert UnitsFor(Share(row, 0.0), 1.0) == 0.0;
    RoundsToZero(0.0, row.lot);
  }

  // ---- What a step leaves alone ---------------------------------------------------------------

  ghost predicate SameAt<V>(a: map<Key, V>, b: map<Key, V>, key: Key) { (key in a <==> key in b) && (key in a ==> a[key] == b[key]) }

  ghost predicate NewOrdersSpare(a: seq<Order>, b: seq<Order>, key: Key) { a <= b && forall o :: o in b[|a|..] ==> o.key != key }

  ghost predicate NewRequestsSpare(a: seq<Request>, b: seq<Request>, key: Key) { a <= b && forall r :: r in b[|a|..] ==> r.key != key }

  /** Nothing was sent, cancelled, priced or decided for the instrument. */
  ghost predicate Unquoted(d: Desk, next: Desk, key: Key) {
    && NewOrdersSpare(d.orders, next.orders, key) && NewRequestsSpare(d.meter.log, next.meter.log, key)
    && SameAt(d.targets, next.targets, key) && SameAt(d.reasons, next.reasons, key) && SameAt(d.backoff, next.backoff, key)
    && next.quotes == d.quotes && next.book.positions == d.book.positions
  }

  lemma UnquotedItself(d: Desk, key: Key)
    ensures Unquoted(d, d, key)
  {}

  lemma UnquotedJoins(d: Desk, e: Desk, f: Desk, key: Key)
    requires Unquoted(d, e, key) && Unquoted(e, f, key)
    ensures Unquoted(d, f, key)
  {
    assert f.orders[|d.orders|..] == e.orders[|d.orders|..] + f.orders[|e.orders|..];
    assert f.meter.log[|d.meter.log|..] == e.meter.log[|d.meter.log|..] + f.meter.log[|e.meter.log|..];
  }

  lemma NewOrderSpares(orders: seq<Order>, o: Order, key: Key)
    requires o.key != key
    ensures NewOrdersSpare(orders, orders + [o], key)
  {
    assert (orders + [o])[|orders|..] == [o];
  }

  lemma NewRequestSpares(log: seq<Request>, r: Request, key: Key)
    requires r.key != key
    ensures NewRequestsSpare(log, log + [r], key)
  {
    assert (log + [r])[|log|..] == [r];
  }

  lemma DeliveryTouchesOwn(d: Desk, denied: Option<real>, slot: Slot, id: OrderId, quote: Quote, now: real, other: Key)
    requires other != slot.key && (id in d.book.reservations ==> d.book.reservations[id].key == slot.key)
    ensures Unquoted(d, Delivered(d, denied, slot, id, quote, now), other)
  {
    hide NewOrdersSpare; hide NewRequestsSpare;
    NewOrderSpares(d.orders, Order(id, slot.key, slot.side, slot.remaining, slot.price, quote.bid, quote.ask), other);
    NewRequestSpares(d.meter.log, Request(slot.key, Submit, now), other);
  }

  lemma SubmissionTouchesOwn(d: Desk, env: Env, slot: Slot, limit: real, quote: Quote, other: Key)
    requires other != slot.key
    ensures Unquoted(d, Submission(d, env, slot, limit, quote).desk, other)
  {
    hide NewOrdersSpare; hide NewRequestsSpare; hide Released; hide Delivered;
    UnquotedItself(d, other);
    var reserved := d.(book := Reserve(d.book, slot, limit));
    DeliveryTouchesOwn(reserved, DeniedAt(env.submit(d.book.nextOrder)), slot, d.book.nextOrder, quote, env.now, other);
  }

  lemma CancelTouchesOwn(c: Config, d: Desk, id: OrderId, env: Env, other: Key)
    requires id in d.book.reservations && other != d.book.reservations[id].key
    ensures Unquoted(d, CancelRequested(c, d, id, env), other)
  {
    hide NewOrdersSpare; hide NewRequestsSpare; hide ExecutorModel.Allowed;
    UnquotedItself(d, other);
    NewRequestSpares(d.meter.log, Request(d.book.reservations[id].key, Cancel, env.now), other);
  }

  lemma SideTouchesOwn(c: Config, d: Desk, env: Env, key: Key, side: Side, intent: Option<Intent>, limit: real, quote: Quote, other: Key)
    requires Inverse(d.book) && key in c.rows && other != key
    ensures Unquoted(d, SideStep(c, d, env, key, side, intent, limit, quote).desk, other)
  {
    hide Stale; hide Affordable; hide ExecutorModel.Allowed; hide Submission; hide CancelRequested; hide NewOrdersSpare; hide NewRequestsSpare;
    UnquotedItself(d, other);
    if (key, side) in d.book.pending && d.book.pending[(key, side)] in d.book.reservations {
      assert Holds(d.book, (key, side), d.book.pending[(key, side)]);
      CancelTouchesOwn(c, d, d.book.pending[(key, side)], env, other);
    } else if intent.Some? {
      var p := d.(meter := Pruned(d.meter, key, Submit, env.now));
      UnquotedItself(p, other);
      var quantity := if side.Buy? then Affordable(d.book, c.rows[key], intent.value.quantity, intent.value.price) else intent.value.quantity;
      SubmissionTouchesOwn(p, env, Slot(key, side, quantity, intent.value.price, c.rows[key].fee, env.now, false, false), limit, quote, other);
    }
  }

  lemma InstrumentTouchesOwn(c: Config, d: Desk, env: Env, key: Key, nav: real, other: Key)
    requires ValidConfig(c) && DeskInv(c, d, env.now) && key in c.rows && key in d.book.positions && other != key
    ensures Unquoted(d, InstrumentStep(c, d, env, key, nav).desk, other)
  {
    hide SideStep; hide Intents; hide Unquoted; hide IntentOk; hide OrderOk;
    WantedIsOk(c, d, env, key, nav);
    var want := Wanted(c, d.quotes, d.backoff, d.book.positions[key], env, key, nav);
    var plan := if want.Priced? then want.plan else Plan(0.0, 0.0, 0.0, false, None, None, false);
    var quote := if want.Priced? then want.quote else Quote(0.0, 0.0, 0);
    var start := if want.Priced? then d.(targets := d.targets[key := plan.target]) else d;
    StartTouchesOwn(d, start, InstrumentStep(c, d, env, key, nav).desk, key, other);
    if !plan.raises {
      SideTouchesOwn(c, start, env, key, Sell, plan.sell, plan.lower, quote, other);
      SideStepKeeps(c, start, env, key, Sell, plan.sell, plan.lower, quote);
      var sold := SideStep(c, start, env, key, Sell, plan.sell, plan.lower, quote);
      UnquotedJoins(d, start, sold.desk, other);
      if !sold.raised {
        SideTouchesOwn(c, sold.desk, env, key, Buy, plan.buy, plan.upper, quote, other);
        var bought := SideStep(c, sold.desk, env, key, Buy, plan.buy, plan.upper, quote);
        UnquotedJoins(d, sold.desk, bought.desk, other);
        if !bought.raised { ReasonTouchesOwn(d, bought.desk, InstrumentStep(c, d, env, key, nav).desk, key, other); }
      }
    }
  }

  lemma StartTouchesOwn(d: Desk, start: Desk, end: Desk, key: Key, other: Key)
    requires other != key && (start == d || (key in start.targets && start == d.(targets := d.targets[key := start.targets[key]])))
    ensures Unquoted(d, start, other)
  {}

  lemma ReasonTouchesOwn(d: Desk, e: Desk, end: Desk, key: Key, other: Key)
    requires Unquoted(d, e, other) && other != key && key in end.reasons
    requires end == e.(reasons := e.reasons[key := end.reasons[key]])
    ensures Unquoted(d, end, other)
  {}

  // ---- The cycle ------------------------------------------------------------------------------

  lemma {:induction false} KeysTouchOwn(c: Config, d: Desk, env: Env, keys: seq<Key>, nav: real, other: Key)
    requires ValidConfig(c) && DeskInv(c, d, env.now) && other !in keys && forall k :: k in keys ==> k in c.rows && k in d.book.positions
    ensures Unquoted(d, DriveKeys(c, d, env, keys, nav).desk, other)
    decreases |keys|
  {
    hide InstrumentStep; hide DeskInv; hide Unquoted;
    UnquotedItself(d, other);
    if keys != [] {
      InstrumentTouchesOwn(c, d, env, keys[0], nav, other);
      InstrumentStepKeeps(c, d, env, keys[0], nav);
      var one := InstrumentStep(c, d, env, keys[0], nav);
      if !one.raised {
        KeysTouchOwn(c, one.desk, env, keys[1..], nav, other);
        UnquotedJoins(d, one.desk, DriveKeys(c, one.desk, env, keys[1..], nav).desk, other);
      }
    }
  }

  /** The loop passes the instruments before the given one, and that one raises. */
  ghost predicate RaisesAt(c: Config, d: Desk, env: Env, keys: seq<Key>, i: nat, nav: real)
    requires i < |keys| && forall k :: k in keys ==> k in c.rows && k in d.book.positions
  {
    var before := DriveKeys(c, d, env, keys[..i], nav);
    !before.raised && keys[i] in before.desk.book.positions && InstrumentStep(c, before.desk, env, keys[i], nav).raised
  }

  /** A cycle that raises ends with the instrument that raised: those after it are not quoted. */
  lemma {:induction false} RaisingStops(c: Config, d: Desk, env: Env, keys: seq<Key>, nav: real) returns (i: nat)
    requires ValidConfig(c) && DeskInv(c, d, env.now) && forall k :: k in keys ==> k in c.rows && k in d.book.positions
    requires DriveKeys(c, d, env, keys, nav).raised
    ensures i < |keys| && RaisesAt(c, d, env, keys, i, nav)
    ensures DriveKeys(c, d, env, keys, nav) == DriveKeys(c, d, env, keys[..i + 1], nav)
    decreases |keys|
  {
    hide InstrumentStep; hide DeskInv;
    InstrumentStepKeeps(c, d, env, keys[0], nav);
    var one := InstrumentStep(c, d, env, keys[0], nav);
    if one.raised {
      i := 0;
    } else {
      var j := RaisingStops(c, one.desk, env, keys[1..], nav);
      i := j + 1;
      assert keys[..i][1..] == keys[1..][..j] && keys[..i + 1][1..] == keys[1..][..j + 1];
    }
  }

  ghost predicate SubmitsQuietly(env: Env) { forall id :: !env.submit(id).Raises? }

  lemma SideRaisesOnlyBySubmission(c: Config, d: Desk, env: Env, key: Key, side: Side, intent: Option<Intent>, limit: real, quote: Quote)
    requires SubmitsQuietly(env) && key in c.rows
    ensures !SideStep(c, d, env, key, side, intent, limit, quote).raised
  {
    hide Stale; hide Affordable; hide ExecutorModel.Allowed; hide CancelRequested;
  }

  lemma InstrumentRaisesIff(c: Config, d: Desk, env: Env, key: Key, nav: real)
    requires SubmitsQuietly(env) && key in c.rows && key in d.book.positions
    ensures InstrumentStep(c, d, env, key, nav).raised <==> Unpriceable(c, d.quotes, d.backoff, d.book.positions[key], env, key, nav)
  {
    hide SideStep; hide Intents; hide Unpriceable;
    UnpriceableIff(c, d, env, key, nav);
    var want := Wanted(c, d.quotes, d.backoff, d.book.positions[key], env, key, nav);
    var plan := if want.Priced? then want.plan else Plan(0.0, 0.0, 0.0, false, None, None, false);
    var quote := if want.Priced? then want.quote else Quote(0.0, 0.0, 0);
    var start := if want.Priced? then d.(targets := d.targets[key := plan.target]) else d;
    SideRaisesOnlyBySubmission(c, start, env, key, Sell, plan.sell, plan.lower, quote);
    SideRaisesOnlyBySubmission(c, SideStep(c, start, env, key, Sell, plan.sell, plan.lower, quote).desk, env, key, Buy, plan.buy, plan.upper, quote);
  }

  ghost predicate UnpriceableIn(c: Config, d: Desk, env: Env, key: Key, nav: real) {
    key in d.book.positions && Unpriceable(c, d.quotes, d.backoff, d.book.positions[key], env, key, nav)
  }

  lemma UnquotedIsAsUnpriceable(c: Config, d: Desk, e: Desk, env: Env, key: Key, nav: real)
    requires Unquoted(d, e, key)
    ensures UnpriceableIn(c, d, env, key, nav) <==> UnpriceableIn(c, e, env, key, nav)
  {
    hide BelowOneTick;
  }

  lemma {:induction false} KeysRaiseIff(c: Config, d: Desk, env: Env, keys: seq<Key>, nav: real)
    requires ValidConfig(c) && DeskInv(c, d, env.now) && SubmitsQuietly(env)
    requires forall k :: k in keys ==> k in c.rows && k in d.book.positions
    requires forall i, j :: 0 <= i < j < |keys| ==> keys[i] != keys[j]
    ensures DriveKeys(c, d, env, keys, nav).raised <==> exists k :: k in keys && UnpriceableIn(c, d, env, k, nav)
    decreases |keys|
  {
    hide InstrumentStep; hide DeskInv; hide Unquoted; hide Unpriceable; hide UnpriceableIn;
    if keys != [] {
      InstrumentRaisesIff(c, d, env, keys[0], nav);
      assert InstrumentStep(c, d, env, keys[0], nav).raised <==> UnpriceableIn(c, d, env, keys[0], nav) by {
        UnpriceableInIs(c, d, env, keys[0], nav);
      }
      InstrumentStepKeeps(c, d, env, keys[0], nav);
      var one := InstrumentStep(c, d, env, keys[0], nav);
      if !one.raised {
        KeysRaiseIff(c, one.desk, env, keys[1..], nav);
        forall k | k in keys[1..]
          ensures UnpriceableIn(c, d, env, k, nav) <==> UnpriceableIn(c, one.desk, env, k, nav)
        {
          InstrumentTouchesOwn(c, d, env, keys[0], nav, k);
          UnquotedIsAsUnpriceable(c, d, one.desk, env, k, nav);
        }
        assert forall k :: k in keys <==> k == keys[0] || k in keys[1..];
      }
    }
  }

  lemma UnpriceableInIs(c: Config, d: Desk, env: Env, key: Key, nav: real)
    requires key in d.book.positions
    ensures UnpriceableIn(c, d, env, key, nav) == Unpriceable(c, d.quotes, d.backoff, d.book.positions[key], env, key, nav)
  {}

  predicate Due(c: Config, d: Desk, env: Env) { env.now - d.lastCycle >= c.options.quoteIntervalMs as real / 1000.0 }

  /** While the venue takes submissions, a cycle raises exactly when it is due and some instrument cannot be priced at its opening. */
  lemma DriveRaisesIff(c: Config, d: Desk, env: Env, clock: real)
    requires ValidConfig(c) && DeskInv(c, d, clock) && clock <= env.now && SubmitsQuietly(env) && d.book.positions.Keys == c.rows.Keys
    ensures var (valued, nav) := Opened(c, d, env);
            Driven(c, d, env).raised <==> Due(c, d, env) && exists key :: key in c.order && UnpriceableIn(c, valued, env, key, nav)
  {
    hide DriveKeys; hide Opened; hide UnpriceableIn; hide DeskInv;
    if Due(c, d, env) {
      var (valued, nav) := Opened(c, d, env);
      OpeningKeeps(c, d, env, clock);
      RotationIsOrder(c, valued.cursor);
      KeysRaiseIff(c, valued, env, Rotated(c.order, valued.cursor), nav);
    }
  }

  lemma OpeningKeeps(c: Config, d: Desk, env: Env, clock: real)
    requires ValidConfig(c) && DeskInv(c, d, clock) && clock <= env.now && d.book.positions.Keys == c.rows.Keys
    ensures var valued := Opened(c, d, env).0;
            DeskInv(c, valued, env.now) && valued.book.positions.Keys == c.rows.Keys
  {
    hide OrderOk; hide Refreshed; hide Opened; hide ValidConfig; hide BookInv;
    LaterMeter(c, d, clock, env.now);
    RefreshKeepsBook(d.book, c.rows, env.status);
    BookHasRows(Opened(c, d, env).0.book, c.rows);
  }

  lemma RotationIsOrder(c: Config, cursor: nat)
    requires ValidConfig(c) && cursor <= |c.order|
    ensures var keys := Rotated(c.order, cursor);
            (forall k :: k in keys <==> k in c.order) && (forall k :: k in keys ==> k in c.rows)
            && forall i, j :: 0 <= i < j < |keys| ==> keys[i] != keys[j]
  {
    var keys := Rotated(c.order, cursor);
    assert c.order == c.order[..cursor] + c.order[cursor..];
    assert forall i :: 0 <= i < |keys| ==> keys[i] == c.order[if i + cursor < |c.order| then i + cursor else i + cursor - |c.order|];
  }

  /** A whole cycle that raises: a fresh executor of one instrument whose bid and ask are one tick. */
  lemma CycleCanRaise() returns (c: Config, env: Env)
    ensures ValidConfig(c) && SubmitsQuietly(env) && c.rows.Keys == {"x"}
    ensures Driven(c, Initial(map["x" := 0.0], 0.0), env).raised
  {
    hide DriveKeys; hide UnpriceableIn; hide Intents;
    var row, options := PricingCanRaise();
    c := Config(map["x" := row], ["x"], options);
    env := Env(100.0, _ => 0, _ => Some(Quote(row.tick, row.tick, 0)), _ => None, _ => Sent, false);
    var d := Initial(map["x" := 0.0], 0.0);
    InitialHolds(c, map["x" := 0.0], 0.0);
    var (valued, nav) := Opened(c, d, env);
    OneIsValued(c, d, env);
    assert UnpriceableIn(c, valued, env, "x", nav) by { UnpriceableInIs(c, valued, env, "x", nav); }
    hide Opened;
    DriveRaisesIff(c, d, env, 0.0);
  }

  lemma OneIsValued(c: Config, d: Desk, env: Env)
    requires ValidConfig(c) && c.order == ["x"] && d == Initial(map["x" := 0.0], 0.0) && c.rows.Keys == {"x"} && env.cacheQuote("x").Some?
    ensures var (valued, nav) := Opened(c, d, env);
            valued.quotes == map["x" := env.cacheQuote("x").value] && nav == 0.0 && valued.book.positions == d.book.positions
            && valued.backoff == map[]
  {
    var (quotes, value) := Marked(c, map[], 0.0, env, "x");
    assert value == 0.0 && quotes == map["x" := env.cacheQuote("x").value];
    assert c.order[1..] == [];
    assert Valued(c, quotes, d.book.positions, env, [], 0.0 + value) == (quotes, 0.0);
    assert Valued(c, map[], d.book.positions, env, c.order, 0.0) == Valued(c, quotes, d.book.positions, env, c.order[1..], 0.0 + value);
  }

  /** A due cycle that raises, for whatever reason, leaves every instrument after the raising one unquoted until the next cycle. */
  lemma RaisingCycleSkipsTheRest(c: Config, d: Desk, env: Env, clock: real) returns (i: nat)
    requires ValidConfig(c) && DeskInv(c, d, clock) && clock <= env.now && d.book.positions.Keys == c.rows.Keys
    requires Driven(c, d, env).raised
    ensures var (valued, nav) := Opened(c, d, env); var keys := Rotated(c.order, valued.cursor);
            && i < |keys| && (forall k :: k in keys ==> k in c.rows && k in valued.book.positions) && RaisesAt(c, valued, env, keys, i, nav)
            && forall j :: i < j < |keys| ==> Unquoted(valued, Driven(c, d, env).desk, keys[j])
  {
    hide DriveKeys; hide Opened; hide DeskInv; hide Unquoted;
    var (valued, nav) := Opened(c, d, env);
    var keys := Rotated(c.order, valued.cursor);
    OpeningKeeps(c, d, env, clock);
    RotationIsOrder(c, valued.cursor);
    i := RaisingStops(c, valued, env, keys, nav);
    forall j | i < j < |keys|
      ensures Unquoted(valued, Driven(c, d, env).desk, keys[j])
    {
      assert keys[j] !in keys[..i + 1];
      KeysTouchOwn(c, valued, env, keys[..i + 1], nav, keys[j]);
    }
  }
}
