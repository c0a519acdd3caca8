/** The executor itself: its fields, changed in place by its methods, each tied to the step it takes on the model, and the
    invariant that the methods which move money or orders keep. */
module Executor {
  import opened Common
  import opened ExecutorMeaning
  import opened ExecutorModel
  import opened ExecutorBooks
  import opened ExecutorRuns

  class ContinuousExecutor {
    const c: Config
    var positions: map<Key, real>
    var cash: real
    var quotes: map<Key, Quote>
    var targets: map<Key, real>
    var pending: map<(Key, Side), OrderId>
    var reservations: map<OrderId, Slot>
    var reasons: map<Key, Reason>
    var backoff: map<Key, real>
    var lastCycle: real
    var cursor: nat
    var rates: map<Kind, seq<real>>
    var instrumentRequests: map<(Key, Kind), seq<real>>
    var lastMetrics: Option<real>
    var nextOrder: OrderId
    ghost var limits: map<OrderId, real>
    ghost var log: seq<Request>
    ghost var orders: seq<Order>

    ghost function BookView(): Book reads this {
      Book(positions, cash, pending, reservations, limits, nextOrder)
    }

    ghost function MeterView(): Meter reads this { Meter(rates, instrumentRequests, log) }

    ghost function View(): Desk reads this {
      Desk(BookView(), MeterView(), quotes, targets, reasons, backoff, lastCycle, cursor, lastMetrics, orders)
    }

    ghost predicate Valid() reads this {
      ValidConfig(c) && positions.Keys == c.rows.Keys
    }

    constructor (c: Config, positions: map<Key, real>, cash: real)
      requires ValidConfig(c) && positions.Keys == c.rows.Keys
      ensures Valid() && this.c == c && View() == Initial(positions, cash)
    {
      this.c := c;
      this.positions, this.cash := positions, cash;
      quotes, targets, pending, reservations := map[], map[], map[], map[];
      reasons, backoff, lastCycle, cursor := map[], map[], 0.0, 0;
      rates, instrumentRequests, lastMetrics, nextOrder := map[], map[], None, 0;
      limits, log, orders := map[], [], [];
    }

    method OnQuote(key: Key, quote: Quote)
      requires Valid()
      modifies this
      ensures Valid() && View() == QuoteSeen(c, old(View()), key, quote)
    {
      if key in c.rows { quotes := quotes[key := quote]; }
    }

    method OnAccepted(id: OrderId)
      requires Valid()
      modifies this
      ensures Valid() && View() == old(View()).(book := Acknowledged(old(BookView()), id))
    {
      if id in reservations && !reservations[id].acked {
        reservations := reservations[id := reservations[id].(acked := true)];
      } else if id in reservations {
        assert reservations[id := reservations[id].(acked := true)] == reservations;
      }
    }

    method OnFilled(fill: Fill)
      requires Valid()
      modifies `positions, `cash, `reservations
      ensures Valid() && BookView() == FilledBook(old(BookView()), fill)
      ensures old(BookInv(BookView(), c.rows) && VenueFill(BookView(), fill)) ==> BookInv(BookView(), c.rows)
    {
      hide Signed; hide Notional; hide Max; hide ValidConfig; hide BookInv; hide VenueFill;
      if BookInv(BookView(), c.rows) && VenueFill(BookView(), fill) { FillKeepsBook(BookView(), c.rows, fill); }
      if fill.key !in c.rows { return; }
      var moved := positions[fill.key] + Signed(fill.side, fill.quantity);
      var paid := cash - Signed(fill.side, Notional(fill));
      if fill.currency.Base? {
        moved := moved - fill.commission;
      } else if fill.currency.Usdt? {
        paid := paid - fill.commission;
      }
      positions, cash := positions[fill.key := moved], paid;
      if fill.order in reservations {
        var slot := reservations[fill.order];
        reservations := reservations[fill.order := slot.(remaining := Max(0.0, slot.remaining - fill.quantity))];
      }
    }

    method RefreshPending(status: OrderId -> Option<Status>)
      requires Valid()
      modifies `pending, `reservations, `limits
      ensures Valid() && BookView() == Refreshed(old(BookView()), status)
    {
      hide ValidConfig; hide Places;
      var todo := reservations.Keys;
      ghost var gone: set<OrderId> := {};
      ghost var was := BookView();
      NothingForgotten(was);
      while todo != {}
        invariant todo <= was.reservations.Keys && todo !! gone && BookView() == Forgotten(was, gone)
        invariant gone == set id | id in was.reservations && id !in todo && Terminal(status, id)
        decreases todo
      {
        var id :| id in todo;
        var s := status(id);
        todo := todo - {id};
        if s.Some? && !Open(s.value) {
          var slot := reservations[id];
          ForgetOneMore(was, gone, id);
          gone := gone + {id};
          pending := pending - {(slot.key, slot.side)};
          reservations, limits := reservations - {id}, limits - {id};
        }
      }
      assert gone == set id | id in was.reservations && Terminal(status, id);
    }

    method ReservedCash() returns (total: real)
      ensures total == Reserved(reservations)
    {
      total := 0.0;
      var left := reservations;
      while left != map[]
        invariant total + Reserved(left) == Reserved(reservations)
        decreases |left|
      {
        var id :| id in left;
        ReservedTakesAny(left, id);
        if left[id].side.Buy? { total := total + left[id].remaining * left[id].price * (1.0 + left[id].fee); }
        left := left - {id};
      }
    }

    static method PruneDeque(times: seq<real>, now: real, age: real) returns (left: seq<real>)
      ensures left == Prune(times, now, age)
    {
      left := times;
      while left != [] && now - left[0] >= age
        invariant Prune(left, now, age) == Prune(times, now, age)
      {
        left := left[1..];
      }
    }

    static method Recent(times: seq<real>, now: real, span: real) returns (count: nat)
      ensures count == CountRecent(times, now, span)
    {
      count := 0;
      for i := 0 to |times|
        invariant count + CountRecent(times[i..], now, span) == CountRecent(times, now, span)
      {
        assert times[i..][1..] == times[i + 1..];
        if now - times[i] < span { count := count + 1; }
      }
    }

    method Allowed(key: Key, kind: Kind, now: real) returns (ok: bool)
      modifies `rates, `instrumentRequests
      ensures MeterView() == Pruned(old(MeterView()), key, kind, now)
      ensures ok == ExecutorModel.Allowed(c.options.maxOrdersPerSecond, old(MeterView()), key, kind, now)
    {
      var history := PruneDeque(if kind in rates then rates[kind] else [], now, 60.0);
      var per := PruneDeque(if (key, kind) in instrumentRequests then instrumentRequests[(key, kind)] else [], now, 2.0);
      rates := rates[kind := history];
      instrumentRequests := instrumentRequests[(key, kind) := per];
      if |per| >= 60 { return false; }
      var count := Recent(history, now, 1.0);
      return count < c.options.maxOrdersPerSecond;
    }

    method RecordRequest(key: Key, kind: Kind, now: real)
      modifies `rates, `instrumentRequests, `log
      ensures MeterView() == Recorded(old(MeterView()), key, kind, now)
    {
      var history := if kind in rates then rates[kind] else [];
      var per := if (key, kind) in instrumentRequests then instrumentRequests[(key, kind)] else [];
      rates := rates[kind := history + [now]];
      instrumentRequests := instrumentRequests[(key, kind) := per + [now]];
      log := log + [Request(key, kind, now)];
    }

    method MetricsDue(now: real)
      modifies `rates, `lastMetrics
      ensures View() == MetricsRead(old(View()), now)
      ensures lastMetrics == if old(lastMetrics).Some? && now < old(lastMetrics).value + 1.0 then old(lastMetrics) else Some(now)
    {
      if lastMetrics.Some? && now - lastMetrics.value < 1.0 { return; }
      lastMetrics := Some(now);
      var todo := rates.Keys;
      ghost var was := rates;
      while todo != {}
        invariant todo <= was.Keys == rates.Keys && lastMetrics == Some(now)
        invariant forall kind :: kind in was ==> rates[kind] == if kind in todo then was[kind] else Prune(was[kind], now, 60.0)
        decreases todo
      {
        var kind :| kind in todo;
        var left := PruneDeque(rates[kind], now, 60.0);
        rates, todo := rates[kind := left], todo - {kind};
      }
      assert rates == PrunedAll(was, now);
    }

    method CancelSlot(id: OrderId, env: Env)
      requires id in reservations
      modifies `reservations, `rates, `instrumentRequests, `log
      ensures View() == CancelRequested(c, old(View()), id, env)
    {
      hide Pruned; hide Recorded; hide ExecutorModel.Allowed;
      var slot := reservations[id];
      if slot.cancelRequested { return; }
      var ok := Allowed(slot.key, Cancel, env.now);
      if !ok { return; }
      var status := env.status(id);
      if status.None? || status.value in {Initialized, Submitted, PendingCancel, PendingUpdate} { return; }
      RequestCancel(id, env.now);
    }

    method RequestCancel(id: OrderId, now: real)
      requires id in reservations
      modifies `reservations, `rates, `instrumentRequests, `log
      ensures var d, slot := old(View()), old(reservations[id]);
              View() == d.(book := d.book.(reservations := d.book.reservations[id := slot.(cancelRequested := true)]),
                           meter := Recorded(d.meter, slot.key, Cancel, now))
    {
      hide Recorded;
      var slot := reservations[id];
      reservations := reservations[id := slot.(cancelRequested := true)];
      RecordRequest(slot.key, Cancel, now);
    }

    method PlaceSlot(slot: Slot, ghost limit: real) returns (id: OrderId)
      modifies `pending, `reservations, `limits, `nextOrder
      ensures id == old(nextOrder) && BookView() == Reserve(old(BookView()), slot, limit)
    {
      id := nextOrder;
      nextOrder := id + 1;
      reservations, pending, limits := reservations[id := slot], pending[(slot.key, slot.side) := id], limits[id := limit];
    }

    method ReleaseSlot(id: OrderId)
      modifies `pending, `reservations, `limits
      ensures BookView() == Released(old(BookView()), id)
    {
      if id in reservations {
        var slot := reservations[id];
        reservations, limits := reservations - {id}, limits - {id};
        pending := pending - {(slot.key, slot.side)};
      }
    }

    method OnRejected(id: OrderId, now: real)
      modifies `pending, `reservations, `limits, `backoff
      ensures View() == RejectedOrder(old(View()), id, now)
      ensures id in old(reservations) ==> backoff == old(backoff)[old(reservations)[id].key := now + 1.0] && id !in reservations
      ensures old(BookInv(BookView(), c.rows)) ==> BookInv(BookView(), c.rows)
    {
      hide BookInv;
      if BookInv(BookView(), c.rows) { ReleaseKeepsBook(BookView(), c.rows, id); }
      if id in reservations {
        backoff := backoff[reservations[id].key := now + 1.0];
        ReleaseSlot(id);
      }
    }

    method Deliver(denied: Option<real>, slot: Slot, id: OrderId, ghost quote: Quote, now: real)
      modifies `pending, `reservations, `limits, `backoff, `rates, `instrumentRequests, `log, `orders
      ensures View() == Delivered(old(View()), denied, slot, id, quote, now)
    {
      hide Recorded; hide RejectedOrder;
      if denied.Some? { OnRejected(id, denied.value); }
      RecordRequest(slot.key, Submit, now);
      orders := orders + [Order(id, slot.key, slot.side, slot.remaining, slot.price, quote.bid, quote.ask)];
    }

    /** Reserves the slot, hands the order to the venue and records the request; an exception gives the slot back. */
    method SubmitOrder(env: Env, slot: Slot, ghost limit: real, ghost quote: Quote) returns (raised: bool)
      modifies `pending, `reservations, `limits, `nextOrder, `backoff, `rates, `instrumentRequests, `log, `orders
      ensures Outcome(View(), None, raised) == Submission(old(View()), env, slot, limit, quote)
    {
      hide Delivered; hide Reserve; hide Released;
      var id := PlaceSlot(slot, limit);
      var outcome := env.submit(id);
      if outcome.Raises? {
        ReleaseSlot(id);
        return true;
      }
      Deliver(DeniedAt(outcome), slot, id, quote, env.now);
      return false;
    }

    method Afford(row: Row, quantity: real, price: Positive) returns (q: real)
      ensures q == Affordable(BookView(), row, quantity, price)
    {
      hide Rounded; hide Reserved;
      var reserved := ReservedCash();
      var available := Max(0.0, cash - reserved);
      q := Min(quantity, Rounded(UnitsFor(available, UnitCost(price, row.fee)), row.lot, false));
    }

    /** The body of the inner loop, for one side of one instrument. */
    method QuoteSide(env: Env, key: Key, side: Side, intent: Option<Intent>, ghost limit: real, ghost quote: Quote)
      returns (reason: Option<Reason>, raised: bool)
      requires Valid() && key in c.rows
      modifies `pending, `reservations, `limits, `nextOrder, `backoff, `rates, `instrumentRequests, `log, `orders
      ensures Outcome(View(), reason, raised) == SideStep(c, old(View()), env, key, side, intent, limit, quote)
    {
      hide Stale; hide CancelRequested; hide Pruned; hide ExecutorModel.Allowed; hide Submission; hide Affordable;
      reason, raised := None, false;
      if (key, side) in pending && pending[(key, side)] in reservations {
        var id := pending[(key, side)];
        if Stale(c, reservations[id], intent, env.now) { CancelSlot(id, env); }
        return;
      }
      if intent.None? { return; }
      var ok := Allowed(key, Submit, env.now);
      if !ok { return Some(RequestBudget), false; }
      var row := c.rows[key];
      var quantity, price := intent.value.quantity, intent.value.price;
      if side.Buy? { quantity := Afford(row, quantity, price); }
      if quantity < row.minSize { return Some(if side.Buy? then AvailableCash else MinimumSize), false; }
      raised := SubmitOrder(env, Slot(key, side, quantity, price, row.fee, env.now, false, false), limit, quote);
    }

    /** The body of the outer loop: price one instrument, then quote its SELL and its BUY side. */
    method QuoteInstrument(env: Env, key: Key, nav: real) returns (raised: bool)
      requires Valid() && key in c.rows
      modifies `pending, `reservations, `limits, `nextOrder, `backoff, `rates, `instrumentRequests, `log, `orders, `targets, `reasons
      ensures Valid()
      ensures var o := InstrumentStep(c, old(View()), env, key, nav); View() == o.desk && raised == o.raised
      ensures TurnAims(c, old(View()), targets, env, key, nav)
    {
      hide SideStep; hide Intents; hide ValidConfig; hide TurnAims;
      InstrumentAims(c, View(), env, key, nav);
      var want := Wanted(c, quotes, backoff, positions[key], env, key, nav);
      var plan := if want.Priced? then want.plan else Plan(0.0, 0.0, 0.0, false, None, None, false);
      ghost var quote := if want.Priced? then want.quote else Quote(0.0, 0.0, 0);
      var reason := if want.Idle? then Some(want.reason) else if plan.capped then Some(OrderNotionalCap) else None;
      if want.Priced? { targets := targets[key := plan.target]; }
      if plan.raises { return true; }
      var why: Option<Reason>;
      why, raised := QuoteSide(env, key, Sell, plan.sell, plan.lower, quote);
      if raised { return; }
      reason := Later(reason, why);
      why, raised := QuoteSide(env, key, Buy, plan.buy, plan.upper, quote);
      if raised { return; }
      reason := Later(reason, why);
      Decide(key, reason);
    }

    method Decide(key: Key, reason: Option<Reason>)
      modifies `reasons
      ensures var d := old(View());
              var working := (key, Buy) in d.book.pending || (key, Sell) in d.book.pending;
              View() == d.(reasons := d.reasons[key := if reason.Some? then reason.value else if working then Quoting else TargetWithinMinimum])
    {
      var working := (key, Buy) in pending || (key, Sell) in pending;
      reasons := reasons[key := if reason.Some? then reason.value else if working then Quoting else TargetWithinMinimum];
    }

    /** Adopts cached quotes and adds up what the book is worth. */
    method Value(env: Env) returns (nav: real)
      requires Valid()
      modifies `quotes
      ensures (quotes, nav) == Valued(c, old(quotes), positions, env, c.order, cash)
    {
      hide Marked; hide Valued; hide ValidConfig;
      OrderIsRows(c);
      nav := cash;
      assert c.order[0..] == c.order;
      for i := 0 to |c.order|
        invariant forall k :: k in c.order[i..] ==> k in c.rows && k in positions
        invariant Valued(c, quotes, positions, env, c.order[i..], nav) == Valued(c, old(quotes), positions, env, c.order, cash)
      {
        ValuedStep(c, quotes, positions, env, c.order, i, nav);
        var (next, value) := Marked(c, quotes, positions[c.order[i]], env, c.order[i]);
        quotes, nav := next, nav + value;
      }
      NothingValued(c, quotes, positions, env, c.order, nav);
    }

    method OpenCycle(env: Env) returns (nav: real)
      requires Valid()
      modifies `lastCycle, `pending, `reservations, `limits, `cursor, `quotes
      ensures BookView() == Refreshed(old(BookView()), env.status)
      ensures lastCycle == env.now && cursor == NextCursor(old(cursor), |c.order|)
      ensures (quotes, nav) == Valued(c, old(quotes), positions, env, c.order, cash)
    {
      hide Refreshed; hide Valued; hide ValidConfig; hide NextCursor;
      lastCycle := env.now;
      RefreshPending(env.status);
      cursor := NextCursor(cursor, |c.order|);
      nav := Value(env);
    }

    /** The outer loop, over the instruments in this cycle's order. */
    method QuoteRows(env: Env, rows: seq<Key>, nav: real) returns (raised: bool)
      requires Valid() && forall k :: k in rows ==> k in c.rows
      modifies `pending, `reservations, `limits, `nextOrder, `backoff, `rates, `instrumentRequests, `log, `orders, `targets, `reasons
      ensures Valid()
      ensures var o := DriveKeys(c, old(View()), env, rows, nav); View() == o.desk && raised == o.raised
    {
      hide InstrumentStep; hide ValidConfig;
      raised := false;
      for i := 0 to |rows|
        invariant Valid() && !raised
        invariant DriveKeys(c, View(), env, rows[i..], nav) == DriveKeys(c, old(View()), env, rows, nav)
      {
        assert rows[i..][0] == rows[i] && rows[i..][1..] == rows[i + 1..];
        raised := QuoteInstrument(env, rows[i], nav);
        if raised { return; }
      }
    }

    method DriveCycle(env: Env) returns (raised: bool)
      requires Valid()
      modifies this
      ensures Valid()
      ensures var o := Driven(c, old(View()), env); View() == o.desk && raised == o.raised
      ensures forall clock :: clock <= env.now && DeskInv(c, old(View()), clock) ==> DeskInv(c, View(), env.now)
    {
      hide Refreshed; hide Valued; hide NextCursor; hide DriveKeys; hide DeskInv;
      forall clock | clock <= env.now && DeskInv(c, View(), clock)
        ensures DeskInv(c, Driven(c, View(), env).desk, env.now)
      {
        DriveKeeps(c, View(), env, clock);
      }
      if env.now - lastCycle < c.options.quoteIntervalMs as real / 1000.0 { return false; }
      var nav := OpenCycle(env);
      assert (View(), nav) == Opened(c, old(View()), env);
      raised := QuoteRows(env, Rotated(c.order, cursor), nav);
    }
  }

  /** The book without some orders and their places. */
  function Forgotten(b: Book, gone: set<OrderId>): Book {
    b.(pending := b.pending - Places(b.reservations, gone), reservations := b.reservations - gone, limits := b.limits - gone)
  }

  lemma NothingForgotten(b: Book)
    ensures Forgotten(b, {}) == b
  {
    assert Places(b.reservations, {}) == {};
  }

  lemma ForgetOneMore(b: Book, gone: set<OrderId>, id: OrderId)
    requires id in b.reservations && id !in gone
    ensures var f := Forgotten(b, gone); var slot := b.reservations[id];
            id in f.reservations && f.reservations[id] == slot
            && Forgotten(b, gone + {id}) == f.(pending := f.pending - {(slot.key, slot.side)}, reservations := f.reservations - {id},
                                               limits := f.limits - {id})
  {
    var slot := b.reservations[id];
    assert Places(b.reservations, gone + {id}) == Places(b.reservations, gone) + {(slot.key, slot.side)};
  }

  lemma ValuedStep(c: Config, quotes: Quotes, positions: map<Key, real>, env: Env, keys: seq<Key>, i: nat, nav: real)
    requires i < |keys| && forall k :: k in keys[i..] ==> k in c.rows && k in positions
    ensures keys[i] in c.rows && keys[i] in positions && forall k :: k in keys[i + 1..] ==> k in c.rows && k in positions
    ensures var (next, value) := Marked(c, quotes, positions[keys[i]], env, keys[i]);
            Valued(c, quotes, positions, env, keys[i..], nav) == Valued(c, next, positions, env, keys[i + 1..], nav + value)
  {
    hide Marked;
    assert keys[i..][0] == keys[i] && keys[i..][1..] == keys[i + 1..];
    assert forall k :: k in keys[i + 1..] ==> k in keys[i..];
  }

  lemma NothingValued(c: Config, quotes: Quotes, positions: map<Key, real>, env: Env, keys: seq<Key>, nav: real)
    ensures keys[|keys|..] == [] && Valued(c, quotes, positions, env, [], nav) == (quotes, nav)
  {}
}
