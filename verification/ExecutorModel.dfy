/** The state of the continuous executor and what each of its operations does to it.
    Decimal amounts are exact reals; times are the monotonic clock in seconds. */
module ExecutorModel {
  import opened Common

  type Key = string
  type OrderId = nat
  type Positive = r: real | r > 0.0 witness 1.0
  type Fee = r: real | 0.0 <= r < 1.0

  datatype Side = Buy | Sell
  datatype Kind = Submit | Cancel
  datatype Mode = ContinuousQuotes | ContinuousRebalance
  datatype Status =
    | Initialized | Submitted | Accepted | PartiallyFilled | PendingCancel | PendingUpdate
    | Filled | Canceled | Rejected | Expired | Denied

  datatype Row = Row(lot: Positive, minSize: Positive, tick: Positive, fee: Fee, weight: real, bid: real, ask: real)
  datatype Options = Options(mode: Mode, quoteIntervalMs: int, requoteThresholdBps: int, quoteSizeLots: int,
                             inventoryBandLots: int, orderExpirySecs: int, maxOrdersPerSecond: int,
                             minimumEdgeBps: int, maxOrderNotionalUsdt: int)

  /** What the executor is built with: the rows in dictionary order, and the released options. */
  datatype Config = Config(rows: map<Key, Row>, order: seq<Key>, options: Options)

  datatype Quote = Quote(bid: real, ask: real, tsInit: int)
  datatype Intent = Intent(quantity: real, price: Positive)
  datatype Slot = Slot(key: Key, side: Side, remaining: real, price: Positive, fee: Fee, sentAt: real,
                       acked: bool, cancelRequested: bool)
  datatype Reason = WaitingQuote | RetryBackoff | InvalidQuote | OrderNotionalCap | RequestBudget
                  | AvailableCash | MinimumSize | Quoting | TargetWithinMinimum

  /** A request the venue was sent, for stating the rate bounds. */
  datatype Request = Request(key: Key, kind: Kind, at: real)
  /** An order handed to the venue, with the quote it was priced against. */
  datatype Order = Order(id: OrderId, key: Key, side: Side, quantity: real, price: Positive, bid: real, ask: real)

  /** Money, inventory and open orders. limits records the inventory bound each order was priced for; nothing reads it. */
  datatype Book = Book(positions: map<Key, real>, cash: real, pending: map<(Key, Side), OrderId>,
                       reservations: map<OrderId, Slot>, limits: map<OrderId, real>, nextOrder: OrderId)

  /** The request deques. log records every request ever made; nothing reads it. */
  datatype Meter = Meter(rates: map<Kind, seq<real>>, instrumentRequests: map<(Key, Kind), seq<real>>, log: seq<Request>)

  /** orders records every order handed to the venue; nothing reads it. */
  datatype Desk = Desk(book: Book, meter: Meter, quotes: map<Key, Quote>, targets: map<Key, real>, reasons: map<Key, Reason>,
                       backoff: map<Key, real>, lastCycle: real, cursor: nat, lastMetrics: Option<real>, orders: seq<Order>)

  /** at is when the risk engine denied the order inside submit_order; the clock is read again there. */
  datatype SubmitOutcome = Sent | DeniedLocally(at: real) | Raises

  /** What one drive cycle reads from the node and the clocks. */
  datatype Env = Env(now: real, wallNs: Key -> int, cacheQuote: Key -> Option<Quote>,
                     status: OrderId -> Option<Status>, submit: OrderId -> SubmitOutcome, reducing: bool)

  ghost predicate ValidConfig(c: Config) {
    && (forall k :: k in c.order <==> k in c.rows)
    && (forall i, j :: 0 <= i < j < |c.order| ==> c.order[i] != c.order[j])
    && (forall k :: k in c.rows ==> c.rows[k].weight >= 0.0)
    && c.options.quoteSizeLots >= 1 && c.options.inventoryBandLots >= 1
    && c.options.maxOrdersPerSecond >= 1 && c.options.minimumEdgeBps >= 0 && c.options.maxOrderNotionalUsdt >= 1
  }

  predicate Open(s: Status) {
    s in {Initialized, Submitted, Accepted, PartiallyFilled, PendingCancel, PendingUpdate}
  }

  function Min(a: real, b: real): real { if a <= b then a else b }
  function Max(a: real, b: real): real { if a >= b then a else b }
  function Abs(a: real): real { if a >= 0.0 then a else -a }

  function Rounded(value: real, quantum: Positive, up: bool): real {
    if up then -((-(value / quantum)).Floor as real) * quantum else (value / quantum).Floor as real * quantum
  }

  // ---- Rate limits -------------------------------------------------------------------------

  function Prune(times: seq<real>, now: real, age: real): seq<real> {
    if times != [] && now - times[0] >= age then Prune(times[1..], now, age) else times
  }

  function CountRecent(times: seq<real>, now: real, span: real): nat {
    if times == [] then 0 else (if now - times[0] < span then 1 else 0) + CountRecent(times[1..], now, span)
  }

  function History(m: Meter, kind: Kind): seq<real> { if kind in m.rates then m.rates[kind] else [] }

  function PerInstrument(m: Meter, key: Key, kind: Kind): seq<real> {
    if (key, kind) in m.instrumentRequests then m.instrumentRequests[(key, kind)] else []
  }

  function Pruned(m: Meter, key: Key, kind: Kind, now: real): Meter {
    m.(rates := m.rates[kind := Prune(History(m, kind), now, 60.0)],
       instrumentRequests := m.instrumentRequests[(key, kind) := Prune(PerInstrument(m, key, kind), now, 2.0)])
  }

  /** The verdict of allowed, read after it has pruned both deques. */
  predicate Allowed(limit: int, m: Meter, key: Key, kind: Kind, now: real) {
    var p := Pruned(m, key, kind, now);
    |PerInstrument(p, key, kind)| < 60 && CountRecent(History(p, kind), now, 1.0) < limit
  }

  function Recorded(m: Meter, key: Key, kind: Kind, now: real): Meter {
    Meter(m.rates[kind := History(m, kind) + [now]],
          m.instrumentRequests[(key, kind) := PerInstrument(m, key, kind) + [now]],
          m.log + [Request(key, kind, now)])
  }

  function PrunedAll(rates: map<Kind, seq<real>>, now: real): map<Kind, seq<real>> {
    map kind | kind in rates :: Prune(rates[kind], now, 60.0)
  }

  function MetricsRead(d: Desk, now: real): Desk {
    if d.lastMetrics.Some? && now - d.lastMetrics.value < 1.0 then d
    else d.(lastMetrics := Some(now),
            meter := d.meter.(rates := PrunedAll(d.meter.rates, now)))
  }

  // ---- Order events ------------------------------------------------------------------------

  function QuoteSeen(c: Config, d: Desk, key: Key, quote: Quote): Desk {
    if key in c.rows then d.(quotes := d.quotes[key := quote]) else d
  }

  function Acknowledged(b: Book, id: OrderId): Book {
    if id in b.reservations then b.(reservations := b.reservations[id := b.reservations[id].(acked := true)]) else b
  }

  datatype Currency = Base | Usdt | Other
  datatype Fill = Fill(order: OrderId, key: Key, side: Side, quantity: real, price: real, commission: real, currency: Currency)

  function Notional(f: Fill): real { f.quantity * f.price }

  function Signed(side: Side, amount: real): real { if side.Buy? then amount else -amount }

  function FilledBook(b: Book, f: Fill): Book {
    if f.key !in b.positions then b else
    var moved := b.positions[f.key] + Signed(f.side, f.quantity) - (if f.currency.Base? then f.commission else 0.0);
    var paid := b.cash - Signed(f.side, Notional(f)) - (if f.currency.Usdt? then f.commission else 0.0);
    var next := b.(positions := b.positions[f.key := moved], cash := paid);
    if f.order !in b.reservations then next else
    var slot := b.reservations[f.order];
    next.(reservations := b.reservations[f.order := slot.(remaining := Max(0.0, slot.remaining - f.quantity))])
  }

  /** Both maps forget the order: what a rejection and a failed submission share. */
  function Released(b: Book, id: OrderId): Book {
    if id !in b.reservations then b else
    b.(pending := b.pending - {(b.reservations[id].key, b.reservations[id].side)},
       reservations := b.reservations - {id}, limits := b.limits - {id})
  }

  function RejectedOrder(d: Desk, id: OrderId, now: real): Desk {
    if id !in d.book.reservations then d else
    d.(book := Released(d.book, id), backoff := d.backoff[d.book.reservations[id].key := now + 1.0])
  }

  predicate Terminal(status: OrderId -> Option<Status>, id: OrderId) {
    status(id).Some? && !Open(status(id).value)
  }

  function Places(m: map<OrderId, Slot>, ids: set<OrderId>): set<(Key, Side)> {
    set id | id in ids && id in m :: (m[id].key, m[id].side)
  }

  /** refresh_pending: forgets every order whose status is no longer open. */
  function Refreshed(b: Book, status: OrderId -> Option<Status>): Book {
    var gone := set id | id in b.reservations && Terminal(status, id);
    b.(pending := b.pending - Places(b.reservations, gone),
       reservations := b.reservations - gone, limits := b.limits - gone)
  }

  function Cost(s: Slot): real {
    if s.side.Buy? then s.remaining * s.price * (1.0 + s.fee) else 0.0
  }

  /** reserved_cash: the cost of the open BUY reservations, in any order. */
  ghost function Reserved(m: map<OrderId, Slot>): real {
    if m == map[] then 0.0 else
    var id :| id in m;
    Cost(m[id]) + Reserved(m - {id})
  }

  // ---- Pricing -----------------------------------------------------------------------------

  /** intents for one instrument: the target, the band it was priced for, and a quote for each side. */
  datatype Plan = Plan(target: real, lower: real, upper: real, raises: bool, buy: Option<Intent>, sell: Option<Intent>,
                       capped: bool)

  /** The instrument's share of the net value. */
  function Share(row: Row, nav: real): real { nav * row.weight }

  function UnitsFor(value: real, price: Positive): real { value / price }

  function Target(row: Row, nav: real, mid: Positive): real { Rounded(UnitsFor(Share(row, nav), mid), row.lot, false) }

  function WholeSize(row: Row, options: Options): real { row.minSize * options.quoteSizeLots as real }

  function Size(row: Row, options: Options): real { Rounded(WholeSize(row, options), row.lot, true) }

  /** The half spread: the maker fee plus half the minimum edge. */
  function HalfEdge(row: Row, options: Options): real {
    (row.fee * 10000.0 + options.minimumEdgeBps as real / 2.0) / 10000.0
  }

  /** The best bid when the position is short of its band, otherwise the edge below the middle if that is lower. */
  function WantedBuyPrice(row: Row, options: Options, position: real, lower: real, bid: real, mid: real): real {
    if position < lower then bid else Min(bid, mid * (1.0 - HalfEdge(row, options)))
  }

  function WantedSellPrice(row: Row, options: Options, position: real, upper: real, ask: real, mid: real): real {
    if position > upper then ask else Max(ask, mid * (1.0 + HalfEdge(row, options)))
  }

  function BuyRequested(row: Row, size: real, position: real, upper: real): real {
    Rounded(Min(size, Max(0.0, upper - position)), row.lot, false)
  }

  function SellRequested(row: Row, size: real, position: real, lower: real): real {
    Rounded(Min(size, Max(0.0, position - lower) / (1.0 + row.fee)), row.lot, false)
  }

  function Band(row: Row, options: Options, target: real): (real, real) {
    var band := row.minSize * options.inventoryBandLots as real * (1.0 + row.fee);
    if options.mode.ContinuousRebalance? then (target, target)
    else (Max(0.0, target - band), if row.weight > 0.0 then target + band else 0.0)
  }

  function Capped(wanted: real, cap: real, price: real, lot: Positive): real
    requires price != 0.0
  {
    Rounded(Min(wanted, cap / price), lot, false)
  }

  function Offer(quantity: real, price: real, minimum: real): Option<Intent> {
    if quantity >= minimum && price > 0.0 then Some(Intent(quantity, price)) else None
  }

  function Intents(row: Row, options: Options, position: real, bid: real, ask: real, nav: real, reducing: bool): Plan
    requires 0.0 < bid <= ask
  {
    var mid := (bid + ask) / 2.0;
    var target := Target(row, nav, mid);
    var size := Size(row, options);
    var (lower, upper) := Band(row, options, target);
    var buyPx := Rounded(WantedBuyPrice(row, options, position, lower, bid, mid), row.tick, false);
    var sellPx := Rounded(WantedSellPrice(row, options, position, upper, ask, mid), row.tick, true);
    // The notional cap is divided by the price before the price is tested for being positive.
    if buyPx == 0.0 || sellPx == 0.0 then Plan(target, lower, upper, true, None, None, false) else
    var buyRequested := BuyRequested(row, size, position, upper);
    var sellRequested := SellRequested(row, size, position, lower);
    var cap := options.maxOrderNotionalUsdt as real;
    var buyQty := Capped(buyRequested, cap, buyPx, row.lot);
    var sellQty := Capped(sellRequested, cap, sellPx, row.lot);
    var buy := if reducing then None else Offer(buyQty, buyPx, row.minSize);
    var sell := Offer(sellQty, sellPx, row.minSize);
    var capped := (buyRequested >= row.minSize && buyQty < row.minSize && !reducing)
                  || (sellRequested >= row.minSize && sellQty < row.minSize);
    Plan(target, lower, upper, false, buy, sell, capped && buy.None? && sell.None?)
  }

  // ---- The cycle ---------------------------------------------------------------------------

  /** A step of the cycle ends with a state, the reason it leaves behind, and whether it raised. */
  datatype Outcome = Outcome(desk: Desk, reason: Option<Reason>, raised: bool)

  function CancelRequested(c: Config, d: Desk, id: OrderId, env: Env): Desk
    requires id in d.book.reservations
  {
    var slot := d.book.reservations[id];
    if slot.cancelRequested then d else
    var p := d.(meter := Pruned(d.meter, slot.key, Cancel, env.now));
    if !Allowed(c.options.maxOrdersPerSecond, d.meter, slot.key, Cancel, env.now) then p else
    var status := env.status(id);
    if status.None? || status.value in {Initialized, Submitted, PendingCancel, PendingUpdate} then p
    else p.(book := d.book.(reservations := d.book.reservations[id := slot.(cancelRequested := true)]),
            meter := Recorded(p.meter, slot.key, Cancel, env.now))
  }

  predicate Stale(c: Config, slot: Slot, intent: Option<Intent>, now: real) {
    || intent.None?
    || now - slot.sentAt >= c.options.orderExpirySecs as real
    || slot.remaining > intent.value.quantity
    || (Abs(intent.value.price / slot.price - 1.0) * 10000.0 >= c.options.requoteThresholdBps as real
        && intent.value.price != slot.price)
  }

  /** What one unit costs with its fee. */
  function UnitCost(price: Positive, fee: Fee): Positive {
    assert price * (1.0 + fee) == price + price * fee;
    price * (1.0 + fee)
  }

  ghost function Affordable(b: Book, row: Row, quantity: real, price: Positive): real {
    var available := Max(0.0, b.cash - Reserved(b.reservations));
    Min(quantity, Rounded(UnitsFor(available, UnitCost(price, row.fee)), row.lot, false))
  }

  function Reserve(b: Book, slot: Slot, limit: real): Book {
    var id := b.nextOrder;
    b.(reservations := b.reservations[id := slot], pending := b.pending[(slot.key, slot.side) := id],
       limits := b.limits[id := limit], nextOrder := id + 1)
  }

  /** An order the venue took, or that the risk engine denied before submit_order returned. */
  function Delivered(d: Desk, denied: Option<real>, slot: Slot, id: OrderId, quote: Quote, now: real): Desk {
    var sent := if denied.Some? then RejectedOrder(d, id, denied.value) else d;
    sent.(meter := Recorded(d.meter, slot.key, Submit, now),
          orders := d.orders + [Order(id, slot.key, slot.side, slot.remaining, slot.price, quote.bid, quote.ask)])
  }

  function DeniedAt(outcome: SubmitOutcome): Option<real> { if outcome.DeniedLocally? then Some(outcome.at) else None }

  /** Reserve, submit, and record; a failed submission gives the slot back and propagates. */
  function Submission(d: Desk, env: Env, slot: Slot, limit: real, quote: Quote): (o: Outcome)
    ensures o.desk.book.positions == d.book.positions
  {
    var id := d.book.nextOrder;
    var reserved := d.(book := Reserve(d.book, slot, limit));
    if env.submit(id).Raises? then Outcome(reserved.(book := Released(reserved.book, id)), None, true)
    else Outcome(Delivered(reserved, DeniedAt(env.submit(id)), slot, id, quote, env.now), None, false)
  }

  /** One turn of the inner loop: cancel what is stale, or place what is wanted. */
  ghost function SideStep(c: Config, d: Desk, env: Env, key: Key, side: Side, intent: Option<Intent>, limit: real,
                          quote: Quote): (o: Outcome)
    requires key in c.rows
    ensures o.desk.book.positions == d.book.positions
  {
    var row := c.rows[key];
    var b := d.book;
    if (key, side) in b.pending && b.pending[(key, side)] in b.reservations then
      var id := b.pending[(key, side)];
      Outcome(if Stale(c, b.reservations[id], intent, env.now) then CancelRequested(c, d, id, env) else d, None, false)
    else if intent.None? then Outcome(d, None, false)
    else
      var p := d.(meter := Pruned(d.meter, key, Submit, env.now));
      if !Allowed(c.options.maxOrdersPerSecond, d.meter, key, Submit, env.now) then Outcome(p, Some(RequestBudget), false) else
      var price := intent.value.price;
      var quantity := if side.Buy? then Affordable(b, row, intent.value.quantity, price) else intent.value.quantity;
      if quantity < row.minSize then Outcome(p, Some(if side.Buy? then AvailableCash else MinimumSize), false)
      else Submission(p, env, Slot(key, side, quantity, price, row.fee, env.now, false, false), limit, quote)
  }

  predicate Fresh(quotes: map<Key, Quote>, env: Env, key: Key) {
    key in quotes && 0 <= env.wallNs(key) - quotes[key].tsInit <= 5_000_000_000
  }

  /** What an instrument may quote this cycle, or why it may not. */
  datatype Want = Idle(reason: Reason) | Priced(plan: Plan, quote: Quote)

  function Wanted(c: Config, quotes: map<Key, Quote>, backoff: map<Key, real>, position: real, env: Env, key: Key, nav: real): Want
    requires key in c.rows
  {
    if !Fresh(quotes, env, key) then Idle(WaitingQuote)
    else if key in backoff && env.now < backoff[key] then Idle(RetryBackoff)
    else if quotes[key].bid <= 0.0 || quotes[key].ask < quotes[key].bid then Idle(InvalidQuote)
    else
      var quote := quotes[key];
      Priced(Intents(c.rows[key], c.options, position, quote.bid, quote.ask, Max(nav, 0.0), env.reducing), quote)
  }

  function Later(a: Option<Reason>, b: Option<Reason>): Option<Reason> { if b.Some? then b else a }

  ghost function InstrumentStep(c: Config, d: Desk, env: Env, key: Key, nav: real): (o: Outcome)
    requires key in c.rows && key in d.book.positions
    ensures o.desk.book.positions == d.book.positions
  {
    var want := Wanted(c, d.quotes, d.backoff, d.book.positions[key], env, key, nav);
    var none := Plan(0.0, 0.0, 0.0, false, None, None, false);
    var plan := if want.Priced? then want.plan else none;
    var quote := if want.Priced? then want.quote else Quote(0.0, 0.0, 0);
    var why := if want.Idle? then Some(want.reason) else if plan.capped then Some(OrderNotionalCap) else None;
    var start := if want.Priced? then d.(targets := d.targets[key := plan.target]) else d;
    if plan.raises then Outcome(start, None, true) else
    var sold := SideStep(c, start, env, key, Sell, plan.sell, plan.lower, quote);
    if sold.raised then sold else
    var bought := SideStep(c, sold.desk, env, key, Buy, plan.buy, plan.upper, quote);
    if bought.raised then bought else
    var reason := Later(Later(why, sold.reason), bought.reason);
    var working := (key, Buy) in bought.desk.book.pending || (key, Sell) in bought.desk.book.pending;
    var shown := if reason.Some? then reason.value else if working then Quoting else TargetWithinMinimum;
    Outcome(bought.desk.(reasons := bought.desk.reasons[key := shown]), None, false)
  }

  /** The outer loop; it ends early when a submission or a division raises. */
  ghost function DriveKeys(c: Config, d: Desk, env: Env, keys: seq<Key>, nav: real): Outcome
    requires forall k :: k in keys ==> k in c.rows && k in d.book.positions
    decreases |keys|
  {
    if keys == [] then Outcome(d, None, false) else
    var one := InstrumentStep(c, d, env, keys[0], nav);
    if one.raised then one else DriveKeys(c, one.desk, env, keys[1..], nav)
  }

  type Quotes = map<Key, Quote>

  /** The valuation of one instrument: its quote, adopted from the cache if there is none, and its marked value. */
  function Marked(c: Config, quotes: Quotes, position: real, env: Env, key: Key): (Quotes, real)
    requires key in c.rows
  {
    var quote := if key in quotes then Some(quotes[key]) else env.cacheQuote(key);
    var mark := if quote.Some? then (quote.value.bid + quote.value.ask) / 2.0 else (c.rows[key].bid + c.rows[key].ask) / 2.0;
    (if quote.Some? then quotes[key := quote.value] else quotes, position * mark)
  }

  /** The valuation loop: adopts cached quotes and adds up the marked positions. */
  function Valued(c: Config, quotes: Quotes, positions: map<Key, real>, env: Env, keys: seq<Key>, nav: real): (Quotes, real)
    requires forall k :: k in keys ==> k in c.rows && k in positions
    decreases |keys|
  {
    if keys == [] then (quotes, nav) else
    var (next, value) := Marked(c, quotes, positions[keys[0]], env, keys[0]);
    Valued(c, next, positions, env, keys[1..], nav + value)
  }

  function Rotated(keys: seq<Key>, cursor: nat): seq<Key>
    requires cursor <= |keys|
  {
    keys[cursor..] + keys[..cursor]
  }

  function NextCursor(cursor: nat, rows: nat): (next: nat)
    ensures next <= rows
  {
    (cursor + 1) % (if rows == 0 then 1 else rows)
  }

  /** What drive does before its loop: forget closed orders, move the starting instrument on, value the book. */
  function Opened(c: Config, d: Desk, env: Env): (r: (Desk, real))
    requires ValidConfig(c) && d.book.positions.Keys == c.rows.Keys
    ensures r.0.meter == d.meter && r.0.orders == d.orders && r.0.book == Refreshed(d.book, env.status)
    ensures r.0.cursor <= |c.order|
  {
    var cursor := NextCursor(d.cursor, |c.order|);
    var (quotes, nav) := Valued(c, d.quotes, d.book.positions, env, c.order, d.book.cash);
    (d.(lastCycle := env.now, book := Refreshed(d.book, env.status), cursor := cursor, quotes := quotes), nav)
  }

  ghost function Driven(c: Config, d: Desk, env: Env): Outcome
    requires ValidConfig(c) && d.book.positions.Keys == c.rows.Keys
  {
    if env.now - d.lastCycle < c.options.quoteIntervalMs as real / 1000.0 then Outcome(d, None, false) else
    var (valued, nav) := Opened(c, d, env);
    DriveKeys(c, valued, env, Rotated(c.order, valued.cursor), nav)
  }

  // ---- Runs --------------------------------------------------------------------------------

  function Initial(positions: map<Key, real>, cash: real): Desk {
    Desk(Book(positions, cash, map[], map[], map[], 0), Meter(map[], map[], []),
         map[], map[], map[], map[], 0.0, 0, None, [])
  }

  datatype Step =
    | Drive(env: Env)
    | OnQuote(key: Key, quote: Quote)
    | OnAccepted(id: OrderId)
    | OnFilled(fill: Fill)
    | OnRejected(id: OrderId, now: real)
    | Metrics(now: real)

  ghost function Advance(c: Config, d: Desk, step: Step): (next: Desk)
    requires ValidConfig(c)
  {
    match step
    case Drive(env) => if d.book.positions.Keys == c.rows.Keys then Driven(c, d, env).desk else d
    case OnQuote(key, quote) => QuoteSeen(c, d, key, quote)
    case OnAccepted(id) => d.(book := Acknowledged(d.book, id))
    case OnFilled(fill) => d.(book := FilledBook(d.book, fill))
    case OnRejected(id, now) => RejectedOrder(d, id, now)
    case Metrics(now) => MetricsRead(d, now)
  }

  function Clock(step: Step, clock: real): real {
    match step
    case Drive(env) => env.now
    case OnRejected(_, now) => now
    case Metrics(now) => now
    case _ => clock
  }

  ghost function Run(c: Config, d: Desk, steps: seq<Step>): Desk
    requires ValidConfig(c)
  {
    if steps == [] then d else Advance(c, Run(c, d, steps[..|steps| - 1]), steps[|steps| - 1])
  }

  function RunClock(steps: seq<Step>, clock: real): real {
    if steps == [] then clock else Clock(steps[|steps| - 1], RunClock(steps[..|steps| - 1], clock))
  }
}
