/** The operator controls as values: halting, reducing, resuming, and the flatten task that sells the allocated inventory. */
module FlattenModel {
  import opened Common
  import E = ExecutorModel

  type Positive = E.Positive
  type Fee = E.Fee

  datatype Action = Halt | Reduce | Resume | Cancel | Flatten
  datatype Mode = Active | Reducing | Halted | Starting
  datatype Phase = Cancelling | Selling | Completed | Incomplete

  /** tradeSize is the size this release trades per order, ask the price its notional was set at. */
  datatype Pair = Pair(lot: Positive, minimum: Positive, fee: Fee, tick: Positive, tradeSize: Option<real>, ask: Option<real>)
  datatype Quote = Quote(bid: Positive, stale: bool)

  datatype Finding = Flat | Dust | AttemptLimit | WaitingQuote | WaitingBalance | BalanceOrMinimum | Submitted(quantity: real)

  /** An order the task has sent, with what was known at that moment. */
  datatype Sale = Sale(symbol: string, quantity: real, price: real, owned: real, available: real, bid: Positive, openOrders: bool)

  /** sales records every order the task has sent; nothing reads it. */
  datatype Task = Task(phase: Phase, instruments: seq<string>, deadline: real, attempts: map<string, nat>, results: map<string, Finding>,
                       sales: seq<Sale>)

  datatype Controls = Controls(mode: Mode, task: Option<Task>, lastPoll: real)

  /** What one poll reads: the clock, whether the run has any open order of its own, its allocation, the quotes and free balances. */
  datatype World = World(now: real, openOrders: bool, owned: map<string, real>, quotes: map<string, Quote>, free: map<string, real>)

  const ATTEMPTS: nat := 16

  predicate Ongoing(t: Option<Task>) { t.Some? && t.value.phase in {Cancelling, Selling} }

  function Get<T>(m: map<string, T>, k: string, default: T): T { if k in m then m[k] else default }

  function ReductionSize(owned: real, available: real, lot: Positive, minimum: real, fee: Fee): real {
    var quantity := E.Rounded(E.UnitsFor(E.Max(0.0, E.Min(owned, available)), 1.0 + fee), lot, false);
    if quantity >= minimum then quantity else 0.0
  }

  /** The size the release may send: its trade size, less when the bid has risen above the ask that its notional was set at. */
  function SaleLimit(pair: Pair, quantity: real, bid: Positive): real {
    var size := if pair.tradeSize.Some? then pair.tradeSize.value else quantity;
    if pair.ask.Some? then size * E.Min(1.0, E.UnitsFor(pair.ask.value, bid)) else size
  }

  function SaleSize(pair: Pair, owned: real, available: real, bid: Positive): real {
    var quantity := ReductionSize(owned, available, pair.lot, pair.minimum, pair.fee);
    E.Min(quantity, E.Rounded(SaleLimit(pair, quantity, bid), pair.lot, false))
  }

  /** A tenth of a per cent below the bid. */
  function Discounted(bid: Positive): real { bid * 0.999 }

  /** Left of a symbol without selling: below the minimum it needs nothing more. */
  predicate Settled(pairs: map<string, Pair>, w: World, symbol: string)
    requires symbol in pairs
  {
    Get(w.owned, symbol, 0.0) < pairs[symbol].minimum
  }

  function Note(t: Task, symbol: string, finding: Finding): Task { t.(results := t.results[symbol := finding]) }

  /** One symbol: the task with its finding, and whether an order was sent. */
  function Visit(t: Task, pairs: map<string, Pair>, w: World, symbol: string): (Task, bool)
    requires symbol in pairs
  {
    var pair, owned := pairs[symbol], Get(w.owned, symbol, 0.0);
    if Settled(pairs, w, symbol) then (Note(t, symbol, if owned <= 0.0 then Flat else Dust), false)
    else if Get(t.attempts, symbol, 0) >= ATTEMPTS then (Note(t, symbol, AttemptLimit), false)
    else if symbol !in w.quotes || w.quotes[symbol].stale then (Note(t, symbol, WaitingQuote), false)
    else if symbol !in w.free then (Note(t, symbol, WaitingBalance), false)
    else
      var bid, available := w.quotes[symbol].bid, w.free[symbol];
      var quantity := SaleSize(pair, owned, available, bid);
      if quantity < pair.minimum then (Note(t, symbol, BalanceOrMinimum), false)
      else
        var price := E.Rounded(Discounted(bid), pair.tick, false);
        (Note(t, symbol, Submitted(quantity)).(attempts := t.attempts[symbol := Get(t.attempts, symbol, 0) + 1],
                                               sales := t.sales + [Sale(symbol, quantity, price, owned, available, bid, w.openOrders)]), true)
  }

  datatype Round = Round(task: Task, sold: bool, pending: bool)

  /** The symbols from a place on, up to the first order sent. */
  function Rounds(t: Task, pairs: map<string, Pair>, w: World, from: nat, pending: bool): Round
    requires from <= |t.instruments| && forall s :: s in t.instruments ==> s in pairs
    decreases |t.instruments| - from
  {
    if from == |t.instruments| then Round(t, false, pending) else
    var symbol := t.instruments[from];
    var (next, sold) := Visit(t, pairs, w, symbol);
    if sold then Round(next, true, true) else Rounds(next, pairs, w, from + 1, pending || !Settled(pairs, w, symbol))
  }

  function Poll(c: Controls, pairs: map<string, Pair>, w: World): Controls
    requires c.task.Some? ==> forall s :: s in c.task.value.instruments ==> s in pairs
  {
    if w.now - c.lastPoll < 0.125 then c else
    var polled := c.(lastPoll := w.now);
    if !Ongoing(c.task) then polled else
    var task := c.task.value;
    if w.now > task.deadline then polled.(task := Some(task.(phase := Incomplete)), mode := Halted)
    else if w.openOrders then polled
    else
      var round := Rounds(task.(phase := Selling), pairs, w, 0, false);
      if round.sold || round.pending then polled.(task := Some(round.task))
      else polled.(task := Some(round.task.(phase := Completed)), mode := Halted)
  }

  /** Each symbol once. */
  function Distinct(symbols: seq<string>): (r: seq<string>)
    ensures (forall s :: s in r <==> s in symbols) && forall i, j :: 0 <= i < j < |r| ==> r[i] != r[j]
  {
    if symbols == [] then [] else
    var init, last := Distinct(symbols[..|symbols| - 1]), symbols[|symbols| - 1];
    assert forall s :: s in symbols <==> s in symbols[..|symbols| - 1] || s == last;
    if last in init then init else init + [last]
  }

  /** A control is refused with no effect, or raises: a resume then halts the run, and any other control leaves its policy in force. */
  datatype Reply = Done | Refused | RaisedHalted | Raised

  /** running: the node runs and is not stopping; stops, cancels, restarts: stopping the strategies, cancelling the run's orders and
      starting the strategies go without an error; feeds: the run has a model feed. */
  datatype Engine = Engine(running: bool, stops: bool, cancels: bool, restarts: bool, feeds: bool)

  function Apply(c: Controls, pairs: map<string, Pair>, action: Action, symbols: seq<string>, now: real, engine: Engine): (Controls, Reply) {
    if !engine.running then (c, Refused)
    else if action.Resume? then
      if c.task.Some? || c.mode !in {Halted, Reducing} then (c, Refused)
      else if engine.restarts then (c.(mode := Active), Done)
      else (c.(mode := Halted), RaisedHalted)
    else if action.Flatten? && (symbols == [] || (exists s :: s in symbols && s !in pairs) || Ongoing(c.task)) then (c, Refused)
    else
      var held := c.(mode := if action in {Reduce, Flatten} then Reducing else Halted);
      if !engine.stops || !engine.cancels then (held, Raised)
      else if action.Flatten? then (held.(task := Some(Task(Cancelling, Distinct(symbols), now + 60.0, map[], map[], []))), Done)
      else (held, if action.Reduce? && engine.feeds && !engine.restarts then Raised else Done)
  }
}
