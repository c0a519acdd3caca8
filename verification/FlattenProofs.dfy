/** The flatten task: its phases only move on, its deadline is kept, its orders fit, and it ends resuming for good. */
module FlattenProofs {
  import opened Common
  import opened FlattenModel
  import opened FlattenSizes
  import E = ExecutorModel
  import P = ExecutorPricing

  // ---- Sizes ----------------------------------------------------------------------------------

  lemma QuotientTimes(x: real, f: Positive, q: real, lot: real)
    requires q <= x / f < q + lot
    ensures q * f <= x < (q + lot) * f
  {
    var d := x / f;
    assert d * f == x;
    assert (d - q) * f >= 0.0;
    assert (q + lot - d) * f > 0.0;
    assert (d - q) * f == d * f - q * f;
    assert (q + lot - d) * f == (q + lot) * f - d * f;
  }

  /** The size with its fee fits what is allocated and free, and it is the largest number of lots that does; none at all means that
      even the largest would be below the minimum. */
  lemma ReductionFits(owned: real, available: real, lot: Positive, minimum: Positive, fee: Fee)
    ensures var usable := E.Max(0.0, E.Min(owned, available));
            var q := ReductionSize(owned, available, lot, minimum, fee);
            && q * (1.0 + fee) <= usable
            && (q != 0.0 ==> q >= minimum && P.IsMultiple(q, lot) && usable < (q + lot) * (1.0 + fee))
            && (q == 0.0 <==> E.Rounded(E.UnitsFor(usable, 1.0 + fee), lot, false) < minimum)
  {
    var usable := E.Max(0.0, E.Min(owned, available));
    var f: Positive := 1.0 + fee;
    P.FloorBounds(E.UnitsFor(usable, f), lot);
    QuotientTimes(usable, f, E.Rounded(E.UnitsFor(usable, f), lot, false), lot);
  }

  lemma TimesGrows(a: real, b: real, f: Positive)
    requires a <= b
    ensures a * f <= b * f
  {
    assert (b - a) * f >= 0.0;
    assert (b - a) * f == b * f - a * f;
  }

  lemma SaleFits(pair: Pair, owned: real, available: real, bid: Positive)
    ensures var q := SaleSize(pair, owned, available, bid);
            q >= pair.minimum ==> q * (1.0 + pair.fee) <= E.Min(owned, available) && P.IsMultiple(q, pair.lot)
  {
    hide E.Rounded; hide P.IsMultiple; hide ReductionSize; hide SaleLimit;
    ReductionFits(owned, available, pair.lot, pair.minimum, pair.fee);
    var whole := ReductionSize(owned, available, pair.lot, pair.minimum, pair.fee);
    var q := SaleSize(pair, owned, available, bid);
    TimesGrows(q, whole, 1.0 + pair.fee);
    if q >= pair.minimum {
      TimesGrows(pair.minimum, whole, 1.0 + pair.fee);
      P.FloorBounds(SaleLimit(pair, whole, bid), pair.lot);
    }
  }

  // ---- The task's invariant -------------------------------------------------------------------

  function SalesOf(sales: seq<Sale>, symbol: string): nat {
    if sales == [] then 0 else SalesOf(sales[..|sales| - 1], symbol) + if sales[|sales| - 1].symbol == symbol then 1 else 0
  }

  ghost predicate GoodSale(pairs: map<string, Pair>, sale: Sale) {
    && sale.symbol in pairs && !sale.openOrders
    && sale.quantity >= pairs[sale.symbol].minimum && P.IsMultiple(sale.quantity, pairs[sale.symbol].lot)
    && sale.quantity * (1.0 + pairs[sale.symbol].fee) <= E.Min(sale.owned, sale.available)
    && IsSalePrice(pairs[sale.symbol], sale.bid, sale.price)
    && IsBestSale(pairs[sale.symbol], sale.owned, sale.available, sale.bid, sale.quantity)
  }

  ghost predicate TaskInv(pairs: map<string, Pair>, t: Task) {
    && (forall s :: s in t.instruments ==> s in pairs)
    && (forall s :: SalesOf(t.sales, s) == Get(t.attempts, s, 0) <= ATTEMPTS)
    && (forall sale :: sale in t.sales ==> GoodSale(pairs, sale))
  }

  ghost predicate Inv(pairs: map<string, Pair>, c: Controls) { c.task.Some? ==> TaskInv(pairs, c.task.value) }

  lemma SalesAppend(sales: seq<Sale>, sale: Sale, symbol: string)
    ensures SalesOf(sales + [sale], symbol) == SalesOf(sales, symbol) + if sale.symbol == symbol then 1 else 0
  {}

  lemma VisitKeeps(t: Task, pairs: map<string, Pair>, w: World, symbol: string)
    requires TaskInv(pairs, t) && symbol in pairs && !w.openOrders
    ensures var (next, sold) := Visit(t, pairs, w, symbol);
            && TaskInv(pairs, next) && next.instruments == t.instruments && next.phase == t.phase && next.deadline == t.deadline
            && next.sales == (if sold then t.sales + [next.sales[|t.sales|]] else t.sales) && |t.sales| <= |next.sales|
            && (sold ==> next.sales != t.sales)
  {
    hide SaleSize; hide E.Rounded; hide P.IsMultiple; hide SalesOf;
    var (next, sold) := Visit(t, pairs, w, symbol);
    if sold {
      var pair, bid := pairs[symbol], w.quotes[symbol].bid;
      SaleFits(pair, Get(w.owned, symbol, 0.0), w.free[symbol], bid);
      SalePriceIs(pair, bid);
      SaleIsBest(pair, Get(w.owned, symbol, 0.0), w.free[symbol], bid);
      var sale := next.sales[|t.sales|];
      assert next.sales == t.sales + [sale];
      forall s
        ensures SalesOf(next.sales, s) == Get(next.attempts, s, 0) <= ATTEMPTS
      {
        SalesAppend(t.sales, sale, s);
        assert SalesOf(t.sales, s) == Get(t.attempts, s, 0) <= ATTEMPTS;
      }
    }
  }

  /** A visit sends an order exactly when at least the minimum is held, fewer than 16 were tried, the quote is fresh, the balance known
      and something of at least the minimum can be sold; and what it notes says which of these was missing. */
  lemma VisitMeans(t: Task, pairs: map<string, Pair>, w: World, symbol: string)
    requires symbol in pairs
    ensures var (next, sold) := Visit(t, pairs, w, symbol);
            var pair, held, tried := pairs[symbol], Get(w.owned, symbol, 0.0), Get(t.attempts, symbol, 0);
            var priced := symbol in w.quotes && !w.quotes[symbol].stale;
            && symbol in next.results && (forall other :: other != symbol ==> (other in next.results <==> other in t.results))
            && (sold ==> held >= pair.minimum && tried < 16 && priced && symbol in w.free
                         && Get(next.attempts, symbol, 0) == tried + 1 && |next.sales| == |t.sales| + 1 && next.results[symbol].Submitted?)
            && (!sold ==> next == t.(results := next.results))
            && (!sold && held < pair.minimum ==> next.results[symbol] == if held > 0.0 then Dust else Flat)
            && (!sold && held >= pair.minimum && tried >= 16 ==> next.results[symbol] == AttemptLimit)
            && (!sold && held >= pair.minimum && tried < 16 && !priced ==> next.results[symbol] == WaitingQuote)
            && (!sold && held >= pair.minimum && tried < 16 && priced && symbol !in w.free ==> next.results[symbol] == WaitingBalance)
            && (!sold && held >= pair.minimum && tried < 16 && priced && symbol in w.free ==>
                  next.results[symbol] == BalanceOrMinimum && NoSale(pair, held, w.free[symbol], w.quotes[symbol].bid))
  {
    hide SaleSize; hide E.Rounded; hide NoSale; hide IsBestSale;
    if symbol in w.quotes && symbol in w.free { SaleIsBest(pairs[symbol], Get(w.owned, symbol, 0.0), w.free[symbol], w.quotes[symbol].bid); }
  }

  /** One round keeps the task, sends at most one order, and finds nothing pending only when every symbol left is below its minimum. */
  lemma {:induction false} RoundsKeep(t: Task, pairs: map<string, Pair>, w: World, from: nat, pending: bool)
    requires TaskInv(pairs, t) && from <= |t.instruments| && !w.openOrders
    ensures var r := Rounds(t, pairs, w, from, pending);
            && TaskInv(pairs, r.task) && r.task.instruments == t.instruments && r.task.phase == t.phase && r.task.deadline == t.deadline
            && |r.task.sales| == |t.sales| + (if r.sold then 1 else 0) && t.sales <= r.task.sales
            && (!r.sold ==> (r.pending <==> pending || exists i :: from <= i < |t.instruments| && !Settled(pairs, w, t.instruments[i])))
    decreases |t.instruments| - from
  {
    hide Visit; hide TaskInv; hide Settled;
    if from < |t.instruments| {
      assert t.instruments[from] in t.instruments;
      InPairs(t, pairs, t.instruments[from]);
      VisitKeeps(t, pairs, w, t.instruments[from]);
      var (next, sold) := Visit(t, pairs, w, t.instruments[from]);
      if !sold { RoundsKeep(next, pairs, w, from + 1, pending || !Settled(pairs, w, t.instruments[from])); }
    }
  }

  lemma InPairs(t: Task, pairs: map<string, Pair>, symbol: string)
    requires TaskInv(pairs, t) && symbol in t.instruments
    ensures symbol in pairs
  {}

  function Rank(phase: Phase): nat {
    match phase case Cancelling => 0 case Selling => 1 case Completed => 2 case Incomplete => 2
  }

  /** What one poll does to a task: it moves on or stays, sends at most one order, and that only with no order of its own open. */
  ghost predicate Moves(t: Task, u: Task) {
    && Rank(t.phase) <= Rank(u.phase) && (Rank(t.phase) == 2 ==> u == t)
    && u.instruments == t.instruments && u.deadline == t.deadline && t.sales <= u.sales && |u.sales| <= |t.sales| + 1
  }

  lemma PollKeeps(c: Controls, pairs: map<string, Pair>, w: World)
    requires Inv(pairs, c)
    ensures Inv(pairs, Poll(c, pairs, w))
    ensures var d := Poll(c, pairs, w);
            && (c.task.None? ==> d.task.None?)
            && (c.task.Some? ==> d.task.Some? && Moves(c.task.value, d.task.value)
                                 && (w.openOrders ==> d.task.value.sales == c.task.value.sales))
  {
    hide Rounds; hide SalesOf; hide GoodSale;
    if Ongoing(c.task) && !w.openOrders {
      var task := c.task.value.(phase := Selling);
      assert TaskInv(pairs, task);
      RoundsKeep(task, pairs, w, 0, false);
      PhaseIsFree(pairs, Rounds(task, pairs, w, 0, false).task, Completed);
    }
  }

  lemma PhaseIsFree(pairs: map<string, Pair>, t: Task, phase: Phase)
    requires TaskInv(pairs, t)
    ensures TaskInv(pairs, t.(phase := phase)) && forall s :: s in t.instruments ==> s in pairs
  {}

  /** A poll counts when an eighth of a second has passed since the last one. */
  predicate Effective(c: Controls, w: World) { w.now - c.lastPoll >= 0.125 }

  /** The first effective poll after the deadline ends an ongoing task. */
  lemma DeadlineEnds(c: Controls, pairs: map<string, Pair>, w: World)
    requires Inv(pairs, c) && Ongoing(c.task) && Effective(c, w) && w.now > c.task.value.deadline
    ensures var d := Poll(c, pairs, w); d.task == Some(c.task.value.(phase := Incomplete)) && d.mode == Halted && !Ongoing(d.task)
  {}

  /** A poll completes a task exactly when no order of the run is open and every selected symbol is below its minimum. */
  lemma CompletesIff(c: Controls, pairs: map<string, Pair>, w: World)
    requires Inv(pairs, c) && Ongoing(c.task) && Effective(c, w) && w.now <= c.task.value.deadline
    ensures var d := Poll(c, pairs, w);
            d.task.Some? && (d.task.value.phase == Completed <==>
              !w.openOrders && forall s :: s in c.task.value.instruments ==> (s in pairs && Settled(pairs, w, s)))
  {
    hide SalesOf; hide GoodSale; hide Settled; hide Visit;
    var task := c.task.value.(phase := Selling);
    if !w.openOrders {
      RoundsKeep(task, pairs, w, 0, false);
      if forall s :: s in task.instruments ==> Settled(pairs, w, s) {
        AllSettledSendsNothing(task, pairs, w, 0, false);
      }
    }
  }

  lemma {:induction false} AllSettledSendsNothing(t: Task, pairs: map<string, Pair>, w: World, from: nat, pending: bool)
    requires from <= |t.instruments| && forall s :: s in t.instruments ==> s in pairs && Settled(pairs, w, s)
    ensures !Rounds(t, pairs, w, from, pending).sold
    decreases |t.instruments| - from
  {
    if from < |t.instruments| {
      var (next, _) := Visit(t, pairs, w, t.instruments[from]);
      assert t.instruments[from] in t.instruments;
      AllSettledSendsNothing(next, pairs, w, from + 1, pending || !Settled(pairs, w, t.instruments[from]));
    }
  }

  lemma ApplyKeeps(c: Controls, pairs: map<string, Pair>, action: Action, symbols: seq<string>, now: real, engine: Engine)
    requires Inv(pairs, c)
    ensures var (d, reply) := Apply(c, pairs, action, symbols, now, engine);
            && Inv(pairs, d) && (c.task.Some? ==> d.task.Some?)
            && (action.Resume? && c.task.Some? ==> d == c && reply.Refused?)
            && (Ongoing(c.task) ==> d.task == c.task)
            && (reply.Refused? ==> d == c)
            && (reply.Raised? ==> d.task == c.task && d.mode in {Halted, Reducing})
            && (action.Flatten? ==> (reply.Done? <==> !Ongoing(c.task) && Ongoing(d.task)))
            && (action.Flatten? && reply.Raised? ==> d.mode == Reducing && !Ongoing(d.task))
  {}

  ghost predicate MayResume(c: Controls) { c.task.None? && (c.mode == Halted || c.mode == Reducing) }

  /** A flatten is of known symbols, at least one, and of none while another goes on. */
  ghost predicate MayFlatten(c: Controls, pairs: map<string, Pair>, symbols: seq<string>) {
    && symbols != [] && (forall s :: s in symbols ==> s in pairs)
    && (c.task.Some? ==> c.task.value.phase == Completed || c.task.value.phase == Incomplete)
  }

  /** What each control does: which ones are refused, which mode is left, and the task that a flatten begins, with a minute to its
      deadline and each symbol once. */
  lemma ApplyMeans(c: Controls, pairs: map<string, Pair>, action: Action, symbols: seq<string>, now: real, engine: Engine)
    ensures var (d, reply) := Apply(c, pairs, action, symbols, now, engine);
            && d.lastPoll == c.lastPoll
            && (reply.Refused? <==> !engine.running || (action == Resume && !MayResume(c)) || (action == Flatten && !MayFlatten(c, pairs, symbols)))
            && (!reply.Refused? && action == Resume ==> d == c.(mode := if engine.restarts then Active else Halted))
            && (!reply.Refused? && action != Resume ==> d.mode == if action == Reduce || action == Flatten then Reducing else Halted)
            && (reply.Done? && action == Flatten ==>
                  d.task.Some? && var t := d.task.value;
                  && t.phase == Cancelling && t.deadline == now + 60.0 && t.attempts == map[] && t.results == map[] && t.sales == []
                  && (forall s :: s in t.instruments <==> s in symbols)
                  && (forall i, j :: 0 <= i < j < |t.instruments| ==> t.instruments[i] != t.instruments[j]))
            && (action != Flatten ==> d.task == c.task)
            && (reply.Done? && action != Resume ==> engine.stops && engine.cancels)
  {
    assert c.mode.Active? || c.mode.Reducing? || c.mode.Halted? || c.mode.Starting?;
  }

  // ---- Whole runs -----------------------------------------------------------------------------

  datatype Step =
    | Control(action: Action, symbols: seq<string>, now: real, engine: Engine)
    | Turn(world: World)

  ghost predicate Next(pairs: map<string, Pair>, c: Controls, step: Step, d: Controls) {
    match step
    case Control(action, symbols, now, engine) => d == Apply(c, pairs, action, symbols, now, engine).0
    case Turn(w) => (c.task.Some? ==> forall s :: s in c.task.value.instruments ==> s in pairs) && d == Poll(c, pairs, w)
  }

  ghost predicate IsRun(pairs: map<string, Pair>, states: seq<Controls>, steps: seq<Step>) {
    && |states| == |steps| + 1 && states[0].task.None?
    && forall i :: 0 <= i < |steps| ==> Next(pairs, states[i], steps[i], states[i + 1])
  }

  lemma StepKeeps(pairs: map<string, Pair>, c: Controls, step: Step, d: Controls)
    requires Inv(pairs, c) && Next(pairs, c, step, d)
    ensures Inv(pairs, d) && (c.task.Some? ==> d.task.Some?)
  {
    hide TaskInv; hide Apply; hide Poll;
    match step
    case Control(action, symbols, now, engine) => ApplyKeeps(c, pairs, action, symbols, now, engine);
    case Turn(w) => PollKeeps(c, pairs, w);
  }

  lemma {:induction false} RunKeeps(pairs: map<string, Pair>, states: seq<Controls>, steps: seq<Step>, i: nat)
    requires IsRun(pairs, states, steps) && i < |states|
    ensures Inv(pairs, states[i])
  {
    hide Next; hide TaskInv;
    if i > 0 {
      RunKeeps(pairs, states, steps, i - 1);
      StepKeeps(pairs, states[i - 1], steps[i - 1], states[i]);
    }
  }

  /** Every order of every task: at most 16 per symbol, each sent with none of the run's orders open, and with its fee inside what
      is both allocated and free. */
  lemma OrdersFit(pairs: map<string, Pair>, states: seq<Controls>, steps: seq<Step>, i: nat)
    requires IsRun(pairs, states, steps) && i < |states| && states[i].task.Some?
    ensures var t := states[i].task.value;
            (forall s :: SalesOf(t.sales, s) <= ATTEMPTS) && forall sale :: sale in t.sales ==> GoodSale(pairs, sale)
  {
    hide IsRun; hide SalesOf; hide GoodSale;
    RunKeeps(pairs, states, steps, i);
    var t := states[i].task.value;
    forall s
      ensures SalesOf(t.sales, s) <= ATTEMPTS
    {
      assert SalesOf(t.sales, s) == Get(t.attempts, s, 0) <= ATTEMPTS;
    }
  }

  /** Once a flatten has been accepted, every later resume of the run is refused. */
  lemma {:induction false} ResumeIsOver(pairs: map<string, Pair>, states: seq<Controls>, steps: seq<Step>, i: nat, j: nat)
    requires IsRun(pairs, states, steps) && i <= j < |states| && states[i].task.Some?
    ensures states[j].task.Some?
    ensures forall symbols, now, engine ::
              Apply(states[j], pairs, Resume, symbols, now, engine) == (states[j], Refused)
    decreases j
  {
    hide Next; hide TaskInv;
    if i < j {
      ResumeIsOver(pairs, states, steps, i, j - 1);
      RunKeeps(pairs, states, steps, j - 1);
      StepKeeps(pairs, states[j - 1], steps[j - 1], states[j]);
    }
  }

  /** The first effective poll after its deadline ends a task for good: until another flatten, it stays incomplete and sends nothing. */
  lemma {:induction false} DeadlineIsFinal(pairs: map<string, Pair>, states: seq<Controls>, steps: seq<Step>, i: nat, j: nat)
    requires IsRun(pairs, states, steps) && i < j < |states| && Ongoing(states[i].task)
    requires steps[i].Turn? && Effective(states[i], steps[i].world) && steps[i].world.now > states[i].task.value.deadline
    requires forall k :: i < k < j ==> !(steps[k].Control? && steps[k].action.Flatten?)
    ensures states[j].task == Some(states[i].task.value.(phase := Incomplete))
    decreases j
  {
    hide TaskInv; hide Rounds;
    if j == i + 1 {
      RunKeeps(pairs, states, steps, i);
      DeadlineEnds(states[i], pairs, steps[i].world);
    } else {
      DeadlineIsFinal(pairs, states, steps, i, j - 1);
    }
    assert Next(pairs, states[j - 1], steps[j - 1], states[j]);
  }
}
