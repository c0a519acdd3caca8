/** The operator controls as an object, polled by the engine's thread. */
module Flatten {
  import opened Common
  import M = FlattenModel
  import E = ExecutorModel
  import opened FlattenProofs

  class NativeControls {
    const pairs: map<string, M.Pair>
    var mode: M.Mode
    var task: Option<M.Task>
    var lastPoll: real

    ghost function View(): M.Controls
      reads this
    {
      M.Controls(mode, task, lastPoll)
    }

    ghost predicate Valid()
      reads this
    {
      Inv(pairs, View())
    }

    constructor (pairs: map<string, M.Pair>)
      ensures Valid() && View() == M.Controls(M.Starting, None, 0.0) && this.pairs == pairs
    {
      this.pairs, mode, task, lastPoll := pairs, M.Starting, None, 0.0;
    }

    method Apply(action: M.Action, symbols: seq<string>, now: real, engine: M.Engine) returns (reply: M.Reply)
      requires Valid()
      modifies `mode, `task
      ensures Valid() && (View(), reply) == M.Apply(old(View()), pairs, action, symbols, now, engine)
    {
      hide TaskInv;
      ApplyKeeps(View(), pairs, action, symbols, now, engine);
      if !engine.running { return M.Refused; }
      if action.Resume? {
        if task.Some? { return M.Refused; }
        if mode !in {M.Halted, M.Reducing} { return M.Refused; }
        mode := M.Active;
        if !engine.restarts {
          mode := M.Halted;
          return M.RaisedHalted;
        }
        return M.Done;
      }
      if action.Flatten? {
        if symbols == [] || exists s :: s in symbols && s !in pairs { return M.Refused; }
        if task.Some? && task.value.phase in {M.Cancelling, M.Selling} { return M.Refused; }
      }
      mode := if action in {M.Reduce, M.Flatten} then M.Reducing else M.Halted;
      if !engine.stops { return M.Raised; }
      if !engine.cancels { return M.Raised; }
      if action.Flatten? {
        task := Some(M.Task(M.Cancelling, M.Distinct(symbols), now + 60.0, map[], map[], []));
      } else if action.Reduce? && engine.feeds {
        if !engine.restarts { return M.Raised; }
      }
      return M.Done;
    }

    /** One symbol of the task; sold says that an order went out. */
    method Visit(w: M.World, symbol: string) returns (sold: bool, pending: bool)
      requires task.Some? && symbol in pairs
      modifies `task
      ensures task.Some? && (task.value, sold) == M.Visit(old(task).value, pairs, w, symbol) && pending == !M.Settled(pairs, w, symbol)
    {
      hide M.SaleSize;
      var t, pair, holding := task.value, pairs[symbol], M.Get(w.owned, symbol, 0.0);
      sold, pending := false, holding >= pair.minimum;
      var finding;
      if holding < pair.minimum {
        finding := if holding <= 0.0 then M.Flat else M.Dust;
      } else if M.Get(t.attempts, symbol, 0) >= M.ATTEMPTS {
        finding := M.AttemptLimit;
      } else if symbol !in w.quotes || w.quotes[symbol].stale {
        finding := M.WaitingQuote;
      } else if symbol !in w.free {
        finding := M.WaitingBalance;
      } else {
        var bid, available := w.quotes[symbol].bid, w.free[symbol];
        var quantity := M.SaleSize(pair, holding, available, bid);
        if quantity < pair.minimum {
          finding := M.BalanceOrMinimum;
        } else {
          var price := E.Rounded(M.Discounted(bid), pair.tick, false);
          finding, sold := M.Submitted(quantity), true;
          t := t.(attempts := t.attempts[symbol := M.Get(t.attempts, symbol, 0) + 1],
                  sales := t.sales + [M.Sale(symbol, quantity, price, holding, available, bid, w.openOrders)]);
        }
      }
      task := Some(t.(results := t.results[symbol := finding]));
    }

    /** The symbols in turn, up to the first order. */
    method Round(w: M.World) returns (sold: bool, pending: bool)
      requires Valid() && task.Some? && !w.openOrders
      modifies `task
      ensures task.Some? && M.Round(task.value, sold, pending) == M.Rounds(old(task).value, pairs, w, 0, false)
    {
      hide M.Visit; hide M.Settled; hide TaskInv;
      InstrumentsAreKnown(pairs, View());
      sold, pending := false, false;
      ghost var first := task.value;
      var instruments := task.value.instruments;
      for i := 0 to |instruments|
        invariant task.Some? && task.value.instruments == instruments && !sold && TaskInv(pairs, task.value)
        invariant forall s :: s in instruments ==> s in pairs
        invariant M.Rounds(task.value, pairs, w, i, pending) == M.Rounds(first, pairs, w, 0, false)
      {
        assert instruments[i] in instruments;
        VisitKeeps(task.value, pairs, w, instruments[i]);
        var one, more := Visit(w, instruments[i]);
        if one { return true, true; }
        pending := pending || more;
      }
    }

    method Poll(w: M.World)
      requires Valid()
      modifies `mode, `task, `lastPoll
      ensures Valid() && View() == M.Poll(old(View()), pairs, w)
    {
      hide M.Rounds; hide TaskInv;
      InstrumentsAreKnown(pairs, View());
      PollKeeps(View(), pairs, w);
      if w.now - lastPoll < 0.125 { return; }
      lastPoll := w.now;
      if task.None? || task.value.phase !in {M.Cancelling, M.Selling} { return; }
      if w.now > task.value.deadline {
        task, mode := Some(task.value.(phase := M.Incomplete)), M.Halted;
        return;
      }
      if w.openOrders { return; }
      PhaseIsFree(pairs, task.value, M.Selling);
      task := Some(task.value.(phase := M.Selling));
      var sold, pending := Round(w);
      if !sold && !pending { task, mode := Some(task.value.(phase := M.Completed)), M.Halted; }
    }
  }

  lemma InstrumentsAreKnown(pairs: map<string, M.Pair>, c: M.Controls)
    requires Inv(pairs, c)
    ensures c.task.Some? ==> forall s :: s in c.task.value.instruments ==> s in pairs
  {}
}
