/** Cash, inventory and open orders: what every change of the book keeps. */
module ExecutorBooks {
  import opened Common
  import opened ExecutorModel

  // ---- The sum of reservations ----------------------------------------------------------------

  /** The sum does not depend on the order in which the reservations are visited. */
  lemma {:induction false} ReservedTakesAny(m: map<OrderId, Slot>, id: OrderId)
    requires id in m
    ensures Reserved(m) == Cost(m[id]) + Reserved(m - {id})
    decreases |m|
  {
    var first :| first in m && Reserved(m) == Cost(m[first]) + Reserved(m - {first});
    if first != id {
      ReservedTakesAny(m - {first}, id);
      ReservedTakesAny(m - {id}, first);
      assert m - {first} - {id} == m - {id} - {first};
    }
  }

  lemma ReservedReplaces(m: map<OrderId, Slot>, id: OrderId, slot: Slot)
    ensures Reserved(m[id := slot]) == Cost(slot) + Reserved(m - {id})
  {
    ReservedTakesAny(m[id := slot], id);
    assert m[id := slot] - {id} == m - {id};
  }

  ghost predicate Nonnegative(m: map<OrderId, Slot>) {
    forall id :: id in m ==> m[id].remaining >= 0.0
  }

  lemma CostIsNonnegative(s: Slot)
    requires s.remaining >= 0.0
    ensures Cost(s) >= 0.0
  {
    ProductIsNonnegative(s.remaining, s.price);
    ProductIsNonnegative(s.remaining * s.price, 1.0 + s.fee);
  }

  lemma ProductIsNonnegative(a: real, b: real)
    requires a >= 0.0 && b >= 0.0
    ensures a * b >= 0.0
  {}

  /** A commission rate below one takes less than the amount it is charged on. */
  lemma RateIsFraction(rate: Fee, amount: real)
    requires amount >= 0.0
    ensures 0.0 <= rate * amount <= amount
  {
    ProductIsNonnegative(rate, amount);
    ProductIsNonnegative(1.0 - rate, amount);
    assert (1.0 - rate) * amount == amount - rate * amount;
  }

  lemma ProductGrows(a: real, b: real, c: real)
    requires a <= b && c >= 0.0
    ensures a * c <= b * c
  {
    ProductIsNonnegative(b - a, c);
  }

  lemma {:induction false} ReservedShrinks(m: map<OrderId, Slot>, gone: set<OrderId>)
    requires Nonnegative(m)
    ensures 0.0 <= Reserved(m - gone) <= Reserved(m)
    decreases |m|
  {
    if m != map[] {
      var first :| first in m && Reserved(m) == Cost(m[first]) + Reserved(m - {first});
      CostIsNonnegative(m[first]);
      ReservedShrinks(m - {first}, gone);
      if first in gone {
        assert m - {first} - gone == m - gone;
      } else {
        ReservedTakesAny(m - gone, first);
        assert m - gone - {first} == m - {first} - gone;
      }
    }
  }

  // ---- The invariant --------------------------------------------------------------------------

  function At(slot: Slot): (Key, Side) { (slot.key, slot.side) }

  ghost predicate Holds(b: Book, at: (Key, Side), id: OrderId) {
    && at in b.pending && b.pending[at] == id
    && id in b.reservations && At(b.reservations[id]) == at
  }

  /** pending and reservations name the same open orders, so there is at most one per instrument and side. */
  ghost predicate Inverse(b: Book) {
    && (forall id :: id in b.reservations ==> Holds(b, At(b.reservations[id]), id))
    && (forall at :: at in b.pending ==> Holds(b, at, b.pending[at]))
  }

  /** An open quote cannot carry the position past the bound it was priced for. */
  ghost predicate InBand(position: real, slot: Slot, limit: real) {
    if slot.side.Buy? then position + slot.remaining <= limit
    else 0.0 <= limit <= position - slot.remaining * (1.0 + slot.fee)
  }

  ghost predicate SlotOk(b: Book, rows: map<Key, Row>, id: OrderId)
    requires id in b.reservations
  {
    var slot := b.reservations[id];
    && slot.key in rows && slot.key in b.positions && slot.fee == rows[slot.key].fee
    && slot.remaining >= 0.0 && id < b.nextOrder
    && id in b.limits && InBand(b.positions[slot.key], slot, b.limits[id])
  }

  ghost predicate Placed(b: Book, rows: map<Key, Row>) {
    && b.positions.Keys == rows.Keys
    && (forall k :: k in b.positions ==> b.positions[k] >= 0.0)
    && b.limits.Keys == b.reservations.Keys
    && (forall id :: id in b.reservations ==> SlotOk(b, rows, id))
  }

  ghost predicate BookInv(b: Book, rows: map<Key, Row>) {
    Placed(b, rows) && Inverse(b) && Reserved(b.reservations) <= b.cash
  }

  /** What the invariant is for: no open order can spend cash or inventory that is not there. */
  ghost predicate Solvent(b: Book) {
    && 0.0 <= Reserved(b.reservations) <= b.cash
    && (forall k :: k in b.positions ==> b.positions[k] >= 0.0)
    && (forall id :: id in b.reservations && b.reservations[id].side.Sell? ==>
          b.reservations[id].key in b.positions
          && b.reservations[id].remaining * (1.0 + b.reservations[id].fee) <= b.positions[b.reservations[id].key])
    && (forall id, other :: id in b.reservations && other in b.reservations
          && b.reservations[id].key == b.reservations[other].key && b.reservations[id].side == b.reservations[other].side
          ==> id == other)
  }

  lemma InvariantMeansSolvent(b: Book, rows: map<Key, Row>)
    requires BookInv(b, rows)
    ensures Solvent(b)
  {
    ReservedShrinks(b.reservations, {});
    assert b.reservations - {} == b.reservations;
    forall id | id in b.reservations
      ensures SlotOk(b, rows, id)
    {}
  }

  // ---- Every change keeps it ------------------------------------------------------------------

  lemma RemovalKeepsInverse(b: Book, next: Book, gone: set<OrderId>)
    requires Inverse(b)
    requires next.reservations == b.reservations - gone
    requires next.pending == b.pending - Places(b.reservations, gone)
    ensures Inverse(next)
  {
    forall id | id in next.reservations
      ensures Holds(next, At(next.reservations[id]), id)
    {
      assert Holds(b, At(b.reservations[id]), id);
      assert forall other :: other in b.reservations ==> Holds(b, At(b.reservations[other]), other);
    }
    forall at | at in next.pending
      ensures Holds(next, at, next.pending[at])
    {
      assert Holds(b, at, b.pending[at]);
    }
  }

  lemma RemovalKeepsBook(b: Book, next: Book, rows: map<Key, Row>, gone: set<OrderId>)
    requires BookInv(b, rows)
    requires next == b.(reservations := b.reservations - gone, limits := b.limits - gone,
                        pending := b.pending - Places(b.reservations, gone))
    ensures BookInv(next, rows)
  {
    RemovalKeepsInverse(b, next, gone);
    forall id | id in b.reservations
      ensures SlotOk(b, rows, id) && b.reservations[id].remaining >= 0.0
    {}
    ReservedShrinks(b.reservations, gone);
    forall id | id in next.reservations
      ensures SlotOk(next, rows, id)
    {
      assert SlotOk(b, rows, id);
    }
  }

  lemma RefreshKeepsBook(b: Book, rows: map<Key, Row>, status: OrderId -> Option<Status>)
    requires BookInv(b, rows)
    ensures BookInv(Refreshed(b, status), rows)
  {
    var gone := set id | id in b.reservations && Terminal(status, id);
    RemovalKeepsBook(b, Refreshed(b, status), rows, gone);
  }

  lemma ReleaseKeepsBook(b: Book, rows: map<Key, Row>, id: OrderId)
    requires BookInv(b, rows)
    ensures BookInv(Released(b, id), rows)
  {
    if id in b.reservations {
      assert Places(b.reservations, {id}) == {At(b.reservations[id])};
      RemovalKeepsBook(b, Released(b, id), rows, {id});
    }
  }

  lemma ReplacementKeepsInverse(b: Book, next: Book, id: OrderId)
    requires Inverse(b) && id in b.reservations && id in next.reservations
    requires next.reservations == b.reservations[id := next.reservations[id]] && next.pending == b.pending
    requires At(next.reservations[id]) == At(b.reservations[id])
    ensures Inverse(next)
  {
    forall other | other in next.reservations
      ensures Holds(next, At(next.reservations[other]), other)
    {
      assert Holds(b, At(b.reservations[other]), other);
    }
    forall at | at in next.pending
      ensures Holds(next, at, next.pending[at])
    {
      assert Holds(b, at, b.pending[at]);
    }
  }

  lemma SameTerms(a: Slot, c: Slot)
    requires a.side == c.side && a.remaining == c.remaining && a.price == c.price && a.fee == c.fee
    ensures Cost(a) == Cost(c)
    ensures forall position, limit :: InBand(position, a, limit) <==> InBand(position, c, limit)
  {}

  /** Acknowledgement and a cancel request change flags only. */
  lemma FlagsKeepBook(b: Book, rows: map<Key, Row>, id: OrderId, slot: Slot)
    requires BookInv(b, rows) && id in b.reservations
    requires slot.(acked := false, cancelRequested := false) == b.reservations[id].(acked := false, cancelRequested := false)
    ensures BookInv(b.(reservations := b.reservations[id := slot]), rows)
  {
    hide Cost;
    hide InBand;
    var next := b.(reservations := b.reservations[id := slot]);
    ReplacementKeepsInverse(b, next, id);
    SameTerms(b.reservations[id], slot);
    ReservedTakesAny(b.reservations, id);
    ReservedReplaces(b.reservations, id, slot);
    assert SlotOk(b, rows, id);
    forall other | other in next.reservations
      ensures SlotOk(next, rows, other)
    {
      assert SlotOk(b, rows, other);
    }
    assert Placed(next, rows);
  }

  lemma ReserveKeepsInverse(b: Book, slot: Slot, limit: real)
    requires Inverse(b) && At(slot) !in b.pending && b.nextOrder !in b.reservations
    ensures Inverse(Reserve(b, slot, limit))
  {
    var next := Reserve(b, slot, limit);
    forall id | id in next.reservations
      ensures Holds(next, At(next.reservations[id]), id)
    {
      if id != b.nextOrder { assert Holds(b, At(b.reservations[id]), id); }
    }
    forall at | at in next.pending
      ensures Holds(next, at, next.pending[at])
    {
      if at != At(slot) { assert Holds(b, at, b.pending[at]); }
    }
  }

  lemma ReserveKeepsBook(b: Book, rows: map<Key, Row>, slot: Slot, limit: real)
    requires BookInv(b, rows)
    requires At(slot) !in b.pending
    requires slot.key in rows && slot.fee == rows[slot.key].fee && slot.remaining >= 0.0
    requires InBand(b.positions[slot.key], slot, limit)
    requires Reserved(b.reservations) + Cost(slot) <= b.cash
    ensures BookInv(Reserve(b, slot, limit), rows)
  {
    var id := b.nextOrder;
    var next := Reserve(b, slot, limit);
    forall other | other in b.reservations
      ensures other < id
    {
      assert SlotOk(b, rows, other);
    }
    ReserveKeepsInverse(b, slot, limit);
    ReservedReplaces(b.reservations, id, slot);
    assert b.reservations - {id} == b.reservations;
    forall other | other in next.reservations
      ensures SlotOk(next, rows, other)
    {
      if other != id { assert SlotOk(b, rows, other); }
    }
    assert Placed(next, rows);
  }

  /** The venue's side of the bargain: a fill of an open order, at its price or better, within what remains,
      charged at most the maker rate in whichever currency it charges. */
  ghost predicate VenueFill(b: Book, f: Fill) {
    && f.order in b.reservations
    && var slot := b.reservations[f.order];
    && f.key == slot.key && f.side == slot.side
    && 0.0 < f.quantity <= slot.remaining
    && (if f.side.Buy? then 0.0 < f.price <= slot.price else slot.price <= f.price)
    && 0.0 <= f.commission
    && (f.currency.Base? ==> f.commission <= slot.fee * f.quantity)
    && (f.currency.Usdt? ==> f.commission <= slot.fee * Notional(f))
  }

  lemma CostSplits(r: real, q: real, price: real, rate: real)
    ensures r * price * (1.0 + rate) == (r - q) * price * (1.0 + rate) + q * price + rate * (q * price)
  {
    assert r * price == (r - q) * price + q * price;
  }

  lemma BetterPriceCostsLess(q: real, paid: real, limit: real, rate: real)
    requires q >= 0.0 && paid <= limit && rate >= 0.0
    ensures q * paid <= q * limit && rate * (q * paid) <= rate * (q * limit)
  {
    ProductIsNonnegative(q, limit - paid);
    assert q * (limit - paid) == q * limit - q * paid;
    ProductIsNonnegative(rate, q * limit - q * paid);
    assert rate * (q * limit - q * paid) == rate * (q * limit) - rate * (q * paid);
  }

  lemma BuyPays(r: real, q: real, limit: real, paid: real, rate: Fee, notional: real, charge: real)
    requires 0.0 <= q && 0.0 <= paid <= limit
    requires notional == q * paid && charge <= rate * notional
    ensures (r - q) * limit * (1.0 + rate) + (notional + charge) <= r * limit * (1.0 + rate)
  {
    CostSplits(r, q, limit, rate);
    BetterPriceCostsLess(q, paid, limit, rate);
  }

  lemma ChargeIsCovered(notional: real, rate: Fee, charge: real)
    requires notional >= 0.0 && charge <= rate * notional
    ensures charge <= notional
  {
    RateIsFraction(rate, notional);
  }

  /** What a fill takes out of the cash is covered by what it releases of the reservation. */
  lemma FillPays(slot: Slot, f: Fill)
    requires f.side == slot.side && 0.0 < f.quantity <= slot.remaining
    requires if f.side.Buy? then 0.0 < f.price <= slot.price else slot.price <= f.price
    requires f.currency.Usdt? ==> f.commission <= slot.fee * Notional(f)
    ensures var left := slot.(remaining := slot.remaining - f.quantity);
            var paid := Signed(f.side, Notional(f)) + (if f.currency.Usdt? then f.commission else 0.0);
            Cost(left) + paid <= Cost(slot)
  {
    ProductIsNonnegative(f.quantity, f.price);
    if f.side.Buy? {
      ProductIsNonnegative(slot.fee, Notional(f));
      var charge := if f.currency.Usdt? then f.commission else 0.0;
      BuyPays(slot.remaining, f.quantity, slot.price, f.price, slot.fee, Notional(f), charge);
      assert Cost(slot) == slot.remaining * slot.price * (1.0 + slot.fee);
    } else if f.currency.Usdt? {
      ChargeIsCovered(Notional(f), slot.fee, f.commission);
    }
  }

  lemma HeldSplits(remaining: real, q: real, fee: Fee)
    requires 0.0 <= q <= remaining
    ensures remaining * (1.0 + fee) == (remaining - q) * (1.0 + fee) + q + fee * q
    ensures 0.0 <= (remaining - q) * (1.0 + fee)
    ensures 0.0 <= fee * q <= q
  {
    RateIsFraction(fee, q);
    ProductIsNonnegative(remaining - q, 1.0 + fee);
  }

  lemma FillStaysInBand(position: real, slot: Slot, limit: real, f: Fill)
    requires InBand(position, slot, limit) && f.side == slot.side
    requires 0.0 < f.quantity <= slot.remaining && 0.0 <= f.commission
    requires f.currency.Base? ==> f.commission <= slot.fee * f.quantity
    ensures var after := position + Signed(f.side, f.quantity) - (if f.currency.Base? then f.commission else 0.0);
            && InBand(after, slot.(remaining := slot.remaining - f.quantity), limit)
            && (if f.side.Buy? then position <= after else after <= position && 0.0 <= after)
  {
    HeldSplits(slot.remaining, f.quantity, slot.fee);
  }

  lemma OtherSideStaysInBand(position: real, after: real, slot: Slot, limit: real)
    requires InBand(position, slot, limit)
    requires if slot.side.Buy? then after <= position else position <= after
    ensures InBand(after, slot, limit)
  {}

  lemma FillKeepsPlaced(b: Book, rows: map<Key, Row>, f: Fill)
    requires Placed(b, rows) && Inverse(b) && VenueFill(b, f)
    ensures Placed(FilledBook(b, f), rows)
  {
    hide InBand;
    var next := FilledBook(b, f);
    assert SlotOk(b, rows, f.order);
    FillStaysInBand(b.positions[f.key], b.reservations[f.order], b.limits[f.order], f);
    forall id | id in next.reservations
      ensures SlotOk(next, rows, id)
    {
      assert SlotOk(b, rows, id);
      if id != f.order && b.reservations[id].key == f.key {
        assert Holds(b, At(b.reservations[id]), id) && Holds(b, At(b.reservations[f.order]), f.order);
        OtherSideStaysInBand(b.positions[f.key], next.positions[f.key], b.reservations[id], b.limits[id]);
      }
    }
  }

  lemma FillKeepsFunds(b: Book, f: Fill)
    requires VenueFill(b, f) && f.key in b.positions
    requires Reserved(b.reservations) <= b.cash
    ensures Reserved(FilledBook(b, f).reservations) <= FilledBook(b, f).cash
  {
    hide Cost;
    hide Reserved;
    var slot := b.reservations[f.order];
    var left := slot.(remaining := slot.remaining - f.quantity);
    FillPays(slot, f);
    ReservedTakesAny(b.reservations, f.order);
    ReservedReplaces(b.reservations, f.order, left);
  }

  /** A fill settles its own order and can only loosen the order on the other side. */
  lemma FillKeepsBook(b: Book, rows: map<Key, Row>, f: Fill)
    requires BookInv(b, rows) && VenueFill(b, f)
    ensures BookInv(FilledBook(b, f), rows)
  {
    hide InBand;
    hide Reserved;
    assert SlotOk(b, rows, f.order);
    FillKeepsPlaced(b, rows, f);
    FillKeepsFunds(b, f);
    ReplacementKeepsInverse(b, FilledBook(b, f), f.order);
  }
}
