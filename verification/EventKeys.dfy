/** Which events describe the same entity, said of their fields, and the fold by entity said without keys. */
module EventKeys {
  import opened Common
  import opened Events

  /** Two payloads of one case that name the same thing; the envelope's own fields name it where the payload has no identifier. */
  ghost predicate SameThing(a: Envelope, b: Envelope) {
    match a.payload
    case Quote | Book | Position => b.payload == a.payload && b.instrumentId == a.instrumentId
    case Pnl => b.payload.Pnl? && b.runId == a.runId && b.instrumentId == a.instrumentId
    case RunState => b.payload.RunState? && b.runId == a.runId
    case OrderState(client) => b.payload.OrderState? && b.payload.clientOrderId == client
    case Route(route) => b.payload.Route? && b.payload.routeId == route
    case FillOf(trade) => b.payload.FillOf? && b.payload.tradeId == trade
    case Alert(alert) => b.payload.Alert? && b.payload.alertId == alert
    case Receipt(operation) => b.payload.Receipt? && b.payload.operationId == operation
    case Plain => b.payload.Plain? && b.eventId == a.eventId
  }

  ghost predicate SameEntity(a: Envelope, b: Envelope) { a.stream == b.stream && SameThing(a, b) }

  /** Two events share a key exactly when they describe the same entity of one stream. */
  lemma KeysAreEntities(a: Envelope, b: Envelope)
    ensures KeyOf(a) == KeyOf(b) <==> SameEntity(a, b)
  {}

  /** The payload of each event type, with the identifier it takes from the record: order events by their client order, alerts raised
      and cleared by their alert, and so on; only a book may fail to map. */
  lemma PayloadOfType(t: EventType, b: Body)
    ensures var p := PayloadFor(t, b);
            && (p.None? <==> t.OrderBookUpdated? && !b.levels)
            && (p.Some? ==>
                  && (p.value.Quote? <==> t.MarketQuote?) && (p.value.Book? <==> t.OrderBookUpdated?)
                  && (p.value.OrderState? <==> t in {OrderSubmitted, OrderAccepted, OrderRejected, OrderCancelRequested, OrderCanceled})
                  && (p.value.Route? <==> t.RouteUpdated?) && (p.value.FillOf? <==> t.FillReceived?)
                  && (p.value.Position? <==> t.PositionUpdated?) && (p.value.Pnl? <==> t.PnlUpdated?)
                  && (p.value.RunState? <==> t.RunStateChanged?) && (p.value.Alert? <==> t in {AlertRaised, AlertCleared})
                  && (p.value.Receipt? <==> t.OperationReceiptUpdated?)
                  && (p.value.OrderState? ==> p.value.clientOrderId == b.clientOrderId) && (p.value.Route? ==> p.value.routeId == b.routeId)
                  && (p.value.FillOf? ==> p.value.tradeId == b.tradeId) && (p.value.Alert? ==> p.value.alertId == b.alertId)
                  && (p.value.Receipt? ==> p.value.operationId == b.operationId))
  {}

  // ---- The fold -------------------------------------------------------------------------------

  ghost predicate Covered(h: Log, p: Positions, i: nat) { i < |h| && h[i].streamSeq <= (if h[i].stream in p then p[h[i].stream] else 0) }

  /** A covered event after which no covered event describes the same entity. */
  ghost predicate LastOfEntity(h: Log, p: Positions, i: nat) {
    Covered(h, p, i) && forall j: nat :: i < j && Covered(h, p, j) ==> !SameEntity(h[i], h[j])
  }

  /** Everything a view shows is the last covered event of its entity, and no entity is shown twice. */
  ghost predicate ShowsOnlyLast(h: Log, p: Positions, view: map<EntityKey, Envelope>) {
    && (forall k :: k in view ==> exists i :: 0 <= i < |h| && LastOfEntity(h, p, i) && view[k] == h[i])
    && (forall k, l :: k in view && l in view && k != l ==> !SameEntity(view[k], view[l]))
  }

  /** A view that shows, of every entity with a covered event, exactly its last one. */
  ghost predicate ShowsLast(h: Log, p: Positions, view: map<EntityKey, Envelope>) {
    ShowsOnlyLast(h, p, view) && forall i :: 0 <= i < |h| && LastOfEntity(h, p, i) ==> h[i] in view.Values
  }

  lemma LastIsLatest(h: Log, p: Positions, i: nat)
    requires i < |h|
    ensures LastOfEntity(h, p, i) <==> IsLatest(h, p, KeyOf(h[i]), i)
  {
    hide KeyOf; hide SameThing;
    KeyHasStream(h[i]);
    forall j: nat | i < j < |h|
      ensures KeyOf(h[j]) == KeyOf(h[i]) <==> SameEntity(h[i], h[j])
    {
      KeysAreEntities(h[i], h[j]);
      KeyHasStream(h[j]);
    }
  }

  /** The fold by key shows exactly the last covered event of every entity, and each entity once. */
  lemma LatestShowsLast(h: Log, p: Positions)
    ensures ShowsLast(h, p, Latest(h, p))
  {
    hide Latest; hide KeyOf; hide SameThing; hide IsLatest; hide LastOfEntity;
    var view := Latest(h, p);
    forall i | 0 <= i < |h| && LastOfEntity(h, p, i)
      ensures h[i] in view.Values
    {
      LastIsLatest(h, p, i);
      LatestHolds(h, p, KeyOf(h[i]), i);
      assert KeyOf(h[i]) in view && view[KeyOf(h[i])] == h[i];
    }
    forall k | k in view
      ensures KeyOf(view[k]) == k && exists i :: 0 <= i < |h| && LastOfEntity(h, p, i) && view[k] == h[i]
    {
      var i := LatestFound(h, p, k);
      LatestHolds(h, p, k, i);
      LatestIsInside(h, p, k, i);
      LastIsLatest(h, p, i);
    }
    forall k, l | k in view && l in view && k != l
      ensures !SameEntity(view[k], view[l])
    {
      KeysAreEntities(view[k], view[l]);
    }
  }

  lemma LatestIsInside(h: Log, p: Positions, k: EntityKey, i: nat)
    requires IsLatest(h, p, k, i)
    ensures i < |h| && KeyOf(h[i]) == k
  {}
}
