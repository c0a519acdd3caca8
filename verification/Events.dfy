/** The event envelope, the entity it describes, and what a per-stream log looks like once folded by entity. */
module Events {
  import opened Common

  datatype EventType =
    | RunStateChanged | MarketQuote | OrderBookUpdated | ModelInferenceCompleted | SignalGenerated
    | TargetPositionChanged | RiskDecision | OrderSubmitted | OrderAccepted | OrderRejected | OrderCancelRequested
    | OrderCanceled | RouteUpdated | FillReceived | PositionUpdated | PnlUpdated | AlertRaised | AlertCleared
    | OperationReceiptUpdated

  /** The payload case, with the identifier the entity key reads from it; body stands for the rest of the content. */
  datatype Payload =
    | Quote | Book | OrderState(clientOrderId: string) | Route(routeId: string) | FillOf(tradeId: string) | Position
    | Pnl | RunState | Alert(alertId: string) | Receipt(operationId: string) | Plain

  datatype Envelope = Envelope(schemaVersion: nat, stream: string, streamSeq: nat, eventId: string, eventType: EventType,
                               runId: string, instrumentId: string, occurredAt: int, receivedAt: int, payload: Payload, body: string)

  /** The key is a tuple of the parts the program joins with slashes. */
  datatype Entity =
    | OfQuote(instrument: string) | OfBook(instrument: string) | OfOrder(id: string) | OfRoute(id: string) | OfFill(id: string)
    | OfPosition(instrument: string) | OfPnl(run: string, instrument: string) | OfState(run: string) | OfAlert(id: string)
    | OfReceipt(id: string) | OfEvent(id: string)
  datatype EntityKey = EntityKey(stream: string, entity: Entity)

  function KeyOf(e: Envelope): EntityKey {
    EntityKey(e.stream, match e.payload
      case Quote => OfQuote(e.instrumentId)
      case Book => OfBook(e.instrumentId)
      case OrderState(id) => OfOrder(id)
      case Route(id) => OfRoute(id)
      case FillOf(id) => OfFill(id)
      case Position => OfPosition(e.instrumentId)
      case Pnl => OfPnl(e.runId, e.instrumentId)
      case RunState => OfState(e.runId)
      case Alert(id) => OfAlert(id)
      case Receipt(id) => OfReceipt(id)
      case Plain => OfEvent(e.eventId))
  }

  predicate IsMarket(e: Envelope) { e.eventType.MarketQuote? || e.eventType.OrderBookUpdated? }

  /** The identifiers a persisted record may carry for its payload; a book record may fail to map. */
  datatype Body = Body(clientOrderId: string, routeId: string, tradeId: string, alertId: string, operationId: string,
                       levels: bool, rest: string)

  /** The payload case is decided by the event type alone. */
  function PayloadFor(t: EventType, b: Body): Option<Payload> {
    match t
    case MarketQuote => Some(Quote)
    case OrderBookUpdated => if b.levels then Some(Book) else None
    case OrderSubmitted | OrderAccepted | OrderRejected | OrderCancelRequested | OrderCanceled => Some(OrderState(b.clientOrderId))
    case RouteUpdated => Some(Route(b.routeId))
    case FillReceived => Some(FillOf(b.tradeId))
    case PositionUpdated => Some(Position)
    case PnlUpdated => Some(Pnl)
    case RunStateChanged => Some(RunState)
    case AlertRaised | AlertCleared => Some(Alert(b.alertId))
    case OperationReceiptUpdated => Some(Receipt(b.operationId))
    case ModelInferenceCompleted | SignalGenerated | TargetPositionChanged | RiskDecision => Some(Plain)
  }

  /** What every staged envelope satisfies: version 2, and a payload of the case its type calls for. */
  ghost predicate WellFormed(e: Envelope) {
    e.schemaVersion == 2 && exists b :: PayloadFor(e.eventType, b) == Some(e.payload)
  }

  predicate MarketKey(k: EntityKey) { k.entity.OfQuote? || k.entity.OfBook? }

  lemma MarketByKey(e: Envelope)
    requires WellFormed(e)
    ensures IsMarket(e) <==> MarketKey(KeyOf(e))
  {}

  // ---- Per-stream logs ----------------------------------------------------------------------

  type Log = seq<Envelope>

  function CountOf(h: Log, stream: string): nat {
    if h == [] then 0 else CountOf(h[..|h| - 1], stream) + if h[|h| - 1].stream == stream then 1 else 0
  }

  /** Each stream is numbered 1, 2, 3, ... in the order of the log. */
  ghost predicate Numbered(h: Log) {
    forall i :: 0 <= i < |h| ==> WellFormed(h[i]) && h[i].streamSeq == CountOf(h[..i], h[i].stream) + 1
  }

  type Positions = map<string, nat>

  function At(p: Positions, stream: string): nat { if stream in p then p[stream] else 0 }

  /** The latest event of every entity among the events of each stream up to its position. */
  function Latest(h: Log, p: Positions): map<EntityKey, Envelope> {
    if h == [] then map[] else
    var last := h[|h| - 1];
    var m := Latest(h[..|h| - 1], p);
    if last.streamSeq <= At(p, last.stream) then m[KeyOf(last) := last] else m
  }

  lemma {:induction false} CountGrows(h: Log, i: nat, stream: string)
    requires i <= |h|
    ensures CountOf(h[..i], stream) <= CountOf(h, stream)
  {
    if i < |h| {
      CountGrows(h[..|h| - 1], i, stream);
      assert h[..|h| - 1][..i] == h[..i];
    } else {
      assert h[..i] == h;
    }
  }

  lemma NumberedPrefix(h: Log, n: nat)
    requires Numbered(h) && n <= |h|
    ensures Numbered(h[..n])
  {
    forall i | 0 <= i < n
      ensures WellFormed(h[..n][i]) && h[..n][i].streamSeq == CountOf(h[..n][..i], h[..n][i].stream) + 1
    {
      assert h[..n][..i] == h[..i];
    }
  }

  /** A sequence number is reached only by the events before it, and every number is reached. */
  lemma {:induction false} SequenceBounds(h: Log, i: nat)
    requires Numbered(h) && i < |h|
    ensures 1 <= h[i].streamSeq <= CountOf(h, h[i].stream)
  {
    CountGrows(h, i + 1, h[i].stream);
    assert h[..i + 1][..i] == h[..i];
  }

  /** Two entries of one stream with one number are the same entry. */
  lemma SequenceIsUnique(h: Log, i: nat, j: nat)
    requires Numbered(h) && i < |h| && j < |h| && h[i].stream == h[j].stream && h[i].streamSeq == h[j].streamSeq
    ensures i == j
  {
    if i < j { SequencesGrow(h, i, j); }
    if j < i { SequencesGrow(h, j, i); }
  }

  lemma SequencesGrow(h: Log, i: nat, j: nat)
    requires Numbered(h) && i < j < |h| && h[i].stream == h[j].stream
    ensures h[i].streamSeq < h[j].streamSeq
  {
    CountGrows(h[..j], i + 1, h[i].stream);
    assert h[..j][..i + 1] == h[..i + 1] && h[..i + 1][..i] == h[..i];
  }

  lemma {:induction false} CountReached(h: Log, stream: string, n: nat) returns (i: nat)
    requires Numbered(h) && 1 <= n <= CountOf(h, stream)
    ensures i < |h| && h[i].stream == stream && h[i].streamSeq == n
  {
    var init := h[..|h| - 1];
    NumberedPrefix(h, |h| - 1);
    if h[|h| - 1].stream == stream && CountOf(init, stream) == n - 1 {
      i := |h| - 1;
    } else {
      i := CountReached(init, stream, n);
    }
  }

  // ---- Folding the log ------------------------------------------------------------------------

  /** An event of the entity up to the positions, after which there is none. */
  ghost predicate IsLatest(h: Log, p: Positions, k: EntityKey, i: nat) {
    && i < |h| && KeyOf(h[i]) == k && h[i].streamSeq <= At(p, k.stream)
    && forall j :: i < j < |h| && KeyOf(h[j]) == k ==> h[j].streamSeq > At(p, k.stream)
  }

  lemma LatestUnfold(h: Log, p: Positions, k: EntityKey)
    requires h != []
    ensures var last, m := h[|h| - 1], Latest(h[..|h| - 1], p);
            if KeyOf(last) == k && last.streamSeq <= At(p, k.stream) then k in Latest(h, p) && Latest(h, p)[k] == last
            else (k in Latest(h, p) <==> k in m) && (k in m ==> Latest(h, p)[k] == m[k])
  {}

  lemma {:induction false} LatestHolds(h: Log, p: Positions, k: EntityKey, i: nat)
    requires IsLatest(h, p, k, i)
    ensures k in Latest(h, p) && Latest(h, p)[k] == h[i]
  {
    hide Latest; hide KeyOf;
    LatestUnfold(h, p, k);
    if i < |h| - 1 { LatestHolds(h[..|h| - 1], p, k, i); }
  }

  lemma {:induction false} LatestFound(h: Log, p: Positions, k: EntityKey) returns (i: nat)
    requires k in Latest(h, p)
    ensures IsLatest(h, p, k, i)
  {
    hide KeyOf;
    LatestUnfold(h, p, k);
    if KeyOf(h[|h| - 1]) == k && h[|h| - 1].streamSeq <= At(p, k.stream) {
      i := |h| - 1;
    } else {
      i := LatestFound(h[..|h| - 1], p, k);
    }
  }

  /** What the fold means: it holds exactly the entities with an event up to the positions, each with its last such event. */
  lemma LatestMeans(h: Log, p: Positions, k: EntityKey)
    ensures k in Latest(h, p) <==> exists i: nat :: IsLatest(h, p, k, i)
    ensures forall i: nat :: IsLatest(h, p, k, i) ==> Latest(h, p)[k] == h[i]
  {
    hide Latest;
    if k in Latest(h, p) { var _ := LatestFound(h, p, k); }
    forall i: nat | IsLatest(h, p, k, i)
      ensures k in Latest(h, p) && Latest(h, p)[k] == h[i]
    {
      LatestHolds(h, p, k, i);
    }
  }

  /** Events beyond the positions do not change the fold: the log may grow under a reader. */
  lemma {:induction false} LatestIgnoresLater(h: Log, more: Log, p: Positions)
    requires forall e :: e in more ==> e.streamSeq > At(p, e.stream)
    ensures Latest(h + more, p) == Latest(h, p)
  {
    if more == [] {
      assert h + more == h;
    } else {
      var init := more[..|more| - 1];
      LatestIgnoresLater(h, init, p);
      assert (h + more)[..|h + more| - 1] == h + init;
      assert (h + more)[|h + more| - 1] == more[|more| - 1] && more[|more| - 1] in more;
    }
  }

  /** A position that covers the same events gives the same fold. */
  lemma {:induction false} LatestSame(h: Log, p: Positions, q: Positions)
    requires forall e :: e in h ==> (e.streamSeq <= At(p, e.stream) <==> e.streamSeq <= At(q, e.stream))
    ensures Latest(h, p) == Latest(h, q)
  {
    if h != [] {
      var init := h[..|h| - 1];
      assert forall e :: e in init ==> e in h;
      LatestSame(init, p, q);
      assert h[|h| - 1] in h;
    }
  }

  lemma KeyHasStream(e: Envelope)
    ensures KeyOf(e).stream == e.stream
  {}

  lemma EarlierAreCovered(h: Log, p: Positions, i: nat)
    requires Numbered(h) && i < |h| && h[i].streamSeq == At(p, h[i].stream) + 1
    ensures Latest(h[..i], p[h[i].stream := h[i].streamSeq]) == Latest(h[..i], p)
  {
    hide Latest; hide WellFormed;
    var e := h[i];
    var q := p[e.stream := e.streamSeq];
    forall x | x in h[..i]
      ensures x.streamSeq <= At(p, x.stream) <==> x.streamSeq <= At(q, x.stream)
    {
      var j :| 0 <= j < i && h[j] == x;
      if x.stream == e.stream { SequencesGrow(h, j, i); }
    }
    LatestSame(h[..i], p, q);
  }

  /** Moving one stream on by its next event replaces exactly that event's entity. */
  lemma {:induction false} LatestAdvances(h: Log, p: Positions, i: nat)
    requires Numbered(h) && i < |h| && h[i].streamSeq == At(p, h[i].stream) + 1
    ensures Latest(h, p[h[i].stream := h[i].streamSeq]) == Latest(h, p)[KeyOf(h[i]) := h[i]]
  {
    hide KeyOf; hide WellFormed; hide Numbered;
    var init, last := h[..|h| - 1], h[|h| - 1];
    if i == |h| - 1 {
      EarlierAreCovered(h, p, i);
      assert h[..i] == init;
    } else {
      NumberedPrefix(h, |h| - 1);
      LatestAdvances(init, p, i);
      if last.stream == h[i].stream { SequencesGrow(h, i, |h| - 1); }
      KeyHasStream(last);
      KeyHasStream(h[i]);
    }
  }
}
