/** When notifications are flushed cannot be observed in what the store holds: every schedule of flush ticks agrees
    with a store that never conflates. */
module StoreTiming {
  import opened Events
  import opened StoreModel
  import opened StoreProofs

  predicate IsNext(s: Store, e: Envelope) { e.schemaVersion == 2 && e.streamSeq == At(s.positions, e.stream) + 1 }

  function Direct(r: Store, e: Envelope): Store {
    r.(positions := r.positions[e.stream := e.streamSeq], events := r.events.Set(KeyOf(e), e),
       delivered := if IsMarket(e) then r.delivered else r.delivered + [e])
  }

  /** The reference: every event goes straight into the view, nothing is evicted and a flush tick does nothing. */
  ghost function Unconflated(r: Store, step: Step): Store {
    match step
    case FlushTick => r
    case Connect => r.(phase := Connecting)
    case Disconnect => r.(snapshots := map[], phase := Disconnected)
    case Ingest(m) => if m.Event? && IsNext(r, m.event) then Direct(r, m.event) else Ingested(r, m).store
  }

  /** Everything a user of the store can observe, apart from the version and conflation counters. */
  ghost predicate Agree(s: Store, r: Store) {
    && Overlay(s) == r.events.values && s.positions == r.positions && s.phase == r.phase && s.gaps == r.gaps
    && s.heartbeat == r.heartbeat && s.snapshots == r.snapshots && s.delivered == r.delivered && s.recoveries == r.recoveries
  }

  ghost predicate Sound(s: Store, r: Store) {
    && MapsValid(s) && r.events.Valid() && (forall k :: k in s.pendingMarket.values ==> MarketKey(k))
  }

  ghost predicate SoundStep(step: Step) {
    step.Ingest? && step.message.Event? ==> WellFormed(step.message.event)
  }

  lemma AgreeOnMarket(s: Store, r: Store, e: Envelope)
    requires Agree(s, r) && Sound(s, r) && IsNext(s, e) && IsMarket(e) && WellFormed(e)
    ensures Agree(Accepted(s, e).store, Direct(r, e)) && Sound(Accepted(s, e).store, Direct(r, e))
  {
    hide KeyOf; hide WellFormed; hide EntityMap.Valid; hide IsMarket; hide MarketKey;
    var k := KeyOf(e);
    MarketByKey(e);
    SetKeepsValid(r.events, k, e);
    SetKeepsValid(s.pendingMarket, k, e);
    assert s.events.values + s.pendingMarket.values[k := e] == Overlay(s)[k := e];
  }

  lemma AgreeOnCritical(s: Store, r: Store, e: Envelope)
    requires Agree(s, r) && Sound(s, r) && IsNext(s, e) && !IsMarket(e) && WellFormed(e)
    requires !Evicts(s, e)
    ensures Agree(Accepted(s, e).store, Direct(r, e)) && Sound(Accepted(s, e).store, Direct(r, e))
  {
    hide KeyOf; hide WellFormed; hide EntityMap.Valid; hide IsMarket; hide MarketKey; hide Trimmed;
    var k := KeyOf(e);
    MarketByKey(e);
    SetKeepsValid(r.events, k, e);
    SetKeepsValid(s.events, k, e);
    UntrimmedBelowCapacity(s.events.Set(k, e));
    assert k !in s.pendingMarket.values;
    assert s.events.values[k := e] + s.pendingMarket.values == Overlay(s)[k := e];
  }

  lemma {:induction false} StagedRowsStayValid(staged: Staged, rows: seq<Row>)
    requires staged.events.Valid()
    ensures StagedRows(staged, rows).0.events.Valid()
    decreases |rows|
  {
    hide KeyOf; hide EntityMap.Valid;
    if rows != [] && rows[0].Decoded? {
      var e := rows[0].event;
      SetKeepsValid(staged.events, KeyOf(e), e);
      if e.streamSeq <= At(staged.positions, e.stream) {
        StagedRowsStayValid(staged.(events := staged.events.Set(KeyOf(e), e)), rows[1..]);
      }
    }
  }

  lemma AgreeOnMessage(s: Store, r: Store, m: Message)
    requires Agree(s, r) && Sound(s, r) && !(m.Event? && IsNext(s, m.event))
    ensures Agree(Ingested(s, m).store, Ingested(r, m).store) && Sound(Ingested(s, m).store, Ingested(r, m).store)
  {
    hide KeyOf; hide EntityMap.Valid; hide StagedRows; hide MarksOf; hide IsMarket; hide Trimmed; hide MarketKey; hide Ended; hide Batched;
    match m
    case SnapshotBatch(sub, size, count, column, rows) => AgreeOnBatch(s, r, sub, size, count, column, rows);
    case SnapshotBegin(_, _) => EmptyIsValid();
    case SnapshotEnd(sub, marks) => AgreeOnEnd(s, r, sub, marks);
    case _ =>
  }

  lemma AgreeOnBatch(s: Store, r: Store, sub: string, size: nat, count: nat, column: bool, rows: seq<Row>)
    requires Agree(s, r) && Sound(s, r)
    ensures Agree(Batched(s, sub, size, count, column, rows).store, Batched(r, sub, size, count, column, rows).store)
    ensures Sound(Batched(s, sub, size, count, column, rows).store, Batched(r, sub, size, count, column, rows).store)
  {
    hide EntityMap.Valid; hide StagedRows; hide MarketKey;
    if sub in s.snapshots { StagedRowsStayValid(s.snapshots[sub], rows); }
  }

  lemma AgreeOnEnd(s: Store, r: Store, sub: string, marks: seq<Watermark>)
    requires Agree(s, r) && Sound(s, r)
    ensures Agree(Ended(s, sub, marks).store, Ended(r, sub, marks).store) && Sound(Ended(s, sub, marks).store, Ended(r, sub, marks).store)
  {
    hide EntityMap.Valid; hide MarksOf; hide MarketKey;
    EmptyIsValid();
    if sub in s.snapshots { assert s.snapshots[sub].events.values + EMPTY.values == s.snapshots[sub].events.values; }
  }

  lemma EmptyIsValid()
    ensures EMPTY.Valid()
  {}

  ghost predicate EvictsAt(s: Store, step: Step) { step.Ingest? && step.message.Event? && Evicts(s, step.message.event) }

  lemma AgreeOnStep(s: Store, r: Store, step: Step)
    requires Agree(s, r) && Sound(s, r) && SoundStep(step) && !EvictsAt(s, step)
    ensures Agree(Advance(s, step), Unconflated(r, step)) && Sound(Advance(s, step), Unconflated(r, step))
  {
    hide KeyOf; hide EntityMap.Valid; hide IsMarket; hide MarketKey; hide WellFormed; hide Ingested; hide Accepted; hide Poured; hide Direct; hide Evicts;
    IngestOfEvent(s, step);
    PouringKeepsOverlay(s.pendingMarket, s.events);
    EmptyIsValid();
    match step
    case Ingest(m) =>
      if m.Event? && IsNext(s, m.event) {
        if IsMarket(m.event) { AgreeOnMarket(s, r, m.event); } else { AgreeOnCritical(s, r, m.event); }
      } else {
        AgreeOnMessage(s, r, m);
      }
    case _ =>
  }

  lemma IngestOfEvent(s: Store, step: Step)
    ensures step.Ingest? && step.message.Event? ==> Ingested(s, step.message) == Accepted(s, step.message.event)
  {}

  // ---- Whole runs -----------------------------------------------------------------------------

  ghost function Run(s: Store, steps: seq<Step>): Store
    requires MapsValid(s)
    ensures MapsValid(Run(s, steps))
  {
    if steps == [] then s else
    var before := Run(s, steps[..|steps| - 1]);
    AdvanceKeepsMaps(before, steps[|steps| - 1]);
    Advance(before, steps[|steps| - 1])
  }

  lemma IngestKeepsMaps(s: Store, m: Message)
    requires MapsValid(s)
    ensures MapsValid(Ingested(s, m).store)
  {
    hide KeyOf; hide EntityMap.Valid; hide IsMarket; hide StagedRows; hide MarksOf; hide Trimmed; hide EntityMap.Set;
    EmptyIsValid();
    match m
    case Event(e) =>
      SetKeepsValid(s.pendingMarket, KeyOf(e), e);
      SetKeepsValid(s.events, KeyOf(e), e);
      TrimKeepsValid(s.events.Set(KeyOf(e), e));
    case SnapshotBatch(sub, _, _, _, rows) => if sub in s.snapshots { StagedRowsStayValid(s.snapshots[sub], rows); }
    case _ =>
  }

  lemma AdvanceKeepsMaps(s: Store, step: Step)
    requires MapsValid(s)
    ensures MapsValid(Advance(s, step))
  {
    hide EntityMap.Valid; hide Poured; hide Ingested;
    EmptyIsValid();
    PouringKeepsOverlay(s.pendingMarket, s.events);
    if step.Ingest? { IngestKeepsMaps(s, step.message); }
  }

  lemma TrimKeepsValid(m: EntityMap)
    requires m.Valid()
    ensures Trimmed(m).Valid()
  {}

  ghost function Reference(r: Store, steps: seq<Step>): Store {
    if steps == [] then r else Unconflated(Reference(r, steps[..|steps| - 1]), steps[|steps| - 1])
  }

  function Untimed(steps: seq<Step>): seq<Step> {
    if steps == [] then [] else
    Untimed(steps[..|steps| - 1]) + if steps[|steps| - 1].FlushTick? then [] else [steps[|steps| - 1]]
  }

  /** The reference does not see the flush ticks at all. */
  lemma {:induction false} ReferenceIgnoresTicks(r: Store, steps: seq<Step>)
    ensures Reference(r, steps) == Reference(r, Untimed(steps))
  {
    hide Unconflated;
    if steps != [] {
      var init := steps[..|steps| - 1];
      ReferenceIgnoresTicks(r, init);
      if steps[|steps| - 1].FlushTick? {
        TickIsNothing(Reference(r, init));
        assert Untimed(steps) == Untimed(init);
      } else {
        var all := Untimed(steps);
        assert all[..|all| - 1] == Untimed(init) && all[|all| - 1] == steps[|steps| - 1];
      }
    }
  }

  lemma TickIsNothing(r: Store)
    ensures Unconflated(r, FlushTick) == r
  {}

  /** The run itself never evicts an entity, however many it holds. */
  ghost predicate NothingEvicted(s: Store, steps: seq<Step>) {
    MapsValid(s) && forall i :: 0 <= i < |steps| ==> !EvictsAt(Run(s, steps[..i]), steps[i])
  }

  lemma {:induction false} RunAgrees(steps: seq<Step>)
    requires forall step :: step in steps ==> SoundStep(step)
    requires NothingEvicted(INITIAL, steps)
    ensures Agree(Run(INITIAL, steps), Reference(INITIAL, steps)) && Sound(Run(INITIAL, steps), Reference(INITIAL, steps))
  {
    hide Advance; hide Unconflated; hide SoundStep; hide MarketKey; hide EvictsAt;
    EmptyIsValid();
    if steps == [] {
      assert EMPTY.values + EMPTY.values == EMPTY.values;
    } else {
      var init := steps[..|steps| - 1];
      assert NothingEvicted(INITIAL, init) by {
        forall i | 0 <= i < |init|
          ensures !EvictsAt(Run(INITIAL, init[..i]), init[i])
        {
          assert init[..i] == steps[..i];
        }
      }
      RunAgrees(init);
      AgreeOnStep(Run(INITIAL, init), Reference(INITIAL, init), steps[|steps| - 1]);
    }
  }

  /** Two runs of the same messages and disconnects, flushed at different moments, hold the same view, resume
      positions, deliveries, gaps and recovery requests. */
  lemma FlushTimingIsUnobservable(steps: seq<Step>, others: seq<Step>)
    requires Untimed(steps) == Untimed(others)
    requires (forall step :: step in steps ==> SoundStep(step)) && (forall step :: step in others ==> SoundStep(step))
    requires NothingEvicted(INITIAL, steps) && NothingEvicted(INITIAL, others)
    ensures var s, t := Run(INITIAL, steps), Run(INITIAL, others);
            && Overlay(s) == Overlay(t) && s.positions == t.positions && s.delivered == t.delivered
            && s.phase == t.phase && s.gaps == t.gaps && s.recoveries == t.recoveries
  {
    hide Run; hide Reference; hide EvictsAt; hide Overlay; hide Untimed; hide SoundStep;
    RunAgrees(steps);
    RunAgrees(others);
    ReferenceIgnoresTicks(INITIAL, steps);
    ReferenceIgnoresTicks(INITIAL, others);
  }

  /** A flush publishes exactly the overlay, and between flushes nothing a message does reaches the published copy. */
  lemma PublishedIsOverlayAtFlush(s: Store, step: Step)
    requires MapsValid(s)
    ensures step.FlushTick? && s.notifyQueued ==> Advance(s, step).shown.events.values == Overlay(s)
    ensures !step.FlushTick? ==> Advance(s, step).shown == s.shown
  {
    hide KeyOf; hide EntityMap.Valid; hide IsMarket; hide StagedRows; hide MarksOf; hide Poured; hide Trimmed;
    PouringKeepsOverlay(s.pendingMarket, s.events);
  }
}
