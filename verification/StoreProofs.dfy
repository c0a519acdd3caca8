/** What the store shows is the fold of the log it has been sent. */
module StoreProofs {
  import opened Events
  import opened StoreModel

  // ---- Ordered maps ---------------------------------------------------------------------------

  lemma SetKeepsValid(m: EntityMap, k: EntityKey, e: Envelope)
    requires m.Valid()
    ensures m.Set(k, e).Valid()
  {}

  lemma {:induction false} PouredIsValid(from: EntityMap, keys: seq<EntityKey>, into: EntityMap)
    requires into.Valid() && forall k :: k in keys ==> k in from.values
    ensures Poured(from, keys, into).Valid()
    decreases |keys|
  {
    hide EntityMap.Valid;
    if keys != [] {
      SetKeepsValid(into, keys[0], from.values[keys[0]]);
      PouredIsValid(from, keys[1..], into.Set(keys[0], from.values[keys[0]]));
    }
  }

  lemma {:induction false} PouredValues(from: EntityMap, keys: seq<EntityKey>, into: EntityMap, k: EntityKey)
    requires forall x :: x in keys ==> x in from.values
    ensures var r := Poured(from, keys, into).values;
            if k in keys then k in r && r[k] == from.values[k]
            else (k in r <==> k in into.values) && (k in r ==> r[k] == into.values[k])
    decreases |keys|
  {
    if keys != [] { PouredValues(from, keys[1..], into.Set(keys[0], from.values[keys[0]]), k); }
  }

  /** Pouring the pending quotes does not change the overlay. */
  lemma PouringKeepsOverlay(from: EntityMap, into: EntityMap)
    requires from.Valid() && into.Valid()
    ensures Poured(from, from.order, into).Valid()
    ensures Poured(from, from.order, into).values == into.values + from.values
    ensures Poured(from, from.order, into).values + EMPTY.values == into.values + from.values
  {
    hide Poured;
    PouringMerges(from, into);
    assert (into.values + from.values) + EMPTY.values == into.values + from.values;
  }

  lemma PouringMerges(from: EntityMap, into: EntityMap)
    requires from.Valid() && into.Valid()
    ensures Poured(from, from.order, into).Valid()
    ensures Poured(from, from.order, into).values == into.values + from.values
  {
    PouredIsValid(from, from.order, into);
    forall k
      ensures k in Poured(from, from.order, into).values <==> k in into.values + from.values
      ensures k in into.values + from.values ==> Poured(from, from.order, into).values[k] == (into.values + from.values)[k]
    {
      PouredValues(from, from.order, into, k);
    }
  }

  // ---- The invariant --------------------------------------------------------------------------

  ghost predicate Submap(m: map<EntityKey, Envelope>, n: map<EntityKey, Envelope>) {
    forall k :: k in m ==> k in n && m[k] == n[k]
  }

  /** No stream position is past the end of its log. */
  ghost predicate Within(h: Log, p: Positions) {
    forall stream :: At(p, stream) <= CountOf(h, stream)
  }

  ghost predicate StagedOk(h: Log, staged: Staged) {
    staged.events.Valid() && Within(h, staged.positions) && Submap(staged.events.values, Latest(h, staged.positions))
  }

  ghost predicate StoreInv(h: Log, s: Store, complete: bool) {
    && s.events.Valid() && s.pendingMarket.Valid()
    && (forall k :: k in s.pendingMarket.values ==> MarketKey(k))
    && Within(h, s.positions)
    && Submap(Overlay(s), Latest(h, s.positions))
    && (complete ==> Overlay(s) == Latest(h, s.positions))
    && (forall sub :: sub in s.snapshots ==> StagedOk(h, s.snapshots[sub]))
  }

  /** The channel may drop, repeat and reorder, but what it sends is authentic: events of the log, watermarks the log
      has reached, and snapshot rows that are the latest of their entity at the snapshot's watermarks. */
  ghost predicate Authentic(h: Log, s: Store, m: Message) {
    match m
    case Event(e) => e in h
    case SnapshotBegin(_, marks) => Within(h, MarksOf(marks))
    case SnapshotBatch(sub, _, _, _, rows) =>
      sub in s.snapshots ==> forall i :: 0 <= i < |rows| && rows[i].Decoded? ==> AuthenticRow(h, s.snapshots[sub].positions, rows[i].event)
    case _ => true
  }

  ghost predicate AuthenticRow(h: Log, p: Positions, e: Envelope) {
    KeyOf(e) in Latest(h, p) && Latest(h, p)[KeyOf(e)] == e
  }

  /** A critical event that overflows the view evicts its oldest entity. */
  ghost predicate Evicts(s: Store, e: Envelope) {
    e.schemaVersion == 2 && e.streamSeq == At(s.positions, e.stream) + 1 && !IsMarket(e)
    && s.events.Set(KeyOf(e), e).Size() > CAPACITY
  }

  ghost predicate Installs(s: Store, m: Message) {
    m.SnapshotEnd? && m.sub in s.snapshots && MarksOf(m.marks) == s.snapshots[m.sub].positions
  }

  /** Whether the view still holds every entity: an eviction ends that, a snapshot decides it afresh. */
  ghost predicate StillComplete(h: Log, s: Store, step: Step, complete: bool) {
    if step.Ingest? && step.message.Event? then complete && !Evicts(s, step.message.event)
    else if step.Ingest? && Installs(s, step.message) then
      Covers(h, s.snapshots[step.message.sub])
    else complete
  }

  /** The staged rows leave out no entity that has an event up to the watermarks. */
  ghost predicate Covers(h: Log, staged: Staged) {
    forall k :: k in Latest(h, staged.positions) ==> k in staged.events.values
  }

  lemma PendingSet(m: map<EntityKey, Envelope>, p: map<EntityKey, Envelope>, n: map<EntityKey, Envelope>, k: EntityKey, e: Envelope)
    requires Submap(m + p, n)
    ensures Submap(m + p[k := e], n[k := e]) && (m + p == n ==> m + p[k := e] == n[k := e])
  {}

  lemma CriticalSet(m: map<EntityKey, Envelope>, p: map<EntityKey, Envelope>, n: map<EntityKey, Envelope>, k: EntityKey, e: Envelope)
    requires Submap(m + p, n) && k !in p
    ensures Submap(m[k := e] + p, n[k := e]) && (m + p == n ==> m[k := e] + p == n[k := e])
  {}

  lemma TrimKeeps(wide: EntityMap, p: map<EntityKey, Envelope>, n: map<EntityKey, Envelope>)
    requires wide.Valid() && Submap(wide.values + p, n)
    ensures Trimmed(wide).Valid() && Submap(Trimmed(wide).values + p, n)
  {}

  lemma MarketKeepsView(h: Log, s: Store, i: nat, complete: bool)
    requires Numbered(h) && StoreInv(h, s, complete) && i < |h| && h[i].streamSeq == At(s.positions, h[i].stream) + 1 && IsMarket(h[i])
    ensures StoreInv(h, Accepted(s, h[i]).store, complete)
  {
    hide KeyOf; hide WellFormed; hide StagedOk; hide Latest; hide Numbered; hide Submap; hide EntityMap.Valid; hide Trimmed;
    var e := h[i];
    LatestAdvances(h, s.positions, i);
    SequenceBounds(h, i);
    WellFormedEntry(h, i);
    SetKeepsValid(s.pendingMarket, KeyOf(e), e);
    MarketByKey(e);
    PendingSet(s.events.values, s.pendingMarket.values, Latest(h, s.positions), KeyOf(e), e);
  }

  lemma CriticalKeepsView(h: Log, s: Store, i: nat, complete: bool)
    requires Numbered(h) && StoreInv(h, s, complete) && i < |h| && h[i].streamSeq == At(s.positions, h[i].stream) + 1 && !IsMarket(h[i])
    ensures StoreInv(h, Accepted(s, h[i]).store, complete && !Evicts(s, h[i]))
  {
    hide KeyOf; hide WellFormed; hide StagedOk; hide Latest; hide Numbered; hide Submap; hide EntityMap.Valid; hide Trimmed;
    var e := h[i];
    var k, view := KeyOf(e), Latest(h, s.positions);
    LatestAdvances(h, s.positions, i);
    SequenceBounds(h, i);
    WellFormedEntry(h, i);
    SetKeepsValid(s.events, k, e);
    MarketByKey(e);
    CriticalSet(s.events.values, s.pendingMarket.values, view, k, e);
    TrimKeeps(s.events.Set(k, e), s.pendingMarket.values, view[k := e]);
    UntrimmedBelowCapacity(s.events.Set(k, e));
  }

  lemma UntrimmedBelowCapacity(m: EntityMap)
    ensures m.Size() <= CAPACITY ==> Trimmed(m) == m
  {}

  lemma AcceptKeeps(h: Log, s: Store, e: Envelope, complete: bool)
    requires Numbered(h) && StoreInv(h, s, complete) && e in h
    ensures StoreInv(h, Accepted(s, e).store, complete && !Evicts(s, e))
  {
    hide KeyOf; hide WellFormed; hide StagedOk; hide Latest; hide Numbered; hide Submap; hide EntityMap.Valid; hide Trimmed; hide Within;
    var i :| 0 <= i < |h| && h[i] == e;
    WellFormedEntry(h, i);
    if e.streamSeq == At(s.positions, e.stream) + 1 {
      if IsMarket(e) { MarketKeepsView(h, s, i, complete); } else { CriticalKeepsView(h, s, i, complete); }
    }
  }

  lemma WellFormedEntry(h: Log, i: nat)
    requires Numbered(h) && i < |h|
    ensures WellFormed(h[i])
  {}

  lemma {:induction false} StagedRowsKeep(h: Log, staged: Staged, rows: seq<Row>)
    requires StagedOk(h, staged)
    requires forall i :: 0 <= i < |rows| && rows[i].Decoded? ==> AuthenticRow(h, staged.positions, rows[i].event)
    ensures StagedOk(h, StagedRows(staged, rows).0) && StagedRows(staged, rows).0.positions == staged.positions
    decreases |rows|
  {
    hide KeyOf; hide Latest; hide EntityMap.Valid; hide Within;
    if rows != [] && rows[0].Decoded? {
      var e := rows[0].event;
      assert AuthenticRow(h, staged.positions, e);
      SetKeepsValid(staged.events, KeyOf(e), e);
      if e.streamSeq <= At(staged.positions, e.stream) {
        StagedRowsKeep(h, staged.(events := staged.events.Set(KeyOf(e), e)), rows[1..]);
      }
    }
  }

  lemma IngestKeeps(h: Log, s: Store, m: Message, complete: bool)
    requires Numbered(h) && StoreInv(h, s, complete) && Authentic(h, s, m)
    ensures StoreInv(h, Ingested(s, m).store, StillComplete(h, s, Ingest(m), complete))
  {
    hide Latest; hide Numbered; hide Within; hide EntityMap.Valid; hide Submap; hide StagedRows; hide Accepted; hide Evicts; hide MarksOf;
    hide AuthenticRow;
    match m
    case Event(e) => AcceptKeeps(h, s, e, complete);
    case SnapshotBegin(_, marks) => EmptyIsStaged(h, MarksOf(marks));
    case SnapshotBatch(sub, _, _, _, rows) => if sub in s.snapshots { StagedRowsKeep(h, s.snapshots[sub], rows); }
    case SnapshotEnd(sub, marks) =>
      if Installs(s, m) { InstallKeeps(h, s, sub, marks, complete); }
    case _ =>
  }

  lemma EmptyIsStaged(h: Log, p: Positions)
    requires Within(h, p)
    ensures StagedOk(h, Staged(EMPTY, p))
  {}

  /** A finished snapshot replaces the whole view by its own fold, complete when its rows cover every entity. */
  lemma InstallKeeps(h: Log, s: Store, sub: string, marks: seq<Watermark>, complete: bool)
    requires StoreInv(h, s, complete) && Installs(s, SnapshotEnd(sub, marks))
    ensures StoreInv(h, Ended(s, sub, marks).store, Covers(h, s.snapshots[sub]))
  {
    hide Latest; hide Within; hide MarksOf;
    var staged := s.snapshots[sub];
    assert StagedOk(h, staged) && staged.events.values + EMPTY.values == staged.events.values;
    if Covers(h, staged) { assert staged.events.values == Latest(h, staged.positions); }
  }

  lemma PouringKeeps(h: Log, s: Store, next: Store, complete: bool)
    requires StoreInv(h, s, complete)
    requires next.events == Poured(s.pendingMarket, s.pendingMarket.order, s.events) && next.pendingMarket == EMPTY
    requires next.positions == s.positions && forall sub :: sub in next.snapshots ==> sub in s.snapshots && next.snapshots[sub] == s.snapshots[sub]
    ensures StoreInv(h, next, complete) && Overlay(next) == Overlay(s)
  {
    hide Latest; hide Within; hide Submap; hide Poured;
    PouringKeepsOverlay(s.pendingMarket, s.events);
    assert next.events.values + EMPTY.values == next.events.values;
  }

  lemma StepKeeps(h: Log, s: Store, step: Step, complete: bool)
    requires Numbered(h) && StoreInv(h, s, complete) && MapsValid(s)
    requires step.Ingest? ==> Authentic(h, s, step.message)
    ensures StoreInv(h, Advance(s, step), StillComplete(h, s, step, complete))
  {
    hide Latest; hide Numbered; hide Within; hide Submap; hide Poured; hide Ingested; hide Authentic;
    match step
    case Ingest(m) => IngestKeeps(h, s, m, complete);
    case FlushTick => if s.notifyQueued { PouringKeeps(h, s, Flushed(s), complete); }
    case Disconnect => PouringKeeps(h, s, Dropped(s), complete);
    case Connect =>
  }

  /** The log may grow behind the store without touching what the store shows. */
  lemma GrowthKeeps(h: Log, more: Log, s: Store, complete: bool)
    requires Numbered(h + more) && StoreInv(h, s, complete)
    ensures StoreInv(h + more, s, complete)
  {
    hide Latest; hide Numbered; hide Submap; hide EntityMap.Valid; hide Within;
    GrowthIsBeyond(h, more, s.positions);
    forall sub | sub in s.snapshots
      ensures StagedOk(h + more, s.snapshots[sub])
    {
      assert StagedOk(h, s.snapshots[sub]);
      GrowthIsBeyond(h, more, s.snapshots[sub].positions);
    }
  }

  lemma GrowthIsNumberedBeyond(h: Log, more: Log, p: Positions, e: Envelope)
    requires Numbered(h + more) && Within(h, p) && e in more
    ensures e.streamSeq > At(p, e.stream)
  {
    var i :| 0 <= i < |more| && more[i] == e;
    var n := |h| + i;
    CountGrows((h + more)[..n], |h|, e.stream);
    assert (h + more)[..n][..|h|] == h && (h + more)[n] == e;
  }

  lemma GrowthIsBeyond(h: Log, more: Log, p: Positions)
    requires Numbered(h + more) && Within(h, p)
    ensures Within(h + more, p) && Latest(h + more, p) == Latest(h, p)
  {
    forall e | e in more
      ensures e.streamSeq > At(p, e.stream)
    {
      GrowthIsNumberedBeyond(h, more, p, e);
    }
    LatestIgnoresLater(h, more, p);
    forall stream
      ensures At(p, stream) <= CountOf(h + more, stream)
    {
      CountGrows(h + more, |h|, stream);
      assert (h + more)[..|h|] == h;
    }
  }

  lemma {:induction false} NothingSeen(h: Log)
    requires Numbered(h)
    ensures Latest(h, map[]) == map[]
  {
    if h != [] {
      NumberedPrefix(h, |h| - 1);
      NothingSeen(h[..|h| - 1]);
    }
  }

  lemma InitialHolds(h: Log)
    requires Numbered(h)
    ensures StoreInv(h, INITIAL, true)
  {
    NothingSeen(h);
  }
}
