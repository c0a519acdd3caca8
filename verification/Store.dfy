/** The store over mutable maps: working maps are changed in place, and the published copies are separate objects. */
module StoreClass {
  import opened Events
  import opened StoreModel
  import opened StoreTiming

  class EventMap {
    var m: EntityMap
    constructor (m: EntityMap) ensures this.m == m { this.m := m; }
  }

  class PositionMap {
    var m: Positions
    constructor (m: Positions) ensures this.m == m { this.m := m; }
  }

  /** The record spread by each update; its two maps are shared until a flush copies them. */
  datatype StreamState = StreamState(version: nat, phase: Phase, events: EventMap, positions: PositionMap, conflated: nat,
                                     gaps: nat, heartbeat: int)
  datatype StagedMaps = StagedMaps(events: EventMap, positions: PositionMap)

  ghost predicate Distinct(working: StreamState, state: StreamState, pendingMarket: EventMap, snapshots: map<string, StagedMaps>) {
    && working.events != pendingMarket && working.events != state.events && pendingMarket != state.events
    && working.positions != state.positions
    && (forall sub :: sub in snapshots ==> Apart(snapshots[sub], working, state, pendingMarket))
    && (forall a, b :: a in snapshots && b in snapshots && a != b ==>
          snapshots[a].events != snapshots[b].events && snapshots[a].positions != snapshots[b].positions)
  }

  ghost predicate Apart(maps: StagedMaps, working: StreamState, state: StreamState, pendingMarket: EventMap) {
    && maps.events !in {working.events, pendingMarket, state.events}
    && maps.positions !in {working.positions, state.positions}
  }

  lemma AddedIsDistinct(working: StreamState, state: StreamState, pendingMarket: EventMap, snapshots: map<string, StagedMaps>,
                        sub: string, maps: StagedMaps)
    requires Distinct(working, state, pendingMarket, snapshots) && Apart(maps, working, state, pendingMarket)
    requires forall other :: other in snapshots ==> maps.events != snapshots[other].events && maps.positions != snapshots[other].positions
    ensures Distinct(working, state, pendingMarket, snapshots[sub := maps])
  {
  }

  lemma InstalledIsDistinct(working: StreamState, state: StreamState, pendingMarket: EventMap, snapshots: map<string, StagedMaps>,
                            sub: string, next: StreamState)
    requires Distinct(working, state, pendingMarket, snapshots) && sub in snapshots
    requires next.events == snapshots[sub].events && next.positions == snapshots[sub].positions
    ensures Distinct(next, state, pendingMarket, snapshots - {sub})
  {
  }

  lemma PendingIsNotStaged(working: StreamState, state: StreamState, pendingMarket: EventMap, snapshots: map<string, StagedMaps>)
    requires Distinct(working, state, pendingMarket, snapshots)
    ensures pendingMarket != state.events && forall sub :: sub in snapshots ==> snapshots[sub].events != pendingMarket
  {
  }

  class TerminalStreamStore {
    var working: StreamState
    var state: StreamState
    var pendingMarket: EventMap
    var snapshots: map<string, StagedMaps>
    var notifyQueued: bool
    var delivered: seq<Envelope>
    var recoveries: seq<Recovery>

    ghost function StagedEvents(): set<EventMap> reads this { set sub | sub in snapshots :: snapshots[sub].events }
    ghost function StagedPositions(): set<PositionMap> reads this { set sub | sub in snapshots :: snapshots[sub].positions }

    ghost function StagedView(): map<string, Staged>
      reads this, StagedEvents(), StagedPositions()
    {
      map sub | sub in snapshots :: Staged(snapshots[sub].events.m, snapshots[sub].positions.m)
    }

    ghost function ShownView(): Shown
      reads this, state.events, state.positions
    {
      Shown(state.version, state.phase, state.events.m, state.positions.m, state.conflated, state.gaps, state.heartbeat)
    }

    ghost function View(): Store
      reads this, working.events, working.positions, pendingMarket, state.events, state.positions, StagedEvents(), StagedPositions()
    {
      Store(working.events.m, working.positions.m, working.phase, working.version, working.conflated, working.gaps,
            working.heartbeat, StagedView(), pendingMarket.m, notifyQueued, ShownView(), delivered, recoveries)
    }

    /** No two of the maps are the same object: above all, the published maps are not the ones changed in place. */
    ghost predicate Separate()
      reads this
    {
      Distinct(working, state, pendingMarket, snapshots)
    }

    ghost predicate Valid()
      reads this, working.events, working.positions, pendingMarket, state.events, state.positions, StagedEvents(), StagedPositions()
    {
      Separate() && MapsValid(View())
    }

    constructor ()
      ensures Valid() && View() == INITIAL
    {
      var events := new EventMap(EMPTY);
      var positions := new PositionMap(map[]);
      var shownEvents := new EventMap(EMPTY);
      var shownPositions := new PositionMap(map[]);
      working := StreamState(0, Connecting, events, positions, 0, 0, 0);
      state := StreamState(0, Connecting, shownEvents, shownPositions, 0, 0, 0);
      pendingMarket := new EventMap(EMPTY);
      snapshots, notifyQueued, delivered, recoveries := map[], false, [], [];
      new;
      EmptyIsValid();
    }

    /** Messages that only change the record and ask for recovery. */
    method Patch(next: StreamState, asked: seq<Recovery>)
      requires Separate() && next.events == working.events && next.positions == working.positions
      modifies `working, `notifyQueued, `recoveries
      ensures Separate() && working == next
      ensures View() == Queued(old(View()).(phase := next.phase, version := next.version, conflated := next.conflated, gaps := next.gaps,
                                            heartbeat := next.heartbeat, recoveries := old(recoveries) + asked))
    {
      working, recoveries, notifyQueued := next, recoveries + asked, true;
    }

    method MovePosition(event: Envelope)
      requires Separate()
      modifies working.positions
      ensures Separate() && View() == old(View()).(positions := old(working.positions.m)[event.stream := event.streamSeq])
    {
      working.positions.m := working.positions.m[event.stream := event.streamSeq];
      assert StagedView() == old(StagedView());
    }

    method PutPending(key: EntityKey, event: Envelope) returns (replaced: bool)
      requires Separate()
      modifies pendingMarket
      ensures replaced == (key in old(pendingMarket.m).values)
      ensures Separate() && View() == old(View()).(pendingMarket := old(pendingMarket.m).Set(key, event))
    {
      hide EntityMap.Set;
      replaced := key in pendingMarket.m.values;
      pendingMarket.m := pendingMarket.m.Set(key, event);
      assert StagedView() == old(StagedView());
    }

    method PutEvent(key: EntityKey, event: Envelope)
      requires Separate()
      modifies working.events
      ensures Separate() && View() == old(View()).(events := Trimmed(old(working.events.m).Set(key, event)))
    {
      hide EntityMap.Set; hide Trimmed;
      working.events.m := Trimmed(working.events.m.Set(key, event));
      assert StagedView() == old(StagedView());
    }

    method AcceptMarket(event: Envelope)
      requires Separate() && IsNext(View(), event) && IsMarket(event)
      modifies `working, `notifyQueued, `recoveries, working.positions, pendingMarket
      ensures Separate() && View() == Accepted(old(View()), event).store
    {
      hide KeyOf; hide IsMarket; hide EntityMap.Set; hide Separate; hide StagedView; hide ShownView;
      MovePosition(event);
      var replaced := PutPending(KeyOf(event), event);
      assert recoveries + [] == recoveries;
      Patch(working.(conflated := working.conflated + if replaced then 1 else 0), []);
    }

    method TellListeners(event: Envelope)
      requires Separate()
      modifies `notifyQueued, `delivered
      ensures Separate() && View() == Queued(old(View()).(delivered := old(delivered) + [event]))
    {
      delivered := delivered + [event];
      notifyQueued := true;
    }

    method AcceptCritical(event: Envelope)
      requires Separate() && IsNext(View(), event) && !IsMarket(event)
      modifies `notifyQueued, `delivered, working.positions, working.events
      ensures Separate() && View() == Accepted(old(View()), event).store
    {
      hide KeyOf; hide IsMarket; hide EntityMap.Set; hide Trimmed; hide Separate; hide StagedView; hide ShownView;
      MovePosition(event);
      PutEvent(KeyOf(event), event);
      TellListeners(event);
    }

    method Accept(event: Envelope) returns (thrown: bool)
      requires Separate()
      modifies this, working.events, working.positions, pendingMarket
      ensures Separate() && Result(View(), thrown) == Accepted(old(View()), event)
    {
      hide KeyOf; hide IsMarket; hide EntityMap.Set; hide Trimmed;
      thrown := false;
      if event.schemaVersion != 2 { return true; }
      var previous := At(working.positions.m, event.stream);
      if event.streamSeq <= previous { return; }
      if event.streamSeq != previous + 1 {
        Patch(working.(phase := Recovering, gaps := working.gaps + 1), [OneStream(event.stream, previous)]);
      } else if IsMarket(event) {
        AcceptMarket(event);
      } else {
        AcceptCritical(event);
      }
    }

    method OpenSnapshot(sub: string, marked: Positions)
      requires Separate()
      modifies `snapshots
      ensures Separate() && StagedView() == old(StagedView())[sub := Staged(EMPTY, marked)]
    {
      hide Distinct;
      var events := new EventMap(EMPTY);
      var positions := new PositionMap(marked);
      var maps := StagedMaps(events, positions);
      AddedIsDistinct(working, state, pendingMarket, snapshots, sub, maps);
      snapshots := snapshots[sub := maps];
    }

    method Begin(sub: string, marks: seq<Watermark>) returns (thrown: bool)
      requires Separate()
      modifies `snapshots, `working, `notifyQueued, `recoveries
      ensures Separate() && Result(View(), thrown) == Begun(old(View()), sub, marks)
    {
      hide MarksOf; hide Separate; hide StagedView;
      var marked := MarksOf(marks);
      if exists stream :: stream in marked && marked[stream] < At(working.positions.m, stream) { return true; }
      OpenSnapshot(sub, marked);
      Patch(working.(phase := InSnapshot), []);
      thrown := false;
    }

    method StageRows(sub: string, rows: seq<Row>) returns (thrown: bool)
      requires Separate() && sub in snapshots
      modifies snapshots[sub].events
      ensures (Staged(snapshots[sub].events.m, snapshots[sub].positions.m), thrown) == StagedRows(old(StagedView()[sub]), rows)
    {
      hide KeyOf; hide EntityMap.Set;
      var staged := snapshots[sub];
      thrown := false;
      for i := 0 to |rows|
        invariant StagedRows(Staged(staged.events.m, staged.positions.m), rows[i..]) == StagedRows(old(StagedView()[sub]), rows)
      {
        assert rows[i..][0] == rows[i] && rows[i..][1..] == rows[i + 1..];
        if rows[i].Undecodable? { return true; }
        var event := rows[i].event;
        if event.streamSeq > At(staged.positions.m, event.stream) { return true; }
        staged.events.m := staged.events.m.Set(KeyOf(event), event);
      }
    }

    method Batch(sub: string, byteLength: nat, rowCount: nat, hasColumn: bool, rows: seq<Row>) returns (thrown: bool)
      requires Separate()
      modifies StagedEvents()
      ensures Separate() && Result(View(), thrown) == Batched(old(View()), sub, byteLength, rowCount, hasColumn, rows)
    {
      hide StagedRows;
      if sub !in snapshots { return true; }
      if byteLength > 1_048_576 || rowCount > 2048 { return true; }
      if |rows| != rowCount || !hasColumn { return true; }
      thrown := StageRows(sub, rows);
      assert StagedView() == old(StagedView())[sub := StagedRows(old(StagedView()[sub]), rows).0];
    }

    /** The staged maps become the working maps themselves. */
    method Install(sub: string)
      requires Separate() && sub in snapshots
      modifies `snapshots, `working, `notifyQueued, pendingMarket
      ensures Separate()
      ensures var staged := old(StagedView())[sub];
              View() == Queued(old(View()).(snapshots := old(StagedView()) - {sub}, pendingMarket := EMPTY, events := staged.events,
                                            positions := staged.positions, phase := Live))
    {
      hide Distinct;
      assert pendingMarket !in StagedEvents() by { PendingIsNotStaged(working, state, pendingMarket, snapshots); }
      var staged := snapshots[sub];
      var next := working.(events := staged.events, positions := staged.positions, phase := Live);
      InstalledIsDistinct(working, state, pendingMarket, snapshots, sub, next);
      snapshots := snapshots - {sub};
      pendingMarket.m := EMPTY;
      working := next;
      notifyQueued := true;
      assert StagedView() == old(StagedView()) - {sub};
    }

    method End(sub: string, marks: seq<Watermark>) returns (thrown: bool)
      requires Separate()
      modifies `snapshots, `working, `notifyQueued, `recoveries, pendingMarket
      ensures Separate() && Result(View(), thrown) == Ended(old(View()), sub, marks)
    {
      hide MarksOf;
      thrown := false;
      if sub in snapshots {
        var staged := snapshots[sub];
        if MarksOf(marks) != staged.positions.m { return true; }
        Install(sub);
      } else {
        if exists i :: 0 <= i < |marks| && At(working.positions.m, marks[i].stream) < marks[i].last { return true; }
        Patch(working.(phase := Live), []);
      }
    }

    method Pour()
      requires Separate() && pendingMarket.m.Valid()
      modifies working.events, pendingMarket
      ensures working.events.m == Poured(old(pendingMarket.m), old(pendingMarket.m).order, old(working.events.m)) && pendingMarket.m == EMPTY
    {
      hide EntityMap.Set;
      var from := pendingMarket.m;
      for i := 0 to |from.order|
        invariant pendingMarket.m == from
        invariant Poured(from, from.order[i..], working.events.m) == Poured(from, from.order, old(working.events.m))
      {
        assert from.order[i..][0] == from.order[i] && from.order[i..][1..] == from.order[i + 1..];
        working.events.m := working.events.m.Set(from.order[i], from.values[from.order[i]]);
      }
      pendingMarket.m := EMPTY;
    }

    /** The published maps are new objects, so later changes cannot reach them. */
    method Publish()
      requires Separate()
      modifies `working, `state
      ensures Separate() && fresh(state.events) && fresh(state.positions)
      ensures var s := old(View());
              View() == s.(version := s.version + 1, shown := Shown(s.version + 1, s.phase, s.events, s.positions, s.conflated,
                                                                    s.gaps, s.heartbeat))
    {
      working := working.(version := working.version + 1);
      var events := new EventMap(working.events.m);
      var positions := new PositionMap(working.positions.m);
      state := working.(events := events, positions := positions);
      assert StagedView() == old(StagedView());
    }

    /** Pending quotes land in the working map. */
    method PourPending()
      requires Separate() && pendingMarket.m.Valid()
      modifies working.events, pendingMarket
      ensures Separate()
      ensures View() == old(View()).(events := Poured(old(pendingMarket.m), old(pendingMarket.m).order, old(working.events.m)),
                                     pendingMarket := EMPTY)
    {
      hide Poured; hide EntityMap.Valid;
      Pour();
      assert StagedView() == old(StagedView());
    }

    /** The timer's callback. */
    method Tick()
      requires Valid()
      modifies `notifyQueued, `working, `state, working.events, pendingMarket
      ensures Valid() && View() == Flushed(old(View()))
      ensures old(notifyQueued) ==> fresh(state.events) && fresh(state.positions)
    {
      hide Poured; hide EntityMap.Valid;
      AdvanceKeepsMaps(View(), FlushTick);
      if !notifyQueued { return; }
      notifyQueued := false;
      PourPending();
      Publish();
    }

    method OnDisconnected()
      requires Valid()
      modifies this, working.events, pendingMarket
      ensures Valid() && View() == Dropped(old(View()))
    {
      hide Poured; hide EntityMap.Valid;
      AdvanceKeepsMaps(View(), Disconnect);
      snapshots := map[];
      Pour();
      Patch(working.(phase := Disconnected), []);
    }

    method OnConnecting()
      requires Separate()
      modifies this
      ensures Separate() && View() == Queued(old(View()).(phase := Connecting))
    {
      Patch(working.(phase := Connecting), []);
    }

    method Ingest(message: Message) returns (thrown: bool)
      requires Valid()
      modifies this, working.events, working.positions, pendingMarket, StagedEvents()
      ensures Valid() && Result(View(), thrown) == Ingested(old(View()), message)
    {
      hide MarksOf; hide Accepted; hide Begun; hide Batched; hide Ended; hide EntityMap.Valid;
      IngestKeepsMaps(View(), message);
      thrown := false;
      match message
      case SnapshotBegin(sub, marks) => thrown := Begin(sub, marks);
      case SnapshotBatch(sub, byteLength, rowCount, hasColumn, rows) => thrown := Batch(sub, byteLength, rowCount, hasColumn, rows);
      case SnapshotEnd(sub, marks) => thrown := End(sub, marks);
      case Event(event) => thrown := Accept(event);
      case Heartbeat(time) => Patch(working.(heartbeat := time), []);
      case SequenceGap(stream) =>
        Patch(working.(phase := Recovering, gaps := working.gaps + 1), [OneStream(stream, At(working.positions.m, stream))]);
      case ServerError(retryable) =>
        Patch(working.(phase := Recovering), if retryable then [AllStreams] else []);
        thrown := !retryable;
    }
  }
}
