/** Where critical delivery falls short: events that arrive while a snapshot is being sent are delivered again after it. */
module PipelineRewind {
  import opened Common
  import opened Events
  import opened ByteLines
  import opened OutboxProofs
  import opened StoreProofs
  import opened StoreDelivery
  import opened Pipeline
  import M = OutboxModel
  import A = Adapter
  import S = StoreModel

  // ---- In the store ---------------------------------------------------------------------------

  /** The snapshot's one watermark: where the stream stands before the event. */
  function MarkBefore(s: S.Store, e: Envelope): seq<S.Watermark> { [S.Watermark(e.stream, At(s.positions, e.stream))] }

  lemma OneMark(stream: string, last: nat)
    ensures S.MarksOf([S.Watermark(stream, last)]) == map[stream := last]
  {
    assert [S.Watermark(stream, last)][..0] == [];
  }

  lemma BeginKeepsPlace(s: S.Store, e: Envelope, sub: string)
    ensures var r := S.Begun(s, sub, MarkBefore(s, e));
            !r.thrown && r.store.positions == s.positions && r.store.delivered == s.delivered
            && sub in r.store.snapshots && r.store.snapshots[sub] == S.Staged(S.EMPTY, map[e.stream := At(s.positions, e.stream)])
  {
    hide S.MarksOf;
    OneMark(e.stream, At(s.positions, e.stream));
  }

  lemma AcceptDelivers(s: S.Store, e: Envelope)
    requires e.schemaVersion == 2 && e.streamSeq == At(s.positions, e.stream) + 1 && !IsMarket(e)
    ensures var t := S.Accepted(s, e).store;
            t.positions == s.positions[e.stream := e.streamSeq] && t.delivered == s.delivered + [e] && t.snapshots == s.snapshots
  {
    hide KeyOf; hide IsMarket; hide S.Trimmed;
  }

  lemma EndRewinds(s: S.Store, stream: string, last: nat, sub: string)
    requires sub in s.snapshots && s.snapshots[sub].positions == map[stream := last]
    ensures var r := S.Ended(s, sub, [S.Watermark(stream, last)]);
            !r.thrown && At(r.store.positions, stream) == last && r.store.delivered == s.delivered
  {
    hide S.MarksOf;
    OneMark(stream, last);
  }

  // ---- In the system --------------------------------------------------------------------------

  function Ingesting(m: S.Message): Move { Client(S.Ingest(m)) }

  /** The event has been sent, and it is the next critical event of its stream for the client. */
  ghost predicate NextCritical(s: System, n: nat) {
    && n in s.sent && n < |s.outbox.history|
    && !IsMarket(s.outbox.history[n].envelope)
    && s.outbox.history[n].envelope.streamSeq == At(s.store.positions, s.outbox.history[n].envelope.stream) + 1
  }

  lemma InvariantEnables(setup: M.Setup, s: System)
    requires Inv(setup, s)
    ensures |s.outbox.places| == |s.outbox.rows| && S.MapsValid(s.store)
  {
    hide LogsInv; hide SequencesInv; hide Within; hide Submap; hide Latest; hide S.Overlay;
    RowsGiveLengths(s.outbox);
    forall sub | sub in s.store.snapshots
      ensures s.store.snapshots[sub].events.Valid()
    {
      assert StagedOk(Published(s), s.store.snapshots[sub]);
    }
  }

  lemma EventIsEnabled(setup: M.Setup, s: System, n: nat)
    requires Inv(setup, s) && n in s.sent && n < |s.outbox.history|
    ensures Enabled(setup, s, Ingesting(S.Event(s.outbox.history[n].envelope)))
    ensures s.outbox.history[n].envelope.schemaVersion == 2
  {
    hide LogsInv; hide StoreInv; hide RowsInv; hide M.Reads; hide M.Pending; hide S.MapsValid; hide M.Envelopes;
    InvariantEnables(setup, s);
    EnvelopesAt(s.outbox.history, n);
    WellFormedEntry(M.Envelopes(s.outbox.history), n);
  }

  lemma BeginIsEnabled(setup: M.Setup, s: System, e: Envelope, sub: string)
    requires Inv(setup, s)
    ensures Enabled(setup, s, Ingesting(S.SnapshotBegin(sub, MarkBefore(s.store, e))))
  {
    hide LogsInv; hide RowsInv; hide SequencesInv; hide M.Reads; hide M.Pending; hide S.MapsValid; hide Submap; hide Latest; hide StagedOk; hide S.MarksOf;
    InvariantEnables(setup, s);
    OneMark(e.stream, At(s.store.positions, e.stream));
  }

  lemma EndIsEnabled(setup: M.Setup, s: System, sub: string, marks: seq<S.Watermark>)
    requires Inv(setup, s)
    ensures Enabled(setup, s, Ingesting(S.SnapshotEnd(sub, marks)))
  {
    hide LogsInv; hide RowsInv; hide SequencesInv; hide M.Reads; hide M.Pending; hide S.MapsValid; hide StoreInv;
    InvariantEnables(setup, s);
  }

  /** A client move keeps the system but for its store. */
  lemma IngestedIs(setup: M.Setup, s: System, m: S.Message)
    requires Inv(setup, s) && Enabled(setup, s, Ingesting(m))
    ensures var t := Next(setup, s, Ingesting(m));
            Inv(setup, t) && t.store == S.Ingested(s.store, m).store && t.outbox == s.outbox && t.sent == s.sent
  {
    hide Inv; hide StillComplete; hide S.Ingested; hide M.Acknowledge; hide M.Stage; hide M.Reads; hide M.Pending; hide Channel; hide S.MapsValid;
    MoveKeeps(setup, s, Ingesting(m));
  }

  datatype Rewind = Rewind(begun: System, accepted: System, ended: System, again: System)

  ghost predicate Follows(setup: M.Setup, s: System, move: Move, t: System) { Enabled(setup, s, move) && Next(setup, s, move) == t }

  /** From every state of a run in which the client's next critical event has been sent: a snapshot begins, the event arrives, the
      snapshot ends at its own earlier watermark, the position goes back, and the event is delivered a second time. */
  lemma SnapshotRedelivers(setup: M.Setup, s: System, n: nat, sub: string) returns (r: Rewind)
    requires Inv(setup, s) && NextCritical(s, n)
    ensures var e := s.outbox.history[n].envelope; var marks := MarkBefore(s.store, e);
            && Follows(setup, s, Ingesting(S.SnapshotBegin(sub, marks)), r.begun)
            && Follows(setup, r.begun, Ingesting(S.Event(e)), r.accepted)
            && Follows(setup, r.accepted, Ingesting(S.SnapshotEnd(sub, marks)), r.ended)
            && Follows(setup, r.ended, Ingesting(S.Event(e)), r.again)
            && At(r.ended.store.positions, e.stream) < At(r.accepted.store.positions, e.stream)
            && r.again.store.delivered == s.store.delivered + [e, e]
            && r.again.outbox == s.outbox && At(r.again.store.positions, e.stream) == e.streamSeq
  {
    hide Inv; hide Enabled; hide Next; hide S.Begun; hide S.Accepted; hide S.Ended; hide IsMarket;
    var e := s.outbox.history[n].envelope;
    var marks := MarkBefore(s.store, e);
    BeginIsEnabled(setup, s, e, sub);
    IngestedIs(setup, s, S.SnapshotBegin(sub, marks));
    var begun := Next(setup, s, Ingesting(S.SnapshotBegin(sub, marks)));
    BeginKeepsPlace(s.store, e, sub);
    EventIsEnabled(setup, begun, n);
    IngestedIs(setup, begun, S.Event(e));
    var accepted := Next(setup, begun, Ingesting(S.Event(e)));
    AcceptDelivers(begun.store, e);
    EndIsEnabled(setup, accepted, sub, marks);
    IngestedIs(setup, accepted, S.SnapshotEnd(sub, marks));
    var ended := Next(setup, accepted, Ingesting(S.SnapshotEnd(sub, marks)));
    EndRewinds(accepted.store, e.stream, At(s.store.positions, e.stream), sub);
    EventIsEnabled(setup, ended, n);
    IngestedIs(setup, ended, S.Event(e));
    var again := Next(setup, ended, Ingesting(S.Event(e)));
    AcceptDelivers(ended.store, e);
    r := Rewind(begun, accepted, ended, again);
  }

  /** So deliveries and positions part: the listeners have had one critical event more than the log has up to the position. */
  lemma RedeliveryIsTwice(setup: M.Setup, s: System, n: nat, r: Rewind)
    requires Inv(setup, s) && NextCritical(s, n) && DeliveredOnce(Published(s), s.store)
    requires var e := s.outbox.history[n].envelope;
             r.again.store.delivered == s.store.delivered + [e, e] && r.again.outbox == s.outbox && At(r.again.store.positions, e.stream) == e.streamSeq
    ensures !DeliveredOnce(Published(r.again), r.again.store)
  {
    hide Inv; hide DeliveredOnce; hide M.Envelopes; hide IsMarket;
    EnvelopesAt(s.outbox.history, n);
    InvariantIsNumbered(setup, s);
    TwiceIsNotOnce(Published(s), n, s.store, r.again.store);
  }

  lemma TwiceIsNotOnce(h: Log, n: nat, was: S.Store, now: S.Store)
    requires Numbered(h) && n < |h| && !IsMarket(h[n]) && h[n].streamSeq == At(was.positions, h[n].stream) + 1
    requires DeliveredOnce(h, was) && now.delivered == was.delivered + [h[n], h[n]] && At(now.positions, h[n].stream) == h[n].streamSeq
    ensures !DeliveredOnce(h, now)
  {
    hide Critical; hide OnStream; hide IsMarket; hide Numbered;
    var e := h[n];
    CriticalAdvances(h, n);
    OnStreamAppend(was.delivered, e, e.stream);
    OnStreamAppend(was.delivered + [e], e, e.stream);
    assert was.delivered + [e] + [e] == now.delivered;
    assert OnStream(was.delivered, e.stream) == Critical(h, e.stream, At(was.positions, e.stream));
  }

  // ---- From the empty system ------------------------------------------------------------------

  function FirstItem(record: M.Record, line: Bytes, minted: string): seq<M.Item> { [M.Item(record, |line|, minted)] }

  lemma LineIsStaged(setup: M.Setup, source: string, line: Bytes, record: M.Record, minted: string, now: int, o: M.Tables)
    requires IsLine(line) && M.ReadLine(setup, source, line) == Some(record) && M.MapEvent(record, map[], minted, now).Ok?
    requires o.offsets == map[source := 0] && o.sequences == map[] && o.rows == [] && o.history == [] && o.places == []
    ensures M.Reads(setup, source, line, 0, FirstItem(record, line, minted))
    ensures var r := M.Stage(o, source, FirstItem(record, line, minted), now);
            var e := M.MapEvent(record, map[], minted, now).value;
            r.Ok? && r.value.rows == [M.Row(1, source, e)] && r.value.history == [M.Entry(source, record, e)] && r.value.places == [0]
  {
    hide M.MapEvent; hide M.ReadLine;
    assert line[0..|line|] == line;
    var batch := FirstItem(record, line, minted);
    assert batch[1..] == [];
    var one := M.StageOne(o, source, record, |line|, minted, now);
    assert one.Ok?;
    assert M.StageAll(one.value, source, batch[1..], now) == M.Ok(one.value);
  }

  lemma AdapterStarts(setup: M.Setup, source: string, identity: string, line: Bytes) returns (written: System, named: System, started: System)
    ensures Follows(setup, START, Append(identity, line), written) && Follows(setup, written, Name(source, identity), named)
    ensures Follows(setup, named, Start(source), started)
    ensures started.store == S.INITIAL && started.sent == {} && started.inodes == map[identity := line]
            && started.running == Some(Process(source, identity, 0))
            && started.outbox == M.EMPTY_OUTBOX.(offsets := map[source := 0], identities := map[source := identity])
  {
    written := Next(setup, START, Append(identity, line));
    assert [] + line == line;
    named := Next(setup, written, Name(source, identity));
    started := Next(setup, named, Start(source));
  }

  lemma LineIsFilled(setup: M.Setup, source: string, identity: string, line: Bytes, record: M.Record, minted: string, now: int, s: System)
    returns (staged: System)
    requires IsLine(line) && M.ReadLine(setup, source, line) == Some(record) && M.MapEvent(record, map[], minted, now).Ok?
    requires s.store == S.INITIAL && identity in s.inodes && s.inodes[identity] == line && s.running == Some(Process(source, identity, 0))
    requires s.outbox == M.EMPTY_OUTBOX.(offsets := map[source := 0], identities := map[source := identity])
    ensures Follows(setup, s, Fill(FirstItem(record, line, minted), now), staged)
    ensures var e := M.MapEvent(record, map[], minted, now).value;
            staged.outbox.rows == [M.Row(1, source, e)] && staged.outbox.history == [M.Entry(source, record, e)] && staged.outbox.places == [0]
            && staged.store == S.INITIAL && staged.running.Some? && staged.running.value.source == source
  {
    hide M.MapEvent; hide M.ReadLine; hide IsLine; hide M.Stage; hide M.Reads; hide S.INITIAL; hide M.Pending; hide FirstItem; hide M.EndOf;
    LineIsStaged(setup, source, line, record, minted, now, s.outbox);
    NothingPending(s.outbox, source);
    InitialIsValid();
    staged := Next(setup, s, Fill(FirstItem(record, line, minted), now));
  }

  lemma RowIsSent(setup: M.Setup, s: System) returns (sent: System)
    requires |s.outbox.rows| == 1 && |s.outbox.places| == 1 && s.store == S.INITIAL
    requires s.running.Some? && s.running.value.source == s.outbox.rows[0].source
    ensures Follows(setup, s, Drain(1, [true], []), sent)
    ensures sent.store == S.INITIAL && sent.outbox.history == s.outbox.history && s.outbox.places[0] in sent.sent
  {
    hide S.INITIAL; hide M.Pending; hide S.MapsValid;
    OnePending(s.outbox, s.running.value.source);
    InitialIsValid();
    NoneAcked(s.outbox.rows[0]);
    sent := Next(setup, s, Drain(1, [true], []));
    assert s.outbox.rows[0] in [s.outbox.rows[0]];
    assert s.outbox.places[0] in Places(s.outbox, M.Pending(s.outbox, s.running.value.source, 256)[..1]);
  }

  lemma NoneAcked(row: M.Row)
    ensures A.Acked([row], [true], []) == [] && A.Ids([]) == []
  {
    assert [row][..0] == [] && A.Acked([], [true], []) == [];
  }

  lemma InitialIsValid()
    ensures S.MapsValid(S.INITIAL)
  {}

  lemma NothingPending(o: M.Tables, source: string)
    requires o.rows == []
    ensures M.Pending(o, source, 256) == []
  {}

  lemma OnePending(o: M.Tables, source: string)
    requires |o.rows| == 1 && o.rows[0].source == source
    ensures M.Pending(o, source, 256) == o.rows && M.Pending(o, source, 256)[..1] == [o.rows[0]]
  {
    assert o.rows[..0] == [] && o.rows == [o.rows[0]];
    assert M.OfSource([], source) == [];
    assert M.OfSource(o.rows, source) == [o.rows[0]];
  }

  /** For any critical record that can be the first of a log: a run of nine moves from the empty system in which the client's position
      goes back and its listeners get the event twice. */
  lemma CriticalEventTwice(setup: M.Setup, source: string, identity: string, line: Bytes, record: M.Record, minted: string, now: int, sub: string)
    returns (states: seq<System>, moves: seq<Move>)
    requires IsLine(line) && M.ReadLine(setup, source, line) == Some(record)
    requires M.MapEvent(record, map[], minted, now).Ok? && !IsMarket(M.MapEvent(record, map[], minted, now).value)
    ensures IsRun(setup, states, moves) && |moves| == 9
    ensures var e := M.MapEvent(record, map[], minted, now).value;
            states[9].store.delivered == [e, e] && At(states[8].store.positions, e.stream) < At(states[7].store.positions, e.stream)
    ensures !DeliveredOnce(Published(states[9]), states[9].store)
  {
    hide M.MapEvent; hide M.ReadLine; hide IsLine; hide Enabled; hide Next; hide Inv; hide IsMarket; hide DeliveredOnce; hide S.INITIAL;
    var e := M.MapEvent(record, map[], minted, now).value;
    MapEventIsNext(record, map[], minted, now);
    var written, named, started := AdapterStarts(setup, source, identity, line);
    var staged := LineIsFilled(setup, source, identity, line, record, minted, now, started);
    var sent := RowIsSent(setup, staged);
    StartHolds(setup);
    MoveKeeps(setup, START, Append(identity, line));
    MoveKeeps(setup, written, Name(source, identity));
    MoveKeeps(setup, named, Start(source));
    MoveKeeps(setup, started, Fill(FirstItem(record, line, minted), now));
    MoveKeeps(setup, staged, Drain(1, [true], []));
    assert Numbered(Published(sent)) by { InvariantIsNumbered(setup, sent); }
    NothingSeenYet(Published(sent));
    var r := SnapshotRedelivers(setup, sent, 0, sub);
    RedeliveryIsTwice(setup, sent, 0, r);
    var marks := MarkBefore(sent.store, e);
    moves := [Append(identity, line), Name(source, identity), Start(source), Fill(FirstItem(record, line, minted), now), Drain(1, [true], []),
              Ingesting(S.SnapshotBegin(sub, marks)), Ingesting(S.Event(e)), Ingesting(S.SnapshotEnd(sub, marks)), Ingesting(S.Event(e))];
    states := [START, written, named, started, staged, sent, r.begun, r.accepted, r.ended, r.again];
    forall i | 0 <= i < |moves|
      ensures Follows(setup, states[i], moves[i], states[i + 1])
    {}
  }

  lemma InvariantIsNumbered(setup: M.Setup, s: System)
    requires Inv(setup, s)
    ensures Numbered(Published(s))
  {
    TablesAreNumbered(s.outbox);
  }
}
