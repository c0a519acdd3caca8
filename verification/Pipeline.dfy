/** From the log file to the screen: the adapter, a lossy channel and the client store as one system. */
module Pipeline {
  import opened Common
  import opened Events
  import opened EventKeys
  import opened ByteLines
  import opened OutboxMeaning
  import opened OutboxProofs
  import opened StoreProofs
  import opened StoreDelivery
  import M = OutboxModel
  import S = StoreModel
  import A = Adapter

  datatype Process = Process(source: string, identity: string, position: nat)

  /** inodes are the files by device and inode, paths the file each source path names now; sent lists the stagings whose
      publication was ever tried, acknowledged those that the bus ever confirmed to an adapter; complete says whether the client
      still shows every entity. */
  datatype System = System(inodes: map<string, Bytes>, paths: map<string, string>, outbox: M.Tables, running: Option<Process>,
                           sent: set<nat>, acknowledged: set<nat>, store: S.Store, complete: bool)

  /** In a drain, the bus's answers to publications (oks) and their acknowledgements (acks). An interrupted drain has tried some rows
      and deletes none, whatever was acknowledged. */
  datatype Move =
    | Append(identity: string, bytes: Bytes)
    | Name(source: string, identity: string)
    | Start(source: string)
    | Crash
    | Drain(tried: nat, oks: seq<bool>, acks: seq<bool>)
    | Interrupt(tried: nat, oks: seq<bool>, acks: seq<bool>)
    | Fill(batch: seq<M.Item>, now: int)
    | Client(step: S.Step)
    | Reload

  const START := System(map[], map[], M.EMPTY_OUTBOX, None, {}, {}, S.INITIAL, true)

  function Published(s: System): Log { M.Envelopes(s.outbox.history) }

  /** What the client may be sent: any event whose publication was tried, and snapshots of a log prefix. */
  ghost predicate Channel(s: System, step: S.Step) {
    && (step.Ingest? && step.message.Event? ==>
          exists n :: n in s.sent && n < |s.outbox.history| && s.outbox.history[n].envelope == step.message.event)
    && (step.Ingest? && !step.message.Event? ==> Authentic(Published(s), s.store, step.message))
  }

  function Places(o: M.Tables, rows: seq<M.Row>): set<nat>
    requires |o.places| == |o.rows|
  {
    set k | 0 <= k < |o.rows| && o.rows[k] in rows :: o.places[k]
  }

  /** The rows were tried, and some of them acknowledged. */
  function Told(s: System, rows: seq<M.Row>, oks: seq<bool>, acks: seq<bool>): System
    requires |s.outbox.places| == |s.outbox.rows|
  {
    s.(sent := s.sent + Places(s.outbox, rows), acknowledged := s.acknowledged + Places(s.outbox, A.Acked(rows, oks, acks)))
  }

  /** The last two conditions hold in every reachable state; they make the moves well defined. */
  ghost predicate Enabled(setup: M.Setup, s: System, move: Move) {
    && (match move
        case Append(identity, _) => true
        case Name(_, _) => true
        case Start(source) =>
          && s.running.None? && source in s.paths && s.paths[source] in s.inodes
          && (source in s.outbox.identities ==> s.outbox.identities[source] == s.paths[source])
          && At(s.outbox.offsets, source) <= |s.inodes[s.paths[source]]|
        case Crash => true
        case Drain(tried, oks, _) =>
          && s.running.Some?
          && var pending := M.Pending(s.outbox, s.running.value.source, 256);
             pending != [] && A.EndsAtFailure(oks, tried, |pending|)
        case Interrupt(tried, oks, _) =>
          && s.running.Some?
          && tried <= |M.Pending(s.outbox, s.running.value.source, 256)| && forall j :: 0 <= j < tried - 1 ==> A.Yes(oks, j)
        case Fill(batch, _) =>
          && s.running.Some? && s.running.value.identity in s.inodes
          && M.Pending(s.outbox, s.running.value.source, 256) == []
          && M.Reads(setup, s.running.value.source, s.inodes[s.running.value.identity], s.running.value.position, batch)
        case Client(step) => Channel(s, step)
        case Reload => true)
    && |s.outbox.places| == |s.outbox.rows| && S.MapsValid(s.store)
  }

  ghost function Next(setup: M.Setup, s: System, move: Move): System
    requires Enabled(setup, s, move)
  {
    match move
    case Append(identity, bytes) =>
      s.(inodes := s.inodes[identity := (if identity in s.inodes then s.inodes[identity] else []) + bytes])
    case Name(source, identity) => s.(paths := s.paths[source := identity])
    case Start(source) =>
      var bound := M.Opened(s.outbox, source);
      s.(outbox := bound.(identities := bound.identities[source := s.paths[source]]),
         running := Some(Process(source, s.paths[source], At(bound.offsets, source))))
    case Crash => s.(running := None)
    case Drain(tried, oks, acks) =>
      var source := s.running.value.source;
      var rows := M.Pending(s.outbox, source, 256)[..tried];
      Told(s, rows, oks, acks).(outbox := M.Acknowledge(s.outbox, source, A.Ids(A.Acked(rows, oks, acks))))
    case Interrupt(tried, oks, acks) =>
      Told(s, M.Pending(s.outbox, s.running.value.source, 256)[..tried], oks, acks).(running := None)
    case Fill(batch, now) =>
      (match M.Stage(s.outbox, s.running.value.source, batch, now)
       case Err(_) => s.(running := None)
       case Ok(staged) =>
         s.(outbox := staged, running := Some(s.running.value.(position := M.EndOf(s.running.value.position, batch)))))
    case Client(step) => s.(store := S.Advance(s.store, step), complete := StillComplete(Published(s), s.store, step, s.complete))
    case Reload => s.(store := S.INITIAL, complete := true)
  }

  // ---- The invariant --------------------------------------------------------------------------

  ghost predicate LogsInv(setup: M.Setup, o: M.Tables, inodes: map<string, Bytes>) {
    forall source ::
      if source in o.identities then o.identities[source] in inodes && LogInv(setup, o, source, inodes[o.identities[source]])
      else LogInv(setup, o, source, [])
  }

  ghost predicate ReaderInv(s: System) {
    s.running.Some? ==>
      var p := s.running.value;
      p.source in s.outbox.identities && s.outbox.identities[p.source] == p.identity && p.position == At(s.outbox.offsets, p.source)
  }

  /** Only what the bus acknowledged is ever deleted, and it acknowledged only what was tried. */
  ghost predicate SentInv(s: System) {
    s.outbox.confirmed <= s.acknowledged <= s.sent && forall n :: n in s.sent ==> n < |s.outbox.history|
  }

  ghost predicate Inv(setup: M.Setup, s: System) {
    && TableInv(s.outbox) && LogsInv(setup, s.outbox, s.inodes) && ReaderInv(s) && SentInv(s)
    && StoreInv(Published(s), s.store, s.complete)
  }

  lemma {:induction false} EnvelopesAt(history: seq<M.Entry>, n: nat)
    requires n < |history|
    ensures |M.Envelopes(history)| == |history| && M.Envelopes(history)[n] == history[n].envelope
  {
    if n < |history| - 1 {
      EnvelopesAt(history[..|history| - 1], n);
    } else if |history| > 1 {
      EnvelopesAt(history[..|history| - 1], 0);
    }
  }

  lemma {:induction false} EnvelopesGrow(history: seq<M.Entry>, longer: seq<M.Entry>) returns (more: Log)
    requires history <= longer
    ensures M.Envelopes(longer) == M.Envelopes(history) + more
    decreases |longer|
  {
    if |longer| == |history| {
      assert longer == history;
      more := [];
    } else {
      var init := EnvelopesGrow(history, longer[..|longer| - 1]);
      more := init + [longer[|longer| - 1].envelope];
    }
  }

  lemma AppendKeeps(setup: M.Setup, s: System, identity: string, bytes: Bytes)
    requires LogsInv(setup, s.outbox, s.inodes) && Enabled(setup, s, Append(identity, bytes))
    ensures LogsInv(setup, s.outbox, Next(setup, s, Append(identity, bytes)).inodes)
  {
    hide LogInv; hide M.Acknowledge; hide M.Stage;
    var o := s.outbox;
    forall source
      ensures source in o.identities && o.identities[source] == identity && identity in s.inodes ==>
                LogInv(setup, o, source, s.inodes[identity] + bytes)
    {
      if source in o.identities && o.identities[source] == identity && identity in s.inodes {
        LogGrows(setup, o, source, s.inodes[identity], s.inodes[identity] + bytes);
      }
    }
  }

  lemma StartKeeps(setup: M.Setup, s: System, source: string)
    requires Inv(setup, s) && Enabled(setup, s, Start(source))
    ensures Inv(setup, Next(setup, s, Start(source)))
  {
    hide StoreInv; hide RowsInv; hide SequencesInv; hide MappedFrom; hide M.RecordsOf; hide M.ReadLines; hide Lines; hide M.Stage; hide M.Acknowledge;
    hide Channel; hide Authentic;
    var n := Next(setup, s, Start(source));
    OpenKeepsTables(s.outbox, source, s.paths[source]);
    forall other
      ensures other in n.outbox.identities ==> LogInv(setup, n.outbox, other, n.inodes[n.outbox.identities[other]])
      ensures other !in n.outbox.identities ==> LogInv(setup, n.outbox, other, [])
    {
      OpenKeepsLog(setup, s, source, other);
    }
  }

  lemma OpenKeepsTables(o: M.Tables, source: string, identity: string)
    requires TableInv(o)
    ensures TableInv(M.Opened(o, source).(identities := M.Opened(o, source).identities[source := identity]))
  {}

  lemma OpenKeepsLog(setup: M.Setup, s: System, source: string, other: string)
    requires LogsInv(setup, s.outbox, s.inodes) && Enabled(setup, s, Start(source))
    ensures var n := Next(setup, s, Start(source));
            if other in n.outbox.identities then n.outbox.identities[other] in n.inodes && LogInv(setup, n.outbox, other, n.inodes[n.outbox.identities[other]])
            else LogInv(setup, n.outbox, other, [])
  {}

  // ---- Draining and filling -------------------------------------------------------------------

  lemma {:induction false} OfSourceMembers(rows: seq<M.Row>, source: string)
    ensures forall row :: row in M.OfSource(rows, source) <==> row in rows && row.source == source
  {
    if rows != [] {
      OfSourceMembers(rows[..|rows| - 1], source);
      assert forall row :: row in rows <==> row in rows[..|rows| - 1] || row == rows[|rows| - 1];
    }
  }

  /** Acknowledging confirms nothing but rows of the source with one of the identifiers. */
  lemma {:induction false} AcknowledgeConfirms(o: M.Tables, source: string, ids: seq<nat>, allowed: set<nat>)
    requires |o.places| == |o.rows|
    requires forall k :: 0 <= k < |o.rows| && o.rows[k].source == source && o.rows[k].id in ids ==> o.places[k] in allowed
    ensures o.confirmed <= M.Acknowledge(o, source, ids).confirmed <= o.confirmed + allowed
    decreases |ids|
  {
    hide M.IndexOf;
    if ids != [] {
      var k := M.IndexOf(o.rows, source, ids[0]);
      if k < |o.rows| {
        WithoutAt(o.rows, k);
        WithoutAt(o.places, k);
      }
      AcknowledgeConfirms(M.Delete(o, source, ids[0]), source, ids[1..], allowed);
    }
  }

  ghost predicate KeysDistinct(rows: seq<M.Row>) { forall i, j :: 0 <= i < j < |rows| ==> rows[i].id != rows[j].id }

  /** And it confirms every such row. */
  lemma {:induction false} AcknowledgeReaches(o: M.Tables, source: string, ids: seq<nat>, k: nat)
    requires |o.places| == |o.rows| && KeysDistinct(o.rows) && k < |o.rows| && o.rows[k].source == source && o.rows[k].id in ids
    ensures o.places[k] in M.Acknowledge(o, source, ids).confirmed
    decreases |ids|
  {
    hide M.IndexOf;
    var d, i := M.Delete(o, source, ids[0]), M.IndexOf(o.rows, source, ids[0]);
    if i == k {
      AcknowledgeConfirms(d, source, ids[1..], set j | 0 <= j < |d.rows| :: d.places[j]);
    } else {
      if i < |o.rows| {
        WithoutAt(o.rows, i);
        WithoutAt(o.places, i);
      }
      AcknowledgeReaches(d, source, ids[1..], if i < k then k - 1 else k);
    }
  }

  /** A drain deletes exactly the rows that were tried and that the bus acknowledged. */
  lemma DrainDeletesAcknowledged(o: M.Tables, source: string, tried: nat, oks: seq<bool>, acks: seq<bool>)
    requires RowsInv(o) && tried <= |M.Pending(o, source, 256)|
    ensures var rows := M.Pending(o, source, 256)[..tried]; var acked := A.Acked(rows, oks, acks);
            && M.Acknowledge(o, source, A.Ids(acked)).confirmed == o.confirmed + Places(o, acked)
            && Places(o, acked) <= Places(o, rows) && forall n :: n in Places(o, rows) ==> n < |o.history|
  {
    hide M.Acknowledge; hide Unconfirmed; hide A.Acked;
    var rows := M.Pending(o, source, 256)[..tried];
    var acked := A.Acked(rows, oks, acks);
    OfSourceMembers(o.rows, source);
    forall row | row in acked
      ensures row in rows
    {
      A.AckedMeans(rows, oks, acks, row);
    }
    forall k | 0 <= k < |o.rows| && o.rows[k].source == source && o.rows[k].id in A.Ids(acked)
      ensures o.places[k] in Places(o, acked)
    {
      KeyIsRow(o, source, rows, acked, k);
    }
    AcknowledgeConfirms(o, source, A.Ids(acked), Places(o, acked));
    forall k | 0 <= k < |o.rows| && o.rows[k] in acked
      ensures o.places[k] in M.Acknowledge(o, source, A.Ids(acked)).confirmed
    {
      var j :| 0 <= j < |acked| && acked[j] == o.rows[k];
      assert A.Ids(acked)[j] == o.rows[k].id;
      AcknowledgeReaches(o, source, A.Ids(acked), k);
    }
  }

  lemma KeyIsRow(o: M.Tables, source: string, rows: seq<M.Row>, acked: seq<M.Row>, k: nat)
    requires |o.places| == |o.rows| && RowsRise(o.rows, o.places) && k < |o.rows| && o.rows[k].id in A.Ids(acked)
    requires forall row :: row in acked ==> row in o.rows
    ensures o.rows[k] in acked
  {
    var j :| 0 <= j < |acked| && A.Ids(acked)[j] == o.rows[k].id;
    assert acked[j] in acked;
    var i :| 0 <= i < |o.rows| && o.rows[i] == acked[j];
    assert i == k;
  }

  lemma DrainKeeps(setup: M.Setup, s: System, tried: nat, oks: seq<bool>, acks: seq<bool>)
    requires Inv(setup, s) && Enabled(setup, s, Drain(tried, oks, acks))
    ensures Inv(setup, Next(setup, s, Drain(tried, oks, acks)))
  {
    hide StoreInv; hide RowsInv; hide SequencesInv; hide MappedFrom; hide LogInv; hide M.Pending; hide M.Acknowledge; hide M.Stage; hide Authentic;
    hide A.Acked; hide Places;
    var source := s.running.value.source;
    var ids := A.Ids(A.Acked(M.Pending(s.outbox, source, 256)[..tried], oks, acks));
    AcknowledgeKeepsTables(s.outbox, source, ids);
    DrainDeletesAcknowledged(s.outbox, source, tried, oks, acks);
    var n := Next(setup, s, Drain(tried, oks, acks));
    forall other
      ensures other in n.outbox.identities ==> LogInv(setup, n.outbox, other, n.inodes[n.outbox.identities[other]])
      ensures other !in n.outbox.identities ==> LogInv(setup, n.outbox, other, [])
    {
      var log := if other in s.outbox.identities then s.inodes[s.outbox.identities[other]] else [];
      AcknowledgeLeavesLogs(setup, s.outbox, source, ids, other, log);
    }
  }

  lemma InterruptKeeps(setup: M.Setup, s: System, tried: nat, oks: seq<bool>, acks: seq<bool>)
    requires Inv(setup, s) && Enabled(setup, s, Interrupt(tried, oks, acks))
    ensures Inv(setup, Next(setup, s, Interrupt(tried, oks, acks)))
  {
    hide StoreInv; hide RowsInv; hide SequencesInv; hide MappedFrom; hide LogInv; hide M.Pending; hide M.Acknowledge; hide M.Stage; hide Authentic;
    hide A.Acked; hide Places;
    DrainDeletesAcknowledged(s.outbox, s.running.value.source, tried, oks, acks);
  }

  lemma AcknowledgeLeavesLogs(setup: M.Setup, o: M.Tables, source: string, ids: seq<nat>, other: string, log: Bytes)
    requires TableInv(o) && |o.places| == |o.rows| && LogInv(setup, o, other, log)
    ensures LogInv(setup, M.Acknowledge(o, source, ids), other, log)
  {
    hide M.Acknowledge; hide TableInv;
    AcknowledgeKeepsTables(o, source, ids);
  }

  lemma FillKeepsLogs(setup: M.Setup, s: System, batch: seq<M.Item>, now: int)
    requires Inv(setup, s) && Enabled(setup, s, Fill(batch, now))
    ensures LogsInv(setup, Next(setup, s, Fill(batch, now)).outbox, s.inodes) && ReaderInv(Next(setup, s, Fill(batch, now)))
  {
    hide StoreInv; hide TableInv; hide LogInv; hide M.Pending; hide M.Acknowledge; hide M.StageAll; hide M.Reads; hide M.EndOf;
    hide Authentic; hide SentInv;
    var source := s.running.value.source;
    var log := s.inodes[s.running.value.identity];
    StageAllKeepsLog(setup, s.outbox, source, log, batch, now);
    StageAllGrows(s.outbox, source, batch, now);
    var r := M.Stage(s.outbox, source, batch, now);
    if r.Ok? {
      forall other | other != source
        ensures other in r.value.identities ==> LogInv(setup, r.value, other, s.inodes[r.value.identities[other]])
        ensures other !in r.value.identities ==> LogInv(setup, r.value, other, [])
      {
        var its := if other in s.outbox.identities then s.inodes[s.outbox.identities[other]] else [];
        StageAllKeepsOthers(setup, s.outbox, source, other, its, batch, now);
      }
    }
  }

  lemma FillKeepsRest(setup: M.Setup, s: System, batch: seq<M.Item>, now: int)
    requires Inv(setup, s) && Enabled(setup, s, Fill(batch, now))
    ensures var n := Next(setup, s, Fill(batch, now));
            TableInv(n.outbox) && SentInv(n) && StoreInv(Published(n), n.store, n.complete)
  {
    hide StoreInv; hide LogsInv; hide TableInv; hide M.Pending; hide M.Acknowledge; hide M.StageAll; hide M.Reads; hide M.EndOf; hide Authentic;
    hide M.Envelopes; hide ReaderInv;
    var source := s.running.value.source;
    StageAllKeepsTables(s.outbox, source, batch, now);
    var n := Next(setup, s, Fill(batch, now));
    if M.Stage(s.outbox, source, batch, now).Ok? {
      var more := EnvelopesGrow(s.outbox.history, n.outbox.history);
      TablesAreNumbered(n.outbox);
      GrowthKeeps(Published(s), more, s.store, s.complete);
    }
  }

  lemma TablesAreNumbered(o: M.Tables)
    requires TableInv(o)
    ensures Numbered(M.Envelopes(o.history))
  {}

  // ---- The client -----------------------------------------------------------------------------

  lemma ChannelIsAuthentic(s: System, step: S.Step)
    requires Channel(s, step)
    ensures step.Ingest? ==> Authentic(Published(s), s.store, step.message)
  {
    hide M.Envelopes;
    if step.Ingest? && step.message.Event? {
      var n :| n in s.sent && n < |s.outbox.history| && s.outbox.history[n].envelope == step.message.event;
      EnvelopesAt(s.outbox.history, n);
    }
  }

  lemma ClientKeeps(setup: M.Setup, s: System, step: S.Step)
    requires Inv(setup, s) && Enabled(setup, s, Client(step))
    ensures Inv(setup, Next(setup, s, Client(step)))
  {
    hide StoreInv; hide LogsInv; hide RowsInv; hide SequencesInv; hide M.Pending; hide M.Acknowledge; hide M.Stage; hide M.Reads; hide Channel;
    hide M.Envelopes; hide S.Advance; hide StillComplete; hide S.MapsValid;
    ChannelIsAuthentic(s, step);
    assert Numbered(Published(s)) by { TablesAreNumbered(s.outbox); }
    StepKeeps(Published(s), s.store, step, s.complete);
  }

  lemma MoveKeeps(setup: M.Setup, s: System, move: Move)
    requires Inv(setup, s) && Enabled(setup, s, move)
    ensures Inv(setup, Next(setup, s, move))
  {
    hide StoreInv; hide TableInv; hide LogInv; hide M.Pending; hide M.Acknowledge; hide M.Stage; hide M.Reads; hide M.EndOf; hide Channel;
    hide M.Envelopes; hide S.Advance; hide StillComplete; hide S.MapsValid;
    match move
    case Append(identity, bytes) => AppendKeeps(setup, s, identity, bytes);
    case Name(_, _) =>
    case Start(source) => StartKeeps(setup, s, source);
    case Crash =>
    case Drain(tried, oks, acks) => DrainKeeps(setup, s, tried, oks, acks);
    case Interrupt(tried, oks, acks) => InterruptKeeps(setup, s, tried, oks, acks);
    case Fill(batch, now) =>
      FillKeepsLogs(setup, s, batch, now);
      FillKeepsRest(setup, s, batch, now);
    case Client(step) => ClientKeeps(setup, s, step);
    case Reload =>
      TablesAreNumbered(s.outbox);
      InitialHolds(Published(s));
  }

  // ---- Whole runs -----------------------------------------------------------------------------

  ghost predicate IsRun(setup: M.Setup, states: seq<System>, moves: seq<Move>) {
    && |states| == |moves| + 1 && states[0] == START
    && forall i :: 0 <= i < |moves| ==> Enabled(setup, states[i], moves[i]) && states[i + 1] == Next(setup, states[i], moves[i])
  }

  lemma StartHolds(setup: M.Setup)
    ensures Inv(setup, START)
  {}

  lemma {:induction false} RunKeeps(setup: M.Setup, states: seq<System>, moves: seq<Move>, i: nat)
    requires IsRun(setup, states, moves) && i < |states|
    ensures Inv(setup, states[i])
  {
    hide Inv; hide Enabled; hide Next;
    if i == 0 {
      StartHolds(setup);
    } else {
      RunKeeps(setup, states, moves, i - 1);
      MoveKeeps(setup, states[i - 1], moves[i - 1]);
    }
  }

  /** Exactly-once, crash-safe staging: whatever was appended, batched, refused or interrupted, the stagings of a source are its
      log's complete lines up to the durable offset, once each, numbered from 1 in each stream; every one of them is still
      waiting unchanged, or was tried and acknowledged by the bus and only then deleted; and the reader stands at the offset. */
  lemma StagingIsExact(setup: M.Setup, states: seq<System>, moves: seq<Move>, i: nat, source: string)
    requires IsRun(setup, states, moves) && i < |states|
    ensures var o := states[i].outbox;
            && (source in o.identities ==>
                  o.identities[source] in states[i].inodes && var log := states[i].inodes[o.identities[source]];
                  IsBoundary(log, At(o.offsets, source))
                  && M.RecordsOf(o.history, source) == M.ReadLines(setup, source, Lines(log[..At(o.offsets, source)])))
            && Numbered(M.Envelopes(o.history)) && (forall n :: 0 <= n < |o.history| ==> MappedFrom(o.history[n]))
            && RowsInv(o) && o.confirmed <= states[i].acknowledged <= states[i].sent
            && (forall n :: 0 <= n < |o.history| ==> n in o.places || n in states[i].acknowledged)
            && (states[i].running.Some? ==> states[i].running.value.position == At(o.offsets, states[i].running.value.source))
  {
    hide StoreInv; hide RowsInv; hide MappedFrom; hide M.RecordsOf; hide M.ReadLines; hide Lines; hide Numbered; hide IsRun; hide M.Envelopes;
    RunKeeps(setup, states, moves, i);
    RowsArePartition(states[i].outbox);
  }

  /** Every staged envelope is that of the record it was staged for. */
  lemma StagingsTellTheirRecords(setup: M.Setup, states: seq<System>, moves: seq<Move>, i: nat, n: nat)
    requires IsRun(setup, states, moves) && i < |states| && n < |states[i].outbox.history|
    ensures var entry := states[i].outbox.history[n]; exists minted, now :: IsEnvelopeOf(entry.record, entry.envelope, minted, now)
  {
    hide IsRun; hide IsEnvelopeOf; hide MappedFrom;
    StagingIsExact(setup, states, moves, i, "");
    StagedIsEnvelopeOf(states[i].outbox.history[n]);
  }

  lemma RowsArePartition(o: M.Tables)
    requires RowsInv(o)
    ensures forall n :: 0 <= n < |o.history| ==> n in o.places || n in o.confirmed
  {}

  function DrainedIds(s: System, tried: nat, oks: seq<bool>, acks: seq<bool>): seq<nat>
    requires s.running.Some? && tried <= |M.Pending(s.outbox, s.running.value.source, 256)|
  {
    A.Ids(A.Acked(M.Pending(s.outbox, s.running.value.source, 256)[..tried], oks, acks))
  }

  lemma MoveKeepsHistory(setup: M.Setup, s: System, move: Move)
    requires Inv(setup, s) && Enabled(setup, s, move)
    ensures s.outbox.history <= Next(setup, s, move).outbox.history
  {
    hide TableInv; hide LogsInv; hide StoreInv; hide M.Pending; hide M.Acknowledge; hide M.StageAll; hide M.Reads; hide Channel; hide S.Advance;
    match move
    case Drain(tried, oks, acks) => AcknowledgeKeepsTables(s.outbox, s.running.value.source, DrainedIds(s, tried, oks, acks));
    case Fill(batch, now) => StageAllKeepsTables(s.outbox, s.running.value.source, batch, now);
    case _ =>
  }

  /** What is staged stays staged with its identifier and content, whatever crashes and restarts follow. */
  lemma {:induction false} StagingsAreFixed(setup: M.Setup, states: seq<System>, moves: seq<Move>, i: nat, j: nat)
    requires IsRun(setup, states, moves) && i <= j < |states|
    ensures states[i].outbox.history <= states[j].outbox.history
    decreases j
  {
    hide Inv; hide Enabled; hide Next;
    if i < j {
      StagingsAreFixed(setup, states, moves, i, j - 1);
      RunKeeps(setup, states, moves, j - 1);
      MoveKeepsHistory(setup, states[j - 1], moves[j - 1]);
    }
  }

  /** End to end: in every run, over a channel that drops, repeats and reorders, what the client shows is the latest event of each
      entity of the staged log up to its positions - exactly, until something is evicted. */
  lemma ClientShowsTheLog(setup: M.Setup, states: seq<System>, moves: seq<Move>, i: nat)
    requires IsRun(setup, states, moves) && i < |states|
    ensures var s := states[i];
            && Submap(S.Overlay(s.store), Latest(Published(s), s.store.positions))
            && (s.complete ==> S.Overlay(s.store) == Latest(Published(s), s.store.positions))
            && Within(Published(s), s.store.positions)
  {
    hide TableInv; hide Latest; hide Within; hide IsRun; hide M.Envelopes; hide LogsInv; hide Submap; hide StagedOk;
    RunKeeps(setup, states, moves, i);
  }

  /** The same without keys: whatever the client shows is the last staged event of its entity up to the positions, no entity is shown
      twice, and while the view is complete every entity that has an event is shown. */
  lemma ClientShowsEntities(setup: M.Setup, states: seq<System>, moves: seq<Move>, i: nat)
    requires IsRun(setup, states, moves) && i < |states|
    ensures var s := states[i];
            && ShowsOnlyLast(Published(s), s.store.positions, S.Overlay(s.store))
            && (s.complete ==> ShowsLast(Published(s), s.store.positions, S.Overlay(s.store)))
  {
    hide Latest; hide IsRun; hide M.Envelopes; hide LastOfEntity; hide SameEntity; hide Within;
    ClientShowsTheLog(setup, states, moves, i);
    LatestShowsLast(Published(states[i]), states[i].store.positions);
  }

  // ---- Critical events ------------------------------------------------------------------------

  /** The move finishes a snapshot. */
  ghost predicate Finishes(s: System, move: Move) {
    move.Client? && move.step.Ingest? && Installs(s.store, move.step.message)
  }

  /** If the move finishes a snapshot, no critical event lies between a position and its new watermark. */
  ghost predicate Steady(s: System, move: Move) {
    Finishes(s, move) ==> NoneBetween(Published(s), s.store.positions, s.store.snapshots[move.step.message.sub].positions)
  }

  lemma GrowthKeepsDelivered(h: Log, more: Log, s: S.Store)
    requires Numbered(h + more) && Within(h, s.positions) && DeliveredOnce(h, s)
    ensures DeliveredOnce(h + more, s)
  {
    hide Critical; hide Numbered; hide OnStream;
    forall stream
      ensures Critical(h + more, stream, At(s.positions, stream)) == Critical(h, stream, At(s.positions, stream))
    {
      forall e | e in more && e.stream == stream
        ensures e.streamSeq > At(s.positions, stream)
      {
        GrowthIsNumberedBeyond(h, more, s.positions, e);
      }
      CriticalIgnoresLater(h, more, stream, At(s.positions, stream));
    }
  }

  lemma DeliveryStep(setup: M.Setup, s: System, move: Move)
    requires Inv(setup, s) && Enabled(setup, s, move) && !Finishes(s, move) && DeliveredOnce(Published(s), s.store)
    ensures DeliveredOnce(Published(Next(setup, s, move)), Next(setup, s, move).store)
  {
    hide LogsInv; hide RowsInv; hide SequencesInv; hide MappedFrom; hide M.Pending; hide M.Acknowledge; hide M.StageAll; hide M.Reads;
    hide Channel; hide M.Envelopes; hide S.Advance; hide StillComplete; hide S.MapsValid; hide DeliveredOnce; hide Within; hide Submap; hide Latest;
    hide Installs; hide StagedOk;
    match move
    case Client(step) =>
      ChannelIsAuthentic(s, step);
      TablesAreNumbered(s.outbox);
      StepDeliversOnce(Published(s), s.store, step);
    case Fill(batch, now) =>
      StageAllKeepsTables(s.outbox, s.running.value.source, batch, now);
      var n := Next(setup, s, move);
      if n.outbox.history != s.outbox.history {
        var more := EnvelopesGrow(s.outbox.history, n.outbox.history);
        TablesAreNumbered(n.outbox);
        GrowthKeepsDelivered(Published(s), more, s.store);
      }
    case Drain(tried, oks, acks) => AcknowledgeKeepsTables(s.outbox, s.running.value.source, DrainedIds(s, tried, oks, acks));
    case Reload =>
      TablesAreNumbered(s.outbox);
      NothingSeenYet(Published(s));
    case _ =>
  }

  /** A move keeps deliveries in step with the positions exactly when it is steady. */
  lemma DeliveryStepIff(setup: M.Setup, s: System, move: Move)
    requires Inv(setup, s) && Enabled(setup, s, move) && DeliveredOnce(Published(s), s.store)
    ensures DeliveredOnce(Published(Next(setup, s, move)), Next(setup, s, move).store) <==> Steady(s, move)
  {
    hide Inv; hide DeliveredOnce; hide NoneBetween; hide M.Envelopes; hide StillComplete; hide S.Ended;
    if Finishes(s, move) {
      InstallDeliversOnceIff(Published(s), s.store, move.step.message.sub, move.step.message.marks);
    } else {
      DeliveryStep(setup, s, move);
    }
  }

  /** While every finished snapshot passes over no critical event, the critical events handed to the listeners of each stream are
      exactly the critical events of its log up to the position reached, once each and in order. */
  lemma {:induction false} CriticalEventsExactlyOnce(setup: M.Setup, states: seq<System>, moves: seq<Move>, i: nat)
    requires IsRun(setup, states, moves) && i < |states| && forall j :: 0 <= j < i ==> Steady(states[j], moves[j])
    ensures DeliveredOnce(Published(states[i]), states[i].store)
  {
    hide Inv; hide Enabled; hide Next; hide Steady; hide DeliveredOnce;
    if i == 0 {
      NothingSeenYet(Published(START));
      StartIsNumbered();
    } else {
      CriticalEventsExactlyOnce(setup, states, moves, i - 1);
      RunKeeps(setup, states, moves, i - 1);
      DeliveryStepIff(setup, states[i - 1], moves[i - 1]);
    }
  }

  lemma StartIsNumbered()
    ensures Numbered(Published(START))
  {}

  /** And only then: a run delivers every critical event once at all times exactly when each of its moves is steady. */
  lemma CriticalEventsExactlyOnceIff(setup: M.Setup, states: seq<System>, moves: seq<Move>)
    requires IsRun(setup, states, moves)
    ensures (forall i :: 0 <= i < |states| ==> DeliveredOnce(Published(states[i]), states[i].store))
       <==> (forall j :: 0 <= j < |moves| ==> Steady(states[j], moves[j]))
  {
    hide Inv; hide Enabled; hide Next; hide Steady; hide DeliveredOnce;
    if forall j :: 0 <= j < |moves| ==> Steady(states[j], moves[j]) {
      forall i | 0 <= i < |states|
        ensures DeliveredOnce(Published(states[i]), states[i].store)
      {
        CriticalEventsExactlyOnce(setup, states, moves, i);
      }
    }
    if forall i :: 0 <= i < |states| ==> DeliveredOnce(Published(states[i]), states[i].store) {
      forall j | 0 <= j < |moves|
        ensures Steady(states[j], moves[j])
      {
        RunKeeps(setup, states, moves, j);
        assert DeliveredOnce(Published(states[j + 1]), states[j + 1].store);
        DeliveryStepIff(setup, states[j], moves[j]);
      }
    }
  }

  // ---- The adapter's loop takes these moves ---------------------------------------------------

  /** Every envelope is that of a staging whose publication counts as tried. */
  ghost predicate CountsAsSent(s: System, envelopes: seq<Envelope>) {
    forall e :: e in envelopes ==> exists n :: n in s.sent && n < |s.outbox.history| && s.outbox.history[n].envelope == e
  }

  /** What one turn of the loop leaves: the new tables, whether it goes on, and what it has tried to publish. */
  datatype TurnEnd = TurnEnd(tables: M.Tables, alive: bool, tried: nat, batch: seq<M.Item>)

  /** The guarantee of the loop's method: drain what is pending, or else fill. */
  ghost predicate TurnOf(setup: M.Setup, s: System, t: TurnEnd, oks: seq<bool>, acks: seq<bool>, now: int)
    requires s.running.Some? && s.running.value.identity in s.inodes && |s.outbox.places| == |s.outbox.rows|
  {
    var p := s.running.value;
    var pending := M.Pending(s.outbox, p.source, 256);
    if pending != [] then
      && t.alive && A.EndsAtFailure(oks, t.tried, |pending|)
      && t.tables == M.Acknowledge(s.outbox, p.source, A.Ids(A.Acked(pending[..t.tried], oks, acks)))
    else A.Filled(setup, s.outbox, t.tables, p.source, s.inodes[p.identity], t.batch, now, t.alive)
  }

  /** The move that a turn is: a Drain, a Fill, or the end of the process with the tables as they were. */
  function MoveOf(s: System, t: TurnEnd, oks: seq<bool>, acks: seq<bool>, now: int): Move
    requires s.running.Some?
  {
    if M.Pending(s.outbox, s.running.value.source, 256) != [] then Drain(t.tried, oks, acks) else if t.alive then Fill(t.batch, now) else Crash
  }

  lemma TurnIsAMove(setup: M.Setup, s: System, t: TurnEnd, oks: seq<bool>, acks: seq<bool>, now: int)
    requires Inv(setup, s) && S.MapsValid(s.store) && s.running.Some? && s.running.value.identity in s.inodes
    requires |s.outbox.places| == |s.outbox.rows| && TurnOf(setup, s, t, oks, acks, now)
    ensures var move := MoveOf(s, t, oks, acks, now);
            && Enabled(setup, s, move) && Next(setup, s, move).outbox == t.tables && (Next(setup, s, move).running.Some? <==> t.alive)
            && (move.Drain? ==> CountsAsSent(Next(setup, s, move), A.Sent(M.Pending(s.outbox, s.running.value.source, 256)[..t.tried])))
  {
    hide StoreInv; hide LogsInv; hide SequencesInv; hide M.Pending; hide M.Acknowledge; hide M.StageAll; hide M.Reads; hide M.EndOf; hide A.Stuck;
    hide CountsAsSent; hide A.Acked; hide A.Ids; hide Places;
    var source := s.running.value.source;
    if M.Pending(s.outbox, source, 256) != [] {
      AcknowledgeKeepsTables(s.outbox, source, DrainedIds(s, t.tried, oks, acks));
      TriedIsSent(s, source, t.tried, Next(setup, s, Drain(t.tried, oks, acks)));
    }
  }

  lemma TriedIsSent(s: System, source: string, tried: nat, next: System)
    requires RowsInv(s.outbox) && tried <= |M.Pending(s.outbox, source, 256)| && next.outbox.history == s.outbox.history
    requires Places(s.outbox, M.Pending(s.outbox, source, 256)[..tried]) <= next.sent
    ensures CountsAsSent(next, A.Sent(M.Pending(s.outbox, source, 256)[..tried]))
  {
    hide RowsRise; hide Unconfirmed;
    var rows := M.Pending(s.outbox, source, 256)[..tried];
    OfSourceMembers(s.outbox.rows, source);
    forall e | e in A.Sent(rows)
      ensures exists n :: n in next.sent && n < |next.outbox.history| && next.outbox.history[n].envelope == e
    {
      var row := SentRow(rows, e);
      assert row in M.OfSource(s.outbox.rows, source);
      var k :| 0 <= k < |s.outbox.rows| && s.outbox.rows[k] == row;
      assert Holds(s.outbox, row, s.outbox.places[k]) && s.outbox.places[k] in Places(s.outbox, rows);
    }
  }

  lemma {:induction false} SentRow(rows: seq<M.Row>, e: Envelope) returns (row: M.Row)
    requires e in A.Sent(rows)
    ensures row in rows && row.envelope == e
  {
    if rows[|rows| - 1].envelope == e {
      row := rows[|rows| - 1];
    } else {
      row := SentRow(rows[..|rows| - 1], e);
    }
  }
}
