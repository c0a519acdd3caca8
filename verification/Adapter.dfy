/** The adapter's loop: drain the outbox to the bus, or read the next complete lines and stage them. */
module Adapter {
  import opened Common
  import opened Events
  import opened ByteLines
  import opened OutboxProofs
  import opened OutboxClass
  import M = OutboxModel

  const LINE_LIMIT: nat := 1_048_576
  const BATCH_BYTES: nat := 1_048_576

  /** What one read returns: up to and including the next newline, to the end of the file, or one byte past the limit. */
  function TakeUntil(log: Bytes, at: nat): (line: Bytes)
    requires at <= |log|
    ensures at + |line| <= |log| && line == log[at..at + |line|]
  {
    var rest := log[at..];
    var k := FirstNewline(rest);
    var n := if k < |rest| then k + 1 else k;
    if n <= LINE_LIMIT then rest[..n] else rest[..LINE_LIMIT + 1]
  }

  /** The line at a place is too long or does not parse, so the adapter stops. */
  ghost predicate Blocked(setup: M.Setup, source: string, log: Bytes, at: nat) {
    at <= |log| && (|TakeUntil(log, at)| > LINE_LIMIT
                    || (IsLine(TakeUntil(log, at)) && M.ReadLine(setup, source, TakeUntil(log, at)).None?))
  }

  /** Reading on from the durable offset, under the limits of a batch, the adapter reaches a place where it stops. */
  ghost predicate Stuck(setup: M.Setup, source: string, log: Bytes, offset: nat) {
    exists read :: StuckAfter(setup, source, log, offset, read)
  }

  ghost predicate StuckAfter(setup: M.Setup, source: string, log: Bytes, offset: nat, read: seq<M.Item>) {
    && M.Reads(setup, source, log, offset, read) && |read| < M.BATCH && M.EndOf(offset, read) - offset < BATCH_BYTES
    && Blocked(setup, source, log, M.EndOf(offset, read))
  }

  lemma TakenLine(log: Bytes, at: nat)
    requires at <= |log|
    ensures var line := TakeUntil(log, at);
            && (line == [] ==> at == |log|)
            && (|line| <= LINE_LIMIT && line != [] && line[|line| - 1] == NEWLINE ==> IsLine(line))
            && (|line| <= LINE_LIMIT && (line == [] || line[|line| - 1] != NEWLINE) ==> FirstNewline(log[at..]) == |log| - at)
  {}

  lemma {:induction false} ReadsGrow(setup: M.Setup, source: string, log: Bytes, more: Bytes, at: nat, batch: seq<M.Item>)
    requires M.Reads(setup, source, log, at, batch)
    ensures M.Reads(setup, source, log + more, at, batch)
    decreases |batch|
  {
    hide M.ReadLine; hide IsLine;
    if batch != [] {
      assert (log + more)[at..batch[0].next] == log[at..batch[0].next];
      ReadsGrow(setup, source, log, more, batch[0].next, batch[1..]);
    }
  }

  lemma {:induction false} ReadsAppend(setup: M.Setup, source: string, log: Bytes, at: nat, batch: seq<M.Item>, item: M.Item)
    requires M.Reads(setup, source, log, at, batch)
    requires M.Reads(setup, source, log, M.EndOf(at, batch), [item])
    ensures M.Reads(setup, source, log, at, batch + [item])
    decreases |batch|
  {
    hide M.ReadLine; hide IsLine;
    if batch == [] {
      assert batch + [item] == [item];
    } else {
      ReadsAppend(setup, source, log, batch[0].next, batch[1..], item);
      assert (batch + [item])[1..] == batch[1..] + [item];
    }
  }

  class LogFile {
    var bytes: Bytes
    constructor () { bytes := []; }
  }

  class Adapter {
    const setup: M.Setup
    const outbox: Outbox
    const log: LogFile
    var position: nat
    /** Every envelope whose publication was tried. */
    var attempted: seq<Envelope>

    ghost predicate Valid()
      reads this, outbox, log
    {
      outbox.Valid() && LogInv(setup, outbox.View(), outbox.source, log.bytes)
    }

    /** The reader stands at the durable offset. */
    ghost predicate InStep()
      reads this, outbox
    {
      position == outbox.Offset()
    }

    /** The reader starts at the durable offset. A log shorter than it, or another file than the bound one, is refused before. */
    constructor (setup: M.Setup, outbox: Outbox, log: LogFile)
      requires outbox.Valid() && LogInv(setup, outbox.View(), outbox.source, log.bytes)
      ensures this.setup == setup && this.outbox == outbox && this.log == log && attempted == []
      ensures Valid() && InStep()
    {
      this.setup, this.outbox, this.log, this.attempted := setup, outbox, log, [];
      position := At(outbox.offsets, outbox.source);
    }

    /** arrivals are the bytes the program under observation appends before each read, minted the identifiers for records
        that have none. None means that the adapter stops. */
    method ReadBatch(arrivals: seq<Bytes>, minted: nat -> string) returns (r: Option<seq<M.Item>>)
      requires Valid() && InStep()
      modifies `position, log
      ensures old(log.bytes) <= log.bytes
      ensures r.Some? ==> (M.Reads(setup, outbox.source, log.bytes, outbox.Offset(), r.value)
                           && position == M.EndOf(outbox.Offset(), r.value) && |r.value| <= M.BATCH)
      ensures r.Some? && |r.value| < M.BATCH && position - outbox.Offset() < BATCH_BYTES ==>
                (position <= |log.bytes| && FirstNewline(log.bytes[position..]) == |log.bytes| - position)
      ensures r.None? ==> Stuck(setup, outbox.source, log.bytes, outbox.Offset())
    {
      hide M.ReadLine; hide M.Reads; hide TakeUntil; hide IsLine; hide FirstNewline; hide RowsInv; hide LogInv; hide Stuck;
      OffsetIsBoundary(setup, outbox.View(), outbox.source, log.bytes);
      var records: seq<M.Item> := [];
      var offset := outbox.Offset();
      var cursor, batchBytes, turn := offset, 0, 0;
      assert M.Reads(setup, outbox.source, log.bytes, offset, []) by { NothingRead(setup, outbox.source, log.bytes, offset); }
      while |records| < M.BATCH && batchBytes < BATCH_BYTES
        invariant old(log.bytes) <= log.bytes && cursor <= |log.bytes|
        invariant M.Reads(setup, outbox.source, log.bytes, offset, records)
        invariant position == cursor == M.EndOf(offset, records) && batchBytes == cursor - offset && |records| <= M.BATCH
        decreases M.BATCH - |records|
      {
        if turn < |arrivals| {
          ReadsGrow(setup, outbox.source, log.bytes, arrivals[turn], offset, records);
          log.bytes := log.bytes + arrivals[turn];
          turn := turn + 1;
        }
        var line := TakeUntil(log.bytes, position);
        TakenLine(log.bytes, position);
        position := position + |line|;
        if line == [] { break; }
        if |line| > LINE_LIMIT { IsStuck(setup, outbox.source, log.bytes, offset, records); return None; }
        if line[|line| - 1] != NEWLINE {
          position := cursor;
          break;
        }
        var record := M.ReadLine(setup, outbox.source, line);
        if record.None? { IsStuck(setup, outbox.source, log.bytes, offset, records); return None; }
        var item := M.Item(record.value, cursor + |line|, minted(|records|));
        OneRead(setup, outbox.source, log.bytes, cursor, item);
        ReadsAppend(setup, outbox.source, log.bytes, offset, records, item);
        cursor, batchBytes, records := cursor + |line|, batchBytes + |line|, records + [item];
      }
      return Some(records);
    }

    /** Rows are tried in order until one publication fails (oks); of those sent, the bus then acknowledges some (acks). */
    method Publish(pending: seq<M.Row>, oks: seq<bool>, acks: seq<bool>) returns (tried: nat, acknowledged: seq<nat>)
      modifies `attempted
      ensures EndsAtFailure(oks, tried, |pending|) && attempted == old(attempted) + Sent(pending[..tried])
      ensures acknowledged == Ids(Acked(pending[..tried], oks, acks))
    {
      hide Sent;
      var receipts: seq<nat> := [];
      tried := 0;
      NothingSent();
      while tried < |pending|
        invariant tried <= |pending| && attempted == old(attempted) + Sent(pending[..tried])
        invariant |receipts| == tried && forall j :: 0 <= j < tried ==> receipts[j] == pending[j].id && Yes(oks, j)
      {
        SentOneMore(pending, tried);
        attempted := attempted + [pending[tried].envelope];
        tried := tried + 1;
        if !Yes(oks, tried - 1) { break; }
        receipts := receipts + [pending[tried - 1].id];
      }
      acknowledged := [];
      for j := 0 to |receipts|
        invariant acknowledged == Ids(Acked(pending[..j], oks, acks)) && attempted == old(attempted) + Sent(pending[..tried])
      {
        AckedOneMore(pending, oks, acks, j);
        if Yes(acks, j) { acknowledged := acknowledged + [receipts[j]]; }
      }
      if |receipts| < tried { AckedOneMore(pending, oks, acks, |receipts|); }
    }

    /** One turn of the loop: drain what is pending, or else fill. When it leaves the adapter alive, the reader stands at the
        durable offset again. */
    method Turn(oks: seq<bool>, acks: seq<bool>, arrivals: seq<Bytes>, minted: nat -> string, now: int)
      returns (alive: bool, ghost tried: nat, ghost batch: seq<M.Item>)
      requires Valid() && InStep()
      modifies this, outbox, log
      ensures Valid() && old(log.bytes) <= log.bytes && (alive ==> InStep())
      ensures var pending := M.Pending(old(outbox.View()), outbox.source, 256);
              if pending != [] then
                && alive && EndsAtFailure(oks, tried, |pending|) && attempted == old(attempted) + Sent(pending[..tried])
                && outbox.View() == M.Acknowledge(old(outbox.View()), outbox.source, Ids(Acked(pending[..tried], oks, acks)))
                && position == old(position)
              else attempted == old(attempted) && Filled(setup, old(outbox.View()), outbox.View(), outbox.source, log.bytes, batch, now, alive)
    {
      hide LogInv; hide RowsInv; hide M.Pending; hide M.Acknowledge; hide Sent; hide Acked; hide Filled;
      tried, batch := 0, [];
      var pending := outbox.Pending(256);
      if pending != [] {
        var n, acknowledged := Publish(pending, oks, acks);
        RowsGiveLengths(outbox.View());
        AcknowledgeKeepsLog(setup, outbox.View(), outbox.source, acknowledged, log.bytes);
        outbox.Acknowledge(acknowledged);
        tried, alive := n, true;
      } else {
        alive, batch := ReadAndStage(arrivals, minted, now);
      }
    }

    method ReadAndStage(arrivals: seq<Bytes>, minted: nat -> string, now: int) returns (alive: bool, ghost batch: seq<M.Item>)
      requires Valid() && InStep()
      modifies `position, outbox, log
      ensures Valid() && old(log.bytes) <= log.bytes && (alive ==> InStep())
      ensures Filled(setup, old(outbox.View()), outbox.View(), outbox.source, log.bytes, batch, now, alive)
    {
      hide LogInv; hide RowsInv; hide M.Reads; hide Blocked; hide M.StageAll; hide FirstNewline;
      ghost var was, log0 := outbox.View(), log.bytes;
      var read := ReadBatch(arrivals, minted);
      LogGrows(setup, was, outbox.source, log0, log.bytes);
      if read.None? { return false, []; }
      batch := read.value;
      StageAllKeepsLog(setup, was, outbox.source, log.bytes, read.value, now);
      NothingStaged(was, outbox.source, now);
      if read.value == [] { return true, []; }
      var staged := outbox.Stage(read.value, now);
      alive := staged.Ok?;
    }
  }

  /** Staging either committed a batch of next complete lines, or the adapter stopped with the tables unchanged: at a line it cannot
      take, or because the batch that it had read was refused. */
  ghost predicate Filled(setup: M.Setup, was: M.Tables, next: M.Tables, source: string, log: Bytes, batch: seq<M.Item>, now: int, alive: bool) {
    var r, offset := M.Stage(was, source, batch, now), At(was.offsets, source);
    if alive then M.Reads(setup, source, log, offset, batch) && |batch| <= M.BATCH && r.Ok? && next == r.value
    else next == was && (Stuck(setup, source, log, offset) || (M.Reads(setup, source, log, offset, batch) && |batch| <= M.BATCH && r.Err?))
  }

  /** The bus's answer to one try. */
  predicate Yes(answers: seq<bool>, j: nat) { j < |answers| && answers[j] }

  /** The rows are tried in order up to the first publication that fails. */
  predicate EndsAtFailure(oks: seq<bool>, tried: nat, rows: nat) {
    && tried <= rows
    && (forall j :: 0 <= j < tried - 1 ==> Yes(oks, j))
    && (tried < rows ==> tried > 0 && !Yes(oks, tried - 1))
  }

  /** The rows that were published and acknowledged. */
  function Acked(rows: seq<M.Row>, oks: seq<bool>, acks: seq<bool>): seq<M.Row> {
    if rows == [] then [] else
    var last := |rows| - 1;
    Acked(rows[..last], oks, acks) + if Yes(oks, last) && Yes(acks, last) then [rows[last]] else []
  }

  function Ids(rows: seq<M.Row>): seq<nat> { seq(|rows|, k requires 0 <= k < |rows| => rows[k].id) }

  lemma {:induction false} AckedMeans(rows: seq<M.Row>, oks: seq<bool>, acks: seq<bool>, row: M.Row)
    ensures row in Acked(rows, oks, acks) <==> exists j :: 0 <= j < |rows| && rows[j] == row && Yes(oks, j) && Yes(acks, j)
  {
    if rows != [] {
      var last := |rows| - 1;
      AckedMeans(rows[..last], oks, acks, row);
      assert forall j :: 0 <= j < last ==> rows[..last][j] == rows[j];
    }
  }

  lemma AckedOneMore(rows: seq<M.Row>, oks: seq<bool>, acks: seq<bool>, n: nat)
    requires n < |rows|
    ensures Acked(rows[..n + 1], oks, acks) == Acked(rows[..n], oks, acks) + if Yes(oks, n) && Yes(acks, n) then [rows[n]] else []
  {
    assert rows[..n + 1][..n] == rows[..n];
  }

  lemma SentOneMore(rows: seq<M.Row>, n: nat)
    requires n < |rows|
    ensures Sent(rows[..n + 1]) == Sent(rows[..n]) + [rows[n].envelope]
  {
    assert rows[..n + 1][..n] == rows[..n];
  }

  lemma NothingSent()
    ensures Sent([]) == []
  {}

  lemma NothingStaged(o: M.Tables, source: string, now: int)
    ensures M.StageAll(o, source, [], now) == M.Ok(o)
  {}

  function Sent(rows: seq<M.Row>): seq<Envelope> {
    if rows == [] then [] else Sent(rows[..|rows| - 1]) + [rows[|rows| - 1].envelope]
  }

  lemma IsStuck(setup: M.Setup, source: string, log: Bytes, offset: nat, read: seq<M.Item>)
    requires M.Reads(setup, source, log, offset, read) && |read| < M.BATCH && M.EndOf(offset, read) - offset < BATCH_BYTES
    requires var at := M.EndOf(offset, read);
             at <= |log| && (|TakeUntil(log, at)| > LINE_LIMIT
                             || (IsLine(TakeUntil(log, at)) && M.ReadLine(setup, source, TakeUntil(log, at)).None?))
    ensures Stuck(setup, source, log, offset)
  {
    assert StuckAfter(setup, source, log, offset, read);
  }

  lemma OffsetIsBoundary(setup: M.Setup, o: M.Tables, source: string, log: Bytes)
    requires LogInv(setup, o, source, log)
    ensures IsBoundary(log, At(o.offsets, source))
  {}

  lemma NothingRead(setup: M.Setup, source: string, log: Bytes, at: nat)
    ensures M.Reads(setup, source, log, at, [])
  {}

  lemma OneRead(setup: M.Setup, source: string, log: Bytes, at: nat, item: M.Item)
    requires at < item.next <= |log| && IsLine(log[at..item.next]) && M.ReadLine(setup, source, log[at..item.next]) == Some(item.record)
    ensures M.Reads(setup, source, log, at, [item])
  {}
}
