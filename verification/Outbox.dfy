/** The outbox over its tables, and the adapter's loop that fills and drains it. */
module OutboxClass {
  import opened Common
  import opened Events
  import opened OutboxMeaning
  import opened OutboxProofs
  import M = OutboxModel

  class Checkpoint {
    var streams: Positions

    constructor (streams: Positions)
      ensures this.streams == streams
    {
      this.streams := streams;
    }

    method NextSequence(stream: string, supplied: Option<nat>) returns (r: M.Result<nat>)
      modifies this
      ensures r == M.NextSequence(old(streams), stream, supplied)
      ensures streams == if r.Ok? then old(streams)[stream := r.value] else old(streams)
    {
      var current := At(streams, stream);
      var next := if supplied.Some? then supplied.value else current + 1;
      if next != current + 1 { return M.Err(M.SequenceGap); }
      streams := streams[stream := next];
      return M.Ok(next);
    }
  }

  method MapEvent(record: M.Record, checkpoint: Checkpoint, minted: string, now: int) returns (r: M.Result<Envelope>)
    modifies checkpoint
    ensures r == M.MapEvent(record, old(checkpoint.streams), minted, now)
    ensures r.Ok? ==> IsEnvelopeOf(record, r.value, minted, now)
    ensures r.Ok? ==> checkpoint.streams == old(checkpoint.streams)[r.value.stream := r.value.streamSeq]
  {
    MapEventMeans(record, checkpoint.streams, minted, now);
    if record.occurredAt.None? || record.occurredAt.value <= 0 { return M.Err(M.NoTimestamp); }
    if record.eventType.None? { return M.Err(M.Unsupported); }
    var stream := M.StreamOf(record);
    var sequence := checkpoint.NextSequence(stream, record.streamSeq);
    if sequence.Err? { return M.Err(sequence.error); }
    var payload := PayloadFor(record.eventType.value, record.body);
    if payload.None? { return M.Err(M.BadPayload); }
    return M.Ok(Envelope(2, stream, sequence.value, M.OrElse(record.eventId, minted), record.eventType.value, M.OrElse(record.runId, ""),
                         M.OrElse(record.instrumentId, ""), record.occurredAt.value, M.OrElse(record.receivedAt, now), payload.value,
                         record.body.rest));
  }

  class Outbox {
    const source: string
    var offsets: map<string, nat>
    var identities: map<string, string>
    var sequences: Positions
    var rows: seq<M.Row>
    ghost var history: seq<M.Entry>
    ghost var places: seq<nat>
    ghost var confirmed: set<nat>

    ghost function View(): M.Tables
      reads this
    {
      M.Tables(offsets, identities, sequences, rows, history, places, confirmed)
    }

    ghost predicate Valid()
      reads this
    {
      source in offsets && RowsInv(View())
    }

    /** Opening creates the source's offset when the tables do not have one. */
    constructor Open(source: string, offsets: map<string, nat>, identities: map<string, string>, sequences: Positions, rows: seq<M.Row>,
                     ghost history: seq<M.Entry>, ghost places: seq<nat>, ghost confirmed: set<nat>)
      requires RowsInv(M.Tables(offsets, identities, sequences, rows, history, places, confirmed))
      ensures Valid() && this.source == source
      ensures View() == M.Opened(M.Tables(offsets, identities, sequences, rows, history, places, confirmed), source)
    {
      this.source, this.identities, this.sequences, this.rows := source, identities, sequences, rows;
      this.history, this.places, this.confirmed := history, places, confirmed;
      this.offsets := if source in offsets then offsets else offsets[source := 0];
    }

    function Offset(): nat
      reads this
    {
      At(offsets, source)
    }

    /** A source stays tied to the first file it was bound to. */
    method BindFile(identity: string) returns (ok: bool)
      requires Valid()
      modifies `identities
      ensures Valid()
      ensures ok <==> old(source !in identities || identities[source] == identity)
      ensures View() == if ok then old(View()).(identities := old(identities)[source := identity]) else old(View())
    {
      if source in identities && identities[source] != identity { return false; }
      identities := identities[source := identity];
      return true;
    }

    /** The transaction works on copies, which replace the tables only at the end. */
    method Stage(batch: seq<M.Item>, now: int) returns (r: M.Result<nat>)
      requires Valid()
      modifies this
      ensures Valid()
      ensures var s := M.Stage(old(View()), source, batch, now);
              if s.Err? then r == M.Err(s.error) && View() == old(View()) else r == M.Ok(|batch|) && View() == s.value
    {
      hide M.StageOne; hide RowsInv;
      if |batch| > M.BATCH { return M.Err(M.TooMany); }
      var checkpoint := new Checkpoint(sequences);
      var offset, inserted := Offset(), rows;
      ghost var was := View();
      ghost var txn := was;
      assert was.offsets == was.offsets[source := offset];
      for i := 0 to |batch|
        invariant View() == was && RowsInv(txn)
        invariant txn.offsets == was.offsets[source := offset] && txn.sequences == checkpoint.streams && txn.rows == inserted
        invariant txn.identities == was.identities && txn.confirmed == was.confirmed
        invariant M.StageAll(txn, source, batch[i..], now) == M.StageAll(was, source, batch, now)
      {
        assert batch[i..][0] == batch[i] && batch[i..][1..] == batch[i + 1..];
        ghost var next := M.StageOne(txn, source, batch[i].record, batch[i].next, batch[i].minted, now);
        StageOneKeepsRows(txn, source, batch[i].record, batch[i].next, batch[i].minted, now);
        StageOneIs(txn, source, batch[i], now);
        if batch[i].next <= offset { return M.Err(M.NotAdvanced); }
        var mapped := MapEvent(batch[i].record, checkpoint, batch[i].minted, now);
        if mapped.Err? { return M.Err(mapped.error); }
        if exists row :: row in inserted && row.envelope.eventId == mapped.value.eventId { return M.Err(M.DuplicateEventId); }
        inserted := inserted + [M.Row(M.NextId(inserted), source, mapped.value)];
        offset := batch[i].next;
        txn := next.value;
      }
      assert batch[|batch|..] == [];
      sequences, rows, offsets := checkpoint.streams, inserted, offsets[source := offset];
      history, places := txn.history, txn.places;
      return M.Ok(|batch|);
    }

    method Pending(limit: nat) returns (pending: seq<M.Row>)
      ensures pending == M.Pending(View(), source, limit)
    {
      var mine := [];
      for i := 0 to |rows|
        invariant mine == M.OfSource(rows[..i], source)
      {
        assert rows[..i + 1][..i] == rows[..i];
        if rows[i].source == source { mine := mine + [rows[i]]; }
      }
      assert rows[..|rows|] == rows;
      var n := if limit < M.BATCH then limit else M.BATCH;
      pending := if |mine| <= n then mine else mine[..n];
    }

    method DeleteRow(id: nat)
      requires Valid()
      modifies `rows, `places, `confirmed
      ensures Valid() && View() == M.Delete(old(View()), source, id)
    {
      hide RowsRise; hide RowsHold; hide Unconfirmed;
      DeleteKeepsRows(View(), source, id);
      var k := M.IndexOf(rows, source, id);
      if k < |rows| {
        confirmed := confirmed + {places[k]};
        rows, places := M.Without(rows, k), M.Without(places, k);
      }
    }

    method Acknowledge(ids: seq<nat>)
      requires Valid()
      modifies `rows, `places, `confirmed
      ensures Valid() && View() == M.Acknowledge(old(View()), source, ids)
    {
      hide RowsRise; hide RowsHold; hide Unconfirmed; hide M.Delete;
      for i := 0 to |ids|
        invariant Valid() && M.Acknowledge(View(), source, ids[i..]) == M.Acknowledge(old(View()), source, ids)
      {
        assert ids[i..][0] == ids[i] && ids[i..][1..] == ids[i + 1..];
        DeleteRow(ids[i]);
      }
      assert ids[|ids|..] == [];
    }
  }

  lemma StageOneIs(o: M.Tables, source: string, item: M.Item, now: int)
    ensures var s := M.StageOne(o, source, item.record, item.next, item.minted, now);
            var mapped := M.MapEvent(item.record, o.sequences, item.minted, now);
            if item.next <= At(o.offsets, source) then s == M.Err(M.NotAdvanced)
            else if mapped.Err? then s == M.Err(mapped.error)
            else if exists row :: row in o.rows && row.envelope.eventId == mapped.value.eventId then s == M.Err(M.DuplicateEventId)
            else s.Ok? && s.value.offsets == o.offsets[source := item.next]
                 && s.value.sequences == o.sequences[mapped.value.stream := mapped.value.streamSeq]
                 && s.value.rows == o.rows + [M.Row(M.NextId(o.rows), source, mapped.value)]
                 && s.value.identities == o.identities && s.value.confirmed == o.confirmed
  {}
}
