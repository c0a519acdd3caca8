/** What an envelope takes from its record, when a record is staged, and which rows are pending, said of fields and rows. */
module OutboxMeaning {
  import opened Common
  import opened Events
  import opened EventKeys
  import opened ByteLines
  import opened OutboxModel
  import opened OutboxProofs

  // ---- Envelopes ------------------------------------------------------------------------------

  /** Its own stream, or that of its run, or that of its instrument, or the system's. */
  ghost predicate OnStreamOf(record: Record, stream: string) {
    match record.stream
    case Some(own) => stream == own
    case None =>
      match record.runId
      case Some(run) => stream == "run." + run
      case None =>
        match record.instrumentId
        case Some(instrument) => stream == "market." + instrument
        case None => stream == "system.events"
  }

  ghost predicate Given<T(!new)>(field: Option<T>, value: T, otherwise: T) { value == if field.Some? then field.value else otherwise }

  /** The envelope of a record: version, stream, type, identifier, run, instrument, times, payload and the rest of its content. */
  ghost predicate IsEnvelopeOf(record: Record, e: Envelope, minted: string, now: int) {
    && e.schemaVersion == 2 && OnStreamOf(record, e.stream)
    && record.eventType == Some(e.eventType) && record.occurredAt == Some(e.occurredAt) && e.occurredAt > 0
    && Given(record.eventId, e.eventId, minted) && Given(record.receivedAt, e.receivedAt, now)
    && Given(record.runId, e.runId, "") && Given(record.instrumentId, e.instrumentId, "")
    && PayloadFor(e.eventType, record.body) == Some(e.payload) && e.body == record.body.rest
    && (record.streamSeq.Some? ==> e.streamSeq == record.streamSeq.value)
  }

  /** A line is its parsed record, for the adapter's own run where it names none. */
  lemma ReadLineMeans(setup: Setup, source: string, line: Bytes)
    ensures var r, parsed := ReadLine(setup, source, line), setup.parse(line);
            && (r.None? <==> parsed.None?)
            && (r.Some? ==> r.value == parsed.value.(runId := r.value.runId)
                            && r.value.runId == Some(if parsed.value.runId.Some? then parsed.value.runId.value else setup.runs(source)))
  {}

  /** A record maps exactly when it has a positive time and a supported type, names no number or the next one of its stream, and its
      payload maps; then its envelope takes its fields from it and the next number of its stream. */
  lemma MapEventMeans(record: Record, sequences: Positions, minted: string, now: int)
    ensures var r := MapEvent(record, sequences, minted, now); var next := (if StreamOf(record) in sequences then sequences[StreamOf(record)] else 0) + 1;
            && OnStreamOf(record, StreamOf(record))
            && (r.Ok? <==> record.occurredAt.Some? && record.occurredAt.value > 0 && record.eventType.Some?
                           && record.streamSeq in {None, Some(next)} && PayloadFor(record.eventType.value, record.body).Some?)
            && (r.Ok? ==> IsEnvelopeOf(record, r.value, minted, now) && r.value.streamSeq == next)
            && (r.Err? ==> r.error == if record.occurredAt.None? || record.occurredAt.value <= 0 then NoTimestamp
                                      else if record.eventType.None? then Unsupported
                                      else if record.streamSeq !in {None, Some(next)} then SequenceGap else BadPayload)
  {}

  /** What is staged is the envelope of its record. */
  lemma StagedIsEnvelopeOf(entry: Entry)
    requires MappedFrom(entry)
    ensures exists minted, now :: IsEnvelopeOf(entry.record, entry.envelope, minted, now)
  {
    hide MapEvent; hide IsEnvelopeOf;
    var sequences, minted, now :| MapEvent(entry.record, sequences, minted, now) == Ok(entry.envelope);
    MapEventMeans(entry.record, sequences, minted, now);
    assert IsEnvelopeOf(entry.record, entry.envelope, minted, now);
  }

  // ---- Staging --------------------------------------------------------------------------------

  /** A record is staged exactly when it ends beyond the offset, maps, and no waiting row has its identifier; it is then the last row and
      the last entry of the history, under the next key. */
  lemma StageOneMeans(o: Tables, source: string, record: Record, next: nat, minted: string, now: int)
    ensures var r, mapped := StageOne(o, source, record, next, minted, now), MapEvent(record, o.sequences, minted, now);
            && (r.Ok? <==> next > (if source in o.offsets then o.offsets[source] else 0) && mapped.Ok?
                           && forall k :: 0 <= k < |o.rows| ==> o.rows[k].envelope.eventId != mapped.value.eventId)
            && (r.Ok? ==>
                  && r.value.offsets == o.offsets[source := next] && r.value.identities == o.identities && r.value.confirmed == o.confirmed
                  && r.value.sequences == o.sequences[mapped.value.stream := mapped.value.streamSeq]
                  && r.value.history == o.history + [Entry(source, record, mapped.value)]
                  && |r.value.rows| == |o.rows| + 1 && r.value.rows[..|o.rows|] == o.rows
                  && r.value.rows[|o.rows|].source == source && r.value.rows[|o.rows|].envelope == mapped.value
                  && r.value.rows[|o.rows|].id == if o.rows == [] then 1 else o.rows[|o.rows| - 1].id + 1)
  {
    hide MapEvent;
  }

  // ---- Pending rows ---------------------------------------------------------------------------

  ghost predicate KeysRise(rows: seq<Row>) { forall i, j :: 0 <= i < j < |rows| ==> rows[i].id < rows[j].id }

  lemma {:induction false} OfSourceRises(rows: seq<Row>, source: string)
    requires KeysRise(rows)
    ensures KeysRise(OfSource(rows, source)) && forall row :: row in OfSource(rows, source) <==> row in rows && row.source == source
  {
    if rows != [] {
      var init, last := rows[..|rows| - 1], rows[|rows| - 1];
      OfSourceRises(init, source);
      assert forall row :: row in rows <==> row in init || row == last;
      forall i | 0 <= i < |OfSource(init, source)|
        ensures OfSource(init, source)[i].id < last.id
      {
        assert OfSource(init, source)[i] in init;
      }
    }
  }

  /** The pending rows are those of the source with the lowest keys, in the order of their keys, as many as asked for and at most 256. */
  lemma PendingMeans(o: Tables, source: string, limit: nat)
    requires KeysRise(o.rows)
    ensures var p, most := Pending(o, source, limit), if limit < 256 then limit else 256;
            && KeysRise(p) && |p| <= most && (forall row :: row in p ==> row in o.rows && row.source == source)
            && (forall row, first :: row in o.rows && row.source == source && row !in p && first in p ==> first.id < row.id)
            && (|p| < most ==> forall row :: row in o.rows && row.source == source ==> row in p)
  {
    hide KeysRise; hide OfSource;
    OfSourceRises(o.rows, source);
    FrontIsLowest(OfSource(o.rows, source), if limit < 256 then limit else 256);
  }

  lemma FrontIsLowest(all: seq<Row>, most: nat)
    requires KeysRise(all)
    ensures var p := if |all| <= most then all else all[..most];
            KeysRise(p) && (forall row :: row in p ==> row in all)
            && forall row, first :: row in all && row !in p && first in p ==> first.id < row.id
  {
    var p := if |all| <= most then all else all[..most];
    forall row, first | row in all && row !in p && first in p
      ensures first.id < row.id
    {
      var i :| 0 <= i < |all| && all[i] == row;
      var j :| 0 <= j < |p| && p[j] == first;
      if i < |p| { assert p[i] == row; }
    }
  }
}
