/** Every staging keeps the tables, the history and the log in step. */
module OutboxProofs {
  import opened Common
  import opened Events
  import opened ByteLines
  import opened OutboxModel

  /** The rows are the unconfirmed stagings, in staging order, under rising keys and with distinct event identifiers. */
  ghost predicate RowsInv(o: Tables) {
    |o.places| == |o.rows| && RowsRise(o.rows, o.places) && RowsHold(o) && Unconfirmed(o.places, o.confirmed, |o.history|)
  }

  ghost predicate RowsRise(rows: seq<Row>, places: seq<nat>)
    requires |places| == |rows|
  {
    && (forall i, j :: 0 <= i < j < |rows| ==> rows[i].id < rows[j].id && places[i] < places[j])
    && (forall i, j :: 0 <= i < j < |rows| ==> rows[i].envelope.eventId != rows[j].envelope.eventId)
  }

  ghost predicate RowsHold(o: Tables)
    requires |o.places| == |o.rows|
  {
    forall i :: 0 <= i < |o.rows| ==> Holds(o, o.rows[i], o.places[i])
  }

  /** Every staging is either still waiting or confirmed. */
  ghost predicate Unconfirmed(places: seq<nat>, confirmed: set<nat>, total: nat) {
    (forall n :: 0 <= n < total ==> (n in places <==> n !in confirmed)) && forall n :: n in confirmed ==> n < total
  }

  /** A row is the staging at its place, identifier and content unchanged. */
  ghost predicate Holds(o: Tables, row: Row, place: nat) {
    place < |o.history| && o.history[place].source == row.source && o.history[place].envelope == row.envelope
  }

  ghost predicate SequencesInv(o: Tables) {
    Numbered(Envelopes(o.history)) && forall stream :: At(o.sequences, stream) == CountOf(Envelopes(o.history), stream)
  }

  /** Each envelope is its record under the sequence number it was given. */
  ghost predicate MappedFrom(entry: Entry) {
    exists sequences, minted, now :: MapEvent(entry.record, sequences, minted, now) == Ok(entry.envelope)
  }

  /** The stagings of a source are the complete lines of its log up to the offset, once each and in order. */
  ghost predicate LogInv(setup: Setup, o: Tables, source: string, log: Bytes) {
    && IsBoundary(log, At(o.offsets, source))
    && RecordsOf(o.history, source) == ReadLines(setup, source, Lines(log[..At(o.offsets, source)]))
  }

  ghost predicate TableInv(o: Tables) {
    RowsInv(o) && SequencesInv(o) && forall i :: 0 <= i < |o.history| ==> MappedFrom(o.history[i])
  }

  // ---- One record -----------------------------------------------------------------------------

  lemma EnvelopesAppend(history: seq<Entry>, entry: Entry)
    ensures Envelopes(history + [entry]) == Envelopes(history) + [entry.envelope]
  {}

  lemma RecordsAppend(history: seq<Entry>, entry: Entry, source: string)
    ensures RecordsOf(history + [entry], source) == RecordsOf(history, source) + if entry.source == source then [Some(entry.record)] else []
  {}

  lemma ReadLinesAppend(setup: Setup, source: string, lines: seq<Bytes>, line: Bytes)
    ensures ReadLines(setup, source, lines + [line]) == ReadLines(setup, source, lines) + [ReadLine(setup, source, line)]
  {}

  lemma NumberedAppend(h: Log, e: Envelope)
    requires Numbered(h) && WellFormed(e) && e.streamSeq == CountOf(h, e.stream) + 1
    ensures Numbered(h + [e]) && forall stream :: CountOf(h + [e], stream) == CountOf(h, stream) + if stream == e.stream then 1 else 0
  {
    hide WellFormed;
    assert (h + [e])[..|h|] == h;
    forall i | 0 <= i < |h + [e]|
      ensures WellFormed((h + [e])[i]) && (h + [e])[i].streamSeq == CountOf((h + [e])[..i], (h + [e])[i].stream) + 1
    {
      if i < |h| { assert (h + [e])[..i] == h[..i]; }
    }
  }

  /** A mapped envelope is well formed, and its number is the next one of its stream. */
  lemma MapEventIsNext(record: Record, sequences: Positions, minted: string, now: int)
    ensures var r := MapEvent(record, sequences, minted, now);
            r.Ok? ==> WellFormed(r.value) && r.value.stream == StreamOf(record) && r.value.streamSeq == At(sequences, r.value.stream) + 1
  {}

  lemma StageOneKeepsRows(o: Tables, source: string, record: Record, next: nat, minted: string, now: int)
    requires RowsInv(o)
    ensures var r := StageOne(o, source, record, next, minted, now); r.Ok? ==> RowsInv(r.value)
  {
    hide MapEvent;
  }

  lemma StageOneKeepsSequences(o: Tables, source: string, record: Record, next: nat, minted: string, now: int)
    requires SequencesInv(o)
    ensures var r := StageOne(o, source, record, next, minted, now); r.Ok? ==> SequencesInv(r.value)
  {
    hide MapEvent; hide Numbered; hide WellFormed; hide CountOf; hide Envelopes; hide NextId; hide StreamOf;
    MapEventIsNext(record, o.sequences, minted, now);
    var r := MapEvent(record, o.sequences, minted, now);
    if r.Ok? {
      EnvelopesAppend(o.history, Entry(source, record, r.value));
      NumberedAppend(Envelopes(o.history), r.value);
    }
  }

  lemma StageOneKeepsTables(o: Tables, source: string, record: Record, next: nat, minted: string, now: int)
    requires TableInv(o)
    ensures var r := StageOne(o, source, record, next, minted, now); r.Ok? ==> TableInv(r.value)
  {
    hide MapEvent; hide RowsInv; hide SequencesInv; hide NextId;
    StageOneKeepsRows(o, source, record, next, minted, now);
    StageOneKeepsSequences(o, source, record, next, minted, now);
  }

  /** Staging the next line of a log keeps the history in step with it. */
  lemma StageOneKeepsLog(setup: Setup, o: Tables, source: string, log: Bytes, record: Record, next: nat, minted: string, now: int)
    requires LogInv(setup, o, source, log)
    requires At(o.offsets, source) < next <= |log| && IsLine(log[At(o.offsets, source)..next])
    requires ReadLine(setup, source, log[At(o.offsets, source)..next]) == Some(record)
    ensures var r := StageOne(o, source, record, next, minted, now); r.Ok? ==> LogInv(setup, r.value, source, log)
  {
    hide MapEvent; hide Lines; hide ReadLine; hide RecordsOf; hide ReadLines; hide NextId; hide IsLine;
    var at := At(o.offsets, source);
    LinesAppend(log, at, next);
    ReadLinesAppend(setup, source, Lines(log[..at]), log[at..next]);
    var r := MapEvent(record, o.sequences, minted, now);
    if r.Ok? { RecordsAppend(o.history, Entry(source, record, r.value), source); }
  }

  /** Staging for one source leaves every other source alone. */
  lemma StageOneKeepsOthers(setup: Setup, o: Tables, source: string, other: string, log: Bytes,
                            record: Record, next: nat, minted: string, now: int)
    requires LogInv(setup, o, other, log) && other != source
    ensures var r := StageOne(o, source, record, next, minted, now); r.Ok? ==> LogInv(setup, r.value, other, log)
  {}

  // ---- A whole transaction --------------------------------------------------------------------

  /** The history only grows, and the tables of other concern are untouched. */
  ghost predicate Grows(o: Tables, p: Tables) {
    o.history <= p.history && o.confirmed == p.confirmed && o.identities == p.identities && o.places <= p.places && o.rows <= p.rows
  }

  lemma {:induction false} StageAllKeepsTables(o: Tables, source: string, batch: seq<Item>, now: int)
    requires TableInv(o)
    ensures var r := StageAll(o, source, batch, now); r.Ok? ==> TableInv(r.value) && Grows(o, r.value)
    decreases |batch|
  {
    hide StageOne; hide TableInv;
    if batch != [] {
      StageOneKeepsTables(o, source, batch[0].record, batch[0].next, batch[0].minted, now);
      var r := StageOne(o, source, batch[0].record, batch[0].next, batch[0].minted, now);
      StageOneGrows(o, source, batch[0], now);
      if r.Ok? { StageAllKeepsTables(r.value, source, batch[1..], now); }
    }
  }

  lemma StageOneGrows(o: Tables, source: string, item: Item, now: int)
    ensures var r := StageOne(o, source, item.record, item.next, item.minted, now);
            r.Ok? ==> Grows(o, r.value) && r.value.offsets == o.offsets[source := item.next]
  {}

  /** A committed batch of the next lines leaves the offset at their end, and the history equal to the lines up to it. */
  lemma {:induction false} StageAllKeepsLog(setup: Setup, o: Tables, source: string, log: Bytes, batch: seq<Item>, now: int)
    requires LogInv(setup, o, source, log) && Reads(setup, source, log, At(o.offsets, source), batch)
    ensures var r := StageAll(o, source, batch, now);
            r.Ok? ==> LogInv(setup, r.value, source, log) && At(r.value.offsets, source) == EndOf(At(o.offsets, source), batch)
    decreases |batch|
  {
    hide StageOne; hide LogInv; hide IsLine; hide ReadLine;
    if batch != [] {
      StageOneKeepsLog(setup, o, source, log, batch[0].record, batch[0].next, batch[0].minted, now);
      StageOneGrows(o, source, batch[0], now);
      var r := StageOne(o, source, batch[0].record, batch[0].next, batch[0].minted, now);
      if r.Ok? { StageAllKeepsLog(setup, r.value, source, log, batch[1..], now); }
    }
  }

  lemma {:induction false} StageAllKeepsOthers(setup: Setup, o: Tables, source: string, other: string, log: Bytes, batch: seq<Item>, now: int)
    requires LogInv(setup, o, other, log) && other != source
    ensures var r := StageAll(o, source, batch, now);
            r.Ok? ==> LogInv(setup, r.value, other, log) && At(r.value.offsets, other) == At(o.offsets, other)
    decreases |batch|
  {
    hide StageOne; hide LogInv;
    if batch != [] {
      StageOneKeepsOthers(setup, o, source, other, log, batch[0].record, batch[0].next, batch[0].minted, now);
      StageOneGrows(o, source, batch[0], now);
      var r := StageOne(o, source, batch[0].record, batch[0].next, batch[0].minted, now);
      if r.Ok? { StageAllKeepsOthers(setup, r.value, source, other, log, batch[1..], now); }
    }
  }

  // ---- Acknowledging --------------------------------------------------------------------------

  lemma WithoutAt<T>(s: seq<T>, k: nat)
    requires k < |s|
    ensures forall i :: 0 <= i < |s| - 1 ==> Without(s, k)[i] == s[if i < k then i else i + 1]
  {}

  lemma DeleteKeepsRise(rows: seq<Row>, places: seq<nat>, k: nat)
    requires |places| == |rows| && k < |rows| && RowsRise(rows, places)
    ensures RowsRise(Without(rows, k), Without(places, k))
  {
    WithoutAt(rows, k);
    WithoutAt(places, k);
    hide Without;
  }

  lemma DeleteKeepsRows(o: Tables, source: string, id: nat)
    requires RowsInv(o)
    ensures RowsInv(Delete(o, source, id))
  {
    hide RowsRise; hide Holds; hide IndexOf; hide Unconfirmed;
    var k := IndexOf(o.rows, source, id);
    if k < |o.rows| {
      HoldsInRange(o, k);
      DeleteKeepsRise(o.rows, o.places, k);
      DeleteKeepsPartition(o.rows, o.places, o.confirmed, |o.history|, k);
      WithoutAt(o.rows, k);
      WithoutAt(o.places, k);
      var p := Delete(o, source, id);
      forall i | 0 <= i < |p.rows|
        ensures Holds(p, p.rows[i], p.places[i])
      {
        HoldsByHistory(o, p, o.rows[if i < k then i else i + 1], o.places[if i < k then i else i + 1]);
      }
    }
  }

  lemma HoldsInRange(o: Tables, k: nat)
    requires RowsInv(o) && k < |o.rows|
    ensures o.places[k] < |o.history|
  {}

  lemma HoldsByHistory(o: Tables, p: Tables, row: Row, place: nat)
    requires Holds(o, row, place) && o.history <= p.history
    ensures Holds(p, row, place)
  {}

  lemma DeleteKeepsPartition(rows: seq<Row>, places: seq<nat>, confirmed: set<nat>, total: nat, k: nat)
    requires |places| == |rows| && k < |rows| && RowsRise(rows, places) && Unconfirmed(places, confirmed, total) && places[k] < total
    ensures Unconfirmed(Without(places, k), confirmed + {places[k]}, total)
  {}

  lemma {:induction false} AcknowledgeKeepsTables(o: Tables, source: string, ids: seq<nat>)
    requires TableInv(o)
    ensures var p := Acknowledge(o, source, ids);
            TableInv(p) && p.history == o.history && p.offsets == o.offsets && p.identities == o.identities
    decreases |ids|
  {
    hide RowsInv; hide SequencesInv; hide MappedFrom;
    if ids != [] {
      DeleteKeepsRows(o, source, ids[0]);
      RowsGiveLengths(o);
      assert SequencesInv(Delete(o, source, ids[0])) by { SameHistory(o, Delete(o, source, ids[0])); }
      AcknowledgeKeepsTables(Delete(o, source, ids[0]), source, ids[1..]);
    }
  }

  lemma RowsGiveLengths(o: Tables)
    requires RowsInv(o)
    ensures |o.places| == |o.rows|
  {}

  lemma SameHistory(o: Tables, p: Tables)
    requires SequencesInv(o) && p.history == o.history && p.sequences == o.sequences
    ensures SequencesInv(p)
  {}

  lemma {:induction false} AcknowledgeKeepsLog(setup: Setup, o: Tables, source: string, ids: seq<nat>, log: Bytes)
    requires |o.places| == |o.rows| && LogInv(setup, o, source, log)
    ensures LogInv(setup, Acknowledge(o, source, ids), source, log)
    ensures var p := Acknowledge(o, source, ids); p.history == o.history && p.offsets == o.offsets
    decreases |ids|
  {
    hide RecordsOf; hide ReadLines; hide Lines; hide IndexOf;
    if ids != [] { AcknowledgeKeepsLog(setup, Delete(o, source, ids[0]), source, ids[1..], log); }
  }

  /** Bytes appended to a log are beyond what has been staged. */
  lemma LogGrows(setup: Setup, o: Tables, source: string, log: Bytes, longer: Bytes)
    requires LogInv(setup, o, source, log) && log <= longer
    ensures LogInv(setup, o, source, longer)
  {
    hide RecordsOf; hide ReadLines; hide Lines;
    assert longer[..At(o.offsets, source)] == log[..At(o.offsets, source)];
  }

  lemma {:induction false} StageAllGrows(o: Tables, source: string, batch: seq<Item>, now: int)
    ensures var r := StageAll(o, source, batch, now); r.Ok? ==> Grows(o, r.value)
    decreases |batch|
  {
    hide StageOne;
    if batch != [] {
      StageOneGrows(o, source, batch[0], now);
      var r := StageOne(o, source, batch[0].record, batch[0].next, batch[0].minted, now);
      if r.Ok? { StageAllGrows(r.value, source, batch[1..], now); }
    }
  }
}
