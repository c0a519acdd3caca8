/** The durable outbox as values: the tables, and what each transaction does to them. */
module OutboxModel {
  import opened Common
  import opened Events
  import opened ByteLines

  /** One persisted log record. eventType is what its name denotes, if it is a supported name; body stands for its other fields. */
  datatype Record = Record(eventType: Option<EventType>, stream: Option<string>, streamSeq: Option<nat>, eventId: Option<string>,
                           occurredAt: Option<int>, receivedAt: Option<int>, runId: Option<string>, instrumentId: Option<string>,
                           body: Body)

  /** What an adapter knows from outside: how a line parses, and the run each source is started for. */
  datatype Setup = Setup(parse: Bytes -> Option<Record>, runs: string -> string)

  datatype Failure = TooMany | NotAdvanced | NoTimestamp | Unsupported | SequenceGap | BadPayload | DuplicateEventId
  datatype Result<+T> = Ok(value: T) | Err(error: Failure)

  datatype Row = Row(id: nat, source: string, envelope: Envelope)
  datatype Entry = Entry(source: string, record: Record, envelope: Envelope)

  /** offsets, identities, sequences and rows are the tables. history, places and confirmed record every staging, which of
      them each row holds, and which ones have been deleted. */
  datatype Tables = Tables(offsets: map<string, nat>, identities: map<string, string>, sequences: Positions, rows: seq<Row>,
                           history: seq<Entry>, places: seq<nat>, confirmed: set<nat>)

  const BATCH: nat := 256
  const EMPTY_OUTBOX := Tables(map[], map[], map[], [], [], [], {})

  /** INSERT OR IGNORE: a source starts at offset 0. */
  function Opened(o: Tables, source: string): Tables {
    o.(offsets := if source in o.offsets then o.offsets else o.offsets[source := 0])
  }

  /** The record of one line, with the adapter's run filled in where the line names none. */
  function ReadLine(setup: Setup, source: string, line: Bytes): Option<Record> {
    match setup.parse(line)
    case None => None
    case Some(record) => Some(if record.runId.None? then record.(runId := Some(setup.runs(source))) else record)
  }

  function OrElse<T>(o: Option<T>, t: T): T { if o.Some? then o.value else t }

  function StreamOf(record: Record): string {
    if record.stream.Some? then record.stream.value
    else if record.runId.Some? then "run." + record.runId.value
    else if record.instrumentId.Some? then "market." + record.instrumentId.value
    else "system.events"
  }

  function NextSequence(sequences: Positions, stream: string, supplied: Option<nat>): Result<nat> {
    var next := OrElse(supplied, At(sequences, stream) + 1);
    if next != At(sequences, stream) + 1 then Err(SequenceGap) else Ok(next)
  }

  /** minted is the identifier minted for a record that has none. */
  function MapEvent(record: Record, sequences: Positions, minted: string, now: int): Result<Envelope> {
    if record.occurredAt.None? || record.occurredAt.value <= 0 then Err(NoTimestamp)
    else if record.eventType.None? then Err(Unsupported)
    else
      var stream := StreamOf(record);
      match NextSequence(sequences, stream, record.streamSeq)
      case Err(e) => Err(e)
      case Ok(n) =>
        match PayloadFor(record.eventType.value, record.body)
        case None => Err(BadPayload)
        case Some(payload) =>
          Ok(Envelope(2, stream, n, OrElse(record.eventId, minted), record.eventType.value, OrElse(record.runId, ""),
                      OrElse(record.instrumentId, ""), record.occurredAt.value, OrElse(record.receivedAt, now), payload,
                      record.body.rest))
  }

  /** The integer primary key of the next row. */
  function NextId(rows: seq<Row>): nat { if rows == [] then 1 else rows[|rows| - 1].id + 1 }

  function StageOne(o: Tables, source: string, record: Record, next: nat, minted: string, now: int): Result<Tables> {
    if next <= At(o.offsets, source) then Err(NotAdvanced) else
    match MapEvent(record, o.sequences, minted, now)
    case Err(e) => Err(e)
    case Ok(envelope) =>
      if exists row :: row in o.rows && row.envelope.eventId == envelope.eventId then Err(DuplicateEventId)
      else Ok(o.(offsets := o.offsets[source := next], sequences := o.sequences[envelope.stream := envelope.streamSeq],
                 rows := o.rows + [Row(NextId(o.rows), source, envelope)],
                 history := o.history + [Entry(source, record, envelope)], places := o.places + [|o.history|]))
  }

  datatype Item = Item(record: Record, next: nat, minted: string)

  function StageAll(o: Tables, source: string, batch: seq<Item>, now: int): Result<Tables>
    decreases |batch|
  {
    if batch == [] then Ok(o) else
    match StageOne(o, source, batch[0].record, batch[0].next, batch[0].minted, now)
    case Err(e) => Err(e)
    case Ok(o1) => StageAll(o1, source, batch[1..], now)
  }

  /** One transaction: all of the batch or none of it. */
  function Stage(o: Tables, source: string, batch: seq<Item>, now: int): Result<Tables> {
    if |batch| > BATCH then Err(TooMany) else StageAll(o, source, batch, now)
  }

  /** The first rows of a source, in the order of their keys. */
  function OfSource(rows: seq<Row>, source: string): seq<Row> {
    if rows == [] then [] else OfSource(rows[..|rows| - 1], source) + if rows[|rows| - 1].source == source then [rows[|rows| - 1]] else []
  }

  function Pending(o: Tables, source: string, limit: nat): seq<Row> {
    var rows := OfSource(o.rows, source);
    var n := if limit < BATCH then limit else BATCH;
    if |rows| <= n then rows else rows[..n]
  }

  function IndexOf(rows: seq<Row>, source: string, id: nat): (k: nat)
    ensures k <= |rows| && (k < |rows| ==> rows[k].id == id && rows[k].source == source)
    ensures k == |rows| ==> forall j :: 0 <= j < |rows| ==> !(rows[j].id == id && rows[j].source == source)
  {
    if rows == [] || (rows[0].id == id && rows[0].source == source) then 0 else 1 + IndexOf(rows[1..], source, id)
  }

  function Without<T>(s: seq<T>, k: nat): seq<T>
    requires k < |s|
  {
    s[..k] + s[k + 1..]
  }

  function Delete(o: Tables, source: string, id: nat): Tables
    requires |o.places| == |o.rows|
  {
    var k := IndexOf(o.rows, source, id);
    if k == |o.rows| then o
    else o.(rows := Without(o.rows, k), places := Without(o.places, k), confirmed := o.confirmed + {o.places[k]})
  }

  function Acknowledge(o: Tables, source: string, ids: seq<nat>): (r: Tables)
    requires |o.places| == |o.rows|
    ensures |r.places| == |r.rows|
    decreases |ids|
  {
    if ids == [] then o else Acknowledge(Delete(o, source, ids[0]), source, ids[1..])
  }

  function Envelopes(history: seq<Entry>): Log {
    if history == [] then [] else Envelopes(history[..|history| - 1]) + [history[|history| - 1].envelope]
  }

  /** The records staged from one source, in order. */
  function RecordsOf(history: seq<Entry>, source: string): seq<Option<Record>> {
    if history == [] then [] else
    var last := history[|history| - 1];
    RecordsOf(history[..|history| - 1], source) + if last.source == source then [Some(last.record)] else []
  }

  function ReadLines(setup: Setup, source: string, lines: seq<Bytes>): seq<Option<Record>> {
    if lines == [] then [] else
    ReadLines(setup, source, lines[..|lines| - 1]) + [ReadLine(setup, source, lines[|lines| - 1])]
  }

  /** The batch is the next complete lines of the log from a place on, each with the place where it ends. */
  predicate Reads(setup: Setup, source: string, log: Bytes, at: nat, batch: seq<Item>)
    decreases |batch|
  {
    batch == [] ||
    (at < batch[0].next <= |log| && IsLine(log[at..batch[0].next])
     && ReadLine(setup, source, log[at..batch[0].next]) == Some(batch[0].record)
     && Reads(setup, source, log, batch[0].next, batch[1..]))
  }

  function EndOf(at: nat, batch: seq<Item>): nat { if batch == [] then at else batch[|batch| - 1].next }
}
