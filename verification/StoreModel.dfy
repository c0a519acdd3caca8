/** The client's stream store as values: what each message, flush tick and disconnect does to it. */
module StoreModel {
  import opened Events

  /** A JavaScript Map: updating a key keeps its place, and iteration is in insertion order. */
  datatype EntityMap = EntityMap(order: seq<EntityKey>, values: map<EntityKey, Envelope>) {
    function Set(k: EntityKey, e: Envelope): EntityMap {
      EntityMap(if k in values then order else order + [k], values[k := e])
    }

    /** delete(keys().next().value) */
    function DropOldest(): EntityMap
      requires order != []
    {
      EntityMap(order[1..], values - {order[0]})
    }

    function Size(): nat { |order| }

    /** order lists each key once. */
    ghost predicate Valid() {
      (forall i, j :: 0 <= i < j < |order| ==> order[i] != order[j]) && (forall k :: k in order <==> k in values)
    }
  }

  const EMPTY := EntityMap([], map[])
  const CAPACITY: nat := 20_000

  /** for(const [key, event] of from) into.set(key, event) */
  function Poured(from: EntityMap, keys: seq<EntityKey>, into: EntityMap): EntityMap
    requires forall k :: k in keys ==> k in from.values
  {
    if keys == [] then into else Poured(from, keys[1..], into.Set(keys[0], from.values[keys[0]]))
  }

  datatype Phase = Connecting | InSnapshot | Live | Recovering | Disconnected
  datatype Recovery = OneStream(stream: string, after: nat) | AllStreams
  datatype Staged = Staged(events: EntityMap, positions: Positions)

  /** The published copy that subscribers read. */
  datatype Shown = Shown(version: nat, phase: Phase, events: EntityMap, positions: Positions, conflated: nat, gaps: nat,
                         heartbeat: int)

  /** delivered and recoveries record the calls made to the critical listeners and to recover. */
  datatype Store = Store(events: EntityMap, positions: Positions, phase: Phase, version: nat, conflated: nat, gaps: nat,
                         heartbeat: int, snapshots: map<string, Staged>, pendingMarket: EntityMap, notifyQueued: bool,
                         shown: Shown, delivered: seq<Envelope>, recoveries: seq<Recovery>)

  datatype Watermark = Watermark(stream: string, last: nat)
  datatype Row = Undecodable | Decoded(event: Envelope)
  datatype Message =
    | SnapshotBegin(sub: string, marks: seq<Watermark>)
    | SnapshotBatch(sub: string, byteLength: nat, rowCount: nat, hasColumn: bool, rows: seq<Row>)
    | SnapshotEnd(sub: string, marks: seq<Watermark>)
    | Event(event: Envelope)
    | Heartbeat(time: int)
    | SequenceGap(stream: string)
    | ServerError(retryable: bool)

  /** A thrown error leaves the state it interrupted. */
  datatype Result = Result(store: Store, thrown: bool)

  const INITIAL := Store(EMPTY, map[], Connecting, 0, 0, 0, 0, map[], EMPTY, false,
                         Shown(0, Connecting, EMPTY, map[], 0, 0, 0), [], [])

  function MarksOf(marks: seq<Watermark>): Positions {
    if marks == [] then map[] else
    var last := marks[|marks| - 1];
    MarksOf(marks[..|marks| - 1])[last.stream := last.last]
  }

  /** update: any patch of the working state queues a notification. */
  function Queued(s: Store): Store { s.(notifyQueued := true) }

  function Begun(s: Store, sub: string, marks: seq<Watermark>): Result {
    var positions := MarksOf(marks);
    if exists stream :: stream in positions && positions[stream] < At(s.positions, stream) then Result(s, true)
    else Result(Queued(s.(snapshots := s.snapshots[sub := Staged(EMPTY, positions)], phase := InSnapshot)), false)
  }

  /** The rows are staged one by one until one of them throws. */
  function StagedRows(staged: Staged, rows: seq<Row>): (Staged, bool)
    decreases |rows|
  {
    if rows == [] then (staged, false)
    else if rows[0].Undecodable? then (staged, true)
    else
      var event := rows[0].event;
      if event.streamSeq > At(staged.positions, event.stream) then (staged, true)
      else StagedRows(staged.(events := staged.events.Set(KeyOf(event), event)), rows[1..])
  }

  function Batched(s: Store, sub: string, byteLength: nat, rowCount: nat, hasColumn: bool, rows: seq<Row>): Result {
    if sub !in s.snapshots || byteLength > 1_048_576 || rowCount > 2048 || |rows| != rowCount || !hasColumn then Result(s, true)
    else
      var (staged, thrown) := StagedRows(s.snapshots[sub], rows);
      Result(s.(snapshots := s.snapshots[sub := staged]), thrown)
  }

  function Ended(s: Store, sub: string, marks: seq<Watermark>): Result {
    if sub in s.snapshots then
      var staged := s.snapshots[sub];
      if MarksOf(marks) != staged.positions then Result(s, true)
      else Result(Queued(s.(snapshots := s.snapshots - {sub}, pendingMarket := EMPTY, events := staged.events,
                            positions := staged.positions, phase := Live)), false)
    else if exists i :: 0 <= i < |marks| && At(s.positions, marks[i].stream) < marks[i].last then Result(s, true)
    else Result(Queued(s.(phase := Live)), false)
  }

  function Trimmed(m: EntityMap): EntityMap {
    if m.Size() > CAPACITY then m.DropOldest() else m
  }

  function Accepted(s: Store, event: Envelope): Result {
    var previous := At(s.positions, event.stream);
    if event.schemaVersion != 2 then Result(s, true)
    else if event.streamSeq <= previous then Result(s, false)
    else if event.streamSeq != previous + 1 then
      Result(Queued(s.(phase := Recovering, gaps := s.gaps + 1, recoveries := s.recoveries + [OneStream(event.stream, previous)])), false)
    else
      var moved := s.(positions := s.positions[event.stream := event.streamSeq]);
      if IsMarket(event) then
        var replaced := KeyOf(event) in s.pendingMarket.values;
        Result(Queued(moved.(pendingMarket := s.pendingMarket.Set(KeyOf(event), event),
                             conflated := s.conflated + if replaced then 1 else 0)), false)
      else
        Result(Queued(moved.(events := Trimmed(s.events.Set(KeyOf(event), event)), delivered := s.delivered + [event])), false)
  }

  function Ingested(s: Store, m: Message): Result {
    match m
    case SnapshotBegin(sub, marks) => Begun(s, sub, marks)
    case SnapshotBatch(sub, byteLength, rowCount, hasColumn, rows) => Batched(s, sub, byteLength, rowCount, hasColumn, rows)
    case SnapshotEnd(sub, marks) => Ended(s, sub, marks)
    case Event(event) => Accepted(s, event)
    case Heartbeat(time) => Result(Queued(s.(heartbeat := time)), false)
    case SequenceGap(stream) =>
      Result(Queued(s.(phase := Recovering, gaps := s.gaps + 1,
                       recoveries := s.recoveries + [OneStream(stream, At(s.positions, stream))])), false)
    case ServerError(retryable) =>
      Result(Queued(s.(phase := Recovering, recoveries := if retryable then s.recoveries + [AllStreams] else s.recoveries)), !retryable)
  }

  ghost predicate MapsValid(s: Store) {
    s.events.Valid() && s.pendingMarket.Valid() && forall sub :: sub in s.snapshots ==> s.snapshots[sub].events.Valid()
  }

  /** The timer's callback: pour the pending quotes into the working map and publish a copy. */
  function Flushed(s: Store): Store
    requires forall k :: k in s.pendingMarket.order ==> k in s.pendingMarket.values
  {
    if !s.notifyQueued then s else
    var events := Poured(s.pendingMarket, s.pendingMarket.order, s.events);
    s.(notifyQueued := false, events := events, pendingMarket := EMPTY, version := s.version + 1,
       shown := Shown(s.version + 1, s.phase, events, s.positions, s.conflated, s.gaps, s.heartbeat))
  }

  function Dropped(s: Store): Store
    requires forall k :: k in s.pendingMarket.order ==> k in s.pendingMarket.values
  {
    Queued(s.(snapshots := map[], events := Poured(s.pendingMarket, s.pendingMarket.order, s.events),
              pendingMarket := EMPTY, phase := Disconnected))
  }

  datatype Step = Ingest(message: Message) | FlushTick | Disconnect | Connect

  ghost function Advance(s: Store, step: Step): Store
    requires MapsValid(s)
  {
    match step
    case Ingest(m) => Ingested(s, m).store
    case FlushTick => Flushed(s)
    case Disconnect => Dropped(s)
    case Connect => Queued(s.(phase := Connecting))
  }

  /** What a subscriber would see if it looked now: the published kind of map, overlaid with the quotes still pending. */
  function Overlay(s: Store): map<EntityKey, Envelope> { s.events.values + s.pendingMarket.values }
}
