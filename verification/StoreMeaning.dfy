/** What the store's own figures mean: which events it takes, asks for or refuses, what it drops, and what its counters count. */
module StoreMeaning {
  import opened Events
  import opened EventKeys
  import opened StoreModel
  import opened StoreProofs

  predicate Reached(s: Store, e: Envelope, n: nat) { n == if e.stream in s.positions then s.positions[e.stream] else 0 }

  /** Only version 2 is taken. An event at or before the position changes nothing; one beyond the next counts a gap, puts the store into
      recovery and asks for what follows the position; the next one moves the position. Anything that is taken or missed is notified. */
  lemma AcceptMeans(s: Store, e: Envelope, n: nat)
    requires Reached(s, e, n)
    ensures var r := Accepted(s, e); var t := r.store;
            && (r.thrown <==> e.schemaVersion != 2)
            && (e.schemaVersion != 2 || e.streamSeq <= n ==> t == s)
            && (e.schemaVersion == 2 && e.streamSeq > n + 1 ==>
                  t == s.(gaps := s.gaps + 1, phase := Recovering, recoveries := s.recoveries + [OneStream(e.stream, n)], notifyQueued := true))
            && (e.schemaVersion == 2 && e.streamSeq == n + 1 ==>
                  && t.positions == s.positions[e.stream := n + 1] && t.notifyQueued
                  && t.gaps == s.gaps && t.phase == s.phase && t.recoveries == s.recoveries && t.snapshots == s.snapshots && t.shown == s.shown
                  && t.version == s.version && t.heartbeat == s.heartbeat)
  {
    hide KeyOf; hide EntityMap.Set; hide Trimmed;
  }

  /** A market event waits in the pending map in place of the one of its entity, which then counts as conflated: an event more is waiting
      or conflated. A critical event goes into the working map and to the listeners at once. */
  lemma TakenMeans(s: Store, e: Envelope, n: nat)
    requires Reached(s, e, n) && e.schemaVersion == 2 && e.streamSeq == n + 1 && s.pendingMarket.Valid()
    ensures var t := Accepted(s, e).store;
            if e.eventType == MarketQuote || e.eventType == OrderBookUpdated then
              && t.events == s.events && t.delivered == s.delivered
              && |t.pendingMarket.order| + t.conflated == |s.pendingMarket.order| + s.conflated + 1
              && e in t.pendingMarket.values.Values
              && (forall k :: k in t.pendingMarket.values ==>
                    t.pendingMarket.values[k] == e || (k in s.pendingMarket.values && t.pendingMarket.values[k] == s.pendingMarket.values[k]))
            else
              t.pendingMarket == s.pendingMarket && t.conflated == s.conflated && t.delivered == s.delivered + [e]
  {
    hide KeyOf; hide Trimmed;
    if IsMarket(e) {
      var t := Accepted(s, e).store;
      assert KeyOf(e) in t.pendingMarket.values && t.pendingMarket.values[KeyOf(e)] == e;
    }
  }

  /** A working map of more than 20 000 entities loses the one that came first, and no other. */
  lemma TrimmedMeans(m: EntityMap)
    requires m.Valid()
    ensures |m.order| <= 20_000 ==> Trimmed(m) == m
    ensures |m.order| > 20_000 ==>
              Trimmed(m).order == m.order[1..] && forall k :: k in Trimmed(m).values <==> k in m.values && k != m.order[0]
    ensures forall k :: k in Trimmed(m).values ==> Trimmed(m).values[k] == m.values[k]
  {}

  /** An entity keeps the place at which it came first. */
  lemma SetMeans(m: EntityMap, k: EntityKey, e: Envelope)
    requires m.Valid()
    ensures var t := m.Set(k, e);
            && m.order <= t.order && |t.order| == |m.order| + (if k in m.values then 0 else 1) && (k !in m.values ==> t.order[|m.order|] == k)
            && k in t.values && t.values[k] == e
            && forall other :: other != k ==> (other in t.values <==> other in m.values) && (other in m.values ==> t.values[other] == m.values[other])
  {}

  /** The last watermark of a stream counts. */
  lemma {:induction false} MarksMean(marks: seq<Watermark>, stream: string)
    ensures stream in MarksOf(marks) <==> exists i :: 0 <= i < |marks| && marks[i].stream == stream
    ensures forall i :: 0 <= i < |marks| && marks[i].stream == stream && (forall j :: i < j < |marks| ==> marks[j].stream != stream) ==>
              stream in MarksOf(marks) && MarksOf(marks)[stream] == marks[i].last
  {
    if marks != [] {
      var init, last := marks[..|marks| - 1], marks[|marks| - 1];
      MarksMean(init, stream);
      assert forall i :: 0 <= i < |init| ==> init[i] == marks[i];
      assert stream == last.stream ==> marks[|marks| - 1].stream == stream;
    }
  }

  /** A snapshot is refused when it begins behind a position; otherwise it is staged empty, at its watermarks. */
  lemma BeginMeans(s: Store, sub: string, marks: seq<Watermark>)
    ensures var r, p := Begun(s, sub, marks), MarksOf(marks);
            && (r.thrown <==> exists stream :: stream in p && p[stream] < if stream in s.positions then s.positions[stream] else 0)
            && (if r.thrown then r.store == s
                else r.store == s.(snapshots := s.snapshots[sub := Staged(EntityMap([], map[]), p)], phase := InSnapshot, notifyQueued := true))
  {
    hide MarksOf;
    var p := MarksOf(marks);
    assert forall stream :: stream in p ==> At(s.positions, stream) == if stream in s.positions then s.positions[stream] else 0;
  }

  /** The end of a staged snapshot must repeat its watermarks; then it becomes the view, and what was pending is dropped. The end of a
      replay without staging must not be ahead of the positions, and moves none. Either way the store is live again. */
  lemma EndMeans(s: Store, sub: string, marks: seq<Watermark>)
    ensures var r := Ended(s, sub, marks);
            && (r.thrown <==> if sub in s.snapshots then MarksOf(marks) != s.snapshots[sub].positions
                              else exists i :: 0 <= i < |marks| && marks[i].last > At(s.positions, marks[i].stream))
            && (r.thrown ==> r.store == s)
            && (!r.thrown && sub in s.snapshots ==>
                  r.store == s.(snapshots := s.snapshots - {sub}, pendingMarket := EntityMap([], map[]), events := s.snapshots[sub].events,
                                positions := s.snapshots[sub].positions, phase := Live, notifyQueued := true))
            && (!r.thrown && sub !in s.snapshots ==> r.store == s.(phase := Live, notifyQueued := true))
  {
    hide MarksOf;
  }

  ghost predicate Stageable(p: Positions, row: Row) {
    row.Decoded? && row.event.streamSeq <= if row.event.stream in p then p[row.event.stream] else 0
  }

  /** No later one of the first rows is of the same entity. */
  ghost predicate IsLast(rows: seq<Row>, n: nat, i: nat)
    requires i < n <= |rows| && forall j :: 0 <= j < n ==> rows[j].Decoded?
  {
    forall j :: i < j < n ==> KeyOf(rows[j].event) != KeyOf(rows[i].event)
  }

  /** Of the first rows, the last of each entity is the one the map holds. */
  ghost predicate LastCounts(values: map<EntityKey, Envelope>, rows: seq<Row>, n: nat)
    requires n <= |rows| && forall i :: 0 <= i < n ==> rows[i].Decoded?
  {
    forall i :: 0 <= i < n && IsLast(rows, n, i) ==> KeyOf(rows[i].event) in values && values[KeyOf(rows[i].event)] == rows[i].event
  }

  /** An entity that none of the first rows is of is held as before, or not held as before. */
  ghost predicate OthersStay(before: map<EntityKey, Envelope>, after: map<EntityKey, Envelope>, rows: seq<Row>, n: nat)
    requires n <= |rows| && forall i :: 0 <= i < n ==> rows[i].Decoded?
  {
    forall k :: (forall i :: 0 <= i < n ==> KeyOf(rows[i].event) != k) ==>
      (k in after <==> k in before) && (k in before ==> after[k] == before[k])
  }

  /** Rows are staged in order up to the first that does not decode or lies beyond its watermark, which throws. */
  lemma {:induction false} RowsMean(staged: Staged, rows: seq<Row>) returns (n: nat)
    ensures n <= |rows| && (forall i :: 0 <= i < n ==> rows[i].Decoded? && Stageable(staged.positions, rows[i]))
    ensures n < |rows| ==> !Stageable(staged.positions, rows[n])
    ensures var (t, thrown) := StagedRows(staged, rows);
            && t.positions == staged.positions && (thrown <==> n < |rows|)
            && LastCounts(t.events.values, rows, n) && OthersStay(staged.events.values, t.events.values, rows, n)
    decreases |rows|
  {
    hide KeyOf; hide LastCounts; hide OthersStay;
    if rows == [] || !Stageable(staged.positions, rows[0]) {
      n := 0;
      NoRows(staged.events.values, rows);
      assert rows != [] && rows[0].Decoded? ==>
          At(staged.positions, rows[0].event.stream) == if rows[0].event.stream in staged.positions then staged.positions[rows[0].event.stream] else 0;
    } else {
      var e, rest := rows[0].event, rows[1..];
      var next := staged.(events := staged.events.Set(KeyOf(e), e));
      var more := RowsMean(next, rest);
      n := more + 1;
      FirstRowCounts(rows, next.events.values, StagedRows(next, rest).0.events.values, more);
      FirstRowLeaves(staged.events.values, rows, StagedRows(next, rest).0.events.values, more);
    }
  }

  lemma NoRows(values: map<EntityKey, Envelope>, rows: seq<Row>)
    ensures LastCounts(values, rows, 0) && OthersStay(values, values, rows, 0)
  {
    hide KeyOf;
  }

  lemma FirstRowCounts(rows: seq<Row>, before: map<EntityKey, Envelope>, after: map<EntityKey, Envelope>, more: nat)
    requires more < |rows| && forall i :: 0 <= i <= more ==> rows[i].Decoded?
    requires KeyOf(rows[0].event) in before && before[KeyOf(rows[0].event)] == rows[0].event
    requires LastCounts(after, rows[1..], more) && OthersStay(before, after, rows[1..], more)
    ensures LastCounts(after, rows, more + 1)
  {
    hide KeyOf; hide IsLast;
    var rest := rows[1..];
    forall i | 0 <= i <= more && IsLast(rows, more + 1, i)
      ensures KeyOf(rows[i].event) in after && after[KeyOf(rows[i].event)] == rows[i].event
    {
      LastOfRest(rows, more, i);
      if i > 0 { assert rest[i - 1] == rows[i]; }
    }
  }

  lemma LastOfRest(rows: seq<Row>, more: nat, i: nat)
    requires i <= more < |rows| && (forall j :: 0 <= j <= more ==> rows[j].Decoded?) && IsLast(rows, more + 1, i)
    ensures if i > 0 then IsLast(rows[1..], more, i - 1)
            else forall j :: 0 <= j < more ==> KeyOf(rows[1..][j].event) != KeyOf(rows[0].event)
  {
    hide KeyOf;
    assert forall j :: 0 <= j < more ==> rows[1..][j] == rows[j + 1];
  }

  lemma FirstRowLeaves(before: map<EntityKey, Envelope>, rows: seq<Row>, after: map<EntityKey, Envelope>, more: nat)
    requires more < |rows| && forall i :: 0 <= i <= more ==> rows[i].Decoded?
    requires OthersStay(before[KeyOf(rows[0].event) := rows[0].event], after, rows[1..], more)
    ensures OthersStay(before, after, rows, more + 1)
  {
    hide KeyOf;
    var rest := rows[1..];
    forall k | forall i :: 0 <= i <= more ==> KeyOf(rows[i].event) != k
      ensures (k in after <==> k in before) && (k in before ==> after[k] == before[k])
    {
      assert forall j :: 0 <= j < more ==> rest[j] == rows[j + 1];
      assert KeyOf(rows[0].event) != k;
    }
  }

  /** A batch is refused unless it is for a staged snapshot, of at most a mebibyte and 2048 rows, with all its rows in their column. */
  lemma BatchMeans(s: Store, sub: string, byteLength: nat, rowCount: nat, hasColumn: bool, rows: seq<Row>)
    ensures var r := Batched(s, sub, byteLength, rowCount, hasColumn, rows);
            if sub in s.snapshots && byteLength <= 1024 * 1024 && rowCount <= 2048 && hasColumn && |rows| == rowCount then
              var (staged, thrown) := StagedRows(s.snapshots[sub], rows);
              r == Result(s.(snapshots := s.snapshots[sub := staged]), thrown)
            else r == Result(s, true)
  {
    hide StagedRows;
  }

  /** A gap that the server reports counts and is asked about from the position; an error puts the store into recovery, asks for everything
      if it may be tried again, and is thrown if not; a heartbeat is noted. */
  lemma NoticesMean(s: Store, stream: string, n: nat, time: int)
    requires n == if stream in s.positions then s.positions[stream] else 0
    ensures Ingested(s, SequenceGap(stream))
         == Result(s.(phase := Recovering, gaps := s.gaps + 1, recoveries := s.recoveries + [OneStream(stream, n)], notifyQueued := true), false)
    ensures Ingested(s, ServerError(true)) == Result(s.(phase := Recovering, recoveries := s.recoveries + [AllStreams], notifyQueued := true), false)
    ensures Ingested(s, ServerError(false)) == Result(s.(phase := Recovering, notifyQueued := true), true)
    ensures Ingested(s, Heartbeat(time)) == Result(s.(heartbeat := time, notifyQueued := true), false)
  {}

  /** The timer publishes once for what was notified: everything pending is poured, the version goes up by one, and the published copy is
      the store as it then is. A disconnect drops staged snapshots and pours what is pending, and publishes nothing. */
  lemma FlushMeans(s: Store)
    requires MapsValid(s)
    ensures var t := Flushed(s);
            && !t.notifyQueued && (!s.notifyQueued ==> t == s)
            && (s.notifyQueued ==>
                  && t.version == s.version + 1 && t.pendingMarket.order == [] && t.events.values == s.events.values + s.pendingMarket.values
                  && t.shown == Shown(t.version, t.phase, t.events, t.positions, t.conflated, t.gaps, t.heartbeat)
                  && t == s.(version := t.version, pendingMarket := t.pendingMarket, events := t.events, shown := t.shown, notifyQueued := false))
    ensures var t := Dropped(s);
            && t.snapshots == map[] && t.phase == Disconnected && t.pendingMarket.order == [] && t.notifyQueued
            && t.events.values == s.events.values + s.pendingMarket.values
            && t == s.(snapshots := t.snapshots, phase := t.phase, pendingMarket := t.pendingMarket, events := t.events, notifyQueued := true)
  {
    hide Poured;
    PouringMerges(s.pendingMarket, s.events);
  }
}
