/** Critical events are handed on exactly once and in order, and when notifications are flushed cannot be observed. */
module StoreDelivery {
  import opened Events
  import opened StoreModel
  import opened StoreProofs

  /** The critical events of one stream up to a position, in log order. */
  function Critical(h: Log, stream: string, n: nat): seq<Envelope> {
    if h == [] then [] else
    var last := h[|h| - 1];
    Critical(h[..|h| - 1], stream, n) + if last.stream == stream && last.streamSeq <= n && !IsMarket(last) then [last] else []
  }

  function OnStream(events: seq<Envelope>, stream: string): seq<Envelope> {
    if events == [] then [] else
    var last := events[|events| - 1];
    OnStream(events[..|events| - 1], stream) + if last.stream == stream then [last] else []
  }

  /** What the critical listeners of each stream have been handed. */
  ghost predicate DeliveredOnce(h: Log, s: Store) {
    forall stream :: OnStream(s.delivered, stream) == Critical(h, stream, At(s.positions, stream))
  }

  lemma OnStreamAppend(events: seq<Envelope>, e: Envelope, stream: string)
    ensures OnStream(events + [e], stream) == OnStream(events, stream) + if e.stream == stream then [e] else []
  {}

  lemma {:induction false} CriticalSame(h: Log, stream: string, n: nat, m: nat)
    requires forall e :: e in h && e.stream == stream && !IsMarket(e) ==> (e.streamSeq <= n <==> e.streamSeq <= m)
    ensures Critical(h, stream, n) == Critical(h, stream, m)
  {
    if h != [] {
      assert h[|h| - 1] in h && forall e :: e in h[..|h| - 1] ==> e in h;
      CriticalSame(h[..|h| - 1], stream, n, m);
    }
  }

  /** The events before an entry are all numbered below it. */
  lemma EarlierAreBelow(h: Log, i: nat)
    requires Numbered(h) && i < |h|
    ensures h[i].streamSeq >= 1
    ensures Critical(h[..i], h[i].stream, h[i].streamSeq) == Critical(h[..i], h[i].stream, h[i].streamSeq - 1)
  {
    hide WellFormed; hide Critical; hide Numbered;
    SequenceBounds(h, i);
    forall x | x in h[..i] && x.stream == h[i].stream
      ensures x.streamSeq < h[i].streamSeq
    {
      var j :| 0 <= j < i && h[j] == x;
      SequencesGrow(h, j, i);
    }
    CriticalSame(h[..i], h[i].stream, h[i].streamSeq, h[i].streamSeq - 1);
  }

  lemma {:induction false} CriticalAdvances(h: Log, i: nat)
    requires Numbered(h) && i < |h|
    ensures h[i].streamSeq >= 1
    ensures Critical(h, h[i].stream, h[i].streamSeq)
         == Critical(h, h[i].stream, h[i].streamSeq - 1) + if IsMarket(h[i]) then [] else [h[i]]
  {
    hide Numbered; hide IsMarket;
    EarlierAreBelow(h, i);
    if i == |h| - 1 {
      assert h[..i] == h[..|h| - 1];
    } else {
      NumberedPrefix(h, |h| - 1);
      CriticalAdvances(h[..|h| - 1], i);
      if h[|h| - 1].stream == h[i].stream { SequencesGrow(h, i, |h| - 1); }
    }
  }

  /** Without a finished snapshot, a position moves only by an accepted event, and only to the very next number. */
  lemma PositionsMoveByOne(s: Store, step: Step)
    requires MapsValid(s) && (step.Ingest? ==> !Installs(s, step.message))
    ensures var next := Advance(s, step);
            || (next.positions == s.positions && next.delivered == s.delivered)
            || (step.Ingest? && step.message.Event? && var e := step.message.event;
                && e.schemaVersion == 2 && e.streamSeq == At(s.positions, e.stream) + 1
                && next.positions == s.positions[e.stream := e.streamSeq]
                && next.delivered == if IsMarket(e) then s.delivered else s.delivered + [e])
  {
    hide StagedRows; hide Poured; hide KeyOf; hide MarksOf; hide EntityMap.Valid; hide Trimmed;
  }

  /** Whatever is repeated, reordered or missing, each stream's listeners get its critical events once and in order. */
  lemma StepDeliversOnce(h: Log, s: Store, step: Step)
    requires Numbered(h) && MapsValid(s) && DeliveredOnce(h, s)
    requires step.Ingest? ==> Authentic(h, s, step.message) && !Installs(s, step.message)
    ensures DeliveredOnce(h, Advance(s, step))
  {
    hide Numbered; hide Critical; hide OnStream; hide Advance; hide Installs;
    PositionsMoveByOne(s, step);
    var next := Advance(s, step);
    if next.positions != s.positions || next.delivered != s.delivered {
      var e := step.message.event;
      var i :| 0 <= i < |h| && h[i] == e;
      forall stream
        ensures OnStream(next.delivered, stream) == Critical(h, stream, At(next.positions, stream))
      {
        OnStreamAppend(s.delivered, e, stream);
        if stream == e.stream { CriticalAdvances(h, i); }
        assert OnStream(s.delivered, stream) == Critical(h, stream, At(s.positions, stream));
      }
    }
  }

  lemma {:induction false} CriticalIgnoresLater(h: Log, more: Log, stream: string, n: nat)
    requires forall e :: e in more && e.stream == stream ==> e.streamSeq > n
    ensures Critical(h + more, stream, n) == Critical(h, stream, n)
  {
    if more == [] {
      assert h + more == h;
    } else {
      CriticalIgnoresLater(h, more[..|more| - 1], stream, n);
      assert (h + more)[..|h + more| - 1] == h + more[..|more| - 1] && more[|more| - 1] in more;
    }
  }

  // ---- What a snapshot changes ----------------------------------------------------------------

  lemma {:induction false} CriticalBetween(h: Log, stream: string, n: nat, m: nat)
    requires n <= m
    ensures |Critical(h, stream, n)| <= |Critical(h, stream, m)|
    ensures |Critical(h, stream, n)| == |Critical(h, stream, m)|
       <==> forall e :: e in h && e.stream == stream && !IsMarket(e) ==> !(n < e.streamSeq <= m)
  {
    if h != [] {
      CriticalBetween(h[..|h| - 1], stream, n, m);
      assert forall e :: e in h <==> e == h[|h| - 1] || e in h[..|h| - 1];
    }
  }

  /** No critical event lies between the two positions of its stream. */
  ghost predicate NoneBetween(h: Log, was: Positions, now: Positions) {
    forall e :: e in h && !IsMarket(e) ==> (e.streamSeq <= At(was, e.stream) <==> e.streamSeq <= At(now, e.stream))
  }

  /** Finishing a snapshot keeps deliveries in step with the positions exactly when no critical event
      lies between the position a stream had and the watermark it is given. */
  lemma InstallDeliversOnceIff(h: Log, s: Store, sub: string, marks: seq<Watermark>)
    requires DeliveredOnce(h, s) && Installs(s, SnapshotEnd(sub, marks))
    ensures DeliveredOnce(h, Ended(s, sub, marks).store) <==> NoneBetween(h, s.positions, s.snapshots[sub].positions)
  {
    hide OnStream; hide Critical;
    var next := Ended(s, sub, marks).store;
    var was, now := s.positions, s.snapshots[sub].positions;
    forall stream
      ensures OnStream(next.delivered, stream) == Critical(h, stream, At(now, stream))
         <==> forall e :: e in h && e.stream == stream && !IsMarket(e) ==> (e.streamSeq <= At(was, stream) <==> e.streamSeq <= At(now, stream))
    {
      assert OnStream(s.delivered, stream) == Critical(h, stream, At(was, stream));
      var low := if At(was, stream) <= At(now, stream) then At(was, stream) else At(now, stream);
      var high := if At(was, stream) <= At(now, stream) then At(now, stream) else At(was, stream);
      CriticalBetween(h, stream, low, high);
      if forall e :: e in h && e.stream == stream && !IsMarket(e) ==> (e.streamSeq <= At(was, stream) <==> e.streamSeq <= At(now, stream)) {
        CriticalSame(h, stream, At(was, stream), At(now, stream));
      }
    }
    if NoneBetween(h, was, now) { assert DeliveredOnce(h, next); }
  }

  lemma {:induction false} NothingBelowZero(h: Log, stream: string)
    requires Numbered(h)
    ensures Critical(h, stream, 0) == []
  {
    if h != [] {
      NumberedPrefix(h, |h| - 1);
      NothingBelowZero(h[..|h| - 1], stream);
    }
  }

  /** Before anything arrives, nothing is due. */
  lemma NothingSeenYet(h: Log)
    ensures INITIAL.delivered == [] && forall stream :: At(INITIAL.positions, stream) == 0
    ensures Numbered(h) ==> DeliveredOnce(h, INITIAL)
  {
    if Numbered(h) {
      forall stream
        ensures OnStream(INITIAL.delivered, stream) == Critical(h, stream, At(INITIAL.positions, stream))
      {
        NothingBelowZero(h, stream);
      }
    }
  }
}
