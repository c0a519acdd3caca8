/** A gap loses nothing: the recovery it asks for is exactly what brings the store up to date. */
module StoreRecovery {
  import opened Events
  import opened StoreModel
  import opened StoreProofs
  import opened StoreDelivery
  import opened StoreTiming

  /** The events of a stream after one position and up to another, in log order. */
  function Missing(h: Log, stream: string, n: nat, m: nat): seq<Envelope> {
    if h == [] then [] else
    var last := h[|h| - 1];
    Missing(h[..|h| - 1], stream, n, m) + if last.stream == stream && n < last.streamSeq <= m then [last] else []
  }

  /** The store after a series of events. */
  function Replayed(s: Store, events: seq<Envelope>): Store {
    if events == [] then s else Accepted(Replayed(s, events[..|events| - 1]), events[|events| - 1]).store
  }

  lemma {:induction false} MissingSame(h: Log, stream: string, n: nat, m: nat, k: nat)
    requires forall e :: e in h && e.stream == stream ==> (n < e.streamSeq <= m <==> n < e.streamSeq <= k)
    ensures Missing(h, stream, n, m) == Missing(h, stream, n, k)
  {
    if h != [] {
      assert h[|h| - 1] in h && forall e :: e in h[..|h| - 1] ==> e in h;
      MissingSame(h[..|h| - 1], stream, n, m, k);
    }
  }

  lemma {:induction false} NothingMissing(h: Log, stream: string, n: nat)
    ensures Missing(h, stream, n, n) == []
  {
    if h != [] { NothingMissing(h[..|h| - 1], stream, n); }
  }

  /** The last of the missing events is the one at the position itself. */
  lemma {:induction false} MissingEndsAt(h: Log, stream: string, n: nat, i: nat)
    requires Numbered(h) && i < |h| && h[i].stream == stream && n < h[i].streamSeq
    ensures Missing(h, stream, n, h[i].streamSeq) == Missing(h, stream, n, h[i].streamSeq - 1) + [h[i]]
  {
    hide WellFormed; hide Numbered;
    var init, m := h[..|h| - 1], h[i].streamSeq;
    if i == |h| - 1 {
      forall e | e in init && e.stream == stream
        ensures e.streamSeq < m
      {
        var j :| 0 <= j < |init| && init[j] == e;
        SequencesGrow(h, j, i);
      }
      MissingSame(init, stream, n, m, m - 1);
    } else {
      NumberedPrefix(h, |h| - 1);
      MissingEndsAt(init, stream, n, i);
      if h[|h| - 1].stream == stream { SequencesGrow(h, i, |h| - 1); }
    }
  }

  lemma NextIsTaken(s: Store, e: Envelope)
    requires e.schemaVersion == 2 && e.streamSeq == At(s.positions, e.stream) + 1
    ensures var t := Accepted(s, e).store;
            t.positions == s.positions[e.stream := e.streamSeq] && t.gaps == s.gaps && t.recoveries == s.recoveries && t.phase == s.phase
  {}

  /** Whoever sends the missing events in order brings the stream to its position, without another gap. */
  lemma {:induction false} ReplayCatchesUp(h: Log, s: Store, stream: string, m: nat)
    requires Numbered(h) && MapsValid(s) && DeliveredOnce(h, s) && At(s.positions, stream) <= m <= CountOf(h, stream)
    ensures var t := Replayed(s, Missing(h, stream, At(s.positions, stream), m));
            && At(t.positions, stream) == m && (forall other :: other != stream ==> At(t.positions, other) == At(s.positions, other))
            && t.gaps == s.gaps && t.recoveries == s.recoveries && t.phase == s.phase
            && MapsValid(t) && DeliveredOnce(h, t)
    decreases m
  {
    hide MapsValid; hide DeliveredOnce; hide Accepted; hide WellFormed; hide Numbered; hide Missing; hide IsMarket;
    var n := At(s.positions, stream);
    if n == m {
      NothingMissing(h, stream, n);
    } else {
      ReplayCatchesUp(h, s, stream, m - 1);
      var i := CountReached(h, stream, m);
      MissingEndsAt(h, stream, n, i);
      var missing := Missing(h, stream, n, m);
      assert missing[..|missing| - 1] == Missing(h, stream, n, m - 1);
      var t := Replayed(s, missing[..|missing| - 1]);
      WellFormedEntry(h, i);
      VersionIsTwo(h[i]);
      NextIsTaken(t, h[i]);
      EventKeeps(h, t, h[i]);
    }
  }

  lemma VersionIsTwo(e: Envelope)
    requires WellFormed(e)
    ensures e.schemaVersion == 2
  {}

  lemma EventKeeps(h: Log, s: Store, e: Envelope)
    requires Numbered(h) && MapsValid(s) && DeliveredOnce(h, s) && e in h
    ensures MapsValid(Accepted(s, e).store) && DeliveredOnce(h, Accepted(s, e).store)
  {
    hide MapsValid; hide DeliveredOnce; hide Accepted; hide Numbered;
    AdvanceKeepsMaps(s, Ingest(Event(e)));
    StepDeliversOnce(h, s, Ingest(Event(e)));
  }

  /** An event that comes too early changes no position and no view, and asks for what follows the position; and when just that is sent,
      up to the event itself, the stream stands at the event and its listeners have had every critical event once. */
  lemma GapIsMadeGood(h: Log, s: Store, e: Envelope)
    requires Numbered(h) && MapsValid(s) && DeliveredOnce(h, s) && e in h && e.streamSeq > At(s.positions, e.stream) + 1
    ensures var gap := Accepted(s, e).store; var after := At(s.positions, e.stream);
            && gap.positions == s.positions && gap.delivered == s.delivered && Overlay(gap) == Overlay(s)
            && gap.recoveries == s.recoveries + [OneStream(e.stream, after)]
            && var t := Replayed(gap, Missing(h, e.stream, after, e.streamSeq));
               At(t.positions, e.stream) == e.streamSeq && t.recoveries == gap.recoveries && DeliveredOnce(h, t)
  {
    hide MapsValid; hide DeliveredOnce; hide WellFormed; hide Numbered; hide Replayed; hide Missing;
    var i :| 0 <= i < |h| && h[i] == e;
    WellFormedEntry(h, i);
    VersionIsTwo(e);
    SequenceBounds(h, i);
    EventKeeps(h, s, e);
    ReplayCatchesUp(h, Accepted(s, e).store, e.stream, e.streamSeq);
  }
}
