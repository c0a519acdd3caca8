/** The sliding-window limits, measured against every request ever recorded rather than against the pruned deques. */
module ExecutorRates {
  import opened Common
  import opened ExecutorModel

  /** The times of the logged requests a deque is meant to hold: all of one kind, or one instrument's. */
  ghost function Times(log: seq<Request>, kind: Kind, key: Option<Key>): seq<real> {
    if log == [] then [] else
    var last := log[|log| - 1];
    Times(log[..|log| - 1], kind, key) + if last.kind == kind && (key.None? || key.value == last.key) then [last.at] else []
  }

  /** The number of times in the window (end - span, end]. */
  ghost function InWindow(times: seq<real>, end: real, span: real): nat {
    if times == [] then 0 else
    var last := times[|times| - 1];
    InWindow(times[..|times| - 1], end, span) + if end - span < last <= end then 1 else 0
  }

  ghost predicate Bounded(times: seq<real>, span: real, limit: int) {
    forall end: real :: InWindow(times, end, span) <= limit
  }

  ghost predicate Ascending(times: seq<real>, clock: real) {
    && (forall i, j :: 0 <= i <= j < |times| ==> times[i] <= times[j])
    && (forall i :: 0 <= i < |times| ==> times[i] <= clock)
  }

  /** A deque is the log without a prefix of entries that are all at least age old. */
  ghost predicate Holds(deque: seq<real>, times: seq<real>, clock: real, age: real) {
    && |deque| <= |times| && deque == times[|times| - |deque|..]
    && (forall i :: 0 <= i < |times| - |deque| ==> clock - times[i] >= age)
  }

  // ---- Windows over an ascending log --------------------------------------------------------

  lemma {:induction false} WindowOfOld(times: seq<real>, end: real, span: real)
    requires forall i :: 0 <= i < |times| ==> times[i] <= end - span
    ensures InWindow(times, end, span) == 0
  {
    if times != [] { WindowOfOld(times[..|times| - 1], end, span); }
  }

  lemma {:induction false} WindowDropsOld(times: seq<real>, n: nat, end: real, span: real)
    requires n <= |times| && forall i :: 0 <= i < n ==> times[i] <= end - span
    ensures InWindow(times, end, span) == InWindow(times[n..], end, span)
  {
    if n == |times| {
      WindowOfOld(times, end, span);
    } else {
      WindowDropsOld(times[..|times| - 1], n, end, span);
      assert times[n..][..|times[n..]| - 1] == times[..|times| - 1][n..];
    }
  }

  /** A window that ends after every entry holds no more than the window that ends at the latest one. */
  lemma {:induction false} WindowShrinksLater(times: seq<real>, now: real, end: real, span: real)
    requires now <= end && forall i :: 0 <= i < |times| ==> times[i] <= now
    ensures InWindow(times, end, span) <= InWindow(times, now, span)
  {
    if times != [] { WindowShrinksLater(times[..|times| - 1], now, end, span); }
  }

  lemma {:induction false} CountConcat(a: seq<real>, x: real, now: real, span: real)
    ensures CountRecent(a + [x], now, span) == CountRecent(a, now, span) + (if now - x < span then 1 else 0)
  {
    if a == [] {
      assert a + [x] == [x] && [x][1..] == [];
    } else {
      CountConcat(a[1..], x, now, span);
      assert (a + [x])[1..] == a[1..] + [x];
    }
  }

  /** The count allowed takes over the deque is the window that ends now. */
  lemma {:induction false} CountIsWindow(times: seq<real>, now: real, span: real)
    requires forall i :: 0 <= i < |times| ==> times[i] <= now
    ensures CountRecent(times, now, span) == InWindow(times, now, span)
  {
    if times != [] {
      var init := times[..|times| - 1];
      CountIsWindow(init, now, span);
      CountConcat(init, times[|times| - 1], now, span);
      assert times == init + [times[|times| - 1]];
    }
  }

  /** One more request, allowed by the window that ends now, keeps every window inside the limit. */
  lemma AppendKeepsBound(times: seq<real>, now: real, span: real, limit: int)
    requires Bounded(times, span, limit) && Ascending(times, now) && span > 0.0
    requires InWindow(times, now, span) < limit
    ensures Bounded(times + [now], span, limit)
  {
    assert (times + [now])[..|times|] == times;
    forall end: real
      ensures InWindow(times + [now], end, span) <= limit
    {
      if now <= end { WindowShrinksLater(times, now, end, span); }
      assert InWindow(times, end, span) <= limit;
    }
  }

  // ---- Pruning ------------------------------------------------------------------------------

  lemma {:induction false} PruneKeepsHolds(deque: seq<real>, times: seq<real>, clock: real, now: real, age: real, least: real)
    requires Holds(deque, times, clock, least) && clock <= now && least <= age
    ensures Holds(Prune(deque, now, age), times, now, least)
    decreases |deque|
  {
    if deque != [] && now - deque[0] >= age {
      assert deque[0] == times[|times| - |deque|];
      PruneKeepsHolds(deque[1..], times, now, now, age, least);
    }
  }

  /** After pruning, the oldest entry left is younger than the age. */
  lemma {:induction false} PruneLeavesYoung(deque: seq<real>, now: real, age: real)
    ensures var left := Prune(deque, now, age); left == [] || now - left[0] < age
    decreases |deque|
  {
    if deque != [] && now - deque[0] >= age { PruneLeavesYoung(deque[1..], now, age); }
  }

  /** The deque's count is the count over the whole log: what was pruned is outside the window. */
  lemma HeldCount(deque: seq<real>, times: seq<real>, now: real, age: real, span: real)
    requires Holds(deque, times, now, age) && Ascending(times, now) && span <= age
    ensures CountRecent(deque, now, span) == InWindow(times, now, span)
  {
    hide CountRecent; hide InWindow; hide Prune;
    var n := |times| - |deque|;
    assert deque == times[n..];
    forall i | 0 <= i < |deque|
      ensures deque[i] <= now
    {
      assert deque[i] == times[n + i];
    }
    CountIsWindow(deque, now, span);
    WindowDropsOld(times, n, now, span);
  }

  // ---- The meter ----------------------------------------------------------------------------

  ghost predicate KindOk(m: Meter, kind: Kind, clock: real, limit: int) {
    var times := Times(m.log, kind, None);
    Ascending(times, clock) && Holds(History(m, kind), times, clock, 60.0) && Bounded(times, 1.0, limit)
  }

  ghost predicate InstrumentOk(m: Meter, key: Key, kind: Kind, clock: real) {
    var times := Times(m.log, kind, Some(key));
    Ascending(times, clock) && Holds(PerInstrument(m, key, kind), times, clock, 2.0) && Bounded(times, 2.0, 60)
  }

  ghost predicate MeterInv(m: Meter, clock: real, limit: int) {
    (forall kind :: KindOk(m, kind, clock, limit)) && (forall key, kind :: InstrumentOk(m, key, kind, clock))
  }

  /** What the invariant is for: over the whole run, every 1 s window and every per-instrument 2 s window is inside its limit. */
  ghost predicate RatesRespected(log: seq<Request>, limit: int) {
    && (forall kind, end: real :: InWindow(Times(log, kind, None), end, 1.0) <= limit)
    && (forall key, kind, end: real :: InWindow(Times(log, kind, Some(key)), end, 2.0) <= 60)
  }

  lemma InvariantMeansRates(m: Meter, clock: real, limit: int)
    requires MeterInv(m, clock, limit)
    ensures RatesRespected(m.log, limit)
  {
    forall kind, end: real
      ensures InWindow(Times(m.log, kind, None), end, 1.0) <= limit
    {
      assert KindOk(m, kind, clock, limit);
    }
    forall key, kind, end: real
      ensures InWindow(Times(m.log, kind, Some(key)), end, 2.0) <= 60
    {
      assert InstrumentOk(m, key, kind, clock);
    }
  }

  lemma LaterKeepsMeter(m: Meter, clock: real, now: real, limit: int)
    requires MeterInv(m, clock, limit) && clock <= now
    ensures MeterInv(m, now, limit)
  {
    forall kind
      ensures KindOk(m, kind, now, limit)
    {
      assert KindOk(m, kind, clock, limit);
    }
    forall key, kind
      ensures InstrumentOk(m, key, kind, now)
    {
      assert InstrumentOk(m, key, kind, clock);
    }
  }

  lemma PruneKeepsMeter(m: Meter, key: Key, kind: Kind, now: real, limit: int)
    requires MeterInv(m, now, limit)
    ensures MeterInv(Pruned(m, key, kind, now), now, limit)
  {
    var p := Pruned(m, key, kind, now);
    assert KindOk(m, kind, now, limit) && InstrumentOk(m, key, kind, now);
    PruneKeepsHolds(History(m, kind), Times(m.log, kind, None), now, now, 60.0, 60.0);
    PruneKeepsHolds(PerInstrument(m, key, kind), Times(m.log, kind, Some(key)), now, now, 2.0, 2.0);
    forall other
      ensures KindOk(p, other, now, limit)
    {
      assert KindOk(m, other, now, limit);
    }
    forall k, other
      ensures InstrumentOk(p, k, other, now)
    {
      assert InstrumentOk(m, k, other, now);
    }
  }

  lemma MetricsKeepMeter(d: Desk, now: real, limit: int)
    requires MeterInv(d.meter, now, limit)
    ensures MeterInv(MetricsRead(d, now).meter, now, limit)
  {
    var next := MetricsRead(d, now).meter;
    forall kind
      ensures KindOk(next, kind, now, limit)
    {
      assert KindOk(d.meter, kind, now, limit);
      PruneKeepsHolds(History(d.meter, kind), Times(d.meter.log, kind, None), now, now, 60.0, 60.0);
    }
    forall key, kind
      ensures InstrumentOk(next, key, kind, now)
    {
      assert InstrumentOk(d.meter, key, kind, now);
    }
  }

  lemma {:induction false} YoungAreInWindow(times: seq<real>, now: real, span: real)
    requires Ascending(times, now) && (times == [] || now - times[0] < span)
    ensures InWindow(times, now, span) == |times|
  {
    if times != [] { YoungAreInWindow(times[..|times| - 1], now, span); }
  }

  lemma PrunedDequeFillsWindow(m: Meter, key: Key, kind: Kind, now: real)
    requires InstrumentOk(m, key, kind, now)
    ensures |Prune(PerInstrument(m, key, kind), now, 2.0)| == InWindow(Times(m.log, kind, Some(key)), now, 2.0)
  {
    hide Times; hide Prune;
    var times, deque := Times(m.log, kind, Some(key)), Prune(PerInstrument(m, key, kind), now, 2.0);
    PruneKeepsHolds(PerInstrument(m, key, kind), times, now, now, 2.0, 2.0);
    PruneLeavesYoung(PerInstrument(m, key, kind), now, 2.0);
    WindowDropsOld(times, |times| - |deque|, now, 2.0);
    YoungAreInWindow(deque, now, 2.0);
  }

  lemma PrunedCountIsWindow(m: Meter, kind: Kind, now: real, limit: int)
    requires KindOk(m, kind, now, limit)
    ensures CountRecent(Prune(History(m, kind), now, 60.0), now, 1.0) == InWindow(Times(m.log, kind, None), now, 1.0)
  {
    hide Times; hide Prune;
    PruneKeepsHolds(History(m, kind), Times(m.log, kind, None), now, now, 60.0, 60.0);
    HeldCount(Prune(History(m, kind), now, 60.0), Times(m.log, kind, None), now, 60.0, 1.0);
  }

  /** allowed, for all its pruning, answers exactly whether both windows that end now have room. */
  lemma AllowedMeansRoom(m: Meter, key: Key, kind: Kind, now: real, limit: int)
    requires MeterInv(m, now, limit)
    ensures Allowed(limit, m, key, kind, now)
       <==> InWindow(Times(m.log, kind, None), now, 1.0) < limit && InWindow(Times(m.log, kind, Some(key)), now, 2.0) < 60
  {
    hide Times; hide Prune; hide KindOk; hide InstrumentOk; hide CountRecent; hide InWindow;
    PrunedDequeFillsWindow(m, key, kind, now);
    PrunedCountIsWindow(m, kind, now, limit);
  }

  lemma TimesAppend(log: seq<Request>, r: Request, kind: Kind, key: Option<Key>)
    ensures Times(log + [r], kind, key)
         == if r.kind == kind && (key.None? || key.value == r.key) then Times(log, kind, key) + [r.at] else Times(log, kind, key)
  {
    assert (log + [r])[..|log|] == log;
  }

  lemma HoldsAppend(deque: seq<real>, times: seq<real>, now: real, age: real)
    requires Holds(deque, times, now, age) && Ascending(times, now)
    ensures Holds(deque + [now], times + [now], now, age) && Ascending(times + [now], now)
  {
    var n := |times| - |deque|;
    assert (times + [now])[n..] == times[n..] + [now];
  }

  /** A request recorded after allowed said yes keeps every window inside its limit. */
  lemma RecordKeepsMeter(m: Meter, key: Key, kind: Kind, now: real, limit: int)
    requires MeterInv(m, now, limit) && Allowed(limit, m, key, kind, now)
    ensures MeterInv(Recorded(Pruned(m, key, kind, now), key, kind, now), now, limit)
  {
    hide InWindow; hide Times; hide Prune; hide ExecutorModel.Allowed;
    var p := Pruned(m, key, kind, now);
    PruneKeepsMeter(m, key, kind, now, limit);
    AllowedMeansRoom(m, key, kind, now, limit);
    var next := Recorded(p, key, kind, now);
    var r := Request(key, kind, now);
    forall other
      ensures KindOk(next, other, now, limit)
    {
      assert KindOk(p, other, now, limit);
      var times := Times(p.log, other, None);
      TimesAppend(p.log, r, other, None);
      if other == kind {
        AppendKeepsBound(times, now, 1.0, limit);
        HoldsAppend(History(p, kind), times, now, 60.0);
      }
    }
    forall k, other
      ensures InstrumentOk(next, k, other, now)
    {
      assert InstrumentOk(p, k, other, now);
      var times := Times(p.log, other, Some(k));
      TimesAppend(p.log, r, other, Some(k));
      if other == kind && k == key {
        AppendKeepsBound(times, now, 2.0, 60);
        HoldsAppend(PerInstrument(p, k, kind), times, now, 2.0);
      }
    }
  }
}
