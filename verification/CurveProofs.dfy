/** The bounded summary keeps the order, the ends and the true extremes of everything ever accepted. */
module CurveProofs {
  import opened Common
  import opened ByteLines
  import opened CurveModel

  ghost predicate Ordered(s: seq<Sample>) { forall i, j :: 0 <= i < j < |s| ==> s[i].at < s[j].at }

  /** Some kept sample is at least as extreme as this value. */
  ghost predicate Reaches(kept: seq<Sample>, drawdown: bool, greatest: bool, value: real) {
    exists y :: y in kept && if greatest then Axis(y, drawdown) >= value else Axis(y, drawdown) <= value
  }

  ghost predicate Covers(all: seq<Sample>, kept: seq<Sample>) {
    && (forall x :: x in kept ==> x in all)
    && (forall x, drawdown, greatest :: x in all ==> Reaches(kept, drawdown, greatest, Axis(x, drawdown)))
  }

  /** kept is a summary of all: in order, with the same ends, and as extreme on both axes. */
  ghost predicate Summary(all: seq<Sample>, kept: seq<Sample>) {
    && Ordered(all) && Ordered(kept) && Covers(all, kept)
    && (all == [] <==> kept == [])
    && (all != [] ==> kept[0] == all[0] && kept[|kept| - 1] == all[|all| - 1])
  }

  // ---- One bucket -----------------------------------------------------------------------------

  lemma {:induction false} PickedMembers(part: seq<Sample>, marks: set<nat>, from: nat, k: nat)
    requires from <= k < |part| && k in marks
    ensures part[k] in Picked(part, marks, from)
    decreases |part| - from
  {
    if from < k { PickedMembers(part, marks, from + 1, k); }
  }

  lemma {:induction false} PickedOrdered(part: seq<Sample>, marks: set<nat>, from: nat)
    requires Ordered(part) && from <= |part|
    ensures Ordered(Picked(part, marks, from))
    ensures forall x :: x in Picked(part, marks, from) ==> x in part[from..]
    decreases |part| - from
  {
    if from < |part| {
      PickedOrdered(part, marks, from + 1);
      assert part[from..] == [part[from]] + part[from + 1..];
      assert forall x :: x in part[from + 1..] ==> part[from].at < x.at;
    }
  }

  function AtLeast(marks: set<nat>, from: nat): set<nat> { set m | m in marks && m >= from }

  lemma {:induction false} PickedSize(part: seq<Sample>, marks: set<nat>, from: nat)
    requires from <= |part|
    ensures |Picked(part, marks, from)| <= |AtLeast(marks, from)|
    decreases |part| - from
  {
    if from < |part| {
      PickedSize(part, marks, from + 1);
      assert AtLeast(marks, from) == AtLeast(marks, from + 1) + if from in marks then {from} else {};
    }
  }

  lemma SixMarks(a: nat, b: nat, c: nat, d: nat, e: nat, f: nat)
    ensures |{a, b, c, d, e, f}| <= 6
  {}

  lemma BucketSize(part: seq<Sample>)
    requires part != []
    ensures |Bucket(part)| <= 6
  {
    hide Extreme; hide Picked;
    PickedSize(part, Marks(part), 0);
    SixMarks(0, |part| - 1, Extreme(part, false, false), Extreme(part, false, true), Extreme(part, true, false), Extreme(part, true, true));
    assert AtLeast(Marks(part), 0) == Marks(part);
  }

  lemma BucketCovers(part: seq<Sample>)
    requires part != [] && Ordered(part)
    ensures Ordered(Bucket(part)) && Covers(part, Bucket(part)) && Bucket(part) != []
  {
    hide Picked; hide Extreme;
    var marks := Marks(part);
    PickedOrdered(part, marks, 0);
    PickedMembers(part, marks, 0, 0);
    assert part[0..] == part;
    forall x, drawdown, greatest | x in part
      ensures Reaches(Bucket(part), drawdown, greatest, Axis(x, drawdown))
    {
      var k := Extreme(part, drawdown, greatest);
      PickedMembers(part, marks, 0, k);
    }
  }

  // ---- All the buckets ------------------------------------------------------------------------

  lemma CoversJoin(a: seq<Sample>, ka: seq<Sample>, b: seq<Sample>, kb: seq<Sample>)
    requires Covers(a, ka) && Covers(b, kb)
    ensures Covers(a + b, ka + kb)
  {
    forall x, drawdown, greatest | x in a + b
      ensures Reaches(ka + kb, drawdown, greatest, Axis(x, drawdown))
    {
      if x in a {
        assert Reaches(ka, drawdown, greatest, Axis(x, drawdown));
      } else {
        assert Reaches(kb, drawdown, greatest, Axis(x, drawdown));
      }
    }
  }

  lemma OrderedJoin(a: seq<Sample>, ka: seq<Sample>, b: seq<Sample>, kb: seq<Sample>)
    requires Ordered(a + b) && Ordered(ka) && Ordered(kb)
    requires (forall x :: x in ka ==> x in a) && (forall x :: x in kb ==> x in b)
    ensures Ordered(ka + kb)
  {
    forall x, y | x in ka && y in kb
      ensures x.at < y.at
    {
      var i :| 0 <= i < |a| && a[i] == x;
      var j :| 0 <= j < |b| && b[j] == y;
      assert (a + b)[i] == x && (a + b)[|a| + j] == y;
    }
    forall i, j | 0 <= i < j < |ka + kb|
      ensures (ka + kb)[i].at < (ka + kb)[j].at
    {
      if i < |ka| && j >= |ka| { assert ka[i] in ka && kb[j - |ka|] in kb; }
    }
  }

  lemma OrderedPart(s: seq<Sample>, from: nat, to: nat)
    requires Ordered(s) && from <= to <= |s|
    ensures Ordered(s[from..to])
  {}

  lemma {:induction false} BucketsCover(middle: seq<Sample>, width: nat)
    requires width > 0 && Ordered(middle)
    ensures Ordered(Buckets(middle, width)) && Covers(middle, Buckets(middle, width))
    decreases |middle|
  {
    hide Bucket; hide Ordered; hide Covers;
    if middle == [] {
      NothingCovers();
    } else if |middle| <= width {
      BucketCovers(middle);
    } else {
      var part, rest := middle[..width], middle[width..];
      assert middle == part + rest && part == middle[0..width] && rest == middle[width..|middle|];
      OrderedPart(middle, 0, width);
      OrderedPart(middle, width, |middle|);
      BucketCovers(part);
      BucketsCover(rest, width);
      CoversJoin(part, Bucket(part), rest, Buckets(rest, width));
      MembersCovered(part, Bucket(part));
      MembersCovered(rest, Buckets(rest, width));
      OrderedJoin(part, Bucket(part), rest, Buckets(rest, width));
    }
  }

  lemma NothingCovers()
    ensures Ordered([]) && Covers([], [])
  {}

  lemma MembersCovered(all: seq<Sample>, kept: seq<Sample>)
    requires Covers(all, kept)
    ensures forall x :: x in kept ==> x in all
  {}

  lemma {:induction false} BucketsSize(middle: seq<Sample>, width: nat, n: nat)
    requires width > 0 && |middle| <= n * width
    ensures |Buckets(middle, width)| <= 6 * n
    decreases |middle|
  {
    hide Bucket;
    if |middle| <= width {
      if middle != [] { BucketSize(middle); }
    } else {
      BucketSize(middle[..width]);
      assert (n - 1) * width == n * width - width;
      BucketsSize(middle[width..], width, n - 1);
    }
  }

  // ---- Reducing -------------------------------------------------------------------------------

  lemma ReducedSize(samples: seq<Sample>)
    ensures |Reduced(samples)| <= MAX_POINTS
  {
    if |samples| > MAX_POINTS {
      var middle := samples[1..|samples| - 1];
      BucketsSize(middle, Width(|middle|), BUCKETS);
    }
  }

  lemma SingleCovers(x: Sample)
    ensures Ordered([x]) && Covers([x], [x])
  {}

  lemma SelfSummary(samples: seq<Sample>)
    requires Ordered(samples)
    ensures Summary(samples, samples)
  {}

  /** A reduction is a summary of what it reduces. */
  lemma ReducedIsSummary(samples: seq<Sample>)
    requires Ordered(samples)
    ensures Summary(samples, Reduced(samples))
  {
    hide Buckets; hide Ordered; hide Covers;
    if |samples| <= MAX_POINTS {
      SelfSummary(samples);
    } else {
      ReducedCovers(samples);
    }
  }

  lemma ReducedCovers(samples: seq<Sample>)
    requires Ordered(samples) && |samples| > MAX_POINTS
    ensures Ordered(Reduced(samples)) && Covers(samples, Reduced(samples))
  {
    hide Buckets; hide Ordered; hide Covers; hide Width;
    var n := |samples|;
    var first, middle, last := [samples[0]], samples[1..n - 1], [samples[n - 1]];
    WidthIsPositive(n - 2);
    var kept := Buckets(middle, Width(n - 2));
    OrderedPart(samples, 1, n - 1);
    BucketsCover(middle, Width(n - 2));
    MembersCovered(middle, kept);
    assert samples == first + middle + last;
    SandwichCovers(first, middle, kept, last);
  }

  lemma WidthIsPositive(n: nat)
    requires n > 0
    ensures Width(n) > 0
  {}

  /** The ends are kept as they are. */
  lemma SandwichCovers(first: seq<Sample>, middle: seq<Sample>, kept: seq<Sample>, last: seq<Sample>)
    requires |first| == 1 && |last| == 1 && Ordered(first + middle + last) && Ordered(kept) && Covers(middle, kept)
    ensures Ordered(first + kept + last) && Covers(first + middle + last, first + kept + last)
  {
    hide Ordered; hide Covers;
    var n := |first + middle|;
    assert (first + middle + last)[0..n] == first + middle;
    OrderedPart(first + middle + last, 0, n);
    SingleCovers(first[0]);
    SingleCovers(last[0]);
    assert first == [first[0]] && last == [last[0]];
    CoversJoin(first, first, middle, kept);
    CoversJoin(first + middle, first + kept, last, last);
    MembersCovered(middle, kept);
    OrderedJoin(first, first, middle, kept);
    MembersCovered(first + middle, first + kept);
    OrderedJoin(first + middle, first + kept, last, last);
  }

  /** A summary of a summary is a summary: reducing again and again loses nothing more. */
  lemma SummaryCompose(all: seq<Sample>, kept: seq<Sample>, again: seq<Sample>)
    requires Summary(all, kept) && Summary(kept, again)
    ensures Summary(all, again)
  {
    hide Ordered;
    forall x, drawdown, greatest | x in all
      ensures Reaches(again, drawdown, greatest, Axis(x, drawdown))
    {
      assert Reaches(kept, drawdown, greatest, Axis(x, drawdown));
      var y :| y in kept && if greatest then Axis(y, drawdown) >= Axis(x, drawdown) else Axis(y, drawdown) <= Axis(x, drawdown);
      assert Reaches(again, drawdown, greatest, Axis(y, drawdown));
    }
  }

  lemma SummaryAppend(all: seq<Sample>, kept: seq<Sample>, x: Sample)
    requires Summary(all, kept) && (all != [] ==> x.at > all[|all| - 1].at)
    ensures Summary(all + [x], kept + [x])
  {
    hide Covers;
    SingleCovers(x);
    CoversJoin(all, kept, [x], [x]);
  }

  /** In an ordered history a summary is a subsequence: each kept sample has its own place, and the places rise. */
  lemma SummaryIsSubsequence(all: seq<Sample>, kept: seq<Sample>) returns (places: seq<nat>)
    requires Summary(all, kept)
    ensures |places| == |kept| && (forall i :: 0 <= i < |kept| ==> places[i] < |all| && all[places[i]] == kept[i])
    ensures forall i, j :: 0 <= i < j < |kept| ==> places[i] < places[j]
  {
    places := [];
    for n := 0 to |kept|
      invariant |places| == n && forall i :: 0 <= i < n ==> places[i] < |all| && all[places[i]] == kept[i]
    {
      assert kept[n] in all;
      var k :| 0 <= k < |all| && all[k] == kept[n];
      places := places + [k];
    }
    forall i, j | 0 <= i < j < |kept|
      ensures places[i] < places[j]
    {
      assert kept[i].at < kept[j].at;
    }
  }

  // ---- One pass -------------------------------------------------------------------------------

  lemma FoldAppend(parse: Bytes -> Option<Reading>, lines: seq<Bytes>, line: Bytes)
    ensures Fold(parse, lines + [line]) == Accept(parse, Fold(parse, lines), line)
  {}

  lemma {:induction false} FoldIsOrdered(parse: Bytes -> Option<Reading>, lines: seq<Bytes>)
    ensures Ordered(Fold(parse, lines).accepted)
  {
    if lines != [] { FoldIsOrdered(parse, lines[..|lines| - 1]); }
  }

  /** The reader has consumed a log up to a place: at a line boundary, or inside a line too long to count. */
  ghost predicate Consumed(log: Bytes, offset: nat, discarding: bool) {
    offset <= |log| && if discarding then |Tail(log[..offset])| > MAX_LINE else Tail(log[..offset]) == []
  }

  /** One more chunk of the log, and what it does to the one-pass result. */
  lemma ScanChunk(parse: Bytes -> Option<Reading>, log: Bytes, offset: nat, chunk: Bytes, discarding: bool)
    requires Consumed(log, offset, discarding) && offset + |chunk| <= |log| && chunk == log[offset..offset + |chunk|] && IsChunk(chunk)
    requires chunk != []
    ensures var now := offset + |chunk|; var c := Scan(parse, log[..offset]); var d := Scan(parse, log[..now]);
            if EndsLine(chunk) then
              Consumed(log, now, false) && d == if discarding then c else Accept(parse, c, chunk)
            else if discarding then Consumed(log, now, true) && d == c
            else |chunk| > MAX_LINE ==> Consumed(log, now, true) && d == c.(invalid := c.invalid + 1)
  {
    hide Lines; hide Tail; hide Observe; hide Fold;
    var now := offset + |chunk|;
    assert log[..now] == log[..offset] + chunk;
    ChunkAppend(log[..offset], chunk);
    FoldAppend(parse, Lines(log[..offset]), Tail(log[..offset]) + chunk);
    assert Lines(log[..offset]) + [] == Lines(log[..offset]);
    assert [] + chunk == chunk;
  }

  /** A reader with nothing left but an unfinished line of ordinary length has the one-pass result of the whole log. */
  lemma CaughtUp(parse: Bytes -> Option<Reading>, log: Bytes, offset: nat, discarding: bool)
    requires Consumed(log, offset, discarding)
    requires offset == |log| || (!discarding && |log| - offset <= MAX_LINE && FirstNewline(log[offset..]) == |log| - offset)
    ensures Scan(parse, log[..offset]) == Scan(parse, log)
  {
    hide Lines; hide Tail; hide Fold;
    if offset == |log| {
      assert log[..offset] == log;
    } else {
      var rest := log[offset..];
      assert log == log[..offset] + rest;
      assert !EndsLine(rest) && [] + rest == rest && Lines(log[..offset]) + [] == Lines(log[..offset]);
      ChunkAppend(log[..offset], rest);
    }
  }
}
