/** The resumable reader of the equity curve. */
module Curve {
  import opened Common
  import opened ByteLines
  import M = CurveModel
  import opened CurveMeaning
  import opened CurveProofs

  class LogFile {
    var identity: string
    var bytes: Bytes
    constructor (identity: string) { this.identity, bytes := identity, []; }
  }

  /** readline with a limit: up to and including a newline, or the limit, or the end. */
  function ReadLine(log: Bytes, at: nat, limit: nat): (chunk: Bytes)
    requires at <= |log|
    ensures at + |chunk| <= |log| && chunk == log[at..at + |chunk|] && IsChunk(chunk) && |chunk| <= limit
    ensures !EndsLine(chunk) ==> (|chunk| == limit || (at + |chunk| == |log| && FirstNewline(log[at..]) == |log| - at))
  {
    var rest := log[at..];
    var k := FirstNewline(rest);
    var n := if k < |rest| then k + 1 else k;
    if n <= limit then rest[..n] else rest[..limit]
  }

  class GroupViews {
    const parse: Bytes -> Option<M.Reading>
    var fileIdentity: Option<string>
    var offset: nat
    var samples: seq<M.Sample>
    var sampleCount: nat
    var invalidLines: nat
    var peak: real
    var discardingLine: bool
    var partial: bool
    ghost var accepted: seq<M.Sample>

    ghost function View(): M.Curve
      reads this
    {
      M.Curve(accepted, invalidLines, peak)
    }

    /** The state is the one-pass result of what has been consumed, with the samples as its summary. */
    ghost predicate Agrees(log: Bytes)
      reads this
    {
      Consumed(log, offset, discardingLine) && View() == M.Scan(parse, log[..offset]) && Summary(accepted, samples)
      && sampleCount == |accepted|
    }

    constructor (parse: Bytes -> Option<M.Reading>)
      ensures this.parse == parse && fileIdentity.None? && Agrees([])
    {
      this.parse, fileIdentity, offset, samples, sampleCount := parse, None, 0, [], 0;
      invalidLines, peak, discardingLine, partial, accepted := 0, 0.0, false, false, [];
      new;
      NothingScanned(parse);
    }

    method ReduceSamples()
      modifies `samples
      ensures samples == M.Reduced(old(samples))
    {
      hide M.Buckets; hide M.Width;
      if |samples| <= M.MAX_POINTS { return; }
      var middle := samples[1..|samples| - 1];
      WidthIsPositive(|middle|);
      var kept := Bucketed(middle, M.Width(|middle|));
      samples := [samples[0]] + kept + [samples[|samples| - 1]];
    }

    method Bucketed(middle: seq<M.Sample>, width: nat) returns (output: seq<M.Sample>)
      requires width > 0
      ensures output == M.Buckets(middle, width)
    {
      hide M.Bucket;
      output := [];
      var start := 0;
      assert middle[0..] == middle && middle[|middle|..] == [];
      while start < |middle|
        invariant start <= |middle| && output + M.Buckets(middle[start..], width) == M.Buckets(middle, width)
      {
        hide M.Buckets;
        var end := if start + width <= |middle| then start + width else |middle|;
        BucketsStep(middle, start, end, width);
        output := output + M.Bucket(middle[start..end]);
        start := end;
      }
    }

    /** One complete line of readable length. */
    method Observe(line: Bytes)
      requires Summary(accepted, samples) && sampleCount == |accepted| && |samples| <= 2 * M.MAX_POINTS
      modifies `samples, `sampleCount, `invalidLines, `peak, `accepted
      ensures View() == M.Observe(parse, old(View()), line)
      ensures accepted == old(accepted) ==> invalidLines == old(invalidLines) + 1 && peak == old(peak)
      ensures accepted != old(accepted) ==>
                && invalidLines == old(invalidLines) && parse(line).Some? && |accepted| == |old(accepted)| + 1 && old(accepted) < accepted
                && var sample, r := accepted[|accepted| - 1], parse(line).value;
                   && r.at == Some(sample.at) && r.nav == Some(sample.nav) && IsDrawdown(sample.drawdown, r, peak)
                   && (forall value :: Shows(r, value) ==> value <= peak) && old(peak) <= peak && (peak == old(peak) || Shows(r, peak))
      ensures Summary(accepted, samples) && sampleCount == |accepted| && |samples| <= 2 * M.MAX_POINTS
    {
      hide M.PeakWith; hide M.DrawdownOf; hide M.Reduced; hide Covers; hide Ordered;
      var row := parse(line);
      if row.None? { invalidLines := invalidLines + 1; return; }
      var r := row.value;
      if r.at.None? || r.nav.None? || r.nav.value <= 0.0 { invalidLines := invalidLines + 1; return; }
      if samples != [] && r.at.value <= samples[|samples| - 1].at { invalidLines := invalidLines + 1; return; }
      peak := M.PeakWith(peak, r);
      PeakIsAbove(old(peak), r);
      DrawdownIs(peak, r);
      var sample := M.Sample(r.at.value, r.nav.value, M.DrawdownOf(peak, r));
      SummaryAppend(accepted, samples, sample);
      samples, accepted, sampleCount := samples + [sample], accepted + [sample], sampleCount + 1;
      if |samples| > M.MAX_POINTS * 2 { Shrink(); }
    }

    method Shrink()
      requires Summary(accepted, samples)
      modifies `samples
      ensures Summary(accepted, samples) && |samples| <= M.MAX_POINTS
    {
      hide M.Reduced; hide Covers;
      ReducedIsSummary(samples);
      ReducedSize(samples);
      SummaryCompose(accepted, samples, M.Reduced(samples));
      ReduceSamples();
    }

    method Reset(identity: string)
      modifies this
      ensures fileIdentity == Some(identity) && offset == 0 && Agrees([]) && samples == []
    {
      fileIdentity, offset, samples, sampleCount, accepted := Some(identity), 0, [], 0, [];
      invalidLines, peak, discardingLine := 0, 0.0, false;
      NothingScanned(parse);
    }

    /** Whether the file is another one, or was cut below what has been read. */
    predicate MustReset(log: LogFile)
      reads this, log
    {
      fileIdentity != Some(log.identity) || |log.bytes| < offset
    }

    /** One bounded read. arrivals are the bytes the writer appends before each line is read. However much is read, the state is
        again the one-pass result of the consumed prefix; done says that nothing complete was left, and a read that is not done has
        moved on. */
    method ReadCurve(log: LogFile, arrivals: seq<Bytes>) returns (done: bool)
      requires !MustReset(log) ==> Agrees(log.bytes) && |samples| <= M.MAX_POINTS
      modifies this, log`bytes
      ensures old(log.bytes) <= log.bytes && fileIdentity == Some(log.identity) && !MustReset(log)
      ensures Agrees(log.bytes) && |samples| <= M.MAX_POINTS
      ensures done ==> View() == M.Scan(parse, log.bytes)
      ensures IsChartOf(parse, log.bytes[..offset], View()) && (done ==> IsChartOf(parse, log.bytes, View()))
      ensures !old(MustReset(log)) ==> old(offset) <= offset
      ensures done || offset > (if old(MustReset(log)) then 0 else old(offset))
    {
      hide Summary; hide Consumed; hide M.Scan; hide IsChartOf;
      var size := |log.bytes|;
      if MustReset(log) {
        Reset(log.identity);
        PrefixAgrees(log.bytes);
      }
      var readBytes, turn := 0, 0;
      done := false;
      ghost var from := offset;
      while readBytes < M.MAX_BYTES
        invariant old(log.bytes) <= log.bytes && Agrees(log.bytes) && fileIdentity == Some(log.identity)
        invariant |samples| <= 2 * M.MAX_POINTS && from <= offset && !done && (readBytes > 0 ==> from < offset)
        decreases M.MAX_BYTES - readBytes
      {
        if turn < |arrivals| {
          GrowthAgrees(log.bytes, arrivals[turn]);
          log.bytes := log.bytes + arrivals[turn];
          turn := turn + 1;
        }
        var count, stop, finished := ReadOne(log.bytes, M.MAX_BYTES - readBytes);
        readBytes := readBytes + count;
        if stop {
          done := finished;
          break;
        }
      }
      OffsetInside(log.bytes, offset, discardingLine);
      ScanCharts(parse, log.bytes[..offset]);
      ScanCharts(parse, log.bytes);
      partial := offset < size;
      Shrink();
    }

    /** One turn of the loop, under what is left of the byte budget. */
    method ReadOne(log: Bytes, budget: nat) returns (count: nat, stop: bool, done: bool)
      requires Agrees(log) && |samples| <= 2 * M.MAX_POINTS && budget > 0
      modifies `offset, `discardingLine, `samples, `sampleCount, `invalidLines, `peak, `accepted
      ensures Agrees(log) && |samples| <= 2 * M.MAX_POINTS && old(offset) <= offset && (stop || 0 < count <= budget)
      ensures stop && done ==> View() == M.Scan(parse, log)
      ensures !stop || (!done && budget > M.MAX_LINE) ==> old(offset) < offset
    {
      hide Summary; hide Consumed; hide M.Scan; hide FirstNewline; hide EndsLine; hide ReadLine;
      var limit := if M.MAX_LINE + 1 <= budget then M.MAX_LINE + 1 else budget;
      OffsetInside(log, offset, discardingLine);
      var line := ReadLine(log, offset, limit);
      count, done := |line|, false;
      if line == [] {
        LastByteOfNothing();
        CaughtUp(parse, log, offset, discardingLine);
        return 0, true, true;
      }
      stop := Take(log, line);
      if stop && !discardingLine && |line| < limit {
        CaughtUp(parse, log, offset, false);
        done := true;
      }
    }

    /** What is done with one chunk; stop says that it was an unfinished line. */
    method Take(ghost log: Bytes, line: Bytes) returns (stop: bool)
      requires Agrees(log) && |samples| <= 2 * M.MAX_POINTS
      requires line != [] && IsChunk(line) && |line| <= M.MAX_LINE + 1
      requires offset + |line| <= |log| && line == log[offset..offset + |line|]
      modifies `offset, `discardingLine, `samples, `sampleCount, `invalidLines, `peak, `accepted
      ensures Agrees(log) && |samples| <= 2 * M.MAX_POINTS && old(offset) <= offset
      ensures stop ==> !EndsLine(line) && (if |line| > M.MAX_LINE then discardingLine else offset == old(offset) && !discardingLine)
      ensures !stop || |line| > M.MAX_LINE ==> old(offset) < offset
    {
      hide Summary; hide Consumed; hide M.Scan; hide M.Observe; hide EndsLine; hide IsChunk;
      ScanChunk(parse, log, offset, line, discardingLine);
      var ends := line[|line| - 1] == NEWLINE;
      LastByte(line);
      stop := false;
      if discardingLine {
        offset, discardingLine := offset + |line|, !ends;
      } else if !ends {
        stop := true;
        if |line| > M.MAX_LINE {
          invalidLines, discardingLine, offset := invalidLines + 1, true, offset + |line|;
        }
      } else {
        Observe(line);
        offset := offset + |line|;
      }
    }

    lemma PrefixAgrees(log: Bytes)
      requires offset == 0 && Agrees([])
      ensures Agrees(log)
    {}

    lemma GrowthAgrees(log: Bytes, more: Bytes)
      requires Agrees(log)
      ensures Agrees(log + more)
    {
      assert (log + more)[..offset] == log[..offset];
    }
  }

  lemma BucketsStep(middle: seq<M.Sample>, start: nat, end: nat, width: nat)
    requires start < |middle| && width > 0 && end == if start + width <= |middle| then start + width else |middle|
    ensures M.Buckets(middle[start..], width) == M.Bucket(middle[start..end]) + M.Buckets(middle[end..], width)
  {
    hide M.Bucket;
    var rest := middle[start..];
    if |rest| <= width {
      assert middle[start..end] == rest && middle[end..] == [];
    } else {
      assert middle[start..end] == rest[..width] && middle[end..] == rest[width..];
    }
  }

  lemma NothingScanned(parse: Bytes -> Option<M.Reading>)
    ensures Consumed([], 0, false) && M.Scan(parse, [][..0]) == M.Curve([], 0, 0.0) && Summary([], [])
  {}

  lemma PeakIsAbove(peak: real, r: M.Reading)
    requires r.nav.Some?
    ensures var next := M.PeakWith(peak, r);
            && next >= r.nav.value && next >= peak && (next == peak || Shows(r, next)) && forall value :: Shows(r, value) ==> value <= next
  {}

  lemma OffsetInside(log: Bytes, offset: nat, discarding: bool)
    requires Consumed(log, offset, discarding)
    ensures offset <= |log|
  {}

  lemma LastByteOfNothing()
    ensures !EndsLine([])
  {}

  lemma LastByte(line: Bytes)
    requires line != []
    ensures EndsLine(line) <==> line[|line| - 1] == NEWLINE
  {}
}
