/** What a curve says of its log: which lines became samples, under which peak, and with which drawdown. */
module CurveMeaning {
  import opened Common
  import opened ByteLines
  import opened CurveModel

  // ---- Peak and drawdown ----------------------------------------------------------------------

  /** A net value that the reading shows: its own, or the one without its profit. */
  predicate Shows(r: Reading, value: real) {
    r.nav.Some? && (value == r.nav.value || (r.pnl.Some? && value == r.nav.value - r.pnl.value))
  }

  /** The least upper bound of zero and of everything the readings show: a bound, and one that is reached. */
  ghost predicate IsPeak(peak: real, readings: seq<Reading>) {
    && peak >= 0.0 && (forall k, value :: 0 <= k < |readings| && Shows(readings[k], value) ==> value <= peak)
    && (peak == 0.0 || exists k :: 0 <= k < |readings| && Shows(readings[k], peak))
  }

  /** The recorded drawdown in per cent, or how far the value lies below the peak in per cent of it. */
  ghost predicate IsDrawdown(drawdown: real, r: Reading, peak: real) {
    r.nav.Some? && if r.drawdown.Some? then drawdown == 100.0 * r.drawdown.value else (drawdown + 100.0) * peak == 100.0 * r.nav.value
  }

  lemma PeakGrows(peak: real, readings: seq<Reading>, r: Reading)
    requires IsPeak(peak, readings) && r.nav.Some?
    ensures IsPeak(PeakWith(peak, r), readings + [r])
  {
    var longer, next := readings + [r], PeakWith(peak, r);
    assert longer[|readings|] == r;
    forall k, value | 0 <= k < |longer| && Shows(longer[k], value)
      ensures value <= next
    {
      if k < |readings| { assert Shows(readings[k], value); }
    }
    if next == peak && peak != 0.0 {
      var k :| 0 <= k < |readings| && Shows(readings[k], peak);
      assert Shows(longer[k], peak);
    }
    assert next == peak || Shows(longer[|readings|], next);
  }

  lemma Solves(nav: real, peak: real, q: real, d: real)
    requires peak > 0.0 && q == nav / peak && d == (q - 1.0) * 100.0
    ensures (d + 100.0) * peak == 100.0 * nav
  {
    assert q * peak == nav;
    assert d + 100.0 == q * 100.0;
  }

  lemma DrawdownIs(peak: real, r: Reading)
    requires r.nav.Some? && r.nav.value > 0.0 && peak >= r.nav.value
    ensures IsDrawdown(DrawdownOf(peak, r), r, peak)
  {
    if r.drawdown.None? { Solves(r.nav.value, peak, r.nav.value / peak, DrawdownOf(peak, r)); }
  }

  // ---- Lines ----------------------------------------------------------------------------------

  /** A line that can be no sample: too long, not a snapshot with a time and a positive value, or not later than an accepted one before. */
  ghost predicate Unfit(parse: Bytes -> Option<Reading>, lines: seq<Bytes>, accepted: seq<Sample>, places: seq<nat>, i: nat)
    requires i < |lines| && |places| == |accepted|
  {
    |lines[i]| > MAX_LINE + 1 || match parse(lines[i])
      case None => true
      case Some(r) =>
        r.at.None? || r.nav.None? || r.nav.value <= 0.0 || exists k :: 0 <= k < |places| && places[k] < i && r.at.value <= accepted[k].at
  }

  /** places are the lines that were accepted, readings what they hold, and peaks the peak at each of them. */
  datatype Chart = Chart(places: seq<nat>, readings: seq<Reading>, peaks: seq<real>)

  ghost predicate SampleFits(parse: Bytes -> Option<Reading>, lines: seq<Bytes>, accepted: seq<Sample>, c: Chart, k: nat)
    requires k < |accepted| == |c.places| == |c.readings| == |c.peaks|
  {
    var sample, r := accepted[k], c.readings[k];
    && c.places[k] < |lines| && |lines[c.places[k]]| <= MAX_LINE + 1 && parse(lines[c.places[k]]) == Some(r)
    && r.at == Some(sample.at) && r.nav == Some(sample.nav) && sample.nav > 0.0
    && IsPeak(c.peaks[k], c.readings[..k + 1]) && IsDrawdown(sample.drawdown, r, c.peaks[k])
  }

  /** Each sample comes from a line of its own, in order and with rising times; and every other line is unfit. */
  ghost predicate Charts(parse: Bytes -> Option<Reading>, lines: seq<Bytes>, accepted: seq<Sample>, peak: real, c: Chart) {
    && |c.places| == |c.readings| == |c.peaks| == |accepted|
    && (forall k :: 0 <= k < |accepted| ==> SampleFits(parse, lines, accepted, c, k))
    && (forall j, k :: 0 <= j < k < |accepted| ==> c.places[j] < c.places[k] && accepted[j].at < accepted[k].at)
    && (forall i :: 0 <= i < |lines| && i !in c.places ==> Unfit(parse, lines, accepted, c.places, i))
    && IsPeak(peak, c.readings)
  }

  lemma {:induction false} FoldCharts(parse: Bytes -> Option<Reading>, lines: seq<Bytes>) returns (c: Chart)
    ensures var f := Fold(parse, lines); Charts(parse, lines, f.accepted, f.peak, c) && f.invalid + |f.accepted| == |lines|
  {
    hide Charts; hide Accept;
    if lines == [] {
      c := Chart([], [], []);
      NothingCharted(parse);
    } else {
      var init := lines[..|lines| - 1];
      var before := FoldCharts(parse, init);
      var f := Fold(parse, init);
      assert lines == init + [lines[|lines| - 1]];
      c := LineCharts(parse, init, lines[|lines| - 1], f, before);
    }
  }

  lemma NothingCharted(parse: Bytes -> Option<Reading>)
    ensures Charts(parse, [], [], 0.0, Chart([], [], []))
  {}

  lemma LineCharts(parse: Bytes -> Option<Reading>, lines: seq<Bytes>, line: Bytes, f: Curve, before: Chart) returns (c: Chart)
    requires Charts(parse, lines, f.accepted, f.peak, before)
    ensures var g := Accept(parse, f, line);
            && Charts(parse, lines + [line], g.accepted, g.peak, c)
            && g.invalid + |g.accepted| == f.invalid + |f.accepted| + 1
  {
    hide IsPeak; hide IsDrawdown; hide DrawdownOf;
    var g := Accept(parse, f, line);
    if g.accepted == f.accepted {
      c := before;
      Skipped(parse, lines, line, f, before);
    } else {
      var r := parse(line).value;
      c := Chart(before.places + [|lines|], before.readings + [r], before.peaks + [g.peak]);
      PeakGrows(f.peak, before.readings, r);
      DrawdownIs(g.peak, r);
      Taken(parse, lines, line, f.accepted, f.peak, before, r, g.accepted[|f.accepted|], g.peak);
    }
  }

  lemma Skipped(parse: Bytes -> Option<Reading>, lines: seq<Bytes>, line: Bytes, f: Curve, c: Chart)
    requires Charts(parse, lines, f.accepted, f.peak, c) && Accept(parse, f, line).accepted == f.accepted
    ensures Charts(parse, lines + [line], f.accepted, f.peak, c)
  {
    hide IsPeak; hide IsDrawdown; hide PeakWith; hide DrawdownOf;
    var longer := lines + [line];
    assert longer[|lines|] == line;
    forall k | 0 <= k < |f.accepted|
      ensures SampleFits(parse, longer, f.accepted, c, k)
    {
      assert SampleFits(parse, lines, f.accepted, c, k) && longer[c.places[k]] == lines[c.places[k]];
    }
    forall i | 0 <= i < |longer| && i !in c.places
      ensures Unfit(parse, longer, f.accepted, c.places, i)
    {
      if i < |lines| {
        assert Unfit(parse, lines, f.accepted, c.places, i) && longer[i] == lines[i];
      } else {
        LastIsUnfit(parse, lines, line, f, c);
      }
    }
  }

  lemma LastIsUnfit(parse: Bytes -> Option<Reading>, lines: seq<Bytes>, line: Bytes, f: Curve, c: Chart)
    requires Charts(parse, lines, f.accepted, f.peak, c) && Accept(parse, f, line).accepted == f.accepted
    ensures Unfit(parse, lines + [line], f.accepted, c.places, |lines|)
  {
    hide IsPeak; hide IsDrawdown; hide PeakWith; hide DrawdownOf;
    if |f.accepted| > 0 {
      var last := |f.accepted| - 1;
      assert SampleFits(parse, lines, f.accepted, c, last);
    }
  }

  lemma Taken(parse: Bytes -> Option<Reading>, lines: seq<Bytes>, line: Bytes, accepted: seq<Sample>, was: real, c: Chart, r: Reading, sample: Sample,
              peak: real)
    requires Charts(parse, lines, accepted, was, c) && |line| <= MAX_LINE + 1 && parse(line) == Some(r)
    requires r.at == Some(sample.at) && r.nav == Some(sample.nav) && sample.nav > 0.0
    requires accepted != [] ==> accepted[|accepted| - 1].at < sample.at
    requires IsPeak(peak, c.readings + [r]) && IsDrawdown(sample.drawdown, r, peak)
    ensures Charts(parse, lines + [line], accepted + [sample], peak, Chart(c.places + [|lines|], c.readings + [r], c.peaks + [peak]))
  {
    hide IsPeak; hide IsDrawdown;
    var longer, more, d := lines + [line], accepted + [sample], Chart(c.places + [|lines|], c.readings + [r], c.peaks + [peak]);
    forall k | 0 <= k < |more|
      ensures SampleFits(parse, longer, more, d, k)
    {
      if k < |accepted| {
        assert SampleFits(parse, lines, accepted, c, k);
        assert d.readings[..k + 1] == c.readings[..k + 1] && longer[c.places[k]] == lines[c.places[k]];
      } else {
        assert d.readings[..k + 1] == c.readings + [r] && longer[|lines|] == line;
      }
    }
    forall j, k | 0 <= j < k < |more|
      ensures d.places[j] < d.places[k] && more[j].at < more[k].at
    {
      assert SampleFits(parse, lines, accepted, c, j);
    }
    forall i | 0 <= i < |longer| && i !in d.places
      ensures Unfit(parse, longer, more, d.places, i)
    {
      assert d.places[|accepted|] == |lines|;
      StaysUnfit(parse, lines, line, accepted, sample, c.places, i);
    }
  }

  lemma StaysUnfit(parse: Bytes -> Option<Reading>, lines: seq<Bytes>, line: Bytes, accepted: seq<Sample>, sample: Sample, places: seq<nat>, i: nat)
    requires i < |lines| && |places| == |accepted| && (i !in places ==> Unfit(parse, lines, accepted, places, i)) && i !in places + [|lines|]
    ensures Unfit(parse, lines + [line], accepted + [sample], places + [|lines|], i)
  {
    assert (lines + [line])[i] == lines[i] && i !in places;
    assert forall k :: 0 <= k < |places| ==> (places + [|lines|])[k] == places[k] && (accepted + [sample])[k] == accepted[k];
  }

  /** The curve is a chart of the log's complete lines; those left out are counted, and so is an over-long unfinished one. */
  ghost predicate IsChartOf(parse: Bytes -> Option<Reading>, log: Bytes, s: Curve) {
    && (exists c :: Charts(parse, Lines(log), s.accepted, s.peak, c))
    && s.invalid + |s.accepted| == |Lines(log)| + if |Tail(log)| > MAX_LINE then 1 else 0
  }

  /** One pass over any log gives such a chart. */
  lemma ScanCharts(parse: Bytes -> Option<Reading>, log: Bytes)
    ensures IsChartOf(parse, log, Scan(parse, log))
  {
    hide Charts; hide Fold; hide Lines; hide Tail;
    var c := FoldCharts(parse, Lines(log));
  }
}
