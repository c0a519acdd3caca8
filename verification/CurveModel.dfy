/** The equity curve as values: one pass over a log, and the summary that keeps its extremes. */
module CurveModel {
  import opened Common
  import opened ByteLines

  const MAX_POINTS: nat := 1600
  const MAX_BYTES: nat := 64 * 1024 * 1024
  const MAX_LINE: nat := 65536

  /** The fields of one parsed snapshot; None where a field is missing or is not a finite number or a zoned time. */
  datatype Reading = Reading(at: Option<real>, nav: Option<real>, pnl: Option<real>, drawdown: Option<real>)
  datatype Sample = Sample(at: real, nav: real, drawdown: real)

  /** accepted holds every observation, before any reduction. */
  datatype Curve = Curve(accepted: seq<Sample>, invalid: nat, peak: real)

  function Larger(a: real, b: real): real { if a >= b then a else b }

  predicate Acceptable(accepted: seq<Sample>, r: Reading) {
    && r.at.Some? && r.nav.Some? && r.nav.value > 0.0
    && (accepted != [] ==> r.at.value > accepted[|accepted| - 1].at)
  }

  function PeakWith(peak: real, r: Reading): real
    requires r.nav.Some?
  {
    Larger(Larger(peak, r.nav.value), if r.pnl.Some? then r.nav.value - r.pnl.value else r.nav.value)
  }

  function DrawdownOf(peak: real, r: Reading): real
    requires r.nav.Some? && r.nav.value > 0.0 && peak >= r.nav.value
  {
    if r.drawdown.Some? then r.drawdown.value * 100.0 else (r.nav.value / peak - 1.0) * 100.0
  }

  /** One complete line of a length that is read whole. */
  function Observe(parse: Bytes -> Option<Reading>, c: Curve, line: Bytes): Curve {
    match parse(line)
    case None => c.(invalid := c.invalid + 1)
    case Some(r) =>
      if !Acceptable(c.accepted, r) then c.(invalid := c.invalid + 1)
      else
        var peak := PeakWith(c.peak, r);
        c.(peak := peak, accepted := c.accepted + [Sample(r.at.value, r.nav.value, DrawdownOf(peak, r))])
  }

  function Accept(parse: Bytes -> Option<Reading>, c: Curve, line: Bytes): Curve {
    if |line| > MAX_LINE + 1 then c.(invalid := c.invalid + 1) else Observe(parse, c, line)
  }

  function Fold(parse: Bytes -> Option<Reading>, lines: seq<Bytes>): Curve {
    if lines == [] then Curve([], 0, 0.0) else Accept(parse, Fold(parse, lines[..|lines| - 1]), lines[|lines| - 1])
  }

  /** One pass over a log: every complete line in order, and an unfinished line only once it is too long ever to count. */
  function Scan(parse: Bytes -> Option<Reading>, log: Bytes): Curve {
    var c := Fold(parse, Lines(log));
    if |Tail(log)| > MAX_LINE then c.(invalid := c.invalid + 1) else c
  }

  // ---- The summary ----------------------------------------------------------------------------

  function Axis(s: Sample, drawdown: bool): real { if drawdown then s.drawdown else s.nav }

  /** The first place of the least, or greatest, value. */
  function Extreme(part: seq<Sample>, drawdown: bool, greatest: bool): (k: nat)
    requires part != []
    ensures k < |part|
    ensures forall i :: 0 <= i < |part| ==>
              if greatest then Axis(part[i], drawdown) <= Axis(part[k], drawdown) else Axis(part[k], drawdown) <= Axis(part[i], drawdown)
  {
    if |part| == 1 then 0 else
    var n := |part| - 1;
    var k := Extreme(part[..n], drawdown, greatest);
    assert forall i :: 0 <= i < n ==> part[..n][i] == part[i];
    if (if greatest then Axis(part[n], drawdown) > Axis(part[k], drawdown) else Axis(part[n], drawdown) < Axis(part[k], drawdown)) then n else k
  }

  function Marks(part: seq<Sample>): set<nat>
    requires part != []
  {
    {0, |part| - 1, Extreme(part, false, false), Extreme(part, false, true), Extreme(part, true, false), Extreme(part, true, true)}
  }

  /** The samples at the marked places at or after one, in order. */
  function Picked(part: seq<Sample>, marks: set<nat>, from: nat): seq<Sample>
    requires from <= |part|
    decreases |part| - from
  {
    if from == |part| then [] else (if from in marks then [part[from]] else []) + Picked(part, marks, from + 1)
  }

  function Bucket(part: seq<Sample>): seq<Sample>
    requires part != []
  {
    Picked(part, Marks(part), 0)
  }

  const BUCKETS: nat := 266

  /** math.ceil of a quotient */
  function Width(n: nat): nat { (n + BUCKETS - 1) / BUCKETS }

  function Buckets(middle: seq<Sample>, width: nat): seq<Sample>
    requires width > 0
    decreases |middle|
  {
    if |middle| <= width then (if middle == [] then [] else Bucket(middle))
    else Bucket(middle[..width]) + Buckets(middle[width..], width)
  }

  function Reduced(samples: seq<Sample>): seq<Sample> {
    if |samples| <= MAX_POINTS then samples else
    var middle := samples[1..|samples| - 1];
    [samples[0]] + Buckets(middle, Width(|middle|)) + [samples[|samples| - 1]]
  }
}
