/** The speed of a transfer from the samples of its threads, with reals for the
    floating-point numbers. Unsigned 64-bit operations wrap; a flag tells whether
    one did. */
module Calculator {
  import opened Text
  import opened TimeResults

  const SKIP: nat := 1_000_000_000

  datatype Speed = Speed(bps: real, gbps: real, mbps: real)

  /** A floating-point number, and whether all unsigned operations behind it stayed in range. */
  datatype Number = Number(value: real, exact: bool)

  datatype Result = Result(speed: Speed, exact: bool)

  /** Subtraction of 64-bit numbers. */
  function Minus(a: nat, b: nat): nat { (a - b) % U64 }

  const ZERO: Speed := Speed(0.0, 0.0, 0.0)

  /** Index of the first sample at or after a time, or the length. */
  function FirstAtLeast(s: seq<Sample>, time: nat): (i: nat)
    ensures i <= |s| && (i < |s| ==> s[i].0 >= time)
    ensures forall j | 0 <= j < i :: s[j].0 < time
  {
    if s == [] || s[0].0 >= time then 0 else 1 + FirstAtLeast(s[1..], time)
  }

  /** The part of a rise over `d` that falls to `x`. */
  function Share(x: real, d: real, rise: real): real
    requires d > 0.0
  {
    x / d * rise
  }

  /** The value at `time` on the line through two samples. */
  function OnLine(p: Sample, q: Sample, time: nat): Number
    requires p.0 < q.0 && p.0 <= time
  {
    Number(p.1 as real + Share((time - p.0) as real, (q.0 - p.0) as real, Minus(q.1, p.1) as real), q.1 >= p.1)
  }

  function Interpolate(s: seq<Sample>, time: nat): Number {
    var i := FirstAtLeast(s, time);
    if s == [] then Number(0.0, true)
    else if i == |s| then Number(s[|s| - 1].1 as real, true)
    else if s[i].0 == time then Number(0.0, true)  // the sample is both neighbours
    else if i == 0 then Number(s[0].1 as real, true)
    else OnLine(s[i - 1], s[i], time)
  }

  /** What a thread has sent by the end point. */
  function AtEnd(s: seq<Sample>, target: nat): Number
    requires s != []
  {
    var i := FirstAtLeast(s, target);
    var l := if i < |s| then i else |s| - 1;
    if l == 0 then Interpolate(s, target)
    else if s[l].0 > s[l - 1].0 then OnLine(s[l - 1], s[l], target)
    else Number(s[l].1 as real, true)
  }

  /** Bytes of one thread between the start and the end point. */
  function Contribution(s: seq<Sample>, start: nat, target: nat): Number
    requires s != []
  {
    var a, b := Interpolate(s, start), AtEnd(s, target);
    Number(b.value - a.value, a.exact && b.exact)
  }

  function Total(ms: seq<seq<Sample>>, start: nat, target: nat): Number {
    if ms == [] then Number(0.0, true) else
    var rest := Total(ms[..|ms| - 1], start, target);
    var s := ms[|ms| - 1];
    if s == [] then rest else Plus(rest, Contribution(s, start, target))
  }

  function Plus(a: Number, b: Number): Number { Number(a.value + b.value, a.exact && b.exact) }

  /** The least of some times, 0 when there are none. */
  function Least(ts: seq<nat>): (m: nat)
    ensures ts != [] ==> m in ts && forall t | t in ts :: m <= t
  {
    if ts == [] then 0 else if |ts| == 1 then ts[0] else
    var rest := Least(ts[1..]);
    assert forall t | t in ts :: t == ts[0] || t in ts[1..];
    if ts[0] <= rest then ts[0] else rest
  }

  function Firsts(ms: seq<seq<Sample>>): seq<nat> {
    if ms == [] then [] else (if ms[0] == [] then [] else [ms[0][0].0]) + Firsts(ms[1..])
  }

  function Lasts(ms: seq<seq<Sample>>): seq<nat> {
    if ms == [] then [] else (if ms[0] == [] then [] else [ms[0][|ms[0]| - 1].0]) + Lasts(ms[1..])
  }

  function SpeedOf(ms: seq<seq<Sample>>): Result {
    var minStart, last := Least(Firsts(ms)), Least(Lasts(ms));
    var tStar := Minus(last, SKIP);
    if ms == [] || last == 0 then Result(ZERO, true)
    else if tStar == 0 then Result(ZERO, last >= SKIP)
    else
      var total := Total(ms, (minStart + SKIP) % U64, (minStart + SKIP + tStar) % U64);
      Result(Rate(total.value, tStar), total.exact && last >= SKIP && minStart + last < U64)
  }

  function Rate(total: real, time: nat): Speed
    requires time > 0
  {
    var bps := total * 8.0 / (time as real / 1_000_000_000.0);
    Speed(bps, bps / 1_000_000_000.0, bps / 1_000_000.0)
  }

  // ----- the loops

  method InterpolateBytesAtTime(measurements: seq<Sample>, targetTime: nat) returns (r: Number)
    ensures r == Interpolate(measurements, targetTime)
  {
    if measurements == [] { return Number(0.0, true); }
    var before, after: Option<Sample> := None, None;
    var i := 0;
    while i < |measurements|
      invariant i <= |measurements| && after == None
      invariant forall j | 0 <= j < i :: measurements[j].0 < targetTime
      invariant before == if i == 0 then None else Some(measurements[i - 1])
    {
      if measurements[i].0 <= targetTime {
        before := Some(measurements[i]);
      }
      if measurements[i].0 >= targetTime {
        after := Some(measurements[i]);
        break;
      }
      i := i + 1;
    }
    FirstIs(measurements, targetTime, i);
    match (before, after) {
      case (Some(p), Some(q)) => r := if q.0 > p.0 then OnLine(p, q, targetTime) else Number(0.0, true);
      case (Some(p), None) => r := Number(p.1 as real, true);
      case (None, Some(q)) => r := Number(q.1 as real, true);
      case _ => r := Number(0.0, true);
    }
  }

  lemma {:induction false} FirstIs(s: seq<Sample>, time: nat, i: nat)
    requires i <= |s| && (forall j | 0 <= j < i :: s[j].0 < time) && (i < |s| ==> s[i].0 >= time)
    ensures FirstAtLeast(s, time) == i
  {
  }

  method CalculateSpeed(measurements: seq<seq<Sample>>) returns (r: Speed)
    ensures r == SpeedOf(measurements).speed
  {
    hide Total, Interpolate, OnLine, Firsts, Lasts, Rate;
    if measurements == [] { return ZERO; }
    var minStartTime := Least(Firsts(measurements));
    var tStarOriginal := Least(Lasts(measurements));
    if tStarOriginal == 0 { return ZERO; }
    var tStar := Minus(tStarOriginal, SKIP);
    if tStar <= 0 { return ZERO; }
    var start, target := (minStartTime + SKIP) % U64, (minStartTime + SKIP + tStar) % U64;
    var totalBytes := 0.0;
    var k := 0;
    TotalOfNone(measurements, start, target);
    while k < |measurements|
      invariant k <= |measurements|
      invariant Total(measurements[..k], start, target).value == totalBytes
    {
      var thread := measurements[k];
      TotalNext(measurements, k, start, target);
      if thread != [] {
        var bytesAtStart := InterpolateBytesAtTime(thread, start);
        var lkIndex: Option<nat> := None;
        var j := 0;
        while j < |thread|
          invariant j <= |thread| && lkIndex == None
          invariant forall i | 0 <= i < j :: thread[i].0 < target
        {
          if thread[j].0 >= target {
            lkIndex := Some(j);
            break;
          }
          j := j + 1;
        }
        FirstIs(thread, target, j);
        var lk := if lkIndex.Some? then lkIndex.value else |thread| - 1;
        var bk;
        if lk == 0 {
          bk := InterpolateBytesAtTime(thread, target);
        } else if thread[lk].0 > thread[lk - 1].0 {
          bk := OnLine(thread[lk - 1], thread[lk], target);
        } else {
          bk := Number(thread[lk].1 as real, true);
        }
        totalBytes := totalBytes + (bk.value - bytesAtStart.value);
      }
      k := k + 1;
    }
    assert measurements[..k] == measurements;
    r := Rate(totalBytes, tStar);
  }

  lemma TotalNext(ms: seq<seq<Sample>>, k: nat, start: nat, target: nat)
    requires k < |ms|
    ensures var (rest, next) := (Total(ms[..k], start, target), Total(ms[..k + 1], start, target));
      next == if ms[k] == [] then rest else Plus(rest, Contribution(ms[k], start, target))
  {
    assert ms[..k + 1][..k] == ms[..k] && ms[..k + 1][k] == ms[k];
  }

  lemma TotalOfNone(ms: seq<seq<Sample>>, start: nat, target: nat)
    ensures Total(ms[..0], start, target) == Number(0.0, true)
  {
  }

  // ----- which samples count

  /** A value on the line through two samples, as a proportion. */
  lemma OnLineProportion(p: Sample, q: Sample, time: nat)
    requires p.0 < q.0 && p.0 <= time && p.1 <= q.1 < U64
    ensures (OnLine(p, q, time).value - p.1 as real) * (q.0 - p.0) as real == (time - p.0) as real * (q.1 - p.1) as real
  {
    var (x, d, rise) := ((time - p.0) as real, (q.0 - p.0) as real, (q.1 - p.1) as real);
    ShareTimes(x, d, rise);
  }

  lemma ShareTimes(x: real, d: real, rise: real)
    requires d > 0.0
    ensures Share(x, d, rise) * d == x * rise
  {
    var q := x / d;
    assert q * d == x;
    assert q * rise * d == q * d * rise;
  }

  /** The interpolation outside the samples and on one of them. */
  lemma InterpolateOutside(s: seq<Sample>, time: nat, j: nat)
    requires s != [] && Steady(s)
    ensures time < s[0].0 ==> Interpolate(s, time).value == s[0].1 as real
    ensures time > s[|s| - 1].0 ==> Interpolate(s, time).value == s[|s| - 1].1 as real
    ensures j < |s| && s[j].0 == time ==> Interpolate(s, time).value == 0.0
  {
    hide OnLine, FirstAtLeast;
    if time < s[0].0 {
      FirstIs(s, time, 0);
    } else if time > s[|s| - 1].0 {
      FirstIs(s, time, |s|);
    } else if j < |s| && s[j].0 == time {
      FirstIs(s, time, j);
    }
  }

  /** Between two samples it is the point on their line. */
  lemma InterpolateNeighbours(s: seq<Sample>, time: nat, j: nat)
    requires Steady(s) && Fits(s) && j + 1 < |s| && s[j].0 < time < s[j + 1].0
    ensures (Interpolate(s, time).value - s[j].1 as real) * (s[j + 1].0 - s[j].0) as real ==
            (time - s[j].0) as real * (s[j + 1].1 - s[j].1) as real
  {
    hide OnLine, FirstAtLeast;
    FirstIs(s, time, j + 1);
    OnLineProportion(s[j], s[j + 1], time);
  }

  /** The end value by the same token. The first sample at or after the target and
      the one before it give the line; past the end it is the line through the last
      two. `l` is that sample, or the last one. */
  lemma AtEndNeighbours(s: seq<Sample>, target: nat, l: nat)
    requires l < |s| && (forall i | 0 <= i < l :: s[i].0 < target) && (s[l].0 >= target || l == |s| - 1)
    ensures l > 0 && s[l - 1].0 < s[l].0 && s[l - 1].1 <= s[l].1 < U64 ==>
      (AtEnd(s, target).value - s[l - 1].1 as real) * (s[l].0 - s[l - 1].0) as real ==
      (target - s[l - 1].0) as real * (s[l].1 - s[l - 1].1) as real
    ensures l > 0 && s[l - 1].0 >= s[l].0 ==> AtEnd(s, target).value == s[l].1 as real
    ensures l == 0 ==> AtEnd(s, target).value == if s[0].0 == target then 0.0 else s[0].1 as real
  {
    hide OnLine, FirstAtLeast;
    FirstIs(s, target, if s[l].0 >= target then l else |s|);
    if l > 0 && s[l - 1].0 < s[l].0 && s[l - 1].1 <= s[l].1 < U64 {
      OnLineProportion(s[l - 1], s[l], target);
    }
  }

  // ----- constant rates

  /** Times increase and byte counts do not decrease. */
  predicate Steady(s: seq<Sample>) { forall i, j | 0 <= i < j < |s| :: s[i].0 < s[j].0 && s[i].1 <= s[j].1 }

  /** The numbers of the samples are 64 bits wide. */
  predicate Fits(s: seq<Sample>) { forall i | 0 <= i < |s| :: s[i].0 < U64 && s[i].1 < U64 }

  ghost predicate OnRate(s: seq<Sample>, r: real, c: real) {
    forall i | 0 <= i < |s| :: s[i].1 as real == r * s[i].0 as real + c
  }

  /** The start point falls inside the samples and on none of them. */
  predicate Inside(s: seq<Sample>, start: nat) {
    s != [] && s[0].0 < start < s[|s| - 1].0 && forall i | 0 <= i < |s| :: s[i].0 != start
  }

  lemma RatioTimesRise(x: real, d: real, rise: real, r: real)
    requires d > 0.0 && rise == r * d
    ensures Share(x, d, rise) == r * x
  {
    var q := x / d;
    assert q * d == x;
    assert q * (r * d) == r * (q * d);
  }

  lemma Distribute(r: real, a: real, b: real)
    ensures r * (a - b) == r * a - r * b && (a + b) * r == a * r + b * r
  {
  }

  lemma LineThrough(p: Sample, q: Sample, time: nat, r: real, c: real)
    requires p.0 < q.0 && p.0 <= time && p.1 <= q.1 < U64
    requires p.1 as real == r * p.0 as real + c && q.1 as real == r * q.0 as real + c
    ensures OnLine(p, q, time) == Number(r * time as real + c, true)
  {
    hide Share;
    var x, d := (time - p.0) as real, (q.0 - p.0) as real;
    Distribute(r, q.0 as real, p.0 as real);
    RatioTimesRise(x, d, (q.1 - p.1) as real, r);
    Distribute(r, time as real, p.0 as real);
  }

  lemma InterpolateOnRate(s: seq<Sample>, r: real, c: real, time: nat)
    requires Steady(s) && Fits(s) && OnRate(s, r, c) && Inside(s, time)
    ensures Interpolate(s, time) == Number(r * time as real + c, true)
  {
    hide OnLine;
    var i := FirstAtLeast(s, time);
    assert 0 < i < |s|;
    LineThrough(s[i - 1], s[i], time, r, c);
  }

  lemma AtEndOnRate(s: seq<Sample>, r: real, c: real, target: nat)
    requires Steady(s) && Fits(s) && OnRate(s, r, c) && |s| > 1 && s[0].0 < target
    ensures AtEnd(s, target) == Number(r * target as real + c, true)
  {
    hide OnLine, Interpolate;
    var e := FirstAtLeast(s, target);
    var l := if e < |s| then e else |s| - 1;
    assert 0 < l < |s|;
    LineThrough(s[l - 1], s[l], target, r, c);
  }

  /** On a line of any slope a thread contributes the slope times the time between
      the end points, also when the end point lies past its last sample. */
  lemma ContributionOnRate(s: seq<Sample>, r: real, c: real, start: nat, target: nat)
    requires Steady(s) && Fits(s) && OnRate(s, r, c) && Inside(s, start) && start <= target
    ensures Contribution(s, start, target) == Number(r * (target - start) as real, true)
  {
    hide Interpolate, AtEnd, Steady, Fits, OnRate;
    InterpolateOnRate(s, r, c, start);
    AtEndOnRate(s, r, c, target);
    Distribute(r, target as real, start as real);
  }

  function Sum(rs: seq<real>): real { if rs == [] then 0.0 else Sum(rs[..|rs| - 1]) + rs[|rs| - 1] }

  ghost predicate ConstantRates(ms: seq<seq<Sample>>, rs: seq<real>, cs: seq<real>, start: nat) {
    && |ms| == |rs| == |cs|
    && forall k | 0 <= k < |ms| :: Steady(ms[k]) && Fits(ms[k]) && OnRate(ms[k], rs[k], cs[k]) && Inside(ms[k], start)
  }

  lemma {:induction false} TotalOnRates(ms: seq<seq<Sample>>, rs: seq<real>, cs: seq<real>, start: nat, target: nat,
    time: real)
    requires ConstantRates(ms, rs, cs, start) && start <= target && time == (target - start) as real
    ensures Total(ms, start, target) == Number(Sum(rs) * time, true)
  {
    hide Contribution, Steady, Fits, OnRate;
    if ms == [] {
      assert 0.0 * time == 0.0;
    } else {
      var n := |ms| - 1;
      TotalOnRates(ms[..n], rs[..n], cs[..n], start, target, time);
      ContributionOnRate(ms[n], rs[n], cs[n], start, target);
      Distribute(time, Sum(rs[..n]), rs[n]);
      assert Total(ms, start, target).value == Sum(rs[..n]) * time + rs[n] * time;
      assert Sum(rs) == Sum(rs[..n]) + rs[n];
    }
  }

  lemma RateOfProduct(total: real, sum: real, time: nat)
    requires time > 0 && total == sum * time as real
    ensures var speed := Rate(total, time);
      speed.bps == 8_000_000_000.0 * sum && speed.gbps == 8.0 * sum && speed.mbps == 8_000.0 * sum
  {
    Quotient(total, sum, time as real);
  }

  lemma Quotient(total: real, sum: real, t: real)
    requires t > 0.0 && total == sum * t
    ensures total * 8.0 / (t / 1_000_000_000.0) == 8_000_000_000.0 * sum
  {
    var d := t / 1_000_000_000.0;
    assert total * 8.0 == 8_000_000_000.0 * sum * d;
    Cancels(8_000_000_000.0 * sum, d);
  }

  lemma Cancels(a: real, d: real)
    requires d > 0.0
    ensures a * d / d == a
  {
  }

  /** Within the width of the numbers the speed is computed as written. */
  lemma SpeedWithin(ms: seq<seq<Sample>>, minStart: nat, last: nat)
    requires ms != [] && minStart == Least(Firsts(ms)) && last == Least(Lasts(ms)) && SKIP < last < U64
    ensures minStart + last < U64 ==>
      var total := Total(ms, minStart + SKIP, minStart + last);
      SpeedOf(ms) == Result(Rate(total.value, last - SKIP), total.exact)
    ensures minStart + last >= U64 ==> !SpeedOf(ms).exact
  {
    hide Total, Firsts, Lasts, Least, Rate;
  }

  lemma SpeedShort(ms: seq<seq<Sample>>)
    ensures var last := Least(Lasts(ms));
      && (SpeedOf(ms).exact ==> ms == [] || last == 0 || last >= SKIP)
      && (ms == [] || last == 0 || last == SKIP ==> SpeedOf(ms) == Result(ZERO, true))
  {
    hide Total, Firsts, Lasts, Least, Rate;
  }

  /** Exact on constant rates: when every thread's samples lie on a line of slope
      r_k and the start point falls inside each thread's range and off its
      samples, the speed is 8e9 times the sum of the slopes, in bits per second. */
  lemma SpeedOnConstantRates(ms: seq<seq<Sample>>, rs: seq<real>, cs: seq<real>)
    requires ms != [] && ConstantRates(ms, rs, cs, Least(Firsts(ms)) + SKIP)
    requires SKIP < Least(Lasts(ms)) && Least(Firsts(ms)) + Least(Lasts(ms)) < U64
    ensures var Result(speed, exact) := SpeedOf(ms);
      exact && speed.bps == 8_000_000_000.0 * Sum(rs) && speed.gbps == 8.0 * Sum(rs) && speed.mbps == 8_000.0 * Sum(rs)
  {
    hide Total, ConstantRates, Rate, Least, Firsts, Lasts, Sum, SpeedOf;
    var minStart, last := Least(Firsts(ms)), Least(Lasts(ms));
    var total := Total(ms, minStart + SKIP, minStart + last);
    TotalOnRates(ms, rs, cs, minStart + SKIP, minStart + last, (last - SKIP) as real);
    RateOfProduct(total.value, Sum(rs), last - SKIP);
    SpeedWithin(ms, minStart, last);
  }

  // ----- no underflow, no negative contribution

  lemma LineGrows(p: Sample, q: Sample, a: nat, b: nat)
    requires p.0 < q.0 && p.0 <= a <= b && p.1 <= q.1 < U64
    ensures OnLine(p, q, a).exact && OnLine(p, q, b).exact
    ensures p.1 as real <= OnLine(p, q, a).value <= OnLine(p, q, b).value
    ensures b <= q.0 ==> OnLine(p, q, b).value <= q.1 as real
    ensures a >= q.0 ==> OnLine(p, q, a).value >= q.1 as real
  {
    hide Share;
    ShareBounds((a - p.0) as real, (b - p.0) as real, (q.0 - p.0) as real, (q.1 - p.1) as real);
  }

  lemma ShareBounds(x: real, y: real, d: real, rise: real)
    requires 0.0 <= x <= y && d > 0.0 && rise >= 0.0
    ensures 0.0 <= Share(x, d, rise) <= Share(y, d, rise)
    ensures y <= d ==> Share(y, d, rise) <= rise
    ensures x >= d ==> Share(x, d, rise) >= rise
  {
    hide Share;
    ShareGrows(x, y, d, rise);
    ShareOfAll(d, rise);
    if y <= d {
      ShareGrows(y, d, d, rise);
    }
    if x >= d {
      ShareGrows(d, x, d, rise);
    }
  }

  lemma ShareOfAll(d: real, rise: real)
    requires d > 0.0
    ensures Share(d, d, rise) == rise
  {
    assert d / d == 1.0;
  }

  lemma ShareGrows(x: real, y: real, d: real, rise: real)
    requires 0.0 <= x <= y && d > 0.0 && rise >= 0.0
    ensures 0.0 <= Share(x, d, rise) <= Share(y, d, rise)
  {
    Ratio(x, y, d);
    Scale(x / d, y / d, rise);
  }

  lemma Ratio(x: real, y: real, d: real)
    requires 0.0 <= x <= y && d > 0.0
    ensures 0.0 <= x / d <= y / d
  {
  }

  lemma Scale(a: real, b: real, rise: real)
    requires 0.0 <= a <= b && rise >= 0.0
    ensures 0.0 <= a * rise <= b * rise
  {
  }

  /** With steady samples a thread's contribution is exact, and it is negative
      exactly when its first sample lies at the end point and has bytes. */
  lemma ContributionNonNegative(s: seq<Sample>, start: nat, target: nat)
    requires s != [] && Steady(s) && Fits(s) && start < target
    ensures Contribution(s, start, target).exact
    ensures Contribution(s, start, target).value < 0.0 <==> s[0].0 == target && s[0].1 > 0
  {
    hide OnLine;
    var i, e := FirstAtLeast(s, start), FirstAtLeast(s, target);
    var l := if e < |s| then e else |s| - 1;
    if 0 < i < |s| {
      LineGrows(s[i - 1], s[i], start, start);
    }
    if l > 0 {
      LineGrows(s[l - 1], s[l], target, target);
      if i == l {
        LineGrows(s[l - 1], s[l], start, target);
      }
    }
  }

  predicate AllSteady(ms: seq<seq<Sample>>) { forall k | 0 <= k < |ms| :: Steady(ms[k]) && Fits(ms[k]) }

  /** A thread's first sample is its end point, and it has bytes. */
  predicate StartsAtEnd(ms: seq<seq<Sample>>, target: nat) {
    exists k :: 0 <= k < |ms| && ms[k] != [] && ms[k][0].0 == target && ms[k][0].1 > 0
  }

  lemma {:induction false} TotalDefined(ms: seq<seq<Sample>>, start: nat, target: nat)
    requires AllSteady(ms) && start < target
    ensures Total(ms, start, target).exact
    ensures !StartsAtEnd(ms, target) ==> Total(ms, start, target).value >= 0.0
  {
    hide Contribution, Steady, Fits;
    if ms != [] {
      var n := |ms| - 1;
      TotalDefined(ms[..n], start, target);
      if ms[n] != [] {
        ContributionNonNegative(ms[n], start, target);
      }
    }
  }

  /** With steady samples no unsigned operation leaves its range exactly when at
      least the skipped second was measured and the end point fits in 64 bits; then
      the speed is not negative unless some thread starts at the end point. */
  lemma SpeedExact(ms: seq<seq<Sample>>)
    requires AllSteady(ms)
    ensures var (minStart, last) := (Least(Firsts(ms)), Least(Lasts(ms)));
      && (SpeedOf(ms).exact <==> ms == [] || last == 0 || last == SKIP || (last > SKIP && minStart + last < U64))
      && (SpeedOf(ms).exact && !StartsAtEnd(ms, minStart + last) ==> SpeedOf(ms).speed.bps >= 0.0)
  {
    hide Total, AllSteady, StartsAtEnd, SpeedOf, Least, Firsts, Lasts;
    var minStart, last := Least(Firsts(ms)), Least(Lasts(ms));
    LastFits(ms);
    SpeedShort(ms);
    if ms != [] && last > SKIP {
      SpeedWithin(ms, minStart, last);
      if minStart + last < U64 {
        TotalDefined(ms, minStart + SKIP, minStart + last);
      }
    }
  }

  lemma LastFits(ms: seq<seq<Sample>>)
    requires AllSteady(ms)
    ensures Least(Lasts(ms)) < U64
  {
    hide Least, Lasts;
    var ts := Lasts(ms);
    if ts != [] {
      var last := Least(ts);
      LastsMembers(ms, last);
      var s: seq<Sample> :| s in ms && s != [] && s[|s| - 1].0 == last;
    } else {
      assert Least(ts) == 0 by { NoLeast(); }
    }
  }

  lemma NoLeast()
    ensures Least([]) == 0
  {
  }

  /** A thousand bytes in half a second come out as less than one bit per second:
      the subtraction of the skipped second wraps, and the bytes are spread over
      centuries. */
  lemma ShortRun()
    ensures var ms := [[(1, 0), (500_000_000, 1000)]];
      AllSteady(ms) && !SpeedOf(ms).exact && 0.0 < SpeedOf(ms).speed.bps < 1.0
  {
    hide SpeedOf, Total;
    var s: seq<Sample> := [(1, 0), (500_000_000, 1000)];
    var ms := [s];
    assert ms[1..] == [] && Firsts(ms) == [1] && Lasts(ms) == [500_000_000];
    SpeedShort(ms);
    ShortWraps(ms);
    ShortContribution(s);
    OneThread(s, 1_000_000_001, 500_000_001);
    ShortRate(Total(ms, 1_000_000_001, 500_000_001).value);
  }

  lemma ShortWraps(ms: seq<seq<Sample>>)
    requires ms != [] && Least(Firsts(ms)) == 1 && Least(Lasts(ms)) == 500_000_000
    ensures SpeedOf(ms).speed == Rate(Total(ms, 1_000_000_001, 500_000_001).value, U64 - 500_000_000)
  {
    hide Total, Firsts, Lasts, Least, Rate;
  }

  lemma ShortContribution(s: seq<Sample>)
    requires s == [(1, 0), (500_000_000, 1000)]
    ensures 0.0 < Contribution(s, 1_000_000_001, 500_000_001).value < 1.0
  {
    FirstIs(s, 1_000_000_001, 2);
    FirstIs(s, 500_000_001, 2);
  }

  lemma OneThread(s: seq<Sample>, start: nat, target: nat)
    requires s != []
    ensures var n := Contribution(s, start, target); Total([s], start, target) == Number(n.value, n.exact)
  {
    hide Contribution;
    assert [s][..0] == [];
  }

  lemma ShortRate(total: real)
    requires 0.0 < total < 1.0
    ensures 0.0 < Rate(total, U64 - 500_000_000).bps < 1.0
  {
  }

  /** Samples that are not on one line, with an end point past the last of them: the
      last two count, and the speed is 32 Mbit/s. */
  lemma LastTwoCount()
    ensures var ms := [[(500_000_000, 0), (1_000_000_000, 1_000_000), (3_000_000_000, 9_000_000)]];
      SpeedOf(ms) == Result(Speed(32_000_000.0, 0.032, 32.0), true)
  {
    hide Total, Rate, Contribution, SpeedOf;
    var s: seq<Sample> := [(500_000_000, 0), (1_000_000_000, 1_000_000), (3_000_000_000, 9_000_000)];
    var ms := [s];
    assert ms[1..] == [] && Firsts(ms) == [500_000_000] && Lasts(ms) == [3_000_000_000];
    SpeedWithin(ms, 500_000_000, 3_000_000_000);
    ThreeSamples(s);
    OneThread(s, 1_500_000_000, 3_500_000_000);
    RateOfEight();
  }

  lemma ThreeSamples(s: seq<Sample>)
    requires s == [(500_000_000, 0), (1_000_000_000, 1_000_000), (3_000_000_000, 9_000_000)]
    ensures Contribution(s, 1_500_000_000, 3_500_000_000) == Number(8_000_000.0, true)
  {
    hide AtEnd, Interpolate;
    InterpolateNeighbours(s, 1_500_000_000, 1);
    AtEndNeighbours(s, 3_500_000_000, 2);
    ContributionNonNegative(s, 1_500_000_000, 3_500_000_000);
  }

  lemma RateOfEight()
    ensures Rate(8_000_000.0, 2_000_000_000) == Speed(32_000_000.0, 0.032, 32.0)
  {
  }

  /** A start point on a sample costs the thread nothing: the interpolation there
      is 0, so all bytes up to the end point count. */
  lemma StartOnSample(s: seq<Sample>, i: nat, target: nat)
    requires Steady(s) && Fits(s) && i < |s| && s[i].0 < target
    ensures Interpolate(s, s[i].0) == Number(0.0, true)
    ensures Contribution(s, s[i].0, target) == AtEnd(s, target)
  {
    hide OnLine;
    FirstIs(s, s[i].0, i);
    var e := FirstAtLeast(s, target);
    var l := if e < |s| then e else |s| - 1;
    if l > 0 {
      LineGrows(s[l - 1], s[l], target, target);
    }
  }

  // ----- the order of the threads

  function Term(s: seq<Sample>, start: nat, target: nat): Number {
    if s == [] then Number(0.0, true) else Contribution(s, start, target)
  }

  lemma TotalLast(ms: seq<seq<Sample>>, start: nat, target: nat)
    requires ms != []
    ensures Total(ms, start, target) == Plus(Total(ms[..|ms| - 1], start, target), Term(ms[|ms| - 1], start, target))
  {
    hide Contribution;
  }

  lemma {:induction false} TotalWithout(ms: seq<seq<Sample>>, k: nat, start: nat, target: nat)
    requires k < |ms|
    ensures Total(ms, start, target) == Plus(Total(ms[..k] + ms[k + 1..], start, target), Term(ms[k], start, target))
  {
    hide Total, Term;
    var n := |ms| - 1;
    var rest := ms[..k] + ms[k + 1..];
    TotalLast(ms, start, target);
    if k == n {
      assert rest == ms[..n];
    } else {
      TotalWithout(ms[..n], k, start, target);
      TotalLast(rest, start, target);
      assert rest[..n - 1] == ms[..n][..k] + ms[..n][k + 1..] && rest[n - 1] == ms[n];
    }
  }

  lemma {:induction false} TotalPermuted(ms: seq<seq<Sample>>, ns: seq<seq<Sample>>, start: nat, target: nat)
    requires multiset(ms) == multiset(ns)
    ensures Total(ms, start, target) == Total(ns, start, target)
    decreases |ns|
  {
    hide Total, Term;
    SameLength(ms, ns);
    if ns == [] {
      assert ms == ns;
    } else {
      var n := |ns| - 1;
      assert ns[n] in multiset(ms);
      var k: nat :| k < |ms| && ms[k] == ns[n];
      Without(ms, k);
      assert ns == ns[..n] + [ns[n]];
      TotalPermuted(ms[..k] + ms[k + 1..], ns[..n], start, target);
      TotalWithout(ms, k, start, target);
      TotalLast(ns, start, target);
    }
  }

  lemma Without<T>(a: seq<T>, k: nat)
    requires k < |a|
    ensures multiset(a[..k] + a[k + 1..]) == multiset(a) - multiset{a[k]}
  {
    assert a == a[..k] + [a[k]] + a[k + 1..];
  }

  lemma {:induction false} FirstsMembers(ms: seq<seq<Sample>>, t: nat)
    ensures t in Firsts(ms) <==> exists s: seq<Sample> :: s in ms && s != [] && s[0].0 == t
  {
    if ms != [] {
      FirstsMembers(ms[1..], t);
      assert forall s | s in ms :: s == ms[0] || s in ms[1..];
    }
  }

  lemma {:induction false} LastsMembers(ms: seq<seq<Sample>>, t: nat)
    ensures t in Lasts(ms) <==> exists s: seq<Sample> :: s in ms && s != [] && s[|s| - 1].0 == t
  {
    if ms != [] {
      LastsMembers(ms[1..], t);
      assert forall s | s in ms :: s == ms[0] || s in ms[1..];
    }
  }

  lemma LeastOfSame(a: seq<nat>, b: seq<nat>)
    requires forall t: nat :: t in a <==> t in b
    ensures Least(a) == Least(b)
  {
    assert a != [] ==> a[0] in b;
    assert b != [] ==> b[0] in a;
  }

  /** The speed does not depend on the order in which the threads report. */
  lemma SpeedOrderIndependent(ms: seq<seq<Sample>>, ns: seq<seq<Sample>>)
    requires multiset(ms) == multiset(ns)
    ensures SpeedOf(ms) == SpeedOf(ns)
  {
    hide Total, Firsts, Lasts, Least;
    assert forall s: seq<Sample> :: s in ms <==> s in multiset(ms);
    assert forall s: seq<Sample> :: s in ns <==> s in multiset(ns);
    forall t: nat ensures (t in Firsts(ms) <==> t in Firsts(ns)) && (t in Lasts(ms) <==> t in Lasts(ns)) {
      FirstsMembers(ms, t);
      FirstsMembers(ns, t);
      LastsMembers(ms, t);
      LastsMembers(ns, t);
    }
    LeastOfSame(Firsts(ms), Firsts(ns));
    LeastOfSame(Lasts(ms), Lasts(ns));
    SameLength(ms, ns);
var (minStart, tStar) := (Least(Firsts(ms)), Minus(Least(Lasts(ms)), SKIP));
    TotalPermuted(ms, ns, (minStart + SKIP) % U64, (minStart + SKIP + tStar) % U64);
  }
}
