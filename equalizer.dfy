/**
 * The audio-reactive bar equalizer (script.js, computeRanges and frame):
 * each bar averages a range of analyser buckets, turns that magnitude into
 * a target height that never falls below the floor, and moves its smoothed
 * height toward the target with a one-pole filter.
 *
 * Floating-point mathematics is abstracted away: the log10 frequency
 * mapping is given as integer bucket estimates, `(mag/255)^0.3` is an
 * arbitrary `compress` function into [0, 1] and `Math.exp` an arbitrary
 * `exp` function into (0, 1] on non-positive arguments. The remaining
 * arithmetic is exact arithmetic on `real`.
 */
module Equalizer {

  /** A byte of the analyser's Uint8Array. */
  newtype byte = x: int | 0 <= x < 256

  /** Bars never go below this scale. */
  const BASE: real := 1.0
  /** Overall height scaler. */
  const HEIGHT_MULT: real := 4.0
  /** Bar count used when the stylesheet gives none. */
  const DEFAULT_BAR_COUNT: nat := 41
  /** The analyser's FFT size, and its frequencyBinCount (half of it). */
  const FFT_SIZE: nat := 2048
  const BIN_COUNT: nat := FFT_SIZE / 2
  /** Share of the previous height kept by one smoothing step, and share of the target taken. */
  const KEEP: real := 0.6
  const PULL: real := 0.4
  /** The target of a bar at full signal (vRaw = 1) and full weight (weight = 1). */
  const PEAK: real := (BASE + (0.35 + 1.45)) * HEIGHT_MULT

  /**
   * The integer results of the log-frequency mapping for one bar: `lo` is
   * the floored raw position of its lower edge, `hi` the ceiled raw
   * position of its upper edge.
   */
  datatype Estimate = Estimate(lo: int, hi: int)

  /** A half-open range [start, end) of analyser buckets. */
  datatype Range = Range(start: int, end: int)

  function Max(a: int, b: int): int { if a < b then b else a }
  function Min(a: int, b: int): int { if a < b then a else b }
  function RealMax(a: real, b: real): real { if a < b then b else a }
  function RealMin(a: real, b: real): real { if a < b then a else b }
  function RealAbs(a: real): real { if a < 0.0 then -a else a }

  /** Multiplying both sides by a non-negative factor keeps an inequality. */
  lemma MulLeft(c: real, a: real, b: real)
    requires 0.0 <= c && a <= b
    ensures c * a <= c * b
    ensures 0.0 < c && a < b ==> c * a < c * b
  {
    assert c * b - c * a == c * (b - a);
  }

  // ---------------------------------------------------------------------
  // Range computation
  // ---------------------------------------------------------------------

  /**
   * The clamping of one bar's estimates: the start is kept non-negative,
   * the end is capped at the last bucket, and the range never ends up empty.
   */
  function Clamp(e: Estimate, binCount: int): (r: Range)
    ensures 0 <= r.start < r.end
    ensures r.start == (if e.lo < 0 then 0 else e.lo)
    ensures r.start < Min(binCount - 1, e.hi) ==> r.end == Min(binCount - 1, e.hi)
    ensures Min(binCount - 1, e.hi) <= r.start ==> r.end == r.start + 1
    ensures 0 <= e.lo < e.hi <= binCount - 1 ==> r == Range(e.lo, e.hi)
    ensures 1 <= binCount && e.lo <= binCount - 1 ==> r.end <= binCount
  {
    var i0 := Max(0, e.lo);
    var i1 := Min(binCount - 1, e.hi);
    Range(i0, Max(i0 + 1, i1))
  }

  /** The ranges computeRanges produces, one per bar. */
  function RangesOf(est: seq<Estimate>, binCount: int): seq<Range>
  {
    seq(|est|, i requires 0 <= i < |est| => Clamp(est[i], binCount))
  }

  /** Every range is non-empty and lies within n buckets. */
  predicate Fits(ranges: seq<Range>, n: int)
  {
    forall i :: 0 <= i < |ranges| ==> 0 <= ranges[i].start < ranges[i].end <= n
  }

  /** No estimate starts past the last bucket (the mapping's frequencies stay below Nyquist). */
  predicate WithinSpectrum(est: seq<Estimate>, binCount: int)
  {
    forall i :: 0 <= i < |est| ==> est[i].lo <= binCount - 1
  }

  /** Lower estimates never decrease from bar to bar (a log-frequency axis is increasing). */
  predicate LowsAscending(est: seq<Estimate>)
  {
    forall i, j :: 0 <= i <= j < |est| ==> est[i].lo <= est[j].lo
  }

  /** computeRanges: resets the list and pushes one clamped range per bar. */
  method ComputeRanges(est: seq<Estimate>, binCount: int) returns (ranges: seq<Range>)
    ensures ranges == RangesOf(est, binCount)
    ensures |ranges| == |est|
    ensures forall i :: 0 <= i < |ranges| ==> 0 <= ranges[i].start < ranges[i].end
    ensures 1 <= binCount && WithinSpectrum(est, binCount) ==> Fits(ranges, binCount)
    ensures LowsAscending(est) ==>
      forall i, j :: 0 <= i <= j < |ranges| ==> ranges[i].start <= ranges[j].start
  {
    ranges := [];
    for i := 0 to |est|
      invariant |ranges| == i
      invariant forall j :: 0 <= j < i ==> ranges[j] == Clamp(est[j], binCount)
    {
      ranges := ranges + [Clamp(est[i], binCount)];
    }
  }

  /** `ranges[i] || [0, 1]`: a bar without a computed range reads bucket 0 only. */
  function RangeFor(ranges: seq<Range>, i: int): Range
  {
    if 0 <= i < |ranges| then ranges[i] else Range(0, 1)
  }

  // ---------------------------------------------------------------------
  // Averaging a bar's buckets
  // ---------------------------------------------------------------------

  function Sum(s: seq<byte>): int
  {
    if s == [] then 0 else Sum(s[..|s| - 1]) + s[|s| - 1] as int
  }

  lemma {:induction false} SumBounds(s: seq<byte>)
    ensures 0 <= Sum(s) <= 255 * |s|
  {
    if s != [] {
      SumBounds(s[..|s| - 1]);
    }
  }

  /** The sum of a run of equal bytes. */
  lemma {:induction false} SumConstant(s: seq<byte>, c: byte)
    requires forall k :: 0 <= k < |s| ==> s[k] == c
    ensures Sum(s) == |s| * c as int
  {
    if s != [] {
      SumConstant(s[..|s| - 1], c);
    }
  }

  /** The inner summation loop of frame, over data[a..b). */
  method SumRange(data: seq<byte>, a: int, b: int) returns (sum: int)
    requires 0 <= a <= b <= |data|
    ensures sum == Sum(data[a..b])
    ensures 0 <= sum <= 255 * (b - a)
  {
    sum := 0;
    for k := a to b
      invariant sum == Sum(data[a..k])
    {
      assert data[a..k + 1][..k - a] == data[a..k];
      sum := sum + data[k] as int;
    }
    SumBounds(data[a..b]);
  }

  /** `sum / Math.max(1, b - a)` over the bytes of a range. */
  function Mean(s: seq<byte>): (m: real)
    ensures 0.0 <= m <= 255.0
    ensures m * Max(1, |s|) as real == Sum(s) as real
  {
    SumBounds(s);
    var n := Max(1, |s|) as real;
    var total := Sum(s) as real;
    assert total <= 255.0 * n;
    total / n
  }

  /** The mean of a run of equal bytes is that byte. */
  lemma MeanConstant(s: seq<byte>, c: byte)
    requires |s| >= 1
    requires forall k :: 0 <= k < |s| ==> s[k] == c
    ensures Mean(s) == c as real
  {
    SumConstant(s, c);
  }

  // ---------------------------------------------------------------------
  // Positional weight, target and smoothing
  // ---------------------------------------------------------------------

  /** Dividing by a positive number keeps signs and order. */
  lemma DivPositive(a: real, b: real, c: real)
    requires 0.0 < c && a <= b
    ensures a / c <= b / c
    ensures 0.0 <= a ==> 0.0 <= a / c
    ensures 0.0 < a ==> 0.0 < a / c
    ensures a == 0.0 ==> a / c == 0.0
  {
    var qa, qb := a / c, b / c;
    assert qa * c == a && qb * c == b;
    if qb < qa {
      MulLeft(c, qb, qa);
    }
    if qa <= 0.0 {
      MulLeft(c, qa, 0.0);
      assert c * 0.0 == 0.0;
    }
  }

  lemma SquareMono(a: real, b: real)
    requires 0.0 <= a <= b
    ensures a * a <= b * b
    ensures 0.0 < a ==> 0.0 < a * a
    ensures a == 0.0 ==> a * a == 0.0
  {
    MulLeft(a, a, b);
    MulLeft(b, a, b);
    MulLeft(a, 0.0, a);
    assert a * 0.0 == 0.0;
  }

  /** `d = |i - (barCount-1)/2|`: how far bar i stands from the centre of the row. */
  function CentreDistance(i: int, barCount: nat): (d: real)
    ensures d >= 0.0
    ensures 2.0 * d == RealAbs((2 * i + 1 - barCount) as real)
  {
    RealAbs(i as real - (barCount - 1) as real / 2.0)
  }

  /** `2*sigma*sigma` with `sigma = barCount/6`, the width of the bell. */
  function Spread(barCount: nat): (w: real)
    requires barCount > 0
    ensures w > 0.0
  {
    var sigma := barCount as real / 6.0;
    MulLeft(sigma, 0.0, sigma);
    2.0 * sigma * sigma
  }

  /**
   * The argument `-(d*d) / (2*sigma*sigma)` of the Gaussian weight of bar i
   * of barCount. It is zero exactly at the centre bar.
   */
  function Exponent(i: int, barCount: nat): (x: real)
    requires barCount > 0
    ensures x <= 0.0
    ensures 2 * i + 1 == barCount ==> x == 0.0
    ensures 2 * i + 1 != barCount ==> x < 0.0
  {
    var d := CentreDistance(i, barCount);
    SquareMono(d, d);
    DivPositive(d * d, d * d, Spread(barCount));
    -(d * d) / Spread(barCount)
  }

  /** A bar nearer the centre has a larger exponent; in particular mirrored bars are equal. */
  lemma NearerCentreLargerExponent(i: int, j: int, barCount: nat)
    requires barCount > 0
    requires RealAbs((2 * i + 1 - barCount) as real) <= RealAbs((2 * j + 1 - barCount) as real)
    ensures Exponent(j, barCount) <= Exponent(i, barCount)
  {
    var di, dj := CentreDistance(i, barCount), CentreDistance(j, barCount);
    SquareMono(di, dj);
    DivPositive(di * di, dj * dj, Spread(barCount));
  }

  /** The per-bar target height `max(BASE, (BASE + vRaw*(0.35 + 1.45*weight)) * HEIGHT_MULT)`. */
  function Target(vRaw: real, weight: real): (t: real)
    ensures t >= BASE
    ensures 0.0 <= vRaw && 0.0 <= weight ==> t >= BASE * HEIGHT_MULT
    ensures vRaw == 0.0 ==> t == BASE * HEIGHT_MULT
    ensures 0.0 <= vRaw <= 1.0 && 0.0 <= weight <= 1.0 ==> t <= PEAK
    ensures vRaw == 1.0 && weight == 1.0 ==> t == PEAK
  {
    var gain := 0.35 + 1.45 * weight;
    assert 0.0 <= vRaw <= 1.0 && 0.0 <= weight <= 1.0 ==> vRaw * gain <= 1.8 by {
      if 0.0 <= vRaw <= 1.0 && 0.0 <= weight <= 1.0 {
        assert 0.35 <= gain <= 1.8;
        assert vRaw * gain <= 1.0 * gain;
      }
    }
    assert 0.0 <= vRaw && 0.0 <= weight ==> vRaw * gain >= 0.0;
    RealMax(BASE, (BASE + vRaw * gain) * HEIGHT_MULT)
  }

  /** The target grows with the positional weight, strictly when there is signal. */
  lemma TargetRisesWithWeight(vRaw: real, w1: real, w2: real)
    requires 0.0 <= vRaw && 0.0 <= w1 <= w2
    ensures Target(vRaw, w1) <= Target(vRaw, w2)
    ensures 0.0 < vRaw && w1 < w2 ==> Target(vRaw, w1) < Target(vRaw, w2)
  {
    var a, b := vRaw * (0.35 + 1.45 * w1), vRaw * (0.35 + 1.45 * w2);
    MulLeft(vRaw, 0.35 + 1.45 * w1, 0.35 + 1.45 * w2);
    MulLeft(HEIGHT_MULT, BASE + a, BASE + b);
    assert HEIGHT_MULT * (BASE + a) == (BASE + a) * HEIGHT_MULT;
    assert HEIGHT_MULT * (BASE + b) == (BASE + b) * HEIGHT_MULT;
  }

  /** The target grows with the compressed magnitude. */
  lemma TargetRisesWithSignal(v1: real, v2: real, weight: real)
    requires 0.0 <= v1 <= v2 && 0.0 <= weight
    ensures Target(v1, weight) <= Target(v2, weight)
    ensures v1 < v2 ==> Target(v1, weight) < Target(v2, weight)
  {
    var gain := 0.35 + 1.45 * weight;
    MulLeft(gain, v1, v2);
    assert gain * v1 == v1 * gain && gain * v2 == v2 * gain;
    var a, b := v1 * gain, v2 * gain;
    MulLeft(HEIGHT_MULT, BASE + a, BASE + b);
    assert HEIGHT_MULT * (BASE + a) == (BASE + a) * HEIGHT_MULT;
    assert HEIGHT_MULT * (BASE + b) == (BASE + b) * HEIGHT_MULT;
  }

  /** One smoothing step `prev*0.6 + target*0.4`. */
  function Smooth(prev: real, target: real): (r: real)
    ensures RealMin(prev, target) <= r <= RealMax(prev, target)
    ensures prev == target ==> r == prev
    ensures r - target == KEEP * (prev - target)
  {
    prev * KEEP + target * PULL
  }

  /** The height of a bar after `frames` frames that all aim at the same target. */
  function Settle(prev: real, target: real, frames: nat): real
  {
    if frames == 0 then prev else Smooth(Settle(prev, target, frames - 1), target)
  }

  function Power(b: real, n: nat): real
  {
    if n == 0 then 1.0 else b * Power(b, n - 1)
  }

  lemma MulAssoc(a: real, b: real, c: real)
    ensures a * (b * c) == (a * b) * c
  {
  }

  lemma {:induction false} PowerBounds(b: real, n: nat)
    requires 0.0 <= b <= 1.0
    ensures 0.0 <= Power(b, n) <= 1.0
  {
    if n > 0 {
      PowerBounds(b, n - 1);
      var p := Power(b, n - 1);
      MulLeft(b, 0.0, p);
      assert b * 0.0 <= b * p;
      assert b * 0.0 == 0.0;
      MulLeft(b, p, 1.0);
      assert b * p <= b * 1.0;
      assert b * 1.0 == b;
    }
  }

  /**
   * Under a constant target the gap to it shrinks by the factor KEEP every
   * frame, so after n frames it is KEEP^n of the initial gap: bars converge.
   */
  lemma {:induction false} SettleConverges(prev: real, target: real, frames: nat)
    ensures Settle(prev, target, frames) - target == Power(KEEP, frames) * (prev - target)
    ensures 0.0 <= Power(KEEP, frames) <= 1.0
  {
    PowerBounds(KEEP, frames);
    if frames > 0 {
      SettleConverges(prev, target, frames - 1);
      var p := Power(KEEP, frames - 1);
      var x := Settle(prev, target, frames - 1);
      var a := prev - target;
      calc {
        Settle(prev, target, frames) - target;
        Smooth(x, target) - target;
        KEEP * (x - target);
        KEEP * (p * a);
        { MulAssoc(KEEP, p, a); }
        (KEEP * p) * a;
        Power(KEEP, frames) * a;
      }
    }
  }

  /** A bar already at its target stays there, frame after frame. */
  lemma {:induction false} SettleAtTarget(target: real, frames: nat)
    ensures Settle(target, target, frames) == target
  {
    if frames > 0 {
      SettleAtTarget(target, frames - 1);
    }
  }

  /** KEEP^n falls at least as fast as 1 / (1 + 2n/3), so it tends to zero. */
  lemma {:induction false} PowerDecays(n: nat)
    ensures Power(KEEP, n) * (1.0 + (2.0 / 3.0) * n as real) <= 1.0
  {
    if n > 0 {
      PowerDecays(n - 1);
      var p := Power(KEEP, n - 1);
      PowerBounds(KEEP, n - 1);
      var k := n as real;
      assert Power(KEEP, n) * (1.0 + (2.0 / 3.0) * k) == p * (0.6 + 0.4 * k);
      MulLeft(p, 0.6 + 0.4 * k, 1.0 + (2.0 / 3.0) * (k - 1.0));
    }
  }

  /** |c * x| is c * |x| for a non-negative factor c. */
  lemma ScaleAbs(c: real, x: real)
    requires 0.0 <= c
    ensures RealAbs(c * x) == c * RealAbs(x)
  {
    if x >= 0.0 {
      MulLeft(c, 0.0, x);
      assert c * 0.0 == 0.0;
    } else {
      MulLeft(c, x, 0.0);
      assert c * 0.0 == 0.0;
      assert c * (-x) == -(c * x);
    }
  }

  /** If p * (1 + k) <= 1 and g <= k * eps then p * g <= eps. */
  lemma SmallFactor(p: real, k: real, g: real, eps: real)
    requires 0.0 <= p && 0.0 <= k && 0.0 < eps
    requires p * (1.0 + k) <= 1.0
    requires g <= k * eps
    ensures p * g <= eps
  {
    assert p * (1.0 + k) == p + p * k;
    MulLeft(p, g, k * eps);
    MulAssoc(p, k, eps);
    MulLeft(eps, p * k, 1.0);
    assert eps * (p * k) == (p * k) * eps;
    assert eps * 1.0 == eps;
  }

  /**
   * Heights converge: for any tolerance eps > 0, after n frames under a
   * constant target with 2*eps*n >= 3*|prev - target| the bar is within eps
   * of its target.
   */
  lemma SettleWithin(prev: real, target: real, eps: real, frames: nat)
    requires 0.0 < eps
    requires 3.0 * RealAbs(prev - target) <= 2.0 * eps * frames as real
    ensures RealAbs(Settle(prev, target, frames) - target) <= eps
  {
    SettleConverges(prev, target, frames);
    PowerDecays(frames);
    var p := Power(KEEP, frames);
    var g := RealAbs(prev - target);
    var k := (2.0 / 3.0) * frames as real;
    var gap := Settle(prev, target, frames) - target;
    assert gap == p * (prev - target);
    ScaleAbs(p, prev - target);
    assert RealAbs(p * (prev - target)) == p * RealAbs(prev - target);
    assert RealAbs(gap) == RealAbs(p * (prev - target));
    assert RealAbs(gap) == p * g;
    assert g <= k * eps by {
      MulAssoc(2.0 / 3.0, frames as real, eps);
      assert 2.0 * eps * frames as real == 2.0 * (eps * frames as real);
      assert eps * frames as real == frames as real * eps;
    }
    SmallFactor(p, k, g, eps);
  }

  // ---------------------------------------------------------------------
  // One bar of one frame
  // ---------------------------------------------------------------------

  /** compress stands for `(mag/255)^0.3` on the magnitudes a bar can have. */
  ghost predicate Compresses(compress: real -> real)
  {
    forall m :: 0.0 <= m <= 255.0 ==> 0.0 <= compress(m) <= 1.0
  }

  /** exp stands for `Math.exp` on the non-positive exponents of the weight. */
  ghost predicate Bell(exp: real -> real)
  {
    forall x :: x <= 0.0 ==> 0.0 < exp(x) <= 1.0
  }

  /** The target of bar i in a frame over the analyser bytes `data`. */
  function BarTarget(ranges: seq<Range>, data: seq<byte>, compress: real -> real, exp: real -> real,
                     i: nat, barCount: nat): real
    requires Fits(ranges, |data|) && 1 <= |data| && i < barCount
  {
    var r := RangeFor(ranges, i);
    Target(compress(Mean(data[r.start..r.end])), exp(Exponent(i, barCount)))
  }

  /** With compress and exp in range, a bar's target lies between the floor and PEAK. */
  lemma BarTargetBounds(ranges: seq<Range>, data: seq<byte>, compress: real -> real, exp: real -> real,
                        i: nat, barCount: nat)
    requires Fits(ranges, |data|) && 1 <= |data| && i < barCount
    requires Compresses(compress) && Bell(exp)
    ensures BASE * HEIGHT_MULT <= BarTarget(ranges, data, compress, exp, i, barCount) <= PEAK
  {
    var r := RangeFor(ranges, i);
    var m := Mean(data[r.start..r.end]);
    assert 0.0 <= compress(m) <= 1.0;
    assert 0.0 < exp(Exponent(i, barCount)) <= 1.0;
  }

  /** Silence (all bytes zero, and compress(0) = 0) puts every bar's target exactly on the floor. */
  lemma SilenceTargetsFloor(ranges: seq<Range>, data: seq<byte>, compress: real -> real, exp: real -> real,
                            i: nat, barCount: nat)
    requires Fits(ranges, |data|) && 1 <= |data| && i < barCount
    requires forall k :: 0 <= k < |data| ==> data[k] == 0
    requires compress(0.0) == 0.0
    ensures BarTarget(ranges, data, compress, exp, i, barCount) == BASE * HEIGHT_MULT
  {
    var r := RangeFor(ranges, i);
    MeanConstant(data[r.start..r.end], 0);
  }

  /**
   * At full scale (every byte 255) the centre bar of an odd bar count aims
   * higher than any other bar, when compress(255) > 0 and exp is strictly
   * increasing on non-positive arguments.
   */
  lemma CentreBarTallest(ranges: seq<Range>, data: seq<byte>, compress: real -> real, exp: real -> real,
                         i: nat, barCount: nat)
    requires Fits(ranges, |data|) && 1 <= |data| && i < barCount && 2 * i + 1 != barCount
    requires barCount % 2 == 1
    requires forall k :: 0 <= k < |data| ==> data[k] == 255
    requires Bell(exp) && 0.0 < compress(255.0)
    requires forall x, y :: x < y <= 0.0 ==> exp(x) < exp(y)
    ensures BarTarget(ranges, data, compress, exp, i, barCount)
          < BarTarget(ranges, data, compress, exp, barCount / 2, barCount)
  {
    var c := barCount / 2;
    var ri, rc := RangeFor(ranges, i), RangeFor(ranges, c);
    MeanConstant(data[ri.start..ri.end], 255);
    MeanConstant(data[rc.start..rc.end], 255);
    var xi, xc := Exponent(i, barCount), Exponent(c, barCount);
    assert xc == 0.0;
    assert xi < 0.0;
    assert 0.0 < exp(xi) < exp(xc);
    TargetRisesWithWeight(compress(255.0), exp(xi), exp(xc));
  }
}
