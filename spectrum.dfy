/**
 * The spectrum view: the analyser settings, the averaging of frequency bins
 * into bars, the per-bar peak hold and where a bar and its peak line are drawn.
 */
module Spectrum {
  import opened Decibels

  const FftSize: nat := 4096
  /** The analyser's `frequencyBinCount`: half the FFT size. */
  const FrequencyBinCount: nat := FftSize / 2
  const MinDecibels: real := -90.0
  const MaxDecibels: real := -10.0
  const BarCount: nat := 96
  const PeakHoldFallDbPerSec: real := 24.0

  /**
   * The bins one bar covers: `idx0` and the upper index `Math.ceil(f1 / nyquist * N)`
   * before it is clamped. Both come from `Math.pow`/`Math.log10` of the sample rate.
   */
  datatype BinRange = BinRange(first: int, rawLast: int)

  /** Every range starts at a bin index, as `Math.floor` of a positive frequency does. */
  predicate WellFormed(ranges: seq<BinRange>) {
    forall i :: 0 <= i < |ranges| ==> ranges[i].first >= 0
  }

  /** `Math.min(freqBinCount - 1, rawLast)`: the upper index never passes the last bin. */
  function LastBin(binCount: nat, rawLast: int): (last: int)
    ensures last <= binCount - 1 && last <= rawLast
    ensures last == binCount - 1 || last == rawLast
  {
    if binCount - 1 < rawLast then binCount - 1 else rawLast
  }

  /** `a + b` on readings: -Infinity absorbs every finite value. */
  function Add(a: Db, b: Db): (r: Db)
    ensures r.NegInf? <==> a.NegInf? || b.NegInf?
    ensures r.Fin? ==> r.value == a.value + b.value
  {
    if a.NegInf? || b.NegInf? then NegInf else Fin(a.value + b.value)
  }

  /** `sum += freqData[k]` over the readings, starting from 0. */
  function Sum(s: seq<Db>): (r: Db)
    ensures r.NegInf? <==> exists i :: 0 <= i < |s| && s[i].NegInf?
  {
    if s == [] then Fin(0.0)
    else
      var prefix := s[..|s| - 1];
      assert forall i :: 0 <= i < |prefix| ==> prefix[i] == s[i];
      Add(Sum(prefix), s[|s| - 1])
  }

  /** `sum / count` with `count` readings. */
  function Divide(sum: Db, count: nat): Db
    requires count > 0
  {
    match sum
    case NegInf => NegInf
    case Fin(v) => Fin(v / count as real)
  }

  /** The mean of a non-empty run of bins. */
  function Mean(s: seq<Db>): Db
    requires |s| > 0
  {
    Divide(Sum(s), |s|)
  }

  lemma {:induction false} SumBounds(s: seq<Db>, lo: real, hi: real)
    requires forall i :: 0 <= i < |s| ==> s[i].Fin? && lo <= s[i].value <= hi
    ensures Sum(s).Fin?
    ensures |s| as real * lo <= Sum(s).value <= |s| as real * hi
  {
    if s != [] {
      var prefix := s[..|s| - 1];
      assert forall i :: 0 <= i < |prefix| ==> prefix[i] == s[i];
      SumBounds(prefix, lo, hi);
      assert (|s| as real) * lo == (|prefix| as real) * lo + lo;
      assert (|s| as real) * hi == (|prefix| as real) * hi + hi;
    }
  }

  /** Dividing a sum of `count` readings in [lo, hi] by `count` lands in [lo, hi]. */
  lemma DivideWithin(sum: Db, count: nat, lo: real, hi: real)
    requires count > 0 && sum.Fin?
    requires count as real * lo <= sum.value <= count as real * hi
    ensures Divide(sum, count).Fin? && lo <= Divide(sum, count).value <= hi
  {
    var n := count as real;
    var q := sum.value / n;
    assert q * n == sum.value;
  }

  /** The mean of finite readings between `lo` and `hi` is finite and between them. */
  lemma MeanOfFinite(s: seq<Db>, lo: real, hi: real)
    requires |s| > 0
    requires forall i :: 0 <= i < |s| ==> s[i].Fin? && lo <= s[i].value <= hi
    ensures Mean(s).Fin? && lo <= Mean(s).value <= hi
  {
    var sum := Sum(s);
    SumBounds(s, lo, hi);
    DivideWithin(sum, |s|, lo, hi);
    assert Mean(s) == Divide(sum, |s|);
  }

  /**
   * The mean of a run of bins lies between the quietest and the loudest of them;
   * a bin at -Infinity makes the mean -Infinity.
   */
  lemma MeanBetweenMinAndMax(s: seq<Db>)
    requires |s| > 0
    ensures Le(MinOf(s[0], s), Mean(s)) && Le(Mean(s), MaxOf(s[0], s))
    ensures Mean(s).NegInf? <==> exists i :: 0 <= i < |s| && s[i].NegInf?
  {
    var lo := MinOf(s[0], s);
    var hi := MaxOf(s[0], s);
    if lo.Fin? {
      forall i | 0 <= i < |s|
        ensures s[i].Fin? && lo.value <= s[i].value <= hi.value
      {
        assert Le(lo, s[i]) && Le(s[i], hi);
      }
      MeanOfFinite(s, lo.value, hi.value);
    } else {
      var i :| 0 <= i < |s| && s[i].NegInf?;
      assert Sum(s).NegInf?;
    }
  }

  /**
   * The level of one bar: the mean of bins `first..LastBin` when that range is
   * non-empty, `minDecibels` otherwise.
   */
  function BarLevel(freq: seq<Db>, r: BinRange): Db
    requires r.first >= 0
  {
    var last := LastBin(|freq|, r.rawLast);
    if r.first <= last then Mean(freq[r.first..last + 1]) else Fin(MinDecibels)
  }

  /** A bar's level is bounded by its quietest and loudest bin, or is `minDecibels` for an empty range. */
  lemma BarLevelBounds(freq: seq<Db>, r: BinRange)
    requires r.first >= 0
    ensures var last := LastBin(|freq|, r.rawLast);
      if r.first <= last then
        var bins := freq[r.first..last + 1];
        Le(MinOf(bins[0], bins), BarLevel(freq, r)) && Le(BarLevel(freq, r), MaxOf(bins[0], bins))
      else BarLevel(freq, r) == Fin(MinDecibels)
  {
    var last := LastBin(|freq|, r.rawLast);
    if r.first <= last {
      MeanBetweenMinAndMax(freq[r.first..last + 1]);
    }
  }

  /** A bar over one bin shows that bin's reading. */
  lemma SingleBinBar(freq: seq<Db>, k: nat)
    requires k < |freq|
    ensures BarLevel(freq, BinRange(k, k)) == freq[k]
  {
    var bins := freq[k..k + 1];
    assert bins[..0] == [];
    assert Sum(bins) == Add(Fin(0.0), freq[k]);
  }

  /** The averaging loop of one bar. */
  method AverageBins(freq: seq<Db>, r: BinRange) returns (db: Db)
    requires r.first >= 0
    ensures db == BarLevel(freq, r)
  {
    var last := LastBin(|freq|, r.rawLast);
    var sum := Fin(0.0);
    var count := 0;
    var k := r.first;
    while k <= last
      invariant r.first <= k <= if r.first <= last then last + 1 else r.first
      invariant count == k - r.first
      invariant r.first <= last ==> sum == Sum(freq[r.first..k])
    {
      assert freq[r.first..k + 1][..k - r.first] == freq[r.first..k];
      sum := Add(sum, freq[k]);
      count := count + 1;
      k := k + 1;
    }
    db := if count > 0 then Divide(sum, count) else Fin(MinDecibels);
    if r.first <= last {
      assert k == last + 1;
      assert count == |freq[r.first..last + 1]|;
      assert db == Mean(freq[r.first..last + 1]);
    }
  }

  /** The level of every bar. */
  function BarLevels(freq: seq<Db>, ranges: seq<BinRange>): (levels: seq<Db>)
    requires WellFormed(ranges)
    ensures |levels| == |ranges|
  {
    seq(|ranges|, i requires 0 <= i < |ranges| => BarLevel(freq, ranges[i]))
  }

  /** Every bar's held peak after one frame of `deltaSec` seconds. */
  function HoldAll(levels: seq<Db>, peaks: seq<Db>, deltaSec: real): (held: seq<Db>)
    requires |levels| == |peaks|
    ensures |held| == |peaks|
  {
    seq(|peaks|, i requires 0 <= i < |peaks| => PeakHold(levels[i], peaks[i], PeakHoldFallDbPerSec, deltaSec))
  }

  /** After a frame every held peak is at or above its bar, and from -Infinity it is the bar itself. */
  lemma HoldAllAboveBars(levels: seq<Db>, peaks: seq<Db>, deltaSec: real)
    requires |levels| == |peaks|
    ensures forall i :: 0 <= i < |peaks| ==> Le(levels[i], HoldAll(levels, peaks, deltaSec)[i])
    ensures forall i :: 0 <= i < |peaks| && peaks[i].NegInf? ==> HoldAll(levels, peaks, deltaSec)[i] == levels[i]
    ensures deltaSec >= 0.0 ==> forall i :: 0 <= i < |peaks| ==>
      Le(HoldAll(levels, peaks, deltaSec)[i], Max(levels[i], peaks[i]))
  {
  }

  /**
   * The bar loop of one frame: every bar's level, and every held peak
   * lowered by 24 dB per second and raised to its bar.
   */
  method UpdateBars(freq: seq<Db>, ranges: seq<BinRange>, peaks: array<Db>, deltaSec: real)
      returns (levels: seq<Db>)
    requires WellFormed(ranges) && |ranges| == peaks.Length
    modifies peaks
    ensures levels == BarLevels(freq, ranges)
    ensures peaks[..] == HoldAll(levels, old(peaks[..]), deltaSec)
  {
    levels := [];
    var i := 0;
    while i < |ranges|
      invariant 0 <= i <= |ranges| && |levels| == i
      invariant forall j :: 0 <= j < i ==> levels[j] == BarLevel(freq, ranges[j])
      invariant forall j :: 0 <= j < i ==>
        peaks[j] == PeakHold(levels[j], old(peaks[j]), PeakHoldFallDbPerSec, deltaSec)
      invariant forall j :: i <= j < peaks.Length ==> peaks[j] == old(peaks[j])
    {
      var db := AverageBins(freq, ranges[i]);
      var fallen := Fall(peaks[i], PeakHoldFallDbPerSec * deltaSec);
      peaks[i] := Max(db, fallen);
      levels := levels + [db];
      i := i + 1;
    }
  }

  /** `clamp(magnitude, 0, 1) * height`: how tall a bar is drawn. */
  function BarHeight(db: Db, height: real): real {
    Position(db, MinDecibels, MaxDecibels) * height
  }

  /** `height * (1 - clamp(peakMagnitude, 0, 1))`: where a bar's peak line is drawn. */
  function PeakLineY(peak: Db, height: real): real {
    height * (1.0 - Position(peak, MinDecibels, MaxDecibels))
  }

  lemma MulMonotone(a: real, b: real, h: real)
    requires a <= b && h >= 0.0
    ensures a * h <= b * h
  {
    assert b * h - a * h == (b - a) * h;
  }

  /** Drawing two fractions of [0, 1] on a canvas `h` high: the second measured from the top. */
  lemma BarGeometry(p: real, q: real, h: real)
    requires 0.0 <= p <= 1.0 && 0.0 <= q <= 1.0 && h >= 0.0
    ensures 0.0 <= p * h <= h
    ensures 0.0 <= h * (1.0 - q) <= h
    ensures p <= q ==> h * (1.0 - q) <= h - p * h
  {
    MulMonotone(0.0, p, h);
    MulMonotone(p, 1.0, h);
    MulMonotone(0.0, q, h);
    MulMonotone(q, 1.0, h);
    assert h * (1.0 - q) == h - q * h;
    if p <= q {
      MulMonotone(p, q, h);
    }
  }

  /**
   * Both stay on the canvas, and a peak line held at or above its bar's level is
   * drawn no lower than the top of the bar.
   */
  lemma PeakLineNotBelowBar(db: Db, peak: Db, height: real)
    requires height >= 0.0
    ensures 0.0 <= BarHeight(db, height) <= height
    ensures 0.0 <= PeakLineY(peak, height) <= height
    ensures Le(db, peak) ==> PeakLineY(peak, height) <= height - BarHeight(db, height)
  {
    var pd := Position(db, MinDecibels, MaxDecibels);
    var pp := Position(peak, MinDecibels, MaxDecibels);
    assert BarHeight(db, height) == pd * height;
    assert PeakLineY(peak, height) == height * (1.0 - pp);
    assert 0.0 <= pd * height <= height && 0.0 <= height * (1.0 - pp) <= height by {
      BarGeometry(pd, pp, height);
    }
    assert Le(db, peak) ==> height * (1.0 - pp) <= height - pd * height by {
      if Le(db, peak) {
        PositionMonotone(db, peak, MinDecibels, MaxDecibels);
        BarGeometry(pd, pp, height);
      }
    }
  }
}
