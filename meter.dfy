/**
 * The level meter: RMS and peak of one frame of time-domain samples, their
 * dBFS readings, the meter's peak hold, and the frame clock both views use.
 */
module Meter {
  import opened Decibels

  /** How fast the meter's peak marker falls, in dB per second. */
  const VuFallDbPerSec: real := 18.0
  /** The floor `Math.max(value, 1e-12)` applies before taking the logarithm. */
  const Floor: real := 0.000000000001
  /** The meter's scale. */
  const MeterMinDb: real := -60.0
  const MeterMaxDb: real := 0.0

  /**
   * `Math.sqrt` and `Math.log10`, which the model takes as given functions
   * rather than computing.
   */
  datatype Transcendentals = Transcendentals(sqrt: real -> real, log10: real -> real)

  function Abs(x: real): (r: real)
    ensures r >= 0.0 && (r == x || r == -x)
  {
    if x < 0.0 then -x else x
  }

  /** `s * s`. */
  function Square(x: real): real {
    x * x
  }

  lemma SquareNonNegative(x: real)
    ensures Square(x) >= 0.0
  {
    if x < 0.0 {
      var y := -x;
      assert y * y > 0.0;
      assert x * x == y * y;
    } else {
      assert x * x >= 0.0;
    }
  }

  /** `sumSquares += s * s` over the samples, starting from 0: never negative. */
  function SumSquares(s: seq<real>): (r: real)
    ensures r >= 0.0
  {
    if s == [] then 0.0
    else
      SquareNonNegative(s[|s| - 1]);
      SumSquares(s[..|s| - 1]) + Square(s[|s| - 1])
  }

  /** A silent frame sums to zero. */
  lemma {:induction false} SilenceSumsToZero(s: seq<real>)
    requires forall i :: 0 <= i < |s| ==> s[i] == 0.0
    ensures SumSquares(s) == 0.0
  {
    if s != [] {
      var prefix := s[..|s| - 1];
      assert forall i :: 0 <= i < |prefix| ==> prefix[i] == s[i];
      SilenceSumsToZero(prefix);
      assert Square(s[|s| - 1]) == 0.0 * 0.0;
    }
  }

  /**
   * `if (Math.abs(s) > peakAbs) peakAbs = Math.abs(s)` over the samples,
   * starting from 0: at least every sample's magnitude, and either 0 or the
   * magnitude of some sample.
   */
  function PeakAbs(s: seq<real>): (r: real)
    ensures r >= 0.0
    ensures forall i :: 0 <= i < |s| ==> Abs(s[i]) <= r
    ensures r == 0.0 || exists i :: 0 <= i < |s| && r == Abs(s[i])
  {
    if s == [] then 0.0
    else
      var prefix := s[..|s| - 1];
      assert forall i :: 0 <= i < |prefix| ==> prefix[i] == s[i];
      var p := PeakAbs(prefix);
      var a := Abs(s[|s| - 1]);
      if a > p then a else p
  }

  lemma SumSquaresStep(s: seq<real>, i: nat)
    requires i < |s|
    ensures SumSquares(s[..i + 1]) == SumSquares(s[..i]) + Square(s[i])
  {
    assert s[..i + 1][..i] == s[..i];
  }

  lemma PeakAbsStep(s: seq<real>, i: nat)
    requires i < |s|
    ensures PeakAbs(s[..i + 1]) == if Abs(s[i]) > PeakAbs(s[..i]) then Abs(s[i]) else PeakAbs(s[..i])
  {
    assert s[..i + 1][..i] == s[..i];
  }

  /** The RMS and peak loop over one frame of samples. */
  method MeasureLevels(samples: seq<real>) returns (sumSquares: real, peakAbs: real)
    ensures sumSquares == SumSquares(samples)
    ensures peakAbs == PeakAbs(samples)
  {
    sumSquares := 0.0;
    peakAbs := 0.0;
    var i := 0;
    while i < |samples|
      invariant 0 <= i <= |samples|
      invariant sumSquares == SumSquares(samples[..i])
      invariant peakAbs == PeakAbs(samples[..i])
    {
      SumSquaresStep(samples, i);
      PeakAbsStep(samples, i);
      var s := samples[i];
      sumSquares := sumSquares + Square(s);
      if Abs(s) > peakAbs {
        peakAbs := Abs(s);
      }
      i := i + 1;
    }
    assert samples[..|samples|] == samples;
  }

  /** `Math.max(value, 1e-12)`: what the logarithm is taken of. */
  function FloorAt(value: real): (v: real)
    ensures v >= Floor
    ensures v == value || v == Floor
    ensures value >= Floor ==> v == value
  {
    if value > Floor then value else Floor
  }

  /** `linearToDbFS`: `20 * log10` of the floored value. */
  function LinearToDbFS(value: real, log10: real -> real): real {
    20.0 * log10(FloorAt(value))
  }

  /** Everything at or below the floor reads the same: silence is a finite reading, not -Infinity. */
  lemma SilenceReadsAtFloor(value: real, log10: real -> real)
    requires value <= Floor
    ensures LinearToDbFS(value, log10) == LinearToDbFS(0.0, log10) == 20.0 * log10(Floor)
  {
  }

  /** With the real base-10 logarithm (`log10(1e-12) = -12`), silence reads -240 dBFS. */
  lemma SilenceReadsMinus240(log10: real -> real)
    requires log10(Floor) == -12.0
    ensures LinearToDbFS(0.0, log10) == -240.0
  {
  }

  /** A louder signal never reads lower, given a non-decreasing logarithm. */
  lemma LinearToDbFSMonotone(a: real, b: real, log10: real -> real)
    requires a <= b
    requires forall x, y :: Floor <= x <= y ==> log10(x) <= log10(y)
    ensures LinearToDbFS(a, log10) <= LinearToDbFS(b, log10)
  {
    assert log10(FloorAt(a)) <= log10(FloorAt(b));
  }

  /** The two readouts of a frame: RMS and peak, in dBFS. */
  datatype Levels = Levels(rmsDb: real, peakDb: real)

  /** `rms = sqrt(sumSquares / length)`, then both values through `linearToDbFS`. */
  function FrameLevels(samples: seq<real>, math: Transcendentals): Levels
    requires |samples| > 0
  {
    var rms := math.sqrt(SumSquares(samples) / |samples| as real);
    Levels(LinearToDbFS(rms, math.log10), LinearToDbFS(PeakAbs(samples), math.log10))
  }

  /**
   * The meter's peak hold: `-Infinity` is first replaced by the current peak,
   * then `max(peakDb, held - 18 * deltaSec)`. The result is always finite and at
   * least the current peak; with time running forward it is the shared
   * peak-hold rule at 18 dB per second.
   */
  function VuPeakHold(peakDb: real, held: Db, deltaSec: real): (r: Db)
    ensures r.Fin? && peakDb <= r.value
    ensures deltaSec >= 0.0 ==> r == PeakHold(Fin(peakDb), held, VuFallDbPerSec, deltaSec)
  {
    var start := if held.NegInf? then Fin(peakDb) else held;
    assert deltaSec >= 0.0 ==> VuFallDbPerSec * deltaSec >= 0.0 by {
      if deltaSec >= 0.0 {
        MulNonNegative(VuFallDbPerSec, deltaSec);
      }
    }
    Max(Fin(peakDb), Fall(start, VuFallDbPerSec * deltaSec))
  }

  /**
   * `dbToX`: where a reading sits on the meter, `meterX` plus its clamped
   * position between -60 and 0 dB times the meter's width. On a meter of
   * non-negative width it stays on the meter, at the left end from -60 dB down
   * and at the right end from 0 dB up.
   */
  function MeterX(db: real, meterX: real, meterWidth: real): (x: real)
    ensures meterWidth >= 0.0 ==> meterX <= x <= meterX + meterWidth
    ensures db <= MeterMinDb ==> x == meterX
    ensures db >= MeterMaxDb ==> x == meterX + meterWidth
  {
    var t := Position(Fin(db), MeterMinDb, MeterMaxDb);
    assert meterWidth >= 0.0 ==> 0.0 <= t * meterWidth <= meterWidth by {
      if meterWidth >= 0.0 {
        ScaleUnit(t, meterWidth);
      }
    }
    meterX + t * meterWidth
  }

  /** On a meter of non-negative width a louder reading never sits further left. */
  lemma MeterXMonotone(a: real, b: real, meterX: real, meterWidth: real)
    requires a <= b && meterWidth >= 0.0
    ensures MeterX(a, meterX, meterWidth) <= MeterX(b, meterX, meterWidth)
  {
    var ta := Position(Fin(a), MeterMinDb, MeterMaxDb);
    var tb := Position(Fin(b), MeterMinDb, MeterMaxDb);
    PositionMonotone(Fin(a), Fin(b), MeterMinDb, MeterMaxDb);
    assert tb * meterWidth - ta * meterWidth == (tb - ta) * meterWidth;
    assert (tb - ta) * meterWidth >= 0.0;
  }

  /** Seconds between two `performance.now()` readings given in milliseconds. */
  function Elapsed(fromMs: real, toMs: real): (sec: real)
    ensures fromMs <= toMs <==> sec >= 0.0
  {
    (toMs - fromMs) / 1000.0
  }

  /** The time steps one frame gives the spectrum and the meter, and the new `lastFrameTime`. */
  datatype Tick = Tick(spectrumDelta: real, meterDelta: real, lastFrameTime: real)

  /**
   * The clock as written: the spectrum reads `now`, measures from `lastFrameTime`
   * and overwrites it; the meter then reads the clock again and measures from the
   * value just written, so it sees only the time the spectrum took to draw.
   */
  function TickAsWritten(lastFrameTime: real, spectrumNow: real, meterNow: real): Tick {
    Tick(Elapsed(lastFrameTime, spectrumNow), Elapsed(spectrumNow, meterNow), spectrumNow)
  }

  /** The clock as intended: one reading per frame, the same step for both views. */
  function FrameTick(lastFrameTime: real, now: real): (t: Tick)
    ensures t.spectrumDelta == t.meterDelta
    ensures t.lastFrameTime == now
    ensures lastFrameTime + 1000.0 * t.meterDelta == now
  {
    var d := Elapsed(lastFrameTime, now);
    Tick(d, d, now)
  }

  /**
   * As written, the meter's step is only the time between the spectrum's and the
   * meter's clock readings of one frame, whatever the time since the previous
   * frame: the marker falls by at most 18 dB per second of drawing time, and not
   * at all when the two readings coincide.
   */
  lemma MeterHoldAsWrittenFallsByDrawTime(lastFrameTime: real, spectrumNow: real, meterNow: real,
                                          peakDb: real, held: real)
    ensures forall other :: TickAsWritten(other, spectrumNow, meterNow).meterDelta
                         == TickAsWritten(lastFrameTime, spectrumNow, meterNow).meterDelta
    ensures TickAsWritten(lastFrameTime, spectrumNow, meterNow).meterDelta == Elapsed(spectrumNow, meterNow)
    ensures VuPeakHold(peakDb, Fin(held), TickAsWritten(lastFrameTime, spectrumNow, meterNow).meterDelta).value
         >= held - VuFallDbPerSec * Elapsed(spectrumNow, meterNow)
    ensures meterNow == spectrumNow ==>
      VuPeakHold(peakDb, Fin(held), TickAsWritten(lastFrameTime, spectrumNow, meterNow).meterDelta)
      == Fin(if peakDb < held then held else peakDb)
  {
  }

  /**
   * Frames a second apart, the meter reading the clock 2 ms after the spectrum,
   * a -10 dB hold and a -60 dB peak: the code lowers the hold to -10.036 dB,
   * the intent to -28 dB.
   */
  lemma MeterHoldExample()
    ensures VuPeakHold(-60.0, Fin(-10.0), TickAsWritten(0.0, 1000.0, 1002.0).meterDelta) == Fin(-10.036)
    ensures VuPeakHold(-60.0, Fin(-10.0), FrameTick(0.0, 1000.0).meterDelta) == Fin(-28.0)
  {
  }

  /**
   * With one reading per frame the marker falls by 18 dB for every second
   * between frames until it meets the current peak.
   */
  lemma MeterHoldFalls(lastFrameTime: real, now: real, peakDb: real, held: real)
    requires lastFrameTime <= now
    ensures var d := FrameTick(lastFrameTime, now).meterDelta;
      VuPeakHold(peakDb, Fin(held), d) == Fin(if peakDb < held - VuFallDbPerSec * d then held - VuFallDbPerSec * d else peakDb)
    ensures var d := FrameTick(lastFrameTime, now).meterDelta;
      lastFrameTime < now && peakDb < held ==> VuPeakHold(peakDb, Fin(held), d).value < held
  {
    var d := FrameTick(lastFrameTime, now).meterDelta;
    assert lastFrameTime < now ==> d > 0.0;
  }
}
