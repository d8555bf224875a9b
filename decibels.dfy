/**
 * Decibel readings that may be -Infinity, the peak-hold rule shared by the
 * spectrum bars and the level meter, and the clamped normalisation used to
 * place a reading on screen.
 */
module Decibels {

  /** A decibel value; `NegInf` is the source's `-Infinity` ("nothing held yet"). */
  datatype Db = NegInf | Fin(value: real)

  /** The order on readings, with -Infinity below every finite value. */
  predicate Le(a: Db, b: Db) {
    a.NegInf? || (b.Fin? && a.value <= b.value)
  }

  lemma LeTransitive(a: Db, b: Db, c: Db)
    requires Le(a, b) && Le(b, c)
    ensures Le(a, c)
  {
  }

  /** `Math.max` on two readings. */
  function Max(a: Db, b: Db): (r: Db)
    ensures Le(a, r) && Le(b, r)
    ensures r == a || r == b
  {
    if Le(a, b) then b else a
  }

  /** `held - amount`; -Infinity minus a finite amount stays -Infinity. */
  function Fall(held: Db, amount: real): (r: Db)
    ensures r.NegInf? <==> held.NegInf?
    ensures amount >= 0.0 ==> Le(r, held)
  {
    match held
    case NegInf => NegInf
    case Fin(h) => Fin(h - amount)
  }

  lemma FallTwice(held: Db, a: real, b: real)
    ensures Fall(Fall(held, a), b) == Fall(held, a + b)
  {
  }

  lemma MulNonNegative(x: real, y: real)
    requires x >= 0.0 && y >= 0.0
    ensures x * y >= 0.0
  {
  }

  /**
   * One peak-hold step: `max(current, held - rate * dt)`. The new held value
   * is never below the current reading, never above the larger of the current
   * and the old held value when time runs forward, and from -Infinity it is the
   * current reading exactly.
   */
  function PeakHold(current: Db, held: Db, rate: real, dt: real): (r: Db)
    ensures Le(current, r)
    ensures Le(Fall(held, rate * dt), r)
    ensures r == current || r == Fall(held, rate * dt)
    ensures rate >= 0.0 && dt >= 0.0 ==> Le(r, Max(current, held))
    ensures held.NegInf? ==> r == current
  {
    assert rate >= 0.0 && dt >= 0.0 ==> rate * dt >= 0.0 by {
      if rate >= 0.0 && dt >= 0.0 {
        MulNonNegative(rate, dt);
      }
    }
    Max(current, Fall(held, rate * dt))
  }

  lemma PeakHoldExample()
    ensures PeakHold(Fin(-60.0), Fin(-40.0), 24.0, 0.5) == Fin(-52.0)
    ensures PeakHold(Fin(-30.0), NegInf, 24.0, 0.25) == Fin(-30.0)
  {
  }

  /** The held value after a run of readings, one peak-hold step of `fall` dB each. */
  function HoldAfter(held: Db, readings: seq<Db>, fall: real): Db {
    if readings == [] then held
    else Max(readings[|readings| - 1], Fall(HoldAfter(held, readings[..|readings| - 1], fall), fall))
  }

  /** `Math.min` on two readings. */
  function Min(a: Db, b: Db): (r: Db)
    ensures Le(r, a) && Le(r, b)
    ensures r == a || r == b
  {
    if Le(a, b) then a else b
  }

  /** The largest of `held` and the readings: an upper bound that is one of them. */
  function MaxOf(held: Db, readings: seq<Db>): (r: Db)
    ensures Le(held, r)
    ensures forall i :: 0 <= i < |readings| ==> Le(readings[i], r)
    ensures r == held || exists i :: 0 <= i < |readings| && r == readings[i]
  {
    if readings == [] then held
    else
      var prefix := readings[..|readings| - 1];
      assert forall i :: 0 <= i < |prefix| ==> prefix[i] == readings[i];
      Max(MaxOf(held, prefix), readings[|readings| - 1])
  }

  /** The smallest of `held` and the readings: a lower bound that is one of them. */
  function MinOf(held: Db, readings: seq<Db>): (r: Db)
    ensures Le(r, held)
    ensures forall i :: 0 <= i < |readings| ==> Le(r, readings[i])
    ensures r == held || exists i :: 0 <= i < |readings| && r == readings[i]
  {
    if readings == [] then held
    else
      var prefix := readings[..|readings| - 1];
      assert forall i :: 0 <= i < |prefix| ==> prefix[i] == readings[i];
      Min(MinOf(held, prefix), readings[|readings| - 1])
  }

  lemma FallMonotone(a: Db, b: Db, amount: real)
    requires Le(a, b)
    ensures Le(Fall(a, amount), Fall(b, amount))
  {
  }

  /** Falling by `k + 1` steps is falling by `k` steps and then by one more. */
  lemma FallOneMore(d: Db, fall: real, k: real)
    ensures Fall(d, fall * (k + 1.0)) == Fall(Fall(d, fall * k), fall)
  {
    assert fall * (k + 1.0) == fall * k + fall;
    FallTwice(d, fall * k, fall);
  }

  /** One peak-hold step keeps whatever lay below the old held value below the new one, one fall lower. */
  lemma StepKeepsBelow(x: Db, before: Db, last: Db, fall: real)
    requires Le(x, before)
    ensures Le(Fall(x, fall), Max(last, Fall(before, fall)))
  {
    FallMonotone(x, before, fall);
  }

  /** `x` lowered by `steps` peak-hold falls of `fall` dB, one at a time. */
  function Decay(x: Db, fall: real, steps: nat): Db {
    if steps == 0 then x else Fall(Decay(x, fall, steps - 1), fall)
  }

  /** Falling `steps` times by `fall` is falling once by `fall * steps`. */
  lemma {:induction false} DecayIsFall(x: Db, fall: real, steps: nat)
    ensures Decay(x, fall, steps) == Fall(x, fall * (steps as real))
  {
    if steps > 0 {
      DecayIsFall(x, fall, steps - 1);
      FallOneMore(x, fall, (steps - 1) as real);
    }
  }

  /**
   * A reading seen `k` steps ago is held at no less than itself lowered by `k`
   * steps of fall (by `fall * k` dB, as `DecayIsFall` shows): the marker
   * "catches and slowly falls".
   */
  lemma {:induction false} HoldNotBelowDecayedReading(held: Db, readings: seq<Db>, fall: real, i: int)
    requires 0 <= i < |readings|
    ensures Le(Decay(readings[i], fall, |readings| - 1 - i), HoldAfter(held, readings, fall))
    decreases |readings|
  {
    var n := |readings|;
    if i < n - 1 {
      var prefix := readings[..n - 1];
      assert prefix[i] == readings[i];
      HoldNotBelowDecayedReading(held, prefix, fall, i);
      StepKeepsBelow(Decay(readings[i], fall, n - 2 - i), HoldAfter(held, prefix, fall), readings[n - 1], fall);
    }
  }

  /** The held value never exceeds the largest value it started from or saw. */
  lemma {:induction false} HoldAtMostMax(held: Db, readings: seq<Db>, fall: real)
    requires fall >= 0.0
    ensures Le(HoldAfter(held, readings, fall), MaxOf(held, readings))
  {
    if readings != [] {
      var prefix := readings[..|readings| - 1];
      HoldAtMostMax(held, prefix, fall);
      var before := HoldAfter(held, prefix, fall);
      LeTransitive(Fall(before, fall), before, MaxOf(held, prefix));
    }
  }

  /** With nothing held and no reading louder than the floor, the held value stays at the floor. */
  lemma {:induction false} HoldOfSilence(readings: seq<Db>, fall: real)
    requires forall i :: 0 <= i < |readings| ==> readings[i] == NegInf
    ensures HoldAfter(NegInf, readings, fall) == NegInf
  {
    if readings != [] {
      HoldOfSilence(readings[..|readings| - 1], fall);
    }
  }

  /** `Math.min(max, Math.max(min, value))`. */
  function Clamp(value: real, lo: real, hi: real): (r: real)
    ensures lo <= hi ==> lo <= r <= hi
    ensures lo <= value <= hi ==> r == value
    ensures value <= lo && lo <= hi ==> r == lo
    ensures hi <= value ==> r == hi
    ensures hi < lo ==> r == hi
  {
    var atLeast := if lo > value then lo else value;
    if hi < atLeast then hi else atLeast
  }

  lemma ClampMonotone(x: real, y: real, lo: real, hi: real)
    requires x <= y
    ensures Clamp(x, lo, hi) <= Clamp(y, lo, hi)
  {
  }

  lemma DivMonotone(a: real, b: real, c: real)
    requires a <= b && c > 0.0
    ensures a / c <= b / c
  {
    assert b / c - a / c == (b - a) / c;
  }

  lemma DivAtLeastOne(a: real, c: real)
    requires c > 0.0 && a >= c
    ensures a / c >= 1.0
  {
    var q := a / c;
    assert q * c == a;
  }

  lemma DivWithinUnit(a: real, c: real)
    requires c > 0.0 && 0.0 <= a <= c
    ensures 0.0 <= a / c <= 1.0
  {
    DivMonotone(0.0, a, c);
    DivMonotone(a, c, c);
    assert c / c == 1.0;
  }

  /**
   * Where a reading sits between `lo` and `hi`, clamped to [0, 1]: the bar
   * height and peak-marker position of the spectrum and the meter marker.
   * -Infinity sits at 0 (`Math.max(0, -Infinity)`).
   */
  function Position(db: Db, lo: real, hi: real): (r: real)
    requires lo < hi
    ensures 0.0 <= r <= 1.0
    ensures Le(db, Fin(lo)) ==> r == 0.0
    ensures Le(Fin(hi), db) ==> r == 1.0
    ensures db.Fin? && lo <= db.value <= hi ==> r == (db.value - lo) / (hi - lo)
  {
    match db
    case NegInf => 0.0
    case Fin(v) =>
      var t := (v - lo) / (hi - lo);
      assert v <= lo ==> t <= 0.0 by {
        if v <= lo {
          DivMonotone(v - lo, 0.0, hi - lo);
        }
      }
      assert v >= hi ==> t >= 1.0 by {
        if v >= hi {
          DivAtLeastOne(v - lo, hi - lo);
        }
      }
      assert lo <= v <= hi ==> 0.0 <= t <= 1.0 by {
        if lo <= v <= hi {
          DivWithinUnit(v - lo, hi - lo);
        }
      }
      Clamp(t, 0.0, 1.0)
  }

  /** A fraction of [0, 1] of a non-negative length lies within that length. */
  lemma ScaleUnit(p: real, w: real)
    requires 0.0 <= p <= 1.0 && w >= 0.0
    ensures 0.0 <= p * w <= w
  {
    assert w - p * w == (1.0 - p) * w;
  }

  /** A louder reading never sits lower. */
  lemma PositionMonotone(a: Db, b: Db, lo: real, hi: real)
    requires lo < hi && Le(a, b)
    ensures Position(a, lo, hi) <= Position(b, lo, hi)
  {
    if a.Fin? {
      DivMonotone(a.value - lo, b.value - lo, hi - lo);
      ClampMonotone((a.value - lo) / (hi - lo), (b.value - lo) / (hi - lo), 0.0, 1.0);
    }
  }
}
