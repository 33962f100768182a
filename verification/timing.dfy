/**
 * What the level-mode loops of the SCW8916B driver look for on the OUT pin
 * (src/DFRobot_SCW8916B.cpp): the toggle confirmation of begin and
 * checkCalibrationState, and the calibration pulse of
 * ioWaterLevelCalibration. Pure definitions; the loops that decide them
 * are methods of the driver class.
 */
module LevelTiming {
  import opened Transport

  // ---------------------------------------------------------------------
  // Polling the OUT pin every 100 ms
  // ---------------------------------------------------------------------

  /** Read k is the first whose level differs from the first read's. */
  ghost predicate FirstChangeAt(s: Signal, k: nat)
  {
    1 <= k && s(k) != s(0) && forall i :: 1 <= i < k ==> s(i) == s(0)
  }

  /** Each of the n reads after read k differs from the one before it. */
  ghost predicate AlternatesAfter(s: Signal, k: nat, n: nat)
  {
    forall m :: k < m <= k + n ==> s(m) != s(m - 1)
  }

  /** The level changes within the first `window` polls and then keeps
      toggling on each of the next five reads. */
  ghost predicate ToggleConfirmed(s: Signal, window: nat)
  {
    exists k: nat :: k <= window && FirstChangeAt(s, k) && AlternatesAfter(s, k, 5)
  }

  /** A level that never changes is never confirmed, whatever the window. */
  lemma SteadyLevelNeverConfirms(s: Signal, window: nat)
    requires forall k: nat :: s(k) == s(0)
    ensures !ToggleConfirmed(s, window)
  {
  }

  /** A level that flips on every read is confirmed at the first poll. */
  lemma SquareWaveConfirms(s: Signal)
    requires forall k: nat :: s(k) == (k % 2 == 1)
    ensures ToggleConfirmed(s, 1)
  {
    assert FirstChangeAt(s, 1);
    assert AlternatesAfter(s, 1, 5);
  }

  // ---------------------------------------------------------------------
  // The calibration pulse, sampled every 5 ms for one second
  // ---------------------------------------------------------------------

  /** The trace runs past the 1000 ms the loop watches, so the loop ends
      within it (the clock's 32-bit wrap-around is not modelled). */
  ghost predicate WindowCovered(tr: seq<Sample>)
  {
    |tr| >= 1 && tr[|tr| - 1].at - tr[0].at > 1000
  }

  /** Sample k (k >= 1; sample 0 is the read before the loop) is read before
      the one-second check ends the loop. */
  ghost predicate Processed(tr: seq<Sample>, k: nat)
  {
    1 <= k < |tr| && forall m :: 1 <= m < k ==> tr[m].at - tr[0].at <= 1000
  }

  /** The last sample up to i at which the level changed; 0 if none did. */
  function LastChange(tr: seq<Sample>, i: nat): (p: nat)
    requires i < |tr|
    ensures p <= i
    ensures p > 0 ==> tr[p].high != tr[p - 1].high
  {
    if i == 0 then 0
    else if tr[i].high != tr[i - 1].high then i
    else LastChange(tr, i - 1)
  }

  /** The length of the interval that ends with the change at p (0 for the
      start of the trace). */
  function IntervalEndingAt(tr: seq<Sample>, p: nat): int
    requires p < |tr|
  {
    if p == 0 then 0 else tr[p].at - tr[LastChange(tr, p - 1)].at
  }

  /** Sample k ends a high interval longer than 500 ms, and the low interval
      before it (0 when the trace started high) lasted at least t - 10 ms. */
  ghost predicate PulseAt(tr: seq<Sample>, t: int, k: nat)
  {
    && 1 <= k < |tr|
    && tr[k - 1].high && !tr[k].high
    && IntervalEndingAt(tr, LastChange(tr, k - 1)) >= t - 10
    && tr[k].at - tr[LastChange(tr, k - 1)].at > 500
  }

  ghost predicate CalibrationPulseSeen(tr: seq<Sample>, t: int)
  {
    exists k: nat :: Processed(tr, k) && PulseAt(tr, t, k)
  }

  /** What the sampling loop of ioWaterLevelCalibration knows after sample
      j: val1 is its level, t1 the time of the last change, and while high,
      interT1 is the length of the low interval that the last change ended. */
  ghost predicate Tracking(tr: seq<Sample>, j: nat, val1: bool, t1: int, interT1: int)
  {
    && j < |tr|
    && val1 == tr[j].high
    && t1 == tr[LastChange(tr, j)].at
    && (val1 ==> interT1 == IntervalEndingAt(tr, LastChange(tr, j)))
  }

  /** One pass of the sampling loop over sample i: a steady level or a
      rising edge is no pulse; a falling edge is a pulse iff the loop's two
      tests on interT1 and interT2 pass. */
  lemma TrackStep(tr: seq<Sample>, t: int, i: nat, val1: bool, t1: int, interT1: int)
    requires 1 <= i < |tr| && Tracking(tr, i - 1, val1, t1, interT1)
    ensures val1 == tr[i].high ==> Tracking(tr, i, val1, t1, interT1) && !PulseAt(tr, t, i)
    ensures !val1 && tr[i].high ==> Tracking(tr, i, true, tr[i].at, tr[i].at - t1) && !PulseAt(tr, t, i)
    ensures val1 && !tr[i].high ==>
              && Tracking(tr, i, false, tr[i].at, interT1)
              && Tracking(tr, i, false, tr[i].at, 0)
              && (PulseAt(tr, t, i) <==> interT1 >= t - 10 && tr[i].at - t1 > 500)
  {
    if tr[i].high != val1 {
      assert LastChange(tr, i) == i;
    } else {
      assert LastChange(tr, i) == LastChange(tr, i - 1);
    }
  }

  /** The loop stops at the first sample past one second; with no pulse up
      to there, none was seen. */
  lemma NoPulseInWindow(tr: seq<Sample>, t: int, i: nat)
    requires 1 <= i < |tr| && tr[i].at - tr[0].at > 1000
    requires forall k :: 1 <= k <= i ==> !PulseAt(tr, t, k)
    ensures !CalibrationPulseSeen(tr, t)
  {
  }

  /** When the trace starts high, the first falling edge sees no low
      interval at all: it passes the t - 10 test only for t <= 10. */
  lemma FirstFallNeedsShortLowTime(tr: seq<Sample>, t: int, k: nat)
    requires 1 <= k < |tr| && tr[k - 1].high && !tr[k].high
    requires forall m :: 1 <= m < k ==> tr[m].high == tr[m - 1].high
    ensures PulseAt(tr, t, k) <==> t <= 10 && tr[k].at - tr[0].at > 500
  {
    SteadySinceStart(tr, k - 1);
  }

  /** No change up to i: the last change is the start of the trace. */
  lemma {:induction false} SteadySinceStart(tr: seq<Sample>, i: nat)
    requires i < |tr|
    requires forall m :: 1 <= m <= i ==> tr[m].high == tr[m - 1].high
    ensures LastChange(tr, i) == 0
  {
    if i > 0 {
      SteadySinceStart(tr, i - 1);
    }
  }

  /** 100 ms low, then 600 ms high: the pulse of a lower-level calibration. */
  lemma CalibrationPulseExample()
    ensures CalibrationPulseSeen([Sample(0, false), Sample(100, true), Sample(700, false), Sample(1100, false)], 100)
  {
    var tr := [Sample(0, false), Sample(100, true), Sample(700, false), Sample(1100, false)];
    assert LastChange(tr, 1) == 1 && LastChange(tr, 0) == 0;
    assert Processed(tr, 2) && PulseAt(tr, 100, 2);
  }
}
