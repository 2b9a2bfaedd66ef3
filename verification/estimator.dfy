/**
 * The decibel reading of one frame: the energy sum, a floating-point chain
 * (square root of the mean, division by 255, power 1.5, doubling, 20 log10
 * against a 1e-5 reference, a -20 offset and rounding), and a floor of 10.
 *
 * The floating-point chain is not reproduced. It is a parameter `cal` that
 * maps four times the energy sum and the bin count to the rounded,
 * offset value; only its floor clamp is modelled exactly.
 */
module Estimator {
  import Energy

  /** Floor of every reported reading. */
  const MinDb: int := 10

  /** Fixed offset added to the decibel scale before rounding. */
  const CalibrationOffset: int := -20

  /**
   * The rounded value `round(db + offset)` of a frame, as a function of four
   * times its energy and its bin count.
   */
  type Calibration = (nat, nat) -> int

  /**
   * The chain's behaviour on silence: zero energy gives pressure 0, which
   * the `max` with the reference level lifts to the reference, so the
   * logarithm is log10(1) = 0 and only the offset remains.
   */
  ghost predicate ReferenceClamped(cal: Calibration)
  {
    forall n: nat :: 0 < n ==> cal(0, n) == CalibrationOffset
  }

  /** The reading of one frame. */
  function Estimate(frame: seq<Energy.Byte>, cal: Calibration): (db: int)
    requires |frame| > 0
    ensures db >= MinDb
    ensures db == cal(Energy.QuadEnergy(frame), |frame|) <==> cal(Energy.QuadEnergy(frame), |frame|) >= MinDb
    ensures db == MinDb <==> cal(Energy.QuadEnergy(frame), |frame|) <= MinDb
  {
    var rounded := cal(Energy.QuadEnergy(frame), |frame|);
    if rounded < MinDb then MinDb else rounded
  }

  /** A silent frame reads exactly the floor value 10. */
  lemma SilentFrameReadsFloor(frame: seq<Energy.Byte>, cal: Calibration)
    requires |frame| > 0
    requires forall i :: 0 <= i < |frame| ==> frame[i] == 0
    requires ReferenceClamped(cal)
    ensures Estimate(frame, cal) == MinDb
  {
    Energy.SilentIffAllZero(frame);
    assert cal(0, |frame|) == CalibrationOffset;
  }

  /**
   * A reading above the floor can only come from a frame with some non-zero
   * bin: the converse view of the silent-frame case.
   */
  lemma AboveFloorMeansSound(frame: seq<Energy.Byte>, cal: Calibration)
    requires |frame| > 0
    requires ReferenceClamped(cal)
    requires Estimate(frame, cal) > MinDb
    ensures exists i :: 0 <= i < |frame| && frame[i] != 0
  {
    if forall i :: 0 <= i < |frame| ==> frame[i] == 0 {
      SilentFrameReadsFloor(frame, cal);
    }
  }
}
