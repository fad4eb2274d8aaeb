/**
 * The speed estimator of contexts/SpeedContext.js: the floored time delta
 * and the preference for the device-reported speed.
 */
module Estimate {
  import opened Optional

  /** Smallest time delta, in seconds, a calculated speed divides by. */
  const MinDeltaSeconds: real := 1.0

  /** Hops shorter than this many metres are GPS jitter and add no distance. */
  const NoiseFloorMeters: real := 2.0

  /** Seconds between two millisecond timestamps. */
  function DeltaSeconds(nowTs: int, lastTs: int): real
  {
    (nowTs - lastTs) as real / 1000.0
  }

  /** The delta actually divided by: the larger of one second and the real delta. */
  function SafeDelta(nowTs: int, lastTs: int): (d: real)
    ensures d >= MinDeltaSeconds && d >= DeltaSeconds(nowTs, lastTs)
    ensures d == MinDeltaSeconds || d == DeltaSeconds(nowTs, lastTs)
  {
    var deltaSec := DeltaSeconds(nowTs, lastTs);
    if deltaSec > MinDeltaSeconds then deltaSec else MinDeltaSeconds
  }

  /** `rawSpeed != null && rawSpeed >= 0`: the device reported a usable speed. */
  predicate UsableRaw(raw: Option<real>)
  {
    raw.Some? && raw.value >= 0.0
  }

  /**
   * The device-reported speed when usable, and otherwise the fallback: an
   * absent or negative raw speed never reaches the smoother.
   */
  function ChooseSpeed(raw: Option<real>, fallback: real): (r: real)
    ensures UsableRaw(raw) ==> r == raw.value
    ensures !UsableRaw(raw) ==> r == fallback
    ensures fallback >= 0.0 ==> r >= 0.0
  {
    if UsableRaw(raw) then raw.value else fallback
  }
}
