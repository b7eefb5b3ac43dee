/** The ultrasonic range finder: a measured echo pulse width becomes a
    distance in centimetres. Triggering the sensor and timing the echo are
    hardware; the pulse width arrives here as an integer number of
    microseconds, negative when the echo timed out. */
module Sensor {
  import opened Wrappers

  /** Speed of sound used by the conversion, in centimetres per microsecond (0.0343). */
  const SoundSpeed: real := 343.0 / 10000.0

  /** `get_distance`: no reading on a timed-out echo, otherwise half the round
      trip at the speed of sound. */
  function Distance(pulseTime: int): (r: Option<real>)
    ensures r.None? <==> pulseTime < 0
    ensures r.Some? ==> 0.0 <= r.value
    ensures r.Some? ==> 2.0 * r.value == pulseTime as real * SoundSpeed
  {
    if pulseTime < 0 then None
    else Some((pulseTime as real / 2.0) * SoundSpeed)
  }

  /** A longer echo never means a shorter distance. */
  lemma DistanceMonotone(p: int, q: int)
    requires 0 <= p <= q
    ensures Distance(p).value <= Distance(q).value
  {
  }

  /** The echo widths that read closer than 10 cm: 0 to 583 microseconds. */
  lemma UnderTenCentimetres(pulseTime: int)
    ensures (Distance(pulseTime).Some? && Distance(pulseTime).value < 10.0) <==> 0 <= pulseTime <= 583
  {
  }

  /** The echo widths that read farther than 30 cm: 1750 microseconds and more. */
  lemma OverThirtyCentimetres(pulseTime: int)
    ensures (Distance(pulseTime).Some? && Distance(pulseTime).value > 30.0) <==> 1750 <= pulseTime
  {
  }
}
