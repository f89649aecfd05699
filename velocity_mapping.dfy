/** The mapping from the peak magnitude to the note velocity that the
    trigger passes to the instrument. Double arithmetic is modelled with
    exact reals. */
module VelocityMapping {

  datatype Option<T> = None | Some(value: T)

  /** Offset subtracted from the peak before scaling. */
  const OFFSET: real := 0.8

  /** Scale applied after the offset. */
  const SCALE: real := 64.0

  /** Largest velocity the clamp lets through. */
  const MAX_VELOCITY: real := 126.0

  /** The unclamped velocity computed from the peak. */
  function Raw(peak: real): (r: real)
    ensures r < 0.0 <==> peak < OFFSET
    ensures r == 0.0 <==> peak == OFFSET
    ensures r < 1.0 <==> peak < OFFSET + 1.0 / SCALE
  {
    (peak - OFFSET) * SCALE
  }

  /** The two clamping steps in the order the source applies them: anything
      below zero becomes 1, then anything above MAX_VELOCITY becomes it. */
  function Clamp(v: real): (c: real)
    ensures 0.0 <= c <= MAX_VELOCITY
  {
    var low := if v < 0.0 then 1.0 else v;
    if low > MAX_VELOCITY then MAX_VELOCITY else low
  }

  /** Rounding toward zero, the rounding a conversion from Double to an
      integer type performs. */
  function TowardZero(v: real): (r: int)
    ensures 0.0 <= v ==> 0 <= r && r as real <= v < r as real + 1.0
    ensures v <= 0.0 ==> r <= 0 && r as real - 1.0 < v <= r as real
  {
    if v >= 0.0 then v.Floor else -((-v).Floor)
  }

  /** The conversion `UInt8(v)`: rounds toward zero, and fails (the
      program traps) when the rounded value does not fit in 0..255. */
  function ToUInt8(v: real): (r: Option<int>)
    ensures r.Some? <==> -1.0 < v < 256.0
    ensures r.Some? ==> 0 <= r.value <= 255 && r.value == TowardZero(v)
  {
    if -1.0 < v < 256.0 then Some(TowardZero(v)) else None
  }

  /** The velocity sent to the instrument for a given peak: offset, scale,
      clamp, then convert to UInt8. */
  function Velocity(peak: real): (vel: int)
    ensures 0 <= vel <= 126
  {
    ToUInt8(Clamp(Raw(peak))).value
  }

  /** Every clamped value fits UInt8, so the conversion never traps. */
  lemma ClampedFitsUInt8(v: real)
    ensures ToUInt8(Clamp(v)).Some?
  {
  }

  /** The three regions of the clamp, seen on the final velocity: below zero
      it is 1, above MAX_VELOCITY it is 126, and in between it is the raw
      value rounded toward zero. */
  lemma VelocityCases(peak: real)
    ensures Raw(peak) < 0.0 ==> Velocity(peak) == 1
    ensures Raw(peak) > MAX_VELOCITY ==> Velocity(peak) == 126
    ensures 0.0 <= Raw(peak) <= MAX_VELOCITY ==> Velocity(peak) == Raw(peak).Floor
  {
  }

  /** The velocity is 0 exactly when the raw value lies in [0, 1), that is
      for peaks in [0.8, 0.8 + 1/64): the clamp does not guarantee 1. */
  lemma VelocityZeroIff(peak: real)
    ensures Velocity(peak) == 0 <==> OFFSET <= peak < OFFSET + 1.0 / SCALE
  {
    VelocityCases(peak);
    assert 0.0 <= Raw(peak) < 1.0 <==> OFFSET <= peak < OFFSET + 1.0 / SCALE;
  }

  /** Within the unclamped region the velocity does not decrease as the
      peak grows. */
  lemma VelocityMonotoneUnclamped(p1: real, p2: real)
    requires 0.0 <= Raw(p1) && Raw(p2) <= MAX_VELOCITY
    requires p1 <= p2
    ensures Velocity(p1) <= Velocity(p2)
  {
    VelocityCases(p1);
    VelocityCases(p2);
    assert Raw(p1) <= Raw(p2);
  }

  /** From the offset upward the velocity is monotone everywhere, the clamp
      at 126 included. */
  lemma VelocityMonotoneFromOffset(p1: real, p2: real)
    requires OFFSET <= p1 <= p2
    ensures Velocity(p1) <= Velocity(p2)
  {
    VelocityCases(p1);
    VelocityCases(p2);
    if Raw(p2) <= MAX_VELOCITY {
      VelocityMonotoneUnclamped(p1, p2);
    }
  }

  /** Below the offset the clamp gives 1, at the offset the result is 0:
      the velocity is not monotone in the peak across that boundary. */
  lemma VelocityNotMonotoneAtOffset()
    ensures Velocity(0.79) == 1 && Velocity(OFFSET) == 0
  {
    VelocityCases(0.79);
    VelocityCases(OFFSET);
  }

  /** Velocities for some example peaks, computed with exact arithmetic:
      1.2 (the empty-window default) gives 25.6, truncated to 25; 1.5 gives
      44.8, truncated to 44; 2.8 and 10.0 hit the upper clamp. */
  lemma ScenarioVelocities()
    ensures Velocity(1.2) == 25
    ensures Velocity(1.5) == 44
    ensures Velocity(2.8) == 126
    ensures Velocity(10.0) == 126
  {
    VelocityCases(1.2);
    VelocityCases(1.5);
    VelocityCases(2.8);
    VelocityCases(10.0);
  }
}
