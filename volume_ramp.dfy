/** The volume arithmetic of the graph-based scheduler's fade (the closure of
    fadeInOutAudio in AudioPlayer.swift): each tick of the ramp timer moves the
    incoming node's volume one step up, capped at full volume, and the outgoing
    node's volume one step down, floored at silence. */
module VolumeRamp {

  /** Volume the start of a ramp gives the incoming node. */
  const IncomingStartVolume: real := 0.1
  /** Volume the start of a ramp gives the outgoing node. */
  const OutgoingStartVolume: real := 1.0

  function Min(a: real, b: real): (m: real) { if a <= b then a else b }
  function Max(a: real, b: real): (m: real) { if a >= b then a else b }

  /** Volume change made by one tick of the ramp timer, which fires every second:
      the ramp covers the full range in `duration` ticks. */
  function Step(duration: int): (step: real)
    requires duration > 0
    ensures 0.0 < step <= 1.0
  {
    1.0 / duration as real
  }

  /** `duration` steps make up the full range. */
  lemma StepsMakeFullRange(duration: int)
    requires duration > 0
    ensures Step(duration) * duration as real == 1.0
  {
  }

  /** The incoming node's volume after one tick: one step up, capped at full volume. */
  function FadeUp(volume: real, step: real): (v: real)
    requires 0.0 <= volume <= 1.0 && step > 0.0
    ensures volume <= v <= 1.0
    ensures v == 1.0 <==> volume + step >= 1.0
    ensures v < 1.0 ==> v == volume + step
  {
    Min(volume + step, 1.0)
  }

  /** The outgoing node's volume after one tick: one step down, floored at silence. */
  function FadeDown(volume: real, step: real): (v: real)
    requires 0.0 <= volume <= 1.0 && step > 0.0
    ensures 0.0 <= v <= volume
    ensures v == 0.0 <==> volume <= step
    ensures v > 0.0 ==> v == volume - step
  {
    Max(volume - step, 0.0)
  }

  /** The incoming volume after `ticks` ticks. */
  function VolumeUpAfter(volume: real, step: real, ticks: nat): (v: real)
    requires 0.0 <= volume <= 1.0 && step > 0.0
    ensures volume <= v <= 1.0
  {
    if ticks == 0 then volume else FadeUp(VolumeUpAfter(volume, step, ticks - 1), step)
  }

  /** The outgoing volume after `ticks` ticks. */
  function VolumeDownAfter(volume: real, step: real, ticks: nat): (v: real)
    requires 0.0 <= volume <= 1.0 && step > 0.0
    ensures 0.0 <= v <= volume
  {
    if ticks == 0 then volume else FadeDown(VolumeDownAfter(volume, step, ticks - 1), step)
  }

  /** `ticks` steps added up, without clamping. */
  function Travel(step: real, ticks: nat): (t: real)
    requires step > 0.0
    ensures t >= 0.0
  {
    if ticks == 0 then 0.0 else Travel(step, ticks - 1) + step
  }

  /** The steps of a `duration`-second ramp add up to ticks / duration. */
  lemma {:induction false} TravelOfStep(duration: int, ticks: nat)
    requires duration > 0
    ensures Travel(Step(duration), ticks) * duration as real == ticks as real
  {
    if ticks > 0 {
      TravelOfStep(duration, ticks - 1);
      StepsMakeFullRange(duration);
      var t, s, d := Travel(Step(duration), ticks - 1), Step(duration), duration as real;
      assert (t + s) * d == t * d + s * d;
    }
  }

  /** The capped ramp is the straight line from `volume`, cut at full volume. */
  lemma {:induction false} VolumeUpAfterIsLinear(volume: real, step: real, ticks: nat)
    requires 0.0 <= volume <= 1.0 && step > 0.0
    ensures VolumeUpAfter(volume, step, ticks) == Min(volume + Travel(step, ticks), 1.0)
  {
    if ticks > 0 {
      VolumeUpAfterIsLinear(volume, step, ticks - 1);
    }
  }

  /** The floored ramp is the straight line down from `volume`, cut at silence. */
  lemma {:induction false} VolumeDownAfterIsLinear(volume: real, step: real, ticks: nat)
    requires 0.0 <= volume <= 1.0 && step > 0.0
    ensures VolumeDownAfter(volume, step, ticks) == Max(volume - Travel(step, ticks), 0.0)
  {
    if ticks > 0 {
      VolumeDownAfterIsLinear(volume, step, ticks - 1);
    }
  }

  /** Number of ticks a ramp takes from the incoming start volume 0.1 to full
      volume: the least `k` with 0.1 + k / duration >= 1, that is ceil(0.9 * duration). */
  function RampTicks(duration: int): (k: nat)
    requires duration > 0
    ensures 0 < k <= duration
    ensures 10 * k >= 9 * duration && 10 * (k - 1) < 9 * duration
  {
    (9 * duration + 9) / 10
  }

  /** Scaling by a positive `d` keeps comparisons with a constant, for a `t`
      whose scaled value `n` is known. */
  lemma ScaledThreshold(t: real, d: real, n: real, c: real)
    requires d > 0.0 && t * d == n
    ensures t < c <==> n < c * d
    ensures t == c <==> n == c * d
    ensures (c - t) * d == c * d - n
  {
    assert (c - t) * d == c * d - n;
    if t < c {
      assert (c - t) * d > 0.0;
    } else if t > c {
      assert (t - c) * d > 0.0;
    }
  }

  lemma TenthsAsIntegers(ticks: nat, duration: int)
    ensures ticks as real >= 0.9 * duration as real <==> 10 * ticks >= 9 * duration
  {
  }

  /** After `ticks` steps of a `duration`-second ramp, 0.9 has been covered exactly
      when 10 * ticks >= 9 * duration. */
  lemma TravelReachesNineTenths(duration: int, ticks: nat)
    requires duration > 0
    ensures Travel(Step(duration), ticks) >= 0.9 <==> 10 * ticks >= 9 * duration
  {
    var t, d := Travel(Step(duration), ticks), duration as real;
    TravelOfStep(duration, ticks);
    ScaledThreshold(t, d, ticks as real, 0.9);
    TenthsAsIntegers(ticks, duration);
  }

  /** Whether the incoming volume is full after `ticks` ticks of a `duration`-second
      ramp started at 0.1: exactly when 10 * ticks >= 9 * duration. */
  lemma IncomingFullAfter(duration: int, ticks: nat)
    requires duration > 0
    ensures VolumeUpAfter(IncomingStartVolume, Step(duration), ticks) == 1.0 <==> 10 * ticks >= 9 * duration
  {
    VolumeUpAfterIsLinear(IncomingStartVolume, Step(duration), ticks);
    TravelReachesNineTenths(duration, ticks);
  }

  /** A ramp that starts at 0.1 reaches full volume after exactly RampTicks(duration)
      ticks, which is at most `duration` ticks, and not before. */
  lemma RampReachesFullVolume(duration: int)
    requires duration > 0
    ensures VolumeUpAfter(IncomingStartVolume, Step(duration), RampTicks(duration)) == 1.0
    ensures forall j: nat :: j < RampTicks(duration) ==>
              VolumeUpAfter(IncomingStartVolume, Step(duration), j) < 1.0
  {
    IncomingFullAfter(duration, RampTicks(duration));
    forall j: nat | j < RampTicks(duration)
      ensures VolumeUpAfter(IncomingStartVolume, Step(duration), j) < 1.0
    {
      IncomingFullAfter(duration, j);
    }
  }

  /** When the ramp completes, the outgoing node has volume (duration - k) / duration
      for k = RampTicks(duration): it is silent exactly when duration < 10; for a
      longer crossfade it is stopped while still audible (0.1 at duration 10 or 20). */
  lemma OutgoingVolumeAtCompletion(duration: int)
    requires duration > 0
    ensures VolumeDownAfter(OutgoingStartVolume, Step(duration), RampTicks(duration)) * duration as real
            == (duration - RampTicks(duration)) as real
    ensures VolumeDownAfter(OutgoingStartVolume, Step(duration), RampTicks(duration)) == 0.0
            <==> duration < 10
  {
    var k, d := RampTicks(duration), duration as real;
    OutgoingVolumeScaled(duration);
    ScaledThreshold(VolumeDownAfter(OutgoingStartVolume, Step(duration), k), d, (duration - k) as real, 0.0);
    RampTicksIsDuration(duration);
  }

  /** The outgoing volume when the ramp completes, scaled by the duration. */
  lemma OutgoingVolumeScaled(duration: int)
    requires duration > 0
    ensures VolumeDownAfter(OutgoingStartVolume, Step(duration), RampTicks(duration)) * duration as real
            == (duration - RampTicks(duration)) as real
  {
    var k := RampTicks(duration);
    VolumeDownAfterIsLinear(OutgoingStartVolume, Step(duration), k);
    TravelWithinRange(duration, k);
    var v, t := VolumeDownAfter(OutgoingStartVolume, Step(duration), k), Travel(Step(duration), k);
    assert v == 1.0 - t;
    assert v * duration as real == (1.0 - t) * duration as real;
  }

  /** Within `duration` ticks the steps add up to at most 1, and what is left of the
      full range, scaled by the duration, is the number of ticks left. */
  lemma TravelWithinRange(duration: int, ticks: nat)
    requires 0 < duration && ticks <= duration
    ensures Travel(Step(duration), ticks) <= 1.0
    ensures (1.0 - Travel(Step(duration), ticks)) * duration as real == (duration - ticks) as real
  {
    TravelOfStep(duration, ticks);
    ScaledThreshold(Travel(Step(duration), ticks), duration as real, ticks as real, 1.0);
  }

  /** The ramp takes the whole `duration` ticks exactly for durations below 10. */
  lemma RampTicksIsDuration(duration: int)
    requires duration > 0
    ensures RampTicks(duration) == duration <==> duration < 10
  {
  }
}
