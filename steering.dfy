/**
 * The steering phase ramp of `compute`: delta = sin(θr) − sin(θi) with the
 * angles converted to radians, and phase[n] = −2π·delta·n for n in 0..N−1.
 * Sine and π are parameters: the model works over the reals and assumes
 * nothing about them unless a lemma says so.
 */
module Steering {

  /** numpy's `radians`: degrees times π/180. */
  function Radians(degrees: real, pi: real): (radians: real)
    ensures degrees == 180.0 ==> radians == pi
    ensures degrees == 90.0 ==> radians == pi / 2.0
    ensures degrees == 0.0 ==> radians == 0.0
  {
    degrees * pi / 180.0
  }

  /** The directional sine difference that sets the phase gradient. */
  function Delta(incident: real, reflection: real, sin: real -> real, pi: real): (delta: real)
    ensures incident == reflection ==> delta == 0.0
  {
    sin(Radians(reflection, pi)) - sin(Radians(incident, pi))
  }

  /** Swapping the two angles negates delta and mirrors every phase of the ramp. */
  lemma SwappedAnglesMirror(count: nat, incident: real, reflection: real, sin: real -> real, pi: real)
    ensures Delta(reflection, incident, sin, pi) == -Delta(incident, reflection, sin, pi)
    ensures forall n :: 0 <= n < count ==>
      Ramp(count, Delta(reflection, incident, sin, pi), pi)[n] == -Ramp(count, Delta(incident, reflection, sin, pi), pi)[n]
  {
    var d := Delta(incident, reflection, sin, pi);
    assert Delta(reflection, incident, sin, pi) == -d;
    forall n | 0 <= n < count
      ensures Ramp(count, -d, pi)[n] == -Ramp(count, d, pi)[n]
    {
      assert -2.0 * pi * (-d) * (n as real) == -(-2.0 * pi * d * (n as real));
    }
  }

  /** `-2 * pi * delta * arange(count)`: one unwrapped phase per element. */
  function Ramp(count: nat, delta: real, pi: real): (phases: seq<real>)
    ensures |phases| == count
  {
    seq(count, n requires 0 <= n => -2.0 * pi * delta * (n as real))
  }

  /** Element 0 never needs a phase shift. */
  lemma RampStartsAtZero(count: nat, delta: real, pi: real)
    requires count >= 1
    ensures Ramp(count, delta, pi)[0] == 0.0
  {
  }

  /** The ramp is exactly linear in the element index: phase[n] == n * phase[1]. */
  lemma RampLinear(count: nat, delta: real, pi: real)
    requires count >= 2
    ensures var phases := Ramp(count, delta, pi);
      forall n :: 0 <= n < count ==> phases[n] == (n as real) * phases[1]
  {
  }

  /** Neighbouring elements differ by the same step, phase[1]. */
  lemma RampUniformStep(count: nat, delta: real, pi: real)
    requires count >= 2
    ensures var phases := Ramp(count, delta, pi);
      forall n :: 0 <= n < count - 1 ==> phases[n + 1] - phases[n] == phases[1]
  {
  }

  /** With π ≠ 0, the ramp is flat exactly when there is at most one element or delta is 0. */
  lemma RampFlatIff(count: nat, delta: real, pi: real)
    requires pi != 0.0
    ensures (forall n :: 0 <= n < count ==> Ramp(count, delta, pi)[n] == 0.0)
            <==> count <= 1 || delta == 0.0
  {
    var phases := Ramp(count, delta, pi);
    if count >= 2 && delta != 0.0 {
      assert phases[1] == -2.0 * pi * delta;
      assert pi * delta != 0.0 by {
        if (pi > 0.0 && delta > 0.0) || (pi < 0.0 && delta < 0.0) { assert pi * delta > 0.0; }
        else { assert pi * delta < 0.0; }
      }
    } else if delta == 0.0 {
      forall n | 0 <= n < count ensures phases[n] == 0.0 {
        assert phases[n] == -2.0 * pi * 0.0 * (n as real);
      }
    }
  }

  /** Equal incident and reflection angles need no steering: delta is 0 and every phase is 0. */
  lemma NoSteeringWhenAnglesEqual(count: nat, angle: real, sin: real -> real, pi: real)
    ensures Delta(angle, angle, sin, pi) == 0.0
    ensures forall n :: 0 <= n < count ==> Ramp(count, Delta(angle, angle, sin, pi), pi)[n] == 0.0
  {
  }

  /** A single element gets the single phase 0, whatever the angles. */
  lemma SingleElementFlat(incident: real, reflection: real, sin: real -> real, pi: real)
    ensures Ramp(1, Delta(incident, reflection, sin, pi), pi) == [0.0]
  {
  }

  /**
   * Four elements, θi = 0°, θr = 30°: with sin 0 = 0 and sin(π/6) = 1/2,
   * delta is 1/2 and the phases are 0, −π, −2π, −3π.
   */
  lemma ThirtyDegreeScenario(sin: real -> real, pi: real)
    requires sin(0.0) == 0.0 && sin(pi / 6.0) == 0.5
    ensures Delta(0.0, 30.0, sin, pi) == 0.5
    ensures Ramp(4, Delta(0.0, 30.0, sin, pi), pi) == [0.0, -pi, -2.0 * pi, -3.0 * pi]
  {
    assert Radians(30.0, pi) == pi / 6.0;
    assert Radians(0.0, pi) == 0.0;
    var phases := Ramp(4, 0.5, pi);
    assert phases[0] == 0.0 && phases[1] == -pi && phases[2] == -2.0 * pi && phases[3] == -3.0 * pi;
    assert phases == [0.0, -pi, -2.0 * pi, -3.0 * pi];
  }
}
