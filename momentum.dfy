/** The momentum system: turns each paddle's Force into a change of its vertical velocity over
    the elapsed time `dT` (seconds). The elapsed time is a parameter; reading the SDL tick counter
    and remembering the last update is not modelled. */
module Momentum {
  import opened Components

  /** The decay rate with no force applied: `BASE_FORCE / 2` (true division), per second. */
  const Decay: real := BaseForce as real / 2.0

  /** The new `vy` of a paddle with velocity bounds `vmin`, `vmax` and force `force` after `dT`. */
  function NextVy(vy: real, force: int, vmin: int, vmax: int, dT: real): real {
    var step := force as real * dT;
    if force < 0 then
      (if vy < vmin as real then vy - step else vy + step)
    else if force > 0 then
      (if vy > vmax as real then vy - step else vy + step)
    else if vy > 0.0 then vy - Decay * dT
    else if vy < 0.0 then vy + Decay * dT
    else vy
  }

  /** No elapsed time, no change. */
  lemma NoTimeNoChange(vy: real, force: int, vmin: int, vmax: int)
    ensures NextVy(vy, force, vmin, vmax, 0.0) == vy
  {
  }

  /** Without force the speed decays by 15 per second toward zero; zero stays zero. */
  lemma DecayWithoutForce(vy: real, vmin: int, vmax: int, dT: real)
    ensures vy > 0.0 ==> NextVy(vy, 0, vmin, vmax, dT) == vy - 15.0 * dT
    ensures vy < 0.0 ==> NextVy(vy, 0, vmin, vmax, dT) == vy + 15.0 * dT
    ensures vy == 0.0 ==> NextVy(vy, 0, vmin, vmax, dT) == 0.0
  {
  }

  /** Within the bound, a force accelerates `vy` by `force * dT` in its own direction. */
  lemma ForceAccelerates(vy: real, force: int, vmin: int, vmax: int, dT: real)
    requires dT >= 0.0
    ensures force < 0 && vy >= vmin as real ==>
      NextVy(vy, force, vmin, vmax, dT) == vy + force as real * dT <= vy
    ensures force > 0 && vy <= vmax as real ==>
      NextVy(vy, force, vmin, vmax, dT) == vy + force as real * dT >= vy
  {
  }

  /** Beyond the bound in the force's direction, the update moves `vy` back toward the bound by
      `|force| * dT` (it may move past it: nothing stops it there). */
  lemma ForceBeyondBoundPullsBack(vy: real, force: int, vmin: int, vmax: int, dT: real)
    requires dT > 0.0
    ensures force < 0 && vy < vmin as real ==>
      vy < NextVy(vy, force, vmin, vmax, dT) == vy - force as real * dT
    ensures force > 0 && vy > vmax as real ==>
      NextVy(vy, force, vmin, vmax, dT) == vy - force as real * dT < vy
  {
  }

  /** The decay is not stopped at zero: one second of decay from 1 gives -14. */
  lemma DecayCanFlipSign()
    ensures NextVy(1.0, 0, -8, 8, 1.0) == -14.0
  {
  }

  /** `vy` is not kept within `[min, max]`: one second of full force from 8 gives 38. */
  lemma ForceCanPassMax()
    ensures NextVy(8.0, BaseForce, -8, 8, 1.0) == 38.0
  {
  }

  class MomentumSystem {
    constructor ()
    {
    }

    /** `process`: updates the `vy` of every entity that has a Velocity and a Force. */
    method Process(es: seq<Entity>, dT: real)
      requires dT >= 0.0
      requires Distinct(es)
      modifies es
      ensures forall i :: 0 <= i < |es| ==>
        es[i].vy == NextVy(old(es[i].vy), es[i].force, es[i].vmin, es[i].vmax, dT)
      ensures forall i :: 0 <= i < |es| ==>
        es[i].x == old(es[i].x) && es[i].y == old(es[i].y) &&
        es[i].vx == old(es[i].vx) && es[i].force == old(es[i].force)
    {
      for i := 0 to |es|
        invariant forall k :: 0 <= k < i ==>
          es[k].vy == NextVy(old(es[k].vy), es[k].force, es[k].vmin, es[k].vmax, dT)
        invariant forall k :: i <= k < |es| ==> es[k].vy == old(es[k].vy)
        invariant forall k :: 0 <= k < |es| ==>
          es[k].x == old(es[k].x) && es[k].y == old(es[k].y) &&
          es[k].vx == old(es[k].vx) && es[k].force == old(es[k].force)
      {
        var velocity := es[i];
        var f := velocity.force;
        ghost var vy0 := velocity.vy;
        if f < 0 {
          if velocity.vy < velocity.vmin as real {
            velocity.vy := velocity.vy - f as real * dT;
          } else {
            velocity.vy := velocity.vy + f as real * dT;
          }
        } else if f > 0 {
          if velocity.vy > velocity.vmax as real {
            velocity.vy := velocity.vy - f as real * dT;
          } else {
            velocity.vy := velocity.vy + f as real * dT;
          }
        } else {
          if velocity.vy > 0.0 {
            velocity.vy := velocity.vy - Decay * dT;
          } else if velocity.vy < 0.0 {
            velocity.vy := velocity.vy + Decay * dT;
          }
        }
        assert velocity.vy == NextVy(vy0, f, velocity.vmin, velocity.vmax, dT);
      }
    }
  }
}
