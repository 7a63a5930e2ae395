/** NoiseEmitter: an object that makes a noise when it is struck hard enough. The noise
    reaches every guard whose collider lies in the engine's overlap sphere, without any
    wall test; each guard then applies its own hearing check. A visual marker stays on for
    noiseVisualDuration seconds. */
module Noise {
  import opened Space
  import H = Hearing
  import opened BehaviorModel
  import Behavior
  import BehaviorProperties

  /** The fields the emitter updates: noiseVisualTime and isNoiseActive. */
  datatype EmitterState = EmitterState(noiseVisualTime: real, isNoiseActive: bool)

  /** The field initialisers: no noise shown. */
  const Quiet := EmitterState(0.0, false)

  /** The marker state MakeNoise leaves behind, whatever it was before. */
  const Emitted := EmitterState(0.0, true)

  /** A collision makes a noise exactly when the impact reaches the threshold (inclusive). */
  predicate Triggers(impactForce: real, minImpactForce: real): (r: bool)
    ensures impactForce == minImpactForce ==> r
    ensures impactForce < minImpactForce ==> !r
    ensures impactForce > minImpactForce ==> r
  {
    impactForce >= minImpactForce
  }

  /** Update: while the marker is on, its clock runs, and the marker goes off once the clock
      reaches the duration. An inactive marker is left alone. */
  function VisualTick(s: EmitterState, duration: real, dt: real): (r: EmitterState)
    ensures !s.isNoiseActive ==> r == s
    ensures s.isNoiseActive ==> r.noiseVisualTime == s.noiseVisualTime + dt
    ensures s.isNoiseActive ==> (r.isNoiseActive <==> s.noiseVisualTime + dt < duration)
  {
    if s.isNoiseActive then
      var t := s.noiseVisualTime + dt;
      EmitterState(t, if t >= duration then false else s.isNoiseActive)
    else s
  }

  /** Total of a sequence of frame times. */
  function Sum(dts: seq<real>): real
    decreases |dts|
  {
    if dts == [] then 0.0 else dts[0] + Sum(dts[1..])
  }

  /** The marker after a sequence of frames. */
  function VisualRun(s: EmitterState, duration: real, dts: seq<real>): EmitterState
    decreases |dts|
  {
    if dts == [] then s else VisualRun(VisualTick(s, duration, dts[0]), duration, dts[1..])
  }

  lemma {:induction false} SumNonNegative(dts: seq<real>)
    requires forall i :: 0 <= i < |dts| ==> dts[i] >= 0.0
    ensures Sum(dts) >= 0.0
    decreases |dts|
  {
    if dts != [] {
      SumNonNegative(dts[1..]);
    }
  }

  /** Once off, the marker stays off until the next noise. */
  lemma {:induction false} QuietStaysQuiet(s: EmitterState, duration: real, dts: seq<real>)
    requires !s.isNoiseActive
    ensures VisualRun(s, duration, dts) == s
    decreases |dts|
  {
    if dts != [] {
      QuietStaysQuiet(VisualTick(s, duration, dts[0]), duration, dts[1..]);
    }
  }

  /** Over any frames, the marker is still on exactly when it was on and its clock plus the
      elapsed time is still short of the duration; while on, its clock is exactly that sum. */
  lemma {:induction false} VisualExpiry(s: EmitterState, duration: real, dts: seq<real>)
    requires s.isNoiseActive ==> s.noiseVisualTime < duration
    requires forall i :: 0 <= i < |dts| ==> dts[i] >= 0.0
    ensures VisualRun(s, duration, dts).isNoiseActive <==>
              s.isNoiseActive && s.noiseVisualTime + Sum(dts) < duration
    ensures VisualRun(s, duration, dts).isNoiseActive ==>
              VisualRun(s, duration, dts).noiseVisualTime == s.noiseVisualTime + Sum(dts)
    decreases |dts|
  {
    if dts == [] {
    } else if !s.isNoiseActive {
      QuietStaysQuiet(s, duration, dts);
    } else {
      var s1 := VisualTick(s, duration, dts[0]);
      assert forall i :: 0 <= i < |dts[1..]| ==> dts[1..][i] >= 0.0 by {
        forall i | 0 <= i < |dts[1..]| ensures dts[1..][i] >= 0.0 {
          assert dts[1..][i] == dts[i + 1];
        }
      }
      SumNonNegative(dts[1..]);
      if s1.isNoiseActive {
        VisualExpiry(s1, duration, dts[1..]);
      } else {
        QuietStaysQuiet(s1, duration, dts[1..]);
      }
    }
  }

  /** After a noise, the marker shows for exactly the frames whose times add up to less than
      a positive noiseVisualDuration. */
  lemma MarkerLastsTheDuration(duration: real, dts: seq<real>)
    requires duration > 0.0
    requires forall i :: 0 <= i < |dts| ==> dts[i] >= 0.0
    ensures VisualRun(Emitted, duration, dts).isNoiseActive <==> Sum(dts) < duration
  {
    VisualExpiry(Emitted, duration, dts);
  }

  /** A guard inside the overlap sphere with a wall between it and the noise is not
      disturbed: the sphere query ignores walls, the guard's own hearing check does not. */
  lemma WallShieldsReachedGuard(cfg: GuardConfig, s: GuardState, position: Vec3, e: H.Earshot)
    requires e.rayHit
    ensures Heard(cfg, s, position, e) == s
  {
  }

  /** The guards among the colliders of an overlap query. */
  function Guards(colliders: seq<Behavior.Guard?>): set<Behavior.Guard> {
    set g: Behavior.Guard | g in colliders
  }

  /** The navigation components of those guards. */
  function Navigators(colliders: seq<Behavior.Guard?>): set<object> {
    set g: Behavior.Guard | g in colliders :: g.nav
  }

  /** What the engine guarantees about an overlap query's result: each guard reached is a
      valid guard with its own navigation component, and the engine reports what lies
      between it and the noise. */
  ghost predicate Wired(colliders: seq<Behavior.Guard?>, earshot: map<Behavior.Guard, H.Earshot>)
    reads Guards(colliders), Navigators(colliders)
  {
    && (forall g: Behavior.Guard :: g in colliders ==> g in earshot && g.Valid())
    && (forall g: Behavior.Guard, h: Behavior.Guard :: g in colliders && h in colliders && g != h ==> g.nav != h.nav)
  }

  class NoiseEmitter {
    /** Only parameterises the engine's overlap query, whose result is an input here. */
    const noiseRadius: real
    const noiseVisualDuration: real
    const minImpactForce: real

    var noiseVisualTime: real
    var isNoiseActive: bool

    function State(): EmitterState
      reads this
    {
      EmitterState(noiseVisualTime, isNoiseActive)
    }

    constructor (noiseRadius: real, noiseVisualDuration: real, minImpactForce: real)
      ensures this.noiseRadius == noiseRadius && this.noiseVisualDuration == noiseVisualDuration
      ensures this.minImpactForce == minImpactForce
      ensures State() == Quiet
    {
      this.noiseRadius := noiseRadius;
      this.noiseVisualDuration := noiseVisualDuration;
      this.minImpactForce := minImpactForce;
      noiseVisualTime := 0.0;
      isNoiseActive := false;
    }

    /** A collision of the given impact force (relativeVelocity.magnitude), with the emitter's
        transform.position at that moment; `colliders` is what Physics.OverlapSphere around
        the emitter returns (null for a collider without an AI_Behavior). The emitter is a
        physics body, so each collision comes with its own position. */
    method OnCollisionEnter(impactForce: real, position: Vec3, colliders: seq<Behavior.Guard?>,
                            earshot: map<Behavior.Guard, H.Earshot>)
      requires Wired(colliders, earshot)
      modifies this, Guards(colliders), Navigators(colliders)
      ensures Wired(colliders, earshot)
      ensures Triggers(impactForce, minImpactForce) ==>
        && State() == Emitted
        && forall g: Behavior.Guard :: g in colliders ==>
             g.Snapshot() == Heard(g.Config(), old(g.Snapshot()), position, earshot[g])
      ensures !Triggers(impactForce, minImpactForce) ==>
        && State() == old(State())
        && forall g: Behavior.Guard :: g in colliders ==> g.Snapshot() == old(g.Snapshot())
    {
      if impactForce >= minImpactForce {
        MakeNoise(position, colliders, earshot);
      }
    }

    /** Every guard among the colliders hears the noise once at the emitter's current
        position, the other colliders are skipped, and the marker comes on. A guard met twice hears it
        twice, which changes nothing more (HearNoise is idempotent). */
    method MakeNoise(position: Vec3, colliders: seq<Behavior.Guard?>, earshot: map<Behavior.Guard, H.Earshot>)
      requires Wired(colliders, earshot)
      modifies this, Guards(colliders), Navigators(colliders)
      ensures Wired(colliders, earshot)
      ensures State() == Emitted
      ensures forall g: Behavior.Guard :: g in colliders ==>
                g.Snapshot() == Heard(g.Config(), old(g.Snapshot()), position, earshot[g])
    {
      var i := 0;
      while i < |colliders|
        invariant 0 <= i <= |colliders|
        invariant Wired(colliders, earshot)
        invariant forall g: Behavior.Guard :: g in colliders[..i] ==>
                    g.Snapshot() == Heard(g.Config(), old(g.Snapshot()), position, earshot[g])
        invariant forall g: Behavior.Guard :: g in colliders && g !in colliders[..i] ==>
                    g.Snapshot() == old(g.Snapshot())
      {
        var ai := colliders[i];
        if ai != null {
          BehaviorProperties.HeardIdempotent(ai.Config(), old(ai.Snapshot()), position, earshot[ai]);
          ai.HearNoise(position, earshot[ai]);
        }
        assert colliders[..i + 1] == colliders[..i] + [colliders[i]];
        i := i + 1;
      }
      assert colliders[..i] == colliders;
      isNoiseActive := true;
      noiseVisualTime := 0.0;
    }

    method Update(dt: real)
      modifies this
      ensures State() == VisualTick(old(State()), noiseVisualDuration, dt)
    {
      if isNoiseActive {
        noiseVisualTime := noiseVisualTime + dt;
        if noiseVisualTime >= noiseVisualDuration {
          isNoiseActive := false;
        }
      }
    }
  }
}
