/** AI_Hearing: whether a guard hears a noise. A pure predicate over what the physics
    engine reports: the distance to the noise and whether the obstacle ray hit a wall. */
module Hearing {

  /** The component's configuration: it has no mutable state at all. */
  datatype HearingSensor = HearingSensor(hearingRadius: real)

  /** What the engine reports for one noise: Vector3.Distance from the guard to the noise,
      and whether Physics.Raycast from the guard towards the noise, over that distance and
      against the obstacle mask, hit something. */
  datatype Earshot = Earshot(distance: real, rayHit: bool)

  /** CanHear: the distance bound is inclusive; a wall on the ray blocks the noise. */
  function CanHear(h: HearingSensor, e: Earshot): (r: bool)
    ensures r <==> e.distance <= h.hearingRadius && !e.rayHit
  {
    if e.distance > h.hearingRadius then false
    else if e.rayHit then false
    else true
  }

  /** A noise exactly at the hearing radius is heard when nothing is in the way. */
  lemma BoundaryIsAudible(h: HearingSensor, e: Earshot)
    requires e.distance == h.hearingRadius && !e.rayHit
    ensures CanHear(h, e)
  {
  }

  /** Beyond the radius, or behind a wall, nothing is heard. */
  lemma OutOfEarshot(h: HearingSensor, e: Earshot)
    requires e.distance > h.hearingRadius || e.rayHit
    ensures !CanHear(h, e)
  {
  }

  /** Hearing is monotone in distance: whatever is heard at some distance is heard nearer,
      when the wall test reports the same. */
  lemma NearerIsAudible(h: HearingSensor, e: Earshot, d: real)
    requires CanHear(h, e) && d <= e.distance
    ensures CanHear(h, Earshot(d, e.rayHit))
  {
  }
}
