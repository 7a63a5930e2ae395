# Guard AI of the MechanicsTest scene, modelled in Dafny

This project models the guard logic in `proj/Assets/MechanicsTest/Scripts`. A guard is a
Unity game object with four components. `AI_Behavior` is a timer-driven state machine
with the states Patrol, Investigate, Wait and Chase. `AI_Navigation` keeps a cyclic
patrol-route cursor around a NavMeshAgent. `AI_Vision` is a view cone that chase mode
doubles. `AI_Hearing` is a hearing radius with a wall test. A separate `NoiseEmitter`
object makes a noise when struck hard enough and calls `HearNoise` on every guard in range.

Each component sits in its own module. `AI_Hearing` has no state and is one predicate.
Each stateful component is modelled twice:

- a value-level model: a datatype for the fields the component updates, and one pure
  function per operation (`Navigation.NextPoint`, `Vision.ChaseMode`,
  `BehaviorModel.Step`, `BehaviorModel.Heard`, `Noise.VisualTick`, ...);
- a class that does the same work in place, field by field as the C# does
  (`Navigation.PatrolNavigator`, `Vision.VisionSensor`, `Behavior.Guard`,
  `Noise.NoiseEmitter`). Each of its methods is proved to leave the state that the
  matching function computes from the old state.

The properties are lemmas about the value-level functions. Most of them are in
`BehaviorProperties`, the rest sit beside the functions they are about.

The engine is an input. Each vision query becomes a `Vision.Percept`: the distance to the
player's head, the angle off the look direction, and whether the obstacle ray hit
something. `Update` asks vision twice, and the second query, made after the look-around
has turned the head, gets its own percept (`TickInput.recheck`). The NavMeshAgent's
`pathPending` and `remainingDistance` become a `Navigation.NavReading`. What the engine
reports between a guard and a noise is a `Hearing.Earshot`. The colliders found by
`Physics.OverlapSphere` are a sequence of guards, with null for a collider that has no
`AI_Behavior`. Times, distances and angles are `real`.

Details of the code as written that the model keeps:

- Wait ends when `waitTimer >= investigateWait`: reaching the wait time is enough.
- Chase mode doubles the full view angle, and the test compares with half of it.
- No speed is set anywhere in these scripts.
- Nothing resets `isInvestigating` when a chase that started in Investigate ends.
- `HearNoise` does not touch the look-around fields. A noise heard during a Wait
  look-around leaves that look-around running through Investigate. On arrival,
  `StartLookAround` is then a no-op, so the new Wait continues the old look-around clock,
  and the look-around at the noise lasts only what remained of `lookAroundTime`
  (`BehaviorProperties.NoiseCarriesLookAroundClock`).
- `StartChase` does not retarget the agent, and the lost-sight branch of `ChaseUpdate`
  tests arrival before it calls `MoveTo(lastSeenPlayerPosition)`. Arrival is therefore
  judged against whatever destination the agent had when the chase began (a patrol point,
  a noise or an earlier last-seen point). A guard that spots the player from its waiting
  point can look around there and give up the chase without moving towards the player
  (`BehaviorProperties.StaleDestinationEndsChase`).

## Model

| member | source | states |
|---|---|---|
| Hearing.CanHear | proj/Assets/MechanicsTest/Scripts/AI_Hearing.cs:10-23 | a noise is heard exactly when its distance is at most hearingRadius (inclusive) and the ray from the guard to the noise hits no obstacle |
| Hearing.BoundaryIsAudible | proj/Assets/MechanicsTest/Scripts/AI_Hearing.cs:12-14 | a noise at exactly hearingRadius with a clear ray is heard, so the bound is inclusive |
| Hearing.OutOfEarshot | proj/Assets/MechanicsTest/Scripts/AI_Hearing.cs:12-20 | beyond the radius, or with the ray blocked, the noise is not heard |
| Hearing.NearerIsAudible | proj/Assets/MechanicsTest/Scripts/AI_Hearing.cs:12-14 | a noise that is heard stays audible at any smaller distance with the same wall result |
| Vision.Awakened | proj/Assets/MechanicsTest/Scripts/AI_Vision.cs:21-25 | after Awake the current radius and angle are the base viewRadius and viewAngle, and chase mode is off |
| Vision.ChaseMode | proj/Assets/MechanicsTest/Scripts/AI_Vision.cs:27-32 | SetChaseMode(true) makes the radius and the angle twice their base values; SetChaseMode(false) gives back exactly the state after Awake; the result ignores the old state |
| Vision.Sees | proj/Assets/MechanicsTest/Scripts/AI_Vision.cs:34-54 | CanSeePlayer is true exactly when a head is assigned, the distance is strictly below the current radius, the angle is strictly below half the current angle, and the ray is clear; with no head it is false |
| Vision.PlayerPosition | proj/Assets/MechanicsTest/Scripts/AI_Vision.cs:56 | GetPlayer yields the head's position exactly when a head is assigned |
| Vision.AwakeIsBaseCone | proj/Assets/MechanicsTest/Scripts/AI_Vision.cs:21-32 | the state after Awake is consistent and equals the state after SetChaseMode(false) |
| Vision.ChaseModeRoundTrip | proj/Assets/MechanicsTest/Scripts/AI_Vision.cs:27-32 | on-then-off restores the state after Awake; each flag value gives a consistent state with that flag, so a repeated call changes nothing |
| Vision.BoundaryIsInvisible | proj/Assets/MechanicsTest/Scripts/AI_Vision.cs:47 | at exactly the current radius, or at exactly half the current angle, the player is not seen (strict bounds) |
| Vision.ChaseConeContainsBaseCone | proj/Assets/MechanicsTest/Scripts/AI_Vision.cs:30-31 | with a non-negative base cone, whatever is seen in normal mode is seen in chase mode |
| Vision.VisionSensor.constructor | proj/Assets/MechanicsTest/Scripts/AI_Vision.cs:17-25 | the component starts with the base cone and chase mode off |
| Vision.VisionSensor.SetChaseMode | proj/Assets/MechanicsTest/Scripts/AI_Vision.cs:27-32 | the in-place update leaves exactly the ChaseMode state for its flag |
| Vision.VisionSensor.CanSeePlayer | proj/Assets/MechanicsTest/Scripts/AI_Vision.cs:34-54 | the component's query gives the Sees answer for its configuration and current cone |
| Vision.VisionSensor.GetPlayer | proj/Assets/MechanicsTest/Scripts/AI_Vision.cs:56 | the component's query gives PlayerPosition: the head exactly when one is assigned |
| Navigation.Initial | proj/Assets/MechanicsTest/Scripts/AI_Navigation.cs:9-12 | the cursor starts at 0 with no destination set |
| Navigation.NextPoint | proj/Assets/MechanicsTest/Scripts/AI_Navigation.cs:28-42 | GoToNextPoint changes nothing on an empty route; otherwise it targets the current point, sets destinationSet and moves the index to (index + 1) mod length, which keeps it in range; with one point the index stays put |
| Navigation.Retarget | proj/Assets/MechanicsTest/Scripts/AI_Navigation.cs:45-50 | MoveTo and SetDestination make GetDestination return the given position and set HasDestination, leaving the cursor alone |
| Navigation.Rewind | proj/Assets/MechanicsTest/Scripts/AI_Navigation.cs:53-61 | ReturnToPatrol changes nothing on an empty route; otherwise it targets the current point without advancing the index |
| Navigation.Reached | proj/Assets/MechanicsTest/Scripts/AI_Navigation.cs:72-78 | ReachedDestination is false while a path is pending or before any destination was set; otherwise it is exactly remainingDistance < threshold (strict); PatrolNavigator.ReachedDestination evaluates it on the fields |
| Navigation.HasDestination | proj/Assets/MechanicsTest/Scripts/AI_Navigation.cs:86 | HasDestination reports destinationSet; Retarget and DestinationStaysSet state when it becomes and stays true |
| Navigation.GetDestination | proj/Assets/MechanicsTest/Scripts/AI_Navigation.cs:87 | GetDestination reports the last destination issued; NextPoint, Rewind and Retarget state which one that is |
| Navigation.Advance | proj/Assets/MechanicsTest/Scripts/AI_Navigation.cs:9 | any number of GoToNextPoint calls keeps the cursor in range |
| Navigation.AdvanceVisitsInOrder | proj/Assets/MechanicsTest/Scripts/AI_Navigation.cs:33-41 | after k calls the index is k steps further modulo the route length, and the k-th call targeted the point k-1 steps past the start, so the calls visit 0, 1, ..., n-1, 0, ... |
| Navigation.FirstLapInOrder | proj/Assets/MechanicsTest/Scripts/AI_Navigation.cs:33-41 | starting at index 0, the k-th call targets point k-1 for k = 1..n, and after the n-th call the cursor is back at 0 |
| Navigation.FullLap | proj/Assets/MechanicsTest/Scripts/AI_Navigation.cs:38-41 | n calls on a route of n points bring the cursor back to where it started |
| Navigation.SinglePointStays | proj/Assets/MechanicsTest/Scripts/AI_Navigation.cs:32-41 | with exactly one patrol point the index stays 0 and every call targets that point |
| Navigation.DestinationStaysSet | proj/Assets/MechanicsTest/Scripts/AI_Navigation.cs:12-86 | destinationSet is never cleared: once HasDestination holds, it holds after every operation and after any number of GoToNextPoint calls |
| Navigation.PatrolNavigator.constructor | proj/Assets/MechanicsTest/Scripts/AI_Navigation.cs:7-14 | the component starts in the Initial state with its route |
| Navigation.PatrolNavigator.Start | proj/Assets/MechanicsTest/Scripts/AI_Navigation.cs:16-23 | Start is GoToNextPoint when the route is not empty, and does nothing otherwise |
| Navigation.PatrolNavigator.GoToNextPoint | proj/Assets/MechanicsTest/Scripts/AI_Navigation.cs:28-42 | the in-place update leaves exactly the NextPoint state and keeps the cursor in range |
| Navigation.PatrolNavigator.MoveTo | proj/Assets/MechanicsTest/Scripts/AI_Navigation.cs:45-50 | the in-place update leaves exactly the Retarget state |
| Navigation.PatrolNavigator.ReturnToPatrol | proj/Assets/MechanicsTest/Scripts/AI_Navigation.cs:53-61 | the in-place update leaves exactly the Rewind state |
| Navigation.PatrolNavigator.SetDestination | proj/Assets/MechanicsTest/Scripts/AI_Navigation.cs:64-69 | the in-place update leaves exactly the Retarget state, the same as MoveTo |
| Navigation.PatrolNavigator.ReachedDestination | proj/Assets/MechanicsTest/Scripts/AI_Navigation.cs:72-78 | the component's query gives the Reached answer for its own fields |
| Navigation.PatrolNavigator.HasDestination | proj/Assets/MechanicsTest/Scripts/AI_Navigation.cs:86 | the component's query reports its destinationSet field |
| Navigation.PatrolNavigator.GetDestination | proj/Assets/MechanicsTest/Scripts/AI_Navigation.cs:87 | the component's query reports its currentDestination field |
| BehaviorModel.Fresh | proj/Assets/MechanicsTest/Scripts/AI_Behavior.cs:17-37 | a guard starts in Patrol, not looking around, with normal vision and the cursor in range |
| BehaviorModel.StartedAsWritten | proj/Assets/MechanicsTest/Scripts/AI_Behavior.cs:39-42 | start-up as written, where both Start methods call GoToNextPoint; the cursor stays in range |
| BehaviorModel.Started | proj/Assets/MechanicsTest/Scripts/AI_Navigation.cs:16-23 | corrected start-up: with a route the guard heads for its first point; without one no destination is set |
| BehaviorModel.BeginLookAround | proj/Assets/MechanicsTest/Scripts/AI_Behavior.cs:208-216 | after StartLookAround a look-around is running |
| BehaviorModel.Sweep | proj/Assets/MechanicsTest/Scripts/AI_Behavior.cs:218-221 | the timer part of LookAround together with the caller's clock update: the look-around clock advances by deltaTime |
| BehaviorModel.EnterChase | proj/Assets/MechanicsTest/Scripts/AI_Behavior.cs:186-195 | StartChase sets Chase, switches vision to chase mode and stops the look-around, leaving navigation alone |
| BehaviorModel.LeaveChase | proj/Assets/MechanicsTest/Scripts/AI_Behavior.cs:197-205 | StopChase sets Patrol, restores normal vision, zeroes the look-around clock, stops the look-around and heads for the next patrol point |
| BehaviorModel.PatrolStep | proj/Assets/MechanicsTest/Scripts/AI_Behavior.cs:58-73 | in Patrol, the guard enters Chase exactly when it saw the player, enters Wait exactly on strict arrival within 0.3 without sight (with waitTimer 0, isInvestigating cleared, a look-around running and navigation untouched; StartLookAround starts the look-around with lookTimer and lookAroundTimer at 0, or keeps the clock of one already running), and otherwise nothing changes |
| BehaviorModel.InvestigateStep | proj/Assets/MechanicsTest/Scripts/AI_Behavior.cs:76-91 | in Investigate, the guard enters Chase exactly when it saw the player, enters Wait exactly on strict arrival within 0.5 without sight (with isInvestigating set, waitTimer 0 and a look-around running, whose clock carries over when one was already running and otherwise starts at 0), and otherwise nothing changes |
| BehaviorModel.FinishWait | proj/Assets/MechanicsTest/Scripts/AI_Behavior.cs:119-125 | the wait ends in Patrol exactly when no look-around runs and waitTimer has reached investigateWait, clearing isInvestigating and advancing the patrol cursor; otherwise nothing changes |
| BehaviorModel.WaitStep | proj/Assets/MechanicsTest/Scripts/AI_Behavior.cs:94-126 | in Wait, the guard enters Chase exactly when it saw the player on the first look, or on the second look while looking around; otherwise it stays in Wait or returns to Patrol, with waitTimer advanced by deltaTime and vision untouched |
| BehaviorModel.ChaseStep | proj/Assets/MechanicsTest/Scripts/AI_Behavior.cs:129-170 | in Chase, the guard stays in Chase or returns to Patrol, and a return restores normal vision with no look-around; while the player is seen and a head is assigned, it stays in Chase heading for the player and remembers the player's position |
| BehaviorModel.Step | proj/Assets/MechanicsTest/Scripts/AI_Behavior.cs:44-55 | one Update keeps the patrol cursor in range |
| BehaviorModel.Heard | proj/Assets/MechanicsTest/Scripts/AI_Behavior.cs:173-183 | HearNoise never changes a guard that is chasing |
| BehaviorModel.StateName | proj/Assets/MechanicsTest/Scripts/AI_Behavior.cs:225-228 | GetCurrentStateName is "Patrol", "Investigate", "Wait" or "Chase", each exactly for its own state |
| BehaviorProperties.StartedSatisfiesInv | proj/Assets/MechanicsTest/Scripts/AI_Behavior.cs:17-42 | the invariant holds at start-up, both as written and as corrected |
| BehaviorProperties.StepPreservesInv | proj/Assets/MechanicsTest/Scripts/AI_Behavior.cs:44-170 | every Update with a non-negative deltaTime keeps the invariant: the cursor is in range, the cone matches the chase flag, the guard is in Chase exactly when vision is in chase mode, an investigating guard heads for the noise, no look-around runs on patrol, and waitTimer and lookAroundTimer are non-negative (lookTimer is not covered: it grows by deltaTime times an unconstrained lookSpeed) |
| BehaviorProperties.HeardPreservesInv | proj/Assets/MechanicsTest/Scripts/AI_Behavior.cs:173-183 | every HearNoise keeps the invariant |
| BehaviorProperties.Run | proj/Assets/MechanicsTest/Scripts/AI_Behavior.cs:44-55 | any sequence of frames and noises keeps the cursor in range |
| BehaviorProperties.RunPreservesInv | proj/Assets/MechanicsTest/Scripts/AI_Behavior.cs:44-183 | any sequence of frames and noises, with time running forward, keeps the invariant |
| BehaviorProperties.ReachableStatesKeepInv | proj/Assets/MechanicsTest/Scripts/AI_Behavior.cs:186-205 | in every state reachable from start-up the guard is in Chase exactly when its vision has the doubled cone |
| BehaviorProperties.ReachableStatesKeepInvAsWritten | proj/Assets/MechanicsTest/Scripts/AI_Behavior.cs:39-55 | the same for the start-up as written, with its double GoToNextPoint: every reachable state keeps the invariant and is in Chase exactly when its vision has the doubled cone |
| BehaviorProperties.SightingPreemptsEverything | proj/Assets/MechanicsTest/Scripts/AI_Behavior.cs:60-100 | seeing the player at the start of a frame turns Patrol, Investigate and Wait into Chase, with the doubled cone, no look-around, the last-seen position set to the player, and navigation untouched |
| BehaviorProperties.LookAroundSightingStartsChase | proj/Assets/MechanicsTest/Scripts/AI_Behavior.cs:104-113 | the second look during a Wait look-around starts the chase in the same frame |
| BehaviorProperties.ChaseNeedsSight | proj/Assets/MechanicsTest/Scripts/AI_Behavior.cs:58-126 | a guard outside Chase that sees the player on neither look does not enter Chase |
| BehaviorProperties.HearNoiseContract | proj/Assets/MechanicsTest/Scripts/AI_Behavior.cs:173-183 | outside Chase, an audible noise sets Investigate, noisePosition and the destination to the noise, zeroes waitTimer, sets isInvestigating and leaves vision, the cursor, playerVisible, the last sighting and the look-around fields alone; in Chase, or when the noise cannot be heard, nothing changes |
| BehaviorProperties.LatestNoiseWins | proj/Assets/MechanicsTest/Scripts/AI_Behavior.cs:175-181 | a second audible noise replaces the first as the point under investigation |
| BehaviorProperties.HeardIdempotent | proj/Assets/MechanicsTest/Scripts/AI_Behavior.cs:173-183 | hearing the same noise twice is the same as hearing it once |
| BehaviorProperties.PatrolArrival | proj/Assets/MechanicsTest/Scripts/AI_Behavior.cs:58-73 | without sight, Patrol becomes Wait exactly when no path is pending, a destination is set and remainingDistance < 0.3; Wait then starts with waitTimer 0, isInvestigating cleared and a look-around running, whose lookTimer and lookAroundTimer start at 0 unless one was already running, in which case they carry over; otherwise nothing but playerVisible changes |
| BehaviorProperties.PatrolWaitStartsFreshLookAround | proj/Assets/MechanicsTest/Scripts/AI_Behavior.cs:66-72 | on every reachable patrol state, a wait begun on arrival starts a full look-around: lookTimer, lookAroundTimer and waitTimer at 0 |
| BehaviorProperties.InvestigateArrival | proj/Assets/MechanicsTest/Scripts/AI_Behavior.cs:76-91 | without sight, Investigate becomes Wait exactly on arrival within 0.5 (strict), with isInvestigating set, waitTimer 0 and a look-around running; a look-around already running keeps its lookTimer and lookAroundTimer, otherwise both start at 0 |
| BehaviorProperties.NoiseCarriesLookAroundClock | proj/Assets/MechanicsTest/Scripts/AI_Behavior.cs:89 | a noise heard during a Wait look-around, followed by arrival at the noise, gives a Wait whose look-around keeps the old clock (HearNoise at 173-183 and StartLookAround at 208-216 leave it alone) |
| BehaviorProperties.BeginLookAroundContract | proj/Assets/MechanicsTest/Scripts/AI_Behavior.cs:208-216 | StartLookAround is a no-op while a look-around runs; otherwise it starts one with lookTimer and lookAroundTimer at 0 and changes nothing else |
| BehaviorProperties.WaitEndsOnlyWhenDone | proj/Assets/MechanicsTest/Scripts/AI_Behavior.cs:94-126 | Wait becomes Patrol exactly when the player stays unseen, any running look-around reaches lookAroundTime, and waitTimer reaches investigateWait; the return advances the patrol cursor; the only other outcomes are staying in Wait, with waitTimer advanced, or Chase |
| BehaviorProperties.WaitLookAroundClock | proj/Assets/MechanicsTest/Scripts/AI_Behavior.cs:104-117 | in Wait the look-around clock advances by deltaTime, and the look-around ends exactly when the clock reaches lookAroundTime |
| BehaviorProperties.ChaseFollowsPlayer | proj/Assets/MechanicsTest/Scripts/AI_Behavior.cs:133-138 | while the player is seen, the chase sets the destination and lastSeenPlayerPosition to the player's position |
| BehaviorProperties.ChaseHeadsForLastSeen | proj/Assets/MechanicsTest/Scripts/AI_Behavior.cs:139-144 | with the player lost and the guard not yet within 0.5, the destination is lastSeenPlayerPosition |
| BehaviorProperties.ChaseEndsOnlyAfterLookAround | proj/Assets/MechanicsTest/Scripts/AI_Behavior.cs:129-170 | Chase ends exactly when the player is unseen on both looks, the agent reports arrival within 0.5 of its current destination, and the look-around there has lasted lookAroundTime; it always ends in Patrol, with normal vision, a zero look-around clock and the next patrol point |
| BehaviorProperties.StaleDestinationEndsChase | proj/Assets/MechanicsTest/Scripts/AI_Behavior.cs:139-169 | as written, a chase begun by a second-look sighting during a Wait look-around keeps the agent aimed at the waiting point; on arrival there with the player unseen and lookAroundTime elapsed it ends in Patrol without ever heading for the last-seen position |
| BehaviorProperties.StartupSkipsFirstPoint | proj/Assets/MechanicsTest/Scripts/AI_Behavior.cs:39-42 | as written, a route of two or more points is started at its second point, and the cursor sits at 2 mod n |
| BehaviorProperties.StartupHeadsForFirstPoint | proj/Assets/MechanicsTest/Scripts/AI_Navigation.cs:18-22 | the corrected start-up heads for point 0 and leaves the cursor at 1 mod n; on routes of at most one point it agrees with the code as written |
| BehaviorProperties.StateNamesDistinct | proj/Assets/MechanicsTest/Scripts/AI_Behavior.cs:225-228 | GetCurrentStateName gives different states different names |
| Behavior.Guard.constructor | proj/Assets/MechanicsTest/Scripts/AI_Behavior.cs:32-42 | a new guard owns fresh navigation and vision components and is in the Started state |
| Behavior.Guard.Start | proj/Assets/MechanicsTest/Scripts/AI_Behavior.cs:39-42 | Start advances the patrol cursor once and changes nothing else |
| Behavior.Guard.Update | proj/Assets/MechanicsTest/Scripts/AI_Behavior.cs:44-55 | one frame, done in place on the guard and its components, leaves exactly the Step state |
| Behavior.Guard.PatrolUpdate | proj/Assets/MechanicsTest/Scripts/AI_Behavior.cs:58-73 | the in-place update leaves exactly the PatrolStep state |
| Behavior.Guard.InvestigateUpdate | proj/Assets/MechanicsTest/Scripts/AI_Behavior.cs:76-91 | the in-place update leaves exactly the InvestigateStep state |
| Behavior.Guard.WaitUpdate | proj/Assets/MechanicsTest/Scripts/AI_Behavior.cs:94-126 | the in-place update leaves exactly the WaitStep state |
| Behavior.Guard.ChaseUpdate | proj/Assets/MechanicsTest/Scripts/AI_Behavior.cs:129-170 | the in-place update leaves exactly the ChaseStep state |
| Behavior.Guard.HearNoise | proj/Assets/MechanicsTest/Scripts/AI_Behavior.cs:173-183 | the in-place update leaves exactly the Heard state and does not touch vision |
| Behavior.Guard.StartChase | proj/Assets/MechanicsTest/Scripts/AI_Behavior.cs:186-195 | the in-place update leaves exactly the EnterChase state and does not touch navigation |
| Behavior.Guard.StopChase | proj/Assets/MechanicsTest/Scripts/AI_Behavior.cs:197-205 | the in-place update leaves exactly the LeaveChase state |
| Behavior.Guard.StartLookAround | proj/Assets/MechanicsTest/Scripts/AI_Behavior.cs:208-216 | the in-place update leaves exactly the BeginLookAround state |
| Behavior.Guard.GetCurrentStateName | proj/Assets/MechanicsTest/Scripts/AI_Behavior.cs:225-228 | the component's query gives StateName of the current state |
| Behavior.Guard.LookAround | proj/Assets/MechanicsTest/Scripts/AI_Behavior.cs:218-220 | lookTimer advances by deltaTime times lookSpeed and nothing else changes |
| Noise.Triggers | proj/Assets/MechanicsTest/Scripts/NoiseEmitter.cs:18 | an impact exactly at minImpactForce makes a noise, a weaker one does not and a stronger one does |
| Noise.VisualTick | proj/Assets/MechanicsTest/Scripts/NoiseEmitter.cs:38-46 | while the marker is on, Update adds deltaTime to noiseVisualTime, and the marker stays on exactly while that sum is below noiseVisualDuration; while it is off, nothing changes |
| Noise.SumNonNegative | proj/Assets/MechanicsTest/Scripts/NoiseEmitter.cs:42 | frame times that are never negative add up to a non-negative total |
| Noise.QuietStaysQuiet | proj/Assets/MechanicsTest/Scripts/NoiseEmitter.cs:40 | a marker that is off stays off over any frames |
| Noise.VisualExpiry | proj/Assets/MechanicsTest/Scripts/NoiseEmitter.cs:38-46 | over any frames the marker is still on exactly when its clock plus the elapsed time is below the duration, and while on, its clock is exactly that sum |
| Noise.MarkerLastsTheDuration | proj/Assets/MechanicsTest/Scripts/NoiseEmitter.cs:34-46 | after a noise, the marker shows for exactly those frames whose times add up to less than a positive noiseVisualDuration |
| Noise.WallShieldsReachedGuard | proj/Assets/MechanicsTest/Scripts/NoiseEmitter.cs:26-31 | a guard in the overlap sphere with a wall between it and the noise is left unchanged: the sphere query ignores walls, the guard's own hearing check does not |
| Noise.NoiseEmitter.constructor | proj/Assets/MechanicsTest/Scripts/NoiseEmitter.cs:5-11 | the emitter starts with the marker off and its clock at 0 |
| Noise.NoiseEmitter.OnCollisionEnter | proj/Assets/MechanicsTest/Scripts/NoiseEmitter.cs:13-22 | an impact of at least minImpactForce (inclusive) makes the noise; a weaker one changes neither the emitter nor any guard |
| Noise.NoiseEmitter.MakeNoise | proj/Assets/MechanicsTest/Scripts/NoiseEmitter.cs:24-36 | every guard among the overlapped colliders ends in the Heard state for the emitter's position at that moment (a parameter, since the emitter is a moving physics body), colliders without a guard are skipped, and the marker is on with its clock at 0 |
| Noise.NoiseEmitter.Update | proj/Assets/MechanicsTest/Scripts/NoiseEmitter.cs:38-46 | the in-place update leaves exactly the VisualTick state |

## Findings

| source | as written | input that shows it | evidently intended | confidence | as-written member | corrected member |
|---|---|---|---|---|---|---|
| proj/Assets/MechanicsTest/Scripts/AI_Behavior.cs:39-42 | `AI_Behavior.Start` and `AI_Navigation.Start` (AI_Navigation.cs:16-23) each call `GoToNextPoint`, so the cursor advances twice before the first frame | a route of two points A, B: the guard first heads for B, and the cursor is back at 0 | both Start methods are commented as heading for the first patrol point, so one call should run | medium, not executed | BehaviorProperties.StartupSkipsFirstPoint (about BehaviorModel.StartedAsWritten) | BehaviorProperties.StartupHeadsForFirstPoint (about BehaviorModel.Started, used by Behavior.Guard.constructor) |

## Left out

- BehaviorProperties.ChaseEndsOnlyAfterLookAround: it does not promise that the look-around happens at the last-seen point, because the code judges arrival against the agent's current destination, which need not be that point (see StaleDestinationEndsChase).
- Inspector defaults (a hearing and view radius of 10, a view angle of 60, and so on) are not fixed: every configuration value is a parameter, so each property holds for any values chosen in the inspector.
- Floating point: `float` arithmetic is modelled with exact reals, so no rounding is captured.
- Vector maths and physics: `Vector3.Distance`, `Vector3.Angle`, the 1.5 m eye offset, the head-bone forward vector, `Physics.Raycast`, `Physics.OverlapSphere` and `collision.relativeVelocity` are engine computations. Their results are inputs (`Percept`, `Earshot`, the collider sequence, the impact force). So `noiseRadius` appears only as configuration.
- Behavior.Guard.LookAround: only the timer part is modelled. The head rotation (`Mathf.Sin`, `Quaternion.Euler`, `baseYRotation`) is trigonometry on floats, so `lookAngle` is configuration only.
- NavMeshAgent internals: path planning, `pathPending`, `remainingDistance` and the `speed` property (AI_Navigation.cs:80-84) belong to a foreign library. The two readings are inputs, and the speed property is not modelled.
- Navigation.Reached: the `agent == null` branch is not modelled. Without an agent it never changes the answer: every assignment to `destinationSet` (AI_Navigation.cs:35, 49, 60, 68) follows an `agent.SetDestination` call, which fails without an agent, so `destinationSet` stays false and the query already returns false. With an empty route, GoToNextPoint and ReturnToPatrol return before touching the agent, and HasDestination and GetDestination never touch it, so such a guard can keep running; the model agrees with it there.
- Patrol points are `Transform`s that the scene could move. They are modelled as fixed positions.
- Engine lifecycle: `Awake`, `GetComponent`, Unity's ordering of `Update` calls across objects, and the exceptions a missing component would raise are left out. Constructors stand for the wiring, and a sequence of events (`BehaviorProperties.Run`) stands for the order of frames and noises.
- Behavior.Guard.constructor: it runs only the guard's own Start (one `GoToNextPoint`), which is the corrected start-up from the Findings table. The double call is modelled by `BehaviorModel.StartedAsWritten`.
- Noise.NoiseEmitter.MakeNoise: it requires that distinct guards reached by the noise have distinct navigation components, as the scene's wiring provides. Under that requirement a guard reached through two colliders is handled correctly (HearNoise is idempotent).
- Hearing.CanHear: the wall test is the engine's answer for the ray cast from the guard towards the noise. Whether that answer would be the same for the opposite direction is a property of the physics engine, not of this code.
- OnDrawGizmos and OnDrawGizmosSelected: debug drawing only.
- Other scripts: `DESKTOPTEST.cs` (keyboard and mouse movement) and `GpuInstancingEnabler.cs` (a rendering call) have no AI logic. The `Location Warehouse` scripts (the sentry camera with its scan, focus, search and distraction states, the alarm broadcast, and the alert and animation feedback) are not part of this model.
