/** What the guard's state machine promises, proved about the transition functions of
    BehaviorModel. */
module BehaviorProperties {
  import opened Space
  import Nav = Navigation
  import V = Vision
  import H = Hearing
  import opened BehaviorModel

  // ---------------- the invariant every reachable state keeps ----------------

  /** The invariant of a running guard: the patrol cursor is in range, the view cone matches
      the chase flag, the guard is in Chase exactly when its vision is in chase mode, while
      investigating it is heading for the noise, no look-around runs on patrol, and waitTimer
      and lookAroundTimer never go negative. */
  ghost predicate Inv(cfg: GuardConfig, s: GuardState) {
    && WellFormed(cfg, s)
    && V.Consistent(cfg.vision, s.vision)
    && (s.currentState == Chase <==> s.vision.isChasing)
    && (s.currentState == Investigate ==>
          s.nav.destinationSet && s.nav.currentDestination == s.noisePosition)
    && (s.currentState == Patrol ==> !s.isLookingAround)
    && s.waitTimer >= 0.0
    && s.lookAroundTimer >= 0.0
  }

  lemma StartedSatisfiesInv(cfg: GuardConfig)
    ensures Inv(cfg, Started(cfg))
    ensures Inv(cfg, StartedAsWritten(cfg))
  {
  }

  /** Every frame keeps the invariant (Time.deltaTime is never negative). */
  lemma StepPreservesInv(cfg: GuardConfig, s: GuardState, inp: TickInput)
    requires Inv(cfg, s) && inp.dt >= 0.0
    ensures Inv(cfg, Step(cfg, s, inp))
  {
  }

  /** Every noise keeps the invariant. */
  lemma HeardPreservesInv(cfg: GuardConfig, s: GuardState, position: Vec3, e: H.Earshot)
    requires Inv(cfg, s)
    ensures Inv(cfg, Heard(cfg, s, position, e))
  {
  }

  /** What can happen to a guard: a frame, or a noise reported by a NoiseEmitter. */
  datatype Event = Tick(inp: TickInput) | Noise(position: Vec3, earshot: H.Earshot)

  /** The guard after a sequence of events, in order. */
  function Run(cfg: GuardConfig, s: GuardState, events: seq<Event>): (r: GuardState)
    requires WellFormed(cfg, s)
    ensures WellFormed(cfg, r)
    decreases |events|
  {
    if events == [] then s
    else
      var s1 := match events[0]
                case Tick(inp) => Step(cfg, s, inp)
                case Noise(p, e) => Heard(cfg, s, p, e);
      Run(cfg, s1, events[1..])
  }

  /** Frames never run time backwards. */
  predicate TimeForward(events: seq<Event>) {
    forall i :: 0 <= i < |events| && events[i].Tick? ==> events[i].inp.dt >= 0.0
  }

  /** Every state reachable from the start-up, through any frames and noises, keeps the
      invariant: in particular the guard is in Chase exactly when its vision is doubled. */
  lemma {:induction false} RunPreservesInv(cfg: GuardConfig, s: GuardState, events: seq<Event>)
    requires Inv(cfg, s) && TimeForward(events)
    ensures Inv(cfg, Run(cfg, s, events))
    decreases |events|
  {
    if events != [] {
      var s1 := match events[0]
                case Tick(inp) => Step(cfg, s, inp)
                case Noise(p, e) => Heard(cfg, s, p, e);
      match events[0] {
        case Tick(inp) => StepPreservesInv(cfg, s, inp);
        case Noise(p, e) => HeardPreservesInv(cfg, s, p, e);
      }
      assert TimeForward(events[1..]) by {
        forall i | 0 <= i < |events[1..]| && events[1..][i].Tick?
          ensures events[1..][i].inp.dt >= 0.0
        {
          assert events[1..][i] == events[i + 1];
        }
      }
      RunPreservesInv(cfg, s1, events[1..]);
    }
  }

  /** The corollary for a guard as it starts. */
  lemma ReachableStatesKeepInv(cfg: GuardConfig, events: seq<Event>)
    requires TimeForward(events)
    ensures Inv(cfg, Run(cfg, Started(cfg), events))
    ensures var r := Run(cfg, Started(cfg), events);
      r.currentState == Chase <==> r.vision == V.ChaseMode(cfg.vision, true)
  {
    StartedSatisfiesInv(cfg);
    RunPreservesInv(cfg, Started(cfg), events);
  }

  /** The same for the start-up as written, with its double GoToNextPoint. */
  lemma ReachableStatesKeepInvAsWritten(cfg: GuardConfig, events: seq<Event>)
    requires TimeForward(events)
    ensures Inv(cfg, Run(cfg, StartedAsWritten(cfg), events))
    ensures var r := Run(cfg, StartedAsWritten(cfg), events);
      r.currentState == Chase <==> r.vision == V.ChaseMode(cfg.vision, true)
  {
    StartedSatisfiesInv(cfg);
    RunPreservesInv(cfg, StartedAsWritten(cfg), events);
  }

  // ---------------- seeing the player ----------------

  /** Seeing the player at the start of a frame preempts Patrol, Investigate and Wait:
      the guard chases with doubled vision, stops looking around and remembers the player. */
  lemma SightingPreemptsEverything(cfg: GuardConfig, s: GuardState, inp: TickInput)
    requires WellFormed(cfg, s) && s.currentState != Chase
    requires V.Sees(cfg.vision, s.vision, inp.sight)
    ensures var r := Step(cfg, s, inp);
      && r.currentState == Chase
      && r.vision.isChasing
      && r.vision.currentViewRadius == 2.0 * cfg.vision.viewRadius
      && r.vision.currentViewAngle == 2.0 * cfg.vision.viewAngle
      && !r.isLookingAround
      && r.lastSeenPlayerPosition == inp.playerPosition
      && r.nav == s.nav
  {
  }

  /** The second look during a Wait look-around also starts the chase at once. */
  lemma LookAroundSightingStartsChase(cfg: GuardConfig, s: GuardState, inp: TickInput)
    requires WellFormed(cfg, s) && s.currentState == Wait && s.isLookingAround
    requires !V.Sees(cfg.vision, s.vision, inp.sight)
    requires V.Sees(cfg.vision, s.vision, inp.recheck)
    ensures var r := Step(cfg, s, inp);
      && r.currentState == Chase
      && r.vision == V.ChaseMode(cfg.vision, true)
      && !r.isLookingAround
      && r.lastSeenPlayerPosition == inp.playerPosition
  {
  }

  /** A guard that does not see the player never enters Chase in a frame; only sight does. */
  lemma ChaseNeedsSight(cfg: GuardConfig, s: GuardState, inp: TickInput)
    requires WellFormed(cfg, s) && s.currentState != Chase
    requires !V.Sees(cfg.vision, s.vision, inp.sight) && !V.Sees(cfg.vision, s.vision, inp.recheck)
    ensures Step(cfg, s, inp).currentState != Chase
  {
  }

  // ---------------- hearing a noise ----------------

  /** HearNoise outside Chase with an audible noise: investigate that position, with the wait
      timer reset, vision and patrol cursor untouched. The look-around fields and the last
      sighting are not touched either, so a look-around running in Wait stays running. In
      Chase, or when the noise cannot be heard, nothing changes. */
  lemma HearNoiseContract(cfg: GuardConfig, s: GuardState, position: Vec3, e: H.Earshot)
    ensures var r := Heard(cfg, s, position, e);
      if s.currentState != Chase && e.distance <= cfg.hearing.hearingRadius && !e.rayHit then
        && r.currentState == Investigate
        && r.noisePosition == position
        && Nav.GetDestination(r.nav) == position && Nav.HasDestination(r.nav)
        && r.nav.currentPoint == s.nav.currentPoint
        && r.waitTimer == 0.0 && r.isInvestigating
        && r.vision == s.vision
        && r.isLookingAround == s.isLookingAround
        && r.lookTimer == s.lookTimer && r.lookAroundTimer == s.lookAroundTimer
        && r.lastSeenPlayerPosition == s.lastSeenPlayerPosition
        && r.playerVisible == s.playerVisible
      else r == s
  {
  }

  /** The latest audible noise wins over the one being investigated. */
  lemma LatestNoiseWins(cfg: GuardConfig, s: GuardState, p1: Vec3, e1: H.Earshot, p2: Vec3, e2: H.Earshot)
    requires s.currentState != Chase && H.CanHear(cfg.hearing, e2)
    ensures var r := Heard(cfg, Heard(cfg, s, p1, e1), p2, e2);
      r.currentState == Investigate && r.noisePosition == p2 && Nav.GetDestination(r.nav) == p2
  {
  }

  /** Hearing the same noise twice is the same as hearing it once. */
  lemma HeardIdempotent(cfg: GuardConfig, s: GuardState, position: Vec3, e: H.Earshot)
    ensures Heard(cfg, Heard(cfg, s, position, e), position, e) == Heard(cfg, s, position, e)
  {
  }

  // ---------------- patrol and investigate ----------------

  /** Without sight, Patrol moves to Wait exactly on arrival within 0.3 (strictly), with a
      fresh wait, no investigation flag and a look-around running; otherwise it stays. */
  lemma PatrolArrival(cfg: GuardConfig, s: GuardState, inp: TickInput)
    requires WellFormed(cfg, s) && s.currentState == Patrol
    requires !V.Sees(cfg.vision, s.vision, inp.sight)
    ensures var r := Step(cfg, s, inp);
      && (r.currentState == Wait <==>
            !inp.navReading.pathPending && s.nav.destinationSet && inp.navReading.remainingDistance < 0.3)
      && (r.currentState == Wait ==>
            r.waitTimer == 0.0 && !r.isInvestigating && r.isLookingAround && r.nav == s.nav)
      && (r.currentState == Wait && s.isLookingAround ==>
            r.lookAroundTimer == s.lookAroundTimer && r.lookTimer == s.lookTimer)
      && (r.currentState == Wait && !s.isLookingAround ==>
            r.lookAroundTimer == 0.0 && r.lookTimer == 0.0)
      && (r.currentState != Wait ==> r.currentState == Patrol && r == s.(playerVisible := false))
  {
  }

  /** On a reachable state no look-around runs on patrol, so the wait begun on arrival at a
      patrol point always starts a full look-around, with both of its timers at zero. */
  lemma PatrolWaitStartsFreshLookAround(cfg: GuardConfig, s: GuardState, inp: TickInput)
    requires Inv(cfg, s) && s.currentState == Patrol
    ensures var r := Step(cfg, s, inp);
      r.currentState == Wait ==>
        r.isLookingAround && r.lookAroundTimer == 0.0 && r.lookTimer == 0.0 && r.waitTimer == 0.0
  {
  }

  /** Without sight, Investigate moves to Wait exactly on arrival within 0.5 (strictly), with
      the investigation flag set, a fresh wait and a look-around running. StartLookAround is
      a no-op when a look-around already runs, so its clock carries over; otherwise the
      look-around starts from zero. */
  lemma InvestigateArrival(cfg: GuardConfig, s: GuardState, inp: TickInput)
    requires WellFormed(cfg, s) && s.currentState == Investigate
    requires !V.Sees(cfg.vision, s.vision, inp.sight)
    ensures var r := Step(cfg, s, inp);
      && (r.currentState == Wait <==>
            !inp.navReading.pathPending && s.nav.destinationSet && inp.navReading.remainingDistance < 0.5)
      && (r.currentState == Wait ==>
            r.waitTimer == 0.0 && r.isInvestigating && r.isLookingAround && r.nav == s.nav)
      && (r.currentState == Wait && s.isLookingAround ==>
            r.lookAroundTimer == s.lookAroundTimer && r.lookTimer == s.lookTimer)
      && (r.currentState == Wait && !s.isLookingAround ==>
            r.lookAroundTimer == 0.0 && r.lookTimer == 0.0)
      && (r.currentState != Wait ==> r == s.(playerVisible := false))
  {
  }

  /** A noise heard during a Wait look-around does not reset it: on arrival at the noise the
      new Wait continues the old look-around clock, so the look-around there lasts only what
      remained of lookAroundTime. */
  lemma NoiseCarriesLookAroundClock(cfg: GuardConfig, s: GuardState, position: Vec3, e: H.Earshot,
                                    inp: TickInput)
    requires WellFormed(cfg, s) && s.currentState == Wait && s.isLookingAround
    requires H.CanHear(cfg.hearing, e)
    requires !V.Sees(cfg.vision, s.vision, inp.sight)
    requires !inp.navReading.pathPending && inp.navReading.remainingDistance < PursuitArrival
    ensures var r := Step(cfg, Heard(cfg, s, position, e), inp);
      && r.currentState == Wait && r.isInvestigating && r.waitTimer == 0.0
      && r.isLookingAround && r.lookAroundTimer == s.lookAroundTimer
  {
    var h := Heard(cfg, s, position, e);
    HearNoiseContract(cfg, s, position, e);
    InvestigateArrival(cfg, h, inp);
  }

  /** StartLookAround never restarts a running look-around; otherwise it starts one with
      both of its timers at zero. */
  lemma BeginLookAroundContract(s: GuardState)
    ensures s.isLookingAround ==> BeginLookAround(s) == s
    ensures !s.isLookingAround ==>
              BeginLookAround(s) == s.(isLookingAround := true, lookTimer := 0.0, lookAroundTimer := 0.0)
  {
  }

  // ---------------- waiting ----------------

  /** Wait returns to Patrol exactly when the player stays unseen, any running look-around
      has lasted lookAroundTime, and the wait has lasted investigateWait; the return
      advances the patrol cursor. Otherwise the guard stays in Wait or starts to chase. */
  lemma WaitEndsOnlyWhenDone(cfg: GuardConfig, s: GuardState, inp: TickInput)
    requires WellFormed(cfg, s) && s.currentState == Wait
    ensures var r := Step(cfg, s, inp);
      && (r.currentState == Patrol <==>
            && !V.Sees(cfg.vision, s.vision, inp.sight)
            && (s.isLookingAround ==>
                  !V.Sees(cfg.vision, s.vision, inp.recheck)
                  && s.lookAroundTimer + inp.dt >= cfg.lookAroundTime)
            && s.waitTimer + inp.dt >= cfg.investigateWait)
      && (r.currentState == Patrol ==>
            r.nav == Nav.NextPoint(cfg.patrolPoints, s.nav) && !r.isLookingAround && !r.isInvestigating)
      && r.currentState in {Wait, Patrol, Chase}
      && (r.currentState == Wait ==> r.nav == s.nav && r.waitTimer == s.waitTimer + inp.dt)
  {
  }

  /** The look-around of a Wait ends once its clock reaches lookAroundTime, not before. */
  lemma WaitLookAroundClock(cfg: GuardConfig, s: GuardState, inp: TickInput)
    requires WellFormed(cfg, s) && s.currentState == Wait && s.isLookingAround
    requires !V.Sees(cfg.vision, s.vision, inp.sight) && !V.Sees(cfg.vision, s.vision, inp.recheck)
    ensures var r := Step(cfg, s, inp);
      && r.lookAroundTimer == s.lookAroundTimer + inp.dt
      && (r.isLookingAround <==> s.lookAroundTimer + inp.dt < cfg.lookAroundTime)
  {
  }

  // ---------------- chasing ----------------

  /** While the player is seen, the chase follows it: the destination and the last-seen
      position are the player's position. */
  lemma ChaseFollowsPlayer(cfg: GuardConfig, s: GuardState, inp: TickInput)
    requires WellFormed(cfg, s) && s.currentState == Chase
    requires V.Sees(cfg.vision, s.vision, inp.sight)
    ensures var r := Step(cfg, s, inp);
      && r.currentState == Chase && !r.isLookingAround
      && Nav.GetDestination(r.nav) == inp.playerPosition
      && r.lastSeenPlayerPosition == inp.playerPosition
  {
  }

  /** Once the player is lost, the guard heads for the last-seen position until it arrives
      within 0.5. */
  lemma ChaseHeadsForLastSeen(cfg: GuardConfig, s: GuardState, inp: TickInput)
    requires WellFormed(cfg, s) && s.currentState == Chase
    requires !V.Sees(cfg.vision, s.vision, inp.sight)
    requires !Nav.Reached(s.nav, inp.navReading, PursuitArrival)
    ensures var r := Step(cfg, s, inp);
      && r.currentState == Chase
      && Nav.GetDestination(r.nav) == s.lastSeenPlayerPosition
      && r.lastSeenPlayerPosition == s.lastSeenPlayerPosition
  {
  }

  /** Chase ends exactly when, without seeing the player on either look and with the agent
      within 0.5 of its current destination, the look-around there has lasted
      lookAroundTime. It always ends in Patrol, with normal vision, a zeroed look-around
      clock and the next patrol point. The destination need not be the last-seen point:
      see StaleDestinationEndsChase. */
  lemma ChaseEndsOnlyAfterLookAround(cfg: GuardConfig, s: GuardState, inp: TickInput)
    requires WellFormed(cfg, s) && s.currentState == Chase
    ensures var r := Step(cfg, s, inp);
      && (r.currentState != Chase <==>
            && !V.Sees(cfg.vision, s.vision, inp.sight)
            && Nav.Reached(s.nav, inp.navReading, PursuitArrival)
            && !V.Sees(cfg.vision, s.vision, inp.recheck)
            && (if s.isLookingAround then s.lookAroundTimer else 0.0) + inp.dt >= cfg.lookAroundTime)
      && (r.currentState != Chase ==>
            && r.currentState == Patrol
            && r.vision == V.Awakened(cfg.vision)
            && !r.isLookingAround && r.lookAroundTimer == 0.0
            && r.nav == Nav.NextPoint(cfg.patrolPoints, s.nav))
  {
  }

  /** As written, the chase can end without ever heading for where the player was seen.
      StartChase does not retarget the agent, and the lost-sight branch tests arrival before
      it retargets. A guard that spots the player on its second look during a Wait
      look-around chases with the agent still aimed at the point it waited at; if the agent
      reports arrival there on the next frame, the look-around runs at that point, and once
      lookAroundTime has passed the chase ends with no MoveTo(lastSeenPlayerPosition). */
  lemma StaleDestinationEndsChase(cfg: GuardConfig, s: GuardState, inp1: TickInput, inp2: TickInput)
    requires WellFormed(cfg, s) && s.currentState == Wait && s.isLookingAround
    requires cfg.vision.hasPlayerHead && s.nav.destinationSet
    requires !V.Sees(cfg.vision, s.vision, inp1.sight) && V.Sees(cfg.vision, s.vision, inp1.recheck)
    requires !V.Sees(cfg.vision, V.ChaseMode(cfg.vision, true), inp2.sight)
    requires !V.Sees(cfg.vision, V.ChaseMode(cfg.vision, true), inp2.recheck)
    requires !inp2.navReading.pathPending && inp2.navReading.remainingDistance < PursuitArrival
    requires inp2.dt >= cfg.lookAroundTime
    ensures var c := Step(cfg, s, inp1);
      && c.currentState == Chase
      && c.lastSeenPlayerPosition == inp1.playerPosition
      && c.nav == s.nav
    ensures var r := Step(cfg, Step(cfg, s, inp1), inp2);
      && r.currentState == Patrol
      && r.nav == Nav.NextPoint(cfg.patrolPoints, s.nav)
  {
    var c := Step(cfg, s, inp1);
    LookAroundSightingStartsChase(cfg, s, inp1);
    assert c.currentState == Chase && c.nav == s.nav;
    ChaseEndsOnlyAfterLookAround(cfg, c, inp2);
  }

  // ---------------- start-up ----------------

  /** As written, a route of two or more points is started at its second point: the two
      Start methods each advance the cursor once. */
  lemma StartupSkipsFirstPoint(cfg: GuardConfig)
    requires |cfg.patrolPoints| >= 2
    ensures StartedAsWritten(cfg).nav.currentDestination == cfg.patrolPoints[1]
    ensures StartedAsWritten(cfg).nav.currentPoint == 2 % |cfg.patrolPoints|
  {
  }

  /** Started heads for the first point and leaves the cursor on the second; on routes of
      at most one point it agrees with the start-up as written. */
  lemma StartupHeadsForFirstPoint(cfg: GuardConfig)
    ensures |cfg.patrolPoints| > 0 ==>
      Started(cfg).nav.currentDestination == cfg.patrolPoints[0]
      && Started(cfg).nav.currentPoint == 1 % |cfg.patrolPoints|
    ensures |cfg.patrolPoints| <= 1 ==> Started(cfg) == StartedAsWritten(cfg)
  {
  }

  /** The state names reported to collaborators tell the states apart. */
  lemma StateNamesDistinct(a: State, b: State)
    requires a != b
    ensures StateName(a) != StateName(b)
  {
  }
}
