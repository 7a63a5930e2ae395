/** AI_Behavior as a value-level state machine: the guard's fields, the per-frame Update
    and the HearNoise callback as pure transition functions. The class Behavior.Guard runs
    the same logic in place and is proved to agree with these functions. */
module BehaviorModel {
  import opened Space
  import Nav = Navigation
  import V = Vision
  import H = Hearing

  /** The looser arrival threshold used while investigating and chasing. */
  const PursuitArrival: real := 0.5

  datatype State = Patrol | Investigate | Wait | Chase

  /** Configuration: the guard's inspector fields and those of its sibling components. */
  datatype GuardConfig = GuardConfig(
    investigateWait: real,
    lookAroundTime: real,
    lookSpeed: real,
    lookAngle: real,
    patrolPoints: seq<Vec3>,
    vision: V.VisionConfig,
    hearing: H.HearingSensor)

  /** Everything the guard's Update can change: its own fields and the mutable fields of
      its navigation and vision components. (The look-around base rotation is left out.) */
  datatype GuardState = GuardState(
    currentState: State,
    waitTimer: real,
    isInvestigating: bool,
    playerVisible: bool,
    noisePosition: Vec3,
    isLookingAround: bool,
    lookTimer: real,
    lookAroundTimer: real,
    lastSeenPlayerPosition: Vec3,
    nav: Nav.NavState,
    vision: V.VisionState)

  /** What the engine supplies for one frame: Time.deltaTime, the player's head position,
      the vision query at the start of Update, the second vision query made after the
      look-around has turned the head, and the NavMeshAgent's report. */
  datatype TickInput = TickInput(
    dt: real,
    playerPosition: Vec3,
    sight: V.Percept,
    recheck: V.Percept,
    navReading: Nav.NavReading)

  /** The state Step and HearNoise need: the patrol cursor indexes the route. */
  predicate WellFormed(cfg: GuardConfig, s: GuardState) {
    Nav.CursorInRange(cfg.patrolPoints, s.nav)
  }

  /** The guard before any Start method runs: field initialisers and Awake. */
  function Fresh(cfg: GuardConfig): (s: GuardState)
    ensures WellFormed(cfg, s)
    ensures s.currentState == Patrol && !s.isLookingAround && !s.vision.isChasing
  {
    GuardState(Patrol, 0.0, false, false, Origin, false, 0.0, 0.0, Origin,
               Nav.Initial(), V.Awakened(cfg.vision))
  }

  /** The state after the scene starts, as written: AI_Navigation.Start and AI_Behavior.Start
      each call GoToNextPoint, so the cursor is advanced twice. */
  function StartedAsWritten(cfg: GuardConfig): (s: GuardState)
    ensures WellFormed(cfg, s)
  {
    var s0 := Fresh(cfg);
    s0.(nav := Nav.NextPoint(cfg.patrolPoints, Nav.NextPoint(cfg.patrolPoints, s0.nav)))
  }

  /** The state after the scene starts, as both Start methods mean it: the guard heads for
      the first patrol point (GoToNextPoint once). */
  function Started(cfg: GuardConfig): (s: GuardState)
    ensures WellFormed(cfg, s)
    ensures |cfg.patrolPoints| > 0 ==> s.nav.destinationSet && s.nav.currentDestination == cfg.patrolPoints[0]
    ensures |cfg.patrolPoints| == 0 ==> !s.nav.destinationSet
  {
    var s0 := Fresh(cfg);
    s0.(nav := Nav.NextPoint(cfg.patrolPoints, s0.nav))
  }

  // ---------------- look-around ----------------

  /** StartLookAround: a no-op while a look-around runs; otherwise starts one with both
      timers at zero. */
  function BeginLookAround(s: GuardState): (r: GuardState)
    ensures r.isLookingAround
  {
    if s.isLookingAround then s
    else s.(isLookingAround := true, lookTimer := 0.0, lookAroundTimer := 0.0)
  }

  /** The timer part of LookAround together with the look-around clock that its callers
      advance right after it. The head rotation itself is left out. */
  function Sweep(cfg: GuardConfig, s: GuardState, dt: real): (r: GuardState)
    ensures r.lookAroundTimer == s.lookAroundTimer + dt
  {
    s.(lookTimer := s.lookTimer + dt * cfg.lookSpeed, lookAroundTimer := s.lookAroundTimer + dt)
  }

  // ---------------- transitions ----------------

  /** StartChase: chase state, chase-mode vision, no look-around; remember where the player
      is when the head transform is assigned. */
  function EnterChase(cfg: GuardConfig, s: GuardState, head: Vec3): (r: GuardState)
    ensures r.currentState == Chase && !r.isLookingAround
    ensures r.vision == V.ChaseMode(cfg.vision, true)
    ensures r.nav == s.nav
  {
    var player := V.PlayerPosition(cfg.vision, head);
    s.(currentState := Chase,
       vision := V.ChaseMode(cfg.vision, true),
       isLookingAround := false,
       lastSeenPlayerPosition := if player.Some? then player.value else s.lastSeenPlayerPosition)
  }

  /** StopChase: back to patrol with normal vision, heading for the next patrol point. */
  function LeaveChase(cfg: GuardConfig, s: GuardState): (r: GuardState)
    requires WellFormed(cfg, s)
    ensures r.currentState == Patrol && !r.isLookingAround && r.lookAroundTimer == 0.0
    ensures r.vision == V.Awakened(cfg.vision)
    ensures r.nav == Nav.NextPoint(cfg.patrolPoints, s.nav)
  {
    s.(vision := V.ChaseMode(cfg.vision, false),
       currentState := Patrol,
       nav := Nav.NextPoint(cfg.patrolPoints, s.nav),
       isLookingAround := false,
       lookAroundTimer := 0.0)
  }

  /** PatrolUpdate: a sighting starts a chase; arrival at the patrol point starts a wait
      with a look-around; otherwise nothing changes. */
  function PatrolStep(cfg: GuardConfig, s: GuardState, inp: TickInput): (r: GuardState)
    requires WellFormed(cfg, s) && s.currentState == Patrol
    ensures r.currentState == Chase <==> s.playerVisible
    ensures r.currentState == Wait <==> !s.playerVisible && Nav.Reached(s.nav, inp.navReading, Nav.PatrolArrival)
    ensures r.currentState == Wait ==>
              r.isLookingAround && r.waitTimer == 0.0 && !r.isInvestigating && r.nav == s.nav
    ensures r.currentState == Wait && s.isLookingAround ==>
              r.lookAroundTimer == s.lookAroundTimer && r.lookTimer == s.lookTimer
    ensures r.currentState == Wait && !s.isLookingAround ==>
              r.lookAroundTimer == 0.0 && r.lookTimer == 0.0
    ensures r.currentState == Patrol ==> r == s
  {
    if s.playerVisible then EnterChase(cfg, s, inp.playerPosition)
    else if Nav.Reached(s.nav, inp.navReading, Nav.PatrolArrival) then
      BeginLookAround(s.(currentState := Wait, waitTimer := 0.0, isInvestigating := false))
    else s
  }

  /** InvestigateUpdate: a sighting starts a chase; arrival at the noise starts a wait,
      and a look-around that was already running keeps its clock; otherwise nothing changes. */
  function InvestigateStep(cfg: GuardConfig, s: GuardState, inp: TickInput): (r: GuardState)
    requires WellFormed(cfg, s) && s.currentState == Investigate
    ensures r.currentState == Chase <==> s.playerVisible
    ensures r.currentState == Wait <==> !s.playerVisible && Nav.Reached(s.nav, inp.navReading, PursuitArrival)
    ensures r.currentState == Wait ==>
              r.isLookingAround && r.waitTimer == 0.0 && r.isInvestigating && r.nav == s.nav
    ensures r.currentState == Wait && s.isLookingAround ==>
              r.lookAroundTimer == s.lookAroundTimer && r.lookTimer == s.lookTimer
    ensures r.currentState == Wait && !s.isLookingAround ==>
              r.lookAroundTimer == 0.0 && r.lookTimer == 0.0
    ensures r.currentState == Investigate ==> r == s
  {
    if s.playerVisible then EnterChase(cfg, s, inp.playerPosition)
    else if Nav.Reached(s.nav, inp.navReading, PursuitArrival) then
      BeginLookAround(s.(currentState := Wait, isInvestigating := true, waitTimer := 0.0))
    else s
  }

  /** The end of WaitUpdate: back to patrol, and on to the next point, once the look-around
      is over and the wait has lasted long enough. */
  function FinishWait(cfg: GuardConfig, s: GuardState): (r: GuardState)
    requires WellFormed(cfg, s) && s.currentState == Wait
    ensures r.currentState == Patrol <==> !s.isLookingAround && s.waitTimer >= cfg.investigateWait
    ensures r.currentState == Patrol ==>
              !r.isInvestigating && r.nav == Nav.NextPoint(cfg.patrolPoints, s.nav)
    ensures r.currentState != Patrol ==> r == s
  {
    if !s.isLookingAround && s.waitTimer >= cfg.investigateWait then
      s.(isInvestigating := false, currentState := Patrol,
         nav := Nav.NextPoint(cfg.patrolPoints, s.nav))
    else s
  }

  /** WaitUpdate: a sighting, or a sighting by the second look during the look-around,
      starts a chase; otherwise the wait timer runs and the wait may end in patrol. */
  function WaitStep(cfg: GuardConfig, s: GuardState, inp: TickInput): (r: GuardState)
    requires WellFormed(cfg, s) && s.currentState == Wait
    ensures r.currentState in {Wait, Patrol, Chase}
    ensures r.currentState == Chase <==>
              s.playerVisible || (s.isLookingAround && V.Sees(cfg.vision, s.vision, inp.recheck))
    ensures r.currentState != Chase ==> r.waitTimer == s.waitTimer + inp.dt && r.vision == s.vision
  {
    if s.playerVisible then EnterChase(cfg, s, inp.playerPosition)
    else
      var s1 := s.(waitTimer := s.waitTimer + inp.dt);
      if s1.isLookingAround then
        var s2 := Sweep(cfg, s1, inp.dt);
        if V.Sees(cfg.vision, s2.vision, inp.recheck) then EnterChase(cfg, s2, inp.playerPosition)
        else
          var s3 := if s2.lookAroundTimer >= cfg.lookAroundTime then s2.(isLookingAround := false) else s2;
          FinishWait(cfg, s3)
      else FinishWait(cfg, s1)
  }

  /** ChaseUpdate. The source starts a look-around only when none runs and then tests that
      one runs; since StartLookAround is itself a no-op while one runs and always leaves one
      running, both tests are folded into BeginLookAround. */
  function ChaseStep(cfg: GuardConfig, s: GuardState, inp: TickInput): (r: GuardState)
    requires WellFormed(cfg, s) && s.currentState == Chase
    ensures r.currentState == Chase || r.currentState == Patrol
    ensures r.currentState == Patrol ==> r.vision == V.Awakened(cfg.vision) && !r.isLookingAround
    ensures s.playerVisible && cfg.vision.hasPlayerHead ==>
              r.currentState == Chase && Nav.GetDestination(r.nav) == inp.playerPosition
              && r.lastSeenPlayerPosition == inp.playerPosition
  {
    var player := V.PlayerPosition(cfg.vision, inp.playerPosition);
    if s.playerVisible && player.Some? then
      s.(nav := Nav.Retarget(s.nav, player.value),
         isLookingAround := false,
         lastSeenPlayerPosition := player.value)
    else if !Nav.Reached(s.nav, inp.navReading, PursuitArrival) then
      s.(nav := Nav.Retarget(s.nav, s.lastSeenPlayerPosition))
    else
      var s2 := Sweep(cfg, BeginLookAround(s), inp.dt);
      if V.Sees(cfg.vision, s2.vision, inp.recheck) then EnterChase(cfg, s2, inp.playerPosition)
      else if s2.lookAroundTimer >= cfg.lookAroundTime then LeaveChase(cfg, s2.(isLookingAround := false))
      else s2
  }

  /** Update: query vision once, then dispatch on the current state. */
  function Step(cfg: GuardConfig, s: GuardState, inp: TickInput): (r: GuardState)
    requires WellFormed(cfg, s)
    ensures WellFormed(cfg, r)
  {
    var s0 := s.(playerVisible := V.Sees(cfg.vision, s.vision, inp.sight));
    match s.currentState
    case Patrol => PatrolStep(cfg, s0, inp)
    case Investigate => InvestigateStep(cfg, s0, inp)
    case Wait => WaitStep(cfg, s0, inp)
    case Chase => ChaseStep(cfg, s0, inp)
  }

  /** HearNoise: outside Chase, an audible noise sends the guard to investigate it, whatever
      it was doing; anything else is ignored. */
  function Heard(cfg: GuardConfig, s: GuardState, position: Vec3, e: H.Earshot): (r: GuardState)
    ensures r.currentState != Chase || r == s
  {
    if s.currentState != Chase && H.CanHear(cfg.hearing, e) then
      s.(noisePosition := position,
         currentState := Investigate,
         nav := Nav.Retarget(s.nav, position),
         isInvestigating := true,
         waitTimer := 0.0)
    else s
  }

  /** GetCurrentStateName: the enum's name. */
  function StateName(st: State): (r: string)
    ensures r == "Patrol" <==> st == Patrol
    ensures r == "Investigate" <==> st == Investigate
    ensures r == "Wait" <==> st == Wait
    ensures r == "Chase" <==> st == Chase
  {
    match st
    case Patrol => "Patrol"
    case Investigate => "Investigate"
    case Wait => "Wait"
    case Chase => "Chase"
  }
}
