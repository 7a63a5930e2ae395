/** AI_Behavior in place: the guard component, its fields updated step by step as the
    source does, each method proved to agree with its transition function in BehaviorModel. */
module Behavior {
  import opened Space
  import Nav = Navigation
  import V = Vision
  import H = Hearing
  import opened BehaviorModel

  class Guard {
    const investigateWait: real
    const lookAroundTime: real
    const lookSpeed: real
    const lookAngle: real

    /** The sibling components fetched in Awake. */
    const nav: Nav.PatrolNavigator
    const vision: V.VisionSensor
    const hearing: H.HearingSensor

    var currentState: State
    var waitTimer: real
    var isInvestigating: bool
    var playerVisible: bool
    var noisePosition: Vec3
    var isLookingAround: bool
    var lookTimer: real
    var lookAroundTimer: real
    var lastSeenPlayerPosition: Vec3

    function Config(): GuardConfig {
      GuardConfig(investigateWait, lookAroundTime, lookSpeed, lookAngle,
                  nav.patrolPoints, vision.Config(), hearing)
    }

    function Snapshot(): GuardState
      reads this, nav, vision
    {
      GuardState(currentState, waitTimer, isInvestigating, playerVisible, noisePosition,
                 isLookingAround, lookTimer, lookAroundTimer, lastSeenPlayerPosition,
                 nav.State(), vision.State())
    }

    ghost predicate Valid()
      reads this, nav
    {
      nav.Valid()
    }

    /** Field initialisers, Awake (wiring the sibling components) and the start of the scene,
        which heads for the first patrol point. */
    constructor (cfg: GuardConfig)
      ensures Config() == cfg
      ensures fresh(nav) && fresh(vision)
      ensures Valid() && Snapshot() == Started(cfg)
    {
      investigateWait := cfg.investigateWait;
      lookAroundTime := cfg.lookAroundTime;
      lookSpeed := cfg.lookSpeed;
      lookAngle := cfg.lookAngle;
      nav := new Nav.PatrolNavigator(cfg.patrolPoints);
      vision := new V.VisionSensor(cfg.vision);
      hearing := cfg.hearing;
      currentState := Patrol;
      waitTimer := 0.0;
      isInvestigating := false;
      playerVisible := false;
      noisePosition := Origin;
      isLookingAround := false;
      lookTimer := 0.0;
      lookAroundTimer := 0.0;
      lastSeenPlayerPosition := Origin;
      new;
      Start();
    }

    method Start()
      requires Valid()
      modifies nav
      ensures Valid() && Snapshot() == old(Snapshot()).(nav := Nav.NextPoint(nav.patrolPoints, old(nav.State())))
    {
      nav.GoToNextPoint();
    }

    /** One frame. */
    method Update(inp: TickInput)
      requires Valid()
      modifies this, nav, vision
      ensures Valid() && Snapshot() == Step(Config(), old(Snapshot()), inp)
    {
      playerVisible := vision.CanSeePlayer(inp.sight);
      match currentState {
        case Patrol => PatrolUpdate(inp);
        case Investigate => InvestigateUpdate(inp);
        case Wait => WaitUpdate(inp);
        case Chase => ChaseUpdate(inp);
      }
    }

    method PatrolUpdate(inp: TickInput)
      requires Valid() && currentState == Patrol
      modifies this, nav, vision
      ensures Valid() && Snapshot() == PatrolStep(Config(), old(Snapshot()), inp)
    {
      if playerVisible {
        StartChase(inp.playerPosition);
        return;
      }
      if nav.ReachedDestination(inp.navReading, Nav.PatrolArrival) {
        currentState := Wait;
        waitTimer := 0.0;
        isInvestigating := false;
        StartLookAround();
      }
    }

    method InvestigateUpdate(inp: TickInput)
      requires Valid() && currentState == Investigate
      modifies this, nav, vision
      ensures Valid() && Snapshot() == InvestigateStep(Config(), old(Snapshot()), inp)
    {
      if playerVisible {
        StartChase(inp.playerPosition);
        return;
      }
      if nav.ReachedDestination(inp.navReading, PursuitArrival) {
        currentState := Wait;
        isInvestigating := true;
        waitTimer := 0.0;
        StartLookAround();
      }
    }

    method WaitUpdate(inp: TickInput)
      requires Valid() && currentState == Wait
      modifies this, nav, vision
      ensures Valid() && Snapshot() == WaitStep(Config(), old(Snapshot()), inp)
    {
      if playerVisible {
        StartChase(inp.playerPosition);
        return;
      }
      waitTimer := waitTimer + inp.dt;
      if isLookingAround {
        LookAround(inp.dt);
        lookAroundTimer := lookAroundTimer + inp.dt;
        if vision.CanSeePlayer(inp.recheck) {
          StartChase(inp.playerPosition);
          return;
        }
        if lookAroundTimer >= lookAroundTime {
          isLookingAround := false;
        }
      }
      if !isLookingAround && waitTimer >= investigateWait {
        isInvestigating := false;
        currentState := Patrol;
        nav.GoToNextPoint();
      }
    }

    method ChaseUpdate(inp: TickInput)
      requires Valid() && currentState == Chase
      modifies this, nav, vision
      ensures Valid() && Snapshot() == ChaseStep(Config(), old(Snapshot()), inp)
    {
      var player := vision.GetPlayer(inp.playerPosition);
      if playerVisible && player.Some? {
        nav.MoveTo(player.value);
        isLookingAround := false;
        lastSeenPlayerPosition := player.value;
      } else {
        if !nav.ReachedDestination(inp.navReading, PursuitArrival) {
          nav.MoveTo(lastSeenPlayerPosition);
        } else {
          if !isLookingAround {
            StartLookAround();
          }
          if isLookingAround {
            LookAround(inp.dt);
            lookAroundTimer := lookAroundTimer + inp.dt;
            if vision.CanSeePlayer(inp.recheck) {
              StartChase(inp.playerPosition);
              return;
            }
            if lookAroundTimer >= lookAroundTime {
              isLookingAround := false;
              StopChase();
              return;
            }
          }
        }
      }
    }

    /** The callback a NoiseEmitter calls; `e` is what the engine reports between this guard
        and the noise. */
    method HearNoise(position: Vec3, e: H.Earshot)
      requires Valid()
      modifies this, nav
      ensures Valid() && Snapshot() == Heard(Config(), old(Snapshot()), position, e)
    {
      if currentState != Chase && H.CanHear(hearing, e) {
        noisePosition := position;
        currentState := Investigate;
        nav.MoveTo(noisePosition);
        isInvestigating := true;
        waitTimer := 0.0;
      }
    }

    method StartChase(head: Vec3)
      requires Valid()
      modifies this, vision
      ensures Valid() && Snapshot() == EnterChase(Config(), old(Snapshot()), head)
    {
      currentState := Chase;
      vision.SetChaseMode(true);
      isLookingAround := false;
      var player := vision.GetPlayer(head);
      if player.Some? {
        lastSeenPlayerPosition := player.value;
      }
    }

    method StopChase()
      requires Valid()
      modifies this, nav, vision
      ensures Valid() && Snapshot() == LeaveChase(Config(), old(Snapshot()))
    {
      vision.SetChaseMode(false);
      currentState := Patrol;
      nav.GoToNextPoint();
      isLookingAround := false;
      lookAroundTimer := 0.0;
    }

    method StartLookAround()
      modifies this
      ensures Snapshot() == BeginLookAround(old(Snapshot()))
    {
      if isLookingAround {
        return;
      }
      isLookingAround := true;
      lookTimer := 0.0;
      lookAroundTimer := 0.0;
    }

    /** The timer part of LookAround; the head rotation is left out. */
    method LookAround(dt: real)
      modifies this
      ensures Snapshot() == old(Snapshot()).(lookTimer := old(lookTimer) + dt * lookSpeed)
    {
      lookTimer := lookTimer + dt * lookSpeed;
    }

    function GetCurrentStateName(): (r: string)
      reads this
      ensures r == StateName(Snapshot().currentState)
    {
      StateName(currentState)
    }
  }
}
