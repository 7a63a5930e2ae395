/** AI_Vision: the guard's view cone. Chase mode doubles both the view radius and the
    view angle; clearing it restores the base values. */
module Vision {
  import opened Space

  /** The inspector configuration: the base cone and whether playerHead was assigned. */
  datatype VisionConfig = VisionConfig(viewRadius: real, viewAngle: real, hasPlayerHead: bool)

  /** The fields the component updates: currentViewRadius, currentViewAngle, isChasing. */
  datatype VisionState = VisionState(currentViewRadius: real, currentViewAngle: real, isChasing: bool)

  /** What the engine reports for one vision query: Vector3.Distance from the eye to the
      player's head, Vector3.Angle between the look direction and the direction to the head,
      and whether the obstacle ray from the eye to the head hit something. */
  datatype Percept = Percept(distance: real, angle: real, rayHit: bool)

  /** The state after Awake: the cone is the base cone, chase mode is off. */
  function Awakened(cfg: VisionConfig): (s: VisionState)
    ensures s.currentViewRadius == cfg.viewRadius && s.currentViewAngle == cfg.viewAngle
    ensures !s.isChasing
  {
    VisionState(cfg.viewRadius, cfg.viewAngle, false)
  }

  /** The state SetChaseMode(chasing) leaves behind. It does not depend on the state before. */
  function ChaseMode(cfg: VisionConfig, chasing: bool): (s: VisionState)
    ensures s.isChasing == chasing
    ensures chasing ==> s.currentViewRadius == 2.0 * cfg.viewRadius && s.currentViewAngle == 2.0 * cfg.viewAngle
    ensures !chasing ==> s == Awakened(cfg)
  {
    VisionState(if chasing then cfg.viewRadius * 2.0 else cfg.viewRadius,
                if chasing then cfg.viewAngle * 2.0 else cfg.viewAngle,
                chasing)
  }

  /** The invariant of the component: the current cone is the one its chase flag calls for. */
  predicate Consistent(cfg: VisionConfig, s: VisionState) {
    s == ChaseMode(cfg, s.isChasing)
  }

  /** CanSeePlayer: no head, no sight; otherwise the player must be strictly inside the
      radius and strictly inside half the view angle, with no obstacle on the ray. */
  function Sees(cfg: VisionConfig, s: VisionState, p: Percept): (r: bool)
    ensures r ==> cfg.hasPlayerHead
    ensures r <==> cfg.hasPlayerHead && p.distance < s.currentViewRadius
                   && p.angle < s.currentViewAngle / 2.0 && !p.rayHit
  {
    if !cfg.hasPlayerHead then false
    else if p.distance < s.currentViewRadius && p.angle < s.currentViewAngle / 2.0 then !p.rayHit
    else false
  }

  /** GetPlayer: the head transform, when one is assigned; its position comes from the engine. */
  function PlayerPosition(cfg: VisionConfig, head: Vec3): (r: Option<Vec3>)
    ensures r.Some? <==> cfg.hasPlayerHead
    ensures r.Some? ==> r.value == head
  {
    if cfg.hasPlayerHead then Some(head) else None
  }

  /** Awake leaves the component consistent, with the base cone. */
  lemma AwakeIsBaseCone(cfg: VisionConfig)
    ensures Consistent(cfg, Awakened(cfg))
    ensures Awakened(cfg) == ChaseMode(cfg, false)
  {
  }

  /** Switching chase mode on and then off again restores exactly the state after Awake,
      and setting the same flag twice changes nothing. */
  lemma ChaseModeRoundTrip(cfg: VisionConfig, chasing: bool)
    ensures ChaseMode(cfg, false) == Awakened(cfg)
    ensures Consistent(cfg, ChaseMode(cfg, chasing))
    ensures ChaseMode(cfg, chasing).isChasing == chasing
  {
  }

  /** The boundary of the cone is excluded: at exactly the radius, or at exactly half the
      view angle, the player is not seen. */
  lemma BoundaryIsInvisible(cfg: VisionConfig, s: VisionState, p: Percept)
    requires p.distance == s.currentViewRadius || p.angle == s.currentViewAngle / 2.0
    ensures !Sees(cfg, s, p)
  {
  }

  /** Chase mode only widens sight: with a non-negative base cone, whatever is seen in the
      normal cone is seen in the chase cone. */
  lemma ChaseConeContainsBaseCone(cfg: VisionConfig, p: Percept)
    requires cfg.viewRadius >= 0.0 && cfg.viewAngle >= 0.0
    requires Sees(cfg, ChaseMode(cfg, false), p)
    ensures Sees(cfg, ChaseMode(cfg, true), p)
  {
  }

  /** The component in place: the base cone is configuration, the current cone is state. */
  class VisionSensor {
    const viewRadius: real
    const viewAngle: real
    const hasPlayerHead: bool

    var currentViewRadius: real
    var currentViewAngle: real
    var isChasing: bool

    function Config(): VisionConfig {
      VisionConfig(viewRadius, viewAngle, hasPlayerHead)
    }

    function State(): VisionState
      reads this
    {
      VisionState(currentViewRadius, currentViewAngle, isChasing)
    }

    /** Field defaults followed by Awake. */
    constructor (cfg: VisionConfig)
      ensures Config() == cfg
      ensures State() == Awakened(cfg)
    {
      viewRadius, viewAngle, hasPlayerHead := cfg.viewRadius, cfg.viewAngle, cfg.hasPlayerHead;
      isChasing := false;
      currentViewRadius := cfg.viewRadius;
      currentViewAngle := cfg.viewAngle;
    }

    method SetChaseMode(chasing: bool)
      modifies this
      ensures State() == ChaseMode(Config(), chasing)
    {
      isChasing := chasing;
      currentViewRadius := if chasing then viewRadius * 2.0 else viewRadius;
      currentViewAngle := if chasing then viewAngle * 2.0 else viewAngle;
    }

    function CanSeePlayer(p: Percept): (r: bool)
      reads this
      ensures r == Sees(Config(), State(), p)
    {
      Sees(Config(), State(), p)
    }

    function GetPlayer(head: Vec3): (r: Option<Vec3>)
      ensures r == PlayerPosition(Config(), head)
    {
      PlayerPosition(Config(), head)
    }
  }
}
