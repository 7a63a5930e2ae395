/** AI_Navigation: the patrol route cursor and the destination bookkeeping wrapped around
    Unity's NavMeshAgent. The agent's path planner is outside the model: what it reports
    each frame (pathPending, remainingDistance) is an input. */
module Navigation {
  import opened Space

  /** The default threshold of ReachedDestination, used for patrol arrival. */
  const PatrolArrival: real := 0.3

  /** The fields the component updates: currentPoint, currentDestination, destinationSet. */
  datatype NavState = NavState(currentPoint: int, currentDestination: Vec3, destinationSet: bool)

  /** What the NavMeshAgent reports this frame. */
  datatype NavReading = NavReading(pathPending: bool, remainingDistance: real)

  /** currentPoint indexes the patrol route, and stays 0 when the route is empty. */
  predicate CursorInRange(points: seq<Vec3>, s: NavState) {
    if |points| == 0 then s.currentPoint == 0 else 0 <= s.currentPoint < |points|
  }

  /** The field initialisers: index 0, no destination yet. */
  function Initial(): (s: NavState)
    ensures !s.destinationSet && s.currentPoint == 0
  {
    NavState(0, Origin, false)
  }

  /** GoToNextPoint: head for the current patrol point, then advance the index cyclically.
      With no patrol points nothing happens; with one the index stays where it is. */
  function NextPoint(points: seq<Vec3>, s: NavState): (r: NavState)
    requires CursorInRange(points, s)
    ensures CursorInRange(points, r)
    ensures |points| == 0 ==> r == s
    ensures |points| > 0 ==> r.destinationSet && r.currentDestination == points[s.currentPoint]
    ensures |points| > 0 ==> r.currentPoint == (s.currentPoint + 1) % |points|
    ensures |points| == 1 ==> r.currentPoint == s.currentPoint
  {
    if |points| == 0 then s
    else
      var dest := points[s.currentPoint];
      var next := if |points| > 1 then (s.currentPoint + 1) % |points| else s.currentPoint;
      NavState(next, dest, true)
  }

  /** MoveTo and SetDestination (identical in the source): head for an arbitrary position. */
  function Retarget(s: NavState, position: Vec3): (r: NavState)
    ensures r.destinationSet && GetDestination(r) == position
    ensures r.currentPoint == s.currentPoint
  {
    s.(currentDestination := position, destinationSet := true)
  }

  /** ReturnToPatrol: head for the current patrol point without advancing the index. */
  function Rewind(points: seq<Vec3>, s: NavState): (r: NavState)
    requires CursorInRange(points, s)
    ensures r.currentPoint == s.currentPoint
    ensures |points| == 0 ==> r == s
    ensures |points| > 0 ==> r.destinationSet && r.currentDestination == points[s.currentPoint]
  {
    if |points| == 0 then s
    else s.(currentDestination := points[s.currentPoint], destinationSet := true)
  }

  /** ReachedDestination: never while a path is pending or before any destination was set;
      otherwise the remaining distance must be strictly below the threshold. */
  function Reached(s: NavState, reading: NavReading, threshold: real): (r: bool)
    ensures r <==> !reading.pathPending && s.destinationSet && reading.remainingDistance < threshold
  {
    if reading.pathPending then false
    else if !s.destinationSet then false
    else reading.remainingDistance < threshold
  }

  /** HasDestination reports whether any destination was ever issued. */
  function HasDestination(s: NavState): (r: bool)
    ensures r <==> s.destinationSet
  {
    s.destinationSet
  }

  /** GetDestination reports the last destination issued. */
  function GetDestination(s: NavState): (r: Vec3)
    ensures r == s.currentDestination
  {
    s.currentDestination
  }

  /** k successive calls of GoToNextPoint. */
  function Advance(points: seq<Vec3>, s: NavState, k: nat): (r: NavState)
    requires CursorInRange(points, s)
    ensures CursorInRange(points, r)
  {
    if k == 0 then s else NextPoint(points, Advance(points, s, k - 1))
  }

  /** Successive calls of GoToNextPoint visit the route in order and wrap around: after k
      calls the index is k steps further (modulo the route length) and the destination is
      the point the k-th call targeted. */
  lemma {:induction false} AdvanceVisitsInOrder(points: seq<Vec3>, s: NavState, k: nat)
    requires |points| > 0 && CursorInRange(points, s)
    ensures Advance(points, s, k).currentPoint == (s.currentPoint + k) % |points|
    ensures k > 0 ==> Advance(points, s, k).destinationSet
    ensures k > 0 ==> Advance(points, s, k).currentDestination == points[(s.currentPoint + k - 1) % |points|]
  {
    if k > 0 {
      var n := |points|;
      AdvanceVisitsInOrder(points, s, k - 1);
      var prev := Advance(points, s, k - 1);
      var c := s.currentPoint + k - 1;
      assert prev.currentPoint == c % n;
      assert Advance(points, s, k) == NextPoint(points, prev);
      ModSucc(c, n);
      assert Advance(points, s, k).currentDestination == points[c % n];
    }
  }

  /** From the start of the route, the first lap visits the points in order: the k-th call
      targets point k-1, and after the last point the cursor is back at 0. */
  lemma FirstLapInOrder(points: seq<Vec3>, s: NavState, k: nat)
    requires |points| > 0 && s.currentPoint == 0
    requires 1 <= k <= |points|
    ensures Advance(points, s, k).currentDestination == points[k - 1]
    ensures Advance(points, s, k).currentPoint == if k < |points| then k else 0
  {
    AdvanceVisitsInOrder(points, s, k);
    DivModUnique(k - 1, |points|, 0, k - 1);
    if k < |points| {
      DivModUnique(k, |points|, 0, k);
    } else {
      DivModUnique(k, |points|, 1, 0);
    }
  }

  /** (c mod n + 1) mod n is (c + 1) mod n. */
  lemma ModSucc(c: int, n: int)
    requires n > 0
    ensures (c % n + 1) % n == (c + 1) % n
  {
    var q, r := c / n, c % n;
    assert c == q * n + r;
    if r + 1 < n {
      DivModUnique(r + 1, n, 0, r + 1);
      DivModUnique(c + 1, n, q, r + 1);
    } else {
      DivModUnique(r + 1, n, 1, 0);
      assert c + 1 == (q + 1) * n + 0;
      DivModUnique(c + 1, n, q + 1, 0);
    }
  }

  /** The remainder is determined by any decomposition x == q * n + r with 0 <= r < n. */
  lemma DivModUnique(x: int, n: int, q: int, r: int)
    requires n > 0 && 0 <= r < n && x == q * n + r
    ensures x % n == r
  {
    var q0, r0 := x / n, x % n;
    assert x == q0 * n + r0;
    if q > q0 {
      assert (q - q0) * n == q * n - q0 * n;
      MulAtLeast(q - q0, n);
    } else if q < q0 {
      assert (q0 - q) * n == q0 * n - q * n;
      MulAtLeast(q0 - q, n);
    }
  }

  lemma MulAtLeast(a: int, n: int)
    requires a >= 1 && n > 0
    ensures a * n >= n
  {
  }

  /** A full lap of n calls brings the cursor back to where it started. */
  lemma {:induction false} FullLap(points: seq<Vec3>, s: NavState)
    requires |points| > 0 && CursorInRange(points, s)
    ensures Advance(points, s, |points|).currentPoint == s.currentPoint
  {
    AdvanceVisitsInOrder(points, s, |points|);
    DivModUnique(s.currentPoint + |points|, |points|, 1, s.currentPoint);
  }

  /** With exactly one patrol point the index never moves, however often GoToNextPoint runs. */
  lemma {:induction false} SinglePointStays(points: seq<Vec3>, s: NavState, k: nat)
    requires |points| == 1 && CursorInRange(points, s)
    ensures Advance(points, s, k).currentPoint == 0
    ensures k > 0 ==> Advance(points, s, k).currentDestination == points[0]
  {
    if k > 0 {
      SinglePointStays(points, s, k - 1);
    }
  }

  /** Once set, destinationSet is never cleared by any operation of the component. */
  lemma DestinationStaysSet(points: seq<Vec3>, s: NavState, position: Vec3, k: nat)
    requires CursorInRange(points, s) && HasDestination(s)
    ensures HasDestination(NextPoint(points, s))
    ensures HasDestination(Rewind(points, s))
    ensures HasDestination(Retarget(s, position))
    ensures HasDestination(Advance(points, s, k))
  {
    if k > 0 {
      DestinationStaysSet(points, s, position, k - 1);
    }
  }

  /** The component in place. The patrol route is scene data the component only reads. */
  class PatrolNavigator {
    const patrolPoints: seq<Vec3>
    var currentPoint: int
    var currentDestination: Vec3
    var destinationSet: bool

    function State(): NavState
      reads this
    {
      NavState(currentPoint, currentDestination, destinationSet)
    }

    ghost predicate Valid()
      reads this
    {
      CursorInRange(patrolPoints, State())
    }

    /** Field initialisers and Awake (which only fetches the NavMeshAgent). */
    constructor (points: seq<Vec3>)
      ensures patrolPoints == points
      ensures Valid() && State() == Initial()
    {
      patrolPoints := points;
      currentPoint := 0;
      currentDestination := Origin;
      destinationSet := false;
    }

    /** Start: go to the first point when there is one. */
    method Start()
      requires Valid()
      modifies this
      ensures Valid() && State() == NextPoint(patrolPoints, old(State()))
    {
      if |patrolPoints| > 0 {
        GoToNextPoint();
      }
    }

    method GoToNextPoint()
      requires Valid()
      modifies this
      ensures Valid() && State() == NextPoint(patrolPoints, old(State()))
    {
      if |patrolPoints| == 0 {
        return;
      }
      currentDestination := patrolPoints[currentPoint];
      destinationSet := true;
      if |patrolPoints| > 1 {
        currentPoint := (currentPoint + 1) % |patrolPoints|;
      }
    }

    method MoveTo(position: Vec3)
      requires Valid()
      modifies this
      ensures Valid() && State() == Retarget(old(State()), position)
    {
      currentDestination := position;
      destinationSet := true;
    }

    method ReturnToPatrol()
      requires Valid()
      modifies this
      ensures Valid() && State() == Rewind(patrolPoints, old(State()))
    {
      if |patrolPoints| == 0 {
        return;
      }
      currentDestination := patrolPoints[currentPoint];
      destinationSet := true;
    }

    method SetDestination(position: Vec3)
      requires Valid()
      modifies this
      ensures Valid() && State() == Retarget(old(State()), position)
    {
      currentDestination := position;
      destinationSet := true;
    }

    function ReachedDestination(reading: NavReading, threshold: real): (r: bool)
      reads this
      ensures r == Reached(State(), reading, threshold)
    {
      Reached(State(), reading, threshold)
    }

    function HasDestination(): (r: bool)
      reads this
      ensures r <==> State().destinationSet
    {
      destinationSet
    }

    function GetDestination(): (r: Vec3)
      reads this
      ensures r == State().currentDestination
    {
      currentDestination
    }
  }
}
