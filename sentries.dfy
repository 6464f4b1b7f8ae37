// SentriesGoal: a fast patrol of the SENTRIES waypoints that prefers
// waypoints not yet visited on the current circuit, with short random rests,
// or a free roam around the marker when there are no waypoints.

module Sentries {
  import opened Types
  import opened Capability
  import Mobs

  /** The i-th index examined when scanning cyclically after `current`. */
  function Cyclic(current: int, i: int, n: int): int
    requires n > 0
  {
    (current + 1 + i) % n
  }

  /** The scan of `selectNextWaypoint` from its i-th step on. */
  function ScanFrom(ws: seq<Pos>, visited: set<Pos>, current: int, i: nat): (r: int)
    requires 0 <= current < |ws| && i <= |ws|
    ensures 0 <= r < |ws|
    decreases |ws| - i
  {
    if i == |ws| then Cyclic(current, 0, |ws|)
    else
      var index := Cyclic(current, i, |ws|);
      if ws[index] !in visited then index else ScanFrom(ws, visited, current, i + 1)
  }

  /** `selectNextWaypoint`. */
  function NextWaypointIndex(ws: seq<Pos>, visited: set<Pos>, current: int): int
    requires 0 <= current < |ws|
  {
    ScanFrom(ws, visited, current, 0)
  }

  lemma {:induction false} ScanFromFirstUnvisited(ws: seq<Pos>, visited: set<Pos>, current: int, k: nat)
    requires 0 <= current < |ws| && k <= |ws|
    ensures (forall i :: k <= i < |ws| ==> ws[Cyclic(current, i, |ws|)] in visited) ==>
              ScanFrom(ws, visited, current, k) == Cyclic(current, 0, |ws|)
    ensures (exists i :: k <= i < |ws| && ws[Cyclic(current, i, |ws|)] !in visited) ==>
              ws[ScanFrom(ws, visited, current, k)] !in visited &&
              exists i :: k <= i < |ws| && ScanFrom(ws, visited, current, k) == Cyclic(current, i, |ws|) &&
                          (forall j :: k <= j < i ==> ws[Cyclic(current, j, |ws|)] in visited)
    decreases |ws| - k
  {
    if k < |ws| {
      ScanFromFirstUnvisited(ws, visited, current, k + 1);
      var r := ScanFrom(ws, visited, current, k);
      if ws[Cyclic(current, k, |ws|)] in visited {
        if exists i :: k <= i < |ws| && ws[Cyclic(current, i, |ws|)] !in visited {
          var i :| k <= i < |ws| && ws[Cyclic(current, i, |ws|)] !in visited;
          assert k + 1 <= i;
          var i' :| k + 1 <= i' < |ws| && r == Cyclic(current, i', |ws|) &&
                    (forall j :: k + 1 <= j < i' ==> ws[Cyclic(current, j, |ws|)] in visited);
          assert forall j :: k <= j < i' ==> ws[Cyclic(current, j, |ws|)] in visited;
        }
      }
    }
  }

  /** A sum below two laps wraps at most once. */
  lemma ModWrap(x: int, n: int)
    requires 0 < n && 0 <= x < 2 * n
    ensures x % n == if x < n then x else x - n
  {
  }

  /** Every index is reached by the cyclic scan, the current one last. */
  lemma CyclicCovers(current: int, j: int, n: int)
    requires 0 <= current < n && 0 <= j < n
    ensures Cyclic(current, n - 1, n) == current
    ensures exists i :: 0 <= i < n && Cyclic(current, i, n) == j
  {
    ModWrap(current + n, n);
    if j > current {
      ModWrap(j, n);
      assert Cyclic(current, j - current - 1, n) == j;
    } else {
      ModWrap(j + n, n);
      assert Cyclic(current, j + n - current - 1, n) == j;
    }
  }

  /** The next waypoint is the first unvisited one in cyclic order after the
      current index (the current index itself is examined last), or simply
      the following one when every waypoint is visited. */
  lemma NextWaypointIndexSpec(ws: seq<Pos>, visited: set<Pos>, current: int)
    requires 0 <= current < |ws|
    ensures 0 <= NextWaypointIndex(ws, visited, current) < |ws|
    ensures Cyclic(current, |ws| - 1, |ws|) == current
    ensures (forall p :: p in ws ==> p in visited) ==> NextWaypointIndex(ws, visited, current) == (current + 1) % |ws|
    ensures (exists p :: p in ws && p !in visited) ==>
              ws[NextWaypointIndex(ws, visited, current)] !in visited &&
              exists i :: 0 <= i < |ws| && NextWaypointIndex(ws, visited, current) == Cyclic(current, i, |ws|) &&
                          (forall j :: 0 <= j < i ==> ws[Cyclic(current, j, |ws|)] in visited)
  {
    ScanFromFirstUnvisited(ws, visited, current, 0);
    CyclicCovers(current, current, |ws|);
    if exists p :: p in ws && p !in visited {
      var p :| p in ws && p !in visited;
      var j :| 0 <= j < |ws| && ws[j] == p;
      CyclicCovers(current, j, |ws|);
    }
  }

  /** The positions in a waypoint list. */
  function Elements(ws: seq<Pos>): set<Pos>
  {
    set p | p in ws
  }

  lemma {:induction false} ElementsBound(ws: seq<Pos>)
    ensures |Elements(ws)| <= |ws|
  {
    if ws != [] {
      var init := ws[..|ws| - 1];
      ElementsBound(init);
      assert Elements(ws) == Elements(init) + {ws[|ws| - 1]};
    }
  }

  /** The arrival update of the visited set: add the target, and start a new
      circuit once the set is as large as the list. */
  function MarkVisited(visited: set<Pos>, target: Pos, n: nat): set<Pos>
  {
    var v := visited + {target};
    if |v| >= n then {} else v
  }

  /** After an arrival the visited set stays within the list and below its
      length, and it is cleared exactly when every waypoint has been visited
      and no position occurs twice in the list: with a repeated position the
      circuit never restarts. */
  lemma MarkVisitedCircuit(ws: seq<Pos>, visited: set<Pos>, target: Pos)
    requires visited <= Elements(ws) && target in ws
    ensures MarkVisited(visited, target, |ws|) <= Elements(ws)
    ensures |MarkVisited(visited, target, |ws|)| < |ws|
    ensures MarkVisited(visited, target, |ws|) == {} <==>
            visited + {target} == Elements(ws) && |Elements(ws)| == |ws|
  {
    ElementsBound(ws);
    var v := visited + {target};
    assert v <= Elements(ws);
    if v < Elements(ws) {
      var x :| x in Elements(ws) && x !in v;
      assert Elements(ws) == v + (Elements(ws) - v);
      assert x in Elements(ws) - v;
      assert |Elements(ws)| == |v| + |Elements(ws) - v|;
    }
  }

  /** The goal's fields, together with where the mob's navigation heads. */
  datatype SentriesState = SentriesState(
    waypoints: seq<Pos>,
    index: int,
    visited: set<Pos>,
    center: Option<Pos>,
    restCooldown: int,
    resting: bool,
    destination: Option<Pos>)

  /** The engine's answers during one tick: the two rest rolls combined, the
      rest-length draw in [0, 40), arrival within 2 blocks of the current
      waypoint, whether navigation is done, whether a path was created and
      accepted, and for free roam whether the mob strayed beyond 1.5 radii
      and the random point chosen around the centre. */
  datatype TickInput = TickInput(
    restRoll: bool,
    restDraw: int,
    arrived: bool,
    navDone: bool,
    pathFound: bool,
    accepted: bool,
    tooFar: bool,
    roamTarget: Pos)

  /** In waypoint mode the index is in range; a rest lasts 1 to 59 more
      ticks, and outside a rest the cooldown is 0. */
  predicate Valid(s: SentriesState)
  {
    (s.waypoints != [] ==> 0 <= s.index < |s.waypoints|) &&
    (s.resting ==> 1 <= s.restCooldown <= 59) &&
    (!s.resting ==> s.restCooldown == 0)
  }

  /** The visited set holds only waypoints, fewer than there are entries. */
  predicate VisitedWithin(s: SentriesState)
  {
    s.visited <= Elements(s.waypoints) && (s.waypoints != [] ==> |s.visited| < |s.waypoints|)
  }

  /** `canUse`, on the AI record. */
  predicate CanUseSpec(r: AIRecord)
  {
    r.strategy == SENTRIES && r.state == IDLE && (r.waypoints != [] || r.strategyMarkerPos.Some?)
  }

  /** What `canUse` copies from the record once strategy and state match. */
  function Adopt(s: SentriesState, r: AIRecord): SentriesState
  {
    s.(waypoints := r.waypoints, index := r.currentWaypointIndex,
       center := if r.waypoints == [] && r.strategyMarkerPos.Some? then r.strategyMarkerPos else s.center)
  }

  /** `canContinueToUse`, on the AI record. */
  predicate Continues(r: AIRecord)
  {
    r.state == IDLE && r.strategy == SENTRIES
  }

  /** `start`: clear the rest and head for the current waypoint. */
  function StartStep(s: SentriesState, pathFound: bool, accepted: bool): SentriesState
  {
    var s1 := s.(restCooldown := 0, resting := false);
    if s.waypoints != [] && 0 <= s.index < |s.waypoints| then
      s1.(destination := Mobs.Moved(s.destination, s.waypoints[s.index], pathFound, accepted))
    else s1
  }

  /** `start` reads the waypoint at the stored index, which `canUse` copies
      from the record unchecked: an index outside a non-empty route throws
      IndexOutOfBoundsException after the rest fields are reset. */
  predicate StartThrows(s: SentriesState)
  {
    s.waypoints != [] && !(0 <= s.index < |s.waypoints|)
  }

  /** A start that throws has reset the rest fields and sent no navigation;
      every other start heads for the stored waypoint in waypoint mode. */
  /** A record whose stored index lies beyond its route, as a saved record
      may hold, is adopted by `canUse` unchanged, and the following `start`
      throws. */
  lemma AdoptedIndexThrows(s: SentriesState, r: AIRecord)
    requires r.waypoints != [] && r.currentWaypointIndex >= |r.waypoints|
    ensures Adopt(s, r).index == r.currentWaypointIndex
    ensures StartThrows(Adopt(s, r))
  {
  }

  lemma StartThrowsNavigatesNowhere(s: SentriesState, pathFound: bool, accepted: bool)
    ensures StartThrows(s) ==> StartStep(s, pathFound, accepted) == s.(restCooldown := 0, resting := false)
    ensures !StartThrows(s) && s.waypoints != [] ==>
              StartStep(s, pathFound, accepted).destination == Mobs.Moved(s.destination, s.waypoints[s.index], pathFound, accepted)
    ensures s.waypoints == [] ==> StartStep(s, pathFound, accepted) == s.(restCooldown := 0, resting := false)
  {
  }

  /** One resting tick. */
  function RestStep(s: SentriesState): SentriesState
  {
    var c := s.restCooldown - 1;
    s.(restCooldown := c, resting := !(c <= 0))
  }

  /** Arrival at the current waypoint. */
  function ArriveStep(s: SentriesState): SentriesState
    requires Valid(s) && s.waypoints != []
  {
    var v := MarkVisited(s.visited, s.waypoints[s.index], |s.waypoints|);
    s.(visited := v, index := NextWaypointIndex(s.waypoints, v, s.index))
  }

  /** When navigation is done, path to the current waypoint; skip to the
      next one when that fails. */
  function RenavigateStep(s: SentriesState, input: TickInput): SentriesState
    requires Valid(s) && s.waypoints != []
  {
    if !input.navDone then s
    else
      var dest := Mobs.Moved(s.destination, s.waypoints[s.index], input.pathFound, input.accepted);
      if input.pathFound && input.accepted then s.(destination := dest)
      else s.(destination := dest, index := NextWaypointIndex(s.waypoints, s.visited, s.index))
  }

  /** `patrolWaypoints`. */
  function PatrolStep(s: SentriesState, input: TickInput): SentriesState
    requires Valid(s) && s.waypoints != []
  {
    var s1 := if input.arrived then ArriveStep(s) else s;
    RenavigateStep(s1, input)
  }

  /** `freeRoam`: a new point around the centre once navigation is done or
      the mob strayed. */
  function RoamStep(s: SentriesState, input: TickInput): SentriesState
  {
    if s.center.None? then s
    else if input.navDone || input.tooFar then
      s.(destination := Mobs.Moved(s.destination, input.roamTarget, input.pathFound, input.accepted))
    else s
  }

  /** `tick`. */
  function TickStep(s: SentriesState, input: TickInput): SentriesState
    requires Valid(s) && 0 <= input.restDraw < 40
  {
    if s.resting then RestStep(s)
    else if input.restRoll then s.(resting := true, restCooldown := 20 + input.restDraw, destination := None)
    else if s.waypoints != [] then PatrolStep(s, input)
    else RoamStep(s, input)
  }

  /** `start` makes the state valid whenever the stored index is in range. */
  lemma StartValid(s: SentriesState, pathFound: bool, accepted: bool)
    requires s.waypoints != [] ==> 0 <= s.index < |s.waypoints|
    ensures Valid(StartStep(s, pathFound, accepted))
    ensures !StartStep(s, pathFound, accepted).resting
  {
  }

  /** A tick keeps the index in range, the rest bounds and the visited-set
      bounds. */
  lemma TickValid(s: SentriesState, input: TickInput)
    requires Valid(s) && 0 <= input.restDraw < 40
    ensures Valid(TickStep(s, input))
    ensures VisitedWithin(s) ==> VisitedWithin(TickStep(s, input))
  {
    if !s.resting && !input.restRoll && s.waypoints != [] {
      var s1 := if input.arrived then ArriveStep(s) else s;
      NextWaypointIndexSpec(s.waypoints, s.visited, s.index);
      if input.arrived {
        NextWaypointIndexSpec(s.waypoints, s1.visited, s.index);
        if VisitedWithin(s) {
          MarkVisitedCircuit(s.waypoints, s.visited, s.waypoints[s.index]);
        }
      }
      NextWaypointIndexSpec(s.waypoints, s1.visited, s1.index);
    }
  }

  /** While resting a tick only counts the rest down; starting a rest lasts
      20 to 59 ticks and stops navigation; otherwise the waypoints and
      centre never change. */
  lemma TickRest(s: SentriesState, input: TickInput)
    requires Valid(s) && 0 <= input.restDraw < 40
    ensures s.resting ==>
              TickStep(s, input) == s.(restCooldown := s.restCooldown - 1, resting := s.restCooldown > 1)
    ensures !s.resting && input.restRoll ==>
              TickStep(s, input).resting && 20 <= TickStep(s, input).restCooldown <= 59 &&
              TickStep(s, input).destination.None?
    ensures TickStep(s, input).waypoints == s.waypoints && TickStep(s, input).center == s.center
  {
  }

  /** An arrival marks the waypoint visited; a failed path skips to the next
      waypoint from the updated visited set. */
  lemma TickArrivalAndSkip(s: SentriesState, input: TickInput)
    requires Valid(s) && 0 <= input.restDraw < 40
    requires !s.resting && !input.restRoll && s.waypoints != []
    ensures var v := if input.arrived then MarkVisited(s.visited, s.waypoints[s.index], |s.waypoints|) else s.visited;
            var i := if input.arrived then NextWaypointIndex(s.waypoints, v, s.index) else s.index;
            TickStep(s, input).visited == v &&
            TickStep(s, input).index ==
              (if input.navDone && !(input.pathFound && input.accepted) then NextWaypointIndex(s.waypoints, v, i) else i)
  {
    if input.arrived {
      NextWaypointIndexSpec(s.waypoints, ArriveStep(s).visited, s.index);
    }
  }

  class SentriesGoal {
    const mob: Mobs.Mob
    var waypoints: seq<Pos>
    var currentWaypointIndex: int
    var visitedWaypoints: set<Pos>
    var centerPosition: Option<Pos>
    var restCooldown: int
    var isResting: bool

    constructor(mob: Mobs.Mob)
      ensures this.mob == mob
      ensures State() == SentriesState([], 0, {}, None, 0, false, mob.destination)
      ensures Valid(State())
    {
      this.mob := mob;
      waypoints := [];
      currentWaypointIndex := 0;
      visitedWaypoints := {};
      centerPosition := None;
      restCooldown := 0;
      isResting := false;
    }

    function State(): SentriesState
      reads this, mob
    {
      SentriesState(waypoints, currentWaypointIndex, visitedWaypoints, centerPosition, restCooldown, isResting,
                    mob.destination)
    }

    /** `canUse`. */
    method CanUse() returns (b: bool)
      modifies this
      ensures b == (mob.cap != null && CanUseSpec(mob.cap.Snapshot()))
      ensures State() == if mob.cap != null && mob.cap.strategy == SENTRIES && mob.cap.state == IDLE
                         then Adopt(old(State()), mob.cap.Snapshot()) else old(State())
    {
      var cap := mob.cap;
      if cap == null || cap.strategy != SENTRIES || cap.state != IDLE {
        return false;
      }
      waypoints := cap.waypoints;
      currentWaypointIndex := cap.currentWaypointIndex;
      if waypoints == [] {
        if cap.strategyMarkerPos.None? {
          return false;
        }
        centerPosition := cap.strategyMarkerPos;
      }
      return true;
    }

    /** `canContinueToUse`. */
    method CanContinueToUse() returns (b: bool)
      ensures b == (mob.cap != null && Continues(mob.cap.Snapshot()))
    {
      var cap := mob.cap;
      b := cap != null && cap.state == IDLE && cap.strategy == SENTRIES;
    }

    /** `start`; `thrown` reports the IndexOutOfBoundsException raised for
        a stored index outside the route. */
    method Start(pathFound: bool, accepted: bool) returns (thrown: bool)
      modifies this, mob
      ensures thrown <==> StartThrows(old(State()))
      ensures State() == StartStep(old(State()), pathFound, accepted)
      ensures mob.View() == old(mob.View()).(destination := State().destination)
    {
      restCooldown := 0;
      isResting := false;
      if waypoints != [] {
        if currentWaypointIndex < 0 || currentWaypointIndex >= |waypoints| {
          return true;
        }
        var _ := mob.MoveAlongPath(waypoints[currentWaypointIndex], pathFound, accepted);
      }
      return false;
    }

    /** `stop`: the index is written back only in waypoint mode. */
    method Stop()
      modifies mob, mob.cap
      ensures mob.View() == old(mob.View()).(destination := None)
      ensures mob.cap != null ==>
                mob.cap.Snapshot() == if waypoints != [] then old(mob.cap.Snapshot()).(currentWaypointIndex := currentWaypointIndex)
                                      else old(mob.cap.Snapshot())
    {
      mob.StopNavigation();
      if mob.cap != null && waypoints != [] {
        mob.cap.SetCurrentWaypointIndex(currentWaypointIndex);
      }
    }

    /** `tick`. */
    method Tick(input: TickInput)
      requires Valid(State()) && 0 <= input.restDraw < 40
      modifies this, mob
      ensures State() == TickStep(old(State()), input)
      ensures mob.View() == old(mob.View()).(destination := State().destination)
    {
      if isResting {
        restCooldown := restCooldown - 1;
        if restCooldown <= 0 {
          isResting := false;
        }
        return;
      }
      if input.restRoll {
        isResting := true;
        restCooldown := 20 + input.restDraw;
        mob.StopNavigation();
        return;
      }
      if waypoints != [] {
        PatrolWaypoints(input);
      } else {
        FreeRoam(input);
      }
    }

    /** `patrolWaypoints`. */
    method PatrolWaypoints(input: TickInput)
      requires Valid(State()) && waypoints != []
      modifies this, mob
      ensures State() == PatrolStep(old(State()), input)
      ensures mob.View() == old(mob.View()).(destination := State().destination)
    {
      ghost var s0 := State();
      if input.arrived {
        visitedWaypoints := visitedWaypoints + {waypoints[currentWaypointIndex]};
        if |visitedWaypoints| >= |waypoints| {
          visitedWaypoints := {};
        }
        SelectNextWaypoint();
        assert State() == ArriveStep(s0);
      }
      ghost var s1 := State();
      assert Valid(s1) by {
        NextWaypointIndexSpec(waypoints, visitedWaypoints, s0.index);
      }
      if input.navDone {
        var success := mob.MoveAlongPath(waypoints[currentWaypointIndex], input.pathFound, input.accepted);
        if !success {
          SelectNextWaypoint();
        }
      }
    }

    /** `selectNextWaypoint`. */
    method SelectNextWaypoint()
      requires waypoints != [] && 0 <= currentWaypointIndex < |waypoints|
      modifies this
      ensures currentWaypointIndex == old(NextWaypointIndex(waypoints, visitedWaypoints, currentWaypointIndex))
      ensures waypoints == old(waypoints) && visitedWaypoints == old(visitedWaypoints)
      ensures centerPosition == old(centerPosition) && restCooldown == old(restCooldown) && isResting == old(isResting)
    {
      var n := |waypoints|;
      for i := 0 to n
        invariant NextWaypointIndex(waypoints, visitedWaypoints, currentWaypointIndex) ==
                  ScanFrom(waypoints, visitedWaypoints, currentWaypointIndex, i)
      {
        var index := (currentWaypointIndex + 1 + i) % n;
        if waypoints[index] !in visitedWaypoints {
          currentWaypointIndex := index;
          return;
        }
      }
      currentWaypointIndex := (currentWaypointIndex + 1) % n;
    }

    /** `freeRoam`: the point around the centre is an engine input. */
    method FreeRoam(input: TickInput)
      modifies mob
      ensures State() == RoamStep(old(State()), input)
      ensures mob.View() == old(mob.View()).(destination := State().destination)
    {
      if centerPosition.None? {
        return;
      }
      if input.navDone || input.tooFar {
        var _ := mob.MoveAlongPath(input.roamTarget, input.pathFound, input.accepted);
      }
    }
  }
}
