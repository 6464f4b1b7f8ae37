// The per-mob AI capability: state, strategy, team, remembered positions,
// waypoint route and counters, held by a mutable object.

module Capability {
  import opened Types

  /** The values the capability holds, as one immutable record. */
  datatype AIRecord = AIRecord(
    state: AIState,
    strategy: AIStrategy,
    areaTeam: int,
    spawnPosition: Option<Pos>,
    strategyMarkerPos: Option<Pos>,
    lastKnownTargetPos: Option<Pos>,
    interruptedPatrolPosition: Option<Pos>,
    waypoints: seq<Pos>,
    currentWaypointIndex: int,
    trackingTicks: int,
    hasBasicGoals: bool)

  /** The values a freshly attached capability starts with. */
  function Fresh(): (r: AIRecord)
    ensures r.state == IDLE && r.strategy == NONE && r.areaTeam == 0
    ensures r.spawnPosition.None? && r.strategyMarkerPos.None?
    ensures r.lastKnownTargetPos.None? && r.interruptedPatrolPosition.None?
    ensures r.waypoints == [] && r.currentWaypointIndex == 0 && r.trackingTicks == 0
    ensures !r.hasBasicGoals
  {
    AIRecord(IDLE, NONE, 0, None, None, None, None, [], 0, 0, false)
  }

  /** The capability object; every setter replaces exactly one field. */
  class AICapability {
    var state: AIState
    var strategy: AIStrategy
    var areaTeam: int
    var spawnPosition: Option<Pos>
    var strategyMarkerPos: Option<Pos>
    var lastKnownTargetPos: Option<Pos>
    var interruptedPatrolPosition: Option<Pos>
    var waypoints: seq<Pos>
    var currentWaypointIndex: int
    var trackingTicks: int
    var hasBasicGoals: bool

    /** The current field values. */
    function Snapshot(): AIRecord
      reads this
    {
      AIRecord(state, strategy, areaTeam, spawnPosition, strategyMarkerPos, lastKnownTargetPos,
               interruptedPatrolPosition, waypoints, currentWaypointIndex, trackingTicks, hasBasicGoals)
    }

    constructor()
      ensures Snapshot() == Fresh()
    {
      state, strategy, areaTeam := IDLE, NONE, 0;
      spawnPosition, strategyMarkerPos, lastKnownTargetPos, interruptedPatrolPosition := None, None, None, None;
      waypoints, currentWaypointIndex, trackingTicks := [], 0, 0;
      hasBasicGoals := false;
    }

    /** `setState`: the assignment only happens (and is only logged) when the
        state changes, which leaves the same final state either way. */
    method SetState(s: AIState)
      modifies this
      ensures Snapshot() == old(Snapshot()).(state := s)
    {
      if state != s {
        state := s;
      }
    }

    method SetStrategy(s: AIStrategy)
      modifies this
      ensures Snapshot() == old(Snapshot()).(strategy := s)
    {
      strategy := s;
    }

    /** `setAreaTeam` stores any value; the 0-15 range is not checked. */
    method SetAreaTeam(team: int)
      modifies this
      ensures Snapshot() == old(Snapshot()).(areaTeam := team)
    {
      areaTeam := team;
    }

    method SetSpawnPosition(p: Option<Pos>)
      modifies this
      ensures Snapshot() == old(Snapshot()).(spawnPosition := p)
    {
      spawnPosition := p;
    }

    method SetStrategyMarkerPos(p: Option<Pos>)
      modifies this
      ensures Snapshot() == old(Snapshot()).(strategyMarkerPos := p)
    {
      strategyMarkerPos := p;
    }

    method SetLastKnownTargetPos(p: Option<Pos>)
      modifies this
      ensures Snapshot() == old(Snapshot()).(lastKnownTargetPos := p)
    {
      lastKnownTargetPos := p;
    }

    method SetInterruptedPatrolPosition(p: Option<Pos>)
      modifies this
      ensures Snapshot() == old(Snapshot()).(interruptedPatrolPosition := p)
    {
      interruptedPatrolPosition := p;
    }

    /** `setWaypoints`: a null list is stored as the empty list. */
    method SetWaypoints(list: Option<seq<Pos>>)
      modifies this
      ensures Snapshot() == old(Snapshot()).(waypoints := if list.Some? then list.value else [])
    {
      waypoints := if list.Some? then list.value else [];
    }

    /** `setCurrentWaypointIndex` stores any value, unchecked; PatrolGoal
        resets an out-of-range index on `canUse`, SentriesGoal does not. */
    method SetCurrentWaypointIndex(i: int)
      modifies this
      ensures Snapshot() == old(Snapshot()).(currentWaypointIndex := i)
    {
      currentWaypointIndex := i;
    }

    method SetTrackingTicks(t: int)
      modifies this
      ensures Snapshot() == old(Snapshot()).(trackingTicks := t)
    {
      trackingTicks := t;
    }

    method SetHasBasicGoals(b: bool)
      modifies this
      ensures Snapshot() == old(Snapshot()).(hasBasicGoals := b)
    {
      hasBasicGoals := b;
    }
  }
}
