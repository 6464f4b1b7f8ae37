// BaseStrategyBlockEntity: once a second a strategy marker block hands its
// strategy, team and waypoint route to every mob that has just spawned in
// its own block, and registers the strategy goals on it.

module Marker {
  import opened Types
  import opened Capability
  import Mobs
  import WaypointFinder

  /** Ticks between two applications (one second). */
  const CheckInterval := 20

  /** Mobs older than this many ticks walked in rather than spawned. */
  const MaxSpawnAge := 40

  /** Whether the tick with counter `c` applies the marker (`++c < 20`
      fails). */
  predicate Fires(c: int)
  {
    c + 1 >= CheckInterval
  }

  /** The counter after one tick. */
  function NextCounter(c: int): int
  {
    if Fires(c) then 0 else c + 1
  }

  /** The counter after k ticks. */
  function CounterAfter(c: int, k: nat): int
    decreases k
  {
    if k == 0 then c else NextCounter(CounterAfter(c, k - 1))
  }

  /** From a fresh block entity the counter after k ticks is k mod 20, so the
      marker is applied on exactly the ticks numbered 20, 40, 60, ... */
  lemma {:induction false} AppliesEverySecond(k: nat)
    ensures CounterAfter(0, k) == k % CheckInterval
    ensures Fires(CounterAfter(0, k)) <==> (k + 1) % CheckInterval == 0
    decreases k
  {
    if k > 0 {
      AppliesEverySecond(k - 1);
    }
  }

  /** The record of a mob with the capability; None without it. */
  function RecordOf(m: Mobs.Mob): Option<AIRecord>
    reads m.cap
  {
    if m.cap == null then None else Some(m.cap.Snapshot())
  }

  /** The goal list and flags of a view. */
  function RegistrationOf(v: Mobs.MobView): Mobs.Registration
  {
    Mobs.Registration(v.goals, v.basicGoalsRegistered, v.strategyGoalsRegistered)
  }

  /** The waypoint families: only PATROL and SENTRIES follow a route. */
  predicate HasRoute(s: AIStrategy)
  {
    s == PATROL || s == SENTRIES
  }

  /** What `applyStrategyToMob` does to a mob (view `v`, record `r`) that
      ends with view `v2` and record `r2`: the record takes the strategy, the
      mob's spawn block, the marker's position and team, and for a route a
      waypoint list the finder gives from the marker; the goals are
      registered unless the strategy flag is already set; nothing else
      changes. */
  ghost predicate StrategyApplied(markerPos: Pos, strategy: AIStrategy, team: int, w: WaypointFinder.World,
                                  q: WaypointFinder.Query, minY: int,
                                  v: Mobs.MobView, r: Option<AIRecord>, v2: Mobs.MobView, r2: Option<AIRecord>)
  {
    var reg := Mobs.RegisterStrategyOnce(RegistrationOf(v), strategy);
    v2 == v.(goals := reg.goals, basicGoalsRegistered := reg.basicRegistered, strategyGoalsRegistered := reg.strategyRegistered) &&
    r.Some? == r2.Some? &&
    (r.Some? ==>
       r2.value == r.value.(strategy := strategy, spawnPosition := Some(v.blockPosition),
                            strategyMarkerPos := Some(markerPos), areaTeam := team, waypoints := r2.value.waypoints) &&
       (HasRoute(strategy) ==> WaypointFinder.WaypointsFound(w, q, markerPos, minY, r2.value.waypoints)) &&
       (!HasRoute(strategy) ==> r2.value.waypoints == r.value.waypoints))
  }

  /** A strategy marker block: its position, strategy and team number are
      fixed by the block; only the tick counter changes. */
  class StrategyMarker {
    const worldPosition: Pos
    const strategy: AIStrategy
    const areaTeam: int
    var tickCounter: int

    constructor(worldPosition: Pos, strategy: AIStrategy, areaTeam: int)
      ensures this.worldPosition == worldPosition && this.strategy == strategy && this.areaTeam == areaTeam
      ensures tickCounter == 0
    {
      this.worldPosition := worldPosition;
      this.strategy := strategy;
      this.areaTeam := areaTeam;
      tickCounter := 0;
    }

    /** The checks of `applyBeaconEffect`: spawned at most 40 ticks ago, not
        yet handled by a marker, and standing exactly in the marker's block. */
    predicate AppliesTo(v: Mobs.MobView)
    {
      v.tickCount <= MaxSpawnAge && !v.markerApplied && v.blockPosition == worldPosition
    }

    /** The search the marker runs, with the configured chain radii. */
    function Query(patrolRadius: nat, sentriesRadius: nat): WaypointFinder.Query
    {
      WaypointFinder.Query(strategy, areaTeam, patrolRadius, sentriesRadius)
    }

    /** What `applyBeaconEffect` does to one mob: the strategy applied and
        the marker flag set, or nothing. */
    ghost predicate BeaconEffect(w: WaypointFinder.World, patrolRadius: nat, sentriesRadius: nat, minY: int,
                                 v: Mobs.MobView, r: Option<AIRecord>, v2: Mobs.MobView, r2: Option<AIRecord>)
    {
      if AppliesTo(v) then
        v2.markerApplied &&
        StrategyApplied(worldPosition, strategy, areaTeam, w, Query(patrolRadius, sentriesRadius), minY,
                        v, r, v2.(markerApplied := v.markerApplied), r2)
      else v2 == v && r2 == r
    }

    /** `tick`: `serverSide` is false without a level or on the client;
        `mobs` are the mobs whose box meets the marker's block. */
    method Tick(serverSide: bool, mobs: seq<Mobs.Mob>, w: WaypointFinder.World, patrolRadius: nat,
                sentriesRadius: nat, minY: int) returns (applied: bool)
      requires Mobs.Separate(mobs)
      modifies this, set m | m in mobs, set m | m in mobs && m.cap != null :: m.cap
      ensures applied == (serverSide && Fires(old(tickCounter)))
      ensures tickCounter == if serverSide then NextCounter(old(tickCounter)) else old(tickCounter)
      ensures forall i :: 0 <= i < |mobs| ==>
                if applied then
                  BeaconEffect(w, patrolRadius, sentriesRadius, minY, old(mobs[i].View()), old(RecordOf(mobs[i])),
                               mobs[i].View(), RecordOf(mobs[i]))
                else mobs[i].View() == old(mobs[i].View()) && RecordOf(mobs[i]) == old(RecordOf(mobs[i]))
    {
      if !serverSide {
        return false;
      }
      tickCounter := tickCounter + 1;
      if tickCounter < CheckInterval {
        return false;
      }
      tickCounter := 0;
      ApplyBeaconEffect(mobs, w, patrolRadius, sentriesRadius, minY);
      return true;
    }

    /** `applyBeaconEffect`. */
    method ApplyBeaconEffect(mobs: seq<Mobs.Mob>, w: WaypointFinder.World, patrolRadius: nat, sentriesRadius: nat,
                             minY: int)
      requires Mobs.Separate(mobs)
      modifies set m | m in mobs, set m | m in mobs && m.cap != null :: m.cap
      ensures forall i :: 0 <= i < |mobs| ==>
                BeaconEffect(w, patrolRadius, sentriesRadius, minY, old(mobs[i].View()), old(RecordOf(mobs[i])),
                             mobs[i].View(), RecordOf(mobs[i]))
    {
      for i := 0 to |mobs|
        invariant forall j :: 0 <= j < i ==>
                    BeaconEffect(w, patrolRadius, sentriesRadius, minY, old(mobs[j].View()), old(RecordOf(mobs[j])),
                                 mobs[j].View(), RecordOf(mobs[j]))
        invariant forall j :: i <= j < |mobs| ==>
                    mobs[j].View() == old(mobs[j].View()) && RecordOf(mobs[j]) == old(RecordOf(mobs[j]))
      {
        var mob := mobs[i];
        if mob.tickCount > MaxSpawnAge || mob.markerApplied || mob.blockPosition != worldPosition {
          continue;
        }
        ApplyToOne(mob, w, patrolRadius, sentriesRadius, minY);
      }
    }

    /** The body of the loop for a mob that passed the checks. */
    method ApplyToOne(mob: Mobs.Mob, w: WaypointFinder.World, patrolRadius: nat, sentriesRadius: nat, minY: int)
      requires AppliesTo(mob.View())
      modifies mob, mob.cap
      ensures BeaconEffect(w, patrolRadius, sentriesRadius, minY, old(mob.View()), old(RecordOf(mob)),
                           mob.View(), RecordOf(mob))
    {
      ApplyStrategyToMob(mob, w, patrolRadius, sentriesRadius, minY);
      mob.markerApplied := true;
    }

    /** `applyStrategyToMob`. */
    method ApplyStrategyToMob(mob: Mobs.Mob, w: WaypointFinder.World, patrolRadius: nat, sentriesRadius: nat,
                              minY: int)
      modifies mob, mob.cap
      ensures StrategyApplied(worldPosition, strategy, areaTeam, w, Query(patrolRadius, sentriesRadius), minY,
                              old(mob.View()), old(RecordOf(mob)), mob.View(), RecordOf(mob))
    {
      var cap := mob.cap;
      if cap != null {
        SetStrategyRecord(cap, mob.blockPosition);
      }
      if HasRoute(strategy) {
        FindRoute(cap, w, patrolRadius, sentriesRadius, minY);
      }
      RegisterStrategyGoals(mob, strategy);
    }

    /** The capability setters of `applyStrategyToMob`. */
    method SetStrategyRecord(cap: AICapability, spawn: Pos)
      modifies cap
      ensures cap.Snapshot() == old(cap.Snapshot()).(strategy := strategy, spawnPosition := Some(spawn),
                                                     strategyMarkerPos := Some(worldPosition), areaTeam := areaTeam)
    {
      cap.SetStrategy(strategy);
      cap.SetSpawnPosition(Some(spawn));
      cap.SetStrategyMarkerPos(Some(worldPosition));
      cap.SetAreaTeam(areaTeam);
    }

    /** The waypoint search of `applyStrategyToMob`, stored in the
        capability when there is one. */
    method FindRoute(cap: AICapability?, w: WaypointFinder.World, patrolRadius: nat, sentriesRadius: nat, minY: int)
      modifies cap
      ensures cap != null ==>
                cap.Snapshot() == old(cap.Snapshot()).(waypoints := cap.waypoints) &&
                WaypointFinder.WaypointsFound(w, Query(patrolRadius, sentriesRadius), worldPosition, minY, cap.waypoints)
    {
      var waypoints;
      ghost var cells;
      waypoints, cells := WaypointFinder.FindWaypoints(w, Query(patrolRadius, sentriesRadius), worldPosition, minY);
      assert WaypointFinder.IsWaypointResult(w, Query(patrolRadius, sentriesRadius), worldPosition, minY, cells, waypoints);
      if cap != null {
        cap.SetWaypoints(Some(waypoints));
      }
    }
  }

  /** The block entity's `registerStrategyGoals`: guarded by the strategy
      flag, then as at spawn. */
  method RegisterStrategyGoals(mob: Mobs.Mob, s: AIStrategy)
    modifies mob
    ensures mob.View() == old(mob.View()).(goals := mob.goals, basicGoalsRegistered := mob.basicGoalsRegistered,
                                           strategyGoalsRegistered := mob.strategyGoalsRegistered)
    ensures mob.Registered() == Mobs.RegisterStrategyOnce(old(mob.Registered()), s)
  {
    if mob.strategyGoalsRegistered {
      return;
    }
    Mobs.RegisterStrategyGoals(mob, s);
  }
}
