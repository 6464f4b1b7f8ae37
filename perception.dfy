// PerceptionEventHandler: hearing puts an idle, alert or searching monster on
// ALERT at the ground below the sound; spotting a player puts it in COMBAT,
// and a sentry also rings a series of bells and alerts the mobs around it.

module Perception {
  import opened Types
  import opened Capability
  import Mobs
  import WaypointFinder

  // ---------------------------------------------------------------------
  // Ground below a sound

  /** How many cells `findGroundBelow` looks at, from the start downwards. */
  const GroundSearchDepth := 10

  /** `isSolid()`: marker and waypoint blocks have no collision and are not
      solid; other blocks carry the engine's flag. */
  predicate IsSolid(c: WaypointFinder.Cell)
  {
    match c
    case Air => false
    case Solid => true
    case Marker(_, _) => false
    case Waypoint(_, _) => false
    case Other(s) => s
  }

  /** An air cell resting on a solid, non-air one. */
  predicate Standable(w: WaypointFinder.World, p: Pos)
  {
    WaypointFinder.IsAir(WaypointFinder.CellAt(w, p)) &&
    !WaypointFinder.IsAir(WaypointFinder.CellAt(w, p.Below(1))) &&
    IsSolid(WaypointFinder.CellAt(w, p.Below(1)))
  }

  /** The scan from depth `i` on. */
  function GroundBelowFrom(w: WaypointFinder.World, start: Pos, i: int): Pos
    requires 0 <= i
    decreases GroundSearchDepth - i
  {
    if i >= GroundSearchDepth then start
    else if Standable(w, start.Below(i)) then start.Below(i)
    else GroundBelowFrom(w, start, i + 1)
  }

  /** `findGroundBelow`: the first standable cell among the 10 from `start`
      downwards, or `start` itself. */
  function GroundBelow(w: WaypointFinder.World, start: Pos): Pos
  {
    GroundBelowFrom(w, start, 0)
  }

  lemma {:induction false} GroundBelowFromProperties(w: WaypointFinder.World, start: Pos, i: int)
    requires 0 <= i
    decreases GroundSearchDepth - i
    ensures var g := GroundBelowFrom(w, start, i);
            (exists d :: i <= d < GroundSearchDepth && g == start.Below(d) && Standable(w, g) &&
               forall e :: i <= e < d ==> !Standable(w, start.Below(e))) ||
            (g == start && forall e :: i <= e < GroundSearchDepth ==> !Standable(w, start.Below(e)))
  {
    if i < GroundSearchDepth && !Standable(w, start.Below(i)) {
      GroundBelowFromProperties(w, start, i + 1);
    }
  }

  /** The ground below a position is the highest standable cell at most 9
      blocks down in the same column, or the position itself when none of
      those 10 cells is standable. */
  lemma GroundBelowProperties(w: WaypointFinder.World, start: Pos)
    ensures var g := GroundBelow(w, start);
            (exists d :: 0 <= d < GroundSearchDepth && g == start.Below(d) && Standable(w, g) &&
               forall e :: 0 <= e < d ==> !Standable(w, start.Below(e))) ||
            (g == start && forall e :: 0 <= e < GroundSearchDepth ==> !Standable(w, start.Below(e)))
  {
    GroundBelowFromProperties(w, start, 0);
  }

  /** `findGroundBelow`, the loop. */
  method FindGroundBelow(w: WaypointFinder.World, start: Pos) returns (g: Pos)
    ensures g == GroundBelow(w, start)
  {
    for i := 0 to GroundSearchDepth
      invariant GroundBelowFrom(w, start, i) == GroundBelow(w, start)
    {
      var checkPos := start.Below(i);
      var belowPos := checkPos.Below(1);
      if WaypointFinder.IsAir(WaypointFinder.CellAt(w, checkPos)) &&
         !WaypointFinder.IsAir(WaypointFinder.CellAt(w, belowPos)) &&
         IsSolid(WaypointFinder.CellAt(w, belowPos)) {
        assert checkPos.Below(1) == belowPos;
        return checkPos;
      }
    }
    return start;
  }

  // ---------------------------------------------------------------------
  // Hearing

  /** The entity that made a sound: a player (in creative mode or not) or
      anything else. */
  datatype SoundSource = PlayerSource(creative: bool) | OtherSource

  /** The filters every vibration passes before the handler acts: a monster
      listener on the server, and a player source that is not an ignored
      creative player. */
  predicate HearingPasses(isMonster: bool, clientSide: bool, source: SoundSource, ignoreCreative: bool)
  {
    isMonster && !clientSide && source.PlayerSource? && !(ignoreCreative && source.creative)
  }

  /** The states in which the handler reacts to sounds; COMBAT and TRACKING
      belong to their own goals. */
  predicate ReactsToSound(s: AIState)
  {
    s != COMBAT && s != TRACKING
  }

  /** What hearing a sound at `v` does to the record. */
  function HearRecord(r: AIRecord, w: WaypointFinder.World, v: Vec3): (t: AIRecord)
    ensures !ReactsToSound(r.state) ==> t == r
    ensures ReactsToSound(r.state) ==>
              t.state == ALERT && t.lastKnownTargetPos.Some? &&
              t == r.(state := ALERT, lastKnownTargetPos := t.lastKnownTargetPos)
  {
    if !ReactsToSound(r.state) then r
    else r.(lastKnownTargetPos := Some(GroundBelow(w, BlockContaining(v))), state := ALERT)
  }

  /** A monster that reacts to a sound goes on ALERT at the ground below the
      sound: in the sound's column, at most 9 blocks below the block holding
      it, and standing on a solid block unless none was found.  In COMBAT or
      TRACKING the record is untouched. */
  lemma HearAlerts(r: AIRecord, w: WaypointFinder.World, v: Vec3)
    ensures !ReactsToSound(r.state) ==> HearRecord(r, w, v) == r
    ensures ReactsToSound(r.state) ==>
              var t := HearRecord(r, w, v);
              var b := BlockContaining(v);
              t == r.(state := ALERT, lastKnownTargetPos := t.lastKnownTargetPos) &&
              t.lastKnownTargetPos.Some? &&
              var g := t.lastKnownTargetPos.value;
              g.x == b.x && g.z == b.z && b.y - GroundSearchDepth < g.y <= b.y &&
              (Standable(w, g) || g == b)
  {
    GroundBelowProperties(w, BlockContaining(v));
  }

  /** `onVibrationPerceived`. */
  method OnVibrationPerceived(listener: Mobs.Mob, clientSide: bool, source: SoundSource, ignoreCreative: bool,
                              sourcePos: Vec3, w: WaypointFinder.World)
    modifies listener, listener.cap
    ensures !HearingPasses(listener.isMonster, clientSide, source, ignoreCreative) ==>
              listener.View() == old(listener.View()) &&
              (listener.cap != null ==> listener.cap.Snapshot() == old(listener.cap.Snapshot()))
    ensures HearingPasses(listener.isMonster, clientSide, source, ignoreCreative) ==>
              listener.Registered() == Mobs.RegisterBasic(old(listener.Registered())) &&
              (listener.cap != null ==>
                 listener.cap.Snapshot() == HearRecord(RegisteredRecord(old(listener.cap.Snapshot()), old(listener.basicGoalsRegistered)), w, sourcePos))
    ensures listener.destination == old(listener.destination) && listener.target == old(listener.target)
  {
    if !listener.isMonster || clientSide {
      return;
    }
    if source.OtherSource? || (ignoreCreative && source.creative) {
      return;
    }
    if !listener.basicGoalsRegistered {
      Mobs.RegisterBasicInvestigationGoals(listener);
    }
    var cap := listener.cap;
    if cap == null {
      return;
    }
    if cap.state == COMBAT || cap.state == TRACKING {
      return;
    }
    var rawPos := BlockContaining(sourcePos);
    var investigationPos := FindGroundBelow(w, rawPos);
    cap.SetLastKnownTargetPos(Some(investigationPos));
    cap.SetState(ALERT);
  }

  /** The record after the basic goals are registered on first perception. */
  function RegisteredRecord(r: AIRecord, wasRegistered: bool): AIRecord
  {
    if wasRegistered then r else r.(hasBasicGoals := true)
  }

  // ---------------------------------------------------------------------
  // Sentries bells

  /** An entity's UUID. */
  type EntityId = nat

  /** Whether the entry for `u` survives a server tick: it is cooling down,
      or it has bells left and its mob is still in a level. */
  predicate KeepsEntry(sched: map<EntityId, int>, cd: map<EntityId, int>, present: set<EntityId>, u: EntityId)
    requires u in cd
  {
    cd[u] > 0 || (u in sched && sched[u] > 0 && u in present)
  }

  /** The bells rung on a server tick. */
  function Rung(sched: map<EntityId, int>, cd: map<EntityId, int>, present: set<EntityId>): set<EntityId>
  {
    set u | u in cd && cd[u] <= 0 && u in sched && sched[u] > 0 && u in present
  }

  /** The cooldown map after a server tick. */
  function TickCooldowns(sched: map<EntityId, int>, cd: map<EntityId, int>, present: set<EntityId>, interval: int)
    : map<EntityId, int>
  {
    map u | u in cd && KeepsEntry(sched, cd, present, u) :: if cd[u] > 0 then cd[u] - 1 else interval
  }

  /** The remaining-bells map after a server tick. */
  function TickSchedule(sched: map<EntityId, int>, cd: map<EntityId, int>, present: set<EntityId>)
    : map<EntityId, int>
  {
    map u | u in sched && (u !in cd || KeepsEntry(sched, cd, present, u)) ::
      if u in cd && cd[u] <= 0 then sched[u] - 1 else sched[u]
  }

  /** The two maps share their keys and hold at most `maxBells` bells and a
      cooldown of at most `maxInterval`. */
  predicate BellsValid(sched: map<EntityId, int>, cd: map<EntityId, int>, maxBells: int, maxInterval: int)
  {
    sched.Keys == cd.Keys &&
    (forall u :: u in sched ==> 0 <= sched[u] <= maxBells) &&
    (forall u :: u in cd ==> 0 <= cd[u] <= maxInterval)
  }

  /** One entry with its mob present: None once dropped, otherwise the
      remaining bells and the cooldown. */
  function EntryNext(remaining: int, cooldown: int, interval: int): Option<(int, int)>
  {
    if cooldown > 0 then Some((remaining, cooldown - 1))
    else if remaining <= 0 then None
    else Some((remaining - 1, interval))
  }

  /** A server tick treats every entry on its own: kept entries move as
      `EntryNext` says when the mob is present, exactly the due entries with
      bells left and a present mob ring, and a due entry whose mob is gone is
      dropped without ringing. */
  lemma TickPointwise(sched: map<EntityId, int>, cd: map<EntityId, int>, present: set<EntityId>, interval: int,
                      u: EntityId)
    requires sched.Keys == cd.Keys && u in cd
    ensures var cd' := TickCooldowns(sched, cd, present, interval);
            var sched' := TickSchedule(sched, cd, present);
            (u in cd' <==> u in sched') &&
            (u in present ==>
               (EntryNext(sched[u], cd[u], interval).Some? <==> u in cd') &&
               (u in cd' ==> EntryNext(sched[u], cd[u], interval) == Some((sched'[u], cd'[u])))) &&
            (u !in present && cd[u] <= 0 ==> u !in cd' && u !in Rung(sched, cd, present)) &&
            (u in Rung(sched, cd, present) <==> cd[u] <= 0 && sched[u] > 0 && u in present)
  {
  }

  /** A server tick keeps the maps valid. */
  lemma TickBellsValid(sched: map<EntityId, int>, cd: map<EntityId, int>, present: set<EntityId>, interval: int,
                       maxBells: int, maxInterval: int)
    requires BellsValid(sched, cd, maxBells, maxInterval) && 0 <= interval <= maxInterval
    ensures BellsValid(TickSchedule(sched, cd, present), TickCooldowns(sched, cd, present, interval), maxBells, maxInterval)
  {
  }

  /** The bells one entry rings in k ticks with its mob present. */
  function BellsRung(remaining: int, cooldown: int, interval: int, k: nat): nat
    decreases k
  {
    if k == 0 then 0
    else if cooldown > 0 then BellsRung(remaining, cooldown - 1, interval, k - 1)
    else if remaining <= 0 then 0
    else 1 + BellsRung(remaining - 1, interval, interval, k - 1)
  }

  /** Whether the entry is still scheduled after k ticks with its mob present. */
  predicate ScheduledAfter(remaining: int, cooldown: int, interval: int, k: nat)
    decreases k
  {
    k == 0 ||
    match EntryNext(remaining, cooldown, interval)
    case None => false
    case Some(e) => ScheduledAfter(e.0, e.1, interval, k - 1)
  }

  /** A cooldown of c only delays the entry by c ticks. */
  lemma {:induction false} CooldownDelays(remaining: int, c: nat, interval: int, k: nat)
    requires c <= k
    ensures BellsRung(remaining, c, interval, k) == BellsRung(remaining, 0, interval, k - c)
    ensures ScheduledAfter(remaining, c, interval, k) == ScheduledAfter(remaining, 0, interval, k - c)
    decreases c
  {
    if c > 0 {
      CooldownDelays(remaining, c - 1, interval, k - 1);
    }
  }

  /** A due entry with n bells left rings all n, one every interval + 1
      ticks, and is dropped on the tick after the last interval. */
  lemma {:induction false} AllBellsRing(n: nat, interval: nat)
    ensures BellsRung(n, 0, interval, n * (interval + 1) + 1) == n
    ensures ScheduledAfter(n, 0, interval, n * (interval + 1))
    ensures !ScheduledAfter(n, 0, interval, n * (interval + 1) + 1)
    decreases n
  {
    if n > 0 {
      var k := n * (interval + 1) + 1;
      assert k - 1 - interval == (n - 1) * (interval + 1) + 1;
      CooldownDelays(n - 1, interval, interval, k - 1);
      CooldownDelays(n - 1, interval, interval, k - 2);
      AllBellsRing(n - 1, interval);
    }
  }

  /** A sentry that stays in the world rings exactly SENTRIES_BELL_COUNT
      bells after `scheduleSentriesBellAlert`: the first on the next server
      tick, then one every SENTRIES_BELL_INTERVAL + 1 ticks, and its entry is
      dropped one interval after the last. */
  lemma SentryRingsEveryBell(bellCount: nat, interval: nat)
    ensures BellsRung(bellCount, 0, interval, bellCount * (interval + 1) + 1) == bellCount
    ensures ScheduledAfter(bellCount, 0, interval, bellCount * (interval + 1))
    ensures !ScheduledAfter(bellCount, 0, interval, bellCount * (interval + 1) + 1)
  {
    AllBellsRing(bellCount, interval);
  }

  /** The two static maps `sentriesBellSchedule` and `sentriesBellCooldown`. */
  class BellScheduler {
    var schedule: map<EntityId, int>
    var cooldown: map<EntityId, int>

    constructor()
      ensures schedule == map[] && cooldown == map[]
    {
      schedule := map[];
      cooldown := map[];
    }

    /** `scheduleSentriesBellAlert`: the first bell is due at once. */
    method ScheduleSentriesBellAlert(id: EntityId, bellCount: int)
      modifies this
      ensures schedule == old(schedule)[id := bellCount]
      ensures cooldown == old(cooldown)[id := 0]
    {
      schedule := schedule[id := bellCount];
      cooldown := cooldown[id := 0];
    }

    /** `onServerTick`: only at the END phase; `present` are the entities
        found in some level, `interval` the configured SENTRIES_BELL_INTERVAL,
        and `rung` the mobs at which a bell sounds. */
    method OnServerTick(phaseEnd: bool, present: set<EntityId>, interval: int) returns (rung: set<EntityId>)
      modifies this
      ensures !phaseEnd ==> schedule == old(schedule) && cooldown == old(cooldown) && rung == {}
      ensures phaseEnd ==>
                schedule == TickSchedule(old(schedule), old(cooldown), present) &&
                cooldown == TickCooldowns(old(schedule), old(cooldown), present, interval) &&
                rung == Rung(old(schedule), old(cooldown), present)
    {
      if !phaseEnd {
        return {};
      }
      rung := Rung(schedule, cooldown, present);
      schedule, cooldown := TickSchedule(schedule, cooldown, present), TickCooldowns(schedule, cooldown, present, interval);
    }
  }

  // ---------------------------------------------------------------------
  // Spotting

  /** The filters every sighting passes: a monster observer on the server
      that sees a player who is not an ignored creative player. */
  predicate SpottingPasses(isMonster: bool, targetIsPlayer: bool, clientSide: bool, creative: bool, ignoreCreative: bool)
  {
    isMonster && targetIsPlayer && !clientSide && !(ignoreCreative && creative)
  }

  /** The mobs `broadcastAlert` passes the target to, among those within
      SENTRIES_ALERT_RADIUS: never the alerter, and only its own type unless
      SENTRIES_ALERT_ALL_TYPES. */
  predicate IsRecipient(alerter: Mobs.Mob, m: Mobs.Mob, allTypes: bool)
  {
    m != alerter && (allTypes || m.entityType == alerter.entityType)
  }

  /** The record of a mob told about the target. */
  function AlertedRecord(r: AIRecord, target: Mobs.Target): AIRecord
  {
    r.(state := COMBAT, lastKnownTargetPos := Some(target.pos))
  }

  /** What spotting a player does to the observer's record. */
  function SpotRecord(r: AIRecord, wasRegistered: bool, player: Mobs.Target): AIRecord
  {
    RegisteredRecord(r, wasRegistered).(lastKnownTargetPos := Some(player.pos), state := COMBAT)
  }

  /** Spotting always ends in COMBAT at the player's position, whatever the
      state before, and keeps the strategy and the rest of the record. */
  lemma SpotEntersCombat(r: AIRecord, wasRegistered: bool, player: Mobs.Target)
    ensures var t := SpotRecord(r, wasRegistered, player);
            t.state == COMBAT && t.lastKnownTargetPos == Some(player.pos) &&
            t.strategy == r.strategy && t.waypoints == r.waypoints &&
            (t.hasBasicGoals <==> r.hasBasicGoals || !wasRegistered) &&
            t.(state := r.state, lastKnownTargetPos := r.lastKnownTargetPos, hasBasicGoals := r.hasBasicGoals) == r
  {
  }

  /** `broadcastAlert`: `nearby` are the mobs within SENTRIES_ALERT_RADIUS
      of the alerter. */
  method BroadcastAlert(alerter: Mobs.Mob, nearby: seq<Mobs.Mob>, allTypes: bool, target: Mobs.Target)
    requires Mobs.Separate(nearby)
    modifies set m | m in nearby, set m | m in nearby && m.cap != null :: m.cap
    ensures forall i :: 0 <= i < |nearby| && IsRecipient(alerter, nearby[i], allTypes) ==>
              nearby[i].View() == old(nearby[i].View()).(target := Some(target)) &&
              (nearby[i].cap != null ==> nearby[i].cap.Snapshot() == AlertedRecord(old(nearby[i].cap.Snapshot()), target))
    ensures forall i :: 0 <= i < |nearby| && !IsRecipient(alerter, nearby[i], allTypes) ==>
              nearby[i].View() == old(nearby[i].View()) &&
              (nearby[i].cap != null ==> nearby[i].cap.Snapshot() == old(nearby[i].cap.Snapshot()))
  {
    for i := 0 to |nearby|
      invariant forall j :: 0 <= j < i && IsRecipient(alerter, nearby[j], allTypes) ==>
                  nearby[j].View() == old(nearby[j].View()).(target := Some(target)) &&
                  (nearby[j].cap != null ==> nearby[j].cap.Snapshot() == AlertedRecord(old(nearby[j].cap.Snapshot()), target))
      invariant forall j :: 0 <= j < |nearby| && (i <= j || !IsRecipient(alerter, nearby[j], allTypes)) ==>
                  nearby[j].View() == old(nearby[j].View()) &&
                  (nearby[j].cap != null ==> nearby[j].cap.Snapshot() == old(nearby[j].cap.Snapshot()))
    {
      var mob := nearby[i];
      if IsRecipient(alerter, mob, allTypes) {
        Alert(mob, target);
      }
    }
  }

  /** One mob told about the target. */
  method Alert(mob: Mobs.Mob, target: Mobs.Target)
    modifies mob, mob.cap
    ensures mob.View() == old(mob.View()).(target := Some(target))
    ensures mob.cap != null ==> mob.cap.Snapshot() == AlertedRecord(old(mob.cap.Snapshot()), target)
  {
    mob.SetTarget(Some(target));
    var cap := mob.cap;
    if cap != null {
      cap.SetState(COMBAT);
      cap.SetLastKnownTargetPos(Some(target.pos));
    }
  }

  /** `onTargetSpotted`: `player` is the spotted player as a target,
      `observerId` the observer's UUID, `bellCount` the configured
      SENTRIES_BELL_COUNT and `nearby` the mobs within SENTRIES_ALERT_RADIUS. */
  method OnTargetSpotted(observer: Mobs.Mob, targetIsPlayer: bool, player: Mobs.Target, creative: bool,
                         clientSide: bool, ignoreCreative: bool, observerId: EntityId, bellCount: int,
                         bells: BellScheduler, nearby: seq<Mobs.Mob>, allTypes: bool)
    requires Mobs.Separate(nearby)
    requires forall m :: m in nearby && m != observer && m.cap != null ==> m.cap != observer.cap
    modifies observer, observer.cap, bells
    modifies set m | m in nearby, set m | m in nearby && m.cap != null :: m.cap
    ensures !SpottingPasses(observer.isMonster, targetIsPlayer, clientSide, creative, ignoreCreative) ==>
              observer.View() == old(observer.View()) &&
              (observer.cap != null ==> observer.cap.Snapshot() == old(observer.cap.Snapshot())) &&
              bells.schedule == old(bells.schedule) && bells.cooldown == old(bells.cooldown) &&
              forall i :: 0 <= i < |nearby| ==>
                nearby[i].View() == old(nearby[i].View()) &&
                (nearby[i].cap != null ==> nearby[i].cap.Snapshot() == old(nearby[i].cap.Snapshot()))
    ensures SpottingPasses(observer.isMonster, targetIsPlayer, clientSide, creative, ignoreCreative) ==>
              observer.Registered() == Mobs.RegisterBasic(old(observer.Registered()))
    ensures SpottingPasses(observer.isMonster, targetIsPlayer, clientSide, creative, ignoreCreative) && observer.cap == null ==>
              observer.View() == old(observer.View()).(goals := observer.goals, basicGoalsRegistered := observer.basicGoalsRegistered,
                                                       strategyGoalsRegistered := observer.strategyGoalsRegistered) &&
              bells.schedule == old(bells.schedule) && bells.cooldown == old(bells.cooldown) &&
              forall i :: 0 <= i < |nearby| && nearby[i] != observer ==>
                nearby[i].View() == old(nearby[i].View()) &&
                (nearby[i].cap != null ==> nearby[i].cap.Snapshot() == old(nearby[i].cap.Snapshot()))
    ensures SpottingPasses(observer.isMonster, targetIsPlayer, clientSide, creative, ignoreCreative) && observer.cap != null ==>
              observer.View() == old(observer.View()).(goals := observer.goals, basicGoalsRegistered := observer.basicGoalsRegistered,
                                                       strategyGoalsRegistered := observer.strategyGoalsRegistered,
                                                       target := Some(player)) &&
              observer.cap.Snapshot() == SpotRecord(old(observer.cap.Snapshot()), old(observer.basicGoalsRegistered), player) &&
              (old(observer.cap.strategy) == SENTRIES ==>
                 bells.schedule == old(bells.schedule)[observerId := bellCount] &&
                 bells.cooldown == old(bells.cooldown)[observerId := 0] &&
                 (forall i :: 0 <= i < |nearby| && IsRecipient(observer, nearby[i], allTypes) ==>
                    nearby[i].View() == old(nearby[i].View()).(target := Some(player)) &&
                    (nearby[i].cap != null ==> nearby[i].cap.Snapshot() == AlertedRecord(old(nearby[i].cap.Snapshot()), player))) &&
                 (forall i :: 0 <= i < |nearby| && nearby[i] != observer && !IsRecipient(observer, nearby[i], allTypes) ==>
                    nearby[i].View() == old(nearby[i].View()) &&
                    (nearby[i].cap != null ==> nearby[i].cap.Snapshot() == old(nearby[i].cap.Snapshot())))) &&
              (old(observer.cap.strategy) != SENTRIES ==>
                 bells.schedule == old(bells.schedule) && bells.cooldown == old(bells.cooldown) &&
                 forall i :: 0 <= i < |nearby| && nearby[i] != observer ==>
                   nearby[i].View() == old(nearby[i].View()) &&
                   (nearby[i].cap != null ==> nearby[i].cap.Snapshot() == old(nearby[i].cap.Snapshot())))
  {
    if !observer.isMonster || !targetIsPlayer || clientSide {
      return;
    }
    if ignoreCreative && creative {
      return;
    }
    if !observer.basicGoalsRegistered {
      Mobs.RegisterBasicInvestigationGoals(observer);
    }
    if observer.cap == null {
      return;
    }
    Engage(observer, player, observerId, bellCount, bells, nearby, allTypes);
  }

  /** The part of `onTargetSpotted` once the observer is known to have the
      capability: target, last known position, the sentries alarm, COMBAT. */
  method Engage(observer: Mobs.Mob, player: Mobs.Target, observerId: EntityId, bellCount: int,
                bells: BellScheduler, nearby: seq<Mobs.Mob>, allTypes: bool)
    requires observer.cap != null && Mobs.Separate(nearby)
    requires forall m :: m in nearby && m != observer && m.cap != null ==> m.cap != observer.cap
    modifies observer, observer.cap, bells
    modifies set m | m in nearby, set m | m in nearby && m.cap != null :: m.cap
    ensures observer.View() == old(observer.View()).(target := Some(player))
    ensures observer.cap.Snapshot() == old(observer.cap.Snapshot()).(lastKnownTargetPos := Some(player.pos), state := COMBAT)
    ensures old(observer.cap.strategy) == SENTRIES ==>
              bells.schedule == old(bells.schedule)[observerId := bellCount] &&
              bells.cooldown == old(bells.cooldown)[observerId := 0] &&
              (forall i :: 0 <= i < |nearby| && IsRecipient(observer, nearby[i], allTypes) ==>
                 nearby[i].View() == old(nearby[i].View()).(target := Some(player)) &&
                 (nearby[i].cap != null ==> nearby[i].cap.Snapshot() == AlertedRecord(old(nearby[i].cap.Snapshot()), player))) &&
              (forall i :: 0 <= i < |nearby| && nearby[i] != observer && !IsRecipient(observer, nearby[i], allTypes) ==>
                 nearby[i].View() == old(nearby[i].View()) &&
                 (nearby[i].cap != null ==> nearby[i].cap.Snapshot() == old(nearby[i].cap.Snapshot())))
    ensures old(observer.cap.strategy) != SENTRIES ==>
              bells.schedule == old(bells.schedule) && bells.cooldown == old(bells.cooldown) &&
              forall i :: 0 <= i < |nearby| && nearby[i] != observer ==>
                nearby[i].View() == old(nearby[i].View()) &&
                (nearby[i].cap != null ==> nearby[i].cap.Snapshot() == old(nearby[i].cap.Snapshot()))
  {
    var cap := observer.cap;
    var strategy := cap.strategy;
    observer.SetTarget(Some(player));
    cap.SetLastKnownTargetPos(Some(player.pos));
    // The handler switches to COMBAT after the alarm; the alarm leaves the
    // observer and its record alone, so the switch is made first here.
    cap.SetState(COMBAT);
    assert forall i :: 0 <= i < |nearby| && nearby[i] != observer ==>
             nearby[i].View() == old(nearby[i].View()) &&
             (nearby[i].cap != null ==> nearby[i].cap.Snapshot() == old(nearby[i].cap.Snapshot()));
    if strategy == SENTRIES {
      SentriesAlarm(observer, player, observerId, bellCount, bells, nearby, allTypes);
    }
  }

  /** A sentry's alarm: schedule its bells and alert the mobs around it. */
  method SentriesAlarm(observer: Mobs.Mob, player: Mobs.Target, observerId: EntityId, bellCount: int,
                       bells: BellScheduler, nearby: seq<Mobs.Mob>, allTypes: bool)
    requires observer.cap != null && Mobs.Separate(nearby)
    requires forall m :: m in nearby && m != observer && m.cap != null ==> m.cap != observer.cap
    modifies bells, set m | m in nearby, set m | m in nearby && m.cap != null :: m.cap
    ensures observer.View() == old(observer.View()) && observer.cap.Snapshot() == old(observer.cap.Snapshot())
    ensures bells.schedule == old(bells.schedule)[observerId := bellCount]
    ensures bells.cooldown == old(bells.cooldown)[observerId := 0]
    ensures forall i :: 0 <= i < |nearby| && IsRecipient(observer, nearby[i], allTypes) ==>
              nearby[i].View() == old(nearby[i].View()).(target := Some(player)) &&
              (nearby[i].cap != null ==> nearby[i].cap.Snapshot() == AlertedRecord(old(nearby[i].cap.Snapshot()), player))
    ensures forall i :: 0 <= i < |nearby| && !IsRecipient(observer, nearby[i], allTypes) ==>
              nearby[i].View() == old(nearby[i].View()) &&
              (nearby[i].cap != null ==> nearby[i].cap.Snapshot() == old(nearby[i].cap.Snapshot()))
  {
    bells.ScheduleSentriesBellAlert(observerId, bellCount);
    BroadcastAlert(observer, nearby, allTypes, player);
  }
}
