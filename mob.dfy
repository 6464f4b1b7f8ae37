// A mob as the core sees it (its AI record, goal list, persistent flags,
// navigation and target) and the goal-registration bookkeeping of
// EntitySpawnHandler.

module Mobs {
  import opened Types
  import opened Capability

  /** The goals this mod adds, and any other goal by its simple class name. */
  datatype Goal =
    | CombatMonitorGoal | TrackingGoal | InvestigateGoal | SearchingGoal
    | GuardGoal | SentriesGoal | PatrolGoal
    | OtherGoal(name: string)

  /** `getClass().getSimpleName()`. */
  function SimpleName(g: Goal): string
  {
    match g
    case CombatMonitorGoal => "CombatMonitorGoal"
    case TrackingGoal => "TrackingGoal"
    case InvestigateGoal => "InvestigateGoal"
    case SearchingGoal => "SearchingGoal"
    case GuardGoal => "GuardGoal"
    case SentriesGoal => "SentriesGoal"
    case PatrolGoal => "PatrolGoal"
    case OtherGoal(name) => name
  }

  /** An entry of the goal selector: a goal and its priority. */
  datatype PrioritizedGoal = PrioritizedGoal(priority: int, goal: Goal)

  /** The mob's current attack target, as far as the core looks at it. */
  datatype Target = Target(pos: Pos, alive: bool, removed: bool)

  /** A mob.  `cap` is null when the AI capability is not attached. */
  class Mob {
    const cap: AICapability?
    /** `instanceof Monster`. */
    const isMonster: bool
    /** The entity type, compared by identity when alerting mobs. */
    const entityType: nat
    /** The goal selector's list of available goals. */
    var goals: seq<PrioritizedGoal>
    /** Persistent-data flags "logica_basic_goals_registered",
        "logica_strategy_goals_registered" and "logica_marker_applied". */
    var basicGoalsRegistered: bool
    var strategyGoalsRegistered: bool
    var markerApplied: bool
    var tickCount: int
    var blockPosition: Pos
    /** Where the navigation is heading; None once it is stopped. */
    var destination: Option<Pos>
    var target: Option<Target>

    constructor(cap: AICapability?, isMonster: bool, entityType: nat, blockPosition: Pos)
      ensures this.cap == cap && this.isMonster == isMonster && this.entityType == entityType
      ensures this.blockPosition == blockPosition
      ensures goals == [] && !basicGoalsRegistered && !strategyGoalsRegistered && !markerApplied
      ensures tickCount == 0 && destination.None? && target.None?
    {
      this.cap := cap;
      this.isMonster := isMonster;
      this.entityType := entityType;
      this.blockPosition := blockPosition;
      goals := [];
      basicGoalsRegistered, strategyGoalsRegistered, markerApplied := false, false, false;
      tickCount := 0;
      destination := None;
      target := None;
    }

    /** The goal list and the two registration flags. */
    function Registered(): Registration
      reads this
    {
      Registration(goals, basicGoalsRegistered, strategyGoalsRegistered)
    }

    /** The current field values. */
    function View(): MobView
      reads this
    {
      MobView(goals, basicGoalsRegistered, strategyGoalsRegistered, markerApplied, tickCount, blockPosition,
              destination, target)
    }

    /** `getNavigation().stop()`. */
    method StopNavigation()
      modifies this
      ensures View() == old(View()).(destination := None)
    {
      destination := None;
    }

    /** `createPath(t)` and, when a path exists, `moveTo(path)`: true when
        the navigation accepted the path. */
    method MoveAlongPath(t: Pos, pathFound: bool, accepted: bool) returns (success: bool)
      modifies this
      ensures success == (pathFound && accepted)
      ensures View() == old(View()).(destination := Moved(old(destination), t, pathFound, accepted))
    {
      success := false;
      if pathFound {
        success := accepted;
        destination := if accepted then Some(t) else None;
      }
    }

    /** `setTarget`. */
    method SetTarget(t: Option<Target>)
      modifies this
      ensures View() == old(View()).(target := t)
    {
      target := t;
    }
  }

  /** Distinct mobs with distinct capabilities. */
  predicate Separate(ms: seq<Mob>)
  {
    (forall i, j :: 0 <= i < j < |ms| ==> ms[i] != ms[j]) &&
    (forall i, j :: 0 <= i < j < |ms| && ms[i].cap != null ==> ms[i].cap != ms[j].cap)
  }

  datatype MobView = MobView(
    goals: seq<PrioritizedGoal>,
    basicGoalsRegistered: bool,
    strategyGoalsRegistered: bool,
    markerApplied: bool,
    tickCount: int,
    blockPosition: Pos,
    destination: Option<Pos>,
    target: Option<Target>)

  /** Where the navigation heads after `createPath(t)` and, for a non-null
      path, `moveTo(path)`: a refused path stops it, no path changes nothing. */
  function Moved(dest: Option<Pos>, t: Pos, pathFound: bool, accepted: bool): Option<Pos>
  {
    if !pathFound then dest else MovedTo(t, accepted)
  }

  /** Where the navigation heads after `moveTo` a position. */
  function MovedTo(t: Pos, accepted: bool): Option<Pos>
  {
    if accepted then Some(t) else None
  }

  datatype Registration = Registration(goals: seq<PrioritizedGoal>, basicRegistered: bool, strategyRegistered: bool)

  // ---------------------------------------------------------------------
  // removeConflictingGoals

  /** `sub` occurs in `s` at index `i`. */
  predicate OccursAt(s: string, sub: string, i: int)
  {
    0 <= i && i + |sub| <= |s| && s[i..i + |sub|] == sub
  }

  /** `String.contains`. */
  predicate Contains(s: string, sub: string)
  {
    exists i :: 0 <= i <= |s| && OccursAt(s, sub, i)
  }

  /** The goals the mod removes: any whose simple name contains "Raid",
      "Raider" or "LongDistancePatrol". */
  predicate Conflicting(g: PrioritizedGoal)
  {
    var name := SimpleName(g.goal);
    Contains(name, "Raid") || Contains(name, "Raider") || Contains(name, "LongDistancePatrol")
  }

  /** The goal list with the conflicting goals removed, in order. */
  function WithoutConflicts(gs: seq<PrioritizedGoal>): (r: seq<PrioritizedGoal>)
    ensures |r| <= |gs|
  {
    if gs == [] then []
    else
      var last := gs[|gs| - 1];
      WithoutConflicts(gs[..|gs| - 1]) + (if Conflicting(last) then [] else [last])
  }

  /** A goal survives exactly when it is in the list and does not conflict. */
  lemma {:induction false} WithoutConflictsMembers(gs: seq<PrioritizedGoal>, g: PrioritizedGoal)
    ensures g in WithoutConflicts(gs) <==> g in gs && !Conflicting(g)
  {
    if gs != [] {
      WithoutConflictsMembers(gs[..|gs| - 1], g);
      assert gs == gs[..|gs| - 1] + [gs[|gs| - 1]];
    }
  }

  /** Removal works entry by entry, so the kept goals stay in their order. */
  lemma {:induction false} WithoutConflictsAppend(a: seq<PrioritizedGoal>, b: seq<PrioritizedGoal>)
    ensures WithoutConflicts(a + b) == WithoutConflicts(a) + WithoutConflicts(b)
    decreases |b|
  {
    if b == [] {
      assert a + b == a;
    } else {
      var init := b[..|b| - 1];
      WithoutConflictsAppend(a, init);
      assert (a + b)[..|a + b| - 1] == a + init;
    }
  }

  /** "Raider" needs no test of its own: a name containing it contains "Raid". */
  lemma RaiderCoveredByRaid(s: string)
    ensures Contains(s, "Raider") ==> Contains(s, "Raid")
  {
    if Contains(s, "Raider") {
      var i :| 0 <= i <= |s| && OccursAt(s, "Raider", i);
      assert s[i..i + 4] == s[i..i + 6][..4];
      assert OccursAt(s, "Raid", i);
    }
  }

  lemma FirstCharOccurs(s: string, sub: string)
    requires sub != [] && Contains(s, sub)
    ensures sub[0] in s
  {
    var i :| 0 <= i <= |s| && OccursAt(s, sub, i);
    assert s[i] == s[i..i + |sub|][0];
  }

  /** None of the mod's own goals is ever removed as conflicting. */
  lemma OwnGoalsKept(g: PrioritizedGoal)
    requires !g.goal.OtherGoal?
    ensures !Conflicting(g)
  {
    var name := SimpleName(g.goal);
    assert 'R' !in name && 'L' !in name;
    if Contains(name, "Raid") { FirstCharOccurs(name, "Raid"); }
    if Contains(name, "Raider") { FirstCharOccurs(name, "Raider"); }
    if Contains(name, "LongDistancePatrol") { FirstCharOccurs(name, "LongDistancePatrol"); }
  }

  /** A list of the mod's own goals passes through unchanged. */
  lemma {:induction false} OwnGoalsUnfiltered(gs: seq<PrioritizedGoal>)
    requires forall i :: 0 <= i < |gs| ==> !gs[i].goal.OtherGoal?
    ensures WithoutConflicts(gs) == gs
  {
    if gs != [] {
      OwnGoalsUnfiltered(gs[..|gs| - 1]);
      OwnGoalsKept(gs[|gs| - 1]);
      assert gs == gs[..|gs| - 1] + [gs[|gs| - 1]];
    }
  }

  /** Removing the conflicting goals a second time removes nothing more. */
  lemma {:induction false} WithoutConflictsIdempotent(gs: seq<PrioritizedGoal>)
    ensures WithoutConflicts(WithoutConflicts(gs)) == WithoutConflicts(gs)
  {
    if gs != [] {
      var init := gs[..|gs| - 1];
      var last := gs[|gs| - 1];
      WithoutConflictsIdempotent(init);
      var tail := if Conflicting(last) then [] else [last];
      WithoutConflictsAppend(WithoutConflicts(init), tail);
      if !Conflicting(last) {
        assert [last][..0] == [];
      }
    }
  }

  /** `removeConflictingGoals`: `removeIf` over the goal list. */
  method RemoveConflictingGoals(mob: Mob)
    modifies mob
    ensures mob.goals == WithoutConflicts(old(mob.goals))
    ensures mob.basicGoalsRegistered == old(mob.basicGoalsRegistered)
    ensures mob.strategyGoalsRegistered == old(mob.strategyGoalsRegistered)
    ensures mob.markerApplied == old(mob.markerApplied) && mob.tickCount == old(mob.tickCount)
    ensures mob.blockPosition == old(mob.blockPosition) && mob.destination == old(mob.destination)
    ensures mob.target == old(mob.target)
  {
    var gs := mob.goals;
    var kept: seq<PrioritizedGoal> := [];
    var i := 0;
    while i < |gs|
      invariant 0 <= i <= |gs|
      invariant kept == WithoutConflicts(gs[..i])
    {
      assert gs[..i + 1][..i] == gs[..i];
      if !Conflicting(gs[i]) {
        kept := kept + [gs[i]];
      }
      i := i + 1;
    }
    assert gs[..i] == gs;
    mob.goals := kept;
  }

  // ---------------------------------------------------------------------
  // Registration

  /** The two basic goals: Investigate at 3 and Searching at 6. */
  const BasicGoals: seq<PrioritizedGoal> := [PrioritizedGoal(3, InvestigateGoal), PrioritizedGoal(6, SearchingGoal)]

  /** The goals every strategy mob gets: CombatMonitor at -1, Tracking at 2,
      Investigate at 3 and Searching at 6. */
  const CoreGoals: seq<PrioritizedGoal> :=
    [PrioritizedGoal(-1, CombatMonitorGoal), PrioritizedGoal(2, TrackingGoal)] + BasicGoals

  /** The strategy goal, at priority 3; NONE has none. */
  function StrategyGoals(s: AIStrategy): seq<PrioritizedGoal>
  {
    match s
    case GUARD => [PrioritizedGoal(3, GuardGoal)]
    case SENTRIES => [PrioritizedGoal(3, SentriesGoal)]
    case PATROL => [PrioritizedGoal(3, PatrolGoal)]
    case NONE => []
  }

  predicate IsStrategyGoal(g: Goal)
  {
    g == GuardGoal || g == SentriesGoal || g == PatrolGoal
  }

  /** `registerBasicInvestigationGoals`, on the goal list and flags: a no-op
      once the basic flag is set. */
  function RegisterBasic(r: Registration): Registration
  {
    if r.basicRegistered then r
    else Registration(WithoutConflicts(r.goals) + BasicGoals, true, r.strategyRegistered)
  }

  /** `EntitySpawnHandler.registerStrategyGoals`: no guard of its own. */
  function RegisterStrategy(r: Registration, s: AIStrategy): Registration
  {
    Registration(WithoutConflicts(r.goals) + CoreGoals + StrategyGoals(s), true, true)
  }

  /** The block entity's `registerStrategyGoals`: skipped once the strategy
      flag is set. */
  function RegisterStrategyOnce(r: Registration, s: AIStrategy): Registration
  {
    if r.strategyRegistered then r else RegisterStrategy(r, s)
  }

  /** Registering the basic goals adds both goals, sets the flag, and is
      idempotent. */
  lemma RegisterBasicProperties(r: Registration)
    ensures var r1 := RegisterBasic(r);
      r1.basicRegistered && r1.strategyRegistered == r.strategyRegistered &&
      (!r.basicRegistered ==> r1.goals[|r1.goals| - 2..] == BasicGoals) &&
      RegisterBasic(r1) == r1
  {
  }

  /** The number of goals of a given class in a list. */
  function CountGoal(gs: seq<PrioritizedGoal>, g: Goal): nat
  {
    if gs == [] then 0 else CountGoal(gs[..|gs| - 1], g) + (if gs[|gs| - 1].goal == g then 1 else 0)
  }

  lemma {:induction false} CountGoalAppend(a: seq<PrioritizedGoal>, b: seq<PrioritizedGoal>, g: Goal)
    ensures CountGoal(a + b, g) == CountGoal(a, g) + CountGoal(b, g)
    decreases |b|
  {
    if b == [] {
      assert a + b == a;
    } else {
      CountGoalAppend(a, b[..|b| - 1], g);
      assert (a + b)[..|a + b| - 1] == a + b[..|b| - 1];
    }
  }

  lemma {:induction false} CountGoalAbsent(gs: seq<PrioritizedGoal>, g: Goal)
    requires forall i :: 0 <= i < |gs| ==> gs[i].goal != g
    ensures CountGoal(gs, g) == 0
  {
    if gs != [] {
      CountGoalAbsent(gs[..|gs| - 1], g);
    }
  }

  /** Registration adds exactly one goal of the strategy's class for a
      strategy other than NONE, and no strategy goal at all for NONE. */
  lemma RegisterStrategyAddsOne(r: Registration, s: AIStrategy, g: Goal)
    requires IsStrategyGoal(g)
    ensures CountGoal(RegisterStrategy(r, s).goals, g) ==
            CountGoal(WithoutConflicts(r.goals), g) + (if StrategyGoals(s) == [PrioritizedGoal(3, g)] then 1 else 0)
  {
    var w := WithoutConflicts(r.goals);
    CountGoalAppend(w + CoreGoals, StrategyGoals(s), g);
    CountGoalAppend(w, CoreGoals, g);
    CountGoalAbsent(CoreGoals, g);
    var sg := StrategyGoals(s);
    if sg != [] {
      assert sg[..0] == [];
    }
  }

  /** The goals registration adds are all the mod's own, so none is removed. */
  lemma AddedGoalsKept(s: AIStrategy)
    ensures WithoutConflicts(CoreGoals + StrategyGoals(s)) == CoreGoals + StrategyGoals(s)
  {
    var added := CoreGoals + StrategyGoals(s);
    assert forall i :: 0 <= i < |added| ==> !added[i].goal.OtherGoal?;
    OwnGoalsUnfiltered(added);
  }

  /** Without the caller's guard, registering twice adds every goal twice. */
  lemma RegisterStrategyRepeats(r: Registration, s: AIStrategy)
    ensures var once := RegisterStrategy(r, s);
      RegisterStrategy(once, s).goals == once.goals + CoreGoals + StrategyGoals(s)
  {
    var w := WithoutConflicts(r.goals);
    var added := CoreGoals + StrategyGoals(s);
    AddedGoalsKept(s);
    WithoutConflictsAppend(w, added);
    WithoutConflictsIdempotent(r.goals);
    assert w + CoreGoals + StrategyGoals(s) == w + added;
  }

  /** With the block entity's guard, registration happens at most once. */
  lemma RegisterStrategyOnceIdempotent(r: Registration, s: AIStrategy, s2: AIStrategy)
    ensures RegisterStrategyOnce(RegisterStrategyOnce(r, s), s2) == RegisterStrategyOnce(r, s)
  {
  }

  /** `registerBasicInvestigationGoals`. */
  method RegisterBasicInvestigationGoals(mob: Mob)
    modifies mob, mob.cap
    ensures mob.Registered() == RegisterBasic(old(mob.Registered()))
    ensures mob.View() == old(mob.View()).(goals := mob.goals, basicGoalsRegistered := mob.basicGoalsRegistered,
                                           strategyGoalsRegistered := mob.strategyGoalsRegistered)
    ensures mob.cap != null ==>
              mob.cap.Snapshot() == if old(mob.basicGoalsRegistered) then old(mob.cap.Snapshot())
                                    else old(mob.cap.Snapshot()).(hasBasicGoals := true)
    ensures mob.destination == old(mob.destination) && mob.target == old(mob.target)
    ensures mob.markerApplied == old(mob.markerApplied)
  {
    if mob.basicGoalsRegistered {
      return;
    }
    RemoveConflictingGoals(mob);
    mob.goals := mob.goals + BasicGoals;
    if mob.cap != null {
      mob.cap.SetHasBasicGoals(true);
    }
    mob.basicGoalsRegistered := true;
  }

  /** `EntitySpawnHandler.registerStrategyGoals`. */
  method RegisterStrategyGoals(mob: Mob, s: AIStrategy)
    modifies mob
    ensures mob.Registered() == RegisterStrategy(old(mob.Registered()), s)
    ensures mob.View() == old(mob.View()).(goals := mob.goals, basicGoalsRegistered := mob.basicGoalsRegistered,
                                           strategyGoalsRegistered := mob.strategyGoalsRegistered)
    ensures mob.destination == old(mob.destination) && mob.target == old(mob.target)
    ensures mob.markerApplied == old(mob.markerApplied)
  {
    RemoveConflictingGoals(mob);
    mob.goals := mob.goals + CoreGoals + StrategyGoals(s);
    mob.strategyGoalsRegistered := true;
    mob.basicGoalsRegistered := true;
  }

  // ---------------------------------------------------------------------
  // onEntityJoinLevel

  /** Some goal is named like one of the three strategy goals. */
  predicate HasStrategyGoal(gs: seq<PrioritizedGoal>)
  {
    exists i :: 0 <= i < |gs| && SimpleName(gs[i].goal) in {"GuardGoal", "SentriesGoal", "PatrolGoal"}
  }

  /** Some goal is named "InvestigateGoal". */
  predicate HasInvestigateGoal(gs: seq<PrioritizedGoal>)
  {
    exists i :: 0 <= i < |gs| && SimpleName(gs[i].goal) == "InvestigateGoal"
  }

  /** What joining the level does to the goals of a mob whose record holds
      `strategy` and `hasBasicGoals`. */
  function JoinLevel(r: Registration, strategy: AIStrategy, hasBasicGoals: bool): Registration
  {
    if strategy != NONE then
      if HasStrategyGoal(r.goals) then r else RegisterStrategy(r, strategy)
    else if hasBasicGoals then
      if HasInvestigateGoal(r.goals) then r
      else Registration(WithoutConflicts(r.goals) + BasicGoals, true, r.strategyRegistered)
    else r
  }

  /** After joining, a strategy mob has a strategy goal and a mob with basic
      goals has an Investigate goal; joining again changes nothing. */
  lemma JoinLevelRestores(r: Registration, strategy: AIStrategy, hasBasicGoals: bool)
    ensures var r1 := JoinLevel(r, strategy, hasBasicGoals);
      (strategy != NONE ==> HasStrategyGoal(r1.goals)) &&
      (strategy == NONE && hasBasicGoals ==> HasInvestigateGoal(r1.goals)) &&
      JoinLevel(r1, strategy, hasBasicGoals) == r1
  {
    var r1 := JoinLevel(r, strategy, hasBasicGoals);
    if strategy != NONE && !HasStrategyGoal(r.goals) {
      var i := |r1.goals| - 1;
      assert r1.goals[i] == StrategyGoals(strategy)[0];
    } else if strategy == NONE && hasBasicGoals && !HasInvestigateGoal(r.goals) {
      var i := |r1.goals| - 2;
      assert r1.goals[i] == PrioritizedGoal(3, InvestigateGoal);
    }
  }

  /** `onEntityJoinLevel`: `mob` is null when the entity is not a Mob. */
  method OnEntityJoinLevel(isClientSide: bool, mob: Mob?)
    modifies mob
    ensures mob != null && !isClientSide && mob.cap != null ==>
      mob.Registered() == JoinLevel(old(mob.Registered()), mob.cap.strategy, mob.cap.hasBasicGoals)
    ensures mob != null && (isClientSide || mob.cap == null) ==> mob.Registered() == old(mob.Registered())
    ensures mob != null ==> mob.destination == old(mob.destination) && mob.target == old(mob.target)
    ensures mob != null ==> mob.markerApplied == old(mob.markerApplied)
  {
    if isClientSide || mob == null {
      return;
    }
    var cap := mob.cap;
    if cap == null {
      return;
    }
    if cap.strategy != NONE {
      var hasStrategyGoals := HasStrategyGoalScan(mob.goals);
      if !hasStrategyGoals {
        RegisterStrategyGoals(mob, cap.strategy);
        mob.strategyGoalsRegistered := true;
        mob.basicGoalsRegistered := true;
      }
    } else if cap.hasBasicGoals {
      var hasInvestigateGoal := HasInvestigateGoalScan(mob.goals);
      if !hasInvestigateGoal {
        RemoveConflictingGoals(mob);
        mob.goals := mob.goals + BasicGoals;
        mob.basicGoalsRegistered := true;
      }
    }
  }

  /** The `anyMatch` over the goal list for a strategy goal's name. */
  method HasStrategyGoalScan(gs: seq<PrioritizedGoal>) returns (found: bool)
    ensures found == HasStrategyGoal(gs)
  {
    found := false;
    var i := 0;
    while i < |gs|
      invariant 0 <= i <= |gs|
      invariant !exists j :: 0 <= j < i && SimpleName(gs[j].goal) in {"GuardGoal", "SentriesGoal", "PatrolGoal"}
    {
      var name := SimpleName(gs[i].goal);
      if name == "GuardGoal" || name == "SentriesGoal" || name == "PatrolGoal" {
        return true;
      }
      i := i + 1;
    }
  }

  /** The `anyMatch` over the goal list for "InvestigateGoal". */
  method HasInvestigateGoalScan(gs: seq<PrioritizedGoal>) returns (found: bool)
    ensures found == HasInvestigateGoal(gs)
  {
    found := false;
    var i := 0;
    while i < |gs|
      invariant 0 <= i <= |gs|
      invariant !exists j :: 0 <= j < i && SimpleName(gs[j].goal) == "InvestigateGoal"
    {
      if SimpleName(gs[i].goal) == "InvestigateGoal" {
        return true;
      }
      i := i + 1;
    }
  }
}
