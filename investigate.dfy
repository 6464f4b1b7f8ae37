// InvestigateGoal: in ALERT, walk to the last known target position, then
// look around there for INVESTIGATION_DURATION_TICKS.

module Investigate {
  import opened Types
  import opened Capability
  import Mobs

  /** Failed re-navigations before arrival is forced. */
  const MaxNavigationFailedTicks := 100

  /** The goal's fields and where the mob's navigation heads. */
  datatype InvestigateState = InvestigateState(
    target: Option<Pos>,
    lookAroundTimer: int,
    lookAroundCooldown: int,
    hasArrived: bool,
    navigationFailedTicks: int,
    destination: Option<Pos>)

  /** The engine's and configuration's answers during one tick: path created
      and accepted for a changed target, arrival within the configured
      distance, navigation done, path created and accepted when
      re-navigating, and the configured LOOK_AROUND_INTERVAL. */
  datatype TickInput = TickInput(
    retargetPathFound: bool,
    retargetAccepted: bool,
    arrived: bool,
    navDone: bool,
    pathFound: bool,
    accepted: bool,
    lookAroundInterval: int)

  predicate GoodInput(input: TickInput)
  {
    10 <= input.lookAroundInterval <= 200
  }

  /** Before arrival the look timers are 0 and fewer than 100 failures are
      counted; after it the cooldown is between 1 and the largest interval
      and the failures stop at 100. */
  predicate Valid(s: InvestigateState)
  {
    0 <= s.navigationFailedTicks && 0 <= s.lookAroundTimer &&
    (!s.hasArrived ==> s.navigationFailedTicks < MaxNavigationFailedTicks && s.lookAroundTimer == 0 && s.lookAroundCooldown == 0) &&
    (s.hasArrived ==> s.navigationFailedTicks <= MaxNavigationFailedTicks && 1 <= s.lookAroundCooldown <= 200)
  }

  /** `canUse`, on the AI record. */
  predicate CanUseSpec(r: AIRecord)
  {
    r.state == ALERT && r.lastKnownTargetPos.Some?
  }

  /** What `canUse` does to the record: ALERT without a position falls back
      to IDLE. */
  function CanUseRecord(r: AIRecord): AIRecord
  {
    if r.state == ALERT && r.lastKnownTargetPos.None? then r.(state := IDLE) else r
  }

  /** A fresh investigation of `target`. */
  function Begin(s: InvestigateState, target: Pos): InvestigateState
  {
    s.(target := Some(target), hasArrived := false, lookAroundTimer := 0, lookAroundCooldown := 0,
       navigationFailedTicks := 0)
  }

  /** `canContinueToUse`. */
  predicate Continues(s: InvestigateState, r: AIRecord, durationTicks: int)
  {
    r.state == ALERT && !(s.hasArrived && s.lookAroundTimer >= durationTicks)
  }

  /** What `stop` does to the record: a still-ALERT mob goes back to IDLE and
      forgets the position. */
  function StopRecord(r: AIRecord): AIRecord
  {
    if r.state == ALERT then r.(state := IDLE, lastKnownTargetPos := None) else r
  }

  /** `tick`, given the record's last known position (None when the
      capability is absent). */
  function TickStep(s: InvestigateState, lastKnown: Option<Pos>, input: TickInput): InvestigateState
  {
    if s.target.None? then s
    else
      var s1 :=
        if lastKnown.Some? && lastKnown != s.target then
          Begin(s, lastKnown.value).(destination :=
            Mobs.Moved(s.destination, lastKnown.value, input.retargetPathFound, input.retargetAccepted))
        else s;
      if !s1.hasArrived then ApproachStep(s1, input)
      else LookStep(s1, input)
  }

  /** The approach: arrive, or re-navigate when navigation is done and count
      the failures, forcing arrival at 100. */
  function ApproachStep(s: InvestigateState, input: TickInput): InvestigateState
    requires s.target.Some?
  {
    if input.arrived then s.(hasArrived := true, destination := None, lookAroundCooldown := 5)
    else if !input.navDone then s
    else
      var dest := Mobs.Moved(s.destination, s.target.value, input.pathFound, input.accepted);
      if input.pathFound && input.accepted then s.(destination := dest, navigationFailedTicks := 0)
      else
        var f := s.navigationFailedTicks + 1;
        if f >= MaxNavigationFailedTicks then
          s.(destination := None, navigationFailedTicks := f, hasArrived := true, lookAroundCooldown := 5)
        else s.(destination := dest, navigationFailedTicks := f)
  }

  /** Looking around after arrival. */
  function LookStep(s: InvestigateState, input: TickInput): InvestigateState
  {
    var c := s.lookAroundCooldown - 1;
    s.(lookAroundTimer := s.lookAroundTimer + 1, lookAroundCooldown := if c <= 0 then input.lookAroundInterval else c)
  }

  /** `canUse` starts from a valid state. */
  lemma BeginValid(s: InvestigateState, target: Pos)
    ensures Valid(Begin(s, target)) && !Begin(s, target).hasArrived
  {
  }

  /** A tick keeps the state valid. */
  lemma TickValid(s: InvestigateState, lastKnown: Option<Pos>, input: TickInput)
    requires Valid(s) && GoodInput(input)
    ensures Valid(TickStep(s, lastKnown, input))
  {
  }

  /** A different known position restarts the investigation there. */
  lemma TickRetargets(s: InvestigateState, p: Pos, input: TickInput)
    requires Valid(s) && GoodInput(input) && s.target.Some? && s.target != Some(p)
    ensures var t := TickStep(s, Some(p), input);
            t.target == Some(p) &&
            (t.hasArrived <==> input.arrived) &&
            t.lookAroundTimer == 0 &&
            t.navigationFailedTicks == (if !input.arrived && input.navDone && !(input.pathFound && input.accepted) then 1 else 0)
  {
  }

  /** The look timer counts the ticks after arrival, one per tick, and never
      moves before it; forced arrival comes with the 100th failure. */
  lemma TickTimers(s: InvestigateState, lastKnown: Option<Pos>, input: TickInput)
    requires Valid(s) && GoodInput(input) && s.target.Some?
    requires lastKnown.None? || lastKnown == s.target
    ensures var t := TickStep(s, lastKnown, input);
            (s.hasArrived ==> t.hasArrived && t.lookAroundTimer == s.lookAroundTimer + 1) &&
            (!s.hasArrived ==> t.lookAroundTimer == 0) &&
            (!s.hasArrived && t.hasArrived && !input.arrived ==>
               t.navigationFailedTicks == MaxNavigationFailedTicks && t.lookAroundCooldown == 5) &&
            (!s.hasArrived && !input.arrived && input.navDone && input.pathFound && input.accepted ==>
               t.navigationFailedTicks == 0)
  {
  }

  /** A run of ticks with no change of position. */
  function Run(s: InvestigateState, lastKnown: Option<Pos>, inputs: seq<TickInput>): InvestigateState
    decreases |inputs|
  {
    if inputs == [] then s else Run(TickStep(s, lastKnown, inputs[0]), lastKnown, inputs[1..])
  }

  /** Once arrived, k ticks without a new position add k to the look timer,
      so the investigation ends after INVESTIGATION_DURATION_TICKS of
      looking around. */
  lemma {:induction false} RunLooksAround(s: InvestigateState, lastKnown: Option<Pos>, inputs: seq<TickInput>)
    requires Valid(s) && s.target.Some? && s.hasArrived
    requires lastKnown.None? || lastKnown == s.target
    requires forall k :: 0 <= k < |inputs| ==> GoodInput(inputs[k])
    ensures var t := Run(s, lastKnown, inputs);
            Valid(t) && t.hasArrived && t.target == s.target && t.lookAroundTimer == s.lookAroundTimer + |inputs|
    ensures forall r: AIRecord, d: int :: d <= s.lookAroundTimer + |inputs| ==> !Continues(Run(s, lastKnown, inputs), r, d)
    decreases |inputs|
  {
    if inputs != [] {
      TickTimers(s, lastKnown, inputs[0]);
      TickValid(s, lastKnown, inputs[0]);
      RunLooksAround(TickStep(s, lastKnown, inputs[0]), lastKnown, inputs[1..]);
    }
  }

  class InvestigateGoal {
    const mob: Mobs.Mob
    var investigationTarget: Option<Pos>
    var lookAroundTimer: int
    var lookAroundCooldown: int
    var hasArrived: bool
    var navigationFailedTicks: int

    constructor(mob: Mobs.Mob)
      ensures this.mob == mob
      ensures State() == InvestigateState(None, 0, 0, false, 0, mob.destination)
      ensures Valid(State())
    {
      this.mob := mob;
      investigationTarget := None;
      lookAroundTimer := 0;
      lookAroundCooldown := 0;
      hasArrived := false;
      navigationFailedTicks := 0;
    }

    function State(): InvestigateState
      reads this, mob
    {
      InvestigateState(investigationTarget, lookAroundTimer, lookAroundCooldown, hasArrived, navigationFailedTicks,
                       mob.destination)
    }

    /** `canUse`. */
    method CanUse() returns (b: bool)
      modifies this, mob.cap
      ensures b == (mob.cap != null && CanUseSpec(old(mob.cap.Snapshot())))
      ensures mob.cap != null ==> mob.cap.Snapshot() == CanUseRecord(old(mob.cap.Snapshot()))
      ensures State() == if b then Begin(old(State()), mob.cap.lastKnownTargetPos.value) else old(State())
    {
      var cap := mob.cap;
      if cap == null || cap.state != ALERT {
        return false;
      }
      var targetPos := cap.lastKnownTargetPos;
      if targetPos.None? {
        cap.SetState(IDLE);
        return false;
      }
      investigationTarget := targetPos;
      hasArrived := false;
      lookAroundTimer := 0;
      lookAroundCooldown := 0;
      navigationFailedTicks := 0;
      return true;
    }

    /** `canContinueToUse`, with the configured INVESTIGATION_DURATION_TICKS. */
    method CanContinueToUse(durationTicks: int) returns (b: bool)
      ensures b == (mob.cap != null && Continues(State(), mob.cap.Snapshot(), durationTicks))
    {
      var cap := mob.cap;
      if cap == null || cap.state != ALERT {
        return false;
      }
      b := !(hasArrived && lookAroundTimer >= durationTicks);
    }

    /** `start`: head for the target. */
    method Start(pathFound: bool, accepted: bool)
      requires investigationTarget.Some?
      modifies mob
      ensures State() == old(State()).(destination := Mobs.Moved(old(mob.destination), investigationTarget.value, pathFound, accepted))
      ensures mob.View() == old(mob.View()).(destination := State().destination)
    {
      var _ := mob.MoveAlongPath(investigationTarget.value, pathFound, accepted);
    }

    /** `stop`: without the capability it returns before touching anything. */
    method Stop()
      modifies this, mob, mob.cap
      ensures mob.cap == null ==> State() == old(State()) && mob.View() == old(mob.View())
      ensures mob.cap != null ==>
                mob.cap.Snapshot() == StopRecord(old(mob.cap.Snapshot())) &&
                State() == old(State()).(target := None, hasArrived := false, destination := None) &&
                mob.View() == old(mob.View()).(destination := None)
    {
      var cap := mob.cap;
      if cap == null {
        return;
      }
      if cap.state == ALERT {
        cap.SetState(IDLE);
        cap.SetLastKnownTargetPos(None);
      }
      mob.StopNavigation();
      investigationTarget := None;
      hasArrived := false;
    }

    /** `tick`. */
    method Tick(input: TickInput)
      modifies this, mob
      ensures State() == TickStep(old(State()), if mob.cap != null then mob.cap.lastKnownTargetPos else None, input)
      ensures mob.View() == old(mob.View()).(destination := State().destination)
    {
      if investigationTarget.None? {
        return;
      }
      var cap := mob.cap;
      if cap != null {
        Retarget(cap.lastKnownTargetPos, input);
      }
      if !hasArrived {
        Approach(input);
      } else {
        LookAround(input);
      }
    }

    /** The looking-around part of `tick`, after arrival. */
    method LookAround(input: TickInput)
      modifies this
      ensures State() == LookStep(old(State()), input)
    {
      lookAroundTimer := lookAroundTimer + 1;
      lookAroundCooldown := lookAroundCooldown - 1;
      if lookAroundCooldown <= 0 {
        lookAroundCooldown := input.lookAroundInterval;
      }
    }

    /** The part of `tick` that follows a changed last known position. */
    method Retarget(currentTarget: Option<Pos>, input: TickInput)
      requires investigationTarget.Some?
      modifies this, mob
      ensures investigationTarget.Some?
      ensures State() ==
                if currentTarget.Some? && currentTarget != old(investigationTarget) then
                  Begin(old(State()), currentTarget.value).(destination :=
                    Mobs.Moved(old(mob.destination), currentTarget.value, input.retargetPathFound, input.retargetAccepted))
                else old(State())
      ensures mob.View() == old(mob.View()).(destination := State().destination)
    {
      if currentTarget.Some? && currentTarget != investigationTarget {
        investigationTarget := currentTarget;
        hasArrived := false;
        lookAroundTimer := 0;
        lookAroundCooldown := 0;
        navigationFailedTicks := 0;
        var _ := mob.MoveAlongPath(currentTarget.value, input.retargetPathFound, input.retargetAccepted);
      }
    }

    /** The approach part of `tick`. */
    method Approach(input: TickInput)
      requires investigationTarget.Some?
      modifies this, mob
      ensures State() == ApproachStep(old(State()), input)
      ensures mob.View() == old(mob.View()).(destination := State().destination)
    {
      if input.arrived {
        hasArrived := true;
        mob.StopNavigation();
        lookAroundCooldown := 5;
      } else if input.navDone {
        var moveToSuccess := mob.MoveAlongPath(investigationTarget.value, input.pathFound, input.accepted);
        if !moveToSuccess {
          navigationFailedTicks := navigationFailedTicks + 1;
          if navigationFailedTicks >= MaxNavigationFailedTicks {
            hasArrived := true;
            lookAroundCooldown := 5;
            mob.StopNavigation();
          }
        } else {
          navigationFailedTicks := 0;
        }
      }
    }
  }
}
