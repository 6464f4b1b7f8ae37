// GuardGoal: stay around the spawn position, return to the position the
// mob was pulled away from, and get unstuck when it stops moving.

module Guard {
  import opened Types
  import opened Capability
  import Mobs

  /** Consecutive failures to path back before the interrupted position is
      given up. */
  const MaxReturnFailures := 10

  /** The goal's fields, the record's interrupted position and where the
      mob's navigation heads.  `hasLastPosition` says whether the last
      observed position is set; the position itself only matters through
      the `moved` observation. */
  datatype GuardState = GuardState(
    home: Option<Pos>,
    hasLastPosition: bool,
    stuckTicks: int,
    wanderCooldown: int,
    returning: bool,
    failures: int,
    interrupted: Option<Pos>,
    destination: Option<Pos>)

  /** The engine's and configuration's answers during one tick: within 3
      blocks of the interrupted position, navigation done, whether the path
      back to the interrupted position was created and accepted, whether the
      guard's own path (home, wander point or back-off block) was created and
      accepted, farther than twice the guard radius from home, closer than
      the radius, moved at least 0.1 since the last tick, the configured
      STUCK_DETECTION_THRESHOLD, the wander draw in [0, 100), the random
      point around home, and the block two steps behind the mob. */
  datatype TickInput = TickInput(
    nearInterrupted: bool,
    navDone: bool,
    returnPathFound: bool,
    returnAccepted: bool,
    pathFound: bool,
    accepted: bool,
    farFromHome: bool,
    withinRadius: bool,
    moved: bool,
    stuckThreshold: int,
    wanderDraw: int,
    wanderTarget: Pos,
    backTarget: Pos)

  predicate GoodInput(input: TickInput)
  {
    20 <= input.stuckThreshold <= 200 && 0 <= input.wanderDraw < 100
  }

  /** Failures stay below 10 and are 0 outside returning mode; stuckTicks
      stays within the threshold's range; the wander cooldown stays below
      200. */
  predicate Valid(s: GuardState)
  {
    0 <= s.failures < MaxReturnFailures && (!s.returning ==> s.failures == 0) &&
    0 <= s.stuckTicks <= 200 && 0 <= s.wanderCooldown < 200
  }

  /** `canUse`, on the AI record. */
  predicate CanUseSpec(r: AIRecord)
  {
    r.strategy == GUARD && r.state == IDLE && r.spawnPosition.Some?
  }

  /** `canContinueToUse`, on the AI record. */
  predicate Continues(r: AIRecord)
  {
    r.state == IDLE && r.strategy == GUARD
  }

  /** `start`: reset the counters; with an interrupted position, head back to
      it when a path exists and forget it otherwise. */
  function StartStep(s: GuardState, capPresent: bool, pathFound: bool, accepted: bool): GuardState
  {
    var s1 := s.(hasLastPosition := true, stuckTicks := 0, wanderCooldown := 0, returning := false, failures := 0);
    if !capPresent || s.interrupted.None? then s1
    else if pathFound then
      s1.(destination := Mobs.Moved(s.destination, s.interrupted.value, true, accepted), returning := true)
    else s1.(interrupted := None)
  }

  /** `stop`, on the record: remember where the mob was pulled away, unless
      it is still IDLE or a position is already remembered. */
  function StopRecord(r: AIRecord, blockPosition: Pos): AIRecord
  {
    if r.state != IDLE && r.interruptedPatrolPosition.None? then r.(interruptedPatrolPosition := Some(blockPosition))
    else r
  }

  /** The returning-mode handling at the head of a tick. */
  function ReturnStep(s: GuardState, input: TickInput): GuardState
  {
    if s.interrupted.None? then s.(returning := false, failures := 0)
    else if input.nearInterrupted then s.(interrupted := None, returning := false, failures := 0)
    else if !input.navDone then s
    else if input.returnPathFound then
      s.(destination := Mobs.Moved(s.destination, s.interrupted.value, true, input.returnAccepted), failures := 0)
    else if s.failures + 1 >= MaxReturnFailures then s.(interrupted := None, returning := false, failures := 0)
    else s.(failures := s.failures + 1)
  }

  /** `detectAndResolveStuck`. */
  function StuckStep(s: GuardState, input: TickInput): GuardState
  {
    if !s.hasLastPosition then s.(hasLastPosition := true)
    else if input.moved then s.(stuckTicks := 0)
    else if s.stuckTicks + 1 > input.stuckThreshold then
      s.(destination := Mobs.Moved(None, input.backTarget, input.pathFound, input.accepted),
         wanderCooldown := 10, stuckTicks := 0)
    else s.(stuckTicks := s.stuckTicks + 1)
  }

  /** Guarding proper: head home when far away; otherwise stuck detection and
      the wander cooldown. */
  function GuardStep(s: GuardState, input: TickInput): GuardState
    requires s.home.Some?
  {
    if input.farFromHome then
      s.(destination := Mobs.Moved(s.destination, s.home.value, input.pathFound, input.accepted))
    else
      var s1 := StuckStep(s, input);
      var c := s1.wanderCooldown - 1;
      if c <= 0 then
        var t := if input.withinRadius then input.wanderTarget else s.home.value;
        s1.(wanderCooldown := 100 + input.wanderDraw,
            destination := Mobs.Moved(s1.destination, t, input.pathFound, input.accepted))
      else s1.(wanderCooldown := c)
  }

  /** `tick`; without the capability the returning-mode handling is
      skipped. */
  function TickStep(s: GuardState, input: TickInput, capPresent: bool): GuardState
  {
    if s.home.None? then s
    else if s.returning then
      var s1 := if capPresent then ReturnStep(s, input) else s;
      if s1.returning then s1 else GuardStep(s1, input)
    else GuardStep(s, input)
  }

  /** `start` leaves a valid state, in returning mode only with an
      interrupted position, and never invents one. */
  lemma StartValid(s: GuardState, capPresent: bool, pathFound: bool, accepted: bool)
    ensures var t := StartStep(s, capPresent, pathFound, accepted);
            Valid(t) && t.stuckTicks == 0 && t.wanderCooldown == 0 &&
            (t.returning <==> capPresent && s.interrupted.Some? && pathFound) &&
            (t.returning ==> t.interrupted == s.interrupted) &&
            (capPresent && s.interrupted.Some? && !pathFound ==> t.interrupted.None?) &&
            (t.interrupted.Some? ==> t.interrupted == s.interrupted)
  {
  }

  /** `stop` never overwrites a remembered position, and after it a mob that
      left IDLE always has one. */
  lemma StopRemembers(r: AIRecord, blockPosition: Pos)
    ensures r.interruptedPatrolPosition.Some? ==> StopRecord(r, blockPosition) == r
    ensures r.state != IDLE ==> StopRecord(r, blockPosition).interruptedPatrolPosition.Some?
    ensures r.state == IDLE ==> StopRecord(r, blockPosition) == r
  {
  }

  /** A tick keeps the state valid. */
  lemma TickValid(s: GuardState, input: TickInput, capPresent: bool)
    requires Valid(s) && GoodInput(input)
    ensures Valid(TickStep(s, input, capPresent))
  {
  }

  /** In returning mode consecutive path failures are counted, a path resets
      the count, and the tenth failure gives up the position and ends
      returning mode; coming near, or losing the position, also ends it. */
  lemma ReturnCounting(s: GuardState, input: TickInput)
    requires Valid(s) && GoodInput(input) && s.home.Some? && s.returning && s.interrupted.Some?
    ensures var t := TickStep(s, input, true);
            (input.nearInterrupted ==> t.interrupted.None? && t.failures == 0) &&
            (!input.nearInterrupted && input.navDone && input.returnPathFound ==>
               t.returning && t.failures == 0 && t.interrupted == s.interrupted) &&
            (!input.nearInterrupted && input.navDone && !input.returnPathFound ==>
               if s.failures + 1 >= MaxReturnFailures then !t.returning && t.interrupted.None?
               else t.returning && t.failures == s.failures + 1 && t.interrupted == s.interrupted) &&
            (!input.nearInterrupted && !input.navDone ==> t == s)
  {
  }

  /** While returning mode is still on, nothing of normal guarding happens. */
  lemma ReturningSkipsGuarding(s: GuardState, input: TickInput, capPresent: bool)
    requires s.home.Some? && s.returning
    ensures var t := TickStep(s, input, capPresent);
            t.returning ==>
              t.stuckTicks == s.stuckTicks && t.wanderCooldown == s.wanderCooldown &&
              t.hasLastPosition == s.hasLastPosition
  {
  }

  /** Far from home a tick only paths home: stuck detection and the wander
      cooldown are skipped. */
  lemma FarOnlyPathsHome(s: GuardState, input: TickInput)
    requires s.home.Some? && !s.returning && input.farFromHome
    ensures TickStep(s, input, true) ==
              s.(destination := Mobs.Moved(s.destination, s.home.value, input.pathFound, input.accepted))
  {
  }

  /** Stuck detection: standing still counts up, moving resets, and passing
      the threshold resets the count and sets the wander cooldown to 10,
      which the same tick lowers to 9; otherwise the cooldown counts down
      and, once expired, is redrawn as 100 plus the draw. */
  lemma StuckAndWander(s: GuardState, input: TickInput)
    requires Valid(s) && GoodInput(input) && s.home.Some? && !s.returning && !input.farFromHome && s.hasLastPosition
    ensures var t := TickStep(s, input, true);
            (input.moved ==> t.stuckTicks == 0) &&
            (!input.moved && s.stuckTicks + 1 <= input.stuckThreshold ==> t.stuckTicks == s.stuckTicks + 1) &&
            (!input.moved && s.stuckTicks + 1 > input.stuckThreshold ==> t.stuckTicks == 0 && t.wanderCooldown == 9) &&
            (input.moved && s.wanderCooldown <= 1 ==> t.wanderCooldown == 100 + input.wanderDraw) &&
            (input.moved && s.wanderCooldown > 1 ==> t.wanderCooldown == s.wanderCooldown - 1)
  {
  }

  class GuardGoal {
    const mob: Mobs.Mob
    var homePosition: Option<Pos>
    var hasLastPosition: bool
    var stuckTicks: int
    var wanderCooldown: int
    var isReturningToInterruptedPosition: bool
    var returnFailureCount: int

    constructor(mob: Mobs.Mob)
      ensures this.mob == mob
      ensures homePosition.None? && !hasLastPosition && stuckTicks == 0 && wanderCooldown == 0
      ensures !isReturningToInterruptedPosition && returnFailureCount == 0
      ensures Valid(State())
    {
      this.mob := mob;
      homePosition := None;
      hasLastPosition := false;
      stuckTicks := 0;
      wanderCooldown := 0;
      isReturningToInterruptedPosition := false;
      returnFailureCount := 0;
    }

    /** The record's interrupted position, when the record is attached. */
    function Interrupted(): Option<Pos>
      reads mob, mob.cap
    {
      if mob.cap != null then mob.cap.interruptedPatrolPosition else None
    }

    function State(): GuardState
      reads this, mob, mob.cap
    {
      GuardState(homePosition, hasLastPosition, stuckTicks, wanderCooldown, isReturningToInterruptedPosition,
                 returnFailureCount, Interrupted(), mob.destination)
    }

    /** `canUse`: the spawn position becomes home. */
    method CanUse() returns (b: bool)
      modifies this
      ensures b == (mob.cap != null && CanUseSpec(mob.cap.Snapshot()))
      ensures State() == if b then old(State()).(home := mob.cap.spawnPosition) else old(State())
    {
      var cap := mob.cap;
      if cap == null || cap.strategy != GUARD || cap.state != IDLE || cap.spawnPosition.None? {
        return false;
      }
      homePosition := cap.spawnPosition;
      return true;
    }

    /** `canContinueToUse`. */
    method CanContinueToUse() returns (b: bool)
      ensures b == (mob.cap != null && Continues(mob.cap.Snapshot()))
    {
      var cap := mob.cap;
      b := cap != null && cap.state == IDLE && cap.strategy == GUARD;
    }

    /** `start`. */
    method Start(pathFound: bool, accepted: bool)
      modifies this, mob, mob.cap
      ensures State() == StartStep(old(State()), mob.cap != null, pathFound, accepted)
      ensures mob.View() == old(mob.View()).(destination := State().destination)
      ensures mob.cap != null ==> mob.cap.Snapshot() == old(mob.cap.Snapshot()).(interruptedPatrolPosition := Interrupted())
    {
      hasLastPosition := true;
      stuckTicks := 0;
      wanderCooldown := 0;
      isReturningToInterruptedPosition := false;
      returnFailureCount := 0;
      var cap := mob.cap;
      if cap != null && cap.interruptedPatrolPosition.Some? {
        if pathFound {
          var _ := mob.MoveAlongPath(cap.interruptedPatrolPosition.value, true, accepted);
          isReturningToInterruptedPosition := true;
        } else {
          cap.SetInterruptedPatrolPosition(None);
        }
      }
    }

    /** `stop`. */
    method Stop()
      modifies this, mob, mob.cap
      ensures !hasLastPosition
      ensures State() == old(State()).(hasLastPosition := false, interrupted := Interrupted(), destination := None)
      ensures mob.View() == old(mob.View()).(destination := None)
      ensures mob.cap != null ==> mob.cap.Snapshot() == StopRecord(old(mob.cap.Snapshot()), mob.blockPosition)
    {
      mob.StopNavigation();
      hasLastPosition := false;
      var cap := mob.cap;
      if cap != null && cap.state != IDLE && cap.interruptedPatrolPosition.None? {
        cap.SetInterruptedPatrolPosition(Some(mob.blockPosition));
      }
    }

    /** `tick`. */
    method Tick(input: TickInput)
      modifies this, mob, mob.cap
      ensures State() == TickStep(old(State()), input, mob.cap != null)
      ensures mob.View() == old(mob.View()).(destination := State().destination)
      ensures mob.cap != null ==> mob.cap.Snapshot() == old(mob.cap.Snapshot()).(interruptedPatrolPosition := Interrupted())
    {
      if homePosition.None? {
        return;
      }
      if isReturningToInterruptedPosition {
        var cap := mob.cap;
        if cap != null {
          ReturnToInterrupted(input);
        }
        if isReturningToInterruptedPosition {
          return;
        }
      }
      GuardHome(input);
    }

    /** The part of `tick` after returning mode. */
    method GuardHome(input: TickInput)
      requires homePosition.Some?
      modifies this, mob
      ensures State() == GuardStep(old(State()), input)
      ensures mob.View() == old(mob.View()).(destination := State().destination)
    {
      if input.farFromHome {
        var _ := mob.MoveAlongPath(homePosition.value, input.pathFound, input.accepted);
        return;
      }
      DetectAndResolveStuck(input);
      wanderCooldown := wanderCooldown - 1;
      if wanderCooldown <= 0 {
        wanderCooldown := 100 + input.wanderDraw;
        var t := if input.withinRadius then input.wanderTarget else homePosition.value;
        var _ := mob.MoveAlongPath(t, input.pathFound, input.accepted);
      }
    }

    /** The returning-mode block of `tick`. */
    method ReturnToInterrupted(input: TickInput)
      requires mob.cap != null
      modifies this, mob, mob.cap
      ensures State() == ReturnStep(old(State()), input)
      ensures homePosition == old(homePosition)
      ensures mob.View() == old(mob.View()).(destination := State().destination)
      ensures mob.cap.Snapshot() == old(mob.cap.Snapshot()).(interruptedPatrolPosition := Interrupted())
    {
      var cap := mob.cap;
      var interrupted := cap.interruptedPatrolPosition;
      if interrupted.None? {
        isReturningToInterruptedPosition := false;
        returnFailureCount := 0;
      } else if input.nearInterrupted {
        cap.SetInterruptedPatrolPosition(None);
        isReturningToInterruptedPosition := false;
        returnFailureCount := 0;
      } else if input.navDone {
        if input.returnPathFound {
          var _ := mob.MoveAlongPath(interrupted.value, true, input.returnAccepted);
          returnFailureCount := 0;
        } else {
          returnFailureCount := returnFailureCount + 1;
          if returnFailureCount >= MaxReturnFailures {
            cap.SetInterruptedPatrolPosition(None);
            isReturningToInterruptedPosition := false;
            returnFailureCount := 0;
          }
        }
      }
    }

    /** `detectAndResolveStuck`, with `resolveStuck` inlined. */
    method DetectAndResolveStuck(input: TickInput)
      modifies this, mob
      ensures State() == StuckStep(old(State()), input)
      ensures homePosition == old(homePosition)
      ensures mob.View() == old(mob.View()).(destination := State().destination)
    {
      if !hasLastPosition {
        hasLastPosition := true;
        return;
      }
      if !input.moved {
        stuckTicks := stuckTicks + 1;
        if stuckTicks > input.stuckThreshold {
          mob.StopNavigation();
          var _ := mob.MoveAlongPath(input.backTarget, input.pathFound, input.accepted);
          wanderCooldown := 10;
          stuckTicks := 0;
        }
      } else {
        stuckTicks := 0;
      }
    }
  }
}
