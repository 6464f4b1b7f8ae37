// CombatMonitorGoal: while in COMBAT, check every 10 ticks whether the target
// is still there and still seen; a lost target means SEARCHING, a target out
// of sight means TRACKING.

module CombatMonitor {
  import opened Types
  import opened Capability
  import Mobs

  /** Ticks between two vision checks. */
  const CheckInterval := 10

  /** `canUse` and `canContinueToUse`, on the AI record. */
  predicate Monitors(r: AIRecord)
  {
    r.state == COMBAT
  }

  /** Whether the tick with cooldown `c` runs a check (`--c > 0` fails). */
  predicate CheckDue(c: int)
  {
    c - 1 <= 0
  }

  /** The cooldown after one tick. */
  function NextCooldown(c: int): int
  {
    if CheckDue(c) then CheckInterval else c - 1
  }

  /** The cooldown after k ticks. */
  function CooldownAfter(c: int, k: nat): int
    decreases k
  {
    if k == 0 then c else CooldownAfter(NextCooldown(c), k - 1)
  }

  /** The mob's target and AI record (None when the capability is absent). */
  datatype World = World(target: Option<Mobs.Target>, record: Option<AIRecord>)

  /** Whether the target is missing, dead or removed. */
  predicate TargetGone(t: Option<Mobs.Target>)
  {
    t.None? || !t.value.alive || t.value.removed
  }

  /** One vision check, `canSee` being the line-of-sight answer. */
  function Check(w: World, canSee: bool): World
  {
    if TargetGone(w.target) then
      World(None, if w.record.None? then None else Some(w.record.value.(state := SEARCHING)))
    else if w.record.None? then w
    else if !canSee then
      w.(record := Some(w.record.value.(state := TRACKING, lastKnownTargetPos := Some(w.target.value.pos), trackingTicks := 0)))
    else w.(record := Some(w.record.value.(lastKnownTargetPos := Some(w.target.value.pos))))
  }

  /** A check made in COMBAT ends in exactly one of three states: SEARCHING
      when the target is gone (its last position kept and the target
      cleared), TRACKING at the target's position when it is not seen, and
      still COMBAT at its new position when it is. */
  lemma CheckOutcome(w: World, canSee: bool)
    requires w.record.Some? && w.record.value.state == COMBAT
    ensures var v := Check(w, canSee);
            v.record.Some? &&
            (v.record.value.state == SEARCHING <==> TargetGone(w.target)) &&
            (v.record.value.state == TRACKING <==> !TargetGone(w.target) && !canSee) &&
            (v.record.value.state == COMBAT <==> !TargetGone(w.target) && canSee) &&
            (TargetGone(w.target) ==> v.target.None? && v.record.value == w.record.value.(state := SEARCHING)) &&
            (!TargetGone(w.target) ==> v.target == w.target && v.record.value.lastKnownTargetPos == Some(w.target.value.pos)) &&
            (v.record.value.state == TRACKING ==> v.record.value.trackingTicks == 0)
  {
  }

  /** From any cooldown between 1 and 10, the cooldown counts down by one a
      tick without a check until the tick that sees it at 1. */
  lemma {:induction false} CountsDown(c: int, k: nat)
    requires 1 <= c <= CheckInterval && k < c
    ensures CooldownAfter(c, k) == c - k
    ensures CheckDue(CooldownAfter(c, k)) <==> k == c - 1
    decreases k
  {
    if k > 0 {
      CountsDown(c - 1, k - 1);
    }
  }

  /** A check is followed by nine ticks without one and a check on the
      tenth; a fresh goal (cooldown 0) checks on its first tick. */
  lemma ChecksEveryTenTicks()
    ensures CheckDue(0) && NextCooldown(0) == CheckInterval
    ensures forall k :: 0 <= k < CheckInterval ==> (CheckDue(CooldownAfter(CheckInterval, k)) <==> k == CheckInterval - 1)
    ensures NextCooldown(CooldownAfter(CheckInterval, CheckInterval - 1)) == CheckInterval
  {
    forall k | 0 <= k < CheckInterval
      ensures CheckDue(CooldownAfter(CheckInterval, k)) <==> k == CheckInterval - 1
    {
      CountsDown(CheckInterval, k);
    }
    CountsDown(CheckInterval, CheckInterval - 1);
  }

  class CombatMonitorGoal {
    const mob: Mobs.Mob
    var visionCheckCooldown: int

    constructor(mob: Mobs.Mob)
      ensures this.mob == mob && visionCheckCooldown == 0
    {
      this.mob := mob;
      visionCheckCooldown := 0;
    }

    function Observed(): World
      reads mob, mob.cap
    {
      World(mob.target, if mob.cap == null then None else Some(mob.cap.Snapshot()))
    }

    /** `canUse`. */
    method CanUse() returns (b: bool)
      ensures b == (mob.cap != null && Monitors(mob.cap.Snapshot()))
    {
      var cap := mob.cap;
      if cap == null {
        return false;
      }
      return cap.state == COMBAT;
    }

    /** `canContinueToUse`. */
    method CanContinueToUse() returns (b: bool)
      ensures b == (mob.cap != null && Monitors(mob.cap.Snapshot()))
    {
      b := CanUse();
    }

    /** `tick`, `canSee` being the line-of-sight answer. */
    method Tick(canSee: bool)
      modifies this, mob, mob.cap
      ensures visionCheckCooldown == NextCooldown(old(visionCheckCooldown))
      ensures Observed() == if CheckDue(old(visionCheckCooldown)) then Check(old(Observed()), canSee) else old(Observed())
      ensures mob.View() == old(mob.View()).(target := Observed().target)
    {
      visionCheckCooldown := visionCheckCooldown - 1;
      if visionCheckCooldown > 0 {
        return;
      }
      visionCheckCooldown := CheckInterval;
      var target := mob.target;
      if target.None? || !target.value.alive || target.value.removed {
        SwitchToSearching();
        return;
      }
      if !canSee {
        SwitchToTracking(target.value);
      } else {
        var cap := mob.cap;
        if cap != null {
          cap.SetLastKnownTargetPos(Some(target.value.pos));
        }
      }
    }

    /** `switchToTracking`. */
    method SwitchToTracking(target: Mobs.Target)
      modifies mob.cap
      ensures mob.cap != null ==>
                mob.cap.Snapshot() == old(mob.cap.Snapshot()).(state := TRACKING, lastKnownTargetPos := Some(target.pos), trackingTicks := 0)
    {
      var cap := mob.cap;
      if cap != null {
        cap.SetState(TRACKING);
        cap.SetLastKnownTargetPos(Some(target.pos));
        cap.SetTrackingTicks(0);
      }
    }

    /** `switchToSearching`: the last known position is kept for the search. */
    method SwitchToSearching()
      modifies mob, mob.cap
      ensures mob.cap != null ==> mob.cap.Snapshot() == old(mob.cap.Snapshot()).(state := SEARCHING)
      ensures mob.View() == old(mob.View()).(target := None)
    {
      var cap := mob.cap;
      if cap != null {
        cap.SetState(SEARCHING);
      }
      mob.SetTarget(None);
    }
  }
}
