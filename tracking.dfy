// TrackingGoal: in TRACKING (sight of the target lost during combat), follow
// sounds to the last known position, regain the target on contact, and fall
// back to SEARCHING after MAX_TRACKING_DURATION_TICKS.

module Tracking {
  import opened Types
  import opened Capability
  import Mobs

  /** A player inside the collision box, as the engine reports it. */
  datatype NearbyPlayer = NearbyPlayer(pos: Pos, alive: bool, removed: bool, spectator: bool, creative: bool)

  /** Players in spectator or creative mode are never reacquired. */
  predicate Eligible(p: NearbyPlayer)
  {
    !p.spectator && !p.creative
  }

  /** The index of the first eligible player, if any. */
  function FirstEligible(ps: seq<NearbyPlayer>): (r: Option<nat>)
    ensures r.Some? ==> r.value < |ps| && Eligible(ps[r.value]) && forall j :: 0 <= j < r.value ==> !Eligible(ps[j])
    ensures r.None? ==> forall j :: 0 <= j < |ps| ==> !Eligible(ps[j])
  {
    if ps == [] then None
    else if Eligible(ps[0]) then Some(0)
    else match FirstEligible(ps[1..])
      case None => None
      case Some(k) => Some(k + 1)
  }

  /** The mob's target after reacquiring player `p`. */
  function TargetOf(p: NearbyPlayer): Mobs.Target
  {
    Mobs.Target(p.pos, p.alive, p.removed)
  }

  /** The goal's fields, the mob's navigation destination and its target. */
  datatype TrackingState = TrackingState(
    lastSound: Option<Pos>,
    timer: int,
    destination: Option<Pos>,
    target: Option<Mobs.Target>)

  /** The goal's state together with the AI record (None when the capability
      is absent). */
  datatype World = World(goal: TrackingState, record: Option<AIRecord>)

  /** The engine's answers during one tick: the players in the collision box
      in the engine's order, whether the mob is within 3 blocks of the last
      sound, whether navigation is done, and whether a path was created and
      accepted. */
  datatype TickInput = TickInput(
    players: seq<NearbyPlayer>,
    nearSound: bool,
    navDone: bool,
    pathFound: bool,
    accepted: bool)

  /** `canUse`, on the AI record. */
  predicate CanUseSpec(r: AIRecord)
  {
    r.state == TRACKING && r.lastKnownTargetPos.Some?
  }

  /** What `canUse` does to the record: TRACKING without a position goes on
      to SEARCHING. */
  function CanUseRecord(r: AIRecord): AIRecord
  {
    if r.state == TRACKING && r.lastKnownTargetPos.None? then r.(state := SEARCHING) else r
  }

  /** `canContinueToUse` with MAX_TRACKING_DURATION_TICKS `maxDuration`. */
  predicate Continues(s: TrackingState, r: AIRecord, maxDuration: int)
  {
    r.state == TRACKING && s.timer < maxDuration
  }

  /** What `canContinueToUse` does to the record: a timed-out tracking goes
      on to SEARCHING. */
  function ContinueRecord(s: TrackingState, r: AIRecord, maxDuration: int): AIRecord
  {
    if r.state == TRACKING && s.timer >= maxDuration then r.(state := SEARCHING) else r
  }

  /** `navigateToLastSound`. */
  function Navigate(s: TrackingState, pathFound: bool, accepted: bool): TrackingState
  {
    if s.lastSound.None? then s
    else s.(destination := Mobs.Moved(s.destination, s.lastSound.value, pathFound, accepted))
  }

  /** `checkCollision`: the first eligible player becomes the target and the
      record switches to COMBAT at the player's position. */
  function CollisionStep(w: World, players: seq<NearbyPlayer>): World
  {
    match FirstEligible(players)
    case None => w
    case Some(i) =>
      var p := players[i];
      World(w.goal.(target := Some(TargetOf(p))),
            if w.record.None? then None
            else Some(w.record.value.(state := COMBAT, lastKnownTargetPos := Some(p.pos), trackingTicks := 0)))
  }

  /** `tick`: count the tick, mirror it into the record, then either reacquire
      the target or keep heading for the last sound. */
  function TickStep(w: World, input: TickInput): World
  {
    var t := w.goal.timer + 1;
    var w1 := World(w.goal.(timer := t), if w.record.None? then None else Some(w.record.value.(trackingTicks := t)));
    if FirstEligible(input.players).Some? then CollisionStep(w1, input.players)
    else if w1.goal.lastSound.Some? && !input.nearSound && input.navDone then
      w1.(goal := Navigate(w1.goal, input.pathFound, input.accepted))
    else w1
  }

  /** `onVibrationPerceived` for this mob while TRACKING: head for the sound's
      block and win back up to 100 ticks. */
  function HearStep(w: World, source: Vec3, pathFound: bool, accepted: bool): (v: World)
    requires w.record.Some? && w.record.value.state == TRACKING
    ensures v.record.Some? && v.record.value == w.record.value.(lastKnownTargetPos := Some(BlockContaining(source)))
    ensures v.record.value.state == TRACKING
    ensures v.goal.lastSound == v.record.value.lastKnownTargetPos
    ensures v.goal.destination == Mobs.Moved(w.goal.destination, BlockContaining(source), pathFound, accepted)
    ensures v.goal.timer >= 0 && (w.goal.timer >= 0 ==> v.goal.timer <= w.goal.timer)
    ensures w.goal.timer >= 100 ==> v.goal.timer == w.goal.timer - 100
  {
    var p := BlockContaining(source);
    var g := Navigate(w.goal.(lastSound := Some(p)), pathFound, accepted);
    World(g.(timer := if w.goal.timer - 100 > 0 then w.goal.timer - 100 else 0),
          Some(w.record.value.(lastKnownTargetPos := Some(p))))
  }

  /** A tick either reacquires an eligible player — switching to COMBAT at
      that player's position with the tracking ticks reset — or, with no such
      player, counts one more tick in both the goal and the record and leaves
      the behaviour state alone. */
  lemma TickCollides(w: World, input: TickInput)
    requires w.record.Some?
    ensures var v := TickStep(w, input);
            v.goal.timer == w.goal.timer + 1 && v.record.Some? &&
            (v.record.value.state == COMBAT <==> w.record.value.state == COMBAT || FirstEligible(input.players).Some?) &&
            (FirstEligible(input.players).Some? <==> exists j :: 0 <= j < |input.players| && Eligible(input.players[j])) &&
            (FirstEligible(input.players).Some? ==>
               var p := input.players[FirstEligible(input.players).value];
               v.goal.target == Some(TargetOf(p)) && v.record.value.lastKnownTargetPos == Some(p.pos) &&
               v.record.value.trackingTicks == 0) &&
            (FirstEligible(input.players).None? ==>
               v.goal.target == w.goal.target &&
               v.record.value == w.record.value.(trackingTicks := w.goal.timer + 1))
  {
    var r := FirstEligible(input.players);
    if r.None? {
      assert !exists j :: 0 <= j < |input.players| && Eligible(input.players[j]);
    }
  }

  /** A run of ticks. */
  function Run(w: World, inputs: seq<TickInput>): World
    decreases |inputs|
  {
    if inputs == [] then w else Run(TickStep(w, inputs[0]), inputs[1..])
  }

  /** Without anyone to reacquire, k ticks add k to the timer, the record
      stays TRACKING and mirrors the timer, and once the timer reaches
      MAX_TRACKING_DURATION_TICKS `canContinueToUse` fails and moves the
      record on to SEARCHING. */
  lemma {:induction false} RunTimesOut(w: World, inputs: seq<TickInput>, maxDuration: int)
    requires w.record.Some? && w.record.value.state == TRACKING
    requires forall k :: 0 <= k < |inputs| ==> FirstEligible(inputs[k].players).None?
    requires maxDuration <= w.goal.timer + |inputs|
    ensures var v := Run(w, inputs);
            v.goal.timer == w.goal.timer + |inputs| && v.record.Some? && v.record.value.state == TRACKING &&
            (inputs != [] ==> v.record.value.trackingTicks == v.goal.timer) &&
            !Continues(v.goal, v.record.value, maxDuration) &&
            ContinueRecord(v.goal, v.record.value, maxDuration).state == SEARCHING
    decreases |inputs|
  {
    if inputs != [] {
      var w1 := TickStep(w, inputs[0]);
      TickCollides(w, inputs[0]);
      RunTimesOut(w1, inputs[1..], maxDuration);
      if |inputs| > 1 {
      } else {
        assert Run(w, inputs) == Run(w1, inputs[1..]) == w1;
      }
    }
  }

  /** A sound moves the goal and the record to the sound's block and never
      lengthens the time already spent, giving back up to 100 ticks. */
  lemma HearExtends(w: World, source: Vec3, pathFound: bool, accepted: bool)
    requires w.record.Some? && w.record.value.state == TRACKING && w.goal.timer >= 0
    ensures var v := HearStep(w, source, pathFound, accepted);
            v.goal.lastSound == Some(BlockContaining(source)) &&
            InBlock(v.goal.lastSound.value, source) &&
            v.record.value.lastKnownTargetPos == v.goal.lastSound &&
            v.record.value.state == TRACKING &&
            0 <= v.goal.timer <= w.goal.timer &&
            (w.goal.timer >= 100 ==> v.goal.timer == w.goal.timer - 100) &&
            (w.goal.timer < 100 ==> v.goal.timer == 0)
  {
  }

  class TrackingGoal {
    const mob: Mobs.Mob
    var lastSoundPosition: Option<Pos>
    var trackingTimer: int

    constructor(mob: Mobs.Mob)
      ensures this.mob == mob
      ensures lastSoundPosition.None? && trackingTimer == 0
    {
      this.mob := mob;
      lastSoundPosition := None;
      trackingTimer := 0;
    }

    function State(): TrackingState
      reads this, mob
    {
      TrackingState(lastSoundPosition, trackingTimer, mob.destination, mob.target)
    }

    function Record(): Option<AIRecord>
      reads mob, mob.cap
    {
      if mob.cap == null then None else Some(mob.cap.Snapshot())
    }

    /** `canUse`. */
    method CanUse() returns (b: bool)
      modifies this, mob.cap
      ensures b == (mob.cap != null && CanUseSpec(old(mob.cap.Snapshot())))
      ensures mob.cap != null ==> mob.cap.Snapshot() == CanUseRecord(old(mob.cap.Snapshot()))
      ensures State() == if b then old(State()).(lastSound := mob.cap.lastKnownTargetPos, timer := 0) else old(State())
    {
      var cap := mob.cap;
      if cap == null || cap.state != TRACKING {
        return false;
      }
      var lastKnownPos := cap.lastKnownTargetPos;
      if lastKnownPos.None? {
        cap.SetState(SEARCHING);
        return false;
      }
      lastSoundPosition := lastKnownPos;
      trackingTimer := 0;
      return true;
    }

    /** `canContinueToUse`, with the configured MAX_TRACKING_DURATION_TICKS. */
    method CanContinueToUse(maxDuration: int) returns (b: bool)
      modifies mob.cap
      ensures b == (mob.cap != null && Continues(State(), old(mob.cap.Snapshot()), maxDuration))
      ensures mob.cap != null ==> mob.cap.Snapshot() == ContinueRecord(State(), old(mob.cap.Snapshot()), maxDuration)
    {
      var cap := mob.cap;
      if cap == null || cap.state != TRACKING {
        return false;
      }
      if trackingTimer >= maxDuration {
        cap.SetState(SEARCHING);
        return false;
      }
      return true;
    }

    /** `start`. */
    method Start(pathFound: bool, accepted: bool)
      modifies mob
      ensures State() == Navigate(old(State()), pathFound, accepted)
      ensures mob.View() == old(mob.View()).(destination := State().destination)
    {
      NavigateToLastSound(pathFound, accepted);
    }

    /** `stop`. */
    method Stop()
      modifies this, mob
      ensures State() == old(State()).(lastSound := None, destination := None)
      ensures mob.View() == old(mob.View()).(destination := None)
    {
      mob.StopNavigation();
      lastSoundPosition := None;
    }

    /** `tick`. */
    method Tick(input: TickInput)
      modifies this, mob, mob.cap
      ensures World(State(), Record()) == TickStep(old(World(State(), Record())), input)
      ensures mob.View() == old(mob.View()).(destination := State().destination, target := State().target)
    {
      trackingTimer := trackingTimer + 1;
      var cap := mob.cap;
      if cap != null {
        cap.SetTrackingTicks(trackingTimer);
      }
      var collided := CheckCollision(input.players);
      if collided {
        return;
      }
      if lastSoundPosition.Some? && !input.nearSound && input.navDone {
        NavigateToLastSound(input.pathFound, input.accepted);
      }
    }

    /** `checkCollision`: scan the players in order for the first eligible one. */
    method CheckCollision(players: seq<NearbyPlayer>) returns (collided: bool)
      modifies mob, mob.cap
      ensures collided == FirstEligible(players).Some?
      ensures World(State(), Record()) == CollisionStep(old(World(State(), Record())), players)
      ensures mob.View() == old(mob.View()).(target := State().target)
    {
      var i := 0;
      while i < |players|
        invariant 0 <= i <= |players|
        invariant forall j :: 0 <= j < i ==> !Eligible(players[j])
      {
        var player := players[i];
        if player.spectator || player.creative {
          i := i + 1;
          continue;
        }
        assert FirstEligible(players) == Some(i);
        mob.SetTarget(Some(TargetOf(player)));
        var cap := mob.cap;
        if cap != null {
          cap.SetState(COMBAT);
          cap.SetLastKnownTargetPos(Some(player.pos));
          cap.SetTrackingTicks(0);
        }
        return true;
      }
      return false;
    }

    /** `navigateToLastSound`. */
    method NavigateToLastSound(pathFound: bool, accepted: bool)
      modifies mob
      ensures State() == Navigate(old(State()), pathFound, accepted)
      ensures mob.View() == old(mob.View()).(destination := State().destination)
    {
      if lastSoundPosition.None? {
        return;
      }
      var _ := mob.MoveAlongPath(lastSoundPosition.value, pathFound, accepted);
    }

    /** `onVibrationPerceived`: only this mob's own vibrations, and only while
        TRACKING. */
    method OnVibrationPerceived(listenerIsMob: bool, source: Vec3, pathFound: bool, accepted: bool)
      modifies this, mob, mob.cap
      ensures !listenerIsMob || mob.cap == null || old(mob.cap.state) != TRACKING ==>
                State() == old(State()) && mob.View() == old(mob.View()) &&
                (mob.cap != null ==> mob.cap.Snapshot() == old(mob.cap.Snapshot()))
      ensures listenerIsMob && mob.cap != null && old(mob.cap.state) == TRACKING ==>
                World(State(), Record()) == HearStep(old(World(State(), Record())), source, pathFound, accepted)
      ensures mob.View() == old(mob.View()).(destination := State().destination)
    {
      if !listenerIsMob {
        return;
      }
      var cap := mob.cap;
      if cap == null || cap.state != TRACKING {
        return;
      }
      lastSoundPosition := Some(BlockContaining(source));
      cap.SetLastKnownTargetPos(lastSoundPosition);
      NavigateToLastSound(pathFound, accepted);
      trackingTimer := if trackingTimer - 100 > 0 then trackingTimer - 100 else 0;
    }
  }
}
