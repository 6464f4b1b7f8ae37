// SearchingGoal: after a lost chase, go to the last known position and
// wander around it for twice INVESTIGATION_DURATION_TICKS.

module Searching {
  import opened Types
  import opened Capability
  import Mobs

  /** The goal's fields and where the mob's navigation heads. */
  datatype SearchingState = SearchingState(
    target: Option<Pos>,
    searchTimer: int,
    lookAroundCooldown: int,
    hasArrived: bool,
    destination: Option<Pos>)

  /** The engine's answers during one tick: closer than 4 blocks to the
      search centre, navigation done, path created and accepted towards the
      search centre, the random wander block within 3 to 6 blocks of it and
      whether a path to it was created and accepted, and the configured
      LOOK_AROUND_INTERVAL. */
  datatype TickInput = TickInput(
    arrived: bool,
    navDone: bool,
    pathFound: bool,
    accepted: bool,
    wanderTarget: Pos,
    wanderPathFound: bool,
    wanderAccepted: bool,
    lookAroundInterval: int)

  predicate GoodInput(input: TickInput)
  {
    10 <= input.lookAroundInterval <= 200
  }

  /** Before arrival nothing is counted; after it the cooldown stays within
      half the largest interval. */
  predicate Valid(s: SearchingState)
  {
    0 <= s.searchTimer && 0 <= s.lookAroundCooldown <= 100 &&
    (!s.hasArrived ==> s.searchTimer == 0 && s.lookAroundCooldown == 0)
  }

  /** `canUse`, on the AI record. */
  predicate CanUseSpec(r: AIRecord)
  {
    r.state == SEARCHING && r.lastKnownTargetPos.Some?
  }

  /** What `canUse` does to the record: SEARCHING without a position falls
      back to IDLE. */
  function CanUseRecord(r: AIRecord): AIRecord
  {
    if r.state == SEARCHING && r.lastKnownTargetPos.None? then r.(state := IDLE) else r
  }

  /** A fresh search around `target`. */
  function Begin(s: SearchingState, target: Pos): SearchingState
  {
    s.(target := Some(target), hasArrived := false, searchTimer := 0, lookAroundCooldown := 0)
  }

  /** `canContinueToUse`: the search lasts twice the investigation. */
  predicate Continues(s: SearchingState, r: AIRecord, durationTicks: int)
  {
    r.state == SEARCHING && !(s.hasArrived && s.searchTimer >= durationTicks * 2)
  }

  /** What `stop` does to the record: a still-SEARCHING mob goes back to IDLE
      and forgets the position. */
  function StopRecord(r: AIRecord): AIRecord
  {
    if r.state == SEARCHING then r.(state := IDLE, lastKnownTargetPos := None) else r
  }

  /** `tick`. */
  function TickStep(s: SearchingState, input: TickInput): SearchingState
  {
    if s.target.None? then s
    else if !s.hasArrived then ApproachStep(s, input)
    else SearchStep(s, input)
  }

  /** Heading for the search centre until closer than 4 blocks. */
  function ApproachStep(s: SearchingState, input: TickInput): SearchingState
    requires s.target.Some?
  {
    if input.arrived then s.(hasArrived := true, destination := None)
    else if input.navDone then s.(destination := Mobs.Moved(s.destination, s.target.value, input.pathFound, input.accepted))
    else s
  }

  /** Wandering and looking around the search centre. */
  function SearchStep(s: SearchingState, input: TickInput): SearchingState
  {
    var dest :=
      if input.navDone then Mobs.Moved(s.destination, input.wanderTarget, input.wanderPathFound, input.wanderAccepted)
      else s.destination;
    var c := s.lookAroundCooldown - 1;
    s.(searchTimer := s.searchTimer + 1, destination := dest,
       lookAroundCooldown := if c <= 0 then input.lookAroundInterval / 2 else c)
  }

  /** `canUse` starts from a valid state. */
  lemma BeginValid(s: SearchingState, target: Pos)
    ensures Valid(Begin(s, target)) && !Begin(s, target).hasArrived
  {
  }

  /** A tick keeps the state valid. */
  lemma TickValid(s: SearchingState, input: TickInput)
    requires Valid(s) && GoodInput(input)
    ensures Valid(TickStep(s, input))
  {
  }

  /** The centre never changes during a search; the timer runs only after
      arrival, one per tick; a mob that has arrived stays arrived; before
      arrival it heads only for the centre and afterwards only for wander
      blocks. */
  lemma TickSearches(s: SearchingState, input: TickInput)
    requires Valid(s) && GoodInput(input) && s.target.Some?
    ensures var t := TickStep(s, input);
            t.target == s.target &&
            (t.hasArrived <==> s.hasArrived || input.arrived) &&
            (s.hasArrived ==> t.searchTimer == s.searchTimer + 1) &&
            (!s.hasArrived ==> t.searchTimer == 0) &&
            (!s.hasArrived && t.destination != s.destination ==> t.destination in {None, s.target}) &&
            (s.hasArrived && t.destination != s.destination ==> t.destination in {None, Some(input.wanderTarget)})
  {
  }

  /** The look-around cooldown: it fires on the first tick after arrival and
      then every LOOK_AROUND_INTERVAL / 2 ticks. */
  lemma TickLooksAround(s: SearchingState, input: TickInput)
    requires Valid(s) && GoodInput(input) && s.target.Some? && s.hasArrived
    ensures var t := TickStep(s, input);
            (s.lookAroundCooldown <= 1 ==> t.lookAroundCooldown == input.lookAroundInterval / 2) &&
            (s.lookAroundCooldown > 1 ==> t.lookAroundCooldown == s.lookAroundCooldown - 1)
  {
  }

  /** A run of ticks. */
  function Run(s: SearchingState, inputs: seq<TickInput>): SearchingState
    decreases |inputs|
  {
    if inputs == [] then s else Run(TickStep(s, inputs[0]), inputs[1..])
  }

  /** Once arrived, k ticks add k to the search timer, so the search ends
      after twice INVESTIGATION_DURATION_TICKS. */
  lemma {:induction false} RunSearches(s: SearchingState, inputs: seq<TickInput>)
    requires Valid(s) && s.target.Some? && s.hasArrived
    requires forall k :: 0 <= k < |inputs| ==> GoodInput(inputs[k])
    ensures var t := Run(s, inputs);
            Valid(t) && t.hasArrived && t.target == s.target && t.searchTimer == s.searchTimer + |inputs|
    ensures forall r: AIRecord, d: int :: 2 * d <= s.searchTimer + |inputs| ==> !Continues(Run(s, inputs), r, d)
    decreases |inputs|
  {
    if inputs != [] {
      TickSearches(s, inputs[0]);
      TickValid(s, inputs[0]);
      RunSearches(TickStep(s, inputs[0]), inputs[1..]);
    }
  }

  class SearchingGoal {
    const mob: Mobs.Mob
    var searchTarget: Option<Pos>
    var searchTimer: int
    var lookAroundCooldown: int
    var hasArrived: bool

    constructor(mob: Mobs.Mob)
      ensures this.mob == mob
      ensures State() == SearchingState(None, 0, 0, false, mob.destination)
      ensures Valid(State())
    {
      this.mob := mob;
      searchTarget := None;
      searchTimer := 0;
      lookAroundCooldown := 0;
      hasArrived := false;
    }

    function State(): SearchingState
      reads this, mob
    {
      SearchingState(searchTarget, searchTimer, lookAroundCooldown, hasArrived, mob.destination)
    }

    /** `canUse`. */
    method CanUse() returns (b: bool)
      modifies this, mob.cap
      ensures b == (mob.cap != null && CanUseSpec(old(mob.cap.Snapshot())))
      ensures mob.cap != null ==> mob.cap.Snapshot() == CanUseRecord(old(mob.cap.Snapshot()))
      ensures State() == if b then Begin(old(State()), mob.cap.lastKnownTargetPos.value) else old(State())
    {
      var cap := mob.cap;
      if cap == null || cap.state != SEARCHING {
        return false;
      }
      var targetPos := cap.lastKnownTargetPos;
      if targetPos.None? {
        cap.SetState(IDLE);
        return false;
      }
      searchTarget := targetPos;
      hasArrived := false;
      searchTimer := 0;
      lookAroundCooldown := 0;
      return true;
    }

    /** `canContinueToUse`, with the configured INVESTIGATION_DURATION_TICKS. */
    method CanContinueToUse(durationTicks: int) returns (b: bool)
      ensures b == (mob.cap != null && Continues(State(), mob.cap.Snapshot(), durationTicks))
    {
      var cap := mob.cap;
      if cap == null || cap.state != SEARCHING {
        return false;
      }
      b := !(hasArrived && searchTimer >= durationTicks * 2);
    }

    /** `start`: head for the search centre. */
    method Start(pathFound: bool, accepted: bool)
      requires searchTarget.Some?
      modifies mob
      ensures State() == old(State()).(destination := Mobs.Moved(old(mob.destination), searchTarget.value, pathFound, accepted))
      ensures mob.View() == old(mob.View()).(destination := State().destination)
    {
      var _ := mob.MoveAlongPath(searchTarget.value, pathFound, accepted);
    }

    /** `stop`: without the capability it returns before touching anything. */
    method Stop()
      modifies this, mob, mob.cap
      ensures mob.cap == null ==> State() == old(State()) && mob.View() == old(mob.View())
      ensures mob.cap != null ==>
                mob.cap.Snapshot() == StopRecord(old(mob.cap.Snapshot())) &&
                State() == old(State()).(target := None, hasArrived := false, destination := None) &&
                mob.View() == old(mob.View()).(destination := None)
    {
      var cap := mob.cap;
      if cap == null {
        return;
      }
      if cap.state == SEARCHING {
        cap.SetState(IDLE);
        cap.SetLastKnownTargetPos(None);
      }
      mob.StopNavigation();
      searchTarget := None;
      hasArrived := false;
    }

    /** `tick`. */
    method Tick(input: TickInput)
      modifies this, mob
      ensures State() == TickStep(old(State()), input)
      ensures mob.View() == old(mob.View()).(destination := State().destination)
    {
      if searchTarget.None? {
        return;
      }
      if !hasArrived {
        Approach(input);
      } else {
        Search(input);
      }
    }

    /** The approach part of `tick`. */
    method Approach(input: TickInput)
      requires searchTarget.Some?
      modifies this, mob
      ensures State() == ApproachStep(old(State()), input)
      ensures mob.View() == old(mob.View()).(destination := State().destination)
    {
      if input.arrived {
        hasArrived := true;
        mob.StopNavigation();
      } else if input.navDone {
        var _ := mob.MoveAlongPath(searchTarget.value, input.pathFound, input.accepted);
      }
    }

    /** The searching part of `tick`. */
    method Search(input: TickInput)
      modifies this, mob
      ensures State() == SearchStep(old(State()), input)
      ensures mob.View() == old(mob.View()).(destination := State().destination)
    {
      searchTimer := searchTimer + 1;
      if input.navDone {
        var _ := mob.MoveAlongPath(input.wanderTarget, input.wanderPathFound, input.wanderAccepted);
      }
      lookAroundCooldown := lookAroundCooldown - 1;
      if lookAroundCooldown <= 0 {
        lookAroundCooldown := input.lookAroundInterval / 2;
      }
    }
  }
}
