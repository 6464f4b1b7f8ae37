// PatrolGoal: walk the PATROL waypoints in list order, zig-zagging through
// 2-4 detour points between consecutive waypoints, waiting 60 ticks at each.

module Patrol {
  import opened Types
  import opened Capability
  import Mobs

  /** A point of the search path: a detour point, already as the block
      position navigation is sent to, or the centre of the next waypoint. */
  datatype SearchPoint = Detour(block: Pos) | Centre(waypoint: Pos)

  /** `(int)` applied to the centre coordinate `c + 0.5` of a block: Java's
      cast truncates toward zero. */
  function TruncatedCentre(c: int): (r: int)
    ensures 2 * c + 1 >= 0 ==> 2 * r <= 2 * c + 1 < 2 * r + 2
    ensures 2 * c + 1 < 0 ==> 2 * r - 2 < 2 * c + 1 <= 2 * r
  {
    var twice := 2 * c + 1;
    if twice >= 0 then twice / 2 else -((-twice) / 2)
  }

  /** The block navigation is sent to for a search point, as written. */
  function SearchPointBlockAsWritten(p: SearchPoint): (b: Pos)
    ensures p.Detour? ==> b == p.block
    ensures p.Centre? ==> Shifted(p.waypoint.x, b.x) && Shifted(p.waypoint.y, b.y) && Shifted(p.waypoint.z, b.z)
  {
    match p
    case Detour(b) => b
    case Centre(w) =>
      TruncatedCentreShifts(w.x);
      TruncatedCentreShifts(w.y);
      TruncatedCentreShifts(w.z);
      Pos(TruncatedCentre(w.x), TruncatedCentre(w.y), TruncatedCentre(w.z))
  }

  /** A coordinate of the approached block against the waypoint's: the same
      for a non-negative one, one more for a negative one. */
  predicate Shifted(c: int, approached: int)
  {
    (c >= 0 ==> approached == c) && (c < 0 ==> approached == c + 1)
  }

  /** Truncation finds the block itself only for non-negative coordinates:
      for a negative one it lands on the next block up. */
  lemma TruncatedCentreShifts(c: int)
    ensures c >= 0 ==> TruncatedCentre(c) == c
    ensures c < 0 ==> TruncatedCentre(c) == c + 1
  {
    if c < 0 {
      assert -(2 * c + 1) == 2 * (-c - 1) + 1;
    }
  }

  /** A waypoint at x = -3 is approached as the block at x = -2. */
  lemma CentreOfNegativeWaypointMissed()
    ensures SearchPointBlockAsWritten(Centre(Pos(-3, 64, 5))) == Pos(-2, 64, 5)
  {
    TruncatedCentreShifts(-3);
    TruncatedCentreShifts(64);
    TruncatedCentreShifts(5);
  }

  /** The block containing the centre `c + 0.5`, rounded down. */
  function FlooredCentre(c: int): (r: int)
    ensures r == c
  {
    (2 * c + 1) / 2
  }

  /** The block navigation is sent to for a search point, rounding down:
      the centre of a waypoint is sent to that waypoint. */
  function SearchPointBlock(p: SearchPoint): (b: Pos)
    ensures p.Centre? ==> b == p.waypoint
    ensures p.Detour? ==> b == p.block
  {
    match p
    case Detour(b) => b
    case Centre(w) => Pos(FlooredCentre(w.x), FlooredCentre(w.y), FlooredCentre(w.z))
  }

  /** The goal's fields, together with where the mob's navigation heads. */
  datatype PatrolState = PatrolState(
    waypoints: seq<Pos>,
    index: int,
    searchPath: seq<SearchPoint>,
    searchIndex: int,
    waiting: bool,
    waitTimer: int,
    lookAroundCooldown: int,
    destination: Option<Pos>)

  /** The engine's and configuration's answers during one tick: arrival
      within 3 blocks of the current search point, whether navigation is
      done, whether a path was created and accepted, the detour blocks of a
      new search path (2 to 4 of them, drawn at random), and the configured
      LOOK_AROUND_INTERVAL. */
  datatype TickInput = TickInput(
    arrived: bool,
    navDone: bool,
    pathFound: bool,
    accepted: bool,
    detours: seq<Pos>,
    lookAroundInterval: int)

  predicate GoodInput(input: TickInput)
  {
    2 <= |input.detours| <= 4 && 10 <= input.lookAroundInterval <= 200
  }

  /** The waypoint index is in range; the search path has 3 to 5 points and
      ends at the centre of the following waypoint; the search index reaches
      the end of the path exactly while waiting; the wait timer stays below
      60 while waiting and is 0 otherwise; the look cooldown stays within
      the configured range. */
  predicate Valid(s: PatrolState)
  {
    s.waypoints != [] && 0 <= s.index < |s.waypoints| &&
    3 <= |s.searchPath| <= 5 &&
    s.searchPath[|s.searchPath| - 1] == Centre(s.waypoints[(s.index + 1) % |s.waypoints|]) &&
    0 <= s.searchIndex <= |s.searchPath| &&
    (s.waiting <==> s.searchIndex == |s.searchPath|) &&
    (s.waiting ==> 0 <= s.waitTimer < 60) &&
    (!s.waiting ==> s.waitTimer == 0) &&
    0 <= s.lookAroundCooldown <= 200
  }

  /** `canUse`, on the AI record. */
  predicate CanUseSpec(r: AIRecord)
  {
    r.strategy == PATROL && r.state == IDLE && r.waypoints != []
  }

  /** `canUse`'s normalisation of the stored index. */
  function NormalIndex(i: int, n: int): int
  {
    if i < 0 || i >= n then 0 else i
  }

  /** `canContinueToUse`, on the AI record. */
  predicate Continues(r: AIRecord)
  {
    r.state == IDLE && r.strategy == PATROL
  }

  /** `navigateToCurrentSearchPoint`. */
  function NavigateStep(s: PatrolState, pathFound: bool, accepted: bool): (t: PatrolState)
    ensures t == s.(destination := t.destination)
    ensures !pathFound || !(0 <= s.searchIndex < |s.searchPath|) ==> t == s
    ensures 0 <= s.searchIndex < |s.searchPath| && s.searchPath[s.searchIndex].Centre? && pathFound ==>
              t.destination == Mobs.MovedTo(s.searchPath[s.searchIndex].waypoint, accepted)
  {
    if s.searchPath == [] || s.searchIndex < 0 || s.searchIndex >= |s.searchPath| then s
    else s.(destination := Mobs.Moved(s.destination, SearchPointBlock(s.searchPath[s.searchIndex]), pathFound, accepted))
  }

  /** The detour points followed by the centre of the next waypoint. */
  function SearchPath(ws: seq<Pos>, index: int, detours: seq<Pos>): (path: seq<SearchPoint>)
    requires 0 <= index < |ws|
    ensures |path| == |detours| + 1
  {
    seq(|detours|, k requires 0 <= k < |detours| => Detour(detours[k])) + [Centre(ws[(index + 1) % |ws|])]
  }

  /** `generateSearchPath`. */
  function GenerateStep(s: PatrolState, detours: seq<Pos>, pathFound: bool, accepted: bool): PatrolState
    requires s.waypoints != [] && 0 <= s.index < |s.waypoints|
  {
    NavigateStep(s.(searchPath := SearchPath(s.waypoints, s.index, detours), searchIndex := 0), pathFound, accepted)
  }

  /** `start`. */
  function StartStep(s: PatrolState, detours: seq<Pos>, pathFound: bool, accepted: bool): PatrolState
    requires s.waypoints != [] && 0 <= s.index < |s.waypoints|
  {
    GenerateStep(s.(waiting := false, waitTimer := 0, lookAroundCooldown := 0), detours, pathFound, accepted)
  }

  /** `followSearchPath`. */
  function FollowStep(s: PatrolState, input: TickInput): PatrolState
  {
    if s.searchPath == [] || s.searchIndex < 0 || s.searchIndex >= |s.searchPath| then s
    else if input.arrived then
      var s1 := s.(searchIndex := s.searchIndex + 1);
      if s1.searchIndex >= |s.searchPath| then
        s1.(destination := None, waiting := true, waitTimer := 0, lookAroundCooldown := 0)
      else NavigateStep(s1, input.pathFound, input.accepted)
    else if input.navDone then NavigateStep(s, input.pathFound, input.accepted)
    else s
  }

  /** One waiting tick: count, look around, and after 60 ticks move on to
      the next waypoint. */
  function WaitStep(s: PatrolState, input: TickInput): PatrolState
    requires s.waypoints != [] && 0 <= s.index < |s.waypoints|
  {
    var c := s.lookAroundCooldown - 1;
    var s1 := s.(waitTimer := s.waitTimer + 1, lookAroundCooldown := if c <= 0 then input.lookAroundInterval else c);
    if s1.waitTimer >= 60 then
      GenerateStep(s1.(waiting := false, waitTimer := 0, index := (s.index + 1) % |s.waypoints|),
                   input.detours, input.pathFound, input.accepted)
    else s1
  }

  /** `tick`. */
  function TickStep(s: PatrolState, input: TickInput): PatrolState
    requires s.waypoints == [] || 0 <= s.index < |s.waypoints|
  {
    if s.waypoints == [] then s
    else if s.waiting then WaitStep(s, input)
    else FollowStep(s, input)
  }

  lemma GenerateShape(s: PatrolState, detours: seq<Pos>, pathFound: bool, accepted: bool)
    requires s.waypoints != [] && 0 <= s.index < |s.waypoints| && 2 <= |detours| <= 4
    ensures var g := GenerateStep(s, detours, pathFound, accepted);
            g.searchIndex == 0 && 3 <= |g.searchPath| <= 5 &&
            g.searchPath[|g.searchPath| - 1] == Centre(s.waypoints[(s.index + 1) % |s.waypoints|]) &&
            (forall k :: 0 <= k < |detours| ==> g.searchPath[k] == Detour(detours[k])) &&
            g.destination == Mobs.Moved(s.destination, SearchPointBlock(g.searchPath[0]), pathFound, accepted) &&
            g == s.(searchPath := g.searchPath, searchIndex := 0, destination := g.destination)
  {
  }

  /** After `canUse` and `start` the state is valid. */
  lemma StartValid(s: PatrolState, detours: seq<Pos>, pathFound: bool, accepted: bool)
    requires s.waypoints != [] && 0 <= s.index < |s.waypoints| && 2 <= |detours| <= 4
    ensures Valid(StartStep(s, detours, pathFound, accepted))
  {
    GenerateShape(s.(waiting := false, waitTimer := 0, lookAroundCooldown := 0), detours, pathFound, accepted);
  }

  lemma WaitValid(s: PatrolState, input: TickInput)
    requires Valid(s) && GoodInput(input) && s.waiting
    ensures Valid(WaitStep(s, input))
  {
    var c := s.lookAroundCooldown - 1;
    var s1 := s.(waitTimer := s.waitTimer + 1, lookAroundCooldown := if c <= 0 then input.lookAroundInterval else c);
    if s1.waitTimer >= 60 {
      GenerateShape(s1.(waiting := false, waitTimer := 0, index := (s.index + 1) % |s.waypoints|),
                    input.detours, input.pathFound, input.accepted);
    }
  }

  lemma FollowValid(s: PatrolState, input: TickInput)
    requires Valid(s) && GoodInput(input) && !s.waiting
    ensures Valid(FollowStep(s, input))
  {
  }

  /** A tick keeps the state valid. */
  lemma TickValid(s: PatrolState, input: TickInput)
    requires Valid(s) && GoodInput(input)
    ensures Valid(TickStep(s, input))
  {
    if s.waiting {
      WaitValid(s, input);
    } else {
      FollowValid(s, input);
    }
  }

  /** The waypoint index changes only when a wait completes, and then by one
      modulo the number of waypoints; a wait completes on its 60th tick. */
  lemma TickIndex(s: PatrolState, input: TickInput)
    requires Valid(s) && GoodInput(input)
    ensures var t := TickStep(s, input);
            t.index == if s.waiting && s.waitTimer + 1 >= 60 then (s.index + 1) % |s.waypoints| else s.index
    ensures s.waiting ==> TickStep(s, input).waiting == (s.waitTimer + 1 < 60)
    ensures s.waiting && s.waitTimer + 1 < 60 ==>
              TickStep(s, input).waitTimer == s.waitTimer + 1 &&
              TickStep(s, input).searchIndex == s.searchIndex &&
              TickStep(s, input).searchPath == s.searchPath &&
              TickStep(s, input).destination == s.destination
  {
    if s.waiting && s.waitTimer + 1 >= 60 {
      var c := s.lookAroundCooldown - 1;
      var s1 := s.(waitTimer := s.waitTimer + 1, lookAroundCooldown := if c <= 0 then input.lookAroundInterval else c);
      GenerateShape(s1.(waiting := false, waitTimer := 0, index := (s.index + 1) % |s.waypoints|),
                    input.detours, input.pathFound, input.accepted);
    }
  }

  /** Outside a wait the search index grows by one only on arrival; passing
      the last point stops navigation and starts a wait at timer 0. */
  lemma TickFollow(s: PatrolState, input: TickInput)
    requires Valid(s) && GoodInput(input) && !s.waiting
    ensures var t := TickStep(s, input);
            t.index == s.index && t.searchPath == s.searchPath &&
            t.searchIndex == (if input.arrived then s.searchIndex + 1 else s.searchIndex) &&
            (t.waiting <==> input.arrived && s.searchIndex + 1 == |s.searchPath|) &&
            (t.waiting ==> t.waitTimer == 0 && t.destination.None?)
  {
  }

  /** The waypoint visited after k completed waits. */
  function AdvanceBy(i: int, n: int, k: nat): int
    requires n > 0
  {
    if k == 0 then i else (AdvanceBy(i, n, k - 1) + 1) % n
  }

  lemma ModSmall(x: int, n: int)
    requires 0 <= x < n
    ensures x % n == x
  {
  }

  lemma ModSelf(n: int)
    requires 0 < n
    ensures n % n == 0
  {
  }

  /** Within one lap, k completed waits after index i reach i + k, wrapping
      to the front of the list once past its end. */
  lemma {:induction false} AdvanceOneLap(i: int, n: int, k: nat)
    requires 0 <= i < n && k <= n
    ensures AdvanceBy(i, n, k) == if i + k < n then i + k else i + k - n
  {
    if k > 0 {
      AdvanceOneLap(i, n, k - 1);
      var prev := AdvanceBy(i, n, k - 1);
      if prev + 1 == n {
        ModSelf(n);
      } else {
        ModSmall(prev + 1, n);
      }
    }
  }

  lemma {:induction false} AdvanceCompose(i: int, n: int, k: nat, m: nat)
    requires n > 0
    ensures AdvanceBy(i, n, k + m) == AdvanceBy(AdvanceBy(i, n, k), n, m)
  {
    if m > 0 {
      AdvanceCompose(i, n, k, m - 1);
    }
  }

  lemma {:induction false} AdvanceInRange(i: int, n: int, k: nat)
    requires 0 <= i < n
    ensures 0 <= AdvanceBy(i, n, k) < n
  {
    if k > 0 {
      AdvanceInRange(i, n, k - 1);
    }
  }

  /** The walk repeats with period n: every n completed waits bring the
      index back to where it was. */
  lemma AdvancePeriodic(i: int, n: int, k: nat)
    requires 0 <= i < n
    ensures AdvanceBy(i, n, k + n) == AdvanceBy(i, n, k)
  {
    AdvanceCompose(i, n, k, n);
    AdvanceInRange(i, n, k);
    AdvanceOneLap(AdvanceBy(i, n, k), n, n);
  }

  /** `tick` applied once per input, in order. */
  function Run(s: PatrolState, inputs: seq<TickInput>): (t: PatrolState)
    requires Valid(s) && forall j :: 0 <= j < |inputs| ==> GoodInput(inputs[j])
    ensures Valid(t) && t.waypoints == s.waypoints
    decreases |inputs|
  {
    if inputs == [] then s
    else
      TickValid(s, inputs[0]);
      Run(TickStep(s, inputs[0]), inputs[1..])
  }

  /** Whether a tick ends a wait. */
  predicate EndsWait(s: PatrolState)
  {
    s.waiting && s.waitTimer + 1 >= 60
  }

  /** The number of waits that end during a run. */
  function WaitsEnded(s: PatrolState, inputs: seq<TickInput>): nat
    requires Valid(s) && forall j :: 0 <= j < |inputs| ==> GoodInput(inputs[j])
    decreases |inputs|
  {
    if inputs == [] then 0
    else
      TickValid(s, inputs[0]);
      (if EndsWait(s) then 1 else 0) + WaitsEnded(TickStep(s, inputs[0]), inputs[1..])
  }

  /** Over any run of ticks the waypoint index is the start index advanced
      once per completed wait. */
  lemma {:induction false} RunAdvances(s: PatrolState, inputs: seq<TickInput>)
    requires Valid(s) && forall j :: 0 <= j < |inputs| ==> GoodInput(inputs[j])
    ensures Run(s, inputs).index == AdvanceBy(s.index, |s.waypoints|, WaitsEnded(s, inputs))
    decreases |inputs|
  {
    if inputs != [] {
      var rest := inputs[1..];
      assert forall j :: 0 <= j < |rest| ==> GoodInput(rest[j]) by {
        forall j | 0 <= j < |rest| ensures GoodInput(rest[j]) { assert rest[j] == inputs[j + 1]; }
      }
      var t := TickStep(s, inputs[0]);
      TickAdvances(s, inputs[0]);
      RunAdvances(t, rest);
      var w := WaitsEnded(t, rest);
      assert Run(s, inputs) == Run(t, rest);
      assert WaitsEnded(s, inputs) == (if EndsWait(s) then 1 else 0) + w;
      AdvanceCompose(s.index, |s.waypoints|, if EndsWait(s) then 1 else 0, w);
    }
  }

  /** One tick advances the index exactly when it ends a wait. */
  lemma TickAdvances(s: PatrolState, input: TickInput)
    requires Valid(s) && GoodInput(input)
    ensures Valid(TickStep(s, input)) && TickStep(s, input).waypoints == s.waypoints
    ensures TickStep(s, input).index == AdvanceBy(s.index, |s.waypoints|, if EndsWait(s) then 1 else 0)
  {
    TickValid(s, input);
    TickIndex(s, input);
  }

  /** A run in which as many waits end as there are waypoints brings the
      patrol back to the waypoint it started from. */
  lemma RunLapReturns(s: PatrolState, inputs: seq<TickInput>)
    requires Valid(s) && forall j :: 0 <= j < |inputs| ==> GoodInput(inputs[j])
    requires WaitsEnded(s, inputs) == |s.waypoints|
    ensures Run(s, inputs).index == s.index
  {
    RunAdvances(s, inputs);
    AdvanceOneLap(s.index, |s.waypoints|, |s.waypoints|);
  }

  class PatrolGoal {
    const mob: Mobs.Mob
    var waypoints: seq<Pos>
    var currentWaypointIndex: int
    var searchPath: seq<SearchPoint>
    var currentSearchIndex: int
    var isWaiting: bool
    var waitTimer: int
    var lookAroundCooldown: int

    constructor(mob: Mobs.Mob)
      ensures this.mob == mob
      ensures State() == PatrolState([], 0, [], 0, false, 0, 0, mob.destination)
    {
      this.mob := mob;
      waypoints := [];
      currentWaypointIndex := 0;
      searchPath := [];
      currentSearchIndex := 0;
      isWaiting := false;
      waitTimer := 0;
      lookAroundCooldown := 0;
    }

    function State(): PatrolState
      reads this, mob
    {
      PatrolState(waypoints, currentWaypointIndex, searchPath, currentSearchIndex, isWaiting, waitTimer,
                  lookAroundCooldown, mob.destination)
    }

    /** `canUse`: an out-of-range stored index is reset to 0, here and in
        the record. */
    method CanUse() returns (b: bool)
      modifies this, mob.cap
      ensures b == (mob.cap != null && CanUseSpec(old(mob.cap.Snapshot())))
      ensures b ==> waypoints == mob.cap.waypoints && 0 <= currentWaypointIndex < |waypoints| &&
                    currentWaypointIndex == NormalIndex(old(mob.cap.currentWaypointIndex), |waypoints|) &&
                    mob.cap.Snapshot() == old(mob.cap.Snapshot()).(currentWaypointIndex := currentWaypointIndex) &&
                    State() == old(State()).(waypoints := waypoints, index := currentWaypointIndex)
      ensures !b ==> State() == old(State()) && (mob.cap != null ==> mob.cap.Snapshot() == old(mob.cap.Snapshot()))
    {
      var cap := mob.cap;
      if cap == null || cap.strategy != PATROL || cap.state != IDLE || cap.waypoints == [] {
        return false;
      }
      waypoints := cap.waypoints;
      currentWaypointIndex := cap.currentWaypointIndex;
      if currentWaypointIndex < 0 || currentWaypointIndex >= |waypoints| {
        currentWaypointIndex := 0;
        cap.SetCurrentWaypointIndex(0);
      }
      return true;
    }

    /** `canContinueToUse`. */
    method CanContinueToUse() returns (b: bool)
      ensures b == (mob.cap != null && Continues(mob.cap.Snapshot()))
    {
      var cap := mob.cap;
      b := cap != null && cap.state == IDLE && cap.strategy == PATROL;
    }

    /** `start`, after a successful `canUse`. */
    method Start(detours: seq<Pos>, pathFound: bool, accepted: bool)
      requires waypoints != [] && 0 <= currentWaypointIndex < |waypoints|
      modifies this, mob
      ensures State() == StartStep(old(State()), detours, pathFound, accepted)
      ensures mob.View() == old(mob.View()).(destination := State().destination)
    {
      isWaiting := false;
      waitTimer := 0;
      lookAroundCooldown := 0;
      GenerateSearchPath(detours, pathFound, accepted);
    }

    /** `stop`: the index is written back to the record. */
    method Stop()
      modifies mob, mob.cap
      ensures mob.View() == old(mob.View()).(destination := None)
      ensures mob.cap != null ==> mob.cap.Snapshot() == old(mob.cap.Snapshot()).(currentWaypointIndex := currentWaypointIndex)
    {
      mob.StopNavigation();
      if mob.cap != null {
        mob.cap.SetCurrentWaypointIndex(currentWaypointIndex);
      }
    }

    /** `tick`. */
    method Tick(input: TickInput)
      requires waypoints == [] || 0 <= currentWaypointIndex < |waypoints|
      modifies this, mob
      ensures State() == TickStep(old(State()), input)
      ensures mob.View() == old(mob.View()).(destination := State().destination)
    {
      if waypoints == [] {
        return;
      }
      if isWaiting {
        waitTimer := waitTimer + 1;
        lookAroundCooldown := lookAroundCooldown - 1;
        if lookAroundCooldown <= 0 {
          lookAroundCooldown := input.lookAroundInterval;
        }
        if waitTimer >= 60 {
          isWaiting := false;
          waitTimer := 0;
          currentWaypointIndex := (currentWaypointIndex + 1) % |waypoints|;
          GenerateSearchPath(input.detours, input.pathFound, input.accepted);
        }
      } else {
        FollowSearchPath(input);
      }
    }

    /** `generateSearchPath`: the detour geometry is an engine input. */
    method GenerateSearchPath(detours: seq<Pos>, pathFound: bool, accepted: bool)
      requires waypoints != [] && 0 <= currentWaypointIndex < |waypoints|
      modifies this, mob
      ensures State() == GenerateStep(old(State()), detours, pathFound, accepted)
      ensures mob.View() == old(mob.View()).(destination := State().destination)
    {
      var path: seq<SearchPoint> := [];
      for i := 0 to |detours|
        invariant path == seq(i, k requires 0 <= k < i => Detour(detours[k]))
      {
        path := path + [Detour(detours[i])];
      }
      searchPath := path + [Centre(waypoints[(currentWaypointIndex + 1) % |waypoints|])];
      currentSearchIndex := 0;
      NavigateToCurrentSearchPoint(pathFound, accepted);
    }

    /** `followSearchPath`. */
    method FollowSearchPath(input: TickInput)
      modifies this, mob
      ensures State() == FollowStep(old(State()), input)
      ensures mob.View() == old(mob.View()).(destination := State().destination)
    {
      if searchPath == [] || currentSearchIndex < 0 || currentSearchIndex >= |searchPath| {
        return;
      }
      if input.arrived {
        currentSearchIndex := currentSearchIndex + 1;
        if currentSearchIndex >= |searchPath| {
          mob.StopNavigation();
          isWaiting := true;
          waitTimer := 0;
          lookAroundCooldown := 0;
        } else {
          NavigateToCurrentSearchPoint(input.pathFound, input.accepted);
        }
      } else if input.navDone {
        NavigateToCurrentSearchPoint(input.pathFound, input.accepted);
      }
    }

    /** `navigateToCurrentSearchPoint`. */
    method NavigateToCurrentSearchPoint(pathFound: bool, accepted: bool)
      modifies mob
      ensures State() == NavigateStep(old(State()), pathFound, accepted)
      ensures mob.View() == old(mob.View()).(destination := State().destination)
    {
      if searchPath == [] || currentSearchIndex < 0 || currentSearchIndex >= |searchPath| {
        return;
      }
      var _ := mob.MoveAlongPath(SearchPointBlock(searchPath[currentSearchIndex]), pathFound, accepted);
    }
  }
}
