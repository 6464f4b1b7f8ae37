// AICapabilityProvider: saving the capability to a compound tag and loading it
// back, including the packing of block positions into one signed 64-bit long.

module Persistence {
  import opened Types
  import opened Capability

  // ---------------------------------------------------------------------
  // Tags

  /** The tag kinds the capability uses.  A byte tag carries the byte value;
      a list tag its elements; a compound tag its named entries. */
  datatype Tag =
    | StringTag(s: string)
    | IntTag(i: int)
    | LongTag(l: int)
    | ByteTag(b: int)
    | ListTag(items: seq<Tag>)
    | CompoundTag(entries: map<Key, Tag>)

  /** The keys the provider writes: the capability's own entries and the
      "pos" entry of a waypoint compound. */
  datatype Key =
    | StateKey | StrategyKey | AreaTeamKey | SpawnPosKey | MarkerPosKey | LastTargetPosKey
    | InterruptedPosKey | WaypointsKey | WaypointIndexKey | TrackingTicksKey | HasBasicGoalsKey
    | PosKey

  /** The key string stored in the tag. */
  function KeyName(k: Key): string
  {
    match k
    case StateKey => "state"
    case StrategyKey => "strategy"
    case AreaTeamKey => "areaTeam"
    case SpawnPosKey => "spawnPos"
    case MarkerPosKey => "markerPos"
    case LastTargetPosKey => "lastTargetPos"
    case InterruptedPosKey => "interruptedPos"
    case WaypointsKey => "waypoints"
    case WaypointIndexKey => "waypointIndex"
    case TrackingTicksKey => "trackingTicks"
    case HasBasicGoalsKey => "hasBasicGoals"
    case PosKey => "pos"
  }

  /** No two keys share a name, so keying compounds by `Key` loses nothing. */
  lemma KeyNamesDistinct(k: Key, k': Key)
    ensures KeyName(k) == KeyName(k') ==> k == k'
  {
  }

  type Compound = map<Key, Tag>

  const TWO8: int := 0x100
  const TWO11: int := 0x800
  const TWO12: int := 0x1000
  const TWO25: int := 0x200_0000
  const TWO26: int := 0x400_0000
  const TWO31: int := 0x8000_0000
  const TWO32: int := 0x1_0000_0000
  const TWO38: int := 0x40_0000_0000
  const TWO63: int := 0x8000_0000_0000_0000
  const TWO64: int := 0x1_0000_0000_0000_0000

  /** Reinterprets the low `bits` of `v` (given `half` = 2^(bits-1) and
      `full` = 2^bits) as a two's-complement number. */
  function Signed(v: int, half: int, full: int): (r: int)
    requires 0 < half && full == 2 * half
    ensures -half <= r < half
  {
    var u := v % full;
    if u >= half then u - full else u
  }

  /** The Java casts `(int)`, `(byte)` and the signed long range. */
  function ToInt32(v: int): int { Signed(v, TWO31, TWO32) }
  function ToByte(v: int): int { Signed(v, 0x80, TWO8) }

  /** `getAsInt` / `getAsLong` / `getAsByte` of a numeric tag, and the zero that
      the typed getters return for a tag that is not numeric. */
  function NumericAsLong(t: Tag): int
  {
    match t
    case IntTag(i) => i
    case LongTag(l) => l
    case ByteTag(b) => b
    case _ => 0
  }

  function NumericAsInt(t: Tag): int
  {
    match t
    case IntTag(i) => i
    case LongTag(l) => ToInt32(l)
    case ByteTag(b) => b
    case _ => 0
  }

  function NumericAsByte(t: Tag): int
  {
    match t
    case IntTag(i) => ToByte(i)
    case LongTag(l) => ToByte(l)
    case ByteTag(b) => b
    case _ => 0
  }

  function GetString(m: Compound, k: Key): string
  {
    if k in m && m[k].StringTag? then m[k].s else ""
  }

  function GetInt(m: Compound, k: Key): int
  {
    if k in m then NumericAsInt(m[k]) else 0
  }

  function GetLong(m: Compound, k: Key): int
  {
    if k in m then NumericAsLong(m[k]) else 0
  }

  /** `getBoolean`: the byte value is non-zero. */
  function GetBoolean(m: Compound, k: Key): bool
  {
    k in m && NumericAsByte(m[k]) != 0
  }

  /** `getList(k, TAG_COMPOUND)`: the list when its elements are compounds,
      otherwise an empty list. */
  function GetCompoundList(m: Compound, k: Key): seq<Tag>
  {
    if k in m && m[k].ListTag? && (forall t :: t in m[k].items ==> t.CompoundTag?) then m[k].items else []
  }

  // ---------------------------------------------------------------------
  // Block positions as longs

  /** The coordinates a packed long can hold: 26 bits for x and z, 12 for y. */
  predicate Packable(p: Pos)
  {
    -TWO25 <= p.x < TWO25 && -TWO11 <= p.y < TWO11 && -TWO25 <= p.z < TWO25
  }

  /** `BlockPos.asLong`: x in bits 38-63, z in bits 12-37, y in bits 0-11,
      read as a signed long. */
  function AsLong(p: Pos): (l: int)
    ensures -TWO63 <= l < TWO63
  {
    var u := (p.x % TWO26) * TWO38 + (p.z % TWO26) * TWO12 + p.y % TWO12;
    Signed(u, TWO63, TWO64)
  }

  /** `BlockPos.of(long)`: each field sign-extended from its bits. */
  function OfLong(l: int): (p: Pos)
    ensures Packable(p)
  {
    var u := l % TWO64;
    Pos(Signed(u / TWO38, TWO25, TWO26), Signed(u % TWO12, TWO11, TWO12), Signed((u / TWO12) % TWO26, TWO25, TWO26))
  }

  /** Splitting a number written in mixed radix recovers its digits. */
  lemma Digits(a: int, b: int, c: int)
    requires 0 <= a < TWO26 && 0 <= b < TWO26 && 0 <= c < TWO12
    ensures var u := a * TWO38 + b * TWO12 + c;
      0 <= u < TWO64 && u / TWO38 == a && (u / TWO12) % TWO26 == b && u % TWO12 == c
  {
    var u := a * TWO38 + b * TWO12 + c;
    assert u == (a * TWO26 + b) * TWO12 + c;
    assert u / TWO12 == a * TWO26 + b;
    assert (u / TWO12) % TWO26 == b;
    assert u / TWO38 == (u / TWO12) / TWO26;
  }

  /** A packable position survives `asLong` followed by `BlockPos.of`. */
  lemma PackRoundTrip(p: Pos)
    requires Packable(p)
    ensures OfLong(AsLong(p)) == p
  {
    var a, b, c := p.x % TWO26, p.z % TWO26, p.y % TWO12;
    Digits(a, b, c);
    var u := a * TWO38 + b * TWO12 + c;
    SignedModulus64(u);
    assert AsLong(p) % TWO64 == u;
    SignedOfResidue26(p.x);
    SignedOfResidue12(p.y);
    SignedOfResidue26(p.z);
  }

  /** Reading a 64-bit pattern as a signed long keeps its residue. */
  lemma SignedModulus64(u: int)
    requires 0 <= u < TWO64
    ensures Signed(u, TWO63, TWO64) % TWO64 == u
  {
  }

  /** A 26-bit signed value is recovered from its residue. */
  lemma SignedOfResidue26(v: int)
    requires -TWO25 <= v < TWO25
    ensures Signed(v % TWO26, TWO25, TWO26) == v
  {
  }

  /** A 12-bit signed value is recovered from its residue. */
  lemma SignedOfResidue12(v: int)
    requires -TWO11 <= v < TWO11
    ensures Signed(v % TWO12, TWO11, TWO12) == v
  {
  }

  /** Distinct packable positions pack to distinct longs. */
  lemma PackInjective(p: Pos, p': Pos)
    requires Packable(p) && Packable(p') && AsLong(p) == AsLong(p')
    ensures p == p'
  {
    PackRoundTrip(p);
    PackRoundTrip(p');
  }

  // ---------------------------------------------------------------------
  // Enum names

  /** `AIState.valueOf`: the declared names, exactly; anything else throws. */
  function StateOf(s: string): (r: Option<AIState>)
    ensures r.Some? ==> StateName(r.value) == s
  {
    if s == "IDLE" then Some(IDLE)
    else if s == "ALERT" then Some(ALERT)
    else if s == "COMBAT" then Some(COMBAT)
    else if s == "TRACKING" then Some(TRACKING)
    else if s == "SEARCHING" then Some(SEARCHING)
    else None
  }

  /** `AIStrategy.valueOf`. */
  function StrategyOf(s: string): (r: Option<AIStrategy>)
    ensures r.Some? ==> StrategyName(r.value) == s
  {
    if s == "NONE" then Some(NONE)
    else if s == "GUARD" then Some(GUARD)
    else if s == "SENTRIES" then Some(SENTRIES)
    else if s == "PATROL" then Some(PATROL)
    else None
  }

  /** Each declared name is recognised, and an unrecognised name is not any
      constant's name. */
  lemma NamesRoundTrip(st: AIState, sg: AIStrategy, s: string)
    ensures StateOf(StateName(st)) == Some(st)
    ensures StrategyOf(StrategyName(sg)) == Some(sg)
    ensures StateOf(s).None? <==> s !in {"IDLE", "ALERT", "COMBAT", "TRACKING", "SEARCHING"}
    ensures StrategyOf(s).None? <==> s !in {"NONE", "GUARD", "SENTRIES", "PATROL"}
  {
  }

  // ---------------------------------------------------------------------
  // serializeNBT / deserializeNBT

  /** Writes a long entry for a position that is set; leaves `m` alone for
      a null position. */
  function PutPos(m: Compound, k: Key, p: Option<Pos>): Compound
  {
    if p.Some? then m[k := LongTag(AsLong(p.value))] else m
  }

  /** The `{"pos": long}` compound of one waypoint. */
  function WaypointTag(p: Pos): Tag
  {
    CompoundTag(map[PosKey := LongTag(AsLong(p))])
  }

  function WaypointTags(ps: seq<Pos>): (r: seq<Tag>)
    ensures |r| == |ps|
    ensures forall i :: 0 <= i < |ps| ==> r[i] == WaypointTag(ps[i])
  {
    if ps == [] then [] else [WaypointTag(ps[0])] + WaypointTags(ps[1..])
  }

  /** The compound `serializeNBT` writes: names for the enums, an int for the
      team, a long for each position that is set, the waypoint list only when
      it is not empty, and the index, timer and flag always. */
  function Encode(r: AIRecord): Compound
  {
    var m := map[StateKey := StringTag(StateName(r.state)),
                 StrategyKey := StringTag(StrategyName(r.strategy)),
                 AreaTeamKey := IntTag(r.areaTeam)];
    var m := PutPos(m, SpawnPosKey, r.spawnPosition);
    var m := PutPos(m, MarkerPosKey, r.strategyMarkerPos);
    var m := PutPos(m, LastTargetPosKey, r.lastKnownTargetPos);
    var m := PutPos(m, InterruptedPosKey, r.interruptedPatrolPosition);
    var m := if r.waypoints != [] then m[WaypointsKey := ListTag(WaypointTags(r.waypoints))] else m;
    m[WaypointIndexKey := IntTag(r.currentWaypointIndex)]
     [TrackingTicksKey := IntTag(r.trackingTicks)]
     [HasBasicGoalsKey := ByteTag(if r.hasBasicGoals then 1 else 0)]
  }

  /** The waypoints of a list of `{PosKey: long}` compounds. */
  function DecodeWaypoints(items: seq<Tag>): (r: seq<Pos>)
    ensures |r| == |items|
    ensures forall i :: 0 <= i < |items| ==>
      r[i] == OfLong(if items[i].CompoundTag? then GetLong(items[i].entries, PosKey) else 0)
  {
    if items == [] then []
    else
      var l := if items[0].CompoundTag? then GetLong(items[0].entries, PosKey) else 0;
      [OfLong(l)] + DecodeWaypoints(items[1..])
  }

  function PosField(m: Compound, k: Key, current: Option<Pos>): Option<Pos>
  {
    if k in m then Some(OfLong(GetLong(m, k))) else current
  }

  /** `deserializeNBT`, section by section: each field is overwritten only
      when its key is present; an unknown state or strategy name becomes IDLE
      or NONE. */
  function DecodeHeader(m: Compound, base: AIRecord): AIRecord
  {
    base.(state := if StateKey in m then (var s := StateOf(GetString(m, StateKey)); if s.Some? then s.value else IDLE) else base.state,
          strategy := if StrategyKey in m then (var s := StrategyOf(GetString(m, StrategyKey)); if s.Some? then s.value else NONE) else base.strategy,
          areaTeam := if AreaTeamKey in m then GetInt(m, AreaTeamKey) else base.areaTeam)
  }

  function DecodePositions(m: Compound, base: AIRecord): AIRecord
  {
    base.(spawnPosition := PosField(m, SpawnPosKey, base.spawnPosition),
          strategyMarkerPos := PosField(m, MarkerPosKey, base.strategyMarkerPos),
          lastKnownTargetPos := PosField(m, LastTargetPosKey, base.lastKnownTargetPos),
          interruptedPatrolPosition := PosField(m, InterruptedPosKey, base.interruptedPatrolPosition))
  }

  function DecodeList(m: Compound, base: AIRecord): AIRecord
  {
    base.(waypoints := if WaypointsKey in m then DecodeWaypoints(GetCompoundList(m, WaypointsKey)) else base.waypoints)
  }

  function DecodeCounters(m: Compound, base: AIRecord): AIRecord
  {
    base.(currentWaypointIndex := if WaypointIndexKey in m then GetInt(m, WaypointIndexKey) else base.currentWaypointIndex,
          trackingTicks := if TrackingTicksKey in m then GetInt(m, TrackingTicksKey) else base.trackingTicks,
          hasBasicGoals := if HasBasicGoalsKey in m then GetBoolean(m, HasBasicGoalsKey) else base.hasBasicGoals)
  }

  /** What `deserializeNBT` leaves in a capability that held `base`. */
  function DecodeInto(m: Compound, base: AIRecord): AIRecord
  {
    DecodeCounters(m, DecodeList(m, DecodePositions(m, DecodeHeader(m, base))))
  }

  /** The positions a record holds can all be packed. */
  predicate PackableRecord(r: AIRecord)
  {
    (r.spawnPosition.Some? ==> Packable(r.spawnPosition.value)) &&
    (r.strategyMarkerPos.Some? ==> Packable(r.strategyMarkerPos.value)) &&
    (r.lastKnownTargetPos.Some? ==> Packable(r.lastKnownTargetPos.value)) &&
    (r.interruptedPatrolPosition.Some? ==> Packable(r.interruptedPatrolPosition.value)) &&
    (forall p :: p in r.waypoints ==> Packable(p))
  }

  lemma WaypointsRoundTrip(ps: seq<Pos>)
    requires forall p :: p in ps ==> Packable(p)
    ensures DecodeWaypoints(WaypointTags(ps)) == ps
  {
    var r := DecodeWaypoints(WaypointTags(ps));
    forall i | 0 <= i < |ps| ensures r[i] == ps[i] {
      PackRoundTrip(ps[i]);
    }
  }

  /** Saving a capability and loading the result into a fresh one gives back
      every field, as long as its positions fit the packed format. */
  lemma SaveLoadRoundTrip(r: AIRecord)
    requires PackableRecord(r)
    ensures DecodeInto(Encode(r), Fresh()) == r
  {
    var m := Encode(r);
    EncodeScalars(r);
    EncodeSpawnAndMarker(r);
    EncodeTargetAndInterrupted(r);
    EncodeWaypointList(r);
    NamesRoundTrip(r.state, r.strategy, "");
    PosFieldRoundTrip(m, SpawnPosKey, r.spawnPosition);
    PosFieldRoundTrip(m, MarkerPosKey, r.strategyMarkerPos);
    PosFieldRoundTrip(m, LastTargetPosKey, r.lastKnownTargetPos);
    PosFieldRoundTrip(m, InterruptedPosKey, r.interruptedPatrolPosition);
    if r.waypoints != [] {
      WaypointsRoundTrip(r.waypoints);
      assert GetCompoundList(m, WaypointsKey) == WaypointTags(r.waypoints);
    }
    var d := DecodeInto(m, Fresh());
    assert d.state == r.state && d.strategy == r.strategy && d.areaTeam == r.areaTeam;
    assert d.waypoints == r.waypoints;
    assert d.currentWaypointIndex == r.currentWaypointIndex && d.trackingTicks == r.trackingTicks;
    assert d.hasBasicGoals == r.hasBasicGoals;
  }

  /** The entries `Encode` writes for the enums and the counters. */
  lemma EncodeScalars(r: AIRecord)
    ensures var m := Encode(r);
      m[StateKey] == StringTag(StateName(r.state)) &&
      m[StrategyKey] == StringTag(StrategyName(r.strategy)) &&
      m[AreaTeamKey] == IntTag(r.areaTeam) &&
      m[WaypointIndexKey] == IntTag(r.currentWaypointIndex) &&
      m[TrackingTicksKey] == IntTag(r.trackingTicks) &&
      m[HasBasicGoalsKey] == ByteTag(if r.hasBasicGoals then 1 else 0)
  {
  }

  /** The entry `Encode` writes for one position, present exactly when the
      position is set. */
  predicate HasPosEntry(m: Compound, k: Key, p: Option<Pos>)
  {
    (k in m <==> p.Some?) && (p.Some? ==> m[k] == LongTag(AsLong(p.value)))
  }

  lemma EncodeSpawnAndMarker(r: AIRecord)
    ensures HasPosEntry(Encode(r), SpawnPosKey, r.spawnPosition)
    ensures HasPosEntry(Encode(r), MarkerPosKey, r.strategyMarkerPos)
  {
  }

  lemma EncodeTargetAndInterrupted(r: AIRecord)
    ensures HasPosEntry(Encode(r), LastTargetPosKey, r.lastKnownTargetPos)
    ensures HasPosEntry(Encode(r), InterruptedPosKey, r.interruptedPatrolPosition)
  {
  }

  lemma EncodeWaypointList(r: AIRecord)
    ensures WaypointsKey in Encode(r) <==> r.waypoints != []
    ensures r.waypoints != [] ==> Encode(r)[WaypointsKey] == ListTag(WaypointTags(r.waypoints))
  {
  }

  lemma PosFieldRoundTrip(m: Compound, k: Key, p: Option<Pos>)
    requires HasPosEntry(m, k, p) && (p.Some? ==> Packable(p.value))
    ensures PosField(m, k, None) == p
  {
    if p.Some? {
      PackRoundTrip(p.value);
    }
  }

  /** Loading an empty compound changes nothing, and an unrecognised state or
      strategy name loads as IDLE or NONE. */
  lemma DecodeDefaults(m: Compound, base: AIRecord)
    ensures DecodeInto(map[], base) == base
    ensures StateKey in m && StateOf(GetString(m, StateKey)).None? ==> DecodeInto(m, base).state == IDLE
    ensures StrategyKey in m && StrategyOf(GetString(m, StrategyKey)).None? ==> DecodeInto(m, base).strategy == NONE
  {
  }

  /** `serializeNBT`, with the loop that builds the waypoint list. */
  method SerializeNBT(cap: AICapability) returns (nbt: Compound)
    ensures nbt == Encode(cap.Snapshot())
  {
    nbt := map[StateKey := StringTag(StateName(cap.state)),
               StrategyKey := StringTag(StrategyName(cap.strategy)),
               AreaTeamKey := IntTag(cap.areaTeam)];
    if cap.spawnPosition.Some? {
      nbt := nbt[SpawnPosKey := LongTag(AsLong(cap.spawnPosition.value))];
    }
    if cap.strategyMarkerPos.Some? {
      nbt := nbt[MarkerPosKey := LongTag(AsLong(cap.strategyMarkerPos.value))];
    }
    if cap.lastKnownTargetPos.Some? {
      nbt := nbt[LastTargetPosKey := LongTag(AsLong(cap.lastKnownTargetPos.value))];
    }
    if cap.interruptedPatrolPosition.Some? {
      nbt := nbt[InterruptedPosKey := LongTag(AsLong(cap.interruptedPatrolPosition.value))];
    }
    if cap.waypoints != [] {
      var list := BuildWaypointList(cap.waypoints);
      nbt := nbt[WaypointsKey := ListTag(list)];
    }
    nbt := nbt[WaypointIndexKey := IntTag(cap.currentWaypointIndex)];
    nbt := nbt[TrackingTicksKey := IntTag(cap.trackingTicks)];
    nbt := nbt[HasBasicGoalsKey := ByteTag(if cap.hasBasicGoals then 1 else 0)];
  }

  /** The loop of `serializeNBT` that writes one compound per waypoint. */
  method BuildWaypointList(waypoints: seq<Pos>) returns (list: seq<Tag>)
    ensures list == WaypointTags(waypoints)
  {
    list := [];
    var i := 0;
    while i < |waypoints|
      invariant 0 <= i <= |waypoints|
      invariant list == WaypointTags(waypoints[..i])
    {
      assert waypoints[..i + 1] == waypoints[..i] + [waypoints[i]];
      WaypointTagsSnoc(waypoints[..i], waypoints[i]);
      list := list + [WaypointTag(waypoints[i])];
      i := i + 1;
    }
    assert waypoints[..i] == waypoints;
  }

  lemma WaypointTagsSnoc(ps: seq<Pos>, p: Pos)
    ensures WaypointTags(ps + [p]) == WaypointTags(ps) + [WaypointTag(p)]
  {
    var lhs, rhs := WaypointTags(ps + [p]), WaypointTags(ps) + [WaypointTag(p)];
    assert |lhs| == |rhs|;
    forall i | 0 <= i < |lhs| ensures lhs[i] == rhs[i] {
      if i < |ps| {
        assert (ps + [p])[i] == ps[i];
      }
    }
  }

  /** `deserializeNBT`. */
  method DeserializeNBT(cap: AICapability, nbt: Compound)
    modifies cap
    ensures cap.Snapshot() == DecodeInto(nbt, old(cap.Snapshot()))
  {
    LoadHeader(cap, nbt);
    LoadPositions(cap, nbt);
    LoadWaypoints(cap, nbt);
    LoadCounters(cap, nbt);
  }

  /** The state, strategy and team entries. */
  method LoadHeader(cap: AICapability, nbt: Compound)
    modifies cap
    ensures cap.Snapshot() == DecodeHeader(nbt, old(cap.Snapshot()))
  {
    if StateKey in nbt {
      var s := StateOf(GetString(nbt, StateKey));
      cap.SetState(if s.Some? then s.value else IDLE);
    }
    if StrategyKey in nbt {
      var s := StrategyOf(GetString(nbt, StrategyKey));
      cap.SetStrategy(if s.Some? then s.value else NONE);
    }
    if AreaTeamKey in nbt {
      cap.SetAreaTeam(GetInt(nbt, AreaTeamKey));
    }
  }

  /** The four position entries. */
  method LoadPositions(cap: AICapability, nbt: Compound)
    modifies cap
    ensures cap.Snapshot() == DecodePositions(nbt, old(cap.Snapshot()))
  {
    if SpawnPosKey in nbt {
      cap.SetSpawnPosition(Some(OfLong(GetLong(nbt, SpawnPosKey))));
    }
    if MarkerPosKey in nbt {
      cap.SetStrategyMarkerPos(Some(OfLong(GetLong(nbt, MarkerPosKey))));
    }
    if LastTargetPosKey in nbt {
      cap.SetLastKnownTargetPos(Some(OfLong(GetLong(nbt, LastTargetPosKey))));
    }
    if InterruptedPosKey in nbt {
      cap.SetInterruptedPatrolPosition(Some(OfLong(GetLong(nbt, InterruptedPosKey))));
    }
  }

  /** The waypoint list entry. */
  method LoadWaypoints(cap: AICapability, nbt: Compound)
    modifies cap
    ensures cap.Snapshot() == DecodeList(nbt, old(cap.Snapshot()))
  {
    if WaypointsKey in nbt {
      var waypoints := ReadWaypoints(GetCompoundList(nbt, WaypointsKey));
      cap.SetWaypoints(Some(waypoints));
    }
  }

  /** The loop of `deserializeNBT` that reads one position per compound. */
  method ReadWaypoints(list: seq<Tag>) returns (waypoints: seq<Pos>)
    ensures waypoints == DecodeWaypoints(list)
  {
    waypoints := [];
    var i := 0;
    while i < |list|
      invariant 0 <= i <= |list|
      invariant waypoints == DecodeWaypoints(list[..i])
    {
      DecodeWaypointsSnoc(list[..i], list[i]);
      assert list[..i + 1] == list[..i] + [list[i]];
      waypoints := waypoints + [OfLong(if list[i].CompoundTag? then GetLong(list[i].entries, PosKey) else 0)];
      i := i + 1;
    }
    assert list[..i] == list;
  }

  /** The index, timer and flag entries. */
  method LoadCounters(cap: AICapability, nbt: Compound)
    modifies cap
    ensures cap.Snapshot() == DecodeCounters(nbt, old(cap.Snapshot()))
  {
    if WaypointIndexKey in nbt {
      cap.SetCurrentWaypointIndex(GetInt(nbt, WaypointIndexKey));
    }
    if TrackingTicksKey in nbt {
      cap.SetTrackingTicks(GetInt(nbt, TrackingTicksKey));
    }
    if HasBasicGoalsKey in nbt {
      cap.SetHasBasicGoals(GetBoolean(nbt, HasBasicGoalsKey));
    }
  }

  lemma DecodeWaypointsSnoc(items: seq<Tag>, t: Tag)
    ensures DecodeWaypoints(items + [t]) ==
      DecodeWaypoints(items) + [OfLong(if t.CompoundTag? then GetLong(t.entries, PosKey) else 0)]
  {
    var lhs := DecodeWaypoints(items + [t]);
    var rhs := DecodeWaypoints(items) + [OfLong(if t.CompoundTag? then GetLong(t.entries, PosKey) else 0)];
    assert |lhs| == |rhs|;
    forall i | 0 <= i < |lhs| ensures lhs[i] == rhs[i] {
      if i < |items| {
        assert (items + [t])[i] == items[i];
      }
    }
  }
}
