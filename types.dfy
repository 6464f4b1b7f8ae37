// Shared value types: block positions, the two AI enums and an optional value.

module Types {

  /** A block position: integer x, y (vertical) and z coordinates. */
  datatype Pos = Pos(x: int, y: int, z: int)
  {
    /** The position `dy` blocks further down, as `BlockPos.below(dy)`. */
    function Below(dy: int): Pos { Pos(x, y - dy, z) }

    /** The position one block up, as `BlockPos.above()`. */
    function Above(): Pos { Pos(x, y + 1, z) }

    /** The position shifted by a vector, as `BlockPos.offset(dx, dy, dz)`. */
    function Offset(dx: int, dy: int, dz: int): Pos { Pos(x + dx, y + dy, z + dz) }
  }

  /** An optional value; `None` stands for a Java `null`. */
  datatype Option<T> = None | Some(value: T)

  /** The five behaviour states of a mob. */
  datatype AIState = IDLE | ALERT | COMBAT | TRACKING | SEARCHING

  /** The strategy a marker block assigns to a mob. */
  datatype AIStrategy = NONE | GUARD | SENTRIES | PATROL

  /** `AIState.name()`: the constant's declared name. */
  function StateName(s: AIState): string
  {
    match s
    case IDLE => "IDLE"
    case ALERT => "ALERT"
    case COMBAT => "COMBAT"
    case TRACKING => "TRACKING"
    case SEARCHING => "SEARCHING"
  }

  /** `AIStrategy.name()`: the constant's declared name. */
  function StrategyName(s: AIStrategy): string
  {
    match s
    case NONE => "NONE"
    case GUARD => "GUARD"
    case SENTRIES => "SENTRIES"
    case PATROL => "PATROL"
  }

  /** Java's `int` range, for values the source stores in an `int`. */
  predicate IsInt32(n: int)
  {
    -0x8000_0000 <= n < 0x8000_0000
  }

  /** A point in the world, as Minecraft's `Vec3` of doubles (modelled by
      reals). */
  datatype Vec3 = Vec3(x: real, y: real, z: real)

  /** Whether the point lies in the unit cube of block `p`. */
  predicate InBlock(p: Pos, v: Vec3)
  {
    p.x as real <= v.x < p.x as real + 1.0 &&
    p.y as real <= v.y < p.y as real + 1.0 &&
    p.z as real <= v.z < p.z as real + 1.0
  }

  /** Java's `(int)` cast of a double inside the int range: rounds toward 0. */
  function IntCast(v: real): (r: int)
    ensures 0.0 <= v ==> r as real <= v < r as real + 1.0
    ensures v < 0.0 ==> r as real - 1.0 < v <= r as real
  {
    if v >= 0.0 then v.Floor else -((-v).Floor)
  }

  /** `new BlockPos((int) v.x, (int) v.y, (int) v.z)`, as written where a
      sound's position becomes a block. */
  function BlockOfAsWritten(v: Vec3): (b: Pos)
    ensures CastVsFloor(v.x, b.x) && CastVsFloor(v.y, b.y) && CastVsFloor(v.z, b.z)
  {
    IntCastVsFloor(v.x);
    IntCastVsFloor(v.y);
    IntCastVsFloor(v.z);
    Pos(IntCast(v.x), IntCast(v.y), IntCast(v.z))
  }

  /** How a truncated coordinate `c` relates to the coordinate of the block
      containing `v`: equal unless `v` is negative and not a whole number,
      and then one more. */
  predicate CastVsFloor(v: real, c: int)
  {
    (v >= 0.0 || v.Floor as real == v ==> c == v.Floor) &&
    (v < 0.0 && v.Floor as real != v ==> c == v.Floor + 1)
  }

  lemma IntCastVsFloor(v: real)
    ensures CastVsFloor(v, IntCast(v))
  {
    if v < 0.0 && v.Floor as real != v {
      assert (-v).Floor == -v.Floor - 1;
    }
  }

  /** The block containing a point, rounding down as `BlockPos.containing`. */
  function BlockContaining(v: Vec3): (p: Pos)
    ensures InBlock(p, v)
  {
    Pos(v.x.Floor, v.y.Floor, v.z.Floor)
  }

  /** A point lies in exactly one block. */
  lemma BlockContainingUnique(p: Pos, v: Vec3)
    requires InBlock(p, v)
    ensures p == BlockContaining(v)
  {
  }

  /** Truncation and rounding down agree where no coordinate is negative. */
  lemma BlockOfNonNegative(v: Vec3)
    requires v.x >= 0.0 && v.y >= 0.0 && v.z >= 0.0
    ensures BlockOfAsWritten(v) == BlockContaining(v)
  {
    BlockContainingUnique(BlockOfAsWritten(v), v);
  }

  /** A sound at x = -0.5 is put in block x = 0, which does not contain it. */
  lemma SoundBlockOffByOne()
    ensures BlockOfAsWritten(Vec3(-0.5, 64.0, 3.25)) == Pos(0, 64, 3)
    ensures !InBlock(BlockOfAsWritten(Vec3(-0.5, 64.0, 3.25)), Vec3(-0.5, 64.0, 3.25))
    ensures BlockContaining(Vec3(-0.5, 64.0, 3.25)) == Pos(-1, 64, 3)
  {
    assert (0.5).Floor == 0;
    assert (64.0).Floor == 64;
    assert (3.25).Floor == 3;
    assert (-0.5).Floor == -1;
  }
}
