// WaypointFinder: breadth-first discovery of the waypoint chain that starts at
// a strategy marker, grounding of each waypoint found, and the (y, x, z) order
// of the result.

module WaypointFinder {
  import opened Types

  /** The two families of marker and waypoint blocks. */
  datatype Kind = PatrolKind | SentriesKind

  /** What a world cell holds, as far as the finder can tell.  Marker and
      waypoint blocks have no collision box, so they are neither full-collision
      nor solid; `Other` is any other non-air block that is not a full
      collision block, with the engine's "solid" flag. */
  datatype Cell =
    | Air
    | Solid
    | Marker(kind: Kind, team: int)
    | Waypoint(kind: Kind, team: int)
    | Other(solid: bool)

  /** The world: the cells that are not air. */
  type World = map<Pos, Cell>

  /** The parameters of one search: the strategy, the team id and the two
      configured chain radii (already truncated to whole blocks). */
  datatype Query = Query(strategy: AIStrategy, team: int, patrolRadius: nat, sentriesRadius: nat)

  function CellAt(w: World, p: Pos): Cell
  {
    if p in w then w[p] else Air
  }

  /** `isAir()`. */
  predicate IsAir(c: Cell) { c.Air? }

  /** `isCollisionShapeFullBlock`: only plain solid blocks fill their cell. */
  predicate IsFullBlock(c: Cell) { c.Solid? }

  /** `getWaypointBlock`: the waypoint family of a strategy, if it has one. */
  function WaypointKind(s: AIStrategy): (k: Option<Kind>)
    ensures k.None? <==> s == GUARD || s == NONE
  {
    match s
    case PATROL => Some(PatrolKind)
    case SENTRIES => Some(SentriesKind)
    case _ => None
  }

  /** `isMatchingWaypoint`: a waypoint block of the strategy's family whose
      team id is the requested one. */
  predicate IsMatchingWaypoint(c: Cell, s: AIStrategy, team: int)
  {
    c.Waypoint? && WaypointKind(s) == Some(c.kind) && c.team == team
  }

  /** `isMatchingStrategyMarker`: a marker block of the strategy's family with
      the requested team id. */
  predicate IsMatchingStrategyMarker(c: Cell, s: AIStrategy, team: int)
  {
    c.Marker? && WaypointKind(s) == Some(c.kind) && c.team == team
  }

  predicate Matches(w: World, q: Query, p: Pos)
  {
    IsMatchingWaypoint(CellAt(w, p), q.strategy, q.team)
  }

  /** The chain radius used from a waypoint cell. */
  function WaypointSearchRadius(q: Query): nat
  {
    if q.strategy == PATROL then q.patrolRadius
    else if q.strategy == SENTRIES then q.sentriesRadius
    else 1
  }

  /** The radius searched around a dequeued cell: 1 around a matching marker,
      the strategy's chain radius around anything else. */
  function RadiusAt(w: World, q: Query, c: Pos): nat
  {
    if IsMatchingStrategyMarker(CellAt(w, c), q.strategy, q.team) then 1 else WaypointSearchRadius(q)
  }

  /** `d` lies in the Chebyshev cube of radius `r` around `c`. */
  predicate InBox(c: Pos, d: Pos, r: int)
  {
    -r <= d.x - c.x <= r && -r <= d.y - c.y <= r && -r <= d.z - c.z <= r
  }

  /** A hop of the chain: `d` is a matching waypoint other than `c` inside the
      cube that the search examines around `c`. */
  predicate Link(w: World, q: Query, c: Pos, d: Pos)
  {
    d != c && InBox(c, d, RadiusAt(w, q, c)) && Matches(w, q, d)
  }

  /** A chain of hops from the start cell. */
  ghost predicate IsChain(w: World, q: Query, start: Pos, path: seq<Pos>)
  {
    |path| >= 1 && path[0] == start &&
    forall i :: 0 <= i < |path| - 1 ==> Link(w, q, path[i], path[i + 1])
  }

  /** `p` is the end of some chain from the start cell. */
  ghost predicate Reachable(w: World, q: Query, start: Pos, p: Pos)
  {
    exists path :: IsChain(w, q, start, path) && path[|path| - 1] == p
  }

  /** The matching waypoint cells of the world (a finite set). */
  ghost function MatchingCells(w: World, q: Query): set<Pos>
  {
    set p | p in w.Keys && Matches(w, q, p)
  }

  /** Matching cells not yet visited: what the search may still enqueue. */
  ghost function Remaining(w: World, q: Query, visited: set<Pos>): set<Pos>
  {
    MatchingCells(w, q) - visited
  }

  // ---------------------------------------------------------------------
  // Grounding

  /** The downward scan of `findGroundBelow` from height `y`: the cell above
      the first full block at or below `y` and at or above `minY`, or `p`
      itself when there is none. */
  function GroundFrom(w: World, p: Pos, y: int, minY: int): Pos
    decreases y - minY
  {
    if y < minY then p
    else if IsFullBlock(CellAt(w, Pos(p.x, y, p.z))) then Pos(p.x, y + 1, p.z)
    else GroundFrom(w, p, y - 1, minY)
  }

  /** The grounded position of a waypoint found at `p`. */
  function Ground(w: World, p: Pos, minY: int): Pos
  {
    GroundFrom(w, p, p.y, minY)
  }

  /** The scan from height `y` keeps x and z, and either rests on the highest
      full block of the column between `minY` and `y`, or, when that stretch
      has no full block, gives back `p` unchanged. */
  lemma {:induction false} GroundFromProperties(w: World, p: Pos, y: int, minY: int)
    decreases y - minY
    ensures var g := GroundFrom(w, p, y, minY);
      g.x == p.x && g.z == p.z &&
      ((g == p && forall k :: minY <= k <= y ==> !IsFullBlock(CellAt(w, Pos(p.x, k, p.z)))) ||
       (minY <= g.y - 1 <= y && IsFullBlock(CellAt(w, Pos(p.x, g.y - 1, p.z))) &&
        forall k :: g.y - 1 < k <= y ==> !IsFullBlock(CellAt(w, Pos(p.x, k, p.z)))))
  {
    if y >= minY && !IsFullBlock(CellAt(w, Pos(p.x, y, p.z))) {
      GroundFromProperties(w, p, y - 1, minY);
    }
  }

  /** Grounding keeps x and z and lands on the cell above the highest full
      block of the column between `minY` and `p.y`; a column without one
      leaves `p` unchanged. */
  lemma GroundProperties(w: World, p: Pos, minY: int)
    ensures var g := Ground(w, p, minY);
      g.x == p.x && g.z == p.z &&
      ((g == p && forall k :: minY <= k <= p.y ==> !IsFullBlock(CellAt(w, Pos(p.x, k, p.z)))) ||
       (minY <= g.y - 1 <= p.y && IsFullBlock(CellAt(w, Pos(p.x, g.y - 1, p.z))) &&
        forall k :: g.y - 1 < k <= p.y ==> !IsFullBlock(CellAt(w, Pos(p.x, k, p.z)))))
  {
    GroundFromProperties(w, p, p.y, minY);
  }

  /** `findGroundBelow`: scan down from the waypoint's own height to the
      minimum build height. */
  method FindGroundBelow(w: World, p: Pos, minY: int) returns (g: Pos)
    ensures g == Ground(w, p, minY)
  {
    var y := p.y;
    while y >= minY
      invariant y <= p.y
      invariant GroundFrom(w, p, y, minY) == Ground(w, p, minY)
      decreases y - minY
    {
      var checkPos := Pos(p.x, y, p.z);
      if !IsAir(CellAt(w, checkPos)) && IsFullBlock(CellAt(w, checkPos)) {
        return checkPos.Above();
      }
      y := y - 1;
    }
    return p;
  }

  /** Grounds each cell of a sequence, in order. */
  function GroundAll(w: World, cells: seq<Pos>, minY: int): (r: seq<Pos>)
    ensures |r| == |cells|
    ensures forall i :: 0 <= i < |cells| ==> r[i] == Ground(w, cells[i], minY)
  {
    if cells == [] then [] else [Ground(w, cells[0], minY)] + GroundAll(w, cells[1..], minY)
  }

  /** Grounding distributes over appending one cell. */
  lemma GroundAllSnoc(w: World, cells: seq<Pos>, c: Pos, minY: int)
    ensures GroundAll(w, cells + [c], minY) == GroundAll(w, cells, minY) + [Ground(w, c, minY)]
  {
    var lhs, rhs := GroundAll(w, cells + [c], minY), GroundAll(w, cells, minY) + [Ground(w, c, minY)];
    assert |lhs| == |rhs|;
    forall i | 0 <= i < |lhs| ensures lhs[i] == rhs[i] {
      if i < |cells| {
        assert (cells + [c])[i] == cells[i];
      }
    }
  }

  // ---------------------------------------------------------------------
  // The (y, x, z) order

  /** The comparator `comparingInt(getY).thenComparingInt(getX).thenComparingInt(getZ)`
      as "a is not after b". */
  predicate LessEqYXZ(a: Pos, b: Pos)
  {
    a.y < b.y || (a.y == b.y && (a.x < b.x || (a.x == b.x && a.z <= b.z)))
  }

  predicate SortedYXZ(s: seq<Pos>)
  {
    forall i, j :: 0 <= i < j < |s| ==> LessEqYXZ(s[i], s[j])
  }

  /** The key is total and antisymmetric on positions. */
  lemma LessEqTotal(a: Pos, b: Pos)
    ensures LessEqYXZ(a, b) || LessEqYXZ(b, a)
    ensures LessEqYXZ(a, b) && LessEqYXZ(b, a) ==> a == b
  {
  }

  /** Inserts `p` into a sorted sequence. */
  function Insert(p: Pos, s: seq<Pos>): (r: seq<Pos>)
    requires SortedYXZ(s)
    ensures SortedYXZ(r)
    ensures multiset(r) == multiset(s) + multiset{p}
  {
    if s == [] then [p]
    else if LessEqYXZ(p, s[0]) then [p] + s
    else
      var t := Insert(p, s[1..]);
      assert s == [s[0]] + s[1..];
      LessEqTotal(p, s[0]);
      LowerBound(s[0], t, s[1..], p);
      ConsSorted(s[0], t);
      [s[0]] + t
  }

  /** A bound below every element of `rest` and below `p` is below every
      element of a list holding exactly those. */
  lemma LowerBound(x: Pos, t: seq<Pos>, rest: seq<Pos>, p: Pos)
    requires multiset(t) == multiset(rest) + multiset{p}
    requires LessEqYXZ(x, p) && SortedYXZ([x] + rest)
    ensures forall k :: 0 <= k < |t| ==> LessEqYXZ(x, t[k])
  {
    forall k | 0 <= k < |t|
      ensures LessEqYXZ(x, t[k])
    {
      assert t[k] in multiset(t);
      if t[k] != p {
        assert t[k] in multiset(rest);
        var m :| 0 <= m < |rest| && rest[m] == t[k];
        assert ([x] + rest)[0] == x && ([x] + rest)[m + 1] == t[k];
      }
    }
  }

  /** A sorted list below a lower bound stays sorted with the bound in front. */
  lemma ConsSorted(x: Pos, t: seq<Pos>)
    requires SortedYXZ(t) && forall k :: 0 <= k < |t| ==> LessEqYXZ(x, t[k])
    ensures SortedYXZ([x] + t)
  {
    forall i, j | 0 <= i < j < |[x] + t|
      ensures LessEqYXZ(([x] + t)[i], ([x] + t)[j])
    {
      if i > 0 {
        assert ([x] + t)[i] == t[i - 1];
      }
      assert ([x] + t)[j] == t[j - 1];
    }
  }

  /** `List.sort` with the (y, x, z) comparator: a sorted permutation. */
  function SortYXZ(s: seq<Pos>): (r: seq<Pos>)
    ensures SortedYXZ(r)
    ensures multiset(r) == multiset(s)
  {
    if s == [] then []
    else
      assert s == [s[0]] + s[1..];
      Insert(s[0], SortYXZ(s[1..]))
  }

  /** Two sorted permutations of each other begin with the same position. */
  lemma SameHead(a: seq<Pos>, b: seq<Pos>)
    requires SortedYXZ(a) && SortedYXZ(b) && multiset(a) == multiset(b) && a != [] && b != []
    ensures a[0] == b[0]
  {
    assert a[0] in multiset(b);
    assert b[0] in multiset(a);
    var i :| 0 <= i < |b| && b[i] == a[0];
    var j :| 0 <= j < |a| && a[j] == b[0];
    assert LessEqYXZ(b[0], b[i]);
    assert LessEqYXZ(a[0], a[j]);
    LessEqTotal(a[0], b[0]);
  }

  /** A sorted sequence is determined by its multiset: since the key is total
      on positions, two sorted arrangements of the same positions coincide. */
  lemma {:induction false} SortedUnique(a: seq<Pos>, b: seq<Pos>)
    requires SortedYXZ(a) && SortedYXZ(b)
    requires multiset(a) == multiset(b)
    ensures a == b
  {
    assert |a| == |multiset(a)| == |multiset(b)| == |b|;
    if a != [] {
      SameHead(a, b);
      TailPermutation(a, b);
      SortedTail(a);
      SortedTail(b);
      SortedUnique(a[1..], b[1..]);
      assert a == [a[0]] + a[1..];
      assert b == [b[0]] + b[1..];
    }
  }

  /** The tails of two permutations with the same head are permutations. */
  lemma TailPermutation(a: seq<Pos>, b: seq<Pos>)
    requires multiset(a) == multiset(b) && a != [] && b != [] && a[0] == b[0]
    ensures multiset(a[1..]) == multiset(b[1..])
  {
    RestPermutation(a, b, 0);
    assert b[..0] + b[1..] == b[1..];
  }

  /** The tail of a sorted sequence is sorted. */
  lemma SortedTail(a: seq<Pos>)
    requires SortedYXZ(a) && a != []
    ensures SortedYXZ(a[1..])
  {
    forall i, j | 0 <= i < j < |a[1..]|
      ensures LessEqYXZ(a[1..][i], a[1..][j])
    {
      assert a[1..][i] == a[i + 1] && a[1..][j] == a[j + 1];
    }
  }

  // ---------------------------------------------------------------------
  // Breadth-first search

  /** `q1`/`v1` extend `q0`/`v0` by cells newly enqueued from `current`: each
      one a fresh matching waypoint in the cube of radius `r`, enqueued once
      and marked visited when enqueued. */
  ghost predicate Extends(w: World, q: Query, current: Pos, r: int,
                          q0: seq<Pos>, v0: set<Pos>, q1: seq<Pos>, v1: set<Pos>)
  {
    |q1| >= |q0| && q1[..|q0|] == q0 && v0 <= v1 &&
    (forall d :: d in v1 && d !in v0 ==> d in q1[|q0|..]) &&
    (forall d :: d in v1 && d !in v0 ==> d != current && InBox(current, d, r) && Matches(w, q, d)) &&
    (forall i :: |q0| <= i < |q1| ==>
       q1[i] in v1 && q1[i] !in v0 && q1[i] != current && InBox(current, q1[i], r) && Matches(w, q, q1[i])) &&
    (forall i, j :: |q0| <= i < j < |q1| ==> q1[i] != q1[j]) &&
    |Remaining(w, q, v1)| + |q1| == |Remaining(w, q, v0)| + |q0|
  }

  lemma ExtendsByOne(w: World, q: Query, current: Pos, r: int,
                     q0: seq<Pos>, v0: set<Pos>, q1: seq<Pos>, v1: set<Pos>, d: Pos)
    requires Extends(w, q, current, r, q0, v0, q1, v1)
    requires d !in v1 && d != current && InBox(current, d, r) && Matches(w, q, d)
    ensures Extends(w, q, current, r, q0, v0, q1 + [d], v1 + {d})
  {
    var q2, v2 := q1 + [d], v1 + {d};
    assert q2[..|q0|] == q0;
    assert q2[|q0|..] == q1[|q0|..] + [d];
    assert d in MatchingCells(w, q);
    var rem := Remaining(w, q, v1);
    assert d in rem;
    assert Remaining(w, q, v2) == rem - {d};
    assert (rem - {d}) + {d} == rem;
  }

  /** The cells of the cube around `current` that the three nested loops have
      examined before offset (dx, dy, dz), in x-major, then y, then z order. */
  ghost predicate Before(c: Pos, r: int, dx: int, dy: int, dz: int, d: Pos)
  {
    InBox(c, d, r) &&
    (d.x - c.x < dx || (d.x - c.x == dx && (d.y - c.y < dy || (d.y - c.y == dy && d.z - c.z < dz))))
  }

  /** Every examined matching cell other than the centre has been visited. */
  ghost predicate Covered(w: World, q: Query, c: Pos, r: int, dx: int, dy: int, dz: int, v: set<Pos>)
  {
    forall d :: Before(c, r, dx, dy, dz, d) && d != c && Matches(w, q, d) ==> d in v
  }

  /** Examining offset (dx, dy, dz) extends the covered prefix by one cell. */
  lemma CoveredStep(w: World, q: Query, c: Pos, r: int, dx: int, dy: int, dz: int, v: set<Pos>, v': set<Pos>)
    requires Covered(w, q, c, r, dx, dy, dz, v) && v <= v'
    requires -r <= dx <= r && -r <= dy <= r && -r <= dz <= r
    requires (dx == 0 && dy == 0 && dz == 0) || !Matches(w, q, c.Offset(dx, dy, dz)) || c.Offset(dx, dy, dz) in v'
    ensures Covered(w, q, c, r, dx, dy, dz + 1, v')
  {
    forall d | Before(c, r, dx, dy, dz + 1, d) && d != c && Matches(w, q, d)
      ensures d in v'
    {
      if !Before(c, r, dx, dy, dz, d) {
        assert d == c.Offset(dx, dy, dz);
      }
    }
  }

  /** The end of a z-row is the start of the next one. */
  lemma CoveredNextRow(w: World, q: Query, c: Pos, r: int, dx: int, dy: int, v: set<Pos>)
    requires Covered(w, q, c, r, dx, dy, r + 1, v)
    ensures Covered(w, q, c, r, dx, dy + 1, -r, v)
  {
    forall d | Before(c, r, dx, dy + 1, -r, d) && d != c && Matches(w, q, d)
      ensures d in v
    {
      assert Before(c, r, dx, dy, r + 1, d);
    }
  }

  /** The end of a y-plane is the start of the next one. */
  lemma CoveredNextPlane(w: World, q: Query, c: Pos, r: int, dx: int, v: set<Pos>)
    requires Covered(w, q, c, r, dx, r + 1, -r, v)
    ensures Covered(w, q, c, r, dx + 1, -r, -r, v)
  {
    forall d | Before(c, r, dx + 1, -r, -r, d) && d != c && Matches(w, q, d)
      ensures d in v
    {
      assert Before(c, r, dx, r + 1, -r, d);
    }
  }

  /** After the last plane the whole cube is covered. */
  lemma CoveredCube(w: World, q: Query, c: Pos, r: int, v: set<Pos>)
    requires Covered(w, q, c, r, r + 1, -r, -r, v)
    ensures forall d :: InBox(c, d, r) && d != c && Matches(w, q, d) ==> d in v
  {
    forall d | InBox(c, d, r) && d != c && Matches(w, q, d)
      ensures d in v
    {
      assert Before(c, r, r + 1, -r, -r, d);
    }
  }

  /** The three nested `for` loops of `findConnectedWaypoints` around one
      dequeued cell: every matching waypoint of the cube, centre excluded,
      that is not yet visited is enqueued and marked visited. */
  method ScanNeighbourhood(w: World, q: Query, current: Pos, r: nat, queue: seq<Pos>, visited: set<Pos>)
    returns (queue': seq<Pos>, visited': set<Pos>)
    ensures Extends(w, q, current, r, queue, visited, queue', visited')
    ensures forall d :: InBox(current, d, r) && d != current && Matches(w, q, d) ==> d in visited'
  {
    queue', visited' := queue, visited;
    assert queue'[..|queue|] == queue;
    var n: int := r;
    var dx := -n;
    while dx <= n
      invariant -n <= dx <= n + 1
      invariant Extends(w, q, current, r, queue, visited, queue', visited')
      invariant Covered(w, q, current, r, dx, -n, -n, visited')
    {
      var dy := -n;
      while dy <= n
        invariant -n <= dy <= n + 1
        invariant Extends(w, q, current, r, queue, visited, queue', visited')
        invariant Covered(w, q, current, r, dx, dy, -n, visited')
      {
        var dz := -n;
        while dz <= n
          invariant -n <= dz <= n + 1
          invariant Extends(w, q, current, r, queue, visited, queue', visited')
          invariant Covered(w, q, current, r, dx, dy, dz, visited')
        {
          ghost var v0 := visited';
          if !(dx == 0 && dy == 0 && dz == 0) {
            var neighbor := current.Offset(dx, dy, dz);
            if neighbor !in visited' {
              if IsMatchingWaypoint(CellAt(w, neighbor), q.strategy, q.team) {
                ExtendsByOne(w, q, current, r, queue, visited, queue', visited', neighbor);
                queue' := queue' + [neighbor];
                visited' := visited' + {neighbor};
              }
            }
          }
          CoveredStep(w, q, current, r, dx, dy, dz, v0, visited');
          dz := dz + 1;
        }
        CoveredNextRow(w, q, current, r, dx, dy, visited');
        dy := dy + 1;
      }
      CoveredNextPlane(w, q, current, r, dx, visited');
      dx := dx + 1;
    }
    CoveredCube(w, q, current, r, visited');
  }

  /** Every hop out of a processed cell lands in `visited`. */
  ghost predicate Closed(w: World, q: Query, processed: set<Pos>, visited: set<Pos>)
  {
    forall c, d :: c in processed && Link(w, q, c, d) ==> d in visited
  }

  /** Once the visited set contains the start and is closed under hops, it
      contains the end of every chain. */
  lemma {:induction false} ChainEndVisited(w: World, q: Query, start: Pos, visited: set<Pos>, path: seq<Pos>)
    requires start in visited && Closed(w, q, visited, visited)
    requires IsChain(w, q, start, path)
    ensures path[|path| - 1] in visited
  {
    if |path| > 1 {
      var prefix := path[..|path| - 1];
      assert IsChain(w, q, start, prefix);
      ChainEndVisited(w, q, start, visited, prefix);
      assert Link(w, q, path[|path| - 2], path[|path| - 1]);
    }
  }

  /** A chain to every visited cell is on record. */
  ghost predicate PathsValid(w: World, q: Query, start: Pos, visited: set<Pos>, paths: map<Pos, seq<Pos>>)
  {
    paths.Keys == visited &&
    forall p :: p in visited ==> IsChain(w, q, start, paths[p]) && paths[p][|paths[p]| - 1] == p
  }

  /** The queue holds exactly the visited cells not yet processed, once each. */
  ghost predicate QueueValid(queue: seq<Pos>, visited: set<Pos>, processed: set<Pos>)
  {
    processed <= visited &&
    (forall i :: 0 <= i < |queue| ==> queue[i] in visited && queue[i] !in processed) &&
    (forall i, j :: 0 <= i < j < |queue| ==> queue[i] != queue[j]) &&
    (forall p :: p in visited ==> p in processed || p in queue)
  }

  /** The recorded chains, extended by one hop from `current` to each cell
      that the scan around it newly visited. */
  ghost function ExtendPaths(paths: map<Pos, seq<Pos>>, current: Pos, v0: set<Pos>, v1: set<Pos>): map<Pos, seq<Pos>>
    requires current in paths
  {
    paths + map d | d in v1 - v0 :: paths[current] + [d]
  }

  /** A chain followed by one more hop is a chain. */
  lemma ChainSnoc(w: World, q: Query, start: Pos, path: seq<Pos>, d: Pos)
    requires IsChain(w, q, start, path) && Link(w, q, path[|path| - 1], d)
    ensures IsChain(w, q, start, path + [d])
  {
    var path' := path + [d];
    forall i | 0 <= i < |path'| - 1
      ensures Link(w, q, path'[i], path'[i + 1])
    {
      if i < |path| - 1 {
        assert path'[i] == path[i] && path'[i + 1] == path[i + 1];
      }
    }
  }

  lemma PathsStep(w: World, q: Query, start: Pos, current: Pos, paths: map<Pos, seq<Pos>>,
                  q0: seq<Pos>, v0: set<Pos>, q1: seq<Pos>, v1: set<Pos>)
    requires PathsValid(w, q, start, v0, paths) && current in v0
    requires Extends(w, q, current, RadiusAt(w, q, current), q0, v0, q1, v1)
    ensures PathsValid(w, q, start, v1, ExtendPaths(paths, current, v0, v1))
  {
    var paths1 := ExtendPaths(paths, current, v0, v1);
    forall p | p in v1
      ensures IsChain(w, q, start, paths1[p]) && paths1[p][|paths1[p]| - 1] == p
    {
      if p in v0 {
        assert paths1[p] == paths[p];
      } else {
        assert Link(w, q, current, p);
        assert paths1[p] == paths[current] + [p];
        ChainSnoc(w, q, start, paths[current], p);
      }
    }
  }

  lemma QueueStep(queue: seq<Pos>, visited: set<Pos>, processed: set<Pos>,
                  w: World, q: Query, r: int, q1: seq<Pos>, v1: set<Pos>)
    requires QueueValid(queue, visited, processed) && queue != []
    requires Extends(w, q, queue[0], r, queue[1..], visited, q1, v1)
    ensures QueueValid(q1, v1, processed + {queue[0]})
  {
    QueueStepCovers(queue, visited, processed, w, q, r, q1, v1);
    QueueStepDistinct(queue, visited, processed, w, q, r, q1, v1);
    QueueStepMembers(queue, visited, processed, w, q, r, q1, v1);
  }

  /** After a step every visited block is processed or still queued. */
  lemma QueueStepCovers(queue: seq<Pos>, visited: set<Pos>, processed: set<Pos>,
                        w: World, q: Query, r: int, q1: seq<Pos>, v1: set<Pos>)
    requires QueueValid(queue, visited, processed) && queue != []
    requires Extends(w, q, queue[0], r, queue[1..], visited, q1, v1)
    ensures forall p :: p in v1 ==> p in processed + {queue[0]} || p in q1
  {
    var current, q0 := queue[0], queue[1..];
    forall p | p in v1
      ensures p in processed + {current} || p in q1
    {
      if p !in visited {
        assert p in q1[|q0|..];
      } else if p !in processed && p != current {
        assert p in queue;
        assert p in q0;
        assert q1[..|q0|] == q0;
      }
    }
  }

  /** After a step the queue still has no repeats. */
  lemma QueueStepDistinct(queue: seq<Pos>, visited: set<Pos>, processed: set<Pos>,
                          w: World, q: Query, r: int, q1: seq<Pos>, v1: set<Pos>)
    requires QueueValid(queue, visited, processed) && queue != []
    requires Extends(w, q, queue[0], r, queue[1..], visited, q1, v1)
    ensures forall i, j :: 0 <= i < j < |q1| ==> q1[i] != q1[j]
  {
    var q0 := queue[1..];
    forall i, j | 0 <= i < j < |q1|
      ensures q1[i] != q1[j]
    {
      if j >= |q0| && i < |q0| {
        assert q1[i] == q1[..|q0|][i] == queue[i + 1];
      } else if j < |q0| {
        assert q1[i] == q1[..|q0|][i] == queue[i + 1];
        assert q1[j] == q1[..|q0|][j] == queue[j + 1];
      }
    }
  }

  /** After a step every queued block is visited and not yet processed. */
  lemma QueueStepMembers(queue: seq<Pos>, visited: set<Pos>, processed: set<Pos>,
                         w: World, q: Query, r: int, q1: seq<Pos>, v1: set<Pos>)
    requires QueueValid(queue, visited, processed) && queue != []
    requires Extends(w, q, queue[0], r, queue[1..], visited, q1, v1)
    ensures forall i :: 0 <= i < |q1| ==> q1[i] in v1 && q1[i] !in processed + {queue[0]}
  {
    var q0 := queue[1..];
    forall i | 0 <= i < |q1|
      ensures q1[i] in v1 && q1[i] !in processed + {queue[0]}
    {
      if i < |q0| {
        assert q1[i] == q1[..|q0|][i] == queue[i + 1];
      }
    }
  }

  /** The reported cells are the matching processed ones, each once. */
  ghost predicate CellsValid(w: World, q: Query, processed: set<Pos>, cells: seq<Pos>)
  {
    (forall p :: p in cells <==> p in processed && Matches(w, q, p)) &&
    (forall i, j :: 0 <= i < j < |cells| ==> cells[i] != cells[j])
  }

  lemma CellsStep(w: World, q: Query, processed: set<Pos>, cells: seq<Pos>, current: Pos)
    requires CellsValid(w, q, processed, cells) && current !in processed
    ensures CellsValid(w, q, processed + {current}, if Matches(w, q, current) then cells + [current] else cells)
  {
    if Matches(w, q, current) {
      var cells' := cells + [current];
      forall i, j | 0 <= i < j < |cells'| ensures cells'[i] != cells'[j] {
        if j == |cells| {
          assert cells'[i] in cells;
        }
      }
    }
  }

  lemma ClosedStep(w: World, q: Query, processed: set<Pos>, visited: set<Pos>, current: Pos, v1: set<Pos>)
    requires Closed(w, q, processed, visited) && visited <= v1
    requires forall d :: Link(w, q, current, d) ==> d in v1
    ensures Closed(w, q, processed + {current}, v1)
  {
  }

  /** When the queue has run dry, the visited set is closed under hops, so the
      matching processed cells are exactly the matching reachable ones. */
  lemma SearchComplete(w: World, q: Query, start: Pos, visited: set<Pos>, paths: map<Pos, seq<Pos>>, cells: seq<Pos>)
    requires start in visited && PathsValid(w, q, start, visited, paths)
    requires Closed(w, q, visited, visited)
    requires forall p :: p in cells <==> p in visited && Matches(w, q, p)
    ensures forall p :: p in cells <==> Matches(w, q, p) && Reachable(w, q, start, p)
  {
    forall p
      ensures p in cells <==> Matches(w, q, p) && Reachable(w, q, start, p)
    {
      if p in cells {
        assert IsChain(w, q, start, paths[p]) && paths[p][|paths[p]| - 1] == p;
      }
      if Matches(w, q, p) && Reachable(w, q, start, p) {
        var path :| IsChain(w, q, start, path) && path[|path| - 1] == p;
        ChainEndVisited(w, q, start, visited, path);
      }
    }
  }

  /** `waypoints` is a result `findWaypoints` gives for a search from
      `start`, `cells` being the waypoint cells it found. */
  ghost predicate IsWaypointResult(w: World, q: Query, start: Pos, minY: int, cells: seq<Pos>, waypoints: seq<Pos>)
  {
    (forall p :: p in cells <==> Matches(w, q, p) && Reachable(w, q, start, p)) &&
    (forall i, j :: 0 <= i < j < |cells| ==> cells[i] != cells[j]) &&
    multiset(waypoints) == multiset(GroundAll(w, cells, minY)) &&
    SortedYXZ(waypoints) &&
    (q.strategy == GUARD || q.strategy == NONE ==> waypoints == [])
  }

  /** `waypoints` is a result `findWaypoints` gives for a search from `start`. */
  ghost predicate WaypointsFound(w: World, q: Query, start: Pos, minY: int, waypoints: seq<Pos>)
  {
    exists cells :: IsWaypointResult(w, q, start, minY, cells, waypoints)
  }

  /** `findWaypoints` / `findConnectedWaypoints`.  The result holds one
      grounded entry for each matching waypoint cell reachable from the start
      by a chain of hops (the cells are returned as the ghost `cells`),
      sorted by (y, x, z).  For GUARD and NONE it is empty. */
  method FindWaypoints(w: World, q: Query, start: Pos, minY: int)
    returns (waypoints: seq<Pos>, ghost cells: seq<Pos>)
    ensures forall p :: p in cells <==> Matches(w, q, p) && Reachable(w, q, start, p)
    ensures forall i, j :: 0 <= i < j < |cells| ==> cells[i] != cells[j]
    ensures multiset(waypoints) == multiset(GroundAll(w, cells, minY))
    ensures SortedYXZ(waypoints)
    ensures q.strategy == GUARD || q.strategy == NONE ==> waypoints == []
  {
    if WaypointKind(q.strategy).None? {
      cells := [];
      forall p ensures !Matches(w, q, p) { }
      return [], cells;
    }

    var found: seq<Pos> := [];
    var visited: set<Pos> := {start};
    var queue: seq<Pos> := [start];
    ghost var processed: set<Pos> := {};
    ghost var paths: map<Pos, seq<Pos>> := map[start := [start]];
    cells := [];

    while queue != []
      invariant start in visited
      invariant PathsValid(w, q, start, visited, paths)
      invariant QueueValid(queue, visited, processed)
      invariant Closed(w, q, processed, visited)
      invariant CellsValid(w, q, processed, cells)
      invariant found == GroundAll(w, cells, minY)
      decreases |Remaining(w, q, visited)| + |queue|
    {
      var current := queue[0];
      ghost var queue0, visited0 := queue, visited;
      CellsStep(w, q, processed, cells, current);

      if IsMatchingWaypoint(CellAt(w, current), q.strategy, q.team) {
        var groundPos := FindGroundBelow(w, current, minY);
        GroundAllSnoc(w, cells, current, minY);
        found := found + [groundPos];
        cells := cells + [current];
      }

      var isMarker := IsMatchingStrategyMarker(CellAt(w, current), q.strategy, q.team);
      var searchRadius: nat := if isMarker then 1 else WaypointSearchRadius(q);
      assert searchRadius == RadiusAt(w, q, current);
      queue, visited := ScanNeighbourhood(w, q, current, searchRadius, queue[1..], visited);

      PathsStep(w, q, start, current, paths, queue0[1..], visited0, queue, visited);
      paths := ExtendPaths(paths, current, visited0, visited);
      QueueStep(queue0, visited0, processed, w, q, searchRadius, queue, visited);
      ClosedStep(w, q, processed, visited0, current, visited);
      processed := processed + {current};
    }

    SearchComplete(w, q, start, visited, paths, cells);

    waypoints := SortYXZ(found);
  }

  // ---------------------------------------------------------------------
  // Independence from the visiting order

  /** In a sequence without repeats every element occurs once. */
  lemma {:induction false} DistinctCount(a: seq<Pos>, x: Pos)
    requires forall i, j :: 0 <= i < j < |a| ==> a[i] != a[j]
    ensures multiset(a)[x] == if x in a then 1 else 0
  {
    if a != [] {
      assert a == [a[0]] + a[1..];
      DistinctCount(a[1..], x);
      if x == a[0] {
        assert x !in a[1..];
      }
    }
  }

  /** Grounding distributes over concatenation. */
  lemma GroundAllAppend(w: World, a: seq<Pos>, b: seq<Pos>, minY: int)
    ensures GroundAll(w, a + b, minY) == GroundAll(w, a, minY) + GroundAll(w, b, minY)
  {
    var lhs, rhs := GroundAll(w, a + b, minY), GroundAll(w, a, minY) + GroundAll(w, b, minY);
    assert |lhs| == |rhs|;
    forall i | 0 <= i < |lhs| ensures lhs[i] == rhs[i] {
      if i < |a| {
        assert (a + b)[i] == a[i];
      } else {
        assert (a + b)[i] == b[i - |a|];
      }
    }
  }

  /** Taking one element out of a list takes it out of its multiset. */
  lemma RemoveAt(s: seq<Pos>, i: int)
    requires 0 <= i < |s|
    ensures multiset(s) == multiset(s[..i] + s[i + 1..]) + multiset{s[i]}
  {
    assert s == s[..i] + [s[i]] + s[i + 1..];
  }

  /** Grounding a list with one element taken out grounds the rest. */
  lemma GroundRemoveAt(w: World, s: seq<Pos>, i: int, minY: int)
    requires 0 <= i < |s|
    ensures multiset(GroundAll(w, s, minY)) ==
            multiset(GroundAll(w, s[..i] + s[i + 1..], minY)) + multiset{Ground(w, s[i], minY)}
  {
    assert s == s[..i] + [s[i]] + s[i + 1..];
    GroundAllAppend(w, s[..i] + [s[i]], s[i + 1..], minY);
    GroundAllAppend(w, s[..i], [s[i]], minY);
    GroundAllAppend(w, s[..i], s[i + 1..], minY);
  }

  /** Grounding a permutation gives a permutation. */
  lemma {:induction false} GroundAllPermutation(w: World, a: seq<Pos>, b: seq<Pos>, minY: int)
    requires multiset(a) == multiset(b)
    ensures multiset(GroundAll(w, a, minY)) == multiset(GroundAll(w, b, minY))
    decreases |a|
  {
    if a != [] {
      assert a[0] in multiset(b);
      var i :| 0 <= i < |b| && b[i] == a[0];
      RestPermutation(a, b, i);
      GroundAllPermutation(w, a[1..], b[..i] + b[i + 1..], minY);
      GroundRemoveAt(w, b, i, minY);
      GroundCons(w, a, minY);
    }
  }

  /** When the head of one list sits at index i of a permutation of it, the
      tail is a permutation of the other list without index i. */
  lemma RestPermutation(a: seq<Pos>, b: seq<Pos>, i: int)
    requires multiset(a) == multiset(b) && a != [] && 0 <= i < |b| && b[i] == a[0]
    ensures multiset(a[1..]) == multiset(b[..i] + b[i + 1..])
  {
    RemoveAt(b, i);
    RemoveAt(a, 0);
    assert a[..0] + a[1..] == a[1..];
    var rest := b[..i] + b[i + 1..];
    assert multiset(a[1..]) == multiset(a) - multiset{a[0]};
    assert multiset(rest) == multiset(b) - multiset{b[i]};
  }

  /** Grounding a non-empty list grounds its head and then its tail. */
  lemma GroundCons(w: World, a: seq<Pos>, minY: int)
    requires a != []
    ensures multiset(GroundAll(w, a, minY)) == multiset(GroundAll(w, a[1..], minY)) + multiset{Ground(w, a[0], minY)}
  {
    assert GroundAll(w, a, minY) == [Ground(w, a[0], minY)] + GroundAll(w, a[1..], minY);
  }

  /** Every search result for the same world, query, start and build floor is
      the same list: the waypoints reported do not depend on the order in
      which the breadth-first search happens to visit the cells. */
  lemma ResultIndependentOfOrder(w: World, q: Query, start: Pos, minY: int,
                                 wp1: seq<Pos>, cells1: seq<Pos>, wp2: seq<Pos>, cells2: seq<Pos>)
    requires forall p :: p in cells1 <==> Matches(w, q, p) && Reachable(w, q, start, p)
    requires forall i, j :: 0 <= i < j < |cells1| ==> cells1[i] != cells1[j]
    requires multiset(wp1) == multiset(GroundAll(w, cells1, minY)) && SortedYXZ(wp1)
    requires forall p :: p in cells2 <==> Matches(w, q, p) && Reachable(w, q, start, p)
    requires forall i, j :: 0 <= i < j < |cells2| ==> cells2[i] != cells2[j]
    requires multiset(wp2) == multiset(GroundAll(w, cells2, minY)) && SortedYXZ(wp2)
    ensures wp1 == wp2
  {
    forall x ensures multiset(cells1)[x] == multiset(cells2)[x] {
      DistinctCount(cells1, x);
      DistinctCount(cells2, x);
    }
    assert multiset(cells1) == multiset(cells2);
    GroundAllPermutation(w, cells1, cells2, minY);
    SortedUnique(wp1, wp2);
  }
}
