/** Geometry of the x-by-y processor mesh: the routing decision of `guidance`, the
    neighbour computation of `hop`, and the facts about routes that follow from them. */
module Mesh {
  import opened Words

  // The four link names (net.h, LINK_NORTH .. LINK_WEST), in the order they are scanned.
  datatype Dir = North | East | South | West

  // What `guidance` answers: a link to take, or the mailbox of the current node.
  datatype Way = Toward(dir: Dir) | Arrived

  function Opposite(d: Dir): Dir {
    match d
    case North => South
    case East => West
    case South => North
    case West => East
  }

  datatype GridShape = Grid(x: nat, y: nat) {
    function Size(): nat { x * y }
  }

  // y >= 1, and node ids fit the 16-bit fields of a message.
  type Grid = g: GridShape | g.y >= 1 && g.Size() <= 65536 witness Grid(1, 1)

  function Row(g: Grid, id: nat): nat
  {
    id / g.y
  }

  function Col(g: Grid, id: nat): nat
  {
    id % g.y
  }

  function Gap(a: nat, b: nat): nat { if a < b then b - a else a - b }

  // Manhattan distance.
  function Dist(g: Grid, a: nat, b: nat): nat
  {
    Gap(Row(g, a), Row(g, b)) + Gap(Col(g, a), Col(g, b))
  }

  function Guidance(g: Grid, from: nat, to: nat): Way
  {
    if from < to then
      if from % g.y < to % g.y then Toward(East) else Toward(North)
    else if from > to then
      if from % g.y > to % g.y then Toward(West) else Toward(South)
    else
      Arrived
  }

  /** The neighbour `hop` computes for an output link, in 32-bit unsigned arithmetic,
      and its out-of-bounds test. */
  function HopTarget(g: Grid, id: nat, d: Dir): (nat, bool)
  {
    match d
    case North => var nxt := (id + g.y) % WORD; (nxt, nxt >= g.Size() || nxt < id)
    case East => var nxt := (id + 1) % WORD; (nxt, nxt % g.y == 0)
    case South => var nxt := (id - g.y) % WORD; (nxt, nxt > id)
    case West => var nxt := (id - 1) % WORD; (nxt, nxt % g.y == g.y - 1 || nxt > id)
  }

  // The node one step away in direction d, when there is one.
  ghost predicate HasNeighbour(g: Grid, id: nat, d: Dir)
  {
    match d
    case North => Row(g, id) + 1 < g.x
    case East => Col(g, id) + 1 < g.y
    case South => Row(g, id) > 0
    case West => Col(g, id) > 0
  }

  function Neighbour(g: Grid, id: nat, d: Dir): int {
    match d
    case North => id + g.y
    case East => id + 1
    case South => id - g.y
    case West => id - 1
  }

  // ---------------------------------------------------------------- arithmetic

  lemma Split(g: Grid, id: nat)
    ensures id == Row(g, id) * g.y + Col(g, id)
  {
  }

  lemma RowBound(g: Grid, id: nat)
    ensures id < g.Size() <==> Row(g, id) < g.x
  {
    var r, c := Row(g, id), Col(g, id);
    Split(g, id);
    if r < g.x {
      assert (r + 1) * g.y <= g.x * g.y;
    } else {
      assert r * g.y >= g.x * g.y;
    }
  }

  // Ids are ordered by row, then by column.
  lemma Lexicographic(g: Grid, a: nat, b: nat)
    ensures a < b <==> Row(g, a) < Row(g, b) || (Row(g, a) == Row(g, b) && Col(g, a) < Col(g, b))
  {
    if Row(g, a) < Row(g, b) {
      LowerRow(g, a, b);
    } else if Row(g, b) < Row(g, a) {
      LowerRow(g, b, a);
    } else {
      Split(g, a);
      Split(g, b);
    }
  }

  lemma LowerRow(g: Grid, a: nat, b: nat)
    requires Row(g, a) < Row(g, b)
    ensures a < b
  {
    Split(g, a);
    Split(g, b);
    var r, r' := Row(g, a), Row(g, b);
    MulAtLeast(r' - r, g.y);
    assert r' * g.y == r * g.y + (r' - r) * g.y;
  }

  // Id n is at row r and column c.
  ghost predicate IsAt(g: Grid, n: int, r: int, c: int) {
    0 <= n < g.Size() && Row(g, n) == r && Col(g, n) == c
  }

  lemma AtCoordinates(g: Grid, r: nat, c: nat)
    requires r < g.x && c < g.y
    ensures IsAt(g, r * g.y + c, r, c)
  {
    DivModUnique(g.y, r, c);
    RowBound(g, r * g.y + c);
  }

  lemma NorthOf(g: Grid, id: nat)
    requires id < g.Size() && HasNeighbour(g, id, North)
    ensures IsAt(g, Neighbour(g, id, North), Row(g, id) + 1, Col(g, id))
  {
    Split(g, id);
    AtCoordinates(g, Row(g, id) + 1, Col(g, id));
    assert (Row(g, id) + 1) * g.y == Row(g, id) * g.y + g.y;
  }

  lemma SouthOf(g: Grid, id: nat)
    requires id < g.Size() && HasNeighbour(g, id, South)
    ensures IsAt(g, Neighbour(g, id, South), Row(g, id) - 1, Col(g, id))
  {
    Split(g, id);
    RowBound(g, id);
    AtCoordinates(g, Row(g, id) - 1, Col(g, id));
    assert (Row(g, id) - 1) * g.y == Row(g, id) * g.y - g.y;
  }

  lemma EastOf(g: Grid, id: nat)
    requires id < g.Size() && HasNeighbour(g, id, East)
    ensures IsAt(g, Neighbour(g, id, East), Row(g, id), Col(g, id) + 1)
  {
    Split(g, id);
    RowBound(g, id);
    AtCoordinates(g, Row(g, id), Col(g, id) + 1);
  }

  lemma WestOf(g: Grid, id: nat)
    requires id < g.Size() && HasNeighbour(g, id, West)
    ensures IsAt(g, Neighbour(g, id, West), Row(g, id), Col(g, id) - 1)
  {
    Split(g, id);
    RowBound(g, id);
    AtCoordinates(g, Row(g, id), Col(g, id) - 1);
  }

  // Coordinates of a neighbour.
  lemma NeighbourAt(g: Grid, id: nat, d: Dir)
    requires id < g.Size() && HasNeighbour(g, id, d)
    ensures 0 <= Neighbour(g, id, d) < g.Size()
    ensures var n := Neighbour(g, id, d);
      match d
      case North => Row(g, n) == Row(g, id) + 1 && Col(g, n) == Col(g, id)
      case East => Row(g, n) == Row(g, id) && Col(g, n) == Col(g, id) + 1
      case South => Row(g, n) == Row(g, id) - 1 && Col(g, n) == Col(g, id)
      case West => Row(g, n) == Row(g, id) && Col(g, n) == Col(g, id) - 1
  {
    hide Row, Col;
    match d {
      case North => NorthOf(g, id);
      case East => EastOf(g, id);
      case South => SouthOf(g, id);
      case West => WestOf(g, id);
    }
  }

  lemma WrapDown(x: int)
    requires x < 0 <= x + WORD
    ensures x % WORD == x + WORD
  {
  }

  lemma NoNorth(g: Grid, id: nat)
    requires id < g.Size() && !HasNeighbour(g, id, North)
    ensures HopTarget(g, id, North).1
  {
    RowBound(g, id);
    EdgeNorth(g, Row(g, id));
    Split(g, id);
    assert id + g.y >= g.Size();
  }

  lemma NoSouth(g: Grid, id: nat)
    requires id < g.Size() && !HasNeighbour(g, id, South)
    ensures HopTarget(g, id, South).1
  {
    Split(g, id);
    assert id < g.y;
    EdgeSouth(g);
    WrapDown(id - g.y);
  }

  lemma NoWest(g: Grid, id: nat)
    requires id < g.Size() && !HasNeighbour(g, id, West)
    ensures HopTarget(g, id, West).1
  {
    Split(g, id);
    if Row(g, id) > 0 {
      EdgeWest(g, Row(g, id));
    } else {
      assert id == 0;
      WrapDown(-1);
    }
  }

  // The four cases of the bounds test, for a link that leads nowhere.
  lemma NoNeighbour(g: Grid, id: nat, d: Dir)
    requires id < g.Size() && !HasNeighbour(g, id, d)
    ensures HopTarget(g, id, d).1
  {
    match d
    case North => NoNorth(g, id);
    case East => EdgeEast(g, id);
    case South => NoSouth(g, id);
    case West => NoWest(g, id);
  }

  lemma EdgeSouth(g: Grid)
    requires g.x > 0
    ensures g.y <= 65536
  {
    MulAtLeast(g.x, g.y);
  }

  lemma EdgeNorth(g: Grid, r: nat)
    requires r + 1 == g.x
    ensures r * g.y + g.y == g.Size() && g.y <= g.Size()
  {
    MulAtLeast(g.x, g.y);
  }

  lemma EdgeEast(g: Grid, id: nat)
    requires id < g.Size() && Col(g, id) + 1 == g.y
    ensures (id + 1) % WORD == id + 1 && (id + 1) % g.y == 0
  {
    assert id + 1 == (Row(g, id) + 1) * g.y + 0;
    DivModUnique(g.y, Row(g, id) + 1, 0);
  }

  lemma EdgeWest(g: Grid, r: nat)
    requires r > 0
    ensures r * g.y >= 1 && (r * g.y - 1) % g.y == g.y - 1
  {
    MulAtLeast(r, g.y);
    assert r * g.y - 1 == (r - 1) * g.y + (g.y - 1);
    DivModUnique(g.y, r - 1, g.y - 1);
  }

  /** The bounds test of `hop` is exact: it accepts a link just when the mesh has a node
      on its far side, and then computes that node. */
  lemma HopTargetExact(g: Grid, id: nat, d: Dir)
    requires id < g.Size()
    ensures HopTarget(g, id, d).1 <==> !HasNeighbour(g, id, d)
    ensures HasNeighbour(g, id, d) ==>
      HopTarget(g, id, d).0 == Neighbour(g, id, d) && HopTarget(g, id, d).0 < g.Size()
  {
    if HasNeighbour(g, id, d) {
      NeighbourAt(g, id, d);
    } else {
      NoNeighbour(g, id, d);
    }
  }

  // Crossing a link and coming back.
  lemma OppositeNeighbour(g: Grid, id: nat, d: Dir)
    requires id < g.Size() && HasNeighbour(g, id, d)
    ensures 0 <= Neighbour(g, id, d) < g.Size()
    ensures HasNeighbour(g, Neighbour(g, id, d), Opposite(d))
    ensures Neighbour(g, Neighbour(g, id, d), Opposite(d)) == id
  {
    NeighbourAt(g, id, d);
    RowBound(g, id);
  }

  // ---------------------------------------------------------------- routes

  // One step of the route from `at` to `to`.
  function Next(g: Grid, at: nat, to: nat): nat
  {
    match Guidance(g, at, to)
    case Arrived => at
    case Toward(d) => var n := Neighbour(g, at, d); if n < 0 then at else n
  }

  /** Every step stays inside the mesh and brings a message one step closer. */
  lemma StepCloser(g: Grid, at: nat, to: nat)
    requires at < g.Size() && to < g.Size() && at != to
    ensures Guidance(g, at, to).Toward? && HasNeighbour(g, at, Guidance(g, at, to).dir)
    ensures Next(g, at, to) == Neighbour(g, at, Guidance(g, at, to).dir)
    ensures Next(g, at, to) < g.Size()
    ensures Dist(g, at, to) >= 1 && Dist(g, Next(g, at, to), to) == Dist(g, at, to) - 1
  {
    Lexicographic(g, at, to);
    Lexicographic(g, to, at);
    RowBound(g, at);
    RowBound(g, to);
    NeighbourAt(g, at, Guidance(g, at, to).dir);
  }

  lemma DistZero(g: Grid, a: nat, b: nat)
    ensures Dist(g, a, b) == 0 <==> a == b
    ensures Dist(g, a, b) == Dist(g, b, a)
  {
    Split(g, a);
    Split(g, b);
  }

  // The node reached after k steps.
  function Route(g: Grid, from: nat, to: nat, k: nat): nat
  {
    if k == 0 then from else Next(g, Route(g, from, to, k - 1), to)
  }

  /** Routing is minimal: after k steps the target is exactly k closer, so it is reached after
      exactly Dist steps and not before, without leaving the mesh. */
  lemma {:induction false} RouteMinimal(g: Grid, from: nat, to: nat, k: nat)
    requires from < g.Size() && to < g.Size() && k <= Dist(g, from, to)
    ensures Route(g, from, to, k) < g.Size()
    ensures Dist(g, Route(g, from, to, k), to) == Dist(g, from, to) - k
    ensures Route(g, from, to, k) == to <==> k == Dist(g, from, to)
  {
    if k > 0 {
      RouteMinimal(g, from, to, k - 1);
      StepCloser(g, Route(g, from, to, k - 1), to);
    }
    DistZero(g, Route(g, from, to, k), to);
  }

  // The link taken by step k of the route.
  function Leg(g: Grid, from: nat, to: nat, k: nat): Way
  {
    Guidance(g, Route(g, from, to, k), to)
  }

  // The target lies straight ahead.
  ghost predicate Aligned(g: Grid, at: nat, to: nat)
  {
    Row(g, at) == Row(g, to) || Col(g, at) == Col(g, to)
  }

  ghost predicate TurnAllowed(a: Dir, b: Dir) {
    (a == East && b == North) || (a == North && b == West) ||
    (a == West && b == South) || (a == South && b == East)
  }

  // A single step either keeps its direction, or turns onto the straight line to the target.
  lemma TurnOnce(g: Grid, at: nat, to: nat)
    requires at < g.Size() && to < g.Size() && at != to && Next(g, at, to) != to
    ensures Guidance(g, at, to).Toward? && Guidance(g, Next(g, at, to), to).Toward?
    ensures var d, e := Guidance(g, at, to).dir, Guidance(g, Next(g, at, to), to).dir;
      (d == e || (TurnAllowed(d, e) && !Aligned(g, at, to) && Aligned(g, Next(g, at, to), to)))
    ensures Aligned(g, at, to) ==> Aligned(g, Next(g, at, to), to)
  {
    var n := Next(g, at, to);
    StepCloser(g, at, to);
    StepCloser(g, n, to);
    NeighbourAt(g, at, Guidance(g, at, to).dir);
    Lexicographic(g, at, to);
    Lexicographic(g, to, at);
    Lexicographic(g, n, to);
    Lexicographic(g, to, n);
    Split(g, at);
    Split(g, to);
    Split(g, n);
  }

  // Once aligned, the rest of the route is straight.
  lemma {:induction false} StraightAfter(g: Grid, from: nat, to: nat, k: nat, j: nat)
    requires from < g.Size() && to < g.Size() && k <= j < Dist(g, from, to)
    requires Aligned(g, Route(g, from, to, k), to)
    ensures Aligned(g, Route(g, from, to, j), to)
    ensures Leg(g, from, to, j) == Leg(g, from, to, k)
    decreases j
  {
    if k < j {
      StraightAfter(g, from, to, k, j - 1);
      RouteMinimal(g, from, to, j - 1);
      RouteMinimal(g, from, to, j);
      TurnOnce(g, Route(g, from, to, j - 1), to);
    }
  }

  /** A route turns at most once, and only in one of the four ways east to north, north to
      west, west to south, south to east. */
  lemma RouteTurnsOnce(g: Grid, from: nat, to: nat, k: nat)
    requires from < g.Size() && to < g.Size() && k + 1 < Dist(g, from, to)
    requires Leg(g, from, to, k) != Leg(g, from, to, k + 1)
    ensures Leg(g, from, to, k).Toward? && Leg(g, from, to, k + 1).Toward?
    ensures TurnAllowed(Leg(g, from, to, k).dir, Leg(g, from, to, k + 1).dir)
    ensures forall j :: 0 <= j <= k ==> Leg(g, from, to, j) == Leg(g, from, to, k)
    ensures forall j :: k < j < Dist(g, from, to) ==> Leg(g, from, to, j) == Leg(g, from, to, k + 1)
  {
    RouteMinimal(g, from, to, k);
    RouteMinimal(g, from, to, k + 1);
    TurnOnce(g, Route(g, from, to, k), to);
    forall j | k < j < Dist(g, from, to) ensures Leg(g, from, to, j) == Leg(g, from, to, k + 1) {
      StraightAfter(g, from, to, k + 1, j);
    }
    forall j | 0 <= j <= k ensures Leg(g, from, to, j) == Leg(g, from, to, k) {
      StraightBefore(g, from, to, j, k);
    }
  }

  // Before alignment the direction has not changed.
  lemma {:induction false} StraightBefore(g: Grid, from: nat, to: nat, j: nat, k: nat)
    requires from < g.Size() && to < g.Size() && j <= k < Dist(g, from, to)
    requires !Aligned(g, Route(g, from, to, k), to)
    ensures Leg(g, from, to, j) == Leg(g, from, to, k)
    decreases k
  {
    if j < k {
      RouteMinimal(g, from, to, k - 1);
      RouteMinimal(g, from, to, k);
      TurnOnce(g, Route(g, from, to, k - 1), to);
      StraightBefore(g, from, to, j, k - 1);
    }
  }
}
