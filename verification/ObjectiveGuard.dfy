/** The voxel terrain as the server sees it: `z` grows downwards. */
module Voxels {
  import opened Wrappers

  const MAP_X := 512
  const MAP_Y := 512
  const MAP_Z := 240
  const Z_ABOVE_WATERPLANE := MAP_Z - 2

  datatype Cell = Cell(x: int, y: int, z: int)

  /** The set of solid voxels of one terrain snapshot. */
  datatype World = World(solid: set<Cell>)

  predicate InMap(x: int, y: int) {
    0 <= x < MAP_X && 0 <= y < MAP_Y
  }

  /** World manager probe: everything outside the box reads as air. */
  predicate GetSolid(w: World, x: int, y: int, z: int) {
    InMap(x, y) && 0 <= z < MAP_Z && Cell(x, y, z) in w.solid
  }

  /** Objective probe: the sides and the floor of the box are solid, the space above it is air. */
  predicate Solid(w: World, x: int, y: int, z: int) {
    if !InMap(x, y) then true
    else if z < 0 then false
    else if z >= MAP_Z then true
    else GetSolid(w, x, y, z)
  }

  /** First solid voxel of a column at or below `from`; MAP_Z when there is none. */
  function FirstSolid(w: World, x: int, y: int, from: int): (top: int)
    requires 0 <= from <= MAP_Z
    ensures from <= top <= MAP_Z
    ensures forall z :: from <= z < top ==> !GetSolid(w, x, y, z)
    ensures top < MAP_Z ==> GetSolid(w, x, y, top)
    decreases MAP_Z - from
  {
    if from == MAP_Z || GetSolid(w, x, y, from) then from else FirstSolid(w, x, y, from + 1)
  }

  /** The native column query, with its optional first voxel. */
  function GetZ(w: World, x: int, y: int, start: int): int {
    if !InMap(x, y) || FirstSolid(w, x, y, 0) == MAP_Z then MAP_Z - 1
    else if start <= 0 then FirstSolid(w, x, y, 0)
    else if start >= MAP_Z then MAP_Z - 1
    else if FirstSolid(w, x, y, start) < MAP_Z then FirstSolid(w, x, y, start)
    else FirstSolid(w, x, y, 0)
  }

  function ColumnTop(w: World, x: int, y: int): int {
    GetZ(w, x, y, 0)
  }

  /** A column whose topmost solid voxel is land rather than waterbed. */
  predicate Dry(w: World, x: int, y: int) {
    InMap(x, y) && ColumnTop(w, x, y) <= Z_ABOVE_WATERPLANE
  }

  function Truncate(x: real): int {
    if x >= 0.0 then x.Floor else -((-x).Floor)
  }

  function Abs(n: int): nat {
    if n < 0 then -n else n
  }

  const SEARCH := 24

  /** The square ring around (cx, cy) that column (x, y) lies on. */
  function Ring(cx: int, cy: int, x: int, y: int): nat {
    if Abs(x - cx) > Abs(y - cy) then Abs(x - cx) else Abs(y - cy)
  }

  predicate DryNear(w: World, cx: int, cy: int, x: int, y: int) {
    Ring(cx, cy, x, y) <= SEARCH && Dry(w, x, y)
  }

  /** The outward spiral around (cx, cy) inspects column (a, b) no earlier than (x, y) of ring `r`. */
  predicate NotBefore(cx: int, cy: int, r: int, x: int, y: int, a: int, b: int) {
    Ring(cx, cy, a, b) > r || (Ring(cx, cy, a, b) == r && (a > x || (a == x && b >= y)))
  }

  /** The outward square spiral around (cx, cy), resumed at column (x, y) of ring `r`. */
  function ScanDry(w: World, cx: int, cy: int, r: int, x: int, y: int): (hit: Option<(int, int)>)
    requires 0 <= r <= SEARCH + 1 && -r <= x - cx <= r + 1 && -r <= y - cy <= r + 1
    ensures hit.Some? ==> DryNear(w, cx, cy, hit.value.0, hit.value.1)
    decreases SEARCH + 1 - r, cx + r + 1 - x, cy + r + 1 - y
  {
    if r > SEARCH then None
    else if x - cx > r then ScanDry(w, cx, cy, r + 1, cx - (r + 1), cy - (r + 1))
    else if y - cy > r then ScanDry(w, cx, cy, r, x + 1, cy - r)
    else if Ring(cx, cy, x, y) == r && Dry(w, x, y) then Some((x, y))
    else ScanDry(w, cx, cy, r, x, y + 1)
  }

  /** Going on to the next ring, row or column passes no column of the ring but the present one. */
  lemma NextRing(cx: int, cy: int, r: nat, x: int, y: int, a: int, b: int)
    requires x - cx > r && NotBefore(cx, cy, r, x, y, a, b)
    ensures NotBefore(cx, cy, r + 1, cx - (r + 1), cy - (r + 1), a, b)
  {}

  lemma NextRow(cx: int, cy: int, r: nat, x: int, y: int, a: int, b: int)
    requires y - cy > r && NotBefore(cx, cy, r, x, y, a, b)
    ensures NotBefore(cx, cy, r, x + 1, cy - r, a, b)
  {}

  lemma NextColumn(cx: int, cy: int, r: nat, x: int, y: int, a: int, b: int)
    requires NotBefore(cx, cy, r, x, y, a, b)
    ensures NotBefore(cx, cy, r, x, y + 1, a, b) || (a == x && b == y && Ring(cx, cy, a, b) == r)
  {}

  /** A column the scan has not passed yet is no nearer than what the scan will report, and wet if it reports none. */
  lemma {:induction false} ScanPassesNoDry(w: World, cx: int, cy: int, r: int, x: int, y: int, a: int, b: int)
    requires 0 <= r <= SEARCH + 1 && -r <= x - cx <= r + 1 && -r <= y - cy <= r + 1
    requires NotBefore(cx, cy, r, x, y, a, b) && DryNear(w, cx, cy, a, b)
    ensures var hit := ScanDry(w, cx, cy, r, x, y);
            hit.Some? && Ring(cx, cy, hit.value.0, hit.value.1) <= Ring(cx, cy, a, b)
    decreases SEARCH + 1 - r, cx + r + 1 - x, cy + r + 1 - y
  {
    var hit := ScanDry(w, cx, cy, r, x, y);
    assert r <= Ring(cx, cy, a, b) <= SEARCH;
    if x - cx > r {
      NextRing(cx, cy, r, x, y, a, b);
      ScanPassesNoDry(w, cx, cy, r + 1, cx - (r + 1), cy - (r + 1), a, b);
    } else if y - cy > r {
      NextRow(cx, cy, r, x, y, a, b);
      ScanPassesNoDry(w, cx, cy, r, x + 1, cy - r, a, b);
    } else if Ring(cx, cy, x, y) == r && Dry(w, x, y) {
      assert hit == Some((x, y));
    } else {
      NextColumn(cx, cy, r, x, y, a, b);
      ScanPassesNoDry(w, cx, cy, r, x, y + 1, a, b);
      assert hit == ScanDry(w, cx, cy, r, x, y + 1);
    }
  }

  datatype Position = Position(x: real, y: real, z: real)

  /** Nearest dry voxel surface; the requested column itself when no dry one is in range. */
  function DrySurfaceAnchor(w: World, x: real, y: real): Position {
    var cx, cy := Truncate(x), Truncate(y);
    match ScanDry(w, cx, cy, 0, cx, cy)
    case Some((dx, dy)) => Position(dx as real + 0.5, dy as real + 0.5, ColumnTop(w, dx, dy) as real)
    case None => Position(x, y, ColumnTop(w, cx, cy) as real)
  }

  /** The nearest dry column is found: a hit is dry and no dry column is on a smaller ring. */
  lemma ScanFindsNearestDry(w: World, cx: int, cy: int)
    ensures var hit := ScanDry(w, cx, cy, 0, cx, cy);
            match hit
            case Some((x, y)) => DryNear(w, cx, cy, x, y) &&
                                 forall a, b :: DryNear(w, cx, cy, a, b) ==> Ring(cx, cy, x, y) <= Ring(cx, cy, a, b)
            case None => forall a, b :: !DryNear(w, cx, cy, a, b)
  {
    var hit := ScanDry(w, cx, cy, 0, cx, cy);
    forall a, b | DryNear(w, cx, cy, a, b)
      ensures hit.Some? && Ring(cx, cy, hit.value.0, hit.value.1) <= Ring(cx, cy, a, b)
    {
      ScanPassesNoDry(w, cx, cy, 0, cx, cy, a, b);
    }
  }
}

/** Why a ground objective cannot be reached, and how it is put back within reach. */
module ObjectiveGuard {
  import opened Wrappers
  import opened Sizes
  import opened Voxels

  const STANDING := 2.25
  const POCKET_BUDGET := 48

  datatype Reason = Buried | Sealed | Floating

  // ----- What "sealed" means, on the voxels alone -----

  predicate Air(w: World, c: Cell) {
    !Solid(w, c.x, c.y, c.z)
  }

  predicate Adjacent(a: Cell, b: Cell) {
    Abs(a.x - b.x) + Abs(a.y - b.y) + Abs(a.z - b.z) == 1
  }

  /** A walk through six-connected air cells. */
  ghost predicate AirPath(w: World, path: seq<Cell>) {
    |path| > 0 &&
    (forall i :: 0 <= i < |path| ==> Air(w, path[i])) &&
    (forall i :: 0 < i < |path| ==> Adjacent(path[i - 1], path[i]))
  }

  ghost predicate Reachable(w: World, from: Cell, to: Cell) {
    exists path :: AirPath(w, path) && path[0] == from && path[|path| - 1] == to
  }

  /** Nothing solid at or above the cell. */
  ghost predicate SeesSky(w: World, c: Cell) {
    c.z <= 0 || forall z :: 0 <= z <= c.z ==> !GetSolid(w, c.x, c.y, z)
  }

  /** The air component of `c` is exactly `pocket`. */
  ghost predicate IsPocket(w: World, c: Cell, pocket: set<Cell>) {
    forall d :: Reachable(w, c, d) <==> d in pocket
  }

  /** The air component of `c` fits the budget and nothing in it sees the sky. */
  ghost predicate SealedPocket(w: World, c: Cell) {
    (forall d :: Reachable(w, c, d) ==> !SeesSky(w, d)) &&
    exists pocket: set<Cell> :: IsPocket(w, c, pocket) && |pocket| <= POCKET_BUDGET
  }

  function Surface(p: Position, playerSpace: bool): real {
    if playerSpace then p.z + STANDING else p.z
  }

  function Support(p: Position, playerSpace: bool): int {
    (Surface(p, playerSpace) + 0.000001).Floor
  }

  function ColumnX(p: Position): int { p.x.Floor }

  function ColumnY(p: Position): int { p.y.Floor }

  function OwnCell(p: Position, playerSpace: bool): Cell {
    Cell(ColumnX(p), ColumnY(p), Support(p, playerSpace) - 1)
  }

  predicate IsFloating(w: World, x: int, y: int, support: int) {
    support < MAP_Z - 1 && !Solid(w, x, y, support) && !Solid(w, x, y, support + 1)
  }

  ghost function TrapReason(w: World, p: Position, playerSpace: bool): Option<Reason> {
    if !Air(w, OwnCell(p, playerSpace)) then Some(Buried)
    else if IsFloating(w, ColumnX(p), ColumnY(p), Support(p, playerSpace)) then Some(Floating)
    else if SealedPocket(w, OwnCell(p, playerSpace)) then Some(Sealed)
    else None
  }

  /** An objective in open air floats when the voxel under it and the next one are both empty, above the waterbed. */
  lemma FloatsOverTwoEmptyVoxels(w: World, p: Position, playerSpace: bool, support: int)
    requires support as real <= Surface(p, playerSpace) + 0.000001 < (support + 1) as real
    ensures TrapReason(w, p, playerSpace) == Some(Floating) <==>
            && !Solid(w, p.x.Floor, p.y.Floor, support - 1) && support < MAP_Z - 1
            && !Solid(w, p.x.Floor, p.y.Floor, support) && !Solid(w, p.x.Floor, p.y.Floor, support + 1)
  {
    assert Support(p, playerSpace) == support;
  }

  // ----- The bounded flood fill -----

  /** The test the flood makes on each cell, against the column top. */
  predicate OpenSky(w: World, c: Cell) {
    c.z < ColumnTop(w, c.x, c.y) || c.z <= 0
  }

  const STEPS: seq<(int, int, int)> :=
    [(1, 0, 0), (-1, 0, 0), (0, 1, 0), (0, -1, 0), (0, 0, 1), (0, 0, -1)]

  function Shift(c: Cell, step: (int, int, int)): Cell {
    Cell(c.x + step.0, c.y + step.1, c.z + step.2)
  }

  lemma NeighbourIsAStep(a: Cell, b: Cell)
    requires Adjacent(a, b)
    ensures exists i :: 0 <= i < |STEPS| && b == Shift(a, STEPS[i])
  {
    var d := (b.x - a.x, b.y - a.y, b.z - a.z);
    if d.0 == 1 { assert b == Shift(a, STEPS[0]); }
    else if d.0 == -1 { assert b == Shift(a, STEPS[1]); }
    else if d.1 == 1 { assert b == Shift(a, STEPS[2]); }
    else if d.1 == -1 { assert b == Shift(a, STEPS[3]); }
    else if d.2 == 1 { assert b == Shift(a, STEPS[4]); }
    else { assert b == Shift(a, STEPS[5]); }
  }

  lemma ReachesItself(w: World, c: Cell)
    requires Air(w, c)
    ensures Reachable(w, c, c)
  {
    assert AirPath(w, [c]);
  }

  lemma ReachesOneFurther(w: World, from: Cell, mid: Cell, to: Cell)
    requires Reachable(w, from, mid) && Adjacent(mid, to) && Air(w, to)
    ensures Reachable(w, from, to)
  {
    var path :| AirPath(w, path) && path[0] == from && path[|path| - 1] == mid;
    var longer := path + [to];
    assert AirPath(w, longer);
    assert longer[0] == from && longer[|longer| - 1] == to;
  }

  /** `cells` contains every air neighbour of each of its members in `done`. */
  ghost predicate Closed(w: World, done: set<Cell>, cells: set<Cell>) {
    forall c, d :: c in done && Adjacent(c, d) && Air(w, d) ==> d in cells
  }

  lemma {:induction false} PathStaysInside(w: World, cells: set<Cell>, path: seq<Cell>)
    requires AirPath(w, path) && path[0] in cells && Closed(w, cells, cells)
    ensures path[|path| - 1] in cells
    decreases |path|
  {
    if |path| > 1 {
      var shorter := path[..|path| - 1];
      assert AirPath(w, shorter);
      PathStaysInside(w, cells, shorter);
      assert Adjacent(path[|path| - 2], path[|path| - 1]);
    }
  }

  lemma OpenSkySeesSky(w: World, c: Cell)
    requires Air(w, c) && OpenSky(w, c)
    ensures SeesSky(w, c)
  {}

  /** The only cell that sees the sky without passing the test has a neighbour that passes it. */
  lemma SeesSkyMeetsOpenSky(w: World, c: Cell)
    requires Air(w, c) && SeesSky(w, c)
    ensures OpenSky(w, c) || exists d :: Adjacent(c, d) && Air(w, d) && OpenSky(w, d)
  {
    if !OpenSky(w, c) {
      var above := Cell(c.x, c.y, c.z - 1);
      assert c.z == MAP_Z - 1;
      assert Adjacent(c, above) && Air(w, above) && OpenSky(w, above);
    }
  }

  lemma ExploredComponentIsSealed(w: World, start: Cell, seen: set<Cell>)
    requires start in seen && |seen| <= POCKET_BUDGET
    requires Closed(w, seen, seen)
    requires forall c :: c in seen ==> Reachable(w, start, c) && Air(w, c) && !OpenSky(w, c)
    ensures SealedPocket(w, start)
  {
    forall d | Reachable(w, start, d) ensures d in seen {
      var path :| AirPath(w, path) && path[0] == start && path[|path| - 1] == d;
      PathStaysInside(w, seen, path);
    }
    forall d | Reachable(w, start, d) ensures !SeesSky(w, d) {
      if SeesSky(w, d) {
        SeesSkyMeetsOpenSky(w, d);
      }
    }
    assert IsPocket(w, start, seen);
  }

  lemma TooBigToBeSealed(w: World, start: Cell, seen: set<Cell>)
    requires |seen| > POCKET_BUDGET && forall c :: c in seen ==> Reachable(w, start, c)
    ensures !SealedPocket(w, start)
  {
    if SealedPocket(w, start) {
      var pocket: set<Cell> :| IsPocket(w, start, pocket) && |pocket| <= POCKET_BUDGET;
      assert seen <= pocket;
      SubsetSize(seen, pocket);
    }
  }

  /** Last-in-first-out flood from `start`; gives up at open sky or past the budget. */
  method FloodIsSealed(w: World, start: Cell) returns (sealed: bool)
    requires Air(w, start)
    ensures sealed <==> SealedPocket(w, start)
  {
    var seen := {start};
    var queue := [start];
    var tops: map<(int, int), int> := map[];
    ghost var done: set<Cell> := {};
    ReachesItself(w, start);
    while queue != []
      invariant start in seen && done <= seen
      invariant forall c :: c in queue ==> c in seen
      invariant forall c :: c in seen ==> c in done || c in queue
      invariant forall c :: c in seen ==> Reachable(w, start, c) && Air(w, c)
      invariant forall c :: c in done ==> !OpenSky(w, c)
      invariant Closed(w, done, seen)
      invariant forall k :: k in tops ==> tops[k] == ColumnTop(w, k.0, k.1)
      invariant queue == [] ==> |seen| <= POCKET_BUDGET
      invariant |seen| <= POCKET_BUDGET + |STEPS|
      decreases POCKET_BUDGET + |STEPS| - |seen|, |queue|
    {
      if |seen| > POCKET_BUDGET {
        TooBigToBeSealed(w, start, seen);
        return false;
      }
      var p := queue[|queue| - 1];
      ghost var before := queue;
      queue := queue[..|queue| - 1];
      assert before == queue + [p];
      if (p.x, p.y) !in tops {
        tops := tops[(p.x, p.y) := ColumnTop(w, p.x, p.y)];
      }
      if p.z < tops[(p.x, p.y)] || p.z <= 0 {
        OpenSkySeesSky(w, p);
        return false;
      }
      ghost var was := seen;
      seen, queue := PushAirNeighbours(w, p, seen, queue);
      forall c | c in seen ensures Reachable(w, start, c) && Air(w, c) {
        if c !in was { ReachesOneFurther(w, start, p, c); }
      }
      done := done + {p};
    }
    ExploredComponentIsSealed(w, start, seen);
    return true;
  }

  lemma StepIsNeighbour(c: Cell, i: nat)
    requires i < |STEPS|
    ensures Adjacent(c, Shift(c, STEPS[i]))
  {}

  /** One expansion: the unseen air neighbours of `p` are recorded and queued. */
  method PushAirNeighbours(w: World, p: Cell, seen: set<Cell>, queue: seq<Cell>)
    returns (seen': set<Cell>, queue': seq<Cell>)
    ensures seen <= seen' && queue <= queue'
    ensures |seen'| - |seen| == |queue'| - |queue| <= |STEPS|
    ensures forall c :: c in seen' ==> c in seen || (Adjacent(p, c) && Air(w, c) && c in queue')
    ensures forall c :: c in queue' ==> c in queue || c in seen'
    ensures forall c :: Adjacent(p, c) && Air(w, c) ==> c in seen'
  {
    seen', queue' := seen, queue;
    var i := 0;
    while i < |STEPS|
      invariant 0 <= i <= |STEPS|
      invariant seen <= seen' && queue <= queue'
      invariant |seen'| - |seen| == |queue'| - |queue| <= i
      invariant forall c :: c in seen' ==> c in seen || (Adjacent(p, c) && Air(w, c) && c in queue')
      invariant forall c :: c in queue' ==> c in queue || c in seen'
      invariant forall j :: 0 <= j < i && Air(w, Shift(p, STEPS[j])) ==> Shift(p, STEPS[j]) in seen'
    {
      var n := Shift(p, STEPS[i]);
      StepIsNeighbour(p, i);
      if n !in seen' && Air(w, n) {
        seen' := seen' + {n};
        queue' := queue' + [n];
      }
      i := i + 1;
    }
    forall c | Adjacent(p, c) && Air(w, c) ensures c in seen' {
      NeighbourIsAStep(p, c);
    }
  }

  method Trapped(w: World, p: Position, playerSpace: bool) returns (reason: Option<Reason>)
    ensures reason == TrapReason(w, p, playerSpace)
  {
    var cell := OwnCell(p, playerSpace);
    if Solid(w, cell.x, cell.y, cell.z) {
      return Some(Buried);
    }
    if IsFloating(w, cell.x, cell.y, Support(p, playerSpace)) {
      return Some(Floating);
    }
    var sealed := FloodIsSealed(w, cell);
    return if sealed then Some(Sealed) else None;
  }

  // ----- Resettling -----

  function RestingSurface(w: World, x: int, y: int, support: int): int {
    if !Solid(w, x, y, support) then GetZ(w, x, y, support) else ColumnTop(w, x, y)
  }

  function ResettleSurface(w: World, p: Position, playerSpace: bool): Position {
    var top := RestingSurface(w, ColumnX(p), ColumnY(p), Support(p, playerSpace));
    var rest := if top > Z_ABOVE_WATERPLANE then DrySurfaceAnchor(w, p.x, p.y) else Position(p.x, p.y, top as real);
    if playerSpace then rest.(z := rest.z - STANDING) else rest
  }

  /** Some column the dry search looks at is dry. */
  ghost predicate DryInRange(w: World, p: Position) {
    exists a, b :: DryNear(w, Truncate(p.x), Truncate(p.y), a, b)
  }

  /** On a column top the objective is free: its own cell sees the sky. */
  lemma FreeOnColumnTop(w: World, p: Position, playerSpace: bool)
    requires InMap(ColumnX(p), ColumnY(p))
    requires Surface(p, playerSpace) == ColumnTop(w, ColumnX(p), ColumnY(p)) as real
    ensures TrapReason(w, p, playerSpace) == None
  {
    var c := OwnCell(p, playerSpace);
    assert Support(p, playerSpace) == ColumnTop(w, c.x, c.y);
    assert Air(w, c) && OpenSky(w, c);
    OpenSkySeesSky(w, c);
    ReachesItself(w, c);
  }

  lemma HalfwayFloors(n: int)
    ensures (n as real + 0.5).Floor == n
  {}

  ghost predicate OnColumnTop(w: World, q: Position) {
    InMap(ColumnX(q), ColumnY(q)) && q.z == ColumnTop(w, ColumnX(q), ColumnY(q)) as real
  }

  lemma CentreOfColumn(w: World, x: int, y: int)
    requires InMap(x, y)
    ensures OnColumnTop(w, Position(x as real + 0.5, y as real + 0.5, ColumnTop(w, x, y) as real))
  {
    HalfwayFloors(x);
    HalfwayFloors(y);
  }

  /** The dry anchor rests on the top of an in-map column. */
  lemma AnchorColumn(w: World, p: Position)
    requires InMap(ColumnX(p), ColumnY(p)) || DryInRange(w, p)
    ensures OnColumnTop(w, DrySurfaceAnchor(w, p.x, p.y))
  {
    var cx, cy := Truncate(p.x), Truncate(p.y);
    ScanFindsNearestDry(w, cx, cy);
    var hit := ScanDry(w, cx, cy, 0, cx, cy);
    if hit.Some? {
      CentreOfColumn(w, hit.value.0, hit.value.1);
    }
  }

  lemma AnchorIsColumnTop(w: World, p: Position, playerSpace: bool)
    requires RestingSurface(w, ColumnX(p), ColumnY(p), Support(p, playerSpace)) > Z_ABOVE_WATERPLANE
    requires InMap(ColumnX(p), ColumnY(p)) || DryInRange(w, p)
    ensures TrapReason(w, ResettleSurface(w, p, playerSpace), playerSpace) == None
  {
    AnchorColumn(w, p);
    var q := ResettleSurface(w, p, playerSpace);
    assert Surface(q, playerSpace) == DrySurfaceAnchor(w, p.x, p.y).z;
    FreeOnColumnTop(w, q, playerSpace);
  }

  /** With a solid support one call frees the objective. */
  lemma OneResettleFromSolidSupport(w: World, p: Position, playerSpace: bool)
    requires InMap(ColumnX(p), ColumnY(p)) || DryInRange(w, p)
    requires Solid(w, ColumnX(p), ColumnY(p), Support(p, playerSpace))
    ensures TrapReason(w, ResettleSurface(w, p, playerSpace), playerSpace) == None
  {
    if ColumnTop(w, ColumnX(p), ColumnY(p)) > Z_ABOVE_WATERPLANE {
      AnchorIsColumnTop(w, p, playerSpace);
    } else {
      FreeOnColumnTop(w, ResettleSurface(w, p, playerSpace), playerSpace);
    }
  }

  /** A dropped objective lands on a solid voxel with air above; at worst the landing is a sealed pocket. */
  lemma DropLandsOnSupport(w: World, p: Position, playerSpace: bool)
    requires InMap(ColumnX(p), ColumnY(p)) || DryInRange(w, p)
    requires !Solid(w, ColumnX(p), ColumnY(p), Support(p, playerSpace))
    ensures var q := ResettleSurface(w, p, playerSpace);
            TrapReason(w, q, playerSpace) == None ||
            (TrapReason(w, q, playerSpace) == Some(Sealed) &&
             InMap(ColumnX(q), ColumnY(q)) && Solid(w, ColumnX(q), ColumnY(q), Support(q, playerSpace)))
  {
    var x, y, support := ColumnX(p), ColumnY(p), Support(p, playerSpace);
    var top := GetZ(w, x, y, support);
    if top > Z_ABOVE_WATERPLANE {
      AnchorIsColumnTop(w, p, playerSpace);
    } else {
      var q := ResettleSurface(w, p, playerSpace);
      assert Support(q, playerSpace) == top;
      if top == ColumnTop(w, x, y) {
        FreeOnColumnTop(w, q, playerSpace);
      }
    }
  }

  /** Nothing the resettling can do helps an objective whose column is off the map with no dry land near. */
  lemma OffMapStaysBuried(w: World, p: Position, playerSpace: bool)
    requires !InMap(ColumnX(p), ColumnY(p)) && !DryInRange(w, p)
    ensures var q := ResettleSurface(w, p, playerSpace);
            q.x == p.x && q.y == p.y && TrapReason(w, q, playerSpace) == Some(Buried)
  {
    ScanFindsNearestDry(w, Truncate(p.x), Truncate(p.y));
  }

  /** Two calls free every objective that any number of calls can free. */
  lemma TwoResettlesSuffice(w: World, p: Position, playerSpace: bool)
    ensures var q := ResettleSurface(w, p, playerSpace);
            (TrapReason(w, q, playerSpace) == None ||
             TrapReason(w, ResettleSurface(w, q, playerSpace), playerSpace) == None)
            <==> (InMap(ColumnX(p), ColumnY(p)) || DryInRange(w, p))
  {
    var q := ResettleSurface(w, p, playerSpace);
    if InMap(ColumnX(p), ColumnY(p)) || DryInRange(w, p) {
      if Solid(w, ColumnX(p), ColumnY(p), Support(p, playerSpace)) {
        OneResettleFromSolidSupport(w, p, playerSpace);
      } else {
        DropLandsOnSupport(w, p, playerSpace);
        if TrapReason(w, q, playerSpace) != None {
          OneResettleFromSolidSupport(w, q, playerSpace);
        }
      }
    } else {
      OffMapStaysBuried(w, p, playerSpace);
      assert !DryInRange(w, q);
      OffMapStaysBuried(w, q, playerSpace);
    }
  }

  /** Where a resettled objective comes to rest when its own column has dry land to rest on. */
  lemma RestsInItsOwnColumn(w: World, p: Position, playerSpace: bool)
    requires InMap(ColumnX(p), ColumnY(p))
    requires RestingSurface(w, ColumnX(p), ColumnY(p), Support(p, playerSpace)) <= Z_ABOVE_WATERPLANE
    ensures var q := ResettleSurface(w, p, playerSpace);
            var support, rest := Support(p, playerSpace), Support(q, playerSpace);
            q.x == p.x && q.y == p.y && GetSolid(w, ColumnX(p), ColumnY(p), rest) &&
            if !Solid(w, ColumnX(p), ColumnY(p), support) &&
               exists z :: support <= z && GetSolid(w, ColumnX(p), ColumnY(p), z)
            then
              support < rest && forall z :: support <= z < rest ==> !Solid(w, ColumnX(p), ColumnY(p), z)
            else
              forall z :: 0 <= z < rest ==> !GetSolid(w, ColumnX(p), ColumnY(p), z)
  {
    var top := RestingSurface(w, ColumnX(p), ColumnY(p), Support(p, playerSpace));
    assert Support(ResettleSurface(w, p, playerSpace), playerSpace) == top;
  }

  /** Neither the column nor the side of the resting place changes, and it stands on a voxel under open air. */
  ghost predicate RestsOn(w: World, p: Position, q: Position, playerSpace: bool, from: int) {
    var x, y, rest := ColumnX(p), ColumnY(p), Support(q, playerSpace);
    q.x == p.x && q.y == p.y && Surface(q, playerSpace) == rest as real && from <= rest &&
    GetSolid(w, x, y, rest) && forall z :: from <= z < rest ==> !GetSolid(w, x, y, z)
  }

  /** An objective with nothing under it drops to the first solid voxel below, roof or no roof above it. */
  lemma FloatingDrops(w: World, p: Position, playerSpace: bool, z: int)
    requires InMap(ColumnX(p), ColumnY(p)) && !Solid(w, ColumnX(p), ColumnY(p), Support(p, playerSpace))
    requires Support(p, playerSpace) <= z <= Z_ABOVE_WATERPLANE && GetSolid(w, ColumnX(p), ColumnY(p), z)
    ensures var q, support := ResettleSurface(w, p, playerSpace), Support(p, playerSpace);
            RestsOn(w, p, q, playerSpace, support) && support < Support(q, playerSpace) <= z
  {
    var top := RestingSurface(w, ColumnX(p), ColumnY(p), Support(p, playerSpace));
    assert Support(ResettleSurface(w, p, playerSpace), playerSpace) == top;
  }

  /** An objective whose support is solid, or that has nothing below it at all, rises to the top of its column. */
  lemma BuriedRises(w: World, p: Position, playerSpace: bool, z: int)
    requires InMap(ColumnX(p), ColumnY(p)) && 0 <= z <= Z_ABOVE_WATERPLANE && GetSolid(w, ColumnX(p), ColumnY(p), z)
    requires var support := Support(p, playerSpace);
             Solid(w, ColumnX(p), ColumnY(p), support) ||
             forall k :: support <= k ==> !GetSolid(w, ColumnX(p), ColumnY(p), k)
    ensures var q := ResettleSurface(w, p, playerSpace);
            RestsOn(w, p, q, playerSpace, 0) && Support(q, playerSpace) <= z
  {
    var top := RestingSurface(w, ColumnX(p), ColumnY(p), Support(p, playerSpace));
    assert Support(ResettleSurface(w, p, playerSpace), playerSpace) == top;
  }

  /** On the top of a dry column in range, none of which is on a smaller ring around `p`. */
  ghost predicate OnNearestDry(w: World, p: Position, q: Position, playerSpace: bool, a: int, b: int) {
    var cx, cy := Truncate(p.x), Truncate(p.y);
    DryNear(w, cx, cy, a, b) && q.x == a as real + 0.5 && q.y == b as real + 0.5 &&
    Surface(q, playerSpace) == ColumnTop(w, a, b) as real &&
    forall c, d :: DryNear(w, cx, cy, c, d) ==> Ring(cx, cy, a, b) <= Ring(cx, cy, c, d)
  }

  /** Where nothing but the waterbed is left to rest on, the objective moves to the nearest dry land there is. */
  lemma WetMovesToDryLand(w: World, p: Position, playerSpace: bool)
    requires InMap(ColumnX(p), ColumnY(p)) && GetSolid(w, ColumnX(p), ColumnY(p), MAP_Z - 1)
    requires var support := Support(p, playerSpace);
             var from := if Solid(w, ColumnX(p), ColumnY(p), support) then 0 else support;
             forall z :: from <= z <= Z_ABOVE_WATERPLANE ==> !GetSolid(w, ColumnX(p), ColumnY(p), z)
    ensures var q := ResettleSurface(w, p, playerSpace);
            if DryInRange(w, p) then exists a, b :: OnNearestDry(w, p, q, playerSpace, a, b)
            else q.x == p.x && q.y == p.y &&
                 Surface(q, playerSpace) == ColumnTop(w, Truncate(p.x), Truncate(p.y)) as real
  {
    var q, cx, cy := ResettleSurface(w, p, playerSpace), Truncate(p.x), Truncate(p.y);
    assert RestingSurface(w, ColumnX(p), ColumnY(p), Support(p, playerSpace)) == MAP_Z - 1;
    assert Surface(q, playerSpace) == DrySurfaceAnchor(w, p.x, p.y).z;
    ScanFindsNearestDry(w, cx, cy);
    var hit := ScanDry(w, cx, cy, 0, cx, cy);
    if hit.Some? {
      assert OnNearestDry(w, p, q, playerSpace, hit.value.0, hit.value.1);
    }
  }

  // ----- The grace clock -----

  /** One observation of one objective. */
  datatype Sample = Sample(trapped: bool, now: real)

  datatype Watch = Watch(since: Option<real>, due: bool)

  function WatchStep(since: Option<real>, s: Sample, seconds: real): Watch {
    if !s.trapped then Watch(None, false)
    else
      var started := if since.Some? then since.value else s.now;
      if s.now - started >= seconds then Watch(None, true) else Watch(Some(started), false)
  }

  function SinceOf(m: map<int, real>, key: int): Option<real> {
    if key in m then Some(m[key]) else None
  }

  /** Per-objective "trapped since" clocks with a grace period. */
  class TrapTimer {
    var since: map<int, real>

    constructor ()
      ensures since == map[]
    {
      since := map[];
    }

    method Due(key: int, trapped: bool, now: real, seconds: real) returns (due: bool)
      modifies this
      ensures Watch(SinceOf(since, key), due) == WatchStep(SinceOf(old(since), key), Sample(trapped, now), seconds)
      ensures forall k :: k != key ==> SinceOf(since, k) == SinceOf(old(since), k)
    {
      if !trapped {
        since := since - {key};
        return false;
      }
      if key !in since {
        since := since[key := now];
      }
      if now - since[key] >= seconds {
        since := since - {key};
        return true;
      }
      return false;
    }

    method Clear()
      modifies this
      ensures since == map[]
    {
      since := map[];
    }
  }

  /** The clock of one objective after a whole history of observations. */
  function Watched(history: seq<Sample>, seconds: real): Watch {
    if history == [] then Watch(None, false)
    else WatchStep(Watched(history[..|history| - 1], seconds).since, history[|history| - 1], seconds)
  }

  ghost predicate DueAt(history: seq<Sample>, seconds: real, i: nat)
    requires i < |history|
  {
    Watched(history[..i + 1], seconds).due
  }

  /** Trapped at every observation from `j` on, and not moved since. */
  ghost predicate TrappedSince(history: seq<Sample>, seconds: real, j: nat) {
    j < |history| &&
    (forall i :: j <= i < |history| ==> history[i].trapped) &&
    (forall i :: j <= i < |history| - 1 ==> !DueAt(history, seconds, i))
  }

  ghost predicate Chronological(history: seq<Sample>) {
    forall i, j :: 0 <= i <= j < |history| ==> history[i].now <= history[j].now
  }

  lemma DueInPrefix(history: seq<Sample>, seconds: real, n: nat, i: nat)
    requires i < n <= |history|
    ensures DueAt(history[..n], seconds, i) == DueAt(history, seconds, i)
  {
    assert history[..n][..i + 1] == history[..i + 1];
  }

  /** A running clock started at the first observation of the current trapped stretch. */
  lemma {:induction false} ClockStart(history: seq<Sample>, seconds: real) returns (j: nat)
    requires Watched(history, seconds).since.Some?
    ensures TrappedSince(history, seconds, j)
    ensures Watched(history, seconds).since == Some(history[j].now)
  {
    var n := |history| - 1;
    var earlier := history[..n];
    if Watched(earlier, seconds).since.Some? {
      j := ClockStart(earlier, seconds);
      assert history[..n + 1] == history;
      forall i | j <= i < n ensures !DueAt(history, seconds, i) {
        DueInPrefix(history, seconds, n, i);
        if i == n - 1 { assert earlier[..i + 1] == earlier; }
      }
    } else {
      j := n;
    }
  }

  /** A stretch that began at `j` keeps the clock running from no later than `j`. */
  lemma {:induction false} StretchKeepsClock(history: seq<Sample>, seconds: real, j: nat)
    requires Chronological(history) && TrappedSince(history, seconds, j)
    requires !Watched(history, seconds).due
    ensures Watched(history, seconds).since.Some? && Watched(history, seconds).since.value <= history[j].now
  {
    var n := |history| - 1;
    var earlier := history[..n];
    if Watched(earlier, seconds).since.Some? {
      var start := ClockStart(earlier, seconds);
    }
    if j < n {
      forall i | j <= i < n - 1 ensures !DueAt(earlier, seconds, i) {
        DueInPrefix(history, seconds, n, i);
      }
      assert !DueAt(history, seconds, n - 1);
      StretchKeepsClock(earlier, seconds, j);
    }
  }

  lemma DueNeedsGrace(history: seq<Sample>, seconds: real) returns (j: nat)
    requires history != [] && Watched(history, seconds).due
    ensures TrappedSince(history, seconds, j) && history[|history| - 1].now - history[j].now >= seconds
  {
    var n := |history| - 1;
    var earlier := history[..n];
    if Watched(earlier, seconds).since.Some? {
      j := ClockStart(earlier, seconds);
      forall i | j <= i < n ensures !DueAt(history, seconds, i) {
        DueInPrefix(history, seconds, n, i);
        if i == n - 1 { assert earlier[..i + 1] == earlier; }
      }
    } else {
      j := n;
    }
  }

  lemma GraceMakesDue(history: seq<Sample>, seconds: real, j: nat)
    requires Chronological(history) && TrappedSince(history, seconds, j)
    requires history[|history| - 1].now - history[j].now >= seconds
    ensures Watched(history, seconds).due
  {
    if !Watched(history, seconds).due {
      StretchKeepsClock(history, seconds, j);
    }
  }

  /** The objective is moved exactly when it has been trapped, unmoved, for the whole grace period. */
  lemma DueExactlyAfterGrace(history: seq<Sample>, seconds: real)
    requires Chronological(history) && history != []
    ensures Watched(history, seconds).due <==>
            exists j: nat :: TrappedSince(history, seconds, j) && history[|history| - 1].now - history[j].now >= seconds
  {
    if Watched(history, seconds).due {
      var j := DueNeedsGrace(history, seconds);
    }
    if j: nat :| TrappedSince(history, seconds, j) && history[|history| - 1].now - history[j].now >= seconds {
      GraceMakesDue(history, seconds, j);
    }
  }
}
