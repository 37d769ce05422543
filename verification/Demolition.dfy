/** The two objective snapshots and the index of their destroyed cells. */
module ObjectiveIndex {
  import opened Teams
  import opened Voxels

  /** Frozen objective cells of both bases, and the ones the listener believes are gone. */
  datatype Index = Index(blue: set<Cell>, green: set<Cell>, blueGone: set<Cell>, greenGone: set<Cell>)

  datatype Edit = Edit(cell: Cell, solid: bool)

  function Mark(gone: set<Cell>, e: Edit): set<Cell> {
    if e.solid then gone - {e.cell} else gone + {e.cell}
  }

  /** The listener stops at the first base whose snapshot holds the cell, Blue first. */
  function Listen(x: Index, e: Edit): Index {
    if e.cell in x.blue then x.(blueGone := Mark(x.blueGone, e))
    else if e.cell in x.green then x.(greenGone := Mark(x.greenGone, e))
    else x
  }

  function Apply(solid: set<Cell>, e: Edit): set<Cell> {
    if e.solid then solid + {e.cell} else solid - {e.cell}
  }

  function SolidAfter(solid: set<Cell>, edits: seq<Edit>): set<Cell> {
    if edits == [] then solid else Apply(SolidAfter(solid, edits[..|edits| - 1]), edits[|edits| - 1])
  }

  function IndexAfter(x: Index, edits: seq<Edit>): (x': Index)
    ensures x'.blue == x.blue && x'.green == x.green
  {
    if edits == [] then x else Listen(IndexAfter(x, edits[..|edits| - 1]), edits[|edits| - 1])
  }

  /** A snapshot taken of solid cells, nothing destroyed yet. */
  ghost predicate Frozen(x: Index, solid: set<Cell>) {
    x.blue <= solid && x.green <= solid && x.blueGone == {} && x.greenGone == {}
  }

  /** Blue's index is always its recomputation from the terrain. */
  lemma {:induction false} BlueIndexIsRecomputation(x: Index, solid: set<Cell>, edits: seq<Edit>)
    requires Frozen(x, solid)
    ensures IndexAfter(x, edits).blueGone == x.blue - SolidAfter(solid, edits)
  {
    if edits != [] {
      BlueIndexIsRecomputation(x, solid, edits[..|edits| - 1]);
    }
  }

  lemma {:induction false} GreenIndexIsRecomputation(x: Index, solid: set<Cell>, edits: seq<Edit>)
    requires Frozen(x, solid) && x.blue !! x.green
    ensures IndexAfter(x, edits).greenGone == x.green - SolidAfter(solid, edits)
  {
    if edits != [] {
      GreenIndexIsRecomputation(x, solid, edits[..|edits| - 1]);
    }
  }

  ghost predicate GreenAlwaysExact(x: Index, solid: set<Cell>) {
    forall edits :: IndexAfter(x, edits).greenGone == x.green - SolidAfter(solid, edits)
  }

  /** Green's index can be trusted exactly when the two snapshots share no cell. */
  lemma GreenIndexNeedsDisjointBases(x: Index, solid: set<Cell>)
    requires Frozen(x, solid)
    ensures GreenAlwaysExact(x, solid) <==> x.blue !! x.green
  {
    if x.blue !! x.green {
      forall edits ensures IndexAfter(x, edits).greenGone == x.green - SolidAfter(solid, edits) {
        GreenIndexIsRecomputation(x, solid, edits);
      }
    } else {
      var shared :| shared in x.blue && shared in x.green;
      SharedCellIsMissed(x, solid, shared);
    }
  }

  /** Digging out one shared cell leaves Green's index without it. */
  lemma SharedCellIsMissed(x: Index, solid: set<Cell>, shared: Cell)
    requires Frozen(x, solid) && shared in x.blue && shared in x.green
    ensures var edits := [Edit(shared, false)];
            shared !in IndexAfter(x, edits).greenGone && shared in x.green - SolidAfter(solid, edits)
  {
    var edits := [Edit(shared, false)];
    assert edits[..0] == [];
    assert IndexAfter(x, edits) == Listen(x, edits[0]);
    assert SolidAfter(solid, edits) == Apply(solid, edits[0]);
  }

  /** The counting test of the tick. */
  predicate CountsAsDestroyed(cells: set<Cell>, gone: set<Cell>) {
    cells != {} && |gone| >= |cells|
  }

  /** It fires exactly when the base had cells and none of them is solid any more. */
  lemma DestroyedMeansNothingStands(cells: set<Cell>, solid: set<Cell>)
    ensures CountsAsDestroyed(cells, cells - solid) <==> cells != {} && cells !! solid
  {
    var gone := cells - solid;
    assert cells == gone + (cells * solid);
    assert |cells| == |gone| + |cells * solid|;
    if cells * solid == {} {} else { assert |cells * solid| > 0; }
  }

  /** Both tests together, after any terrain history. */
  lemma BasesFallWhenLevelled(x: Index, solid: set<Cell>, edits: seq<Edit>)
    requires Frozen(x, solid) && x.blue !! x.green
    ensures var after, terrain := IndexAfter(x, edits), SolidAfter(solid, edits);
            (CountsAsDestroyed(after.blue, after.blueGone) <==> x.blue != {} && x.blue !! terrain) &&
            (CountsAsDestroyed(after.green, after.greenGone) <==> x.green != {} && x.green !! terrain)
  {
    BlueIndexIsRecomputation(x, solid, edits);
    GreenIndexIsRecomputation(x, solid, edits);
    DestroyedMeansNothingStands(x.blue, SolidAfter(solid, edits));
    DestroyedMeansNothingStands(x.green, SolidAfter(solid, edits));
  }
}

/** Who is paid for which blocks. */
module BlockCredit {
  import opened Arithmetic
  import opened Voxels

  /** One batch of positions a player built, seen by its own team's book of self-made holes. */
  datatype Book = Book(selfDamaged: set<Cell>, credited: nat)

  function BuildCell(own: set<Cell>, b: Book, cell: Cell): Book {
    if cell !in own then b
    else if cell in b.selfDamaged then b.(selfDamaged := b.selfDamaged - {cell})
    else b.(credited := b.credited + 1)
  }

  function BuildBatch(own: set<Cell>, selfDamaged: set<Cell>, cells: seq<Cell>): Book {
    if cells == [] then Book(selfDamaged, 0)
    else BuildCell(own, BuildBatch(own, selfDamaged, cells[..|cells| - 1]), cells[|cells| - 1])
  }

  /** Position `i` of a batch earns repair credit. */
  ghost predicate CreditedAt(own: set<Cell>, selfDamaged: set<Cell>, cells: seq<Cell>, i: nat)
    requires i < |cells|
  {
    BuildBatch(own, selfDamaged, cells[..i + 1]).credited > BuildBatch(own, selfDamaged, cells[..i]).credited
  }

  lemma {:induction false} BookAfterPrefix(own: set<Cell>, selfDamaged: set<Cell>, cells: seq<Cell>)
    ensures BuildBatch(own, selfDamaged, cells).selfDamaged == selfDamaged - (set c | c in cells && c in own)
  {
    if cells != [] {
      BookAfterPrefix(own, selfDamaged, cells[..|cells| - 1]);
      assert cells == cells[..|cells| - 1] + [cells[|cells| - 1]];
    }
  }

  /** The credit of a batch is the number of its credited positions. */
  lemma {:induction false} CreditIsTheNumberOfPositions(own: set<Cell>, selfDamaged: set<Cell>, cells: seq<Cell>)
    ensures BuildBatch(own, selfDamaged, cells).credited == |CreditedPositions(own, selfDamaged, cells)|
  {
    if cells == [] {
      assert CreditedPositions(own, selfDamaged, cells) == {};
    } else {
      var n := |cells| - 1;
      CreditIsTheNumberOfPositions(own, selfDamaged, cells[..n]);
      BookAfterPrefix(own, selfDamaged, cells[..n]);
      OneMorePosition(own, selfDamaged, cells, n);
    }
  }

  lemma OneMorePosition(own: set<Cell>, selfDamaged: set<Cell>, cells: seq<Cell>, n: nat)
    requires |cells| == n + 1
    ensures CreditedPositions(own, selfDamaged, cells) ==
            CreditedPositions(own, selfDamaged, cells[..n]) +
            if cells[n] in own && (cells[n] !in selfDamaged || cells[n] in cells[..n]) then {n} else {}
  {
    forall i | 0 <= i < n
      ensures i in CreditedPositions(own, selfDamaged, cells) <==> i in CreditedPositions(own, selfDamaged, cells[..n])
    {
      assert cells[..n][i] == cells[i] && cells[..n][..i] == cells[..i];
    }
  }

  function CreditedPositions(own: set<Cell>, selfDamaged: set<Cell>, cells: seq<Cell>): set<nat> {
    set i | 0 <= i < |cells| && cells[i] in own && (cells[i] !in selfDamaged || cells[i] in cells[..i])
  }

  /** Exactly when a position is credited; a cell listed twice in a batch escapes the book. */
  lemma CreditedExactlyWhen(own: set<Cell>, selfDamaged: set<Cell>, cells: seq<Cell>, i: nat)
    requires i < |cells|
    ensures CreditedAt(own, selfDamaged, cells, i) <==>
            cells[i] in own && (cells[i] !in selfDamaged || cells[i] in cells[..i])
  {
    BookAfterPrefix(own, selfDamaged, cells[..i]);
    assert cells[..i + 1][..i] == cells[..i];
  }

  // ----- Score for refilling one's own holes -----

  /**
   * Batches in commit order. A removal or a build is announced for a team, or not at all: outside the
   * hooks' reach, or dropped by a full event queue.
   */
  datatype Event =
    | Removed(team: int, cells: seq<Cell>)
    | Lost(cells: seq<Cell>)
    | Built(team: int, cells: seq<Cell>)
    | BuiltUnheard(cells: seq<Cell>)

  /**
   * Terrain, who made the latest removal of each cell (none for unannounced losses), the cells one
   * team has been announced to have built since their latest removal, and that team's book.
   */
  datatype State = State(solid: set<Cell>, remover: map<Cell, int>, rebuilt: set<Cell>, selfDamaged: set<Cell>)

  function CountIn(cells: seq<Cell>, target: set<Cell>): nat {
    if cells == [] then 0
    else CountIn(cells[..|cells| - 1], target) + if cells[|cells| - 1] in target then 1 else 0
  }

  /** Positions, not cells, are counted. */
  lemma {:induction false} CountInIsTheNumberOfPositions(cells: seq<Cell>, target: set<Cell>)
    ensures CountIn(cells, target) == |PositionsIn(cells, target)|
  {
    if cells == [] {
      assert PositionsIn(cells, target) == {};
    } else {
      var n := |cells| - 1;
      CountInIsTheNumberOfPositions(cells[..n], target);
      assert PositionsIn(cells, target) == PositionsIn(cells[..n], target) + if cells[n] in target then {n} else {};
    }
  }

  function PositionsIn(cells: seq<Cell>, target: set<Cell>): set<nat> {
    set i | 0 <= i < |cells| && cells[i] in target
  }

  function Cells(cells: seq<Cell>): set<Cell> {
    set c | c in cells
  }

  /** A built batch is written over whatever stands there, and is announced either way. */
  function Next(team: int, own: set<Cell>, s: State, e: Event): State {
    var cs := Cells(e.cells);
    match e
    case Removed(t, _) =>
      State(s.solid - cs, s.remover + (map c | c in cs :: t), s.rebuilt - cs,
            if t == team then s.selfDamaged + cs * own else s.selfDamaged)
    case Lost(_) => State(s.solid - cs, s.remover - cs, s.rebuilt - cs, s.selfDamaged)
    case BuiltUnheard(_) => s.(solid := s.solid + cs)
    case Built(t, _) =>
      if t != team then s.(solid := s.solid + cs)
      else s.(solid := s.solid + cs, rebuilt := s.rebuilt + cs,
              selfDamaged := BuildBatch(own, s.selfDamaged, e.cells).selfDamaged)
  }

  function Run(team: int, own: set<Cell>, s: State, events: seq<Event>): State {
    if events == [] then s else Next(team, own, Run(team, own, s, events[..|events| - 1]), events[|events| - 1])
  }

  /** The latest removal of `c`, refilled since or not, was the team's own. */
  predicate SelfDug(team: int, s: State, c: Cell) {
    c in s.remover && s.remover[c] == team
  }

  function Fresh(solid: set<Cell>): State {
    State(solid, map[], {}, {})
  }

  /** A self-dug objective cell is in the book, solid again or not, until its own team is heard to build it. */
  ghost predicate BookIsTrue(team: int, own: set<Cell>, s: State) {
    s.rebuilt <= s.solid &&
    forall c :: c in own && SelfDug(team, s, c) ==> (c in s.selfDamaged <==> c !in s.rebuilt)
  }

  lemma NextKeepsBook(team: int, own: set<Cell>, s: State, e: Event)
    requires BookIsTrue(team, own, s)
    ensures BookIsTrue(team, own, Next(team, own, s, e))
  {
    if e.Built? && e.team == team {
      BookAfterPrefix(own, s.selfDamaged, e.cells);
    }
  }

  lemma {:induction false} RunKeepsBook(team: int, own: set<Cell>, s: State, events: seq<Event>)
    requires BookIsTrue(team, own, s)
    ensures BookIsTrue(team, own, Run(team, own, s, events))
  {
    if events != [] {
      RunKeepsBook(team, own, s, events[..|events| - 1]);
      NextKeepsBook(team, own, Run(team, own, s, events[..|events| - 1]), events[|events| - 1]);
    }
  }

  /**
   * After any history: exactly when building a self-dug objective cell is paid all the same. Being solid is
   * not enough: a cell that somebody else refilled, or whose refill went unheard, is still in the book.
   */
  lemma SelfDugIsPaidExactlyWhen(
      team: int, own: set<Cell>, solid: set<Cell>, events: seq<Event>, batch: seq<Cell>, i: nat)
    requires i < |batch| && batch[i] in own
    requires SelfDug(team, Run(team, own, Fresh(solid), events), batch[i])
    ensures var s := Run(team, own, Fresh(solid), events);
            s.rebuilt <= s.solid &&
            (CreditedAt(own, s.selfDamaged, batch, i) <==> batch[i] in s.rebuilt || batch[i] in batch[..i])
  {
    RunKeepsBook(team, own, Fresh(solid), events);
    CreditedExactlyWhen(own, Run(team, own, Fresh(solid), events).selfDamaged, batch, i);
  }

  /** Position `i` of the team's next batch repays a hole the team dug itself. */
  ghost predicate PaysSelfDug(team: int, own: set<Cell>, s: State, batch: seq<Cell>, i: nat)
    requires i < |batch|
  {
    CreditedAt(own, s.selfDamaged, batch, i) && SelfDug(team, s, batch[i])
  }

  /** What a caller can look up before committing: position `i` names a hole, for the first time. */
  predicate FillsAHole(own: set<Cell>, solid: set<Cell>, batch: seq<Cell>, i: nat)
    requires i < |batch|
  {
    batch[i] in own ==> batch[i] !in solid && batch[i] !in batch[..i]
  }

  /** A credited repair that fills a hole fills one whose latest removal was not the repairer's own team's. */
  lemma RepairIsNotSelfDug(team: int, own: set<Cell>, solid: set<Cell>, events: seq<Event>, batch: seq<Cell>, i: nat)
    requires i < |batch|
    requires FillsAHole(own, Run(team, own, Fresh(solid), events).solid, batch, i)
    ensures !PaysSelfDug(team, own, Run(team, own, Fresh(solid), events), batch, i)
  {
    var s := Run(team, own, Fresh(solid), events);
    if PaysSelfDug(team, own, s, batch, i) {
      CreditedExactlyWhen(own, s.selfDamaged, batch, i);
      SelfDugIsPaidExactlyWhen(team, own, solid, events, batch, i);
      assert false;
    }
  }

  /** A refill that went unheard leaves the cell solid and in the book: building it again is not paid. */
  lemma UnheardRefillIsUnpaid(team: int, own: set<Cell>, solid: set<Cell>, c: Cell)
    requires c in own
    ensures var s := Run(team, own, Fresh(solid), [Removed(team, [c]), BuiltUnheard([c])]);
            c in s.solid && c in s.selfDamaged && !PaysSelfDug(team, own, s, [c], 0)
  {
    var dug, refilled := Removed(team, [c]), BuiltUnheard([c]);
    assert [dug][..0] == [] && [dug, refilled][..1] == [dug];
    assert Run(team, own, Fresh(solid), []) == Fresh(solid);
    var hole := Next(team, own, Fresh(solid), dug);
    assert Run(team, own, Fresh(solid), [dug]) == hole;
    assert c in Cells([c]);
    var s := Run(team, own, Fresh(solid), [dug, refilled]);
    assert s == Next(team, own, hole, refilled);
    CreditedExactlyWhen(own, s.selfDamaged, [c], 0);
  }

  /** A history that makes the team's own hole pay, at a position that does not fill a hole. */
  function PayingHistory(team: int, solid: set<Cell>, c: Cell): seq<Event> {
    if c in solid then [Removed(team, [c]), Built(team, [c])] else [Removed(team, [c])]
  }

  /** Two overlapping lines over a self-dug cell: the first empties the book, the second is paid. */
  lemma OverlappingLineIsPaid(team: int, own: set<Cell>, solid: set<Cell>, batch: seq<Cell>, i: nat)
    requires i < |batch| && !FillsAHole(own, solid, batch, i)
    ensures var s := Run(team, own, Fresh(solid), PayingHistory(team, solid, batch[i]));
            s.solid == solid && PaysSelfDug(team, own, s, batch, i)
  {
    var c := batch[i];
    var dug := Removed(team, [c]);
    var hole := Next(team, own, Fresh(solid), dug);
    assert Cells([c]) == {c};
    assert [dug][..0] == [] && Run(team, own, Fresh(solid), []) == Fresh(solid);
    assert Run(team, own, Fresh(solid), [dug]) == hole;
    assert [dug, Built(team, [c])][..1] == [dug];
    assert c in own && c in hole.selfDamaged;
    BookAfterPrefix(own, hole.selfDamaged, [c]);
    var s := Run(team, own, Fresh(solid), PayingHistory(team, solid, c));
    SelfDugIsPaidExactlyWhen(team, own, solid, PayingHistory(team, solid, c), batch, i);
  }

  /** A batch that names a self-dug cell twice is paid for the second, whether or not anybody sends one. */
  lemma DuplicateRefillIsPaid(own: set<Cell>, c: Cell)
    requires c in own
    ensures CreditedAt(own, {c}, [c, c], 1) && !CreditedAt(own, {c}, [c, c], 0)
  {
    CreditedExactlyWhen(own, {c}, [c, c], 0);
    CreditedExactlyWhen(own, {c}, [c, c], 1);
  }

  /** No history that leaves this terrain makes position `i` repay the team's own hole. */
  ghost predicate NeverPaysSelfDug(team: int, own: set<Cell>, solid: set<Cell>, batch: seq<Cell>, i: nat)
    requires i < |batch|
  {
    forall before: set<Cell>, events: seq<Event> :: Run(team, own, Fresh(before), events).solid == solid ==>
      !PaysSelfDug(team, own, Run(team, own, Fresh(before), events), batch, i)
  }

  /** The rule "no pay for one's own holes" holds at a position if and only if it fills a hole, once. */
  lemma OwnHolesUnpaidExactlyWhen(team: int, own: set<Cell>, solid: set<Cell>, batch: seq<Cell>, i: nat)
    requires i < |batch|
    ensures NeverPaysSelfDug(team, own, solid, batch, i) <==> FillsAHole(own, solid, batch, i)
  {
    if FillsAHole(own, solid, batch, i) {
      forall before: set<Cell>, events: seq<Event> | Run(team, own, Fresh(before), events).solid == solid
        ensures !PaysSelfDug(team, own, Run(team, own, Fresh(before), events), batch, i)
      {
        RepairIsNotSelfDug(team, own, before, events, batch, i);
      }
    } else {
      OverlappingLineIsPaid(team, own, solid, batch, i);
    }
  }

  // ----- Whole blocks, however batched -----

  datatype Tally = Tally(progress: nat, points: nat)

  /** One queued batch: whole intervals pay, the remainder is carried over. */
  function Credit(t: Tally, count: nat, interval: nat, award: nat): Tally
    requires interval > 0
  {
    Tally((t.progress + count) % interval, t.points + (t.progress + count) / interval * award)
  }

  function CreditAll(counts: seq<nat>, interval: nat, award: nat): Tally
    requires interval > 0
  {
    if counts == [] then Tally(0, 0)
    else Credit(CreditAll(counts[..|counts| - 1], interval, award), counts[|counts| - 1], interval, award)
  }

  function Sum(counts: seq<nat>): nat {
    if counts == [] then 0 else Sum(counts[..|counts| - 1]) + counts[|counts| - 1]
  }

  /** Total points are the whole intervals of the total block count, whatever the batches. */
  lemma {:induction false} PointsIgnoreBatching(counts: seq<nat>, interval: nat, award: nat)
    requires interval > 0
    ensures CreditAll(counts, interval, award) == Tally(Sum(counts) % interval, Sum(counts) / interval * award)
  {
    if counts != [] {
      var shorter, last := counts[..|counts| - 1], counts[|counts| - 1];
      PointsIgnoreBatching(shorter, interval, award);
      AddThenWrap(Sum(shorter), last, interval);
      var a, b := Sum(shorter) / interval, (Sum(shorter) % interval + last) / interval;
      assert a * award + b * award == (a + b) * award;
    }
  }
}

/** The mode object: freezing, listening, crediting and the fall of a base. */
module Demolition {
  import opened Wrappers
  import opened Teams
  import opened Voxels
  import opened ObjectiveIndex
  import opened BlockCredit

  const DEM_SCORE_DESTROY_INTERVAL := 50
  const DEM_SCORE_DESTROY_SCORE := 25
  const DEM_SCORE_REPAIR_INTERVAL := 50
  const DEM_SCORE_REPAIR_SCORE := 50
  const DEM_TIME_TO_WAIT_FOR_AIRSTRIKE := 5.0

  datatype Phase = Waiting | Building | Active | Airstrike

  /** Inclusive bounds of a base zone. */
  datatype Zone = Zone(x0: int, x1: int, y0: int, y1: int, z0: int, z1: int)

  predicate InZone(b: Zone, c: Cell) {
    b.x0 <= c.x <= b.x1 && b.y0 <= c.y <= b.y1 && b.z0 <= c.z <= b.z1
  }

  /** The highest solid voxel of its column inside the zone. */
  ghost predicate IsCoreCell(w: World, b: Zone, c: Cell) {
    InZone(b, c) && GetSolid(w, c.x, c.y, c.z) && forall z :: b.z0 <= z < c.z ==> !GetSolid(w, c.x, c.y, z)
  }

  /** The objective of one base: everything solid when the zone is authored, else its surface core. */
  ghost predicate IsSnapshot(w: World, b: Zone, authored: bool, cells: set<Cell>) {
    forall c :: c in cells <==> if authored then InZone(b, c) && GetSolid(w, c.x, c.y, c.z) else IsCoreCell(w, b, c)
  }

  /** Authored bases: every solid voxel of the zone. */
  function AuthoredCells(w: World, b: Zone): (cells: set<Cell>)
    ensures forall c :: c in cells <==> InZone(b, c) && GetSolid(w, c.x, c.y, c.z)
  {
    set x, y, z | b.x0 <= x <= b.x1 && b.y0 <= y <= b.y1 && b.z0 <= z <= b.z1 && GetSolid(w, x, y, z) :: Cell(x, y, z)
  }

  /** Unauthored bases: the surface core of the (already clipped) columns. */
  method CoreCells(w: World, b: Zone) returns (cells: set<Cell>)
    ensures forall c :: c in cells <==> IsCoreCell(w, b, c)
  {
    cells := {};
    var x := b.x0;
    while x <= b.x1
      invariant b.x0 <= x <= b.x1 + 1 || x == b.x0
      invariant forall c :: c in cells <==> IsCoreCell(w, b, c) && c.x < x
      decreases b.x1 + 1 - x
    {
      var y := b.y0;
      while y <= b.y1
        invariant b.y0 <= y <= b.y1 + 1 || y == b.y0
        invariant forall c :: c in cells <==> IsCoreCell(w, b, c) && (c.x < x || (c.x == x && c.y < y))
        decreases b.y1 + 1 - y
      {
        var top := FirstSolidInZone(w, b, x, y);
        if top.Some? {
          cells := cells + {Cell(x, y, top.value)};
        }
        y := y + 1;
      }
      x := x + 1;
    }
  }

  method FirstSolidInZone(w: World, b: Zone, x: int, y: int) returns (top: Option<int>)
    ensures top.Some? ==> b.z0 <= top.value <= b.z1 && GetSolid(w, x, y, top.value)
    ensures forall z :: b.z0 <= z <= b.z1 && (top.Some? ==> z < top.value) ==> !GetSolid(w, x, y, z)
  {
    var z := b.z0;
    while z <= b.z1
      invariant forall z' :: b.z0 <= z' < z ==> !GetSolid(w, x, y, z')
      invariant b.z0 <= z
      decreases b.z1 + 1 - z
    {
      if GetSolid(w, x, y, z) {
        return Some(z);
      }
      z := z + 1;
    }
    return None;
  }

  class Player {
    const id: nat
    var team: Team
    var score: nat

    constructor (id: nat, team: Team)
      ensures this.id == id && this.team == team && score == 0
    {
      this.id, this.team, score := id, team, 0;
    }
  }

  class DemolitionMode {
    var phase: Phase
    var ended: bool
    var objectiveCells: map<Team, set<Cell>>
    var destroyedCells: map<Team, set<Cell>>
    var selfDamaged: map<Team, set<Cell>>
    var destroyProgress: map<nat, nat>
    var repairProgress: map<nat, nat>
    var players: map<nat, Player>
    var progressDirty: bool
    var destroyedTeams: seq<Team>
    var airstrikeAt: real

    ghost predicate Valid()
      reads this
    {
      objectiveCells.Keys == destroyedCells.Keys == selfDamaged.Keys == {Blue, Green}
    }

    ghost function View(): Index
      requires Valid()
      reads this
    {
      Index(objectiveCells[Blue], objectiveCells[Green], destroyedCells[Blue], destroyedCells[Green])
    }

    constructor ()
      ensures Valid() && phase == Waiting && !ended && View() == Index({}, {}, {}, {})
      ensures selfDamaged == map[Blue := {}, Green := {}] && destroyProgress == repairProgress == map[]
      ensures players == map[] && progressDirty && destroyedTeams == []
    {
      phase, ended := Waiting, false;
      objectiveCells, destroyedCells := map[Blue := {}, Green := {}], map[Blue := {}, Green := {}];
      selfDamaged := map[Blue := {}, Green := {}];
      destroyProgress, repairProgress, players := map[], map[], map[];
      progressDirty, destroyedTeams, airstrikeAt := true, [], 0.0;
    }

    /** The snapshot holds solid cells only and starts with nothing destroyed. */
    method FreezeObjectiveCells(w: World, zones: map<Team, Zone>, authored: map<Team, bool>)
      requires Valid() && zones.Keys == authored.Keys == {Blue, Green}
      modifies this`objectiveCells, this`destroyedCells, this`progressDirty
      ensures Valid() && Frozen(View(), w.solid)
      ensures IsSnapshot(w, zones[Blue], authored[Blue], objectiveCells[Blue])
      ensures IsSnapshot(w, zones[Green], authored[Green], objectiveCells[Green])
      ensures progressDirty
    {
      var blue, green;
      if authored[Blue] { blue := AuthoredCells(w, zones[Blue]); } else { blue := CoreCells(w, zones[Blue]); }
      if authored[Green] { green := AuthoredCells(w, zones[Green]); } else { green := CoreCells(w, zones[Green]); }
      objectiveCells := map[Blue := blue, Green := green];
      destroyedCells := map[Blue := {}, Green := {}];
      progressDirty := true;
    }

    method OnWorldMutation(e: Edit)
      requires Valid()
      modifies this`destroyedCells, this`progressDirty
      ensures Valid()
      ensures View() == if phase == Active || phase == Airstrike then Listen(old(View()), e) else old(View())
      ensures progressDirty <==> old(progressDirty) || View() != old(View())
    {
      if phase != Active && phase != Airstrike {
        return;
      }
      var changed := false;
      var teams := [Blue, Green];
      var i := 0;
      while i < |teams|
        invariant 0 <= i <= |teams| && !changed
        invariant destroyedCells == old(destroyedCells) && progressDirty == old(progressDirty)
        invariant i >= 1 ==> e.cell !in objectiveCells[Blue]
        invariant i >= 2 ==> e.cell !in objectiveCells[Green]
      {
        var team := teams[i];
        assert team == Blue || (team == Green && teams[0] == Blue);
        if e.cell !in objectiveCells[team] {
          i := i + 1;
          continue;
        }
        var gone := destroyedCells[team];
        if e.solid {
          changed := e.cell in gone;
          destroyedCells := destroyedCells[team := gone - {e.cell}];
        } else {
          changed := e.cell !in gone;
          destroyedCells := destroyedCells[team := gone + {e.cell}];
        }
        break;
      }
      progressDirty := progressDirty || changed;
    }

    /** The active tick: both bases can fall at once, and then neither side is picked. */
    method TickActive(now: real)
      requires Valid() && phase == Active && !ended
      modifies this`phase, this`destroyedTeams, this`airstrikeAt
      ensures Valid()
      ensures forall t :: Playable(t) && CountsAsDestroyed(objectiveCells[t], destroyedCells[t]) ==> t in destroyedTeams
      ensures phase == Airstrike <==> exists t :: Playable(t) && CountsAsDestroyed(objectiveCells[t], destroyedCells[t])
      ensures phase == Airstrike ==>
        airstrikeAt == now + DEM_TIME_TO_WAIT_FOR_AIRSTRIKE &&
        forall t :: t in destroyedTeams ==> Playable(t) && CountsAsDestroyed(objectiveCells[t], destroyedCells[t])
      ensures phase == Active || phase == Airstrike
    {
      var fallen: seq<Team> := [];
      if CountsAsDestroyed(objectiveCells[Blue], destroyedCells[Blue]) { fallen := fallen + [Blue]; }
      if CountsAsDestroyed(objectiveCells[Green], destroyedCells[Green]) { fallen := fallen + [Green]; }
      if fallen != [] {
        destroyedTeams := fallen;
        phase := Airstrike;
        airstrikeAt := now + DEM_TIME_TO_WAIT_FOR_AIRSTRIKE;
        assert fallen[0] == Blue || fallen[0] == Green;
      }
    }

    ghost function TallyOf(progress: map<nat, nat>, player: Player): Tally
      reads player
    {
      Tally(if player.id in progress then progress[player.id] else 0, player.score)
    }

    predicate OwnsSlot(player: Player)
      reads this`players
    {
      player.id in players && players[player.id] == player
    }

    method CreditBlocks(player: Player, progress: map<nat, nat>, count: nat, interval: nat, points: nat)
      returns (progress': map<nat, nat>)
      requires interval > 0
      modifies player`score
      ensures TallyOf(progress', player) ==
              if OwnsSlot(player) then Credit(old(TallyOf(progress, player)), count, interval, points)
              else old(TallyOf(progress, player))
      ensures progress' - {player.id} == progress - {player.id}
    {
      progress' := progress;
      if !OwnsSlot(player) {
        return;
      }
      var total := (if player.id in progress then progress[player.id] else 0) + count;
      var awards := total / interval;
      progress' := progress[player.id := total % interval];
      if awards > 0 && points > 0 {
        player.score := player.score + awards * points;
      }
    }

    method OnBlocksDestroyed(player: Player, cells: seq<Cell>)
      requires Valid()
      modifies this`selfDamaged, this`destroyProgress, player`score
      ensures Valid()
      ensures if ended || phase != Active || !Playable(player.team) then selfDamaged == old(selfDamaged)
              else selfDamaged == old(selfDamaged)[player.team :=
                     old(selfDamaged)[player.team] + Cells(cells) * objectiveCells[player.team]]
      ensures var hits := CountIn(cells, objectiveCells[Other(player.team)]);
              TallyOf(destroyProgress, player) ==
                if !ended && phase == Active && Playable(player.team) && OwnsSlot(player) && hits > 0
                then Credit(old(TallyOf(destroyProgress, player)), hits,
                            DEM_SCORE_DESTROY_INTERVAL, DEM_SCORE_DESTROY_SCORE)
                else old(TallyOf(destroyProgress, player))
    {
      if ended || phase != Active || !Playable(player.team) {
        return;
      }
      var team, enemy := player.team, Other(player.team);
      var own := objectiveCells[team];
      selfDamaged := selfDamaged[team := selfDamaged[team] + (set c | c in cells && c in own)];
      assert (set c | c in cells && c in own) == Cells(cells) * own;
      var count := 0;
      var i := 0;
      while i < |cells|
        invariant 0 <= i <= |cells| && count == CountIn(cells[..i], objectiveCells[enemy])
      {
        assert cells[..i + 1][..i] == cells[..i];
        if cells[i] in objectiveCells[enemy] { count := count + 1; }
        i := i + 1;
      }
      assert cells[..i] == cells;
      if count == 0 {
        return;
      }
      destroyProgress :=
        CreditBlocks(player, destroyProgress, count, DEM_SCORE_DESTROY_INTERVAL, DEM_SCORE_DESTROY_SCORE);
    }

    method OnBlocksBuilt(player: Player, cells: seq<Cell>)
      requires Valid()
      modifies this`selfDamaged, this`repairProgress, player`score
      ensures Valid()
      ensures if ended || phase != Active || !Playable(player.team)
              then
                && selfDamaged == old(selfDamaged) && repairProgress == old(repairProgress)
                && player.score == old(player.score)
              else
                var book := BuildBatch(objectiveCells[player.team], old(selfDamaged)[player.team], cells);
                selfDamaged == old(selfDamaged)[player.team := book.selfDamaged] &&
                TallyOf(repairProgress, player) ==
                  if OwnsSlot(player) && book.credited > 0
                  then Credit(old(TallyOf(repairProgress, player)), book.credited,
                              DEM_SCORE_REPAIR_INTERVAL, DEM_SCORE_REPAIR_SCORE)
                  else old(TallyOf(repairProgress, player))
    {
      if ended || phase != Active || !Playable(player.team) {
        return;
      }
      var team := player.team;
      var own, damaged, count := objectiveCells[team], selfDamaged[team], 0;
      var i := 0;
      while i < |cells|
        invariant 0 <= i <= |cells|
        invariant Book(damaged, count) == BuildBatch(own, selfDamaged[team], cells[..i])
      {
        assert cells[..i + 1][..i] == cells[..i];
        if cells[i] in own {
          if cells[i] in damaged {
            damaged := damaged - {cells[i]};
          } else {
            count := count + 1;
          }
        }
        i := i + 1;
      }
      assert cells[..i] == cells;
      selfDamaged := selfDamaged[team := damaged];
      if count == 0 {
        return;
      }
      repairProgress := CreditBlocks(player, repairProgress, count, DEM_SCORE_REPAIR_INTERVAL, DEM_SCORE_REPAIR_SCORE);
    }

    /** Partial credit is forgotten: the compact id will be reused. */
    method OnPlayerLeave(id: nat)
      modifies this`destroyProgress, this`repairProgress
      ensures destroyProgress == old(destroyProgress) - {id} && repairProgress == old(repairProgress) - {id}
    {
      destroyProgress := destroyProgress - {id};
      repairProgress := repairProgress - {id};
    }
  }
}
