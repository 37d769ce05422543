/** Lifting a ground intel out of blocks built into its model. */
module IntelStack {
  import opened Wrappers
  import opened Teams
  import opened Voxels
  import opened ObjectiveGuard

  function Ceiling(r: real): int {
    -((-r).Floor)
  }

  /** The voxel the settled model stands in. */
  function OccupiedZ(p: Position): int {
    Ceiling(p.z + STANDING) - 1
  }

  predicate InModelRange(p: Position) {
    InMap(ColumnX(p), ColumnY(p)) && 0 <= OccupiedZ(p) < MAP_Z
  }

  predicate Obstructed(w: World, p: Position) {
    InModelRange(p) && GetSolid(w, ColumnX(p), ColumnY(p), OccupiedZ(p))
  }

  /** `top` ends the contiguous solid stack that reaches down to `bottom`. */
  ghost predicate TopOfStack(w: World, x: int, y: int, top: int, bottom: int) {
    0 <= top <= bottom &&
    (forall z :: top <= z <= bottom ==> GetSolid(w, x, y, z)) &&
    !GetSolid(w, x, y, top - 1)
  }

  function RestZ(q: Position): int {
    (q.z + STANDING).Floor
  }

  /** A raise moves the intel straight up to the top of the stack it is stuck in. */
  ghost predicate IsRaise(w: World, p: Position, q: Position) {
    q.x == p.x && q.y == p.y && q.z + STANDING == RestZ(q) as real &&
    TopOfStack(w, ColumnX(p), ColumnY(p), RestZ(q), OccupiedZ(p))
  }

  method UnburiedIntelAnchor(w: World, p: Position) returns (raised: Option<Position>)
    ensures raised.Some? <==> Obstructed(w, p)
    ensures raised.Some? ==> IsRaise(w, p, raised.value)
  {
    var occupied := OccupiedZ(p);
    if !InModelRange(p) || !GetSolid(w, ColumnX(p), ColumnY(p), occupied) {
      return None;
    }
    while occupied > 0 && GetSolid(w, ColumnX(p), ColumnY(p), occupied - 1)
      invariant 0 <= occupied <= OccupiedZ(p)
      invariant forall z :: occupied <= z <= OccupiedZ(p) ==> GetSolid(w, ColumnX(p), ColumnY(p), z)
    {
      occupied := occupied - 1;
    }
    return Some(Position(p.x, p.y, occupied as real - STANDING));
  }

  /** Once raised, the intel is in nothing solid: raising again would do nothing. */
  lemma RaiseIsIdempotent(w: World, p: Position, q: Position)
    requires IsRaise(w, p, q)
    ensures !Obstructed(w, q)
  {
    assert OccupiedZ(q) == RestZ(q) - 1;
  }

  /** After a raise the guard finds the intel neither buried nor floating. */
  lemma RaiseSatisfiesGuard(w: World, p: Position, q: Position)
    requires IsRaise(w, p, q)
    ensures TrapReason(w, q, true) == None || TrapReason(w, q, true) == Some(Sealed)
  {
    assert Support(q, true) == RestZ(q);
    assert GetSolid(w, ColumnX(p), ColumnY(p), RestZ(q));
  }

  /** The parts of the flag mode that the raise touches. */
  class FieldIntel {
    var intelHolder: map<Team, nat>
    var intelPositions: map<Team, Position>
    var intelHomePositions: map<Team, Position>
    var intelDropTime: map<Team, real>
    const intelTrap: TrapTimer

    ghost predicate Valid()
      reads this
    {
      forall t :: Playable(t) ==> t in intelPositions && t in intelHomePositions && t in intelDropTime
    }

    constructor (home: map<Team, Position>)
      requires Blue in home && Green in home
      ensures Valid() && intelPositions == intelHomePositions == home && intelHolder == map[]
      ensures fresh(intelTrap)
    {
      intelHolder := map[];
      intelPositions := home;
      intelHomePositions := home;
      intelDropTime := map[Blue := 0.0, Green := 0.0];
      intelTrap := new TrapTimer();
    }

    function TrapKey(team: Team): int {
      if team == Blue then 0 else 1
    }

    /** A dropped intel keeps its home; one lying at home takes its home along. */
    method MoveGroundIntel(team: Team, settled: Position)
      requires Valid() && Playable(team)
      modifies this`intelPositions, this`intelHomePositions, intelTrap
      ensures Valid()
      ensures intelPositions == old(intelPositions)[team := settled]
      ensures intelHomePositions ==
              if intelDropTime[team] > 0.0 then old(intelHomePositions) else old(intelHomePositions)[team := settled]
      ensures SinceOf(intelTrap.since, TrapKey(team)) == None
    {
      intelPositions := intelPositions[team := settled];
      if intelDropTime[team] <= 0.0 {
        intelHomePositions := intelHomePositions[team := settled];
      }
      var moved := intelTrap.Due(TrapKey(team), false, 0.0, 0.0);
    }

    /** Reports a move exactly when a ground intel was obstructed, and leaves it unobstructed. */
    method RaiseBuriedIntel(w: World, team: Team) returns (moved: bool)
      requires Valid() && Playable(team)
      modifies this`intelPositions, this`intelHomePositions, intelTrap
      ensures Valid()
      ensures moved <==> team !in intelHolder && Obstructed(w, old(intelPositions)[team])
      ensures team !in intelHolder ==> !Obstructed(w, intelPositions[team])
      ensures moved ==> IsRaise(w, old(intelPositions)[team], intelPositions[team])
      ensures !moved ==> intelPositions == old(intelPositions) && intelHomePositions == old(intelHomePositions)
      ensures intelPositions - {team} == old(intelPositions) - {team}
    {
      if team in intelHolder {
        return false;
      }
      var raised := UnburiedIntelAnchor(w, intelPositions[team]);
      if raised.None? {
        return false;
      }
      RaiseIsIdempotent(w, intelPositions[team], raised.value);
      MoveGroundIntel(team, raised.value);
      return true;
    }
  }
}
