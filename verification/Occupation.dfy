/** Where every bomb of an Occupation match is, and when the lit ones go off. */
module BombLedger {
  import opened Wrappers
  import opened Sizes
  import opened Teams

  const OC_TEAM_SCORE_FOR_KILLING_CARRIER := 1
  const OC_TEAM_SCORE_FOR_BOMB_EXPLOSION_IN_BASE := 3
  const OC_BOMB_RESPAWN_TIME_ON_EXPLOSION := 10.0
  const NO_PICKUP_AFTER_DROP_TIME := 2.5

  /** One bomb: on the ground under an entity id, or in one player's hands; its fuse once it is lit. */
  datatype BombState = BombState(
    entity: Option<nat>, carrier: Option<nat>, armed: bool, explodeAt: real, pickupAfter: real,
    lastTeam: Team, intercepted: bool)

  /** `owed` counts the respawns that a tick has taken off the list and not placed yet. */
  datatype State = State(
    bombs: map<nat, BombState>, entities: map<nat, nat>, carriers: map<nat, nat>,
    pending: seq<real>, owed: nat, serial: nat, ended: bool)

  datatype Event =
    | Due(now: real)
    | Spawn(entity: nat, now: real)
    | PickUp(player: nat, team: Team, bomb: nat)
    | Drop(player: nat, entity: nat, now: real, fuse: real)
    | DropAfterTheEnd(player: nat)
    | Detonate(bomb: nat, now: real)
    | Resurface(bomb: nat, entity: nat)
    | End

  /** The respawns still to come. */
  function Later(pending: seq<real>, now: real): (r: seq<real>)
    ensures |r| <= |pending| && forall i :: 0 <= i < |r| ==> r[i] > now
  {
    if pending == [] then []
    else (if pending[0] > now then [pending[0]] else []) + Later(pending[1..], now)
  }

  /** Exactly the respawns later than `now` stay on the list, as often as they are on it. */
  lemma {:induction false} LaterKeepsTheRest(pending: seq<real>, now: real, x: real)
    ensures multiset(Later(pending, now))[x] == if x > now then multiset(pending)[x] else 0
  {
    if pending != [] {
      LaterKeepsTheRest(pending[1..], now, x);
      assert pending == [pending[0]] + pending[1..];
    }
  }

  ghost predicate Enabled(s: State, e: Event) {
    match e
    case Due(_) => !s.ended && s.owed == 0
    case Spawn(entity, _) => !s.ended && s.owed > 0 && entity !in s.entities
    case PickUp(player, _, bomb) =>
      !s.ended && player !in s.carriers && bomb in s.bombs && s.bombs[bomb].entity.Some? && s.bombs[bomb].carrier.None?
    case Drop(player, entity, _, _) =>
      !s.ended && player in s.carriers && s.carriers[player] in s.bombs && entity !in s.entities
    case DropAfterTheEnd(player) => s.ended && player in s.carriers && s.carriers[player] in s.bombs
    case Detonate(bomb, _) => !s.ended && bomb in s.bombs
    case Resurface(bomb, entity) =>
      !s.ended && entity !in s.entities && bomb in s.bombs && s.bombs[bomb].entity.Some? &&
      s.bombs[bomb].carrier.None? && !s.bombs[bomb].armed
    case End => true
  }

  function Spawned(s: State, entity: nat, now: real): State
    requires s.owed > 0
  {
    s.(bombs := s.bombs[s.serial := BombState(Some(entity), None, false, 0.0, now, Neutral, false)],
       entities := s.entities[entity := s.serial], serial := s.serial + 1, owed := s.owed - 1)
  }

  function PickedUp(s: State, player: nat, team: Team, bomb: nat): State
    requires bomb in s.bombs && s.bombs[bomb].entity.Some?
  {
    var b := s.bombs[bomb];
    s.(bombs := s.bombs[bomb := b.(entity := None, carrier := Some(player), lastTeam := team,
                                   intercepted := b.intercepted || (b.armed && team == Green))],
       entities := s.entities - {b.entity.value}, carriers := s.carriers[player := bomb])
  }

  /** The first drop lights the fuse; later ones leave it alone. */
  function Lit(b: BombState, now: real, fuse: real): BombState {
    if b.armed then b else b.(armed := true, explodeAt := now + fuse)
  }

  function Dropped(s: State, player: nat, entity: nat, now: real, fuse: real): State
    requires player in s.carriers && s.carriers[player] in s.bombs
  {
    var n := s.carriers[player];
    s.(bombs := s.bombs[n := Lit(s.bombs[n], now, fuse).(entity := Some(entity), carrier := None,
                                                         pickupAfter := now + NO_PICKUP_AFTER_DROP_TIME)],
       entities := s.entities[entity := n], carriers := s.carriers - {player})
  }

  function LetGo(s: State, player: nat): State
    requires player in s.carriers && s.carriers[player] in s.bombs
  {
    var n := s.carriers[player];
    s.(bombs := s.bombs[n := s.bombs[n].(carrier := None)], carriers := s.carriers - {player})
  }

  function KeyOf(o: Option<nat>): set<nat> {
    if o.Some? then {o.value} else {}
  }

  function Detonated(s: State, bomb: nat, now: real): State
    requires bomb in s.bombs
  {
    var b := s.bombs[bomb];
    s.(bombs := s.bombs - {bomb}, entities := s.entities - KeyOf(b.entity), carriers := s.carriers - KeyOf(b.carrier),
       pending := s.pending + [now + OC_BOMB_RESPAWN_TIME_ON_EXPLOSION])
  }

  function Resurfaced(s: State, bomb: nat, entity: nat): State
    requires bomb in s.bombs && s.bombs[bomb].entity.Some?
  {
    var b := s.bombs[bomb];
    s.(bombs := s.bombs[bomb := b.(entity := Some(entity))],
       entities := (s.entities - {b.entity.value})[entity := bomb])
  }

  function TakenDue(s: State, now: real): State {
    s.(pending := Later(s.pending, now), owed := s.owed + |s.pending| - |Later(s.pending, now)|)
  }

  function Next(s: State, e: Event): State
    requires Enabled(s, e)
  {
    match e
    case Due(now) => TakenDue(s, now)
    case Spawn(entity, now) => Spawned(s, entity, now)
    case PickUp(player, team, bomb) => PickedUp(s, player, team, bomb)
    case Drop(player, entity, now, fuse) => Dropped(s, player, entity, now, fuse)
    case DropAfterTheEnd(player) => LetGo(s, player)
    case Detonate(bomb, now) => Detonated(s, bomb, now)
    case Resurface(bomb, entity) => Resurfaced(s, bomb, entity)
    case End => s.(ended := true)
  }

  /** The dictionaries agree with the bombs, entry for entry. */
  ghost predicate Linked(bombs: map<nat, BombState>, entities: map<nat, nat>, carriers: map<nat, nat>) {
    && (forall n :: n in bombs && bombs[n].entity.Some? ==>
          bombs[n].entity.value in entities && entities[bombs[n].entity.value] == n)
    && (forall n :: n in bombs && bombs[n].carrier.Some? ==>
          bombs[n].carrier.value in carriers && carriers[bombs[n].carrier.value] == n)
    && (forall e :: e in entities ==> entities[e] in bombs && bombs[entities[e]].entity == Some(e))
    && (forall p :: p in carriers ==> carriers[p] in bombs && bombs[carriers[p]].carrier == Some(p))
  }

  /** Never in two places, and while the match runs always in one. */
  ghost predicate InOnePlace(bombs: map<nat, BombState>, ended: bool) {
    forall n :: n in bombs ==>
      !(bombs[n].entity.Some? && bombs[n].carrier.Some?) && (!ended ==> bombs[n].entity.Some? || bombs[n].carrier.Some?)
  }

  ghost predicate Numbered(bombs: map<nat, BombState>, serial: nat) {
    forall n :: n in bombs ==> n < serial
  }

  ghost predicate Inv(s: State, max: nat) {
    && Linked(s.bombs, s.entities, s.carriers)
    && InOnePlace(s.bombs, s.ended)
    && Numbered(s.bombs, s.serial)
    && |s.bombs| + |s.pending| + s.owed == max
  }

  lemma SpawnKeepsInv(s: State, entity: nat, now: real, max: nat)
    requires Inv(s, max) && Enabled(s, Spawn(entity, now))
    ensures Inv(Spawned(s, entity, now), max)
  {
    NewEntity(s.bombs, s.entities, s.carriers, s.serial, Spawned(s, entity, now).bombs[s.serial]);
  }

  lemma NewEntity(bombs: map<nat, BombState>, entities: map<nat, nat>, carriers: map<nat, nat>, n: nat, b: BombState)
    requires Linked(bombs, entities, carriers) && n !in bombs && b.carrier.None? && b.entity.Some?
    requires b.entity.value !in entities
    ensures Linked(bombs[n := b], entities[b.entity.value := n], carriers)
  {}

  lemma PickUpKeepsInv(s: State, player: nat, team: Team, bomb: nat, max: nat)
    requires Inv(s, max) && Enabled(s, PickUp(player, team, bomb))
    ensures Inv(PickedUp(s, player, team, bomb), max)
  {}

  lemma DropKeepsInv(s: State, player: nat, entity: nat, now: real, fuse: real, max: nat)
    requires Inv(s, max) && Enabled(s, Drop(player, entity, now, fuse))
    ensures Inv(Dropped(s, player, entity, now, fuse), max)
  {}

  lemma LetGoKeepsInv(s: State, player: nat, max: nat)
    requires Inv(s, max) && Enabled(s, DropAfterTheEnd(player))
    ensures Inv(LetGo(s, player), max)
  {}

  lemma DetonateKeepsInv(s: State, bomb: nat, now: real, max: nat)
    requires Inv(s, max) && Enabled(s, Detonate(bomb, now))
    ensures Inv(Detonated(s, bomb, now), max)
  {
    OneFewer(s.bombs, bomb);
  }

  lemma ResurfaceKeepsInv(s: State, bomb: nat, entity: nat, max: nat)
    requires Inv(s, max) && Enabled(s, Resurface(bomb, entity))
    ensures Inv(Resurfaced(s, bomb, entity), max)
  {
    MovedEntity(s.bombs, s.entities, s.carriers, bomb, entity);
  }

  lemma MovedEntity(bombs: map<nat, BombState>, entities: map<nat, nat>, carriers: map<nat, nat>, n: nat, entity: nat)
    requires Linked(bombs, entities, carriers) && n in bombs && bombs[n].entity.Some? && bombs[n].carrier.None?
    requires entity !in entities
    ensures Linked(bombs[n := bombs[n].(entity := Some(entity))],
                   (entities - {bombs[n].entity.value})[entity := n], carriers)
  {}

  lemma NextKeepsInv(s: State, e: Event, max: nat)
    requires Inv(s, max) && Enabled(s, e)
    ensures Inv(Next(s, e), max)
  {
    match e
    case Due(_) =>
    case Spawn(entity, now) => SpawnKeepsInv(s, entity, now, max);
    case PickUp(player, team, bomb) => PickUpKeepsInv(s, player, team, bomb, max);
    case Drop(player, entity, now, fuse) => DropKeepsInv(s, player, entity, now, fuse, max);
    case DropAfterTheEnd(player) => LetGoKeepsInv(s, player, max);
    case Detonate(bomb, now) => DetonateKeepsInv(s, bomb, now, max);
    case Resurface(bomb, entity) => ResurfaceKeepsInv(s, bomb, entity, max);
    case End =>
  }

  ghost predicate EnabledRun(s: State, events: seq<Event>)
    decreases |events|
  {
    events == [] || (Enabled(s, events[0]) && EnabledRun(Next(s, events[0]), events[1..]))
  }

  ghost function Run(s: State, events: seq<Event>): State
    requires EnabledRun(s, events)
    decreases |events|
  {
    if events == [] then s else Run(Next(s, events[0]), events[1..])
  }

  function Start(serial: nat, max: nat): State {
    State(map[], map[], map[], [], max, serial, false)
  }

  /** In any match, bombs and coming respawns add up to the maximum, and every bomb is in exactly one place. */
  lemma {:induction false} EveryMatchKeepsItsBombs(s: State, events: seq<Event>, max: nat)
    requires Inv(s, max) && EnabledRun(s, events)
    ensures Inv(Run(s, events), max)
    decreases |events|
  {
    if events != [] {
      NextKeepsInv(s, events[0], max);
      EveryMatchKeepsItsBombs(Next(s, events[0]), events[1..], max);
    }
  }

  /** The fuse of a lit bomb: never touched again, and never passed on to another bomb. */
  ghost predicate FuseKept(s: State, t: State, n: nat) {
    n in t.bombs ==>
      n in s.bombs && (s.bombs[n].armed ==> t.bombs[n].armed && t.bombs[n].explodeAt == s.bombs[n].explodeAt)
  }

  lemma NextKeepsFuse(s: State, e: Event, n: nat)
    requires Enabled(s, e) && n < s.serial
    ensures FuseKept(s, Next(s, e), n) && n < Next(s, e).serial
  {
    var t := Next(s, e);
    match e {
      case Due(_) => assert t.bombs == s.bombs;
      case Spawn(_, _) => assert t.bombs - {s.serial} == s.bombs - {s.serial};
      case PickUp(_, _, bomb) => assert t.bombs - {bomb} == s.bombs - {bomb};
      case Drop(player, _, _, _) => assert t.bombs - {s.carriers[player]} == s.bombs - {s.carriers[player]};
      case DropAfterTheEnd(player) => assert t.bombs - {s.carriers[player]} == s.bombs - {s.carriers[player]};
      case Detonate(bomb, _) => assert t.bombs == s.bombs - {bomb};
      case Resurface(bomb, _) => assert t.bombs - {bomb} == s.bombs - {bomb};
      case End => assert t.bombs == s.bombs;
    }
  }

  lemma {:induction false} FuseNeverChanges(s: State, events: seq<Event>, n: nat)
    requires EnabledRun(s, events) && n < s.serial
    ensures FuseKept(s, Run(s, events), n)
    decreases |events|
  {
    if events != [] {
      NextKeepsFuse(s, events[0], n);
      FuseNeverChanges(Next(s, events[0]), events[1..], n);
    }
  }

  lemma {:induction false} RunThenOne(s: State, events: seq<Event>, e: Event)
    requires EnabledRun(s, events) && Enabled(Run(s, events), e)
    ensures EnabledRun(s, events + [e]) && Run(s, events + [e]) == Next(Run(s, events), e)
    decreases |events|
  {
    if events == [] {
      assert events + [e] == [e];
      var t := Next(s, e);
      assert EnabledRun(t, [e][1..]) && Run(t, [e][1..]) == t;
    } else {
      assert (events + [e])[1..] == events[1..] + [e];
      RunThenOne(Next(s, events[0]), events[1..], e);
    }
  }

  ghost predicate Follows(s: State, t: State, events: seq<Event>) {
    EnabledRun(s, events) && Run(s, events) == t
  }

  lemma FollowsNothing(s: State)
    ensures Follows(s, s, [])
  {}

  lemma FollowsOneMore(s: State, t: State, events: seq<Event>, e: Event)
    requires Follows(s, t, events) && Enabled(t, e)
    ensures Follows(s, Next(t, e), events + [e])
  {
    RunThenOne(s, events, e);
  }

  lemma {:induction false} FollowsBoth(s: State, t: State, u: State, first: seq<Event>, second: seq<Event>)
    requires Follows(s, t, first) && Follows(t, u, second)
    ensures Follows(s, u, first + second)
    decreases |first|
  {
    if first == [] {
      assert first + second == second;
    } else {
      assert (first + second)[1..] == first[1..] + second;
      FollowsBoth(Next(s, first[0]), t, u, first[1..], second);
    }
  }

  lemma FollowsDue(s: State, t: State, events: seq<Event>, now: real)
    requires Follows(s, t, events) && Enabled(t, Due(now))
    ensures Follows(s, TakenDue(t, now), events + [Due(now)])
  {
    FollowsOneMore(s, t, events, Due(now));
  }

  lemma FollowsSpawn(s: State, t: State, events: seq<Event>, entity: nat, now: real)
    requires Follows(s, t, events) && Enabled(t, Spawn(entity, now))
    ensures Follows(s, Spawned(t, entity, now), events + [Spawn(entity, now)])
  {
    FollowsOneMore(s, t, events, Spawn(entity, now));
  }

  lemma FollowsPickUp(s: State, t: State, events: seq<Event>, player: nat, team: Team, bomb: nat)
    requires Follows(s, t, events) && Enabled(t, PickUp(player, team, bomb))
    ensures Follows(s, PickedUp(t, player, team, bomb), events + [PickUp(player, team, bomb)])
  {
    FollowsOneMore(s, t, events, PickUp(player, team, bomb));
  }

  lemma FollowsDrop(s: State, t: State, events: seq<Event>, player: nat, entity: nat, now: real, fuse: real)
    requires Follows(s, t, events) && Enabled(t, Drop(player, entity, now, fuse))
    ensures Follows(s, Dropped(t, player, entity, now, fuse), events + [Drop(player, entity, now, fuse)])
  {
    FollowsOneMore(s, t, events, Drop(player, entity, now, fuse));
  }

  lemma FollowsLetGo(s: State, t: State, events: seq<Event>, player: nat)
    requires Follows(s, t, events) && Enabled(t, DropAfterTheEnd(player))
    ensures Follows(s, LetGo(t, player), events + [DropAfterTheEnd(player)])
  {
    FollowsOneMore(s, t, events, DropAfterTheEnd(player));
  }

  lemma FollowsDetonate(s: State, t: State, events: seq<Event>, bomb: nat, now: real)
    requires Follows(s, t, events) && Enabled(t, Detonate(bomb, now))
    ensures Follows(s, Detonated(t, bomb, now), events + [Detonate(bomb, now)])
  {
    FollowsOneMore(s, t, events, Detonate(bomb, now));
  }

  lemma FollowsResurface(s: State, t: State, events: seq<Event>, bomb: nat, entity: nat)
    requires Follows(s, t, events) && Enabled(t, Resurface(bomb, entity))
    ensures Follows(s, Resurfaced(t, bomb, entity), events + [Resurface(bomb, entity)])
  {
    FollowsOneMore(s, t, events, Resurface(bomb, entity));
  }

  lemma FollowsEnd(s: State, t: State, events: seq<Event>)
    requires Follows(s, t, events)
    ensures Follows(s, t.(ended := true), events + [End])
  {
    FollowsOneMore(s, t, events, End);
  }
}

/** Occupation: the hooks, proved against the ledger. */
module Occupation {
  import opened Choices
  import opened Wrappers
  import opened Sizes
  import opened Teams
  import opened Roster
  import opened BombLedger

  class Bomb {
    const serial: nat
    var entity: Option<nat>
    var carrier: Option<nat>
    var armed: bool
    var explodeAt: real
    var pickupAfter: real
    var lastCarrier: Option<Player>
    var lastTeam: Team
    var intercepted: bool

    constructor (serial: nat, entity: nat, now: real)
      ensures this.serial == serial && Value() == BombState(Some(entity), None, false, 0.0, now, Neutral, false)
      ensures lastCarrier == None
    {
      this.serial, this.entity, carrier := serial, Some(entity), None;
      armed, explodeAt, pickupAfter := false, 0.0, now;
      lastCarrier, lastTeam, intercepted := None, Neutral, false;
    }

    function Value(): BombState
      reads this
    {
      BombState(entity, carrier, armed, explodeAt, pickupAfter, lastTeam, intercepted)
    }

    method TakenBy(player: Player)
      modifies this
      ensures Value() == old(Value()).(entity := None, carrier := Some(player.id), lastTeam := player.team,
                                       intercepted := old(intercepted) || (old(armed) && player.team == Green))
      ensures lastCarrier == Some(player)
    {
      entity := None;
      carrier := Some(player.id);
      lastCarrier := Some(player);
      lastTeam := player.team;
      if armed && player.team == Green {
        intercepted := true;
      }
    }

    /** The team recorded at pick-up stays, whatever team the carrier is on by now. */
    method PutDown(player: Player, placed: nat, now: real, fuse: real)
      modifies this
      ensures Value() == Lit(old(Value()), now, fuse).(entity := Some(placed), carrier := None,
                                                       pickupAfter := now + NO_PICKUP_AFTER_DROP_TIME)
      ensures lastCarrier == Some(player)
    {
      carrier := None;
      lastCarrier := Some(player);
      if !armed {
        armed := true;
        explodeAt := now + fuse;
      }
      entity := Some(placed);
      pickupAfter := now + NO_PICKUP_AFTER_DROP_TIME;
    }
  }

  /** What the tick finds of one player: what is in reach, where they stand, and whether the tool accepts. */
  datatype Visit = Visit(player: Player, active: bool, bot: bool, reachable: set<nat>, insideTarget: bool,
                         clearOfTarget: bool, pickUp: bool, drop: bool)

  /** The same, with the player's slot and side at that moment. */
  datatype Turn = Turn(id: nat, team: Team, active: bool, bot: bool, reachable: set<nat>, insideTarget: bool,
                       clearOfTarget: bool, pickUp: bool, drop: bool)

  /** An attacker inside the target with an unlit bomb, or a defender who has carried one clear of it; bots only. */
  predicate DropsNow(s: State, t: Turn) {
    t.bot && t.drop && t.id in s.carriers && s.carriers[t.id] in s.bombs &&
    ((t.team == Blue && !s.bombs[s.carriers[t.id]].armed && t.insideTarget) || (t.team == Green && t.clearOfTarget))
  }

  /** The ledger after these turns, one after the other; `entities` are the new entities, used where one drops. */
  function AfterTurns(s: State, turns: seq<Turn>, entities: seq<nat>, now: real, fuse: real): State
    requires |entities| == |turns|
  {
    if turns == [] then s
    else
      var n := |turns| - 1;
      var t := AfterTurns(s, turns[..n], entities[..n], now, fuse);
      if DropsNow(t, turns[n]) then Dropped(t, turns[n].id, entities[n], now, fuse) else t
  }

  /** The drops among these turns. */
  function TurnEvents(s: State, turns: seq<Turn>, entities: seq<nat>, now: real, fuse: real): seq<Event>
    requires |entities| == |turns|
  {
    if turns == [] then []
    else
      var n := |turns| - 1;
      TurnEvents(s, turns[..n], entities[..n], now, fuse) +
      if DropsNow(AfterTurns(s, turns[..n], entities[..n], now, fuse), turns[n])
      then [Drop(turns[n].id, entities[n], now, fuse)] else []
  }

  /** A bot drops: an attacker an unlit bomb inside the target, a defender any bomb clear of it. Nobody else does. */
  lemma WhoDrops(s: State, t: Turn, entity: nat, now: real, fuse: real)
    requires t.id in s.carriers && s.carriers[t.id] in s.bombs
    ensures var lit := s.bombs[s.carriers[t.id]].armed;
            var wants := t.bot && t.drop &&
                         ((t.team == Blue && t.insideTarget && !lit) || (t.team == Green && t.clearOfTarget));
            && TurnEvents(s, [t], [entity], now, fuse) == (if wants then [Drop(t.id, entity, now, fuse)] else [])
            && AfterTurns(s, [t], [entity], now, fuse) == (if wants then Dropped(s, t.id, entity, now, fuse) else s)
  {
    assert [t][..0] == [] && [entity][..0] == [];
  }

  // ----- Pick-ups -----

  /** The bomb a player who carries none picks up: the lowest one in reach that may be taken, if the tool accepts. */
  ghost function Pick(s: State, t: Turn, now: real): Option<nat> {
    if !t.active || !t.pickUp || t.id in s.carriers then None else Lowest(Takeable(s.bombs, now) * t.reachable)
  }

  function Takeable(bombs: map<nat, BombState>, now: real): set<nat> {
    set n | n in bombs && bombs[n].entity.Some? && bombs[n].carrier.None? && now >= bombs[n].pickupAfter
  }

  ghost function AfterPick(s: State, t: Turn, now: real): State {
    match Pick(s, t, now)
    case None => s
    case Some(n) => PickedUp(s, t.id, t.team, n)
  }

  ghost function PickEvent(s: State, t: Turn, now: real): seq<Event> {
    match Pick(s, t, now)
    case None => []
    case Some(n) => [PickUp(t.id, t.team, n)]
  }

  ghost function AfterPicks(s: State, turns: seq<Turn>, now: real): State {
    if turns == [] then s else AfterPick(AfterPicks(s, turns[..|turns| - 1], now), turns[|turns| - 1], now)
  }

  ghost function PickEvents(s: State, turns: seq<Turn>, now: real): seq<Event> {
    if turns == [] then []
    else
      var n := |turns| - 1;
      PickEvents(s, turns[..n], now) + PickEvent(AfterPicks(s, turns[..n], now), turns[n], now)
  }

  lemma OneMorePick(s: State, turns: seq<Turn>, i: nat, now: real)
    requires i < |turns|
    ensures var t := AfterPicks(s, turns[..i], now);
            && AfterPicks(s, turns[..i + 1], now) == AfterPick(t, turns[i], now)
            && PickEvents(s, turns[..i + 1], now) == PickEvents(s, turns[..i], now) + PickEvent(t, turns[i], now)
  {
    assert turns[..i + 1][..i] == turns[..i];
  }

  /** A player without a bomb takes the lowest in reach that may be taken, exactly when the tool accepts. */
  lemma PickIsTheLowest(s: State, t: Turn, now: real, n: nat)
    ensures Pick(s, t, now) == Some(n) <==>
            && t.active && t.pickUp && t.id !in s.carriers && n in Takeable(s.bombs, now) && n in t.reachable
            && forall m :: m in Takeable(s.bombs, now) && m in t.reachable ==> n <= m
  {
    var es := Takeable(s.bombs, now) * t.reachable;
    var low := Lowest(es);
    assert forall m :: m in es <==> m in Takeable(s.bombs, now) && m in t.reachable;
  }

  lemma PickFollows(s: State, t: Turn, now: real)
    requires !s.ended
    ensures Follows(s, AfterPick(s, t, now), PickEvent(s, t, now)) && !AfterPick(s, t, now).ended
  {
    var n := Pick(s, t, now);
    FollowsNothing(s);
    if n.Some? {
      FollowsPickUp(s, s, [], t.id, t.team, n.value);
      assert [] + [PickUp(t.id, t.team, n.value)] == [PickUp(t.id, t.team, n.value)];
    }
  }

  lemma {:induction false} PicksFollow(s: State, turns: seq<Turn>, now: real)
    requires !s.ended
    ensures Follows(s, AfterPicks(s, turns, now), PickEvents(s, turns, now)) && !AfterPicks(s, turns, now).ended
  {
    if turns == [] {
      FollowsNothing(s);
    } else {
      var n := |turns| - 1;
      var t := AfterPicks(s, turns[..n], now);
      PicksFollow(s, turns[..n], now);
      PickFollows(t, turns[n], now);
      FollowsBoth(s, t, AfterPick(t, turns[n], now), PickEvents(s, turns[..n], now), PickEvent(t, turns[n], now));
    }
  }

  // ----- What one event does to its bomb -----

  /** A new bomb is nobody's, can be taken at once, and does not go off until somebody has lit it. */
  lemma SpawnedLiesReady(s: State, entity: nat, now: real, later: real)
    requires s.owed > 0
    ensures var n, t := s.serial, Spawned(s, entity, now);
            && n in t.bombs && t.bombs[n].lastTeam == Neutral && !t.bombs[n].intercepted && !Overdue(t, n, later)
            && (n in Takeable(t.bombs, later) <==> later >= now) && t.bombs - {n} == s.bombs - {n}
  {
    assert Spawned(s, entity, now).bombs - {s.serial} == s.bombs - {s.serial};
  }

  /** A drop lights the fuse of an unlit bomb, once, and the bomb can be taken again when the delay is over. */
  lemma DropLightsTheFuse(s: State, player: nat, entity: nat, now: real, fuse: real, later: real)
    requires player in s.carriers && s.carriers[player] in s.bombs
    ensures var n, t := s.carriers[player], Dropped(s, player, entity, now, fuse);
            && n in t.bombs && t.bombs[n].armed && t.bombs[n].entity == Some(entity) && t.bombs[n].carrier == None
            && (Overdue(t, n, later) <==> if s.bombs[n].armed then Overdue(s, n, later) else later >= now + fuse)
            && (n in Takeable(t.bombs, later) <==> later >= now + NO_PICKUP_AFTER_DROP_TIME)
            && t.bombs[n].lastTeam == s.bombs[n].lastTeam && t.carriers == s.carriers - {player}
            && t.bombs - {n} == s.bombs - {n}
  {
    var n, t := s.carriers[player], Dropped(s, player, entity, now, fuse);
    assert t.bombs - {n} == s.bombs - {n};
  }

  /** A pick-up puts the bomb in the player's hands, for their team, and leaves its fuse alone. */
  lemma PickUpKeepsTheFuse(s: State, player: nat, team: Team, n: nat, later: real)
    requires n in s.bombs && s.bombs[n].entity.Some?
    ensures var t := PickedUp(s, player, team, n);
            && t.carriers == s.carriers[player := n]
            && t.bombs[n].carrier == Some(player) && t.bombs[n].lastTeam == team
            && n !in Takeable(t.bombs, later) && (Overdue(t, n, later) <==> Overdue(s, n, later))
            && (t.bombs[n].intercepted <==> s.bombs[n].intercepted || (s.bombs[n].armed && team == Green))
            && t.bombs - {n} == s.bombs - {n}
  {
    assert PickedUp(s, player, team, n).bombs - {n} == s.bombs - {n};
  }

  /** A blast takes its bomb away and puts one respawn on the list, due exactly one respawn time later. */
  lemma BlastIsReplaced(s: State, n: nat, now: real, later: real)
    requires n in s.bombs
    ensures var t := Detonated(s, n, now);
            && t.bombs == s.bombs - {n}
            && |Later(t.pending, later)| ==
               |Later(s.pending, later)| + if later < now + OC_BOMB_RESPAWN_TIME_ON_EXPLOSION then 1 else 0
  {
    LaterOfOneMore(s.pending, now + OC_BOMB_RESPAWN_TIME_ON_EXPLOSION, later);
  }

  lemma {:induction false} LaterOfOneMore(pending: seq<real>, due: real, later: real)
    ensures |Later(pending + [due], later)| == |Later(pending, later)| + if due > later then 1 else 0
  {
    if pending == [] {
      assert [due][1..] == [] && pending + [due] == [due];
      assert Later([due], later) == (if due > later then [due] else []) + Later([], later);
    } else {
      assert (pending + [due])[1..] == pending[1..] + [due];
      LaterOfOneMore(pending[1..], due, later);
    }
  }

  // ----- Blasts -----

  /** The ledger, and the attackers' points. */
  datatype Field = Field(ledger: State, blue: nat)

  /** Which bombs are inside the target, the score that ends the match, and whether the mode is being replaced. */
  datatype Blast = Blast(inside: set<nat>, limit: nat, retiring: bool)

  predicate Overdue(s: State, n: nat, now: real) {
    n in s.bombs && s.bombs[n].armed && now >= s.bombs[n].explodeAt
  }

  /** A bomb goes off if its time has come; inside it pays, and may end the match, after which nothing goes off. */
  function Blasted(r: Blast, f: Field, n: nat, now: real): Field {
    if f.ledger.ended || !Overdue(f.ledger, n, now) then f
    else
      var blue := f.blue + if n in r.inside then OC_TEAM_SCORE_FOR_BOMB_EXPLOSION_IN_BASE else 0;
      Field(Detonated(f.ledger, n, now).(ended := n in r.inside && Ends(r, blue)), blue)
  }

  predicate Ends(r: Blast, blue: nat) {
    r.limit > 0 && blue >= r.limit && !r.retiring
  }

  function BlastEvents(r: Blast, f: Field, n: nat, now: real): seq<Event> {
    if f.ledger.ended || !Overdue(f.ledger, n, now) then []
    else [Detonate(n, now)] + if Blasted(r, f, n, now).ledger.ended then [End] else []
  }

  function BlastedAll(r: Blast, f: Field, order: seq<nat>, now: real): Field {
    if order == [] then f else Blasted(r, BlastedAll(r, f, order[..|order| - 1], now), order[|order| - 1], now)
  }

  function AllBlasts(r: Blast, f: Field, order: seq<nat>, now: real): seq<Event> {
    if order == [] then []
    else
      var n := |order| - 1;
      AllBlasts(r, f, order[..n], now) + BlastEvents(r, BlastedAll(r, f, order[..n], now), order[n], now)
  }

  lemma BlastFollows(r: Blast, f: Field, n: nat, now: real)
    ensures Follows(f.ledger, Blasted(r, f, n, now).ledger, BlastEvents(r, f, n, now))
  {
    FollowsNothing(f.ledger);
    if !f.ledger.ended && Overdue(f.ledger, n, now) {
      FollowsDetonate(f.ledger, f.ledger, [], n, now);
      assert [] + [Detonate(n, now)] == [Detonate(n, now)];
      if Blasted(r, f, n, now).ledger.ended {
        FollowsEnd(f.ledger, Detonated(f.ledger, n, now), [Detonate(n, now)]);
      } else {
        assert BlastEvents(r, f, n, now) == [Detonate(n, now)];
      }
    }
  }

  lemma {:induction false} BlastsFollow(r: Blast, f: Field, order: seq<nat>, now: real)
    ensures Follows(f.ledger, BlastedAll(r, f, order, now).ledger, AllBlasts(r, f, order, now))
  {
    if order == [] {
      FollowsNothing(f.ledger);
    } else {
      var n := |order| - 1;
      var g := BlastedAll(r, f, order[..n], now);
      BlastsFollow(r, f, order[..n], now);
      BlastFollows(r, g, order[n], now);
      FollowsBoth(f.ledger, g.ledger, Blasted(r, g, order[n], now).ledger, AllBlasts(r, f, order[..n], now),
                  BlastEvents(r, g, order[n], now));
    }
  }

  /** Blasts take bombs away and change no other. */
  lemma {:induction false} BlastsOnlyTake(r: Blast, f: Field, order: seq<nat>, now: real, n: nat)
    ensures var g := BlastedAll(r, f, order, now);
            && (n in g.ledger.bombs ==> n in f.ledger.bombs && g.ledger.bombs[n] == f.ledger.bombs[n])
            && (n in f.ledger.bombs && n !in order ==> n in g.ledger.bombs)
  {
    if order != [] {
      BlastsOnlyTake(r, f, order[..|order| - 1], now, n);
    }
  }

  lemma BlastOfOne(r: Blast, f: Field, m: nat, now: real, n: nat, t: real)
    ensures Detonate(n, t) in BlastEvents(r, f, m, now) <==>
            n == m && t == now && !f.ledger.ended && Overdue(f.ledger, n, now)
    ensures n in f.ledger.bombs && n !in Blasted(r, f, m, now).ledger.bombs <==>
            Detonate(n, now) in BlastEvents(r, f, m, now)
  {}

  /** A bomb goes off only if its time has come, and is gone exactly if it has gone off. */
  lemma {:induction false} OnlyTheOverdueGoOff(r: Blast, f: Field, order: seq<nat>, now: real, n: nat, t: real)
    ensures Detonate(n, t) in AllBlasts(r, f, order, now) ==> t == now && Overdue(f.ledger, n, now)
    ensures n in f.ledger.bombs && n !in BlastedAll(r, f, order, now).ledger.bombs <==>
            Detonate(n, now) in AllBlasts(r, f, order, now)
  {
    if order != [] {
      var k := |order| - 1;
      OnlyTheOverdueGoOff(r, f, order[..k], now, n, t);
      BlastsOnlyTake(r, f, order[..k], now, n);
      BlastsOnlyTake(r, f, order, now, n);
      BlastOfOne(r, BlastedAll(r, f, order[..k], now), order[k], now, n, t);
    }
  }

  /** Each bomb goes off once. */
  lemma {:induction false} EachGoesOffOnce(r: Blast, f: Field, order: seq<nat>, now: real, i: nat, j: nat)
    requires i < j < |AllBlasts(r, f, order, now)| && AllBlasts(r, f, order, now)[i].Detonate?
    ensures AllBlasts(r, f, order, now)[i] != AllBlasts(r, f, order, now)[j]
  {
    var k := |order| - 1;
    var sofar := AllBlasts(r, f, order[..k], now);
    if j < |sofar| {
      EachGoesOffOnce(r, f, order[..k], now, i, j);
    } else if i < |sofar| {
      var e := sofar[i];
      OnlyTheOverdueGoOff(r, f, order[..k], now, e.bomb, e.now);
      BlastOfOne(r, BlastedAll(r, f, order[..k], now), order[k], now, e.bomb, e.now);
      assert AllBlasts(r, f, order, now)[j] in BlastEvents(r, BlastedAll(r, f, order[..k], now), order[k], now);
    }
  }

  /** What has had its turn while the match goes on is not overdue. */
  lemma {:induction false} NothingOverdueStays(r: Blast, f: Field, order: seq<nat>, now: real, n: nat)
    requires n in order && !BlastedAll(r, f, order, now).ledger.ended
    ensures !Overdue(BlastedAll(r, f, order, now).ledger, n, now)
  {
    var k := |order| - 1;
    if n in order[..k] {
      NothingOverdueStays(r, f, order[..k], now, n);
    }
  }

  /** How many of these events are blasts inside the target. */
  function InsideBlasts(events: seq<Event>, inside: set<nat>): nat {
    if events == [] then 0
    else
      var e := events[|events| - 1];
      InsideBlasts(events[..|events| - 1], inside) + if e.Detonate? && e.bomb in inside then 1 else 0
  }

  lemma {:induction false} InsideBlastsOfBoth(first: seq<Event>, second: seq<Event>, inside: set<nat>)
    ensures InsideBlasts(first + second, inside) == InsideBlasts(first, inside) + InsideBlasts(second, inside)
  {
    if second == [] {
      assert first + second == first;
    } else {
      var n := |second| - 1;
      InsideBlastsOfBoth(first, second[..n], inside);
      assert (first + second)[..|first| + n] == first + second[..n];
    }
  }

  /** A blast ends the match exactly when it is inside and brings the attackers to a limit that is set. */
  lemma BlastEndsTheMatch(r: Blast, f: Field, n: nat, now: real)
    requires !f.ledger.ended && Overdue(f.ledger, n, now)
    ensures Blasted(r, f, n, now).ledger.ended <==>
            n in r.inside && r.limit > 0 && !r.retiring && f.blue + OC_TEAM_SCORE_FOR_BOMB_EXPLOSION_IN_BASE >= r.limit
  {}

  /** The attackers are paid for the blasts inside the target, and for nothing else. */
  lemma {:induction false} BlastsInsidePay(r: Blast, f: Field, order: seq<nat>, now: real)
    ensures BlastedAll(r, f, order, now).blue ==
            f.blue + InsideBlasts(AllBlasts(r, f, order, now), r.inside) * OC_TEAM_SCORE_FOR_BOMB_EXPLOSION_IN_BASE
  {
    if order != [] {
      var k := |order| - 1;
      var g := BlastedAll(r, f, order[..k], now);
      var more := BlastEvents(r, g, order[k], now);
      BlastsInsidePay(r, f, order[..k], now);
      InsideBlastsOfBoth(AllBlasts(r, f, order[..k], now), more, r.inside);
      BlastPays(r, g, order[k], now);
    }
  }

  lemma BlastPays(r: Blast, f: Field, n: nat, now: real)
    ensures Blasted(r, f, n, now).blue ==
            f.blue + InsideBlasts(BlastEvents(r, f, n, now), r.inside) * OC_TEAM_SCORE_FOR_BOMB_EXPLOSION_IN_BASE
  {
    var e := Detonate(n, now);
    assert [e][..0] == [] && [e, End][..1] == [e];
    assert InsideBlasts([e], r.inside) == InsideBlasts([], r.inside) + if n in r.inside then 1 else 0;
    assert InsideBlasts([e, End], r.inside) == InsideBlasts([e], r.inside);
    assert [e] + [End] == [e, End] && [e] + [] == [e];
  }

  /** The bomb was lit, and its time set, before these events: a fuse lit now burns past now. */
  lemma {:induction false} LitBefore(s: State, events: seq<Event>, now: real, n: nat)
    requires EnabledRun(s, events) && Overdue(Run(s, events), n, now)
    requires forall i :: 0 <= i < |events| && events[i].Drop? ==> events[i].now + events[i].fuse > now
    ensures Overdue(s, n, now)
    decreases |events|
  {
    if events != [] {
      var t := Next(s, events[0]);
      LitBefore(t, events[1..], now, n);
    }
  }

  /** What was added to the events: the due respawns are taken off the list, and this many are placed. */
  ghost predicate Places(past: seq<Event>, events: seq<Event>, count: nat, now: real) {
    |events| == |past| + 1 + count && past + [Due(now)] <= events &&
    forall i :: |past| < i < |events| ==> events[i].Spawn? && events[i].now == now
  }

  /** None of these events is a blast, and any fuse they light burns past now. */
  ghost predicate NoBlasts(events: seq<Event>, now: real) {
    forall i :: 0 <= i < |events| ==>
      !events[i].Detonate? && (events[i].Drop? ==> events[i].now + events[i].fuse > now)
  }

  lemma NoBlastsMore(past: seq<Event>, events: seq<Event>, now: real)
    requires NoBlasts(past, now) && past <= events
    requires forall i :: |past| <= i < |events| ==>
               !events[i].Detonate? && (events[i].Drop? ==> events[i].now + events[i].fuse > now)
    ensures NoBlasts(events, now)
  {
    forall i | 0 <= i < |events|
      ensures !events[i].Detonate? && (events[i].Drop? ==> events[i].now + events[i].fuse > now)
    {
      if i < |past| {
        assert events[i] == past[i];
      }
    }
  }

  lemma {:induction false} PicksBlastNothing(s: State, turns: seq<Turn>, now: real)
    ensures NoBlasts(PickEvents(s, turns, now), now)
  {
    if turns != [] {
      PicksBlastNothing(s, turns[..|turns| - 1], now);
    }
  }

  lemma {:induction false} TurnsBlastNothing(s: State, turns: seq<Turn>, entities: seq<nat>, now: real, fuse: real)
    requires |entities| == |turns| && fuse > 0.0
    ensures NoBlasts(TurnEvents(s, turns, entities, now, fuse), now)
  {
    if turns != [] {
      var n := |turns| - 1;
      TurnsBlastNothing(s, turns[..n], entities[..n], now, fuse);
    }
  }

  /** Every respawn on the list is still to come. */
  ghost predicate AllLater(pending: seq<real>, now: real) {
    forall i :: 0 <= i < |pending| ==> pending[i] > now
  }

  lemma OneMoreLater(pending: seq<real>, now: real, due: real)
    requires AllLater(pending, now) && due > now
    ensures AllLater(pending + [due], now)
  {}

  lemma {:induction false} BlastsSetNoneDue(r: Blast, f: Field, order: seq<nat>, now: real)
    requires AllLater(f.ledger.pending, now)
    ensures AllLater(BlastedAll(r, f, order, now).ledger.pending, now)
  {
    if order != [] {
      var g := BlastedAll(r, f, order[..|order| - 1], now);
      BlastsSetNoneDue(r, f, order[..|order| - 1], now);
      OneMoreLater(g.ledger.pending, now, now + OC_BOMB_RESPAWN_TIME_ON_EXPLOSION);
    }
  }

  lemma MovesBlastNothing(past: seq<Event>, events: seq<Event>, order: seq<nat>, now: real)
    requires NoBlasts(past, now) && Moves(past, events, order)
    ensures NoBlasts(events, now)
  {
    forall i | |past| <= i < |events|
      ensures !events[i].Detonate? && (events[i].Drop? ==> events[i].now + events[i].fuse > now)
    {
      var k := i - |past|;
      var n := order[k];
      assert events[|past| + k].Resurface?;
    }
    NoBlastsMore(past, events, now);
  }

  lemma PlacesOneMore(past: seq<Event>, events: seq<Event>, count: nat, now: real, e: nat)
    requires Places(past, events, count, now)
    ensures Places(past, events + [Spawn(e, now)], count + 1, now)
  {}

  lemma {:induction false} NoBlastsInside(events: seq<Event>, now: real, inside: set<nat>)
    requires NoBlasts(events, now)
    ensures InsideBlasts(events, inside) == 0
  {
    if events != [] {
      NoBlastsInside(events[..|events| - 1], now, inside);
    }
  }

  /** A tick whose blasts come last blasts what was overdue at its start, and pays for what was inside. */
  lemma TickIsSound(s: State, events: seq<Event>, r: Blast, f: Field, order: seq<nat>, now: real)
    requires Follows(s, f.ledger, events) && NoBlasts(events, now) && AllLater(f.ledger.pending, now)
    ensures var all, g := events + AllBlasts(r, f, order, now), BlastedAll(r, f, order, now);
            && Follows(s, g.ledger, all) && AllLater(g.ledger.pending, now)
            && (forall n, t :: Detonate(n, t) in all ==> t == now && Overdue(s, n, now))
            && g.blue == f.blue + InsideBlasts(all, r.inside) * OC_TEAM_SCORE_FOR_BOMB_EXPLOSION_IN_BASE
            && (!g.ledger.ended ==> forall n :: n in order ==> !Overdue(g.ledger, n, now))
            && g.ledger.owed == f.ledger.owed
  {
    var blasts, g := AllBlasts(r, f, order, now), BlastedAll(r, f, order, now);
    BlastsFollow(r, f, order, now);
    FollowsBoth(s, f.ledger, g.ledger, events, blasts);
    BlastsSetNoneDue(r, f, order, now);
    BlastsOweNothing(r, f, order, now);
    forall n, t | Detonate(n, t) in events + blasts ensures t == now && Overdue(s, n, now) {
      OnlyTheOverdueGoOff(r, f, order, now, n, t);
      LitBefore(s, events, now, n);
    }
    forall n | !g.ledger.ended && n in order ensures !Overdue(g.ledger, n, now) {
      NothingOverdueStays(r, f, order, now, n);
    }
    BlastsInsidePay(r, f, order, now);
    NoBlastsInside(events, now, r.inside);
    InsideBlastsOfBoth(events, blasts, r.inside);
  }

  lemma {:induction false} BlastsOweNothing(r: Blast, f: Field, order: seq<nat>, now: real)
    ensures BlastedAll(r, f, order, now).ledger.owed == f.ledger.owed
  {
    if order != [] {
      BlastsOweNothing(r, f, order[..|order| - 1], now);
    }
  }

  /** `ns` in some order, each once. */
  ghost predicate Lists(order: seq<nat>, ns: set<nat>) {
    (forall n :: n in order <==> n in ns) && |order| == |ns|
  }

  lemma ListsOneMore(order: seq<nat>, ns: set<nat>, n: nat)
    requires Lists(order, ns) && n !in ns
    ensures Lists(order + [n], ns + {n})
  {}

  /** What was added to the events: the resurfacing of these bombs, in this order. */
  ghost predicate Moves(past: seq<Event>, events: seq<Event>, order: seq<nat>) {
    |events| == |past| + |order| && past <= events &&
    forall i :: 0 <= i < |order| ==> events[|past| + i].Resurface? && events[|past| + i].bomb == order[i]
  }

  lemma MovesOneMore(past: seq<Event>, events: seq<Event>, order: seq<nat>, move: Event, n: nat)
    requires Moves(past, events, order) && move.Resurface? && move.bomb == n
    ensures Moves(past, events + [move], order + [n])
  {
    var more := events + [move];
    forall i | 0 <= i < |order| + 1 ensures more[|past| + i].Resurface? && more[|past| + i].bomb == (order + [n])[i] {
      if i < |order| {
        var m := order[i];
        assert more[|past| + i] == events[|past| + i];
      }
    }
  }

  /** What a tick does before the blasts, stage by stage: the respawns, the guard, and the new entities of the drops. */
  datatype Course = Course(
    wave: seq<Event>, waved: State, moves: seq<Event>, moved: seq<nat>, guarded: State, entities: seq<nat>)

  function IdleOf(s: State, trapped: set<nat>): set<nat> {
    set n | n in s.bombs && n in trapped && s.bombs[n].entity.Some? && s.bombs[n].carrier.None? && !s.bombs[n].armed
  }

  /** Exactly the respawns that are due are placed, and then exactly the idle bombs that are trapped are moved. */
  ghost predicate Prepares(s: State, trapped: set<nat>, now: real, c: Course) {
    && Places([], c.wave, |s.pending| - |Later(s.pending, now)|, now) && Follows(s, c.waved, c.wave)
    && Lists(c.moved, IdleOf(c.waved, trapped)) && Moves([], c.moves, c.moved) && Follows(c.waved, c.guarded, c.moves)
  }

  /** Then come all players' pick-ups, and then the bots' drops. */
  ghost function BeforeBlasts(c: Course, turns: seq<Turn>, now: real, fuse: real): State
    requires |c.entities| == |turns|
  {
    AfterTurns(AfterPicks(c.guarded, turns, now), turns, c.entities, now, fuse)
  }

  ghost function CourseEvents(c: Course, turns: seq<Turn>, now: real, fuse: real): seq<Event>
    requires |c.entities| == |turns|
  {
    c.wave + c.moves +
    (PickEvents(c.guarded, turns, now) + TurnEvents(AfterPicks(c.guarded, turns, now), turns, c.entities, now, fuse))
  }

  lemma CourseIsSound(s: State, turns: seq<Turn>, trapped: set<nat>, now: real, fuse: real, c: Course)
    requires |c.entities| == |turns| && fuse > 0.0 && Prepares(s, trapped, now, c)
    requires Follows(c.guarded, BeforeBlasts(c, turns, now, fuse),
                     PickEvents(c.guarded, turns, now) +
                     TurnEvents(AfterPicks(c.guarded, turns, now), turns, c.entities, now, fuse))
    ensures Follows(s, BeforeBlasts(c, turns, now, fuse), CourseEvents(c, turns, now, fuse))
    ensures NoBlasts(CourseEvents(c, turns, now, fuse), now)
  {
    var picked := AfterPicks(c.guarded, turns, now);
    var picks, drops := PickEvents(c.guarded, turns, now), TurnEvents(picked, turns, c.entities, now, fuse);
    FollowsBoth(s, c.waved, c.guarded, c.wave, c.moves);
    FollowsBoth(s, c.guarded, BeforeBlasts(c, turns, now, fuse), c.wave + c.moves, picks + drops);
    NoBlastsMore([], c.wave, now);
    MovesBlastNothing([], c.moves, c.moved, now);
    PicksBlastNothing(c.guarded, turns, now);
    TurnsBlastNothing(picked, turns, c.entities, now, fuse);
    NoBlastsOfBoth(c.wave, c.moves, now);
    NoBlastsOfBoth(picks, drops, now);
    NoBlastsOfBoth(c.wave + c.moves, picks + drops, now);
  }

  lemma NoBlastsOfBoth(first: seq<Event>, second: seq<Event>, now: real)
    requires NoBlasts(first, now) && NoBlasts(second, now)
    ensures NoBlasts(first + second, now)
  {}

  class OccupationMode {
    const maxActiveBombs: nat
    const fuseTime: real
    const scoreLimit: nat
    var bombs: map<nat, Bomb>
    var entityToBomb: map<nat, nat>
    var carriers: map<nat, nat>
    var pendingSpawns: seq<real>
    var serial: nat
    var blueScore: nat
    var greenScore: nat
    var ended: bool
    var retiring: bool
    /** Respawns that fell due in this tick and are not placed yet. */
    ghost var owed: nat

    /** Each bomb is filed under its own serial number, and bombs and coming respawns add up. */
    ghost predicate Filed()
      reads this`bombs, this`pendingSpawns, this`owed, this`serial
    {
      && (forall n :: n in bombs ==> bombs[n].serial == n && n < serial)
      && |bombs| + |pendingSpawns| + owed == maxActiveBombs
    }

    ghost function View(): State
      reads this`bombs, this`entityToBomb, this`carriers, this`pendingSpawns, this`owed, this`serial, this`ended
      reads bombs.Values
    {
      State(map n | n in bombs :: bombs[n].Value(), entityToBomb, carriers, pendingSpawns, owed, serial, ended)
    }

    constructor (maxActiveBombs: nat, fuseTime: real, scoreLimit: nat, serial: nat)
      requires fuseTime >= 1.0
      ensures Filed() && View() == Start(serial, maxActiveBombs) && blueScore == 0 && greenScore == 0 && !retiring
      ensures this.maxActiveBombs == maxActiveBombs && this.fuseTime == fuseTime && this.scoreLimit == scoreLimit
    {
      this.maxActiveBombs, this.fuseTime, this.scoreLimit, this.serial := maxActiveBombs, fuseTime, scoreLimit, serial;
      bombs, entityToBomb, carriers, pendingSpawns, owed := map[], map[], map[], [], maxActiveBombs;
      blueScore, greenScore, ended, retiring := 0, 0, false, false;
    }

    method SpawnBomb(entity: nat, now: real)
      requires Filed() && owed > 0
      modifies this`bombs, this`entityToBomb, this`serial, this`owed
      ensures Filed() && View() == Spawned(old(View()), entity, now)
      ensures fresh(bombs.Values - old(bombs.Values))
    {
      var b := new Bomb(serial, entity, now);
      FileBomb(b, entity, now);
    }

    method FileBomb(b: Bomb, entity: nat, now: real)
      requires Filed() && owed > 0 && b.serial == serial
      requires b.Value() == BombState(Some(entity), None, false, 0.0, now, Neutral, false)
      modifies this`bombs, this`entityToBomb, this`serial, this`owed
      ensures Filed() && View() == Spawned(old(View()), entity, now)
      ensures bombs == old(bombs)[b.serial := b]
    {
      bombs := bombs[serial := b];
      entityToBomb := entityToBomb[entity := serial];
      serial := serial + 1;
      owed := owed - 1;
      assert View().bombs == old(View()).bombs[old(serial) := b.Value()];
    }

    method PickupBomb(player: Player, b: Bomb, accepted: bool)
      requires Filed() && b.serial in bombs && bombs[b.serial] == b && b.entity.Some?
      modifies this`entityToBomb, this`carriers, b
      ensures Filed()
      ensures View() == if accepted then PickedUp(old(View()), player.id, player.team, b.serial) else old(View())
    {
      if !accepted {
        return;
      }
      entityToBomb := entityToBomb - {b.entity.value};
      b.TakenBy(player);
      carriers := carriers[player.id := b.serial];
      assert View().bombs == old(View()).bombs[b.serial := b.Value()];
    }

    /** After the end only the tool is cleared: nothing is placed into the end screen. */
    method ClearCarrier(player: Player)
      requires Filed() && player.id in carriers && carriers[player.id] in bombs
      modifies this`carriers, bombs.Values
      ensures Filed() && View() == LetGo(old(View()), player.id)
    {
      var b := bombs[carriers[player.id]];
      carriers := carriers - {player.id};
      b.carrier := None;
      assert View().bombs == old(View()).bombs[b.serial := b.Value()];
    }

    method PlaceDropped(player: Player, entity: nat, now: real)
      requires Filed() && player.id in carriers && carriers[player.id] in bombs
      modifies this`entityToBomb, this`carriers, bombs.Values
      ensures Filed() && View() == Dropped(old(View()), player.id, entity, now, fuseTime)
    {
      var b := bombs[carriers[player.id]];
      carriers := carriers - {player.id};
      b.PutDown(player, entity, now, fuseTime);
      entityToBomb := entityToBomb[entity := b.serial];
      assert View().bombs == old(View()).bombs[b.serial := b.Value()];
    }

    method DropBomb(player: Player, accepted: bool, entity: nat, now: real)
      requires Filed()
      modifies this`entityToBomb, this`carriers, bombs.Values
      ensures Filed()
      ensures View() == if player.id !in old(carriers) || old(carriers)[player.id] !in old(bombs) then old(View())
                        else if ended then LetGo(old(View()), player.id)
                        else if accepted then Dropped(old(View()), player.id, entity, now, fuseTime)
                        else old(View())
    {
      if player.id !in carriers || carriers[player.id] !in bombs {
        return;
      }
      if ended {
        ClearCarrier(player);
      } else if accepted {
        PlaceDropped(player, entity, now);
      }
    }

    /** Nobody holds the bomb any more, and the blast's entity, its own or one placed for the moment, goes with it. */
    method TakeAway(b: Bomb, entity: nat)
      requires entity !in entityToBomb
      modifies this`entityToBomb, this`carriers, b
      ensures carriers == old(carriers) - KeyOf(old(b.carrier)) && b.carrier == None
      ensures entityToBomb == old(entityToBomb) - KeyOf(old(b.entity))
    {
      if b.carrier.Some? {
        carriers := carriers - {b.carrier.value};
      }
      b.carrier := None;
      if b.entity.None? {
        b.entity := Some(entity);
        entityToBomb := entityToBomb[entity := b.serial];
      }
      entityToBomb := entityToBomb - {b.entity.value};
    }

    /** The blasted bomb leaves every dictionary, and a respawn is put on the list. */
    method RemoveBlasted(b: Bomb, entity: nat, now: real)
      requires Filed() && b.serial in bombs && bombs[b.serial] == b && entity !in entityToBomb
      modifies this`bombs, this`entityToBomb, this`carriers, this`pendingSpawns, b
      ensures Filed() && View() == Detonated(old(View()), b.serial, now) && bombs == old(bombs) - {b.serial}
    {
      TakeAway(b, entity);
      OneFewer(bombs, b.serial);
      bombs := bombs - {b.serial};
      pendingSpawns := pendingSpawns + [now + OC_BOMB_RESPAWN_TIME_ON_EXPLOSION];
      assert forall n :: n in bombs ==> bombs[n] != b;
      assert View().bombs == old(View()).bombs - {b.serial};
    }

    /**
     * A lit bomb goes off: a blast inside pays, whoever holds it lets go, the blast has an entity, a respawn is
     * due.
     */
    method DetonateBomb(b: Bomb, entity: nat, inside: bool, now: real)
      requires Filed() && b.serial in bombs && bombs[b.serial] == b && entity !in entityToBomb
      modifies this`bombs, this`entityToBomb, this`carriers, this`pendingSpawns, this`blueScore, b
      ensures Filed() && View() == Detonated(old(View()), b.serial, now) && bombs == old(bombs) - {b.serial}
      ensures blueScore == old(blueScore) + if inside then OC_TEAM_SCORE_FOR_BOMB_EXPLOSION_IN_BASE else 0
    {
      if inside {
        blueScore := blueScore + OC_TEAM_SCORE_FOR_BOMB_EXPLOSION_IN_BASE;
      }
      RemoveBlasted(b, entity, now);
    }

    /** An idle bomb that was buried comes up somewhere else, under a new entity. */
    method ResurfaceBomb(b: Bomb, entity: nat)
      requires Filed() && b.serial in bombs && bombs[b.serial] == b && b.entity.Some?
      modifies this`entityToBomb, b`entity
      ensures Filed() && View() == Resurfaced(old(View()), b.serial, entity)
    {
      entityToBomb := entityToBomb - {b.entity.value};
      b.entity := Some(entity);
      entityToBomb := entityToBomb[entity := b.serial];
      assert View().bombs == old(View()).bombs[b.serial := b.Value()];
    }

    /** Ends the match, once, unless a transition is already replacing it. */
    method EndByScore(score: nat, ghost start: State, ghost past: seq<Event>) returns (ghost events: seq<Event>)
      requires !ended && Follows(start, View(), past)
      modifies this`ended
      ensures ended <==> scoreLimit > 0 && score >= scoreLimit && !retiring
      ensures Follows(start, View(), events) && events == past + if ended then [End] else []
    {
      events := past;
      if scoreLimit > 0 && score >= scoreLimit && !retiring {
        FollowsEnd(start, View(), past);
        ended := true;
        events := past + [End];
        assert View() == old(View()).(ended := true);
      }
    }

    /**
     * Who is paid for a blast: the last carrier, if the same object still holds the slot, on the team it carried
     * for.
     */
    method Scorer(b: Bomb, slots: map<nat, Player>) returns (scorer: Option<Player>)
      ensures scorer.Some? <==>
                b.lastCarrier.Some? && b.lastCarrier.value.id in slots &&
                slots[b.lastCarrier.value.id] == b.lastCarrier.value &&
                b.lastCarrier.value.team == b.lastTeam
      ensures scorer.Some? ==> scorer == b.lastCarrier
    {
      scorer := None;
      if b.lastCarrier.None? {
        return;
      }
      var last := b.lastCarrier.value;
      if last.id in slots && slots[last.id] == last && last.team == b.lastTeam {
        scorer := Some(last);
      }
    }

    /** The server's entity registry: an id that no bomb has. */
    method FreshEntity() returns (e: nat)
      ensures e !in entityToBomb
    {
      e := 0;
      var used := entityToBomb.Keys;
      while e in entityToBomb
        invariant used <= entityToBomb.Keys && forall k :: k in entityToBomb && e <= k ==> k in used
        decreases |used|
      {
        used := used - {e};
        e := e + 1;
      }
    }

    /** A match, or a round after another, starts afresh: only the serial numbers go on, and every bomb is placed. */
    method OnModeStart(now: real) returns (ghost events: seq<Event>)
      modifies this`bombs, this`entityToBomb, this`carriers, this`pendingSpawns, this`serial, this`owed
      modifies this`blueScore, this`greenScore, this`ended, this`retiring
      ensures Filed() && Follows(Start(old(serial), maxActiveBombs), View(), events)
      ensures |events| == maxActiveBombs && (forall e :: e in events ==> e.Spawn?)
      ensures owed == 0 && |bombs| == maxActiveBombs && fresh(bombs.Values)
      ensures !ended && !retiring && blueScore == 0 && greenScore == 0
    {
      bombs, entityToBomb, carriers, pendingSpawns, owed := map[], map[], map[], [], maxActiveBombs;
      blueScore, greenScore, ended, retiring := 0, 0, false, false;
      assert View() == Start(serial, maxActiveBombs);
      events := SpawnAll(now, View());
    }

    method SpawnAll(now: real, ghost start: State) returns (ghost events: seq<Event>)
      requires Filed() && !ended && View() == start && owed == maxActiveBombs && bombs == map[]
      modifies this`bombs, this`entityToBomb, this`serial, this`owed
      ensures Filed() && Follows(start, View(), events) && owed == 0
      ensures |events| == maxActiveBombs && (forall e :: e in events ==> e.Spawn?)
      ensures fresh(bombs.Values)
    {
      FollowsNothing(start);
      events := [];
      var i := 0;
      while i < maxActiveBombs
        invariant 0 <= i <= maxActiveBombs && owed == maxActiveBombs - i && |events| == i
        invariant Filed() && Follows(start, View(), events) && fresh(bombs.Values)
        invariant forall e :: e in events ==> e.Spawn?
      {
        var e := FreshEntity();
        FollowsSpawn(start, View(), events, e, now);
        SpawnBomb(e, now);
        events := events + [Spawn(e, now)];
        i := i + 1;
      }
    }

    /** Respawns whose time has come are all placed: the account leaves room for every one of them. */
    method SpawnWave(now: real, ghost start: State, ghost past: seq<Event>) returns (ghost events: seq<Event>)
      requires Filed() && !ended && owed == 0 && Follows(start, View(), past)
      modifies this`bombs, this`entityToBomb, this`serial, this`owed, this`pendingSpawns
      ensures Filed() && Follows(start, View(), events) && owed == 0
      ensures pendingSpawns == Later(old(pendingSpawns), now)
      ensures Places(past, events, |old(pendingSpawns)| - |Later(old(pendingSpawns), now)|, now)
      ensures forall b :: b in bombs.Values ==> b in old(bombs.Values) || fresh(b)
    {
      FollowsDue(start, View(), past, now);
      var later := Later(pendingSpawns, now);
      var due := |pendingSpawns| - |later|;
      owed := |pendingSpawns| - |later|;
      pendingSpawns := later;
      events := past + [Due(now)];
      var i := 0;
      while i < due
        invariant 0 <= i <= due && owed == due - i && Places(past, events, i, now)
        invariant Filed() && Follows(start, View(), events) && pendingSpawns == later
        invariant forall b :: b in bombs.Values ==> b in old(bombs.Values) || fresh(b)
      {
        if |bombs| < maxActiveBombs {
          events := SpawnNext(now, start, past, events, i);
        }
        i := i + 1;
      }
    }

    method SpawnNext(now: real, ghost start: State, ghost past: seq<Event>, ghost sofar: seq<Event>, ghost i: nat)
      returns (ghost events: seq<Event>)
      requires Filed() && !ended && owed > 0 && Follows(start, View(), sofar) && Places(past, sofar, i, now)
      modifies this`bombs, this`entityToBomb, this`serial, this`owed
      ensures Filed() && owed == old(owed) - 1 && Follows(start, View(), events) && Places(past, events, i + 1, now)
      ensures fresh(bombs.Values - old(bombs.Values))
    {
      var e := FreshEntity();
      FollowsSpawn(start, View(), sofar, e, now);
      SpawnBomb(e, now);
      PlacesOneMore(past, sofar, i, now, e);
      events := sofar + [Spawn(e, now)];
    }

    /** Nobody carries the bomb, and its fuse is not lit. */
    predicate Idle(b: Bomb)
      reads b`entity, b`carrier, b`armed
    {
      b.entity.Some? && b.carrier.None? && !b.armed
    }

    ghost function IdleAmong(trapped: set<nat>): set<nat>
      reads this`bombs, bombs.Values
    {
      set n | n in bombs && n in trapped && Idle(bombs[n])
    }

    /** Exactly the idle bombs that have been trapped for long enough come up somewhere else, each once. */
    method GuardGroundBombs(trapped: set<nat>, ghost start: State, ghost past: seq<Event>)
      returns (ghost events: seq<Event>, ghost moved: seq<nat>)
      requires Filed() && !ended && Follows(start, View(), past)
      modifies this`entityToBomb, bombs.Values
      ensures Filed() && Follows(start, View(), events)
      ensures Lists(moved, old(IdleAmong(trapped))) && Moves(past, events, moved)
    {
      events, moved := past, [];
      ghost var idle, done := IdleAmong(trapped), {};
      var todo := bombs.Keys * trapped;
      while todo != {}
        invariant todo <= bombs.Keys * trapped && Filed() && Follows(start, View(), events)
        invariant IdleAmong(trapped) == idle && done == idle - todo
        invariant Lists(moved, done) && Moves(past, events, moved)
        decreases |todo|
      {
        var n :| n in todo;
        todo := todo - {n};
        events, moved, done := GuardOne(n, trapped, start, past, events, moved, done);
      }
    }

    method GuardOne(
        n: nat, trapped: set<nat>, ghost start: State, ghost past: seq<Event>, ghost sofar: seq<Event>,
        ghost before: seq<nat>, ghost done: set<nat>)
      returns (ghost events: seq<Event>, ghost moved: seq<nat>, ghost after: set<nat>)
      requires Filed() && !ended && Follows(start, View(), sofar) && n in bombs && n in trapped && n !in done
      requires Lists(before, done) && Moves(past, sofar, before)
      modifies this`entityToBomb, bombs.Values
      ensures Filed() && Follows(start, View(), events) && IdleAmong(trapped) == old(IdleAmong(trapped))
      ensures Lists(moved, after) && Moves(past, events, moved) && after == done + ({n} * IdleAmong(trapped))
    {
      events, moved, after := sofar, before, done;
      if Idle(bombs[n]) {
        ghost var move;
        events, move := MoveIdle(n, bombs[n], start, sofar);
        MovesOneMore(past, sofar, before, move, n);
        ListsOneMore(before, done, n);
        moved, after := before + [n], done + {n};
      }
    }

    method MoveIdle(n: nat, b: Bomb, ghost start: State, ghost past: seq<Event>)
      returns (ghost events: seq<Event>, ghost move: Event)
      requires Filed() && !ended && Follows(start, View(), past) && n in bombs && bombs[n] == b && Idle(b)
      modifies this`entityToBomb, b`entity
      ensures Filed() && Follows(start, View(), events) && b.entity.Some?
      ensures events == past + [move] && move.Resurface? && move.bomb == n
    {
      var e := FreshEntity();
      FollowsResurface(start, View(), past, n, e);
      ResurfaceBomb(b, e);
      move := Resurface(n, e);
      events := past + [move];
    }

    /** The lowest-numbered bomb on the ground within reach that may be picked up again. */
    method NearestGroundBomb(reachable: set<nat>, now: real) returns (found: Option<nat>)
      ensures found == Lowest(Takeable(View().bombs, now) * reachable)
    {
      found := None;
      ghost var takeable := Takeable(View().bombs, now) * reachable;
      var todo := bombs.Keys * reachable;
      while todo != {}
        invariant todo <= bombs.Keys * reachable
        invariant found.Some? ==> found.value in takeable
        invariant forall n :: n in takeable && n !in todo ==> found.Some? && found.value <= n
        decreases |todo|
      {
        var n :| n in todo;
        todo := todo - {n};
        var b := bombs[n];
        if b.entity.Some? && b.carrier.None? && now >= b.pickupAfter && (found.None? || n < found.value) {
          found := Some(n);
        }
      }
      ghost var low := Lowest(takeable);
      assert low.Some? ==> found.Some? && found.value <= low.value;
    }

    method PickupOne(v: Visit, now: real)
      requires Filed() && !ended
      modifies this`entityToBomb, this`carriers, bombs.Values
      ensures Filed() && View() == AfterPick(old(View()), old(TurnOf(v)), now)
    {
      if !v.active || v.player.id in carriers {
        return;
      }
      var n := NearestGroundBomb(v.reachable, now);
      if n.Some? {
        PickupBomb(v.player, bombs[n.value], v.pickUp);
      }
    }

    /** Everybody's turn to pick a bomb up, one after the other. */
    method PickupPass(visits: seq<Visit>, now: real, ghost turns: seq<Turn>)
      requires Filed() && !ended && TurnsAre(turns, visits)
      modifies this`entityToBomb, this`carriers, bombs.Values
      ensures Filed() && View() == AfterPicks(old(View()), turns, now)
    {
      ghost var s := View();
      var i := 0;
      while i < |visits|
        invariant 0 <= i <= |visits| && Filed() && TurnsAre(turns, visits) && View() == AfterPicks(s, turns[..i], now)
      {
        PickupNext(visits[i], now, s, turns, i);
        i := i + 1;
      }
      assert turns[..i] == turns;
    }

    method PickupNext(v: Visit, now: real, ghost s: State, ghost turns: seq<Turn>, ghost i: nat)
      requires Filed() && !ended && i < |turns| && turns[i] == TurnOf(v) && View() == AfterPicks(s, turns[..i], now)
      modifies this`entityToBomb, this`carriers, bombs.Values
      ensures Filed() && View() == AfterPicks(s, turns[..i + 1], now)
    {
      OneMorePick(s, turns, i, now);
      PickupOne(v, now);
    }

    ghost predicate TurnsAre(turns: seq<Turn>, visits: seq<Visit>)
      reads set v | v in visits :: v.player`team
    {
      |turns| == |visits| && forall i :: 0 <= i < |visits| ==> turns[i] == TurnOf(visits[i])
    }

    function TurnOf(v: Visit): Turn
      reads v.player`team
    {
      Turn(v.player.id, v.player.team, v.active, v.bot, v.reachable, v.insideTarget, v.clearOfTarget, v.pickUp, v.drop)
    }

    ghost function TurnsOf(visits: seq<Visit>): (turns: seq<Turn>)
      reads set v | v in visits :: v.player
      ensures |turns| == |visits| && forall i :: 0 <= i < |visits| ==> turns[i] == TurnOf(visits[i])
    {
      if visits == [] then [] else TurnsOf(visits[..|visits| - 1]) + [TurnOf(visits[|visits| - 1])]
    }

    predicate ShouldDrop(v: Visit)
      reads this`carriers, this`bombs, bombs.Values, v.player`team
    {
      v.bot && v.player.id in carriers && carriers[v.player.id] in bombs &&
      ((v.player.team == Blue && !bombs[carriers[v.player.id]].armed && v.insideTarget) ||
       (v.player.team == Green && v.clearOfTarget))
    }

    /** A bot at the right spot drops what it carries, as a human would; anybody else is passed over. */
    method BotDrop(v: Visit, now: real, ghost start: State, ghost past: seq<Event>)
      returns (ghost events: seq<Event>, ghost entity: nat)
      requires Filed() && !ended && Follows(start, View(), past)
      modifies this`entityToBomb, this`carriers, bombs.Values
      ensures Filed() && Follows(start, View(), events)
      ensures if DropsNow(old(View()), TurnOf(v))
              then
                && entity !in old(entityToBomb) && events == past + [Drop(v.player.id, entity, now, fuseTime)]
                && View() == Dropped(old(View()), v.player.id, entity, now, fuseTime)
              else events == past && View() == old(View())
    {
      events, entity := past, 0;
      if ShouldDrop(v) {
        var e := FreshEntity();
        entity := e;
        FollowsDrop(start, View(), events, v.player.id, e, now, fuseTime);
        DropBomb(v.player, v.drop, e, now);
        if v.drop { events := events + [Drop(v.player.id, e, now, fuseTime)]; }
      }
    }

    /** Everybody's turn to drop, one after the other: exactly the drops the turns make, under new entities. */
    method BotDrops(visits: seq<Visit>, now: real, ghost turns: seq<Turn>, ghost start: State, ghost past: seq<Event>)
      returns (ghost events: seq<Event>, ghost entities: seq<nat>)
      requires Filed() && !ended && Follows(start, View(), past) && TurnsAre(turns, visits)
      modifies this`entityToBomb, this`carriers, bombs.Values
      ensures Filed() && Follows(start, View(), events) && |entities| == |visits|
      ensures View() == AfterTurns(old(View()), turns, entities, now, fuseTime)
      ensures events == past + TurnEvents(old(View()), turns, entities, now, fuseTime)
    {
      events, entities := past, [];
      ghost var before := View();
      var i := 0;
      while i < |visits|
        invariant 0 <= i <= |visits| && |entities| == i && TurnsAre(turns, visits)
        invariant Filed() && Follows(start, View(), events)
        invariant View() == AfterTurns(before, turns[..i], entities, now, fuseTime)
        invariant events == past + TurnEvents(before, turns[..i], entities, now, fuseTime)
      {
        events, entities := TakeTurn(visits[i], now, start, past, events, before, turns, i, entities);
        i := i + 1;
      }
      assert turns[..i] == turns;
    }

    method TakeTurn(
        v: Visit, now: real, ghost start: State, ghost past: seq<Event>, ghost sofar: seq<Event>, ghost before: State,
        ghost turns: seq<Turn>, ghost i: nat, ghost entities: seq<nat>)
      returns (ghost events: seq<Event>, ghost more: seq<nat>)
      requires Filed() && !ended && Follows(start, View(), sofar)
      requires |entities| == i < |turns| && turns[i] == TurnOf(v)
      requires View() == AfterTurns(before, turns[..i], entities, now, fuseTime)
      requires sofar == past + TurnEvents(before, turns[..i], entities, now, fuseTime)
      modifies this`entityToBomb, this`carriers, bombs.Values
      ensures Filed() && Follows(start, View(), events) && |more| == i + 1
      ensures View() == AfterTurns(before, turns[..i + 1], more, now, fuseTime)
      ensures events == past + TurnEvents(before, turns[..i + 1], more, now, fuseTime)
    {
      ghost var entity;
      events, entity := BotDrop(v, now, start, sofar);
      OneMoreTurn(before, turns, i, entities, entity, now);
      more := entities + [entity];
    }

    lemma OneMoreTurn(s: State, turns: seq<Turn>, i: nat, entities: seq<nat>, entity: nat, now: real)
      requires i < |turns| && |entities| == i
      ensures var t := AfterTurns(s, turns[..i], entities, now, fuseTime);
              && AfterTurns(s, turns[..i + 1], entities + [entity], now, fuseTime) ==
                 (if DropsNow(t, turns[i]) then Dropped(t, turns[i].id, entity, now, fuseTime) else t)
              && TurnEvents(s, turns[..i + 1], entities + [entity], now, fuseTime) ==
                 TurnEvents(s, turns[..i], entities, now, fuseTime) +
                 (if DropsNow(t, turns[i]) then [Drop(turns[i].id, entity, now, fuseTime)] else [])
    {
      assert turns[..i + 1][..i] == turns[..i] && (entities + [entity])[..i] == entities;
    }

    ghost function TheField(): Field
      reads this`bombs, this`entityToBomb, this`carriers, this`pendingSpawns, this`owed, this`serial, this`ended
      reads this`blueScore, bombs.Values
    {
      Field(View(), blueScore)
    }

    ghost function BlastRules(insideTarget: set<nat>): Blast
      reads this`retiring
    {
      Blast(insideTarget, scoreLimit, retiring)
    }

    /** One bomb's turn: it goes off if its time has come, and may end the match. */
    method DetonateOne(b: Bomb, now: real, insideTarget: set<nat>)
      requires Filed() && !ended && b.serial in bombs && bombs[b.serial] == b
      modifies this`bombs, this`entityToBomb, this`carriers, this`pendingSpawns, this`blueScore, this`ended, b
      ensures Filed() && TheField() == Blasted(BlastRules(insideTarget), old(TheField()), b.serial, now)
      ensures bombs == if Overdue(old(View()), b.serial, now) then old(bombs) - {b.serial} else old(bombs)
    {
      if b.armed && now >= b.explodeAt {
        GoOff(b, now, insideTarget);
      }
    }

    method GoOff(b: Bomb, now: real, insideTarget: set<nat>)
      requires Filed() && !ended && b.serial in bombs && bombs[b.serial] == b && Overdue(View(), b.serial, now)
      modifies this`bombs, this`entityToBomb, this`carriers, this`pendingSpawns, this`blueScore, this`ended, b
      ensures Filed() && bombs == old(bombs) - {b.serial}
      ensures TheField() == Blasted(BlastRules(insideTarget), old(TheField()), b.serial, now)
    {
      var inside := b.serial in insideTarget;
      BlowUp(b, inside, now);
      EndIf(inside && AtLimit(blueScore));
    }

    method BlowUp(b: Bomb, inside: bool, now: real)
      requires Filed() && b.serial in bombs && bombs[b.serial] == b
      modifies this`bombs, this`entityToBomb, this`carriers, this`pendingSpawns, this`blueScore, b
      ensures Filed() && bombs == old(bombs) - {b.serial}
      ensures TheField() == Field(Detonated(old(View()), b.serial, now),
                                  old(blueScore) + if inside then OC_TEAM_SCORE_FOR_BOMB_EXPLOSION_IN_BASE else 0)
    {
      var e := FreshEntity();
      DetonateBomb(b, e, inside, now);
    }

    method EndIf(over: bool)
      requires !ended
      modifies this`ended
      ensures View() == old(View()).(ended := over)
    {
      ended := over;
    }

    ghost predicate NoneDue(now: real)
      reads this`pendingSpawns
    {
      AllLater(pendingSpawns, now)
    }

    /** Every lit bomb whose time has come goes off, one after the other, until one of them ends the match. */
    method DetonateDue(now: real, insideTarget: set<nat>) returns (ghost order: seq<nat>)
      requires Filed() && !ended
      modifies this`bombs, this`entityToBomb, this`carriers, this`pendingSpawns, this`blueScore, this`ended
      modifies bombs.Values
      ensures Filed() && TheField() == BlastedAll(BlastRules(insideTarget), old(TheField()), order, now)
      ensures !ended ==> forall n :: n in bombs ==> n in order
    {
      order := [];
      ghost var f, r := TheField(), BlastRules(insideTarget);
      var todo := bombs.Keys;
      while todo != {} && !ended
        invariant Filed() && todo <= bombs.Keys && TheField() == BlastedAll(r, f, order, now)
        invariant forall n :: n in bombs ==> n in old(bombs) && bombs[n] == old(bombs)[n]
        invariant forall n :: n in bombs && n !in todo ==> n in order
        decreases |todo|
      {
        var n :| n in todo;
        assert (order + [n])[..|order|] == order;
        DetonateOne(bombs[n], now, insideTarget);
        order, todo := order + [n], todo - {n};
      }
    }

    /**
     * One server tick, in order: the due respawns, the guard, the pick-ups, the bots' drops, the blasts. It is a run
     * of the ledger. Only what is past its time goes off, and nothing past its time is left unless the match ends.
     */
    method OnTick(now: real, trapped: set<nat>, visits: seq<Visit>, insideTarget: set<nat>)
      returns (ghost events: seq<Event>, ghost c: Course, ghost order: seq<nat>)
      requires Filed() && !ended && owed == 0 && fuseTime > 0.0
      modifies this`bombs, this`entityToBomb, this`serial, this`owed, this`pendingSpawns, this`carriers
      modifies this`blueScore, this`ended, bombs.Values
      ensures Filed() && owed == 0 && Follows(old(View()), View(), events) && NoneDue(now)
      ensures Prepares(old(View()), trapped, now, c) && |c.entities| == |visits|
      ensures var before := Field(BeforeBlasts(c, old(TurnsOf(visits)), now, fuseTime), old(blueScore));
              && TheField() == BlastedAll(BlastRules(insideTarget), before, order, now)
              && events == CourseEvents(c, old(TurnsOf(visits)), now, fuseTime) +
                           AllBlasts(BlastRules(insideTarget), before, order, now)
      ensures forall n, t :: Detonate(n, t) in events ==> t == now && Overdue(old(View()), n, now)
      ensures blueScore ==
              old(blueScore) + InsideBlasts(events, insideTarget) * OC_TEAM_SCORE_FOR_BOMB_EXPLOSION_IN_BASE
      ensures !ended ==> forall n :: n in bombs ==> !Overdue(View(), n, now)
    {
      events, c := BeforeTheBlasts(now, trapped, visits, TurnsOf(visits));
      ghost var f, r := TheField(), BlastRules(insideTarget);
      order := DetonateDue(now, insideTarget);
      TickIsSound(old(View()), events, r, f, order, now);
      events := events + AllBlasts(r, f, order, now);
    }

    method BeforeTheBlasts(now: real, trapped: set<nat>, visits: seq<Visit>, ghost turns: seq<Turn>)
      returns (ghost events: seq<Event>, ghost c: Course)
      requires Filed() && !ended && owed == 0 && fuseTime > 0.0 && TurnsAre(turns, visits)
      modifies this`bombs, this`entityToBomb, this`serial, this`owed, this`pendingSpawns, this`carriers, bombs.Values
      ensures Filed() && !ended && owed == 0 && NoneDue(now)
      ensures Prepares(old(View()), trapped, now, c) && |c.entities| == |turns|
      ensures View() == BeforeBlasts(c, turns, now, fuseTime) && events == CourseEvents(c, turns, now, fuseTime)
      ensures Follows(old(View()), View(), events) && NoBlasts(events, now)
      ensures forall b :: b in bombs.Values ==> b in old(bombs.Values) || fresh(b)
    {
      ghost var start := View();
      FollowsNothing(start);
      ghost var wave := SpawnWave(now, start, []);
      events, c := AfterTheWave(now, trapped, visits, turns, start, wave);
    }

    method AfterTheWave(
        now: real, trapped: set<nat>, visits: seq<Visit>, ghost turns: seq<Turn>, ghost start: State,
        ghost wave: seq<Event>)
      returns (ghost events: seq<Event>, ghost c: Course)
      requires Filed() && !ended && fuseTime > 0.0 && TurnsAre(turns, visits) && Follows(start, View(), wave)
      requires Places([], wave, |start.pending| - |Later(start.pending, now)|, now)
      modifies this`entityToBomb, this`carriers, bombs.Values
      ensures Filed() && !ended && Prepares(start, trapped, now, c) && |c.entities| == |turns|
      ensures View() == BeforeBlasts(c, turns, now, fuseTime) && events == CourseEvents(c, turns, now, fuseTime)
      ensures Follows(start, View(), events) && NoBlasts(events, now)
    {
      ghost var waved := View();
      ghost var moves, moved := GuardStage(now, trapped, waved);
      ghost var guarded := View();
      ghost var entities := PlayersTurns(now, visits, turns, guarded);
      c := Course(wave, waved, moves, moved, guarded, entities);
      events := CourseEvents(c, turns, now, fuseTime);
      CourseIsSound(start, turns, trapped, now, fuseTime, c);
    }

    method GuardStage(now: real, trapped: set<nat>, ghost start: State)
      returns (ghost moves: seq<Event>, ghost moved: seq<nat>)
      requires Filed() && !ended && View() == start
      modifies this`entityToBomb, bombs.Values
      ensures Filed() && Follows(start, View(), moves)
      ensures Lists(moved, IdleOf(start, trapped)) && Moves([], moves, moved)
    {
      FollowsNothing(start);
      assert IdleAmong(trapped) == IdleOf(start, trapped);
      moves, moved := GuardGroundBombs(trapped, start, []);
    }

    method PlayersTurns(now: real, visits: seq<Visit>, ghost turns: seq<Turn>, ghost start: State)
      returns (ghost entities: seq<nat>)
      requires Filed() && !ended && View() == start && TurnsAre(turns, visits)
      modifies this`entityToBomb, this`carriers, bombs.Values
      ensures Filed() && !ended && |entities| == |turns|
      ensures var picked := AfterPicks(start, turns, now);
              && View() == AfterTurns(picked, turns, entities, now, fuseTime)
              && Follows(start, View(), PickEvents(start, turns, now) +
                                        TurnEvents(picked, turns, entities, now, fuseTime))
    {
      PickupPass(visits, now, turns);
      PicksFollow(start, turns, now);
      ghost var events;
      events, entities := BotDrops(visits, now, turns, start, PickEvents(start, turns, now));
    }

    /** A carrier's death: the killer's team is paid, which may end the match, and the bomb is dropped or cleared. */
    method OnPlayerDeath(player: Player, killer: Option<Player>, accepted: bool, entity: nat, now: real)
      returns (ghost events: seq<Event>)
      requires Filed() && entity !in entityToBomb
      modifies this`entityToBomb, this`carriers, this`blueScore, this`greenScore, this`ended, bombs.Values
      ensures Filed() && Follows(old(View()), View(), events)
      ensures var paid := old(Intercepts(player, killer));
              var award := OC_TEAM_SCORE_FOR_KILLING_CARRIER;
              && blueScore == old(blueScore) + (if paid && killer.value.team == Blue then award else 0)
              && greenScore == old(greenScore) + (if paid && killer.value.team != Blue then award else 0)
              && (ended <==>
                    old(ended) || (paid && AtLimit(if killer.value.team == Blue then blueScore else greenScore)))
      ensures events == (if ended && !old(ended) then [End] else []) +
                        (if old(Carries(player)) then DropEvent(player.id, accepted, entity, now) else [])
      ensures ended && old(Carries(player)) ==> player.id !in carriers
    {
      FollowsNothing(View());
      events := [];
      if !Carries(player) {
        return;
      }
      if Intercepts(player, killer) {
        events := Intercept(killer.value.team);
      }
      events := DropOrClear(player, accepted, entity, now, old(View()), events);
    }

    predicate Carries(player: Player)
      reads this`carriers, this`bombs
    {
      player.id in carriers && carriers[player.id] in bombs
    }

    /** The killer's side is paid: an enemy of the team that picked the bomb up. */
    predicate Intercepts(player: Player, killer: Option<Player>)
      reads this`carriers, this`bombs, this`ended, bombs.Values, if killer.Some? then {killer.value} else {}
    {
      Carries(player) && !ended && killer.Some? && killer.value != player && Playable(killer.value.team) &&
      killer.value.team != bombs[carriers[player.id]].lastTeam
    }

    /** A score ends the match, unless a transition is already replacing it. */
    predicate AtLimit(score: nat)
      reads this`retiring
    {
      scoreLimit > 0 && score >= scoreLimit && !retiring
    }

    /** What becomes of a dead player's bomb: after the end the carrier is cleared, before it a drop may be refused. */
    ghost function DropEvent(id: nat, accepted: bool, entity: nat, now: real): seq<Event>
      reads this`ended
    {
      if ended then [DropAfterTheEnd(id)] else if accepted then [Drop(id, entity, now, fuseTime)] else []
    }

    method DropOrClear(
        player: Player, accepted: bool, entity: nat, now: real, ghost start: State, ghost past: seq<Event>)
      returns (ghost events: seq<Event>)
      requires Filed() && entity !in entityToBomb && player.id in carriers && carriers[player.id] in bombs
      requires Follows(start, View(), past)
      modifies this`entityToBomb, this`carriers, bombs.Values
      ensures Filed() && Follows(start, View(), events)
      ensures events == past + DropEvent(player.id, accepted, entity, now)
      ensures ended ==> player.id !in carriers
    {
      events := past;
      if ended {
        FollowsLetGo(start, View(), past, player.id);
        events := past + [DropAfterTheEnd(player.id)];
      } else {
        FollowsDrop(start, View(), past, player.id, entity, now, fuseTime);
        if accepted { events := past + [Drop(player.id, entity, now, fuseTime)]; }
      }
      DropBomb(player, accepted, entity, now);
    }

    method Intercept(team: Team) returns (ghost events: seq<Event>)
      requires Filed() && !ended && Playable(team)
      modifies this`blueScore, this`greenScore, this`ended
      ensures Filed() && Follows(old(View()), View(), events)
      ensures blueScore == old(blueScore) + (if team == Blue then OC_TEAM_SCORE_FOR_KILLING_CARRIER else 0)
      ensures greenScore == old(greenScore) + (if team != Blue then OC_TEAM_SCORE_FOR_KILLING_CARRIER else 0)
      ensures ended <==> AtLimit(if team == Blue then blueScore else greenScore)
      ensures events == if ended then [End] else []
    {
      FollowsNothing(View());
      if team == Blue {
        blueScore := blueScore + OC_TEAM_SCORE_FOR_KILLING_CARRIER;
      } else {
        greenScore := greenScore + OC_TEAM_SCORE_FOR_KILLING_CARRIER;
      }
      var score := if team == Blue then blueScore else greenScore;
      assert View() == old(View());
      events := EndByScore(score, old(View()), []);
    }
  }
}
