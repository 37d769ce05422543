/** Where every diamond of a match is: an account of serial numbers. */
module DiamondLedger {
  import opened Wrappers
  import opened Sizes
  import opened Teams
  import opened Roster

  const NO_PICKUP_AFTER_DROP_TIME := 2.5

  /** A diamond lying on the ground, under the id of its entity. */
  datatype Diamond = Diamond(serial: nat, expiresAt: real, pickupAfter: real, lastTeam: Option<Team>)

  /** Who uncovered a diamond and which teams have carried it. */
  datatype Find = Find(finder: Option<Player>, teams: set<Team>)

  datatype Carry = Carry(serial: nat, team: Team)

  datatype Place =
    | Ground(entity: nat)
    | Hands(player: nat)
    | Cashed(team: Team)
    | Expired
    | Discarded

  /** The diamonds cashed in for each team. */
  datatype CashIns = CashIns(blue: set<nat>, green: set<nat>)

  /** The account: the one place of every diamond ever uncovered, every carry, every cash-in and the team scores. */
  datatype Book = Book(place: map<nat, Place>, carries: set<Carry>, cashed: CashIns, blue: nat, green: nat)

  datatype State = State(
    ground: map<nat, Diamond>, carriers: map<nat, nat>, history: map<nat, Find>, serial: nat, book: Book)

  datatype Event =
    | Uncover(entity: nat, finder: Player, now: real, lifetime: real)
    | PickUp(player: nat, entity: nat, team: Team)
    | CashIn(player: nat, team: Team)
    | CashLoose(entity: nat)
    | Drop(player: nat, entity: nat, team: Team, now: real, lifetime: real)
    | Discard(player: nat)
    | Expire(entity: nat)

  predicate InPlay(place: Place) {
    place.Ground? || place.Hands?
  }

  function Count(s: State): nat {
    |s.ground| + |s.carriers|
  }

  function Score(b: Book, team: Team): nat {
    if team == Blue then b.blue else if team == Green then b.green else 0
  }

  function Moved(b: Book, serial: nat, place: Place): Book {
    b.(place := b.place[serial := place])
  }

  function OneFor(team: Team, place: Place): nat {
    if place == Cashed(team) then 1 else 0
  }

  function CashedIn(c: CashIns, n: nat, fate: Place): CashIns {
    CashIns(if fate == Cashed(Blue) then c.blue + {n} else c.blue,
            if fate == Cashed(Green) then c.green + {n} else c.green)
  }

  /** A diamond meets its fate. */
  function Closed(b: Book, n: nat, fate: Place): Book {
    Book(b.place[n := fate], b.carries, CashedIn(b.cashed, n, fate),
         b.blue + OneFor(Blue, fate), b.green + OneFor(Green, fate))
  }

  ghost predicate Enabled(s: State, e: Event, limit: nat) {
    match e
    case Uncover(entity, _, _, _) => entity !in s.ground && Count(s) < limit
    case PickUp(player, entity, team) => player !in s.carriers && entity in s.ground
    case CashIn(player, team) => player in s.carriers && Playable(team)
    case CashLoose(entity) =>
      entity in s.ground && s.ground[entity].lastTeam.Some? && Playable(s.ground[entity].lastTeam.value)
    case Drop(player, entity, _, _, _) => player in s.carriers && entity !in s.ground
    case Discard(player) => player in s.carriers
    case Expire(entity) => entity in s.ground
  }

  function Uncovered(s: State, entity: nat, finder: Player, now: real, lifetime: real): State {
    s.(ground := s.ground[entity := Diamond(s.serial, now + lifetime, now, None)],
       history := s.history[s.serial := Find(Some(finder), {})],
       serial := s.serial + 1,
       book := Moved(s.book, s.serial, Ground(entity)))
  }

  function PickedUp(s: State, player: nat, entity: nat, team: Team): State
    requires entity in s.ground
  {
    var n := s.ground[entity].serial;
    var find := if n in s.history then s.history[n] else Find(None, {});
    s.(ground := s.ground - {entity},
       carriers := s.carriers[player := n],
       history := s.history[n := find.(teams := find.teams + {team})],
       book := Moved(s.book, n, Hands(player)).(carries := s.book.carries + {Carry(n, team)}))
  }

  /** A drop re-places the carried diamond: the fresh entity uses up a serial number, then gets its old one back. */
  function Dropped(s: State, player: nat, entity: nat, team: Team, now: real, lifetime: real): State
    requires player in s.carriers
  {
    var n := s.carriers[player];
    s.(ground := s.ground[entity := Diamond(n, now + lifetime, now + NO_PICKUP_AFTER_DROP_TIME, Some(team))],
       carriers := s.carriers - {player},
       serial := s.serial + 1,
       book := Moved(s.book, n, Ground(entity)))
  }

  function TakenFromGround(s: State, entity: nat, fate: Place): State
    requires entity in s.ground
  {
    var n := s.ground[entity].serial;
    s.(ground := s.ground - {entity}, history := s.history - {n}, book := Closed(s.book, n, fate))
  }

  function TakenFromCarrier(s: State, player: nat, fate: Place): State
    requires player in s.carriers
  {
    var n := s.carriers[player];
    s.(carriers := s.carriers - {player}, history := s.history - {n}, book := Closed(s.book, n, fate))
  }

  function Next(s: State, e: Event, limit: nat): State
    requires Enabled(s, e, limit)
  {
    match e
    case Uncover(entity, finder, now, lifetime) => Uncovered(s, entity, finder, now, lifetime)
    case PickUp(player, entity, team) => PickedUp(s, player, entity, team)
    case CashIn(player, team) => TakenFromCarrier(s, player, Cashed(team))
    case CashLoose(entity) => TakenFromGround(s, entity, Cashed(s.ground[entity].lastTeam.value))
    case Drop(player, entity, team, now, lifetime) => Dropped(s, player, entity, team, now, lifetime)
    case Discard(player) => TakenFromCarrier(s, player, Discarded)
    case Expire(entity) => TakenFromGround(s, entity, Expired)
  }

  /** The dictionaries and the account agree: whatever is held anywhere is held there and nowhere else. */
  ghost predicate Placed(ground: map<nat, Diamond>, carriers: map<nat, nat>, place: map<nat, Place>, serial: nat) {
    && (forall e :: e in ground ==> ground[e].serial in place && place[ground[e].serial] == Ground(e))
    && (forall p :: p in carriers ==> carriers[p] in place && place[carriers[p]] == Hands(p))
    && (forall n :: n in place ==> n < serial)
    && (forall n :: n in place && place[n].Ground? ==> place[n].entity in ground && ground[place[n].entity].serial == n)
    && (forall n :: n in place && place[n].Hands? ==> place[n].player in carriers && carriers[place[n].player] == n)
  }

  /** The history is kept for exactly the diamonds in play, and names exactly the teams that have carried them. */
  ghost predicate Remembered(history: map<nat, Find>, place: map<nat, Place>, carries: set<Carry>) {
    && (forall n :: n in history <==> n in place && InPlay(place[n]))
    && (forall n, t :: n in history ==> (t in history[n].teams <==> Carry(n, t) in carries))
    && forall c :: c in carries ==> c.serial in place
  }

  /** Every team has as many points as diamonds were cashed in for it, and only the two teams cash in. */
  ghost predicate Scored(place: map<nat, Place>, cashed: CashIns, blue: nat, green: nat) {
    && (forall n :: n in cashed.blue <==> n in place && place[n] == Cashed(Blue))
    && (forall n :: n in cashed.green <==> n in place && place[n] == Cashed(Green))
    && (forall n :: n in place && place[n].Cashed? ==> Playable(place[n].team))
    && blue == |cashed.blue| && green == |cashed.green|
  }

  ghost predicate Inv(s: State, limit: nat) {
    && Placed(s.ground, s.carriers, s.book.place, s.serial)
    && Remembered(s.history, s.book.place, s.book.carries)
    && Scored(s.book.place, s.book.cashed, s.book.blue, s.book.green)
    && Count(s) <= limit
  }

  function Start(serial: nat): State {
    State(map[], map[], map[], serial, Book(map[], {}, CashIns({}, {}), 0, 0))
  }

  ghost predicate EnabledRun(s: State, events: seq<Event>, limit: nat)
    decreases |events|
  {
    events == [] || (Enabled(s, events[0], limit) && EnabledRun(Next(s, events[0], limit), events[1..], limit))
  }

  ghost function Run(s: State, events: seq<Event>, limit: nat): State
    requires EnabledRun(s, events, limit)
    decreases |events|
  {
    if events == [] then s else Run(Next(s, events[0], limit), events[1..], limit)
  }

  lemma ComesUp(
      ground: map<nat, Diamond>, carriers: map<nat, nat>, place: map<nat, Place>, serial: nat, e: nat, d: Diamond)
    requires Placed(ground, carriers, place, serial) && e !in ground && d.serial == serial
    ensures serial !in place && Placed(ground[e := d], carriers, place[serial := Ground(e)], serial + 1)
  {}

  lemma IsNew(history: map<nat, Find>, b: Book, n: nat, find: Find, place: Place)
    requires Remembered(history, b.place, b.carries) && Scored(b.place, b.cashed, b.blue, b.green)
    requires n !in b.place && InPlay(place) && find.teams == {}
    ensures Remembered(history[n := find], b.place[n := place], b.carries)
    ensures Scored(b.place[n := place], b.cashed, b.blue, b.green)
  {}

  lemma UncoverKeepsInv(s: State, entity: nat, finder: Player, now: real, lifetime: real, limit: nat)
    requires Inv(s, limit) && entity !in s.ground && Count(s) < limit
    ensures Inv(Uncovered(s, entity, finder, now, lifetime), limit)
  {
    var t := Uncovered(s, entity, finder, now, lifetime);
    ComesUp(s.ground, s.carriers, s.book.place, s.serial, entity, t.ground[entity]);
    IsNew(s.history, s.book, s.serial, Find(Some(finder), {}), Ground(entity));
  }

  /** Moving a diamond that stays in play changes neither the history's keys nor the scores. */
  lemma StaysInPlay(history: map<nat, Find>, b: Book, n: nat, place: Place)
    requires Remembered(history, b.place, b.carries) && Scored(b.place, b.cashed, b.blue, b.green)
    requires n in b.place && InPlay(b.place[n]) && InPlay(place)
    ensures n in history
    ensures Remembered(history, b.place[n := place], b.carries)
    ensures Scored(b.place[n := place], b.cashed, b.blue, b.green)
  {}

  lemma IsCarried(history: map<nat, Find>, place: map<nat, Place>, carries: set<Carry>, n: nat, team: Team)
    requires Remembered(history, place, carries) && n in history
    ensures Remembered(history[n := history[n].(teams := history[n].teams + {team})], place, carries + {Carry(n, team)})
  {}

  lemma HandsOver(
      ground: map<nat, Diamond>, carriers: map<nat, nat>, place: map<nat, Place>, serial: nat, e: nat, p: nat)
    requires Placed(ground, carriers, place, serial) && e in ground && p !in carriers
    ensures var n := ground[e].serial;
            n in place && Placed(ground - {e}, carriers[p := n], place[n := Hands(p)], serial)
  {}

  lemma LaysDown(ground: map<nat, Diamond>, carriers: map<nat, nat>, place: map<nat, Place>, serial: nat,
                 p: nat, e: nat, d: Diamond)
    requires Placed(ground, carriers, place, serial) && p in carriers && e !in ground && d.serial == carriers[p]
    ensures d.serial in place && Placed(ground[e := d], carriers - {p}, place[d.serial := Ground(e)], serial + 1)
  {}

  lemma LeavesGround(ground: map<nat, Diamond>, carriers: map<nat, nat>, place: map<nat, Place>, serial: nat,
                     e: nat, fate: Place)
    requires Placed(ground, carriers, place, serial) && e in ground && !InPlay(fate)
    ensures ground[e].serial in place && Placed(ground - {e}, carriers, place[ground[e].serial := fate], serial)
  {}

  lemma LeavesHands(ground: map<nat, Diamond>, carriers: map<nat, nat>, place: map<nat, Place>, serial: nat,
                    p: nat, fate: Place)
    requires Placed(ground, carriers, place, serial) && p in carriers && !InPlay(fate)
    ensures carriers[p] in place && Placed(ground, carriers - {p}, place[carriers[p] := fate], serial)
  {}

  lemma IsForgotten(history: map<nat, Find>, place: map<nat, Place>, carries: set<Carry>, n: nat, fate: Place)
    requires Remembered(history, place, carries) && n in place && !InPlay(fate)
    ensures Remembered(history - {n}, place[n := fate], carries)
  {}

  lemma IsScored(b: Book, n: nat, fate: Place)
    requires Scored(b.place, b.cashed, b.blue, b.green) && n in b.place && InPlay(b.place[n]) && !InPlay(fate)
    requires fate.Cashed? ==> Playable(fate.team)
    ensures var c := Closed(b, n, fate); Scored(c.place, c.cashed, c.blue, c.green)
  {}

  lemma PickUpKeepsInv(s: State, player: nat, entity: nat, team: Team, limit: nat)
    requires Inv(s, limit) && player !in s.carriers && entity in s.ground
    ensures Inv(PickedUp(s, player, entity, team), limit)
  {
    OneFewer(s.ground, entity);
    HandsOver(s.ground, s.carriers, s.book.place, s.serial, entity, player);
    var n := s.ground[entity].serial;
    StaysInPlay(s.history, s.book, n, Hands(player));
    IsCarried(s.history, s.book.place[n := Hands(player)], s.book.carries, n, team);
  }

  lemma StaysAsMany(ground: map<nat, Diamond>, carriers: map<nat, nat>, p: nat, e: nat, d: Diamond)
    requires p in carriers && e !in ground
    ensures |ground[e := d]| + |carriers - {p}| == |ground| + |carriers|
  {
    OneFewer(carriers, p);
  }

  lemma DropKeepsInv(s: State, player: nat, entity: nat, team: Team, now: real, lifetime: real, limit: nat)
    requires Inv(s, limit) && player in s.carriers && entity !in s.ground
    ensures Inv(Dropped(s, player, entity, team, now, lifetime), limit)
  {
    var n := s.carriers[player];
    var d := Diamond(n, now + lifetime, now + NO_PICKUP_AFTER_DROP_TIME, Some(team));
    StaysAsMany(s.ground, s.carriers, player, entity, d);
    LaysDown(s.ground, s.carriers, s.book.place, s.serial, player, entity, d);
    StaysInPlay(s.history, s.book, n, Ground(entity));
    var t := Dropped(s, player, entity, team, now, lifetime);
    assert t.ground == s.ground[entity := d] && t.carriers == s.carriers - {player};
    assert t.book.place == s.book.place[n := Ground(entity)];
    assert Placed(t.ground, t.carriers, t.book.place, t.serial);
    assert Remembered(t.history, t.book.place, t.book.carries);
    assert Scored(t.book.place, t.book.cashed, t.book.blue, t.book.green);
  }

  lemma LeavingGroundKeepsInv(s: State, entity: nat, fate: Place, limit: nat)
    requires Inv(s, limit) && entity in s.ground && !InPlay(fate) && (fate.Cashed? ==> Playable(fate.team))
    ensures Inv(TakenFromGround(s, entity, fate), limit)
  {
    var n := s.ground[entity].serial;
    OneFewer(s.ground, entity);
    LeavesGround(s.ground, s.carriers, s.book.place, s.serial, entity, fate);
    IsForgotten(s.history, s.book.place, s.book.carries, n, fate);
    IsScored(s.book, n, fate);
  }

  lemma LeavingCarrierKeepsInv(s: State, player: nat, fate: Place, limit: nat)
    requires Inv(s, limit) && player in s.carriers && !InPlay(fate) && (fate.Cashed? ==> Playable(fate.team))
    ensures Inv(TakenFromCarrier(s, player, fate), limit)
  {
    var n := s.carriers[player];
    OneFewer(s.carriers, player);
    LeavesHands(s.ground, s.carriers, s.book.place, s.serial, player, fate);
    IsForgotten(s.history, s.book.place, s.book.carries, n, fate);
    IsScored(s.book, n, fate);
  }

  lemma NextKeepsInv(s: State, e: Event, limit: nat)
    requires Inv(s, limit) && Enabled(s, e, limit)
    ensures Inv(Next(s, e, limit), limit)
  {
    match e
    case Uncover(entity, finder, now, lifetime) => UncoverKeepsInv(s, entity, finder, now, lifetime, limit);
    case PickUp(player, entity, team) => PickUpKeepsInv(s, player, entity, team, limit);
    case CashIn(player, team) => LeavingCarrierKeepsInv(s, player, Cashed(team), limit);
    case CashLoose(entity) => LeavingGroundKeepsInv(s, entity, Cashed(s.ground[entity].lastTeam.value), limit);
    case Drop(player, entity, team, now, lifetime) => DropKeepsInv(s, player, entity, team, now, lifetime, limit);
    case Discard(player) => LeavingCarrierKeepsInv(s, player, Discarded, limit);
    case Expire(entity) => LeavingGroundKeepsInv(s, entity, Expired, limit);
  }

  /** Over any match: one place or one fate for every diamond, unique serial numbers, bounded play, true scores. */
  lemma {:induction false} EveryMatchConserves(s: State, events: seq<Event>, limit: nat)
    requires Inv(s, limit) && EnabledRun(s, events, limit)
    ensures Inv(Run(s, events, limit), limit)
    decreases |events|
  {
    if events != [] {
      NextKeepsInv(s, events[0], limit);
      EveryMatchConserves(Next(s, events[0], limit), events[1..], limit);
    }
  }

  /** The one diamond an event moves. */
  function Mover(s: State, e: Event, limit: nat): nat
    requires Enabled(s, e, limit)
  {
    match e
    case Uncover(_, _, _, _) => s.serial
    case PickUp(_, entity, _) => s.ground[entity].serial
    case CashIn(player, _) => s.carriers[player]
    case CashLoose(entity) => s.ground[entity].serial
    case Drop(player, _, _, _, _) => s.carriers[player]
    case Discard(player) => s.carriers[player]
    case Expire(entity) => s.ground[entity].serial
  }

  /** One event moves one diamond, */
  lemma OneMove(s: State, e: Event, limit: nat, m: nat)
    requires Enabled(s, e, limit) && m != Mover(s, e, limit) && m in s.book.place
    ensures var t := Next(s, e, limit); m in t.book.place && t.book.place[m] == s.book.place[m]
  {
    var place := Next(s, e, limit).book.place;
    match e {
      case Uncover(entity, _, _, _) => assert place == s.book.place[s.serial := Ground(entity)];
      case PickUp(player, entity, _) => assert place == s.book.place[s.ground[entity].serial := Hands(player)];
      case CashIn(player, team) => assert place == s.book.place[s.carriers[player] := Cashed(team)];
      case CashLoose(entity) =>
        assert place == s.book.place[s.ground[entity].serial := Cashed(s.ground[entity].lastTeam.value)];
      case Drop(player, entity, _, _, _) => assert place == s.book.place[s.carriers[player] := Ground(entity)];
      case Discard(player) => assert place == s.book.place[s.carriers[player] := Discarded];
      case Expire(entity) => assert place == s.book.place[s.ground[entity].serial := Expired];
    }
  }

  /** and only one that is in play. */
  lemma MoverIsInPlay(s: State, e: Event, limit: nat)
    requires Placed(s.ground, s.carriers, s.book.place, s.serial) && Enabled(s, e, limit)
    ensures var n := Mover(s, e, limit); n in s.book.place ==> InPlay(s.book.place[n])
  {}

  /** A fate is final: a diamond once cashed in, expired or discarded never comes back into play. */
  lemma {:induction false} FateIsFinal(s: State, events: seq<Event>, limit: nat, n: nat)
    requires Inv(s, limit) && EnabledRun(s, events, limit) && n in s.book.place && !InPlay(s.book.place[n])
    ensures var t := Run(s, events, limit); n in t.book.place && t.book.place[n] == s.book.place[n]
    decreases |events|
  {
    if events != [] {
      NextKeepsInv(s, events[0], limit);
      MoverIsInPlay(s, events[0], limit);
      OneMove(s, events[0], limit, n);
      FateIsFinal(Next(s, events[0], limit), events[1..], limit, n);
    }
  }

  /** No serial number is ever in two places. */
  lemma SerialsAreUnique(s: State, limit: nat)
    requires Inv(s, limit)
    ensures forall e, f :: e in s.ground && f in s.ground && s.ground[e].serial == s.ground[f].serial ==> e == f
    ensures forall p, q :: p in s.carriers && q in s.carriers && s.carriers[p] == s.carriers[q] ==> p == q
    ensures forall e, p :: e in s.ground && p in s.carriers ==> s.ground[e].serial != s.carriers[p]
  {}

  /** What the steal total is paid on: the history names an enemy team exactly when one has carried the diamond. */
  lemma StolenWhenTheEnemyCarriedIt(events: seq<Event>, serial: nat, limit: nat, n: nat, team: Team)
    requires EnabledRun(Start(serial), events, limit)
    requires var s := Run(Start(serial), events, limit); n in s.book.place && InPlay(s.book.place[n])
    ensures var s := Run(Start(serial), events, limit);
            n in s.history &&
            ((exists t :: t in s.history[n].teams && t != team) <==>
             (exists c :: c in s.book.carries && c.serial == n && c.team != team))
  {
    assert Inv(Start(serial), limit);
    EveryMatchConserves(Start(serial), events, limit);
    var s := Run(Start(serial), events, limit);
    NamesTheEnemy(s, n, team);
  }

  lemma NamesTheEnemy(s: State, n: nat, team: Team)
    requires Remembered(s.history, s.book.place, s.book.carries) && n in s.history
    ensures (exists t :: t in s.history[n].teams && t != team) <==>
            (exists c :: c in s.book.carries && c.serial == n && c.team != team)
  {
    if t :| t in s.history[n].teams && t != team {
      assert Carry(n, t) in s.book.carries;
    }
    if c :| c in s.book.carries && c.serial == n && c.team != team {
      assert c == Carry(n, c.team);
    }
  }

  lemma {:induction false} RunThenOne(s: State, events: seq<Event>, e: Event, limit: nat)
    requires EnabledRun(s, events, limit) && Enabled(Run(s, events, limit), e, limit)
    ensures EnabledRun(s, events + [e], limit)
    ensures Run(s, events + [e], limit) == Next(Run(s, events, limit), e, limit)
    decreases |events|
  {
    if events == [] {
      assert events + [e] == [e];
      var t := Next(s, e, limit);
      assert EnabledRun(t, [e][1..], limit) && Run(t, [e][1..], limit) == t;
    } else {
      assert (events + [e])[1..] == events[1..] + [e];
      RunThenOne(Next(s, events[0], limit), events[1..], e, limit);
    }
  }

  /** `t` is what the events make of `s`, each of them enabled in its turn. */
  ghost predicate Follows(s: State, t: State, events: seq<Event>, limit: nat) {
    EnabledRun(s, events, limit) && Run(s, events, limit) == t
  }

  lemma FollowsOneMore(s: State, t: State, events: seq<Event>, e: Event, limit: nat)
    requires Follows(s, t, events, limit) && Enabled(t, e, limit)
    ensures Follows(s, Next(t, e, limit), events + [e], limit)
  {
    RunThenOne(s, events, e, limit);
  }

  lemma FollowsPickUp(s: State, t: State, events: seq<Event>, player: nat, entity: nat, team: Team, limit: nat)
    requires Follows(s, t, events, limit) && player !in t.carriers && entity in t.ground
    ensures Follows(s, PickedUp(t, player, entity, team), events + [PickUp(player, entity, team)], limit)
  {
    FollowsOneMore(s, t, events, PickUp(player, entity, team), limit);
  }

  lemma FollowsCashIn(s: State, t: State, events: seq<Event>, player: nat, team: Team, limit: nat)
    requires Follows(s, t, events, limit) && player in t.carriers && Playable(team)
    ensures Follows(s, TakenFromCarrier(t, player, Cashed(team)), events + [CashIn(player, team)], limit)
  {
    FollowsOneMore(s, t, events, CashIn(player, team), limit);
  }

  lemma FollowsCashLoose(s: State, t: State, events: seq<Event>, entity: nat, limit: nat)
    requires Follows(s, t, events, limit) && Enabled(t, CashLoose(entity), limit)
    ensures Follows(s, TakenFromGround(t, entity, Cashed(t.ground[entity].lastTeam.value)),
                    events + [CashLoose(entity)], limit)
  {
    FollowsOneMore(s, t, events, CashLoose(entity), limit);
  }

  lemma FollowsExpire(s: State, t: State, events: seq<Event>, entity: nat, limit: nat)
    requires Follows(s, t, events, limit) && entity in t.ground
    ensures Follows(s, TakenFromGround(t, entity, Expired), events + [Expire(entity)], limit)
  {
    FollowsOneMore(s, t, events, Expire(entity), limit);
  }

  lemma FollowsDiscard(s: State, player: nat, limit: nat)
    requires player in s.carriers
    ensures Follows(s, TakenFromCarrier(s, player, Discarded), [Discard(player)], limit)
  {
    FollowsOneMore(s, s, [], Discard(player), limit);
  }

  lemma FollowsDrop(s: State, player: nat, entity: nat, team: Team, now: real, lifetime: real, limit: nat)
    requires player in s.carriers && entity !in s.ground
    ensures Follows(s, Dropped(s, player, entity, team, now, lifetime),
                    [Drop(player, entity, team, now, lifetime)], limit)
  {
    FollowsOneMore(s, s, [], Drop(player, entity, team, now, lifetime), limit);
  }

  lemma FollowsNothing(s: State, limit: nat)
    ensures Follows(s, s, [], limit)
  {}
}

/** The cash-in volumes: which are open, how much each still takes, and which opens next. */
module DiamondDropoffs {
  import opened Teams
  import opened Sizes
  import Arithmetic

  class Dropoff {
    const team: Team
    const capacity: nat
    var remaining: int
    var active: bool

    constructor (team: Team, capacity: int)
      ensures this.team == team && this.capacity == (if capacity > 1 then capacity else 1)
      ensures remaining == this.capacity && !active
    {
      this.team := team;
      this.capacity := if capacity > 1 then capacity else 1;
      remaining := if capacity > 1 then capacity else 1;
      active := false;
    }
  }

  predicate Distinct<T(==)>(s: seq<T>) {
    forall i, j :: 0 <= i < j < |s| ==> s[i] != s[j]
  }

  function Without(s: seq<Dropoff>, d: Dropoff): (r: seq<Dropoff>)
    ensures forall i :: 0 <= i < |r| ==> r[i] in s && r[i] != d
    ensures forall i :: 0 <= i < |s| && s[i] != d ==> s[i] in r
  {
    if s == [] then [] else if s[0] == d then Without(s[1..], d) else [s[0]] + Without(s[1..], d)
  }

  lemma {:induction false} WithoutDistinct(s: seq<Dropoff>, d: Dropoff)
    requires Distinct(s)
    ensures Distinct(Without(s, d)) && |Without(s, d)| == if d in s then |s| - 1 else |s|
  {
    if s != [] {
      WithoutDistinct(s[1..], d);
      if s[0] == d {
        assert d !in s[1..];
      }
    }
  }

  /** The next `count` ones around the circle from `cursor` on. */
  function Around(all: seq<Dropoff>, cursor: nat, count: nat): (r: seq<Dropoff>)
    requires all != []
    ensures |r| == count && forall k :: 0 <= k < count ==> r[k] == all[(cursor + k) % |all|]
  {
    seq(count, k requires 0 <= k < count => all[(cursor + k) % |all|])
  }

  /** Which drop-offs are open, in order, and how much each one still takes. */
  datatype Board = Board(open: seq<Dropoff>, stock: map<Dropoff, int>)

  /** The right number of distinct drop-offs is open, none of them with more than it can take. */
  ghost predicate Sound(all: seq<Dropoff>, b: Board, maxOpen: nat) {
    && Distinct(all) && Distinct(b.open) && maxOpen >= 1 && |b.open| == Min(maxOpen, |all|)
    && (forall d :: d in all ==> d.capacity >= 1)
    && (forall d :: d in b.open ==> d in all && d in b.stock && 0 <= b.stock[d] <= d.capacity)
  }

  /** Every open drop-off still takes a diamond. */
  ghost predicate AllStocked(b: Board) {
    forall d :: d in b.open ==> d in b.stock && 1 <= b.stock[d] <= d.capacity
  }

  /** The first drop-off in order that is not open, other than the exhausted one; that one itself when there is none. */
  function FirstClosed(all: seq<Dropoff>, open: seq<Dropoff>, exhausted: Dropoff): Dropoff {
    if all == [] then exhausted
    else if all[0] !in open && all[0] != exhausted then all[0]
    else FirstClosed(all[1..], open, exhausted)
  }

  lemma {:induction false} FirstClosedIsFirst(all: seq<Dropoff>, open: seq<Dropoff>, exhausted: Dropoff)
    ensures var r := FirstClosed(all, open, exhausted);
            if r == exhausted then forall d :: d in all ==> d in open || d == exhausted
            else exists k :: 0 <= k < |all| && all[k] == r && r !in open &&
                             forall j :: 0 <= j < k ==> all[j] in open || all[j] == exhausted
  {
    if all != [] && !(all[0] !in open && all[0] != exhausted) {
      FirstClosedIsFirst(all[1..], open, exhausted);
      var r := FirstClosed(all, open, exhausted);
      if r != exhausted {
        var k :| 0 <= k < |all[1..]| && all[1..][k] == r &&
                 forall j :: 0 <= j < k ==> all[1..][j] in open || all[1..][j] == exhausted;
        assert all[k + 1] == r;
        forall j | 0 <= j < k + 1 ensures all[j] in open || all[j] == exhausted {
          if j > 0 { assert all[j] == all[1..][j - 1]; }
        }
      }
    }
  }

  lemma {:induction false} FirstClosedIsOneOf(all: seq<Dropoff>, open: seq<Dropoff>, exhausted: Dropoff)
    ensures FirstClosed(all, open, exhausted) in all + [exhausted]
  {
    if all != [] {
      FirstClosedIsOneOf(all[1..], open, exhausted);
    }
  }

  /** The exhausted drop-off makes room for the first closed one, which opens full, at the end of the list. */
  function Rotated(all: seq<Dropoff>, b: Board, exhausted: Dropoff): Board {
    var open := Without(b.open, exhausted);
    var r := FirstClosed(all, open, exhausted);
    Board(open + [r], b.stock[r := r.capacity])
  }

  /** One diamond goes into `d`; unless the match is over, a full drop-off is replaced. */
  function Took(all: seq<Dropoff>, b: Board, d: Dropoff, over: bool): Board
    requires d in b.stock
  {
    var c := b.(stock := b.stock[d := b.stock[d] - 1]);
    if over || c.stock[d] > 0 then c else Rotated(all, c, d)
  }

  /**
   * A diamond uses up one place of the drop-off it goes into, and no other open drop-off loses its place or any
   * of its stock. The last place of a drop-off opens a closed one, full, or the same again when all were open.
   */
  lemma TookOnePlace(all: seq<Dropoff>, b: Board, d: Dropoff, over: bool)
    requires Distinct(b.open) && d in b.open && d in all && (forall x :: x in b.open ==> x in b.stock)
    ensures var c := Took(all, b, d, over);
            && |c.open| == |b.open|
            && (forall x :: x in b.open && x != d ==> x in c.open && c.stock[x] == b.stock[x])
            && (over || b.stock[d] > 1 ==> c.open == b.open && c.stock[d] == b.stock[d] - 1)
            && (!over && b.stock[d] <= 1 ==>
                  var r := c.open[|c.open| - 1];
                  && c.stock[r] == r.capacity && r in all && (r == d || r !in b.open)
                  && (r == d <==> forall x :: x in all ==> x in b.open)
                  && (d in c.open <==> r == d))
  {
    if !over && b.stock[d] <= 1 {
      WithoutDistinct(b.open, d);
      FirstClosedIsFirst(all, Without(b.open, d), d);
    }
  }

  lemma RotatedKeepsSound(all: seq<Dropoff>, b: Board, d: Dropoff, maxOpen: nat)
    requires Sound(all, b, maxOpen) && d in b.open
    ensures Sound(all, Rotated(all, b, d), maxOpen)
    ensures var r := FirstClosed(all, Without(b.open, d), d); r in all && r !in Without(b.open, d)
  {
    WithoutDistinct(b.open, d);
    FirstClosedIsFirst(all, Without(b.open, d), d);
  }

  lemma TookKeepsSound(all: seq<Dropoff>, b: Board, d: Dropoff, over: bool, maxOpen: nat)
    requires Sound(all, b, maxOpen) && d in b.open && b.stock[d] > 0
    ensures Sound(all, Took(all, b, d, over), maxOpen)
    ensures AllStocked(b) ==> (AllStocked(Took(all, b, d, over)) <==> !over || b.stock[d] > 1)
  {
    var c := b.(stock := b.stock[d := b.stock[d] - 1]);
    assert Sound(all, c, maxOpen);
    if !over && b.stock[d] == 1 {
      RotatedKeepsSound(all, c, d, maxOpen);
    }
  }

  class DropoffBoard {
    const maxActiveBases: nat
    var dropoffs: seq<Dropoff>
    var activeDropoffs: seq<Dropoff>
    var rotationCursor: nat

    ghost function View(): Board
      reads this`dropoffs, this`activeDropoffs, dropoffs`remaining
    {
      Board(activeDropoffs, map d | d in dropoffs :: d.remaining)
    }

    /** The right number of distinct drop-offs is open, and the flags say which. */
    ghost predicate Valid()
      reads this, dropoffs
    {
      Sound(dropoffs, View(), maxActiveBases) && Flagged() && (dropoffs == [] || rotationCursor < |dropoffs|)
    }

    ghost predicate Flagged()
      reads this`dropoffs, this`activeDropoffs, dropoffs`active
    {
      forall d :: d in dropoffs ==> (d.active <==> d in activeDropoffs)
    }

    ghost predicate Stocked()
      reads this`dropoffs, this`activeDropoffs, dropoffs`remaining
    {
      AllStocked(View())
    }

    constructor (maxActiveBases: nat, dropoffs: seq<Dropoff>)
      requires maxActiveBases >= 1 && Distinct(dropoffs)
      requires forall d :: d in dropoffs ==> d.capacity >= 1 && !d.active
      modifies dropoffs
      ensures Valid() && Stocked() && this.maxActiveBases == maxActiveBases && this.dropoffs == dropoffs
    {
      this.maxActiveBases, this.dropoffs, this.activeDropoffs, this.rotationCursor := maxActiveBases, dropoffs, [], 0;
      new;
      ActivateNextDropoffs();
    }

    /** Modular selection from the cursor: the next ones around the circle, all different. */
    method SelectNext() returns (selected: seq<Dropoff>)
      requires Distinct(dropoffs) && dropoffs != []
      ensures selected == Around(dropoffs, rotationCursor, Min(maxActiveBases, |dropoffs|)) && Distinct(selected)
      ensures forall d :: d in selected ==> d in dropoffs
    {
      var n := |dropoffs|;
      var count := Min(maxActiveBases, n);
      selected := [];
      var offset := 0;
      while offset < count
        invariant offset <= count && |selected| == offset
        invariant forall k :: 0 <= k < offset ==> selected[k] == dropoffs[(rotationCursor + k) % n]
      {
        selected := selected + [dropoffs[(rotationCursor + offset) % n]];
        offset := offset + 1;
      }
      forall i, j | 0 <= i < j < count ensures selected[i] != selected[j] {
        Arithmetic.StepsAreDistinct(rotationCursor, i, j, n);
      }
    }

    method ActivateNextDropoffs()
      requires Distinct(dropoffs) && maxActiveBases >= 1 && (dropoffs == [] ==> activeDropoffs == [])
      requires forall d :: d in dropoffs ==> d.capacity >= 1 && (d.active ==> d in activeDropoffs)
      requires forall d :: d in activeDropoffs ==> d in dropoffs
      modifies this`activeDropoffs, this`rotationCursor, dropoffs`active, dropoffs`remaining
      ensures Valid() && Stocked()
      ensures dropoffs != [] ==>
                activeDropoffs == Around(dropoffs, old(rotationCursor), Min(maxActiveBases, |dropoffs|))
      ensures forall d :: d in activeDropoffs ==> d.remaining == d.capacity
    {
      if dropoffs == [] {
        return;
      }
      Close();
      OpenNext();
    }

    method OpenNext()
      requires Distinct(dropoffs) && maxActiveBases >= 1 && dropoffs != []
      requires forall d :: d in dropoffs ==> d.capacity >= 1 && !d.active
      modifies this`activeDropoffs, this`rotationCursor, dropoffs`active, dropoffs`remaining
      ensures Valid() && Stocked()
      ensures activeDropoffs == Around(dropoffs, old(rotationCursor), Min(maxActiveBases, |dropoffs|))
      ensures forall d :: d in activeDropoffs ==> d.remaining == d.capacity
    {
      var selected := SelectNext();
      rotationCursor := (rotationCursor + |selected|) % |dropoffs|;
      Open(selected);
      Enlist(selected);
    }

    method Enlist(selected: seq<Dropoff>)
      requires Distinct(dropoffs) && Distinct(selected) && |selected| == Min(maxActiveBases, |dropoffs|)
      requires maxActiveBases >= 1 && dropoffs != [] && rotationCursor < |dropoffs|
      requires forall d :: d in dropoffs ==> d.capacity >= 1 && (d.active <==> d in selected)
      requires forall d :: d in selected ==> d in dropoffs && d.remaining == d.capacity
      modifies this`activeDropoffs
      ensures Valid() && Stocked() && activeDropoffs == selected
    {
      activeDropoffs := selected;
    }

    method Open(selected: seq<Dropoff>)
      requires forall d :: d in dropoffs ==> !d.active
      requires forall k :: 0 <= k < |selected| ==> selected[k] in dropoffs
      modifies dropoffs`active, dropoffs`remaining
      ensures forall d :: d in dropoffs ==> (d.active <==> d in selected)
      ensures forall d :: d in selected ==> d.remaining == d.capacity
    {
      var i := 0;
      while i < |selected|
        invariant 0 <= i <= |selected|
        invariant forall d :: d in dropoffs ==> (d.active <==> d in selected[..i])
        invariant forall d :: d in selected[..i] ==> d.remaining == d.capacity
        modifies dropoffs`active, dropoffs`remaining
      {
        assert selected[..i + 1] == selected[..i] + [selected[i]];
        selected[i].active := true;
        selected[i].remaining := selected[i].capacity;
        i := i + 1;
      }
      assert selected[..i] == selected;
    }

    method Close()
      requires forall d :: d in dropoffs && d.active ==> d in activeDropoffs
      requires forall d :: d in activeDropoffs ==> d in dropoffs
      modifies dropoffs`active
      ensures forall d :: d in dropoffs ==> !d.active
    {
      var i := 0;
      while i < |activeDropoffs|
        invariant 0 <= i <= |activeDropoffs|
        invariant forall d :: d in dropoffs && d.active ==> d in activeDropoffs[i..]
        modifies dropoffs`active
      {
        assert activeDropoffs[i] in activeDropoffs;
        activeDropoffs[i].active := false;
        i := i + 1;
      }
    }

    /** The first closed drop-off other than the exhausted one, which takes its own place when there is none. */
    method Replacement(exhausted: Dropoff) returns (r: Dropoff)
      requires Flagged()
      ensures r == FirstClosed(dropoffs, activeDropoffs, exhausted)
    {
      assert dropoffs[0..] == dropoffs;
      var i := 0;
      while i < |dropoffs|
        invariant 0 <= i <= |dropoffs|
        invariant FirstClosed(dropoffs[i..], activeDropoffs, exhausted) ==
                  FirstClosed(dropoffs, activeDropoffs, exhausted)
      {
        assert dropoffs[i..][0] == dropoffs[i] && dropoffs[i..][1..] == dropoffs[i + 1..];
        if !dropoffs[i].active && dropoffs[i] != exhausted {
          return dropoffs[i];
        }
        i := i + 1;
      }
      r := exhausted;
    }

    method RotateDropoff(exhausted: Dropoff)
      requires Flagged() && exhausted in dropoffs
      modifies this`activeDropoffs, dropoffs`active, dropoffs`remaining
      ensures Flagged() && View() == Rotated(dropoffs, old(View()), exhausted)
    {
      CloseOne(exhausted);
      var r := Replacement(exhausted);
      FirstClosedIsOneOf(dropoffs, activeDropoffs, exhausted);
      OpenOne(r);
    }

    method CloseOne(exhausted: Dropoff)
      requires Flagged() && exhausted in dropoffs
      modifies this`activeDropoffs, exhausted`active
      ensures activeDropoffs == Without(old(activeDropoffs), exhausted) && Flagged()
    {
      exhausted.active := false;
      activeDropoffs := Without(activeDropoffs, exhausted);
    }

    method OpenOne(r: Dropoff)
      requires Flagged() && r in dropoffs
      modifies this`activeDropoffs, r`active, r`remaining
      ensures Flagged() && View() == Board(old(activeDropoffs) + [r], old(View()).stock[r := r.capacity])
    {
      r.active := true;
      r.remaining := r.capacity;
      activeDropoffs := activeDropoffs + [r];
    }

    /** One diamond goes in; unless the match is over, a full drop-off is replaced. */
    method Take(d: Dropoff, over: bool)
      requires Flagged() && d in dropoffs
      modifies this`activeDropoffs, dropoffs`active, dropoffs`remaining
      ensures Flagged() && View() == Took(dropoffs, old(View()), d, over)
    {
      PutIn(d);
      if !over && d.remaining <= 0 {
        RotateDropoff(d);
      }
    }

    method PutIn(d: Dropoff)
      requires d in dropoffs
      modifies d`remaining
      ensures View() == old(View()).(stock := old(View()).stock[d := d.remaining])
      ensures d.remaining == old(d.remaining) - 1
    {
      d.remaining := d.remaining - 1;
    }
  }
}

/** Diamond Mine: the hooks, proved against the ledger. */
module DiamondMine {
  import opened Wrappers
  import opened Teams
  import opened Roster
  import opened Choices
  import opened DiamondLedger
  import opened DiamondDropoffs

  const DIA_TIME_BETWEEN_DIAMOND_SPAWN := 15.0

  /** What the tick finds of one player: where they stand, and whether the pick-up tool accepts. */
  datatype Visit = Visit(
    player: Player, active: bool, reachable: set<nat>, zones: set<Dropoff>, pickUp: bool, drop: bool)

  /** The same, with the player's slot and side at that moment. */
  datatype Turn = Turn(
    id: nat, team: Team, active: bool, reachable: set<nat>, zones: set<Dropoff>, pickUp: bool, drop: bool)

  /** The whole match: the ledger, the drop-offs, and how it stands. */
  datatype Mine = Mine(ledger: State, board: Board, ended: bool, winner: Option<Team>)

  /** What does not change while it runs. */
  datatype Rules = Rules(all: seq<Dropoff>, maxOpen: nat, limit: nat, loose: bool, retiring: bool)

  /** The first of these drop-offs that takes a diamond for the team where it lies or stands. */
  function FirstTaking(open: seq<Dropoff>, stock: map<Dropoff, int>, team: Team, zones: set<Dropoff>): Option<Dropoff> {
    if open == [] then None
    else if Takes(open[0], stock, team, zones) then Some(open[0])
    else FirstTaking(open[1..], stock, team, zones)
  }

  predicate Takes(d: Dropoff, stock: map<Dropoff, int>, team: Team, zones: set<Dropoff>) {
    d in stock && stock[d] > 0 && (d.team == Neutral || d.team == team) && d in zones
  }

  lemma {:induction false} FirstTakingIsFirst(
      open: seq<Dropoff>, stock: map<Dropoff, int>, team: Team, zones: set<Dropoff>)
    ensures match FirstTaking(open, stock, team, zones)
            case None => forall d :: d in open ==> !Takes(d, stock, team, zones)
            case Some(d) =>
              Takes(d, stock, team, zones) &&
              exists k :: 0 <= k < |open| && open[k] == d &&
                          forall j :: 0 <= j < k ==> !Takes(open[j], stock, team, zones)
  {
    if open != [] && !Takes(open[0], stock, team, zones) {
      FirstTakingIsFirst(open[1..], stock, team, zones);
      var found := FirstTaking(open[1..], stock, team, zones);
      if found.Some? {
        var k :| 0 <= k < |open[1..]| && open[1..][k] == found.value &&
                 forall j :: 0 <= j < k ==> !Takes(open[1..][j], stock, team, zones);
        assert open[k + 1] == found.value;
        forall j | 0 <= j < k + 1 ensures !Takes(open[j], stock, team, zones) {
          if j > 0 { assert open[j] == open[1..][j - 1]; }
        }
      }
    }
  }

  /** The drop-off takes the diamond just scored in `ledger`; the match ends at the limit, once. */
  function Settled(r: Rules, m: Mine, ledger: State, team: Team, d: Dropoff): Mine
    requires d in m.board.stock
  {
    var over := Score(ledger.book, team) >= r.limit;
    var ends := over && !m.ended && !r.retiring;
    Mine(ledger, Took(r.all, m.board, d, over), m.ended || ends, if ends then Some(team) else m.winner)
  }

  /** The drop-off a resting diamond is scored in, if any. */
  function LooseDropoff(r: Rules, m: Mine, e: nat, zones: set<Dropoff>): Option<Dropoff> {
    if !r.loose || m.ended || e !in m.ledger.ground then None
    else
      match m.ledger.ground[e].lastTeam
      case None => None
      case Some(team) =>
        if !Playable(team) then None else FirstTaking(m.board.open, m.board.stock, team, zones)
  }

  lemma {:induction false} FirstTakingStocked(
      open: seq<Dropoff>, stock: map<Dropoff, int>, team: Team, zones: set<Dropoff>)
    ensures var d := FirstTaking(open, stock, team, zones);
            d.Some? ==> d.value in open && d.value in stock && stock[d.value] > 0
  {
    if open != [] && !Takes(open[0], stock, team, zones) {
      FirstTakingStocked(open[1..], stock, team, zones);
    }
  }

  function CashedLoose(r: Rules, m: Mine, e: nat, zones: set<Dropoff>): Mine {
    match LooseDropoff(r, m, e, zones)
    case None => m
    case Some(d) =>
      var team := m.ledger.ground[e].lastTeam.value;
      FirstTakingStocked(m.board.open, m.board.stock, team, zones);
      Settled(r, m, TakenFromGround(m.ledger, e, Cashed(team)), team, d)
  }

  // ----- The tick's first pass -----

  /** All of `es` but those that are left, each once. */
  ghost predicate InSomeOrder(order: seq<nat>, es: set<nat>, left: set<nat>) {
    Distinct(order) && left <= es && forall e :: e in order <==> e in es && e !in left
  }

  lemma OneMoreInOrder(order: seq<nat>, es: set<nat>, left: set<nat>, e: nat)
    requires InSomeOrder(order, es, left) && e in left
    ensures InSomeOrder(order + [e], es, left - {e})
  {}

  /** One ground diamond runs out of time, or is scored where it rests. */
  function Swept(r: Rules, m: Mine, e: nat, now: real, zones: set<Dropoff>): Mine {
    if m.ended || e !in m.ledger.ground then m
    else if now >= m.ledger.ground[e].expiresAt then m.(ledger := TakenFromGround(m.ledger, e, Expired))
    else CashedLoose(r, m, e, zones)
  }

  function SweepEvent(r: Rules, m: Mine, e: nat, now: real, zones: set<Dropoff>): seq<Event> {
    if m.ended || e !in m.ledger.ground then []
    else if now >= m.ledger.ground[e].expiresAt then [Expire(e)]
    else if LooseDropoff(r, m, e, zones).Some? then [CashLoose(e)] else []
  }

  function ZonesOf(restingIn: map<nat, set<Dropoff>>, e: nat): set<Dropoff> {
    if e in restingIn then restingIn[e] else {}
  }

  function SweptAll(r: Rules, m: Mine, order: seq<nat>, now: real, restingIn: map<nat, set<Dropoff>>): Mine {
    if order == [] then m
    else
      var n := |order| - 1;
      Swept(r, SweptAll(r, m, order[..n], now, restingIn), order[n], now, ZonesOf(restingIn, order[n]))
  }

  function SweepEvents(r: Rules, m: Mine, order: seq<nat>, now: real, restingIn: map<nat, set<Dropoff>>): seq<Event> {
    if order == [] then []
    else
      var n := |order| - 1;
      SweepEvents(r, m, order[..n], now, restingIn) +
      SweepEvent(r, SweptAll(r, m, order[..n], now, restingIn), order[n], now, ZonesOf(restingIn, order[n]))
  }

  /** A diamond on the ground stays as it is until its own turn. */
  lemma {:induction false} UntilItsTurn(
      r: Rules, m: Mine, order: seq<nat>, now: real, restingIn: map<nat, set<Dropoff>>, e: nat)
    ensures var t := SweptAll(r, m, order, now, restingIn);
            && (e in t.ledger.ground ==> e in m.ledger.ground && t.ledger.ground[e] == m.ledger.ground[e])
            && (e in m.ledger.ground && e !in order ==> e in t.ledger.ground)
  {
    if order != [] {
      UntilItsTurn(r, m, order[..|order| - 1], now, restingIn, e);
    }
  }

  lemma OneTurnTakes(r: Rules, m: Mine, f: nat, now: real, zones: set<Dropoff>, e: nat)
    ensures e in m.ledger.ground && e !in Swept(r, m, f, now, zones).ledger.ground <==>
            Expire(e) in SweepEvent(r, m, f, now, zones) || CashLoose(e) in SweepEvent(r, m, f, now, zones)
  {}

  /** It leaves the ground in a pass exactly by an event of its own. */
  lemma {:induction false} LeavesByItsEvent(
      r: Rules, m: Mine, order: seq<nat>, now: real, restingIn: map<nat, set<Dropoff>>, e: nat)
    ensures e in m.ledger.ground && e !in SweptAll(r, m, order, now, restingIn).ledger.ground <==>
            Expire(e) in SweepEvents(r, m, order, now, restingIn) ||
            CashLoose(e) in SweepEvents(r, m, order, now, restingIn)
  {
    if order != [] {
      var n := |order| - 1;
      LeavesByItsEvent(r, m, order[..n], now, restingIn, e);
      UntilItsTurn(r, m, order[..n], now, restingIn, e);
      UntilItsTurn(r, m, order, now, restingIn, e);
      OneTurnTakes(r, SweptAll(r, m, order[..n], now, restingIn), order[n], now, ZonesOf(restingIn, order[n]), e);
    }
  }

  /**
   * A diamond expires in a pass only if its time is over, and before that it leaves the ground only by being
   * scored where it rests.
   */
  lemma {:induction false} OnlyTheOverdueExpire(
      r: Rules, m: Mine, order: seq<nat>, now: real, restingIn: map<nat, set<Dropoff>>, e: nat)
    ensures var events := SweepEvents(r, m, order, now, restingIn);
            && (Expire(e) in events ==> e in m.ledger.ground && now >= m.ledger.ground[e].expiresAt)
            && (CashLoose(e) in events ==> e in m.ledger.ground && now < m.ledger.ground[e].expiresAt)
  {
    if order != [] {
      var n := |order| - 1;
      OnlyTheOverdueExpire(r, m, order[..n], now, restingIn, e);
      UntilItsTurn(r, m, order[..n], now, restingIn, e);
      EventOfOneTurn(r, SweptAll(r, m, order[..n], now, restingIn), order[n], now, ZonesOf(restingIn, order[n]), e);
    }
  }

  lemma EventOfOneTurn(r: Rules, m: Mine, f: nat, now: real, zones: set<Dropoff>, e: nat)
    ensures Expire(e) in SweepEvent(r, m, f, now, zones) ==>
              e == f && e in m.ledger.ground && now >= m.ledger.ground[e].expiresAt
    ensures CashLoose(e) in SweepEvent(r, m, f, now, zones) <==>
              e == f && IsScored(r, m, e, now, zones)
  {}

  /** A resting diamond is scored at its turn exactly when the match still runs and a drop-off takes it then. */
  lemma {:induction false} ScoredAtItsTurn(
      r: Rules, m: Mine, order: seq<nat>, now: real, restingIn: map<nat, set<Dropoff>>, k: nat)
    requires k < |order| && Distinct(order)
    ensures CashLoose(order[k]) in SweepEvents(r, m, order, now, restingIn) <==>
            IsScored(r, SweptAll(r, m, order[..k], now, restingIn), order[k], now, ZonesOf(restingIn, order[k]))
    decreases |order|
  {
    var n, e := |order| - 1, order[k];
    var last := SweptAll(r, m, order[..n], now, restingIn);
    EventOfOneTurn(r, last, order[n], now, ZonesOf(restingIn, order[n]), e);
    if k == n {
      NotBeforeItsTurn(r, m, order[..n], now, restingIn, e);
    } else {
      assert order[..n][..k] == order[..k];
      ScoredAtItsTurn(r, m, order[..n], now, restingIn, k);
      assert CashLoose(e) !in SweepEvent(r, last, order[n], now, ZonesOf(restingIn, order[n]));
    }
  }

  predicate IsScored(r: Rules, m: Mine, e: nat, now: real, zones: set<Dropoff>) {
    !m.ended && e in m.ledger.ground && now < m.ledger.ground[e].expiresAt && LooseDropoff(r, m, e, zones).Some?
  }

  lemma {:induction false} NotBeforeItsTurn(
      r: Rules, m: Mine, order: seq<nat>, now: real, restingIn: map<nat, set<Dropoff>>, e: nat)
    requires e !in order
    ensures CashLoose(e) !in SweepEvents(r, m, order, now, restingIn)
  {
    if order != [] {
      var n := |order| - 1;
      NotBeforeItsTurn(r, m, order[..n], now, restingIn, e);
      EventOfOneTurn(r, SweptAll(r, m, order[..n], now, restingIn), order[n], now, ZonesOf(restingIn, order[n]), e);
    }
  }

  /** What has had its turn in a pass that goes on is not past its time. */
  lemma {:induction false} NothingOverdueStays(
      r: Rules, m: Mine, order: seq<nat>, now: real, restingIn: map<nat, set<Dropoff>>, e: nat)
    requires e in order && !SweptAll(r, m, order, now, restingIn).ended
    ensures var t := SweptAll(r, m, order, now, restingIn);
            e in t.ledger.ground ==> now < t.ledger.ground[e].expiresAt
  {
    var n := |order| - 1;
    if e in order[..n] && !SweptAll(r, m, order[..n], now, restingIn).ended {
      NothingOverdueStays(r, m, order[..n], now, restingIn, e);
    }
  }

  /** The drop-off is one's own or everybody's, still takes a diamond, and this is where one is. */
  ghost predicate TakenHere(b: Board, team: Team, zones: set<Dropoff>) {
    exists d :: d in b.open && d in b.stock && b.stock[d] > 0 && d in zones && (d.team == team || d.team == Neutral)
  }

  /** A resting diamond scores exactly if the rules let it, for the team that dropped it, in a drop-off open to it. */
  lemma LooseScoresWhere(r: Rules, m: Mine, e: nat, zones: set<Dropoff>)
    requires e in m.ledger.ground && !m.ended
    ensures var last := m.ledger.ground[e].lastTeam;
            LooseDropoff(r, m, e, zones).Some? <==>
              r.loose && last.Some? && Playable(last.value) && TakenHere(m.board, last.value, zones)
  {
    var last := m.ledger.ground[e].lastTeam;
    if last.Some? {
      FirstTakingIsFirst(m.board.open, m.board.stock, last.value, zones);
    }
  }

  // ----- The players' turns -----

  /** The diamond the player picks up: the lowest in reach, if its delay is over and the tool accepts. */
  ghost function Pick(m: Mine, t: Turn, now: real): Option<nat> {
    if t.id in m.ledger.carriers then None
    else
      match Lowest(m.ledger.ground.Keys * t.reachable)
      case None => None
      case Some(e) => if now >= m.ledger.ground[e].pickupAfter && t.pickUp then Some(e) else None
  }

  ghost function Picked(m: Mine, t: Turn, now: real): Mine {
    match Pick(m, t, now)
    case None => m
    case Some(e) => m.(ledger := PickedUp(m.ledger, t.id, e, t.team))
  }

  /** The drop-off the player cashes in at. */
  function CashPoint(m: Mine, t: Turn): Option<Dropoff> {
    if t.id !in m.ledger.carriers || !t.drop then None
    else FirstTaking(m.board.open, m.board.stock, t.team, t.zones)
  }

  function Delivered(r: Rules, m: Mine, t: Turn): Mine {
    match CashPoint(m, t)
    case None => m
    case Some(d) =>
      FirstTakingStocked(m.board.open, m.board.stock, t.team, t.zones);
      Settled(r, m, TakenFromCarrier(m.ledger, t.id, Cashed(t.team)), t.team, d)
  }

  /** A carrier cashes in exactly where a drop-off is open to the team and the tool accepts. */
  lemma CashesInWhere(r: Rules, m: Mine, t: Turn)
    requires Playable(t.team)
    ensures CashPoint(m, t).Some? <==> t.id in m.ledger.carriers && t.drop && TakenHere(m.board, t.team, t.zones)
    ensures CashPoint(m, t).Some? ==>
              var after := Delivered(r, m, t);
              t.id !in after.ledger.carriers && OnePoint(m.ledger.book, after.ledger.book, t.team)
    ensures CashPoint(m, t).None? ==> Delivered(r, m, t) == m
  {
    FirstTakingIsFirst(m.board.open, m.board.stock, t.team, t.zones);
    FirstTakingStocked(m.board.open, m.board.stock, t.team, t.zones);
  }

  /** A player picks a diamond up, then cashes it in, perhaps both at once. */
  ghost function Visited(r: Rules, m: Mine, t: Turn, now: real): Mine {
    if m.ended || !t.active || !Playable(t.team) then m else Delivered(r, Picked(m, t, now), t)
  }

  ghost function VisitedAll(r: Rules, m: Mine, turns: seq<Turn>, now: real): Mine {
    if turns == [] then m
    else Visited(r, VisitedAll(r, m, turns[..|turns| - 1], now), turns[|turns| - 1], now)
  }

  /** A player without a diamond takes the lowest in reach, exactly when its delay is over and the tool accepts. */
  lemma PickIsTheLowest(m: Mine, t: Turn, now: real, e: nat)
    ensures Pick(m, t, now) == Some(e) <==>
            && t.id !in m.ledger.carriers && t.pickUp && e in m.ledger.ground && e in t.reachable
            && now >= m.ledger.ground[e].pickupAfter
            && forall f :: f in m.ledger.ground && f in t.reachable ==> e <= f
  {
    var es := m.ledger.ground.Keys * t.reachable;
    var low := Lowest(es);
    assert forall f :: f in es <==> f in m.ledger.ground && f in t.reachable;
  }

  /** A score at the limit, and nothing else, ends a match that runs and is not being replaced, for the scoring team. */
  lemma EndsAtTheLimit(r: Rules, m: Mine, ledger: State, team: Team, d: Dropoff)
    requires d in m.board.stock && !m.ended
    ensures var t := Settled(r, m, ledger, team, d);
            && t.ledger == ledger
            && (t.ended <==> Score(ledger.book, team) >= r.limit && !r.retiring)
            && t.winner == if t.ended then Some(team) else m.winner
  {}

  lemma {:induction false} TheEndStopsTheTurns(r: Rules, m: Mine, turns: seq<Turn>, now: real)
    requires m.ended
    ensures VisitedAll(r, m, turns, now) == m
  {
    if turns != [] {
      TheEndStopsTheTurns(r, m, turns[..|turns| - 1], now);
    }
  }

  lemma {:induction false} TurnsInTwo(r: Rules, m: Mine, first: seq<Turn>, second: seq<Turn>, now: real)
    ensures VisitedAll(r, m, first + second, now) == VisitedAll(r, VisitedAll(r, m, first, now), second, now)
  {
    if second == [] {
      assert first + second == first;
    } else {
      var n := |second| - 1;
      TurnsInTwo(r, m, first, second[..n], now);
      assert (first + second)[..|first| + n] == first + second[..n];
    }
  }

  /** The players' turns put nothing on the ground. */
  lemma {:induction false} TurnsOnlyTake(r: Rules, m: Mine, turns: seq<Turn>, now: real, e: nat)
    ensures var t := VisitedAll(r, m, turns, now);
            e in t.ledger.ground ==> e in m.ledger.ground && t.ledger.ground[e] == m.ledger.ground[e]
  {
    if turns != [] {
      TurnsOnlyTake(r, m, turns[..|turns| - 1], now, e);
    }
  }

  // ----- What every tick keeps -----

  function PickEvent(m: Mine, t: Turn, e: Option<nat>): seq<Event> {
    if e.Some? then [PickUp(t.id, e.value, t.team)] else []
  }

  ghost function VisitEvents(r: Rules, m: Mine, t: Turn, now: real): seq<Event> {
    if m.ended || !t.active || !Playable(t.team) then []
    else
      PickEvent(m, t, Pick(m, t, now)) +
      if CashPoint(Picked(m, t, now), t).Some? then [CashIn(t.id, t.team)] else []
  }

  ghost function TurnEvents(r: Rules, m: Mine, turns: seq<Turn>, now: real): seq<Event> {
    if turns == [] then []
    else
      var n := |turns| - 1;
      TurnEvents(r, m, turns[..n], now) + VisitEvents(r, VisitedAll(r, m, turns[..n], now), turns[n], now)
  }

  lemma FollowsBoth(s: State, t: State, u: State, first: seq<Event>, second: seq<Event>, limit: nat)
    requires Follows(s, t, first, limit) && Follows(t, u, second, limit)
    ensures Follows(s, u, first + second, limit)
    decreases |first|
  {
    if first == [] {
      assert first + second == second;
    } else {
      assert (first + second)[1..] == first[1..] + second;
      FollowsBoth(Next(s, first[0], limit), t, u, first[1..], second, limit);
    }
  }

  lemma FollowsOne(s: State, e: Event, limit: nat)
    requires Enabled(s, e, limit)
    ensures Follows(s, Next(s, e, limit), [e], limit)
  {
    FollowsNothing(s, limit);
    FollowsOneMore(s, s, [], e, limit);
    assert [] + [e] == [e];
  }

  lemma LooseIsEnabled(r: Rules, m: Mine, e: nat, zones: set<Dropoff>, limit: nat)
    requires LooseDropoff(r, m, e, zones).Some?
    ensures Enabled(m.ledger, CashLoose(e), limit)
    ensures CashedLoose(r, m, e, zones).ledger == Next(m.ledger, CashLoose(e), limit)
  {}

  lemma SweepFollows(r: Rules, m: Mine, e: nat, now: real, zones: set<Dropoff>, limit: nat)
    ensures Follows(m.ledger, Swept(r, m, e, now, zones).ledger, SweepEvent(r, m, e, now, zones), limit)
  {
    if m.ended || e !in m.ledger.ground {
      FollowsNothing(m.ledger, limit);
    } else if now >= m.ledger.ground[e].expiresAt {
      FollowsOne(m.ledger, Expire(e), limit);
    } else if LooseDropoff(r, m, e, zones).Some? {
      LooseIsEnabled(r, m, e, zones, limit);
      FollowsOne(m.ledger, CashLoose(e), limit);
    } else {
      FollowsNothing(m.ledger, limit);
    }
  }

  /** What the pass over the ground does to the ledger is the run of its events. */
  lemma {:induction false} SweepsFollow(
      r: Rules, m: Mine, order: seq<nat>, now: real, restingIn: map<nat, set<Dropoff>>, limit: nat)
    ensures Follows(m.ledger, SweptAll(r, m, order, now, restingIn).ledger,
                    SweepEvents(r, m, order, now, restingIn), limit)
  {
    if order == [] {
      FollowsNothing(m.ledger, limit);
    } else {
      var n := |order| - 1;
      var t := SweptAll(r, m, order[..n], now, restingIn);
      SweepsFollow(r, m, order[..n], now, restingIn, limit);
      SweepFollows(r, t, order[n], now, ZonesOf(restingIn, order[n]), limit);
      FollowsBoth(m.ledger, t.ledger, SweptAll(r, m, order, now, restingIn).ledger,
                  SweepEvents(r, m, order[..n], now, restingIn),
                  SweepEvent(r, t, order[n], now, ZonesOf(restingIn, order[n])), limit);
    }
  }

  lemma PickFollows(m: Mine, t: Turn, now: real, limit: nat)
    ensures Follows(m.ledger, Picked(m, t, now).ledger, PickEvent(m, t, Pick(m, t, now)), limit)
  {
    var e := Pick(m, t, now);
    if e.Some? {
      FollowsOne(m.ledger, PickUp(t.id, e.value, t.team), limit);
    } else {
      FollowsNothing(m.ledger, limit);
    }
  }

  lemma DeliveryFollows(r: Rules, m: Mine, t: Turn, limit: nat)
    requires Playable(t.team)
    ensures Follows(m.ledger, Delivered(r, m, t).ledger,
                    if CashPoint(m, t).Some? then [CashIn(t.id, t.team)] else [], limit)
  {
    if CashPoint(m, t).Some? {
      FollowsOne(m.ledger, CashIn(t.id, t.team), limit);
    } else {
      FollowsNothing(m.ledger, limit);
    }
  }

  lemma VisitFollows(r: Rules, m: Mine, t: Turn, now: real, limit: nat)
    ensures Follows(m.ledger, Visited(r, m, t, now).ledger, VisitEvents(r, m, t, now), limit)
  {
    if m.ended || !t.active || !Playable(t.team) {
      FollowsNothing(m.ledger, limit);
    } else {
      var p := Picked(m, t, now);
      PickFollows(m, t, now, limit);
      DeliveryFollows(r, p, t, limit);
      FollowsBoth(m.ledger, p.ledger, Delivered(r, p, t).ledger, PickEvent(m, t, Pick(m, t, now)),
                  if CashPoint(p, t).Some? then [CashIn(t.id, t.team)] else [], limit);
    }
  }

  lemma {:induction false} TurnsFollow(r: Rules, m: Mine, turns: seq<Turn>, now: real, limit: nat)
    ensures Follows(m.ledger, VisitedAll(r, m, turns, now).ledger, TurnEvents(r, m, turns, now), limit)
  {
    if turns == [] {
      FollowsNothing(m.ledger, limit);
    } else {
      var n := |turns| - 1;
      var t := VisitedAll(r, m, turns[..n], now);
      TurnsFollow(r, m, turns[..n], now, limit);
      VisitFollows(r, t, turns[n], now, limit);
      FollowsBoth(m.ledger, t.ledger, Visited(r, t, turns[n], now).ledger, TurnEvents(r, m, turns[..n], now),
                  VisitEvents(r, t, turns[n], now), limit);
    }
  }

  /** The whole tick, the pass over the ground in this order. */
  ghost function Ticked(
      r: Rules, m: Mine, order: seq<nat>, turns: seq<Turn>, now: real, restingIn: map<nat, set<Dropoff>>): Mine
  {
    VisitedAll(r, SweptAll(r, m, order, now, restingIn), turns, now)
  }

  ghost function TickEvents(
      r: Rules, m: Mine, order: seq<nat>, turns: seq<Turn>, now: real, restingIn: map<nat, set<Dropoff>>): seq<Event>
  {
    SweepEvents(r, m, order, now, restingIn) + TurnEvents(r, SweptAll(r, m, order, now, restingIn), turns, now)
  }

  lemma TickFollows(
      r: Rules, m: Mine, order: seq<nat>, turns: seq<Turn>, now: real, restingIn: map<nat, set<Dropoff>>, limit: nat)
    ensures Follows(m.ledger, Ticked(r, m, order, turns, now, restingIn).ledger,
                    TickEvents(r, m, order, turns, now, restingIn), limit)
  {
    var swept := SweptAll(r, m, order, now, restingIn);
    SweepsFollow(r, m, order, now, restingIn, limit);
    TurnsFollow(r, swept, turns, now, limit);
    FollowsBoth(m.ledger, swept.ledger, Ticked(r, m, order, turns, now, restingIn).ledger,
                SweepEvents(r, m, order, now, restingIn), TurnEvents(r, swept, turns, now), limit);
  }

  lemma {:induction false} TurnsExpireNothing(r: Rules, m: Mine, turns: seq<Turn>, now: real, e: nat)
    ensures Expire(e) !in TurnEvents(r, m, turns, now)
  {
    if turns != [] {
      TurnsExpireNothing(r, m, turns[..|turns| - 1], now, e);
    }
  }

  /** The board is stocked for as long as nobody has the points, and a match that goes on is such a one. */
  ghost predicate Fit(r: Rules, m: Mine) {
    && r.limit >= 1 && Sound(r.all, m.board, r.maxOpen)
    && (m.ledger.book.blue < r.limit && m.ledger.book.green < r.limit ==> AllStocked(m.board))
    && (!m.ended && !r.retiring ==> m.ledger.book.blue < r.limit && m.ledger.book.green < r.limit)
  }

  /** One more point for `team`, and nothing else about the scores. */
  predicate OnePoint(before: Book, after: Book, team: Team) {
    Playable(team) && Score(after, team) == Score(before, team) + 1 &&
    Score(after, Other(team)) == Score(before, Other(team))
  }

  lemma SettledKeepsFit(r: Rules, m: Mine, ledger: State, team: Team, d: Dropoff)
    requires Fit(r, m) && d in m.board.open && m.board.stock[d] > 0 && OnePoint(m.ledger.book, ledger.book, team)
    ensures Fit(r, Settled(r, m, ledger, team, d))
  {
    TookKeepsSound(r.all, m.board, d, Score(ledger.book, team) >= r.limit, r.maxOpen);
  }

  lemma LooseKeepsFit(r: Rules, m: Mine, e: nat, zones: set<Dropoff>)
    requires Fit(r, m)
    ensures Fit(r, CashedLoose(r, m, e, zones))
  {
    var d := LooseDropoff(r, m, e, zones);
    if d.Some? {
      var team := m.ledger.ground[e].lastTeam.value;
      FirstTakingStocked(m.board.open, m.board.stock, team, zones);
      SettledKeepsFit(r, m, TakenFromGround(m.ledger, e, Cashed(team)), team, d.value);
    }
  }

  lemma {:induction false} SweepsKeepFit(
      r: Rules, m: Mine, order: seq<nat>, now: real, restingIn: map<nat, set<Dropoff>>)
    requires Fit(r, m)
    ensures Fit(r, SweptAll(r, m, order, now, restingIn))
  {
    if order != [] {
      var n := |order| - 1;
      SweepsKeepFit(r, m, order[..n], now, restingIn);
      LooseKeepsFit(r, SweptAll(r, m, order[..n], now, restingIn), order[n], ZonesOf(restingIn, order[n]));
    }
  }

  lemma DeliveryKeepsFit(r: Rules, m: Mine, t: Turn)
    requires Fit(r, m) && Playable(t.team)
    ensures Fit(r, Delivered(r, m, t))
  {
    var d := CashPoint(m, t);
    if d.Some? {
      FirstTakingStocked(m.board.open, m.board.stock, t.team, t.zones);
      SettledKeepsFit(r, m, TakenFromCarrier(m.ledger, t.id, Cashed(t.team)), t.team, d.value);
    }
  }

  lemma {:induction false} TurnsKeepFit(r: Rules, m: Mine, turns: seq<Turn>, now: real)
    requires Fit(r, m)
    ensures Fit(r, VisitedAll(r, m, turns, now))
  {
    if turns != [] {
      var n := |turns| - 1;
      TurnsKeepFit(r, m, turns[..n], now);
      var t := VisitedAll(r, m, turns[..n], now);
      if !t.ended && turns[n].active && Playable(turns[n].team) {
        DeliveryKeepsFit(r, Picked(t, turns[n], now), turns[n]);
      }
    }
  }

  /** What a tick does is a run of the ledger, keeps the board right, and leaves nothing overdue on the ground. */
  lemma TickIsSound(
      r: Rules, m: Mine, order: seq<nat>, turns: seq<Turn>, now: real, restingIn: map<nat, set<Dropoff>>, limit: nat)
    requires Fit(r, m)
    ensures var t := Ticked(r, m, order, turns, now, restingIn);
            && Fit(r, t)
            && Follows(m.ledger, t.ledger, TickEvents(r, m, order, turns, now, restingIn), limit)
            && (forall e :: Expire(e) in TickEvents(r, m, order, turns, now, restingIn) ==>
                  e in m.ledger.ground && now >= m.ledger.ground[e].expiresAt)
            && (!t.ended && (forall e :: e in m.ledger.ground ==> e in order) ==>
                  forall e :: e in t.ledger.ground ==> now < t.ledger.ground[e].expiresAt)
  {
    forall e | Expire(e) in TickEvents(r, m, order, turns, now, restingIn)
      ensures e in m.ledger.ground && now >= m.ledger.ground[e].expiresAt
    {
      OnlyTheOverdueExpire(r, m, order, now, restingIn, e);
      TurnsExpireNothing(r, SweptAll(r, m, order, now, restingIn), turns, now, e);
    }
    var swept, t := SweptAll(r, m, order, now, restingIn), Ticked(r, m, order, turns, now, restingIn);
    TickFollows(r, m, order, turns, now, restingIn, limit);
    SweepsKeepFit(r, m, order, now, restingIn);
    TurnsKeepFit(r, swept, turns, now);
    if !t.ended && forall e :: e in m.ledger.ground ==> e in order {
      if swept.ended {
        TheEndStopsTheTurns(r, swept, turns, now);
      }
      forall e | e in t.ledger.ground ensures now < t.ledger.ground[e].expiresAt {
        TurnsOnlyTake(r, swept, turns, now, e);
        UntilItsTurn(r, m, order, now, restingIn, e);
        NothingOverdueStays(r, m, order, now, restingIn, e);
      }
    }
  }

  /** A dropped diamond on the ground, before it may be scored where it fell. */
  function Laid(m: Mine, player: nat, entity: nat, team: Team, now: real, lifetime: real): Mine
    requires player in m.ledger.carriers
  {
    m.(ledger := Dropped(m.ledger, player, entity, team, now, lifetime))
  }

  function ScoredAtOnce(r: Rules, laid: Mine, entity: nat, zones: set<Dropoff>): seq<Event> {
    if LooseDropoff(r, laid, entity, zones).Some? then [CashLoose(entity)] else []
  }

  /**
   * A dropped diamond is paid to the team it was dropped for, can be taken again once the delay is over, and
   * expires a lifetime after the drop; the rest of the ledger is as before.
   */
  lemma DroppedDiamond(r: Rules, m: Mine, id: nat, entity: nat, team: Team, now: real, lifetime: real, limit: nat)
    requires id in m.ledger.carriers && entity !in m.ledger.ground && Playable(team)
    ensures var t := Laid(m, id, entity, team, now, lifetime).ledger;
            && entity in t.ground && t.ground[entity].serial == m.ledger.carriers[id]
            && t.carriers == m.ledger.carriers - {id} && t.ground - {entity} == m.ledger.ground
            && OnePoint(t.book, Next(t, CashLoose(entity), limit).book, team)
  {
    var t := Laid(m, id, entity, team, now, lifetime).ledger;
    assert t.ground - {entity} == m.ledger.ground;
  }

  lemma DroppedDiamondInTime(r: Rules, m: Mine, id: nat, entity: nat, team: Team, now: real, lifetime: real,
                             t: Turn, later: real, zones: set<Dropoff>)
    requires id in m.ledger.carriers && entity !in m.ledger.ground
    ensures var laid := Laid(m, id, entity, team, now, lifetime);
            && (t.id !in laid.ledger.carriers && t.pickUp && laid.ledger.ground.Keys * t.reachable == {entity} ==>
                  Pick(laid, t, later) == if later >= now + NO_PICKUP_AFTER_DROP_TIME then Some(entity) else None)
            && (!m.ended ==>
                  (SweepEvent(r, laid, entity, later, zones) == [Expire(entity)] <==> later >= now + lifetime))
  {}

  /** An uncovered diamond can be taken at once by either team, expires a lifetime later, and pays nobody as it lies. */
  lemma UncoveredDiamond(r: Rules, m: Mine, entity: nat, finder: Player, now: real, lifetime: real, t: Turn,
                         later: real, zones: set<Dropoff>)
    requires entity !in m.ledger.ground && !m.ended && later >= now
    ensures var found := m.(ledger := Uncovered(m.ledger, entity, finder, now, lifetime));
            && (t.id !in found.ledger.carriers && t.pickUp && found.ledger.ground.Keys * t.reachable == {entity} ==>
                  Pick(found, t, later) == Some(entity))
            && (SweepEvent(r, found, entity, later, zones) == if later >= now + lifetime then [Expire(entity)] else [])
            && found.ledger.history[m.ledger.serial] == Find(Some(finder), {})
  {}

  /** Death, leaving, a team change, a throw: refused, nothing changes; after the end the diamond is off the books. */
  function DropOutcome(r: Rules, m: Mine, id: nat, accepted: bool, entity: nat, team: Team, now: real, lifetime: real,
                       zones: set<Dropoff>): Mine
  {
    if id !in m.ledger.carriers || !accepted then m
    else if m.ended then m.(ledger := TakenFromCarrier(m.ledger, id, Discarded))
    else CashedLoose(r, Laid(m, id, entity, team, now, lifetime), entity, zones)
  }

  function DropEvents(r: Rules, m: Mine, id: nat, accepted: bool, entity: nat, team: Team, now: real, lifetime: real,
                      zones: set<Dropoff>): seq<Event>
  {
    if id !in m.ledger.carriers || !accepted then []
    else if m.ended then [Discard(id)]
    else
      [Drop(id, entity, team, now, lifetime)] +
      ScoredAtOnce(r, Laid(m, id, entity, team, now, lifetime), entity, zones)
  }

  /** A drop, and the score it may bring at once, are a run of the ledger that keeps the board right. */
  lemma DropIsSound(r: Rules, m: Mine, id: nat, accepted: bool, entity: nat, team: Team, now: real, lifetime: real,
                    zones: set<Dropoff>, limit: nat)
    requires Fit(r, m) && entity !in m.ledger.ground
    ensures Fit(r, DropOutcome(r, m, id, accepted, entity, team, now, lifetime, zones))
    ensures Follows(m.ledger, DropOutcome(r, m, id, accepted, entity, team, now, lifetime, zones).ledger,
                    DropEvents(r, m, id, accepted, entity, team, now, lifetime, zones), limit)
  {
    if id !in m.ledger.carriers || !accepted {
      FollowsNothing(m.ledger, limit);
    } else if m.ended {
      FollowsOne(m.ledger, Discard(id), limit);
    } else {
      RunningDropIsSound(r, m, id, entity, team, now, lifetime, zones, limit);
    }
  }

  lemma RunningDropIsSound(r: Rules, m: Mine, id: nat, entity: nat, team: Team, now: real, lifetime: real,
                           zones: set<Dropoff>, limit: nat)
    requires Fit(r, m) && id in m.ledger.carriers && entity !in m.ledger.ground
    ensures var laid := Laid(m, id, entity, team, now, lifetime);
            && Fit(r, CashedLoose(r, laid, entity, zones))
            && Follows(m.ledger, CashedLoose(r, laid, entity, zones).ledger,
                       [Drop(id, entity, team, now, lifetime)] + ScoredAtOnce(r, laid, entity, zones), limit)
  {
    var laid := Laid(m, id, entity, team, now, lifetime);
    LooseKeepsFit(r, laid, entity, zones);
    FollowsOne(m.ledger, Drop(id, entity, team, now, lifetime), limit);
    if LooseDropoff(r, laid, entity, zones).Some? {
      LooseIsEnabled(r, laid, entity, zones, limit);
      FollowsOne(laid.ledger, CashLoose(entity), limit);
    } else {
      FollowsNothing(laid.ledger, limit);
    }
    FollowsBoth(m.ledger, laid.ledger, CashedLoose(r, laid, entity, zones).ledger,
                [Drop(id, entity, team, now, lifetime)], ScoredAtOnce(r, laid, entity, zones), limit);
  }

  class DiamondMineMode {
    const board: DropoffBoard
    const maxActiveDiamonds: nat
    const scoreLimit: nat
    const lifetime: real
    const looseCashIn: bool
    const guaranteeBlocks: nat
    var ground: map<nat, Diamond>
    var carriers: map<nat, nat>
    var history: map<nat, Find>
    var serial: nat
    var blueScore: nat
    var greenScore: nat
    var minedSinceDiscovery: nat
    var nextDiscoveryAt: real
    var ended: bool
    var retiring: bool
    var winner: Option<Team>
    ghost var place: map<nat, Place>
    ghost var carries: set<Carry>
    ghost var cashed: CashIns

    ghost function View(): State
      reads this
    {
      State(ground, carriers, history, serial, Book(place, carries, cashed, blueScore, greenScore))
    }

    ghost function Full(): Mine
      reads this, board`dropoffs, board`activeDropoffs, board.dropoffs`remaining
    {
      Mine(View(), board.View(), ended, winner)
    }

    ghost function TheRules(): Rules
      reads this`retiring, board`dropoffs
    {
      Rules(board.dropoffs, board.maxActiveBases, scoreLimit, looseCashIn, retiring)
    }

    function ScoreOf(team: Team): nat
      reads this`blueScore, this`greenScore
    {
      if team == Blue then blueScore else if team == Green then greenScore else 0
    }

    /** The board is right, and it is stocked for as long as the score limit is not reached. */
    ghost predicate Valid()
      reads this, board`dropoffs, board`activeDropoffs, board.dropoffs
    {
      board.Flagged() && Fit(TheRules(), Full())
    }

    constructor (board: DropoffBoard, maxActiveDiamonds: nat, scoreLimit: nat, lifetime: real, loose: bool,
                 guarantee: nat, serial: nat, now: real)
      requires board.Valid() && board.Stocked() && scoreLimit >= 1
      ensures Valid() && View() == Start(serial) && !ended && !retiring && this.board == board
      ensures this.maxActiveDiamonds == maxActiveDiamonds && this.scoreLimit == scoreLimit && this.lifetime == lifetime
      ensures looseCashIn == loose && guaranteeBlocks == guarantee && minedSinceDiscovery == 0 && nextDiscoveryAt == now
    {
      this.board, this.maxActiveDiamonds := board, maxActiveDiamonds;
      this.scoreLimit, this.lifetime := scoreLimit, lifetime;
      this.looseCashIn, this.guaranteeBlocks := loose, guarantee;
      ground, carriers, history, this.serial, blueScore, greenScore := map[], map[], map[], serial, 0, 0;
      minedSinceDiscovery, nextDiscoveryAt, ended, retiring, winner := 0, now, false, false, None;
      place, carries, cashed := map[], {}, CashIns({}, {});
    }

    method SpawnDiamond(entity: nat, now: real, finder: Option<Player>, delay: real)
      requires entity !in ground
      modifies this`ground, this`serial, this`history
      ensures ground == old(ground)[entity := Diamond(old(serial), now + lifetime, now + delay, None)]
      ensures serial == old(serial) + 1
      ensures history == if finder.Some? then old(history)[old(serial) := Find(finder, {})] else old(history)
    {
      ground := ground[entity := Diamond(serial, now + lifetime, now + delay, None)];
      if finder.Some? {
        history := history[serial := Find(finder, {})];
      }
      serial := serial + 1;
    }

    /** Mined blocks may uncover a diamond, and must when none is in play and the guarantee is due. */
    method OnBlocksDestroyed(
        player: Player, active: bool, blocks: nat, mined: bool, now: real, lucky: bool, entity: nat)
      returns (found: bool)
      requires entity !in ground
      modifies this`ground, this`serial, this`history, this`place, this`minedSinceDiscovery, this`nextDiscoveryAt
      ensures found <==>
                !ended && mined && active && blocks > 0 && old(nextDiscoveryAt) <= now &&
                old(|ground| + |carriers|) < maxActiveDiamonds &&
                (lucky || (guaranteeBlocks > 0 && old(|ground| + |carriers|) == 0 &&
                           old(minedSinceDiscovery) + blocks >= guaranteeBlocks))
      ensures View() == if found then Uncovered(old(View()), entity, player, now, lifetime) else old(View())
      ensures found ==> minedSinceDiscovery == 0 && nextDiscoveryAt == now + DIA_TIME_BETWEEN_DIAMOND_SPAWN
      ensures !found ==> nextDiscoveryAt == old(nextDiscoveryAt) &&
                         minedSinceDiscovery ==
                           old(minedSinceDiscovery) + if !ended && mined && active then blocks else 0
    {
      if ended || !mined || !active || blocks == 0 {
        return false;
      }
      minedSinceDiscovery := minedSinceDiscovery + blocks;
      var count := |ground| + |carriers|;
      if count >= maxActiveDiamonds || now < nextDiscoveryAt {
        return false;
      }
      var overdue := guaranteeBlocks > 0 && count == 0 && minedSinceDiscovery >= guaranteeBlocks;
      if !overdue && !lucky {
        return false;
      }
      minedSinceDiscovery := 0;
      UncoverDiamond(player, entity, now);
      nextDiscoveryAt := now + DIA_TIME_BETWEEN_DIAMOND_SPAWN;
      found := true;
    }

    method UncoverDiamond(player: Player, entity: nat, now: real)
      requires entity !in ground
      modifies this`ground, this`serial, this`history, this`place
      ensures View() == Uncovered(old(View()), entity, player, now, lifetime)
    {
      place := place[serial := Ground(entity)];
      SpawnDiamond(entity, now, Some(player), 0.0);
    }

    method PickupDiamond(player: Player, entity: nat, accepted: bool)
      requires entity in ground
      modifies this`ground, this`carriers, this`history, this`place, this`carries
      ensures View() == if accepted then PickedUp(old(View()), player.id, entity, player.team) else old(View())
    {
      if !accepted {
        return;
      }
      var n := ground[entity].serial;
      carriers := carriers[player.id := n];
      var find := if n in history then history[n] else Find(None, {});
      history := history[n := find.(teams := find.teams + {player.team})];
      ground := ground - {entity};
      place, carries := place[n := Hands(player.id)], carries + {Carry(n, player.team)};
    }

    /** A diamond leaves the ground for good. */
    method RemoveGroundDiamond(entity: nat, fate: Place)
      requires entity in ground && (fate.Cashed? ==> Playable(fate.team))
      modifies this`ground, this`history, this`place, this`cashed, this`blueScore, this`greenScore
      ensures View() == TakenFromGround(old(View()), entity, fate)
      ensures !fate.Cashed? ==> blueScore == old(blueScore) && greenScore == old(greenScore)
    {
      var n := ground[entity].serial;
      ground := ground - {entity};
      history := history - {n};
      place := place[n := fate];
      if fate.Cashed? {
        AddScore(fate.team);
        cashed := CashedIn(cashed, n, fate);
      }
    }

    /** A diamond leaves its carrier for good. */
    method RemoveCarriedDiamond(id: nat, fate: Place)
      requires id in carriers && (fate.Cashed? ==> Playable(fate.team))
      modifies this`carriers, this`history, this`place, this`cashed, this`blueScore, this`greenScore
      ensures View() == TakenFromCarrier(old(View()), id, fate)
    {
      var n := carriers[id];
      carriers := carriers - {id};
      history := history - {n};
      place := place[n := fate];
      if fate.Cashed? {
        AddScore(fate.team);
        cashed := CashedIn(cashed, n, fate);
      }
    }

    /** Re-place a dropped diamond: spawn, then give the entity its old serial number and team. */
    method LayDown(id: nat, entity: nat, team: Team, now: real)
      requires id in carriers && entity !in ground
      modifies this`ground, this`carriers, this`serial, this`history, this`place
      ensures View() == Dropped(old(View()), id, entity, team, now, lifetime)
    {
      var n := carriers[id];
      carriers := carriers - {id};
      SpawnDiamond(entity, now, None, NO_PICKUP_AFTER_DROP_TIME);
      ground := ground[entity := ground[entity].(serial := n, lastTeam := Some(team))];
      place := place[n := Ground(entity)];
    }

    method EndByScore(team: Team)
      modifies this`ended, this`winner
      ensures ended == (old(ended) || !retiring)
      ensures winner == if old(ended) || retiring then old(winner) else Some(team)
      ensures Full() == old(Full()).(ended := ended, winner := winner)
    {
      if ended || retiring {
        return;
      }
      ended := true;
      winner := Some(team);
    }

    method AddScore(team: Team)
      requires Playable(team)
      modifies this`blueScore, this`greenScore
      ensures ScoreOf(team) == old(ScoreOf(team)) + 1 && ScoreOf(Other(team)) == old(ScoreOf(Other(team)))
    {
      if team == Blue { blueScore := blueScore + 1; } else { greenScore := greenScore + 1; }
    }

    /** The drop-off takes the diamond that was just scored; the match ends, or a full one is replaced. */
    method SettleDropoff(team: Team, d: Dropoff, ghost before: State)
      requires board.Flagged() && d in board.dropoffs && Playable(team)
      modifies this`ended, this`winner, board`activeDropoffs, board.dropoffs`active, board.dropoffs`remaining
      ensures board.Flagged()
      ensures Full() == Settled(TheRules(), old(Full()).(ledger := before), old(View()), team, d)
    {
      var over := ScoreOf(team) >= scoreLimit;
      assert ScoreOf(team) == Score(View().book, team);
      TakeInto(d, over);
      if over {
        EndByScore(team);
      }
    }

    method TakeInto(d: Dropoff, over: bool)
      requires board.Flagged() && d in board.dropoffs
      modifies board`activeDropoffs, board.dropoffs`active, board.dropoffs`remaining
      ensures board.Flagged() && Full() == old(Full()).(board := Took(board.dropoffs, old(board.View()), d, over))
    {
      board.Take(d, over);
    }

    method CashIn(player: Player, d: Dropoff, accepted: bool)
      requires board.Flagged() && d in board.dropoffs && player.id in carriers && Playable(player.team)
      modifies this`carriers, this`history, this`place, this`cashed, this`blueScore, this`greenScore, this`ended
      modifies this`winner
      modifies board`activeDropoffs, board.dropoffs`active, board.dropoffs`remaining
      ensures board.Flagged()
      ensures Full() ==
              if !accepted then old(Full())
              else Settled(TheRules(), old(Full()), TakenFromCarrier(old(View()), player.id, Cashed(player.team)),
                           player.team, d)
    {
      if !accepted {
        return;
      }
      ghost var before := View();
      RemoveCarriedDiamond(player.id, Cashed(player.team));
      SettleDropoff(player.team, d, before);
    }

    /** The first open drop-off, in order, that takes a diamond for the team where it lies or stands. */
    method OpenDropoff(team: Team, zones: set<Dropoff>) returns (found: Option<Dropoff>)
      ensures found == FirstTaking(board.activeDropoffs, board.View().stock, team, zones)
    {
      ghost var stock := board.View().stock;
      assert board.activeDropoffs[0..] == board.activeDropoffs;
      var i := 0;
      while i < |board.activeDropoffs|
        invariant 0 <= i <= |board.activeDropoffs|
        invariant FirstTaking(board.activeDropoffs[i..], stock, team, zones) ==
                  FirstTaking(board.activeDropoffs, stock, team, zones)
      {
        var d := board.activeDropoffs[i];
        assert board.activeDropoffs[i..][0] == d && board.activeDropoffs[i..][1..] == board.activeDropoffs[i + 1..];
        if d in board.dropoffs && d.remaining > 0 && (d.team == Neutral || d.team == team) && d in zones {
          return Some(d);
        }
        i := i + 1;
      }
      found := None;
    }

    /** Score a diamond that rests in an open drop-off, for the team that last carried it. */
    method CashInLoose(entity: nat, zones: set<Dropoff>) returns (paid: bool)
      requires board.Flagged()
      modifies this`ground, this`history, this`place, this`cashed, this`blueScore, this`greenScore, this`ended
      modifies this`winner
      modifies board`activeDropoffs, board.dropoffs`active, board.dropoffs`remaining
      ensures board.Flagged() && Full() == CashedLoose(TheRules(), old(Full()), entity, zones)
      ensures paid <==> LooseDropoff(TheRules(), old(Full()), entity, zones).Some?
    {
      if !looseCashIn || ended || entity !in ground || ground[entity].lastTeam.None? ||
         !Playable(ground[entity].lastTeam.value) {
        return false;
      }
      var team := ground[entity].lastTeam.value;
      var d := OpenDropoff(team, zones);
      if d.None? {
        return false;
      }
      FirstTakingStocked(board.activeDropoffs, board.View().stock, team, zones);
      PayLoose(entity, team, d.value);
      paid := true;
    }

    method PayLoose(entity: nat, team: Team, d: Dropoff)
      requires board.Flagged() && d in board.dropoffs && entity in ground && Playable(team)
      modifies this`ground, this`history, this`place, this`cashed, this`blueScore, this`greenScore, this`ended
      modifies this`winner
      modifies board`activeDropoffs, board.dropoffs`active, board.dropoffs`remaining
      ensures board.Flagged()
      ensures Full() == Settled(TheRules(), old(Full()), TakenFromGround(old(View()), entity, Cashed(team)), team, d)
    {
      ghost var before := View();
      RemoveGroundDiamond(entity, Cashed(team));
      SettleDropoff(team, d, before);
    }

    /**
     * Death, leaving, a team change or a throw: the diamond goes back to the ground, or off the books after the
     * end.
     */
    method DropCarriedDiamond(
        player: Player, accepted: bool, entity: nat, now: real, team: Option<Team>, zones: set<Dropoff>)
      requires Valid() && entity !in ground
      modifies this`ground, this`carriers, this`serial, this`history, this`place, this`cashed, this`blueScore
      modifies this`greenScore
      modifies this`ended, this`winner, board`activeDropoffs, board.dropoffs`active, board.dropoffs`remaining
      ensures Valid()
      ensures var carriedFor := if team.Some? then team.value else player.team;
              var was, id := old(Full()), player.id;
              && Full() == DropOutcome(TheRules(), was, id, accepted, entity, carriedFor, now, lifetime, zones)
              && Follows(old(View()), View(),
                         DropEvents(TheRules(), was, id, accepted, entity, carriedFor, now, lifetime, zones),
                         maxActiveDiamonds)
    {
      var carriedFor := if team.Some? then team.value else player.team;
      DropIsSound(TheRules(), Full(), player.id, accepted, entity, carriedFor, now, lifetime, zones, maxActiveDiamonds);
      DropFor(player.id, accepted, entity, carriedFor, now, zones);
    }

    method DropFor(id: nat, accepted: bool, entity: nat, team: Team, now: real, zones: set<Dropoff>)
      requires board.Flagged() && entity !in ground
      modifies this`ground, this`carriers, this`serial, this`history, this`place, this`cashed, this`blueScore
      modifies this`greenScore
      modifies this`ended, this`winner, board`activeDropoffs, board.dropoffs`active, board.dropoffs`remaining
      ensures board.Flagged()
      ensures Full() == DropOutcome(TheRules(), old(Full()), id, accepted, entity, team, now, lifetime, zones)
    {
      if id !in carriers || !accepted {
        return;
      }
      if ended {
        DiscardCarried(id);
        return;
      }
      LayAndScore(id, entity, team, now, zones);
    }

    method DiscardCarried(id: nat)
      requires id in carriers
      modifies this`carriers, this`history, this`place, this`cashed, this`blueScore, this`greenScore
      ensures Full() == old(Full()).(ledger := TakenFromCarrier(old(View()), id, Discarded))
    {
      RemoveCarriedDiamond(id, Discarded);
    }

    method LayAndScore(id: nat, entity: nat, team: Team, now: real, zones: set<Dropoff>)
      requires board.Flagged() && id in carriers && entity !in ground
      modifies this`ground, this`carriers, this`serial, this`history, this`place, this`cashed, this`blueScore
      modifies this`greenScore
      modifies this`ended, this`winner, board`activeDropoffs, board.dropoffs`active, board.dropoffs`remaining
      ensures board.Flagged()
      ensures Full() == CashedLoose(TheRules(), Laid(old(Full()), id, entity, team, now, lifetime), entity, zones)
    {
      ghost var m := Full();
      LayDown(id, entity, team, now);
      assert Full() == Laid(m, id, entity, team, now, lifetime);
      var _ := CashInLoose(entity, zones);
    }

    method SweepOne(e: nat, now: real, zones: set<Dropoff>)
      requires board.Flagged() && !ended && e in ground
      modifies this`ground, this`history, this`place, this`cashed, this`blueScore, this`greenScore, this`ended
      modifies this`winner
      modifies board`activeDropoffs, board.dropoffs`active, board.dropoffs`remaining
      ensures board.Flagged() && Full() == Swept(TheRules(), old(Full()), e, now, zones)
    {
      if now >= ground[e].expiresAt {
        RemoveGroundDiamond(e, Expired);
      } else if ground[e].lastTeam.Some? {
        var _ := CashInLoose(e, zones);
      }
    }

    /** The tick's first pass: diamonds run out of time, or are scored where they rest, each at its turn. */
    method SweepGround(now: real, restingIn: map<nat, set<Dropoff>>)
      returns (ghost order: seq<nat>, ghost left: set<nat>)
      requires board.Flagged() && !ended
      modifies this`ground, this`history, this`place, this`cashed, this`blueScore, this`greenScore, this`ended
      modifies this`winner
      modifies board`activeDropoffs, board.dropoffs`active, board.dropoffs`remaining
      ensures board.Flagged() && Full() == SweptAll(TheRules(), old(Full()), order, now, restingIn)
      ensures InSomeOrder(order, old(ground.Keys), left) && (!ended ==> left == {})
    {
      order, left := [], ground.Keys;
      ghost var m, r, all := Full(), TheRules(), ground.Keys;
      var todo := ground.Keys;
      while todo != {} && !ended
        invariant board.Flagged() && Full() == SweptAll(r, m, order, now, restingIn)
        invariant InSomeOrder(order, all, left) && left == todo && (!ended ==> todo <= ground.Keys)
        decreases |todo|
      {
        var e :| e in todo;
        SweepNext(e, now, restingIn, r, m, order);
        OneMoreInOrder(order, all, left, e);
        order, todo := order + [e], todo - {e};
        left := todo;
      }
    }

    lemma OthersStay(r: Rules, m: Mine, e: nat, now: real, zones: set<Dropoff>)
      ensures m.ledger.ground.Keys - {e} <= Swept(r, m, e, now, zones).ledger.ground.Keys
    {}

    method SweepNext(
        e: nat, now: real, restingIn: map<nat, set<Dropoff>>, ghost r: Rules, ghost m: Mine, ghost order: seq<nat>)
      requires board.Flagged() && !ended && e in ground
      requires r == TheRules() && Full() == SweptAll(r, m, order, now, restingIn)
      modifies this`ground, this`history, this`place, this`cashed, this`blueScore, this`greenScore, this`ended
      modifies this`winner
      modifies board`activeDropoffs, board.dropoffs`active, board.dropoffs`remaining
      ensures board.Flagged() && Full() == SweptAll(r, m, order + [e], now, restingIn)
      ensures old(ground.Keys) - {e} <= ground.Keys
    {
      OneMoreSwept(r, m, order, now, restingIn, e);
      OthersStay(r, Full(), e, now, ZonesOf(restingIn, e));
      SweepOne(e, now, if e in restingIn then restingIn[e] else {});
    }

    lemma OneMoreSwept(r: Rules, m: Mine, order: seq<nat>, now: real, restingIn: map<nat, set<Dropoff>>, e: nat)
      ensures var t := SweptAll(r, m, order, now, restingIn);
              && SweptAll(r, m, order + [e], now, restingIn) == Swept(r, t, e, now, ZonesOf(restingIn, e))
              && SweepEvents(r, m, order + [e], now, restingIn) ==
                 SweepEvents(r, m, order, now, restingIn) + SweepEvent(r, t, e, now, ZonesOf(restingIn, e))
    {
      assert (order + [e])[..|order|] == order;
    }

    /** The diamond in reach with the lowest entity id. */
    method NearestGroundDiamond(reachable: set<nat>) returns (found: Option<nat>)
      ensures found == Lowest(ground.Keys * reachable)
    {
      found := None;
      var todo := ground.Keys * reachable;
      while todo != {}
        invariant todo <= ground.Keys * reachable
        invariant found.Some? ==> found.value in ground && found.value in reachable
        invariant forall e :: e in ground && e in reachable && e !in todo ==> found.Some? && found.value <= e
        decreases |todo|
      {
        var e :| e in todo;
        if found.None? || e < found.value { found := Some(e); }
        todo := todo - {e};
      }
      ghost var low := Lowest(ground.Keys * reachable);
      assert low.Some? ==> found.Some? && found.value <= low.value;
    }

    function TurnOf(v: Visit): Turn
      reads v.player`team
    {
      Turn(v.player.id, v.player.team, v.active, v.reachable, v.zones, v.pickUp, v.drop)
    }

    method TryPickUp(v: Visit, now: real)
      requires v.player.id !in carriers
      modifies this`ground, this`carriers, this`history, this`place, this`carries
      ensures Full() == Picked(old(Full()), TurnOf(v), now)
    {
      var e := NearestGroundDiamond(v.reachable);
      if e.Some? && now >= ground[e.value].pickupAfter {
        PickupDiamond(v.player, e.value, v.pickUp);
      }
    }

    method TryCashIn(v: Visit)
      requires board.Flagged() && v.player.id in carriers && Playable(v.player.team)
      modifies this`carriers, this`history, this`place, this`cashed, this`blueScore, this`greenScore, this`ended
      modifies this`winner
      modifies board`activeDropoffs, board.dropoffs`active, board.dropoffs`remaining
      ensures board.Flagged() && Full() == Delivered(TheRules(), old(Full()), TurnOf(v))
    {
      var d := OpenDropoff(v.player.team, v.zones);
      if d.Some? {
        FirstTakingStocked(board.activeDropoffs, board.View().stock, v.player.team, v.zones);
        CashIn(v.player, d.value, v.drop);
      }
    }

    /** One player's turn in the tick: pick a diamond up, then cash it in, perhaps both at once. */
    method VisitPlayer(v: Visit, now: real)
      requires board.Flagged() && !ended
      modifies this`ground, this`carriers, this`history, this`place, this`carries
      modifies this`cashed, this`blueScore, this`greenScore, this`ended, this`winner
      modifies board`activeDropoffs, board.dropoffs`active, board.dropoffs`remaining
      ensures board.Flagged() && Full() == Visited(TheRules(), old(Full()), TurnOf(v), now)
    {
      if !v.active || !Playable(v.player.team) {
        return;
      }
      if v.player.id !in carriers {
        TryPickUp(v, now);
      }
      if v.player.id in carriers {
        TryCashIn(v);
      }
    }

    ghost function TurnsOf(visits: seq<Visit>): (turns: seq<Turn>)
      reads set v | v in visits :: v.player
      ensures |turns| == |visits| && forall i :: 0 <= i < |visits| ==> turns[i] == TurnOf(visits[i])
    {
      if visits == [] then [] else TurnsOf(visits[..|visits| - 1]) + [TurnOf(visits[|visits| - 1])]
    }

    /**
     * One server tick: the pass over the ground, then every player's turn. Only what is past its time expires,
     * and nothing past its time is left unless the match ends.
     */
    method OnTick(now: real, restingIn: map<nat, set<Dropoff>>, visits: seq<Visit>) returns (ghost order: seq<nat>)
      requires Valid() && !ended
      modifies this`ground, this`carriers, this`history, this`place, this`carries
      modifies this`cashed, this`blueScore, this`greenScore, this`ended, this`winner
      modifies board`activeDropoffs, board.dropoffs`active, board.dropoffs`remaining
      ensures Valid() && Full() == Ticked(TheRules(), old(Full()), order, old(TurnsOf(visits)), now, restingIn)
      ensures var events := TickEvents(TheRules(), old(Full()), order, old(TurnsOf(visits)), now, restingIn);
              && Follows(old(View()), View(), events, maxActiveDiamonds)
              && forall e :: Expire(e) in events ==> e in old(ground) && now >= old(ground)[e].expiresAt
      ensures exists left :: InSomeOrder(order, old(ground.Keys), left) && (!ended ==> left == {})
      ensures !ended ==> forall e :: e in ground ==> now < ground[e].expiresAt
    {
      ghost var m, r, turns := Full(), TheRules(), TurnsOf(visits);
      ghost var left;
      order, left := SweepGround(now, restingIn);
      ghost var swept := Full();
      if ended {
        TheEndStopsTheTurns(r, swept, turns, now);
      } else {
        VisitPlayers(now, visits, turns);
      }
      TickIsSound(r, m, order, turns, now, restingIn, maxActiveDiamonds);
    }

    lemma TheRestIsNothing(r: Rules, m: Mine, turns: seq<Turn>, i: nat, now: real)
      requires i <= |turns| && VisitedAll(r, m, turns[..i], now).ended
      ensures VisitedAll(r, m, turns, now) == VisitedAll(r, m, turns[..i], now)
    {
      TheEndStopsTheTurns(r, VisitedAll(r, m, turns[..i], now), turns[i..], now);
      TurnsInTwo(r, m, turns[..i], turns[i..], now);
      assert turns == turns[..i] + turns[i..];
    }

    method VisitNext(v: Visit, now: real, ghost r: Rules, ghost m: Mine, ghost turns: seq<Turn>, ghost i: nat)
      requires board.Flagged() && !ended && r == TheRules() && i < |turns| && turns[i] == TurnOf(v)
      requires Full() == VisitedAll(r, m, turns[..i], now)
      modifies this`ground, this`carriers, this`history, this`place, this`carries
      modifies this`cashed, this`blueScore, this`greenScore, this`ended, this`winner
      modifies board`activeDropoffs, board.dropoffs`active, board.dropoffs`remaining
      ensures board.Flagged() && Full() == VisitedAll(r, m, turns[..i + 1], now)
    {
      assert turns[..i + 1][..i] == turns[..i];
      VisitPlayer(v, now);
    }

    method VisitPlayers(now: real, visits: seq<Visit>, ghost turns: seq<Turn>)
      requires board.Flagged() && !ended
      requires |turns| == |visits| && forall i :: 0 <= i < |visits| ==> turns[i] == TurnOf(visits[i])
      modifies this`ground, this`carriers, this`history, this`place, this`carries
      modifies this`cashed, this`blueScore, this`greenScore, this`ended, this`winner
      modifies board`activeDropoffs, board.dropoffs`active, board.dropoffs`remaining
      ensures board.Flagged() && Full() == VisitedAll(TheRules(), old(Full()), turns, now)
    {
      ghost var m, r := Full(), TheRules();
      var i := 0;
      while i < |visits|
        invariant 0 <= i <= |visits| && board.Flagged() && !ended && Full() == VisitedAll(r, m, turns[..i], now)
        invariant forall k :: 0 <= k < |visits| ==> turns[k] == TurnOf(visits[k])
      {
        VisitNext(visits[i], now, r, m, turns, i);
        i := i + 1;
        if ended {
          TheRestIsNothing(r, m, turns, i, now);
          return;
        }
      }
      assert turns[..i] == turns;
    }
  }
}
