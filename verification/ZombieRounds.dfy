/** Zombie rounds: who is on which side, and how rounds follow each other. */
module OutbreakRules {
  import opened Wrappers
  import opened Sizes
  import opened Teams

  /** Blue is the zombie side, Green the survivors, Neutral a spectator. */
  const ZOMBIE := Blue
  const SURVIVOR := Green

  datatype Phase = Waiting | Countdown | Active | Intermission | Resetting

  /** `roster` maps the slots of the players in the game to their sides. */
  datatype State = State(
    phase: Phase, roster: map<nat, Team>, zombieScore: nat, survivorScore: nat, rounds: nat, ended: bool, task: bool,
    winner: Option<Team>)

  datatype Rules = Rules(limit: nat, minimum: nat, firstInfected: nat)

  datatype Event =
    | Join(id: nat, team: Team)
    | Switch(id: nat, team: Team)
    | Leave(id: nat, heir: nat)
    | Death(id: nat)
    | Outbreak(living: set<nat>, chosen: set<nat>)
    | TimeUp
    | Audit
    | NextRound(anyone: bool)
    | Reassign(id: nat)
    | Drained
    | Arm
    | Disarm

  ghost predicate Sound(r: Rules) {
    r.limit >= 1 && r.minimum >= 2 && r.firstInfected >= 1
  }

  predicate Has(roster: map<nat, Team>, side: Team) {
    exists id :: id in roster && roster[id] == side
  }

  function AllSurvivors(roster: map<nat, Team>): map<nat, Team> {
    map id | id in roster :: SURVIVOR
  }

  function Infected(roster: map<nat, Team>, chosen: set<nat>): map<nat, Team> {
    map id | id in roster :: if id in chosen then ZOMBIE else roster[id]
  }

  /** The side with more rounds; nobody on a tie. */
  function Leader(s: State): Option<Team> {
    if s.zombieScore == s.survivorScore then None
    else Some(if s.zombieScore > s.survivorScore then ZOMBIE else SURVIVOR)
  }

  function Finished(s: State, winner: Team, r: Rules): State {
    if s.ended || s.phase == Intermission || s.phase == Resetting then s
    else
      var t := s.(phase := Intermission, rounds := s.rounds + 1,
                  zombieScore := s.zombieScore + (if winner == ZOMBIE then 1 else 0),
                  survivorScore := s.survivorScore + (if winner == SURVIVOR then 1 else 0));
      if t.rounds >= r.limit then t.(ended := true, winner := Leader(t)) else t.(task := true)
  }

  function Checked(s: State, r: Rules): State {
    if !Has(s.roster, SURVIVOR) && s.roster != map[] then Finished(s, ZOMBIE, r) else s
  }

  predicate Underpopulated(s: State, r: Rules) {
    s.phase == Active && |s.roster.Keys| < r.minimum
  }

  function Aborted(s: State): State {
    s.(phase := Waiting, roster := AllSurvivors(s.roster))
  }

  function Armed(s: State, r: Rules): State {
    if s.phase == Waiting && |s.roster.Keys| >= r.minimum then s.(phase := Countdown) else s
  }

  function Joined(s: State, id: nat, team: Team, r: Rules): State {
    if s.phase == Active && team == ZOMBIE then s.(roster := s.roster[id := ZOMBIE])
    else Armed(s.(roster := s.roster[id := SURVIVOR]), r)
  }

  /** A spectator steps in, on the side that was open when they asked. */
  function Switched(s: State, id: nat, team: Team, r: Rules): State {
    var t := s.(roster := s.roster[id := team]);
    if team == SURVIVOR then Armed(t, r) else t
  }

  /** The hook sees the roster without the departing player, who is gone as soon as it returns. */
  function AfterLeave(t: State, heir: nat, r: Rules): State {
    if t.ended then t
    else if t.phase == Countdown then (if |t.roster.Keys| < r.minimum then t.(phase := Waiting) else t)
    else if t.phase != Active then t
    else if Underpopulated(t, r) then Aborted(t)
    else if !Has(t.roster, ZOMBIE) && Has(t.roster, SURVIVOR)
      then Checked(t.(roster := Infected(t.roster, {heir})), r)
    else Checked(t, r)
  }

  function Departed(s: State, id: nat, heir: nat, r: Rules): State {
    AfterLeave(s.(roster := s.roster - {id}), heir, r)
  }

  function Died(s: State, id: nat, r: Rules): State {
    if s.ended || s.phase != Active || id !in s.roster || s.roster[id] != SURVIVOR then s
    else Checked(s.(roster := Infected(s.roster, {id})), r)
  }

  function Broken(s: State, living: set<nat>, chosen: set<nat>): State {
    s.(phase := Active, roster := Infected(s.roster, chosen))
  }

  function Audited(s: State, r: Rules): State {
    if s.ended || s.phase != Active then s
    else if Underpopulated(s, r) then Aborted(s)
    else Checked(s, r)
  }

  function Begun(s: State, anyone: bool, r: Rules): State {
    var t := s.(task := false);
    if anyone then t.(phase := Resetting) else Armed(t.(phase := Waiting), r)
  }

  ghost predicate Enabled(s: State, e: Event, r: Rules) {
    match e
    case Join(id, team) => Playable(team) && id !in s.roster
    case Switch(id, team) => Playable(team) && id !in s.roster
    case Leave(id, heir) => !Has(s.roster - {id}, ZOMBIE) && Has(s.roster - {id}, SURVIVOR) ==> heir in s.roster - {id}
    case Death(_) => true
    case Outbreak(living, chosen) =>
      !s.ended && s.phase == Countdown && |living| >= 2 && chosen <= living &&
      |chosen| == Min(r.firstInfected, |living| - 1) &&
      forall id :: id in living ==> id in s.roster && s.roster[id] == SURVIVOR
    case TimeUp => !s.ended && s.phase == Active
    case Audit => true
    case NextRound(_) => s.task && !s.ended && s.phase == Intermission
    case Reassign(id) => !s.ended && s.phase == Resetting && id in s.roster
    case Drained => !s.ended && s.phase == Resetting
    case Arm => true
    case Disarm => !s.ended && s.phase == Countdown && |s.roster.Keys| < r.minimum
  }

  function Next(s: State, e: Event, r: Rules): State {
    match e
    case Join(id, team) => Joined(s, id, team, r)
    case Switch(id, team) => Switched(s, id, team, r)
    case Leave(id, heir) => Departed(s, id, heir, r)
    case Death(id) => Died(s, id, r)
    case Outbreak(living, chosen) => Broken(s, living, chosen)
    case TimeUp => Finished(s, if Has(s.roster, SURVIVOR) then SURVIVOR else ZOMBIE, r)
    case Audit => Audited(s, r)
    case NextRound(anyone) => Begun(s, anyone, r)
    case Reassign(id) => s.(roster := s.roster[id := SURVIVOR])
    case Drained => Armed(s.(phase := Waiting), r)
    case Arm => Armed(s, r)
    case Disarm => s.(phase := Waiting)
  }

  /** In a round that runs, both sides have somebody. */
  ghost predicate Contested(s: State) {
    s.phase == Active && !s.ended ==> Has(s.roster, ZOMBIE) && Has(s.roster, SURVIVOR)
  }

  /** Every round pays one point, there are never too many, and nothing is pending after the last. */
  ghost predicate Accounted(s: State, r: Rules) {
    && s.zombieScore + s.survivorScore == s.rounds <= r.limit
    && (s.ended <==> s.rounds == r.limit) && (s.ended ==> s.winner == Leader(s))
    && (s.task ==> s.phase == Intermission && !s.ended)
    && (s.phase == Intermission && !s.ended ==> s.task)
  }

  ghost predicate Playing(s: State) {
    forall id :: id in s.roster ==> Playable(s.roster[id])
  }

  ghost predicate Inv(s: State, r: Rules) {
    Sound(r) && Playing(s) && Contested(s) && Accounted(s, r)
  }

  lemma FinishKeepsInv(s: State, winner: Team, r: Rules)
    requires Sound(r) && Playing(s) && Accounted(s, r) && s.phase == Active && Playable(winner)
    ensures Inv(Finished(s, winner, r), r)
  {}

  lemma CheckKeepsInv(s: State, r: Rules)
    requires Sound(r) && Playing(s) && Accounted(s, r) && s.phase == Active && !s.ended && Has(s.roster, ZOMBIE)
    ensures Inv(Checked(s, r), r)
  {
    FinishKeepsInv(s, ZOMBIE, r);
  }

  lemma SomeoneElse<T>(s: set<T>, x: T) returns (y: T)
    requires |s| >= 2
    ensures y in s && y != x
  {
    if s <= {x} {
      SubsetSize(s, {x});
    }
    y :| y in s && y != x;
  }

  /** With at least two left and no zombie among them, infecting one still leaves a survivor. */
  lemma HeirLeavesASurvivor(roster: map<nat, Team>, heir: nat)
    requires |roster.Keys| >= 2 && heir in roster && !Has(roster, ZOMBIE)
    requires forall id :: id in roster ==> Playable(roster[id])
    ensures Has(Infected(roster, {heir}), ZOMBIE) && Has(Infected(roster, {heir}), SURVIVOR)
  {
    var other := SomeoneElse(roster.Keys, heir);
    var after := Infected(roster, {heir});
    assert after[heir] == ZOMBIE;
    assert roster[other] != ZOMBIE;
    assert after[other] == SURVIVOR;
  }

  lemma LeaveKeepsInv(s: State, id: nat, heir: nat, r: Rules)
    requires Inv(s, r) && Enabled(s, Leave(id, heir), r)
    ensures Inv(Departed(s, id, heir, r), r)
  {
    var t := s.(roster := s.roster - {id});
    if !t.ended && t.phase == Active && !Underpopulated(t, r) {
      if !Has(t.roster, ZOMBIE) {
        var someone := SomeoneElse(t.roster.Keys, id);
        assert t.roster[someone] == SURVIVOR;
        HeirLeavesASurvivor(t.roster, heir);
        CheckKeepsInv(t.(roster := Infected(t.roster, {heir})), r);
      } else {
        CheckKeepsInv(t, r);
      }
    }
  }

  lemma DeathKeepsInv(s: State, id: nat, r: Rules)
    requires Inv(s, r)
    ensures Inv(Died(s, id, r), r)
  {
    if !s.ended && s.phase == Active && id in s.roster && s.roster[id] == SURVIVOR {
      var after := Infected(s.roster, {id});
      assert after[id] == ZOMBIE;
      CheckKeepsInv(s.(roster := after), r);
    }
  }

  lemma NewcomerTakesNobodysPlace(roster: map<nat, Team>, id: nat, side: Team, t: Team)
    requires id !in roster && Has(roster, t)
    ensures Has(roster[id := side], t)
  {
    var other :| other in roster && roster[other] == t;
    assert other in roster[id := side] && roster[id := side][other] == t;
  }

  lemma ArrivalKeepsInv(s: State, id: nat, side: Team, r: Rules)
    requires Inv(s, r) && Playable(side) && id !in s.roster
    ensures Inv(s.(roster := s.roster[id := side]), r)
  {
    if Has(s.roster, ZOMBIE) { NewcomerTakesNobodysPlace(s.roster, id, side, ZOMBIE); }
    if Has(s.roster, SURVIVOR) { NewcomerTakesNobodysPlace(s.roster, id, side, SURVIVOR); }
  }

  lemma OutbreakKeepsInv(s: State, living: set<nat>, chosen: set<nat>, r: Rules)
    requires Inv(s, r) && Enabled(s, Outbreak(living, chosen), r)
    ensures Inv(Broken(s, living, chosen), r)
  {
    var after := Infected(s.roster, chosen);
    assert chosen != {};
    var first :| first in chosen;
    assert after[first] == ZOMBIE;
    if living <= chosen {
      SubsetSize(living, chosen);
    }
    var spared :| spared in living && spared !in chosen;
    assert after[spared] == SURVIVOR;
  }

  lemma NextKeepsInv(s: State, e: Event, r: Rules)
    requires Inv(s, r) && Enabled(s, e, r)
    ensures Inv(Next(s, e, r), r)
  {
    match e
    case Join(id, team) => ArrivalKeepsInv(s, id, if s.phase == Active && team == ZOMBIE then ZOMBIE else SURVIVOR, r);
    case Switch(id, team) => ArrivalKeepsInv(s, id, team, r);
    case Leave(id, heir) => LeaveKeepsInv(s, id, heir, r);
    case Death(id) => DeathKeepsInv(s, id, r);
    case Outbreak(living, chosen) => OutbreakKeepsInv(s, living, chosen, r);
    case TimeUp => FinishKeepsInv(s, if Has(s.roster, SURVIVOR) then SURVIVOR else ZOMBIE, r);
    case Audit => if !s.ended && s.phase == Active && !Underpopulated(s, r) { CheckKeepsInv(s, r); }
    case NextRound(_) =>
    case Reassign(_) =>
    case Drained =>
    case Arm =>
    case Disarm =>
  }

  // ----- What one event does -----

  /** An outbreak turns exactly the chosen. */
  lemma OutbreakTurnsTheChosen(s: State, living: set<nat>, chosen: set<nat>, r: Rules, id: nat)
    requires Enabled(s, Outbreak(living, chosen), r) && id in s.roster && s.roster[id] == SURVIVOR
    ensures var t := Next(s, Outbreak(living, chosen), r);
            t.phase == Active && id in t.roster && (t.roster[id] == ZOMBIE <==> id in chosen)
  {}

  /** Besides an outbreak, a death and the departure of the last zombie, nothing turns a survivor. */
  lemma NothingElseTurns(s: State, e: Event, r: Rules, id: nat)
    requires Enabled(s, e, r) && !e.Leave? && !e.Death? && !e.Outbreak? && id in s.roster && s.roster[id] == SURVIVOR
    ensures id in Next(s, e, r).roster && Next(s, e, r).roster[id] == SURVIVOR
  {
    if e == Audit {
      NobodyLeavesAtTheEnd(s, ZOMBIE, r);
      SameKeys(s.roster, {});
    }
  }

  /** The departure of the last zombie turns the heir, and no departure turns anybody else. */
  lemma OnlyTheHeirTurns(t: State, heir: nat, r: Rules, id: nat)
    requires id in t.roster && t.roster[id] == SURVIVOR
    ensures var u := AfterLeave(t, heir, r);
            id in u.roster &&
            (u.roster[id] == ZOMBIE ==> t.phase == Active && !t.ended && id == heir && !Has(t.roster, ZOMBIE))
  {
    NobodyLeavesAtTheEnd(t, ZOMBIE, r);
    NobodyLeavesAtTheEnd(t.(roster := Infected(t.roster, {heir})), ZOMBIE, r);
  }

  /** A killed survivor of a running round is a zombie from then on, and nobody else is touched. */
  lemma OnlyTheDeadTurns(s: State, dead: nat, r: Rules, id: nat)
    requires id in s.roster && s.roster[id] == SURVIVOR
    ensures var t := Died(s, dead, r);
            id in t.roster && (t.roster[id] == ZOMBIE <==> s.phase == Active && !s.ended && id == dead)
  {
    NobodyLeavesAtTheEnd(s.(roster := Infected(s.roster, {dead})), ZOMBIE, r);
  }

  /** What a departure from a running round leaves behind: it is called off, or nobody is cured. */
  lemma AfterLeaveCuresNobody(t: State, heir: nat, r: Rules, id: nat)
    requires t.phase == Active && !t.ended && !Underpopulated(t, r) && id in t.roster && t.roster[id] == ZOMBIE
    ensures var u := AfterLeave(t, heir, r); id in u.roster && u.roster[id] == ZOMBIE
  {
    SameKeys(t.roster, {heir});
  }

  /** A zombie is cured only between rounds, or with everybody else when a round is called off. */
  lemma ZombiesAreCuredOnlySo(s: State, e: Event, r: Rules, id: nat)
    requires Inv(s, r) && Enabled(s, e, r) && id in s.roster && s.roster[id] == ZOMBIE && id in Next(s, e, r).roster
    requires Next(s, e, r).roster[id] == SURVIVOR
    ensures var t := Next(s, e, r);
            e == Reassign(id) || (s.phase == Active && t.phase == Waiting && t.roster == AllSurvivors(t.roster))
  {
    if e.Leave? {
      LeaveCures(s, e.id, e.heir, r, id);
    } else if e == Audit {
      SameKeys(s.roster, {});
    }
  }

  lemma LeaveCures(s: State, leaver: nat, heir: nat, r: Rules, id: nat)
    requires id in s.roster && s.roster[id] == ZOMBIE && id in Departed(s, leaver, heir, r).roster
    requires Departed(s, leaver, heir, r).roster[id] == SURVIVOR
    ensures var t := Departed(s, leaver, heir, r);
            s.phase == Active && t.phase == Waiting && t.roster == AllSurvivors(t.roster)
  {
    var t := s.(roster := s.roster - {leaver});
    TheOthersStay(t, heir, r);
    if t.phase == Active && !t.ended && !Underpopulated(t, r) {
      AfterLeaveCuresNobody(t, heir, r, id);
    }
  }

  lemma NobodyLeavesAtTheEnd(s: State, winner: Team, r: Rules)
    ensures Finished(s, winner, r).roster == s.roster && Checked(s, r).roster == s.roster
  {}

  lemma TheOthersStay(t: State, heir: nat, r: Rules)
    ensures AfterLeave(t, heir, r).roster.Keys == t.roster.Keys
  {
    SameKeys(t.roster, {heir});
    NobodyLeavesAtTheEnd(t.(roster := Infected(t.roster, {heir})), ZOMBIE, r);
    NobodyLeavesAtTheEnd(t, ZOMBIE, r);
  }

  /** A departure takes exactly the departing player out of the game. */
  lemma DepartureTakesOne(s: State, id: nat, heir: nat, r: Rules)
    ensures Next(s, Leave(id, heir), r).roster.Keys == s.roster.Keys - {id}
  {
    TheOthersStay(s.(roster := s.roster - {id}), heir, r);
  }

  /** An arrival brings in exactly the player who arrives. */
  lemma JoinAddsOne(s: State, id: nat, team: Team, r: Rules)
    ensures Next(s, Join(id, team), r).roster.Keys == s.roster.Keys + {id}
  {
    var side := if s.phase == Active && team == ZOMBIE then ZOMBIE else SURVIVOR;
    assert Next(s, Join(id, team), r).roster == s.roster[id := side];
    OneMoreInGame(s.roster, id, side);
  }

  lemma SwitchAddsOne(s: State, id: nat, team: Team, r: Rules)
    ensures Next(s, Switch(id, team), r).roster.Keys == s.roster.Keys + {id}
  {
    assert Next(s, Switch(id, team), r).roster == s.roster[id := team];
    OneMoreInGame(s.roster, id, team);
  }

  lemma OneMoreInGame(roster: map<nat, Team>, id: nat, side: Team)
    ensures roster[id := side].Keys == roster.Keys + {id}
  {}

  /** No other event takes anybody out of the game or brings anybody in. */
  lemma NobodyElseMoves(s: State, e: Event, r: Rules)
    requires Enabled(s, e, r) && !e.Leave? && !e.Join? && !e.Switch?
    ensures Next(s, e, r).roster.Keys == s.roster.Keys
  {
    match e
    case Death(id) =>
      SameKeys(s.roster, {id});
      NobodyLeavesAtTheEnd(s.(roster := Infected(s.roster, {id})), ZOMBIE, r);
    case Outbreak(_, chosen) => SameKeys(s.roster, chosen);
    case Audit =>
      SameKeys(s.roster, {});
      NobodyLeavesAtTheEnd(s, ZOMBIE, r);
    case _ =>
  }

  /** An arrival joins the zombies only in a running round, and only from their side. */
  lemma ArrivalsAreSurvivors(s: State, id: nat, team: Team, r: Rules)
    requires Inv(s, r) && Enabled(s, Join(id, team), r)
    ensures Next(s, Join(id, team), r).roster[id] ==
            if s.phase == Active && team == ZOMBIE then ZOMBIE else SURVIVOR
  {}

  /** The round has been paid to the survivors if there are any, and to the zombies if there are none. */
  ghost predicate PaidRound(s: State, t: State) {
    t.rounds == s.rounds + 1 &&
    t.survivorScore == s.survivorScore + (if Has(t.roster, SURVIVOR) then 1 else 0) &&
    t.zombieScore == s.zombieScore + (if Has(t.roster, SURVIVOR) then 0 else 1)
  }

  predicate PaidNothing(s: State, t: State) {
    t.rounds == s.rounds && t.survivorScore == s.survivorScore && t.zombieScore == s.zombieScore
  }

  lemma CheckPaysTheZombies(s: State, r: Rules)
    requires s.phase == Active && !s.ended
    ensures var t := Checked(s, r);
            if !Has(s.roster, SURVIVOR) && s.roster != map[] then t.phase == Intermission && PaidRound(s, t) else t == s
  {}

  lemma DepartureEndsTheRound(t: State, heir: nat, r: Rules)
    requires t.phase == Active && !t.ended && r.minimum >= 2
    ensures var u := AfterLeave(t, heir, r);
            && (u.phase == Waiting <==> Underpopulated(t, r))
            && (u.phase == Intermission ==> !Has(u.roster, SURVIVOR) && PaidRound(t, u))
            && (u.phase != Intermission ==> PaidNothing(t, u) && (u.phase == Waiting || Has(u.roster, SURVIVOR)))
  {
    if !Underpopulated(t, r) {
      SameKeys(t.roster, {heir});
      CheckPaysTheZombies(t, r);
      CheckPaysTheZombies(t.(roster := Infected(t.roster, {heir})), r);
    }
  }

  /**
   * A round that runs is over exactly when nobody has survived, or when its time is up; it pays the survivors
   * if there are any and the zombies if there are none, one point, and the other side nothing.
   */
  lemma RoundGoesToTheStanding(s: State, e: Event, r: Rules)
    requires Inv(s, r) && Enabled(s, e, r) && s.phase == Active && !s.ended
    ensures var t := Next(s, e, r);
            && (t.phase == Intermission <==> e == TimeUp || (t.phase != Waiting && !Has(t.roster, SURVIVOR)))
            && (if t.phase == Intermission then PaidRound(s, t) else PaidNothing(s, t))
  {
    match e
    case Leave(id, heir) =>
      NextKeepsInv(s, e, r);
      DepartureEndsTheRound(s.(roster := s.roster - {id}), heir, r);
    case Death(id) =>
      NextKeepsInv(s, e, r);
      CheckPaysTheZombies(s.(roster := Infected(s.roster, {id})), r);
    case Audit =>
      NextKeepsInv(s, e, r);
      CheckPaysTheZombies(s, r);
    case _ =>
      NextKeepsInv(s, e, r);
  }

  /** Outside a running round nothing is paid. */
  lemma NothingIsPaidBetweenRounds(s: State, e: Event, r: Rules)
    requires Inv(s, r) && Enabled(s, e, r) && (s.phase != Active || s.ended)
    ensures PaidNothing(s, Next(s, e, r))
  {
    match e
    case Join(id, team) => ArmingPaysNothing(s.(roster := s.roster[id := SURVIVOR]), r);
    case Switch(id, team) => ArmingPaysNothing(s.(roster := s.roster[id := team]), r);
    case NextRound(_) => ArmingPaysNothing(s.(task := false, phase := Waiting), r);
    case Drained => ArmingPaysNothing(s.(phase := Waiting), r);
    case Arm => ArmingPaysNothing(s, r);
    case Leave(_, _) =>
    case _ =>
  }

  lemma ArmingPaysNothing(s: State, r: Rules)
    ensures PaidNothing(s, Armed(s, r))
  {}

  lemma SameKeys(roster: map<nat, Team>, chosen: set<nat>)
    ensures AllSurvivors(roster).Keys == roster.Keys && Infected(roster, chosen).Keys == roster.Keys
  {}

  /** A running round is called off exactly when too few are left, and then nobody is a zombie. */
  lemma CalledOffWhenTooFew(s: State, id: nat, heir: nat, r: Rules)
    requires s.phase == Active && !s.ended
    ensures var t := Next(s, Leave(id, heir), r);
            && (t.phase == Waiting <==> |t.roster.Keys| < r.minimum)
            && (t.phase == Waiting ==> forall id :: id in t.roster ==> t.roster[id] == SURVIVOR)
  {
    var left := s.(roster := s.roster - {id});
    TheOthersStay(left, heir, r);
  }

  lemma AuditCallsOffToo(s: State, r: Rules)
    requires s.phase == Active && !s.ended
    ensures var t := Next(s, Audit, r);
            && (t.phase == Waiting <==> |t.roster.Keys| < r.minimum)
            && (t.phase == Waiting ==> forall id :: id in t.roster ==> t.roster[id] == SURVIVOR)
  {
    SameKeys(s.roster, {});
    NobodyLeavesAtTheEnd(s, ZOMBIE, r);
  }

  /** Before a round the countdown runs exactly while enough are in the game. */
  lemma CountdownNeedsEnough(s: State, r: Rules)
    requires Sound(r) && s.phase == Waiting
    ensures var enough := |s.roster.Keys| >= r.minimum;
            && Next(s, Arm, r) == (if enough then s.(phase := Countdown) else s)
            && forall id, team :: Playable(team) && id !in s.roster ==>
                 (Next(s, Join(id, team), r).phase == Countdown <==> |s.roster.Keys| + 1 >= r.minimum) &&
                 (Next(s, Switch(id, team), r).phase == Countdown <==>
                    team == SURVIVOR && |s.roster.Keys| + 1 >= r.minimum)
  {
    forall id, team | Playable(team) && id !in s.roster
      ensures Next(s, Join(id, team), r).phase == Countdown <==> |s.roster.Keys| + 1 >= r.minimum
      ensures Next(s, Switch(id, team), r).phase == Countdown <==>
              team == SURVIVOR && |s.roster.Keys| + 1 >= r.minimum
    {
      OneMoreInGame(s.roster, id, SURVIVOR);
    }
  }

  /** A departure during the countdown stops it exactly when too few are left; between rounds it changes no phase. */
  lemma DepartureBetweenRounds(s: State, id: nat, heir: nat, r: Rules)
    requires s.phase != Active || s.ended
    ensures Next(s, Leave(id, heir), r) ==
            s.(roster := s.roster - {id},
               phase := if s.phase == Countdown && !s.ended && |(s.roster - {id}).Keys| < r.minimum then Waiting
                        else s.phase)
  {}

  /** One round after the other: the intermission task opens the next, which resets everybody before the countdown. */
  lemma NextRoundInOrder(s: State, r: Rules, anyone: bool)
    requires s.phase == Intermission && Enabled(s, NextRound(anyone), r)
    ensures var t := Next(s, NextRound(anyone), r);
            && !t.task && t.roster == s.roster
            && t.phase == (if anyone then Resetting else if |s.roster.Keys| >= r.minimum then Countdown else Waiting)
            && (anyone ==> Next(t, Drained, r).phase == if |s.roster.Keys| >= r.minimum then Countdown else Waiting)
  {}

  ghost predicate EnabledRun(s: State, events: seq<Event>, r: Rules)
    decreases |events|
  {
    events == [] || (Enabled(s, events[0], r) && EnabledRun(Next(s, events[0], r), events[1..], r))
  }

  function Run(s: State, events: seq<Event>, r: Rules): State
    decreases |events|
  {
    if events == [] then s else Run(Next(s, events[0], r), events[1..], r)
  }

  function Start(roster: map<nat, Team>): State {
    State(Waiting, AllSurvivors(roster), 0, 0, 0, false, false, None)
  }

  /** Under any order of deaths, departures and arrivals. */
  lemma {:induction false} EveryRunIsSound(s: State, events: seq<Event>, r: Rules)
    requires Inv(s, r) && EnabledRun(s, events, r)
    ensures Inv(Run(s, events, r), r)
    decreases |events|
  {
    if events != [] {
      NextKeepsInv(s, events[0], r);
      EveryRunIsSound(Next(s, events[0], r), events[1..], r);
    }
  }

  /** A running round always has a zombie and a survivor. */
  lemma BothSidesAreManned(roster: map<nat, Team>, events: seq<Event>, r: Rules)
    requires Sound(r) && EnabledRun(Start(roster), events, r)
    ensures var s := Run(Start(roster), events, r);
            s.phase == Active && !s.ended ==>
              exists z, h :: z in s.roster && h in s.roster && s.roster[z] == ZOMBIE && s.roster[h] == SURVIVOR
  {
    EveryRunIsSound(Start(roster), events, r);
    var s := Run(Start(roster), events, r);
    if s.phase == Active && !s.ended {
      var z :| z in s.roster && s.roster[z] == ZOMBIE;
      var h :| h in s.roster && s.roster[h] == SURVIVOR;
    }
  }

  /** Team scores add up to the rounds played, and the last round ends the match, for the side that has won more. */
  lemma RoundsAreCounted(roster: map<nat, Team>, events: seq<Event>, r: Rules)
    requires Sound(r) && EnabledRun(Start(roster), events, r)
    ensures var s := Run(Start(roster), events, r);
            && s.zombieScore + s.survivorScore == s.rounds <= r.limit
            && (s.ended <==> s.rounds == r.limit)
            && (s.ended ==> forall anyone :: !Enabled(s, NextRound(anyone), r))
            && (s.ended ==> (s.winner == Some(ZOMBIE) <==> s.zombieScore > s.survivorScore))
            && (s.ended ==> (s.winner == Some(SURVIVOR) <==> s.survivorScore > s.zombieScore))
  {
    EveryRunIsSound(Start(roster), events, r);
  }

  ghost predicate Follows(s: State, t: State, events: seq<Event>, r: Rules) {
    EnabledRun(s, events, r) && Run(s, events, r) == t
  }

  lemma {:induction false} FollowsOneMore(s: State, t: State, events: seq<Event>, e: Event, r: Rules)
    requires Follows(s, t, events, r) && Enabled(t, e, r)
    ensures Follows(s, Next(t, e, r), events + [e], r)
    decreases |events|
  {
    if events == [] {
      assert events + [e] == [e];
      var u := Next(s, e, r);
      assert EnabledRun(u, [e][1..], r) && Run(u, [e][1..], r) == u;
    } else {
      assert (events + [e])[1..] == events[1..] + [e];
      FollowsOneMore(Next(s, events[0], r), t, events[1..], e, r);
    }
  }

  /** Once the match has ended no event scores again. */
  lemma {:induction false} TheEndIsFinal(s: State, events: seq<Event>, r: Rules)
    requires s.ended && EnabledRun(s, events, r)
    ensures var t := Run(s, events, r);
            && t.ended && t.winner == s.winner && t.rounds == s.rounds
            && t.zombieScore == s.zombieScore && t.survivorScore == s.survivorScore
    decreases |events|
  {
    if events != [] {
      TheEndIsFinal(Next(s, events[0], r), events[1..], r);
    }
  }
}

/** Zombie: the hooks over the server's roster. */
module ZombieRounds {
  import opened Wrappers
  import opened Sizes
  import opened Teams
  import opened Roster
  import opened OutbreakRules

  const OUTBREAK_RETRY_SECONDS := 1.0

  class ZombieMode {
    const rules: Rules
    const infectionDelay: real
    const respawnsPerTick: nat
    var players: map<nat, Player>
    var phase: Phase
    var zombieScore: nat
    var survivorScore: nat
    var roundsPlayed: nat
    var ended: bool
    var task: bool
    var resetQueue: seq<Player>
    var infectionDeadline: Option<real>
    var winner: Option<Team>

    /** Every player sits in their own slot. */
    ghost predicate Valid()
      reads this`players
    {
      forall id :: id in players ==> players[id].id == id
    }

    /** The players in the game, less the one the running hook leaves out. */
    function Playing(exclude: set<nat>): map<nat, Team>
      reads this`players, players.Values
    {
      map id | id in players && id !in exclude && Playable(players[id].team) :: players[id].team
    }

    /** The state as the running hook sees it. */
    ghost function Seen(exclude: set<nat>): State
      reads this, players.Values
    {
      State(phase, Playing(exclude), zombieScore, survivorScore, roundsPlayed, ended, task, winner)
    }

    /** The countdown has a deadline, and nothing else has. */
    ghost predicate Timed()
      reads this`phase, this`infectionDeadline
    {
      infectionDeadline.Some? <==> phase == Countdown
    }

    ghost function View(): State
      reads this, players.Values
    {
      Seen({})
    }

    /** A match starts with everybody in the game a survivor. */
    constructor (rules: Rules, infectionDelay: real, respawnsPerTick: nat, players: map<nat, Player>)
      requires forall id :: id in players ==> players[id].id == id
      modifies players.Values
      ensures Valid() && this.players == players && this.rules == rules
      ensures View() == Start(Playing({})) && Timed() && resetQueue == []
      ensures forall p :: p in players.Values ==> old(Playable(p.team)) == Playable(p.team)
    {
      this.rules, this.infectionDelay := rules, infectionDelay;
      this.respawnsPerTick, this.players := respawnsPerTick, players;
      phase, zombieScore, survivorScore, roundsPlayed, ended, task := Waiting, 0, 0, 0, false, false;
      resetQueue, infectionDeadline, winner := [], None, None;
      new;
      TurnBack({});
      assert Playing({}) == AllSurvivors(Playing({}));
    }

    /** Retire the body and move the player to the zombie side. */
    method Infect(player: Player)
      modifies player`team
      ensures player.team == ZOMBIE
    {
      if player.team == ZOMBIE {
        return;
      }
      player.team := ZOMBIE;
    }

    ghost predicate IsIn(player: Player, exclude: set<nat>)
      reads this`players, player`team
    {
      player.id in players && players[player.id] == player && player.id !in exclude && Playable(player.team)
    }

    method InfectSeen(player: Player, ghost exclude: set<nat>)
      requires Valid() && IsIn(player, exclude)
      modifies player`team
      ensures Playing(exclude) == Infected(old(Playing(exclude)), {player.id})
    {
      Infect(player);
    }

    /** Move a player to the survivor side. */
    method AssignSurvivor(player: Player)
      modifies player`team
      ensures player.team == SURVIVOR
    {
      player.team := SURVIVOR;
    }

    method FinishRound(winner: Team, ghost exclude: set<nat>)
      modifies this`phase, this`infectionDeadline, this`roundsPlayed, this`zombieScore, this`survivorScore, this`ended
      modifies this`task, this`winner
      ensures old(Timed()) ==> Timed()
      ensures Seen(exclude) == Finished(old(Seen(exclude)), winner, rules)
    {
      if ended || phase == Intermission || phase == Resetting {
        return;
      }
      phase := Intermission;
      infectionDeadline := None;
      roundsPlayed := roundsPlayed + 1;
      if winner == ZOMBIE { zombieScore := zombieScore + 1; }
      if winner == SURVIVOR { survivorScore := survivorScore + 1; }
      if roundsPlayed >= rules.limit {
        ended, this.winner := true, MatchWinner();
        return;
      }
      task := true;
    }

    function MatchWinner(): Option<Team>
      reads this`zombieScore, this`survivorScore
    {
      if zombieScore == survivorScore then None
      else if zombieScore > survivorScore then Some(ZOMBIE) else Some(SURVIVOR)
    }

    /** Without a survivor the zombies have won. */
    method CheckPopulation(exclude: set<nat>)
      modifies this`phase, this`infectionDeadline, this`roundsPlayed, this`zombieScore, this`survivorScore, this`ended
      modifies this`task, this`winner
      ensures old(Timed()) ==> Timed()
      ensures Seen(exclude) == Checked(old(Seen(exclude)), rules)
    {
      var seen := Playing(exclude);
      if !Has(seen, SURVIVOR) && seen != map[] {
        FinishRound(ZOMBIE, exclude);
      }
    }

    /** Too few players left: the round is called off and everybody left is a survivor again. */
    method AbortIfUnderpopulated(exclude: set<nat>) returns (aborted: bool)
      requires Valid()
      modifies this`phase, this`infectionDeadline, players.Values`team
      ensures old(Timed()) ==> Timed()
      ensures aborted <==> old(Underpopulated(Seen(exclude), rules))
      ensures Seen(exclude) == if aborted then Aborted(old(Seen(exclude))) else old(Seen(exclude))
      ensures forall id :: id in players && id in exclude ==> players[id].team == old(players[id].team)
    {
      var seen := Playing(exclude);
      if phase != Active || |seen.Keys| >= rules.minimum {
        return false;
      }
      phase := Waiting;
      infectionDeadline := None;
      TurnBack(exclude);
      aborted := true;
    }

    method TurnBack(exclude: set<nat>)
      requires Valid()
      modifies players.Values`team
      ensures Playing(exclude) == AllSurvivors(old(Playing(exclude)))
      ensures forall p :: p in players.Values ==> Playable(p.team) == old(Playable(p.team))
      ensures forall id :: id in players && id in exclude ==> players[id].team == old(players[id].team)
    {
      var seen := Playing(exclude);
      var todo := seen.Keys;
      while todo != {}
        invariant todo <= seen.Keys
        invariant forall id :: id in players ==>
                    players[id].team == if id in seen && id !in todo then SURVIVOR else old(players[id].team)
        decreases |todo|
      {
        var id :| id in todo;
        AssignSurvivor(players[id]);
        todo := todo - {id};
      }
    }

    method ArmCountdownIfReady(now: real)
      modifies this`phase, this`infectionDeadline
      ensures old(Timed()) ==> Timed()
      ensures View() == Armed(old(View()), rules)
      ensures phase == Countdown && old(phase) == Waiting ==>
                infectionDeadline == Some(now + if infectionDelay > 0.0 then infectionDelay else 0.0)
    {
      if phase != Waiting {
        return;
      }
      if |Playing({}).Keys| < rules.minimum {
        return;
      }
      phase := Countdown;
      infectionDeadline := Some(now + if infectionDelay > 0.0 then infectionDelay else 0.0);
    }

    /** A new player is already in a slot; the hook settles their side. */
    method OnPlayerJoin(player: Player, now: real)
      requires Valid() && player.id in players && players[player.id] == player && Playable(player.team)
      modifies this`phase, this`infectionDeadline, player`team
      ensures old(Timed()) ==> Timed()
      ensures Valid()
      ensures var before := old(Seen({player.id}));
              View() == Joined(before, player.id, old(player.team), rules)
    {
      if phase == Active && player.team == ZOMBIE {
        return;
      }
      AssignSurvivor(player);
      assert Playing({}) == old(Playing({player.id}))[player.id := SURVIVOR];
      ArmCountdownIfReady(now);
    }

    /** A spectator's accepted switch reaches the hook with the new side already set. */
    method OnPlayerTeamChange(player: Player, now: real)
      requires Valid() && player.id in players && players[player.id] == player && Playable(player.team)
      modifies this`phase, this`infectionDeadline, player`team
      ensures old(Timed()) ==> Timed()
      ensures Valid() && View() == Switched(old(Seen({player.id})), player.id, old(player.team), rules)
    {
      assert Playing({}) == Playing({player.id})[player.id := player.team];
      if player.team == SURVIVOR {
        ArmCountdownIfReady(now);
      }
    }

    /** The server drops the player from the roster. */
    method RemovePlayer(player: Player)
      requires Valid() && player.id in players && players[player.id] == player
      modifies this`players
      ensures Valid() && players == old(players) - {player.id} && View() == old(Seen({player.id}))
    {
      players := players - {player.id};
      assert Playing({}) == old(Playing({player.id}));
    }

    /** The hook and the removal that follows it at once. `heir` is the draw made when the last zombie leaves. */
    method OnPlayerLeave(player: Player, heir: nat)
      requires Valid() && player.id in players && players[player.id] == player
      requires Enabled(View(), Leave(player.id, heir), rules)
      modifies this, players.Values`team
      ensures old(Timed()) ==> Timed()
      ensures Valid() && players == old(players) - {player.id}
      ensures View() == Departed(old(View()), player.id, heir, rules)
    {
      assert Playing({player.id}) == Playing({}) - {player.id};
      LeaveHook(player, heir);
      RemovePlayer(player);
    }

    method LeaveHook(player: Player, heir: nat)
      requires Valid() && player.id in players && players[player.id] == player
      requires var rest := Playing({player.id}); !Has(rest, ZOMBIE) && Has(rest, SURVIVOR) ==> heir in rest
      modifies this`phase, this`infectionDeadline, this`roundsPlayed, this`zombieScore, this`survivorScore, this`ended
      modifies this`task, this`winner
      modifies players.Values`team
      ensures old(Timed()) ==> Timed()
      ensures Seen({player.id}) == AfterLeave(old(Seen({player.id})), heir, rules)
    {
      if ended {
        return;
      }
      if phase == Countdown {
        if |Playing({player.id}).Keys| < rules.minimum {
          phase := Waiting;
          infectionDeadline := None;
        }
        return;
      }
      if phase != Active {
        return;
      }
      var aborted := AbortIfUnderpopulated({player.id});
      if aborted {
        return;
      }
      Inherit(player, heir);
      CheckPopulation({player.id});
    }

    /** The last zombie leaves: one of the survivors takes over. */
    method Inherit(player: Player, heir: nat)
      requires Valid()
      requires var rest := Playing({player.id}); !Has(rest, ZOMBIE) && Has(rest, SURVIVOR) ==> heir in rest
      modifies players.Values`team
      ensures var rest := old(Playing({player.id}));
              Playing({player.id}) == if !Has(rest, ZOMBIE) && Has(rest, SURVIVOR) then Infected(rest, {heir}) else rest
    {
      var rest := Playing({player.id});
      if !Has(rest, ZOMBIE) && Has(rest, SURVIVOR) {
        InfectSeen(players[heir], {player.id});
      }
    }

    /** A killed survivor turns at once. */
    method OnPlayerDeath(player: Player, transition: bool)
      requires Valid() && (player.id in players && players[player.id] == player ==> Playable(player.team))
      modifies this`phase, this`infectionDeadline, this`roundsPlayed, this`zombieScore, this`survivorScore, this`ended
      modifies this`task, this`winner
      modifies player`team
      ensures old(Timed()) ==> Timed()
      ensures View() == if transition || player.id !in players || players[player.id] != player then old(View())
                        else Died(old(View()), player.id, rules)
    {
      if ended || transition || phase != Active || player.team != SURVIVOR {
        return;
      }
      if player.id !in players || players[player.id] != player {
        return;
      }
      InfectSeen(player, {});
      CheckPopulation({});
    }

    /** The countdown is over: some of the living survivors turn, but never all of them. */
    method StartOutbreak(living: set<nat>, chosen: set<nat>, now: real)
      requires Valid() && !ended && phase == Countdown
      requires forall id :: id in living ==> id in Playing({}) && Playing({})[id] == SURVIVOR
      requires |living| >= 2 ==> chosen <= living && |chosen| == Min(rules.firstInfected, |living| - 1)
      modifies this`phase, this`infectionDeadline, players.Values`team
      ensures old(Timed()) ==> Timed()
      ensures View() == if |living| >= 2 then Broken(old(View()), living, chosen)
                        else if old(|Playing({}).Keys|) < rules.minimum then old(View()).(phase := Waiting)
                        else old(View())
      ensures phase == Countdown ==> infectionDeadline == Some(now + OUTBREAK_RETRY_SECONDS)
    {
      if |living| < 2 {
        if |Playing({}).Keys| < rules.minimum {
          phase := Waiting;
          infectionDeadline := None;
        } else {
          infectionDeadline := Some(now + OUTBREAK_RETRY_SECONDS);
        }
        return;
      }
      phase := Active;
      infectionDeadline := None;
      InfectAll(chosen);
    }

    method InfectAll(chosen: set<nat>)
      requires Valid() && forall id :: id in chosen ==> id in Playing({})
      modifies players.Values`team
      ensures Playing({}) == Infected(old(Playing({})), chosen)
    {
      var todo := chosen;
      while todo != {}
        invariant todo <= chosen
        invariant forall id :: id in players ==>
                    players[id].team == if id in chosen && id !in todo then ZOMBIE else old(players[id].team)
        decreases |todo|
      {
        var id :| id in todo;
        Infect(players[id]);
        todo := todo - {id};
      }
    }

    /** The round clock ran out: whoever still lives has won. */
    method EndByTime()
      requires !ended && phase == Active
      modifies this`phase, this`infectionDeadline, this`roundsPlayed, this`zombieScore, this`survivorScore, this`ended
      modifies this`task, this`winner
      ensures old(Timed()) ==> Timed()
      ensures View() == Next(old(View()), TimeUp, rules)
    {
      FinishRound(if Has(Playing({}), SURVIVOR) then SURVIVOR else ZOMBIE, {});
    }

    /** The tick's population checks. */
    method AuditPopulation()
      requires Valid()
      modifies this`phase, this`infectionDeadline, this`roundsPlayed, this`zombieScore, this`survivorScore, this`ended
      modifies this`task, this`winner
      modifies players.Values`team
      ensures old(Timed()) ==> Timed()
      ensures View() == Audited(old(View()), rules)
    {
      if ended || phase != Active {
        return;
      }
      var aborted := AbortIfUnderpopulated({});
      if !aborted {
        CheckPopulation({});
      }
    }

    /** The intermission is over: everybody in the game is queued for a fresh life. */
    method BeginNextRound(queue: seq<Player>, now: real)
      requires task && !ended && phase == Intermission
      requires queue == [] <==> Playing({}) == map[]
      modifies this`phase, this`infectionDeadline, this`task, this`resetQueue
      ensures old(Timed()) ==> Timed()
      ensures View() == Next(old(View()), NextRound(queue != []), rules) && resetQueue == queue
    {
      task := false;
      phase := Waiting;
      infectionDeadline := None;
      resetQueue := queue;
      if resetQueue != [] {
        phase := Resetting;
        return;
      }
      ArmCountdownIfReady(now);
    }

    /** One queued player, found again by identity: a reused slot never gets the departed player's life. */
    method ResetOne() returns (reset: Option<Player>)
      requires Valid() && phase == Resetting && resetQueue != []
      modifies this`resetQueue, players.Values`team
      ensures resetQueue == old(resetQueue)[1..]
      ensures var p := old(resetQueue)[0];
              if p.id in players && players[p.id] == p && Playable(old(p.team))
              then reset == Some(p) && View() == Next(old(View()), Reassign(p.id), rules)
              else reset == None && View() == old(View())
    {
      var p := resetQueue[0];
      resetQueue := resetQueue[1..];
      if p.id !in players || players[p.id] != p || !Playable(p.team) {
        return None;
      }
      AssignSurvivor(p);
      assert Playing({}) == old(Playing({}))[p.id := SURVIVOR];
      reset := Some(p);
    }

    /** A bounded slice of the queue a tick; the last slice opens the next countdown. */
    method DrainRoundReset(now: real) returns (ghost events: seq<Event>)
      requires Valid() && phase == Resetting && !ended
      modifies this`resetQueue, this`phase, this`infectionDeadline, players.Values`team
      ensures old(Timed()) ==> Timed()
      ensures Follows(old(View()), View(), events, rules)
      ensures resetQueue == old(resetQueue)[Min(respawnsPerTick, |old(resetQueue)|)..]
      ensures phase == Resetting <==> resetQueue != []
    {
      events := DrainSlice();
      if resetQueue == [] {
        FollowsOneMore(old(View()), View(), events, Drained, rules);
        phase := Waiting;
        ArmCountdownIfReady(now);
        events := events + [Drained];
      }
    }

    method DrainSlice() returns (ghost events: seq<Event>)
      requires Valid() && phase == Resetting && !ended
      modifies this`resetQueue, players.Values`team
      ensures Follows(old(View()), View(), events, rules)
      ensures resetQueue == old(resetQueue)[Min(respawnsPerTick, |old(resetQueue)|)..]
    {
      events := [];
      var done := 0;
      while done < respawnsPerTick && resetQueue != []
        invariant done <= Min(respawnsPerTick, |old(resetQueue)|) && resetQueue == old(resetQueue)[done..]
        invariant Follows(old(View()), View(), events, rules)
      {
        ghost var p := resetQueue[0];
        if p.id in players && players[p.id] == p && Playable(p.team) {
          FollowsOneMore(old(View()), View(), events, Reassign(p.id), rules);
          events := events + [Reassign(p.id)];
        }
        var _ := ResetOne();
        done := done + 1;
      }
    }
  }
}
