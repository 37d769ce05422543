/** VIP scoring: sub-rounds, the points their VIP losses pay, and how the match ends. */
module VipScore {
  import opened Wrappers
  import opened Teams

  datatype Phase = Waiting | Resetting | Selecting | Active | Intermission

  /** One paid VIP loss: the sub-round it fell in, and the team that lost its VIP. */
  datatype Payment = Payment(round: nat, loser: Team)

  /** `task` is the pending intermission task, `round` counts the sub-rounds begun, `paid` logs every point. */
  datatype State = State(
    phase: Phase, ended: bool, retiring: bool, blue: nat, green: nat, awarded: set<Team>,
    task: bool, winner: Option<Team>, round: nat, paid: set<Payment>)

  datatype Rules = Rules(limit: int, suddenDeath: bool)

  datatype Event =
    | Lose(team: Team)
    | Finish
    | NextRound(queued: bool)
    | Drained
    | Armed(ready: bool)
    | Selected(ready: bool)
    | Retire

  function Score(s: State, team: Team): nat {
    if team == Blue then s.blue else if team == Green then s.green else 0
  }

  function Max(a: nat, b: nat): nat {
    if a < b then b else a
  }

  /** The end of a match, unless it is over or being replaced already. */
  function Ended(s: State, winner: Option<Team>): State {
    if s.ended || s.retiring then s else s.(ended := true, winner := winner)
  }

  /** The leader by score; nobody on a tie. */
  function Leader(s: State): Option<Team> {
    if s.blue > s.green then Some(Blue) else if s.green > s.blue then Some(Green) else None
  }

  function Finished(s: State, r: Rules): State {
    if s.phase == Intermission || s.ended then s
    else
      var t := s.(phase := Intermission);
      if r.limit > 0 && Max(s.blue, s.green) >= r.limit then Ended(t, Leader(t)) else t.(task := true)
  }

  function Scored(s: State, loser: Team): State {
    s.(awarded := s.awarded + {loser}, paid := s.paid + {Payment(s.round, loser)},
       blue := s.blue + (if loser == Green then 1 else 0), green := s.green + (if loser == Blue then 1 else 0))
  }

  function Lost(s: State, loser: Team, r: Rules): State {
    if loser in s.awarded then s
    else
      var t := Scored(s, loser);
      if (r.limit > 0 && t.blue == t.green && t.blue >= r.limit) || !r.suddenDeath then Finished(t, r) else t
  }

  function Begun(s: State, queued: bool): State {
    s.(awarded := {}, round := s.round + 1, task := false, phase := if queued then Resetting else Waiting)
  }

  ghost predicate Enabled(s: State, e: Event) {
    match e
    case Lose(team) => Playable(team) && s.phase == Active && !s.ended
    case Finish => s.phase == Active && !s.ended
    case NextRound(_) => s.task && !s.ended
    case Drained => s.phase == Resetting && !s.ended
    case Armed(_) => !s.ended && (s.phase == Waiting || s.phase == Selecting)
    case Selected(_) => s.phase == Selecting && !s.ended
    case Retire => true
  }

  function Next(s: State, e: Event, r: Rules): State {
    match e
    case Lose(team) => Lost(s, team, r)
    case Finish => Finished(s, r)
    case NextRound(queued) => Begun(s, queued)
    case Drained => s.(phase := Waiting)
    case Armed(ready) => s.(phase := if ready then Selecting else Waiting)
    case Selected(ready) => s.(phase := if ready then Active else Waiting)
    case Retire => s.(retiring := true)
  }

  function Start(): State {
    State(Waiting, false, false, 0, 0, {}, false, None, 0, {})
  }

  ghost predicate EnabledRun(s: State, events: seq<Event>, r: Rules)
    decreases |events|
  {
    events == [] || (Enabled(s, events[0]) && EnabledRun(Next(s, events[0], r), events[1..], r))
  }

  ghost function Run(s: State, events: seq<Event>, r: Rules): State
    decreases |events|
  {
    if events == [] then s else Run(Next(s, events[0], r), events[1..], r)
  }

  /** The points of one side are the logged losses of the other. */
  function LossesOf(paid: set<Payment>, loser: Team): set<Payment> {
    set p | p in paid && p.loser == loser
  }

  ghost predicate Ledger(s: State) {
    && s.blue == |LossesOf(s.paid, Green)| && s.green == |LossesOf(s.paid, Blue)|
    && (forall p :: p in s.paid ==> p.round <= s.round && Playable(p.loser))
    && (forall t :: t in s.awarded <==> Payment(s.round, t) in s.paid)
  }

  /** A side below the limit that has not scored yet in this sub-round is still below it when it does. */
  ghost predicate Bounded(s: State, r: Rules) {
    r.limit > 0 ==>
      && s.blue <= r.limit && s.green <= r.limit
      && (s.phase != Intermission && Green !in s.awarded ==> s.blue < r.limit)
      && (s.phase != Intermission && Blue !in s.awarded ==> s.green < r.limit)
      && (s.task ==> s.blue < r.limit && s.green < r.limit)
      && (s.phase != Intermission ==> !(s.blue == r.limit && s.green == r.limit))
  }

  /** The intermission task runs in the intermission only, and a match ends there with its result by score. */
  ghost predicate Settled(s: State, r: Rules) {
    && (s.task ==> s.phase == Intermission && !s.ended)
    && (!s.ended ==> s.winner == None)
    && (s.ended ==> r.limit > 0 && s.phase == Intermission && Max(s.blue, s.green) == r.limit && s.winner == Leader(s))
    && (s.phase == Intermission && !s.ended && !s.task ==> s.retiring)
  }

  ghost predicate Inv(s: State, r: Rules) {
    Ledger(s) && Bounded(s, r) && Settled(s, r)
  }

  lemma LossesAfter(paid: set<Payment>, p: Payment, loser: Team)
    requires p !in paid
    ensures |LossesOf(paid + {p}, loser)| == |LossesOf(paid, loser)| + if p.loser == loser then 1 else 0
  {
    assert LossesOf(paid + {p}, loser) == LossesOf(paid, loser) + if p.loser == loser then {p} else {};
  }

  lemma OneMoreLoss(s: State, loser: Team)
    requires Ledger(s) && Playable(loser) && loser !in s.awarded
    ensures Ledger(Scored(s, loser))
  {
    var p := Payment(s.round, loser);
    LossesAfter(s.paid, p, Blue);
    LossesAfter(s.paid, p, Green);
  }

  lemma FinishKeepsInv(s: State, r: Rules)
    requires Ledger(s) && s.phase == Active && !s.ended && !s.task && s.winner == None
    requires r.limit > 0 ==> s.blue <= r.limit && s.green <= r.limit
    ensures Inv(Finished(s, r), r)
  {}

  lemma LossKeepsInv(s: State, loser: Team, r: Rules)
    requires Inv(s, r) && Enabled(s, Lose(loser))
    ensures Inv(Lost(s, loser, r), r)
  {
    if loser !in s.awarded {
      OneMoreLoss(s, loser);
      var t := Scored(s, loser);
      if Finished(t, r) == Lost(s, loser, r) {
        FinishKeepsInv(t, r);
      }
    }
  }

  /**
   * The first loss of a VIP in a sub-round pays the other side one point; it ends the sub-round at once without
   * sudden death, and in sudden death only with both sides at the limit. A second report does nothing.
   */
  lemma LossPaysTheOtherSide(s: State, loser: Team, r: Rules)
    requires Inv(s, r) && Enabled(s, Lose(loser))
    ensures var t := Next(s, Lose(loser), r);
            if loser in s.awarded then t == s
            else
              && Score(t, Other(loser)) == Score(s, Other(loser)) + 1 && Score(t, loser) == Score(s, loser)
              && t.awarded == s.awarded + {loser} && t.round == s.round
              && (t.phase == Intermission <==>
                    !r.suddenDeath || (r.limit > 0 && t.blue >= r.limit && t.green >= r.limit))
              && (t.phase != Intermission ==> t.phase == Active && !t.ended)
  {}

  /** Only a loss pays, and only the end of a sub-round without the limit reached leaves another one to come. */
  lemma NothingElsePays(s: State, e: Event, r: Rules)
    requires Inv(s, r) && Enabled(s, e) && !e.Lose?
    ensures var t := Next(s, e, r);
            && t.blue == s.blue && t.green == s.green && t.paid == s.paid
            && (e == Finish ==>
                  && t.phase == Intermission
                  && (t.ended <==> !s.retiring && r.limit > 0 && (s.blue >= r.limit || s.green >= r.limit))
                  && (t.task <==> !(r.limit > 0 && (s.blue >= r.limit || s.green >= r.limit))))
            && (e.NextRound? ==> t.awarded == {} && t.round == s.round + 1 && !t.ended &&
                                 t.phase == if e.queued then Resetting else Waiting)
            && (e.Selected? ==> t.phase == if e.ready then Active else Waiting)
            && (e.Armed? ==> t.phase == if e.ready then Selecting else Waiting)
  {}

  /** A sub-round starts by a selection that succeeds, from a countdown that readiness has started, and only so. */
  lemma OnlyASelectionStarts(s: State, e: Event, r: Rules)
    requires Enabled(s, e)
    ensures var t := Next(s, e, r);
            && (t.phase == Active && s.phase != Active ==> e == Selected(true) && s.phase == Selecting)
            && (t.phase == Selecting && s.phase != Selecting ==> e == Armed(true) && s.phase == Waiting)
            && (e == Selected(true) ==> t.phase == Active) && (e == Armed(true) ==> t.phase == Selecting)
            && (e.NextRound? ==> t.phase == if e.queued then Resetting else Waiting)
            && (e == Drained || e == Armed(false) || e == Selected(false) ==> t.phase == Waiting)
  {}

  lemma NextKeepsInv(s: State, e: Event, r: Rules)
    requires Inv(s, r) && Enabled(s, e)
    ensures Inv(Next(s, e, r), r)
  {
    match e
    case Lose(team) => LossKeepsInv(s, team, r);
    case Finish => FinishKeepsInv(s, r);
    case NextRound(_) =>
    case Drained =>
    case Armed(_) =>
    case Selected(_) =>
    case Retire =>
  }

  /** Over any match: no score passes the limit, and every point is one logged VIP loss. */
  lemma {:induction false} EveryMatchIsSound(s: State, events: seq<Event>, r: Rules)
    requires Inv(s, r) && EnabledRun(s, events, r)
    ensures Inv(Run(s, events, r), r)
    decreases |events|
  {
    if events != [] {
      NextKeepsInv(s, events[0], r);
      EveryMatchIsSound(Next(s, events[0], r), events[1..], r);
    }
  }

  /** A match ends with the leader as winner, and in a draw exactly when both sides stand at the limit. */
  lemma ResultIsByScore(events: seq<Event>, r: Rules)
    requires EnabledRun(Start(), events, r)
    ensures var s := Run(Start(), events, r);
            s.ended ==>
              && (s.winner == Some(Blue) <==> s.blue > s.green) && (s.winner == Some(Green) <==> s.green > s.blue)
              && (s.blue == r.limit || s.green == r.limit)
              && (s.winner == None <==> s.blue == r.limit && s.green == r.limit)
  {
    StartIsSound(r);
    EveryMatchIsSound(Start(), events, r);
  }

  lemma StartIsSound(r: Rules)
    ensures Inv(Start(), r)
  {
    assert LossesOf({}, Blue) == {} && LossesOf({}, Green) == {};
  }

  /** No sub-round begins once a score has reached the limit. */
  lemma NoRoundPastTheLimit(events: seq<Event>, r: Rules, queued: bool)
    requires EnabledRun(Start(), events, r) && r.limit > 0
    requires Enabled(Run(Start(), events, r), NextRound(queued))
    ensures var s := Run(Start(), events, r); s.blue < r.limit && s.green < r.limit
  {
    StartIsSound(r);
    EveryMatchIsSound(Start(), events, r);
  }

  lemma AwardedStays(s: State, e: Event, loser: Team, r: Rules)
    requires Enabled(s, e) && !e.NextRound? && loser in s.awarded
    ensures var t := Next(s, e, r); loser in t.awarded && LossesOf(t.paid, loser) == LossesOf(s.paid, loser)
  {
    match e
    case Lose(team) =>
      assert LossesOf(s.paid + {Payment(s.round, Other(loser))}, loser) == LossesOf(s.paid, loser);
    case _ =>
  }

  /** Losing the same VIP again in a sub-round, by whatever hook reports it, pays nothing. */
  lemma {:induction false} PaidOnceASubRound(s: State, events: seq<Event>, loser: Team, r: Rules)
    requires EnabledRun(s, events, r) && loser in s.awarded
    requires forall i :: 0 <= i < |events| ==> !events[i].NextRound?
    ensures var t := Run(s, events, r); loser in t.awarded && LossesOf(t.paid, loser) == LossesOf(s.paid, loser)
    decreases |events|
  {
    if events != [] {
      AwardedStays(s, events[0], loser, r);
      PaidOnceASubRound(Next(s, events[0], r), events[1..], loser, r);
    }
  }

  ghost predicate Follows(s: State, t: State, events: seq<Event>, r: Rules) {
    EnabledRun(s, events, r) && Run(s, events, r) == t
  }

  lemma FollowsNothing(s: State, r: Rules)
    ensures Follows(s, s, [], r)
  {}

  lemma {:induction false} FollowsOneMore(s: State, t: State, events: seq<Event>, e: Event, r: Rules)
    requires Follows(s, t, events, r) && Enabled(t, e)
    ensures Follows(s, Next(t, e, r), events + [e], r)
    decreases |events|
  {
    if events == [] {
      assert events + [e] == [e];
      var u := Next(s, e, r);
      assert EnabledRun(u, [e][1..], r) && Run(u, [e][1..], r) == u;
    } else {
      assert (events + [e])[1..] == events[1..] + [e];
      FollowsOneMore(Next(s, events[0], r), t, events[1..], e, r);
    }
  }
}

/** The sudden-death clock of one sub-round. */
module VipClock {
  import opened Wrappers
  import opened Teams

  const VIP_SUDDEN_DEATH_GRACE_SECONDS := 6.0
  const VIP_FINAL_MINUTE_SECONDS := 60.0
  const VIP_SUDDEN_DEATH_DAMAGE_FREQUENCY := 1.0

  datatype Clock = Clock(
    started: real, deadline: Option<real>,
    activateBlue: Option<real>, activateGreen: Option<real>, bleedBlue: Option<real>, bleedGreen: Option<real>)

  /** When the sub-round runs out; none with neither a time limit nor a cap. */
  function RunsOut(c: Clock, limit: real): Option<real> {
    if c.deadline.Some? then c.deadline else if limit > 0.0 then Some(c.started + limit) else None
  }

  /** Never later than now and a minute. */
  function Capped(c: Clock, limit: real, now: real): Clock {
    var out := RunsOut(c, limit);
    if out.None? || out.value - now > VIP_FINAL_MINUTE_SECONDS
    then c.(deadline := Some(now + VIP_FINAL_MINUTE_SECONDS)) else c
  }

  function Activate(c: Clock, team: Team): Option<real> {
    if team == Blue then c.activateBlue else c.activateGreen
  }

  function Bleed(c: Clock, team: Team): Option<real> {
    if team == Blue then c.bleedBlue else c.bleedGreen
  }

  /** A VIP is lost: the grace period of its team starts. */
  function Bereft(c: Clock, team: Team, now: real): Clock {
    if team == Blue then c.(activateBlue := Some(now + VIP_SUDDEN_DEATH_GRACE_SECONDS), bleedBlue := None)
    else c.(activateGreen := Some(now + VIP_SUDDEN_DEATH_GRACE_SECONDS), bleedGreen := None)
  }

  /** One team's share of a sudden-death tick: the cap when the grace is over, then the bleeding. */
  function TeamTick(c: Clock, team: Team, limit: real, now: real): Clock {
    var due := Activate(c, team).Some? && now >= Activate(c, team).value;
    var d := if !due then c
             else if team == Blue then Capped(c, limit, now).(activateBlue := None, bleedBlue := Some(now))
             else Capped(c, limit, now).(activateGreen := None, bleedGreen := Some(now));
    if Bleed(d, team).None? || now < Bleed(d, team).value then d
    else if team == Blue then d.(bleedBlue := Some(now + VIP_SUDDEN_DEATH_DAMAGE_FREQUENCY))
    else d.(bleedGreen := Some(now + VIP_SUDDEN_DEATH_DAMAGE_FREQUENCY))
  }

  predicate BuzzerGone(c: Clock, now: real) {
    c.deadline.Some? && now >= c.deadline.value
  }

  function Advance(c: Clock, limit: real, now: real): Clock {
    if BuzzerGone(c, now) then c else TeamTick(TeamTick(c, Blue, limit, now), Green, limit, now)
  }

  datatype Event = Loss(team: Team, at: real) | Tick(now: real)

  function Next(c: Clock, e: Event, limit: real): Clock {
    match e case Loss(team, at) => Bereft(c, team, at) case Tick(now) => Advance(c, limit, now)
  }

  function Run(c: Clock, events: seq<Event>, limit: real): Clock
    decreases |events|
  {
    if events == [] then c else Run(Next(c, events[0], limit), events[1..], limit)
  }

  predicate NoLater(x: Option<real>, y: Option<real>) {
    y.Some? ==> x.Some? && x.value <= y.value
  }

  lemma CapOnlyShortens(c: Clock, limit: real, now: real)
    ensures NoLater(RunsOut(Capped(c, limit, now), limit), RunsOut(c, limit))
    ensures NoLater(RunsOut(Capped(c, limit, now), limit), Some(now + VIP_FINAL_MINUTE_SECONDS))
  {}

  /** The cap leaves exactly the lesser of a minute and what was left. */
  lemma CapIsTheLesser(c: Clock, limit: real, now: real)
    ensures var before, after := RunsOut(c, limit), RunsOut(Capped(c, limit, now), limit);
            after == if before.Some? && before.value <= now + VIP_FINAL_MINUTE_SECONDS then before
                     else Some(now + VIP_FINAL_MINUTE_SECONDS)
  {}

  /** A bereaved team bleeds once a second: a tick before its time takes nothing, the first one after sets the next. */
  lemma BleedsEverySecond(c: Clock, team: Team, limit: real, now: real)
    requires Playable(team) && !BuzzerGone(c, now) && Activate(c, team).None? && Bleed(c, team).Some?
    requires Activate(c, Other(team)).None?
    ensures Bleed(Advance(c, limit, now), team) ==
            if now < Bleed(c, team).value then Bleed(c, team) else Some(now + VIP_SUDDEN_DEATH_DAMAGE_FREQUENCY)
    ensures RunsOut(Advance(c, limit, now), limit) == RunsOut(c, limit)
  {}

  /** At the end of the grace, and not before, a tick caps the sub-round and starts the bleeding. */
  lemma GraceEnds(c: Clock, team: Team, limit: real, now: real)
    requires Playable(team) && !BuzzerGone(c, now) && Activate(c, team).Some? && Activate(c, Other(team)).None?
    ensures var d := Advance(c, limit, now);
            if now < Activate(c, team).value then
              Activate(d, team) == Activate(c, team) && RunsOut(d, limit) == RunsOut(c, limit)
            else
              && Activate(d, team) == None && Bleed(d, team) == Some(now + VIP_SUDDEN_DEATH_DAMAGE_FREQUENCY)
              && RunsOut(d, limit) == RunsOut(Capped(c, limit, now), limit)
  {}

  lemma TickOnlyShortens(c: Clock, team: Team, limit: real, now: real)
    ensures NoLater(RunsOut(TeamTick(c, team, limit, now), limit), RunsOut(c, limit))
    ensures Activate(c, team).Some? && now >= Activate(c, team).value ==>
              NoLater(RunsOut(TeamTick(c, team, limit, now), limit), Some(now + VIP_FINAL_MINUTE_SECONDS))
  {
    CapOnlyShortens(c, limit, now);
  }

  /** Within a sub-round the end never moves later, whatever is lost and however the ticks fall. */
  lemma {:induction false} EndNeverMovesLater(c: Clock, events: seq<Event>, limit: real)
    ensures NoLater(RunsOut(Run(c, events, limit), limit), RunsOut(c, limit))
    decreases |events|
  {
    if events != [] {
      var d := Next(c, events[0], limit);
      if events[0].Tick? {
        TickOnlyShortens(c, Blue, limit, events[0].now);
        TickOnlyShortens(TeamTick(c, Blue, limit, events[0].now), Green, limit, events[0].now);
      }
      EndNeverMovesLater(d, events[1..], limit);
    }
  }

  /** What can happen while the grace of `team` lasts: any tick before its end, any loss of the other VIP. */
  predicate InGrace(e: Event, team: Team, at: real) {
    match e
    case Loss(other, _) => Playable(other) && other != team
    case Tick(now) => now < at + VIP_SUDDEN_DEATH_GRACE_SECONDS
  }

  /** The clock with nothing pending for `team`. */
  function Spared(c: Clock, team: Team): Clock {
    if team == Blue then c.(activateBlue := None, bleedBlue := None) else c.(activateGreen := None, bleedGreen := None)
  }

  lemma GraceStep(c: Clock, e: Event, team: Team, at: real, limit: real)
    requires Playable(team) && InGrace(e, team, at) && c == Spared(c, team)
    ensures Next(c, e, limit) == Spared(Next(c, e, limit), team)
    ensures Next(Bereft(c, team, at), e, limit) == Bereft(Next(c, e, limit), team, at)
  {}

  /** Until the grace is over the loss has no effect at all: the sub-round runs as if it had not happened. */
  lemma {:induction false} GraceIsKept(c: Clock, team: Team, at: real, mid: seq<Event>, limit: real)
    requires Playable(team) && forall e :: e in mid ==> InGrace(e, team, at)
    ensures Run(Bereft(c, team, at), mid, limit) == Bereft(Run(Spared(c, team), mid, limit), team, at)
    decreases |mid|
  {
    if mid != [] {
      var d := Spared(c, team);
      GraceStep(d, mid[0], team, at, limit);
      GraceIsKept(Next(d, mid[0], limit), team, at, mid[1..], limit);
    }
  }

  /**
   * However the grace goes by, from the first tick after it the sub-round has at most a minute
   * left, for good, and unless it has run out already the team bleeds.
   */
  lemma GraceThenOneMinute(
      c: Clock, team: Team, at: real, mid: seq<Event>, now: real, later: seq<Event>, limit: real)
    requires Playable(team) && now >= at + VIP_SUDDEN_DEATH_GRACE_SECONDS
    requires forall e :: e in mid ==> InGrace(e, team, at)
    ensures var d := Run(Bereft(c, team, at), mid, limit);
            NoLater(RunsOut(Run(Advance(d, limit, now), later, limit), limit), Some(now + VIP_FINAL_MINUTE_SECONDS)) &&
            (BuzzerGone(d, now) || Bleed(Advance(d, limit, now), team) == Some(now + VIP_SUDDEN_DEATH_DAMAGE_FREQUENCY))
  {
    GraceIsKept(c, team, at, mid, limit);
    var d := Run(Bereft(c, team, at), mid, limit);
    if !BuzzerGone(d, now) {
      TickOnlyShortens(d, Blue, limit, now);
      TickOnlyShortens(TeamTick(d, Blue, limit, now), Green, limit, now);
    }
    EndNeverMovesLater(Advance(d, limit, now), later, limit);
  }
}

/** VIP: the hooks, proved against the scoring and the clock. */
module VipMatch {
  import opened Wrappers
  import opened Teams
  import opened Roster
  import opened VipScore
  import C = VipClock

  /** Who could hold the crown of a team, the draw among them, and whether the promotion goes through. */
  datatype Draw = Draw(living: seq<Player>, others: seq<Player>, pick: nat, promoted: bool)

  function Candidates(d: Draw): seq<Player> {
    if d.living != [] then d.living else d.others
  }

  /** A running sub-round ends when a bereaved team, which has no respawns, has nobody standing. */
  ghost function Elimination(s: State, standing: set<Team>, r: Rules): seq<Event> {
    if !s.ended && s.phase == Active && r.suddenDeath && (exists t :: Playable(t) && t in s.awarded && t !in standing)
    then [Finish] else []
  }

  /** A team without a VIP that has nobody standing ends the sub-round; while both stand it goes on. */
  lemma NobodyStandingEndsIt(s: State, standing: set<Team>, r: Rules)
    requires s.phase == Active && !s.ended && r.suddenDeath
    ensures var t := Run(s, Elimination(s, standing, r), r);
            && EnabledRun(s, Elimination(s, standing, r), r)
            && ((Blue in s.awarded && Blue !in standing) || (Green in s.awarded && Green !in standing) <==> t != s)
            && (t != s ==> t.phase == Intermission && t.awarded == s.awarded && t.blue == s.blue && t.green == s.green)
  {
    FollowsNothing(s, r);
    FollowsOneMore(s, s, [], Finish, r);
    assert [] + [Finish] == [Finish];
  }

  ghost function WithElimination(s: State, losses: seq<Event>, standing: set<Team>, r: Rules): seq<Event>
    requires EnabledRun(s, losses, r)
  {
    losses + Elimination(Run(s, losses, r), standing, r)
  }

  /** Before a sub-round the selection follows who is ready. */
  ghost function Arming(s: State, ready: bool): seq<Event> {
    if !s.ended && (s.phase == Waiting || s.phase == Selecting) then [Armed(ready)] else []
  }

  /** Readiness starts the countdown to a selection, and stops it when it is lost. */
  lemma SelectionFollowsReadiness(s: State, ready: bool, r: Rules)
    requires !s.ended && (s.phase == Waiting || s.phase == Selecting)
    ensures EnabledRun(s, Arming(s, ready), r)
    ensures Run(s, Arming(s, ready), r) == s.(phase := if ready then Selecting else Waiting)
  {
    FollowsNothing(s, r);
    FollowsOneMore(s, s, [], Armed(ready), r);
    assert [] + [Armed(ready)] == [Armed(ready)];
  }

  /** A loss or an elimination does not lead back to the selection, so arming can be judged before it. */
  lemma NothingToArm(s: State, losses: seq<Event>, standing: set<Team>, ready: bool, r: Rules)
    requires EnabledRun(s, losses, r) && (losses == [] || exists t :: losses == [Lose(t)])
    ensures Arming(Run(s, WithElimination(s, losses, standing, r), r), ready) == Arming(s, ready)
  {
    var t := Run(s, losses, r);
    var last := Elimination(t, standing, r);
    if losses != [] {
      FollowsOneMore(s, s, [], losses[0], r);
      assert [] + [losses[0]] == losses;
    }
    if last == [] {
      assert losses + last == losses;
    } else {
      FollowsOneMore(s, t, losses, Finish, r);
    }
  }

  /** A departing VIP's crown is handed over. */
  predicate PassesOn(reassign: bool, d: Draw) {
    reassign && Candidates(d) != [] && d.promoted
  }

  /** The losses of one audit: Blue's first, and Green's only if that has not ended the sub-round. */
  ghost function AuditLosses(s: State, blue: bool, green: bool, r: Rules): seq<Event> {
    var first := if blue then [Lose(Blue)] else [];
    var t := if blue then Lost(s, Blue, r) else s;
    if green && t.phase == Active && !t.ended then first + [Lose(Green)] else first
  }

  /** An audit that finds both VIPs gone counts both, unless the first has ended the sub-round. */
  lemma AuditCountsTheLosses(s: State, blue: bool, green: bool, r: Rules)
    requires s.phase == Active && !s.ended && s.awarded == {}
    ensures var events := AuditLosses(s, blue, green, r);
            && EnabledRun(s, events, r)
            && (Blue in Run(s, events, r).awarded <==> blue)
            && (Green in Run(s, events, r).awarded <==> green && (blue ==> Lost(s, Blue, r).phase == Active))
  {
    var t := if blue then Lost(s, Blue, r) else s;
    FollowsNothing(s, r);
    FollowsOneMore(s, s, [], Lose(Blue), r);
    FollowsOneMore(s, s, [], Lose(Green), r);
    assert [] + [Lose(Blue)] == [Lose(Blue)] && [] + [Lose(Green)] == [Lose(Green)];
    if blue && t.phase == Active && !t.ended {
      FollowsOneMore(s, t, [Lose(Blue)], Lose(Green), r);
    }
  }

  class VIPMode {
    const rules: Rules
    const timeLimit: real
    const reassign: bool
    const respawnsPerTick: nat
    const selectionDelay: real
    var phase: Phase
    var ended: bool
    var retiring: bool
    var blueScore: nat
    var greenScore: nat
    var awarded: set<Team>
    var task: bool
    var winner: Option<Team>
    var vips: map<Team, Player>
    var vipAlive: set<Team>
    var respawnEnabled: set<Team>
    var resetQueue: seq<Player>
    var selectionDeadline: Option<real>
    var clock: C.Clock
    ghost var round: nat
    ghost var paid: set<Payment>

    ghost function View(): State
      reads this
    {
      State(phase, ended, retiring, blueScore, greenScore, awarded, task, winner, round, paid)
    }

    /** In play, a team has a live VIP and respawns until its loss has been paid; then it has neither. */
    ghost predicate Valid()
      reads this
    {
      && vipAlive <= vips.Keys && respawnsPerTick >= 1
      && (phase == Active ==> InPlay(Blue) && InPlay(Green))
      && (phase != Active && phase != Intermission ==> awarded == {})
    }

    /** `player` is the live VIP of a running sub-round. */
    predicate IsLiveVip(team: Team, player: Player)
      reads this`ended, this`phase, this`vips, this`vipAlive
    {
      !ended && phase == Active && Playable(team) && team in vips && vips[team] == player && team in vipAlive
    }

    ghost predicate InPlay(t: Team)
      reads this`vipAlive, this`awarded, this`respawnEnabled
    {
      (t in vipAlive <==> t !in awarded) && (t in respawnEnabled <==> t !in awarded || !rules.suddenDeath)
    }

    constructor (rules: Rules, timeLimit: real, reassign: bool, respawnsPerTick: nat, selectionDelay: real, now: real)
      requires respawnsPerTick >= 1
      ensures Valid() && View() == Start() && this.rules == rules
      ensures resetQueue == [] && selectionDeadline == None && clock == C.Clock(now, None, None, None, None, None)
    {
      this.rules, this.timeLimit, this.reassign := rules, timeLimit, reassign;
      this.respawnsPerTick, this.selectionDelay := respawnsPerTick, selectionDelay;
      phase, ended, retiring, blueScore, greenScore := Waiting, false, false, 0, 0;
      awarded, task, winner, vips, vipAlive, respawnEnabled := {}, false, None, map[], {}, {Blue, Green};
      resetQueue, selectionDeadline := [], None;
      clock := C.Clock(now, None, None, None, None, None);
      round, paid := 0, {};
    }

    method EndMatch(result: Option<Team>)
      modifies this`ended, this`winner
      ensures View() == Ended(old(View()), result)
    {
      if ended || retiring {
        return;
      }
      ended := true;
      winner := result;
    }

    /** A sub-round is over; the match too, once a side has the points for it. */
    method FinishRound()
      modifies this`phase, this`task, this`ended, this`winner, this`clock
      ensures View() == Finished(old(View()), rules)
      ensures clock == if old(phase) == Intermission || old(ended) then old(clock)
                       else C.Clock(old(clock).started, None, None, None, None, None)
    {
      if phase == Intermission || ended {
        return;
      }
      phase := Intermission;
      clock := C.Clock(clock.started, None, None, None, None, None);
      if rules.limit > 0 && Max(blueScore, greenScore) >= rules.limit {
        if blueScore != greenScore {
          EndMatch(Some(if blueScore > greenScore then Blue else Green));
        } else {
          EndMatch(None);
        }
        return;
      }
      task := true;
    }

    method PayLoss(team: Team)
      requires Playable(team) && team !in awarded
      modifies this`vipAlive, this`respawnEnabled, this`awarded, this`blueScore, this`greenScore, this`paid
      ensures View() == Scored(old(View()), team)
      ensures vipAlive == old(vipAlive) - {team}
      ensures respawnEnabled == if rules.suddenDeath then old(respawnEnabled) - {team} else old(respawnEnabled) + {team}
    {
      vipAlive := vipAlive - {team};
      respawnEnabled := if rules.suddenDeath then respawnEnabled - {team} else respawnEnabled + {team};
      awarded := awarded + {team};
      paid := paid + {Payment(round, team)};
      if team == Green { blueScore := blueScore + 1; } else { greenScore := greenScore + 1; }
    }

    /** A VIP is lost: pay the other side, once, and lock the bereaved team out of respawns. */
    method KillVip(team: Team, now: real)
      requires Playable(team) && phase == Active && !ended
      modifies this`vipAlive, this`respawnEnabled, this`awarded, this`blueScore, this`greenScore, this`clock
      modifies this`phase, this`task, this`ended, this`winner, this`paid
      ensures View() == Lost(old(View()), team, rules)
      ensures if team in old(awarded) then vipAlive == old(vipAlive) && respawnEnabled == old(respawnEnabled)
              else vipAlive == old(vipAlive) - {team} &&
                   respawnEnabled ==
                   if rules.suddenDeath then old(respawnEnabled) - {team} else old(respawnEnabled) + {team}
      ensures phase == Active ==>
                clock == if team in old(awarded) || !rules.suddenDeath then old(clock)
                         else C.Bereft(old(clock), team, now)
    {
      if team in awarded {
        return;
      }
      PayLoss(team);
      if rules.suddenDeath {
        clock := C.Bereft(clock, team, now);
      }
      if rules.limit > 0 && blueScore == greenScore && blueScore >= rules.limit {
        FinishRound();
      } else if !rules.suddenDeath {
        FinishRound();
      }
    }

    /** Crown a teammate of a VIP who is gone. False when nobody can hold it, or the promotion failed. */
    method ReassignVip(team: Team, departed: Player, d: Draw) returns (done: bool)
      requires team in vips
      modifies this`vips, this`vipAlive
      ensures done <==> Candidates(d) != [] && d.promoted
      ensures done ==> team in vips && vips[team] in Candidates(d) && vipAlive == old(vipAlive) + {team}
      ensures done ==> vips[team] in if d.living != [] then d.living else d.others
      ensures !done && Candidates(d) == [] ==> vipAlive == old(vipAlive) && vips == old(vips)
      ensures !done && Candidates(d) != [] ==>
                vipAlive == old(vipAlive) - {team} && vips == old(vips)[team := departed]
      ensures vips.Keys == old(vips).Keys && forall t :: t in vips && t != team ==> vips[t] == old(vips)[t]
    {
      var candidates := Candidates(d);
      if candidates == [] {
        return false;
      }
      vipAlive := vipAlive - {team};
      vips := vips[team := candidates[d.pick % |candidates|]];
      if !d.promoted {
        vips := vips[team := departed];
        return false;
      }
      vipAlive := vipAlive + {team};
      done := true;
    }

    /** A live VIP has left the round: hand the crown over, or count it as lost. */
    method ResolveVipDeparture(team: Team, vip: Player, d: Draw, now: real) returns (ghost events: seq<Event>)
      requires Valid() && Playable(team) && phase == Active && !ended && team in vips && team in vipAlive
      modifies this`vips, this`vipAlive, this`respawnEnabled, this`awarded, this`blueScore, this`greenScore, this`clock
      modifies this`phase, this`task, this`ended, this`winner, this`paid
      ensures Valid()
      ensures View() == if PassesOn(reassign, d) then old(View()) else Lost(old(View()), team, rules)
      ensures events == if PassesOn(reassign, d) then [] else [Lose(team)]
      ensures !reassign ==> events == [Lose(team)]
      ensures PassesOn(reassign, d) ==> vips[team] in Candidates(d) && team in vipAlive && clock == old(clock)
      ensures vips.Keys == old(vips).Keys && forall t :: t in vips && t != team ==> vips[t] == old(vips)[t]
      ensures vipAlive - {team} == old(vipAlive) - {team}
    {
      events := [];
      if reassign {
        var done := ReassignVip(team, vip, d);
        if done {
          return;
        }
      }
      KillVip(team, now);
      events := [Lose(team)];
    }

    /** A team with no respawns and nobody standing is out, and the sub-round is over. */
    method CheckTeamElimination(standing: set<Team>) returns (ghost events: seq<Event>)
      requires Valid()
      modifies this`phase, this`task, this`ended, this`winner, this`clock
      ensures Valid()
      ensures var out := !old(ended) && old(phase) == Active &&
                         exists t :: Playable(t) && t !in respawnEnabled && t !in standing;
              && View() == (if out then Finished(old(View()), rules) else old(View()))
              && events == (if out then [Finish] else [])
    {
      events := [];
      if ended || phase != Active {
        return;
      }
      if (Blue !in respawnEnabled && Blue !in standing) || (Green !in respawnEnabled && Green !in standing) {
        FinishRound();
        events := [Finish];
      }
    }

    /** Both selection phases depend on who is ready; a new countdown starts only from waiting. */
    method ArmSelectionIfReady(now: real, ready: bool)
      requires Valid()
      modifies this`phase, this`selectionDeadline
      ensures Valid()
      ensures View() == if ended || (old(phase) != Waiting && old(phase) != Selecting) then old(View())
                        else Next(old(View()), Armed(ready), rules)
      ensures selectionDeadline ==
              if ended || (old(phase) != Waiting && old(phase) != Selecting) then old(selectionDeadline)
              else if !ready then None
              else if old(phase) == Selecting then old(selectionDeadline)
              else Some(now + if selectionDelay > 0.0 then selectionDelay else 0.0)
    {
      if ended || (phase != Waiting && phase != Selecting) {
        return;
      }
      if !ready {
        phase := Waiting;
        selectionDeadline := None;
        return;
      }
      if phase == Waiting {
        phase := Selecting;
        selectionDeadline := Some(now + if selectionDelay > 0.0 then selectionDelay else 0.0);
      }
    }

    method OnPlayerDeath(player: Player, standing: set<Team>, now: real) returns (ghost events: seq<Event>)
      requires Valid()
      modifies this`vips, this`vipAlive, this`respawnEnabled, this`awarded, this`blueScore, this`greenScore, this`clock
      modifies this`phase, this`task, this`ended, this`winner, this`paid
      ensures Valid() && Follows(old(View()), View(), events, rules)
      ensures var losses := if old(IsLiveVip(player.team, player)) then [Lose(player.team)] else [];
              EnabledRun(old(View()), losses, rules) && events == WithElimination(old(View()), losses, standing, rules)
    {
      FollowsNothing(View(), rules);
      events := [];
      if ended {
        return;
      }
      var team := player.team;
      if IsLiveVip(team, player) {
        FollowsOneMore(View(), View(), [], Lose(team), rules);
        KillVip(team, now);
        events := [Lose(team)];
      }
      events := EliminationAfter(standing, old(View()), events);
    }

    method EliminationAfter(standing: set<Team>, ghost start: State, ghost past: seq<Event>)
      returns (ghost events: seq<Event>)
      requires Valid() && Follows(start, View(), past, rules)
      modifies this`phase, this`task, this`ended, this`winner, this`clock
      ensures Valid() && Follows(start, View(), events, rules)
      ensures events == past + Elimination(old(View()), standing, rules)
      ensures events == WithElimination(start, past, standing, rules)
    {
      if !ended && phase == Active {
        FollowsOneMore(start, View(), past, Finish, rules);
      }
      var more := CheckTeamElimination(standing);
      events := past + more;
      assert past + [] == past;
    }

    /** The hook may come before or after the roster drops the player; the queue forgets them by identity. */
    method OnPlayerLeave(player: Player, d: Draw, standing: set<Team>, ready: bool, now: real)
      returns (ghost events: seq<Event>)
      requires Valid()
      modifies this`vips, this`vipAlive, this`respawnEnabled, this`awarded, this`blueScore, this`greenScore, this`clock
      modifies this`phase, this`task, this`ended, this`winner, this`paid, this`resetQueue, this`selectionDeadline
      ensures Valid() && Follows(old(View()), View(), events, rules)
      ensures resetQueue == Forgetting(old(resetQueue), player)
      ensures var losses :=
                if old(IsLiveVip(player.team, player)) && !PassesOn(reassign, d) then [Lose(player.team)] else [];
              EnabledRun(old(View()), losses, rules) &&
              events == WithElimination(old(View()), losses, standing, rules) + Arming(old(View()), ready)
      ensures old(IsLiveVip(player.team, player)) && PassesOn(reassign, d) ==>
                player.team in vips && vips[player.team] in Candidates(d) && player.team in vipAlive
    {
      resetQueue := Forgetting(resetQueue, player);
      events := LeaverLosses(player, d, now);
      ghost var losses := events;
      events := EliminationAfter(standing, old(View()), losses);
      NothingToArm(old(View()), losses, standing, ready, rules);
      events := ArmAfter(now, ready, old(View()), events);
    }

    method LeaverLosses(player: Player, d: Draw, now: real) returns (ghost losses: seq<Event>)
      requires Valid()
      modifies this`vips, this`vipAlive, this`respawnEnabled, this`awarded, this`blueScore, this`greenScore, this`clock
      modifies this`phase, this`task, this`ended, this`winner, this`paid
      ensures Valid() && Follows(old(View()), View(), losses, rules)
      ensures losses ==
              if old(IsLiveVip(player.team, player)) && !PassesOn(reassign, d) then [Lose(player.team)] else []
      ensures old(IsLiveVip(player.team, player)) && PassesOn(reassign, d) ==>
                player.team in vips && vips[player.team] in Candidates(d) && player.team in vipAlive
    {
      FollowsNothing(View(), rules);
      losses := [];
      if IsLiveVip(player.team, player) {
        FollowsOneMore(View(), View(), [], Lose(player.team), rules);
        losses := ResolveVipDeparture(player.team, player, d, now);
      }
    }

    method ArmAfter(now: real, ready: bool, ghost start: State, ghost past: seq<Event>)
      returns (ghost events: seq<Event>)
      requires Valid() && Follows(start, View(), past, rules)
      modifies this`phase, this`selectionDeadline
      ensures Valid() && Follows(start, View(), events, rules)
      ensures events == past + Arming(old(View()), ready)
      ensures phase == old(phase) || phase == Waiting || phase == Selecting
    {
      events := past;
      if !ended && (phase == Waiting || phase == Selecting) {
        FollowsOneMore(start, View(), past, Armed(ready), rules);
        events := past + [Armed(ready)];
      }
      ArmSelectionIfReady(now, ready);
    }

    /** The roster audit: a live VIP who vanished without a hook is resolved as a departure. */
    method AuditVips(gone: set<Team>, draws: map<Team, Draw>, standing: set<Team>, now: real)
      returns (ghost events: seq<Event>)
      requires Valid() && Blue in draws && Green in draws
      modifies this`vips, this`vipAlive, this`respawnEnabled, this`awarded, this`blueScore, this`greenScore, this`clock
      modifies this`phase, this`task, this`ended, this`winner, this`paid
      ensures Valid() && Follows(old(View()), View(), events, rules)
      ensures var losses := AuditLosses(old(View()), old(Vanished(Blue, gone)) && !PassesOn(reassign, draws[Blue]),
                                        old(Vanished(Green, gone)) && !PassesOn(reassign, draws[Green]), rules);
              EnabledRun(old(View()), losses, rules) && events == WithElimination(old(View()), losses, standing, rules)
    {
      events := AuditCrowns(gone, draws, now);
      events := EliminationAfter(standing, old(View()), events);
    }

    method AuditCrowns(gone: set<Team>, draws: map<Team, Draw>, now: real) returns (ghost losses: seq<Event>)
      requires Valid() && Blue in draws && Green in draws
      modifies this`vips, this`vipAlive, this`respawnEnabled, this`awarded, this`blueScore, this`greenScore, this`clock
      modifies this`phase, this`task, this`ended, this`winner, this`paid
      ensures Valid() && Follows(old(View()), View(), losses, rules)
      ensures losses == AuditLosses(old(View()), old(Vanished(Blue, gone)) && !PassesOn(reassign, draws[Blue]),
                                    old(Vanished(Green, gone)) && !PassesOn(reassign, draws[Green]), rules)
    {
      FollowsNothing(View(), rules);
      losses := AuditTeam(Blue, gone, draws[Blue], now, View(), []);
      losses := AuditTeam(Green, gone, draws[Green], now, old(View()), losses);
    }

    /** The live VIP of a running sub-round is no longer in the roster. */
    predicate Vanished(team: Team, gone: set<Team>)
      reads this`ended, this`phase, this`vips, this`vipAlive
    {
      !ended && phase == Active && team in vips && team in vipAlive && team in gone
    }

    method AuditTeam(team: Team, gone: set<Team>, d: Draw, now: real, ghost start: State, ghost past: seq<Event>)
      returns (ghost events: seq<Event>)
      requires Valid() && Playable(team) && Follows(start, View(), past, rules)
      modifies this`vips, this`vipAlive, this`respawnEnabled, this`awarded, this`blueScore, this`greenScore, this`clock
      modifies this`phase, this`task, this`ended, this`winner, this`paid
      ensures Valid() && Follows(start, View(), events, rules)
      ensures events == past + if old(Vanished(team, gone)) && !PassesOn(reassign, d) then [Lose(team)] else []
      ensures View() == if old(Vanished(team, gone)) && !PassesOn(reassign, d)
                        then Lost(old(View()), team, rules) else old(View())
      ensures old(Vanished(team, gone)) && PassesOn(reassign, d) ==>
                team in vips && vips[team] in Candidates(d) && team in vipAlive
      ensures vips.Keys == old(vips).Keys && forall t :: t in vips && t != team ==> vips[t] == old(vips)[t]
      ensures vipAlive - {team} == old(vipAlive) - {team}
    {
      events := past;
      if !Vanished(team, gone) {
        return;
      }
      FollowsOneMore(start, View(), past, Lose(team), rules);
      var more := ResolveVipDeparture(team, vips[team], d, now);
      events := past + more;
      assert past + [] == past;
    }

    /** The next sub-round: everything the last one left is cleared, and the bodies are queued for respawn. */
    method BeginRound(queue: seq<Player>, now: real)
      requires Valid() && !ended
      modifies this`vips, this`vipAlive, this`respawnEnabled, this`awarded, this`clock
      modifies this`phase, this`task, this`resetQueue, this`selectionDeadline, this`round
      ensures Valid() && View() == Begun(old(View()), queue != []) && resetQueue == queue
      ensures vips == map[] && vipAlive == {} && respawnEnabled == {Blue, Green}
      ensures clock == C.Clock(now, None, None, None, None, None)
    {
      ClearCrowns();
      selectionDeadline, resetQueue := None, queue;
      clock := C.Clock(now, None, None, None, None, None);
      OpenRound(queue != []);
    }

    method OpenRound(queued: bool)
      modifies this`awarded, this`phase, this`task, this`round
      ensures View() == Begun(old(View()), queued)
    {
      awarded, round, task := {}, round + 1, false;
      phase := if queued then Resetting else Waiting;
    }

    method ClearCrowns()
      modifies this`vips, this`vipAlive, this`respawnEnabled
      ensures vips == map[] && vipAlive == {} && respawnEnabled == {Blue, Green}
    {
      vips, vipAlive, respawnEnabled := map[], {}, {Blue, Green};
    }

    /** The intermission is over: the pending task begins the next sub-round unless the match has ended. */
    method IntermissionElapsed(queue: seq<Player>, now: real) returns (ghost events: seq<Event>)
      requires Valid() && task
      modifies this`vips, this`vipAlive, this`respawnEnabled, this`awarded, this`clock
      modifies this`phase, this`task, this`resetQueue, this`selectionDeadline, this`round
      ensures Valid() && !task
      ensures !ended ==> Follows(old(View()), View(), events, rules) && events == [NextRound(queue != [])]
    {
      events := [];
      if ended {
        task := false;
        return;
      }
      FollowsNothing(View(), rules);
      FollowsOneMore(View(), View(), [], NextRound(queue != []), rules);
      BeginRound(queue, now);
      events := [NextRound(queue != [])];
    }

    /** Respawn a bounded slice of the queue; the last slice opens the selection. */
    method DrainRoundReset(now: real, ready: bool) returns (popped: seq<Player>, ghost events: seq<Event>)
      requires Valid() && phase == Resetting && !ended
      modifies this`phase, this`resetQueue, this`selectionDeadline
      ensures Valid() && Follows(old(View()), View(), events, rules)
      ensures old(resetQueue) == popped + resetQueue
      ensures |popped| == if |old(resetQueue)| < respawnsPerTick then |old(resetQueue)| else respawnsPerTick
      ensures phase == Resetting <==> resetQueue != []
    {
      popped := [];
      while |popped| < respawnsPerTick && resetQueue != []
        invariant old(resetQueue) == popped + resetQueue && |popped| <= respawnsPerTick
        invariant Valid() && View() == old(View())
        decreases |resetQueue|
      {
        popped := popped + [resetQueue[0]];
        resetQueue := resetQueue[1..];
      }
      FollowsNothing(old(View()), rules);
      events := [];
      if resetQueue == [] {
        FollowsOneMore(old(View()), View(), [], Drained, rules);
        phase := Waiting;
        events := ArmAfter(now, ready, old(View()), [Drained]);
      }
    }

    /**
     * Draw one VIP a team; with a team short of candidates the selection goes back to waiting. The
     * configured minimum has no floor: with nobody to draw from the draw raises, and nothing has changed.
     */
    method SelectVips(candidates: map<Team, seq<Player>>, picks: map<Team, nat>, minimum: int, now: real)
      returns (raised: bool)
      requires Valid() && phase == Selecting && !ended
      requires Blue in candidates && Green in candidates && Blue in picks && Green in picks
      modifies this`vips, this`vipAlive, this`respawnEnabled, this`phase, this`selectionDeadline, this`clock
      ensures Valid()
      ensures var ready := |candidates[Blue]| >= minimum && |candidates[Green]| >= minimum;
              && (raised <==> ready && (candidates[Blue] == [] || candidates[Green] == []))
              && View() == (if raised then old(View()) else Next(old(View()), Selected(ready), rules))
              && (raised ==> (vips, vipAlive, respawnEnabled, selectionDeadline) ==
                             old((vips, vipAlive, respawnEnabled, selectionDeadline)))
              && (!raised ==> selectionDeadline == None)
              && clock == (if ready && !raised then old(clock).(started := now) else old(clock))
              && (ready && !raised ==>
                    vips.Keys == {Blue, Green} && vips[Blue] in candidates[Blue] && vips[Green] in candidates[Green])
    {
      raised := false;
      if |candidates[Blue]| < minimum || |candidates[Green]| < minimum {
        phase, selectionDeadline := Waiting, None;
        return;
      }
      if candidates[Blue] == [] || candidates[Green] == [] {
        return true;
      }
      selectionDeadline := None;
      Crown(candidates[Blue][picks[Blue] % |candidates[Blue]|], candidates[Green][picks[Green] % |candidates[Green]|]);
      clock := clock.(started := now);
      phase := Active;
    }

    method Crown(blue: Player, green: Player)
      modifies this`vips, this`vipAlive, this`respawnEnabled
      ensures vips == map[Blue := blue, Green := green] && vipAlive == {Blue, Green} && respawnEnabled == {Blue, Green}
    {
      vips := map[Blue := blue, Green := green];
      vipAlive, respawnEnabled := {Blue, Green}, {Blue, Green};
    }

    /** The sub-round clock ran out: the side whose VIP lives alone takes it, but no point is paid for that. */
    method EndByTime(now: real) returns (ghost events: seq<Event>)
      requires Valid()
      modifies this`phase, this`task, this`ended, this`winner, this`clock
      ensures Valid() && Follows(old(View()), View(), events, rules)
      ensures blueScore == old(blueScore) && greenScore == old(greenScore)
      ensures events == if !old(ended) && old(phase) == Active then [Finish] else []
      ensures !old(ended) && old(phase) != Active && old(phase) != Intermission ==> clock == old(clock).(started := now)
    {
      FollowsNothing(View(), rules);
      events := [];
      if ended || phase == Intermission {
        return;
      }
      if phase != Active {
        clock := clock.(started := now);
        return;
      }
      FollowsOneMore(View(), View(), [], Finish, rules);
      FinishRound();
      events := [Finish];
    }

    /** Sudden death: the cap after the grace, then the bleeding, but nothing past the buzzer. */
    method AdvanceSuddenDeath(now: real)
      requires phase == Active && !ended
      modifies this`clock
      ensures clock == C.Advance(old(clock), timeLimit, now)
    {
      if clock.deadline.Some? && now >= clock.deadline.value {
        return;
      }
      TickTeam(Blue, now);
      TickTeam(Green, now);
    }

    method CapRoundTime(now: real)
      modifies this`clock
      ensures clock == C.Capped(old(clock), timeLimit, now)
    {
      var out := C.RunsOut(clock, timeLimit);
      if out.None? || out.value - now > C.VIP_FINAL_MINUTE_SECONDS {
        clock := clock.(deadline := Some(now + C.VIP_FINAL_MINUTE_SECONDS));
      }
    }

    method TickTeam(team: Team, now: real)
      requires Playable(team)
      modifies this`clock
      ensures clock == C.TeamTick(old(clock), team, timeLimit, now)
    {
      var activateAt := C.Activate(clock, team);
      if activateAt.Some? && now >= activateAt.value {
        CapRoundTime(now);
        if team == Blue { clock := clock.(activateBlue := None, bleedBlue := Some(now)); }
        else { clock := clock.(activateGreen := None, bleedGreen := Some(now)); }
      }
      var damageAt := C.Bleed(clock, team);
      if damageAt.None? || now < damageAt.value {
        return;
      }
      var next := Some(now + C.VIP_SUDDEN_DEATH_DAMAGE_FREQUENCY);
      if team == Blue { clock := clock.(bleedBlue := next); } else { clock := clock.(bleedGreen := next); }
    }
  }

  function Forgetting(queue: seq<Player>, player: Player): (r: seq<Player>)
    ensures forall i :: 0 <= i < |r| ==> r[i] != player && r[i] in queue
    ensures forall i :: 0 <= i < |queue| && queue[i] != player ==> queue[i] in r
  {
    if queue == [] then []
    else (if queue[0] == player then [] else [queue[0]]) + Forgetting(queue[1..], player)
  }
}
