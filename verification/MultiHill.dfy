/** Payouts due on a fixed time grid, settled in batches whenever the server happens to look. */
module ScoreGrid {

  /** The batch the periodic payouts compute: grid points reached by `now`, when the next one is due at `next`. */
  function Periods(next: real, now: real, interval: real): nat
    requires interval > 0.0 && now >= next
  {
    QuotientNonNegative(now - next, interval);
    ((now - next) / interval).Floor + 1
  }

  lemma QuotientNonNegative(a: real, b: real)
    requires a >= 0.0 && b > 0.0
    ensures a / b >= 0.0
  {}

  datatype Due = Due(payouts: nat, next: real)

  function Batch(next: real, now: real, interval: real): Due
    requires interval > 0.0
  {
    if now < next then Due(0, next)
    else Due(Periods(next, now, interval), next + Periods(next, now, interval) as real * interval)
  }

  /** The reference: pay one unit, move one interval on, until nothing more is due. */
  function UnitByUnit(next: real, now: real, interval: real): Due
    requires interval > 0.0
    decreases if now < next then 0 else Periods(next, now, interval)
  {
    if now < next then Due(0, next)
    else
      OneIntervalOn(next, now, interval);
      var rest := UnitByUnit(next + interval, now, interval);
      Due(rest.payouts + 1, rest.next)
  }

  lemma TimesKeepsOrder(x: real, y: real, b: real)
    requires b > 0.0
    ensures x <= y <==> x * b <= y * b
  {
    assert (y - x) * b == y * b - x * b;
  }

  lemma ProductsKeepOrder(x: real, y: real, b: real, p: real, q: real)
    requires b > 0.0 && p == x * b && q == y * b
    ensures x <= y <==> p <= q
  {
    TimesKeepsOrder(x, y, b);
  }

  lemma OneFactorMore(x: real, b: real)
    ensures (x + 1.0) * b == x * b + b
  {}

  lemma DivideThenTimes(a: real, b: real)
    requires b > 0.0
    ensures a / b * b == a
  {}

  lemma QuotientBounds(a: real, b: real)
    requires b > 0.0
    ensures (a / b).Floor as real * b <= a < (a / b).Floor as real * b + b
  {
    var q := a / b;
    var n := q.Floor as real;
    DivideThenTimes(a, b);
    OneFactorMore(n, b);
    ProductsKeepOrder(n, q, b, n * b, a);
    ProductsKeepOrder(n + 1.0, q, b, n * b + b, a);
  }

  lemma MultiplesAreApart(m: int, n: int, b: real, p: real, q: real)
    requires b > 0.0 && m < n
    requires p == m as real * b && q == n as real * b
    ensures p + b <= q
  {
    TimesKeepsOrder(m as real + 1.0, n as real, b);
  }

  lemma NotAbove(a: real, b: real, m: int, n: int, p: real, q: real)
    requires b > 0.0 && q <= a < p + b
    requires p == n as real * b && q == m as real * b
    ensures m <= n
  {
    if n < m {
      MultiplesAreApart(n, m, b, p, q);
    }
  }

  lemma FloorIs(a: real, b: real, n: int, p: real)
    requires b > 0.0 && p == n as real * b && p <= a < p + b
    ensures (a / b).Floor == n
  {
    QuotientBounds(a, b);
    var m := (a / b).Floor;
    NotAbove(a, b, m, n, p, m as real * b);
    NotAbove(a, b, n, m, m as real * b, p);
  }

  /** The batch is the one number of payouts that brings the next one strictly ahead, and no further. */
  lemma BatchIs(next: real, now: real, interval: real, payouts: nat, reach: real)
    requires interval > 0.0 && payouts >= 1 && reach == payouts as real * interval
    requires next <= now && next + reach - interval <= now < next + reach
    ensures Batch(next, now, interval) == Due(payouts, next + reach)
  {
    assert (payouts - 1) as real == payouts as real - 1.0;
    FloorIs(now - next, interval, payouts - 1, reach - interval);
  }

  lemma OneIntervalOn(next: real, now: real, interval: real)
    requires interval > 0.0 && now >= next
    ensures if now < next + interval then Periods(next, now, interval) == 1
            else Periods(next, now, interval) == Periods(next + interval, now, interval) + 1
  {
    if now < next + interval {
      FloorIs(now - next, interval, 0, 0.0);
    } else {
      var rest := now - (next + interval);
      QuotientBounds(rest, interval);
      var n := (rest / interval).Floor;
      FloorIs(now - next, interval, n + 1, n as real * interval + interval);
    }
  }

  /** The next payout lies strictly ahead, by at most one interval. */
  lemma NextIsAhead(next: real, now: real, interval: real)
    requires interval > 0.0
    ensures now < Batch(next, now, interval).next
    ensures now >= next ==> Batch(next, now, interval).next <= now + interval
  {
    if now >= next {
      QuotientBounds(now - next, interval);
      var n := ((now - next) / interval).Floor;
      assert (n + 1) as real * interval == n as real * interval + interval;
    }
  }

  /** A batched payout is the unit-by-unit payout. */
  lemma {:induction false} BatchIsUnitByUnit(next: real, now: real, interval: real)
    requires interval > 0.0
    ensures Batch(next, now, interval) == UnitByUnit(next, now, interval)
    decreases if now < next then 0 else Periods(next, now, interval)
  {
    if now >= next {
      OneIntervalOn(next, now, interval);
      BatchIsUnitByUnit(next + interval, now, interval);
    }
  }

  /** The settled account after a series of looks at the clock. */
  function Settle(next: real, looks: seq<real>, interval: real): Due
    requires interval > 0.0
  {
    if looks == [] then Due(0, next)
    else
      var before := Settle(next, looks[..|looks| - 1], interval);
      var due := Batch(before.next, looks[|looks| - 1], interval);
      Due(before.payouts + due.payouts, due.next)
  }

  ghost predicate Chronological(looks: seq<real>) {
    forall i, j :: 0 <= i <= j < |looks| ==> looks[i] <= looks[j]
  }

  /** The grid point a batch moves on to. */
  lemma NextIsOnTheGrid(next: real, now: real, interval: real)
    requires interval > 0.0
    ensures var due := Batch(next, now, interval);
            due.next == next + due.payouts as real * interval && (due.payouts == 0 <==> now < next)
  {}

  /** Splitting one look at the clock in two changes neither what is paid nor when the next payout falls due. */
  lemma TwoBatchesAreOne(next: real, earlier: real, now: real, interval: real)
    requires interval > 0.0 && earlier <= now
    ensures var first := Batch(next, earlier, interval);
            var second := Batch(first.next, now, interval);
            Batch(next, now, interval) == Due(first.payouts + second.payouts, second.next)
  {
    var first := Batch(next, earlier, interval);
    NextIsOnTheGrid(next, earlier, interval);
    NextIsAhead(next, earlier, interval);
    SecondBatch(next, first.payouts, first.next - next, now, interval);
  }

  lemma SecondBatch(next: real, paid: nat, reach: real, now: real, interval: real)
    requires interval > 0.0 && reach == paid as real * interval
    requires paid > 0 ==> next <= now && next + reach - interval <= now
    ensures var second := Batch(next + reach, now, interval);
            Batch(next, now, interval) == Due(paid + second.payouts, second.next)
  {
    if paid > 0 {
      if now < next + reach {
        BatchIs(next, now, interval, paid, reach);
      } else {
        NextIsAhead(next + reach, now, interval);
        NextIsOnTheGrid(next + reach, now, interval);
        var second := Batch(next + reach, now, interval);
        assert (paid + second.payouts) as real == paid as real + second.payouts as real;
        BatchIs(next, now, interval, paid + second.payouts, second.next - next);
      }
    }
  }

  /** What has been paid in all depends on the last look only, not on how the looks fall. */
  lemma {:induction false} TotalIgnoresTicks(next: real, looks: seq<real>, interval: real)
    requires interval > 0.0 && Chronological(looks) && looks != []
    ensures Settle(next, looks, interval) == Batch(next, looks[|looks| - 1], interval)
  {
    var n := |looks| - 1;
    if n == 0 {
      assert looks[..0] == [];
    } else {
      TotalIgnoresTicks(next, looks[..n], interval);
      TwoBatchesAreOne(next, looks[n - 1], looks[n], interval);
    }
  }
}

/** Rotating hills: what one control pass, one settlement and one server tick do. */
module HillRules {
  import opened Wrappers
  import opened Teams
  import opened ScoreGrid

  const MH_TEAM_SCORE_TICK_RATE := 1.0
  const MH_TEAM_SCORE_PER_TICK := 1
  const MH_TIME_BETWEEN_BASE_ACTIVATIONS := 10.0
  const MH_SCORE_OCCUPY_INTERVAL := 5.0

  /** Neutral stands for a hill nobody holds. */
  datatype Hill = Hill(owner: Team, contested: bool)

  datatype Occupants = Occupants(blue: nat, green: nat)

  function Control(h: Hill, o: Occupants): Hill {
    if o.blue == 0 && o.green == 0 then Hill(Neutral, false)
    else if o.blue > 0 && o.green > 0 then Hill(h.owner, true)
    else Hill(if o.blue > o.green then Blue else Green, false)
  }

  datatype Phase = Waiting | Active | Intermission

  /** `settled` counts the team ticks paid out since the activation at `activatedAt`. */
  datatype Mode = Mode(
    hills: seq<Hill>, maxActive: nat, activeTime: real,
    phase: Phase, active: seq<nat>, cursor: nat,
    lastScoreAt: real, nextPersonalAt: real, nextRotationAt: real, nextActivationAt: real,
    blue: nat, green: nat, activatedAt: real, settled: nat)

  predicate Shape(m: Mode) {
    (m.hills != [] ==> m.cursor < |m.hills|) && (forall i :: 0 <= i < |m.active| ==> m.active[i] < |m.hills|)
  }

  function ActiveCount(m: Mode): nat {
    if |m.hills| < m.maxActive then |m.hills| else m.maxActive
  }

  function Selection(cursor: nat, count: nat, hills: nat): (selected: seq<nat>)
    requires hills > 0
    ensures |selected| == count && forall i :: 0 <= i < count ==> selected[i] == (cursor + i) % hills
  {
    seq(count, i requires 0 <= i < count => (cursor + i) % hills)
  }

  function Neutralised(hills: seq<Hill>, active: seq<nat>): seq<Hill> {
    seq(|hills|, i requires 0 <= i < |hills| => if i in active then Hill(Neutral, false) else hills[i])
  }

  function ActivateNext(m: Mode, now: real): Mode {
    if m.hills == [] then m
    else
      var selected := Selection(m.cursor, ActiveCount(m), |m.hills|);
      m.(hills := Neutralised(m.hills, selected), phase := Active, active := selected,
         cursor := (m.cursor + ActiveCount(m)) % |m.hills|,
         lastScoreAt := now, nextPersonalAt := now + MH_SCORE_OCCUPY_INTERVAL,
         nextRotationAt := now + m.activeTime, activatedAt := now, settled := 0)
  }

  function UpdateControl(m: Mode, occupants: seq<Occupants>): Mode
    requires |occupants| == |m.hills|
  {
    m.(hills := seq(|m.hills|, i requires 0 <= i < |m.hills| =>
                  if i in m.active then Control(m.hills[i], occupants[i]) else m.hills[i]))
  }

  /** Active hills a team holds alone. */
  function Held(hills: seq<Hill>, active: seq<nat>, team: Team): nat
    requires forall i :: 0 <= i < |active| ==> active[i] < |hills|
  {
    if active == [] then 0
    else
      var h := hills[active[|active| - 1]];
      Held(hills, active[..|active| - 1], team) + if h.owner == team && !h.contested then 1 else 0
  }

  function Points(ticks: nat, held: nat): nat {
    ticks * MH_TEAM_SCORE_PER_TICK * held
  }

  lemma OneMoreHill(ticks: nat, held: nat)
    ensures Points(ticks, held + 1) == Points(ticks, held) + ticks * MH_TEAM_SCORE_PER_TICK
    ensures Points(0, held) == Points(ticks, 0) == 0
  {}

  function TicksUntil(lastScoreAt: real, until: real): nat {
    var elapsed := until - lastScoreAt;
    if elapsed <= 0.0 then 0
    else
      QuotientNonNegative(elapsed, MH_TEAM_SCORE_TICK_RATE);
      (elapsed / MH_TEAM_SCORE_TICK_RATE).Floor
  }

  function AwardTeamTicks(m: Mode, until: real): Mode
    requires Shape(m)
  {
    var ticks := TicksUntil(m.lastScoreAt, until);
    m.(lastScoreAt := m.lastScoreAt + ticks as real * MH_TEAM_SCORE_TICK_RATE, settled := m.settled + ticks,
       blue := m.blue + Points(ticks, Held(m.hills, m.active, Blue)),
       green := m.green + Points(ticks, Held(m.hills, m.active, Green)))
  }

  function Least(a: real, b: real): real {
    if a < b then a else b
  }

  /** The moment up to which hill points may be settled. */
  function ScoreUntil(m: Mode, now: real, deadline: Option<real>): real {
    Least(now, Least(m.nextRotationAt, if deadline.Some? then deadline.value else now))
  }

  predicate InTime(now: real, deadline: Option<real>) {
    deadline.None? || now < deadline.value
  }

  function Expire(m: Mode, now: real): Mode {
    m.(phase := Intermission, active := [], nextActivationAt := now + MH_TIME_BETWEEN_BASE_ACTIVATIONS)
  }

  /** One server tick of the objective, before the shared clock is consulted. */
  function Tick(m: Mode, now: real, deadline: Option<real>, occupants: seq<Occupants>): Mode
    requires Shape(m) && |occupants| == |m.hills|
  {
    match m.phase
    case Waiting => m
    case Intermission => if InTime(now, deadline) && now >= m.nextActivationAt then ActivateNext(m, now) else m
    case Active =>
      var controlled := if InTime(now, deadline) && now < m.nextRotationAt then UpdateControl(m, occupants) else m;
      var until := ScoreUntil(m, now, deadline);
      var awarded := AwardTeamTicks(controlled, until);
      if InTime(now, deadline) then MoveOn(awarded, until, now) else awarded
  }

  /** Personal scores fall due, and hills whose time is up make room. */
  function MoveOn(m: Mode, until: real, now: real): Mode {
    var paid := m.(nextPersonalAt := Batch(m.nextPersonalAt, until, MH_SCORE_OCCUPY_INTERVAL).next);
    if now >= m.nextRotationAt then Expire(paid, now) else paid
  }

  // ----- Team ticks depend on the clock alone -----

  /** While a hill is active, exactly the whole intervals since its activation have been settled. */
  ghost predicate SettledTo(m: Mode, until: real) {
    m.phase == Active ==>
      m.nextRotationAt == m.activatedAt + m.activeTime && m.activatedAt <= until &&
      m.lastScoreAt == m.activatedAt + m.settled as real * MH_TEAM_SCORE_TICK_RATE &&
      m.settled == ((until - m.activatedAt) / MH_TEAM_SCORE_TICK_RATE).Floor
  }

  lemma AwardSettles(m: Mode, since: real, until: real)
    requires Shape(m) && m.phase == Active && SettledTo(m, since) && since <= until
    ensures SettledTo(AwardTeamTicks(m, until), until)
  {}

  lemma SettledTicks(m: Mode, previous: real, now: real, deadline: Option<real>, occupants: seq<Occupants>)
    requires Shape(m) && |occupants| == |m.hills| && previous <= now && m.activeTime >= 1.0
    requires m.phase == Active && SettledTo(m, ScoreUntil(m, previous, deadline))
    ensures var t := Tick(m, now, deadline, occupants);
            Shape(t) && t.settled == ((ScoreUntil(m, now, deadline) - m.activatedAt) / MH_TEAM_SCORE_TICK_RATE).Floor &&
            (t.phase == Active ==> SettledTo(t, ScoreUntil(t, now, deadline)))
  {
    var controlled := if InTime(now, deadline) && now < m.nextRotationAt then UpdateControl(m, occupants) else m;
    AwardSettles(controlled, ScoreUntil(m, previous, deadline), ScoreUntil(m, now, deadline));
  }

  datatype Look = Look(now: real, occupants: seq<Occupants>)

  ghost predicate LegalLooks(looks: seq<Look>, hills: nat) {
    (forall i :: 0 <= i < |looks| ==> |looks[i].occupants| == hills) &&
    (forall i, j :: 0 <= i <= j < |looks| ==> looks[i].now <= looks[j].now)
  }

  lemma TickKeepsShape(m: Mode, now: real, deadline: Option<real>, occupants: seq<Occupants>)
    requires Shape(m) && |occupants| == |m.hills|
    ensures var t := Tick(m, now, deadline, occupants);
            Shape(t) && |t.hills| == |m.hills| && t.activeTime == m.activeTime && t.maxActive == m.maxActive
  {}

  function Run(m: Mode, deadline: Option<real>, looks: seq<Look>): (after: Mode)
    requires Shape(m) && forall i :: 0 <= i < |looks| ==> |looks[i].occupants| == |m.hills|
    ensures Shape(after) && |after.hills| == |m.hills|
    ensures after.activeTime == m.activeTime && after.maxActive == m.maxActive
  {
    if looks == [] then m
    else
      var last := looks[|looks| - 1];
      var before := Run(m, deadline, looks[..|looks| - 1]);
      TickKeepsShape(before, last.now, deadline, last.occupants);
      Tick(before, last.now, deadline, last.occupants)
  }

  /** A new match: nothing active yet, first activation made at once. */
  function Start(hills: nat, maxActive: nat, activeTime: real, now: real): (m: Mode)
    ensures Shape(m) && |m.hills| == hills
  {
    ActivateNext(Mode(seq(hills, _ => Hill(Neutral, false)), maxActive, activeTime, Waiting, [], 0,
                      now, 0.0, 0.0, 0.0, 0, 0, now, 0), now)
  }

  /**
   * However the server ticks fall, the ticks settled for the hills up now are the whole intervals from
   * their activation to the earliest of now, their rotation and the end of the match.
   */
  lemma {:induction false} SettledByTheClock(
      hills: nat, maxActive: nat, activeTime: real, start: real, deadline: Option<real>, looks: seq<Look>, now: real)
    requires activeTime >= 1.0 && LegalLooks(looks, hills) && start <= now
    requires forall i :: 0 <= i < |looks| ==> start <= looks[i].now <= now
    requires looks == [] ==> now == start
    requires looks != [] ==> now == looks[|looks| - 1].now
    requires InTime(start, deadline)
    ensures var m := Run(Start(hills, maxActive, activeTime, start), deadline, looks);
            SettledTo(m, ScoreUntil(m, now, deadline))
  {
    if looks != [] {
      var n := |looks| - 1;
      var previous := if n == 0 then start else looks[n - 1].now;
      SettledByTheClock(hills, maxActive, activeTime, start, deadline, looks[..n], previous);
      var before := Run(Start(hills, maxActive, activeTime, start), deadline, looks[..n]);
      if before.phase == Active {
        SettledTicks(before, previous, now, deadline, looks[n].occupants);
      }
    }
  }

  /** A hill that expires in time has paid for its whole active time, whoever held it when. */
  lemma ExpiredHillPaidInFull(m: Mode, previous: real, now: real, deadline: Option<real>, occupants: seq<Occupants>)
    requires Shape(m) && |occupants| == |m.hills| && previous <= now && m.activeTime >= 1.0
    requires m.phase == Active && SettledTo(m, ScoreUntil(m, previous, deadline))
    requires Tick(m, now, deadline, occupants).phase == Intermission
    ensures Tick(m, now, deadline, occupants).settled == (m.activeTime / MH_TEAM_SCORE_TICK_RATE).Floor
    ensures InTime(now, deadline) && now >= m.nextRotationAt
  {
    SettledTicks(m, previous, now, deadline, occupants);
  }

  // ----- What ownership means for the score -----

  /** Nobody is paid for a contested or deserted hill, and only the lone team can take one. */
  lemma OnlyTheLoneTeamHolds(h: Hill, o: Occupants)
    ensures var after := Control(h, o);
            (Playable(after.owner) && !after.contested <==> (o.blue > 0) != (o.green > 0)) &&
            (Playable(after.owner) && !after.contested ==> after.owner == if o.blue > 0 then Blue else Green) &&
            (after.owner != h.owner && Playable(after.owner) ==> !after.contested) &&
            (after.contested <==> o.blue > 0 && o.green > 0)
  {}

  /** A deserted hill is nobody's, and a contested one stays whose it is. */
  lemma DesertedOrContested(h: Hill, o: Occupants)
    ensures o.blue == 0 && o.green == 0 ==> Control(h, o) == Hill(Neutral, false)
    ensures o.blue > 0 && o.green > 0 ==> Control(h, o) == Hill(h.owner, true)
  {}

  /** A control pass decides each active hill by who stands on it, and touches no other. */
  lemma ControlPassIsPerHill(m: Mode, occupants: seq<Occupants>, i: nat)
    requires |occupants| == |m.hills| && i < |m.hills|
    ensures var t := UpdateControl(m, occupants);
            && |t.hills| == |m.hills|
            && t.hills[i] == (if i in m.active then Control(m.hills[i], occupants[i]) else m.hills[i])
            && t == m.(hills := t.hills)
  {}

  /** The active hills one team stands on alone. */
  function HeldAlone(hills: seq<Hill>, active: seq<nat>, team: Team): set<nat> {
    set z | z in active && z < |hills| && hills[z].owner == team && !hills[z].contested
  }

  lemma {:induction false} HeldIsTheirNumber(hills: seq<Hill>, active: seq<nat>, team: Team)
    requires forall i :: 0 <= i < |active| ==> active[i] < |hills|
    requires forall i, j :: 0 <= i < j < |active| ==> active[i] != active[j]
    ensures Held(hills, active, team) == |HeldAlone(hills, active, team)|
  {
    if active != [] {
      var n := |active| - 1;
      HeldIsTheirNumber(hills, active[..n], team);
      OneMoreAlone(hills, active, team);
    }
  }

  lemma OneMoreAlone(hills: seq<Hill>, active: seq<nat>, team: Team)
    requires active != [] && active[|active| - 1] < |hills| && active[|active| - 1] !in active[..|active| - 1]
    ensures var n, z := |active| - 1, active[|active| - 1];
            |HeldAlone(hills, active, team)| ==
            |HeldAlone(hills, active[..n], team)| + if hills[z].owner == team && !hills[z].contested then 1 else 0
  {
    var n, z := |active| - 1, active[|active| - 1];
    var before := HeldAlone(hills, active[..n], team);
    assert active == active[..n] + [z];
    if hills[z].owner == team && !hills[z].contested {
      assert HeldAlone(hills, active, team) == before + {z};
    } else {
      assert HeldAlone(hills, active, team) == before;
    }
  }

  /** A settlement pays each team, for every whole tick, one point for every active hill it holds alone. */
  lemma SettlementPaysTheHolders(m: Mode, until: real)
    requires Shape(m) && forall i, j :: 0 <= i < j < |m.active| ==> m.active[i] != m.active[j]
    ensures var t, ticks := AwardTeamTicks(m, until), TicksUntil(m.lastScoreAt, until);
            && t.blue == m.blue + ticks * |HeldAlone(m.hills, m.active, Blue)|
            && t.green == m.green + ticks * |HeldAlone(m.hills, m.active, Green)|
            && t.settled == m.settled + ticks && t.hills == m.hills && t.active == m.active
            && (until >= m.lastScoreAt ==>
                  var tick := MH_TEAM_SCORE_TICK_RATE;
                  ticks as real * tick <= until - m.lastScoreAt < (ticks + 1) as real * tick)
  {
    HeldIsTheirNumber(m.hills, m.active, Blue);
    HeldIsTheirNumber(m.hills, m.active, Green);
  }

  /** Hills rotate out at their time, nothing is up for the intermission, and then the next ones come up neutral. */
  lemma HillsComeAndGo(m: Mode, now: real, deadline: Option<real>, occupants: seq<Occupants>)
    requires Shape(m) && |occupants| == |m.hills| && m.hills != [] && InTime(now, deadline)
    ensures var t := Tick(m, now, deadline, occupants);
            && (m.phase == Active ==>
                  if now < m.nextRotationAt then t.phase == Active && t.active == m.active
                  else t.phase == Intermission && t.active == [] &&
                       t.nextActivationAt == now + MH_TIME_BETWEEN_BASE_ACTIVATIONS)
            && (m.phase == Intermission ==>
                  if now < m.nextActivationAt then t == m
                  else t.phase == Active && t.nextRotationAt == now + m.activeTime && t.lastScoreAt == now &&
                       |t.active| == (if |m.hills| < m.maxActive then |m.hills| else m.maxActive) &&
                       t.nextPersonalAt == now + MH_SCORE_OCCUPY_INTERVAL && t.blue == m.blue && t.green == m.green &&
                       forall i :: 0 <= i < |t.hills| && i in t.active ==> t.hills[i] == Hill(Neutral, false))
  {}

  /** After the deadline the hills are settled once more, up to the deadline, and nothing else moves. */
  lemma NothingMovesAfterTheDeadline(m: Mode, now: real, deadline: Option<real>, occupants: seq<Occupants>)
    requires Shape(m) && |occupants| == |m.hills| && !InTime(now, deadline)
    ensures var t := Tick(m, now, deadline, occupants);
            && t.phase == m.phase && t.active == m.active && t.hills == m.hills && t.cursor == m.cursor
            && (m.phase != Active ==> t == m)
  {}

  /** Personal scores are settled up to the same moment as the team ticks: what is due then is paid, and no more. */
  lemma PersonalScoresKeepPace(m: Mode, now: real, deadline: Option<real>, occupants: seq<Occupants>)
    requires Shape(m) && |occupants| == |m.hills| && m.phase == Active && InTime(now, deadline)
    ensures var t, until := Tick(m, now, deadline, occupants), ScoreUntil(m, now, deadline);
            && until < t.nextPersonalAt
            && if until < m.nextPersonalAt then t.nextPersonalAt == m.nextPersonalAt
               else t.nextPersonalAt <= until + MH_SCORE_OCCUPY_INTERVAL
  {
    NextIsAhead(m.nextPersonalAt, ScoreUntil(m, now, deadline), MH_SCORE_OCCUPY_INTERVAL);
  }

  lemma {:induction false} HeldAtMostActive(hills: seq<Hill>, active: seq<nat>)
    requires forall i :: 0 <= i < |active| ==> active[i] < |hills|
    ensures Held(hills, active, Blue) + Held(hills, active, Green) <= |active|
  {
    if active != [] {
      HeldAtMostActive(hills, active[..|active| - 1]);
    }
  }

  lemma Share(ticks: nat, blue: nat, green: nat, hills: nat)
    requires blue + green <= hills
    ensures Points(ticks, blue) + Points(ticks, green) <= ticks * hills
  {
    assert ticks * blue + ticks * green == ticks * (blue + green);
    assert ticks * (hills - (blue + green)) >= 0;
  }

  /** A settlement pays at most one point per active hill and tick, to both teams together. */
  lemma SettlementIsBounded(m: Mode, until: real)
    requires Shape(m)
    ensures var t := AwardTeamTicks(m, until);
            t.blue + t.green <= m.blue + m.green + (t.settled - m.settled) * |m.active|
  {
    HeldAtMostActive(m.hills, m.active);
    var t := AwardTeamTicks(m, until);
    var ticks := TicksUntil(m.lastScoreAt, until);
    Share(ticks, Held(m.hills, m.active, Blue), Held(m.hills, m.active, Green), |m.active|);
    assert t.settled - m.settled == ticks;
  }
}

/** The cursor deals the hills out in turn. */
module HillRotation {
  import opened Wrappers
  import opened Arithmetic
  import opened HillRules

  /** How many of the numbers below `total` fall on hill `h` of `n`. */
  function Hits(total: nat, n: nat, h: nat): nat
    requires n > 0
  {
    if total == 0 then 0 else Hits(total - 1, n, h) + if (total - 1) % n == h then 1 else 0
  }

  lemma {:induction false} HitsOfBlock(total: nat, n: nat, h: nat)
    requires h < n && total >= n
    ensures Hits(total, n, h) == Hits(total - n, n, h) + 1
    decreases total
  {
    if total == n {
      HitsBelow(n, n, h);
    } else {
      HitsOfBlock(total - 1, n, h);
      WrapAround(total - 1, n);
    }
  }

  lemma WrapAround(k: nat, n: nat)
    requires n > 0 && k >= n
    ensures k % n == (k - n) % n
  {
    assert k - n == n * ((k - n) / n) + (k - n) % n;
    DivModUnique(k, n, (k - n) / n + 1, (k - n) % n);
  }

  lemma {:induction false} HitsBelow(total: nat, n: nat, h: nat)
    requires h < n && total <= n
    ensures Hits(total, n, h) == if h < total then 1 else 0
  {
    if total > 0 {
      HitsBelow(total - 1, n, h);
      DivModUnique(total - 1, n, 0, total - 1);
    }
  }

  /** Any two hills come up equally often, give or take one, at every point of the rotation. */
  lemma {:induction false} RotationIsFair(total: nat, n: nat, g: nat, h: nat)
    requires g < n && h < n
    ensures Hits(total, n, g) <= Hits(total, n, h) + 1
    decreases total
  {
    if total < n {
      HitsBelow(total, n, g);
      HitsBelow(total, n, h);
    } else {
      HitsOfBlock(total, n, g);
      HitsOfBlock(total, n, h);
      RotationIsFair(total - n, n, g, h);
    }
  }

  function Count(s: seq<nat>, h: nat): nat {
    if s == [] then 0 else Count(s[..|s| - 1], h) + if s[|s| - 1] == h then 1 else 0
  }

  lemma {:induction false} CountIsHits(s: seq<nat>, n: nat, h: nat)
    requires n > 0 && forall i :: 0 <= i < |s| ==> s[i] == i % n
    ensures Count(s, h) == Hits(|s|, n, h)
  {
    if s != [] {
      CountIsHits(s[..|s| - 1], n, h);
    }
  }

  // ----- The activations of a match -----

  /** This tick puts the next hills up. */
  predicate Activates(m: Mode, now: real, deadline: Option<real>) {
    m.phase == Intermission && InTime(now, deadline) && now >= m.nextActivationAt
  }

  /** The hills this tick puts up. */
  function Deal(m: Mode, now: real, deadline: Option<real>): seq<nat> {
    if Activates(m, now, deadline) then ActivateNext(m, now).active else []
  }

  predicate Fits(hills: nat, looks: seq<Look>) {
    forall i :: 0 <= i < |looks| ==> |looks[i].occupants| == hills
  }

  /** The hills the ticks of a run put up, in order. */
  function DealtBy(m: Mode, deadline: Option<real>, looks: seq<Look>): seq<nat>
    requires Shape(m) && Fits(|m.hills|, looks)
  {
    if looks == [] then []
    else
      var n := |looks| - 1;
      DealtBy(m, deadline, looks[..n]) + Deal(Run(m, deadline, looks[..n]), looks[n].now, deadline)
  }

  /** What has been dealt is 0, 1, 2, ... around the hills without a gap, and the cursor is at the next place. */
  ghost predicate InTurn(dealt: seq<nat>, cursor: nat, hills: nat)
    requires hills > 0
  {
    cursor == |dealt| % hills && forall i :: 0 <= i < |dealt| ==> dealt[i] == i % hills
  }

  lemma SelectionIsInTurn(dealt: seq<nat>, cursor: nat, count: nat, hills: nat)
    requires hills > 0 && InTurn(dealt, cursor, hills)
    ensures InTurn(dealt + Selection(cursor, count, hills), (cursor + count) % hills, hills)
  {
    var more := dealt + Selection(cursor, count, hills);
    AddThenWrap(|dealt|, count, hills);
    forall i | 0 <= i < |more| ensures more[i] == i % hills {
      if i >= |dealt| {
        AddThenWrap(|dealt|, i - |dealt|, hills);
      }
    }
  }

  /** A tick deals the next hills in turn, or none. */
  lemma TickDealsInTurn(m: Mode, now: real, deadline: Option<real>, occupants: seq<Occupants>, dealt: seq<nat>)
    requires Shape(m) && |occupants| == |m.hills| && m.hills != [] && InTurn(dealt, m.cursor, |m.hills|)
    ensures InTurn(dealt + Deal(m, now, deadline), Tick(m, now, deadline, occupants).cursor, |m.hills|)
  {
    if Activates(m, now, deadline) {
      SelectionIsInTurn(dealt, m.cursor, ActiveCount(m), |m.hills|);
    } else {
      assert dealt + [] == dealt;
    }
  }

  lemma {:induction false} RunDealsInTurn(m: Mode, deadline: Option<real>, looks: seq<Look>, dealt: seq<nat>)
    requires Shape(m) && Fits(|m.hills|, looks) && m.hills != [] && InTurn(dealt, m.cursor, |m.hills|)
    ensures InTurn(dealt + DealtBy(m, deadline, looks), Run(m, deadline, looks).cursor, |m.hills|)
  {
    if looks == [] {
      assert dealt + [] == dealt;
    } else {
      var n := |looks| - 1;
      RunDealsInTurn(m, deadline, looks[..n], dealt);
      var before, last := Run(m, deadline, looks[..n]), looks[n];
      var sofar := DealtBy(m, deadline, looks[..n]);
      TickDealsInTurn(before, last.now, deadline, last.occupants, dealt + sofar);
      assert dealt + sofar + Deal(before, last.now, deadline) == dealt + (sofar + Deal(before, last.now, deadline));
    }
  }

  /** All hills put up in a match, from its start on. */
  function Dealt(
      hills: nat, maxActive: nat, activeTime: real, start: real, deadline: Option<real>, looks: seq<Look>): seq<nat>
    requires Fits(hills, looks)
  {
    var m := Start(hills, maxActive, activeTime, start);
    m.active + DealtBy(m, deadline, looks)
  }

  /**
   * However the ticks fall and whoever stands where, a match puts its hills up in the fixed order around the
   * circle.
   */
  lemma DealsInTurn(hills: nat, maxActive: nat, activeTime: real, start: real, deadline: Option<real>, looks: seq<Look>)
    requires hills > 0 && Fits(hills, looks)
    ensures var dealt := Dealt(hills, maxActive, activeTime, start, deadline, looks);
            InTurn(dealt, Run(Start(hills, maxActive, activeTime, start), deadline, looks).cursor, hills)
  {
    var m := Start(hills, maxActive, activeTime, start);
    DivModUnique(0, hills, 0, 0);
    SelectionIsInTurn([], 0, ActiveCount(m), hills);
    assert [] + m.active == m.active;
    RunDealsInTurn(m, deadline, looks, m.active);
  }

  /** At any time of any match two hills have been up equally often, give or take one. */
  lemma HillsShareTheMatch(
      hills: nat, maxActive: nat, activeTime: real, start: real, deadline: Option<real>, looks: seq<Look>,
      g: nat, h: nat)
    requires g < hills && h < hills && Fits(hills, looks)
    ensures var dealt := Dealt(hills, maxActive, activeTime, start, deadline, looks);
            Count(dealt, g) <= Count(dealt, h) + 1
  {
    var dealt := Dealt(hills, maxActive, activeTime, start, deadline, looks);
    DealsInTurn(hills, maxActive, activeTime, start, deadline, looks);
    CountIsHits(dealt, hills, g);
    CountIsHits(dealt, hills, h);
    RotationIsFair(|dealt|, hills, g, h);
  }
}

/** The mode object. */
module MultiHill {
  import opened Wrappers
  import opened Teams
  import opened Arithmetic
  import opened ScoreGrid
  import opened HillRules

  class MultiHillMode {
    /** Owner and contested flag of every zone, active or not. */
    var hills: seq<Hill>
    var maxActiveBases: nat
    var baseActiveTime: real
    var phase: Phase
    var activeZones: seq<nat>
    var rotationCursor: nat
    var lastScoreAt: real
    var nextPersonalScoreAt: real
    var nextRotationAt: real
    var nextActivationAt: real
    var blueScore: nat
    var greenScore: nat
    ghost var activatedAt: real
    ghost var settled: nat

    ghost function View(): Mode
      reads this
    {
      Mode(hills, maxActiveBases, baseActiveTime, phase, activeZones, rotationCursor, lastScoreAt,
           nextPersonalScoreAt, nextRotationAt, nextActivationAt, blueScore, greenScore, activatedAt, settled)
    }

    /** The selected zones are distinct, so each is controlled, scored and struck once. */
    ghost predicate Valid()
      reads this
    {
      Shape(View()) && forall i, j :: 0 <= i < j < |activeZones| ==> activeZones[i] != activeZones[j]
    }

    constructor (zones: nat, maxActive: nat, activeTime: real, now: real)
      ensures Valid() && View() == Start(zones, maxActive, activeTime, now)
    {
      hills := seq(zones, _ => Hill(Neutral, false));
      maxActiveBases, baseActiveTime, phase := maxActive, activeTime, Waiting;
      activeZones, rotationCursor, lastScoreAt := [], 0, now;
      nextPersonalScoreAt, nextRotationAt, nextActivationAt := 0.0, 0.0, 0.0;
      blueScore, greenScore, activatedAt, settled := 0, 0, now, 0;
      new;
      ActivateNext(now);
    }

    method ActivateNext(now: real)
      requires Valid()
      modifies this
      ensures Valid() && View() == HillRules.ActivateNext(old(View()), now)
    {
      if hills == [] {
        return;
      }
      TakeNextZones();
      phase := Active;
      lastScoreAt := now;
      nextPersonalScoreAt := now + MH_SCORE_OCCUPY_INTERVAL;
      nextRotationAt := now + baseActiveTime;
      activatedAt, settled := now, 0;
    }

    /** The zones from the cursor on become the active ones, neutral again, and the cursor moves past them. */
    method TakeNextZones()
      requires hills != [] && rotationCursor < |hills|
      modifies this`hills, this`activeZones, this`rotationCursor
      ensures var count := if old(|hills|) < maxActiveBases then old(|hills|) else maxActiveBases;
              && activeZones == Selection(old(rotationCursor), count, old(|hills|))
              && rotationCursor == (old(rotationCursor) + count) % old(|hills|)
              && hills == Neutralised(old(hills), activeZones)
      ensures forall i, j :: 0 <= i < j < |activeZones| ==> activeZones[i] != activeZones[j]
    {
      var count := if |hills| < maxActiveBases then |hills| else maxActiveBases;
      var selected := SelectZones(count);
      rotationCursor := (rotationCursor + count) % |hills|;
      activeZones := selected;
      NeutraliseZones(selected);
    }

    method SelectZones(count: nat) returns (selected: seq<nat>)
      requires count <= |hills| && hills != []
      ensures selected == Selection(rotationCursor, count, |hills|)
      ensures forall i, j :: 0 <= i < j < count ==> selected[i] != selected[j]
    {
      selected := [];
      while |selected| < count
        invariant |selected| <= count
        invariant forall i :: 0 <= i < |selected| ==> selected[i] == (rotationCursor + i) % |hills|
      {
        selected := selected + [(rotationCursor + |selected|) % |hills|];
      }
      forall i, j | 0 <= i < j < count ensures selected[i] != selected[j] {
        StepsAreDistinct(rotationCursor, i, j, |hills|);
      }
    }

    method NeutraliseZones(selected: seq<nat>)
      requires forall i :: 0 <= i < |selected| ==> selected[i] < |hills|
      modifies this`hills
      ensures hills == Neutralised(old(hills), selected)
    {
      var i := 0;
      while i < |selected|
        invariant 0 <= i <= |selected| && |hills| == |old(hills)|
        invariant forall z :: 0 <= z < |hills| ==>
          hills[z] == if z in selected[..i] then Hill(Neutral, false) else old(hills)[z]
      {
        hills := hills[selected[i] := Hill(Neutral, false)];
        i := i + 1;
      }
      assert selected[..i] == selected;
    }

    /** Deserted hills fall neutral, contested ones keep their owner, a lone team takes the hill. */
    method UpdateControl(occupants: seq<Occupants>)
      requires Valid() && |occupants| == |hills|
      modifies this`hills
      ensures Valid() && View() == HillRules.UpdateControl(old(View()), occupants)
    {
      var i := 0;
      while i < |activeZones|
        invariant 0 <= i <= |activeZones| && |hills| == |old(hills)|
        invariant forall z :: 0 <= z < |hills| ==>
          hills[z] == if z in activeZones[..i] then Control(old(hills)[z], occupants[z]) else old(hills)[z]
      {
        var zone := activeZones[i];
        var blue, green := occupants[zone].blue, occupants[zone].green;
        var contested := blue > 0 && green > 0;
        i := i + 1;
        hills := hills[zone := hills[zone].(contested := contested)];
        if blue == 0 && green == 0 {
          hills := hills[zone := hills[zone].(owner := Neutral)];
          continue;
        }
        if contested {
          continue;
        }
        var claimant := if blue > green then Blue else Green;
        hills := hills[zone := hills[zone].(owner := claimant)];
      }
      assert activeZones[..i] == activeZones;
      assert hills == HillRules.UpdateControl(old(View()), occupants).hills;
    }

    method AwardTeamTicks(until: real)
      requires Valid()
      modifies this`lastScoreAt, this`blueScore, this`greenScore, this`settled
      ensures Valid() && View() == HillRules.AwardTeamTicks(old(View()), until)
    {
      var ticks := TicksUntil(lastScoreAt, until);
      if ticks == 0 {
        OneMoreHill(0, Held(hills, activeZones, Blue));
        OneMoreHill(0, Held(hills, activeZones, Green));
        return;
      }
      lastScoreAt := lastScoreAt + ticks as real * MH_TEAM_SCORE_TICK_RATE;
      settled := settled + ticks;
      PayHolders(ticks);
    }

    method PayHolders(ticks: nat)
      requires Valid()
      modifies this`blueScore, this`greenScore
      ensures blueScore == old(blueScore) + Points(ticks, Held(hills, activeZones, Blue))
      ensures greenScore == old(greenScore) + Points(ticks, Held(hills, activeZones, Green))
    {
      var i := 0;
      while i < |activeZones|
        invariant 0 <= i <= |activeZones|
        invariant blueScore == old(blueScore) + Points(ticks, Held(hills, activeZones[..i], Blue))
        invariant greenScore == old(greenScore) + Points(ticks, Held(hills, activeZones[..i], Green))
      {
        assert activeZones[..i + 1][..i] == activeZones[..i];
        OneMoreHill(ticks, Held(hills, activeZones[..i], Blue));
        OneMoreHill(ticks, Held(hills, activeZones[..i], Green));
        var h := hills[activeZones[i]];
        if h.owner == Blue && !h.contested {
          blueScore := blueScore + ticks * MH_TEAM_SCORE_PER_TICK;
        } else if h.owner == Green && !h.contested {
          greenScore := greenScore + ticks * MH_TEAM_SCORE_PER_TICK;
        }
        i := i + 1;
      }
      assert activeZones[..i] == activeZones;
    }

    /** Hill points are settled before the shared clock may end the match. */
    method OnTick(now: real, deadline: Option<real>, occupants: seq<Occupants>)
      requires Valid() && |occupants| == |hills|
      modifies this
      ensures Valid() && View() == Tick(old(View()), now, deadline, occupants)
    {
      var inTime := deadline.None? || now < deadline.value;
      if phase == Intermission {
        if inTime && now >= nextActivationAt {
          ActivateNext(now);
        }
      } else if phase == Active {
        if inTime && now < nextRotationAt {
          UpdateControl(occupants);
        }
        var until := Least(now, Least(nextRotationAt, if deadline.Some? then deadline.value else now));
        AwardTeamTicks(until);
        if inTime {
          MoveOn(until, now);
        }
      }
    }

    method MoveOn(until: real, now: real)
      requires Valid()
      modifies this`nextPersonalScoreAt, this`activeZones, this`phase, this`nextActivationAt
      ensures Valid() && View() == HillRules.MoveOn(old(View()), until, now)
    {
      nextPersonalScoreAt := Batch(nextPersonalScoreAt, until, MH_SCORE_OCCUPY_INTERVAL).next;
      if now >= nextRotationAt {
        activeZones := [];
        phase := Intermission;
        nextActivationAt := now + MH_TIME_BETWEEN_BASE_ACTIVATIONS;
      }
    }
  }
}
