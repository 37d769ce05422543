/** How fast a capture moves: linear between the points of a rate table, flat past its last point. */
module CaptureRate {

  type Table = seq<(int, real)>

  const TC_CAPTURE_RATE: Table := [(0, 0.0), (1, 1.0), (5, 4.0), (10, 7.0), (15, 9.0)]

  /** More players never come with a lower rate. */
  ghost predicate Increasing(table: Table) {
    |table| > 0 && forall i, j :: 0 <= i < j < |table| ==> table[i].0 < table[j].0 && table[i].1 <= table[j].1
  }

  function OnSegment(low: (int, real), high: (int, real), players: int): real
    requires low.0 < high.0
  {
    low.1 + (high.1 - low.1) * (players - low.0) as real / (high.0 - low.0) as real
  }

  function BeyondFirst(table: Table, players: int): real
    requires Increasing(table)
  {
    if |table| == 1 then table[0].1
    else if players <= table[1].0 then OnSegment(table[0], table[1], players)
    else BeyondFirst(table[1..], players)
  }

  function PercentPerTick(table: Table, players: int): real
    requires Increasing(table)
  {
    var n := if players < 0 then 0 else players;
    if n <= table[0].0 then table[0].1 else BeyondFirst(table, n)
  }

  lemma FractionOfSpan(rise: real, part: real, span: real)
    requires rise >= 0.0 && 0.0 <= part <= span && span > 0.0
    ensures 0.0 <= rise * part / span <= rise
  {
    assert 0.0 <= part / span <= 1.0;
    assert rise * part / span == rise * (part / span);
  }

  lemma SegmentBounds(low: (int, real), high: (int, real), players: int)
    requires low.0 < high.0 && low.1 <= high.1 && low.0 <= players <= high.0
    ensures low.1 <= OnSegment(low, high, players) <= high.1
  {
    FractionOfSpan(high.1 - low.1, (players - low.0) as real, (high.0 - low.0) as real);
  }

  lemma SegmentMonotone(low: (int, real), high: (int, real), p: int, q: int)
    requires low.0 < high.0 && low.1 <= high.1 && p <= q
    ensures OnSegment(low, high, p) <= OnSegment(low, high, q)
  {
    var slope := (high.1 - low.1) / (high.0 - low.0) as real;
    assert slope >= 0.0;
    assert OnSegment(low, high, p) == low.1 + slope * (p - low.0) as real;
    assert OnSegment(low, high, q) == low.1 + slope * (q - low.0) as real;
    assert slope * (q - p) as real >= 0.0;
  }

  lemma {:induction false} BeyondFirstBounds(table: Table, players: int)
    requires Increasing(table) && players >= table[0].0
    ensures table[0].1 <= BeyondFirst(table, players) <= table[|table| - 1].1
  {
    if |table| > 1 {
      if players <= table[1].0 {
        SegmentBounds(table[0], table[1], players);
      } else {
        BeyondFirstBounds(table[1..], players);
      }
    }
  }

  lemma {:induction false} BeyondFirstMonotone(table: Table, p: int, q: int)
    requires Increasing(table) && table[0].0 <= p <= q
    ensures BeyondFirst(table, p) <= BeyondFirst(table, q)
  {
    if |table| > 1 {
      if q <= table[1].0 {
        SegmentMonotone(table[0], table[1], p, q);
      } else if p <= table[1].0 {
        SegmentBounds(table[0], table[1], p);
        BeyondFirstBounds(table[1..], q);
      } else {
        BeyondFirstMonotone(table[1..], p, q);
      }
    }
  }

  /** For every increasing table, more capturers are never slower and the rate stays within the table. */
  lemma RateIsMonotoneAndBounded(table: Table, p: int, q: int)
    requires Increasing(table) && p <= q
    ensures PercentPerTick(table, p) <= PercentPerTick(table, q)
    ensures table[0].1 <= PercentPerTick(table, p) <= table[|table| - 1].1
  {
    var m, n := if p < 0 then 0 else p, if q < 0 then 0 else q;
    if n > table[0].0 {
      BeyondFirstBounds(table, n);
      if m > table[0].0 {
        BeyondFirstBounds(table, m);
        BeyondFirstMonotone(table, m, n);
      }
    }
  }

  /** The table's own points are met exactly. */
  lemma {:induction false} RateMeetsTable(table: Table, i: nat)
    requires Increasing(table) && i < |table| && table[0].0 >= 0
    ensures PercentPerTick(table, table[i].0) == table[i].1
  {
    if i == 1 {
      assert OnSegment(table[0], table[1], table[1].0) == table[1].1;
    } else if i > 1 {
      assert table[1].0 < table[i].0;
      RateMeetsTable(table[1..], i - 1);
    }
  }
}

/** One territory: continuous progress from Blue (0) through neutral (0.5) to Green (1). */
module TerritoryBase {
  import opened Teams
  import opened CaptureRate

  const TC_CAPTURE_TICK_RATE := 0.5
  const SNAP := 0.000000001

  /** `history` logs every owner the base has had, the current one last. */
  datatype Base = Base(
    owner: Team, attacker: Team, progress: real, contested: bool, lastPlayable: Team, history: seq<Team>)

  /** Team members counted inside, and the seconds the capture tick stands for. */
  datatype Presence = Presence(blue: nat, green: nat, elapsed: real)

  function Distance(a: real, b: real): real {
    if a < b then b - a else a - b
  }

  function SnapTo(progress: real, anchor: real): real {
    if Distance(progress, anchor) < SNAP then anchor else progress
  }

  function Clamp(progress: real): real {
    if progress < 0.0 then 0.0 else if progress > 1.0 then 1.0 else progress
  }

  /** Float residue near an anchor is dropped, then progress is kept in range. */
  function Settle(progress: real): real {
    Clamp(SnapTo(SnapTo(SnapTo(progress, 0.0), 0.5), 1.0))
  }

  function Step(net: nat, elapsed: real, multiplier: real): real {
    PercentPerTick(TC_CAPTURE_RATE, net) / 100.0 * 0.5 * multiplier * (elapsed / TC_CAPTURE_TICK_RATE)
  }

  /** Signed progress of one tick for a surplus of `net` green players. */
  function NetChange(net: int, elapsed: real, multiplier: real): real {
    if net >= 0 then Step(net, elapsed, multiplier) else -Step(-net, elapsed, multiplier)
  }

  function Reached(progress: real, net: int, elapsed: real, multiplier: real): real {
    Settle(progress + NetChange(net, elapsed, multiplier))
  }

  function OwnerAt(previous: Base, progress: real): Team {
    if progress <= 0.0 then Blue
    else if progress >= 1.0 then Green
    else if Playable(previous.owner) && (previous.progress - 0.5) * (progress - 0.5) <= 0.0 then Neutral
    else previous.owner
  }

  function MoveTo(b: Base, attacker: Team, progress: real): Base {
    var owner := OwnerAt(b, progress);
    if owner == b.owner then b.(attacker := attacker, progress := progress, contested := false)
    else Base(owner, attacker, progress, false, if owner == Neutral then b.owner else owner, b.history + [owner])
  }

  /** One capture tick. A contested or empty base stands still. */
  function Advance(b: Base, p: Presence, multiplier: real): Base {
    var contested := p.blue > 0 && p.green > 0;
    var attacker := if contested || p.blue == p.green then Neutral else if p.green > p.blue then Green else Blue;
    if attacker == Neutral then b.(contested := contested, attacker := attacker)
    else
      MoveTo(b, attacker, Reached(b.progress, p.green - p.blue, p.elapsed, multiplier))
  }

  lemma AdvanceMoves(b: Base, p: Presence, multiplier: real)
    requires p.blue != p.green && (p.blue == 0 || p.green == 0)
    ensures Advance(b, p, multiplier) ==
            MoveTo(b, if p.green > p.blue then Green else Blue,
                   Reached(b.progress, p.green - p.blue, p.elapsed, multiplier))
  {}

  lemma MoveForgetsAttackers(b: Base, b': Base, attacker: Team, progress: real)
    requires b' == b.(attacker := b'.attacker, contested := b'.contested)
    ensures MoveTo(b', attacker, progress) == MoveTo(b, attacker, progress)
    ensures CaptureOf(b', MoveTo(b', attacker, progress)) == CaptureOf(b, MoveTo(b, attacker, progress))
  {}

  datatype Capture = NoCapture | Claim(payee: Team) | Control(payee: Team)

  /** What the capturing team is paid for when a tick moves `b` to `after`. */
  function CaptureOf(b: Base, after: Base): Capture {
    if after.owner == b.owner || after.owner == Neutral then NoCapture
    else
      var last := if Playable(b.lastPlayable) then b.lastPlayable else Neutral;
      if Playable(last) && last != after.owner then Control(after.owner) else Claim(after.owner)
  }

  function WireAnchor(owner: Team): real {
    match owner case Blue => 0.0 case Green => 1.0 case Neutral => 0.5
  }

  /** The HUD pair: who is attacking, and how far along the next ownership change is. */
  function WireCapture(b: Base): (Team, real) {
    var delta := b.progress - WireAnchor(b.owner);
    var share := Distance(delta, 0.0) / 0.5 * 100.0;
    var amount := if share > 100.0 then 100.0 else share;
    if amount <= 0.0 then (b.attacker, 0.0) else (if delta > 0.0 then Green else Blue, amount)
  }

  // ----- What every reachable base satisfies -----

  ghost predicate Consistent(b: Base) {
    0.0 <= b.progress <= 1.0 &&
    (b.owner == Blue ==> b.progress < 0.5) &&
    (b.owner == Green ==> b.progress > 0.5) &&
    (b.owner == Neutral ==> 0.0 < b.progress < 1.0)
  }

  /** The last team, if any, in an ownership history. */
  function LastTeam(history: seq<Team>): Team {
    if history == [] then Neutral
    else if Playable(history[|history| - 1]) then history[|history| - 1]
    else LastTeam(history[..|history| - 1])
  }

  ghost predicate Remembers(b: Base) {
    b.history != [] && b.history[|b.history| - 1] == b.owner && b.lastPlayable == LastTeam(b.history)
  }

  function Initial(owner: Team): Base {
    Base(owner, Neutral, WireAnchor(owner), false, owner, [owner])
  }

  ghost predicate LegalPresence(p: Presence) {
    TC_CAPTURE_TICK_RATE <= p.elapsed <= 3.0 * TC_CAPTURE_TICK_RATE
  }

  function Run(b: Base, samples: seq<Presence>, multiplier: real): Base {
    if samples == [] then b
    else Advance(Run(b, samples[..|samples| - 1], multiplier), samples[|samples| - 1], multiplier)
  }

  lemma OwnerFollowsProgress(b: Base, progress: real)
    requires Consistent(b) && 0.0 <= progress <= 1.0
    ensures Consistent(b.(owner := OwnerAt(b, progress), progress := progress))
  {
    var before, after := b.progress - 0.5, progress - 0.5;
    if before > 0.0 && after > 0.0 { assert before * after > 0.0; }
    if before < 0.0 && after < 0.0 { assert (-before) * (-after) > 0.0; }
    if before > 0.0 && after <= 0.0 { assert before * (-after) >= 0.0; }
    if before < 0.0 && after >= 0.0 { assert (-before) * after >= 0.0; }
  }

  lemma AdvanceKeepsConsistent(b: Base, p: Presence, multiplier: real)
    requires Consistent(b)
    ensures Consistent(Advance(b, p, multiplier))
  {
    OwnerFollowsProgress(b, Advance(b, p, multiplier).progress);
  }

  lemma AdvanceRemembers(b: Base, p: Presence, multiplier: real)
    requires Remembers(b)
    ensures Remembers(Advance(b, p, multiplier))
  {
    var after := Advance(b, p, multiplier);
    if after.owner != b.owner {
      assert after.history[..|after.history| - 1] == b.history;
    }
  }

  /** Holds of every territory at any time of any match. */
  lemma {:induction false} EveryRunIsConsistent(owner: Team, samples: seq<Presence>, multiplier: real)
    ensures Consistent(Run(Initial(owner), samples, multiplier)) && Remembers(Run(Initial(owner), samples, multiplier))
  {
    if samples != [] {
      var n := |samples| - 1;
      EveryRunIsConsistent(owner, samples[..n], multiplier);
      AdvanceKeepsConsistent(Run(Initial(owner), samples[..n], multiplier), samples[n], multiplier);
      AdvanceRemembers(Run(Initial(owner), samples[..n], multiplier), samples[n], multiplier);
    }
  }

  /** The wire amount never reaches 100, and an owned base credits only the other team. */
  lemma WireIsBelowFull(b: Base)
    requires Consistent(b)
    ensures 0.0 <= WireCapture(b).1 < 100.0
    ensures WireCapture(b).1 == 0.0 <==> b.progress == WireAnchor(b.owner)
    ensures Playable(b.owner) && WireCapture(b).1 > 0.0 ==> WireCapture(b).0 == Other(b.owner)
  {}

  /** A capture pays "control" exactly when the last team that ever owned the base is the enemy. */
  lemma ControlIsTakenFromTheEnemy(b: Base, p: Presence, multiplier: real)
    requires Remembers(b)
    ensures var after := Advance(b, p, multiplier);
            (CaptureOf(b, after).Control? <==>
               after.owner != b.owner && Playable(after.owner) && LastTeam(b.history) == Other(after.owner)) &&
            (CaptureOf(b, after) != NoCapture ==> CaptureOf(b, after).payee == after.owner) &&
            (CaptureOf(b, after) == NoCapture <==> after.owner == b.owner || after.owner == Neutral)
  {}

  /** With both teams inside, or neither, a base keeps its owner and its progress, and nobody attacks it. */
  lemma ContestedStandsStill(b: Base, p: Presence, multiplier: real)
    requires (p.blue > 0 && p.green > 0) || p.blue == p.green
    ensures var after := Advance(b, p, multiplier);
            && after.owner == b.owner && after.progress == b.progress && after.lastPlayable == b.lastPlayable
            && after.history == b.history && after.attacker == Neutral
            && (after.contested <==> p.blue > 0 && p.green > 0)
  {}

  /** A lone team drives the progress to its own end, at the rate of its numbers, but for the ends and the snaps. */
  lemma LoneTeamDrives(b: Base, p: Presence, multiplier: real)
    requires Consistent(b) && multiplier >= 0.1 && LegalPresence(p) && (p.blue == 0) != (p.green == 0)
    ensures var after := Advance(b, p, multiplier);
            var way := Step(p.blue + p.green, p.elapsed, multiplier);
            var to := if p.green > 0 then b.progress + way else b.progress - way;
            && way > 0.0 && !after.contested && after.attacker == (if p.green > 0 then Green else Blue)
            && (after.progress == to || (to >= 1.0 && after.progress == 1.0) || (to <= 0.0 && after.progress == 0.0) ||
                (after.progress in {0.0, 0.5, 1.0} && Distance(after.progress, to) < SNAP))
  {
    LoneStepIsNoSmaller(p.blue + p.green, p.elapsed, multiplier);
  }

  /** Progress within the residue of an end or of the middle is there; past an end it is at the end; else it stays. */
  lemma ResidueIsDropped(progress: real)
    ensures Settle(progress) == if progress < SNAP then 0.0
                                else if progress > 1.0 - SNAP then 1.0
                                else if 0.5 - SNAP < progress < 0.5 + SNAP then 0.5 else progress
  {}

  /** A step is proportional to the time it stands for, and to the multiplier. */
  lemma StepScales(net: nat, elapsed: real, multiplier: real, k: real)
    ensures Step(net, k * elapsed, multiplier) == k * Step(net, elapsed, multiplier)
    ensures Step(net, elapsed, k * multiplier) == k * Step(net, elapsed, multiplier)
    ensures Step(net, TC_CAPTURE_TICK_RATE, 1.0) == PercentPerTick(TC_CAPTURE_RATE, net) / 200.0
  {
    var rate := PercentPerTick(TC_CAPTURE_RATE, net) / 100.0 * 0.5;
    ScaleProducts(rate, multiplier, elapsed / TC_CAPTURE_TICK_RATE, k);
    assert k * elapsed / TC_CAPTURE_TICK_RATE == k * (elapsed / TC_CAPTURE_TICK_RATE);
  }

  lemma ScaleProducts(a: real, b: real, c: real, k: real)
    ensures a * b * (k * c) == k * (a * b * c)
    ensures a * (k * b) * c == k * (a * b * c)
  {
    var ab := a * b;
    assert ab * (k * c) == k * (ab * c);
    assert a * (k * b) == k * ab;
    assert (k * ab) * c == k * (ab * c);
  }

  /** Who owns a base with this progress, if `owner` has had it so far. */
  function OwnerWith(owner: Team, progress: real): Team {
    if progress <= 0.0 then Blue
    else if progress >= 1.0 then Green
    else if owner == Green && progress > 0.5 then Green
    else if owner == Blue && progress < 0.5 then Blue
    else Neutral
  }

  /** Whether two distances from the middle lie on different sides of it. */
  lemma Crossing(before: real, after: real)
    requires before != 0.0
    ensures before * after <= 0.0 <==> after == 0.0 || (before > 0.0) != (after > 0.0)
  {
    if before > 0.0 {
      if after > 0.0 { assert before * after > 0.0; } else { assert before * (-after) >= 0.0; }
    } else {
      if after >= 0.0 { assert (-before) * after >= 0.0; } else { assert (-before) * (-after) > 0.0; }
    }
  }

  lemma OwnerAtIsOwnerWith(b: Base, progress: real)
    requires Consistent(b) && 0.0 <= progress <= 1.0
    ensures OwnerAt(b, progress) == OwnerWith(b.owner, progress)
  {
    if Playable(b.owner) {
      Crossing(b.progress - 0.5, progress - 0.5);
    }
  }

  /** A base is taken at its end, lost at the middle, and otherwise stays with whoever has it. */
  lemma OwnershipFollowsProgress(b: Base, p: Presence, multiplier: real)
    requires Consistent(b)
    ensures Advance(b, p, multiplier).owner == OwnerWith(b.owner, Advance(b, p, multiplier).progress)
  {
    OwnerAtIsOwnerWith(b, Advance(b, p, multiplier).progress);
  }

  /** The amount on the wire is the share of the way, in percent, from the owner's anchor to the next change. */
  lemma WireIsTheShare(b: Base)
    requires Consistent(b)
    ensures WireCapture(b).1 == 100.0 * (2.0 * Distance(b.progress, WireAnchor(b.owner)))
    ensures WireCapture(b).0 == if b.progress > WireAnchor(b.owner) then Green
                                else if b.progress < WireAnchor(b.owner) then Blue else b.attacker
  {}

  // ----- The rules favour neither team -----

  function Swap(t: Team): Team {
    match t case Blue => Green case Green => Blue case Neutral => Neutral
  }

  function SwapAll(history: seq<Team>): seq<Team> {
    seq(|history|, i requires 0 <= i < |history| => Swap(history[i]))
  }

  function Mirror(b: Base): Base {
    Base(Swap(b.owner), Swap(b.attacker), 1.0 - b.progress, b.contested, Swap(b.lastPlayable), SwapAll(b.history))
  }

  function MirrorPresence(p: Presence): Presence {
    Presence(p.green, p.blue, p.elapsed)
  }

  lemma SettleMirrors(progress: real)
    ensures Settle(1.0 - progress) == 1.0 - Settle(progress)
  {}

  lemma OwnerMirrors(b: Base, progress: real)
    requires 0.0 <= progress <= 1.0
    ensures OwnerAt(Mirror(b), 1.0 - progress) == Swap(OwnerAt(b, progress))
  {
    assert (1.0 - b.progress - 0.5) * (1.0 - progress - 0.5) == (b.progress - 0.5) * (progress - 0.5);
  }

  lemma MoveMirrors(b: Base, attacker: Team, progress: real)
    requires 0.0 <= progress <= 1.0
    ensures MoveTo(Mirror(b), Swap(attacker), 1.0 - progress) == Mirror(MoveTo(b, attacker, progress))
  {
    OwnerMirrors(b, progress);
    assert SwapAll(b.history + [OwnerAt(b, progress)]) == SwapAll(b.history) + [Swap(OwnerAt(b, progress))];
  }

  lemma AdvanceMirrors(b: Base, p: Presence, multiplier: real)
    ensures Advance(Mirror(b), MirrorPresence(p), multiplier) == Mirror(Advance(b, p, multiplier))
  {
    var attacker := Advance(b, p, multiplier).attacker;
    if attacker != Neutral {
      var change := NetChange(p.green - p.blue, p.elapsed, multiplier);
      assert NetChange(p.blue - p.green, p.elapsed, multiplier) == -change;
      SettleMirrors(b.progress + change);
      assert 1.0 - (b.progress + change) == Mirror(b).progress - change;
      MoveMirrors(b, attacker, Settle(b.progress + change));
    }
  }

  // ----- A team left alone wins the base -----

  /** The least progress one player makes in one capture tick. */
  function MinStep(multiplier: real): real {
    0.005 * multiplier
  }

  lemma LoneStepIsNoSmaller(net: nat, elapsed: real, multiplier: real)
    requires net >= 1 && elapsed >= TC_CAPTURE_TICK_RATE && multiplier >= 0.1
    ensures Step(net, elapsed, multiplier) >= MinStep(multiplier) > SNAP
  {
    RateIsMonotoneAndBounded(TC_CAPTURE_RATE, 1, net);
    RateMeetsTable(TC_CAPTURE_RATE, 1);
    var rate := PercentPerTick(TC_CAPTURE_RATE, net) / 100.0 * 0.5;
    var ticks := elapsed / TC_CAPTURE_TICK_RATE;
    assert rate >= 0.005 && ticks >= 1.0;
    assert rate * multiplier >= 0.005 * multiplier;
    assert (rate * multiplier) * (ticks - 1.0) >= 0.0;
  }

  /** Only green players inside, at every sample. */
  ghost predicate GreenAlone(samples: seq<Presence>) {
    forall i :: 0 <= i < |samples| ==> samples[i].blue == 0 && samples[i].green >= 1 && LegalPresence(samples[i])
  }

  ghost predicate BlueAlone(samples: seq<Presence>) {
    forall i :: 0 <= i < |samples| ==> samples[i].green == 0 && samples[i].blue >= 1 && LegalPresence(samples[i])
  }

  /** The one crossing that snapping can cost is the middle one. */
  function SnapLoss(progress: real): real {
    if progress >= 0.5 then SNAP else 0.0
  }

  /** Progress is full, or has grown by `distance` less what snapping took. */
  ghost predicate HasGrown(start: real, distance: real, progress: real) {
    progress >= 1.0 || progress >= start + distance - SnapLoss(progress)
  }

  lemma GreenGrowth(b: Base, p: Presence, multiplier: real, start: real, distance: real)
    requires p.blue == 0 && p.green >= 1 && LegalPresence(p) && multiplier >= 0.1
    requires 0.0 <= b.progress <= 1.0 && HasGrown(start, distance, b.progress)
    ensures HasGrown(start, distance + MinStep(multiplier), Advance(b, p, multiplier).progress)
  {
    LoneStepIsNoSmaller(p.green, p.elapsed, multiplier);
  }

  lemma OneMoreStep(n: nat, step: real)
    ensures (n + 1) as real * step == n as real * step + step
  {}

  /** After `n` ticks of green alone from `start`. */
  ghost predicate Grown(start: real, n: nat, multiplier: real, b: Base) {
    Consistent(b) && HasGrown(start, n as real * MinStep(multiplier), b.progress)
  }

  lemma GreenTick(start: real, n: nat, multiplier: real, b: Base, p: Presence)
    requires p.blue == 0 && p.green >= 1 && LegalPresence(p) && multiplier >= 0.1
    requires Grown(start, n, multiplier, b)
    ensures Grown(start, n + 1, multiplier, Advance(b, p, multiplier))
  {
    AdvanceKeepsConsistent(b, p, multiplier);
    GreenGrowth(b, p, multiplier, start, n as real * MinStep(multiplier));
    OneMoreStep(n, MinStep(multiplier));
  }

  lemma {:induction false} GreenRunGrows(b: Base, samples: seq<Presence>, multiplier: real)
    requires Consistent(b) && GreenAlone(samples) && multiplier >= 0.1
    ensures Grown(b.progress, |samples|, multiplier, Run(b, samples, multiplier))
  {
    if samples != [] {
      var n := |samples| - 1;
      GreenRunGrows(b, samples[..n], multiplier);
      GreenTick(b.progress, n, multiplier, Run(b, samples[..n], multiplier), samples[n]);
    }
  }

  /** A green team alone owns the base once the ticks cover the way that is left, and one snap. */
  lemma {:induction false} GreenAloneCaptures(b: Base, samples: seq<Presence>, multiplier: real)
    requires Consistent(b) && GreenAlone(samples) && multiplier >= 0.1
    requires |samples| as real * MinStep(multiplier) >= 1.0 - b.progress + SNAP
    ensures Run(b, samples, multiplier).owner == Green && Run(b, samples, multiplier).progress == 1.0
  {
    GreenRunGrows(b, samples, multiplier);
  }

  function MirrorAll(samples: seq<Presence>): seq<Presence> {
    seq(|samples|, i requires 0 <= i < |samples| => MirrorPresence(samples[i]))
  }

  lemma {:induction false} RunMirrors(b: Base, samples: seq<Presence>, multiplier: real)
    ensures Run(Mirror(b), MirrorAll(samples), multiplier) == Mirror(Run(b, samples, multiplier))
  {
    if samples != [] {
      var n := |samples| - 1;
      RunMirrors(b, samples[..n], multiplier);
      assert MirrorAll(samples)[..n] == MirrorAll(samples[..n]);
      AdvanceMirrors(Run(b, samples[..n], multiplier), samples[n], multiplier);
    }
  }

  lemma {:induction false} BlueAloneCaptures(b: Base, samples: seq<Presence>, multiplier: real)
    requires Consistent(b) && BlueAlone(samples) && multiplier >= 0.1
    requires |samples| as real * MinStep(multiplier) >= b.progress + SNAP
    ensures Run(b, samples, multiplier).owner == Blue && Run(b, samples, multiplier).progress == 0.0
  {
    GreenAloneCaptures(Mirror(b), MirrorAll(samples), multiplier);
    RunMirrors(b, samples, multiplier);
  }
}

/** The mode: territories captured in place, scores that count them, and the winning condition. */
module TerritoryControl {
  import opened Teams
  import opened CaptureRate
  import opened TerritoryBase

  class Territory {
    var owner: Team
    var attacker: Team
    var progress: real
    var contested: bool
    var lastNonNeutralOwner: Team
    ghost var history: seq<Team>

    ghost function View(): Base
      reads this
    {
      Base(owner, attacker, progress, contested, lastNonNeutralOwner, history)
    }

    constructor (owner: Team)
      ensures View() == Initial(owner)
    {
      this.owner, attacker, progress, contested := owner, Neutral, WireAnchor(owner), false;
      lastNonNeutralOwner, history := owner, [owner];
    }

    /** Progress has been moved to `reached`: settle the owner and say what to pay for a capture. */
    method SettleOwner(reached: real) returns (paid: Capture)
      requires !contested
      modifies this`progress, this`owner, this`lastNonNeutralOwner, this`history
      ensures View() == MoveTo(old(View()), attacker, reached)
      ensures paid == CaptureOf(old(View()), View())
    {
      var previousProgress, previousOwner := progress, owner;
      progress := reached;
      if progress <= 0.0 {
        owner := Blue;
      } else if progress >= 1.0 {
        owner := Green;
      } else if Playable(previousOwner) && (previousProgress - 0.5) * (progress - 0.5) <= 0.0 {
        lastNonNeutralOwner := previousOwner;
        owner := Neutral;
      }
      paid := NoCapture;
      if owner != previousOwner {
        history := history + [owner];
        if Playable(owner) {
          var wasEnemy := Playable(lastNonNeutralOwner) && lastNonNeutralOwner != owner;
          paid := if wasEnemy then Control(owner) else Claim(owner);
          lastNonNeutralOwner := owner;
        }
      }
    }

    /** The part of the capture tick that concerns this territory. */
    method CaptureTick(p: Presence, multiplier: real) returns (paid: Capture)
      modifies this
      ensures View() == Advance(old(View()), p, multiplier)
      ensures paid == CaptureOf(old(View()), View())
    {
      ghost var before := View();
      var isContested := p.blue > 0 && p.green > 0;
      if isContested != contested {
        contested := isContested;
      }
      var net := if isContested then 0 else p.green - p.blue;
      attacker := if net > 0 then Green else if net < 0 then Blue else Neutral;
      if net == 0 {
        return NoCapture;
      }
      var reached := Reached(progress, net, p.elapsed, multiplier);
      AdvanceMoves(before, p, multiplier);
      MoveForgetsAttackers(before, View(), attacker, reached);
      paid := SettleOwner(reached);
    }
  }

  function Owned(bases: seq<Base>, team: Team): nat {
    if bases == [] then 0 else Owned(bases[..|bases| - 1], team) + if bases[|bases| - 1].owner == team then 1 else 0
  }

  predicate OwnsAll(bases: seq<Base>, team: Team) {
    forall i :: 0 <= i < |bases| ==> bases[i].owner == team
  }

  lemma {:induction false} OwnedPartition(bases: seq<Base>)
    ensures Owned(bases, Blue) + Owned(bases, Green) + Owned(bases, Neutral) == |bases|
  {
    if bases != [] {
      OwnedPartition(bases[..|bases| - 1]);
    }
  }

  lemma {:induction false} OwnedAll(bases: seq<Base>, team: Team)
    ensures Owned(bases, team) <= |bases|
    ensures Owned(bases, team) == |bases| <==> OwnsAll(bases, team)
  {
    if bases != [] {
      var shorter := bases[..|bases| - 1];
      OwnedAll(shorter, team);
      assert forall i :: 0 <= i < |shorter| ==> shorter[i] == bases[i];
    }
  }

  function StartingOwner(index: nat, count: nat): Team
    requires index < count
  {
    if index < count / 2 then Blue else if index > (count - 1) / 2 then Green else Neutral
  }

  function StartingBases(count: nat): seq<Base> {
    seq(count, i requires 0 <= i < count => Initial(StartingOwner(i, count)))
  }

  lemma {:induction false} OwnedOfRun(bases: seq<Base>, from: nat, end: nat, team: Team)
    requires from <= end <= |bases| && forall i :: from <= i < end ==> bases[i].owner == team
    ensures Owned(bases[..end], team) == Owned(bases[..from], team) + (end - from)
    ensures forall t :: t != team ==> Owned(bases[..end], t) == Owned(bases[..from], t)
    decreases end
  {
    if from < end {
      assert bases[..end][..end - 1] == bases[..end - 1];
      OwnedOfRun(bases, from, end - 1, team);
    }
  }

  /** The line starts split evenly, with the middle territory neutral when the count is odd. */
  lemma StartIsEven(count: nat)
    ensures var bases := StartingBases(count);
            Owned(bases, Blue) == Owned(bases, Green) == count / 2 < Limit(count) && Owned(bases, Neutral) == count % 2
  {
    var bases := StartingBases(count);
    var low, high := count / 2, count - count / 2;
    OwnedOfRun(bases, 0, low, Blue);
    OwnedOfRun(bases, low, high, Neutral);
    OwnedOfRun(bases, high, count, Green);
    assert bases[..count] == bases;
  }

  /** Every territory takes its own step of one capture tick. */
  function AdvanceAll(bases: seq<Base>, presence: seq<Presence>, multiplier: real): seq<Base>
    requires |presence| == |bases|
  {
    seq(|bases|, i requires 0 <= i < |bases| => Advance(bases[i], presence[i], multiplier))
  }

  function CapturesOf(bases: seq<Base>, after: seq<Base>): seq<Capture>
    requires |bases| == |after|
  {
    seq(|bases|, i requires 0 <= i < |bases| => CaptureOf(bases[i], after[i]))
  }

  function Limit(count: nat): nat {
    if count < 1 then 1 else count
  }

  /** A team reaches the limit exactly by owning every territory, and both cannot. */
  lemma LimitMeansAll(bases: seq<Base>, team: Team)
    requires Playable(team)
    ensures Owned(bases, team) >= Limit(|bases|) <==> bases != [] && OwnsAll(bases, team)
    ensures Owned(bases, Blue) + Owned(bases, Green) + Owned(bases, Neutral) == |bases|
  {
    OwnedAll(bases, team);
    OwnedPartition(bases);
  }

  lemma {:induction false} SameOwnersSameCounts(bases: seq<Base>, after: seq<Base>)
    requires |bases| == |after| && forall i :: 0 <= i < |bases| ==> bases[i].owner == after[i].owner
    ensures forall t :: Owned(bases, t) == Owned(after, t) && (OwnsAll(bases, t) <==> OwnsAll(after, t))
  {
    if bases != [] {
      SameOwnersSameCounts(bases[..|bases| - 1], after[..|after| - 1]);
    }
  }

  ghost function BasesOf(territories: seq<Territory>): (bases: seq<Base>)
    reads territories
    ensures |bases| == |territories|
    ensures forall i :: 0 <= i < |bases| ==> bases[i] == territories[i].View()
  {
    seq(|territories|, i requires 0 <= i < |territories| reads territories => territories[i].View())
  }

  ghost predicate Distinct(territories: seq<Territory>) {
    forall i, j :: 0 <= i < j < |territories| ==> territories[i] != territories[j]
  }

  method InitialiseTerritories(count: nat) returns (result: seq<Territory>)
    ensures fresh(result) && Distinct(result) && BasesOf(result) == StartingBases(count)
  {
    result := [];
    var index := 0;
    while index < count
      invariant 0 <= index <= count && |result| == index
      invariant fresh(result) && Distinct(result)
      invariant forall i :: 0 <= i < index ==> result[i].View() == Initial(StartingOwner(i, count))
    {
      var t := new Territory(StartingOwner(index, count));
      result := result + [t];
      index := index + 1;
    }
  }

  /**
   * The whole match: the line of territories, what the score board says and how it stands. `byScore`
   * tells an end by owning everything from an end by the clock; the winner is neutral in a draw.
   */
  datatype Match = Match(
    bases: seq<Base>, blue: nat, green: nat, limit: nat, multiplier: real, ended: bool, retiring: bool, winner: Team,
    byScore: bool)

  function NewMatch(count: nat, multiplier: real, retiring: bool): Match {
    Match(StartingBases(count), count / 2, count / 2, Limit(count), multiplier, false, retiring, Neutral, false)
  }

  predicate SameOwners(bases: seq<Base>, after: seq<Base>)
    requires |bases| == |after|
  {
    forall i :: 0 <= i < |bases| ==> bases[i].owner == after[i].owner
  }

  function Ended(m: Match, winner: Team): Match {
    if m.ended || m.retiring then m else m.(ended := true, winner := winner, byScore := true)
  }

  /** The clock's verdict: the team with more points, or a draw. */
  function TimedOut(m: Match): Match {
    if m.ended || m.retiring then m else m.(ended := true, winner := Leader(m.blue, m.green))
  }

  function Leader(blue: nat, green: nat): Team {
    if blue > green then Blue else if green > blue then Green else Neutral
  }

  /** Scores and the winning test are looked at only when some owner changed. */
  function TickMatch(m: Match, presence: seq<Presence>): Match
    requires |presence| == |m.bases|
  {
    var after := AdvanceAll(m.bases, presence, m.multiplier);
    if SameOwners(m.bases, after) then m.(bases := after)
    else
      var scored := m.(bases := after, blue := Owned(after, Blue), green := Owned(after, Green));
      if scored.blue >= m.limit then Ended(scored, Blue)
      else if scored.green >= m.limit then Ended(scored, Green)
      else scored
  }

  /** Scores are the owned counts, and each way to end a match leaves its mark. */
  ghost predicate Sound(m: Match) {
    m.limit == Limit(|m.bases|) &&
    m.blue == Owned(m.bases, Blue) && m.green == Owned(m.bases, Green) &&
    (m.byScore ==> m.ended && Playable(m.winner) && m.bases != [] && OwnsAll(m.bases, m.winner)) &&
    (!m.byScore && !m.retiring ==> m.blue < m.limit && m.green < m.limit) &&
    (m.ended && !m.byScore ==> m.winner == Leader(m.blue, m.green)) &&
    (m.ended ==> !m.retiring)
  }

  lemma NewMatchIsSound(count: nat, multiplier: real, retiring: bool)
    ensures Sound(NewMatch(count, multiplier, retiring))
  {
    StartIsEven(count);
  }

  lemma TickKeepsSound(m: Match, presence: seq<Presence>)
    requires Sound(m) && |presence| == |m.bases| && !m.ended
    ensures Sound(TickMatch(m, presence))
  {
    var after := AdvanceAll(m.bases, presence, m.multiplier);
    LimitMeansAll(after, Blue);
    LimitMeansAll(after, Green);
    if SameOwners(m.bases, after) {
      SameOwnersSameCounts(m.bases, after);
    }
  }

  lemma TimeOutKeepsSound(m: Match)
    requires Sound(m)
    ensures Sound(TimedOut(m))
  {}

  /** What the server's ticks do to a match: a capture tick, or the end of the time. */
  datatype Hook =
    | Sample(presence: seq<Presence>)
    | TimeUp

  ghost predicate Legal(hooks: seq<Hook>, count: nat) {
    forall i :: 0 <= i < |hooks| && hooks[i].Sample? ==> |hooks[i].presence| == count
  }

  /** Nothing is captured once the match has ended. */
  function Next(m: Match, h: Hook): Match
    requires h.Sample? ==> |h.presence| == |m.bases|
  {
    match h
    case Sample(presence) => if m.ended then m else TickMatch(m, presence)
    case TimeUp => TimedOut(m)
  }

  function RunMatch(m: Match, hooks: seq<Hook>): (after: Match)
    requires Legal(hooks, |m.bases|)
    ensures |after.bases| == |m.bases| && after.retiring == m.retiring
  {
    if hooks == [] then m else Next(RunMatch(m, hooks[..|hooks| - 1]), hooks[|hooks| - 1])
  }

  /** A sample of these players inside, over a legal time. */
  ghost predicate Counts(presence: seq<Presence>, inside: seq<(nat, nat)>) {
    |presence| == |inside| &&
    forall i :: 0 <= i < |presence| ==>
      presence[i].blue == inside[i].0 && presence[i].green == inside[i].1 && LegalPresence(presence[i])
  }

  lemma RunOneMore(m: Match, hooks: seq<Hook>, h: Hook)
    requires Legal(hooks, |m.bases|) && (h.Sample? ==> |h.presence| == |m.bases|)
    ensures Legal(hooks + [h], |m.bases|) && RunMatch(m, hooks + [h]) == Next(RunMatch(m, hooks), h)
  {
    assert (hooks + [h])[..|hooks|] == hooks;
  }

  /** The clock's share of a tick. */
  lemma RunClock(m: Match, timeUp: bool)
    ensures RunMatch(m, if timeUp then [TimeUp] else []) == if timeUp then TimedOut(m) else m
  {
    RunOneMore(m, [], TimeUp);
    assert [] + [TimeUp] == [TimeUp];
  }

  lemma {:induction false} EveryMatchIsSound(count: nat, multiplier: real, retiring: bool, hooks: seq<Hook>)
    requires Legal(hooks, count)
    ensures Sound(RunMatch(NewMatch(count, multiplier, retiring), hooks))
  {
    if hooks == [] {
      NewMatchIsSound(count, multiplier, retiring);
    } else {
      var n := |hooks| - 1;
      EveryMatchIsSound(count, multiplier, retiring, hooks[..n]);
      var before := RunMatch(NewMatch(count, multiplier, retiring), hooks[..n]);
      if hooks[n].TimeUp? {
        TimeOutKeepsSound(before);
      } else if !before.ended {
        TickKeepsSound(before, hooks[n].presence);
      }
    }
  }

  /** There are just these two ways to end, and the second takes the clock. */
  lemma {:induction false} EndedByScoreOrClock(m: Match, hooks: seq<Hook>)
    requires Legal(hooks, |m.bases|) && !m.ended && !m.byScore && !m.retiring
    ensures var t := RunMatch(m, hooks); (t.byScore ==> t.ended) && (t.ended <==> t.byScore || TimeUp in hooks)
  {
    if hooks != [] {
      var n := |hooks| - 1;
      EndedByScoreOrClock(m, hooks[..n]);
      EndsByScoreOrClock(RunMatch(m, hooks[..n]), hooks[n]);
      assert TimeUp in hooks <==> TimeUp in hooks[..n] || hooks[n] == TimeUp;
    }
  }

  lemma EndsByScoreOrClock(m: Match, h: Hook)
    requires (h.Sample? ==> |h.presence| == |m.bases|) && !m.retiring && (m.byScore ==> m.ended)
    ensures var t := Next(m, h); (t.byScore ==> t.ended) && (t.ended <==> m.ended || t.byScore || h == TimeUp)
    ensures m.byScore ==> Next(m, h).byScore
    ensures m.ended ==> Next(m, h).byScore == m.byScore
  {}

  /**
   * At every moment of every match that is not being replaced: the scores are the owned counts and share
   * out the line; the match has ended by score exactly when one team, the winner, owns all of it; and the
   * clock is the only other way to end, with the team that owns more of the line as winner.
   */
  lemma ScoreBoardIsTrue(count: nat, multiplier: real, hooks: seq<Hook>)
    requires Legal(hooks, count)
    ensures var m := RunMatch(NewMatch(count, multiplier, false), hooks);
            m.blue == Owned(m.bases, Blue) && m.green == Owned(m.bases, Green) &&
            m.blue + m.green + Owned(m.bases, Neutral) == count &&
            (m.byScore <==> count > 0 && (OwnsAll(m.bases, Blue) || OwnsAll(m.bases, Green))) &&
            (m.byScore ==> OwnsAll(m.bases, m.winner)) &&
            (m.ended <==> m.byScore || TimeUp in hooks) &&
            (m.ended && !m.byScore ==>
               && (m.winner == Blue <==> m.blue > m.green) && (m.winner == Green <==> m.green > m.blue)
               && (m.winner == Neutral <==> m.blue == m.green))
  {
    EveryMatchIsSound(count, multiplier, false, hooks);
    EndedByScoreOrClock(NewMatch(count, multiplier, false), hooks);
    var m := RunMatch(NewMatch(count, multiplier, false), hooks);
    LimitMeansAll(m.bases, Blue);
    LimitMeansAll(m.bases, Green);
  }

  /** So a match can end with the line shared: a new one whose time is up is a draw. */
  lemma TimeUpSharesTheLine(count: nat, multiplier: real)
    requires count > 0
    ensures var m := RunMatch(NewMatch(count, multiplier, false), [TimeUp]);
            m.ended && m.winner == Neutral && !OwnsAll(m.bases, Blue) && !OwnsAll(m.bases, Green)
  {
    var start := NewMatch(count, multiplier, false);
    assert [TimeUp][..0] == [] && RunMatch(start, []) == start;
    ScoreBoardIsTrue(count, multiplier, []);
  }

  /** Every territory takes its own step of a capture tick, and pays for its own capture, whatever the others do. */
  lemma EachOnItsOwn(m: Match, presence: seq<Presence>, i: nat)
    requires |presence| == |m.bases| && i < |m.bases|
    ensures var t := TickMatch(m, presence);
            && |t.bases| == |m.bases| && t.bases[i] == Advance(m.bases[i], presence[i], m.multiplier)
            && CapturesOf(m.bases, t.bases)[i] == CaptureOf(m.bases[i], t.bases[i])
  {}

  ghost predicate Healthy(b: Base) {
    Consistent(b) && Remembers(b)
  }

  lemma TickKeepsHealthy(m: Match, presence: seq<Presence>, i: nat)
    requires |presence| == |m.bases| && i < |m.bases| && Healthy(m.bases[i])
    ensures Healthy(TickMatch(m, presence).bases[i])
  {
    AdvanceKeepsConsistent(m.bases[i], presence[i], m.multiplier);
    AdvanceRemembers(m.bases[i], presence[i], m.multiplier);
  }

  lemma {:induction false} RunKeepsHealthy(m: Match, hooks: seq<Hook>, i: nat)
    requires Legal(hooks, |m.bases|) && i < |m.bases| && Healthy(m.bases[i])
    ensures Healthy(RunMatch(m, hooks).bases[i])
  {
    if hooks != [] {
      var n := |hooks| - 1;
      RunKeepsHealthy(m, hooks[..n], i);
      if hooks[n].Sample? && !RunMatch(m, hooks[..n]).ended {
        TickKeepsHealthy(RunMatch(m, hooks[..n]), hooks[n].presence, i);
      }
    }
  }

  /** Every territory of every match keeps its progress on its owner's side and remembers who owned it. */
  lemma EveryTerritoryIsConsistent(count: nat, multiplier: real, retiring: bool, hooks: seq<Hook>, i: nat)
    requires i < count && Legal(hooks, count)
    ensures var b := RunMatch(NewMatch(count, multiplier, retiring), hooks).bases[i]; Consistent(b) && Remembers(b)
  {
    EveryRunIsConsistent(StartingOwner(i, count), [], multiplier);
    RunKeepsHealthy(NewMatch(count, multiplier, retiring), hooks, i);
  }

  class TerritoryControlMode {
    var territories: seq<Territory>
    var blueScore: nat
    var greenScore: nat
    var scoreLimit: nat
    var captureMultiplier: real
    var nextCaptureAt: real
    var ended: bool
    var winner: Team
    const retiring: bool
    ghost var byScore: bool

    ghost function View(): Match
      reads this`territories, this`blueScore, this`greenScore, this`scoreLimit, this`captureMultiplier, this`ended
      reads this`winner, this`byScore, territories
    {
      Match(BasesOf(territories), blueScore, greenScore, scoreLimit, captureMultiplier,
            ended, retiring, winner, byScore)
    }

    ghost predicate Valid()
      reads this`territories
    {
      Distinct(territories)
    }

    constructor (count: nat, multiplier: real, now: real, retiring: bool)
      ensures Valid() && fresh(territories) && View() == NewMatch(count, multiplier, retiring)
    {
      this.retiring := retiring;
      scoreLimit := if count < 1 then 1 else count;
      captureMultiplier, nextCaptureAt, ended, winner, byScore := multiplier, now, false, Neutral, false;
      var line := InitialiseTerritories(count);
      territories, blueScore, greenScore := line, 0, 0;
      new;
      Begin(count);
    }

    /** The opening scores count the line as it was laid out. */
    method Begin(count: nat)
      requires BasesOf(territories) == StartingBases(count)
      modifies this`blueScore, this`greenScore
      ensures View() == old(View()).(blue := count / 2, green := count / 2)
    {
      StartIsEven(count);
      RefreshTeamScores();
    }

    method RefreshTeamScores()
      modifies this`blueScore, this`greenScore
      ensures View() == old(View()).(blue := Owned(old(View()).bases, Blue), green := Owned(old(View()).bases, Green))
    {
      ghost var bases := BasesOf(territories);
      var blue, green := 0, 0;
      var i := 0;
      while i < |territories|
        invariant 0 <= i <= |territories|
        invariant blue == Owned(bases[..i], Blue) && green == Owned(bases[..i], Green)
      {
        assert bases[..i + 1][..i] == bases[..i];
        if territories[i].owner == Blue { blue := blue + 1; }
        if territories[i].owner == Green { green := green + 1; }
        i := i + 1;
      }
      assert bases[..i] == bases;
      blueScore, greenScore := blue, green;
    }

    method EndByScore(team: Team)
      modifies this`ended, this`winner, this`byScore
      ensures View() == Ended(old(View()), team)
    {
      if ended || retiring {
        return;
      }
      ended := true;
      winner := team;
      byScore := true;
    }

    /** The shared clock's end: the verdict is by score. */
    method EndByTime()
      modifies this`ended, this`winner
      ensures View() == TimedOut(old(View()))
    {
      if ended || retiring {
        return;
      }
      ended := true;
      winner := Neutral;
      if blueScore > greenScore {
        winner := Blue;
      } else if greenScore > blueScore {
        winner := Green;
      }
    }

    /**
     * One server tick: the clock is looked at first, and only a match it leaves running is captured in, when
     * a capture tick is due. `inside` is who stands where.
     */
    method OnTick(now: real, timeUp: bool, inside: seq<(nat, nat)>) returns (ghost hooks: seq<Hook>)
      requires Valid() && |inside| == |territories|
      modifies this`blueScore, this`greenScore, this`ended, this`winner, this`byScore, this`nextCaptureAt, territories
      ensures Valid() && territories == old(territories)
      ensures Legal(hooks, |territories|) && View() == RunMatch(old(View()), hooks)
      ensures |hooks| == (if timeUp then 1 else 0) + (if nextCaptureAt != old(nextCaptureAt) then 1 else 0)
      ensures timeUp ==> hooks[0] == TimeUp
      ensures forall i :: 0 <= i < |hooks| && hooks[i].Sample? ==> Counts(hooks[i].presence, inside)
      ensures nextCaptureAt != old(nextCaptureAt) <==>
                now >= old(nextCaptureAt) && !(old(ended) || (timeUp && !retiring))
    {
      hooks := if timeUp then [TimeUp] else [];
      if timeUp {
        EndByTime();
      }
      RunClock(old(View()), timeUp);
      if ended || now < nextCaptureAt {
        return;
      }
      var presence := CaptureDue(now, inside);
      RunOneMore(old(View()), hooks, Sample(presence));
      hooks := hooks + [Sample(presence)];
    }

    method CaptureDue(now: real, inside: seq<(nat, nat)>) returns (presence: seq<Presence>)
      requires Valid() && !ended && |inside| == |territories| && now >= nextCaptureAt
      modifies this`blueScore, this`greenScore, this`ended, this`winner, this`byScore, this`nextCaptureAt, territories
      ensures Valid() && |presence| == |inside| && View() == TickMatch(old(View()), presence)
      ensures nextCaptureAt == now + TC_CAPTURE_TICK_RATE
      ensures Counts(presence, inside)
    {
      var elapsed := CaptureClock(now, nextCaptureAt - TC_CAPTURE_TICK_RATE);
      presence := seq(|inside|, i requires 0 <= i < |inside| => Presence(inside[i].0, inside[i].1, elapsed));
      var _ := CaptureTick(presence);
    }

    method AdvanceTerritories(presence: seq<Presence>) returns (changed: bool, paid: seq<Capture>)
      requires Valid() && |presence| == |territories|
      modifies territories
      ensures View() == old(View()).(bases := AdvanceAll(old(View()).bases, presence, captureMultiplier))
      ensures paid == CapturesOf(old(View()).bases, View().bases)
      ensures !changed <==> SameOwners(old(View()).bases, View().bases)
    {
      ghost var before := BasesOf(territories);
      changed := false;
      paid := [];
      while |paid| < |territories|
        invariant |paid| <= |territories|
        invariant forall i :: 0 <= i < |paid| ==>
          territories[i].View() == Advance(before[i], presence[i], captureMultiplier)
        invariant forall i :: 0 <= i < |paid| ==> paid[i] == CaptureOf(before[i], territories[i].View())
        invariant forall i :: |paid| <= i < |territories| ==> territories[i].View() == before[i]
        invariant !changed <==> forall i :: 0 <= i < |paid| ==> territories[i].owner == before[i].owner
      {
        var t := territories[|paid|];
        var previousOwner := t.owner;
        var capture := t.CaptureTick(presence[|paid|], captureMultiplier);
        if t.owner != previousOwner {
          changed := true;
        }
        paid := paid + [capture];
      }
    }

    method CaptureTick(presence: seq<Presence>) returns (paid: seq<Capture>)
      requires Valid() && !ended && |presence| == |territories|
      modifies this`blueScore, this`greenScore, this`ended, this`winner, this`byScore, territories
      ensures View() == TickMatch(old(View()), presence) && Valid()
      ensures paid == CapturesOf(old(View()).bases, View().bases)
    {
      var changed;
      changed, paid := AdvanceTerritories(presence);
      if !changed {
        return;
      }
      RefreshTeamScores();
      if blueScore >= scoreLimit {
        EndByScore(Blue);
      } else if greenScore >= scoreLimit {
        EndByScore(Green);
      }
    }

    /**
     * The clock in front of it: the seconds since the last capture tick (which set the next one an
     * interval later), kept between one and three intervals.
     */
    method CaptureClock(now: real, ghost previous: real) returns (elapsed: real)
      requires nextCaptureAt == previous + TC_CAPTURE_TICK_RATE && now >= nextCaptureAt
      modifies this`nextCaptureAt
      ensures nextCaptureAt == now + TC_CAPTURE_TICK_RATE
      ensures TC_CAPTURE_TICK_RATE <= elapsed <= 3.0 * TC_CAPTURE_TICK_RATE
      ensures elapsed ==
              if now - previous <= 3.0 * TC_CAPTURE_TICK_RATE then now - previous else 3.0 * TC_CAPTURE_TICK_RATE
    {
      var interval := TC_CAPTURE_TICK_RATE;
      elapsed := now - nextCaptureAt + interval;
      if elapsed < interval {
        elapsed := interval;
      }
      nextCaptureAt := now + interval;
      if elapsed > interval * 3.0 {
        elapsed := interval * 3.0;
      }
    }
  }
}
