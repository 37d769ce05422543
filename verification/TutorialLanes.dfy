/** The training map's twelve lanes, and the log that brings a lane back to its authored state. */
module LaneLog {
  import opened Wrappers
  import opened Sizes
  import opened Voxels

  const LANES := 12
  const LANE_WIDTH := 146
  const LANE_HEIGHT := 120
  const LANE_TOUCH_LIMIT := 200_000

  /** Solid cells and their 24-bit colours. */
  type Terrain = map<Cell, int>

  function At(w: Terrain, c: Cell): Option<int> {
    if c in w then Some(w[c]) else None
  }

  function OriginX(lane: nat): int {
    match lane % 3 case 0 => 0 case 1 => 148 case _ => 298
  }

  function OriginY(lane: nat): int {
    match lane / 3 case 0 => 0 case 1 => 126 case 2 => 246 case _ => 372
  }

  predicate InLane(lane: nat, c: Cell) {
    lane < LANES &&
    OriginX(lane) <= c.x < OriginX(lane) + LANE_WIDTH && OriginY(lane) <= c.y < OriginY(lane) + LANE_HEIGHT
  }

  /** The first lane rectangle, in order, that holds the cell. */
  function FirstLane(c: Cell, lane: nat): (found: Option<nat>)
    requires lane <= LANES
    ensures found.Some? ==> InLane(found.value, c)
    ensures found.None? ==> forall l: nat :: lane <= l ==> !InLane(l, c)
    decreases LANES - lane
  {
    if lane == LANES then None else if InLane(lane, c) then Some(lane) else FirstLane(c, lane + 1)
  }

  function LaneOf(c: Cell): Option<nat> {
    FirstLane(c, 0)
  }

  /** The lanes do not overlap, so the first rectangle found is the only one. */
  lemma LaneOfIsTheLane(c: Cell, lane: nat)
    ensures LaneOf(c) == Some(lane) <==> InLane(lane, c)
  {
    if InLane(lane, c) {
      var found := LaneOf(c).value;
      assert found % 3 == lane % 3 && found / 3 == lane / 3;
    }
  }

  /** What is remembered of the edits: a bounded set a lane, and the cells no set remembers. */
  datatype TouchLog = TouchLog(touched: map<nat, set<Cell>>, lost: set<Cell>)

  function Touched(log: TouchLog, lane: nat): set<Cell> {
    if lane in log.touched then log.touched[lane] else {}
  }

  function Track(log: TouchLog, c: Cell): TouchLog {
    match LaneOf(c)
    case None => log
    case Some(lane) =>
      var touched := Touched(log, lane);
      if |touched| < LANE_TOUCH_LIMIT then TouchLog(log.touched[lane := touched + {c}], log.lost)
      else TouchLog(log.touched[lane := touched], if c in touched then log.lost else log.lost + {c})
  }

  function TrackAll(log: TouchLog, cells: seq<Cell>): TouchLog {
    if cells == [] then log else Track(TrackAll(log, cells[..|cells| - 1]), cells[|cells| - 1])
  }

  lemma {:induction false} TrackAllStaysInLane(log: TouchLog, cells: seq<Cell>, lane: nat)
    requires forall c :: c in cells ==> InLane(lane, c)
    ensures TrackAll(log, cells).touched - {lane} == log.touched - {lane}
  {
    if cells != [] {
      TrackAllStaysInLane(log, cells[..|cells| - 1], lane);
      LaneOfIsTheLane(cells[|cells| - 1], lane);
    }
  }

  /** The undo log's word on a lane: the authored value of every touched cell, then the target discs. */
  function Desired(touched: set<Cell>, pristine: Option<Terrain>, discs: Terrain): map<Cell, Option<int>> {
    (map c | c in touched && pristine.Some? :: At(pristine.value, c)) + map c | c in discs :: Some(discs[c])
  }

  function Restore(w: Terrain, desired: map<Cell, Option<int>>): (after: Terrain)
    ensures forall c :: At(after, c) == if c in desired then desired[c] else At(w, c)
  {
    map c | c in w.Keys + desired.Keys && (c in desired ==> desired[c].Some?) ::
      if c in desired then desired[c].value else w[c]
  }

  lemma SameTerrain(v: Terrain, w: Terrain)
    requires forall c :: At(v, c) == At(w, c)
    ensures v == w
  {
    forall c ensures c in v <==> c in w {
      assert At(v, c) == At(w, c);
    }
    forall c | c in v ensures v[c] == w[c] {
      assert At(v, c) == At(w, c);
    }
  }

  /** Restoring can be done a cell at a time, in any order. */
  lemma RestoreOneMore(w: Terrain, done: map<Cell, Option<int>>, c: Cell, want: Option<int>)
    ensures Restore(Restore(w, done), map[c := want]) == Restore(w, done[c := want])
  {
    SameTerrain(Restore(Restore(w, done), map[c := want]), Restore(w, done[c := want]));
  }

  datatype Lanes = Lanes(world: Terrain, log: TouchLog)

  datatype Event =
    | Edit(cell: Cell, now: Option<int>)
    | HandOver(lane: nat)

  /** What the mode keeps for restoring: the untouched copy, when it could be read, and each lane's discs. */
  datatype Authored = Authored(training: Terrain, copied: bool, discs: map<nat, Terrain>)

  function Copy(a: Authored): Option<Terrain> {
    if a.copied then Some(a.training) else None
  }

  function DiscsOf(a: Authored, lane: nat): Terrain {
    if lane in a.discs then a.discs[lane] else map[]
  }

  ghost predicate Faithful(a: Authored) {
    forall lane, c :: lane in a.discs && c in a.discs[lane] ==>
      InLane(lane, c) && At(a.training, c) == Some(a.discs[lane][c])
  }

  function Forget(log: TouchLog, lane: nat, a: Authored): TouchLog {
    TouchLog(log.touched - {lane},
             (if a.copied then log.lost - Touched(log, lane) else log.lost + Touched(log, lane))
             - DiscsOf(a, lane).Keys)
  }

  function Next(s: Lanes, e: Event, a: Authored): Lanes {
    match e
    case Edit(c, now) => Lanes(if now.Some? then s.world[c := now.value] else s.world - {c}, Track(s.log, c))
    case HandOver(lane) =>
      Lanes(Restore(s.world, Desired(Touched(s.log, lane), Copy(a), DiscsOf(a, lane))), Forget(s.log, lane, a))
  }

  function Run(s: Lanes, events: seq<Event>, a: Authored): Lanes {
    if events == [] then s else Next(Run(s, events[..|events| - 1], a), events[|events| - 1], a)
  }

  /** The undo log is complete: a cell of a lane that differs from the authored map is remembered or given up. */
  ghost predicate Complete(s: Lanes, a: Authored) {
    && (forall lane :: lane in s.log.touched ==> |s.log.touched[lane]| <= LANE_TOUCH_LIMIT)
    && (forall lane, c :: c in Touched(s.log, lane) ==> InLane(lane, c))
    && (forall lane, c :: InLane(lane, c) && At(s.world, c) != At(a.training, c) ==>
          c in Touched(s.log, lane) + s.log.lost)
  }

  lemma EditKeepsComplete(s: Lanes, c: Cell, now: Option<int>, a: Authored)
    requires Complete(s, a)
    ensures Complete(Next(s, Edit(c, now), a), a)
  {
    var t := Next(s, Edit(c, now), a);
    TrackStaysInLane(s.log, c);
    forall lane, d | InLane(lane, d) && At(t.world, d) != At(a.training, d)
      ensures d in Touched(t.log, lane) + t.log.lost
    {
      TrackRemembers(s.log, c, lane, d);
      if d != c {
        assert At(t.world, d) == At(s.world, d);
      }
    }
  }

  lemma TrackStaysInLane(log: TouchLog, c: Cell)
    requires forall lane :: lane in log.touched ==> |log.touched[lane]| <= LANE_TOUCH_LIMIT
    requires forall lane, d :: d in Touched(log, lane) ==> InLane(lane, d)
    ensures forall lane :: lane in Track(log, c).touched ==> |Track(log, c).touched[lane]| <= LANE_TOUCH_LIMIT
    ensures forall lane, d :: d in Touched(Track(log, c), lane) ==> InLane(lane, d)
  {}

  /** Nothing remembered or given up is forgotten by one more edit, and the edited cell is one of them. */
  lemma TrackRemembers(log: TouchLog, c: Cell, lane: nat, d: Cell)
    requires InLane(lane, d)
    ensures d == c || d in Touched(log, lane) + log.lost ==> d in Touched(Track(log, c), lane) + Track(log, c).lost
  {
    LaneOfIsTheLane(d, lane);
  }

  lemma HandOverKeepsComplete(s: Lanes, lane: nat, a: Authored)
    requires Complete(s, a) && Faithful(a)
    ensures Complete(Next(s, HandOver(lane), a), a)
  {
    var t := Next(s, HandOver(lane), a);
    forall l, d | InLane(l, d) && At(t.world, d) != At(a.training, d)
      ensures d in Touched(t.log, l) + t.log.lost
    {
      LaneOfIsTheLane(d, l);
      LaneOfIsTheLane(d, lane);
      assert d !in DiscsOf(a, lane);
      assert At(t.world, d) == At(s.world, d);
    }
  }

  /** Whatever is dug, built, painted or handed over, the log stays complete. */
  lemma {:induction false} EveryRunIsComplete(s: Lanes, events: seq<Event>, a: Authored)
    requires Complete(s, a) && Faithful(a)
    ensures Complete(Run(s, events, a), a)
  {
    if events != [] {
      var n := |events| - 1;
      EveryRunIsComplete(s, events[..n], a);
      match events[n]
      case Edit(c, now) => EditKeepsComplete(Run(s, events[..n], a), c, now, a);
      case HandOver(lane) => HandOverKeepsComplete(Run(s, events[..n], a), lane, a);
    }
  }

  /** A hand-over gives back the authored lane exactly when the log holds every difference outside the discs. */
  lemma HandOverRestores(s: Lanes, lane: nat, a: Authored)
    requires Faithful(a)
    ensures (forall c :: InLane(lane, c) ==> At(Next(s, HandOver(lane), a).world, c) == At(a.training, c)) <==>
            (forall c :: InLane(lane, c) && At(s.world, c) != At(a.training, c) ==>
                c in DiscsOf(a, lane) || (a.copied && c in Touched(s.log, lane)))
  {
    var t := Next(s, HandOver(lane), a);
    forall c
      ensures At(t.world, c) ==
              if c in DiscsOf(a, lane) || (a.copied && c in Touched(s.log, lane))
              then At(a.training, c) else At(s.world, c)
    {}
  }

  lemma HandOverStaysInItsLane(s: Lanes, lane: nat, a: Authored, c: Cell)
    requires Complete(s, a) && Faithful(a) && !InLane(lane, c)
    ensures At(Next(s, HandOver(lane), a).world, c) == At(s.world, c)
  {
    assert c !in Touched(s.log, lane) && c !in DiscsOf(a, lane);
  }

  /** The cells of one lane that a tenancy has edited. */
  function EditedIn(events: seq<Event>, lane: nat): set<Cell> {
    set i | 0 <= i < |events| && events[i].Edit? && InLane(lane, events[i].cell) :: events[i].cell
  }

  lemma EditedInExtends(events: seq<Event>, lane: nat)
    requires events != []
    ensures var e := events[|events| - 1];
            EditedIn(events, lane) ==
              EditedIn(events[..|events| - 1], lane) + if e.Edit? && InLane(lane, e.cell) then {e.cell} else {}
  {
    var n := |events| - 1;
    forall c | c in EditedIn(events, lane)
      ensures c in EditedIn(events[..n], lane) ||
              (events[n].Edit? && InLane(lane, events[n].cell) && c == events[n].cell)
    {
      var i :| 0 <= i < |events| && events[i].Edit? && InLane(lane, events[i].cell) && events[i].cell == c;
      if i < n {
        assert events[..n][i] == events[i];
      }
    }
    forall c | c in EditedIn(events[..n], lane)
      ensures c in EditedIn(events, lane)
    {
      var i :| 0 <= i < n && events[..n][i].Edit? && InLane(lane, events[..n][i].cell) && events[..n][i].cell == c;
      assert events[i] == events[..n][i];
    }
    if events[n].Edit? && InLane(lane, events[n].cell) {
      assert events[n].cell in EditedIn(events, lane);
    }
  }

  function Removals(cells: seq<Cell>): seq<Event> {
    seq(|cells|, i requires 0 <= i < |cells| => Edit(cells[i], None))
  }

  /** A group of cells destroyed, and published one by one. */
  function Without(s: Lanes, cells: seq<Cell>): Lanes {
    Lanes(s.world - (set c | c in cells), TrackAll(s.log, cells))
  }

  /** Destroying a group of cells is a run of single edits. */
  lemma {:induction false} RemovalsAreEdits(s: Lanes, cells: seq<Cell>, a: Authored)
    ensures Run(s, Removals(cells), a) == Without(s, cells)
  {
    if cells == [] {
      assert s.world - (set c | c in cells) == s.world;
    } else {
      var n := |cells| - 1;
      RemovalsAreEdits(s, cells[..n], a);
      assert Removals(cells)[..n] == Removals(cells[..n]);
      assert (set c | c in cells) == (set c | c in cells[..n]) + {cells[n]};
      assert s.world - (set c | c in cells[..n]) - {cells[n]} == s.world - (set c | c in cells);
    }
  }

  /** A tenancy in which no other hand-over of the lane falls. */
  predicate OneTenancy(events: seq<Event>, lane: nat) {
    forall i :: 0 <= i < |events| ==> events[i] != HandOver(lane)
  }

  /** Within the limit the log is exactly the set of edited cells, and nothing of the lane is given up. */
  lemma {:induction false} TenancyIsRemembered(s: Lanes, events: seq<Event>, a: Authored, lane: nat)
    requires Complete(s, a) && Faithful(a) && lane < LANES && OneTenancy(events, lane)
    requires Touched(s.log, lane) == {} && forall c :: c in s.log.lost ==> !InLane(lane, c)
    requires |EditedIn(events, lane)| <= LANE_TOUCH_LIMIT
    ensures var t := Run(s, events, a);
            Touched(t.log, lane) == EditedIn(events, lane) && forall c :: c in t.log.lost ==> !InLane(lane, c)
  {
    if events != [] {
      var n := |events| - 1;
      EditedInExtends(events, lane);
      SubsetSize(EditedIn(events[..n], lane), EditedIn(events, lane));
      TenancyIsRemembered(s, events[..n], a, lane);
      EveryRunIsComplete(s, events[..n], a);
      TenancyStep(Run(s, events[..n], a), events[n], a, lane, EditedIn(events, lane));
    }
  }

  lemma TenancyStep(s: Lanes, e: Event, a: Authored, lane: nat, after: set<Cell>)
    requires Complete(s, a) && Faithful(a) && e != HandOver(lane) && lane < LANES
    requires after == Touched(s.log, lane) + (if e.Edit? && InLane(lane, e.cell) then {e.cell} else {})
    requires |after| <= LANE_TOUCH_LIMIT && forall c :: c in s.log.lost ==> !InLane(lane, c)
    ensures var t := Next(s, e, a); Touched(t.log, lane) == after && forall c :: c in t.log.lost ==> !InLane(lane, c)
  {
    match e
    case Edit(c, _) =>
      LaneOfIsTheLane(c, lane);
      if InLane(lane, c) && c !in Touched(s.log, lane) {
        assert |after| == |Touched(s.log, lane)| + 1;
      }
    case HandOver(other) =>
      forall c | c in Touched(s.log, other) ensures !InLane(lane, c) {
        LaneOfIsTheLane(c, other);
        LaneOfIsTheLane(c, lane);
      }
  }

  /** The promise to the next learner: the authored lane, whatever happened before, within the limit. */
  lemma NextLearnerFindsTheAuthoredLane(s: Lanes, events: seq<Event>, a: Authored, lane: nat, c: Cell)
    requires Complete(s, a) && Faithful(a) && a.copied && OneTenancy(events, lane)
    requires Touched(s.log, lane) == {} && forall d :: d in s.log.lost ==> !InLane(lane, d)
    requires |EditedIn(events, lane)| <= LANE_TOUCH_LIMIT
    requires InLane(lane, c)
    ensures var t := Run(s, events + [HandOver(lane)], a);
            At(t.world, c) == At(a.training, c) && Touched(t.log, lane) == {} && c !in t.log.lost
  {
    TenancyIsRemembered(s, events, a, lane);
    EveryRunIsComplete(s, events, a);
    var u := Run(s, events, a);
    assert (events + [HandOver(lane)])[..|events|] == events;
    HandOverRestores(u, lane, a);
  }

  // ----- A sequence of hooks -----

  lemma {:induction false} RunAppend(s: Lanes, first: seq<Event>, second: seq<Event>, a: Authored)
    ensures Run(s, first + second, a) == Run(Run(s, first, a), second, a)
  {
    if second == [] {
      assert first + second == first;
    } else {
      var n := |second| - 1;
      RunAppend(s, first, second[..n], a);
      assert first + second == first + second[..n] + [second[n]];
      RunOneMore(s, first + second[..n], second[n], a);
    }
  }

  lemma RunOneMore(s: Lanes, events: seq<Event>, e: Event, a: Authored)
    ensures Run(s, events + [e], a) == Next(Run(s, events, a), e, a)
  {
    assert (events + [e])[..|events|] == events;
  }

  lemma {:induction false} WithoutMore(s: Lanes, first: seq<Cell>, second: seq<Cell>)
    ensures Without(s, first + second) == Without(Without(s, first), second)
  {
    if second == [] {
      assert first + second == first;
    } else {
      var n := |second| - 1;
      WithoutMore(s, first, second[..n]);
      assert (first + second)[..|first| + n] == first + second[..n];
    }
    assert (set c | c in first + second) == (set c | c in first) + (set c | c in second);
  }

  /** What one call does to the terrain and the log: a published edit, a group of removals, or a new learner's seat. */
  datatype Hook =
    | Edited(cell: Cell, now: Option<int>)
    | Fell(cells: seq<Cell>)
    | Seated(lane: nat)

  function HookStep(s: Lanes, h: Hook, a: Authored): Lanes {
    match h
    case Edited(c, now) => Next(s, Edit(c, now), a)
    case Fell(cells) => Without(s, cells)
    case Seated(lane) => Next(s, HandOver(lane), a)
  }

  function RunHooks(s: Lanes, hooks: seq<Hook>, a: Authored): Lanes {
    if hooks == [] then s else HookStep(RunHooks(s, hooks[..|hooks| - 1], a), hooks[|hooks| - 1], a)
  }

  function Effect(h: Hook): seq<Event> {
    match h
    case Edited(c, now) => [Edit(c, now)]
    case Fell(cells) => Removals(cells)
    case Seated(lane) => [HandOver(lane)]
  }

  /** The single edits and hand-overs of a sequence of hooks. */
  function Effects(hooks: seq<Hook>): seq<Event> {
    if hooks == [] then [] else Effects(hooks[..|hooks| - 1]) + Effect(hooks[|hooks| - 1])
  }

  lemma HookIsARun(s: Lanes, h: Hook, a: Authored)
    ensures Run(s, Effect(h), a) == HookStep(s, h, a)
  {
    if h.Fell? {
      RemovalsAreEdits(s, h.cells, a);
    } else {
      assert Effect(h)[..0] == [] && Run(s, [], a) == s;
    }
  }

  lemma {:induction false} HooksAreARun(s: Lanes, hooks: seq<Hook>, a: Authored)
    ensures RunHooks(s, hooks, a) == Run(s, Effects(hooks), a)
  {
    if hooks != [] {
      var n := |hooks| - 1;
      HooksAreARun(s, hooks[..n], a);
      HookIsARun(RunHooks(s, hooks[..n], a), hooks[n], a);
      RunAppend(s, Effects(hooks[..n]), Effect(hooks[n]), a);
    }
  }

  lemma {:induction false} HooksAreOneTenancy(hooks: seq<Hook>, lane: nat)
    requires Seated(lane) !in hooks
    ensures OneTenancy(Effects(hooks), lane)
  {
    if hooks != [] {
      HooksAreOneTenancy(hooks[..|hooks| - 1], lane);
    }
  }

  /**
   * The promise over the hooks of a match: edits, drained batches, polled targets and other learners'
   * arrivals, in any order and number, leave the next learner the authored lane, within the limit.
   */
  lemma NextLearnerAfterHooks(s: Lanes, hooks: seq<Hook>, a: Authored, lane: nat, c: Cell)
    requires Complete(s, a) && Faithful(a) && a.copied && InLane(lane, c) && Seated(lane) !in hooks
    requires Touched(s.log, lane) == {} && forall d :: d in s.log.lost ==> !InLane(lane, d)
    requires |EditedIn(Effects(hooks), lane)| <= LANE_TOUCH_LIMIT
    ensures var t := RunHooks(s, hooks + [Seated(lane)], a);
            Complete(t, a) && At(t.world, c) == At(a.training, c) && Touched(t.log, lane) == {} && c !in t.log.lost
  {
    var events := Effects(hooks);
    assert (hooks + [Seated(lane)])[..|hooks|] == hooks;
    assert (events + [HandOver(lane)])[..|events|] == events;
    HooksAreARun(s, hooks, a);
    HooksAreOneTenancy(hooks, lane);
    NextLearnerFindsTheAuthoredLane(s, events, a, lane, c);
    EveryRunIsComplete(s, events, a);
    HandOverKeepsComplete(Run(s, events, a), lane, a);
  }
}

/** Where the five bullseyes of a lane hang. */
module Bullseyes {
  import opened Wrappers
  import opened Voxels
  import opened LaneLog

  const TARGETS := 5
  const TARGET_RGB := 0xE43334
  const TARGET_SCAN_RADIUS := 4
  const TARGET_DISC_RADIUS_SQ := 5

  datatype Target = Target(lane: nat, index: nat)

  function Center(index: nat): Cell {
    match index
    case 0 => Cell(39, 62, 221)
    case 1 => Cell(39, 91, 221)
    case 2 => Cell(43, 60, 229)
    case 3 => Cell(43, 93, 229)
    case _ => Cell(53, 78, 229)
  }

  predicate Near(t: Target, radius: nat, c: Cell) {
    var m := Center(t.index);
    t.lane < LANES && t.index < TARGETS && c.x == OriginX(t.lane) + m.x &&
    OriginY(t.lane) + m.y - radius <= c.y <= OriginY(t.lane) + m.y + radius && m.z - radius <= c.z <= m.z + radius
  }

  predicate OnDisc(t: Target, c: Cell) {
    var m := Center(t.index);
    var dy, dz := c.y - OriginY(t.lane) - m.y, c.z - m.z;
    Near(t, 3, c) && dy * dy + dz * dz <= TARGET_DISC_RADIUS_SQ
  }

  /** A disc is a five by five square in the lane's plane less its corners: twenty-one voxels. */
  lemma DiscIsASquareLessItsCorners(t: Target, c: Cell)
    ensures var m := Center(t.index);
            var dy, dz := Abs(c.y - OriginY(t.lane) - m.y), Abs(c.z - m.z);
            OnDisc(t, c) <==> Near(t, 2, c) && !(dy == 2 && dz == 2)
  {
    var m := Center(t.index);
    var dy, dz := c.y - OriginY(t.lane) - m.y, c.z - m.z;
    if Near(t, 3, c) {
      assert dy in [-3, -2, -1, 0, 1, 2, 3] && dz in [-3, -2, -1, 0, 1, 2, 3];
    }
  }

  /** Every bullseye lies inside its own lane, clear of the others. */
  lemma TargetsAreApart(s: Target, t: Target, c: Cell)
    requires Near(s, TARGET_SCAN_RADIUS, c) && Near(t, TARGET_SCAN_RADIUS, c)
    ensures s == t && LaneOf(c) == Some(s.lane)
  {
    assert InLane(s.lane, c) && InLane(t.lane, c);
    LaneOfIsTheLane(c, s.lane);
    LaneOfIsTheLane(c, t.lane);
  }

  predicate IsRed(training: Terrain, c: Cell) {
    c in training && training[c] == TARGET_RGB
  }

  function FirstNear(lane: nat, index: nat, c: Cell): (found: Option<Target>)
    requires index <= TARGETS
    ensures found.Some? ==> Near(found.value, TARGET_SCAN_RADIUS, c) && found.value.lane == lane
    ensures found.None? ==> forall i: nat :: index <= i ==> !Near(Target(lane, i), TARGET_SCAN_RADIUS, c)
    decreases TARGETS - index
  {
    if index == TARGETS then None
    else if Near(Target(lane, index), TARGET_SCAN_RADIUS, c) then Some(Target(lane, index))
    else FirstNear(lane, index + 1, c)
  }

  /** The index of authored red voxels: which target a cell belongs to. */
  function TargetAt(training: Terrain, c: Cell): Option<Target> {
    if IsRed(training, c) && LaneOf(c).Some? then FirstNear(LaneOf(c).value, 0, c) else None
  }

  lemma TargetAtIsTheTarget(training: Terrain, c: Cell, t: Target)
    ensures TargetAt(training, c) == Some(t) <==> IsRed(training, c) && Near(t, TARGET_SCAN_RADIUS, c)
  {
    if IsRed(training, c) && Near(t, TARGET_SCAN_RADIUS, c) {
      TargetsAreApart(t, t, c);
      TargetsAreApart(t, TargetAt(training, c).value, c);
    }
  }

  function Disc(training: Terrain, t: Target): Terrain {
    map c | c in training && OnDisc(t, c) :: training[c]
  }

  /** Nothing but authored bullseyes. */
  ghost predicate FromDiscs(training: Terrain, cells: seq<Cell>) {
    forall c :: c in cells ==> c in training && exists t: Target :: OnDisc(t, c)
  }

  function Discs(training: Terrain, lane: nat): Terrain {
    map c | c in training && (exists i: nat :: i < TARGETS && OnDisc(Target(lane, i), c)) :: training[c]
  }

  lemma DiscsAreInTheLane(training: Terrain, lane: nat, c: Cell)
    requires c in Discs(training, lane)
    ensures InLane(lane, c)
  {
    var i: nat :| i < TARGETS && OnDisc(Target(lane, i), c);
    TargetsAreApart(Target(lane, i), Target(lane, i), c);
    LaneOfIsTheLane(c, lane);
  }
}

/** Learners in lanes: sessions, the deferred edit queue, and progress. */
module TutorialLanes {
  import opened Wrappers
  import opened Sizes
  import opened Voxels
  import opened LaneLog
  import opened Bullseyes

  const MUTATION_QUEUE_LIMIT := 4096
  const MUTATION_DRAIN_BUDGET := 512

  /** Lesson phases, in order. */
  const INTRO := 0
  const BASIC_CONTROLS := 1
  const JUMP := 2
  const CROUCH := 3
  const SHOOTING := 4
  const CLIMB := 5
  const COMPLETE := 6
  const INTRO_SECONDS := 3.0

  /**
   * What opens the gate of a stage: time, ground covered (with or without the lesson's key seen), targets, the
   * tower.
   */
  predicate GateOpen(
      stage: nat, waited: real, minimumX: real, sawJump: bool, sawCrouch: bool, cleared: bool, onTower: bool)
  {
    if stage == INTRO then waited >= INTRO_SECONDS
    else if stage == BASIC_CONTROLS then minimumX <= 135.0
    else if stage == JUMP then minimumX <= (if sawJump then 128.0 else 119.0)
    else if stage == CROUCH then minimumX <= (if sawCrouch then 108.0 else 99.0)
    else if stage == SHOOTING then cleared
    else stage == CLIMB && onTower
  }

  datatype Error = LanesFull

  /** A learner. The compact id is reused; the object is not. */
  class Player {
    const id: nat

    constructor (id: nat)
      ensures this.id == id
    {
      this.id := id;
    }
  }

  /** One learner's progress through one lane. */
  class Session {
    const player: Player
    const lane: nat
    var stage: nat
    var stageStarted: real
    var minimumLocalX: real
    var sawJump: bool
    var sawCrouch: bool
    var revealed: bool
    var destroyed: set<nat>
    var built: set<Cell>

    constructor (player: Player, lane: nat)
      ensures this.player == player && this.lane == lane
      ensures stage == INTRO && !revealed && destroyed == {} && built == {}
      ensures stageStarted == 0.0 && minimumLocalX == 1000.0 && !sawJump && !sawCrouch
    {
      this.player, this.lane := player, lane;
      stage, revealed, destroyed, built := INTRO, false, {}, {};
      stageStarted, minimumLocalX, sawJump, sawCrouch := 0.0, 1000.0, false, false;
    }

    ghost predicate Honest()
      reads this
    {
      stage <= COMPLETE && destroyed <= AllTargets() && (stage >= CLIMB ==> destroyed == AllTargets())
    }

    /** One monotone stage transition; a gallery already cleared is skipped. */
    method EnterStage(next: nat, now: real)
      requires Honest() && next <= COMPLETE
      requires next >= CLIMB ==> destroyed == AllTargets()
      modifies this`stage, this`stageStarted
      ensures Honest()
      ensures stage == if next <= old(stage) then old(stage)
                       else if next == SHOOTING && destroyed == AllTargets() then CLIMB else next
      ensures stageStarted == if next <= old(stage) then old(stageStarted) else now
      decreases COMPLETE - next
    {
      if next <= stage {
        return;
      }
      stage, stageStarted := next, now;
      if next == SHOOTING {
        FullSetOfTargets(destroyed);
        if |destroyed| >= TARGETS {
          EnterStage(CLIMB, now);
        }
      }
    }

    /** The position and input gates of one tick, for a learner who is spawned and has loaded the scene. */
    method Advance(now: real, localX: real, jumping: bool, crouching: bool, onTower: bool)
      requires Honest()
      modifies this`stage, this`stageStarted, this`minimumLocalX, this`sawJump, this`sawCrouch
      ensures Honest()
      ensures minimumLocalX == if localX < old(minimumLocalX) then localX else old(minimumLocalX)
      ensures sawJump == (old(sawJump) || jumping) && sawCrouch == (old(sawCrouch) || crouching)
      ensures var open := GateOpen(old(stage), now - old(stageStarted), minimumLocalX, sawJump, sawCrouch,
                                   destroyed == AllTargets(), onTower);
              stage == if !open then old(stage)
                       else if old(stage) == CROUCH && destroyed == AllTargets() then CLIMB else old(stage) + 1
      ensures stageStarted == if stage == old(stage) then old(stageStarted) else now
    {
      minimumLocalX := if localX < minimumLocalX then localX else minimumLocalX;
      sawJump, sawCrouch := sawJump || jumping, sawCrouch || crouching;
      FullSetOfTargets(destroyed);
      if stage == INTRO {
        if now - stageStarted >= INTRO_SECONDS { EnterStage(BASIC_CONTROLS, now); }
      } else if stage == BASIC_CONTROLS {
        if minimumLocalX <= 135.0 { EnterStage(JUMP, now); }
      } else if stage == JUMP {
        if (sawJump && minimumLocalX <= 128.0) || minimumLocalX <= 119.0 { EnterStage(CROUCH, now); }
      } else if stage == CROUCH {
        if (sawCrouch && minimumLocalX <= 108.0) || minimumLocalX <= 99.0 { EnterStage(SHOOTING, now); }
      } else if stage == SHOOTING {
        if |destroyed| >= TARGETS { EnterStage(CLIMB, now); }
      } else if stage == CLIMB {
        if onTower { EnterStage(COMPLETE, now); }
      }
    }
  }

  function AllTargets(): set<nat> {
    {0, 1, 2, 3, 4}
  }

  lemma FullSetOfTargets(s: set<nat>)
    requires s <= AllTargets()
    ensures |s| >= TARGETS <==> s == AllTargets()
    ensures |s| <= TARGETS
  {
    SubsetSize(s, AllTargets());
    if s != AllTargets() {
      assert !(AllTargets() <= s);
      var i :| i in AllTargets() && i !in s;
      SubsetSize(s, AllTargets() - {i});
    }
  }

  /** One queued edit, bound to the learner who occupied its lane when it was published. */
  datatype Mutation = Mutation(cell: Cell, solid: bool, session: Option<Session>)

  /** The targets a batch of queued edits earns one session: removals of its own red cells, published for it. */
  function Earned(training: Terrain, batch: seq<Mutation>, s: Session): set<nat> {
    if batch == [] then {}
    else Earned(training, batch[..|batch| - 1], s) + Credit(training, batch[|batch| - 1], s)
  }

  function Credit(training: Terrain, m: Mutation, s: Session): set<nat> {
    var t := TargetAt(training, m.cell);
    if m.session == Some(s) && !m.solid && t.Some? then {t.value.index} else {}
  }

  lemma {:induction false} EarnedOnlyByOwnEdits(training: Terrain, batch: seq<Mutation>, s: Session, index: nat)
    ensures index in Earned(training, batch, s) <==>
            exists k :: 0 <= k < |batch| && batch[k].session == Some(s) && !batch[k].solid &&
                        TargetAt(training, batch[k].cell).Some? &&
                        TargetAt(training, batch[k].cell).value.index == index
  {
    if batch != [] {
      var n := |batch| - 1;
      EarnedOnlyByOwnEdits(training, batch[..n], s, index);
      if index in Earned(training, batch, s) && index !in Earned(training, batch[..n], s) {
        assert batch[n].session == Some(s);
      }
      forall k | 0 <= k < n ensures batch[..n][k] == batch[k] {}
    }
  }

  /** Where one session stands: the targets it has down, its stage and since when, and the blocks it has built. */
  datatype Progress = Progress(destroyed: set<nat>, stage: nat, started: real, built: set<Cell>, revealed: bool)

  /** Where all live sessions stand. */
  type Learners = map<Session, Progress>

  /** One target down, counted once; the last one opens the climb for a revealed learner who is shooting. */
  function Struck(p: Progress, index: nat, now: real): Progress {
    var down := p.destroyed + {index};
    if index in p.destroyed then p
    else if p.revealed && p.stage == SHOOTING && down == AllTargets() then
      p.(destroyed := down, stage := CLIMB, started := now)
    else p.(destroyed := down)
  }

  /** What one queued edit does to a live session: nothing, unless it was published for it. */
  function Interpreted(training: Terrain, m: Mutation, s: Session, now: real, p: Progress): Progress {
    if m.session != Some(s) then p
    else
      match TargetAt(training, m.cell)
      case Some(t) => if m.solid then p else Struck(p, t.index, now)
      case None => if m.solid && p.stage == CLIMB then p.(built := p.built + {m.cell}) else p
  }

  function InterpretedAll(training: Terrain, m: Mutation, now: real, all: Learners): Learners {
    if m.session.None? || m.session.value !in all then all
    else all[m.session.value := Interpreted(training, m, m.session.value, now, all[m.session.value])]
  }

  function PlayedAll(training: Terrain, batch: seq<Mutation>, now: real, all: Learners): Learners {
    if batch == [] then all
    else InterpretedAll(training, batch[|batch| - 1], now, PlayedAll(training, batch[..|batch| - 1], now, all))
  }

  lemma OnlyOne(training: Terrain, m: Mutation, now: real, all: Learners)
    ensures PlayedAll(training, [m], now, all) == InterpretedAll(training, m, now, all)
  {
    assert [m][..0] == [] && PlayedAll(training, [], now, all) == all;
  }

  /** A batch as one session sees it. */
  function Played(training: Terrain, batch: seq<Mutation>, s: Session, now: real, p: Progress): Progress {
    if batch == [] then p
    else Interpreted(training, batch[|batch| - 1], s, now, Played(training, batch[..|batch| - 1], s, now, p))
  }

  lemma {:induction false} EachPlaysAlone(training: Terrain, batch: seq<Mutation>, now: real, all: Learners)
    ensures var after := PlayedAll(training, batch, now, all);
            after.Keys == all.Keys && forall s :: s in all ==> after[s] == Played(training, batch, s, now, all[s])
  {
    if batch != [] {
      EachPlaysAlone(training, batch[..|batch| - 1], now, all);
    }
  }

  /** A batch earns a session exactly its removals of red cells. */
  lemma {:induction false} PlayedEarns(training: Terrain, batch: seq<Mutation>, s: Session, now: real, p: Progress)
    ensures Played(training, batch, s, now, p).destroyed == p.destroyed + Earned(training, batch, s)
  {
    if batch != [] {
      PlayedEarns(training, batch[..|batch| - 1], s, now, p);
    }
  }

  /** From `p` to `q` the climb has been opened exactly if the last target has come down, for one who was shooting. */
  predicate OpensWithTheLast(p: Progress, q: Progress, now: real) {
    p.destroyed <= q.destroyed && q.revealed == p.revealed &&
    q.stage == (if p.revealed && p.stage == SHOOTING && q.destroyed != p.destroyed && q.destroyed == AllTargets()
                then CLIMB else p.stage) &&
    q.started == (if q.stage == p.stage then p.started else now)
  }

  lemma OpensOnce(p: Progress, q: Progress, r: Progress, now: real)
    requires OpensWithTheLast(p, q, now) && OpensWithTheLast(q, r, now) && r.destroyed <= AllTargets()
    ensures OpensWithTheLast(p, r, now)
  {}

  lemma StruckOpens(p: Progress, index: nat, now: real)
    ensures OpensWithTheLast(p, Struck(p, index, now), now)
  {}

  lemma {:induction false} PlayedOpens(training: Terrain, batch: seq<Mutation>, s: Session, now: real, p: Progress)
    requires p.destroyed <= AllTargets()
    ensures var q := Played(training, batch, s, now, p);
            OpensWithTheLast(p, q, now) && q.destroyed <= AllTargets()
  {
    if batch != [] {
      var n := |batch| - 1;
      PlayedOpens(training, batch[..n], s, now, p);
      var q := Played(training, batch[..n], s, now, p);
      var r := Interpreted(training, batch[n], s, now, q);
      assert OpensWithTheLast(q, r, now);
      OpensOnce(p, q, r, now);
    }
  }

  /** An edit that can count as a block a session has built. */
  predicate Construction(training: Terrain, m: Mutation, s: Session) {
    m.session == Some(s) && m.solid && TargetAt(training, m.cell).None?
  }

  /** What a climber builds is counted, and nobody else's blocks are; a batch that ends before the climb counts none. */
  lemma {:induction false} PlayedBuilds(
      training: Terrain, batch: seq<Mutation>, s: Session, now: real, p: Progress, c: Cell)
    ensures var q := Played(training, batch, s, now, p);
            && (c in p.built ==> c in q.built)
            && (c in q.built && c !in p.built ==>
                  q.stage == CLIMB &&
                  exists k :: 0 <= k < |batch| && Construction(training, batch[k], s) && batch[k].cell == c)
            && (p.stage == CLIMB ==>
                  q.stage == CLIMB &&
                  forall k :: 0 <= k < |batch| && Construction(training, batch[k], s) && batch[k].cell == c ==>
                    c in q.built)
  {
    if batch != [] {
      var n := |batch| - 1;
      PlayedBuilds(training, batch[..n], s, now, p, c);
      forall k | 0 <= k < n ensures batch[..n][k] == batch[k] {}
    }
  }

  /** The disc that falls with one edit: that of a target its live session has not had yet. */
  function Fells(training: Terrain, m: Mutation, all: Learners): set<Cell> {
    if m.session.None? || m.session.value !in all || m.solid then {}
    else
      match TargetAt(training, m.cell)
      case None => {}
      case Some(t) => if t.index in all[m.session.value].destroyed then {} else Disc(training, t).Keys
  }

  /** All that falls with a batch, edit by edit. */
  function Felled(training: Terrain, batch: seq<Mutation>, now: real, all: Learners): set<Cell> {
    if batch == [] then {}
    else
      var n := |batch| - 1;
      Felled(training, batch[..n], now, all) + Fells(training, batch[n], PlayedAll(training, batch[..n], now, all))
  }

  lemma TallyOne(training: Terrain, batch: seq<Mutation>, i: nat, now: real, all: Learners)
    requires i < |batch|
    ensures var before := PlayedAll(training, batch[..i], now, all);
            && PlayedAll(training, batch[..i + 1], now, all) == InterpretedAll(training, batch[i], now, before)
            && Felled(training, batch[..i + 1], now, all) ==
               Felled(training, batch[..i], now, all) + Fells(training, batch[i], before)
  {
    assert batch[..i + 1][..i] == batch[..i];
  }

  /** Every edit was published for the learner of its own lane. */
  ghost predicate InTheirLanes(batch: seq<Mutation>) {
    forall i :: 0 <= i < |batch| && batch[i].session.Some? ==>
      LaneOf(batch[i].cell) == Some(batch[i].session.value.lane)
  }

  /** The target has come down in between. */
  ghost predicate CameDown(before: Learners, after: Learners, s: Session, index: nat) {
    s in before && s in after && index in after[s].destroyed && index !in before[s].destroyed
  }

  lemma FellsOne(training: Terrain, m: Mutation, now: real, all: Learners, c: Cell)
    requires m.session.Some? ==> LaneOf(m.cell) == Some(m.session.value.lane)
    ensures c in Fells(training, m, all) <==>
            exists s, index :: CameDown(all, InterpretedAll(training, m, now, all), s, index) &&
                               c in Disc(training, Target(s.lane, index))
  {
    if m.session.Some? && TargetAt(training, m.cell).Some? {
      var t := TargetAt(training, m.cell).value;
      TargetAtIsTheTarget(training, m.cell, t);
      TargetsAreApart(t, t, m.cell);
      if c in Fells(training, m, all) {
        assert CameDown(all, InterpretedAll(training, m, now, all), m.session.value, t.index);
      }
    }
  }

  /** With a batch fall exactly the discs of the targets that come down with it. */
  lemma {:induction false} FelledExactly(training: Terrain, batch: seq<Mutation>, now: real, all: Learners, c: Cell)
    requires InTheirLanes(batch)
    ensures c in Felled(training, batch, now, all) <==>
            exists s, index :: CameDown(all, PlayedAll(training, batch, now, all), s, index) &&
                               c in Disc(training, Target(s.lane, index))
  {
    if batch != [] {
      var n := |batch| - 1;
      var mid, after := PlayedAll(training, batch[..n], now, all), PlayedAll(training, batch, now, all);
      FelledExactly(training, batch[..n], now, all, c);
      FellsOne(training, batch[n], now, mid, c);
      EachPlaysAlone(training, batch[..n], now, all);
      DownInTwoSteps(training, batch[..n], batch[n], now, all);
    }
  }

  /** What has come down has come down before the last edit or with it. */
  lemma DownInTwoSteps(training: Terrain, first: seq<Mutation>, m: Mutation, now: real, all: Learners)
    ensures var mid := PlayedAll(training, first, now, all);
            var after := InterpretedAll(training, m, now, mid);
            forall s, index ::
              CameDown(all, after, s, index) <==> CameDown(all, mid, s, index) || CameDown(mid, after, s, index)
  {
    EachPlaysAlone(training, first, now, all);
    forall s | s in all ensures all[s].destroyed <= PlayedAll(training, first, now, all)[s].destroyed {
      PlayedEarns(training, first, s, now, all[s]);
    }
  }

  lemma {:induction false} EarnedOfBoth(training: Terrain, first: seq<Mutation>, second: seq<Mutation>, s: Session)
    ensures Earned(training, first + second, s) == Earned(training, first, s) + Earned(training, second, s)
  {
    if second == [] {
      assert first + second == first;
    } else {
      var n := |second| - 1;
      EarnedOfBoth(training, first, second[..n], s);
      assert (first + second)[..|first| + n] == first + second[..n];
    }
  }

  /** What is queued from position `start` on are removals of these cells. */
  ghost predicate RemovalsOf(queue: seq<Mutation>, start: nat, cells: seq<Cell>) {
    forall i :: start <= i < |queue| ==> queue[i].cell in cells && !queue[i].solid
  }

  /** Removals published from position `start` on are of cells wanted to be air. */
  ghost predicate RemovesOnly(queue: seq<Mutation>, start: nat, wanted: map<Cell, Option<int>>) {
    forall i :: start <= i < |queue| && !queue[i].solid ==> queue[i].cell in wanted && wanted[queue[i].cell].None?
  }

  lemma RemovesMore(before: seq<Mutation>, after: seq<Mutation>, start: nat, wanted: map<Cell, Option<int>>, c: Cell)
    requires start <= |before| <= |after| && after[..|before|] == before && c in wanted
    requires RemovesOnly(before, start, wanted) && RemovesOnly(after, |before|, map[c := wanted[c]])
    ensures RemovesOnly(after, start, wanted)
  {
    forall i | start <= i < |after| && !after[i].solid
      ensures after[i].cell in wanted && wanted[after[i].cell].None?
    {
      if i < |before| {
        assert after[i] == before[i];
      }
    }
  }

  /** A full queue takes nothing more. */
  function Enqueued(queue: seq<Mutation>, m: Mutation): seq<Mutation> {
    if |queue| >= MUTATION_QUEUE_LIMIT then queue else queue + [m]
  }

  /** From position `start` on, nothing in the queue can earn these learners more than they have. */
  ghost predicate NothingToEarn(training: Terrain, queue: seq<Mutation>, start: nat, all: Learners) {
    forall i, s :: start <= i < |queue| && s in all ==> Credit(training, queue[i], s) <= all[s].destroyed
  }

  /** What a session has it keeps, and the front of a queue may go. */
  lemma StaysSpent(training: Terrain, was: seq<Mutation>, start: nat, batch: seq<Mutation>, left: seq<Mutation>,
                   now: real, all: Learners)
    requires start <= |was| && batch <= was && was[|batch|..] <= left
    requires NothingToEarn(training, was, start, all)
    requires NothingToEarn(training, left, |was| - |batch|, PlayedAll(training, batch, now, all))
    ensures NothingToEarn(training, left, if |batch| <= start then start - |batch| else 0,
                          PlayedAll(training, batch, now, all))
  {
    var after := PlayedAll(training, batch, now, all);
    EachPlaysAlone(training, batch, now, all);
    forall i, s | (if |batch| <= start then start - |batch| else 0) <= i < |left| && s in after
      ensures Credit(training, left[i], s) <= after[s].destroyed
    {
      PlayedEarns(training, batch, s, now, all[s]);
      if i < |was| - |batch| {
        assert left[i] == was[i + |batch|];
      }
    }
  }

  lemma StaysSpentByOne(
      training: Terrain, was: seq<Mutation>, start: nat, left: seq<Mutation>, now: real, all: Learners)
    requires 1 <= start <= |was| && was[1..] <= left && NothingToEarn(training, was, start, all)
    requires NothingToEarn(training, left, |was| - 1, InterpretedAll(training, was[0], now, all))
    ensures NothingToEarn(training, left, start - 1, InterpretedAll(training, was[0], now, all))
  {
    OnlyOne(training, was[0], now, all);
    StaysSpent(training, was, start, [was[0]], left, now, all);
  }

  lemma {:induction false} SpentEarnsNothing(
      training: Terrain, queue: seq<Mutation>, start: nat, end: nat, all: Learners, s: Session)
    requires start <= end <= |queue| && NothingToEarn(training, queue, start, all) && s in all
    ensures Earned(training, queue[start..end], s) <= all[s].destroyed
  {
    if start < end {
      SpentEarnsNothing(training, queue, start, end - 1, all, s);
      assert queue[start..end][..end - 1 - start] == queue[start..end - 1];
    }
  }

  /** What one tick takes off the queue: its front, up to the budget. */
  function Batch(queue: seq<Mutation>): (batch: seq<Mutation>)
    ensures batch <= queue && |batch| == if |queue| < MUTATION_DRAIN_BUDGET then |queue| else MUTATION_DRAIN_BUDGET
  {
    if |queue| < MUTATION_DRAIN_BUDGET then queue else queue[..MUTATION_DRAIN_BUDGET]
  }

  /** The learners have gained exactly what these edits earn them. */
  ghost predicate Gains(training: Terrain, before: Learners, done: seq<Mutation>, after: Learners) {
    after.Keys == before.Keys &&
    forall s :: s in before ==> after[s].destroyed == before[s].destroyed + Earned(training, done, s)
  }

  lemma GainsMore(training: Terrain, first: seq<Mutation>, taken: nat, queue: seq<Mutation>, now: real,
                  before: Learners, all: Learners)
    requires taken <= |first| && first[taken..] <= queue && NothingToEarn(training, queue, |first| - taken, all)
    requires Gains(training, before, first[..taken], all)
    ensures Gains(training, before, first[..Taken(first, taken, queue)], PlayedAll(training, Batch(queue), now, all))
  {
    EachPlaysAlone(training, Batch(queue), now, all);
    var after := PlayedAll(training, Batch(queue), now, all);
    forall s | s in before
      ensures after[s].destroyed == before[s].destroyed + Earned(training, first[..Taken(first, taken, queue)], s)
    {
      PlayedEarns(training, Batch(queue), s, now, all[s]);
      BatchEarns(training, first, taken, queue, all, s);
      EarnedSoFar(training, first, taken, Taken(first, taken, queue), s);
    }
  }

  lemma DrainedMore(training: Terrain, first: seq<Mutation>, taken: nat, was: seq<Mutation>, left: seq<Mutation>,
                    now: real, before: Learners, all: Learners, after: Learners)
    requires taken <= |first| && first[taken..] <= was && NothingToEarn(training, was, |first| - taken, all)
    requires Gains(training, before, first[..taken], all) && after == PlayedAll(training, Batch(was), now, all)
    requires was[|Batch(was)|..] <= left && NothingToEarn(training, left, |was| - |Batch(was)|, after)
    ensures var more := Taken(first, taken, was);
            && taken <= more <= |first| && (more == |first| || more >= taken + MUTATION_DRAIN_BUDGET)
            && first[more..] <= left && NothingToEarn(training, left, |first| - more, after)
            && Gains(training, before, first[..more], after)
  {
    GainsMore(training, first, taken, was, now, before, all);
    StaysSpent(training, was, |first| - taken, Batch(was), left, now, all);
  }

  /** How much of `first` has been taken off after one more batch, when the queue has the rest of it in front. */
  function Taken(first: seq<Mutation>, taken: nat, queue: seq<Mutation>): nat {
    if taken + |Batch(queue)| < |first| then taken + |Batch(queue)| else |first|
  }

  /** A batch is the next part of `first`, and beyond its end what is queued behind it. */
  lemma BatchSplits(first: seq<Mutation>, taken: nat, queue: seq<Mutation>)
    requires taken <= |first| && first[taken..] <= queue
    ensures var more, batch := Taken(first, taken, queue), Batch(queue);
            && taken <= more <= |first| && more - taken <= |batch|
            && batch == first[taken..more] + queue[more - taken..|batch|]
            && (more < |first| ==> more - taken == |batch|)
  {
    var more, batch := Taken(first, taken, queue), Batch(queue);
    assert batch[..more - taken] == first[taken..more] && batch[more - taken..] == queue[more - taken..|batch|];
  }

  /** A batch earns what its part of `first` does, when everything behind that is spent. */
  lemma BatchEarns(training: Terrain, first: seq<Mutation>, taken: nat, queue: seq<Mutation>,
                   all: Learners, s: Session)
    requires taken <= |first| && first[taken..] <= queue && s in all
    requires NothingToEarn(training, queue, |first| - taken, all)
    ensures all[s].destroyed + Earned(training, Batch(queue), s) ==
            all[s].destroyed + Earned(training, first[taken..Taken(first, taken, queue)], s)
  {
    var more, batch := Taken(first, taken, queue), Batch(queue);
    BatchSplits(first, taken, queue);
    var part, rest := first[taken..more], queue[more - taken..|batch|];
    EarnedOfBoth(training, part, rest, s);
    if more == |first| {
      SpentEarnsNothing(training, queue, more - taken, |batch|, all, s);
    } else {
      assert rest == [] && Earned(training, rest, s) == {};
    }
    Absorbed(all[s].destroyed, Earned(training, part, s), Earned(training, rest, s));
  }

  lemma Absorbed(has: set<nat>, earned: set<nat>, spent: set<nat>)
    requires spent <= has
    ensures has + (earned + spent) == has + earned
  {}

  lemma EarnedSoFar(training: Terrain, first: seq<Mutation>, taken: nat, more: nat, s: Session)
    requires taken <= more <= |first|
    ensures Earned(training, first[..more], s) ==
            Earned(training, first[..taken], s) + Earned(training, first[taken..more], s)
  {
    assert first[..more] == first[..taken] + first[taken..more];
    EarnedOfBoth(training, first[..taken], first[taken..more], s);
  }

  class TutorialMode {
    const training: Terrain
    const copied: bool
    var sessions: map<Player, Session>
    var laneOccupants: map<nat, Player>
    var laneTouched: map<nat, set<Cell>>
    var queue: seq<Mutation>
    var world: Terrain
    /** Cells that differ from the training map without the log remembering them. */
    ghost var lost: set<Cell>

    predicate InBox(c: Cell) {
      InMap(c.x, c.y) && 0 <= c.z < MAP_Z
    }

    ghost predicate Valid()
      reads this
    {
      && (forall c :: c in training ==> InBox(c))
      && (forall lane, c :: lane in laneTouched && c in laneTouched[lane] ==> InLane(lane, c) && InBox(c))
      && Seated()
      && |queue| <= MUTATION_QUEUE_LIMIT
      && forall i :: 0 <= i < |queue| && queue[i].session.Some? ==>
           LaneOf(queue[i].cell) == Some(queue[i].session.value.lane)
    }

    /** Sessions and occupied lanes name each other. */
    ghost predicate Seated()
      reads this`sessions, this`laneOccupants
    {
      && (forall p :: p in sessions ==>
           (sessions[p].player == p && sessions[p].lane < LANES &&
            sessions[p].lane in laneOccupants && laneOccupants[sessions[p].lane] == p))
      && (forall l :: l in laneOccupants ==> laneOccupants[l] in sessions && sessions[laneOccupants[l]].lane == l)
    }

    ghost function Log(): TouchLog
      reads this`laneTouched, this`lost
    {
      TouchLog(laneTouched, lost)
    }

    ghost function View(): Lanes
      reads this`world, this`laneTouched, this`lost
    {
      Lanes(world, Log())
    }

    ghost function Keep(): (a: Authored)
      ensures Faithful(a)
    {
      var a := Authored(training, copied, map lane: nat | 0 <= lane < LANES :: Discs(training, lane));
      assert Faithful(a) by {
        forall lane, c | lane in a.discs && c in a.discs[lane] ensures InLane(lane, c) {
          DiscsAreInTheLane(training, lane, c);
        }
      }
      a
    }

    ghost function LiveSessions(): set<Session>
      reads this`sessions
    {
      set p | p in sessions :: sessions[p]
    }

    /** The learner an edit of this cell is bound to. */
    function Bound(c: Cell): Option<Session>
      reads this`sessions, this`laneOccupants
    {
      var lane := LaneOf(c);
      if lane.Some? && lane.value in laneOccupants && laneOccupants[lane.value] in sessions
      then Some(sessions[laneOccupants[lane.value]]) else None
    }

    /** One removal published for each cell, in order. */
    ghost function Announced(queue: seq<Mutation>, cells: seq<Cell>): seq<Mutation>
      reads this`sessions, this`laneOccupants
    {
      if cells == [] then queue
      else
        var n := |cells| - 1;
        Enqueued(Announced(queue, cells[..n]), Mutation(cells[n], false, Bound(cells[n])))
    }

    /** Short of the limit, every removal is queued, in order, for the learner whose lane it is in. */
    lemma {:induction false} AnnouncedInOrder(queue: seq<Mutation>, cells: seq<Cell>)
      requires |queue| + |cells| <= MUTATION_QUEUE_LIMIT
      ensures var after := Announced(queue, cells);
              && queue <= after && |after| == |queue| + |cells|
              && forall i :: 0 <= i < |cells| ==> after[|queue| + i] == Mutation(cells[i], false, Bound(cells[i]))
    {
      if cells != [] {
        AnnouncedInOrder(queue, cells[..|cells| - 1]);
      }
    }

    ghost predicate Appended(before: seq<Mutation>, after: seq<Mutation>)
      reads this`sessions, this`laneOccupants
    {
      && |before| <= |after| <= MUTATION_QUEUE_LIMIT
      && after[..|before|] == before
      && forall i :: |before| <= i < |after| ==> after[i].session == Bound(after[i].cell)
    }

    constructor (training: Terrain, copied: bool)
      requires forall c :: c in training ==> InMap(c.x, c.y) && 0 <= c.z < MAP_Z
      ensures Valid() && this.training == training && this.copied == copied
      ensures sessions == map[] && View() == Lanes(training, TouchLog(map[], {})) && Complete(View(), Keep())
    {
      this.training, this.copied, this.world := training, copied, training;
      sessions, laneOccupants, laneTouched, queue, lost := map[], map[], map[], [], {};
    }

    method Remember(c: Cell)
      requires Valid() && InBox(c)
      modifies this`laneTouched, this`lost
      ensures Valid() && Log() == Track(old(Log()), c)
    {
      var lane := LaneOf(c);
      if lane.Some? {
        LaneOfIsTheLane(c, lane.value);
        var touched := if lane.value in laneTouched then laneTouched[lane.value] else {};
        if |touched| < LANE_TOUCH_LIMIT {
          touched := touched + {c};
        } else if c !in touched {
          lost := lost + {c};
        }
        laneTouched := laneTouched[lane.value := touched];
      }
    }

    /** The terrain listener: remember the cell, then queue the edit for the lane's present occupant. */
    method OnWorldMutation(c: Cell, solid: bool)
      requires Valid() && InBox(c)
      modifies this`laneTouched, this`lost, this`queue
      ensures Valid() && Appended(old(queue), queue)
      ensures Log() == Track(old(Log()), c)
      ensures queue == Enqueued(old(queue), Mutation(c, solid, Bound(c)))
    {
      Remember(c);
      if |queue| >= MUTATION_QUEUE_LIMIT {
        return;
      }
      BoundIsInTheLane(c);
      queue := queue + [Mutation(c, solid, Bound(c))];
    }

    lemma BoundIsInTheLane(c: Cell)
      requires Seated()
      ensures Bound(c).Some? ==> LaneOf(c) == Some(Bound(c).value.lane) && Bound(c).value in LiveSessions()
    {}

    /** World manager: paint or build one voxel, then publish it. */
    method SetBlock(c: Cell, color: int) returns (done: bool)
      requires Valid()
      modifies this`world, this`laneTouched, this`lost, this`queue
      ensures Valid() && done == InBox(c) && Appended(old(queue), queue)
      ensures View() == if done then Next(old(View()), Edit(c, Some(color)), Keep()) else old(View())
      ensures queue == if done then Enqueued(old(queue), Mutation(c, true, Bound(c))) else old(queue)
    {
      if !InBox(c) {
        return false;
      }
      world := world[c := color];
      OnWorldMutation(c, true);
      done := true;
    }

    /** World manager: remove the voxels that are solid, then publish the removals. */
    method DestroyBlocks(cells: seq<Cell>) returns (destroyed: seq<Cell>)
      requires Valid()
      modifies this`world, this`laneTouched, this`lost, this`queue
      ensures Valid() && Appended(old(queue), queue)
      ensures View() == Without(old(View()), destroyed)
      ensures forall c :: c in destroyed <==> c in cells && c in old(world) && InBox(c)
      ensures forall i, j :: 0 <= i < j < |destroyed| ==> destroyed[i] != destroyed[j]
      ensures RemovalsOf(queue, |old(queue)|, destroyed) && queue == Announced(old(queue), destroyed)
    {
      destroyed := [];
      var i := 0;
      while i < |cells|
        invariant 0 <= i <= |cells|
        invariant world == old(world) - (set c | c in destroyed)
        invariant forall c :: c in destroyed <==> c in cells[..i] && c in old(world) && InBox(c)
        invariant forall i, j :: 0 <= i < j < |destroyed| ==> destroyed[i] != destroyed[j]
        invariant Valid() && laneTouched == old(laneTouched) && lost == old(lost) && queue == old(queue)
      {
        if InBox(cells[i]) && cells[i] in world {
          world := world - {cells[i]};
          destroyed := destroyed + [cells[i]];
        }
        i := i + 1;
      }
      PublishRemovals(destroyed);
    }

    method PublishRemovals(destroyed: seq<Cell>)
      requires Valid() && forall c :: c in destroyed ==> InBox(c)
      modifies this`laneTouched, this`lost, this`queue
      ensures Valid() && Appended(old(queue), queue) && Log() == TrackAll(old(Log()), destroyed)
      ensures RemovalsOf(queue, |old(queue)|, destroyed) && queue == Announced(old(queue), destroyed)
    {
      var i := 0;
      while i < |destroyed|
        invariant 0 <= i <= |destroyed| && Valid() && Appended(old(queue), queue)
        invariant Log() == TrackAll(old(Log()), destroyed[..i])
        invariant RemovalsOf(queue, |old(queue)|, destroyed) && queue == Announced(old(queue), destroyed[..i])
      {
        assert destroyed[..i + 1][..i] == destroyed[..i];
        ghost var before := queue;
        OnWorldMutation(destroyed[i], false);
        AppendedTwice(old(queue), before, queue);
        i := i + 1;
      }
      assert destroyed[..i] == destroyed;
    }

    lemma AppendedTwice(a: seq<Mutation>, b: seq<Mutation>, c: seq<Mutation>)
      requires Appended(a, b) && Appended(b, c)
      ensures Appended(a, c) && c[..|b|] == b
    {
      assert c[..|a|] == b[..|a|];
      forall i | |a| <= i < |c| ensures c[i].session == Bound(c[i].cell) {
        if i < |b| {
          assert c[i] == b[i];
        }
      }
    }

    /** What the lane should look like again: the training map where it was touched, and its discs. */
    method DesiredCells(lane: nat) returns (desired: map<Cell, Option<int>>)
      requires Valid() && lane < LANES
      ensures desired == Desired(Touched(Log(), lane), Copy(Keep()), DiscsOf(Keep(), lane))
    {
      desired := map[];
      if copied && lane in laneTouched {
        desired := map c | c in laneTouched[lane] :: At(training, c);
      }
      var discs := Discs(training, lane);
      desired := desired + map c | c in discs :: Some(discs[c]);
    }

    /** Write one wanted cell. */
    method RestoreCell(lane: nat, c: Cell, want: Option<int>)
      requires Valid() && InLane(lane, c) && InBox(c)
      modifies this`world, this`laneTouched, this`lost, this`queue
      ensures Valid() && Appended(old(queue), queue)
      ensures laneTouched - {lane} == old(laneTouched) - {lane} && world == Restore(old(world), map[c := want])
      ensures RemovesOnly(queue, |old(queue)|, map[c := want])
      ensures At(old(world), c) == want ==> queue == old(queue) && laneTouched == old(laneTouched)
    {
      LaneOfIsTheLane(c, lane);
      if want.None? {
        if c in world {
          var destroyed := DestroyBlocks([c]);
          TrackAllStaysInLane(old(Log()), destroyed, lane);
        }
      } else if At(world, c) != want {
        var _ := SetBlock(c, want.value);
      }
      SameTerrain(world, Restore(old(world), map[c := want]));
    }

    method WriteCells(lane: nat, desired: map<Cell, Option<int>>)
      requires Valid() && forall c :: c in desired ==> InLane(lane, c) && InBox(c)
      modifies this`world, this`laneTouched, this`lost, this`queue
      ensures Valid() && Appended(old(queue), queue) && RemovesOnly(queue, |old(queue)|, desired)
      ensures laneTouched - {lane} == old(laneTouched) - {lane} && world == Restore(old(world), desired)
    {
      var todo := desired.Keys;
      SameTerrain(world, Restore(world, desired - todo));
      while todo != {}
        invariant Valid() && Appended(old(queue), queue) && RemovesOnly(queue, |old(queue)|, desired)
        invariant laneTouched - {lane} == old(laneTouched) - {lane}
        invariant todo <= desired.Keys && world == Restore(old(world), desired - todo)
        decreases |todo|
      {
        var c :| c in todo;
        assert InLane(lane, c) && InBox(c);
        RestoreNext(lane, c, desired, old(queue));
        RestoreOneMore(old(world), desired - todo, c, desired[c]);
        assert (desired - todo)[c := desired[c]] == desired - (todo - {c});
        todo := todo - {c};
      }
      assert desired - todo == desired;
    }

    method RestoreNext(lane: nat, c: Cell, desired: map<Cell, Option<int>>, ghost before: seq<Mutation>)
      requires Valid() && c in desired && InLane(lane, c) && InBox(c)
      requires Appended(before, queue) && RemovesOnly(queue, |before|, desired)
      modifies this`world, this`laneTouched, this`lost, this`queue
      ensures Valid() && Appended(before, queue) && RemovesOnly(queue, |before|, desired)
      ensures laneTouched - {lane} == old(laneTouched) - {lane}
      ensures world == Restore(old(world), map[c := desired[c]])
    {
      RestoreCell(lane, c, desired[c]);
      AppendedTwice(before, old(queue), queue);
      RemovesMore(old(queue), queue, |before|, desired, c);
    }

    ghost predicate RemovesOnlyAir(start: nat)
      reads this`queue
    {
      forall i :: start <= i < |queue| && !queue[i].solid ==> queue[i].cell !in training
    }

    method RewriteLane(lane: nat, desired: map<Cell, Option<int>>)
      requires Valid() && lane < LANES && Sound(lane, desired)
      modifies this`world, this`laneTouched, this`lost, this`queue
      ensures Valid() && Appended(old(queue), queue) && RemovesOnlyAir(|old(queue)|)
      ensures world == Restore(old(world), desired) && laneTouched == old(laneTouched) - {lane}
    {
      laneTouched := laneTouched - {lane};
      WriteCells(lane, desired);
      laneTouched := laneTouched - {lane};
    }

    /** The mode's own edits are not the occupant's: what they touched is forgotten again. */
    method RestoreLaneTargets(lane: nat)
      requires Valid() && lane < LANES
      modifies this`world, this`laneTouched, this`lost, this`queue
      ensures Valid() && Appended(old(queue), queue) && RemovesOnlyAir(|old(queue)|)
      ensures View() == Next(old(View()), HandOver(lane), Keep())
    {
      ghost var kept := Forget(Log(), lane, Keep()).lost;
      var desired := DesiredCells(lane);
      DesiredIsSound(lane, desired);
      RewriteLane(lane, desired);
      lost := kept;
    }

    ghost predicate Sound(lane: nat, desired: map<Cell, Option<int>>) {
      forall c :: c in desired ==> InLane(lane, c) && InBox(c) && (desired[c].None? ==> c !in training)
    }

    lemma DesiredIsSound(lane: nat, desired: map<Cell, Option<int>>)
      requires Valid() && lane < LANES
      requires desired == Desired(Touched(Log(), lane), Copy(Keep()), DiscsOf(Keep(), lane))
      ensures Sound(lane, desired)
    {
      forall c | c in desired ensures InLane(lane, c) && InBox(c) {
        if c in Discs(training, lane) {
          DiscsAreInTheLane(training, lane, c);
        }
      }
    }

    lemma LiveSessionsHoldDistinctLanes(p: Player, q: Player)
      requires Valid() && p in sessions && q in sessions && p != q
      ensures sessions[p] != sessions[q] && sessions[p].lane != sessions[q].lane
    {
      assert laneOccupants[sessions[p].lane] == p;
    }

    method FirstFreeLane() returns (lane: Option<nat>)
      ensures lane.Some? ==> lane.value < LANES && lane.value !in laneOccupants
      ensures forall l: nat :: (if lane.Some? then l < lane.value else l < LANES) ==> l in laneOccupants
    {
      var l := 0;
      while l < LANES
        invariant l <= LANES && forall k: nat :: k < l ==> k in laneOccupants
      {
        if l !in laneOccupants {
          return Some(l);
        }
        l := l + 1;
      }
      lane := None;
    }

    /** A new learner gets the first free lane, restored; a known one keeps theirs. */
    method GetSpawnPoint(player: Player) returns (r: Result<(real, real, real), Error>)
      requires Valid()
      modifies this`sessions, this`laneOccupants, this`world, this`laneTouched, this`lost, this`queue
      ensures Valid() && old(queue) <= queue
      ensures r.Err? <==> player !in old(sessions) && forall l: nat :: l < LANES ==> l in old(laneOccupants)
      ensures player in old(sessions) || r.Err? ==>
                sessions == old(sessions) && laneOccupants == old(laneOccupants) && View() == old(View())
      ensures r.Ok? ==> player in sessions
      ensures r.Ok? && player !in old(sessions) ==>
                var s := sessions[player];
                && fresh(s) && s.stage == INTRO && s.destroyed == {}
                && s.lane !in old(laneOccupants) && (forall l: nat :: l < s.lane ==> l in old(laneOccupants))
                && sessions == old(sessions)[player := s] && laneOccupants == old(laneOccupants)[s.lane := player]
                && View() == Next(old(View()), HandOver(s.lane), Keep())
                && (forall i :: 0 <= i < |old(queue)| ==> queue[i].session != Some(s))
                && NoCreditQueued(s)
      ensures r.Ok? ==> r.value == (OriginX(sessions[player].lane) as real + 140.5,
                                    OriginY(sessions[player].lane) as real + 76.5, 230.75)
    {
      if player !in sessions {
        var lane := FirstFreeLane();
        if lane.None? {
          return Err(LanesFull);
        }
        var _ := Admit(player, lane.value);
      }
      var lane := sessions[player].lane;
      r := Ok((OriginX(lane) as real + 140.5, OriginY(lane) as real + 76.5, 230.75));
    }

    method Admit(player: Player, lane: nat) returns (s: Session)
      requires Valid() && player !in sessions && lane < LANES && lane !in laneOccupants
      modifies this`sessions, this`laneOccupants, this`world, this`laneTouched, this`lost, this`queue
      ensures Valid() && old(queue) <= queue
      ensures fresh(s) && s.player == player && s.lane == lane && s.stage == INTRO && s.destroyed == {}
      ensures sessions == old(sessions)[player := s] && laneOccupants == old(laneOccupants)[lane := player]
      ensures View() == Next(old(View()), HandOver(lane), Keep())
      ensures forall i :: 0 <= i < |old(queue)| ==> queue[i].session != Some(s)
      ensures NoCreditQueued(s)
    {
      s := Enrol(player, lane);
      RestoreLaneTargets(lane);
    }

    method Enrol(player: Player, lane: nat) returns (s: Session)
      requires Valid() && player !in sessions && lane < LANES && lane !in laneOccupants
      modifies this`sessions, this`laneOccupants
      ensures Valid() && fresh(s) && s.player == player && s.lane == lane && s.stage == INTRO && s.destroyed == {}
      ensures sessions == old(sessions)[player := s] && laneOccupants == old(laneOccupants)[lane := player]
      ensures forall i :: 0 <= i < |queue| ==> queue[i].session != Some(s)
    {
      s := new Session(player, lane);
      sessions := sessions[player := s];
      laneOccupants := laneOccupants[lane := player];
    }

    /** Nothing waiting in the queue is a removal of one of the learner's bullseyes. */
    ghost predicate NoCreditQueued(s: Session)
      reads this`queue
    {
      forall i :: 0 <= i < |queue| && queue[i].session == Some(s) && !queue[i].solid ==> queue[i].cell !in training
    }

    /** So a learner who has just been seated earns nothing from the edits queued before they move. */
    lemma NothingEarnedYet(s: Session, batch: seq<Mutation>)
      requires NoCreditQueued(s) && batch <= queue
      ensures Earned(training, batch, s) == {}
    {
      forall index: nat ensures index !in Earned(training, batch, s) {
        EarnedOnlyByOwnEdits(training, batch, s, index);
        forall k | 0 <= k < |batch| && batch[k].session == Some(s) && !batch[k].solid
          ensures TargetAt(training, batch[k].cell).None?
        {
          assert queue[k] == batch[k];
        }
      }
    }

    /** Release exactly the departing object's lane. */
    method OnPlayerLeave(player: Player)
      requires Valid()
      modifies this`sessions, this`laneOccupants
      ensures Valid() && sessions == old(sessions) - {player}
      ensures laneOccupants == if player in old(sessions) then old(laneOccupants) - {old(sessions)[player].lane}
                               else old(laneOccupants)
    {
      if player !in sessions {
        return;
      }
      var s := sessions[player];
      sessions := sessions - {player};
      if s.lane in laneOccupants && laneOccupants[s.lane] == player {
        laneOccupants := laneOccupants - {s.lane};
      }
    }

    /** Take one target down, whole disc at once, and count it once. */
    method DropTarget(s: Session, index: nat, now: real) returns (ghost removed: seq<Cell>)
      requires Valid() && s.Honest() && s in LiveSessions() && index < TARGETS
      modifies this`world, this`laneTouched, this`lost, this`queue, s`destroyed, s`stage, s`stageStarted
      ensures Valid() && s.Honest() && Appended(old(queue), queue)
      ensures s.destroyed == old(s.destroyed) + {index}
      ensures ProgressOf(s) == Struck(old(ProgressOf(s)), index, now)
      ensures world == if index in old(s.destroyed) then old(world)
                       else old(world) - Disc(training, Target(s.lane, index)).Keys
      ensures View() == Without(old(View()), removed)
      ensures FromDiscs(training, removed)
      ensures RemovalsOf(queue, |old(queue)|, removed) && queue == Announced(old(queue), removed)
      ensures forall c :: c in removed ==> c in Disc(training, Target(s.lane, index))
    {
      removed := [];
      if index in s.destroyed {
        return;
      }
      s.destroyed := s.destroyed + {index};
      FullSetOfTargets(s.destroyed);
      removed := DropDisc(Target(s.lane, index));
      if s.revealed && |s.destroyed| >= TARGETS && s.stage == SHOOTING {
        s.EnterStage(CLIMB, now);
      }
    }

    method DropDisc(t: Target) returns (destroyed: seq<Cell>)
      requires Valid()
      modifies this`world, this`laneTouched, this`lost, this`queue
      ensures Valid() && Appended(old(queue), queue)
      ensures world == old(world) - Disc(training, t).Keys && View() == Without(old(View()), destroyed)
      ensures RemovalsOf(queue, |old(queue)|, destroyed) && queue == Announced(old(queue), destroyed)
      ensures forall c :: c in destroyed ==> c in Disc(training, t)
    {
      var cells := SolidCells(Disc(training, t).Keys);
      destroyed := DestroyBlocks(cells);
      assert old(world) - (set c | c in destroyed) == old(world) - Disc(training, t).Keys;
    }

    /** What falling discs publish earns nobody anything more. */
    lemma DiscIsSpent(s: Session, index: nat, cells: seq<Cell>, start: nat)
      requires Valid() && s in LiveSessions() && index in s.destroyed && index < TARGETS
      requires forall c :: c in cells ==> c in Disc(training, Target(s.lane, index))
      requires RemovalsOf(queue, start, cells)
      ensures Spent(queue, start)
    {
      forall i, l | start <= i < |queue| && l in AllProgress()
        ensures Credit(training, queue[i], l) <= AllProgress()[l].destroyed
      {
        var c, t := queue[i].cell, TargetAt(training, queue[i].cell);
        if queue[i].session == Some(l) && t.Some? {
          TargetAtIsTheTarget(training, c, t.value);
          TargetsAreApart(t.value, Target(s.lane, index), c);
          assert l == s;
        }
      }
    }

    /** The learner's side of dropping a target. */
    method ScoreTarget(s: Session, index: nat, now: real) returns (ghost removed: seq<Cell>)
      requires Valid() && s.Honest() && s in LiveSessions() && index < TARGETS
      modifies this`world, this`laneTouched, this`lost, this`queue, s`destroyed, s`stage, s`stageStarted
      ensures Valid() && s.Honest() && Appended(old(queue), queue)
      ensures ProgressOf(s) == Struck(old(ProgressOf(s)), index, now)
      ensures world == if index in old(s.destroyed) then old(world)
                       else old(world) - Disc(training, Target(s.lane, index)).Keys
      ensures View() == Without(old(View()), removed)
      ensures FromDiscs(training, removed)
      ensures RemovalsOf(queue, |old(queue)|, removed) && Spent(queue, |old(queue)|)
    {
      removed := DropTarget(s, index, now);
      DiscIsSpent(s, index, removed, |old(queue)|);
    }

    method SolidCells(disc: set<Cell>) returns (cells: seq<Cell>)
      ensures forall c :: c in cells <==> c in disc && c in world
    {
      cells := [];
      var todo := disc;
      while todo != {}
        invariant todo <= disc && forall c :: c in cells <==> c in disc && c !in todo && c in world
        decreases |todo|
      {
        var c :| c in todo;
        if c in world { cells := cells + [c]; }
        todo := todo - {c};
      }
    }

    function ProgressOf(s: Session): Progress
      reads s`destroyed, s`stage, s`stageStarted, s`built, s`revealed
    {
      Progress(s.destroyed, s.stage, s.stageStarted, s.built, s.revealed)
    }

    ghost function AllProgress(): Learners
      reads this`sessions, LiveSessions()
    {
      map s | s in LiveSessions() :: ProgressOf(s)
    }

    ghost predicate AllHonest()
      reads this`sessions, LiveSessions()
    {
      forall p :: p in sessions ==> sessions[p].Honest()
    }

    predicate IsLive(s: Session, c: Cell)
      reads this`sessions, this`laneOccupants
    {
      s.player in sessions && sessions[s.player] == s &&
      LaneOf(c).Some? && LaneOf(c).value in laneOccupants && laneOccupants[LaneOf(c).value] == s.player
    }

    /** One queued edit: it can move only the session it was published for, and only while that one is live. */
    method Interpret(m: Mutation, now: real) returns (ghost removed: seq<Cell>)
      requires Valid() && AllHonest()
      requires m.session.Some? ==> LaneOf(m.cell) == Some(m.session.value.lane)
      modifies this`world, this`laneTouched, this`lost, this`queue
      modifies LiveSessions()`destroyed, LiveSessions()`stage, LiveSessions()`stageStarted, LiveSessions()`built
      ensures Valid() && AllHonest() && Appended(old(queue), queue)
      ensures AllProgress() == InterpretedAll(training, m, now, old(AllProgress()))
      ensures View() == Without(old(View()), removed) && world == old(world) - Fells(training, m, old(AllProgress()))
      ensures FromDiscs(training, removed)
      ensures RemovalsOf(queue, |old(queue)|, removed) && Spent(queue, |old(queue)|)
    {
      removed := [];
      if m.session.None? || !IsLive(m.session.value, m.cell) {
        return;
      }
      if !m.solid {
        if TargetAt(training, m.cell).Some? {
          removed := HitTarget(m, now);
        }
      } else if TargetAt(training, m.cell).None? && m.session.value.stage == CLIMB {
        NoteBuilt(m.session.value, m.cell);
      }
    }

    method NoteBuilt(s: Session, c: Cell)
      requires s in LiveSessions()
      modifies s`built
      ensures AllProgress() == old(AllProgress())[s := old(ProgressOf(s)).(built := old(s.built) + {c})]
    {
      s.built := s.built + {c};
    }

    method HitTarget(m: Mutation, now: real) returns (ghost removed: seq<Cell>)
      requires Valid() && AllHonest() && !m.solid && TargetAt(training, m.cell).Some?
      requires m.session.Some? && IsLive(m.session.value, m.cell) && LaneOf(m.cell) == Some(m.session.value.lane)
      modifies this`world, this`laneTouched, this`lost, this`queue
      modifies LiveSessions()`destroyed, LiveSessions()`stage, LiveSessions()`stageStarted
      ensures Valid() && AllHonest() && Appended(old(queue), queue)
      ensures AllProgress() == InterpretedAll(training, m, now, old(AllProgress()))
      ensures View() == Without(old(View()), removed) && world == old(world) - Fells(training, m, old(AllProgress()))
      ensures FromDiscs(training, removed)
      ensures RemovalsOf(queue, |old(queue)|, removed) && Spent(queue, |old(queue)|)
    {
      var target := TargetAt(training, m.cell).value;
      TargetAtIsTheTarget(training, m.cell, target);
      TargetsAreApart(target, target, m.cell);
      removed := ScoreFor(m.session.value, target.index, now);
    }

    /** One learner's target is dropped; nobody else's session changes. */
    method ScoreFor(s: Session, index: nat, now: real) returns (ghost removed: seq<Cell>)
      requires Valid() && AllHonest() && s in LiveSessions() && index < TARGETS
      modifies this`world, this`laneTouched, this`lost, this`queue
      modifies LiveSessions()`destroyed, LiveSessions()`stage, LiveSessions()`stageStarted
      ensures Valid() && AllHonest() && Appended(old(queue), queue)
      ensures AllProgress() == old(AllProgress())[s := Struck(old(ProgressOf(s)), index, now)]
      ensures View() == Without(old(View()), removed)
      ensures FromDiscs(training, removed)
      ensures RemovalsOf(queue, |old(queue)|, removed) && Spent(queue, |old(queue)|)
      ensures world ==
              if index in old(s.destroyed) then old(world)
              else old(world) - Disc(training, Target(s.lane, index)).Keys
    {
      removed := ScoreTarget(s, index, now);
    }

    /** From position `start` on, nothing in the queue can earn a live session a target it does not have. */
    ghost predicate Spent(queue: seq<Mutation>, start: nat)
      reads this`sessions, LiveSessions()
    {
      NothingToEarn(training, queue, start, AllProgress())
    }

    method InterpretFront(now: real) returns (ghost removed: seq<Cell>)
      requires Valid() && AllHonest() && queue != []
      modifies this`world, this`laneTouched, this`lost, this`queue
      modifies LiveSessions()`destroyed, LiveSessions()`stage, LiveSessions()`stageStarted, LiveSessions()`built
      ensures Valid() && AllHonest()
      ensures AllProgress() == InterpretedAll(training, old(queue)[0], now, old(AllProgress()))
      ensures View() == Without(old(View()), removed)
      ensures world == old(world) - Fells(training, old(queue)[0], old(AllProgress()))
      ensures FromDiscs(training, removed)
      ensures old(queue)[1..] <= queue && RemovalsOf(queue, |old(queue)| - 1, removed) && Spent(queue, |old(queue)| - 1)
    {
      var m := queue[0];
      queue := queue[1..];
      removed := Interpret(m, now);
    }

    /** `done` has been interpreted since the learners stood as in `all`, on this terrain. */
    ghost predicate Tallied(all: Learners, terrain: Terrain, done: seq<Mutation>, now: real)
      reads this`sessions, this`world, LiveSessions()
    {
      AllProgress() == PlayedAll(training, done, now, all) && world == terrain - Felled(training, done, now, all)
    }

    method InterpretNext(
        now: real, ghost all: Learners, ghost terrain: Terrain, ghost batch: seq<Mutation>, ghost i: nat,
        ghost spent: nat)
      returns (ghost removed: seq<Cell>)
      requires Valid() && AllHonest() && i < |batch| && batch[i..] <= queue && Tallied(all, terrain, batch[..i], now)
      requires 1 <= spent <= |queue| && Spent(queue, spent)
      modifies this`world, this`laneTouched, this`lost, this`queue
      modifies LiveSessions()`destroyed, LiveSessions()`stage, LiveSessions()`stageStarted, LiveSessions()`built
      ensures Valid() && AllHonest() && Tallied(all, terrain, batch[..i + 1], now)
      ensures View() == Without(old(View()), removed)
      ensures FromDiscs(training, removed)
      ensures old(queue)[1..] <= queue && RemovalsOf(queue, |old(queue)| - 1, removed) && Spent(queue, spent - 1)
    {
      ghost var was, before := queue, AllProgress();
      assert batch[i] == was[0];
      TallyOne(training, batch, i, now, all);
      removed := InterpretFront(now);
      StaysSpentByOne(training, was, spent, queue, now, before);
    }

    /**
     * Drain a bounded batch. Each live session gains exactly what was published for it; departed ones are not
     * touched.
     */
    method DrainWorldMutations(now: real) returns (ghost removed: seq<Cell>)
      requires Valid() && AllHonest()
      modifies this`world, this`laneTouched, this`lost, this`queue
      modifies LiveSessions()`destroyed, LiveSessions()`stage, LiveSessions()`stageStarted, LiveSessions()`built
      ensures Valid() && AllHonest()
      ensures AllProgress() == PlayedAll(training, Batch(old(queue)), now, old(AllProgress()))
      ensures world == old(world) - Felled(training, Batch(old(queue)), now, old(AllProgress()))
      ensures View() == HookStep(old(View()), Fell(removed), Keep()) == Run(old(View()), Removals(removed), Keep())
      ensures FromDiscs(training, removed)
      ensures var left := old(queue)[|Batch(old(queue))|..];
              left <= queue && RemovalsOf(queue, |left|, removed) && Spent(queue, |left|)
    {
      var n := if |queue| < MUTATION_DRAIN_BUDGET then |queue| else MUTATION_DRAIN_BUDGET;
      removed := InterpretBatch(n, now, Batch(queue));
      RemovalsAreEdits(old(View()), removed, Keep());
    }

    /**
     * The drains of several ticks. Nothing that was queued is lost: once there have been enough of them for the
     * whole queue, every live session has gained exactly what it earns.
     */
    method DrainOverTicks(times: seq<real>)
      requires Valid() && AllHonest()
      modifies this`world, this`laneTouched, this`lost, this`queue
      modifies LiveSessions()`destroyed, LiveSessions()`stage, LiveSessions()`stageStarted, LiveSessions()`built
      ensures Valid() && AllHonest()
      ensures |times| * MUTATION_DRAIN_BUDGET >= |old(queue)| ==>
                Gains(training, old(AllProgress()), old(queue), AllProgress())
    {
      ghost var first, before, taken := queue, AllProgress(), 0;
      assert first[..taken] == [] && first[taken..] == first;
      var i := 0;
      while i < |times|
        invariant 0 <= i <= |times| && taken <= |first| && (taken == |first| || taken >= i * MUTATION_DRAIN_BUDGET)
        invariant Valid() && AllHonest() && first[taken..] <= queue && Spent(queue, |first| - taken)
        invariant Gains(training, before, first[..taken], AllProgress())
      {
        taken := DrainNext(times[i], first, before, taken);
        i := i + 1;
      }
      assert first[..|first|] == first;
    }

    method DrainNext(now: real, ghost first: seq<Mutation>, ghost before: Learners, ghost taken: nat)
      returns (ghost more: nat)
      requires Valid() && AllHonest() && taken <= |first| && first[taken..] <= queue && Spent(queue, |first| - taken)
      requires Gains(training, before, first[..taken], AllProgress())
      modifies this`world, this`laneTouched, this`lost, this`queue
      modifies LiveSessions()`destroyed, LiveSessions()`stage, LiveSessions()`stageStarted, LiveSessions()`built
      ensures Valid() && AllHonest() && more <= |first| && (more == |first| || more >= taken + MUTATION_DRAIN_BUDGET)
      ensures first[more..] <= queue && Spent(queue, |first| - more)
      ensures Gains(training, before, first[..more], AllProgress())
    {
      ghost var was, all := queue, AllProgress();
      more := Taken(first, taken, was);
      ghost var removed := DrainWorldMutations(now);
      DrainedMore(training, first, taken, was, queue, now, before, all, AllProgress());
    }

    method InterpretBatch(n: nat, now: real, ghost batch: seq<Mutation>) returns (ghost removed: seq<Cell>)
      requires Valid() && AllHonest() && n == |batch| && batch <= queue
      modifies this`world, this`laneTouched, this`lost, this`queue
      modifies LiveSessions()`destroyed, LiveSessions()`stage, LiveSessions()`stageStarted, LiveSessions()`built
      ensures Valid() && AllHonest() && Tallied(old(AllProgress()), old(world), batch, now)
      ensures View() == Without(old(View()), removed)
      ensures FromDiscs(training, removed)
      ensures old(queue)[n..] <= queue && RemovalsOf(queue, |old(queue)| - n, removed) && Spent(queue, |old(queue)| - n)
    {
      ghost var start, all, terrain, lanes := queue, AllProgress(), world, View();
      assert batch[..0] == [];
      removed := [];
      var i := 0;
      while i < n
        invariant 0 <= i <= n
        invariant Valid() && AllHonest() && Tallied(all, terrain, batch[..i], now)
        invariant View() == Without(lanes, removed) && FromDiscs(training, removed)
        invariant start[i..] <= queue && RemovalsOf(queue, |start| - i, removed) && Spent(queue, |start| - i)
      {
        ghost var was := queue;
        assert batch[i..] <= start[i..] <= was;
        ghost var more := InterpretNext(now, all, terrain, batch, i, |start| - i);
        WithoutMore(lanes, removed, more);
        NextLeft(start, was, queue, i, removed, more);
        removed := removed + more;
        i := i + 1;
      }
      assert batch[..i] == batch;
    }

    lemma NextLeft(
        start: seq<Mutation>, was: seq<Mutation>, now: seq<Mutation>, i: nat, removed: seq<Cell>, more: seq<Cell>)
      requires i < |start| && start[i..] <= was && was[1..] <= now
      requires RemovalsOf(was, |start| - i, removed) && RemovalsOf(now, |was| - 1, more)
      ensures start[i + 1..] <= now && RemovalsOf(now, |start| - (i + 1), removed + more)
    {
      forall k | |start| - (i + 1) <= k < |now| ensures now[k].cell in removed + more && !now[k].solid {
        if k < |was| - 1 {
          assert now[k] == was[k + 1];
        }
      }
    }

    /** Damage to a red cell drops the whole disc: each damaged target of the learner's own lane, once. */
    method PollTargetHits(s: Session, damaged: set<Cell>, now: real) returns (ghost removed: seq<Cell>)
      requires Valid() && s.Honest() && s in LiveSessions() && s.stage == SHOOTING
      modifies this`world, this`laneTouched, this`lost, this`queue, s`destroyed, s`stage, s`stageStarted
      ensures Valid() && s.Honest()
      ensures s.destroyed == old(s.destroyed) + HitBelow(s, damaged, TARGETS)
      ensures OpensWithTheLast(old(ProgressOf(s)), ProgressOf(s), now)
      ensures old(queue) <= queue && RemovalsOf(queue, |old(queue)|, removed)
      ensures View() == Without(old(View()), removed)
      ensures FromDiscs(training, removed)
    {
      removed := [];
      var i := 0;
      while i < TARGETS
        invariant i <= TARGETS && Valid() && s.Honest() && old(queue) <= queue
        invariant RemovalsOf(queue, |old(queue)|, removed)
        invariant ProgressOf(s) == Polled(s, damaged, i, now, old(ProgressOf(s)))
        invariant View() == Without(old(View()), removed) && FromDiscs(training, removed)
      {
        ghost var was, sofar := queue, removed;
        removed := PollTarget(s, i, damaged, now, old(View()), removed);
        RemovalsGoOn(old(queue), was, queue, sofar, removed);
        i := i + 1;
      }
      PolledHits(s, damaged, i, now, old(ProgressOf(s)));
      PolledOpens(s, damaged, i, now, old(ProgressOf(s)));
    }

    /** What the damage to the first `n` targets does to the learner, one target after the other. */
    ghost function Polled(s: Session, damaged: set<Cell>, n: nat, now: real, p: Progress): Progress {
      if n == 0 then p
      else
        var q := Polled(s, damaged, n - 1, now, p);
        if Hit(s, n - 1, damaged) then Struck(q, n - 1, now) else q
    }

    lemma {:induction false} PolledHits(s: Session, damaged: set<Cell>, n: nat, now: real, p: Progress)
      ensures Polled(s, damaged, n, now, p).destroyed == p.destroyed + HitBelow(s, damaged, n)
    {
      if n > 0 {
        PolledHits(s, damaged, n - 1, now, p);
        HitBelowMore(s, damaged, n - 1, p.destroyed);
      }
    }

    lemma {:induction false} PolledOpens(s: Session, damaged: set<Cell>, n: nat, now: real, p: Progress)
      requires n <= TARGETS && p.destroyed <= AllTargets()
      ensures var q := Polled(s, damaged, n, now, p);
              q.destroyed <= AllTargets() && OpensWithTheLast(p, q, now)
    {
      if n > 0 {
        PolledOpens(s, damaged, n - 1, now, p);
        if Hit(s, n - 1, damaged) {
          var q := Polled(s, damaged, n - 1, now, p);
          StruckOpens(q, n - 1, now);
          OpensOnce(p, q, Struck(q, n - 1, now), now);
        }
      }
    }

    lemma RemovalsGoOn(start: seq<Mutation>, was: seq<Mutation>, now: seq<Mutation>, past: seq<Cell>, cells: seq<Cell>)
      requires start <= was <= now && past <= cells
      requires RemovalsOf(was, |start|, past) && RemovalsOf(now, |was|, cells[|past|..])
      ensures RemovalsOf(now, |start|, cells)
    {
      forall i | |start| <= i < |now| ensures now[i].cell in cells && !now[i].solid {
        if i < |was| {
          assert now[i] == was[i];
        }
      }
    }

    method PollTarget(s: Session, index: nat, damaged: set<Cell>, now: real, ghost start: Lanes, ghost past: seq<Cell>)
      returns (ghost removed: seq<Cell>)
      requires Valid() && s.Honest() && s in LiveSessions() && index < TARGETS
      requires View() == Without(start, past) && FromDiscs(training, past)
      modifies this`world, this`laneTouched, this`lost, this`queue, s`destroyed, s`stage, s`stageStarted
      ensures Valid() && s.Honest() && old(queue) <= queue && past <= removed
      ensures RemovalsOf(queue, |old(queue)|, removed[|past|..])
      ensures ProgressOf(s) ==
              if Hit(s, index, damaged) then Struck(old(ProgressOf(s)), index, now) else old(ProgressOf(s))
      ensures View() == Without(start, removed)
      ensures FromDiscs(training, removed)
    {
      removed := past;
      if index !in s.destroyed && Hit(s, index, damaged) {
        ghost var more := ScoreTarget(s, index, now);
        WithoutMore(start, past, more);
        removed := past + more;
      }
    }

    /** The targets among the first `n` that have been damaged. */
    ghost function HitBelow(s: Session, damaged: set<Cell>, n: nat): set<nat> {
      set k: nat | k < n && Hit(s, k, damaged)
    }

    lemma HitBelowMore(s: Session, damaged: set<Cell>, n: nat, before: set<nat>)
      ensures before + HitBelow(s, damaged, n + 1) == before + HitBelow(s, damaged, n) + HitAt(s, damaged, n)
    {}

    function HitAt(s: Session, damaged: set<Cell>, n: nat): set<nat> {
      if Hit(s, n, damaged) then {n} else {}
    }

    predicate Hit(s: Session, index: nat, damaged: set<Cell>) {
      exists c :: c in damaged && TargetAt(training, c) == Some(Target(s.lane, index))
    }
  }
}
