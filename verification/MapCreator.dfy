/**
 * The Map Creator's save protocol: one checkpoint task and one save task share a write lock, two
 * dirty flags and a list of waiting requests. Every event below is one uninterrupted stretch of the
 * event loop, so a sequence of events is one interleaving. Project and terrain are counted in edits.
 */
module SaveProtocol {

  const CHECKPOINT_SECONDS := 1.0

  /** Newest edit held by each file. */
  datatype Disk = Disk(terrain: nat, sidecar: nat)

  /** A waiting host, with the edits made before it asked. */
  datatype Request = Request(id: nat, terrain: nat, project: nat)

  /** What a host was told, and the files at that moment. */
  datatype Ack = Ack(request: Request, success: bool, disk: Disk)

  datatype Holder = Free | ByCheckpoint | BySave

  datatype CheckpointTask = NoCheckpoint | CheckpointWaiting | CheckpointWriting(payload: nat)

  datatype SaveTask =
    | NoSave
    | SaveAtLoopTop
    | SaveWaiting(batch: seq<Request>)
    | SaveWriting(batch: seq<Request>, raw: nat, sidecar: nat)

  datatype Outcome = BothWritten | TerrainOnly | NothingWritten

  datatype State = State(
    project: nat, terrain: nat, metadataDirty: bool, worldDirty: bool, lastCheckpoint: real,
    lock: Holder, checkpoint: CheckpointTask, save: SaveTask, waiters: seq<Request>,
    disk: Disk, requested: nat, acks: seq<Ack>)

  datatype Event =
    | EditProject
    | RequestCheckpoint
    | EditTerrain
    | Tick(now: real)
    | RequestSave
    | CheckpointAcquires(serialized: bool)
    | CheckpointFinishes(written: bool)
    | SaveLoops
    | SaveAcquires(serialized: bool)
    | SaveFinishes(outcome: Outcome)

  predicate Enabled(s: State, e: Event) {
    match e
    case CheckpointAcquires(_) => s.checkpoint.CheckpointWaiting? && s.lock == Free
    case CheckpointFinishes(_) => s.checkpoint.CheckpointWriting?
    case SaveLoops => s.save.SaveAtLoopTop?
    case SaveAcquires(_) => s.save.SaveWaiting? && s.lock == Free
    case SaveFinishes(_) => s.save.SaveWriting?
    case _ => true
  }

  function AckAll(batch: seq<Request>, success: bool, disk: Disk): seq<Ack> {
    seq(|batch|, i requires 0 <= i < |batch| => Ack(batch[i], success, disk))
  }

  /** The failure handler: both flags go up again and the batch is told. */
  function FailBatch(s: State, batch: seq<Request>): State {
    s.(metadataDirty := true, worldDirty := true, save := SaveAtLoopTop,
       acks := s.acks + AckAll(batch, false, s.disk))
  }

  function Written(disk: Disk, raw: nat, sidecar: nat, outcome: Outcome): Disk {
    match outcome
    case BothWritten => Disk(raw, sidecar)
    case TerrainOnly => disk.(terrain := raw)
    case NothingWritten => disk
  }

  function Next(s: State, e: Event): State
    requires Enabled(s, e)
  {
    match e
    case EditProject => s.(project := s.project + 1, metadataDirty := true)
    case RequestCheckpoint => s.(metadataDirty := true)
    case EditTerrain => s.(terrain := s.terrain + 1, worldDirty := true)
    case Tick(now) =>
      if !s.metadataDirty || now - s.lastCheckpoint < CHECKPOINT_SECONDS || !s.checkpoint.NoCheckpoint? then s
      else s.(lastCheckpoint := now, checkpoint := CheckpointWaiting)
    case RequestSave =>
      s.(waiters := s.waiters + [Request(s.requested, s.terrain, s.project)], requested := s.requested + 1,
         save := if s.save.NoSave? then SaveAtLoopTop else s.save)
    case CheckpointAcquires(serialized) =>
      if serialized then s.(lock := ByCheckpoint, checkpoint := CheckpointWriting(s.project), metadataDirty := false)
      else s.(checkpoint := NoCheckpoint)
    case CheckpointFinishes(written) =>
      var t := s.(lock := Free, checkpoint := NoCheckpoint);
      if written then t.(disk := s.disk.(sidecar := s.checkpoint.payload)) else t.(metadataDirty := true)
    case SaveLoops =>
      if s.waiters == [] then s.(save := NoSave) else s.(save := SaveWaiting(s.waiters), waiters := [])
    case SaveAcquires(serialized) =>
      if serialized then
        s.(lock := BySave, save := SaveWriting(s.save.batch, s.terrain, s.project),
           metadataDirty := false, worldDirty := false)
      else FailBatch(s, s.save.batch)
    case SaveFinishes(outcome) =>
      var t := s.(lock := Free, disk := Written(s.disk, s.save.raw, s.save.sidecar, outcome));
      if outcome == BothWritten then
        t.(save := SaveAtLoopTop, acks := s.acks + AckAll(s.save.batch, true, t.disk))
      else FailBatch(t, s.save.batch)
  }

  function Initial(lastCheckpoint: real): State {
    State(0, 0, false, false, lastCheckpoint, Free, NoCheckpoint, NoSave, [], Disk(0, 0), 0, [])
  }

  /** An interleaving: events that are not ready to happen do not happen. */
  function Run(s: State, events: seq<Event>): State {
    if events == [] then s
    else
      var t := Run(s, events[..|events| - 1]);
      var e := events[|events| - 1];
      if Enabled(t, e) then Next(t, e) else t
  }

  // ----- What every interleaving keeps -----

  function Ids(rs: seq<Request>): seq<nat> {
    seq(|rs|, i requires 0 <= i < |rs| => rs[i].id)
  }

  function AckedRequests(acks: seq<Ack>): seq<Request> {
    seq(|acks|, i requires 0 <= i < |acks| => acks[i].request)
  }

  function Batch(s: State): seq<Request> {
    match s.save
    case SaveWaiting(batch) => batch
    case SaveWriting(batch, _, _) => batch
    case _ => []
  }

  function UpTo(n: nat): seq<nat> {
    seq(n, i => i)
  }

  ghost predicate NoWriteInFlight(s: State) {
    !s.checkpoint.CheckpointWriting? && !s.save.SaveWriting?
  }

  ghost predicate LockMatches(s: State) {
    (s.lock == ByCheckpoint <==> s.checkpoint.CheckpointWriting?) &&
    (s.lock == BySave <==> s.save.SaveWriting?)
  }

  /** A clear flag promises that the file is, or is about to be, current. */
  ghost predicate FlagsTruthful(s: State) {
    (!s.metadataDirty ==>
       (s.checkpoint.CheckpointWriting? ==> s.checkpoint.payload == s.project) &&
       (s.save.SaveWriting? ==> s.save.sidecar == s.project) &&
       (NoWriteInFlight(s) ==> s.disk.sidecar == s.project)) &&
    (!s.worldDirty ==>
       if s.save.SaveWriting? then s.save.raw == s.terrain else s.disk.terrain == s.terrain)
  }

  /** No pending write is older than the files, none is newer than the editor. */
  ghost predicate VersionsOrdered(s: State) {
    s.disk.sidecar <= s.project && s.disk.terrain <= s.terrain &&
    (s.checkpoint.CheckpointWriting? ==> s.disk.sidecar <= s.checkpoint.payload <= s.project) &&
    (s.save.SaveWriting? ==> s.disk.sidecar <= s.save.sidecar <= s.project && s.disk.terrain <= s.save.raw <= s.terrain)
  }

  predicate Covers(disk: Disk, r: Request) {
    r.terrain <= disk.terrain && r.project <= disk.sidecar
  }

  ghost predicate RequestsServed(s: State) {
    (forall r :: r in s.waiters ==> Covers(Disk(s.terrain, s.project), r)) &&
    (forall r :: r in Batch(s) ==>
       Covers(if s.save.SaveWriting? then Disk(s.save.raw, s.save.sidecar) else Disk(s.terrain, s.project), r)) &&
    (s.save.NoSave? ==> s.waiters == [])
  }

  /** All requests in flight, oldest first: answered, in the running batch, waiting. */
  function Line(s: State): seq<Request> {
    AckedRequests(s.acks) + Batch(s) + s.waiters
  }

  /** Every request made so far is acknowledged, in the running batch or waiting: once, in order. */
  ghost predicate RequestsConserved(s: State) {
    Ids(Line(s)) == UpTo(s.requested)
  }

  ghost predicate AcksTruthful(s: State) {
    forall i :: 0 <= i < |s.acks| && s.acks[i].success ==>
      Covers(s.acks[i].disk, s.acks[i].request) &&
      s.acks[i].disk.terrain <= s.disk.terrain && s.acks[i].disk.sidecar <= s.disk.sidecar
  }

  ghost predicate Inv(s: State) {
    LockMatches(s) && FlagsTruthful(s) && VersionsOrdered(s) &&
    RequestsServed(s) && RequestsConserved(s) && AcksTruthful(s)
  }

  ghost predicate DiskGrows(d: Disk, d': Disk) {
    d.terrain <= d'.terrain && d.sidecar <= d'.sidecar
  }

  /** Only a save request lengthens the line; every other event keeps it. */
  lemma StepKeepsLine(s: State, e: Event)
    requires LockMatches(s) && RequestsServed(s) && Enabled(s, e)
    ensures Line(Next(s, e)) ==
            if e.RequestSave? then Line(s) + [Request(s.requested, s.terrain, s.project)] else Line(s)
  {
    var t := Next(s, e);
    if e.RequestSave? {
      assert Batch(t) == Batch(s);
    }
  }

  lemma StepKeepsServed(s: State, e: Event)
    requires Inv(s) && Enabled(s, e)
    ensures RequestsServed(Next(s, e))
  {}

  lemma StepKeepsRequests(s: State, e: Event)
    requires Inv(s) && Enabled(s, e)
    ensures RequestsConserved(Next(s, e)) && RequestsServed(Next(s, e))
  {
    StepKeepsServed(s, e);
    StepKeepsLine(s, e);
    if e.RequestSave? {
      assert Ids(Line(s) + [Request(s.requested, s.terrain, s.project)]) == Ids(Line(s)) + [s.requested];
      assert UpTo(s.requested + 1) == UpTo(s.requested) + [s.requested];
    }
  }

  lemma StepKeepsAcks(s: State, e: Event)
    requires Inv(s) && Enabled(s, e)
    ensures AcksTruthful(Next(s, e)) && DiskGrows(s.disk, Next(s, e).disk)
    ensures s.acks <= Next(s, e).acks
  {
    var t := Next(s, e);
    forall i | 0 <= i < |t.acks| && t.acks[i].success
      ensures Covers(t.acks[i].disk, t.acks[i].request) && DiskGrows(t.acks[i].disk, t.disk)
    {
      if i < |s.acks| {
        assert t.acks[i] == s.acks[i];
      } else {
        assert t.acks[i].request in Batch(s);
      }
    }
  }

  lemma StepKeepsInv(s: State, e: Event)
    requires Inv(s) && Enabled(s, e)
    ensures Inv(Next(s, e))
  {
    StepKeepsRequests(s, e);
    StepKeepsAcks(s, e);
  }

  /** Holds in every state any interleaving reaches. */
  lemma {:induction false} EveryRunKeepsInv(lastCheckpoint: real, events: seq<Event>)
    ensures Inv(Run(Initial(lastCheckpoint), events))
  {
    if events == [] {
      assert Ids(AckedRequests([]) + [] + []) == UpTo(0);
    } else {
      EveryRunKeepsInv(lastCheckpoint, events[..|events| - 1]);
      var t := Run(Initial(lastCheckpoint), events[..|events| - 1]);
      if Enabled(t, events[|events| - 1]) {
        StepKeepsInv(t, events[|events| - 1]);
      }
    }
  }

  lemma {:induction false} RunOnlyAdds(s: State, events: seq<Event>)
    requires Inv(s)
    ensures Inv(Run(s, events)) && DiskGrows(s.disk, Run(s, events).disk) && s.acks <= Run(s, events).acks
  {
    if events != [] {
      RunOnlyAdds(s, events[..|events| - 1]);
      var t := Run(s, events[..|events| - 1]);
      if Enabled(t, events[|events| - 1]) {
        StepKeepsInv(t, events[|events| - 1]);
        StepKeepsAcks(t, events[|events| - 1]);
      }
    }
  }

  /**
   * A success acknowledgement is never wrong, then or later: the files hold every edit made before
   * the request, and keep holding it whatever is written afterwards.
   */
  lemma AcknowledgedEditsStayOnDisk(lastCheckpoint: real, before: seq<Event>, after: seq<Event>, i: nat)
    requires var s := Run(Initial(lastCheckpoint), before); i < |s.acks| && s.acks[i].success
    ensures var s := Run(Initial(lastCheckpoint), before);
            Covers(s.acks[i].disk, s.acks[i].request) && Covers(Run(s, after).disk, s.acks[i].request)
  {
    EveryRunKeepsInv(lastCheckpoint, before);
    RunOnlyAdds(Run(Initial(lastCheckpoint), before), after);
  }

  /** The files never go back to an older version. */
  lemma FilesNeverRegress(lastCheckpoint: real, before: seq<Event>, after: seq<Event>)
    ensures var s := Run(Initial(lastCheckpoint), before); DiskGrows(s.disk, Run(s, after).disk)
  {
    EveryRunKeepsInv(lastCheckpoint, before);
    RunOnlyAdds(Run(Initial(lastCheckpoint), before), after);
  }

  /** Not dirty and nothing being written: the files equal the editor. */
  lemma CleanMeansSaved(lastCheckpoint: real, events: seq<Event>)
    ensures var s := Run(Initial(lastCheckpoint), events);
            (!s.metadataDirty && NoWriteInFlight(s) ==> s.disk.sidecar == s.project) &&
            (!s.worldDirty && NoWriteInFlight(s) ==> s.disk.terrain == s.terrain)
  {
    EveryRunKeepsInv(lastCheckpoint, events);
  }

  /** No request is acknowledged twice, and acknowledgements come in request order. */
  lemma AcknowledgedAtMostOnce(lastCheckpoint: real, events: seq<Event>, i: nat, j: nat)
    requires i < j < |Run(Initial(lastCheckpoint), events).acks|
    ensures var acks := Run(Initial(lastCheckpoint), events).acks;
            acks[i].request.id == i && acks[j].request.id == j
  {
    var s := Run(Initial(lastCheckpoint), events);
    EveryRunKeepsInv(lastCheckpoint, events);
    var all := AckedRequests(s.acks) + Batch(s) + s.waiters;
    assert all[i] == s.acks[i].request && all[j] == s.acks[j].request;
    assert Ids(all)[i] == UpTo(s.requested)[i] && Ids(all)[j] == UpTo(s.requested)[j];
  }

  // ----- What hosts are told -----

  /** `after` continues `before` by one answer to each request of the batch, in order, with the files as they are. */
  ghost predicate Answers(before: seq<Ack>, after: seq<Ack>, batch: seq<Request>, success: bool, disk: Disk) {
    before <= after && |after| == |before| + |batch| &&
    forall i :: 0 <= i < |batch| ==>
      var a := after[|before| + i]; a.request == batch[i] && a.success == success && a.disk == disk
  }

  /** A batch fails when serializing does, or either file is not written. */
  predicate Fails(e: Event) {
    e == SaveAcquires(false) || (e.SaveFinishes? && e.outcome != BothWritten)
  }

  /** A finished save answers its batch, with success exactly when both files were written. Nothing else succeeds. */
  lemma AnsweredByOutcome(s: State, e: Event)
    requires Enabled(s, e)
    ensures var t := Next(s, e);
            if e.SaveFinishes? then Answers(s.acks, t.acks, s.save.batch, e.outcome == BothWritten, t.disk)
            else if e == SaveAcquires(false) then Answers(s.acks, t.acks, s.save.batch, false, t.disk)
            else t.acks == s.acks
  {}

  ghost predicate NoFailure(events: seq<Event>) {
    forall i :: 0 <= i < |events| ==> !Fails(events[i])
  }

  lemma {:induction false} NewAnswersSucceed(s: State, events: seq<Event>)
    requires NoFailure(events)
    ensures s.acks <= Run(s, events).acks
    ensures forall i :: |s.acks| <= i < |Run(s, events).acks| ==> Run(s, events).acks[i].success
  {
    if events != [] {
      var n := |events| - 1;
      NewAnswersSucceed(s, events[..n]);
      var t := Run(s, events[..n]);
      if Enabled(t, events[n]) {
        AnsweredByOutcome(t, events[n]);
        forall i | |s.acks| <= i < |Next(t, events[n]).acks| ensures Next(t, events[n]).acks[i].success {
          if i >= |t.acks| {
            assert i == |t.acks| + (i - |t.acks|);
          }
        }
      }
    }
  }

  /** Nobody is told of a failure unless something has failed. */
  lemma NoFailureMeansSuccess(lastCheckpoint: real, events: seq<Event>)
    requires NoFailure(events)
    ensures forall a :: a in Run(Initial(lastCheckpoint), events).acks ==> a.success
  {
    NewAnswersSucceed(Initial(lastCheckpoint), events);
  }

  // ----- What the files get -----

  /** Until its write finishes a save keeps what it has serialized, whatever is edited meanwhile. */
  lemma {:induction false} SerializedIsKept(s: State, mid: seq<Event>)
    requires s.save.SaveWriting? && forall i :: 0 <= i < |mid| ==> !mid[i].SaveFinishes?
    ensures Run(s, mid).save == s.save
  {
    if mid != [] {
      SerializedIsKept(s, mid[..|mid| - 1]);
    }
  }

  lemma {:induction false} PayloadIsKept(s: State, mid: seq<Event>)
    requires s.checkpoint.CheckpointWriting? && forall i :: 0 <= i < |mid| ==> !mid[i].CheckpointFinishes?
    ensures Run(s, mid).checkpoint == s.checkpoint
  {
    if mid != [] {
      PayloadIsKept(s, mid[..|mid| - 1]);
    }
  }

  /** The files get what was serialized under the lock, not what is edited during the write. */
  lemma SavedAsSerialized(s: State, mid: seq<Event>, outcome: Outcome)
    requires Enabled(s, SaveAcquires(true)) && forall i :: 0 <= i < |mid| ==> !mid[i].SaveFinishes?
    ensures var t := Run(Next(s, SaveAcquires(true)), mid);
            Enabled(t, SaveFinishes(outcome)) &&
            var disk := Next(t, SaveFinishes(outcome)).disk;
            && disk.terrain == (if outcome == NothingWritten then t.disk.terrain else s.terrain)
            && disk.sidecar == (if outcome == BothWritten then s.project else t.disk.sidecar)
  {
    SerializedIsKept(Next(s, SaveAcquires(true)), mid);
  }

  lemma CheckpointedAsSerialized(s: State, mid: seq<Event>, written: bool)
    requires Enabled(s, CheckpointAcquires(true)) && forall i :: 0 <= i < |mid| ==> !mid[i].CheckpointFinishes?
    ensures var t := Run(Next(s, CheckpointAcquires(true)), mid);
            Enabled(t, CheckpointFinishes(written)) &&
            var disk := Next(t, CheckpointFinishes(written)).disk;
            disk.terrain == t.disk.terrain && disk.sidecar == (if written then s.project else t.disk.sidecar)
  {
    PayloadIsKept(Next(s, CheckpointAcquires(true)), mid);
  }

  // ----- Exactly once, when writes finish -----

  /** A step of one of the two tasks, as opposed to a new request, edit or tick. */
  predicate TaskStep(e: Event) {
    e.CheckpointAcquires? || e.CheckpointFinishes? || e.SaveLoops? || e.SaveAcquires? || e.SaveFinishes?
  }

  function CheckpointWork(s: State): nat {
    match s.checkpoint
    case NoCheckpoint => 0
    case CheckpointWaiting => 2
    case CheckpointWriting(_) => 1
  }

  function SaveWork(s: State): nat {
    var fromTop := if s.waiters == [] then 1 else 4;
    match s.save
    case NoSave => 0
    case SaveAtLoopTop => fromTop
    case SaveWaiting(_) => 2 + fromTop
    case SaveWriting(_, _, _) => 1 + fromTop
  }

  /** Task steps still to come if nobody asks for anything else. */
  function Work(s: State): nat {
    CheckpointWork(s) + SaveWork(s)
  }

  lemma TaskStepReducesWork(s: State, e: Event)
    requires Inv(s) && TaskStep(e) && Enabled(s, e)
    ensures Work(Next(s, e)) < Work(s)
  {}

  /** The lock is never stuck: while work remains, some task can move. */
  lemma WorkCanAlwaysProceed(s: State) returns (e: Event)
    requires Inv(s) && Work(s) > 0
    ensures TaskStep(e) && Enabled(s, e)
  {
    match s.save {
      case SaveWriting(_, _, _) => e := SaveFinishes(BothWritten);
      case SaveAtLoopTop => e := SaveLoops;
      case SaveWaiting(_) =>
        e := if s.lock == Free then SaveAcquires(true) else CheckpointFinishes(true);
      case NoSave =>
        e := if s.checkpoint.CheckpointWriting? then CheckpointFinishes(true) else CheckpointAcquires(true);
    }
  }

  lemma NoWorkMeansAllAcknowledged(s: State)
    requires Inv(s) && Work(s) == 0
    ensures |s.acks| == s.requested
  {
    assert |Ids(AckedRequests(s.acks) + Batch(s) + s.waiters)| == |UpTo(s.requested)|;
  }

  /** Each event of the run happens, and is a step of one of the tasks. */
  ghost predicate TasksOnly(s: State, steps: seq<Event>) {
    forall i :: 0 <= i < |steps| ==> TaskStep(steps[i]) && Enabled(Run(s, steps[..i]), steps[i])
  }

  lemma FewerTaskSteps(s: State, steps: seq<Event>)
    requires steps != [] && TasksOnly(s, steps)
    ensures TasksOnly(s, steps[..|steps| - 1])
    ensures TaskStep(steps[|steps| - 1]) && Enabled(Run(s, steps[..|steps| - 1]), steps[|steps| - 1])
  {
    var n := |steps| - 1;
    forall i | 0 <= i < n ensures TaskStep(steps[..n][i]) && Enabled(Run(s, steps[..n][..i]), steps[..n][i]) {
      assert steps[..n][..i] == steps[..i];
    }
  }

  lemma OneTaskStep(s: State, e: Event)
    requires Inv(s) && TaskStep(e) && Enabled(s, e)
    ensures Inv(Next(s, e)) && Work(Next(s, e)) < Work(s) && Next(s, e).requested == s.requested
  {
    StepKeepsInv(s, e);
    TaskStepReducesWork(s, e);
  }

  /** However the two tasks interleave, and whichever writes fail, they stop within Work(s) steps. */
  lemma {:induction false} TasksStop(s: State, steps: seq<Event>)
    requires Inv(s) && TasksOnly(s, steps)
    ensures Inv(Run(s, steps)) && |steps| + Work(Run(s, steps)) <= Work(s)
    ensures Run(s, steps).requested == s.requested
  {
    if steps != [] {
      var n := |steps| - 1;
      FewerTaskSteps(s, steps);
      TasksStop(s, steps[..n]);
      OneTaskStep(Run(s, steps[..n]), steps[n]);
    }
  }

  /** When the tasks can move no further, every request has been answered exactly once. */
  lemma SettledMeansAnswered(lastCheckpoint: real, events: seq<Event>, steps: seq<Event>)
    requires var s := Run(Initial(lastCheckpoint), events);
             TasksOnly(s, steps) && forall e :: TaskStep(e) ==> !Enabled(Run(s, steps), e)
    ensures var s := Run(Initial(lastCheckpoint), events);
            Ids(AckedRequests(Run(s, steps).acks)) == UpTo(s.requested)
  {
    var s := Run(Initial(lastCheckpoint), events);
    EveryRunKeepsInv(lastCheckpoint, events);
    TasksStop(s, steps);
    var t := Run(s, steps);
    if Work(t) > 0 {
      var e := WorkCanAlwaysProceed(t);
    }
    NoWorkMeansAllAcknowledged(t);
    assert AckedRequests(t.acks) + Batch(t) + t.waiters == AckedRequests(t.acks);
  }

  // ----- What a failure-free stretch brings about -----

  predicate Succeeds(e: Event) {
    TaskStep(e) && !Fails(e) && e != CheckpointAcquires(false) && e != CheckpointFinishes(false)
  }

  ghost predicate AllSucceed(steps: seq<Event>) {
    forall i :: 0 <= i < |steps| ==> Succeeds(steps[i])
  }

  /** A save that will serialize everything is still ahead, or everything has been serialized since the last edit. */
  ghost predicate SaveAhead(s: State) {
    s.waiters != [] || s.save.SaveWaiting? || (!s.metadataDirty && !s.worldDirty)
  }

  ghost predicate CheckpointAhead(s: State) {
    s.checkpoint.CheckpointWaiting? || !s.metadataDirty
  }

  lemma SuccessStep(s: State, e: Event)
    requires Enabled(s, e) && Succeeds(e)
    ensures SaveAhead(s) ==> SaveAhead(Next(s, e))
    ensures CheckpointAhead(s) ==> CheckpointAhead(Next(s, e))
    ensures Next(s, e).project == s.project && Next(s, e).terrain == s.terrain
  {}

  lemma {:induction false} SuccessRun(s: State, steps: seq<Event>)
    requires AllSucceed(steps)
    ensures SaveAhead(s) ==> SaveAhead(Run(s, steps))
    ensures CheckpointAhead(s) ==> CheckpointAhead(Run(s, steps))
    ensures Run(s, steps).project == s.project && Run(s, steps).terrain == s.terrain
  {
    if steps != [] {
      var n := |steps| - 1;
      SuccessRun(s, steps[..n]);
      if Enabled(Run(s, steps[..n]), steps[n]) {
        SuccessStep(Run(s, steps[..n]), steps[n]);
      }
    }
  }

  lemma IdleAtTheEnd(s: State, steps: seq<Event>)
    requires Inv(s) && TasksOnly(s, steps) && forall e :: TaskStep(e) ==> !Enabled(Run(s, steps), e)
    ensures var t := Run(s, steps); Inv(t) && t.checkpoint.NoCheckpoint? && t.save.NoSave? && t.waiters == []
  {
    TasksStop(s, steps);
    var t := Run(s, steps);
    if Work(t) > 0 {
      var e := WorkCanAlwaysProceed(t);
    }
  }

  /**
   * A save that is asked for is made: when the tasks have run to their end without a failure, both files
   * hold the project and the terrain as they are, nothing is dirty, and everybody was told of a success.
   */
  lemma RequestedSaveIsMade(lastCheckpoint: real, events: seq<Event>, steps: seq<Event>)
    requires var s := Next(Run(Initial(lastCheckpoint), events), RequestSave);
             TasksOnly(s, steps) && AllSucceed(steps) && forall e :: TaskStep(e) ==> !Enabled(Run(s, steps), e)
    ensures var s := Next(Run(Initial(lastCheckpoint), events), RequestSave);
            var t := Run(s, steps);
            && t.disk == Disk(s.terrain, s.project) && !t.metadataDirty && !t.worldDirty
            && s.acks <= t.acks && |t.acks| == t.requested == s.requested
            && forall i :: |s.acks| <= i < |t.acks| ==> t.acks[i].success
  {
    var s := Next(Run(Initial(lastCheckpoint), events), RequestSave);
    EveryRunKeepsInv(lastCheckpoint, events);
    StepKeepsInv(Run(Initial(lastCheckpoint), events), RequestSave);
    SuccessRun(s, steps);
    TasksStop(s, steps);
    IdleAtTheEnd(s, steps);
    NoWorkMeansAllAcknowledged(Run(s, steps));
    RunOnlyAdds(s, steps);
    NewAnswersSucceed(s, steps);
  }

  /** A tick starts a checkpoint exactly when the project is dirty, none is under way, and a second has gone by. */
  lemma TickStartsCheckpoint(s: State, now: real)
    ensures var t := Next(s, Tick(now));
            if s.metadataDirty && s.checkpoint == NoCheckpoint && now >= s.lastCheckpoint + CHECKPOINT_SECONDS
            then t.checkpoint == CheckpointWaiting && t.lastCheckpoint == now &&
                 t == s.(checkpoint := t.checkpoint, lastCheckpoint := now)
            else t == s
  {}

  /** A requested checkpoint is under way at the first tick a second after the last one, whatever was dirty before. */
  lemma RequestedCheckpointStarts(s: State, now: real)
    requires s.checkpoint == NoCheckpoint && now >= s.lastCheckpoint + CHECKPOINT_SECONDS
    ensures var t := Next(s, RequestCheckpoint);
            && t == s.(metadataDirty := t.metadataDirty)
            && Next(t, Tick(now)) == t.(checkpoint := CheckpointWaiting, lastCheckpoint := now)
  {}

  /** The first tick a second after the last checkpoint sees to it that a dirty project reaches its file. */
  lemma DirtyProjectReachesItsFile(lastCheckpoint: real, events: seq<Event>, now: real, steps: seq<Event>)
    requires var s := Run(Initial(lastCheckpoint), events);
             s.checkpoint == NoCheckpoint && now >= s.lastCheckpoint + CHECKPOINT_SECONDS
    requires var s := Next(Run(Initial(lastCheckpoint), events), Tick(now));
             TasksOnly(s, steps) && AllSucceed(steps) && forall e :: TaskStep(e) ==> !Enabled(Run(s, steps), e)
    ensures var s := Run(Initial(lastCheckpoint), events);
            var t := Run(Next(s, Tick(now)), steps);
            t.disk.sidecar == s.project && !t.metadataDirty
  {
    var before := Run(Initial(lastCheckpoint), events);
    EveryRunKeepsInv(lastCheckpoint, events);
    StepKeepsInv(before, Tick(now));
    TickStartsCheckpoint(before, now);
    SuccessRun(Next(before, Tick(now)), steps);
    IdleAtTheEnd(Next(before, Tick(now)), steps);
  }
}

/** The editor object whose coroutines make those steps. */
module MapCreator {
  import opened SaveProtocol

  class UGCMode {
    var project: nat
    var terrain: nat
    var metadataDirty: bool
    var worldDirty: bool
    var lastCheckpoint: real
    var writeLock: Holder
    var checkpointTask: CheckpointTask
    var saveTask: SaveTask
    var saveWaiters: seq<Request>
    var disk: Disk
    /** Stands for the connections: the n-th accepted request is request n. */
    var requested: nat
    /** The overlays sent to them. */
    var acks: seq<Ack>

    ghost function View(): State
      reads this
    {
      State(project, terrain, metadataDirty, worldDirty, lastCheckpoint, writeLock, checkpointTask, saveTask,
            saveWaiters, disk, requested, acks)
    }

    constructor (now: real)
      ensures View() == Initial(now) && Inv(View())
    {
      project, terrain, metadataDirty, worldDirty, lastCheckpoint := 0, 0, false, false, now;
      writeLock, checkpointTask, saveTask, saveWaiters := Free, NoCheckpoint, NoSave, [];
      disk, requested, acks := Disk(0, 0), 0, [];
      new;
      EveryRunKeepsInv(now, []);
    }

    /** Any host mutator that changed the project: placement, target mode, title, sky, palette, preview. */
    method CommitProjectEdit()
      requires Inv(View())
      modifies this
      ensures View() == Next(old(View()), EditProject) && Inv(View())
    {
      StepKeepsInv(View(), EditProject);
      project := project + 1;
      metadataDirty := true;
    }

    method RequestCheckpoint()
      requires Inv(View())
      modifies this
      ensures View() == Next(old(View()), Event.RequestCheckpoint) && Inv(View())
    {
      StepKeepsInv(View(), Event.RequestCheckpoint);
      metadataDirty := true;
    }

    method OnWorldMutation()
      requires Inv(View())
      modifies this
      ensures View() == Next(old(View()), EditTerrain) && Inv(View())
    {
      StepKeepsInv(View(), EditTerrain);
      terrain := terrain + 1;
      worldDirty := true;
    }

    method OnTick(now: real)
      requires Inv(View())
      modifies this
      ensures View() == Next(old(View()), Tick(now)) && Inv(View())
    {
      StepKeepsInv(View(), Tick(now));
      if !metadataDirty {
        return;
      }
      if now - lastCheckpoint < CHECKPOINT_SECONDS {
        return;
      }
      if !checkpointTask.NoCheckpoint? {
        return;
      }
      lastCheckpoint := now;
      checkpointTask := CheckpointWaiting;
    }

    /** Only a connected host's request counts. */
    method RequestSave(isHost: bool, connected: bool) returns (accepted: bool)
      requires Inv(View())
      modifies this
      ensures accepted <==> isHost && connected
      ensures View() == (if accepted then Next(old(View()), Event.RequestSave) else old(View())) && Inv(View())
    {
      if !isHost || !connected {
        return false;
      }
      StepKeepsInv(View(), Event.RequestSave);
      saveWaiters := saveWaiters + [Request(requested, terrain, project)];
      requested := requested + 1;
      if saveTask.NoSave? {
        saveTask := SaveAtLoopTop;
      }
      return true;
    }

    /** The checkpoint coroutine up to its write; serializing may raise. */
    method CheckpointAcquiresLock(serialized: bool)
      requires Inv(View()) && Enabled(View(), CheckpointAcquires(serialized))
      modifies this
      ensures View() == Next(old(View()), CheckpointAcquires(serialized)) && Inv(View())
    {
      StepKeepsInv(View(), CheckpointAcquires(serialized));
      if serialized {
        writeLock := ByCheckpoint;
        var payload := project;
        metadataDirty := false;
        checkpointTask := CheckpointWriting(payload);
      } else {
        checkpointTask := NoCheckpoint;
      }
    }

    method CheckpointWriteReturns(written: bool)
      requires Inv(View()) && Enabled(View(), CheckpointFinishes(written))
      modifies this
      ensures View() == Next(old(View()), CheckpointFinishes(written)) && Inv(View())
    {
      StepKeepsInv(View(), CheckpointFinishes(written));
      if written {
        disk := disk.(sidecar := checkpointTask.payload);
      } else {
        metadataDirty := true;
      }
      writeLock := Free;
      checkpointTask := NoCheckpoint;
    }

    /** The save coroutine at its loop test. */
    method RunSavesLoopTest()
      requires Inv(View()) && Enabled(View(), SaveLoops)
      modifies this
      ensures View() == Next(old(View()), SaveLoops) && Inv(View())
    {
      StepKeepsInv(View(), SaveLoops);
      if saveWaiters == [] {
        saveTask := NoSave;
        return;
      }
      var batch := saveWaiters;
      saveWaiters := [];
      saveTask := SaveWaiting(batch);
    }

    method SaveAcquiresLock(serialized: bool)
      requires Inv(View()) && Enabled(View(), SaveAcquires(serialized))
      modifies this
      ensures View() == Next(old(View()), SaveAcquires(serialized)) && Inv(View())
    {
      StepKeepsInv(View(), SaveAcquires(serialized));
      if serialized {
        writeLock := BySave;
        var raw, sidecar := terrain, project;
        metadataDirty := false;
        worldDirty := false;
        saveTask := SaveWriting(saveTask.batch, raw, sidecar);
      } else {
        SaveFails(saveTask.batch);
      }
    }

    method SaveWriteReturns(outcome: Outcome)
      requires Inv(View()) && Enabled(View(), SaveFinishes(outcome))
      modifies this
      ensures View() == Next(old(View()), SaveFinishes(outcome)) && Inv(View())
    {
      StepKeepsInv(View(), SaveFinishes(outcome));
      var batch, raw, sidecar := saveTask.batch, saveTask.raw, saveTask.sidecar;
      if outcome != NothingWritten {
        disk := disk.(terrain := raw);
      }
      if outcome == BothWritten {
        disk := disk.(sidecar := sidecar);
      }
      writeLock := Free;
      if outcome == BothWritten {
        saveTask := SaveAtLoopTop;
        SendAcks(batch, true);
      } else {
        SaveFails(batch);
      }
    }

    method SaveFails(batch: seq<Request>)
      modifies this`metadataDirty, this`worldDirty, this`saveTask, this`acks
      ensures View() == FailBatch(old(View()), batch)
    {
      metadataDirty := true;
      worldDirty := true;
      saveTask := SaveAtLoopTop;
      SendAcks(batch, false);
    }

    method SendAcks(batch: seq<Request>, success: bool)
      modifies this`acks
      ensures acks == old(acks) + AckAll(batch, success, disk)
    {
      var i := 0;
      while i < |batch|
        invariant 0 <= i <= |batch|
        invariant acks == old(acks) + AckAll(batch, success, disk)[..i]
      {
        acks := acks + [Ack(batch[i], success, disk)];
        i := i + 1;
      }
    }
  }
}
