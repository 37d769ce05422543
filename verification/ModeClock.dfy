/** The end of a match by the clock: events accepted before the buzzer still count, later ones never do. */
module TimeoutSnapshot {
  import opened Wrappers
  import opened Sizes

  /** `queue` holds the accepted events in order, `handled` those the mode has been given. */
  datatype State = State(queue: seq<int>, remaining: Option<nat>, ended: bool, retiring: bool, handled: seq<int>)

  /** One server tick: what is queued before it and by its own handlers, and whether the clock has run out. */
  datatype Input = Input(arrivals: seq<int>, late: seq<int>, expired: bool)

  /** How many events this tick delivers: a bounded slice, and nothing newer than the snapshot. */
  function Slice(s: State, arrivals: nat, budget: nat): nat {
    var slice := Min(|s.queue| + arrivals, budget);
    if s.remaining.Some? && !s.ended then Min(slice, s.remaining.value) else slice
  }

  function Drained(s: State, i: Input, budget: nat): State {
    var q := s.queue + i.arrivals;
    var n := Slice(s, |i.arrivals|, budget);
    State(q[n..] + i.late,
          if s.remaining.Some? && !s.ended then Some(s.remaining.value - n) else s.remaining,
          s.ended, s.retiring, s.handled + q[..n])
  }

  /** The mode's own tick: take the snapshot once, and end when it is empty, unless the mode is being replaced. */
  function Checked(s: State, expired: bool): State {
    if s.ended then s
    else if !expired then s.(remaining := None)
    else
      var r := if s.remaining.Some? then s.remaining.value else |s.queue|;
      s.(remaining := Some(r), ended := r == 0 && !s.retiring)
  }

  function Tick(s: State, i: Input, budget: nat): State {
    Checked(Drained(s, i, budget), i.expired)
  }

  function Run(s: State, inputs: seq<Input>, budget: nat): State
    decreases |inputs|
  {
    if inputs == [] then s else Run(Tick(s, inputs[0], budget), inputs[1..], budget)
  }

  /** A tick loses no event and changes no order: what has been handled and what is queued is all that ever came in. */
  lemma NothingIsLost(s: State, i: Input, budget: nat)
    ensures var t := Tick(s, i, budget); t.handled + t.queue == s.handled + s.queue + i.arrivals + i.late
  {
    CutAnywhere(s.handled, s.queue + i.arrivals, i.late, Slice(s, |i.arrivals|, budget));
    assert s.handled + s.queue + i.arrivals + i.late == s.handled + (s.queue + i.arrivals) + i.late;
  }

  lemma CutAnywhere(done: seq<int>, q: seq<int>, late: seq<int>, n: nat)
    requires n <= |q|
    ensures (done + q[..n]) + (q[n..] + late) == done + q + late
  {
    assert q == q[..n] + q[n..];
  }

  /** With no snapshot pending a tick handles as much as the budget allows. */
  lemma AFullSlice(s: State, i: Input, budget: nat)
    requires s.remaining.None? || s.ended
    ensures var t := Tick(s, i, budget);
            |t.handled| == |s.handled| + Min(|s.queue| + |i.arrivals|, budget)
  {}

  function TicksFor(events: nat, budget: nat): nat
    requires budget > 0
  {
    if events <= budget then 1 else 1 + TicksFor(events - budget, budget)
  }

  /** A whole number of slices, rounded up. */
  lemma {:induction false} TicksForIsCeiling(events: nat, budget: nat)
    requires budget > 0 && events > 0
    ensures (TicksFor(events, budget) - 1) * budget < events <= TicksFor(events, budget) * budget
    decreases events
  {
    if events > budget {
      TicksForIsCeiling(events - budget, budget);
      var t := TicksFor(events - budget, budget);
      assert (t + 1) * budget == t * budget + budget;
      assert t * budget == (t - 1) * budget + budget;
    }
  }

  predicate Expired(inputs: seq<Input>) {
    forall k :: 0 <= k < |inputs| ==> inputs[k].expired
  }

  predicate Open(s: State) {
    !s.ended && !s.retiring
  }

  /** What the snapshot can rely on: its events are still queued. */
  predicate Covered(s: State) {
    s.remaining.Some? ==> s.remaining.value <= |s.queue|
  }

  lemma TickTakesOneSlice(s: State, i: Input, budget: nat)
    requires budget > 0 && i.expired && Open(s) && Covered(s) && s.remaining.Some? && s.remaining.value > 0
    ensures var t := Tick(s, i, budget);
            var n := Min(s.remaining.value, budget);
            && t.remaining == Some(s.remaining.value - n) && t.ended == (s.remaining.value <= budget)
            && Covered(t) && t.handled == s.handled + s.queue[..n]
            && t.queue == s.queue[n..] + i.arrivals + i.late
  {
    var n := Min(s.remaining.value, budget);
    assert (s.queue + i.arrivals)[..n] == s.queue[..n];
    assert (s.queue + i.arrivals)[n..] == s.queue[n..] + i.arrivals;
  }

  /**
   * After the snapshot, exactly its events are handled, in a number of ticks no arrival can change; then the
   * match ends.
   */
  lemma {:induction false} SnapshotDecidesTheEnd(s: State, inputs: seq<Input>, budget: nat)
    requires budget > 0 && Expired(inputs) && Open(s) && Covered(s) && s.remaining.Some? && s.remaining.value > 0
    requires |inputs| == TicksFor(s.remaining.value, budget)
    ensures var t := Run(s, inputs, budget); t.ended && t.handled == s.handled + s.queue[..s.remaining.value]
    decreases |inputs|
  {
    var r := s.remaining.value;
    var n := Min(r, budget);
    TickTakesOneSlice(s, inputs[0], budget);
    var t := Tick(s, inputs[0], budget);
    if r <= budget {
      assert inputs[1..] == [];
    } else {
      SnapshotDecidesTheEnd(t, inputs[1..], budget);
      assert t.queue[..r - n] == s.queue[n..r];
      assert s.queue[..n] + s.queue[n..r] == s.queue[..r];
    }
  }

  /** Before that the match goes on. */
  lemma {:induction false} NotBeforeTheSnapshotIsDrained(s: State, inputs: seq<Input>, budget: nat)
    requires budget > 0 && Expired(inputs) && Open(s) && Covered(s) && s.remaining.Some? && s.remaining.value > 0
    requires |inputs| < TicksFor(s.remaining.value, budget)
    ensures !Run(s, inputs, budget).ended
    decreases |inputs|
  {
    if inputs != [] {
      TickTakesOneSlice(s, inputs[0], budget);
      NotBeforeTheSnapshotIsDrained(Tick(s, inputs[0], budget), inputs[1..], budget);
    }
  }

  /** The snapshot is taken on the first expired tick, of what that tick left in the queue. */
  lemma FirstExpiredTick(s: State, i: Input, budget: nat)
    requires budget > 0 && i.expired && Open(s) && s.remaining.None?
    ensures var t := Tick(s, i, budget);
            t.remaining == Some(|t.queue|) && Covered(t) && (t.ended <==> t.queue == [])
  {}

  /** A clock that has been put back drops the snapshot, and a new one is taken when it runs out again. */
  lemma SnapshotIsTakenAnew(s: State, back: Input, out: Input, budget: nat)
    requires budget > 0 && Open(s) && !back.expired && out.expired
    ensures var t := Tick(Tick(s, back, budget), out, budget);
            Tick(s, back, budget).remaining == None && !Tick(s, back, budget).ended && t.remaining == Some(|t.queue|)
  {}

  /** Only ticks and arrivals keep the snapshot covered; settling a leaver's events takes them out of the queue. */
  function Settled(s: State, queue: seq<int>): State {
    s.(queue := queue)
  }

  /** How many events a server without a clock would have delivered by now, from so long a queue. */
  function Served(queue: nat, inputs: seq<Input>, budget: nat): nat
    decreases |inputs|
  {
    if inputs == [] then 0
    else
      var n := Min(queue + |inputs[0].arrivals|, budget);
      n + Served(queue + |inputs[0].arrivals| - n + |inputs[0].late|, inputs[1..], budget)
  }

  /** All that comes in. */
  function Supply(inputs: seq<Input>): nat
    decreases |inputs|
  {
    if inputs == [] then 0 else |inputs[0].arrivals| + |inputs[0].late| + Supply(inputs[1..])
  }

  /**
   * Whatever comes in and whatever was settled out of the queue, the match has ended exactly when a server
   * without a clock would have delivered as many events as the snapshot counted.
   */
  lemma {:induction false} EndsExactlyWhenServed(s: State, inputs: seq<Input>, budget: nat)
    requires Expired(inputs) && Open(s) && s.remaining.Some? && s.remaining.value > 0
    ensures Run(s, inputs, budget).ended <==> s.remaining.value <= Served(|s.queue|, inputs, budget)
    decreases |inputs|
  {
    if inputs != [] {
      var t := Tick(s, inputs[0], budget);
      if t.ended {
        OnceEnded(t, inputs[1..], budget);
      } else {
        EndsExactlyWhenServed(t, inputs[1..], budget);
      }
    }
  }

  lemma {:induction false} ServesNoMoreThanThereIs(queue: nat, inputs: seq<Input>, budget: nat)
    ensures Served(queue, inputs, budget) <= queue + Supply(inputs)
    decreases |inputs|
  {
    if inputs != [] {
      var n := Min(queue + |inputs[0].arrivals|, budget);
      ServesNoMoreThanThereIs(queue + |inputs[0].arrivals| - n + |inputs[0].late|, inputs[1..], budget);
    }
  }

  /** `owed` events that are all in the queue are delivered at the full rate. */
  lemma {:induction false} ServesAtFullRate(queue: nat, inputs: seq<Input>, budget: nat, owed: nat)
    requires budget > 0 && owed <= queue && |inputs| >= TicksFor(owed, budget)
    ensures Served(queue, inputs, budget) >= owed
    decreases |inputs|
  {
    var n := Min(queue + |inputs[0].arrivals|, budget);
    if owed > budget {
      ServesAtFullRate(queue + |inputs[0].arrivals| - n + |inputs[0].late|, inputs[1..], budget, owed - budget);
    }
  }

  lemma {:induction false} FewerNeedNoMoreTicks(fewer: nat, events: nat, budget: nat)
    requires budget > 0 && fewer <= events
    ensures TicksFor(fewer, budget) <= TicksFor(events, budget)
    decreases events
  {
    if fewer > budget {
      FewerNeedNoMoreTicks(fewer - budget, events - budget, budget);
    }
  }

  /** Once enough has come in, the rest of the ticks bring it about. */
  lemma {:induction false} ServesWhatHasComeIn(queue: nat, first: seq<Input>, rest: seq<Input>, budget: nat, owed: nat)
    requires budget > 0 && owed <= queue + Supply(first) && |rest| >= TicksFor(owed, budget)
    ensures Served(queue, first + rest, budget) >= owed
    decreases |first|
  {
    if first == [] {
      assert first + rest == rest;
      ServesAtFullRate(queue, rest, budget, owed);
    } else {
      assert (first + rest)[1..] == first[1..] + rest;
      var n := Min(queue + |first[0].arrivals|, budget);
      var left := if owed > n then owed - n else 0;
      FewerNeedNoMoreTicks(left, owed, budget);
      ServesWhatHasComeIn(queue + |first[0].arrivals| - n + |first[0].late|, first[1..], rest, budget, left);
    }
  }

  /**
   * Events settled out of the queue for a leaver are not taken off the count, and the clock waits for as many
   * new ones: while queue and arrivals together fall short of the snapshot the match goes on, and once they
   * do not, it ends within the snapshot's own number of ticks.
   */
  lemma EndsOnceMadeUp(s: State, first: seq<Input>, rest: seq<Input>, budget: nat)
    requires budget > 0 && Expired(first) && Expired(rest) && Open(s) && s.remaining.Some? && s.remaining.value > 0
    ensures |s.queue| + Supply(first) < s.remaining.value ==> !Run(s, first, budget).ended
    ensures |s.queue| + Supply(first) >= s.remaining.value && |rest| >= TicksFor(s.remaining.value, budget) ==>
              Run(s, first + rest, budget).ended
  {
    EndsExactlyWhenServed(s, first, budget);
    EndsExactlyWhenServed(s, first + rest, budget);
    ServesNoMoreThanThereIs(|s.queue|, first, budget);
    if |s.queue| + Supply(first) >= s.remaining.value && |rest| >= TicksFor(s.remaining.value, budget) {
      ServesWhatHasComeIn(|s.queue|, first, rest, budget, s.remaining.value);
    }
  }

  predicate Quiet(inputs: seq<Input>) {
    forall k :: 0 <= k < |inputs| ==> inputs[k].expired && inputs[k].arrivals == [] && inputs[k].late == []
  }

  lemma {:induction false} QuietSuppliesNothing(inputs: seq<Input>)
    requires Quiet(inputs)
    ensures Supply(inputs) == 0
    decreases |inputs|
  {
    if inputs != [] {
      QuietSuppliesNothing(inputs[1..]);
    }
  }

  /** With no further arrivals the match ends exactly when the queue still covers the snapshot. */
  lemma QuietEndNeedsCover(s: State, inputs: seq<Input>, budget: nat)
    requires budget > 0 && Quiet(inputs) && Open(s) && s.remaining.Some? && s.remaining.value > 0
    requires |inputs| >= TicksFor(s.remaining.value, budget)
    ensures Run(s, inputs, budget).ended <==> s.remaining.value <= |s.queue|
  {
    QuietSuppliesNothing(inputs);
    EndsOnceMadeUp(s, inputs, [], budget);
    EndsOnceMadeUp(s, [], inputs, budget);
    assert [] + inputs == inputs;
  }

  lemma {:induction false} OnceEnded(s: State, inputs: seq<Input>, budget: nat)
    requires s.ended
    ensures Run(s, inputs, budget).ended
    decreases |inputs|
  {
    if inputs != [] {
      OnceEnded(Tick(s, inputs[0], budget), inputs[1..], budget);
    }
  }

  /** The case in point: a snapshot of one event, settled out of the queue when its player leaves. */
  lemma AStalledClock(event: int, inputs: seq<Input>)
    requires Quiet(inputs)
    ensures var s := Settled(State([event], Some(1), false, false, []), []);
            !Run(s, inputs, 512).ended
  {
    QuietSuppliesNothing(inputs);
    EndsOnceMadeUp(Settled(State([event], Some(1), false, false, []), []), inputs, [], 512);
  }
}

/** The shared end of every mode: it happens once, and the clock's verdict is by score. */
module ModeClock {
  import opened Wrappers
  import opened Sizes
  import opened TimeoutSnapshot

  /** The one side strictly ahead of every other, if there is one. */
  ghost predicate Leads(scores: seq<nat>, i: nat) {
    i < |scores| && forall j :: 0 <= j < |scores| && j != i ==> scores[j] < scores[i]
  }

  /** The verdict by score: the side ahead of every other, or a draw. */
  ghost predicate Verdict(scores: seq<nat>, winner: Option<nat>) {
    match winner
    case Some(i) => Leads(scores, i)
    case None => forall i :: !Leads(scores, i)
  }

  /** Sort by score and compare the top two; any number of sides. */
  method LeaderOf(scores: seq<nat>) returns (winner: Option<nat>)
    ensures Verdict(scores, winner)
  {
    if scores == [] {
      return None;
    }
    var best, tied, i := 0, false, 1;
    while i < |scores|
      invariant 1 <= i <= |scores| && 0 <= best < i
      invariant forall j :: 0 <= j < i ==> scores[j] <= scores[best]
      invariant tied <==> exists j :: 0 <= j < i && j != best && scores[j] == scores[best]
    {
      if scores[i] > scores[best] {
        best, tied := i, false;
      } else if scores[i] == scores[best] {
        tied := true;
      }
      i := i + 1;
    }
    winner := if tied then None else Some(best);
    if tied {
      var j :| 0 <= j < |scores| && j != best && scores[j] == scores[best];
      forall k: nat ensures !Leads(scores, k) {
        if k == best { assert scores[j] == scores[best]; } else if k < |scores| { assert scores[k] <= scores[best]; }
      }
    }
  }

  class BaseMode {
    const timeLimit: real
    var scores: seq<nat>
    var ended: bool
    var retiring: bool
    var winner: Option<nat>
    var timeoutEventsRemaining: Option<nat>
    /** How often the end-of-round sequence has been started. */
    ghost var ends: nat

    /** The end sequence runs at most once, and only for a match that has ended. */
    ghost predicate Valid()
      reads this`ended, this`ends, this`winner
    {
      ends <= 1 && (ends == 1 ==> ended) && (ends == 0 ==> winner == None)
    }

    constructor (timeLimit: real, scores: seq<nat>)
      ensures Valid() && !ended && !retiring && ends == 0 && timeoutEventsRemaining == None
      ensures this.timeLimit == timeLimit && this.scores == scores
    {
      this.timeLimit, this.scores := timeLimit, scores;
      ended, retiring, winner, timeoutEventsRemaining, ends := false, false, None, None, 0;
    }

    /** Ends the mode; a mode that is being replaced gets no end sequence. */
    method OnModeEnd(result: Option<nat>)
      requires Valid() && ends == 0
      modifies this`ended, this`winner, this`ends
      ensures Valid() && ended
      ensures if retiring then ends == 0 else ends == 1 && winner == result
    {
      ended := true;
      if retiring {
        return;
      }
      winner := result;
      ends := ends + 1;
    }

    method EndByScore(team: nat)
      requires Valid()
      modifies this`ended, this`winner, this`ends
      ensures Valid() && ended == (old(ended) || !retiring)
      ensures if old(ended) || retiring then ends == old(ends) && winner == old(winner)
              else ends == 1 && winner == Some(team)
    {
      if ended || retiring {
        return;
      }
      OnModeEnd(Some(team));
    }

    /** The clock's verdict: the side strictly ahead, or a draw. */
    method EndByTime()
      requires Valid()
      modifies this`ended, this`winner, this`ends
      ensures Valid() && ended == (old(ended) || !retiring)
      ensures old(ended) || retiring ==> ends == old(ends) && winner == old(winner)
      ensures !old(ended) && !retiring ==> ends == 1 && Verdict(scores, winner)
    {
      if ended || retiring {
        return;
      }
      var leader := LeaderOf(scores);
      OnModeEnd(leader);
    }

    /** The time-limit part of the shared tick. */
    method OnTick(elapsed: real, queued: nat)
      requires Valid()
      modifies this`ended, this`winner, this`ends, this`timeoutEventsRemaining
      ensures Valid()
      ensures var expired := timeLimit > 0.0 && elapsed >= timeLimit;
              var r := if old(timeoutEventsRemaining).Some? then old(timeoutEventsRemaining).value else queued;
              && timeoutEventsRemaining ==
                 (if old(ended) then old(timeoutEventsRemaining) else if expired then Some(r) else None)
              && ended == (old(ended) || (expired && r == 0 && !retiring))
      ensures if ended && !old(ended) then ends == 1 && Verdict(scores, winner)
              else ends == old(ends) && winner == old(winner)
    {
      if ended {
        return;
      }
      if timeLimit > 0.0 && elapsed >= timeLimit {
        if timeoutEventsRemaining.None? {
          timeoutEventsRemaining := Some(queued);
        }
        if timeoutEventsRemaining == Some(0) {
          EndByTime();
        }
      } else {
        timeoutEventsRemaining := None;
      }
    }
  }

  class SimulationRuntime {
    const mode: BaseMode
    const drainBudget: nat
    var modeEvents: seq<int>
    ghost var handled: seq<int>

    ghost function View(): State
      reads this, mode
    {
      State(modeEvents, mode.timeoutEventsRemaining, mode.ended, mode.retiring, handled)
    }

    constructor (mode: BaseMode, drainBudget: nat)
      ensures this.mode == mode && this.drainBudget == drainBudget && modeEvents == [] && handled == []
    {
      this.mode, this.drainBudget, modeEvents, handled := mode, drainBudget, [], [];
    }

    /** Queue one event for the mode; a full queue drops it. */
    method QueueModeEvent(event: int, limit: nat)
      modifies this`modeEvents
      ensures modeEvents == if old(|modeEvents|) >= limit then old(modeEvents) else old(modeEvents) + [event]
    {
      if |modeEvents| >= limit {
        return;
      }
      modeEvents := modeEvents + [event];
    }

    /**
     * Deliver a bounded slice of the events, then let the mode look at the clock. `late` is what the handlers
     * queue.
     */
    method TickMode(elapsed: real, late: seq<int>)
      requires mode.Valid()
      modifies this`modeEvents, this`handled
      modifies mode`ended, mode`winner, mode`ends, mode`timeoutEventsRemaining
      ensures mode.Valid()
      ensures var expired := mode.timeLimit > 0.0 && elapsed >= mode.timeLimit;
              View() == Tick(old(View()), Input([], late, expired), drainBudget)
    {
      var budget := Min(|modeEvents|, drainBudget);
      var remaining := mode.timeoutEventsRemaining;
      if remaining.Some? && !mode.ended {
        budget := Min(budget, remaining.value);
      }
      DeliverSlice(budget);
      modeEvents := modeEvents + late;
      if remaining.Some? && !mode.ended {
        mode.timeoutEventsRemaining := Some(if remaining.value > budget then remaining.value - budget else 0);
      }
      assert old(modeEvents) + [] == old(modeEvents);
      mode.OnTick(elapsed, |modeEvents|);
    }

    method DeliverSlice(budget: nat)
      requires budget <= |modeEvents|
      modifies this`modeEvents, this`handled
      ensures modeEvents == old(modeEvents)[budget..] && handled == old(handled) + old(modeEvents)[..budget]
    {
      var i := 0;
      while i < budget
        invariant i <= budget && modeEvents == old(modeEvents)[i..] && handled == old(handled) + old(modeEvents)[..i]
      {
        handled := handled + [modeEvents[0]];
        modeEvents := modeEvents[1..];
        i := i + 1;
      }
    }
  }
}
