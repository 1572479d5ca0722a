/** The cooldowns of `attemptLeaderElection` in src/cluster/leaderElection.ts. Times are in milliseconds. */
module ElectionRate {
  import opened Constants

  datatype Start = Start(time: int, forced: bool)

  /** `running` is the election promise, `last` the recorded time of the last start, 0 before the first. `starts` and
      `completed` log what has happened. */
  datatype Gate = Gate(running: bool, last: int, starts: seq<Start>, completed: nat)

  const INITIAL := Gate(false, 0, [], 0)

  /** The clock is read twice: for the check and for the record. */
  datatype Event = Attempt(force: bool, isCoordinator: bool, checkedAt: int, recordedAt: int) | Complete

  predicate Admits(gate: Gate, force: bool, isCoordinator: bool, checkedAt: int) {
    && isCoordinator && !gate.running
    && checkedAt - gate.last >= LEADER_ELECTION_HARD_COOLDOWN_MS
    && (force || checkedAt - gate.last >= LEADER_ELECTION_INTERVAL_MS)
  }

  function Next(gate: Gate, event: Event): Gate {
    match event
    case Attempt(force, isCoordinator, checkedAt, recordedAt) =>
      if Admits(gate, force, isCoordinator, checkedAt)
      then Gate(true, recordedAt, gate.starts + [Start(recordedAt, force)], gate.completed)
      else gate
    case Complete => if gate.running then gate.(running := false, completed := gate.completed + 1) else gate
  }

  function Run(gate: Gate, events: seq<Event>): Gate {
    if events == [] then gate else Next(Run(gate, events[..|events| - 1]), events[|events| - 1])
  }

  /** The clock never goes back within an attempt. */
  ghost predicate ClockMonotone(events: seq<Event>) {
    forall i :: 0 <= i < |events| && events[i].Attempt? ==> events[i].checkedAt <= events[i].recordedAt
  }

  ghost predicate Spaced(starts: seq<Start>) {
    forall i :: 0 < i < |starts| ==>
      && starts[i].time - starts[i - 1].time >= LEADER_ELECTION_HARD_COOLDOWN_MS
      && (!starts[i].forced ==> starts[i].time - starts[i - 1].time >= LEADER_ELECTION_INTERVAL_MS)
  }

  ghost predicate GateInvariant(gate: Gate) {
    && Spaced(gate.starts)
    && |gate.starts| == gate.completed + (if gate.running then 1 else 0)
    && gate.last == if gate.starts == [] then 0 else gate.starts[|gate.starts| - 1].time
  }

  lemma NextKeeps(gate: Gate, event: Event)
    requires GateInvariant(gate) && (event.Attempt? ==> event.checkedAt <= event.recordedAt)
    ensures GateInvariant(Next(gate, event))
  {
  }

  /** Over every trace: at most one election is in flight, recorded starts are at least the hard cooldown apart, and a
      start that was not forced keeps the full interval from the start before it. */
  lemma {:induction false} StartsAreSpaced(events: seq<Event>)
    requires ClockMonotone(events)
    ensures GateInvariant(Run(INITIAL, events))
  {
    hide GateInvariant, Next;
    if events == [] {
      InitialInvariant();
    } else {
      StartsAreSpaced(events[..|events| - 1]);
      NextKeeps(Run(INITIAL, events[..|events| - 1]), events[|events| - 1]);
    }
  }

  lemma InitialInvariant()
    ensures GateInvariant(INITIAL)
  {
  }

  /** After any trace, an attempt starts an election exactly on the coordinator, when every election that was started is over,
      15 seconds after the last recorded start, or five minutes after it unless it is forced. */
  lemma AttemptStarts(events: seq<Event>, force: bool, isCoordinator: bool, checkedAt: int, recordedAt: int)
    requires ClockMonotone(events)
    ensures var before, after := Run(INITIAL, events), Run(INITIAL, events + [Attempt(force, isCoordinator, checkedAt, recordedAt)]);
            var last := if before.starts == [] then 0 else before.starts[|before.starts| - 1].time;
            var admitted := isCoordinator && before.completed == |before.starts| && checkedAt - last >= 15000 &&
                            (force || checkedAt - last >= 300000);
            after.completed == before.completed &&
            after.starts == before.starts + if admitted then [Start(recordedAt, force)] else []
  {
    StartsAreSpaced(events);
    var attempt := Attempt(force, isCoordinator, checkedAt, recordedAt);
    assert (events + [attempt])[..|events|] == events;
  }

  /** Once the running election is over, every election that was started is over. */
  lemma CompletionEnds(events: seq<Event>)
    requires ClockMonotone(events)
    ensures var after := Run(INITIAL, events + [Complete]);
            after.starts == Run(INITIAL, events).starts && after.completed == |after.starts|
  {
    StartsAreSpaced(events);
    assert (events + [Complete])[..|events|] == events;
  }

  /** The starts recorded from `from` up to `from + length`. */
  function StartsWithin(starts: seq<Start>, from: int, length: nat): nat {
    if starts == [] then 0
    else StartsWithin(starts[..|starts| - 1], from, length)
         + if from <= starts[|starts| - 1].time <= from + length then 1 else 0
  }

  /** Spaced starts that fall into a window leave a cooldown between any two of them. */
  lemma {:induction false} WindowFills(starts: seq<Start>, from: int, length: nat)
    requires Spaced(starts) && StartsWithin(starts, from, length) > 0
    ensures LEADER_ELECTION_HARD_COOLDOWN_MS * (StartsWithin(starts, from, length) - 1) <= length
    ensures from <= starts[|starts| - 1].time <= from + length ==>
              LEADER_ELECTION_HARD_COOLDOWN_MS * (StartsWithin(starts, from, length) - 1) <= starts[|starts| - 1].time - from
  {
    var front := starts[..|starts| - 1];
    if StartsWithin(front, from, length) > 0 {
      WindowFills(front, from, length);
      LastInWindowOrLater(front, from, length);
    }
  }

  lemma {:induction false} LastInWindowOrLater(starts: seq<Start>, from: int, length: nat)
    requires Spaced(starts) && StartsWithin(starts, from, length) > 0
    ensures starts[|starts| - 1].time >= from
  {
    if starts[|starts| - 1].time < from {
      LastInWindowOrLater(starts[..|starts| - 1], from, length);
    }
  }

  /** No window of `length` milliseconds sees more than floor(length / 15000) + 1 starts. */
  lemma StartRateBounded(events: seq<Event>, from: int, length: nat)
    requires ClockMonotone(events)
    ensures StartsWithin(Run(INITIAL, events).starts, from, length) <= length / LEADER_ELECTION_HARD_COOLDOWN_MS + 1
  {
    StartsAreSpaced(events);
    var starts := Run(INITIAL, events).starts;
    if StartsWithin(starts, from, length) > 0 {
      WindowFills(starts, from, length);
    }
  }

  /** The module variables of the daemon. */
  class ElectionGate {
    var running: bool
    var last: int
    ghost var starts: seq<Start>
    ghost var completed: nat

    ghost function State(): Gate
      reads this
    {
      Gate(running, last, starts, completed)
    }

    constructor ()
      ensures State() == INITIAL
    {
      running, last, starts, completed := false, 0, [], 0;
    }

    method AttemptLeaderElection(force: bool, isCoordinator: bool, checkedAt: int, recordedAt: int) returns (started: bool)
      modifies this
      ensures State() == Next(old(State()), Attempt(force, isCoordinator, checkedAt, recordedAt))
      ensures started <==> Admits(old(State()), force, isCoordinator, checkedAt)
      ensures started <==> isCoordinator && !old(running) && checkedAt - old(last) >= 15000 &&
                           (force || checkedAt - old(last) >= 300000)
      ensures running == (old(running) || started) && last == if started then recordedAt else old(last)
    {
      if !isCoordinator {
        return false;
      }
      if running {
        return false;
      }
      var elapsed := checkedAt - last;
      if elapsed < LEADER_ELECTION_HARD_COOLDOWN_MS {
        return false;
      }
      if !force && elapsed < LEADER_ELECTION_INTERVAL_MS {
        return false;
      }
      last := recordedAt;
      running := true;
      starts := starts + [Start(recordedAt, force)];
      return true;
    }

    /** The promise of the running election settles. */
    method ElectionSettled()
      modifies this
      ensures State() == Next(old(State()), Complete)
    {
      if running {
        running := false;
        completed := completed + 1;
      }
    }
  }
}
