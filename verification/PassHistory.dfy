/** Whole histories of a node: configuration changes, setup runs and health passes in any interleaving
    (src/cluster/serviceDeployment.ts and src/cluster/healthManager.ts). */
module PassHistories {
  import opened Wrappers
  import opened ClusterStates
  import opened ServiceDirs
  import opened Reconciliation
  import opened SetupQueues
  import opened HealthPasses

  /** The daemon after start-up. */
  function Initial(config: ClusterState, world: World): Daemon {
    Daemon(StartedUp(config, world), None)
  }

  function FinalDaemon(generator: Generator, config: ClusterState, world: World, events: seq<Event>): Daemon {
    Reacted(generator, Initial(config, world), events)
  }

  /** The last run is over, did not throw and saw the final configuration. */
  ghost predicate PassHistory(generator: Generator, config: ClusterState, world: World, events: seq<Event>) {
    DrainedHistory(generator, config, world, QueueSteps(events))
  }

  lemma {:induction false} UsableEvents(generator: Generator, events: seq<Event>)
    requires forall i :: 0 <= i < |QueueSteps(events)| ==> StepUsable(generator, QueueSteps(events)[i])
    ensures EventsUsable(generator, events)
    decreases |events|
  {
    hide StepUsable;
    if events != [] {
      var steps, rest := QueueSteps(events), QueueSteps(events[1..]);
      if events[0].Queue? {
        assert steps[0] == events[0].step && steps[1..] == rest;
        assert forall i :: 0 <= i < |rest| ==> rest[i] == steps[i + 1];
      } else {
        assert steps == rest;
      }
      UsableEvents(generator, events[1..]);
      assert forall i :: 0 < i < |events| ==> events[i] == events[1..][i - 1];
    }
  }

  lemma UntilSplit(generator: Generator, daemon: Daemon, events: seq<Event>, at: nat, further: nat)
    requires at + further <= |events|
    ensures Until(generator, daemon, events, at + further) ==
            Until(generator, Until(generator, daemon, events, at), events[at..], further)
  {
    hide Reacted;
    assert events[..at + further] == events[..at] + events[at..][..further];
    ReactedConcat(generator, daemon, events[..at], events[at..][..further]);
  }

  lemma UntilEnd(generator: Generator, daemon: Daemon, events: seq<Event>, at: nat)
    requires at <= |events|
    ensures Reacted(generator, daemon, events) == Reacted(generator, Until(generator, daemon, events, at), events[at..])
  {
    hide Reacted;
    assert events == events[..at] + events[at..];
    ReactedConcat(generator, daemon, events[..at], events[at..]);
  }

  lemma UntilNext(generator: Generator, daemon: Daemon, events: seq<Event>, at: nat)
    requires at < |events|
    ensures Until(generator, daemon, events, at + 1) == React(generator, Until(generator, daemon, events, at), events[at])
  {
    hide React;
    UntilSplit(generator, daemon, events, at, 1);
    var now, one := Until(generator, daemon, events, at), events[at..][..1];
    assert one == [events[at]] && one[1..] == [];
    assert Reacted(generator, now, one) == Reacted(generator, React(generator, now, one[0]), one[1..]);
  }

  lemma HistoryInvariantAt(generator: Generator, config: ClusterState, world: World, events: seq<Event>, at: nat)
    requires PassHistory(generator, config, world, events) && at <= |events|
    ensures GeneratesCompose(generator) && EventsUsable(generator, events[at..])
    ensures DaemonInvariant(generator, Until(generator, Initial(config, world), events, at))
  {
    hide WorldInvariant, Usable, GeneratesCompose, StepUsable, LastRunSees, Drained;
    UsableEvents(generator, events);
    HistoryInvariant(generator, config, world, []);
    ReactedKeeps(generator, Initial(config, world), events[..at]);
  }

  /** The event behind a step of the queue. */
  lemma {:induction false} EventOf(events: seq<Event>, at: nat) returns (event: nat)
    requires at < |QueueSteps(events)|
    ensures event < |events| && events[event] == Queue(QueueSteps(events)[at])
    ensures QueueSteps(events[..event]) == QueueSteps(events)[..at]
    ensures QueueSteps(events[event + 1..]) == QueueSteps(events)[at + 1..]
    decreases |events|
  {
    hide QueueSteps;
    var steps := QueueSteps(events);
    StepsOfHead(events);
    if events[0].Queue? && at == 0 {
      event := 0;
      NoEventsNoSteps(events);
    } else {
      var before := EventOf(events[1..], if events[0].Queue? then at - 1 else at);
      event := before + 1;
      assert events[..event] == [events[0]] + events[1..][..before];
      QueueStepsConcat([events[0]], events[1..][..before]);
      assert events[event + 1..] == events[1..][before + 1..];
    }
  }

  lemma StepsOfHead(events: seq<Event>)
    requires QueueSteps(events) != []
    ensures events != []
    ensures QueueSteps([events[0]]) == if events[0].Queue? then [events[0].step] else []
    ensures QueueSteps(events) == QueueSteps([events[0]]) + QueueSteps(events[1..])
  {
  }

  lemma NoEventsNoSteps(events: seq<Event>)
    ensures QueueSteps(events[..0]) == []
  {
  }

  lemma SuffixUnchanging(events: seq<Event>, at: nat, later: nat)
    requires at <= later <= |events| && Unchanging(QueueSteps(events[at..]))
    ensures Unchanging(QueueSteps(events[later..]))
  {
    hide ChangesConfig;
    var front, back := events[at..later], events[later..];
    assert events[at..] == front + back;
    QueueStepsConcat(front, back);
    var steps, all := QueueSteps(back), QueueSteps(events[at..]);
    assert forall i :: 0 <= i < |steps| ==> steps[i] == all[|QueueSteps(front)| + i];
  }

  /** Without changes, objects and the number of runs stay as they are. */
  lemma UnchangedUntil(generator: Generator, daemon: Daemon, events: seq<Event>, at: nat)
    requires at <= |events| && Unchanging(QueueSteps(events))
    ensures var now := Until(generator, daemon, events, at).queue;
            && now.objects == daemon.queue.objects && now.current == daemon.queue.current
            && |now.runs| == |daemon.queue.runs|
            && forall i :: 0 <= i < |now.runs| ==> now.runs[i].config == daemon.queue.runs[i].config
  {
    hide Run, Reacted, ChangesConfig;
    var front, back := events[..at], events[at..];
    assert events == front + back;
    QueueStepsConcat(front, back);
    assert Unchanging(QueueSteps(front)) by {
      assert forall i :: 0 <= i < |QueueSteps(front)| ==> QueueSteps(front)[i] == QueueSteps(events)[i];
    }
    PassesKeepTheRest(generator, daemon, daemon.queue, front);
    UnchangedObjects(generator, daemon.queue, QueueSteps(front));
  }

  /** The event that starts the last run. */
  lemma LastRunEvent(generator: Generator, config: ClusterState, world: World, events: seq<Event>) returns (at: nat)
    requires PassHistory(generator, config, world, events)
    ensures var state := FinalDaemon(generator, config, world, events).queue;
            var run := |state.runs| - 1;
            && Drained(state) && at < |events| && events[at] == Queue(StartRun(run))
            && Unchanging(QueueSteps(events[at + 1..]))
            && var started := Until(generator, Initial(config, world), events, at).queue;
               && CanStart(started, run) && |started.runs| == |state.runs|
               && started.objects == state.objects && started.runs[run].config == started.current == state.current
               && started.current < |started.objects|
  {
    hide IsHistory, Run, Reacted, ChangesConfig, CanStart, LastRunSees;
    var steps := QueueSteps(events);
    var step := LastRunStart(generator, config, world, steps);
    at := EventOf(events, step);
    PassesKeepTheRest(generator, Initial(config, world), StartedUp(config, world), events);
    PassesKeepTheRest(generator, Initial(config, world), StartedUp(config, world), events[..at]);
    var started := SetupQueues.Before(generator, StartedUp(config, world), steps, step);
    SameStart(Until(generator, Initial(config, world), events, at).queue, started,
              |FinalDaemon(generator, config, world, events).queue.runs| - 1);
  }

  lemma SameStart(a: State, b: State, run: nat)
    requires SameButContainers(a, b) && CanStart(b, run)
    ensures CanStart(a, run)
  {
  }

  // Files

  /** Health passes at any time do not touch the files: the final ones are on disk exactly where the last run did not start
      on a torn directory. */
  lemma FilesConverge(generator: Generator, config: ClusterState, world: World, events: seq<Event>, dir: string)
    returns (at: nat)
    requires PassHistory(generator, config, world, events)
    requires var state := FinalDaemon(generator, config, world, events).queue;
             state.current < |state.objects| && dir in Desired(PlanOf(generator, Final(state)))
    ensures var state := FinalDaemon(generator, config, world, events).queue;
            var files := FilesFor(PlanOf(generator, Final(state)), dir);
            && state.runs != [] && at < |events| && events[at] == Queue(StartRun(|state.runs| - 1))
            && var started := Until(generator, Initial(config, world), events, at).queue;
               (Holds(At(state.world, dir).directory, files) <==> !Torn(At(started.world, dir).directory, files))
  {
    hide DrainedHistory, Run, Reacted, FilesFor, PlanOf, Desired, Holds, Torn;
    var steps := QueueSteps(events);
    PassesKeepTheRest(generator, Initial(config, world), StartedUp(config, world), events);
    var step := DrainedQueueConverges(generator, config, world, steps, dir);
    at := EventOf(events, step);
    PassesKeepTheRest(generator, Initial(config, world), StartedUp(config, world), events[..at]);
  }

  lemma WantedHasCompose(generator: Generator, config: ClusterState, world: World, events: seq<Event>, dir: string)
    requires PassHistory(generator, config, world, events)
    requires var state := FinalDaemon(generator, config, world, events).queue;
             state.current < |state.objects| && dir in Desired(PlanOf(generator, Final(state)))
    ensures HasCompose(FinalDaemon(generator, config, world, events), dir)
  {
    hide IsHistory, LastRunSees, Run, Reacted, PlanOf, Desired, AfterSetup, WorldInvariant, Usable, SlotInvariant;
    var steps := QueueSteps(events);
    PassesKeepTheRest(generator, Initial(config, world), StartedUp(config, world), events);
    var step := DrainedQueueIsSetupRun(generator, config, world, steps);
    var started := SetupQueues.Before(generator, StartedUp(config, world), steps, step);
    var plan := PlanOf(generator, Final(Run(generator, StartedUp(config, world), steps)));
    HistoryGenerates(generator, config, world, steps);
    PlanOfWellFormed(generator, Final(Run(generator, StartedUp(config, world), steps)));
    SetupRunAt(started.world, plan, dir);
    SlotOfWorld(started.world, dir);
    SlotAfterSetup(At(started.world, dir), plan, dir);
  }

  // The stop of an unwanted container

  /** The phase of a run that brings an unwanted container down. */
  function StopPhase(dir: string): Phase {
    if dir == HAPROXY then AtHaproxy else AtStopping
  }

  predicate LastPhaseIs(state: State, phase: Phase) {
    state.runs != [] && state.runs[|state.runs| - 1].phase == phase
  }

  /** Event number `at` is the step of the run `run`, the last one by then, that brings the container down. */
  predicate StopsAt(generator: Generator, daemon: Daemon, events: seq<Event>, at: nat, run: nat, dir: string) {
    && at < |events| && events[at] == Queue(Advance(run, Good))
    && var state := Until(generator, daemon, events, at).queue;
       run == |state.runs| - 1 && CanAdvance(state, run) && LastPhaseIs(state, StopPhase(dir))
  }

  /** The run is past the stop of this directory and has not thrown. */
  predicate Reached(phase: Phase, dir: string) {
    phase == Completed(true) || (dir == HAPROXY && (phase.AtListing? || phase.AtService? || phase.AtStopping?))
  }

  predicate LastReached(state: State, dir: string) {
    state.runs != [] && Reached(state.runs[|state.runs| - 1].phase, dir)
  }

  lemma ReachingStep(generator: Generator, daemon: Daemon, event: Event, dir: string)
    requires !LastReached(daemon.queue, dir) && LastReached(React(generator, daemon, event).queue, dir)
    requires daemon.queue.runs != [] && (event.Queue? ==> !ChangesConfig(event.step))
    ensures var run := |daemon.queue.runs| - 1;
            event == Queue(Advance(run, Good)) && CanAdvance(daemon.queue, run) && LastPhaseIs(daemon.queue, StopPhase(dir))
  {
    hide Done, Broken, Target, Moved, Found, Repaired;
  }

  /** The step that brings an unwanted container down is among the events. */
  lemma {:induction false} StopExists(generator: Generator, daemon: Daemon, events: seq<Event>, dir: string) returns (at: nat)
    requires daemon.queue.runs != [] && Unchanging(QueueSteps(events))
    requires !LastReached(daemon.queue, dir) && LastReached(Reacted(generator, daemon, events).queue, dir)
    ensures StopsAt(generator, daemon, events, at, |daemon.queue.runs| - 1, dir)
    decreases |events|
  {
    hide React, LastReached, ChangesConfig, CanAdvance, LastPhaseIs;
    var next := React(generator, daemon, events[0]);
    UnchangingTail(events);
    RunsStay(generator, daemon, events[0]);
    if LastReached(next.queue, dir) {
      at := 0;
      ReachingStep(generator, daemon, events[0], dir);
      assert events[..0] == [];
    } else {
      var later := StopExists(generator, next, events[1..], dir);
      at := later + 1;
      assert events[..at][0] == events[0] && events[..at][1..] == events[1..][..later];
    }
  }

  lemma RunsStay(generator: Generator, daemon: Daemon, event: Event)
    requires event.Queue? ==> !ChangesConfig(event.step)
    ensures |React(generator, daemon, event).queue.runs| == |daemon.queue.runs|
  {
  }

  /** The stop leaves no container. */
  lemma StopStep(generator: Generator, daemon: Daemon, dir: string)
    requires DaemonInvariant(generator, daemon) && LastPhaseIs(daemon.queue, StopPhase(dir))
    requires var state := daemon.queue; state.runs[|state.runs| - 1].config == state.current
    requires dir !in Desired(PlanOf(generator, daemon.queue.objects[daemon.queue.current]))
    ensures var run, config := |daemon.queue.runs| - 1, daemon.queue.objects[daemon.queue.current];
            var next := React(generator, daemon, Queue(Advance(run, Good)));
            && Settled(next.queue, config, dir) && At(next.queue.world, dir).container.None?
            && next.queue.objects == daemon.queue.objects && next.queue.current == daemon.queue.current
  {
    hide PlanOf, Usable, EntriesUsable, SlotInvariant, SetupEtcd;
    var state := daemon.queue;
    var plan := PlanOf(generator, state.objects[state.current]);
    SlotOfWorld(state.world, dir);
    if dir == HAPROXY {
      OutputOfPlan(generator, state.objects[state.current]);
    } else {
      StopRemovedAt(state.world, plan, dir);
    }
  }

  /** A configuration that does not want a container here is in force from the stop of the last run on. */
  ghost predicate StoppedAt(generator: Generator, config: ClusterState, world: World, events: seq<Event>, at: nat, dir: string)
    requires PassHistory(generator, config, world, events)
  {
    var state := FinalDaemon(generator, config, world, events).queue;
    && state.runs != [] && state.current < |state.objects| && dir !in Desired(PlanOf(generator, Final(state)))
    && StopsAt(generator, Initial(config, world), events, at, |state.runs| - 1, dir)
  }

  lemma {:induction false} BegunStays(generator: Generator, daemon: Daemon, events: seq<Event>, run: nat)
    requires Begun(daemon.queue, run)
    ensures Begun(Reacted(generator, daemon, events).queue, run)
    decreases |events|
  {
    if events != [] {
      hide React, Begun;
      BegunStays(generator, React(generator, daemon, events[0]), events[1..], run);
    }
  }

  /** The stop comes behind the start of the last run, so that no change follows it. */
  lemma StopIsLate(generator: Generator, config: ClusterState, world: World, events: seq<Event>, at: nat, dir: string)
    requires PassHistory(generator, config, world, events) && StoppedAt(generator, config, world, events, at, dir)
    ensures Unchanging(QueueSteps(events[at + 1..]))
    ensures var stopping, state :=
              Until(generator, Initial(config, world), events, at).queue, FinalDaemon(generator, config, world, events).queue;
            && stopping.objects == state.objects && stopping.current == state.current
            && stopping.runs != [] && stopping.runs[|stopping.runs| - 1].config == stopping.current
  {
    hide PassHistory, React, Reacted, ChangesConfig, PlanOf, Desired;
    var initial := Initial(config, world);
    var start := LastRunEvent(generator, config, world, events);
    var run := |FinalDaemon(generator, config, world, events).queue.runs| - 1;
    var started := Until(generator, initial, events, start);
    if at <= start {
      UntilSplit(generator, initial, events, at, start - at);
      BegunStays(generator, Until(generator, initial, events, at), events[at..][..start - at], run);
      assert false;
    }
    var begun, tail := Until(generator, initial, events, start + 1), events[start + 1..];
    SuffixUnchanging(events, start + 1, at + 1);
    UntilNext(generator, initial, events, start);
    UntilSplit(generator, initial, events, start + 1, at - start - 1);
    UnchangedUntil(generator, begun, tail, at - start - 1);
    StartStep(generator, started, run);
  }

  lemma StartStep(generator: Generator, daemon: Daemon, run: nat)
    ensures var next := React(generator, daemon, Queue(StartRun(run))).queue;
            && next.objects == daemon.queue.objects && next.current == daemon.queue.current
            && |next.runs| == |daemon.queue.runs|
            && forall i :: 0 <= i < |next.runs| ==> next.runs[i].config == daemon.queue.runs[i].config
  {
  }

  /** What follows the stop of an unwanted container. The container is gone. It stays so, whatever checks and repairs meet,
      unless a pass was under way that had still to visit the directory. With such a pass it is up again once the pass is
      over, if everything works. */
  lemma AfterStop(generator: Generator, config: ClusterState, world: World, events: seq<Event>, at: nat, dir: string)
    requires PassHistory(generator, config, world, events) && StoppedAt(generator, config, world, events, at, dir)
    ensures var stopped := Until(generator, Initial(config, world), events, at + 1);
            var final := FinalDaemon(generator, config, world, events);
            && At(stopped.queue.world, dir).container.None?
            && (!Revives(generator, stopped, dir) ==> At(final.queue.world, dir).container.None?)
            && (AllFavourable(events[at + 1..]) && final.pass.None? ==>
                  (RunningAt(final.queue.world, dir) <==> Revives(generator, stopped, dir)))
  {
    hide PassHistory, React, Reacted, ChangesConfig, PlanOf, Desired, DaemonInvariant, Settled, Favourable, GeneratesCompose,
         StepUsable, Pending, HasCompose;
    var initial, tail := Initial(config, world), events[at + 1..];
    var stopping := Until(generator, initial, events, at);
    StopIsLate(generator, config, world, events, at, dir);
    HistoryInvariantAt(generator, config, world, events, at);
    HistoryInvariantAt(generator, config, world, events, at + 1);
    StopStep(generator, stopping, dir);
    UntilNext(generator, initial, events, at);
    UntilEnd(generator, initial, events, at + 1);
    var stopped, wanted := Until(generator, initial, events, at + 1), Final(FinalDaemon(generator, config, world, events).queue);
    if !Revives(generator, stopped, dir) {
      OffStays(generator, stopped, tail, wanted, dir);
    }
    if AllFavourable(tail) {
      UnwantedComesUp(generator, stopped, tail, wanted, dir);
      RunningSlot(stopped.queue.world, dir);
      NoPassNoRevival(generator, FinalDaemon(generator, config, world, events), dir);
    }
  }

  lemma NoPassNoRevival(generator: Generator, daemon: Daemon, dir: string)
    ensures daemon.pass.None? ==> !Revives(generator, daemon, dir)
  {
  }

  // Main results

  /** A pass that begins on the drained node, and on which everything works from then on. */
  ghost predicate FreshPass(generator: Generator, config: ClusterState, world: World, events: seq<Event>, at: nat) {
    && at < |events| && events[at] == BeginPass && AllFavourable(events[at..]) && Unchanging(QueueSteps(events[at..]))
    && var daemon := Until(generator, Initial(config, world), events, at);
       daemon.pass.None? && Drained(daemon.queue)
  }

  lemma DrainedIsOver(generator: Generator, state: State)
    requires SetupInvariant(generator, state) && Drained(state)
    ensures AllOver(state)
  {
  }

  /** Once a pass that began on the drained node is over, every wanted container is up. */
  lemma WantedAreUp(generator: Generator, config: ClusterState, world: World, events: seq<Event>, at: nat, dir: string)
    requires PassHistory(generator, config, world, events) && FreshPass(generator, config, world, events, at)
    requires var final := FinalDaemon(generator, config, world, events);
             && final.pass.None? && final.queue.current < |final.queue.objects|
             && dir in Desired(PlanOf(generator, Final(final.queue)))
    ensures RunningAt(FinalDaemon(generator, config, world, events).queue.world, dir)
  {
    hide PassHistory, React, Reacted, ChangesConfig, PlanOf, Desired, Favourable, GeneratesCompose, StepUsable, RunningAt, Run,
         EntriesUsable, PassInvariant, Pending, SetupInvariant, Drained;
    var initial, tail := Initial(config, world), events[at..];
    var final, idle := FinalDaemon(generator, config, world, events), Until(generator, initial, events, at);
    HistoryInvariantAt(generator, config, world, events, at);
    HistoryInvariantAt(generator, config, world, events, at + 1);
    DrainedIsOver(generator, idle.queue);
    WantedHasCompose(generator, config, world, events, dir);
    UntilEnd(generator, initial, events, at);
    PassesKeepTheRest(generator, idle, idle.queue, tail);
    NothingLeft(generator, idle.queue, QueueSteps(tail));
    BeginComesUp(generator, idle, dir);
    UntilNext(generator, initial, events, at);
    UntilEnd(generator, initial, events, at + 1);
    SuffixUnchanging(events, at, at + 1);
    var begun := React(generator, idle, BeginPass);
    OverStep(generator, idle, BeginPass, dir);
    WantedComesUp(generator, begun, events[at + 1..], dir);
    NoPassNoRevival(generator, final, dir);
  }

  /** At the stop of the last run, a pass is under way that has still to visit the directory. */
  ghost predicate LateAt(generator: Generator, config: ClusterState, world: World, events: seq<Event>, at: nat, dir: string)
    requires PassHistory(generator, config, world, events)
  {
    && StoppedAt(generator, config, world, events, at, dir)
    && Revives(generator, Until(generator, Initial(config, world), events, at + 1), dir)
  }

  ghost predicate LatePass(generator: Generator, config: ClusterState, world: World, events: seq<Event>, dir: string)
    requires PassHistory(generator, config, world, events)
  {
    exists at: nat :: LateAt(generator, config, world, events, at, dir)
  }

  /** The last run has a stop for every unwanted directory. */
  lemma StopInHistory(generator: Generator, config: ClusterState, world: World, events: seq<Event>, dir: string)
    returns (at: nat)
    requires PassHistory(generator, config, world, events)
    requires var state := FinalDaemon(generator, config, world, events).queue;
             state.current < |state.objects| && dir !in Desired(PlanOf(generator, Final(state)))
    ensures StoppedAt(generator, config, world, events, at, dir)
  {
    hide PassHistory, React, Reacted, ChangesConfig, PlanOf, Desired, CanAdvance, LastPhaseIs;
    var initial := Initial(config, world);
    var run := |FinalDaemon(generator, config, world, events).queue.runs| - 1;
    var start := LastRunEvent(generator, config, world, events);
    var begun, tail := Until(generator, initial, events, start + 1), events[start + 1..];
    UntilNext(generator, initial, events, start);
    StartsAtEtcd(generator, Until(generator, initial, events, start), run, dir);
    UntilEnd(generator, initial, events, start + 1);
    var later := StopExists(generator, begun, tail, dir);
    at := start + 1 + later;
    UntilSplit(generator, initial, events, start + 1, later);
  }

  lemma StartsAtEtcd(generator: Generator, daemon: Daemon, run: nat, dir: string)
    requires CanStart(daemon.queue, run) && run == |daemon.queue.runs| - 1
    ensures var next := React(generator, daemon, Queue(StartRun(run))).queue;
            |next.runs| == |daemon.queue.runs| && !LastReached(next, dir)
  {
  }

  /** From `from` on everything works, and the last run starts later. */
  ghost predicate WorksFrom(generator: Generator, config: ClusterState, world: World, events: seq<Event>, from: nat) {
    && from <= |events| && AllFavourable(events[from..])
    && var runs := FinalDaemon(generator, config, world, events).queue.runs;
       runs != [] && !Begun(Until(generator, Initial(config, world), events, from).queue, |runs| - 1)
  }

  lemma StopWorks(generator: Generator, config: ClusterState, world: World, events: seq<Event>, from: nat, at: nat, dir: string)
    requires PassHistory(generator, config, world, events) && WorksFrom(generator, config, world, events, from)
    requires StoppedAt(generator, config, world, events, at, dir)
    ensures AllFavourable(events[at + 1..])
  {
    hide PassHistory, Reacted, Favourable, PlanOf, Desired;
    var initial := Initial(config, world);
    var run := |FinalDaemon(generator, config, world, events).queue.runs| - 1;
    if at < from {
      UntilSplit(generator, initial, events, at, from - at);
      BegunStays(generator, Until(generator, initial, events, at), events[at..][..from - at], run);
      assert false;
    }
  }

  /** Where everything works, an unwanted container is up in the end exactly when a pass under way at the stop of the last
      run had still to visit its directory. */
  lemma UnwantedIsUpIff(generator: Generator, config: ClusterState, world: World, events: seq<Event>, from: nat, dir: string)
    requires PassHistory(generator, config, world, events) && WorksFrom(generator, config, world, events, from)
    requires var final := FinalDaemon(generator, config, world, events);
             && final.pass.None? && final.queue.current < |final.queue.objects|
             && dir !in Desired(PlanOf(generator, Final(final.queue)))
    ensures RunningAt(FinalDaemon(generator, config, world, events).queue.world, dir) <==>
            LatePass(generator, config, world, events, dir)
  {
    hide PassHistory, WorksFrom, Reacted, AllFavourable, PlanOf, Desired, RunningAt, Revives, StoppedAt;
    var at := StopInHistory(generator, config, world, events, dir);
    StopWorks(generator, config, world, events, from, at, dir);
    AfterStop(generator, config, world, events, at, dir);
    if LatePass(generator, config, world, events, dir) {
      var late: nat :| LateAt(generator, config, world, events, late, dir);
      StopWorks(generator, config, world, events, from, late, dir);
      AfterStop(generator, config, world, events, late, dir);
    } else {
      assert !LateAt(generator, config, world, events, at, dir);
    }
  }

  /** Setup runs and health passes together: where everything works and a pass that began on the drained node is over, the
      wanted containers are up, and they are the only ones exactly when no pass under way at the stop of the last run had
      still to visit an unwanted directory. */
  lemma PassesReconcile(generator: Generator, config: ClusterState, world: World, events: seq<Event>, from: nat, at: nat)
    requires PassHistory(generator, config, world, events) && WorksFrom(generator, config, world, events, from)
    requires FreshPass(generator, config, world, events, at)
    requires var final := FinalDaemon(generator, config, world, events);
             final.pass.None? && final.queue.current < |final.queue.objects|
    ensures var final := FinalDaemon(generator, config, world, events).queue;
            var wanted := Desired(PlanOf(generator, Final(final)));
            && (forall dir :: dir in wanted ==> RunningAt(final.world, dir))
            && ((forall dir :: RunningAt(final.world, dir) <==> dir in wanted) <==>
                (forall dir :: dir !in wanted ==> !LatePass(generator, config, world, events, dir)))
  {
    hide PassHistory, WorksFrom, FreshPass, Reacted, PlanOf, Desired, RunningAt, LatePass;
    var final := FinalDaemon(generator, config, world, events).queue;
    var wanted := Desired(PlanOf(generator, Final(final)));
    forall dir | dir in wanted ensures RunningAt(final.world, dir) {
      WantedAreUp(generator, config, world, events, at, dir);
    }
    forall dir | dir !in wanted ensures RunningAt(final.world, dir) <==> LatePass(generator, config, world, events, dir) {
      UnwantedIsUpIff(generator, config, world, events, from, dir);
    }
  }

  // A late pass at work

  /** A pass that has listed a service before its removal, and checks it after the stop of the run for the removal: the
      container is up again, although nothing wants it. */
  lemma LatePassRevives(generator: Generator, daemon: Daemon, dir: string)
    requires DaemonInvariant(generator, daemon) && LastPhaseIs(daemon.queue, AtStopping)
    requires var state := daemon.queue; state.runs[|state.runs| - 1].config == state.current
    requires daemon.pass.Some? && daemon.pass.value.todo.None? && daemon.pass.value.place.AtServiceCheck?
    requires PlaceDir(daemon.pass.value.place) == Some(dir) && HasCompose(daemon, dir)
    requires dir != HAPROXY && dir !in Desired(PlanOf(generator, daemon.queue.objects[daemon.queue.current]))
    ensures var run := |daemon.queue.runs| - 1;
            var after := Reacted(generator, daemon, [Queue(Advance(run, Good)), Check(Seen), Repair(None)]);
            Drained(after.queue) && RunningAt(after.queue.world, dir)
  {
    hide PlanOf, Desired, EntriesUsable, RunningAt, Done, Repaired, Reacted, Usable, WorldInvariant, Serial, StartedInOrder;
    var run := |daemon.queue.runs| - 1;
    var stopped := React(generator, daemon, Queue(Advance(run, Good)));
    StopStep(generator, daemon, dir);
    NextHasCompose(generator, daemon.queue, Advance(run, Good), dir);
    assert Drained(stopped.queue) && stopped.pass == daemon.pass;
    ThreeEvents(generator, daemon, Queue(Advance(run, Good)), Check(Seen), Repair(None));
    CheckedAndRepaired(generator, stopped, dir);
  }

  lemma ThreeEvents(generator: Generator, daemon: Daemon, first: Event, second: Event, third: Event)
    ensures Reacted(generator, daemon, [first, second, third]) ==
            React(generator, React(generator, React(generator, daemon, first), second), third)
  {
    hide React;
    var two, one := [second, third], [third];
    assert [first, second, third][1..] == two && two[1..] == one && one[1..] == [];
    var after := React(generator, daemon, first);
    assert Reacted(generator, after, two) == Reacted(generator, React(generator, after, second), one);
    OneEvent(generator, React(generator, after, second), third);
  }

  lemma CheckedAndRepaired(generator: Generator, daemon: Daemon, dir: string)
    requires daemon.pass.Some? && daemon.pass.value.todo.None? && daemon.pass.value.place.AtServiceCheck?
    requires PlaceDir(daemon.pass.value.place) == Some(dir) && daemon.pass.value.config < |daemon.queue.objects|
    requires HasCompose(daemon, dir) && At(daemon.queue.world, dir).container.None?
    ensures var after := React(generator, React(generator, daemon, Check(Seen)), Repair(None));
            && RunningAt(after.queue.world, dir)
            && after.queue.runs == daemon.queue.runs && after.queue.objects == daemon.queue.objects
            && after.queue.current == daemon.queue.current
  {
    hide RunningAt, Repaired, Found, Moved;
    var slot := At(daemon.queue.world, dir);
    SeenMissing(slot);
    RepairedRuns(slot, MissingContainer);
    RunningSlot(React(generator, React(generator, daemon, Check(Seen)), Repair(None)).queue.world, dir);
  }

  lemma SeenMissing(slot: Slot)
    requires slot.container.None? && COMPOSE_FILE in slot.directory.files
    ensures Found(slot, Seen) == Some(MissingContainer)
  {
  }
}
