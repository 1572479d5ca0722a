/** The global queue of setup runs (`setupServices`) interleaved with configuration changes: src/cluster/
    serviceDeployment.ts together with `saveClusterConfigToDisk` and `applyClusterConfig` of src/cluster/config.ts. */
module SetupQueues {
  import opened Wrappers
  import opened Models
  import opened ClusterStates
  import opened ServiceDirs
  import opened Reconciliation

  /** How the local node generates files from a configuration; `services` lists the service entries in sorted order. */
  datatype Generator = Generator(
    isCoordinator: ClusterState -> bool,
    etcd: ClusterState -> Files,
    haproxy: ClusterState -> Files,
    services: ClusterState -> seq<(string, Service)>,
    service: (ClusterState, Service) -> Files)

  /** Every generated file set has a compose file. */
  ghost predicate GeneratesCompose(generator: Generator) {
    && (forall config :: COMPOSE_FILE in generator.etcd(config))
    && (forall config :: COMPOSE_FILE in generator.haproxy(config))
    && (forall config, service :: COMPOSE_FILE in generator.service(config, service))
  }

  /** The listing has exactly the entries of the registry, each once. */
  ghost predicate ListsAll(generator: Generator, config: ClusterState) {
    var entries := generator.services(config);
    && (forall i :: 0 <= i < |entries| ==>
          entries[i].0 in config.services && config.services[entries[i].0] == entries[i].1)
    && (forall i, j :: 0 <= i < j < |entries| ==> entries[i].0 != entries[j].0)
    && forall id :: id in config.services ==> exists i :: 0 <= i < |entries| && entries[i].0 == id
  }

  /** No service directory is one of the two static ones. */
  ghost predicate Usable(generator: Generator, config: ClusterState) {
    ListsAll(generator, config) && ETCD !in config.services && HAPROXY !in config.services
  }

  /** Well-formed service ids contain no underscore. */
  lemma WellFormedIdsUsable(generator: Generator, config: ClusterState)
    requires ListsAll(generator, config)
    requires forall id :: id in config.services ==> IsServiceId(id)
    ensures Usable(generator, config)
  {
  }

  function ServicePlan(generator: Generator, config: ClusterState): (services: seq<(string, Files)>)
    ensures |services| == |generator.services(config)|
  {
    var entries := generator.services(config);
    seq(|entries|, i requires 0 <= i < |entries| => (entries[i].0, generator.service(config, entries[i].1)))
  }

  /** What a configuration wants on this node. */
  function PlanOf(generator: Generator, config: ClusterState): Plan {
    Plan(generator.isCoordinator(config), generator.etcd(config), generator.haproxy(config), ServicePlan(generator, config))
  }

  lemma ServicePlanMeans(generator: Generator, config: ClusterState, dir: string)
    requires ListsAll(generator, config)
    ensures var services := ServicePlan(generator, config);
            && (dir in ServiceIds(services) <==> dir in config.services)
            && (dir in config.services ==> LookUp(services, dir) == generator.service(config, config.services[dir]))
  {
    var entries, services := generator.services(config), ServicePlan(generator, config);
    assert forall i :: 0 <= i < |entries| ==> services[i].0 == entries[i].0;
    if dir in config.services {
      var i :| 0 <= i < |entries| && entries[i].0 == dir;
      assert services[i].0 == dir;
      LookUpWellFormed(services, dir);
    }
  }

  /** The plan wants exactly etcd, HAProxy on the coordinator, and the services of the configuration, each with the files that
      are generated for it. */
  lemma PlanOfMeans(generator: Generator, config: ClusterState, dir: string)
    requires Usable(generator, config)
    ensures var plan := PlanOf(generator, config);
            && (dir in Desired(plan) <==>
                dir == ETCD || (dir == HAPROXY && generator.isCoordinator(config)) || dir in config.services)
            && (dir == ETCD ==> FilesFor(plan, dir) == generator.etcd(config))
            && (dir == HAPROXY && generator.isCoordinator(config) ==> FilesFor(plan, dir) == generator.haproxy(config))
            && (dir in config.services ==> FilesFor(plan, dir) == generator.service(config, config.services[dir]))
  {
    hide ListsAll, ServicePlan, ServiceIds, LookUp;
    ServicePlanMeans(generator, config, dir);
    assert |ETCD| != |HAPROXY|;
  }

  lemma PlanOfWellFormed(generator: Generator, config: ClusterState)
    requires GeneratesCompose(generator) && Usable(generator, config)
    ensures PlanWellFormed(PlanOf(generator, config))
  {
  }

  // Runs

  /** Where a run stands. Between any two phases other code may change the configuration. */
  datatype Phase =
    | Waiting
    | AtEtcd
    | AtHaproxy
    | AtListing
    | AtService(entries: seq<(string, Service)>, next: nat)
    | AtStopping
    | Completed(ok: bool)

  /** A run keeps the configuration object it was enqueued with and reads that object's present content. */
  datatype SetupRun = SetupRun(config: nat, phase: Phase)

  /** `objects` are the configuration objects created so far: the coordinator changes one object in place, a follower
      replaces its object. Run number i+1 is chained to the promise of run number i. */
  datatype State = State(objects: seq<ClusterState>, current: nat, runs: seq<SetupRun>, world: World, started: seq<nat>)

  /** Although the step throws, the containers of the directories `removed` are gone and those of `stopped` are stopped. */
  datatype Outcome = Good | Throws(failure: Failure, removed: set<string>, stopped: set<string>)

  /** A change that could not be saved has happened all the same, but enqueues no run. */
  datatype Step =
    | ChangeInPlace(config: ClusterState, saved: bool)
    | ReplaceObject(config: ClusterState, saved: bool)
    | StartRun(run: nat)
    | Advance(run: nat, outcome: Outcome)

  predicate CanStart(state: State, run: nat) {
    && run < |state.runs| && state.runs[run].phase.Waiting?
    && (run > 0 ==> state.runs[run - 1].phase.Completed?)
  }

  predicate CanAdvance(state: State, run: nat) {
    && run < |state.runs| && !state.runs[run].phase.Waiting? && !state.runs[run].phase.Completed?
    && state.runs[run].config < |state.objects|
  }

  predicate Enabled(state: State, step: Step) {
    match step
    case ChangeInPlace(_, _) => state.current < |state.objects|
    case ReplaceObject(_, _) => true
    case StartRun(run) => CanStart(state, run)
    case Advance(run, _) => CanAdvance(state, run)
  }

  /** The present phase of a run, when everything succeeds. */
  function Done(generator: Generator, config: ClusterState, phase: Phase, world: World): World {
    match phase
    case AtEtcd => SetupEtcd(world, PlanOf(generator, config))
    case AtHaproxy => SetupHaproxy(world, PlanOf(generator, config))
    case AtService(entries, next) =>
      if next >= |entries| then world
      else world[entries[next].0 :=
                   SetupSlot(At(world, entries[next].0), generator.service(config, entries[next].1), true)]
    case AtStopping => StopRemoved(world, PlanOf(generator, config))
    case _ => world
  }

  /** The directory and files that the present phase of a run writes, if any. */
  function Output(generator: Generator, config: ClusterState, phase: Phase): Option<(string, Files)> {
    match phase
    case AtEtcd => Some((ETCD, generator.etcd(config)))
    case AtHaproxy => if generator.isCoordinator(config) then Some((HAPROXY, generator.haproxy(config))) else None
    case AtService(entries, next) =>
      if next < |entries| then Some((entries[next].0, generator.service(config, entries[next].1))) else None
    case _ => None
  }

  /** The directories that the present phase may bring down. */
  function Stoppable(generator: Generator, config: ClusterState, phase: Phase, world: World): set<string> {
    match phase
    case AtHaproxy => if generator.isCoordinator(config) then {} else {HAPROXY}
    case AtStopping => set dir | dir in world && Removed(dir, PlanOf(generator, config))
    case _ => {}
  }

  function Stopped(slot: Slot): Slot {
    if slot.container.None? then slot else slot.(container := Some(slot.container.value.(status := Down)))
  }

  /** The present phase of a run, when it throws. */
  function Broken(generator: Generator, config: ClusterState, phase: Phase, world: World, failure: Failure,
                  removed: set<string>, stopped: set<string>): World {
    var output := Output(generator, config, phase);
    if output.Some? then
      var (dir, files) := output.value;
      world[dir := FailedSlot(At(world, dir), files, failure)]
    else
      var stoppable := Stoppable(generator, config, phase, world);
      map dir | dir in world ::
        if dir in removed && dir in stoppable then ComposeDown(world[dir])
        else if dir in stopped && dir in stoppable then Stopped(world[dir])
        else world[dir]
  }

  /** Where stopping removed services fails, each of their containers is gone, stopped or as it was, and nothing else has
      changed. */
  lemma FailedStopLeaves(generator: Generator, config: ClusterState, world: World, failure: Failure, removed: set<string>,
                         stopped: set<string>, dir: string)
    requires ListsAll(generator, config) && dir in world && (world[dir].container.Some? ==> COMPOSE_FILE in world[dir].directory.files)
    ensures var before := world[dir]; var after := At(Broken(generator, config, AtStopping, world, failure, removed, stopped), dir);
            && after.directory == before.directory
            && if dir in config.services || dir == ETCD || dir == HAPROXY then after == before
               else if dir in removed then after.container.None?
               else if dir in stopped && before.container.Some? then
                 after.container == Some(before.container.value.(status := Down))
               else after == before
  {
    hide ListsAll, ServicePlan, ServiceIds;
    ServicePlanMeans(generator, config, dir);
  }

  /** The same where a node that is not the coordinator fails to bring HAProxy down. */
  lemma FailedHaproxyStopLeaves(generator: Generator, config: ClusterState, world: World, failure: Failure,
                                removed: set<string>, stopped: set<string>, dir: string)
    requires !generator.isCoordinator(config) && dir in world
    requires world[dir].container.Some? ==> COMPOSE_FILE in world[dir].directory.files
    ensures var before := world[dir]; var after := At(Broken(generator, config, AtHaproxy, world, failure, removed, stopped), dir);
            && after.directory == before.directory
            && if dir != HAPROXY then after == before
               else if dir in removed then after.container.None?
               else if dir in stopped && before.container.Some? then
                 after.container == Some(before.container.value.(status := Down))
               else after == before
  {
  }

  function NextPhase(generator: Generator, config: ClusterState, phase: Phase): Phase {
    match phase
    case AtEtcd => AtHaproxy
    case AtHaproxy => AtListing
    case AtListing => AtService(generator.services(config), 0)
    case AtService(entries, next) => if next < |entries| then AtService(entries, next + 1) else AtStopping
    case AtStopping => Completed(true)
    case _ => phase
  }

  function Advanced(generator: Generator, state: State, run: nat, outcome: Outcome): State
    requires CanAdvance(state, run)
  {
    var config := state.objects[state.runs[run].config];
    var phase := state.runs[run].phase;
    match outcome
    case Good =>
      state.(world := Done(generator, config, phase, state.world),
             runs := state.runs[run := state.runs[run].(phase := NextPhase(generator, config, phase))])
    case Throws(failure, removed, stopped) =>
      state.(world := Broken(generator, config, phase, state.world, failure, removed, stopped),
             runs := state.runs[run := state.runs[run].(phase := Completed(false))])
  }

  /** Every change of the configuration that is saved enqueues a run in the same turn. */
  function Next(generator: Generator, state: State, step: Step): State {
    if !Enabled(state, step) then state else
    match step
    case ChangeInPlace(config, saved) =>
      state.(objects := state.objects[state.current := config],
             runs := state.runs + if saved then [SetupRun(state.current, Waiting)] else [])
    case ReplaceObject(config, saved) =>
      var added := |state.objects|;
      state.(objects := state.objects + [config], current := added,
             runs := state.runs + if saved then [SetupRun(added, Waiting)] else [])
    case StartRun(run) =>
      state.(runs := state.runs[run := state.runs[run].(phase := AtEtcd)], started := state.started + [run])
    case Advance(run, outcome) => Advanced(generator, state, run, outcome)
  }

  function Run(generator: Generator, state: State, steps: seq<Step>): State
    decreases |steps|
  {
    if steps == [] then state else Run(generator, Next(generator, state, steps[0]), steps[1..])
  }

  // Invariant

  /** A run has left `Waiting` only if all earlier runs are over. */
  ghost predicate Serial(runs: seq<SetupRun>) {
    forall i, j :: 0 <= i < j < |runs| && !runs[j].phase.Waiting? ==> runs[i].phase.Completed?
  }

  ghost predicate StartedInOrder(runs: seq<SetupRun>, started: seq<nat>) {
    && |started| <= |runs|
    && (forall i :: 0 <= i < |started| ==> started[i] == i && !runs[i].phase.Waiting?)
    && forall i :: |started| <= i < |runs| ==> runs[i].phase.Waiting?
  }

  ghost predicate ObjectsExist(state: State) {
    && state.current < |state.objects|
    && forall i :: 0 <= i < |state.runs| ==> state.runs[i].config < |state.objects|
  }

  ghost predicate SetupInvariant(generator: Generator, state: State) {
    && Serial(state.runs) && StartedInOrder(state.runs, state.started) && ObjectsExist(state)
    && WorldInvariant(state.world)
    && forall i :: 0 <= i < |state.objects| ==> Usable(generator, state.objects[i])
  }

  // What each step keeps

  lemma DownKeepsSlot(slot: Slot)
    requires SlotInvariant(slot)
    ensures SlotInvariant(ComposeDown(slot))
  {
  }

  lemma SetupKeepsSlot(slot: Slot, files: Files, forceRecreate: bool, failure: Failure)
    requires SlotInvariant(slot) && COMPOSE_FILE in files
    ensures SlotInvariant(SetupSlot(slot, files, forceRecreate))
    ensures SlotInvariant(SetupHaproxySlot(slot, files))
    ensures SlotInvariant(FailedSlot(slot, files, failure))
  {
  }

  lemma SlotOfWorld(world: World, dir: string)
    requires WorldInvariant(world)
    ensures SlotInvariant(At(world, dir))
  {
  }

  lemma DoneKeepsWorld(generator: Generator, config: ClusterState, phase: Phase, world: World)
    requires GeneratesCompose(generator) && WorldInvariant(world)
    ensures WorldInvariant(Done(generator, config, phase, world))
  {
    hide SlotInvariant, SetupSlot, SetupHaproxySlot, ComposeDown, Removed;
    var output := Output(generator, config, phase);
    if output.Some? {
      SlotOfWorld(world, output.value.0);
      SetupKeepsSlot(At(world, output.value.0), output.value.1, !phase.AtEtcd?, BeforeWriting);
    }
    forall dir | dir in world ensures SlotInvariant(ComposeDown(world[dir])) {
      DownKeepsSlot(world[dir]);
    }
  }

  lemma BrokenKeepsWorld(generator: Generator, config: ClusterState, phase: Phase, world: World, failure: Failure,
                         removed: set<string>, stopped: set<string>)
    requires GeneratesCompose(generator) && WorldInvariant(world)
    ensures WorldInvariant(Broken(generator, config, phase, world, failure, removed, stopped))
  {
  }

  /** A run that goes on, or throws at any point, even in the middle of writing a file, keeps what later runs rely on. */
  lemma AdvanceKeeps(generator: Generator, state: State, run: nat, outcome: Outcome)
    requires GeneratesCompose(generator) && SetupInvariant(generator, state) && CanAdvance(state, run)
    ensures SetupInvariant(generator, Advanced(generator, state, run, outcome))
  {
    hide WorldInvariant, Usable, Done, Broken, GeneratesCompose;
    var config, phase := state.objects[state.runs[run].config], state.runs[run].phase;
    match outcome
    case Good => DoneKeepsWorld(generator, config, phase, state.world);
    case Throws(failure, removed, stopped) => BrokenKeepsWorld(generator, config, phase, state.world, failure, removed, stopped);
  }

  ghost predicate StepUsable(generator: Generator, step: Step) {
    match step
    case ChangeInPlace(config, _) => Usable(generator, config)
    case ReplaceObject(config, _) => Usable(generator, config)
    case _ => true
  }

  lemma NextKeeps(generator: Generator, state: State, step: Step)
    requires GeneratesCompose(generator) && SetupInvariant(generator, state) && StepUsable(generator, step)
    ensures SetupInvariant(generator, Next(generator, state, step))
  {
    hide Usable, WorldInvariant, Advanced, GeneratesCompose;
    if Enabled(state, step) && step.Advance? {
      AdvanceKeeps(generator, state, step.run, step.outcome);
    }
  }

  lemma {:induction false} RunKeeps(generator: Generator, state: State, steps: seq<Step>)
    requires GeneratesCompose(generator) && SetupInvariant(generator, state)
    requires forall i :: 0 <= i < |steps| ==> StepUsable(generator, steps[i])
    ensures SetupInvariant(generator, Run(generator, state, steps))
    decreases |steps|
  {
    hide SetupInvariant, StepUsable, Next, GeneratesCompose;
    if steps != [] {
      NextKeeps(generator, state, steps[0]);
      RunKeeps(generator, Next(generator, state, steps[0]), steps[1..]);
    }
  }

  // Order and progress

  /** The daemon after start-up: one object, whose first setup run is enqueued, and whatever the node holds. */
  function StartedUp(config: ClusterState, world: World): State {
    State([config], 0, [SetupRun(0, Waiting)], world, [])
  }

  ghost predicate IsHistory(generator: Generator, config: ClusterState, world: World, steps: seq<Step>) {
    && GeneratesCompose(generator) && Usable(generator, config) && WorldInvariant(world)
    && forall i :: 0 <= i < |steps| ==> StepUsable(generator, steps[i])
  }

  predicate Active(state: State, run: nat) {
    run < |state.runs| && !state.runs[run].phase.Waiting? && !state.runs[run].phase.Completed?
  }

  lemma HistoryInvariant(generator: Generator, config: ClusterState, world: World, steps: seq<Step>)
    requires IsHistory(generator, config, world, steps)
    ensures SetupInvariant(generator, Run(generator, StartedUp(config, world), steps))
  {
    hide Usable, WorldInvariant, GeneratesCompose, StepUsable;
    RunKeeps(generator, StartedUp(config, world), steps);
  }

  /** Setup runs never overlap and start in the order in which they were enqueued, each once. */
  lemma RunsAreSerial(generator: Generator, config: ClusterState, world: World, steps: seq<Step>)
    requires IsHistory(generator, config, world, steps)
    ensures var state := Run(generator, StartedUp(config, world), steps);
            && (forall i, j :: Active(state, i) && Active(state, j) ==> i == j)
            && forall i :: 0 <= i < |state.started| ==> state.started[i] == i
  {
    hide IsHistory, WorldInvariant, Usable;
    HistoryInvariant(generator, config, world, steps);
  }

  predicate ChangesConfig(step: Step) {
    step.ChangeInPlace? || step.ReplaceObject?
  }

  predicate Unchanging(steps: seq<Step>) {
    forall i :: 0 <= i < |steps| ==> !ChangesConfig(steps[i])
  }

  /** No deadlock: while a run is not over, some run can start or go on, whatever failed before. */
  lemma {:induction false} SomeRunEnabled(generator: Generator, state: State, run: nat) returns (step: Step)
    requires SetupInvariant(generator, state) && run < |state.runs| && !state.runs[run].phase.Completed?
    ensures Enabled(state, step) && !ChangesConfig(step)
  {
    hide WorldInvariant, Usable;
    if !state.runs[run].phase.Waiting? {
      step := Advance(run, Good);
    } else if run == 0 || state.runs[run - 1].phase.Completed? {
      step := StartRun(run);
    } else {
      step := SomeRunEnabled(generator, state, run - 1);
    }
  }

  lemma FirstNotStarted(runs: seq<SetupRun>, started: seq<nat>)
    requires StartedInOrder(runs, started)
    ensures |started| < |runs| ==> runs[|started|].phase.Waiting?
  {
  }

  /** No lost run: when nothing but changing the configuration is possible, every enqueued run has started, in order, and
      is over. */
  lemma QuiescentMeansAllSetUp(generator: Generator, config: ClusterState, world: World, steps: seq<Step>)
    requires IsHistory(generator, config, world, steps)
    requires forall step :: Enabled(Run(generator, StartedUp(config, world), steps), step) ==> ChangesConfig(step)
    ensures var state := Run(generator, StartedUp(config, world), steps);
            && |state.started| == |state.runs|
            && (forall i :: 0 <= i < |state.runs| ==> state.started[i] == i && state.runs[i].phase.Completed?)
  {
    hide IsHistory, WorldInvariant, Usable, Enabled;
    HistoryInvariant(generator, config, world, steps);
    var state := Run(generator, StartedUp(config, world), steps);
    forall run | 0 <= run < |state.runs| ensures state.runs[run].phase.Completed? {
      if !state.runs[run].phase.Completed? {
        var step := SomeRunEnabled(generator, state, run);
      }
    }
    FirstNotStarted(state.runs, state.started);
  }

  /** How far a run is from its end: the phases left, and within the services those left. */
  function PhasesLeft(phase: Phase): (nat, nat) {
    match phase
    case Waiting => (6, 0)
    case AtEtcd => (5, 0)
    case AtHaproxy => (4, 0)
    case AtListing => (3, 0)
    case AtService(entries, next) => (2, if next < |entries| then |entries| - next else 0)
    case AtStopping => (1, 0)
    case Completed(_) => (0, 0)
  }

  /** Every step of a run brings it closer to its end, so a run is never started twice and always ends. */
  lemma StepBringsCloser(generator: Generator, state: State, step: Step)
    requires Enabled(state, step) && !ChangesConfig(step)
    ensures var before, after := state.runs[step.run].phase, Next(generator, state, step).runs[step.run].phase;
            || PhasesLeft(after).0 < PhasesLeft(before).0
            || (PhasesLeft(after).0 == PhasesLeft(before).0 && PhasesLeft(after).1 < PhasesLeft(before).1)
  {
    hide Done, Broken;
  }

  // The last run

  lemma {:induction false} RunConcat(generator: Generator, state: State, first: seq<Step>, second: seq<Step>)
    ensures Run(generator, state, first + second) == Run(generator, Run(generator, state, first), second)
    decreases |first|
  {
    hide Next;
    if first == [] {
      assert first + second == second;
    } else {
      assert (first + second)[0] == first[0] && (first + second)[1..] == first[1..] + second;
      RunConcat(generator, Next(generator, state, first[0]), first[1..], second);
    }
  }

  predicate Begun(state: State, run: nat) {
    run < |state.runs| && !state.runs[run].phase.Waiting?
  }

  /** The state before step number `at`. */
  function Before(generator: Generator, state: State, steps: seq<Step>, at: nat): State
    requires at <= |steps|
  {
    Run(generator, state, steps[..at])
  }

  /** A run that has begun was begun by some step. */
  lemma {:induction false} BegunBy(generator: Generator, state: State, steps: seq<Step>, run: nat) returns (at: nat)
    requires !Begun(state, run) && Begun(Run(generator, state, steps), run)
    ensures at < |steps| && steps[at] == StartRun(run) && CanStart(Before(generator, state, steps, at), run)
    decreases |steps|
  {
    hide Next, CanStart;
    assert steps != [];
    var front, last := steps[..|steps| - 1], steps[|steps| - 1];
    assert steps == front + [last];
    RunConcat(generator, state, front, [last]);
    var before := Run(generator, state, front);
    assert Run(generator, before, [last]) == Next(generator, before, last) by {
      assert [last][1..] == [];
    }
    if Begun(before, run) {
      at := BegunBy(generator, state, front, run);
      assert front[..at] == steps[..at];
    } else {
      at := |front|;
      assert steps[..at] == front;
      BeginningStep(generator, before, last, run);
    }
  }

  lemma BeginningStep(generator: Generator, state: State, step: Step, run: nat)
    requires !Begun(state, run) && Begun(Next(generator, state, step), run)
    ensures step == StartRun(run) && CanStart(state, run)
  {
  }

  /** What a run that started on `start` and has met no failure has made of the world. */
  ghost predicate InProgress(generator: Generator, config: ClusterState, start: World, world: World, phase: Phase) {
    var plan := PlanOf(generator, config);
    match phase
    case Waiting => false
    case AtEtcd => world == start
    case AtHaproxy => world == SetupEtcd(start, plan)
    case AtListing => world == StaticSetup(start, plan)
    case AtService(entries, next) =>
      && entries == generator.services(config) && next <= |entries|
      && world == SetupEach(StaticSetup(start, plan), plan.services[..next])
    case AtStopping => world == SetupEach(StaticSetup(start, plan), plan.services)
    case Completed(ok) => ok ==> world == Reconciliation.SetupRun(start, plan)
  }

  lemma DoneProgresses(generator: Generator, config: ClusterState, start: World, world: World, phase: Phase)
    requires InProgress(generator, config, start, world, phase) && !phase.Completed?
    ensures InProgress(generator, config, start, Done(generator, config, phase, world), NextPhase(generator, config, phase))
  {
    hide SetupSlot, SetupHaproxy, SetupEtcd, StopRemoved;
    var services := ServicePlan(generator, config);
    match phase
    case AtService(entries, next) =>
      if next < |entries| {
        assert services[..next + 1][..next] == services[..next];
      } else {
        assert services[..next] == services;
      }
    case _ =>
  }

  /** The last run is in progress for the configuration in force. */
  ghost predicate Tracks(generator: Generator, start: World, state: State, run: nat) {
    && Begun(state, run) && run == |state.runs| - 1
    && state.runs[run].config == state.current < |state.objects|
    && InProgress(generator, state.objects[state.current], start, state.world, state.runs[run].phase)
  }

  lemma NextTracks(generator: Generator, start: World, state: State, run: nat, step: Step)
    requires SetupInvariant(generator, state) && Tracks(generator, start, state, run) && !ChangesConfig(step)
    ensures Tracks(generator, start, Next(generator, state, step), run)
  {
    hide WorldInvariant, Usable, Done, Broken, InProgress;
    if Enabled(state, step) && step.Advance? && step.run == run {
      var config, phase := state.objects[state.current], state.runs[run].phase;
      match step.outcome
      case Good => DoneProgresses(generator, config, start, state.world, phase);
      case Throws(failure, removed, stopped) =>
        FailedRun(generator, config, start, Broken(generator, config, phase, state.world, failure, removed, stopped));
    }
  }

  lemma FailedRun(generator: Generator, config: ClusterState, start: World, world: World)
    ensures InProgress(generator, config, start, world, Completed(false))
  {
  }

  lemma {:induction false} RunTracks(generator: Generator, start: World, state: State, run: nat, steps: seq<Step>)
    requires GeneratesCompose(generator) && SetupInvariant(generator, state) && Tracks(generator, start, state, run)
    requires Unchanging(steps) && forall i :: 0 <= i < |steps| ==> StepUsable(generator, steps[i])
    ensures Tracks(generator, start, Run(generator, state, steps), run)
    decreases |steps|
  {
    hide SetupInvariant, StepUsable, Next, GeneratesCompose, Tracks, ChangesConfig;
    if steps != [] {
      NextTracks(generator, start, state, run, steps[0]);
      NextKeeps(generator, state, steps[0]);
      RunTracks(generator, start, Next(generator, state, steps[0]), run, steps[1..]);
    }
  }

  lemma StartTracks(generator: Generator, state: State, run: nat)
    requires SetupInvariant(generator, state) && CanStart(state, run)
    requires run == |state.runs| - 1 && state.runs[run].config == state.current
    ensures Tracks(generator, state.world, Next(generator, state, StartRun(run)), run)
  {
  }

  /** The last run is over and did not throw. */
  predicate Drained(state: State) {
    state.runs != [] && state.runs[|state.runs| - 1].phase == Completed(true) && state.current < |state.objects|
  }

  /** The configuration that is in force. */
  function Final(state: State): ClusterState
    requires state.current < |state.objects|
  {
    state.objects[state.current]
  }

  /** Step number `at` starts the run. */
  predicate Starts(generator: Generator, state: State, steps: seq<Step>, at: nat, run: nat)
    requires at < |steps|
  {
    steps[at] == StartRun(run) && CanStart(Before(generator, state, steps, at), run)
  }

  predicate NoChangeBehind(steps: seq<Step>, at: nat)
    requires at < |steps|
  {
    Unchanging(steps[at + 1..])
  }

  /** The last run is for the object in force, and no change came after it had started. */
  ghost predicate LastRunSees(generator: Generator, state: State, steps: seq<Step>) {
    var runs := Run(generator, state, steps).runs;
    && runs != [] && runs[|runs| - 1].config == Run(generator, state, steps).current
    && forall i :: 0 <= i < |steps| && Starts(generator, state, steps, i, |runs| - 1) ==> NoChangeBehind(steps, i)
  }

  ghost predicate DrainedHistory(generator: Generator, config: ClusterState, world: World, steps: seq<Step>) {
    && IsHistory(generator, config, world, steps)
    && Drained(Run(generator, StartedUp(config, world), steps))
    && LastRunSees(generator, StartedUp(config, world), steps)
  }

  /** No step that is not a change touches objects or adds runs. */
  lemma {:induction false} UnchangedObjects(generator: Generator, state: State, steps: seq<Step>)
    requires Unchanging(steps)
    ensures var after := Run(generator, state, steps);
            && after.objects == state.objects && after.current == state.current && |after.runs| == |state.runs|
            && forall i :: 0 <= i < |state.runs| ==> after.runs[i].config == state.runs[i].config
    decreases |steps|
  {
    if steps != [] {
      UnchangedByStep(generator, state, steps[0]);
      hide Next;
      UnchangedObjects(generator, Next(generator, state, steps[0]), steps[1..]);
    }
  }

  lemma StartChangesNothing(run: nat)
    ensures !ChangesConfig(StartRun(run))
  {
  }

  lemma UnchangedByStep(generator: Generator, state: State, step: Step)
    requires !ChangesConfig(step)
    ensures var after := Next(generator, state, step);
            && after.objects == state.objects && after.current == state.current && |after.runs| == |state.runs|
            && forall i :: 0 <= i < |state.runs| ==> after.runs[i].config == state.runs[i].config
  {
  }

  /** Where the last run started: from there on the configuration in force is the final one. */
  lemma LastRunStart(generator: Generator, config: ClusterState, world: World, steps: seq<Step>) returns (at: nat)
    requires DrainedHistory(generator, config, world, steps)
    ensures var state := Run(generator, StartedUp(config, world), steps);
            var run := |state.runs| - 1;
            && at < |steps| && Starts(generator, StartedUp(config, world), steps, at, run) && NoChangeBehind(steps, at)
            && var started := Before(generator, StartedUp(config, world), steps, at);
               && SetupInvariant(generator, started) && |started.runs| == |state.runs|
               && started.objects == state.objects && started.runs[run].config == started.current == state.current
               && state == Run(generator, Next(generator, started, StartRun(run)), steps[at + 1..])
  {
    hide WorldInvariant, Usable, GeneratesCompose, StepUsable, Next, CanStart, ChangesConfig, Serial, StartedInOrder;
    var initial := StartedUp(config, world);
    var state := Run(generator, initial, steps);
    var run := |state.runs| - 1;
    at := BegunBy(generator, initial, steps, run);
    var back := steps[at + 1..];
    var started := Before(generator, initial, steps, at);
    HistoryInvariant(generator, config, world, steps[..at]);
    assert steps == steps[..at] + steps[at..] && steps[at..][0] == steps[at] && steps[at..][1..] == back;
    RunConcat(generator, initial, steps[..at], steps[at..]);
    assert Starts(generator, initial, steps, at, run) && NoChangeBehind(steps, at);
    StartChangesNothing(run);
    UnchangedByStep(generator, started, StartRun(run));
    UnchangedObjects(generator, Next(generator, started, StartRun(run)), back);
  }

  /** Once the queue is drained and the last run, which did not throw, saw the final configuration, the node is in the state
      that one undisturbed setup run with this configuration makes of the state in which the last run was started, no matter
      how changes, replaced objects and runs that failed anywhere were interleaved before. */
  lemma DrainedQueueIsSetupRun(generator: Generator, config: ClusterState, world: World, steps: seq<Step>) returns (at: nat)
    requires DrainedHistory(generator, config, world, steps)
    ensures var state := Run(generator, StartedUp(config, world), steps);
            && at < |steps| && Starts(generator, StartedUp(config, world), steps, at, |state.runs| - 1)
            && var started := Before(generator, StartedUp(config, world), steps, at);
               && WorldInvariant(started.world)
               && state.world == Reconciliation.SetupRun(started.world, PlanOf(generator, Final(state)))
    ensures Usable(generator, Final(Run(generator, StartedUp(config, world), steps)))
  {
    hide WorldInvariant, Usable, GeneratesCompose, StepUsable, Next, InProgress, CanStart, ChangesConfig;
    var state := Run(generator, StartedUp(config, world), steps);
    var run := |state.runs| - 1;
    HistoryInvariant(generator, config, world, steps);
    at := LastRunStart(generator, config, world, steps);
    var started := Before(generator, StartedUp(config, world), steps, at);
    StartTracks(generator, started, run);
    NextKeeps(generator, started, StartRun(run));
    RunTracks(generator, started.world, Next(generator, started, StartRun(run)), run, steps[at + 1..]);
    CompletedRun(generator, Final(state), started.world, state.world);
  }

  lemma CompletedRun(generator: Generator, config: ClusterState, start: World, world: World)
    requires InProgress(generator, config, start, world, Completed(true))
    ensures world == Reconciliation.SetupRun(start, PlanOf(generator, config))
  {
  }

  // Changes that could not be saved

  predicate IsSaved(step: Step) {
    ChangesConfig(step) ==> step.saved
  }

  ghost predicate LastIsCurrent(state: State) {
    state.current < |state.objects| && state.runs != [] && state.runs[|state.runs| - 1].config == state.current
  }

  lemma {:induction false} SavedKeepsLast(generator: Generator, state: State, steps: seq<Step>)
    requires LastIsCurrent(state) && forall i :: 0 <= i < |steps| ==> IsSaved(steps[i])
    ensures LastIsCurrent(Run(generator, state, steps))
    decreases |steps|
  {
    if steps != [] {
      hide Done, Broken;
      assert LastIsCurrent(Next(generator, state, steps[0]));
      hide Next, LastIsCurrent, IsSaved;
      SavedKeepsLast(generator, Next(generator, state, steps[0]), steps[1..]);
    }
  }

  lemma {:induction false} RunsGrow(generator: Generator, state: State, steps: seq<Step>)
    ensures |Run(generator, state, steps).runs| >= |state.runs|
    decreases |steps|
  {
    if steps != [] {
      assert |Next(generator, state, steps[0]).runs| >= |state.runs| by {
        hide Done, Broken;
      }
      hide Next;
      RunsGrow(generator, Next(generator, state, steps[0]), steps[1..]);
    }
  }

  lemma SavedChangeAddsRun(generator: Generator, state: State, steps: seq<Step>, at: nat)
    requires at < |steps| && ChangesConfig(steps[at]) && IsSaved(steps[at])
    requires Enabled(Before(generator, state, steps, at), steps[at])
    ensures |Run(generator, state, steps).runs| > |Before(generator, state, steps, at).runs|
  {
    var before := Before(generator, state, steps, at);
    assert |Next(generator, before, steps[at]).runs| > |before.runs| by {
      hide Run;
    }
    hide Next;
    assert steps == steps[..at] + steps[at..] && steps[at..][0] == steps[at];
    RunConcat(generator, state, steps[..at], steps[at..]);
    RunsGrow(generator, Next(generator, before, steps[at]), steps[at..][1..]);
  }

  lemma BeforeGrows(generator: Generator, state: State, steps: seq<Step>, at: nat, later: nat)
    requires at <= later <= |steps|
    ensures |Before(generator, state, steps, later).runs| >= |Before(generator, state, steps, at).runs|
  {
    hide Run;
    assert steps[..later] == steps[..at] + steps[at..later];
    RunConcat(generator, state, steps[..at], steps[at..later]);
    RunsGrow(generator, Before(generator, state, steps, at), steps[at..later]);
  }

  /** When every change could be saved, the last run sees the final configuration. */
  lemma SavedChangesAreSeen(generator: Generator, config: ClusterState, world: World, steps: seq<Step>)
    requires IsHistory(generator, config, world, steps)
    requires forall i :: 0 <= i < |steps| ==> IsSaved(steps[i])
    ensures LastRunSees(generator, StartedUp(config, world), steps)
  {
    hide Run, WorldInvariant, Usable, GeneratesCompose, StepUsable, IsSaved, ChangesConfig, Next;
    var initial := StartedUp(config, world);
    var runs := Run(generator, initial, steps).runs;
    SavedKeepsLast(generator, initial, steps);
    forall i | 0 <= i < |steps| && Starts(generator, initial, steps, i, |runs| - 1) ensures NoChangeBehind(steps, i) {
      var behind := steps[i + 1..];
      forall k | 0 <= k < |behind| ensures !ChangesConfig(behind[k]) {
        var j := i + 1 + k;
        if ChangesConfig(steps[j]) {
          BeforeGrows(generator, initial, steps, i, j);
          RunKeeps(generator, initial, steps[..j]);
          ChangesEnabled(generator, Before(generator, initial, steps, j), steps[j]);
          SavedChangeAddsRun(generator, initial, steps, j);
        }
      }
    }
  }

  lemma ChangesEnabled(generator: Generator, state: State, step: Step)
    requires SetupInvariant(generator, state) && ChangesConfig(step)
    ensures Enabled(state, step)
  {
  }

  /** A change that could not be saved is not set up: nothing happens on a drained node until the next change. */
  lemma UnsavedChangeWaits(generator: Generator, state: State, change: Step, steps: seq<Step>)
    requires SetupInvariant(generator, state) && Drained(state) && !IsSaved(change)
    requires Unchanging(steps)
    ensures Run(generator, Next(generator, state, change), steps) == Next(generator, state, change)
    ensures Next(generator, state, change).world == state.world
    ensures change.ReplaceObject? ==> !LastIsCurrent(Next(generator, state, change))
  {
    hide WorldInvariant, Usable, Run;
    var changed := Next(generator, state, change);
    assert forall i :: 0 <= i < |changed.runs| ==> changed.runs[i].phase.Completed?;
    NothingLeft(generator, changed, steps);
  }

  lemma {:induction false} NothingLeft(generator: Generator, state: State, steps: seq<Step>)
    requires forall i :: 0 <= i < |state.runs| ==> state.runs[i].phase.Completed?
    requires Unchanging(steps)
    ensures Run(generator, state, steps) == state
    decreases |steps|
  {
    if steps != [] {
      assert !Enabled(state, steps[0]);
      NothingLeft(generator, state, steps[1..]);
    }
  }

  // Main results

  /** The final files are on disk, directory by directory, exactly where the last run did not start on a torn directory: one
      whose hash file claims the files about to be generated while another content is on disk. */
  lemma DrainedQueueConverges(generator: Generator, config: ClusterState, world: World, steps: seq<Step>, dir: string)
    returns (at: nat)
    requires DrainedHistory(generator, config, world, steps)
    requires dir in Desired(PlanOf(generator, Final(Run(generator, StartedUp(config, world), steps))))
    ensures var state := Run(generator, StartedUp(config, world), steps);
            var files := FilesFor(PlanOf(generator, Final(state)), dir);
            && at < |steps| && Starts(generator, StartedUp(config, world), steps, at, |state.runs| - 1)
            && var started := Before(generator, StartedUp(config, world), steps, at);
               (Holds(At(state.world, dir).directory, files) <==> !Torn(At(started.world, dir).directory, files))
  {
    hide IsHistory, Next, WorldInvariant, Usable, PlanOf, AfterSetup, FilesFor, Holds, Torn, Desired;
    at := DrainedQueueIsSetupRun(generator, config, world, steps);
    var state := Run(generator, StartedUp(config, world), steps);
    var started := Before(generator, StartedUp(config, world), steps, at);
    var plan := PlanOf(generator, Final(state));
    HistoryGenerates(generator, config, world, steps);
    PlanOfWellFormed(generator, Final(state));
    SetupRunAt(started.world, plan, dir);
    SlotOfWorld(started.world, dir);
    SlotAfterSetup(At(started.world, dir), plan, dir);
    WrittenHolds(At(started.world, dir).directory, FilesFor(plan, dir));
  }

  lemma HistoryGenerates(generator: Generator, config: ClusterState, world: World, steps: seq<Step>)
    requires IsHistory(generator, config, world, steps)
    ensures GeneratesCompose(generator)
  {
  }

  /** Once the queue is drained, and without any health pass: nothing unwanted exists, and a wanted container is up exactly when
      it was up when the last run started and its hash matched, or its hash differed and it was not sick in a way that the run
      leaves alone. */
  lemma DrainedQueueContainers(generator: Generator, config: ClusterState, world: World, steps: seq<Step>, dir: string)
    returns (at: nat)
    requires DrainedHistory(generator, config, world, steps)
    ensures var state := Run(generator, StartedUp(config, world), steps);
            var plan := PlanOf(generator, Final(state));
            && at < |steps| && Starts(generator, StartedUp(config, world), steps, at, |state.runs| - 1)
            && var before := At(Before(generator, StartedUp(config, world), steps, at).world, dir);
               && (dir !in Desired(plan) ==> At(state.world, dir).container.None?)
               && (dir in Desired(plan) ==>
                     (RunningAt(state.world, dir) <==> UpAfterSetup(before, FilesFor(plan, dir), dir)))
  {
    hide IsHistory, Next, WorldInvariant, Usable, PlanOf, FilesFor, Desired, UpAfterSetup, RunningAt, Outdated, SetUpAnew;
    at := DrainedQueueIsSetupRun(generator, config, world, steps);
    var state := Run(generator, StartedUp(config, world), steps);
    var started := Before(generator, StartedUp(config, world), steps, at);
    var plan := PlanOf(generator, Final(state));
    HistoryGenerates(generator, config, world, steps);
    PlanOfWellFormed(generator, Final(state));
    SetupRunLeaves(started.world, plan, dir);
    if dir in Desired(plan) {
      UpAfterSetupRun(started.world, plan, dir);
    }
  }

  /** What a change does: the configuration in force is the given one at once, and exactly a saved change chains one waiting
      run for it to the queue. */
  lemma ChangeTakesEffect(generator: Generator, state: State, step: Step)
    requires SetupInvariant(generator, state) && ChangesConfig(step)
    ensures var next := Next(generator, state, step);
            && next.current < |next.objects| && Final(next) == step.config
            && next.world == state.world && next.started == state.started
            && next.runs == state.runs + (if step.saved then [SetupRun(next.current, Waiting)] else [])
            && (step.ChangeInPlace? ==> next.current == state.current && |next.objects| == |state.objects|)
            && (step.ReplaceObject? ==> next.current == |state.objects|)
            && forall i :: 0 <= i < |state.objects| && i != next.current ==> next.objects[i] == state.objects[i]
  {
    hide WorldInvariant, Usable, Serial, StartedInOrder;
  }

  /** Once the queue is drained, a health pass leaves exactly the containers of the final configuration, each of them up.
      A container runs the files of its directory exactly when it was not stale when the last run was started. */
  lemma DrainedQueueReconciles(generator: Generator, config: ClusterState, world: World, steps: seq<Step>, dir: string)
    returns (at: nat)
    requires DrainedHistory(generator, config, world, steps)
    ensures var state := Run(generator, StartedUp(config, world), steps);
            var plan := PlanOf(generator, Final(state));
            var after := HealthPass(state.world, plan);
            && at < |steps| && Starts(generator, StartedUp(config, world), steps, at, |state.runs| - 1)
            && (RunningAt(after, dir) <==> dir in Desired(plan))
            && (dir in after && after[dir].container.Some? ==> dir in Desired(plan))
            && var started := Before(generator, StartedUp(config, world), steps, at);
               dir in Desired(plan) ==>
                 && At(after, dir).container.Some?
                 && (Runs(At(after, dir).container.value, At(after, dir).directory.files) <==>
                     !StaysStale(At(started.world, dir), plan, dir))
  {
    hide IsHistory, Next, WorldInvariant, Usable, PlanOf, FilesFor, Holds, Torn, Desired, StaysStale, HealthPass, Runs;
    at := DrainedQueueIsSetupRun(generator, config, world, steps);
    var state := Run(generator, StartedUp(config, world), steps);
    var started := Before(generator, StartedUp(config, world), steps, at);
    var plan := PlanOf(generator, Final(state));
    HistoryGenerates(generator, config, world, steps);
    PlanOfWellFormed(generator, Final(state));
    assert Reconciled(started.world, plan) == HealthPass(state.world, plan);
    ReconcilesToPlan(started.world, plan, dir);
    if dir in Desired(plan) {
      FreshUnlessStaleUnnoticed(started.world, plan, dir);
    }
  }

  // Histories without torn writes

  ghost predicate TruthfulWorld(world: World) {
    forall dir :: dir in world ==> HashTruthful(world[dir].directory)
  }

  /** The step does not throw between the writing of files and that of the hash file, or loses the hash file, too. */
  predicate WritesWhole(step: Step) {
    step.Advance? && step.outcome.Throws? && step.outcome.failure.WhileWriting? ==> step.outcome.failure.hashLost
  }

  lemma WrittenTruthful(directory: Directory, files: Files, written: Files)
    requires HashTruthful(directory)
    ensures HashTruthful(Written(directory, files)) && HashTruthful(PartlyWritten(directory, files, written, true))
  {
  }

  lemma NextKeepsTruth(generator: Generator, state: State, step: Step)
    requires TruthfulWorld(state.world) && WritesWhole(step)
    ensures TruthfulWorld(Next(generator, state, step).world)
  {
    hide HashTruthful, Written, PartlyWritten, Removed, PlanOf, Stoppable, UpToDate;
    if Enabled(state, step) && step.Advance? {
      var config, phase := state.objects[state.runs[step.run].config], state.runs[step.run].phase;
      var output := Output(generator, config, phase);
      EmptyTruthful();
      if output.Some? {
        var (dir, files) := output.value;
        WrittenTruthful(At(state.world, dir).directory, files,
                        if step.outcome.Throws? && step.outcome.failure.WhileWriting? then step.outcome.failure.written else map[]);
      }
      OutputOfPlan(generator, config);
    }
  }

  lemma EmptyTruthful()
    ensures HashTruthful(EMPTY_DIRECTORY)
  {
  }

  lemma OutputOfPlan(generator: Generator, config: ClusterState)
    ensures var plan := PlanOf(generator, config);
            && plan.isCoordinator == generator.isCoordinator(config)
            && plan.etcd == generator.etcd(config) && plan.haproxy == generator.haproxy(config)
  {
  }

  lemma {:induction false} RunKeepsTruth(generator: Generator, state: State, steps: seq<Step>)
    requires TruthfulWorld(state.world) && forall i :: 0 <= i < |steps| ==> WritesWhole(steps[i])
    ensures TruthfulWorld(Run(generator, state, steps).world)
    decreases |steps|
  {
    hide TruthfulWorld, WritesWhole, Next;
    if steps != [] {
      NextKeepsTruth(generator, state, steps[0]);
      RunKeepsTruth(generator, Next(generator, state, steps[0]), steps[1..]);
    }
  }

  /** Without a torn write the final configuration always ends up on disk. */
  lemma WholeWritesConverge(generator: Generator, config: ClusterState, world: World, steps: seq<Step>, dir: string)
    requires DrainedHistory(generator, config, world, steps)
    requires TruthfulWorld(world) && forall i :: 0 <= i < |steps| ==> WritesWhole(steps[i])
    requires dir in Desired(PlanOf(generator, Final(Run(generator, StartedUp(config, world), steps))))
    ensures var state := Run(generator, StartedUp(config, world), steps);
            Holds(At(state.world, dir).directory, FilesFor(PlanOf(generator, Final(state)), dir))
  {
    hide IsHistory, Next, PlanOf, FilesFor, Desired, WritesWhole;
    var at := DrainedQueueConverges(generator, config, world, steps, dir);
    RunKeepsTruth(generator, StartedUp(config, world), steps[..at]);
    EmptyTruthful();
  }

  // Failing commands

  /** A run whose `up` fails after a service's files were written leaves a container that ran the old files stale
      unnoticed, exactly when that container keeps running and the new files differ from what the directory held. */
  lemma FailedStepLeavesStale(generator: Generator, state: State, run: nat, left: Leftover)
    requires GeneratesCompose(generator) && SetupInvariant(generator, state) && CanAdvance(state, run)
    requires state.runs[run].phase.AtService? && state.runs[run].phase.next < |state.runs[run].phase.entries|
    requires var (id, service) := state.runs[run].phase.entries[state.runs[run].phase.next];
             var slot, files := At(state.world, id), generator.service(state.objects[state.runs[run].config], service);
             && !UpToDate(slot.directory, files) && slot.container.Some? && slot.container.value.status.Up?
             && Runs(slot.container.value, slot.directory.files)
    ensures var (id, service) := state.runs[run].phase.entries[state.runs[run].phase.next];
            var slot, files := At(state.world, id), generator.service(state.objects[state.runs[run].config], service);
            var next := Next(generator, state, Advance(run, Throws(InCommand(left), {}, {})));
            && SetupInvariant(generator, next)
            && (StaleUnnoticed(At(next.world, id), files) <==> left == Old(false) && !Holds(slot.directory, files))
  {
    hide Usable, WorldInvariant, Runs, UpToDate, Holds, FailedSlot, StaleUnnoticed;
    var (id, service) := state.runs[run].phase.entries[state.runs[run].phase.next];
    var files := generator.service(state.objects[state.runs[run].config], service);
    AdvanceKeeps(generator, state, run, Throws(InCommand(left), {}, {}));
    SlotOfWorld(state.world, id);
    FailedUpLeavesStale(At(state.world, id), files, left);
  }

  // The code, step by step

  /** The module state behind `setupServices`. */
  class SetupQueue {
    const generator: Generator
    const node: NodeServices
    var objects: seq<ClusterState>
    var current: nat
    var runs: seq<SetupRun>
    var started: seq<nat>

    function Snapshot(): State
      reads this, node
    {
      State(objects, current, runs, node.dirs, started)
    }

    constructor (generator: Generator, config: ClusterState, world: World)
      ensures this.generator == generator && fresh(node) && Snapshot() == StartedUp(config, world)
    {
      this.generator := generator;
      node := new NodeServices(world);
      objects, current, runs, started := [config], 0, [SetupRun(0, Waiting)], [];
    }

    /** `saveClusterConfigToDisk`: once the files are written, a setup run is chained to the queue. */
    method Save(config: nat, saved: bool)
      modifies this`runs
      ensures runs == old(runs) + if saved then [SetupRun(config, Waiting)] else []
    {
      if saved {
        runs := runs + [SetupRun(config, Waiting)];
      }
    }

    /** The configuration object is changed in place before it is saved. */
    method ChangeConfig(config: ClusterState, saved: bool)
      modifies this
      ensures Snapshot() == Next(generator, old(Snapshot()), ChangeInPlace(config, saved))
    {
      if current < |objects| {
        objects := objects[current := config];
        Save(current, saved);
      }
    }

    /** `applyClusterConfig`: a new object takes over before it is saved. */
    method ApplyConfig(config: ClusterState, saved: bool)
      modifies this
      ensures Snapshot() == Next(generator, old(Snapshot()), ReplaceObject(config, saved))
    {
      current := |objects|;
      objects := objects + [config];
      Save(current, saved);
    }

    method BeginRun(run: nat)
      requires CanStart(Snapshot(), run)
      modifies this
      ensures Snapshot() == Next(generator, old(Snapshot()), StartRun(run))
    {
      runs := runs[run := runs[run].(phase := AtEtcd)];
      started := started + [run];
    }

    /** The work between two awaits when it succeeds. */
    method RunPhase(config: ClusterState, phase: Phase)
      modifies node
      ensures node.dirs == Done(generator, config, phase, old(node.dirs))
    {
      match phase
      case AtEtcd => node.SetupServiceAt(ETCD, generator.etcd(config), false);
      case AtHaproxy => node.SetupHaproxyAt(PlanOf(generator, config));
      case AtService(entries, next) =>
        if next < |entries| {
          node.SetupServiceAt(entries[next].0, generator.service(config, entries[next].1), true);
        }
      case AtStopping => node.StopRemovedServices(PlanOf(generator, config));
      case _ =>
    }

    /** The run goes on to its next await; it ends early when it throws, at whatever point. */
    method ContinueRun(run: nat, outcome: Outcome)
      requires CanAdvance(Snapshot(), run)
      modifies this, node
      ensures Snapshot() == Next(generator, old(Snapshot()), Advance(run, outcome))
    {
      hide Done, Broken;
      var config, phase := objects[runs[run].config], runs[run].phase;
      match outcome
      case Good =>
        RunPhase(config, phase);
        runs := runs[run := runs[run].(phase := NextPhase(generator, config, phase))];
      case Throws(failure, removed, stopped) =>
        node.dirs := Broken(generator, config, phase, node.dirs, failure, removed, stopped);
        runs := runs[run := runs[run].(phase := Completed(false))];
    }
  }
}
