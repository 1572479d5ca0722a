/** Health passes between the steps of setup runs: the interval of src/cluster/healthManager.ts beside the queue of
    src/cluster/serviceDeployment.ts. */
module HealthPasses {
  import opened Wrappers
  import opened ClusterStates
  import opened ServiceDirs
  import opened Reconciliation
  import opened SetupQueues

  /** Where a pass stands. Between any two of its steps runs may go on and the configuration may change. */
  datatype Place =
    | AtEtcdCheck
    | AtHaproxyCheck
    | AtServiceListing
    | AtServiceCheck(ids: seq<string>, next: nat)

  /** A pass keeps the configuration object that was in force when it began and reads its present content; `todo` is the
      directory whose repair is due, and the issue that was found. */
  datatype Pass = Pass(config: nat, place: Place, todo: Option<(string, Issue)>)

  datatype Daemon = Daemon(queue: State, pass: Option<Pass>)

  /** What a check sees: the container as it is, a command still in the compose queue, or an error. */
  datatype Sight = Seen | Busy | CheckFails

  /** `failed` is what a failing repair leaves. A pass is aborted when the local node is not a member any more. */
  datatype Event =
    | Queue(step: Step)
    | BeginPass
    | Check(sight: Sight)
    | Repair(failed: Option<Leftover>)
    | Abort

  function ListedIds(generator: Generator, config: ClusterState): (ids: seq<string>)
    ensures |ids| == |generator.services(config)|
  {
    var entries := generator.services(config);
    seq(|entries|, i requires 0 <= i < |entries| => entries[i].0)
  }

  /** The directory to be checked next, if the pass stands at one. */
  function Target(generator: Generator, objects: seq<ClusterState>, pass: Pass): Option<string>
    requires pass.config < |objects|
  {
    match pass.place
    case AtEtcdCheck => Some(ETCD)
    case AtHaproxyCheck => if generator.isCoordinator(objects[pass.config]) then Some(HAPROXY) else None
    case AtServiceListing => None
    case AtServiceCheck(ids, next) => if next < |ids| then Some(ids[next]) else None
  }

  /** The pass with nothing left to do at its place. */
  function Moved(generator: Generator, objects: seq<ClusterState>, pass: Pass): Option<Pass>
    requires pass.config < |objects|
  {
    match pass.place
    case AtEtcdCheck => Some(Pass(pass.config, AtHaproxyCheck, None))
    case AtHaproxyCheck => Some(Pass(pass.config, AtServiceListing, None))
    case AtServiceListing =>
      Some(Pass(pass.config, AtServiceCheck(ListedIds(generator, objects[pass.config]), 0), None))
    case AtServiceCheck(ids, next) =>
      if next < |ids| then Some(Pass(pass.config, AtServiceCheck(ids, next + 1), None)) else None
  }

  function Found(slot: Slot, sight: Sight): Option<Issue> {
    if COMPOSE_FILE !in slot.directory.files || sight.Busy? then None
    else if sight.CheckFails? then Some(MissingContainer)
    else CheckService(slot)
  }

  function Repaired(slot: Slot, issue: Issue, failed: Option<Leftover>): Slot {
    match failed
    case None => ComposeUp(slot, issue.BadContainer?)
    case Some(left) => slot.(container := LeftBy(slot.container, slot.directory.files, left))
  }

  predicate Underway(daemon: Daemon) {
    daemon.pass.Some? && daemon.pass.value.config < |daemon.queue.objects|
  }

  function Checked(generator: Generator, daemon: Daemon, sight: Sight): Daemon
    requires Underway(daemon) && daemon.pass.value.todo.None?
  {
    var pass, objects := daemon.pass.value, daemon.queue.objects;
    match Target(generator, objects, pass)
    case None => daemon.(pass := Moved(generator, objects, pass))
    case Some(dir) =>
      match Found(At(daemon.queue.world, dir), sight)
      case None => daemon.(pass := Moved(generator, objects, pass))
      case Some(issue) => daemon.(pass := Some(pass.(todo := Some((dir, issue)))))
  }

  function AfterRepair(generator: Generator, daemon: Daemon, failed: Option<Leftover>): Daemon
    requires Underway(daemon) && daemon.pass.value.todo.Some?
  {
    var pass, queue := daemon.pass.value, daemon.queue;
    var (dir, issue) := pass.todo.value;
    Daemon(queue.(world := queue.world[dir := Repaired(At(queue.world, dir), issue, failed)]),
           Moved(generator, queue.objects, pass))
  }

  /** A new pass begins only when none is under way. */
  function React(generator: Generator, daemon: Daemon, event: Event): Daemon {
    match event
    case Queue(step) => daemon.(queue := Next(generator, daemon.queue, step))
    case BeginPass =>
      if daemon.pass.Some? then daemon else daemon.(pass := Some(Pass(daemon.queue.current, AtEtcdCheck, None)))
    case Check(sight) =>
      if Underway(daemon) && daemon.pass.value.todo.None? then Checked(generator, daemon, sight) else daemon
    case Repair(failed) =>
      if Underway(daemon) && daemon.pass.value.todo.Some? then AfterRepair(generator, daemon, failed) else daemon
    case Abort => daemon.(pass := None)
  }

  function Reacted(generator: Generator, daemon: Daemon, events: seq<Event>): Daemon
    decreases |events|
  {
    if events == [] then daemon else Reacted(generator, React(generator, daemon, events[0]), events[1..])
  }

  /** The daemon before event number `at`. */
  function Until(generator: Generator, daemon: Daemon, events: seq<Event>, at: nat): Daemon
    requires at <= |events|
  {
    Reacted(generator, daemon, events[..at])
  }

  lemma {:induction false} ReactedConcat(generator: Generator, daemon: Daemon, first: seq<Event>, second: seq<Event>)
    ensures Reacted(generator, daemon, first + second) == Reacted(generator, Reacted(generator, daemon, first), second)
    decreases |first|
  {
    hide React;
    if first == [] {
      assert first + second == second;
    } else {
      assert (first + second)[0] == first[0] && (first + second)[1..] == first[1..] + second;
      ReactedConcat(generator, React(generator, daemon, first[0]), first[1..], second);
    }
  }

  // What the events mean

  /** A check notes a missing container and one that is not up, in directories with a compose file; a check that fails counts
      as a missing container, and a directory whose command is still in the queue is passed over. */
  lemma CheckMeans(generator: Generator, daemon: Daemon, sight: Sight)
    requires Underway(daemon) && daemon.pass.value.todo.None?
    ensures var pass, objects := daemon.pass.value, daemon.queue.objects;
            var after, target := React(generator, daemon, Check(sight)), Target(generator, objects, pass);
            && after.queue == daemon.queue
            && if target.None? then after.pass == Moved(generator, objects, pass)
               else
                 var slot := At(daemon.queue.world, target.value);
                 if "docker-compose.yml" !in slot.directory.files || sight == Busy then
                   after.pass == Moved(generator, objects, pass)
                 else if sight == CheckFails || slot.container.None? then
                   after.pass == Some(pass.(todo := Some((target.value, MissingContainer))))
                 else if slot.container.value.status != Up then
                   after.pass == Some(pass.(todo := Some((target.value, BadContainer))))
                 else after.pass == Moved(generator, objects, pass)
  {
  }

  /** A repair creates the container anew from the files of the directory, unless it was noted as missing and is there now,
      runs these files and is not down; a repair that fails leaves the old container, running or stopped, none, or a new one. */
  lemma RepairMeans(generator: Generator, daemon: Daemon, failed: Option<Leftover>)
    requires Underway(daemon) && daemon.pass.value.todo.Some?
    ensures var (dir, issue) := daemon.pass.value.todo.value;
            var before, after := At(daemon.queue.world, dir), React(generator, daemon, Repair(failed));
            && after.pass == Moved(generator, daemon.queue.objects, daemon.pass.value)
            && dir in after.queue.world && after.queue == daemon.queue.(world := daemon.queue.world[dir := after.queue.world[dir]])
            && var container := after.queue.world[dir].container;
               && after.queue.world[dir].directory == before.directory
               && match failed
                  case None =>
                    if issue == MissingContainer && before.container.Some? && before.container.value.status != Down &&
                       Runs(before.container.value, before.directory.files)
                    then container == before.container
                    else container.Some? && container.value.status == Up && Runs(container.value, before.directory.files)
                  case Some(Old(stopped)) =>
                    if before.container.None? || !stopped then container == before.container
                    else container == Some(before.container.value.(status := Down))
                  case Some(Gone) => container.None?
                  case Some(New(status)) =>
                    container.Some? && container.value.status == status && Runs(container.value, before.directory.files)
  {
  }

  /** A pass begins on the object in force, and only when none is under way; an aborted pass does nothing more. */
  lemma PassBeginsAndEnds(generator: Generator, daemon: Daemon)
    ensures var begun := React(generator, daemon, BeginPass);
            begun.queue == daemon.queue &&
            begun.pass == if daemon.pass.Some? then daemon.pass else Some(Pass(daemon.queue.current, AtEtcdCheck, None))
    ensures React(generator, daemon, Abort) == Daemon(daemon.queue, None)
  {
  }

  // The queue without the passes

  /** The steps of the queue among the events. */
  function QueueSteps(events: seq<Event>): seq<Step>
    decreases |events|
  {
    if events == [] then [] else (if events[0].Queue? then [events[0].step] else []) + QueueSteps(events[1..])
  }

  lemma {:induction false} QueueStepsConcat(first: seq<Event>, second: seq<Event>)
    ensures QueueSteps(first + second) == QueueSteps(first) + QueueSteps(second)
    decreases |first|
  {
    if first == [] {
      assert first + second == second;
    } else {
      assert (first + second)[0] == first[0] && (first + second)[1..] == first[1..] + second;
      QueueStepsConcat(first[1..], second);
    }
  }

  /** The same runs and objects, and the same files in every directory. */
  ghost predicate SameButContainers(a: State, b: State) {
    && a.objects == b.objects && a.current == b.current && a.runs == b.runs && a.started == b.started
    && forall dir :: At(a.world, dir).directory == At(b.world, dir).directory
  }

  /** What the present phase of a run makes of a directory. */
  function DirectoryAfter(generator: Generator, config: ClusterState, phase: Phase, outcome: Outcome, dir: string,
                          directory: Directory): Directory {
    var output := Output(generator, config, phase);
    if output.None? || output.value.0 != dir then directory
    else match outcome
      case Good => Written(directory, output.value.1)
      case Throws(failure, _, _) => FailedSlot(Slot(directory, None), output.value.1, failure).directory
  }

  lemma AdvancedDirectory(generator: Generator, state: State, run: nat, outcome: Outcome, dir: string)
    requires CanAdvance(state, run)
    ensures At(Advanced(generator, state, run, outcome).world, dir).directory ==
            DirectoryAfter(generator, state.objects[state.runs[run].config], state.runs[run].phase, outcome, dir,
                           At(state.world, dir).directory)
  {
  }

  lemma NextSame(generator: Generator, a: State, b: State, step: Step)
    requires SameButContainers(a, b)
    ensures SameButContainers(Next(generator, a, step), Next(generator, b, step))
  {
    hide DirectoryAfter, Done, Broken, NextPhase;
    if Enabled(a, step) && step.Advance? {
      var after, other := Next(generator, a, step), Next(generator, b, step);
      forall dir ensures At(after.world, dir).directory == At(other.world, dir).directory {
        AdvancedDirectory(generator, a, step.run, step.outcome, dir);
        AdvancedDirectory(generator, b, step.run, step.outcome, dir);
      }
    }
  }

  lemma PassSame(generator: Generator, daemon: Daemon, event: Event)
    requires !event.Queue?
    ensures SameButContainers(React(generator, daemon, event).queue, daemon.queue)
  {
    hide Target, Moved, Found;
  }

  /** Health passes change containers only: runs, objects and files are what the queue by itself makes of them. */
  lemma {:induction false} PassesKeepTheRest(generator: Generator, daemon: Daemon, state: State, events: seq<Event>)
    requires SameButContainers(daemon.queue, state)
    ensures SameButContainers(Reacted(generator, daemon, events).queue, Run(generator, state, QueueSteps(events)))
    decreases |events|
  {
    if events != [] {
      hide SameButContainers, React, Next;
      var event, rest := events[0], QueueSteps(events[1..]);
      var after := React(generator, daemon, event);
      if event.Queue? {
        NextSame(generator, daemon.queue, state, event.step);
        assert QueueSteps(events)[0] == event.step && QueueSteps(events)[1..] == rest;
        PassesKeepTheRest(generator, after, Next(generator, state, event.step), events[1..]);
      } else {
        PassSame(generator, daemon, event);
        assert QueueSteps(events) == rest;
        PassesKeepTheRest(generator, after, state, events[1..]);
      }
    }
  }

  // Invariant

  /** The directory that a place stands for. */
  function PlaceDir(place: Place): Option<string> {
    match place
    case AtEtcdCheck => Some(ETCD)
    case AtHaproxyCheck => Some(HAPROXY)
    case AtServiceListing => None
    case AtServiceCheck(ids, next) => if next < |ids| then Some(ids[next]) else None
  }

  predicate HasCompose(daemon: Daemon, dir: string) {
    COMPOSE_FILE in At(daemon.queue.world, dir).directory.files
  }

  /** A repair is due only where a compose file was found. */
  ghost predicate PassInvariant(daemon: Daemon) {
    daemon.pass.Some? ==>
      && daemon.pass.value.config < |daemon.queue.objects|
      && (daemon.pass.value.todo.Some? ==>
            var dir := daemon.pass.value.todo.value.0;
            PlaceDir(daemon.pass.value.place) == Some(dir) && HasCompose(daemon, dir))
  }

  /** No run works on a static directory as if it were a service. */
  ghost predicate EntriesUsable(runs: seq<SetupQueues.SetupRun>) {
    forall i :: 0 <= i < |runs| && runs[i].phase.AtService? ==>
      forall k :: 0 <= k < |runs[i].phase.entries| ==>
        runs[i].phase.entries[k].0 != ETCD && runs[i].phase.entries[k].0 != HAPROXY
  }

  ghost predicate DaemonInvariant(generator: Generator, daemon: Daemon) {
    SetupInvariant(generator, daemon.queue) && EntriesUsable(daemon.queue.runs) && PassInvariant(daemon)
  }

  lemma ListingUsable(generator: Generator, config: ClusterState)
    requires Usable(generator, config)
    ensures forall k :: 0 <= k < |generator.services(config)| ==>
              generator.services(config)[k].0 != ETCD && generator.services(config)[k].0 != HAPROXY
  {
  }

  lemma NextEntries(generator: Generator, state: State, step: Step)
    requires SetupInvariant(generator, state) && EntriesUsable(state.runs)
    ensures EntriesUsable(Next(generator, state, step).runs)
  {
    hide Done, Broken, WorldInvariant, Usable, Serial, StartedInOrder;
    if Enabled(state, step) && step.Advance? {
      ListingUsable(generator, state.objects[state.runs[step.run].config]);
    }
  }

  /** A compose file stays. */
  lemma NextHasCompose(generator: Generator, state: State, step: Step, dir: string)
    requires COMPOSE_FILE in At(state.world, dir).directory.files
    ensures COMPOSE_FILE in At(Next(generator, state, step).world, dir).directory.files
  {
    hide Done, Broken;
    if Enabled(state, step) && step.Advance? {
      AdvancedDirectory(generator, state, step.run, step.outcome, dir);
    }
  }

  lemma NextObjects(generator: Generator, state: State, step: Step)
    ensures |Next(generator, state, step).objects| >= |state.objects|
  {
  }

  lemma RepairKeeps(generator: Generator, daemon: Daemon, failed: Option<Leftover>)
    requires DaemonInvariant(generator, daemon) && daemon.pass.Some? && daemon.pass.value.todo.Some?
    ensures DaemonInvariant(generator, AfterRepair(generator, daemon, failed))
  {
  }

  lemma CheckKeeps(generator: Generator, daemon: Daemon, sight: Sight)
    requires DaemonInvariant(generator, daemon) && daemon.pass.Some? && daemon.pass.value.todo.None?
    ensures DaemonInvariant(generator, Checked(generator, daemon, sight))
  {
  }

  lemma ReactKeeps(generator: Generator, daemon: Daemon, event: Event)
    requires GeneratesCompose(generator) && DaemonInvariant(generator, daemon)
    requires event.Queue? ==> StepUsable(generator, event.step)
    ensures DaemonInvariant(generator, React(generator, daemon, event))
  {
    hide Checked, AfterRepair, Next, EntriesUsable, GeneratesCompose, StepUsable;
    match event
    case Queue(step) =>
      NextKeeps(generator, daemon.queue, step);
      NextEntries(generator, daemon.queue, step);
      NextObjects(generator, daemon.queue, step);
      if daemon.pass.Some? && daemon.pass.value.todo.Some? {
        NextHasCompose(generator, daemon.queue, step, daemon.pass.value.todo.value.0);
      }
    case Check(sight) =>
      if Underway(daemon) && daemon.pass.value.todo.None? {
        CheckKeeps(generator, daemon, sight);
      }
    case Repair(failed) =>
      if Underway(daemon) && daemon.pass.value.todo.Some? {
        RepairKeeps(generator, daemon, failed);
      }
    case _ =>
  }

  ghost predicate EventsUsable(generator: Generator, events: seq<Event>) {
    forall i :: 0 <= i < |events| ==> (events[i].Queue? ==> StepUsable(generator, events[i].step))
  }

  lemma {:induction false} ReactedKeeps(generator: Generator, daemon: Daemon, events: seq<Event>)
    requires GeneratesCompose(generator) && DaemonInvariant(generator, daemon) && EventsUsable(generator, events)
    ensures DaemonInvariant(generator, Reacted(generator, daemon, events))
    decreases |events|
  {
    hide DaemonInvariant, React, StepUsable, GeneratesCompose;
    if events != [] {
      ReactKeeps(generator, daemon, events[0]);
      ReactedKeeps(generator, React(generator, daemon, events[0]), events[1..]);
    }
  }

  // Where a pass may still bring a container up

  function Visits(generator: Generator, objects: seq<ClusterState>, pass: Pass): set<string>
    requires pass.config < |objects|
  {
    var config := objects[pass.config];
    var haproxy := if generator.isCoordinator(config) then {HAPROXY} else {};
    var services := set id | id in ListedIds(generator, config);
    match pass.place
    case AtEtcdCheck => {ETCD} + haproxy + services
    case AtHaproxyCheck => haproxy + services
    case AtServiceListing => services
    case AtServiceCheck(ids, next) => if next < |ids| then set id | id in ids[next..] else {}
  }

  function Pending(generator: Generator, daemon: Daemon): set<string> {
    if !Underway(daemon) then {}
    else
      var pass := daemon.pass.value;
      Visits(generator, daemon.queue.objects, pass) + if pass.todo.Some? then {pass.todo.value.0} else {}
  }

  /** The pass may bring the container of this directory up. */
  predicate Revives(generator: Generator, daemon: Daemon, dir: string) {
    dir in Pending(generator, daemon) && HasCompose(daemon, dir)
  }

  /** Moving on drops the directory that the pass stands at, and no other one. */
  lemma MovedVisits(generator: Generator, objects: seq<ClusterState>, pass: Pass, dir: string)
    requires pass.config < |objects|
    ensures var moved, target := Moved(generator, objects, pass), Target(generator, objects, pass);
            && (moved.Some? ==> moved.value.config == pass.config && moved.value.todo.None?)
            && (target.Some? ==> target.value in Visits(generator, objects, pass) && PlaceDir(pass.place) == target)
            && (moved.Some? && dir in Visits(generator, objects, moved.value) ==> dir in Visits(generator, objects, pass))
            && (dir in Visits(generator, objects, pass) && target != Some(dir) ==>
                  moved.Some? && dir in Visits(generator, objects, moved.value))
  {
  }

  lemma SameVisits(generator: Generator, objects: seq<ClusterState>, pass: Pass, todo: Option<(string, Issue)>)
    requires pass.config < |objects|
    ensures Visits(generator, objects, pass.(todo := todo)) == Visits(generator, objects, pass)
  {
  }

  lemma NewPassVisits(generator: Generator, objects: seq<ClusterState>, config: nat)
    requires config < |objects|
    ensures Visits(generator, objects, Pass(config, AtEtcdCheck, None)) == Desired(PlanOf(generator, objects[config]))
  {
    var plan := PlanOf(generator, objects[config]);
    var ids := ListedIds(generator, objects[config]);
    assert forall i :: 0 <= i < |ids| ==> ids[i] == plan.services[i].0;
    forall id ensures id in ids <==> id in ServiceIds(plan.services) {
      if id in ids {
        var i :| 0 <= i < |ids| && ids[i] == id;
        assert plan.services[i].0 == id;
      }
    }
  }

  // A directory whose container is not wanted any more

  /** The run will not touch this unwanted directory any more. */
  predicate Past(phase: Phase, dir: string) {
    phase.Completed? || (dir == HAPROXY && (phase.AtListing? || phase.AtService? || phase.AtStopping?))
  }

  /** The last run is for the configuration in force and is past this directory. */
  ghost predicate Settled(state: State, config: ClusterState, dir: string) {
    && state.runs != [] && state.runs[|state.runs| - 1].config == state.current < |state.objects|
    && state.objects[state.current] == config && Past(state.runs[|state.runs| - 1].phase, dir)
  }

  lemma PhaseFrame(generator: Generator, config: ClusterState, phase: Phase, world: World, outcome: Outcome, dir: string)
    requires dir !in Desired(PlanOf(generator, config)) && Past(phase, dir)
    requires phase.AtService? ==>
               forall k :: 0 <= k < |phase.entries| ==> phase.entries[k].0 != HAPROXY
    ensures match outcome
            case Good =>
              At(Done(generator, config, phase, world), dir) == At(world, dir) && Past(NextPhase(generator, config, phase), dir)
            case Throws(failure, removed, stopped) =>
              At(Broken(generator, config, phase, world, failure, removed, stopped), dir) == At(world, dir)
  {
    hide SetupSlot, FailedSlot, ComposeDown, Stopped, PlanOf;
  }

  lemma QueueFrame(generator: Generator, state: State, step: Step, config: ClusterState, dir: string)
    requires SetupInvariant(generator, state) && EntriesUsable(state.runs) && Settled(state, config, dir)
    requires dir !in Desired(PlanOf(generator, config)) && !ChangesConfig(step)
    ensures var next := Next(generator, state, step);
            && At(next.world, dir) == At(state.world, dir) && Settled(next, config, dir) && next.objects == state.objects
  {
    hide Done, Broken, PlanOf, Usable, WorldInvariant, Desired, NextPhase;
    if Enabled(state, step) && step.Advance? {
      assert step.run == |state.runs| - 1;
      PhaseFrame(generator, config, state.runs[step.run].phase, state.world, step.outcome, dir);
    }
  }

  lemma CheckFrame(generator: Generator, daemon: Daemon, sight: Sight, dir: string)
    requires PassInvariant(daemon) && daemon.pass.Some? && daemon.pass.value.todo.None?
    ensures var next := Checked(generator, daemon, sight);
            && next.queue == daemon.queue
            && (dir in Pending(generator, next) ==> dir in Pending(generator, daemon))
            && (dir in Pending(generator, daemon) && dir !in Pending(generator, next) ==>
                  Found(At(daemon.queue.world, dir), sight).None?)
            && (next.pass.Some? && next.pass.value.todo.Some? && next.pass.value.todo.value.0 == dir ==>
                  Found(At(daemon.queue.world, dir), sight) == Some(next.pass.value.todo.value.1))
  {
    hide Found, Visits, Moved, Target;
    MovedVisits(generator, daemon.queue.objects, daemon.pass.value, dir);
    if Checked(generator, daemon, sight).pass.Some? {
      SameVisits(generator, daemon.queue.objects, daemon.pass.value, Checked(generator, daemon, sight).pass.value.todo);
    }
  }

  lemma RepairFrame(generator: Generator, daemon: Daemon, failed: Option<Leftover>, dir: string)
    requires PassInvariant(daemon) && daemon.pass.Some? && daemon.pass.value.todo.Some?
    ensures var next := AfterRepair(generator, daemon, failed);
            var (target, issue) := daemon.pass.value.todo.value;
            && next.queue.objects == daemon.queue.objects
            && (next.pass.Some? ==> next.pass.value.todo.None?)
            && target in Pending(generator, daemon) && HasCompose(daemon, target)
            && (dir in Pending(generator, next) ==> dir in Pending(generator, daemon))
            && (dir in Pending(generator, daemon) && dir != target ==> dir in Pending(generator, next))
            && At(next.queue.world, dir) ==
               if dir == target then Repaired(At(daemon.queue.world, dir), issue, failed) else At(daemon.queue.world, dir)
  {
    hide Repaired, Visits, Moved;
    assert Target(generator, daemon.queue.objects, daemon.pass.value) == Some(dir) ==>
        dir == daemon.pass.value.todo.value.0;
    MovedVisits(generator, daemon.queue.objects, daemon.pass.value, dir);
  }

  // Down for good

  ghost predicate Off(generator: Generator, daemon: Daemon, dir: string) {
    At(daemon.queue.world, dir).container.None? && !Revives(generator, daemon, dir)
  }

  lemma OffStep(generator: Generator, daemon: Daemon, event: Event, config: ClusterState, dir: string)
    requires GeneratesCompose(generator) && DaemonInvariant(generator, daemon)
    requires Settled(daemon.queue, config, dir) && dir !in Desired(PlanOf(generator, config))
    requires event.Queue? ==> !ChangesConfig(event.step)
    requires Off(generator, daemon, dir)
    ensures var next := React(generator, daemon, event);
            Settled(next.queue, config, dir) && Off(generator, next, dir)
  {
    hide SetupInvariant, EntriesUsable, Desired, PlanOf, Next, Checked, AfterRepair, ChangesConfig, Visits, Past;
    match event
    case Queue(step) => QueueFrame(generator, daemon.queue, step, config, dir);
    case BeginPass => NewPassVisits(generator, daemon.queue.objects, daemon.queue.current);
    case Check(sight) =>
      if Underway(daemon) && daemon.pass.value.todo.None? {
        CheckFrame(generator, daemon, sight, dir);
      }
    case Repair(failed) =>
      if Underway(daemon) && daemon.pass.value.todo.Some? {
        hide Pending;
        RepairFrame(generator, daemon, failed, dir);
        RepairSettled(generator, daemon, failed, config, dir);
      }
    case Abort =>
  }

  lemma RepairSettled(generator: Generator, daemon: Daemon, failed: Option<Leftover>, config: ClusterState, dir: string)
    requires Underway(daemon) && daemon.pass.value.todo.Some? && Settled(daemon.queue, config, dir)
    ensures Settled(AfterRepair(generator, daemon, failed).queue, config, dir)
  {
  }

  lemma {:induction false} OffStays(generator: Generator, daemon: Daemon, events: seq<Event>, config: ClusterState, dir: string)
    requires GeneratesCompose(generator) && DaemonInvariant(generator, daemon) && EventsUsable(generator, events)
    requires Settled(daemon.queue, config, dir) && dir !in Desired(PlanOf(generator, config))
    requires Unchanging(QueueSteps(events)) && Off(generator, daemon, dir)
    ensures Off(generator, Reacted(generator, daemon, events), dir)
    decreases |events|
  {
    hide DaemonInvariant, React, StepUsable, GeneratesCompose, Off, Settled, Desired, PlanOf, ChangesConfig;
    if events != [] {
      UnchangingTail(events);
      OffStep(generator, daemon, events[0], config, dir);
      ReactKeeps(generator, daemon, events[0]);
      OffStays(generator, React(generator, daemon, events[0]), events[1..], config, dir);
    }
  }

  lemma UnchangingTail(events: seq<Event>)
    requires events != [] && Unchanging(QueueSteps(events))
    ensures Unchanging(QueueSteps(events[1..])) && (events[0].Queue? ==> !ChangesConfig(events[0].step))
  {
    hide ChangesConfig;
    var rest := QueueSteps(events[1..]);
    if events[0].Queue? {
      assert QueueSteps(events)[0] == events[0].step;
      assert forall i :: 0 <= i < |rest| ==> rest[i] == QueueSteps(events)[i + 1];
    } else {
      assert QueueSteps(events) == rest;
    }
  }

  // Passes on which everything works

  predicate Favourable(event: Event) {
    match event
    case Check(sight) => sight.Seen?
    case Repair(failed) => failed.None?
    case Abort => false
    case _ => true
  }

  ghost predicate AllFavourable(events: seq<Event>) {
    forall i :: 0 <= i < |events| ==> Favourable(events[i])
  }

  /** A container that the pass is about to supply is still missing. */
  predicate IssueHolds(daemon: Daemon, dir: string) {
    daemon.pass.Some? && daemon.pass.value.todo == Some((dir, MissingContainer)) ==>
      At(daemon.queue.world, dir).container.None?
  }

  /** The container is up, or the pass will bring it up. */
  predicate ComesUp(generator: Generator, daemon: Daemon, dir: string) {
    RunningAt(daemon.queue.world, dir) || Revives(generator, daemon, dir)
  }

  lemma RepairedRuns(slot: Slot, issue: Issue)
    requires issue.MissingContainer? ==> slot.container.None?
    ensures var repaired := Repaired(slot, issue, None);
            repaired.container.Some? && repaired.container.value.status.Up?
  {
  }

  lemma SeenRuns(slot: Slot)
    requires SlotInvariant(slot)
    ensures match Found(slot, Seen)
            case None =>
              slot.container.Some? ==> slot.container.value.status.Up?
            case Some(issue) =>
              && COMPOSE_FILE in slot.directory.files
              && (slot.container.Some? ==> !slot.container.value.status.Up?)
              && (issue.MissingContainer? ==> slot.container.None?)
    ensures COMPOSE_FILE in slot.directory.files && Found(slot, Seen).None? ==> slot.container.Some?
  {
  }

  lemma RunningSlot(world: World, dir: string)
    ensures RunningAt(world, dir) <==>
            At(world, dir).container.Some? && At(world, dir).container.value.status.Up?
  {
  }

  lemma CheckComesUp(generator: Generator, daemon: Daemon, dir: string)
    requires DaemonInvariant(generator, daemon) && daemon.pass.Some? && daemon.pass.value.todo.None?
    ensures var next := Checked(generator, daemon, Seen);
            IssueHolds(next, dir) && (ComesUp(generator, next, dir) <==> ComesUp(generator, daemon, dir))
  {
    hide SetupInvariant, EntriesUsable, Checked, Pending, Found, RunningAt;
    WorldOfInvariant(generator, daemon);
    CheckFrame(generator, daemon, Seen, dir);
    RunningSlot(daemon.queue.world, dir);
    SeenRuns(At(daemon.queue.world, dir));
  }

  lemma WorldOfInvariant(generator: Generator, daemon: Daemon)
    requires SetupInvariant(generator, daemon.queue)
    ensures forall dir :: SlotInvariant(At(daemon.queue.world, dir))
  {
  }

  lemma RepairComesUp(generator: Generator, daemon: Daemon, dir: string)
    requires DaemonInvariant(generator, daemon) && daemon.pass.Some? && daemon.pass.value.todo.Some?
    requires IssueHolds(daemon, dir)
    ensures var next := AfterRepair(generator, daemon, None);
            IssueHolds(next, dir) && (ComesUp(generator, next, dir) <==> ComesUp(generator, daemon, dir))
  {
    hide SetupInvariant, EntriesUsable, AfterRepair, Pending, Repaired, RunningAt;
    var (target, issue) := daemon.pass.value.todo.value;
    RepairFrame(generator, daemon, None, dir);
    RunningSlot(daemon.queue.world, dir);
    RunningSlot(AfterRepair(generator, daemon, None).queue.world, dir);
    if dir == target {
      RepairedRuns(At(daemon.queue.world, dir), issue);
    }
  }

  /** The queue leaves this directory and the configuration alone. */
  ghost predicate Steady(generator: Generator, daemon: Daemon, event: Event, dir: string) {
    event.Queue? ==>
      var next := Next(generator, daemon.queue, event.step);
      At(next.world, dir) == At(daemon.queue.world, dir) && next.objects == daemon.queue.objects
  }

  lemma BeginComesUp(generator: Generator, daemon: Daemon, dir: string)
    requires daemon.queue.current < |daemon.queue.objects| && daemon.pass.None?
    ensures var next := React(generator, daemon, BeginPass);
            && IssueHolds(next, dir)
            && (ComesUp(generator, next, dir) <==>
                RunningAt(daemon.queue.world, dir) ||
                (dir in Desired(PlanOf(generator, daemon.queue.objects[daemon.queue.current])) && HasCompose(daemon, dir)))
  {
    hide Desired, PlanOf, RunningAt, Visits;
    NewPassVisits(generator, daemon.queue.objects, daemon.queue.current);
  }

  lemma SteadyComesUp(generator: Generator, daemon: Daemon, step: Step, dir: string)
    requires Steady(generator, daemon, Queue(step), dir) && IssueHolds(daemon, dir)
    ensures var next := React(generator, daemon, Queue(step));
            IssueHolds(next, dir) && (ComesUp(generator, next, dir) <==> ComesUp(generator, daemon, dir))
  {
  }

  lemma ComesUpStep(generator: Generator, daemon: Daemon, event: Event, dir: string)
    requires DaemonInvariant(generator, daemon) && Favourable(event) && IssueHolds(daemon, dir)
    requires Steady(generator, daemon, event, dir)
    ensures var next := React(generator, daemon, event);
            && IssueHolds(next, dir) && (ComesUp(generator, daemon, dir) ==> ComesUp(generator, next, dir))
            && (ComesUp(generator, next, dir) && !ComesUp(generator, daemon, dir) ==>
                  dir in Desired(PlanOf(generator, daemon.queue.objects[daemon.queue.current])))
  {
    hide EntriesUsable, Desired, PlanOf, Checked, AfterRepair, Next, Steady, Serial, StartedInOrder, Usable, WorldInvariant,
         RunningAt;
    match event
    case Queue(step) => SteadyComesUp(generator, daemon, step, dir);
    case BeginPass =>
      if daemon.pass.None? {
        BeginComesUp(generator, daemon, dir);
      }
    case Check(_) =>
      if Underway(daemon) && daemon.pass.value.todo.None? {
        hide ComesUp, IssueHolds;
        CheckComesUp(generator, daemon, dir);
      }
    case Repair(_) =>
      if Underway(daemon) && daemon.pass.value.todo.Some? {
        hide ComesUp, IssueHolds;
        RepairComesUp(generator, daemon, dir);
      }
    case Abort =>
  }

  lemma SettledStep(generator: Generator, daemon: Daemon, event: Event, config: ClusterState, dir: string)
    requires DaemonInvariant(generator, daemon)
    requires Settled(daemon.queue, config, dir) && dir !in Desired(PlanOf(generator, config))
    requires event.Queue? ==> !ChangesConfig(event.step)
    ensures Steady(generator, daemon, event, dir) && Settled(React(generator, daemon, event).queue, config, dir)
  {
    hide SetupInvariant, EntriesUsable, Desired, PlanOf, Next, Checked, AfterRepair, ChangesConfig, Past;
    match event
    case Queue(step) => QueueFrame(generator, daemon.queue, step, config, dir);
    case Check(sight) =>
      if Underway(daemon) && daemon.pass.value.todo.None? {
        CheckFrame(generator, daemon, sight, dir);
      }
    case Repair(failed) =>
      if Underway(daemon) && daemon.pass.value.todo.Some? {
        RepairSettled(generator, daemon, failed, config, dir);
      }
    case _ =>
  }

  /** An unwanted container comes up exactly when the pass under way brings it up. */
  lemma {:induction false} UnwantedComesUp(generator: Generator, daemon: Daemon, events: seq<Event>, config: ClusterState,
                                           dir: string)
    requires GeneratesCompose(generator) && DaemonInvariant(generator, daemon) && EventsUsable(generator, events)
    requires Settled(daemon.queue, config, dir) && dir !in Desired(PlanOf(generator, config))
    requires Unchanging(QueueSteps(events)) && AllFavourable(events) && IssueHolds(daemon, dir)
    ensures ComesUp(generator, Reacted(generator, daemon, events), dir) <==> ComesUp(generator, daemon, dir)
    decreases |events|
  {
    if events != [] {
      hide DaemonInvariant, React, StepUsable, GeneratesCompose, ComesUp, IssueHolds, Desired, PlanOf, ChangesConfig, Favourable,
           Steady, Past;
      UnchangingTail(events);
      SettledStep(generator, daemon, events[0], config, dir);
      ComesUpStep(generator, daemon, events[0], dir);
      ReactKeeps(generator, daemon, events[0]);
      UnwantedComesUp(generator, React(generator, daemon, events[0]), events[1..], config, dir);
    }
  }

  ghost predicate AllOver(state: State) {
    forall i :: 0 <= i < |state.runs| ==> state.runs[i].phase.Completed?
  }

  lemma OverStep(generator: Generator, daemon: Daemon, event: Event, dir: string)
    requires AllOver(daemon.queue) && (event.Queue? ==> !ChangesConfig(event.step))
    ensures Steady(generator, daemon, event, dir) && AllOver(React(generator, daemon, event).queue)
  {
    hide Target, Moved, Found, Repaired;
    if event.Queue? {
      assert !Enabled(daemon.queue, event.step);
    }
  }

  lemma {:induction false} WantedComesUp(generator: Generator, daemon: Daemon, events: seq<Event>, dir: string)
    requires GeneratesCompose(generator) && DaemonInvariant(generator, daemon) && EventsUsable(generator, events)
    requires AllOver(daemon.queue) && Unchanging(QueueSteps(events)) && AllFavourable(events)
    requires IssueHolds(daemon, dir) && ComesUp(generator, daemon, dir)
    ensures ComesUp(generator, Reacted(generator, daemon, events), dir)
    decreases |events|
  {
    if events != [] {
      hide DaemonInvariant, React, StepUsable, GeneratesCompose, ComesUp, IssueHolds, ChangesConfig, Favourable, Steady, AllOver;
      UnchangingTail(events);
      OverStep(generator, daemon, events[0], dir);
      ComesUpStep(generator, daemon, events[0], dir);
      ReactKeeps(generator, daemon, events[0]);
      WantedComesUp(generator, React(generator, daemon, events[0]), events[1..], dir);
    }
  }

  // A pass on its own

  lemma OneEvent(generator: Generator, daemon: Daemon, event: Event)
    ensures Reacted(generator, daemon, [event]) == React(generator, daemon, event)
  {
  }

  function Healed(generator: Generator, daemon: Daemon): World
    requires Underway(daemon)
  {
    var target := Target(generator, daemon.queue.objects, daemon.pass.value);
    if target.Some? then HealAt(daemon.queue.world, target.value) else daemon.queue.world
  }

  /** Checking a directory and repairing it, nothing else happening, is one step of the health pass. */
  lemma VisitHeals(generator: Generator, daemon: Daemon) returns (events: seq<Event>)
    requires Underway(daemon) && daemon.pass.value.todo.None?
    ensures QueueSteps(events) == []
    ensures Reacted(generator, daemon, events) ==
            Daemon(daemon.queue.(world := Healed(generator, daemon)),
                   Moved(generator, daemon.queue.objects, daemon.pass.value))
  {
    hide Reacted, ComposeUp, Moved;
    var target := Target(generator, daemon.queue.objects, daemon.pass.value);
    var checked := React(generator, daemon, Check(Seen));
    if target.Some? && Found(At(daemon.queue.world, target.value), Seen).Some? {
      events := [Check(Seen)] + [Repair(None)];
      ReactedConcat(generator, daemon, [Check(Seen)], [Repair(None)]);
      OneEvent(generator, daemon, Check(Seen));
      OneEvent(generator, checked, Repair(None));
      QueueStepsConcat([Check(Seen)], [Repair(None)]);
      SameMoved(generator, daemon.queue.objects, daemon.pass.value, checked.pass.value.todo);
    } else {
      events := [Check(Seen)];
      OneEvent(generator, daemon, Check(Seen));
    }
  }

  lemma SameMoved(generator: Generator, objects: seq<ClusterState>, pass: Pass, todo: Option<(string, Issue)>)
    requires pass.config < |objects|
    ensures Moved(generator, objects, pass.(todo := todo)) == Moved(generator, objects, pass)
  {
  }

  lemma {:induction false} ServicesHeal(generator: Generator, daemon: Daemon, services: seq<(string, Files)>, start: World)
    returns (events: seq<Event>)
    requires Underway(daemon) && daemon.pass.value.todo.None? && daemon.pass.value.place.AtServiceCheck?
    requires var place := daemon.pass.value.place;
             && |place.ids| == |services| && place.next <= |services|
             && (forall i :: 0 <= i < |services| ==> place.ids[i] == services[i].0)
             && daemon.queue.world == HealEach(start, services[..place.next])
    ensures QueueSteps(events) == []
    ensures Reacted(generator, daemon, events) == Daemon(daemon.queue.(world := HealEach(start, services)), None)
    decreases |services| - daemon.pass.value.place.next
  {
    hide Reacted, HealAt, React;
    var place := daemon.pass.value.place;
    var first := VisitHeals(generator, daemon);
    if place.next < |services| {
      var after := Reacted(generator, daemon, first);
      assert services[..place.next + 1][..place.next] == services[..place.next];
      var more := ServicesHeal(generator, after, services, start);
      events := first + more;
      ReactedConcat(generator, daemon, first, more);
      QueueStepsConcat(first, more);
    } else {
      assert services[..place.next] == services;
      events := first;
    }
  }

  /** A pass that nothing interferes with and on which everything works is the health pass of the undisturbed node. */
  lemma UndisturbedPass(generator: Generator, daemon: Daemon) returns (events: seq<Event>)
    requires daemon.pass.None? && daemon.queue.current < |daemon.queue.objects|
    ensures QueueSteps(events) == []
    ensures Reacted(generator, daemon, events) ==
            Daemon(daemon.queue.(world := HealthPass(daemon.queue.world, PlanOf(generator, Final(daemon.queue)))), None)
  {
    hide Reacted, HealAt, HealEach;
    var plan := PlanOf(generator, Final(daemon.queue));
    var begun := React(generator, daemon, BeginPass);
    OneEvent(generator, daemon, BeginPass);
    var etcd := VisitHeals(generator, begun);
    var second := Reacted(generator, begun, etcd);
    var haproxy := VisitHeals(generator, second);
    var third := Reacted(generator, second, haproxy);
    var listing := VisitHeals(generator, third);
    var fourth := Reacted(generator, third, listing);
    assert third.queue.world == HealEach(third.queue.world, plan.services[..0]) by {
      HealNothing(third.queue.world, plan.services[..0]);
    }
    var services := ServicesHeal(generator, fourth, plan.services, third.queue.world);
    events := [BeginPass] + (etcd + (haproxy + (listing + services)));
    ReactedConcat(generator, daemon, [BeginPass], etcd + (haproxy + (listing + services)));
    ReactedConcat(generator, begun, etcd, haproxy + (listing + services));
    ReactedConcat(generator, second, haproxy, listing + services);
    ReactedConcat(generator, third, listing, services);
    QueueStepsConcat([BeginPass], etcd + (haproxy + (listing + services)));
    QueueStepsConcat(etcd, haproxy + (listing + services));
    QueueStepsConcat(haproxy, listing + services);
    QueueStepsConcat(listing, services);
  }

  lemma HealNothing(world: World, services: seq<(string, Files)>)
    requires services == []
    ensures HealEach(world, services) == world
  {
  }

  // The code, step by step

  /** The module state of src/cluster/healthManager.ts beside that of the setup queue. */
  class HealthManager {
    const queue: SetupQueue
    var pass: Option<Pass>

    function Snapshot(): Daemon
      reads this, queue, queue.node
    {
      Daemon(queue.Snapshot(), pass)
    }

    constructor (queue: SetupQueue)
      ensures this.queue == queue && Snapshot() == Daemon(queue.Snapshot(), None)
    {
      this.queue := queue;
      pass := None;
    }

    /** The interval: a new pass begins unless one is under way. */
    method Tick()
      modifies this
      ensures Snapshot() == React(queue.generator, old(Snapshot()), BeginPass)
    {
      if pass.None? {
        pass := Some(Pass(queue.current, AtEtcdCheck, None));
      }
    }

    /** `checkService` at the directory where the pass stands. */
    method CheckNext(sight: Sight)
      modifies this
      ensures Snapshot() == React(queue.generator, old(Snapshot()), Check(sight))
    {
      if pass.None? || pass.value.config >= |queue.objects| || pass.value.todo.Some? {
        return;
      }
      var target := Target(queue.generator, queue.objects, pass.value);
      if target.Some? {
        var issue := Found(At(queue.node.dirs, target.value), sight);
        if issue.Some? {
          pass := Some(pass.value.(todo := Some((target.value, issue.value))));
          return;
        }
      }
      pass := Moved(queue.generator, queue.objects, pass.value);
    }

    /** `repairDeployment` for the issue that was found; a failure is only logged. */
    method RepairNext(failed: Option<Leftover>)
      modifies this, queue.node
      ensures Snapshot() == React(queue.generator, old(Snapshot()), Repair(failed))
    {
      if pass.None? || pass.value.config >= |queue.objects| || pass.value.todo.None? {
        return;
      }
      var (dir, issue) := pass.value.todo.value;
      queue.node.dirs := queue.node.dirs[dir := Repaired(At(queue.node.dirs, dir), issue, failed)];
      pass := Moved(queue.generator, queue.objects, pass.value);
    }
  }
}
