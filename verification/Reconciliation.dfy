/** One complete setup run followed by a health pass on one node: src/cluster/serviceDeployment.ts and
    src/cluster/healthManager.ts with all commands succeeding, an idle queue and an unchanged configuration. */
module Reconciliation {
  import opened Wrappers
  import opened ServiceDirs

  /** `Up` includes a container whose health check is still starting; `Sick` runs but fails its health check. */
  datatype Status = Up | Sick | Down

  /** `compose` is the compose file that the container was created from, `config` the other files as it has read them, when
      it was created or last reloaded. */
  datatype Container = Container(compose: Option<string>, config: Files, status: Status)

  datatype Slot = Slot(directory: Directory, container: Option<Container>)

  /** The service directories of the node. */
  type World = map<string, Slot>

  /** What the configuration generates for this node. */
  datatype Plan = Plan(isCoordinator: bool, etcd: Files, haproxy: Files, services: seq<(string, Files)>)

  function At(world: World, dir: string): Slot {
    if dir in world then world[dir] else Slot(EMPTY_DIRECTORY, None)
  }

  // Commands

  function ComposePart(files: Files): Option<string> {
    if COMPOSE_FILE in files then Some(files[COMPOSE_FILE]) else None
  }

  function ConfigPart(files: Files): Files {
    files - {COMPOSE_FILE}
  }

  function Created(files: Files): Container {
    Container(ComposePart(files), ConfigPart(files), Up)
  }

  /** The container runs what these files say. */
  predicate Runs(container: Container, files: Files) {
    container.compose == ComposePart(files) && container.config == ConfigPart(files)
  }

  /** `up -d`. Without force it keeps a container that was created from this configuration, and starts it if it is stopped;
      only etcd has a container then, and all its files are part of its compose configuration. */
  function ComposeUp(slot: Slot, forceRecreate: bool): Slot {
    var created := Some(Created(slot.directory.files));
    match slot.container
    case None => slot.(container := created)
    case Some(container) =>
      if forceRecreate || !Runs(container, slot.directory.files) || container.status.Down?
      then slot.(container := created)
      else slot
  }

  function ComposeDown(slot: Slot): Slot {
    if COMPOSE_FILE in slot.directory.files then slot.(container := None) else slot
  }

  predicate SignalReaches(slot: Slot) {
    slot.container.Some? && !slot.container.value.status.Down?
  }

  /** The signal makes a running HAProxy read its configuration again. The container stays the one that it is, created from
      the compose file of that time. */
  function Reload(slot: Slot): Slot
    requires SignalReaches(slot)
  {
    slot.(container := Some(slot.container.value.(config := ConfigPart(slot.directory.files))))
  }

  // Setup run

  function SetupSlot(slot: Slot, files: Files, forceRecreate: bool): Slot {
    var written := slot.(directory := Written(slot.directory, files));
    if UpToDate(slot.directory, files) then written else ComposeUp(written, forceRecreate)
  }

  function SetupHaproxySlot(slot: Slot, files: Files): Slot {
    var written := slot.(directory := Written(slot.directory, files));
    if UpToDate(slot.directory, files) then written
    else if SignalReaches(written) then Reload(written)
    else ComposeUp(written, true)
  }

  /** What a failing command leaves behind: the old container, stopped or as it was, nothing, or a new container. */
  datatype Leftover = Old(stopped: bool) | Gone | New(status: Status)

  function LeftBy(container: Option<Container>, files: Files, left: Leftover): Option<Container> {
    match left
    case Old(stopped) =>
      if stopped && container.Some? then Some(container.value.(status := Down)) else container
    case Gone => None
    case New(status) => Some(Created(files).(status := status))
  }

  /** How setting up a directory can fail: before or while writing its files, or with a failing command afterwards. */
  datatype Failure =
    | BeforeWriting
    | WhileWriting(written: Files, hashLost: bool)
    | InCommand(left: Leftover)

  function FailedSlot(slot: Slot, files: Files, failure: Failure): Slot {
    match failure
    case BeforeWriting => slot
    case WhileWriting(written, hashLost) =>
      slot.(directory := PartlyWritten(slot.directory, files, written, hashLost))
    case InCommand(left) =>
      var directory := Written(slot.directory, files);
      if UpToDate(slot.directory, files) then slot
      else Slot(directory, LeftBy(slot.container, directory.files, left))
  }

  function SetupEtcd(world: World, plan: Plan): World {
    world[ETCD := SetupSlot(At(world, ETCD), plan.etcd, false)]
  }

  function SetupHaproxy(world: World, plan: Plan): World {
    if plan.isCoordinator then world[HAPROXY := SetupHaproxySlot(At(world, HAPROXY), plan.haproxy)]
    else if HAPROXY in world then world[HAPROXY := ComposeDown(world[HAPROXY])]
    else world
  }

  function SetupEach(world: World, services: seq<(string, Files)>): World {
    if services == [] then world else
    var (id, files) := services[|services| - 1];
    var before := SetupEach(world, services[..|services| - 1]);
    before[id := SetupSlot(At(before, id), files, true)]
  }

  function ServiceIds(services: seq<(string, Files)>): set<string> {
    set i | 0 <= i < |services| :: services[i].0
  }

  predicate Removed(dir: string, plan: Plan) {
    dir !in ServiceIds(plan.services) && dir != ETCD && dir != HAPROXY
  }

  function StopRemoved(world: World, plan: Plan): World {
    map dir | dir in world :: if Removed(dir, plan) then ComposeDown(world[dir]) else world[dir]
  }

  /** The world after the two static services have been set up. */
  function StaticSetup(world: World, plan: Plan): World {
    SetupHaproxy(SetupEtcd(world, plan), plan)
  }

  function SetupRun(world: World, plan: Plan): World {
    StopRemoved(SetupEach(StaticSetup(world, plan), plan.services), plan)
  }

  // Health pass

  datatype Issue = MissingContainer | BadContainer

  function CheckService(slot: Slot): Option<Issue> {
    if COMPOSE_FILE !in slot.directory.files then None
    else match slot.container
      case None => Some(MissingContainer)
      case Some(container) => if container.status.Up? then None else Some(BadContainer)
  }

  function HealSlot(slot: Slot): Slot {
    match CheckService(slot)
    case None => slot
    case Some(issue) => ComposeUp(slot, issue.BadContainer?)
  }

  function HealAt(world: World, dir: string): World {
    if dir in world then world[dir := HealSlot(world[dir])] else world
  }

  function HealEach(world: World, services: seq<(string, Files)>): World {
    if services == [] then world
    else HealAt(HealEach(world, services[..|services| - 1]), services[|services| - 1].0)
  }

  function HealthPass(world: World, plan: Plan): World {
    var etcd := HealAt(world, ETCD);
    HealEach(if plan.isCoordinator then HealAt(etcd, HAPROXY) else etcd, plan.services)
  }

  function Reconciled(world: World, plan: Plan): World {
    HealthPass(SetupRun(world, plan), plan)
  }

  // One directory at a time

  /** Service ids are distinct and contain no underscore, and every generated file set has a compose file. */
  ghost predicate PlanWellFormed(plan: Plan) {
    && COMPOSE_FILE in plan.etcd && COMPOSE_FILE in plan.haproxy
    && (forall i :: 0 <= i < |plan.services| ==>
          plan.services[i].0 != ETCD && plan.services[i].0 != HAPROXY && COMPOSE_FILE in plan.services[i].1)
    && Distinct(plan.services)
  }

  ghost predicate Distinct(services: seq<(string, Files)>) {
    forall i, j :: 0 <= i < j < |services| ==> services[i].0 != services[j].0
  }

  ghost predicate SlotInvariant(slot: Slot) {
    NamesKept(slot.directory) && (slot.container.Some? ==> COMPOSE_FILE in slot.directory.files)
  }

  /** Containers come from compose files, and the files that the hash files describe exist. */
  ghost predicate WorldInvariant(world: World) {
    forall dir :: dir in world ==> SlotInvariant(world[dir])
  }

  /** What the plan wants running. */
  function Desired(plan: Plan): set<string> {
    {ETCD} + (if plan.isCoordinator then {HAPROXY} else {}) + ServiceIds(plan.services)
  }

  /** What the plan generates for a directory. */
  function FilesFor(plan: Plan, dir: string): Files
    requires dir in Desired(plan)
  {
    if dir == ETCD then plan.etcd
    else if dir == HAPROXY && plan.isCoordinator then plan.haproxy
    else LookUp(plan.services, dir)
  }

  function LookUp(services: seq<(string, Files)>, dir: string): Files
    requires dir in ServiceIds(services)
  {
    var last := |services| - 1;
    if services[last].0 == dir then services[last].1
    else
      assert dir in ServiceIds(services[..last]);
      LookUp(services[..last], dir)
  }

  lemma {:induction false} SetupEachAt(world: World, services: seq<(string, Files)>, dir: string)
    requires Distinct(services)
    ensures At(SetupEach(world, services), dir) ==
            if dir in ServiceIds(services) then SetupSlot(At(world, dir), LookUp(services, dir), true) else At(world, dir)
    ensures SetupEach(world, services).Keys == world.Keys + ServiceIds(services)
  {
    hide SetupSlot;
    if services != [] {
      var last := |services| - 1;
      var front := services[..last];
      SetupEachAt(world, front, dir);
      SetupEachAt(world, front, services[last].0);
      assert ServiceIds(services) == ServiceIds(front) + {services[last].0};
      assert services[last].0 !in ServiceIds(front);
    }
  }

  lemma {:induction false} HealEachAt(world: World, services: seq<(string, Files)>, dir: string)
    requires Distinct(services) && ServiceIds(services) <= world.Keys
    ensures HealEach(world, services).Keys == world.Keys
    ensures At(HealEach(world, services), dir) ==
            if dir in ServiceIds(services) then HealSlot(At(world, dir)) else At(world, dir)
  {
    if services != [] {
      var last := |services| - 1;
      var front := services[..last];
      assert ServiceIds(services) == ServiceIds(front) + {services[last].0};
      assert services[last].0 !in ServiceIds(front);
      HealEachAt(world, front, dir);
      HealEachAt(world, front, services[last].0);
    }
  }

  function AfterSetup(slot: Slot, plan: Plan, dir: string): Slot {
    if dir == ETCD then SetupSlot(slot, plan.etcd, false)
    else if dir == HAPROXY && plan.isCoordinator then SetupHaproxySlot(slot, plan.haproxy)
    else if dir in ServiceIds(plan.services) then SetupSlot(slot, LookUp(plan.services, dir), true)
    else ComposeDown(slot)
  }

  lemma StaticNames(plan: Plan)
    requires PlanWellFormed(plan)
    ensures ETCD != HAPROXY && ETCD !in ServiceIds(plan.services) && HAPROXY !in ServiceIds(plan.services)
    ensures ComposeDown(Slot(EMPTY_DIRECTORY, None)) == Slot(EMPTY_DIRECTORY, None)
  {
  }

  lemma StopRemovedAt(world: World, plan: Plan, dir: string)
    ensures At(StopRemoved(world, plan), dir) ==
            if Removed(dir, plan) then ComposeDown(At(world, dir)) else At(world, dir)
    ensures StopRemoved(world, plan).Keys == world.Keys
  {
  }

  lemma StaticSetupAt(world: World, plan: Plan, dir: string)
    ensures At(StaticSetup(world, plan), dir) ==
            if dir == ETCD then SetupSlot(At(world, dir), plan.etcd, false)
            else if dir == HAPROXY && plan.isCoordinator then SetupHaproxySlot(At(world, dir), plan.haproxy)
            else if dir == HAPROXY then ComposeDown(At(world, dir))
            else At(world, dir)
    ensures StaticSetup(world, plan).Keys == world.Keys + {ETCD} + if plan.isCoordinator then {HAPROXY} else {}
  {
  }

  /** What a setup run does to a directory does not depend on the other directories. */
  lemma SetupRunAt(world: World, plan: Plan, dir: string)
    requires PlanWellFormed(plan)
    ensures At(SetupRun(world, plan), dir) == AfterSetup(At(world, dir), plan, dir)
    ensures SetupRun(world, plan).Keys == world.Keys + Desired(plan)
  {
    hide SetupSlot, SetupHaproxySlot, ComposeDown, StaticSetup, StopRemoved, SetupEach, ServiceIds, LookUp, PlanWellFormed, At;
    StaticNames(plan);
    var prepared := StaticSetup(world, plan);
    assert Distinct(plan.services) by {
      ServicesDistinct(plan);
    }
    StaticSetupAt(world, plan, dir);
    SetupEachAt(prepared, plan.services, dir);
    StopRemovedAt(SetupEach(prepared, plan.services), plan, dir);
  }

  lemma ServicesDistinct(plan: Plan)
    requires PlanWellFormed(plan)
    ensures Distinct(plan.services)
  {
  }

  lemma HealthPassAt(world: World, plan: Plan, dir: string)
    requires PlanWellFormed(plan) && Desired(plan) <= world.Keys
    ensures At(HealthPass(world, plan), dir) == if dir in Desired(plan) then HealSlot(At(world, dir)) else At(world, dir)
    ensures HealthPass(world, plan).Keys == world.Keys
  {
    StaticNames(plan);
    hide HealSlot, PlanWellFormed;
    var etcd := HealAt(world, ETCD);
    HealEachAt(if plan.isCoordinator then HealAt(etcd, HAPROXY) else etcd, plan.services, dir);
  }

  /** What reconciling does to a directory does not depend on the other directories. */
  lemma ReconciledAt(world: World, plan: Plan, dir: string)
    requires PlanWellFormed(plan)
    ensures At(Reconciled(world, plan), dir) ==
            if dir in Desired(plan) then HealSlot(AfterSetup(At(world, dir), plan, dir)) else ComposeDown(At(world, dir))
    ensures Reconciled(world, plan).Keys == world.Keys + Desired(plan)
  {
    StaticNames(plan);
    hide HealSlot, SetupSlot, SetupHaproxySlot, ComposeDown, PlanWellFormed, SetupRun, HealthPass;
    SetupRunAt(world, plan, dir);
    HealthPassAt(SetupRun(world, plan), plan, dir);
  }

  // Main results

  predicate RunningAt(world: World, dir: string) {
    dir in world && world[dir].container.Some? && world[dir].container.value.status.Up?
  }

  lemma SlotAfterSetup(slot: Slot, plan: Plan, dir: string)
    requires PlanWellFormed(plan) && SlotInvariant(slot) && dir in Desired(plan)
    ensures var after := AfterSetup(slot, plan, dir);
            && SlotInvariant(after) && COMPOSE_FILE in after.directory.files
            && after.directory == Written(slot.directory, FilesFor(plan, dir))
  {
    StaticNames(plan);
    if dir in ServiceIds(plan.services) {
      LookUpWellFormed(plan.services, dir);
    }
    hide PlanWellFormed, LookUp, ServiceIds;
  }

  lemma {:induction false} LookUpWellFormed(services: seq<(string, Files)>, dir: string)
    requires dir in ServiceIds(services)
    ensures (dir, LookUp(services, dir)) in services
  {
    var last := |services| - 1;
    if services[last].0 != dir {
      LookUpWellFormed(services[..last], dir);
    }
  }

  /** From any state of the node, reconciling leaves exactly the desired containers: each of them is up, and nothing
      else exists, not even stopped. A desired directory holds the generated files exactly when it was not torn before. */
  lemma ReconcilesToPlan(world: World, plan: Plan, dir: string)
    requires PlanWellFormed(plan) && WorldInvariant(world)
    ensures var after := Reconciled(world, plan);
            && (RunningAt(after, dir) <==> dir in Desired(plan))
            && (dir in after && after[dir].container.Some? ==> dir in Desired(plan))
            && (dir in Desired(plan) ==>
                  (Holds(At(after, dir).directory, FilesFor(plan, dir)) <==> !Torn(At(world, dir).directory, FilesFor(plan, dir))))
  {
    hide AfterSetup, Desired, FilesFor, PlanWellFormed, Reconciled, NamesKept, Torn, Holds, Written, Runs;
    ReconciledAt(world, plan, dir);
    assert SlotInvariant(At(world, dir)) by {
      EmptySlotInvariant();
    }
    if dir in Desired(plan) {
      SlotAfterSetup(At(world, dir), plan, dir);
      WrittenHolds(At(world, dir).directory, FilesFor(plan, dir));
    }
  }

  /** The hash file differs from what is generated, so that a setup run does something here. */
  predicate Outdated(slot: Slot, files: Files) {
    slot.directory.hash != Some(Digest(files))
  }

  /** What a setup run by itself leaves where the hash differed: the generated files over the former ones, and a container
      that runs them. HAProxy, when it is running, stays the container it is and only reads its other files again; etcd stays
      the container it is when it runs these files already and is not down. */
  ghost predicate SetUpAnew(before: Slot, after: Slot, files: Files, dir: string)
    requires COMPOSE_FILE in after.directory.files
  {
    && after.directory.files == before.directory.files + files && after.directory.hash == Some(Digest(files))
    && after.container.Some?
    && var container := after.container.value;
       var compose, config := after.directory.files[COMPOSE_FILE], after.directory.files - {COMPOSE_FILE};
       var running := before.container.Some? && before.container.value.status != Down;
       && container.config == config
       && if dir == HAPROXY && running then
            container.compose == before.container.value.compose && container.status == before.container.value.status
          else
            && container.compose == Some(compose)
            && container.status == if dir == ETCD && running && before.container.value == Container(Some(compose), config, Sick)
                                   then Sick else Up
  }

  /** A setup run by itself, from any state of the node. */
  lemma SetupRunLeaves(world: World, plan: Plan, dir: string)
    requires PlanWellFormed(plan) && WorldInvariant(world)
    ensures var before, after := At(world, dir), At(SetupRun(world, plan), dir);
            && (dir in Desired(plan) && !Outdated(before, FilesFor(plan, dir)) ==> after == before)
            && (dir in Desired(plan) && Outdated(before, FilesFor(plan, dir)) ==>
                  COMPOSE_FILE in after.directory.files && SetUpAnew(before, after, FilesFor(plan, dir), dir))
            && (dir !in Desired(plan) ==> after == Slot(before.directory, None))
  {
    hide PlanWellFormed, SetupRun, LookUp, ServiceIds, SetUpAnew, SetupSlot, SetupHaproxySlot, Outdated;
    SetupRunAt(world, plan, dir);
    StaticNames(plan);
    assert SlotInvariant(At(world, dir)) by {
      EmptySlotInvariant();
    }
    if dir in Desired(plan) {
      SlotAfterSetup(At(world, dir), plan, dir);
      if dir == HAPROXY {
        HaproxySetUp(At(world, dir), plan.haproxy);
      } else {
        ServiceSetUp(At(world, dir), FilesFor(plan, dir), dir);
      }
    }
  }

  /** Whether a wanted container is up after a setup run by itself: where the hash matched, as before; where it differed,
      yes, but for a sick HAProxy, which is only reloaded, and a sick etcd that runs the generated files already. */
  ghost predicate UpAfterSetup(before: Slot, files: Files, dir: string) {
    if !Outdated(before, files) then before.container.Some? && before.container.value.status.Up?
    else
      var now := before.directory.files + files;
      before.container.Some? && before.container.value.status.Sick? ==>
        dir != HAPROXY && (dir == ETCD ==> !Runs(before.container.value, now))
  }

  lemma UpAfterSetupRun(world: World, plan: Plan, dir: string)
    requires PlanWellFormed(plan) && WorldInvariant(world) && dir in Desired(plan)
    ensures RunningAt(SetupRun(world, plan), dir) <==> UpAfterSetup(At(world, dir), FilesFor(plan, dir), dir)
  {
    hide PlanWellFormed, SetupRun, Desired, FilesFor, WorldInvariant;
    SetupRunLeaves(world, plan, dir);
  }

  /** What a health pass by itself leaves: a wanted container that is up stays as it is, a missing one and one that is not up
      are created from the files of the directory, where it has a compose file. */
  lemma HealthPassLeaves(world: World, plan: Plan, dir: string)
    requires PlanWellFormed(plan) && Desired(plan) <= world.Keys
    ensures var before, after := At(world, dir), At(HealthPass(world, plan), dir);
            && after.directory == before.directory
            && if dir !in Desired(plan) || RunningAt(world, dir) || COMPOSE_FILE !in before.directory.files then after == before
               else
                 var files := before.directory.files;
                 after.container == Some(Container(Some(files[COMPOSE_FILE]), files - {COMPOSE_FILE}, Up))
  {
    hide PlanWellFormed, HealthPass, Desired;
    HealthPassAt(world, plan, dir);
  }

  lemma ServiceSetUp(slot: Slot, files: Files, dir: string)
    requires COMPOSE_FILE in Written(slot.directory, files).files && dir != HAPROXY
    ensures var after := SetupSlot(slot, files, dir != ETCD);
            && (!Outdated(slot, files) ==> after == slot)
            && (Outdated(slot, files) ==> COMPOSE_FILE in after.directory.files && SetUpAnew(slot, after, files, dir))
  {
  }

  lemma HaproxySetUp(slot: Slot, files: Files)
    requires COMPOSE_FILE in Written(slot.directory, files).files
    ensures var after := SetupHaproxySlot(slot, files);
            && (!Outdated(slot, files) ==> after == slot)
            && (Outdated(slot, files) ==> COMPOSE_FILE in after.directory.files && SetUpAnew(slot, after, files, HAPROXY))
  {
  }

  /** The container is up and does not run the files of its directory, and the hash file accounts for the generated ones
      already. */
  predicate StaleUnnoticed(slot: Slot, files: Files) {
    && UpToDate(slot.directory, files)
    && slot.container.Some? && slot.container.value.status.Up?
    && !Runs(slot.container.value, slot.directory.files)
  }

  /** A reload will be taken for applying a compose file that the container was not created from. */
  predicate ReloadMisses(slot: Slot, files: Files) {
    && !UpToDate(slot.directory, files)
    && slot.container.Some? && slot.container.value.status.Up?
    && slot.container.value.compose != ComposePart(slot.directory.files + files)
  }

  /** The two ways in which a container misses the generated files. */
  predicate StaysStale(slot: Slot, plan: Plan, dir: string)
    requires dir in Desired(plan)
  {
    || StaleUnnoticed(slot, FilesFor(plan, dir))
    || (dir == HAPROXY && plan.isCoordinator && ReloadMisses(slot, FilesFor(plan, dir)))
  }

  lemma HaproxyFreshness(slot: Slot, files: Files)
    requires COMPOSE_FILE in Written(slot.directory, files).files
    ensures var after := HealSlot(SetupHaproxySlot(slot, files));
            && after.container.Some?
            && (Runs(after.container.value, after.directory.files) <==>
                !StaleUnnoticed(slot, files) && !ReloadMisses(slot, files))
            && (ReloadMisses(slot, files) ==> StaleUnnoticed(after, files))
  {
  }

  lemma ServiceFreshness(slot: Slot, files: Files, forceRecreate: bool)
    requires COMPOSE_FILE in Written(slot.directory, files).files
    ensures var after := HealSlot(SetupSlot(slot, files, forceRecreate));
            && after.container.Some?
            && (Runs(after.container.value, after.directory.files) <==> !StaleUnnoticed(slot, files))
  {
  }

  /** Reconciling brings a container to the files of its directory exactly when it was not stale unnoticed before and,
      for HAProxy on the coordinator, is not only reloaded for a new compose file. */
  lemma FreshUnlessStaleUnnoticed(world: World, plan: Plan, dir: string)
    requires PlanWellFormed(plan) && WorldInvariant(world) && dir in Desired(plan)
    ensures var after := At(Reconciled(world, plan), dir);
            && after.container.Some?
            && (Runs(after.container.value, after.directory.files) <==> !StaysStale(At(world, dir), plan, dir))
  {
    hide HealSlot, StaleUnnoticed, ReloadMisses, PlanWellFormed, LookUp, ServiceIds, SetupSlot, SetupHaproxySlot, Runs, Written,
         SlotInvariant, Reconciled, ComposeDown;
    StaticNames(plan);
    var slot := At(world, dir);
    ReconciledAt(world, plan, dir);
    EmptySlotInvariant();
    assert SlotInvariant(slot);
    SlotAfterSetup(slot, plan, dir);
    if dir == HAPROXY {
      HaproxyFreshness(slot, plan.haproxy);
    } else {
      ServiceFreshness(slot, FilesFor(plan, dir), dir != ETCD);
    }
  }

  /** A container that is stale unnoticed stays so: no later reconciliation with the same plan replaces it. */
  lemma StaleIsNeverRepaired(world: World, plan: Plan, dir: string, rounds: nat)
    requires PlanWellFormed(plan) && WorldInvariant(world) && dir in Desired(plan)
    requires StaleUnnoticed(At(world, dir), FilesFor(plan, dir))
    ensures At(Repeated(world, plan, rounds), dir) == At(world, dir)
    decreases rounds
  {
    hide AfterSetup, HealSlot, StaleUnnoticed, PlanWellFormed, SlotInvariant, Reconciled;
    if rounds > 0 {
      ReconciledAt(world, plan, dir);
      EmptySlotInvariant();
      assert SlotInvariant(At(world, dir));
      StaleSlotStays(At(world, dir), plan, dir);
      ReconcileKeepsInvariant(world, plan);
      StaleIsNeverRepaired(Reconciled(world, plan), plan, dir, rounds - 1);
    }
  }

  lemma StaleSlotStays(slot: Slot, plan: Plan, dir: string)
    requires PlanWellFormed(plan) && dir in Desired(plan) && SlotInvariant(slot)
    requires StaleUnnoticed(slot, FilesFor(plan, dir))
    ensures HealSlot(AfterSetup(slot, plan, dir)) == slot
  {
  }

  function Repeated(world: World, plan: Plan, rounds: nat): World
    decreases rounds
  {
    if rounds == 0 then world else Repeated(Reconciled(world, plan), plan, rounds - 1)
  }

  lemma ReconcileKeepsInvariant(world: World, plan: Plan)
    requires PlanWellFormed(plan) && WorldInvariant(world)
    ensures WorldInvariant(Reconciled(world, plan))
  {
    hide AfterSetup, HealSlot, SlotInvariant, Reconciled, PlanWellFormed, Desired, ComposeDown;
    forall dir | dir in Reconciled(world, plan) ensures SlotInvariant(Reconciled(world, plan)[dir]) {
      ReconciledAt(world, plan, dir);
      EmptySlotInvariant();
      ReconciledSlotInvariant(At(world, dir), plan, dir);
    }
  }

  lemma EmptySlotInvariant()
    ensures SlotInvariant(Slot(EMPTY_DIRECTORY, None))
  {
  }

  lemma ReconciledSlotInvariant(slot: Slot, plan: Plan, dir: string)
    requires PlanWellFormed(plan) && SlotInvariant(slot)
    ensures SlotInvariant(ComposeDown(slot))
    ensures dir in Desired(plan) ==> SlotInvariant(HealSlot(AfterSetup(slot, plan, dir)))
  {
    if dir in Desired(plan) {
      SlotAfterSetup(slot, plan, dir);
      hide AfterSetup, PlanWellFormed, FilesFor;
    }
  }

  /** How a container gets stale unnoticed: the files are written and hashed, and the following command fails. It happens
      exactly when the old container, which ran the old files, keeps running and the new files are not what the directory
      held anyway. */
  lemma FailedUpLeavesStale(slot: Slot, files: Files, left: Leftover)
    requires SlotInvariant(slot) && COMPOSE_FILE in files && !UpToDate(slot.directory, files)
    requires slot.container.Some? && slot.container.value.status.Up? && Runs(slot.container.value, slot.directory.files)
    ensures var after := FailedSlot(slot, files, InCommand(left));
            && SlotInvariant(after)
            && (StaleUnnoticed(after, files) <==> left == Old(false) && !Holds(slot.directory, files))
  {
    var before, after := slot.directory.files, slot.directory.files + files;
    assert before == after ==> Holds(slot.directory, files);
    if name :| name in files && (name !in before || before[name] != files[name]) {
      if name == COMPOSE_FILE {
        assert ComposePart(before) != ComposePart(after);
      } else {
        assert name in ConfigPart(after);
      }
    } else {
      assert before == after;
    }
  }

  /** What a setup that throws can do to its directory: nothing where the hash matches. Elsewhere, while it writes, the
      container is left alone, files of other names stay, and the hash file stays or is lost; a command fails behind a complete
      write, and the container is then the old one, the old one stopped, gone, or a new one with the files of the directory. */
  lemma FailedSetupLeaves(slot: Slot, files: Files, failure: Failure)
    ensures var after := FailedSlot(slot, files, failure);
            && (failure.BeforeWriting? || !Outdated(slot, files) ==> after == slot)
            && (Outdated(slot, files) && failure.WhileWriting? ==>
                  && after.container == slot.container
                  && after.directory.hash == (if failure.hashLost then None else slot.directory.hash)
                  && after.directory.files.Keys == slot.directory.files.Keys + (failure.written.Keys * files.Keys)
                  && forall name :: name in after.directory.files ==>
                       after.directory.files[name] ==
                       if name in failure.written && name in files then failure.written[name] else slot.directory.files[name])
            && (Outdated(slot, files) && failure.InCommand? ==>
                  && after.directory == Directory(slot.directory.files + files, Some(Digest(files)))
                  && match failure.left
                     case Old(stopped) =>
                       if slot.container.None? || !stopped then after.container == slot.container
                       else after.container == Some(slot.container.value.(status := Down))
                     case Gone => after.container.None?
                     case New(status) =>
                       && after.container.Some? && after.container.value.status == status
                       && Runs(after.container.value, after.directory.files))
  {
  }

  // Two inputs

  const OLD_FILES: Files := map[COMPOSE_FILE := "A", "haproxy.cfg" := "C"]
  const NEW_FILES: Files := map[COMPOSE_FILE := "B", "haproxy.cfg" := "C"]

  function FreshSlot(files: Files): Slot {
    Slot(Directory(files, Some(Digest(files))), Some(Created(files)))
  }

  lemma ExampleFiles()
    ensures OLD_FILES != NEW_FILES && OLD_FILES + NEW_FILES == NEW_FILES
    ensures ComposePart(OLD_FILES) == Some("A") && ComposePart(NEW_FILES) == Some("B")
    ensures ConfigPart(OLD_FILES) == ConfigPart(NEW_FILES)
    ensures Holds(Directory(OLD_FILES, None), OLD_FILES) && !Holds(Directory(OLD_FILES, None), NEW_FILES)
  {
    assert OLD_FILES[COMPOSE_FILE] == "A" && NEW_FILES[COMPOSE_FILE] == "B";
  }

  /** A healthy HAProxy on the coordinator, and a release that changes its compose file only: the container is reloaded and
      keeps the old compose file, in any number of rounds. */
  lemma ReloadKeepsOldComposeFile(rounds: nat)
    ensures var world: World := map[HAPROXY := FreshSlot(OLD_FILES)];
            var plan := Plan(true, NEW_FILES, NEW_FILES, []);
            var after := At(Repeated(Reconciled(world, plan), plan, rounds), HAPROXY);
            && PlanWellFormed(plan) && WorldInvariant(world)
            && after.directory.files == NEW_FILES
            && after.container.Some? && after.container.value.compose == Some("A")
  {
    hide Reconciled, Repeated, HealSlot, Runs;
    var world: World := map[HAPROXY := FreshSlot(OLD_FILES)];
    var plan := Plan(true, NEW_FILES, NEW_FILES, []);
    ExampleFiles();
    StaticNames(plan);
    ReconciledAt(world, plan, HAPROXY);
    ReconcileKeepsInvariant(world, plan);
    HaproxyFreshness(FreshSlot(OLD_FILES), NEW_FILES);
    HealthyStays(SetupHaproxySlot(FreshSlot(OLD_FILES), NEW_FILES));
    StaleIsNeverRepaired(Reconciled(world, plan), plan, HAPROXY, rounds);
  }

  lemma HealthyStays(slot: Slot)
    requires slot.container.Some? && slot.container.value.status.Up?
    ensures HealSlot(slot) == slot
  {
  }

  /** A healthy service, a deployment with a new compose file and a failing `up`: the old container stays for good. */
  lemma FailedUpIsNeverRepeated(rounds: nat)
    ensures var failed := FailedSlot(FreshSlot(OLD_FILES), NEW_FILES, InCommand(Old(false)));
            var world: World := map["web" := failed];
            var plan := Plan(false, NEW_FILES, NEW_FILES, [("web", NEW_FILES)]);
            var after := At(Repeated(world, plan, rounds), "web");
            && PlanWellFormed(plan) && WorldInvariant(world)
            && after.directory.files == NEW_FILES && after.container == Some(Created(OLD_FILES))
  {
    hide Reconciled, Repeated, Created;
    var failed := FailedSlot(FreshSlot(OLD_FILES), NEW_FILES, InCommand(Old(false)));
    var world: World := map["web" := failed];
    var plan := Plan(false, NEW_FILES, NEW_FILES, [("web", NEW_FILES)]);
    ExampleFiles();
    assert |"web"| != |ETCD| && |"web"| != |HAPROXY|;
    StaticNames(plan);
    assert plan.services[0].0 == "web";
    FreshRuns(OLD_FILES);
    FailedUpLeavesStale(FreshSlot(OLD_FILES), NEW_FILES, Old(false));
    StaleIsNeverRepaired(world, plan, "web", rounds);
  }

  lemma FreshRuns(files: Files)
    ensures Runs(Created(files), files) && Created(files).status.Up?
  {
  }

  /** A service that was removed and comes back with identical files: the setup run leaves it without a container, as
      the hash suppresses `up`, and the health pass supplies it. */
  lemma ReAddedServiceIsHealed(world: World, plan: Plan, dir: string)
    requires PlanWellFormed(plan) && WorldInvariant(world) && dir in ServiceIds(plan.services)
    requires At(world, dir).container.None? && UpToDate(At(world, dir).directory, FilesFor(plan, dir))
    ensures At(SetupRun(world, plan), dir) == At(world, dir)
    ensures At(Reconciled(world, plan), dir).container == Some(Created(At(world, dir).directory.files))
  {
    SetupRunAt(world, plan, dir);
    ReconciledAt(world, plan, dir);
    StaticNames(plan);
    assert SlotInvariant(At(world, dir));
    SlotAfterSetup(At(world, dir), plan, dir);
  }

  // The code, step by step

  /** The service directories and containers of the local node. */
  class NodeServices {
    var dirs: World

    constructor (dirs: World)
      ensures this.dirs == dirs
    {
      this.dirs := dirs;
    }

    /** Goes through the file writing loop of a directory object and stores what it leaves. */
    method WriteServiceConfigs(dir: string, files: Files) returns (changed: bool)
      modifies this
      ensures changed <==> !UpToDate(At(old(dirs), dir).directory, files)
      ensures dirs == old(dirs)[dir := At(old(dirs), dir).(directory := Written(At(old(dirs), dir).directory, files))]
    {
      var slot := At(dirs, dir);
      var directory := new ServiceDirectory();
      directory.files, directory.hash := slot.directory.files, slot.directory.hash;
      changed := directory.WriteServiceConfigs(files);
      dirs := dirs[dir := slot.(directory := directory.State())];
    }

    method RunComposeUp(dir: string, forceRecreate: bool)
      requires dir in dirs
      modifies this
      ensures dirs == old(dirs)[dir := ComposeUp(old(dirs)[dir], forceRecreate)]
    {
      dirs := dirs[dir := ComposeUp(dirs[dir], forceRecreate)];
    }

    method RunComposeDown(dir: string)
      modifies this
      ensures dirs == if dir in old(dirs) then old(dirs)[dir := ComposeDown(old(dirs)[dir])] else old(dirs)
      ensures dir in old(dirs) && COMPOSE_FILE in old(dirs)[dir].directory.files ==>
                dirs == old(dirs)[dir := Slot(old(dirs)[dir].directory, None)]
      ensures dir !in old(dirs) || COMPOSE_FILE !in old(dirs)[dir].directory.files ==> dirs == old(dirs)
    {
      if dir !in dirs || COMPOSE_FILE !in dirs[dir].directory.files {
        assert dir in dirs ==> dirs == dirs[dir := ComposeDown(dirs[dir])];
        return;
      }
      dirs := dirs[dir := dirs[dir].(container := None)];
    }

    method SignalService(dir: string) returns (sent: bool)
      requires dir in dirs
      modifies this
      ensures sent <==> SignalReaches(old(dirs)[dir])
      ensures dirs == if sent then old(dirs)[dir := Reload(old(dirs)[dir])] else old(dirs)
    {
      sent := SignalReaches(dirs[dir]);
      if sent {
        dirs := dirs[dir := Reload(dirs[dir])];
      }
    }

    method SetupServiceAt(dir: string, files: Files, forceRecreate: bool)
      modifies this
      ensures dirs == old(dirs)[dir := SetupSlot(At(old(dirs), dir), files, forceRecreate)]
    {
      var changed := WriteServiceConfigs(dir, files);
      if changed {
        RunComposeUp(dir, forceRecreate);
      }
    }

    method SetupHaproxyAt(plan: Plan)
      modifies this
      ensures dirs == SetupHaproxy(old(dirs), plan)
    {
      if !plan.isCoordinator {
        RunComposeDown(HAPROXY);
        return;
      }
      var changed := WriteServiceConfigs(HAPROXY, plan.haproxy);
      if !changed {
        return;
      }
      var sent := SignalService(HAPROXY);
      if !sent {
        RunComposeUp(HAPROXY, true);
      }
    }

    method StopRemovedServices(plan: Plan)
      modifies this
      ensures dirs == StopRemoved(old(dirs), plan)
    {
      ghost var before := dirs;
      var remaining := dirs.Keys;
      while remaining != {}
        invariant remaining <= before.Keys
        invariant dirs == map dir | dir in before ::
                            if dir !in remaining && Removed(dir, plan) then ComposeDown(before[dir]) else before[dir]
        decreases remaining
      {
        var dir :| dir in remaining;
        remaining := remaining - {dir};
        if Removed(dir, plan) {
          RunComposeDown(dir);
        }
      }
    }

    /** The setup run of `setupServices`. */
    method SetupServices(plan: Plan)
      modifies this
      ensures dirs == SetupRun(old(dirs), plan)
    {
      SetupServiceAt(ETCD, plan.etcd, false);
      SetupHaproxyAt(plan);
      ghost var prepared := dirs;
      for i := 0 to |plan.services|
        invariant dirs == SetupEach(prepared, plan.services[..i])
      {
        assert plan.services[..i + 1][..i] == plan.services[..i];
        SetupServiceAt(plan.services[i].0, plan.services[i].1, true);
      }
      assert plan.services[..|plan.services|] == plan.services;
      StopRemovedServices(plan);
    }

    method CheckAndRepair(dir: string)
      modifies this
      ensures dirs == HealAt(old(dirs), dir)
    {
      if dir !in dirs {
        return;
      }
      var issue := CheckService(dirs[dir]);
      if issue.Some? {
        RunComposeUp(dir, issue.value.BadContainer?);
      } else {
        assert dirs == dirs[dir := dirs[dir]];
      }
    }

    /** `checkNodeHealth`. */
    method CheckNodeHealth(plan: Plan)
      modifies this
      ensures dirs == HealthPass(old(dirs), plan)
    {
      CheckAndRepair(ETCD);
      if plan.isCoordinator {
        CheckAndRepair(HAPROXY);
      }
      ghost var checked := dirs;
      for i := 0 to |plan.services|
        invariant dirs == HealEach(checked, plan.services[..i])
      {
        assert plan.services[..i + 1][..i] == plan.services[..i];
        CheckAndRepair(plan.services[i].0);
      }
      assert plan.services[..|plan.services|] == plan.services;
    }

    /** A setup run followed by a health pass leaves exactly the desired containers up. */
    method Reconcile(plan: Plan)
      requires PlanWellFormed(plan) && WorldInvariant(dirs)
      modifies this
      ensures dirs == Reconciled(old(dirs), plan)
      ensures forall dir :: RunningAt(dirs, dir) <==> dir in Desired(plan)
      ensures WorldInvariant(dirs)
    {
      ghost var before := dirs;
      SetupServices(plan);
      CheckNodeHealth(plan);
      forall dir ensures RunningAt(dirs, dir) <==> dir in Desired(plan) {
        ReconcilesToPlan(before, plan, dir);
      }
      ReconcileKeepsInvariant(before, plan);
    }
  }
}
