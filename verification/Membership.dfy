/** Runs of the coordinator: every interleaving of a join, split at its awaits, with kicks, leader changes, deployments
    and removals (src/cluster/config.ts, `addMissingEtcdMembers` of src/cluster/serviceDeployment.ts). */
module Membership {
  import opened Wrappers
  import opened Constants
  import opened Models
  import opened PortAllocation
  import opened Registries
  import opened ClusterStates
  import opened Decimals

  function PeerUrl(nodeId: nat): string {
    "http://" + WireguardIp(nodeId) + ":2380"
  }

  /** A `joinNode` call waiting inside `addMissingEtcdMembers`: `roster` is the node list it was called with, `listed`
      the peer URLs etcd reported, and the members before `next` have been dealt with. */
  datatype PendingJoin = PendingJoin(node: NodeInfo, roster: seq<NodeInfo>, listed: Option<set<string>>, next: nat)

  /** `etcdPeers` are the peer URLs registered with etcd so far. */
  datatype System = System(cluster: ClusterState, join: Option<PendingJoin>, etcdPeers: set<string>)

  /** One atomic step between two awaits. The booleans are the outcomes of external commands. */
  datatype Step =
    | BeginJoin(hostname: string, publicIp: string, key: string)
    | ListMembers(ok: bool)
    | RegisterNext(ok: bool)
    | CompleteJoin(now: string)
    | RegisterInBackground(peer: nat)
    | Kick(nodeId: int, now: string)
    | SetLeader(nodeId: int, now: string)
    | DeployWeb(text: string, web: WebSpec, now: string)
    | DeployPatroni(text: string, syncMode: SyncMode, now: string)
    | Remove(text: string, now: string)

  /** A change that is refused leaves everything as it was; one that cannot be saved happens all the same, as a whole. */
  function Applied(system: System, result: Result<ClusterState, ConfigError>): System {
    match result
    case Err(_) => system
    case Ok(cluster) => system.(cluster := cluster)
  }

  /** The coordinator's own etcd starts with its own peer URL. */
  function Initial(clusterId: string, accessKey: string, version: int, now: string, coordinator: NodeInfo): System
    requires coordinator.nodeId == 1
  {
    System(Created(clusterId, accessKey, version, now, coordinator), None, {PeerUrl(1)})
  }

  function JoinStep(system: System, join: PendingJoin, step: Step): System {
    match step
    case ListMembers(ok) =>
      if join.listed.Some? then system
      else if ok then system.(join := Some(join.(listed := Some(system.etcdPeers))))
      else system.(join := None)
    case RegisterNext(ok) =>
      if join.listed.None? || join.next >= |join.roster| then system else
      var node := join.roster[join.next];
      if node.nodeId < 0 then system else
      var url := PeerUrl(node.nodeId);
      var advanced := Some(join.(next := join.next + 1));
      if url in join.listed.value then system.(join := advanced)
      else if ok then system.(join := advanced, etcdPeers := system.etcdPeers + {url})
      else system.(join := None)
    case CompleteJoin(now) =>
      if join.listed.None? || join.next < |join.roster| then system
      else system.(cluster := WithNode(system.cluster, join.node, now), join := None)
    case _ => system
  }

  /** The texts of a deployment as the schema of the deploy command returns them. */
  function TrimmedSpec(web: WebSpec): WebSpec {
    web.(image := Trim(web.image), domain := Trim(web.domain), healthPath := Trim(web.healthPath))
  }

  /** The command handlers parse their input, which trims it, before they call the cluster object. A step that is not
      enabled changes nothing. A second join while one is pending is left out. */
  function Next(system: System, step: Step): System {
    match step
    case BeginJoin(hostname, publicIp, key) =>
      if system.join.Some? then system else
      (match JoiningNode(system.cluster, Trim(hostname), publicIp, Trim(key))
       case Err(_) => system
       case Ok(node) => system.(join := Some(PendingJoin(node, system.cluster.nodes + [node], None, 0))))
    case Kick(nodeId, now) => Applied(system, Kicked(system.cluster, nodeId, now))
    case SetLeader(nodeId, now) => Applied(system, WithLeader(system.cluster, nodeId, now))
    case DeployWeb(text, web, now) =>
      var id := Trim(text);
      if !IsServiceId(id) then system
      else Applied(system, WithService(system.cluster, id, NewWeb(system.cluster.services, id, TrimmedSpec(web)), now))
    case DeployPatroni(text, syncMode, now) =>
      var id := Trim(text);
      if !IsServiceId(id) then system
      else Applied(system, WithService(system.cluster, id, NewPatroni(system.cluster.services, id, syncMode), now))
    case Remove(text, now) => Applied(system, WithoutService(system.cluster, Trim(text), now))
    case RegisterInBackground(peer) => system.(etcdPeers := system.etcdPeers + {PeerUrl(peer)})
    case _ => if system.join.None? then system else JoinStep(system, system.join.value, step)
  }

  function Run(system: System, steps: seq<Step>): System
    decreases |steps|
  {
    if steps == [] then system else Run(Next(system, steps[0]), steps[1..])
  }

  // Invariant

  ghost predicate Registered(system: System) {
    forall node :: node in system.cluster.nodes ==> node.nodeId >= 1 && PeerUrl(node.nodeId) in system.etcdPeers
  }

  /** The node being joined is still new to the cluster, and the members dealt with are registered. */
  ghost predicate JoinInvariant(system: System, join: PendingJoin) {
    && IsNew(system.cluster, join.node)
    && join.node.nodeId >= 1
    && join.next <= |join.roster| && join.roster != [] && join.roster[|join.roster| - 1] == join.node
    && (join.listed.Some? ==> join.listed.value <= system.etcdPeers)
    && (join.next == |join.roster| ==> PeerUrl(join.node.nodeId) in system.etcdPeers)
  }

  ghost predicate SystemInvariant(system: System) {
    && ClusterInvariant(system.cluster)
    && system.cluster.info.coordinatorNodeId == 1
    && Registered(system)
    && (system.join.Some? ==> JoinInvariant(system, system.join.value))
  }

  ghost predicate InitialInput(accessKey: string, coordinator: NodeInfo) {
    && coordinator.nodeId == 1 && NodeAccepts(coordinator) && NodeTrimmed(coordinator)
    && NotBlank(accessKey) && IsTrimmed(accessKey)
  }

  ghost predicate Reachable(system: System) {
    exists clusterId, accessKey, version, now, coordinator, steps ::
      InitialInput(accessKey, coordinator) && IsRun(clusterId, accessKey, version, now, coordinator, steps, system)
  }

  ghost predicate IsRun(clusterId: string, accessKey: string, version: int, now: string, coordinator: NodeInfo,
                        steps: seq<Step>, system: System)
    requires coordinator.nodeId == 1
  {
    system == Run(Initial(clusterId, accessKey, version, now, coordinator), steps)
  }

  // What each step keeps

  lemma KickKeeps(system: System, nodeId: int, now: string)
    requires SystemInvariant(system)
    ensures SystemInvariant(Next(system, Kick(nodeId, now)))
  {
    hide ClusterInvariant, NodeAccepts, PeerUrl;
    if Kicked(system.cluster, nodeId, now).Ok? {
      KickedKeepsInvariant(system.cluster, nodeId, now);
    }
  }

  lemma SetLeaderKeeps(system: System, nodeId: int, now: string)
    requires SystemInvariant(system)
    ensures SystemInvariant(Next(system, SetLeader(nodeId, now)))
  {
    hide ClusterInvariant, NodeAccepts, PeerUrl;
    if nodeId in NodeIds(system.cluster.nodes) {
      WithLeaderKeepsInvariant(system.cluster, nodeId, now);
    }
  }

  lemma StoreKeeps(system: System, id: string, service: Service, now: string)
    requires SystemInvariant(system)
    requires RegistryInvariant(system.cluster.services[id := service])
    ensures SystemInvariant(Applied(system, WithService(system.cluster, id, Ok(service), now)))
  {
    hide NodeAccepts, NodeTrimmed, IsTrimmed, NotBlank, NodesInvariant, RegistryInvariant, PeerUrl;
  }

  lemma TrimmedSpecTrimmed(web: WebSpec)
    ensures SpecTrimmed(TrimmedSpec(web))
  {
    hide Trim, IsTrimmed;
    TrimTrims(web.image);
    TrimTrims(web.domain);
    TrimTrims(web.healthPath);
  }

  lemma DeployKeeps(system: System, step: Step)
    requires SystemInvariant(system) && (step.DeployWeb? || step.DeployPatroni?)
    ensures SystemInvariant(Next(system, step))
  {
    hide SystemInvariant, IsServiceId, Trim, NewWeb, NewPatroni, TrimmedSpec, SpecTrimmed, RegistryInvariant;
    var services, id := system.cluster.services, Trim(step.text);
    InvariantOfServices(system);
    match step
    case DeployWeb(_, web, now) =>
      if IsServiceId(id) && NewWeb(services, id, TrimmedSpec(web)).Ok? {
        TrimmedSpecTrimmed(web);
        NewWebKeepsInvariant(services, id, TrimmedSpec(web));
        StoreKeeps(system, id, NewWeb(services, id, TrimmedSpec(web)).value, now);
      }
    case DeployPatroni(_, syncMode, now) =>
      if IsServiceId(id) && NewPatroni(services, id, syncMode).Ok? {
        NewPatroniKeepsInvariant(services, id, syncMode);
        StoreKeeps(system, id, NewPatroni(services, id, syncMode).value, now);
      }
  }

  lemma InvariantOfServices(system: System)
    requires SystemInvariant(system)
    ensures RegistryInvariant(system.cluster.services)
  {
    hide RegistryInvariant, NodesInvariant, Registered, InfoAccepts, JoinInvariant;
  }

  lemma RemoveKeeps(system: System, text: string, now: string)
    requires SystemInvariant(system)
    ensures SystemInvariant(Next(system, Remove(text, now)))
  {
    hide NodeAccepts, NodeTrimmed, IsTrimmed, NotBlank, NodesInvariant, RegistryInvariant, Trim, PeerUrl;
    RemoveKeepsInvariant(system.cluster.services, Trim(text));
  }

  lemma BeginJoinKeeps(system: System, hostname: string, publicIp: string, key: string)
    requires SystemInvariant(system)
    ensures SystemInvariant(Next(system, BeginJoin(hostname, publicIp, key)))
  {
    hide ClusterInvariant, NodeAccepts, NodeTrimmed, IsTrimmed, JoiningNode, Trim, PeerUrl;
    if system.join.None? && JoiningNode(system.cluster, Trim(hostname), publicIp, Trim(key)).Ok? {
      TrimTrims(hostname);
      TrimTrims(key);
      SelectedIsNew(system.cluster, Trim(hostname), publicIp, Trim(key));
    }
  }

  lemma CompleteJoinKeeps(system: System, now: string)
    requires SystemInvariant(system)
    ensures SystemInvariant(Next(system, CompleteJoin(now)))
  {
    hide ClusterInvariant, IsNew, PeerUrl, SortNodes;
    if system.join.Some? && system.join.value.listed.Some? && system.join.value.next >= |system.join.value.roster| {
      var node := system.join.value.node;
      assert JoinInvariant(system, system.join.value);
      WithNodeKeepsInvariant(system.cluster, node, now);
    }
  }

  lemma RegisterKeeps(system: System, step: Step)
    requires SystemInvariant(system)
    requires step.ListMembers? || step.RegisterNext? || step.RegisterInBackground?
    ensures SystemInvariant(Next(system, step))
  {
    hide ClusterInvariant, NodeAccepts, PeerUrl;
  }

  lemma NextKeeps(system: System, step: Step)
    requires SystemInvariant(system)
    ensures SystemInvariant(Next(system, step))
  {
    hide SystemInvariant, Next;
    match step
    case BeginJoin(hostname, publicIp, key) => BeginJoinKeeps(system, hostname, publicIp, key);
    case CompleteJoin(now) => CompleteJoinKeeps(system, now);
    case Kick(nodeId, now) => KickKeeps(system, nodeId, now);
    case SetLeader(nodeId, now) => SetLeaderKeeps(system, nodeId, now);
    case DeployWeb(_, _, _) => DeployKeeps(system, step);
    case DeployPatroni(_, _, _) => DeployKeeps(system, step);
    case Remove(text, now) => RemoveKeeps(system, text, now);
    case _ => RegisterKeeps(system, step);
  }

  lemma {:induction false} RunKeeps(system: System, steps: seq<Step>)
    requires SystemInvariant(system)
    ensures SystemInvariant(Run(system, steps))
    decreases |steps|
  {
    hide SystemInvariant, Next;
    if steps != [] {
      NextKeeps(system, steps[0]);
      RunKeeps(Next(system, steps[0]), steps[1..]);
    }
  }

  // Main results

  lemma InitialInvariant(clusterId: string, accessKey: string, version: int, now: string, coordinator: NodeInfo)
    requires InitialInput(accessKey, coordinator)
    ensures SystemInvariant(Initial(clusterId, accessKey, version, now, coordinator))
  {
    hide NodeAccepts, NodeTrimmed, IsTrimmed, PeerUrl;
    assert [coordinator][0] in [coordinator];
  }

  /** Membership and port safety over every interleaving from the creation of the cluster on. */
  lemma ReachableInvariant(system: System)
    requires Reachable(system)
    ensures SystemInvariant(system)
  {
    hide SystemInvariant, Initial, Run, NodeAccepts;
    var clusterId, accessKey, version, now, coordinator: NodeInfo, steps :|
      InitialInput(accessKey, coordinator) && IsRun(clusterId, accessKey, version, now, coordinator, steps, system);
    InitialInvariant(clusterId, accessKey, version, now, coordinator);
    RunKeeps(Initial(clusterId, accessKey, version, now, coordinator), steps);
  }

  /** Capacity in every reachable state: a fresh Patroni deployment is stored exactly while fewer than 1024 exist, and a
      fresh web deployment that the schema allows exactly while fewer than 50536 exist. */
  lemma ReachableCapacity(system: System, id: string, syncMode: SyncMode, web: WebSpec)
    requires Reachable(system)
    requires IsServiceId(id) && id !in system.cluster.services
    ensures NewPatroni(system.cluster.services, id, syncMode).Ok? <==> |PatroniIds(system.cluster.services)| < 1024
    ensures SchemaAccepts(WebServiceOf(id, web, WEB_EXPOSED_PORT_START)) ==>
              (NewWeb(system.cluster.services, id, web).Ok? <==> |WebIds(system.cluster.services)| < 50536)
  {
    hide NewPatroni, NewWeb, SchemaAccepts, IsServiceId, RegistryInvariant, NodesInvariant, Reachable;
    ReachableInvariant(system);
    ServiceIdTrimmed(id);
    TrimTrims(id);
    DeployFreshPatroni(system.cluster.services, id, syncMode);
    if SchemaAccepts(WebServiceOf(id, web, WEB_EXPOSED_PORT_START)) {
      DeployFreshWeb(system.cluster.services, id, web);
    }
  }

  /** Re-deploying in any reachable state changes no port of any service. */
  lemma ReachableRedeploy(system: System, step: Step)
    requires Reachable(system) && (step.DeployWeb? || step.DeployPatroni?) && Trim(step.text) in system.cluster.services
    ensures var services, after := system.cluster.services, Next(system, step).cluster.services;
            && after.Keys == services.Keys
            && forall id :: id in services ==>
                 after[id].Ports() == services[id].Ports() && (id != Trim(step.text) ==> after[id] == services[id])
  {
    hide SystemInvariant, Reachable, NewPatroni, NewWeb, RegistryInvariant, IsServiceId, Trim, TrimmedSpec;
    ReachableInvariant(system);
    InvariantOfServices(system);
    var services, id := system.cluster.services, Trim(step.text);
    match step
    case DeployWeb(_, web, _) => RedeployKeepsWeb(services, id, TrimmedSpec(web));
    case DeployPatroni(_, syncMode, _) => RedeployKeepsPatroni(services, id, syncMode);
  }

  lemma RedeployKeepsWeb(services: Registry, id: string, web: WebSpec)
    requires RegistryInvariant(services) && id in services
    ensures NewWeb(services, id, web).Ok? ==> NewWeb(services, id, web).value.Ports() == services[id].Ports()
  {
    if services[id].Web? {
      RedeployWeb(services, id, web);
    }
  }

  lemma RedeployKeepsPatroni(services: Registry, id: string, syncMode: SyncMode)
    requires RegistryInvariant(services) && id in services
    ensures NewPatroni(services, id, syncMode).Ok? ==>
              NewPatroni(services, id, syncMode).value.Ports() == services[id].Ports()
  {
    if services[id].Patroni? {
      RedeployPatroni(services, id, syncMode);
    }
  }

  // What the steps do to a reachable cluster

  /** One entry is new or replaced; no other entry, no node and no other part of the cluster has changed, but the update time. */
  ghost predicate OnlyEntryChanged(before: System, after: System, id: string, now: string) {
    && after.cluster.services.Keys == before.cluster.services.Keys + {id}
    && (forall other :: other in before.cluster.services && other != id ==>
          after.cluster.services[other] == before.cluster.services[other])
    && after.cluster.nodes == before.cluster.nodes && after.cluster.info == before.cluster.info.(updatedAt := now)
    && after.join == before.join && after.etcdPeers == before.etcdPeers
  }

  /** A web deployment is accepted for a well-formed id that no Patroni service has, with valid settings, while a port is
      left. */
  ghost predicate WebAccepted(services: Registry, id: string, web: WebSpec) {
    && IsServiceId(id) && (id in services ==> services[id].Web?)
    && (id !in services ==> |WebIds(services)| < 50536)
    && NotBlank(web.image) && NotBlank(web.domain) && 1 <= web.internalPort <= 65535
    && (forall key :: key in web.env ==> IsEnvKey(key))
    && (Trim(web.healthPath) != "" ==> IsHealthPath(Trim(web.healthPath)))
  }

  /** In every reachable state, a web deployment stores the service with exactly the given settings, trimmed, if it is accepted,
      and changes nothing otherwise. A new service gets the lowest free port of its range, an existing one keeps its port. */
  lemma ReachableDeployWeb(system: System, text: string, web: WebSpec, now: string)
    requires Reachable(system)
    ensures var id, services := Trim(text), system.cluster.services;
            var after := Next(system, DeployWeb(text, web, now));
            if !WebAccepted(services, id, web) then after == system
            else
              && OnlyEntryChanged(system, after, id, now)
              && var service := after.cluster.services[id];
                 && service.Web? && service.serviceId == id
                 && service.image == Trim(web.image) && service.domain == Trim(web.domain)
                 && service.internalPort == web.internalPort && service.env == web.env
                 && service.healthPath == (if Trim(web.healthPath) == "" then None else Some(Trim(web.healthPath)))
                 && (id in services ==> service.exposedPort == services[id].exposedPort)
                 && (id !in services ==>
                       && 15000 <= service.exposedPort <= 65535 && !Taken(services, id, service.exposedPort)
                       && forall port :: 15000 <= port < service.exposedPort ==> Taken(services, id, port))
  {
    hide Reachable, RegistryInvariant, NewWeb, IsServiceId, Trim, NotBlank, IsHealthPath, IsEnvKey, Taken, WebSettingsValid,
         SystemInvariant, WithService;
    ReachableInvariant(system);
    InvariantOfServices(system);
    var id, services, spec := Trim(text), system.cluster.services, TrimmedSpec(web);
    if IsServiceId(id) {
      NewWebMeans(services, id, spec);
      WithServiceMeans(system.cluster, id, NewWeb(services, id, spec), now);
      TrimmedSettings(id, web);
      if id !in services || services[id].Web? {
        WebPortLeft(services, id);
      }
    }
  }

  lemma WebPortLeft(services: Registry, id: string)
    requires RegistryInvariant(services) && (id in services ==> services[id].Web?)
    ensures (forall port :: 15000 <= port <= 65535 ==> Taken(services, id, port)) <==>
            id !in services && |WebIds(services)| >= 50536
    ensures id in services ==> 15000 <= services[id].exposedPort <= 65535 && !Taken(services, id, services[id].exposedPort)
  {
    hide PortsInUse, ServiceIdsWellFormed, EntriesValid;
    TakenIsUsed(services, id);
    if id !in services {
      FreshWebPort(services, id);
    } else {
      OwnPortsUnused(services, id);
      assert services[id].exposedPort in services[id].Ports();
    }
  }

  lemma TrimmedSettings(id: string, web: WebSpec)
    requires IsServiceId(id)
    ensures WebSettingsValid(id, TrimmedSpec(web)) <==>
            && NotBlank(web.image) && NotBlank(web.domain) && 1 <= web.internalPort <= 65535
            && (forall key :: key in web.env ==> IsEnvKey(key))
            && (Trim(web.healthPath) != "" ==> IsHealthPath(Trim(web.healthPath)))
  {
    hide IsServiceId, Trim, NotBlank, IsHealthPath, IsEnvKey, IsTrimmed;
    ServiceIdTrimmed(id);
    TrimTrims(id);
    TrimTrims(web.image);
    TrimTrims(web.domain);
    TrimTrims(web.healthPath);
    TrimTrims(Trim(web.image));
    TrimTrims(Trim(web.domain));
    TrimTrims(Trim(web.healthPath));
    TrimBlank(web.image);
    TrimBlank(web.domain);
    TrimBlank(Trim(web.image));
    TrimBlank(Trim(web.domain));
  }

  /** The same for Patroni deployments, which only need room for their ports. A new service gets four ports of their ranges
      that nobody else has, an existing one keeps its ports. */
  lemma ReachableDeployPatroni(system: System, text: string, syncMode: SyncMode, now: string)
    requires Reachable(system)
    ensures var id, services := Trim(text), system.cluster.services;
            var after := Next(system, DeployPatroni(text, syncMode, now));
            if !IsServiceId(id) || (id in services && services[id].Web?) || (id !in services && |PatroniIds(services)| >= 1024)
            then after == system
            else
              && OnlyEntryChanged(system, after, id, now)
              && var service := after.cluster.services[id];
                 && service.Patroni? && service.serviceId == id && service.syncMode == syncMode
                 && (id in services ==> service.Ports() == services[id].Ports())
                 && (id !in services ==>
                       PortsGranted(services, id, None, service.postgresPort, service.readWritePort, service.readOnlyPort,
                                    service.restPort))
  {
    hide Reachable, RegistryInvariant, NewPatroni, IsServiceId, Trim, Taken, SystemInvariant, WithService, Granted, OutOfPorts;
    ReachableInvariant(system);
    InvariantOfServices(system);
    var id, services := Trim(text), system.cluster.services;
    if IsServiceId(id) {
      ServiceIdTrimmed(id);
      TrimTrims(id);
      NewPatroniMeans(services, id, syncMode);
      WithServiceMeans(system.cluster, id, NewPatroni(services, id, syncMode), now);
      if id !in services {
        DeployFreshPatroni(services, id, syncMode);
      } else if services[id].Patroni? {
        RedeployPatroni(services, id, syncMode);
      }
    }
  }

  /** Removals, leader changes and kicks: refused as the case may be, they change nothing, and else exactly what they say. */
  lemma ReachableChanges(system: System, text: string, nodeId: int, now: string)
    requires Reachable(system)
    ensures var id, services, after := Trim(text), system.cluster.services, Next(system, Remove(text, now));
            if id !in services then after == system
            else
              && after == system.(cluster := after.cluster)
              && after.cluster == ClusterState(system.cluster.info.(updatedAt := now), system.cluster.nodes, services - {id})
    ensures var info, after := system.cluster.info, Next(system, SetLeader(nodeId, now));
            if info.leaderNodeId == nodeId || !(exists node :: node in system.cluster.nodes && node.nodeId == nodeId)
            then after == system
            else after == system.(cluster := system.cluster.(info := info.(leaderNodeId := nodeId, updatedAt := now)))
    ensures var info, after := system.cluster.info, Next(system, Kick(nodeId, now));
            if nodeId == 1 || !(exists node :: node in system.cluster.nodes && node.nodeId == nodeId) then after == system
            else
              && after == system.(cluster := after.cluster) && after.cluster.services == system.cluster.services
              && (forall node :: node in after.cluster.nodes <==> node in system.cluster.nodes && node.nodeId != nodeId)
              && after.cluster.info ==
                 info.(leaderNodeId := if info.leaderNodeId == nodeId then 1 else info.leaderNodeId, updatedAt := now)
  {
    hide Reachable, ClusterInvariant, Registered, JoinInvariant, Trim, Kicked, WithLeader, WithoutService;
    ReachableInvariant(system);
    WithoutServiceMeans(system.cluster, Trim(text), now);
    WithLeaderMeans(system.cluster, nodeId, now);
    KickedMeans(system.cluster, nodeId, now);
    var removed := WithoutService(system.cluster, Trim(text), now);
    assert removed.Ok? ==> removed.value.services == system.cluster.services - {Trim(text)};
  }

  /** A join: it is taken up exactly when no other one is pending and no member has the name, the address or the key, an id is
      left and the schema accepts the node; its completion adds exactly this node. */
  lemma ReachableJoin(system: System, hostname: string, publicIp: string, key: string, now: string)
    requires Reachable(system)
    ensures var name, wgKey, after := Trim(hostname), Trim(key), Next(system, BeginJoin(hostname, publicIp, key));
            if system.join.Some? || |system.cluster.nodes| == 255 || !NotBlank(hostname) || !IsIpv4(publicIp) || !NotBlank(key) ||
               exists other :: other in system.cluster.nodes &&
                 (other.hostname == name || other.publicIp == publicIp || other.wireguardPublicKey == wgKey)
            then after == system
            else
              && after.join.Some? && after == system.(join := after.join)
              && var join := after.join.value;
                 && join.node.hostname == name && join.node.publicIp == publicIp && join.node.wireguardPublicKey == wgKey
                 && (forall other :: other in system.cluster.nodes ==> other.nodeId != join.node.nodeId)
                 && join.roster == system.cluster.nodes + [join.node] && join.listed.None? && join.next == 0
    ensures var after := Next(system, CompleteJoin(now));
            if system.join.None? || system.join.value.listed.None? || system.join.value.next < |system.join.value.roster|
            then after == system
            else
              && after.join.None? && after.etcdPeers == system.etcdPeers
              && after.cluster.services == system.cluster.services
              && after.cluster.info == system.cluster.info.(updatedAt := now)
              && multiset(after.cluster.nodes) == multiset(system.cluster.nodes) + multiset{system.join.value.node}
  {
    hide Reachable, ClusterInvariant, Registered, JoinInvariant, Trim, JoiningNode, NotBlank, IsIpv4, WithNode, NodeIds;
    ReachableInvariant(system);
    JoiningMeans(system.cluster, Trim(hostname), publicIp, Trim(key));
    TrimTrims(hostname);
    TrimTrims(key);
    TrimTrims(Trim(hostname));
    TrimTrims(Trim(key));
    TrimBlank(hostname);
    TrimBlank(key);
    TrimBlank(Trim(hostname));
    TrimBlank(Trim(key));
    if JoiningNode(system.cluster, Trim(hostname), publicIp, Trim(key)) != Err(NodeAlreadyExists) {
      JoinFailsOnlyWhenFull(system.cluster, Trim(hostname), publicIp, Trim(key));
    }
    if system.join.Some? {
      WithNodeMeans(system.cluster, system.join.value.node, now);
    }
  }

  /** An etcd command that fails ends the join: the cluster and the registered peers stay as they were, and another join can
      begin. */
  lemma FailureEndsJoin(system: System, step: Step)
    requires system.join.Some?
    requires var join := system.join.value;
             || (step == ListMembers(false) && join.listed.None?)
             || (step == RegisterNext(false) && join.listed.Some? && join.next < |join.roster| &&
                 join.roster[join.next].nodeId >= 0 && PeerUrl(join.roster[join.next].nodeId) !in join.listed.value)
    ensures Next(system, step) == System(system.cluster, None, system.etcdPeers)
  {
  }

  /** A peer that is registered beside the joins stays registered, and no step takes a peer away. */
  lemma BackgroundRegisters(system: System, peer: nat, steps: seq<Step>)
    ensures var after := Run(Next(system, RegisterInBackground(peer)), steps);
            PeerUrl(peer) in after.etcdPeers && system.etcdPeers <= after.etcdPeers
  {
    PeersStay(Next(system, RegisterInBackground(peer)), steps);
  }

  lemma {:induction false} PeersStay(system: System, steps: seq<Step>)
    ensures system.etcdPeers <= Run(system, steps).etcdPeers
    decreases |steps|
  {
    hide Trim, IsServiceId, WithService, WithoutService, WithLeader, Kicked, JoiningNode, WithNode, NewWeb, NewPatroni;
    if steps != [] {
      PeersStay(Next(system, steps[0]), steps[1..]);
    }
  }

  /** In every reachable state etcd knows the peer URL of every node. */
  lemma MembersAreRegistered(system: System, node: NodeInfo)
    requires Reachable(system) && node in system.cluster.nodes
    ensures node.nodeId >= 1 && "http://" + ("10.0.0." + Decimal(node.nodeId)) + ":2380" in system.etcdPeers
  {
    hide Reachable, ClusterInvariant, JoinInvariant, Decimal;
    ReachableInvariant(system);
  }

  lemma IdentityStep(system: System, step: Step)
    ensures var info, after := system.cluster.info, Next(system, step).cluster.info;
            after == info.(updatedAt := after.updatedAt, leaderNodeId := after.leaderNodeId)
  {
    hide Trim, IsServiceId, JoiningNode, NewWeb, NewPatroni, SortNodes;
  }

  lemma {:induction false} IdentityRun(system: System, steps: seq<Step>)
    ensures var info, after := system.cluster.info, Run(system, steps).cluster.info;
            after == info.(updatedAt := after.updatedAt, leaderNodeId := after.leaderNodeId)
    decreases |steps|
  {
    hide Next;
    if steps != [] {
      IdentityStep(system, steps[0]);
      IdentityRun(Next(system, steps[0]), steps[1..]);
    }
  }

  /** Over every interleaving the cluster keeps its id, access key, version and creation time, and the node it was created on
      stays the coordinator; that node is the only one and the leader at first. */
  lemma IdentityIsKept(clusterId: string, accessKey: string, version: int, now: string, coordinator: NodeInfo,
                       steps: seq<Step>)
    requires coordinator.nodeId == 1
    ensures var system := Initial(clusterId, accessKey, version, now, coordinator);
            && system.cluster.nodes == [coordinator] && system.cluster.info.leaderNodeId == 1
            && system.cluster.services == map[] && system.cluster.info.updatedAt == now
            && var info := Run(system, steps).cluster.info;
               info == ClusterInfo(clusterId, accessKey, version, now, info.updatedAt, 1, info.leaderNodeId)
  {
    IdentityRun(Initial(clusterId, accessKey, version, now, coordinator), steps);
  }

  /** Registering the rest of the roster, every command succeeding. */
  function Registrations(n: nat): (steps: seq<Step>)
    ensures |steps| == n
  {
    seq(n, _ => RegisterNext(true))
  }

  lemma {:induction false} RunConcat(system: System, first: seq<Step>, second: seq<Step>)
    ensures Run(system, first + second) == Run(Run(system, first), second)
    decreases |first|
  {
    hide Next;
    if first == [] {
      assert first + second == second;
    } else {
      assert (first + second)[0] == first[0] && (first + second)[1..] == first[1..] + second;
      RunConcat(Next(system, first[0]), first[1..], second);
    }
  }

  lemma {:induction false} RegistersAll(system: System, n: nat)
    requires system.join.Some? && system.join.value.listed.Some? && system.join.value.listed.value <= system.etcdPeers
    requires var join := system.join.value;
             && join.next + n == |join.roster|
             && (forall i :: 0 <= i < |join.roster| ==> join.roster[i].nodeId >= 0)
             && forall i :: 0 <= i < join.next ==> PeerUrl(join.roster[i].nodeId) in system.etcdPeers
    ensures var join, after := system.join.value, Run(system, Registrations(n));
            && after.cluster == system.cluster && after.join == Some(join.(next := |join.roster|))
            && system.etcdPeers <= after.etcdPeers
            && forall i :: 0 <= i < |join.roster| ==> PeerUrl(join.roster[i].nodeId) in after.etcdPeers
    decreases n
  {
    hide PeerUrl;
    if n > 0 {
      assert Registrations(n)[1..] == Registrations(n - 1);
      RegistersAll(Next(system, RegisterNext(true)), n - 1);
    }
  }

  /** A join goes through: when nothing interferes and the etcd commands succeed, listing the members, registering every
      missing one and completing the join add the node, and the peers of all nodes are registered. */
  lemma JoinSucceeds(system: System, hostname: string, publicIp: string, key: string, now: string)
    requires Reachable(system) && system.join.None?
    requires Next(system, BeginJoin(hostname, publicIp, key)).join.Some?
    ensures var begun := Next(system, BeginJoin(hostname, publicIp, key));
            var node := begun.join.value.node;
            var steps := [ListMembers(true)] + Registrations(|system.cluster.nodes| + 1) + [CompleteJoin(now)];
            var after := Run(begun, steps);
            && after.join.None? && after.cluster.services == system.cluster.services
            && multiset(after.cluster.nodes) == multiset(system.cluster.nodes) + multiset{node}
            && node.nodeId >= 1 && PeerUrl(node.nodeId) in after.etcdPeers
            && forall other :: other in system.cluster.nodes ==> other.nodeId >= 1 && PeerUrl(other.nodeId) in after.etcdPeers
  {
    hide Reachable, ClusterInvariant, IsNew, PeerUrl, JoiningNode, WithNode, Trim;
    ReachableInvariant(system);
    var begun := Next(system, BeginJoin(hostname, publicIp, key));
    NextKeeps(system, BeginJoin(hostname, publicIp, key));
    var listed := Next(begun, ListMembers(true));
    var n := |system.cluster.nodes| + 1;
    var roster := listed.join.value.roster;
    assert forall i :: 0 <= i < |roster| ==> roster[i] in system.cluster.nodes || roster[i] == begun.join.value.node;
    RegistersAll(listed, n);
    var registered := Run(listed, Registrations(n));
    WithNodeMeans(registered.cluster, begun.join.value.node, now);
    RunOne(begun, ListMembers(true));
    RunOne(registered, CompleteJoin(now));
    RunConcat(begun, [ListMembers(true)] + Registrations(n), [CompleteJoin(now)]);
    RunConcat(begun, [ListMembers(true)], Registrations(n));
    assert roster[n - 1] == begun.join.value.node;
  }

  lemma RunOne(system: System, step: Step)
    ensures Run(system, [step]) == Next(system, step)
  {
    hide Next;
    assert [step][1..] == [];
  }

  // Overlapping joins

  /** Two joins selected on the same node list take the same id, also when the same node asks twice, and completing both
      breaks the invariant. */
  lemma OverlappingJoinsCollide(state: ClusterState, first: NodeInfo, second: NodeInfo, now: string, later: string)
    requires ClusterInvariant(state)
    requires JoiningNode(state, first.hostname, first.publicIp, first.wireguardPublicKey) == Ok(first)
    requires JoiningNode(state, second.hostname, second.publicIp, second.wireguardPublicKey) == Ok(second)
    ensures first.nodeId == second.nodeId
    ensures !ClusterInvariant(WithNode(WithNode(state, first, now), second, later))
  {
    hide NodeAccepts, ClusterInvariant, IsNew, WithNode;
    TwoJoinsKeepInvariant(state, first, second, now, later);
  }

  /** When a kick between the two selections frees a lower id, the second join takes that or a lower one, and completing
      both keeps the invariant exactly when the nodes do not clash. */
  lemma KickSeparatesJoins(state: ClusterState, first: NodeInfo, nodeId: int, second: NodeInfo, now: string, later: string)
    requires ClusterInvariant(state) && NodeTrimmed(first) && NodeTrimmed(second)
    requires JoiningNode(state, first.hostname, first.publicIp, first.wireguardPublicKey) == Ok(first)
    requires Kicked(state, nodeId, now).Ok? && nodeId < first.nodeId
    requires JoiningNode(Kicked(state, nodeId, now).value, second.hostname, second.publicIp, second.wireguardPublicKey) ==
             Ok(second)
    ensures var kicked := Kicked(state, nodeId, now).value;
            && second.nodeId <= nodeId
            && (ClusterInvariant(WithNode(WithNode(kicked, first, later), second, later)) <==> !Clash(first, second))
  {
    hide NodeAccepts, ClusterInvariant, IsTrimmed, WithNode, JoiningNode, Kicked, IsNew, NodeIds, Clash;
    var kicked := Kicked(state, nodeId, now).value;
    MemberInRange(state, nodeId, now);
    KickedKeepsInvariant(state, nodeId, now);
    SelectedIsNew(state, first.hostname, first.publicIp, first.wireguardPublicKey);
    SelectedIsNew(kicked, second.hostname, second.publicIp, second.wireguardPublicKey);
    NewStaysNew(state, kicked, first);
    MembersOnly(kicked.nodes, nodeId);
    TwoJoinsKeepInvariant(kicked, first, second, later, later);
  }

  lemma MemberInRange(state: ClusterState, nodeId: int, now: string)
    requires ClusterInvariant(state) && Kicked(state, nodeId, now).Ok?
    ensures 1 <= nodeId <= 255
  {
    hide NodeAccepts, NodeTrimmed, RegistryInvariant, InfoAccepts, IsTrimmed;
    MemberIdInRange(state.nodes, nodeId);
  }

  lemma NewStaysNew(state: ClusterState, smaller: ClusterState, node: NodeInfo)
    requires IsNew(state, node) && forall other :: other in smaller.nodes ==> other in state.nodes
    ensures IsNew(smaller, node)
  {
    hide NodeAccepts, NodeTrimmed;
  }

  lemma MembersOnly(nodes: seq<NodeInfo>, nodeId: int)
    requires forall node :: node in nodes ==> node.nodeId != nodeId
    ensures nodeId !in NodeIds(nodes)
  {
  }

  // A cluster of one node, and two nodes that ask to join it at the same time

  const FIRST := NodeInfo(1, "a", "1.1.1.1", "k1")
  const SECOND := NodeInfo(2, "b", "1.1.1.2", "k2")
  const THIRD := NodeInfo(2, "c", "1.1.1.3", "k3")

  lemma OneDigitIp(s: string)
    requires |s| == 7 && s[1] == s[3] == s[5] == '.'
    requires '0' <= s[0] <= '9' && '0' <= s[2] <= '9' && '0' <= s[4] <= '9' && '0' <= s[6] <= '9'
    ensures IsIpv4(s)
  {
    assert DotAt(s, 1) && DotAt(s, 3) && DotAt(s, 5);
    assert IsOctet(s, 0, 1) && IsOctet(s, 2, 3) && IsOctet(s, 4, 5) && IsOctet(s, 6, |s|);
  }

  lemma ExampleNode(node: NodeInfo)
    requires 1 <= node.nodeId <= 255 && |node.hostname| == 1 && |node.wireguardPublicKey| == 2
    requires 'a' <= node.hostname[0] <= 'z' && node.wireguardPublicKey[0] == 'k' && '0' <= node.wireguardPublicKey[1] <= '9'
    requires IsIpv4(node.publicIp)
    ensures NodeAccepts(node) && NodeTrimmed(node)
  {
    hide IsIpv4;
    assert !IsSpace(node.hostname[0]) && !IsSpace(node.wireguardPublicKey[0]);
  }

  /** A reachable state with two selections that collide: both nodes are given the id 2. */
  lemma CollisionIsReachable(now: string)
    ensures var system := Initial("", "k", 1, now, FIRST);
            && Reachable(system)
            && JoiningNode(system.cluster, "b", "1.1.1.2", "k2") == Ok(SECOND)
            && JoiningNode(system.cluster, "c", "1.1.1.3", "k3") == Ok(THIRD)
            && !ClusterInvariant(WithNode(WithNode(system.cluster, SECOND, now), THIRD, now))
  {
    hide NodeAccepts, NodeTrimmed, ClusterInvariant, WithNode, IsIpv4;
    OneDigitIp("1.1.1.1");
    OneDigitIp("1.1.1.2");
    OneDigitIp("1.1.1.3");
    ExampleNode(FIRST);
    ExampleNode(SECOND);
    ExampleNode(THIRD);
    var system := Initial("", "k", 1, now, FIRST);
    assert InitialInput("k", FIRST) by {
      assert !IsSpace("k"[0]);
    }
    assert IsRun("", "k", 1, now, FIRST, [], system);
    InitialInvariant("", "k", 1, now, FIRST);
    SelectsTwo(system.cluster.nodes);
    OverlappingJoinsCollide(system.cluster, SECOND, THIRD, now, now);
  }

  lemma SelectsTwo(nodes: seq<NodeInfo>)
    requires nodes == [FIRST]
    ensures LowestFree(NodeIds(nodes), 1, 255) == Some(2)
  {
    assert NodeIds(nodes) == {1} by {
      assert nodes[0].nodeId == 1;
    }
    var used := NodeIds(nodes);
    assert LowestFree(used, 2, 255) == Some(2);
  }
}
