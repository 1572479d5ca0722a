/** The mutable `Cluster` class of src/cluster/config.ts and the helpers its methods call. */
module Clusters {
  import opened Wrappers
  import opened Constants
  import opened Models
  import opened PortAllocation
  import opened Registries
  import opened ClusterStates

  /** The services that have been visited already. */
  function Visited(services: Registry, remaining: set<string>): Registry {
    map id | id in services && id !in remaining :: services[id]
  }

  /** `listUsedServicePorts`: collects the ports of every service but `excludedId` into a new set object. */
  method ListUsedServicePorts(services: Registry, excludedId: string) returns (used: UsedPorts)
    ensures fresh(used) && used.ports == PortsInUse(services, excludedId)
  {
    hide PortsInUse, Visited;
    used := new UsedPorts({});
    var remaining := services.Keys;
    NothingVisited(services, excludedId);
    while remaining != {}
      invariant remaining <= services.Keys
      invariant used.ports == PortsInUse(Visited(services, remaining), excludedId)
      decreases remaining
    {
      var id :| id in remaining;
      VisitNext(services, remaining, id, excludedId);
      remaining := remaining - {id};
      if id != excludedId {
        match services[id]
        case Web(_, _, _, _, exposedPort, _, _) =>
          used.ports := used.ports + {exposedPort};
        case Patroni(_, _, postgresPort, readWritePort, readOnlyPort, restPort) =>
          used.ports := used.ports + {postgresPort};
          used.ports := used.ports + {readWritePort};
          used.ports := used.ports + {readOnlyPort};
          used.ports := used.ports + {restPort};
      }
    }
    AllVisited(services);
  }

  lemma NothingVisited(services: Registry, excludedId: string)
    ensures PortsInUse(Visited(services, services.Keys), excludedId) == {}
  {
  }

  lemma AllVisited(services: Registry)
    ensures Visited(services, {}) == services
  {
  }

  lemma VisitNext(services: Registry, remaining: set<string>, id: string, excludedId: string)
    requires id in remaining && id in services
    ensures PortsInUse(Visited(services, remaining - {id}), excludedId) ==
            PortsInUse(Visited(services, remaining), excludedId) +
            if id == excludedId then {} else set port | port in services[id].Ports()
  {
    hide PortsInUse;
    assert Visited(services, remaining - {id}) == Visited(services, remaining)[id := services[id]];
    AddedPorts(Visited(services, remaining), id, services[id], excludedId);
  }

  lemma AddedPorts(services: Registry, id: string, service: Service, excludedId: string)
    requires id !in services
    ensures PortsInUse(services[id := service], excludedId) ==
            PortsInUse(services, excludedId) + if id == excludedId then {} else set port | port in service.Ports()
  {
    var more := services[id := service];
    forall port | port in PortsInUse(services, excludedId) ensures port in PortsInUse(more, excludedId) {
      var owner :| owner in services && owner != excludedId && port in services[owner].Ports();
      assert more[owner] == services[owner];
    }
    assert more[id] == service;
    assert id != excludedId ==> forall port :: port in service.Ports() ==> port in PortsInUse(more, excludedId);
  }

  /** `validateClusterConfig`: both special nodes exist and no hostname occurs twice. */
  method ValidateClusterConfig(info: ClusterInfo, nodes: seq<NodeInfo>) returns (valid: bool)
    ensures valid <==> ValidConfig(info, nodes)
  {
    if info.coordinatorNodeId !in NodeIds(nodes) || info.leaderNodeId !in NodeIds(nodes) {
      return false;
    }
    var hostnames: set<string> := {};
    for i := 0 to |nodes|
      invariant hostnames == set j | 0 <= j < i :: nodes[j].hostname
      invariant forall j, k :: 0 <= j < k < i ==> nodes[j].hostname != nodes[k].hostname
    {
      if nodes[i].hostname in hostnames {
        return false;
      }
      hostnames := hostnames + {nodes[i].hostname};
    }
    return true;
  }

  class Cluster {
    var info: ClusterInfo
    var nodes: seq<NodeInfo>
    var services: Registry
    /** Setup runs enqueued so far: saving the configuration enqueues one. */
    var setupRequests: nat

    function State(): ClusterState
      reads this
    {
      ClusterState(info, nodes, services)
    }

    constructor (info: ClusterInfo, nodes: seq<NodeInfo>, services: Registry)
      ensures State() == ClusterState(info, SortNodes(nodes), services) && setupRequests == 0
    {
      this.info := info;
      this.nodes := SortNodes(nodes);
      this.services := services;
      this.setupRequests := 0;
    }

    /** A configuration is loaded exactly when it passes all schemas and the cross checks, with the texts that the schemas
        return. */
    static method FromJson(info: ClusterInfo, nodes: seq<NodeInfo>, services: Registry)
      returns (cluster: Result<Cluster, ConfigError>)
      ensures cluster.Ok? <==> Accepts(ClusterState(info, nodes, services))
      ensures cluster.Ok? ==> fresh(cluster.value) && cluster.value.State() == Loaded(ClusterState(info, nodes, services))
      ensures cluster.Ok? <==> Loads(ClusterState(info, nodes, services))
      ensures cluster.Err? ==> cluster.error == ClusterConfigInvalid
    {
      LoadsIfAccepted(ClusterState(info, nodes, services));
      hide InfoAccepts, SchemaAcceptsAll, NodeAccepts, TrimmedNode, TrimmedService, SortNodes, Trim, Loads;
      if !InfoAccepts(info) || nodes == [] || !SchemaAcceptsAll(services) ||
         !(forall i :: 0 <= i < |nodes| ==> NodeAccepts(nodes[i]))
      {
        return Err(ClusterConfigInvalid);
      }
      var nodesInfo := TrimmedNodes(nodes);
      var valid := ValidateClusterConfig(info, nodesInfo);
      if !valid {
        return Err(ClusterConfigInvalid);
      }
      var loaded := new Cluster(info.(accessKey := Trim(info.accessKey)), nodesInfo,
                                map id | id in services :: TrimmedService(services[id]));
      return Ok(loaded);
    }

    /** Stamps the update time and calls `saveClusterConfigToDisk`, which enqueues a setup run unless it throws while writing
        the files (`saved` is false then). The change itself has happened in any case. */
    method Save(now: string, saved: bool)
      modifies this
      ensures info == old(info).(updatedAt := now) && nodes == old(nodes) && services == old(services)
      ensures setupRequests == old(setupRequests) + if saved then 1 else 0
    {
      info := info.(updatedAt := now);
      if saved {
        setupRequests := setupRequests + 1;
      }
    }

    /** `changed` tells whether the leader was replaced; only then the configuration is saved. */
    method SetLeaderNode(nodeId: int, now: string, saved: bool) returns (changed: Result<bool, ConfigError>)
      modifies this
      ensures match WithLeader(old(State()), nodeId, now)
              case Err(error) => changed == Err(error) && State() == old(State()) && setupRequests == old(setupRequests)
              case Ok(state) =>
                var replaced := old(info.leaderNodeId) != nodeId;
                && State() == state && changed == (if replaced && !saved then Err(ConfigNotSaved) else Ok(replaced))
                && setupRequests == old(setupRequests) + if replaced && saved then 1 else 0
      ensures nodes == old(nodes) && services == old(services)
      ensures changed == Ok(true) || changed == Err(ConfigNotSaved) ==>
                info == old(info).(leaderNodeId := nodeId, updatedAt := now)
      ensures changed == Ok(false) ==> info == old(info) && info.leaderNodeId == nodeId
      ensures changed == Ok(true) ==> saved && setupRequests == old(setupRequests) + 1
      ensures changed != Ok(true) ==> setupRequests == old(setupRequests)
    {
      if FindNode(nodes, nodeId).None? {
        return Err(CouldNotFindNode);
      }
      if info.leaderNodeId == nodeId {
        return Ok(false);
      }
      info := info.(leaderNodeId := nodeId);
      Save(now, saved);
      return if saved then Ok(true) else Err(ConfigNotSaved);
    }

    /** `joinNode` up to its await: takes the lowest id that is free right now. */
    method SelectJoiningNode(hostname: string, publicIp: string, key: string) returns (node: Result<NodeInfo, ConfigError>)
      ensures node == JoiningNode(State(), hostname, publicIp, key)
    {
      if exists i :: 0 <= i < |nodes| &&
           (nodes[i].hostname == hostname || nodes[i].wireguardPublicKey == key || nodes[i].publicIp == publicIp)
      {
        return Err(NodeAlreadyExists);
      }
      var taken := NodeIds(nodes);
      var nextNodeId: Option<int> := None;
      var i := 1;
      while i <= MAX_NODE_ID && nextNodeId.None?
        invariant 1 <= i <= MAX_NODE_ID + 1
        invariant nextNodeId.None? ==> LowestFree(taken, 1, MAX_NODE_ID) == LowestFree(taken, i, MAX_NODE_ID)
        invariant nextNodeId.Some? ==> LowestFree(taken, 1, MAX_NODE_ID) == nextNodeId
        decreases MAX_NODE_ID - i, nextNodeId.None?
      {
        if i !in taken {
          nextNodeId := Some(i);
        } else {
          i := i + 1;
        }
      }
      if nextNodeId.None? {
        return Err(MaximumNodesReached);
      }
      var newNode := NodeInfo(nextNodeId.value, hostname, publicIp, key);
      return if NodeAccepts(newNode) then Ok(newNode) else Err(ClusterConfigInvalid);
    }

    /** `joinNode` after its await. Behind the save, setting up the WireGuard interface can throw as well. */
    method CompleteJoin(node: NodeInfo, now: string, saved: bool, linked: bool) returns (joined: Result<NodeInfo, ConfigError>)
      modifies this
      ensures State() == WithNode(old(State()), node, now)
      ensures setupRequests == old(setupRequests) + if saved then 1 else 0
      ensures joined == AfterSave(node, saved, linked)
      ensures joined.Ok? <==> saved && linked
      ensures multiset(nodes) == multiset(old(nodes)) + multiset{node} && NodesInOrder(nodes)
      ensures info == old(info).(updatedAt := now) && services == old(services)
    {
      WithNodeMeans(State(), node, now);
      nodes := nodes + [node];
      nodes := SortNodes(nodes);
      Save(now, saved);
      return AfterSave(node, saved, linked);
    }

    method KickNode(nodeId: int, now: string, saved: bool, linked: bool) returns (kicked: Result<NodeInfo, ConfigError>)
      modifies this
      ensures match Kicked(old(State()), nodeId, now)
              case Err(error) => kicked == Err(error) && State() == old(State()) && setupRequests == old(setupRequests)
              case Ok(state) =>
                && State() == state && setupRequests == (old(setupRequests) + if saved then 1 else 0)
                && (exists node :: node in old(nodes) && node.nodeId == nodeId && kicked == AfterSave(node, saved, linked))
      ensures services == old(services)
      ensures kicked.Ok? ==> saved && linked && setupRequests == old(setupRequests) + 1
      ensures kicked.Err? && kicked.error != ConfigNotSaved && kicked.error != InterfaceNotSetUp ==> State() == old(State())
      ensures kicked.Ok? || kicked.error == ConfigNotSaved || kicked.error == InterfaceNotSetUp ==>
                && (forall node :: node in nodes <==> node in old(nodes) && node.nodeId != nodeId)
                && info == old(info).(updatedAt := now, leaderNodeId :=
                     if old(info.leaderNodeId) == nodeId then old(info.coordinatorNodeId) else old(info.leaderNodeId))
    {
      KickedMeans(State(), nodeId, now);
      var node := FindNode(nodes, nodeId);
      if node.None? {
        return Err(CouldNotFindNode);
      }
      if info.coordinatorNodeId == nodeId {
        return Err(CannotKickCoordinator);
      }
      nodes := SortNodes(WithoutNode(nodes, nodeId));
      if info.leaderNodeId == nodeId {
        info := info.(leaderNodeId := info.coordinatorNodeId);
      }
      Save(now, saved);
      return AfterSave(node.value, saved, linked);
    }

    /** A deployment that is refused changes nothing; one that cannot be saved throws with the service stored. */
    method SetWebService(id: string, spec: WebSpec, now: string, saved: bool) returns (service: Result<Service, ConfigError>)
      modifies this
      ensures service == SavedResult(NewWeb(old(services), id, spec), saved)
      ensures match WithService(old(State()), id, NewWeb(old(services), id, spec), now)
              case Err(_) => State() == old(State()) && setupRequests == old(setupRequests)
              case Ok(state) => State() == state && setupRequests == old(setupRequests) + if saved then 1 else 0
      ensures service.Ok? || service.error == ConfigNotSaved ==>
                && Stored(old(services), services, id) && services[id].Web? && services[id].serviceId == id
                && services[id].image == spec.image && services[id].domain == spec.domain
                && services[id].internalPort == spec.internalPort && services[id].env == spec.env
                && services[id].healthPath == if spec.healthPath == "" then None else Some(spec.healthPath)
      ensures service.Ok? ==> services[id] == service.value
      ensures service.Ok? ==> saved && setupRequests == old(setupRequests) + 1
      ensures service.Err? ==> setupRequests == old(setupRequests)
      ensures service.Err? && service.error != ConfigNotSaved ==> State() == old(State())
    {
      if id in services && !services[id].Web? {
        return Err(ServiceIdConflict);
      }
      var used := ListUsedServicePorts(services, id);
      var port := AllocatePort(used, WEB_EXPOSED_PORT_START, LAST_PORT,
                               if id in services then Some(services[id].exposedPort) else None);
      if port.None? {
        return Err(ServicePortAllocation);
      }
      service := SetService(WebServiceOf(id, spec, port.value), now, saved);
    }

    method SetPatroniService(id: string, syncMode: SyncMode, now: string, saved: bool)
      returns (service: Result<Service, ConfigError>)
      modifies this
      ensures service == SavedResult(NewPatroni(old(services), id, syncMode), saved)
      ensures match WithService(old(State()), id, NewPatroni(old(services), id, syncMode), now)
              case Err(_) => State() == old(State()) && setupRequests == old(setupRequests)
              case Ok(state) => State() == state && setupRequests == old(setupRequests) + if saved then 1 else 0
      ensures service.Ok? || service.error == ConfigNotSaved ==>
                && Stored(old(services), services, id) && services[id].Patroni? && services[id].serviceId == id
                && services[id].syncMode == syncMode
      ensures service.Ok? ==> services[id] == service.value
      ensures service.Ok? ==> saved && setupRequests == old(setupRequests) + 1
      ensures service.Err? ==> setupRequests == old(setupRequests)
      ensures service.Err? && service.error != ConfigNotSaved ==> State() == old(State())
    {
      var existing := Existing(services, id);
      if existing.Some? && !existing.value.Patroni? {
        return Err(ServiceIdConflict);
      }
      var used := ListUsedServicePorts(services, id);
      var postgres := AllocatePort(used, PATRONI_POSTGRES_PORT_START, LAST_PORT,
                                   if existing.Some? then Some(existing.value.postgresPort) else None);
      if postgres.None? {
        return Err(ServicePortAllocation);
      }
      var readWrite := AllocatePort(used, PATRONI_PORT_START, PATRONI_PORT_END,
                                    if existing.Some? then Some(existing.value.readWritePort) else None);
      if readWrite.None? {
        return Err(ServicePortAllocation);
      }
      var readOnly := AllocatePort(used, PATRONI_PORT_START, PATRONI_PORT_END,
                                   if existing.Some? then Some(existing.value.readOnlyPort) else None);
      if readOnly.None? {
        return Err(ServicePortAllocation);
      }
      var rest := AllocatePort(used, PATRONI_REST_PORT_START, LAST_PORT,
                               if existing.Some? then Some(existing.value.restPort) else None);
      if rest.None? {
        return Err(ServicePortAllocation);
      }
      service := SetService(Patroni(id, syncMode, postgres.value, readWrite.value, readOnly.value, rest.value), now, saved);
    }

    /** The private `setService`; its callers have already ruled out a service of the other type. */
    method SetService(service: Service, now: string, saved: bool) returns (stored: Result<Service, ConfigError>)
      modifies this
      ensures stored == SavedResult(Storable(old(services), service), saved)
      ensures match WithService(old(State()), service.serviceId, Storable(old(services), service), now)
              case Err(_) => State() == old(State()) && setupRequests == old(setupRequests)
              case Ok(state) => State() == state && setupRequests == old(setupRequests) + if saved then 1 else 0
      ensures stored.Ok? || stored.error == ConfigNotSaved ==>
                Stored(old(services), services, service.serviceId) && services[service.serviceId] == service
      ensures !SchemaAccepts(service) ==> stored == Err(ClusterConfigInvalid)
      ensures SchemaAccepts(service) && service.serviceId in old(services) ==>
                (stored == Err(ServiceIdConflict) <==> old(services)[service.serviceId].Web? != service.Web?)
      ensures stored.Ok? ==> saved && setupRequests == old(setupRequests) + 1
      ensures stored.Err? ==> setupRequests == old(setupRequests)
      ensures stored.Err? && stored.error != ConfigNotSaved ==> State() == old(State())
    {
      if !SchemaAccepts(service) {
        return Err(ClusterConfigInvalid);
      }
      if service.serviceId in services && !SameType(services[service.serviceId], service) {
        return Err(ServiceIdConflict);
      }
      services := services[service.serviceId := service];
      Save(now, saved);
      return if saved then Ok(service) else Err(ConfigNotSaved);
    }

    method RemoveService(id: string, now: string, saved: bool) returns (service: Result<Service, ConfigError>)
      modifies this
      ensures match WithoutService(old(State()), id, now)
              case Err(error) => service == Err(error) && State() == old(State()) && setupRequests == old(setupRequests)
              case Ok(state) =>
                && id in old(services) && service == SavedResult(Ok(old(services)[id]), saved)
                && State() == state && setupRequests == old(setupRequests) + if saved then 1 else 0
      ensures service.Ok? || service.error == ConfigNotSaved ==> services == old(services) - {id} && nodes == old(nodes)
      ensures service.Ok? ==> saved && setupRequests == old(setupRequests) + 1 && service.value == old(services)[id]
      ensures service.Err? ==> setupRequests == old(setupRequests)
      ensures service.Err? && service.error != ConfigNotSaved ==> State() == old(State())
    {
      if id !in services {
        return Err(ServiceDoesNotExist);
      }
      service := SavedResult(Ok(services[id]), saved);
      services := services - {id};
      Save(now, saved);
    }
  }

  /** The entry is there, and no other one has changed. */
  ghost predicate Stored(before: Registry, after: Registry, id: string) {
    id in after && after - {id} == before - {id}
  }

  /** What an operation answers that was to answer `planned` and ends with a save. */
  function SavedResult(planned: Result<Service, ConfigError>, saved: bool): Result<Service, ConfigError> {
    if planned.Ok? && !saved then Err(ConfigNotSaved) else planned
  }

  /** What an operation answers that saves and then sets up the WireGuard interface. */
  function AfterSave(node: NodeInfo, saved: bool, linked: bool): Result<NodeInfo, ConfigError> {
    if !saved then Err(ConfigNotSaved) else if !linked then Err(InterfaceNotSetUp) else Ok(node)
  }

  /** A service that the schema accepts and that replaces none of the other type. */
  function Storable(services: Registry, service: Service): Result<Service, ConfigError> {
    if !SchemaAccepts(service) then Err(ClusterConfigInvalid)
    else if service.serviceId in services && !SameType(services[service.serviceId], service) then Err(ServiceIdConflict)
    else Ok(service)
  }

  predicate SameType(a: Service, b: Service) {
    a.Web? <==> b.Web?
  }
}
