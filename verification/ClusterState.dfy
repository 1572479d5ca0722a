/** What the operations of the `Cluster` class in src/cluster/config.ts do to the cluster configuration. */
module ClusterStates {
  import opened Wrappers
  import opened Constants
  import opened Models
  import opened PortAllocation
  import opened Registries

  datatype ClusterState = ClusterState(info: ClusterInfo, nodes: seq<NodeInfo>, services: Registry)

  function NodeIds(nodes: seq<NodeInfo>): set<int> {
    set i | 0 <= i < |nodes| :: nodes[i].nodeId
  }

  function FindNode(nodes: seq<NodeInfo>, nodeId: int): (node: Option<NodeInfo>)
    ensures node.Some? <==> nodeId in NodeIds(nodes)
    ensures node.Some? ==> node.value in nodes && node.value.nodeId == nodeId
  {
    if nodes == [] then None
    else if nodes[0].nodeId == nodeId then Some(nodes[0])
    else
      assert nodes == [nodes[0]] + nodes[1..];
      FindNode(nodes[1..], nodeId)
  }

  // Sorting nodes by id

  /** Where `node` goes: behind the last node whose id is not larger. */
  function InsertPosition(node: NodeInfo, sorted: seq<NodeInfo>): (at: nat)
    ensures at <= |sorted|
    ensures forall i :: at <= i < |sorted| ==> node.nodeId < sorted[i].nodeId
    ensures at > 0 ==> sorted[at - 1].nodeId <= node.nodeId
  {
    if sorted == [] || sorted[|sorted| - 1].nodeId <= node.nodeId then |sorted|
    else InsertPosition(node, sorted[..|sorted| - 1])
  }

  function InsertNode(node: NodeInfo, sorted: seq<NodeInfo>): seq<NodeInfo> {
    var at := InsertPosition(node, sorted);
    sorted[..at] + [node] + sorted[at..]
  }

  function SortNodes(nodes: seq<NodeInfo>): seq<NodeInfo> {
    if nodes == [] then [] else InsertNode(nodes[|nodes| - 1], SortNodes(nodes[..|nodes| - 1]))
  }

  function WithoutNode(nodes: seq<NodeInfo>, nodeId: int): seq<NodeInfo> {
    if nodes == [] then []
    else (if nodes[0].nodeId == nodeId then [] else [nodes[0]]) + WithoutNode(nodes[1..], nodeId)
  }

  // Operations

  predicate ValidConfig(info: ClusterInfo, nodes: seq<NodeInfo>) {
    && info.coordinatorNodeId in NodeIds(nodes)
    && info.leaderNodeId in NodeIds(nodes)
    && forall i, j :: 0 <= i < j < |nodes| ==> nodes[i].hostname != nodes[j].hostname
  }

  function TrimmedNodes(nodes: seq<NodeInfo>): (trimmed: seq<NodeInfo>)
    ensures |trimmed| == |nodes| && forall i :: 0 <= i < |nodes| ==> trimmed[i] == TrimmedNode(nodes[i])
  {
    seq(|nodes|, i requires 0 <= i < |nodes| => TrimmedNode(nodes[i]))
  }

  /** Everything `Cluster.fromJSON` checks before it accepts a configuration. */
  predicate Accepts(state: ClusterState) {
    && InfoAccepts(state.info)
    && state.nodes != []
    && (forall i :: 0 <= i < |state.nodes| ==> NodeAccepts(state.nodes[i]))
    && SchemaAcceptsAll(state.services)
    && ValidConfig(state.info, TrimmedNodes(state.nodes))
  }

  /** When a configuration loads, told by the trimmed texts: no text of a node or a web service is blank, coordinator and leader
      are members, trimmed hostnames differ, and every service is stored under its own id with ports in range. */
  ghost predicate Loads(state: ClusterState) {
    var nodes, services := state.nodes, state.services;
    && Trim(state.info.accessKey) != ""
    && (exists node :: node in nodes && node.nodeId == state.info.coordinatorNodeId)
    && (exists node :: node in nodes && node.nodeId == state.info.leaderNodeId)
    && (forall node :: node in nodes ==>
          1 <= node.nodeId <= 255 && Trim(node.hostname) != "" && IsIpv4(node.publicIp) && Trim(node.wireguardPublicKey) != "")
    && (forall i, j :: 0 <= i < j < |nodes| ==> Trim(nodes[i].hostname) != Trim(nodes[j].hostname))
    && (forall id :: id in services ==> IsServiceId(id) && Trim(services[id].serviceId) == id && LoadsService(services[id]))
  }

  ghost predicate LoadsService(service: Service) {
    match service
    case Web(_, image, domain, internalPort, exposedPort, env, healthPath) =>
      && Trim(image) != "" && Trim(domain) != "" && (forall key :: key in env ==> IsEnvKey(key))
      && (healthPath.Some? ==> IsHealthPath(Trim(healthPath.value)))
      && 1 <= internalPort <= 65535 && 15000 <= exposedPort <= 65535
    case Patroni(_, _, postgresPort, readWritePort, readOnlyPort, restPort) =>
      && 1 <= postgresPort <= 65535 && 5432 <= readWritePort <= 7480 && 5432 <= readOnlyPort <= 7480
      && 8008 <= restPort <= 65535
  }

  lemma LoadsServiceIfAccepted(service: Service)
    ensures SchemaAccepts(service) <==> IsServiceId(Trim(service.serviceId)) && LoadsService(service)
  {
    hide IsServiceId, Trim, NotBlank, IsEnvKey, IsHealthPath;
    match service
    case Web(_, image, domain, _, _, _, _) =>
      TrimBlank(image);
      TrimBlank(domain);
    case Patroni(_, _, _, _, _, _) =>
  }

  lemma LoadsRegistryIfAccepted(services: Registry)
    ensures SchemaAcceptsAll(services) <==>
            forall id :: id in services ==> IsServiceId(id) && Trim(services[id].serviceId) == id && LoadsService(services[id])
  {
    hide IsServiceId, Trim, LoadsService, SchemaAccepts, IsTrimmed;
    forall id | id in services
      ensures IsServiceId(Trim(id)) && Trim(services[id].serviceId) == id && SchemaAccepts(services[id]) <==>
              IsServiceId(id) && Trim(services[id].serviceId) == id && LoadsService(services[id])
    {
      LoadsServiceIfAccepted(services[id]);
      TrimTrims(services[id].serviceId);
      TrimTrims(id);
    }
  }

  /** The schemas and cross checks of loading, as conditions on the trimmed texts; the range of the two special ids follows from
      their membership. */
  lemma LoadsIfAccepted(state: ClusterState)
    ensures Accepts(state) <==> Loads(state)
  {
    hide IsServiceId, Trim, LoadsService, SchemaAccepts, SchemaAcceptsAll, NotBlank, IsIpv4;
    var nodes := state.nodes;
    LoadsRegistryIfAccepted(state.services);
    TrimBlank(state.info.accessKey);
    forall node | node in nodes
      ensures (Trim(node.hostname) != "" <==> NotBlank(node.hostname)) &&
              (Trim(node.wireguardPublicKey) != "" <==> NotBlank(node.wireguardPublicKey))
    {
      TrimBlank(node.hostname);
      TrimBlank(node.wireguardPublicKey);
    }
    MembersOfTrimmed(nodes, state.info.coordinatorNodeId);
    MembersOfTrimmed(nodes, state.info.leaderNodeId);
    assert forall i :: 0 <= i < |nodes| ==> nodes[i] in nodes;
  }

  lemma MembersOfTrimmed(nodes: seq<NodeInfo>, nodeId: int)
    ensures nodeId in NodeIds(TrimmedNodes(nodes)) <==> exists node :: node in nodes && node.nodeId == nodeId
  {
    var trimmed := TrimmedNodes(nodes);
    if nodeId in NodeIds(trimmed) {
      var i :| 0 <= i < |trimmed| && trimmed[i].nodeId == nodeId;
      assert nodes[i] in nodes && nodes[i].nodeId == nodeId;
    }
    if node :| node in nodes && node.nodeId == nodeId {
      var i :| 0 <= i < |nodes| && nodes[i] == node;
      assert trimmed[i].nodeId == nodeId;
    }
  }

  /** What `Cluster.fromJSON` makes of it: the schemas return trimmed texts, and the nodes are sorted. */
  function Loaded(state: ClusterState): ClusterState {
    ClusterState(state.info.(accessKey := Trim(state.info.accessKey)), SortNodes(TrimmedNodes(state.nodes)),
                 map id | id in state.services :: TrimmedService(state.services[id]))
  }

  function Created(clusterId: string, accessKey: string, version: int, now: string, coordinator: NodeInfo): ClusterState {
    ClusterState(ClusterInfo(clusterId, accessKey, version, now, now, 1, 1), [coordinator], map[])
  }

  function Touched(state: ClusterState, now: string): ClusterState {
    state.(info := state.info.(updatedAt := now))
  }

  /** A leader that is already installed is left alone, update time included. */
  function WithLeader(state: ClusterState, nodeId: int, now: string): Result<ClusterState, ConfigError> {
    if nodeId !in NodeIds(state.nodes) then Err(CouldNotFindNode)
    else if state.info.leaderNodeId == nodeId then Ok(state)
    else Ok(Touched(state.(info := state.info.(leaderNodeId := nodeId)), now))
  }

  /** `joinNode` up to its await: the node that will be added, or the reason why not. */
  function JoiningNode(state: ClusterState, hostname: string, publicIp: string, key: string): Result<NodeInfo, ConfigError> {
    if exists i :: 0 <= i < |state.nodes| &&
         (state.nodes[i].hostname == hostname || state.nodes[i].wireguardPublicKey == key || state.nodes[i].publicIp == publicIp)
    then Err(NodeAlreadyExists)
    else match LowestFree(NodeIds(state.nodes), 1, MAX_NODE_ID)
      case None => Err(MaximumNodesReached)
      case Some(nodeId) =>
        var node := NodeInfo(nodeId, hostname, publicIp, key);
        if NodeAccepts(node) then Ok(node) else Err(ClusterConfigInvalid)
  }

  /** `joinNode` after its await. */
  function WithNode(state: ClusterState, node: NodeInfo, now: string): ClusterState {
    Touched(state.(nodes := SortNodes(state.nodes + [node])), now)
  }

  function Kicked(state: ClusterState, nodeId: int, now: string): Result<ClusterState, ConfigError> {
    if nodeId !in NodeIds(state.nodes) then Err(CouldNotFindNode)
    else if nodeId == state.info.coordinatorNodeId then Err(CannotKickCoordinator)
    else
      var info := state.info;
      var leader := if info.leaderNodeId == nodeId then info.coordinatorNodeId else info.leaderNodeId;
      Ok(Touched(state.(nodes := SortNodes(WithoutNode(state.nodes, nodeId)), info := info.(leaderNodeId := leader)), now))
  }

  function WithService(state: ClusterState, id: string, service: Result<Service, ConfigError>, now: string)
    : Result<ClusterState, ConfigError>
  {
    match service
    case Err(error) => Err(error)
    case Ok(stored) => Ok(Touched(state.(services := state.services[id := stored]), now))
  }

  function WithoutService(state: ClusterState, id: string, now: string): Result<ClusterState, ConfigError> {
    if id !in state.services then Err(ServiceDoesNotExist)
    else Ok(Touched(state.(services := state.services - {id}), now))
  }

  // What the operations do

  lemma {:induction false} SortMembers(nodes: seq<NodeInfo>)
    ensures multiset(SortNodes(nodes)) == multiset(nodes)
    ensures forall node :: node in SortNodes(nodes) <==> node in nodes
  {
    if nodes != [] {
      var front, last := nodes[..|nodes| - 1], nodes[|nodes| - 1];
      assert nodes == front + [last];
      SortMembers(front);
      InsertedOne(last, SortNodes(front));
      assert forall node :: node in SortNodes(nodes) <==> node in multiset(SortNodes(nodes));
      assert forall node :: node in nodes <==> node in multiset(nodes);
    }
  }

  lemma InsertedOne(node: NodeInfo, sorted: seq<NodeInfo>)
    ensures multiset(InsertNode(node, sorted)) == multiset(sorted) + multiset{node}
  {
    var at := InsertPosition(node, sorted);
    assert sorted == sorted[..at] + sorted[at..];
  }

  lemma {:induction false} SortOrders(nodes: seq<NodeInfo>)
    ensures NodesInOrder(SortNodes(nodes))
  {
    if nodes != [] {
      SortOrders(nodes[..|nodes| - 1]);
      InsertKeepsInOrder(SortNodes(nodes[..|nodes| - 1]), nodes[|nodes| - 1]);
    }
  }

  /** What loading makes of a configuration, field by field: the same entries with their texts trimmed, the nodes in the order
      of their ids, each as often as before. */
  lemma LoadedMeans(state: ClusterState)
    ensures var loaded := Loaded(state);
            && loaded.info == state.info.(accessKey := Trim(state.info.accessKey))
            && NodesInOrder(loaded.nodes) && |loaded.nodes| == |state.nodes|
            && multiset(loaded.nodes) ==
               multiset(seq(|state.nodes|, i requires 0 <= i < |state.nodes| =>
                 var node := state.nodes[i];
                 NodeInfo(node.nodeId, Trim(node.hostname), node.publicIp, Trim(node.wireguardPublicKey))))
            && loaded.services.Keys == state.services.Keys
            && forall id :: id in state.services ==> SameButTrimmed(state.services[id], loaded.services[id])
  {
    hide Trim;
    var trimmed := TrimmedNodes(state.nodes);
    SortMembers(trimmed);
    SortOrders(trimmed);
    assert |multiset(SortNodes(trimmed))| == |SortNodes(trimmed)| && |multiset(trimmed)| == |trimmed|;
    assert trimmed == seq(|state.nodes|, i requires 0 <= i < |state.nodes| =>
      var node := state.nodes[i];
      NodeInfo(node.nodeId, Trim(node.hostname), node.publicIp, Trim(node.wireguardPublicKey)));
  }

  ghost predicate SameButTrimmed(service: Service, trimmed: Service) {
    && trimmed.serviceId == Trim(service.serviceId) && (service.Web? <==> trimmed.Web?)
    && trimmed.Ports() == service.Ports()
    && (service.Patroni? ==> trimmed.syncMode == service.syncMode)
    && (service.Web? ==>
          && trimmed.image == Trim(service.image) && trimmed.domain == Trim(service.domain)
          && trimmed.internalPort == service.internalPort && trimmed.env == service.env
          && trimmed.healthPath == if service.healthPath.Some? then Some(Trim(service.healthPath.value)) else None)
  }

  /** A leader change is refused for a stranger, changes nothing for the present leader, and else changes the leader and the
      update time only. */
  lemma WithLeaderMeans(state: ClusterState, nodeId: int, now: string)
    ensures var changed := WithLeader(state, nodeId, now);
            if forall node :: node in state.nodes ==> node.nodeId != nodeId then changed == Err(CouldNotFindNode)
            else if state.info.leaderNodeId == nodeId then changed == Ok(state)
            else
              && changed.Ok? && changed.value.nodes == state.nodes && changed.value.services == state.services
              && changed.value.info == state.info.(leaderNodeId := nodeId, updatedAt := now)
  {
    assert forall i :: 0 <= i < |state.nodes| ==> state.nodes[i] in state.nodes;
  }

  /** A node is refused exactly when a member has its hostname, its address or its key, when all ids are taken, or when the
      schema refuses it. */
  lemma JoiningMeans(state: ClusterState, hostname: string, publicIp: string, key: string)
    ensures var joining := JoiningNode(state, hostname, publicIp, key);
            if exists other :: other in state.nodes &&
                 (other.hostname == hostname || other.publicIp == publicIp || other.wireguardPublicKey == key)
            then joining == Err(NodeAlreadyExists)
            else if forall id :: 1 <= id <= 255 ==> id in NodeIds(state.nodes) then joining == Err(MaximumNodesReached)
            else if !NotBlank(hostname) || !IsIpv4(publicIp) || !NotBlank(key) then joining == Err(ClusterConfigInvalid)
            else
              && joining.Ok? && joining.value.hostname == hostname && joining.value.publicIp == publicIp
              && joining.value.wireguardPublicKey == key && 1 <= joining.value.nodeId <= 255
              && (forall other :: other in state.nodes ==> other.nodeId != joining.value.nodeId)
              && forall lower :: 1 <= lower < joining.value.nodeId ==> lower in NodeIds(state.nodes)
  {
    hide NotBlank, IsIpv4;
    forall other | other in state.nodes ensures exists i :: 0 <= i < |state.nodes| && state.nodes[i] == other {
    }
  }

  /** A completed join adds exactly the node. */
  lemma WithNodeMeans(state: ClusterState, node: NodeInfo, now: string)
    ensures var joined := WithNode(state, node, now);
            && multiset(joined.nodes) == multiset(state.nodes) + multiset{node} && NodesInOrder(joined.nodes)
            && joined.info == state.info.(updatedAt := now) && joined.services == state.services
  {
    SortMembers(state.nodes + [node]);
    SortOrders(state.nodes + [node]);
  }

  /** A kick is refused for a stranger and for the coordinator; else exactly this node goes, its leadership goes to the
      coordinator, and any other leader stays. */
  lemma KickedMeans(state: ClusterState, nodeId: int, now: string)
    ensures var kicked := Kicked(state, nodeId, now);
            if forall node :: node in state.nodes ==> node.nodeId != nodeId then kicked == Err(CouldNotFindNode)
            else if nodeId == state.info.coordinatorNodeId then kicked == Err(CannotKickCoordinator)
            else
              && kicked.Ok? && NodesInOrder(kicked.value.nodes) && kicked.value.services == state.services
              && (forall node :: node in kicked.value.nodes <==> node in state.nodes && node.nodeId != nodeId)
              && (state.info.leaderNodeId == nodeId ==>
                    kicked.value.info == state.info.(leaderNodeId := state.info.coordinatorNodeId, updatedAt := now))
              && (state.info.leaderNodeId != nodeId ==> kicked.value.info == state.info.(updatedAt := now))
  {
    assert forall i :: 0 <= i < |state.nodes| ==> state.nodes[i] in state.nodes;
    WithoutMembers(state.nodes, nodeId);
    SortMembers(WithoutNode(state.nodes, nodeId));
    SortOrders(WithoutNode(state.nodes, nodeId));
  }

  /** A removal is refused for a service that does not exist; else exactly this service goes. */
  lemma WithoutServiceMeans(state: ClusterState, id: string, now: string)
    ensures var removed := WithoutService(state, id, now);
            if id !in state.services then removed == Err(ServiceDoesNotExist)
            else
              && removed.Ok? && removed.value.services.Keys == state.services.Keys - {id}
              && (forall other :: other in state.services && other != id ==>
                    removed.value.services[other] == state.services[other])
              && removed.value.nodes == state.nodes && removed.value.info == state.info.(updatedAt := now)
  {
  }

  /** A deployment that is not refused stores the service under its id and touches no other. */
  lemma WithServiceMeans(state: ClusterState, id: string, service: Result<Service, ConfigError>, now: string)
    ensures var stored := WithService(state, id, service, now);
            match service
            case Err(error) => stored == Err(error)
            case Ok(value) =>
              && stored.Ok? && stored.value.services.Keys == state.services.Keys + {id}
              && stored.value.services[id] == value
              && (forall other :: other in state.services && other != id ==>
                    stored.value.services[other] == state.services[other])
              && stored.value.nodes == state.nodes && stored.value.info == state.info.(updatedAt := now)
  {
  }

  // Invariant

  ghost predicate NodesSorted(nodes: seq<NodeInfo>) {
    forall i, j :: 0 <= i < j < |nodes| ==> nodes[i].nodeId < nodes[j].nodeId
  }

  /** Sorted, but an id may occur more than once. */
  ghost predicate NodesInOrder(nodes: seq<NodeInfo>) {
    forall i, j :: 0 <= i < j < |nodes| ==> nodes[i].nodeId <= nodes[j].nodeId
  }

  predicate Clash(a: NodeInfo, b: NodeInfo) {
    a.hostname == b.hostname || a.wireguardPublicKey == b.wireguardPublicKey || a.publicIp == b.publicIp
  }

  ghost predicate NodesDistinct(nodes: seq<NodeInfo>) {
    forall i, j :: 0 <= i < j < |nodes| ==> !Clash(nodes[i], nodes[j])
  }

  ghost predicate NodesInvariant(nodes: seq<NodeInfo>) {
    NodesSorted(nodes) && NodesDistinct(nodes) && NodesValid(nodes)
  }

  ghost predicate NodesValid(nodes: seq<NodeInfo>) {
    forall node :: node in nodes ==> NodeAccepts(node) && NodeTrimmed(node)
  }

  ghost predicate ClusterInvariant(state: ClusterState) {
    && InfoAccepts(state.info) && IsTrimmed(state.info.accessKey)
    && NodesInvariant(state.nodes)
    && state.info.coordinatorNodeId in NodeIds(state.nodes)
    && state.info.leaderNodeId in NodeIds(state.nodes)
    && RegistryInvariant(state.services)
  }

  lemma TrimmedUnchanged(nodes: seq<NodeInfo>)
    requires NodesValid(nodes)
    ensures TrimmedNodes(nodes) == nodes
  {
    hide NodeAccepts, NodeTrimmed, TrimmedNode;
    forall i | 0 <= i < |nodes| ensures TrimmedNode(nodes[i]) == nodes[i] {
      assert nodes[i] in nodes;
      TrimmedNodeUnchanged(nodes[i]);
    }
  }

  /** A registry with the invariant passes the schema of a node that receives it, which returns it unchanged. */
  lemma RegistryIsAccepted(services: Registry)
    requires RegistryInvariant(services)
    ensures SchemaAcceptsAll(services)
    ensures (map id | id in services :: TrimmedService(services[id])) == services
  {
    hide SchemaAccepts, IsServiceId, Trim, IsTrimmed, ServiceTrimmed, TrimmedService, PortsDisjoint, PortsPlaced;
    forall id | id in services
      ensures IsServiceId(Trim(id)) && Trim(services[id].serviceId) == id && TrimmedService(services[id]) == services[id]
    {
      ServiceIdTrimmed(id);
      TrimTrims(id);
      TrimmedServiceUnchanged(services[id]);
    }
  }

  /** A configuration that keeps the invariant passes every check of a node that receives it. */
  lemma InvariantIsAccepted(state: ClusterState)
    requires ClusterInvariant(state)
    ensures Accepts(state)
  {
    hide NodeAccepts, NodeTrimmed, InfoAccepts, IsTrimmed, RegistryInvariant, SchemaAcceptsAll;
    RegistryIsAccepted(state.services);
    TrimmedUnchanged(state.nodes);
    assert forall i :: 0 <= i < |state.nodes| ==> state.nodes[i] in state.nodes;
    assert forall i, j :: 0 <= i < j < |state.nodes| ==> !Clash(state.nodes[i], state.nodes[j]);
  }

  /** And it is loaded as it is. */
  lemma LoadedUnchanged(state: ClusterState)
    requires ClusterInvariant(state)
    ensures Loaded(state) == state
  {
    hide NodeAccepts, NodeTrimmed, NodesDistinct, InfoAccepts, IsTrimmed, Trim, RegistryInvariant, SortNodes, TrimmedNodes;
    RegistryIsAccepted(state.services);
    TrimmedUnchanged(state.nodes);
    SortedIsUnchanged(state.nodes);
    TrimTrims(state.info.accessKey);
  }

  // Node lists

  /** Sorting is stable and leaves a sorted list as it is. */
  lemma {:induction false} SortedIsUnchanged(nodes: seq<NodeInfo>)
    requires NodesInOrder(nodes)
    ensures SortNodes(nodes) == nodes
  {
    if nodes != [] {
      var front := nodes[..|nodes| - 1];
      SortedIsUnchanged(front);
      assert InsertPosition(nodes[|nodes| - 1], front) == |front|;
    }
  }

  /** Adding a node with a new id and no clashing field keeps the node list sorted, distinct and valid. */
  lemma AddKeepsNodes(nodes: seq<NodeInfo>, node: NodeInfo)
    requires NodesInvariant(nodes) && NodeAccepts(node) && NodeTrimmed(node)
    requires node.nodeId !in NodeIds(nodes)
    requires forall i :: 0 <= i < |nodes| ==> !Clash(nodes[i], node)
    ensures NodesInvariant(SortNodes(nodes + [node]))
    ensures forall other :: other in SortNodes(nodes + [node]) <==> other in nodes || other == node
  {
    hide NodeAccepts, SortNodes, NodesSorted, NodesDistinct, Clash;
    SortedInOrder(nodes);
    AppendInserts(nodes, node);
    var at := InsertPosition(node, nodes);
    InsertKeepsOrder(nodes, node, at);
    InsertKeepsDistinct(nodes, node, at);
  }

  lemma SortedInOrder(nodes: seq<NodeInfo>)
    requires NodesSorted(nodes)
    ensures NodesInOrder(nodes)
  {
  }

  lemma AppendInserts(nodes: seq<NodeInfo>, node: NodeInfo)
    requires NodesInOrder(nodes)
    ensures SortNodes(nodes + [node]) == InsertNode(node, nodes)
  {
    assert (nodes + [node])[..|nodes|] == nodes;
    SortedIsUnchanged(nodes);
  }

  lemma InsertKeepsOrder(nodes: seq<NodeInfo>, node: NodeInfo, at: nat)
    requires NodesSorted(nodes) && at <= |nodes| && node.nodeId !in NodeIds(nodes)
    requires at > 0 ==> nodes[at - 1].nodeId <= node.nodeId
    requires forall i :: at <= i < |nodes| ==> node.nodeId < nodes[i].nodeId
    ensures NodesSorted(nodes[..at] + [node] + nodes[at..])
  {
  }

  lemma InsertKeepsDistinct(nodes: seq<NodeInfo>, node: NodeInfo, at: nat)
    requires NodesDistinct(nodes) && at <= |nodes|
    requires forall i :: 0 <= i < |nodes| ==> !Clash(nodes[i], node)
    ensures NodesDistinct(nodes[..at] + [node] + nodes[at..])
  {
  }

  lemma {:induction false} WithoutMembers(nodes: seq<NodeInfo>, nodeId: int)
    ensures forall node :: node in WithoutNode(nodes, nodeId) <==> node in nodes && node.nodeId != nodeId
  {
    if nodes != [] {
      WithoutMembers(nodes[1..], nodeId);
      assert nodes == [nodes[0]] + nodes[1..];
    }
  }

  ghost predicate Before(node: NodeInfo, others: seq<NodeInfo>) {
    forall other :: other in others ==> node.nodeId < other.nodeId && !Clash(node, other)
  }

  /** Dropping a node keeps the order of the others. */
  lemma {:induction false} WithoutKeepsOrder(nodes: seq<NodeInfo>, nodeId: int)
    requires NodesSorted(nodes) && NodesDistinct(nodes)
    ensures NodesSorted(WithoutNode(nodes, nodeId)) && NodesDistinct(WithoutNode(nodes, nodeId))
  {
    if nodes != [] {
      var head, tail := nodes[0], nodes[1..];
      assert Before(head, tail);
      WithoutKeepsOrder(tail, nodeId);
      WithoutMembers(tail, nodeId);
    }
  }

  lemma WithoutKeepsNodes(nodes: seq<NodeInfo>, nodeId: int)
    requires NodesInvariant(nodes)
    ensures NodesInvariant(WithoutNode(nodes, nodeId))
    ensures NodeIds(WithoutNode(nodes, nodeId)) == NodeIds(nodes) - {nodeId}
  {
    WithoutKeepsOrder(nodes, nodeId);
    WithoutMembers(nodes, nodeId);
  }

  // What the operations keep

  lemma MemberIdInRange(nodes: seq<NodeInfo>, nodeId: int)
    requires NodesValid(nodes) && nodeId in NodeIds(nodes)
    ensures 1 <= nodeId <= MAX_NODE_ID
  {
    var node := FindNode(nodes, nodeId).value;
    assert NodeAccepts(node);
  }

  lemma WithLeaderKeepsInvariant(state: ClusterState, nodeId: int, now: string)
    requires ClusterInvariant(state) && nodeId in NodeIds(state.nodes)
    ensures ClusterInvariant(WithLeader(state, nodeId, now).value)
  {
    MemberIdInRange(state.nodes, nodeId);
    hide NodeAccepts, RegistryInvariant;
  }

  /** Kicking drops exactly one node; a kicked leader hands over to the coordinator. */
  lemma KickedKeepsInvariant(state: ClusterState, nodeId: int, now: string)
    requires ClusterInvariant(state) && Kicked(state, nodeId, now).Ok?
    ensures var kicked := Kicked(state, nodeId, now).value;
            && ClusterInvariant(kicked)
            && forall node :: node in kicked.nodes <==> node in state.nodes && node.nodeId != nodeId
  {
    hide RegistryInvariant, NodesInvariant, WithoutNode, SortNodes;
    KickKeepsNodes(state.nodes, nodeId);
  }

  lemma KickKeepsNodes(nodes: seq<NodeInfo>, nodeId: int)
    requires NodesInvariant(nodes)
    ensures var kept := SortNodes(WithoutNode(nodes, nodeId));
            && NodesInvariant(kept) && NodeIds(kept) == NodeIds(nodes) - {nodeId}
            && forall node :: node in kept <==> node in nodes && node.nodeId != nodeId
  {
    hide NodeAccepts;
    WithoutKeepsNodes(nodes, nodeId);
    WithoutMembers(nodes, nodeId);
    SortedIsUnchanged(WithoutNode(nodes, nodeId));
  }

  ghost predicate IsNew(state: ClusterState, node: NodeInfo) {
    && NodeAccepts(node) && NodeTrimmed(node)
    && forall other :: other in state.nodes ==> other.nodeId != node.nodeId && !Clash(other, node)
  }

  lemma AddedIsValid(state: ClusterState, node: NodeInfo, now: string)
    requires ClusterInvariant(state) && IsNew(state, node)
    ensures ClusterInvariant(WithNode(state, node, now))
  {
    hide NodeAccepts, NodeTrimmed, RegistryInvariant, NodesInvariant, SortNodes, IsTrimmed, NotBlank;
    assert forall i :: 0 <= i < |state.nodes| ==> state.nodes[i] in state.nodes;
    AddKeepsNodes(state.nodes, node);
  }

  /** Adding a node keeps the invariant exactly when the node is new in every respect: valid, with an id, a hostname, a key
      and an address that no member has. */
  lemma WithNodeKeepsInvariant(state: ClusterState, node: NodeInfo, now: string)
    requires ClusterInvariant(state)
    ensures ClusterInvariant(WithNode(state, node, now)) <==> IsNew(state, node)
    ensures forall other :: other in WithNode(state, node, now).nodes <==> other in state.nodes || other == node
  {
    hide NodeAccepts, NodeTrimmed, RegistryInvariant, NodesSorted, NodesDistinct, NodesValid, SortNodes, InfoAccepts,
         IsTrimmed, IsNew;
    SortedInOrder(state.nodes);
    AppendInserts(state.nodes, node);
    if IsNew(state, node) {
      AddedIsValid(state, node, now);
    }
    if ClusterInvariant(WithNode(state, node, now)) {
      InsertedIsNew(state, node, InsertPosition(node, state.nodes));
    }
  }

  /** A list that is valid with the node in it shows that the node was new. */
  lemma InsertedIsNew(state: ClusterState, node: NodeInfo, at: nat)
    requires at <= |state.nodes|
    requires NodesInvariant(state.nodes[..at] + [node] + state.nodes[at..])
    ensures IsNew(state, node)
  {
    hide NodeAccepts, NodeTrimmed;
    var nodes := state.nodes[..at] + [node] + state.nodes[at..];
    assert nodes[at] == node && node in nodes;
    forall other | other in state.nodes ensures other.nodeId != node.nodeId && !Clash(other, node) {
      var i :| 0 <= i < |state.nodes| && state.nodes[i] == other;
      if i < at {
        assert nodes[i] == other;
      } else {
        assert nodes[i + 1] == other;
      }
    }
  }

  /** A list that is valid with a node in it is valid without it. */
  lemma ValidWithoutNode(nodes: seq<NodeInfo>, node: NodeInfo, at: nat)
    requires at <= |nodes| && NodesInvariant(nodes[..at] + [node] + nodes[at..])
    ensures NodesInvariant(nodes)
  {
    hide NodeAccepts, NodeTrimmed, Clash;
    var more := nodes[..at] + [node] + nodes[at..];
    assert forall i :: 0 <= i < |nodes| ==> nodes[i] == more[if i < at then i else i + 1];
  }

  lemma InsertKeepsInOrder(nodes: seq<NodeInfo>, node: NodeInfo)
    requires NodesInOrder(nodes)
    ensures NodesInOrder(InsertNode(node, nodes))
  {
  }

  lemma FirstMustKeepNodes(nodes: seq<NodeInfo>, first: NodeInfo, second: NodeInfo)
    requires NodesInOrder(nodes) && NodesInvariant(SortNodes(SortNodes(nodes + [first]) + [second]))
    ensures NodesInvariant(SortNodes(nodes + [first])) && NodeIds(nodes) <= NodeIds(SortNodes(nodes + [first]))
  {
    hide NodesInvariant, SortNodes, InsertPosition, NodesInOrder;
    var middle := InsertNode(first, nodes);
    AppendInserts(nodes, first);
    InsertKeepsInOrder(nodes, first);
    AppendInserts(middle, second);
    ValidWithoutNode(middle, second, InsertPosition(second, middle));
    forall i | 0 <= i < |nodes| ensures nodes[i].nodeId in NodeIds(middle) {
      assert nodes[i] in middle;
    }
  }

  /** A second completion never mends a first one that broke the invariant. */
  lemma FirstMustKeep(state: ClusterState, first: NodeInfo, second: NodeInfo, now: string, later: string)
    requires ClusterInvariant(state)
    requires ClusterInvariant(WithNode(WithNode(state, first, now), second, later))
    ensures ClusterInvariant(WithNode(state, first, now))
  {
    hide RegistryInvariant, SortNodes, IsTrimmed, NotBlank, NodesValid, NodesDistinct, NodeIds;
    SortedInOrder(state.nodes);
    hide NodesInvariant, NodesInOrder;
    FirstMustKeepNodes(state.nodes, first, second);
  }

  /** Two joins completed one after the other keep the invariant exactly when each node is new and they differ in id,
      hostname, key and address, whatever happened between their selections. */
  lemma TwoJoinsKeepInvariant(state: ClusterState, first: NodeInfo, second: NodeInfo, now: string, later: string)
    requires ClusterInvariant(state)
    ensures ClusterInvariant(WithNode(WithNode(state, first, now), second, later)) <==>
            IsNew(state, first) && IsNew(state, second) && first.nodeId != second.nodeId && !Clash(first, second)
  {
    hide NodeAccepts, NodeTrimmed, ClusterInvariant, SortNodes;
    WithNodeKeepsInvariant(state, first, now);
    if ClusterInvariant(WithNode(state, first, now)) {
      WithNodeKeepsInvariant(WithNode(state, first, now), second, later);
    } else if ClusterInvariant(WithNode(WithNode(state, first, now), second, later)) {
      FirstMustKeep(state, first, second, now, later);
    }
  }

  /** The node selected for a join is new in every respect and takes the lowest free id. */
  lemma SelectedIsNew(state: ClusterState, hostname: string, publicIp: string, key: string)
    requires JoiningNode(state, hostname, publicIp, key).Ok? && IsTrimmed(hostname) && IsTrimmed(key)
    ensures var node := JoiningNode(state, hostname, publicIp, key).value;
            && IsNew(state, node) && 1 <= node.nodeId <= MAX_NODE_ID
            && node.hostname == hostname && node.publicIp == publicIp && node.wireguardPublicKey == key
            && forall lower :: 1 <= lower < node.nodeId ==> lower in NodeIds(state.nodes)
  {
  }

  /** A join fails for lack of space exactly when all 255 ids are taken. */
  lemma JoinFailsOnlyWhenFull(state: ClusterState, hostname: string, publicIp: string, key: string)
    requires ClusterInvariant(state)
    requires JoiningNode(state, hostname, publicIp, key) != Err(NodeAlreadyExists)
    ensures JoiningNode(state, hostname, publicIp, key) == Err(MaximumNodesReached) <==> |state.nodes| == MAX_NODE_ID
  {
    var ids := NodeIds(state.nodes);
    FailsOnlyWhenFull(ids, 1, MAX_NODE_ID);
    IdCount(state.nodes);
    forall id | id in ids ensures 1 <= id <= MAX_NODE_ID {
      MemberIdInRange(state.nodes, id);
    }
    assert Within(ids, 1, MAX_NODE_ID) == ids;
    WithinSize(ids, 1, MAX_NODE_ID);
  }

  lemma {:induction false} IdCount(nodes: seq<NodeInfo>)
    requires NodesSorted(nodes)
    ensures |NodeIds(nodes)| == |nodes|
  {
    if nodes != [] {
      var front, last := nodes[..|nodes| - 1], nodes[|nodes| - 1];
      IdCount(front);
      assert NodeIds(nodes) == NodeIds(front) + {last.nodeId};
    }
  }
}
