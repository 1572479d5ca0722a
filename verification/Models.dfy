/** The records and schemas of src/models/config.ts. */
module Models {
  import opened Wrappers
  import opened Constants

  // String grammars

  /** The white space of `trim` and of the pattern `\s`. */
  predicate IsSpace(c: char) {
    || c == ' ' || '\t' <= c <= '\r' || c == '\U{0000A0}' || c == '\U{001680}' || '\U{002000}' <= c <= '\U{00200A}'
    || c == '\U{002028}' || c == '\U{002029}' || c == '\U{00202F}' || c == '\U{00205F}' || c == '\U{003000}'
    || c == '\U{00FEFF}'
  }

  function TrimStart(s: string): string {
    if s != "" && IsSpace(s[0]) then TrimStart(s[1..]) else s
  }

  function TrimEnd(s: string): string {
    if s != "" && IsSpace(s[|s| - 1]) then TrimEnd(s[..|s| - 1]) else s
  }

  function Trim(s: string): string {
    TrimEnd(TrimStart(s))
  }

  /** What trimming does not turn into the empty string. */
  predicate NotBlank(s: string) {
    exists i :: 0 <= i < |s| && !IsSpace(s[i])
  }

  /** Free of white space at both ends. */
  predicate IsTrimmed(s: string) {
    s == "" || (!IsSpace(s[0]) && !IsSpace(s[|s| - 1]))
  }

  predicate IsLowerOrDigit(c: char) {
    'a' <= c <= 'z' || '0' <= c <= '9'
  }

  /** A lower-case letter or digit, then lower-case letters, digits and hyphens. */
  predicate IsServiceId(s: string) {
    s != "" && IsLowerOrDigit(s[0]) && forall i :: 0 <= i < |s| ==> IsLowerOrDigit(s[i]) || s[i] == '-'
  }

  predicate IsEnvKeyChar(c: char) {
    'a' <= c <= 'z' || 'A' <= c <= 'Z' || '0' <= c <= '9' || c == '_'
  }

  predicate IsEnvKey(s: string) {
    s != "" && !('0' <= s[0] <= '9') && forall i :: 0 <= i < |s| ==> IsEnvKeyChar(s[i])
  }

  predicate IsHealthPath(s: string) {
    s != "" && s[0] == '/' && forall i :: 0 <= i < |s| ==> !IsSpace(s[i])
  }

  predicate IsOctet(s: string, start: int, end: int) {
    0 <= start && end <= |s| && 1 <= end - start <= 3 && forall i :: start <= i < end ==> '0' <= s[i] <= '9'
  }

  predicate DotAt(s: string, i: int) {
    0 <= i < |s| && s[i] == '.'
  }

  /** Four groups of one to three digits, separated by dots. */
  predicate IsIpv4(s: string) {
    exists a, b, c |
      0 <= a < |s| && 0 <= b < |s| && 0 <= c < |s| && DotAt(s, a) && DotAt(s, b) && DotAt(s, c) ::
      IsOctet(s, 0, a) && IsOctet(s, a + 1, b) && IsOctet(s, b + 1, c) && IsOctet(s, c + 1, |s|)
  }

  lemma ServiceIdTrimmed(s: string)
    requires IsServiceId(s)
    ensures IsTrimmed(s)
  {
  }

  /** Trimming gives a trimmed text, and changes no other. */
  lemma TrimTrims(s: string)
    ensures IsTrimmed(Trim(s))
    ensures Trim(s) == s <==> IsTrimmed(s)
  {
    TrimStartTrims(s);
    TrimEndTrims(TrimStart(s));
  }

  /** Trimming takes away white space at both ends and nothing else. */
  lemma TrimMeans(s: string) returns (from: nat, to: nat)
    ensures from <= to <= |s| && Trim(s) == s[from..to]
    ensures forall i :: 0 <= i < from || to <= i < |s| ==> IsSpace(s[i])
    ensures from < to ==> !IsSpace(s[from]) && !IsSpace(s[to - 1])
  {
    from := TrimStartMeans(s);
    var length := TrimEndMeans(s[from..]);
    to := from + length;
    assert forall i :: to <= i < |s| ==> s[i] == s[from..][i - from];
    TrimTrims(s);
  }

  lemma {:induction false} TrimStartMeans(s: string) returns (from: nat)
    ensures from <= |s| && TrimStart(s) == s[from..] && forall i :: 0 <= i < from ==> IsSpace(s[i])
  {
    if s != "" && IsSpace(s[0]) {
      var rest := TrimStartMeans(s[1..]);
      from := rest + 1;
      assert forall i :: 0 < i < from ==> s[i] == s[1..][i - 1];
    } else {
      from := 0;
    }
  }

  lemma {:induction false} TrimEndMeans(s: string) returns (to: nat)
    ensures to <= |s| && TrimEnd(s) == s[..to] && forall i :: to <= i < |s| ==> IsSpace(s[i])
  {
    if s != "" && IsSpace(s[|s| - 1]) {
      to := TrimEndMeans(s[..|s| - 1]);
    } else {
      to := |s|;
    }
  }

  lemma {:induction false} TrimStartTrims(s: string)
    ensures TrimStart(s) != "" ==> !IsSpace(TrimStart(s)[0])
    ensures |TrimStart(s)| <= |s| && (s != "" && IsSpace(s[0]) ==> |TrimStart(s)| < |s|)
  {
    if s != "" && IsSpace(s[0]) {
      TrimStartTrims(s[1..]);
    }
  }

  lemma {:induction false} TrimEndTrims(s: string)
    ensures TrimEnd(s) != "" ==> TrimEnd(s)[0] == s[0] && !IsSpace(TrimEnd(s)[|TrimEnd(s)| - 1])
    ensures |TrimEnd(s)| <= |s| && (s != "" && IsSpace(s[|s| - 1]) ==> |TrimEnd(s)| < |s|)
  {
    if s != "" && IsSpace(s[|s| - 1]) {
      TrimEndTrims(s[..|s| - 1]);
    }
  }

  /** A text is blank exactly when trimming leaves nothing of it. */
  lemma TrimBlank(s: string)
    ensures Trim(s) != "" <==> NotBlank(s)
  {
    TrimStartBlank(s);
    TrimEndBlank(TrimStart(s));
  }

  lemma {:induction false} TrimStartBlank(s: string)
    ensures NotBlank(TrimStart(s)) <==> NotBlank(s)
    ensures TrimStart(s) != "" ==> !IsSpace(TrimStart(s)[0])
  {
    if s != "" && IsSpace(s[0]) {
      TrimStartBlank(s[1..]);
      if i :| 0 <= i < |s| && !IsSpace(s[i]) {
        assert s[1..][i - 1] == s[i];
      }
      if i :| 0 <= i < |s[1..]| && !IsSpace(s[1..][i]) {
        assert s[i + 1] == s[1..][i];
      }
    }
  }

  lemma {:induction false} TrimEndBlank(s: string)
    requires s != "" ==> !IsSpace(s[0])
    ensures TrimEnd(s) != "" <==> NotBlank(s)
  {
    if s != "" && IsSpace(s[|s| - 1]) {
      var front := s[..|s| - 1];
      assert front[0] == s[0];
      TrimEndBlank(front);
    }
  }

  // Services

  datatype SyncMode = Async | Sync

  /** An empty `env` and a missing one are the same here, as the code stores `env` only when it has an entry. */
  datatype Service =
    | Web(serviceId: string, image: string, domain: string, internalPort: int, exposedPort: int,
          env: map<string, string>, healthPath: Option<string>)
    | Patroni(serviceId: string, syncMode: SyncMode, postgresPort: int, readWritePort: int, readOnlyPort: int,
              restPort: int)
  {
    /** Every port the service occupies, one entry per port field. */
    function Ports(): (ports: seq<int>)
      ensures |ports| == if Web? then 1 else 4
    {
      match this
      case Web(_, _, _, _, exposedPort, _, _) => [exposedPort]
      case Patroni(_, _, postgresPort, readWritePort, readOnlyPort, restPort) =>
        [postgresPort, readWritePort, readOnlyPort, restPort]
    }
  }

  type Registry = map<string, Service>

  predicate SchemaAccepts(service: Service) {
    && IsServiceId(Trim(service.serviceId))
    && match service
       case Web(_, image, domain, internalPort, exposedPort, env, healthPath) =>
         && NotBlank(image) && NotBlank(domain)
         && (forall key :: key in env ==> IsEnvKey(key))
         && (healthPath.Some? ==> IsHealthPath(Trim(healthPath.value)))
         && 1 <= internalPort <= LAST_PORT
         && WEB_EXPOSED_PORT_START <= exposedPort <= LAST_PORT
       case Patroni(_, _, postgresPort, readWritePort, readOnlyPort, restPort) =>
         && 1 <= postgresPort <= LAST_PORT
         && PATRONI_PORT_START <= readWritePort <= PATRONI_PORT_END
         && PATRONI_PORT_START <= readOnlyPort <= PATRONI_PORT_END
         && PATRONI_REST_PORT_START <= restPort <= LAST_PORT
  }

  /** The key check compares the key with the id as the schema returns it. */
  predicate SchemaAcceptsAll(services: Registry) {
    forall id :: id in services ==>
      IsServiceId(Trim(id)) && Trim(services[id].serviceId) == id && SchemaAccepts(services[id])
  }

  /** What the schema returns: the service with its texts trimmed. */
  function TrimmedService(service: Service): Service {
    match service
    case Web(serviceId, image, domain, internalPort, exposedPort, env, healthPath) =>
      Web(Trim(serviceId), Trim(image), Trim(domain), internalPort, exposedPort, env,
          if healthPath.Some? then Some(Trim(healthPath.value)) else None)
    case Patroni(serviceId, syncMode, postgresPort, readWritePort, readOnlyPort, restPort) =>
      Patroni(Trim(serviceId), syncMode, postgresPort, readWritePort, readOnlyPort, restPort)
  }

  predicate ServiceTrimmed(service: Service) {
    && IsTrimmed(service.serviceId)
    && (service.Web? ==>
          && IsTrimmed(service.image) && IsTrimmed(service.domain)
          && (service.healthPath.Some? ==> IsTrimmed(service.healthPath.value)))
  }

  lemma TrimmedServiceUnchanged(service: Service)
    requires ServiceTrimmed(service)
    ensures TrimmedService(service) == service
  {
  }

  // Nodes and cluster

  datatype NodeInfo = NodeInfo(nodeId: int, hostname: string, publicIp: string, wireguardPublicKey: string)

  predicate NodeAccepts(node: NodeInfo) {
    && 1 <= node.nodeId <= MAX_NODE_ID
    && NotBlank(node.hostname)
    && IsIpv4(node.publicIp)
    && NotBlank(node.wireguardPublicKey)
  }

  /** What the schema returns. */
  function TrimmedNode(node: NodeInfo): NodeInfo {
    node.(hostname := Trim(node.hostname), wireguardPublicKey := Trim(node.wireguardPublicKey))
  }

  predicate NodeTrimmed(node: NodeInfo) {
    IsTrimmed(node.hostname) && IsTrimmed(node.wireguardPublicKey)
  }

  lemma TrimmedNodeUnchanged(node: NodeInfo)
    requires NodeTrimmed(node)
    ensures TrimmedNode(node) == node
  {
  }

  datatype ClusterInfo = ClusterInfo(clusterId: string, accessKey: string, version: int, createdAt: string,
                                     updatedAt: string, coordinatorNodeId: int, leaderNodeId: int)

  predicate InfoAccepts(info: ClusterInfo) {
    && NotBlank(info.accessKey)
    && 1 <= info.coordinatorNodeId <= MAX_NODE_ID
    && 1 <= info.leaderNodeId <= MAX_NODE_ID
  }

  datatype ConfigError =
    | ClusterConfigInvalid
    | NodeAlreadyExists
    | MaximumNodesReached
    | CouldNotFindNode
    | CannotKickCoordinator
    | ServiceIdConflict
    | ServicePortAllocation
    | ServiceDoesNotExist
    | ConfigNotSaved
    | InterfaceNotSetUp
}
