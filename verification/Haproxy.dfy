/** The generated HAProxy configuration: its names, ports, references and server lists
    (src/cluster/haproxyConfigFiles.ts, `getHAProxyId` of src/utils/serviceConfig.ts, service_templates/haproxy). */
module Haproxy {
  import opened Wrappers
  import opened Constants
  import opened Models
  import opened Registries
  import opened ClusterStates
  import opened Decimals
  import opened KeyOrders
  import opened Membership

  const HTTP_PORT := 80
  const STATS_PORT := 8404
  const HEALTH_PORT := 8081

  function HaproxyId(id: string): (name: string)
    ensures |name| == |id|
  {
    seq(|id|, i requires 0 <= i < |id| => if id[i] == '-' then '_' else id[i])
  }

  datatype Server = Server(name: string, address: string, port: int, checkPort: Option<int>)

  /** The request of an `option httpchk` line. */
  datatype HealthCheck = HealthCheck(verb: string, path: string)

  datatype HostRule = HostRule(acl: string, domain: string, backend: string)

  datatype Frontend = Frontend(name: string, bind: int, defaultBackend: Option<string>)

  datatype Backend = Backend(name: string, check: Option<HealthCheck>, servers: seq<Server>)

  /** The host rules belong to the frontend `http_front`. */
  datatype HaproxyFile = HaproxyFile(rules: seq<HostRule>, frontends: seq<Frontend>, backends: seq<Backend>)

  // What is generated for one service

  predicate Numbered(nodes: seq<NodeInfo>) {
    forall i :: 0 <= i < |nodes| ==> nodes[i].nodeId >= 0
  }

  function Servers(nodes: seq<NodeInfo>, port: int, checkPort: Option<int>): (servers: seq<Server>)
    requires Numbered(nodes)
    ensures |servers| == |nodes|
  {
    seq(|nodes|, i requires 0 <= i < |nodes| =>
      Server("node_" + Decimal(nodes[i].nodeId), WireguardIp(nodes[i].nodeId), port, checkPort))
  }

  function RulesOf(id: string, service: Service): seq<HostRule> {
    if service.Web? then [HostRule("host_" + HaproxyId(id), service.domain, "web_" + HaproxyId(id))] else []
  }

  function FrontendsOf(id: string, service: Service): seq<Frontend> {
    if service.Web? then [] else
    var name := "patroni_" + HaproxyId(id);
    [Frontend(name + "_rw_front", service.readWritePort, Some(name + "_rw")),
     Frontend(name + "_ro_front", service.readOnlyPort, Some(name + "_ro"))]
  }

  function BackendsOf(id: string, service: Service, nodes: seq<NodeInfo>): seq<Backend>
    requires Numbered(nodes)
  {
    match service
    case Web(_, _, _, _, exposedPort, _, healthPath) =>
      var check := if healthPath.Some? then Some(HealthCheck("GET", healthPath.value)) else None;
      [Backend("web_" + HaproxyId(id), check, Servers(nodes, exposedPort, None))]
    case Patroni(_, _, postgresPort, _, _, restPort) =>
      var name := "patroni_" + HaproxyId(id);
      var servers := Servers(nodes, postgresPort, Some(restPort));
      [Backend(name + "_rw", Some(HealthCheck("OPTIONS", "/primary")), servers),
       Backend(name + "_ro", Some(HealthCheck("OPTIONS", "/read-only")), servers)]
  }

  // The file

  function AllRules(services: Registry, ids: seq<string>): seq<HostRule>
    requires forall id :: id in ids ==> id in services
  {
    if ids == [] then []
    else AllRules(services, ids[..|ids| - 1]) + RulesOf(ids[|ids| - 1], services[ids[|ids| - 1]])
  }

  function AllFrontends(services: Registry, ids: seq<string>): seq<Frontend>
    requires forall id :: id in ids ==> id in services
  {
    if ids == [] then []
    else AllFrontends(services, ids[..|ids| - 1]) + FrontendsOf(ids[|ids| - 1], services[ids[|ids| - 1]])
  }

  function AllBackends(services: Registry, ids: seq<string>, nodes: seq<NodeInfo>): seq<Backend>
    requires Numbered(nodes) && forall id :: id in ids ==> id in services
  {
    if ids == [] then []
    else AllBackends(services, ids[..|ids| - 1], nodes) + BackendsOf(ids[|ids| - 1], services[ids[|ids| - 1]], nodes)
  }

  function SortedServices(services: Registry): (ids: seq<string>)
    ensures ListsInOrder(ids, services.Keys)
  {
    SortedKeysInOrder(services.Keys);
    SortedKeys(services.Keys)
  }

  function FileOf(nodes: seq<NodeInfo>, services: Registry): HaproxyFile
    requires Numbered(nodes)
  {
    var ids := SortedServices(services);
    HaproxyFile(AllRules(services, ids),
                [Frontend("http_front", HTTP_PORT, Some("not_found"))] + AllFrontends(services, ids) +
                [Frontend("stats", STATS_PORT, None), Frontend("health", HEALTH_PORT, None)],
                AllBackends(services, ids, nodes) + [Backend("not_found", None, [])])
  }

  /** What the next service adds. */
  lemma NextService(services: Registry, nodes: seq<NodeInfo>, ids: seq<string>, i: nat)
    requires Numbered(nodes) && i < |ids| && forall id :: id in ids ==> id in services
    ensures AllRules(services, ids[..i + 1]) == AllRules(services, ids[..i]) + RulesOf(ids[i], services[ids[i]])
    ensures AllFrontends(services, ids[..i + 1]) == AllFrontends(services, ids[..i]) + FrontendsOf(ids[i], services[ids[i]])
    ensures AllBackends(services, ids[..i + 1], nodes) ==
            AllBackends(services, ids[..i], nodes) + BackendsOf(ids[i], services[ids[i]], nodes)
  {
    hide RulesOf, FrontendsOf, BackendsOf;
    assert ids[..i + 1][..i] == ids[..i];
  }

  lemma NoService(services: Registry, nodes: seq<NodeInfo>)
    requires Numbered(nodes)
    ensures AllRules(services, []) == [] && AllFrontends(services, []) == [] && AllBackends(services, [], nodes) == []
  {
  }

  method GenerateWebHostRules(services: Registry) returns (rules: seq<HostRule>)
    ensures rules == AllRules(services, SortedServices(services))
  {
    hide HaproxyId, SortedServices, AtMost, AllRules;
    rules := [];
    var ids := SortedServices(services);
    NoService(services, []);
    for i := 0 to |ids|
      invariant rules == AllRules(services, ids[..i])
    {
      var service := services[ids[i]];
      NextService(services, [], ids, i);
      if !service.Web? {
        continue;
      }
      var haproxyName := HaproxyId(ids[i]);
      rules := rules + [HostRule("host_" + haproxyName, service.domain, "web_" + haproxyName)];
    }
    assert ids[..|ids|] == ids;
  }

  method GenerateServiceProxySections(nodes: seq<NodeInfo>, services: Registry)
    returns (frontends: seq<Frontend>, backends: seq<Backend>)
    requires Numbered(nodes)
    ensures frontends == AllFrontends(services, SortedServices(services))
    ensures backends == AllBackends(services, SortedServices(services), nodes)
  {
    hide HaproxyId, SortedServices, AtMost, Servers, AllFrontends, AllBackends;
    frontends, backends := [], [];
    var ids := SortedServices(services);
    NoService(services, nodes);
    for i := 0 to |ids|
      invariant frontends == AllFrontends(services, ids[..i])
      invariant backends == AllBackends(services, ids[..i], nodes)
    {
      var service, name := services[ids[i]], HaproxyId(ids[i]);
      NextService(services, nodes, ids, i);
      if service.Web? {
        var check := if service.healthPath.Some? then Some(HealthCheck("GET", service.healthPath.value)) else None;
        backends := backends + [Backend("web_" + name, check, Servers(nodes, service.exposedPort, None))];
      } else {
        var servers := Servers(nodes, service.postgresPort, Some(service.restPort));
        frontends := frontends +
          [Frontend("patroni_" + name + "_rw_front", service.readWritePort, Some("patroni_" + name + "_rw")),
           Frontend("patroni_" + name + "_ro_front", service.readOnlyPort, Some("patroni_" + name + "_ro"))];
        backends := backends +
          [Backend("patroni_" + name + "_rw", Some(HealthCheck("OPTIONS", "/primary")), servers),
           Backend("patroni_" + name + "_ro", Some(HealthCheck("OPTIONS", "/read-only")), servers)];
      }
    }
    assert ids[..|ids|] == ids;
  }

  // Names

  datatype Name =
    | HttpFront
    | StatsFront
    | HealthFront
    | NotFound
    | RwFront(id: string)
    | RoFront(id: string)
    | RwBackend(id: string)
    | RoBackend(id: string)
    | WebBackend(id: string)
    | HostAcl(id: string)

  function Text(name: Name): string {
    match name
    case HttpFront => "http_front"
    case StatsFront => "stats"
    case HealthFront => "health"
    case NotFound => "not_found"
    case RwFront(id) => "patroni_" + HaproxyId(id) + "_rw_front"
    case RoFront(id) => "patroni_" + HaproxyId(id) + "_ro_front"
    case RwBackend(id) => "patroni_" + HaproxyId(id) + "_rw"
    case RoBackend(id) => "patroni_" + HaproxyId(id) + "_ro"
    case WebBackend(id) => "web_" + HaproxyId(id)
    case HostAcl(id) => "host_" + HaproxyId(id)
  }

  function IdOf(name: Name): Option<string> {
    match name
    case HttpFront | StatsFront | HealthFront | NotFound => None
    case RwFront(id) => Some(id)
    case RoFront(id) => Some(id)
    case RwBackend(id) => Some(id)
    case RoBackend(id) => Some(id)
    case WebBackend(id) => Some(id)
    case HostAcl(id) => Some(id)
  }

  predicate ValidName(name: Name) {
    IdOf(name).Some? ==> IsServiceId(IdOf(name).value)
  }

  /** A name consists of letters, digits and underscores, the underscores in place of the hyphens of the id. */
  lemma HaproxyIdMeans(id: string)
    requires IsServiceId(id)
    ensures var name := HaproxyId(id);
            |name| == |id| && forall i :: 0 <= i < |id| ==>
              (IsLowerOrDigit(name[i]) && name[i] == id[i]) || (name[i] == '_' && id[i] == '-')
  {
  }

  /** Replacing hyphens by underscores loses nothing, as a service id has no underscore. */
  lemma HaproxyIdInjective(a: string, b: string)
    requires IsServiceId(a) && IsServiceId(b) && HaproxyId(a) == HaproxyId(b)
    ensures a == b
  {
    forall i | 0 <= i < |a| ensures a[i] == b[i] {
      assert HaproxyId(a)[i] == HaproxyId(b)[i];
    }
  }

  lemma SameMiddle(head: string, a: string, b: string, tail: string)
    requires head + a + tail == head + b + tail
    ensures a == b
  {
    var text := head + a + tail;
    assert |a| == |b|;
    assert a == text[|head|..|head| + |a|] == b;
  }

  function Kind(name: Name): nat {
    match name
    case HttpFront => 0
    case StatsFront => 1
    case HealthFront => 2
    case NotFound => 3
    case RwFront(_) => 4
    case RoFront(_) => 5
    case RwBackend(_) => 6
    case RoBackend(_) => 7
    case WebBackend(_) => 8
    case HostAcl(_) => 9
  }

  /** The kind of a name can be read off its text. */
  function KindOfText(text: string): nat
    requires |text| >= 2
  {
    var first, second, last := text[0], text[1], text[|text| - 1];
    if first == 'h' then (if second == 't' then 0 else if second == 'e' then 2 else 9)
    else if first == 's' then 1
    else if first == 'n' then 3
    else if first == 'w' then 8
    else if last == 't' && |text| >= 7 then (if text[|text| - 7] == 'w' then 4 else 5)
    else if last == 'w' then 6
    else 7
  }

  lemma KindRecovered(name: Name)
    ensures |Text(name)| >= 2 && KindOfText(Text(name)) == Kind(name)
  {
  }

  /** No two names of the file read alike. */
  lemma TextInjective(a: Name, b: Name)
    requires ValidName(a) && ValidName(b) && Text(a) == Text(b)
    ensures a == b
  {
    KindRecovered(a);
    KindRecovered(b);
    assert Kind(a) == Kind(b);
    hide HaproxyId, IsServiceId;
    match a
    case HttpFront | StatsFront | HealthFront | NotFound =>
    case RwFront(id) => SameMiddle("patroni_", HaproxyId(id), HaproxyId(b.id), "_rw_front"); HaproxyIdInjective(id, b.id);
    case RoFront(id) => SameMiddle("patroni_", HaproxyId(id), HaproxyId(b.id), "_ro_front"); HaproxyIdInjective(id, b.id);
    case RwBackend(id) => SameMiddle("patroni_", HaproxyId(id), HaproxyId(b.id), "_rw"); HaproxyIdInjective(id, b.id);
    case RoBackend(id) => SameMiddle("patroni_", HaproxyId(id), HaproxyId(b.id), "_ro"); HaproxyIdInjective(id, b.id);
    case WebBackend(id) => SameMiddle("web_", HaproxyId(id), HaproxyId(b.id), ""); HaproxyIdInjective(id, b.id);
    case HostAcl(id) => SameMiddle("host_", HaproxyId(id), HaproxyId(b.id), ""); HaproxyIdInjective(id, b.id);
  }

  // No name is used twice

  ghost predicate Distinct<T>(items: seq<T>) {
    forall i, j :: 0 <= i < j < |items| ==> items[i] != items[j]
  }

  lemma DistinctConcat<T>(a: seq<T>, b: seq<T>)
    requires Distinct(a) && Distinct(b) && forall x :: x in a ==> x !in b
    ensures Distinct(a + b)
  {
    forall i, j | 0 <= i < j < |a + b| ensures (a + b)[i] != (a + b)[j] {
      if i < |a| <= j {
        assert a[i] in a && b[j - |a|] in b;
      }
    }
  }

  datatype Part = Rules | Frontends | Backends

  /** The names that one service brings into a part of the file. */
  function NamesOf(id: string, service: Service, part: Part): seq<Name> {
    match part
    case Rules => if service.Web? then [HostAcl(id)] else []
    case Frontends => if service.Web? then [] else [RwFront(id), RoFront(id)]
    case Backends => if service.Web? then [WebBackend(id)] else [RwBackend(id), RoBackend(id)]
  }

  function AllNames(services: Registry, ids: seq<string>, part: Part): seq<Name>
    requires forall id :: id in ids ==> id in services
  {
    if ids == [] then []
    else AllNames(services, ids[..|ids| - 1], part) + NamesOf(ids[|ids| - 1], services[ids[|ids| - 1]], part)
  }

  predicate BelongsTo(name: Name, part: Part) {
    match part
    case Rules => name.HostAcl?
    case Frontends => name.RwFront? || name.RoFront?
    case Backends => name.WebBackend? || name.RwBackend? || name.RoBackend?
  }

  ghost predicate NamesOnly(names: seq<Name>, ids: seq<string>, part: Part) {
    forall name :: name in names ==> BelongsTo(name, part) && IdOf(name).Some? && IdOf(name).value in ids
  }

  lemma {:induction false} AllNamesDistinct(services: Registry, ids: seq<string>, part: Part)
    requires Distinct(ids) && forall id :: id in ids ==> id in services
    ensures Distinct(AllNames(services, ids, part)) && NamesOnly(AllNames(services, ids, part), ids, part)
  {
    if ids != [] {
      var front, last := ids[..|ids| - 1], ids[|ids| - 1];
      AllNamesDistinct(services, front, part);
      assert last !in front;
      DistinctConcat(AllNames(services, front, part), NamesOf(last, services[last], part));
    }
  }

  function Mapped<T, U>(f: T -> U, items: seq<T>): (images: seq<U>)
    ensures |images| == |items|
  {
    seq(|items|, i requires 0 <= i < |items| => f(items[i]))
  }

  lemma MappedConcat<T, U>(f: T -> U, a: seq<T>, b: seq<T>)
    ensures Mapped(f, a + b) == Mapped(f, a) + Mapped(f, b)
  {
  }

  function AclName(rule: HostRule): string { rule.acl }

  function FrontendName(frontend: Frontend): string { frontend.name }

  function BackendName(backend: Backend): string { backend.name }

  /** Every ACL, frontend and backend name of the file. */
  function NameTexts(file: HaproxyFile): seq<string> {
    Mapped(AclName, file.rules) + Mapped(FrontendName, file.frontends) + Mapped(BackendName, file.backends)
  }

  lemma {:induction false} NamesAreTexts(services: Registry, ids: seq<string>, nodes: seq<NodeInfo>)
    requires Numbered(nodes) && forall id :: id in ids ==> id in services
    ensures Mapped(AclName, AllRules(services, ids)) == Mapped(Text, AllNames(services, ids, Rules))
    ensures Mapped(FrontendName, AllFrontends(services, ids)) == Mapped(Text, AllNames(services, ids, Frontends))
    ensures Mapped(BackendName, AllBackends(services, ids, nodes)) == Mapped(Text, AllNames(services, ids, Backends))
  {
    hide HaproxyId, Servers, Mapped, RulesOf, FrontendsOf, BackendsOf, NamesOf, Text;
    if ids == [] {
    } else {
      var front, last := ids[..|ids| - 1], ids[|ids| - 1];
      NamesAreTexts(services, front, nodes);
      NamesOfOne(last, services[last], nodes);
      MappedConcat(AclName, AllRules(services, front), RulesOf(last, services[last]));
      MappedConcat(FrontendName, AllFrontends(services, front), FrontendsOf(last, services[last]));
      MappedConcat(BackendName, AllBackends(services, front, nodes), BackendsOf(last, services[last], nodes));
      MappedConcat(Text, AllNames(services, front, Rules), NamesOf(last, services[last], Rules));
      MappedConcat(Text, AllNames(services, front, Frontends), NamesOf(last, services[last], Frontends));
      MappedConcat(Text, AllNames(services, front, Backends), NamesOf(last, services[last], Backends));
    }
  }

  lemma MappedOne<T, U>(f: T -> U, x: T)
    ensures Mapped(f, [x]) == [f(x)]
  {
  }

  lemma MappedTwo<T, U>(f: T -> U, x: T, y: T)
    ensures Mapped(f, [x, y]) == [f(x), f(y)]
  {
  }

  lemma NamesOfOne(id: string, service: Service, nodes: seq<NodeInfo>)
    requires Numbered(nodes)
    ensures Mapped(AclName, RulesOf(id, service)) == Mapped(Text, NamesOf(id, service, Rules))
    ensures Mapped(FrontendName, FrontendsOf(id, service)) == Mapped(Text, NamesOf(id, service, Frontends))
    ensures Mapped(BackendName, BackendsOf(id, service, nodes)) == Mapped(Text, NamesOf(id, service, Backends))
  {
    hide HaproxyId, Servers, Mapped;
    var rules, fronts, backs := RulesOf(id, service), FrontendsOf(id, service), BackendsOf(id, service, nodes);
    if service.Web? {
      MappedOne(AclName, rules[0]);
      MappedOne(Text, HostAcl(id));
      MappedOne(BackendName, backs[0]);
      MappedOne(Text, WebBackend(id));
    } else {
      MappedTwo(FrontendName, fronts[0], fronts[1]);
      MappedTwo(Text, RwFront(id), RoFront(id));
      MappedTwo(BackendName, backs[0], backs[1]);
      MappedTwo(Text, RwBackend(id), RoBackend(id));
    }
  }

  function FileNames(services: Registry): seq<Name> {
    var ids := SortedServices(services);
    AllNames(services, ids, Rules) +
    ([HttpFront] + AllNames(services, ids, Frontends) + [StatsFront, HealthFront]) +
    (AllNames(services, ids, Backends) + [NotFound])
  }

  lemma FileNamesDistinct(services: Registry)
    ensures Distinct(FileNames(services))
    ensures forall name :: name in FileNames(services) && IdOf(name).Some? ==> IdOf(name).value in services
  {
    hide SortedServices, AllNames, AtMost;
    var ids := SortedServices(services);
    AllNamesDistinct(services, ids, Rules);
    AllNamesDistinct(services, ids, Frontends);
    AllNamesDistinct(services, ids, Backends);
    var rules, fronts, backs :=
      AllNames(services, ids, Rules), AllNames(services, ids, Frontends), AllNames(services, ids, Backends);
    DistinctConcat([HttpFront], fronts);
    DistinctConcat([HttpFront] + fronts, [StatsFront, HealthFront]);
    DistinctConcat(backs, [NotFound]);
    DistinctConcat(rules, [HttpFront] + fronts + [StatsFront, HealthFront]);
    DistinctConcat(rules + ([HttpFront] + fronts + [StatsFront, HealthFront]), backs + [NotFound]);
  }

  lemma FileTexts(nodes: seq<NodeInfo>, services: Registry)
    requires Numbered(nodes)
    ensures NameTexts(FileOf(nodes, services)) == Mapped(Text, FileNames(services))
  {
    hide SortedServices, AllNames, AllRules, AllFrontends, AllBackends, AtMost, Mapped;
    var ids := SortedServices(services);
    NamesAreTexts(services, ids, nodes);
    var file := FileOf(nodes, services);
    var fronts, backs := AllFrontends(services, ids), AllBackends(services, ids, nodes);
    MappedConcat(FrontendName, [file.frontends[0]] + fronts, file.frontends[|fronts| + 1..]);
    MappedConcat(FrontendName, [file.frontends[0]], fronts);
    MappedOne(FrontendName, file.frontends[0]);
    MappedTwo(FrontendName, file.frontends[|fronts| + 1], file.frontends[|fronts| + 2]);
    MappedConcat(BackendName, backs, [file.backends[|backs|]]);
    MappedOne(BackendName, file.backends[|backs|]);
    FileNamesMapped(services);
  }

  lemma FileNamesMapped(services: Registry)
    ensures var ids := SortedServices(services);
            Mapped(Text, FileNames(services)) ==
            Mapped(Text, AllNames(services, ids, Rules)) +
            (["http_front"] + Mapped(Text, AllNames(services, ids, Frontends)) + ["stats", "health"]) +
            (Mapped(Text, AllNames(services, ids, Backends)) + ["not_found"])
  {
    hide SortedServices, AllNames, AtMost, Mapped;
    var ids := SortedServices(services);
    var rules, fronts, backs :=
      AllNames(services, ids, Rules), AllNames(services, ids, Frontends), AllNames(services, ids, Backends);
    MappedConcat(Text, rules + ([HttpFront] + fronts + [StatsFront, HealthFront]), backs + [NotFound]);
    MappedConcat(Text, rules, [HttpFront] + fronts + [StatsFront, HealthFront]);
    MappedConcat(Text, [HttpFront] + fronts, [StatsFront, HealthFront]);
    MappedConcat(Text, [HttpFront], fronts);
    MappedOne(Text, HttpFront);
    MappedTwo(Text, StatsFront, HealthFront);
    MappedConcat(Text, backs, [NotFound]);
    MappedOne(Text, NotFound);
  }

  /** All frontend, backend and ACL names of the file are distinct. */
  lemma NamesDistinct(nodes: seq<NodeInfo>, services: Registry)
    requires Numbered(nodes) && ServiceIdsWellFormed(services)
    ensures Distinct(NameTexts(FileOf(nodes, services)))
  {
    hide IsServiceId, FileOf, FileNames, Text;
    FileTexts(nodes, services);
    FileNamesDistinct(services);
    var names := FileNames(services);
    forall i, j | 0 <= i < j < |names| ensures Text(names[i]) != Text(names[j]) {
      assert names[i] in names && names[j] in names;
      if Text(names[i]) == Text(names[j]) {
        TextInjective(names[i], names[j]);
      }
    }
  }

  // No port is bound twice

  function BoundPort(frontend: Frontend): int { frontend.bind }

  /** A proxy port of one of the given services. */
  ghost predicate IsProxyPort(services: Registry, ids: seq<string>, port: int) {
    exists id :: id in ids && id in services && services[id].Patroni? &&
                 (port == services[id].readWritePort || port == services[id].readOnlyPort)
  }

  lemma ProxyPortsDistinct(services: Registry, a: string, b: string)
    requires PortsDisjoint(services) && a in services && b in services && services[a].Patroni? && services[b].Patroni?
    ensures services[a].readWritePort != services[b].readOnlyPort
    ensures a != b ==> services[a].readWritePort != services[b].readWritePort
    ensures a != b ==> services[a].readOnlyPort != services[b].readOnlyPort
  {
    assert services[a].Ports()[1] == services[a].readWritePort && services[a].Ports()[2] == services[a].readOnlyPort;
    assert services[b].Ports()[1] == services[b].readWritePort && services[b].Ports()[2] == services[b].readOnlyPort;
  }

  lemma {:induction false} ProxyBindsDistinct(services: Registry, ids: seq<string>)
    requires PortsDisjoint(services) && Distinct(ids) && forall id :: id in ids ==> id in services
    ensures Distinct(Mapped(BoundPort, AllFrontends(services, ids)))
    ensures forall port :: port in Mapped(BoundPort, AllFrontends(services, ids)) ==> IsProxyPort(services, ids, port)
  {
    hide PortsDisjoint, HaproxyId;
    if ids != [] {
      var front, last := ids[..|ids| - 1], ids[|ids| - 1];
      ProxyBindsDistinct(services, front);
      ExtendBinds(services, front, last);
      assert ids == front + [last];
    }
  }

  lemma ExtendBinds(services: Registry, front: seq<string>, last: string)
    requires PortsDisjoint(services) && last !in front && last in services && forall id :: id in front ==> id in services
    requires Distinct(Mapped(BoundPort, AllFrontends(services, front)))
    requires forall port :: port in Mapped(BoundPort, AllFrontends(services, front)) ==> IsProxyPort(services, front, port)
    ensures var binds := Mapped(BoundPort, AllFrontends(services, front) + FrontendsOf(last, services[last]));
            Distinct(binds) && forall port :: port in binds ==> IsProxyPort(services, front + [last], port)
  {
    hide PortsDisjoint, HaproxyId, AllFrontends, Mapped;
    var before, own := AllFrontends(services, front), FrontendsOf(last, services[last]);
    MappedConcat(BoundPort, before, own);
    assert last in front + [last];
    if services[last].Patroni? {
      MappedTwo(BoundPort, own[0], own[1]);
      ProxyPortsDistinct(services, last, last);
      forall id | id in front && services[id].Patroni?
        ensures services[id].readWritePort !in [services[last].readWritePort, services[last].readOnlyPort]
        ensures services[id].readOnlyPort !in [services[last].readWritePort, services[last].readOnlyPort]
      {
        ProxyPortsDistinct(services, id, last);
        ProxyPortsDistinct(services, last, id);
      }
      DistinctConcat(Mapped(BoundPort, before), Mapped(BoundPort, own));
    } else {
      assert before + own == before;
    }
  }

  lemma ProxyPortRange(services: Registry, ids: seq<string>, port: int)
    requires PortsPlaced(services) && IsProxyPort(services, ids, port)
    ensures PATRONI_PORT_START <= port <= PATRONI_PORT_END
  {
  }

  /** All bound ports of the file are distinct, the fixed ones included. */
  lemma BindsDistinct(nodes: seq<NodeInfo>, services: Registry)
    requires Numbered(nodes) && RegistryInvariant(services)
    ensures Distinct(Mapped(BoundPort, FileOf(nodes, services).frontends))
  {
    hide SortedServices, AllFrontends, AllBackends, AllRules, AtMost, Mapped, PortsDisjoint, EntriesValid, PortsPlaced,
         IsProxyPort;
    var ids := SortedServices(services);
    ProxyBindsDistinct(services, ids);
    var fronts := AllFrontends(services, ids);
    var file := FileOf(nodes, services);
    MappedConcat(BoundPort, [file.frontends[0]] + fronts, file.frontends[|fronts| + 1..]);
    MappedConcat(BoundPort, [file.frontends[0]], fronts);
    MappedOne(BoundPort, file.frontends[0]);
    MappedTwo(BoundPort, file.frontends[|fronts| + 1], file.frontends[|fronts| + 2]);
    var binds := Mapped(BoundPort, fronts);
    forall port | port in binds ensures PATRONI_PORT_START <= port <= PATRONI_PORT_END {
      ProxyPortRange(services, ids, port);
    }
    DistinctConcat([HTTP_PORT], binds);
    DistinctConcat([HTTP_PORT] + binds, [STATS_PORT, HEALTH_PORT]);
  }

  // Where traffic goes

  ghost predicate OffersFrontend(services: Registry, ids: seq<string>, frontend: Frontend) {
    exists id :: id in ids && id in services && frontend in FrontendsOf(id, services[id])
  }

  lemma {:induction false} FrontendMembers(services: Registry, ids: seq<string>)
    requires forall id :: id in ids ==> id in services
    ensures forall frontend :: frontend in AllFrontends(services, ids) <==> OffersFrontend(services, ids, frontend)
  {
    hide FrontendsOf;
    if ids != [] {
      var front, last := ids[..|ids| - 1], ids[|ids| - 1];
      FrontendMembers(services, front);
      assert ids == front + [last];
    }
  }

  ghost predicate OffersBackend(services: Registry, ids: seq<string>, nodes: seq<NodeInfo>, backend: Backend)
    requires Numbered(nodes)
  {
    exists id :: id in ids && id in services && backend in BackendsOf(id, services[id], nodes)
  }

  lemma {:induction false} BackendMembers(services: Registry, ids: seq<string>, nodes: seq<NodeInfo>)
    requires Numbered(nodes) && forall id :: id in ids ==> id in services
    ensures forall backend :: backend in AllBackends(services, ids, nodes) <==> OffersBackend(services, ids, nodes, backend)
  {
    hide BackendsOf;
    if ids != [] {
      var front, last := ids[..|ids| - 1], ids[|ids| - 1];
      BackendMembers(services, front, nodes);
      assert ids == front + [last];
    }
  }

  /** The backend that a reference by name denotes: there is exactly one, and it is this. */
  ghost predicate Denotes(file: HaproxyFile, name: string, backend: Backend) {
    backend in file.backends && forall other :: other in file.backends && other.name == name ==> other == backend
  }

  /** The frontend that listens on a port: there is exactly one, and it hands over to `name`. */
  ghost predicate ListensFor(file: HaproxyFile, port: int, name: string) {
    && (exists frontend :: frontend in file.frontends && frontend.bind == port)
    && (forall frontend :: frontend in file.frontends && frontend.bind == port ==> frontend.defaultBackend == Some(name))
  }

  lemma SameImageSameItem<T, U>(f: T -> U, items: seq<T>, x: T, y: T)
    requires Distinct(Mapped(f, items)) && x in items && y in items && f(x) == f(y)
    ensures x == y
  {
    var i :| 0 <= i < |items| && items[i] == x;
    var j :| 0 <= j < |items| && items[j] == y;
    assert Mapped(f, items)[i] == Mapped(f, items)[j];
  }

  lemma DistinctSuffix<T>(a: seq<T>, b: seq<T>)
    requires Distinct(a + b)
    ensures Distinct(b)
  {
    forall i, j | 0 <= i < j < |b| ensures b[i] != b[j] {
      assert (a + b)[|a| + i] == b[i] && (a + b)[|a| + j] == b[j];
    }
  }

  lemma BackendOfName(nodes: seq<NodeInfo>, services: Registry, id: string, backend: Backend)
    requires Numbered(nodes) && ServiceIdsWellFormed(services) && id in services
    requires backend in BackendsOf(id, services[id], nodes)
    ensures Denotes(FileOf(nodes, services), backend.name, backend)
  {
    hide AllFrontends, AllBackends, AllRules, AtMost, Mapped, BackendsOf, ServiceIdsWellFormed, Distinct;
    var file, ids := FileOf(nodes, services), SortedServices(services);
    BackendMembers(services, ids, nodes);
    NamesDistinct(nodes, services);
    DistinctSuffix(Mapped(AclName, file.rules) + Mapped(FrontendName, file.frontends), Mapped(BackendName, file.backends));
    forall other | other in file.backends && other.name == backend.name ensures other == backend {
      SameImageSameItem(BackendName, file.backends, other, backend);
    }
  }

  lemma FrontendOfPort(nodes: seq<NodeInfo>, services: Registry, id: string, frontend: Frontend)
    requires Numbered(nodes) && RegistryInvariant(services) && id in services
    requires frontend in FrontendsOf(id, services[id])
    ensures ListensFor(FileOf(nodes, services), frontend.bind, frontend.defaultBackend.value)
  {
    hide AllFrontends, AllBackends, AllRules, AtMost, Mapped, HaproxyId, RegistryInvariant, Distinct;
    var file, ids := FileOf(nodes, services), SortedServices(services);
    FrontendMembers(services, ids);
    BindsDistinct(nodes, services);
    forall other | other in file.frontends && other.bind == frontend.bind ensures other == frontend {
      SameImageSameItem(BoundPort, file.frontends, other, frontend);
    }
  }

  /** The proxy ports of a Patroni service lead to its own Postgres port on every node, the first to the node whose REST
      port answers as primary, the second to those that answer as readable. */
  lemma PatroniTraffic(nodes: seq<NodeInfo>, services: Registry, id: string)
    requires Numbered(nodes) && RegistryInvariant(services) && id in services && services[id].Patroni?
    ensures var file, service := FileOf(nodes, services), services[id];
            var servers := Servers(nodes, service.postgresPort, Some(service.restPort));
            && ListensFor(file, service.readWritePort, Text(RwBackend(id)))
            && Denotes(file, Text(RwBackend(id)), Backend(Text(RwBackend(id)), Some(HealthCheck("OPTIONS", "/primary")), servers))
            && ListensFor(file, service.readOnlyPort, Text(RoBackend(id)))
            && Denotes(file, Text(RoBackend(id)), Backend(Text(RoBackend(id)), Some(HealthCheck("OPTIONS", "/read-only")), servers))
  {
    hide FileOf, HaproxyId, RegistryInvariant, ServiceIdsWellFormed, ListensFor, Denotes, Servers;
    InvariantIds(services);
    var fronts, backs := FrontendsOf(id, services[id]), BackendsOf(id, services[id], nodes);
    FrontendOfPort(nodes, services, id, fronts[0]);
    FrontendOfPort(nodes, services, id, fronts[1]);
    BackendOfName(nodes, services, id, backs[0]);
    BackendOfName(nodes, services, id, backs[1]);
  }

  /** `use_backend` rules are tried in order; `matches` says which domains the host of a request matches. */
  function FirstMatch(rules: seq<HostRule>, matches: string -> bool): Option<string> {
    if rules == [] then None
    else if matches(rules[0].domain) then Some(rules[0].backend)
    else FirstMatch(rules[1..], matches)
  }

  lemma {:induction false} FirstMatchConcat(a: seq<HostRule>, b: seq<HostRule>, matches: string -> bool)
    ensures FirstMatch(a + b, matches) ==
            if FirstMatch(a, matches).Some? then FirstMatch(a, matches) else FirstMatch(b, matches)
  {
    if a == [] {
      assert a + b == b;
    } else {
      assert (a + b)[1..] == a[1..] + b;
      FirstMatchConcat(a[1..], b, matches);
    }
  }

  /** A web service whose domain matches. */
  predicate Serves(services: Registry, id: string, matches: string -> bool)
    requires id in services
  {
    services[id].Web? && matches(services[id].domain)
  }

  /** The rules send a request to the first listed web service whose domain matches. */
  lemma {:induction false} RulesRoute(services: Registry, ids: seq<string>, matches: string -> bool, at: nat)
    requires forall id :: id in ids ==> id in services
    requires at <= |ids|
    requires forall i :: 0 <= i < at ==> !Serves(services, ids[i], matches)
    requires at < |ids| ==> Serves(services, ids[at], matches)
    ensures FirstMatch(AllRules(services, ids), matches) == if at == |ids| then None else Some(Text(WebBackend(ids[at])))
  {
    hide HaproxyId;
    if ids != [] {
      var front, last := ids[..|ids| - 1], ids[|ids| - 1];
      RulesRoute(services, front, matches, if at == |ids| then at - 1 else at);
      FirstMatchConcat(AllRules(services, front), RulesOf(last, services[last]), matches);
    }
  }

  /** A request for a host goes to the web service of the lowest id whose domain matches, at its own port on every node;
      when no domain matches, no rule applies and the default backend answers. */
  lemma WebTraffic(nodes: seq<NodeInfo>, services: Registry, id: string, matches: string -> bool)
    requires Numbered(nodes) && ServiceIdsWellFormed(services)
    requires id in services && Serves(services, id, matches)
    requires forall other :: other in services && Serves(services, other, matches) ==> AtMost(id, other)
    ensures var file, name, healthPath := FileOf(nodes, services), Text(WebBackend(id)), services[id].healthPath;
            var check := if healthPath.Some? then Some(HealthCheck("GET", healthPath.value)) else None;
            && FirstMatch(file.rules, matches) == Some(name)
            && Denotes(file, name, Backend(name, check, Servers(nodes, services[id].exposedPort, None)))
  {
    hide FileOf, HaproxyId, ServiceIdsWellFormed, Denotes, Servers, AtMost, FirstMatch, AllRules;
    var ids := SortedServices(services);
    var at :| 0 <= at < |ids| && ids[at] == id;
    forall i | 0 <= i < at ensures !Serves(services, ids[i], matches) {
      assert ids[i] in ids;
      if Serves(services, ids[i], matches) {
        AtMostAntisymmetric(id, ids[i]);
      }
    }
    RulesRoute(services, ids, matches, at);
    RulesOfFile(nodes, services);
    BackendOfName(nodes, services, id, BackendsOf(id, services[id], nodes)[0]);
  }

  lemma RulesOfFile(nodes: seq<NodeInfo>, services: Registry)
    requires Numbered(nodes)
    ensures FileOf(nodes, services).rules == AllRules(services, SortedServices(services))
  {
  }

  lemma UnknownHost(nodes: seq<NodeInfo>, services: Registry, matches: string -> bool)
    requires Numbered(nodes)
    requires forall id :: id in services ==> !Serves(services, id, matches)
    ensures FirstMatch(FileOf(nodes, services).rules, matches) == None
  {
    hide FileOf, AtMost, Serves, FirstMatch, AllRules;
    var ids := SortedServices(services);
    assert forall i :: 0 <= i < |ids| ==> ids[i] in ids;
    RulesRoute(services, ids, matches, |ids|);
    RulesOfFile(nodes, services);
  }

  /** The web frontend listens on port 80 and answers what no rule applies to from `not_found`, which has no server; the
      statistics and the health page have their own ports. */
  lemma FixedFrontends(nodes: seq<NodeInfo>, services: Registry)
    requires Numbered(nodes) && RegistryInvariant(services)
    ensures var file := FileOf(nodes, services);
            && ListensFor(file, 80, "not_found") && Denotes(file, "not_found", Backend("not_found", None, []))
            && Frontend("stats", 8404, None) in file.frontends && Frontend("health", 8081, None) in file.frontends
  {
    hide AllFrontends, AllBackends, AllRules, AtMost, Mapped, HaproxyId, RegistryInvariant, Distinct, Denotes;
    var file, front := FileOf(nodes, services), Frontend("http_front", 80, Some("not_found"));
    BindsDistinct(nodes, services);
    assert file.frontends[0] == front;
    forall other | other in file.frontends && other.bind == 80 ensures other == front {
      SameImageSameItem(BoundPort, file.frontends, other, front);
    }
    InvariantIds(services);
    NotFoundDenoted(nodes, services);
  }

  // Server lists

  function ServerName(server: Server): string { server.name }

  function ServerAddress(server: Server): string { server.address }

  /** The server line of one node. */
  ghost predicate ServesNode(server: Server, node: NodeInfo, port: int, checkPort: Option<int>) {
    && node.nodeId >= 0
    && server == Server("node_" + Decimal(node.nodeId), WireguardIp(node.nodeId), port, checkPort)
  }

  ghost predicate NodeByNode(servers: seq<Server>, nodes: seq<NodeInfo>, port: int, checkPort: Option<int>) {
    |servers| == |nodes| && forall i :: 0 <= i < |nodes| ==> ServesNode(servers[i], nodes[i], port, checkPort)
  }

  /** A server list has every node exactly once, under its own name and address. */
  lemma ServersListNodesOnce(nodes: seq<NodeInfo>, port: int, checkPort: Option<int>)
    requires Numbered(nodes) && NodesSorted(nodes)
    ensures var servers := Servers(nodes, port, checkPort);
            && NodeByNode(servers, nodes, port, checkPort)
            && Distinct(Mapped(ServerName, servers)) && Distinct(Mapped(ServerAddress, servers))
  {
    hide Decimal;
    var servers := Servers(nodes, port, checkPort);
    forall i, j | 0 <= i < j < |nodes|
      ensures servers[i].name != servers[j].name && servers[i].address != servers[j].address
    {
      if servers[i].name == servers[j].name {
        NumberedDiffer("node_", nodes[i].nodeId, nodes[j].nodeId);
      }
      if servers[i].address == servers[j].address {
        NumberedDiffer("10.0.0.", nodes[i].nodeId, nodes[j].nodeId);
      }
    }
    assert forall i :: 0 <= i < |nodes| ==> Mapped(ServerName, servers)[i] == ServerName(servers[i]);
    assert forall i :: 0 <= i < |nodes| ==> Mapped(ServerAddress, servers)[i] == ServerAddress(servers[i]);
  }

  // Main result

  /** Names and ports are distinct, every reference denotes one backend, and every backend but `not_found` lists every
      node exactly once. */
  ghost predicate FileConsistent(file: HaproxyFile, nodes: seq<NodeInfo>) {
    && Distinct(NameTexts(file))
    && Distinct(Mapped(BoundPort, file.frontends))
    && (forall rule :: rule in file.rules ==> Resolves(file, rule.backend))
    && (forall frontend :: frontend in file.frontends && frontend.defaultBackend.Some? ==>
          Resolves(file, frontend.defaultBackend.value))
    && (forall backend :: backend in file.backends ==>
          backend.name == "not_found" || ListsEveryNodeOnce(backend.servers, nodes))
  }

  ghost predicate Resolves(file: HaproxyFile, name: string) {
    exists backend :: Denotes(file, name, backend) && backend.name == name
  }

  ghost predicate ListsEveryNodeOnce(servers: seq<Server>, nodes: seq<NodeInfo>) {
    && Distinct(Mapped(ServerName, servers)) && Distinct(Mapped(ServerAddress, servers))
    && exists port, checkPort :: NodeByNode(servers, nodes, port, checkPort)
  }

  ghost predicate OffersRule(services: Registry, ids: seq<string>, rule: HostRule) {
    exists id :: id in ids && id in services && rule in RulesOf(id, services[id])
  }

  lemma {:induction false} RuleMembers(services: Registry, ids: seq<string>)
    requires forall id :: id in ids ==> id in services
    ensures forall rule :: rule in AllRules(services, ids) ==> OffersRule(services, ids, rule)
  {
    hide RulesOf;
    if ids != [] {
      var front, last := ids[..|ids| - 1], ids[|ids| - 1];
      RuleMembers(services, front);
      assert ids == front + [last];
    }
  }

  lemma NotFoundDenoted(nodes: seq<NodeInfo>, services: Registry)
    requires Numbered(nodes) && ServiceIdsWellFormed(services)
    ensures Denotes(FileOf(nodes, services), "not_found", Backend("not_found", None, []))
  {
    hide AllFrontends, AllBackends, AllRules, AtMost, Mapped, ServiceIdsWellFormed, Distinct, SortedServices;
    var file, backend := FileOf(nodes, services), Backend("not_found", None, []);
    assert file.backends[|file.backends| - 1] == backend;
    NamesDistinct(nodes, services);
    DistinctSuffix(Mapped(AclName, file.rules) + Mapped(FrontendName, file.frontends), Mapped(BackendName, file.backends));
    forall other | other in file.backends && other.name == "not_found" ensures other == backend {
      SameImageSameItem(BackendName, file.backends, other, backend);
    }
  }

  lemma RulesResolve(nodes: seq<NodeInfo>, services: Registry, rule: HostRule)
    requires Numbered(nodes) && ServiceIdsWellFormed(services) && rule in FileOf(nodes, services).rules
    ensures Resolves(FileOf(nodes, services), rule.backend)
  {
    hide FileOf, AtMost, AllRules, HaproxyId, ServiceIdsWellFormed, Denotes, Servers;
    var ids := SortedServices(services);
    RulesOfFile(nodes, services);
    RuleMembers(services, ids);
    var id :| id in ids && id in services && rule in RulesOf(id, services[id]);
    BackendOfName(nodes, services, id, BackendsOf(id, services[id], nodes)[0]);
  }

  lemma FrontendsResolve(nodes: seq<NodeInfo>, services: Registry, frontend: Frontend)
    requires Numbered(nodes) && ServiceIdsWellFormed(services)
    requires frontend in FileOf(nodes, services).frontends && frontend.defaultBackend.Some?
    ensures Resolves(FileOf(nodes, services), frontend.defaultBackend.value)
  {
    hide AtMost, AllRules, AllFrontends, AllBackends, HaproxyId, ServiceIdsWellFormed, Denotes, Servers;
    var ids := SortedServices(services);
    FrontendMembers(services, ids);
    if frontend in AllFrontends(services, ids) {
      var id :| id in ids && id in services && frontend in FrontendsOf(id, services[id]);
      var backends := BackendsOf(id, services[id], nodes);
      BackendOfName(nodes, services, id, backends[0]);
      BackendOfName(nodes, services, id, backends[1]);
    } else {
      NotFoundDenoted(nodes, services);
    }
  }

  lemma BackendsListNodes(nodes: seq<NodeInfo>, services: Registry, backend: Backend)
    requires Numbered(nodes) && NodesSorted(nodes) && backend in FileOf(nodes, services).backends
    ensures backend.name == "not_found" || ListsEveryNodeOnce(backend.servers, nodes)
  {
    hide AtMost, AllRules, AllFrontends, AllBackends, HaproxyId, Servers, NodesSorted, NodeByNode, Distinct, Mapped;
    var ids := SortedServices(services);
    BackendMembers(services, ids, nodes);
    if backend in AllBackends(services, ids, nodes) {
      var id :| id in ids && id in services && backend in BackendsOf(id, services[id], nodes);
      match services[id]
      case Web(_, _, _, _, exposedPort, _, _) =>
        ServersListNodesOnce(nodes, exposedPort, None);
      case Patroni(_, _, postgresPort, _, _, restPort) =>
        ServersListNodesOnce(nodes, postgresPort, Some(restPort));
    }
  }

  lemma NodesAreNumbered(nodes: seq<NodeInfo>)
    requires NodesValid(nodes)
    ensures Numbered(nodes)
  {
    forall i | 0 <= i < |nodes| ensures nodes[i].nodeId >= 0 {
      assert nodes[i] in nodes && NodeAccepts(nodes[i]);
    }
  }

  /** In every reachable state of the coordinator the generated file is consistent. */
  lemma ReachableFileConsistent(system: System)
    requires Reachable(system)
    ensures Numbered(system.cluster.nodes)
    ensures FileConsistent(FileOf(system.cluster.nodes, system.cluster.services), system.cluster.nodes)
  {
    hide Reachable, NodeAccepts, RegistryInvariant, ServiceIdsWellFormed, FileOf, NodesSorted, NodesDistinct, Resolves,
         ListsEveryNodeOnce, NameTexts, Mapped, Distinct, Registered, InfoAccepts, JoinInvariant;
    ReachableInvariant(system);
    var nodes, services := system.cluster.nodes, system.cluster.services;
    NodesAreNumbered(nodes);
    InvariantIds(services);
    NamesDistinct(nodes, services);
    BindsDistinct(nodes, services);
    var file := FileOf(nodes, services);
    forall rule | rule in file.rules ensures Resolves(file, rule.backend) {
      RulesResolve(nodes, services, rule);
    }
    forall frontend | frontend in file.frontends && frontend.defaultBackend.Some?
      ensures Resolves(file, frontend.defaultBackend.value)
    {
      FrontendsResolve(nodes, services, frontend);
    }
    forall backend | backend in file.backends
      ensures backend.name == "not_found" || ListsEveryNodeOnce(backend.servers, nodes)
    {
      BackendsListNodes(nodes, services, backend);
    }
  }
}
