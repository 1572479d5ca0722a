/** The service registry of src/cluster/config.ts: what deploying and removing a service does to the ports. */
module Registries {
  import opened Wrappers
  import opened Constants
  import opened Models
  import opened PortAllocation

  // Operations

  function Existing(services: Registry, id: string): Option<Service> {
    if id in services then Some(services[id]) else None
  }

  /** The ports of every service but `excludedId`. */
  function PortsInUse(services: Registry, excludedId: string): set<int> {
    set id, port | id in services && id != excludedId && port in services[id].Ports() :: port
  }

  /** The four chained allocations of a Patroni service; `None` when one of them finds no port. */
  function PlanPatroniPorts(used: set<int>, previous: Option<Service>): (plan: Option<(int, int, int, int)>)
    requires previous.Some? ==> previous.value.Patroni?
  {
    var postgres := Allocate(used, PATRONI_POSTGRES_PORT_START, LAST_PORT,
                             if previous.Some? then Some(previous.value.postgresPort) else None);
    if postgres.None? then None else
    var used1 := used + {postgres.value};
    var readWrite := Allocate(used1, PATRONI_PORT_START, PATRONI_PORT_END,
                              if previous.Some? then Some(previous.value.readWritePort) else None);
    if readWrite.None? then None else
    var used2 := used1 + {readWrite.value};
    var readOnly := Allocate(used2, PATRONI_PORT_START, PATRONI_PORT_END,
                             if previous.Some? then Some(previous.value.readOnlyPort) else None);
    if readOnly.None? then None else
    var rest := Allocate(used2 + {readOnly.value}, PATRONI_REST_PORT_START, LAST_PORT,
                         if previous.Some? then Some(previous.value.restPort) else None);
    if rest.None? then None else
    Some((postgres.value, readWrite.value, readOnly.value, rest.value))
  }

  /** The service that a Patroni deployment stores under `id`, or the error it throws. */
  function NewPatroni(services: Registry, id: string, syncMode: SyncMode): Result<Service, ConfigError> {
    if id in services && !services[id].Patroni? then Err(ServiceIdConflict) else
    match PlanPatroniPorts(PortsInUse(services, id), Existing(services, id))
    case None => Err(ServicePortAllocation)
    case Some((postgres, readWrite, readOnly, rest)) =>
      var service := Patroni(id, syncMode, postgres, readWrite, readOnly, rest);
      if SchemaAccepts(service) then Ok(service) else Err(ClusterConfigInvalid)
  }

  /** The parts of a web deployment that do not depend on the registry. */
  datatype WebSpec = WebSpec(image: string, domain: string, internalPort: int, env: map<string, string>, healthPath: string)

  predicate SpecTrimmed(spec: WebSpec) {
    IsTrimmed(spec.image) && IsTrimmed(spec.domain) && IsTrimmed(spec.healthPath)
  }

  function WebServiceOf(id: string, spec: WebSpec, exposedPort: int): Service {
    Web(id, spec.image, spec.domain, spec.internalPort, exposedPort, spec.env,
        if spec.healthPath == "" then None else Some(spec.healthPath))
  }

  /** The service that a web deployment stores under `id`, or the error it throws. */
  function NewWeb(services: Registry, id: string, spec: WebSpec): Result<Service, ConfigError> {
    if id in services && !services[id].Web? then Err(ServiceIdConflict) else
    var previous := if id in services then Some(services[id].exposedPort) else None;
    match Allocate(PortsInUse(services, id), WEB_EXPOSED_PORT_START, LAST_PORT, previous)
    case None => Err(ServicePortAllocation)
    case Some(port) =>
      var service := WebServiceOf(id, spec, port);
      if SchemaAccepts(service) then Ok(service) else Err(ClusterConfigInvalid)
  }

  // What is stored

  /** Another service holds the port. */
  ghost predicate Taken(services: Registry, id: string, port: int) {
    exists other :: other in services && other != id && port in services[other].Ports()
  }

  /** The port that a deployment of `id` gets from a range: the requested one when it is in the range and free, else the lowest
      free one; `own` are the ports that this deployment got before. */
  ghost predicate Granted(services: Registry, id: string, own: set<int>, start: int, end: int, requested: Option<int>, port: int) {
    && start <= port <= end && port !in own && !Taken(services, id, port)
    && (requested.Some? && start <= requested.value <= end && requested.value !in own && !Taken(services, id, requested.value) ==>
          port == requested.value)
    && (Some(port) != requested ==> forall lower :: start <= lower < port ==> lower in own || Taken(services, id, lower))
  }

  lemma TakenIsUsed(services: Registry, id: string)
    ensures forall port :: port in PortsInUse(services, id) <==> Taken(services, id, port)
  {
  }

  /** Settings that the schema of a web service accepts. */
  ghost predicate WebSettingsValid(id: string, spec: WebSpec) {
    && IsServiceId(Trim(id)) && NotBlank(spec.image) && NotBlank(spec.domain) && 1 <= spec.internalPort <= 65535
    && (forall key :: key in spec.env ==> IsEnvKey(key))
    && (spec.healthPath != "" ==> IsHealthPath(Trim(spec.healthPath)))
  }

  /** A web deployment: the first reason to refuse it, or a service with exactly the given settings. */
  lemma NewWebMeans(services: Registry, id: string, spec: WebSpec)
    ensures var planned := NewWeb(services, id, spec);
            if id in services && services[id].Patroni? then planned == Err(ServiceIdConflict)
            else if forall port :: 15000 <= port <= 65535 ==> Taken(services, id, port) then planned == Err(ServicePortAllocation)
            else if !WebSettingsValid(id, spec) then planned == Err(ClusterConfigInvalid)
            else
              && planned.Ok? && planned.value.Web? && planned.value.serviceId == id
              && planned.value.image == spec.image && planned.value.domain == spec.domain
              && planned.value.internalPort == spec.internalPort && planned.value.env == spec.env
              && planned.value.healthPath == (if spec.healthPath == "" then None else Some(spec.healthPath))
              && Granted(services, id, {}, 15000, 65535, if id in services then Some(services[id].exposedPort) else None,
                         planned.value.exposedPort)
  {
    hide PortsInUse, Taken, IsServiceId, Trim, IsHealthPath, IsEnvKey, NotBlank;
    TakenIsUsed(services, id);
  }

  /** Every port of the range is held by another service or is one of `own`. */
  ghost predicate Exhausted(services: Registry, id: string, own: set<int>, start: int, end: int) {
    forall port :: start <= port <= end ==> port in own || Taken(services, id, port)
  }

  /** The four ports of a Patroni service, allocated in this order, each different from those before. */
  ghost predicate PortsGranted(services: Registry, id: string, previous: Option<Service>, postgres: int, readWrite: int,
                               readOnly: int, rest: int)
    requires previous.Some? ==> previous.value.Patroni?
  {
    && Granted(services, id, {}, 7481, 65535, if previous.Some? then Some(previous.value.postgresPort) else None, postgres)
    && Granted(services, id, {postgres}, 5432, 7480,
               if previous.Some? then Some(previous.value.readWritePort) else None, readWrite)
    && Granted(services, id, {postgres, readWrite}, 5432, 7480,
               if previous.Some? then Some(previous.value.readOnlyPort) else None, readOnly)
    && Granted(services, id, {postgres, readWrite, readOnly}, 8008, 65535,
               if previous.Some? then Some(previous.value.restPort) else None, rest)
  }

  /** One of the ranges has no port left, but for the ones that this deployment got before. */
  ghost predicate OutOfPorts(services: Registry, id: string) {
    exists own: set<int> :: |own| <= 3 &&
      (Exhausted(services, id, own, 7481, 65535) || Exhausted(services, id, own, 5432, 7480) ||
       Exhausted(services, id, own, 8008, 65535))
  }

  lemma OutOfPortsBy(services: Registry, id: string, own: set<int>)
    requires |own| <= 3
    ensures Exhausted(services, id, own, 7481, 65535) ==> OutOfPorts(services, id)
    ensures Exhausted(services, id, own, 5432, 7480) ==> OutOfPorts(services, id)
    ensures Exhausted(services, id, own, 8008, 65535) ==> OutOfPorts(services, id)
  {
    hide Exhausted;
  }

  lemma GrantedPort(services: Registry, id: string, own: set<int>, used: set<int>, start: int, end: int, requested: Option<int>)
    requires used == PortsInUse(services, id) + own
    ensures var port := Allocate(used, start, end, requested);
            && (port.Some? ==> Granted(services, id, own, start, end, requested, port.value))
            && (port.None? ==> Exhausted(services, id, own, start, end))
  {
    hide PortsInUse, Taken;
    TakenIsUsed(services, id);
    AllocateMeans(used, start, end, requested);
    assert forall port :: port in used <==> port in own || Taken(services, id, port);
  }

  lemma PlanMeans(services: Registry, id: string, previous: Option<Service>)
    requires previous.Some? ==> previous.value.Patroni?
    ensures match PlanPatroniPorts(PortsInUse(services, id), previous)
            case None => OutOfPorts(services, id)
            case Some((postgres, readWrite, readOnly, rest)) =>
              PortsGranted(services, id, previous, postgres, readWrite, readOnly, rest)
  {
    hide PortsInUse, Allocate, Exhausted, Granted, OutOfPorts;
    var used := PortsInUse(services, id);
    OutOfPortsBy(services, id, {});
    var wanted := if previous.Some? then Some(previous.value.postgresPort) else None;
    GrantedPort(services, id, {}, used, 7481, 65535, wanted);
    var postgres := Allocate(used, 7481, 65535, wanted);
    if postgres.Some? {
      PlanRestMeans(services, id, previous, postgres.value);
    }
  }

  lemma PlanRestMeans(services: Registry, id: string, previous: Option<Service>, postgres: int)
    requires previous.Some? ==> previous.value.Patroni?
    requires Allocate(PortsInUse(services, id), 7481, 65535,
                      if previous.Some? then Some(previous.value.postgresPort) else None) == Some(postgres)
    requires Granted(services, id, {}, 7481, 65535,
                     if previous.Some? then Some(previous.value.postgresPort) else None, postgres)
    ensures match PlanPatroniPorts(PortsInUse(services, id), previous)
            case None => OutOfPorts(services, id)
            case Some((first, readWrite, readOnly, rest)) =>
              PortsGranted(services, id, previous, first, readWrite, readOnly, rest)
  {
    hide PortsInUse, Allocate, Exhausted, Granted, OutOfPorts;
    var used1 := PortsInUse(services, id) + {postgres};
    var wanted := if previous.Some? then Some(previous.value.readWritePort) else None;
    GrantedPort(services, id, {postgres}, used1, 5432, 7480, wanted);
    var readWrite := Allocate(used1, 5432, 7480, wanted);
    OutOfPortsBy(services, id, {postgres});
    if readWrite.Some? {
      var used2, own := used1 + {readWrite.value}, {postgres, readWrite.value};
      wanted := if previous.Some? then Some(previous.value.readOnlyPort) else None;
      OutOfPortsBy(services, id, own);
      GrantedPort(services, id, own, used2, 5432, 7480, wanted);
      var readOnly := Allocate(used2, 5432, 7480, wanted);
      if readOnly.Some? {
        OutOfPortsBy(services, id, {postgres, readWrite.value, readOnly.value});
        GrantedPort(services, id, {postgres, readWrite.value, readOnly.value}, used2 + {readOnly.value}, 8008, 65535,
                    if previous.Some? then Some(previous.value.restPort) else None);
      }
    }
  }

  /** A Patroni deployment is refused for a service of the other type, for lack of ports or for its id, in this order, and else
      gives a service of the given mode. */
  lemma NewPatroniMeans(services: Registry, id: string, syncMode: SyncMode)
    ensures var planned := NewPatroni(services, id, syncMode);
            match planned
            case Err(ServiceIdConflict) => id in services && services[id].Web?
            case Err(ServicePortAllocation) => !(id in services && services[id].Web?) && OutOfPorts(services, id)
            case Err(error) => error == ClusterConfigInvalid && !(id in services && services[id].Web?) && !IsServiceId(Trim(id))
            case Ok(service) =>
              && !(id in services && services[id].Web?) && IsServiceId(Trim(id))
              && service.Patroni? && service.serviceId == id && service.syncMode == syncMode
              && PortsGranted(services, id, if id in services then Some(services[id]) else None, service.postgresPort,
                              service.readWritePort, service.readOnlyPort, service.restPort)
  {
    hide PortsInUse, Taken, IsServiceId, Trim, PlanPatroniPorts, OutOfPorts;
    if !(id in services && services[id].Web?) {
      PlanMeans(services, id, if id in services then Some(services[id]) else None);
    }
  }

  // Invariant

  /** All ports of all services are pairwise distinct, the four ports inside one Patroni service included. */
  ghost predicate PortsDisjoint(services: Registry) {
    forall id1, id2, i, j ::
      && id1 in services && id2 in services
      && 0 <= i < |services[id1].Ports()| && 0 <= j < |services[id2].Ports()|
      && services[id1].Ports()[i] == services[id2].Ports()[j]
      ==> id1 == id2 && i == j
  }

  /** Postgres and REST ports stay below the web range although their own ranges reach up to 65535. */
  predicate InClassRanges(service: Service) {
    match service
    case Web(_, _, _, _, exposedPort, _, _) => WEB_EXPOSED_PORT_START <= exposedPort <= LAST_PORT
    case Patroni(_, _, postgresPort, readWritePort, readOnlyPort, restPort) =>
      && PATRONI_POSTGRES_PORT_START <= postgresPort < WEB_EXPOSED_PORT_START
      && PATRONI_PORT_START <= readWritePort <= PATRONI_PORT_END
      && PATRONI_PORT_START <= readOnlyPort <= PATRONI_PORT_END
      && PATRONI_REST_PORT_START <= restPort < WEB_EXPOSED_PORT_START
  }

  ghost predicate PortsPlaced(services: Registry) {
    forall id :: id in services ==> InClassRanges(services[id])
  }

  ghost predicate ServiceIdsWellFormed(services: Registry) {
    forall id :: id in services ==> IsServiceId(id)
  }

  /** Every entry is stored under its own id, passes the schema and is not changed by it. */
  ghost predicate EntriesValid(services: Registry) {
    forall id :: id in services ==>
      services[id].serviceId == id && SchemaAccepts(services[id]) && ServiceTrimmed(services[id])
  }

  ghost predicate RegistryInvariant(services: Registry) {
    ServiceIdsWellFormed(services) && EntriesValid(services) && PortsPlaced(services) && PortsDisjoint(services)
  }

  lemma InvariantIds(services: Registry)
    requires RegistryInvariant(services)
    ensures ServiceIdsWellFormed(services)
  {
  }

  // Counting ports

  function PatroniIds(services: Registry): set<string> {
    set id | id in services && services[id].Patroni?
  }

  function WebIds(services: Registry): set<string> {
    set id | id in services && services[id].Web?
  }

  /** The ports that one service holds in the given port fields. */
  ghost function FieldPorts(service: Service, slots: set<nat>): set<int> {
    set slot | slot in slots && slot < |service.Ports()| :: service.Ports()[slot]
  }

  /** The ports that the services `ids` hold in the given port fields. */
  ghost function SlotPorts(services: Registry, ids: set<string>, slots: set<nat>): set<int> {
    set id, port | id in ids && id in services && port in FieldPorts(services[id], slots) :: port
  }

  ghost predicate HaveFields(services: Registry, ids: set<string>, slots: set<nat>)
    requires ids <= services.Keys
  {
    forall id, slot :: id in ids && slot in slots ==> slot < |services[id].Ports()|
  }

  ghost predicate OwnPortsDistinct(service: Service) {
    forall i, j :: 0 <= i < j < |service.Ports()| ==> service.Ports()[i] != service.Ports()[j]
  }

  lemma FieldPortsSize(service: Service, slots: set<nat>)
    requires forall slot :: slot in slots ==> slot < |service.Ports()|
    requires OwnPortsDistinct(service)
    ensures |slots| == 1 ==> |FieldPorts(service, slots)| == 1
    ensures |slots| == 2 ==> |FieldPorts(service, slots)| == 2
  {
    if |slots| in {1, 2} {
      var first :| first in slots;
      var others := slots - {first};
      if others == {} {
        assert slots == {first};
        assert FieldPorts(service, slots) == {service.Ports()[first]};
      } else {
        var second :| second in others;
        assert |others - {second}| == |slots| - 2;
        assert slots == {first, second};
        assert FieldPorts(service, slots) == {service.Ports()[first], service.Ports()[second]};
      }
    }
  }

  lemma SlotPortsSplit(services: Registry, ids: set<string>, id: string, slots: set<nat>)
    requires PortsDisjoint(services) && id in services && id !in ids
    ensures OwnPortsDistinct(services[id])
    ensures SlotPorts(services, ids + {id}, slots) == SlotPorts(services, ids, slots) + FieldPorts(services[id], slots)
    ensures SlotPorts(services, ids, slots) !! FieldPorts(services[id], slots)
  {
  }

  /** Disjoint ports make counting ports the same as counting services. */
  lemma {:induction false} SlotPortsSize(services: Registry, ids: set<string>, slots: set<nat>)
    requires PortsDisjoint(services) && ids <= services.Keys
    requires HaveFields(services, ids, slots)
    ensures |slots| == 1 ==> |SlotPorts(services, ids, slots)| == |ids|
    ensures |slots| == 2 ==> |SlotPorts(services, ids, slots)| == 2 * |ids|
    decreases ids
  {
    hide PortsDisjoint, FieldPorts, OwnPortsDistinct;
    if ids == {} {
      assert SlotPorts(services, ids, slots) == {};
    } else {
      var id :| id in ids;
      var rest := ids - {id};
      assert rest + {id} == ids;
      SlotPortsSize(services, rest, slots);
      SlotPortsSplit(services, rest, id, slots);
      FieldPortsSize(services[id], slots);
    }
  }

  // Capacity

  /** A used port belongs to a port field of some other service. */
  lemma OwnerOf(services: Registry, id: string, port: int) returns (owner: string, slot: nat)
    requires port in PortsInUse(services, id)
    ensures owner in services && owner != id && slot < |services[owner].Ports()| && services[owner].Ports()[slot] == port
  {
    owner :| owner in services && owner != id && port in services[owner].Ports();
    slot :| slot < |services[owner].Ports()| && services[owner].Ports()[slot] == port;
  }

  lemma HoldsSlot(services: Registry, ids: set<string>, slots: set<nat>, id: string, slot: nat)
    requires id in ids && id in services && slot in slots && slot < |services[id].Ports()|
    ensures services[id].Ports()[slot] in SlotPorts(services, ids, slots)
  {
    assert services[id].Ports()[slot] in FieldPorts(services[id], slots);
  }

  /** The fields `slots` of the services `ids` are the only ports in `start..end`, those of `id` aside. */
  ghost predicate RangeBelongsTo(services: Registry, id: string, start: int, end: int, ids: set<string>, slots: set<nat>) {
    forall other: string, slot: nat {:trigger services[other].Ports()[slot]} ::
      other in services && other != id && slot < |services[other].Ports()| ==>
        (start <= services[other].Ports()[slot] <= end <==> other in ids && slot in slots)
  }

  lemma UsedInRange(services: Registry, id: string, start: int, end: int, ids: set<string>, slots: set<nat>)
    requires ids <= services.Keys - {id}
    requires RangeBelongsTo(services, id, start, end, ids, slots)
    ensures Within(PortsInUse(services, id), start, end) == SlotPorts(services, ids, slots)
  {
    forall port | port in Within(PortsInUse(services, id), start, end)
      ensures port in SlotPorts(services, ids, slots)
    {
      var owner, slot := OwnerOf(services, id, port);
      HoldsSlot(services, ids, slots, owner, slot);
    }
    forall port | port in SlotPorts(services, ids, slots)
      ensures port in Within(PortsInUse(services, id), start, end)
    {
      var owner :| owner in ids && owner in services && port in FieldPorts(services[owner], slots);
      var slot: nat :| slot in slots && slot < |services[owner].Ports()| && services[owner].Ports()[slot] == port;
      assert services[owner].Ports()[slot] in services[owner].Ports();
    }
  }

  lemma ClassOwnsRange(services: Registry, id: string)
    requires PortsPlaced(services)
    ensures RangeBelongsTo(services, id, PATRONI_PORT_START, PATRONI_PORT_END, PatroniIds(services) - {id}, {1, 2})
    ensures RangeBelongsTo(services, id, PATRONI_POSTGRES_PORT_START, WEB_EXPOSED_PORT_START - 1,
                           PatroniIds(services) - {id}, {0, 3})
    ensures RangeBelongsTo(services, id, WEB_EXPOSED_PORT_START, LAST_PORT, WebIds(services) - {id}, {0})
  {
  }

  lemma UsedCount(services: Registry, id: string, start: int, end: int, ids: set<string>, slots: set<nat>)
    requires PortsDisjoint(services) && ids <= services.Keys - {id} && HaveFields(services, ids, slots)
    requires RangeBelongsTo(services, id, start, end, ids, slots)
    ensures |slots| == 1 ==> |Within(PortsInUse(services, id), start, end)| == |ids|
    ensures |slots| == 2 ==> |Within(PortsInUse(services, id), start, end)| == 2 * |ids|
  {
    UsedInRange(services, id, start, end, ids, slots);
    SlotPortsSize(services, ids, slots);
  }

  /** How many ports of each allocation range the services other than `id` use. */
  lemma UsedPatroniPorts(services: Registry, id: string)
    requires PortsPlaced(services) && PortsDisjoint(services)
    ensures |Within(PortsInUse(services, id), PATRONI_PORT_START, PATRONI_PORT_END)| == 2 * |PatroniIds(services) - {id}|
  {
    ClassOwnsRange(services, id);
    UsedCount(services, id, PATRONI_PORT_START, PATRONI_PORT_END, PatroniIds(services) - {id}, {1, 2});
  }

  lemma UsedBackendPorts(services: Registry, id: string)
    requires PortsPlaced(services) && PortsDisjoint(services)
    ensures |Within(PortsInUse(services, id), PATRONI_POSTGRES_PORT_START, WEB_EXPOSED_PORT_START - 1)|
            == 2 * |PatroniIds(services) - {id}|
  {
    ClassOwnsRange(services, id);
    UsedCount(services, id, PATRONI_POSTGRES_PORT_START, WEB_EXPOSED_PORT_START - 1, PatroniIds(services) - {id}, {0, 3});
  }

  lemma UsedWebPorts(services: Registry, id: string)
    requires PortsPlaced(services) && PortsDisjoint(services)
    ensures |Within(PortsInUse(services, id), WEB_EXPOSED_PORT_START, LAST_PORT)| == |WebIds(services) - {id}|
  {
    ClassOwnsRange(services, id);
    UsedCount(services, id, WEB_EXPOSED_PORT_START, LAST_PORT, WebIds(services) - {id}, {0});
  }

  /** Two proxy ports each bound the number of Patroni services, on every registry with disjoint ports. */
  lemma PatroniBound(services: Registry)
    requires PortsPlaced(services) && PortsDisjoint(services)
    ensures |PatroniIds(services)| <= 1024
  {
    var id := FreshId(services.Keys);
    UsedPatroniPorts(services, id);
    WithinSize(PortsInUse(services, id), PATRONI_PORT_START, PATRONI_PORT_END);
    assert PatroniIds(services) - {id} == PatroniIds(services);
  }

  ghost function FreshId(ids: set<string>): (id: string)
    ensures id !in ids
  {
    Longer(ids)
  }

  ghost function Longer(ids: set<string>): (id: string)
    ensures forall other :: other in ids ==> |other| < |id|
  {
    if ids == {} then "" else
    var one :| one in ids;
    "a" + one + Longer(ids - {one})
  }

  /** What a successful plan without previous ports hands out. */
  ghost predicate FreshPlan(used: set<int>, plan: (int, int, int, int)) {
    var (postgres, readWrite, readOnly, rest) := plan;
    && {postgres, readWrite, readOnly, rest} !! used
    && readWrite != readOnly && postgres != rest
    && PATRONI_POSTGRES_PORT_START <= postgres < WEB_EXPOSED_PORT_START
    && PATRONI_PORT_START <= readWrite <= PATRONI_PORT_END
    && PATRONI_PORT_START <= readOnly <= PATRONI_PORT_END
    && PATRONI_REST_PORT_START <= rest < WEB_EXPOSED_PORT_START
  }

  /** Four allocations on the shared used set: they succeed exactly while the proxy range has room for two more. */
  lemma FreshPatroniPlan(used: set<int>)
    requires |Within(used, PATRONI_PORT_START, PATRONI_PORT_END)| <= 2048
    requires |Within(used, PATRONI_POSTGRES_PORT_START, WEB_EXPOSED_PORT_START - 1)| <= 2048
    ensures var plan := PlanPatroniPorts(used, None);
            && (plan.Some? <==> |Within(used, PATRONI_PORT_START, PATRONI_PORT_END)| < 2048)
            && (plan.Some? ==> FreshPlan(used, plan.value))
  {
    LowestFreeStaysBelow(used, PATRONI_POSTGRES_PORT_START, WEB_EXPOSED_PORT_START - 1, LAST_PORT);
    var postgres := LowestFree(used, PATRONI_POSTGRES_PORT_START, LAST_PORT).value;
    var used1 := used + {postgres};
    WithinAdded(used, postgres, PATRONI_PORT_START, PATRONI_PORT_END);
    FailsOnlyWhenFull(used1, PATRONI_PORT_START, PATRONI_PORT_END);
    var readWrite := LowestFree(used1, PATRONI_PORT_START, PATRONI_PORT_END).value;
    var used2 := used1 + {readWrite};
    WithinAdded(used1, readWrite, PATRONI_PORT_START, PATRONI_PORT_END);
    FailsOnlyWhenFull(used2, PATRONI_PORT_START, PATRONI_PORT_END);
    var readOnlyPort := LowestFree(used2, PATRONI_PORT_START, PATRONI_PORT_END);
    if readOnlyPort.Some? {
      RestFits(used, postgres, readWrite, readOnlyPort.value);
    }
  }

  lemma RestFits(used: set<int>, postgres: int, readWrite: int, readOnly: int)
    requires |Within(used, PATRONI_POSTGRES_PORT_START, WEB_EXPOSED_PORT_START - 1)| <= 2048
    requires postgres !in used && readWrite !in used && readOnly !in used
    requires readWrite <= PATRONI_PORT_END && readOnly <= PATRONI_PORT_END && readWrite != readOnly
    requires PATRONI_POSTGRES_PORT_START <= postgres
    ensures var rest := LowestFree(used + {postgres} + {readWrite} + {readOnly}, PATRONI_REST_PORT_START, LAST_PORT);
            rest.Some? && rest.value < WEB_EXPOSED_PORT_START
  {
    var last := WEB_EXPOSED_PORT_START - 1;
    WithinNarrowed(used, PATRONI_POSTGRES_PORT_START, PATRONI_REST_PORT_START, last);
    WithinAdded(used, postgres, PATRONI_REST_PORT_START, last);
    WithinAdded(used + {postgres}, readWrite, PATRONI_REST_PORT_START, last);
    WithinAdded(used + {postgres} + {readWrite}, readOnly, PATRONI_REST_PORT_START, last);
    LowestFreeStaysBelow(used + {postgres} + {readWrite} + {readOnly}, PATRONI_REST_PORT_START, last, LAST_PORT);
  }

  // What deploying and removing keep

  lemma StoreKeepsDisjoint(services: Registry, id: string, service: Service)
    requires PortsDisjoint(services) && OwnPortsDistinct(service)
    requires forall port :: port in service.Ports() ==> port !in PortsInUse(services, id)
    ensures PortsDisjoint(services[id := service])
  {
    var stored := services[id := service];
    forall id1, id2, i, j |
      && id1 in stored && id2 in stored
      && 0 <= i < |stored[id1].Ports()| && 0 <= j < |stored[id2].Ports()|
      && stored[id1].Ports()[i] == stored[id2].Ports()[j]
      ensures id1 == id2 && i == j
    {
      var port := stored[id1].Ports()[i];
      assert port in stored[id1].Ports() && port in stored[id2].Ports();
      assert id1 != id ==> port in PortsInUse(services, id);
      assert id2 != id ==> port in PortsInUse(services, id);
    }
  }

  lemma StoreKeepsInvariant(services: Registry, id: string, service: Service)
    requires RegistryInvariant(services)
    requires IsServiceId(id) && service.serviceId == id && SchemaAccepts(service) && ServiceTrimmed(service)
    requires InClassRanges(service) && OwnPortsDistinct(service)
    requires forall port :: port in service.Ports() ==> port !in PortsInUse(services, id)
    ensures RegistryInvariant(services[id := service])
  {
    StoreKeepsDisjoint(services, id, service);
    StoreKeepsEntries(services, id, service);
  }

  lemma StoreKeepsEntries(services: Registry, id: string, service: Service)
    requires ServiceIdsWellFormed(services) && EntriesValid(services) && PortsPlaced(services)
    requires IsServiceId(id) && service.serviceId == id && SchemaAccepts(service) && ServiceTrimmed(service)
    requires InClassRanges(service)
    ensures var stored := services[id := service];
            ServiceIdsWellFormed(stored) && EntriesValid(stored) && PortsPlaced(stored)
  {
  }

  lemma RemoveKeepsInvariant(services: Registry, id: string)
    requires RegistryInvariant(services)
    ensures RegistryInvariant(services - {id})
  {
  }

  /** The ports a service already has are still grantable to it. */
  lemma OwnPortsUnused(services: Registry, id: string)
    requires PortsDisjoint(services) && id in services
    ensures forall port :: port in services[id].Ports() ==> port !in PortsInUse(services, id)
  {
  }

  /** Re-deploying a Patroni service keeps all four ports across the chained allocations and changes the mode only. */
  lemma RedeployPatroni(services: Registry, id: string, syncMode: SyncMode)
    requires RegistryInvariant(services) && id in services && services[id].Patroni?
    ensures NewPatroni(services, id, syncMode) == Ok(services[id].(syncMode := syncMode))
  {
    hide Trim, IsServiceId;
    OwnPortsUnused(services, id);
    var ports := services[id].Ports();
    assert InClassRanges(services[id]) && SchemaAccepts(services[id]);
    assert ports[0] in ports && ports[1] in ports && ports[2] in ports && ports[3] in ports;
    PlanKeepsPorts(PortsInUse(services, id), services[id]);
  }

  lemma PlanKeepsPorts(used: set<int>, service: Service)
    requires service.Patroni? && InClassRanges(service)
    requires service.postgresPort !in used && service.readWritePort !in used
    requires service.readOnlyPort !in used && service.restPort !in used
    requires service.readWritePort != service.readOnlyPort && service.postgresPort != service.restPort
    ensures PlanPatroniPorts(used, Some(service)) ==
            Some((service.postgresPort, service.readWritePort, service.readOnlyPort, service.restPort))
  {
  }

  /** Re-deploying a web service never moves its port; only the schema can reject the new settings. */
  lemma RedeployWeb(services: Registry, id: string, spec: WebSpec)
    requires RegistryInvariant(services) && id in services && services[id].Web?
    ensures var service := WebServiceOf(id, spec, services[id].exposedPort);
            NewWeb(services, id, spec) == if SchemaAccepts(service) then Ok(service) else Err(ClusterConfigInvalid)
  {
    OwnPortsUnused(services, id);
    assert services[id].Ports()[0] in services[id].Ports();
    assert InClassRanges(services[id]);
  }

  /** A fresh Patroni service fits exactly while fewer than 1024 exist; the overlapping ranges never matter. */
  lemma DeployFreshPatroni(services: Registry, id: string, syncMode: SyncMode)
    requires RegistryInvariant(services) && id !in services && IsServiceId(Trim(id))
    ensures NewPatroni(services, id, syncMode).Ok? <==> |PatroniIds(services)| < 1024
    ensures NewPatroni(services, id, syncMode).Err? ==> NewPatroni(services, id, syncMode).error == ServicePortAllocation
  {
    FreshPatroniPorts(services, id);
    StoreFreshPlan(services, id, syncMode);
  }

  lemma StoreFreshPlan(services: Registry, id: string, syncMode: SyncMode)
    requires id !in services && IsServiceId(Trim(id))
    requires var plan := PlanPatroniPorts(PortsInUse(services, id), None);
             plan.Some? ==> FreshPlan(PortsInUse(services, id), plan.value)
    ensures match PlanPatroniPorts(PortsInUse(services, id), None)
            case None => NewPatroni(services, id, syncMode) == Err(ServicePortAllocation)
            case Some((postgres, readWrite, readOnly, rest)) =>
              NewPatroni(services, id, syncMode) == Ok(Patroni(id, syncMode, postgres, readWrite, readOnly, rest))
  {
  }

  lemma FreshPatroniPorts(services: Registry, id: string)
    requires PortsPlaced(services) && PortsDisjoint(services) && id !in services
    ensures var used := PortsInUse(services, id); var plan := PlanPatroniPorts(used, None);
            && (plan.Some? <==> |PatroniIds(services)| < 1024)
            && (plan.Some? ==> FreshPlan(used, plan.value))
  {
    PatroniBound(services);
    assert PatroniIds(services) - {id} == PatroniIds(services);
    UsedPatroniPorts(services, id);
    UsedBackendPorts(services, id);
    FreshPatroniPlan(PortsInUse(services, id));
  }

  /** A fresh web service with valid settings fits exactly while the web range has a free port. */
  lemma DeployFreshWeb(services: Registry, id: string, spec: WebSpec)
    requires RegistryInvariant(services) && id !in services
    requires SchemaAccepts(WebServiceOf(id, spec, WEB_EXPOSED_PORT_START))
    ensures NewWeb(services, id, spec).Ok? <==> |WebIds(services)| < 50536
    ensures NewWeb(services, id, spec).Err? ==> NewWeb(services, id, spec).error == ServicePortAllocation
  {
    FreshWebPort(services, id);
    var port := LowestFree(PortsInUse(services, id), WEB_EXPOSED_PORT_START, LAST_PORT);
    if port.Some? {
      SchemaIgnoresPort(id, spec, WEB_EXPOSED_PORT_START, port.value);
    }
  }

  lemma FreshWebPort(services: Registry, id: string)
    requires PortsPlaced(services) && PortsDisjoint(services) && id !in services
    ensures LowestFree(PortsInUse(services, id), WEB_EXPOSED_PORT_START, LAST_PORT).Some? <==> |WebIds(services)| < 50536
  {
    assert WebIds(services) - {id} == WebIds(services);
    UsedWebPorts(services, id);
    FailsOnlyWhenFull(PortsInUse(services, id), WEB_EXPOSED_PORT_START, LAST_PORT);
  }

  lemma SchemaIgnoresPort(id: string, spec: WebSpec, port1: int, port2: int)
    requires WEB_EXPOSED_PORT_START <= port1 <= LAST_PORT && WEB_EXPOSED_PORT_START <= port2 <= LAST_PORT
    ensures SchemaAccepts(WebServiceOf(id, spec, port1)) <==> SchemaAccepts(WebServiceOf(id, spec, port2))
  {
  }

  /** A stored Patroni deployment keeps the invariant exactly when its id is well-formed, as the deploy command passes it;
      the class itself also stores an id with white space around it, which no other node would load. */
  lemma NewPatroniKeepsInvariant(services: Registry, id: string, syncMode: SyncMode)
    requires RegistryInvariant(services) && NewPatroni(services, id, syncMode).Ok?
    ensures RegistryInvariant(services[id := NewPatroni(services, id, syncMode).value]) <==> IsServiceId(id)
  {
    hide PortsDisjoint, IsServiceId, Trim;
    var service := NewPatroni(services, id, syncMode).value;
    if IsServiceId(id) {
      ServiceIdTrimmed(id);
      NewPatroniPorts(services, id, syncMode);
      StoreKeepsInvariant(services, id, service);
    } else {
      assert id in services[id := service];
    }
  }

  lemma NewPatroniPorts(services: Registry, id: string, syncMode: SyncMode)
    requires RegistryInvariant(services) && NewPatroni(services, id, syncMode).Ok?
    ensures var service := NewPatroni(services, id, syncMode).value;
            && service.Patroni? && service.serviceId == id && SchemaAccepts(service)
            && InClassRanges(service) && OwnPortsDistinct(service)
            && forall port :: port in service.Ports() ==> port !in PortsInUse(services, id)
  {
    hide IsServiceId, Trim, ServiceTrimmed;
    if id in services {
      RedeployPatroni(services, id, syncMode);
      OwnPortsUnused(services, id);
      assert NewPatroni(services, id, syncMode).value.Ports() == services[id].Ports();
      assert InClassRanges(services[id]);
    } else {
      FreshPatroniPorts(services, id);
    }
  }

  /** The same for a web deployment, whose texts have to be trimmed as well. */
  lemma NewWebKeepsInvariant(services: Registry, id: string, spec: WebSpec)
    requires RegistryInvariant(services) && NewWeb(services, id, spec).Ok?
    ensures RegistryInvariant(services[id := NewWeb(services, id, spec).value]) <==> IsServiceId(id) && SpecTrimmed(spec)
  {
    hide PortsDisjoint, IsServiceId, Trim, SchemaAccepts, IsTrimmed;
    var service := NewWeb(services, id, spec).value;
    var stored := services[id := service];
    if IsServiceId(id) && SpecTrimmed(spec) {
      ServiceIdTrimmed(id);
      StoreKeepsInvariant(services, id, service);
    } else if RegistryInvariant(stored) {
      assert id in stored && stored[id] == service;
      EmptyTrimmed();
    }
  }

  lemma EmptyTrimmed()
    ensures IsTrimmed("")
  {
  }
}
