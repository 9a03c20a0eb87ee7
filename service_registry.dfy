/** EquipmentServiceRegistry: the desktop's mirror of every service it has
    heard of, keyed by service id. Registration messages create or refresh a
    record, heartbeats refresh its liveness and whole state, state changes
    set one key. Posting to the UI thread is modelled as applying each update
    in posting order. */
module ServiceRegistry {
  import opened Values
  import opened Messages
  import opened EquipmentServices

  // ---------------------------------------------------------------------
  // One record

  /** The record RegisterService creates for an id it has not seen. */
  function Registered(m: ServiceRegistered): (r: EquipmentService)
    ensures r.serviceId == m.serviceId && r.serviceName == m.serviceName && r.machineName == m.machineName
    ensures r.equipmentType == m.equipmentType && r.manufacturer == m.manufacturer
    ensures r.healthStatus == Unknown && r.lastHeartbeat == m.registeredAt && r.uptime == 0
    ensures r.currentState == map[] && r.availableControls == m.availableControls
    ensures r.metadata == (if m.metadata.Some? then m.metadata.value else map[])
  {
    NewEquipmentService().(serviceId := m.serviceId, serviceName := m.serviceName, machineName := m.machineName,
                           equipmentType := m.equipmentType, manufacturer := m.manufacturer,
                           healthStatus := Unknown, lastHeartbeat := m.registeredAt,
                           availableControls := m.availableControls,
                           metadata := if m.metadata.Some? then m.metadata.value else map[])
  }

  /** UpdateExistingService: the descriptive fields, and only those, are overwritten. */
  function Reregistered(svc: EquipmentService, m: ServiceRegistered): EquipmentService
  {
    svc.(serviceName := m.serviceName, machineName := m.machineName, equipmentType := m.equipmentType,
         manufacturer := m.manufacturer, availableControls := m.availableControls,
         metadata := if m.metadata.Some? then m.metadata.value else map[])
  }

  /** UpdateHeartbeat on a known record: liveness fields and the whole state. */
  function Heartbeated(svc: EquipmentService, m: ServiceHeartbeat): EquipmentService
  {
    svc.(lastHeartbeat := m.timestamp, healthStatus := m.healthStatus, uptime := m.uptime,
         currentState := m.currentState)
  }

  /** UpdateState on a known record: one key of the state. */
  function StateSet(svc: EquipmentService, m: ServiceStateChanged): EquipmentService
  {
    svc.(currentState := svc.currentState[m.stateKey := m.newValue])
  }

  // ---------------------------------------------------------------------
  // The whole mirror: the dictionary and the Services collection, whose
  // entries are the dictionary's own records (listed here by id)

  datatype Mirror = Mirror(services: map<string, EquipmentService>, listed: seq<string>)

  const EmptyMirror := Mirror(map[], [])

  /** Dictionary and collection agree, each id is listed once, and every
      record is filed under its own id. */
  predicate InSync(r: Mirror)
  {
    && (forall i, j :: 0 <= i < j < |r.listed| ==> r.listed[i] != r.listed[j])
    && (forall id :: id in r.services ==> id in r.listed)
    && (forall i :: 0 <= i < |r.listed| ==> r.listed[i] in r.services)
    && (forall id :: id in r.services ==> r.services[id].serviceId == id)
  }

  /** RegisterService: a known id is refreshed in place, a new one is added
      and listed last; no other id comes or goes. */
  function ApplyRegistered(r: Mirror, m: ServiceRegistered): (r': Mirror)
    ensures m.serviceId in r'.services
    ensures forall id :: id != m.serviceId ==> (id in r'.services <==> id in r.services)
  {
    if m.serviceId in r.services then
      Mirror(r.services[m.serviceId := Reregistered(r.services[m.serviceId], m)], r.listed)
    else
      Mirror(r.services[m.serviceId := Registered(m)], r.listed + [m.serviceId])
  }

  /** UpdateHeartbeat: refreshes a known record; adds and removes no id. */
  function ApplyHeartbeat(r: Mirror, m: ServiceHeartbeat): (r': Mirror)
    ensures r'.services.Keys == r.services.Keys && r'.listed == r.listed
  {
    if m.serviceId in r.services then
      Mirror(r.services[m.serviceId := Heartbeated(r.services[m.serviceId], m)], r.listed)
    else
      r
  }

  /** UpdateState: changes a known record; adds and removes no id. */
  function ApplyStateChanged(r: Mirror, m: ServiceStateChanged): (r': Mirror)
    ensures r'.services.Keys == r.services.Keys && r'.listed == r.listed
  {
    if m.serviceId in r.services then
      Mirror(r.services[m.serviceId := StateSet(r.services[m.serviceId], m)], r.listed)
    else
      r
  }

  /** An update posted to the UI thread by one of the three entry points. */
  datatype RegistryEvent =
    | Registration(registered: ServiceRegistered)
    | Heartbeat(heartbeat: ServiceHeartbeat)
    | StateChange(changed: ServiceStateChanged)

  function Apply(r: Mirror, e: RegistryEvent): Mirror
  {
    match e
    case Registration(m) => ApplyRegistered(r, m)
    case Heartbeat(m) => ApplyHeartbeat(r, m)
    case StateChange(m) => ApplyStateChanged(r, m)
  }

  /** The mirror after the posted updates `es` ran, first to last. */
  function Replay(r: Mirror, es: seq<RegistryEvent>): Mirror
  {
    if es == [] then r else Apply(Replay(r, es[..|es| - 1]), es[|es| - 1])
  }

  /** GetService, on the mirror. */
  function Lookup(r: Mirror, serviceId: string): Option<EquipmentService>
  {
    if serviceId in r.services then Some(r.services[serviceId]) else None
  }

  /** `es` holds a registration for `serviceId`. */
  predicate EverRegistered(es: seq<RegistryEvent>, serviceId: string)
  {
    exists i :: 0 <= i < |es| && es[i].Registration? && es[i].registered.serviceId == serviceId
  }

  // ---------------------------------------------------------------------
  // Properties

  /** Each update keeps dictionary and collection in sync; re-registration
      adds no second entry. */
  lemma ApplyKeepsInSync(r: Mirror, e: RegistryEvent)
    requires InSync(r)
    ensures InSync(Apply(r, e))
    ensures e.Registration? && e.registered.serviceId in r.services ==> Apply(r, e).listed == r.listed
  {
    if e.Registration? && e.registered.serviceId !in r.services {
      var r' := Apply(r, e);
      var id := e.registered.serviceId;
      forall i, j | 0 <= i < j < |r'.listed| ensures r'.listed[i] != r'.listed[j] {
        if j == |r.listed| {
          assert r.listed[i] in r.services;
        }
      }
    }
  }

  /** From an empty mirror, any sequence of updates keeps it in sync. */
  lemma {:induction false} ReplayInSync(es: seq<RegistryEvent>)
    ensures InSync(Replay(EmptyMirror, es))
  {
    if es != [] {
      ReplayInSync(es[..|es| - 1]);
      ApplyKeepsInSync(Replay(EmptyMirror, es[..|es| - 1]), es[|es| - 1]);
    }
  }

  /** GetService finds a record exactly when a registration for its id was
      posted: heartbeats and state changes never create one. */
  lemma {:induction false} KnownIffRegistered(es: seq<RegistryEvent>, serviceId: string)
    ensures Lookup(Replay(EmptyMirror, es), serviceId).Some? <==> EverRegistered(es, serviceId)
  {
    if es != [] {
      var prefix := es[..|es| - 1];
      var e := es[|es| - 1];
      KnownIffRegistered(prefix, serviceId);
      if EverRegistered(prefix, serviceId) {
        var i :| 0 <= i < |prefix| && prefix[i].Registration? && prefix[i].registered.serviceId == serviceId;
        assert es[i] == prefix[i];
      }
      if EverRegistered(es, serviceId) && !(e.Registration? && e.registered.serviceId == serviceId) {
        var i :| 0 <= i < |es| && es[i].Registration? && es[i].registered.serviceId == serviceId;
        assert i < |prefix| && prefix[i] == es[i];
      }
    }
  }

  /** Registering an unseen id files a fresh record: Unknown health,
      LastHeartbeat = RegisteredAt, empty state, null metadata read as empty;
      it is listed last. */
  lemma RegisterNewService(r: Mirror, m: ServiceRegistered)
    requires m.serviceId !in r.services
    ensures var r' := ApplyRegistered(r, m);
            && m.serviceId in r'.services
            && r'.services[m.serviceId].healthStatus == Unknown
            && r'.services[m.serviceId].lastHeartbeat == m.registeredAt
            && r'.services[m.serviceId].currentState == map[]
            && (m.metadata.None? ==> r'.services[m.serviceId].metadata == map[])
            && r'.listed == r.listed + [m.serviceId]
            && (forall id :: id != m.serviceId && id in r.services ==> id in r'.services && r'.services[id] == r.services[id])
  {
  }

  /** Re-registration overwrites name, machine, type, manufacturer, controls and
      metadata; health, LastHeartbeat, Uptime and state stay as they were, and
      no other record or list entry changes. */
  lemma ReregistrationKeepsLiveness(r: Mirror, m: ServiceRegistered)
    requires m.serviceId in r.services
    ensures var old_ := r.services[m.serviceId];
            var r' := ApplyRegistered(r, m);
            && m.serviceId in r'.services
            && r'.services[m.serviceId].serviceName == m.serviceName
            && r'.services[m.serviceId].machineName == m.machineName
            && r'.services[m.serviceId].equipmentType == m.equipmentType
            && r'.services[m.serviceId].manufacturer == m.manufacturer
            && r'.services[m.serviceId].availableControls == m.availableControls
            && r'.services[m.serviceId].metadata == (if m.metadata.Some? then m.metadata.value else map[])
            && r'.services[m.serviceId].serviceId == old_.serviceId
            && r'.services[m.serviceId].healthStatus == old_.healthStatus
            && r'.services[m.serviceId].lastHeartbeat == old_.lastHeartbeat
            && r'.services[m.serviceId].uptime == old_.uptime
            && r'.services[m.serviceId].currentState == old_.currentState
            && r'.listed == r.listed
            && (forall id :: id != m.serviceId ==> (id in r'.services <==> id in r.services))
            && (forall id :: id != m.serviceId && id in r.services ==> r'.services[id] == r.services[id])
  {
  }

  /** Delivering the same registration twice leaves the mirror as after one delivery. */
  lemma RegistrationIdempotent(r: Mirror, m: ServiceRegistered)
    ensures ApplyRegistered(ApplyRegistered(r, m), m) == ApplyRegistered(r, m)
  {
    var once := ApplyRegistered(r, m);
    assert once.services[m.serviceId := Reregistered(once.services[m.serviceId], m)] == once.services;
  }

  /** A heartbeat or state change for an id not in the mirror changes nothing. */
  lemma UnknownServiceDropped(r: Mirror, hb: ServiceHeartbeat, sc: ServiceStateChanged)
    ensures hb.serviceId !in r.services ==> ApplyHeartbeat(r, hb) == r
    ensures sc.serviceId !in r.services ==> ApplyStateChanged(r, sc) == r
  {
  }

  /** A heartbeat for a known id sets LastHeartbeat, HealthStatus and Uptime,
      replaces the whole state, and leaves the record online at its timestamp;
      the record's identity, descriptive fields, controls and metadata, the
      list and every other record stay as they were. */
  lemma HeartbeatRefreshesRecord(r: Mirror, m: ServiceHeartbeat)
    requires m.serviceId in r.services
    ensures var before := r.services[m.serviceId];
            var r' := ApplyHeartbeat(r, m);
            && m.serviceId in r'.services
            && var after := r'.services[m.serviceId];
            && after.lastHeartbeat == m.timestamp
            && after.healthStatus == m.healthStatus
            && after.uptime == m.uptime
            && after.currentState == m.currentState
            && after.serviceId == before.serviceId && after.serviceName == before.serviceName
            && after.machineName == before.machineName && after.equipmentType == before.equipmentType
            && after.manufacturer == before.manufacturer && after.availableControls == before.availableControls
            && after.metadata == before.metadata
            && r'.listed == r.listed
            && IsOnline(after, m.timestamp)
    ensures var r' := ApplyHeartbeat(r, m);
            forall id :: id != m.serviceId ==>
              (id in r'.services <==> id in r.services) && (id in r.services ==> r'.services[id] == r.services[id])
  {
  }

  /** A state change for a known id sets exactly that key; every other key,
      every other field of the record (LastHeartbeat and health included) and
      the other records stay as they were. */
  lemma StateChangeSetsOneKey(r: Mirror, m: ServiceStateChanged)
    requires m.serviceId in r.services
    ensures var before := r.services[m.serviceId];
            var r' := ApplyStateChanged(r, m);
            && m.serviceId in r'.services
            && var after := r'.services[m.serviceId];
            && m.stateKey in after.currentState
            && after.currentState[m.stateKey] == m.newValue
            && (forall k :: k != m.stateKey ==> (k in after.currentState <==> k in before.currentState))
            && (forall k :: k != m.stateKey && k in before.currentState ==> after.currentState[k] == before.currentState[k])
            && after.(currentState := before.currentState) == before
            && r'.listed == r.listed
    ensures var r' := ApplyStateChanged(r, m);
            forall id :: id != m.serviceId ==>
              (id in r'.services <==> id in r.services) && (id in r.services ==> r'.services[id] == r.services[id])
  {
  }

  /** A heartbeat carrying {x: 1} followed by the state change x := 2 leaves the
      mirrored state {x: 2}. */
  lemma HeartbeatThenStateChange(r: Mirror, hb: ServiceHeartbeat, sc: ServiceStateChanged)
    requires hb.serviceId in r.services
    requires hb.currentState == map["x" := Num(1)]
    requires sc.serviceId == hb.serviceId && sc.stateKey == "x" && sc.newValue == Num(2)
    ensures var r' := ApplyStateChanged(ApplyHeartbeat(r, hb), sc);
            hb.serviceId in r'.services && r'.services[hb.serviceId].currentState == map["x" := Num(2)]
  {
    var r' := ApplyStateChanged(ApplyHeartbeat(r, hb), sc);
    assert map["x" := Num(1)]["x" := Num(2)] == map["x" := Num(2)];
  }

  // ---------------------------------------------------------------------
  // The registry object

  class EquipmentServiceRegistry {
    /** _services */
    var services: map<string, EquipmentService>
    /** Services, by id: its entries are the dictionary's records. */
    var listed: seq<string>

    function Current(): Mirror
      reads this
    {
      Mirror(services, listed)
    }

    predicate Valid()
      reads this
    {
      InSync(Current())
    }

    constructor ()
      ensures services == map[] && listed == []
      ensures Valid()
    {
      services := map[];
      listed := [];
    }

    method RegisterService(message: ServiceRegistered)
      requires Valid()
      modifies this
      ensures Current() == ApplyRegistered(old(Current()), message)
      ensures Valid()
    {
      ApplyKeepsInSync(Current(), Registration(message));
      if message.serviceId in services {
        UpdateExistingService(message);
        return;
      }
      var service := NewEquipmentService().(serviceId := message.serviceId, serviceName := message.serviceName,
                                            machineName := message.machineName,
                                            equipmentType := message.equipmentType,
                                            manufacturer := message.manufacturer, healthStatus := Unknown,
                                            lastHeartbeat := message.registeredAt,
                                            availableControls := message.availableControls,
                                            metadata := if message.metadata.Some? then message.metadata.value
                                                        else map[]);
      services := services[message.serviceId := service];
      listed := listed + [message.serviceId];
    }

    method UpdateExistingService(message: ServiceRegistered)
      requires message.serviceId in services
      modifies this`services
      ensures services == old(services)[message.serviceId := Reregistered(old(services)[message.serviceId], message)]
    {
      var service := services[message.serviceId];
      service := service.(serviceName := message.serviceName);
      service := service.(machineName := message.machineName);
      service := service.(equipmentType := message.equipmentType);
      service := service.(manufacturer := message.manufacturer);
      service := service.(availableControls := message.availableControls);
      service := service.(metadata := if message.metadata.Some? then message.metadata.value else map[]);
      services := services[message.serviceId := service];
    }

    method UpdateHeartbeat(message: ServiceHeartbeat)
      requires Valid()
      modifies this`services
      ensures Current() == ApplyHeartbeat(old(Current()), message)
      ensures Valid()
    {
      ApplyKeepsInSync(Current(), Heartbeat(message));
      if message.serviceId !in services {
        return;
      }
      var service := services[message.serviceId];
      service := service.(lastHeartbeat := message.timestamp);
      service := service.(healthStatus := message.healthStatus);
      service := service.(uptime := message.uptime);
      service := service.(currentState := message.currentState);
      services := services[message.serviceId := service];
    }

    method UpdateState(message: ServiceStateChanged)
      requires Valid()
      modifies this`services
      ensures Current() == ApplyStateChanged(old(Current()), message)
      ensures Valid()
    {
      ApplyKeepsInSync(Current(), StateChange(message));
      if message.serviceId !in services {
        return;
      }
      var service := services[message.serviceId];
      service := service.(currentState := service.currentState[message.stateKey := message.newValue]);
      services := services[message.serviceId := service];
    }

    method GetService(serviceId: string) returns (r: Option<EquipmentService>)
      ensures r == Lookup(Current(), serviceId)
    {
      if serviceId in services {
        r := Some(services[serviceId]);
      } else {
        r := None;
      }
    }
  }
}
