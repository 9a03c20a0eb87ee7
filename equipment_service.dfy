/** The desktop's mirrored record of one registered equipment service, and
    the derived IsOnline flag. Times and durations are ticks (100 ns). */
module EquipmentServices {
  import opened Values
  import opened Messages

  const TicksPerSecond: int := 10_000_000
  /** A service counts as online for 30 seconds after its last heartbeat. */
  const OnlineWindow: int := 30 * TicksPerSecond
  /** DateTime.MinValue. */
  const MinValue: int := 0

  datatype EquipmentService = EquipmentService(
    serviceId: string,
    serviceName: string,
    machineName: string,
    equipmentType: string,
    manufacturer: string,
    healthStatus: ServiceHealthStatus,
    lastHeartbeat: int,
    uptime: int,
    currentState: map<string, Value>,
    availableControls: seq<ControlDefinition>,
    metadata: map<string, string>)

  /** `new EquipmentService()`: every field at its initialiser. */
  function NewEquipmentService(): (r: EquipmentService)
    ensures r.serviceId == "" && r.serviceName == "" && r.machineName == ""
    ensures r.equipmentType == "" && r.manufacturer == ""
    ensures r.healthStatus == Unknown && r.lastHeartbeat == MinValue && r.uptime == 0
    ensures r.currentState == map[] && r.availableControls == [] && r.metadata == map[]
  {
    EquipmentService("", "", "", "", "", Unknown, MinValue, 0, map[], [], map[])
  }

  /** IsOnline at time `now`: fewer than 30 seconds since LastHeartbeat, that
      is, `now` is before the deadline 30 seconds after the last heartbeat. */
  function IsOnline(svc: EquipmentService, now: int): (online: bool)
    ensures online <==> now < svc.lastHeartbeat + 30 * TicksPerSecond
  {
    now - svc.lastHeartbeat < OnlineWindow
  }

  /** A record whose LastHeartbeat is the current time is online. */
  lemma OnlineRightAfterHeartbeat(svc: EquipmentService, now: int)
    requires svc.lastHeartbeat == now
    ensures IsOnline(svc, now)
  {
  }

  /** Online exactly from (and before) LastHeartbeat until 30 seconds after it. */
  lemma OnlineWindowBounds(svc: EquipmentService, now: int)
    ensures IsOnline(svc, now) <==> now < svc.lastHeartbeat + 30 * TicksPerSecond
    ensures svc.lastHeartbeat <= now < svc.lastHeartbeat + 30 * TicksPerSecond ==> IsOnline(svc, now)
  {
  }

  /** With LastHeartbeat fixed, a record that is offline stays offline as time advances. */
  lemma OfflineStaysOffline(svc: EquipmentService, now: int, later: int)
    requires !IsOnline(svc, now)
    requires now <= later
    ensures !IsOnline(svc, later)
  {
  }

  /** IsOnline is derived: two records with the same LastHeartbeat agree on it,
      whatever their other fields. */
  lemma OnlineDependsOnlyOnHeartbeat(a: EquipmentService, b: EquipmentService, now: int)
    requires a.lastHeartbeat == b.lastHeartbeat
    ensures IsOnline(a, now) == IsOnline(b, now)
  {
  }

  /** A record that never saw a heartbeat (LastHeartbeat = MinValue) is
      offline from 30 seconds after MinValue on. */
  lemma FreshRecordOffline(now: int)
    requires now >= MinValue + OnlineWindow
    ensures !IsOnline(NewEquipmentService(), now)
  {
  }
}
