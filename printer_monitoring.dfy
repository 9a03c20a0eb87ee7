/** PrinterMonitoringService: seeds the printer's six state keys, then
    publishes one heartbeat per beat until cancelled. The heartbeat counter
    is incremented while the heartbeat is built, before Publish, so a beat
    whose publish throws still consumes its number. Each beat is given as
    its clock reading and the broker's condition at that moment; the run
    ends where the list of beats ends (cancellation). */
module PrinterMonitoring {
  import opened Values
  import opened Messages
  import opened StateManager

  /** The first three awaited SetStateAsync calls of InitializeStateAsync. */
  const SeedFirst: seq<Write> := [
    Write("printer-status", Str("Idle"), "Service started"),
    Write("bed-temperature", Num(0), "Initial state"),
    Write("nozzle-temperature", Num(0), "Initial state")
  ]

  /** The last three. */
  const SeedSecond: seq<Write> := [
    Write("print-speed", Num(100), "Initial state"),
    Write("filament-type", Str("PLA"), "Initial state"),
    Write("print-progress", Num(0), "Initial state")
  ]

  /** The six seed writes, in order. */
  const SeedWrites: seq<Write> := SeedFirst + SeedSecond

  /** The keys and values seeding establishes. */
  const SeedState: map<string, Value> := map[
    "printer-status" := Str("Idle"),
    "bed-temperature" := Num(0),
    "nozzle-temperature" := Num(0),
    "print-speed" := Num(100),
    "filament-type" := Str("PLA"),
    "print-progress" := Num(0)
  ]

  /** One pass of the monitoring loop: when it runs, and whether the broker accepts the publish. */
  datatype Beat = Beat(now: int, fault: Option<string>)

  /** The heartbeat PublishHeartbeatAsync builds with counter value `count`.
      One clock reading `now` serves as its Timestamp and as the end of its Uptime. */
  function HeartbeatOf(id: ServiceIdentity, now: int, state: map<string, Value>, startTime: int, count: int): (h: ServiceHeartbeat)
    ensures h.serviceId == id.serviceId && h.serviceName == id.serviceName && h.machineName == id.machineName
    ensures h.healthStatus == Healthy && h.currentState == state && h.messageCount == count
    ensures h.uptime == h.timestamp - startTime
  {
    ServiceHeartbeat(id.serviceId, id.serviceName, id.machineName, now, Healthy, state, now - startTime, count)
  }

  /** What a run of beats puts on the bus, starting after counter value
      `count`: the k-th beat carries count + k + 1 and is published only when
      the broker accepts it. */
  function HeartbeatLog(id: ServiceIdentity, state: map<string, Value>, startTime: int, count: int,
                        beats: seq<Beat>): (r: seq<BusMessage>)
    ensures |r| <= |beats|
    ensures forall m :: m in r ==> m.HeartbeatMessage? && m.heartbeat.healthStatus == Healthy
                                    && m.heartbeat.currentState == state
                                    && count < m.heartbeat.messageCount <= count + |beats|
    decreases |beats|
  {
    if beats == [] then []
    else
      (if beats[0].fault.None? then [HeartbeatMessage(HeartbeatOf(id, beats[0].now, state, startTime, count + 1))] else [])
      + HeartbeatLog(id, state, startTime, count + 1, beats[1..])
  }

  /** Appending one beat appends at most its own heartbeat, numbered after all earlier beats. */
  lemma {:induction false} HeartbeatLogSnoc(id: ServiceIdentity, state: map<string, Value>, startTime: int, count: int,
                                            beats: seq<Beat>, b: Beat)
    ensures HeartbeatLog(id, state, startTime, count, beats + [b])
              == HeartbeatLog(id, state, startTime, count, beats)
                 + (if b.fault.None? then [HeartbeatMessage(HeartbeatOf(id, b.now, state, startTime, count + |beats| + 1))]
                    else [])
    decreases |beats|
  {
    if beats == [] {
      assert [b][1..] == [];
    } else {
      assert (beats + [b])[0] == beats[0];
      assert (beats + [b])[1..] == beats[1..] + [b];
      HeartbeatLogSnoc(id, state, startTime, count + 1, beats[1..], b);
      var head := if beats[0].fault.None? then [HeartbeatMessage(HeartbeatOf(id, beats[0].now, state, startTime, count + 1))]
                  else [];
      var last := if b.fault.None? then [HeartbeatMessage(HeartbeatOf(id, b.now, state, startTime, count + |beats| + 1))]
                  else [];
      ConcatAssoc(head, HeartbeatLog(id, state, startTime, count + 1, beats[1..]), last);
    }
  }

  /** Heartbeat numbers strictly increase along what reaches the bus; none is reused. */
  lemma {:induction false} HeartbeatCountsIncrease(id: ServiceIdentity, state: map<string, Value>, startTime: int,
                                                   count: int, beats: seq<Beat>)
    ensures var log := HeartbeatLog(id, state, startTime, count, beats);
            forall i, j :: 0 <= i < j < |log| ==> log[i].heartbeat.messageCount < log[j].heartbeat.messageCount
    decreases |beats|
  {
    if beats != [] {
      HeartbeatCountsIncrease(id, state, startTime, count + 1, beats[1..]);
      var rest := HeartbeatLog(id, state, startTime, count + 1, beats[1..]);
      assert var l2 := HeartbeatLog(id, state, startTime, count + 1, beats[1..]);
        forall a, b :: 0 <= a < b < |l2| ==> l2[a].heartbeat.messageCount < l2[b].heartbeat.messageCount;
      if beats[0].fault.None? {
        var log := HeartbeatLog(id, state, startTime, count, beats);
        assert log == [HeartbeatMessage(HeartbeatOf(id, beats[0].now, state, startTime, count + 1))] + rest;
        forall j | 1 <= j < |log| ensures count + 1 < log[j].heartbeat.messageCount {
          assert log[j] == rest[j - 1] && rest[j - 1] in rest;
        }
      }
    }
  }

  /** With the broker up on every beat, beat k publishes the heartbeat
      numbered count + k + 1, built at that beat's own time. */
  lemma {:induction false} HeartbeatLogBusUp(id: ServiceIdentity, state: map<string, Value>, startTime: int,
                                             count: int, beats: seq<Beat>)
    requires forall k :: 0 <= k < |beats| ==> beats[k].fault.None?
    ensures var log := HeartbeatLog(id, state, startTime, count, beats);
            && |log| == |beats|
            && forall k :: 0 <= k < |beats| ==>
                 log[k] == HeartbeatMessage(HeartbeatOf(id, beats[k].now, state, startTime, count + k + 1))
    decreases |beats|
  {
    if beats != [] {
      assert beats[0].fault.None?;
      forall k | 0 <= k < |beats[1..]| ensures beats[1..][k].fault.None? {
        assert beats[1..][k] == beats[k + 1];
      }
      HeartbeatLogBusUp(id, state, startTime, count + 1, beats[1..]);
      var tail := HeartbeatLog(id, state, startTime, count + 1, beats[1..]);
      var log := HeartbeatLog(id, state, startTime, count, beats);
      assert log == [HeartbeatMessage(HeartbeatOf(id, beats[0].now, state, startTime, count + 1))] + tail;
      forall k | 1 <= k < |beats|
        ensures log[k] == HeartbeatMessage(HeartbeatOf(id, beats[k].now, state, startTime, count + k + 1))
      {
        assert log[k] == tail[k - 1] && beats[1..][k - 1] == beats[k];
      }
    }
  }

  /** A failed publish consumes its number: the first heartbeat after it is
      number 2, and number 1 never reaches the bus. */
  lemma FailedBeatConsumesNumber(id: ServiceIdentity, state: map<string, Value>, startTime: int,
                                 t1: int, t2: int, message: string)
    ensures HeartbeatLog(id, state, startTime, 0, [Beat(t1, Some(message)), Beat(t2, None)])
              == [HeartbeatMessage(HeartbeatOf(id, t2, state, startTime, 2))]
  {
    var beats := [Beat(t1, Some(message)), Beat(t2, None)];
    assert beats[1..] == [Beat(t2, None)];
    assert beats[1..][1..] == [];
  }

  // ---------------------------------------------------------------------
  // Seeding

  /** A publish that throws during the first three seed writes ends seeding there. */
  lemma SeedStopsEarly(s: map<string, Value>, id: ServiceIdentity, now: int, fault: Option<string>)
    requires RunWrites(s, id, now, fault, SeedFirst).outcome.Fail?
    ensures RunWrites(s, id, now, fault, SeedWrites) == RunWrites(s, id, now, fault, SeedFirst)
  {
    RunWritesAppend(s, id, now, fault, SeedFirst, SeedSecond);
  }

  /** Otherwise the last three seed writes run on the store the first three left. */
  lemma SeedRunsOn(s: map<string, Value>, id: ServiceIdentity, now: int, fault: Option<string>)
    requires RunWrites(s, id, now, fault, SeedFirst).outcome.Pass?
    ensures var ra := RunWrites(s, id, now, fault, SeedFirst);
            var rb := RunWrites(ra.state, id, now, fault, SeedSecond);
            RunWrites(s, id, now, fault, SeedWrites) == StoreStep(rb.state, ra.sent + rb.sent, rb.outcome)
  {
    RunWritesAppend(s, id, now, fault, SeedFirst, SeedSecond);
  }

  /** The six seed keys are pairwise distinct. */
  lemma SeedKeysDistinct()
    ensures DistinctKeys(SeedWrites)
  {
    var w := SeedWrites;
    assert |w| == 6;
    assert w[0].key == "printer-status" && w[1].key == "bed-temperature" && w[2].key == "nozzle-temperature";
    assert w[3].key == "print-speed" && w[4].key == "filament-type" && w[5].key == "print-progress";
  }

  /** Every key of SeedState has a seed write that stores its value. */
  lemma SeedWriteFor(k: string) returns (i: int)
    requires k in SeedState
    ensures 0 <= i < |SeedWrites| && SeedWrites[i].key == k && SeedWrites[i].value == SeedState[k]
  {
    var w := SeedWrites;
    assert w[0].key == "printer-status" && w[1].key == "bed-temperature" && w[2].key == "nozzle-temperature";
    assert w[3].key == "print-speed" && w[4].key == "filament-type" && w[5].key == "print-progress";
    if k == "printer-status" { i := 0; }
    else if k == "bed-temperature" { i := 1; }
    else if k == "nozzle-temperature" { i := 2; }
    else if k == "print-speed" { i := 3; }
    else if k == "filament-type" { i := 4; }
    else { i := 5; }
  }

  /** Seeding writes exactly the keys of SeedState. */
  lemma SeedWritesOnlySeedKeys(k: string)
    requires k !in SeedState
    ensures !WrittenKey(SeedWrites, k)
  {
    var w := SeedWrites;
    assert w[0].key == "printer-status" && w[1].key == "bed-temperature" && w[2].key == "nozzle-temperature";
    assert w[3].key == "print-speed" && w[4].key == "filament-type" && w[5].key == "print-progress";
  }

  /** With the broker up, seeding leaves the six seed keys with their seed
      values and every other key as it was. */
  lemma SeedSetsExactlyTheseKeys(s: map<string, Value>, id: ServiceIdentity, now: int)
    ensures var r := RunWrites(s, id, now, None, SeedWrites);
            r.outcome == Pass && r.state == s + SeedState
  {
    var r := RunWrites(s, id, now, None, SeedWrites);
    RunWritesBusUp(s, id, now, SeedWrites);
    SeedKeysDistinct();
    forall k | k in SeedState
      ensures k in r.state && r.state[k] == SeedState[k]
    {
      var i := SeedWriteFor(k);
      RunWritesStores(s, id, now, None, SeedWrites, i);
    }
    forall k | k !in SeedState
      ensures (k in r.state <==> k in s) && (k in s ==> r.state[k] == s[k])
    {
      SeedWritesOnlySeedKeys(k);
      RunWritesFrame(s, id, now, None, SeedWrites, k);
    }
    assert r.state.Keys == (s + SeedState).Keys;
  }

  /** Seeding an empty store with the broker up emits six state-changed
      events, one per key in seeding order, each with OldValue "null". */
  lemma SeedEmptyStoreEmitsSix(id: ServiceIdentity, now: int)
    ensures var r := RunWrites(map[], id, now, None, SeedWrites);
            && |r.sent| == 6
            && forall i :: 0 <= i < 6 ==>
                 r.sent[i] == StateChangedMessage(ServiceStateChanged(id.serviceId, id.serviceName, id.machineName, now,
                                                                      SeedWrites[i].key, Str("null"), SeedWrites[i].value,
                                                                      Some(SeedWrites[i].reason)))
  {
    SeedKeysDistinct();
    RunOfFreshWrites(map[], id, now, SeedWrites);
  }

  /** Seeding twice changes nothing the second time and emits nothing. */
  lemma ReseedIsSilent(s: map<string, Value>, id: ServiceIdentity, now1: int, now2: int, fault2: Option<string>)
    ensures var first := RunWrites(s, id, now1, None, SeedWrites);
            RunWrites(first.state, id, now2, fault2, SeedWrites) == StoreStep(first.state, [], Pass)
  {
    RunWritesBusUp(s, id, now1, SeedWrites);
    SeedKeysDistinct();
    RerunIsSilent(s, id, now1, now2, None, fault2, SeedWrites);
  }

  /** With the broker down from the start, seeding an empty store stores
      printer-status "Idle", then the first publish throws and seeding stops. */
  lemma SeedWithBrokerDown(id: ServiceIdentity, now: int, message: string)
    ensures RunWrites(map[], id, now, Some(message), SeedWrites)
              == StoreStep(map["printer-status" := Str("Idle")], [], Fail(message))
  {
    var a := SeedFirst;
    assert a == [a[0], a[1], a[2]];
    RunWritesTriple(map[], id, now, Some(message), a[0], a[1], a[2]);
    SeedStopsEarly(map[], id, now, Some(message));
  }

  class PrinterMonitoringService {
    const stateManager: ServiceStateManager
    const startTime: int
    var messageCount: int

    /** The service records its start time; the counter starts at 0, so the first heartbeat is number 1. */
    constructor (stateManager: ServiceStateManager, startTime: int)
      ensures this.stateManager == stateManager && this.startTime == startTime && messageCount == 0
    {
      this.stateManager := stateManager;
      this.startTime := startTime;
      messageCount := 0;
    }

    /** The six seed writes, in order; a publish that throws ends seeding. */
    method InitializeStateAsync(now: int) returns (r: Outcome)
      modifies stateManager`state, stateManager.bus`published
      ensures var run := RunWrites(old(stateManager.state), stateManager.identity, now, stateManager.bus.fault, SeedWrites);
              && stateManager.state == run.state
              && stateManager.bus.published == old(stateManager.bus.published) + run.sent
              && r == run.outcome
    {
      var sm := stateManager;
      ghost var s0, p0, id, fault := sm.state, sm.bus.published, sm.identity, sm.bus.fault;
      ghost var ra := RunWrites(s0, id, now, fault, SeedFirst);
      var a, b := SeedFirst, SeedSecond;
      assert a == [a[0], a[1], a[2]] && b == [b[0], b[1], b[2]];
      r := sm.ApplyWrites3(a[0], a[1], a[2], now);
      assert sm.state == ra.state && sm.bus.published == p0 + ra.sent && r == ra.outcome;
      if r.Fail? {
        SeedStopsEarly(s0, id, now, fault);
        return;
      }
      SeedRunsOn(s0, id, now, fault);
      ghost var rb := RunWrites(ra.state, id, now, fault, SeedSecond);
      r := sm.ApplyWrites3(b[0], b[1], b[2], now);
      assert sm.state == rb.state && sm.bus.published == p0 + ra.sent + rb.sent && r == rb.outcome;
      ConcatAssoc(p0, ra.sent, rb.sent);
    }

    /** Builds the next heartbeat from a snapshot of the store and the
        incremented counter, then publishes it; the Outcome is what Publish
        threw, if anything. */
    method PublishHeartbeatAsync(now: int) returns (r: Outcome)
      modifies this`messageCount, stateManager.bus`published
      ensures messageCount == old(messageCount) + 1
      ensures r == PublishOutcome(stateManager.bus.fault)
      ensures stateManager.bus.published
                == old(stateManager.bus.published)
                   + if stateManager.bus.fault.None?
                     then [HeartbeatMessage(ServiceHeartbeat(stateManager.identity.serviceId, stateManager.identity.serviceName,
                                                             stateManager.identity.machineName, now, Healthy,
                                                             stateManager.state, now - startTime, messageCount))]
                     else []
    {
      var snapshot := stateManager.GetAllState();
      messageCount := messageCount + 1;
      var heartbeat := HeartbeatOf(stateManager.identity, now, snapshot, startTime, messageCount);
      r := stateManager.bus.Publish(HeartbeatMessage(heartbeat));
    }

    /** Seeding, then one heartbeat per beat. A throw while seeding escapes
        (it is outside the loop's try) and no heartbeat follows; a throw while
        publishing a heartbeat is caught and the loop goes on. */
    method ExecuteAsync(seedNow: int, beats: seq<Beat>) returns (r: Outcome)
      modifies this`messageCount, stateManager`state, stateManager.bus`published, stateManager.bus`fault
      ensures var seed := RunWrites(old(stateManager.state), stateManager.identity, seedNow, old(stateManager.bus.fault),
                                    SeedWrites);
              && r == seed.outcome
              && stateManager.state == seed.state
              && (seed.outcome.Fail? ==>
                    messageCount == old(messageCount)
                    && stateManager.bus.published == old(stateManager.bus.published) + seed.sent)
              && (seed.outcome.Pass? ==>
                    messageCount == old(messageCount) + |beats|
                    && stateManager.bus.published
                         == old(stateManager.bus.published) + seed.sent
                            + HeartbeatLog(stateManager.identity, seed.state, startTime, old(messageCount), beats))
    {
      var sm := stateManager;
      var bus: Bus := sm.bus;
      ghost var seed := RunWrites(sm.state, sm.identity, seedNow, bus.fault, SeedWrites);
      r := InitializeStateAsync(seedNow);
      if r.Fail? { return; }
      ghost var count0 := old(messageCount);
      ghost var before := bus.published;
      assert before == old(bus.published) + seed.sent && sm.state == seed.state;
      var i := 0;
      while i < |beats|
        invariant 0 <= i <= |beats|
        invariant messageCount == count0 + i
        invariant bus.published == before + HeartbeatLog(sm.identity, seed.state, startTime, count0, beats[..i])
        invariant r == Pass
        modifies this`messageCount, bus`published, bus`fault
      {
        assert beats[..i + 1] == beats[..i] + [beats[i]];
        HeartbeatLogSnoc(sm.identity, seed.state, startTime, count0, beats[..i], beats[i]);
        bus.SetFault(beats[i].fault);
        var _ := PublishHeartbeatAsync(beats[i].now);
        i := i + 1;
      }
      assert beats[..|beats|] == beats;
    }
  }
}
