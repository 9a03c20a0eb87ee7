/** A service's state store (ServiceStateManager) and the bus it publishes
    state-changed events on. The store is a key -> value map; SetStateAsync is
    a silent no-op when the key already holds an equal value, and otherwise
    overwrites the value first and publishes the change second.

    The pure part below (SetStep, RunWrites, Execute) is the specification
    the class's method and the control executors are proved against. */
module StateManager {
  import opened Values
  import opened Messages

  /** The message bus as a service sees it. `fault` is the broker's condition:
      None and Publish succeeds; Some(m) and Publish throws with message m. */
  class Bus {
    var fault: Option<string>
    var published: seq<BusMessage>

    constructor (fault: Option<string>)
      ensures this.fault == fault && published == []
    {
      this.fault := fault;
      published := [];
    }

    /** The broker becomes reachable or unreachable. */
    method SetFault(fault: Option<string>)
      modifies this`fault
      ensures this.fault == fault
    {
      this.fault := fault;
    }

    method Publish(m: BusMessage) returns (r: Outcome)
      modifies this`published
      ensures r == PublishOutcome(fault)
      ensures published == old(published) + (if fault.None? then [m] else [])
    {
      if fault.None? {
        published := published + [m];
        r := Pass;
      } else {
        r := Fail(fault.value);
      }
    }
  }

  function PublishOutcome(fault: Option<string>): Outcome
  {
    if fault.None? then Pass else Fail(fault.value)
  }

  // ---------------------------------------------------------------------
  // Specification of one SetStateAsync call and of a run of them

  /** One SetStateAsync(key, value, reason) call issued by an executor arm or by seeding. */
  datatype Write = Write(key: string, value: Value, reason: string)

  /** The store after a run of writes, what reached the bus, and whether a publish threw. */
  datatype StoreStep = StoreStep(state: map<string, Value>, sent: seq<BusMessage>, outcome: Outcome)

  /** The value `oldValue?.Equals(value) == true` compares: writing it changes nothing. */
  predicate Holds(s: map<string, Value>, key: string, value: Value)
  {
    key in s && s[key] == value
  }

  /** OldValue of the event: the stored value, or the string "null" when the key is absent. */
  function OldValueOf(s: map<string, Value>, key: string): Value
  {
    if key in s then s[key] else Str("null")
  }

  function ChangeEvent(id: ServiceIdentity, now: int, s: map<string, Value>, key: string, value: Value, reason: Option<string>): ServiceStateChanged
  {
    ServiceStateChanged(id.serviceId, id.serviceName, id.machineName, now, key, OldValueOf(s, key), value, reason)
  }

  /** One SetStateAsync call on store `s` while the bus is in condition `fault`. */
  function SetStep(s: map<string, Value>, id: ServiceIdentity, now: int, fault: Option<string>,
                   key: string, value: Value, reason: Option<string>): (r: StoreStep)
    ensures key in r.state && r.state[key] == value
    ensures forall k :: k != key ==> (k in r.state <==> k in s) && (k in s ==> r.state[k] == s[k])
    ensures Holds(s, key, value) ==> r == StoreStep(s, [], Pass)
    ensures !Holds(s, key, value) ==> r.outcome == PublishOutcome(fault)
    ensures |r.sent| == (if Holds(s, key, value) || fault.Some? then 0 else 1)
    ensures forall m :: m in r.sent ==> m == StateChangedMessage(ChangeEvent(id, now, s, key, value, reason))
  {
    if Holds(s, key, value) then StoreStep(s, [], Pass)
    else
      StoreStep(s[key := value],
                if fault.None? then [StateChangedMessage(ChangeEvent(id, now, s, key, value, reason))] else [],
                PublishOutcome(fault))
  }

  /** A sequence of awaited SetStateAsync calls: the first publish that throws
      ends the run, after its own value has been stored. */
  function RunWrites(s: map<string, Value>, id: ServiceIdentity, now: int, fault: Option<string>,
                     ws: seq<Write>): (r: StoreStep)
    ensures |r.sent| <= |ws|
    ensures r.outcome == Pass || r.outcome == PublishOutcome(fault)
    decreases |ws|
  {
    if ws == [] then StoreStep(s, [], Pass)
    else
      var first := SetStep(s, id, now, fault, ws[0].key, ws[0].value, Some(ws[0].reason));
      if first.outcome.Fail? then first
      else
        var rest := RunWrites(first.state, id, now, fault, ws[1..]);
        StoreStep(rest.state, first.sent + rest.sent, rest.outcome)
  }

  /** One awaited write is one SetStateAsync call. */
  lemma RunWritesSingle(s: map<string, Value>, id: ServiceIdentity, now: int, fault: Option<string>, w: Write)
    ensures RunWrites(s, id, now, fault, [w]) == SetStep(s, id, now, fault, w.key, w.value, Some(w.reason))
  {
    var first := SetStep(s, id, now, fault, w.key, w.value, Some(w.reason));
    assert [w][1..] == [];
    assert first.sent + [] == first.sent;
  }

  /** Two awaited writes: the second runs only when the first one's publish did not throw. */
  lemma RunWritesPair(s: map<string, Value>, id: ServiceIdentity, now: int, fault: Option<string>, w1: Write, w2: Write)
    ensures var first := SetStep(s, id, now, fault, w1.key, w1.value, Some(w1.reason));
            var second := SetStep(first.state, id, now, fault, w2.key, w2.value, Some(w2.reason));
            RunWrites(s, id, now, fault, [w1, w2])
              == if first.outcome.Fail? then first
                 else StoreStep(second.state, first.sent + second.sent, second.outcome)
  {
    assert [w1, w2][1..] == [w2];
    var first := SetStep(s, id, now, fault, w1.key, w1.value, Some(w1.reason));
    var second := SetStep(first.state, id, now, fault, w2.key, w2.value, Some(w2.reason));
    assert RunWrites(first.state, id, now, fault, [w2]) == StoreStep(second.state, second.sent + [], second.outcome);
    assert second.sent + [] == second.sent;
  }

  /** Three awaited writes: the first, then the other two unless its publish threw. */
  lemma RunWritesTriple(s: map<string, Value>, id: ServiceIdentity, now: int, fault: Option<string>,
                        w1: Write, w2: Write, w3: Write)
    ensures var first := SetStep(s, id, now, fault, w1.key, w1.value, Some(w1.reason));
            var rest := RunWrites(first.state, id, now, fault, [w2, w3]);
            RunWrites(s, id, now, fault, [w1, w2, w3])
              == if first.outcome.Fail? then first
                 else StoreStep(rest.state, first.sent + rest.sent, rest.outcome)
  {
    assert [w1, w2, w3][1..] == [w2, w3];
  }

  /** Running `a ++ b` is running `a` and then, unless a publish threw, running `b` from where `a` left the store. */
  lemma {:induction false} RunWritesAppend(s: map<string, Value>, id: ServiceIdentity, now: int, fault: Option<string>,
                                           a: seq<Write>, b: seq<Write>)
    ensures var ra := RunWrites(s, id, now, fault, a);
            var rb := RunWrites(ra.state, id, now, fault, b);
            RunWrites(s, id, now, fault, a + b)
              == if ra.outcome.Fail? then ra else StoreStep(rb.state, ra.sent + rb.sent, rb.outcome)
    decreases |a|
  {
    if a == [] {
      assert a + b == b;
      assert [] + RunWrites(s, id, now, fault, b).sent == RunWrites(s, id, now, fault, b).sent;
    } else {
      var first := SetStep(s, id, now, fault, a[0].key, a[0].value, Some(a[0].reason));
      assert (a + b)[0] == a[0];
      assert (a + b)[1..] == a[1..] + b;
      if first.outcome.Pass? {
        RunWritesAppend(first.state, id, now, fault, a[1..], b);
        var ra' := RunWrites(first.state, id, now, fault, a[1..]);
        var rb := RunWrites(ra'.state, id, now, fault, b);
        ConcatAssoc(first.sent, ra'.sent, rb.sent);
      }
    }
  }

  /** While the bus is up every write's publish succeeds, so a run never stops early. */
  lemma {:induction false} RunWritesBusUp(s: map<string, Value>, id: ServiceIdentity, now: int, ws: seq<Write>)
    ensures RunWrites(s, id, now, None, ws).outcome == Pass
    decreases |ws|
  {
    if ws != [] {
      var first := SetStep(s, id, now, None, ws[0].key, ws[0].value, Some(ws[0].reason));
      RunWritesBusUp(first.state, id, now, ws[1..]);
    }
  }

  predicate DistinctKeys(ws: seq<Write>)
  {
    forall i, j :: 0 <= i < j < |ws| ==> ws[i].key != ws[j].key
  }

  predicate WrittenKey(ws: seq<Write>, k: string)
  {
    exists i :: 0 <= i < |ws| && ws[i].key == k
  }

  /** A switch arm of a control executor: the writes it issues, in order,
      and the text it returns when none of them throws. */
  datatype Plan = Plan(writes: seq<Write>, result: string)

  /** Store, bus output and returned value of one ExecuteAsync call. */
  datatype Execution = Execution(state: map<string, Value>, sent: seq<BusMessage>, result: Result<string, Error>)

  /** Running an executor arm: a rejected command touches nothing; an accepted
      one performs its writes and returns its text unless a publish threw. */
  function Execute(planned: Result<Plan, Error>, s: map<string, Value>, id: ServiceIdentity, now: int,
                   fault: Option<string>): (e: Execution)
    ensures planned.Err? ==> e == Execution(s, [], Err(planned.error))
    ensures e.result.Ok? <==> planned.Ok? && RunWrites(s, id, now, fault, planned.value.writes).outcome.Pass?
    ensures e.result.Ok? ==> e.result.value == planned.value.result
  {
    match planned
    case Err(err) => Execution(s, [], Err(err))
    case Ok(plan) =>
      var run := RunWrites(s, id, now, fault, plan.writes);
      Execution(run.state, run.sent,
                if run.outcome.Pass? then Ok(plan.result) else Err(PublishFailed(run.outcome.message)))
  }

  // ---------------------------------------------------------------------
  // Properties of the store

  /** Setting a key to the value it already holds changes nothing and emits nothing. */
  lemma SetEqualIsSilent(s: map<string, Value>, id: ServiceIdentity, now: int, fault: Option<string>,
                         key: string, value: Value, reason: Option<string>)
    requires key in s && s[key] == value
    ensures SetStep(s, id, now, fault, key, value, reason) == StoreStep(s, [], Pass)
  {
  }

  /** Calling SetStateAsync(k, v) twice in a row: the store ends with k -> v,
      and the second call emits nothing, so at most one event is emitted in all
      (exactly one when the key did not already hold v and the bus is up). */
  lemma SetTwiceEmitsOnce(s: map<string, Value>, id: ServiceIdentity, now1: int, now2: int, fault: Option<string>,
                          key: string, value: Value, reason: Option<string>)
    ensures var first := SetStep(s, id, now1, fault, key, value, reason);
            var second := SetStep(first.state, id, now2, fault, key, value, reason);
            && second == StoreStep(first.state, [], Pass)
            && first.state[key] == value
            && |first.sent + second.sent| == (if Holds(s, key, value) || fault.Some? then 0 else 1)
  {
  }

  /** Setting an absent key always stores it, and the event reports OldValue "null". */
  lemma SetAbsentKey(s: map<string, Value>, id: ServiceIdentity, now: int,
                     key: string, value: Value, reason: Option<string>)
    requires key !in s
    ensures var r := SetStep(s, id, now, None, key, value, reason);
            && r.state == s[key := value]
            && r.sent == [StateChangedMessage(ServiceStateChanged(id.serviceId, id.serviceName, id.machineName,
                                                                  now, key, Str("null"), value, reason))]
  {
  }

  /** The value is stored before publishing: when the publish throws, the new
      value is kept although no event went out. */
  lemma StoredBeforePublish(s: map<string, Value>, id: ServiceIdentity, now: int, message: string,
                            key: string, value: Value, reason: Option<string>)
    requires !Holds(s, key, value)
    ensures SetStep(s, id, now, Some(message), key, value, reason) == StoreStep(s[key := value], [], Fail(message))
  {
  }

  /** A run leaves every key it does not write untouched. */
  lemma {:induction false} RunWritesFrame(s: map<string, Value>, id: ServiceIdentity, now: int, fault: Option<string>,
                                          ws: seq<Write>, k: string)
    requires !WrittenKey(ws, k)
    ensures var r := RunWrites(s, id, now, fault, ws);
            (k in r.state <==> k in s) && (k in s ==> r.state[k] == s[k])
    decreases |ws|
  {
    if ws != [] {
      var first := SetStep(s, id, now, fault, ws[0].key, ws[0].value, Some(ws[0].reason));
      assert ws[0].key != k by { assert 0 < |ws|; }
      if first.outcome.Pass? {
        forall i | 0 <= i < |ws[1..]| ensures ws[1..][i].key != k {
          assert ws[1..][i] == ws[i + 1];
        }
        RunWritesFrame(first.state, id, now, fault, ws[1..], k);
      }
    }
  }

  /** A run with distinct keys in which no publish threw leaves each written key holding its written value. */
  lemma {:induction false} RunWritesStores(s: map<string, Value>, id: ServiceIdentity, now: int, fault: Option<string>,
                                           ws: seq<Write>, i: int)
    requires DistinctKeys(ws)
    requires 0 <= i < |ws|
    requires RunWrites(s, id, now, fault, ws).outcome.Pass?
    ensures var r := RunWrites(s, id, now, fault, ws);
            ws[i].key in r.state && r.state[ws[i].key] == ws[i].value
    decreases |ws|
  {
    var first := SetStep(s, id, now, fault, ws[0].key, ws[0].value, Some(ws[0].reason));
    assert first.outcome.Pass?;
    var tail := ws[1..];
    assert DistinctKeys(tail) by {
      forall a, b | 0 <= a < b < |tail| ensures tail[a].key != tail[b].key {
        assert tail[a] == ws[a + 1] && tail[b] == ws[b + 1];
      }
    }
    if i == 0 {
      assert !WrittenKey(tail, ws[0].key) by {
        forall j | 0 <= j < |tail| ensures tail[j].key != ws[0].key {
          assert tail[j] == ws[j + 1];
        }
      }
      RunWritesFrame(first.state, id, now, fault, tail, ws[0].key);
    } else {
      assert tail[i - 1] == ws[i];
      RunWritesStores(first.state, id, now, fault, tail, i - 1);
    }
  }

  /** A run of writes to distinct keys, none of them stored yet, with the bus
      up: every write emits its own event, in order, with OldValue "null". */
  lemma {:induction false} RunOfFreshWrites(s: map<string, Value>, id: ServiceIdentity, now: int, ws: seq<Write>)
    requires DistinctKeys(ws)
    requires forall i :: 0 <= i < |ws| ==> ws[i].key !in s
    ensures var r := RunWrites(s, id, now, None, ws);
            && |r.sent| == |ws|
            && forall i :: 0 <= i < |ws| ==>
                 r.sent[i] == StateChangedMessage(ServiceStateChanged(id.serviceId, id.serviceName, id.machineName, now,
                                                                      ws[i].key, Str("null"), ws[i].value,
                                                                      Some(ws[i].reason)))
    decreases |ws|
  {
    if ws != [] {
      var first := SetStep(s, id, now, None, ws[0].key, ws[0].value, Some(ws[0].reason));
      assert ws[0].key !in s;
      var tail := ws[1..];
      assert DistinctKeys(tail) by {
        forall a, b | 0 <= a < b < |tail| ensures tail[a].key != tail[b].key {
          assert tail[a] == ws[a + 1] && tail[b] == ws[b + 1];
        }
      }
      forall i | 0 <= i < |tail| ensures tail[i].key !in first.state {
        assert tail[i] == ws[i + 1];
      }
      RunOfFreshWrites(first.state, id, now, tail);
      var rest := RunWrites(first.state, id, now, None, tail);
      var r := RunWrites(s, id, now, None, ws);
      assert r.sent == first.sent + rest.sent;
      forall i | 1 <= i < |ws| ensures r.sent[i] == rest.sent[i - 1] {
      }
      forall i | 1 <= i < |ws| ensures ws[i] == tail[i - 1] {
      }
    }
  }

  /** A run whose every write finds its value already stored changes nothing and emits nothing. */
  lemma {:induction false} RunOfHeldWritesIsSilent(s: map<string, Value>, id: ServiceIdentity, now: int,
                                                   fault: Option<string>, ws: seq<Write>)
    requires forall i :: 0 <= i < |ws| ==> Holds(s, ws[i].key, ws[i].value)
    ensures RunWrites(s, id, now, fault, ws) == StoreStep(s, [], Pass)
    decreases |ws|
  {
    if ws != [] {
      assert Holds(s, ws[0].key, ws[0].value);
      forall i | 0 <= i < |ws[1..]| ensures Holds(s, ws[1..][i].key, ws[1..][i].value) {
        assert ws[1..][i] == ws[i + 1];
      }
      RunOfHeldWritesIsSilent(s, id, now, fault, ws[1..]);
    }
  }

  /** Redelivery: repeating a completed run of writes to distinct keys changes
      nothing and emits no event, whatever the bus's condition. */
  lemma RerunIsSilent(s: map<string, Value>, id: ServiceIdentity, now1: int, now2: int,
                      fault1: Option<string>, fault2: Option<string>, ws: seq<Write>)
    requires DistinctKeys(ws)
    requires RunWrites(s, id, now1, fault1, ws).outcome.Pass?
    ensures var first := RunWrites(s, id, now1, fault1, ws);
            RunWrites(first.state, id, now2, fault2, ws) == StoreStep(first.state, [], Pass)
  {
    var first := RunWrites(s, id, now1, fault1, ws);
    forall i | 0 <= i < |ws| ensures Holds(first.state, ws[i].key, ws[i].value) {
      RunWritesStores(s, id, now1, fault1, ws, i);
    }
    RunOfHeldWritesIsSilent(first.state, id, now2, fault2, ws);
  }

  /** Executing the same accepted command twice leaves the store as after one
      execution; the second execution emits nothing and returns the same text. */
  lemma ReexecuteIsSilent(planned: Result<Plan, Error>, s: map<string, Value>, id: ServiceIdentity,
                          now1: int, now2: int, fault1: Option<string>, fault2: Option<string>)
    requires planned.Ok? ==> DistinctKeys(planned.value.writes)
    requires Execute(planned, s, id, now1, fault1).result.Ok?
    ensures var first := Execute(planned, s, id, now1, fault1);
            Execute(planned, first.state, id, now2, fault2) == Execution(first.state, [], first.result)
  {
    RerunIsSilent(s, id, now1, now2, fault1, fault2, planned.value.writes);
  }

  // ---------------------------------------------------------------------
  // The store

  class ServiceStateManager {
    const bus: Bus
    const identity: ServiceIdentity
    var state: map<string, Value>

    constructor (bus: Bus, identity: ServiceIdentity)
      ensures this.bus == bus && this.identity == identity && state == map[]
    {
      this.bus := bus;
      this.identity := identity;
      state := map[];
    }

    /** Stores `value` under `key` and publishes the change; silent when the
        key already holds an equal value. The Outcome is the exception Publish threw, if any. */
    method SetStateAsync(key: string, value: Value, reason: Option<string>, now: int) returns (r: Outcome)
      modifies this`state, bus`published
      ensures old(Holds(state, key, value)) ==> state == old(state) && bus.published == old(bus.published) && r == Pass
      ensures !old(Holds(state, key, value)) ==> state == old(state)[key := value]
      ensures var step := SetStep(old(state), identity, now, bus.fault, key, value, reason);
              state == step.state && bus.published == old(bus.published) + step.sent && r == step.outcome
    {
      var oldValue := if key in state then Some(state[key]) else None;
      if oldValue == Some(value) {
        return Pass;
      }
      state := state[key := value];
      var changed := ServiceStateChanged(identity.serviceId, identity.serviceName, identity.machineName, now, key,
                                         if oldValue.Some? then oldValue.value else Str("null"), value, reason);
      r := bus.Publish(StateChangedMessage(changed));
    }

    /** An executor arm's awaited SetStateAsync calls, one to three of them in
        order; the first publish that throws ends the arm. */
    method ApplyWrite(w: Write, now: int) returns (r: Outcome)
      modifies this`state, bus`published
      ensures var run := RunWrites(old(state), identity, now, bus.fault, [w]);
              state == run.state && bus.published == old(bus.published) + run.sent && r == run.outcome
    {
      RunWritesSingle(state, identity, now, bus.fault, w);
      r := SetStateAsync(w.key, w.value, Some(w.reason), now);
    }

    method ApplyWrites2(w1: Write, w2: Write, now: int) returns (r: Outcome)
      modifies this`state, bus`published
      ensures var run := RunWrites(old(state), identity, now, bus.fault, [w1, w2]);
              state == run.state && bus.published == old(bus.published) + run.sent && r == run.outcome
    {
      RunWritesPair(state, identity, now, bus.fault, w1, w2);
      r := SetStateAsync(w1.key, w1.value, Some(w1.reason), now);
      if r.Fail? { return; }
      r := SetStateAsync(w2.key, w2.value, Some(w2.reason), now);
    }

    method ApplyWrites3(w1: Write, w2: Write, w3: Write, now: int) returns (r: Outcome)
      modifies this`state, bus`published
      ensures var run := RunWrites(old(state), identity, now, bus.fault, [w1, w2, w3]);
              state == run.state && bus.published == old(bus.published) + run.sent && r == run.outcome
    {
      RunWritesTriple(state, identity, now, bus.fault, w1, w2, w3);
      r := SetStateAsync(w1.key, w1.value, Some(w1.reason), now);
      if r.Fail? { return; }
      r := ApplyWrites2(w2, w3, now);
    }

    /** GetState<T>: the stored value when the key is present and holds a T;
        None stands for default(T). */
    function GetState(key: string, kind: ValueKind): (r: Option<Value>)
      reads this
      ensures r.Some? <==> key in state && KindOf(state[key]) == kind
      ensures r.Some? ==> r.value == state[key] && KindOf(r.value) == kind
    {
      if key in state && KindOf(state[key]) == kind then Some(state[key]) else None
    }

    /** GetAllState: a copy of the store; as a map value it is not affected by later writes. */
    method GetAllState() returns (snapshot: map<string, Value>)
      ensures snapshot == state
    {
      snapshot := state;
    }
  }
}
