/**
 The acquisition core: one worker per device and one monitor share the latest snapshots
 and the alarm states under a lock, and write what they produced to the cache afterwards,
 one cache operation at a time, without it.
 */
module Acquisition {
  import opened Wrappers
  import opened Frame
  import opened Text
  import opened Time
  import opened Points
  import opened Alarms
  import opened AlarmProperties
  import opened Cache

  /** The clock readings of a monitor pass, per device. */
  type Clocks = string -> Clock

  datatype Device = Device(id: string, name: string, points: seq<PointDefinition>)

  datatype Config = Config(devices: seq<Device>, formatter: Formatter, maxRecords: nat)

  /** One information object as the client hands it over. */
  datatype Reading = Reading(address: int, iecType: string, value: Double, state: bool, quality: Quality)

  /** The value of a decoded object; reading a short float's four octets is left to the caller. */
  function ReadingOf(content: InfoObject, float: seq<Octet> -> Double): Reading {
    match content.element
    case SinglePoint(state) =>
      Reading(content.address, "M_SP_NA_1", Finite(if state then 1.0 else 0.0), state, content.quality)
    case Scaled(value) => Reading(content.address, "M_ME_NB_1", Finite(value as real), false, content.quality)
    case ShortFloat(raw) => Reading(content.address, "M_ME_NC_1", float(raw), false, content.quality)
  }

  // ------------------------------------------------------------- pure helpers

  /** The first configured point with this address, or a fallback of unknown type. */
  function DefinitionFor(device: Device, points: seq<PointDefinition>, address: int): PointDefinition {
    if points == [] then
      PointDefinition(address, device.id + " IOA " + Decimal(address), "unknown", "", None, None, None, None, None, 30)
    else if points[0].address == address then points[0]
    else DefinitionFor(device, points[1..], address)
  }

  function Definition(device: Device, address: int): PointDefinition {
    DefinitionFor(device, device.points, address)
  }

  function SnapshotOf(device: Device, reading: Reading, at: int): Snapshot {
    var definition := Definition(device, reading.address);
    var configured := PointTypeOf(definition.typeName);
    var pointType :=
      if configured != UnknownType then configured else if reading.iecType == "M_SP_NA_1" then Digital else Analog;
    Snapshot(device.id, device.name, reading.address,
             if definition.name == "" then "IOA " + Decimal(reading.address) else definition.name,
             pointType, reading.iecType, definition.unit, reading.value, reading.state, reading.quality, at)
  }

  function AnalogText(formatter: Formatter, snapshot: Snapshot): string {
    formatter.fixed(snapshot.value) + if snapshot.unit == "" then "" else " " + snapshot.unit
  }

  function BusinessOf(formatter: Formatter, definition: PointDefinition, snapshot: Snapshot): BusinessRecord {
    var businessType := BusinessTypeOf(snapshot.pointType);
    BusinessRecord(businessType, snapshot,
                   match businessType
                   case Telemetry => AnalogText(formatter, snapshot)
                   case Telesignal => if snapshot.state then "CLOSED" else "OPEN"
                   case Telecontrol => if snapshot.state then "CLOSE_COMMAND" else "OPEN_COMMAND"
                   case UnknownBusiness => definition.typeName + ":" + AnalogText(formatter, snapshot))
  }

  function Attach(events: seq<AlarmEvent>, device: Device): seq<AlarmEvent> {
    if events == [] then []
    else [events[0].(deviceId := device.id, deviceName := device.name)] + Attach(events[1..], device)
  }

  function AlarmWrites(events: seq<AlarmEvent>): (ops: seq<Op>)
    ensures |ops| == |events|
  {
    if events == [] then [] else [Write(Alarm(events[0]))] + AlarmWrites(events[1..])
  }

  function IsStale(snapshots: map<string, Snapshot>, deviceId: string, definition: PointDefinition, now: int): bool {
    var key := PointKey(deviceId, definition.address);
    key !in snapshots || WholeSeconds(now - snapshots[key].timestamp) > definition.staleSeconds
  }

  /** The staleness tests of the monitor on one device, in the order of its points. */
  function StaleCalls(snapshots: map<string, Snapshot>, deviceId: string, points: seq<PointDefinition>, now: int,
                      at: Clock): seq<Call>
  {
    if points == [] then []
    else [Staleness(points[0], IsStale(snapshots, deviceId, points[0], now), at)]
         + StaleCalls(snapshots, deviceId, points[1..], now, at)
  }

  // ------------------------------------------------------------- shared state

  datatype SystemState = SystemState(
    snapshots: map<string, Snapshot>, alarms: map<string, RuleState>,
    workers: map<string, seq<Op>>, monitor: seq<Op>,
    cache: CacheState, history: seq<Entry>)

  function Rules(s: SystemState, deviceId: string): RuleState {
    if deviceId in s.alarms then s.alarms[deviceId] else {}
  }

  function Pending(s: SystemState, deviceId: string): seq<Op> {
    if deviceId in s.workers then s.workers[deviceId] else []
  }

  function Initial(file: seq<string>): SystemState {
    SystemState(map[], map[], map[], [], CacheState(file, map[], []), [])
  }

  /**
   An atomic step: a worker's critical section, one cache operation of a worker, the monitor's critical section,
   one cache operation of the monitor.
   */
  datatype Action =
    | Sense(device: Device, reading: Reading, takenAt: int, at: Clock)
    | Flush(deviceId: string, visible: bool)
    | Patrol(now: int, clocks: Clocks)
    | FlushMonitor(visible: bool)

  predicate Enabled(config: Config, s: SystemState, action: Action) {
    match action
    case Sense(device, _, _, _) => device in config.devices && Pending(s, device.id) == []
    case Flush(deviceId, _) => Pending(s, deviceId) != []
    case Patrol(_, _) => s.monitor == []
    case FlushMonitor(_) => s.monitor != []
  }

  function SenseEvents(config: Config, active: RuleState, device: Device, snapshot: Snapshot, at: Clock)
    : seq<AlarmEvent>
  {
    var definition := Definition(device, snapshot.address);
    Attach(RunEvents(active, definition, Checks(config.formatter, definition, snapshot), at), device)
  }

  function SenseRules(config: Config, active: RuleState, device: Device, snapshot: Snapshot): RuleState {
    var definition := Definition(device, snapshot.address);
    RunState(active, definition, Checks(config.formatter, definition, snapshot))
  }

  /** What a worker writes after its critical section, in order. */
  function Batch(record: BusinessRecord, snapshot: Snapshot, events: seq<AlarmEvent>): seq<Op> {
    [Remember(record), Write(Business(record)), Latest(snapshot), Write(Measure(snapshot))] + AlarmWrites(events)
  }

  function SenseStep(config: Config, s: SystemState, device: Device, reading: Reading, takenAt: int, at: Clock)
    : SystemState
  {
    var snapshot := SnapshotOf(device, reading, takenAt);
    var record := BusinessOf(config.formatter, Definition(device, reading.address), snapshot);
    var events := SenseEvents(config, Rules(s, device.id), device, snapshot, at);
    s.(snapshots := s.snapshots[PointKey(device.id, snapshot.address) := snapshot],
       alarms := s.alarms[device.id := SenseRules(config, Rules(s, device.id), device, snapshot)],
       workers := s.workers[device.id := Batch(record, snapshot, events)])
  }

  function Logged(history: seq<Entry>, op: Op): seq<Entry> {
    if op.Write? then history + [op.entry] else history
  }

  function FlushStep(config: Config, s: SystemState, deviceId: string, visible: bool): SystemState
    requires Pending(s, deviceId) != []
  {
    var ops := Pending(s, deviceId);
    s.(workers := s.workers[deviceId := ops[1..]],
       cache := Apply(config.formatter, config.maxRecords, s.cache, ops[0], visible),
       history := Logged(s.history, ops[0]))
  }

  function PatrolRules(config: Config, devices: seq<Device>, snapshots: map<string, Snapshot>,
                       alarms: map<string, RuleState>, now: int, at: Clocks): map<string, RuleState>
    decreases |devices|
  {
    if devices == [] then alarms
    else
      var d := devices[0];
      var active := if d.id in alarms then alarms[d.id] else {};
      PatrolRules(config, devices[1..], snapshots,
                  alarms[d.id := CallsState(config.formatter, active,
                                            StaleCalls(snapshots, d.id, d.points, now, at(d.id)))], now, at)
  }

  function PatrolEvents(config: Config, devices: seq<Device>, snapshots: map<string, Snapshot>,
                        alarms: map<string, RuleState>, now: int, at: Clocks): seq<AlarmEvent>
    decreases |devices|
  {
    if devices == [] then []
    else
      var d := devices[0];
      var active := if d.id in alarms then alarms[d.id] else {};
      var calls := StaleCalls(snapshots, d.id, d.points, now, at(d.id));
      Attach(CallsEvents(config.formatter, active, calls), d)
      + PatrolEvents(config, devices[1..], snapshots, alarms[d.id := CallsState(config.formatter, active, calls)],
                     now, at)
  }

  function PatrolStep(config: Config, s: SystemState, now: int, at: Clocks): SystemState {
    s.(alarms := PatrolRules(config, config.devices, s.snapshots, s.alarms, now, at),
       monitor := AlarmWrites(PatrolEvents(config, config.devices, s.snapshots, s.alarms, now, at)))
  }

  function FlushMonitorStep(config: Config, s: SystemState, visible: bool): SystemState
    requires s.monitor != []
  {
    s.(monitor := s.monitor[1..],
       cache := Apply(config.formatter, config.maxRecords, s.cache, s.monitor[0], visible),
       history := Logged(s.history, s.monitor[0]))
  }

  function Step(config: Config, s: SystemState, action: Action): SystemState
    requires Enabled(config, s, action)
  {
    match action
    case Sense(device, reading, takenAt, at) => SenseStep(config, s, device, reading, takenAt, at)
    case Flush(deviceId, visible) => FlushStep(config, s, deviceId, visible)
    case Patrol(now, at) => PatrolStep(config, s, now, at)
    case FlushMonitor(visible) => FlushMonitorStep(config, s, visible)
  }

  ghost predicate Possible(config: Config, s: SystemState, actions: seq<Action>)
    decreases |actions|
  {
    actions == [] || (Enabled(config, s, actions[0]) && Possible(config, Step(config, s, actions[0]), actions[1..]))
  }

  ghost function After(config: Config, s: SystemState, actions: seq<Action>): SystemState
    requires Possible(config, s, actions)
    decreases |actions|
  {
    if actions == [] then s else After(config, Step(config, s, actions[0]), actions[1..])
  }

  // ------------------------------------------------------------ the program

  class DeviceContext {
    const definition: Device
    const alarms: AlarmManager

    constructor (definition: Device, formatter: Formatter)
      ensures this.definition == definition && fresh(alarms) && alarms.Valid() && alarms.active == {}
      ensures alarms.numbers == formatter
    {
      this.definition := definition;
      alarms := new AlarmManager(formatter);
    }
  }

  class ScadaSystem {
    const config: Config
    const contexts: seq<DeviceContext>
    const cache: DataCache
    var snapshots: map<string, Snapshot>

    /** Every device has its own alarm manager. */
    ghost predicate Valid()
      reads this, set c | c in contexts :: c.alarms
    {
      && |contexts| == |config.devices|
      && cache.formatter == config.formatter
      && (forall i, j :: 0 <= i < j < |contexts| ==> contexts[i].alarms != contexts[j].alarms)
      && (forall i :: 0 <= i < |contexts| ==>
            && contexts[i].definition == config.devices[i]
            && contexts[i].alarms.Valid() && contexts[i].alarms.numbers == config.formatter)
    }

    constructor (config: Config, contexts: seq<DeviceContext>, cache: DataCache)
      ensures this.config == config && this.contexts == contexts && this.cache == cache && snapshots == map[]
    {
      this.config, this.contexts, this.cache, snapshots := config, contexts, cache, map[];
    }

    method PointDefinitionFor(device: Device, address: int) returns (definition: PointDefinition)
      ensures definition == Definition(device, address)
    {
      var index := 0;
      while index < |device.points|
        invariant 0 <= index <= |device.points|
        invariant Definition(device, address) == DefinitionFor(device, device.points[index..], address)
      {
        if device.points[index].address == address {
          return device.points[index];
        }
        assert device.points[index..][1..] == device.points[index + 1..];
        index := index + 1;
      }
      return PointDefinition(address, device.id + " IOA " + Decimal(address), "unknown", "", None, None, None, None,
                             None, 30);
    }

    method AttachDevice(events: seq<AlarmEvent>, device: Device) returns (attached: seq<AlarmEvent>)
      ensures attached == Attach(events, device)
    {
      attached := [];
      for index := 0 to |events|
        invariant attached + Attach(events[index..], device) == Attach(events, device)
      {
        assert events[index..][1..] == events[index + 1..];
        attached := attached + [events[index].(deviceId := device.id, deviceName := device.name)];
      }
    }

    /** The worker's critical section: the new snapshot, the new alarm state, and the batch to be written after it. */
    method OnDataObject(index: nat, reading: Reading, takenAt: int, at: Clock) returns (batch: seq<Op>)
      requires Valid() && index < |contexts|
      modifies this`snapshots, contexts[index].alarms
      ensures Valid()
      ensures var device, active := config.devices[index], old(contexts[index].alarms.active);
              var snapshot := SnapshotOf(device, reading, takenAt);
              && snapshots == old(snapshots)[PointKey(device.id, reading.address) := snapshot]
              && contexts[index].alarms.active == SenseRules(config, active, device, snapshot)
              && batch == Batch(BusinessOf(config.formatter, Definition(device, reading.address), snapshot), snapshot,
                                SenseEvents(config, active, device, snapshot, at))
    {
      hide RunEvents, RunState, Checks, BusinessOf, Attach, AlarmManager.Valid, SnapshotOf, Definition, Batch, PointKey;
      var context := contexts[index];
      var device := context.definition;
      var definition := PointDefinitionFor(device, reading.address);
      var snapshot := SnapshotOf(device, reading, takenAt);
      SnapshotAddress(device, reading, takenAt);
      var record := BusinessOf(config.formatter, definition, snapshot);
      snapshots := snapshots[PointKey(device.id, snapshot.address) := snapshot];
      var events := context.alarms.Evaluate(definition, snapshot, at);
      events := AttachDevice(events, device);
      batch := Batch(record, snapshot, events);
    }

    /** The monitor's tests on one device: every configured point once, in order. */
    method PatrolDevice(index: nat, now: int, at: Clock) returns (events: seq<AlarmEvent>)
      requires Valid() && index < |contexts|
      modifies contexts[index].alarms
      ensures Valid()
      ensures var device := config.devices[index];
              var calls := StaleCalls(snapshots, device.id, device.points, now, at);
              && contexts[index].alarms.active == CallsState(config.formatter, old(contexts[index].alarms.active),
                                                             calls)
              && events == CallsEvents(config.formatter, old(contexts[index].alarms.active), calls)
    {
      hide Settled, TransitionEvents, IsStale, PointKey, AlarmManager.Valid, StaleCheck, StaleCalls, CallsState,
        CallsEvents;
      var alarms, device := contexts[index].alarms, contexts[index].definition;
      events := [];
      var point := 0;
      ghost var calls := StaleCalls(snapshots, device.id, device.points, now, at);
      ghost var initial := alarms.active;
      assert device.points[0..] == device.points;
      while point < |device.points|
        invariant 0 <= point <= |device.points| && Valid()
        invariant CallsState(config.formatter, alarms.active,
                             StaleCalls(snapshots, device.id, device.points[point..], now, at))
               == CallsState(config.formatter, initial, calls)
        invariant events
                  + CallsEvents(config.formatter, alarms.active,
                                StaleCalls(snapshots, device.id, device.points[point..], now, at))
               == CallsEvents(config.formatter, initial, calls)
      {
        var definition := device.points[point];
        var stale := IsStale(snapshots, device.id, definition, now);
        StaleCallsStep(snapshots, device.id, device.points, point, now, at);
        ghost var before := alarms.active;
        var generated := alarms.EvaluateStale(definition, stale, at(definition.address, Stale));
        StalenessRun(config.formatter, before, definition, stale, at,
                     StaleCalls(snapshots, device.id, device.points[point + 1..], now, at));
        events := events + generated;
        point := point + 1;
      }
      NoCalls(config.formatter, alarms.active, snapshots, device.id, device.points, now, at);
    }

    /** The alarm states of all devices, in the order of the configuration. */
    ghost function Actives(): (actives: seq<RuleState>)
      reads this, set c | c in contexts :: c.alarms
      ensures |actives| == |contexts|
    {
      seq(|contexts|,
          i requires 0 <= i < |contexts| reads set c | c in contexts :: c.alarms => contexts[i].alarms.active)
    }

    /** The monitor's critical section: every device in turn. */
    method MonitorPass(now: int, at: Clocks) returns (events: seq<AlarmEvent>)
      requires Valid()
      modifies set c | c in contexts :: c.alarms
      ensures Valid()
      ensures forall i :: 0 <= i < |contexts| ==>
                contexts[i].alarms.active == PassState(config, config.devices[i], snapshots,
                                                       old(contexts[i].alarms.active), now, at)
      ensures events == PassEvents(config, config.devices, snapshots, old(Actives()), now, at)
    {
      hide PassState, PassEvents, Attach, CallsEvents, StaleCalls, AlarmManager.Valid;
      events := [];
      var index := 0;
      ghost var before := Actives();
      NothingPassed(config, snapshots, now, at);
      while index < |contexts|
        invariant 0 <= index <= |contexts| && Valid()
        invariant forall i :: 0 <= i < index ==>
                    contexts[i].alarms.active == PassState(config, config.devices[i], snapshots, before[i], now, at)
        invariant forall i :: index <= i < |contexts| ==> contexts[i].alarms.active == before[i]
        invariant events == PassEvents(config, config.devices[..index], snapshots, before[..index], now, at)
      {
        PassEventsStep(config, snapshots, before, index, now, at);
        var generated := PatrolDevice(index, now, at(config.devices[index].id));
        IsPassState(config, config.devices[index], snapshots, before[index], now, at);
        generated := AttachDevice(generated, contexts[index].definition);
        events := events + generated;
        index := index + 1;
      }
      assert config.devices[..index] == config.devices && before[..index] == before;
    }

    /** Writes a worker's batch to the cache, call by call, each line with its own flush timing. */
    method WriteBatch(record: BusinessRecord, snapshot: Snapshot, events: seq<AlarmEvent>, first: bool, second: bool,
                      visible: seq<bool>)
      requires Valid() && |visible| == |events|
      modifies cache
      ensures cache.Contents()
           == ApplyAll(config.formatter, cache.maxRecords, old(cache.Contents()), Batch(record, snapshot, events),
                       [first, first, second, second] + visible)
      ensures cache.maxRecords == old(cache.maxRecords)
    {
      hide Apply;
      cache.AppendBusinessData(record, first);
      cache.AppendMeasurement(snapshot, second);
      ghost var head := [Remember(record), Write(Business(record)), Latest(snapshot), Write(Measure(snapshot))];
      HeadApplied(config.formatter, cache.maxRecords, old(cache.Contents()), record, snapshot, first, second);
      ApplyAllAppend(config.formatter, cache.maxRecords, old(cache.Contents()), head, AlarmWrites(events),
                     [first, first, second, second], visible);
      WriteAlarms(events, visible);
    }

    /** Writes alarm events to the cache, one line each: the monitor's whole batch, the end of a worker's. */
    method WriteAlarms(events: seq<AlarmEvent>, visible: seq<bool>)
      requires Valid() && |visible| == |events|
      modifies cache
      ensures cache.Contents()
           == ApplyAll(config.formatter, cache.maxRecords, old(cache.Contents()), AlarmWrites(events), visible)
      ensures cache.maxRecords == old(cache.maxRecords)
    {
      hide Apply;
      var index := 0;
      while index < |events|
        invariant 0 <= index <= |events| && cache.maxRecords == old(cache.maxRecords)
        invariant ApplyAll(config.formatter, cache.maxRecords, cache.Contents(), AlarmWrites(events[index..]),
                           visible[index..])
               == ApplyAll(config.formatter, cache.maxRecords, old(cache.Contents()), AlarmWrites(events), visible)
      {
        AlarmWritesStep(events, index);
        assert visible[index..][0] == visible[index] && visible[index..][1..] == visible[index + 1..];
        cache.AppendAlarm(events[index], visible[index]);
        index := index + 1;
      }
    }
  }

  lemma SnapshotAddress(device: Device, reading: Reading, takenAt: int)
    ensures SnapshotOf(device, reading, takenAt).address == reading.address
  {
  }

  lemma AlarmWritesStep(events: seq<AlarmEvent>, index: nat)
    requires index < |events|
    ensures AlarmWrites(events[index..]) != [] && AlarmWrites(events[index..])[0] == Write(Alarm(events[index]))
    ensures AlarmWrites(events[index..])[1..] == AlarmWrites(events[index + 1..])
  {
    assert events[index..][1..] == events[index + 1..];
  }

  lemma HeadApplied(formatter: Formatter, maxRecords: nat, c: CacheState, record: BusinessRecord, snapshot: Snapshot,
                    first: bool, second: bool)
    ensures var c1 := Apply(formatter, maxRecords, c, Remember(record), first);
            var c2 := Apply(formatter, maxRecords, c1, Write(Business(record)), first);
            var c3 := Apply(formatter, maxRecords, c2, Latest(snapshot), second);
            var c4 := Apply(formatter, maxRecords, c3, Write(Measure(snapshot)), second);
            ApplyAll(formatter, maxRecords, c,
                     [Remember(record), Write(Business(record)), Latest(snapshot), Write(Measure(snapshot))],
                     [first, first, second, second]) == c4
  {
    hide Apply;
    var o0, o1, o2, o3 := Remember(record), Write(Business(record)), Latest(snapshot), Write(Measure(snapshot));
    assert [o0, o1, o2, o3][1..] == [o1, o2, o3] && [o1, o2, o3][1..] == [o2, o3] && [o2, o3][1..] == [o3]
           && [o3][1..] == [];
    assert [first, first, second, second][1..] == [first, second, second]
           && [first, second, second][1..] == [second, second]
           && [second, second][1..] == [second] && [second][1..] == [];
    var c1 := Apply(formatter, maxRecords, c, o0, first);
    var c2 := Apply(formatter, maxRecords, c1, o1, first);
    var c3 := Apply(formatter, maxRecords, c2, o2, second);
    var c4 := Apply(formatter, maxRecords, c3, o3, second);
    assert ApplyAll(formatter, maxRecords, c3, [o3], [second]) == c4;
    assert ApplyAll(formatter, maxRecords, c2, [o2, o3], [second, second]) == c4;
    assert ApplyAll(formatter, maxRecords, c1, [o1, o2, o3], [first, second, second]) == c4;
  }

  /** The events of a monitor pass, device by device, from the alarm states before the pass. */
  function PassEvents(config: Config, devices: seq<Device>, snapshots: map<string, Snapshot>, actives: seq<RuleState>,
                      now: int, at: Clocks): seq<AlarmEvent>
    requires |devices| == |actives|
    decreases |devices|
  {
    if devices == [] then []
    else
      var d := devices[|devices| - 1];
      PassEvents(config, devices[..|devices| - 1], snapshots, actives[..|actives| - 1], now, at)
      + Attach(CallsEvents(config.formatter, actives[|actives| - 1],
                           StaleCalls(snapshots, d.id, d.points, now, at(d.id))), d)
  }

  /** The state a pass leaves a device in. */
  function PassState(config: Config, device: Device, snapshots: map<string, Snapshot>, active: RuleState, now: int,
                     at: Clocks)
    : RuleState
  {
    CallsState(config.formatter, active, StaleCalls(snapshots, device.id, device.points, now, at(device.id)))
  }

  lemma IsPassState(config: Config, device: Device, snapshots: map<string, Snapshot>, active: RuleState, now: int,
                    at: Clocks)
    ensures PassState(config, device, snapshots, active, now, at)
         == CallsState(config.formatter, active, StaleCalls(snapshots, device.id, device.points, now, at(device.id)))
  {
  }

  lemma NothingPassed(config: Config, snapshots: map<string, Snapshot>, now: int, at: Clocks)
    ensures PassEvents(config, [], snapshots, [], now, at) == []
  {
  }

  lemma PassEventsStep(config: Config, snapshots: map<string, Snapshot>, actives: seq<RuleState>, index: nat, now: int,
                       at: Clocks)
    requires index < |config.devices| == |actives|
    ensures var d := config.devices[index];
            PassEvents(config, config.devices[..index + 1], snapshots, actives[..index + 1], now, at)
            == PassEvents(config, config.devices[..index], snapshots, actives[..index], now, at)
               + Attach(CallsEvents(config.formatter, actives[index],
                                    StaleCalls(snapshots, d.id, d.points, now, at(d.id))), d)
  {
    hide CallsEvents, StaleCalls, Attach;
    assert config.devices[..index + 1][..index] == config.devices[..index];
    assert actives[..index + 1][..index] == actives[..index];
  }

  lemma StaleCallsStep(snapshots: map<string, Snapshot>, deviceId: string, points: seq<PointDefinition>, index: nat,
                       now: int, at: Clock)
    requires index < |points|
    ensures StaleCalls(snapshots, deviceId, points[index..], now, at)
         == [Staleness(points[index], IsStale(snapshots, deviceId, points[index], now), at)]
            + StaleCalls(snapshots, deviceId, points[index + 1..], now, at)
  {
    assert points[index..][1..] == points[index + 1..];
  }

  lemma NoCalls(numbers: Formatter, active: RuleState, snapshots: map<string, Snapshot>, deviceId: string,
                points: seq<PointDefinition>, now: int, at: Clock)
    ensures var calls := StaleCalls(snapshots, deviceId, points[|points|..], now, at);
            CallsState(numbers, active, calls) == active && CallsEvents(numbers, active, calls) == []
  {
  }

  /** One staleness test followed by others is one transition followed by the others. */
  lemma StalenessRun(numbers: Formatter, active: RuleState, definition: PointDefinition, stale: bool, at: Clock,
                     rest: seq<Call>)
    ensures var next := Settled(active, definition.address, Stale, stale);
            var calls := [Staleness(definition, stale, at)] + rest;
            && CallsState(numbers, active, calls) == CallsState(numbers, next, rest)
            && CallsEvents(numbers, active, calls)
               == TransitionEvents(active, definition, StaleCheck(stale), at(definition.address, Stale))
                   + CallsEvents(numbers, next, rest)
  {
    hide RunState, RunEvents, Settled, TransitionEvents;
    SingleCheck(active, definition, StaleCheck(stale), at);
    assert ([Staleness(definition, stale, at)] + rest)[1..] == rest;
  }

  lemma SingleCheck(active: RuleState, definition: PointDefinition, check: Check, at: Clock)
    ensures RunState(active, definition, [check]) == Settled(active, definition.address, check.rule, check.now)
    ensures RunEvents(active, definition, [check], at) == TransitionEvents(active, definition, check,
                                                                           at(definition.address, check.rule))
  {
    hide Settled, TransitionEvents;
    var next := Settled(active, definition.address, check.rule, check.now);
    assert [check][1..] == [];
    assert RunState(next, definition, []) == next && RunEvents(next, definition, [], at) == [];
  }

  /** A batch of operations, each with its own flush timing. */
  function ApplyAll(formatter: Formatter, maxRecords: nat, c: CacheState, ops: seq<Op>, visible: seq<bool>): CacheState
    requires |visible| == |ops|
    decreases |ops|
  {
    if ops == [] then c
    else ApplyAll(formatter, maxRecords, Apply(formatter, maxRecords, c, ops[0], visible[0]), ops[1..], visible[1..])
  }

  lemma {:induction false} ApplyAllAppend(formatter: Formatter, maxRecords: nat, c: CacheState, a: seq<Op>, b: seq<Op>,
                                          va: seq<bool>, vb: seq<bool>)
    requires |va| == |a| && |vb| == |b|
    ensures ApplyAll(formatter, maxRecords, c, a + b, va + vb)
         == ApplyAll(formatter, maxRecords, ApplyAll(formatter, maxRecords, c, a, va), b, vb)
    decreases |a|
  {
    hide Apply;
    if a == [] {
      assert a + b == b && va + vb == vb;
    } else {
      assert (a + b)[0] == a[0] && (a + b)[1..] == a[1..] + b;
      assert (va + vb)[0] == va[0] && (va + vb)[1..] == va[1..] + vb;
      ApplyAllAppend(formatter, maxRecords, Apply(formatter, maxRecords, c, a[0], va[0]), a[1..], b, va[1..], vb);
    }
  }
}
