/**
 The tools for theorems about interleavings: which events are on their way, whose batches they are in, and a view of the
 system by one rule of one point, with what every kind of step does to that view.
 */
module AcquisitionProperties {
  import opened Points
  import opened Alarms
  import opened AlarmProperties
  import opened Cache
  import opened Acquisition

  ghost predicate DistinctIds(devices: seq<Device>) {
    forall i, j :: 0 <= i < j < |devices| ==> devices[i].id != devices[j].id
  }

  ghost predicate ValidConfig(config: Config) {
    BarFree(config.formatter) && DistinctIds(config.devices)
  }

  lemma SameDevice(config: Config, a: Device, b: Device)
    requires ValidConfig(config) && a in config.devices && b in config.devices && a.id == b.id
    ensures a == b
  {
  }

  // ----------------------------------------------------- events on their way out

  function AlarmsIn(ops: seq<Op>): seq<AlarmEvent> {
    if ops == [] then []
    else (if ops[0].Write? && ops[0].entry.Alarm? then [ops[0].entry.event] else []) + AlarmsIn(ops[1..])
  }

  function AlarmsOf(entries: seq<Entry>): seq<AlarmEvent> {
    if entries == [] then [] else (if entries[0].Alarm? then [entries[0].event] else []) + AlarmsOf(entries[1..])
  }

  lemma {:induction false} AlarmsOfAppend(a: seq<Entry>, b: seq<Entry>)
    ensures AlarmsOf(a + b) == AlarmsOf(a) + AlarmsOf(b)
    decreases |a|
  {
    if a == [] {
      assert a + b == b;
    } else {
      assert (a + b)[0] == a[0] && (a + b)[1..] == a[1..] + b;
      AlarmsOfAppend(a[1..], b);
    }
  }

  lemma {:induction false} AlarmsInWrites(events: seq<AlarmEvent>)
    ensures AlarmsIn(AlarmWrites(events)) == events
    decreases |events|
  {
    if events != [] {
      var rest := AlarmWrites(events[1..]);
      assert AlarmWrites(events) == [Write(Alarm(events[0]))] + rest && ([Write(Alarm(events[0]))] + rest)[1..] == rest;
      AlarmsInWrites(events[1..]);
    }
  }

  lemma NoAlarm(op: Op, ops: seq<Op>)
    requires op.Write? ==> !op.entry.Alarm?
    ensures AlarmsIn([op] + ops) == AlarmsIn(ops)
  {
    assert ([op] + ops)[1..] == ops;
  }

  lemma AlarmsInBatch(record: BusinessRecord, snapshot: Snapshot, events: seq<AlarmEvent>)
    ensures AlarmsIn(Batch(record, snapshot, events)) == events
  {
    AlarmsInWrites(events);
    var writes := AlarmWrites(events);
    var o0, o1, o2, o3 := Remember(record), Write(Business(record)), Latest(snapshot), Write(Measure(snapshot));
    NoAlarm(o3, writes);
    NoAlarm(o2, [o3] + writes);
    NoAlarm(o1, [o2] + ([o3] + writes));
    NoAlarm(o0, [o1] + ([o2] + ([o3] + writes)));
    assert Batch(record, snapshot, events) == [o0] + ([o1] + ([o2] + ([o3] + writes)));
  }

  // -------------------------------------------------------- whose events are whose

  ghost predicate Unattached(events: seq<AlarmEvent>) {
    forall e <- events :: e.deviceId == ""
  }

  lemma {:induction false} RunUnattached(active: RuleState, definition: PointDefinition, checks: seq<Check>, at: Clock)
    ensures Unattached(RunEvents(active, definition, checks, at))
    decreases |checks|
  {
    if checks != [] {
      RunUnattached(Settled(active, definition.address, checks[0].rule, checks[0].now), definition, checks[1..], at);
    }
  }

  ghost predicate OnlyStale(calls: seq<Call>) {
    forall c <- calls :: c.Staleness?
  }

  lemma {:induction false} StaleCallsOnlyStale(snapshots: map<string, Snapshot>, deviceId: string,
                                               points: seq<PointDefinition>, now: int, at: Clock)
    ensures OnlyStale(StaleCalls(snapshots, deviceId, points, now, at))
    decreases |points|
  {
    if points != [] {
      StaleCallsOnlyStale(snapshots, deviceId, points[1..], now, at);
    }
  }

  lemma {:induction false} CallsOnlyStale(numbers: Formatter, active: RuleState, calls: seq<Call>)
    requires OnlyStale(calls)
    ensures Unattached(CallsEvents(numbers, active, calls))
    ensures forall e <- CallsEvents(numbers, active, calls) :: e.rule == Stale
    decreases |calls|
  {
    hide TransitionEvents, Settled, RunState, RunEvents;
    if calls != [] {
      var call := calls[0];
      SingleCheck(active, call.definition, StaleCheck(call.stale), call.at);
      StaleEvents(active, call.definition, call.stale, call.at(call.definition.address, Stale));
      CallsOnlyStale(numbers, RunState(active, call.definition, ChecksOf(numbers, call)), calls[1..]);
    }
  }

  lemma StaleEvents(active: RuleState, definition: PointDefinition, stale: bool, at: int)
    ensures forall e <- TransitionEvents(active, definition, StaleCheck(stale), at) ::
              e.deviceId == "" && e.rule == Stale
  {
  }

  lemma {:induction false} AttachFlags(events: seq<AlarmEvent>, device: Device, key: AlarmKey)
    requires Unattached(events)
    ensures Flags(Attach(events, device), key)
         == if key.deviceId == device.id then Flags(events, key.(deviceId := "")) else []
    ensures forall e <- Attach(events, device) :: e.deviceId == device.id
    ensures (forall e <- events :: e.rule == Stale) ==> forall e <- Attach(events, device) :: e.rule == Stale
    decreases |events|
  {
    if events != [] {
      AttachFlags(events[1..], device, key);
      assert Attach(events, device)[1..] == Attach(events[1..], device);
    }
  }

  lemma {:induction false} NoFlagsOf(events: seq<AlarmEvent>, key: AlarmKey)
    requires forall e <- events :: KeyOf(e) != key
    ensures Flags(events, key) == []
    decreases |events|
  {
    if events != [] {
      NoFlagsOf(events[1..], key);
    }
  }

  /** Cache operations name the device whose worker issued them. */
  function DeviceOf(op: Op): string {
    match op
    case Remember(record) => record.snapshot.deviceId
    case Latest(snapshot) => snapshot.deviceId
    case Write(Measure(snapshot)) => snapshot.deviceId
    case Write(Business(record)) => record.snapshot.deviceId
    case Write(Alarm(event)) => event.deviceId
  }

  /** Workers write only about their own device, the monitor only staleness. */
  ghost predicate Owned(s: SystemState) {
    && (forall id, op | op in Pending(s, id) :: DeviceOf(op) == id)
    && (forall op <- s.monitor :: op.Write? && op.entry.Alarm? && op.entry.event.rule == Stale)
  }

  lemma {:induction false} WritesOwned(events: seq<AlarmEvent>, deviceId: string)
    requires forall e <- events :: e.deviceId == deviceId
    ensures forall op <- AlarmWrites(events) :: DeviceOf(op) == deviceId
    decreases |events|
  {
    if events != [] {
      WritesOwned(events[1..], deviceId);
    }
  }

  lemma {:induction false} WritesStale(events: seq<AlarmEvent>)
    requires forall e <- events :: e.rule == Stale
    ensures forall op <- AlarmWrites(events) :: op.Write? && op.entry.Alarm? && op.entry.event.rule == Stale
    decreases |events|
  {
    if events != [] {
      WritesStale(events[1..]);
    }
  }

  // ------------------------------------------------------------ a pass of the monitor

  function RulesIn(alarms: map<string, RuleState>, deviceId: string): RuleState {
    if deviceId in alarms then alarms[deviceId] else {}
  }

  lemma {:induction false} PassEventsStale(config: Config, devices: seq<Device>, snapshots: map<string, Snapshot>,
                                           alarms: map<string, RuleState>, now: int, at: Clocks)
    ensures forall e <- PatrolEvents(config, devices, snapshots, alarms, now, at) :: e.rule == Stale
    decreases |devices|
  {
    hide CallsState, CallsEvents, Attach, StaleCalls;
    if devices != [] {
      var d := devices[0];
      var active, calls := RulesIn(alarms, d.id), StaleCalls(snapshots, d.id, d.points, now, at(d.id));
      StaleCallsOnlyStale(snapshots, d.id, d.points, now, at(d.id));
      CallsOnlyStale(config.formatter, active, calls);
      AttachFlags(CallsEvents(config.formatter, active, calls), d, AlarmKey("", 0, Stale));
      PassEventsStale(config, devices[1..], snapshots, alarms[d.id := CallsState(config.formatter, active, calls)],
                      now, at);
    }
  }

  /** The events of a pass lead every rule of every device from its state before the pass to its state after it. */
  lemma {:induction false} PassChained(config: Config, devices: seq<Device>, snapshots: map<string, Snapshot>,
                                       alarms: map<string, RuleState>, now: int, at: Clocks, id: string, address: int,
                                       rule: Rule)
    ensures Chained(Flags(PatrolEvents(config, devices, snapshots, alarms, now, at), AlarmKey(id, address, rule)),
                    (address, rule) in RulesIn(alarms, id),
                    (address, rule) in RulesIn(PatrolRules(config, devices, snapshots, alarms, now, at), id))
    decreases |devices|
  {
    hide CallsState, CallsEvents, Attach, StaleCalls, Chained;
    if devices == [] {
      NoFlags((address, rule) in RulesIn(alarms, id));
    } else {
      var d, key := devices[0], AlarmKey(id, address, rule);
      var active, calls := RulesIn(alarms, d.id), StaleCalls(snapshots, d.id, d.points, now, at(d.id));
      var next := alarms[d.id := CallsState(config.formatter, active, calls)];
      var events := CallsEvents(config.formatter, active, calls);
      var first, rest := Attach(events, d), PatrolEvents(config, devices[1..], snapshots, next, now, at);
      StaleCallsOnlyStale(snapshots, d.id, d.points, now, at(d.id));
      CallsOnlyStale(config.formatter, active, calls);
      AttachFlags(events, d, key);
      CallsChained(config.formatter, active, calls, address, rule);
      NoFlags((address, rule) in RulesIn(alarms, id));
      PassChained(config, devices[1..], snapshots, next, now, at, id, address, rule);
      FlagsAppend(first, rest, key);
      ChainedAppend(Flags(first, key), Flags(rest, key), (address, rule) in RulesIn(alarms, id),
                    (address, rule) in RulesIn(next, id),
                    (address, rule) in RulesIn(PatrolRules(config, devices[1..], snapshots, next, now, at), id));
    }
  }

  // -------------------------------------------------------------- one rule's view

  /** Everything the system knows of one rule of one point: logged, pending in the worker, pending in the monitor,
      active. */
  datatype View = View(logged: seq<bool>, worker: seq<bool>, monitor: seq<bool>, active: bool)

  function ViewOf(s: SystemState, key: AlarmKey): View {
    View(Flags(AlarmsOf(s.history), key), Flags(AlarmsIn(Pending(s, key.deviceId)), key),
         Flags(AlarmsIn(s.monitor), key),
         (key.address, key.rule) in Rules(s, key.deviceId))
  }

  ghost predicate Sensed(v: View, w: View) {
    v.worker == [] && w.logged == v.logged && w.monitor == v.monitor && Chained(w.worker, v.active, w.active)
  }

  ghost predicate Patrolled(v: View, w: View) {
    v.monitor == [] && w.logged == v.logged && w.worker == v.worker && Chained(w.monitor, v.active, w.active)
  }

  ghost predicate WorkerLogged(v: View, w: View, out: seq<bool>) {
    w == v.(logged := v.logged + out, worker := w.worker) && v.worker == out + w.worker
  }

  ghost predicate MonitorLogged(v: View, w: View, out: seq<bool>) {
    w == v.(logged := v.logged + out, monitor := w.monitor) && v.monitor == out + w.monitor
  }

  lemma SenseView(config: Config, s: SystemState, device: Device, reading: Reading, takenAt: int, at: Clock,
                  key: AlarmKey)
    requires Pending(s, device.id) == []
    ensures var t := SenseStep(config, s, device, reading, takenAt, at);
            if key.deviceId == device.id then Sensed(ViewOf(s, key), ViewOf(t, key))
            else ViewOf(t, key) == ViewOf(s, key)
  {
    hide Checks, RunEvents, RunState, Attach, Batch, BusinessOf, Definition, Chained, Flags;
    var snapshot := SnapshotOf(device, reading, takenAt);
    var definition := Definition(device, snapshot.address);
    var checks, active := Checks(config.formatter, definition, snapshot), Rules(s, device.id);
    var raw := RunEvents(active, definition, checks, at);
    if key.deviceId == device.id {
      AlarmsInBatch(BusinessOf(config.formatter, Definition(device, reading.address), snapshot), snapshot,
                    Attach(raw, device));
      RunUnattached(active, definition, checks, at);
      AttachFlags(raw, device, key);
      RunChained(active, definition, checks, at, key.address, key.rule);
      EmptyFlags(key);
    }
  }

  lemma EmptyFlags(key: AlarmKey)
    ensures Flags([], key) == [] && AlarmsIn([]) == []
  {
  }

  lemma PatrolView(config: Config, s: SystemState, now: int, at: Clocks, key: AlarmKey)
    requires s.monitor == []
    ensures var t := PatrolStep(config, s, now, at);
            Patrolled(ViewOf(s, key), ViewOf(t, key)) && (key.rule != Stale ==> ViewOf(t, key) == ViewOf(s, key))
  {
    hide PatrolEvents, PatrolRules, Flags, Chained;
    var events := PatrolEvents(config, config.devices, s.snapshots, s.alarms, now, at);
    AlarmsInWrites(events);
    EmptyFlags(key);
    PassChained(config, config.devices, s.snapshots, s.alarms, now, at, key.deviceId, key.address, key.rule);
    PassEventsStale(config, config.devices, s.snapshots, s.alarms, now, at);
    if key.rule != Stale {
      NoFlagsOf(events, key);
      EmptyChain((key.address, key.rule) in Rules(s, key.deviceId),
                 (key.address, key.rule) in RulesIn(PatrolRules(config, config.devices, s.snapshots, s.alarms, now,
                                                                at), key.deviceId));
    }
  }

  lemma EmptyChain(before: bool, after: bool)
    requires Chained([], before, after)
    ensures before == after
  {
  }

  /** Moving one operation from a queue to the log moves its flags along. */
  lemma Moved(ops: seq<Op>, history: seq<Entry>, key: AlarmKey)
    requires ops != []
    ensures var out := Flags(AlarmsIn(ops[..1]), key);
            && Flags(AlarmsOf(Logged(history, ops[0])), key) == Flags(AlarmsOf(history), key) + out
            && Flags(AlarmsIn(ops), key) == out + Flags(AlarmsIn(ops[1..]), key)
            && (DeviceOf(ops[0]) != key.deviceId ==> out == [])
  {
    var op := ops[0];
    assert AlarmsIn(ops[..1]) == if op.Write? && op.entry.Alarm? then [op.entry.event] else [];
    assert AlarmsIn(ops) == AlarmsIn(ops[..1]) + AlarmsIn(ops[1..]);
    FlagsAppend(AlarmsIn(ops[..1]), AlarmsIn(ops[1..]), key);
    if op.Write? {
      AlarmsOfAppend(history, [op.entry]);
      assert AlarmsOf([op.entry]) == AlarmsIn(ops[..1]);
      FlagsAppend(AlarmsOf(history), AlarmsOf([op.entry]), key);
    }
    if DeviceOf(op) != key.deviceId {
      NoFlagsOf(AlarmsIn(ops[..1]), key);
    }
  }

  lemma FlushView(config: Config, s: SystemState, deviceId: string, visible: bool, key: AlarmKey)
    returns (out: seq<bool>)
    requires Owned(s) && Pending(s, deviceId) != []
    ensures var t := FlushStep(config, s, deviceId, visible);
            if key.deviceId == deviceId then WorkerLogged(ViewOf(s, key), ViewOf(t, key), out)
            else ViewOf(t, key) == ViewOf(s, key)
  {
    hide Flags, AlarmsIn, AlarmsOf, Apply, DeviceOf, Logged;
    var ops := Pending(s, deviceId);
    out := Flags(AlarmsIn(ops[..1]), key);
    assert ops[0] in ops;
    Moved(ops, s.history, key);
  }

  lemma FlushMonitorView(config: Config, s: SystemState, visible: bool, key: AlarmKey) returns (out: seq<bool>)
    requires s.monitor != []
    ensures MonitorLogged(ViewOf(s, key), ViewOf(FlushMonitorStep(config, s, visible), key), out)
  {
    hide Flags, AlarmsIn, AlarmsOf, Apply, DeviceOf, Logged;
    out := Flags(AlarmsIn(s.monitor[..1]), key);
    Moved(s.monitor, s.history, key);
  }

  // ---------------------------------------------------------- ownership is kept

  lemma OwnedKept(config: Config, s: SystemState, action: Action)
    requires Owned(s) && Enabled(config, s, action)
    ensures Owned(Step(config, s, action))
  {
    hide SenseStep, FlushStep, PatrolStep, FlushMonitorStep, Owned;
    match action
    case Sense(device, reading, takenAt, at) => SenseOwned(config, s, device, reading, takenAt, at);
    case Flush(deviceId, visible) => FlushOwned(config, s, deviceId, visible);
    case Patrol(now, at) => PatrolOwned(config, s, now, at);
    case FlushMonitor(visible) => FlushMonitorOwned(config, s, visible);
  }

  lemma PatrolOwned(config: Config, s: SystemState, now: int, at: Clocks)
    requires Owned(s)
    ensures Owned(PatrolStep(config, s, now, at))
  {
    hide DeviceOf, PatrolEvents, PatrolRules;
    PassEventsStale(config, config.devices, s.snapshots, s.alarms, now, at);
    WritesStale(PatrolEvents(config, config.devices, s.snapshots, s.alarms, now, at));
    var t := PatrolStep(config, s, now, at);
    forall id, op | op in Pending(t, id) ensures DeviceOf(op) == id {
      assert op in Pending(s, id);
    }
  }

  lemma FlushMonitorOwned(config: Config, s: SystemState, visible: bool)
    requires Owned(s) && s.monitor != []
    ensures Owned(FlushMonitorStep(config, s, visible))
  {
    hide DeviceOf, Apply, Logged;
    var t := FlushMonitorStep(config, s, visible);
    forall id, op | op in Pending(t, id) ensures DeviceOf(op) == id {
      assert op in Pending(s, id);
    }
  }

  lemma SenseOwned(config: Config, s: SystemState, device: Device, reading: Reading, takenAt: int, at: Clock)
    requires Owned(s)
    ensures Owned(SenseStep(config, s, device, reading, takenAt, at))
  {
    hide Checks, RunEvents, RunState, Attach, Definition, AlarmWrites;
    var snapshot := SnapshotOf(device, reading, takenAt);
    var definition := Definition(device, snapshot.address);
    var record := BusinessOf(config.formatter, Definition(device, reading.address), snapshot);
    var events := SenseEvents(config, Rules(s, device.id), device, snapshot, at);
    RunUnattached(Rules(s, device.id), definition, Checks(config.formatter, definition, snapshot), at);
    AttachFlags(RunEvents(Rules(s, device.id), definition, Checks(config.formatter, definition, snapshot), at), device,
                AlarmKey("", 0, Stale));
    WritesOwned(events, device.id);
    var t := SenseStep(config, s, device, reading, takenAt, at);
    forall id, op | op in Pending(t, id) ensures DeviceOf(op) == id {
      if id == device.id {
        assert Pending(t, id) == Batch(record, snapshot, events);
      } else {
        assert op in Pending(s, id);
      }
    }
  }

  lemma FlushOwned(config: Config, s: SystemState, deviceId: string, visible: bool)
    requires Owned(s) && Pending(s, deviceId) != []
    ensures Owned(FlushStep(config, s, deviceId, visible))
  {
    hide Apply, DeviceOf, Logged;
    var t := FlushStep(config, s, deviceId, visible);
    forall id, op | op in Pending(t, id) ensures DeviceOf(op) == id {
      assert op in Pending(s, id);
    }
  }
}
