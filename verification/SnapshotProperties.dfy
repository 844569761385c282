/**
 Alarm states, the latest-value cache and the log as functions of the snapshots, in every
 interleaving; what a monitor pass settles about staleness; and that a step of one device
 leaves every other device alone.
 */
module SnapshotProperties {
  import opened Wrappers
  import opened Text
  import opened Time
  import opened Points
  import opened Alarms
  import opened AlarmProperties
  import opened Cache
  import opened Acquisition
  import opened AcquisitionProperties

  function Lookup(m: map<string, Snapshot>, key: string): Option<Snapshot> {
    if key in m then Some(m[key]) else None
  }

  lemma {:induction false} DefinitionAddress(device: Device, points: seq<PointDefinition>, address: int)
    ensures DefinitionFor(device, points, address).address == address
    decreases |points|
  {
    if points != [] {
      DefinitionAddress(device, points[1..], address);
    }
  }

  // ------------------------------------------------------- rules follow snapshots

  /** The rules of a point say what its snapshot demands, and nothing if it has none. */
  ghost predicate RuleFollows(s: SystemState, device: Device, address: int, rule: Rule) {
    var latest := Lookup(s.snapshots, PointKey(device.id, address));
    (address, rule) in Rules(s, device.id) <==>
    latest.Some? && Demanded(Definition(device, address), latest.value, rule)
  }

  lemma SenseRuleFollows(config: Config, s: SystemState, sensed: Device, reading: Reading, takenAt: int, at: Clock,
                         device: Device, address: int, rule: Rule)
    requires ValidConfig(config) && device in config.devices && sensed in config.devices
    requires rule != Stale && RuleFollows(s, device, address, rule)
    ensures RuleFollows(SenseStep(config, s, sensed, reading, takenAt, at), device, address, rule)
  {
    hide Checks, RunState, Batch, BusinessOf, SenseEvents, Demanded, Watched, PointKey, DefinitionFor;
    var t := SenseStep(config, s, sensed, reading, takenAt, at);
    var snapshot := SnapshotOf(sensed, reading, takenAt);
    if PointKey(sensed.id, reading.address) == PointKey(device.id, address) {
      PointKeyInjective(sensed.id, reading.address, device.id, address);
    }
    if sensed.id == device.id {
      SameDevice(config, sensed, device);
      var definition := Definition(device, reading.address);
      DefinitionAddress(device, device.points, reading.address);
      EvaluationSettles(config.formatter, Rules(s, device.id), definition, snapshot, address, rule);
      DemandsExclude(definition, snapshot);
      var latest := Lookup(s.snapshots, PointKey(device.id, address));
      if latest.Some? {
        DemandsExclude(definition, latest.value);
      }
    }
  }

  lemma PatrolRuleFollows(config: Config, s: SystemState, now: int, at: Clocks, device: Device, address: int,
                          rule: Rule)
    requires s.monitor == [] && rule != Stale && RuleFollows(s, device, address, rule)
    ensures RuleFollows(PatrolStep(config, s, now, at), device, address, rule)
  {
    hide PatrolRules, PatrolEvents, Demanded, PointKey, DefinitionFor, Flags, AlarmsIn, AlarmsOf;
    PatrolView(config, s, now, at, AlarmKey(device.id, address, rule));
  }

  lemma {:induction false} RunRuleFollows(config: Config, s: SystemState, actions: seq<Action>, device: Device,
                                          address: int, rule: Rule)
    requires ValidConfig(config) && device in config.devices && rule != Stale
    requires Possible(config, s, actions) && RuleFollows(s, device, address, rule)
    ensures RuleFollows(After(config, s, actions), device, address, rule)
    decreases |actions|
  {
    hide ValidConfig, PatrolStep, SenseStep, Apply, Demanded, PointKey, DefinitionFor;
    if actions != [] {
      match actions[0] {
        case Sense(sensed, reading, takenAt, at) =>
          SenseRuleFollows(config, s, sensed, reading, takenAt, at, device, address, rule);
        case Patrol(now, at) => PatrolRuleFollows(config, s, now, at, device, address, rule);
        case _ =>
      }
      RunRuleFollows(config, Step(config, s, actions[0]), actions[1..], device, address, rule);
    }
  }

  /** Between critical sections of any interleaving, the active rules of a point other than STALE are a function of
      its definition and its snapshot. */
  lemma RulesFollowSnapshots(config: Config, file: seq<string>, actions: seq<Action>, device: Device, address: int,
                             rule: Rule)
    requires ValidConfig(config) && device in config.devices && rule != Stale
             && Possible(config, Initial(file), actions)
    ensures var s := After(config, Initial(file), actions);
            var key := PointKey(device.id, address);
            (address, rule) in Rules(s, device.id) <==>
            key in s.snapshots && Demanded(Definition(device, address), s.snapshots[key], rule)
  {
    hide After, Possible, Demanded, DefinitionFor, PointKey;
    RunRuleFollows(config, Initial(file), actions, device, address, rule);
  }

  // ---------------------------------------------------------------- staleness

  /** When a difference of clock readings counts as stale, for any configured limit. */
  lemma StaleExactly(elapsed: int, limit: int)
    ensures WholeSeconds(elapsed) > limit <==>
            if limit >= 0 then elapsed >= (limit + 1) * 1_000_000_000 else elapsed > limit * 1_000_000_000
  {
    var whole := if elapsed >= 0 then elapsed / TICKS_PER_SECOND else -elapsed / TICKS_PER_SECOND;
    if elapsed >= 0 {
      assert TICKS_PER_SECOND * whole <= elapsed < TICKS_PER_SECOND * (whole + 1);
    } else {
      assert TICKS_PER_SECOND * whole <= -elapsed < TICKS_PER_SECOND * (whole + 1);
    }
  }

  ghost predicate DistinctAddresses(points: seq<PointDefinition>) {
    forall i, j :: 0 <= i < j < |points| ==> points[i].address != points[j].address
  }

  /** The staleness tests of one device settle STALE of each configured point, and of no other. */
  lemma {:induction false} StaleCallsSettle(numbers: Formatter, active: RuleState, snapshots: map<string, Snapshot>,
                                            deviceId: string, points: seq<PointDefinition>, now: int, at: Clock,
                                            address: int)
    requires DistinctAddresses(points)
    ensures (address, Stale) in CallsState(numbers, active, StaleCalls(snapshots, deviceId, points, now, at)) <==>
            if exists p <- points :: p.address == address
            then exists p <- points :: p.address == address && IsStale(snapshots, deviceId, p, now)
            else (address, Stale) in active
    decreases |points|
  {
    hide IsStale;
    if points != [] {
      var p, rest := points[0], points[1..];
      var stale := IsStale(snapshots, deviceId, p, now);
      StalenessRun(numbers, active, p, stale, at, StaleCalls(snapshots, deviceId, rest, now, at));
      StaleCallsSettle(numbers, Settled(active, p.address, Stale, stale), snapshots, deviceId, rest, now, at, address);
      assert points == [p] + rest;
      if p.address == address {
        assert forall q <- rest :: q.address != address;
      }
    }
  }

  /** A monitor pass brings every device to the state its own tests lead to from the state it had before. */
  lemma {:induction false} PassPerDevice(config: Config, devices: seq<Device>, snapshots: map<string, Snapshot>,
                                         alarms: map<string, RuleState>, now: int, at: Clocks, device: Device)
    requires DistinctIds(devices)
    ensures var after := RulesIn(PatrolRules(config, devices, snapshots, alarms, now, at), device.id);
            if device in devices then
              after == CallsState(config.formatter, RulesIn(alarms, device.id),
                                  StaleCalls(snapshots, device.id, device.points, now, at(device.id)))
            else (forall d <- devices :: d.id != device.id) ==> after == RulesIn(alarms, device.id)
    decreases |devices|
  {
    hide CallsState, StaleCalls;
    if devices != [] {
      var d, rest := devices[0], devices[1..];
      assert devices == [d] + rest;
      var next := alarms[d.id := CallsState(config.formatter, RulesIn(alarms, d.id),
                                            StaleCalls(snapshots, d.id, d.points, now, at(d.id)))];
      PassPerDevice(config, rest, snapshots, next, now, at, device);
      if d == device {
        assert forall e <- rest :: e.id != device.id;
      }
    }
  }

  lemma {:induction false} PatrolEventsSplit(config: Config, devices: seq<Device>, last: Device,
                                             snapshots: map<string, Snapshot>, alarms: map<string, RuleState>, now: int,
                                             at: Clocks)
    ensures var before := RulesIn(PatrolRules(config, devices, snapshots, alarms, now, at), last.id);
            PatrolEvents(config, devices + [last], snapshots, alarms, now, at)
            == PatrolEvents(config, devices, snapshots, alarms, now, at)
               + Attach(CallsEvents(config.formatter, before,
                                    StaleCalls(snapshots, last.id, last.points, now, at(last.id))), last)
    decreases |devices|
  {
    hide CallsState, CallsEvents, Attach, StaleCalls;
    if devices == [] {
      assert devices + [last] == [last] && [last][1..] == [];
    } else {
      var d := devices[0];
      var next := alarms[d.id := CallsState(config.formatter, RulesIn(alarms, d.id),
                                            StaleCalls(snapshots, d.id, d.points, now, at(d.id)))];
      PatrolEventsSplit(config, devices[1..], last, snapshots, next, now, at);
      assert (devices + [last])[1..] == devices[1..] + [last];
    }
  }

  /** The pass of the program, device by device from the states before it, is the monitor's step of the interleavings.
      */
  lemma {:induction false} PassIsPatrol(config: Config, devices: seq<Device>, snapshots: map<string, Snapshot>,
                                        alarms: map<string, RuleState>, actives: seq<RuleState>, now: int, at: Clocks)
    requires DistinctIds(devices) && |actives| == |devices|
    requires forall i :: 0 <= i < |devices| ==> RulesIn(alarms, devices[i].id) == actives[i]
    ensures PassEvents(config, devices, snapshots, actives, now, at)
            == PatrolEvents(config, devices, snapshots, alarms, now, at)
    decreases |devices|
  {
    hide CallsState, CallsEvents, Attach, StaleCalls, PatrolRules;
    if devices != [] {
      var front, last := devices[..|devices| - 1], devices[|devices| - 1];
      assert devices == front + [last];
      assert forall d <- front :: d.id != last.id;
      PassIsPatrol(config, front, snapshots, alarms, actives[..|devices| - 1], now, at);
      PatrolEventsSplit(config, front, last, snapshots, alarms, now, at);
      PassPerDevice(config, front, snapshots, alarms, now, at, last);
    }
  }

  /** Right after a monitor pass, STALE of a configured point is active exactly if it has no snapshot or its snapshot
      is older than its limit. */
  lemma PatrolSettlesStale(config: Config, s: SystemState, now: int, at: Clocks, device: Device, point: PointDefinition)
    requires ValidConfig(config) && device in config.devices
    requires DistinctAddresses(device.points) && point in device.points
    ensures var t, key := PatrolStep(config, s, now, at), PointKey(device.id, point.address);
            (point.address, Stale) in Rules(t, device.id) <==>
            key !in s.snapshots ||
            var elapsed, limit := now - s.snapshots[key].timestamp, point.staleSeconds;
            if limit >= 0 then elapsed >= (limit + 1) * 1_000_000_000 else elapsed > limit * 1_000_000_000
  {
    hide PatrolRules, PatrolEvents, CallsState, StaleCalls, PointKey;
    PassPerDevice(config, config.devices, s.snapshots, s.alarms, now, at, device);
    StaleCallsSettle(config.formatter, RulesIn(s.alarms, device.id), s.snapshots, device.id, device.points, now,
                     at(device.id), point.address);
    var key := PointKey(device.id, point.address);
    if key in s.snapshots {
      StaleExactly(now - s.snapshots[key].timestamp, point.staleSeconds);
    }
    assert forall p <- device.points :: p.address == point.address ==> p == point;
  }

  /** Fresh data clears STALE of its point. */
  lemma SenseClearsStale(config: Config, s: SystemState, device: Device, reading: Reading, takenAt: int, at: Clock)
    ensures (reading.address, Stale) !in Rules(SenseStep(config, s, device, reading, takenAt, at), device.id)
  {
    hide Checks, RunState, Demanded, DefinitionFor, PointKey, Batch, BusinessOf, SenseEvents;
    var snapshot, definition := SnapshotOf(device, reading, takenAt), Definition(device, reading.address);
    DefinitionAddress(device, device.points, reading.address);
    EvaluationSettles(config.formatter, Rules(s, device.id), definition, snapshot, reading.address, Stale);
    DemandsExclude(definition, snapshot);
  }

  // ------------------------------------------------------------ latest values

  predicate Carries(op: Op, key: string) {
    match op
    case Remember(record) => PointKey(record.snapshot.deviceId, record.snapshot.address) == key
    case Latest(snapshot) => PointKey(snapshot.deviceId, snapshot.address) == key
    case Write(_) => false
  }

  function CarriedBy(op: Op): Snapshot
    requires !op.Write?
  {
    if op.Remember? then op.record.snapshot else op.snapshot
  }

  /** The cache's latest value of a point is its snapshot, or an operation that will make it so is pending. */
  ghost predicate LatestFollows(s: SystemState, deviceId: string, address: int) {
    var key := PointKey(deviceId, address);
    && (forall op <- Pending(s, deviceId) :: Carries(op, key) ==> Lookup(s.snapshots, key) == Some(CarriedBy(op)))
    && ((forall op <- Pending(s, deviceId) :: !Carries(op, key)) ==>
          Lookup(s.cache.latest, key) == Lookup(s.snapshots, key))
  }

  lemma {:induction false} AlarmWritesCarryNothing(events: seq<AlarmEvent>, key: string)
    ensures forall op <- AlarmWrites(events) :: !Carries(op, key)
    decreases |events|
  {
    if events != [] {
      AlarmWritesCarryNothing(events[1..], key);
    }
  }

  lemma SenseLatestFollows(config: Config, s: SystemState, sensed: Device, reading: Reading, takenAt: int, at: Clock,
                           deviceId: string, address: int)
    requires Pending(s, sensed.id) == [] && LatestFollows(s, deviceId, address)
    ensures LatestFollows(SenseStep(config, s, sensed, reading, takenAt, at), deviceId, address)
  {
    hide Checks, RunState, SenseEvents, SenseRules, DefinitionFor, PointKey, AlarmWrites;
    var t := SenseStep(config, s, sensed, reading, takenAt, at);
    var snapshot := SnapshotOf(sensed, reading, takenAt);
    var key, sensedKey := PointKey(deviceId, address), PointKey(sensed.id, reading.address);
    if sensedKey == key {
      PointKeyInjective(sensed.id, reading.address, deviceId, address);
    }
    var record := BusinessOf(config.formatter, Definition(sensed, reading.address), snapshot);
    var events := SenseEvents(config, Rules(s, sensed.id), sensed, snapshot, at);
    AlarmWritesCarryNothing(events, key);
    if deviceId == sensed.id {
      var batch := Batch(record, snapshot, events);
      assert Pending(t, deviceId) == batch;
      assert batch[0] == Remember(record) && Carries(batch[0], key) == (sensedKey == key);
      assert forall op <- batch :: Carries(op, key) ==> sensedKey == key && CarriedBy(op) == snapshot;
    } else {
      assert Pending(t, deviceId) == Pending(s, deviceId);
    }
  }

  /** An operation of one device carries no value of another. */
  lemma CarriesOwn(op: Op, owner: string, other: string, address: int)
    requires DeviceOf(op) == owner && owner != other
    ensures !Carries(op, PointKey(other, address))
  {
    hide PointKey;
    if Carries(op, PointKey(other, address)) {
      PointKeyInjective(CarriedBy(op).deviceId, CarriedBy(op).address, other, address);
    }
  }

  lemma FlushLatestFollows(config: Config, s: SystemState, flushed: string, visible: bool, deviceId: string,
                           address: int)
    requires Owned(s) && Pending(s, flushed) != [] && LatestFollows(s, deviceId, address)
    ensures LatestFollows(FlushStep(config, s, flushed, visible), deviceId, address)
  {
    hide PointKey, AppendLine, Render, Logged, LastOf;
    var t, key := FlushStep(config, s, flushed, visible), PointKey(deviceId, address);
    var ops := Pending(s, flushed);
    assert ops[0] in ops;
    LatestChange(config, s.cache, ops[0], visible, key);
    if deviceId == flushed {
      assert Pending(t, deviceId) == ops[1..] && ops == [ops[0]] + ops[1..];
    } else {
      CarriesOwn(ops[0], flushed, deviceId, address);
      assert Pending(t, deviceId) == Pending(s, deviceId);
    }
  }

  lemma LatestChange(config: Config, c: CacheState, op: Op, visible: bool, key: string)
    ensures Lookup(Apply(config.formatter, config.maxRecords, c, op, visible).latest, key)
         == if Carries(op, key) then Some(CarriedBy(op)) else Lookup(c.latest, key)
  {
    hide PointKey, AppendLine, Render, LastOf;
  }

  lemma StepLatestFollows(config: Config, s: SystemState, action: Action, deviceId: string, address: int)
    requires Owned(s) && Enabled(config, s, action) && LatestFollows(s, deviceId, address)
    ensures LatestFollows(Step(config, s, action), deviceId, address)
  {
    hide Carries, PointKey, SenseStep, FlushStep, PatrolRules, PatrolEvents, AppendLine, Render, LastOf;
    match action
    case Sense(sensed, reading, takenAt, at) => SenseLatestFollows(config, s, sensed, reading, takenAt, at, deviceId,
                                                                   address);
    case Flush(flushed, visible) => FlushLatestFollows(config, s, flushed, visible, deviceId, address);
    case Patrol(now, at) =>
    case FlushMonitor(visible) =>
      assert s.monitor[0] in s.monitor;
  }

  lemma {:induction false} RunLatestFollows(config: Config, s: SystemState, actions: seq<Action>, deviceId: string,
                                            address: int)
    requires Owned(s) && Possible(config, s, actions) && LatestFollows(s, deviceId, address)
    ensures LatestFollows(After(config, s, actions), deviceId, address)
    decreases |actions|
  {
    hide Owned, LatestFollows, Step, Enabled;
    if actions != [] {
      StepLatestFollows(config, s, actions[0], deviceId, address);
      OwnedKept(config, s, actions[0]);
      RunLatestFollows(config, Step(config, s, actions[0]), actions[1..], deviceId, address);
    }
  }

  /** When no data object of a device is in flight, the cache's latest values of its points are its snapshots. */
  lemma LatestEqualsSnapshots(config: Config, file: seq<string>, actions: seq<Action>, deviceId: string, address: int)
    requires Possible(config, Initial(file), actions)
    ensures var s, key := After(config, Initial(file), actions), PointKey(deviceId, address);
            Pending(s, deviceId) == [] ==>
              && (key in s.cache.latest <==> key in s.snapshots)
              && (key in s.snapshots ==> s.cache.latest[key] == s.snapshots[key])
  {
    hide After, Possible, PointKey;
    assert LatestFollows(Initial(file), deviceId, address);
    RunLatestFollows(config, Initial(file), actions, deviceId, address);
  }

  ghost predicate PointKeys(m: map<string, Snapshot>) {
    forall key <- m :: exists id, address :: key == PointKey(id, address)
  }

  lemma StepPointKeys(config: Config, s: SystemState, action: Action)
    requires PointKeys(s.snapshots) && PointKeys(s.cache.latest) && Enabled(config, s, action)
    ensures PointKeys(Step(config, s, action).snapshots) && PointKeys(Step(config, s, action).cache.latest)
  {
    hide PointKey, SenseEvents, SenseRules, Batch, BusinessOf, PatrolRules, PatrolEvents, AppendLine, Render, LastOf,
      DefinitionFor, Logged;
  }

  lemma {:induction false} RunPointKeys(config: Config, s: SystemState, actions: seq<Action>)
    requires PointKeys(s.snapshots) && PointKeys(s.cache.latest) && Possible(config, s, actions)
    ensures PointKeys(After(config, s, actions).snapshots) && PointKeys(After(config, s, actions).cache.latest)
    decreases |actions|
  {
    hide PointKeys, Step, Enabled;
    if actions != [] {
      StepPointKeys(config, s, actions[0]);
      RunPointKeys(config, Step(config, s, actions[0]), actions[1..]);
    }
  }

  /** With no data object in flight on any device, the two maps are the same. */
  lemma LatestMapIsSnapshots(config: Config, file: seq<string>, actions: seq<Action>)
    requires Possible(config, Initial(file), actions)
    requires forall id :: Pending(After(config, Initial(file), actions), id) == []
    ensures After(config, Initial(file), actions).cache.latest == After(config, Initial(file), actions).snapshots
  {
    hide After, Possible, PointKey;
    var s := After(config, Initial(file), actions);
    RunPointKeys(config, Initial(file), actions);
    forall key | key in s.cache.latest || key in s.snapshots
      ensures key in s.cache.latest && key in s.snapshots && s.cache.latest[key] == s.snapshots[key]
    {
      var id, address :| key == PointKey(id, address);
      LatestEqualsSnapshots(config, file, actions, id, address);
    }
  }

  // ---------------------------------------------------------------- isolation

  /** Which device a step belongs to; the monitor belongs to none. */
  predicate BelongsTo(action: Action, deviceId: string) {
    match action
    case Sense(device, _, _, _) => device.id == deviceId
    case Flush(id, _) => id == deviceId
    case _ => false
  }

  /** A step of one device changes no snapshot, no cached value, no alarm state and no pending batch of another. */
  lemma DevicesAreIsolated(config: Config, s: SystemState, action: Action, deviceId: string, other: string,
                           address: int)
    requires Owned(s) && Enabled(config, s, action) && BelongsTo(action, deviceId) && other != deviceId
    ensures var t, key := Step(config, s, action), PointKey(other, address);
            && Rules(t, other) == Rules(s, other)
            && Pending(t, other) == Pending(s, other)
            && Lookup(t.snapshots, key) == Lookup(s.snapshots, key)
            && Lookup(t.cache.latest, key) == Lookup(s.cache.latest, key)
            && t.monitor == s.monitor
  {
    hide PointKey, SenseRules, SenseEvents, Batch, BusinessOf, AppendLine, Render, LastOf, DefinitionFor, Logged;
    var key := PointKey(other, address);
    match action
    case Sense(device, reading, takenAt, at) =>
      if PointKey(device.id, reading.address) == key {
        PointKeyInjective(device.id, reading.address, other, address);
      }
    case Flush(id, visible) =>
      var op := Pending(s, id)[0];
      assert op in Pending(s, id);
      LatestChange(config, s.cache, op, visible, key);
      CarriesOwn(op, id, other, address);
  }
}
