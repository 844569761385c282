/**
 What a critical section leaves to be written: a worker's batch about one delivered object, and the monitor's batch of
 staleness events, told field by field.
 */
module WrittenBatches {
  import opened Text
  import opened Points
  import opened Alarms
  import opened AlarmProperties
  import opened Cache
  import opened Acquisition
  import opened Thresholds

  // ----------------------------------------------------------- business records

  /** The kind and the text a snapshot is recorded with; a snapshot is never of unknown type. */
  ghost predicate Displays(record: BusinessRecord, formatter: Formatter) {
    var x := record.snapshot;
    match record.businessType
    case Telemetry =>
      x.pointType in {Analog, Counter}
      && record.displayValue == (if x.unit == "" then formatter.fixed(x.value)
                                 else formatter.fixed(x.value) + " " + x.unit)
    case Telesignal => x.pointType == Digital && record.displayValue == if x.state then "CLOSED" else "OPEN"
    case Telecontrol =>
      x.pointType == Control && record.displayValue == if x.state then "CLOSE_COMMAND" else "OPEN_COMMAND"
    case UnknownBusiness => false
  }

  lemma RecordDisplays(formatter: Formatter, device: Device, reading: Reading, takenAt: int)
    ensures var x := SnapshotOf(device, reading, takenAt);
            var record := BusinessOf(formatter, Definition(device, reading.address), x);
            record.snapshot == x && Displays(record, formatter)
  {
    hide Definition, PointTypeOf;
    var x := SnapshotOf(device, reading, takenAt);
    assert x.unit == "" ==> formatter.fixed(x.value) + "" == formatter.fixed(x.value);
  }

  // -------------------------------------------------------------------- batches

  lemma {:induction false} AttachedAt(events: seq<AlarmEvent>, device: Device, k: nat)
    requires k < |events|
    ensures |Attach(events, device)| == |events|
    ensures var e := events[k];
            Attach(events, device)[k] == AlarmEvent(device.id, device.name, e.address, e.pointName, e.rule, e.severity,
                                                    e.active, e.value, e.message, e.timestamp)
    decreases |events|
  {
    if |events| > 1 {
      AttachedAt(events[1..], device, if k == 0 then 0 else k - 1);
    }
  }

  lemma {:induction false} WriteAt(events: seq<AlarmEvent>, k: nat)
    requires k < |events|
    ensures AlarmWrites(events)[k] == Write(Alarm(events[k]))
    decreases |events|
  {
    if k > 0 {
      WriteAt(events[1..], k - 1);
    }
  }

  /** An event as it is written, against the same event as the device's alarm manager returned it. */
  ghost predicate Carries(op: Op, device: Device, e: AlarmEvent) {
    && op.Write? && op.entry.Alarm?
    && op.entry.event.deviceId == device.id && op.entry.event.deviceName == device.name
    && op.entry.event == e.(deviceId := device.id, deviceName := device.name)
  }

  lemma WritesCarry(events: seq<AlarmEvent>, device: Device)
    ensures |AlarmWrites(Attach(events, device))| == |events|
    ensures forall k :: 0 <= k < |events| ==> Carries(AlarmWrites(Attach(events, device))[k], device, events[k])
  {
    if events != [] {
      AttachedAt(events, device, 0);
    }
    forall k | 0 <= k < |events| ensures Carries(AlarmWrites(Attach(events, device))[k], device, events[k]) {
      AttachedAt(events, device, k);
      WriteAt(Attach(events, device), k);
    }
  }

  /**
   After a delivered object a worker writes, in this order: the business record, into the window and then as a line, the
   measurement, as latest value and then as a line, and one line for every alarm event, in the order of the rules.
   */
  lemma SenseWrites(config: Config, s: SystemState, device: Device, reading: Reading, takenAt: int, at: Clock)
    ensures var t := SenseStep(config, s, device, reading, takenAt, at);
            var x, batch := t.snapshots[PointKey(device.id, reading.address)], Pending(t, device.id);
            && |batch| >= 4 && batch[0].Remember? && batch[0].record.snapshot == x
            && Displays(batch[0].record, config.formatter)
            && batch[1] == Write(Business(batch[0].record)) && batch[2] == Latest(x) && batch[3] == Write(Measure(x))
    ensures var t := SenseStep(config, s, device, reading, takenAt, at);
            var x, batch := t.snapshots[PointKey(device.id, reading.address)], Pending(t, device.id);
            forall i :: 4 <= i < |batch| ==>
              && batch[i].Write? && batch[i].entry.Alarm?
              && batch[i].entry.event.deviceId == device.id && batch[i].entry.event.deviceName == device.name
              && Tells(batch[i].entry.event, config.formatter, Definition(device, reading.address), x, at)
              && forall j :: i < j < |batch| && batch[j].Write? && batch[j].entry.Alarm? ==>
                               Place(batch[i].entry.event.rule) < Place(batch[j].entry.event.rule)
  {
    hide BusinessOf, SnapshotOf, Definition, Checks, RunEvents, RunState, AlarmWrites, Attach, Tells, Place, Displays;
    var t := SenseStep(config, s, device, reading, takenAt, at);
    var x, batch := SnapshotOf(device, reading, takenAt), Pending(t, device.id);
    SnapshotAddress(device, reading, takenAt);
    assert t.snapshots[PointKey(device.id, reading.address)] == x;
    RecordDisplays(config.formatter, device, reading, takenAt);
    var definition, active := Definition(device, reading.address), Rules(s, device.id);
    var events := RunEvents(active, definition, Checks(config.formatter, definition, x), at);
    EvaluationTells(config.formatter, active, definition, x, at);
    WritesCarry(events, device);
    assert batch[4..] == AlarmWrites(Attach(events, device));
    forall i | 4 <= i < |batch|
      ensures Carries(batch[i], device, events[i - 4])
              && Tells(batch[i].entry.event, config.formatter, definition, x, at)
    {
      assert batch[i] == batch[4..][i - 4];
      TellsTheSame(events[i - 4], config.formatter, definition, x, at, device);
    }
  }

  lemma TellsTheSame(e: AlarmEvent, numbers: Formatter, definition: PointDefinition, snapshot: Snapshot, at: Clock,
                     device: Device)
    requires Tells(e, numbers, definition, snapshot, at)
    ensures Tells(e.(deviceId := device.id, deviceName := device.name), numbers, definition, snapshot, at)
  {
  }

  // ----------------------------------------------------------------- the monitor

  /** A staleness event of one point of one device, as the monitor writes it. */
  ghost predicate TellsStale(e: AlarmEvent, device: Device, point: PointDefinition, at: Clocks) {
    && e.deviceId == device.id && e.deviceName == device.name && e.address == point.address
    && e.pointName == (if point.name == "" then "IOA " + Decimal(point.address) else point.name)
    && e.rule == Stale && e.severity == Warning && e.value == Finite(0.0)
    && e.timestamp == at(device.id)(point.address, Stale)
    && e.message == (if e.active then "No fresh data within stale window" else "Recovered: STALE")
  }

  ghost predicate ToldBy(op: Op, devices: seq<Device>, at: Clocks) {
    && op.Write? && op.entry.Alarm?
    && exists d <- devices :: exists p <- d.points :: TellsStale(op.entry.event, d, p, at)
  }

  ghost predicate FromPoint(e: AlarmEvent, device: Device, points: seq<PointDefinition>, at: Clocks) {
    exists p <- points :: TellsStale(e.(deviceId := device.id, deviceName := device.name), device, p, at)
  }

  lemma StaleEvent(active: RuleState, device: Device, point: PointDefinition, stale: bool, at: Clocks)
    ensures forall e <- RunEvents(active, point, [StaleCheck(stale)], at(device.id)) ::
              TellsStale(e.(deviceId := device.id, deviceName := device.name), device, point, at)
  {
    hide Decimal;
    assert [StaleCheck(stale)][1..] == [];
  }

  lemma {:induction false} StaleEvents(numbers: Formatter, active: RuleState, snapshots: map<string, Snapshot>,
                                       device: Device, points: seq<PointDefinition>, now: int, at: Clocks)
    ensures forall e <- CallsEvents(numbers, active, StaleCalls(snapshots, device.id, points, now, at(device.id))) ::
              FromPoint(e, device, points, at)
    decreases |points|
  {
    hide RunEvents, RunState, IsStale, StaleCheck, TellsStale;
    if points != [] {
      var calls := StaleCalls(snapshots, device.id, points, now, at(device.id));
      var stale := IsStale(snapshots, device.id, points[0], now);
      StaleEvent(active, device, points[0], stale, at);
      var next := RunState(active, points[0], [StaleCheck(stale)]);
      assert calls[1..] == StaleCalls(snapshots, device.id, points[1..], now, at(device.id));
      StaleEvents(numbers, next, snapshots, device, points[1..], now, at);
      var first := RunEvents(active, points[0], [StaleCheck(stale)], at(device.id));
      var rest := CallsEvents(numbers, next, calls[1..]);
      assert calls[0] == Staleness(points[0], stale, at(device.id))
             && CallsEvents(numbers, active, calls) == first + rest;
      forall e | e in first + rest ensures FromPoint(e, device, points, at) {
        if e in rest {
          assert FromPoint(e, device, points[1..], at);
        } else {
          assert points[0] in points;
        }
      }
    }
  }

  lemma OwnTells(events: seq<AlarmEvent>, device: Device, devices: seq<Device>, at: Clocks)
    requires device in devices && forall e <- events :: FromPoint(e, device, device.points, at)
    ensures forall e <- Attach(events, device) :: ToldBy(Write(Alarm(e)), devices, at)
  {
    hide TellsStale;
    if events != [] {
      AttachedAt(events, device, 0);
    }
    forall k | 0 <= k < |events| ensures ToldBy(Write(Alarm(Attach(events, device)[k])), devices, at) {
      AttachedAt(events, device, k);
      assert FromPoint(events[k], device, device.points, at);
    }
  }

  lemma {:induction false} PassTells(config: Config, devices: seq<Device>, snapshots: map<string, Snapshot>,
                                     alarms: map<string, RuleState>, now: int, at: Clocks)
    ensures forall e <- PatrolEvents(config, devices, snapshots, alarms, now, at) ::
              ToldBy(Write(Alarm(e)), devices, at)
    decreases |devices|
  {
    hide CallsEvents, CallsState, StaleCalls, Attach, TellsStale, FromPoint;
    if devices != [] {
      var d := devices[0];
      var active := if d.id in alarms then alarms[d.id] else {};
      var calls := StaleCalls(snapshots, d.id, d.points, now, at(d.id));
      var events := CallsEvents(config.formatter, active, calls);
      StaleEvents(config.formatter, active, snapshots, d, d.points, now, at);
      var next := alarms[d.id := CallsState(config.formatter, active, calls)];
      PassTells(config, devices[1..], snapshots, next, now, at);
      var own, rest := Attach(events, d), PatrolEvents(config, devices[1..], snapshots, next, now, at);
      assert PatrolEvents(config, devices, snapshots, alarms, now, at) == own + rest;
      forall e | e in rest ensures ToldBy(Write(Alarm(e)), devices, at) {
        assert ToldBy(Write(Alarm(e)), devices[1..], at);
      }
      OwnTells(events, d, devices, at);
    }
  }

  /** Every line the monitor has to write is a STALE event of a configured point, with its device, name and time. */
  lemma PatrolWrites(config: Config, s: SystemState, now: int, at: Clocks)
    ensures forall op <- PatrolStep(config, s, now, at).monitor :: ToldBy(op, config.devices, at)
  {
    hide PatrolEvents, PatrolRules, AlarmWrites, ToldBy;
    PassTells(config, config.devices, s.snapshots, s.alarms, now, at);
    var events := PatrolEvents(config, config.devices, s.snapshots, s.alarms, now, at);
    forall k | 0 <= k < |events| ensures ToldBy(AlarmWrites(events)[k], config.devices, at) {
      WriteAt(events, k);
      assert events[k] in events;
    }
  }
}
