/**
 The latest values the report shows are the system's snapshots; and the one thing it can
 get wrong: staleness that was logged in the opposite order to its changes.
 */
module ReportedValues {
  import opened Wrappers
  import opened Text
  import opened Points
  import opened Alarms
  import opened AlarmProperties
  import opened Cache
  import opened Report
  import opened Acquisition
  import opened AcquisitionProperties
  import opened Interleavings
  import opened SnapshotProperties
  import opened EndToEnd

  // -------------------------------------------------------- the last measurement

  /** The last measured snapshot among some entries under a key. */
  function LastBy(entries: seq<Entry>, keyOf: Snapshot -> string, key: string): Option<Snapshot> {
    if entries == [] then None
    else if LastBy(entries[1..], keyOf, key).Some? then LastBy(entries[1..], keyOf, key)
    else if entries[0].Measure? && keyOf(entries[0].snapshot) == key then Some(entries[0].snapshot)
    else None
  }

  const PLAIN: Snapshot -> string := (x: Snapshot) => PointKey(x.deviceId, x.address)
  const CLEANED: Snapshot -> string := (x: Snapshot) => PointKey(Clean(x.deviceId), x.address)

  lemma {:induction false} LastByAppend(a: seq<Entry>, b: seq<Entry>, keyOf: Snapshot -> string, key: string)
    ensures LastBy(a + b, keyOf, key) == if LastBy(b, keyOf, key).Some? then LastBy(b, keyOf, key)
                                         else LastBy(a, keyOf, key)
    decreases |a|
  {
    if a == [] {
      assert a + b == b;
    } else {
      assert (a + b)[0] == a[0] && (a + b)[1..] == a[1..] + b;
      LastByAppend(a[1..], b, keyOf, key);
    }
  }

  function EntriesIn(ops: seq<Op>): seq<Entry> {
    if ops == [] then [] else (if ops[0].Write? then [ops[0].entry] else []) + EntriesIn(ops[1..])
  }

  /** Logged and then pending, the last measurement of a point is its snapshot. */
  ghost predicate MeasureFollows(s: SystemState, deviceId: string, address: int) {
    var key := PointKey(deviceId, address);
    LastBy(s.history + EntriesIn(Pending(s, deviceId)), PLAIN, key) == Lookup(s.snapshots, key)
  }

  lemma {:induction false} AlarmWritesMeasureNothing(events: seq<AlarmEvent>, key: string)
    ensures LastBy(EntriesIn(AlarmWrites(events)), PLAIN, key) == None
    decreases |events|
  {
    if events != [] {
      var rest := EntriesIn(AlarmWrites(events[1..]));
      AlarmWritesMeasureNothing(events[1..], key);
      assert AlarmWrites(events)[1..] == AlarmWrites(events[1..]);
      assert EntriesIn(AlarmWrites(events)) == [Alarm(events[0])] + rest;
      assert ([Alarm(events[0])] + rest)[1..] == rest;
    }
  }

  lemma BatchMeasures(record: BusinessRecord, snapshot: Snapshot, events: seq<AlarmEvent>, key: string)
    ensures LastBy(EntriesIn(Batch(record, snapshot, events)), PLAIN, key)
         == if PointKey(snapshot.deviceId, snapshot.address) == key then Some(snapshot) else None
  {
    hide PointKey;
    hide AlarmWrites;
    var writes := AlarmWrites(events);
    AlarmWritesMeasureNothing(events, key);
    var o0, o1, o2, o3 := Remember(record), Write(Business(record)), Latest(snapshot), Write(Measure(snapshot));
    var b3 := [o3] + writes;
    var b2 := [o2] + b3;
    var b1 := [o1] + b2;
    assert Batch(record, snapshot, events) == [o0] + b1;
    assert b3[1..] == writes && b2[1..] == b3 && b1[1..] == b2 && ([o0] + b1)[1..] == b1;
    var e3 := [Measure(snapshot)] + EntriesIn(writes);
    assert EntriesIn(b3) == e3 && EntriesIn(b2) == e3 && EntriesIn(b1) == [Business(record)] + e3;
    assert e3[1..] == EntriesIn(writes) && ([Business(record)] + e3)[1..] == e3;
    assert EntriesIn([o0] + b1) == [Business(record)] + e3;
  }

  lemma SenseMeasureFollows(config: Config, s: SystemState, sensed: Device, reading: Reading, takenAt: int, at: Clock,
                            deviceId: string, address: int)
    requires Pending(s, sensed.id) == [] && MeasureFollows(s, deviceId, address)
    ensures MeasureFollows(SenseStep(config, s, sensed, reading, takenAt, at), deviceId, address)
  {
    hide SenseEvents, SenseRules, DefinitionFor, PointKey, Batch, BusinessOf, LastBy, EntriesIn;
    var t := SenseStep(config, s, sensed, reading, takenAt, at);
    var snapshot := SnapshotOf(sensed, reading, takenAt);
    var key := PointKey(deviceId, address);
    var record := BusinessOf(config.formatter, Definition(sensed, reading.address), snapshot);
    var events := SenseEvents(config, Rules(s, sensed.id), sensed, snapshot, at);
    if PointKey(sensed.id, reading.address) == key {
      PointKeyInjective(sensed.id, reading.address, deviceId, address);
    }
    if deviceId == sensed.id {
      var batch := Batch(record, snapshot, events);
      BatchMeasures(record, snapshot, events, key);
      LastByAppend(s.history, EntriesIn(batch), PLAIN, key);
      NoEntries();
      assert s.history + [] == s.history;
    } else {
      assert Pending(t, deviceId) == Pending(s, deviceId);
    }
  }

  lemma NoEntries()
    ensures EntriesIn([]) == []
  {
  }

  /** An entry that does not measure the point changes nothing, wherever in the log it is put. */
  lemma OtherEntry(history: seq<Entry>, op: Op, rest: seq<Entry>, key: string)
    requires op.Write? && op.entry.Measure? ==> PLAIN(op.entry.snapshot) != key
    ensures LastBy(Logged(history, op) + rest, PLAIN, key) == LastBy(history + rest, PLAIN, key)
  {
    LastByAppend(Logged(history, op), rest, PLAIN, key);
    LastByAppend(history, rest, PLAIN, key);
    if op.Write? {
      LastByAppend(history, [op.entry], PLAIN, key);
      assert [op.entry][1..] == [];
    }
  }

  lemma FlushMeasureFollows(config: Config, s: SystemState, flushed: string, visible: bool, deviceId: string,
                            address: int)
    requires Owned(s) && Pending(s, flushed) != [] && MeasureFollows(s, deviceId, address)
    ensures MeasureFollows(FlushStep(config, s, flushed, visible), deviceId, address)
  {
    hide PointKey, Apply, LastBy;
    var t, key, ops := FlushStep(config, s, flushed, visible), PointKey(deviceId, address), Pending(s, flushed);
    assert ops[0] in ops && DeviceOf(ops[0]) == flushed;
    if deviceId == flushed {
      assert Logged(s.history, ops[0]) + EntriesIn(ops[1..]) == s.history + EntriesIn(ops);
    } else {
      if ops[0].Write? && ops[0].entry.Measure? && PLAIN(ops[0].entry.snapshot) == key {
        PointKeyInjective(ops[0].entry.snapshot.deviceId, ops[0].entry.snapshot.address, deviceId, address);
      }
      OtherEntry(s.history, ops[0], EntriesIn(Pending(s, deviceId)), key);
      assert Pending(t, deviceId) == Pending(s, deviceId);
    }
  }

  lemma StepMeasureFollows(config: Config, s: SystemState, action: Action, deviceId: string, address: int)
    requires Owned(s) && Enabled(config, s, action) && MeasureFollows(s, deviceId, address)
    ensures MeasureFollows(Step(config, s, action), deviceId, address)
  {
    hide PointKey, SenseStep, FlushStep, PatrolRules, PatrolEvents, Apply, LastBy, Logged;
    match action
    case Sense(sensed, reading, takenAt, at) => SenseMeasureFollows(config, s, sensed, reading, takenAt, at, deviceId,
                                                                    address);
    case Flush(flushed, visible) => FlushMeasureFollows(config, s, flushed, visible, deviceId, address);
    case Patrol(now, at) =>
    case FlushMonitor(visible) =>
      assert s.monitor[0] in s.monitor;
      OtherEntry(s.history, s.monitor[0], EntriesIn(Pending(s, deviceId)), PointKey(deviceId, address));
  }

  lemma {:induction false} RunMeasureFollows(config: Config, s: SystemState, actions: seq<Action>, deviceId: string,
                                             address: int)
    requires Owned(s) && Possible(config, s, actions) && MeasureFollows(s, deviceId, address)
    ensures MeasureFollows(After(config, s, actions), deviceId, address)
    decreases |actions|
  {
    hide Owned, MeasureFollows, Step, Enabled;
    if actions != [] {
      StepMeasureFollows(config, s, actions[0], deviceId, address);
      OwnedKept(config, s, actions[0]);
      RunMeasureFollows(config, Step(config, s, actions[0]), actions[1..], deviceId, address);
    }
  }

  // ------------------------------------------------------------- read back

  function Shown(report: Summary, key: string): Option<LatestMeasure> {
    if key in report.latestMeasures then Some(report.latestMeasures[key]) else None
  }

  function AsLine(formatter: Formatter, x: Option<Snapshot>, otherwise: Option<LatestMeasure>): Option<LatestMeasure> {
    if x.Some? then Some(MeasureLine(formatter, x.value)) else otherwise
  }

  lemma EntryShown(formatter: Formatter, s: Summary, entry: Entry, key: string)
    ensures Shown(ConsumeEntry(formatter, s, entry), key) == AsLine(formatter, LastBy([entry], CLEANED, key),
                                                                    Shown(s, key))
  {
    hide AlarmText, AlarmLine, MeasureLine, PointKey, Clean;
    assert [entry][1..] == [];
  }

  /** The report shows under a key the last measurement whose cleaned key it is. */
  lemma {:induction false} ReplayShown(formatter: Formatter, s: Summary, entries: seq<Entry>, key: string)
    requires BarFree(formatter)
    ensures Shown(Replay(s, RenderAll(formatter, entries)), key)
            == AsLine(formatter, LastBy(entries, CLEANED, key), Shown(s, key))
    decreases |entries|
  {
    hide ConsumeLine, ConsumeEntry, Render, RenderAll, MeasureLine, Shown;
    if entries == [] {
      NothingRendered(formatter);
    } else {
      var next := ConsumeEntry(formatter, s, entries[0]);
      RenderAllStep(formatter, entries);
      LineUnderstood(formatter, s, entries[0]);
      EntryShown(formatter, s, entries[0], key);
      ReplayShown(formatter, next, entries[1..], key);
      assert entries == [entries[0]] + entries[1..];
      LastByAppend([entries[0]], entries[1..], CLEANED, key);
    }
  }

  lemma {:induction false} CleanedIsPlain(config: Config, entries: seq<Entry>, deviceId: string, address: int)
    requires CleanIds(config) && Named(config, deviceId)
    requires forall entry <- entries :: Named(config, DeviceOf(Write(entry)))
    ensures LastBy(entries, CLEANED, PointKey(Clean(deviceId), address))
            == LastBy(entries, PLAIN, PointKey(deviceId, address))
    decreases |entries|
  {
    hide PointKey, Clean;
    if entries != [] {
      CleanedIsPlain(config, entries[1..], deviceId, address);
      assert entries[0] in entries;
      if entries[0].Measure? {
        var x := entries[0].snapshot;
        if PointKey(Clean(x.deviceId), x.address) == PointKey(Clean(deviceId), address) {
          PointKeyInjective(Clean(x.deviceId), x.address, Clean(deviceId), address);
          assert x.deviceId == deviceId;
        }
        if PointKey(x.deviceId, x.address) == PointKey(deviceId, address) {
          PointKeyInjective(x.deviceId, x.address, deviceId, address);
        }
      }
    }
  }

  /**
   In any run from an empty file, once a device's worker has written its batch, what the report shows of a point is the
   line of its snapshot if the file still has a measurement of it, and nothing otherwise; untrimmed, the measurement is
   there whenever there is a snapshot.
   */
  lemma ReportMatchesSnapshots(config: Config, actions: seq<Action>, deviceId: string, address: int)
    requires ValidConfig(config) && CleanIds(config) && Named(config, deviceId)
    requires Possible(config, Initial([]), actions) && Pending(After(config, Initial([]), actions), deviceId) == []
    ensures var s := After(config, Initial([]), actions);
            var report, kept := Replay(NOTHING, s.cache.file), LastOf(s.history, |s.cache.file|);
            var key, shown := PointKey(deviceId, address), Shown(report, PointKey(Clean(deviceId), address));
            && (LastBy(kept, PLAIN, key).Some? ==>
                  key in s.snapshots && shown == Some(MeasureLine(config.formatter, s.snapshots[key])))
            && (LastBy(kept, PLAIN, key).None? ==> shown == None)
            && (|s.history| <= config.maxRecords && key in s.snapshots ==> LastBy(kept, PLAIN, key).Some?)
  {
    hide After, Possible, PointKey, Replay, CleanIds, Named, RenderAll, FileFollows, LastBy, DeviceOf, Clean,
      MeasureLine;
    var s := After(config, Initial([]), actions);
    var key, text := PointKey(deviceId, address), PointKey(Clean(deviceId), address);
    FollowsFromStart(config, actions);
    FileIsEndOfHistory(config, actions);
    MeasuresFromStart(deviceId, address);
    RunMeasureFollows(config, Initial([]), actions, deviceId, address);
    NoEntries();
    assert s.history + [] == s.history;
    var kept := LastOf(s.history, |s.cache.file|);
    var dropped := s.history[..|s.history| - |kept|];
    assert s.history == dropped + kept;
    LastByAppend(dropped, kept, PLAIN, key);
    CleanedIsPlain(config, kept, deviceId, address);
    ReplayShown(config.formatter, NOTHING, kept, text);
  }

  lemma MeasuresFromStart(deviceId: string, address: int)
    ensures Owned(Initial([])) && MeasureFollows(Initial([]), deviceId, address)
  {
    hide PointKey, DeviceOf;
  }

  // ------------------------------------------- staleness logged in the wrong order

  lemma {:induction false} RunAppend(config: Config, s: SystemState, a: seq<Action>, b: seq<Action>)
    requires Possible(config, s, a) && Possible(config, After(config, s, a), b)
    ensures Possible(config, s, a + b) && After(config, s, a + b) == After(config, After(config, s, a), b)
    decreases |a|
  {
    hide Step, Enabled;
    if a == [] {
      assert a + b == b;
    } else {
      assert (a + b)[0] == a[0] && (a + b)[1..] == a[1..] + b;
      RunAppend(config, Step(config, s, a[0]), a[1..], b);
    }
  }

  lemma StepThen(config: Config, s: SystemState, action: Action, rest: seq<Action>)
    requires Enabled(config, s, action) && Possible(config, Step(config, s, action), rest)
    ensures Possible(config, s, [action] + rest)
    ensures After(config, s, [action] + rest) == After(config, Step(config, s, action), rest)
  {
    hide Enabled, Step;
    assert ([action] + rest)[1..] == rest;
  }

  lemma NoSteps(config: Config, s: SystemState)
    ensures Possible(config, s, []) && After(config, s, []) == s
  {
  }

  /** What draining a queue leaves: every other part of the state, and the drained flags at the end of the log. */
  ghost predicate Drained(v: View, w: View, flags: seq<bool>) {
    w.logged == v.logged + flags && w.active == v.active
  }

  lemma {:induction false} DrainWorker(config: Config, s: SystemState, key: AlarmKey) returns (actions: seq<Action>)
    requires Owned(s)
    ensures Possible(config, s, actions)
    ensures var t := After(config, s, actions);
            && Owned(t) && Pending(t, key.deviceId) == [] && t.monitor == s.monitor
            && Drained(ViewOf(s, key), ViewOf(t, key), ViewOf(s, key).worker)
            && ViewOf(t, key).monitor == ViewOf(s, key).monitor
    decreases |Pending(s, key.deviceId)|
  {
    hide ViewOf, Apply, Logged, Owned, Possible, After, Flags, AlarmsIn, AlarmsOf;
    actions := [];
    ViewParts(s, key);
    EmptyFlags(key);
    NoSteps(config, s);
    if Pending(s, key.deviceId) == [] {
      assert ViewOf(s, key).logged + [] == ViewOf(s, key).logged;
    } else {
      var step := Flush(key.deviceId, false);
      var next := Step(config, s, step);
      var out := FlushView(config, s, key.deviceId, false, key);
      OwnedKept(config, s, step);
      var rest := DrainWorker(config, next, key);
      StepThen(config, s, step, rest);
      actions := [step] + rest;
      assert ViewOf(s, key).logged + (out + ViewOf(next, key).worker)
             == ViewOf(s, key).logged + out + ViewOf(next, key).worker;
    }
  }

  lemma {:induction false} DrainMonitor(config: Config, s: SystemState, key: AlarmKey) returns (actions: seq<Action>)
    requires Owned(s)
    ensures Possible(config, s, actions)
    ensures var t := After(config, s, actions);
            && t.monitor == [] && Pending(t, key.deviceId) == Pending(s, key.deviceId)
            && Drained(ViewOf(s, key), ViewOf(t, key), ViewOf(s, key).monitor)
    decreases |s.monitor|
  {
    hide ViewOf, Apply, Logged, Owned, Possible, After, Flags, AlarmsIn, AlarmsOf;
    actions := [];
    ViewParts(s, key);
    EmptyFlags(key);
    NoSteps(config, s);
    if s.monitor == [] {
      assert ViewOf(s, key).logged + [] == ViewOf(s, key).logged;
    } else {
      var step := FlushMonitor(false);
      var next := Step(config, s, step);
      var out := FlushMonitorView(config, s, false, key);
      OwnedKept(config, s, step);
      var rest := DrainMonitor(config, next, key);
      StepThen(config, s, step, rest);
      actions := [step] + rest;
      assert ViewOf(s, key).logged + (out + ViewOf(next, key).monitor)
             == ViewOf(s, key).logged + out + ViewOf(next, key).monitor;
    }
  }

  lemma OddChainEndsRaised(flags: seq<bool>)
    requires Chained(flags, false, true)
    ensures flags != [] && flags[|flags| - 1]
  {
  }

  /**
   The monitor raises STALE, fresh data clears it, and the worker writes its batch first: for every configured point
   there is a run in which nothing is pending any more, the rule is not active, and yet the log ends in RAISED, so that
   an untrimmed file reports the point as stale.
   */
  lemma StaleCanBeReportedFalsely(config: Config, device: Device, point: PointDefinition, reading: Reading, now: int)
    returns (actions: seq<Action>)
    requires ValidConfig(config) && CleanIds(config) && device in config.devices
    requires DistinctAddresses(device.points) && point in device.points && reading.address == point.address
    ensures Possible(config, Initial([]), actions)
    ensures var s, key := After(config, Initial([]), actions), AlarmKey(device.id, point.address, Stale);
            && Pending(s, device.id) == [] && s.monitor == []
            && (point.address, Stale) !in Rules(s, device.id)
            && LastFlag(Flags(AlarmsOf(s.history), key), false)
            && (|s.history| <= config.maxRecords ==>
                  AlarmText(device.id, point.address, Stale) in Replay(NOTHING, s.cache.file).activeAlarms)
  {
    hide ViewOf, Apply, Logged, Owned, PatrolStep, SenseStep, Flags, AlarmsOf, AlarmsIn, Chained, CleanIds, ValidConfig,
      AlarmText, Replay, Named, FileFollows, RenderAll, PointKey, FlushStep, FlushMonitorStep, DeviceOf, Possible,
      After;
    var s0, key := Initial([]), AlarmKey(device.id, point.address, Stale);
    var patrol, sense := Patrol(now, STOPPED), Sense(device, reading, now, STOPPED(device.id));
    InitialParts(config, device.id, point.address, key);
    var s1 := PatrolStep(config, s0, now, STOPPED);
    RaisedByPatrol(config, s0, device, point, now);
    var s2 := SenseStep(config, s1, device, reading, now, STOPPED(device.id));
    ClearedBySense(config, s1, device, reading, now, key);
    var worker := DrainWorker(config, s2, key);
    var s3 := After(config, s2, worker);
    var monitor := DrainMonitor(config, s3, key);
    RunAppend(config, s2, worker, monitor);
    StepThen(config, s1, sense, worker + monitor);
    StepThen(config, s0, patrol, [sense] + (worker + monitor));
    actions := [patrol] + ([sense] + (worker + monitor));
    var s := After(config, s0, actions);
    ViewParts(s, key);
    var raised := ViewOf(s1, key).monitor;
    OddChainEndsRaised(raised);
    assert Flags(AlarmsOf(s.history), key) == ViewOf(s3, key).logged + raised;
    IsNamed(config, device);
    ReportedFromLog(config, actions, key);
  }

  lemma IsNamed(config: Config, device: Device)
    requires device in config.devices
    ensures Named(config, device.id)
  {
  }

  /** Clocks that always read zero. */
  const STOPPED: Clocks := (deviceId: string) => (address: int, rule: Rule) => 0

  lemma RaisedByPatrol(config: Config, s: SystemState, device: Device, point: PointDefinition, now: int)
    requires ValidConfig(config) && device in config.devices
    requires DistinctAddresses(device.points) && point in device.points
    requires Owned(s) && s.monitor == [] && Pending(s, device.id) == []
             && PointKey(device.id, point.address) !in s.snapshots
    requires ViewOf(s, AlarmKey(device.id, point.address, Stale)) == View([], [], [], false)
    ensures var t := PatrolStep(config, s, now, STOPPED);
            && Owned(t) && Pending(t, device.id) == []
            && Chained(ViewOf(t, AlarmKey(device.id, point.address, Stale)).monitor, false, true)
  {
    hide PatrolStep, PointKey, Chained, ViewOf, Owned, IsStale, DistinctAddresses, ValidConfig;
    var key, t := AlarmKey(device.id, point.address, Stale), PatrolStep(config, s, now, STOPPED);
    PatrolView(config, s, now, STOPPED, key);
    PatrolSettlesStale(config, s, now, STOPPED, device, point);
    PatrolOwned(config, s, now, STOPPED);
    PatrolKeepsQueues(config, s, now, device.id);
    ViewParts(t, key);
  }

  lemma PatrolKeepsQueues(config: Config, s: SystemState, now: int, deviceId: string)
    ensures Pending(PatrolStep(config, s, now, STOPPED), deviceId) == Pending(s, deviceId)
  {
  }

  lemma InitialParts(config: Config, deviceId: string, address: int, key: AlarmKey)
    ensures ViewOf(Initial([]), key) == View([], [], [], false)
    ensures Owned(Initial([])) && Initial([]).monitor == [] && Pending(Initial([]), deviceId) == []
    ensures PointKey(deviceId, address) !in Initial([]).snapshots
  {
    hide PointKey, DeviceOf;
  }

  lemma ClearedBySense(config: Config, s: SystemState, device: Device, reading: Reading, now: int, key: AlarmKey)
    requires Owned(s) && Pending(s, device.id) == [] && key == AlarmKey(device.id, reading.address, Stale)
    ensures var t := SenseStep(config, s, device, reading, now, STOPPED(device.id));
            Owned(t) && !ViewOf(t, key).active && ViewOf(t, key).monitor == ViewOf(s, key).monitor
  {
    hide SenseEvents, SenseRules, DefinitionFor, PointKey, Batch, BusinessOf, Flags, Chained, Owned, DeviceOf;
    SenseView(config, s, device, reading, now, STOPPED(device.id), key);
    SenseClearsStale(config, s, device, reading, now, STOPPED(device.id));
    SenseOwned(config, s, device, reading, now, STOPPED(device.id));
  }

  /** The report lists a rule exactly if the last line about it among those the file still has is RAISED. */
  lemma ReportedFromKept(config: Config, actions: seq<Action>, key: AlarmKey)
    requires ValidConfig(config) && CleanIds(config) && Named(config, key.deviceId)
    requires Possible(config, Initial([]), actions)
    ensures var s := After(config, Initial([]), actions);
            var kept := LastOf(s.history, |s.cache.file|);
            && (AlarmText(key.deviceId, key.address, key.rule) in Replay(NOTHING, s.cache.file).activeAlarms
                <==> LastFlag(Flags(AlarmsOf(kept), key), false))
            && (Flags(AlarmsOf(kept), key) != [] ==>
                  LastFlag(Flags(AlarmsOf(kept), key), false) == LastFlag(Flags(AlarmsOf(s.history), key), false))
            && (|s.history| <= config.maxRecords ==> kept == s.history)
  {
    hide After, Possible, AlarmText, Replay, CleanIds, RenderAll, FileFollows, Flags, AlarmsOf, DeviceOf, Named;
    var s := After(config, Initial([]), actions);
    FollowsFromStart(config, actions);
    FileIsEndOfHistory(config, actions);
    var kept := LastOf(s.history, |s.cache.file|);
    var dropped := s.history[..|s.history| - |kept|];
    assert s.history == dropped + kept;
    AlarmsOfAppend(dropped, kept);
    FlagsAppend(AlarmsOf(dropped), AlarmsOf(kept), key);
    NamedEvents(config, kept);
    TextFlagsAreFlags(config, AlarmsOf(kept), key);
    ReplayActive(config.formatter, NOTHING, kept, AlarmText(key.deviceId, key.address, key.rule));
  }

  /** An untrimmed file reports a rule active exactly if the log about it ends in RAISED. */
  lemma ReportedFromLog(config: Config, actions: seq<Action>, key: AlarmKey)
    requires ValidConfig(config) && CleanIds(config) && Named(config, key.deviceId)
    requires Possible(config, Initial([]), actions)
    ensures var s := After(config, Initial([]), actions);
            |s.history| <= config.maxRecords ==>
              (AlarmText(key.deviceId, key.address, key.rule) in Replay(NOTHING, s.cache.file).activeAlarms
               <==> LastFlag(Flags(AlarmsOf(s.history), key), false))
  {
    hide *;
    ReportedFromKept(config, actions, key);
  }

  /**
   Once nothing about a device is pending, an untrimmed file reports a rule, STALE included, as it is exactly if the
   last line about it is RAISED just when RAISED lines outnumber CLEARED lines.
   */
  lemma ReportedRightlyExactly(config: Config, actions: seq<Action>, key: AlarmKey)
    requires ValidConfig(config) && CleanIds(config) && Named(config, key.deviceId)
    requires Possible(config, Initial([]), actions)
    requires var s := After(config, Initial([]), actions);
             Pending(s, key.deviceId) == [] && s.monitor == [] && |s.history| <= config.maxRecords
    ensures var s := After(config, Initial([]), actions);
            var flags := Flags(AlarmsOf(s.history), key);
            var listed := AlarmText(key.deviceId, key.address, key.rule) in Replay(NOTHING, s.cache.file).activeAlarms;
            (listed <==> (key.address, key.rule) in Rules(s, key.deviceId)) <==>
                  (LastFlag(flags, false) <==> Net(flags) > 0)
  {
    hide After, Possible, AlarmText, Replay, CleanIds, Flags, AlarmsOf, Rules;
    AlarmConservation(config, [], actions, key);
    ReportedFromLog(config, actions, key);
    EmptyFlags(key);
  }
}
