/**
 When the report is right about staleness, in terms of the schedule: which of the two threads that share the rule
 changed it last, and which wrote about it last.
 */
module StaleReports {
  import opened Text
  import opened Points
  import opened Alarms
  import opened AlarmProperties
  import opened Cache
  import opened Report
  import opened Acquisition
  import opened AcquisitionProperties
  import opened Interleavings
  import opened SnapshotProperties
  import opened EndToEnd
  import opened ReportedValues

  // ------------------------------------------------------ what a schedule shows

  datatype Party = Nobody | Worker | Monitor

  /** Who changed a rule last, who wrote a line about it last, and whether the monitor's last change raised it. */
  datatype Track = Track(changer: Party, writer: Party, monitorRaised: bool)

  const UNTOUCHED := Track(Nobody, Nobody, true)

  /** A critical section changes a rule exactly when it puts an event about it into its batch. */
  function Noted(track: Track, action: Action, deviceId: string, v: View, w: View): Track {
    match action
    case Sense(device, _, _, _) => if device.id == deviceId && w.worker != [] then track.(changer := Worker) else track
    case Patrol(_, _) =>
      if w.monitor == [] then track else track.(changer := Monitor, monitorRaised := w.monitor[|w.monitor| - 1])
    case Flush(_, _) => if w.logged != v.logged then track.(writer := Worker) else track
    case FlushMonitor(_) => if w.logged != v.logged then track.(writer := Monitor) else track
  }

  ghost function TrackOf(config: Config, s: SystemState, actions: seq<Action>, key: AlarmKey, track: Track): Track
    requires Possible(config, s, actions)
    decreases |actions|
  {
    if actions == [] then track
    else
      var t := Step(config, s, actions[0]);
      TrackOf(config, t, actions[1..], key, Noted(track, actions[0], key.deviceId, ViewOf(s, key), ViewOf(t, key)))
  }

  // --------------------------------------------------- what the track remembers

  /** The flag a party's last event about STALE carries: the worker only ever clears it. */
  function Says(track: Track, party: Party): bool {
    party.Monitor? && track.monitorRaised
  }

  ghost predicate EndsIn(flags: seq<bool>, last: bool) {
    flags != [] ==> flags[|flags| - 1] == last
  }

  ghost predicate Follows(v: View, track: Track) {
    && v.active == Says(track, track.changer)
    && EndsIn(v.worker, false) && EndsIn(v.monitor, track.monitorRaised)
    && (track.changer == Nobody <==> v.logged == [] && v.worker == [] && v.monitor == [])
    && (track.writer == Nobody <==> v.logged == [])
    && (track.writer == Worker && v.worker == [] ==> EndsIn(v.logged, false))
    && (track.writer == Monitor && v.monitor == [] ==> EndsIn(v.logged, track.monitorRaised))
  }

  lemma LastOfChange(flags: seq<bool>, before: bool, after: bool)
    requires Chained(flags, before, after)
    ensures EndsIn(flags, after) && (flags == [] ==> before == after)
  {
  }

  lemma SensedFollows(v: View, w: View, track: Track)
    requires Follows(v, track) && Sensed(v, w) && (w.worker != [] ==> !w.active)
    ensures Follows(w, if w.worker != [] then track.(changer := Worker) else track)
  {
    LastOfChange(w.worker, v.active, w.active);
  }

  lemma PatrolledFollows(v: View, w: View, track: Track)
    requires Follows(v, track) && Patrolled(v, w)
    ensures Follows(w, if w.monitor == [] then track
                       else track.(changer := Monitor, monitorRaised := w.monitor[|w.monitor| - 1]))
  {
    LastOfChange(w.monitor, v.active, w.active);
  }

  lemma WorkerLoggedFollows(v: View, w: View, out: seq<bool>, track: Track)
    requires Follows(v, track) && WorkerLogged(v, w, out)
    ensures Follows(w, if w.logged != v.logged then track.(writer := Worker) else track)
  {
    LoggedFurther(v.logged, out, w.worker);
  }

  lemma MonitorLoggedFollows(v: View, w: View, out: seq<bool>, track: Track)
    requires Follows(v, track) && MonitorLogged(v, w, out)
    ensures Follows(w, if w.logged != v.logged then track.(writer := Monitor) else track)
  {
    LoggedFurther(v.logged, out, w.monitor);
  }

  /** Moving the front of a queue to the end of the log. */
  lemma LoggedFurther(logged: seq<bool>, out: seq<bool>, rest: seq<bool>)
    ensures out == [] <==> logged + out == logged
    ensures out == [] ==> out + rest == rest
    ensures out != [] ==> (logged + out)[|logged + out| - 1] == out[|out| - 1]
    ensures rest != [] ==> (out + rest)[|out + rest| - 1] == rest[|rest| - 1]
    ensures rest == [] ==> out + rest == out
  {
    if out != [] {
      assert |logged + out| > |logged|;
    }
  }

  // ------------------------------------------------------- one step of the system

  lemma {:induction false} RunFlagsElsewhere(active: RuleState, definition: PointDefinition, checks: seq<Check>,
                                             at: Clock, key: AlarmKey)
    requires key.address != definition.address
    ensures Flags(RunEvents(active, definition, checks, at), key) == []
    decreases |checks|
  {
    hide Settled;
    if checks != [] {
      var check := checks[0];
      var first := TransitionEvents(active, definition, check, at(definition.address, check.rule));
      var next := Settled(active, definition.address, check.rule, check.now);
      RunFlagsElsewhere(next, definition, checks[1..], at, key);
      FlagsAppend(first, RunEvents(next, definition, checks[1..], at), key);
      OneEventElsewhere(active, definition, check, at(definition.address, check.rule), key);
    }
  }

  lemma OneEventElsewhere(active: RuleState, definition: PointDefinition, check: Check, at: int, key: AlarmKey)
    requires key.address != definition.address
    ensures Flags(TransitionEvents(active, definition, check, at), key) == []
  {
    var events := TransitionEvents(active, definition, check, at);
    if events != [] {
      assert events[1..] == [];
    }
  }

  /** A worker's critical section says something of STALE only where fresh data clears it. */
  lemma SenseOnlyClears(config: Config, s: SystemState, device: Device, reading: Reading, takenAt: int, at: Clock,
                        key: AlarmKey)
    requires Pending(s, device.id) == [] && key.deviceId == device.id && key.rule == Stale
    ensures var w := ViewOf(SenseStep(config, s, device, reading, takenAt, at), key);
            w.worker != [] ==> !w.active
  {
    if key.address == reading.address {
      hide Checks, RunEvents, RunState, Attach, Batch, BusinessOf, DefinitionFor, Flags;
      SenseClearsStale(config, s, device, reading, takenAt, at);
    } else {
      SenseElsewhere(config, s, device, reading, takenAt, at, key);
    }
  }

  lemma SenseElsewhere(config: Config, s: SystemState, device: Device, reading: Reading, takenAt: int, at: Clock,
                       key: AlarmKey)
    requires key.deviceId == device.id && key.address != reading.address
    ensures ViewOf(SenseStep(config, s, device, reading, takenAt, at), key).worker == []
  {
    hide Checks, RunEvents, RunState, Attach, Batch, BusinessOf, DefinitionFor, Flags, AlarmsOf;
    var snapshot, definition := SnapshotOf(device, reading, takenAt), Definition(device, reading.address);
    var checks, active := Checks(config.formatter, definition, snapshot), Rules(s, device.id);
    var raw := RunEvents(active, definition, checks, at);
    DefinitionAddress(device, device.points, reading.address);
    AlarmsInBatch(BusinessOf(config.formatter, definition, snapshot), snapshot, Attach(raw, device));
    RunUnattached(active, definition, checks, at);
    AttachFlags(raw, device, key);
    RunFlagsElsewhere(active, definition, checks, at, key.(deviceId := ""));
  }

  lemma StepFollows(config: Config, s: SystemState, action: Action, key: AlarmKey, track: Track)
    requires key.rule == Stale && Owned(s) && Enabled(config, s, action) && Follows(ViewOf(s, key), track)
    ensures var v, w := ViewOf(s, key), ViewOf(Step(config, s, action), key);
            Follows(w, Noted(track, action, key.deviceId, v, w))
  {
    hide ViewOf, SenseStep, FlushStep, PatrolStep, FlushMonitorStep, Follows, Sensed, Patrolled, WorkerLogged,
      MonitorLogged, Owned;
    var v, w := ViewOf(s, key), ViewOf(Step(config, s, action), key);
    match action
    case Sense(device, reading, takenAt, at) =>
      SenseView(config, s, device, reading, takenAt, at, key);
      if device.id == key.deviceId {
        SenseOnlyClears(config, s, device, reading, takenAt, at, key);
        SensedFollows(v, w, track);
      }
    case Flush(deviceId, visible) =>
      var out := FlushView(config, s, deviceId, visible, key);
      if key.deviceId == deviceId {
        WorkerLoggedFollows(v, w, out, track);
      }
    case Patrol(now, clocks) =>
      PatrolView(config, s, now, clocks, key);
      PatrolledFollows(v, w, track);
    case FlushMonitor(visible) =>
      var out := FlushMonitorView(config, s, visible, key);
      MonitorLoggedFollows(v, w, out, track);
  }

  lemma {:induction false} RunFollowed(config: Config, s: SystemState, actions: seq<Action>, key: AlarmKey,
                                       track: Track)
    requires key.rule == Stale && Owned(s) && Possible(config, s, actions) && Follows(ViewOf(s, key), track)
    ensures Follows(ViewOf(After(config, s, actions), key), TrackOf(config, s, actions, key, track))
    decreases |actions|
  {
    hide ViewOf, Step, Follows, Owned, Enabled, Noted;
    if actions != [] {
      var t := Step(config, s, actions[0]);
      StepFollows(config, s, actions[0], key, track);
      OwnedKept(config, s, actions[0]);
      RunFollowed(config, t, actions[1..], key, Noted(track, actions[0], key.deviceId, ViewOf(s, key), ViewOf(t, key)));
    }
  }

  // ---------------------------------------------------------------- the theorem

  /** With empty queues, state and last line agree exactly if one party did both, or the monitor's last change cleared.
      */
  lemma AgreeExactly(v: View, track: Track)
    requires Follows(v, track) && v.worker == [] && v.monitor == []
    ensures (LastFlag(v.logged, false) <==> v.active) <==> (track.writer == track.changer || !track.monitorRaised)
  {
  }

  lemma Unseen(key: AlarmKey)
    ensures Owned(Initial([])) && Follows(ViewOf(Initial([]), key), UNTOUCHED)
  {
    InitialParts(Config([], Formatter(d => "", d => "", t => ""), 0), key.deviceId, key.address, key);
  }

  /**
   Once nothing about a device is pending, and a line about STALE of the point is still in the file or none was
   trimmed, the report is right about it exactly if the thread that wrote about it last is the thread that changed it
   last, or the monitor's last change cleared it.
   */
  lemma StaleReportedExactly(config: Config, actions: seq<Action>, deviceId: string, address: int)
    requires ValidConfig(config) && CleanIds(config) && Named(config, deviceId)
    requires Possible(config, Initial([]), actions)
    requires var s := After(config, Initial([]), actions); Pending(s, deviceId) == [] && s.monitor == []
    requires var s := After(config, Initial([]), actions);
             || |s.history| <= config.maxRecords
             || Flags(AlarmsOf(LastOf(s.history, |s.cache.file|)), AlarmKey(deviceId, address, Stale)) != []
    ensures var s, key := After(config, Initial([]), actions), AlarmKey(deviceId, address, Stale);
            var listed := AlarmText(deviceId, address, Stale) in Replay(NOTHING, s.cache.file).activeAlarms;
            var track := TrackOf(config, Initial([]), actions, key, UNTOUCHED);
            (listed <==> (address, Stale) in Rules(s, deviceId)) <==>
                  (track.writer == track.changer || !track.monitorRaised)
  {
    hide After, Possible, AlarmText, Replay, CleanIds, Named, Flags, AlarmsOf, Rules, ViewOf, Follows, Owned, TrackOf;
    var s, key := After(config, Initial([]), actions), AlarmKey(deviceId, address, Stale);
    Unseen(key);
    RunFollowed(config, Initial([]), actions, key, UNTOUCHED);
    ReportedFromKept(config, actions, key);
    ViewParts(s, key);
    EmptyFlags(key);
    AgreeExactly(ViewOf(s, key), TrackOf(config, Initial([]), actions, key, UNTOUCHED));
  }

  // ---------------------------------------------- clocks that do not run backwards

  /** The monitor's readings of the clock never decrease, from one pass to the next. */
  ghost predicate Forward(actions: seq<Action>, from: int)
    decreases |actions|
  {
    actions == [] ||
    match actions[0]
    case Patrol(now, _) => from <= now && Forward(actions[1..], now)
    case _ => Forward(actions[1..], from)
  }

  /** Staleness of a point, once found, is found again as long as its snapshot is the same. */
  ghost predicate StaysStale(s: SystemState, device: Device, address: int, now: int) {
    (address, Stale) in Rules(s, device.id) ==>
      exists p <- device.points :: p.address == address && IsStale(s.snapshots, device.id, p, now)
  }

  lemma LaterIsStaler(snapshots: map<string, Snapshot>, deviceId: string, point: PointDefinition, now: int, later: int)
    requires IsStale(snapshots, deviceId, point, now) && now <= later
    ensures IsStale(snapshots, deviceId, point, later)
  {
    hide PointKey;
    var key := PointKey(deviceId, point.address);
    if key in snapshots {
      StaleExactly(now - snapshots[key].timestamp, point.staleSeconds);
      StaleExactly(later - snapshots[key].timestamp, point.staleSeconds);
    }
  }

  ghost predicate HasPoint(points: seq<PointDefinition>, address: int) {
    exists p <- points :: p.address == address
  }

  /** One pass over a device's points says at most one thing of each address, and nothing of addresses it has no point
      for. */
  lemma {:induction false} OncePerPoint(numbers: Formatter, active: RuleState, snapshots: map<string, Snapshot>,
                                        deviceId: string, points: seq<PointDefinition>, now: int, at: Clock,
                                        key: AlarmKey)
    requires DistinctAddresses(points)
    ensures |Flags(CallsEvents(numbers, active, StaleCalls(snapshots, deviceId, points, now, at)), key)|
            <= if HasPoint(points, key.address) then 1 else 0
    decreases |points|
  {
    hide IsStale, Settled, CallsEvents, TransitionEvents;
    if points == [] {
      NoCalls(numbers, active);
    } else {
      var p, rest := points[0], points[1..];
      var stale := IsStale(snapshots, deviceId, p, now);
      var next, calls := Settled(active, p.address, Stale, stale), StaleCalls(snapshots, deviceId, rest, now, at);
      assert points == [p] + rest;
      StalenessRun(numbers, active, p, stale, at, calls);
      OncePerPoint(numbers, next, snapshots, deviceId, rest, now, at, key);
      var first := TransitionEvents(active, p, StaleCheck(stale), at(p.address, Stale));
      FlagsAppend(first, CallsEvents(numbers, next, calls), key);
      OneEvent(active, p, StaleCheck(stale), at(p.address, Stale), key);
      if p.address == key.address {
        assert !HasPoint(rest, key.address);
      }
    }
  }

  lemma NoCalls(numbers: Formatter, active: RuleState)
    ensures CallsEvents(numbers, active, []) == []
  {
  }

  lemma OneEvent(active: RuleState, definition: PointDefinition, check: Check, at: int, key: AlarmKey)
    ensures |Flags(TransitionEvents(active, definition, check, at), key)|
            <= if definition.address == key.address then 1 else 0
  {
    var events := TransitionEvents(active, definition, check, at);
    if events != [] {
      assert events[1..] == [];
    }
  }

  lemma {:induction false} OncePerPass(config: Config, devices: seq<Device>, snapshots: map<string, Snapshot>,
                                       alarms: map<string, RuleState>, now: int, at: Clocks, device: Device,
                                       key: AlarmKey)
    requires DistinctIds(devices) && key.deviceId == device.id && DistinctAddresses(device.points)
    requires forall d <- devices :: d.id == device.id ==> d == device
    ensures |Flags(PatrolEvents(config, devices, snapshots, alarms, now, at), key)|
            <= if device in devices && HasPoint(device.points, key.address) then 1 else 0
    decreases |devices|
  {
    hide CallsState, CallsEvents, Attach, StaleCalls, DistinctAddresses, HasPoint;
    if devices != [] {
      var d := devices[0];
      var active, calls := RulesIn(alarms, d.id), StaleCalls(snapshots, d.id, d.points, now, at(d.id));
      var next := alarms[d.id := CallsState(config.formatter, active, calls)];
      var raw := CallsEvents(config.formatter, active, calls);
      assert devices == [d] + devices[1..];
      OncePerPass(config, devices[1..], snapshots, next, now, at, device, key);
      StaleCallsOnlyStale(snapshots, d.id, d.points, now, at(d.id));
      CallsOnlyStale(config.formatter, active, calls);
      AttachFlags(raw, d, key);
      FlagsAppend(Attach(raw, d), PatrolEvents(config, devices[1..], snapshots, next, now, at), key);
      if d == device {
        OncePerPoint(config.formatter, active, snapshots, d.id, d.points, now, at(d.id), key.(deviceId := ""));
        assert device !in devices[1..];
      }
    }
  }

  lemma Short(flags: seq<bool>, before: bool, after: bool)
    requires Chained(flags, before, after) && |flags| <= 1
    ensures flags == if before == after then [] else [after]
  {
  }

  /** A pass at a time no earlier than the last one raises STALE or leaves it, and never clears it. */
  lemma PatrolOnlyRaises(config: Config, s: SystemState, device: Device, address: int, before: int, now: int,
                         clocks: Clocks)
    requires ValidConfig(config) && device in config.devices && DistinctAddresses(device.points)
    requires s.monitor == [] && StaysStale(s, device, address, before) && before <= now
    ensures var t := PatrolStep(config, s, now, clocks);
            && StaysStale(t, device, address, now)
            && ViewOf(t, AlarmKey(device.id, address, Stale)).monitor in {[], [true]}
  {
    hide PatrolEvents, PatrolRules, IsStale, ViewOf, Chained, Flags;
    var t, key := PatrolStep(config, s, now, clocks), AlarmKey(device.id, address, Stale);
    var v, w := ViewOf(s, key), ViewOf(t, key);
    SettledByPass(config, s, device, address, now, clocks);
    PatrolView(config, s, now, clocks, key);
    ViewParts(s, key);
    ViewParts(t, key);
    AlarmsInWrites(PatrolEvents(config, config.devices, s.snapshots, s.alarms, now, clocks));
    OncePerPass(config, config.devices, s.snapshots, s.alarms, now, clocks, device, key);
    Short(w.monitor, v.active, w.active);
    if v.active {
      var p :| p in device.points && p.address == address && IsStale(s.snapshots, device.id, p, before);
      LaterIsStaler(s.snapshots, device.id, p, before, now);
    }
  }

  lemma SettledByPass(config: Config, s: SystemState, device: Device, address: int, now: int, clocks: Clocks)
    requires ValidConfig(config) && device in config.devices && DistinctAddresses(device.points)
    ensures (address, Stale) in Rules(PatrolStep(config, s, now, clocks), device.id) <==>
            if HasPoint(device.points, address)
            then exists p <- device.points :: p.address == address && IsStale(s.snapshots, device.id, p, now)
            else (address, Stale) in Rules(s, device.id)
  {
    hide CallsState, StaleCalls, IsStale, PatrolRules;
    PassPerDevice(config, config.devices, s.snapshots, s.alarms, now, clocks, device);
    StaleCallsSettle(config.formatter, RulesIn(s.alarms, device.id), s.snapshots, device.id, device.points, now,
                     clocks(device.id), address);
  }

  lemma SenseStaysStale(config: Config, s: SystemState, sensed: Device, reading: Reading, takenAt: int, at: Clock,
                        device: Device, address: int, now: int)
    requires ValidConfig(config) && device in config.devices && sensed in config.devices
    requires StaysStale(s, device, address, now)
    ensures StaysStale(SenseStep(config, s, sensed, reading, takenAt, at), device, address, now)
  {
    hide Checks, RunState, Demanded, Watched, DefinitionFor, PointKey, Batch, BusinessOf, SenseEvents, ValidConfig;
    var t := SenseStep(config, s, sensed, reading, takenAt, at);
    if PointKey(sensed.id, reading.address) == PointKey(device.id, address) {
      PointKeyInjective(sensed.id, reading.address, device.id, address);
    }
    if sensed.id == device.id {
      var definition, snapshot := Definition(sensed, reading.address), SnapshotOf(sensed, reading, takenAt);
      DefinitionAddress(sensed, sensed.points, reading.address);
      EvaluationSettles(config.formatter, Rules(s, device.id), definition, snapshot, address, Stale);
      DemandsExclude(definition, snapshot);
      NothingElseWatched(definition);
    }
    if (address, Stale) in Rules(t, device.id) {
      assert (address, Stale) in Rules(s, device.id)
             && PointKey(sensed.id, reading.address) != PointKey(device.id, address);
      var p :| p in device.points && p.address == address && IsStale(s.snapshots, device.id, p, now);
      assert IsStale(t.snapshots, device.id, p, now);
    }
  }

  lemma NothingElseWatched(definition: PointDefinition)
    ensures Watched(definition, Stale)
  {
  }

  lemma StepStaysStale(config: Config, s: SystemState, action: Action, device: Device, address: int, before: int)
    requires ValidConfig(config) && device in config.devices && DistinctAddresses(device.points)
    requires Enabled(config, s, action) && StaysStale(s, device, address, before)
    requires action.Patrol? ==> before <= action.now
    ensures StaysStale(Step(config, s, action), device, address, if action.Patrol? then action.now else before)
  {
    hide SenseStep, PatrolStep, IsStale, Apply, ValidConfig, DistinctAddresses, Logged, ViewOf;
    match action
    case Sense(sensed, reading, takenAt, at) =>
      SenseStaysStale(config, s, sensed, reading, takenAt, at, device, address, before);
    case Patrol(now, clocks) => PatrolOnlyRaises(config, s, device, address, before, now, clocks);
    case _ =>
  }

  /** With distinct addresses and clocks that do not run backwards, the monitor never clears STALE. */
  lemma {:induction false} MonitorOnlyRaises(config: Config, s: SystemState, actions: seq<Action>, device: Device,
                                             address: int, from: int, track: Track)
    requires ValidConfig(config) && device in config.devices && DistinctAddresses(device.points)
    requires Possible(config, s, actions) && Forward(actions, from) && StaysStale(s, device, address, from)
    requires track.monitorRaised
    ensures TrackOf(config, s, actions, AlarmKey(device.id, address, Stale), track).monitorRaised
    decreases |actions|
  {
    hide ViewOf, Step, Enabled, StaysStale, ValidConfig, DistinctAddresses;
    if actions != [] {
      var key, action, t := AlarmKey(device.id, address, Stale), actions[0], Step(config, s, actions[0]);
      StepStaysStale(config, s, action, device, address, from);
      if action.Patrol? {
        RaisesHere(config, s, action, device, address, from);
      }
      MonitorOnlyRaises(config, t, actions[1..], device, address, if action.Patrol? then action.now else from,
                        Noted(track, action, key.deviceId, ViewOf(s, key), ViewOf(t, key)));
    }
  }

  lemma RaisesHere(config: Config, s: SystemState, action: Action, device: Device, address: int, before: int)
    requires ValidConfig(config) && device in config.devices && DistinctAddresses(device.points)
    requires Enabled(config, s, action) && action.Patrol? && StaysStale(s, device, address, before)
             && before <= action.now
    ensures ViewOf(Step(config, s, action), AlarmKey(device.id, address, Stale)).monitor in {[], [true]}
  {
    hide ViewOf, PatrolStep, StaysStale, ValidConfig, DistinctAddresses;
    PatrolOnlyRaises(config, s, device, address, before, action.now, action.clocks);
  }

  /**
   If the monitor's clock does not run backwards and the device's addresses are distinct, the report is right about
   STALE of any of its points exactly if the thread that wrote about it last is the thread that changed it last.
   */
  lemma StaleReportedBySchedule(config: Config, actions: seq<Action>, device: Device, address: int, from: int)
    requires ValidConfig(config) && CleanIds(config) && device in config.devices && DistinctAddresses(device.points)
    requires Possible(config, Initial([]), actions) && Forward(actions, from)
    requires var s := After(config, Initial([]), actions); Pending(s, device.id) == [] && s.monitor == []
    requires var s := After(config, Initial([]), actions);
             || |s.history| <= config.maxRecords
             || Flags(AlarmsOf(LastOf(s.history, |s.cache.file|)), AlarmKey(device.id, address, Stale)) != []
    ensures var s, key := After(config, Initial([]), actions), AlarmKey(device.id, address, Stale);
            var listed := AlarmText(device.id, address, Stale) in Replay(NOTHING, s.cache.file).activeAlarms;
            var track := TrackOf(config, Initial([]), actions, key, UNTOUCHED);
            (listed <==> (address, Stale) in Rules(s, device.id)) <==> track.writer == track.changer
  {
    IsNamed(config, device);
    hide *;
    NothingStale(device, address, from);
    MonitorOnlyRaises(config, Initial([]), actions, device, address, from, UNTOUCHED);
    StaleReportedExactly(config, actions, device.id, address);
  }

  lemma NothingStale(device: Device, address: int, from: int)
    ensures StaysStale(Initial([]), device, address, from)
  {
  }
}
