/**
 From the log to the report: what the report tool reads out of the cache file is what the
 alarm managers and the snapshots of the running system say, in every interleaving.
 */
module EndToEnd {
  import opened Wrappers
  import opened Text
  import opened Points
  import opened Alarms
  import opened AlarmProperties
  import opened Cache
  import opened CacheProperties
  import opened Report
  import opened Acquisition
  import opened AcquisitionProperties
  import opened Interleavings

  // ------------------------------------------------------- reading one written line

  /** The report's key of a rule. */
  function AlarmText(deviceId: string, address: int, rule: Rule): string {
    PointKey(Clean(deviceId), address) + ":" + RuleName(rule)
  }

  function AlarmLine(formatter: Formatter, e: AlarmEvent): ActiveAlarm {
    ActiveAlarm(formatter.time(e.timestamp), Clean(e.deviceId), Clean(e.deviceName), Decimal(e.address),
                Clean(e.pointName),
                RuleName(e.rule), SeverityName(e.severity), formatter.number(e.value), Clean(e.message))
  }

  function MeasureLine(formatter: Formatter, x: Snapshot): LatestMeasure {
    LatestMeasure(formatter.time(x.timestamp), Clean(x.deviceId), Clean(x.deviceName), Decimal(x.address),
                  Clean(x.name),
                  PointTypeName(x.pointType), Clean(x.iecType), formatter.number(x.value), StateText(x.state),
                  Clean(x.unit),
                  QualityText(x.quality))
  }

  /** What an entry means to the report, field by field. */
  function ConsumeEntry(formatter: Formatter, s: Summary, entry: Entry): Summary {
    var counted := s.(records := s.records + 1);
    match entry
    case Measure(x) => WithMeasure(counted, PointKey(Clean(x.deviceId), x.address), MeasureLine(formatter, x))
    case Business(_) => counted
    case Alarm(e) =>
      WithAlarm(counted, AlarmText(e.deviceId, e.address, e.rule), if e.active then "RAISED" else "CLEARED",
                AlarmLine(formatter, e))
  }

  /** The report understands every line the cache writes; its older formats are never taken for one. */
  lemma LineUnderstood(formatter: Formatter, s: Summary, entry: Entry)
    requires BarFree(formatter)
    ensures ConsumeLine(s, Render(formatter, entry)) == ConsumeEntry(formatter, s, entry)
  {
    LineRoundTrip(formatter, entry);
    hide Split, Render, FieldsOf, ConsumeEntry, Consume;
    FieldsUnderstood(formatter, s, entry);
  }

  lemma FieldsUnderstood(formatter: Formatter, s: Summary, entry: Entry)
    ensures |FieldsOf(formatter, entry)| >= 3 && Consume(s, FieldsOf(formatter, entry))
            == ConsumeEntry(formatter, s, entry)
  {
    hide Clean, Decimal, QualityText, PointTypeName, BusinessTypeName, SeverityName, RuleName, StateText, WithMeasure,
      WithAlarm;
    if entry.Measure? {
    } else {
      KindsDiffer();
      if entry.Alarm? {
        RuleNameClean(entry.event.rule);
      }
    }
  }

  lemma RuleNameClean(rule: Rule)
    ensures Clean(RuleName(rule)) == RuleName(rule)
  {
  }

  lemma KindsDiffer()
    ensures "BUSINESS" != "MEASURE" && "BUSINESS" != "ALARM" && "ALARM" != "MEASURE" && "RAISED" != "CLEARED"
  {
    assert "BUSINESS"[0] == 'B' && "ALARM"[0] == 'A' && "MEASURE"[0] == 'M' && "RAISED"[0] == 'R'
           && "CLEARED"[0] == 'C';
  }

  // ------------------------------------------------- reading a file of written lines

  /** The flags of the events whose report key is key. */
  predicate SharesText(e: AlarmEvent, key: string) {
    AlarmText(e.deviceId, e.address, e.rule) == key
  }

  function TextFlags(events: seq<AlarmEvent>, key: string): seq<bool> {
    if events == [] then []
    else (if SharesText(events[0], key) then [events[0].active] else []) + TextFlags(events[1..], key)
  }

  function LastFlag(flags: seq<bool>, otherwise: bool): bool {
    if flags == [] then otherwise else flags[|flags| - 1]
  }

  lemma RenderAllStep(formatter: Formatter, entries: seq<Entry>)
    requires entries != []
    ensures RenderAll(formatter, entries) != []
    ensures RenderAll(formatter, entries)[0] == Render(formatter, entries[0])
    ensures RenderAll(formatter, entries)[1..] == RenderAll(formatter, entries[1..])
  {
    hide Render;
  }

  lemma EntryActive(formatter: Formatter, s: Summary, entry: Entry, key: string)
    ensures key in ConsumeEntry(formatter, s, entry).activeAlarms <==>
            LastFlag(TextFlags(AlarmsOf([entry]), key), key in s.activeAlarms)
  {
    hide AlarmText, AlarmLine, MeasureLine, PointKey;
    KindsDiffer();
    assert [entry][1..] == [];
    if entry.Alarm? {
      assert AlarmsOf([entry]) == [entry.event] && [entry.event][1..] == [];
    }
  }

  lemma {:induction false} TextFlagsAppend(a: seq<AlarmEvent>, b: seq<AlarmEvent>, key: string)
    ensures TextFlags(a + b, key) == TextFlags(a, key) + TextFlags(b, key)
    decreases |a|
  {
    hide SharesText;
    var rest := TextFlags(b, key);
    if a == [] {
      assert a + b == b && [] + rest == rest;
    } else {
      assert (a + b)[0] == a[0] && (a + b)[1..] == a[1..] + b;
      TextFlagsAppend(a[1..], b, key);
      var first, middle := if SharesText(a[0], key) then [a[0].active] else [], TextFlags(a[1..], key);
      assert TextFlags(a, key) == first + middle && TextFlags(a + b, key) == first + (middle + rest);
      assert first + (middle + rest) == first + middle + rest;
    }
  }

  /** A rule is active in the report exactly when the last line about it says RAISED. */
  lemma {:induction false} ReplayActive(formatter: Formatter, s: Summary, entries: seq<Entry>, key: string)
    requires BarFree(formatter)
    ensures key in Replay(s, RenderAll(formatter, entries)).activeAlarms <==>
            LastFlag(TextFlags(AlarmsOf(entries), key), key in s.activeAlarms)
    decreases |entries|
  {
    hide ConsumeLine, ConsumeEntry, Render, RenderAll, TextFlags;
    if entries == [] {
      assert RenderAll(formatter, entries) == [] by { NothingRendered(formatter); }
      NoTextFlags(key);
    } else {
      var next := ConsumeEntry(formatter, s, entries[0]);
      RenderAllStep(formatter, entries);
      LineUnderstood(formatter, s, entries[0]);
      EntryActive(formatter, s, entries[0], key);
      ReplayActive(formatter, next, entries[1..], key);
      assert entries == [entries[0]] + entries[1..];
      AlarmsOfAppend([entries[0]], entries[1..]);
      TextFlagsAppend(AlarmsOf([entries[0]]), AlarmsOf(entries[1..]), key);
    }
  }

  lemma NothingRendered(formatter: Formatter)
    ensures RenderAll(formatter, []) == []
  {
  }

  lemma NoTextFlags(key: string)
    ensures TextFlags([], key) == []
  {
  }

  // ------------------------------------------------------- one key, one rule

  /** Device identifiers stay different when their bars are replaced. */
  ghost predicate CleanIds(config: Config) {
    forall a, b | a in config.devices && b in config.devices :: Clean(a.id) == Clean(b.id) ==> a.id == b.id
  }

  ghost predicate Named(config: Config, deviceId: string) {
    exists d <- config.devices :: d.id == deviceId
  }

  /** The report's key of a rule confuses two rules exactly if they differ in nothing but device identifiers that become
      equal when their bars are replaced. */
  lemma ReportKeyExactly(d1: string, a1: int, r1: Rule, d2: string, a2: int, r2: Rule)
    ensures AlarmText(d1, a1, r1) == AlarmText(d2, a2, r2) <==> Clean(d1) == Clean(d2) && a1 == a2 && r1 == r2
  {
    hide Clean, PointKey, RuleName;
    if AlarmText(d1, a1, r1) == AlarmText(d2, a2, r2) {
      LastColon(PointKey(Clean(d1), a1), RuleName(r1), PointKey(Clean(d2), a2), RuleName(r2));
      RuleNameInjective(r1, r2);
      PointKeyInjective(Clean(d1), a1, Clean(d2), a2);
    }
  }

  lemma SameId(config: Config, a: string, b: string)
    requires CleanIds(config) && Named(config, a) && Named(config, b)
    ensures Clean(a) == Clean(b) <==> a == b
  {
    hide Clean;
  }

  lemma {:induction false} TextFlagsAreFlags(config: Config, events: seq<AlarmEvent>, key: AlarmKey)
    requires CleanIds(config) && Named(config, key.deviceId) && forall e <- events :: Named(config, e.deviceId)
    ensures TextFlags(events, AlarmText(key.deviceId, key.address, key.rule)) == Flags(events, key)
    decreases |events|
  {
    hide AlarmText, CleanIds, Named;
    if events != [] {
      var e := events[0];
      TextFlagsAreFlags(config, events[1..], key);
      ReportKeyExactly(e.deviceId, e.address, e.rule, key.deviceId, key.address, key.rule);
      SameId(config, e.deviceId, key.deviceId);
    }
  }

  // ----------------------------------------------- everything logged names a device

  ghost predicate AllNamed(config: Config, s: SystemState) {
    && (forall id :: Pending(s, id) != [] ==> Named(config, id))
    && (forall op <- s.monitor :: Named(config, DeviceOf(op)))
    && (forall entry <- s.history :: Named(config, DeviceOf(Write(entry))))
  }

  lemma {:induction false} PassEventsNamed(config: Config, devices: seq<Device>, snapshots: map<string, Snapshot>,
                                           alarms: map<string, RuleState>, now: int, at: Clocks)
    ensures forall e <- PatrolEvents(config, devices, snapshots, alarms, now, at) ::
              exists d <- devices :: d.id == e.deviceId
    decreases |devices|
  {
    hide CallsState, CallsEvents, Attach, StaleCalls;
    if devices != [] {
      var d := devices[0];
      var active, calls := RulesIn(alarms, d.id), StaleCalls(snapshots, d.id, d.points, now, at(d.id));
      var next := alarms[d.id := CallsState(config.formatter, active, calls)];
      StaleCallsOnlyStale(snapshots, d.id, d.points, now, at(d.id));
      CallsOnlyStale(config.formatter, active, calls);
      AttachFlags(CallsEvents(config.formatter, active, calls), d, AlarmKey("", 0, Stale));
      PassEventsNamed(config, devices[1..], snapshots, next, now, at);
      var own, later := Attach(CallsEvents(config.formatter, active, calls), d),
                        PatrolEvents(config, devices[1..], snapshots, next, now, at);
      assert PatrolEvents(config, devices, snapshots, alarms, now, at) == own + later;
      forall e <- PatrolEvents(config, devices, snapshots, alarms, now, at)
        ensures exists x <- devices :: x.id == e.deviceId
      {
        if e in own {
          assert d in devices;
        } else {
          assert e in later;
          var x :| x in devices[1..] && x.id == e.deviceId;
          assert x in devices;
        }
      }
    }
  }

  lemma {:induction false} WritesNamed(config: Config, events: seq<AlarmEvent>)
    requires forall e <- events :: Named(config, e.deviceId)
    ensures forall op <- AlarmWrites(events) :: Named(config, DeviceOf(op))
    decreases |events|
  {
    hide Named;
    if events != [] {
      WritesNamed(config, events[1..]);
    }
  }

  lemma StepNamed(config: Config, s: SystemState, action: Action)
    requires Owned(s) && AllNamed(config, s) && Enabled(config, s, action)
    ensures AllNamed(config, Step(config, s, action))
  {
    hide SenseEvents, SenseRules, Batch, BusinessOf, PatrolEvents, PatrolRules, Apply, DeviceOf, Definition, PointKey;
    var t := Step(config, s, action);
    match action
    case Sense(device, reading, takenAt, at) =>
      forall id | Pending(t, id) != [] ensures Named(config, id) {
        assert id != device.id ==> Pending(t, id) == Pending(s, id);
      }
    case Flush(id, visible) =>
      var op := Pending(s, id)[0];
      assert op in Pending(s, id) && DeviceOf(op) == id && Named(config, id);
      LoggedNamed(config, s.history, op);
      forall other | Pending(t, other) != [] ensures Named(config, other) {
        assert Pending(s, other) != [];
      }
    case Patrol(now, at) =>
      PassEventsNamed(config, config.devices, s.snapshots, s.alarms, now, at);
      WritesNamed(config, PatrolEvents(config, config.devices, s.snapshots, s.alarms, now, at));
      forall id | Pending(t, id) != [] ensures Named(config, id) {
        assert Pending(t, id) == Pending(s, id);
      }
    case FlushMonitor(visible) =>
      assert s.monitor[0] in s.monitor;
      LoggedNamed(config, s.history, s.monitor[0]);
      forall id | Pending(t, id) != [] ensures Named(config, id) {
        assert Pending(t, id) == Pending(s, id);
      }
  }

  lemma LoggedNamed(config: Config, history: seq<Entry>, op: Op)
    requires Named(config, DeviceOf(op)) && forall entry <- history :: Named(config, DeviceOf(Write(entry)))
    ensures forall entry <- Logged(history, op) :: Named(config, DeviceOf(Write(entry)))
  {
    hide Named, DeviceOf;
  }

  lemma {:induction false} NamedEvents(config: Config, entries: seq<Entry>)
    requires forall entry <- entries :: Named(config, DeviceOf(Write(entry)))
    ensures forall e <- AlarmsOf(entries) :: Named(config, e.deviceId)
    decreases |entries|
  {
    hide Named;
    if entries != [] {
      NamedEvents(config, entries[1..]);
      assert entries[0] in entries;
    }
  }

  // -------------------------------------------------- the file follows the history

  ghost predicate FileFollows(config: Config, s: SystemState) {
    var written := RenderAll(config.formatter, s.history);
    && IsSuffix(s.cache.file, written)
    && Min(|s.history|, config.maxRecords) <= |s.cache.file| <= config.maxRecords + 1
    && (|s.history| <= config.maxRecords ==> s.cache.file == written)
  }

  lemma RenderAllPush(formatter: Formatter, entries: seq<Entry>, entry: Entry)
    ensures RenderAll(formatter, entries + [entry]) == RenderAll(formatter, entries) + [Render(formatter, entry)]
  {
    hide Render;
  }

  lemma WriteFollows(config: Config, s: SystemState, t: SystemState, op: Op, visible: bool)
    requires FileFollows(config, s)
    requires t.cache == Apply(config.formatter, config.maxRecords, s.cache, op, visible)
             && t.history == Logged(s.history, op)
    ensures FileFollows(config, t)
  {
    hide Render, RenderAll, IsSuffix, AppendLine, LastOf, PointKey;
    RenderedLength(config.formatter, s.history);
    if op.Write? {
      var line := Render(config.formatter, op.entry);
      RenderAllPush(config.formatter, s.history, op.entry);
      AppendKeepsSuffix(s.cache.file, RenderAll(config.formatter, s.history), line, config.maxRecords, visible);
    }
  }

  lemma RenderedLength(formatter: Formatter, entries: seq<Entry>)
    ensures |RenderAll(formatter, entries)| == |entries|
  {
  }

  lemma StepFileFollows(config: Config, s: SystemState, action: Action)
    requires FileFollows(config, s) && Enabled(config, s, action)
    ensures FileFollows(config, Step(config, s, action))
  {
    hide SenseEvents, SenseRules, Batch, BusinessOf, PatrolEvents, PatrolRules, Apply, RenderAll, IsSuffix, Definition,
      PointKey, Logged;
    var t := Step(config, s, action);
    match action
    case Flush(id, visible) => WriteFollows(config, s, t, Pending(s, id)[0], visible);
    case FlushMonitor(visible) => WriteFollows(config, s, t, s.monitor[0], visible);
    case _ =>
  }

  lemma {:induction false} RunFollows(config: Config, s: SystemState, actions: seq<Action>)
    requires Owned(s) && AllNamed(config, s) && FileFollows(config, s) && Possible(config, s, actions)
    ensures AllNamed(config, After(config, s, actions)) && FileFollows(config, After(config, s, actions))
    decreases |actions|
  {
    hide Owned, AllNamed, FileFollows, Step, Enabled;
    if actions != [] {
      OwnedKept(config, s, actions[0]);
      StepNamed(config, s, actions[0]);
      StepFileFollows(config, s, actions[0]);
      RunFollows(config, Step(config, s, actions[0]), actions[1..]);
    }
  }

  lemma NothingYet(config: Config)
    ensures Owned(Initial([])) && AllNamed(config, Initial([])) && FileFollows(config, Initial([]))
  {
    hide Render, DeviceOf, Named;
    NothingRendered(config.formatter);
  }

  lemma FollowsFromStart(config: Config, actions: seq<Action>)
    requires Possible(config, Initial([]), actions)
    ensures var s := After(config, Initial([]), actions); AllNamed(config, s) && FileFollows(config, s)
  {
    hide After, Possible, Owned, AllNamed, FileFollows;
    NothingYet(config);
    RunFollows(config, Initial([]), actions);
  }

  /** The file of any run from an empty file: the rendering of the last entries of the history, at least min(n, M) of
      them and at most M + 1, and all of them as long as no more than M were written. */
  lemma FileIsEndOfHistory(config: Config, actions: seq<Action>)
    requires Possible(config, Initial([]), actions)
    ensures var s := After(config, Initial([]), actions);
            && Min(|s.history|, config.maxRecords) <= |s.cache.file| <= config.maxRecords + 1
            && s.cache.file == RenderAll(config.formatter, LastOf(s.history, |s.cache.file|))
            && (|s.history| <= config.maxRecords ==> LastOf(s.history, |s.cache.file|) == s.history)
  {
    hide After, Possible, AllNamed, Render;
    FollowsFromStart(config, actions);
    var s := After(config, Initial([]), actions);
    var kept := LastOf(s.history, |s.cache.file|);
    assert |kept| == |s.cache.file|;
    assert RenderAll(config.formatter, kept) == s.cache.file;
  }

  // -------------------------------------------------------------- the theorems

  lemma LastOfChain(flags: seq<bool>, after: bool)
    requires Chained(flags, false, after)
    ensures LastFlag(flags, false) == after
  {
  }

  /** A log in which a rule's events lead to its state, read back from its kept end: active exactly if the rule is and a
      line about it was kept. */
  lemma ReplayOfKept(config: Config, history: seq<Entry>, kept: seq<Entry>, key: AlarmKey, active: bool)
    requires BarFree(config.formatter) && CleanIds(config) && Named(config, key.deviceId)
    requires forall entry <- history :: Named(config, DeviceOf(Write(entry)))
    requires |kept| <= |history| && kept == history[|history| - |kept|..]
    requires Chained(Flags(AlarmsOf(history), key), false, active)
    ensures AlarmText(key.deviceId, key.address, key.rule) in Replay(NOTHING,
                                                                     RenderAll(config.formatter, kept)).activeAlarms
            <==> active && Flags(AlarmsOf(kept), key) != []
  {
    hide AlarmText, Render, RenderAll, Replay, CleanIds, Named, DeviceOf, Chained, Flags;
    var dropped, text := history[..|history| - |kept|], AlarmText(key.deviceId, key.address, key.rule);
    assert history == dropped + kept;
    AlarmsOfAppend(dropped, kept);
    FlagsAppend(AlarmsOf(dropped), AlarmsOf(kept), key);
    NamedEvents(config, kept);
    TextFlagsAreFlags(config, AlarmsOf(kept), key);
    ReplayActive(config.formatter, NOTHING, kept, text);
    LastOfChain(Flags(AlarmsOf(history), key), active);
  }

  /**
   In any run from an empty file, once a device's worker has written its batch, the report marks a rule other than STALE
   active exactly if the device's alarm manager does and the file still has a line about it.  As long as nothing was
   trimmed, the line is there whenever the rule is active.
   */
  lemma ReportMatchesAlarms(config: Config, actions: seq<Action>, key: AlarmKey)
    requires ValidConfig(config) && CleanIds(config) && Named(config, key.deviceId) && key.rule != Stale
    requires Possible(config, Initial([]), actions) && Pending(After(config, Initial([]), actions), key.deviceId) == []
    ensures var s := After(config, Initial([]), actions);
            var report, kept := Replay(NOTHING, s.cache.file), LastOf(s.history, |s.cache.file|);
            var listed := AlarmText(key.deviceId, key.address, key.rule) in report.activeAlarms;
            var active := (key.address, key.rule) in Rules(s, key.deviceId);
            && (listed <==> active && Flags(AlarmsOf(kept), key) != [])
            && (|s.history| <= config.maxRecords ==> (listed <==> active))
  {
    hide After, Possible, AlarmText, Replay, CleanIds, Named, RenderAll, Chained, FileFollows;
    var s := After(config, Initial([]), actions);
    var active := (key.address, key.rule) in Rules(s, key.deviceId);
    FollowsFromStart(config, actions);
    FileIsEndOfHistory(config, actions);
    LogFollowsRules(config, [], actions, key);
    ReplayOfKept(config, s.history, LastOf(s.history, |s.cache.file|), key, active);
    NoFlagsMeansInactive(Flags(AlarmsOf(s.history), key), active);
  }

  lemma NoFlagsMeansInactive(flags: seq<bool>, active: bool)
    requires Chained(flags, false, active)
    ensures active ==> flags != []
  {
  }

  /** In runs that write every batch about a device before the next critical section on it, the same holds of STALE. */
  lemma OrderlyReportMatchesAlarms(config: Config, actions: seq<Action>, key: AlarmKey)
    requires ValidConfig(config) && CleanIds(config) && Named(config, key.deviceId)
    requires Possible(config, Initial([]), actions) && OrderlyRun(config, Initial([]), actions, key.deviceId)
    requires var s := After(config, Initial([]), actions); Pending(s, key.deviceId) == [] && s.monitor == []
    ensures var s := After(config, Initial([]), actions);
            var report, kept := Replay(NOTHING, s.cache.file), LastOf(s.history, |s.cache.file|);
            var listed := AlarmText(key.deviceId, key.address, key.rule) in report.activeAlarms;
            var active := (key.address, key.rule) in Rules(s, key.deviceId);
            && (listed <==> active && Flags(AlarmsOf(kept), key) != [])
            && (|s.history| <= config.maxRecords ==> (listed <==> active))
  {
    hide After, Possible, AlarmText, Replay, CleanIds, Named, RenderAll, Chained, FileFollows, OrderlyRun;
    var s := After(config, Initial([]), actions);
    var active := (key.address, key.rule) in Rules(s, key.deviceId);
    FollowsFromStart(config, actions);
    FileIsEndOfHistory(config, actions);
    OrderlyLogFollowsRules(config, [], actions, key);
    ReplayOfKept(config, s.history, LastOf(s.history, |s.cache.file|), key, active);
    NoFlagsMeansInactive(Flags(AlarmsOf(s.history), key), active);
  }
}
