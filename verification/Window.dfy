/**
 The window of recent business records in any interleaved run: it holds the last records in the order in which they
 entered it, which may differ from the order of their lines in the file; and exactly when it does not.
 */
module Window {
  import opened Wrappers
  import opened Points
  import opened Alarms
  import opened Cache
  import opened CacheProperties
  import opened Acquisition
  import opened AcquisitionProperties
  import opened ReportedValues

  // -------------------------------------------------- what enters the window

  /** The next operation a step takes from a queue, if it takes one. */
  function Taken(s: SystemState, action: Action): Option<Op> {
    match action
    case Flush(deviceId, _) => if Pending(s, deviceId) == [] then None else Some(Pending(s, deviceId)[0])
    case FlushMonitor(_) => if s.monitor == [] then None else Some(s.monitor[0])
    case _ => None
  }

  function RememberedBy(op: Option<Op>): seq<BusinessRecord> {
    if op.Some? && op.value.Remember? then [op.value.record] else []
  }

  /** The business records of a run, in the order in which they entered the window. */
  ghost function Remembered(config: Config, s: SystemState, actions: seq<Action>): seq<BusinessRecord>
    requires Possible(config, s, actions)
    decreases |actions|
  {
    if actions == [] then []
    else RememberedBy(Taken(s, actions[0])) + Remembered(config, Step(config, s, actions[0]), actions[1..])
  }

  /** The business records of a log, in the order of their lines. */
  function Recorded(entries: seq<Entry>): seq<BusinessRecord> {
    if entries == [] then [] else (if entries[0].Business? then [entries[0].record] else []) + Recorded(entries[1..])
  }

  lemma StepRemembers(config: Config, s: SystemState, action: Action, before: seq<BusinessRecord>)
    requires Enabled(config, s, action) && s.cache.recent == LastOf(before, config.maxRecords)
    ensures Step(config, s, action).cache.recent
         == LastOf(before + RememberedBy(Taken(s, action)), config.maxRecords)
  {
    hide LastOf, SenseEvents, SenseRules, Batch, BusinessOf, SnapshotOf, PatrolRules, PatrolEvents, AppendLine,
      Render, Logged;
    assert before + [] == before;
    var op := Taken(s, action);
    if op.Some? && op.value.Remember? {
      LastOfPush(before, op.value.record, config.maxRecords);
    }
  }

  lemma {:induction false} RunRemembers(config: Config, s: SystemState, actions: seq<Action>,
                                        before: seq<BusinessRecord>)
    requires Possible(config, s, actions) && s.cache.recent == LastOf(before, config.maxRecords)
    ensures After(config, s, actions).cache.recent == LastOf(before + Remembered(config, s, actions), config.maxRecords)
    decreases |actions|
  {
    hide LastOf, Step, Enabled, Taken, RememberedBy;
    if actions == [] {
      assert before + [] == before;
    } else {
      var first := RememberedBy(Taken(s, actions[0]));
      var rest := Remembered(config, Step(config, s, actions[0]), actions[1..]);
      StepRemembers(config, s, actions[0], before);
      RunRemembers(config, Step(config, s, actions[0]), actions[1..], before + first);
      assert before + first + rest == before + (first + rest);
    }
  }

  /** After any interleaved run the window is the last min(n, M) of the records, in the order in which they entered it.
      */
  lemma WindowIsLast(config: Config, file: seq<string>, actions: seq<Action>)
    requires Possible(config, Initial(file), actions)
    ensures var recent, all := After(config, Initial(file), actions).cache.recent,
                               Remembered(config, Initial(file), actions);
            && |recent| == Min(|all|, config.maxRecords)
            && recent == all[|all| - |recent|..]
  {
    hide After, Possible, Remembered;
    RunRemembers(config, Initial(file), actions, []);
    var all := Remembered(config, Initial(file), actions);
    assert [] + all == all;
  }

  /** A query returns the last min(limit, M) of them. */
  lemma QueryIsLast(config: Config, file: seq<string>, actions: seq<Action>, limit: nat)
    requires Possible(config, Initial(file), actions)
    ensures LastOf(After(config, Initial(file), actions).cache.recent, limit)
         == LastOf(Remembered(config, Initial(file), actions), Min(limit, config.maxRecords))
  {
    hide After, Possible, Remembered, LastOf;
    NothingRecent(config);
    RunRemembers(config, Initial(file), actions, []);
    var all := Remembered(config, Initial(file), actions);
    assert [] + all == all;
    LastOfLast(all, limit, config.maxRecords);
  }

  lemma NothingRecent(config: Config)
    ensures LastOf<BusinessRecord>([], config.maxRecords) == []
  {
  }

  // ------------------------------------------------------- window and file

  function Of(records: seq<BusinessRecord>, deviceId: string): seq<BusinessRecord> {
    if records == [] then []
    else (if records[0].snapshot.deviceId == deviceId then [records[0]] else []) + Of(records[1..], deviceId)
  }

  /** Nothing that touches the window or writes a business line. */
  ghost predicate Plain(ops: seq<Op>) {
    forall op <- ops :: !op.Remember? && !(op.Write? && op.entry.Business?)
  }

  /** What is left of a worker's batch: a record is remembered first and written right after. */
  ghost predicate Shaped(ops: seq<Op>) {
    ops == [] ||
    (if ops[0].Remember? then |ops| > 1 && ops[1] == Write(Business(ops[0].record)) && Plain(ops[2..])
     else Plain(ops[1..]))
  }

  /** A record that is in the window while its line is not yet in the file. */
  function Unwritten(ops: seq<Op>): seq<BusinessRecord> {
    if ops != [] && ops[0].Write? && ops[0].entry.Business? then [ops[0].entry.record] else []
  }

  ghost predicate Aligned(s: SystemState, all: seq<BusinessRecord>, deviceId: string) {
    && Shaped(Pending(s, deviceId)) && Plain(s.monitor)
    && Of(all, deviceId) == Of(Recorded(s.history), deviceId) + Unwritten(Pending(s, deviceId))
  }

  lemma {:induction false} OfAppend(a: seq<BusinessRecord>, b: seq<BusinessRecord>, deviceId: string)
    ensures Of(a + b, deviceId) == Of(a, deviceId) + Of(b, deviceId)
    decreases |a|
  {
    if a == [] {
      assert a + b == b;
    } else {
      assert (a + b)[0] == a[0] && (a + b)[1..] == a[1..] + b;
      OfAppend(a[1..], b, deviceId);
    }
  }

  lemma {:induction false} RecordedPush(entries: seq<Entry>, entry: Entry)
    ensures Recorded(entries + [entry]) == Recorded(entries) + if entry.Business? then [entry.record] else []
    decreases |entries|
  {
    if entries == [] {
      assert entries + [entry] == [entry] && [entry][1..] == [];
    } else {
      assert (entries + [entry])[0] == entries[0] && (entries + [entry])[1..] == entries[1..] + [entry];
      RecordedPush(entries[1..], entry);
    }
  }

  lemma One(record: BusinessRecord, deviceId: string)
    ensures Of([record], deviceId) == if record.snapshot.deviceId == deviceId then [record] else []
    ensures Of([], deviceId) == []
  {
    assert [record][1..] == [];
  }

  lemma {:induction false} WritesPlain(events: seq<AlarmEvent>)
    ensures Plain(AlarmWrites(events))
    decreases |events|
  {
    if events != [] {
      WritesPlain(events[1..]);
    }
  }

  lemma BatchShaped(record: BusinessRecord, snapshot: Snapshot, events: seq<AlarmEvent>)
    ensures Shaped(Batch(record, snapshot, events)) && Unwritten(Batch(record, snapshot, events)) == []
  {
    WritesPlain(events);
    var batch, writes := Batch(record, snapshot, events), AlarmWrites(events);
    assert batch[2..] == [Latest(snapshot), Write(Measure(snapshot))] + writes;
  }

  /** Taking the front of a batch: what it means for window and file. */
  lemma FrontTaken(ops: seq<Op>)
    requires ops != [] && Shaped(ops)
    ensures Shaped(ops[1..])
    ensures Unwritten(ops) + RememberedBy(Some(ops[0]))
         == (if ops[0].Write? && ops[0].entry.Business? then [ops[0].entry.record] else []) + Unwritten(ops[1..])
  {
    if |ops| > 1 {
      assert ops[1..][0] == ops[1] && ops[1..][1..] == ops[2..];
      assert !ops[0].Remember? ==> ops[1..][0] in ops[1..] && forall op <- ops[2..] :: op in ops[1..];
    }
  }

  lemma FlushAligned(config: Config, s: SystemState, flushed: string, visible: bool, all: seq<BusinessRecord>,
                     deviceId: string)
    requires Owned(s) && Pending(s, flushed) != [] && Aligned(s, all, deviceId)
    ensures Aligned(FlushStep(config, s, flushed, visible), all + RememberedBy(Some(Pending(s, flushed)[0])), deviceId)
  {
    hide Apply, Of, Recorded, Shaped, Plain, Unwritten;
    var op, t := Pending(s, flushed)[0], FlushStep(config, s, flushed, visible);
    assert op in Pending(s, flushed) && DeviceOf(op) == flushed;
    var into, written := RememberedBy(Some(op)), if op.Write? && op.entry.Business? then [op.entry.record] else [];
    OfAppend(all, into, deviceId);
    if op.Write? {
      RecordedPush(s.history, op.entry);
    }
    assert Recorded(t.history) == Recorded(s.history) + written by {
      assert Recorded(s.history) + [] == Recorded(s.history);
    }
    OfAppend(Recorded(s.history), written, deviceId);
    if into != [] {
      One(into[0], deviceId);
    } else if written != [] {
      One(written[0], deviceId);
    }
    NoneOf(deviceId);
    if flushed == deviceId {
      FrontTaken(Pending(s, flushed));
      var file := Of(Recorded(s.history), deviceId);
      assert Pending(t, deviceId) == Pending(s, deviceId)[1..];
      assert Unwritten(Pending(s, deviceId)) + into == written + Unwritten(Pending(t, deviceId));
      Regrouped(file, Unwritten(Pending(s, deviceId)), into, written, Unwritten(Pending(t, deviceId)));
    } else {
      assert Pending(t, deviceId) == Pending(s, deviceId);
    }
  }

  lemma Regrouped<T>(a: seq<T>, b: seq<T>, c: seq<T>, d: seq<T>, e: seq<T>)
    requires b + c == d + e
    ensures a + b + c == a + d + e
  {
    assert a + b + c == a + (b + c) && a + d + e == a + (d + e);
  }

  lemma NoneOf(deviceId: string)
    ensures Of([], deviceId) == []
  {
  }

  lemma StepAligned(config: Config, s: SystemState, action: Action, all: seq<BusinessRecord>, deviceId: string)
    requires Owned(s) && Enabled(config, s, action) && Aligned(s, all, deviceId)
    ensures Aligned(Step(config, s, action), all + RememberedBy(Taken(s, action)), deviceId)
  {
    hide SenseEvents, SenseRules, Batch, BusinessOf, SnapshotOf, PatrolRules, PatrolEvents, Apply, Of, Recorded, Shaped,
      Unwritten, FlushStep, Plain;
    assert all + [] == all;
    var t := Step(config, s, action);
    match action
    case Sense(device, reading, takenAt, at) =>
      var snapshot := SnapshotOf(device, reading, takenAt);
      BatchShaped(BusinessOf(config.formatter, Definition(device, reading.address), snapshot), snapshot,
                  SenseEvents(config, Rules(s, device.id), device, snapshot, at));
      NothingUnwritten();
      if device.id != deviceId {
        assert Pending(t, deviceId) == Pending(s, deviceId);
      }
    case Flush(flushed, visible) => FlushAligned(config, s, flushed, visible, all, deviceId);
    case Patrol(now, clocks) =>
      WritesPlain(PatrolEvents(config, config.devices, s.snapshots, s.alarms, now, clocks));
    case FlushMonitor(visible) => MonitorAligned(config, s, visible, all, deviceId);
  }

  lemma NothingUnwritten()
    ensures Unwritten([]) == []
  {
  }

  lemma MonitorAligned(config: Config, s: SystemState, visible: bool, all: seq<BusinessRecord>, deviceId: string)
    requires s.monitor != [] && Aligned(s, all, deviceId)
    ensures Aligned(FlushMonitorStep(config, s, visible), all + RememberedBy(Some(s.monitor[0])), deviceId)
  {
    hide Apply, Of, Shaped, Unwritten, Recorded;
    var op := s.monitor[0];
    assert op in s.monitor && all + [] == all;
    if op.Write? {
      RecordedPush(s.history, op.entry);
      assert Recorded(s.history) + [] == Recorded(s.history);
    }
  }

  lemma {:induction false} RunAligned(config: Config, s: SystemState, actions: seq<Action>, before: seq<BusinessRecord>,
                                      deviceId: string)
    requires Owned(s) && Possible(config, s, actions) && Aligned(s, before, deviceId)
    ensures Aligned(After(config, s, actions), before + Remembered(config, s, actions), deviceId)
    decreases |actions|
  {
    hide Owned, Aligned, Step, Enabled, Taken, RememberedBy;
    if actions == [] {
      assert before + [] == before;
    } else {
      var first, next := RememberedBy(Taken(s, actions[0])), Step(config, s, actions[0]);
      StepAligned(config, s, actions[0], before, deviceId);
      OwnedKept(config, s, actions[0]);
      RunAligned(config, next, actions[1..], before + first, deviceId);
      assert before + first + Remembered(config, next, actions[1..])
             == before + (first + Remembered(config, next, actions[1..]));
    }
  }

  lemma NothingYetAligned(file: seq<string>, deviceId: string)
    ensures Owned(Initial(file)) && Aligned(Initial(file), [], deviceId)
  {
    hide DeviceOf;
  }

  /** With no worker batch pending, window and file have had the same records of each device, in the same order. */
  lemma SamePerDevice(config: Config, file: seq<string>, actions: seq<Action>, deviceId: string)
    requires Possible(config, Initial(file), actions) && Pending(After(config, Initial(file), actions), deviceId) == []
    ensures Of(Remembered(config, Initial(file), actions), deviceId)
         == Of(Recorded(After(config, Initial(file), actions).history), deviceId)
  {
    hide After, Possible, Remembered, Owned, Shaped, Plain, Of;
    NothingYetAligned(file, deviceId);
    RunAligned(config, Initial(file), actions, [], deviceId);
    var all := Remembered(config, Initial(file), actions);
    assert [] + all == all;
    NothingUnwritten();
    var recorded := Of(Recorded(After(config, Initial(file), actions).history), deviceId);
    assert recorded + [] == recorded;
  }

  // -------------------------------------------- when their orders are the same

  /** The devices of records, in order: of the steps that remembered them, or of the steps that wrote them. */
  function DevicesOf(records: seq<BusinessRecord>): seq<string> {
    seq(|records|, i requires 0 <= i < |records| => records[i].snapshot.deviceId)
  }

  lemma LastIsOf(records: seq<BusinessRecord>, deviceId: string)
    requires records != [] && records[|records| - 1].snapshot.deviceId == deviceId
    ensures Of(records, deviceId) == Of(records[..|records| - 1], deviceId) + [records[|records| - 1]]
  {
    var n := |records| - 1;
    assert records == records[..n] + [records[n]];
    OfAppend(records[..n], [records[n]], deviceId);
    One(records[n], deviceId);
  }

  lemma LastIsNotOf(records: seq<BusinessRecord>, deviceId: string)
    requires records != [] && records[|records| - 1].snapshot.deviceId != deviceId
    ensures Of(records, deviceId) == Of(records[..|records| - 1], deviceId)
  {
    var n := |records| - 1;
    assert records == records[..n] + [records[n]];
    OfAppend(records[..n], [records[n]], deviceId);
    One(records[n], deviceId);
  }

  lemma SomeOf(records: seq<BusinessRecord>)
    ensures records != [] ==> Of(records, records[0].snapshot.deviceId) != []
  {
  }

  lemma NoneLeft(a: seq<BusinessRecord>, b: seq<BusinessRecord>)
    requires a == [] && forall id :: Of(a, id) == Of(b, id)
    ensures b == []
  {
    SomeOf(b);
  }

  /** Two lists with the same records per device end in the same n records exactly if they end in the same n devices. */
  lemma {:induction false} SameEnds(a: seq<BusinessRecord>, b: seq<BusinessRecord>, n: nat)
    requires forall id :: Of(a, id) == Of(b, id)
    ensures LastOf(a, n) == LastOf(b, n) <==> LastOf(DevicesOf(a), n) == LastOf(DevicesOf(b), n)
    decreases n
  {
    if LastOf(a, n) == LastOf(b, n) {
      DevicesOfLast(a, n);
      DevicesOfLast(b, n);
    }
    if LastOf(DevicesOf(a), n) == LastOf(DevicesOf(b), n) && n > 0 {
      SameDevicesSameEnds(a, b, n);
    }
  }

  lemma DevicesOfLast(records: seq<BusinessRecord>, n: nat)
    ensures LastOf(DevicesOf(records), n) == DevicesOf(LastOf(records, n))
  {
  }

  lemma LastPop<T>(s: seq<T>, n: nat)
    requires s != [] && n > 0
    ensures LastOf(s, n) == LastOf(s[..|s| - 1], n - 1) + [s[|s| - 1]]
  {
  }

  lemma DevicesPop(records: seq<BusinessRecord>)
    requires records != []
    ensures DevicesOf(records) != [] && DevicesOf(records)[..|DevicesOf(records)| - 1]
            == DevicesOf(records[..|records| - 1])
    ensures DevicesOf(records)[|DevicesOf(records)| - 1] == records[|records| - 1].snapshot.deviceId
  {
  }

  lemma {:induction false} SameDevicesSameEnds(a: seq<BusinessRecord>, b: seq<BusinessRecord>, n: nat)
    requires forall id :: Of(a, id) == Of(b, id)
    requires LastOf(DevicesOf(a), n) == LastOf(DevicesOf(b), n)
    ensures LastOf(a, n) == LastOf(b, n)
    decreases n
  {
    hide LastOf, DevicesOf, Of;
    if n == 0 {
      NoneWanted(a);
      NoneWanted(b);
    } else if a == [] {
      NoneLeft(a, b);
    } else if b == [] {
      NoneLeft(b, a);
    } else {
      var a', b', x, y := a[..|a| - 1], b[..|b| - 1], a[|a| - 1], b[|b| - 1];
      LastPop(a, n);
      LastPop(b, n);
      DevicesPop(a);
      DevicesPop(b);
      LastPop(DevicesOf(a), n);
      LastPop(DevicesOf(b), n);
      SameTails(LastOf(DevicesOf(a'), n - 1), x.snapshot.deviceId, LastOf(DevicesOf(b'), n - 1), y.snapshot.deviceId);
      LastIsOf(a, x.snapshot.deviceId);
      LastIsOf(b, x.snapshot.deviceId);
      SameTails(Of(a', x.snapshot.deviceId), x, Of(b', x.snapshot.deviceId), y);
      forall id ensures Of(a', id) == Of(b', id) {
        if id != x.snapshot.deviceId {
          LastIsNotOf(a, id);
          LastIsNotOf(b, id);
        }
      }
      SameDevicesSameEnds(a', b', n - 1);
    }
  }

  lemma NoneWanted(records: seq<BusinessRecord>)
    ensures LastOf(records, 0) == []
  {
  }

  lemma SameTails<T>(a: seq<T>, x: T, b: seq<T>, y: T)
    requires a + [x] == b + [y]
    ensures a == b && x == y
  {
    assert |a + [x]| == |b + [y]|;
    assert (a + [x])[|a|] == x && (b + [y])[|b|] == y;
    assert (a + [x])[..|a|] == a && (b + [y])[..|b|] == b;
  }

  /**
   With no worker batch pending, the window is the last min(n, M) business records of the file's history, in its order,
   exactly if the last M records were remembered and written by the same devices in the same order.
   */
  lemma WindowIsEndOfHistory(config: Config, file: seq<string>, actions: seq<Action>)
    requires Possible(config, Initial(file), actions)
    requires forall id :: Pending(After(config, Initial(file), actions), id) == []
    ensures var s, all := After(config, Initial(file), actions), Remembered(config, Initial(file), actions);
            var recorded, m := Recorded(s.history), config.maxRecords;
            s.cache.recent == LastOf(recorded, m) <==> LastOf(DevicesOf(all), m) == LastOf(DevicesOf(recorded), m)
  {
    hide After, Possible, Remembered, LastOf, Of, DevicesOf;
    var all, recorded := Remembered(config, Initial(file), actions),
                         Recorded(After(config, Initial(file), actions).history);
    forall id ensures Of(all, id) == Of(recorded, id) {
      SamePerDevice(config, file, actions, id);
    }
    NothingRecent(config);
    RunRemembers(config, Initial(file), actions, []);
    assert [] + all == all;
    SameEnds(all, recorded, config.maxRecords);
  }

  // ------------------------------------------------- a run in which they differ

  lemma Quiet(config: Config, s: SystemState, deviceId: string) returns (actions: seq<Action>)
    requires Plain(Pending(s, deviceId))
    ensures Possible(config, s, actions)
    ensures var t := After(config, s, actions);
            && Remembered(config, s, actions) == [] && Recorded(t.history) == Recorded(s.history)
            && t.cache.recent == s.cache.recent && Pending(t, deviceId) == []
            && forall id :: id != deviceId ==> Pending(t, id) == Pending(s, id)
    decreases |Pending(s, deviceId)|
  {
    hide Apply, Recorded;
    actions := [];
    if Pending(s, deviceId) != [] {
      var action := Flush(deviceId, false);
      var t := Step(config, s, action);
      QuietStep(config, s, deviceId);
      var rest := Quiet(config, t, deviceId);
      actions := [action] + rest;
      assert ([action] + rest)[1..] == rest;
    }
  }

  lemma QuietStep(config: Config, s: SystemState, deviceId: string)
    requires Plain(Pending(s, deviceId)) && Pending(s, deviceId) != []
    ensures var t := FlushStep(config, s, deviceId, false);
            && Recorded(t.history) == Recorded(s.history) && t.cache.recent == s.cache.recent
            && Plain(Pending(t, deviceId)) && |Pending(t, deviceId)| < |Pending(s, deviceId)|
            && Taken(s, Flush(deviceId, false)) == Some(Pending(s, deviceId)[0])
            && RememberedBy(Taken(s, Flush(deviceId, false))) == []
            && forall id :: id != deviceId ==> Pending(t, id) == Pending(s, id)
  {
    hide AppendLine, Render, LastOf, Recorded;
    var op := Pending(s, deviceId)[0];
    assert op in Pending(s, deviceId);
    if op.Write? {
      RecordedPush(s.history, op.entry);
      assert Recorded(s.history) + [] == Recorded(s.history);
    }
  }

  /** A critical section leaves a batch that remembers a record and then writes it. */
  lemma SenseLeaves(config: Config, s: SystemState, device: Device, reading: Reading, takenAt: int, at: Clock)
    returns (record: BusinessRecord)
    ensures var t := SenseStep(config, s, device, reading, takenAt, at);
            && record.snapshot.deviceId == device.id
            && |Pending(t, device.id)| >= 2
            && Pending(t, device.id)[0] == Remember(record) && Pending(t, device.id)[1] == Write(Business(record))
            && Plain(Pending(t, device.id)[2..])
            && t.cache == s.cache && t.history == s.history && t.monitor == s.monitor
            && forall id :: id != device.id ==> Pending(t, id) == Pending(s, id)
  {
    hide DefinitionFor, PointTypeOf, SenseRules, SenseEvents;
    var snapshot := SnapshotOf(device, reading, takenAt);
    record := BusinessOf(config.formatter, Definition(device, reading.address), snapshot);
    var events := SenseEvents(config, Rules(s, device.id), device, snapshot, at);
    WritesPlain(events);
    assert Batch(record, snapshot, events)[2..] == [Latest(snapshot), Write(Measure(snapshot))] + AlarmWrites(events);
  }

  /** Taking the front of one queue. */
  lemma OneFlush(config: Config, s: SystemState, deviceId: string)
    requires Pending(s, deviceId) != []
    ensures var t, op := FlushStep(config, s, deviceId, false), Pending(s, deviceId)[0];
            && Pending(t, deviceId) == Pending(s, deviceId)[1..] && t.monitor == s.monitor
            && (forall id :: id != deviceId ==> Pending(t, id) == Pending(s, id))
            && Recorded(t.history) == Recorded(s.history) + (if op.Write? && op.entry.Business? then [op.entry.record]
                                                             else [])
            && (op.Remember? ==> t.cache.recent == LastOf(s.cache.recent + [op.record], config.maxRecords))
            && (op.Write? ==> t.cache.recent == s.cache.recent)
  {
    hide AppendLine, Render, LastOf, Recorded;
    var op := Pending(s, deviceId)[0];
    assert Recorded(s.history) + [] == Recorded(s.history);
    if op.Write? {
      RecordedPush(s.history, op.entry);
    }
  }

  /**
   Two workers whose records enter the window in one order and the file in the other: for any two devices there is a run
   after which nothing is pending and window and file have the same two records in opposite orders.
   */
  lemma WindowCanDiffer(config: Config, d: Device, e: Device, reading: Reading)
    returns (actions: seq<Action>, first: BusinessRecord, second: BusinessRecord)
    requires d in config.devices && e in config.devices && d.id != e.id && config.maxRecords >= 2
    ensures Possible(config, Initial([]), actions)
    ensures var s := After(config, Initial([]), actions);
            && first != second && s.cache.recent == [first, second] && Recorded(s.history) == [second, first]
            && forall id :: Pending(s, id) == []
  {
    hide SenseStep, FlushStep, Plain, Recorded, LastOf, Possible, After;
    var clock: Clock := (a: int, r: Rule) => 0;
    var s0 := Initial([]);
    StartEmpty();
    var a1, a2 := Sense(d, reading, 0, clock), Sense(e, reading, 0, clock);
    first := SenseLeaves(config, s0, d, reading, 0, clock);
    var s1 := SenseStep(config, s0, d, reading, 0, clock);
    second := SenseLeaves(config, s1, e, reading, 0, clock);
    var s2 := SenseStep(config, s1, e, reading, 0, clock);
    OneFlush(config, s2, d.id);
    var s3 := FlushStep(config, s2, d.id, false);
    OneFlush(config, s3, e.id);
    var s4 := FlushStep(config, s3, e.id, false);
    OneFlush(config, s4, e.id);
    var s5 := FlushStep(config, s4, e.id, false);
    OneFlush(config, s5, d.id);
    var s6 := FlushStep(config, s5, d.id, false);
    TwoKept(first, second, config.maxRecords);
    assert Pending(s6, d.id) == Pending(s2, d.id)[2..] && Pending(s6, e.id) == Pending(s2, e.id)[2..];
    assert [] + [second] + [first] == [second, first];
    var quietD := Quiet(config, s6, d.id);
    var s7 := After(config, s6, quietD);
    var quietE := Quiet(config, s7, e.id);
    RunAppend(config, s6, quietD, quietE);
    var f, g := Flush(d.id, false), Flush(e.id, false);
    StepThen(config, s5, f, quietD + quietE);
    StepThen(config, s4, g, [f] + (quietD + quietE));
    StepThen(config, s3, g, [g] + ([f] + (quietD + quietE)));
    StepThen(config, s2, f, [g] + ([g] + ([f] + (quietD + quietE))));
    StepThen(config, s1, a2, [f] + ([g] + ([g] + ([f] + (quietD + quietE)))));
    StepThen(config, s0, a1, [a2] + ([f] + ([g] + ([g] + ([f] + (quietD + quietE))))));
    actions := [a1] + ([a2] + ([f] + ([g] + ([g] + ([f] + (quietD + quietE))))));
  }

  lemma StartEmpty()
    ensures forall id :: Pending(Initial([]), id) == []
    ensures Initial([]).cache.recent == [] && Recorded(Initial([]).history) == []
  {
  }

  lemma TwoKept(first: BusinessRecord, second: BusinessRecord, n: nat)
    requires n >= 2
    ensures LastOf(LastOf([] + [first], n) + [second], n) == [first, second]
  {
  }
}
