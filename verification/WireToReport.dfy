/**
 The join of the two halves of the pipeline: the data objects a client delivers are the readings its worker senses, so
 that snapshots and report show what came last over the wire.
 */
module WireToReport {
  import opened Wrappers
  import opened Frame
  import opened Text
  import opened Points
  import opened Cache
  import opened Report
  import opened Acquisition
  import opened AcquisitionProperties
  import opened SnapshotProperties
  import opened EndToEnd
  import opened ReportedValues
  import Session
  import Mock
  import Channels
  import Link = LinkComposition

  // ----------------------------------------------------- delivered and sensed

  /** The handler's view of delivered objects. */
  function ReadingsOf(objects: seq<InfoObject>, float: seq<Octet> -> Double): seq<Reading> {
    if objects == [] then [] else [ReadingOf(objects[0], float)] + ReadingsOf(objects[1..], float)
  }

  /** What the worker of a device has sensed, in order. */
  function SensedBy(actions: seq<Action>, deviceId: string): seq<Reading> {
    if actions == [] then []
    else
      (if actions[0].Sense? && actions[0].device.id == deviceId then [actions[0].reading] else [])
      + SensedBy(actions[1..], deviceId)
  }

  /** A client calls its handler for every object it delivers, one after the other. */
  ghost predicate Fed(actions: seq<Action>, deviceId: string, objects: seq<InfoObject>, float: seq<Octet> -> Double) {
    SensedBy(actions, deviceId) == ReadingsOf(objects, float)
  }

  /** The last object with an address. */
  function LastAt(objects: seq<InfoObject>, address: int): Option<InfoObject> {
    if objects == [] then None
    else if LastAt(objects[1..], address).Some? then LastAt(objects[1..], address)
    else if objects[0].address == address then Some(objects[0])
    else None
  }

  /** The last reading with an address, and when it was taken. */
  function LastSense(actions: seq<Action>, deviceId: string, address: int): Option<(Reading, int)> {
    if actions == [] then None
    else if LastSense(actions[1..], deviceId, address).Some? then LastSense(actions[1..], deviceId, address)
    else if actions[0].Sense? && actions[0].device.id == deviceId && actions[0].reading.address == address then
      Some((actions[0].reading, actions[0].takenAt))
    else None
  }

  lemma {:induction false} SenseOfDelivered(actions: seq<Action>, deviceId: string, objects: seq<InfoObject>,
                                            float: seq<Octet> -> Double, address: int)
    requires Fed(actions, deviceId, objects, float)
    ensures var last, sense := LastAt(objects, address), LastSense(actions, deviceId, address);
            if last.None? then sense.None? else sense.Some? && sense.value.0 == ReadingOf(last.value, float)
    decreases |actions|
  {
    hide ReadingOf;
    if actions != [] {
      var action := actions[0];
      if action.Sense? && action.device.id == deviceId {
        var readings := ReadingsOf(objects, float);
        assert SensedBy(actions, deviceId)[1..] == SensedBy(actions[1..], deviceId);
        assert objects != [] && readings[0] == action.reading && readings[1..] == ReadingsOf(objects[1..], float);
        ReadingAddress(objects[0], float);
        SenseOfDelivered(actions[1..], deviceId, objects[1..], float, address);
      } else {
        SenseOfDelivered(actions[1..], deviceId, objects, float, address);
      }
    }
  }

  lemma ReadingAddress(content: InfoObject, float: seq<Octet> -> Double)
    ensures ReadingOf(content, float).address == content.address
  {
  }

  // ------------------------------------------------------ sensed and remembered

  /** The snapshot a sense leaves, or what was there before. */
  function Sensed(device: Device, sense: Option<(Reading, int)>, before: Option<Snapshot>): Option<Snapshot> {
    if sense.Some? then Some(SnapshotOf(device, sense.value.0, sense.value.1)) else before
  }

  lemma StepSensed(config: Config, s: SystemState, action: Action, device: Device, address: int)
    requires ValidConfig(config) && device in config.devices && Enabled(config, s, action)
    ensures Lookup(Step(config, s, action).snapshots, PointKey(device.id, address))
         == Sensed(device, LastSense([action], device.id, address), Lookup(s.snapshots, PointKey(device.id, address)))
  {
    hide PointKey, SenseRules, SenseEvents, Batch, BusinessOf, PatrolRules, PatrolEvents, Apply, Logged, DefinitionFor,
      ValidConfig;
    assert [action][1..] == [];
    if action.Sense? {
      if PointKey(action.device.id, action.reading.address) == PointKey(device.id, address) {
        PointKeyInjective(action.device.id, action.reading.address, device.id, address);
      }
      if action.device.id == device.id {
        SameDevice(config, action.device, device);
      }
    }
  }

  lemma {:induction false} RunSensed(config: Config, s: SystemState, actions: seq<Action>, device: Device, address: int)
    requires ValidConfig(config) && device in config.devices && Possible(config, s, actions)
    ensures Lookup(After(config, s, actions).snapshots, PointKey(device.id, address))
         == Sensed(device, LastSense(actions, device.id, address), Lookup(s.snapshots, PointKey(device.id, address)))
    decreases |actions|
  {
    hide PointKey, Step, Enabled, SnapshotOf, ValidConfig;
    if actions != [] {
      StepSensed(config, s, actions[0], device, address);
      RunSensed(config, Step(config, s, actions[0]), actions[1..], device, address);
      assert [actions[0]][1..] == [];
    }
  }

  /** A point's snapshot shows the last object delivered with its address, and there is none before one was. */
  lemma SnapshotIsLastDelivered(config: Config, file: seq<string>, actions: seq<Action>, device: Device,
                                objects: seq<InfoObject>, float: seq<Octet> -> Double, address: int)
    requires ValidConfig(config) && device in config.devices && Possible(config, Initial(file), actions)
    requires Fed(actions, device.id, objects, float)
    ensures var snapshot, last := Lookup(After(config, Initial(file), actions).snapshots, PointKey(device.id, address)),
                                  LastAt(objects, address);
            if last.None? then snapshot.None?
            else exists takenAt :: snapshot == Some(SnapshotOf(device, ReadingOf(last.value, float), takenAt))
  {
    hide After, Possible, PointKey, SnapshotOf, ReadingOf, Fed, ValidConfig;
    SenseOfDelivered(actions, device.id, objects, float, address);
    RunSensed(config, Initial(file), actions, device, address);
    var sense := LastSense(actions, device.id, address);
    if sense.Some? {
      assert Sensed(device, sense, None) == Some(SnapshotOf(device, sense.value.0, sense.value.1));
    }
  }

  // ------------------------------------------------------- remembered and reported

  /**
   In any interleaved run from an empty file, once a device's worker has written its batch, the report shows of each
   point the last object its client delivered for it, if the file still has a measurement of the point, and nothing
   otherwise; untrimmed, it shows it of every point that had an object delivered.
   */
  lemma ReportShowsLastDelivered(config: Config, actions: seq<Action>, device: Device, objects: seq<InfoObject>,
                                 float: seq<Octet> -> Double, address: int)
    requires ValidConfig(config) && CleanIds(config) && device in config.devices
             && Possible(config, Initial([]), actions)
    requires Fed(actions, device.id, objects, float) && Pending(After(config, Initial([]), actions), device.id) == []
    ensures var s, last := After(config, Initial([]), actions), LastAt(objects, address);
            var report, kept := Replay(NOTHING, s.cache.file), LastOf(s.history, |s.cache.file|);
            var shown, measured := Shown(report, PointKey(Clean(device.id), address)),
                                   LastBy(kept, PLAIN, PointKey(device.id, address)).Some?;
            && (measured ==> last.Some? && exists takenAt ::
                  shown == Some(MeasureLine(config.formatter,
                                            SnapshotOf(device, ReadingOf(last.value, float), takenAt))))
            && (!measured ==> shown == None)
            && (|s.history| <= config.maxRecords && last.Some? ==> measured)
  {
    IsNamed(config, device);
    hide After, Possible, PointKey, SnapshotOf, ReadingOf, Fed, Replay, CleanIds, Named, RenderAll, LastBy, Clean,
      MeasureLine, ValidConfig, LastOf;
    var s, key := After(config, Initial([]), actions), PointKey(device.id, address);
    SnapshotIsLastDelivered(config, [], actions, device, objects, float, address);
    ReportMatchesSnapshots(config, actions, device.id, address);
    var last := LastAt(objects, address);
    if last.Some? {
      var takenAt :| Lookup(s.snapshots, key) == Some(SnapshotOf(device, ReadingOf(last.value, float), takenAt));
      assert s.snapshots[key] == SnapshotOf(device, ReadingOf(last.value, float), takenAt);
    }
  }

  /** The same for a client and all its attempts: the objects are those its whole run delivers. */
  lemma ReportShowsRun(config: Config, actions: seq<Action>, device: Device, options: Session.Options,
                       attempts: seq<Session.Attempt>, float: seq<Octet> -> Double, address: int)
    requires ValidConfig(config) && CleanIds(config) && device in config.devices
             && Possible(config, Initial([]), actions)
    requires Fed(actions, device.id, Link.ObjectsDelivered(Session.RunOutput(options, attempts)), float)
    requires var s := After(config, Initial([]), actions);
             Pending(s, device.id) == [] && |s.history| <= config.maxRecords
    ensures var last := LastAt(Link.ObjectsDelivered(Session.RunOutput(options, attempts)), address);
            var shown := Shown(Replay(NOTHING, After(config, Initial([]), actions).cache.file),
                               PointKey(Clean(device.id), address));
            if last.None? then shown == None
            else exists takenAt ::
              shown == Some(MeasureLine(config.formatter, SnapshotOf(device, ReadingOf(last.value, float), takenAt)))
  {
    hide *;
    ReportShowsLastDelivered(config, actions, device, Link.ObjectsDelivered(Session.RunOutput(options, attempts)),
                             float, address);
  }

  /**
   From the mock's process to the report: in a session in which nothing went out behind a torn answer and nothing is in
   flight any more, an untrimmed, written file shows of each point the last object the mock encoded for it.
   */
  lemma ReportShowsLastEncoded(config: Config, actions: seq<Action>, device: Device, options: Session.Options,
                               mockOptions: Mock.MockOptions, link: seq<Link.Action>, float: seq<Octet> -> Double,
                               address: int)
    requires ValidConfig(config) && CleanIds(config) && device in config.devices
             && Possible(config, Initial([]), actions)
    requires Link.Possible(options, mockOptions, Link.INITIAL, link)
    requires var w := Link.After(options, mockOptions, Link.INITIAL, link);
             && !w.down.garbled && !w.client.Closed? && Channels.Held(w.down) == []
             && Fed(actions, device.id, w.delivered, float)
    requires var s := After(config, Initial([]), actions);
             Pending(s, device.id) == [] && |s.history| <= config.maxRecords
    ensures var last := LastAt(Link.After(options, mockOptions, Link.INITIAL, link).encoded, address);
            var shown := Shown(Replay(NOTHING, After(config, Initial([]), actions).cache.file),
                               PointKey(Clean(device.id), address));
            if last.None? then shown == None
            else exists takenAt ::
              shown == Some(MeasureLine(config.formatter, SnapshotOf(device, ReadingOf(last.value, float), takenAt)))
  {
    hide *;
    Link.DeliveredIsPrefix(options, mockOptions, link);
    ReportShowsLastDelivered(config, actions, device, Link.After(options, mockOptions, Link.INITIAL, link).delivered,
                             float, address);
  }
}
