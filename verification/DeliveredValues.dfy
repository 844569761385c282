/**
 What a delivered object becomes, field by field: the snapshot of its point, the alarms of that point, and the line the
 report shows of it.
 */
module DeliveredValues {
  import opened Wrappers
  import opened Frame
  import opened Text
  import opened Points
  import opened Alarms
  import opened Cache
  import opened Report
  import opened Acquisition
  import opened AcquisitionProperties
  import opened SnapshotProperties
  import opened Thresholds
  import opened EndToEnd
  import opened ReportedValues
  import opened WireToReport

  // ------------------------------------------------------------- the snapshot

  /** A snapshot carries exactly what came over the wire. */
  ghost predicate ShowsObject(snapshot: Snapshot, device: Device, content: InfoObject, float: seq<Octet> -> Double,
                              takenAt: int)
  {
    && snapshot.deviceId == device.id && snapshot.deviceName == device.name
    && snapshot.address == content.address && snapshot.quality == content.quality && snapshot.timestamp == takenAt
    && match content.element
       case SinglePoint(state) =>
         snapshot.iecType == "M_SP_NA_1" && snapshot.state == state
             && snapshot.value == Finite(if state then 1.0 else 0.0)
       case Scaled(value) =>
         snapshot.iecType == "M_ME_NB_1" && !snapshot.state && snapshot.value == Finite(value as real)
       case ShortFloat(raw) =>
         snapshot.iecType == "M_ME_NC_1" && !snapshot.state && snapshot.value == float(raw)
  }

  /** Point k is the first one configured with an address. */
  predicate FirstWith(points: seq<PointDefinition>, address: int, k: nat) {
    && k < |points| && points[k].address == address
    && forall j :: 0 <= j < k ==> points[j].address != address
  }

  /** The type a point is configured with, if it is a known one. */
  function KnownType(typeName: string): Option<PointType> {
    var name := Lower(typeName);
    if name == "analog" then Some(Analog)
    else if name == "digital" then Some(Digital)
    else if name == "counter" then Some(Counter)
    else if name in {"control", "telecontrol", "remote_control"} then Some(Control)
    else None
  }

  function TypeOr(known: Option<PointType>, iecType: string): PointType {
    if known.Some? then known.value else if iecType == "M_SP_NA_1" then Digital else Analog
  }

  /** A snapshot takes name, unit and type from its configured point, or says that there is none. */
  ghost predicate ShowsPoint(snapshot: Snapshot, device: Device) {
    && (forall k: nat :: FirstWith(device.points, snapshot.address, k) ==>
          var point := device.points[k];
          && snapshot.name == (if point.name == "" then "IOA " + Decimal(snapshot.address) else point.name)
          && snapshot.unit == point.unit
          && snapshot.pointType == TypeOr(KnownType(point.typeName), snapshot.iecType))
    && ((forall p <- device.points :: p.address != snapshot.address) ==>
          && snapshot.name == device.id + " IOA " + Decimal(snapshot.address) && snapshot.unit == ""
          && snapshot.pointType == TypeOr(None, snapshot.iecType))
  }

  lemma {:induction false} FirstFound(device: Device, points: seq<PointDefinition>, address: int, k: nat)
    requires FirstWith(points, address, k)
    ensures DefinitionFor(device, points, address) == points[k]
    decreases |points|
  {
    if k > 0 {
      assert points[1..][k - 1] == points[k];
      FirstFound(device, points[1..], address, k - 1);
    }
  }

  lemma {:induction false} NoneFound(device: Device, points: seq<PointDefinition>, address: int)
    requires forall p <- points :: p.address != address
    ensures var fallback := DefinitionFor(device, points, address);
            && fallback.address == address && fallback.name == device.id + " IOA " + Decimal(address)
            && fallback.typeName == "unknown" && fallback.unit == ""
            && fallback.highHigh == fallback.high == fallback.low == fallback.lowLow == None
            && fallback.normalState == None
    decreases |points|
  {
    if points != [] {
      NoneFound(device, points[1..], address);
    }
  }

  lemma TypesKnown(typeName: string)
    ensures PointTypeOf(typeName) == if KnownType(typeName).Some? then KnownType(typeName).value else UnknownType
    ensures KnownType(typeName) != Some(UnknownType)
  {
    hide Lower;
  }

  lemma UnknownIsUnknown()
    ensures KnownType("unknown") == None
  {
    hide Lower;
    var name := Lower("unknown");
    assert name[0] == 'u' && |name| == 7;
    assert "analog"[0] == 'a' && "digital"[0] == 'd' && "counter"[0] == 'c' && "control"[0] == 'c'
           && "telecontrol"[0] == 't'
           && "remote_control"[0] == 'r';
  }

  lemma ObjectShown(device: Device, content: InfoObject, float: seq<Octet> -> Double, takenAt: int)
    ensures ShowsObject(SnapshotOf(device, ReadingOf(content, float), takenAt), device, content, float, takenAt)
  {
    hide DefinitionFor, PointTypeOf;
  }

  lemma ConfiguredShown(device: Device, content: InfoObject, float: seq<Octet> -> Double, takenAt: int, k: nat)
    requires FirstWith(device.points, content.address, k)
    ensures var snapshot, point := SnapshotOf(device, ReadingOf(content, float), takenAt), device.points[k];
            && snapshot.name == (if point.name == "" then "IOA " + Decimal(content.address) else point.name)
            && snapshot.unit == point.unit
            && snapshot.pointType == TypeOr(KnownType(point.typeName), snapshot.iecType)
  {
    hide DefinitionFor, PointTypeOf, KnownType, Lower, Decimal;
    FirstFound(device, device.points, content.address, k);
    TypesKnown(device.points[k].typeName);
  }

  lemma UnconfiguredShown(device: Device, content: InfoObject, float: seq<Octet> -> Double, takenAt: int)
    requires forall p <- device.points :: p.address != content.address
    ensures var snapshot := SnapshotOf(device, ReadingOf(content, float), takenAt);
            && snapshot.name == device.id + " IOA " + Decimal(content.address) && snapshot.unit == ""
            && snapshot.pointType == TypeOr(None, snapshot.iecType)
  {
    hide DefinitionFor, PointTypeOf, KnownType, Lower, Decimal;
    NoneFound(device, device.points, content.address);
    TypesKnown("unknown");
    UnknownIsUnknown();
    assert (device.id + " IOA " + Decimal(content.address)) != "";
  }

  lemma SnapshotShows(device: Device, content: InfoObject, float: seq<Octet> -> Double, takenAt: int)
    ensures var snapshot := SnapshotOf(device, ReadingOf(content, float), takenAt);
            ShowsObject(snapshot, device, content, float, takenAt) && ShowsPoint(snapshot, device)
  {
    hide SnapshotOf, ReadingOf, FirstWith;
    var snapshot := SnapshotOf(device, ReadingOf(content, float), takenAt);
    ObjectShown(device, content, float, takenAt);
    forall k: nat | FirstWith(device.points, snapshot.address, k)
      ensures && k < |device.points|
              && var point := device.points[k];
                 && snapshot.name == (if point.name == "" then "IOA " + Decimal(snapshot.address) else point.name)
                 && snapshot.unit == point.unit
                 && snapshot.pointType == TypeOr(KnownType(point.typeName), snapshot.iecType)
    {
      Within(device.points, snapshot.address, k);
      ConfiguredShown(device, content, float, takenAt, k);
    }
    if forall p <- device.points :: p.address != snapshot.address {
      UnconfiguredShown(device, content, float, takenAt);
    }
  }

  lemma Within(points: seq<PointDefinition>, address: int, k: nat)
    requires FirstWith(points, address, k)
    ensures k < |points|
  {
  }

  // ------------------------------------------------------------- over any run

  /** Action k is the last one in which a device sensed an address. */
  ghost predicate SensedLast(actions: seq<Action>, deviceId: string, address: int, k: nat) {
    && k < |actions| && SensesAt(actions[k], deviceId, address)
    && forall j :: k < j < |actions| ==> !SensesAt(actions[j], deviceId, address)
  }

  predicate SensesAt(action: Action, deviceId: string, address: int) {
    action.Sense? && action.device.id == deviceId && action.reading.address == address
  }

  lemma {:induction false} SenseHasPlace(actions: seq<Action>, deviceId: string, address: int) returns (k: nat)
    requires LastSense(actions, deviceId, address).Some?
    ensures SensedLast(actions, deviceId, address, k)
    ensures LastSense(actions, deviceId, address).value == (actions[k].reading, actions[k].takenAt)
    decreases |actions|
  {
    if LastSense(actions[1..], deviceId, address).Some? {
      var later := SenseHasPlace(actions[1..], deviceId, address);
      k := later + 1;
      assert actions[k] == actions[1..][later];
      forall j | k < j < |actions| ensures !SensesAt(actions[j], deviceId, address) {
        assert actions[j] == actions[1..][j - 1];
      }
    } else {
      k := 0;
      forall j | 0 < j < |actions| ensures !SensesAt(actions[j], deviceId, address) {
        NotSensed(actions[1..], deviceId, address, j - 1);
        assert actions[j] == actions[1..][j - 1];
      }
    }
  }

  lemma SensedIsSense(actions: seq<Action>, deviceId: string, address: int, k: nat)
    requires SensedLast(actions, deviceId, address, k)
    ensures k < |actions| && actions[k].Sense?
  {
  }

  lemma {:induction false} NotSensed(actions: seq<Action>, deviceId: string, address: int, j: nat)
    requires LastSense(actions, deviceId, address).None? && j < |actions|
    ensures !SensesAt(actions[j], deviceId, address)
    decreases |actions|
  {
    if j > 0 {
      NotSensed(actions[1..], deviceId, address, j - 1);
      assert actions[1..][j - 1] == actions[j];
    }
  }

  /** The delivered object that a snapshot shows, and the step that took it. */
  ghost predicate ShowsDelivered(snapshot: Snapshot, actions: seq<Action>, device: Device, content: InfoObject,
                                 float: seq<Octet> -> Double)
  {
    exists k: nat :: SensedLast(actions, device.id, content.address, k)
                && ShowsObject(snapshot, device, content, float, actions[k].takenAt) && ShowsPoint(snapshot, device)
  }

  /**
   After any interleaved run a point has a snapshot exactly if its client delivered an object for it, and the snapshot
   then shows the last such object, taken by the last step that sensed the point.
   */
  lemma SnapshotShowsWire(config: Config, file: seq<string>, actions: seq<Action>, device: Device,
                          objects: seq<InfoObject>,
                          float: seq<Octet> -> Double, address: int)
    requires ValidConfig(config) && device in config.devices && Possible(config, Initial(file), actions)
    requires Fed(actions, device.id, objects, float)
    ensures var s, key, last := After(config, Initial(file), actions), PointKey(device.id, address),
                                LastAt(objects, address);
            && (key in s.snapshots <==> last.Some?)
            && (last.Some? ==> last.value.address == address
                               && ShowsDelivered(s.snapshots[key], actions, device, last.value, float))
  {
    hide After, Possible, PointKey, SnapshotOf, ReadingOf, Fed, ValidConfig, ShowsObject, ShowsPoint, SensedLast;
    SenseOfDelivered(actions, device.id, objects, float, address);
    RunSensed(config, Initial(file), actions, device, address);
    var sense, last := LastSense(actions, device.id, address), LastAt(objects, address);
    if last.Some? {
      LastAtAddress(objects, address);
      var k := SenseHasPlace(actions, device.id, address);
      SensedIsSense(actions, device.id, address, k);
      SnapshotShows(device, last.value, float, actions[k].takenAt);
      assert sense.value == (ReadingOf(last.value, float), actions[k].takenAt);
    }
  }

  lemma {:induction false} LastAtAddress(objects: seq<InfoObject>, address: int)
    requires LastAt(objects, address).Some?
    ensures LastAt(objects, address).value.address == address && LastAt(objects, address).value in objects
    decreases |objects|
  {
    if LastAt(objects[1..], address).Some? {
      LastAtAddress(objects[1..], address);
    }
  }

  // ------------------------------------------------------------ alarms of a point

  lemma DefinitionIsFirst(device: Device, address: int, k: nat)
    requires FirstWith(device.points, address, k)
    ensures k < |device.points| && Definition(device, address) == device.points[k]
            && device.points[k].address == address
  {
    FirstFound(device, device.points, address, k);
  }

  /** STATE of a digital point with a normal state is active exactly if the last delivered state is not the normal one.
      */
  lemma StateFollowsWire(config: Config, file: seq<string>, actions: seq<Action>, device: Device,
                         objects: seq<InfoObject>,
                         float: seq<Octet> -> Double, address: int, k: nat)
    requires ValidConfig(config) && device in config.devices && Possible(config, Initial(file), actions)
    requires Fed(actions, device.id, objects, float) && FirstWith(device.points, address, k)
    requires Lower(device.points[k].typeName) == "digital" && device.points[k].normalState.Some?
    ensures var last, normal := LastAt(objects, address), device.points[k].normalState.value;
            (address, State) in Rules(After(config, Initial(file), actions), device.id) <==>
            last.Some? && if last.value.element == SinglePoint(true) then normal != 1 else normal != 0
  {
    DefinitionIsFirst(device, address, k);
    hide After, Possible, PointKey, Fed, ValidConfig, ShowsPoint, SensedLast, Lower, DefinitionFor, FirstWith;
    SnapshotShowsWire(config, file, actions, device, objects, float, address);
    RulesFollowSnapshots(config, file, actions, device, address, State);
    StateDemanded(device.points[k]);
  }

  lemma StateDemanded(definition: PointDefinition)
    requires Lower(definition.typeName) == "digital" && definition.normalState.Some?
    ensures forall snapshot :: Demanded(definition, snapshot, State) <==>
              if snapshot.state then definition.normalState.value != 1 else definition.normalState.value != 0
  {
    DigitalType(definition);
    hide Lower, PointTypeOf;
  }

  /** The limit rules of a point follow the last number delivered for it. */
  lemma LimitsFollowWire(config: Config, file: seq<string>, actions: seq<Action>, device: Device,
                         objects: seq<InfoObject>,
                         float: seq<Octet> -> Double, address: int, k: nat, v: real)
    requires ValidConfig(config) && device in config.devices && Possible(config, Initial(file), actions)
    requires Fed(actions, device.id, objects, float) && FirstWith(device.points, address, k)
             && HasLimits(device.points[k])
    requires LastAt(objects, address).Some?
    requires match LastAt(objects, address).value.element
             case SinglePoint(state) => v == if state then 1.0 else 0.0
             case Scaled(value) => v == value as real
             case ShortFloat(raw) => float(raw) == Finite(v)
    ensures var rules, point := Rules(After(config, Initial(file), actions), device.id), device.points[k];
            && ((address, HighHigh) in rules <==> AtLeastLimit(v, point.highHigh))
            && ((address, High) in rules <==> AtLeastLimit(v, point.high) && !AtLeastLimit(v, point.highHigh))
            && ((address, LowLow) in rules <==> AtMostLimit(v, point.lowLow))
            && ((address, Low) in rules <==> AtMostLimit(v, point.low) && !AtMostLimit(v, point.lowLow))
  {
    DefinitionIsFirst(device, address, k);
    hide After, Possible, PointKey, Fed, ValidConfig, ShowsPoint, SensedLast, HasLimits, DefinitionFor, FirstWith,
      Demanded,
      AtLeastLimit, AtMostLimit, ActiveAfter;
    SnapshotShowsWire(config, file, actions, device, objects, float, address);
    var point, snapshot := device.points[k],
                           After(config, Initial(file), actions).snapshots[PointKey(device.id, address)];
    assert snapshot.value == Finite(v);
    Settles(config.formatter, {}, point, snapshot);
    LimitsDecide(config.formatter, {}, point, snapshot, v);
    RulesFollowSnapshots(config, file, actions, device, address, HighHigh);
    RulesFollowSnapshots(config, file, actions, device, address, High);
    RulesFollowSnapshots(config, file, actions, device, address, LowLow);
    RulesFollowSnapshots(config, file, actions, device, address, Low);
  }

  /** DATA_QUALITY of any point follows the invalid and blocked bits of its last delivered object. */
  lemma QualityFollowsWire(config: Config, file: seq<string>, actions: seq<Action>, device: Device,
                           objects: seq<InfoObject>,
                           float: seq<Octet> -> Double, address: int)
    requires ValidConfig(config) && device in config.devices && Possible(config, Initial(file), actions)
    requires Fed(actions, device.id, objects, float)
    ensures var last := LastAt(objects, address);
            (address, DataQuality) in Rules(After(config, Initial(file), actions), device.id) <==>
            last.Some? && (last.value.quality.invalid || last.value.quality.blocked)
  {
    hide After, Possible, PointKey, Fed, ValidConfig, ShowsPoint, SensedLast, DefinitionFor;
    SnapshotShowsWire(config, file, actions, device, objects, float, address);
    RulesFollowSnapshots(config, file, actions, device, address, DataQuality);
  }

  // ------------------------------------------------------------ the report's line

  /** The text of a delivered object, column by column. */
  ghost predicate LineShows(line: LatestMeasure, formatter: Formatter, device: Device, content: InfoObject,
                            float: seq<Octet> -> Double, takenAt: int)
  {
    && line.timestamp == formatter.time(takenAt)
    && line.deviceId == Clean(device.id) && line.deviceName == Clean(device.name)
    && line.address == Decimal(content.address)
    && line.quality == QualityText(content.quality)
    && match content.element
       case SinglePoint(state) =>
         && line.iecType == "M_SP_NA_1" && line.state == (if state then "1" else "0")
         && line.value == formatter.number(Finite(if state then 1.0 else 0.0))
       case Scaled(value) =>
         line.iecType == "M_ME_NB_1" && line.state == "0" && line.value == formatter.number(Finite(value as real))
       case ShortFloat(raw) =>
         line.iecType == "M_ME_NC_1" && line.state == "0" && line.value == formatter.number(float(raw))
  }

  ghost predicate LineShowsPoint(line: LatestMeasure, device: Device, address: int) {
    forall k: nat :: FirstWith(device.points, address, k) ==>
      var point := device.points[k];
      && line.name == Clean(if point.name == "" then "IOA " + Decimal(address) else point.name)
      && line.unit == Clean(point.unit)
      && (KnownType(point.typeName).Some? ==>
            line.typeName == match KnownType(point.typeName).value
                             case Analog => "analog"
                             case Digital => "digital"
                             case Counter => "counter"
                             case Control => "control"
                             case UnknownType => "unknown")
  }

  lemma TypesAreClean()
    ensures Clean("M_SP_NA_1") == "M_SP_NA_1" && Clean("M_ME_NB_1") == "M_ME_NB_1" && Clean("M_ME_NC_1") == "M_ME_NC_1"
  {
    hide Clean;
  }

  lemma LineOfSnapshot(formatter: Formatter, device: Device, snapshot: Snapshot, content: InfoObject,
                       float: seq<Octet> -> Double, takenAt: int)
    requires ShowsObject(snapshot, device, content, float, takenAt) && ShowsPoint(snapshot, device)
    ensures LineShows(MeasureLine(formatter, snapshot), formatter, device, content, float, takenAt)
    ensures LineShowsPoint(MeasureLine(formatter, snapshot), device, content.address)
  {
    TypesAreClean();
    hide Clean, QualityText, Decimal, KnownType, FirstWith;
  }

  /**
   Once a device's worker has written its batch, an untrimmed file shows of every point the last object delivered for
   it, column by column, with the time of the step that sensed it.
   */
  lemma ReportShowsWire(config: Config, actions: seq<Action>, device: Device, objects: seq<InfoObject>,
                        float: seq<Octet> -> Double, address: int)
    requires ValidConfig(config) && CleanIds(config) && device in config.devices
             && Possible(config, Initial([]), actions)
    requires Fed(actions, device.id, objects, float)
    requires var s := After(config, Initial([]), actions);
             Pending(s, device.id) == [] && |s.history| <= config.maxRecords
    ensures var s, last := After(config, Initial([]), actions), LastAt(objects, address);
            var shown := Shown(Replay(NOTHING, s.cache.file), PointKey(Clean(device.id), address));
            && (shown.Some? <==> last.Some?)
            && (last.Some? ==>
                  && LineShowsPoint(shown.value, device, address)
                  && exists k: nat :: SensedLast(actions, device.id, address, k)
                                      && LineShows(shown.value, config.formatter, device, last.value, float,
                                                   actions[k].takenAt))
  {
    IsNamed(config, device);
    hide After, Possible, PointKey, Fed, ValidConfig, ShowsPoint, ShowsObject, SensedLast, LineShows, LineShowsPoint,
      Replay,
      CleanIds, Named, Clean, MeasureLine, LastBy, Render;
    SnapshotShowsWire(config, [], actions, device, objects, float, address);
    ReportMatchesSnapshots(config, actions, device.id, address);
    var s, key, last := After(config, Initial([]), actions), PointKey(device.id, address), LastAt(objects, address);
    if last.Some? {
      var k: nat :| SensedLast(actions, device.id, last.value.address, k)
                    && ShowsObject(s.snapshots[key], device, last.value, float, actions[k].takenAt)
                    && ShowsPoint(s.snapshots[key], device);
      LineOfSnapshot(config.formatter, device, s.snapshots[key], last.value, float, actions[k].takenAt);
    }
  }
}
