/** The loading loop and the listings it ends with, and what every loaded configuration looks like. */
module ConfigLoading {
  import opened Wrappers
  import opened Text
  import opened Points
  import opened Configuration

  // --------------------------------------------------------- what the fold keeps

  /** Points are filed under their own non-zero address, devices under their own non-empty identifier, and every device
      that has points is known. */
  ghost predicate Filed(points: PointMap) {
    forall a <- points :: a != 0 && points[a].address == a
  }

  ghost predicate WellFiled(s: Loaded) {
    && Filed(s.legacy)
    && (forall id <- s.devices :: id != "" && s.devices[id].id == id && s.devices[id].points == [])
    && (forall id <- s.devicePoints :: id in s.devices && Filed(s.devicePoints[id]))
    && (!s.sawDevice ==> s.devices == map[])
    && (!s.sawLegacy ==> s.legacy == map[])
  }

  /** Targets that point lines can resolve to. */
  ghost predicate Proper(target: Target) {
    match target
    case DeviceTouch(id) => id != ""
    case OfDevice(id, _) => id != ""
    case DeviceClient(id, _) => id != ""
    case DevicePoint(id, address, _) => id != "" && address != 0
    case LegacyPoint(address, _) => address != 0
    case _ => true
  }

  /** Targets of device lines.  Global options are read when such a line creates its device. */
  predicate OfDeviceLine(target: Target) {
    target.DeviceMark? || target.DeviceTouch? || target.OfDevice? || target.DeviceClient? || target.DevicePoint?
  }

  lemma TargetIsProper(p: Parsers, key: string)
    ensures Proper(TargetOf(p, key))
  {
    hide ClientFieldOf, PointFieldOf, IntOr;
  }

  lemma SetPointKeepsAddress(p: Parsers, d: PointDefinition, field: PointField, value: string)
    ensures SetPoint(p, d, field, value).address == d.address
  {
  }

  lemma KnownDevice(s: Loaded, id: string)
    requires WellFiled(s) && id != ""
    ensures DeviceIn(s, id).id == id && DeviceIn(s, id).points == []
  {
  }

  lemma SetDeviceKeepsIdentity(p: Parsers, d: DeviceDefinition, field: DeviceField, value: string)
    ensures SetDevice(p, d, field, value).id == d.id && SetDevice(p, d, field, value).points == d.points
  {
  }

  lemma DeviceKeepsFiled(s: Loaded, id: string, d: DeviceDefinition)
    requires WellFiled(s) && id != "" && d.id == id && d.points == []
    ensures WellFiled(s.(sawDevice := true, devices := s.devices[id := d]))
  {
  }

  lemma DeviceUpdateKeepsFiled(p: Parsers, s: Loaded, target: Target, value: string)
    requires WellFiled(s) && Proper(target) && OfDeviceLine(target) && !target.DevicePoint?
    ensures WellFiled(Update(p, s, target, value))
  {
    hide SetClient, SetDevice, DeviceIn;
    if !target.DeviceMark? {
      KnownDevice(s, target.id);
      if target.OfDevice? {
        SetDeviceKeepsIdentity(p, DeviceIn(s, target.id), target.field, value);
      }
      hide WellFiled;
      DeviceKeepsFiled(s, target.id, Update(p, s, target, value).devices[target.id]);
    }
  }

  lemma PointUpdateKeepsFiled(p: Parsers, s: Loaded, target: Target, value: string)
    requires WellFiled(s) && Proper(target) && (target.DevicePoint? || target.LegacyPoint?)
    ensures WellFiled(Update(p, s, target, value))
  {
    hide SetPoint, DeviceIn;
    if target.DevicePoint? {
      KnownDevice(s, target.id);
      SetPointKeepsAddress(p, PointIn(PointsIn(s, target.id), target.address), target.point, value);
    } else {
      SetPointKeepsAddress(p, PointIn(s.legacy, target.address), target.point, value);
    }
  }

  lemma UpdateKeepsFiled(p: Parsers, s: Loaded, target: Target, value: string)
    requires WellFiled(s) && Proper(target)
    ensures WellFiled(Update(p, s, target, value))
  {
    hide SetClient, SetPoint, SetDevice, BoolOr, SizeOr, Proper;
    if target.DevicePoint? || target.LegacyPoint? {
      PointUpdateKeepsFiled(p, s, target, value);
    } else if OfDeviceLine(target) {
      DeviceUpdateKeepsFiled(p, s, target, value);
    }
  }

  lemma {:induction false} LinesKeepFiled(p: Parsers, s: Loaded, lines: seq<string>)
    requires WellFiled(s)
    ensures WellFiled(LoadLines(p, s, lines))
    decreases |lines|
  {
    hide WellFiled, Update, TargetOf, ParseLine, Proper;
    if lines != [] {
      if ParseLine(lines[0]).Some? {
        var (key, value) := ParseLine(lines[0]).value;
        TargetIsProper(p, key);
        UpdateKeepsFiled(p, s, TargetOf(p, key), value);
      }
      LinesKeepFiled(p, LoadLine(p, s, lines[0]), lines[1..]);
    }
  }

  // ------------------------------------------------------------------- listings

  function NamedPoint(d: PointDefinition): PointDefinition {
    if d.name == "" then d.(name := "IOA " + Decimal(d.address)) else d
  }

  ghost predicate GoodPoints(points: seq<PointDefinition>) {
    && (forall i, j :: 0 <= i < j < |points| ==> points[i].address < points[j].address)
    && (forall d <- points :: d.address != 0 && d.name != "")
  }

  /** A listing holds exactly the points of the map, named, by ascending address. */
  ghost predicate ListsPoints(result: seq<PointDefinition>, points: PointMap) {
    && GoodPoints(result)
    && (forall d <- result :: d.address in points && d == NamedPoint(points[d.address]))
    && (forall a <- points :: NamedPoint(points[a]) in result)
  }

  method PointMapToVector(points: PointMap) returns (result: seq<PointDefinition>)
    requires Filed(points)
    ensures ListsPoints(result, points)
  {
    OrdersAreStrict();
    var order := KeysInOrder(points.Keys, IntLess);
    result := [];
    for i := 0 to |order|
      invariant |result| == i
      invariant forall k :: 0 <= k < i ==> order[k] in points && result[k] == NamedPoint(points[order[k]])
                                           && result[k].address == order[k]
    {
      assert order[i] in order;
      result := result + [NamedPoint(points[order[i]])];
    }
    forall a <- points ensures NamedPoint(points[a]) in result {
      assert a in order;
      var k :| 0 <= k < |order| && order[k] == a;
      assert result[k] == NamedPoint(points[a]);
    }
    forall i, j | 0 <= i < j < |result| ensures result[i].address < result[j].address {
      assert IntLess(order[i], order[j]);
    }
  }

  method NormalizePointNames(points: seq<PointDefinition>) returns (result: seq<PointDefinition>)
    ensures |result| == |points| && forall i :: 0 <= i < |points| ==> result[i] == NamedPoint(points[i])
  {
    result := points;
    for i := 0 to |points|
      invariant |result| == |points|
      invariant forall k :: 0 <= k < |points| ==> result[k] == if k < i then NamedPoint(points[k]) else points[k]
    {
      if result[i].name == "" {
        result := result[i := result[i].(name := "IOA " + Decimal(result[i].address))];
      }
    }
  }

  /** How one device of the result comes from the maps. */
  ghost predicate Assembled(d: DeviceDefinition, s: Loaded, id: string) {
    && id in s.devices
    && d == s.devices[id].(name := if s.devices[id].name == "" then id else s.devices[id].name, points := d.points)
    && (if id in s.devicePoints then ListsPoints(d.points, s.devicePoints[id]) else d.points == [])
  }

  ghost predicate ListsDevices(result: seq<DeviceDefinition>, s: Loaded) {
    && (forall i, j :: 0 <= i < j < |result| ==> TextLess(result[i].id, result[j].id))
    && (forall d <- result :: Assembled(d, s, d.id))
    && (forall id <- s.devices :: exists d <- result :: d.id == id)
  }

  method Assemble(s: Loaded, id: string) returns (d: DeviceDefinition)
    requires WellFiled(s) && id in s.devices
    ensures Assembled(d, s, id) && d.id == id
  {
    d := s.devices[id];
    if id in s.devicePoints {
      var points := PointMapToVector(s.devicePoints[id]);
      d := d.(points := points);
    }
    if d.name == "" {
      d := d.(name := id);
    }
    var points := NormalizePointNames(d.points);
    assert points == d.points;
    d := d.(points := points);
  }

  method ListDevices(s: Loaded) returns (result: seq<DeviceDefinition>)
    requires WellFiled(s)
    ensures ListsDevices(result, s)
  {
    hide Assembled, WellFiled, ListsDevices, TextLess;
    OrdersAreStrict();
    var order := KeysInOrder(s.devices.Keys, TextLess);
    result := [];
    for i := 0 to |order|
      invariant |result| == i
      invariant forall k :: 0 <= k < i ==> result[k].id == order[k] && Assembled(result[k], s, order[k])
    {
      assert order[i] in order;
      var d := Assemble(s, order[i]);
      result := result + [d];
    }
    ListedInOrder(result, order, s);
  }

  lemma ListedInOrder(result: seq<DeviceDefinition>, order: seq<string>, s: Loaded)
    requires |result| == |order| && Ascending(order, TextLess) && forall k :: k in order <==> k in s.devices
    requires forall k :: 0 <= k < |order| ==> result[k].id == order[k] && Assembled(result[k], s, order[k])
    ensures ListsDevices(result, s)
  {
    hide Assembled, TextLess;
    forall id <- s.devices ensures exists d <- result :: d.id == id {
      assert id in order;
      var k :| 0 <= k < |order| && order[k] == id;
      assert result[k] in result;
    }
  }

  // -------------------------------------------------------------------- the loop

  /** Resolves the rest of a device key and assigns in place. */
  method ApplyDeviceAttribute(p: Parsers, s: Loaded, rest: string, value: string) returns (next: Loaded)
    requires s.sawDevice
    ensures next == Update(p, s, DeviceTarget(p, rest), value)
  {
    hide AttributeTarget;
    var dot := Find(rest, '.');
    if dot == |rest| {
      return s;
    }
    var deviceId, attribute := rest[..dot], rest[dot + 1..];
    if deviceId == "" {
      return s;
    }
    next := s;
    if deviceId !in next.devices {
      next := next.(devices := next.devices[deviceId := MakeDevice(deviceId, next.client)]);
    }
    next := ApplyToDevice(p, s, next, deviceId, attribute, value);
  }

  predicate IsPointAttribute(attribute: string) {
    attribute != "name" && attribute != "enabled" && attribute != "common_address" && "point." <= attribute
  }

  function WithAttribute(p: Parsers, d: DeviceDefinition, attribute: string, value: string): DeviceDefinition {
    if attribute == "name" then SetDevice(p, d, DeviceNameField, value)
    else if attribute == "enabled" then SetDevice(p, d, EnabledField, value)
    else if attribute == "common_address" then SetDevice(p, d, CommonAddressField, value)
    else d.(client := SetClient(p, d.client, ClientFieldOf(attribute), value))
  }

  lemma OwnAttributeUpdate(p: Parsers, s: Loaded, id: string, attribute: string, value: string)
    requires s.sawDevice && !IsPointAttribute(attribute)
    ensures Update(p, s, AttributeTarget(p, id, attribute), value)
         == s.(devices := s.devices[id := WithAttribute(p, DeviceIn(s, id), attribute, value)])
  {
    hide SetClient, SetPoint, SetDevice, ClientFieldOf, PointFieldOf, IntOr, Find, DeviceIn;
  }

  method ApplyToDevice(p: Parsers, ghost before: Loaded, s: Loaded, deviceId: string, attribute: string, value: string)
    returns (next: Loaded)
    requires before.sawDevice && s == before.(devices := before.devices[deviceId := DeviceIn(before, deviceId)])
    ensures next == Update(p, before, AttributeTarget(p, deviceId, attribute), value)
  {
    hide SetClient, SetPoint, SetDevice, ClientFieldOf, PointFieldOf, BoolOr, IntOr, Find, DeviceIn, WithAttribute;
    if IsPointAttribute(attribute) {
      next := ApplyPointLine(p, s, deviceId, attribute[6..], value);
    } else {
      hide Update, AttributeTarget;
      OwnAttributeUpdate(p, before, deviceId, attribute, value);
      var device := ApplyOwnAttribute(p, s.devices[deviceId], attribute, value);
      next := s.(devices := s.devices[deviceId := device]);
      assert next.devices == before.devices[deviceId := device];
    }
  }

  method ApplyOwnAttribute(p: Parsers, d: DeviceDefinition, attribute: string, value: string)
    returns (device: DeviceDefinition)
    ensures device == WithAttribute(p, d, attribute, value)
  {
    hide SetClient, ClientFieldOf, BoolOr, IntOr;
    device := d;
    if attribute == "name" {
      device := device.(name := value);
    } else if attribute == "enabled" {
      device := device.(enabled := BoolOr(value, device.enabled));
    } else if attribute == "common_address" {
      device := device.(commonAddress := IntOr(p, value, device.commonAddress) % 0x1_0000);
    } else {
      device := device.(client := SetClient(p, device.client, ClientFieldOf(attribute), value));
    }
  }

  method ApplyPointLine(p: Parsers, s: Loaded, deviceId: string, pointRest: string, value: string)
    returns (next: Loaded)
    requires deviceId in s.devices
    ensures var pointDot := Find(pointRest, '.');
            if pointDot == |pointRest| || IntOr(p, pointRest[..pointDot], 0) == 0 then next == s
            else
              var address := IntOr(p, pointRest[..pointDot], 0);
              var points := PointsIn(s, deviceId);
              next == s.(devicePoints := s.devicePoints[deviceId :=
                points[address := SetPoint(p, PointIn(points, address), PointFieldOf(pointRest[pointDot + 1..]),
                                           value)]])
  {
    hide SetPoint, PointFieldOf;
    var pointDot := Find(pointRest, '.');
    if pointDot == |pointRest| {
      return s;
    }
    var address := IntOr(p, pointRest[..pointDot], 0);
    if address == 0 {
      return s;
    }
    var points := PointsIn(s, deviceId);
    var point := if address in points then points[address] else BlankPoint(0);
    point := point.(address := address);
    point := SetPoint(p, point, PointFieldOf(pointRest[pointDot + 1..]), value);
    next := s.(devicePoints := s.devicePoints[deviceId := points[address := point]]);
  }

  method ApplyLegacyLine(p: Parsers, s: Loaded, rest: string, value: string) returns (next: Loaded)
    requires s.sawLegacy
    ensures next == Update(p, s, LegacyTarget(p, rest), value)
  {
    hide SetPoint, PointFieldOf;
    var dot := Find(rest, '.');
    if dot == |rest| {
      return s;
    }
    var address := IntOr(p, rest[..dot], 0);
    if address == 0 {
      return s;
    }
    var point := if address in s.legacy then s.legacy[address] else BlankPoint(0);
    point := point.(address := address);
    next := s.(legacy := s.legacy[address := SetPoint(p, point, PointFieldOf(rest[dot + 1..]), value)]);
  }

  lemma DeviceTargetKind(p: Parsers, rest: string)
    ensures OfDeviceLine(DeviceTarget(p, rest))
  {
    hide ClientFieldOf, PointFieldOf, IntOr, Find;
  }

  /** Every device line records that a device line was seen, so recording it beforehand changes nothing. */
  lemma MarkAbsorbed(p: Parsers, s: Loaded, target: Target, value: string)
    requires OfDeviceLine(target)
    ensures Update(p, s.(sawDevice := true), target, value) == Update(p, s, target, value)
  {
    hide SetClient, SetPoint, SetDevice;
  }

  lemma MarkedFirst(p: Parsers, s: Loaded, rest: string, value: string)
    ensures Update(p, s.(sawDevice := true), DeviceTarget(p, rest), value) == Update(p, s, DeviceTarget(p, rest), value)
  {
    hide Update, DeviceTarget, OfDeviceLine;
    DeviceTargetKind(p, rest);
    MarkAbsorbed(p, s, DeviceTarget(p, rest), value);
  }

  lemma LegacyMarkedFirst(p: Parsers, s: Loaded, rest: string, value: string)
    ensures Update(p, s.(sawLegacy := true), LegacyTarget(p, rest), value) == Update(p, s, LegacyTarget(p, rest), value)
  {
    hide SetPoint, PointFieldOf, IntOr, Find;
  }

  method ApplyLine(p: Parsers, s: Loaded, key: string, value: string) returns (next: Loaded)
    ensures next == Update(p, s, TargetOf(p, key), value)
  {
    hide SetClient, SetPoint, ClientFieldOf, PointFieldOf, DeviceTarget, LegacyTarget;
    next := s;
    if key == "cache_path" {
      next := next.(cache := next.cache.(path := value));
    } else if key == "cache_max_records" {
      next := next.(cache := next.cache.(maxRecords := SizeOr(p, value, next.cache.maxRecords)));
    } else if key == "log_path" {
      next := next.(log := next.log.(path := value));
    } else if key == "log_level" {
      next := next.(log := next.log.(level := value));
    } else if key == "log_console" {
      next := next.(log := next.log.(console := BoolOr(value, next.log.console)));
    } else if key == "log_append" {
      next := next.(log := next.log.(append := BoolOr(value, next.log.append)));
    } else if "device." <= key {
      next := next.(sawDevice := true);
      next := ApplyDeviceAttribute(p, next, key[7..], value);
      MarkedFirst(p, s, key[7..], value);
    } else if "point." <= key {
      next := next.(sawLegacy := true);
      next := ApplyLegacyLine(p, next, key[6..], value);
      LegacyMarkedFirst(p, s, key[6..], value);
    } else {
      next := next.(client := SetClient(p, next.client, ClientFieldOf(key), value));
    }
  }

  method ReadLines(p: Parsers, lines: seq<string>) returns (s: Loaded)
    ensures s == LoadLines(p, NOTHING_LOADED, lines)
  {
    hide ParseLine, TargetOf, Update;
    s := NOTHING_LOADED;
    var index := 0;
    while index < |lines|
      invariant 0 <= index <= |lines|
      invariant LoadLines(p, s, lines[index..]) == LoadLines(p, NOTHING_LOADED, lines)
    {
      assert lines[index..][0] == lines[index] && lines[index..][1..] == lines[index + 1..];
      match ParseLine(lines[index]) {
        case None =>
        case Some((key, value)) =>
          s := ApplyLine(p, s, key, value);
      }
      index := index + 1;
    }
  }

  /** What the program runs with: the folded options, and points and devices in ascending order. */
  ghost predicate LoadedFrom(p: Parsers, lines: seq<string>, config: AppConfig) {
    var s := LoadLines(p, NOTHING_LOADED, lines);
    && config.client == s.client && config.cache == s.cache && config.log == s.log
    && (if s.sawLegacy then ListsPoints(config.points, s.legacy) else config.points == DEFAULT_POINTS)
    && (if s.sawDevice then ListsDevices(config.devices, s)
        else config.devices == [DeviceDefinition("rtu_main", "Main RTU", true, 1, s.client, config.points)])
  }

  method Load(p: Parsers, lines: seq<string>) returns (config: AppConfig)
    ensures LoadedFrom(p, lines, config)
  {
    hide ListsPoints, ListsDevices, LoadLines;
    var s := ReadLines(p, lines);
    NothingFiled();
    LinesKeepFiled(p, NOTHING_LOADED, lines);
    var points := DEFAULT_POINTS;
    if s.sawLegacy {
      points := PointMapToVector(s.legacy);
    }
    PointsAreGood(points, s);
    var devices: seq<DeviceDefinition>;
    if !s.sawDevice {
      var device := MakeDevice("rtu_main", s.client).(name := "Main RTU");
      var named := NormalizePointNames(points);
      assert named == points;
      devices := [device.(points := named)];
    } else {
      devices := ListDevices(s);
    }
    config := AppConfig(s.client, s.cache, s.log, devices, points);
  }

  /** The built-in configuration, assembled step by step. */
  method Defaults() returns (config: AppConfig)
    ensures config.client == DEFAULT_CLIENT && config.cache == DEFAULT_CACHE && config.log == DEFAULT_LOG
    ensures config.points == DEFAULT_POINTS
    ensures config.devices == [DeviceDefinition("rtu_main", "Main RTU", true, 1, DEFAULT_CLIENT, DEFAULT_POINTS)]
  {
    hide *;
    var device := MakeDevice("rtu_main", DEFAULT_CLIENT);
    device := DeviceDefinition(device.id, "Main RTU", device.enabled, 1, device.client, DEFAULT_POINTS);
    RtuMain();
    config := AppConfig(DEFAULT_CLIENT, DEFAULT_CACHE, DEFAULT_LOG, [device], DEFAULT_POINTS);
  }

  lemma RtuMain()
    ensures MakeDevice("rtu_main", DEFAULT_CLIENT) == DeviceDefinition("rtu_main", "rtu_main", true, 1,
                                                                       DEFAULT_CLIENT, [])
  {
  }

  /** A file that cannot be opened gives the built-in configuration, which is also what an empty file gives. */
  method LoadFile(p: Parsers, file: Option<seq<string>>) returns (config: AppConfig)
    ensures LoadedFrom(p, if file.Some? then file.value else [], config)
  {
    if file.None? {
      config := Defaults();
      return;
    }
    config := Load(p, file.value);
  }

  lemma NothingFiled()
    ensures WellFiled(NOTHING_LOADED)
  {
  }

  lemma PointsAreGood(points: seq<PointDefinition>, s: Loaded)
    requires points == DEFAULT_POINTS || ListsPoints(points, s.legacy)
    ensures GoodPoints(points)
  {
    hide NamedPoint;
  }

  /** Every loaded configuration has its devices strictly ascending by identifier, and every device its points strictly
      ascending by non-zero address, each with a name. */
  lemma LoadedShape(p: Parsers, lines: seq<string>, config: AppConfig)
    requires LoadedFrom(p, lines, config)
    ensures forall i, j :: 0 <= i < j < |config.devices| ==> TextLess(config.devices[i].id, config.devices[j].id)
    ensures GoodPoints(config.points) && forall d <- config.devices ::
              GoodPoints(d.points) && d.id != "" && d.name != ""
  {
    hide LoadLines, NamedPoint, TextLess;
    var s := LoadLines(p, NOTHING_LOADED, lines);
    NothingFiled();
    LinesKeepFiled(p, NOTHING_LOADED, lines);
    PointsAreGood(config.points, s);
    if s.sawDevice {
      forall d <- config.devices ensures GoodPoints(d.points) && d.id != "" && d.name != "" {
        assert Assembled(d, s, d.id);
      }
    }
  }
}
