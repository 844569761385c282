/**
 A global client option next to a line of a device, in a whole file: the two orders load the same configuration exactly
 if the device was known before, or the option changed nothing, or it is overridden for the device, there or further
 down.
 */
module EntangledLines {
  import opened Configuration
  import opened ConfigLoading
  import opened ConfigSwap

  // ---------------------------------------------------- one option apart

  /** One client's options with a single field taken from another. */
  function WithField(c: ClientOptions, field: ClientField, other: ClientOptions): ClientOptions {
    match field
    case Host => c.(host := other.host)
    case Port => c.(port := other.port)
    case ConnectTimeout => c.(connectTimeoutMs := other.connectTimeoutMs)
    case ReceiveTimeout => c.(receiveTimeoutMs := other.receiveTimeoutMs)
    case Reconnect => c.(reconnectMs := other.reconnectMs)
    case HeartbeatInterval => c.(heartbeatIntervalMs := other.heartbeatIntervalMs)
    case HeartbeatTimeout => c.(heartbeatTimeoutMs := other.heartbeatTimeoutMs)
    case StatusInterval => c.(statusIntervalMs := other.statusIntervalMs)
    case NoClientField => c
  }

  predicate ApartIn(c: ClientOptions, d: ClientOptions, field: ClientField) {
    WithField(c, field, d) == d && c != d
  }

  lemma SetLeavesApart(p: Parsers, c: ClientOptions, field: ClientField, value: string)
    ensures SetClient(p, c, field, value) != c ==> ApartIn(SetClient(p, c, field, value), c, field)
  {
    hide IntOr;
  }

  lemma SetSameField(p: Parsers, c: ClientOptions, d: ClientOptions, field: ClientField, value: string)
    requires ApartIn(c, d, field)
    ensures if Overrides(p, field, value) then SetClient(p, c, field, value) == SetClient(p, d, field, value)
            else SetClient(p, c, field, value) == c && SetClient(p, d, field, value) == d
  {
  }

  lemma SetOtherField(p: Parsers, c: ClientOptions, d: ClientOptions, field: ClientField, other: ClientField,
                      value: string)
    requires ApartIn(c, d, field) && other != field
    ensures ApartIn(SetClient(p, c, other, value), SetClient(p, d, other, value), field)
  {
    hide IntOr;
  }

  /** Two states of the fold that differ in one option of one device. */
  ghost predicate Apart(s: Loaded, t: Loaded, id: string, field: ClientField) {
    && id in s.devices && id in t.devices && s.sawDevice
    && ApartIn(s.devices[id].client, t.devices[id].client, field)
    && t == s.(devices := s.devices[id := s.devices[id].(client := t.devices[id].client)])
  }

  /** Whether a line sets this option of this device for good. */
  predicate Settles(p: Parsers, target: Target, value: string, id: string, field: ClientField) {
    target == DeviceClient(id, field) && Overrides(p, field, value)
  }

  lemma OwnLine(p: Parsers, d: DeviceDefinition, client: ClientOptions, field: ClientField, target: Target,
                value: string)
    requires NamesDevice(target) && ApartIn(d.client, client, field)
    ensures var e, e' := DeviceAfter(p, d, target, value), DeviceAfter(p, d.(client := client), target, value);
            && e' == e.(client := e'.client)
            && if Settles(p, target, value, target.id, field) then e == e' else ApartIn(e.client, e'.client, field)
  {
    hide SetClient, BoolOr, IntOr, WithField, Overrides;
    if target.DeviceClient? {
      if target.client == field {
        SetSameField(p, d.client, client, field, value);
      } else {
        SetOtherField(p, d.client, client, field, target.client, value);
      }
    }
  }

  /** Two maps of devices that differ in one option of one of them. */
  ghost predicate DevicesDiffer(ds: map<string, DeviceDefinition>, dt: map<string, DeviceDefinition>, id: string,
                                field: ClientField)
  {
    && id in ds && id in dt && ApartIn(ds[id].client, dt[id].client, field)
    && dt == ds[id := ds[id].(client := dt[id].client)]
  }

  lemma PutOwn(ds: map<string, DeviceDefinition>, dt: map<string, DeviceDefinition>, id: string, field: ClientField,
               e: DeviceDefinition, e': DeviceDefinition)
    requires DevicesDiffer(ds, dt, id, field) && e' == e.(client := e'.client)
    ensures if e == e' then ds[id := e] == dt[id := e']
            else ApartIn(e.client, e'.client, field) ==> DevicesDiffer(ds[id := e], dt[id := e'], id, field)
  {
    hide ApartIn;
  }

  lemma PutOther(ds: map<string, DeviceDefinition>, dt: map<string, DeviceDefinition>, id: string, field: ClientField,
                 other: string, e: DeviceDefinition)
    requires DevicesDiffer(ds, dt, id, field) && other != id
    ensures DevicesDiffer(ds[other := e], dt[other := e], id, field)
  {
    hide ApartIn;
  }

  lemma OwnDeviceApart(p: Parsers, s: Loaded, t: Loaded, target: Target, value: string, field: ClientField)
    requires NamesDevice(target) && Apart(s, t, target.id, field)
    ensures var ds, dt := DevicesAfter(p, s.client, s.devices, target, value),
                          DevicesAfter(p, t.client, t.devices, target, value);
            if Settles(p, target, value, target.id, field) then ds == dt else DevicesDiffer(ds, dt, target.id, field)
  {
    OwnLine(p, s.devices[target.id], t.devices[target.id].client, field, target, value);
    hide DeviceAfter, MakeDevice, ApartIn, Settles;
    var e, e' := DeviceAfter(p, s.devices[target.id], target, value),
                 DeviceAfter(p, t.devices[target.id], target, value);
    SelfApart(e.client, field);
    PutOwn(s.devices, t.devices, target.id, field, e, e');
  }

  lemma OtherDeviceApart(p: Parsers, s: Loaded, t: Loaded, target: Target, value: string, id: string,
                         field: ClientField)
    requires NamesDevice(target) && target.id != id && Apart(s, t, id, field)
    ensures DevicesDiffer(DevicesAfter(p, s.client, s.devices, target, value),
                          DevicesAfter(p, t.client, t.devices, target, value),
                          id, field)
  {
    hide DeviceAfter, MakeDevice, ApartIn;
    assert DevicesDiffer(s.devices, t.devices, id, field);
    hide DevicesDiffer;
    PutOther(s.devices, t.devices, id, field, target.id,
             DeviceAfter(p, KnownOr(s.devices, target.id, s.client), target, value));
  }

  lemma DevicesApart(p: Parsers, s: Loaded, t: Loaded, target: Target, value: string, id: string, field: ClientField)
    requires Apart(s, t, id, field)
    ensures var ds, dt := DevicesAfter(p, s.client, s.devices, target, value),
                          DevicesAfter(p, t.client, t.devices, target, value);
            if Settles(p, target, value, id, field) then ds == dt else DevicesDiffer(ds, dt, id, field)
  {
    hide DeviceAfter, MakeDevice, KnownOr, ApartIn, Overrides;
    if !NamesDevice(target) {
      NotSettled(p, target, value, id, field);
    } else if target.id == id {
      hide DevicesAfter, DevicesDiffer, Apart, Settles;
      OwnDeviceApart(p, s, t, target, value, field);
    } else {
      NotSettled(p, target, value, id, field);
      hide DevicesAfter, DevicesDiffer, Apart, Settles;
      OtherDeviceApart(p, s, t, target, value, id, field);
    }
  }

  lemma NotSettled(p: Parsers, target: Target, value: string, id: string, field: ClientField)
    ensures Settles(p, target, value, id, field) ==> NamesDevice(target) && target.id == id
  {
    hide Overrides;
  }

  lemma SelfApart(c: ClientOptions, field: ClientField)
    ensures !ApartIn(c, c, field)
  {
  }

  lemma UpdateApart(p: Parsers, s: Loaded, t: Loaded, target: Target, value: string, id: string, field: ClientField)
    requires Apart(s, t, id, field)
    ensures if Settles(p, target, value, id, field) then Update(p, s, target, value) == Update(p, t, target, value)
            else Apart(Update(p, s, target, value), Update(p, t, target, value), id, field)
  {
    hide ApartIn, Settles, Update, ClientAfter, CacheAfter, LogAfter, LegacyAfter, DevicesAfter, DevicePointsAfter,
      OfLegacyLine, OfDeviceLine;
    UpdateParts(p, s, target, value);
    UpdateParts(p, t, target, value);
    DevicesApart(p, s, t, target, value, id, field);
  }

  // ------------------------------------------------------------- to the end

  /** Whether some line overrides this option of this device. */
  predicate OverriddenIn(p: Parsers, lines: seq<string>, id: string, field: ClientField) {
    lines != [] &&
    ((match ParseLine(lines[0])
      case None => false
      case Some((key, value)) => Settles(p, TargetOf(p, key), value, id, field))
     || OverriddenIn(p, lines[1..], id, field))
  }

  lemma {:induction false} RunApart(p: Parsers, s: Loaded, t: Loaded, lines: seq<string>, id: string,
                                    field: ClientField)
    requires Apart(s, t, id, field)
    ensures if OverriddenIn(p, lines, id, field) then LoadLines(p, s, lines) == LoadLines(p, t, lines)
            else Apart(LoadLines(p, s, lines), LoadLines(p, t, lines), id, field)
    decreases |lines|
  {
    hide Apart, Settles, ParseLine, TargetOf, Update;
    if lines != [] {
      var s', t' := LoadLine(p, s, lines[0]), LoadLine(p, t, lines[0]);
      if ParseLine(lines[0]).Some? {
        var (key, value) := ParseLine(lines[0]).value;
        UpdateApart(p, s, t, TargetOf(p, key), value, id, field);
      }
      if s' != t' {
        RunApart(p, s', t', lines[1..], id, field);
      } else {
        StillApart(p, s, t, lines[0], id, field);
      }
    }
  }

  /** Only an overriding line brings the two states together. */
  lemma StillApart(p: Parsers, s: Loaded, t: Loaded, line: string, id: string, field: ClientField)
    requires Apart(s, t, id, field) && LoadLine(p, s, line) == LoadLine(p, t, line)
    ensures ParseLine(line).Some? &&
            var (key, value) := ParseLine(line).value; Settles(p, TargetOf(p, key), value, id, field)
  {
    hide Settles, ParseLine, TargetOf, Update, WithField;
    if ParseLine(line).Some? {
      var (key, value) := ParseLine(line).value;
      UpdateApart(p, s, t, TargetOf(p, key), value, id, field);
    }
  }

  // -------------------------------------------------------- the two orders

  /** The option reaches the device only through the device's creation, and nothing there hides it. */
  predicate Shows(p: Parsers, s: Loaded, field: ClientField, value: string, target: Target, deviceValue: string)
    requires NamesDevice(target)
  {
    && target.id !in s.devices && SetClient(p, s.client, field, value) != s.client
    && !Settles(p, target, deviceValue, target.id, field)
  }

  lemma OrdersApart(p: Parsers, s: Loaded, field: ClientField, value: string, target: Target, deviceValue: string)
    requires NamesDevice(target)
    ensures var one := Update(p, Update(p, s, GlobalClient(field), value), target, deviceValue);
            var two := Update(p, Update(p, s, target, deviceValue), GlobalClient(field), value);
            if Shows(p, s, field, value, target, deviceValue) then Apart(one, two, target.id, field) else one == two
  {
    if Shows(p, s, field, value, target, deviceValue) {
      hide *;
      ShownApart(p, s, field, value, target, deviceValue);
    } else {
      hide SetClient, Update, Overrides;
      EntangledExactly(p, s, field, value, target, deviceValue);
    }
  }

  lemma ShownApart(p: Parsers, s: Loaded, field: ClientField, value: string, target: Target, deviceValue: string)
    requires NamesDevice(target) && Shows(p, s, field, value, target, deviceValue)
    ensures Apart(Update(p, Update(p, s, GlobalClient(field), value), target, deviceValue),
                  Update(p, Update(p, s, target, deviceValue), GlobalClient(field), value), target.id, field)
  {
    NewDevicesApart(p, s, field, value, target, deviceValue);
    hide *;
    Both(p, s, GlobalClient(field), value, target, deviceValue);
    Both(p, s, target, deviceValue, GlobalClient(field), value);
    DevicePointsCommute(p, s.devicePoints, GlobalClient(field), value, target, deviceValue);
    LegacyCommutes(p, s.legacy, GlobalClient(field), value, target, deviceValue);
    ClientCommutes(p, s.client, GlobalClient(field), value, target, deviceValue);
    CacheAndLogCommute(p, s.cache, s.log, GlobalClient(field), value, target, deviceValue);
    BothApart(Update(p, Update(p, s, GlobalClient(field), value), target, deviceValue),
              Update(p, Update(p, s, target, deviceValue), GlobalClient(field), value), target.id, field);
  }

  lemma BothApart(s: Loaded, t: Loaded, id: string, field: ClientField)
    requires s.sawDevice && t == s.(devices := t.devices)
    requires DevicesDiffer(s.devices, t.devices, id, field)
    ensures Apart(s, t, id, field)
  {
  }

  lemma NewDevicesApart(p: Parsers, s: Loaded, field: ClientField, value: string, target: Target, deviceValue: string)
    requires NamesDevice(target) && Shows(p, s, field, value, target, deviceValue)
    ensures OfDeviceLine(target)
    ensures var g, id := GlobalClient(field), target.id;
            var ds := DevicesAfter(p, ClientAfter(p, s.client, g, value),
                                   DevicesAfter(p, s.client, s.devices, g, value), target, deviceValue);
            var dt := DevicesAfter(p, ClientAfter(p, s.client, target, deviceValue),
                                   DevicesAfter(p, s.client, s.devices, target, deviceValue), g, value);
            DevicesDiffer(ds, dt, id, field)
  {
    hide SetClient, DeviceAfter, WithField;
    var client := SetClient(p, s.client, field, value);
    SetLeavesApart(p, s.client, field, value);
    var d := MakeDevice(target.id, client);
    assert d.(client := s.client) == MakeDevice(target.id, s.client);
    OwnLine(p, d, s.client, field, target, deviceValue);
  }

  // ------------------------------------------------------------ whole files

  /** What a file loads shows the options of every device in it. */
  lemma ApartLoadsApart(s: Loaded, t: Loaded, id: string, field: ClientField, one: seq<DeviceDefinition>,
                        two: seq<DeviceDefinition>)
    requires Apart(s, t, id, field) && ListsDevices(one, s) && ListsDevices(two, t)
    ensures one != two
  {
    hide ListsPoints, TextLess, ApartIn;
    var d :| d in one && d.id == id;
    assert Assembled(d, s, id);
    SelfApart(s.devices[id].client, field);
    assert one == two ==> Assembled(d, t, d.id);
  }

  lemma SameLoads(p: Parsers, lines: seq<string>, lines': seq<string>, one: AppConfig, two: AppConfig)
    requires LoadedFrom(p, lines, one) && LoadedFrom(p, lines', two)
    requires LoadLines(p, NOTHING_LOADED, lines) == LoadLines(p, NOTHING_LOADED, lines')
    ensures one == two
  {
    hide LoadLines, ListsPoints, ListsDevices, WellFiled;
    NothingFiled();
    LinesKeepFiled(p, NOTHING_LOADED, lines);
    SameListings(LoadLines(p, NOTHING_LOADED, lines), one, two);
  }

  lemma FoldOfTwo(p: Parsers, before: seq<string>, a: string, b: string, after: seq<string>)
    ensures LoadLines(p, NOTHING_LOADED, before + [a, b] + after)
         == LoadLines(p, LoadLine(p, LoadLine(p, LoadLines(p, NOTHING_LOADED, before), a), b), after)
  {
    hide *;
    LoadLinesAppend(p, NOTHING_LOADED, before + [a, b], after);
    LoadLinesAppend(p, NOTHING_LOADED, before, [a, b]);
    TwoLines(p, LoadLines(p, NOTHING_LOADED, before), a, b);
  }

  /** Whether a global option line and a device line may change places at one point of a file. */
  predicate MayChangePlaces(p: Parsers, before: seq<string>, field: ClientField, value: string, target: Target,
                            deviceValue: string, after: seq<string>)
    requires NamesDevice(target)
  {
    var s := LoadLines(p, NOTHING_LOADED, before);
    !Shows(p, s, field, value, target, deviceValue) || OverriddenIn(p, after, target.id, field)
  }

  predicate Assigns(p: Parsers, line: string, target: Target, value: string) {
    match ParseLine(line)
    case None => false
    case Some((key, v)) => TargetOf(p, key) == target && v == value
  }

  lemma AssignsInFold(p: Parsers, s: Loaded, line: string, target: Target, value: string)
    requires Assigns(p, line, target, value)
    ensures LoadLine(p, s, line) == Update(p, s, target, value)
  {
    hide ParseLine, TargetOf, Update;
  }

  /**
   A global option line and a device line may change places in a file exactly if the device is known from the lines
   before, or the option changes nothing there, or the device line itself or a line after both overrides it for the
   device.
   */
  lemma EntangledLinesExactly(p: Parsers, before: seq<string>, a: string, b: string, after: seq<string>,
                              field: ClientField, value: string, target: Target, deviceValue: string, one: AppConfig,
                              two: AppConfig)
    requires NamesDevice(target) && Assigns(p, a, GlobalClient(field), value) && Assigns(p, b, target, deviceValue)
    requires LoadedFrom(p, before + [a, b] + after, one) && LoadedFrom(p, before + [b, a] + after, two)
    ensures one == two <==> MayChangePlaces(p, before, field, value, target, deviceValue, after)
  {
    var id, start := target.id, LoadLines(p, NOTHING_LOADED, before);
    hide Shows, Apart, Update, OverriddenIn, Assigns, LoadLines, LoadLine, NamesDevice, ListsDevices, ListsPoints;
    FoldOfTwo(p, before, a, b, after);
    FoldOfTwo(p, before, b, a, after);
    AssignsInFold(p, start, a, GlobalClient(field), value);
    AssignsInFold(p, start, b, target, deviceValue);
    var s, t := LoadLine(p, LoadLine(p, start, a), b), LoadLine(p, LoadLine(p, start, b), a);
    AssignsInFold(p, LoadLine(p, start, a), b, target, deviceValue);
    AssignsInFold(p, LoadLine(p, start, b), a, GlobalClient(field), value);
    OrdersApart(p, start, field, value, target, deviceValue);
    if Shows(p, start, field, value, target, deviceValue) {
      RunApart(p, s, t, after, id, field);
    }
    if MayChangePlaces(p, before, field, value, target, deviceValue, after) {
      SameLoads(p, before + [a, b] + after, before + [b, a] + after, one, two);
    } else {
      ApartSeen(LoadLines(p, s, after), LoadLines(p, t, after), id, field);
      ApartLoadsApart(LoadLines(p, s, after), LoadLines(p, t, after), id, field, one.devices, two.devices);
    }
  }

  lemma ApartSeen(s: Loaded, t: Loaded, id: string, field: ClientField)
    requires Apart(s, t, id, field)
    ensures s.sawDevice && t.sawDevice
  {
  }
}
