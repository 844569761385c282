/**
 What a line of a configuration file sets: every key is told apart on its characters, every field of every entity is
 written out, and the loaded configuration is what the last line about a field says.
 */
module ConfigFields {
  import opened Wrappers
  import opened Text
  import opened Points
  import opened Configuration
  import opened ConfigLoading
  import opened ConfigMeaning

  ghost function OrElse<T>(x: Option<T>, otherwise: T): T {
    match x case Some(v) => v case None => otherwise
  }

  // ------------------------------------------------------- fields, written out

  ghost function PointWith(p: Parsers, d: PointDefinition, attribute: string, value: string): PointDefinition {
    PointDefinition(
      d.address,
      if attribute == "name" then value else d.name,
      if attribute == "type" then value else d.typeName,
      if attribute == "unit" then value else d.unit,
      if attribute == "high_high" then Some(OrElse(p.double(value), Finite(0.0))) else d.highHigh,
      if attribute == "high" then Some(OrElse(p.double(value), Finite(0.0))) else d.high,
      if attribute == "low" then Some(OrElse(p.double(value), Finite(0.0))) else d.low,
      if attribute == "low_low" then Some(OrElse(p.double(value), Finite(0.0))) else d.lowLow,
      if attribute == "normal_state" then Some(OrElse(p.integer(value), 0)) else d.normalState,
      if attribute == "stale_seconds" then OrElse(p.integer(value), d.staleSeconds) else d.staleSeconds)
  }

  ghost function ClientWith(p: Parsers, c: ClientOptions, attribute: string, value: string): ClientOptions {
    ClientOptions(
      if attribute == "host" then value else c.host,
      if attribute == "port" then OrElse(p.integer(value), c.port) % 65536 else c.port,
      if attribute == "connect_timeout_ms" then OrElse(p.integer(value), c.connectTimeoutMs) else c.connectTimeoutMs,
      if attribute == "receive_timeout_ms" then OrElse(p.integer(value), c.receiveTimeoutMs) else c.receiveTimeoutMs,
      if attribute == "reconnect_ms" then OrElse(p.integer(value), c.reconnectMs) else c.reconnectMs,
      if attribute == "heartbeat_interval_ms" then OrElse(p.integer(value), c.heartbeatIntervalMs)
      else c.heartbeatIntervalMs,
      if attribute == "heartbeat_timeout_ms" then OrElse(p.integer(value), c.heartbeatTimeoutMs)
      else c.heartbeatTimeoutMs,
      if attribute == "status_interval_ms" then OrElse(p.integer(value), c.statusIntervalMs) else c.statusIntervalMs)
  }

  /** Whether an option is on after a line says value about it. */
  ghost predicate On(value: string, before: bool) {
    || Says(value, "1") || Says(value, "true") || Says(value, "yes") || Says(value, "on")
    || (before && !Says(value, "0") && !Says(value, "false") && !Says(value, "no") && !Says(value, "off"))
  }

  ghost function DeviceWith(p: Parsers, d: DeviceDefinition, attribute: string, value: string): DeviceDefinition {
    DeviceDefinition(
      d.id,
      if attribute == "name" then value else d.name,
      if attribute == "enabled" then On(value, d.enabled) else d.enabled,
      if attribute == "common_address" then OrElse(p.integer(value), d.commonAddress) % 65536 else d.commonAddress,
      ClientWith(p, d.client, attribute, value),
      d.points)
  }

  lemma PointAttribute(p: Parsers, d: PointDefinition, attribute: string, value: string)
    ensures SetPoint(p, d, PointFieldOf(attribute), value) == PointWith(p, d, attribute, value)
  {
    assert "name"[0] == 'n' && "type"[0] == 't' && "unit"[0] == 'u' && "stale_seconds"[0] == 's';
    assert "normal_state"[1] == 'o' && "name"[1] == 'a';
    assert |"high"| == 4 && |"high_high"| == 9 && |"low"| == 3 && |"low_low"| == 7;
    assert "high"[0] == 'h' && "high_high"[0] == 'h' && "low"[0] == 'l' && "low_low"[0] == 'l';
  }

  lemma ClientAttribute(p: Parsers, c: ClientOptions, attribute: string, value: string)
    ensures SetClient(p, c, ClientFieldOf(attribute), value) == ClientWith(p, c, attribute, value)
  {
    assert "host"[0] == 'h' && "heartbeat_interval_ms"[10] == 'i' && "heartbeat_timeout_ms"[10] == 't';
    assert |"host"| == 4 && |"heartbeat_interval_ms"| == 21 && |"heartbeat_timeout_ms"| == 20;
    assert "port"[0] == 'p' && "connect_timeout_ms"[0] == 'c' && "status_interval_ms"[0] == 's';
    assert "receive_timeout_ms"[2] == 'c' && "reconnect_ms"[2] == 'c' && |"reconnect_ms"| == 12;
    assert |"receive_timeout_ms"| == 18 && "receive_timeout_ms"[0] == 'r' && "reconnect_ms"[0] == 'r';
    assert "heartbeat_interval_ms"[0] == 'h' && "heartbeat_timeout_ms"[0] == 'h';
  }

  // --------------------------------------------------------------------- keys

  lemma Parts(front: string, dot: string, rest: string)
    requires '.' !in front && dot == "."
    ensures var text := front + dot + rest;
            Find(text, '.') == |front| < |text| && text[..|front|] == front && text[|front| + 1..] == rest
  {
    var text := front + dot + rest;
    assert text[..|front|] == front;
    FindFirst(text, '.', |front|);
  }

  lemma NotAnOption(key: string)
    requires key != "" && key[0] in {'d', 'p'}
    ensures key != "cache_path" && key != "cache_max_records" && key != "log_path" && key != "log_level"
            && key != "log_console" && key != "log_append"
  {
    assert "cache_path"[0] == 'c' && "cache_max_records"[0] == 'c' && "log_path"[0] == 'l' && "log_level"[0] == 'l';
    assert "log_console"[0] == 'l' && "log_append"[0] == 'l';
  }

  lemma DeviceKey(p: Parsers, key: string, id: string, attribute: string)
    requires key == "device." + (id + "." + attribute) && id != "" && '.' !in id
    ensures TargetOf(p, key) == AttributeTarget(p, id, attribute)
  {
    hide AttributeTarget, Find;
    assert key[0] == 'd' && key[7..] == id + "." + attribute;
    NotAnOption(key);
    Parts(id, ".", attribute);
  }

  lemma DevicePointKey(p: Parsers, id: string, attribute: string, number: string, field: string)
    requires attribute == "point." + (number + "." + field) && '.' !in number
    ensures AttributeTarget(p, id, attribute) == match p.integer(number)
              case Some(n) => if n == 0 then DeviceTouch(id) else DevicePoint(id, n, PointFieldOf(field))
              case None => DeviceTouch(id)
  {
    hide Find, PointFieldOf, ClientFieldOf;
    assert attribute[0] == 'p' && "name"[0] == 'n' && "enabled"[0] == 'e' && "common_address"[0] == 'c';
    assert attribute[6..] == number + "." + field;
    Parts(number, ".", field);
  }

  lemma LegacyKey(p: Parsers, key: string, number: string, field: string)
    requires key == "point." + (number + "." + field) && '.' !in number
    ensures TargetOf(p, key) == match p.integer(number)
              case Some(n) => if n == 0 then LegacyMark else LegacyPoint(n, PointFieldOf(field))
              case None => LegacyMark
  {
    hide Find, PointFieldOf, ClientFieldOf;
    assert key[0] == 'p' && "device."[0] == 'd' && key[6..] == number + "." + field;
    NotAnOption(key);
    Parts(number, ".", field);
  }

  // --------------------------------------------------------- what one line does

  ghost function DeviceBefore(s: Loaded, id: string): DeviceDefinition {
    if id in s.devices then s.devices[id] else DeviceDefinition(id, id, true, 1, s.client, [])
  }

  ghost function PointBefore(points: map<int, PointDefinition>, address: int): PointDefinition {
    if address in points then points[address]
    else PointDefinition(address, "", "analog", "", None, None, None, None, None, 30)
  }

  ghost function PointsBefore(s: Loaded, id: string): map<int, PointDefinition> {
    if id in s.devicePoints then s.devicePoints[id] else map[]
  }

  lemma KnownBefore(s: Loaded, id: string)
    requires id != ""
    ensures DeviceIn(s, id) == DeviceBefore(s, id)
  {
  }

  lemma KnownPoint(points: PointMap, address: int)
    requires Filed(points)
    ensures PointIn(points, address) == PointBefore(points, address)
  {
  }

  /** A line `device.<id>.point.<number>.<field> = <value>` sets that field of that point of that device; the device and
      the point are created if they were not there, and everything else stays. */
  lemma PointLine(p: Parsers, s: Loaded, raw: string, id: string, number: string, n: int, field: string, value: string)
    requires WellFiled(s) && id != "" && '.' !in id && '.' !in number && p.integer(number) == Some(n) && n != 0
    requires Reads(raw, "device." + (id + "." + ("point." + (number + "." + field))), value)
    ensures var points := PointsBefore(s, id);
            LoadLine(p, s, raw) == s.(
              sawDevice := true, devices := s.devices[id := DeviceBefore(s, id)],
              devicePoints := s.devicePoints[id := points[n := PointWith(p, PointBefore(points, n), field, value)]])
  {
    hide ParseLine, TargetOf, AttributeTarget, PointFieldOf, SetPoint, PointWith, DeviceIn, DeviceBefore, PointIn,
      PointBefore;
    var attribute := "point." + (number + "." + field);
    LineReadExactly(raw, "device." + (id + "." + attribute), value);
    DeviceKey(p, "device." + (id + "." + attribute), id, attribute);
    DevicePointKey(p, id, attribute, number, field);
    KnownBefore(s, id);
    KnownPoint(PointsIn(s, id), n);
    PointAttribute(p, PointBefore(PointsBefore(s, id), n), field, value);
  }

  /** A line `device.<id>.<attribute> = <value>` about anything but a point sets that attribute of that device. */
  lemma DeviceLine(p: Parsers, s: Loaded, raw: string, id: string, attribute: string, value: string)
    requires id != "" && '.' !in id && !("point." <= attribute)
    requires Reads(raw, "device." + (id + "." + attribute), value)
    ensures LoadLine(p, s, raw) == s.(sawDevice := true,
                                      devices := s.devices[id := DeviceWith(p, DeviceBefore(s, id), attribute, value)])
  {
    hide ParseLine, TargetOf, AttributeTarget, DeviceWith, DeviceIn, DeviceBefore, SetClient, SetDevice;
    LineReadExactly(raw, "device." + (id + "." + attribute), value);
    DeviceKey(p, "device." + (id + "." + attribute), id, attribute);
    KnownBefore(s, id);
    DeviceAttribute(p, s, id, attribute, value);
  }

  lemma DeviceAttribute(p: Parsers, s: Loaded, id: string, attribute: string, value: string)
    requires !("point." <= attribute)
    ensures var target := AttributeTarget(p, id, attribute);
            Update(p, s, target, value) == s.(sawDevice := true,
              devices := s.devices[id := DeviceWith(p, DeviceIn(s, id), attribute, value)])
  {
    hide ClientFieldOf, SetClient, ClientWith, BoolOr, DeviceIn, On;
    assert "name"[0] == 'n' && "enabled"[0] == 'e' && "common_address"[0] == 'c';
    var d := DeviceIn(s, id);
    ClientAttribute(p, d.client, attribute, value);
    Truth(value, d.enabled);
    if attribute in {"name", "enabled", "common_address"} {
      NoClientAttribute(p, d.client, attribute, value);
    }
  }

  lemma NoClientAttribute(p: Parsers, c: ClientOptions, attribute: string, value: string)
    requires attribute in {"name", "enabled", "common_address"}
    ensures ClientWith(p, c, attribute, value) == c
  {
    assert "host"[0] == 'h' && "port"[0] == 'p' && "connect_timeout_ms"[3] == 'n' && "receive_timeout_ms"[0] == 'r';
    assert "reconnect_ms"[0] == 'r' && "heartbeat_interval_ms"[0] == 'h' && "heartbeat_timeout_ms"[0] == 'h';
    assert "status_interval_ms"[0] == 's' && "common_address"[3] == 'm';
    assert "name"[0] == 'n' && "enabled"[0] == 'e' && "common_address"[0] == 'c';
    assert "connect_timeout_ms"[0] == 'c';
  }

  /** A line `point.<number>.<field> = <value>` sets that field of that point of the list without a device. */
  lemma LegacyLine(p: Parsers, s: Loaded, raw: string, number: string, n: int, field: string, value: string)
    requires WellFiled(s) && '.' !in number && p.integer(number) == Some(n) && n != 0
    requires Reads(raw, "point." + (number + "." + field), value)
    ensures LoadLine(p, s, raw)
         == s.(sawLegacy := true, legacy := s.legacy[n := PointWith(p, PointBefore(s.legacy, n), field, value)])
  {
    hide ParseLine, TargetOf, PointFieldOf, SetPoint, PointWith, PointIn, PointBefore;
    LineReadExactly(raw, "point." + (number + "." + field), value);
    LegacyKey(p, "point." + (number + "." + field), number, field);
    KnownPoint(s.legacy, n);
    PointAttribute(p, PointBefore(s.legacy, n), field, value);
  }

  /** The options with the one that key names set, or none. */
  ghost function OptionsWith(p: Parsers, s: Loaded, key: string, value: string): Loaded {
    s.(
      cache := CacheOptions(
        if key == "cache_path" then value else s.cache.path,
        if key == "cache_max_records" then OrElse(p.size(value), s.cache.maxRecords)
        else s.cache.maxRecords),
      log := LogOptions(
        if key == "log_path" then value else s.log.path,
        if key == "log_level" then value else s.log.level,
        if key == "log_console" then On(value, s.log.console) else s.log.console,
        if key == "log_append" then On(value, s.log.append) else s.log.append),
      client := ClientWith(p, s.client, key, value))
  }

  lemma OptionAttribute(p: Parsers, s: Loaded, key: string, value: string)
    requires !("device." <= key) && !("point." <= key)
    ensures Update(p, s, TargetOf(p, key), value) == OptionsWith(p, s, key, value)
  {
    hide ClientFieldOf, SetClient, ClientWith, BoolOr, On, DeviceTarget, LegacyTarget;
    OptionKeysDiffer();
    if key in OPTIONS {
      NoClientOption(p, s.client, key, value);
      Truth(value, s.log.console);
      Truth(value, s.log.append);
    } else {
      ClientAttribute(p, s.client, key, value);
    }
  }

  lemma Truth(value: string, before: bool)
    ensures BoolOr(value, before) == On(value, before)
  {
    hide BoolOr, Says;
    TruthExactly(value, before);
  }

  /** Any other line sets the one global option its key names, or nothing. */
  lemma OptionLine(p: Parsers, s: Loaded, raw: string, key: string, value: string)
    requires !("device." <= key) && !("point." <= key) && Reads(raw, key, value)
    ensures LoadLine(p, s, raw) == OptionsWith(p, s, key, value)
  {
    hide ParseLine, TargetOf, Update, OptionsWith;
    LineReadExactly(raw, key, value);
    OptionAttribute(p, s, key, value);
  }

  const OPTIONS := {"cache_path", "cache_max_records", "log_path", "log_level", "log_console", "log_append"}

  lemma OptionKeysDiffer()
    ensures "cache_path" != "cache_max_records" && "cache_path"[0] == 'c' && "cache_max_records"[0] == 'c'
    ensures "log_path"[4] == 'p' && "log_level"[4] == 'l' && "log_console"[4] == 'c' && "log_append"[4] == 'a'
    ensures "log_path"[0] == 'l' && "log_level"[0] == 'l' && "log_console"[0] == 'l' && "log_append"[0] == 'l'
  {
    assert |"cache_path"| == 10 && |"cache_max_records"| == 17;
  }

  lemma NoClientOption(p: Parsers, c: ClientOptions, key: string, value: string)
    requires key in OPTIONS
    ensures ClientWith(p, c, key, value) == c
  {
    OptionKeysDiffer();
    assert "host"[0] == 'h' && "port"[0] == 'p' && "connect_timeout_ms"[1] == 'o' && "receive_timeout_ms"[0] == 'r';
    assert "reconnect_ms"[0] == 'r' && "heartbeat_interval_ms"[0] == 'h' && "heartbeat_timeout_ms"[0] == 'h';
    assert "status_interval_ms"[0] == 's' && "cache_path"[1] == 'a' && "cache_max_records"[1] == 'a';
    assert "connect_timeout_ms"[0] == 'c';
  }

  /** A number a key can name a point by: one that can be read and is not zero. */
  ghost predicate Names(p: Parsers, number: string) {
    p.integer(number).Some? && p.integer(number) != Some(0)
  }

  /** Keys of points that name no field or no readable address. */
  ghost predicate NoPoint(p: Parsers, rest: string) {
    '.' !in rest || exists number, field :: rest == number + "." + field && '.' !in number && !Names(p, number)
  }

  lemma NoPointFound(p: Parsers, rest: string)
    requires NoPoint(p, rest)
    ensures var dot := Find(rest, '.'); dot == |rest| || IntOr(p, rest[..dot], 0) == 0
  {
    hide Find;
    if '.' !in rest {
      FindNone(rest, '.');
    } else {
      var number, field :| rest == number + "." + field && '.' !in number && !Names(p, number);
      Parts(number, ".", field);
    }
  }

  /** A device line without an identifier is only noticed; a point line without field or address creates its device and
      no more; the same line without a device is only noticed. */
  lemma MalformedLines(p: Parsers, s: Loaded, raw: string, key: string, rest: string, value: string)
    requires Reads(raw, key, value)
    ensures key == "device." + rest && ('.' !in rest || rest[0] == '.') ==> LoadLine(p, s, raw) == s.(sawDevice := true)
    ensures key == "point." + rest && NoPoint(p, rest) ==> LoadLine(p, s, raw) == s.(sawLegacy := true)
    ensures forall id | id != "" && '.' !in id && key == "device." + (id + "." + ("point." + rest))
            && NoPoint(p, rest) ::
              LoadLine(p, s, raw) == s.(sawDevice := true, devices := s.devices[id := DeviceBefore(s, id)])
  {
    hide ParseLine, NoPoint, Find, IntOr, PointFieldOf, ClientFieldOf, DeviceIn, DeviceBefore, Reads, AttributeTarget;
    LineReadExactly(raw, key, value);
    if key == "device." + rest && ('.' !in rest || rest[0] == '.') {
      assert key[0] == 'd' && key[7..] == rest;
      NotAnOption(key);
      if '.' !in rest {
        FindNone(rest, '.');
      } else {
        FindFirst(rest, '.', 0);
      }
    }
    if key == "point." + rest && NoPoint(p, rest) {
      assert key[0] == 'p' && "device."[0] == 'd' && key[6..] == rest;
      NotAnOption(key);
      NoPointFound(p, rest);
    }
    forall id | id != "" && '.' !in id && key == "device." + (id + "." + ("point." + rest)) && NoPoint(p, rest)
      ensures LoadLine(p, s, raw) == s.(sawDevice := true, devices := s.devices[id := DeviceBefore(s, id)])
    {
      hide TargetOf;
      DeviceKey(p, key, id, "point." + rest);
      KnownBefore(s, id);
      TouchOnly(p, id, rest);
    }
  }

  lemma TouchOnly(p: Parsers, id: string, rest: string)
    requires NoPoint(p, rest)
    ensures AttributeTarget(p, id, "point." + rest) == DeviceTouch(id)
  {
    hide Find, PointFieldOf, ClientFieldOf;
    var attribute := "point." + rest;
    assert attribute[0] == 'p' && "name"[0] == 'n' && "enabled"[0] == 'e' && "common_address"[0] == 'c';
    assert attribute[6..] == rest;
    NoPointFound(p, rest);
  }

  // ------------------------------------------------- what the last line decides

  lemma {:induction false} LinesThen(p: Parsers, s: Loaded, lines: seq<string>, raw: string)
    ensures LoadLines(p, s, lines + [raw]) == LoadLine(p, LoadLines(p, s, lines), raw)
    decreases |lines|
  {
    hide LoadLine;
    if lines == [] {
      assert lines + [raw] == [raw] && [raw][1..] == [];
    } else {
      assert (lines + [raw])[0] == lines[0] && (lines + [raw])[1..] == lines[1..] + [raw];
      LinesThen(p, LoadLine(p, s, lines[0]), lines[1..], raw);
    }
  }

  ghost function Titled(d: PointDefinition): PointDefinition {
    if d.name == "" then d.(name := "IOA " + Decimal(d.address)) else d
  }

  /**
   After a last line `device.<id>.point.<number>.<field> = <value>`, whatever the lines before it, the loaded
   configuration has exactly one device and point of that identifier and address, and the point is what the lines before
   made of it with that one field set.
   */
  lemma LastPointLine(p: Parsers, lines: seq<string>, raw: string, config: AppConfig, id: string, number: string,
                      n: int, field: string, value: string)
    requires LoadedFrom(p, lines + [raw], config)
    requires id != "" && '.' !in id && '.' !in number && p.integer(number) == Some(n) && n != 0
    requires Reads(raw, "device." + (id + "." + ("point." + (number + "." + field))), value)
    ensures exists d <- config.devices :: d.id == id && exists q <- d.points :: q.address == n
    ensures var points := PointsBefore(LoadLines(p, NOTHING_LOADED, lines), id);
            forall d, q | d in config.devices && d.id == id && q in d.points && q.address == n ::
              q == Titled(PointWith(p, PointBefore(points, n), field, value))
  {
    hide LoadLine, PointWith, GoodPoints, Reads, PointBefore, DeviceBefore, WellFiled, ListsDevices, ListsPoints;
    var s := LoadLines(p, NOTHING_LOADED, lines);
    LinesThen(p, NOTHING_LOADED, lines, raw);
    NothingFiled();
    LinesKeepFiled(p, NOTHING_LOADED, lines);
    PointLine(p, s, raw, id, number, n, field, value);
    PointKept(p, s, id, n, field, value);
    hide LoadLines;
    var t := LoadLine(p, s, raw);
    assert t.sawDevice && ListsDevices(config.devices, t) && id in t.devices;
    PointListed(config.devices, t, id, n);
  }

  lemma PointKept(p: Parsers, s: Loaded, id: string, n: int, field: string, value: string)
    requires WellFiled(s)
    ensures PointWith(p, PointBefore(PointsBefore(s, id), n), field, value).address == n
  {
  }

  lemma PointListed(devices: seq<DeviceDefinition>, t: Loaded, id: string, n: int)
    requires ListsDevices(devices, t) && id in t.devices && id in t.devicePoints && n in t.devicePoints[id]
    requires t.devicePoints[id][n].address == n
    ensures exists d <- devices :: d.id == id && exists q <- d.points :: q.address == n
    ensures forall d, q | d in devices && d.id == id && q in d.points && q.address == n ::
              q == Titled(t.devicePoints[id][n])
  {
    hide GoodPoints, Decimal;
    var d :| d in devices && d.id == id;
    assert Assembled(d, t, id);
    assert NamedPoint(t.devicePoints[id][n]) in d.points;
    forall e, q | e in devices && e.id == id && q in e.points && q.address == n
      ensures q == Titled(t.devicePoints[id][n])
    {
      assert Assembled(e, t, id);
    }
  }

  /** After a last line `device.<id>.<attribute> = <value>`, the loaded device is what the lines before made of it with
      that one attribute set, under its identifier if it has no name. */
  lemma LastDeviceLine(p: Parsers, lines: seq<string>, raw: string, config: AppConfig, id: string, attribute: string,
                       value: string)
    requires LoadedFrom(p, lines + [raw], config)
    requires id != "" && '.' !in id && !("point." <= attribute)
    requires Reads(raw, "device." + (id + "." + attribute), value)
    ensures exists d <- config.devices :: d.id == id
    ensures var e := DeviceWith(p, DeviceBefore(LoadLines(p, NOTHING_LOADED, lines), id), attribute, value);
            forall d | d in config.devices && d.id == id ::
              d == e.(name := if e.name == "" then id else e.name, points := d.points)
  {
    hide LoadLine, DeviceWith, DeviceBefore, ListsPoints, Reads;
    var s := LoadLines(p, NOTHING_LOADED, lines);
    LinesThen(p, NOTHING_LOADED, lines, raw);
    DeviceLine(p, s, raw, id, attribute, value);
    hide LoadLines;
    var t := LoadLine(p, s, raw);
    assert t.sawDevice && ListsDevices(config.devices, t) && id in t.devices;
    forall d | d in config.devices && d.id == id ensures Assembled(d, t, id) {
    }
  }

  /** After a last line about a global option, the loaded options are what the lines before made of them with that one
      option set. */
  lemma LastOptionLine(p: Parsers, lines: seq<string>, raw: string, config: AppConfig, key: string, value: string)
    requires LoadedFrom(p, lines + [raw], config)
    requires !("device." <= key) && !("point." <= key) && Reads(raw, key, value)
    ensures var t := OptionsWith(p, LoadLines(p, NOTHING_LOADED, lines), key, value);
            config.client == t.client && config.cache == t.cache && config.log == t.log
  {
    hide LoadLine, LoadLines, ListsPoints, ListsDevices, Reads, OptionsWith;
    LinesThen(p, NOTHING_LOADED, lines, raw);
    OptionLine(p, LoadLines(p, NOTHING_LOADED, lines), raw, key, value);
  }

  /** What an empty file loads, and a file that cannot be opened. */
  lemma NothingSaid(p: Parsers, config: AppConfig)
    requires LoadedFrom(p, [], config)
    ensures config.client == ClientOptions("127.0.0.1", 2404, 3000, 5000, 3000, 10000, 3000, 1000)
    ensures config.cache == CacheOptions("data/cache.log", 10000)
    ensures config.log == LogOptions("logs/scada_client.log", "info", true, true)
    ensures config.points == [
              PointDefinition(1001, "Main transformer load", "analog", "MW", Some(Finite(95.0)), Some(Finite(85.0)),
                              Some(Finite(10.0)), Some(Finite(5.0)), None, 15),
              PointDefinition(1002, "Bus voltage", "analog", "kV", Some(Finite(235.0)), Some(Finite(230.0)),
                              Some(Finite(205.0)), Some(Finite(198.0)), None, 15),
              PointDefinition(2001, "Breaker QF1", "digital", "", None, None, None, None, Some(1), 20)]
    ensures config.devices == [DeviceDefinition("rtu_main", "Main RTU", true, 1, config.client, config.points)]
  {
  }
}
