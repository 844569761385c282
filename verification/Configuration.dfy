/**
 Loading a configuration: lines are folded one by one into global options and into maps
 of devices and points, which are then listed in ascending key order.

 Number parsing is a parameter that may fail; everything else about a line is spelled out.
 */
module Configuration {
  import opened Wrappers
  import opened Frame
  import opened Text
  import opened Points

  // ------------------------------------------------------------------ line syntax

  datatype Parsers = Parsers(integer: string -> Option<int>, size: string -> Option<nat>,
                             double: string -> Option<Double>)

  function IntOr(p: Parsers, value: string, fallback: int): int {
    match p.integer(value) case Some(n) => n case None => fallback
  }

  function DoubleOr(p: Parsers, value: string, fallback: Double): Double {
    match p.double(value) case Some(d) => d case None => fallback
  }

  function SizeOr(p: Parsers, value: string, fallback: nat): nat {
    match p.size(value) case Some(n) => n case None => fallback
  }

  predicate IsSpace(c: char) {
    c in {' ', '\t', '\n', '\r'} || c as int == 11 || c as int == 12
  }

  function TrimLeft(value: string): string {
    if value != "" && IsSpace(value[0]) then TrimLeft(value[1..]) else value
  }

  function TrimRight(value: string): string {
    if value != "" && IsSpace(value[|value| - 1]) then TrimRight(value[..|value| - 1]) else value
  }

  function Trim(value: string): string {
    TrimRight(TrimLeft(value))
  }

  /** The position of the first c, or the length if there is none. */
  function Find(value: string, c: char): (at: nat)
    ensures at <= |value|
    ensures at < |value| ==> value[at] == c
    ensures c !in value[..at]
  {
    if value == "" || value[0] == c then 0 else Find(value[1..], c) + 1
  }

  function BoolOr(value: string, fallback: bool): bool {
    var v := Lower(Trim(value));
    if v in {"1", "true", "yes", "on"} then true
    else if v in {"0", "false", "no", "off"} then false
    else fallback
  }

  /** The key and value of a line, if it has any. */
  function ParseLine(raw: string): Option<(string, string)> {
    var line := Trim(raw[..Find(raw, '#')]);
    var equals := Find(line, '=');
    if line == "" || equals == |line| then None
    else Some((Trim(line[..equals]), Trim(line[equals + 1..])))
  }

  // -------------------------------------------------------------------- entities

  datatype ClientOptions = ClientOptions(
    host: string, port: Word, connectTimeoutMs: int, receiveTimeoutMs: int, reconnectMs: int,
    heartbeatIntervalMs: int, heartbeatTimeoutMs: int, statusIntervalMs: int)

  datatype CacheOptions = CacheOptions(path: string, maxRecords: nat)

  datatype LogOptions = LogOptions(path: string, level: string, console: bool, append: bool)

  datatype DeviceDefinition = DeviceDefinition(
    id: string, name: string, enabled: bool, commonAddress: Word, client: ClientOptions, points: seq<PointDefinition>)

  datatype AppConfig = AppConfig(
    client: ClientOptions, cache: CacheOptions, log: LogOptions,
    devices: seq<DeviceDefinition>, points: seq<PointDefinition>)

  const DEFAULT_CLIENT := ClientOptions("127.0.0.1", 2404, 3000, 5000, 3000, 10000, 3000, 1000)
  const DEFAULT_CACHE := CacheOptions("data/cache.log", 10000)
  const DEFAULT_LOG := LogOptions("logs/scada_client.log", "info", true, true)

  const DEFAULT_POINTS := [
    PointDefinition(1001, "Main transformer load", "analog", "MW", Some(Finite(95.0)), Some(Finite(85.0)),
                    Some(Finite(10.0)),
                    Some(Finite(5.0)), None, 15),
    PointDefinition(1002, "Bus voltage", "analog", "kV", Some(Finite(235.0)), Some(Finite(230.0)), Some(Finite(205.0)),
                    Some(Finite(198.0)), None, 15),
    PointDefinition(2001, "Breaker QF1", "digital", "", None, None, None, None, Some(1), 20)]

  /** A point as the map creates it on first use. */
  function BlankPoint(address: int): PointDefinition {
    PointDefinition(address, "", "analog", "", None, None, None, None, None, 30)
  }

  function MakeDevice(id: string, client: ClientOptions): DeviceDefinition {
    var name := if id == "" then "rtu_main" else id;
    DeviceDefinition(name, name, true, 1, client, [])
  }

  // -------------------------------------------------------------------- targets

  datatype ClientField =
    | Host | Port | ConnectTimeout | ReceiveTimeout | Reconnect | HeartbeatInterval | HeartbeatTimeout | StatusInterval
    | NoClientField

  datatype PointField = PointNameField | TypeField | UnitField | HighHighField | HighField | LowField | LowLowField
                      | NormalStateField | StaleSecondsField | NoPointField

  datatype DeviceField = DeviceNameField | EnabledField | CommonAddressField

  /** What a key resolves to.  A mark only records that such a line was seen; a touch also creates the device. */
  datatype Target =
    | CachePath | CacheMax | LogPath | LogLevel | LogConsole | LogAppend
    | GlobalClient(client: ClientField)
    | DeviceMark | DeviceTouch(id: string) | OfDevice(id: string, field: DeviceField)
    | DeviceClient(id: string, client: ClientField)
    | DevicePoint(id: string, address: int, point: PointField)
    | LegacyMark | LegacyPoint(address: int, point: PointField)

  function ClientFieldOf(attribute: string): ClientField {
    if attribute == "host" then Host
    else if attribute == "port" then Port
    else if attribute == "connect_timeout_ms" then ConnectTimeout
    else if attribute == "receive_timeout_ms" then ReceiveTimeout
    else if attribute == "reconnect_ms" then Reconnect
    else if attribute == "heartbeat_interval_ms" then HeartbeatInterval
    else if attribute == "heartbeat_timeout_ms" then HeartbeatTimeout
    else if attribute == "status_interval_ms" then StatusInterval
    else NoClientField
  }

  function PointFieldOf(attribute: string): PointField {
    if attribute == "name" then PointNameField
    else if attribute == "type" then TypeField
    else if attribute == "unit" then UnitField
    else if attribute == "high_high" then HighHighField
    else if attribute == "high" then HighField
    else if attribute == "low" then LowField
    else if attribute == "low_low" then LowLowField
    else if attribute == "normal_state" then NormalStateField
    else if attribute == "stale_seconds" then StaleSecondsField
    else NoPointField
  }

  function AttributeTarget(p: Parsers, id: string, attribute: string): Target {
    if attribute == "name" then OfDevice(id, DeviceNameField)
    else if attribute == "enabled" then OfDevice(id, EnabledField)
    else if attribute == "common_address" then OfDevice(id, CommonAddressField)
    else if "point." <= attribute then
      var pointRest := attribute[6..];
      var pointDot := Find(pointRest, '.');
      if pointDot == |pointRest| || IntOr(p, pointRest[..pointDot], 0) == 0 then DeviceTouch(id)
      else DevicePoint(id, IntOr(p, pointRest[..pointDot], 0), PointFieldOf(pointRest[pointDot + 1..]))
    else DeviceClient(id, ClientFieldOf(attribute))
  }

  function DeviceTarget(p: Parsers, rest: string): Target {
    var dot := Find(rest, '.');
    if dot == |rest| || dot == 0 then DeviceMark else AttributeTarget(p, rest[..dot], rest[dot + 1..])
  }

  function LegacyTarget(p: Parsers, rest: string): Target {
    var dot := Find(rest, '.');
    if dot == |rest| || IntOr(p, rest[..dot], 0) == 0 then LegacyMark
    else LegacyPoint(IntOr(p, rest[..dot], 0), PointFieldOf(rest[dot + 1..]))
  }

  function TargetOf(p: Parsers, key: string): Target {
    if key == "cache_path" then CachePath
    else if key == "cache_max_records" then CacheMax
    else if key == "log_path" then LogPath
    else if key == "log_level" then LogLevel
    else if key == "log_console" then LogConsole
    else if key == "log_append" then LogAppend
    else if "device." <= key then DeviceTarget(p, key[7..])
    else if "point." <= key then LegacyTarget(p, key[6..])
    else GlobalClient(ClientFieldOf(key))
  }

  // ------------------------------------------------------------------ assignments

  function SetClient(p: Parsers, c: ClientOptions, field: ClientField, value: string): ClientOptions {
    match field
    case Host => c.(host := value)
    case Port => c.(port := IntOr(p, value, c.port) % 0x1_0000)
    case ConnectTimeout => c.(connectTimeoutMs := IntOr(p, value, c.connectTimeoutMs))
    case ReceiveTimeout => c.(receiveTimeoutMs := IntOr(p, value, c.receiveTimeoutMs))
    case Reconnect => c.(reconnectMs := IntOr(p, value, c.reconnectMs))
    case HeartbeatInterval => c.(heartbeatIntervalMs := IntOr(p, value, c.heartbeatIntervalMs))
    case HeartbeatTimeout => c.(heartbeatTimeoutMs := IntOr(p, value, c.heartbeatTimeoutMs))
    case StatusInterval => c.(statusIntervalMs := IntOr(p, value, c.statusIntervalMs))
    case NoClientField => c
  }

  function SetPoint(p: Parsers, d: PointDefinition, field: PointField, value: string): PointDefinition {
    match field
    case PointNameField => d.(name := value)
    case TypeField => d.(typeName := value)
    case UnitField => d.(unit := value)
    case HighHighField => d.(highHigh := Some(DoubleOr(p, value, Finite(0.0))))
    case HighField => d.(high := Some(DoubleOr(p, value, Finite(0.0))))
    case LowField => d.(low := Some(DoubleOr(p, value, Finite(0.0))))
    case LowLowField => d.(lowLow := Some(DoubleOr(p, value, Finite(0.0))))
    case NormalStateField => d.(normalState := Some(IntOr(p, value, 0)))
    case StaleSecondsField => d.(staleSeconds := IntOr(p, value, d.staleSeconds))
    case NoPointField => d
  }

  function SetDevice(p: Parsers, d: DeviceDefinition, field: DeviceField, value: string): DeviceDefinition {
    match field
    case DeviceNameField => d.(name := value)
    case EnabledField => d.(enabled := BoolOr(value, d.enabled))
    case CommonAddressField => d.(commonAddress := IntOr(p, value, d.commonAddress) % 0x1_0000)
  }

  type PointMap = map<int, PointDefinition>

  datatype Loaded = Loaded(
    client: ClientOptions, cache: CacheOptions, log: LogOptions, legacy: PointMap,
    devices: map<string, DeviceDefinition>, devicePoints: map<string, PointMap>, sawLegacy: bool, sawDevice: bool)

  const NOTHING_LOADED := Loaded(DEFAULT_CLIENT, DEFAULT_CACHE, DEFAULT_LOG, map[], map[], map[], false, false)

  function DeviceIn(s: Loaded, id: string): DeviceDefinition {
    if id in s.devices then s.devices[id] else MakeDevice(id, s.client)
  }

  function PointsIn(s: Loaded, id: string): PointMap {
    if id in s.devicePoints then s.devicePoints[id] else map[]
  }

  function PointIn(points: PointMap, address: int): PointDefinition {
    (if address in points then points[address] else BlankPoint(0)).(address := address)
  }

  function Update(p: Parsers, s: Loaded, target: Target, value: string): Loaded {
    match target
    case CachePath => s.(cache := s.cache.(path := value))
    case CacheMax => s.(cache := s.cache.(maxRecords := SizeOr(p, value, s.cache.maxRecords)))
    case LogPath => s.(log := s.log.(path := value))
    case LogLevel => s.(log := s.log.(level := value))
    case LogConsole => s.(log := s.log.(console := BoolOr(value, s.log.console)))
    case LogAppend => s.(log := s.log.(append := BoolOr(value, s.log.append)))
    case GlobalClient(field) => s.(client := SetClient(p, s.client, field, value))
    case DeviceMark => s.(sawDevice := true)
    case DeviceTouch(id) => s.(sawDevice := true, devices := s.devices[id := DeviceIn(s, id)])
    case OfDevice(id, field) =>
      s.(sawDevice := true, devices := s.devices[id := SetDevice(p, DeviceIn(s, id), field, value)])
    case DeviceClient(id, field) =>
      var d := DeviceIn(s, id);
      s.(sawDevice := true, devices := s.devices[id := d.(client := SetClient(p, d.client, field, value))])
    case DevicePoint(id, address, field) =>
      var points := PointsIn(s, id);
      s.(sawDevice := true, devices := s.devices[id := DeviceIn(s, id)],
         devicePoints := s.devicePoints[id :=
           points[address := SetPoint(p, PointIn(points, address), field, value)]])
    case LegacyMark => s.(sawLegacy := true)
    case LegacyPoint(address, field) =>
      s.(sawLegacy := true, legacy := s.legacy[address := SetPoint(p, PointIn(s.legacy, address), field, value)])
  }

  function LoadLine(p: Parsers, s: Loaded, raw: string): Loaded {
    match ParseLine(raw)
    case None => s
    case Some((key, value)) => Update(p, s, TargetOf(p, key), value)
  }

  function LoadLines(p: Parsers, s: Loaded, lines: seq<string>): Loaded
    decreases |lines|
  {
    if lines == [] then s else LoadLines(p, LoadLine(p, s, lines[0]), lines[1..])
  }

  // ------------------------------------------------------------ ascending listings

  /** The byte-wise order of strings, in which a map keyed by strings is traversed. */
  predicate TextLess(a: string, b: string) {
    b != "" && (a == "" || a[0] < b[0] || (a[0] == b[0] && TextLess(a[1..], b[1..])))
  }

  predicate IntLess(a: int, b: int) {
    a < b
  }

  ghost predicate StrictOrder<K(!new)>(less: (K, K) -> bool) {
    && (forall a, b :: a == b || less(a, b) || less(b, a))
    && (forall a, b :: less(a, b) ==> a != b)
    && (forall a, b, c :: less(a, b) && less(b, c) ==> less(a, c))
  }

  ghost predicate Ascending<K>(keys: seq<K>, less: (K, K) -> bool) {
    forall i, j :: 0 <= i < j < |keys| ==> less(keys[i], keys[j])
  }

  lemma {:induction false} TextLessTotal(a: string, b: string)
    ensures a == b || TextLess(a, b) || TextLess(b, a)
    decreases |a|
  {
    if a != "" && b != "" && a[0] == b[0] {
      TextLessTotal(a[1..], b[1..]);
      assert a == [a[0]] + a[1..] && b == [b[0]] + b[1..];
    }
  }

  lemma {:induction false} TextLessIrreflexive(a: string)
    ensures !TextLess(a, a)
    decreases |a|
  {
    if a != "" {
      TextLessIrreflexive(a[1..]);
    }
  }

  lemma {:induction false} TextLessTransitive(a: string, b: string, c: string)
    requires TextLess(a, b) && TextLess(b, c)
    ensures TextLess(a, c)
    decreases |a|
  {
    if a != "" && a[0] == b[0] && b[0] == c[0] {
      TextLessTransitive(a[1..], b[1..], c[1..]);
    }
  }

  /** Two texts agree up to place k, where the first ends or holds the smaller character. */
  ghost predicate DiffersAt(a: string, b: string, k: nat) {
    k <= |a| && k < |b| && a[..k] == b[..k] && (k == |a| || a[k] < b[k])
  }

  lemma DiffersLater(a: string, b: string, k: nat)
    requires a != "" && b != "" && a[0] == b[0]
    ensures DiffersAt(a, b, k + 1) <==> DiffersAt(a[1..], b[1..], k)
  {
    if k < |a| && k + 1 < |b| {
      assert a[..k + 1] == [a[0]] + a[1..][..k] && b[..k + 1] == [b[0]] + b[1..][..k];
      assert a[..k + 1][1..] == a[1..][..k] && b[..k + 1][1..] == b[1..][..k];
    }
  }

  lemma DiffersFirst(a: string, b: string, k: nat)
    requires b == "" || a == "" || a[0] != b[0]
    ensures DiffersAt(a, b, k) <==> k == 0 && b != "" && (a == "" || a[0] < b[0])
  {
    if 0 < k <= |a| && k <= |b| {
      assert a[..k][0] == a[0] && b[..k][0] == b[0];
    }
  }

  /** The first place where two texts differ decides; a beginning comes before what it begins. */
  lemma {:induction false} TextLessExactly(a: string, b: string)
    ensures TextLess(a, b) <==> exists k: nat :: DiffersAt(a, b, k)
    decreases |a|
  {
    hide DiffersAt;
    if a != "" && b != "" && a[0] == b[0] {
      TextLessExactly(a[1..], b[1..]);
      forall k: nat ensures DiffersAt(a, b, k + 1) <==> DiffersAt(a[1..], b[1..], k) {
        DiffersLater(a, b, k);
      }
      NotAtOnce(a, b);
      if TextLess(a, b) {
        var k: nat :| DiffersAt(a[1..], b[1..], k);
        assert DiffersAt(a, b, k + 1);
      }
      if k: nat :| DiffersAt(a, b, k) {
        assert k != 0;
        assert DiffersAt(a[1..], b[1..], k - 1);
      }
    } else {
      forall k: nat ensures DiffersAt(a, b, k) <==> k == 0 && b != "" && (a == "" || a[0] < b[0]) {
        DiffersFirst(a, b, k);
      }
      assert TextLess(a, b) <==> DiffersAt(a, b, 0);
    }
  }

  lemma NotAtOnce(a: string, b: string)
    requires a != "" && b != "" && a[0] == b[0]
    ensures !DiffersAt(a, b, 0)
  {
  }

  lemma OrdersAreStrict()
    ensures StrictOrder(TextLess) && StrictOrder(IntLess)
  {
    forall a: string, b: string ensures a == b || TextLess(a, b) || TextLess(b, a) {
      TextLessTotal(a, b);
    }
    forall a: string, b: string | TextLess(a, b) ensures a != b {
      TextLessIrreflexive(a);
    }
    forall a: string, b: string, c: string | TextLess(a, b) && TextLess(b, c) ensures TextLess(a, c) {
      TextLessTransitive(a, b, c);
    }
  }

  method LeastKey<K(==, !new)>(keys: set<K>, less: (K, K) -> bool) returns (least: K)
    requires keys != {} && StrictOrder(less)
    ensures least in keys && forall k <- keys :: k == least || less(least, k)
  {
    least :| least in keys;
    var rest := keys - {least};
    while rest != {}
      invariant least in keys && rest <= keys
      invariant forall k <- keys - rest :: k == least || less(least, k)
      decreases |rest|
    {
      var k :| k in rest;
      ghost var before := least;
      if less(k, least) {
        least := k;
      }
      forall x <- keys - rest ensures x == least || less(least, x) {
        assert x == before || less(before, x);
      }
      rest := rest - {k};
    }
  }

  /** The keys of a map in the order in which it is traversed. */
  method KeysInOrder<K(==, !new)>(keys: set<K>, less: (K, K) -> bool) returns (order: seq<K>)
    requires StrictOrder(less)
    ensures Ascending(order, less) && forall k :: k in order <==> k in keys
  {
    order := [];
    var rest := keys;
    while rest != {}
      invariant rest <= keys && Ascending(order, less)
      invariant forall k :: k in order <==> k in keys && k !in rest
      invariant forall k, r | k in order && r in rest :: less(k, r)
      decreases |rest|
    {
      var k := LeastKey(rest, less);
      order := order + [k];
      rest := rest - {k};
    }
  }
}
