/**
 Adjacent configuration lines that resolve to different targets can be swapped, except for a global client option next
 to a line of a device it may still create; for that pair the exact condition is given.
 */
module ConfigSwap {
  import opened Points
  import opened Configuration
  import opened ConfigLoading

  // --------------------------------------------------- one component at a time

  function CacheAfter(p: Parsers, cache: CacheOptions, target: Target, value: string): CacheOptions {
    match target
    case CachePath => cache.(path := value)
    case CacheMax => cache.(maxRecords := SizeOr(p, value, cache.maxRecords))
    case _ => cache
  }

  function LogAfter(log: LogOptions, target: Target, value: string): LogOptions {
    match target
    case LogPath => log.(path := value)
    case LogLevel => log.(level := value)
    case LogConsole => log.(console := BoolOr(value, log.console))
    case LogAppend => log.(append := BoolOr(value, log.append))
    case _ => log
  }

  function ClientAfter(p: Parsers, client: ClientOptions, target: Target, value: string): ClientOptions {
    if target.GlobalClient? then SetClient(p, client, target.client, value) else client
  }

  predicate OfLegacyLine(target: Target) {
    target.LegacyMark? || target.LegacyPoint?
  }

  function PointsAfter(p: Parsers, points: PointMap, address: int, field: PointField, value: string): PointMap {
    points[address := SetPoint(p, PointIn(points, address), field, value)]
  }

  function LegacyAfter(p: Parsers, legacy: PointMap, target: Target, value: string): PointMap {
    if target.LegacyPoint? then PointsAfter(p, legacy, target.address, target.point, value) else legacy
  }

  function DeviceAfter(p: Parsers, d: DeviceDefinition, target: Target, value: string): DeviceDefinition {
    match target
    case OfDevice(_, field) => SetDevice(p, d, field, value)
    case DeviceClient(_, field) => d.(client := SetClient(p, d.client, field, value))
    case _ => d
  }

  function KnownOr(devices: map<string, DeviceDefinition>, id: string, client: ClientOptions): DeviceDefinition {
    if id in devices then devices[id] else MakeDevice(id, client)
  }

  predicate NamesDevice(target: Target) {
    OfDeviceLine(target) && !target.DeviceMark?
  }

  function DevicesAfter(p: Parsers, client: ClientOptions, devices: map<string, DeviceDefinition>, target: Target,
                        value: string)
    : map<string, DeviceDefinition>
  {
    if NamesDevice(target) then devices[target.id := DeviceAfter(p, KnownOr(devices, target.id, client), target, value)]
    else devices
  }

  function DevicePointsAfter(p: Parsers, all: map<string, PointMap>, target: Target, value: string): map<string,
  PointMap>
  {
    if target.DevicePoint? then
      var points := if target.id in all then all[target.id] else map[];
      all[target.id := PointsAfter(p, points, target.address, target.point, value)]
    else all
  }

  lemma UpdateParts(p: Parsers, s: Loaded, target: Target, value: string)
    ensures Update(p, s, target, value) ==
      Loaded(ClientAfter(p, s.client, target, value), CacheAfter(p, s.cache, target, value),
             LogAfter(s.log, target, value),
             LegacyAfter(p, s.legacy, target, value), DevicesAfter(p, s.client, s.devices, target, value),
             DevicePointsAfter(p, s.devicePoints, target, value),
             s.sawLegacy || OfLegacyLine(target), s.sawDevice || OfDeviceLine(target))
  {
    hide SetClient, SetPoint, SetDevice, BoolOr, SizeOr;
  }

  // ------------------------------------------------------ each component commutes

  lemma SetClientCommutes(p: Parsers, c: ClientOptions, f: ClientField, v: string, g: ClientField, w: string)
    requires f != g
    ensures SetClient(p, SetClient(p, c, f, v), g, w) == SetClient(p, SetClient(p, c, g, w), f, v)
  {
    hide IntOr;
  }

  lemma SetPointCommutes(p: Parsers, d: PointDefinition, f: PointField, v: string, g: PointField, w: string)
    requires f != g
    ensures SetPoint(p, SetPoint(p, d, f, v), g, w) == SetPoint(p, SetPoint(p, d, g, w), f, v)
  {
    hide IntOr, DoubleOr;
  }

  lemma SetDeviceCommutes(p: Parsers, d: DeviceDefinition, f: DeviceField, v: string, g: DeviceField, w: string)
    requires f != g
    ensures SetDevice(p, SetDevice(p, d, f, v), g, w) == SetDevice(p, SetDevice(p, d, g, w), f, v)
  {
    hide IntOr, BoolOr;
  }

  lemma DeviceAfterCommutes(p: Parsers, d: DeviceDefinition, t: Target, v: string, u: Target, w: string)
    requires t != u && NamesDevice(t) && NamesDevice(u) && t.id == u.id
    ensures DeviceAfter(p, DeviceAfter(p, d, t, v), u, w) == DeviceAfter(p, DeviceAfter(p, d, u, w), t, v)
  {
    hide SetClient;
    if t.OfDevice? && u.OfDevice? {
      SetDeviceCommutes(p, d, t.field, v, u.field, w);
    } else if t.DeviceClient? && u.DeviceClient? {
      SetClientCommutes(p, d.client, t.client, v, u.client, w);
    }
  }

  lemma PointsAfterCommutes(p: Parsers, points: PointMap, a: int, f: PointField, v: string, b: int, g: PointField,
                            w: string)
    requires a != b || f != g
    ensures PointsAfter(p, PointsAfter(p, points, a, f, v), b, g, w)
            == PointsAfter(p, PointsAfter(p, points, b, g, w), a, f, v)
  {
    hide SetPoint;
    if a == b {
      SetPointCommutes(p, PointIn(points, a), f, v, g, w);
      SetPointKeepsAddress(p, PointIn(points, a), f, v);
      SetPointKeepsAddress(p, PointIn(points, a), g, w);
    }
  }

  lemma OneDeviceCommutes(p: Parsers, client: ClientOptions, devices: map<string, DeviceDefinition>, t: Target,
                          v: string, u: Target, w: string)
    requires t != u && NamesDevice(t) && NamesDevice(u) && t.id == u.id
    ensures DevicesAfter(p, client, DevicesAfter(p, client, devices, t, v), u, w)
         == DevicesAfter(p, client, DevicesAfter(p, client, devices, u, w), t, v)
  {
    hide DeviceAfter, MakeDevice;
    DeviceAfterCommutes(p, KnownOr(devices, t.id, client), t, v, u, w);
  }

  lemma TwoDevicesCommute(p: Parsers, client: ClientOptions, devices: map<string, DeviceDefinition>, t: Target,
                          v: string, u: Target, w: string)
    requires NamesDevice(t) && NamesDevice(u) && t.id != u.id
    ensures DevicesAfter(p, client, DevicesAfter(p, client, devices, t, v), u, w)
         == DevicesAfter(p, client, DevicesAfter(p, client, devices, u, w), t, v)
  {
    hide DeviceAfter, MakeDevice;
    var one := DeviceAfter(p, KnownOr(devices, t.id, client), t, v);
    var two := DeviceAfter(p, KnownOr(devices, u.id, client), u, w);
    assert devices[t.id := one][u.id := two] == devices[u.id := two][t.id := one];
  }

  lemma DevicesCommute(p: Parsers, client: ClientOptions, devices: map<string, DeviceDefinition>, t: Target, v: string,
                       u: Target, w: string)
    requires t != u
    ensures DevicesAfter(p, client, DevicesAfter(p, client, devices, t, v), u, w)
         == DevicesAfter(p, client, DevicesAfter(p, client, devices, u, w), t, v)
  {
    hide DeviceAfter, MakeDevice, KnownOr;
    if NamesDevice(t) && NamesDevice(u) {
      hide DevicesAfter;
      if t.id == u.id {
        OneDeviceCommutes(p, client, devices, t, v, u, w);
      } else {
        TwoDevicesCommute(p, client, devices, t, v, u, w);
      }
    }
  }

  lemma DevicePointsCommute(p: Parsers, all: map<string, PointMap>, t: Target, v: string, u: Target, w: string)
    requires t != u
    ensures DevicePointsAfter(p, DevicePointsAfter(p, all, t, v), u, w)
            == DevicePointsAfter(p, DevicePointsAfter(p, all, u, w), t, v)
  {
    hide PointsAfter;
    if t.DevicePoint? && u.DevicePoint? && t.id == u.id {
      PointsAfterCommutes(p, if t.id in all then all[t.id] else map[], t.address, t.point, v, u.address, u.point, w);
    }
  }

  lemma LegacyCommutes(p: Parsers, legacy: PointMap, t: Target, v: string, u: Target, w: string)
    requires t != u
    ensures LegacyAfter(p, LegacyAfter(p, legacy, t, v), u, w) == LegacyAfter(p, LegacyAfter(p, legacy, u, w), t, v)
  {
    hide PointsAfter;
    if t.LegacyPoint? && u.LegacyPoint? {
      PointsAfterCommutes(p, legacy, t.address, t.point, v, u.address, u.point, w);
    }
  }

  lemma ClientCommutes(p: Parsers, client: ClientOptions, t: Target, v: string, u: Target, w: string)
    requires t != u
    ensures ClientAfter(p, ClientAfter(p, client, t, v), u, w) == ClientAfter(p, ClientAfter(p, client, u, w), t, v)
  {
    hide SetClient;
    if t.GlobalClient? && u.GlobalClient? {
      SetClientCommutes(p, client, t.client, v, u.client, w);
    }
  }

  lemma CacheAndLogCommute(p: Parsers, cache: CacheOptions, log: LogOptions, t: Target, v: string, u: Target, w: string)
    requires t != u
    ensures CacheAfter(p, CacheAfter(p, cache, t, v), u, w) == CacheAfter(p, CacheAfter(p, cache, u, w), t, v)
    ensures LogAfter(LogAfter(log, t, v), u, w) == LogAfter(LogAfter(log, u, w), t, v)
  {
    hide BoolOr, SizeOr;
  }

  // ----------------------------------------------------------------- assignments

  /** A global client option and a device line: the latter may copy the former into a new device. */
  predicate Entangled(t: Target, u: Target) {
    (t.GlobalClient? && NamesDevice(u)) || (u.GlobalClient? && NamesDevice(t))
  }

  /** Two assignments in turn, component by component. */
  lemma Both(p: Parsers, s: Loaded, t: Target, v: string, u: Target, w: string)
    ensures Update(p, Update(p, s, t, v), u, w) ==
      Loaded(ClientAfter(p, ClientAfter(p, s.client, t, v), u, w), CacheAfter(p, CacheAfter(p, s.cache, t, v), u, w),
             LogAfter(LogAfter(s.log, t, v), u, w), LegacyAfter(p, LegacyAfter(p, s.legacy, t, v), u, w),
             DevicesAfter(p, ClientAfter(p, s.client, t, v), DevicesAfter(p, s.client, s.devices, t, v), u, w),
             DevicePointsAfter(p, DevicePointsAfter(p, s.devicePoints, t, v), u, w),
             s.sawLegacy || OfLegacyLine(t) || OfLegacyLine(u), s.sawDevice || OfDeviceLine(t) || OfDeviceLine(u))
  {
    hide *;
    UpdateParts(p, s, t, v);
    UpdateParts(p, Update(p, s, t, v), u, w);
  }

  lemma ClientUnseen(p: Parsers, client: ClientOptions, devices: map<string, DeviceDefinition>, t: Target, v: string,
                     u: Target, w: string)
    requires !Entangled(t, u)
    ensures DevicesAfter(p, ClientAfter(p, client, t, v), devices, u, w) == DevicesAfter(p, client, devices, u, w)
  {
    hide SetClient, DeviceAfter, KnownOr, OfDeviceLine;
  }

  lemma UpdatesCommute(p: Parsers, s: Loaded, t: Target, v: string, u: Target, w: string)
    requires t != u && !Entangled(t, u)
    ensures Update(p, Update(p, s, t, v), u, w) == Update(p, Update(p, s, u, w), t, v)
  {
    ClientUnseen(p, s.client, DevicesAfter(p, s.client, s.devices, t, v), t, v, u, w);
    hide *;
    ClientUnseen(p, s.client, DevicesAfter(p, s.client, s.devices, u, w), u, w, t, v);
    Both(p, s, t, v, u, w);
    Both(p, s, u, w, t, v);
    DevicesCommute(p, s.client, s.devices, t, v, u, w);
    DevicePointsCommute(p, s.devicePoints, t, v, u, w);
    LegacyCommutes(p, s.legacy, t, v, u, w);
    ClientCommutes(p, s.client, t, v, u, w);
    CacheAndLogCommute(p, s.cache, s.log, t, v, u, w);
  }

  // ---------------------------------------- a global option next to a device line

  /** Whether an option assigned later hides what was there before. */
  predicate Overrides(p: Parsers, field: ClientField, value: string) {
    match field
    case Host => true
    case NoClientField => false
    case _ => p.integer(value).Some?
  }

  lemma SameFieldHidden(p: Parsers, c: ClientOptions, f: ClientField, v: string, w: string)
    ensures SetClient(p, SetClient(p, c, f, v), f, w) == SetClient(p, c, f, w)
       <==> SetClient(p, c, f, v) == c || Overrides(p, f, w)
  {
  }

  lemma OtherFieldShows(p: Parsers, c: ClientOptions, d: ClientOptions, f: ClientField, v: string, g: ClientField,
                        w: string)
    requires f != g && d == SetClient(p, c, f, v)
    ensures SetClient(p, d, g, w) == SetClient(p, c, g, w) <==> d == c
  {
    hide IntOr;
  }

  lemma NewDeviceHidden(p: Parsers, c: ClientOptions, f: ClientField, v: string, u: Target, w: string)
    requires NamesDevice(u)
    ensures DeviceAfter(p, MakeDevice(u.id, SetClient(p, c, f, v)), u, w) == DeviceAfter(p, MakeDevice(u.id, c), u, w)
       <==> SetClient(p, c, f, v) == c || (u.DeviceClient? && u.client == f && Overrides(p, f, w))
  {
    hide SetClient, Overrides, BoolOr, IntOr;
    if u.DeviceClient? {
      if u.client == f {
        SameFieldHidden(p, c, f, v, w);
      } else {
        OtherFieldShows(p, c, SetClient(p, c, f, v), f, v, u.client, w);
      }
    }
  }

  lemma EntangledDevices(p: Parsers, s: Loaded, f: ClientField, v: string, u: Target, w: string)
    requires NamesDevice(u)
    ensures DevicesAfter(p, ClientAfter(p, s.client, GlobalClient(f), v),
                         DevicesAfter(p, s.client, s.devices, GlobalClient(f), v), u, w)
         == DevicesAfter(p, ClientAfter(p, s.client, u, w), DevicesAfter(p, s.client, s.devices, u, w),
                         GlobalClient(f), v)
       <==> u.id in s.devices || SetClient(p, s.client, f, v) == s.client
            || (u.DeviceClient? && u.client == f && Overrides(p, f, w))
  {
    hide SetClient, Overrides, DeviceAfter, MakeDevice;
    NewDeviceHidden(p, s.client, f, v, u, w);
    var one := s.devices[u.id := DeviceAfter(p, KnownOr(s.devices, u.id, SetClient(p, s.client, f, v)), u, w)];
    var two := s.devices[u.id := DeviceAfter(p, KnownOr(s.devices, u.id, s.client), u, w)];
    assert one[u.id] == two[u.id] <==> one == two;
  }

  /** The lines can be swapped exactly when the device is already known, or the option changes nothing, or the device
      line overrides that very option. */
  lemma EntangledExactly(p: Parsers, s: Loaded, f: ClientField, v: string, u: Target, w: string)
    requires NamesDevice(u)
    ensures Update(p, Update(p, s, GlobalClient(f), v), u, w) == Update(p, Update(p, s, u, w), GlobalClient(f), v)
       <==> u.id in s.devices || SetClient(p, s.client, f, v) == s.client
            || (u.DeviceClient? && u.client == f && Overrides(p, f, w))
  {
    EntangledDevices(p, s, f, v, u, w);
    hide *;
    Both(p, s, GlobalClient(f), v, u, w);
    Both(p, s, u, w, GlobalClient(f), v);
    DevicePointsCommute(p, s.devicePoints, GlobalClient(f), v, u, w);
    LegacyCommutes(p, s.legacy, GlobalClient(f), v, u, w);
    ClientCommutes(p, s.client, GlobalClient(f), v, u, w);
    CacheAndLogCommute(p, s.cache, s.log, GlobalClient(f), v, u, w);
  }

  // ------------------------------------------------------------ lines and results

  /** Two lines may change places: one of them assigns nothing, or they assign different, untangled targets. */
  predicate Independent(p: Parsers, a: string, b: string) {
    match (ParseLine(a), ParseLine(b))
    case (Some((k, v)), Some((m, w))) => TargetOf(p, k) != TargetOf(p, m) && !Entangled(TargetOf(p, k), TargetOf(p, m))
    case _ => true
  }

  lemma LinesCommute(p: Parsers, s: Loaded, a: string, b: string)
    requires Independent(p, a, b)
    ensures LoadLine(p, LoadLine(p, s, a), b) == LoadLine(p, LoadLine(p, s, b), a)
  {
    hide ParseLine, TargetOf, Update, Entangled;
    if ParseLine(a).Some? && ParseLine(b).Some? {
      var (k, v) := ParseLine(a).value;
      var (m, w) := ParseLine(b).value;
      UpdatesCommute(p, s, TargetOf(p, k), v, TargetOf(p, m), w);
    }
  }

  lemma {:induction false} LoadLinesAppend(p: Parsers, s: Loaded, a: seq<string>, b: seq<string>)
    ensures LoadLines(p, s, a + b) == LoadLines(p, LoadLines(p, s, a), b)
    decreases |a|
  {
    hide LoadLine;
    if a == [] {
      assert a + b == b;
    } else {
      assert (a + b)[0] == a[0] && (a + b)[1..] == a[1..] + b;
      LoadLinesAppend(p, LoadLine(p, s, a[0]), a[1..], b);
    }
  }

  lemma TwoLines(p: Parsers, s: Loaded, a: string, b: string)
    ensures LoadLines(p, s, [a, b]) == LoadLine(p, LoadLine(p, s, a), b)
  {
    hide LoadLine;
    assert [a, b][1..] == [b] && [b][1..] == [];
    assert LoadLines(p, LoadLine(p, s, a), [b]) == LoadLines(p, LoadLine(p, LoadLine(p, s, a), b), []);
  }

  lemma AdjacentLinesFoldAlike(p: Parsers, before: seq<string>, a: string, b: string, after: seq<string>)
    requires Independent(p, a, b)
    ensures LoadLines(p, NOTHING_LOADED, before + [a, b] + after)
            == LoadLines(p, NOTHING_LOADED, before + [b, a] + after)
  {
    hide *;
    LoadLinesAppend(p, NOTHING_LOADED, before + [a, b], after);
    LoadLinesAppend(p, NOTHING_LOADED, before, [a, b]);
    LoadLinesAppend(p, NOTHING_LOADED, before + [b, a], after);
    LoadLinesAppend(p, NOTHING_LOADED, before, [b, a]);
    var s := LoadLines(p, NOTHING_LOADED, before);
    TwoLines(p, s, a, b);
    TwoLines(p, s, b, a);
    LinesCommute(p, s, a, b);
  }

  lemma FirstInside<K>(keys: seq<K>)
    ensures keys != [] ==> keys[0] in keys
  {
  }

  /** Listing in ascending order leaves no choice. */
  lemma {:induction false} AscendingUnique<K(!new)>(a: seq<K>, b: seq<K>, less: (K, K) -> bool)
    requires StrictOrder(less) && Ascending(a, less) && Ascending(b, less)
    requires forall k :: k in a <==> k in b
    ensures a == b
    decreases |a|
  {
    if a == [] {
      FirstInside(b);
    } else {
      assert a[0] in b && a[0] in a;
      assert b[0] in b && b[0] in a;
      assert a[0] == b[0];
      forall k ensures k in a[1..] <==> k in b[1..] {
        TailOf(a, less, k);
        TailOf(b, less, k);
      }
      AscendingUnique(a[1..], b[1..], less);
      assert a == [a[0]] + a[1..] && b == [b[0]] + b[1..];
    }
  }

  lemma TailOf<K(!new)>(keys: seq<K>, less: (K, K) -> bool, k: K)
    requires keys != [] && StrictOrder(less) && Ascending(keys, less)
    ensures k in keys[1..] <==> k in keys && k != keys[0]
  {
    if k in keys[1..] {
      var i :| 0 <= i < |keys| - 1 && keys[1..][i] == k;
      assert less(keys[0], keys[i + 1]);
    }
  }

  function Addresses(points: seq<PointDefinition>): seq<int> {
    seq(|points|, i requires 0 <= i < |points| => points[i].address)
  }

  lemma PointsUnique(a: seq<PointDefinition>, b: seq<PointDefinition>, points: PointMap)
    requires Filed(points) && ListsPoints(a, points) && ListsPoints(b, points)
    ensures a == b
  {
    ListedAddresses(a, points);
    ListedAddresses(b, points);
    OrdersAreStrict();
    AscendingUnique(Addresses(a), Addresses(b), IntLess);
    assert |Addresses(a)| == |a| && |Addresses(b)| == |b|;
    forall i | 0 <= i < |a| ensures a[i] == b[i] {
      assert a[i] in a && b[i] in b;
      assert Addresses(a)[i] == Addresses(b)[i];
    }
  }

  lemma ListedAddresses(a: seq<PointDefinition>, points: PointMap)
    requires Filed(points) && ListsPoints(a, points)
    ensures Ascending(Addresses(a), IntLess)
    ensures forall k :: k in Addresses(a) <==> k in points
  {
    var keys := Addresses(a);
    forall k ensures k in keys <==> k in points {
      if k in keys {
        var i :| 0 <= i < |keys| && keys[i] == k;
        assert a[i] in a;
      }
      if k in points {
        var i :| 0 <= i < |a| && a[i] == NamedPoint(points[k]);
        assert keys[i] == k;
      }
    }
  }

  function Identifiers(devices: seq<DeviceDefinition>): seq<string> {
    seq(|devices|, i requires 0 <= i < |devices| => devices[i].id)
  }

  lemma ListedIdentifiers(a: seq<DeviceDefinition>, s: Loaded)
    requires ListsDevices(a, s)
    ensures Ascending(Identifiers(a), TextLess)
    ensures forall k :: k in Identifiers(a) <==> k in s.devices
  {
    hide TextLess, ListsPoints;
    var ids := Identifiers(a);
    forall k ensures k in ids <==> k in s.devices {
      if k in ids {
        var i :| 0 <= i < |ids| && ids[i] == k;
        assert a[i] in a;
      }
      if k in s.devices {
        var d :| d in a && d.id == k;
        var i :| 0 <= i < |a| && a[i] == d;
        assert ids[i] == k;
      }
    }
  }

  lemma DeviceUnique(a: DeviceDefinition, b: DeviceDefinition, s: Loaded, id: string)
    requires WellFiled(s) && Assembled(a, s, id) && Assembled(b, s, id)
    ensures a == b
  {
    hide ListsPoints;
    if id in s.devicePoints {
      PointsUnique(a.points, b.points, s.devicePoints[id]);
    }
  }

  lemma DevicesUnique(a: seq<DeviceDefinition>, b: seq<DeviceDefinition>, s: Loaded)
    requires WellFiled(s) && ListsDevices(a, s) && ListsDevices(b, s)
    ensures a == b
  {
    hide TextLess, WellFiled, Assembled;
    ListedIdentifiers(a, s);
    ListedIdentifiers(b, s);
    OrdersAreStrict();
    AscendingUnique(Identifiers(a), Identifiers(b), TextLess);
    assert |Identifiers(a)| == |a| && |Identifiers(b)| == |b|;
    forall i | 0 <= i < |a| ensures a[i] == b[i] {
      assert a[i] in a && b[i] in b;
      assert Identifiers(a)[i] == Identifiers(b)[i];
      DeviceUnique(a[i], b[i], s, a[i].id);
    }
  }

  /** Swapping two independent adjacent lines anywhere in a file loads the same configuration. */
  lemma AdjacentLinesSwap(p: Parsers, before: seq<string>, a: string, b: string, after: seq<string>, one: AppConfig,
                          two: AppConfig)
    requires Independent(p, a, b)
    requires LoadedFrom(p, before + [a, b] + after, one) && LoadedFrom(p, before + [b, a] + after, two)
    ensures one == two
  {
    hide LoadLines, Independent, ListsPoints, ListsDevices, WellFiled;
    AdjacentLinesFoldAlike(p, before, a, b, after);
    var s := LoadLines(p, NOTHING_LOADED, before + [a, b] + after);
    NothingFiled();
    LinesKeepFiled(p, NOTHING_LOADED, before + [a, b] + after);
    SameListings(s, one, two);
  }

  lemma SameListings(s: Loaded, one: AppConfig, two: AppConfig)
    requires WellFiled(s)
    requires s.sawLegacy ==> ListsPoints(one.points, s.legacy) && ListsPoints(two.points, s.legacy)
    requires s.sawDevice ==> ListsDevices(one.devices, s) && ListsDevices(two.devices, s)
    ensures s.sawLegacy ==> one.points == two.points
    ensures s.sawDevice ==> one.devices == two.devices
  {
    hide ListsPoints, ListsDevices;
    if s.sawLegacy {
      PointsUnique(one.points, two.points, s.legacy);
    }
    if s.sawDevice {
      DevicesUnique(one.devices, two.devices, s);
    }
  }
}
