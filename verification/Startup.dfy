/**
 From a loaded configuration to a running system: one context per enabled device, and a configuration that meets what
 the theorems about interleavings ask for.
 */
module Startup {
  import opened Points
  import opened Cache
  import opened Configuration
  import opened ConfigLoading
  import opened Acquisition
  import AcquisitionProperties
  import SnapshotProperties

  function AsDevice(d: DeviceDefinition): Device {
    Device(d.id, d.name, d.points)
  }

  function EnabledDevices(devices: seq<DeviceDefinition>): seq<Device> {
    if devices == [] then []
    else (if devices[0].enabled then [AsDevice(devices[0])] else []) + EnabledDevices(devices[1..])
  }

  function RecordLimit(maxRecords: nat): nat {
    if maxRecords == 0 then 10000 else maxRecords
  }

  function Running(app: AppConfig, formatter: Formatter): Config {
    Config(EnabledDevices(app.devices), formatter, RecordLimit(app.cache.maxRecords))
  }

  /** Creates a context with an alarm manager of its own for every enabled device. */
  method CreateContexts(devices: seq<DeviceDefinition>, formatter: Formatter) returns (contexts: seq<DeviceContext>)
    ensures |contexts| == |EnabledDevices(devices)|
    ensures forall i :: 0 <= i < |contexts| ==>
              && fresh(contexts[i].alarms) && contexts[i].definition == EnabledDevices(devices)[i]
              && contexts[i].alarms.Valid() && contexts[i].alarms.active == {}
              && contexts[i].alarms.numbers == formatter
    ensures forall i, j :: 0 <= i < j < |contexts| ==> contexts[i].alarms != contexts[j].alarms
  {
    contexts := [];
    ghost var made: seq<Device> := [];
    var index := 0;
    while index < |devices|
      invariant 0 <= index <= |devices| && |contexts| == |made|
      invariant made + EnabledDevices(devices[index..]) == EnabledDevices(devices)
      invariant forall i :: 0 <= i < |contexts| ==>
                  && fresh(contexts[i].alarms) && contexts[i].definition == made[i]
                  && contexts[i].alarms.Valid() && contexts[i].alarms.active == {}
                  && contexts[i].alarms.numbers == formatter
      invariant forall i, j :: 0 <= i < j < |contexts| ==> contexts[i].alarms != contexts[j].alarms
    {
      assert devices[index..][0] == devices[index] && devices[index..][1..] == devices[index + 1..];
      if devices[index].enabled {
        var context := new DeviceContext(AsDevice(devices[index]), formatter);
        contexts := contexts + [context];
        made := made + [AsDevice(devices[index])];
      }
      index := index + 1;
    }
  }

  /** The system as it stands before its first start: nothing known, nothing in alarm, nothing in the cache's memory. */
  method Build(app: AppConfig, formatter: Formatter, file: seq<string>) returns (system: ScadaSystem)
    ensures fresh(system) && system.Valid() && system.config == Running(app, formatter)
    ensures system.snapshots == map[] && forall c <- system.contexts :: c.alarms.active == {}
    ensures system.cache.maxRecords == system.config.maxRecords && system.cache.Contents() == Initial(file).cache
  {
    var cache := new DataCache(formatter, file);
    cache.Configure(app.cache.maxRecords);
    var contexts := CreateContexts(app.devices, formatter);
    system := new ScadaSystem(Running(app, formatter), contexts, cache);
  }

  // ------------------------------------------------- what a loaded file guarantees

  ghost predicate IdsAscend(devices: seq<DeviceDefinition>) {
    forall i, j :: 0 <= i < j < |devices| ==> TextLess(devices[i].id, devices[j].id)
  }

  /** The devices that run are exactly those that are enabled. */
  lemma {:induction false} EnabledComeFrom(devices: seq<DeviceDefinition>)
    ensures forall d :: d in EnabledDevices(devices) <==>
              exists x <- devices :: x.enabled && d == Device(x.id, x.name, x.points)
    decreases |devices|
  {
    if devices != [] {
      EnabledComeFrom(devices[1..]);
      assert devices == [devices[0]] + devices[1..];
    }
  }

  lemma {:induction false} EnabledAscend(devices: seq<DeviceDefinition>)
    requires IdsAscend(devices)
    ensures forall i, j :: 0 <= i < j < |EnabledDevices(devices)| ==>
              TextLess(EnabledDevices(devices)[i].id, EnabledDevices(devices)[j].id)
    decreases |devices|
  {
    hide TextLess;
    if devices != [] {
      var rest := EnabledDevices(devices[1..]);
      EnabledAscend(devices[1..]);
      EnabledComeFrom(devices[1..]);
      forall j | 0 <= j < |rest| ensures TextLess(devices[0].id, rest[j].id) {
        assert rest[j] in rest;
        var x :| x in devices[1..] && AsDevice(x) == rest[j];
        var k :| 0 <= k < |devices| - 1 && devices[1..][k] == x;
        assert TextLess(devices[0].id, devices[k + 1].id);
      }
    }
  }

  /** Every loaded configuration gives a system whose devices have different identifiers and, each, points with
      different addresses and names: the conditions of the theorems about interleavings. */
  lemma LoadedRunsValid(p: Parsers, lines: seq<string>, app: AppConfig, formatter: Formatter)
    requires LoadedFrom(p, lines, app) && BarFree(formatter)
    ensures AcquisitionProperties.ValidConfig(Running(app, formatter))
    ensures AcquisitionProperties.DistinctIds(Running(app, formatter).devices)
    ensures forall d <- Running(app, formatter).devices :: SnapshotProperties.DistinctAddresses(d.points)
                                                           && d.id != "" && d.name != ""
  {
    hide TextLess, LoadedFrom;
    LoadedShape(p, lines, app);
    EnabledAscend(app.devices);
    EnabledComeFrom(app.devices);
    OrdersAreStrict();
  }
}
