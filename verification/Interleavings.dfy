/**
 Theorems over all interleavings about the events of one rule of one point: none is lost or invented, and the log holds
 them in order.
 */
module Interleavings {
  import opened Points
  import opened AlarmProperties
  import opened Cache
  import opened Acquisition
  import opened AcquisitionProperties

  // --------------------------------------------------- what views keep, step by step

  /** Raised minus cleared, over everything logged or still pending, is 1 for an active rule and 0 otherwise. */
  ghost predicate Conserved(v: View) {
    Net(v.logged) + Net(v.worker) + Net(v.monitor) == Count(v.active)
  }

  /** Logged and then pending in the worker: raised and cleared in turn, raised first, ending in the rule's state. */
  ghost predicate InOrder(v: View) {
    v.monitor == [] && Chained(v.logged + v.worker, false, v.active)
  }

  /** At most one of worker and monitor has something pending, and everything alternates through it. */
  ghost predicate Orderly(v: View) {
    (v.worker == [] || v.monitor == []) && Chained(v.logged + v.worker + v.monitor, false, v.active)
  }

  lemma SensedKeeps(v: View, w: View)
    requires Sensed(v, w)
    ensures Conserved(v) ==> Conserved(w)
    ensures InOrder(v) ==> InOrder(w)
    ensures Orderly(v) && v.monitor == [] ==> Orderly(w)
  {
    NetOfChained(w.worker, v.active, w.active);
    assert v.logged + v.worker == v.logged;
    assert v.logged + v.worker + [] == v.logged && w.logged + w.worker + [] == w.logged + w.worker;
    if Chained(v.logged, false, v.active) {
      ChainedAppend(v.logged, w.worker, false, v.active, w.active);
    }
  }

  lemma PatrolledKeeps(v: View, w: View)
    requires Patrolled(v, w)
    ensures Conserved(v) ==> Conserved(w)
    ensures Orderly(v) && v.worker == [] ==> Orderly(w)
  {
    NetOfChained(w.monitor, v.active, w.active);
    assert v.logged + v.worker + v.monitor == v.logged + v.worker;
    if Chained(v.logged + v.worker, false, v.active) {
      ChainedAppend(v.logged + v.worker, w.monitor, false, v.active, w.active);
    }
  }

  lemma WorkerLoggedKeeps(v: View, w: View, out: seq<bool>)
    requires WorkerLogged(v, w, out)
    ensures Conserved(v) ==> Conserved(w)
    ensures InOrder(v) ==> InOrder(w)
    ensures Orderly(v) ==> Orderly(w)
  {
    NetAppend(v.logged, out);
    NetAppend(out, w.worker);
    assert v.logged + v.worker == w.logged + w.worker;
  }

  lemma MonitorLoggedKeeps(v: View, w: View, out: seq<bool>)
    requires MonitorLogged(v, w, out)
    ensures Conserved(v) ==> Conserved(w)
    ensures InOrder(v) ==> InOrder(w)
    ensures Orderly(v) ==> Orderly(w)
  {
    NetAppend(v.logged, out);
    NetAppend(out, w.monitor);
    if v.monitor == [] {
      assert out == [] && w == v;
    } else if v.worker == [] {
      assert v.logged + v.worker + v.monitor == w.logged + w.worker + w.monitor;
    }
  }

  /** Steps that start a critical section only when no earlier batch about the device is still unwritten. */
  predicate WaitsItsTurn(s: SystemState, action: Action, deviceId: string) {
    match action
    case Sense(device, _, _, _) =>
      device.id == deviceId ==> forall op <- s.monitor :: DeviceOf(op) != deviceId
    case Patrol(_, _) => forall op <- Pending(s, deviceId) :: !(op.Write? && op.entry.Alarm?)
    case _ => true
  }

  lemma {:induction false} NothingPending(ops: seq<Op>, key: AlarmKey)
    requires forall op <- ops :: op.Write? && op.entry.Alarm? ==> DeviceOf(op) != key.deviceId
    ensures Flags(AlarmsIn(ops), key) == []
    decreases |ops|
  {
    if ops != [] {
      NothingPending(ops[1..], key);
      var rest := AlarmsIn(ops[1..]);
      assert ops[0] in ops;
      if ops[0].Write? && ops[0].entry.Alarm? {
        assert ([ops[0].entry.event] + rest)[1..] == rest;
      } else {
        assert [] + rest == rest;
      }
    }
  }

  lemma StepKeepsView(config: Config, s: SystemState, action: Action, key: AlarmKey)
    requires Owned(s) && Enabled(config, s, action)
    ensures var v, w := ViewOf(s, key), ViewOf(Step(config, s, action), key);
            && (Conserved(v) ==> Conserved(w))
            && (key.rule != Stale && InOrder(v) ==> InOrder(w))
            && (WaitsItsTurn(s, action, key.deviceId) && Orderly(v) ==> Orderly(w))
  {
    hide ViewOf, SenseStep, FlushStep, PatrolStep, FlushMonitorStep, Conserved, InOrder, Orderly, Sensed, Patrolled,
      WorkerLogged, MonitorLogged, DeviceOf, Owned;
    var v, w := ViewOf(s, key), ViewOf(Step(config, s, action), key);
    match action
    case Sense(device, reading, takenAt, at) =>
      SenseView(config, s, device, reading, takenAt, at, key);
      if key.deviceId == device.id {
        SensedKeeps(v, w);
        if WaitsItsTurn(s, action, key.deviceId) {
          NothingPending(s.monitor, key);
          ViewParts(s, key);
        }
      }
    case Flush(deviceId, visible) =>
      var out := FlushView(config, s, deviceId, visible, key);
      if key.deviceId == deviceId {
        WorkerLoggedKeeps(v, w, out);
      }
    case Patrol(now, at) =>
      PatrolView(config, s, now, at, key);
      PatrolledKeeps(v, w);
      if WaitsItsTurn(s, action, key.deviceId) {
        NothingPending(Pending(s, key.deviceId), key);
        ViewParts(s, key);
      }
    case FlushMonitor(visible) =>
      var out := FlushMonitorView(config, s, visible, key);
      MonitorLoggedKeeps(v, w, out);
  }

  lemma ViewParts(s: SystemState, key: AlarmKey)
    ensures ViewOf(s, key).worker == Flags(AlarmsIn(Pending(s, key.deviceId)), key)
    ensures ViewOf(s, key).monitor == Flags(AlarmsIn(s.monitor), key)
    ensures ViewOf(s, key).logged == Flags(AlarmsOf(s.history), key)
    ensures ViewOf(s, key).active == ((key.address, key.rule) in Rules(s, key.deviceId))
  {
  }

  lemma InitialView(file: seq<string>, key: AlarmKey)
    ensures Owned(Initial(file))
    ensures var v := ViewOf(Initial(file), key); Conserved(v) && InOrder(v) && Orderly(v)
  {
    assert ViewOf(Initial(file), key) == View([], [], [], false);
    NoFlags(false);
  }

  lemma {:induction false} RunKeepsViews(config: Config, s: SystemState, actions: seq<Action>, key: AlarmKey)
    requires Owned(s) && Possible(config, s, actions)
    ensures var v, w := ViewOf(s, key), ViewOf(After(config, s, actions), key);
            && (Conserved(v) ==> Conserved(w))
            && (key.rule != Stale && InOrder(v) ==> InOrder(w))
    ensures Owned(After(config, s, actions))
    decreases |actions|
  {
    hide ViewOf, Step, Conserved, InOrder, Orderly, Owned, Enabled;
    if actions != [] {
      StepKeepsView(config, s, actions[0], key);
      OwnedKept(config, s, actions[0]);
      RunKeepsViews(config, Step(config, s, actions[0]), actions[1..], key);
    }
  }

  /** Under any interleaving, for each rule of each point of each device: raised minus cleared over all events ever
      appended or still pending is 1 if the rule is active and 0 if not. */
  lemma AlarmConservation(config: Config, file: seq<string>, actions: seq<Action>, key: AlarmKey)
    requires Possible(config, Initial(file), actions)
    ensures var s := After(config, Initial(file), actions);
            Net(Flags(AlarmsOf(s.history), key)) + Net(Flags(AlarmsIn(Pending(s, key.deviceId)), key))
            + Net(Flags(AlarmsIn(s.monitor), key))
            == if (key.address, key.rule) in Rules(s, key.deviceId) then 1 else 0
  {
    hide ViewOf, After, Possible, Flags, Net, InOrder, Orderly, Owned;
    InitialView(file, key);
    RunKeepsViews(config, Initial(file), actions, key);
    ViewParts(After(config, Initial(file), actions), key);
  }

  /** Under any interleaving, what is logged of a rule other than STALE is raised and cleared in turn, and once the
      device's worker has written its batch the log ends in the rule's state. */
  lemma LogFollowsRules(config: Config, file: seq<string>, actions: seq<Action>, key: AlarmKey)
    requires Possible(config, Initial(file), actions) && key.rule != Stale
    ensures var s := After(config, Initial(file), actions);
            && Chained(Flags(AlarmsOf(s.history), key) + Flags(AlarmsIn(Pending(s, key.deviceId)), key), false,
                       (key.address, key.rule) in Rules(s, key.deviceId))
            && (Pending(s, key.deviceId) == [] ==>
                  Chained(Flags(AlarmsOf(s.history), key), false, (key.address, key.rule) in Rules(s, key.deviceId)))
  {
    hide ViewOf, After, Possible, Flags, Chained, Conserved, Orderly, Owned;
    InitialView(file, key);
    RunKeepsViews(config, Initial(file), actions, key);
    var s := After(config, Initial(file), actions);
    ViewParts(s, key);
    EmptyFlags(key);
    assert Flags(AlarmsOf(s.history), key) + [] == Flags(AlarmsOf(s.history), key);
  }

  /** Runs in which every batch about the device is written before the next critical section on it. */
  ghost predicate OrderlyRun(config: Config, s: SystemState, actions: seq<Action>, deviceId: string)
    requires Possible(config, s, actions)
    decreases |actions|
  {
    actions == [] ||
    (WaitsItsTurn(s, actions[0], deviceId) && OrderlyRun(config, Step(config, s, actions[0]), actions[1..], deviceId))
  }

  lemma {:induction false} OrderlyRunKeeps(config: Config, s: SystemState, actions: seq<Action>, key: AlarmKey)
    requires Owned(s) && Possible(config, s, actions) && OrderlyRun(config, s, actions, key.deviceId)
             && Orderly(ViewOf(s, key))
    ensures Orderly(ViewOf(After(config, s, actions), key))
    decreases |actions|
  {
    hide ViewOf, Step, Conserved, InOrder, Orderly, Owned, Enabled, WaitsItsTurn;
    if actions != [] {
      StepKeepsView(config, s, actions[0], key);
      OwnedKept(config, s, actions[0]);
      OrderlyRunKeeps(config, Step(config, s, actions[0]), actions[1..], key);
    }
  }

  /** In such runs the log follows every rule, STALE included, once nothing about the device is pending. */
  lemma OrderlyLogFollowsRules(config: Config, file: seq<string>, actions: seq<Action>, key: AlarmKey)
    requires Possible(config, Initial(file), actions) && OrderlyRun(config, Initial(file), actions, key.deviceId)
    ensures var s := After(config, Initial(file), actions);
            Pending(s, key.deviceId) == [] && s.monitor == [] ==>
              Chained(Flags(AlarmsOf(s.history), key), false, (key.address, key.rule) in Rules(s, key.deviceId))
  {
    hide ViewOf, After, Possible, Flags, Chained, Conserved, InOrder, Owned, OrderlyRun;
    InitialView(file, key);
    OrderlyRunKeeps(config, Initial(file), actions, key);
    var s := After(config, Initial(file), actions);
    ViewParts(s, key);
    EmptyFlags(key);
    var flags := Flags(AlarmsOf(s.history), key);
    assert flags + [] == flags && flags + [] + [] == flags;
  }
}
