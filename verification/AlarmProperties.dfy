/**
 What alarm evaluation promises: after an evaluation the rules of the point say exactly
 what definition and value demand, whatever came before; limits exclude one another; and
 the events of a rule, over any sequence of calls, are raised and cleared in turn.
 */
module AlarmProperties {
  import opened Wrappers
  import opened Points
  import opened Alarms

  // ------------------------------------------------------------- settled rules

  /** The last word of a list of checks about a rule. */
  function Verdict(checks: seq<Check>, rule: Rule): Option<bool> {
    if checks == [] then None
    else if Verdict(checks[1..], rule).Some? then Verdict(checks[1..], rule)
    else if checks[0].rule == rule then Some(checks[0].now)
    else None
  }

  lemma {:induction false} VerdictAppend(a: seq<Check>, b: seq<Check>, rule: Rule)
    ensures Verdict(a + b, rule) == if Verdict(b, rule).Some? then Verdict(b, rule) else Verdict(a, rule)
    decreases |a|
  {
    if a == [] {
      assert a + b == b;
    } else {
      assert (a + b)[0] == a[0] && (a + b)[1..] == a[1..] + b;
      VerdictAppend(a[1..], b, rule);
    }
  }

  lemma {:induction false} RunMembership(active: RuleState, definition: PointDefinition, checks: seq<Check>,
                                         address: int, rule: Rule)
    ensures (address, rule) in RunState(active, definition, checks) <==>
            if address == definition.address && Verdict(checks, rule).Some? then Verdict(checks, rule).value
            else (address, rule) in active
    decreases |checks|
  {
    if checks != [] {
      RunMembership(Settled(active, definition.address, checks[0].rule, checks[0].now), definition, checks[1..],
                    address, rule);
    }
  }

  lemma LimitVerdict(numbers: Formatter, definition: PointDefinition, snapshot: Snapshot, rule: Rule)
    requires Measured(definition)
    ensures Verdict(LimitChecks(numbers, definition, snapshot), rule)
         == if rule in {HighHigh, High, LowLow, Low} then Some(Demanded(definition, snapshot, rule)) else None
  {
    hide LimitMessage;
    var checks := LimitChecks(numbers, definition, snapshot);
    assert checks[1..][1..] == checks[2..] && checks[2..][1..] == checks[3..] && checks[3..][1..] == [];
    assert Verdict(checks[3..], rule) == if rule == Low then Some(checks[3].now) else None;
    assert Verdict(checks[2..], rule) == if rule == Low then Some(checks[3].now)
                                         else if rule == LowLow then Some(checks[2].now) else None;
  }

  lemma SingleVerdict(check: Check, rule: Rule)
    ensures Verdict([check], rule) == if check.rule == rule then Some(check.now) else None
  {
  }

  /** An evaluation checks exactly the watched rules of its point, each for what is demanded. */
  lemma EvaluationVerdict(numbers: Formatter, definition: PointDefinition, snapshot: Snapshot, rule: Rule)
    ensures Verdict(Checks(numbers, definition, snapshot), rule)
         == if Watched(definition, rule) then Some(Demanded(definition, snapshot, rule)) else None
  {
    hide LimitChecks, Verdict;
    var pointType := PointTypeOf(definition.typeName);
    var quality := [QualityCheck(snapshot)];
    var limits := if pointType.Analog? || pointType.Counter? then LimitChecks(numbers, definition, snapshot) else [];
    var state := if pointType.Digital? && definition.normalState.Some? then [StateCheck(definition, snapshot)] else [];
    var stale := [StaleCheck(false)];
    SingleVerdict(QualityCheck(snapshot), rule);
    SingleVerdict(StaleCheck(false), rule);
    NoVerdict(rule);
    if Measured(definition) {
      LimitVerdict(numbers, definition, snapshot, rule);
    }
    if pointType.Digital? && definition.normalState.Some? {
      SingleVerdict(StateCheck(definition, snapshot), rule);
    }
    VerdictAppend(quality + limits + state, stale, rule);
    VerdictAppend(quality + limits, state, rule);
    VerdictAppend(quality, limits, rule);
  }

  lemma NoVerdict(rule: Rule)
    ensures Verdict([], rule) == None
  {
  }

  /** What one evaluation leaves active: the demanded rules of its point, and every other point as it was. */
  lemma EvaluationSettles(numbers: Formatter, active: RuleState, definition: PointDefinition, snapshot: Snapshot,
                          address: int, rule: Rule)
    ensures (address, rule) in RunState(active, definition, Checks(numbers, definition, snapshot)) <==>
            if address == definition.address && Watched(definition, rule) then Demanded(definition, snapshot, rule)
            else (address, rule) in active
  {
    hide Checks, Demanded, Watched;
    EvaluationVerdict(numbers, definition, snapshot, rule);
    RunMembership(active, definition, Checks(numbers, definition, snapshot), address, rule);
  }

  /** No value demands both a limit and its tighter neighbour, and nothing demanded goes unwatched. */
  lemma DemandsExclude(definition: PointDefinition, snapshot: Snapshot)
    ensures !(Demanded(definition, snapshot, HighHigh) && Demanded(definition, snapshot, High))
    ensures !(Demanded(definition, snapshot, LowLow) && Demanded(definition, snapshot, Low))
    ensures !Demanded(definition, snapshot, Stale)
    ensures forall rule :: Demanded(definition, snapshot, rule) ==> Watched(definition, rule)
  {
  }

  // -------------------------------------------------------- any sequence of calls

  datatype Call = Fresh(definition: PointDefinition, snapshot: Snapshot, at: Clock)
                | Staleness(definition: PointDefinition, stale: bool, at: Clock)

  function ChecksOf(numbers: Formatter, call: Call): seq<Check> {
    match call
    case Fresh(definition, snapshot, _) => Checks(numbers, definition, snapshot)
    case Staleness(_, stale, _) => [StaleCheck(stale)]
  }

  function CallsState(numbers: Formatter, active: RuleState, calls: seq<Call>): RuleState
    decreases |calls|
  {
    if calls == [] then active
    else CallsState(numbers, RunState(active, calls[0].definition, ChecksOf(numbers, calls[0])), calls[1..])
  }

  function CallsEvents(numbers: Formatter, active: RuleState, calls: seq<Call>): seq<AlarmEvent>
    decreases |calls|
  {
    if calls == [] then []
    else RunEvents(active, calls[0].definition, ChecksOf(numbers, calls[0]), calls[0].at)
         + CallsEvents(numbers, RunState(active, calls[0].definition, ChecksOf(numbers, calls[0])), calls[1..])
  }

  ghost predicate OnlyWatched(definitions: int -> PointDefinition, active: RuleState) {
    forall address, rule :: (address, rule) in active ==> Watched(definitions(address), rule)
  }

  ghost predicate FixedDefinitions(definitions: int -> PointDefinition, calls: seq<Call>) {
    forall c <- calls :: c.definition == definitions(c.definition.address)
  }

  lemma CallKeepsWatched(numbers: Formatter, definitions: int -> PointDefinition, active: RuleState, call: Call)
    requires OnlyWatched(definitions, active) && call.definition == definitions(call.definition.address)
    ensures OnlyWatched(definitions, RunState(active, call.definition, ChecksOf(numbers, call)))
  {
    hide Checks, Demanded, RunState;
    var next := RunState(active, call.definition, ChecksOf(numbers, call));
    forall address, rule | (address, rule) in next ensures Watched(definitions(address), rule) {
      match call
      case Fresh(definition, snapshot, _) =>
        EvaluationSettles(numbers, active, definition, snapshot, address, rule);
        DemandsExclude(definition, snapshot);
      case Staleness(definition, stale, _) =>
        RunMembership(active, definition, [StaleCheck(stale)], address, rule);
        SingleVerdict(StaleCheck(stale), rule);
    }
  }

  lemma {:induction false} CallsKeepWatched(numbers: Formatter, definitions: int -> PointDefinition, active: RuleState,
                                            calls: seq<Call>)
    requires OnlyWatched(definitions, active) && FixedDefinitions(definitions, calls)
    ensures OnlyWatched(definitions, CallsState(numbers, active, calls))
    decreases |calls|
  {
    hide RunState, ChecksOf, OnlyWatched;
    if calls != [] {
      CallKeepsWatched(numbers, definitions, active, calls[0]);
      CallsKeepWatched(numbers, definitions, RunState(active, calls[0].definition, ChecksOf(numbers, calls[0])),
                       calls[1..]);
    }
  }

  /** With one fixed definition per address, what a point has active after an evaluation does not depend on history. */
  lemma EvaluationForgetsHistory(numbers: Formatter, definitions: int -> PointDefinition, calls: seq<Call>,
                                 definition: PointDefinition, snapshot: Snapshot, rule: Rule)
    requires FixedDefinitions(definitions, calls) && definition == definitions(definition.address)
    ensures var active := CallsState(numbers, {}, calls);
            (definition.address, rule) in RunState(active, definition, Checks(numbers, definition, snapshot))
            <==> Demanded(definition, snapshot, rule)
  {
    hide Demanded, Watched, Checks, RunState, CallsState;
    var active := CallsState(numbers, {}, calls);
    CallsKeepWatched(numbers, definitions, {}, calls);
    EvaluationSettles(numbers, active, definition, snapshot, definition.address, rule);
    DemandsExclude(definition, snapshot);
  }

  /** So a point never has two neighbouring limits in alarm after an evaluation, and is never stale then. */
  lemma EvaluationExcludes(numbers: Formatter, definitions: int -> PointDefinition, calls: seq<Call>,
                           definition: PointDefinition, snapshot: Snapshot)
    requires FixedDefinitions(definitions, calls) && definition == definitions(definition.address)
    ensures var address := definition.address;
            var active := RunState(CallsState(numbers, {}, calls), definition, Checks(numbers, definition, snapshot));
            && !((address, HighHigh) in active && (address, High) in active)
            && !((address, LowLow) in active && (address, Low) in active)
            && (address, Stale) !in active
  {
    DemandsExclude(definition, snapshot);
    hide Demanded, Checks, RunState, CallsState;
    EvaluationForgetsHistory(numbers, definitions, calls, definition, snapshot, HighHigh);
    EvaluationForgetsHistory(numbers, definitions, calls, definition, snapshot, High);
    EvaluationForgetsHistory(numbers, definitions, calls, definition, snapshot, LowLow);
    EvaluationForgetsHistory(numbers, definitions, calls, definition, snapshot, Low);
    EvaluationForgetsHistory(numbers, definitions, calls, definition, snapshot, Stale);
  }

  // ------------------------------------------------------------- event streams

  datatype AlarmKey = AlarmKey(deviceId: string, address: int, rule: Rule)

  function KeyOf(event: AlarmEvent): AlarmKey {
    AlarmKey(event.deviceId, event.address, event.rule)
  }

  /** The raised (true) and cleared (false) events of one rule, in order. */
  function Flags(events: seq<AlarmEvent>, key: AlarmKey): seq<bool> {
    if events == [] then []
    else (if KeyOf(events[0]) == key then [events[0].active] else []) + Flags(events[1..], key)
  }

  /** Flags that lead from one state to another, each of them a change. */
  ghost predicate Chained(flags: seq<bool>, before: bool, after: bool) {
    && (forall i :: 0 <= i < |flags| ==> flags[i] == if i % 2 == 0 then !before else before)
    && after == if |flags| % 2 == 0 then before else !before
  }

  lemma {:induction false} FlagsAppend(a: seq<AlarmEvent>, b: seq<AlarmEvent>, key: AlarmKey)
    ensures Flags(a + b, key) == Flags(a, key) + Flags(b, key)
    decreases |a|
  {
    hide KeyOf;
    if a == [] {
      assert a + b == b;
    } else {
      assert (a + b)[0] == a[0] && (a + b)[1..] == a[1..] + b;
      FlagsAppend(a[1..], b, key);
      var first := if KeyOf(a[0]) == key then [a[0].active] else [];
      assert Flags(a + b, key) == first + (Flags(a[1..], key) + Flags(b, key));
    }
  }

  lemma ChainedAppend(a: seq<bool>, b: seq<bool>, first: bool, middle: bool, last: bool)
    requires Chained(a, first, middle) && Chained(b, middle, last)
    ensures Chained(a + b, first, last)
  {
    var flags := a + b;
    forall i | 0 <= i < |flags| ensures flags[i] == if i % 2 == 0 then !first else first {
      if i >= |a| {
        assert flags[i] == b[i - |a|];
      } else {
        assert flags[i] == a[i];
      }
    }
  }

  lemma TransitionChained(active: RuleState, definition: PointDefinition, check: Check, at: int, address: int,
                          rule: Rule)
    ensures Chained(Flags(TransitionEvents(active, definition, check, at), AlarmKey("", address, rule)),
                    (address, rule) in active,
                    (address, rule) in Settled(active, definition.address, check.rule, check.now))
  {
    var events, key := TransitionEvents(active, definition, check, at), AlarmKey("", address, rule);
    hide PointName, SeverityOf, RuleName;
    if events != [] {
      assert events == [EventOf(definition, check, at)] && events[1..] == [];
      assert Flags(events, key) == if (definition.address, check.rule) == (address, rule) then [check.now] else [];
    }
  }

  lemma {:induction false} RunChained(active: RuleState, definition: PointDefinition, checks: seq<Check>, at: Clock,
                                      address: int, rule: Rule)
    ensures Chained(Flags(RunEvents(active, definition, checks, at), AlarmKey("", address, rule)),
                    (address, rule) in active, (address, rule) in RunState(active, definition, checks))
    decreases |checks|
  {
    hide TransitionEvents, Settled, Chained;
    if checks == [] {
      NoFlags((address, rule) in active);
    } else {
      var key := AlarmKey("", address, rule);
      var next := Settled(active, definition.address, checks[0].rule, checks[0].now);
      TransitionChained(active, definition, checks[0], at(definition.address, checks[0].rule), address, rule);
      RunChained(next, definition, checks[1..], at, address, rule);
      FlagsAppend(TransitionEvents(active, definition, checks[0], at(definition.address, checks[0].rule)),
                  RunEvents(next, definition, checks[1..], at), key);
      ChainedAppend(Flags(TransitionEvents(active, definition, checks[0], at(definition.address, checks[0].rule)), key),
                    Flags(RunEvents(next, definition, checks[1..], at), key),
                    (address, rule) in active, (address, rule) in next,
                    (address, rule) in RunState(next, definition, checks[1..]));
    }
  }

  lemma NoFlags(state: bool)
    ensures Chained([], state, state)
  {
  }

  /** Over any calls, each rule's events are raised and cleared in turn, raised first, and end in its state. */
  lemma {:induction false} CallsChained(numbers: Formatter, active: RuleState, calls: seq<Call>, address: int,
                                        rule: Rule)
    ensures Chained(Flags(CallsEvents(numbers, active, calls), AlarmKey("", address, rule)),
                    (address, rule) in active, (address, rule) in CallsState(numbers, active, calls))
    decreases |calls|
  {
    hide RunEvents, RunState, ChecksOf, Chained;
    if calls == [] {
      NoFlags((address, rule) in active);
    } else {
      var key, call := AlarmKey("", address, rule), calls[0];
      var checks := ChecksOf(numbers, call);
      var next := RunState(active, call.definition, checks);
      RunChained(active, call.definition, checks, call.at, address, rule);
      CallsChained(numbers, next, calls[1..], address, rule);
      FlagsAppend(RunEvents(active, call.definition, checks, call.at), CallsEvents(numbers, next, calls[1..]), key);
      ChainedAppend(Flags(RunEvents(active, call.definition, checks, call.at), key),
                    Flags(CallsEvents(numbers, next, calls[1..]), key),
                    (address, rule) in active, (address, rule) in next,
                    (address, rule) in CallsState(numbers, next, calls[1..]));
    }
  }

  lemma StreamsAlternate(numbers: Formatter, calls: seq<Call>, address: int, rule: Rule)
    ensures var flags := Flags(CallsEvents(numbers, {}, calls), AlarmKey("", address, rule));
            && (forall i :: 0 <= i < |flags| ==> flags[i] == (i % 2 == 0))
            && ((address, rule) in CallsState(numbers, {}, calls) <==> |flags| % 2 == 1)
  {
    hide CallsEvents, CallsState, Flags;
    CallsChained(numbers, {}, calls, address, rule);
  }

  // --------------------------------------------------------------- conservation

  /** Raised minus cleared. */
  function Net(flags: seq<bool>): int {
    if flags == [] then 0 else (if flags[0] then 1 else -1) + Net(flags[1..])
  }

  lemma {:induction false} NetAppend(a: seq<bool>, b: seq<bool>)
    ensures Net(a + b) == Net(a) + Net(b)
    decreases |a|
  {
    if a == [] {
      assert a + b == b;
    } else {
      assert (a + b)[0] == a[0] && (a + b)[1..] == a[1..] + b;
      NetAppend(a[1..], b);
    }
  }

  function Count(state: bool): int {
    if state then 1 else 0
  }

  lemma {:induction false} NetOfChained(flags: seq<bool>, before: bool, after: bool)
    requires Chained(flags, before, after)
    ensures Net(flags) == Count(after) - Count(before)
    decreases |flags|
  {
    if flags != [] {
      var rest := flags[1..];
      forall i | 0 <= i < |rest| ensures rest[i] == if i % 2 == 0 then before else !before {
        assert rest[i] == flags[i + 1];
      }
      NetOfChained(rest, !before, after);
    }
  }
}
