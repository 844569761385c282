/**
 Edge-triggered alarm rules of one device.  A rule of a point is active or not, and an
 event is produced exactly when that changes.
 */
module Alarms {
  import opened Wrappers
  import opened Text
  import opened Points

  /** The active rules of one device, as pairs of address and rule. */
  type RuleState = set<(int, Rule)>

  /** The readings that the events of one call are stamped with, one per address and rule. */
  type Clock = (int, Rule) -> int

  /** One condition checked against the current state of a rule. */
  datatype Check = Check(rule: Rule, now: bool, value: Double, message: string)

  function SeverityOf(rule: Rule): Severity {
    match rule
    case DataQuality => Critical
    case HighHigh => Critical
    case LowLow => Critical
    case _ => Warning
  }

  predicate Measured(definition: PointDefinition) {
    PointTypeOf(definition.typeName).Analog? || PointTypeOf(definition.typeName).Counter?
  }

  // -------------------------------------------------- what the rules should say

  predicate Reaches(value: Double, limit: Option<Double>) {
    limit.Some? && value.AtLeast(limit.value)
  }

  predicate FallsTo(value: Double, limit: Option<Double>) {
    limit.Some? && value.AtMost(limit.value)
  }

  /** Whether a fresh value puts a rule of its point into alarm: a function of definition and value alone. */
  predicate Demanded(definition: PointDefinition, snapshot: Snapshot, rule: Rule) {
    match rule
    case DataQuality => snapshot.quality.invalid || snapshot.quality.blocked
    case HighHigh => Measured(definition) && Reaches(snapshot.value, definition.highHigh)
    case High => Measured(definition) && Reaches(snapshot.value, definition.high)
        && !Reaches(snapshot.value, definition.highHigh)
    case LowLow => Measured(definition) && FallsTo(snapshot.value, definition.lowLow)
    case Low => Measured(definition) && FallsTo(snapshot.value, definition.low)
        && !FallsTo(snapshot.value, definition.lowLow)
    case State =>
      && PointTypeOf(definition.typeName).Digital? && definition.normalState.Some?
      && (if snapshot.state then 1 else 0) != definition.normalState.value
    case Stale => false
  }

  /** Whether evaluating a point looks at a rule at all. */
  predicate Watched(definition: PointDefinition, rule: Rule) {
    match rule
    case DataQuality => true
    case Stale => true
    case State => PointTypeOf(definition.typeName).Digital? && definition.normalState.Some?
    case _ => Measured(definition)
  }

  // ------------------------------------------------------- transitions as functions

  function Settled(active: RuleState, address: int, rule: Rule, now: bool): RuleState {
    if now then active + {(address, rule)} else active - {(address, rule)}
  }

  function EventOf(definition: PointDefinition, check: Check, at: int): AlarmEvent {
    AlarmEvent("", "", definition.address, PointName(definition), check.rule, SeverityOf(check.rule), check.now,
               check.value,
               if check.now then check.message else "Recovered: " + RuleName(check.rule), at)
  }

  function TransitionEvents(active: RuleState, definition: PointDefinition, check: Check, at: int): seq<AlarmEvent> {
    if ((definition.address, check.rule) in active) == check.now then [] else [EventOf(definition, check, at)]
  }

  function RunState(active: RuleState, definition: PointDefinition, checks: seq<Check>): RuleState
    decreases |checks|
  {
    if checks == [] then active
    else RunState(Settled(active, definition.address, checks[0].rule, checks[0].now), definition, checks[1..])
  }

  function RunEvents(active: RuleState, definition: PointDefinition, checks: seq<Check>, at: Clock): seq<AlarmEvent>
    decreases |checks|
  {
    if checks == [] then []
    else TransitionEvents(active, definition, checks[0], at(definition.address, checks[0].rule))
         + RunEvents(Settled(active, definition.address, checks[0].rule, checks[0].now), definition, checks[1..], at)
  }

  function LimitMessage(numbers: Formatter, text: string, value: Double, limit: Option<Double>): string {
    if limit.None? then "" else text + ": value=" + numbers.number(value) + ", limit=" + numbers.number(limit.value)
  }

  function LimitChecks(numbers: Formatter, definition: PointDefinition, snapshot: Snapshot): seq<Check> {
    var value := snapshot.value;
    var highHigh := definition.highHigh.Some? && value.AtLeast(definition.highHigh.value);
    var high := definition.high.Some? && value.AtLeast(definition.high.value) && !highHigh;
    var lowLow := definition.lowLow.Some? && value.AtMost(definition.lowLow.value);
    var low := definition.low.Some? && value.AtMost(definition.low.value) && !lowLow;
    [Check(HighHigh, highHigh, value, LimitMessage(numbers, "High-high limit exceeded", value, definition.highHigh)),
     Check(High, high, value, LimitMessage(numbers, "High limit exceeded", value, definition.high)),
     Check(LowLow, lowLow, value, LimitMessage(numbers, "Low-low limit exceeded", value, definition.lowLow)),
     Check(Low, low, value, LimitMessage(numbers, "Low limit exceeded", value, definition.low))]
  }

  function QualityCheck(snapshot: Snapshot): Check {
    Check(DataQuality, snapshot.quality.invalid || snapshot.quality.blocked, snapshot.value,
          "Bad data quality: " + QualityText(snapshot.quality))
  }

  function StateCheck(definition: PointDefinition, snapshot: Snapshot): Check
    requires definition.normalState.Some?
  {
    var state := if snapshot.state then 1 else 0;
    Check(State, state != definition.normalState.value, snapshot.value,
          "Digital state abnormal: value=" + Decimal(state) + ", expected=" + Decimal(definition.normalState.value))
  }

  function StaleCheck(stale: bool): Check {
    Check(Stale, stale, Finite(0.0), "No fresh data within stale window")
  }

  /** The checks of one evaluation in the order in which they are made. */
  function Checks(numbers: Formatter, definition: PointDefinition, snapshot: Snapshot): seq<Check> {
    var pointType := PointTypeOf(definition.typeName);
    [QualityCheck(snapshot)]
    + (if pointType.Analog? || pointType.Counter? then LimitChecks(numbers, definition, snapshot) else [])
    + (if pointType.Digital? && definition.normalState.Some? then [StateCheck(definition, snapshot)] else [])
    + [StaleCheck(false)]
  }

  // -------------------------------------------------------------- the manager

  function RuleKey(address: int, rule: Rule): string {
    Decimal(address) + ":" + RuleName(rule)
  }

  /** The text key of a rule names one point and one rule. */
  lemma RuleKeyInjective(a1: int, r1: Rule, a2: int, r2: Rule)
    requires RuleKey(a1, r1) == RuleKey(a2, r2)
    ensures a1 == a2 && r1 == r2
  {
    LastColon(Decimal(a1), RuleName(r1), Decimal(a2), RuleName(r2));
    DecimalInjective(a1, a2);
    RuleNameInjective(r1, r2);
  }

  class AlarmManager {
    const numbers: Formatter
    var activeRules: map<string, bool>
    ghost var active: RuleState

    /** The keyed flags say of every point and rule whether it is active. */
    ghost predicate Valid()
      reads this
    {
      forall address, rule :: (address, rule) in active <==>
        RuleKey(address, rule) in activeRules && activeRules[RuleKey(address, rule)]
    }

    constructor (numbers: Formatter)
      ensures Valid() && active == {} && this.numbers == numbers
    {
      this.numbers, activeRules, active := numbers, map[], {};
    }

    method Transition(definition: PointDefinition, check: Check, at: int) returns (events: seq<AlarmEvent>)
      requires Valid()
      modifies this
      ensures Valid()
      ensures events == TransitionEvents(old(active), definition, check, at)
      ensures active == Settled(old(active), definition.address, check.rule, check.now)
    {
      hide RuleKey, EventOf;
      var key := RuleKey(definition.address, check.rule);
      var wasActive := key in activeRules && activeRules[key];
      active := Settled(active, definition.address, check.rule, check.now);
      if wasActive == check.now {
        return [];
      }
      activeRules := activeRules[key := check.now];
      forall address, rule | (address, rule) != (definition.address, check.rule)
        ensures RuleKey(address, rule) != key
      {
        if RuleKey(address, rule) == key {
          RuleKeyInjective(address, rule, definition.address, check.rule);
        }
      }
      return [EventOf(definition, check, at)];
    }

    method EvaluateStale(definition: PointDefinition, stale: bool, at: int) returns (events: seq<AlarmEvent>)
      requires Valid()
      modifies this
      ensures Valid()
      ensures events == TransitionEvents(old(active), definition, StaleCheck(stale), at)
      ensures active == Settled(old(active), definition.address, Stale, stale)
    {
      events := Transition(definition, StaleCheck(stale), at);
    }

    /** Runs a list of checks; the states and events between the calls are those of the functions. */
    method TransitionAll(definition: PointDefinition, checks: seq<Check>, at: Clock) returns (events: seq<AlarmEvent>)
      requires Valid()
      modifies this
      ensures Valid()
      ensures events == RunEvents(old(active), definition, checks, at)
      ensures active == RunState(old(active), definition, checks)
    {
      hide EventOf, Settled, TransitionEvents;
      events := [];
      var index := 0;
      while index < |checks|
        invariant 0 <= index <= |checks| && Valid()
        invariant events + RunEvents(active, definition, checks[index..], at)
                  == RunEvents(old(active), definition, checks, at)
        invariant RunState(active, definition, checks[index..]) == RunState(old(active), definition, checks)
      {
        assert checks[index..][0] == checks[index] && checks[index..][1..] == checks[index + 1..];
        var more := Transition(definition, checks[index], at(definition.address, checks[index].rule));
        events := events + more;
        index := index + 1;
      }
    }

    method Evaluate(definition: PointDefinition, snapshot: Snapshot, at: Clock) returns (events: seq<AlarmEvent>)
      requires Valid()
      modifies this
      ensures Valid()
      ensures events == RunEvents(old(active), definition, Checks(numbers, definition, snapshot), at)
      ensures active == RunState(old(active), definition, Checks(numbers, definition, snapshot))
    {
      var checks := [QualityCheck(snapshot)];
      var pointType := PointTypeOf(definition.typeName);
      if pointType.Analog? || pointType.Counter? {
        checks := checks + LimitChecks(numbers, definition, snapshot);
      }
      if pointType.Digital? && definition.normalState.Some? {
        checks := checks + [StateCheck(definition, snapshot)];
      }
      checks := checks + [StaleCheck(false)];
      assert checks == Checks(numbers, definition, snapshot) by {
        hide QualityCheck, LimitChecks, StateCheck, StaleCheck;
      }
      events := TransitionAll(definition, checks, at);
    }
  }
}
