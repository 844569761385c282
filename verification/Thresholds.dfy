/**
 What an evaluation decides, said in numbers: which limits a value has to pass for a rule to be active, and what the
 events it produces say and in which order.
 */
module Thresholds {
  import opened Wrappers
  import opened Text
  import opened Points
  import opened Alarms
  import opened AlarmProperties

  // ---------------------------------------------------------------- the rules

  /** What is active of a rule of the evaluated point afterwards. */
  ghost predicate ActiveAfter(numbers: Formatter, active: RuleState, definition: PointDefinition, snapshot: Snapshot,
                              rule: Rule)
  {
    (definition.address, rule) in RunState(active, definition, Checks(numbers, definition, snapshot))
  }

  /** Points whose limits count, by the name of their type in any mixture of cases. */
  predicate HasLimits(definition: PointDefinition) {
    Lower(definition.typeName) in {"analog", "counter"}
  }

  /** A number has reached a limit from below: a finite one by the order of numbers, minus infinity always. */
  ghost predicate AtLeastLimit(v: real, limit: Option<Double>) {
    limit.Some? && (limit.value.NegativeInfinity? || (limit.value.Finite? && v >= limit.value.value))
  }

  ghost predicate AtMostLimit(v: real, limit: Option<Double>) {
    limit.Some? && (limit.value.PositiveInfinity? || (limit.value.Finite? && v <= limit.value.value))
  }

  /** A limit rule is active after an evaluation exactly if its limit is passed and its tighter neighbour's is not. */
  lemma LimitsDecide(numbers: Formatter, active: RuleState, definition: PointDefinition, snapshot: Snapshot, v: real)
    requires HasLimits(definition) && snapshot.value == Finite(v)
    ensures ActiveAfter(numbers, active, definition, snapshot, HighHigh) <==> AtLeastLimit(v, definition.highHigh)
    ensures ActiveAfter(numbers, active, definition, snapshot, High) <==>
            AtLeastLimit(v, definition.high) && !AtLeastLimit(v, definition.highHigh)
    ensures ActiveAfter(numbers, active, definition, snapshot, LowLow) <==> AtMostLimit(v, definition.lowLow)
    ensures ActiveAfter(numbers, active, definition, snapshot, Low) <==>
            AtMostLimit(v, definition.low) && !AtMostLimit(v, definition.lowLow)
  {
    Settles(numbers, active, definition, snapshot);
    hide RunState, Checks, ActiveAfter;
  }

  lemma Settles(numbers: Formatter, active: RuleState, definition: PointDefinition, snapshot: Snapshot)
    requires HasLimits(definition)
    ensures forall rule :: rule in {HighHigh, High, LowLow, Low} ==>
              (ActiveAfter(numbers, active, definition, snapshot, rule) <==> Demanded(definition, snapshot, rule))
  {
    hide RunState, Checks, Demanded, Lower;
    assert Measured(definition);
    forall rule | rule in {HighHigh, High, LowLow, Low}
      ensures ActiveAfter(numbers, active, definition, snapshot, rule) <==> Demanded(definition, snapshot, rule)
    {
      EvaluationSettles(numbers, active, definition, snapshot, definition.address, rule);
    }
  }

  /** What is not a number passes no limit, and no value passes a limit that is not a number. */
  lemma NaNPassesNothing(numbers: Formatter, active: RuleState, definition: PointDefinition, snapshot: Snapshot)
    requires HasLimits(definition)
    ensures snapshot.value == NaN ==>
              forall rule <- {HighHigh, High, LowLow, Low} :: !ActiveAfter(numbers, active, definition, snapshot, rule)
    ensures definition.highHigh == Some(NaN) ==> !ActiveAfter(numbers, active, definition, snapshot, HighHigh)
    ensures definition.high == Some(NaN) ==> !ActiveAfter(numbers, active, definition, snapshot, High)
    ensures definition.lowLow == Some(NaN) ==> !ActiveAfter(numbers, active, definition, snapshot, LowLow)
    ensures definition.low == Some(NaN) ==> !ActiveAfter(numbers, active, definition, snapshot, Low)
  {
    Settles(numbers, active, definition, snapshot);
    hide RunState, Checks, ActiveAfter;
  }

  /** Plus infinity passes every upper limit that is a number and no lower one but plus infinity; minus infinity the
      reverse. */
  lemma InfinitiesDecide(numbers: Formatter, active: RuleState, definition: PointDefinition, snapshot: Snapshot)
    requires HasLimits(definition)
    ensures snapshot.value == PositiveInfinity ==>
              && (ActiveAfter(numbers, active, definition, snapshot, HighHigh) <==>
                  definition.highHigh.Some? && definition.highHigh != Some(NaN))
              && (ActiveAfter(numbers, active, definition, snapshot, LowLow) <==>
                    definition.lowLow == Some(PositiveInfinity))
    ensures snapshot.value == NegativeInfinity ==>
              && (ActiveAfter(numbers, active, definition, snapshot, LowLow) <==>
                  definition.lowLow.Some? && definition.lowLow != Some(NaN))
              && (ActiveAfter(numbers, active, definition, snapshot, HighHigh) <==>
                    definition.highHigh == Some(NegativeInfinity))
  {
    Settles(numbers, active, definition, snapshot);
    hide RunState, Checks, ActiveAfter;
  }

  /** DATA_QUALITY follows the bits for invalid and blocked alone, on points of any type. */
  lemma QualityDecides(numbers: Formatter, active: RuleState, definition: PointDefinition, snapshot: Snapshot)
    ensures ActiveAfter(numbers, active, definition, snapshot, DataQuality) <==>
            snapshot.quality.invalid || snapshot.quality.blocked
  {
    EvaluationSettles(numbers, active, definition, snapshot, definition.address, DataQuality);
    hide RunState, Checks;
  }

  /** STATE of a digital point with a normal state is active exactly if the state is not the normal one. */
  lemma StateDecides(numbers: Formatter, active: RuleState, definition: PointDefinition, snapshot: Snapshot)
    requires Lower(definition.typeName) == "digital" && definition.normalState.Some?
    ensures ActiveAfter(numbers, active, definition, snapshot, State) <==>
            (if snapshot.state then definition.normalState.value != 1 else definition.normalState.value != 0)
  {
    DigitalType(definition);
    EvaluationSettles(numbers, active, definition, snapshot, definition.address, State);
    hide RunState, Checks, Lower, PointTypeOf;
  }

  lemma DigitalType(definition: PointDefinition)
    requires Lower(definition.typeName) == "digital"
    ensures PointTypeOf(definition.typeName) == Digital
  {
    hide Lower;
  }

  /** Rules that do not apply to a point are left as they are. */
  lemma OthersStay(numbers: Formatter, active: RuleState, definition: PointDefinition, snapshot: Snapshot, rule: Rule)
    requires || (rule in {HighHigh, High, LowLow, Low} && !HasLimits(definition))
             || (rule == State && (Lower(definition.typeName) != "digital" || definition.normalState.None?))
    ensures ActiveAfter(numbers, active, definition, snapshot, rule) <==> (definition.address, rule) in active
  {
    hide Lower;
    NotWatched(definition, rule);
    hide RunState, Checks, Watched, Demanded;
    EvaluationSettles(numbers, active, definition, snapshot, definition.address, rule);
  }

  lemma NotWatched(definition: PointDefinition, rule: Rule)
    requires || (rule in {HighHigh, High, LowLow, Low} && !HasLimits(definition))
             || (rule == State && (Lower(definition.typeName) != "digital" || definition.normalState.None?))
    ensures !Watched(definition, rule)
  {
    hide Lower;
  }

  // --------------------------------------------------------------- the events

  /** The order in which an evaluation looks at the rules. */
  function Place(rule: Rule): nat {
    match rule
    case DataQuality => 0
    case HighHigh => 1
    case High => 2
    case LowLow => 3
    case Low => 4
    case State => 5
    case Stale => 6
  }

  ghost predicate InOrder(checks: seq<Check>) {
    forall i, j :: 0 <= i < j < |checks| ==> Place(checks[i].rule) < Place(checks[j].rule)
  }

  /** What a raised event says, given that its limit or normal state is configured. */
  ghost predicate Explains(message: string, numbers: Formatter, definition: PointDefinition, snapshot: Snapshot,
                           rule: Rule)
  {
    match rule
    case DataQuality => message == "Bad data quality: " + QualityText(snapshot.quality)
    case HighHigh => Passed(message, numbers, "High-high limit exceeded", snapshot, definition.highHigh)
    case High => Passed(message, numbers, "High limit exceeded", snapshot, definition.high)
    case LowLow => Passed(message, numbers, "Low-low limit exceeded", snapshot, definition.lowLow)
    case Low => Passed(message, numbers, "Low limit exceeded", snapshot, definition.low)
    case State =>
      definition.normalState.Some? ==>
        message == "Digital state abnormal: value=" + (if snapshot.state then "1" else "0")
                   + ", expected=" + Decimal(definition.normalState.value)
    case Stale => message == "No fresh data within stale window"
  }

  ghost predicate Passed(message: string, numbers: Formatter, text: string, snapshot: Snapshot, limit: Option<Double>) {
    limit.Some? ==>
      message == text + ": value=" + numbers.number(snapshot.value) + ", limit=" + numbers.number(limit.value)
  }

  /** An event of an evaluation: whose point, how severe, which value, and the message that goes with raising or
      clearing. */
  ghost predicate Tells(event: AlarmEvent, numbers: Formatter, definition: PointDefinition, snapshot: Snapshot,
                        at: Clock)
  {
    && event.address == definition.address
    && event.pointName == (if definition.name == "" then "IOA " + Decimal(definition.address) else definition.name)
    && event.severity == (if event.rule in {DataQuality, HighHigh, LowLow} then Critical else Warning)
    && event.value == (if event.rule == Stale then Finite(0.0) else snapshot.value)
    && event.timestamp == at(definition.address, event.rule)
    && (if event.active then Explains(event.message, numbers, definition, snapshot, event.rule)
        else event.message == "Recovered: " + RuleName(event.rule))
  }

  ghost predicate FromCheck(event: AlarmEvent, definition: PointDefinition, checks: seq<Check>, at: Clock) {
    exists i :: 0 <= i < |checks| && event == EventOf(definition, checks[i], at(definition.address, checks[i].rule))
  }

  lemma {:induction false} RunInOrder(active: RuleState, definition: PointDefinition, checks: seq<Check>, at: Clock)
    requires InOrder(checks)
    ensures forall i, j :: 0 <= i < j < |RunEvents(active, definition, checks, at)| ==>
              Place(RunEvents(active, definition, checks,
                              at)[i].rule) < Place(RunEvents(active, definition, checks, at)[j].rule)
    ensures forall e <- RunEvents(active, definition, checks, at) :: FromCheck(e, definition, checks, at)
    decreases |checks|
  {
    hide Settled, Place, EventOf, FromCheck;
    if checks != [] {
      var check, rest := checks[0], checks[1..];
      var next := Settled(active, definition.address, check.rule, check.now);
      var first := TransitionEvents(active, definition, check, at(definition.address, check.rule));
      var later := RunEvents(next, definition, rest, at);
      RunInOrder(next, definition, rest, at);
      EventRule(definition, check, at(definition.address, check.rule));
      HeadFromCheck(definition, checks, at);
      forall e <- later ensures Place(check.rule) < Place(e.rule) && FromCheck(e, definition, checks, at) {
        LaterFromCheck(e, definition, checks, at);
      }
      var events := RunEvents(active, definition, checks, at);
      assert events == first + later;
      forall i, j | 0 <= i < j < |events| ensures Place(events[i].rule) < Place(events[j].rule) {
        assert events[j] in later;
      }
    }
  }

  lemma HeadFromCheck(definition: PointDefinition, checks: seq<Check>, at: Clock)
    requires checks != []
    ensures FromCheck(EventOf(definition, checks[0], at(definition.address, checks[0].rule)), definition, checks, at)
  {
    hide EventOf;
  }

  lemma LaterFromCheck(event: AlarmEvent, definition: PointDefinition, checks: seq<Check>, at: Clock)
    requires checks != [] && InOrder(checks) && FromCheck(event, definition, checks[1..], at)
    ensures FromCheck(event, definition, checks, at) && Place(checks[0].rule) < Place(event.rule)
  {
    hide EventOf, Place;
    var i :| 0 <= i < |checks| - 1
             && event == EventOf(definition, checks[1..][i], at(definition.address, checks[1..][i].rule));
    assert checks[1..][i] == checks[i + 1];
    EventRule(definition, checks[i + 1], at(definition.address, checks[i + 1].rule));
  }

  lemma EventRule(definition: PointDefinition, check: Check, at: int)
    ensures EventOf(definition, check, at).rule == check.rule
  {
  }

  /** The events of an evaluation come in the order of the rules, and each tells its point, severity, value and time. */
  lemma EvaluationTells(numbers: Formatter, active: RuleState, definition: PointDefinition, snapshot: Snapshot,
                        at: Clock)
    ensures var events := RunEvents(active, definition, Checks(numbers, definition, snapshot), at);
            && (forall i, j :: 0 <= i < j < |events| ==> Place(events[i].rule) < Place(events[j].rule))
            && (forall e <- events :: Tells(e, numbers, definition, snapshot, at))
  {
    ChecksInOrder(numbers, definition, snapshot);
    hide Checks, RunEvents, Explains, Place;
    var checks := Checks(numbers, definition, snapshot);
    RunInOrder(active, definition, checks, at);
    forall e <- RunEvents(active, definition, checks, at) ensures Tells(e, numbers, definition, snapshot, at) {
      assert FromCheck(e, definition, checks, at);
      var i :| 0 <= i < |checks| && e == EventOf(definition, checks[i], at(definition.address, checks[i].rule));
      assert checks[i] in checks;
    }
  }

  ghost predicate Worded(c: Check, numbers: Formatter, definition: PointDefinition, snapshot: Snapshot) {
    && c.value == (if c.rule == Stale then Finite(0.0) else snapshot.value)
    && Explains(c.message, numbers, definition, snapshot, c.rule)
  }

  lemma LimitsInOrder(numbers: Formatter, definition: PointDefinition, snapshot: Snapshot)
    ensures var checks := LimitChecks(numbers, definition, snapshot);
            InOrder(checks) && forall c <- checks :: 1 <= Place(c.rule) <= 4
  {
    hide LimitMessage, Double.AtLeast, Double.AtMost;
  }

  lemma LimitsWorded(numbers: Formatter, definition: PointDefinition, snapshot: Snapshot)
    ensures forall c <- LimitChecks(numbers, definition, snapshot) :: Worded(c, numbers, definition, snapshot)
  {
    hide QualityText, Decimal, Double.AtLeast, Double.AtMost;
  }

  lemma OthersInOrder(numbers: Formatter, definition: PointDefinition, snapshot: Snapshot)
    ensures var c := QualityCheck(snapshot); Place(c.rule) == 0 && Worded(c, numbers, definition, snapshot)
    ensures var c := StaleCheck(false); Place(c.rule) == 6 && Worded(c, numbers, definition, snapshot)
    ensures definition.normalState.Some? ==>
              var c := StateCheck(definition, snapshot);
              Place(c.rule) == 5 && Worded(c, numbers, definition, snapshot)
  {
    ZeroAndOne();
    hide QualityText, Decimal;
  }

  lemma ChecksInOrder(numbers: Formatter, definition: PointDefinition, snapshot: Snapshot)
    ensures InOrder(Checks(numbers, definition, snapshot))
    ensures forall c <- Checks(numbers, definition, snapshot) :: Worded(c, numbers, definition, snapshot)
  {
    hide PointTypeOf, QualityCheck, StateCheck, StaleCheck, LimitChecks, Worded, Place;
    LimitsInOrder(numbers, definition, snapshot);
    LimitsWorded(numbers, definition, snapshot);
    OthersInOrder(numbers, definition, snapshot);
  }

  lemma ZeroAndOne()
    ensures Decimal(0) == "0" && Decimal(1) == "1"
  {
  }
}
