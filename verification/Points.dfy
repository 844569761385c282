/** Measured values, point definitions, snapshots and alarm events, and the names they are written with. */
module Points {
  import opened Wrappers
  import opened Frame
  import opened Text

  /** A double as a threshold sees it: ordered, except for not-a-number. */
  datatype Double = NaN | NegativeInfinity | Finite(value: real) | PositiveInfinity {
    predicate AtLeast(limit: Double) {
      match (this, limit)
      case (NaN, _) => false
      case (_, NaN) => false
      case (PositiveInfinity, _) => true
      case (_, NegativeInfinity) => true
      case (Finite(a), Finite(b)) => a >= b
      case _ => false
    }

    predicate AtMost(limit: Double) {
      limit.AtLeast(this)
    }
  }

  datatype PointType = Analog | Digital | Counter | Control | UnknownType

  datatype BusinessType = Telemetry | Telesignal | Telecontrol | UnknownBusiness

  datatype Severity = Info | Warning | Critical

  datatype Rule = DataQuality | HighHigh | High | LowLow | Low | State | Stale

  datatype PointDefinition = PointDefinition(
    address: int, name: string, typeName: string, unit: string,
    highHigh: Option<Double>, high: Option<Double>, low: Option<Double>, lowLow: Option<Double>,
    normalState: Option<int>, staleSeconds: int)

  datatype Snapshot = Snapshot(
    deviceId: string, deviceName: string, address: int, name: string, pointType: PointType, iecType: string,
    unit: string, value: Double, state: bool, quality: Quality, timestamp: int)

  datatype BusinessRecord = BusinessRecord(businessType: BusinessType, snapshot: Snapshot, displayValue: string)

  datatype AlarmEvent = AlarmEvent(
    deviceId: string, deviceName: string, address: int, pointName: string, rule: Rule, severity: Severity,
    active: bool, value: Double, message: string, timestamp: int)

  /** How numbers and times are printed; only that no bar appears in the result ever matters. */
  datatype Formatter = Formatter(number: Double -> string, fixed: Double -> string, time: int -> string)

  ghost predicate BarFree(formatter: Formatter) {
    && (forall d :: '|' !in formatter.number(d))
    && (forall d :: '|' !in formatter.fixed(d))
    && (forall t :: '|' !in formatter.time(t))
  }

  function PointTypeOf(typeName: string): PointType {
    var name := Lower(typeName);
    if name == "analog" then Analog
    else if name == "digital" then Digital
    else if name == "counter" then Counter
    else if name == "control" || name == "telecontrol" || name == "remote_control" then Control
    else UnknownType
  }

  function PointTypeName(t: PointType): (name: string)
    ensures '|' !in name
  {
    match t
    case Analog => "analog"
    case Digital => "digital"
    case Counter => "counter"
    case Control => "control"
    case UnknownType => "unknown"
  }

  function BusinessTypeOf(t: PointType): BusinessType {
    match t
    case Analog => Telemetry
    case Counter => Telemetry
    case Digital => Telesignal
    case Control => Telecontrol
    case UnknownType => UnknownBusiness
  }

  function BusinessTypeName(t: BusinessType): (name: string)
    ensures '|' !in name
  {
    match t
    case Telemetry => "telemetry"
    case Telesignal => "telesignal"
    case Telecontrol => "telecontrol"
    case UnknownBusiness => "unknown"
  }

  function SeverityName(severity: Severity): (name: string)
    ensures '|' !in name
  {
    match severity
    case Info => "INFO"
    case Warning => "WARNING"
    case Critical => "CRITICAL"
  }

  function RuleName(rule: Rule): (name: string)
    ensures '|' !in name && ':' !in name
  {
    match rule
    case DataQuality => "DATA_QUALITY"
    case HighHigh => "HIGH_HIGH"
    case High => "HIGH"
    case LowLow => "LOW_LOW"
    case Low => "LOW"
    case State => "STATE"
    case Stale => "STALE"
  }

  /** Different rules have different names. */
  lemma RuleNameInjective(a: Rule, b: Rule)
    requires RuleName(a) == RuleName(b)
    ensures a == b
  {
    assert "HIGH_HIGH"[4] == '_';
  }

  /** The names of the bits that are set, separated by commas, or "good". */
  function QualityText(quality: Quality): (text: string)
    ensures '|' !in text
  {
    var text := WithName(WithName(WithName(WithName(WithName("", quality.invalid, "invalid"), quality.notTopical,
                                                    "not_topical"),
                                        quality.substituted, "substituted"), quality.blocked, "blocked"),
                                        quality.overflow, "overflow");
    if text == "" then "good" else text
  }

  function WithName(before: string, bit: bool, name: string): (text: string)
    requires '|' !in before && '|' !in name
    ensures '|' !in text
  {
    if !bit then before else if before == "" then name else before + "," + name
  }

  function PointName(definition: PointDefinition): string {
    if definition.name == "" then "IOA " + Decimal(definition.address) else definition.name
  }

  function StateText(state: bool): (text: string)
    ensures '|' !in text
  {
    if state then "1" else "0"
  }
}
