/** The cache report: reads the lines of a cache file back into latest values and active alarms. */
module Report {
  import opened Text

  datatype LatestMeasure = LatestMeasure(
    timestamp: string, deviceId: string, deviceName: string, address: string, name: string, typeName: string,
    iecType: string, value: string, state: string, unit: string, quality: string)

  datatype ActiveAlarm = ActiveAlarm(
    timestamp: string, deviceId: string, deviceName: string, address: string, pointName: string, rule: string,
    severity: string, value: string, message: string)

  datatype Summary = Summary(
    records: nat, measurements: nat, alarms: nat, alarmsRaised: nat, alarmsCleared: nat,
    latestMeasures: map<string, LatestMeasure>, activeAlarms: map<string, ActiveAlarm>)

  const NOTHING := Summary(0, 0, 0, 0, 0, map[], map[])

  function WithMeasure(s: Summary, key: string, measure: LatestMeasure): Summary {
    s.(measurements := s.measurements + 1, latestMeasures := s.latestMeasures[key := measure])
  }

  function WithAlarm(s: Summary, key: string, state: string, alarm: ActiveAlarm): Summary {
    if state == "RAISED" then
      s.(alarms := s.alarms + 1, alarmsRaised := s.alarmsRaised + 1, activeAlarms := s.activeAlarms[key := alarm])
    else if state == "CLEARED" then
      s.(alarms := s.alarms + 1, alarmsCleared := s.alarmsCleared + 1, activeAlarms := s.activeAlarms - {key})
    else s.(alarms := s.alarms + 1)
  }

  /** What one line with enough fields adds, in the current or in the older format without a device. */
  function Consume(s: Summary, f: seq<string>): Summary
    requires |f| >= 3
  {
    var counted := s.(records := s.records + 1);
    if f[1] == "MEASURE" && |f| >= 12 then
      WithMeasure(counted, f[2] + ":" + f[4],
                  LatestMeasure(f[0], f[2], f[3], f[4], f[5], f[6], f[7], f[8], f[9], f[10], f[11]))
    else if f[1] == "MEASURE" && |f| >= 10 then
      WithMeasure(counted, "legacy:" + f[2],
                  LatestMeasure(f[0], "legacy", "legacy", f[2], f[3], f[4], f[5], f[6], f[7], f[8], f[9]))
    else if f[1] == "ALARM" && |f| >= 11 then
      WithAlarm(counted, f[2] + ":" + f[4] + ":" + f[6], f[8],
                ActiveAlarm(f[0], f[2], f[3], f[4], f[5], f[6], f[7], f[9], f[10]))
    else if f[1] == "ALARM" && |f| >= 9 then
      WithAlarm(counted, "legacy:" + f[2] + ":" + f[4], f[6],
                ActiveAlarm(f[0], "legacy", "legacy", f[2], f[3], f[4], f[5], f[7], f[8]))
    else counted
  }

  function ConsumeLine(s: Summary, line: string): Summary {
    var fields := Split(line, '|');
    if line == "" || |fields| < 3 then s else Consume(s, fields)
  }

  function Replay(s: Summary, lines: seq<string>): Summary
    decreases |lines|
  {
    if lines == [] then s else Replay(ConsumeLine(s, lines[0]), lines[1..])
  }

  method ReadReport(lines: seq<string>) returns (report: Summary)
    ensures report == Replay(NOTHING, lines)
  {
    hide Consume;
    report := NOTHING;
    var index := 0;
    while index < |lines|
      invariant 0 <= index <= |lines|
      invariant Replay(report, lines[index..]) == Replay(NOTHING, lines)
    {
      var line := lines[index];
      assert lines[index..][0] == line && lines[index..][1..] == lines[index + 1..];
      index := index + 1;
      if line == "" {
        continue;
      }
      var fields := SplitLine(line, '|');
      if |fields| < 3 {
        continue;
      }
      report := ReadRecord(report, fields);
    }
  }

  method ReadRecord(report: Summary, fields: seq<string>) returns (next: Summary)
    requires |fields| >= 3
    ensures next == Consume(report, fields)
  {
    next := report.(records := report.records + 1);
    var kind := fields[1];
    if kind == "MEASURE" && |fields| >= 12 {
      next := next.(measurements := next.measurements + 1);
      var key := fields[2] + ":" + fields[4];
      next := next.(latestMeasures := next.latestMeasures[key := LatestMeasure(
        fields[0], fields[2], fields[3], fields[4], fields[5], fields[6], fields[7], fields[8], fields[9], fields[10],
        fields[11])]);
    } else if kind == "MEASURE" && |fields| >= 10 {
      next := next.(measurements := next.measurements + 1);
      var key := "legacy:" + fields[2];
      next := next.(latestMeasures := next.latestMeasures[key := LatestMeasure(
        fields[0], "legacy", "legacy", fields[2], fields[3], fields[4], fields[5], fields[6], fields[7], fields[8],
        fields[9])]);
    } else if kind == "ALARM" && |fields| >= 11 {
      var key := fields[2] + ":" + fields[4] + ":" + fields[6];
      next := ReadAlarm(next, key, fields[8], ActiveAlarm(
        fields[0], fields[2], fields[3], fields[4], fields[5], fields[6], fields[7], fields[9], fields[10]));
    } else if kind == "ALARM" && |fields| >= 9 {
      var key := "legacy:" + fields[2] + ":" + fields[4];
      next := ReadAlarm(next, key, fields[6], ActiveAlarm(
        fields[0], "legacy", "legacy", fields[2], fields[3], fields[4], fields[5], fields[7], fields[8]));
    }
  }

  method ReadAlarm(report: Summary, key: string, state: string, alarm: ActiveAlarm) returns (next: Summary)
    ensures next == WithAlarm(report, key, state, alarm)
  {
    next := report.(alarms := report.alarms + 1);
    if state == "RAISED" {
      next := next.(alarmsRaised := next.alarmsRaised + 1, activeAlarms := next.activeAlarms[key := alarm]);
    } else if state == "CLEARED" {
      next := next.(alarmsCleared := next.alarmsCleared + 1, activeAlarms := next.activeAlarms - {key});
    }
  }
}
