/**
 What the report says about any file, told on the fields of its lines: its counters are numbers of lines, and what it
 lists is decided by the last line about a key.  And the text of the lines the cache writes, in full.
 */
module ReportOfFile {
  import opened Frame
  import opened Text
  import opened Points
  import opened Cache
  import opened Report

  // ------------------------------------------------------------- kinds of lines

  ghost function Fields(line: string): seq<string> {
    Split(line, '|')
  }

  /** At least three fields; the empty line has one. */
  ghost predicate Recorded(line: string) {
    |Fields(line)| >= 3
  }

  ghost predicate Measured(line: string) {
    |Fields(line)| >= 10 && Fields(line)[1] == "MEASURE"
  }

  ghost predicate Alarmed(line: string) {
    |Fields(line)| >= 9 && Fields(line)[1] == "ALARM"
  }

  /** The state an alarm line reports, two fields earlier in the older format. */
  ghost predicate Reports(line: string, state: string) {
    var f := Fields(line);
    Alarmed(line) && (if |f| >= 11 then f[8] else f[6]) == state
  }

  /** The point and rule an alarm line is about, with the word legacy for a device in the older format. */
  ghost predicate About(line: string, key: string) {
    var f := Fields(line);
    Alarmed(line) && key == if |f| >= 11 then f[2] + ":" + f[4] + ":" + f[6] else "legacy:" + f[2] + ":" + f[4]
  }

  ghost predicate Measures(line: string, key: string) {
    var f := Fields(line);
    Measured(line) && key == if |f| >= 12 then f[2] + ":" + f[4] else "legacy:" + f[2]
  }

  /** The columns of an alarm line, in both formats. */
  ghost predicate ShowsAlarm(line: string, a: ActiveAlarm) {
    var f := Fields(line);
    && Alarmed(line) && a.timestamp == f[0]
    && (if |f| >= 11 then
          && a.deviceId == f[2] && a.deviceName == f[3] && a.address == f[4] && a.pointName == f[5] && a.rule == f[6]
          && a.severity == f[7] && a.value == f[9] && a.message == f[10]
        else
          && a.deviceId == "legacy" && a.deviceName == "legacy" && a.address == f[2] && a.pointName == f[3]
          && a.rule == f[4] && a.severity == f[5] && a.value == f[7] && a.message == f[8])
  }

  /** The columns of a measurement, in both formats. */
  ghost predicate ShowsMeasure(line: string, m: LatestMeasure) {
    var f := Fields(line);
    && Measured(line) && m.timestamp == f[0]
    && (if |f| >= 12 then
          && m.deviceId == f[2] && m.deviceName == f[3] && m.address == f[4] && m.name == f[5] && m.typeName == f[6]
          && m.iecType == f[7] && m.value == f[8] && m.state == f[9] && m.unit == f[10] && m.quality == f[11]
        else
          && m.deviceId == "legacy" && m.deviceName == "legacy" && m.address == f[2] && m.name == f[3]
          && m.typeName == f[4] && m.iecType == f[5] && m.value == f[6] && m.state == f[7] && m.unit == f[8]
          && m.quality == f[9])
  }

  // ------------------------------------------------------------- counting lines

  ghost function Lines(lines: seq<string>, kind: string -> bool): set<nat> {
    set i | 0 <= i < |lines| && kind(lines[i])
  }

  ghost predicate Counted(s: Summary, lines: seq<string>) {
    && s.records == |Lines(lines, Recorded)|
    && s.measurements == |Lines(lines, Measured)|
    && s.alarms == |Lines(lines, Alarmed)|
    && s.alarmsRaised == |Lines(lines, (line: string) => Reports(line, "RAISED"))|
    && s.alarmsCleared == |Lines(lines, (line: string) => Reports(line, "CLEARED"))|
  }

  lemma LinesPush(lines: seq<string>, line: string, kind: string -> bool)
    ensures |Lines(lines + [line], kind)| == |Lines(lines, kind)| + if kind(line) then 1 else 0
  {
    var more := lines + [line];
    assert Lines(more, kind) == Lines(lines, kind) + if kind(line) then {|lines|} else {};
  }

  lemma NoLines(kind: string -> bool)
    ensures |Lines([], kind)| == 0
  {
    assert Lines([], kind) == {};
  }

  lemma {:induction false} ReplayPush(s: Summary, lines: seq<string>, line: string)
    ensures Replay(s, lines + [line]) == ConsumeLine(Replay(s, lines), line)
    decreases |lines|
  {
    hide ConsumeLine;
    if lines == [] {
      assert lines + [line] == [line] && [line][1..] == [];
    } else {
      assert (lines + [line])[0] == lines[0] && (lines + [line])[1..] == lines[1..] + [line];
      ReplayPush(ConsumeLine(s, lines[0]), lines[1..], line);
    }
  }

  lemma StatesDiffer()
    ensures "RAISED" != "CLEARED" && "MEASURE" != "ALARM"
  {
    assert "RAISED"[0] == 'R' && "CLEARED"[0] == 'C' && "MEASURE"[0] == 'M' && "ALARM"[0] == 'A';
  }

  lemma LineCounts(s: Summary, line: string)
    ensures var t := ConsumeLine(s, line);
            && t.records == s.records + (if Recorded(line) then 1 else 0)
            && t.measurements == s.measurements + (if Measured(line) then 1 else 0)
            && t.alarms == s.alarms + (if Alarmed(line) then 1 else 0)
            && t.alarmsRaised == s.alarmsRaised + (if Reports(line, "RAISED") then 1 else 0)
            && t.alarmsCleared == s.alarmsCleared + (if Reports(line, "CLEARED") then 1 else 0)
  {
    EmptyLine();
    hide Split;
    StatesDiffer();
  }

  lemma EmptyLine()
    ensures Fields("") == [""]
  {
  }

  /** Every counter of the report is the number of lines it speaks of. */
  lemma {:induction false} ReportCounts(lines: seq<string>)
    ensures Counted(Replay(NOTHING, lines), lines)
    decreases |lines|
  {
    hide ConsumeLine, Recorded, Measured, Alarmed, Reports, Lines;
    var raised, cleared := (line: string) => Reports(line, "RAISED"), (line: string) => Reports(line, "CLEARED");
    if lines == [] {
      NoLines(Recorded);
      NoLines(Measured);
      NoLines(Alarmed);
      NoLines(raised);
      NoLines(cleared);
    } else {
      var before, line := lines[..|lines| - 1], lines[|lines| - 1];
      assert lines == before + [line];
      ReportCounts(before);
      ReplayPush(NOTHING, before, line);
      LineCounts(Replay(NOTHING, before), line);
      LinesPush(before, line, Recorded);
      LinesPush(before, line, Measured);
      LinesPush(before, line, Alarmed);
      LinesPush(before, line, raised);
      LinesPush(before, line, cleared);
    }
  }

  // ------------------------------------------------------------ the last line wins

  /** Line i decides about key: it says one of the two words, and no later line about the key does. */
  ghost predicate Decides(lines: seq<string>, i: nat, key: string, state: string) {
    && i < |lines| && About(lines[i], key) && Reports(lines[i], state)
    && forall j :: i < j < |lines| && About(lines[j], key) ==>
                     !Reports(lines[j], "RAISED") && !Reports(lines[j], "CLEARED")
  }

  lemma LineDecides(s: Summary, line: string, key: string)
    ensures var t := ConsumeLine(s, line);
            if About(line, key) && Reports(line, "RAISED") then
              key in t.activeAlarms && ShowsAlarm(line, t.activeAlarms[key])
            else if About(line, key) && Reports(line, "CLEARED") then key !in t.activeAlarms
            else (key in t.activeAlarms <==> key in s.activeAlarms)
                 && (key in s.activeAlarms ==> t.activeAlarms[key] == s.activeAlarms[key])
  {
    EmptyLine();
    hide Split;
    StatesDiffer();
  }

  ghost predicate Listed(s: Summary, lines: seq<string>, key: string) {
    && (key in s.activeAlarms <==> exists i: nat :: Decides(lines, i, key, "RAISED"))
    && (forall i: nat :: Decides(lines, i, key, "RAISED") && key in s.activeAlarms ==>
                      ShowsAlarm(lines[i], s.activeAlarms[key]))
  }

  lemma DecidesPush(lines: seq<string>, line: string, i: nat, key: string)
    ensures var told := About(line, key) && (Reports(line, "RAISED") || Reports(line, "CLEARED"));
            Decides(lines + [line], i, key, "RAISED") <==>
            if told then i == |lines| && Reports(line, "RAISED") else Decides(lines, i, key, "RAISED")
  {
    hide About, Reports;
    var more := lines + [line];
    assert more[|lines|] == line;
    assert forall j :: 0 <= j < |lines| ==> more[j] == lines[j];
  }

  /**
   Of any file, the report lists a key exactly if the last line about it that says RAISED or CLEARED says RAISED, and
   shows the columns of that line.
   */
  lemma {:induction false} ReportLists(lines: seq<string>, key: string)
    ensures Listed(Replay(NOTHING, lines), lines, key)
    decreases |lines|
  {
    hide ConsumeLine, About, Reports, ShowsAlarm, Decides;
    if lines == [] {
      forall i: nat ensures !Decides(lines, i, key, "RAISED") { NothingDecides(i, key); }
    } else {
      var before, line := lines[..|lines| - 1], lines[|lines| - 1];
      assert lines == before + [line];
      ReportLists(before, key);
      ReplayPush(NOTHING, before, line);
      ListedPush(Replay(NOTHING, before), before, line, key);
    }
  }

  lemma NothingDecides(i: nat, key: string)
    ensures !Decides([], i, key, "RAISED")
  {
  }

  lemma ListedPush(s: Summary, before: seq<string>, line: string, key: string)
    requires Listed(s, before, key)
    ensures Listed(ConsumeLine(s, line), before + [line], key)
  {
    var more := before + [line];
    var t := ConsumeLine(s, line);
    LineDecides(s, line, key);
    forall i: nat
      ensures var told := About(line, key) && (Reports(line, "RAISED") || Reports(line, "CLEARED"));
              Decides(more, i, key, "RAISED") <==>
              if told then i == |before| && Reports(line, "RAISED") else Decides(before, i, key, "RAISED")
    {
      DecidesPush(before, line, i, key);
    }
    forall i: nat ensures Decides(before, i, key, "RAISED") ==> i < |before| {
    }
    hide ConsumeLine, About, Reports, ShowsAlarm, Decides;
    assert more[|before|] == line && forall j :: 0 <= j < |before| ==> more[j] == before[j];
    if About(line, key) && Reports(line, "RAISED") {
      assert Decides(more, |before|, key, "RAISED");
    } else if key in t.activeAlarms {
      var i: nat :| Decides(before, i, key, "RAISED");
      assert Decides(more, i, key, "RAISED");
    }
  }

  ghost predicate LastMeasures(lines: seq<string>, i: nat, key: string) {
    && i < |lines| && Measures(lines[i], key)
    && forall j :: i < j < |lines| ==> !Measures(lines[j], key)
  }

  ghost predicate Tabled(s: Summary, lines: seq<string>, key: string) {
    && (key in s.latestMeasures <==> exists i: nat :: LastMeasures(lines, i, key))
    && (forall i: nat :: LastMeasures(lines, i, key) && key in s.latestMeasures ==>
                           ShowsMeasure(lines[i], s.latestMeasures[key]))
  }

  lemma LineTables(s: Summary, line: string, key: string)
    ensures var t := ConsumeLine(s, line);
            if Measures(line, key) then key in t.latestMeasures && ShowsMeasure(line, t.latestMeasures[key])
            else (key in t.latestMeasures <==> key in s.latestMeasures)
                 && (key in s.latestMeasures ==> t.latestMeasures[key] == s.latestMeasures[key])
  {
    EmptyLine();
    hide Split;
    StatesDiffer();
  }

  lemma LastMeasuresPush(lines: seq<string>, line: string, i: nat, key: string)
    ensures LastMeasures(lines + [line], i, key) <==>
            if Measures(line, key) then i == |lines| else LastMeasures(lines, i, key)
  {
    hide Measures;
    var more := lines + [line];
    assert more[|lines|] == line;
    assert forall j :: 0 <= j < |lines| ==> more[j] == lines[j];
  }

  lemma TabledPush(s: Summary, before: seq<string>, line: string, key: string)
    requires Tabled(s, before, key)
    ensures Tabled(ConsumeLine(s, line), before + [line], key)
  {
    var more, t := before + [line], ConsumeLine(s, line);
    LineTables(s, line, key);
    forall i: nat
      ensures LastMeasures(more, i, key) <==>
              if Measures(line, key) then i == |before| else LastMeasures(before, i, key)
    {
      LastMeasuresPush(before, line, i, key);
    }
    forall i: nat ensures LastMeasures(before, i, key) ==> i < |before| {
    }
    hide ConsumeLine, Measures, ShowsMeasure, LastMeasures;
    assert more[|before|] == line && forall j :: 0 <= j < |before| ==> more[j] == before[j];
    if Measures(line, key) {
      assert LastMeasures(more, |before|, key);
    } else if key in t.latestMeasures {
      var i: nat :| LastMeasures(before, i, key);
      assert LastMeasures(more, i, key);
    }
  }

  /** Of any file, the report shows under a key the columns of the last measurement with that key. */
  lemma {:induction false} ReportTables(lines: seq<string>, key: string)
    ensures Tabled(Replay(NOTHING, lines), lines, key)
    decreases |lines|
  {
    hide ConsumeLine, Measures, ShowsMeasure;
    if lines != [] {
      var before, line := lines[..|lines| - 1], lines[|lines| - 1];
      assert lines == before + [line];
      hide LastMeasures;
      ReportTables(before, key);
      ReplayPush(NOTHING, before, line);
      TabledPush(Replay(NOTHING, before), before, line, key);
    }
  }

  // --------------------------------------------------------- the text of a line

  /** The words the lines are written with. */
  lemma WordsWritten()
    ensures RuleName(DataQuality) == "DATA_QUALITY" && RuleName(HighHigh) == "HIGH_HIGH" && RuleName(High) == "HIGH"
    ensures RuleName(LowLow) == "LOW_LOW" && RuleName(Low) == "LOW" && RuleName(State) == "STATE"
    ensures RuleName(Stale) == "STALE"
    ensures SeverityName(Info) == "INFO" && SeverityName(Warning) == "WARNING" && SeverityName(Critical) == "CRITICAL"
    ensures PointTypeName(Analog) == "analog" && PointTypeName(Digital) == "digital"
    ensures PointTypeName(Counter) == "counter" && PointTypeName(Control) == "control"
    ensures PointTypeName(UnknownType) == "unknown"
    ensures BusinessTypeName(Telemetry) == "telemetry" && BusinessTypeName(Telesignal) == "telesignal"
    ensures BusinessTypeName(Telecontrol) == "telecontrol" && BusinessTypeName(UnknownBusiness) == "unknown"
    ensures StateText(true) == "1" && StateText(false) == "0"
  {
  }

  function SetNames(q: Quality): seq<string> {
    (if q.invalid then ["invalid"] else []) + (if q.notTopical then ["not_topical"] else [])
    + (if q.substituted then ["substituted"] else []) + (if q.blocked then ["blocked"] else [])
    + (if q.overflow then ["overflow"] else [])
  }

  lemma {:induction false} JoinPush(fields: seq<string>, last: string, delimiter: char)
    requires fields != []
    ensures Join(fields + [last], delimiter) == Join(fields, delimiter) + [delimiter] + last
    decreases |fields|
  {
    if |fields| == 1 {
      assert (fields + [last])[1..] == [last];
    } else {
      assert (fields + [last])[1..] == fields[1..] + [last];
      JoinPush(fields[1..], last, delimiter);
      var rest := Join(fields[1..], delimiter);
      assert fields[0] + [delimiter] + (rest + [delimiter] + last)
             == fields[0] + [delimiter] + rest + [delimiter] + last;
    }
  }

  lemma NameJoined(names: seq<string>, bit: bool, name: string)
    requires '|' !in Join(names, ',') && '|' !in name && name != "" && (names == [] || Join(names, ',') != "")
    ensures var more := names + if bit then [name] else [];
            && WithName(Join(names, ','), bit, name) == Join(more, ',')
            && (more == [] || Join(more, ',') != "")
  {
    if bit {
      if names == [] {
        assert names + [name] == [name];
      } else {
        JoinPush(names, name, ',');
      }
    } else {
      assert names + [] == names;
    }
  }

  /** A quality is written as the names of its bits that are set, from the most significant on, separated by commas, or
      as the word good. */
  lemma QualityWritten(q: Quality)
    ensures QualityText(q) == if SetNames(q) == [] then "good" else Join(SetNames(q), ',')
  {
    hide Join, WithName;
    var n1 := if q.invalid then ["invalid"] else [];
    var n2 := n1 + if q.notTopical then ["not_topical"] else [];
    var n3 := n2 + if q.substituted then ["substituted"] else [];
    var n4 := n3 + if q.blocked then ["blocked"] else [];
    assert [] + n1 == n1;
    NothingJoined();
    NameJoined([], q.invalid, "invalid");
    NameJoined(n1, q.notTopical, "not_topical");
    NameJoined(n2, q.substituted, "substituted");
    NameJoined(n3, q.blocked, "blocked");
    NameJoined(n4, q.overflow, "overflow");
  }

  lemma NothingJoined()
    ensures Join([], ',') == ""
  {
  }

  /** A text of fields with bars between them, one field at a time. */
  lemma JoinPrefix(fields: seq<string>, k: nat)
    requires 0 < k < |fields|
    ensures Join(fields[..k + 1], '|') == Join(fields[..k], '|') + "|" + fields[k]
  {
    hide Join;
    assert fields[..k + 1] == fields[..k] + [fields[k]];
    JoinPush(fields[..k], fields[k], '|');
  }

  lemma JoinFirst(fields: seq<string>)
    requires fields != []
    ensures Join(fields[..1], '|') == fields[0] && fields[..|fields|] == fields
  {
  }

  lemma JoinFive(f: seq<string>)
    requires |f| >= 5
    ensures Join(f[..5], '|') == f[0] + "|" + f[1] + "|" + f[2] + "|" + f[3] + "|" + f[4]
  {
    hide Join;
    JoinFirst(f);
    JoinPrefix(f, 1);
    JoinPrefix(f, 2);
    JoinPrefix(f, 3);
    JoinPrefix(f, 4);
  }

  lemma JoinTen(f: seq<string>)
    requires |f| >= 10
    ensures Join(f[..10], '|') == f[0] + "|" + f[1] + "|" + f[2] + "|" + f[3] + "|" + f[4] + "|" + f[5] + "|" + f[6]
            + "|"
                                  + f[7] + "|" + f[8] + "|" + f[9]
  {
    hide Join;
    JoinFive(f);
    JoinPrefix(f, 5);
    JoinPrefix(f, 6);
    JoinPrefix(f, 7);
    JoinPrefix(f, 8);
    JoinPrefix(f, 9);
  }

  /** The text of a line that records a measurement. */
  lemma MeasureText(formatter: Formatter, x: Snapshot)
    ensures Render(formatter, Measure(x))
         == formatter.time(x.timestamp) + "|" + "MEASURE" + "|" + Clean(x.deviceId) + "|" + Clean(x.deviceName) + "|"
            + Decimal(x.address) + "|" + Clean(x.name) + "|" + PointTypeName(x.pointType) + "|" + Clean(x.iecType) + "|"
            + formatter.number(x.value) + "|" + StateText(x.state) + "|" + Clean(x.unit) + "|" + QualityText(x.quality)
  {
    hide Join, Clean, Decimal, PointTypeName, QualityText, StateText;
    var fields := FieldsOf(formatter, Measure(x));
    JoinFirst(fields);
    JoinTen(fields);
    JoinPrefix(fields, 10);
    JoinPrefix(fields, 11);
  }

  /** The text of a line that records a business value. */
  lemma BusinessText(formatter: Formatter, r: BusinessRecord)
    ensures var x := r.snapshot;
            Render(formatter, Business(r)) ==
            formatter.time(x.timestamp) + "|" + "BUSINESS" + "|" + Clean(x.deviceId) + "|" + Clean(x.deviceName) + "|"
            + BusinessTypeName(r.businessType) + "|" + Decimal(x.address) + "|" + Clean(x.name) + "|"
            + Clean(r.displayValue) + "|" + Clean(x.unit) + "|" + QualityText(x.quality)
  {
    hide Join, Clean, Decimal, BusinessTypeName, QualityText;
    var fields := FieldsOf(formatter, Business(r));
    JoinFirst(fields);
    JoinTen(fields);
  }

  /** The text of a line that records an alarm event. */
  lemma AlarmText(formatter: Formatter, e: AlarmEvent)
    ensures Render(formatter, Alarm(e))
         == formatter.time(e.timestamp) + "|" + "ALARM" + "|" + Clean(e.deviceId) + "|" + Clean(e.deviceName) + "|"
            + Decimal(e.address) + "|" + Clean(e.pointName) + "|" + Clean(RuleName(e.rule)) + "|"
            + SeverityName(e.severity) + "|" + (if e.active then "RAISED" else "CLEARED") + "|"
            + formatter.number(e.value) + "|" + Clean(e.message)
  {
    hide Join, Clean, Decimal, RuleName, SeverityName;
    var fields := FieldsOf(formatter, Alarm(e));
    JoinFirst(fields);
    JoinTen(fields);
    JoinPrefix(fields, 10);
  }
}
