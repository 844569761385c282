/**
 The local cache: latest values, a window of recent business records, and a trimmed
 append-only file of text lines.
 */
module Cache {
  import opened Wrappers
  import opened Text
  import opened Points

  // ----------------------------------------------------------------- log lines

  datatype Entry = Measure(snapshot: Snapshot) | Business(record: BusinessRecord) | Alarm(event: AlarmEvent)

  function MeasureFields(formatter: Formatter, snapshot: Snapshot): seq<string> {
    [formatter.time(snapshot.timestamp), "MEASURE", Clean(snapshot.deviceId), Clean(snapshot.deviceName),
     Decimal(snapshot.address), Clean(snapshot.name), PointTypeName(snapshot.pointType), Clean(snapshot.iecType),
     formatter.number(snapshot.value), StateText(snapshot.state), Clean(snapshot.unit), QualityText(snapshot.quality)]
  }

  function BusinessFields(formatter: Formatter, record: BusinessRecord): seq<string> {
    [formatter.time(record.snapshot.timestamp), "BUSINESS", Clean(record.snapshot.deviceId),
     Clean(record.snapshot.deviceName), BusinessTypeName(record.businessType), Decimal(record.snapshot.address),
     Clean(record.snapshot.name), Clean(record.displayValue), Clean(record.snapshot.unit),
     QualityText(record.snapshot.quality)]
  }

  function AlarmFields(formatter: Formatter, event: AlarmEvent): seq<string> {
    [formatter.time(event.timestamp), "ALARM", Clean(event.deviceId), Clean(event.deviceName), Decimal(event.address),
     Clean(event.pointName), Clean(RuleName(event.rule)), SeverityName(event.severity),
     if event.active then "RAISED" else "CLEARED", formatter.number(event.value), Clean(event.message)]
  }

  function FieldsOf(formatter: Formatter, entry: Entry): seq<string> {
    match entry
    case Measure(snapshot) => MeasureFields(formatter, snapshot)
    case Business(record) => BusinessFields(formatter, record)
    case Alarm(event) => AlarmFields(formatter, event)
  }

  function Render(formatter: Formatter, entry: Entry): string {
    Join(FieldsOf(formatter, entry), '|')
  }

  function RenderAll(formatter: Formatter, entries: seq<Entry>): seq<string> {
    seq(|entries|, i requires 0 <= i < |entries| => Render(formatter, entries[i]))
  }

  // ------------------------------------------------------------ cache operations

  datatype CacheState = CacheState(file: seq<string>, latest: map<string, Snapshot>, recent: seq<BusinessRecord>)

  /** The steps of the cache that happen under its lock, one at a time. */
  datatype Op = Remember(record: BusinessRecord) | Latest(snapshot: Snapshot) | Write(entry: Entry)

  function LastOf<T>(s: seq<T>, count: nat): seq<T> {
    if |s| <= count then s else s[|s| - count..]
  }

  /**
   Appending one line.  The trim runs while the new line may still sit in the stream's buffer; whether it has
   already reached the file is decided by visible.
   */
  function AppendLine(file: seq<string>, line: string, maxRecords: nat, visible: bool): seq<string> {
    if visible then LastOf(file + [line], maxRecords) else LastOf(file, maxRecords) + [line]
  }

  function Apply(formatter: Formatter, maxRecords: nat, c: CacheState, op: Op, visible: bool): CacheState {
    match op
    case Remember(record) =>
      c.(latest := c.latest[PointKey(record.snapshot.deviceId, record.snapshot.address) := record.snapshot],
         recent := LastOf(c.recent + [record], maxRecords))
    case Latest(snapshot) => c.(latest := c.latest[PointKey(snapshot.deviceId, snapshot.address) := snapshot])
    case Write(entry) => c.(file := AppendLine(c.file, Render(formatter, entry), maxRecords, visible))
  }

  class DataCache {
    const formatter: Formatter
    var maxRecords: nat
    var file: seq<string>
    var latest: map<string, Snapshot>
    var recentBusiness: seq<BusinessRecord>

    ghost function Contents(): CacheState
      reads this
    {
      CacheState(file, latest, recentBusiness)
    }

    constructor (formatter: Formatter, file: seq<string>)
      ensures Contents() == CacheState(file, map[], []) && this.formatter == formatter && maxRecords == 10000
    {
      this.formatter, this.file, latest, recentBusiness, maxRecords := formatter, file, map[], [], 10000;
    }

    /** The limit is what was asked for, but never zero: the newest line must survive its own trim. */
    method Configure(limit: nat)
      modifies this`maxRecords
      ensures maxRecords > 0 && (limit > 0 ==> maxRecords == limit) && (limit == 0 ==> maxRecords == 10000)
    {
      maxRecords := if limit == 0 then 10000 else limit;
    }

    /** Reads the whole file and, if it is too long, writes back its last maxRecords lines. */
    method TrimIfNeeded()
      modifies this`file
      ensures file == LastOf(old(file), maxRecords)
    {
      var lines: seq<string> := [];
      for i := 0 to |file|
        invariant lines == file[..i]
      {
        lines := lines + [file[i]];
      }
      if |lines| <= maxRecords {
        return;
      }
      var first := |lines| - maxRecords;
      file := [];
      for i := first to |lines|
        invariant file == lines[first..i]
      {
        file := file + [lines[i]];
      }
    }

    /** The output stream is still open while the file is trimmed; its buffer reaches the file before or after. */
    method AppendText(line: string, visible: bool)
      modifies this`file
      ensures file == AppendLine(old(file), line, maxRecords, visible)
    {
      var buffer := [line];
      if visible {
        file := file + buffer;
        buffer := [];
      }
      TrimIfNeeded();
      file := file + buffer;
    }

    method AppendMeasurement(snapshot: Snapshot, visible: bool)
      modifies this`latest, this`file
      ensures Contents() == Apply(formatter, maxRecords,
                                  Apply(formatter, maxRecords, old(Contents()), Latest(snapshot), visible),
                                  Write(Measure(snapshot)), visible)
    {
      latest := latest[PointKey(snapshot.deviceId, snapshot.address) := snapshot];
      AppendText(Render(formatter, Measure(snapshot)), visible);
    }

    /** The record goes to the end of the window; what is too much falls off its front. */
    method Remember(record: BusinessRecord)
      modifies this`recentBusiness
      ensures recentBusiness == LastOf(old(recentBusiness) + [record], maxRecords)
      ensures var before, n := old(recentBusiness), |old(recentBusiness)|;
              recentBusiness == if n + 1 <= maxRecords then before + [record]
                                else if maxRecords == 0 then [] else before[n + 1 - maxRecords..] + [record]
    {
      recentBusiness := recentBusiness + [record];
      if |recentBusiness| > maxRecords {
        var first := |recentBusiness| - maxRecords;
        recentBusiness := recentBusiness[first..];
      }
    }

    method AppendBusinessData(record: BusinessRecord, visible: bool)
      modifies this`latest, this`recentBusiness, this`file
      ensures Contents() == Apply(formatter, maxRecords,
                                  Apply(formatter, maxRecords, old(Contents()), Op.Remember(record), visible),
                                  Write(Business(record)), visible)
      ensures maxRecords > 0 ==> recentBusiness != [] && recentBusiness[|recentBusiness| - 1] == record
    {
      hide LastOf, AppendLine, Render;
      latest := latest[PointKey(record.snapshot.deviceId, record.snapshot.address) := record.snapshot];
      Remember(record);
      AppendText(Render(formatter, Business(record)), visible);
    }

    method AppendAlarm(event: AlarmEvent, visible: bool)
      modifies this`file
      ensures Contents() == Apply(formatter, maxRecords, old(Contents()), Write(Alarm(event)), visible)
    {
      AppendText(Render(formatter, Alarm(event)), visible);
    }

    method LatestMeasurement(deviceId: string, address: int) returns (result: Option<Snapshot>)
      ensures result == if PointKey(deviceId, address) in latest then Some(latest[PointKey(deviceId, address)])
                        else None
    {
      var key := PointKey(deviceId, address);
      if key !in latest {
        return None;
      }
      return Some(latest[key]);
    }

    method RecentBusinessData(limit: nat) returns (records: seq<BusinessRecord>)
      ensures records == LastOf(recentBusiness, limit)
    {
      if limit == 0 || recentBusiness == [] {
        return [];
      }
      var count := Min(limit, |recentBusiness|);
      return recentBusiness[|recentBusiness| - count..];
    }
  }
}
