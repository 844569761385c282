/** The window and the file of the cache: what is kept of all that was ever appended, and that lines can be read back.
    */
module CacheProperties {
  import opened Wrappers
  import opened Text
  import opened Points
  import opened Cache

  ghost predicate IsSuffix<T>(part: seq<T>, whole: seq<T>) {
    |part| <= |whole| && part == whole[|whole| - |part|..]
  }

  // ------------------------------------------------------------------ the file

  /** The file after a series of appends, each with its own flush timing. */
  function AppendAll(file: seq<string>, lines: seq<string>, visible: seq<bool>, maxRecords: nat): seq<string>
    requires |visible| == |lines|
    decreases |lines|
  {
    if lines == [] then file
    else AppendAll(AppendLine(file, lines[0], maxRecords, visible[0]), lines[1..], visible[1..], maxRecords)
  }

  /** One append keeps the file a suffix of the history, long enough and, from then on, short enough. */
  lemma AppendKeepsSuffix(file: seq<string>, history: seq<string>, line: string, maxRecords: nat, visible: bool)
    requires IsSuffix(file, history) && |file| >= Min(|history|, maxRecords)
    ensures var after := AppendLine(file, line, maxRecords, visible);
            && IsSuffix(after, history + [line])
            && Min(|history| + 1, maxRecords) <= |after| <= maxRecords + 1
            && (|history| < maxRecords ==> after == history + [line])
            && (after != [] || maxRecords == 0)
  {
    var after := AppendLine(file, line, maxRecords, visible);
    var whole := history + [line];
    assert whole[|whole| - |after|..] == after;
  }

  /** A line that was just appended ends the file in every order of flush and trim exactly if the limit is not zero. */
  lemma NewestLineKept(file: seq<string>, line: string, maxRecords: nat)
    ensures (forall visible ::
              var after := AppendLine(file, line, maxRecords, visible); after != [] && after[|after| - 1] == line)
            <==> maxRecords > 0
  {
    assert AppendLine(file, line, maxRecords, true) == LastOf(file + [line], maxRecords);
  }

  /** After any appends the file is a suffix of the whole history, of at least min(n, M) and at most M + 1 lines. */
  lemma {:induction false} FileIsSuffix(file: seq<string>, history: seq<string>, lines: seq<string>, visible: seq<bool>,
                                        maxRecords: nat)
    requires |visible| == |lines|
    requires IsSuffix(file, history) && |file| >= Min(|history|, maxRecords)
    ensures var after := AppendAll(file, lines, visible, maxRecords);
            && IsSuffix(after, history + lines)
            && |after| >= Min(|history| + |lines|, maxRecords)
            && (lines != [] ==> |after| <= maxRecords + 1)
            && (file == history && |history| + |lines| <= maxRecords ==> after == history + lines)
    decreases |lines|
  {
    hide AppendLine, IsSuffix;
    if lines == [] {
      assert history + lines == history;
    } else {
      AppendKeepsSuffix(file, history, lines[0], maxRecords, visible[0]);
      FileIsSuffix(AppendLine(file, lines[0], maxRecords, visible[0]), history + [lines[0]], lines[1..], visible[1..],
                   maxRecords);
      assert history + [lines[0]] + lines[1..] == history + lines;
    }
  }

  // ---------------------------------------------------------------- the window

  lemma LastOfPush<T>(s: seq<T>, x: T, count: nat)
    ensures LastOf(LastOf(s, count) + [x], count) == LastOf(s + [x], count)
  {
    var l, r := LastOf(LastOf(s, count) + [x], count), LastOf(s + [x], count);
    assert |l| == |r|;
    forall i | 0 <= i < |l| ensures l[i] == r[i] {
    }
  }

  lemma LastOfLast<T>(s: seq<T>, outer: nat, inner: nat)
    ensures LastOf(LastOf(s, inner), outer) == LastOf(s, Min(outer, inner))
  {
  }

  // ------------------------------------------------------------------ the lines

  ghost predicate Clear(field: string) {
    '|' !in field
  }

  lemma ClearTexts(address: int)
    ensures Clear(Decimal(address)) && Clear("MEASURE") && Clear("BUSINESS") && Clear("ALARM") && Clear("RAISED")
            && Clear("CLEARED")
  {
    DecimalCharacters(address);
  }

  lemma MeasureIsClear(formatter: Formatter, snapshot: Snapshot)
    requires BarFree(formatter)
    ensures Fields(MeasureFields(formatter, snapshot), '|')
  {
    ClearTexts(snapshot.address);
    hide Clean, Decimal, QualityText, PointTypeName, StateText;
  }

  lemma BusinessIsClear(formatter: Formatter, record: BusinessRecord)
    requires BarFree(formatter)
    ensures Fields(BusinessFields(formatter, record), '|')
  {
    ClearTexts(record.snapshot.address);
    hide Clean, Decimal, QualityText, BusinessTypeName;
  }

  lemma AlarmIsClear(formatter: Formatter, event: AlarmEvent)
    requires BarFree(formatter)
    ensures Fields(AlarmFields(formatter, event), '|')
  {
    ClearTexts(event.address);
    hide Clean, Decimal, RuleName, SeverityName;
  }

  lemma FieldsAreBarFree(formatter: Formatter, entry: Entry)
    requires BarFree(formatter)
    ensures Fields(FieldsOf(formatter, entry), '|')
  {
    hide MeasureFields, BusinessFields, AlarmFields;
    match entry
    case Measure(snapshot) => MeasureIsClear(formatter, snapshot);
    case Business(record) => BusinessIsClear(formatter, record);
    case Alarm(event) => AlarmIsClear(formatter, event);
  }

  /** Splitting any emitted line gives back exactly its cleaned fields: 12 for a measurement, 10 for a business
      record, 11 for an alarm. */
  lemma LineRoundTrip(formatter: Formatter, entry: Entry)
    requires BarFree(formatter)
    ensures Split(Render(formatter, entry), '|') == FieldsOf(formatter, entry)
    ensures |FieldsOf(formatter, entry)|
            == (match entry case Measure(_) => 12 case Business(_) => 10 case Alarm(_) => 11)
    ensures Render(formatter, entry) != ""
  {
    FieldsAreBarFree(formatter, entry);
    hide FieldsOf;
    FieldCount(formatter, entry);
    SplitOfJoin(FieldsOf(formatter, entry), '|');
    assert Split("", '|') == [""];
  }

  lemma FieldCount(formatter: Formatter, entry: Entry)
    ensures |FieldsOf(formatter, entry)|
            == (match entry case Measure(_) => 12 case Business(_) => 10 case Alarm(_) => 11)
  {
  }
}
