/**
 The text the program writes and reads back: decimal integers, lines of fields
 separated by a bar, and the colon-separated keys built from an identifier and a number.
 */
module Text {

  // ------------------------------------------------------------------- decimals

  function Digit(d: nat): char
    requires d < 10
  {
    ('0' as int + d) as char
  }

  function DecimalNat(n: nat): string {
    if n < 10 then [Digit(n)] else DecimalNat(n / 10) + [Digit(n % 10)]
  }

  function Decimal(n: int): string {
    if n < 0 then "-" + DecimalNat(-n) else DecimalNat(n)
  }

  predicate IsDigit(c: char) {
    '0' <= c <= '9'
  }

  lemma {:induction false} DecimalNatDigits(n: nat)
    ensures DecimalNat(n) != [] && forall c <- DecimalNat(n) :: IsDigit(c)
    decreases n
  {
    if n >= 10 {
      DecimalNatDigits(n / 10);
    }
  }

  /** A printed integer consists of digits, after a minus sign if it is negative. */
  lemma DecimalCharacters(n: int)
    ensures Decimal(n) != [] && forall c <- Decimal(n) :: IsDigit(c) || c == '-'
  {
    DecimalNatDigits(if n < 0 then -n else n);
  }

  lemma DecimalNatShape(n: nat)
    ensures if n < 10 then DecimalNat(n) == [Digit(n)]
            else && |DecimalNat(n)| >= 2 && DecimalNat(n)[|DecimalNat(n)| - 1] == Digit(n % 10)
                 && DecimalNat(n)[..|DecimalNat(n)| - 1] == DecimalNat(n / 10)
  {
    DecimalNatDigits(n / 10);
  }

  lemma {:induction false} DecimalNatInjective(a: nat, b: nat)
    requires DecimalNat(a) == DecimalNat(b)
    ensures a == b
    decreases a
  {
    DecimalNatShape(a);
    DecimalNatShape(b);
    if a >= 10 {
      DecimalNatInjective(a / 10, b / 10);
    }
  }

  lemma DecimalSign(n: int)
    ensures Decimal(n) != [] && (Decimal(n)[0] == '-' <==> n < 0)
    ensures n < 0 ==> Decimal(n)[1..] == DecimalNat(-n)
  {
    DecimalNatDigits(if n < 0 then -n else n);
    assert n >= 0 ==> Decimal(n)[0] in DecimalNat(n);
  }

  /** Different integers print differently. */
  lemma DecimalInjective(a: int, b: int)
    requires Decimal(a) == Decimal(b)
    ensures a == b
  {
    DecimalSign(a);
    DecimalSign(b);
    if a < 0 {
      DecimalNatInjective(-a, -b);
    } else {
      DecimalNatInjective(a, b);
    }
  }

  /** The number a text of decimal digits stands for. */
  ghost function NumberOf(text: string): int {
    if text == "" then 0 else NumberOf(text[..|text| - 1]) * 10 + (text[|text| - 1] as int - 48)
  }

  lemma {:induction false} DecimalNatReads(n: nat)
    ensures NumberOf(DecimalNat(n)) == n && (n > 0 ==> DecimalNat(n)[0] != '0')
    decreases n
  {
    DecimalNatShape(n);
    var text := DecimalNat(n);
    if n < 10 {
      assert text[..0] == "" && NumberOf("") == 0;
    } else {
      DecimalNatReads(n / 10);
      assert text[0] == text[..|text| - 1][0];
    }
  }

  /** A printed integer is its sign and its decimal digits, without leading zeros. */
  lemma DecimalReads(n: int)
    ensures n >= 0 ==> NumberOf(Decimal(n)) == n && (n > 0 ==> Decimal(n)[0] != '0')
    ensures n < 0 ==> Decimal(n)[0] == '-' && NumberOf(Decimal(n)[1..]) == -n && Decimal(n)[1..][0] != '0'
  {
    DecimalSign(n);
    DecimalNatDigits(if n < 0 then -n else n);
    DecimalNatReads(if n < 0 then -n else n);
  }

  // ----------------------------------------------------------------------- keys

  lemma ColonPosition(a: string, x: string)
    requires ':' !in x
    ensures var s := a + ":" + x; s[|a|] == ':' && forall k :: |a| < k < |s| ==> s[k] != ':'
  {
    var s := a + ":" + x;
    forall k | |a| < k < |s| ensures s[k] != ':' {
      assert s[k] == x[k - |a| - 1];
    }
  }

  /** The last colon decides: keys whose last parts hold no colon are equal only part by part. */
  lemma LastColon(a: string, x: string, b: string, y: string)
    requires a + ":" + x == b + ":" + y && ':' !in x && ':' !in y
    ensures a == b && x == y
  {
    var s, t := a + ":" + x, b + ":" + y;
    ColonPosition(a, x);
    ColonPosition(b, y);
    assert s[|a|] == ':' && t[|b|] == ':';
    assert |a| == |b|;
    assert s[..|a|] == a && t[..|b|] == b && s[|a| + 1..] == x && t[|b| + 1..] == y;
  }

  /** The key under which a point of a device is stored. */
  function PointKey(deviceId: string, address: int): string {
    deviceId + ":" + Decimal(address)
  }

  /** Points have different keys unless device and address agree, even when identifiers contain colons. */
  lemma PointKeyInjective(d1: string, a1: int, d2: string, a2: int)
    requires PointKey(d1, a1) == PointKey(d2, a2)
    ensures d1 == d2 && a1 == a2
  {
    DecimalCharacters(a1);
    DecimalCharacters(a2);
    LastColon(d1, Decimal(a1), d2, Decimal(a2));
    DecimalInjective(a1, a2);
  }

  // ---------------------------------------------------------------------- fields

  function Join(fields: seq<string>, delimiter: char): string {
    if fields == [] then ""
    else if |fields| == 1 then fields[0]
    else fields[0] + [delimiter] + Join(fields[1..], delimiter)
  }

  /** The fields of a line of which current has been read already. */
  function SplitFrom(current: string, rest: string, delimiter: char): seq<string>
    decreases |rest|
  {
    if rest == "" then [current]
    else if rest[0] == delimiter then [current] + SplitFrom("", rest[1..], delimiter)
    else SplitFrom(current + [rest[0]], rest[1..], delimiter)
  }

  function Split(line: string, delimiter: char): seq<string> {
    SplitFrom("", line, delimiter)
  }

  method SplitLine(line: string, delimiter: char) returns (fields: seq<string>)
    ensures fields == Split(line, delimiter)
  {
    fields := [];
    var current := "";
    for index := 0 to |line|
      invariant fields + SplitFrom(current, line[index..], delimiter) == Split(line, delimiter)
    {
      assert line[index..][1..] == line[index + 1..];
      if line[index] == delimiter {
        fields := fields + [current];
        current := "";
      } else {
        current := current + [line[index]];
      }
    }
    fields := fields + [current];
  }

  ghost predicate Fields(fields: seq<string>, delimiter: char) {
    forall f <- fields :: delimiter !in f
  }

  lemma {:induction false} SplitField(current: string, field: string, rest: string, delimiter: char)
    requires delimiter !in field
    ensures SplitFrom(current, field + rest, delimiter) == SplitFrom(current + field, rest, delimiter)
    decreases |field|
  {
    if field == "" {
      assert field + rest == rest && current + field == current;
    } else {
      assert (field + rest)[1..] == field[1..] + rest && current + field == current + [field[0]] + field[1..];
      SplitField(current + [field[0]], field[1..], rest, delimiter);
    }
  }

  /** Splitting a joined line gives back the fields that were joined. */
  lemma {:induction false} SplitOfJoin(fields: seq<string>, delimiter: char)
    requires fields != [] && Fields(fields, delimiter)
    ensures Split(Join(fields, delimiter), delimiter) == fields
    decreases |fields|
  {
    if |fields| == 1 {
      assert fields[0] + "" == fields[0] && "" + fields[0] == fields[0];
      SplitField("", fields[0], "", delimiter);
    } else {
      var rest := Join(fields[1..], delimiter);
      SplitField("", fields[0], [delimiter] + rest, delimiter);
      assert "" + fields[0] == fields[0];
      assert fields[0] + [delimiter] + rest == fields[0] + ([delimiter] + rest);
      SplitOfJoin(fields[1..], delimiter);
      assert ([delimiter] + rest)[1..] == rest;
    }
  }

  lemma {:induction false} JoinOfSplitFrom(current: string, rest: string, delimiter: char)
    requires delimiter !in current
    ensures var fields := SplitFrom(current, rest, delimiter);
            fields != [] && Fields(fields, delimiter) && Join(fields, delimiter) == current + rest
    decreases |rest|
  {
    if rest != "" && rest[0] == delimiter {
      JoinOfSplitFrom("", rest[1..], delimiter);
      var tail := SplitFrom("", rest[1..], delimiter);
      assert ([current] + tail)[1..] == tail;
      assert current + [delimiter] + ("" + rest[1..]) == current + rest;
    } else if rest != "" {
      JoinOfSplitFrom(current + [rest[0]], rest[1..], delimiter);
      assert current + [rest[0]] + rest[1..] == current + rest;
    } else {
      assert current + rest == current;
    }
  }

  /** Any line is the join of its fields, and no field holds the delimiter. */
  lemma JoinOfSplit(line: string, delimiter: char)
    ensures var fields := Split(line, delimiter);
            fields != [] && Fields(fields, delimiter) && Join(fields, delimiter) == line
  {
    JoinOfSplitFrom("", line, delimiter);
    assert "" + line == line;
  }

  /** A field value with its bars replaced, so that it cannot end a field. */
  function Clean(value: string): (cleaned: string)
    ensures |cleaned| == |value| && forall k :: 0 <= k < |value| ==> cleaned[k] == if value[k] == '|' then
                                                                       '/' else value[k]
    ensures '|' !in cleaned && ('|' !in value ==> cleaned == value)
  {
    if value == "" then "" else [if value[0] == '|' then '/' else value[0]] + Clean(value[1..])
  }

  function Lower(value: string): (lowered: string)
    ensures |lowered| == |value|
    ensures forall k :: 0 <= k < |value| ==>
              lowered[k] == if 'A' <= value[k] <= 'Z' then (value[k] as int + 32) as char else value[k]
  {
    if value == "" then ""
    else [if 'A' <= value[0] <= 'Z' then (value[0] as int + 32) as char else value[0]] + Lower(value[1..])
  }
}
