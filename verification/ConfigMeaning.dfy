/**
 What a line of a configuration file means, told on its characters: which text is its key and its value, which field of
 which entity the key names, and what the loaded configuration then holds.
 */
module ConfigMeaning {
  import opened Wrappers
  import opened Text
  import opened Configuration

  // ------------------------------------------------------------------ blanks

  predicate Blanks(text: string) {
    forall c <- text :: c as int == 32 || 9 <= c as int <= 13
  }

  /** Begins and ends with something other than a blank, or is empty. */
  predicate Tight(text: string) {
    text != "" ==> !Blanks(text[..1]) && !Blanks(text[|text| - 1..])
  }

  lemma SpaceIsBlank(c: char)
    ensures IsSpace(c) <==> Blanks([c])
  {
    assert c in [c];
  }

  lemma {:induction false} TrimLeftSplits(text: string) returns (a: string)
    ensures text == a + TrimLeft(text) && Blanks(a)
    ensures TrimLeft(text) == "" || !Blanks(TrimLeft(text)[..1])
    decreases |text|
  {
    a := "";
    if text != "" {
      SpaceIsBlank(text[0]);
      assert text[..1] == [text[0]];
      if IsSpace(text[0]) {
        var rest := TrimLeftSplits(text[1..]);
        a := [text[0]] + rest;
      }
    }
  }

  lemma {:induction false} TrimRightSplits(text: string) returns (b: string)
    ensures text == TrimRight(text) + b && Blanks(b)
    ensures TrimRight(text) == "" || !Blanks(TrimRight(text)[|TrimRight(text)| - 1..])
    decreases |text|
  {
    b := "";
    if text != "" {
      var last := |text| - 1;
      SpaceIsBlank(text[last]);
      assert text[last..] == [text[last]];
      if IsSpace(text[last]) {
        var rest := TrimRightSplits(text[..last]);
        b := rest + [text[last]];
        assert text == text[..last] + [text[last]];
      }
    }
  }

  lemma TrimSplits(text: string) returns (a: string, b: string)
    ensures text == a + Trim(text) + b && Blanks(a) && Blanks(b) && Tight(Trim(text))
  {
    hide TrimLeft, TrimRight, Blanks;
    a := TrimLeftSplits(text);
    var left := TrimLeft(text);
    b := TrimRightSplits(left);
    if Trim(text) != "" {
      assert left[..1] == Trim(text)[..1];
    }
  }

  lemma BlankInside(blank: string, x: string, t: string, y: string)
    requires Blanks(blank) && blank == x + t + y && t != ""
    ensures !Tight(t)
  {
    assert blank[|x|] == t[0] && t[..1] == [t[0]];
    assert blank[|x|] in blank;
  }

  lemma StartsAt(a: string, s: string, b: string, x: string, t: string, y: string)
    requires a + s + b == x + t + y && Blanks(x) && s != ""
    ensures |x| <= |a| || !Tight(s)
  {
    if |a| < |x| {
      assert (a + s + b)[|a|] == s[0] && (x + t + y)[|a|] == x[|a|];
      assert x[|a|] in x && s[..1] == [s[0]];
    }
  }

  lemma EndsAt(a: string, s: string, b: string, x: string, t: string, y: string)
    requires a + s + b == x + t + y && Blanks(y) && s != ""
    ensures |y| <= |b| || !Tight(s)
  {
    if |b| < |y| {
      var at := |a + s| - 1;
      assert (a + s + b)[at] == s[|s| - 1];
      assert (x + t + y)[at] == y[at - |x + t|];
      assert y[at - |x + t|] in y && s[|s| - 1..] == [s[|s| - 1]];
    }
  }

  lemma SamePlace(a: string, s: string, b: string, x: string, t: string, y: string)
    requires a + s + b == x + t + y && |a| == |x| && |b| == |y|
    ensures s == t
  {
    assert (a + s + b)[|a|..|a| + |s|] == s;
    assert (x + t + y)[|x|..|x| + |t|] == t;
  }

  /** What is left when the blanks around a text are dropped is determined. */
  lemma TightPartUnique(a: string, s: string, b: string, x: string, t: string, y: string)
    requires a + s + b == x + t + y && Blanks(a) && Blanks(b) && Blanks(x) && Blanks(y) && Tight(s) && Tight(t)
    ensures s == t
  {
    hide Blanks, Tight;
    if s == "" {
      BlanksJoin(a, b);
      assert a + b == a + s + b;
      if t != "" {
        BlankInside(a + b, x, t, y);
      }
    } else if t == "" {
      BlanksJoin(x, y);
      assert x + y == x + t + y;
      BlankInside(x + y, a, s, b);
    } else {
      StartsAt(a, s, b, x, t, y);
      StartsAt(x, t, y, a, s, b);
      EndsAt(a, s, b, x, t, y);
      EndsAt(x, t, y, a, s, b);
      SamePlace(a, s, b, x, t, y);
    }
  }

  /** Trimming takes the blanks off both ends and nothing else. */
  lemma TrimExactly(text: string, t: string)
    ensures Trim(text) == t <==> Tight(t) && exists a, b :: text == a + t + b && Blanks(a) && Blanks(b)
  {
    hide Trim, Blanks, Tight;
    var a, b := TrimSplits(text);
    if Tight(t) && exists x, y :: text == x + t + y && Blanks(x) && Blanks(y) {
      var x, y :| text == x + t + y && Blanks(x) && Blanks(y);
      TightPartUnique(a, Trim(text), b, x, t, y);
    }
  }

  // ------------------------------------------------------------------- lines

  lemma FindFirst(text: string, c: char, at: nat)
    requires at < |text| && text[at] == c && c !in text[..at]
    ensures Find(text, c) == at
  {
    hide Find;
    var found := Find(text, c);
    forall k | 0 <= k < at ensures text[k] != c {
      assert text[k] in text[..at];
    }
    forall k | 0 <= k < found ensures text[k] != c {
      assert text[k] in text[..found];
    }
  }

  lemma FindNone(text: string, c: char)
    requires c !in text
    ensures Find(text, c) == |text|
  {
  }

  /** A line in its parts: a key and a value with blanks around them, and perhaps a comment. */
  ghost predicate Spells(raw: string, a: string, key: string, b: string, c: string, value: string, d: string,
                         comment: string) {
    && raw == a + key + b + "=" + c + value + d + comment
    && Blanks(a) && Blanks(b) && Blanks(c) && Blanks(d)
    && Tight(key) && Tight(value) && '#' !in key && '#' !in value && '=' !in key
    && (comment == "" || comment[0] == '#')
  }

  ghost predicate Reads(raw: string, key: string, value: string) {
    exists a, b, c, d, comment :: Spells(raw, a, key, b, c, value, d, comment)
  }

  lemma NotIn(text: string, c: char)
    requires Blanks(text) && c in {'#', '='}
    ensures c !in text
  {
  }

  /** The part of a line before its comment. */
  lemma BeforeComment(raw: string, text: string, comment: string)
    requires raw == text + comment && '#' !in text && (comment == "" || comment[0] == '#')
    ensures raw[..Find(raw, '#')] == text
  {
    if comment == "" {
      FindNone(raw, '#');
    } else {
      assert raw[..|text|] == text;
      FindFirst(raw, '#', |text|);
    }
  }

  /** A text cut at its first equals sign, after the blanks around it are gone. */
  lemma CutAtEquals(a: string, left: string, right: string, d: string, line: string)
    requires line == a + left + "=" + right + d && '=' !in left && Blanks(a) && Blanks(d)
    requires left == "" || !Blanks(left[..1])
    requires right == "" || !Blanks(right[|right| - 1..])
    ensures Trim(line) == left + "=" + right && Find(Trim(line), '=') == |left|
  {
    hide Trim, Find;
    var inner := left + "=" + right;
    assert inner[..1] == if left == "" then "=" else left[..1];
    assert inner[|inner| - 1..] == if right == "" then "=" else right[|right| - 1..];
    assert '=' in "=";
    assert Tight(inner);
    assert line == a + inner + d;
    TrimExactly(line, inner);
    assert inner[..|left|] == left;
    FindFirst(inner, '=', |left|);
  }

  /** Blanks next to an empty key or value belong to the ends of the line. */
  lemma TightSides(a: string, key: string, b: string, c: string, value: string, d: string)
    returns (a': string, left: string, right: string, d': string)
    requires Blanks(a) && Blanks(b) && Blanks(c) && Blanks(d) && Tight(key) && Tight(value) && '=' !in key
    ensures a + key + b + "=" + c + value + d == a' + left + "=" + right + d'
    ensures Blanks(a') && Blanks(d') && '=' !in left
    ensures left == "" || !Blanks(left[..1])
    ensures right == "" || !Blanks(right[|right| - 1..])
    ensures Trim(left) == key && Trim(right) == value
  {
    hide Trim, Blanks;
    NotIn(b, '=');
    if key == "" {
      BlanksJoin(a, b);
      a', left := a + b, "";
    } else {
      a', left := a, key + b;
      assert left[..1] == key[..1];
    }
    if value == "" {
      BlanksJoin(c, d);
      right, d' := "", c + d;
    } else {
      right, d' := c + value, d;
      assert right[|right| - 1..] == value[|value| - 1..];
    }
    assert Blanks("") by { NoBlanks(); }
    TrimsTo(left, "", key, if key == "" then "" else b);
    TrimsTo(right, if value == "" then "" else c, value, "");
  }

  lemma NoBlanks()
    ensures Blanks("")
  {
  }

  lemma ReadIfSpelled(raw: string, a: string, key: string, b: string, c: string, value: string, d: string,
                      comment: string)
    requires Spells(raw, a, key, b, c, value, d, comment)
    ensures ParseLine(raw) == Some((key, value))
  {
    hide Trim, Find, Blanks, Tight;
    var text := a + key + b + "=" + c + value + d;
    NotIn(a, '#');
    NotIn(b, '#');
    NotIn(c, '#');
    NotIn(d, '#');
    assert raw == text + comment;
    BeforeComment(raw, text, comment);
    var a', left, right, d' := TightSides(a, key, b, c, value, d);
    CutAtEquals(a', left, right, d', text);
    var line := left + "=" + right;
    assert line[..|left|] == left && line[|left| + 1..] == right;
  }

  lemma TrimsTo(text: string, a: string, t: string, b: string)
    requires text == a + t + b && Blanks(a) && Blanks(b) && Tight(t)
    ensures Trim(text) == t
  {
    hide Trim, Blanks, Tight;
    TrimExactly(text, t);
  }

  lemma SpelledIfRead(raw: string)
    requires ParseLine(raw).Some?
    ensures Reads(raw, ParseLine(raw).value.0, ParseLine(raw).value.1)
  {
    hide Trim, Blanks, Tight, Find;
    var text, comment := raw[..Find(raw, '#')], raw[Find(raw, '#')..];
    var a, d := TrimSplits(text);
    var line := Trim(text);
    var equals := Find(line, '=');
    var (key, value) := ParseLine(raw).value;
    var k0, k1 := TrimSplits(line[..equals]);
    var v0, v1 := TrimSplits(line[equals + 1..]);
    assert line == line[..equals] + "=" + line[equals + 1..];
    assert raw == text + comment;
    Regrouped(a, k0, key, k1, v0, value, v1, d);
    assert raw == (a + k0) + key + k1 + "=" + v0 + value + (v1 + d) + comment;
    BlanksJoin(a, k0);
    BlanksJoin(v1, d);
    WithinText(key, line[..equals], k0, k1, '=');
    WithinText(line, text, a, d, '#');
    WithinText(line[..equals], line, "", line[equals..], '#');
    WithinText(line[equals + 1..], line, line[..equals + 1], "", '#');
    WithinText(key, line[..equals], k0, k1, '#');
    WithinText(value, line[equals + 1..], v0, v1, '#');
    assert Spells(raw, a + k0, key, k1, v0, value, v1 + d, comment);
  }

  lemma Regrouped(a: string, k0: string, key: string, k1: string, v0: string, value: string, v1: string, d: string)
    ensures a + ((k0 + key + k1) + "=" + (v0 + value + v1)) + d
         == (a + k0) + key + k1 + "=" + v0 + value + (v1 + d)
  {
  }

  lemma BlanksJoin(a: string, b: string)
    requires Blanks(a) && Blanks(b)
    ensures Blanks(a + b)
  {
  }

  lemma WithinText(part: string, text: string, a: string, b: string, c: char)
    requires text == a + part + b && c !in text
    ensures c !in part
  {
    forall k | 0 <= k < |part| ensures part[k] != c {
      assert text[|a| + k] == part[k] && text[|a| + k] in text;
    }
  }

  /** A line is read as a key and a value exactly if it is spelled from them; the key ends at the first equals sign and
      the rest of the line, further equals signs included, is the value. */
  lemma LineReadExactly(raw: string, key: string, value: string)
    ensures ParseLine(raw) == Some((key, value)) <==> Reads(raw, key, value)
  {
    hide ParseLine, Spells;
    if Reads(raw, key, value) {
      var a, b, c, d, comment :| Spells(raw, a, key, b, c, value, d, comment);
      ReadIfSpelled(raw, a, key, b, c, value, d, comment);
    }
    if ParseLine(raw).Some? {
      SpelledIfRead(raw);
    }
  }

  /** Exactly the lines without an equals sign in front of their comment say nothing. */
  lemma LineIgnoredExactly(raw: string)
    ensures ParseLine(raw) == None <==>
            forall k :: 0 <= k < |raw| && raw[k] == '=' ==> exists j :: 0 <= j < k && raw[j] == '#'
  {
    hide Trim;
    var at := Find(raw, '#');
    var text := raw[..at];
    var a, b := TrimSplits(text);
    var line := Trim(text);
    NotIn(a, '=');
    NotIn(b, '=');
    assert ParseLine(raw) == None <==> '=' !in line;
    assert '=' in text <==> '=' in line;
    forall j | 0 <= j < at ensures raw[j] != '#' {
      assert raw[j] in raw[..at];
    }
    forall k | 0 <= k < |raw| && raw[k] == '='
      ensures k < at <==> !exists j :: 0 <= j < k && raw[j] == '#'
    {
      if at < k {
        assert raw[at] == '#';
      }
    }
    if '=' in text {
      var k :| 0 <= k < |text| && text[k] == '=';
      assert raw[k] == '=' && k < at;
    }
  }

  // ---------------------------------------------------------------- truth values

  predicate Letters(text: string, word: string) {
    |text| == |word| && forall k :: 0 <= k < |word| ==>
      text[k] == word[k] || ('a' <= word[k] <= 'z' && text[k] as int == word[k] as int - 32)
  }

  /** The text is the word in any mixture of cases, with blanks around it. */
  ghost predicate Says(text: string, word: string) {
    exists a, w, b :: text == a + w + b && Blanks(a) && Blanks(b) && Letters(w, word)
  }

  /** A word of small letters and digits. */
  predicate Plain(word: string) {
    word != "" && forall c <- word :: 'a' <= c <= 'z' || IsDigit(c)
  }

  lemma LettersTight(text: string, word: string)
    requires Letters(text, word) && Plain(word)
    ensures Tight(text)
  {
    assert text[..1] == [text[0]] && text[|text| - 1..] == [text[|text| - 1]];
    assert word[0] in word && word[|word| - 1] in word;
    assert text[0] in [text[0]] && text[|text| - 1] in [text[|text| - 1]];
  }

  lemma LowerIsLetters(text: string, word: string)
    requires Plain(word)
    ensures Lower(text) == word <==> Letters(text, word)
  {
    hide Lower;
    if Letters(text, word) {
      forall k | 0 <= k < |word| ensures Lower(text)[k] == word[k] {
        assert word[k] in word;
      }
      assert Lower(text) == word;
    }
    if Lower(text) == word {
      forall k | 0 <= k < |word|
        ensures text[k] == word[k] || ('a' <= word[k] <= 'z' && text[k] as int == word[k] as int - 32)
      {
        assert Lower(text)[k] == word[k];
      }
    }
  }

  lemma SaysExactly(text: string, word: string)
    requires Plain(word)
    ensures Lower(Trim(text)) == word <==> Says(text, word)
  {
    hide Lower, Trim, Plain, Letters;
    LowerIsLetters(Trim(text), word);
    var a, b := TrimSplits(text);
    if Says(text, word) {
      var x, w, y :| text == x + w + y && Blanks(x) && Blanks(y) && Letters(w, word);
      LettersTight(w, word);
      TrimsTo(text, x, w, y);
    }
  }

  /** 1, true, yes and on turn an option on, 0, false, no and off turn it off, in any case and with blanks around;
      anything else leaves it as it was. */
  lemma TruthExactly(value: string, fallback: bool)
    ensures BoolOr(value, fallback) <==>
            || Says(value, "1") || Says(value, "true") || Says(value, "yes") || Says(value, "on")
            || (fallback && !Says(value, "0") && !Says(value, "false") && !Says(value, "no") && !Says(value, "off"))
  {
    hide Lower, Trim, Says;
    assert Plain("1") && Plain("true") && Plain("yes") && Plain("on");
    SaysExactly(value, "1");
    SaysExactly(value, "true");
    SaysExactly(value, "yes");
    SaysExactly(value, "on");
    assert Plain("0") && Plain("false") && Plain("no") && Plain("off");
    SaysExactly(value, "0");
    SaysExactly(value, "false");
    SaysExactly(value, "no");
    SaysExactly(value, "off");
    assert "1"[0] == '1' && "true"[0] == 't' && "yes"[0] == 'y' && "on"[0] == 'o' && "0"[0] == '0';
    assert "false"[0] == 'f' && "no"[0] == 'n' && |"off"| == 3 && |"on"| == 2;
  }
}
