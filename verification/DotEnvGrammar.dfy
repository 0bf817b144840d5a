/** Which files are read, character by character: a file is readable exactly if it is settings with distinct
    keys, remarks and gaps printed one a line. */
module DotEnvGrammar {
  import opened Wrappers
  import opened Text
  import opened DotEnv
  import opened DotEnvRoundTrip

  // ------------------------------------------------------------ text

  function Join(lines: seq<string>): string {
    if lines == [] then ""
    else if |lines| == 1 then lines[0]
    else lines[0] + "\n" + Join(lines[1..])
  }

  lemma {:induction false} JoinLines(text: string)
    ensures Join(Lines(text)) == text
  {
    if text != "" {
      var rest := Lines(text[1..]);
      JoinLines(text[1..]);
      assert text == [text[0]] + text[1..];
      if text[0] == '\n' {
        assert ([""] + rest)[1..] == rest;
      } else {
        JoinFirst(text[0], rest);
      }
    }
  }

  lemma JoinFirst(c: char, lines: seq<string>)
    requires lines != []
    ensures Join([[c] + lines[0]] + lines[1..]) == [c] + Join(lines)
  {
    var more := [[c] + lines[0]] + lines[1..];
    assert more[1..] == lines[1..];
    if |lines| > 1 {
      assert [c] + lines[0] + "\n" + Join(lines[1..]) == [c] + (lines[0] + "\n" + Join(lines[1..]));
    }
  }

  lemma {:induction false} CutParts(s: string)
    ensures var parts := Cut(s);
            && '=' !in parts.key
            && (if parts.found then s == parts.key + "=" + parts.value else parts.key == s)
  {
    if s != "" {
      assert s == [s[0]] + s[1..];
      if s[0] != '=' {
        CutParts(s[1..]);
      }
    }
  }

  /** A text is its trimmed self with white space around it. */
  lemma TrimParts(s: string) returns (a: string, b: string)
    ensures AllSpace(a) && AllSpace(b) && s == a + TrimSpace(s) + b
    ensures TrimSpace(s) == "" || NoSpaceAround(TrimSpace(s))
  {
    a := TrimLeftParts(s);
    b := TrimRightParts(TrimLeft(s));
    assert a + (TrimSpace(s) + b) == a + TrimSpace(s) + b;
    TrimmedOnce(s);
  }

  // ------------------------------------------------------------ one line

  /** What is wrong with a line that spells `k` before its first equals sign and `v` after it. */
  ghost predicate LineProblem(k: string, v: string, form: Form) {
    var key, body := TrimSpace(k), TrimSpace(v);
    var quoted := body != "" && (body[0] == '"' || body[0] == '\'');
    var closed := |body| >= 2 && body[|body| - 1] == body[0];
    if !SpelledKey(key) then form == Malformed
    else if quoted && !closed then form == BadValue(key, UnclosedQuote)
    else if '\0' in body then form == BadValue(key, InvalidValue)
    else form == Assignment(key, if quoted then body[1..|body| - 1] else body)
  }

  /** Every line is blank, a remark, has no equals sign, or is judged by its key and its value. */
  lemma LineForms(raw: string)
    ensures var line := TrimSpace(raw);
            && (line == "" || line[0] == '#' ==> FormOf(raw) == Skipped)
            && (line != "" && line[0] != '#' && '=' !in line ==> FormOf(raw) == Malformed)
            && (forall k, v :: line == k + "=" + v && '=' !in k && line[0] != '#' ==> LineProblem(k, v, FormOf(raw)))
  {
    var line := TrimSpace(raw);
    CutParts(line);
    forall k, v | line == k + "=" + v && '=' !in k && line[0] != '#' ensures LineProblem(k, v, FormOf(raw)) {
      CutOf(k, v);
      ValidKeys(TrimSpace(k));
      NulInBody(TrimSpace(v));
    }
  }

  lemma NulInBody(body: string)
    ensures |body| >= 2 && (body[0] == '"' || body[0] == '\'') && body[|body| - 1] == body[0] ==>
              ('\0' in body <==> '\0' in body[1..|body| - 1])
  {
    if |body| >= 2 && (body[0] == '"' || body[0] == '\'') && body[|body| - 1] == body[0] && '\0' in body {
      var k :| 0 <= k < |body| && body[k] == '\0';
      assert body[1..|body| - 1][k - 1] == '\0';
    }
  }

  // ------------------------------------------------------------ every readable line is a printed item

  lemma NoNewline(s: string, part: string, a: string, b: string)
    requires s == a + part + b && '\n' !in s
    ensures '\n' !in a && '\n' !in part && '\n' !in b
  {
    forall k | 0 <= k < |a| ensures a[k] != '\n' { assert s[k] == a[k]; }
    forall k | 0 <= k < |part| ensures part[k] != '\n' { assert s[|a| + k] == part[k]; }
    forall k | 0 <= k < |b| ensures b[k] != '\n' { assert s[|a| + |part| + k] == b[k]; }
  }

  lemma SkippedLine(raw: string) returns (item: Item)
    requires '\n' !in raw && FormOf(raw) == Skipped
    ensures Printable(item) && !item.Setting? && Print(item) == raw
  {
    var a, b := TrimParts(raw);
    NoNewline(raw, TrimSpace(raw), a, b);
    if TrimSpace(raw) == "" {
      BlankLine(raw, a, b);
      item := Gap(raw);
    } else {
      SkippedMeans(raw);
      item := RemarkLine(raw, a, TrimSpace(raw), b);
    }
  }

  lemma BlankLine(raw: string, a: string, b: string)
    requires raw == a + "" + b && AllSpace(a) && AllSpace(b) && '\n' !in raw
    ensures Blank(raw)
  {
    assert raw == a + b;
  }

  lemma RemarkLine(raw: string, a: string, line: string, b: string) returns (item: Item)
    requires raw == a + line + b && AllSpace(a) && line != "" && line[0] == '#'
    requires '\n' !in a && '\n' !in line && '\n' !in b
    ensures Printable(item) && !item.Setting? && Print(item) == raw
  {
    assert line == "#" + line[1..];
    assert a + "#" + (line[1..] + b) == a + ("#" + line[1..]) + b;
    item := Remark(a, line[1..] + b);
  }

  lemma SkippedMeans(raw: string)
    requires FormOf(raw) == Skipped && TrimSpace(raw) != ""
    ensures TrimSpace(raw)[0] == '#'
  {
  }

  lemma LeadingSpace(a: string, t: string)
    requires AllSpace(a)
    ensures a != "" ==> IsSpace((a + t)[0])
  {
    assert a != "" ==> (a + t)[0] == a[0];
  }

  lemma TrailingSpace(t: string, b: string)
    requires AllSpace(b)
    ensures b != "" ==> IsSpace((t + b)[|t + b| - 1])
  {
    assert b != "" ==> (t + b)[|t + b| - 1] == b[|b| - 1];
  }

  /** The part before the equals sign of a trimmed line: the key, then white space. */
  lemma KeyPart(k: string) returns (gap: string)
    requires k != "" && !IsSpace(k[0])
    ensures AllSpace(gap) && k == TrimSpace(k) + gap
  {
    var a, b := TrimParts(k);
    assert a + (TrimSpace(k) + b) == k;
    LeadingSpace(a, TrimSpace(k) + b);
    gap := b;
    assert k == "" + (TrimSpace(k) + b);
  }

  /** The part after the equals sign of a trimmed line: white space, then the body. */
  lemma ValuePart(v: string) returns (before: string)
    requires v == "" || !IsSpace(v[|v| - 1])
    ensures AllSpace(before) && v == before + TrimSpace(v)
  {
    var a, b := TrimParts(v);
    if v == "" {
      before := "";
    } else {
      TrailingSpace(a + TrimSpace(v), b);
      before := a;
      assert v == (a + TrimSpace(v)) + "";
    }
  }

  lemma PartEnds(line: string, k: string, v: string)
    requires line == k + "=" + v && NoSpaceAround(line)
    ensures (k != "" ==> !IsSpace(k[0])) && (v != "" ==> !IsSpace(v[|v| - 1]))
  {
    assert k != "" ==> line[0] == k[0];
    assert v != "" ==> line[|line| - 1] == v[|v| - 1];
  }

  /** A body without problems is a value in quotes, or one that needs none. */
  lemma BodyPart(key: string, body: string, value: string) returns (quote: Option<char>)
    requires body == "" || NoSpaceAround(body)
    requires var quoted := body != "" && (body[0] == '"' || body[0] == '\'');
             && (quoted ==> |body| >= 2 && body[|body| - 1] == body[0] && value == body[1..|body| - 1])
             && (!quoted ==> value == body)
    ensures Body(value, quote) == body
    ensures if quote.Some? then quote.value == '"' || quote.value == '\''
            else value == "" || (value[0] != '"' && value[0] != '\'' && NoSpaceAround(value))
  {
    if body != "" && (body[0] == '"' || body[0] == '\'') {
      quote := Some(body[0]);
      assert [body[0]] + body[1..|body| - 1] + [body[0]] == body;
    } else {
      quote := None;
    }
  }

  /** What an assignment assigns, read off its line. */
  lemma AssignmentParts(raw: string) returns (k: string, v: string)
    requires FormOf(raw).Assignment?
    ensures TrimSpace(raw) == k + "=" + v && '=' !in k && NoSpaceAround(TrimSpace(raw))
    ensures LineProblem(k, v, FormOf(raw))
  {
    var a, b := TrimParts(raw);
    var line := TrimSpace(raw);
    CutParts(line);
    k, v := Cut(line).key, Cut(line).value;
    LineForms(raw);
  }

  lemma LineParts(raw: string) returns (a: string, key: string, gap: string, before: string, body: string, b: string)
    requires FormOf(raw).Assignment?
    ensures AllSpace(a) && AllSpace(gap) && AllSpace(before) && AllSpace(b)
    ensures raw == a + ((key + gap) + "=" + (before + body)) + b && SpelledKey(key) && key == FormOf(raw).key
    ensures body == "" || NoSpaceAround(body)
    ensures BodyMeans(body, FormOf(raw).value)
  {
    a, b := TrimParts(raw);
    var k, v := AssignmentParts(raw);
    PartEnds(TrimSpace(raw), k, v);
    key, body := TrimSpace(k), TrimSpace(v);
    ValidKeys(key);
    assert k != "" by { if k == "" { EmptyTrims(k); } }
    gap := KeyPart(k);
    before := ValuePart(v);
    TrimmedOnce(v);
  }

  lemma EmptyTrims(k: string)
    requires k == ""
    ensures TrimSpace(k) == ""
  {
  }

  /** The body is the value in quotes, or the value, which then does not begin with one; no NUL in either. */
  ghost predicate BodyMeans(body: string, value: string) {
    var quoted := body != "" && (body[0] == '"' || body[0] == '\'');
    && '\0' !in value
    && (quoted ==> |body| >= 2 && body[|body| - 1] == body[0] && value == body[1..|body| - 1])
    && (!quoted ==> value == body)
  }

  /** Every line that assigns is a printed setting of that key and value. */
  lemma AssignmentLine(raw: string) returns (item: Item)
    requires '\n' !in raw && FormOf(raw).Assignment?
    ensures Printable(item) && item.Setting? && Print(item) == raw
    ensures FormOf(raw) == Assignment(item.key, item.value)
  {
    var a, key, gap, before, body, b := LineParts(raw);
    item := PrintedSetting(raw, a, key, gap, before, body, b, FormOf(raw).value);
  }

  lemma PrintedSetting(raw: string, a: string, key: string, gap: string, before: string, body: string, b: string,
                       value: string) returns (item: Item)
    requires raw == a + ((key + gap) + "=" + (before + body)) + b && '\n' !in raw && SpelledKey(key)
    requires AllSpace(a) && AllSpace(gap) && AllSpace(before) && AllSpace(b)
    requires (body == "" || NoSpaceAround(body)) && BodyMeans(body, value)
    ensures Printable(item) && item.Setting? && Print(item) == raw && item.key == key && item.value == value
  {
    var quote := BodyPart(key, body, value);
    item := Setting(key, value, quote, Padding(a, gap, before, b));
    PartsPrint(raw, a, key, gap, before, body, b);
    NewlineInBody(body, value, quote);
  }

  lemma NewlineInBody(body: string, value: string, quote: Option<char>)
    requires Body(value, quote) == body && '\n' !in body
    ensures '\n' !in value
  {
    forall k | 0 <= k < |value| ensures value[k] != '\n' {
      assert value[k] == body[if quote.Some? then k + 1 else k];
    }
  }

  lemma PartsPrint(raw: string, a: string, key: string, gap: string, before: string, body: string, b: string)
    requires raw == a + ((key + gap) + "=" + (before + body)) + b && '\n' !in raw
    ensures raw == a + (key + gap) + "=" + (before + body) + b
    ensures '\n' !in a && '\n' !in gap && '\n' !in before && '\n' !in body && '\n' !in b
  {
    assert raw == a + (key + gap) + "=" + (before + body) + b;
    NoNewline(raw, (key + gap) + "=" + (before + body), a, b);
    var line := (key + gap) + "=" + (before + body);
    assert line == key + gap + ("=" + (before + body));
    NoNewline(line, gap, key, "=" + (before + body));
    assert line == (key + gap + "=") + before + body;
    NoNewline(line, before, key + gap + "=", body);
  }

  lemma ReadableLine(raw: string) returns (item: Item)
    requires '\n' !in raw && (FormOf(raw).Skipped? || FormOf(raw).Assignment?)
    ensures Printable(item) && Print(item) == raw && FormOf(raw) == Meaning(item)
  {
    if FormOf(raw).Skipped? { item := SkippedLine(raw); } else { item := AssignmentLine(raw); }
  }

  // ------------------------------------------------------------ a whole file

  lemma {:induction false} LinesPrinted(lines: seq<string>) returns (items: seq<Item>)
    requires forall k :: 0 <= k < |lines| ==> '\n' !in lines[k]
    requires forall k :: 0 <= k < |lines| ==> FormOf(lines[k]).Skipped? || FormOf(lines[k]).Assignment?
    ensures AllPrintable(items) && Printed(items) == lines && Meanings(items) == Forms(lines)
  {
    if lines == [] {
      items := [];
    } else {
      var item := ReadableLine(lines[0]);
      var rest := LinesPrinted(lines[1..]);
      items := [item] + rest;
      FirstAndRest(item, rest, lines);
    }
  }

  lemma FirstAndRest(item: Item, rest: seq<Item>, lines: seq<string>)
    requires lines != [] && Printable(item) && Print(item) == lines[0] && FormOf(lines[0]) == Meaning(item)
    requires AllPrintable(rest) && Printed(rest) == lines[1..] && Meanings(rest) == Forms(lines[1..])
    ensures var items := [item] + rest;
            AllPrintable(items) && Printed(items) == lines && Meanings(items) == Forms(lines)
  {
    var items := [item] + rest;
    assert items[1..] == rest;
    forall k | 0 <= k < |lines| ensures |Meanings(items)| == |lines| && Meanings(items)[k] == Forms(lines)[k] {
      if k > 0 { assert Meanings(rest)[k - 1] == Forms(lines[1..])[k - 1]; }
    }
  }

  lemma {:induction false} PrintedJoins(items: seq<Item>)
    ensures FileText(items) == Join(Printed(items))
  {
    if |items| > 1 {
      PrintedJoins(items[1..]);
      assert Printed(items)[1..] == Printed(items[1..]);
    } else if |items| == 1 {
      assert Printed(items[1..]) == [];
    }
  }

  lemma ReadableDistinct(items: seq<Item>)
    ensures Readable(Meanings(items)) ==> DistinctSettings(items)
  {
    var forms := Meanings(items);
    if Readable(forms) {
      forall i, j | 0 <= i < j < |items| && items[i].Setting? && items[j].Setting?
        ensures items[i].key != items[j].key
      {
        assert forms[i] == Meaning(items[i]) && forms[j] == Meaning(items[j]);
        assert !Assigns(forms[j], forms[i].key);
      }
    }
  }

  /** The items a readable file is made of. */
  lemma ReadableItems(text: string) returns (items: seq<Item>)
    requires Readable(Forms(Lines(text)))
    ensures AllPrintable(items) && DistinctSettings(items) && FileText(items) == text
  {
    var lines := Lines(text);
    var forms := Forms(lines);
    forall k | 0 <= k < |lines|
      ensures '\n' !in lines[k] && (FormOf(lines[k]).Skipped? || FormOf(lines[k]).Assignment?)
    {
      LinesAreLines(text, k);
      assert forms[k] == FormOf(lines[k]);
    }
    items := LinesPrinted(lines);
    PrintedJoins(items);
    JoinLines(text);
    ReadableDistinct(items);
  }

  /** A file is readable exactly if it is settings with distinct keys, remarks and gaps, printed one a line. */
  lemma ReadableExactly(text: string)
    ensures Readable(Forms(Lines(text))) <==>
            exists items :: AllPrintable(items) && DistinctSettings(items) && FileText(items) == text
  {
    if Readable(Forms(Lines(text))) {
      var items := ReadableItems(text);
    }
    if items :| AllPrintable(items) && DistinctSettings(items) && FileText(items) == text {
      RoundTrip(items);
    }
  }
}
