/** Printing settings as a .env file and reading the file back. */
module DotEnvRoundTrip {
  import opened Wrappers
  import opened Text
  import opened DotEnv

  /** White space within a line. */
  predicate Blank(s: string) {
    AllSpace(s) && '\n' !in s
  }

  /** A key in letters, digits and underscores that does not begin with a digit. */
  predicate SpelledKey(key: string) {
    && key != "" && key[0] !in DIGITS
    && forall k :: 0 <= k < |key| ==> SpelledChar(key[k])
  }

  predicate SpelledChar(c: char) {
    c in LOWER || c in UPPER || c in DIGITS || c == '_'
  }

  /** The keys the reader accepts are exactly those. */
  lemma ValidKeys(key: string)
    ensures ValidEnvKey(key) <==> SpelledKey(key)
  {
    forall k | 0 <= k < |key| ensures SpelledChar(key[k]) <==> KeyChar(key[k], false) {
      LowerChars(key[k]);
      UpperChars(key[k]);
      DigitChars(key[k]);
    }
    if key != "" { DigitChars(key[0]); }
  }

  datatype Padding = Padding(indent: string, afterKey: string, beforeValue: string, trailing: string)

  datatype Item =
    | Setting(key: string, value: string, quote: Option<char>, padding: Padding)
    | Remark(indent: string, text: string)
    | Gap(space: string)

  /** A setting in quotes may hold anything but newlines and NUL; one without must not lose anything to
      trimming or look quoted. */
  predicate Printable(item: Item) {
    match item
    case Setting(key, value, quote, p) =>
      && SpelledKey(key) && '\n' !in value && '\0' !in value
      && Blank(p.indent) && Blank(p.afterKey) && Blank(p.beforeValue) && Blank(p.trailing)
      && (if quote.Some? then quote.value == '"' || quote.value == '\''
          else value == "" || (value[0] != '"' && value[0] != '\'' && NoSpaceAround(value)))
    case Remark(indent, text) => Blank(indent) && '\n' !in text
    case Gap(space) => Blank(space)
  }

  function Body(value: string, quote: Option<char>): string {
    if quote.Some? then [quote.value] + value + [quote.value] else value
  }

  function Print(item: Item): string {
    match item
    case Setting(key, value, quote, p) =>
      p.indent + (key + p.afterKey) + "=" + (p.beforeValue + Body(value, quote)) + p.trailing
    case Remark(indent, text) => indent + "#" + text
    case Gap(space) => space
  }

  function FileText(items: seq<Item>): string {
    if items == [] then ""
    else if |items| == 1 then Print(items[0])
    else Print(items[0]) + "\n" + FileText(items[1..])
  }

  function Printed(items: seq<Item>): seq<string> {
    if items == [] then [] else [Print(items[0])] + Printed(items[1..])
  }

  function Meaning(item: Item): Form {
    if item.Setting? then Assignment(item.key, item.value) else Skipped
  }

  ghost predicate DistinctSettings(items: seq<Item>) {
    forall i, j :: 0 <= i < j < |items| && items[i].Setting? && items[j].Setting? ==> items[i].key != items[j].key
  }

  /** The settings the items spell out. */
  function SettingsOf(items: seq<Item>): map<string, string> {
    if items == [] then map[]
    else
      var m, last := SettingsOf(items[..|items| - 1]), items[|items| - 1];
      if last.Setting? then m[last.key := last.value] else m
  }

  // ------------------------------------------------------------ text

  lemma {:induction false} CutOf(k: string, v: string)
    requires '=' !in k
    ensures Cut(k + "=" + v) == Parts(k, v, true)
  {
    var s := k + "=" + v;
    if k == "" {
      assert s[0] == '=' && s[1..] == v;
    } else {
      assert s[0] == k[0] && s[1..] == k[1..] + "=" + v;
      CutOf(k[1..], v);
    }
  }

  lemma {:induction false} LinesOf(a: string)
    requires '\n' !in a
    ensures Lines(a) == [a]
  {
    if a != "" {
      LinesOf(a[1..]);
      assert [a[0]] + a[1..] == a;
    }
  }

  lemma {:induction false} LinesThen(a: string, b: string)
    requires '\n' !in a
    ensures Lines(a + "\n" + b) == [a] + Lines(b)
  {
    var s := a + "\n" + b;
    if a == "" {
      assert s[0] == '\n' && s[1..] == b;
    } else {
      assert s[0] == a[0] && s[1..] == a[1..] + "\n" + b;
      LinesThen(a[1..], b);
      assert [a[0]] + a[1..] == a;
    }
  }

  // ------------------------------------------------------------ one line

  lemma KeyCharIsPlain(c: char, first: bool)
    requires KeyChar(c, first)
    ensures !IsSpace(c) && c != '=' && c != '#' && c != '\n'
  {
  }

  lemma KeyIsPlain(key: string)
    requires ValidEnvKey(key)
    ensures NoSpaceAround(key) && '=' !in key && '\n' !in key && key[0] != '#'
  {
    forall i | 0 <= i < |key| ensures !IsSpace(key[i]) && key[i] != '=' && key[i] != '\n' && key[i] != '#' {
      KeyCharIsPlain(key[i], i == 0);
    }
  }

  lemma BlankHasNoEquals(s: string)
    requires Blank(s)
    ensures '=' !in s
  {
    forall i | 0 <= i < |s| ensures s[i] != '=' { assert IsSpace(s[i]); }
  }

  lemma LineTrims(indent: string, key: string, gap: string, before: string, body: string, trailing: string)
    requires Blank(indent) && Blank(before) && Blank(trailing)
    requires NoSpaceAround(key) && (body == "" || NoSpaceAround(body))
    ensures TrimSpace(indent + (key + gap) + "=" + (before + body) + trailing)
            == (key + gap) + "=" + (if body == "" then "" else before + body)
  {
    var line := (key + gap) + "=" + (if body == "" then "" else before + body);
    var rest := if body == "" then before + trailing else trailing;
    assert indent + (key + gap) + "=" + (before + body) + trailing == indent + line + rest;
    assert line[0] == key[0];
    assert !IsSpace('=');
    assert line[|line| - 1] == if body == "" then '=' else body[|body| - 1];
    TrimOf(indent, line, rest);
  }

  lemma KeyTrims(key: string, gap: string)
    requires Blank(gap) && NoSpaceAround(key)
    ensures TrimSpace(key + gap) == key
  {
    assert "" + key + gap == key + gap;
    TrimOf("", key, gap);
  }

  lemma FormOfLine(raw: string, k: string, v: string)
    requires TrimSpace(raw) == k + "=" + v && '=' !in k
    requires ValidEnvKey(TrimSpace(k)) && k != "" && k[0] != '#'
    ensures FormOf(raw) == Unquoted(TrimSpace(k), TrimSpace(v))
  {
    CutOf(k, v);
    assert (k + "=" + v)[0] == k[0];
  }

  /** A line of a valid key, an equals sign and a body means the body, whatever white space is around. */
  lemma AssignmentLine(indent: string, key: string, gap: string, before: string, body: string, trailing: string)
    requires Blank(indent) && Blank(gap) && Blank(before) && Blank(trailing)
    requires ValidEnvKey(key) && (body == "" || NoSpaceAround(body))
    ensures FormOf(indent + (key + gap) + "=" + (before + body) + trailing) == Unquoted(key, body)
  {
    KeyIsPlain(key);
    BlankHasNoEquals(gap);
    KeyTrims(key, gap);
    LineTrims(indent, key, gap, before, body, trailing);
    BodyOf(before, body);
    FormOfLine(indent + (key + gap) + "=" + (before + body) + trailing, key + gap,
               if body == "" then "" else before + body);
  }

  lemma BodyOf(before: string, body: string)
    requires Blank(before) && (body == "" || NoSpaceAround(body))
    ensures TrimSpace(if body == "" then "" else before + body) == body
  {
    TrimOf(before, body, "");
    assert before + body + "" == before + body;
  }

  lemma UnquotedBody(key: string, value: string, quote: Option<char>)
    requires '\0' !in value
    requires if quote.Some? then IsQuote(quote.value) else value == "" || (!IsQuote(value[0]) && NoSpaceAround(value))
    ensures Unquoted(key, Body(value, quote)) == Assignment(key, value)
    ensures Body(value, quote) == "" || NoSpaceAround(Body(value, quote))
  {
    if quote.Some? {
      var body := Body(value, quote);
      assert body[0] == quote.value && body[|body| - 1] == quote.value && body[1..|body| - 1] == value;
      assert !IsSpace('"') && !IsSpace('\'');
    }
  }

  lemma PrintedMeans(item: Item)
    requires Printable(item)
    ensures FormOf(Print(item)) == Meaning(item)
  {
    match item
    case Setting(key, value, quote, p) =>
      ValidKeys(key);
      UnquotedBody(key, value, quote);
      AssignmentLine(p.indent, key, p.afterKey, p.beforeValue, Body(value, quote), p.trailing);
    case Remark(indent, text) => RemarkSkipped(indent, text);
    case Gap(space) =>
      TrimOf(space, "", "");
      assert space + "" + "" == space;
  }

  lemma RemarkSkipped(indent: string, text: string)
    requires Blank(indent)
    ensures FormOf(indent + "#" + text) == Skipped
  {
    var raw := indent + "#" + text;
    assert raw == indent + ("#" + text) && ("#" + text)[0] == '#';
    assert !IsSpace('#');
    TrimLeftOf(indent, "#" + text);
    KeepsFirst("#" + text);
  }

  lemma {:induction false} KeepsFirst(s: string)
    requires s != "" && !IsSpace(s[0])
    ensures TrimRight(s) != "" && TrimRight(s)[0] == s[0]
  {
    if IsSpace(s[|s| - 1]) { KeepsFirst(s[..|s| - 1]); }
  }

  lemma PrintsOneLine(item: Item)
    requires Printable(item)
    ensures '\n' !in Print(item)
  {
    if item.Setting? {
      ValidKeys(item.key);
      KeyIsPlain(item.key);
      assert '\n' !in Body(item.value, item.quote);
    }
  }

  lemma {:induction false} PrintedLines(items: seq<Item>)
    requires items != [] && forall i :: 0 <= i < |items| ==> Printable(items[i])
    ensures Lines(FileText(items)) == Printed(items)
  {
    PrintsOneLine(items[0]);
    if |items| == 1 {
      LinesOf(Print(items[0]));
      assert Printed(items[1..]) == [];
    } else {
      LinesThen(Print(items[0]), FileText(items[1..]));
      PrintedLines(items[1..]);
    }
  }

  lemma {:induction false} PrintedAt(items: seq<Item>, k: nat)
    requires k < |items|
    ensures |Printed(items)| == |items| && Printed(items)[k] == Print(items[k])
  {
    if |items| > 1 { PrintedAt(items[1..], if k == 0 then 0 else k - 1); }
  }

  // ------------------------------------------------------------ a whole file

  function Meanings(items: seq<Item>): (forms: seq<Form>)
    ensures |forms| == |items|
  {
    seq(|items|, i requires 0 <= i < |items| => Meaning(items[i]))
  }

  lemma PrintedForm(items: seq<Item>, k: nat)
    requires k < |items| && Printable(items[k])
    ensures |Printed(items)| == |items| && FormOf(Printed(items)[k]) == Meaning(items[k])
  {
    PrintedAt(items, k);
    PrintedMeans(items[k]);
  }

  ghost predicate AllPrintable(items: seq<Item>) {
    forall i :: 0 <= i < |items| ==> Printable(items[i])
  }

  lemma PrintedForms(items: seq<Item>)
    requires items != [] && AllPrintable(items)
    ensures Forms(Lines(FileText(items))) == Meanings(items)
  {
    PrintedLines(items);
    PrintedAt(items, 0);
    forall k | 0 <= k < |items| ensures Forms(Printed(items))[k] == Meanings(items)[k] { PrintedForm(items, k); }
  }

  lemma MeaningsThen(items: seq<Item>)
    requires items != []
    ensures Meanings(items) == Meanings(items[..|items| - 1]) + [Meaning(items[|items| - 1])]
  {
  }

  lemma {:induction false} MeaningsHold(items: seq<Item>)
    requires DistinctSettings(items)
    ensures Readable(Meanings(items)) && Holds(Meanings(items), SettingsOf(items))
    ensures AssignmentCount(Meanings(items)) == |SettingsOf(items)|
  {
    if items != [] {
      var n := |items| - 1;
      var before, last := items[..n], items[n];
      MeaningsHold(before);
      MeaningsThen(items);
      var m := SettingsOf(before);
      if last.Setting? {
        KeysOf(before, last.key);
        Assigned(Meanings(before), m, last.key, last.value);
      } else {
        SkippedLine(Meanings(before), m);
      }
    }
  }

  lemma {:induction false} KeysOf(items: seq<Item>, key: string)
    requires forall i :: 0 <= i < |items| && items[i].Setting? ==> items[i].key != key
    ensures key !in SettingsOf(items)
  {
    if items != [] { KeysOf(items[..|items| - 1], key); }
  }

  /** Settings with distinct keys, printed in any order with either quote or none, any padding, and blank
      and comment lines anywhere, are read back exactly. */
  lemma RoundTrip(items: seq<Item>)
    requires AllPrintable(items) && DistinctSettings(items)
    ensures var forms := Forms(Lines(FileText(items)));
            Readable(forms) && Holds(forms, SettingsOf(items)) && forall m :: Holds(forms, m) ==> m == SettingsOf(items)
  {
    var forms := Forms(Lines(FileText(items)));
    if items == [] {
      assert forms == [Skipped];
    } else {
      PrintedForms(items);
      MeaningsHold(items);
    }
    forall m | Holds(forms, m) ensures m == SettingsOf(items) { HoldsOne(forms, m, SettingsOf(items)); }
  }

  // ------------------------------------------------------------ and back

  lemma {:induction false} TrimKeeps(s: string, c: char)
    ensures c in TrimLeft(s) ==> c in s
    ensures c in TrimRight(s) ==> c in s
  {
    if s != "" {
      TrimKeeps(s[1..], c);
      TrimKeeps(s[..|s| - 1], c);
    }
  }

  lemma {:induction false} CutKeeps(s: string, c: char)
    ensures c in Cut(s).value ==> c in s
  {
    if s != "" { CutKeeps(s[1..], c); }
  }

  lemma {:induction false} LinesAreLines(text: string, k: nat)
    requires k < |Lines(text)|
    ensures '\n' !in Lines(text)[k]
  {
    if text != "" {
      if text[0] == '\n' {
        if k > 0 { LinesAreLines(text[1..], k - 1); }
      } else {
        LinesAreLines(text[1..], k);
      }
    }
  }

  lemma ReadValue(raw: string)
    requires FormOf(raw).Assignment?
    ensures ValidEnvKey(FormOf(raw).key) && '\0' !in FormOf(raw).value
    ensures '\n' in FormOf(raw).value ==> '\n' in raw
  {
    var line := TrimSpace(raw);
    var value := Cut(line).value;
    TrimKeeps(value, '\n');
    TrimKeeps(TrimLeft(value), '\n');
    CutKeeps(line, '\n');
    TrimKeeps(raw, '\n');
    TrimKeeps(TrimLeft(raw), '\n');
  }

  /** Keys are valid and values fit a line. */
  predicate Fits(m: map<string, string>) {
    forall key :: key in m ==> SpelledKey(key) && '\n' !in m[key] && '\0' !in m[key]
  }

  lemma WhatIsReadFits(text: string, m: map<string, string>)
    requires Holds(Forms(Lines(text)), m)
    ensures Fits(m)
  {
    var forms := Forms(Lines(text));
    forall key | key in m ensures SpelledKey(key) && '\n' !in m[key] && '\0' !in m[key] {
      ValidKeys(key);
      var i :| 0 <= i < |forms| && Assigns(forms[i], key);
      ReadValue(Lines(text)[i]);
      LinesAreLines(text, i);
    }
  }

  lemma SettingsThen(items: seq<Item>, item: Item)
    requires item.Setting?
    ensures SettingsOf(items + [item]) == SettingsOf(items)[item.key := item.value]
  {
    assert (items + [item])[..|items|] == items;
  }

  lemma ItemThen(items: seq<Item>, item: Item)
    requires DistinctSettings(items) && item.Setting?
    requires forall i :: 0 <= i < |items| && items[i].Setting? ==> items[i].key != item.key
    ensures DistinctSettings(items + [item])
    ensures SettingsOf(items + [item]) == SettingsOf(items)[item.key := item.value]
  {
    SettingsThen(items, item);
  }

  function QuotedItem(key: string, value: string): Item {
    Setting(key, value, Some('"'), Padding("", "", "", ""))
  }

  lemma QuotedPrints(key: string, value: string)
    requires SpelledKey(key) && '\n' !in value && '\0' !in value
    ensures Printable(QuotedItem(key, value))
  {
  }

  lemma FewerFit(m: map<string, string>, key: string)
    requires Fits(m)
    ensures Fits(m - {key})
  {
  }

  lemma {:induction false} ItemsFor(m: map<string, string>) returns (items: seq<Item>)
    requires Fits(m)
    ensures AllPrintable(items) && DistinctSettings(items) && SettingsOf(items) == m
    ensures forall i :: 0 <= i < |items| ==> items[i].Setting? && items[i].key in m
    decreases |m|
  {
    if m == map[] {
      items := [];
    } else {
      var key :| key in m;
      FewerFit(m, key);
      var rest := ItemsFor(m - {key});
      QuotedPrints(key, m[key]);
      ItemThen(rest, QuotedItem(key, m[key]));
      items := rest + [QuotedItem(key, m[key])];
      assert (m - {key})[key := m[key]] == m;
    }
  }

  /** Whatever a file says, it can be printed again as quoted settings alone, and that file reads the same. */
  lemma Rewritten(text: string, m: map<string, string>) returns (items: seq<Item>)
    requires Holds(Forms(Lines(text)), m)
    ensures var forms := Forms(Lines(FileText(items)));
            Readable(forms) && Holds(forms, m) && forall m' :: Holds(forms, m') ==> m' == m
  {
    WhatIsReadFits(text, m);
    items := ItemsFor(m);
    RoundTrip(items);
  }
}
