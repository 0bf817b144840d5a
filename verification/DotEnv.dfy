/** Reading a .env file: one assignment a line, blank lines and whole-line comments between them,
    values optionally wrapped in quotes. */
module DotEnv {
  import opened Wrappers
  import opened Text

  // ------------------------------------------------------------ text

  /** strings.Split at newlines: never empty. */
  function Lines(text: string): (lines: seq<string>)
    ensures |lines| > 0
  {
    if text == "" then [""]
    else
      var rest := Lines(text[1..]);
      if text[0] == '\n' then [""] + rest else [[text[0]] + rest[0]] + rest[1..]
  }

  /** strings.Cut at the first equals sign. */
  datatype Parts = Parts(key: string, value: string, found: bool)

  function Cut(s: string): Parts {
    if s == "" then Parts("", "", false)
    else if s[0] == '=' then Parts("", s[1..], true)
    else
      var rest := Cut(s[1..]);
      Parts([s[0]] + rest.key, rest.value, rest.found)
  }

  // ------------------------------------------------------------ one line

  predicate KeyChar(c: char, first: bool) {
    c == '_' || 'a' <= c <= 'z' || 'A' <= c <= 'Z' || (!first && '0' <= c <= '9')
  }

  predicate ValidEnvKey(key: string) {
    key != "" && forall i :: 0 <= i < |key| ==> KeyChar(key[i], i == 0)
  }

  predicate IsQuote(c: char) {
    c == '"' || c == '\''
  }

  datatype Problem = NotAssignment | DuplicateKey(key: string) | UnclosedQuote | InvalidValue

  /** What a line says on its own. */
  datatype Form = Skipped | Assignment(key: string, value: string) | Malformed | BadValue(key: string, problem: Problem)

  function Unquoted(key: string, value: string): Form {
    if value != "" && IsQuote(value[0]) then
      if |value| < 2 || value[|value| - 1] != value[0] then BadValue(key, UnclosedQuote)
      else Checked(key, value[1..|value| - 1])
    else Checked(key, value)
  }

  function Checked(key: string, value: string): Form {
    if '\0' in value then BadValue(key, InvalidValue) else Assignment(key, value)
  }

  function FormOf(raw: string): Form {
    var line := TrimSpace(raw);
    if line == "" || line[0] == '#' then Skipped
    else
      var parts := Cut(line);
      var key, value := TrimSpace(parts.key), TrimSpace(parts.value);
      if !parts.found || !ValidEnvKey(key) then Malformed else Unquoted(key, value)
  }

  // ------------------------------------------------------------ a whole file

  function Forms(lines: seq<string>): (forms: seq<Form>)
    ensures |forms| == |lines|
  {
    seq(|lines|, i requires 0 <= i < |lines| => FormOf(lines[i]))
  }

  predicate Assigns(form: Form, key: string) {
    form.Assignment? && form.key == key
  }

  ghost predicate AssignedIn(forms: seq<Form>, key: string) {
    exists i :: 0 <= i < |forms| && Assigns(forms[i], key)
  }

  /** Every line is blank, a comment or an assignment, and no key is assigned twice. */
  ghost predicate Readable(forms: seq<Form>) {
    && (forall i :: 0 <= i < |forms| ==> forms[i].Skipped? || forms[i].Assignment?)
    && (forall i, j :: 0 <= i < j < |forms| && forms[i].Assignment? ==> !Assigns(forms[j], forms[i].key))
  }

  /** `m` holds what the lines assign and nothing else. */
  ghost predicate Holds(forms: seq<Form>, m: map<string, string>) {
    && (forall i :: 0 <= i < |forms| && forms[i].Assignment? ==> forms[i].key in m && m[forms[i].key] == forms[i].value)
    && (forall key :: key in m ==> AssignedIn(forms, key))
  }

  function AssignmentCount(forms: seq<Form>): nat {
    if forms == [] then 0
    else AssignmentCount(forms[..|forms| - 1]) + (if forms[|forms| - 1].Assignment? then 1 else 0)
  }

  /** The file at the path: absent, not readable, or its text. */
  datatype File = Missing | Unreadable | Content(text: string)

  datatype ReadError = CannotRead | AtLine(line: nat, problem: Problem)

  /** What is wrong with a line after those before it: a malformed line before a repeated key before a
      bad value. */
  ghost predicate Wrong(before: seq<Form>, form: Form, problem: Problem) {
    match form
    case Skipped => false
    case Malformed => problem == NotAssignment
    case Assignment(key, _) => problem == DuplicateKey(key) && AssignedIn(before, key)
    case BadValue(key, p) => problem == if AssignedIn(before, key) then DuplicateKey(key) else p
  }

  /** Line `n` is the first that cannot be read, and why. */
  ghost predicate FirstBad(forms: seq<Form>, n: nat, problem: Problem) {
    n < |forms| && Readable(forms[..n]) && Wrong(forms[..n], forms[n], problem)
  }

  /** ReadEnvFile accepts exactly the readable files, returns exactly what they assign, and reports the
      first line that is wrong. */
  method ReadEnvFile(file: File) returns (r: Result<map<string, string>, ReadError>)
    ensures file == Missing ==> r == Success(map[])
    ensures file == Unreadable ==> r == Failure(CannotRead)
    ensures file.Content? ==> (r.Success? <==> Readable(Forms(Lines(file.text))))
    ensures file.Content? && r.Success? ==> Holds(Forms(Lines(file.text)), r.value)
    ensures file.Content? && r.Success? ==> |r.value| == AssignmentCount(Forms(Lines(file.text)))
    ensures file.Content? && r.Failure? ==> r.error.AtLine? && r.error.line > 0
    ensures file.Content? && r.Failure? ==> FirstBad(Forms(Lines(file.text)), r.error.line - 1, r.error.problem)
  {
    match file
    case Missing => r := Success(map[]);
    case Unreadable => r := Failure(CannotRead);
    case Content(text) => r := ReadLines(Lines(text));
  }

  method ReadLines(lines: seq<string>) returns (r: Result<map<string, string>, ReadError>)
    ensures r.Success? <==> Readable(Forms(lines))
    ensures r.Success? ==> Holds(Forms(lines), r.value) && |r.value| == AssignmentCount(Forms(lines))
    ensures r.Failure? ==> r.error.AtLine? && r.error.line > 0
    ensures r.Failure? ==> FirstBad(Forms(lines), r.error.line - 1, r.error.problem)
  {
    var values: map<string, string> := map[];
    ghost var forms := Forms(lines);
    var n := 0;
    while n < |lines|
      invariant n <= |lines| && Readable(forms[..n]) && Holds(forms[..n], values)
      invariant |values| == AssignmentCount(forms[..n])
    {
      var form := FormOf(lines[n]);
      assert form == forms[n];
      SliceNext(forms, n);
      var problem := ProblemOf(form, values);
      NextLine(forms[..n], values, form);
      if problem.Some? {
        StaysUnreadable(forms, n, problem.value);
        return Failure(AtLine(n + 1, problem.value));
      }
      if form.Assignment? {
        values := values[form.key := form.value];
      }
      n := n + 1;
    }
    assert forms[..n] == forms;
    r := Success(values);
  }

  lemma SliceNext<T>(s: seq<T>, n: nat)
    requires n < |s|
    ensures s[..n + 1] == s[..n] + [s[n]]
  {
  }

  /** The checks in their order: the assignment, a repeated key, the value. */
  function ProblemOf(form: Form, values: map<string, string>): Option<Problem> {
    if form.Malformed? then Some(NotAssignment)
    else if form.Skipped? then None
    else if form.key in values then Some(DuplicateKey(form.key))
    else if form.BadValue? then Some(form.problem)
    else None
  }

  lemma NextLine(forms: seq<Form>, m: map<string, string>, form: Form)
    requires Readable(forms) && Holds(forms, m) && |m| == AssignmentCount(forms)
    ensures var problem := ProblemOf(form, m);
            var m' := if form.Assignment? then m[form.key := form.value] else m;
            if problem.Some? then Wrong(forms, form, problem.value)
            else Readable(forms + [form]) && Holds(forms + [form], m') && |m'| == AssignmentCount(forms + [form])
  {
    HeldKeys(forms, m);
    if ProblemOf(form, m) == None {
      if form.Skipped? { SkippedLine(forms, m); } else { Assigned(forms, m, form.key, form.value); }
    }
  }

  lemma HeldKeys(forms: seq<Form>, m: map<string, string>)
    requires Holds(forms, m)
    ensures forall key :: key in m <==> AssignedIn(forms, key)
  {
  }

  lemma StaysUnreadable(forms: seq<Form>, n: nat, problem: Problem)
    requires n < |forms| && Wrong(forms[..n], forms[n], problem)
    ensures !Readable(forms)
  {
    if forms[n].Assignment? {
      var i :| 0 <= i < n && Assigns(forms[..n][i], forms[n].key);
      assert Assigns(forms[n], forms[i].key);
    }
  }

  lemma SkippedLine(forms: seq<Form>, m: map<string, string>)
    requires Readable(forms) && Holds(forms, m)
    ensures Readable(forms + [Skipped]) && Holds(forms + [Skipped], m)
    ensures AssignmentCount(forms + [Skipped]) == AssignmentCount(forms)
  {
    var next := forms + [Skipped];
    assert next[..|forms|] == forms;
    forall key | key in m ensures AssignedIn(next, key) {
      var i :| 0 <= i < |forms| && Assigns(forms[i], key);
      assert Assigns(next[i], key);
    }
  }

  lemma Assigned(forms: seq<Form>, m: map<string, string>, key: string, value: string)
    requires Readable(forms) && Holds(forms, m) && key !in m
    ensures Readable(forms + [Assignment(key, value)])
    ensures Holds(forms + [Assignment(key, value)], m[key := value])
    ensures AssignmentCount(forms + [Assignment(key, value)]) == AssignmentCount(forms) + 1
  {
    var next := forms + [Assignment(key, value)];
    assert next[..|forms|] == forms;
    forall k | k in m ensures AssignedIn(next, k) {
      var i :| 0 <= i < |forms| && Assigns(forms[i], k);
      assert Assigns(next[i], k);
    }
    assert Assigns(next[|forms|], key);
  }

  /** The lines determine the map. */
  lemma HoldsOne(forms: seq<Form>, m: map<string, string>, m': map<string, string>)
    requires Holds(forms, m) && Holds(forms, m')
    ensures m == m'
  {
    HeldKeys(forms, m);
    HeldKeys(forms, m');
    forall key | key in m ensures m[key] == m'[key] {
      var i :| 0 <= i < |forms| && Assigns(forms[i], key);
    }
    assert m.Keys == m'.Keys;
  }
}
