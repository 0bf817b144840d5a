/** Merging a .env file into the environment of a command, and resolving settings from the environment,
    the .env file and the YAML file. */
module Environment {
  import opened Wrappers
  import opened DotEnv
  import opened DotEnvRoundTrip
  import opened DotEnvGrammar

  // ------------------------------------------------------------ a process environment

  predicate Names(entry: string, key: string) {
    Cut(entry).found && Cut(entry).key == key
  }

  /** What the environment gives a name: its first entry with an equals sign after that name. */
  function EntryOf(env: seq<string>, key: string): Option<string> {
    if env == [] then None
    else if Names(env[0], key) then Some(Cut(env[0]).value)
    else EntryOf(env[1..], key)
  }

  /** os.LookupEnv. */
  function LookupEnv(env: seq<string>, key: string): Option<string> {
    if key == "" then None else EntryOf(env, key)
  }

  /** No two entries give one name different values; true of any environment with distinct names. */
  ghost predicate Consistent(env: seq<string>) {
    forall i, j, key :: 0 <= i < |env| && 0 <= j < |env| && Names(env[i], key) && Names(env[j], key) ==>
      Cut(env[i]).value == Cut(env[j]).value
  }

  // ------------------------------------------------------------ the merge

  /** One entry of the environment over the values so far: a non-empty value wins, an empty one only
      fills a gap. */
  function MergeEntry(values: map<string, string>, entry: string): map<string, string> {
    var parts := Cut(entry);
    if parts.found && (parts.value != "" || parts.key !in values) then values[parts.key := parts.value] else values
  }

  function Merge(values: map<string, string>, env: seq<string>): map<string, string> {
    if env == [] then values else MergeEntry(Merge(values, env[..|env| - 1]), env[|env| - 1])
  }

  function Entry(key: string, value: string): string {
    key + "=" + value
  }

  /** `env` lists `m`, one entry a key, in some order. */
  ghost predicate Lists(env: seq<string>, m: map<string, string>) {
    && |env| == |m|
    && (forall key :: key in m ==> Entry(key, m[key]) in env)
    && (forall i :: 0 <= i < |env| ==> exists key :: key in m && env[i] == Entry(key, m[key]))
  }

  /** CommandEnvironment; the order of the result is the iteration order of a Go map, so any. */
  method CommandEnvironment(file: File, environment: seq<string>) returns (r: Result<seq<string>, ReadError>)
    ensures file == Missing ==> r.Success? && Lists(r.value, Merge(map[], environment))
    ensures file == Unreadable ==> r.Failure?
    ensures file.Content? ==> (r.Success? <==> Readable(Forms(Lines(file.text))))
    ensures file.Content? && r.Success? ==>
              exists m :: Holds(Forms(Lines(file.text)), m) && Lists(r.value, Merge(m, environment))
  {
    var read := ReadEnvFile(file);
    if read.Failure? { return Failure(read.error); }
    var values := read.value;
    var n := 0;
    while n < |environment|
      invariant n <= |environment| && values == Merge(read.value, environment[..n])
    {
      MergeNext(read.value, environment, n);
      var parts := Cut(environment[n]);
      if parts.found {
        if parts.value != "" || parts.key !in values {
          values := values[parts.key := parts.value];
        }
      }
      n := n + 1;
    }
    assert environment[..n] == environment;
    var result := ListOf(values);
    r := Success(result);
  }

  lemma MergeNext(values: map<string, string>, env: seq<string>, n: nat)
    requires n < |env|
    ensures Merge(values, env[..n + 1]) == MergeEntry(Merge(values, env[..n]), env[n])
  {
    assert env[..n + 1][..n] == env[..n];
  }

  method ListOf(m: map<string, string>) returns (env: seq<string>)
    ensures Lists(env, m)
  {
    env := [];
    var left := m.Keys;
    NoneLeft(m);
    while left != {}
      invariant left <= m.Keys && Lists(env, m - left)
      decreases |left|
    {
      var key :| key in left;
      ListsNext(env, m, left, key);
      env := env + [Entry(key, m[key])];
      left := left - {key};
    }
  }

  lemma NoneLeft(m: map<string, string>)
    ensures m - m.Keys == map[] && m - {} == m
  {
  }

  lemma ListsNext(env: seq<string>, m: map<string, string>, left: set<string>, key: string)
    requires key in left && left <= m.Keys && Lists(env, m - left)
    ensures Lists(env + [Entry(key, m[key])], m - (left - {key}))
  {
    ListsThen(env, m - left, key, m[key]);
    assert m - (left - {key}) == (m - left)[key := m[key]];
  }

  lemma ListsThen(env: seq<string>, m: map<string, string>, key: string, value: string)
    requires Lists(env, m) && key !in m
    ensures Lists(env + [Entry(key, value)], m[key := value])
  {
    var env', m' := env + [Entry(key, value)], m[key := value];
    forall i | 0 <= i < |env'| ensures exists k :: k in m' && env'[i] == Entry(k, m'[k]) {
      if i < |env| {
        var k :| k in m && env[i] == Entry(k, m[k]);
        assert k in m' && env'[i] == Entry(k, m'[k]);
      } else {
        assert key in m' && env'[i] == Entry(key, m'[key]);
      }
    }
  }

  // ------------------------------------------------------------ the resolver

  datatype Sources = Sources(env: seq<string>, dotenv: map<string, string>, yaml: map<string, string>)

  /** A Go map read: the zero value when the key is absent. */
  function Get(m: map<string, string>, key: string): string {
    if key in m then m[key] else ""
  }

  function Filled(value: Option<string>): Option<string> {
    if value.Some? && value.value != "" then value else None
  }

  function Lookup(src: Sources, envKey: string, yamlKey: string): Option<string> {
    if Filled(LookupEnv(src.env, envKey)).Some? then LookupEnv(src.env, envKey)
    else if Get(src.dotenv, envKey) != "" then Some(src.dotenv[envKey])
    else if Get(src.yaml, yamlKey) != "" then Some(src.yaml[yamlKey])
    else None
  }

  /** A secret never comes from the YAML file; None is a reported problem. */
  function SecretOf(src: Sources, envKey: string): Option<string> {
    if Filled(LookupEnv(src.env, envKey)).Some? then LookupEnv(src.env, envKey)
    else if Get(src.dotenv, envKey) != "" then Some(src.dotenv[envKey])
    else None
  }

  datatype Missing = MissingSetting(envKey: string, yamlKey: string) | MissingSecret(envKey: string)

  /** The environment has a non-empty value under the name. */
  predicate InEnv(src: Sources, envKey: string) {
    LookupEnv(src.env, envKey).Some? && LookupEnv(src.env, envKey).value != ""
  }

  predicate InDotEnv(src: Sources, envKey: string) {
    envKey in src.dotenv && src.dotenv[envKey] != ""
  }

  predicate InYaml(src: Sources, yamlKey: string) {
    yamlKey in src.yaml && src.yaml[yamlKey] != ""
  }

  /** The resolver collects problems instead of stopping at the first. */
  class Resolver {
    const src: Sources
    var problems: seq<Missing>

    constructor (src: Sources)
      ensures this.src == src && problems == []
    {
      this.src := src;
      problems := [];
    }

    /** A setting: a non-empty value of the environment, else of the .env file, else of the YAML file, else it is
        missing. */
    method Str(envKey: string, yamlKey: string) returns (value: string)
      modifies this`problems
      ensures Lookup(src, envKey, yamlKey) == (if value == "" then None else Some(value))
      ensures InEnv(src, envKey) ==> LookupEnv(src.env, envKey) == Some(value)
      ensures !InEnv(src, envKey) && InDotEnv(src, envKey) ==> value == src.dotenv[envKey]
      ensures !InEnv(src, envKey) && !InDotEnv(src, envKey) && InYaml(src, yamlKey) ==> value == src.yaml[yamlKey]
      ensures value == "" <==> !InEnv(src, envKey) && !InDotEnv(src, envKey) && !InYaml(src, yamlKey)
      ensures problems == old(problems) + (if value == "" then [MissingSetting(envKey, yamlKey)] else [])
    {
      var found := Lookup(src, envKey, yamlKey);
      if found.None? {
        problems := problems + [MissingSetting(envKey, yamlKey)];
        return "";
      }
      value := found.value;
    }

    /** A setting that may be empty. */
    method OptionalStr(envKey: string, yamlKey: string) returns (value: string)
      ensures InEnv(src, envKey) ==> LookupEnv(src.env, envKey) == Some(value)
      ensures !InEnv(src, envKey) && InDotEnv(src, envKey) ==> value == src.dotenv[envKey]
      ensures !InEnv(src, envKey) && !InDotEnv(src, envKey) && InYaml(src, yamlKey) ==> value == src.yaml[yamlKey]
      ensures value == "" <==> !InEnv(src, envKey) && !InDotEnv(src, envKey) && !InYaml(src, yamlKey)
    {
      var found := Lookup(src, envKey, yamlKey);
      value := if found.Some? then found.value else "";
    }

    /** A secret: a non-empty value of the environment, else of the .env file, else it is missing. */
    method Secret(envKey: string) returns (value: string)
      modifies this`problems
      ensures SecretOf(src, envKey) == (if value == "" then None else Some(value))
      ensures InEnv(src, envKey) ==> LookupEnv(src.env, envKey) == Some(value)
      ensures !InEnv(src, envKey) && InDotEnv(src, envKey) ==> value == src.dotenv[envKey]
      ensures value == "" <==> !InEnv(src, envKey) && !InDotEnv(src, envKey)
      ensures problems == old(problems) + (if value == "" then [MissingSecret(envKey)] else [])
    {
      var inEnv := LookupEnv(src.env, envKey);
      if inEnv.Some? && inEnv.value != "" { return inEnv.value; }
      value := Get(src.dotenv, envKey);
      if value != "" { return value; }
      problems := problems + [MissingSecret(envKey)];
      value := "";
    }

    /** A secret that may be missing. */
    method OptionalSecret(envKey: string) returns (value: string)
      ensures value == (if SecretOf(src, envKey).Some? then SecretOf(src, envKey).value else "")
      ensures InEnv(src, envKey) ==> LookupEnv(src.env, envKey) == Some(value)
      ensures !InEnv(src, envKey) && InDotEnv(src, envKey) ==> value == src.dotenv[envKey]
      ensures value == "" <==> !InEnv(src, envKey) && !InDotEnv(src, envKey)
    {
      var inEnv := LookupEnv(src.env, envKey);
      if inEnv.Some? && inEnv.value != "" { return inEnv.value; }
      value := Get(src.dotenv, envKey);
    }
  }

  // ------------------------------------------------------------ transparency

  /** An entry names a key and gives it a value exactly if it is the key, an equals sign and the value. */
  lemma NamesMeans(entry: string, key: string, value: string)
    ensures Names(entry, key) && Cut(entry).value == value <==> entry == key + "=" + value && '=' !in key
  {
    CutParts(entry);
    if entry == key + "=" + value && '=' !in key { CutOf(key, value); }
  }

  /** What the environment gives a name: the value of the first entry that names it. */
  lemma {:induction false} EntryAt(env: seq<string>, key: string)
    ensures EntryOf(env, key).None? ==> forall i :: 0 <= i < |env| ==> !Names(env[i], key)
    ensures EntryOf(env, key).Some? ==>
              exists i :: 0 <= i < |env| && Names(env[i], key) && (forall j :: 0 <= j < i ==> !Names(env[j], key))
                          && EntryOf(env, key) == Some(Cut(env[i]).value)
  {
    if env != [] && !Names(env[0], key) {
      EntryAt(env[1..], key);
      if EntryOf(env, key).Some? {
        var i :| 0 <= i < |env| - 1 && Names(env[1..][i], key) && EntryOf(env, key) == Some(Cut(env[1..][i]).value);
        assert Names(env[i + 1], key);
      } else {
        forall i | 0 <= i < |env| ensures !Names(env[i], key) { if i > 0 { assert env[i] == env[1..][i - 1]; } }
      }
    }
  }

  /** What the merge gives a name. */
  function Winner(values: map<string, string>, entry: Option<string>, key: string): Option<string> {
    if entry.Some? && (entry.value != "" || key !in values) then entry
    else if key in values then Some(values[key])
    else None
  }

  ghost predicate Gives(m: map<string, string>, key: string, value: Option<string>) {
    if key in m then value == Some(m[key]) else value == None
  }

  lemma {:induction false} EntryOfThen(env: seq<string>, entry: string, key: string)
    ensures EntryOf(env + [entry], key) ==
            if EntryOf(env, key).Some? then EntryOf(env, key)
            else if Names(entry, key) then Some(Cut(entry).value) else None
  {
    var env' := env + [entry];
    if env == [] {
      assert env'[1..] == [];
    } else {
      assert env'[0] == env[0] && env'[1..] == env[1..] + [entry];
      EntryOfThen(env[1..], entry, key);
    }
  }

  lemma {:induction false} MergedAt(values: map<string, string>, env: seq<string>, key: string)
    requires Consistent(env)
    ensures Gives(Merge(values, env), key, Winner(values, EntryOf(env, key), key))
  {
    if env != [] {
      var n := |env| - 1;
      var before, last := env[..n], env[n];
      MergedAt(values, before, key);
      assert before + [last] == env;
      EntryOfThen(before, last, key);
      EntryAt(before, key);
      if Names(last, key) && EntryOf(before, key).Some? {
        var i :| 0 <= i < n && Names(before[i], key) && EntryOf(before, key) == Some(Cut(before[i]).value);
        assert Names(env[i], key) && Names(env[n], key);
      }
    }
  }

  ghost predicate PlainKeys(m: map<string, string>) {
    forall key :: key in m ==> '=' !in key
  }

  lemma {:induction false} CutPlain(s: string)
    ensures '=' !in Cut(s).key
  {
    if s != "" && s[0] != '=' { CutPlain(s[1..]); }
  }

  lemma {:induction false} MergePlain(values: map<string, string>, env: seq<string>)
    requires PlainKeys(values)
    ensures PlainKeys(Merge(values, env))
  {
    if env != [] {
      MergePlain(values, env[..|env| - 1]);
      CutPlain(env[|env| - 1]);
    }
  }

  lemma ListedEntry(env: seq<string>, m: map<string, string>, i: nat, key: string)
    requires Lists(env, m) && PlainKeys(m) && i < |env| && Names(env[i], key)
    ensures key in m && Cut(env[i]).value == m[key]
  {
    var k :| k in m && env[i] == Entry(k, m[k]);
    CutOf(k, m[k]);
  }

  /** A listing of a map gives every name what the map gives it. */
  lemma Listed(env: seq<string>, m: map<string, string>, key: string)
    requires Lists(env, m) && PlainKeys(m)
    ensures Gives(m, key, EntryOf(env, key)) && Consistent(env)
  {
    EntryAt(env, key);
    if key in m {
      var i :| 0 <= i < |env| && env[i] == Entry(key, m[key]);
      CutOf(key, m[key]);
      assert Names(env[i], key);
    }
    if EntryOf(env, key).Some? {
      var i :| 0 <= i < |env| && Names(env[i], key) && EntryOf(env, key) == Some(Cut(env[i]).value);
      ListedEntry(env, m, i, key);
    }
    forall i, j, k | 0 <= i < |env| && 0 <= j < |env| && Names(env[i], k) && Names(env[j], k)
      ensures Cut(env[i]).value == Cut(env[j]).value
    {
      ListedEntry(env, m, i, k);
      ListedEntry(env, m, j, k);
    }
  }

  lemma ReadPlain(text: string, m: map<string, string>)
    requires Holds(Forms(Lines(text)), m)
    ensures PlainKeys(m)
  {
    WhatIsReadFits(text, m);
    forall key | key in m ensures '=' !in key {
      ValidKeys(key);
      KeyIsPlain(key);
    }
  }

  /** What a command started with the merged environment finds under a name. */
  lemma MergedEntry(m: map<string, string>, env: seq<string>, merged: seq<string>, key: string)
    requires PlainKeys(m) && Consistent(env) && Lists(merged, Merge(m, env))
    ensures EntryOf(merged, key) == Winner(m, EntryOf(env, key), key)
  {
    MergePlain(m, env);
    Listed(merged, Merge(m, env), key);
    MergedAt(m, env, key);
  }

  /** envexec is transparent: every setting and secret has under the merged environment the value it has
      under the original sources, whether the command reads the .env file again or not. */
  lemma Transparent(text: string, m: map<string, string>, env: seq<string>, merged: seq<string>,
                    yaml: map<string, string>, reread: bool, envKey: string, yamlKey: string)
    requires Holds(Forms(Lines(text)), m) && Consistent(env) && Lists(merged, Merge(m, env))
    ensures var before, after := Sources(env, m, yaml), Sources(merged, if reread then m else map[], yaml);
            && Lookup(after, envKey, yamlKey) == Lookup(before, envKey, yamlKey)
            && SecretOf(after, envKey) == SecretOf(before, envKey)
  {
    ReadPlain(text, m);
    MergedEntry(m, env, merged, envKey);
    if "" in m { WhatIsReadFits(text, m); }
    WinnerResolves(m, env, merged, yaml, reread, envKey, yamlKey);
  }

  lemma WinnerResolves(m: map<string, string>, env: seq<string>, merged: seq<string>, yaml: map<string, string>,
                       reread: bool, envKey: string, yamlKey: string)
    requires EntryOf(merged, envKey) == Winner(m, EntryOf(env, envKey), envKey) && "" !in m
    ensures var before, after := Sources(env, m, yaml), Sources(merged, if reread then m else map[], yaml);
            && Lookup(after, envKey, yamlKey) == Lookup(before, envKey, yamlKey)
            && SecretOf(after, envKey) == SecretOf(before, envKey)
  {
  }

  predicate Agree(m: map<string, string>, m': map<string, string>, key: string) {
    (key in m <==> key in m') && (key in m ==> m[key] == m'[key])
  }

  lemma MergedOnceAt(m: map<string, string>, env: seq<string>, merged: seq<string>, key: string)
    requires PlainKeys(m) && Consistent(env) && Lists(merged, Merge(m, env))
    ensures Agree(Merge(m, merged), Merge(m, env), key)
  {
    MergePlain(m, env);
    Listed(merged, Merge(m, env), key);
    MergedAt(m, env, key);
    MergedAt(m, merged, key);
  }

  /** Merging the same file into the merged environment changes nothing. */
  lemma MergedOnce(text: string, m: map<string, string>, env: seq<string>, merged: seq<string>)
    requires Holds(Forms(Lines(text)), m) && Consistent(env) && Lists(merged, Merge(m, env))
    ensures Merge(m, merged) == Merge(m, env)
  {
    ReadPlain(text, m);
    MergePlain(m, env);
    forall key ensures Agree(Merge(m, merged), Merge(m, env), key) {
      MergedOnceAt(m, env, merged, key);
    }
    SameMap(Merge(m, merged), Merge(m, env));
  }

  lemma SameMap(m: map<string, string>, m': map<string, string>)
    requires forall key :: Agree(m, m', key)
    ensures m == m'
  {
    forall key | key in m || key in m' ensures key in m && key in m' && m[key] == m'[key] { assert Agree(m, m', key); }
    assert m.Keys == m'.Keys;
  }
}
