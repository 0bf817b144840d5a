/** Runs put together from whole calls, and a run in which cleanup has swept a spent row. */
module SessionRuns {
  import opened Wrappers
  import opened SessionModel
  import opened SessionReuse

  lemma RunJoin(run: seq<State>, steps: seq<Action>, more: seq<State>, later: seq<Action>)
    requires Run(run, steps) && Run(more, later) && run[|steps|] == more[0]
    ensures Run(run + more[1..], steps + later)
    ensures (run + more[1..])[0] == run[0] && (run + more[1..])[|steps| + |later|] == more[|later|]
  {
    var all, acts := run + more[1..], steps + later;
    forall k | 0 <= k < |acts| ensures StepAt(all, acts, k) {
      if k < |steps| { assert StepAt(run, steps, k); } else { assert StepAt(more, later, k - |steps|); }
    }
  }

  lemma RunPrefix(run: seq<State>, steps: seq<Action>, k: nat)
    requires Run(run, steps) && k <= |steps|
    ensures Run(run[..k + 1], steps[..k])
  {
    var less, acts := run[..k + 1], steps[..k];
    forall m | 0 <= m < k ensures StepAt(less, acts, m) { assert StepAt(run, steps, m); }
  }

  lemma OneStep(s: State, a: Action)
    requires Enabled(s, a)
    ensures Run([s, Apply(s, a)], [a])
  {
    assert StepAt([s, Apply(s, a)], [a], 0);
  }

  // ------------------------------------------------------------ a login

  function LoginSteps(i: nat, u: UserId, h: TokenHash, f: FamilyId): seq<Action> {
    [OnLogin(i, LoginRead(u)), OnLogin(i, LoginIssue(h)), OnLogin(i, CreateLock),
     OnLogin(i, CreateInsert(f)), OnLogin(i, CreateCommit)]
  }

  /** An idle caller `i` can log in as `u` and is given token `h` of family `f`. */
  ghost predicate CanLogIn(s: State, i: nat, u: UserId, h: TokenHash, f: FamilyId) {
    && At(s, i) && s.calls[i].Idle? && u in s.users && NoExclusive(s, i, u)
    && h !in s.seen && h !in s.tokens && f !in s.seenFamilies
  }

  ghost function VerifiedSession(s: State, u: UserId, h: TokenHash): Session
    requires u in s.users
  {
    Session(u, s.users[u].password, s.users[u].version, h, s.now + s.cfg.ttl, true)
  }

  /** The state after the statements of a login up to its INSERT. */
  ghost function UpToSession(s: State, i: nat, u: UserId, h: TokenHash, f: FamilyId): State
    requires CanLogIn(s, i, u, h, f)
  {
    Goto(s, i, CreateInserted(VerifiedSession(s, u, h), f)).(seen := s.seen + {h}, seenFamilies := s.seenFamilies + {f})
  }

  ghost function AfterLogin(s: State, i: nat, u: UserId, h: TokenHash, f: FamilyId): State
    requires CanLogIn(s, i, u, h, f)
  {
    DoCreateCommit(UpToSession(s, i, u, h, f), i)
  }

  lemma VerifyRun(s: State, i: nat, u: UserId, h: TokenHash, f: FamilyId) returns (run: seq<State>)
    requires CanLogIn(s, i, u, h, f)
    ensures Run(run, LoginSteps(i, u, h, f)[..3]) && run[0] == s
    ensures run[3] == Goto(s, i, CreateLocked(VerifiedSession(s, u, h))).(seen := s.seen + {h})
  {
    var x, drawn, steps := VerifiedSession(s, u, h), s.(seen := s.seen + {h}), LoginSteps(i, u, h, f)[..3];
    run := [s, Goto(s, i, LoginVerified(u, x.password, x.version)), Goto(drawn, i, LoginIssued(x)),
            Goto(drawn, i, CreateLocked(x))];
    forall k | 0 <= k < 3 ensures StepAt(run, steps, k) {
      if k == 0 { assert DoLoginRead(s, i, u) == run[1]; }
      else if k == 1 { assert DoLoginIssue(run[1], i, h) == run[2]; }
      else { assert CanCreateLock(run[2], i) && DoCreateLock(run[2], i) == run[3]; }
    }
  }

  lemma SessionInsert(s: State, i: nat, u: UserId, h: TokenHash, f: FamilyId)
    requires CanLogIn(s, i, u, h, f)
    ensures var t := Goto(s, i, CreateLocked(VerifiedSession(s, u, h))).(seen := s.seen + {h});
            CanCreateInsert(t, i, f) && DoCreateInsert(t, i, f) == UpToSession(s, i, u, h, f)
  {
  }

  lemma LoginRun(s: State, i: nat, u: UserId, h: TokenHash, f: FamilyId) returns (run: seq<State>)
    requires CanLogIn(s, i, u, h, f)
    ensures Run(run, LoginSteps(i, u, h, f)) && run[0] == s && run[5] == AfterLogin(s, i, u, h, f)
  {
    var steps := LoginSteps(i, u, h, f);
    var verified := VerifyRun(s, i, u, h, f);
    SessionInsert(s, i, u, h, f);
    RunThen(verified, steps[..3], OnLogin(i, CreateInsert(f)));
    var inserted := verified + [DoCreateInsert(verified[3], i, f)];
    RunThen(inserted, steps[..3] + [OnLogin(i, CreateInsert(f))], OnLogin(i, CreateCommit));
    run := inserted + [DoCreateCommit(inserted[4], i)];
    assert steps[..3] + [OnLogin(i, CreateInsert(f))] + [OnLogin(i, CreateCommit)] == steps;
  }

  // ------------------------------------------------------------ one user, logged in

  /** Three callers, tokens that last 10, spent rows kept for 1. */
  function Fresh(): State {
    State(Config(10, 1), 0, map[], map[], 0, [Idle, Idle, Idle], Counters(0, 0, 0, 0), {}, {}, map[], map[], map[], [])
  }

  function FirstSteps(): seq<Action> {
    [OnUsers(Register(7, 0))] + LoginSteps(0, 0, 1, 5)
  }

  /** User 0 has registered and logged in: token 1 of family 5 expires at 10. */
  ghost predicate LoggedIn(s: State) {
    && s.cfg == Config(10, 1) && s.now == 0 && s.calls == [Idle, Idle, Idle]
    && s.users == map[0 := User(7, 1, 0)] && s.tokens == map[1 := Row(0, 5, 10, None, None)]
    && s.seen == {1} && s.seenFamilies == {5} && s.chain == map[5 := [1]]
    && s.births == map[1 := Birth(0, 5, 10, 0, None, 0, 0, 7, 1)] && |s.log| == 1
  }

  lemma FirstLogin() returns (run: seq<State>)
    ensures Behavior(run, FirstSteps()) && LoggedIn(run[6])
  {
    var registered := DoRegister(Fresh(), 7, 0);
    OneStep(Fresh(), OnUsers(Register(7, 0)));
    var login := LoginRun(registered, 0, 0, 1, 5);
    RunJoin([Fresh(), registered], [OnUsers(Register(7, 0))], login, LoginSteps(0, 0, 1, 5));
    run := [Fresh(), registered] + login[1..];
  }

  // ------------------------------------------------------------ a spent row that was swept

  /** Token 1 is exchanged for token 2 at 6, expires at 10, and is swept at 12. */
  function SweptSteps(): seq<Action> {
    FirstSteps() + ([Tick(6)] + ExchangeSteps(0, 1, 2) + [Tick(12), OnOther(1, SweepBegin), OnOther(1, SweepRun)])
  }

  /** The tables when the sweep begins. */
  ghost predicate ExchangedAtSix(s: State) {
    && s.cfg == Config(10, 1) && s.now == 6 && s.calls == [Counting(Rotations, 1), Idle, Idle]
    && s.tokens == map[1 := Row(0, 5, 10, Some(6), Some(Rotated)), 2 := Row(0, 5, 16, None, None)]
    && |s.log| == 2 && s.log[1] == TokenRotated(0, 1, 2)
  }

  lemma ExchangeNow(s: State) returns (run: seq<State>)
    requires LoggedIn(s.(now := 0)) && s.now == 6
    ensures Run(run, ExchangeSteps(0, 1, 2)) && run[0] == s && ExchangedAtSix(run[6])
  {
    run := ExchangeRun(s, 0, 1, 2);
  }

  lemma ExchangeAtSix(s: State) returns (run: seq<State>)
    requires LoggedIn(s)
    ensures Run(run, [Tick(6)] + ExchangeSteps(0, 1, 2)) && run[0] == s && ExchangedAtSix(run[7])
  {
    var six := s.(now := 6);
    OneStep(s, Tick(6));
    var exchange := ExchangeNow(six);
    RunJoin([s, six], [Tick(6)], exchange, ExchangeSteps(0, 1, 2));
    run := [s, six] + exchange[1..];
  }

  /** The sweep that begins at 12 deletes what expired before 11. */
  lemma SweepDeletes(s: State)
    requires s.calls == [Counting(Rotations, 1), SweepDue(11), Idle] && s.now == 12
    requires s.tokens == map[1 := Row(0, 5, 10, Some(6), Some(Rotated)), 2 := Row(0, 5, 16, None, None)]
    ensures CanSweepRun(s, 1)
    ensures DoSweepRun(s, 1).tokens == map[2 := Row(0, 5, 16, None, None)]
    ensures DoSweepRun(s, 1).now == 12 && DoSweepRun(s, 1).log == s.log
  {
  }

  lemma SweepAtTwelve(s: State) returns (run: seq<State>)
    requires ExchangedAtSix(s)
    ensures Run(run, [Tick(12), OnOther(1, SweepBegin), OnOther(1, SweepRun)]) && run[0] == s
    ensures run[3].tokens == map[2 := Row(0, 5, 16, None, None)] && run[3].now == 12 && run[3].log == s.log
  {
    var twelve := s.(now := 12);
    var due := DoSweepBegin(twelve, 1);
    SweepDeletes(due);
    OneStep(s, Tick(12));
    RunThen([s, twelve], [Tick(12)], OnOther(1, SweepBegin));
    RunThen([s, twelve] + [due], [Tick(12)] + [OnOther(1, SweepBegin)], OnOther(1, SweepRun));
    run := [s, twelve] + [due] + [DoSweepRun(due, 1)];
  }

  /** A spent token whose row was swept is answered as unknown, though its chain still has a live token. */
  lemma SweptReplayIsUnknown() returns (run: seq<State>)
    ensures Behavior(run, SweptSteps())
    ensures var s := run[|SweptSteps()|];
            && |s.log| == 2 && s.log[1] == TokenRotated(0, 1, 2) && s.now == 12
            && 1 !in s.tokens && FamilyLive(s.tokens, 5, s.now) && Classify(s.tokens, 1, s.now, s.now) == Unknown
  {
    var first := FirstLogin();
    var exchange := ExchangeAtSix(first[6]);
    var sweep := SweepAtTwelve(exchange[7]);
    var later := [Tick(12), OnOther(1, SweepBegin), OnOther(1, SweepRun)];
    RunJoin(exchange, [Tick(6)] + ExchangeSteps(0, 1, 2), sweep, later);
    var rest := exchange + sweep[1..];
    RunJoin(first, FirstSteps(), rest, [Tick(6)] + ExchangeSteps(0, 1, 2) + later);
    run := first + rest[1..];
    assert Live(sweep[3].tokens[2], 12);
  }
}
