/** When a family without a live token stays without one. */
module SessionFamilies {
  import opened Wrappers
  import opened SessionModel
  import opened SessionInvariant
  import opened SessionWrites
  import opened SessionSafety
  import opened SessionReuse
  import opened SessionRuns
  import opened SessionTheorems

  /** The family has existed and has no live token in the committed table. */
  ghost predicate Dead(s: State, f: FamilyId) {
    f in s.chain && !FamilyLive(s.tokens, f, s.now)
  }

  ghost predicate OfFamily(s: State, h: TokenHash, f: FamilyId) {
    h in s.births && s.births[h].family == f
  }

  /** Call `i` consumed a token of `f` in time and can still store a replacement that is not expired. */
  ghost predicate MayRevive(s: State, f: FamilyId, i: nat) {
    && At(s, i)
    && (s.calls[i].RotateConsumed? || s.calls[i].RotateInserted?)
    && OfFamily(s, s.calls[i].x.presented, f)
    && s.calls[i].x.unseen && s.calls[i].x.expires > s.now
  }

  /** Dead, and no exchange in flight can change that. */
  ghost predicate Doomed(s: State, f: FamilyId) {
    Dead(s, f) && forall i: nat :: !MayRevive(s, f, i)
  }

  // ------------------------------------------------------------ a doomed family stays doomed

  /** A step that keeps the births and stores no new live row of `f` keeps a family doomed, if its
      call did not just consume. */
  lemma DoomedFrame(s: State, t: State, f: FamilyId)
    requires Doomed(s, f) && s.chain.Keys <= t.chain.Keys && s.now <= t.now && |t.calls| == |s.calls|
    requires forall h :: h in t.tokens && Active(t.tokens[h]) && t.tokens[h].family == f ==>
               (h in s.tokens && s.tokens[h] == t.tokens[h]) || t.tokens[h].expires <= t.now
    requires forall i: nat :: MayRevive(t, f, i) ==> MayRevive(s, f, i)
    ensures Doomed(t, f)
  {
  }

  lemma DoomedUser(s: State, a: UserStep, f: FamilyId)
    requires UserEnabled(s, a) && Doomed(s, f)
    ensures Doomed(UserApply(s, a), f)
  {
    var t := UserApply(s, a);
    assert forall i: nat :: MayRevive(t, f, i) ==> MayRevive(s, f, i);
  }

  /** The token an exchange consumed has a history. */
  ghost predicate PresentedKnown(s: State) {
    forall j :: 0 <= j < |s.calls| && (s.calls[j].RotateConsumed? || s.calls[j].RotateInserted?) ==>
      s.calls[j].x.presented in s.births
  }

  lemma CallsKnowPresented(s: State)
    requires CallsOk(s)
    ensures PresentedKnown(s)
  {
    forall j | 0 <= j < |s.calls| && (s.calls[j].RotateConsumed? || s.calls[j].RotateInserted?)
      ensures s.calls[j].x.presented in s.births
    {
      assert CallOk(s, s.calls[j]);
    }
  }

  lemma DoomedLogin(s: State, i: nat, a: LoginStep, f: FamilyId)
    requires LoginEnabled(s, i, a) && Doomed(s, f) && CallOk(s, s.calls[i])
    requires PresentedKnown(s)
    ensures Doomed(LoginApply(s, i, a), f)
  {
    var t := LoginApply(s, i, a);
    assert forall j: nat :: MayRevive(t, f, j) ==> MayRevive(s, f, j);
    DoomedFrame(s, t, f);
  }

  lemma DoomedOwner(s: State, i: nat, a: OwnerStep, f: FamilyId)
    requires OwnerEnabled(s, i, a) && Doomed(s, f)
    ensures Doomed(OwnerApply(s, i, a), f)
  {
    var t := OwnerApply(s, i, a);
    assert forall j: nat :: MayRevive(t, f, j) ==> MayRevive(s, f, j);
    DoomedFrame(s, t, f);
  }

  lemma DoomedOther(s: State, i: nat, a: OtherStep, f: FamilyId)
    requires OtherEnabled(s, i, a) && Doomed(s, f)
    ensures Doomed(OtherApply(s, i, a), f)
  {
    var t := OtherApply(s, i, a);
    assert forall j: nat :: MayRevive(t, f, j) ==> MayRevive(s, f, j);
    DoomedFrame(s, t, f);
  }

  lemma DoomedStatement(s: State, i: nat, a: RefreshStep, f: FamilyId)
    requires RefreshEnabled(s, i, a) && a != RotateCommit && a != ReuseCommit
    requires Doomed(s, f) && CallOk(s, s.calls[i]) && RowsOk(s.users, s.tokens, s.births)
    ensures Doomed(RefreshApply(s, i, a), f)
  {
    RefreshMoves(s, i, a);
    StatementRevives(s, i, a, f);
    DoomedFrame(s, RefreshApply(s, i, a), f);
  }

  /** A consume cannot begin an exchange that revives `f`, because it needs a live token. */
  lemma ConsumeRevives(s: State, i: nat, f: FamilyId)
    requires CanRotateConsume(s, i) && Dead(s, f) && RowsOk(s.users, s.tokens, s.births)
    ensures !MayRevive(DoRotateConsume(s, i), f, i)
  {
    var p := s.calls[i].x.presented;
    if p in s.tokens && Live(s.tokens[p], s.now) {} else {}
  }

  lemma OwnRevival(s: State, i: nat, a: RefreshStep, f: FamilyId)
    requires RefreshEnabled(s, i, a) && a != RotateCommit && a != ReuseCommit
    requires Dead(s, f) && RowsOk(s.users, s.tokens, s.births)
    ensures MayRevive(RefreshApply(s, i, a), f, i) ==> MayRevive(s, f, i)
  {
    match a
    case RefreshBegin(presented, replacement) =>
    case RotateLookup =>
    case RotateLock =>
    case RotateConsume => ConsumeRevives(s, i, f);
    case RotateInsert =>
    case RotateInspect(at, familyAt) =>
    case RotateRevoke =>
  }

  lemma StatementRevives(s: State, i: nat, a: RefreshStep, f: FamilyId)
    requires RefreshEnabled(s, i, a) && a != RotateCommit && a != ReuseCommit
    requires Dead(s, f) && RowsOk(s.users, s.tokens, s.births)
    ensures var t := RefreshApply(s, i, a);
            && t.births == s.births && t.chain == s.chain && s.now <= t.now && t.tokens == s.tokens
            && forall j: nat :: MayRevive(t, f, j) ==> MayRevive(s, f, j)
  {
    OwnRevival(s, i, a, f);
    RefreshMoves(s, i, a);
    StatementKeeps(s, i, a);
  }

  lemma StatementKeeps(s: State, i: nat, a: RefreshStep)
    requires RefreshEnabled(s, i, a) && a != RotateCommit && a != ReuseCommit
    ensures var t := RefreshApply(s, i, a);
            t.births == s.births && t.chain == s.chain && s.now <= t.now && t.tokens == s.tokens
  {
    RefreshWritesAtCommit(s, i, a);
    match a
    case RefreshBegin(presented, replacement) =>
    case RotateLookup => assert DoRotateLookup(s, i).births == s.births;
    case RotateLock => assert DoRotateLock(s, i).births == s.births;
    case RotateConsume => assert DoRotateConsume(s, i).births == s.births;
    case RotateInsert => assert DoRotateInsert(s, i).births == s.births;
    case RotateInspect(at, familyAt) => InspectKeeps(s, i, at, familyAt);
    case RotateRevoke =>
  }

  lemma InspectKeeps(s: State, i: nat, at: Time, familyAt: Time)
    requires CanRotateInspect(s, i, at, familyAt)
    ensures var t := DoRotateInspect(s, i, at, familyAt); t.births == s.births && t.chain == s.chain && s.now <= t.now
  {
    if Classify(s.tokens, s.calls[i].presented, at, familyAt) == Reuse {} else {}
  }

  lemma DoomedRotateCommit(s: State, i: nat, f: FamilyId)
    requires CanRotateCommit(s, i) && Doomed(s, f) && CallOk(s, s.calls[i])
    requires RowsOk(s.users, s.tokens, s.births) && PresentedKnown(s)
    ensures Doomed(DoRotateCommit(s, i), f)
  {
    var t := DoRotateCommit(s, i);
    assert !MayRevive(s, f, i);
    assert forall j: nat :: MayRevive(t, f, j) ==> MayRevive(s, f, j);
    DoomedFrame(s, t, f);
  }

  lemma DoomedReuseCommit(s: State, i: nat, f: FamilyId)
    requires CanReuseCommit(s, i) && Doomed(s, f)
    ensures Doomed(DoReuseCommit(s, i), f)
  {
    var t := DoReuseCommit(s, i);
    assert forall j: nat :: MayRevive(t, f, j) ==> MayRevive(s, f, j);
    DoomedFrame(s, t, f);
  }

  lemma DoomedStep(s: State, a: Action, f: FamilyId)
    requires Inv(s) && Enabled(s, a) && Doomed(s, f)
    ensures Doomed(Apply(s, a), f)
  {
    CallsKnowPresented(s);
    match a
    case Tick(to) => DoomedTick(s, to, f);
    case OnUsers(u) => DoomedUser(s, u, f);
    case OnLogin(i, l) => {
      assert CallOk(s, s.calls[i]);
      DoomedLogin(s, i, l, f);
    }
    case OnRefresh(i, r) => {
      assert CallOk(s, s.calls[i]);
      if r.RotateCommit? { DoomedRotateCommit(s, i, f); }
      else if r.ReuseCommit? { DoomedReuseCommit(s, i, f); }
      else { DoomedStatement(s, i, r, f); }
    }
    case OnOwner(i, o) => DoomedOwner(s, i, o, f);
    case OnOther(i, o) => DoomedOther(s, i, o, f);
  }

  lemma DoomedTick(s: State, to: Time, f: FamilyId)
    requires Doomed(s, f) && s.now <= to
    ensures Doomed(s.(now := to), f)
  {
    var t := s.(now := to);
    assert forall j: nat :: MayRevive(t, f, j) ==> MayRevive(s, f, j);
    DoomedFrame(s, t, f);
  }

  lemma {:induction false} DoomedRun(run: seq<State>, steps: seq<Action>, f: FamilyId, k: nat)
    requires Run(run, steps) && Inv(run[0]) && Doomed(run[0], f) && k < |run|
    ensures Inv(run[k]) && Doomed(run[k], f)
  {
    if k > 0 {
      DoomedRun(run, steps, f, k - 1);
      assert StepAt(run, steps, k - 1);
      DoomedStep(run[k - 1], steps[k - 1], f);
      StepInv(run[k - 1], steps[k - 1]);
    }
  }

  // ------------------------------------------------------------ exactly when a dead family revives

  ghost predicate RunsToLife(run: seq<State>, steps: seq<Action>, s: State, f: FamilyId) {
    Run(run, steps) && run[0] == s && FamilyLive(run[|steps|].tokens, f, run[|steps|].now)
  }

  /** Between `s` and `t` exchange `x` was completed and nothing else logged. */
  ghost predicate Completed(s: State, t: State, x: Exchange) {
    && x.presented in s.births && x.presented in t.births && t.births[x.presented] == s.births[x.presented]
    && (exists u :: t.log == s.log + [TokenRotated(u, x.presented, x.replacement)])
    && x.replacement in t.tokens && Active(t.tokens[x.replacement]) && t.tokens[x.replacement].expires == x.expires
    && t.tokens[x.replacement].family == s.births[x.presented].family && t.now == s.now
  }

  lemma CommitCompletes(s: State, i: nat)
    requires At(s, i) && s.calls[i].RotateInserted? && CallOk(s, s.calls[i])
    requires RowsOk(s.users, s.tokens, s.births) && TailOk(s.tokens, s.births, s.chain)
    ensures CanRotateCommit(s, i) && Completed(s, DoRotateCommit(s, i), s.calls[i].x)
  {
    ConsumedIsNewest(s, i);
    var x, t := s.calls[i].x, DoRotateCommit(s, i);
    assert t.log == s.log + [TokenRotated(s.tokens[x.presented].user, x.presented, x.replacement)];
  }

  /** After a consume whose replacement is fresh, nothing can keep the exchange from being stored. */
  lemma InsertGoesOn(s: State, i: nat)
    requires At(s, i) && s.calls[i].RotateConsumed? && s.calls[i].x.unseen && CallOk(s, s.calls[i])
    requires RowsOk(s.users, s.tokens, s.births)
    ensures CanRotateInsert(s, i)
    ensures var t := DoRotateInsert(s, i);
            && At(t, i) && t.calls[i].RotateInserted? && t.calls[i].x == s.calls[i].x && CallOk(t, t.calls[i])
            && t == s.(calls := t.calls)
  {
  }

  predicate Stores(c: Call) {
    (c.RotateConsumed? && c.x.unseen) || c.RotateInserted?
  }

  lemma FinishExchange(s: State, i: nat) returns (run: seq<State>, steps: seq<Action>)
    requires At(s, i) && Stores(s.calls[i]) && CallOk(s, s.calls[i])
    requires RowsOk(s.users, s.tokens, s.births) && TailOk(s.tokens, s.births, s.chain)
    ensures Run(run, steps) && run[0] == s && Completed(s, run[|steps|], s.calls[i].x)
  {
    if s.calls[i].RotateInserted? {
      CommitCompletes(s, i);
      run, steps := [s, DoRotateCommit(s, i)], [OnRefresh(i, RotateCommit)];
      OneStep(s, OnRefresh(i, RotateCommit));
    } else {
      InsertGoesOn(s, i);
      var t := DoRotateInsert(s, i);
      CommitCompletes(t, i);
      OneStep(s, OnRefresh(i, RotateInsert));
      RunThen([s, t], [OnRefresh(i, RotateInsert)], OnRefresh(i, RotateCommit));
      run, steps := [s, t] + [DoRotateCommit(t, i)], [OnRefresh(i, RotateInsert)] + [OnRefresh(i, RotateCommit)];
    }
  }

  lemma Revive(s: State, f: FamilyId, i: nat) returns (run: seq<State>, steps: seq<Action>)
    requires MayRevive(s, f, i) && CallOk(s, s.calls[i])
    requires RowsOk(s.users, s.tokens, s.births) && TailOk(s.tokens, s.births, s.chain)
    ensures RunsToLife(run, steps, s, f)
  {
    run, steps := FinishExchange(s, i);
    assert Live(run[|steps|].tokens[s.calls[i].x.replacement], run[|steps|].now);
  }

  /** A family without a live token can have one again exactly if some call consumed its last token
      before it expired, has not committed, and drew a replacement that is still in date. */
  lemma DeadFamilyRevivesExactlyIf(states: seq<State>, steps: seq<Action>, k: nat, f: FamilyId)
    requires Behavior(states, steps) && k < |states| && Dead(states[k], f)
    ensures (exists run, more :: RunsToLife(run, more, states[k], f)) <==> (exists i: nat :: MayRevive(states[k], f, i))
  {
    ReachableInv(states, steps, k);
    var s := states[k];
    if i: nat :| MayRevive(s, f, i) {
      assert CallOk(s, s.calls[i]);
      var run, more := Revive(s, f, i);
    } else {
      forall run, more | RunsToLife(run, more, s, f) ensures false {
        DoomedRun(run, more, f, |more|);
      }
    }
  }

  // ------------------------------------------------------------ a run in which a dead family revives

  /** After a login, a refresh consumes the token in time and is still in flight when it expires. */
  function OverrunSteps(): seq<Action> {
    FirstSteps() + LateSteps()
  }

  function LateSteps(): seq<Action> {
    [Tick(6)] + (LockSteps(0, 1, 2) + [OnRefresh(0, RotateConsume)] + [Tick(12)])
  }

  lemma ConsumeInTime(s: State) returns (run: seq<State>)
    requires LoggedIn(s.(now := 0)) && s.now == 6
    ensures Run(run, LockSteps(0, 1, 2) + [OnRefresh(0, RotateConsume)]) && run[0] == s
    ensures run[4] == Goto(s, 0, RotateConsumed(Exchange(1, 2, 16, true), 0)).(seen := s.seen + {1, 2})
  {
    var locked := LockRun(s, 0, 1, 2);
    ConsumeStep(s, 0, 1, 2);
    RunThen(locked, LockSteps(0, 1, 2), OnRefresh(0, RotateConsume));
    run := locked + [DoRotateConsume(locked[3], 0)];
  }

  lemma RefreshOverrun(s: State) returns (run: seq<State>)
    requires LoggedIn(s)
    ensures Run(run, LateSteps()) && run[0] == s
    ensures run[6] == Goto(s, 0, RotateConsumed(Exchange(1, 2, 16, true), 0)).(now := 12, seen := s.seen + {1, 2})
  {
    var consumed := ConsumeInTime(s.(now := 6));
    var steps := LockSteps(0, 1, 2) + [OnRefresh(0, RotateConsume)];
    RunThen(consumed, steps, Tick(12));
    var late := consumed + [consumed[4].(now := 12)];
    OneStep(s, Tick(6));
    RunJoin([s, s.(now := 6)], [Tick(6)], late, steps + [Tick(12)]);
    run := [s, s.(now := 6)] + late[1..];
  }

  lemma Overrun() returns (run: seq<State>)
    ensures Behavior(run, OverrunSteps()) && Dead(run[12], 5) && MayRevive(run[12], 5, 0)
  {
    var login := FirstLogin();
    var refresh := RefreshOverrun(login[6]);
    RunJoin(login, FirstSteps(), refresh, LateSteps());
    run := login + refresh[1..];
  }

  /** The token expires between the consume and the commit: the family is dead and comes to life. */
  lemma DeadFamilyCanRevive() returns (run: seq<State>)
    ensures Behavior(run, OverrunSteps()) && Dead(run[12], 5)
    ensures exists more, later :: RunsToLife(more, later, run[12], 5)
  {
    run := Overrun();
    DeadFamilyRevivesExactlyIf(run, OverrunSteps(), 12, 5);
    assert MayRevive(run[12], 5, 0);
  }

  // ------------------------------------------------------------ a settled family is harmless

  /** The token a refresh presents, at any of its statements. */
  ghost function RefreshToken(c: Call): Option<TokenHash> {
    match c
    case RotateMissed(p, _, _) => Some(p)
    case RotateReplay(p, _) => Some(p)
    case RotateEnding(p, _, _) => Some(p)
    case _ => if Presents(c).Some? then Some(Presents(c).value.0) else None
  }

  /** The call has consumed its token or decided that it was replayed. */
  predicate PastDecision(c: Call) {
    c.RotateConsumed? || c.RotateInserted? || c.RotateReplay? || c.RotateEnding?
  }

  ghost predicate Decides(s: State, f: FamilyId, i: nat) {
    && At(s, i) && PastDecision(s.calls[i])
    && RefreshToken(s.calls[i]).Some? && OfFamily(s, RefreshToken(s.calls[i]).value, f)
  }

  /** Call `i` can still store the exchange of a token of `f`, or end sessions for the replay of one. */
  ghost predicate CanHarm(s: State, f: FamilyId, i: nat) {
    Decides(s, f, i) && (s.calls[i].RotateConsumed? ==> s.calls[i].x.unseen)
  }

  /** Dead, and no refresh is past its decision on one of its tokens and able to act on it. */
  ghost predicate Settled(s: State, f: FamilyId) {
    Dead(s, f) && forall i: nat :: !CanHarm(s, f, i)
  }

  lemma SettledIsDoomed(s: State, f: FamilyId)
    requires Settled(s, f)
    ensures Doomed(s, f)
  {
    forall i: nat | MayRevive(s, f, i) ensures CanHarm(s, f, i) {
    }
  }

  /** The token a refresh past its decision presents has a history. */
  lemma DecidedKnown(s: State, i: nat)
    requires CallsOk(s) && At(s, i) && PastDecision(s.calls[i])
    ensures RefreshToken(s.calls[i]).Some? && RefreshToken(s.calls[i]).value in s.births
  {
    assert CallOk(s, s.calls[i]);
  }

  /** Only a consume or an inspection decides, and neither can for a dead family. */
  lemma NoDecision(s: State, i: nat, a: RefreshStep, f: FamilyId)
    requires RefreshEnabled(s, i, a) && a != RotateCommit && a != ReuseCommit
    requires Settled(s, f) && CallOk(s, s.calls[i]) && RowsOk(s.users, s.tokens, s.births)
    ensures !CanHarm(RefreshApply(s, i, a), f, i)
  {
    assert !CanHarm(s, f, i);
    match a
    case RefreshBegin(presented, replacement) =>
    case RotateLookup => if s.calls[i].x.presented in s.tokens {} else {}
    case RotateLock => if s.calls[i].owner in s.users {} else {}
    case RotateConsume => ConsumeSpares(s, i, f);
    case RotateInsert => InsertSpares(s, i, f);
    case RotateInspect(at, familyAt) => InspectSpares(s, i, at, familyAt, f);
    case RotateRevoke =>
  }

  lemma InsertSpares(s: State, i: nat, f: FamilyId)
    requires CanRotateInsert(s, i) && !CanHarm(s, f, i)
    ensures !CanHarm(DoRotateInsert(s, i), f, i)
  {
    var x := s.calls[i].x;
    if x.presented !in s.tokens || x.replacement in s.tokens {} else {}
  }

  lemma ConsumeSpares(s: State, i: nat, f: FamilyId)
    requires CanRotateConsume(s, i) && Dead(s, f) && RowsOk(s.users, s.tokens, s.births)
    ensures !CanHarm(DoRotateConsume(s, i), f, i)
  {
  }

  lemma InspectSpares(s: State, i: nat, at: Time, familyAt: Time, f: FamilyId)
    requires CanRotateInspect(s, i, at, familyAt) && Dead(s, f) && RowsOk(s.users, s.tokens, s.births)
    ensures !CanHarm(DoRotateInspect(s, i, at, familyAt), f, i)
  {
  }

  lemma LoginDecidesNothing(s: State, i: nat, a: LoginStep)
    requires LoginEnabled(s, i, a)
    ensures !PastDecision(LoginApply(s, i, a).calls[i])
  {
    match a
    case LoginRead(user) =>
    case LoginIssue(hash) =>
    case CreateLock =>
    case CreateInsert(family) =>
    case CreateCommit =>
  }

  lemma OwnerDecidesNothing(s: State, i: nat, a: OwnerStep)
    requires OwnerEnabled(s, i, a)
    ensures !PastDecision(OwnerApply(s, i, a).calls[i])
  {
    match a
    case Logout(hash) =>
    case ChangeLock(user, fields) =>
    case ChangeWrite =>
    case ChangeRevoke =>
    case ChangeCommit =>
    case BulkLock(user) =>
    case BulkRevoke =>
    case BulkCommit =>
  }

  lemma OtherDecidesNothing(s: State, i: nat, a: OtherStep)
    requires OtherEnabled(s, i, a)
    ensures !PastDecision(OtherApply(s, i, a).calls[i])
  {
  }

  /** Only a step of a refresh moves its call past a decision. */
  lemma OthersKeepPlace(s: State, a: Action, j: nat)
    requires Enabled(s, a) && At(s, j) && !(a.OnRefresh? && a.i == j)
    ensures |Apply(s, a).calls| == |s.calls|
    ensures Apply(s, a).calls[j] == s.calls[j] || !PastDecision(Apply(s, a).calls[j])
  {
    StepMovesOneCall(s, a);
    match a
    case OnLogin(i, l) => LoginDecidesNothing(s, i, l);
    case OnOwner(i, o) => OwnerDecidesNothing(s, i, o);
    case OnOther(i, o) => OtherDecidesNothing(s, i, o);
    case _ => {}
  }

  lemma HarmFrame(s: State, t: State, f: FamilyId, j: nat)
    requires Extends(s, t) && |t.calls| == |s.calls| && CanHarm(t, f, j) && t.calls[j] == s.calls[j]
    requires RefreshToken(s.calls[j]).Some? && RefreshToken(s.calls[j]).value in s.births
    ensures CanHarm(s, f, j)
  {
  }

  lemma SettledOwn(s: State, i: nat, a: RefreshStep, f: FamilyId)
    requires RefreshEnabled(s, i, a) && Settled(s, f) && CallOk(s, s.calls[i]) && RowsOk(s.users, s.tokens, s.births)
    ensures !CanHarm(RefreshApply(s, i, a), f, i)
  {
    if a != RotateCommit && a != ReuseCommit { NoDecision(s, i, a, f); }
  }

  lemma NobodyHarms(s: State, a: Action, f: FamilyId, j: nat)
    requires Inv(s) && Enabled(s, a) && Settled(s, f)
    ensures !CanHarm(Apply(s, a), f, j)
  {
    if CanHarm(Apply(s, a), f, j) {
      StepExtends(s, a);
      if a.OnRefresh? && a.i == j {
        assert CallOk(s, s.calls[j]);
        SettledOwn(s, j, a.refresh, f);
      } else {
        StepMovesOneCall(s, a);
        OthersKeepPlace(s, a, j);
        DecidedKnown(s, j);
        HarmFrame(s, Apply(s, a), f, j);
      }
      assert false;
    }
  }

  lemma SettledStep(s: State, a: Action, f: FamilyId)
    requires Inv(s) && Enabled(s, a) && Settled(s, f)
    ensures Settled(Apply(s, a), f)
  {
    SettledIsDoomed(s, f);
    DoomedStep(s, a, f);
    forall j: nat ensures !CanHarm(Apply(s, a), f, j) {
      NobodyHarms(s, a, f, j);
    }
  }

  /** What a step of a refresh must not do once the family of its token is settled. */
  ghost predicate WritesNothing(s: State, t: State) {
    && t.users == s.users && t.tokens == s.tokens
    && (t.log == s.log || exists p, v :: t.log == s.log + [RotateRefused(p, v)] && v != Reuse)
  }

  ghost predicate PresentsOf(s: State, f: FamilyId, i: nat) {
    At(s, i) && RefreshToken(s.calls[i]).Some? && OfFamily(s, RefreshToken(s.calls[i]).value, f)
  }

  /** Once a family is settled it stays so, and every step of every refresh that presents one of its
      tokens neither succeeds nor reports reuse and changes no row of any user. */
  lemma {:induction false} SettledFamilyIsHarmless(states: seq<State>, steps: seq<Action>, k: nat, m: nat, f: FamilyId)
    requires Behavior(states, steps) && k <= m < |states| && Settled(states[k], f)
    ensures Settled(states[m], f)
    ensures m < |steps| && steps[m].OnRefresh? && PresentsOf(states[m], f, steps[m].i) ==>
              WritesNothing(states[m], states[m + 1])
  {
    if k < m {
      SettledFamilyIsHarmless(states, steps, k, m - 1, f);
      ReachableInv(states, steps, m - 1);
      assert StepAt(states, steps, m - 1);
      SettledStep(states[m - 1], steps[m - 1], f);
    }
    if m < |steps| && steps[m].OnRefresh? {
      assert StepAt(states, steps, m);
      SettledRefresh(states[m], steps[m].i, steps[m].refresh, f);
    }
  }

  lemma SettledRefresh(s: State, i: nat, a: RefreshStep, f: FamilyId)
    requires Settled(s, f) && RefreshEnabled(s, i, a)
    ensures PresentsOf(s, f, i) ==> WritesNothing(s, RefreshApply(s, i, a))
  {
    assert !CanHarm(s, f, i);
    if a != RotateCommit && a != ReuseCommit { RefreshWritesAtCommit(s, i, a); }
  }

  // ------------------------------------------------------------ exactly when a dead family harms

  /** Event `n` is a success or a detected reuse of a refresh that presented a token of `f`. */
  ghost predicate HarmAt(s: State, n: nat, f: FamilyId)
    requires n < |s.log|
  {
    (s.log[n].TokenRotated? || s.log[n].ReuseEnded?) && OfFamily(s, s.log[n].presented, f)
  }

  /** A run from `s` in which a token of `f` is exchanged or reported as reused. */
  ghost predicate RunsToHarm(run: seq<State>, steps: seq<Action>, s: State, f: FamilyId) {
    && Run(run, steps) && run[0] == s
    && exists n: nat :: |s.log| <= n < |run[|steps|].log| && HarmAt(run[|steps|], n, f)
  }

  /** Since log position `from` only tokens of other families were exchanged or reported as reused. */
  ghost predicate Spared(s: State, from: nat, f: FamilyId) {
    && from <= |s.log|
    && forall n :: from <= n < |s.log| && (s.log[n].TokenRotated? || s.log[n].ReuseEnded?) ==>
         s.log[n].presented in s.births && s.births[s.log[n].presented].family != f
  }

  /** What one step logs about a settled family. */
  ghost predicate LogsNoHarm(s: State, t: State, f: FamilyId) {
    && |t.log| <= |s.log| + 1
    && (|t.log| == |s.log| + 1 && (t.log[|s.log|].TokenRotated? || t.log[|s.log|].ReuseEnded?) ==>
          t.log[|s.log|].presented in s.births && s.births[t.log[|s.log|].presented].family != f)
  }

  lemma LoginLogs(s: State, i: nat, a: LoginStep, f: FamilyId)
    requires LoginEnabled(s, i, a)
    ensures LogsNoHarm(s, LoginApply(s, i, a), f)
  {
  }

  lemma OwnerLogs(s: State, i: nat, a: OwnerStep, f: FamilyId)
    requires OwnerEnabled(s, i, a)
    ensures LogsNoHarm(s, OwnerApply(s, i, a), f)
  {
  }

  lemma RefreshLogs(s: State, i: nat, a: RefreshStep, f: FamilyId)
    requires RefreshEnabled(s, i, a) && Settled(s, f) && CallOk(s, s.calls[i])
    ensures LogsNoHarm(s, RefreshApply(s, i, a), f)
  {
    assert !CanHarm(s, f, i);
    match a
    case RefreshBegin(presented, replacement) =>
    case RotateLookup =>
    case RotateLock =>
    case RotateConsume =>
    case RotateInsert =>
    case RotateCommit =>
    case RotateInspect(at, familyAt) =>
    case RotateRevoke =>
    case ReuseCommit =>
  }

  lemma StepLogs(s: State, a: Action, f: FamilyId)
    requires Inv(s) && Enabled(s, a) && Settled(s, f)
    ensures LogsNoHarm(s, Apply(s, a), f)
  {
    match a
    case OnLogin(i, l) => LoginLogs(s, i, l, f);
    case OnRefresh(i, r) => {
      assert CallOk(s, s.calls[i]);
      RefreshLogs(s, i, r, f);
    }
    case OnOwner(i, o) => OwnerLogs(s, i, o, f);
    case _ => {}
  }

  lemma StillSpared(s: State, t: State, from: nat, f: FamilyId)
    requires Spared(s, from, f) && Extends(s, t) && LogsNoHarm(s, t, f)
    ensures Spared(t, from, f)
  {
    assert forall n :: 0 <= n < |s.log| ==> t.log[n] == s.log[n];
  }

  lemma {:induction false} SettledFrom(states: seq<State>, steps: seq<Action>, k: nat, m: nat, f: FamilyId)
    requires Behavior(states, steps) && k <= m < |states| && Settled(states[k], f)
    ensures Spared(states[m], |states[k].log|, f)
  {
    if k < m {
      SettledFrom(states, steps, k, m - 1, f);
      SettledFamilyIsHarmless(states, steps, k, m - 1, f);
      ReachableInv(states, steps, m - 1);
      assert StepAt(states, steps, m - 1);
      SparedStep(states[m - 1], steps[m - 1], |states[k].log|, f);
    }
  }

  lemma SparedStep(s: State, a: Action, from: nat, f: FamilyId)
    requires Inv(s) && Enabled(s, a) && Settled(s, f) && Spared(s, from, f)
    ensures Spared(Apply(s, a), from, f)
  {
    StepExtends(s, a);
    StepLogs(s, a, f);
    StillSpared(s, Apply(s, a), from, f);
  }

  /** A call that found a replay waits for nothing: no other call can hold a token of its user. */
  lemma RevocationIsFree(s: State, i: nat)
    requires CallsOk(s) && At(s, i) && s.calls[i].RotateReplay?
    ensures CanRotateRevoke(s, i)
  {
    var u := s.calls[i].owner;
    forall h, j | h in ActiveOf(s.tokens, u) && 0 <= j < |s.calls| && j != i ensures !LocksRow(s.calls[j], h) {
      assert Apart(s.calls[i], s.calls[j]) && CallOk(s, s.calls[j]);
    }
  }

  /** From a found replay of `p` to its commit. */
  ghost predicate Reported(s: State, t: State, p: TokenHash) {
    t.births == s.births && exists u, ended :: t.log == s.log + [ReuseEnded(u, p, ended)]
  }

  lemma FinishReplay(s: State, i: nat) returns (run: seq<State>)
    requires CallsOk(s) && At(s, i) && s.calls[i].RotateReplay?
    ensures Run(run, [OnRefresh(i, RotateRevoke), OnRefresh(i, ReuseCommit)]) && run[0] == s
    ensures Reported(s, run[2], s.calls[i].presented)
    ensures run[2].tokens == RevokeRows(s.tokens, ActiveOf(s.tokens, s.calls[i].owner), s.now, Reused)
  {
    RevocationIsFree(s, i);
    var t := DoRotateRevoke(s, i);
    OneStep(s, OnRefresh(i, RotateRevoke));
    RunThen([s, t], [OnRefresh(i, RotateRevoke)], OnRefresh(i, ReuseCommit));
    run := [s, t] + [DoReuseCommit(t, i)];
  }

  lemma FinishReuse(s: State, i: nat) returns (run: seq<State>, steps: seq<Action>)
    requires CallsOk(s) && At(s, i) && (s.calls[i].RotateReplay? || s.calls[i].RotateEnding?)
    ensures Run(run, steps) && run[0] == s && Reported(s, run[|steps|], s.calls[i].presented)
  {
    if s.calls[i].RotateEnding? {
      run, steps := [s, DoReuseCommit(s, i)], [OnRefresh(i, ReuseCommit)];
      OneStep(s, OnRefresh(i, ReuseCommit));
    } else {
      run := FinishReplay(s, i);
      steps := [OnRefresh(i, RotateRevoke), OnRefresh(i, ReuseCommit)];
    }
  }

  lemma Harm(s: State, f: FamilyId, i: nat) returns (run: seq<State>, steps: seq<Action>)
    requires CanHarm(s, f, i) && CallsOk(s)
    requires RowsOk(s.users, s.tokens, s.births) && TailOk(s.tokens, s.births, s.chain)
    ensures RunsToHarm(run, steps, s, f)
  {
    assert CallOk(s, s.calls[i]);
    if Stores(s.calls[i]) {
      run, steps := FinishExchange(s, i);
    } else {
      run, steps := FinishReuse(s, i);
    }
    assert HarmAt(run[|steps|], |s.log|, f);
  }

  /** A token of a dead family can still be exchanged or reported as reused exactly if some refresh is
      past its decision on one of its tokens and able to act on it. */
  lemma DeadFamilyHarmsExactlyIf(states: seq<State>, steps: seq<Action>, k: nat, f: FamilyId)
    requires Behavior(states, steps) && k < |states| && Dead(states[k], f)
    ensures (exists run, more :: RunsToHarm(run, more, states[k], f)) <==> (exists i: nat :: CanHarm(states[k], f, i))
  {
    var s := states[k];
    if i: nat :| CanHarm(s, f, i) {
      ReachableInv(states, steps, k);
      var run, more := Harm(s, f, i);
    } else {
      forall run, more | RunsToHarm(run, more, s, f) ensures false {
        NoHarmFrom(states, steps, k, run, more, f);
      }
    }
  }

  lemma NoHarmFrom(states: seq<State>, steps: seq<Action>, k: nat, run: seq<State>, more: seq<Action>, f: FamilyId)
    requires Behavior(states, steps) && k < |states| && Settled(states[k], f)
    ensures !RunsToHarm(run, more, states[k], f)
  {
    if RunsToHarm(run, more, states[k], f) {
      RunPrefix(states, steps, k);
      RunJoin(states[..k + 1], steps[..k], run, more);
      SettledFrom(states[..k + 1] + run[1..], steps[..k] + more, k, k + |more|, f);
    }
  }

  // ------------------------------------------------------------ a run in which a dead family harms

  /** User 0 logs in twice, token 1 is exchanged for 2, a second caller replays token 1, and token 2 is
      logged out before the replay is acted on. */
  function ReplaySteps(): seq<Action> {
    FirstSteps() + (SecondSteps() + (PresentSteps(1, 1, 4) + [OnOwner(2, Logout(2))]))
  }

  function SecondSteps(): seq<Action> {
    LoginSteps(0, 0, 3, 6) + ExchangeSteps(0, 1, 2)
  }

  /** The statements of a refresh up to its classification. */
  function PresentSteps(i: nat, p: TokenHash, r: TokenHash): seq<Action> {
    LockSteps(i, p, r) + [OnRefresh(i, RotateConsume)] + [OnRefresh(i, RotateInspect(0, 0))]
  }

  ghost predicate TwoLogins(s: State) {
    && s.cfg == Config(10, 1) && s.now == 0 && s.calls == [Idle, Idle, Idle] && s.users == map[0 := User(7, 1, 0)]
    && s.tokens == map[1 := Row(0, 5, 10, None, None), 3 := Row(0, 6, 10, None, None)]
    && s.seen == {1, 3} && 5 in s.chain && 1 in s.births && s.births[1].family == 5
  }

  ghost predicate TwoSessions(s: State) {
    && s.cfg == Config(10, 1) && s.now == 0 && s.users == map[0 := User(7, 1, 0)]
    && s.calls == [Counting(Rotations, 1), Idle, Idle]
    && s.tokens == map[1 := Row(0, 5, 10, Some(0), Some(Rotated)), 2 := Row(0, 5, 10, None, None),
                       3 := Row(0, 6, 10, None, None)]
    && s.seen == {1, 2, 3} && 5 in s.chain && 1 in s.births && s.births[1].family == 5
  }

  lemma SecondLogin(s: State) returns (run: seq<State>)
    requires LoggedIn(s)
    ensures Run(run, LoginSteps(0, 0, 3, 6)) && run[0] == s && TwoLogins(run[5])
  {
    run := LoginRun(s, 0, 0, 3, 6);
  }

  lemma ExchangeOne(s: State) returns (run: seq<State>)
    requires TwoLogins(s)
    ensures Run(run, ExchangeSteps(0, 1, 2)) && run[0] == s && TwoSessions(run[6])
  {
    run := ExchangeRun(s, 0, 1, 2);
  }

  lemma LoginAndExchange(s: State) returns (run: seq<State>)
    requires LoggedIn(s)
    ensures Run(run, SecondSteps()) && run[0] == s && TwoSessions(run[11])
  {
    var login := SecondLogin(s);
    var exchange := ExchangeOne(login[5]);
    RunJoin(login, LoginSteps(0, 0, 3, 6), exchange, ExchangeSteps(0, 1, 2));
    run := login + exchange[1..];
  }

  /** The classification finds the spent token and its live successor. */
  lemma InspectSpent(s: State)
    requires s.tokens == map[1 := Row(0, 5, 10, Some(0), Some(Rotated)), 2 := Row(0, 5, 10, None, None),
                             3 := Row(0, 6, 10, None, None)]
    ensures Classify(s.tokens, 1, 0, 0) == Reuse
  {
    assert Live(s.tokens[2], 0);
  }

  /** The statements before the classification, which leave the call with a consume that missed. */
  lemma PresentAndMiss(s: State) returns (run: seq<State>)
    requires TwoSessions(s)
    ensures Run(run, LockSteps(1, 1, 4) + [OnRefresh(1, RotateConsume)]) && run[0] == s
    ensures run[4] == Goto(s, 1, RotateMissed(1, 0, 0)).(seen := s.seen + {1, 4})
  {
    var locked := LockRun(s, 1, 1, 4);
    ConsumeMisses(locked[3], s);
    RunThen(locked, LockSteps(1, 1, 4), OnRefresh(1, RotateConsume));
    run := locked + [DoRotateConsume(locked[3], 1)];
  }

  lemma ConsumeMisses(s: State, before: State)
    requires TwoSessions(before) && Presentable(before, 1, 1) && s == UpToLock(before, 1, 1, 4)
    ensures CanRotateConsume(s, 1)
    ensures DoRotateConsume(s, 1) == Goto(before, 1, RotateMissed(1, 0, 0)).(seen := before.seen + {1, 4})
  {
  }

  lemma InspectFinds(s: State)
    requires s.now == 0 && At(s, 1) && s.calls[1] == RotateMissed(1, 0, 0) && Classify(s.tokens, 1, 0, 0) == Reuse
    ensures CanRotateInspect(s, 1, 0, 0) && DoRotateInspect(s, 1, 0, 0) == Goto(s, 1, RotateReplay(1, 0))
  {
  }

  lemma PresentSpent(s: State) returns (run: seq<State>)
    requires TwoSessions(s)
    ensures Run(run, PresentSteps(1, 1, 4)) && run[0] == s
    ensures run[5] == Goto(s, 1, RotateReplay(1, 0)).(seen := s.seen + {1, 4})
  {
    var missed := PresentAndMiss(s);
    InspectSpent(missed[4]);
    InspectFinds(missed[4]);
    RunThen(missed, LockSteps(1, 1, 4) + [OnRefresh(1, RotateConsume)], OnRefresh(1, RotateInspect(0, 0)));
    run := missed + [DoRotateInspect(missed[4], 1, 0, 0)];
  }

  /** Family 5 is dead, and the session of family 6 is not. */
  lemma LogoutOfTwo(s: State)
    requires s.now == 0 && s.calls == [Counting(Rotations, 1), RotateReplay(1, 0), Idle]
    requires s.tokens == map[1 := Row(0, 5, 10, Some(0), Some(Rotated)), 2 := Row(0, 5, 10, None, None),
                             3 := Row(0, 6, 10, None, None)]
    requires 5 in s.chain && 1 in s.births && s.births[1].family == 5
    ensures Enabled(s, OnOwner(2, Logout(2)))
    ensures var t := Apply(s, OnOwner(2, Logout(2)));
            Dead(t, 5) && CanHarm(t, 5, 1) && t.calls[1] == RotateReplay(1, 0) && t.now == 0
            && 3 in t.tokens && t.tokens[3] == Row(0, 6, 10, None, None)
  {
  }

  lemma Replayed() returns (run: seq<State>)
    ensures Behavior(run, ReplaySteps())
    ensures var s := run[23];
            && Dead(s, 5) && CanHarm(s, 5, 1) && s.calls[1] == RotateReplay(1, 0)
            && 3 in s.tokens && Live(s.tokens[3], s.now) && s.tokens[3].user == 0 && s.tokens[3].family == 6
  {
    var first := FirstLogin();
    var sessions := LoginAndExchange(first[6]);
    var present := PresentSpent(sessions[11]);
    var last := OnOwner(2, Logout(2));
    LogoutOfTwo(present[5]);
    RunThen(present, PresentSteps(1, 1, 4), last);
    var refused := present + [Apply(present[5], last)];
    RunJoin(sessions, SecondSteps(), refused, PresentSteps(1, 1, 4) + [last]);
    var rest := sessions + refused[1..];
    RunJoin(first, FirstSteps(), rest, SecondSteps() + (PresentSteps(1, 1, 4) + [last]));
    run := first + rest[1..];
  }

  /** The live token is logged out between the classification of a replay and its revocation, which takes
      no lock the logout would wait for: the family is dead, yet the reuse is reported and ends the user's
      session of another family. */
  lemma DeadFamilyCanHarm() returns (run: seq<State>, more: seq<State>)
    ensures Behavior(run, ReplaySteps()) && Dead(run[23], 5)
    ensures 3 in run[23].tokens && Live(run[23].tokens[3], run[23].now) && run[23].tokens[3].family == 6
    ensures Run(more, [OnRefresh(1, RotateRevoke), OnRefresh(1, ReuseCommit)]) && more[0] == run[23]
    ensures RunsToHarm(more, [OnRefresh(1, RotateRevoke), OnRefresh(1, ReuseCommit)], run[23], 5)
    ensures 3 in more[2].tokens && more[2].tokens[3].reason == Some(Reused)
  {
    run := Replayed();
    ReachableInv(run, ReplaySteps(), 23);
    more := ReplayEnds(run[23]);
  }

  lemma ReplayEnds(s: State) returns (more: seq<State>)
    requires CallsOk(s) && At(s, 1) && s.calls[1] == RotateReplay(1, 0) && OfFamily(s, 1, 5)
    requires 3 in s.tokens && Live(s.tokens[3], s.now) && s.tokens[3].user == 0
    ensures Run(more, [OnRefresh(1, RotateRevoke), OnRefresh(1, ReuseCommit)]) && more[0] == s
    ensures RunsToHarm(more, [OnRefresh(1, RotateRevoke), OnRefresh(1, ReuseCommit)], s, 5)
    ensures 3 in more[2].tokens && more[2].tokens[3].reason == Some(Reused)
  {
    more := FinishReplay(s, 1);
    assert HarmAt(more[2], |s.log|, 5);
    assert 3 in ActiveOf(s.tokens, 0);
  }
}
