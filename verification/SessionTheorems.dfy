/** The guarantees of the refresh-session protocol, for every run of any number of concurrent calls. */
module SessionTheorems {
  import opened Wrappers
  import opened SessionModel
  import opened SessionInvariant
  import opened SessionEnds
  import opened SessionSafety

  // ------------------------------------------------------------ runs only add history

  /** What a step may do to the history: add an event, add a birth, never rewrite one. */
  ghost predicate Extends(s: State, t: State) {
    && |s.log| <= |t.log| && t.log[..|s.log|] == s.log
    && (forall h :: h in s.births ==> h in t.births && t.births[h] == s.births[h])
    && (forall v :: v in s.passwordAt ==> v in t.passwordAt && t.passwordAt[v] == s.passwordAt[v])
    && t.cfg == s.cfg && s.now <= t.now
  }

  lemma UserExtends(s: State, a: UserStep)
    requires UserEnabled(s, a) && PaceOk(s)
    ensures Extends(s, UserApply(s, a))
  {
  }

  lemma LoginExtends(s: State, i: nat, a: LoginStep)
    requires LoginEnabled(s, i, a) && CallOk(s, s.calls[i])
    ensures Extends(s, LoginApply(s, i, a))
  {
    match a
    case LoginRead(user) =>
    case LoginIssue(hash) =>
    case CreateLock =>
    case CreateInsert(family) =>
    case CreateCommit =>
  }

  lemma RotateCommitExtends(s: State, i: nat)
    requires CanRotateCommit(s, i) && CallOk(s, s.calls[i])
    ensures Extends(s, DoRotateCommit(s, i))
  {
  }

  lemma StatementExtends(s: State, i: nat, a: RefreshStep)
    requires RefreshEnabled(s, i, a) && !a.RotateCommit? && !a.ReuseCommit?
    ensures Extends(s, RefreshApply(s, i, a))
  {
    match a
    case RefreshBegin(presented, replacement) =>
    case RotateLookup => if s.calls[i].x.presented in s.tokens {} else {}
    case RotateLock => if s.calls[i].owner in s.users {} else {}
    case RotateConsume => assert Extends(s, DoRotateConsume(s, i));
    case RotateInsert => assert Extends(s, DoRotateInsert(s, i));
    case RotateInspect(at, familyAt) => InspectExtends(s, i, at, familyAt);
    case RotateRevoke => assert Extends(s, DoRotateRevoke(s, i));
  }

  lemma InspectExtends(s: State, i: nat, at: Time, familyAt: Time)
    requires CanRotateInspect(s, i, at, familyAt)
    ensures Extends(s, DoRotateInspect(s, i, at, familyAt))
  {
    if Classify(s.tokens, s.calls[i].presented, at, familyAt) == Reuse {} else {}
  }

  lemma RefreshExtends(s: State, i: nat, a: RefreshStep)
    requires RefreshEnabled(s, i, a) && CallOk(s, s.calls[i])
    ensures Extends(s, RefreshApply(s, i, a))
  {
    if a.RotateCommit? { RotateCommitExtends(s, i); }
    else if a.ReuseCommit? { assert Extends(s, DoReuseCommit(s, i)); }
    else { StatementExtends(s, i, a); }
  }

  lemma OwnerExtends(s: State, i: nat, a: OwnerStep)
    requires OwnerEnabled(s, i, a) && CallOk(s, s.calls[i]) && PaceOk(s)
    ensures Extends(s, OwnerApply(s, i, a))
  {
    if a.ChangeCommit? { ChangePace(s, i); }
  }

  lemma OtherExtends(s: State, i: nat, a: OtherStep)
    requires OtherEnabled(s, i, a)
    ensures Extends(s, OtherApply(s, i, a))
  {
  }

  lemma StepExtends(s: State, a: Action)
    requires Enabled(s, a) && CallsOk(s) && PaceOk(s)
    ensures Extends(s, Apply(s, a))
  {
    match a
    case Tick(to) => assert Extends(s, s.(now := to));
    case OnUsers(u) => UserExtends(s, u);
    case OnLogin(i, l) => LoginExtends(s, i, l);
    case OnRefresh(i, r) => RefreshExtends(s, i, r);
    case OnOwner(i, o) => OwnerExtends(s, i, o);
    case OnOther(i, o) => OtherExtends(s, i, o);
  }

  lemma ExtendsOn(s: State, t: State, u: State)
    requires Extends(s, t) && Extends(t, u)
    ensures Extends(s, u)
  {
    assert u.log[..|s.log|] == t.log[..|s.log|];
  }

  lemma NextExtends(states: seq<State>, steps: seq<Action>, k: nat)
    requires Behavior(states, steps) && k < |steps|
    ensures Extends(states[k], states[k + 1])
  {
    ReachableInv(states, steps, k);
    assert StepAt(states, steps, k);
    StepExtends(states[k], steps[k]);
  }

  lemma {:induction false} RunExtends(states: seq<State>, steps: seq<Action>, j: nat, k: nat)
    requires Behavior(states, steps) && j <= k < |states|
    ensures Extends(states[j], states[k])
  {
    if j < k {
      RunExtends(states, steps, j, k - 1);
      NextExtends(states, steps, k - 1);
      ExtendsOn(states[j], states[k - 1], states[k]);
    } else {
      assert Extends(states[j], states[j]);
    }
  }

  // ------------------------------------------------------------ a step moves its own call only

  ghost predicate OnlyCall(s: State, t: State, i: nat) {
    |t.calls| == |s.calls| && forall j :: 0 <= j < |s.calls| && j != i ==> t.calls[j] == s.calls[j]
  }

  lemma LoginMoves(s: State, i: nat, a: LoginStep)
    requires LoginEnabled(s, i, a)
    ensures OnlyCall(s, LoginApply(s, i, a), i)
  {
  }

  lemma RefreshMoves(s: State, i: nat, a: RefreshStep)
    requires RefreshEnabled(s, i, a)
    ensures OnlyCall(s, RefreshApply(s, i, a), i)
  {
    match a
    case RefreshBegin(presented, replacement) =>
    case RotateLookup =>
    case RotateLock =>
    case RotateConsume =>
    case RotateInsert =>
    case RotateCommit =>
    case RotateInspect(at, familyAt) =>
    case RotateRevoke =>
    case ReuseCommit =>
  }

  lemma OwnerMoves(s: State, i: nat, a: OwnerStep)
    requires OwnerEnabled(s, i, a)
    ensures OnlyCall(s, OwnerApply(s, i, a), i)
  {
  }

  lemma OtherMoves(s: State, i: nat, a: OtherStep)
    requires OtherEnabled(s, i, a)
    ensures OnlyCall(s, OtherApply(s, i, a), i)
  {
  }

  lemma StepMovesOneCall(s: State, a: Action)
    requires Enabled(s, a)
    ensures |Apply(s, a).calls| == |s.calls|
    ensures forall j: nat :: At(s, j) && Caller(a) != Some(j) ==> Apply(s, a).calls[j] == s.calls[j]
  {
    match a
    case Tick(to) => {}
    case OnUsers(u) => {}
    case OnLogin(i, l) => LoginMoves(s, i, l);
    case OnRefresh(i, r) => RefreshMoves(s, i, r);
    case OnOwner(i, o) => OwnerMoves(s, i, o);
    case OnOther(i, o) => OtherMoves(s, i, o);
  }

  // ------------------------------------------------------------ credential freshness

  /** Position `d` of a chain was filled by exchanging the token at position `d - 1`. */
  ghost predicate Exchanged(s: State, f: FamilyId, u: UserId, d: nat)
    requires f in s.chain && 0 < d < |s.chain[f]|
  {
    var p, h := s.chain[f][d - 1], s.chain[f][d];
    h in s.births && s.births[h].born < |s.log| && s.log[s.births[h].born] == TokenRotated(u, p, h)
  }

  /** `h` was reached from the first token of its chain by exchanging one token after the other. */
  ghost predicate DescendsByRotation(s: State, h: TokenHash) {
    && h in s.births && OnChain(s.births, s.chain, h)
    && var b := s.births[h];
    forall d: nat :: 0 < d <= b.depth ==> Exchanged(s, b.family, b.user, d)
  }

  lemma EveryTokenDescends(s: State, h: TokenHash)
    requires HistoryOk(s.births, s.chain, s.log) && h in s.births
    ensures DescendsByRotation(s, h)
  {
    assert OnChain(s.births, s.chain, h);
    var b := s.births[h];
    forall d: nat | 0 < d <= b.depth ensures Exchanged(s, b.family, b.user, d) {
      var g := s.chain[b.family][d];
      assert IsLink(s.births, s.chain, b.family, d);
      assert OnChain(s.births, s.chain, g);
      FamilyOwner(s.births, s.chain, s.log, g, h);
    }
  }

  /** The login that the chain of `h` started with verified the password its owner has now. */
  ghost predicate RootVerifiedCurrent(s: State, h: TokenHash) {
    && h in s.births && OnChain(s.births, s.chain, h)
    && var b := s.births[h];
    && b.user in s.users && b.login < |s.log|
    && s.log[b.login] == LoginStored(b.user, s.chain[b.family][0], b.family, s.users[b.user].password)
  }

  /** In every committed state each unrevoked token descends by rotation from a login that verified
      the password its owner has now. */
  lemma CredentialFreshness(states: seq<State>, steps: seq<Action>, k: nat, h: TokenHash)
    requires Behavior(states, steps) && k < |states|
    requires h in states[k].tokens && Active(states[k].tokens[h])
    ensures DescendsByRotation(states[k], h) && RootVerifiedCurrent(states[k], h)
    ensures states[k].births[h].user == states[k].tokens[h].user
  {
    ReachableInv(states, steps, k);
    EveryTokenDescends(states[k], h);
    assert OnChain(states[k].births, states[k].chain, h);
  }

  /** A version number stands for one password for good, whenever two reads see it. */
  lemma VersionPinsPassword(states: seq<State>, steps: seq<Action>, j: nat, k: nat, u: UserId)
    requires Behavior(states, steps) && j <= k < |states|
    requires u in states[j].users && u in states[k].users
    requires states[j].users[u].version == states[k].users[u].version
    ensures states[j].users[u].password == states[k].users[u].password
  {
    ReachableInv(states, steps, j);
    ReachableInv(states, steps, k);
    RunExtends(states, steps, j, k);
  }

  /** A login whose password was replaced since it verified it never stores its session. */
  lemma StaleLoginRefused(states: seq<State>, steps: seq<Action>, k: nat, i: nat)
    requires Behavior(states, steps) && k < |states|
    requires At(states[k], i) && states[k].calls[i].LoginIssued? && CanCreateLock(states[k], i)
    requires var x := states[k].calls[i].session;
             x.user in states[k].users && states[k].users[x.user].password != x.password
    ensures DoCreateLock(states[k], i) == Goto(states[k], i, Idle)
  {
    ReachableInv(states, steps, k);
    assert CallOk(states[k], states[k].calls[i]);
  }

  // ------------------------------------------------------------ chains

  lemma TwoOnChain(s: State, g: TokenHash, h: TokenHash)
    requires HistoryOk(s.births, s.chain, s.log)
    requires g in s.births && h in s.births && g != h && s.births[g].family == s.births[h].family
    ensures s.births[g].user == s.births[h].user
    ensures s.births[g].depth != s.births[h].depth
    ensures s.births[h].depth == s.births[g].depth + 1 ==> s.births[h].parent == Some(g)
  {
    assert OnChain(s.births, s.chain, g) && OnChain(s.births, s.chain, h);
    FamilyOwner(s.births, s.chain, s.log, g, h);
  }

  lemma OlderIsRotated(s: State, g: TokenHash, h: TokenHash)
    requires HistoryOk(s.births, s.chain, s.log) && TailOk(s.tokens, s.births, s.chain)
    requires g in s.tokens && g in s.births && h in s.births && s.births[g].family == s.births[h].family
    requires s.births[g].depth < s.births[h].depth
    ensures s.tokens[g].reason == Some(Rotated)
  {
    assert OnChain(s.births, s.chain, g) && OnChain(s.births, s.chain, h);
  }

  /** Every family has one owner and is a chain: each token's parent is the one before it, and all
      stored tokens but the newest were rotated, so at most one is unrevoked. */
  lemma ChainShape(states: seq<State>, steps: seq<Action>, k: nat, g: TokenHash, h: TokenHash)
    requires Behavior(states, steps) && k < |states|
    requires g in states[k].tokens && h in states[k].tokens && g != h
    requires states[k].tokens[g].family == states[k].tokens[h].family
    ensures var s := states[k];
            && g in s.births && h in s.births
            && s.tokens[g].user == s.tokens[h].user
            && s.births[g].depth != s.births[h].depth
            && (s.births[g].depth < s.births[h].depth ==> s.tokens[g].reason == Some(Rotated))
            && (s.births[h].depth == s.births[g].depth + 1 ==> s.births[h].parent == Some(g))
            && (!Active(s.tokens[g]) || !Active(s.tokens[h]))
  {
    ReachableInv(states, steps, k);
    var s := states[k];
    TwoOnChain(s, g, h);
    if s.births[g].depth < s.births[h].depth { OlderIsRotated(s, g, h); } else { OlderIsRotated(s, h, g); }
  }

  // ------------------------------------------------------------ spent at most once

  /** No token is exchanged twice. */
  lemma SpentAtMostOnce(states: seq<State>, steps: seq<Action>, k: nat, i: nat, j: nat)
    requires Behavior(states, steps) && k < |states|
    requires i < |states[k].log| && j < |states[k].log|
    requires states[k].log[i].TokenRotated? && states[k].log[j].TokenRotated?
    requires states[k].log[i].presented == states[k].log[j].presented
    ensures i == j
  {
    ReachableInv(states, steps, k);
    SpentOnce(states[k], i, j);
  }

  lemma SpentOnce(s: State, i: nat, j: nat)
    requires HistoryOk(s.births, s.chain, s.log) && i < |s.log| && j < |s.log|
    requires s.log[i].TokenRotated? && s.log[j].TokenRotated? && s.log[i].presented == s.log[j].presented
    ensures i == j
  {
    var g, h := s.log[i].replacement, s.log[j].replacement;
    assert OnChain(s.births, s.chain, g) && OnChain(s.births, s.chain, h);
    assert IsLink(s.births, s.chain, s.births[g].family, s.births[g].depth - 1);
    assert IsLink(s.births, s.chain, s.births[h].family, s.births[h].depth - 1);
  }

  /** A token with a successor in the log: it is spent, and any row of it says so. */
  lemma SpentIsRotated(s: State, i: nat)
    requires Inv(s) && i < |s.log| && s.log[i].TokenRotated?
    ensures var p := s.log[i].presented;
            && p in s.births && OnChain(s.births, s.chain, p) && !Newest(s.births, s.chain, p)
            && (p in s.tokens ==> s.tokens[p].reason == Some(Rotated) && !Active(s.tokens[p]))
  {
    var p, r := s.log[i].presented, s.log[i].replacement;
    assert OnChain(s.births, s.chain, r);
    assert IsLink(s.births, s.chain, s.births[r].family, s.births[r].depth - 1);
    assert OnChain(s.births, s.chain, p);
  }

  /** A presenter that inspects a spent token while its family is live is told of the reuse exactly
      if the spent row is still stored. */
  lemma ReplayIsReuse(states: seq<State>, steps: seq<Action>, k: nat, i: nat, at: Time, familyAt: Time)
    requires Behavior(states, steps) && k < |states|
    requires i < |states[k].log| && states[k].log[i].TokenRotated?
    requires var s := states[k];
             var p := s.log[i].presented;
             p in s.births && FamilyLive(s.tokens, s.births[p].family, familyAt)
    ensures var s := states[k];
            var p := s.log[i].presented;
            (Classify(s.tokens, p, at, familyAt) == Reuse <==> p in s.tokens)
  {
    ReachableInv(states, steps, k);
    SpentIsRotated(states[k], i);
  }
}
