/** The session counters against the rows: what the metrics say is what happened to the table. */
module SessionAccounting {
  import opened Wrappers
  import opened SessionModel
  import opened SessionInvariant
  import opened SessionSafety
  import opened SessionReuse

  // ------------------------------------------------------------ what a run did to the rows

  ghost function ActiveRows(tokens: Tokens): set<TokenHash> {
    set h | h in tokens && Active(tokens[h])
  }

  ghost function Lost(before: Tokens, after: Tokens): set<TokenHash> {
    set h | h in before && Active(before[h]) && h !in after
  }

  /** Rows that appear and are the first of their chain. */
  ghost function Logins(before: Tokens, after: Tokens, births: Births): set<TokenHash> {
    set h | h in after && h !in before && h in births && births[h].parent.None?
  }

  datatype Quantity =
    | MovedTo(reason: Reason)      // rows whose reason became `reason`
    | UnrevokedLost                // unrevoked rows removed by cleanup or with their user
    | LoginsStored                 // rows stored by a login
    | MovedInBulk                  // rows revoked by RevokeAllForUser, which no counter counts

  ghost function Amount(q: Quantity, s: State, a: Action, t: State): nat {
    match q
    case MovedTo(reason) => |Moved(s.tokens, t.tokens, reason)|
    case UnrevokedLost => |Lost(s.tokens, t.tokens)|
    case LoginsStored => |Logins(s.tokens, t.tokens, t.births)|
    case MovedInBulk => if a.OnOwner? && a.owner == BulkCommit then |Moved(s.tokens, t.tokens, LoggedOut)| else 0
  }

  /** The total of `q` over the first `k` steps of a run. */
  ghost function Total(q: Quantity, states: seq<State>, steps: seq<Action>, k: nat): nat
    requires |states| == |steps| + 1 && k <= |steps|
  {
    if k == 0 then 0
    else Total(q, states, steps, k - 1) + Amount(q, states[k - 1], steps[k - 1], states[k])
  }

  // ------------------------------------------------------------ what is still to be counted

  ghost function Due(c: Call, which: Counter): nat {
    if c.Counting? && c.which == which then c.amount else 0
  }

  /** Amounts committed whose call has not updated its counter yet. */
  ghost function Uncounted(calls: seq<Call>, which: Counter): nat {
    if calls == [] then 0 else Due(calls[0], which) + Uncounted(calls[1..], which)
  }

  lemma {:induction false} UncountedUpdate(calls: seq<Call>, i: nat, c: Call, which: Counter)
    requires i < |calls|
    ensures Uncounted(calls[i := c], which) + Due(calls[i], which) == Uncounted(calls, which) + Due(c, which)
  {
    if i == 0 {
      assert calls[i := c][1..] == calls[1..];
    } else {
      assert calls[i := c][1..] == calls[1..][i - 1 := c];
      UncountedUpdate(calls[1..], i - 1, c, which);
    }
  }

  lemma {:induction false} NothingDue(calls: seq<Call>, which: Counter)
    requires forall i :: 0 <= i < |calls| ==> !calls[i].Counting?
    ensures Uncounted(calls, which) == 0
  {
    if calls != [] { NothingDue(calls[1..], which); }
  }

  ghost function CountOf(c: Counters, which: Counter): nat {
    match which
    case LogoutSessions => c.logout
    case ReuseSessions => c.reuse
    case PasswordSessions => c.password
    case Rotations => c.rotations
  }

  ghost function ReasonOf(which: Counter): Reason {
    match which
    case LogoutSessions => LoggedOut
    case ReuseSessions => Reused
    case PasswordSessions => PasswordChanged
    case Rotations => Rotated
  }

  // ------------------------------------------------------------ one step balances

  /** The counter `which` and what is due to it grow by the rows moved to its reason, except by those
      of a bulk revocation. */
  ghost predicate CountBalances(s: State, a: Action, t: State, which: Counter) {
    CountOf(t.counters, which) + Uncounted(t.calls, which)
    + (if which == LogoutSessions then Amount(MovedInBulk, s, a, t) else 0)
    == CountOf(s.counters, which) + Uncounted(s.calls, which) + Amount(MovedTo(ReasonOf(which)), s, a, t)
  }

  /** Unrevoked rows grow by logins and shrink by revocations and losses; a rotation replaces one. */
  ghost predicate RowsBalance(s: State, a: Action, t: State) {
    |ActiveRows(t.tokens)|
    + Amount(MovedTo(LoggedOut), s, a, t) + Amount(MovedTo(Reused), s, a, t)
    + Amount(MovedTo(PasswordChanged), s, a, t) + Amount(UnrevokedLost, s, a, t)
    == |ActiveRows(s.tokens)| + Amount(LoginsStored, s, a, t)
  }

  ghost predicate Balances(s: State, a: Action, t: State) {
    RowsBalance(s, a, t) && forall which :: CountBalances(s, a, t, which)
  }

  ghost predicate ReasonsMatch(tokens: Tokens) {
    forall h :: h in tokens ==> (Active(tokens[h]) <==> tokens[h].reason.None?)
  }

  lemma Removed(a: set<TokenHash>, b: set<TokenHash>)
    requires b <= a
    ensures |a - b| + |b| == |a|
  {
    assert (a - b) + b == a;
  }

  /** A step of call `i` to `c` that leaves the table alone and has nothing new to count. */
  lemma QuietBalances(s: State, a: Action, t: State)
    requires t.tokens == s.tokens
    requires forall which :: CountOf(t.counters, which) + Uncounted(t.calls, which)
                             == CountOf(s.counters, which) + Uncounted(s.calls, which)
    ensures Balances(s, a, t)
  {
    assert forall reason :: Moved(s.tokens, s.tokens, reason) == {};
    assert Lost(s.tokens, s.tokens) == {} && Logins(s.tokens, s.tokens, t.births) == {};
  }

  lemma QuietMove(s: State, a: Action, t: State, i: nat)
    requires t.tokens == s.tokens && t.counters == s.counters && At(s, i)
    requires |t.calls| == |s.calls| && t.calls == s.calls[i := t.calls[i]]
    requires !s.calls[i].Counting? && !t.calls[i].Counting?
    ensures Balances(s, a, t)
  {
    forall which ensures Uncounted(t.calls, which) == Uncounted(s.calls, which) {
      UncountedUpdate(s.calls, i, t.calls[i], which);
    }
    QuietBalances(s, a, t);
  }

  lemma RevokedAmounts(tokens: Tokens, targets: set<TokenHash>, at: Time, reason: Reason, births: Births)
    requires ReasonsMatch(tokens) && targets <= ActiveRows(tokens)
    ensures var after := RevokeRows(tokens, targets, at, reason);
            && Moved(tokens, after, reason) == targets
            && (forall r :: r != reason ==> Moved(tokens, after, r) == {})
            && Lost(tokens, after) == {} && Logins(tokens, after, births) == {}
            && ActiveRows(after) == ActiveRows(tokens) - targets
  {
  }

  /** A commit of call `i` that revoked `targets` and goes on to count them. */
  lemma RevokeBalances(s: State, a: Action, t: State, i: nat, targets: set<TokenHash>, which: Counter)
    requires At(s, i) && ReasonsMatch(s.tokens) && targets <= ActiveRows(s.tokens) && which != Rotations
    requires t.tokens == RevokeRows(s.tokens, targets, s.now, ReasonOf(which)) && t.counters == s.counters
    requires t.calls == s.calls[i := Counting(which, |targets|)] && !s.calls[i].Counting?
    requires !(a.OnOwner? && a.owner == BulkCommit)
    ensures Balances(s, a, t)
  {
    RevokedAmounts(s.tokens, targets, s.now, ReasonOf(which), t.births);
    RevokedRows(s, a, t, targets, ReasonOf(which));
    forall w ensures CountBalances(s, a, t, w) { MovedCount(s, a, t, i, targets, which, w); }
  }

  lemma RevokedRows(s: State, a: Action, t: State, targets: set<TokenHash>, reason: Reason)
    requires Moved(s.tokens, t.tokens, reason) == targets && reason != Rotated
    requires forall r :: r != reason ==> Moved(s.tokens, t.tokens, r) == {}
    requires Lost(s.tokens, t.tokens) == {} && Logins(s.tokens, t.tokens, t.births) == {}
    requires targets <= ActiveRows(s.tokens) && ActiveRows(t.tokens) == ActiveRows(s.tokens) - targets
    ensures RowsBalance(s, a, t)
  {
    Removed(ActiveRows(s.tokens), targets);
    match reason
    case LoggedOut => case PasswordChanged => case Reused =>
  }

  /** A commit of call `i` that moved `moved` to the reason of `which` and goes on to count them. */
  lemma MovedCount(s: State, a: Action, t: State, i: nat, moved: set<TokenHash>, which: Counter, w: Counter)
    requires At(s, i) && !s.calls[i].Counting? && t.calls == s.calls[i := Counting(which, |moved|)]
    requires t.counters == s.counters && !(a.OnOwner? && a.owner == BulkCommit)
    requires Moved(s.tokens, t.tokens, ReasonOf(which)) == moved
    requires forall r :: r != ReasonOf(which) ==> Moved(s.tokens, t.tokens, r) == {}
    ensures CountBalances(s, a, t, w)
  {
    UncountedUpdate(s.calls, i, Counting(which, |moved|), w);
    if w == which {} else { assert ReasonOf(w) != ReasonOf(which); }
  }

  lemma BulkBalances(s: State, i: nat)
    requires CanBulkCommit(s, i) && ReasonsMatch(s.tokens) && s.calls[i].targets <= ActiveRows(s.tokens)
    ensures Balances(s, OnOwner(i, BulkCommit), DoBulkCommit(s, i))
  {
    var t, a := DoBulkCommit(s, i), OnOwner(i, BulkCommit);
    RevokedAmounts(s.tokens, s.calls[i].targets, s.now, LoggedOut, t.births);
    RevokedRows(s, a, t, s.calls[i].targets, LoggedOut);
    forall w ensures CountBalances(s, a, t, w) { BulkCount(s, i, w); }
  }

  /** What a bulk revocation moves is not counted. */
  lemma BulkCount(s: State, i: nat, w: Counter)
    requires CanBulkCommit(s, i)
    requires forall r :: r != LoggedOut ==> Moved(s.tokens, DoBulkCommit(s, i).tokens, r) == {}
    ensures CountBalances(s, OnOwner(i, BulkCommit), DoBulkCommit(s, i), w)
  {
    UncountedUpdate(s.calls, i, Idle, w);
    if w == LogoutSessions {} else { assert ReasonOf(w) != LoggedOut; }
  }

  lemma StoredAmounts(tokens: Tokens, h: TokenHash, row: Row, births: Births)
    requires h !in tokens && Active(row) && h in births && births[h].parent.None?
    ensures var after := tokens[h := row];
            && (forall r :: Moved(tokens, after, r) == {})
            && Lost(tokens, after) == {} && Logins(tokens, after, births) == {h}
            && ActiveRows(after) == ActiveRows(tokens) + {h}
  {
  }

  lemma CreateBalances(s: State, i: nat)
    requires CanCreateCommit(s, i) && s.calls[i].session.hash !in s.tokens
    ensures Balances(s, OnLogin(i, CreateCommit), DoCreateCommit(s, i))
  {
    var t, x, a := DoCreateCommit(s, i), s.calls[i].session, OnLogin(i, CreateCommit);
    StoredAmounts(s.tokens, x.hash, t.tokens[x.hash], t.births);
    forall w ensures CountBalances(s, a, t, w) {
      UncountedUpdate(s.calls, i, Idle, w);
    }
  }

  lemma RotatedAmounts(tokens: Tokens, p: TokenHash, r: TokenHash, spent: Row, row: Row, births: Births)
    requires ReasonsMatch(tokens) && p in tokens && Active(tokens[p]) && r !in tokens && Active(row)
    requires !Active(spent) && spent.reason == Some(Rotated) && row.reason.None?
    requires r in births && births[r].parent.Some?
    ensures var after := tokens[p := spent][r := row];
            && Moved(tokens, after, Rotated) == {p}
            && (forall reason :: reason != Rotated ==> Moved(tokens, after, reason) == {})
            && Lost(tokens, after) == {} && Logins(tokens, after, births) == {}
            && ActiveRows(after) == ActiveRows(tokens) - {p} + {r}
  {
  }

  lemma RotateAmounts(s: State, i: nat)
    requires CanRotateCommit(s, i) && ReasonsMatch(s.tokens)
    requires Active(s.tokens[s.calls[i].x.presented]) && s.calls[i].x.replacement !in s.tokens
    ensures var t, p, r := DoRotateCommit(s, i), s.calls[i].x.presented, s.calls[i].x.replacement;
            && Moved(s.tokens, t.tokens, Rotated) == {p}
            && (forall reason :: reason != Rotated ==> Moved(s.tokens, t.tokens, reason) == {})
            && Lost(s.tokens, t.tokens) == {} && Logins(s.tokens, t.tokens, t.births) == {}
            && ActiveRows(t.tokens) == ActiveRows(s.tokens) - {p} + {r} && p in ActiveRows(s.tokens)
            && r !in ActiveRows(s.tokens)
            && t.calls == s.calls[i := Counting(Rotations, 1)] && t.counters == s.counters
  {
    var t, p, r := DoRotateCommit(s, i), s.calls[i].x.presented, s.calls[i].x.replacement;
    RotatedAmounts(s.tokens, p, r, t.tokens[p], t.tokens[r], t.births);
  }

  /** A step that moved `p` to rotated and added `r`, and goes on to count one rotation. */
  lemma ReplaceBalances(s: State, a: Action, t: State, i: nat, p: TokenHash, r: TokenHash)
    requires At(s, i) && !s.calls[i].Counting? && t.calls == s.calls[i := Counting(Rotations, 1)]
    requires t.counters == s.counters && Moved(s.tokens, t.tokens, Rotated) == {p}
    requires forall reason :: reason != Rotated ==> Moved(s.tokens, t.tokens, reason) == {}
    requires Lost(s.tokens, t.tokens) == {} && Logins(s.tokens, t.tokens, t.births) == {}
    requires ActiveRows(t.tokens) == ActiveRows(s.tokens) - {p} + {r}
    requires p in ActiveRows(s.tokens) && r !in ActiveRows(s.tokens)
    requires a.OnRefresh?
    ensures Balances(s, a, t)
  {
    Removed(ActiveRows(s.tokens), {p});
    forall w ensures CountBalances(s, a, t, w) { MovedCount(s, a, t, i, {p}, Rotations, w); }
  }

  lemma RotateBalances(s: State, i: nat)
    requires CanRotateCommit(s, i) && ReasonsMatch(s.tokens)
    requires Active(s.tokens[s.calls[i].x.presented]) && s.calls[i].x.replacement !in s.tokens
    ensures Balances(s, OnRefresh(i, RotateCommit), DoRotateCommit(s, i))
  {
    RotateAmounts(s, i);
    ReplaceBalances(s, OnRefresh(i, RotateCommit), DoRotateCommit(s, i), i, s.calls[i].x.presented,
                    s.calls[i].x.replacement);
  }

  /** Rows only disappear. */
  lemma LossBalances(s: State, a: Action, t: State)
    requires t.counters == s.counters && forall which :: Uncounted(t.calls, which) == Uncounted(s.calls, which)
    requires forall h :: h in t.tokens ==> h in s.tokens && t.tokens[h] == s.tokens[h]
    ensures Balances(s, a, t)
  {
    LostAmounts(s.tokens, t.tokens, t.births);
    Removed(ActiveRows(s.tokens), Lost(s.tokens, t.tokens));
  }

  lemma LostAmounts(before: Tokens, after: Tokens, births: Births)
    requires forall h :: h in after ==> h in before && after[h] == before[h]
    ensures (forall r :: Moved(before, after, r) == {}) && Logins(before, after, births) == {}
    ensures ActiveRows(after) == ActiveRows(before) - Lost(before, after) && Lost(before, after) <= ActiveRows(before)
  {
  }

  lemma CountedBalances(s: State, i: nat)
    requires CanCount(s, i)
    ensures Balances(s, OnOther(i, Count), DoCount(s, i))
  {
    var t := DoCount(s, i);
    forall which ensures CountOf(t.counters, which) + Uncounted(t.calls, which)
                         == CountOf(s.counters, which) + Uncounted(s.calls, which) {
      UncountedUpdate(s.calls, i, Idle, which);
    }
    QuietBalances(s, OnOther(i, Count), t);
  }

  lemma LoginBalances(s: State, i: nat, a: LoginStep)
    requires LoginEnabled(s, i, a) && CallOk(s, s.calls[i]) && RowsOk(s.users, s.tokens, s.births)
    ensures Balances(s, OnLogin(i, a), LoginApply(s, i, a))
  {
    if a.CreateCommit? {
      CreateBalances(s, i);
    } else {
      QuietMove(s, OnLogin(i, a), LoginApply(s, i, a), i);
    }
  }

  lemma QuietRefresh(s: State, i: nat, a: RefreshStep)
    requires RefreshEnabled(s, i, a) && a != RotateCommit && a != ReuseCommit
    ensures var t := RefreshApply(s, i, a);
            && t.tokens == s.tokens && t.counters == s.counters
            && |t.calls| == |s.calls| && t.calls == s.calls[i := t.calls[i]]
            && !s.calls[i].Counting? && !t.calls[i].Counting?
  {
    RefreshWritesAtCommit(s, i, a);
    match a
    case RefreshBegin(presented, replacement) =>
    case RotateLookup => if s.calls[i].x.presented in s.tokens {} else {}
    case RotateLock => if s.calls[i].owner in s.users {} else {}
    case RotateConsume => assert DoRotateConsume(s, i).counters == s.counters;
    case RotateInsert => assert DoRotateInsert(s, i).counters == s.counters;
    case RotateInspect(at, familyAt) => QuietInspect(s, i, at, familyAt);
    case RotateRevoke =>
  }

  lemma QuietInspect(s: State, i: nat, at: Time, familyAt: Time)
    requires CanRotateInspect(s, i, at, familyAt)
    ensures var t := DoRotateInspect(s, i, at, familyAt);
            t.counters == s.counters && t.calls == s.calls[i := t.calls[i]] && !t.calls[i].Counting?
  {
    if Classify(s.tokens, s.calls[i].presented, at, familyAt) == Reuse {} else {}
  }

  lemma RefreshBalances(s: State, i: nat, a: RefreshStep)
    requires RefreshEnabled(s, i, a) && CallOk(s, s.calls[i]) && RowsOk(s.users, s.tokens, s.births)
    ensures Balances(s, OnRefresh(i, a), RefreshApply(s, i, a))
  {
    if a.RotateCommit? {
      RotateBalances(s, i);
    } else if a.ReuseCommit? {
      RevokeBalances(s, OnRefresh(i, a), DoReuseCommit(s, i), i, s.calls[i].targets, ReuseSessions);
    } else {
      QuietRefresh(s, i, a);
      QuietMove(s, OnRefresh(i, a), RefreshApply(s, i, a), i);
    }
  }

  lemma QuietOwner(s: State, i: nat, a: OwnerStep)
    requires OwnerEnabled(s, i, a) && a != ChangeCommit && a != BulkCommit && !a.Logout?
    ensures var t := OwnerApply(s, i, a);
            && t.tokens == s.tokens && t.counters == s.counters
            && |t.calls| == |s.calls| && t.calls == s.calls[i := t.calls[i]]
            && !s.calls[i].Counting? && !t.calls[i].Counting?
  {
  }

  lemma OwnerBalances(s: State, i: nat, a: OwnerStep)
    requires OwnerEnabled(s, i, a) && CallOk(s, s.calls[i]) && RowsOk(s.users, s.tokens, s.births)
    ensures Balances(s, OnOwner(i, a), OwnerApply(s, i, a))
  {
    if a.ChangeCommit? {
      RevokeBalances(s, OnOwner(i, a), DoChangeCommit(s, i), i, s.calls[i].targets, PasswordSessions);
    } else if a.BulkCommit? {
      BulkBalances(s, i);
    } else if a.Logout? {
      if a.hash in s.tokens && Active(s.tokens[a.hash]) {
        RevokeBalances(s, OnOwner(i, a), DoLogout(s, i, a.hash), i, {a.hash}, LogoutSessions);
      } else {
        QuietBalances(s, OnOwner(i, a), s);
      }
    } else {
      QuietOwner(s, i, a);
      QuietMove(s, OnOwner(i, a), OwnerApply(s, i, a), i);
    }
  }

  lemma OtherBalances(s: State, i: nat, a: OtherStep)
    requires OtherEnabled(s, i, a)
    ensures Balances(s, OnOther(i, a), OtherApply(s, i, a))
  {
    if a.Count? {
      CountedBalances(s, i);
    } else if a.SweepRun? {
      forall which ensures Uncounted(DoSweepRun(s, i).calls, which) == Uncounted(s.calls, which) {
        UncountedUpdate(s.calls, i, Idle, which);
      }
      LossBalances(s, OnOther(i, a), DoSweepRun(s, i));
    } else {
      QuietMove(s, OnOther(i, a), OtherApply(s, i, a), i);
    }
  }

  lemma UserBalances(s: State, a: UserStep)
    requires UserEnabled(s, a)
    ensures Balances(s, OnUsers(a), UserApply(s, a))
  {
    if a.DeleteUser? {
      LossBalances(s, OnUsers(a), UserApply(s, a));
    } else {
      QuietBalances(s, OnUsers(a), UserApply(s, a));
    }
  }

  lemma TickBalances(s: State, to: Time)
    ensures Balances(s, Tick(to), s.(now := to))
  {
    QuietBalances(s, Tick(to), s.(now := to));
  }

  lemma StepBalances(s: State, a: Action)
    requires Inv(s) && Enabled(s, a)
    ensures Balances(s, a, Apply(s, a))
  {
    match a
    case Tick(to) => TickBalances(s, to);
    case OnUsers(u) => UserBalances(s, u);
    case OnLogin(i, l) => { assert CallOk(s, s.calls[i]); LoginBalances(s, i, l); }
    case OnRefresh(i, r) => { assert CallOk(s, s.calls[i]); RefreshBalances(s, i, r); }
    case OnOwner(i, o) => { assert CallOk(s, s.calls[i]); OwnerBalances(s, i, o); }
    case OnOther(i, o) => OtherBalances(s, i, o);
  }

  // ------------------------------------------------------------ a run balances

  lemma NextBalances(states: seq<State>, steps: seq<Action>, k: nat)
    requires Behavior(states, steps) && k < |steps|
    ensures Balances(states[k], steps[k], states[k + 1])
  {
    ReachableInv(states, steps, k);
    assert StepAt(states, steps, k);
    StepBalances(states[k], steps[k]);
  }

  /** At every point of every run the counters plus what is still due equal the rows moved. */
  lemma {:induction false} CountersEqualRowsMoved(states: seq<State>, steps: seq<Action>, k: nat, which: Counter)
    requires Behavior(states, steps) && k <= |steps|
    ensures CountOf(states[k].counters, which) + Uncounted(states[k].calls, which)
            + (if which == LogoutSessions then Total(MovedInBulk, states, steps, k) else 0)
            == Total(MovedTo(ReasonOf(which)), states, steps, k)
  {
    if k == 0 {
      NothingDue(states[0].calls, which);
    } else {
      CountersEqualRowsMoved(states, steps, k - 1, which);
      NextBalances(states, steps, k - 1);
      assert CountBalances(states[k - 1], steps[k - 1], states[k], which);
    }
  }

  lemma {:induction false} RowsEqualLoginsLessEnds(states: seq<State>, steps: seq<Action>, k: nat)
    requires Behavior(states, steps) && k <= |steps|
    ensures |ActiveRows(states[k].tokens)|
            + Total(MovedTo(LoggedOut), states, steps, k) + Total(MovedTo(Reused), states, steps, k)
            + Total(MovedTo(PasswordChanged), states, steps, k) + Total(UnrevokedLost, states, steps, k)
            == Total(LoginsStored, states, steps, k)
  {
    if k == 0 {
      assert ActiveRows(states[0].tokens) == {};
    } else {
      RowsEqualLoginsLessEnds(states, steps, k - 1);
      NextBalances(states, steps, k - 1);
      assert RowsBalance(states[k - 1], steps[k - 1], states[k]);
    }
  }

  /** Whenever no call is between its commit and its counter update: each counter equals the rows ever
      moved to its reason, and the unrevoked rows are the logins stored less the three session
      counters, bulk revocations and unrevoked rows lost to cleanup or user deletion. */
  lemma SessionAccounts(states: seq<State>, steps: seq<Action>, k: nat)
    requires Behavior(states, steps) && k <= |steps|
    requires forall i :: 0 <= i < |states[k].calls| ==> !states[k].calls[i].Counting?
    ensures var c := states[k].counters;
            && c.logout == Total(MovedTo(LoggedOut), states, steps, k) - Total(MovedInBulk, states, steps, k)
            && c.reuse == Total(MovedTo(Reused), states, steps, k)
            && c.password == Total(MovedTo(PasswordChanged), states, steps, k)
            && c.rotations == Total(MovedTo(Rotated), states, steps, k)
            && |ActiveRows(states[k].tokens)|
               == Total(LoginsStored, states, steps, k) - c.logout - c.reuse - c.password
                  - Total(MovedInBulk, states, steps, k) - Total(UnrevokedLost, states, steps, k)
  {
    forall which ensures Uncounted(states[k].calls, which) == 0 {
      NothingDue(states[k].calls, which);
    }
    CountersEqualRowsMoved(states, steps, k, LogoutSessions);
    CountersEqualRowsMoved(states, steps, k, ReuseSessions);
    CountersEqualRowsMoved(states, steps, k, PasswordSessions);
    CountersEqualRowsMoved(states, steps, k, Rotations);
    RowsEqualLoginsLessEnds(states, steps, k);
  }
}
