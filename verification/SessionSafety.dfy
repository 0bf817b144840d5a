/** Every step keeps the invariant, so every state of every run from empty tables satisfies it. */
module SessionSafety {
  import opened SessionModel
  import opened SessionInvariant
  import opened SessionSteps
  import opened SessionWrites
  import opened SessionEnds

  lemma UserStepInv(s: State, a: UserStep)
    requires Inv(s) && UserEnabled(s, a)
    ensures Inv(UserApply(s, a))
  {
    match a
    case Register(password, profile) => {
      RegisterTables(s, password, profile);
      RegisterCalls(s, password, profile);
    }
    case DeleteUser(user) => {
      DeleteTables(s, user);
      DeleteCalls(s, user);
    }
    case ProfileUpdate(user, fields) => {
      ProfileTables(s, user, fields);
      ProfileCalls(s, user, fields);
    }
  }

  lemma LoginStepInv(s: State, i: nat, a: LoginStep)
    requires Inv(s) && LoginEnabled(s, i, a)
    ensures Inv(LoginApply(s, i, a))
  {
    assert CallOk(s, s.calls[i]);
    if a.CreateCommit? {
      CreateTables(s, i);
      CreateCalls(s, i);
    } else {
      match a {
        case LoginRead(user) => LoginReadAdvances(s, i, user);
        case LoginIssue(hash) => LoginIssueAdvances(s, i, hash);
        case CreateLock => CreateLockAdvances(s, i);
        case CreateInsert(family) => CreateInsertAdvances(s, i, family);
      }
      AdvanceStep(s, LoginApply(s, i, a), i);
    }
  }

  lemma RefreshStepInv(s: State, i: nat, a: RefreshStep)
    requires Inv(s) && RefreshEnabled(s, i, a)
    ensures Inv(RefreshApply(s, i, a))
  {
    assert CallOk(s, s.calls[i]);
    if a.RotateCommit? {
      RotateTables(s, i);
      RotateCalls(s, i);
    } else if a.ReuseCommit? {
      ReuseCommitTables(s, i);
      ReuseCommitCalls(s, i);
    } else {
      match a {
        case RefreshBegin(presented, replacement) => RefreshBeginAdvances(s, i, presented, replacement);
        case RotateLookup => RotateLookupAdvances(s, i);
        case RotateLock => RotateLockAdvances(s, i);
        case RotateConsume => RotateConsumeAdvances(s, i);
        case RotateInsert => RotateInsertAdvances(s, i);
        case RotateInspect(at, familyAt) => RotateInspectAdvances(s, i, at, familyAt);
        case RotateRevoke => RotateRevokeAdvances(s, i);
      }
      AdvanceStep(s, RefreshApply(s, i, a), i);
    }
  }

  lemma OwnerStepInv(s: State, i: nat, a: OwnerStep)
    requires Inv(s) && OwnerEnabled(s, i, a)
    ensures Inv(OwnerApply(s, i, a))
  {
    assert CallOk(s, s.calls[i]);
    if a.Logout? {
      LogoutTables(s, i, a.hash);
      LogoutCalls(s, i, a.hash);
    } else if a.ChangeCommit? {
      ChangeCommitTables(s, i);
      ChangeCommitCalls(s, i);
    } else if a.BulkCommit? {
      BulkCommitTables(s, i);
      BulkCommitCalls(s, i);
    } else {
      match a {
        case ChangeLock(user, fields) => ChangeLockAdvances(s, i, user, fields);
        case ChangeWrite => ChangeWriteAdvances(s, i);
        case ChangeRevoke => ChangeRevokeAdvances(s, i);
        case BulkLock(user) => BulkLockAdvances(s, i, user);
        case BulkRevoke => BulkRevokeAdvances(s, i);
      }
      AdvanceStep(s, OwnerApply(s, i, a), i);
    }
  }

  lemma OtherStepInv(s: State, i: nat, a: OtherStep)
    requires Inv(s) && OtherEnabled(s, i, a)
    ensures Inv(OtherApply(s, i, a))
  {
    assert CallOk(s, s.calls[i]);
    if a.SweepRun? {
      SweepTables(s, i);
      SweepCalls(s, i);
    } else {
      match a {
        case SweepBegin => SweepBeginAdvances(s, i);
        case Fail => FailAdvances(s, i);
        case Count => CountAdvances(s, i);
      }
      AdvanceStep(s, OtherApply(s, i, a), i);
    }
  }

  lemma StepInv(s: State, a: Action)
    requires Inv(s) && Enabled(s, a)
    ensures Inv(Apply(s, a))
  {
    match a
    case Tick(to) => TickStep(s, to);
    case OnUsers(u) => UserStepInv(s, u);
    case OnLogin(i, l) => LoginStepInv(s, i, l);
    case OnRefresh(i, r) => RefreshStepInv(s, i, r);
    case OnOwner(i, o) => OwnerStepInv(s, i, o);
    case OnOther(i, o) => OtherStepInv(s, i, o);
  }

  lemma InitialInv(s: State)
    requires Initial(s)
    ensures Inv(s)
  {
  }

  /** Every state that any number of concurrent calls can reach satisfies the invariant. */
  lemma {:induction false} ReachableInv(states: seq<State>, steps: seq<Action>, k: nat)
    requires Behavior(states, steps) && k < |states|
    ensures Inv(states[k])
  {
    if k == 0 {
      InitialInv(states[0]);
    } else {
      ReachableInv(states, steps, k - 1);
      assert StepAt(states, steps, k - 1);
      StepInv(states[k - 1], steps[k - 1]);
    }
  }
}
