/** Every enabled step keeps the invariant of the session protocol. */
module SessionSteps {
  import opened SessionModel
  import opened SessionInvariant

  // ------------------------------------------------------------ statements that write nothing

  lemma TickStep(s: State, to: Time)
    requires Inv(s) && s.now <= to
    ensures Inv(s.(now := to))
  {
    var t := s.(now := to);
    SameTablesOk(s, t);
    forall j | 0 <= j < |t.calls| ensures CallOk(t, t.calls[j]) {
      CallStays(s, t, s.calls[j]);
    }
  }

  lemma LoginReadAdvances(s: State, i: nat, user: UserId)
    requires CanLoginRead(s, i, user) && CallOk(s, s.calls[i]) && VersionsOk(s.users, s.passwordAt, s.nextUser)
    ensures Advances(s, DoLoginRead(s, i, user), i)
  {
  }

  lemma LoginIssueAdvances(s: State, i: nat, hash: TokenHash)
    requires CanLoginIssue(s, i) && CallOk(s, s.calls[i]) && s.births.Keys <= s.seen
    ensures Advances(s, DoLoginIssue(s, i, hash), i)
  {
  }

  lemma CreateLockAdvances(s: State, i: nat)
    requires CanCreateLock(s, i) && CallOk(s, s.calls[i])
    ensures Advances(s, DoCreateLock(s, i), i)
  {
  }

  lemma CreateInsertAdvances(s: State, i: nat, family: FamilyId)
    requires CanCreateInsert(s, i, family) && CallOk(s, s.calls[i]) && s.chain.Keys <= s.seenFamilies
    ensures Advances(s, DoCreateInsert(s, i, family), i)
  {
  }

  lemma RefreshBeginAdvances(s: State, i: nat, presented: TokenHash, replacement: TokenHash)
    requires CanRefreshBegin(s, i) && CallOk(s, s.calls[i])
             && s.births.Keys <= s.seen && ExpiresBy(s.births, s.now + s.cfg.ttl)
    ensures Advances(s, DoRefreshBegin(s, i, presented, replacement), i)
  {
  }

  lemma RotateLookupAdvances(s: State, i: nat)
    requires CanRotateLookup(s, i) && CallOk(s, s.calls[i]) && RowsOk(s.users, s.tokens, s.births)
    ensures Advances(s, DoRotateLookup(s, i), i)
  {
  }

  lemma RotateLockAdvances(s: State, i: nat)
    requires CanRotateLock(s, i) && CallOk(s, s.calls[i])
    ensures Advances(s, DoRotateLock(s, i), i)
  {
  }

  lemma RotateConsumeAdvances(s: State, i: nat)
    requires CanRotateConsume(s, i) && CallOk(s, s.calls[i]) && RowsOk(s.users, s.tokens, s.births)
    ensures Advances(s, DoRotateConsume(s, i), i)
  {
    var p := s.calls[i].x.presented;
    if p in s.tokens && Live(s.tokens[p], s.now) {} else {}
  }

  lemma RotateInsertAdvances(s: State, i: nat)
    requires CanRotateInsert(s, i) && CallOk(s, s.calls[i])
    ensures Advances(s, DoRotateInsert(s, i), i)
  {
  }

  lemma RotateInspectAdvances(s: State, i: nat, at: Time, familyAt: Time)
    requires CanRotateInspect(s, i, at, familyAt) && CallOk(s, s.calls[i])
    ensures Advances(s, DoRotateInspect(s, i, at, familyAt), i)
  {
  }

  lemma RotateRevokeAdvances(s: State, i: nat)
    requires CanRotateRevoke(s, i) && CallOk(s, s.calls[i])
    ensures Advances(s, DoRotateRevoke(s, i), i)
  {
  }

  lemma ChangeLockAdvances(s: State, i: nat, user: UserId, fields: UserUpdate)
    requires CanChangeLock(s, i, user, fields) && CallOk(s, s.calls[i])
    ensures Advances(s, DoChangeLock(s, i, user, fields), i)
  {
  }

  lemma ChangeWriteAdvances(s: State, i: nat)
    requires CanChangeWrite(s, i) && CallOk(s, s.calls[i])
    ensures Advances(s, DoChangeWrite(s, i), i)
  {
  }

  lemma ChangeRevokeAdvances(s: State, i: nat)
    requires CanChangeRevoke(s, i) && CallOk(s, s.calls[i])
    ensures Advances(s, DoChangeRevoke(s, i), i)
  {
  }

  lemma BulkLockAdvances(s: State, i: nat, user: UserId)
    requires CanBulkLock(s, i, user) && CallOk(s, s.calls[i])
    ensures Advances(s, DoBulkLock(s, i, user), i)
  {
  }

  lemma BulkRevokeAdvances(s: State, i: nat)
    requires CanBulkRevoke(s, i) && CallOk(s, s.calls[i])
    ensures Advances(s, DoBulkRevoke(s, i), i)
  {
  }

  lemma SweepBeginAdvances(s: State, i: nat)
    requires CanSweepBegin(s, i) && CallOk(s, s.calls[i])
    ensures Advances(s, DoSweepBegin(s, i), i)
  {
  }

  lemma FailAdvances(s: State, i: nat)
    requires CanFail(s, i) && CallOk(s, s.calls[i])
    ensures Advances(s, DoFail(s, i), i)
  {
  }

  lemma CountAdvances(s: State, i: nat)
    requires CanCount(s, i) && CallOk(s, s.calls[i])
    ensures Advances(s, DoCount(s, i), i)
  {
  }

}
