/** The commits that revoke or delete rows, and the single-statement writes to users. */
module SessionEnds {
  import opened Wrappers
  import opened SessionModel
  import opened SessionInvariant
  import opened SessionWrites

  // ------------------------------------------------------------ every session of one user ends

  lemma EndHistory(births: Births, chain: Chains, log: seq<Event>, e: Event)
    requires HistoryOk(births, chain, log) && !e.TokenRotated?
    ensures HistoryOk(births, chain, log + [e])
  {
    var more := log + [e];
    assert forall k :: 0 <= k < |log| ==> more[k] == log[k];
    forall h | h in births
      ensures OnChain(births, chain, h) && Descends(births, chain, more, h) && births[h].born < |log|
    {
      assert OnChain(births, chain, h);
    }
  }

  lemma EndRevoked(users: Users, tokens: Tokens, births: Births, chain: Chains, log: seq<Event>,
                   owner: UserId, at: Time, reason: Reason, e: Event)
    requires StoredOk(users, tokens, births, chain, log)
    requires forall u :: EndsSessions(e, u) ==> u == owner
    ensures StoredOk(users, RevokeRows(tokens, ActiveOf(tokens, owner), at, reason), births, chain, log + [e])
  {
    var more, targets := log + [e], ActiveOf(tokens, owner);
    RevokeKeeps(users, tokens, births, targets, at, reason, log);
    RevokeTail(users, tokens, births, chain, targets, at, reason);
    assert forall k :: 0 <= k < |log| ==> more[k] == log[k];
  }

  /** What other calls see of the commit that ended the sessions of `owner`. */
  ghost predicate Ended(s: State, t: State, owner: UserId, at: Time, reason: Reason) {
    && t.cfg == s.cfg && t.now == s.now && t.births == s.births && t.chain == s.chain
    && t.seen == s.seen && t.seenFamilies == s.seenFamilies
    && t.tokens == RevokeRows(s.tokens, ActiveOf(s.tokens, owner), at, reason)
    && t.users.Keys == s.users.Keys
    && (forall u :: u in s.users && u != owner ==> t.users[u] == s.users[u])
    && (forall v :: v in s.passwordAt ==> v in t.passwordAt && t.passwordAt[v] == s.passwordAt[v])
  }

  lemma EndCall(s: State, t: State, owner: UserId, at: Time, reason: Reason, c: Call)
    requires Ended(s, t, owner, at, reason) && CallOk(s, c)
    requires ExclusiveOn(c) != Some(owner) && SharedOn(c) != Some(owner)
    ensures CallOk(t, c)
  {
    forall u | u != owner ensures ActiveOf(t.tokens, u) == ActiveOf(s.tokens, u) {
    }
  }

  lemma EndCalls(s: State, t: State, i: nat, owner: UserId, at: Time, reason: Reason)
    requires CallsOk(s) && At(s, i) && ExclusiveOn(s.calls[i]) == Some(owner)
    requires Ended(s, t, owner, at, reason)
    requires |t.calls| == |s.calls| && t.calls == s.calls[i := t.calls[i]]
    requires t.calls[i].Idle? || t.calls[i].Counting?
    ensures CallsOk(t)
  {
    forall j | 0 <= j < |t.calls| ensures CallOk(t, t.calls[j]) {
      if j != i {
        assert Apart(s.calls[i], s.calls[j]);
        EndCall(s, t, owner, at, reason, s.calls[j]);
      }
    }
  }

  lemma ReuseCommitStored(s: State, i: nat)
    requires CanReuseCommit(s, i) && CallOk(s, s.calls[i])
    requires StoredOk(s.users, s.tokens, s.births, s.chain, s.log)
    ensures var t := DoReuseCommit(s, i); StoredOk(t.users, t.tokens, t.births, t.chain, t.log)
  {
    var owner := s.calls[i].owner;
    EndRevoked(s.users, s.tokens, s.births, s.chain, s.log, owner, s.now, Reused,
               ReuseEnded(owner, s.calls[i].presented, s.calls[i].targets));
  }

  lemma ReuseCommitPace(s: State, i: nat)
    requires PaceOk(s) && CanReuseCommit(s, i)
    ensures PaceOk(DoReuseCommit(s, i))
  {
  }

  lemma ReuseCommitTables(s: State, i: nat)
    requires TablesOk(s) && CanReuseCommit(s, i) && CallOk(s, s.calls[i])
    ensures TablesOk(DoReuseCommit(s, i))
  {
    var owner := s.calls[i].owner;
    EndHistory(s.births, s.chain, s.log, ReuseEnded(owner, s.calls[i].presented, s.calls[i].targets));
    ReuseCommitStored(s, i);
    ReuseCommitPace(s, i);
  }

  lemma ReuseCommitCalls(s: State, i: nat)
    requires CallsOk(s) && CanReuseCommit(s, i)
    ensures CallsOk(DoReuseCommit(s, i))
  {
    assert CallOk(s, s.calls[i]);
    EndCalls(s, DoReuseCommit(s, i), i, s.calls[i].owner, s.now, Reused);
  }

  lemma BulkCommitStored(s: State, i: nat)
    requires CanBulkCommit(s, i) && CallOk(s, s.calls[i])
    requires StoredOk(s.users, s.tokens, s.births, s.chain, s.log)
    ensures var t := DoBulkCommit(s, i); StoredOk(t.users, t.tokens, t.births, t.chain, t.log)
  {
    var owner := s.calls[i].owner;
    EndRevoked(s.users, s.tokens, s.births, s.chain, s.log, owner, s.now, LoggedOut,
               UserRevoked(owner, s.calls[i].targets));
  }

  lemma BulkCommitPace(s: State, i: nat)
    requires PaceOk(s) && CanBulkCommit(s, i)
    ensures PaceOk(DoBulkCommit(s, i))
  {
  }

  lemma BulkCommitTables(s: State, i: nat)
    requires TablesOk(s) && CanBulkCommit(s, i) && CallOk(s, s.calls[i])
    ensures TablesOk(DoBulkCommit(s, i))
  {
    var owner := s.calls[i].owner;
    EndHistory(s.births, s.chain, s.log, UserRevoked(owner, s.calls[i].targets));
    BulkCommitStored(s, i);
    BulkCommitPace(s, i);
  }

  lemma BulkCommitCalls(s: State, i: nat)
    requires CallsOk(s) && CanBulkCommit(s, i)
    ensures CallsOk(DoBulkCommit(s, i))
  {
    assert CallOk(s, s.calls[i]);
    EndCalls(s, DoBulkCommit(s, i), i, s.calls[i].owner, s.now, LoggedOut);
  }

  // ------------------------------------------------------------ the password changes

  /** Writing the next version cannot overwrite what an earlier version stood for. */
  lemma NextVersion(users: Users, passwordAt: Passwords, nextUser: UserId, owner: UserId, updated: User)
    requires VersionsOk(users, passwordAt, nextUser) && owner in users
    requires updated.version == users[owner].version + 1
    ensures (owner, updated.version) !in passwordAt
    ensures VersionsOk(users[owner := updated], passwordAt[(owner, updated.version) := updated.password], nextUser)
  {
  }

  lemma ChangedUser(users: Users, tokens: Tokens, births: Births, chain: Chains, log: seq<Event>, owner: UserId,
                    updated: User)
    requires StoredOk(users, tokens, births, chain, log) && owner in users && ActiveOf(tokens, owner) == {}
    ensures StoredOk(users[owner := updated], tokens, births, chain, log)
  {
    forall h | h in tokens && Active(tokens[h]) ensures tokens[h].user != owner {
      assert h !in ActiveOf(tokens, owner);
    }
  }

  lemma NoneActive(tokens: Tokens, owner: UserId, at: Time, reason: Reason)
    ensures ActiveOf(RevokeRows(tokens, ActiveOf(tokens, owner), at, reason), owner) == {}
  {
  }

  lemma ChangePace(s: State, i: nat)
    requires CanChangeCommit(s, i) && CallOk(s, s.calls[i]) && PaceOk(s)
    ensures PaceOk(DoChangeCommit(s, i))
    ensures (s.calls[i].owner, s.calls[i].updated.version) !in s.passwordAt
  {
    NextVersion(s.users, s.passwordAt, s.nextUser, s.calls[i].owner, s.calls[i].updated);
  }

  lemma ChangeCommitStored(s: State, i: nat)
    requires CanChangeCommit(s, i) && CallOk(s, s.calls[i])
    requires StoredOk(s.users, s.tokens, s.births, s.chain, s.log)
    ensures var t := DoChangeCommit(s, i); StoredOk(t.users, t.tokens, t.births, t.chain, t.log)
  {
    var t, owner := DoChangeCommit(s, i), s.calls[i].owner;
    EndRevoked(s.users, s.tokens, s.births, s.chain, s.log, owner, s.now, PasswordChanged,
               PasswordReplaced(owner, s.calls[i].targets));
    NoneActive(s.tokens, owner, s.now, PasswordChanged);
    ChangedUser(s.users, t.tokens, s.births, s.chain, t.log, owner, s.calls[i].updated);
  }

  lemma ChangeCommitTables(s: State, i: nat)
    requires TablesOk(s) && CanChangeCommit(s, i) && CallOk(s, s.calls[i])
    ensures TablesOk(DoChangeCommit(s, i))
  {
    EndHistory(s.births, s.chain, s.log, PasswordReplaced(s.calls[i].owner, s.calls[i].targets));
    ChangeCommitStored(s, i);
    ChangePace(s, i);
  }

  lemma ChangeCommitCalls(s: State, i: nat)
    requires CallsOk(s) && CanChangeCommit(s, i) && PaceOk(s)
    ensures CallsOk(DoChangeCommit(s, i))
  {
    assert CallOk(s, s.calls[i]);
    ChangePace(s, i);
    EndCalls(s, DoChangeCommit(s, i), i, s.calls[i].owner, s.now, PasswordChanged);
  }

  // ------------------------------------------------------------ one token is logged out

  lemma LogoutCall(s: State, i: nat, h: TokenHash, j: nat)
    requires CanLogout(s, i, h) && h in s.tokens && Active(s.tokens[h])
    requires At(s, j) && j != i && CallOk(s, s.calls[j])
    ensures CallOk(DoLogout(s, i, h), s.calls[j])
  {
    var t, c := DoLogout(s, i, h), s.calls[j];
    assert !LocksRow(c, h);
    forall u | u != s.tokens[h].user ensures ActiveOf(t.tokens, u) == ActiveOf(s.tokens, u) {
    }
    assert h in ActiveOf(s.tokens, s.tokens[h].user);
  }

  lemma LogoutPace(s: State, i: nat, h: TokenHash)
    requires PaceOk(s) && CanLogout(s, i, h)
    ensures PaceOk(DoLogout(s, i, h))
  {
  }

  lemma LogoutStored(s: State, i: nat, h: TokenHash)
    requires StoredOk(s.users, s.tokens, s.births, s.chain, s.log) && CanLogout(s, i, h)
    ensures var t := DoLogout(s, i, h); StoredOk(t.users, t.tokens, t.births, t.chain, t.log)
  {
    if h in s.tokens && Active(s.tokens[h]) {
      RevokeKeeps(s.users, s.tokens, s.births, {h}, s.now, LoggedOut, s.log);
      RevokeTail(s.users, s.tokens, s.births, s.chain, {h}, s.now, LoggedOut);
    }
  }

  lemma LogoutTables(s: State, i: nat, h: TokenHash)
    requires TablesOk(s) && CanLogout(s, i, h)
    ensures TablesOk(DoLogout(s, i, h))
  {
    LogoutStored(s, i, h);
    LogoutPace(s, i, h);
  }

  lemma LogoutCalls(s: State, i: nat, h: TokenHash)
    requires CallsOk(s) && CanLogout(s, i, h)
    ensures CallsOk(DoLogout(s, i, h))
  {
    if h in s.tokens && Active(s.tokens[h]) {
      var t := DoLogout(s, i, h);
      forall j | 0 <= j < |t.calls| ensures CallOk(t, t.calls[j]) {
        if j != i { LogoutCall(s, i, h, j); }
      }
    }
  }

  // ------------------------------------------------------------ rows disappear

  /** Two tokens of one family belong to one user and stem from one login. */
  lemma {:induction false} FamilyOwner(births: Births, chain: Chains, log: seq<Event>, h: TokenHash, g: TokenHash)
    requires ChainsOk(births, chain) && LineageOk(births, chain, log)
    requires h in births && g in births && births[h].family == births[g].family
    ensures births[h].user == births[g].user && births[h].login == births[g].login
    decreases births[h].depth + births[g].depth
  {
    assert OnChain(births, chain, h) && OnChain(births, chain, g);
    var f := births[h].family;
    if births[h].depth > 0 {
      assert IsLink(births, chain, f, births[h].depth - 1);
      FamilyOwner(births, chain, log, chain[f][births[h].depth - 1], g);
    } else if births[g].depth > 0 {
      assert IsLink(births, chain, f, births[g].depth - 1);
      FamilyOwner(births, chain, log, h, chain[f][births[g].depth - 1]);
    }
  }

  lemma DeleteSuffix(tokens: Tokens, births: Births, chain: Chains, log: seq<Event>, user: UserId)
    requires ChainsOk(births, chain) && LineageOk(births, chain, log) && SuffixOk(tokens, births)
    requires forall h :: h in tokens ==> h in births && births[h].user == tokens[h].user
    ensures SuffixOk(map h | h in tokens && tokens[h].user != user :: tokens[h], births)
  {
    forall h, g | && h in tokens && tokens[h].user != user && g in births
                  && births[h].family == births[g].family && births[h].depth <= births[g].depth
      ensures g in tokens && tokens[g].user != user
    {
      FamilyOwner(births, chain, log, h, g);
    }
  }

  lemma DeleteStored(s: State, user: UserId)
    requires CanDeleteUser(s, user) && SuffixOk(DoDeleteUser(s, user).tokens, s.births)
    requires StoredOk(s.users, s.tokens, s.births, s.chain, s.log)
    ensures var t := DoDeleteUser(s, user); StoredOk(t.users, t.tokens, t.births, t.chain, t.log)
  {
  }

  lemma DeletePace(s: State, user: UserId)
    requires CanDeleteUser(s, user) && PaceOk(s) && RowsOk(s.users, s.tokens, s.births)
    ensures PaceOk(DoDeleteUser(s, user))
  {
  }

  lemma DeleteTables(s: State, user: UserId)
    requires TablesOk(s) && CanDeleteUser(s, user)
    ensures TablesOk(DoDeleteUser(s, user))
  {
    DeleteSuffix(s.tokens, s.births, s.chain, s.log, user);
    DeleteStored(s, user);
    DeletePace(s, user);
  }

  lemma DeleteCall(s: State, user: UserId, j: nat)
    requires CanDeleteUser(s, user) && At(s, j) && CallOk(s, s.calls[j])
    ensures CallOk(DoDeleteUser(s, user), s.calls[j])
  {
    var t := DoDeleteUser(s, user);
    assert ExclusiveOn(s.calls[j]) != Some(user) && SharedOn(s.calls[j]) != Some(user);
    forall u | u != user ensures ActiveOf(t.tokens, u) == ActiveOf(s.tokens, u) {
    }
  }

  lemma DeleteCalls(s: State, user: UserId)
    requires CallsOk(s) && CanDeleteUser(s, user)
    ensures CallsOk(DoDeleteUser(s, user))
  {
    forall j | 0 <= j < |s.calls| ensures CallOk(DoDeleteUser(s, user), s.calls[j]) {
      DeleteCall(s, user, j);
    }
  }

  /** A sweep takes the older end of a chain, because expiry never decreases along it. */
  lemma SweepStored(s: State, i: nat)
    requires CanSweepRun(s, i) && StoredOk(s.users, s.tokens, s.births, s.chain, s.log) && ExpiryOk(s.births)
    ensures var t := DoSweepRun(s, i); StoredOk(t.users, t.tokens, t.births, t.chain, t.log)
  {
  }

  lemma SweepPace(s: State, i: nat)
    requires CanSweepRun(s, i) && CallOk(s, s.calls[i]) && PaceOk(s) && RowsOk(s.users, s.tokens, s.births)
    ensures PaceOk(DoSweepRun(s, i))
  {
  }

  lemma SweepTables(s: State, i: nat)
    requires TablesOk(s) && CanSweepRun(s, i) && CallOk(s, s.calls[i])
    ensures TablesOk(DoSweepRun(s, i))
  {
    SweepStored(s, i);
    SweepPace(s, i);
  }

  lemma SweepCall(s: State, i: nat, j: nat)
    requires CanSweepRun(s, i) && At(s, j) && j != i && CallOk(s, s.calls[j])
    ensures CallOk(DoSweepRun(s, i), s.calls[j])
  {
    var t, c := DoSweepRun(s, i), s.calls[j];
    assert forall h :: LocksRow(c, h) && h in s.tokens ==> h in t.tokens;
    if c.RotateEnding? || c.ChangeRevoked? || c.BulkRevoked? {
      assert forall h :: h in c.targets ==> LocksRow(c, h);
      assert ActiveOf(t.tokens, c.owner) == ActiveOf(s.tokens, c.owner);
    }
  }

  lemma SweepCalls(s: State, i: nat)
    requires CallsOk(s) && CanSweepRun(s, i)
    ensures CallsOk(DoSweepRun(s, i))
  {
    var t := DoSweepRun(s, i);
    forall j | 0 <= j < |t.calls| ensures CallOk(t, t.calls[j]) {
      if j != i { SweepCall(s, i, j); }
    }
  }

  // ------------------------------------------------------------ users

  lemma RegisterStored(s: State, user: User)
    requires StoredOk(s.users, s.tokens, s.births, s.chain, s.log) && s.nextUser !in s.users
    ensures StoredOk(s.users[s.nextUser := user], s.tokens, s.births, s.chain, s.log)
  {
  }

  lemma RegisterPace(s: State, password: PasswordHash, profile: nat)
    requires PaceOk(s)
    ensures PaceOk(DoRegister(s, password, profile)) && s.nextUser !in s.users
  {
  }

  lemma RegisterTables(s: State, password: PasswordHash, profile: nat)
    requires TablesOk(s)
    ensures TablesOk(DoRegister(s, password, profile))
  {
    RegisterPace(s, password, profile);
    RegisterStored(s, User(password, 1, profile));
  }

  lemma RegisterCalls(s: State, password: PasswordHash, profile: nat)
    requires CallsOk(s) && PaceOk(s)
    ensures CallsOk(DoRegister(s, password, profile))
  {
    var t := DoRegister(s, password, profile);
    forall j | 0 <= j < |t.calls| ensures CallOk(t, t.calls[j]) {
      assert CallOk(s, s.calls[j]);
    }
  }

  lemma ProfileStored(s: State, user: UserId, fields: UserUpdate)
    requires CanProfileUpdate(s, user, fields) && StoredOk(s.users, s.tokens, s.births, s.chain, s.log)
    ensures StoredOk(DoProfileUpdate(s, user, fields).users, s.tokens, s.births, s.chain, s.log)
  {
  }

  lemma ProfilePace(s: State, user: UserId, fields: UserUpdate)
    requires CanProfileUpdate(s, user, fields) && PaceOk(s)
    ensures PaceOk(DoProfileUpdate(s, user, fields))
  {
  }

  lemma ProfileTables(s: State, user: UserId, fields: UserUpdate)
    requires TablesOk(s) && CanProfileUpdate(s, user, fields)
    ensures TablesOk(DoProfileUpdate(s, user, fields))
  {
    ProfileStored(s, user, fields);
    ProfilePace(s, user, fields);
  }

  lemma ProfileCalls(s: State, user: UserId, fields: UserUpdate)
    requires CallsOk(s) && CanProfileUpdate(s, user, fields)
    ensures CallsOk(DoProfileUpdate(s, user, fields))
  {
    var t := DoProfileUpdate(s, user, fields);
    forall j | 0 <= j < |t.calls| ensures CallOk(t, t.calls[j]) {
      assert CallOk(s, s.calls[j]);
    }
  }
}
